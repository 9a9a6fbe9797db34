/** The records exchanged with producers and with the platform: a presence update
    (`Presence`, `PresenceData`, `Button`) and the user descriptor that the platform
    returns when a connection becomes ready (`DiscordUser`). They carry no behaviour. */
module Types {

  datatype Option<+T> = None | Some(value: T)

  /** Identity of one target application registration. The source declares it as a
      `String` in `Presence` but as `u64` in the client and manager APIs; one opaque
      type with equality stands for both. */
  type Id(==, 0)

  datatype Button = Button(text: string, url: string)  // `label` in the source; `label` is a Dafny keyword

  /** The activity fields a producer may send; every one of them is optional. */
  datatype PresenceData = PresenceData(
    state: Option<string>,
    details: Option<string>,
    startTimestamp: Option<int>,
    endTimestamp: Option<int>,
    largeImageKey: Option<string>,
    largeImageText: Option<string>,
    smallImageKey: Option<string>,
    smallImageText: Option<string>,
    instance: Option<bool>,
    partyId: Option<string>,
    partySize: Option<int>,
    partyMax: Option<int>,
    matchSecret: Option<string>,
    spectateSecret: Option<string>,
    joinSecret: Option<string>,
    buttons: Option<seq<Button>>
  )

  /** One inbound presence update for the application `clientId`. */
  datatype Presence = Presence(
    clientId: Id,
    trayTitle: string,
    playback: bool,
    presenceData: PresenceData,
    hidden: Option<bool>,
    mediaKeys: Option<bool>
  )

  /** The user snapshot taken from the platform's ready payload. */
  datatype DiscordUser = DiscordUser(
    avatar: string,
    bot: bool,
    discriminator: string,
    flags: nat,
    id: string,
    premiumType: nat,
    username: string
  )
}
