/** One platform IPC session for one application identity (`RpcClient`), the
    translation of a presence update into the platform's activity payload, and the
    platform endpoint itself, reduced to the trace of calls it receives. */
module Client {
  import opened Types

  datatype Timestamps = Timestamps(start: Option<int>, end: Option<int>)

  datatype Assets = Assets(
    largeImage: Option<string>, largeText: Option<string>,
    smallImage: Option<string>, smallText: Option<string>)

  datatype Party = Party(id: Option<string>, size: Option<(int, int)>)

  datatype Secrets = Secrets(join: Option<string>, spectate: Option<string>, game: Option<string>)

  /** The activity payload the platform library builds; every block starts absent. */
  datatype Activity = Activity(
    state: Option<string>,
    details: Option<string>,
    instance: Option<bool>,
    timestamps: Option<Timestamps>,
    assets: Option<Assets>,
    party: Option<Party>,
    secrets: Option<Secrets>,
    buttons: seq<Button>
  )

  const EmptyActivity := Activity(None, None, None, None, None, None, None, [])

  /** The builder chain of `set_activity`: each present field of `pd` among details,
      instance and state is copied, and a timestamps block is built when a start or
      an end is present. Nothing else is forwarded. */
  function Translate(pd: PresenceData): (act: Activity)
    ensures act.details == pd.details
    ensures act.instance == pd.instance
    ensures act.state == pd.state
    ensures act.timestamps.Some? <==> pd.startTimestamp.Some? || pd.endTimestamp.Some?
    ensures act.timestamps.Some? ==>
              act.timestamps.value.start == pd.startTimestamp && act.timestamps.value.end == pd.endTimestamp
    ensures act.assets.None? && act.party.None? && act.secrets.None? && act.buttons == []
  {
    var a0 := EmptyActivity;
    var a1 := if pd.details.Some? then a0.(details := Some(pd.details.value)) else a0;
    var a2 := if pd.instance.Some? then a1.(instance := Some(pd.instance.value)) else a1;
    var a3 := if pd.state.Some? then a2.(state := Some(pd.state.value)) else a2;
    if pd.startTimestamp.Some? || pd.endTimestamp.Some? then
      var ts0 := Timestamps(None, None);
      var ts1 := if pd.startTimestamp.Some? then ts0.(start := Some(pd.startTimestamp.value)) else ts0;
      var ts2 := if pd.endTimestamp.Some? then ts1.(end := Some(pd.endTimestamp.value)) else ts1;
      a3.(timestamps := Some(ts2))
    else
      a3
  }

  /** The five fields `Translate` reads; two updates that agree on them give the same payload. */
  predicate SameForwardedFields(pd1: PresenceData, pd2: PresenceData)
  {
    && pd1.details == pd2.details
    && pd1.instance == pd2.instance
    && pd1.state == pd2.state
    && pd1.startTimestamp == pd2.startTimestamp
    && pd1.endTimestamp == pd2.endTimestamp
  }

  /** Images, party, secrets and buttons of an update never reach the platform. */
  lemma TranslateReadsOnlyForwardedFields(pd1: PresenceData, pd2: PresenceData)
    requires SameForwardedFields(pd1, pd2)
    ensures Translate(pd1) == Translate(pd2)
  {
  }

  /** An update with only `state` set gives a payload with only `state` set. */
  lemma TranslateStateOnly(pd: PresenceData, s: string)
    requires pd == PresenceData(Some(s), None, None, None, None, None, None, None,
                                None, None, None, None, None, None, None, None)
    ensures Translate(pd) == EmptyActivity.(state := Some(s))
  {
  }

  /** A call received by the platform endpoint. */
  datatype Call = Connect(id: Id) | Set(id: Id, activity: Activity) | Clear(id: Id)

  /** The platform endpoint (the local desktop application) that every client's IPC
      connection reaches; it is known only through the calls it receives. */
  class Platform {
    var calls: seq<Call>

    constructor ()
      ensures calls == []
    {
      calls := [];
    }

    method Receive(c: Call)
      modifies this
      ensures calls == old(calls) + [c]
    {
      calls := calls + [c];
    }
  }

  /** `client_id` and `user` are fixed when the client is built and never change. */
  class RpcClient {
    const clientId: Id
    const user: DiscordUser
    const platform: Platform

    /** Connects to the platform and keeps the user of its ready payload `ready`. */
    constructor (clientId: Id, ready: DiscordUser, platform: Platform)
      modifies platform
      ensures this.clientId == clientId && user == ready && this.platform == platform
      ensures platform.calls == old(platform.calls) + [Connect(clientId)]
    {
      this.clientId := clientId;
      this.user := ready;
      this.platform := platform;
      new;
      platform.Receive(Connect(clientId));
    }

    /** `RpcClient::default`: a client for the default application identity. */
    constructor Default(ready: DiscordUser, platform: Platform)
      modifies platform
      ensures clientId == DefaultClientId && user == ready && this.platform == platform
      ensures platform.calls == old(platform.calls) + [Connect(DefaultClientId)]
    {
      clientId := DefaultClientId;
      user := ready;
      this.platform := platform;
      new;
      platform.Receive(Connect(DefaultClientId));
    }

    method SetActivity(p: Presence)
      modifies platform
      ensures platform.calls == old(platform.calls) + [Set(clientId, Translate(p.presenceData))]
    {
      platform.Receive(Set(clientId, Translate(p.presenceData)));
    }

    method ClearActivity()
      modifies platform
      ensures platform.calls == old(platform.calls) + [Clear(clientId)]
    {
      platform.Receive(Clear(clientId));
    }

    function GetUser(): (u: DiscordUser)
      ensures u == user
    {
      user
    }
  }

  /** The identity `RpcClient::default` uses; its value is set in constants.rs, which
      is not part of this model. */
  const DefaultClientId: Id
}
