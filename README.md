# PreMiD-rs session multiplexer, modelled in Dafny

PreMiD-rs is a local bridge. Producers send presence updates over a socket.io
control channel. The bridge relays each update to the Discord desktop
application as a rich-presence activity. It keeps one IPC client per target
application id.

This project models the bookkeeping at the centre of that relay:

- **`Types`** (`src/types.rs`). The update records `Presence`,
  `PresenceData` and `Button`, and the ready user `DiscordUser`. Each optional
  field is an `Option`. The source declares the application id as a `String`
  in `Presence` and as a `u64` in the client and manager APIs. Both are one
  abstract type `Id` here.
- **`Client`** (`src/rpc_client.rs`). `Translate` is the `set_activity`
  builder chain, written as a pure function from `PresenceData` to
  `Activity`. `RpcClient` is a class with `const` fields `clientId` and `user`,
  so `user` cannot change after construction. The foreign `discord_presence`
  connection is a reference to a shared `Platform` object. `Platform` stands
  for the desktop application and records every call it receives in order
  (`Connect`, `Set`, `Clear`).
- **`ClientManager`** (`src/rpc_client_manager.rs`). `RpcClientManager`
  holds a `seq` of clients. It appends, finds the first match by id, and
  removes the first match. `Valid()` states that every registered client talks
  to the manager's `platform`.
- **`Dispatcher`** (`src/main.rs`). The bodies of the `setActivity` and
  `clearActivity` handlers, each run as one atomic step over the registry.
  `SetActivityCalls` and `Registered` give the calls and the registry after one
  step. `RunIds` and `RunCalls` fold those steps over a sequence of events.
  The lemmas prove four things: the clear-before-set order, one set per update,
  at most one connect per id, and that the registry's ids stay pairwise
  distinct.
- **`LocalPresence`** (`src/local_presence.rs`). The file name of a changed
  path, the suffix classification of `LocalFile::new`, and the
  `filter_map`/`collect` over one batch of watcher events. `LocalFiles::new`
  is the datatype constructor `LocalFiles(files)`, which keeps the list as
  given. File contents and the JSON parser are parameters.

Behaviour of the code that the model keeps as written:

- A `hidden == Some(true)` update clears a registered client, then still sends
  the set. When no client exists it connects a new one and sets it
  (src/main.rs:76-93). The field's own doc comment reads it as a clear
  (src/types.rs:16).
- Only details, instance, state and timestamps are forwarded to the platform
  (src/rpc_client.rs:54-82). The other fields of `PresenceData` are dropped.
- The two registry handlers, `setActivity` and `clearActivity`, each take the
  one global lock around the registry (src/main.rs:74, 109). `getVersion`,
  `settingUpdate` and `discordUser` do not touch the registry.
- A failed connect is not reported to the caller. `unwrap` panics instead.

`clear_all_activities` is called at `src/main.rs:110` but is not defined in
`src/rpc_client_manager.rs`. `ClearAllActivities` is an assumed definition:
it clears every registered client, front to back, and leaves the list as it
is.

`src/main.rs:92` passes a constructed client to `add_client`, which takes an
id. The model reads it as `add_client_instance`.

## Model

| member | source | states |
|---|---|---|
| `Client.Translate` | src/rpc_client.rs:50-85 | `details`, `instance` and `state` of the activity equal those of the update: set exactly when present, with the same value. A timestamps block is present iff a start or an end is present, and it carries exactly that start and end. Assets, party, secrets and buttons are absent. |
| `Client.TranslateReadsOnlyForwardedFields` | src/rpc_client.rs:50-85 | Two updates that agree on details, instance, state, start and end translate to the same activity. No image, party, secret or button field reaches the platform. |
| `Client.TranslateStateOnly` | src/rpc_client.rs:62-64 | An update with only `state` set translates to an activity with only `state` set. |
| `Client.RpcClient.constructor` | src/rpc_client.rs:16-45 | The client has the given id and the user of the ready payload. Exactly one `Connect(id)` is sent to the platform. |
| `Client.RpcClient.Default` | src/rpc_client.rs:100-104 | Builds a client for `DefaultClientId` and sends one `Connect` for it. |
| `Client.RpcClient.SetActivity` | src/rpc_client.rs:47-87 | Sends exactly one call, `Set(clientId, Translate(presenceData))`, to the platform. |
| `Client.RpcClient.ClearActivity` | src/rpc_client.rs:89-92 | Sends exactly one call, `Clear(clientId)`, to the platform. |
| `Client.RpcClient.GetUser` | src/rpc_client.rs:94-97 | Returns the user captured at construction. `user` is a `const`, so no method changes it. |
| `ClientManager.FirstIndex` | src/rpc_client_manager.rs:36-40 | Returns Some iff the id occurs. The index holds the id, and no earlier entry does. |
| `ClientManager.RemoveFirst` | src/rpc_client_manager.rs:27-34 | One entry shorter. As a multiset, exactly one copy of the id is gone and nothing else changes. |
| `ClientManager.RemoveFirstIsSplice` | src/rpc_client_manager.rs:27-34 | Removing the first occurrence cuts out the entry at `FirstIndex`. The entries before and after it keep their relative order. |
| `ClientManager.RpcClientManager.constructor` | src/rpc_client_manager.rs:8-12 | The new registry holds no clients. |
| `ClientManager.RpcClientManager.AddClientInstance` | src/rpc_client_manager.rs:14-21 | The list becomes the old list followed by the given client. Earlier entries keep their positions. The id is not checked for duplicates. |
| `ClientManager.RpcClientManager.AddClient` | src/rpc_client_manager.rs:23-25 | Appends exactly one fresh client with the given id, even if the id is already registered, and sends one `Connect(id)`. Earlier entries are unchanged. |
| `ClientManager.RpcClientManager.Position` | src/rpc_client_manager.rs:28-32 | Returns the index of the first client with the id, or None iff no client has it. |
| `ClientManager.RpcClientManager.RemoveClient` | src/rpc_client_manager.rs:27-34 | Requires the id to be registered, because the source unwraps. Removes only the first client with that id. The rest keep their order. |
| `ClientManager.RpcClientManager.GetClient` | src/rpc_client_manager.rs:36-40 | Returns Some iff a client has the id, and then it is the first such client in the list. |
| `ClientManager.RpcClientManager.GetClientMut` | src/rpc_client_manager.rs:42-46 | Finds the same first matching client as `GetClient`. The list is not changed. |
| `ClientManager.RpcClientManager.GetClients` | src/rpc_client_manager.rs:48-50 | Returns the stored list itself, in stored order. |
| `ClientManager.RpcClientManager.ClearAllActivities` | src/main.rs:110 | Assumed definition. Sends one `Clear` per registered client, in list order, and leaves the list unchanged. |
| `Dispatcher.OnSetActivity` | src/main.rs:74-93 | Sends exactly `SetActivityCalls(old ids, p)` to the platform. If the id was registered, the client list is unchanged. Otherwise one fresh client for the id, with the ready user, is appended, so a later update finds it. |
| `Dispatcher.OnClearActivity` | src/main.rs:109-110 | Sends only the clear-all sweep and leaves the registry unchanged. |
| `Dispatcher.Dispatch` | src/main.rs:65-113 | One event advances the registry's ids by `StepIds` and the platform trace by `StepCalls`. |
| `Dispatcher.DispatchAll` | src/main.rs:65-113 | Handling a sequence of events one after another leaves the registry's ids at `RunIds` and appends `RunCalls` to the platform trace, so the run lemmas hold of the handlers. |
| `Dispatcher.HiddenClearsBeforeSet` | src/main.rs:76-88 | Hidden update with a registered client: exactly `Clear(id)` and then `Set(id, ..)`. The clear comes strictly before the set. |
| `Dispatcher.NotHiddenNoClear` | src/main.rs:76-84 | If `hidden` is None or Some(false), no `Clear` is issued. |
| `Dispatcher.HiddenUnregisteredConnectsAndSets` | src/main.rs:76-92 | Hidden update for an unregistered id: no clear, but a connect and then a set. |
| `Dispatcher.OneSetPerUpdate` | src/main.rs:86-93 | Every `setActivity` issues exactly one `Set`, as its last call, whatever `hidden` is. |
| `Dispatcher.ConnectOnlyWhenUnregistered` | src/main.rs:86-92 | A registered id connects nothing and the registry is unchanged. An unregistered id connects exactly once and is appended. Either way the id is registered afterwards. |
| `Dispatcher.RegisteredKeepsDistinct` | src/main.rs:86-92 | A `setActivity` step keeps the registry's ids pairwise distinct. |
| `Dispatcher.ClearAllSetsNothing` | src/main.rs:109-110 | The clear-all sweep issues no `Set` and no `Connect`. |
| `Dispatcher.RunRegistersConnected` | src/main.rs:86-92 | After any run of events, the registry is the initial one followed by the ids connected during the run, in order. |
| `Dispatcher.RunKeepsDistinct` | src/main.rs:86-92 | If every add goes through the handlers, the registry's ids stay pairwise distinct. |
| `Dispatcher.OneConnectPerIdentity` | src/main.rs:89-92 | A run connects each id at most once, and never one that was already registered. |
| `Dispatcher.OneSetPerSetEvent` | src/main.rs:86-93 | A run issues exactly as many `Set` calls as it has `setActivity` events. |
| `LocalPresence.FileName` | src/local_presence.rs:34-40 | The name is a suffix of the path and holds no separator. It is the whole path or is preceded by '/'. So it is the last path component. |
| `LocalPresence.FileNameOfJoin` | src/local_presence.rs:34-40 | The file name of `dir + "/" + name` is `name`. |
| `LocalPresence.FileNameWithoutSeparator` | src/local_presence.rs:34-40 | A path without a separator is its own file name. |
| `LocalPresence.JsonIsNotJs` | src/local_presence.rs:42-50 | A ".json" name never ends in ".js", so the two arms never overlap. |
| `LocalPresence.NewLocalFile` | src/local_presence.rs:31-53 | Some iff the name ends in ".json" or ".js", and the record's `file` is the last path component. ".json" gives the parsed contents. ".js" gives the raw text as a string. Any other name gives None. |
| `LocalPresence.Somes` | src/local_presence.rs:77-83 | The `filter_map` filter: it never yields more values than the classified list holds. |
| `LocalPresence.SomesMembers` | src/local_presence.rs:77-83 | The `filter_map` filter keeps a value iff it is present somewhere in the classified list. |
| `LocalPresence.SomesAppend` | src/local_presence.rs:77-83 | The filter of a concatenation is the concatenation of the filters, so the filter keeps order. |
| `LocalPresence.CollectFiles` | src/local_presence.rs:77-83 | The batch yields at most as many records as events. |
| `LocalPresence.CollectFilesMembers` | src/local_presence.rs:77-83 | A record is collected iff some event of the batch classifies to it. So every record comes from an event, and every classified event contributes its record. |
| `LocalPresence.CollectFilesAppend` | src/local_presence.rs:77-83 | Collecting keeps event order: a batch split in two yields the first part's records, then the second's. |
| `LocalPresence.JsonThenJsBatch` | src/local_presence.rs:77-83 | Events for `dir/a.json` and `dir/b.js` yield two records in that order: parsed contents, then raw text. |

## Left out

- The HTTP server, the socket.io namespace, event registration and emits. This includes `getVersion`, `settingUpdate` and the `discordUser` reply (src/main.rs:38-138, 116-120). These are network plumbing.
- Concurrency: the `Arc<Mutex<..>>`, `tokio::spawn` and the lock. Each handler body is one atomic step. Order across events depends on who takes the lock first, so `RunCalls` assumes events are handled in the order given.
- The `discord_presence` client: `start`, `block_until_event`, and the IPC calls behind `set_activity` and `clear_activity`. These are foreign I/O. Each becomes one call appended to `Platform.calls`. The ready payload's user is an input.
- The panics from `unwrap`: a failed connect, a malformed ready payload, a rejected set or clear, a failed file read or JSON parse. They are preconditions (`RemoveClient`) or not modelled. A panic ends the handler at the failing call; its partial effects are not modelled (for example, a client connected at src/main.rs:90 whose set at :91 panics is never registered, and the next update connects again).
- `Client.RpcClient.constructor`: extracting and decoding `user` from the ready payload with serde is not modelled. The decoded user is the `ready` parameter.
- JSON parsing (serde_json) is the `parse` parameter of `NewLocalFile` and `CollectFiles`. It is a total function, so the model covers only the runs in which every ".json" file parses; the panic on malformed JSON is not modelled.
- `fs::read_to_string`, the notify debouncer and watcher, the mpsc channels, and the `for result in rx` loop of `watch_files` are I/O. Each event carries its path and the text read from it. Error batches, which are only logged, are not modelled.
- `FileName`: only "everything after the last '/'" is modelled. `Path::file_name` also skips trailing separators and fails on `..`, on the root and on non-UTF-8 names. Those cases are not modelled.
- `get_clients_mut` (src/rpc_client_manager.rs:52-54) hands out a mutable borrow of the whole vector. Dafny cannot return an alias to a `seq` field, and no core code uses it.
- `DefaultClientId`: its value is defined in constants.rs, which is not part of this model.
- `DiscordUser.flags` and `premiumType` are `u32` and `u8`, and the timestamps are `i64`. They appear here as unbounded integers, because no arithmetic is done on them.
- `src/log.rs`, `src/settings.rs` and the `println!` logging carry no behaviour.
