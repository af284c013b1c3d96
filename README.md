# Duck multiplayer: relay registry and client mirror, in Dafny

This project models the multiplayer core of a small browser duck game. It
proves properties of that model.

- **The relay** (`server.js`) keeps a table of joined players, keyed by
  connection id. It has four handlers: `playerJoin`, `playerUpdate`,
  `disconnect` and `chatMessage`. Each handler sends events to the sender
  only (`socket.emit`), to everyone but the sender (`socket.broadcast.emit`),
  or to everyone (`io.emit`).
- **Every client** (`js/multiplayer.js`, class `MultiplayerManager`) mirrors
  that table as a map of remote players, fed by the relay's events. It also
  keeps a connection flag and an interval timer. The timer pushes the
  player's own transform at most once per 100 ms. A chat guard sends only
  trimmed, non-empty text while connected.

Files:

- `protocol.dfy` (module `Protocol`): the wire types shared by both sides:
  ids, vectors, the player record and the event payloads.
- `relay.dfy` (module `Relay`): each relay handler as a function from the old
  table to an `Outcome` (new table plus emissions in order). It also holds the
  broadcast matrix as an independent reference (`Route`, `Audience`), traces
  of events (`Run`) and their lemmas. The class `Registry` holds the table and
  the emission log; each of its methods is proved to perform its handler's
  step.
- `whitespace.dfy` (module `Whitespace`): JavaScript's `String.prototype.trim`,
  used by the chat guard.
- `multiplayer.dfy` (module `Multiplayer`): the class `MultiplayerManager` and
  the functions that specify it: the `existingPlayers` fold, the tick gate and
  its trace of send times, and the chat guard.
- `session.dfy` (module `Session`): both sides together. What a joiner's table
  holds after handling the relay's snapshot, and a two-player session (A and
  B join, A chats, A moves, A leaves) traced through the relay.

Conventions:

- Connections are a set of ids passed to every relay handler: the ids open
  at that moment.
- An emission is logged as the set of ids it is addressed to, plus the event.
- Time is `nat` milliseconds, given to each tick as a parameter.
- A timer handle is a positive integer, given by the caller. Browsers return
  positive ids from `setInterval`, so `if (this.updateInterval)` means
  "a handle is stored".
- `clearInterval` calls are recorded in the log `cleared`.
- What a client emits is recorded in the log `sent`.
- A chat panel line is a `ChatLine`: a system notice or a player's message.

Three behaviours of the code a reader might not expect:

- On join, the relay sends the joiner the whole table, including the
  joiner's own record. It is not a snapshot of the *other* records. The
  client's `existingPlayers` handler is what skips the client's own id.
- `playerLeft` goes to every connection the relay still has (`io.emit`), not
  to a set that explicitly excludes the departed id. In the model, the
  destination is the `connected` set passed to the handler.
- The client's `connected` flag is set only by `connect()`. The `connect`
  socket event just re-sends `playerJoin`. So after a `disconnect` event and
  a transport-level reconnect, the flag stays false: ticks send nothing and
  chat is not sent. The model shows this as it is (`OnConnect` leaves
  `connected` unchanged).

## Model

| member | source | states |
|---|---|---|
| `Relay.Join` | server.js:21-40 | The table gains at most the key `s`. `players[s]` is the new record and every other entry is unchanged. Exactly two emissions, routed by the broadcast matrix: first the whole new table (joiner included) to the joiner, then the new record to everyone else. |
| `Relay.Update` | server.js:43-60 | An unknown sender changes nothing and emits nothing. For a known sender, only that record's position, rotation and two flags change; its id, name and colour stay. No key is added. One `playerMoved` with exactly the received values goes to everyone but the sender. |
| `Relay.Leave` | server.js:63-73 | Exactly the key `s` is removed and other entries are unchanged. One `playerLeft(s)` to every connection if `s` was joined, none otherwise. |
| `Relay.Chat` | server.js:76-85 | The table never changes. A known sender's message goes to every connection, the sender included, as `{id, name from the table, message}`. An unknown sender's message is dropped. |
| `Relay.Handle` | server.js:17-86 | Dispatching any inbound event changes no record except the sender's. The new key set is the reference computation `Admit`. Records stay keyed by their own id. Every emission goes where `Route`/`Audience` say its kind goes. |
| `Relay.JoinCreatesRecord` | server.js:25-33 | The joined record has id `s`, the given name and colour, both flags false, and position `{0,1,0}` / rotation `{y:0}` when none was supplied. |
| `Relay.JoinAddressing` | server.js:35-39 | The snapshot is addressed to `{s}` only and holds the joiner's own record. The announcement reaches `connected - {s}`, never the joiner. |
| `Relay.RejoinKeepsSize` | server.js:25 | A repeated join replaces the record: the table size is unchanged. A first join grows it by exactly one. |
| `Relay.ChatReachesSender` | server.js:79 | A joined, connected sender is among the recipients of its own chat message. |
| `Relay.RunKeepsKeysMatchingIds` | server.js:25-26 | Over any trace of events, every key `k` keeps `players[k].id == k`. |
| `Relay.RunMembership` | server.js:25-71 | After any trace, the table's keys are exactly the ids that joined and have not disconnected since. |
| `Relay.RunOnlyActorsChange` | server.js:25-71 | Over a trace with no event from `k`, the record at `k` is not created, changed or removed. |
| `Relay.RunAnnouncesLeaveOncePerJoin` | server.js:63-73 | Over any trace, the `playerLeft(s)` emissions, plus 1 if `s` is still present, never exceed the joins of `s`, plus 1 if `s` was present at the start. |
| `Relay.DisconnectTwiceAnnouncesOnce` | server.js:66-72 | Two disconnect signals for a joined id yield exactly one `playerLeft` and remove the id. |
| `Relay.Registry.constructor` | server.js:14 | The registry starts with an empty table and an empty log. |
| `Relay.Registry.HandleJoin` | server.js:21-40 | The table and the appended emissions are exactly those of `Join`. The ids-match invariant is kept. |
| `Relay.Registry.HandleUpdate` | server.js:43-60 | The table and the appended emissions are exactly those of `Update`. The ids-match invariant is kept. |
| `Relay.Registry.HandleDisconnect` | server.js:63-73 | The table and the appended emissions are exactly those of `Leave`. The ids-match invariant is kept. |
| `Relay.Registry.HandleChat` | server.js:76-85 | The table is unchanged. The appended emissions are exactly those of `Chat`. |
| `Whitespace.LeadingSpaces` | js/multiplayer.js:374 | A count no larger than the input. Every character it covers is white space, and the character just after it, if any, is not. |
| `Whitespace.TrailingSpaces` | js/multiplayer.js:374 | A count no larger than the input. Every character it covers at the end is white space, and the character just before it, if any, is not. |
| `Whitespace.Trim` | js/multiplayer.js:374 | The result is the infix of the input that starts after the leading white space. Everything outside it is white space. It neither starts nor ends with white space. It is empty exactly when the input has no visible character. |
| `Multiplayer.NewRemote` | js/multiplayer.js:135-155 | The stored entry has the received id, name and colour. Last and target position are both the received position, and last and target rotation are both `rotation.y`. A flag is true only when it arrived as true (absent means false). |
| `Multiplayer.AddAllFills` | js/multiplayer.js:52-56 | For a snapshot with distinct keys equal to their records' ids, handling it adds exactly the keys other than the client's own id, each as `addPlayer` builds it. Every other entry is left alone. |
| `Multiplayer.SendsAreSpaced` | js/multiplayer.js:269-285 | For any sequence of timer firings and any clock readings, the first push is more than `rate` ms after the last one before it. Each later push is more than `rate` ms after the push before it. |
| `Multiplayer.ChatToSend` | js/multiplayer.js:374-382 | A message is sent if and only if the client is connected and the input has a visible character. What is sent is the trimmed input, which is non-empty. |
| `Multiplayer.ChatNeverOpensAsWritten` | js/multiplayer.js:359 | As written, no key in any input state passes the T-key test. |
| `Multiplayer.ChatOpensOnT` | js/multiplayer.js:348-359 | The corrected test opens the input on T from its initial `'none'`, where the as-written test refuses. Once the input is shown, a T typed into it is not taken as the shortcut. |
| `Multiplayer.MultiplayerManager.constructor` | js/multiplayer.js:2-9 | No remote players, not connected, no timer, last update time 0, update rate 100 ms, and empty chat, sent and cleared logs. |
| `Multiplayer.MultiplayerManager.Connect` | js/multiplayer.js:19-31 | Afterwards the client is connected and the given timer handle is stored. |
| `Multiplayer.MultiplayerManager.StartUpdates` | js/multiplayer.js:267-286 | The timer handle is stored; an earlier one is not cleared. |
| `Multiplayer.MultiplayerManager.StopUpdates` | js/multiplayer.js:288-293 | Afterwards no handle is stored. `clearInterval` is called once with the stored handle if there was one, and not at all otherwise, so a second call changes nothing. |
| `Multiplayer.MultiplayerManager.OnConnect` | js/multiplayer.js:35-45 | Exactly one `playerJoin` is appended, carrying the duck's name, colour, position and yaw. |
| `Multiplayer.MultiplayerManager.AddPlayer` | js/multiplayer.js:114-156 | Exactly the entry at the data's own id is added or overwritten, with `NewRemote` of the data. |
| `Multiplayer.MultiplayerManager.OnExistingPlayers` | js/multiplayer.js:48-57 | The table becomes the in-order fold `AddAll` over the snapshot, which skips the client's own id. Only the table changes. |
| `Multiplayer.MultiplayerManager.OnPlayerJoined` | js/multiplayer.js:60-69 | One entry is added or overwritten, and exactly one system line `"<name> joined the game"` is appended. Afterwards exactly one entry carries the joiner's id, even on a rejoin. |
| `Multiplayer.MultiplayerManager.UpdatePlayerPosition` | js/multiplayer.js:251-265 | An unknown id changes nothing. For a known id, only that entry's target position, target rotation and two flags change; its id, name, colour and last transform stay. No key is added or removed, and other entries are untouched. |
| `Multiplayer.MultiplayerManager.OnPlayerLeft` | js/multiplayer.js:77-93 | A known id removes exactly that entry and appends one system line `"<name> left the game"`. An unknown id leaves the table and the chat unchanged. Afterwards no entry carries the departed id. |
| `Multiplayer.MultiplayerManager.OnChatMessage` | js/multiplayer.js:96-98 | Exactly one player line with the relayed name and message is appended. |
| `Multiplayer.MultiplayerManager.OnDisconnect` | js/multiplayer.js:101-111 | Afterwards `connected` is false, no timer is stored and the table is empty. The stored timer, if any, is cleared exactly once. |
| `Multiplayer.MultiplayerManager.Tick` | js/multiplayer.js:269-285 | A `playerUpdate` is appended and `lastUpdateTime := now` exactly when connected, a duck exists and `now - lastUpdateTime > updateRate`. Otherwise nothing changes. |
| `Multiplayer.MultiplayerManager.SubmitChat` | js/multiplayer.js:373-382 | A `chatMessage` with the trimmed text is appended exactly when `ChatToSend` allows it; otherwise nothing is sent. |
| `Multiplayer.MultiplayerManager.AddChatMessage` | js/multiplayer.js:392-415 | Exactly one line is appended to the chat log. |
| `Session.JoinerLearnsEveryoneElse` | server.js:35-36 | A joiner that handles the snapshot the relay sends it, in any key order, ends up with an entry for every other joined player, built from the relay's record, and with no other new entry besides those it already had (`m`). |
| `Session.AnnouncementBecomesEntry` | server.js:39 | The entry the other clients create from `playerJoined` is the relay's new record at rest: id `s`, flags false, last and target transform equal to the (defaulted) join transform. |
| `Session.ScenarioTail` | server.js:43-85 | From the chat line on, the session gives exactly three emissions: the chat to both ducks, the move to B only, and the departure to B only. Only B's record is left. |
| `Session.TwoDuckScenario` | server.js:21-85 | The two-player session gives exactly the seven emissions, recipients included, and leaves only B's record. |

## Findings

| source | as written | input that shows it | evidently intended | confidence | as-written member | corrected member |
|---|---|---|---|---|---|---|
| js/multiplayer.js:359 | `event.code === 'KeyT' && !this.chatInput.style.display === 'block'` parses as `(!display) === 'block'`: a boolean compared with a string, which is never strictly equal | key `KeyT` with the input hidden (`display` is `'none'`, its initial value at js/multiplayer.js:348) | T shows the chat input when it is not already shown: `display !== 'block'` | high (not executed) | `Multiplayer.OpensChatAsWritten`, `Multiplayer.ChatNeverOpensAsWritten` | `Multiplayer.OpensChat`, `Multiplayer.ChatOpensOnT` |

A consequence: the input starts hidden (js/multiplayer.js:348) and a hidden
input cannot take focus, so as written the Enter listener
(js/multiplayer.js:372-389) never fires and no client ever sends
`chatMessage`. `SubmitChat` models that listener as it would run once the
input could be opened. The rest of the model does not depend on this test. The chat guard on Enter
(`ChatToSend`) is modelled apart from how the input is opened.

## Left out

- Transport: Express, static serving, the listening port and `io()`
  (server.js:1-11, 88-92; js/multiplayer.js:21) are foreign library calls.
  Connections appear only as sets of ids, and emissions only as log entries.
  Delivery, ordering per destination and transport failures are not modelled.
- Console logging in every handler: output only.
- Concurrency: the source runs each handler to completion on one event loop,
  so a trace of events in sequence is the whole behaviour.
- Malformed payloads: a missing `position` or `rotation` makes `addPlayer`
  throw, and a missing field in `playerUpdate` is stored as `undefined`. The
  model's payload types always carry these fields, except where the source
  itself supplies a default (join position and rotation, the two client flags).
- `OnConnect` assumes `game.duck` exists: the source reads it with no check.
- Meshes, name labels, `createRemoteDuck`, `createNameLabel`, `scene.add` and
  `scene.remove` (js/multiplayer.js:116-132, 158-249, 88, 108): Three.js
  rendering. Entries hold no mesh.
- `update(delta)` (js/multiplayer.js:295-312): interpolation by `lerp` and the
  `Math.sin` bob are floating-point on wall-clock time.
- Chat DOM set-up, the Escape key, and clearing and hiding the input after
  Enter (js/multiplayer.js:314-371, 381, 385); the HTML formatting in
  `addChatMessage`. Only the T-key test (see Findings) and "append one line"
  are kept.
- `Multiplayer.SendsAreSpaced`: it is proved about the tick gate as a
  function over a sequence of firings. No method replays a sequence of
  `Tick` calls. `Tick`'s contract is stated with the same gate.
- The timer keeps firing `Tick` however `updateInterval` is set: the closure
  does not consult it. `Tick` therefore does not require a stored handle.
- `js/duck.js`, `js/camera.js`, `js/terrain.js`, `js/main.js`,
  `js/playerCustomization.js`, `js/menu.js`: movement physics, camera
  trigonometry, random scenery, rendering loop and UI builders. None of them
  is part of this model.
- Strings are sequences of Unicode scalar values, where JavaScript uses UTF-16
  code units. `trim`'s white-space set is the ECMAScript one.
