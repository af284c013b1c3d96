/** The client's mirror of the relay (js/multiplayer.js, class
    MultiplayerManager): a table of remote players fed by the relay's events,
    the connection flag, the periodic position push with its time gate, the
    chat-send guard and the chat panel as a log of lines. Meshes, name labels
    and the scene are not modelled. */
module Multiplayer {
  import opened Protocol
  import opened Whitespace

  /** A browser interval id: `setInterval` returns a positive integer, so a
      stored handle is always truthy. */
  type TimerHandle = h: int | h > 0 witness 1

  /** A player record as it arrives at a client; the two movement flags may be
      absent from the payload. */
  datatype PlayerData = PlayerData(
    id: Id,
    name: string,
    color: string,
    position: Vec3,
    rotation: Rotation,
    isMoving: Option<bool>,
    isJumping: Option<bool>)

  /** A relay record as delivered: every field is present. */
  function FromRecord(r: PlayerRecord): PlayerData {
    PlayerData(r.id, r.name, r.color, r.position, r.rotation, Some(r.isMoving), Some(r.isJumping))
  }

  /** The client's entry for one remote player (mesh and label left out). */
  datatype RemotePlayer = RemotePlayer(
    id: Id,
    name: string,
    color: string,
    isMoving: bool,
    isJumping: bool,
    lastPosition: Vec3,
    targetPosition: Vec3,
    lastRotation: real,
    targetRotation: real)

  /** One line of the chat panel: a system notice or a player's message. */
  datatype ChatLine = SystemLine(text: string) | PlayerLine(name: string, message: string)

  /** What the client's own duck reports when the client sends its state. */
  datatype DuckView = DuckView(
    name: string,
    color: string,
    position: Vec3,
    rotationY: real,
    isMoving: bool,
    isJumping: bool)

  /** The entry `addPlayer` stores: both the last and the target transform
      are the received one, and a flag is set only when it arrived as true. */
  function NewRemote(d: PlayerData): (e: RemotePlayer)
    ensures e.id == d.id && e.name == d.name && e.color == d.color
    ensures e.lastPosition == d.position && e.targetPosition == d.position
    ensures e.lastRotation == d.rotation.y && e.targetRotation == d.rotation.y
    ensures e.isMoving <==> d.isMoving == Some(true)
    ensures e.isJumping <==> d.isJumping == Some(true)
  {
    RemotePlayer(d.id, d.name, d.color, d.isMoving.GetOr(false), d.isJumping.GetOr(false),
                 d.position, d.position, d.rotation.y, d.rotation.y)
  }

  /** The `existingPlayers` handler as a left fold over the snapshot in
      key order: every entry whose key is not the client's own id is added
      with `addPlayer`, which files it under the entry's own `id`. */
  function AddAll(m: map<Id, RemotePlayer>, snap: seq<(Id, PlayerData)>, self: Id): map<Id, RemotePlayer>
    decreases |snap|
  {
    if snap == [] then m
    else
      var m' := if snap[0].0 != self then m[snap[0].1.id := NewRemote(snap[0].1)] else m;
      AddAll(m', snap[1..], self)
  }

  function KeysOf(snap: seq<(Id, PlayerData)>): set<Id> {
    set i | 0 <= i < |snap| :: snap[i].0
  }

  /** For a snapshot whose keys are distinct and equal to the ids they hold
      (as the relay's table is), the handler adds exactly the other players,
      each as `addPlayer` builds it, and leaves every other entry alone. */
  lemma {:induction false} AddAllFills(m: map<Id, RemotePlayer>, snap: seq<(Id, PlayerData)>, self: Id)
    requires forall i :: 0 <= i < |snap| ==> snap[i].1.id == snap[i].0
    requires forall i, j :: 0 <= i < j < |snap| ==> snap[i].0 != snap[j].0
    ensures AddAll(m, snap, self).Keys == m.Keys + (KeysOf(snap) - {self})
    ensures forall i :: 0 <= i < |snap| && snap[i].0 != self ==>
      AddAll(m, snap, self)[snap[i].0] == NewRemote(snap[i].1)
    ensures forall k :: k in m && (k !in KeysOf(snap) || k == self) ==>
      AddAll(m, snap, self)[k] == m[k]
    decreases |snap|
  {
    if snap != [] {
      var h := snap[0];
      var rest := snap[1..];
      var m' := if h.0 != self then m[h.1.id := NewRemote(h.1)] else m;
      assert KeysOf(snap) == {h.0} + KeysOf(rest) by {
        forall k | k in KeysOf(snap) ensures k in {h.0} + KeysOf(rest) {
          var i :| 0 <= i < |snap| && snap[i].0 == k;
          if i > 0 { assert rest[i - 1].0 == k; }
        }
        forall k | k in KeysOf(rest) ensures k in KeysOf(snap) {
          var i :| 0 <= i < |rest| && rest[i].0 == k;
          assert snap[i + 1].0 == k;
        }
      }
      assert h.0 !in KeysOf(rest) by {
        forall i | 0 <= i < |rest| ensures rest[i].0 != h.0 {
          assert snap[i + 1] == rest[i];
        }
      }
      AddAllFills(m', rest, self);
      forall i | 0 <= i < |snap| && snap[i].0 != self
        ensures AddAll(m, snap, self)[snap[i].0] == NewRemote(snap[i].1)
      {
        if i > 0 { assert snap[i] == rest[i - 1]; }
      }
    }
  }

  // ---------------------------------------------------------------------
  // The position push.

  /** The test in the interval callback (js/multiplayer.js:270, 274): the
      client is connected and has a duck (`live`), and strictly more than
      `rate` milliseconds have passed since the last push. */
  predicate ShouldSend(live: bool, now: int, last: int, rate: nat) {
    live && now - last > rate
  }

  /** One firing of the interval: the clock reading and whether the client
      was connected with a duck at that moment. */
  datatype TickInput = TickInput(now: nat, live: bool)

  /** The clock readings at which a sequence of firings pushes an update,
      starting from the time of the last push. */
  function SendTimes(last: int, rate: nat, ticks: seq<TickInput>): seq<nat>
    decreases |ticks|
  {
    if ticks == [] then []
    else if ShouldSend(ticks[0].live, ticks[0].now, last, rate) then
      [ticks[0].now] + SendTimes(ticks[0].now, rate, ticks[1..])
    else
      SendTimes(last, rate, ticks[1..])
  }

  /** Pushes are strictly more than `rate` apart: the first one after `last`,
      and every later one after its predecessor, whatever the clock does. */
  lemma {:induction false} SendsAreSpaced(last: int, rate: nat, ticks: seq<TickInput>)
    ensures var r := SendTimes(last, rate, ticks);
      && (|r| > 0 ==> r[0] - last > rate)
      && (forall i :: 0 <= i < |r| - 1 ==> r[i + 1] - r[i] > rate)
    decreases |ticks|
  {
    if ticks != [] {
      var t := ticks[0];
      if ShouldSend(t.live, t.now, last, rate) {
        SendsAreSpaced(t.now, rate, ticks[1..]);
        var tail := SendTimes(t.now, rate, ticks[1..]);
        var r := [t.now] + tail;
        forall i | 0 <= i < |r| - 1 ensures r[i + 1] - r[i] > rate {
          if i > 0 { assert r[i + 1] == tail[i] && r[i] == tail[i - 1]; }
        }
      } else {
        SendsAreSpaced(last, rate, ticks[1..]);
      }
    }
  }

  // ---------------------------------------------------------------------
  // The chat-send guard.

  /** What pressing Enter sends (js/multiplayer.js:374-382): the trimmed
      input, only if it has a visible character and the client is connected. */
  function ChatToSend(input: string, connected: bool): (r: Option<string>)
    ensures r.Some? <==> connected && HasVisible(input)
    ensures r.Some? ==> r.value == Trim(input) && r.value != []
  {
    var message := Trim(input);
    if message != [] && connected then Some(message) else None
  }

  // ---------------------------------------------------------------------
  // Opening the chat input with the T key (js/multiplayer.js:359).

  /** The two kinds of JavaScript value the test compares. */
  datatype JsValue = JsBool(b: bool) | JsString(s: string)

  /** `===`: values of different types are never strictly equal. */
  predicate StrictEquals(a: JsValue, b: JsValue) {
    a == b
  }

  /** The test as written: `!display === 'block'` parses as
      `(!display) === 'block'`, a boolean compared with a string. */
  predicate OpensChatAsWritten(code: string, display: string) {
    code == "KeyT" && StrictEquals(JsBool(display == ""), JsString("block"))
  }

  /** The test as evidently intended: T opens the input when it is hidden. */
  predicate OpensChat(code: string, display: string) {
    code == "KeyT" && display != "block"
  }

  /** As written, no key press in any state opens the chat input. */
  lemma ChatNeverOpensAsWritten(code: string, display: string)
    ensures !OpensChatAsWritten(code, display)
  {
  }

  /** As intended, T opens the input from its initial `display = 'none'`,
      where the test as written refuses; and once the input is shown, a `t`
      typed into it is not taken as the shortcut (no `preventDefault`). */
  lemma ChatOpensOnT()
    ensures OpensChat("KeyT", "none") && !OpensChatAsWritten("KeyT", "none")
    ensures !OpensChat("KeyT", "block")
  {
  }

  /** The update pushed on a tick, read off the client's duck. */
  function UpdateOf(duck: DuckView): UpdateData {
    UpdateData(duck.position, Rotation(duck.rotationY), duck.isMoving, duck.isJumping)
  }

  // ---------------------------------------------------------------------
  // The manager.

  class MultiplayerManager {
    /** The other players, by id. */
    var players: map<Id, RemotePlayer>
    var connected: bool
    var updateInterval: Option<TimerHandle>
    /** Clock reading (ms) of the last pushed update. */
    var lastUpdateTime: nat
    const updateRate: nat := 100
    /** The chat panel, oldest line first. */
    var chat: seq<ChatLine>
    /** Every event this client emitted to the relay, in order. */
    var sent: seq<ClientEvent>
    /** Every handle passed to `clearInterval`, in order. */
    var cleared: seq<TimerHandle>

    /** Every remote entry is filed under its own id. */
    ghost predicate Valid()
      reads this
    {
      forall k :: k in players ==> players[k].id == k
    }

    /** js/multiplayer.js:2-17 (chat UI set-up left out) */
    constructor ()
      ensures Valid()
      ensures players == map[] && !connected && updateInterval == None && lastUpdateTime == 0
      ensures chat == [] && sent == [] && cleared == []
    {
      players := map[];
      connected := false;
      updateInterval := None;
      lastUpdateTime := 0;
      chat := [];
      sent := [];
      cleared := [];
    }

    /** `connect`: mark the client connected and start the push timer, whose
        handle the browser supplies. An earlier timer is not cleared. */
    method Connect(handle: TimerHandle)
      modifies this`connected, this`updateInterval
      ensures connected && updateInterval == Some(handle)
    {
      connected := true;
      StartUpdates(handle);
    }

    method StartUpdates(handle: TimerHandle)
      modifies this`updateInterval
      ensures updateInterval == Some(handle)
    {
      updateInterval := Some(handle);
    }

    /** Clears the timer if there is one; a second call does nothing. */
    method StopUpdates()
      modifies this`updateInterval, this`cleared
      ensures updateInterval == None
      ensures old(updateInterval).Some? ==> cleared == old(cleared) + [old(updateInterval).value]
      ensures old(updateInterval).None? ==> cleared == old(cleared)
    {
      if updateInterval.Some? {
        cleared := cleared + [updateInterval.value];
        updateInterval := None;
      }
    }

    /** The `connect` socket event: announce this player to the relay. */
    method OnConnect(duck: DuckView)
      modifies this`sent
      ensures sent == old(sent) + [PlayerJoin(JoinData(duck.name, duck.color, Some(duck.position),
                                                       Some(Rotation(duck.rotationY))))]
    {
      sent := sent + [PlayerJoin(JoinData(duck.name, duck.color, Some(duck.position),
                                          Some(Rotation(duck.rotationY))))];
    }

    /** `addPlayer`: store (or overwrite) the entry at the data's own id. */
    method AddPlayer(d: PlayerData)
      requires Valid()
      modifies this`players
      ensures Valid()
      ensures players == old(players)[d.id := NewRemote(d)]
    {
      players := players[d.id := NewRemote(d)];
    }

    /** The `existingPlayers` socket event, over the snapshot's keys in order. */
    method OnExistingPlayers(snapshot: seq<(Id, PlayerData)>, selfId: Id)
      requires Valid()
      modifies this`players
      ensures Valid()
      ensures players == AddAll(old(players), snapshot, selfId)
    {
      var i := 0;
      while i < |snapshot|
        invariant 0 <= i <= |snapshot|
        invariant Valid()
        invariant AddAll(players, snapshot[i..], selfId) == AddAll(old(players), snapshot, selfId)
      {
        var (id, d) := snapshot[i];
        assert snapshot[i..][1..] == snapshot[i + 1..];
        if id != selfId {
          AddPlayer(d);
        }
        i := i + 1;
      }
    }

    /** The `playerJoined` socket event: one entry and one system line. The
        joiner is then drawn by exactly one entry, even on a rejoin. */
    method OnPlayerJoined(d: PlayerData)
      requires Valid()
      modifies this`players, this`chat
      ensures Valid()
      ensures players == old(players)[d.id := NewRemote(d)]
      ensures forall k :: k in players && players[k].id == d.id ==> k == d.id
      ensures chat == old(chat) + [SystemLine(d.name + " joined the game")]
    {
      AddPlayer(d);
      AddChatMessage(SystemLine(d.name + " joined the game"));
    }

    /** `updatePlayerPosition`, the `playerMoved` socket event: for a known id,
        only the target transform and the two flags change. */
    method UpdatePlayerPosition(id: Id, position: Vec3, rotation: Rotation, isMoving: bool, isJumping: bool)
      requires Valid()
      modifies this`players
      ensures Valid()
      ensures players.Keys == old(players).Keys
      ensures id !in old(players) ==> players == old(players)
      ensures forall k :: k in old(players) && k != id ==> players[k] == old(players)[k]
      ensures id in old(players) ==>
        var was, now := old(players)[id], players[id];
        && now.id == was.id && now.name == was.name && now.color == was.color
        && now.lastPosition == was.lastPosition && now.lastRotation == was.lastRotation
        && now.targetPosition == position && now.targetRotation == rotation.y
        && now.isMoving == isMoving && now.isJumping == isJumping
    {
      if id in players {
        var p := players[id];
        p := p.(targetPosition := position);
        p := p.(targetRotation := rotation.y);
        p := p.(isMoving := isMoving);
        p := p.(isJumping := isJumping);
        players := players[id := p];
      }
    }

    /** The `playerLeft` socket event. Afterwards no entry draws the departed
        player. */
    method OnPlayerLeft(id: Id)
      requires Valid()
      modifies this`players, this`chat
      ensures Valid()
      ensures forall k :: k in players ==> players[k].id != id
      ensures id in old(players) ==>
        && players == old(players) - {id}
        && chat == old(chat) + [SystemLine(old(players)[id].name + " left the game")]
      ensures id !in old(players) ==> players == old(players) && chat == old(chat)
    {
      if id in players {
        AddChatMessage(SystemLine(players[id].name + " left the game"));
        players := players - {id};
      }
    }

    /** The `chatMessage` socket event: the relay's `{id, name, message}`. */
    method OnChatMessage(sender: Id, name: string, message: string)
      modifies this`chat
      ensures chat == old(chat) + [PlayerLine(name, message)]
    {
      AddChatMessage(PlayerLine(name, message));
    }

    /** The `disconnect` socket event: offline, timer stopped, table emptied. */
    method OnDisconnect()
      requires Valid()
      modifies this`connected, this`updateInterval, this`cleared, this`players
      ensures Valid()
      ensures !connected && updateInterval == None && players == map[]
      ensures old(updateInterval).Some? ==> cleared == old(cleared) + [old(updateInterval).value]
      ensures old(updateInterval).None? ==> cleared == old(cleared)
    {
      connected := false;
      StopUpdates();
      players := map[];
    }

    /** The body of the interval callback at clock reading `now`. */
    method Tick(now: nat, duck: Option<DuckView>)
      modifies this`lastUpdateTime, this`sent
      ensures ShouldSend(connected && duck.Some?, now, old(lastUpdateTime), updateRate) ==>
        lastUpdateTime == now && sent == old(sent) + [PlayerUpdate(UpdateOf(duck.value))]
      ensures !ShouldSend(connected && duck.Some?, now, old(lastUpdateTime), updateRate) ==>
        lastUpdateTime == old(lastUpdateTime) && sent == old(sent)
    {
      if connected && duck.Some? {
        if now - lastUpdateTime > updateRate {
          sent := sent + [PlayerUpdate(UpdateOf(duck.value))];
          lastUpdateTime := now;
        }
      }
    }

    /** Enter in the chat input: send the trimmed text when allowed. */
    method SubmitChat(input: string)
      modifies this`sent
      ensures ChatToSend(input, connected).Some? ==>
        sent == old(sent) + [ChatMessage(ChatToSend(input, connected).value)]
      ensures ChatToSend(input, connected).None? ==> sent == old(sent)
    {
      var message := Trim(input);
      if message != [] && connected {
        sent := sent + [ChatMessage(message)];
      }
    }

    /** `addChatMessage`: append one line to the panel. */
    method AddChatMessage(line: ChatLine)
      modifies this`chat
      ensures chat == old(chat) + [line]
    {
      chat := chat + [line];
    }
  }
}
