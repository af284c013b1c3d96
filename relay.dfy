/** The relay's player registry (server.js): a table from connection id to
    player record, and the four handlers `playerJoin`, `playerUpdate`,
    `disconnect` and `chatMessage`. Each handler is first given as a function
    from the old table to an Outcome (the new table and the emissions, in
    order); the class Registry holds the table and the emission log and its
    methods are proved to perform exactly those steps. */
module Relay {
  import opened Protocol

  type Table = map<Id, PlayerRecord>

  /** Defaults used when `playerJoin` carries no position or rotation. */
  const DefaultPosition := Vec3(0.0, 1.0, 0.0)
  const DefaultRotation := Rotation(0.0)

  /** The three ways Socket.IO addresses an emission made while handling an
      event of connection `s`: `socket.emit` (the sender only),
      `socket.broadcast.emit` (every connection but the sender), `io.emit`
      (every connection). */
  datatype Target = Sender | Others | Everyone

  /** One emission: the connections it is addressed to and the event. */
  datatype Emission = Emission(to: set<Id>, event: ServerEvent)

  /** The effect of handling one inbound event. */
  datatype Outcome = Outcome(players: Table, out: seq<Emission>)

  /** An inbound event as the relay sees it: from which connection, and the
      set of connections open at that moment. */
  datatype Inbound =
    | Received(from: Id, event: ClientEvent, connected: set<Id>)
    | Disconnected(from: Id, connected: set<Id>)

  // ---------------------------------------------------------------------
  // The broadcast matrix, stated independently of the handlers.

  function Route(e: ServerEvent): Target {
    match e
    case ExistingPlayers(_) => Sender
    case PlayerJoined(_) => Others
    case PlayerMoved(_, _, _, _, _) => Others
    case PlayerLeft(_) => Everyone
    case ChatBroadcast(_, _, _) => Everyone
  }

  function Audience(g: Target, s: Id, connected: set<Id>): set<Id> {
    match g
    case Sender => {s}
    case Others => connected - {s}
    case Everyone => connected
  }

  /** Every emission in `out` goes where the matrix says its kind goes. */
  predicate Routed(out: seq<Emission>, s: Id, connected: set<Id>) {
    forall i :: 0 <= i < |out| ==> out[i].to == Audience(Route(out[i].event), s, connected)
  }

  // ---------------------------------------------------------------------
  // Table invariants and frames.

  /** Every record is filed under its own id. */
  predicate KeysMatchIds(t: Table) {
    forall k :: k in t ==> t[k].id == k
  }

  /** `u` is `t` except possibly at key `s`. */
  predicate SameExcept(t: Table, u: Table, s: Id) {
    && (forall k :: k in t && k != s ==> k in u && u[k] == t[k])
    && (forall k :: k in u && k != s ==> k in t)
  }

  /** The record stored by `playerJoin` (server.js:25-33). */
  function NewRecord(s: Id, d: JoinData): PlayerRecord {
    PlayerRecord(s, d.name, d.color, d.position.GetOr(DefaultPosition),
                 d.rotation.GetOr(DefaultRotation), false, false)
  }

  /** `after` is `before` with exactly the four fields of `playerUpdate`
      taken from `d`: identity, name and colour are kept. */
  predicate Moved(before: PlayerRecord, after: PlayerRecord, d: UpdateData) {
    && after.id == before.id
    && after.name == before.name
    && after.color == before.color
    && after.position == d.position
    && after.rotation == d.rotation
    && after.isMoving == d.isMoving
    && after.isJumping == d.isJumping
  }

  // ---------------------------------------------------------------------
  // The handlers as functions.

  /** `playerJoin` from `s`: store (or overwrite) the record, send the whole
      table to the joiner, announce the new record to everyone else. */
  function Join(t: Table, s: Id, d: JoinData, connected: set<Id>): (r: Outcome)
    ensures r.players.Keys == t.Keys + {s}
    ensures r.players[s] == NewRecord(s, d)
    ensures SameExcept(t, r.players, s)
    ensures |r.out| == 2 && Routed(r.out, s, connected)
    ensures r.out[0].event == ExistingPlayers(r.players)
    ensures r.out[1].event == PlayerJoined(NewRecord(s, d))
  {
    var p := t[s := NewRecord(s, d)];
    Outcome(p, [Emission({s}, ExistingPlayers(p)),
                Emission(connected - {s}, PlayerJoined(p[s]))])
  }

  /** `playerUpdate` from `s`: ignored for an unknown id; otherwise the four
      movement fields are overwritten and relayed to everyone else. */
  function Update(t: Table, s: Id, d: UpdateData, connected: set<Id>): (r: Outcome)
    ensures s !in t ==> r.players == t && r.out == []
    ensures s in t ==> r.players.Keys == t.Keys && Moved(t[s], r.players[s], d)
    ensures SameExcept(t, r.players, s)
    ensures |r.out| == (if s in t then 1 else 0) && Routed(r.out, s, connected)
    ensures s in t ==>
      r.out[0].event == PlayerMoved(s, d.position, d.rotation, d.isMoving, d.isJumping)
  {
    if s in t then
      var p := t[s].(position := d.position, rotation := d.rotation,
                     isMoving := d.isMoving, isJumping := d.isJumping);
      Outcome(t[s := p],
              [Emission(connected - {s}, PlayerMoved(s, d.position, d.rotation, d.isMoving, d.isJumping))])
    else
      Outcome(t, [])
  }

  /** `disconnect` of `s`: for a known id, announce the departure to every
      connection and drop exactly that key; for an unknown id, nothing. */
  function Leave(t: Table, s: Id, connected: set<Id>): (r: Outcome)
    ensures r.players.Keys == t.Keys - {s}
    ensures SameExcept(t, r.players, s)
    ensures |r.out| == (if s in t then 1 else 0) && Routed(r.out, s, connected)
    ensures forall i :: 0 <= i < |r.out| ==> r.out[i].event == PlayerLeft(s)
  {
    if s in t then
      Outcome(t - {s}, [Emission(connected, PlayerLeft(s))])
    else
      Outcome(t, [])
  }

  /** `chatMessage` from `s`: for a known id, relay it with the sender's
      registered name to every connection, the sender included; otherwise
      drop it. The table never changes. */
  function Chat(t: Table, s: Id, message: string, connected: set<Id>): (r: Outcome)
    ensures r.players == t
    ensures |r.out| == (if s in t then 1 else 0) && Routed(r.out, s, connected)
    ensures s in t ==> r.out[0].event == ChatBroadcast(s, t[s].name, message)
  {
    if s in t then
      Outcome(t, [Emission(connected, ChatBroadcast(s, t[s].name, message))])
    else
      Outcome(t, [])
  }

  /** Which ids are joined after an event, as a plain set computation:
      a join adds the sender, a disconnect removes it, nothing else matters. */
  function Admit(keys: set<Id>, ev: Inbound): set<Id> {
    match ev
    case Received(s, PlayerJoin(_), _) => keys + {s}
    case Received(_, _, _) => keys
    case Disconnected(s, _) => keys - {s}
  }

  /** One inbound event, dispatched to its handler. */
  function Handle(t: Table, ev: Inbound): (r: Outcome)
    ensures r.players.Keys == Admit(t.Keys, ev)
    ensures SameExcept(t, r.players, ev.from)
    ensures KeysMatchIds(t) ==> KeysMatchIds(r.players)
    ensures Routed(r.out, ev.from, ev.connected)
  {
    match ev
    case Received(s, PlayerJoin(d), c) => Join(t, s, d, c)
    case Received(s, PlayerUpdate(d), c) => Update(t, s, d, c)
    case Received(s, ChatMessage(m), c) => Chat(t, s, m, c)
    case Disconnected(s, c) => Leave(t, s, c)
  }

  /** A sequential trace of inbound events (the source's single event loop
      runs each handler to completion). */
  function Run(t: Table, evs: seq<Inbound>): Outcome
    decreases |evs|
  {
    if evs == [] then Outcome(t, [])
    else
      var o := Handle(t, evs[0]);
      var rest := Run(o.players, evs[1..]);
      Outcome(rest.players, o.out + rest.out)
  }

  function Present(keys: set<Id>, evs: seq<Inbound>): set<Id>
    decreases |evs|
  {
    if evs == [] then keys else Present(Admit(keys, evs[0]), evs[1..])
  }

  /** Number of `playerLeft(s)` emissions in `out`. */
  function CountLeft(out: seq<Emission>, s: Id): nat
    decreases |out|
  {
    if out == [] then 0
    else (if out[0].event == PlayerLeft(s) then 1 else 0) + CountLeft(out[1..], s)
  }

  /** Number of `playerJoin` events from `s` in `evs`. */
  function CountJoins(evs: seq<Inbound>, s: Id): nat
    decreases |evs|
  {
    if evs == [] then 0
    else (if evs[0].Received? && evs[0].from == s && evs[0].event.PlayerJoin? then 1 else 0)
         + CountJoins(evs[1..], s)
  }

  // ---------------------------------------------------------------------
  // Properties of single handlers.

  /** The record a join creates, field by field, with its defaults. */
  lemma JoinCreatesRecord(t: Table, s: Id, d: JoinData, connected: set<Id>)
    ensures var p := Join(t, s, d, connected).players[s];
      && p.id == s && p.name == d.name && p.color == d.color
      && !p.isMoving && !p.isJumping
      && p.position == (if d.position.Some? then d.position.value else Vec3(0.0, 1.0, 0.0))
      && p.rotation == (if d.rotation.Some? then d.rotation.value else Rotation(0.0))
  {
  }

  /** The snapshot goes only to the joiner and includes the joiner's own
      record; the announcement reaches everyone but the joiner. */
  lemma JoinAddressing(t: Table, s: Id, d: JoinData, connected: set<Id>)
    ensures var r := Join(t, s, d, connected);
      && r.out[0].to == {s}
      && r.out[0].event.snapshot.Keys == t.Keys + {s}
      && r.out[0].event.snapshot[s] == NewRecord(s, d)
      && s !in r.out[1].to
      && r.out[1].to == connected - {s}
  {
    var r := Join(t, s, d, connected);
    assert r.out[0].to == Audience(Route(r.out[0].event), s, connected);
    assert r.out[1].to == Audience(Route(r.out[1].event), s, connected);
  }

  /** A rejoin replaces the record in place: the table does not grow. */
  lemma RejoinKeepsSize(t: Table, s: Id, d: JoinData, connected: set<Id>)
    ensures s in t ==> |Join(t, s, d, connected).players| == |t|
    ensures s !in t ==> |Join(t, s, d, connected).players| == |t| + 1
  {
    var u := Join(t, s, d, connected).players;
    if s in t {
      assert u.Keys == t.Keys;
    } else {
      assert u.Keys == t.Keys + {s};
      assert |u.Keys| == |t.Keys| + 1;
    }
  }

  /** Chat is echoed to its sender through the broadcast itself. */
  lemma ChatReachesSender(t: Table, s: Id, message: string, connected: set<Id>)
    requires s in t && s in connected
    ensures s in Chat(t, s, message, connected).out[0].to
  {
    var r := Chat(t, s, message, connected);
    assert r.out[0].to == Audience(Route(r.out[0].event), s, connected);
  }

  // ---------------------------------------------------------------------
  // Properties of traces.

  lemma {:induction false} RunKeepsKeysMatchingIds(t: Table, evs: seq<Inbound>)
    requires KeysMatchIds(t)
    ensures KeysMatchIds(Run(t, evs).players)
    decreases |evs|
  {
    if evs != [] {
      RunKeepsKeysMatchingIds(Handle(t, evs[0]).players, evs[1..]);
    }
  }

  /** The ids in the table after a trace are exactly those that joined and
      have not since disconnected. */
  lemma {:induction false} RunMembership(t: Table, evs: seq<Inbound>)
    ensures Run(t, evs).players.Keys == Present(t.Keys, evs)
    decreases |evs|
  {
    if evs != [] {
      RunMembership(Handle(t, evs[0]).players, evs[1..]);
    }
  }

  /** A record changes, appears or disappears only through events of its
      own connection. */
  lemma {:induction false} RunOnlyActorsChange(t: Table, evs: seq<Inbound>, k: Id)
    requires forall i :: 0 <= i < |evs| ==> evs[i].from != k
    ensures k in t <==> k in Run(t, evs).players
    ensures k in t ==> Run(t, evs).players[k] == t[k]
    decreases |evs|
  {
    if evs != [] {
      var o := Handle(t, evs[0]);
      assert evs[0].from != k;
      RunOnlyActorsChange(o.players, evs[1..], k);
    }
  }

  lemma {:induction false} CountLeftAppend(a: seq<Emission>, b: seq<Emission>, s: Id)
    ensures CountLeft(a + b, s) == CountLeft(a, s) + CountLeft(b, s)
    decreases |a|
  {
    if a != [] {
      assert (a + b)[0] == a[0];
      assert (a + b)[1..] == a[1..] + b;
      CountLeftAppend(a[1..], b, s);
    } else {
      assert a + b == b;
    }
  }

  /** One event announces the departure of `s` at most when it removes `s`. */
  lemma HandleLeftStep(t: Table, ev: Inbound, s: Id)
    ensures var o := Handle(t, ev);
      CountLeft(o.out, s) + (if s in o.players then 1 else 0)
      <= (if s in t then 1 else 0)
         + (if ev.Received? && ev.from == s && ev.event.PlayerJoin? then 1 else 0)
  {
    var o := Handle(t, ev);
    match ev
    case Received(a, e, c) =>
      assert |o.out| <= 2;
      if |o.out| == 2 {
        assert o.out[1..][1..] == [];
      } else if |o.out| == 1 {
        assert o.out[1..] == [];
      }
    case Disconnected(a, c) =>
      if |o.out| == 1 {
        assert o.out[1..] == [];
      }
  }

  /** Each join of `s` is announced as a departure at most once: counting the
      record still present, the departures never exceed the joins. */
  lemma {:induction false} RunAnnouncesLeaveOncePerJoin(t: Table, evs: seq<Inbound>, s: Id)
    ensures var r := Run(t, evs);
      CountLeft(r.out, s) + (if s in r.players then 1 else 0)
      <= (if s in t then 1 else 0) + CountJoins(evs, s)
    decreases |evs|
  {
    if evs != [] {
      var o := Handle(t, evs[0]);
      var rest := Run(o.players, evs[1..]);
      HandleLeftStep(t, evs[0], s);
      RunAnnouncesLeaveOncePerJoin(o.players, evs[1..], s);
      CountLeftAppend(o.out, rest.out, s);
    }
  }

  /** Two disconnect signals for a joined id yield exactly one `playerLeft`. */
  lemma DisconnectTwiceAnnouncesOnce(t: Table, s: Id, c1: set<Id>, c2: set<Id>)
    requires s in t
    ensures CountLeft(Run(t, [Disconnected(s, c1), Disconnected(s, c2)]).out, s) == 1
    ensures s !in Run(t, [Disconnected(s, c1), Disconnected(s, c2)]).players
  {
    var evs := [Disconnected(s, c1), Disconnected(s, c2)];
    var o1 := Leave(t, s, c1);
    var o2 := Leave(o1.players, s, c2);
    assert evs[1..] == [Disconnected(s, c2)];
    assert evs[1..][1..] == [];
    assert Run(o1.players, evs[1..]) == Outcome(o2.players, o2.out);
    assert o2.out == [];
    assert o1.out == [Emission(c1, PlayerLeft(s))];
    assert o1.out[1..] == [];
  }

  // ---------------------------------------------------------------------
  // The registry as the source keeps it: one table mutated in place.

  class Registry {
    var players: Table
    /** Every emission made so far, in order. */
    var log: seq<Emission>

    ghost predicate Valid()
      reads this
    {
      KeysMatchIds(players)
    }

    constructor ()
      ensures Valid() && players == map[] && log == []
    {
      players := map[];
      log := [];
    }

    /** server.js:21-40 */
    method HandleJoin(s: Id, d: JoinData, connected: set<Id>)
      requires Valid()
      modifies this
      ensures Valid()
      ensures players == Join(old(players), s, d, connected).players
      ensures log == old(log) + Join(old(players), s, d, connected).out
    {
      players := players[s := NewRecord(s, d)];
      log := log + [Emission({s}, ExistingPlayers(players))];
      log := log + [Emission(connected - {s}, PlayerJoined(players[s]))];
    }

    /** server.js:43-60 */
    method HandleUpdate(s: Id, d: UpdateData, connected: set<Id>)
      requires Valid()
      modifies this
      ensures Valid()
      ensures players == Update(old(players), s, d, connected).players
      ensures log == old(log) + Update(old(players), s, d, connected).out
    {
      if s in players {
        var p := players[s];
        p := p.(position := d.position);
        p := p.(rotation := d.rotation);
        p := p.(isMoving := d.isMoving);
        p := p.(isJumping := d.isJumping);
        players := players[s := p];
        log := log + [Emission(connected - {s},
                               PlayerMoved(s, d.position, d.rotation, d.isMoving, d.isJumping))];
      }
    }

    /** server.js:63-73 */
    method HandleDisconnect(s: Id, connected: set<Id>)
      requires Valid()
      modifies this
      ensures Valid()
      ensures players == Leave(old(players), s, connected).players
      ensures log == old(log) + Leave(old(players), s, connected).out
    {
      if s in players {
        log := log + [Emission(connected, PlayerLeft(s))];
        players := players - {s};
      }
    }

    /** server.js:76-85 */
    method HandleChat(s: Id, message: string, connected: set<Id>)
      requires Valid()
      modifies this
      ensures Valid()
      ensures players == old(players)
      ensures log == old(log) + Chat(old(players), s, message, connected).out
    {
      if s in players {
        log := log + [Emission(connected, ChatBroadcast(s, players[s].name, message))];
      }
    }
  }
}
