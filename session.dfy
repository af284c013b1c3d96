/** Both sides together: what a relay emission does once a client handles it,
    and a whole two-player session traced through the relay. */
module Session {
  import opened Protocol
  import opened Relay
  import opened Multiplayer

  /** `snap` lists the table `tbl` as a client receives it: one pair per key,
      no key twice, each record delivered with all its fields. */
  predicate Enumerates(snap: seq<(Id, PlayerData)>, tbl: Table) {
    && (forall i :: 0 <= i < |snap| ==> snap[i].0 in tbl && snap[i].1 == FromRecord(tbl[snap[i].0]))
    && (forall i, j :: 0 <= i < j < |snap| ==> snap[i].0 != snap[j].0)
    && (forall k :: k in tbl ==> exists i :: 0 <= i < |snap| && snap[i].0 == k)
  }

  /** A listing of a table whose records are filed under their own ids has
      keys equal to the ids it carries, and exactly the table's keys. */
  lemma EnumeratedKeys(snap: seq<(Id, PlayerData)>, tbl: Table)
    requires KeysMatchIds(tbl) && Enumerates(snap, tbl)
    ensures forall i :: 0 <= i < |snap| ==> snap[i].1.id == snap[i].0
    ensures KeysOf(snap) == tbl.Keys
  {
    forall i | 0 <= i < |snap| ensures snap[i].1.id == snap[i].0 {
      assert tbl[snap[i].0].id == snap[i].0;
    }
    forall k | k in tbl ensures k in KeysOf(snap) {
      var i :| 0 <= i < |snap| && snap[i].0 == k;
    }
  }

  /** The joiner, handling the snapshot the relay sends it, learns of every
      other joined player, with the relay's record of each, and of nobody
      else; its own record in the snapshot is skipped. */
  lemma JoinerLearnsEveryoneElse(t: Table, s: Id, d: JoinData, connected: set<Id>,
                                 m: map<Id, RemotePlayer>, snap: seq<(Id, PlayerData)>)
    requires KeysMatchIds(t)
    requires Enumerates(snap, Join(t, s, d, connected).out[0].event.snapshot)
    ensures AddAll(m, snap, s).Keys == m.Keys + (t.Keys - {s})
    ensures forall k :: k in t && k != s ==> AddAll(m, snap, s)[k] == NewRemote(FromRecord(t[k]))
  {
    var tbl := Join(t, s, d, connected).players;
    assert tbl == Join(t, s, d, connected).out[0].event.snapshot;
    assert KeysMatchIds(tbl);
    EnumeratedKeys(snap, tbl);
    AddAllFills(m, snap, s);
    forall k | k in t && k != s ensures AddAll(m, snap, s)[k] == NewRemote(FromRecord(t[k])) {
      assert k in tbl && tbl[k] == t[k];
      var i :| 0 <= i < |snap| && snap[i].0 == k;
    }
  }

  /** The entry every other client creates from the `playerJoined`
      announcement is the record the relay stored, at rest. */
  lemma AnnouncementBecomesEntry(t: Table, s: Id, d: JoinData, connected: set<Id>)
    ensures var e := NewRemote(FromRecord(Join(t, s, d, connected).out[1].event.player));
      && e.id == s && e.name == d.name && e.color == d.color
      && !e.isMoving && !e.isJumping
      && e.targetPosition == e.lastPosition == d.position.GetOr(DefaultPosition)
      && e.targetRotation == e.lastRotation == d.rotation.GetOr(DefaultRotation).y
  {
  }

  // ---------------------------------------------------------------------
  // Two ducks: A and B join, A chats, A moves, A leaves.

  const A: Id := "a"
  const B: Id := "b"
  const JoinA := JoinData("A", "#FFFF00", Some(Vec3(0.0, 1.0, 0.0)), Some(Rotation(0.0)))
  const JoinB := JoinData("B", "#1E90FF", Some(Vec3(5.0, 1.0, 5.0)), Some(Rotation(0.0)))
  const MoveA := UpdateData(Vec3(1.0, 1.0, 0.0), Rotation(0.0), true, false)

  const ScenarioEvents := [
    Received(A, PlayerJoin(JoinA), {A}),
    Received(B, PlayerJoin(JoinB), {A, B}),
    Received(A, ChatMessage("hello"), {A, B}),
    Received(A, PlayerUpdate(MoveA), {A, B}),
    Disconnected(A, {B})
  ]

  const RecA := NewRecord(A, JoinA)
  const RecB := NewRecord(B, JoinB)
  /** The relay's table after A's move. */
  const MovedTable := map[A := RecA, B := RecB][A := RecA.(position := MoveA.position, isMoving := true)]

  /** From the chat line on: A speaks to both, its move reaches B, and its
      departure leaves B alone with an announcement. */
  lemma ScenarioTail()
    ensures Run(map[A := RecA, B := RecB], ScenarioEvents[2..]) == Outcome(map[B := RecB], [
        Emission({A, B}, ChatBroadcast(A, "A", "hello")),
        Emission({B}, PlayerMoved(A, Vec3(1.0, 1.0, 0.0), Rotation(0.0), true, false)),
        Emission({B}, PlayerLeft(A))
      ])
  {
    var evs := ScenarioEvents;
    var t2 := map[A := RecA, B := RecB];
    var t4 := MovedTable;
    var t5 := map[B := RecB];
    assert A != B;
    assert RecA.rotation == MoveA.rotation && !RecA.isJumping && t2[A] == RecA;
    assert {A, B} - {A} == {B};
    assert Handle(t4, evs[4]) == Outcome(t5, [Emission({B}, PlayerLeft(A))]);
    assert Run(t5, evs[5..]) == Outcome(t5, []);
    assert Run(t4, evs[4..]) == Outcome(t5, [Emission({B}, PlayerLeft(A))]) by {
      assert evs[4..][1..] == evs[5..];
    }
    var e4 := [Emission({B}, PlayerLeft(A))];
    var e3 := [Emission({B}, PlayerMoved(A, Vec3(1.0, 1.0, 0.0), Rotation(0.0), true, false))];
    var e2 := [Emission({A, B}, ChatBroadcast(A, "A", "hello"))];
    assert Handle(t2, evs[3]) == Outcome(t4, e3);
    assert Run(t2, evs[3..]) == Outcome(t5, e3 + e4) by {
      assert evs[3..][1..] == evs[4..];
    }
    assert Handle(t2, evs[2]) == Outcome(t2, e2);
    assert Run(t2, evs[2..]) == Outcome(t5, e2 + (e3 + e4)) by {
      assert evs[2..][1..] == evs[3..];
    }
  }

  /** The whole session: each join is answered with a snapshot that includes
      the joiner, A's chat line reaches both ducks, its move reaches only B,
      and only B hears that A left. */
  lemma TwoDuckScenario()
    ensures Run(map[], ScenarioEvents) == Outcome(map[B := RecB], [
        Emission({A}, ExistingPlayers(map[A := RecA])),
        Emission({}, PlayerJoined(RecA)),
        Emission({B}, ExistingPlayers(map[A := RecA, B := RecB])),
        Emission({A}, PlayerJoined(RecB)),
        Emission({A, B}, ChatBroadcast(A, "A", "hello")),
        Emission({B}, PlayerMoved(A, Vec3(1.0, 1.0, 0.0), Rotation(0.0), true, false)),
        Emission({B}, PlayerLeft(A))
      ])
  {
    var evs := ScenarioEvents;
    var t1 := map[A := RecA];
    var t2 := map[A := RecA, B := RecB];
    var t5 := map[B := RecB];
    assert A != B;
    assert {A, B} - {B} == {A} && {A} - {A} == {};
    ScenarioTail();
    var tail := [
        Emission({A, B}, ChatBroadcast(A, "A", "hello")),
        Emission({B}, PlayerMoved(A, Vec3(1.0, 1.0, 0.0), Rotation(0.0), true, false)),
        Emission({B}, PlayerLeft(A))
      ];
    var e1 := [Emission({B}, ExistingPlayers(t2)), Emission({A}, PlayerJoined(RecB))];
    var e0 := [Emission({A}, ExistingPlayers(t1)), Emission({}, PlayerJoined(RecA))];
    assert Handle(t1, evs[1]) == Outcome(t2, e1);
    assert Run(t1, evs[1..]) == Outcome(t5, e1 + tail) by {
      assert evs[1..][1..] == evs[2..];
    }
    assert Handle(map[], evs[0]) == Outcome(t1, e0);
    assert Run(map[], evs) == Outcome(t5, e0 + (e1 + tail));
  }
}
