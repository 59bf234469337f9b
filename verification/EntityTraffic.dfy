/**
  Who comes to the server and who leaves it, whatever scripts and other plugins do meanwhile.
 */
module EntityTraffic {
  import opened EntityPool
  import opened EntityWorld
  import opened EntityLaws

  /** What is new on the server was given out, ids are never taken back, and inside an event no player connects. */
  ghost predicate Grown(w: World, x: World) {
    && w.spawned <= x.spawned
    && (forall key <- x.server :: key in w.server || w.spawned[key] < x.spawned[key])
    && (forall key: Key :: key.kind.Player? ==> x.spawned[key] == w.spawned[key])
  }

  lemma GrownThen(w: World, x: World, y: World)
    requires Grown(w, x) && Grown(x, y)
    ensures Grown(w, y)
  {
  }

  /** A step that gives out nothing. */
  lemma GrownSame(w: World, x: World)
    requires x.spawned == w.spawned && x.server <= w.server
    ensures Grown(w, x)
  {
  }

  lemma {:induction false} RunLuaGrows(w: World, tape: seq<Act>)
    ensures Grown(w, RunLua(w, tape).w)
    decreases |tape|, 0
  {
    if tape != [] && !tape[0].Return? {
      var s := Step(w, tape[0], tape[1..]);
      StepGrows(w, tape[0], tape[1..]);
      RunLuaGrows(s.w, s.rest);
      GrownThen(w, s.w, RunLua(w, tape).w);
    }
  }

  /** Code that runs after a step that gives out nothing. */
  lemma {:induction false} AfterGrows(w: World, x: World, tape: seq<Act>)
    requires x.spawned == w.spawned && x.server <= w.server
    ensures Grown(w, RunLua(x, tape).w)
    decreases |tape|, 1
  {
    GrownSame(w, x);
    RunLuaGrows(x, tape);
    GrownThen(w, x, RunLua(x, tape).w);
  }

  lemma {:induction false} StepGrows(w: World, act: Act, tape: seq<Act>)
    ensures Grown(w, Step(w, act, tape).w)
    decreases |tape|, 5
  {
    match act
    case Create(key) => CreateGrows(w, key, tape);
    case Appears(key) => if !key.kind.Player? && key !in w.server { ArriveGrows(w, key, tape); }
    case Destroy(key) => DestroyGrows(w, key, tape);
    case Disappears(key) =>
      if key in w.server {
        if key.kind.Player? { DisconnectGrows(w, key, tape); } else { DeleteGrows(w, key, tape); }
      }
    case Kick(key) =>
      if key.kind.Player? && Alive(w.slots, key) && key in w.server { DisconnectGrows(w, key, tape); }
    case Report(key) => if key in w.server && !key.kind.Blip? { AfterGrows(w, Sighted(w, key), tape); }
    case _ =>
  }

  lemma {:induction false} CreateGrows(w: World, key: Key, tape: seq<Act>)
    ensures var x := CreateBinding(w, key, tape).w;
            Grown(w, x) && (!key.kind.Player? && key !in w.server ==> w.spawned[key] < x.spawned[key])
    decreases |tape|, 2
  {
    if !key.kind.Player? && key !in w.server {
      var v := Created(w, key);
      RunLuaGrows(v, tape);
      GrownThen(w, v, RunLua(v, tape).w);
    }
  }

  /** What arrives is given out once more; that of a player only by this. */
  lemma {:induction false} ArriveGrows(w: World, key: Key, tape: seq<Act>)
    requires key !in w.server
    ensures var x := Arrive(w, key, tape).w;
            && w.spawned[key] < x.spawned[key] && (!key.kind.Player? ==> Grown(w, x))
            && (key.kind.Player? ==> x.spawned[key] == w.spawned[key] + 1)
    decreases |tape|, 1
  {
    var v := Arrived(w, key);
    RunLuaGrows(v, tape);
    var r := RunLua(v, tape);
    RunLuaGrows(Told(r.w, key), r.rest);
    var x := Arrive(w, key, tape).w;
    GrownThen(v, r.w, x);
    assert v.spawned[key] == w.spawned[key] + 1;
    if !key.kind.Player? { GrownThen(w, v, x); }
  }

  lemma {:induction false} DeleteGrows(w: World, key: Key, tape: seq<Act>)
    ensures Grown(w, DeleteEntity(w, key, tape).w)
    decreases |tape|, 3
  {
    if key.kind.Blip? {
      AfterGrows(w, BlipGoes(w, key), tape);
      var r := RunLua(BlipGoes(w, key), tape);
      AfterGrows(r.w, BlipGone(r.w, key), r.rest);
      GrownThen(w, r.w, DeleteEntity(w, key, tape).w);
    } else {
      RunLuaGrows(w, tape);
      var r := RunLua(w, tape);
      LeaveGrows(r.w, Releasing(r.w, key), key, r.rest);
      GrownThen(w, r.w, DeleteEntity(w, key, tape).w);
    }
  }

  lemma {:induction false} LeaveGrows(w: World, x: World, key: Key, tape: seq<Act>)
    requires x.spawned == w.spawned && x.server <= w.server
    ensures Grown(w, Leave(x, key, tape).w) && key !in Leave(x, key, tape).w.server
    decreases |tape|, 2
  {
    AfterGrows(w, x, tape);
    var y := RunLua(x, tape).w;
    GrownSame(y, Removed(y, key));
    GrownThen(w, y, Removed(y, key));
  }

  lemma {:induction false} DestroyGrows(w: World, key: Key, tape: seq<Act>)
    ensures Grown(w, DestroyBinding(w, key, tape).w)
    decreases |tape|, 4
  {
    if key.kind.Blip? {
      if key in w.server { DestroyBlipGrows(w, key, tape); } else { GrownSame(w, Dropped(w, key)); }
    } else if !key.kind.Player? && key in w.server && Alive(w.slots, key) {
      DeleteGrows(w, key, tape);
      var x := DeleteEntity(w, key, tape).w;
      GrownSame(x, Dropped(x, key));
      GrownThen(w, x, Dropped(x, key));
    }
  }

  lemma {:induction false} DestroyBlipGrows(w: World, key: Key, tape: seq<Act>)
    ensures Grown(BlipGoes(w, key), DestroyBlip(w, key, tape).w) && Grown(w, DestroyBlip(w, key, tape).w)
    decreases |tape|, 2
  {
    var v := BlipGoes(w, key);
    RunLuaGrows(v, tape);
    var r := RunLua(v, tape);
    AfterGrows(r.w, Dropped(r.w, key), r.rest);
    var y := RunLua(Dropped(r.w, key), r.rest).w;
    GrownThen(v, r.w, y);
    GrownSame(y, BlipGone(y, key));
    GrownThen(v, y, BlipGone(y, key));
    GrownSame(w, v);
    GrownThen(w, v, BlipGone(y, key));
  }

  lemma {:induction false} DisconnectGrows(w: World, key: Key, tape: seq<Act>)
    ensures Grown(w, Disconnect(w, key, tape).w) && key !in Disconnect(w, key, tape).w.server
    decreases |tape|, 3
  {
    if key in w.slots {
      var u := Sighted(w, key);
      AfterGrows(w, Announcing(u, key), tape);
      var r := SayGoodbye(u, key, false, tape);
      var v := RunLua(Announcing(u, key), tape).w;
      LeaveGrows(v, r.w, key, r.rest);
      GrownThen(w, v, Disconnect(w, key, tape).w);
    } else {
      RunLuaGrows(w, tape);
      var y := RunLua(w, tape).w;
      GrownSame(y, Disconnect(w, key, tape).w);
      GrownThen(w, y, Disconnect(w, key, tape).w);
    }
  }

  // ---------------------------------------------------------------- what each action does, whatever happens in its events

  /** The action brings something to the server that was not there. */
  predicate Brings(w: World, act: Act) {
    match act
    case Create(key) => !key.kind.Player? && key !in w.server
    case Appears(key) => !key.kind.Player? && key !in w.server
    case Joins(key) => key.kind.Player? && key !in w.server
    case _ => false
  }

  /** It takes something away that was there. */
  predicate Takes(w: World, act: Act) {
    match act
    case Destroy(key) => !key.kind.Player? && key in w.server && (key.kind.Blip? || Alive(w.slots, key))
    case Disappears(key) => key in w.server
    case Kick(key) => key.kind.Player? && key in w.server && Alive(w.slots, key)
    case Quits(key) => key.kind.Player? && key in w.server
    case _ => false
  }

  /** The id is given out once more; that of a player exactly once. */
  lemma {:induction false} Comes(w: World, act: Act, tape: seq<Act>)
    requires Brings(w, act)
    ensures var x := Outermost(w, act, tape).w;
            && w.spawned[act.key] < x.spawned[act.key]
            && (act.Joins? ==> x.spawned[act.key] == w.spawned[act.key] + 1)
  {
    match act
    case Create(key) => CreateGrows(w, key, tape);
    case Appears(key) => ArriveGrows(w, key, tape);
    case Joins(key) => ArriveGrows(w, key, tape);
  }

  /** Afterwards the id is off the server; that of a blip may have been given out again by then. */
  lemma {:induction false} Goes(w: World, act: Act, tape: seq<Act>)
    requires Takes(w, act)
    ensures var x := Outermost(w, act, tape).w;
            act.key !in x.server || (act.key.kind.Blip? && w.spawned[act.key] < x.spawned[act.key])
  {
    var key := act.key;
    if key.kind.Player? {
      DisconnectGrows(w, key, tape);
    } else if key.kind.Blip? {
      BlipLeaves(w, act, tape);
    } else {
      RunLuaGrows(w, tape);
      var r := RunLua(w, tape);
      LeaveGrows(r.w, Releasing(r.w, key), key, r.rest);
      assert key !in DeleteEntity(w, key, tape).w.server;
      assert Outermost(w, act, tape) == Step(w, act, tape);
    }
  }

  lemma {:induction false} BlipLeaves(w: World, act: Act, tape: seq<Act>)
    requires Takes(w, act) && act.key.kind.Blip?
    ensures var x := Step(w, act, tape).w; act.key !in x.server || w.spawned[act.key] < x.spawned[act.key]
  {
    var key := act.key;
    var v := BlipGoes(w, key);
    if act.Destroy? {
      DestroyBlipGrows(w, key, tape);
    } else {
      RunLuaGrows(v, tape);
      var r := RunLua(v, tape);
      AfterGrows(r.w, BlipGone(r.w, key), r.rest);
      GrownThen(v, r.w, DeleteEntity(w, key, tape).w);
    }
  }

  // ---------------------------------------------------------------- the shutdown of the server

  lemma {:induction false} DismissalsGrow(w: World, players: seq<Key>, tape: seq<Act>)
    ensures Grown(w, Dismissals(w, players, tape))
    decreases |players|
  {
    if players == [] {
    } else if !Alive(w.slots, players[0]) {
      DismissalsGrow(w, players[1..], tape);
    } else {
      var r := SayGoodbye(w, players[0], true, tape);
      var v := RunLua(Announcing(w, players[0]), tape).w;
      AfterGrows(w, Announcing(w, players[0]), tape);
      GrownSame(v, r.w);
      DismissalsGrow(r.w, players[1..], r.rest);
      GrownThen(w, v, r.w);
      GrownThen(w, r.w, Dismissals(w, players, tape));
    }
  }

  /** The handlers of onServerShutdown run: what their first action brings is given out. */
  lemma {:induction false} ShutdownEventRuns(w: World, players: seq<Key>, act: Act, tape: seq<Act>)
    requires Brings(w, act) && !act.Joins?
    ensures w.spawned[act.key] < ShutDown(w, players, [act] + tape).spawned[act.key]
  {
    assert ([act] + tape)[1..] == tape;
    var s := Step(w, act, tape);
    Comes(w, act, tape);
    assert Outermost(w, act, tape) == s;
    RunLuaGrows(s.w, s.rest);
    var r := RunLua(w, [act] + tape);
    assert r == RunLua(s.w, s.rest);
    DismissalsGrow(r.w, players, r.rest);
  }
}
