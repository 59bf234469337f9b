/**
  Runs in which pool and server come to disagree, a mark is wrong, or a player is announced twice
  or not at all, and the steps at which it happens.  Each run is a tape that scripts, other
  plugins and the server could produce.
 */
module EntityRuns {
  import opened EntityPool
  import opened EntityWorld
  import opened EntityLaws

  predicate Agree(w: World, key: Key) {
    Alive(w.slots, key) <==> key in w.server
  }

  predicate RightMark(w: World, key: Key) {
    Flagged(w.slots, key) <==> key in w.ours
  }

  // ---------------------------------------------------------------- the steps that decide

  /** After a Create* binding: they agree exactly if the id exists, and the mark is right exactly if it is ours. */
  lemma MadeDecides(w: World, key: Key)
    requires key in w.slots
    ensures Agree(Made(w, key), key) <==> key in w.server
    ensures RightMark(Made(w, key), key) <==> key in w.ours
  {
  }

  /** When we hear of a new entity or player: they agree exactly if it still exists. */
  lemma ToldDecides(w: World, key: Key)
    requires key in w.slots
    ensures Agree(Told(w, key), key) <==> key in w.server
  {
  }

  /** When the server forgets an id: they agree exactly if it was not adopted again after our event. */
  lemma RemovedDecides(w: World, key: Key)
    requires key in w.slots && (Flagged(w.slots, key) ==> Alive(w.slots, key))
    ensures Agree(Removed(w, key), key) <==> !Alive(w.slots, key)
    ensures RightMark(Removed(w, key), key) <==> !Flagged(w.slots, key)
  {
  }

  /** When a blip is released: they agree exactly if the id was not given out again, and the mark is right
      exactly if it was not given to us. */
  lemma DroppedDecides(w: World, key: Key)
    requires key in w.slots && GoodAt(w, key)
    ensures Agree(Dropped(w, key), key) <==> key !in w.server
    ensures RightMark(Dropped(w, key), key) <==> key !in w.ours
  {
  }

  // ---------------------------------------------------------------- reading a tape

  lemma {:induction false} Returns(w: World, rest: seq<Act>)
    ensures RunLua(w, [Return] + rest) == Ran(w, rest)
  {
    assert ([Return] + rest)[1..] == rest;
  }

  lemma {:induction false} Then(w: World, act: Act, rest: seq<Act>)
    requires !act.Return?
    ensures var s := Step(w, act, rest); RunLua(w, [act] + rest) == RunLua(s.w, s.rest)
  {
    assert ([act] + rest)[1..] == rest;
  }

  lemma {:induction false} First(w: World, act: Act, rest: seq<Act>)
    ensures var r := Outermost(w, act, rest); Served(w, [act] + rest) == Served(r.w, r.rest)
  {
    assert ([act] + rest)[1..] == rest;
  }

  /** A deletion during which nobody does anything. */
  lemma {:induction false} QuietDelete(w: World, key: Key, rest: seq<Act>)
    ensures DeleteEntity(w, key, [Return] + ([Return] + rest))
            == Ran(Gone(w, key), rest)
  {
    var more := [Return] + rest;
    if key.kind.Blip? {
      Returns(BlipGoes(w, key), more);
      Returns(BlipGone(BlipGoes(w, key), key), rest);
    } else {
      Returns(w, more);
      Returns(Releasing(w, key), rest);
    }
  }

  /** A destroy binding during which nobody does anything. */
  function Destroyed(w: World, key: Key): World {
    if key.kind.Blip? then BlipGone(Dropped(BlipGoes(w, key), key), key) else Dropped(Gone(w, key), key)
  }

  lemma {:induction false} QuietDestroy(w: World, key: Key, rest: seq<Act>)
    requires !key.kind.Player? && key in w.server && (key.kind.Blip? || Alive(w.slots, key))
    ensures DestroyBinding(w, key, [Return] + ([Return] + rest)) == Ran(Destroyed(w, key), rest)
  {
    if key.kind.Blip? {
      Returns(BlipGoes(w, key), [Return] + rest);
      Returns(Dropped(BlipGoes(w, key), key), rest);
    } else {
      QuietDelete(w, key, rest);
    }
  }

  lemma {:induction false} QuietArrive(w: World, key: Key, rest: seq<Act>)
    ensures Arrive(w, key, [Return] + ([Return] + rest)) == Ran(Told(Arrived(w, key), key), rest)
  {
    Returns(Arrived(w, key), [Return] + rest);
    Returns(Told(Arrived(w, key), key), rest);
  }

  lemma {:induction false} QuietCreate(w: World, key: Key, rest: seq<Act>)
    requires !key.kind.Player? && key !in w.server
    ensures CreateBinding(w, key, [Return] + rest) == Ran(Made(Created(w, key), key), rest)
  {
    Returns(Created(w, key), rest);
  }

  /** A player that is alive is not adopted again. */
  lemma Unsighted(w: World, key: Key)
    requires Alive(w.slots, key) && key !in w.lost && Removing(key) !in w.open
    ensures Sighted(w, key) == w
  {
    assert w.slots[key := w.slots[key]] == w.slots && w.lost - {key} == w.lost;
  }

  // ---------------------------------------------------------------- runs without interference

  /** What the server has, how often it gave out each id, which entities are ours, and which farewells were said. */
  datatype View = View(server: set<Key>, spawned: multiset<Key>, ours: set<Key>, log: seq<Farewell>)

  function Seen(w: World): View {
    View(w.server, w.spawned, w.ours, w.log)
  }

  function Comes(v: View, key: Key, ours: bool): View {
    if key in v.server then v
    else v.(server := v.server + {key}, spawned := v.spawned + multiset{key}, ours := if ours then v.ours + {key} else v.ours)
  }

  function Goes(v: View, key: Key): View {
    v.(server := v.server - {key}, ours := v.ours - {key})
  }

  /** A player leaves; if the pool has room for it, its lifetime is announced. */
  function Parts(v: View, room: set<Key>, key: Key): View {
    if key in v.server
    then Goes(v, key).(log := if key in room then v.log + [Farewell(key, v.spawned[key])] else v.log)
    else v
  }

  /**
    What an action does when nothing is done in its events.  A script destroys and kicks through
    a handle, which there is for what exists and has a slot; a blip also by its id.
   */
  function Expected(v: View, room: set<Key>, act: Act): View {
    match act
    case Create(key) => if key.kind.Player? then v else Comes(v, key, true)
    case Appears(key) => if key.kind.Player? then v else Comes(v, key, false)
    case Joins(key) => if key.kind.Player? then Comes(v, key, false) else v
    case Destroy(key) =>
      if !key.kind.Player? && key in v.server && (key.kind.Blip? || key in room) then Goes(v, key) else v
    case Disappears(key) =>
      if key.kind.Player? then Parts(v, room, key) else if key in v.server then Goes(v, key) else v
    case Kick(key) => if key.kind.Player? && key in room then Parts(v, room, key) else v
    case Quits(key) => if key.kind.Player? then Parts(v, room, key) else v
    case _ => v
  }

  /** How often code can run in the events of an action: ours, and after those the other plugins'. */
  function Stretches(v: View, room: set<Key>, act: Act): nat {
    match act
    case Create(key) => if !key.kind.Player? && key !in v.server then 1 else 0
    case Appears(key) => if !key.kind.Player? && key !in v.server then 2 else 0
    case Joins(key) => if key.kind.Player? && key !in v.server then 2 else 0
    case Destroy(key) => if !key.kind.Player? && key in v.server && (key.kind.Blip? || key in room) then 2 else 0
    case Kick(key) => if key.kind.Player? && key in v.server && key in room then 2 else 0
    case Disappears(key) => if key !in v.server then 0 else if key.kind.Player? && key !in room then 1 else 2
    case Quits(key) => if !key.kind.Player? || key !in v.server then 0 else if key in room then 2 else 1
    case Report(key) => if key in v.server && !key.kind.Blip? then 1 else 0
    case _ => 0
  }

  function ExpectedAll(v: View, room: set<Key>, acts: seq<Act>): View
    decreases |acts|
  {
    if acts == [] then v else ExpectedAll(Expected(v, room, acts[0]), room, acts[1..])
  }

  /** Outside the callbacks, in a run in which nobody has done anything to an id inside a call about it. */
  ghost predicate Calm(w: World) {
    AtRest(w) && w.meddled == {}
  }

  lemma CalmAt(w: World, key: Key)
    requires Calm(w)
    ensures key in w.slots ==> (Alive(w.slots, key) <==> key in w.server) && w.slots[key].births == w.spawned[key]
    ensures key in w.slots ==> (w.slots[key].createdByUs <==> key in w.ours)
    ensures key !in w.slots ==> !Alive(w.slots, key)
    ensures key.kind.Player? ==> w.ours - {key} == w.ours
  {
    if key in w.slots { Untouched(w, key); }
    assert AtRest(w) && Kinds(w);
  }

  /** The tape after two returns of which `n` were read. */
  function Left(n: nat, rest: seq<Act>): seq<Act> {
    if n == 0 then [Return] + ([Return] + rest) else if n == 1 then [Return] + rest else rest
  }

  /** The action did what is expected, every stretch of its events was run, and nobody meddled. */
  predicate Went(w: World, act: Act, r: Ran, rest: seq<Act>) {
    && r.w.meddled == w.meddled && Seen(r.w) == Expected(Seen(w), w.slots.Keys, act)
    && r.rest == Left(Stretches(Seen(w), w.slots.Keys, act), rest)
  }

  lemma {:induction false} QuietEntity(w: World, act: Act, rest: seq<Act>)
    requires Calm(w) && (act.Create? || act.Appears? || act.Destroy? || (act.Disappears? && !act.key.kind.Player?))
    ensures Went(w, act, Step(w, act, [Return] + ([Return] + rest)), rest)
  {
    if act.Create? {
      QuietCreating(w, act, rest);
    } else if act.Appears? {
      QuietAppearing(w, act, rest);
    } else {
      QuietGoing(w, act, rest);
    }
  }

  lemma {:induction false} QuietCreating(w: World, act: Act, rest: seq<Act>)
    requires w.open == [] && act.Create?
    ensures Went(w, act, Step(w, act, [Return] + ([Return] + rest)), rest)
  {
    var key := act.key;
    if !key.kind.Player? && key !in w.server {
      SeenMade(w, key);
      QuietCreate(w, key, [Return] + rest);
      WentIn(w, act, Made(Created(w, key), key), rest);
    } else {
      WentNowhere(w, act, rest);
    }
  }

  lemma {:induction false} QuietAppearing(w: World, act: Act, rest: seq<Act>)
    requires w.open == [] && act.Appears?
    ensures Went(w, act, Step(w, act, [Return] + ([Return] + rest)), rest)
  {
    var key := act.key;
    if !key.kind.Player? && key !in w.server {
      ArriveWent(w, act, rest);
    } else {
      WentNowhere(w, act, rest);
    }
  }

  /** An action that does nothing. */
  lemma WentNowhere(w: World, act: Act, rest: seq<Act>)
    requires (act.Create? || act.Appears?) && (act.key.kind.Player? || act.key in w.server)
    ensures Went(w, act, Ran(w, [Return] + ([Return] + rest)), rest)
  {
  }

  lemma WentIn(w: World, act: Act, x: World, rest: seq<Act>)
    requires act.Create? || act.Appears? || act.Joins?
    requires act.key !in w.server && (act.key.kind.Player? <==> act.Joins?)
    requires x.meddled == w.meddled && Seen(x) == Comes(Seen(w), act.key, act.Create?)
    ensures Went(w, act, Ran(x, if act.Create? then [Return] + rest else rest), rest)
  {
  }

  lemma {:induction false} QuietGoing(w: World, act: Act, rest: seq<Act>)
    requires Calm(w) && (act.Destroy? || (act.Disappears? && !act.key.kind.Player?))
    ensures Went(w, act, Step(w, act, [Return] + ([Return] + rest)), rest)
  {
    var key := act.key;
    CalmAt(w, key);
    if !key.kind.Player? && key in w.server && (act.Destroy? ==> key.kind.Blip? || key in w.slots) {
      SeenGone(w, key);
      if act.Destroy? {
        QuietDestroy(w, key, rest);
        WentAway(w, act, Destroyed(w, key), rest);
      } else {
        QuietDelete(w, key, rest);
        WentAway(w, act, Gone(w, key), rest);
      }
    }
  }

  lemma WentAway(w: World, act: Act, x: World, rest: seq<Act>)
    requires act.Destroy? || act.Disappears?
    requires var key := act.key; !key.kind.Player? && key in w.server && (act.Destroy? ==> key.kind.Blip? || key in w.slots)
    requires x.meddled == w.meddled && Seen(x) == Goes(Seen(w), act.key)
    ensures Went(w, act, Ran(x, rest), rest)
  {
  }

  lemma SeenMade(w: World, key: Key)
    requires w.open == [] && key !in w.server
    ensures var x := Made(Created(w, key), key); x.meddled == w.meddled && Seen(x) == Comes(Seen(w), key, true)
  {
  }

  lemma SeenTold(w: World, key: Key)
    requires w.open == [] && key !in w.server
    ensures var x := Told(Arrived(w, key), key); x.meddled == w.meddled && Seen(x) == Comes(Seen(w), key, false)
  {
  }

  lemma SeenGone(w: World, key: Key)
    requires w.open == []
    ensures Gone(w, key).meddled == w.meddled && Seen(Gone(w, key)) == Goes(Seen(w), key)
    ensures Destroyed(w, key).meddled == w.meddled && Seen(Destroyed(w, key)) == Goes(Seen(w), key)
  {
  }

  /** Another plugin's entity or a player arrives, and nobody does anything meanwhile. */
  lemma {:induction false} ArriveWent(w: World, act: Act, rest: seq<Act>)
    requires w.open == [] && (act.Appears? || act.Joins?) && act.key !in w.server && (act.key.kind.Player? <==> act.Joins?)
    ensures Went(w, act, Arrive(w, act.key, [Return] + ([Return] + rest)), rest)
  {
    SeenTold(w, act.key);
    QuietArrive(w, act.key, rest);
    WentIn(w, act, Told(Arrived(w, act.key), act.key), rest);
  }

  lemma {:induction false} QuietPlayer(w: World, key: Key, rest: seq<Act>)
    requires Calm(w) && key.kind.Player? && key in w.server
    ensures var r := Disconnect(w, key, [Return] + ([Return] + rest));
            && r.w.meddled == w.meddled && Seen(r.w) == Parts(Seen(w), w.slots.Keys, key)
            && r.rest == if key in w.slots then rest else [Return] + rest
  {
    CalmAt(w, key);
    if key in w.slots {
      var u := Sighted(w, key);
      Returns(Announcing(u, key), [Return] + rest);
      Returns(Departed(Announcing(u, key), key, false), rest);
      PartsSeen(w, key);
    } else {
      Returns(w, [Return] + rest);
    }
  }

  lemma PartsSeen(w: World, key: Key)
    requires w.open == [] && Alive(w.slots, key) && key in w.server && w.slots[key].births == w.spawned[key]
    ensures var x := Removed(Departed(Announcing(Sighted(w, key), key), key, false), key);
            x.meddled == w.meddled && Seen(x) == Parts(Seen(w), w.slots.Keys, key)
  {
  }

  /** One thing that happens outside the callbacks, while nobody does anything in its events. */
  lemma {:induction false} QuietStep(w: World, act: Act, rest: seq<Act>)
    requires Calm(w)
    ensures Went(w, act, Outermost(w, act, [Return] + ([Return] + rest)), rest)
  {
    if act.Create? || act.Appears? || act.Destroy? || (act.Disappears? && !act.key.kind.Player?) {
      QuietEntity(w, act, rest);
    } else if act.Joins? {
      QuietJoins(w, act, rest);
    } else if act.Quits? || act.Kick? || act.Disappears? {
      QuietParting(w, act, rest);
    } else if act.Report? {
      Returns(Sighted(w, act.key), [Return] + rest);
    }
  }

  lemma {:induction false} QuietJoins(w: World, act: Act, rest: seq<Act>)
    requires w.open == [] && act.Joins?
    ensures Went(w, act, Outermost(w, act, [Return] + ([Return] + rest)), rest)
  {
    var key := act.key;
    if key.kind.Player? && key !in w.server {
      ArriveWent(w, act, rest);
    }
  }

  lemma {:induction false} QuietParting(w: World, act: Act, rest: seq<Act>)
    requires Calm(w) && (act.Quits? || act.Kick? || (act.Disappears? && act.key.kind.Player?))
    ensures Went(w, act, Outermost(w, act, [Return] + ([Return] + rest)), rest)
  {
    var key := act.key;
    CalmAt(w, key);
    if key.kind.Player? && key in w.server && (act.Kick? ==> key in w.slots) {
      var r := Disconnect(w, key, [Return] + ([Return] + rest));
      QuietPlayer(w, key, rest);
      WentApart(w, act, r, rest);
      assert Outermost(w, act, [Return] + ([Return] + rest)) == r;
    }
  }

  lemma WentApart(w: World, act: Act, r: Ran, rest: seq<Act>)
    requires act.Quits? || act.Kick? || act.Disappears?
    requires var key := act.key; key.kind.Player? && key in w.server && (act.Kick? ==> key in w.slots)
    requires r.w.meddled == w.meddled && Seen(r.w) == Parts(Seen(w), w.slots.Keys, act.key)
    requires r.rest == if act.key in w.slots then rest else [Return] + rest
    ensures Went(w, act, r, rest)
  {
  }

  /** Each action with nothing done in its events. */
  function Quietly(acts: seq<Act>): seq<Act> {
    if acts == [] then [] else [acts[0]] + ([Return] + ([Return] + Quietly(acts[1..])))
  }

  lemma {:induction false} ServedReturn(w: World, rest: seq<Act>)
    ensures Served(w, [Return] + rest) == Served(w, rest)
  {
    First(w, Return, rest);
  }

  lemma CalmAgrees(w: World)
    requires Calm(w)
    ensures forall key <- w.slots :: (w.slots[key].alive <==> key in w.server)
    ensures forall key <- w.slots :: (w.slots[key].createdByUs <==> key in w.ours)
  {
    forall key <- w.slots ensures (w.slots[key].alive <==> key in w.server) && (w.slots[key].createdByUs <==> key in w.ours) {
      Untouched(w, key);
    }
  }

  /**
    Any sequence of undisturbed actions: what the server has, which of it is ours and which
    farewells were said is what the actions say, and the pool has a live slot for exactly what
    the server has, marked exactly if it is ours.
   */
  lemma {:induction false} QuietRun(w: World, acts: seq<Act>)
    requires Calm(w)
    ensures var x := Served(w, Quietly(acts));
            && Calm(x) && Seen(x) == ExpectedAll(Seen(w), w.slots.Keys, acts)
            && (forall key <- x.slots :: (x.slots[key].alive <==> key in x.server))
            && (forall key <- x.slots :: (x.slots[key].createdByUs <==> key in x.ours))
    decreases |acts|
  {
    if acts == [] {
      CalmAgrees(w);
    } else {
      var rest := Quietly(acts[1..]);
      var tape := [Return] + ([Return] + rest);
      QuietStep(w, acts[0], rest);
      OutermostKeeps(w, acts[0], tape);
      First(w, acts[0], tape);
      var x := Outermost(w, acts[0], tape).w;
      ServedReturn(x, rest);
      ServedReturn(x, [Return] + rest);
      QuietRun(x, acts[1..]);
    }
  }

  // ---------------------------------------------------------------- runs of entities

  /**
    A script destroys a blip, and a handler of that event creates one: the server reuses the id.
    The new blip is on the server and ours, and neither alive nor marked in the pool, so a reload
    leaves it there.
   */
  lemma {:induction false} BlipCreatedInItsDeletion(room: set<Key>, existing: set<Key>, key: Key)
    requires key in room && key in existing && key.kind.Blip?
    ensures var tape := [Destroy(key)] + ([Create(key)] + ([Return] + ([Return] + ([Return] + []))));
            var w := Served(Opened(room, existing), tape);
            && key in w.server && !Alive(w.slots, key) && key in w.lost
            && key in w.ours && key in w.unmarked && key in Reloaded(w, {key})
  {
    var w, tail := Opened(room, existing), [Return] + ([Return] + []);
    CreatedWhileGoing(w, key);
    First(w, Destroy(key), [Create(key)] + ([Return] + tail));
    LostAndUnmarked(Made(Created(BlipGoes(w, key), key), key), key);
  }

  lemma {:induction false} CreatedWhileGoing(w: World, key: Key)
    requires key.kind.Blip? && key in w.server
    ensures DestroyBinding(w, key, [Create(key)] + ([Return] + ([Return] + ([Return] + []))))
            == Ran(BlipGone(Dropped(Made(Created(BlipGoes(w, key), key), key), key), key), [])
  {
    var goes, tail := BlipGoes(w, key), [Return] + ([Return] + []);
    var made := Made(Created(goes, key), key);
    QuietCreate(goes, key, tail);
    Then(goes, Create(key), [Return] + tail);
    Returns(made, [Return] + []);
    Returns(Dropped(made, key), []);
  }

  /** Releasing a blip of ours that is on the server loses it and its mark. */
  lemma LostAndUnmarked(w: World, key: Key)
    requires key.kind.Blip? && Alive(w.slots, key) && key in w.server && key in w.ours
    ensures var x := BlipGone(Dropped(w, key), key);
            && key in x.server && !Alive(x.slots, key) && key in x.lost
            && key in x.ours && key in x.unmarked && key in Reloaded(x, {key})
  {
  }

  /**
    A handler deletes an entity inside its own "created" event: the binding adopts the id again
    and marks it.
   */
  lemma {:induction false} DeletedInItsCreation(w: World, key: Key, rest: seq<Act>)
    requires key in w.slots && key !in w.server && !key.kind.Player?
    ensures var tape := [Create(key)] + ([Destroy(key)] + ([Return] + ([Return] + ([Return] + rest))));
            var x := Made(Destroyed(Created(w, key), key), key);
            && Served(w, tape) == Served(x, rest)
            && key !in x.server && Alive(x.slots, key) && key in x.stale && Flagged(x.slots, key) && key in x.foreign
            && key !in x.ours && key !in x.lost
  {
    DestroyedAtOnce(w, key, rest);
    First(w, Create(key), [Destroy(key)] + ([Return] + ([Return] + ([Return] + rest))));
    MadeOfNothing(Destroyed(Created(w, key), key), key);
  }

  lemma {:induction false} DestroyedAtOnce(w: World, key: Key, rest: seq<Act>)
    requires key in w.slots && key !in w.server && !key.kind.Player?
    ensures CreateBinding(w, key, [Destroy(key)] + ([Return] + ([Return] + ([Return] + rest))))
            == Ran(Made(Destroyed(Created(w, key), key), key), rest)
  {
    var created, tail := Created(w, key), [Return] + rest;
    QuietDestroy(created, key, tail);
    Then(created, Destroy(key), [Return] + ([Return] + tail));
    Returns(Destroyed(created, key), rest);
  }

  lemma MadeOfNothing(w: World, key: Key)
    requires key in w.slots && key !in w.server && key !in w.ours
    ensures var x := Made(w, key);
            && key !in x.server && Alive(x.slots, key) && key in x.stale && Flagged(x.slots, key) && key in x.foreign
            && key !in x.ours && key !in x.lost
  {
  }

  function Gone(w: World, key: Key): World {
    if key.kind.Blip? then BlipGone(BlipGoes(w, key), key) else Removed(Releasing(w, key), key)
  }

  /**
    After that another plugin creates an entity with the id.  Pool and server agree on it, but
    the mark is still there: a reload deletes the other plugin's entity.
   */
  lemma {:induction false} AnothersEntityMarked(room: set<Key>, existing: set<Key>, key: Key)
    requires key in room && key !in existing && !key.kind.Player?
    ensures var tape := [Create(key)] + ([Destroy(key)] + ([Return] + ([Return] + ([Return]
                        + ([Appears(key)] + ([Return] + ([Return] + [])))))));
            var w := Served(Opened(room, existing), tape);
            && key in w.server && Alive(w.slots, key) && key !in w.stale && key !in w.lost
            && key !in w.ours && key in w.foreign && key !in Reloaded(w, {key})
  {
    DeletedInItsCreation(Opened(room, existing), key, [Appears(key)] + ([Return] + ([Return] + [])));
    ThenAppears(Made(Destroyed(Created(Opened(room, existing), key), key), key), key);
  }

  lemma {:induction false} ThenAppears(w: World, key: Key)
    requires Alive(w.slots, key) && Flagged(w.slots, key) && key in w.foreign && key !in w.ours && key !in w.lost
    requires !key.kind.Player? && key !in w.server
    ensures var x := Served(w, [Appears(key)] + ([Return] + ([Return] + [])));
            && key in x.server && Alive(x.slots, key) && key !in x.stale && key !in x.lost
            && key !in x.ours && key in x.foreign && key !in Reloaded(x, {key})
  {
    QuietArrive(w, key, []);
    First(w, Appears(key), [Return] + ([Return] + []));
    StillMarked(w, key);
  }

  /** Adopting an id that is alive already changes nothing of its mark. */
  lemma StillMarked(w: World, key: Key)
    requires Alive(w.slots, key) && Flagged(w.slots, key) && key in w.foreign && key !in w.ours && key !in w.lost
    requires !key.kind.Player?
    ensures var x := Told(Arrived(w, key), key);
            && key in x.server && Alive(x.slots, key) && key !in x.stale && key !in x.lost
            && key !in x.ours && key in x.foreign && key !in Reloaded(x, {key})
  {
  }

  /** Another plugin deletes a new entity before we hear of its creation: we adopt what is gone. */
  lemma {:induction false} HeardTooLate(room: set<Key>, existing: set<Key>, key: Key)
    requires key in room && key !in existing && !key.kind.Player? && !key.kind.Blip?
    ensures var tape := [Appears(key)] + ([Disappears(key)] + ([Return] + ([Return] + ([Return] + ([Return] + [])))));
            var w := Served(Opened(room, existing), tape);
            key !in w.server && Alive(w.slots, key) && key in w.stale
  {
    var w := Opened(room, existing);
    GoneBeforeTold(w, key);
    First(w, Appears(key), [Disappears(key)] + ([Return] + ([Return] + ([Return] + ([Return] + [])))));
    ToldOfNothing(Gone(Arrived(w, key), key), key);
  }

  lemma {:induction false} GoneBeforeTold(w: World, key: Key)
    requires !key.kind.Player? && !key.kind.Blip?
    ensures Arrive(w, key, [Disappears(key)] + ([Return] + ([Return] + ([Return] + ([Return] + [])))))
            == Ran(Told(Gone(Arrived(w, key), key), key), [])
  {
    var arrived, tail := Arrived(w, key), [Return] + ([Return] + []);
    DeletedByAnother(arrived, key, [Return] + []);
    Returns(Told(Gone(arrived, key), key), []);
  }

  lemma {:induction false} DeletedByAnother(w: World, key: Key, rest: seq<Act>)
    requires !key.kind.Player? && key in w.server
    ensures RunLua(w, [Disappears(key)] + ([Return] + ([Return] + ([Return] + rest)))) == Ran(Gone(w, key), rest)
  {
    QuietDelete(w, key, [Return] + rest);
    Then(w, Disappears(key), [Return] + ([Return] + ([Return] + rest)));
    Returns(Gone(w, key), rest);
  }

  lemma ToldOfNothing(w: World, key: Key)
    requires key in w.slots && key !in w.server
    ensures var x := Told(w, key); key !in x.server && Alive(x.slots, key) && key in x.stale
  {
  }

  /** Blip.destroy by id repairs a stale blip: the server has none, and the live slot is released. */
  lemma DestroyForgets(w: World, key: Key, tape: seq<Act>)
    requires AtRest(w) && key in w.stale && key in w.slots && key.kind.Blip?
    ensures var x := Step(w, Destroy(key), tape).w;
            x.slots != w.slots && !Alive(x.slots, key) && key !in x.server && key !in x.stale
  {
    assert GoodAt(w, key);
  }

  // ---------------------------------------------------------------- runs of players

  /** An event about a player after our disconnect event and before the server forgets it. */
  lemma {:induction false} SeenAfterItsEvent(room: set<Key>, existing: set<Key>, key: Key)
    requires key in room && key in existing && key.kind.Player?
    ensures var tape := [Quits(key)] + ([Return] + ([Report(key)] + ([Return] + ([Return] + []))));
            var w := Served(Opened(room, existing), tape);
            key !in w.server && Alive(w.slots, key) && key in w.stale
  {
    var w, last := Opened(room, existing), [Report(key)] + ([Return] + ([Return] + []));
    Unsighted(w, key);
    Returns(Announcing(w, key), last);
    var left := Departed(Announcing(w, key), key, false);
    Reported(left, key, []);
    assert Disconnect(w, key, [Return] + last) == Ran(Removed(Sighted(left, key), key), []);
    First(w, Quits(key), [Return] + last);
  }

  /** One report, and the end of what reported it. */
  lemma {:induction false} Reported(w: World, key: Key, rest: seq<Act>)
    requires key in w.server && !key.kind.Blip?
    ensures RunLua(w, [Report(key)] + ([Return] + ([Return] + rest))) == Ran(Sighted(w, key), rest)
  {
    Then(w, Report(key), [Return] + ([Return] + rest));
    Returns(Sighted(w, key), [Return] + rest);
    Returns(Sighted(w, key), rest);
  }

  /** A disconnect during which nobody does anything. */
  lemma {:induction false} QuietDisconnect(w: World, key: Key, rest: seq<Act>)
    requires Alive(w.slots, key) && key !in w.lost && Removing(key) !in w.open
    ensures Disconnect(w, key, [Return] + ([Return] + rest))
            == Ran(Removed(Departed(Announcing(w, key), key, false), key), rest)
  {
    Unsighted(w, key);
    Returns(Announcing(w, key), [Return] + rest);
    Returns(Departed(Announcing(w, key), key, false), rest);
  }

  /** The world after the player was kicked inside its own disconnect event; `inner` is when that kick is over. */
  lemma {:induction false} OuterEvent(w: World, inner: World, key: Key, tape: seq<Act>)
    requires Alive(w.slots, key) && key in w.server && key.kind.Player? && key !in w.lost && key in inner.slots
    requires Removing(key) !in w.open
    requires RunLua(Announcing(w, key), tape) == Ran(inner, [Return] + [])
    ensures Outermost(w, Kick(key), tape) == Ran(Removed(Departed(inner, key, false), key), [])
  {
    Unsighted(w, key);
    Returns(Departed(inner, key, false), []);
    assert SayGoodbye(w, key, false, tape) == Ran(Departed(inner, key, false), [Return] + []);
    assert Leave(Departed(inner, key, false), key, [Return] + []) == Ran(Removed(Departed(inner, key, false), key), []);
    assert Disconnect(w, key, tape) == Ran(Removed(Departed(inner, key, false), key), []);
  }

  /** A handler kicks a player inside that player's own disconnect event: announced twice. */
  lemma {:induction false} KickedInItsDisconnect(w: World, key: Key)
    requires Alive(w.slots, key) && key in w.server && key.kind.Player? && key !in w.lost && Removing(key) !in w.open
    ensures var tape := [Kick(key)] + ([Return] + ([Return] + ([Return] + ([Return] + []))));
            var r := Outermost(w, Kick(key), tape);
            var f := Farewell(key, w.slots[key].births);
            r.rest == [] && r.w.doubled && r.w.log == w.log + [f, f] && !NoneTwice(r.w.log)
  {
    var first, f := Announcing(w, key), Farewell(key, w.slots[key].births);
    QuietKick(first, key, [Return] + []);
    OuterEvent(w, QuietlyKicked(first, key), key, [Kick(key)] + ([Return] + ([Return] + ([Return] + ([Return] + [])))));
    assert (w.log + [f, f])[|w.log|] == (w.log + [f, f])[|w.log| + 1];
  }

  function QuietlyKicked(w: World, key: Key): World
    requires key in w.slots
  {
    Removed(Departed(Announcing(w, key), key, false), key)
  }

  lemma {:induction false} QuietKick(w: World, key: Key, rest: seq<Act>)
    requires Alive(w.slots, key) && key in w.server && key.kind.Player? && key !in w.lost && Removing(key) !in w.open
    ensures RunLua(w, [Kick(key)] + ([Return] + ([Return] + ([Return] + rest)))) == Ran(QuietlyKicked(w, key), rest)
  {
    var tail := [Return] + rest;
    QuietDisconnect(w, key, tail);
    Then(w, Kick(key), [Return] + ([Return] + tail));
    Returns(QuietlyKicked(w, key), rest);
  }

  /** And so it is in a run: a player kicked inside its own event is announced twice. */
  lemma {:induction false} AnnouncedTwice(room: set<Key>, existing: set<Key>, key: Key)
    requires key in room && key in existing && key.kind.Player?
    ensures var tape := [Kick(key)] + ([Kick(key)] + ([Return] + ([Return] + ([Return] + ([Return] + [])))));
            var w := Served(Opened(room, existing), tape);
            w.doubled && !NoneTwice(w.log)
  {
    var tape := [Kick(key)] + ([Return] + ([Return] + ([Return] + ([Return] + []))));
    KickedInItsDisconnect(Opened(room, existing), key);
    First(Opened(room, existing), Kick(key), tape);
  }

  /**
    The same, and an event is reported about the player before the server forgets it the first
    time: that starts another lifetime, which the end of the outer event ends without a word.
   */
  lemma {:induction false} EndedSilently(w: World, key: Key)
    requires Alive(w.slots, key) && key in w.server && key.kind.Player? && key !in w.lost && Removing(key) !in w.open
    requires Farewell(key, w.slots[key].births + 1) !in w.log
    ensures var tape := [Kick(key)] + ([Return] + ([Report(key)] + ([Return] + ([Return] + ([Return] + ([Return] + []))))));
            var r := Outermost(w, Kick(key), tape);
            r.rest == [] && r.w.doubled && Farewell(key, w.slots[key].births + 1) in r.w.silent
  {
    var first, last := Announcing(w, key), [Return] + ([Return] + []);
    KickedAndSeen(first, key, [Return] + []);
    OuterEvent(w, SeenWhileKicked(first, key), key,
               [Kick(key)] + ([Return] + ([Report(key)] + ([Return] + ([Return] + last)))));
  }

  function SeenWhileKicked(w: World, key: Key): World
    requires key in w.slots
  {
    Removed(Sighted(Departed(Announcing(w, key), key, false), key), key)
  }

  lemma {:induction false} KickedAndSeen(w: World, key: Key, rest: seq<Act>)
    requires Alive(w.slots, key) && key in w.server && key.kind.Player? && key !in w.lost && Removing(key) !in w.open
    ensures RunLua(w, [Kick(key)] + ([Return] + ([Report(key)] + ([Return] + ([Return] + ([Return] + rest))))))
            == Ran(SeenWhileKicked(w, key), rest)
  {
    var tail := [Return] + rest;
    var seen := [Report(key)] + ([Return] + ([Return] + tail));
    Unsighted(w, key);
    Returns(Announcing(w, key), seen);
    var left := Departed(Announcing(w, key), key, false);
    Reported(left, key, tail);
    assert Disconnect(w, key, [Return] + seen) == Ran(SeenWhileKicked(w, key), tail);
    Then(w, Kick(key), [Return] + seen);
    Returns(SeenWhileKicked(w, key), rest);
  }

  /** While the shutdown loop says goodbye to `q`, an event is reported about `p`, who is dismissed. */
  lemma {:induction false} SeenAfterItsFarewell(room: set<Key>, p: Key, q: Key)
    requires p in room && q in room && p.kind.Player? && q.kind.Player? && p != q
    ensures var last := [Return] + ([Return] + ([Report(p)] + ([Return] + ([Return] + []))));
            var w := Opened(room, {p, q});
            var x := ShutDown(w, [p] + [q], last);
            && Lists([p] + [q], RunLua(w, last).w)
            && Alive(x.slots, p) && x.slots[p].births == 2 && x.revived == {p}
            && x.log == [Farewell(p, 1), Farewell(q, 1)]
  {
    var w, later := Opened(room, {p, q}), [Report(p)] + ([Return] + ([Return] + []));
    Returns(w, [Return] + later);
    assert Lists([p] + [q], w);
    SeenInTheLoop(w, p, q);
  }

  lemma {:induction false} SeenInTheLoop(w: World, p: Key, q: Key)
    requires p != q && p.kind.Player? && Alive(w.slots, p) && Alive(w.slots, q) && p in w.server
    requires w.revived == {} && w.log == []
    ensures var x := Dismissals(w, [p] + [q], [Return] + ([Report(p)] + ([Return] + ([Return] + []))));
            && Alive(x.slots, p) && x.slots[p].births == w.slots[p].births + 1 && x.revived == {p}
            && x.log == [Farewell(p, w.slots[p].births), Farewell(q, w.slots[q].births)]
  {
    var later := [Report(p)] + ([Return] + ([Return] + []));
    SeenAgain(w, p, q);
    var one := Departed(Announcing(w, p), p, true);
    Dismissed(w, p, [q], later);
    Reported(Announcing(one, q), p, []);
    LastTurn(one, q, later);
  }

  /** A player whose disconnect event runs no code. */
  lemma {:induction false} Dismissed(w: World, p: Key, others: seq<Key>, rest: seq<Act>)
    requires Alive(w.slots, p)
    ensures Dismissals(w, [p] + others, [Return] + rest) == Dismissals(Departed(Announcing(w, p), p, true), others, rest)
  {
    Returns(Announcing(w, p), rest);
    assert ([p] + others)[1..] == others;
  }

  lemma {:induction false} LastTurn(w: World, q: Key, tape: seq<Act>)
    requires Alive(w.slots, q)
    ensures Dismissals(w, [q], tape) == SayGoodbye(w, q, true, tape).w
  {
    assert [q][1..] == [];
  }

  lemma SeenAgain(w: World, p: Key, q: Key)
    requires p != q && p.kind.Player? && Alive(w.slots, p) && Alive(w.slots, q) && w.revived == {} && w.log == []
    ensures var one := Departed(Announcing(w, p), p, true);
            var last := Departed(Sighted(Announcing(one, q), p), q, true);
            && Alive(one.slots, q) && Alive(last.slots, p) && last.slots[p].births == w.slots[p].births + 1
            && last.revived == {p} && last.log == [Farewell(p, w.slots[p].births), Farewell(q, w.slots[q].births)]
  {
  }
}
