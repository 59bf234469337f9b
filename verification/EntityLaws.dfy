/**
  What holds of the entity world at every moment, however deeply events are nested: on which ids
  pool and server disagree, which marks are wrong, and which lifetimes of players were announced.
 */
module EntityLaws {
  import opened EntityPool
  import opened EntityWorld

  // ---------------------------------------------------------------- what holds at every moment

  /** How pool and server can disagree on an id, and what then is the case. */
  predicate InStepAt(w: World, key: Key)
    requires key in w.slots
  {
    && (key in w.stale ==> w.slots[key].alive && key !in w.server)
    && (key in w.lost ==> !w.slots[key].alive && key in w.server)
    && (w.slots[key].alive ==> key in w.server || key in w.stale || Deleting(key) in w.open)
    && (key in w.server && !w.slots[key].alive ==>
          key in w.lost || key in w.dismissed || Arriving(key) in w.open || Removing(key) in w.open)
  }

  /** How the mark of a slot can be wrong, and what then is the case. */
  predicate MarkedAt(w: World, key: Key)
    requires key in w.slots
  {
    && (w.slots[key].createdByUs ==> w.slots[key].alive)
    && (key in w.foreign ==> w.slots[key].createdByUs && key !in w.ours)
    && (key in w.unmarked ==> !w.slots[key].createdByUs && key in w.ours)
    && (w.slots[key].createdByUs && key !in w.ours ==> key in w.foreign || Deleting(key) in w.open)
    && (key in w.ours && !w.slots[key].createdByUs ==>
          key in w.unmarked || Making(key) in w.open || Removing(key) in w.open)
  }

  /** Which dismissed players are alive; a lifetime that has begun is counted. */
  predicate LivingAt(w: World, key: Key)
    requires key in w.slots
  {
    && (w.slots[key].alive ==> 1 <= w.slots[key].births)
    && (key in w.dismissed ==> (w.slots[key].alive <==> key in w.revived))
    && (key in w.revived ==> key in w.dismissed)
  }

  /** No disagreement and no wrong mark, and what each call under way has yet to do. */
  predicate CleanAt(w: World, key: Key)
    requires key in w.slots
  {
    && key !in w.stale && key !in w.lost && key !in w.foreign && key !in w.unmarked
    && (Making(key) in w.open ==> key in w.server && key in w.ours)
    && (Arriving(key) in w.open ==> key in w.server)
    && (Removing(key) in w.open ==> !w.slots[key].alive)
    && (Deleting(key) in w.open ==> key !in w.server)
  }

  /** A slot has had one lifetime for each time the server gave out its id, but for one not yet reported. */
  predicate CountedAt(w: World, key: Key)
    requires key in w.slots
  {
    if Arriving(key) !in w.open then w.slots[key].births == w.spawned[key]
    else Removing(key) in w.open || w.slots[key].births + (if w.slots[key].alive then 0 else 1) == w.spawned[key]
  }

  /** So it is as long as nobody does anything to an id inside a call about it. */
  predicate UntouchedAt(w: World, key: Key)
    requires key in w.slots
  {
    key in w.meddled || (CleanAt(w, key) && (key in w.dismissed || CountedAt(w, key)))
  }

  predicate GoodAt(w: World, key: Key)
    requires key in w.slots
  {
    InStepAt(w, key) && MarkedAt(w, key) && LivingAt(w, key) && UntouchedAt(w, key)
  }

  predicate AllGood(w: World) {
    forall key <- w.slots :: GoodAt(w, key)
  }

  /** Players are never ours, and only they are dismissed. */
  predicate Kinds(w: World) {
    && w.ours <= w.server && (forall key <- w.ours :: !key.kind.Player?)
    && (forall key <- w.dismissed :: key.kind.Player?)
    && (forall key <- w.lost + w.foreign :: !key.kind.Player?)
    && (forall f <- w.open :: (f.Making? ==> !f.key.kind.Player?) && (f.Deleting? ==> f.key.kind.Blip?))
  }

  /** A lifetime of a player that is over was announced or ended silently, never both. */
  ghost predicate Announced(w: World) {
    && (forall key, life: nat | key in w.slots && key.kind.Player? && 1 <= life && Over(w.slots[key], life) ::
          Farewell(key, life) in w.log || Farewell(key, life) in w.silent)
    && (forall f <- w.log :: Counted(w, f) && f !in w.silent && (Over(w.slots[f.key], f.life) || f.key in w.leaving))
    && (forall f <- w.silent :: Counted(w, f) && Over(w.slots[f.key], f.life))
    && (w.silent != {} ==> w.doubled)
  }

  predicate Counted(w: World, f: Farewell) {
    f.key in w.slots && f.key.kind.Player? && 1 <= f.life <= w.slots[f.key].births
  }

  /**
    A player whose disconnect event is running is being announced, and its handle is valid,
    unless a handler kicked it inside its own event.
   */
  predicate LeavingAt(w: World, key: Key) {
    && key in w.slots && key.kind.Player?
    && (w.doubled || (w.slots[key].alive && Farewell(key, w.slots[key].births) in w.log))
  }

  predicate AllLeaving(w: World) {
    && (forall key <- w.leaving :: LeavingAt(w, key))
    && (forall i, j :: 0 <= i < j < |w.leaving| && w.leaving[i] == w.leaving[j] ==> w.doubled)
  }

  predicate NoneTwice(log: seq<Farewell>) {
    forall i, j :: 0 <= i < j < |log| ==> log[i] != log[j]
  }

  ghost predicate Said(w: World) {
    Announced(w) && AllLeaving(w) && (NoneTwice(w.log) <==> !w.doubled)
  }

  ghost predicate Inv(w: World) {
    AllGood(w) && Kinds(w) && Said(w)
  }

  /** Lifetimes do not come back. */
  predicate Older(s: Slot, t: Slot) {
    s.births <= t.births && (s.births == t.births && !s.alive ==> !t.alive)
  }

  /** What nested calls do to one slot: a lifetime that is being announced goes on unless doubled. */
  predicate KeptAt(v: World, w: World, key: Key)
    requires key in v.slots && key in w.slots
  {
    && Older(v.slots[key], w.slots[key])
    && (key.kind.Player? && w.slots[key].alive && !v.slots[key].alive ==>
          key in w.dismissed || Arriving(key) in v.open || Removing(key) in v.open)
    && (key in v.leaving && v.slots[key].alive && !w.doubled ==>
          w.slots[key].alive && w.slots[key].births == v.slots[key].births)
  }

  /** What nested calls keep: the calls around them stay open, and no player comes alive unnoticed. */
  predicate Kept(v: World, w: World) {
    && w.slots.Keys == v.slots.Keys && w.leaving == v.leaving && w.open == v.open
    && w.dismissed == v.dismissed && v.log <= w.log && (v.doubled ==> w.doubled)
    && (forall key <- w.slots :: KeptAt(v, w, key))
  }

  lemma KeptTransitive(u: World, v: World, w: World)
    requires Kept(u, v) && Kept(v, w)
    ensures Kept(u, w)
  {
    forall key <- w.slots ensures KeptAt(u, w, key) {
      assert KeptAt(u, v, key) && KeptAt(v, w, key);
    }
  }

  // ---------------------------------------------------------------- steps that touch one id

  /** Nothing but `key` is touched. */
  predicate Elsewhere(v: World, w: World, key: Key) {
    && w.slots.Keys == v.slots.Keys && (forall k <- v.slots :: k != key ==> w.slots[k] == v.slots[k])
    && SameBut(v.server, w.server, key) && SameBut(v.ours, w.ours, key) && SameBut(v.stale, w.stale, key)
    && SameBut(v.lost, w.lost, key) && SameBut(v.foreign, w.foreign, key) && SameBut(v.unmarked, w.unmarked, key)
    && SameBut(v.dismissed, w.dismissed, key) && SameBut(v.revived, w.revived, key)
    && SameBut(v.meddled, w.meddled, key) && v.spawned[key := 0] == w.spawned[key := 0]
    && (forall f <- v.open :: f.key != key ==> f in w.open) && (forall f <- w.open :: f.key != key ==> f in v.open)
  }

  predicate SameBut(a: set<Key>, b: set<Key>, key: Key) {
    a - {key} == b - {key}
  }

  lemma SameButIn(a: set<Key>, b: set<Key>, key: Key, k: Key)
    requires SameBut(a, b, key) && k != key
    ensures k in a <==> k in b
  {
    assert k in a <==> k in a - {key};
  }

  lemma GoodElsewhere(v: World, w: World, key: Key, k: Key)
    requires Elsewhere(v, w, key) && k != key && k in v.slots && GoodAt(v, k)
    ensures GoodAt(w, k)
  {
    SameButIn(v.server, w.server, key, k);
    SameButIn(v.ours, w.ours, key, k);
    SameButIn(v.stale, w.stale, key, k);
    SameButIn(v.lost, w.lost, key, k);
    SameButIn(v.foreign, w.foreign, key, k);
    SameButIn(v.unmarked, w.unmarked, key, k);
    SameButIn(v.dismissed, w.dismissed, key, k);
    SameButIn(v.revived, w.revived, key, k);
    SameButIn(v.meddled, w.meddled, key, k);
    assert v.spawned[k] == v.spawned[key := 0][k] && w.spawned[k] == w.spawned[key := 0][k];
  }

  lemma AllGoodBy(v: World, w: World, key: Key)
    requires AllGood(v) && Elsewhere(v, w, key) && (key in w.slots ==> GoodAt(w, key))
    ensures AllGood(w)
  {
    forall k <- w.slots ensures GoodAt(w, k) {
      if k != key { GoodElsewhere(v, w, key, k); }
    }
  }

  /** A step that concerns an entity, so no player and no disconnect event. */
  predicate EntityStep(v: World, w: World, key: Key) {
    && !key.kind.Player? && Elsewhere(v, w, key)
    && (key in v.slots ==> Older(v.slots[key], w.slots[key]))
    && w.log == v.log && w.leaving == v.leaving && w.doubled == v.doubled && w.silent == v.silent
    && w.dismissed == v.dismissed && w.revived == v.revived
  }

  lemma EntityStepKeeps(v: World, w: World, key: Key)
    requires Inv(v) && EntityStep(v, w, key) && Kinds(w) && (key in w.slots ==> GoodAt(w, key))
    ensures Inv(w) && (w.open == v.open ==> Kept(v, w))
  {
    AllGoodBy(v, w, key);
    EntityStepSaid(v, w, key);
  }

  lemma EntityStepSaid(v: World, w: World, key: Key)
    requires Said(v) && EntityStep(v, w, key)
    ensures Said(w) && (w.open == v.open ==> Kept(v, w))
  {
    forall k <- w.leaving ensures LeavingAt(w, k) {
      assert LeavingAt(v, k);
    }
    assert key in v.leaving ==> LeavingAt(v, key);
  }

  /** Kept through a call: `w` is reached with one more frame of `key` open, which is closed again. */
  lemma KeptThrough(u: World, v: World, w: World, x: World, key: Key)
    requires EntityStep(u, v, key) && Kept(v, w) && EntityStep(w, x, key) && x.open == u.open && AllLeaving(u)
    ensures Kept(u, x)
  {
    assert key in u.leaving ==> LeavingAt(u, key);
    forall k <- x.slots ensures KeptAt(u, x, k) {
      assert KeptAt(v, w, k);
    }
  }

  lemma PopPush<T>(stack: seq<T>, top: T)
    ensures Pop(stack + [top]) == stack
  {
  }

  /** Closing the innermost frame leaves the frames of other ids open. */
  lemma Popped(open: seq<Frame>, key: Key)
    requires open != [] && open[|open| - 1].key == key
    ensures forall f <- open :: f.key != key ==> f in Pop(open)
    ensures forall f <- Pop(open) :: f in open
  {
    assert open == Pop(open) + [open[|open| - 1]];
  }

  // ---------------------------------------------------------------- each step of an entity

  lemma CreatedKeeps(w: World, key: Key)
    requires Inv(w) && !key.kind.Player? && key !in w.server
    ensures Inv(Created(w, key)) && EntityStep(w, Created(w, key), key)
  {
    var x := Created(w, key);
    if key in w.slots { CreatedGood(w, key); }
    assert EntityStep(w, x, key);
    EntityStepKeeps(w, x, key);
  }

  lemma CreatedGood(w: World, key: Key)
    requires key in w.slots && GoodAt(w, key) && key !in w.server && key !in w.dismissed && w.ours <= w.server
    ensures GoodAt(Created(w, key), key)
  {
  }

  lemma MadeKeeps(w: World, key: Key)
    requires Inv(w) && !key.kind.Player? && w.open != [] && w.open[|w.open| - 1] == Making(key)
    ensures Inv(Made(w, key)) && EntityStep(w, Made(w, key), key)
  {
    var x := Made(w, key);
    Popped(w.open, key);
    assert key in w.slots ==> GoodAt(w, key);
    assert EntityStep(w, x, key);
    EntityStepKeeps(w, x, key);
  }

  lemma ArrivedKeeps(w: World, key: Key)
    requires Inv(w) && !key.kind.Player? && key !in w.server
    ensures Inv(Arrived(w, key)) && EntityStep(w, Arrived(w, key), key)
  {
    var x := Arrived(w, key);
    assert key in w.slots ==> GoodAt(w, key);
    assert EntityStep(w, x, key);
    EntityStepKeeps(w, x, key);
  }

  lemma ToldKeeps(w: World, key: Key)
    requires Inv(w) && !key.kind.Player? && w.open != [] && w.open[|w.open| - 1] == Arriving(key)
    ensures Inv(Told(w, key)) && EntityStep(w, Told(w, key), key)
  {
    var x := Told(w, key);
    Popped(w.open, key);
    assert w.open == x.open + [Arriving(key)];
    assert key in w.slots ==> GoodAt(w, key);
    assert EntityStep(w, x, key);
    EntityStepKeeps(w, x, key);
  }

  lemma ReleasingKeeps(w: World, key: Key)
    requires Inv(w) && !key.kind.Player?
    ensures Inv(Releasing(w, key)) && EntityStep(w, Releasing(w, key), key)
  {
    var x := Releasing(w, key);
    assert key in w.slots ==> GoodAt(w, key);
    assert EntityStep(w, x, key);
    EntityStepKeeps(w, x, key);
  }

  lemma RemovedKeeps(w: World, key: Key)
    requires Inv(w) && !key.kind.Player? && w.open != [] && w.open[|w.open| - 1] == Removing(key)
    ensures Inv(Removed(w, key)) && EntityStep(w, Removed(w, key), key)
  {
    var x := Removed(w, key);
    Popped(w.open, key);
    assert key in w.slots ==> GoodAt(w, key);
    assert EntityStep(w, x, key);
    EntityStepKeeps(w, x, key);
  }

  lemma BlipGoesKeeps(w: World, key: Key)
    requires Inv(w) && key.kind.Blip?
    ensures Inv(BlipGoes(w, key)) && EntityStep(w, BlipGoes(w, key), key)
  {
    var x := BlipGoes(w, key);
    assert key in w.slots ==> GoodAt(w, key);
    assert EntityStep(w, x, key);
    EntityStepKeeps(w, x, key);
  }

  lemma BlipGoneKeeps(w: World, key: Key)
    requires Inv(w) && key.kind.Blip? && w.open != [] && w.open[|w.open| - 1] == Deleting(key)
    ensures Inv(BlipGone(w, key)) && EntityStep(w, BlipGone(w, key), key)
  {
    var x := BlipGone(w, key);
    Popped(w.open, key);
    if key in w.slots { BlipGoneGood(w, key); }
    assert EntityStep(w, x, key);
    EntityStepKeeps(w, x, key);
  }

  lemma BlipGoneGood(w: World, key: Key)
    requires key in w.slots && GoodAt(w, key) && key !in w.dismissed
    requires w.open != [] && w.open[|w.open| - 1] == Deleting(key) && w.ours <= w.server
    ensures GoodAt(BlipGone(w, key), key)
  {
    assert w.open == Pop(w.open) + [Deleting(key)];
  }

  lemma DroppedKeeps(w: World, key: Key)
    requires Inv(w) && !key.kind.Player? && (key in w.server ==> Deleting(key) in w.open)
    ensures Inv(Dropped(w, key)) && Kept(w, Dropped(w, key))
  {
    var x := Dropped(w, key);
    assert key in w.slots ==> GoodAt(w, key);
    assert EntityStep(w, x, key);
    EntityStepKeeps(w, x, key);
  }

  // ---------------------------------------------------------------- each step of a player

  /** Adopting a player starts a lifetime, or does nothing. */
  lemma AdoptSaid(v: World, w: World, key: Key)
    requires Said(v) && key.kind.Player? && w.slots == AdoptAt(v.slots, key)
    requires w.log == v.log && w.leaving == v.leaving && w.doubled == v.doubled && w.silent == v.silent
    ensures Said(w)
  {
    forall k <- w.leaving ensures LeavingAt(w, k) {
      assert LeavingAt(v, k);
    }
  }

  /** No mark is ever on a player. */
  lemma PlayerUnmarked(w: World, key: Key)
    requires AllGood(w) && Kinds(w) && key in w.slots && key.kind.Player?
    ensures !w.slots[key].createdByUs && key !in w.lost && key !in w.ours && key !in w.foreign
  {
    assert GoodAt(w, key);
    assert Deleting(key) !in w.open;
  }

  lemma SightedKeeps(w: World, key: Key)
    requires Inv(w) && key in w.server
    ensures Inv(Sighted(w, key)) && Kept(w, Sighted(w, key))
  {
    var x := Sighted(w, key);
    if key in w.slots { SightedGood(w, key); }
    if key.kind.Player? {
      AllGoodBy(w, x, key);
      AdoptSaid(w, x, key);
      SightedKept(w, key);
    } else {
      assert EntityStep(w, x, key);
      EntityStepKeeps(w, x, key);
    }
  }

  lemma SightedGood(w: World, key: Key)
    requires key in w.slots && GoodAt(w, key) && key in w.server
    ensures GoodAt(Sighted(w, key), key)
  {
  }

  lemma SightedKept(w: World, key: Key)
    requires AllGood(w) && Kinds(w) && key in w.server && key.kind.Player?
    ensures Kept(w, Sighted(w, key))
  {
    if key in w.slots {
      PlayerUnmarked(w, key);
      assert GoodAt(w, key);
    }
  }

  /** A player connects. */
  lemma JoinedKeeps(w: World, key: Key)
    requires Inv(w) && key.kind.Player? && key !in w.server
    ensures Inv(Arrived(w, key))
  {
    var x := Arrived(w, key);
    assert key in w.slots ==> GoodAt(w, key);
    AllGoodBy(w, x, key);
    forall k <- w.leaving ensures LeavingAt(x, k) {
      assert LeavingAt(w, k);
    }
  }

  /** We hear of a player that connects. */
  lemma WelcomedKeeps(w: World, key: Key)
    requires Inv(w) && key.kind.Player? && w.open != [] && w.open[|w.open| - 1] == Arriving(key)
    requires key !in w.dismissed
    ensures Inv(Told(w, key))
  {
    var x := Told(w, key);
    Popped(w.open, key);
    assert w.open == x.open + [Arriving(key)];
    assert key in w.slots ==> GoodAt(w, key);
    AllGoodBy(w, x, key);
    AdoptSaid(w, x, key);
  }

  /**
    The start of a disconnect event of a live player.  Unless a player was announced twice before,
    this lifetime was announced exactly if the event arrives inside its own disconnect event.
   */
  lemma AnnouncingKeeps(w: World, key: Key)
    requires Inv(w) && Alive(w.slots, key) && key.kind.Player?
    ensures Inv(Announcing(w, key))
    ensures !w.doubled ==> (Farewell(key, w.slots[key].births) in w.log <==> key in w.leaving)
  {
    var x := Announcing(w, key);
    LogGrows(w.log, Farewell(key, w.slots[key].births));
    forall k <- w.slots ensures GoodAt(x, k) {
      assert GoodAt(w, k);
    }
    AnnouncingSaid(w, key);
  }

  lemma AnnouncingSaid(w: World, key: Key)
    requires Said(w) && Alive(w.slots, key) && key.kind.Player? && 1 <= w.slots[key].births
    ensures Said(Announcing(w, key))
    ensures !w.doubled ==> (Farewell(key, w.slots[key].births) in w.log <==> key in w.leaving)
  {
    var x := Announcing(w, key);
    var f := Farewell(key, w.slots[key].births);
    LogGrows(w.log, f);
    assert key in w.leaving ==> LeavingAt(w, key);
    forall k <- x.leaving ensures LeavingAt(x, k) {
      if k in w.leaving { assert LeavingAt(w, k); }
    }
    assert forall i :: 0 <= i < |w.leaving| ==> x.leaving[i] == w.leaving[i];
  }

  lemma {:induction false} LogGrows(log: seq<Farewell>, f: Farewell)
    ensures NoneTwice(log + [f]) <==> NoneTwice(log) && f !in log
    ensures f in log + [f] && forall g :: g in log + [f] <==> g in log || g == f
  {
    var later := log + [f];
    assert later[|log|] == f && forall i :: 0 <= i < |log| ==> later[i] == log[i];
    if NoneTwice(later) {
      forall i, j | 0 <= i < j < |log| ensures log[i] != log[j] {
        assert later[i] != later[j];
      }
      forall i | 0 <= i < |log| ensures log[i] != f {
        assert later[i] != later[|log|];
      }
    }
  }

  /** The end of our disconnect event. */
  lemma DepartedKeeps(w: World, key: Key, shutdown: bool)
    requires Inv(w) && w.leaving != [] && w.leaving[|w.leaving| - 1] == key && key in w.slots && key.kind.Player?
    ensures Inv(Departed(w, key, shutdown))
  {
    PlayerUnmarked(w, key);
    DepartedGood(w, key, shutdown);
    AllGoodBy(w, Departed(w, key, shutdown), key);
    DepartedSaid(w, key, shutdown);
  }

  lemma DepartedGood(w: World, key: Key, shutdown: bool)
    requires key in w.slots && GoodAt(w, key) && key !in w.ours && key !in w.foreign && key !in w.lost
    ensures GoodAt(Departed(w, key, shutdown), key)
  {
  }

  lemma DepartedSaid(w: World, key: Key, shutdown: bool)
    requires Said(w) && w.leaving != [] && w.leaving[|w.leaving| - 1] == key && key in w.slots
    requires w.slots[key].alive ==> 1 <= w.slots[key].births
    ensures Said(Departed(w, key, shutdown))
  {
    var x := Departed(w, key, shutdown);
    assert w.leaving == x.leaving + [key];
    assert LeavingAt(w, key);
    forall k <- x.leaving ensures LeavingAt(x, k) {
      assert LeavingAt(w, k);
      var i :| 0 <= i < |x.leaving| && x.leaving[i] == k;
      assert k == key ==> w.leaving[i] == w.leaving[|x.leaving|];
    }
    assert forall i :: 0 <= i < |x.leaving| ==> x.leaving[i] == w.leaving[i];
  }

  /** The server forgets a player. */
  lemma ForgottenKeeps(w: World, key: Key)
    requires Inv(w) && key.kind.Player? && key in w.slots && w.open != [] && w.open[|w.open| - 1] == Removing(key)
    ensures Inv(Removed(w, key))
  {
    var x := Removed(w, key);
    Popped(w.open, key);
    assert GoodAt(w, key);
    PlayerUnmarked(w, key);
    AllGoodBy(w, x, key);
    forall k <- w.leaving ensures LeavingAt(x, k) {
      assert LeavingAt(w, k);
    }
  }

  /**
    A whole disconnect, seen from outside: `u` when our event begins, `v` when its handlers are
    done, `y` when the other plugins are done too.
   */
  lemma GoodbyeKept(u: World, v: World, y: World, key: Key)
    requires Alive(u.slots, key) && key.kind.Player? && Kept(Announcing(u, key), v) && Kept(Departed(v, key, false), y)
    ensures forall k <- u.slots :: k != key ==> KeptAt(u, Removed(y, key), k)
    ensures var x := Removed(y, key);
            && x.slots.Keys == u.slots.Keys && x.leaving == u.leaving && x.open == u.open
            && x.dismissed == u.dismissed && u.log <= x.log && (u.doubled ==> x.doubled)
            && Older(u.slots[key], x.slots[key]) && (key in u.leaving ==> x.doubled)
  {
    PopPush(u.leaving, key);
    PopPush(u.open, Removing(key));
    var d := Departed(v, key, false);
    assert KeptAt(Announcing(u, key), v, key) && KeptAt(d, y, key);
    forall k <- u.slots | k != key ensures KeptAt(u, Removed(y, key), k) {
      assert KeptAt(Announcing(u, key), v, k) && KeptAt(d, y, k);
    }
  }

  /** The same from the moment the server starts to disconnect `key`. */
  lemma DisconnectKept(w: World, v: World, y: World, key: Key)
    requires AllGood(w) && Kinds(w) && key in w.server && key in w.slots && key.kind.Player?
    requires Kept(Announcing(Sighted(w, key), key), v) && Kept(Departed(v, key, false), y)
    ensures Kept(w, Removed(y, key))
  {
    var u, x := Sighted(w, key), Removed(y, key);
    SightedKept(w, key);
    GoodbyeKept(u, v, y, key);
    PlayerUnmarked(w, key);
    assert GoodAt(w, key) && KeptAt(w, u, key);
    forall k <- x.slots ensures KeptAt(w, x, k) {
      assert KeptAt(w, u, k);
      if k != key { assert KeptAt(u, x, k); }
    }
  }

  // ---------------------------------------------------------------- every script keeps it

  lemma {:induction false} RunLuaKeeps(w: World, tape: seq<Act>)
    requires Inv(w)
    ensures var r := RunLua(w, tape); Inv(r.w) && Kept(w, r.w)
    decreases |tape|, 0
  {
    if tape != [] && !tape[0].Return? {
      var s := Step(w, tape[0], tape[1..]);
      StepKeeps(w, tape[0], tape[1..]);
      RunLuaKeeps(s.w, s.rest);
      KeptTransitive(w, s.w, RunLua(w, tape).w);
    }
  }

  lemma {:induction false} StepKeeps(w: World, act: Act, tape: seq<Act>)
    requires Inv(w)
    ensures var r := Step(w, act, tape); Inv(r.w) && Kept(w, r.w)
    decreases |tape|, 4
  {
    match act
    case Create(key) => CreateKeeps(w, key, tape);
    case Appears(key) => if !key.kind.Player? && key !in w.server { ArriveKeeps(w, key, tape); }
    case Destroy(key) => DestroyKeeps(w, key, tape);
    case Disappears(key) =>
      if key in w.server {
        if key.kind.Player? { DisconnectKeeps(w, key, tape); } else { DeleteKeeps(w, key, tape); }
      }
    case Kick(key) =>
      if key.kind.Player? && Alive(w.slots, key) && key in w.server { DisconnectKeeps(w, key, tape); }
    case Report(key) => if key in w.server { ReportKeeps(w, key, tape); }
    case _ =>
  }

  lemma {:induction false} ReportKeeps(w: World, key: Key, tape: seq<Act>)
    requires Inv(w) && key in w.server
    ensures var r := RunLua(Sighted(w, key), tape); Inv(r.w) && Kept(w, r.w)
    decreases |tape|, 1
  {
    SightedKeeps(w, key);
    RunLuaKeeps(Sighted(w, key), tape);
    KeptTransitive(w, Sighted(w, key), RunLua(Sighted(w, key), tape).w);
  }

  /** A Create* binding: the new id is alive and marked, whatever happened in its event. */
  lemma {:induction false} CreateKeeps(w: World, key: Key, tape: seq<Act>)
    requires Inv(w)
    ensures var r := CreateBinding(w, key, tape); Inv(r.w) && Kept(w, r.w)
    decreases |tape|, 2
  {
    if !key.kind.Player? && key !in w.server {
      var v := Created(w, key);
      CreatedKeeps(w, key);
      RunLuaKeeps(v, tape);
      var y := RunLua(v, tape).w;
      MadeKeeps(y, key);
      PopPush(w.open, Making(key));
      KeptThrough(w, v, y, Made(y, key), key);
    }
  }

  lemma {:induction false} ArriveKeeps(w: World, key: Key, tape: seq<Act>)
    requires Inv(w) && !key.kind.Player? && key !in w.server
    ensures var r := Arrive(w, key, tape); Inv(r.w) && Kept(w, r.w)
    decreases |tape|, 1
  {
    var v := Arrived(w, key);
    ArrivedKeeps(w, key);
    RunLuaKeeps(v, tape);
    var r := RunLua(v, tape);
    ToldKeeps(r.w, key);
    PopPush(w.open, Arriving(key));
    KeptThrough(w, v, r.w, Told(r.w, key), key);
    RunLuaKeeps(Told(r.w, key), r.rest);
    KeptTransitive(w, Told(r.w, key), RunLua(Told(r.w, key), r.rest).w);
  }

  /** A deletion.  Unless somebody meddled, the slot is dead afterwards. */
  lemma {:induction false} DeleteKeeps(w: World, key: Key, tape: seq<Act>)
    requires Inv(w) && !key.kind.Player?
    ensures var r := DeleteEntity(w, key, tape);
            && Inv(r.w) && Kept(w, r.w)
            && (!key.kind.Blip? ==> key !in r.w.server && (key in r.w.meddled || !Alive(r.w.slots, key)))
    decreases |tape|, 2
  {
    if key.kind.Blip? {
      BlipDeleteKeeps(w, key, tape);
    } else {
      var r := RunLua(w, tape);
      RunLuaKeeps(w, tape);
      RemovalKeeps(r.w, key, r.rest);
      KeptTransitive(w, r.w, DeleteEntity(w, key, tape).w);
    }
  }

  lemma {:induction false} BlipDeleteKeeps(w: World, key: Key, tape: seq<Act>)
    requires Inv(w) && key.kind.Blip?
    ensures var r := DeleteEntity(w, key, tape); Inv(r.w) && Kept(w, r.w)
    decreases |tape|, 1
  {
    var v := BlipGoes(w, key);
    BlipGoesKeeps(w, key);
    RunLuaKeeps(v, tape);
    var r := RunLua(v, tape);
    BlipGoneKeeps(r.w, key);
    PopPush(w.open, Deleting(key));
    KeptThrough(w, v, r.w, BlipGone(r.w, key), key);
    RunLuaKeeps(BlipGone(r.w, key), r.rest);
    KeptTransitive(w, BlipGone(r.w, key), RunLua(BlipGone(r.w, key), r.rest).w);
  }

  /** From our release to the moment the server forgets the id. */
  lemma {:induction false} RemovalKeeps(w: World, key: Key, tape: seq<Act>)
    requires Inv(w) && !key.kind.Player?
    ensures var r := Leave(Releasing(w, key), key, tape);
            && Inv(r.w) && Kept(w, r.w) && key !in r.w.server
            && (key in r.w.meddled || key.kind.Blip? || !Alive(r.w.slots, key))
    decreases |tape|, 1
  {
    var v := Releasing(w, key);
    ReleasingKeeps(w, key);
    RunLuaKeeps(v, tape);
    var y := RunLua(v, tape).w;
    RemovedKeeps(y, key);
    PopPush(w.open, Removing(key));
    KeptThrough(w, v, y, Removed(y, key), key);
    GoneIsDead(Removed(y, key), key);
  }

  /** An id that is off the server is dead in the pool, unless somebody meddled with it. */
  lemma GoneIsDead(w: World, key: Key)
    requires AllGood(w) && Kinds(w) && key !in w.server
    ensures key in w.meddled || key.kind.Blip? || !Alive(w.slots, key)
  {
    if key in w.slots {
      assert GoodAt(w, key);
      assert Deleting(key) in w.open ==> key.kind.Blip?;
    }
  }

  lemma {:induction false} DestroyKeeps(w: World, key: Key, tape: seq<Act>)
    requires Inv(w)
    ensures var r := DestroyBinding(w, key, tape);
            && Inv(r.w) && Kept(w, r.w)
            && (key.kind.Blip? || (!key.kind.Player? && key in w.server && Alive(w.slots, key)) ==> !Alive(r.w.slots, key))
    decreases |tape|, 3
  {
    if key.kind.Blip? {
      if key in w.server { DestroyBlipKeeps(w, key, tape); } else { DroppedKeeps(w, key); }
    } else if !key.kind.Player? && key in w.server && Alive(w.slots, key) {
      var r := DeleteEntity(w, key, tape);
      DeleteKeeps(w, key, tape);
      DroppedKeeps(r.w, key);
      KeptTransitive(w, r.w, Dropped(r.w, key));
    }
  }

  lemma {:induction false} DestroyBlipKeeps(w: World, key: Key, tape: seq<Act>)
    requires Inv(w) && key.kind.Blip?
    ensures var r := DestroyBlip(w, key, tape); Inv(r.w) && Kept(w, r.w) && !Alive(r.w.slots, key)
    decreases |tape|, 1
  {
    var v := BlipGoes(w, key);
    BlipGoesKeeps(w, key);
    RunLuaKeeps(v, tape);
    var r := RunLua(v, tape);
    assert r.w.open == w.open + [Deleting(key)];
    DroppedKeeps(r.w, key);
    RunLuaKeeps(Dropped(r.w, key), r.rest);
    var y := RunLua(Dropped(r.w, key), r.rest).w;
    KeptTransitive(v, r.w, Dropped(r.w, key));
    KeptTransitive(v, Dropped(r.w, key), y);
    BlipGoneKeeps(y, key);
    PopPush(w.open, Deleting(key));
    KeptThrough(w, v, y, BlipGone(y, key), key);
  }

  /**
    The handle of a player is valid, and names the lifetime that was announced, for as long as the
    handlers of its disconnect event run, unless one of them kicked the player again.  `tape` may
    end anywhere, so this is so after each of their actions; inside the events these raise it is
    `LeavingAt`, which holds of every world they reach.
   */
  lemma {:induction false} ValidDuringEvent(w: World, key: Key, tape: seq<Act>)
    requires Inv(w) && Alive(w.slots, key) && key.kind.Player?
    ensures var during := RunLua(Announcing(w, key), tape).w;
            during.doubled || (Alive(during.slots, key) && during.slots[key].births == w.slots[key].births)
  {
    AnnouncingKeeps(w, key);
    RunLuaKeeps(Announcing(w, key), tape);
    assert KeptAt(Announcing(w, key), RunLua(Announcing(w, key), tape).w, key);
  }

  lemma {:induction false} GoodbyeKeeps(w: World, key: Key, shutdown: bool, tape: seq<Act>)
    requires Inv(w) && Alive(w.slots, key) && key.kind.Player?
    ensures var v := RunLua(Announcing(w, key), tape).w;
            Inv(v) && Kept(Announcing(w, key), v) && Inv(Departed(v, key, shutdown))
    decreases |tape|, 1
  {
    AnnouncingKeeps(w, key);
    RunLuaKeeps(Announcing(w, key), tape);
    DepartedKeeps(RunLua(Announcing(w, key), tape).w, key, shutdown);
  }

  lemma {:induction false} DisconnectKeeps(w: World, key: Key, tape: seq<Act>)
    requires Inv(w) && key.kind.Player? && key in w.server
    ensures var r := Disconnect(w, key, tape); Inv(r.w) && Kept(w, r.w) && key !in r.w.server
    decreases |tape|, 2, 1
  {
    if key in w.slots {
      KnownLeaves(w, key, tape);
    } else {
      RunLuaKeeps(w, tape);
      OffTheServer(w, RunLua(w, tape).w, key);
    }
  }

  lemma {:induction false} KnownLeaves(w: World, key: Key, tape: seq<Act>)
    requires Inv(w) && key.kind.Player? && key in w.server && key in w.slots
    ensures var r := Disconnect(w, key, tape); Inv(r.w) && Kept(w, r.w) && key !in r.w.server
    decreases |tape|, 2, 0
  {
    var u := Sighted(w, key);
    SightedKeeps(w, key);
    GoodbyeKeeps(u, key, false, tape);
    var r := SayGoodbye(u, key, false, tape);
    RunLuaKeeps(r.w, r.rest);
    var y := RunLua(r.w, r.rest).w;
    ForgottenKeeps(y, key);
    DisconnectKept(w, RunLua(Announcing(u, key), tape).w, y, key);
  }

  /** A player without a slot is nobody's business. */
  lemma OffTheServer(u: World, w: World, key: Key)
    requires Inv(w) && Kept(u, w) && key !in w.slots && key.kind.Player?
    ensures var x := w.(server := w.server - {key}); Inv(x) && Kept(u, x)
  {
    var x := w.(server := w.server - {key});
    AllGoodBy(w, x, key);
    forall k <- w.leaving ensures LeavingAt(x, k) {
      assert LeavingAt(w, k);
    }
    forall k <- x.slots ensures KeptAt(u, x, k) {
      assert KeptAt(u, w, k);
    }
  }

  // ---------------------------------------------------------------- whole runs

  /** Outside the callbacks. */
  ghost predicate AtRest(w: World) {
    Inv(w) && w.leaving == [] && w.open == [] && w.dismissed == {}
  }

  lemma OpenedAtRest(room: set<Key>, existing: set<Key>)
    ensures AtRest(Opened(room, existing))
  {
    var w := Opened(room, existing);
    forall key <- w.slots ensures GoodAt(w, key) {
    }
  }

  /** A player that connects, others hearing of it before and after us. */
  lemma {:induction false} JoinKeeps(w: World, key: Key, tape: seq<Act>)
    requires AtRest(w) && key.kind.Player? && key !in w.server
    ensures AtRest(Arrive(w, key, tape).w)
  {
    JoinedKeeps(w, key);
    RunLuaKeeps(Arrived(w, key), tape);
    var r := RunLua(Arrived(w, key), tape);
    WelcomedKeeps(r.w, key);
    PopPush(w.open, Arriving(key));
    RunLuaKeeps(Told(r.w, key), r.rest);
  }

  lemma {:induction false} OutermostKeeps(w: World, act: Act, tape: seq<Act>)
    requires AtRest(w)
    ensures AtRest(Outermost(w, act, tape).w)
  {
    if act.Joins? {
      if act.key.kind.Player? && act.key !in w.server { JoinKeeps(w, act.key, tape); }
    } else if act.Quits? {
      if act.key.kind.Player? && act.key in w.server { DisconnectKeeps(w, act.key, tape); }
    } else {
      StepKeeps(w, act, tape);
    }
  }

  lemma {:induction false} ServedKeeps(w: World, tape: seq<Act>)
    requires AtRest(w)
    ensures AtRest(Served(w, tape)) && Served(w, tape).slots.Keys == w.slots.Keys
    decreases |tape|
  {
    if tape != [] {
      OutermostKeeps(w, tape[0], tape[1..]);
      var r := Outermost(w, tape[0], tape[1..]);
      ServedKeeps(r.w, r.rest);
    }
  }

  /** Pool and server agree on an id exactly when it is neither stale nor lost. */
  lemma Agreement(w: World, key: Key)
    requires AtRest(w) && key in w.slots
    ensures (w.slots[key].alive <==> key in w.server) <==> key !in w.stale && key !in w.lost
  {
    assert GoodAt(w, key);
  }

  /** The mark says whose the entity is exactly when it is neither foreign nor unmarked. */
  lemma Ownership(w: World, key: Key)
    requires AtRest(w) && key in w.slots
    ensures (w.slots[key].createdByUs <==> key in w.ours) <==> key !in w.foreign && key !in w.unmarked
  {
    assert GoodAt(w, key);
  }

  /**
    If nobody did anything to an id inside a call about it, pool and server agree on it, its mark
    is right, and the lifetimes of its slot are the entities the server has had under it, one by
    one: so a handle names one entity.
   */
  lemma Untouched(w: World, key: Key)
    requires AtRest(w) && key in w.slots && key !in w.meddled
    ensures w.slots[key].alive <==> key in w.server
    ensures w.slots[key].createdByUs <==> key in w.ours
    ensures w.slots[key].births == w.spawned[key]
  {
    assert GoodAt(w, key);
  }

  /**
    A reload that can delete everything keeps an id on the server for being somebody else's, and
    for nothing else, exactly when its mark is right.
   */
  lemma ReloadKeepsOthers(w: World, deletable: set<Key>, key: Key)
    requires AtRest(w) && key in w.slots && key in w.server && key in deletable
    ensures (key in Reloaded(w, deletable) <==> key !in w.ours) <==> key !in w.foreign && key !in w.unmarked
    ensures key !in w.meddled ==> (key in Reloaded(w, deletable) <==> key !in w.ours)
  {
    Ownership(w, key);
    assert GoodAt(w, key);
    if key.kind.Player? { PlayerUnmarked(w, key); }
  }

  /** Every lifetime of a player that is over was announced or ended silently, and only those. */
  lemma ExactlyAnnounced(w: World, key: Key, life: nat)
    requires Inv(w) && w.leaving == [] && key in w.slots && key.kind.Player? && 1 <= life
    ensures Over(w.slots[key], life) <==> Farewell(key, life) in w.log || Farewell(key, life) in w.silent
    ensures !(Farewell(key, life) in w.log && Farewell(key, life) in w.silent)
    ensures !w.doubled ==> w.silent == {}
  {
  }

  /** The players alive when the loop starts, each of them. */
  ghost predicate Lists(players: seq<Key>, w: World) {
    forall key :: key in players <==> key.kind.Player? && Alive(w.slots, key)
  }

  /** Every player still alive is either yet to come or was dismissed and seen again. */
  predicate ToCome(w: World, players: seq<Key>) {
    && (forall key <- players :: key.kind.Player?)
    && (forall key <- w.slots :: key.kind.Player? && w.slots[key].alive ==> key in players || key in w.dismissed)
  }

  predicate AllOlder(v: World, w: World) {
    w.slots.Keys == v.slots.Keys && forall key <- w.slots :: Older(v.slots[key], w.slots[key])
  }

  lemma AllOlderTransitive(u: World, v: World, w: World)
    requires AllOlder(u, v) && AllOlder(v, w)
    ensures AllOlder(u, w)
  {
  }

  ghost predicate InLoop(w: World) {
    Inv(w) && w.leaving == [] && w.open == []
  }

  /** One turn of the shutdown loop. */
  lemma {:induction false} DismissKeeps(w: World, players: seq<Key>, tape: seq<Act>)
    requires InLoop(w) && ToCome(w, players) && players != [] && Alive(w.slots, players[0])
    ensures var x := SayGoodbye(w, players[0], true, tape).w;
            InLoop(x) && AllOlder(w, x) && ToCome(x, players[1..])
  {
    var key := players[0];
    GoodbyeKeeps(w, key, true, tape);
    var v := RunLua(Announcing(w, key), tape).w;
    PopPush(w.leaving, key);
    DismissKept(w, v, players);
  }

  lemma {:induction false} DismissKept(w: World, v: World, players: seq<Key>)
    requires w.open == [] && ToCome(w, players) && players != [] && Alive(w.slots, players[0])
    requires Kept(Announcing(w, players[0]), v)
    ensures var x := Departed(v, players[0], true); AllOlder(w, x) && ToCome(x, players[1..])
  {
    var key := players[0];
    var x := Departed(v, key, true);
    assert players == [key] + players[1..];
    forall k <- x.slots
      ensures Older(w.slots[k], x.slots[k])
      ensures k.kind.Player? && x.slots[k].alive ==> k in players[1..] || k in x.dismissed
    {
      assert KeptAt(Announcing(w, key), v, k);
    }
  }

  lemma {:induction false} DismissalsKeep(w: World, players: seq<Key>, tape: seq<Act>)
    requires InLoop(w) && ToCome(w, players)
    ensures var x := Dismissals(w, players, tape);
            && InLoop(x) && AllOlder(w, x)
            && (forall key <- x.slots :: key.kind.Player? ==> (x.slots[key].alive <==> key in x.revived))
    decreases |players|
  {
    if players == [] {
      forall key <- w.slots | key.kind.Player? ensures w.slots[key].alive <==> key in w.revived {
        assert GoodAt(w, key);
      }
    } else if !Alive(w.slots, players[0]) {
      assert players == [players[0]] + players[1..];
      DismissalsKeep(w, players[1..], tape);
    } else {
      var r := SayGoodbye(w, players[0], true, tape);
      DismissKeeps(w, players, tape);
      DismissalsKeep(r.w, players[1..], r.rest);
      AllOlderTransitive(w, r.w, Dismissals(r.w, players[1..], r.rest));
    }
  }

  /**
    The shutdown of the server, whatever the handlers do: a player is alive afterwards exactly if
    an event was reported about it after its farewell.
   */
  lemma {:induction false} ShutDownKeeps(w: World, players: seq<Key>, tape: seq<Act>)
    requires AtRest(w) && Lists(players, RunLua(w, tape).w)
    ensures var x := ShutDown(w, players, tape);
            && InLoop(x) && AllOlder(w, x)
            && (forall key <- x.slots :: key.kind.Player? ==> (x.slots[key].alive <==> key in x.revived))
  {
    RunLuaKeeps(w, tape);
    var r := RunLua(w, tape);
    forall key <- r.w.slots ensures KeptAt(w, r.w, key) {
    }
    DismissalsKeep(r.w, players, r.rest);
    AllOlderTransitive(w, r.w, Dismissals(r.w, players, r.rest));
  }
}
