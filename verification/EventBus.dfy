/**
  The event bus as it is implemented (src/core/event_bus.{hpp,cpp}): handlers live in
  append-only lists, unbinding only marks an entry dead, dead entries are erased when no
  dispatch is active, and every active dispatch has one flag on a stack.

  Each operation is proved against the simple bus: the live entries of the lists are its
  bindings, and a dispatch makes the same calls in the same order and gives the same answer.
 */
module TombstoneBus {
  import opened Wrappers
  import opened SimpleBus
  import BusScripts

  /** `id` stands for the identity of the deque node; no operation branches on it. */
  datatype Handler = Handler(fn: Fn, alive: bool, id: nat)

  function Live(list: seq<Handler>): seq<Binding> {
    if list == [] then []
    else (if list[0].alive then [Binding(list[0].fn, list[0].id)] else []) + Live(list[1..])
  }

  function Lives(lists: seq<seq<Handler>>): seq<seq<Binding>> {
    seq(|lists|, e requires 0 <= e < |lists| => Live(lists[e]))
  }

  function Keep(list: seq<Handler>): (kept: seq<Handler>) {
    if list == [] then []
    else (if list[0].alive then [list[0]] else []) + Keep(list[1..])
  }

  predicate AllAlive(list: seq<Handler>) {
    forall k :: 0 <= k < |list| ==> list[k].alive
  }

  predicate Numbered(list: seq<Handler>, nextId: nat) {
    && (forall k :: 0 <= k < |list| ==> list[k].id < nextId)
    && forall j, k :: 0 <= j < k < |list| ==> list[j].id < list[k].id
  }

  /** No function has two live entries. */
  predicate OnceAlive(list: seq<Handler>) {
    forall j, k :: 0 <= j < k < |list| && list[j].alive && list[k].alive ==> list[j].fn != list[k].fn
  }

  predicate AllNumbered(lists: seq<seq<Handler>>, nextId: nat) {
    forall e :: 0 <= e < |lists| ==> Numbered(lists[e], nextId) && OnceAlive(lists[e])
  }

  predicate NoneBound(lists: seq<seq<Handler>>) {
    forall e :: 0 <= e < |lists| ==> lists[e] == []
  }

  predicate NoneDead(lists: seq<seq<Handler>>) {
    forall e :: 0 <= e < |lists| ==> AllAlive(lists[e])
  }

  /** Every name has one index and every index one name. */
  predicate Named(names: seq<string>, index: map<string, nat>) {
    && (forall name <- index :: index[name] < |names| && names[index[name]] == name)
    && (forall e :: 0 <= e < |names| ==> names[e] in index && index[names[e]] == e)
  }

  /** What code that runs inside a dispatch may do to one list: append to it and mark entries dead. */
  predicate Grown(list: seq<Handler>, later: seq<Handler>) {
    && |list| <= |later|
    && forall k :: 0 <= k < |list| ==>
         && later[k].fn == list[k].fn && later[k].id == list[k].id
         && (later[k].alive ==> list[k].alive)
  }

  predicate AllGrown(lists: seq<seq<Handler>>, later: seq<seq<Handler>>) {
    && |lists| <= |later|
    && forall e :: 0 <= e < |lists| ==> Grown(lists[e], later[e])
  }

  lemma {:induction false} GrownTransitive(a: seq<seq<Handler>>, b: seq<seq<Handler>>, c: seq<seq<Handler>>)
    requires AllGrown(a, b) && AllGrown(b, c)
    ensures AllGrown(a, c)
  {
    forall e | 0 <= e < |a| ensures Grown(a[e], c[e]) {
      assert Grown(a[e], b[e]) && Grown(b[e], c[e]);
    }
  }

  // ---------------------------------------------------------------- live entries of a list

  lemma {:induction false} LiveConcat(a: seq<Handler>, b: seq<Handler>)
    ensures Live(a + b) == Live(a) + Live(b)
  {
    if a == [] {
      assert a + b == b;
    } else {
      assert (a + b)[1..] == a[1..] + b && (a + b)[0] == a[0];
      LiveConcat(a[1..], b);
      ConcatAssociative(if a[0].alive then [Binding(a[0].fn, a[0].id)] else [], Live(a[1..]), Live(b));
    }
  }

  lemma {:induction false} LiveSplit(list: seq<Handler>, k: nat)
    requires k < |list|
    ensures Live(list) == Live(list[..k]) + Live([list[k]]) + Live(list[k + 1..])
  {
    assert list == list[..k] + ([list[k]] + list[k + 1..]);
    LiveConcat(list[..k], [list[k]] + list[k + 1..]);
    LiveConcat([list[k]], list[k + 1..]);
  }

  lemma {:induction false} LiveMembers(list: seq<Handler>, b: Binding)
    ensures b in Live(list) <==>
            exists k :: 0 <= k < |list| && list[k].alive && Binding(list[k].fn, list[k].id) == b
  {
    if list != [] {
      LiveMembers(list[1..], b);
      if k :| 0 <= k < |list| && list[k].alive && Binding(list[k].fn, list[k].id) == b {
        if k > 0 { assert list[1..][k - 1] == list[k]; }
      }
      if k :| 0 <= k < |list[1..]| && list[1..][k].alive && Binding(list[1..][k].fn, list[1..][k].id) == b {
        assert list[k + 1] == list[1..][k];
      }
    }
  }

  lemma {:induction false} LiveBound(list: seq<Handler>, fn: Fn)
    ensures Bound(Live(list), fn) <==> exists k :: 0 <= k < |list| && list[k].alive && list[k].fn == fn
  {
    if k :| 0 <= k < |list| && list[k].alive && list[k].fn == fn {
      LiveMembers(list, Binding(fn, list[k].id));
    }
    if j :| 0 <= j < |Live(list)| && Live(list)[j].fn == fn {
      LiveMembers(list, Live(list)[j]);
    }
  }

  lemma {:induction false} KeepIsLive(list: seq<Handler>)
    ensures Live(Keep(list)) == Live(list) && AllAlive(Keep(list))
  {
    if list != [] {
      KeepIsLive(list[1..]);
      if list[0].alive {
        assert Keep(list)[1..] == Keep(list[1..]);
      } else {
        assert Keep(list) == Keep(list[1..]) && Live(list) == Live(list[1..]);
      }
    }
  }

  lemma {:induction false} KeepIsNumbered(list: seq<Handler>, nextId: nat)
    requires Numbered(list, nextId) && OnceAlive(list)
    ensures Numbered(Keep(list), nextId) && OnceAlive(Keep(list)) && forall h <- Keep(list) :: h in list && h.alive
  {
    if list != [] {
      KeepIsNumbered(list[1..], nextId);
      var tail := Keep(list[1..]);
      if list[0].alive {
        FirstBeforeRest(list, tail, nextId);
        assert Keep(list) == [list[0]] + tail;
      } else {
        assert Keep(list) == tail;
      }
    }
  }

  lemma {:induction false} FirstBeforeRest(list: seq<Handler>, tail: seq<Handler>, nextId: nat)
    requires list != [] && list[0].alive && Numbered(list, nextId) && OnceAlive(list)
    requires Numbered(tail, nextId) && OnceAlive(tail) && forall h <- tail :: h in list[1..] && h.alive
    ensures Numbered([list[0]] + tail, nextId) && OnceAlive([list[0]] + tail)
  {
    forall k | 0 <= k < |tail| ensures list[0].id < tail[k].id && list[0].fn != tail[k].fn {
      assert tail[k] in list[1..] && tail[k].alive;
      var j :| 0 <= j < |list[1..]| && list[1..][j] == tail[k];
      assert list[j + 1] == tail[k];
    }
  }

  lemma {:induction false} RemoveFirstSkips(a: seq<Binding>, b: seq<Binding>, fn: Fn)
    requires !Bound(a, fn)
    ensures RemoveFirst(a + b, fn) == a + RemoveFirst(b, fn)
  {
    if a == [] {
      assert a + b == b;
    } else {
      assert a[0].fn != fn;
      assert (a + b)[1..] == a[1..] + b;
      assert forall k :: 0 <= k < |a[1..]| ==> a[1..][k] == a[k + 1];
      RemoveFirstSkips(a[1..], b, fn);
    }
  }

  lemma {:induction false} RemoveFirstMisses(a: seq<Binding>, fn: Fn)
    requires !Bound(a, fn)
    ensures RemoveFirst(a, fn) == a
  {
    RemoveFirstSkips(a, [], fn);
    assert a + [] == a;
  }

  /** Marking the first live entry of `fn` dead removes the first binding of `fn`. */
  lemma {:induction false} MarkDeadRemoves(list: seq<Handler>, k: nat, fn: Fn)
    requires k < |list| && list[k].alive && list[k].fn == fn
    requires forall j :: 0 <= j < k ==> !(list[j].alive && list[j].fn == fn)
    ensures Live(list[k := list[k].(alive := false)]) == RemoveFirst(Live(list), fn)
  {
    var marked := list[k := list[k].(alive := false)];
    LiveSplit(list, k);
    LiveSplit(marked, k);
    assert marked[..k] == list[..k] && marked[k + 1..] == list[k + 1..];
    LiveBound(list[..k], fn);
    var b := Live([list[k]]) + Live(list[k + 1..]);
    assert b[0].fn == fn && b[1..] == Live(list[k + 1..]);
    RemoveFirstSkips(Live(list[..k]), b, fn);
    assert Live(list) == Live(list[..k]) + b;
  }

  /** Entry `k` of the list a dispatch started with is live exactly when its binding is still bound. */
  lemma {:induction false} EntryStillBound(start: seq<Handler>, now: seq<Handler>, k: nat, nextId: nat)
    requires Grown(start, now) && Numbered(now, nextId) && k < |start|
    ensures Binding(start[k].fn, start[k].id) in Live(now) <==> now[k].alive
    ensures Live(start[k..])
            == (if start[k].alive then [Binding(start[k].fn, start[k].id)] else []) + Live(start[k + 1..])
  {
    LiveMembers(now, Binding(start[k].fn, start[k].id));
    assert start[k..][1..] == start[k + 1..];
  }

  /** What a dispatch that has come to entry `k` still does, after the calls it has made. */
  function Left(bus: Bus, event: nat, start: seq<Handler>, k: nat, tape: seq<Act>, trace: seq<Call>,
                calls: seq<Binding>): Dispatched
    requires Indexed(bus) && event < |bus.lists| && k <= |start|
  {
    After(trace, calls, DispatchFrom(bus, event, Live(start[k..]), tape))
  }

  /** Turn `k` of a dispatch, seen from the simple bus. */
  lemma {:induction false} Turn(bus: Bus, event: nat, start: seq<Handler>, now: seq<Handler>, k: nat, nextId: nat,
                                tape: seq<Act>, trace: seq<Call>, calls: seq<Binding>)
    requires Indexed(bus) && event < |bus.lists| && bus.lists[event] == Live(now)
    requires Grown(start, now) && Numbered(now, nextId) && k < |start|
    ensures var b := Binding(now[k].fn, now[k].id);
            var r := RunLua(bus, true, tape);
            var trace' := trace + [Call(event, b)] + r.trace;
            Left(bus, event, start, k, tape, trace, calls)
            == if !now[k].alive then Left(bus, event, start, k + 1, tape, trace, calls)
               else if r.threw || r.cancel then Dispatched(r.bus, r.tape, !r.threw, r.threw, trace', calls + [b])
               else Left(r.bus, event, start, k + 1, r.tape, trace', calls + [b])
  {
    EntryStillBound(start, now, k, nextId);
    var b := Binding(start[k].fn, start[k].id);
    if now[k].alive {
      TurnCalls(bus, event, b, Live(start[k + 1..]), tape, trace, calls);
    } else if start[k].alive {
      TurnSkips(bus, event, b, Live(start[k + 1..]), tape);
    } else {
      assert Live(start[k..]) == Live(start[k + 1..]);
    }
  }

  /** An entry that is dead at its turn is passed over. */
  lemma {:induction false} PassOver(bus: Bus, event: nat, first: seq<seq<Handler>>, lists: seq<seq<Handler>>, k: nat,
                                    nextId: nat, tape: seq<Act>, trace: seq<Call>, calls: seq<Binding>)
    requires Indexed(bus) && event < |first| && AllGrown(first, lists) && AllNumbered(lists, nextId)
    requires bus.lists == Lives(lists) && k < |first[event]| && !lists[event][k].alive
    ensures Left(bus, event, first[event], k, tape, trace, calls) == Left(bus, event, first[event], k + 1, tape, trace, calls)
  {
    assert Grown(first[event], lists[event]) && Numbered(lists[event], nextId);
    Turn(bus, event, first[event], lists[event], k, nextId, tape, trace, calls);
  }

  // ---------------------------------------------------------------- what each change does to all lists

  function Appended(lists: seq<seq<Handler>>, event: nat, h: Handler): seq<seq<Handler>>
    requires event < |lists|
  {
    lists[event := lists[event] + [h]]
  }

  lemma {:induction false} AppendedLives(lists: seq<seq<Handler>>, event: nat, fn: Fn, nextId: nat)
    requires event < |lists|
    ensures Lives(Appended(lists, event, Handler(fn, true, nextId)))
            == Lives(lists)[event := Live(lists[event]) + [Binding(fn, nextId)]]
  {
    LiveConcat(lists[event], [Handler(fn, true, nextId)]);
    assert Live([Handler(fn, true, nextId)]) == [Binding(fn, nextId)];
  }

  lemma {:induction false} AppendedKeeps(lists: seq<seq<Handler>>, event: nat, fn: Fn, nextId: nat)
    requires event < |lists| && AllNumbered(lists, nextId) && !Bound(Live(lists[event]), fn)
    ensures var later := Appended(lists, event, Handler(fn, true, nextId));
            && AllNumbered(later, nextId + 1) && AllGrown(lists, later) && (NoneDead(lists) ==> NoneDead(later))
  {
    var later := Appended(lists, event, Handler(fn, true, nextId));
    LiveBound(lists[event], fn);
    forall e | 0 <= e < |later|
      ensures Numbered(later[e], nextId + 1) && OnceAlive(later[e]) && Grown(lists[e], later[e])
    {
      assert Numbered(lists[e], nextId) && OnceAlive(lists[e]);
    }
    if NoneDead(lists) {
      forall e | 0 <= e < |later| ensures AllAlive(later[e]) {
        assert AllAlive(lists[e]);
      }
    }
  }

  function MarkedDead(lists: seq<seq<Handler>>, event: nat, k: nat): seq<seq<Handler>>
    requires event < |lists| && k < |lists[event]|
  {
    lists[event := lists[event][k := lists[event][k].(alive := false)]]
  }

  lemma {:induction false} MarkedKeeps(lists: seq<seq<Handler>>, event: nat, k: nat, fn: Fn, nextId: nat)
    requires event < |lists| && AllNumbered(lists, nextId)
    requires k < |lists[event]| && lists[event][k].alive && lists[event][k].fn == fn
    requires forall j :: 0 <= j < k ==> !(lists[event][j].alive && lists[event][j].fn == fn)
    ensures var later := MarkedDead(lists, event, k);
            && AllNumbered(later, nextId) && AllGrown(lists, later)
            && Lives(later) == Lives(lists)[event := RemoveFirst(Live(lists[event]), fn)]
  {
    var later := MarkedDead(lists, event, k);
    MarkDeadRemoves(lists[event], k, fn);
    forall e | 0 <= e < |later| ensures Numbered(later[e], nextId) && OnceAlive(later[e]) && Grown(lists[e], later[e]) {
      assert Numbered(lists[e], nextId) && OnceAlive(lists[e]);
    }
  }

  lemma {:induction false} CreatedKeeps(lists: seq<seq<Handler>>, nextId: nat)
    requires AllNumbered(lists, nextId)
    ensures var later := lists + [[]];
            && AllNumbered(later, nextId) && AllGrown(lists, later) && (NoneDead(lists) ==> NoneDead(later))
            && Lives(later) == Lives(lists) + [[]]
  {
  }

  lemma {:induction false} CreatedNamed(names: seq<string>, index: map<string, nat>, name: string)
    requires Named(names, index) && name !in index
    ensures Named(names + [name], index[name := |names|])
  {
  }

  /** The first live entry of `fn`, or the length of the list. */
  method FindLive(list: seq<Handler>, fn: Fn) returns (k: nat)
    ensures k <= |list| && (k < |list| ==> list[k].alive && list[k].fn == fn)
    ensures forall j :: 0 <= j < k ==> !(list[j].alive && list[j].fn == fn)
    ensures k < |list| <==> Bound(Live(list), fn)
  {
    LiveBound(list, fn);
    k := 0;
    while k < |list| && !(list[k].alive && list[k].fn == fn)
      invariant k <= |list|
      invariant forall j :: 0 <= j < k ==> !(list[j].alive && list[j].fn == fn)
    {
      k := k + 1;
    }
  }

  /** Cancelling reaches the innermost dispatch only. */
  function WithTop(flags: seq<bool>, cancel: bool): seq<bool> {
    if flags == [] then [] else flags[|flags| - 1 := flags[|flags| - 1] || cancel]
  }

  // ---------------------------------------------------------------- the bus

  class EventBus {
    var lists: seq<seq<Handler>>
    var names: seq<string>
    var index: map<string, nat>
    var cancelled: seq<bool>        // one per active dispatch, innermost last
    var needsCompaction: bool
    var nextId: nat

    ghost predicate Valid()
      reads this
    {
      && Named(names, index) && |names| == |lists|
      && AllNumbered(lists, nextId)
      && (needsCompaction || NoneDead(lists))
    }

    /** The simple bus these fields stand for. */
    ghost function Abs(): (bus: SimpleBus.Bus)
      requires Valid()
      reads this
      ensures Indexed(bus) && |bus.lists| == |lists|
    {
      SimpleBus.Bus(index, Lives(lists), nextId)
    }

    constructor (builtins: seq<string>)
      ensures Valid() && cancelled == [] && !needsCompaction
      ensures forall name <- builtins :: name in index
      ensures NoneBound(lists)
    {
      lists, names, index, cancelled, needsCompaction, nextId := [], [], map[], [], false, 0;
      new;
      CreateAll(builtins);
    }

    method CreateAll(builtins: seq<string>)
      requires Valid() && NoneBound(lists)
      modifies this`lists, this`names, this`index
      ensures Valid() && NoneBound(lists) && forall name <- builtins :: name in index
    {
      for i := 0 to |builtins|
        invariant Valid() && NoneBound(lists)
        invariant forall j :: 0 <= j < i ==> builtins[j] in index
      {
        var _ := Create(builtins[i]);
      }
    }

    method Create(name: string) returns (created: bool)
      requires Valid()
      modifies this`lists, this`names, this`index
      ensures Valid()
      ensures created <==> name !in old(index)
      ensures index.Keys == old(index.Keys) + {name}
      ensures Abs() == DoCreate(old(Abs()), name) && AllGrown(old(lists), lists)
      ensures lists == if created then old(lists) + [[]] else old(lists)
    {
      if name in index {
        return false;
      }
      CreatedKeeps(lists, nextId);
      CreatedNamed(names, index, name);
      lists := lists + [[]];
      names := names + [name];
      index := index[name := |lists| - 1];
      return true;
    }

    method Bind(event: nat, fn: Fn) returns (bound: bool)
      requires Valid() && event < |lists|
      modifies this`lists, this`nextId
      ensures Valid()
      ensures bound <==> !Bound(old(Abs()).lists[event], fn)
      ensures Abs() == DoBind(old(Abs()), event, fn) && AllGrown(old(lists), lists)
    {
      var list := lists[event];
      var k := FindLive(list, fn);
      if k < |list| {
        return false;
      }
      AppendedLives(lists, event, fn, nextId);
      AppendedKeeps(lists, event, fn, nextId);
      lists := lists[event := list + [Handler(fn, true, nextId)]];
      nextId := nextId + 1;
      return true;
    }

    method Unbind(event: nat, fn: Fn) returns (unbound: bool)
      requires Valid() && event < |lists|
      modifies this`lists, this`needsCompaction
      ensures Valid()
      ensures unbound <==> Bound(old(Abs()).lists[event], fn)
      ensures Abs() == DoUnbind(old(Abs()), event, fn)
      ensures cancelled != [] ==> AllGrown(old(lists), lists)
      ensures unbound && cancelled == [] ==> NoneDead(lists)
    {
      var list := lists[event];
      var k := FindLive(list, fn);
      if k == |list| {
        RemoveFirstMisses(Live(list), fn);
        assert Abs().lists[event := Live(list)] == Abs().lists;
        return false;
      }
      MarkedKeeps(lists, event, k, fn, nextId);
      lists := lists[event := list[k := list[k].(alive := false)]];
      needsCompaction := true;
      if cancelled == [] {
        Compact();
      }
      return true;
    }

    /** Refused (an exception) when no dispatch is active. */
    method Cancel() returns (ok: bool)
      modifies this`cancelled
      ensures ok <==> old(cancelled) != []
      ensures cancelled == if ok then old(cancelled)[|old(cancelled)| - 1 := true] else []
    {
      if cancelled == [] {
        return false;
      }
      cancelled := cancelled[|cancelled| - 1 := true];
      return true;
    }

    /** May be true for a list of dead entries only; never false for an event with a binding. */
    method HasHandlers(event: nat) returns (has: bool)
      requires Valid()
      ensures !has ==> event >= |lists| || Abs().lists[event] == []
      ensures has ==> event < |lists|
      ensures !needsCompaction ==> (has <==> event < |lists| && Abs().lists[event] != [])
    {
      has := event < |lists| && lists[event] != [];
      if has && AllAlive(lists[event]) {
        LiveMembers(lists[event], Binding(lists[event][0].fn, lists[event][0].id));
      }
    }

    /** Erases the dead entries: no binding changes, and none of the entries left is dead. */
    method Compact()
      requires Valid()
      modifies this`lists, this`needsCompaction
      ensures Valid() && !needsCompaction && Abs() == old(Abs())
    {
      var e := 0;
      while e < |lists|
        invariant e <= |lists| == |old(lists)| && needsCompaction == old(needsCompaction)
        invariant AllNumbered(lists, nextId)
        invariant forall i :: 0 <= i < |lists| ==> Live(lists[i]) == Live(old(lists)[i])
        invariant forall i :: 0 <= i < e ==> AllAlive(lists[i])
      {
        KeepIsLive(lists[e]);
        KeepIsNumbered(lists[e], nextId);
        lists := lists[e := Keep(lists[e])];
        e := e + 1;
      }
      needsCompaction := false;
      assert Abs().lists == old(Abs()).lists;
    }

    /** Releases every handler; the events and their names stay. */
    method Clear()
      requires Valid()
      modifies this`lists, this`needsCompaction
      ensures Valid() && !needsCompaction && |lists| == |old(lists)|
      ensures NoneBound(lists)
    {
      var e := 0;
      while e < |lists|
        invariant e <= |lists| == |old(lists)| && needsCompaction == old(needsCompaction)
        invariant forall i :: 0 <= i < e ==> lists[i] == []
        invariant AllNumbered(lists, nextId)
      {
        lists := lists[e := []];
        e := e + 1;
      }
      needsCompaction := false;
    }

    /** The actions that call no handler. */
    method Apply(act: Act)
      requires Valid()
      modifies this
      ensures Valid() && cancelled == old(cancelled)
      ensures cancelled != [] ==> AllGrown(old(lists), lists)
      ensures Abs() == SimpleBus.Apply(old(Abs()), act)
    {
      match act
      case Create(name) => var _ := Create(name);
      case Bind(name, fn) => if name in index { var _ := Bind(index[name], fn); }
      case Unbind(name, fn) => if name in index { var _ := Unbind(index[name], fn); }
      case _ =>
    }

    /** One action of running Lua code. */
    method Step(act: Act, rest: seq<Act>) returns (after: seq<Act>, trace: seq<Call>)
      requires Valid()
      modifies this
      ensures Valid() && (old(cancelled) != [] ==> AllGrown(old(lists), lists))
      ensures var s := SimpleBus.Step(old(Abs()), old(cancelled) != [], act, rest);
              && Abs() == s.bus && after == s.tape && trace == s.trace
              && cancelled == WithTop(old(cancelled), s.cancel)
      decreases |rest|, 2, 0
    {
      after, trace := rest, [];
      match act
      case Cancel => var _ := Cancel();
      case Trigger(name) =>
        if name in index {
          var _, _, tape, calls, _ := Dispatch(index[name], rest);
          after, trace := tape, calls;
        }
      case _ => Apply(act);
    }

    /** Lua code: the actions of the tape, up to the one that ends the function. */
    method RunLua(tape: seq<Act>) returns (threw: bool, rest: seq<Act>, trace: seq<Call>)
      requires Valid()
      modifies this
      ensures Valid() && (old(cancelled) != [] ==> AllGrown(old(lists), lists))
      ensures var r := SimpleBus.RunLua(old(Abs()), old(cancelled) != [], tape);
              && Abs() == r.bus && rest == r.tape && threw == r.threw && trace == r.trace
              && cancelled == WithTop(old(cancelled), r.cancel)
      decreases |tape|, 0, 0
    {
      if tape == [] {
        return false, [], [];
      }
      if tape[0].Return? || tape[0].Throw? {
        return tape[0].Throw?, tape[1..], [];
      }
      var after, first := Step(tape[0], tape[1..]);
      ghost var mid := lists;
      threw, rest, trace := RunLua(after);
      trace := first + trace;
      if cancelled != [] { GrownTransitive(old(lists), mid, lists); }
    }

    /**
      A dispatch makes exactly the calls of the simple bus and gives its answer, and the
      flags of the dispatches around it are as they were.  The outermost one leaves no dead
      entry, unless it ends by an exception.
     */
    method Dispatch(event: nat, tape: seq<Act>)
      returns (wasCancelled: bool, threw: bool, rest: seq<Act>, trace: seq<Call>, calls: seq<Binding>)
      requires Valid()
      modifies this
      ensures Valid() && cancelled == old(cancelled)
      ensures old(cancelled) != [] ==> AllGrown(old(lists), lists)
      ensures Dispatched(Abs(), rest, wasCancelled, threw, trace, calls)
              == SimpleBus.Dispatch(old(Abs()), event, tape)
      ensures cancelled == [] && !threw && event < |old(Abs()).lists| && old(Abs()).lists[event] != [] ==> NoneDead(lists)
      decreases |tape|, 1, 1
    {
      var has := HasHandlers(event);
      if !has {
        return false, false, tape, [], [];
      }
      var frame := |cancelled|;
      cancelled := cancelled + [false];
      var stopped;
      stopped, threw, rest, trace, calls := CallHandlers(event, tape);
      wasCancelled := !threw && stopped;
      cancelled := cancelled[..frame];
      if !threw && cancelled == [] && needsCompaction {   // an exception skips the compaction
        Compact();
      }
    }

    /**
      The loop of a dispatch.  It walks the list by index while handlers append to it and
      mark entries dead.
     */
    method CallHandlers(event: nat, tape: seq<Act>)
      returns (stopped: bool, threw: bool, rest: seq<Act>, trace: seq<Call>, calls: seq<Binding>)
      requires Valid() && event < |lists|
      requires cancelled != [] && !cancelled[|cancelled| - 1]
      modifies this
      ensures Valid() && AllGrown(old(lists), lists)
      ensures Dispatched(Abs(), rest, !threw && stopped, threw, trace, calls)
              == SimpleBus.Dispatch(old(Abs()), event, tape)
      ensures cancelled == WithTop(old(cancelled), stopped)
      decreases |tape|, 1, 0
    {
      stopped, threw, rest, trace, calls := false, false, tape, [], [];
      ghost var goal := SimpleBus.Dispatch(old(Abs()), event, tape);
      var count := |lists[event]|;
      var i := 0;
      assert lists[event][0..] == lists[event];
      while i < count
        invariant 0 <= i <= count && |rest| <= |tape| && !threw && !stopped
        invariant Valid() && AllGrown(old(lists), lists) && cancelled == old(cancelled)
        invariant goal == Left(Abs(), event, old(lists)[event], i, rest, trace, calls)
        decreases count - i
      {
        assert |old(lists)[event]| <= |lists[event]|;
        if lists[event][i].alive {
          stopped, threw, rest, trace, calls := CallHandler(event, i, rest, trace, calls, old(lists), goal);
          if threw || stopped {
            return;
          }
        } else {
          PassOver(Abs(), event, old(lists), lists, i, nextId, rest, trace, calls);
        }
        i := i + 1;
      }
    }

    /** Entry `i` of the list is alive at its turn: its handler runs, and cancels this dispatch or none. */
    method CallHandler(event: nat, i: nat, tape: seq<Act>, before: seq<Call>, made: seq<Binding>,
                       ghost first: seq<seq<Handler>>, ghost goal: Dispatched)
      returns (stopped: bool, threw: bool, rest: seq<Act>, trace: seq<Call>, calls: seq<Binding>)
      requires Valid() && AllGrown(first, lists) && event < |first| && i < |first[event]| && lists[event][i].alive
      requires cancelled != [] && !cancelled[|cancelled| - 1]
      requires goal == Left(Abs(), event, first[event], i, tape, before, made)
      modifies this
      ensures Valid() && AllGrown(first, lists) && |rest| <= |tape| && cancelled == WithTop(old(cancelled), stopped)
      ensures goal == if threw || stopped then Dispatched(Abs(), rest, !threw, threw, trace, calls)
                      else Left(Abs(), event, first[event], i + 1, rest, trace, calls)
      decreases |tape|, 0, 1
    {
      assert Grown(first[event], lists[event]);
      Turn(Abs(), event, first[event], lists[event], i, nextId, tape, before, made);
      var binding := Binding(lists[event][i].fn, lists[event][i].id);
      var inner;
      threw, rest, inner := RunLua(tape);
      GrownTransitive(first, old(lists), lists);
      stopped := cancelled[|cancelled| - 1];
      trace := before + [Call(event, binding)] + inner;
      calls := made + [binding];
    }

    /**
      A cancellable server callback: the server is told 0 exactly when a handler of the event
      cancelled it.  It is if the first handler calls Event.cancel and returns, whatever else the
      tape holds, and it is not if nobody does.
     */
    method OnEvent(event: nat, tape: seq<Act>) returns (answer: nat, rest: seq<Act>)
      requires Valid()
      modifies this
      ensures Valid() && cancelled == old(cancelled)
      ensures var d := SimpleBus.Dispatch(old(Abs()), event, tape);
              Abs() == d.bus && rest == d.tape && answer == if d.cancelled then 0 else 1
      ensures event < |old(Abs()).lists| && old(Abs()).lists[event] != [] && BusScripts.FirstCancels(tape) ==> answer == 0
      ensures SimpleBus.Cancel !in tape ==> answer == 1
    {
      ghost var bus := Abs();
      var wasCancelled, threw, after, _, _ := Dispatch(event, tape);
      answer, rest := if wasCancelled then 0 else 1, after;
      Answers(bus, event, tape);
    }
  }

  lemma Answers(bus: Bus, event: nat, tape: seq<Act>)
    requires Indexed(bus)
    ensures var d := SimpleBus.Dispatch(bus, event, tape);
            && (event < |bus.lists| && bus.lists[event] != [] && BusScripts.FirstCancels(tape) ==> d.cancelled)
            && (SimpleBus.Cancel !in tape ==> !d.cancelled)
  {
    if event < |bus.lists| {
      if bus.lists[event] != [] && BusScripts.FirstCancels(tape) { BusScripts.CancelStops(bus, event, tape); }
      if SimpleBus.Cancel !in tape { BusScripts.NoneCancels(bus, event, bus.lists[event], tape); }
    }
  }

  lemma {:induction false} LiveOrdered(list: seq<Handler>, nextId: nat)
    requires Numbered(list, nextId) && OnceAlive(list)
    ensures Listed(Live(list), nextId)
  {
    if list != [] {
      LiveOrdered(list[1..], nextId);
      if list[0].alive {
        LaterDiffer(list, nextId);
        ListedFirst(Binding(list[0].fn, list[0].id), Live(list[1..]), nextId);
      } else {
        assert Live(list) == Live(list[1..]);
      }
    }
  }

  lemma {:induction false} LaterDiffer(list: seq<Handler>, nextId: nat)
    requires list != [] && list[0].alive && Numbered(list, nextId) && OnceAlive(list)
    ensures forall b <- Live(list[1..]) :: list[0].id < b.id && list[0].fn != b.fn
  {
    forall b <- Live(list[1..]) ensures list[0].id < b.id && list[0].fn != b.fn {
      LiveMembers(list[1..], b);
      var k :| 0 <= k < |list[1..]| && list[1..][k].alive && Binding(list[1..][k].fn, list[1..][k].id) == b;
      assert list[k + 1] == list[1..][k];
    }
  }

  lemma {:induction false} ListedFirst(b: Binding, rest: seq<Binding>, nextId: nat)
    requires Listed(rest, nextId) && b.id < nextId && forall x <- rest :: b.id < x.id && b.fn != x.fn
    ensures Listed([b] + rest, nextId)
  {
    var list := [b] + rest;
    forall i, j | 0 <= i < j < |list| ensures list[i].id < list[j].id && list[i].fn != list[j].fn {
      assert list[j] == rest[j - 1] && rest[j - 1] in rest;
      if i > 0 { assert list[i] == rest[i - 1]; }
    }
  }

  /** So everything proved of the simple bus holds of every valid bus. */
  lemma BusIsOrdered(bus: EventBus)
    requires bus.Valid()
    ensures Ordered(bus.Abs())
  {
    forall e | 0 <= e < |bus.lists| ensures Listed(Live(bus.lists[e]), bus.nextId) {
      LiveOrdered(bus.lists[e], bus.nextId);
    }
  }
}
