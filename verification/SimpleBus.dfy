/**
  The event bus as its documentation describes it: every event has a list of
  bindings in bind order, and unbinding removes a binding at once.  There are no
  dead entries, no compaction and no stack of cancel flags here.

  Lua code is an arbitrary sequence of actions read off a tape, so a statement
  about every tape is a statement about every script, however deeply its
  handlers trigger one another.  When the tape is used up the running function
  returns.
 */
module SimpleBus {

  /** The identity of a Lua function (`lua_rawequal`). */
  type Fn = nat

  datatype Act =
    | Create(name: string)           // Event.create
    | Bind(name: string, fn: Fn)     // Event.bind
    | Unbind(name: string, fn: Fn)   // Event.unbind
    | Cancel                         // Event.cancel
    | Trigger(name: string)          // Event.trigger, or a server callback that nests
    | Return                         // the function returns, or raises an error that is logged
    | Throw                          // a C++ exception leaves the handler call

  /** One bind; `id` tells two binds of the same function apart. */
  datatype Binding = Binding(fn: Fn, id: nat)

  datatype Bus = Bus(index: map<string, nat>, lists: seq<seq<Binding>>, nextId: nat)

  /** One handler call: which binding of which event. */
  datatype Call = Call(event: nat, binding: Binding)

  datatype Ran = Ran(bus: Bus, tape: seq<Act>, cancel: bool, threw: bool, trace: seq<Call>)

  /** `trace` holds every handler call, nested ones included; `calls` only this dispatch's own. */
  datatype Dispatched = Dispatched(bus: Bus, tape: seq<Act>, cancelled: bool, threw: bool,
                                   trace: seq<Call>, calls: seq<Binding>)

  predicate Indexed(bus: Bus) {
    forall name <- bus.index :: bus.index[name] < |bus.lists|
  }

  predicate Bound(list: seq<Binding>, fn: Fn) {
    exists k :: 0 <= k < |list| && list[k].fn == fn
  }

  function RemoveFirst(list: seq<Binding>, fn: Fn): seq<Binding> {
    if list == [] then []
    else if list[0].fn == fn then list[1..]
    else [list[0]] + RemoveFirst(list[1..], fn)
  }

  function DoCreate(bus: Bus, name: string): Bus {
    if name in bus.index then bus
    else bus.(index := bus.index[name := |bus.lists|], lists := bus.lists + [[]])
  }

  function DoBind(bus: Bus, event: nat, fn: Fn): Bus
    requires event < |bus.lists|
  {
    if Bound(bus.lists[event], fn) then bus
    else bus.(lists := bus.lists[event := bus.lists[event] + [Binding(fn, bus.nextId)]],
              nextId := bus.nextId + 1)
  }

  function DoUnbind(bus: Bus, event: nat, fn: Fn): Bus
    requires event < |bus.lists|
  {
    bus.(lists := bus.lists[event := RemoveFirst(bus.lists[event], fn)])
  }

  /** The actions that call no handler; an unknown event name raises an error and changes nothing. */
  function Apply(bus: Bus, act: Act): (later: Bus)
    requires Indexed(bus)
    ensures Indexed(later) && |bus.lists| <= |later.lists|
  {
    match act
    case Create(name) => DoCreate(bus, name)
    case Bind(name, fn) => if name in bus.index then DoBind(bus, bus.index[name], fn) else bus
    case Unbind(name, fn) => if name in bus.index then DoUnbind(bus, bus.index[name], fn) else bus
    case _ => bus
  }

  /** One action of running Lua code.  A nested dispatch that threw is an error it may catch. */
  function Step(bus: Bus, inDispatch: bool, act: Act, rest: seq<Act>): (r: Ran)
    requires Indexed(bus)
    ensures |r.tape| <= |rest| && Indexed(r.bus) && |bus.lists| <= |r.bus.lists|
    decreases |rest|, 3, 0
  {
    match act
    case Cancel => Ran(bus, rest, inDispatch, false, [])
    case Trigger(name) =>
      if name !in bus.index then Ran(bus, rest, false, false, [])
      else
        var d := Dispatch(bus, bus.index[name], rest);
        Ran(d.bus, d.tape, false, false, d.trace)
    case _ => Ran(Apply(bus, act), rest, false, false, [])
  }

  /** Lua code runs until it returns. */
  function RunLua(bus: Bus, inDispatch: bool, tape: seq<Act>): (r: Ran)
    requires Indexed(bus)
    ensures |r.tape| <= |tape| && Indexed(r.bus) && |bus.lists| <= |r.bus.lists|
    decreases |tape|, 0, 0
  {
    if tape == [] then Ran(bus, [], false, false, [])
    else if tape[0].Return? || tape[0].Throw? then Ran(bus, tape[1..], false, tape[0].Throw?, [])
    else
      var s := Step(bus, inDispatch, tape[0], tape[1..]);
      var r := RunLua(s.bus, inDispatch, s.tape);
      r.(cancel := s.cancel || r.cancel, trace := s.trace + r.trace)
  }

  /** The bindings present now, each called at its turn if it is still bound then. */
  function Dispatch(bus: Bus, event: nat, tape: seq<Act>): (d: Dispatched)
    requires Indexed(bus)
    ensures |d.tape| <= |tape| && Indexed(d.bus) && |bus.lists| <= |d.bus.lists|
    ensures !(d.cancelled && d.threw)
    decreases |tape|, 2, 0
  {
    if event < |bus.lists| then DispatchFrom(bus, event, bus.lists[event], tape)
    else Dispatched(bus, tape, false, false, [], [])
  }

  function DispatchFrom(bus: Bus, event: nat, todo: seq<Binding>, tape: seq<Act>): (d: Dispatched)
    requires Indexed(bus) && event < |bus.lists|
    ensures |d.tape| <= |tape| && Indexed(d.bus) && |bus.lists| <= |d.bus.lists|
    ensures !(d.cancelled && d.threw)
    decreases |tape|, 1, |todo|
  {
    if todo == [] then Dispatched(bus, tape, false, false, [], [])
    else if todo[0] !in bus.lists[event] then DispatchFrom(bus, event, todo[1..], tape)
    else
      var r := RunLua(bus, true, tape);
      var trace := [Call(event, todo[0])] + r.trace;
      if r.threw then Dispatched(r.bus, r.tape, false, true, trace, [todo[0]])
      else if r.cancel then Dispatched(r.bus, r.tape, true, false, trace, [todo[0]])
      else
        var d := DispatchFrom(r.bus, event, todo[1..], r.tape);
        d.(trace := trace + d.trace, calls := [todo[0]] + d.calls)
  }

  /** `d` as the last part of a dispatch that has already made `calls`. */
  function After(trace: seq<Call>, calls: seq<Binding>, d: Dispatched): Dispatched {
    d.(trace := trace + d.trace, calls := calls + d.calls)
  }

  /** One turn of a dispatch: the handler runs, and the dispatch stops or goes on from there. */
  lemma {:induction false} TurnCalls(bus: Bus, event: nat, b: Binding, todo: seq<Binding>, tape: seq<Act>,
                                     trace: seq<Call>, calls: seq<Binding>)
    requires Indexed(bus) && event < |bus.lists| && b in bus.lists[event]
    ensures var r := RunLua(bus, true, tape);
            var trace' := trace + [Call(event, b)] + r.trace;
            After(trace, calls, DispatchFrom(bus, event, [b] + todo, tape))
            == if r.threw then Dispatched(r.bus, r.tape, false, true, trace', calls + [b])
               else if r.cancel then Dispatched(r.bus, r.tape, true, false, trace', calls + [b])
               else After(trace', calls + [b], DispatchFrom(r.bus, event, todo, r.tape))
  {
    assert ([b] + todo)[1..] == todo;
    var r := RunLua(bus, true, tape);
    assert trace + ([Call(event, b)] + r.trace) == trace + [Call(event, b)] + r.trace;
    if !r.threw && !r.cancel {
      var d := DispatchFrom(r.bus, event, todo, r.tape);
      assert trace + ([Call(event, b)] + r.trace + d.trace) == trace + [Call(event, b)] + r.trace + d.trace;
      assert calls + ([b] + d.calls) == calls + [b] + d.calls;
    }
  }

  lemma {:induction false} TurnSkips(bus: Bus, event: nat, b: Binding, todo: seq<Binding>, tape: seq<Act>)
    requires Indexed(bus) && event < |bus.lists| && b !in bus.lists[event]
    ensures DispatchFrom(bus, event, [b] + todo, tape) == DispatchFrom(bus, event, todo, tape)
  {
    assert ([b] + todo)[1..] == todo;
  }

  // ---------------------------------------------------------------- what a dispatch means

  predicate Increasing(list: seq<Binding>) {
    forall i, j :: 0 <= i < j < |list| ==> list[i].id < list[j].id
  }

  /** No function is bound twice to one event. */
  predicate Once(list: seq<Binding>) {
    forall i, j :: 0 <= i < j < |list| ==> list[i].fn != list[j].fn
  }

  predicate Listed(list: seq<Binding>, nextId: nat) {
    Increasing(list) && Once(list) && forall b <- list :: b.id < nextId
  }

  /** Binds are numbered in the order they are made. */
  predicate Ordered(bus: Bus) {
    Indexed(bus) && forall e :: 0 <= e < |bus.lists| ==> Listed(bus.lists[e], bus.nextId)
  }

  /** `later` is reached from `bus`: what was unbound stays unbound, and new binds have new ids. */
  predicate Follows(bus: Bus, later: Bus) {
    && |bus.lists| <= |later.lists| && bus.nextId <= later.nextId
    && forall e, b {:trigger b in later.lists[e]} ::
         0 <= e < |bus.lists| && b in later.lists[e] && b.id < bus.nextId ==> b in bus.lists[e]
  }

  /** Unbinding takes out the binding of that function and no other. */
  lemma {:induction false} RemoveFirstMembers(list: seq<Binding>, fn: Fn, b: Binding)
    requires Once(list)
    ensures b in RemoveFirst(list, fn) <==> b in list && b.fn != fn
  {
    if list != [] {
      var rest := list[1..];
      assert list == [list[0]] + rest;
      if list[0].fn != fn {
        RemoveFirstMembers(rest, fn, b);
      } else if b in rest {
        var i :| 0 <= i < |rest| && rest[i] == b;
        assert list[i + 1] == b;
      }
    }
  }

  /** And it keeps the order of the rest. */
  lemma {:induction false} RemoveFirstKeepsOrder(list: seq<Binding>, fn: Fn)
    requires Increasing(list) && Once(list)
    ensures Increasing(RemoveFirst(list, fn)) && Once(RemoveFirst(list, fn))
    ensures forall b <- RemoveFirst(list, fn) :: b in list
  {
    if list != [] && list[0].fn != fn {
      RemoveFirstKeepsOrder(list[1..], fn);
      FirstBeforeRest(list[0], list[1..], RemoveFirst(list[1..], fn));
    }
  }

  lemma {:induction false} FirstBeforeRest(first: Binding, rest: seq<Binding>, tail: seq<Binding>)
    requires Increasing([first] + rest) && Once([first] + rest) && Increasing(tail) && Once(tail)
    requires forall b <- tail :: b in rest
    ensures Increasing([first] + tail) && Once([first] + tail)
  {
    forall j | 0 <= j < |tail| ensures first.id < tail[j].id && first.fn != tail[j].fn {
      assert tail[j] in rest;
      var k :| 0 <= k < |rest| && rest[k] == tail[j];
      var list := [first] + rest;
      assert list[0] == first && list[k + 1] == rest[k];
    }
  }

  lemma ApplyFollows(bus: Bus, act: Act)
    requires Ordered(bus)
    ensures Ordered(Apply(bus, act)) && Follows(bus, Apply(bus, act))
  {
    if act.Unbind? && act.name in bus.index {
      RemoveFirstKeepsOrder(bus.lists[bus.index[act.name]], act.fn);
    }
  }

  lemma BoundAfterBind(bus: Bus, event: nat, fn: Fn)
    requires event < |bus.lists|
    ensures Bound(DoBind(bus, event, fn).lists[event], fn)
  {
    if !Bound(bus.lists[event], fn) {
      var list := DoBind(bus, event, fn).lists[event];
      assert list[|bus.lists[event]|].fn == fn;
    }
  }

  lemma FollowsTransitive(a: Bus, b: Bus, c: Bus)
    requires Follows(a, b) && Follows(b, c)
    ensures Follows(a, c)
  {
  }

  lemma {:induction false} RunLuaFollows(bus: Bus, inDispatch: bool, tape: seq<Act>)
    requires Ordered(bus)
    ensures Ordered(RunLua(bus, inDispatch, tape).bus)
    ensures Follows(bus, RunLua(bus, inDispatch, tape).bus)
    decreases |tape|, 0, 0
  {
    if tape != [] && !tape[0].Return? && !tape[0].Throw? {
      var s := Step(bus, inDispatch, tape[0], tape[1..]);
      if tape[0].Trigger? && tape[0].name in bus.index {
        var event := bus.index[tape[0].name];
        DispatchFromMeaning(bus, event, bus.lists[event], tape[1..]);
        assert s.bus == Dispatch(bus, event, tape[1..]).bus;
      } else {
        ApplyFollows(bus, tape[0]);
        assert s.bus == Apply(bus, tape[0]);
      }
      RunLuaFollows(s.bus, inDispatch, s.tape);
      FollowsTransitive(bus, s.bus, RunLua(bus, inDispatch, tape).bus);
    }
  }

  /** What a dispatch over `todo` may say about one of the bindings it started with. */
  predicate Accounted(d: Dispatched, event: nat, b: Binding)
    requires event < |d.bus.lists|
  {
    || b in d.calls
    || b !in d.bus.lists[event]
    || ((d.cancelled || d.threw) && d.calls != [] && d.calls[|d.calls| - 1].id < b.id)
  }

  lemma {:induction false} DispatchFromMeaning(bus: Bus, event: nat, todo: seq<Binding>, tape: seq<Act>)
    requires Ordered(bus) && event < |bus.lists| && Increasing(todo)
    requires forall b <- todo :: b.id < bus.nextId
    ensures var d := DispatchFrom(bus, event, todo, tape);
            && Ordered(d.bus) && Follows(bus, d.bus)
            && Increasing(d.calls)
            && (forall b <- d.calls :: b in todo && b in bus.lists[event])
            && (forall b <- todo :: Accounted(d, event, b))
    decreases |tape|, 1, |todo|
  {
    var d := DispatchFrom(bus, event, todo, tape);
    if todo == [] {
    } else if todo[0] !in bus.lists[event] {
      DispatchFromMeaning(bus, event, todo[1..], tape);
      assert todo[0] !in d.bus.lists[event];
      forall b <- todo ensures Accounted(d, event, b) {
        if b != todo[0] { assert b in todo[1..]; }
      }
    } else {
      RunLuaFollows(bus, true, tape);
      var r := RunLua(bus, true, tape);
      if r.threw || r.cancel {
        forall b <- todo ensures Accounted(d, event, b) {
        }
      } else {
        var e := DispatchFrom(r.bus, event, todo[1..], r.tape);
        DispatchFromMeaning(r.bus, event, todo[1..], r.tape);
        FollowsTransitive(bus, r.bus, e.bus);
        CallsOfTheRest(todo, e.calls, d.calls);
        forall b <- d.calls ensures b in todo && b in bus.lists[event] {
          if b != todo[0] { assert b in todo[1..] && b in r.bus.lists[event]; }
        }
        forall b <- todo ensures Accounted(d, event, b) {
          if b != todo[0] {
            assert b in todo[1..];
            assert Accounted(e, event, b);
          }
        }
      }
    }
  }

  lemma {:induction false} CallsOfTheRest(todo: seq<Binding>, rest: seq<Binding>, calls: seq<Binding>)
    requires todo != [] && Increasing(todo) && Increasing(rest) && calls == [todo[0]] + rest
    requires forall b <- rest :: b in todo[1..]
    ensures Increasing(calls)
  {
    forall i, j | 0 <= i < j < |calls| ensures calls[i].id < calls[j].id {
      assert rest[j - 1] in todo[1..];
    }
  }

  /**
    What every dispatch does, whatever its handlers do: it calls bindings that were
    bound when it started, in bind order and each at most once; a binding it passed
    over had been unbound; and only a cancel or an exception leaves bindings out,
    namely the ones after the last call.
   */
  lemma {:induction false} DispatchMeaning(bus: Bus, event: nat, tape: seq<Act>)
    requires Ordered(bus) && event < |bus.lists|
    ensures var d := Dispatch(bus, event, tape);
            && Ordered(d.bus) && Follows(bus, d.bus)
            && Increasing(d.calls)
            && (forall b <- d.calls :: b in bus.lists[event])
            && (forall b <- bus.lists[event] :: Accounted(d, event, b))
  {
    DispatchFromMeaning(bus, event, bus.lists[event], tape);
  }

  /** A dispatch over two lists is a dispatch over the first, and then, if nothing stopped it, over the second. */
  lemma {:induction false} DispatchConcat(bus: Bus, event: nat, a: seq<Binding>, c: seq<Binding>, tape: seq<Act>)
    requires Indexed(bus) && event < |bus.lists|
    ensures var d := DispatchFrom(bus, event, a, tape);
            DispatchFrom(bus, event, a + c, tape)
            == if d.cancelled || d.threw then d else After(d.trace, d.calls, DispatchFrom(d.bus, event, c, d.tape))
    decreases |a|
  {
    if a == [] {
      assert a + c == c;
      var e := DispatchFrom(bus, event, c, tape);
      assert [] + e.trace == e.trace && [] + e.calls == e.calls;
    } else {
      assert (a + c)[1..] == a[1..] + c;
      if a[0] !in bus.lists[event] {
        DispatchConcat(bus, event, a[1..], c, tape);
      } else {
        var r := RunLua(bus, true, tape);
        if !r.threw && !r.cancel {
          DispatchConcat(r.bus, event, a[1..], c, r.tape);
          var d := DispatchFrom(r.bus, event, a[1..], r.tape);
          AfterAfter([Call(event, a[0])] + r.trace, [a[0]], d.trace, d.calls, DispatchFrom(d.bus, event, c, d.tape));
        }
      }
    }
  }

  lemma {:induction false} AfterAfter(t: seq<Call>, b: seq<Binding>, trace: seq<Call>, calls: seq<Binding>, d: Dispatched)
    ensures After(t, b, After(trace, calls, d)) == After(t + trace, b + calls, d)
  {
    assert t + (trace + d.trace) == t + trace + d.trace;
    assert b + (calls + d.calls) == b + calls + d.calls;
  }

  lemma {:induction false} Apart(before: seq<Binding>, b: Binding, rest: seq<Binding>)
    requires Increasing(before + ([b] + rest))
    ensures Increasing(before) && Increasing([b] + rest) && b !in before && b !in rest
  {
    var list := before + ([b] + rest);
    assert forall i :: 0 <= i < |before| ==> list[i] == before[i];
    assert forall i :: 0 <= i < |[b] + rest| ==> list[|before| + i] == ([b] + rest)[i];
    assert list[|before|] == b;
    forall i | 0 <= i < |rest| ensures rest[i] != b {
      assert list[|before| + 1 + i] == rest[i];
    }
  }

  /** The first binding of a dispatch is called if and only if it is bound. */
  lemma {:induction false} FirstTurn(bus: Bus, event: nat, b: Binding, rest: seq<Binding>, tape: seq<Act>)
    requires Ordered(bus) && event < |bus.lists| && Increasing([b] + rest)
    requires forall x <- [b] + rest :: x.id < bus.nextId
    ensures b in DispatchFrom(bus, event, [b] + rest, tape).calls <==> b in bus.lists[event]
  {
    DispatchFromMeaning(bus, event, [b] + rest, tape);
    if b in bus.lists[event] {
      TurnCalls(bus, event, b, rest, tape, [], []);
    }
  }

  /**
    When exactly a binding is called: `b` is on the list a dispatch starts with, after `before`.
    If the dispatch reaches its turn, `b` is called if and only if it is bound at that moment;
    otherwise a handler of `before` cancelled the event or threw, and `b` is not called.
   */
  lemma {:induction false} CalledAtItsTurn(bus: Bus, event: nat, before: seq<Binding>, b: Binding, rest: seq<Binding>, tape: seq<Act>)
    requires Ordered(bus) && event < |bus.lists| && bus.lists[event] == before + [b] + rest
    ensures var turn := DispatchFrom(bus, event, before, tape);
            b in Dispatch(bus, event, tape).calls
            <==> !turn.cancelled && !turn.threw && b in turn.bus.lists[event]
  {
    var tail := [b] + rest;
    assert bus.lists[event] == before + tail;
    Apart(before, b, rest);
    forall x <- before + tail ensures x.id < bus.nextId {
      assert x in bus.lists[event];
    }
    assert forall x <- before :: x in before + tail;
    assert forall x <- tail :: x in before + tail;
    DispatchConcat(bus, event, before, tail, tape);
    DispatchFromMeaning(bus, event, before, tape);
    var turn := DispatchFrom(bus, event, before, tape);
    if !turn.cancelled && !turn.threw {
      FirstTurn(turn.bus, event, b, rest, turn.tape);
    }
  }
}
