/**
  What handlers do to a dispatch, said of the tape alone: which actions are a function's own,
  what bind and unbind come to, and which of a list of handlers are called and which are not.
 */
module BusScripts {
  import opened SimpleBus

  /** Actions that neither run another function nor end this one. */
  predicate Plain(acts: seq<Act>) {
    forall a <- acts :: !a.Trigger? && !a.Return? && !a.Throw?
  }

  predicate Ends(act: Act) {
    act.Return? || act.Throw?
  }

  // ---------------------------------------------------------------- which actions are a function's own

  /** The actions of one function, up to the one that ends it; what the handlers it triggers do is not among them. */
  function Own(bus: Bus, inDispatch: bool, tape: seq<Act>): seq<Act>
    requires Indexed(bus)
    decreases |tape|
  {
    if tape == [] then []
    else if Ends(tape[0]) then [tape[0]]
    else var s := Step(bus, inDispatch, tape[0], tape[1..]); [tape[0]] + Own(s.bus, inDispatch, s.tape)
  }

  /** A handler cancels its event exactly if it calls Event.cancel itself, and throws exactly if it ends by an exception. */
  lemma {:induction false} CancelIsOwn(bus: Bus, inDispatch: bool, tape: seq<Act>)
    requires Indexed(bus)
    ensures RunLua(bus, inDispatch, tape).cancel <==> inDispatch && Cancel in Own(bus, inDispatch, tape)
    ensures RunLua(bus, inDispatch, tape).threw <==> Throw in Own(bus, inDispatch, tape)
    decreases |tape|
  {
    if tape != [] && !Ends(tape[0]) {
      var s := Step(bus, inDispatch, tape[0], tape[1..]);
      CancelIsOwn(s.bus, inDispatch, s.tape);
    }
  }

  // ---------------------------------------------------------------- a function that triggers nothing

  function Applied(bus: Bus, acts: seq<Act>): (later: Bus)
    requires Indexed(bus)
    ensures Indexed(later) && |bus.lists| <= |later.lists|
    decreases |acts|
  {
    if acts == [] then bus else Applied(Apply(bus, acts[0]), acts[1..])
  }

  lemma {:induction false} PlainStep(bus: Bus, inDispatch: bool, act: Act, rest: seq<Act>)
    requires Indexed(bus) && !act.Trigger? && !Ends(act)
    ensures var r := RunLua(Apply(bus, act), inDispatch, rest);
            RunLua(bus, inDispatch, [act] + rest) == r.(cancel := (act == Cancel && inDispatch) || r.cancel)
  {
    assert ([act] + rest)[1..] == rest;
    var r := RunLua(Apply(bus, act), inDispatch, rest);
    assert [] + r.trace == r.trace;
  }

  /** It does its actions, and cancels if one of them is Event.cancel. */
  lemma {:induction false} PlainRun(bus: Bus, inDispatch: bool, acts: seq<Act>, end: Act, rest: seq<Act>)
    requires Indexed(bus) && Plain(acts) && Ends(end)
    ensures RunLua(bus, inDispatch, acts + ([end] + rest))
            == Ran(Applied(bus, acts), rest, inDispatch && Cancel in acts, end.Throw?, [])
    decreases |acts|
  {
    if acts == [] {
      assert acts + ([end] + rest) == [end] + rest && ([end] + rest)[1..] == rest;
    } else {
      var act, more := acts[0], acts[1..];
      assert acts == [act] + more && acts + ([end] + rest) == [act] + (more + ([end] + rest));
      assert act in acts && forall a <- more :: a in acts;
      PlainStep(bus, inDispatch, act, more + ([end] + rest));
      PlainRun(Apply(bus, act), inDispatch, more, end, rest);
    }
  }

  predicate OneName(bus: Bus) {
    forall a, b :: a in bus.index && b in bus.index && bus.index[a] == bus.index[b] ==> a == b
  }

  /** Whether `fn` is bound to the event after these actions: the last bind or unbind of the two decides. */
  predicate Binds(acts: seq<Act>, name: string, fn: Fn, was: bool)
    decreases |acts|
  {
    if acts == [] then was
    else Binds(acts[1..], name, fn, acts[0] == Bind(name, fn) || (was && acts[0] != Unbind(name, fn)))
  }

  lemma {:induction false} PlainBinds(bus: Bus, acts: seq<Act>, name: string, fn: Fn)
    requires Ordered(bus) && OneName(bus) && name in bus.index
    ensures var later := Applied(bus, acts);
            && name in later.index && later.index[name] == bus.index[name]
            && (Bound(later.lists[bus.index[name]], fn) <==> Binds(acts, name, fn, Bound(bus.lists[bus.index[name]], fn)))
    decreases |acts|
  {
    if acts != [] {
      ApplyFollows(bus, acts[0]);
      ApplyBinds(bus, acts[0], name, fn);
      PlainBinds(Apply(bus, acts[0]), acts[1..], name, fn);
    }
  }

  lemma {:induction false} ApplyBinds(bus: Bus, act: Act, name: string, fn: Fn)
    requires Ordered(bus) && OneName(bus) && name in bus.index
    ensures var later, e := Apply(bus, act), bus.index[name];
            && OneName(later) && name in later.index && later.index[name] == e
            && (Bound(later.lists[e], fn) <==> act == Bind(name, fn) || (Bound(bus.lists[e], fn) && act != Unbind(name, fn)))
  {
    var list := bus.lists[bus.index[name]];
    if act.Bind? && act.name == name {
      BoundAppended(list, Binding(act.fn, bus.nextId), fn);
    } else if act.Unbind? && act.name == name {
      BoundRemoved(list, act.fn, fn);
    }
  }

  lemma BoundAppended(list: seq<Binding>, b: Binding, fn: Fn)
    ensures Bound(list + [b], fn) <==> Bound(list, fn) || b.fn == fn
  {
    if k :| 0 <= k < |list| && list[k].fn == fn {
      assert (list + [b])[k].fn == fn;
    }
    assert (list + [b])[|list|] == b;
  }

  lemma {:induction false} BoundRemoved(list: seq<Binding>, removed: Fn, fn: Fn)
    requires Once(list)
    ensures Bound(RemoveFirst(list, removed), fn) <==> Bound(list, fn) && fn != removed
  {
    var rest := RemoveFirst(list, removed);
    if k :| 0 <= k < |rest| && rest[k].fn == fn {
      RemoveFirstMembers(list, removed, rest[k]);
      assert rest[k] in list;
    }
    if k :| 0 <= k < |list| && list[k].fn == fn {
      RemoveFirstMembers(list, removed, list[k]);
      assert list[k] in list;
    }
  }

  // ---------------------------------------------------------------- a dispatch

  /** The first handler: an exception or a cancel ends the dispatch, otherwise it goes on with the others. */
  lemma {:induction false} FirstHandler(bus: Bus, event: nat, b: Binding, others: seq<Binding>, acts: seq<Act>,
                                        end: Act, rest: seq<Act>)
    requires Indexed(bus) && event < |bus.lists| && b in bus.lists[event] && Plain(acts) && Ends(end)
    ensures var d := DispatchFrom(bus, event, [b] + others, acts + ([end] + rest));
            var now := Applied(bus, acts);
            d == if end.Throw? then Dispatched(now, rest, false, true, [Call(event, b)], [b])
                 else if Cancel in acts then Dispatched(now, rest, true, false, [Call(event, b)], [b])
                 else After([Call(event, b)], [b], DispatchFrom(now, event, others, rest))
  {
    PlainRun(bus, true, acts, end, rest);
    TurnCalls(bus, event, b, others, acts + ([end] + rest), [], []);
    var d := DispatchFrom(bus, event, [b] + others, acts + ([end] + rest));
    assert After([], [], d) == d;
    assert [] + [Call(event, b)] + [] == [Call(event, b)];
  }

  /** The tape starts with a function that cancels and returns. */
  ghost predicate FirstCancels(tape: seq<Act>) {
    exists n :: 0 <= n < |tape| && tape[n].Return? && Plain(tape[..n]) && Cancel in tape[..n]
  }

  /** Then the first handler is the only one that is called. */
  lemma {:induction false} CancelStops(bus: Bus, event: nat, tape: seq<Act>)
    requires Indexed(bus) && event < |bus.lists| && bus.lists[event] != [] && FirstCancels(tape)
    ensures var d := Dispatch(bus, event, tape); d.cancelled && !d.threw && d.calls == [bus.lists[event][0]]
  {
    var n :| 0 <= n < |tape| && tape[n].Return? && Plain(tape[..n]) && Cancel in tape[..n];
    var list := bus.lists[event];
    assert tape == tape[..n] + ([tape[n]] + tape[n + 1..]);
    assert list == [list[0]] + list[1..];
    FirstHandler(bus, event, list[0], list[1..], tape[..n], tape[n], tape[n + 1..]);
  }

  /** Without a cancel on the tape no dispatch is cancelled. */
  lemma {:induction false} NeverCancelled(bus: Bus, inDispatch: bool, tape: seq<Act>)
    requires Indexed(bus) && Cancel !in tape
    ensures !RunLua(bus, inDispatch, tape).cancel && Cancel !in RunLua(bus, inDispatch, tape).tape
    decreases |tape|, 0, 0
  {
    if tape != [] && !Ends(tape[0]) {
      var act, rest := tape[0], tape[1..];
      assert act in tape && forall a <- rest :: a in tape;
      if act.Trigger? && act.name in bus.index {
        NoneCancels(bus, bus.index[act.name], bus.lists[bus.index[act.name]], rest);
      }
      var s := Step(bus, inDispatch, act, rest);
      assert s.tape == if act.Trigger? && act.name in bus.index then Dispatch(bus, bus.index[act.name], rest).tape else rest;
      NeverCancelled(s.bus, inDispatch, s.tape);
    }
  }

  lemma {:induction false} NoneCancels(bus: Bus, event: nat, todo: seq<Binding>, tape: seq<Act>)
    requires Indexed(bus) && event < |bus.lists| && Cancel !in tape
    ensures var d := DispatchFrom(bus, event, todo, tape); !d.cancelled && Cancel !in d.tape
    decreases |tape|, 1, |todo|
  {
    if todo != [] {
      if todo[0] !in bus.lists[event] {
        NoneCancels(bus, event, todo[1..], tape);
      } else {
        NeverCancelled(bus, true, tape);
        var r := RunLua(bus, true, tape);
        if !r.threw { NoneCancels(r.bus, event, todo[1..], r.tape); }
      }
    }
  }

  // ---------------------------------------------------------------- a whole dispatch

  /** The tape of these functions, each of which returns. */
  function Written(bodies: seq<seq<Act>>): seq<Act> {
    if bodies == [] then [] else bodies[0] + ([Return] + Written(bodies[1..]))
  }

  /** Functions that trigger nothing and unbind nothing. */
  predicate Harmless(bodies: seq<seq<Act>>) {
    forall i :: 0 <= i < |bodies| ==> Plain(bodies[i]) && forall a <- bodies[i] :: !a.Unbind?
  }

  /** The first of the functions that cancels, or how many there are. */
  function Canceller(bodies: seq<seq<Act>>): (k: nat)
    ensures k <= |bodies| && (k < |bodies| ==> Cancel in bodies[k])
    ensures forall i :: 0 <= i < k ==> Cancel !in bodies[i]
  {
    if bodies == [] || Cancel in bodies[0] then 0 else 1 + Canceller(bodies[1..])
  }

  lemma {:induction false} StillBound(bus: Bus, event: nat, acts: seq<Act>, b: Binding)
    requires Indexed(bus) && event < |bus.lists| && b in bus.lists[event] && forall a <- acts :: !a.Unbind?
    ensures b in Applied(bus, acts).lists[event]
    decreases |acts|
  {
    if acts != [] {
      assert acts[0] in acts && forall a <- acts[1..] :: a in acts;
      StillBound(Apply(bus, acts[0]), event, acts[1..], b);
    }
  }

  /**
    A dispatch to handlers that unbind nothing calls every one of them, in order and each with
    its own part of the tape, up to the first that cancels; it is cancelled exactly if one does.
   */
  lemma {:induction false} WholeDispatch(bus: Bus, event: nat, todo: seq<Binding>, bodies: seq<seq<Act>>, rest: seq<Act>)
    requires Indexed(bus) && event < |bus.lists| && (forall b <- todo :: b in bus.lists[event])
    requires |bodies| == |todo| && Harmless(bodies)
    ensures var d, k := DispatchFrom(bus, event, todo, Written(bodies) + rest), Canceller(bodies);
            && d.calls == (if k < |todo| then todo[..k + 1] else todo) && !d.threw && (d.cancelled <==> k < |todo|)
            && d.tape == (if k < |todo| then Written(bodies[k + 1..]) else []) + rest
    decreases |todo|
  {
    if todo == [] {
      assert Written(bodies) + rest == rest == [] + rest;
    } else {
      var b, others, acts, more := todo[0], todo[1..], bodies[0], Written(bodies[1..]) + rest;
      assert todo == [b] + others && Written(bodies) + rest == acts + ([Return] + more);
      FirstHandler(bus, event, b, others, acts, Return, more);
      if Cancel !in acts {
        forall x <- others ensures x in Applied(bus, acts).lists[event] {
          assert x in todo;
          StillBound(bus, event, acts, x);
        }
        WholeDispatch(Applied(bus, acts), event, others, bodies[1..], rest);
        CallsWithFirst(b, others, Canceller(bodies[1..]));
        assert Canceller(bodies[1..]) < |others| ==> bodies[1..][Canceller(bodies[1..]) + 1..] == bodies[Canceller(bodies) + 1..];
      }
    }
  }

  lemma CallsWithFirst(b: Binding, others: seq<Binding>, k: nat)
    requires k <= |others|
    ensures [b] + (if k < |others| then others[..k + 1] else others)
            == if k < |others| then ([b] + others)[..k + 2] else [b] + others
  {
  }

  /**
    A function that triggers an event runs its handler there and then, and goes on afterwards as
    if nothing had happened but what the handler did: neither its cancel nor its exception counts
    for the dispatch the function runs in.
   */
  lemma {:induction false} NestedDispatch(bus: Bus, inDispatch: bool, name: string, acts: seq<Act>, end: Act, rest: seq<Act>)
    requires Indexed(bus) && name in bus.index && bus.lists[bus.index[name]] != [] && Plain(acts) && Ends(end)
    requires |bus.lists[bus.index[name]]| == 1 || Cancel in acts || end.Throw?
    ensures var event := bus.index[name];
            var r := RunLua(Applied(bus, acts), inDispatch, rest);
            RunLua(bus, inDispatch, [Trigger(name)] + (acts + ([end] + rest)))
            == r.(trace := [Call(event, bus.lists[event][0])] + r.trace)
  {
    var event, tape := bus.index[name], [Trigger(name)] + (acts + ([end] + rest));
    var list := bus.lists[event];
    assert tape[1..] == acts + ([end] + rest) && list == [list[0]] + list[1..];
    FirstHandler(bus, event, list[0], list[1..], acts, end, rest);
    var d := Dispatch(bus, event, acts + ([end] + rest));
    assert [Call(event, list[0])] + [] == [Call(event, list[0])];
    assert d.bus == Applied(bus, acts) && d.tape == rest && d.trace == [Call(event, list[0])];
    var s := Step(bus, inDispatch, Trigger(name), tape[1..]);
    assert s == Ran(d.bus, d.tape, false, false, d.trace);
  }
}
