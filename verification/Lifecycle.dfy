/**
  Shutdown and reload of the plugin (src/plugin/callbacks.cpp, src/runtime/runtime.cpp,
  src/core/invoker.hpp), in place.

  A runtime lives in `heap` under its address; reading an address that was deleted is not
  possible in this model, so every use of a runtime below is a proof that it was still there.
  What each operation comes to is given by the functions of the plugin world, for every tape.
 */
module Lifecycle {
  import opened PluginWorld

  /** No shutdown is pending unless a call into Lua is active. */
  predicate Settled(s: Snapshot)
    requires Inv(s)
  {
    s.runtime == NULL || Idle(s) ==> !s.deferred
  }

  predicate SameCall(a: Runtime, b: Runtime) {
    b.depth == a.depth && b.lua == a.lua && b.closing == a.closing && (a.dead ==> b.dead)
  }

  /** What happens inside a call into Lua: the runtime stays, and a shutdown is only remembered. */
  predicate Nested(s: Snapshot, t: Snapshot)
    requires s.runtime in s.heap
  {
    && t.runtime == s.runtime && t.runtime in t.heap
    && SameCall(s.heap[s.runtime], t.heap[t.runtime])
    && t.heap - {t.runtime} == s.heap - {s.runtime}
    && t.next == s.next && t.finished == s.finished && t.bugs == s.bugs
    && s.accepted <= t.accepted && t.ignored == s.ignored
    && (t.deferred <==> s.deferred || s.accepted < t.accepted)
  }

  /**
    What an outermost callback does.  The runtime is gone afterwards exactly when a shutdown
    arrived while one was installed; it was shut down once, or replaced by a reload, and
    nothing else was freed or leaked.
   */
  predicate Outermost(s: Snapshot, t: Snapshot)
    requires s.runtime in s.heap
  {
    && (t.runtime == NULL <==> s.accepted < t.accepted)
    && s.accepted <= t.accepted && s.ignored <= t.ignored && t.bugs == s.bugs
    && t.heap - {t.runtime} == s.heap - {s.runtime}
    && (t.runtime == NULL ==> t.heap == s.heap - {s.runtime})
    && (t.runtime != NULL ==> t.runtime in t.heap && Idle(t))
    && (t.runtime == NULL ==> s.finished < t.finished && |t.finished| == |s.finished| + 1)
    && (t.runtime != NULL ==> t.finished == s.finished)
    && (t.runtime == s.runtime || t.runtime == NULL || s.next <= t.runtime)
  }

  /** What every server callback does, nested or not. */
  predicate CallbackDone(s: Snapshot, t: Snapshot)
    requires Inv(s)
  {
    if s.runtime == NULL then t == s.(ignored := t.ignored) && s.ignored <= t.ignored
    else if Idle(s) then Outermost(s, t)
    else Nested(s, t)
  }

  // ---------------------------------------------------------------- why it is so

  /** Code inside a call leaves the runtime where it is, whatever its effect. */
  lemma DidNested(s: Snapshot, e: Effect)
    requires Inv(s) && s.runtime in s.heap && (Dead(s) ==> e.dead)
    ensures Inv(Did(s, e)) && Nested(s, Did(s, e)) && Did(s, e).heap[s.runtime].dead == e.dead
  {
    assert Did(s, e).heap - {s.runtime} == s.heap - {s.runtime};
  }

  lemma DidThen(s: Snapshot, first: Effect, e: Effect)
    requires s.runtime in s.heap
    ensures Did(Did(s, first), e) == Did(s, Then(first, e))
  {
    var heap := s.heap;
    assert Did(Did(s, first), e).heap == Did(s, Then(first, e)).heap;
  }

  lemma DidNothing(s: Snapshot, tape: seq<Act>)
    requires s.runtime in s.heap
    ensures Did(s, Nothing(s.heap[s.runtime].dead, tape)) == s
  {
    assert s.heap[s.runtime := s.heap[s.runtime]] == s.heap;
  }

  /** Inside a call every callback is done as far as it can be, and a shutdown is only remembered. */
  lemma ServedWithin(s: Snapshot, callback: Callback, tape: seq<Act>)
    requires Inv(s) && s.runtime != NULL && !Idle(s)
    ensures var e := Within(Dead(s), callback, tape); Served(s, callback, tape) == Ran(Did(s, e), e.rest)
  {
    DidNothing(s, tape);
    if callback.Shutdown? { assert s.heap[s.runtime := s.heap[s.runtime]] == s.heap; }
  }

  lemma ShutDownDone(s: Snapshot, tape: seq<Act>)
    requires Inv(s) && Resting(s)
    ensures var t := ShutDown(s, tape).s;
            && Inv(t) && t.runtime == NULL && !t.deferred && t.heap == s.heap - {s.runtime}
            && t.finished == s.finished + [s.runtime] && t.next == s.next && t.bugs == s.bugs
            && s.accepted <= t.accepted && t.ignored == s.ignored
  {
    var e := if Dead(s) then Nothing(true, tape) else Goodbyes(tape);
    DidNested(s.(deferred := false), e);
    assert Did(s.(deferred := false), e).heap - {s.runtime} == s.heap - {s.runtime};
  }

  /** Code inside a call of the server that is itself not inside a call into Lua, and what was pending then. */
  lemma SettleDone(s: Snapshot, e: Effect)
    requires Inv(s) && Resting(s) && !s.deferred && (Dead(s) ==> e.dead)
    ensures var t := Settle(Did(s, e), e.rest).s;
            && Inv(t) && Outermost(s, t) && !t.deferred && (t.runtime == s.runtime || t.runtime == NULL)
            && t.ignored == s.ignored
  {
    DidNested(s, e);
    if e.shutdowns > 0 { ShutDownDone(Did(s, e), e.rest); }
  }

  lemma ReplacedDone(s: Snapshot)
    requires Inv(s) && Resting(s)
    ensures var t := Replaced(s);
            && Inv(t) && Resting(t) && t.runtime == s.next && !Dead(t) && t.heap - {t.runtime} == s.heap - {s.runtime}
  {
    assert Replaced(s).heap - {s.next} == s.heap - {s.runtime};
  }

  lemma FrameEndsDone(s: Snapshot, tape: seq<Act>)
    requires Inv(s) && Resting(s) && !s.deferred
    ensures var t := FrameEnds(s, tape).s; Inv(t) && Outermost(s, t) && !t.deferred
  {
    if ReloadsNow(s) {
      if tape != [] && (tape[0].BuildFails? || tape[0].HookFails?) {
        assert Unasked(s).heap - {s.runtime} == s.heap - {s.runtime};
      } else {
        var u := Replaced(s.(ignored := s.ignored + ShutdownsInWindow(tape)));
        ReplacedDone(s.(ignored := s.ignored + ShutdownsInWindow(tape)));
        SettleDone(u, Loading(AfterWindow(tape)));
      }
    }
  }

  lemma OutermostTwice(s: Snapshot, t: Snapshot, u: Snapshot)
    requires s.runtime in s.heap && Outermost(s, t) && t.runtime == s.runtime && s.runtime != NULL
    requires t.next == s.next && Outermost(t, u)
    ensures Outermost(s, u)
  {
  }

  /** Every callback keeps the plugin in order: no runtime leaks or is freed twice, and no shutdown is left pending. */
  lemma ServedDone(s: Snapshot, callback: Callback, tape: seq<Act>)
    requires Inv(s) && Settled(s)
    ensures var t := Served(s, callback, tape).s; Inv(t) && Settled(t) && CallbackDone(s, t)
  {
    if s.runtime == NULL {
    } else if !Idle(s) {
      ServedWithin(s, callback, tape);
      DidNested(s, Within(Dead(s), callback, tape));
    } else if callback.Shutdown? {
      ShutDownDone(s.(accepted := s.accepted + 1), tape);
    } else {
      OutermostDone(s, callback, tape);
    }
  }

  lemma OutermostDone(s: Snapshot, callback: Callback, tape: seq<Act>)
    requires Inv(s) && Resting(s) && !s.deferred && !callback.Shutdown?
    ensures var t := Served(s, callback, tape).s; Inv(t) && Settled(t) && Outermost(s, t)
  {
    var e := if Dead(s) then Nothing(true, tape) else Running(callback, tape);
    var r := Settle(Did(s, e), e.rest);
    SettleDone(s, e);
    if callback.Frame? {
      if r.s.runtime == NULL {
      } else {
        FrameEndsDone(r.s, r.rest);
        OutermostTwice(s, r.s, FrameEnds(r.s, r.rest).s);
      }
    }
  }

  /** Which shutdowns are counted as accepted and which as ignored; without a runtime nothing else happens. */
  predicate Counts(s: Snapshot, callback: Callback, t: Snapshot) {
    && (s.runtime == NULL ==> t.ignored == s.ignored + if callback.Shutdown? then 1 else 0)
    && (s.runtime != NULL && callback.Shutdown? ==> t.accepted > s.accepted)
    && (s.runtime != NULL && !callback.Frame? ==> t.ignored == s.ignored)
    && (s.runtime != NULL && t.ignored != s.ignored ==> t.runtime != s.runtime)
  }

  lemma ServedCounts(s: Snapshot, callback: Callback, tape: seq<Act>)
    requires Inv(s) && Settled(s)
    ensures Counts(s, callback, Served(s, callback, tape).s)
    ensures s.runtime == NULL ==> Served(s, callback, tape).rest == tape
  {
    if s.runtime == NULL {
    } else if !Idle(s) {
      ServedWithin(s, callback, tape);
    } else if callback.Shutdown? {
      ShutDownDone(s.(accepted := s.accepted + 1), tape);
    } else {
      var e := if Dead(s) then Nothing(true, tape) else Running(callback, tape);
      SettleDone(s, e);
      var r := Settle(Did(s, e), e.rest);
      if callback.Frame? && r.s.runtime != NULL { FrameEndsCounts(r.s, r.rest); }
    }
  }

  lemma FrameEndsCounts(s: Snapshot, tape: seq<Act>)
    requires Inv(s) && Resting(s) && !s.deferred
    ensures var t := FrameEnds(s, tape).s;
            && (t.ignored != s.ignored ==> t.runtime != s.runtime)
            && (t.runtime != NULL && t.runtime != s.runtime ==> t.ignored == s.ignored + ShutdownsInWindow(tape))
            && (!ReloadsNow(s) ==> t == s)
  {
    if ReloadsNow(s) && !(tape != [] && (tape[0].BuildFails? || tape[0].HookFails?)) {
      var u := Replaced(s.(ignored := s.ignored + ShutdownsInWindow(tape)));
      ReplacedDone(s.(ignored := s.ignored + ShutdownsInWindow(tape)));
      SettleDone(u, Loading(AfterWindow(tape)));
    }
  }

  // ---------------------------------------------------------------- scopes

  /** An Invoker::Scope around the installed runtime is entered (1) or left (-1). */
  function Deeper(s: Snapshot, step: int): Snapshot
    requires s.runtime in s.heap && 0 <= s.heap[s.runtime].depth + step
  {
    s.(heap := s.heap[s.runtime := s.heap[s.runtime].(depth := s.heap[s.runtime].depth + step)])
  }

  /** Seen from outside, a scope is nested code at the depth outside. */
  lemma LeaveScope(s: Snapshot, e: Effect)
    requires Inv(s) && s.runtime in s.heap && (Dead(s) ==> e.dead)
    ensures var t := Did(Deeper(s, 1), e);
            && Inv(Deeper(s, 1)) && Inv(t) && Inv(Did(s, e)) && t.runtime == s.runtime && t.runtime in t.heap
            && t.heap[t.runtime].depth == s.heap[s.runtime].depth + 1
            && Deeper(t, -1) == Did(s, e) && Nested(s, Deeper(t, -1))
  {
    DidNested(s, e);
    DidNested(Deeper(s, 1), e);
    assert Deeper(Did(Deeper(s, 1), e), -1).heap == Did(s, e).heap;
  }

  class Plugin {
    var heap: map<nat, Runtime>
    var runtime: nat
    var shutdownDeferred: bool
    var next: nat
    ghost var started: nat
    ghost var accepted: nat
    ghost var ignored: nat
    ghost var finished: seq<nat>
    ghost var bugs: nat

    ghost function Now(): Snapshot
      reads this
    {
      Snapshot(heap, runtime, shutdownDeferred, next, started, accepted, ignored, finished, bugs)
    }

    constructor ()
      ensures Now() == EMPTY
    {
      heap, runtime, shutdownDeferred, next := map[], NULL, false, 1;
      started, accepted, ignored, finished, bugs := 0, 0, 0, [], 0;
    }

    // -------------------------------------------------------------- a runtime

    predicate Usable(r: nat)
      requires r in heap
      reads this
    {
      heap[r].lua && !heap[r].closing && !heap[r].dead
    }

    predicate InLuaCall(r: nat)
      requires r in heap
      reads this
    {
      heap[r].depth > 0
    }

    /** Lua code of the installed runtime, up to the action that ends it. */
    method RunLua(tape: seq<Act>) returns (threw: bool, rest: seq<Act>)
      requires Inv(Now()) && runtime != NULL && InLuaCall(runtime)
      modifies this
      ensures Inv(Now()) && Nested(old(Now()), Now()) && |rest| <= |tape|
      ensures Had(old(Now()), Now(), threw, rest, Lua(Dead(old(Now())), tape))
      decreases |tape|, 1
    {
      ghost var s := Now();
      DidNested(s, Lua(Dead(s), tape));
      DidNothing(s, tape);
      if tape == [] {
        return false, [];
      }
      if tape[0].Return? || tape[0].Throw? || tape[0].Panic? {
        if tape[0].Panic? {
          heap := heap[runtime := heap[runtime].(dead := true)];
        }
        return !tape[0].Return?, tape[1..];
      }
      rest := Step(tape);
      LuaGoesOn(s, Now(), tape);
      threw, rest := RunLua(rest);
    }

    /** The first action of a function, when it does not end it. */
    method Step(tape: seq<Act>) returns (rest: seq<Act>)
      requires Inv(Now()) && runtime != NULL && InLuaCall(runtime) && tape != [] && !Ends(tape[0])
      modifies this
      ensures Inv(Now()) && runtime != NULL && InLuaCall(runtime)
      ensures Had(old(Now()), Now(), false, rest, FirstOf(Dead(old(Now())), tape))
      decreases |tape|, 0
    {
      ghost var s := Now();
      rest := tape[1..];
      DidNothing(s, rest);
      DidNested(s, FirstOf(Dead(s), tape));
      if tape[0].Reload? {
        if Usable(runtime) {
          heap := heap[runtime := heap[runtime].(reloadRequested := true)];
        }
      } else if tape[0].Server? {
        ServedWithin(s, tape[0].callback, rest);
        rest := OnCallback(tape[0].callback, rest);
      }
    }

    /** Invoker::Call: counted, and nothing at all once the runtime is dead. */
    method Call(tape: seq<Act>) returns (threw: bool, rest: seq<Act>)
      requires Inv(Now()) && runtime != NULL
      modifies this
      ensures Inv(Now()) && Nested(old(Now()), Now()) && |rest| <= |tape|
      ensures Had(old(Now()), Now(), threw, rest, Calling(Dead(old(Now())), tape))
      decreases |tape|, 3
    {
      threw, rest := false, tape;
      if heap[runtime].dead {
        DidNothing(Now(), tape);
        return;
      }
      threw, rest := Scope(tape);
    }

    /** Lua code inside an Invoker::Scope, which is left also by an exception. */
    method Scope(tape: seq<Act>) returns (threw: bool, rest: seq<Act>)
      requires Inv(Now()) && runtime != NULL && Usable(runtime)
      modifies this
      ensures Inv(Now()) && Nested(old(Now()), Now()) && |rest| <= |tape|
      ensures Had(old(Now()), Now(), threw, rest, Calling(false, tape))
      decreases |tape|, 2
    {
      started := started + 1;
      ghost var s := Now();
      Enter();
      threw, rest := RunLua(tape);
      Leave(s, Lua(false, tape));
    }

    method Enter()
      requires Inv(Now()) && runtime != NULL
      modifies this`heap
      ensures Inv(Now()) && Now() == Deeper(old(Now()), 1)
    {
      LeaveScope(Now(), Nothing(Dead(Now()), []));
      heap := heap[runtime := heap[runtime].(depth := heap[runtime].depth + 1)];
    }

    method Leave(ghost s: Snapshot, ghost e: Effect)
      requires s.runtime in s.heap && Inv(s) && s.runtime != NULL && (Dead(s) ==> e.dead)
      requires Now() == Did(Deeper(s, 1), e)
      modifies this`heap
      ensures Inv(Now()) && Nested(s, Now()) && Now() == Did(s, e)
    {
      LeaveScope(s, e);
      heap := heap[runtime := heap[runtime].(depth := heap[runtime].depth - 1)];
    }

    /** A dispatch, a timer tick or an HTTP pump: one scope around all of its calls. */
    method Section(tape: seq<Act>) returns (threw: bool, rest: seq<Act>)
      requires Inv(Now()) && runtime != NULL
      modifies this
      ensures Inv(Now()) && Nested(old(Now()), Now()) && |rest| <= |tape|
      ensures Had(old(Now()), Now(), threw, rest, PluginWorld.Section(Dead(old(Now())), tape))
      decreases |tape|, 4
    {
      ghost var s := Now();
      Enter();
      threw, rest := CallAll(tape);
      Leave(s, PluginWorld.Section(Dead(s), tape));
    }

    /** The calls of a section. */
    method CallAll(tape: seq<Act>) returns (threw: bool, rest: seq<Act>)
      requires Inv(Now()) && runtime != NULL
      modifies this
      ensures Inv(Now()) && |rest| <= |tape|
      ensures Had(old(Now()), Now(), threw, rest, PluginWorld.Section(Dead(old(Now())), tape))
      decreases |tape|, 3
    {
      threw, rest := false, tape;
      ghost var s, so := Now(), Nothing(Dead(Now()), tape);
      NothingYet(s, tape);
      while !threw && rest != [] && rest[0].More?
        invariant Inv(Now()) && runtime != NULL && |rest| <= |tape|
        invariant After(s, so, Now()) && SectionLeft(so, threw, rest, PluginWorld.Section(Dead(s), tape))
        decreases |rest|
      {
        SectionNext(so, rest, PluginWorld.Section(Dead(s), tape));
        ghost var more := Then(so, Calling(so.dead, rest[1..]));
        threw, rest := CallAfter(s, so, rest[1..]);
        so := more;
      }
      if !threw && rest != [] && rest[0].Done? {
        rest := rest[1..];
      }
    }

    /** A section, after code with the effect `so` since `s`. */
    method SectionAfter(ghost s: Snapshot, ghost so: Effect, tape: seq<Act>) returns (threw: bool, rest: seq<Act>)
      requires Inv(Now()) && runtime != NULL && After(s, so, Now())
      modifies this
      ensures Inv(Now()) && Nested(s, Now()) && |rest| <= |tape|
      ensures Had(s, Now(), threw, rest, Then(so, PluginWorld.Section(so.dead, tape)))
      decreases |tape|, 5
    {
      ghost var mid := Now();
      threw, rest := Section(tape);
      HadThen(s, so, mid, threw, rest, PluginWorld.Section(so.dead, tape), Now());
    }

    method CallAfter(ghost s: Snapshot, ghost so: Effect, tape: seq<Act>) returns (threw: bool, rest: seq<Act>)
      requires Inv(Now()) && runtime != NULL && After(s, so, Now())
      modifies this
      ensures Inv(Now()) && Nested(s, Now()) && |rest| <= |tape|
      ensures Had(s, Now(), threw, rest, Then(so, Calling(so.dead, tape)))
      decreases |tape|, 4
    {
      ghost var mid := Now();
      threw, rest := Call(tape);
      HadThen(s, so, mid, threw, rest, Calling(so.dead, tape), Now());
    }

    method ScopeAfter(ghost s: Snapshot, ghost so: Effect, tape: seq<Act>) returns (threw: bool, rest: seq<Act>)
      requires Inv(Now()) && runtime != NULL && After(s, so, Now()) && Usable(runtime)
      modifies this
      ensures Inv(Now()) && Nested(s, Now()) && |rest| <= |tape|
      ensures Had(s, Now(), threw, rest, Then(so, Calling(false, tape)))
      decreases |tape|, 3
    {
      ghost var mid := Now();
      threw, rest := Scope(tape);
      HadThen(s, so, mid, threw, rest, Calling(false, tape), Now());
    }

    /** Runtime::LoadScripts: the scripts one by one, then onServerInit. */
    method LoadScripts(tape: seq<Act>) returns (threw: bool, rest: seq<Act>)
      requires Inv(Now()) && runtime != NULL
      modifies this
      ensures Inv(Now()) && Nested(old(Now()), Now()) && |rest| <= |tape|
      ensures Had(old(Now()), Now(), threw, rest, IfAlive(old(Now()), Initialise, tape))
      decreases |tape|, 6
    {
      threw, rest := false, tape;
      ghost var s, so := Now(), Nothing(Dead(Now()), tape);
      NothingYet(s, tape);
      if !Usable(runtime) {
        return;
      }
      while rest != [] && rest[0].More?
        invariant Inv(Now()) && runtime != NULL && |rest| <= |tape| && After(s, so, Now()) && GoesOn(so)
        invariant Loading(tape) == Then(so, Loading(rest))
        decreases |rest|
      {
        ghost var more := Then(so, Calling(false, rest[1..]));
        threw, rest := ScopeAfter(s, so, rest[1..]);
        so := more;
        if threw || !Usable(runtime) {
          return;
        }
      }
      if rest != [] && rest[0].Done? {
        rest := rest[1..];
      }
      threw, rest := SectionAfter(s, so, rest);
    }

    /** Runtime::Frame: timers, HTTP, one Copas step, then onServerFrame. */
    method RunFrame(tape: seq<Act>) returns (threw: bool, rest: seq<Act>)
      requires Inv(Now()) && runtime != NULL
      modifies this
      ensures Inv(Now()) && Nested(old(Now()), Now()) && |rest| <= |tape|
      ensures Had(old(Now()), Now(), threw, rest, IfAlive(old(Now()), Frame, tape))
      decreases |tape|, 6
    {
      threw, rest := false, tape;
      ghost var s, so := Now(), Nothing(Dead(Now()), tape);
      NothingYet(s, tape);
      if !Usable(runtime) {
        return;
      }
      FrameSteps(s, tape);
      threw, rest := SectionAfter(s, so, rest);    // timers
      so := Then(so, PluginWorld.Section(so.dead, so.rest));
      if threw {
        return;
      }
      threw, rest := SectionAfter(s, so, rest);    // HTTP
      so := Then(so, PluginWorld.Section(so.dead, so.rest));
      if threw {
        return;
      }
      threw, rest := CallAfter(s, so, rest);       // one Copas step
      so := Then(so, Calling(so.dead, so.rest));
      if !threw && Usable(runtime) {
        threw, rest := SectionAfter(s, so, rest);  // onServerFrame
      }
    }

    /** Runtime::NotifyServerShutdown: onServerShutdown, then one disconnect per player. */
    method NotifyServerShutdown(tape: seq<Act>) returns (threw: bool, rest: seq<Act>)
      requires Inv(Now()) && runtime != NULL
      modifies this
      ensures Inv(Now()) && Nested(old(Now()), Now()) && |rest| <= |tape|
      ensures Had(old(Now()), Now(), threw, rest, if Dead(old(Now())) then Nothing(true, tape) else Goodbyes(tape))
      decreases |tape|, 7
    {
      threw, rest := false, tape;
      ghost var s, so := Now(), Nothing(Dead(Now()), tape);
      NothingYet(s, tape);
      if !Usable(runtime) {
        return;
      }
      threw, rest := SectionAfter(s, so, rest);
      so := Then(so, PluginWorld.Section(false, tape));
      if threw || !Usable(runtime) {
        return;
      }
      threw, rest := NotifyPlayers(s, so, rest);
    }

    /** One disconnect event for each player. */
    method NotifyPlayers(ghost s: Snapshot, ghost first: Effect, tape: seq<Act>) returns (threw: bool, rest: seq<Act>)
      requires Inv(Now()) && runtime != NULL && After(s, first, Now()) && GoesOn(first)
      modifies this
      ensures Inv(Now()) && Nested(s, Now()) && |rest| <= |tape|
      ensures Had(s, Now(), threw, rest, Then(first, Players(tape)))
      decreases |tape|, 6
    {
      threw, rest := false, tape;
      ghost var so := first;
      DidNested(s, Then(first, Players(tape)));
      while rest != [] && rest[0].More?
        invariant Inv(Now()) && runtime != NULL && |rest| <= |tape| && After(s, so, Now()) && GoesOn(so)
        invariant !threw && Then(first, Players(tape)) == Then(so, Players(rest))
        decreases |rest|
      {
        ghost var more := Then(so, PluginWorld.Section(false, rest[1..]));
        threw, rest := SectionAfter(s, so, rest[1..]);
        so := more;
        if threw || !Usable(runtime) {
          return;
        }
      }
      if rest != [] && rest[0].Done? {
        rest := rest[1..];
      }
    }

    /**
      Runtime::Shutdown.  `r` has been taken out of the plugin by the caller.  On a reload the
      server reports the deletion of the old entities meanwhile; nobody sees those callbacks.
     */
    method ShutdownRuntime(r: nat, reload: bool, tape: seq<Act>) returns (rest: seq<Act>)
      requires Inv(Now()) && runtime == NULL && r in heap && (reload ==> !shutdownDeferred)
      modifies this
      ensures |rest| <= |tape|
      ensures Inv(Now()) && heap == old(heap)[r := AfterShutdown(old(heap[r]))]
      ensures Now() == old(Now()).(heap := heap, ignored := ignored, bugs := bugs)
      ensures bugs == old(bugs) + if old(heap[r].lua && heap[r].depth > 0) then 1 else 0
      ensures heap[r].lua ==> bugs != old(bugs)
      ensures if reload && old(heap[r].lua && !heap[r].dead && heap[r].depth == 0)
              then rest == AfterWindow(tape) && ignored == old(ignored) + ShutdownsInWindow(tape)
              else rest == tape && ignored == old(ignored)
      decreases |tape|, 8
    {
      rest := tape;
      if !heap[r].lua {
        return;
      }
      if InLuaCall(r) {
        bugs := bugs + 1;
        return;
      }
      heap := heap[r := heap[r].(closing := true)];
      if heap[r].dead {
        heap := heap[r := heap[r].(lua := false)];   // leaked on purpose
        return;
      }
      label closing:
      while reload && rest != [] && rest[0].Server?
        invariant |rest| <= |tape|
        invariant Now() == old@closing(Now()).(ignored := ignored)
        invariant reload ==> AfterWindow(rest) == AfterWindow(tape)
        invariant reload ==> ignored + ShutdownsInWindow(rest) == old(ignored) + ShutdownsInWindow(tape)
        invariant !reload ==> rest == tape && ignored == old(ignored)
        decreases |rest|
      {
        rest := OnCallback(rest[0].callback, rest[1..]);
      }
      heap := heap[r := heap[r].(lua := false)];
    }

    // -------------------------------------------------------------- the plugin

    method FinishShutdown(tape: seq<Act>) returns (rest: seq<Act>)
      requires Inv(Now()) && (runtime != NULL ==> !InLuaCall(runtime))
      modifies this
      ensures Inv(Now()) && runtime == NULL && !shutdownDeferred && |rest| <= |tape|
      ensures old(runtime) == NULL ==> Now() == old(Now()).(deferred := false) && rest == tape
      ensures old(runtime) != NULL ==>
                && Ran(Now(), rest) == ShutDown(old(Now()), tape)
                && heap == old(heap) - {old(runtime)} && finished == old(finished) + [old(runtime)]
                && next == old(next) && bugs == old(bugs) && old(accepted) <= accepted && ignored == old(ignored)
      decreases |tape|, 9, 1
    {
      rest := tape;
      shutdownDeferred := false;
      if runtime == NULL {
        return;
      }
      ShutDownDone(old(Now()), tape);
      var threw;
      threw, rest := NotifyServerShutdown(rest);   // guarded: an exception is logged
      rest := Remove(rest);
    }

    /** The installed runtime is taken out of the plugin, shut down and deleted. */
    method Remove(tape: seq<Act>) returns (rest: seq<Act>)
      requires Inv(Now()) && runtime != NULL && !InLuaCall(runtime)
      modifies this
      ensures Inv(Now()) && rest == tape && Now() == Removed(old(Now()))
      decreases |tape|, 9, 0
    {
      var r := runtime;
      runtime := NULL;
      rest := ShutdownRuntime(r, false, tape);
      heap := heap - {r};
      shutdownDeferred := false;               // a handler may have sent another one
      finished := finished + [r];
    }

    method AfterCallback(tape: seq<Act>) returns (rest: seq<Act>)
      requires Inv(Now())
      modifies this
      ensures Inv(Now()) && Ran(Now(), rest) == Settle(old(Now()), tape)
      ensures old(runtime != NULL || !shutdownDeferred) ==> Settled(Now())
      ensures if old(Now()).deferred && Resting(old(Now()))
              then runtime == NULL && heap == old(heap) - {old(runtime)} && finished == old(finished) + [old(runtime)]
              else Now() == old(Now()) && rest == tape
      decreases |tape|, 10
    {
      rest := tape;
      if shutdownDeferred && runtime != NULL && !InLuaCall(runtime) {
        rest := FinishShutdown(rest);
      }
    }

    /**
      Reload: the new runtime is built first.  If that fails nothing changes but the request
      flag.  Otherwise the old runtime is shut down and deleted, and the new one loads.
     */
    method DoReload(tape: seq<Act>) returns (rest: seq<Act>)
      requires Inv(Now()) && ReloadsNow(Now())
      modifies this
      ensures Inv(Now()) && Ran(Now(), rest) == Reloaded(old(Now()), tape)
      ensures tape != [] && tape[0].BuildFails? ==> Now() == Unasked(old(Now()))
      ensures tape != [] && tape[0].HookFails? ==> Now() == Unasked(old(Now())).(next := next)
      ensures !(tape != [] && (tape[0].BuildFails? || tape[0].HookFails?)) ==>
                && runtime == old(next) && heap - {runtime} == old(heap) - {old(runtime)}
                && ignored == old(ignored) + ShutdownsInWindow(tape)
                && (shutdownDeferred <==> old(accepted) < accepted)
      ensures old(accepted) <= accepted && bugs == old(bugs) && finished == old(finished)
      decreases |tape|, 10
    {
      rest := tape;
      if rest != [] && rest[0].BuildFails? {
        heap := heap[runtime := heap[runtime].(reloadRequested := false)];
        return rest[1..];
      }
      var built := next;
      heap, next := heap[built := FRESH], next + 1;
      if rest != [] && rest[0].HookFails? {
        heap := heap - {built};
        heap := heap[runtime := heap[runtime].(reloadRequested := false)];
        assert Now() == Unasked(old(Now())).(next := next);
        return rest[1..];
      }
      rest := Replace(built, rest);
      assert (old(heap)[built := FRESH] - {old(runtime)}) == (old(heap) - {old(runtime)})[built := FRESH];
      assert heap - {built} == old(heap) - {old(runtime)};
    }

    /** The old runtime goes while the plugin has none; then the new one loads its scripts. */
    method Replace(built: nat, tape: seq<Act>) returns (rest: seq<Act>)
      requires Inv(Now()) && runtime != NULL && Usable(runtime) && !InLuaCall(runtime) && !shutdownDeferred
      requires built in heap && built != runtime && heap[built] == FRESH
      modifies this
      ensures Inv(Now())
      ensures var e := Loading(AfterWindow(tape));
              && rest == e.rest
              && Now() == Did(old(Now()).(heap := old(heap) - {old(runtime)}, runtime := built,
                                          ignored := old(ignored) + ShutdownsInWindow(tape)), e)
      decreases |tape|, 9
    {
      var outgoing := runtime;
      runtime := NULL;
      rest := ShutdownRuntime(outgoing, true, tape);
      heap := heap - {outgoing};
      assert heap == old(heap) - {outgoing};
      runtime := built;
      var threw;
      threw, rest := LoadScripts(rest);
    }

    /** The installed runtime, unless it is dead. */
    function Live(): nat
      requires Inv(Now())
      reads this
    {
      if runtime != NULL && !heap[runtime].dead then runtime else NULL
    }

    method OnServerInitialise(tape: seq<Act>) returns (rest: seq<Act>)
      requires Inv(Now()) && Settled(Now())
      modifies this
      ensures Inv(Now()) && Settled(Now()) && CallbackDone(old(Now()), Now())
      ensures Ran(Now(), rest) == Served(old(Now()), Initialise, tape) && Counts(old(Now()), Initialise, Now())
      decreases |tape|, 11, 1
    {
      ServedDone(Now(), Initialise, tape);
      ServedCounts(Now(), Initialise, tape);
      rest := tape;
      RestsStill(Now(), rest);
      if Live() != NULL {
        var threw;
        threw, rest := LoadScripts(rest);
      }
      rest := AfterCallback(rest);
    }

    /** Every callback that only dispatches an event. */
    method OnEvent(tape: seq<Act>) returns (rest: seq<Act>)
      requires Inv(Now()) && Settled(Now())
      modifies this
      ensures Inv(Now()) && Settled(Now()) && CallbackDone(old(Now()), Now())
      ensures Ran(Now(), rest) == Served(old(Now()), Event, tape) && Counts(old(Now()), Event, Now())
      decreases |tape|, 11, 1
    {
      ServedDone(Now(), Event, tape);
      ServedCounts(Now(), Event, tape);
      rest := tape;
      RestsStill(Now(), rest);
      if Live() != NULL && Usable(runtime) {
        var threw;
        threw, rest := Section(rest);
      }
      rest := AfterCallback(rest);
    }

    method OnServerFrame(tape: seq<Act>) returns (rest: seq<Act>)
      requires Inv(Now()) && Settled(Now())
      modifies this
      ensures Inv(Now()) && Settled(Now()) && CallbackDone(old(Now()), Now())
      ensures Ran(Now(), rest) == Served(old(Now()), Frame, tape) && Counts(old(Now()), Frame, Now())
      ensures old(runtime) != NULL && old(Idle(Now())) && runtime == old(runtime) && !heap[runtime].dead ==>
                !heap[runtime].reloadRequested
      decreases |tape|, 11, 1
    {
      ServedDone(Now(), Frame, tape);
      ServedCounts(Now(), Frame, tape);
      FrameForgets(Now(), tape);
      rest := tape;
      RestsStill(Now(), rest);
      if Live() != NULL {
        var threw;
        threw, rest := RunFrame(rest);
      }
      rest := AfterCallback(rest);
      rest := EndOfFrame(rest);
    }

    /** A reload that was asked for happens now, unless a call into Lua is active or a shutdown is pending. */
    method EndOfFrame(tape: seq<Act>) returns (rest: seq<Act>)
      requires Inv(Now())
      modifies this
      ensures Inv(Now()) && Ran(Now(), rest) == FrameEnds(old(Now()), tape)
      ensures old(Now()).runtime != NULL && Resting(old(Now())) && !old(Now()).deferred ==>
                && Outermost(old(Now()), Now()) && !shutdownDeferred
                && (runtime != NULL && runtime != old(runtime) ==> ignored == old(ignored) + ShutdownsInWindow(tape))
                && (!ReloadsNow(old(Now())) ==> Now() == old(Now()))
      decreases |tape|, 11, 0
    {
      ghost var s := Now();
      if Resting(s) && !s.deferred {
        FrameEndsDone(s, tape);
        FrameEndsCounts(s, tape);
      }
      rest := tape;
      if Live() != NULL && heap[runtime].reloadRequested && !InLuaCall(runtime) && !shutdownDeferred {
        rest := DoReload(rest);
      }
      rest := AfterCallback(rest);
    }

    method OnServerShutdown(tape: seq<Act>) returns (rest: seq<Act>)
      requires Inv(Now()) && Settled(Now())
      modifies this
      ensures Inv(Now()) && Settled(Now()) && CallbackDone(old(Now()), Now())
      ensures Ran(Now(), rest) == Served(old(Now()), Shutdown, tape) && Counts(old(Now()), Shutdown, Now())
      decreases |tape|, 11, 1
    {
      ServedDone(Now(), Shutdown, tape);
      ServedCounts(Now(), Shutdown, tape);
      rest := tape;
      if runtime == NULL {
        ignored := ignored + 1;
        return;
      }
      accepted := accepted + 1;
      if InLuaCall(runtime) {
        shutdownDeferred := true;
        return;
      }
      rest := FinishShutdown(rest);
    }

    method OnCallback(callback: Callback, tape: seq<Act>) returns (rest: seq<Act>)
      requires Inv(Now()) && Settled(Now())
      modifies this
      ensures Inv(Now()) && Settled(Now()) && CallbackDone(old(Now()), Now())
      ensures Ran(Now(), rest) == Served(old(Now()), callback, tape) && Counts(old(Now()), callback, Now())
      decreases |tape|, 12
    {
      match callback
      case Initialise => rest := OnServerInitialise(tape);
      case Frame => rest := OnServerFrame(tape);
      case Shutdown => rest := OnServerShutdown(tape);
      case Event => rest := OnEvent(tape);
    }

    /** plugin::Init: the first runtime.  It may fail; then the plugin has none. */
    method Init(fails: bool)
      requires Inv(Now()) && runtime == NULL
      modifies this
      ensures Inv(Now()) && Settled(Now()) && Now() == Begun(old(Now()), fails)
    {
      shutdownDeferred := false;
      if !fails {
        heap, runtime, next := heap[next := FRESH], next, next + 1;
      }
    }
  }

  /** Code with the effect `so` has run since `s`. */
  ghost predicate After(s: Snapshot, so: Effect, t: Snapshot) {
    Inv(s) && s.runtime != NULL && t == Did(s, so) && (Dead(s) ==> so.dead)
  }

  lemma NothingYet(s: Snapshot, tape: seq<Act>)
    requires Inv(s) && s.runtime != NULL
    ensures After(s, Nothing(Dead(s), tape), s) && Nested(s, s)
  {
    DidNothing(s, tape);
  }

  /** From `s` to `t` code ran with the effect `e`. */
  ghost predicate Had(s: Snapshot, t: Snapshot, threw: bool, rest: seq<Act>, e: Effect) {
    t == Did(s, e) && threw == e.threw && rest == e.rest
  }

  /** Of a section with the effect `so` so far this is what is left. */
  predicate SectionLeft(so: Effect, threw: bool, rest: seq<Act>, e: Effect) {
    e == if threw then so.(threw := true, rest := rest) else Then(so, PluginWorld.Section(so.dead, rest))
  }

  lemma SectionNext(so: Effect, tape: seq<Act>, e: Effect)
    requires SectionLeft(so, false, tape, e) && tape != [] && tape[0].More?
    ensures var c := Calling(so.dead, tape[1..]); SectionLeft(Then(so, c), c.threw, c.rest, e)
  {
  }

  lemma HadThen(s: Snapshot, so: Effect, mid: Snapshot, threw: bool, rest: seq<Act>, e: Effect, t: Snapshot)
    requires Inv(s) && s.runtime != NULL && mid == Did(s, so) && Had(mid, t, threw, rest, e) && (Dead(s) ==> e.dead)
    ensures Had(s, t, threw, rest, Then(so, e)) && Nested(s, t) && Dead(t) == e.dead
  {
    DidThen(s, so, e);
    DidNested(s, Then(so, e));
  }

  lemma DidEnd(s: Snapshot, act: Act, rest: seq<Act>)
    requires s.runtime in s.heap
    ensures var r := s.heap[s.runtime];
            Did(s, Effect(0, false, 0, r.dead || act.Panic?, !act.Return?, rest))
            == if act.Panic? then s.(heap := s.heap[s.runtime := r.(dead := true)]) else s
  {
    DidNothing(s, rest);
  }

  lemma DidAsk(s: Snapshot, rest: seq<Act>)
    requires s.runtime in s.heap
    ensures Did(s, Effect(0, !Dead(s), 0, Dead(s), false, rest))
            == if Dead(s) then s else s.(heap := s.heap[s.runtime := s.heap[s.runtime].(reloadRequested := true)])
  {
    DidNothing(s, rest);
  }

  /** The effect of the first action of a function, when it does not end it. */
  function FirstOf(dead: bool, tape: seq<Act>): Effect
    requires tape != [] && !Ends(tape[0])
  {
    if tape[0].Reload? then Effect(0, !dead, 0, dead, false, tape[1..])
    else if tape[0].Server? then Within(dead, tape[0].callback, tape[1..])
    else Nothing(dead, tape[1..])
  }

  lemma LuaFirst(dead: bool, tape: seq<Act>)
    requires tape != [] && !Ends(tape[0])
    ensures var first := FirstOf(dead, tape); Lua(dead, tape) == Then(first, Lua(first.dead, first.rest))
  {
  }

  lemma LuaGoesOn(s: Snapshot, mid: Snapshot, tape: seq<Act>)
    requires Inv(s) && s.runtime in s.heap && tape != [] && !Ends(tape[0]) && mid == Did(s, FirstOf(Dead(s), tape))
    ensures var first := FirstOf(Dead(s), tape);
            var e := Lua(first.dead, first.rest);
            && Dead(mid) == first.dead && Did(mid, e) == Did(s, Lua(Dead(s), tape))
            && Lua(Dead(s), tape).threw == e.threw && Lua(Dead(s), tape).rest == e.rest
  {
    var first := FirstOf(Dead(s), tape);
    LuaFirst(Dead(s), tape);
    DidNested(s, first);
    DidThen(s, first, Lua(first.dead, first.rest));
  }

  /** The parts of a frame. */
  lemma FrameSteps(s: Snapshot, tape: seq<Act>)
    requires !Dead(s)
    ensures var timers := PluginWorld.Section(false, tape);
            var http := Then(timers, PluginWorld.Section(timers.dead, timers.rest));
            var copas := Then(http, Calling(http.dead, http.rest));
            IfAlive(s, Frame, tape)
            == if timers.threw then timers else if http.threw then http
               else if GoesOn(copas) then Then(copas, PluginWorld.Section(false, copas.rest)) else copas
  {
    assert IfAlive(s, Frame, tape) == Running(Frame, tape) == InFrame(tape);
  }

  function IfAlive(s: Snapshot, callback: Callback, tape: seq<Act>): Effect {
    if Dead(s) then Nothing(true, tape) else Running(callback, tape)
  }

  lemma RestsStill(s: Snapshot, tape: seq<Act>)
    requires Inv(s)
    ensures s.runtime != NULL ==> Did(s, Nothing(Dead(s), tape)) == s
  {
    if s.runtime != NULL { DidNothing(s, tape); }
  }

  /** After an outermost frame no request is left, unless the runtime is dead, replaced or gone. */
  lemma FrameForgets(s: Snapshot, tape: seq<Act>)
    requires Inv(s) && Settled(s)
    ensures var t := Served(s, Frame, tape).s;
            Resting(s) && t.runtime == s.runtime && !Dead(t) ==> Resting(t) && !t.heap[t.runtime].reloadRequested
  {
    if Resting(s) {
      var e := IfAlive(s, Frame, tape);
      SettleDone(s, e);
      var r := Settle(Did(s, e), e.rest);
      if r.s.runtime != NULL {
        FrameEndsDone(r.s, r.rest);
      }
    }
  }

  /**
    A whole life of the plugin: any number of outermost callbacks, in any order, with anything
    nested in them.  Runtime::Shutdown is never entered during a call into Lua, nothing leaks
    and nothing is freed twice, no shutdown is pending in between, and the runtime is gone
    exactly when a shutdown reached it.
   */
  method Serve(initFails: bool, tape: seq<Act>) returns (p: Plugin)
    ensures Inv(p.Now()) && p.bugs == 0 && !p.shutdownDeferred && p.Now() == Lived(Begun(EMPTY, initFails), tape)
    ensures p.heap.Keys == if p.runtime == NULL then {} else {p.runtime}
    ensures p.runtime == NULL <==> initFails || p.accepted > 0
    ensures |p.finished| == if p.runtime == NULL && !initFails then 1 else 0
  {
    p := new Plugin();
    p.Init(initFails);
    ghost var goal := Lived(p.Now(), tape);
    var rest := tape;
    while rest != []
      invariant fresh(p) && InOrder(p.Now(), initFails) && goal == Lived(p.Now(), rest)
      decreases |rest|
    {
      ghost var before := p.Now();
      if rest[0].Server? {
        ServedRest(before, rest[0].callback, rest[1..]);
        rest := p.OnCallback(rest[0].callback, rest[1..]);
        StaysInOrder(before, p.Now(), initFails);
      } else {
        rest := rest[1..];
      }
    }
  }

  /** What holds of the plugin whenever no callback is active. */
  predicate InOrder(s: Snapshot, initFails: bool) {
    && Inv(s) && Settled(s) && s.bugs == 0 && !s.deferred && (s.runtime != NULL ==> Idle(s))
    && s.heap.Keys == (if s.runtime == NULL then {} else {s.runtime})
    && (s.runtime == NULL <==> initFails || s.accepted > 0)
    && |s.finished| == if s.runtime == NULL && !initFails then 1 else 0
  }

  lemma ServedRest(s: Snapshot, callback: Callback, tape: seq<Act>)
    ensures |Served(s, callback, tape).rest| <= |tape|
  {
  }

  lemma StaysInOrder(s: Snapshot, t: Snapshot, initFails: bool)
    requires InOrder(s, initFails) && Inv(t) && Settled(t) && CallbackDone(s, t)
    ensures InOrder(t, initFails)
  {
    KeysAfter(s.heap, s.runtime, t.heap, t.runtime);
  }

  lemma KeysAfter(heap: map<nat, Runtime>, runtime: nat, heap': map<nat, Runtime>, runtime': nat)
    requires heap.Keys == if runtime == NULL then {} else {runtime}
    requires heap' - {runtime'} == heap - {runtime}
    requires if runtime' == NULL then NULL !in heap' else runtime' in heap'
    ensures heap'.Keys == if runtime' == NULL then {} else {runtime'}
  {
    assert (heap - {runtime}).Keys == {};
    assert (heap' - {runtime'}).Keys == {};
  }
}
