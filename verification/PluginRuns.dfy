/**
  What happens in the plugin when its functions do this or that, said of the tape alone: which
  functions are started, what becomes of a request to reload and of a shutdown, and a shutdown
  that is lost.
 */
module PluginRuns {
  import opened PluginWorld
  import opened Lifecycle

  // ---------------------------------------------------------------- functions that only ask

  /** What a function does that asks for reloads and during which the server shuts down. */
  predicate Plain(acts: seq<Act>) {
    forall a <- acts :: a == Reload || a == Server(Shutdown)
  }

  function Shutdowns(acts: seq<Act>): nat {
    if acts == [] then 0 else (if acts[0] == Server(Shutdown) then 1 else 0) + Shutdowns(acts[1..])
  }

  lemma {:induction false} PlainLua(acts: seq<Act>, end: Act, rest: seq<Act>)
    requires Plain(acts) && Ends(end)
    ensures Lua(false, acts + ([end] + rest))
            == Effect(0, Reload in acts, Shutdowns(acts), end.Panic?, !end.Return?, rest)
    decreases |acts|
  {
    if acts == [] {
      assert acts + ([end] + rest) == [end] + rest && ([end] + rest)[1..] == rest;
    } else {
      assert acts == [acts[0]] + acts[1..] && acts + ([end] + rest) == [acts[0]] + (acts[1..] + ([end] + rest));
      assert acts[0] in acts && forall a <- acts[1..] :: a in acts;
      PlainLua(acts[1..], end, rest);
      FirstAct(acts[0], acts[1..] + ([end] + rest));
    }
  }

  lemma {:induction false} FirstAct(act: Act, rest: seq<Act>)
    requires act == Reload || act == Server(Shutdown)
    ensures Lua(false, [act] + rest)
            == Then(Effect(0, act.Reload?, if act.Server? then 1 else 0, false, false, rest), Lua(false, rest))
  {
    assert ([act] + rest)[1..] == rest;
    if act.Server? { assert Within(false, Shutdown, rest) == Effect(0, false, 1, false, false, rest); }
  }

  /** The tape of functions that are called one after the other and return. */
  function Written(bodies: seq<seq<Act>>): seq<Act> {
    if bodies == [] then [] else [More] + (bodies[0] + ([Return] + Written(bodies[1..])))
  }

  function Flat(bodies: seq<seq<Act>>): seq<Act> {
    if bodies == [] then [] else bodies[0] + Flat(bodies[1..])
  }

  predicate AllPlain(bodies: seq<seq<Act>>) {
    forall i :: 0 <= i < |bodies| ==> Plain(bodies[i])
  }

  /** All these functions started, and did what they did. */
  function AllOf(bodies: seq<seq<Act>>, rest: seq<Act>): Effect {
    Effect(|bodies|, Reload in Flat(bodies), Shutdowns(Flat(bodies)), false, false, rest)
  }

  lemma {:induction false} ShutdownsConcat(a: seq<Act>, b: seq<Act>)
    ensures Shutdowns(a + b) == Shutdowns(a) + Shutdowns(b)
  {
    if a == [] {
      assert a + b == b;
    } else {
      assert (a + b)[0] == a[0] && (a + b)[1..] == a[1..] + b;
      ShutdownsConcat(a[1..], b);
    }
  }

  /** One call, and what comes after it. */
  lemma {:induction false} FirstCall(acts: seq<Act>, end: Act, rest: seq<Act>)
    requires Plain(acts) && Ends(end)
    ensures Calling(false, acts + ([end] + rest)) == Effect(1, Reload in acts, Shutdowns(acts), end.Panic?, !end.Return?, rest)
    ensures var c := Effect(1, Reload in acts, Shutdowns(acts), end.Panic?, !end.Return?, rest);
            Section(false, [More] + (acts + ([end] + rest))) == if end.Return? then Then(c, Section(false, rest)) else c
  {
    var tape := [More] + (acts + ([end] + rest));
    assert tape[0].More? && tape[1..] == acts + ([end] + rest);
    PlainLua(acts, end, rest);
  }

  lemma {:induction false} WrittenFirst(bodies: seq<seq<Act>>, rest: seq<Act>)
    requires bodies != []
    ensures Written(bodies) + rest == [More] + (bodies[0] + ([Return] + (Written(bodies[1..]) + rest)))
  {
  }

  lemma {:induction false} AllOfFirst(bodies: seq<seq<Act>>, e: Effect)
    requires bodies != []
    ensures Then(Effect(1, Reload in bodies[0], Shutdowns(bodies[0]), false, false, e.rest), Then(AllOf(bodies[1..], e.rest), e))
            == Then(AllOf(bodies, e.rest), e)
  {
    ShutdownsConcat(bodies[0], Flat(bodies[1..]));
  }

  /** A dispatch, tick or pump starts every one of its functions, and goes on with the rest of the tape. */
  lemma {:induction false} SectionCalls(bodies: seq<seq<Act>>, rest: seq<Act>)
    requires AllPlain(bodies)
    ensures Section(false, Written(bodies) + rest) == Then(AllOf(bodies, rest), Section(false, rest))
    decreases |bodies|
  {
    if bodies == [] {
      assert Written(bodies) + rest == rest;
    } else {
      WrittenFirst(bodies, rest);
      FirstCall(bodies[0], Return, Written(bodies[1..]) + rest);
      SectionCalls(bodies[1..], rest);
      AllOfFirst(bodies, Section(false, rest));
    }
  }

  lemma {:induction false} LoopOver(rest: seq<Act>)
    ensures Section(false, [Done] + rest) == Nothing(false, rest)
  {
    assert ([Done] + rest)[1..] == rest;
  }

  /** A loop with these functions, to its end. */
  function Loop(bodies: seq<seq<Act>>, rest: seq<Act>): seq<Act> {
    Written(bodies) + ([Done] + rest)
  }

  lemma {:induction false} WholeSection(bodies: seq<seq<Act>>, rest: seq<Act>)
    requires AllPlain(bodies)
    ensures Section(false, Loop(bodies, rest)) == AllOf(bodies, rest)
  {
    SectionCalls(bodies, [Done] + rest);
    LoopOver(rest);
  }

  /** An exception or a panic is the end of the section. */
  lemma {:induction false} SectionStops(bodies: seq<seq<Act>>, acts: seq<Act>, end: Act, rest: seq<Act>)
    requires AllPlain(bodies) && Plain(acts) && Ends(end) && !end.Return?
    ensures Section(false, Written(bodies) + ([More] + (acts + ([end] + rest))))
            == Then(AllOf(bodies, rest), Effect(1, Reload in acts, Shutdowns(acts), end.Panic?, true, rest))
  {
    SectionCalls(bodies, [More] + (acts + ([end] + rest)));
    FirstCall(acts, end, rest);
  }

  /** After a panic nothing is started any more. */
  lemma {:induction false} DeadSection(tape: seq<Act>)
    ensures Section(true, tape).started == 0 && !Section(true, tape).asked && Section(true, tape).shutdowns == 0
    decreases |tape|
  {
    if tape != [] && tape[0].More? { DeadSection(tape[1..]); }
  }

  /** An event that arrives inside a function runs its handlers there and then; afterwards the function goes on. */
  lemma {:induction false} NestedEvent(bodies: seq<seq<Act>>, rest: seq<Act>)
    requires AllPlain(bodies)
    ensures Lua(false, [Server(Event)] + Loop(bodies, rest)) == Then(AllOf(bodies, rest), Lua(false, rest))
  {
    WholeSection(bodies, rest);
    WithinLua(Event, Loop(bodies, rest), AllOf(bodies, rest));
  }

  // ---------------------------------------------------------------- a frame, a load and a farewell

  /** A frame: the timers, the finished requests, the Copas step and the handlers. */
  function FrameTape(timers: seq<seq<Act>>, http: seq<seq<Act>>, copas: seq<Act>, handlers: seq<seq<Act>>, rest: seq<Act>)
    : seq<Act>
  {
    Loop(timers, Loop(http, copas + ([Return] + Loop(handlers, rest))))
  }

  lemma {:induction false} FlatConcat(a: seq<seq<Act>>, b: seq<seq<Act>>)
    ensures Flat(a + b) == Flat(a) + Flat(b)
  {
    if a == [] {
      assert a + b == b;
    } else {
      assert (a + b)[0] == a[0] && (a + b)[1..] == a[1..] + b;
      FlatConcat(a[1..], b);
      assert a[0] + (Flat(a[1..]) + Flat(b)) == a[0] + Flat(a[1..]) + Flat(b);
    }
  }

  lemma {:induction false} AllOfConcat(a: seq<seq<Act>>, b: seq<seq<Act>>, mid: seq<Act>, rest: seq<Act>)
    ensures Then(AllOf(a, mid), AllOf(b, rest)) == AllOf(a + b, rest)
  {
    FlatConcat(a, b);
    ShutdownsConcat(Flat(a), Flat(b));
  }

  lemma {:induction false} OneOf(acts: seq<Act>, rest: seq<Act>)
    ensures Effect(1, Reload in acts, Shutdowns(acts), false, false, rest) == AllOf([acts], rest)
  {
    assert [acts][1..] == [] && Flat([acts]) == acts + [] == acts;
  }

  /** A frame runs all of them, in that order. */
  lemma {:induction false} WholeFrame(timers: seq<seq<Act>>, http: seq<seq<Act>>, copas: seq<Act>, handlers: seq<seq<Act>>,
                                      rest: seq<Act>)
    requires AllPlain(timers) && AllPlain(http) && Plain(copas) && AllPlain(handlers)
    ensures InFrame(FrameTape(timers, http, copas, handlers, rest)) == AllOf(timers + http + [copas] + handlers, rest)
  {
    var last := Loop(handlers, rest);
    var third := copas + ([Return] + last);
    var second := Loop(http, third);
    WholeSection(timers, second);
    WholeSection(http, third);
    AllOfConcat(timers, http, second, third);
    FirstCall(copas, Return, last);
    OneOf(copas, last);
    AllOfConcat(timers + http, [copas], third, last);
    WholeSection(handlers, rest);
    AllOfConcat(timers + http + [copas], handlers, last, rest);
  }

  lemma {:induction false} FirstScript(acts: seq<Act>, rest: seq<Act>)
    requires Plain(acts)
    ensures var c := Effect(1, Reload in acts, Shutdowns(acts), false, false, rest);
            Loading([More] + (acts + ([Return] + rest))) == Then(c, Loading(rest))
  {
    var tape := [More] + (acts + ([Return] + rest));
    assert tape[0].More? && tape[1..] == acts + ([Return] + rest);
    FirstCall(acts, Return, rest);
  }

  lemma {:induction false} ScriptsLoad(scripts: seq<seq<Act>>, rest: seq<Act>)
    requires AllPlain(scripts)
    ensures Loading(Written(scripts) + rest) == Then(AllOf(scripts, rest), Loading(rest))
    decreases |scripts|
  {
    if scripts == [] {
      assert Written(scripts) + rest == rest;
    } else {
      WrittenFirst(scripts, rest);
      FirstScript(scripts[0], Written(scripts[1..]) + rest);
      ScriptsLoad(scripts[1..], rest);
      AllOfFirst(scripts, Loading(rest));
    }
  }

  lemma {:induction false} LastScript(rest: seq<Act>)
    ensures Loading([Done] + rest) == Section(false, rest)
  {
    assert ([Done] + rest)[1..] == rest;
  }

  /** The scripts and then the onServerInit handlers. */
  lemma {:induction false} WholeLoad(scripts: seq<seq<Act>>, handlers: seq<seq<Act>>, rest: seq<Act>)
    requires AllPlain(scripts) && AllPlain(handlers)
    ensures Loading(Loop(scripts, Loop(handlers, rest))) == AllOf(scripts + handlers, rest)
  {
    var after := Loop(handlers, rest);
    ScriptsLoad(scripts, [Done] + after);
    LastScript(after);
    WholeSection(handlers, rest);
    AllOfConcat(scripts, handlers, [Done] + after, rest);
  }

  /** The disconnect events of the players, each with its handlers. */
  function PlayersTape(players: seq<seq<seq<Act>>>, rest: seq<Act>): seq<Act> {
    if players == [] then [Done] + rest else [More] + Loop(players[0], PlayersTape(players[1..], rest))
  }

  function AllHandlers(players: seq<seq<seq<Act>>>): seq<seq<Act>> {
    if players == [] then [] else players[0] + AllHandlers(players[1..])
  }

  lemma {:induction false} AllPlayers(players: seq<seq<seq<Act>>>, rest: seq<Act>)
    requires forall i :: 0 <= i < |players| ==> AllPlain(players[i])
    ensures Players(PlayersTape(players, rest)) == AllOf(AllHandlers(players), rest)
    decreases |players|
  {
    var tape := PlayersTape(players, rest);
    if players == [] {
      assert tape[1..] == rest;
    } else {
      var after := PlayersTape(players[1..], rest);
      assert tape[1..] == Loop(players[0], after);
      WholeSection(players[0], after);
      AllPlayers(players[1..], rest);
      AllOfConcat(players[0], AllHandlers(players[1..]), after, rest);
    }
  }

  /** At a shutdown every handler of onServerShutdown and of every player's farewell is started. */
  lemma {:induction false} WholeFarewell(handlers: seq<seq<Act>>, players: seq<seq<seq<Act>>>, rest: seq<Act>)
    requires AllPlain(handlers) && forall i :: 0 <= i < |players| ==> AllPlain(players[i])
    ensures Goodbyes(Loop(handlers, PlayersTape(players, rest))) == AllOf(handlers + AllHandlers(players), rest)
  {
    WholeSection(handlers, PlayersTape(players, rest));
    AllPlayers(players, rest);
    AllOfConcat(handlers, AllHandlers(players), PlayersTape(players, rest), rest);
  }

  /** So do the scripts of an onServerInitialise, and a frame, that arrive inside a function. */
  lemma {:induction false} NestedLoad(scripts: seq<seq<Act>>, handlers: seq<seq<Act>>, rest: seq<Act>)
    requires AllPlain(scripts) && AllPlain(handlers)
    ensures Lua(false, [Server(Initialise)] + Loop(scripts, Loop(handlers, rest)))
            == Then(AllOf(scripts + handlers, rest), Lua(false, rest))
  {
    var tape := Loop(scripts, Loop(handlers, rest));
    WholeLoad(scripts, handlers, rest);
    WithinLua(Initialise, tape, AllOf(scripts + handlers, rest));
  }

  lemma {:induction false} NestedFrame(timers: seq<seq<Act>>, http: seq<seq<Act>>, copas: seq<Act>,
                                       handlers: seq<seq<Act>>, rest: seq<Act>)
    requires AllPlain(timers) && AllPlain(http) && Plain(copas) && AllPlain(handlers)
    ensures Lua(false, [Server(Frame)] + FrameTape(timers, http, copas, handlers, rest))
            == Then(AllOf(timers + http + [copas] + handlers, rest), Lua(false, rest))
  {
    var tape := FrameTape(timers, http, copas, handlers, rest);
    WholeFrame(timers, http, copas, handlers, rest);
    WithinLua(Frame, tape, AllOf(timers + http + [copas] + handlers, rest));
  }

  lemma {:induction false} WithinLua(callback: Callback, tape: seq<Act>, e: Effect)
    requires !callback.Shutdown? && !e.dead && !e.threw
    requires e == if callback.Initialise? then Loading(tape) else if callback.Frame? then InFrame(tape) else Section(false, tape)
    ensures Lua(false, [Server(callback)] + tape) == Then(e, Lua(false, e.rest))
  {
    assert ([Server(callback)] + tape)[1..] == tape;
    assert Running(callback, tape) == e;
    assert Within(false, callback, tape) == e;
  }

  // ---------------------------------------------------------------- whole callbacks

  /** A runtime that is usable, while no call is active and no shutdown is pending. */
  predicate Ready(s: Snapshot) {
    Inv(s) && Resting(s) && !Dead(s) && !s.deferred
  }

  /** An event whose handlers send no shutdown: they are started, and a reload is asked for if one asks. */
  lemma {:induction false} EventRuns(s: Snapshot, bodies: seq<seq<Act>>, rest: seq<Act>)
    requires Ready(s) && AllPlain(bodies) && Server(Shutdown) !in Flat(bodies)
    ensures var r := s.heap[s.runtime];
            Served(s, Event, Loop(bodies, rest))
            == Ran(s.(started := s.started + |bodies|,
                      heap := s.heap[s.runtime := r.(reloadRequested := r.reloadRequested || Reload in Flat(bodies))]), rest)
  {
    NoShutdowns(Flat(bodies));
    WholeSection(bodies, rest);
    assert Running(Event, Loop(bodies, rest)) == AllOf(bodies, rest);
  }

  lemma {:induction false} NoShutdowns(acts: seq<Act>)
    ensures Shutdowns(acts) == 0 <==> Server(Shutdown) !in acts
  {
    if acts != [] {
      assert acts == [acts[0]] + acts[1..];
      NoShutdowns(acts[1..]);
    }
  }

  /** A shutdown inside a handler happens after the event: the farewells, and then the runtime is gone. */
  lemma {:induction false} ShutdownRuns(s: Snapshot, bodies: seq<seq<Act>>, handlers: seq<seq<Act>>,
                                        players: seq<seq<seq<Act>>>, rest: seq<Act>)
    requires Ready(s) && AllPlain(bodies) && Server(Shutdown) in Flat(bodies)
    requires AllPlain(handlers) && forall i :: 0 <= i < |players| ==> AllPlain(players[i])
    ensures var all := handlers + AllHandlers(players);
            Served(s, Event, Loop(bodies, Loop(handlers, PlayersTape(players, rest))))
            == Ran(s.(heap := s.heap - {s.runtime}, runtime := NULL, finished := s.finished + [s.runtime],
                      started := s.started + |bodies| + |all|,
                      accepted := s.accepted + Shutdowns(Flat(bodies)) + Shutdowns(Flat(all))), rest)
  {
    var after := Loop(handlers, PlayersTape(players, rest));
    NoShutdowns(Flat(bodies));
    WholeSection(bodies, after);
    var e := AllOf(bodies, after);
    assert Running(Event, Loop(bodies, after)) == e;
    WholeFarewell(handlers, players, rest);
    var t := Did(s, e);
    DidNested(s, e);
    assert Served(s, Event, Loop(bodies, after)) == ShutDown(t, after);
    RemovedHeap(t.(deferred := false), AllOf(handlers + AllHandlers(players), rest));
    assert t.heap - {s.runtime} == s.heap - {s.runtime};
  }

  lemma RemovedHeap(s: Snapshot, e: Effect)
    requires s.runtime in s.heap
    ensures Removed(Did(s, e)) == s.(heap := s.heap - {s.runtime}, runtime := NULL, deferred := false,
                                     finished := s.finished + [s.runtime],
                                     accepted := s.accepted + e.shutdowns, started := s.started + e.started)
  {
    assert Did(s, e).heap - {s.runtime} == s.heap - {s.runtime};
  }

  // ---------------------------------------------------------------- a reload

  /** Callbacks that arrive while the old runtime goes. */
  function Window(callbacks: seq<Callback>): seq<Act> {
    seq(|callbacks|, i requires 0 <= i < |callbacks| => Server(callbacks[i]))
  }

  function CountShutdowns(callbacks: seq<Callback>): nat {
    if callbacks == [] then 0 else (if callbacks[0].Shutdown? then 1 else 0) + CountShutdowns(callbacks[1..])
  }

  lemma {:induction false} WindowPasses(callbacks: seq<Callback>, rest: seq<Act>)
    requires rest != [] ==> !rest[0].Server?
    ensures AfterWindow(Window(callbacks) + rest) == rest
    ensures ShutdownsInWindow(Window(callbacks) + rest) == CountShutdowns(callbacks)
    decreases |callbacks|
  {
    if callbacks == [] {
      assert Window(callbacks) + rest == rest;
    } else {
      assert (Window(callbacks) + rest)[1..] == Window(callbacks[1..]) + rest;
      WindowPasses(callbacks[1..], rest);
    }
  }

  /**
    A frame at whose end a reload was asked for: a new runtime takes the place of the old one,
    which is freed, and runs the scripts and their onServerInit handlers.  What arrives in between
    reaches nobody: the shutdowns among it are lost.
   */
  lemma {:induction false} ReloadRuns(s: Snapshot, bodies: seq<seq<Act>>, copas: seq<Act>, callbacks: seq<Callback>,
                                      scripts: seq<seq<Act>>, handlers: seq<seq<Act>>, rest: seq<Act>)
    requires Ready(s) && AllPlain(bodies) && Plain(copas) && AllPlain(scripts) && AllPlain(handlers)
    requires var asks := Flat([copas] + bodies); Server(Shutdown) !in asks && (Reload in asks || s.heap[s.runtime].reloadRequested)
    requires Server(Shutdown) !in Flat(scripts + handlers)
    ensures var load := Loop(scripts, Loop(handlers, rest));
            var built := FRESH.(reloadRequested := Reload in Flat(scripts + handlers));
            Served(s, Frame, FrameTape([], [], copas, bodies, Window(callbacks) + load))
            == Ran(s.(heap := (s.heap - {s.runtime})[s.next := built], runtime := s.next, next := s.next + 1,
                      ignored := s.ignored + CountShutdowns(callbacks),
                      started := s.started + 1 + |bodies| + |scripts| + |handlers|), rest)
  {
    var load := Loop(scripts, Loop(handlers, rest));
    var window := Window(callbacks) + load;
    LoadStarts(scripts, Loop(handlers, rest));
    WindowPasses(callbacks, load);
    assert window != [] && !window[0].BuildFails? && !window[0].HookFails?;
    FrameRuns(s, bodies, copas, window);
    var e := AllOf([copas] + bodies, window);
    var t := Did(s, e);
    DidNested(s, e);
    assert t.heap - {s.runtime} == s.heap - {s.runtime};
    ReloadEnds(t, window, callbacks, scripts, handlers, rest);
  }

  /** A frame in which nobody sends a shutdown, up to its end. */
  lemma {:induction false} FrameRuns(s: Snapshot, bodies: seq<seq<Act>>, copas: seq<Act>, rest: seq<Act>)
    requires Ready(s) && AllPlain(bodies) && Plain(copas) && Server(Shutdown) !in Flat([copas] + bodies)
    ensures var t := Did(s, AllOf([copas] + bodies, rest));
            !t.deferred && Served(s, Frame, FrameTape([], [], copas, bodies, rest)) == FrameEnds(t, rest)
  {
    var tape := FrameTape([], [], copas, bodies, rest);
    WholeFrame([], [], copas, bodies, rest);
    assert [] + [] + [copas] + bodies == [copas] + bodies;
    NoShutdowns(Flat([copas] + bodies));
    FrameGoes(s, tape, AllOf([copas] + bodies, rest));
  }

  lemma FrameGoes(s: Snapshot, tape: seq<Act>, e: Effect)
    requires Ready(s) && InFrame(tape) == e && e.shutdowns == 0
    ensures !Did(s, e).deferred && Served(s, Frame, tape) == FrameEnds(Did(s, e), e.rest)
  {
    assert Running(Frame, tape) == e;
  }

  lemma {:induction false} LoadStarts(scripts: seq<seq<Act>>, rest: seq<Act>)
    ensures Loop(scripts, rest) != [] && (Loop(scripts, rest)[0].More? || Loop(scripts, rest)[0].Done?)
  {
    if scripts != [] { WrittenFirst(scripts, [Done] + rest); }
  }

  lemma {:induction false} ReloadEnds(t: Snapshot, window: seq<Act>, callbacks: seq<Callback>, scripts: seq<seq<Act>>,
                                      handlers: seq<seq<Act>>, rest: seq<Act>)
    requires Inv(t) && ReloadsNow(t) && AllPlain(scripts) && AllPlain(handlers)
    requires Server(Shutdown) !in Flat(scripts + handlers)
    requires window != [] && !window[0].BuildFails? && !window[0].HookFails?
    requires AfterWindow(window) == Loop(scripts, Loop(handlers, rest)) && ShutdownsInWindow(window) == CountShutdowns(callbacks)
    ensures var built := FRESH.(reloadRequested := Reload in Flat(scripts + handlers));
            FrameEnds(t, window)
            == Ran(t.(heap := (t.heap - {t.runtime})[t.next := built], runtime := t.next, next := t.next + 1,
                      ignored := t.ignored + CountShutdowns(callbacks),
                      started := t.started + |scripts| + |handlers|), rest)
  {
    WholeLoad(scripts, handlers, rest);
    NoShutdowns(Flat(scripts + handlers));
    var e := AllOf(scripts + handlers, rest);
    var u := Replaced(t.(ignored := t.ignored + ShutdownsInWindow(window)));
    assert Reloaded(t, window) == Ran(Did(u, e), rest);
    assert (t.heap - {t.runtime})[t.next := FRESH][t.next := u.heap[t.next].(reloadRequested := e.asked)]
        == (t.heap - {t.runtime})[t.next := FRESH.(reloadRequested := e.asked)];
  }

  /**
    A reload that fails, because the new runtime cannot be built or its configuration is refused,
    takes away the request and nothing else.
   */
  lemma {:induction false} ReloadFails(s: Snapshot, bodies: seq<seq<Act>>, copas: seq<Act>, fails: Act, rest: seq<Act>)
    requires Ready(s) && AllPlain(bodies) && Plain(copas) && (fails.BuildFails? || fails.HookFails?)
    requires var asks := Flat([copas] + bodies); Server(Shutdown) !in asks && (Reload in asks || s.heap[s.runtime].reloadRequested)
    ensures Served(s, Frame, FrameTape([], [], copas, bodies, [fails] + rest))
            == Ran(s.(heap := s.heap[s.runtime := s.heap[s.runtime].(reloadRequested := false)],
                      next := s.next + (if fails.HookFails? then 1 else 0), started := s.started + 1 + |bodies|), rest)
  {
    var left := [fails] + rest;
    FrameRuns(s, bodies, copas, left);
    var t := Did(s, AllOf([copas] + bodies, left));
    DidNested(s, AllOf([copas] + bodies, left));
    assert left[0] == fails && left[1..] == rest;
    assert Unasked(t).heap == s.heap[s.runtime := s.heap[s.runtime].(reloadRequested := false)];
    assert ReloadsNow(t) && FrameEnds(t, left) == Reloaded(t, left);
  }

  /**
    The one way to lose a shutdown: it arrives while a reload has taken the old runtime out of
    the plugin, so the new runtime starts as if nothing had happened.  Here the Copas step of the
    first frame asks for a reload, and the server shuts down while the old runtime's entities go.
   */
  lemma {:induction false} ShutdownLostInReload()
    ensures var tape := FrameTape([], [], [Reload], [], Window([Shutdown]) + Loop([], Loop([], [])));
            var t := Lived(Begun(EMPTY, false), [Server(Frame)] + tape);
            t.runtime != NULL && t.ignored == 1 && t.accepted == 0 && t.finished == []
  {
    var s := Begun(EMPTY, false);
    assert [[Reload]][1..] == [] && Flat([[Reload]]) == [Reload] + [] == [Reload];
    var empty: seq<seq<Act>> := [];
    assert empty + empty == empty && Flat(empty + empty) == [];
    assert [[Reload]] + empty == [[Reload]];
    ReloadRuns(s, empty, [Reload], [Shutdown], empty, empty, []);
    assert [Shutdown][1..] == [];
    var tape := FrameTape(empty, empty, [Reload], empty, Window([Shutdown]) + Loop(empty, Loop(empty, [])));
    FirstServed(s, Frame, tape);
  }

  lemma {:induction false} FirstServed(s: Snapshot, callback: Callback, tape: seq<Act>)
    ensures var r := Served(s, callback, tape); Lived(s, [Server(callback)] + tape) == Lived(r.s, r.rest)
  {
    assert ([Server(callback)] + tape)[1..] == tape;
  }

  // ---------------------------------------------------------------- lives in which nothing is done

  /** What the loops of a callback read when nothing is called. */
  function Empty(callback: Callback): seq<Act> {
    match callback
    case Initialise => [Done] + [Done]
    case Frame => [Done] + ([Done] + ([Return] + [Done]))
    case Shutdown => [Done] + [Done]
    case Event => [Done]
  }

  function Quietly(callbacks: seq<Callback>): seq<Act> {
    if callbacks == [] then [] else [Server(callbacks[0])] + (Empty(callbacks[0]) + Quietly(callbacks[1..]))
  }

  lemma {:induction false} Skips(s: Snapshot, tape: seq<Act>, rest: seq<Act>)
    requires forall a <- tape :: !a.Server?
    ensures Lived(s, tape + rest) == Lived(s, rest)
    decreases |tape|
  {
    if tape == [] {
      assert tape + rest == rest;
    } else {
      assert tape[0] in tape && (tape + rest)[1..] == tape[1..] + rest && forall a <- tape[1..] :: a in tape;
      Skips(s, tape[1..], rest);
    }
  }

  /** A runtime that nobody has asked to reload. */
  predicate Calm(s: Snapshot) {
    s.runtime == NULL || (Ready(s) && !s.heap[s.runtime].reloadRequested)
  }

  /** The frames, in which the Copas step is called. */
  function Frames(callbacks: seq<Callback>): nat {
    if callbacks == [] then 0 else (if callbacks[0].Frame? then 1 else 0) + Frames(callbacks[1..])
  }

  lemma {:induction false} QuietServed(s: Snapshot, callback: Callback, rest: seq<Act>)
    requires Calm(s) && s.runtime != NULL && !callback.Shutdown?
    ensures Served(s, callback, Empty(callback) + rest) == Ran(s.(started := s.started + Frames([callback])), rest)
  {
    var none: seq<seq<Act>> := [];
    assert Flat(none) == [] && Frames([callback][1..]) == 0;
    if callback.Frame? {
      QuietFrame(s, rest);
    } else {
      if callback.Initialise? {
        WholeLoad(none, none, rest);
        assert Empty(callback) + rest == Loop(none, Loop(none, rest)) && none + none == none;
      } else {
        WholeSection(none, rest);
        assert Empty(callback) + rest == Loop(none, rest);
      }
      DidNothing(s, rest);
      assert Running(callback, Empty(callback) + rest) == Nothing(false, rest);
    }
  }

  lemma {:induction false} QuietFrame(s: Snapshot, rest: seq<Act>)
    requires Calm(s) && s.runtime != NULL
    ensures Served(s, Frame, Empty(Frame) + rest) == Ran(s.(started := s.started + 1), rest)
  {
    var none: seq<seq<Act>> := [];
    OneOf([], rest);
    assert [[]] + none == [[]] && Flat([[]] + none) == [];
    assert Empty(Frame) + rest == FrameTape(none, none, [], none, rest);
    FrameRuns(s, none, [], rest);
    DidNothing(s, rest);
    assert Did(s, AllOf([[]], rest)) == s.(started := s.started + 1);
  }

  lemma {:induction false} QuietShutdown(s: Snapshot, rest: seq<Act>)
    requires Calm(s) && s.runtime != NULL
    ensures Served(s, Shutdown, Empty(Shutdown) + rest)
            == Ran(s.(heap := s.heap - {s.runtime}, runtime := NULL, finished := s.finished + [s.runtime],
                      accepted := s.accepted + 1), rest)
  {
    var none: seq<seq<Act>> := [];
    WholeFarewell(none, [], rest);
    assert Empty(Shutdown) + rest == Loop(none, PlayersTape([], rest)) && none + AllHandlers([]) == none && Flat(none) == [];
    RemovedHeap(s.(accepted := s.accepted + 1, deferred := false), AllOf(none, rest));
  }

  /** How many shutdowns arrived from `s` to `t`, what became of them, and that nothing else happened but frames. */
  predicate Passed(s: Snapshot, t: Snapshot, callbacks: seq<Callback>) {
    && (t.runtime == NULL <==> s.runtime == NULL || Shutdown in callbacks)
    && t.accepted == s.accepted + (if s.runtime != NULL && Shutdown in callbacks then 1 else 0)
    && t.accepted + t.ignored == s.accepted + s.ignored + CountShutdowns(callbacks)
    && (s.runtime != NULL && Shutdown !in callbacks ==> t == s.(started := s.started + Frames(callbacks)))
  }

  lemma {:induction false} QuietStep(s: Snapshot, first: Callback, rest: seq<Act>)
    requires Calm(s)
    ensures var tape := Empty(first) + rest;
            var t := Served(s, first, tape).s;
            && Calm(t) && Passed(s, t, [first]) && Lived(s, [Server(first)] + tape) == Lived(t, rest)
  {
    var tape := Empty(first) + rest;
    FirstServed(s, first, tape);
    assert [first][1..] == [];
    if s.runtime == NULL {
      Skips(Served(s, first, tape).s, Empty(first), rest);
      assert Served(s, first, tape) == Ran(s.(ignored := s.ignored + if first.Shutdown? then 1 else 0), tape);
    } else if first.Shutdown? {
      QuietShutdown(s, rest);
    } else {
      QuietServed(s, first, rest);
    }
  }

  lemma PassedThen(s: Snapshot, t: Snapshot, u: Snapshot, callbacks: seq<Callback>)
    requires callbacks != [] && Passed(s, t, [callbacks[0]]) && Passed(t, u, callbacks[1..])
    ensures Passed(s, u, callbacks)
  {
    assert callbacks == [callbacks[0]] + callbacks[1..];
    var one := [callbacks[0]];
    assert one[1..] == [] && CountShutdowns([]) == 0 && Frames([]) == 0;
    assert CountShutdowns(callbacks) == CountShutdowns(one) + CountShutdowns(callbacks[1..]);
    assert Frames(callbacks) == Frames(one) + Frames(callbacks[1..]);
  }

  /**
    A life in which no function does anything: the first shutdown ends the runtime, every later
    one is ignored, and until then every frame is a call of the Copas step and nothing else.
   */
  lemma {:induction false} QuietLife(s: Snapshot, callbacks: seq<Callback>)
    requires Calm(s)
    ensures Passed(s, Lived(s, Quietly(callbacks)), callbacks)
    decreases |callbacks|
  {
    if callbacks != [] {
      var rest := Quietly(callbacks[1..]);
      var t := Served(s, callbacks[0], Empty(callbacks[0]) + rest).s;
      QuietStep(s, callbacks[0], rest);
      QuietLife(t, callbacks[1..]);
      PassedThen(s, t, Lived(t, rest), callbacks);
    }
  }
}
