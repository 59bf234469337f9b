/**
  What the server, the scripts and the plugin do to each other, as functions of the plugin's state
  (src/plugin/callbacks.cpp, src/runtime/runtime.cpp, src/core/invoker.hpp).

  Every server callback may arrive inside a call into Lua, because Lua calls server functions
  that report back at once.  Lua code and the server are read off a tape, so what is proved for
  every tape holds for every nesting of callbacks, shutdowns, reloads, exceptions and panics.
 */
module PluginWorld {

  datatype Act =
    | Server(callback: Callback)   // a server callback arrives now
    | Reload                       // Server.reload()
    | More                         // the current loop calls one more function, script or handler
    | Done                         // the current loop is over
    | BuildFails                   // the new runtime's constructor throws
    | HookFails                    // the new runtime is built, then its configuration is refused
    | Return                       // the Lua function returns or raises an error
    | Throw                        // a C++ exception leaves the call
    | Panic                        // a Lua error outside a protected call

  datatype Callback = Initialise | Frame | Shutdown | Event

  datatype Runtime = Runtime(lua: bool, depth: nat, closing: bool, dead: bool, reloadRequested: bool)

  const FRESH := Runtime(true, 0, false, false, false)

  /** Runtime::Shutdown: nothing during a call into Lua, otherwise the Lua state is gone for good. */
  function AfterShutdown(r: Runtime): Runtime {
    if !r.lua || r.depth > 0 then r else r.(closing := true, lua := false)
  }

  /** The address of no runtime. */
  const NULL: nat := 0

  /** The plugin's state, with the history the theorems speak of. */
  datatype Snapshot = Snapshot(
    heap: map<nat, Runtime>,
    runtime: nat,
    deferred: bool,      // shutdown_deferred
    next: nat,           // the next free address
    started: nat,        // the Lua functions, scripts and handlers that were started
    accepted: nat,       // shutdowns that arrived while a runtime was installed
    ignored: nat,        // shutdowns that arrived while there was none
    finished: seq<nat>,  // the runtimes FinishShutdown has completed for
    bugs: nat)           // how often Runtime::Shutdown was entered during a call into Lua

  const EMPTY := Snapshot(map[], NULL, false, 1, 0, 0, 0, [], 0)

  /** plugin::Init: the first runtime.  It may fail; then the plugin has none. */
  function Begun(s: Snapshot, fails: bool): Snapshot {
    if fails then s.(deferred := false)
    else s.(heap := s.heap[s.next := FRESH], runtime := s.next, deferred := false, next := s.next + 1)
  }

  predicate Idle(s: Snapshot)
    requires s.runtime in s.heap
  {
    s.heap[s.runtime].depth == 0
  }

  /** There is a runtime, and no call into Lua is active. */
  predicate Resting(s: Snapshot) {
    s.runtime != NULL && s.runtime in s.heap && Idle(s)
  }

  predicate Inv(s: Snapshot) {
    && (s.runtime != NULL ==>
          s.runtime in s.heap && s.heap[s.runtime].lua && !s.heap[s.runtime].closing)
    && NULL < s.next && (forall r <- s.heap :: NULL < r < s.next)
    && (forall r <- s.finished :: r < s.next && r !in s.heap)
    && (forall i, j :: 0 <= i < j < |s.finished| ==> s.finished[i] != s.finished[j])
  }

  // ---------------------------------------------------------------- inside a call into Lua

  /** What code inside a call did: only this, and `dead` says whether there has been a panic. */
  datatype Effect = Effect(started: nat, asked: bool, shutdowns: nat, dead: bool, threw: bool, rest: seq<Act>)

  function Nothing(dead: bool, tape: seq<Act>): Effect {
    Effect(0, false, 0, dead, false, tape)
  }

  /** `e` after `first`. */
  function Then(first: Effect, e: Effect): Effect {
    e.(started := first.started + e.started, asked := first.asked || e.asked, shutdowns := first.shutdowns + e.shutdowns)
  }

  predicate Fits(e: Effect, dead: bool, tape: seq<Act>) {
    |e.rest| <= |tape| && (dead ==> e.dead)
  }

  predicate Ends(act: Act) {
    act.Return? || act.Throw? || act.Panic?
  }

  /** A Lua function, up to the action that ends it; after a panic it can ask for nothing. */
  function Lua(dead: bool, tape: seq<Act>): (e: Effect)
    ensures Fits(e, dead, tape)
    decreases |tape|, 0
  {
    if tape == [] then Nothing(dead, [])
    else if Ends(tape[0]) then Effect(0, false, 0, dead || tape[0].Panic?, !tape[0].Return?, tape[1..])
    else if tape[0].Reload? then var e := Lua(dead, tape[1..]); e.(asked := !dead || e.asked)
    else if tape[0].Server? then
      var c := Within(dead, tape[0].callback, tape[1..]);
      Then(c, Lua(c.dead, c.rest))
    else Lua(dead, tape[1..])
  }

  /** Invoker::Call: nothing at all once the runtime is dead. */
  function Calling(dead: bool, tape: seq<Act>): (e: Effect)
    ensures Fits(e, dead, tape)
    decreases |tape|, 1
  {
    if dead then Nothing(true, tape) else var e := Lua(false, tape); e.(started := 1 + e.started)
  }

  /** A dispatch, a timer tick or an HTTP pump: calls until the loop is over or a call throws. */
  function Section(dead: bool, tape: seq<Act>): (e: Effect)
    ensures Fits(e, dead, tape)
    decreases |tape|, 2
  {
    if tape != [] && tape[0].More? then
      var c := Calling(dead, tape[1..]);
      if c.threw then c else Then(c, Section(c.dead, c.rest))
    else Nothing(dead, OverDone(tape))
  }

  /** Past the mark that ends a loop. */
  function OverDone(tape: seq<Act>): (rest: seq<Act>)
    ensures |rest| <= |tape|
  {
    if tape != [] && tape[0].Done? then tape[1..] else tape
  }

  /** `e`, and then `f` of what it left, unless it threw or the runtime is dead. */
  predicate GoesOn(e: Effect) {
    !e.threw && !e.dead
  }

  /** The scripts one by one, and then onServerInit. */
  function Loading(tape: seq<Act>): (e: Effect)
    ensures Fits(e, false, tape)
    decreases |tape|, 3
  {
    if tape != [] && tape[0].More? then
      var c := Calling(false, tape[1..]);
      if GoesOn(c) then Then(c, Loading(c.rest)) else c
    else Section(false, OverDone(tape))
  }

  /** Timers, HTTP, one Copas step, and then onServerFrame. */
  function InFrame(tape: seq<Act>): (e: Effect)
    ensures Fits(e, false, tape)
    decreases |tape|, 3
  {
    var timers := Section(false, tape);
    if timers.threw then timers
    else
      var http := Then(timers, Section(timers.dead, timers.rest));
      if http.threw then http
      else
        var copas := Then(http, Calling(http.dead, http.rest));
        if GoesOn(copas) then Then(copas, Section(false, copas.rest)) else copas
  }

  /** onServerShutdown, and then one disconnect event for each player. */
  function Goodbyes(tape: seq<Act>): (e: Effect)
    ensures Fits(e, false, tape)
  {
    var e := Section(false, tape);
    if GoesOn(e) then Then(e, Players(e.rest)) else e
  }

  function Players(tape: seq<Act>): (e: Effect)
    ensures Fits(e, false, tape)
    decreases |tape|
  {
    if tape != [] && tape[0].More? then
      var e := Section(false, tape[1..]);
      if GoesOn(e) then Then(e, Players(e.rest)) else e
    else Nothing(false, OverDone(tape))
  }

  /** A callback that arrives inside a call into Lua; an exception is logged. */
  function Within(dead: bool, callback: Callback, tape: seq<Act>): (e: Effect)
    ensures Fits(e, dead, tape) && !e.threw
    decreases |tape|, 5
  {
    if callback.Shutdown? then Effect(0, false, 1, dead, false, tape)
    else if dead then Nothing(true, tape)
    else Running(callback, tape).(threw := false)
  }

  /** The scripts' part of a callback. */
  function Running(callback: Callback, tape: seq<Act>): (e: Effect)
    ensures Fits(e, false, tape)
    decreases |tape|, 4
  {
    match callback
    case Initialise => Loading(tape)
    case Frame => InFrame(tape)
    case Shutdown => Nothing(false, tape)
    case Event => Section(false, tape)
  }

  /** The plugin after code with this effect. */
  function Did(s: Snapshot, e: Effect): Snapshot {
    if s.runtime !in s.heap then s
    else
      var r := s.heap[s.runtime];
      s.(heap := s.heap[s.runtime := r.(dead := e.dead, reloadRequested := r.reloadRequested || e.asked)],
         deferred := s.deferred || e.shutdowns > 0,
         accepted := s.accepted + e.shutdowns, started := s.started + e.started)
  }

  predicate Dead(s: Snapshot) {
    s.runtime in s.heap && s.heap[s.runtime].dead
  }

  // ---------------------------------------------------------------- the callbacks

  /** The state after something, and the tape that is left. */
  datatype Ran = Ran(s: Snapshot, rest: seq<Act>)

  /** The callbacks that arrive while a reload has taken the old runtime out of the plugin. */
  function AfterWindow(tape: seq<Act>): (rest: seq<Act>)
    ensures |rest| <= |tape|
  {
    if tape != [] && tape[0].Server? then AfterWindow(tape[1..]) else tape
  }

  function ShutdownsInWindow(tape: seq<Act>): nat {
    if tape != [] && tape[0].Server?
    then (if tape[0].callback.Shutdown? then 1 else 0) + ShutdownsInWindow(tape[1..])
    else 0
  }

  /** The installed runtime is taken out of the plugin, shut down and deleted. */
  function Removed(s: Snapshot): Snapshot {
    s.(heap := s.heap - {s.runtime}, runtime := NULL, deferred := false, finished := s.finished + [s.runtime])
  }

  /** FinishShutdown of an installed runtime. */
  function ShutDown(s: Snapshot, tape: seq<Act>): (r: Ran)
    ensures |r.rest| <= |tape|
  {
    var e := if Dead(s) then Nothing(true, tape) else Goodbyes(tape);
    Ran(Removed(Did(s.(deferred := false), e)), e.rest)
  }

  /** AfterCallback: a pending shutdown happens as soon as no call into Lua is active. */
  function Settle(s: Snapshot, tape: seq<Act>): (r: Ran)
    ensures |r.rest| <= |tape|
  {
    if s.deferred && Resting(s) then ShutDown(s, tape) else Ran(s, tape)
  }

  predicate ReloadsNow(s: Snapshot) {
    Resting(s) && !s.deferred && !s.heap[s.runtime].dead && s.heap[s.runtime].reloadRequested
  }

  function Unasked(s: Snapshot): Snapshot {
    if s.runtime in s.heap then s.(heap := s.heap[s.runtime := s.heap[s.runtime].(reloadRequested := false)]) else s
  }

  /** A new runtime takes the place of the installed one. */
  function Replaced(s: Snapshot): Snapshot {
    s.(heap := (s.heap - {s.runtime})[s.next := FRESH], runtime := s.next, next := s.next + 1)
  }

  /** Reload: if the new runtime cannot be built only the request is gone. */
  function Reloaded(s: Snapshot, tape: seq<Act>): (r: Ran)
    ensures |r.rest| <= |tape|
  {
    if tape != [] && tape[0].BuildFails? then Ran(Unasked(s), tape[1..])
    else if tape != [] && tape[0].HookFails? then Ran(Unasked(s).(next := s.next + 1), tape[1..])
    else
      var e := Loading(AfterWindow(tape));
      Ran(Did(Replaced(s.(ignored := s.ignored + ShutdownsInWindow(tape))), e), e.rest)
  }

  /** The end of a frame. */
  function FrameEnds(s: Snapshot, tape: seq<Act>): (r: Ran)
    ensures |r.rest| <= |tape|
  {
    if ReloadsNow(s) then var r := Reloaded(s, tape); Settle(r.s, r.rest) else Settle(s, tape)
  }

  /** A callback of the server, nested or not. */
  function Served(s: Snapshot, callback: Callback, tape: seq<Act>): (r: Ran)
    ensures |r.rest| <= |tape|
  {
    if callback.Shutdown? then
      if s.runtime == NULL then Ran(s.(ignored := s.ignored + 1), tape)
      else
        var t := s.(accepted := s.accepted + 1);
        if Resting(s) then ShutDown(t, tape) else Ran(t.(deferred := true), tape)
    else
      var e := if s.runtime == NULL || Dead(s) then Nothing(true, tape) else Running(callback, tape);
      var r := Settle(if s.runtime == NULL then s else Did(s, e), e.rest);
      if callback.Frame? then FrameEnds(r.s, r.rest) else r
  }

  /** A whole life of the plugin; what is not a callback of the server is of no use outside the calls. */
  function Lived(s: Snapshot, tape: seq<Act>): Snapshot
    decreases |tape|
  {
    if tape == [] then s
    else if tape[0].Server? then var r := Served(s, tape[0].callback, tape[1..]); Lived(r.s, r.rest)
    else Lived(s, tape[1..])
  }
}
