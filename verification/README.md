# A verified model of the VCMP-Lua runtime

VCMP-Lua runs Lua scripts inside a game server. It is single-threaded, but every call into Lua
can call the server, and the server calls the plugin again before the first call returns. This
project models the parts that have to survive that nesting and proves what they promise, for
every script and every behaviour of the server.

## How the model is built

- **Scripts are tapes.** A Lua function is an arbitrary sequence of actions (bind, unbind,
  cancel, trigger, create, kick, start a request, raise, panic, ...) read off a tape. A nested
  call reads on from the same tape, so a statement about every tape is a statement about every
  script and every nesting of callbacks.
- **State that the source changes in place is a class**, with one method for each operation.
  The methods are proved against values: a simpler machine that the fields stand for
  (`SimpleBus`, `SimpleTimers`, `EntityWorld`, `PluginWorld`), or a snapshot with the history the
  theorems speak of.
- **What a script does is said of its actions alone.** Beside what holds of every tape there are
  laws for tapes that are written out: which handlers are called and what they bind, cancel, ask
  for or start (`BusScripts`, `SimpleTimers`, `HttpRuns`, `PluginRuns`, `EntityRuns`). They do not
  mention the functions that run a tape except to say what comes out.
- **A freed runtime cannot be read.** In `Lifecycle` the runtimes are a map from addresses, so
  each use of a runtime is a proof that it was still there.

| file | models |
|---|---|
| `SimpleBus.dfy`, `BusScripts.dfy`, `EventBus.dfy` | `src/core/event_bus.{hpp,cpp}`: nested dispatch, what handlers do to it, tombstones, cancel flags |
| `PluginWorld.dfy`, `Lifecycle.dfy`, `PluginRuns.dfy` | `src/plugin/callbacks.cpp`, `src/runtime/runtime.cpp`, `src/core/invoker.hpp`: deferred shutdown and reload |
| `SimpleTimers.dfy`, `Scheduler.dfy` | `src/core/scheduler.{hpp,cpp}` |
| `EntityPool.dfy` | `src/core/entity_pool.{hpp,cpp}`: slots, generations, handles |
| `EntityPools.dfy` | the pools of all kinds: start-up, reload, shutdown |
| `EntityWorld.dfy`, `EntityLaws.dfy`, `EntityTraffic.dfy`, `EntityRuns.dfy` | the pools next to the server as functions, what holds of every run, who comes and goes, and the runs that go right and wrong |
| `EntityView.dfy`, `Entities.dfy` | the real pools and the server at work: `src/plugin/callbacks.cpp`, `src/bindings/entity_type.hpp`, `src/bindings/server.cpp` |
| `Teardown.dfy` | `Runtime::Shutdown` with all its parts, and what a reload leaves |
| `Http.dfy`, `HttpRuns.dfy` | the bookkeeping of `src/modules/http.cpp`, and whole runs of it |
| `SqlText.dfy`, `SqlFormat.dfy`, `SqlFormatter.dfy` | `lua/sql.lua` |
| `Stream.dfy` | `src/bindings/stream.{hpp,cpp}` |
| `CommandSplitter.dfy` | the word loop of `OnPlayerCommand` |
| `Wrappers.dfy` | what the others share |

`dafny verify dfyconfig.toml` checks all of it.

## Where the code does not do what one would like

Each of these is kept as the code has it, with a run that shows it and the exact condition.

- A shutdown that arrives while a reload has taken the old runtime out of the plugin is lost:
  the new runtime starts as if nothing had happened. `PluginRuns.ShutdownLostInReload` is a run
  in which that happens. `Lifecycle.Serve` proves that the runtime is gone if and only if a
  shutdown arrived while one was installed, and `PluginRuns.ReloadRuns` that exactly the shutdowns
  of the reload window are ignored.
- Pool and server agree on every id to which nothing is done inside a call about it, over every
  run (`EntityLaws.Untouched`, `Entities.Serve`). They come to disagree when an entity is adopted
  that is gone (deleted inside its own "created" event, `EntityRuns.DeletedInItsCreation`, or
  before we hear of it, `EntityRuns.HeardTooLate`) or about to go (an event about it after our
  "deleted" or disconnect event, `EntityRuns.SeenAfterItsEvent`), and when a blip is released
  although its id was given out again (`EntityRuns.BlipCreatedInItsDeletion`). The steps at which
  it happens have exact conditions (`EntityRuns.MadeDecides`, `ToldDecides`, `RemovedDecides`,
  `DroppedDecides`), and they disagree if and only if one of these is on record for the id.
- The mark of what a runtime created is wrong after the same runs: a reload deletes another
  plugin's entity (`EntityRuns.AnothersEntityMarked`) or leaves our own
  (`EntityRuns.BlipCreatedInItsDeletion`), although `docs/api/entities.md:46-47` promises that the
  entities of other plugins stay. It is right for every id nobody meddled with;
  `EntityLaws.Ownership` gives the exact condition for the others, and `Teardown.Reload` what it
  means for a reload.
- A player kicked inside its own disconnect event is announced twice
  (`EntityRuns.AnnouncedTwice`), and a lifetime that begins in between ends without an
  announcement (`EntityRuns.EndedSilently`). `Entities.Serve` proves that no lifetime is announced
  twice if and only if no handler does that, and that none ends silently otherwise.
- A player about whom an event is reported after its farewell in the shutdown loop is adopted
  again, in a lifetime that is never announced (`EntityRuns.SeenAfterItsFarewell`).
  `Entities.ServeUntilShutdown` proves that exactly those players are alive after the loop.
- A handle comes back to life after exactly 2^32 lifetimes of its slot
  (`EntityPool.WrapRevives`, `EntityPool.DeadHandle`).
- `sql.format` does not keep the structure of a template in which a string touches a single
  quote (`SqlFormat.StringAfterQuote`) or a negative number follows a dash
  (`SqlFormat.NegativeAfterDash`).
  `SqlFormat.FormatKeepsStructure` and `SqlFormat.SafeForAllValues` give the exact conditions.
- A comment in `src/runtime/runtime.cpp:244-245` says that the deletions of a reload update the
  pools. They do not: `src/plugin/callbacks.cpp:122-125` has taken the runtime out of the plugin
  by then, so nobody sees the events. The model follows the code.

## Assumptions

- One thread. Lua runs only inside calls that the invoker counts; a finalizer that the garbage
  collector runs while C++ builds arguments outside such a call is not modelled.
- No memory exhaustion. A C++ exception that leaves a call is modelled for dispatches, the
  lifecycle and HTTP callbacks, not for timers and not in `Entities`: one that leaves the dispatch
  of a disconnect event skips the release at `src/plugin/callbacks.cpp:209-212`.
- A tick of the timers is not entered again from a timer's callback.
- Ids that are 64 bits wide do not wrap, and the address of a deleted runtime is not compared
  with later ones. Entity generations wrap at 2^32, as in the source.
- The clock does not go back. The server follows `docs/internals.md`: an entity exists during
  its "created" event, everything but a blip exists during its "deleted" event
  (`docs/internals.md:46-55`), a player is connected during its disconnect event, and each event
  goes to every plugin in turn, first to the one that made the call. No event but these carries a
  blip, and nobody connects inside another event.
- While a reload deletes the entities of the old runtime, no other plugin creates or deletes any.
- In `Entities` one runtime is usable throughout; what reload, shutdown and panic do to a
  runtime is the subject of `Lifecycle` and `Teardown`, which share one view of its state.
- libcurl reports a transfer as finished only while it has it.
- A numeral with a fraction or an exponent is opaque text made of digits, `+`, `-`, `.` and `e`.

## Model

| member | source | states |
|---|---|---|
| `SimpleBus.DispatchMeaning` | src/core/event_bus.hpp:113-138 | Whatever the handlers do, a dispatch calls only bindings present at its start, in bind order, each at most once; every binding it left out was unbound, or comes after the call that cancelled the event or threw |
| `SimpleBus.CalledAtItsTurn` | src/core/event_bus.hpp:126-136 | A binding is called if and only if the dispatch reaches its turn and it is still bound at that moment |
| `SimpleBus.DispatchConcat` | src/core/event_bus.hpp:126-137 | A dispatch over two lists is the dispatch over the first and then, unless stopped, over the second from the state reached |
| `SimpleBus.DispatchFromMeaning` | src/core/event_bus.hpp:126-137 | The same meaning for the rest of a dispatch, from any state nested handlers may have left |
| `SimpleBus.RunLuaFollows` | src/core/event_bus.cpp:60-91 | Over any script, nested dispatches included, what was unbound stays unbound and new binds have new identities |
| `SimpleBus.RemoveFirstKeepsOrder` | src/core/event_bus.cpp:71-84 | Unbinding keeps the bind order of the others, and no function is bound twice |
| `SimpleBus.RemoveFirstMembers` | src/core/event_bus.cpp:71-84 | Unbinding takes out the binding of that function and no other |
| `BusScripts.CancelIsOwn` | src/core/event_bus.cpp:86-91 | Whatever is nested in it, a handler cancels its event if and only if it calls Event.cancel itself, and throws if and only if it ends by an exception itself |
| `BusScripts.PlainRun` | src/core/event_bus.cpp:60-91 | A function that triggers nothing does its actions in order, and cancels if and only if Event.cancel is one of them |
| `BusScripts.PlainBinds` | src/core/event_bus.cpp:60-84 | Afterwards a function is bound to an event if and only if the last bind or unbind of the two was a bind, or there was none and it was bound before |
| `BusScripts.FirstHandler` | src/core/event_bus.hpp:126-137 | The first handler of a list: an exception or a cancel ends the dispatch with that one call, otherwise it goes on with the others |
| `BusScripts.CancelStops` | src/core/event_bus.hpp:132-137 | If the first handler calls Event.cancel and returns, the dispatch is cancelled and that handler is the only one called |
| `BusScripts.NeverCancelled` | src/core/event_bus.hpp:132-137 | Where nobody calls Event.cancel nothing is cancelled |
| `BusScripts.WholeDispatch` | src/core/event_bus.hpp:117-138 | Handlers that trigger and unbind nothing are all called, in order, up to the first that cancels; the dispatch is cancelled if and only if one does |
| `BusScripts.NestedDispatch` | src/core/event_bus.hpp:117-138 | An event triggered inside a handler runs its handler at once; that its dispatch is cancelled or throws does not count for the outer one |
| `TombstoneBus.BusIsOrdered` | src/core/event_bus.cpp:60-69 | Every valid bus stands for an ordered simple bus, so the theorems above hold of it |
| `TombstoneBus.MarkDeadRemoves` | src/core/event_bus.cpp:71-84 | Marking the first live entry of a function dead removes exactly its first binding |
| `TombstoneBus.KeepIsLive` | src/core/event_bus.cpp:104-109 | Erasing dead entries changes no binding |
| `TombstoneBus.EntryStillBound` | src/core/event_bus.hpp:128-131 | However the list grew, an entry of the list at the start is alive if and only if its binding is still bound |
| `TombstoneBus.Turn` | src/core/event_bus.hpp:127-136 | One turn of the index loop over a growing list of live and dead entries is one turn of the simple dispatch |
| `TombstoneBus.PassOver` | src/core/event_bus.hpp:129-131 | A dead entry at its turn changes nothing of what the dispatch still does |
| `TombstoneBus.FindLive` | src/core/event_bus.cpp:62-66 | Finds the first live entry of a function; there is one if and only if the function is bound |
| `TombstoneBus.EventBus.constructor` | src/core/event_bus.cpp:18-22 | Every built-in event exists and nothing is bound |
| `TombstoneBus.EventBus.Create` | src/core/event_bus.cpp:38-47 | True if and only if the name was free; only then is there a new event |
| `TombstoneBus.EventBus.Bind` | src/core/event_bus.cpp:60-69 | Refines the simple bind; false if and only if the function is bound already, whatever dead entries there are; no function is ever bound twice |
| `TombstoneBus.EventBus.Unbind` | src/core/event_bus.cpp:71-84 | Refines removal at once; during a dispatch no list shrinks |
| `TombstoneBus.EventBus.Cancel` | src/core/event_bus.cpp:86-91 | Sets the innermost flag only; refused outside a dispatch |
| `TombstoneBus.EventBus.HasHandlers` | src/core/event_bus.cpp:93-95 | Never false for an event with a binding; exact when no compaction is due |
| `TombstoneBus.EventBus.Compact` | src/core/event_bus.cpp:104-109 | No binding changes and no dead entry is left |
| `TombstoneBus.EventBus.Clear` | src/core/event_bus.cpp:97-102 | No handler is left; the events stay |
| `TombstoneBus.EventBus.RunLua` | src/core/event_bus.cpp:60-91 | Any script, with dispatches nested in it, refines the simple bus; it may set the flag of the dispatch it runs in and no other |
| `TombstoneBus.EventBus.Dispatch` | src/core/event_bus.hpp:117-138 | Makes exactly the calls of the simple bus, in the same order, with the same answer, also when a handler throws; the flags of the dispatches around it are as they were, and the outermost dispatch leaves no dead entry unless it threw |
| `TombstoneBus.EventBus.CallHandlers` | src/core/event_bus.hpp:126-136 | The loop by index over a list that handlers append to and mark refines the dispatch of the simple bus |
| `TombstoneBus.EventBus.CallHandler` | src/core/event_bus.hpp:128-135 | One live handler at its turn: the dispatch stops with the answer of the simple one, or goes on as it does |
| `TombstoneBus.EventBus.OnEvent` | src/plugin/callbacks.cpp:247-260 | Answers 0 if and only if a handler of this very event cancelled it: so if the first handler calls Event.cancel and returns, and never if nobody calls it |
| `Lifecycle.Serve` | src/plugin/callbacks.cpp:84-179 | Over every life of the plugin, as the plugin world has it: Runtime::Shutdown is never entered during a call into Lua, no runtime leaks, no shutdown is pending in between, and the runtime is gone if and only if a shutdown reached it, after exactly one completed FinishShutdown |
| `Lifecycle.ServedDone` | src/plugin/callbacks.cpp:131-179 | Every callback, nested or not, leaves no shutdown pending outside a call, frees at most the installed runtime and that once, and keeps it during a call |
| `Lifecycle.ServedWithin` | src/plugin/callbacks.cpp:131-179 | Inside a call into Lua a callback runs its functions and a shutdown is only remembered; nothing is shut down, reloaded or freed |
| `Lifecycle.ShutDownDone` | src/plugin/callbacks.cpp:84-99 | FinishShutdown frees exactly the installed runtime, whatever its farewell handlers send |
| `Lifecycle.FrameForgets` | src/plugin/callbacks.cpp:150-167 | After an outermost frame a live runtime that is still installed has no request left |
| `Lifecycle.Plugin.RunLua` | src/core/invoker.hpp:48-65 | Inside a call the runtime stays installed at the same depth and a shutdown is only remembered; what was started, asked and sent is what the plugin world says |
| `Lifecycle.Plugin.Call` | src/core/invoker.hpp:46-65 | Nothing at all after a panic; otherwise the runtime survives the call and the depth is restored |
| `Lifecycle.Plugin.Scope` | src/core/invoker.hpp:35-44 | The depth comes back to what it was, also when an exception leaves the scope |
| `Lifecycle.LeaveScope` | src/core/invoker.hpp:35-44 | What happens inside a scope is, seen from outside, nested code at the depth outside |
| `Lifecycle.Plugin.Section` | src/core/event_bus.hpp:122-137 | A dispatch, tick or pump calls its functions until the loop is over or one throws, and never sees its runtime freed or replaced |
| `Lifecycle.Plugin.LoadScripts` | src/runtime/runtime.cpp:154-181 | The scripts one by one and then the onServerInit handlers; the runtime is never freed while a script loads |
| `Lifecycle.Plugin.RunFrame` | src/runtime/runtime.cpp:183-192 | Timers, HTTP, the Copas step and the handlers in this order; the runtime is never freed during a frame |
| `Lifecycle.Plugin.NotifyServerShutdown` | src/runtime/runtime.cpp:194-212 | The shutdown handlers and then each player's; the runtime is never freed meanwhile, whatever shutdowns the handlers send |
| `Lifecycle.Plugin.ShutdownRuntime` | src/runtime/runtime.cpp:214-286 | Shuts down exactly the given runtime; the caller-bug branch is taken if and only if the depth is not 0; callbacks that arrive meanwhile reach nobody, and exactly the shutdowns among them are ignored |
| `Lifecycle.Plugin.FinishShutdown` | src/plugin/callbacks.cpp:84-99 | Afterwards no runtime and no pending shutdown; the runtime was freed once |
| `Lifecycle.Plugin.AfterCallback` | src/plugin/callbacks.cpp:131-138 | No shutdown stays pending once no call is active; otherwise nothing happens |
| `Lifecycle.Plugin.DoReload` | src/plugin/callbacks.cpp:105-129 | If the new runtime cannot be built only the request clears; otherwise it replaces the old one, which is freed, exactly the shutdowns of the window are ignored, and the new runtime loads its scripts |
| `Lifecycle.Plugin.Replace` | src/plugin/callbacks.cpp:121-128 | The old runtime is freed at depth 0, nothing else is, and exactly the shutdowns of the window are counted as ignored |
| `Lifecycle.Plugin.OnServerInitialise` | src/plugin/callbacks.cpp:140-148 | The scripts are loaded, then a pending shutdown is settled. Nested: only remembers a shutdown. Outermost: no shutdown is pending afterwards |
| `Lifecycle.Plugin.OnServerFrame` | src/plugin/callbacks.cpp:150-167 | The frame, a pending shutdown, and the reload at the end, which never starts while a shutdown is pending or a call is active; a live runtime still installed after an outermost frame has no request left |
| `Lifecycle.Plugin.EndOfFrame` | src/plugin/callbacks.cpp:157-166 | A reload that was asked for clears the request and ignores nothing, or replaces the runtime and ignores exactly the shutdowns of the window; otherwise nothing happens |
| `Lifecycle.Plugin.OnServerShutdown` | src/plugin/callbacks.cpp:169-179 | Deferred inside a call; done at once outside; ignored without a runtime |
| `Lifecycle.Plugin.OnEvent` | src/plugin/callbacks.cpp:250-260 | The handlers run if the runtime is usable, then a pending shutdown is settled; the same guarantee for every callback that dispatches an event |
| `Lifecycle.Plugin.OnCallback` | src/plugin/callbacks.cpp:131-179 | What every callback does, nested or outermost, for any tape |
| `PluginRuns.PlainLua` | src/core/invoker.hpp:46-65 | A function that asks for reloads while shutdowns arrive: the request is set if it asks, every shutdown is remembered, a panic leaves the runtime dead, and nothing after its end is read |
| `PluginRuns.WholeSection` | src/core/event_bus.hpp:122-137 | A section over k functions that return starts exactly k, reads exactly their actions, and does what they ask for |
| `PluginRuns.SectionStops` | src/core/event_bus.hpp:122-137 | An exception or a panic is the end of the section, after the functions before it |
| `PluginRuns.DeadSection` | src/core/invoker.hpp:46-49 | After a panic nothing is started any more |
| `PluginRuns.NestedEvent` | src/plugin/callbacks.cpp:250-260 | An event that arrives inside a function runs its handlers there and then, and the function goes on |
| `PluginRuns.NestedLoad` | src/plugin/callbacks.cpp:140-148 | So does OnServerInitialise with the scripts |
| `PluginRuns.NestedFrame` | src/plugin/callbacks.cpp:150-167 | And a frame, at whose end nothing is reloaded then |
| `PluginRuns.WholeFrame` | src/runtime/runtime.cpp:183-192 | A frame starts every timer callback, HTTP callback, the Copas step and every handler, in this order |
| `PluginRuns.WholeLoad` | src/runtime/runtime.cpp:154-181 | Loading starts every script and then every onServerInit handler |
| `PluginRuns.WholeFarewell` | src/runtime/runtime.cpp:194-212 | At a shutdown every onServerShutdown handler and every handler of every player's farewell is started |
| `PluginRuns.EventRuns` | src/plugin/callbacks.cpp:250-260 | An event whose handlers send no shutdown changes the plugin by what they asked for and nothing else |
| `PluginRuns.ShutdownRuns` | src/plugin/callbacks.cpp:131-179 | A shutdown sent by a handler happens right after the event: the farewells run, then the runtime is freed |
| `PluginRuns.ReloadRuns` | src/plugin/callbacks.cpp:105-129 | A frame after which a reload was asked for: the old runtime is freed, the new one runs the scripts and handlers, and exactly the shutdowns that arrive in between are ignored |
| `PluginRuns.ReloadFails` | src/plugin/callbacks.cpp:108-120 | A reload that fails takes away the request and nothing else |
| `PluginRuns.ShutdownLostInReload` | src/plugin/callbacks.cpp:122-128 | A run: a script asks for a reload in the first frame, a shutdown arrives while the old runtime goes, and the new runtime runs on |
| `PluginRuns.QuietLife` | src/plugin/callbacks.cpp:131-179 | A life in which no function does anything, any callbacks in any order: the first shutdown ends the runtime, later ones are ignored, and until then only the Copas step is called, once a frame |
| `SimpleTimers.TickMeaning` | src/core/scheduler.cpp:71-102 | Whatever the callbacks do, a tick runs timers of its due list in that order, and one it did not run no longer exists |
| `SimpleTimers.RunsAtItsTurn` | src/core/scheduler.cpp:94-100 | A due timer runs if and only if it still exists at its turn |
| `SimpleTimers.DueListUnique` | src/core/scheduler.cpp:80-91 | The order by due time and id leaves one possible list |
| `SimpleTimers.TickConcat` | src/core/scheduler.cpp:94-100 | A tick over two lists is the tick over the first, then over the second |
| `SimpleTimers.RunLuaFollows` | src/core/scheduler.cpp:30-58 | Callbacks only remove timers or add new ids; a destroyed id never names another timer |
| `SimpleTimers.AdvanceOnSchedule` | src/core/scheduler.cpp:104-113 | After a run the next due time is in (now, now + interval], never before the next full interval, and one run fewer is left |
| `SimpleTimers.TickOnSchedule` | src/core/scheduler.cpp:71-113 | Through every tick: each timer has run at most once per full interval since it was created, and is due exactly on its grid while it was never a full interval late; it exists while it has runs to come, and if nobody destroys it, it ends after exactly as many as were asked for |
| `SimpleTimers.TickCounts` | src/core/scheduler.cpp:94-107 | A tick counts one run for each timer it runs and none for any other, and changes neither interval nor count |
| `SimpleTimers.WholeTick` | src/core/scheduler.cpp:71-102 | A tick whose callbacks destroy nothing runs the callback of every due timer, in order, and all they do is done |
| `SimpleTimers.CallbackLeaves` | src/core/scheduler.cpp:47-58 | After a callback an older timer exists if and only if it did before and none of its actions destroyed it |
| `SimpleTimers.CallbackRuns` | src/core/scheduler.cpp:162-165 | A callback does its actions up to its return |
| `SimpleTimers.SumsFit` | src/core/scheduler.cpp:24-36 | With clock values up to 2^62 no sum leaves the 64-bit range |
| `Scheduler.Scheduler.Create` | src/core/scheduler.cpp:22-38 | Refused if and only if the interval or the count is out of range; otherwise a new timer with a new id, due one interval from now, with all its runs to come, and no other timer changes |
| `Scheduler.Scheduler.Exists` | src/core/scheduler.cpp:60-63 | True if and only if the script can still see the timer |
| `Scheduler.Scheduler.Destroy` | src/core/scheduler.cpp:47-58 | The timer no longer exists for any script, although the entry of the running timer stays; no other timer changes |
| `Scheduler.Scheduler.Clear` | src/core/scheduler.cpp:175-178 | No timer is left |
| `Scheduler.Scheduler.RunLua` | src/core/scheduler.cpp:30-58 | A callback refines the simple timers and leaves the entry of the running timer in the map |
| `Scheduler.InsertByDue` | src/core/scheduler.cpp:86-91 | Keeps the list sorted by due time and id, with exactly one more member |
| `Scheduler.Scheduler.CollectDue` | src/core/scheduler.cpp:79-91 | Exactly the due timers, earliest first, ids breaking ties |
| `Scheduler.Scheduler.Tick` | src/core/scheduler.cpp:71-102 | The tick with marks is the tick of the simple timers over the due list, and afterwards every timer that exists has runs to come |
| `Scheduler.Scheduler.RunAll` | src/core/scheduler.cpp:92-101 | The loop over the due list refines the simple tick, whatever the callbacks do to the timers |
| `Scheduler.Scheduler.TakeTurn` | src/core/scheduler.cpp:94-100 | A timer that still exists at its turn runs; the later ones of the list have still not run |
| `Scheduler.Scheduler.Run` | src/core/scheduler.cpp:104-173 | The entry is still there after the callback, and one run is one run of the simple timer, whether or not the callback destroyed it |
| `EntityPool.DeadHandle` | src/core/entity_pool.cpp:91-120 | Over any operations, the handle of an ended lifetime is valid again if and only if the slot is alive and a positive multiple of 2^32 lifetimes has begun since |
| `EntityPool.WrapRevives` | src/core/entity_pool.cpp:95-108 | After 2^32 lifetimes a dead handle does match again |
| `EntityPool.OneValidGeneration` | src/core/entity_pool.cpp:91-93 | At most one generation of a slot is valid, the current lifetime's |
| `EntityPool.RunOpsKeeps` | src/core/entity_pool.cpp:95-126 | The generation is the lifetime count modulo 2^32, and ended lifetimes stay ended |
| `EntityPool.HarmlessKeeps` | src/core/entity_pool.cpp:95-126 | A change of one slot that makes no object and forgets none of a lifetime that goes on keeps one handle and one table per lifetime |
| `EntityPool.HandleKeeps` | src/core/entity_pool.cpp:157-167 | A new handle for a lifetime without one keeps one handle per lifetime |
| `EntityPool.TableKeeps` | src/core/entity_pool.cpp:171-178 | A new data table for a lifetime without one keeps one table per lifetime |
| `EntityPool.EntityPool.Adopt` | src/core/entity_pool.cpp:95-108 | Starts one lifetime of a dead slot in range and is a no-op otherwise |
| `EntityPool.EntityPool.Release` | src/core/entity_pool.cpp:110-120 | Ends the lifetime and drops its references; a no-op for a dead slot |
| `EntityPool.EntityPool.MarkCreatedByUs` | src/core/entity_pool.cpp:122-126 | Marks a live slot only |
| `EntityPool.EntityPool.Ids` | src/core/entity_pool.cpp:128-146 | Exactly the live (or our live) ids, in increasing order |
| `EntityPool.EntityPool.Push` | src/core/entity_pool.cpp:157-169 | nil if and only if closed or invalid; otherwise the one handle object this lifetime ever has, so handle equality is lifetime equality |
| `EntityPool.EntityPool.Data` | src/core/entity_pool.cpp:171-178 | Refused if and only if closed or invalid; a table that is made is new, so no two lifetimes share one, and it stays the same for the lifetime |
| `EntityPool.EntityPool.SetData` | src/core/entity_pool.cpp:180-183 | Refused if and only if closed or invalid; changes nothing else |
| `EntityPool.EntityPool.ReleaseRefs` | src/core/entity_pool.cpp:195-200 | No slot holds a Lua reference; nothing else changes |
| `Entities.Serve` | src/plugin/callbacks.cpp:181-239 | Over every run, outside callbacks: for every id to which nobody did anything inside a call about it, pool and server agree, the created-by-us mark is right, and the slot has had one lifetime for each entity the server has had under the id; of the other ids they agree if and only if the id is neither stale nor lost, and the mark is right if and only if it is neither foreign nor unmarked; the player lifetimes announced are those that are over, none twice if and only if no handler kicked a player inside that player's own event, and only then can one have ended silently; and every lifetime has had at most one handle |
| `Entities.ServeUntilShutdown` | src/runtime/runtime.cpp:194-212 | The same up to and including the shutdown loop: a player is alive afterwards if and only if an event was reported about it after its farewell, and every lifetime but the new ones of those players and the silent ones was announced |
| `EntityLaws.Untouched` | docs/internals.md:52-56 | For an id nobody meddled with inside a call about it: alive if and only if on the server, marked if and only if ours, and as many lifetimes as the server has given it out, so a handle names one entity |
| `EntityLaws.Agreement` | src/core/entity_pool.cpp:95-120 | Of all ids: pool and server agree if and only if the id is neither stale nor lost |
| `EntityLaws.Ownership` | src/core/entity_pool.cpp:122-126 | Of all ids: the mark says whose the entity on the server is if and only if the id is neither foreign nor unmarked |
| `EntityLaws.ReloadKeepsOthers` | docs/api/entities.md:46-47 | A reload that can delete an id keeps it for being somebody else's, and for nothing else, whenever nobody meddled with it, and of the others if and only if its mark is right |
| `EntityLaws.ExactlyAnnounced` | src/plugin/callbacks.cpp:195-215 | The ended lifetimes are exactly the announced and the silent ones, never both, and none is silent unless a player was kicked inside its own event |
| `EntityLaws.RunLuaKeeps` | src/plugin/callbacks.cpp:217-239 | Scripts and other plugins may create, delete, kick and report in any nesting; every disagreement and every wrong mark stays accounted for, the calls around go on, and no player comes alive unnoticed |
| `EntityLaws.StepKeeps` | src/plugin/callbacks.cpp:181-239 | The same for one action with all the events it raises |
| `EntityLaws.CreateKeeps` | src/bindings/entity_type.hpp:77-96 | The same for a Create* binding, which adopts the id again after the event and marks it |
| `EntityLaws.ArriveKeeps` | docs/internals.md:46-51 | The same for another plugin's entity, of which others may hear before us |
| `EntityLaws.DeleteKeeps` | src/plugin/callbacks.cpp:217-238 | The same for a deletion, of which others hear before and after us; the slot is dead afterwards unless somebody meddled with the id |
| `EntityLaws.BlipDeleteKeeps` | docs/internals.md:52-54 | The same for a blip, which is off the server during its "deleted" event |
| `EntityLaws.RemovalKeeps` | docs/internals.md:48-54 | From our release to the moment the server forgets the id: the slot is still dead then, unless it was adopted in between, which is on record |
| `EntityLaws.DestroyKeeps` | src/bindings/server.cpp:455-462 | The same for a destroy binding, which releases the slot once more: it is dead afterwards, whatever happened in the events |
| `EntityLaws.DestroyBlipKeeps` | src/bindings/server.cpp:455-462 | The same for Blip.destroy: two releases with the others' handlers between them, and the slot is dead afterwards |
| `EntityLaws.ValidDuringEvent` | src/plugin/callbacks.cpp:201-212 | For as long as the handlers of a disconnect event run the handle is valid and names the announced lifetime, unless one of them kicked the player again |
| `EntityLaws.AnnouncingKeeps` | src/plugin/callbacks.cpp:204-208 | Until a player has been announced twice, an event repeats an announcement if and only if it arrives inside the player's own disconnect event |
| `EntityLaws.GoodbyeKeeps` | src/plugin/callbacks.cpp:195-215 | Our disconnect event and the release after it, whatever ran inside |
| `EntityLaws.DisconnectKeeps` | src/plugin/callbacks.cpp:195-215 | A whole kick or quit, with what other plugins do after our event |
| `EntityLaws.JoinKeeps` | src/plugin/callbacks.cpp:181-193 | A player that connects, of whom others may hear before us |
| `EntityLaws.OutermostKeeps` | src/plugin/callbacks.cpp:181-239 | Every callback that arrives while none is active leaves none open |
| `EntityLaws.DismissalsKeep` | src/runtime/runtime.cpp:200-211 | After the shutdown loop a player is alive if and only if it was dismissed and seen again |
| `EntityLaws.ShutDownKeeps` | src/runtime/runtime.cpp:194-212 | The same from the shutdown event on, for every listing of the players alive after it |
| `EntityTraffic.RunLuaGrows` | docs/internals.md:46-56 | Over any nesting of actions the server gives out an id again if and only if the id is new on it, and no player connects meanwhile |
| `EntityTraffic.Comes` | src/plugin/callbacks.cpp:181-231 | Creating, appearing and connecting give the id out once more, whatever happens in the events; a player that connects exactly once |
| `EntityTraffic.Goes` | src/plugin/callbacks.cpp:195-238 | After a deletion, kick or quit the id is off the server, whatever happened in the events; that of a blip unless it was given out again |
| `EntityTraffic.ShutdownEventRuns` | src/runtime/runtime.cpp:194-199 | The onServerShutdown handlers run before the loop |
| `EntityRuns.MadeDecides` | src/bindings/entity_type.hpp:80-96 | After a Create* binding pool and server agree if and only if the id still exists, and the mark is right if and only if the entity there is ours |
| `EntityRuns.ToldDecides` | src/plugin/callbacks.cpp:224-227 | When we hear of a new entity or player they agree if and only if it still exists |
| `EntityRuns.RemovedDecides` | src/plugin/callbacks.cpp:232-236 | When the server forgets an id they agree if and only if it was not adopted again after our event |
| `EntityRuns.DroppedDecides` | src/bindings/server.cpp:455-460 | When a blip is released they agree if and only if the id was not given out again, and the mark is right if and only if it was not given to us |
| `EntityRuns.QuietRun` | src/plugin/callbacks.cpp:181-239 | After any sequence of actions in whose events nobody does anything: what the server has, how often it gave out each id, what is ours and which farewells were said is the fold of the actions over plain sets, and the pool has a live slot for exactly what exists, marked if and only if ours |
| `EntityRuns.QuietStep` | src/plugin/callbacks.cpp:181-239 | One such action, with exactly as many stretches of events as the server raises |
| `EntityRuns.BlipCreatedInItsDeletion` | src/plugin/callbacks.cpp:226-236 | A run: our blip created inside the "deleted" event of its id is on the server, dead and unmarked in the pool, and survives a reload |
| `EntityRuns.DeletedInItsCreation` | src/bindings/entity_type.hpp:90-95 | A run: an entity deleted inside its "created" event is alive and marked in the pool and off the server |
| `EntityRuns.AnothersEntityMarked` | src/core/entity_pool.cpp:101-107 | A run: another plugin then creates an entity with that id, pool and server agree, and a reload deletes it |
| `EntityRuns.HeardTooLate` | src/plugin/callbacks.cpp:224-227 | A run: an entity another plugin deletes before we hear of its creation is adopted when it is gone |
| `EntityRuns.DestroyForgets` | src/bindings/server.cpp:455-460 | Blip.destroy of a stale blip releases the live slot, so that release is not a no-op |
| `EntityRuns.SeenAfterItsEvent` | src/plugin/callbacks.cpp:262-275 | A run: a player an event is reported about after our disconnect event stays alive in the pool |
| `EntityRuns.KickedInItsDisconnect` | src/plugin/callbacks.cpp:201-212 | From any world with the player alive: a kick inside its own disconnect event announces the lifetime twice |
| `EntityRuns.AnnouncedTwice` | src/plugin/callbacks.cpp:201-212 | A run with that |
| `EntityRuns.EndedSilently` | src/plugin/callbacks.cpp:209-212 | With an event about the player in between, the outer release ends a lifetime that was never announced |
| `EntityRuns.SeenAfterItsFarewell` | src/runtime/runtime.cpp:194-212 | A run of the shutdown: a player about whom an event is reported after its farewell is alive again, in a new lifetime |
| `EntityView.ShowsUpdated` | src/core/entity_pool.cpp:75-85 | An operation on one pool is, for the world, the operation on one id; ids outside the pools change nothing |
| `EntityView.ShowsHandle` | src/core/entity_pool.cpp:157-169 | Making a handle changes nothing the world sees |
| `Entities.Begin` | src/core/entity_pool.cpp:237-268 | New pools adopt exactly what exists and has a slot, and mark nothing |
| `Entities.Bridge.RunLua` | src/plugin/callbacks.cpp:217-239 | Scripts and other plugins change the real pools and the server in place as the entity world says, history included |
| `Entities.Bridge.CreateBinding` | src/bindings/entity_type.hpp:77-96 | Create*, then adopted again and marked as ours |
| `Entities.Bridge.Arrive` | src/plugin/callbacks.cpp:217-231 | Another plugin's entity or a new player, with what others do before and after we adopt it |
| `Entities.Bridge.DeleteEntity` | src/plugin/callbacks.cpp:217-238 | The handlers run before the release and other plugins' after it, with the id still on the server except for a blip |
| `Entities.Bridge.DestroyBinding` | src/bindings/server.cpp:455-462 | Through a live handle, or for blips by id, also of a blip the server does not have; the slot is released once more at the end |
| `Entities.Bridge.Disconnect` | src/plugin/callbacks.cpp:195-215 | The player is adopted on first sight, announced, released after the handlers, and forgotten after everybody's |
| `Entities.Bridge.SayGoodbye` | src/plugin/callbacks.cpp:204-212 | One announcement, the handlers, then the release |
| `Entities.Bridge.Use` | src/core/entity_pool.cpp:157-169 | A script gets a handle if and only if the entity is alive, at any moment of any run |
| `Entities.Bridge.AlivePlayers` | src/core/entity_pool.cpp:138-146 | Exactly the live players, in the order of their ids |
| `Entities.Bridge.NotifyServerShutdown` | src/runtime/runtime.cpp:194-212 | The loop over the snapshot is the shutdown of the entity world |
| `EntityPools.DeleteMarked` | src/core/entity_pool.cpp:294-300 | One kind: exactly the marked slots are released, and exactly the marked ids that can be deleted leave the server |
| `EntityPools.AdoptExisting` | src/core/entity_pool.cpp:258-267 | One kind: exactly the existing ids are adopted |
| `EntityPools.EntityPools.DeleteCreated` | src/core/entity_pool.cpp:270-310 | Kind by kind the server keeps what is not marked or cannot be deleted, and every player |
| `EntityPools.SparedExactly` | src/core/entity_pool.cpp:293-310 | Of every kind, key binds included, exactly the marked ids that can be deleted go, and no player |
| `EntityPools.EntityPools.Enumerate` | src/core/entity_pool.cpp:237-268 | All kinds: exactly the existing ids are adopted |
| `EntityPools.EntityPools.Close` | src/core/entity_pool.cpp:312-316 | Every pool is closed and no slot changes |
| `EntityPools.EntityPools.ReleaseRefs` | src/core/entity_pool.cpp:318-322 | No slot of any pool holds a Lua reference |
| `EntityPools.EntityPools.Push` | src/core/entity_pool.cpp:157-169 | A handle if and only if the pool is open and the id alive; nothing changes but that handle |
| `Teardown.Reload` | src/plugin/callbacks.cpp:105-129 | All or nothing: without a new runtime pools, handlers, timers, requests and server are unchanged; with one the server keeps what is not marked or cannot be deleted, the new pools adopt exactly that, and in every world a run can reach an id that can be deleted stays exactly for being somebody else's, whenever nobody meddled with it, and of the others if and only if it is neither foreign nor unmarked |
| `Teardown.SparesOthers` | src/core/entity_pool.cpp:293-300 | A reload treats an id as it should whenever nobody meddled with it, and of the others if and only if its mark is right |
| `Teardown.NewPoolsMirror` | src/core/entity_pool.cpp:237-268 | The new pools have exactly what the server kept alive, none of it marked |
| `Teardown.Runtime.Shutdown` | src/runtime/runtime.cpp:214-286 | Ignored during a call, everything left as it is after a panic; otherwise C++ holds no Lua reference when the state closes and the finalizers make it hold none; the state it leaves is the one the lifecycle of the plugin counts on |
| `Teardown.Runtime.Sweep` | src/runtime/runtime.cpp:246-255 | The pools are closed before anything is deleted, and only a reload deletes |
| `Teardown.Runtime.Call` | src/runtime/runtime.cpp:146-152 | Once the runtime is closing and the pools are closed, every binding refuses, and none changes a handler, timer, request, handle or data table |
| `Teardown.Runtime.CallService` | src/runtime/runtime.cpp:146-152 | Events, timers and requests: nothing at all once the runtime is not usable; otherwise the function is bound, the timer made, or the request pending |
| `Teardown.Runtime.CallEntity` | src/core/entity_pool.cpp:148-183 | Entities: refused, and no slot changes, once the runtime is not usable and the pool is closed; otherwise answered exactly for a valid handle, and what is created is alive and marked |
| `Teardown.Runtime.RunScripts` | src/runtime/runtime.cpp:275-277 | Any sequence of finalizers: each of them is refused |
| `Teardown.Runtime.CloseLua` | src/runtime/runtime.cpp:275-277 | Whatever finalizers run while the Lua state closes, C++ still holds no reference afterwards |
| `Teardown.Runtime.ReleaseAll` | src/runtime/runtime.cpp:258-273 | No Lua reference is left in any part |
| `Teardown.Runtime.constructor` | src/runtime/runtime.cpp:87-117 | A usable runtime with empty open pools of the server's sizes |
| `HttpRuns.Serve` | src/modules/http.cpp:172-357 | Over every run, pumps inside callbacks included: accepted = pending + called back + dropped, no callback twice, none after a clear for what was pending then, at most 1000 pending, and each callback is the one its request came with, in the order of the requests on the tape |
| `Http.Conservation` | src/modules/http.cpp:258-301 | The same count at any moment, with what running pumps hold |
| `Http.CalledOnce` | src/modules/http.cpp:289-300 | No transfer is called back twice |
| `Http.FinishedAll` | src/modules/http.cpp:270-285 | Every pending transfer that libcurl reports is taken |
| `Http.ClearedKeeps` | src/modules/http.cpp:355-357 | What was pending is dropped, and nothing else changes |
| `HttpRuns.NeverAfterClear` | src/modules/http.cpp:355-357 | No request that was pending at some clear is ever called back |
| `HttpRuns.ServedIssues` | src/modules/http.cpp:172-180 | The ids are given out in the order of the requests on the tape, each with its function; only a request beyond the limit gets none |
| `HttpRuns.RequestsStart` | src/modules/http.cpp:172-256 | Each request gets the next id and is pending with its own function if and only if libcurl takes it |
| `HttpRuns.WholePump` | src/modules/http.cpp:258-301 | A pump whose callbacks return calls back all that has finished, in order, each with its own part of the tape |
| `HttpRuns.PumpStops` | src/modules/http.cpp:294-301 | A callback that throws or panics is the last one of its pump; the others are dropped |
| `HttpRuns.QuietRun` | src/modules/http.cpp:172-357 | A run whose callbacks do nothing, any requests, reports and clears: what is pending and what was called back, in order and with which functions, is the fold of these over a plain map |
| `Http.Http.Start` | src/modules/http.cpp:172-256 | Accepted if and only if fewer than 1000 are pending and libcurl takes it, and then pending under the next id with its own function; a failed start changes nothing pending |
| `Http.Http.Collect` | src/modules/http.cpp:270-285 | Takes exactly the reported pending transfers, each once |
| `Http.Http.Pump` | src/modules/http.cpp:258-301 | Calls back exactly what had finished when it began, each once and in the order reported, never what a callback starts; an exception leaves out the last ones only, which are dropped; outer pumps keep what they hold |
| `Http.Http.Complete` | src/modules/http.cpp:294-300 | Each finished transfer is called back in turn, or dropped after an exception or a panic |
| `Http.Http.CompleteOne` | src/modules/http.cpp:298-300 | The transfer whose turn it is is called back, or dropped once a callback threw or the runtime is dead |
| `Http.Http.CallBack` | src/modules/http.cpp:303-353 | One callback, with anything nested in it, leaves the rest of the list in the pump's hands |
| `Http.Http.RunLua` | src/modules/http.cpp:172-178 | A callback moves only pending requests, and does its actions up to the one that ends it |
| `Http.Http.Clear` | src/modules/http.cpp:355-357 | Every pending request is dropped without a callback |
| `SqlText.ScanExactly` | lua/sql.lua:83-118 | A text scans into a list of pieces if and only if the pieces spell it and each can stand before the next, so scanning and spelling are inverse |
| `SqlText.CloseBefore` | lua/sql.lua:56-69 | What lies before a closing quote closes there by itself, and no quote follows |
| `SqlText.StandsBeforeOther` | lua/sql.lua:90-116 | A piece still scans as itself before another text if and only if the first character does not clash |
| `SqlText.InsideQuotes` | lua/sql.lua:56-69 | Between two single quotes, double quotes or backticks nothing is special |
| `SqlText.InsideLine` | lua/sql.lua:107-109 | A line comment goes to the end of its line, whatever is in it |
| `SqlText.InsideBlock` | lua/sql.lua:110-113 | A block comment goes to the first mark that ends it |
| `SqlText.Elsewhere` | lua/sql.lua:93-116 | Elsewhere a question mark is a placeholder, two are one question mark, and every other character is itself |
| `SqlFormat.FormatMeaning` | lua/sql.lua:83-122 | Formatting succeeds if and only if every quote closes, the counts match and every value has a literal; what is copied is copied unchanged |
| `SqlFormat.RenderConcat` | lua/sql.lua:80-122 | A template is rendered part by part, each with its own values |
| `SqlFormat.RenderOne` | lua/sql.lua:93-116 | A token is copied, a doubled question mark becomes one, and a placeholder becomes the literal of its value |
| `SqlFormat.FormatKeepsStructure` | lua/sql.lua:71-123 | With quote doubling the output scans into the template's own pieces with one literal per placeholder if and only if no string touches a single quote and no negative number follows a dash |
| `SqlFormat.SafeForAllValues` | lua/sql.lua:71-123 | A template keeps its structure for all values if and only if no placeholder touches a single quote or directly follows a dash |
| `SqlFormat.StringAfterQuote` | lua/sql.lua:46-51 | A string right after a quoted one is read as part of it, for every string |
| `SqlFormat.NegativeAfterDash` | lua/sql.lua:36-39 | A negative number right after a dash turns into a comment |
| `SqlFormat.LiteralDecodes` | lua/sql.lua:30-54 | A string or integer literal decodes to its value |
| `SqlFormat.LiteralWords` | lua/sql.lua:30-54 | NULL, TRUE and FALSE stand for nil, true and false and for nothing else; NaN, the infinities and what is no SQL value have no literal |
| `SqlFormat.DoubleDecodes` | lua/sql.lua:46-51 | Doubled quotes decode to the string and close exactly at its end |
| `SqlFormat.RenderIsFilled` | lua/sql.lua:93-116 | The output spells the template's pieces with the placeholders filled |
| `SqlFormat.ReachesCounts` | lua/sql.lua:83-118 | Where the scanner gets to a position after n placeholders, the template scans if and only if the rest does and has n placeholders more |
| `SqlFormatter.FormatSql` | lua/sql.lua:71-123 | The loop succeeds if and only if the specification does, with its text; an error is the first thing wrong: everything the scanner reached before it is closed, counted and has a literal |
| `SqlFormatter.ErrorMeaning` | lua/sql.lua:57-66 | An unclosed quote means the template does not scan; too few values means it has more placeholders than values, wherever it scans; too many means it has exactly the reported number, which is smaller |
| `SqlFormatter.Fill` | lua/sql.lua:97-103 | A placeholder takes the next value, or fails because there is none or it has no literal |
| `SqlFormatter.SkipQuoted` | lua/sql.lua:56-69 | Finds the quote that closes, doubled quotes staying inside, or none |
| `SqlFormatter.NextPiece` | lua/sql.lua:90-116 | The piece at a position and where it stops |
| `SqlFormatter.SkipLine` | lua/sql.lua:107-109 | The end of a line comment, newline included |
| `SqlFormatter.SkipBlock` | lua/sql.lua:110-113 | The end of a block comment, or of the text |
| `Stream.StreamIsQueue` | src/bindings/stream.cpp:51-117 | For any interleaving of writes, clears and reads of the right kind, a stream answers as a first-in first-out queue of values |
| `Stream.DecodeEncoded` | src/bindings/stream.cpp:34-117 | A written value is read back whatever follows: bytes modulo 256, numbers as signed 32 bits, float bits and strings exactly |
| `Stream.NumberReadBack` | src/bindings/stream.cpp:62-63 | A signed 32-bit number is read back as itself, and any other as the signed number that is equal to it modulo 2^32 |
| `Stream.ByteReadBack` | src/bindings/stream.cpp:57-61 | A byte is read back modulo 256 |
| `Stream.ApplyHolds` | src/bindings/stream.cpp:51-117 | Every call keeps the bytes equal to the encoded queue; a refused call changes nothing |
| `Stream.Stream.WriteByte` | src/bindings/stream.cpp:87-93 | Accepted if and only if from -128 to 255 with room for it; appends the low 8 bits |
| `Stream.Stream.WriteU32` | src/bindings/stream.cpp:42-47 | Four bytes, lowest first, if there is room |
| `Stream.Stream.WriteNumber` | src/bindings/stream.cpp:94-100 | Accepted if and only if in one of the 32-bit ranges with room for it; four bytes, lowest first, equal to it modulo 2^32 |
| `Stream.Stream.WriteFloat` | src/bindings/stream.cpp:101-106 | The 32 bits of the float, or nothing |
| `Stream.Stream.WriteString` | src/bindings/stream.cpp:107-117 | Accepted if and only if at most 65535 bytes with room for them; the length, highest byte first, and the bytes |
| `Stream.Stream.ReadByte` | src/bindings/stream.cpp:57-61 | The next byte, or nothing changes |
| `Stream.Stream.ReadU32` | src/bindings/stream.cpp:34-40 | The next word, or nothing changes |
| `Stream.Stream.ReadNumber` | src/bindings/stream.cpp:62-63 | The next word as a signed number |
| `Stream.Stream.ReadFloat` | src/bindings/stream.cpp:64-70 | The next word as float bits |
| `Stream.Stream.ReadString` | src/bindings/stream.cpp:71-85 | The next string, or nothing changes, also when only the length is there |
| `CommandSplitter.Split` | src/plugin/callbacks.cpp:432-467 | Command, arguments and text; splitting the text again gives exactly the arguments, it is empty if and only if there are none, and otherwise it is the message from the second word on, unchanged |
| `CommandSplitter.SplitWords` | src/plugin/callbacks.cpp:438-452 | The loop finds the words of the recursive definition and the place of the second one |
| `CommandSplitter.WordsJoin` | src/plugin/callbacks.cpp:441-452 | Every message is its words with gaps of spaces between them |
| `CommandSplitter.JoinWords` | src/plugin/callbacks.cpp:441-452 | There is only one such reading: the words are the maximal runs without a space |
| `CommandSplitter.AfterNameWords` | src/plugin/callbacks.cpp:434-460 | What follows the first word splits into the other words |
| `CommandSplitter.MessageIs` | src/plugin/callbacks.cpp:438-452 | A message with arguments is its first word with a gap on either side, followed by the text |

## Left out

- Key binds in the agreement of pools and server: they raise no events and are only checked on use.
- Server functions that are missing from the API table: each pool operation then does nothing.
- The failure path of the runtime's constructor: it shuts down parts that may not exist yet.
- Timer callbacks that leave by a C++ exception, and `thisTimer`, which is a global of the script.
- The tags of entities: a string per slot with the same life as the data table.
- Arguments of handlers, timers and HTTP callbacks, and the contents of HTTP responses.
- The checks of request fields, header joining and TLS options of `http.request`: no law spans them.
- MySQL and Postgres escaping, backslash escapes and dollar quoting in `sql.format`: documented as not recognised.
- Float formatting: a float literal is opaque text, so that it decodes to its value is not stated.
- The bindings of players, vehicles, objects, pickups and checkpoints, names, configuration, logging and library start-up: thin wrappers, tables and I/O.
- Entities.Bridge.NotifyServerShutdown: does not model a panic in the middle of the loop, after which the loop stops, because the runtime is then dead and its players are never seen again.
- Scheduler.Scheduler.Tick: assumes that no callback enters another tick, as the source does.
