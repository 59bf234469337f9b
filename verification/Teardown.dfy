/**
  A runtime with all its parts (src/runtime/runtime.cpp): the order in which a shutdown takes
  them apart, and what a reload leaves on the server and in the new pools.

  The Lua state is closed last.  Its finalizers are scripts too: they may call every binding,
  and are read off a tape like any other script.
 */
module Teardown {
  import opened EntityPool
  import opened EntityPools
  import opened EntityWorld
  import EntityLaws
  import opened EntityView
  import SimpleBus
  import TombstoneBus
  import SimpleTimers
  import Scheduler
  import Http
  import PluginWorld

  /** The bindings that can make C++ hold a Lua reference. */
  datatype Act =
    | Bind(name: string, fn: nat)                       // Event.bind
    | CreateTimer(interval: int, repeats: int)          // Timer.create
    | Request(fn: nat, added: bool)                     // http.request
    | Push(kind: nat, id: int, generation: nat)         // an entity reference becomes a handle
    | Data(kind: nat, id: int, generation: nat)         // handle.data
    | SetData(kind: nat, id: int, generation: nat, table: nat)
    | Create(kind: nat, id: int)                        // Kind.create, and the server gave out `id`

  class Runtime {
    const bus: TombstoneBus.EventBus
    const timers: Scheduler.Scheduler
    const http: Http.Http
    const entities: EntityPools
    var lua: bool              // the Lua state exists
    var depth: nat             // calls into Lua that are active
    var closing: bool
    var dead: bool
    var reloadRequested: bool
    var steps: nat             // the frame pump's steps; one of them holds copas.step

    ghost predicate Valid()
      reads bus, timers, http, entities, entities.pools
    {
      bus.Valid() && timers.Valid() && http.Valid() && entities.Valid()
    }

    /** This runtime as the lifecycle of the plugin sees it. */
    ghost function Status(): PluginWorld.Runtime
      reads this
    {
      PluginWorld.Runtime(lua, depth, closing, dead, reloadRequested)
    }

    predicate Usable()
      reads this
    {
      lua && !closing && !dead
    }

    /** C++ holds no Lua reference. */
    ghost predicate HoldsNothing()
      reads this, bus, timers, http, entities, entities.pools
    {
      steps == 0 && PartsEmpty()
    }

    ghost predicate PartsEmpty()
      reads bus, timers, http, entities, entities.pools
    {
      timers.timers == map[] && http.transfers == map[] && TombstoneBus.NoneBound(bus.lists) && entities.Empty()
    }

    /** Every pool is closed and no binding is usable. */
    ghost predicate Sealed()
      reads this, entities, entities.pools
    {
      closing && entities.Closed()
    }

    constructor (events: seq<string>, now: int)
      ensures Valid() && Usable() && Status() == PluginWorld.FRESH
      ensures fresh(bus) && fresh(timers) && fresh(http) && fresh(entities) && forall k :: 0 <= k < |entities.pools| ==> fresh(entities.pools[k])
      ensures entities.all == NewSlots()
    {
      entities := new EntityPools();
      bus := new TombstoneBus.EventBus(events);
      timers := new Scheduler.Scheduler(now);
      http := new Http.Http();
      lua, depth, closing, dead, reloadRequested, steps := true, 0, false, false, false, 3;
    }

    /**
      One binding, called by a script; it may refuse, by an error or with nil.  All of them require
      a usable runtime except for handles, which a closed pool refuses; so once the runtime is
      sealed every one refuses and nothing changes.
     */
    method Call(act: Act) returns (ok: bool)
      requires Valid()
      modifies bus, timers, http, entities, entities.pools
      ensures Valid()
      ensures old(Sealed()) ==>
                && !ok && Sealed() && bus.lists == old(bus.lists) && timers.timers == old(timers.timers)
                && http.transfers == old(http.transfers)
                && entities.all == old(entities.all)
    {
      ok := false;
      if act.Bind? || act.CreateTimer? || act.Request? {
        ok := CallService(act);
      } else if act.kind < |TRAITS| {
        ok := CallPool(act);
      }
    }

    method CallPool(act: Act) returns (ok: bool)
      requires entities.Valid() && !act.Bind? && !act.CreateTimer? && !act.Request? && act.kind < |TRAITS|
      modifies entities, entities.pools[act.kind]
      ensures entities.Valid() && (old(entities.Closed()) ==> entities.Closed())
      ensures !Usable() && old(entities.Closed()) ==> !ok && entities.all == old(entities.all)
    {
      ok := CallEntity(act, entities.pools[act.kind]);
      entities.Sync(act.kind);
    }

    /**
      The bindings of events, timers and requests: nothing once the runtime is not usable, and
      otherwise the operation itself.
     */
    method CallService(act: Act) returns (ok: bool)
      requires bus.Valid() && timers.Valid() && http.Valid()
      modifies bus, timers, http
      ensures bus.Valid() && timers.Valid() && http.Valid()
      ensures !Usable() ==> !ok && unchanged(bus, timers, http)
      ensures Usable() && act.Bind? && act.name in old(bus.index) ==>
                && old(bus.index)[act.name] < |bus.Abs().lists|
                && SimpleBus.Bound(bus.Abs().lists[old(bus.index)[act.name]], act.fn)
      ensures Usable() && act.CreateTimer? && SimpleTimers.Accepts(act.interval, act.repeats) ==>
                ok && old(timers.nextId) in timers.timers && unchanged(bus, http)
      ensures Usable() && act.Request? ==>
                && (ok <==> act.added && |old(http.transfers)| < Http.MAX_PENDING) && unchanged(bus, timers)
                && http.transfers == if ok then old(http.transfers)[old(http.nextId) := act.fn] else old(http.transfers)
    {
      ok := false;
      if !Usable() {
        return;                         // "runtime shutting down"
      }
      match act
      case Bind(name, fn) =>
        if name in bus.index {
          ok := bus.Bind(bus.index[name], fn);
          SimpleBus.BoundAfterBind(old(bus.Abs()), bus.index[name], fn);
        }
      case CreateTimer(interval, repeats) =>
        var created, _ := timers.Create(interval, repeats);
        ok := created;
      case Request(fn, added) => ok := http.Start(fn, added);
      case _ =>
    }

    /** The bindings of the entities. */
    method CallEntity(act: Act, pool: EntityPool) returns (ok: bool)
      requires pool.Valid() && !act.Bind? && !act.CreateTimer? && !act.Request?
      modifies pool
      ensures pool.Valid() && pool.closed == old(pool.closed) && |pool.slots| == |old(pool.slots)|
      ensures !Usable() && pool.closed ==> !ok && pool.slots == old(pool.slots)
      ensures Usable() && !pool.closed && !act.Create? ==> (ok <==> old(pool.IsValid(act.id, act.generation)))
      ensures Usable() && act.Create? && act.kind != PLAYER && pool.InRange(act.id) ==>
                ok && pool.Alive(act.id) && pool.Slot_(act.id).createdByUs
    {
      ok := false;
      match act
      case Push(_, id, generation) =>
        var handle := pool.Push(id, generation);
        ok := handle.Some?;
      case Data(_, id, generation) =>
        if Usable() {
          var table := pool.Data(id, generation);
          ok := table.Some?;
        }
      case SetData(_, id, generation, table) =>
        if Usable() {
          ok := pool.SetData(id, generation, table);
        }
      case Create(kind, id) =>
        if Usable() && kind != PLAYER {
          pool.Adopt(id);
          pool.MarkCreatedByUs(id);
          ok := true;
        }
      case _ =>
    }

    /** Scripts, or the finalizers of the Lua state, and what their calls answer. */
    method RunScripts(tape: seq<Act>) returns (answers: seq<bool>)
      requires Valid()
      modifies bus, timers, http, entities, entities.pools
      ensures Valid() && |answers| == |tape|
      ensures old(Sealed()) ==>
                && (forall ok <- answers :: !ok)
                && Sealed() && bus.lists == old(bus.lists) && timers.timers == old(timers.timers)
                && http.transfers == old(http.transfers)
                && entities.all == old(entities.all)
    {
      answers := [];
      for i := 0 to |tape|
        invariant Valid() && |answers| == i
        invariant old(Sealed()) ==>
                    && (forall ok <- answers :: !ok)
                    && Sealed() && bus.lists == old(bus.lists) && timers.timers == old(timers.timers)
                    && http.transfers == old(http.transfers)
                    && entities.all == old(entities.all)
      {
        var ok := Call(tape[i]);
        answers := answers + [ok];
      }
    }

    /** Runtime::Shutdown, step 2: every reference is released. */
    method ReleaseAll()
      requires Valid() && Sealed()
      modifies this`steps, bus, timers, http, entities, entities.pools
      ensures Valid() && Sealed() && HoldsNothing()
    {
      steps := 0;
      ReleaseServices();
      entities.ReleaseRefs();
    }

    method ReleaseServices()
      requires bus.Valid() && timers.Valid() && http.Valid()
      modifies bus, timers, http
      ensures bus.Valid() && timers.Valid() && http.Valid()
      ensures timers.timers == map[] && http.transfers == map[] && TombstoneBus.NoneBound(bus.lists)
    {
      timers.Clear();
      http.Clear();
      bus.Clear();
    }

    /** The pools are closed, and a reload deletes what is marked. */
    method Sweep(reload: bool, server: seq<set<int>>, deletable: seq<set<int>>) returns (kept: seq<set<int>>)
      requires entities.Valid() && closing && |server| == |deletable| == |TRAITS|
      modifies entities, entities.pools
      ensures entities.Valid() && Sealed()
      ensures kept == if reload then Spared(old(entities.all), server, deletable) else server
    {
      kept := server;
      entities.Close();
      if reload {
        kept := entities.DeleteCreated(server, deletable);
      }
    }

    /** The normal path: the Lua state is closed when C++ holds no reference, and none is made meanwhile. */
    method TakeApart(reload: bool, server: seq<set<int>>, deletable: seq<set<int>>, finalizers: seq<Act>)
      returns (kept: seq<set<int>>)
      requires Valid() && closing && |server| == |deletable| == |TRAITS|
      modifies this`steps, this`lua, bus, timers, http, entities, entities.pools
      ensures Valid() && HoldsNothing() && Sealed() && !lua
      ensures kept == if reload then Spared(old(entities.all), server, deletable) else server
    {
      kept := Sweep(reload, server, deletable);
      ReleaseAll();
      CloseLua(finalizers);
    }

    /** Runtime::Shutdown, step 3: lua_close runs __gc and __close, which leave nothing behind. */
    method CloseLua(finalizers: seq<Act>)
      requires Valid() && Sealed() && HoldsNothing()
      modifies this`lua, bus, timers, http, entities, entities.pools
      ensures Valid() && Sealed() && HoldsNothing() && !lua
    {
      var answers := RunScripts(finalizers);
      lua := false;
    }

    /**
      Runtime::Shutdown.  Nothing happens during a call into Lua, and after a panic everything is
      left as it is.
     */
    method Shutdown(reload: bool, server: seq<set<int>>, deletable: seq<set<int>>, finalizers: seq<Act>)
      returns (kept: seq<set<int>>)
      requires Valid() && |server| == |deletable| == |TRAITS|
      modifies this, bus, timers, http, entities, entities.pools
      ensures Valid() && Status() == PluginWorld.AfterShutdown(old(Status()))
      ensures old(depth == 0) ==> !lua
      ensures if old(lua && depth == 0 && !dead)
              then && HoldsNothing() && Sealed()
                   && kept == if reload then Spared(old(entities.all), server, deletable) else server
              else && kept == server && steps == old(steps)
                   && unchanged(bus, timers, http, entities) && unchanged(entities.pools)
    {
      kept := server;
      if !lua || depth > 0 {
        return;
      }
      closing := true;
      if dead {
        lua := false;                   // everything is leaked as it is
      } else {
        kept := TakeApart(reload, server, deletable, finalizers);
      }
    }

    /** LoadScripts, before the first script. */
    method Load(server: seq<set<int>>)
      requires Valid() && |server| == |TRAITS|
      modifies entities, entities.pools
      ensures Valid() && entities.all == EnumeratedAll(old(entities.all), server)
    {
      entities.Enumerate(server);
    }
  }

  /** The pools and the server are those of the entity world `w`. */
  ghost predicate IsWorld(all: seq<seq<Slot>>, server: seq<set<int>>, w: World)
    requires Shaped(all)
  {
    Shows(w.slots, all) && |server| == |TRAITS| && forall k :: 0 <= k < |KINDS| ==> server[k] == IdsOf(w.server, k)
  }

  /** Whether a reload treats an id as it should: it stays exactly if somebody else created it. */
  predicate Spares(w: World, kept: seq<set<int>>, key: Key)
    requires |kept| == |TRAITS|
  {
    key.id in kept[Index(key.kind)] <==> key !in w.ours
  }

  /** It does exactly if the mark of the id is right. */
  lemma {:induction false} SparesOthers(w: World, all: seq<seq<Slot>>, server: seq<set<int>>, deletable: seq<set<int>>, key: Key)
    requires Shaped(all) && |deletable| == |TRAITS| && IsWorld(all, server, w) && EntityLaws.AtRest(w)
    requires key in w.slots && key in w.server && key.id in deletable[Index(key.kind)]
    ensures Spares(w, Spared(all, server, deletable), key) <==> key !in w.foreign && key !in w.unmarked
    ensures key !in w.meddled ==> Spares(w, Spared(all, server, deletable), key)
  {
    var k := Index(key.kind);
    assert ShowsAt(w.slots, all, key);
    IdsOfIs(w.server, key);
    EntityLaws.Ownership(w, key);
    assert EntityLaws.GoodAt(w, key);
    OursIs(all, key);
    if key.kind.Player? {
      EntityLaws.PlayerUnmarked(w, key);
    }
  }

  lemma {:induction false} OursIs(all: seq<seq<Slot>>, key: Key)
    requires Shaped(all) && InRoom(key)
    ensures key.id in Ours(TRAITS[Index(key.kind)].0, all[Index(key.kind)]) <==> At(all, key).alive && At(all, key).createdByUs
  {
    var first, slots := TRAITS[Index(key.kind)].0, all[Index(key.kind)];
    assert At(all, key) == slots[key.id - first];
    if At(all, key).alive && At(all, key).createdByUs {
      assert first + (key.id - first) in Ours(first, slots);
    }
  }

  /**
    Reload.  If the new runtime cannot be built, nothing changes but the request.  Otherwise the
    old runtime holds no Lua reference any more, the server keeps exactly what is not marked or
    cannot be deleted, and the new pools adopt exactly that.  In a world `w` that has come about
    in any run, what the server keeps of the ids it can delete is exactly what others created: for
    every id nobody meddled with, and of the others for all but the foreign and the unmarked ones.
   */
  method Reload(outgoing: Runtime, builds: bool, events: seq<string>, now: int, server: seq<set<int>>,
                deletable: seq<set<int>>, finalizers: seq<Act>, ghost w: World)
    returns (r: Runtime, kept: seq<set<int>>)
    requires outgoing.Valid() && outgoing.Usable() && outgoing.depth == 0
    requires |server| == |deletable| == |TRAITS|
    modifies outgoing, outgoing.bus, outgoing.timers, outgoing.http, outgoing.entities, outgoing.entities.pools
    ensures |kept| == |TRAITS|
    ensures !builds ==>
              && r == outgoing && kept == server && r.Usable() && r.steps == old(r.steps) && !r.reloadRequested
              && unchanged(r.bus, r.timers, r.http) && unchanged(r.entities) && unchanged(r.entities.pools)
    ensures builds ==>
              && fresh(r) && r.Valid() && r.Usable() && kept == Spared(old(outgoing.entities.all), server, deletable)
              && outgoing.HoldsNothing() && !outgoing.lua && r.entities.all == EnumeratedAll(NewSlots(), kept)
    ensures builds ==> KeptExactly(old(outgoing.entities.all), server, deletable, kept)
    ensures builds && EntityLaws.AtRest(w) && IsWorld(old(outgoing.entities.all), server, w) ==>
              forall key <- w.slots :: key in w.server && key.id in deletable[Index(key.kind)] ==>
                && (Spares(w, kept, key) <==> key !in w.foreign && key !in w.unmarked)
                && (key !in w.meddled ==> Spares(w, kept, key))
  {
    r, kept := outgoing, server;
    if !builds {
      outgoing.reloadRequested := false;
      return;
    }
    ghost var all := outgoing.entities.all;
    r, kept := Replace(outgoing, events, now, server, deletable, finalizers);
    SparesAll(w, all, server, deletable);
    forall k: nat, id: int | k < |TRAITS|
      ensures id in kept[k] <==> id in server[k] && !(k != PLAYER && MarkedIn(all, k, id) && id in deletable[k])
    {
      SparedExactly(all, server, deletable, k, id);
    }
  }

  /** Of every kind, key binds included, the server keeps all but the marked ids it can delete; and it keeps every player. */
  ghost predicate KeptExactly(all: seq<seq<Slot>>, server: seq<set<int>>, deletable: seq<set<int>>, kept: seq<set<int>>)
    requires Shaped(all) && |server| == |deletable| == |kept| == |TRAITS|
  {
    forall k: nat, id: int | k < |TRAITS| ::
      id in kept[k] <==> id in server[k] && !(k != PLAYER && MarkedIn(all, k, id) && id in deletable[k])
  }

  lemma {:induction false} SparesAll(w: World, all: seq<seq<Slot>>, server: seq<set<int>>, deletable: seq<set<int>>)
    requires Shaped(all) && |server| == |deletable| == |TRAITS|
    ensures EntityLaws.AtRest(w) && IsWorld(all, server, w) ==>
              forall key <- w.slots :: key in w.server && key.id in deletable[Index(key.kind)] ==>
                && (Spares(w, Spared(all, server, deletable), key) <==> key !in w.foreign && key !in w.unmarked)
                && (key !in w.meddled ==> Spares(w, Spared(all, server, deletable), key))
  {
    if EntityLaws.AtRest(w) && IsWorld(all, server, w) {
      forall key <- w.slots | key in w.server && key.id in deletable[Index(key.kind)]
        ensures Spares(w, Spared(all, server, deletable), key) <==> key !in w.foreign && key !in w.unmarked
        ensures key !in w.meddled ==> Spares(w, Spared(all, server, deletable), key)
      {
        SparesOthers(w, all, server, deletable, key);
      }
    }
  }

  /** The new runtime is built, the old one goes, and the new pools adopt what is left. */
  method Replace(outgoing: Runtime, events: seq<string>, now: int, server: seq<set<int>>, deletable: seq<set<int>>,
                 finalizers: seq<Act>)
    returns (r: Runtime, kept: seq<set<int>>)
    requires outgoing.Valid() && outgoing.Usable() && outgoing.depth == 0 && |server| == |deletable| == |TRAITS|
    modifies outgoing, outgoing.bus, outgoing.timers, outgoing.http, outgoing.entities, outgoing.entities.pools
    ensures kept == Spared(old(outgoing.entities.all), server, deletable) && outgoing.HoldsNothing() && !outgoing.lua
    ensures fresh(r) && r.Valid() && r.Usable() && r.entities.all == EnumeratedAll(NewSlots(), kept)
  {
    r, kept := Swap(outgoing, events, now, server, deletable, finalizers);
    r.Load(kept);
  }

  /** The new runtime is there before the old one goes. */
  method Swap(outgoing: Runtime, events: seq<string>, now: int, server: seq<set<int>>, deletable: seq<set<int>>,
              finalizers: seq<Act>)
    returns (r: Runtime, kept: seq<set<int>>)
    requires outgoing.Valid() && outgoing.Usable() && outgoing.depth == 0 && |server| == |deletable| == |TRAITS|
    modifies outgoing, outgoing.bus, outgoing.timers, outgoing.http, outgoing.entities, outgoing.entities.pools
    ensures kept == Spared(old(outgoing.entities.all), server, deletable) && outgoing.HoldsNothing() && !outgoing.lua
    ensures fresh(r) && fresh(r.entities) && (forall k :: 0 <= k < |r.entities.pools| ==> fresh(r.entities.pools[k]))
    ensures r.Valid() && r.Usable() && r.entities.all == NewSlots()
  {
    r := new Runtime(events, now);
    kept := GoFor(outgoing, server, deletable, finalizers);
  }

  method GoFor(outgoing: Runtime, server: seq<set<int>>, deletable: seq<set<int>>, finalizers: seq<Act>)
    returns (kept: seq<set<int>>)
    requires outgoing.Valid() && outgoing.Usable() && outgoing.depth == 0 && |server| == |deletable| == |TRAITS|
    modifies outgoing, outgoing.bus, outgoing.timers, outgoing.http, outgoing.entities, outgoing.entities.pools
    ensures kept == Spared(old(outgoing.entities.all), server, deletable) && outgoing.HoldsNothing() && !outgoing.lua
  {
    kept := outgoing.Shutdown(true, server, deletable, finalizers);
  }

  /** So the new pools have exactly what the server kept alive, and mark nothing. */
  lemma {:induction false} NewPoolsMirror(kept: seq<set<int>>, k: nat)
    requires |kept| == |TRAITS| && k < |TRAITS|
    ensures Mirrors(TRAITS[k].0, EnumeratedAll(NewSlots(), kept)[k], kept[k])
  {
    EnumeratedMirrors(TRAITS[k].0, NewSlots()[k], kept[k], TRAITS[k]);
  }
}
