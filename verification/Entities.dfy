/**
  The plugin and the server at work on the entities (src/plugin/callbacks.cpp,
  src/bindings/entity_type.hpp, src/bindings/server.cpp, src/runtime/runtime.cpp).  Every
  operation changes the pools and the server in place; what it comes to is given by the functions
  of the entity world, and what those promise holds of every run.
 */
module Entities {
  import opened Wrappers
  import opened EntityPool
  import opened EntityPools
  import opened EntityWorld
  import opened EntityLaws
  import opened EntityView

  class Bridge {
    const entities: EntityPools
    var server: set<Key>
    ghost var now: World       // what the pools and the server come to, with the history

    ghost predicate Valid()
      reads this, entities, entities.pools
    {
      Ready() && Shows(now.slots, entities.all) && now.server == server
    }

    ghost predicate Ready()
      reads entities, entities.pools
    {
      entities.Valid() && entities.Open()
    }

    constructor (entities: EntityPools, existing: set<Key>)
      ensures this.entities == entities && server == existing && now == Opened(Room(), existing)
    {
      this.entities := entities;
      server := existing;
      now := Opened(Room(), existing);
    }

    // -------------------------------------------------------------- the pools

    method IsAlive(key: Key) returns (alive: bool)
      requires Valid()
      ensures alive <==> Alive(now.slots, key)
    {
      alive := entities.Alive(Index(key.kind), key.id);
      assert ShowsAt(now.slots, entities.all, key);
    }

    /** EntityPool::Adopt; ids outside the pools are ignored. */
    method Adopt(key: Key, ghost slots: map<Key, Slot>)
      requires Ready() && Shows(slots, entities.all)
      modifies entities, entities.pools
      ensures Ready() && Shows(AdoptAt(slots, key), entities.all)
    {
      ShowsAdopted(slots, entities.all, key);
      entities.Adopt(Index(key.kind), key.id);
    }

    method Release(key: Key, ghost slots: map<Key, Slot>)
      requires Ready() && Shows(slots, entities.all)
      modifies entities, entities.pools
      ensures Ready() && Shows(ReleaseAt(slots, key), entities.all)
    {
      ShowsReleased(slots, entities.all, key);
      entities.Release(Index(key.kind), key.id);
    }

    method Mark(key: Key, ghost slots: map<Key, Slot>)
      requires Ready() && Shows(slots, entities.all)
      modifies entities, entities.pools
      ensures Ready() && Shows(MarkAt(slots, key), entities.all)
    {
      ShowsMarked(slots, entities.all, key);
      entities.MarkCreatedByUs(Index(key.kind), key.id);
    }

    /** The handle of an entity or player: there is one exactly if it is alive. */
    method Use(key: Key) returns (handle: Option<nat>)
      requires Valid()
      modifies entities, entities.pools
      ensures Valid() && (handle.Some? <==> Alive(now.slots, key))
    {
      ghost var before := entities.all;
      assert ShowsAt(now.slots, before, key);
      handle := entities.Push(Index(key.kind), key.id);
      ShowsHandle(now.slots, before, key, handle);
    }

    // -------------------------------------------------------------- what the plugin and the server do at once

    /** EntityPool::Seen, for something the server has. */
    method See(key: Key)
      requires Valid()
      modifies this`now, entities, entities.pools
      ensures Valid() && now == Sighted(old(now), key)
    {
      Adopt(key, now.slots);
      now := Sighted(now, key);
    }

    /** The server creates an entity for us, and OnEntityPoolChange adopts it. */
    method Appear(key: Key)
      requires Valid()
      modifies this, entities, entities.pools
      ensures Valid() && now == Created(old(now), key)
    {
      server := server + {key};
      Adopt(key, now.slots);
      now := Created(now, key);
    }

    /** The end of a Create* binding: the id is adopted again and marked. */
    method Finish(key: Key)
      requires Valid()
      modifies this`now, entities, entities.pools
      ensures Valid() && now == Made(old(now), key)
    {
      Adopt(key, now.slots);
      Mark(key, AdoptAt(now.slots, key));
      now := Made(now, key);
    }

    method Enter(key: Key)
      requires Valid()
      modifies this
      ensures Valid() && now == Arrived(old(now), key)
    {
      server := server + {key};
      now := Arrived(now, key);
    }

    /** OnEntityPoolChange "created", or OnPlayerConnect. */
    method Hear(key: Key)
      requires Valid()
      modifies this`now, entities, entities.pools
      ensures Valid() && now == Told(old(now), key)
    {
      Adopt(key, now.slots);
      now := Told(now, key);
    }

    /** The end of OnEntityPoolChange "deleted". */
    method LetGo(key: Key)
      requires Valid()
      modifies this`now, entities, entities.pools
      ensures Valid() && now == Releasing(old(now), key)
    {
      Release(key, now.slots);
      now := Releasing(now, key);
    }

    method Forget(key: Key)
      requires Valid()
      modifies this
      ensures Valid() && now == Removed(old(now), key)
    {
      server := server - {key};
      now := Removed(now, key);
    }

    method ForgetBlip(key: Key)
      requires Valid()
      modifies this
      ensures Valid() && now == BlipGoes(old(now), key)
    {
      server := server - {key};
      now := BlipGoes(now, key);
    }

    /** The last release of a blip: by OnEntityPoolChange, or by the binding that destroyed it. */
    method LetGoBlip(key: Key)
      requires Valid()
      modifies this`now, entities, entities.pools
      ensures Valid() && now == BlipGone(old(now), key)
    {
      Release(key, now.slots);
      now := BlipGone(now, key);
    }

    /** A release after which the call goes on or is over. */
    method Drop(key: Key)
      requires Valid()
      modifies this`now, entities, entities.pools
      ensures Valid() && now == Dropped(old(now), key)
    {
      Release(key, now.slots);
      now := Dropped(now, key);
    }

    /** The end of OnPlayerDisconnect, or of one turn of the shutdown loop. */
    method Depart(key: Key, shutdown: bool)
      requires Valid() && key in now.slots
      modifies this`now, entities, entities.pools
      ensures Valid() && now == Departed(old(now), key, shutdown)
    {
      Release(key, now.slots);
      now := Departed(now, key, shutdown);
    }

    // -------------------------------------------------------------- scripts and other plugins

    /** What runs now, up to its end. */
    method RunLua(tape: seq<Act>) returns (rest: seq<Act>)
      requires Valid()
      modifies this, entities, entities.pools
      ensures Valid() && Ran(now, rest) == EntityWorld.RunLua(old(now), tape)
      decreases |tape|, 0
    {
      if tape == [] {
        return [];
      }
      if tape[0].Return? {
        return tape[1..];
      }
      rest := Step(tape[0], tape[1..]);
      rest := RunLua(rest);
    }

    method Step(act: Act, tape: seq<Act>) returns (rest: seq<Act>)
      requires Valid()
      modifies this, entities, entities.pools
      ensures Valid() && Ran(now, rest) == EntityWorld.Step(old(now), act, tape)
      decreases |tape|, 4
    {
      rest := tape;
      match act
      case Create(key) => rest := CreateBinding(key, rest);
      case Appears(key) =>
        if !key.kind.Player? && key !in server {
          rest := Arrive(key, rest);
        }
      case Destroy(key) => rest := DestroyBinding(key, rest);
      case Disappears(key) =>
        if key in server {
          if key.kind.Player? {
            rest := Disconnect(key, rest);
          } else {
            rest := DeleteEntity(key, rest);
          }
        }
      case Kick(key) =>
        var alive := IsAlive(key);
        if key.kind.Player? && alive && key in server {
          rest := Disconnect(key, rest);
        }
      case Report(key) =>
        if key in server && !key.kind.Blip? {
          See(key);
          rest := RunLua(rest);
        }
      case Use(key) => var _ := Use(key);
      case _ =>
    }

    // -------------------------------------------------------------- entities

    /** A Create* binding: we hear of the entity first; afterwards the id is adopted again and marked. */
    method CreateBinding(key: Key, tape: seq<Act>) returns (rest: seq<Act>)
      requires Valid()
      modifies this, entities, entities.pools
      ensures Valid() && Ran(now, rest) == EntityWorld.CreateBinding(old(now), key, tape)
      decreases |tape|, 2
    {
      if key.kind.Player? || key in server {
        return tape;                    // no such binding, or an id the server would not give out
      }
      Appear(key);
      rest := RunLua(tape);
      Finish(key);
    }

    /** Another plugin's Create*, or a player that connects: others may hear of it before us. */
    method Arrive(key: Key, tape: seq<Act>) returns (rest: seq<Act>)
      requires Valid()
      modifies this, entities, entities.pools
      ensures Valid() && Ran(now, rest) == EntityWorld.Arrive(old(now), key, tape)
      decreases |tape|, 1
    {
      Enter(key);
      rest := RunLua(tape);
      Hear(key);
      rest := RunLua(rest);
    }

    /** Delete*: the handlers run, the slot is released, and the others have their events. */
    method DeleteEntity(key: Key, tape: seq<Act>) returns (rest: seq<Act>)
      requires Valid()
      modifies this, entities, entities.pools
      ensures Valid() && Ran(now, rest) == EntityWorld.DeleteEntity(old(now), key, tape)
      decreases |tape|, 2
    {
      if key.kind.Blip? {
        ForgetBlip(key);
        rest := RunLua(tape);
        LetGoBlip(key);
        rest := RunLua(rest);
      } else {
        rest := RunLua(tape);
        LetGo(key);
        rest := Leave(key, rest);
      }
    }

    /** The others have their events, and then the server forgets the id. */
    method Leave(key: Key, tape: seq<Act>) returns (rest: seq<Act>)
      requires Valid()
      modifies this, entities, entities.pools
      ensures Valid() && Ran(now, rest) == EntityWorld.Leave(old(now), key, tape)
      decreases |tape|, 1
    {
      rest := RunLua(tape);
      Forget(key);
    }

    /** A destroy binding; it releases the slot once more, a blip also when the server has no such blip. */
    method DestroyBinding(key: Key, tape: seq<Act>) returns (rest: seq<Act>)
      requires Valid()
      modifies this, entities, entities.pools
      ensures Valid() && Ran(now, rest) == EntityWorld.DestroyBinding(old(now), key, tape)
      decreases |tape|, 3
    {
      rest := tape;
      var alive := IsAlive(key);
      if key.kind.Blip? && key in server {
        rest := DestroyBlip(key, tape);
      } else if key.kind.Blip? {
        Drop(key);                      // the server has no such blip
      } else if !key.kind.Player? && key in server && alive {
        rest := DeleteEntity(key, tape);
        Drop(key);
      }
    }

    /** Blip.destroy of a blip the server has. */
    method DestroyBlip(key: Key, tape: seq<Act>) returns (rest: seq<Act>)
      requires Valid()
      modifies this, entities, entities.pools
      ensures Valid() && Ran(now, rest) == EntityWorld.DestroyBlip(old(now), key, tape)
      decreases |tape|, 1
    {
      ForgetBlip(key);
      rest := RunLua(tape);
      Drop(key);                        // OnEntityPoolChange, "deleted"
      rest := RunLua(rest);
      LetGoBlip(key);                   // the binding's own release
    }

    // -------------------------------------------------------------- players

    /** KickPlayer, or a player that quits: OnPlayerDisconnect runs while it is still connected. */
    method Disconnect(key: Key, tape: seq<Act>) returns (rest: seq<Act>)
      requires Valid()
      modifies this, entities, entities.pools
      ensures Valid() && Ran(now, rest) == EntityWorld.Disconnect(old(now), key, tape)
      decreases |tape|, 2
    {
      assert ShowsAt(now.slots, entities.all, key);
      if InRoom(key) {
        See(key);
        rest := SayGoodbye(key, false, tape);
        rest := Leave(key, rest);
      } else {
        rest := RunLua(tape);
        server := server - {key};
        now := now.(server := server);
      }
    }

    /** Our disconnect event, and the release after it. */
    method SayGoodbye(key: Key, shutdown: bool, tape: seq<Act>) returns (rest: seq<Act>)
      requires Valid() && key in now.slots
      modifies this, entities, entities.pools
      ensures Valid() && Ran(now, rest) == EntityWorld.SayGoodbye(old(now), key, shutdown, tape)
      decreases |tape|, 1
    {
      now := Announcing(now, key);
      rest := RunLua(tape);
      Depart(key, shutdown);
    }

    /** The live players, in the order of their ids. */
    method AlivePlayers() returns (players: seq<Key>)
      requires Valid()
      ensures Lists(players, now)
      ensures forall i, j :: 0 <= i < j < |players| ==> players[i].id < players[j].id
    {
      players := [];
      forall key: Key | key.kind.Player? && Alive(now.slots, key)
        ensures TRAITS[PLAYER].0 <= key.id < TRAITS[PLAYER].1
      {
        assert ShowsAt(now.slots, entities.all, key);
      }
      for id := TRAITS[PLAYER].0 to TRAITS[PLAYER].1
        invariant forall key :: key in players <==> key.kind.Player? && Alive(now.slots, key) && key.id < id
        invariant forall i, j :: 0 <= i < j < |players| ==> players[i].id < players[j].id
      {
        var alive := IsAlive(Key(Player, id));
        if alive {
          players := players + [Key(Player, id)];
        }
      }
    }

    /** Runtime::NotifyServerShutdown: one disconnect event for each player still alive at its turn. */
    method NotifyServerShutdown(tape: seq<Act>) returns (ghost players: seq<Key>)
      requires Valid()
      modifies this, entities, entities.pools
      ensures Valid() && Lists(players, EntityWorld.RunLua(old(now), tape).w)
      ensures now == ShutDown(old(now), players, tape)
    {
      var rest := RunLua(tape);         // onServerShutdown
      var list := AlivePlayers();
      players := list;
      ghost var goal := Dismissals(now, list, rest);
      for i := 0 to |list|
        invariant Valid() && goal == Dismissals(now, list[i..], rest)
      {
        assert list[i..][1..] == list[i + 1..];
        var alive := IsAlive(list[i]);
        if alive {
          rest := SayGoodbye(list[i], true, rest);
        }
      }
    }

    /** One thing the server does while no callback is active. */
    method Outermost(act: Act, tape: seq<Act>) returns (rest: seq<Act>)
      requires Valid()
      modifies this, entities, entities.pools
      ensures Valid() && Ran(now, rest) == EntityWorld.Outermost(old(now), act, tape)
    {
      rest := tape;
      if act.Joins? {
        if act.key.kind.Player? && act.key !in server {
          rest := Arrive(act.key, tape);
        }
      } else if act.Quits? {
        if act.key.kind.Player? && act.key in server {
          rest := Disconnect(act.key, tape);
        }
      } else {
        rest := Step(act, tape);
      }
    }
  }

  /** The pools of a new runtime: everything that exists and has a slot is adopted. */
  method StartUp(existing: set<Key>) returns (entities: EntityPools)
    ensures fresh(entities) && forall k :: 0 <= k < |entities.pools| ==> fresh(entities.pools[k])
    ensures entities.Valid() && entities.Open() && entities.all == EnumeratedAll(NewSlots(), IdsOfAll(existing))
  {
    entities := new EntityPools();
    entities.Enumerate(IdsOfAll(existing));
  }

  method Begin(existing: set<Key>) returns (b: Bridge)
    ensures fresh(b) && fresh(b.entities) && (forall k :: 0 <= k < |b.entities.pools| ==> fresh(b.entities.pools[k]))
    ensures b.Valid() && b.now == Opened(Room(), existing)
  {
    ShowsOpened(existing);
    var entities := StartUp(existing);
    b := new Bridge(entities, existing);
  }

  /** What holds outside the callbacks, of every id the pools have room for. */
  ghost predicate Accounted(w: World, key: Key)
    requires key in w.slots
  {
    && ((w.slots[key].alive <==> key in w.server) <==> key !in w.stale && key !in w.lost)
    && ((w.slots[key].createdByUs <==> key in w.ours) <==> key !in w.foreign && key !in w.unmarked)
  }

  /** What holds of every id nobody has meddled with: a handle then names one entity of the server. */
  ghost predicate InOrder(w: World, key: Key)
    requires key in w.slots
  {
    && (w.slots[key].alive <==> key in w.server)
    && (w.slots[key].createdByUs <==> key in w.ours)
    && w.slots[key].births == w.spawned[key]
  }

  /** Which lifetimes of a player were announced: those that are over, but for the silent ones. */
  ghost predicate Heard(w: World, key: Key, life: nat)
    requires key in w.slots
  {
    Farewell(key, life) in w.log <==> Over(w.slots[key], life) && Farewell(key, life) !in w.silent
  }

  /**
    A whole life of a runtime, with anything nested in anything.  Outside the callbacks pool and
    server agree on every id to which nobody did anything inside a call about it, its mark is
    right, and the lifetimes of its slot are the entities the server has had under it.  Of the
    other ids they agree exactly on those that are neither stale nor lost, and the mark is right
    exactly on those that are neither foreign nor unmarked.  The lifetimes of players that were announced are those
    that are over.  None was announced twice exactly if no handler kicked a player inside that
    player's own disconnect event, and only then can one have ended silently.  And through all of
    it every lifetime has had at most one handle.
   */
  method Serve(existing: set<Key>, tape: seq<Act>) returns (b: Bridge)
    ensures fresh(b) && fresh(b.entities) && (forall k :: 0 <= k < |b.entities.pools| ==> fresh(b.entities.pools[k]))
    ensures b.Valid() && b.now == Served(Opened(Room(), existing), tape) && AtRest(b.now)
    ensures forall key <- b.now.slots :: key !in b.now.meddled ==> InOrder(b.now, key)
    ensures forall key <- b.now.slots :: Accounted(b.now, key)
    ensures forall key, life: nat | key in b.now.slots && key.kind.Player? && 1 <= life :: Heard(b.now, key, life)
    ensures NoneTwice(b.now.log) <==> !b.now.doubled
    ensures !b.now.doubled ==> b.now.silent == {}
    ensures forall k :: 0 <= k < |b.entities.pools| ==> Unique(b.entities.pools[k].made)
  {
    b := Begin(existing);
    var rest := tape;
    ghost var goal := Served(b.now, tape);
    while rest != []
      invariant fresh(b) && fresh(b.entities) && (forall k :: 0 <= k < |b.entities.pools| ==> fresh(b.entities.pools[k]))
      invariant b.Valid() && goal == Served(b.now, rest)
      decreases |rest|
    {
      rest := b.Outermost(rest[0], rest[1..]);
    }
    OpenedAtRest(Room(), existing);
    ServedKeeps(Opened(Room(), existing), tape);
    AllAccounted(b.now);
  }

  lemma AllAccounted(w: World)
    requires AtRest(w)
    ensures forall key <- w.slots :: key !in w.meddled ==> InOrder(w, key)
    ensures forall key <- w.slots :: Accounted(w, key)
    ensures forall key, life: nat | key in w.slots && key.kind.Player? && 1 <= life :: Heard(w, key, life)
    ensures (NoneTwice(w.log) <==> !w.doubled) && (!w.doubled ==> w.silent == {})
  {
    forall key <- w.slots | key !in w.meddled ensures InOrder(w, key) {
      Untouched(w, key);
    }
    forall key <- w.slots ensures Accounted(w, key) {
      Agreement(w, key);
      Ownership(w, key);
    }
    forall key, life: nat | key in w.slots && key.kind.Player? && 1 <= life ensures Heard(w, key, life) {
      ExactlyAnnounced(w, key, life);
    }
  }

  /**
    The same up to and including the server's shutdown: a player is alive afterwards exactly if
    an event was reported about it after its farewell, and of all lifetimes there ever were
    exactly those of such players that began then, and the silent ones, were not announced.
   */
  method ServeUntilShutdown(existing: set<Key>, tape: seq<Act>, last: seq<Act>) returns (b: Bridge, ghost players: seq<Key>)
    ensures b.Valid() && b.now == ShutDown(Served(Opened(Room(), existing), tape), players, last)
    ensures Lists(players, EntityWorld.RunLua(Served(Opened(Room(), existing), tape), last).w)
    ensures forall key <- b.now.slots :: key.kind.Player? ==> (b.now.slots[key].alive <==> key in b.now.revived)
    ensures forall key, life: nat | key in b.now.slots && key.kind.Player? && 1 <= life <= b.now.slots[key].births ::
              LastHeard(b.now, key, life)
    ensures (NoneTwice(b.now.log) <==> !b.now.doubled) && (!b.now.doubled ==> b.now.silent == {})
  {
    b := Serve(existing, tape);
    ghost var before := b.now;
    players := b.NotifyServerShutdown(last);
    ShutDownKeeps(before, players, last);
    AllHeard(b.now);
  }

  /** Which lifetimes were announced in the end. */
  ghost predicate LastHeard(w: World, key: Key, life: nat)
    requires key in w.slots
  {
    Farewell(key, life) in w.log
    <==> !(key in w.revived && life == w.slots[key].births) && Farewell(key, life) !in w.silent
  }

  lemma AllHeard(w: World)
    requires InLoop(w) && forall key <- w.slots :: key.kind.Player? ==> (w.slots[key].alive <==> key in w.revived)
    ensures forall key, life: nat | key in w.slots && key.kind.Player? && 1 <= life <= w.slots[key].births ::
              LastHeard(w, key, life)
    ensures (NoneTwice(w.log) <==> !w.doubled) && (!w.doubled ==> w.silent == {})
  {
    forall key, life: nat | key in w.slots && key.kind.Player? && 1 <= life <= w.slots[key].births
      ensures LastHeard(w, key, life)
    {
      ExactlyAnnounced(w, key, life);
    }
  }
}
