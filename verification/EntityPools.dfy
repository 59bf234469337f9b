/**
  The pools of all kinds (EntityPools in src/core/entity_pool.{hpp,cpp}): what start-up adopts,
  what a reload deletes, and what a shutdown closes and lets go.
 */
module EntityPools {
  import opened Wrappers
  import opened EntityPool

  /** Player, Vehicle, Object, Pickup, Checkpoint, Blip, Bind: first id and capacity. */
  const TRAITS: seq<(nat, nat)> := [(0, 100), (1, 1001), (0, 3000), (0, 2000), (0, 2000), (0, 100), (0, 256)]

  const PLAYER := 0

  predicate NoRefs(slots: seq<Slot>) {
    forall i :: 0 <= i < |slots| ==> slots[i].handle.None? && slots[i].data.None?
  }

  /** The marked ids of a pool. */
  function Ours(firstId: int, slots: seq<Slot>): set<int> {
    set i | 0 <= i < |slots| && slots[i].alive && slots[i].createdByUs :: firstId + i
  }

  /** A slot after a reload has deleted what the runtime created. */
  function Swept(s: Slot): Slot {
    if s.createdByUs then Released(s) else s
  }

  predicate AllSwept(slots: seq<Slot>, later: seq<Slot>) {
    |slots| == |later| && forall i :: 0 <= i < |slots| ==> later[i] == Swept(slots[i])
  }

  /** The slots of the ids `done` have been released. */
  predicate ReleasedAt(slots: seq<Slot>, later: seq<Slot>, firstId: int, done: seq<int>) {
    && |later| == |slots|
    && forall k :: 0 <= k < |slots| ==> later[k] == if firstId + k in done then Released(slots[k]) else slots[k]
  }

  lemma {:induction false} ReleaseOneMore(slots: seq<Slot>, later: seq<Slot>, firstId: int, done: seq<int>, id: int)
    requires ReleasedAt(slots, later, firstId, done)
    ensures ReleasedAt(slots, Update(later, id - firstId, Released), firstId, done + [id])
  {
  }

  /** What the server keeps when it deletes the ids `done` it can delete. */
  function Without(existing: set<int>, done: seq<int>, deletable: set<int>): set<int> {
    set id <- existing | !(id in done && id in deletable)
  }

  lemma {:induction false} WithoutOneMore(existing: set<int>, done: seq<int>, deletable: set<int>, id: int)
    ensures Without(existing, done + [id], deletable)
            == if id in deletable then Without(existing, done, deletable) - {id} else Without(existing, done, deletable)
  {
  }

  lemma {:induction false} AllReleased(slots: seq<Slot>, later: seq<Slot>, firstId: int, ids: seq<int>,
                                       existing: set<int>, deletable: set<int>)
    requires ReleasedAt(slots, later, firstId, ids)
    requires forall id :: id in ids <==> id in Ours(firstId, slots)
    ensures AllSwept(slots, later)
    ensures Without(existing, ids, deletable) == existing - Ours(firstId, slots) * deletable
  {
    forall i | 0 <= i < |slots| ensures later[i] == Swept(slots[i]) {
      assert firstId + i in Ours(firstId, slots) <==> slots[i].alive && slots[i].createdByUs;
    }
    forall id <- existing ensures id in Without(existing, ids, deletable) <==> id in existing - Ours(firstId, slots) * deletable {
    }
  }

  /** The server deletes what is marked, where it can; the rest it keeps. */
  method DeleteMarked(pool: EntityPool, existing: set<int>, deletable: set<int>) returns (kept: set<int>)
    requires pool.Valid()
    modifies pool`slots
    ensures pool.Valid() && AllSwept(old(pool.slots), pool.slots)
    ensures kept == existing - Ours(pool.firstId, old(pool.slots)) * deletable
  {
    kept := existing;
    var ids := pool.Ids(true);
    assert ids[..0] == [];
    for i := 0 to |ids|
      invariant pool.Valid() && ReleasedAt(old(pool.slots), pool.slots, pool.firstId, ids[..i])
      invariant kept == Without(existing, ids[..i], deletable)
    {
      assert ids[..i + 1] == ids[..i] + [ids[i]];
      WithoutOneMore(existing, ids[..i], deletable, ids[i]);
      ReleaseOneMore(old(pool.slots), pool.slots, pool.firstId, ids[..i], ids[i]);
      if ids[i] in deletable {
        kept := kept - {ids[i]};
      }
      pool.Release(ids[i]);
    }
    assert ids[..|ids|] == ids;
    AllReleased(old(pool.slots), pool.slots, pool.firstId, ids, existing, deletable);
  }

  /** The live ids are exactly those of the server that have a slot, and none is ours. */
  predicate Mirrors(firstId: int, slots: seq<Slot>, existing: set<int>) {
    forall i :: 0 <= i < |slots| ==> (slots[i].alive <==> firstId + i in existing) && !slots[i].createdByUs
  }

  /** The slots once everything that exists is adopted. */
  function Enumerated(firstId: int, slots: seq<Slot>, existing: set<int>): seq<Slot> {
    seq(|slots|, i requires 0 <= i < |slots| => if firstId + i in existing then Adopted(slots[i]) else slots[i])
  }

  lemma {:induction false} EnumeratedMirrors(firstId: int, slots: seq<Slot>, existing: set<int>, traits: (nat, nat))
    requires IsNew(slots, traits)
    ensures Mirrors(firstId, Enumerated(firstId, slots, existing), existing)
  {
  }

  /** Adopts what exists already. */
  method AdoptExisting(pool: EntityPool, existing: set<int>)
    requires pool.Valid()
    modifies pool`slots
    ensures pool.Valid() && pool.slots == Enumerated(pool.firstId, old(pool.slots), existing)
  {
    for i := 0 to |pool.slots|
      invariant pool.Valid() && |pool.slots| == |old(pool.slots)|
      invariant forall k :: 0 <= k < |pool.slots| ==>
                  pool.slots[k] == if k < i && pool.firstId + k in existing then Adopted(old(pool.slots)[k]) else old(pool.slots)[k]
    {
      if pool.firstId + i in existing {
        pool.Adopt(pool.firstId + i);
      }
    }
  }

  predicate IsNew(slots: seq<Slot>, traits: (nat, nat)) {
    traits.0 + |slots| == traits.1 && forall i :: 0 <= i < |slots| ==> slots[i] == FREE
  }

  lemma {:induction false} NewIs(slots: seq<Slot>, k: nat)
    requires k < |TRAITS| && IsNew(slots, TRAITS[k])
    ensures slots == NewSlots()[k]
  {
    assert IsNew(NewSlots()[k], TRAITS[k]);
  }

  method MakePools() returns (pools: seq<EntityPool>)
    ensures |pools| == |TRAITS| && forall k :: 0 <= k < |pools| ==>
              && fresh(pools[k]) && pools[k].Valid() && !pools[k].closed
              && pools[k].firstId == TRAITS[k].0 && pools[k].slots == NewSlots()[k]
    ensures forall j, k :: 0 <= j < k < |pools| ==> pools[j] != pools[k]
  {
    pools := [];
    for n := 0 to |TRAITS|
      invariant |pools| == n && forall k :: 0 <= k < n ==>
                  && fresh(pools[k]) && pools[k].Valid() && !pools[k].closed
                  && pools[k].firstId == TRAITS[k].0 && pools[k].slots == NewSlots()[k]
      invariant forall j, k :: 0 <= j < k < n ==> pools[j] != pools[k]
    {
      var pool := new EntityPool(TRAITS[n].0, TRAITS[n].1 - TRAITS[n].0);
      NewIs(pool.slots, n);
      pools := pools + [pool];
    }
  }

  /** The slots of all pools. */
  predicate Shaped(all: seq<seq<Slot>>) {
    |all| == |TRAITS| && forall k :: 0 <= k < |all| ==> TRAITS[k].0 + |all[k]| == TRAITS[k].1
  }

  /** One operation on the slot of an id; ids outside change nothing. */
  function UpdateIn(all: seq<seq<Slot>>, n: nat, id: int, f: Slot -> Slot): (later: seq<seq<Slot>>)
    requires Shaped(all) && n < |all|
    ensures Shaped(later)
  {
    all[n := Update(all[n], id - TRAITS[n].0, f)]
  }

  function NewSlots(): (all: seq<seq<Slot>>)
    ensures Shaped(all) && forall k :: 0 <= k < |all| ==> IsNew(all[k], TRAITS[k])
  {
    seq(|TRAITS|, k requires 0 <= k < |TRAITS| => seq(TRAITS[k].1 - TRAITS[k].0, i => FREE))
  }

  function EnumeratedAll(all: seq<seq<Slot>>, server: seq<set<int>>): (later: seq<seq<Slot>>)
    requires Shaped(all) && |server| == |all|
    ensures Shaped(later)
  {
    seq(|TRAITS|, k requires 0 <= k < |TRAITS| => Enumerated(TRAITS[k].0, all[k], server[k]))
  }

  /** What is left on the server of each kind once the marked entities are deleted; players always stay. */
  function Spared(all: seq<seq<Slot>>, server: seq<set<int>>, deletable: seq<set<int>>): (kept: seq<set<int>>)
    requires Shaped(all) && |server| == |deletable| == |TRAITS|
    ensures |kept| == |TRAITS|
  {
    seq(|TRAITS|, k requires 0 <= k < |TRAITS| =>
      if k == PLAYER then server[k] else server[k] - Ours(TRAITS[k].0, all[k]) * deletable[k])
  }

  /** The pool's slot for `id` carries the mark of an entity this runtime created. */
  predicate MarkedIn(all: seq<seq<Slot>>, k: nat, id: int)
    requires Shaped(all) && k < |TRAITS|
  {
    TRAITS[k].0 <= id < TRAITS[k].1 && all[k][id - TRAITS[k].0].alive && all[k][id - TRAITS[k].0].createdByUs
  }

  /** Of every kind but players, key binds included, exactly the marked ids that can be deleted go. */
  lemma {:induction false} SparedExactly(all: seq<seq<Slot>>, server: seq<set<int>>, deletable: seq<set<int>>, k: nat, id: int)
    requires Shaped(all) && |server| == |deletable| == |TRAITS| && k < |TRAITS|
    ensures id in Spared(all, server, deletable)[k]
            <==> id in server[k] && !(k != PLAYER && MarkedIn(all, k, id) && id in deletable[k])
  {
    if MarkedIn(all, k, id) {
      assert TRAITS[k].0 + (id - TRAITS[k].0) in Ours(TRAITS[k].0, all[k]);
    }
  }

  class EntityPools {
    const pools: seq<EntityPool>

    ghost var all: seq<seq<Slot>>   // the slots of the pools

    ghost predicate Valid()
      reads this, pools
    {
      && |pools| == |TRAITS| && Shaped(all)
      && (forall k :: 0 <= k < |pools| ==>
            pools[k].Valid() && pools[k].firstId == TRAITS[k].0 && pools[k].slots == all[k])
      && (forall j, k :: 0 <= j < k < |pools| ==> pools[j] != pools[k])
    }

    ghost predicate Closed()
      reads pools
    {
      forall k :: 0 <= k < |pools| ==> pools[k].closed
    }

    ghost predicate Empty()
      reads this
    {
      forall k :: 0 <= k < |all| ==> NoRefs(all[k])
    }

    ghost predicate Open()
      reads pools
    {
      forall k :: 0 <= k < |pools| ==> !pools[k].closed
    }

    method Alive(n: nat, id: int) returns (alive: bool)
      requires Valid() && n < |pools|
      ensures alive <==> TRAITS[n].0 <= id < TRAITS[n].1 && all[n][id - TRAITS[n].0].alive
    {
      alive := pools[n].Alive(id);
    }

    /** EntityPools::Get(kind).Adopt(id). */
    method Adopt(n: nat, id: int)
      requires Valid() && n < |pools|
      modifies this, pools[n]
      ensures Valid() && all == UpdateIn(old(all), n, id, Adopted) && (old(Open()) ==> Open())
    {
      pools[n].Adopt(id);
      all := UpdateIn(all, n, id, Adopted);
    }

    method Release(n: nat, id: int)
      requires Valid() && n < |pools|
      modifies this, pools[n]
      ensures Valid() && all == UpdateIn(old(all), n, id, Released) && (old(Open()) ==> Open())
    {
      pools[n].Release(id);
      all := UpdateIn(all, n, id, Released);
    }

    method MarkCreatedByUs(n: nat, id: int)
      requires Valid() && n < |pools|
      modifies this, pools[n]
      ensures Valid() && all == UpdateIn(old(all), n, id, Marked) && (old(Open()) ==> Open())
    {
      pools[n].MarkCreatedByUs(id);
      all := UpdateIn(all, n, id, Marked);
    }

    /** The handle of the current lifetime of an id, or nil; nothing else changes. */
    method Push(n: nat, id: int) returns (pushed: Option<nat>)
      requires Valid() && n < |pools|
      modifies this, pools[n]
      ensures Valid() && (old(Open()) ==> Open())
      ensures pushed.Some? <==> !old(pools[n].closed) && TRAITS[n].0 <= id < TRAITS[n].1 && old(all)[n][id - TRAITS[n].0].alive
      ensures all == if pushed.None? then old(all) else UpdateIn(old(all), n, id, WithHandle(pushed))
    {
      var alive := Alive(n, id);
      if !alive || pools[n].closed {
        return None;
      }
      pushed := PushAlive(n, id);
    }

    method PushAlive(n: nat, id: int) returns (pushed: Option<nat>)
      requires Valid() && n < |pools| && !pools[n].closed && pools[n].Alive(id)
      modifies this, pools[n]
      ensures Valid() && (old(Open()) ==> Open())
      ensures pushed.Some? && all == UpdateIn(old(all), n, id, WithHandle(pushed))
    {
      pushed := pools[n].Push(id, pools[n].Slot_(id).generation);
      all := UpdateIn(all, n, id, WithHandle(pushed));
    }

    /** The slots of pool `n` have changed. */
    ghost method Sync(n: nat)
      requires |pools| == |TRAITS| && Shaped(all) && n < |pools| && |pools[n].slots| == |all[n]|
      requires forall k :: 0 <= k < |pools| ==>
                 pools[k].Valid() && pools[k].firstId == TRAITS[k].0 && (k != n ==> pools[k].slots == all[k])
      requires forall j, k :: 0 <= j < k < |pools| ==> pools[j] != pools[k]
      modifies this
      ensures Valid() && all == old(all)[n := pools[n].slots]
    {
      all := all[n := pools[n].slots];
    }

    constructor ()
      ensures Valid() && Open() && all == NewSlots()
      ensures forall k :: 0 <= k < |pools| ==> fresh(pools[k])
    {
      var made := MakePools();
      pools := made;
      all := NewSlots();
    }

    /** From here on no handle is made. */
    method Close()
      requires Valid()
      modifies pools
      ensures Valid() && Closed()
    {
      for n := 0 to |pools|
        invariant Valid() && forall k :: 0 <= k < n ==> pools[k].closed
      {
        CloseOne(n);
      }
    }

    method CloseOne(n: nat)
      requires Valid() && n < |pools|
      modifies pools[n]
      ensures Valid() && pools[n].closed
    {
      pools[n].Close();
    }

    /** A reload: kind by kind, but no player. */
    method DeleteCreated(server: seq<set<int>>, deletable: seq<set<int>>) returns (kept: seq<set<int>>)
      requires Valid() && Closed() && |server| == |deletable| == |TRAITS|
      modifies this, pools
      ensures Valid() && Closed() && kept == Spared(old(all), server, deletable)
    {
      kept := server;
      for n := PLAYER + 1 to |pools|
        invariant Valid() && Closed() && |kept| == |server| && kept[PLAYER] == server[PLAYER]
        invariant forall k :: n <= k < |TRAITS| ==> all[k] == old(all)[k] && kept[k] == server[k]
        invariant forall k :: PLAYER < k < n ==> kept[k] == server[k] - Ours(TRAITS[k].0, old(all)[k]) * deletable[k]
      {
        var left := DeleteOne(n, kept[n], deletable[n]);
        kept := kept[n := left];
      }
    }

    method DeleteOne(n: nat, existing: set<int>, deletable: set<int>) returns (kept: set<int>)
      requires Valid() && n < |pools|
      modifies this, pools[n]
      ensures Valid() && (old(Closed()) ==> Closed()) && forall k :: 0 <= k < |TRAITS| && k != n ==> all[k] == old(all)[k]
      ensures kept == existing - Ours(TRAITS[n].0, old(all)[n]) * deletable
    {
      kept := DeleteMarked(pools[n], existing, deletable);
      all := all[n := pools[n].slots];
    }

    method ReleaseRefs()
      requires Valid() && Closed()
      modifies this, pools
      ensures Valid() && Closed() && Empty()
    {
      for n := 0 to |pools|
        invariant Valid() && Closed() && forall k :: 0 <= k < n ==> NoRefs(all[k])
      {
        ReleaseOne(n);
      }
    }

    method ReleaseOne(n: nat)
      requires Valid() && n < |pools| && Closed()
      modifies this, pools[n]
      ensures Valid() && Closed() && NoRefs(all[n]) && forall k :: 0 <= k < |TRAITS| && k != n ==> all[k] == old(all)[k]
    {
      pools[n].ReleaseRefs();
      all := all[n := pools[n].slots];
    }

    /** LoadScripts, before the first script: the pools adopt what is there. */
    method Enumerate(server: seq<set<int>>)
      requires Valid() && |server| == |TRAITS|
      modifies this, pools
      ensures Valid() && (old(Open()) ==> Open()) && all == EnumeratedAll(old(all), server)
    {
      for n := 0 to |pools|
        invariant Valid() && (old(Open()) ==> Open())
        invariant forall k :: 0 <= k < n ==> all[k] == EnumeratedAll(old(all), server)[k]
        invariant forall k :: n <= k < |TRAITS| ==> all[k] == old(all)[k]
      {
        EnumerateOne(n, server[n]);
      }
    }

    method EnumerateOne(n: nat, existing: set<int>)
      requires Valid() && n < |pools|
      modifies this, pools[n]
      ensures Valid() && (old(Open()) ==> Open())
      ensures all == old(all)[n := Enumerated(TRAITS[n].0, old(all)[n], existing)]
    {
      AdoptExisting(pools[n], existing);
      all := all[n := Enumerated(TRAITS[n].0, all[n], existing)];
    }
  }
}
