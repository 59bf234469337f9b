/**
  The slots behind the entity handles scripts hold (src/core/entity_pool.{hpp,cpp}).

  A handle is an id and a 32-bit generation.  `births` counts the lifetimes of a slot without
  wrapping; it is history that no operation reads, and the theorems use it to say which
  lifetime a handle belongs to.
 */
module EntityPool {
  import opened Wrappers

  const GENERATIONS := 0x1_0000_0000   // 2^32

  /** `handle` and `data` are Lua references: the userdata and the data table of the lifetime. */
  datatype Slot = Slot(alive: bool, createdByUs: bool, generation: nat, births: nat,
                       handle: Option<nat>, data: Option<nat>)

  const FREE := Slot(false, false, 0, 0, None, None)

  /** EntityPool::Adopt: starts a lifetime unless the slot is alive already. */
  function Adopted(s: Slot): Slot {
    if s.alive then s
    else s.(alive := true, createdByUs := false, generation := (s.generation + 1) % GENERATIONS,
            births := s.births + 1)
  }

  /** EntityPool::Release: ends the lifetime, if any, and drops the handle and the data. */
  function Released(s: Slot): Slot {
    if !s.alive then s
    else s.(alive := false, createdByUs := false, handle := None, data := None)
  }

  function Marked(s: Slot): Slot {
    if s.alive then s.(createdByUs := true) else s
  }

  predicate SlotValid(s: Slot, generation: nat) {
    s.alive && s.generation == generation
  }

  /** The generation is the lifetime, as far as 32 bits can tell; a dead slot holds no reference. */
  predicate SlotInv(s: Slot) {
    s.generation == s.births % GENERATIONS && (!s.alive ==> s.handle.None? && s.data.None?)
  }

  // ---------------------------------------------------------------- handles and lifetimes

  datatype Op = Adopt | Release | Mark | Use(handle: nat, data: nat)

  function ApplyOp(s: Slot, op: Op): Slot {
    match op
    case Adopt => Adopted(s)
    case Release => Released(s)
    case Mark => Marked(s)
    case Use(handle, data) => if s.alive then s.(handle := Some(handle), data := Some(data)) else s
  }

  function RunOps(s: Slot, ops: seq<Op>): Slot
    decreases |ops|
  {
    if ops == [] then s else RunOps(ApplyOp(s, ops[0]), ops[1..])
  }

  /** Lifetime number `life` of the slot has ended. */
  predicate Over(s: Slot, life: nat) {
    life < s.births || (life == s.births && !s.alive)
  }

  lemma {:induction false} RunOpsKeeps(s: Slot, ops: seq<Op>, life: nat)
    requires SlotInv(s)
    ensures SlotInv(RunOps(s, ops)) && s.births <= RunOps(s, ops).births
    ensures Over(s, life) ==> Over(RunOps(s, ops), life)
    decreases |ops|
  {
    if ops != [] {
      NextGeneration(s.births);
      RunOpsKeeps(ApplyOp(s, ops[0]), ops[1..], life);
    }
  }

  lemma NextGeneration(births: nat)
    ensures (births % GENERATIONS + 1) % GENERATIONS == (births + 1) % GENERATIONS
  {
  }

  /**
    Which handles are valid, exactly.  A handle of lifetime `life` that is over matches the
    slot again only when a multiple of 2^32 lifetimes have begun since, so in any run with
    fewer of them a dead handle stays dead for ever.
   */
  lemma {:induction false} DeadHandle(s: Slot, ops: seq<Op>, life: nat)
    requires SlotInv(s) && Over(s, life)
    ensures var later := RunOps(s, ops);
            && (SlotValid(later, life % GENERATIONS) <==>
                later.alive && life < later.births && (later.births - life) % GENERATIONS == 0)
            && (later.births - life < GENERATIONS ==> !SlotValid(later, life % GENERATIONS))
  {
    RunOpsKeeps(s, ops, life);
    var later := RunOps(s, ops);
    if life <= later.births {
      SameGeneration(life, later.births);
    }
  }

  lemma SameGeneration(a: nat, b: nat)
    requires a <= b
    ensures a % GENERATIONS == b % GENERATIONS <==> (b - a) % GENERATIONS == 0
  {
  }

  function Cycles(n: nat): seq<Op> {
    if n == 0 then [Adopt] else [Adopt, Release] + Cycles(n - 1)
  }

  lemma {:induction false} CyclesRun(s: Slot, n: nat)
    requires SlotInv(s) && !s.alive
    ensures var later := RunOps(s, Cycles(n));
            SlotInv(later) && later.alive && later.births == s.births + n + 1
    decreases n
  {
    RunOpsKeeps(s, Cycles(n), 0);
    if n == 0 {
      assert Cycles(0)[1..] == [];
    } else {
      var cycles := Cycles(n);
      assert cycles[1..][1..] == Cycles(n - 1);
      var adopted := Adopted(s);
      RunOpsKeeps(s, [Adopt, Release], 0);
      assert RunOps(s, cycles) == RunOps(adopted, cycles[1..]) == RunOps(Released(adopted), Cycles(n - 1));
      NextGeneration(s.births);
      CyclesRun(Released(adopted), n - 1);
    }
  }

  /** And it does come back: 2^32 lifetimes later a dead handle names the slot's new owner. */
  lemma WrapRevives(s: Slot)
    requires SlotInv(s) && !s.alive
    ensures Over(s, s.births)
    ensures SlotValid(RunOps(s, Cycles(GENERATIONS - 1)), s.births % GENERATIONS)
  {
    CyclesRun(s, GENERATIONS - 1);
    DeadHandle(s, Cycles(GENERATIONS - 1), s.births);
  }

  /** At most one generation of a slot is valid, and it is the current lifetime's. */
  lemma OneValidGeneration(s: Slot, a: nat, b: nat)
    requires SlotInv(s) && SlotValid(s, a) && SlotValid(s, b)
    ensures a == b == s.births % GENERATIONS
  {
  }

  // ---------------------------------------------------------------- one pool

  /** The slots after one operation on slot `k`; an index outside changes nothing. */
  function Update(slots: seq<Slot>, k: int, f: Slot -> Slot): seq<Slot> {
    if 0 <= k < |slots| then slots[k := f(slots[k])] else slots
  }

  function WithHandle(handle: Option<nat>): Slot -> Slot {
    (s: Slot) => s.(handle := handle)
  }

  predicate AllInv(slots: seq<Slot>) {
    forall k :: 0 <= k < |slots| ==> SlotInv(slots[k])
  }

  /** A Lua object the pool made: for which slot, and in which of its lifetimes. */
  datatype Object = Handle(slot: nat, life: nat) | Table(slot: nat, life: nat)

  /** `made` records every object the pool ever made. */
  predicate Recorded(slots: seq<Slot>, made: map<nat, Object>, next: nat) {
    && (forall h <- made :: h < next && made[h].slot < |slots| && made[h].life <= slots[made[h].slot].births)
    && (forall k :: 0 <= k < |slots| && slots[k].handle.Some? ==>
          slots[k].handle.value in made && made[slots[k].handle.value] == Handle(k, slots[k].births))
  }

  /** No lifetime has two handles, or two data tables that the pool made. */
  predicate Unique(made: map<nat, Object>) {
    forall g, h :: g in made && h in made && g != h ==> made[g] != made[h]
  }

  /** The handle of a lifetime that goes on is the cached one, and a data table is there still. */
  predicate Cached(slots: seq<Slot>, made: map<nat, Object>)
    requires forall h <- made :: made[h].slot < |slots|
  {
    forall h <- made :: slots[made[h].slot].alive && made[h].life == slots[made[h].slot].births ==>
      if made[h].Handle? then slots[made[h].slot].handle == Some(h) else slots[made[h].slot].data.Some?
  }

  /** What holds of the slots and the objects made for them. */
  predicate Sound(slots: seq<Slot>, made: map<nat, Object>, next: nat, closed: bool) {
    AllInv(slots) && Recorded(slots, made, next) && Unique(made) && (closed || Cached(slots, made))
  }

  /** A change of one slot that neither makes an object nor forgets one of a lifetime that goes on. */
  predicate Harmless(s: Slot, t: Slot) {
    && SlotInv(t) && s.births <= t.births
    && (t.handle.Some? ==> t.handle == s.handle && t.births == s.births)
    && (t.alive && t.births == s.births ==> s.alive && t.handle == s.handle && (s.data.Some? ==> t.data.Some?))
  }

  lemma {:induction false} HarmlessKeeps(slots: seq<Slot>, k: nat, t: Slot, made: map<nat, Object>, next: nat,
                                         later: nat, closed: bool)
    requires Sound(slots, made, next, closed) && k < |slots| && Harmless(slots[k], t) && next <= later
    ensures Sound(slots[k := t], made, later, closed)
  {
  }

  /** A new handle for the current lifetime of slot `k`. */
  lemma {:induction false} HandleKeeps(slots: seq<Slot>, k: nat, made: map<nat, Object>, next: nat)
    requires Sound(slots, made, next, false) && k < |slots| && slots[k].alive && slots[k].handle.None?
    ensures Sound(slots[k := slots[k].(handle := Some(next))], made[next := Handle(k, slots[k].births)], next + 1, false)
  {
    assert forall h <- made :: h != next && made[h] != Handle(k, slots[k].births);
  }

  /** A new data table for the current lifetime of slot `k`. */
  lemma {:induction false} TableKeeps(slots: seq<Slot>, k: nat, made: map<nat, Object>, next: nat)
    requires Sound(slots, made, next, false) && k < |slots| && slots[k].alive && slots[k].data.None?
    ensures Sound(slots[k := slots[k].(data := Some(next))], made[next := Table(k, slots[k].births)], next + 1, false)
  {
    assert forall h <- made :: h != next && made[h] != Table(k, slots[k].births);
  }

  class EntityPool {
    const firstId: int
    var slots: seq<Slot>          // index = id - firstId
    var closed: bool
    var nextObject: nat           // the next Lua object
    ghost var made: map<nat, Object>

    ghost predicate Valid()
      reads this
    {
      Sound(slots, made, nextObject, closed)
    }

    predicate InRange(id: int)
      reads this
    {
      firstId <= id < firstId + |slots|
    }

    function Slot_(id: int): Slot
      requires InRange(id)
      reads this
    {
      slots[id - firstId]
    }

    predicate Alive(id: int)
      reads this
    {
      InRange(id) && Slot_(id).alive
    }

    predicate IsValid(id: int, generation: nat)
      reads this
    {
      Alive(id) && Slot_(id).generation == generation
    }

    constructor (firstId: int, capacity: nat)
      ensures Valid() && this.firstId == firstId && |slots| == capacity && !closed && made == map[]
      ensures forall k :: 0 <= k < capacity ==> slots[k] == FREE
    {
      this.firstId := firstId;
      slots := seq(capacity, k => FREE);
      closed, nextObject, made := false, 0, map[];
    }

    /** Ids outside the pool are ignored; adopting a live slot again is a no-op. */
    method Adopt(id: int)
      requires Valid()
      modifies this`slots
      ensures Valid()
      ensures slots == Update(old(slots), id - firstId, Adopted)
    {
      if !InRange(id) {
        return;
      }
      var slot := Slot_(id);
      if slot.alive {
        return;
      }
      NextGeneration(slot.births);
      slot := slot.(alive := true, createdByUs := false, generation := (slot.generation + 1) % GENERATIONS,
                    births := slot.births + 1);
      HarmlessKeeps(slots, id - firstId, slot, made, nextObject, nextObject, closed);
      slots := slots[id - firstId := slot];
    }

    method Release(id: int)
      requires Valid()
      modifies this`slots
      ensures Valid()
      ensures slots == Update(old(slots), id - firstId, Released)
    {
      if !Alive(id) {
        return;
      }
      var slot := Slot_(id).(alive := false, createdByUs := false, handle := None, data := None);
      HarmlessKeeps(slots, id - firstId, slot, made, nextObject, nextObject, closed);
      slots := slots[id - firstId := slot];
    }

    method MarkCreatedByUs(id: int)
      requires Valid()
      modifies this`slots
      ensures Valid()
      ensures slots == Update(old(slots), id - firstId, Marked)
    {
      if Alive(id) {
        var slot := Slot_(id).(createdByUs := true);
        HarmlessKeeps(slots, id - firstId, slot, made, nextObject, nextObject, closed);
        slots := slots[id - firstId := slot];
      }
    }

    /** The live ids, in increasing order; `ours` keeps those this runtime created. */
    method Ids(ours: bool) returns (ids: seq<int>)
      ensures forall i, j :: 0 <= i < j < |ids| ==> ids[i] < ids[j]
      ensures forall id :: id in ids <==> Alive(id) && (ours ==> Slot_(id).createdByUs)
    {
      ids := [];
      for k := 0 to |slots|
        invariant forall i, j :: 0 <= i < j < |ids| ==> ids[i] < ids[j]
        invariant forall i :: 0 <= i < |ids| ==> ids[i] < firstId + k
        invariant forall id :: id in ids <==>
                    firstId <= id < firstId + k && Alive(id) && (ours ==> Slot_(id).createdByUs)
      {
        if slots[k].alive && (ours ==> slots[k].createdByUs) {
          ids := ids + [firstId + k];
        }
      }
    }

    /**
      The handle of (id, generation), or nil.  It is made on first use, so a lifetime has one
      handle object, and two handles are the same object exactly when they belong to the same
      lifetime.
     */
    method Push(id: int, generation: nat) returns (pushed: Option<nat>)
      requires Valid()
      modifies this`slots, this`nextObject, this`made
      ensures Valid()
      ensures pushed.None? <==> closed || !IsValid(id, generation)
      ensures pushed.None? ==> made == old(made) && slots == old(slots)
      ensures pushed.Some? ==> pushed.value in made && made[pushed.value] == Handle(id - firstId, Slot_(id).births)
      ensures old(made.Keys) <= made.Keys && forall h <- old(made) :: made[h] == old(made)[h]
      ensures pushed.Some? ==> slots == Update(old(slots), id - firstId, WithHandle(pushed))
    {
      if closed || !IsValid(id, generation) {
        return None;
      }
      if Slot_(id).handle.Some? {
        assert slots[id - firstId := slots[id - firstId]] == slots;
        return Slot_(id).handle;
      }
      HandleKeeps(slots, id - firstId, made, nextObject);
      pushed := Some(nextObject);
      made := made[nextObject := Handle(id - firstId, Slot_(id).births)];
      slots := slots[id - firstId := Slot_(id).(handle := pushed)];
      nextObject := nextObject + 1;
    }

    /**
      The entity's data table, made on first use; refused when closed or for a dead handle.  A table
      that is made is new, so no two lifetimes get the same one, and a lifetime gets one only.
     */
    method Data(id: int, generation: nat) returns (table: Option<nat>)
      requires Valid()
      modifies this`slots, this`nextObject, this`made
      ensures Valid()
      ensures table.None? <==> closed || !IsValid(id, generation)
      ensures slots == if table.None? then old(slots)
                       else Update(old(slots), id - firstId, (s: Slot) => s.(data := table))
      ensures table.Some? && old(Slot_(id)).data.Some? ==> table == old(Slot_(id)).data
      ensures if table.Some? && old(IsValid(id, generation) && Slot_(id).data.None?)
              then table.value !in old(made) && made == old(made)[table.value := Table(id - firstId, old(Slot_(id)).births)]
              else made == old(made)
    {
      if closed || !IsValid(id, generation) {
        return None;
      }
      if Slot_(id).data.None? {
        TableKeeps(slots, id - firstId, made, nextObject);
        made := made[nextObject := Table(id - firstId, Slot_(id).births)];
        slots := slots[id - firstId := Slot_(id).(data := Some(nextObject))];
        nextObject := nextObject + 1;
      } else {
        assert slots[id - firstId := slots[id - firstId]] == slots;
      }
      table := Slot_(id).data;
    }

    /** Replaces the data table; refused like Data. */
    method SetData(id: int, generation: nat, table: nat) returns (ok: bool)
      requires Valid()
      modifies this`slots
      ensures Valid()
      ensures ok <==> !closed && IsValid(id, generation)
      ensures slots == if ok then Update(old(slots), id - firstId, (s: Slot) => s.(data := Some(table))) else old(slots)
    {
      if closed || !IsValid(id, generation) {
        return false;
      }
      var slot := Slot_(id).(data := Some(table));
      HarmlessKeeps(slots, id - firstId, slot, made, nextObject, nextObject, closed);
      slots := slots[id - firstId := slot];
      return true;
    }

    method Close()
      requires Valid()
      modifies this`closed
      ensures Valid() && closed
    {
      closed := true;
    }

    /** Shutdown, step 2: no slot holds a Lua reference any more. */
    method ReleaseRefs()
      requires Valid() && closed
      modifies this`slots
      ensures Valid() && |slots| == |old(slots)|
      ensures forall k :: 0 <= k < |slots| ==> slots[k] == old(slots)[k].(handle := None, data := None)
    {
      var k := 0;
      while k < |slots|
        invariant k <= |slots| == |old(slots)|
        invariant forall i :: 0 <= i < k ==> slots[i] == old(slots)[i].(handle := None, data := None)
        invariant forall i :: k <= i < |slots| ==> slots[i] == old(slots)[i]
      {
        slots := slots[k := slots[k].(handle := None, data := None)];
        k := k + 1;
      }
    }
  }
}
