/**
  The pools as the entity world sees them: one slot for each id, without the Lua references, which
  no event and no server function depends on.
 */
module EntityView {
  import opened Wrappers
  import opened EntityPool
  import opened EntityPools
  import opened EntityWorld

  /** The kinds that have events; key binds, the last pool, have none. */
  const KINDS: seq<Kind> := [Player, Vehicle, Object, Pickup, Checkpoint, Blip]

  function Index(kind: Kind): (k: nat)
    ensures k < |KINDS| && KINDS[k] == kind
  {
    match kind
    case Player => 0
    case Vehicle => 1
    case Object => 2
    case Pickup => 3
    case Checkpoint => 4
    case Blip => 5
  }

  /** The pool has room for this id. */
  predicate InRoom(key: Key) {
    TRAITS[Index(key.kind)].0 <= key.id < TRAITS[Index(key.kind)].1
  }

  function Keys(k: nat): set<Key>
    requires k < |KINDS|
  {
    set id: int | TRAITS[k].0 <= id < TRAITS[k].1 :: Key(KINDS[k], id)
  }

  function Room(): set<Key> {
    Keys(0) + Keys(1) + Keys(2) + Keys(3) + Keys(4) + Keys(5)
  }

  lemma RoomIs(key: Key)
    ensures key in Room() <==> InRoom(key)
  {
    var k := Index(key.kind);
    assert key in Keys(k) <==> InRoom(key);
  }

  function Bare(s: Slot): Slot {
    s.(handle := None, data := None)
  }

  function At(all: seq<seq<Slot>>, key: Key): Slot
    requires Shaped(all) && InRoom(key)
  {
    all[Index(key.kind)][key.id - TRAITS[Index(key.kind)].0]
  }

  predicate ShowsAt(slots: map<Key, Slot>, all: seq<seq<Slot>>, key: Key)
    requires Shaped(all)
  {
    if InRoom(key) then key in slots && slots[key] == Bare(At(all, key)) else key !in slots
  }

  /** `slots` is what the world sees of the pools. */
  ghost predicate Shows(slots: map<Key, Slot>, all: seq<seq<Slot>>)
    requires Shaped(all)
  {
    forall key :: ShowsAt(slots, all, key)
  }

  /** One operation on the slot of `key`, in the pools. */
  function UpdateAt(all: seq<seq<Slot>>, key: Key, f: Slot -> Slot): (later: seq<seq<Slot>>)
    requires Shaped(all)
    ensures Shaped(later)
  {
    UpdateIn(all, Index(key.kind), key.id, f)
  }

  lemma UpdatedAt(all: seq<seq<Slot>>, key: Key, f: Slot -> Slot, k: Key)
    requires Shaped(all) && InRoom(k)
    ensures At(UpdateAt(all, key, f), k) == if k == key then f(At(all, k)) else At(all, k)
  {
    if Index(k.kind) == Index(key.kind) {
      assert k.kind == KINDS[Index(k.kind)] == key.kind;
    }
  }

  /** The world sees the operation `g` for the operation `f` of the pools. */
  lemma ShowsUpdated(slots: map<Key, Slot>, all: seq<seq<Slot>>, key: Key, f: Slot -> Slot, g: Slot -> Slot)
    requires Shaped(all) && Shows(slots, all) && forall s :: Bare(f(s)) == g(Bare(s))
    ensures Shows(if key in slots then slots[key := g(slots[key])] else slots, UpdateAt(all, key, f))
  {
    var later := if key in slots then slots[key := g(slots[key])] else slots;
    forall k ensures ShowsAt(later, UpdateAt(all, key, f), k) {
      assert ShowsAt(slots, all, k);
      if InRoom(k) { UpdatedAt(all, key, f, k); }
    }
  }

  lemma ShowsAdopted(slots: map<Key, Slot>, all: seq<seq<Slot>>, key: Key)
    requires Shaped(all) && Shows(slots, all)
    ensures Shows(AdoptAt(slots, key), UpdateAt(all, key, Adopted))
  {
    ShowsUpdated(slots, all, key, Adopted, Adopted);
  }

  lemma ShowsReleased(slots: map<Key, Slot>, all: seq<seq<Slot>>, key: Key)
    requires Shaped(all) && Shows(slots, all)
    ensures Shows(ReleaseAt(slots, key), UpdateAt(all, key, Released))
  {
    ShowsUpdated(slots, all, key, Released, Released);
  }

  lemma ShowsMarked(slots: map<Key, Slot>, all: seq<seq<Slot>>, key: Key)
    requires Shaped(all) && Shows(slots, all)
    ensures Shows(MarkAt(slots, key), UpdateAt(all, key, Marked))
  {
    ShowsUpdated(slots, all, key, Marked, Marked);
  }

  /** A handle is not seen. */
  lemma ShowsHandle(slots: map<Key, Slot>, all: seq<seq<Slot>>, key: Key, handle: Option<nat>)
    requires Shaped(all) && Shows(slots, all)
    ensures Shows(slots, UpdateAt(all, key, WithHandle(handle)))
  {
    ShowsUpdated(slots, all, key, WithHandle(handle), (s: Slot) => s);
    assert key in slots ==> slots[key := slots[key]] == slots;
  }

  /** The ids of one kind. */
  function IdsOf(keys: set<Key>, k: nat): set<int> {
    if k < |KINDS| then set key <- keys | key.kind == KINDS[k] :: key.id else {}
  }

  function IdsOfAll(keys: set<Key>): (ids: seq<set<int>>)
    ensures |ids| == |TRAITS|
  {
    seq(|TRAITS|, k requires 0 <= k < |TRAITS| => IdsOf(keys, k))
  }

  lemma IdsOfIs(keys: set<Key>, key: Key)
    ensures key.id in IdsOf(keys, Index(key.kind)) <==> key in keys
  {
    if key.id in IdsOf(keys, Index(key.kind)) {
      var k :| k in keys && k.kind == key.kind && k.id == key.id;
      assert k == key;
    }
  }

  /** What start-up adopts is what exists. */
  lemma OpenedAt(existing: set<Key>, key: Key)
    requires InRoom(key)
    ensures Bare(At(EnumeratedAll(NewSlots(), IdsOfAll(existing)), key)) == if key in existing then Adopted(FREE) else FREE
  {
    IdsOfIs(existing, key);
    var k := Index(key.kind);
    assert IsNew(NewSlots()[k], TRAITS[k]);
  }

  lemma ShowsOpened(existing: set<Key>)
    ensures Shows(Opened(Room(), existing).slots, EnumeratedAll(NewSlots(), IdsOfAll(existing)))
  {
    forall key ensures ShowsAt(Opened(Room(), existing).slots, EnumeratedAll(NewSlots(), IdsOfAll(existing)), key) {
      RoomIs(key);
      if InRoom(key) { OpenedAt(existing, key); }
    }
  }
}
