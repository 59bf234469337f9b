/**
  The entity pools next to the server they mirror, as functions of what both see
  (src/plugin/callbacks.cpp, src/bindings/entity_type.hpp, src/bindings/server.cpp,
  src/runtime/runtime.cpp).

  The server reports every change from inside the call that makes it, to every plugin in turn,
  so scripts and other plugins run in the middle of Create*, Delete* and KickPlayer and may call
  them again.  As before, all of them are read off a tape.  The rules of the server are those of
  docs/internals.md: an entity exists during its "created" event; a vehicle, object, pickup or
  checkpoint still exists during its "deleted" event, a blip does not; and a player is connected
  during its disconnect event.
 */
module EntityWorld {
  import opened EntityPool

  datatype Kind = Player | Vehicle | Object | Pickup | Checkpoint | Blip

  /** An id of the server: a player or an entity of one of the five server pools. */
  datatype Key = Key(kind: Kind, id: int)

  datatype Act =
    | Create(key: Key)        // a Create* binding; the server picks the free id `key.id`
    | Destroy(key: Key)       // a destroy binding: through a handle, or for blips also by id
    | Kick(key: Key)          // player:kick() or player:ban(), through a handle
    | Appears(key: Key)       // another plugin creates an entity
    | Disappears(key: Key)    // another plugin deletes one, or kicks a player
    | Report(key: Key)        // an event about something that exists
    | Use(key: Key)           // a script gets the handle of an entity or player
    | Joins(key: Key)         // a player connects (never inside another event)
    | Quits(key: Key)         // a player disconnects by itself (never inside another event)
    | Return                  // the handlers that run now are done

  /** One onPlayerDisconnect: the player and which of its lifetimes. */
  datatype Farewell = Farewell(key: Key, life: nat)

  /** A call of the server that is under way, and what it has yet to do about its id. */
  datatype Frame =
    | Arriving(key: Key)      // on the server, and not yet reported to us
    | Making(key: Key)        // created by one of our bindings, and not yet marked as ours
    | Removing(key: Key)      // released by us, and not yet off the server
    | Deleting(key: Key)      // a blip off the server, and not yet released by us

  /**
    What scripts and the server see; `slots` has every id the pools have room for.  The rest is
    history: whose the entities are, and how pool and server came to disagree on an id.
   */
  datatype World = World(
    slots: map<Key, Slot>,
    server: set<Key>,
    ours: set<Key>,         // the ids whose entity on the server one of our bindings created
    log: seq<Farewell>,     // the disconnect events, in order
    leaving: seq<Key>,      // the players whose disconnect event is running, innermost last
    open: seq<Frame>,       // the other calls under way, innermost last
    dismissed: set<Key>,    // the players the shutdown loop has said goodbye to
    revived: set<Key>,      // the dismissed players an event was reported about afterwards
    stale: set<Key>,        // ids that were adopted although they were gone, or on their way out
    lost: set<Key>,         // blips released although the id had been given out again
    foreign: set<Key>,      // ids marked as ours although the entity there is not
    unmarked: set<Key>,     // ids whose mark was dropped although the entity there is ours
    meddled: set<Key>,      // ids something was done to inside a call about them
    spawned: multiset<Key>, // how often the server has given out each id
    silent: set<Farewell>,  // lifetimes that ended in an event that announced another one
    doubled: bool)          // a handler kicked a player inside that player's own disconnect event

  datatype Ran = Ran(w: World, rest: seq<Act>)

  predicate Alive(slots: map<Key, Slot>, key: Key) {
    key in slots && slots[key].alive
  }

  /** The slot carries the mark of an entity this runtime created. */
  predicate Flagged(slots: map<Key, Slot>, key: Key) {
    key in slots && slots[key].createdByUs
  }

  function AdoptAt(slots: map<Key, Slot>, key: Key): map<Key, Slot> {
    if key in slots then slots[key := Adopted(slots[key])] else slots
  }

  function ReleaseAt(slots: map<Key, Slot>, key: Key): map<Key, Slot> {
    if key in slots then slots[key := Released(slots[key])] else slots
  }

  function MarkAt(slots: map<Key, Slot>, key: Key): map<Key, Slot> {
    if key in slots then slots[key := Marked(slots[key])] else slots
  }

  function Pop<T>(stack: seq<T>): seq<T> {
    if stack == [] then [] else stack[..|stack| - 1]
  }

  function Plus(keys: set<Key>, key: Key, add: bool): set<Key> {
    if add then keys + {key} else keys
  }

  // ---------------------------------------------------------------- single steps

  /** One of our bindings creates an entity: we are the first to hear of it. */
  function Created(w: World, key: Key): World {
    w.(slots := AdoptAt(w.slots, key), server := w.server + {key}, ours := w.ours + {key},
       open := w.open + [Making(key)], spawned := w.spawned + multiset{key},
       meddled := Plus(w.meddled, key, Deleting(key) in w.open || Removing(key) in w.open),
       stale := w.stale - {key}, lost := w.lost - {key}, foreign := w.foreign - {key})
  }

  /** The binding adopts the id again and marks it, whatever is there by then. */
  function Made(w: World, key: Key): World {
    w.(slots := MarkAt(AdoptAt(w.slots, key), key), open := Pop(w.open),
       meddled := Plus(w.meddled, key, Removing(key) in w.open),
       stale := Plus(w.stale, key, key in w.slots && key !in w.server), lost := w.lost - {key},
       foreign := Plus(w.foreign, key, key in w.slots && key !in w.ours), unmarked := w.unmarked - {key})
  }

  /** Another plugin creates an entity, or a player connects: others may hear of it before us. */
  function Arrived(w: World, key: Key): World {
    w.(server := w.server + {key}, open := w.open + [Arriving(key)], stale := w.stale - {key},
       spawned := w.spawned + multiset{key}, meddled := Plus(w.meddled, key, Deleting(key) in w.open))
  }

  /** We hear of it, though it may be gone by then. */
  function Told(w: World, key: Key): World {
    w.(slots := AdoptAt(w.slots, key), open := Pop(w.open),
       meddled := Plus(w.meddled, key, Removing(key) in w.open),
       stale := Plus(w.stale, key, key in w.slots && key !in w.server), lost := w.lost - {key})
  }

  /** Our "deleted" event is over; others still have theirs, and the id exists until then. */
  function Releasing(w: World, key: Key): World {
    w.(slots := ReleaseAt(w.slots, key), open := w.open + [Removing(key)],
       stale := w.stale - {key}, foreign := w.foreign - {key})
  }

  /** The server forgets the id; a slot that is alive again was adopted since it was released. */
  function Removed(w: World, key: Key): World {
    w.(server := w.server - {key}, ours := w.ours - {key}, open := Pop(w.open),
       meddled := Plus(w.meddled, key, Making(key) in w.open || Arriving(key) in w.open),
       stale := Plus(w.stale, key, Alive(w.slots, key)), lost := w.lost - {key},
       foreign := Plus(w.foreign, key, Flagged(w.slots, key)), unmarked := w.unmarked - {key})
  }

  /** The server forgets a blip before its "deleted" event. */
  function BlipGoes(w: World, key: Key): World {
    w.(server := w.server - {key}, ours := w.ours - {key}, open := w.open + [Deleting(key)],
       meddled := Plus(w.meddled, key, Making(key) in w.open || Arriving(key) in w.open),
       lost := w.lost - {key}, unmarked := w.unmarked - {key})
  }

  /** A release of the slot, whoever has the id by then. */
  function Dropped(w: World, key: Key): World {
    w.(slots := ReleaseAt(w.slots, key), stale := w.stale - {key}, foreign := w.foreign - {key},
       lost := Plus(w.lost, key, key in w.slots && key in w.server),
       unmarked := Plus(w.unmarked, key, key in w.slots && key in w.ours))
  }

  function BlipGone(w: World, key: Key): World {
    Dropped(w.(open := Pop(w.open)), key)
  }

  /** An event about something that exists: adopted on first sight. */
  function Sighted(w: World, key: Key): World {
    w.(slots := AdoptAt(w.slots, key), lost := w.lost - {key},
       meddled := Plus(w.meddled, key, Removing(key) in w.open),
       revived := Plus(w.revived, key, key in w.slots && !w.slots[key].alive && key in w.dismissed))
  }

  /** The start of a disconnect event. */
  function Announcing(w: World, key: Key): World
    requires key in w.slots
  {
    w.(log := w.log + [Farewell(key, w.slots[key].births)], leaving := w.leaving + [key],
       doubled := w.doubled || key in w.leaving)
  }

  /**
    The end of our disconnect event.  Unless the server is shutting down, others still have
    theirs, and the player is connected until then.
   */
  function Departed(w: World, key: Key, shutdown: bool): World
    requires key in w.slots
  {
    var now := Farewell(key, w.slots[key].births);
    w.(slots := ReleaseAt(w.slots, key), leaving := Pop(w.leaving), revived := w.revived - {key},
       stale := w.stale - {key}, silent := if w.slots[key].alive && now !in w.log then w.silent + {now} else w.silent,
       open := if shutdown then w.open else w.open + [Removing(key)],
       dismissed := Plus(w.dismissed, key, shutdown))
  }

  // ---------------------------------------------------------------- scripts, other plugins and the server

  /** What runs now, up to its end. */
  function RunLua(w: World, tape: seq<Act>): (r: Ran)
    ensures |r.rest| <= |tape| && r.w.slots.Keys == w.slots.Keys
    decreases |tape|, 0
  {
    if tape == [] then Ran(w, [])
    else if tape[0].Return? then Ran(w, tape[1..])
    else var s := Step(w, tape[0], tape[1..]); RunLua(s.w, s.rest)
  }

  /** One action, with every event it raises. */
  function Step(w: World, act: Act, tape: seq<Act>): (r: Ran)
    ensures |r.rest| <= |tape| && r.w.slots.Keys == w.slots.Keys
    decreases |tape|, 4
  {
    match act
    case Create(key) => CreateBinding(w, key, tape)
    case Appears(key) => if !key.kind.Player? && key !in w.server then Arrive(w, key, tape) else Ran(w, tape)
    case Destroy(key) => DestroyBinding(w, key, tape)
    case Disappears(key) =>
      if key !in w.server then Ran(w, tape)
      else if key.kind.Player? then Disconnect(w, key, tape)
      else DeleteEntity(w, key, tape)
    case Kick(key) =>
      if key.kind.Player? && Alive(w.slots, key) && key in w.server then Disconnect(w, key, tape) else Ran(w, tape)
    case Report(key) =>
      if key in w.server && !key.kind.Blip? then RunLua(Sighted(w, key), tape) else Ran(w, tape)
    case _ => Ran(w, tape)
  }

  /** A Create* binding; nothing for an id the server would not give out. */
  function CreateBinding(w: World, key: Key, tape: seq<Act>): (r: Ran)
    ensures |r.rest| <= |tape| && r.w.slots.Keys == w.slots.Keys
    decreases |tape|, 2
  {
    if key.kind.Player? || key in w.server then Ran(w, tape)
    else var r := RunLua(Created(w, key), tape); Ran(Made(r.w, key), r.rest)
  }

  /** Another plugin's Create*, or a player that connects. */
  function Arrive(w: World, key: Key, tape: seq<Act>): (r: Ran)
    ensures |r.rest| <= |tape| && r.w.slots.Keys == w.slots.Keys
    decreases |tape|, 1
  {
    var r := RunLua(Arrived(w, key), tape);
    RunLua(Told(r.w, key), r.rest)
  }

  /** Delete*: a blip is gone during the events, everything else is gone after them. */
  function DeleteEntity(w: World, key: Key, tape: seq<Act>): (r: Ran)
    ensures |r.rest| <= |tape| && r.w.slots.Keys == w.slots.Keys
    decreases |tape|, 2
  {
    if key.kind.Blip? then
      var r := RunLua(BlipGoes(w, key), tape);
      RunLua(BlipGone(r.w, key), r.rest)
    else
      var r := RunLua(w, tape);
      Leave(Releasing(r.w, key), key, r.rest)
  }

  /** The others have their events, and then the server forgets the id. */
  function Leave(w: World, key: Key, tape: seq<Act>): (r: Ran)
    ensures |r.rest| <= |tape| && r.w.slots.Keys == w.slots.Keys
    decreases |tape|, 1
  {
    var r := RunLua(w, tape);
    Ran(Removed(r.w, key), r.rest)
  }

  /** A destroy binding.  It releases the slot once more; for a blip also when the server has no such blip. */
  function DestroyBinding(w: World, key: Key, tape: seq<Act>): (r: Ran)
    ensures |r.rest| <= |tape| && r.w.slots.Keys == w.slots.Keys
    decreases |tape|, 3
  {
    if key.kind.Blip? then (if key in w.server then DestroyBlip(w, key, tape) else Ran(Dropped(w, key), tape))
    else if !key.kind.Player? && key in w.server && Alive(w.slots, key) then
      var r := DeleteEntity(w, key, tape);
      Ran(Dropped(r.w, key), r.rest)
    else Ran(w, tape)
  }

  /** Blip.destroy: our handlers, the release, the others' handlers, and the release of the binding. */
  function DestroyBlip(w: World, key: Key, tape: seq<Act>): (r: Ran)
    ensures |r.rest| <= |tape| && r.w.slots.Keys == w.slots.Keys
    decreases |tape|, 1
  {
    var r := RunLua(BlipGoes(w, key), tape);
    var s := RunLua(Dropped(r.w, key), r.rest);
    Ran(BlipGone(s.w, key), s.rest)
  }

  /** KickPlayer, or a player that quits: OnPlayerDisconnect adopts the player on first sight. */
  function Disconnect(w: World, key: Key, tape: seq<Act>): (r: Ran)
    ensures |r.rest| <= |tape| && r.w.slots.Keys == w.slots.Keys
    decreases |tape|, 2
  {
    if key in w.slots then
      var r := SayGoodbye(Sighted(w, key), key, false, tape);
      Leave(r.w, key, r.rest)
    else
      var r := RunLua(w, tape);
      Ran(r.w.(server := r.w.server - {key}), r.rest)   // the handlers get nil
  }

  /** Our disconnect event of a player that has a slot, and the release after it. */
  function SayGoodbye(w: World, key: Key, shutdown: bool, tape: seq<Act>): (r: Ran)
    requires key in w.slots
    ensures |r.rest| <= |tape| && r.w.slots.Keys == w.slots.Keys
    decreases |tape|, 1
  {
    var r := RunLua(Announcing(w, key), tape);
    Ran(Departed(r.w, key, shutdown), r.rest)
  }

  /** One thing the server does while no callback is active. */
  function Outermost(w: World, act: Act, tape: seq<Act>): (r: Ran)
    ensures |r.rest| <= |tape| && r.w.slots.Keys == w.slots.Keys
  {
    match act
    case Joins(key) => if key.kind.Player? && key !in w.server then Arrive(w, key, tape) else Ran(w, tape)
    case Quits(key) => if key.kind.Player? && key in w.server then Disconnect(w, key, tape) else Ran(w, tape)
    case _ => Step(w, act, tape)
  }

  function Served(w: World, tape: seq<Act>): World
    decreases |tape|
  {
    if tape == [] then w
    else var r := Outermost(w, tape[0], tape[1..]); Served(r.w, r.rest)
  }

  /** The shutdown loop over a snapshot of the players; one that is dead by its turn is passed over. */
  function Dismissals(w: World, players: seq<Key>, tape: seq<Act>): World
    decreases |players|
  {
    if players == [] then w
    else if !Alive(w.slots, players[0]) then Dismissals(w, players[1..], tape)
    else var r := SayGoodbye(w, players[0], true, tape); Dismissals(r.w, players[1..], r.rest)
  }

  /** Runtime::NotifyServerShutdown: the event, a snapshot of the players, then the loop. */
  function ShutDown(w: World, players: seq<Key>, tape: seq<Act>): World {
    var r := RunLua(w, tape);
    Dismissals(r.w, players, r.rest)
  }

  /** The pools of a new runtime: everything that exists and has a slot is adopted, nothing is ours. */
  function Opened(room: set<Key>, existing: set<Key>): World {
    World(map key <- room :: if key in existing then Adopted(FREE) else FREE,
          existing, {}, [], [], [], {}, {}, {}, {}, {}, {}, {}, multiset(existing), {}, false)
  }

  /** What a reload leaves on the server: the marked slots go, where the server can delete them. */
  function Reloaded(w: World, deletable: set<Key>): set<Key> {
    set key <- w.server | !(!key.kind.Player? && Flagged(w.slots, key) && key in deletable)
  }
}
