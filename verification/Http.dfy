/**
  The bookkeeping of HTTP requests (src/modules/http.cpp).  libcurl decides which transfers
  finish and in which order; the callbacks are read off a tape and may start requests, and the
  server may run a frame, and with it another pump, inside a callback.
 */
module Http {
  import opened Wrappers

  const MAX_PENDING := 1000

  /** The identity of a Lua callback. */
  type Fn = nat

  datatype Act =
    | Request(fn: Fn, added: bool)    // http.request; `added`: libcurl took the handle
    | Frame(report: seq<nat>)         // a pump; libcurl reports these transfers as finished
    | Shutdown                        // Http::Clear; never inside a callback
    | Return                          // the callback returns or raises an error
    | Throw                           // a C++ exception leaves the callback
    | Panic                           // a Lua error outside a protected call

  datatype Transfer = Transfer(id: nat, fn: Fn)

  /** One callback: for which transfer, and by which pump. */
  datatype Call = Call(transfer: Transfer, pump: nat)

  /**
    What became of an id: the request failed, is pending, is in the hands of a pump that is
    running, was called back as number `at`, or was given up without a callback.
   */
  datatype Place = Failed | Pending | Taken | Called(at: nat) | Dropped

  datatype Entry = Entry(fn: Fn, place: Place)

  /** What happened so far; only `pending` and the number of ids exist in the source. */
  datatype Ledger = Ledger(
    pending: map<nat, Fn>,
    ids: seq<Entry>,           // every id given out
    called: seq<Call>,         // the callbacks, in order
    starts: seq<nat>)          // for every pump so far, how many ids there were when it began

  /** Callback number `i` is the one its request came with, and the request is older than the pump. */
  predicate Rightly(l: Ledger, i: nat)
    requires i < |l.called|
  {
    var c := l.called[i];
    && c.transfer.id < |l.ids| && l.ids[c.transfer.id] == Entry(c.transfer.fn, Called(i))
    && c.pump < |l.starts| && c.transfer.id < l.starts[c.pump]
  }

  /** The request is where the ledger says it is. */
  predicate Placed(l: Ledger, id: nat)
    requires id < |l.ids|
  {
    match l.ids[id].place
    case Pending => id in l.pending && l.pending[id] == l.ids[id].fn
    case Called(at) => id !in l.pending && at < |l.called| && l.called[at].transfer.id == id
    case _ => id !in l.pending
  }

  predicate Inv(l: Ledger) {
    && |l.pending| <= MAX_PENDING
    && (forall id <- l.pending :: id < |l.ids|)
    && (forall id :: 0 <= id < |l.ids| ==> Placed(l, id))
    && (forall i :: 0 <= i < |l.called| ==> Rightly(l, i))
    && (forall p :: 0 <= p < |l.starts| ==> l.starts[p] <= |l.ids|)
  }

  /** Only pending requests move. */
  predicate Moves(e: Entry, f: Entry) {
    e.fn == f.fn && (e.place.Pending? || e == f)
  }

  /**
    What happens from the start of a pump on, while it holds the transfers `left`: only requests
    that were pending then move, later pumps have later numbers, and no other pump is running.
   */
  predicate Inside(l: Ledger, m: Ledger, left: seq<Transfer>) {
    && l.called <= m.called && l.starts <= m.starts && |l.ids| <= |m.ids|
    && (forall id :: 0 <= id < |l.ids| ==> Moves(l.ids[id], m.ids[id]))
    && (forall id :: 0 <= id < |m.ids| && m.ids[id].place.Taken? ==>
          (id < |l.ids| && l.ids[id].place.Taken?) || Holds(left, id))
    && (forall i :: |l.called| <= i < |m.called| ==> m.called[i].pump >= |l.starts|)
  }

  predicate Holds(left: seq<Transfer>, id: nat) {
    exists i :: 0 <= i < |left| && left[i].id == id
  }

  /** What happens inside a callback: the pumps around it keep what they hold. */
  predicate Nested(l: Ledger, m: Ledger) {
    Inside(l, m, [])
  }

  lemma {:induction false} InsideNested(l: Ledger, m: Ledger, n: Ledger, left: seq<Transfer>)
    requires Inside(l, m, left) && Nested(m, n)
    ensures Inside(l, n, left)
  {
    assert forall i :: |l.called| <= i < |n.called| ==>
        if i < |m.called| then n.called[i] == m.called[i] else n.called[i].pump >= |m.starts|;
  }

  // ---------------------------------------------------------------- conservation

  /** How many ids are in a place; the number of the callback does not matter. */
  function Count(ids: seq<Entry>, place: Place): nat {
    if ids == [] then 0 else (if Same(ids[0].place, place) then 1 else 0) + Count(ids[1..], place)
  }

  predicate Same(a: Place, b: Place) {
    a == b || (a.Called? && b.Called?)
  }

  lemma {:induction false} CountPlaces(ids: seq<Entry>)
    ensures |ids| == Count(ids, Failed) + Count(ids, Pending) + Count(ids, Taken) + Count(ids, Called(0))
                     + Count(ids, Dropped)
  {
    if ids != [] { CountPlaces(ids[1..]); }
  }

  /** As many ids are in a place as a set has members, if the ids from `base` on are the set. */
  lemma {:induction false} CountSet(ids: seq<Entry>, place: Place, base: nat, all: set<nat>)
    requires forall id <- all :: base <= id < base + |ids|
    requires forall k :: 0 <= k < |ids| ==> (base + k in all <==> Same(ids[k].place, place))
    ensures Count(ids, place) == |all|
  {
    if ids == [] {
      assert all == {};
    } else {
      assert (base in all) == (base + 0 in all);
      assert forall k :: 0 <= k < |ids[1..]| ==> base + 1 + k == base + (k + 1) && ids[1..][k] == ids[k + 1];
      CountSet(ids[1..], place, base + 1, all - {base});
    }
  }

  function Elements(s: seq<nat>): set<nat> {
    set x <- s
  }

  lemma {:induction false} DistinctSize(s: seq<nat>)
    requires forall i, j :: 0 <= i < j < |s| ==> s[i] != s[j]
    ensures |Elements(s)| == |s|
  {
    if s != [] {
      DistinctSize(s[1..]);
      assert Elements(s) == Elements(s[1..]) + {s[0]};
    }
  }

  function CalledIds(called: seq<Call>): seq<nat> {
    seq(|called|, i requires 0 <= i < |called| => called[i].transfer.id)
  }

  /** No transfer is called back twice. */
  lemma {:induction false} CalledOnce(l: Ledger, i: nat, j: nat)
    requires Inv(l) && i < j < |l.called|
    ensures l.called[i].transfer.id != l.called[j].transfer.id
  {
    assert Rightly(l, i) && Rightly(l, j);
  }

  /** accepted = pending + called back + dropped, counted, whenever no pump is running. */
  lemma {:induction false} Conservation(l: Ledger)
    requires Inv(l)
    ensures |l.ids| - Count(l.ids, Failed) == |l.pending| + |l.called| + Count(l.ids, Dropped) + Count(l.ids, Taken)
  {
    CountPlaces(l.ids);
    forall k | 0 <= k < |l.ids| ensures 0 + k in l.pending.Keys <==> Same(l.ids[k].place, Pending) {
      assert Placed(l, k);
    }
    CountSet(l.ids, Pending, 0, l.pending.Keys);
    var ids := CalledIds(l.called);
    forall i, j | 0 <= i < j < |ids| ensures ids[i] != ids[j] {
      CalledOnce(l, i, j);
    }
    DistinctSize(ids);
    var called := Elements(ids);
    forall i | 0 <= i < |ids| ensures ids[i] < |l.ids| && l.ids[ids[i]].place.Called? {
      assert Rightly(l, i);
    }
    forall k | 0 <= k < |l.ids| ensures 0 + k in called <==> Same(l.ids[k].place, Called(0)) {
      assert Placed(l, k);
      if l.ids[k].place.Called? { assert ids[l.ids[k].place.at] == k; }
    }
    CountSet(l.ids, Called(0), 0, called);
  }

  // ---------------------------------------------------------------- what each step keeps

  function Began(l: Ledger): Ledger {
    l.(starts := l.starts + [|l.ids|])
  }

  function Refused(l: Ledger, fn: Fn): Ledger {
    l.(ids := l.ids + [Entry(fn, Failed)])
  }

  function Added(l: Ledger, fn: Fn): Ledger {
    l.(pending := l.pending[|l.ids| := fn], ids := l.ids + [Entry(fn, Pending)])
  }

  /** A request; with 1000 requests pending it is refused and uses up no id. */
  function Started(l: Ledger, fn: Fn, added: bool): Ledger {
    if |l.pending| >= MAX_PENDING then l else if added then Added(l, fn) else Refused(l, fn)
  }

  function Moved(l: Ledger, id: nat, place: Place): Ledger {
    l.(pending := l.pending - {id},
       ids := if id < |l.ids| then l.ids[id := Entry(l.ids[id].fn, place)] else l.ids)
  }

  function CalledBack(l: Ledger, c: Call): Ledger {
    l.(ids := if c.transfer.id < |l.ids|
              then l.ids[c.transfer.id := Entry(l.ids[c.transfer.id].fn, Called(|l.called|))] else l.ids,
       called := l.called + [c])
  }

  lemma {:induction false} BeganKeeps(l: Ledger)
    requires Inv(l)
    ensures Inv(Began(l)) && Nested(l, Began(l))
  {
    var m := Began(l);
    forall id | 0 <= id < |m.ids| ensures Placed(m, id) {
      assert Placed(l, id);
    }
    forall i | 0 <= i < |m.called| ensures Rightly(m, i) {
      assert Rightly(l, i);
    }
  }

  lemma {:induction false} RefusedKeeps(l: Ledger, fn: Fn)
    requires Inv(l)
    ensures Inv(Refused(l, fn)) && Nested(l, Refused(l, fn))
  {
    var m := Refused(l, fn);
    forall id | 0 <= id < |m.ids| ensures Placed(m, id) {
      if id < |l.ids| { assert Placed(l, id); }
    }
    forall i | 0 <= i < |m.called| ensures Rightly(m, i) {
      assert Rightly(l, i);
    }
  }

  lemma {:induction false} AddedKeeps(l: Ledger, fn: Fn)
    requires Inv(l) && |l.pending| < MAX_PENDING
    ensures Inv(Added(l, fn)) && Nested(l, Added(l, fn))
  {
    var m := Added(l, fn);
    assert |m.pending| == |l.pending| + 1;
    forall id | 0 <= id < |m.ids| ensures Placed(m, id) {
      if id < |l.ids| { assert Placed(l, id); }
    }
    forall i | 0 <= i < |m.called| ensures Rightly(m, i) {
      assert Rightly(l, i);
    }
  }

  lemma OneLess(pending: map<nat, Fn>, id: nat)
    ensures |pending - {id}| <= |pending|
  {
    assert (pending - {id}).Keys == pending.Keys - {id};
    assert |(pending - {id}).Keys| <= |pending.Keys|;
  }

  lemma {:induction false} MovedKeeps(l: Ledger, id: nat, place: Place)
    requires Inv(l) && id < |l.ids| && !l.ids[id].place.Called? && (place.Taken? || place.Dropped?)
    ensures Inv(Moved(l, id, place))
  {
    var m := Moved(l, id, place);
    OneLess(l.pending, id);
    forall k | 0 <= k < |m.ids| ensures Placed(m, k) {
      assert Placed(l, k);
    }
    forall i | 0 <= i < |m.called| ensures Rightly(m, i) {
      assert Rightly(l, i);
    }
  }

  lemma {:induction false} CalledBackKeeps(l: Ledger, c: Call)
    requires Inv(l) && c.pump < |l.starts| && c.transfer.id < l.starts[c.pump]
    requires c.transfer.id < |l.ids| && l.ids[c.transfer.id] == Entry(c.transfer.fn, Taken)
    ensures Inv(CalledBack(l, c))
  {
    var m := CalledBack(l, c);
    forall k | 0 <= k < |m.ids| ensures Placed(m, k) {
      assert Placed(l, k);
    }
    forall i | 0 <= i < |m.called| ensures Rightly(m, i) {
      if i < |l.called| { assert Rightly(l, i); }
    }
  }

  // ---------------------------------------------------------------- a pump

  /** The transfers a report finishes: those that are pending, each once, in the order of the report. */
  function Finished(pending: map<nat, Fn>, report: seq<nat>): (done: seq<Transfer>)
    ensures forall t <- done :: t.id in pending && pending[t.id] == t.fn && t.id in report
    ensures forall i, j :: 0 <= i < j < |done| ==> done[i].id != done[j].id
  {
    if report == [] then []
    else
      var init, id := report[..|report| - 1], report[|report| - 1];
      var done := Finished(pending, init);
      assert forall t <- done :: t.id in init && t.id in report;
      if id in pending && !Holds(done, id) then done + [Transfer(id, pending[id])] else done
  }

  lemma {:induction false} FinishedNone(report: seq<nat>)
    ensures Finished(map[], report) == []
  {
    if report != [] { FinishedNone(report[..|report| - 1]); }
  }

  lemma {:induction false} FinishedAll(pending: map<nat, Fn>, report: seq<nat>)
    ensures forall id <- report :: id in pending ==> Holds(Finished(pending, report), id)
  {
    if report != [] {
      var init, last := report[..|report| - 1], report[|report| - 1];
      FinishedAll(pending, init);
      var done, all := Finished(pending, init), Finished(pending, report);
      assert done <= all;
      forall id <- report | id in pending ensures Holds(all, id) {
        if Holds(done, id) {
          var i :| 0 <= i < |done| && done[i].id == id;
          assert all[i].id == id;
        } else {
          assert all[|done|].id == id;
        }
      }
    }
  }

  /** A pump holds `left`: each transfer once, and all of them older than the pump. */
  predicate Running(l: Ledger, m: Ledger, left: seq<Transfer>, pump: nat) {
    && Inside(l, m, left) && pump == |l.starts| < |m.starts| && m.starts[pump] == |l.ids|
    && (forall i :: 0 <= i < |left| ==> Held(l, m, left[i]))
    && (forall i, j :: 0 <= i < j < |left| ==> left[i].id != left[j].id)
  }

  predicate Held(l: Ledger, m: Ledger, t: Transfer)
  {
    t.id < |l.ids| <= |m.ids| && l.ids[t.id].place.Pending? && m.ids[t.id] == Entry(t.fn, Taken)
  }

  lemma {:induction false} RunningNested(l: Ledger, m: Ledger, n: Ledger, left: seq<Transfer>, pump: nat)
    requires Running(l, m, left, pump) && Nested(m, n)
    ensures Running(l, n, left, pump)
  {
    InsideNested(l, m, n, left);
    forall i | 0 <= i < |left| ensures Held(l, n, left[i]) {
      assert Held(l, m, left[i]);
    }
  }

  /** One more transfer is taken. */
  lemma {:induction false} RunningTakes(l: Ledger, m: Ledger, left: seq<Transfer>, pump: nat, t: Transfer)
    requires Running(l, m, left, pump) && t.id < |l.ids| && m.ids[t.id] == Entry(t.fn, Pending)
    ensures Running(l, Moved(m, t.id, Taken), left + [t], pump)
  {
    var n := Moved(m, t.id, Taken);
    forall i | 0 <= i < |left| ensures Held(l, n, left[i]) && left[i].id != t.id {
      assert Held(l, m, left[i]);
    }
    assert Moves(l.ids[t.id], m.ids[t.id]);
    assert Held(l, n, t);
    forall id | 0 <= id < |n.ids| && n.ids[id].place.Taken?
      ensures (id < |l.ids| && l.ids[id].place.Taken?) || Holds(left + [t], id)
    {
      if id == t.id {
        assert (left + [t])[|left|].id == id;
      } else if Holds(left, id) {
        var i :| 0 <= i < |left| && left[i].id == id;
        assert (left + [t])[i].id == id;
      }
    }
  }

  /** The first transfer leaves the list, called back or dropped. */
  lemma {:induction false} RunningRest(l: Ledger, m: Ledger, n: Ledger, left: seq<Transfer>, pump: nat)
    requires Running(l, m, left, pump) && left != [] && left[0].id < |n.ids| == |m.ids|
    requires n.ids == m.ids[left[0].id := n.ids[left[0].id]] && n.starts == m.starts && m.called <= n.called
    requires n.ids[left[0].id].fn == left[0].fn && !n.ids[left[0].id].place.Taken?
    requires forall i :: |m.called| <= i < |n.called| ==> n.called[i].pump == pump
    ensures Running(l, n, left[1..], pump)
  {
    var rest := left[1..];
    assert Held(l, m, left[0]);
    forall i | 0 <= i < |rest| ensures Held(l, n, rest[i]) {
      assert Held(l, m, left[i + 1]);
    }
    forall id | 0 <= id < |n.ids| && n.ids[id].place.Taken?
      ensures (id < |l.ids| && l.ids[id].place.Taken?) || Holds(rest, id)
    {
      if Holds(left, id) {
        var i :| 0 <= i < |left| && left[i].id == id;
        assert rest[i - 1].id == id;
      }
    }
    assert Moves(l.ids[left[0].id], m.ids[left[0].id]);
  }

  /** A pump that holds nothing any more. */
  lemma {:induction false} RunningDone(l: Ledger, m: Ledger, pump: nat)
    requires Running(l, m, [], pump)
    ensures Nested(l, m)
  {
  }

  function TookAll(l: Ledger, done: seq<Transfer>): (m: Ledger)
    ensures |m.ids| == |l.ids| && m.called == l.called && m.starts == l.starts
  {
    if done == [] then l else Moved(TookAll(l, done[..|done| - 1]), done[|done| - 1].id, Taken)
  }

  /** Taking transfers out changes nothing else. */
  lemma {:induction false} TookAllPending(l: Ledger, done: seq<Transfer>, id: nat)
    requires forall t <- done :: t.id < |l.ids|
    ensures var m := TookAll(l, done);
            && (id in m.pending <==> id in l.pending && !Holds(done, id))
            && (id in m.pending ==> m.pending[id] == l.pending[id])
            && (id < |l.ids| && !Holds(done, id) ==> m.ids[id] == l.ids[id])
    decreases |done|
  {
    if done != [] {
      var init, t := done[..|done| - 1], done[|done| - 1];
      TookAllPending(l, init, id);
      assert Holds(done, id) <==> Holds(init, id) || t.id == id by {
        assert forall i :: 0 <= i < |init| ==> done[i] == init[i];
      }
    }
  }

  lemma {:induction false} TookAllRuns(l: Ledger, m: Ledger, done: seq<Transfer>, pump: nat)
    requires Inv(m) && Running(l, m, [], pump) && |l.ids| == |m.ids|
    requires forall i :: 0 <= i < |done| ==> done[i].id in m.pending && m.pending[done[i].id] == done[i].fn
    requires forall i, j :: 0 <= i < j < |done| ==> done[i].id != done[j].id
    ensures forall t <- done :: t.id < |m.ids|
    ensures Inv(TookAll(m, done)) && Running(l, TookAll(m, done), done, pump)
    decreases |done|
  {
    if done != [] {
      var init, t := done[..|done| - 1], done[|done| - 1];
      TookAllRuns(l, m, init, pump);
      TookAllPending(m, init, t.id);
      assert Placed(m, t.id);
      TakesOne(l, TookAll(m, init), init, pump, t);
      assert init + [t] == done;
    }
  }

  lemma {:induction false} TakesOne(l: Ledger, m: Ledger, left: seq<Transfer>, pump: nat, t: Transfer)
    requires Inv(m) && Running(l, m, left, pump) && t.id < |l.ids| <= |m.ids| && m.ids[t.id] == Entry(t.fn, Pending)
    ensures var n := Moved(m, t.id, Taken); Inv(n) && Running(l, n, left + [t], pump)
  {
    MovedKeeps(m, t.id, Taken);
    RunningTakes(l, m, left, pump, t);
  }

  lemma {:induction false} PumpBegins(l: Ledger)
    requires Inv(l)
    ensures Inv(Began(l)) && Running(l, Began(l), [], |l.starts|) && Mine(l.called, |l.starts|) == []
  {
    BeganKeeps(l);
    forall i | 0 <= i < |l.called| ensures l.called[i].pump < |l.starts| {
      assert Rightly(l, i);
    }
    MineNone(l.called, |l.starts|);
  }

  /** One report of libcurl. */
  lemma {:induction false} ReportNext(l: Ledger, report: seq<nat>, i: nat)
    requires i < |report| && forall id <- l.pending :: id < |l.ids|
    ensures var done, id := Finished(l.pending, report[..i]), report[i];
            var m := TookAll(l, done);
            if id in m.pending
            then && id in l.pending && Finished(l.pending, report[..i + 1]) == done + [Transfer(id, m.pending[id])]
                 && TookAll(l, done + [Transfer(id, m.pending[id])]) == Moved(m, id, Taken)
            else Finished(l.pending, report[..i + 1]) == done
  {
    var done, id := Finished(l.pending, report[..i]), report[i];
    assert report[..i + 1][..i] == report[..i];
    TookAllPending(l, done, id);
    var m := TookAll(l, done);
    if id in m.pending {
      assert (done + [Transfer(id, m.pending[id])])[..|done|] == done;
    }
  }

  // ---------------------------------------------------------------- scripts and the server

  datatype Ran = Ran(l: Ledger, dead: bool, threw: bool, rest: seq<Act>)

  /** A callback: the actions of the tape up to the one that ends it. */
  function RanLua(l: Ledger, dead: bool, tape: seq<Act>): (r: Ran)
    ensures |r.rest| <= |tape|
    decreases |tape|, 0
  {
    if tape == [] then Ran(l, dead, false, [])
    else if Ends(tape[0]) then Ran(l, dead || tape[0].Panic?, !tape[0].Return?, tape[1..])
    else var s := Stepped(l, dead, tape[0], tape[1..]); RanLua(s.l, s.dead, s.rest)
  }

  predicate Ends(act: Act) {
    act.Return? || act.Throw? || act.Panic?
  }

  /** One thing a script or the server does; an exception that leaves a pump is logged. */
  function Stepped(l: Ledger, dead: bool, act: Act, tape: seq<Act>): (r: Ran)
    ensures |r.rest| <= |tape| && !r.threw
    decreases |tape|, 3
  {
    match act
    case Request(fn, added) => Ran(Started(l, fn, added), dead, false, tape)
    case Frame(report) => if dead then Ran(l, dead, false, tape) else Pumped(l, dead, report, tape).(threw := false)
    case _ => Ran(l, dead, false, tape)
  }

  /** A pump takes what has finished, and calls it back. */
  function Pumped(l: Ledger, dead: bool, report: seq<nat>, tape: seq<Act>): (r: Ran)
    ensures |r.rest| <= |tape|
    decreases |tape|, 2, 0
  {
    var done := Finished(l.pending, report);
    Completed(TookAll(Began(l), done), dead, false, done, |l.starts|, tape)
  }

  /** The callbacks of `done`, until one of them throws or panics; what is left then is dropped. */
  function Completed(l: Ledger, dead: bool, threw: bool, done: seq<Transfer>, pump: nat, tape: seq<Act>): (r: Ran)
    ensures |r.rest| <= |tape|
    decreases |tape|, 1, |done|
  {
    if done == [] then Ran(l, dead, threw, tape)
    else if threw || dead then Completed(Moved(l, done[0].id, Dropped), dead, threw, done[1..], pump, tape)
    else
      var r := RanLua(CalledBack(l, Call(done[0], pump)), dead, tape);
      Completed(r.l, r.dead, r.threw, done[1..], pump, r.rest)
  }

  function Cleared(l: Ledger): Ledger {
    l.(pending := map[], ids := DropPending(l.ids))
  }

  const FRESH := Ledger(map[], [Entry(0, Failed)], [], [])   // id 0 is never given out

  function Served(l: Ledger, dead: bool, tape: seq<Act>): Ledger
    decreases |tape|
  {
    if tape == [] then l
    else if tape[0].Shutdown? then Served(Cleared(l), dead, tape[1..])
    else var s := Stepped(l, dead, tape[0], tape[1..]); Served(s.l, s.dead, s.rest)
  }

  class Http {
    var transfers: map<nat, Fn>
    var nextId: nat
    var dead: bool                 // Invoker::dead_
    ghost var ids: seq<Entry>
    ghost var called: seq<Call>
    ghost var starts: seq<nat>

    ghost function Now(): Ledger
      reads this
    {
      Ledger(transfers, ids, called, starts)
    }

    ghost predicate Valid()
      reads this
    {
      nextId == |ids| && Inv(Now())
    }

    constructor ()
      ensures Valid() && Now() == FRESH && !dead
    {
      transfers, nextId, dead := map[], 1, false;
      ids, called, starts := FRESH.ids, [], [];
    }

    /**
      Refused (an exception) with 1000 requests pending; a request libcurl refuses uses up its id.
      A request that is accepted is pending, with the callback it came with.
     */
    method Start(fn: Fn, added: bool) returns (ok: bool)
      requires Valid()
      modifies this
      ensures Valid() && Nested(old(Now()), Now()) && dead == old(dead)
      ensures ok <==> added && |old(transfers)| < MAX_PENDING
      ensures transfers == if ok then old(transfers)[old(nextId) := fn] else old(transfers)
      ensures nextId == old(nextId) + if |old(transfers)| < MAX_PENDING then 1 else 0
      ensures |old(transfers)| < MAX_PENDING ==> ids == old(ids) + [Entry(fn, if ok then Pending else Failed)]
      ensures Now() == Started(old(Now()), fn, added)
    {
      if |transfers| >= MAX_PENDING {
        return false;
      }
      ghost var before := Now();
      var id := nextId;
      nextId := nextId + 1;
      ids := ids + [Entry(fn, if added then Pending else Failed)];
      if !added {
        RefusedKeeps(before, fn);
        assert Now() == Refused(before, fn);
        return false;
      }
      AddedKeeps(before, fn);
      transfers := transfers[id := fn];
      assert Now() == Added(before, fn);
      return true;
    }

    method Take(id: nat)
      requires id < |ids|
      modifies this`transfers, this`ids
      ensures Now() == Moved(old(Now()), id, Taken)
    {
      transfers := transfers - {id};
      ids := ids[id := Entry(ids[id].fn, Taken)];
    }

    /** Takes out the transfers libcurl reports as finished; it reports only those it still has. */
    method Collect(report: seq<nat>) returns (done: seq<Transfer>)
      requires forall id <- transfers :: id < |ids|
      modifies this`transfers, this`ids
      ensures done == Finished(old(transfers), report)
      ensures (forall t <- done :: t.id < |old(ids)|) && Now() == TookAll(old(Now()), done)
    {
      done := [];
      ghost var l := Now();
      assert report[..0] == [];
      for i := 0 to |report|
        invariant done == Finished(l.pending, report[..i]) && Now() == TookAll(l, done)
      {
        var id := report[i];
        ReportNext(l, report, i);
        if id in transfers {
          done := done + [Transfer(id, transfers[id])];
          Take(id);
        }
      }
      assert report[..|report|] == report;
    }

    /**
      One pump.  It calls back the transfers that had finished when it began, each once, in the
      order libcurl reports them; only an exception or a panic leaves some out, the last ones,
      and those are dropped.  What a callback starts is
      not among them, and the pumps around this one keep what they hold.
     */
    method Pump(report: seq<nat>, tape: seq<Act>) returns (threw: bool, rest: seq<Act>)
      requires Valid()
      modifies this
      ensures |rest| <= |tape| && Valid() && Nested(old(Now()), Now()) && (old(dead) ==> dead)
      ensures Mine(called, |old(starts)|) <= Finished(old(transfers), report)
      ensures !threw && !dead ==> Mine(called, |old(starts)|) == Finished(old(transfers), report)
      ensures Ran(Now(), dead, threw, rest) == Pumped(old(Now()), old(dead), report, tape)
      decreases |tape|, 3
    {
      threw, rest := false, tape;
      ghost var pump, l := |starts|, Now();
      PumpBegins(l);
      starts := starts + [|ids|];
      assert Now() == Began(l);
      if transfers == map[] {
        FinishedNone(report);
        return;
      }
      var done := Collect(report);
      TookAllRuns(l, Began(l), done, pump);
      threw, rest := Complete(done, l, pump, tape);
    }

    /** The callbacks of what has finished, if anything has: one call into Lua for all of them. */
    method Complete(done: seq<Transfer>, ghost l: Ledger, ghost pump: nat, tape: seq<Act>)
      returns (threw: bool, rest: seq<Act>)
      requires Valid() && Running(l, Now(), done, pump) && Mine(called, pump) == []
      modifies this
      ensures |rest| <= |tape| && Valid() && Nested(l, Now()) && (old(dead) ==> dead)
      ensures Mine(called, pump) <= done && (!threw && !dead ==> Mine(called, pump) == done)
      ensures Ran(Now(), dead, threw, rest) == Completed(old(Now()), old(dead), false, done, pump, tape)
      decreases |tape|, 2, 1
    {
      threw, rest := false, tape;
      ghost var goal := Completed(Now(), dead, false, done, pump, tape);
      Whole(done);
      for i := 0 to |done|
        invariant |rest| <= |tape| && (old(dead) ==> dead)
        invariant Valid() && Running(l, Now(), done[i..], pump)
        invariant InTurn(called, done, i, pump, !threw && !dead)
        invariant goal == Completed(Now(), dead, threw, done[i..], pump, rest)
      {
        threw, rest := CompleteOne(done, i, threw, l, pump, rest);
      }
      RunningDone(l, Now(), pump);
    }

    /** Transfer number `i` of the list. */
    method CompleteOne(done: seq<Transfer>, i: nat, failed: bool, ghost l: Ledger, ghost pump: nat, tape: seq<Act>)
      returns (threw: bool, rest: seq<Act>)
      requires i < |done| && Valid() && Running(l, Now(), done[i..], pump)
      requires InTurn(called, done, i, pump, !failed && !dead)
      modifies this
      ensures |rest| <= |tape| && (old(dead) ==> dead) && (failed ==> threw)
      ensures Valid() && Running(l, Now(), done[i + 1..], pump)
      ensures InTurn(called, done, i + 1, pump, !threw && !dead)
      ensures Completed(Now(), dead, threw, done[i + 1..], pump, rest)
              == Completed(old(Now()), old(dead), failed, done[i..], pump, tape)
      decreases |tape|, 2, 0
    {
      assert done[i..][1..] == done[i + 1..] && done[i..][0] == done[i];
      assert done[..i + 1] == done[..i] + [done[i]];
      ghost var before := called;
      threw, rest := failed, tape;
      if failed || dead {
        GiveUp(done[i..], l, pump);
      } else {
        threw, rest := CallBack(done[i..], l, pump, tape);
        MineGrows(before, called, done[i], pump);
      }
    }

    /** The transfer goes without its callback: an exception left the pump, or the runtime is dead. */
    ghost method GiveUp(left: seq<Transfer>, l: Ledger, pump: nat)
      requires Valid() && Running(l, Now(), left, pump) && left != []
      modifies this`ids
      ensures Valid() && Running(l, Now(), left[1..], pump) && Now() == Moved(old(Now()), left[0].id, Dropped)
    {
      var before := Now();
      var id := left[0].id;
      assert Held(l, before, left[0]);
      MovedKeeps(before, id, Dropped);
      assert Placed(before, id);
      assert transfers - {id} == transfers;
      ids := ids[id := Entry(ids[id].fn, Dropped)];
      assert Now() == Moved(before, id, Dropped);
      RunningRest(l, before, Now(), left, pump);
    }

    /** The callback of the first transfer. */
    method CallBack(left: seq<Transfer>, ghost l: Ledger, ghost pump: nat, tape: seq<Act>)
      returns (threw: bool, rest: seq<Act>)
      requires Valid() && Running(l, Now(), left, pump) && left != []
      modifies this
      ensures |rest| <= |tape| && (old(dead) ==> dead)
      ensures Valid() && Running(l, Now(), left[1..], pump)
      ensures old(called) + [Call(left[0], pump)] <= called
      ensures forall i :: |old(called)| < i < |called| ==> called[i].pump > pump
      ensures Ran(Now(), dead, threw, rest) == RanLua(CalledBack(old(Now()), Call(left[0], pump)), old(dead), tape)
      decreases |tape|, 1
    {
      ghost var before, c := Now(), Call(left[0], pump);
      assert Held(l, before, left[0]);
      CalledBackKeeps(before, c);
      ids := ids[left[0].id := Entry(left[0].fn, Called(|called|))];
      called := called + [c];
      ghost var calling := Now();
      assert calling == CalledBack(before, c);
      RunningRest(l, before, calling, left, pump);
      threw, rest := RunLua(tape);
      RunningNested(l, calling, Now(), left[1..], pump);
    }

    /** A callback: the actions of the tape up to the one that ends it. */
    method RunLua(tape: seq<Act>) returns (threw: bool, rest: seq<Act>)
      requires Valid()
      modifies this
      ensures |rest| <= |tape| && Valid() && Nested(old(Now()), Now()) && (old(dead) ==> dead)
      ensures Ran(Now(), dead, threw, rest) == RanLua(old(Now()), old(dead), tape)
      decreases |tape|, 0
    {
      threw, rest := false, tape;
      ghost var goal := RanLua(Now(), dead, tape);
      while rest != []
        invariant |rest| <= |tape| && Valid() && Nested(old(Now()), Now()) && (old(dead) ==> dead)
        invariant !threw && goal == RanLua(Now(), dead, rest)
        decreases |rest|
      {
        var act := rest[0];
        rest := rest[1..];
        if act.Return? || act.Throw? || act.Panic? {
          dead := dead || act.Panic?;
          threw := !act.Return?;
          return;
        }
        ghost var before := Now();
        rest := Step(act, rest);
        InsideNested(old(Now()), before, Now(), []);
      }
    }

    /** One thing a script or the server does. */
    method Step(act: Act, tape: seq<Act>) returns (rest: seq<Act>)
      requires Valid()
      modifies this
      ensures |rest| <= |tape| && Valid() && Nested(old(Now()), Now()) && (old(dead) ==> dead)
      ensures Ran(Now(), dead, false, rest) == Stepped(old(Now()), old(dead), act, tape)
      ensures old(dead) && act.Frame? ==> Now() == old(Now()) && rest == tape
      decreases |tape|, 4
    {
      rest := tape;
      match act
      case Request(fn, added) => var _ := Start(fn, added);
      case Frame(report) =>
        if !dead {
          var threw;
          threw, rest := Pump(report, rest);   // an exception is logged by the server callback
        }
      case _ =>
    }

    /** Pending requests are dropped without a callback. */
    method Clear()
      requires Valid()
      modifies this
      ensures Valid() && Nested(old(Now()), Now()) && dead == old(dead)
      ensures transfers == map[] && forall id <- old(transfers) :: id < |ids| && ids[id].place.Dropped?
      ensures called == old(called) && Now() == Cleared(old(Now()))
    {
      ClearedKeeps(Now());
      transfers := map[];
      ids := DropPending(ids);
    }
  }

  function DropPending(ids: seq<Entry>): seq<Entry> {
    seq(|ids|, k requires 0 <= k < |ids| => if ids[k].place.Pending? then Entry(ids[k].fn, Dropped) else ids[k])
  }

  lemma {:induction false} ClearedKeeps(l: Ledger)
    requires Inv(l)
    ensures var m := l.(pending := map[], ids := DropPending(l.ids));
            Inv(m) && Nested(l, m) && forall id <- l.pending :: m.ids[id].place.Dropped?
  {
    var m := l.(pending := map[], ids := DropPending(l.ids));
    forall id | 0 <= id < |m.ids| ensures Placed(m, id) && (id in l.pending ==> m.ids[id].place.Dropped?) {
      assert Placed(l, id);
    }
    forall i | 0 <= i < |m.called| ensures Rightly(m, i) {
      assert Rightly(l, i);
    }
  }

  /** The callbacks of one pump, in order. */
  function Mine(called: seq<Call>, pump: nat): seq<Transfer> {
    if called == [] then []
    else (if called[0].pump == pump then [called[0].transfer] else []) + Mine(called[1..], pump)
  }

  lemma {:induction false} Whole(done: seq<Transfer>)
    ensures done[0..] == done && done[..0] == [] && done[|done|..] == [] && done[..|done|] == done
  {
  }

  /** Of the first `i` transfers of the list a pump has called back all, or the first ones. */
  predicate InTurn(called: seq<Call>, done: seq<Transfer>, i: nat, pump: nat, all: bool) {
    i <= |done| && Mine(called, pump) <= done[..i] && (all ==> Mine(called, pump) == done[..i])
  }

  lemma {:induction false} MineNone(called: seq<Call>, pump: nat)
    requires forall i :: 0 <= i < |called| ==> called[i].pump != pump
    ensures Mine(called, pump) == []
  {
    if called != [] { MineNone(called[1..], pump); }
  }

  lemma {:induction false} MineConcat(a: seq<Call>, b: seq<Call>, pump: nat)
    ensures Mine(a + b, pump) == Mine(a, pump) + Mine(b, pump)
  {
    if a == [] {
      assert a + b == b;
    } else {
      assert (a + b)[1..] == a[1..] + b && (a + b)[0] == a[0];
      MineConcat(a[1..], b, pump);
      ConcatAssociative(if a[0].pump == pump then [a[0].transfer] else [], Mine(a[1..], pump), Mine(b, pump));
    }
  }

  /** A pump calls back `t`, and what is called after that is called by others. */
  lemma {:induction false} MineGrows(before: seq<Call>, after: seq<Call>, t: Transfer, pump: nat)
    requires before + [Call(t, pump)] <= after
    requires forall i :: |before| < i < |after| ==> after[i].pump != pump
    ensures Mine(after, pump) == Mine(before, pump) + [t]
  {
    var tail := after[|before| + 1..];
    assert after == before + ([Call(t, pump)] + tail);
    MineConcat(before, [Call(t, pump)] + tail, pump);
    assert ([Call(t, pump)] + tail)[1..] == tail;
    MineNone(tail, pump);
  }
}
