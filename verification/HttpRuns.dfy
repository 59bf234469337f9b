/**
  Whole runs of HTTP requests, and what the callbacks in them do, said of the tape alone.
 */
module HttpRuns {
  import opened Wrappers
  import opened Http

  // ---------------------------------------------------------------- the functions the requests came with

  function Fns(ids: seq<Entry>): seq<Fn> {
    seq(|ids|, k requires 0 <= k < |ids| => ids[k].fn)
  }

  /** The functions of the requests on a tape. */
  function Asks(acts: seq<Act>): seq<Fn> {
    if acts == [] then [] else (if acts[0].Request? then [acts[0].fn] else []) + Asks(acts[1..])
  }

  lemma {:induction false} AsksConcat(a: seq<Act>, b: seq<Act>)
    ensures Asks(a + b) == Asks(a) + Asks(b)
  {
    if a == [] {
      assert a + b == b;
    } else {
      assert (a + b)[0] == a[0] && (a + b)[1..] == a[1..] + b;
      AsksConcat(a[1..], b);
      ConcatAssociative(if a[0].Request? then [a[0].fn] else [], Asks(a[1..]), Asks(b));
    }
  }

  /** `a` is `b` with some left out. */
  predicate Part(a: seq<Fn>, b: seq<Fn>)
    decreases |b|
  {
    a == [] || (b != [] && (Part(a, b[1..]) || (a[0] == b[0] && Part(a[1..], b[1..]))))
  }

  lemma {:induction false} PartSelf(a: seq<Fn>)
    ensures Part(a, a)
  {
    if a != [] { PartSelf(a[1..]); }
  }

  lemma {:induction false} PartOfMore(a: seq<Fn>, more: seq<Fn>, b: seq<Fn>)
    requires Part(a, b)
    ensures Part(a, more + b)
    decreases |more|
  {
    if more == [] {
      assert more + b == b;
    } else {
      assert (more + b)[1..] == more[1..] + b;
      PartOfMore(a, more[1..], b);
    }
  }

  lemma {:induction false} PartConcat(a: seq<Fn>, b: seq<Fn>, c: seq<Fn>, d: seq<Fn>)
    requires Part(a, b) && Part(c, d)
    ensures Part(a + c, b + d)
    decreases |b|
  {
    if a == [] {
      assert a + c == c;
      PartOfMore(c, b, d);
    } else {
      assert (b + d)[1..] == b[1..] + d && (a + c)[1..] == a[1..] + c;
      if Part(a, b[1..]) {
        PartConcat(a, b[1..], c, d);
      } else {
        PartConcat(a[1..], b[1..], c, d);
      }
    }
  }

  /** From `l` to `m` the requests of the tape got ids in order, each with its function; but for those beyond the limit. */
  predicate Issued(l: Ledger, m: Ledger, used: seq<Act>) {
    && Fns(l.ids) <= Fns(m.ids)
    && |m.pending| <= |l.pending| + |Asks(used)|
    && Part(Fns(m.ids)[|l.ids|..], Asks(used))
    && (|l.pending| + |Asks(used)| <= MAX_PENDING ==> Fns(m.ids)[|l.ids|..] == Asks(used))
  }

  lemma {:induction false} IssuedNothing(l: Ledger, m: Ledger, used: seq<Act>)
    requires Fns(l.ids) == Fns(m.ids) && |m.pending| <= |l.pending| && Asks(used) == []
    ensures Issued(l, m, used)
  {
    assert Fns(m.ids)[|l.ids|..] == [];
  }

  lemma {:induction false} IssuedTransitive(l: Ledger, m: Ledger, n: Ledger, a: seq<Act>, b: seq<Act>)
    requires Issued(l, m, a) && Issued(m, n, b)
    ensures Issued(l, n, a + b)
  {
    AsksConcat(a, b);
    var first, second := Fns(m.ids)[|l.ids|..], Fns(n.ids)[|m.ids|..];
    assert Fns(n.ids)[|l.ids|..] == first + second;
    PartConcat(first, Asks(a), second, Asks(b));
  }

  /** The part of a tape that was read. */
  function Used(tape: seq<Act>, rest: seq<Act>): seq<Act>
    requires |rest| <= |tape|
  {
    tape[..|tape| - |rest|]
  }

  /** `rest` is the end of `tape`. */
  predicate Ending(tape: seq<Act>, rest: seq<Act>) {
    |rest| <= |tape| && tape == Used(tape, rest) + rest
  }

  lemma {:induction false} EndingOfEnding(tape: seq<Act>, mid: seq<Act>, rest: seq<Act>)
    requires Ending(tape, mid) && Ending(mid, rest)
    ensures Ending(tape, rest) && Used(tape, rest) == Used(tape, mid) + Used(mid, rest)
  {
    assert tape == Used(tape, mid) + (Used(mid, rest) + rest);
  }

  lemma OneMore(pending: map<nat, Fn>, id: nat, fn: Fn)
    ensures |pending[id := fn]| <= |pending| + 1
  {
    assert pending[id := fn].Keys == pending.Keys + {id};
  }

  lemma {:induction false} StartedIssues(l: Ledger, fn: Fn, added: bool)
    ensures Issued(l, Started(l, fn, added), [Request(fn, added)])
  {
    var m := Started(l, fn, added);
    assert Asks([Request(fn, added)]) == [fn] by { assert [Request(fn, added)][1..] == []; }
    OneMore(l.pending, |l.ids|, fn);
    PartSelf([fn]);
    if |l.pending| < MAX_PENDING {
      assert Fns(m.ids) == Fns(l.ids) + [fn];
    } else {
      assert Fns(m.ids)[|l.ids|..] == [];
    }
  }

  lemma {:induction false} RanLuaIssues(l: Ledger, dead: bool, tape: seq<Act>)
    ensures var r := RanLua(l, dead, tape); Ending(tape, r.rest) && Issued(l, r.l, Used(tape, r.rest))
    decreases |tape|, 0
  {
    var r := RanLua(l, dead, tape);
    if tape == [] || Ends(tape[0]) {
      assert Used(tape, r.rest) == tape[..|tape| - |r.rest|];
      assert tape != [] ==> tape == [tape[0]] + r.rest && tape[..1][1..] == [];
      IssuedNothing(l, r.l, Used(tape, r.rest));
    } else {
      var s := Stepped(l, dead, tape[0], tape[1..]);
      SteppedIssues(l, dead, tape[0], tape[1..]);
      RanLuaIssues(s.l, s.dead, s.rest);
      FirstAct(tape, s.rest);
      IssuedTransitive(l, s.l, r.l, Used(tape, s.rest), Used(s.rest, r.rest));
      EndingOfEnding(tape, s.rest, r.rest);
    }
  }

  lemma FirstAct(tape: seq<Act>, rest: seq<Act>)
    requires tape != [] && Ending(tape[1..], rest)
    ensures Ending(tape, rest) && Used(tape, rest) == [tape[0]] + Used(tape[1..], rest)
  {
  }

  lemma {:induction false} SteppedIssues(l: Ledger, dead: bool, act: Act, tape: seq<Act>)
    ensures var r := Stepped(l, dead, act, tape); Ending(tape, r.rest) && Issued(l, r.l, [act] + Used(tape, r.rest))
    decreases |tape|, 3
  {
    var r := Stepped(l, dead, act, tape);
    if act.Frame? && !dead {
      var done := Finished(l.pending, act.report);
      var m := TookAll(Began(l), done);
      TookAllFns(Began(l), done);
      assert Asks([act]) == [] by { assert [act][1..] == []; }
      IssuedNothing(l, m, [act]);
      CompletedIssues(m, dead, false, done, |l.starts|, tape);
      IssuedTransitive(l, m, r.l, [act], Used(tape, r.rest));
    } else {
      assert [act] + Used(tape, tape) == [act];
      if act.Request? {
        StartedIssues(l, act.fn, act.added);
      } else {
        assert Asks([act]) == [] by { assert [act][1..] == []; }
        IssuedNothing(l, r.l, [act]);
      }
    }
  }

  lemma {:induction false} TookAllFns(l: Ledger, done: seq<Transfer>)
    ensures Fns(TookAll(l, done).ids) == Fns(l.ids) && |TookAll(l, done).pending| <= |l.pending|
    decreases |done|
  {
    if done != [] {
      TookAllFns(l, done[..|done| - 1]);
      OneLess(TookAll(l, done[..|done| - 1]).pending, done[|done| - 1].id);
    }
  }

  lemma {:induction false} CompletedIssues(l: Ledger, dead: bool, threw: bool, done: seq<Transfer>, pump: nat, tape: seq<Act>)
    ensures var r := Completed(l, dead, threw, done, pump, tape); Ending(tape, r.rest) && Issued(l, r.l, Used(tape, r.rest))
    decreases |tape|, 1, |done|
  {
    var r := Completed(l, dead, threw, done, pump, tape);
    if done == [] {
      IssuedNothing(l, r.l, Used(tape, r.rest));
    } else if threw || dead {
      var m := Moved(l, done[0].id, Dropped);
      OneLess(l.pending, done[0].id);
      IssuedNothing(l, m, []);
      CompletedIssues(m, dead, threw, done[1..], pump, tape);
      IssuedTransitive(l, m, r.l, [], Used(tape, r.rest));
      assert [] + Used(tape, r.rest) == Used(tape, r.rest);
    } else {
      var m := CalledBack(l, Call(done[0], pump));
      IssuedNothing(l, m, []);
      RanLuaIssues(m, dead, tape);
      var s := RanLua(m, dead, tape);
      IssuedTransitive(l, m, s.l, [], Used(tape, s.rest));
      assert [] + Used(tape, s.rest) == Used(tape, s.rest);
      CompletedIssues(s.l, s.dead, s.threw, done[1..], pump, s.rest);
      IssuedTransitive(l, s.l, r.l, Used(tape, s.rest), Used(s.rest, r.rest));
      EndingOfEnding(tape, s.rest, r.rest);
    }
  }

  lemma {:induction false} ServedIssues(l: Ledger, dead: bool, tape: seq<Act>)
    ensures Issued(l, Served(l, dead, tape), tape)
    decreases |tape|
  {
    if tape == [] {
      IssuedNothing(l, l, tape);
    } else if tape[0].Shutdown? {
      assert Asks([tape[0]]) == [] by { assert [tape[0]][1..] == []; }
      IssuedNothing(l, Cleared(l), [tape[0]]);
      ServedIssues(Cleared(l), dead, tape[1..]);
      IssuedTransitive(l, Cleared(l), Served(l, dead, tape), [tape[0]], tape[1..]);
      assert [tape[0]] + tape[1..] == tape;
    } else {
      var s := Stepped(l, dead, tape[0], tape[1..]);
      SteppedIssues(l, dead, tape[0], tape[1..]);
      ServedIssues(s.l, s.dead, s.rest);
      FirstAct(tape, s.rest);
      IssuedTransitive(l, s.l, Served(l, dead, tape), Used(tape, s.rest), s.rest);
    }
  }

  /** Every callback is the one its request came with. */
  lemma OwnCallbacks(l: Ledger)
    requires Inv(l)
    ensures forall c <- l.called :: c.transfer.id < |l.ids| && c.transfer.fn == Fns(l.ids)[c.transfer.id]
  {
    forall i | 0 <= i < |l.called|
      ensures l.called[i].transfer.id < |l.ids| && l.called[i].transfer.fn == Fns(l.ids)[l.called[i].transfer.id]
    {
      assert Rightly(l, i);
    }
  }

  // ---------------------------------------------------------------- callbacks, on the tape alone

  /** Callbacks that do nothing but start requests. */
  predicate Plain(acts: seq<Act>) {
    forall a <- acts :: a.Request?
  }

  function Applied(l: Ledger, acts: seq<Act>): Ledger
    requires Plain(acts)
    decreases |acts|
  {
    if acts == [] then l
    else
      assert acts[0] in acts && forall a <- acts[1..] :: a in acts;
      Applied(Started(l, acts[0].fn, acts[0].added), acts[1..])
  }

  /** The entries of these requests, as long as the limit is not reached. */
  function Entries(acts: seq<Act>): seq<Entry>
    requires Plain(acts)
  {
    seq(|acts|, k requires 0 <= k < |acts| =>
      assert acts[k] in acts; Entry(acts[k].fn, if acts[k].added then Pending else Failed))
  }

  /** Every request gets the next id, and is pending with its own function if libcurl took it. */
  lemma {:induction false} RequestsStart(l: Ledger, acts: seq<Act>)
    requires Plain(acts) && |l.pending| + |acts| <= MAX_PENDING
    ensures var m := Applied(l, acts); m.ids == l.ids + Entries(acts) && m.called == l.called && m.starts == l.starts
    decreases |acts|
  {
    if acts == [] {
      assert l.ids + Entries(acts) == l.ids;
    } else {
      assert acts[0] in acts && forall a <- acts[1..] :: a in acts;
      OneMore(l.pending, |l.ids|, acts[0].fn);
      RequestsStart(Started(l, acts[0].fn, acts[0].added), acts[1..]);
      assert Entries(acts) == [Entries(acts)[0]] + Entries(acts[1..]);
    }
  }

  /** A callback starts its requests, up to the action that ends it. */
  lemma {:induction false} CallbackRuns(l: Ledger, dead: bool, acts: seq<Act>, end: Act, rest: seq<Act>)
    requires Plain(acts) && Ends(end)
    ensures RanLua(l, dead, acts + ([end] + rest)) == Ran(Applied(l, acts), dead || end.Panic?, !end.Return?, rest)
    decreases |acts|
  {
    var tape := acts + ([end] + rest);
    if acts == [] {
      assert tape == [end] + rest && tape[1..] == rest;
    } else {
      assert acts[0] in acts && forall a <- acts[1..] :: a in acts;
      assert tape[0] == acts[0] && tape[1..] == acts[1..] + ([end] + rest);
      CallbackRuns(Started(l, acts[0].fn, acts[0].added), dead, acts[1..], end, rest);
    }
  }

  function Written(bodies: seq<seq<Act>>): seq<Act> {
    if bodies == [] then [] else bodies[0] + ([Return] + Written(bodies[1..]))
  }

  predicate AllPlain(bodies: seq<seq<Act>>) {
    forall i :: 0 <= i < |bodies| ==> Plain(bodies[i])
  }

  function CallsOf(done: seq<Transfer>, pump: nat): seq<Call> {
    seq(|done|, i requires 0 <= i < |done| => Call(done[i], pump))
  }

  lemma {:induction false} AppliedCalls(l: Ledger, acts: seq<Act>)
    requires Plain(acts)
    ensures Applied(l, acts).called == l.called
    decreases |acts|
  {
    if acts != [] {
      assert acts[0] in acts && forall a <- acts[1..] :: a in acts;
      AppliedCalls(Started(l, acts[0].fn, acts[0].added), acts[1..]);
    }
  }

  /** The first callback of a pump; then the pump goes on with the others, which are dropped if it did not return. */
  lemma {:induction false} FirstCallback(l: Ledger, t: Transfer, others: seq<Transfer>, pump: nat, acts: seq<Act>,
                                         end: Act, rest: seq<Act>)
    requires Plain(acts) && Ends(end)
    ensures var m := Applied(CalledBack(l, Call(t, pump)), acts);
            && m.called == l.called + [Call(t, pump)]
            && Completed(l, false, false, [t] + others, pump, acts + ([end] + rest))
               == Completed(m, end.Panic?, !end.Return?, others, pump, rest)
  {
    assert ([t] + others)[1..] == others;
    CallbackRuns(CalledBack(l, Call(t, pump)), false, acts, end, rest);
    AppliedCalls(CalledBack(l, Call(t, pump)), acts);
  }

  /** The callbacks of `done` in turn. */
  function CalledAll(l: Ledger, done: seq<Transfer>, pump: nat, bodies: seq<seq<Act>>): Ledger
    requires |bodies| == |done| && AllPlain(bodies)
    decreases |done|
  {
    if done == [] then l
    else CalledAll(Applied(CalledBack(l, Call(done[0], pump)), bodies[0]), done[1..], pump, bodies[1..])
  }

  lemma {:induction false} CalledAllCalls(l: Ledger, done: seq<Transfer>, pump: nat, bodies: seq<seq<Act>>)
    requires |bodies| == |done| && AllPlain(bodies)
    ensures var m := CalledAll(l, done, pump, bodies);
            && m.called == l.called + CallsOf(done, pump)
            && ((forall i :: 0 <= i < |bodies| ==> bodies[i] == []) ==> m.pending == l.pending && |m.ids| == |l.ids|)
    decreases |done|
  {
    if done == [] {
      assert l.called + CallsOf(done, pump) == l.called;
    } else {
      var first := CalledBack(l, Call(done[0], pump));
      AppliedCalls(first, bodies[0]);
      CalledAllCalls(Applied(first, bodies[0]), done[1..], pump, bodies[1..]);
      assert CallsOf(done, pump) == [Call(done[0], pump)] + CallsOf(done[1..], pump);
    }
  }

  /** Callbacks that return are all called, each with its own part of the tape; then the pump goes on. */
  lemma {:induction false} ReturningCallbacks(l: Ledger, done: seq<Transfer>, others: seq<Transfer>, pump: nat,
                                              bodies: seq<seq<Act>>, rest: seq<Act>)
    requires |bodies| == |done| && AllPlain(bodies)
    ensures Completed(l, false, false, done + others, pump, Written(bodies) + rest)
            == Completed(CalledAll(l, done, pump, bodies), false, false, others, pump, rest)
    decreases |done|
  {
    if done == [] {
      assert Written(bodies) + rest == rest && done + others == others;
    } else {
      var more := Written(bodies[1..]) + rest;
      assert done + others == [done[0]] + (done[1..] + others) && Written(bodies) + rest == bodies[0] + ([Return] + more);
      FirstCallback(l, done[0], done[1..] + others, pump, bodies[0], Return, more);
      ReturningCallbacks(Applied(CalledBack(l, Call(done[0], pump)), bodies[0]), done[1..], others, pump, bodies[1..], rest);
    }
  }

  /** What is left is dropped without a callback, and nothing is read. */
  lemma {:induction false} RestIsDropped(l: Ledger, dead: bool, threw: bool, left: seq<Transfer>, pump: nat, tape: seq<Act>)
    requires dead || threw
    ensures var r := Completed(l, dead, threw, left, pump, tape);
            && r.l.called == l.called && r.dead == dead && r.threw == threw && r.rest == tape && |r.l.ids| == |l.ids|
            && (forall id :: 0 <= id < |l.ids| ==>
                  r.l.ids[id] == if Holds(left, id) then Entry(l.ids[id].fn, Dropped) else l.ids[id])
    decreases |left|
  {
    if left != [] {
      RestIsDropped(Moved(l, left[0].id, Dropped), dead, threw, left[1..], pump, tape);
      assert left == [left[0]] + left[1..];
      forall id | 0 <= id < |l.ids| ensures Holds(left, id) <==> left[0].id == id || Holds(left[1..], id) {
        if Holds(left[1..], id) {
          var i :| 0 <= i < |left[1..]| && left[1..][i].id == id;
          assert left[i + 1].id == id;
        }
      }
    }
  }

  /**
    A pump whose callbacks return calls back all that has finished, in order, and does what they
    ask for.  If one throws or panics, it is the last one that is called, and the others are
    dropped.
   */
  lemma {:induction false} WholePump(l: Ledger, report: seq<nat>, bodies: seq<seq<Act>>, rest: seq<Act>)
    requires |bodies| == |Finished(l.pending, report)| && AllPlain(bodies)
    ensures var r, done := Stepped(l, false, Frame(report), Written(bodies) + rest), Finished(l.pending, report);
            && r == Ran(CalledAll(TookAll(Began(l), done), done, |l.starts|, bodies), false, false, rest)
            && r.l.called == l.called + CallsOf(done, |l.starts|)
  {
    var done := Finished(l.pending, report);
    var m := TookAll(Began(l), done);
    ReturningCallbacks(m, done, [], |l.starts|, bodies, rest);
    CalledAllCalls(m, done, |l.starts|, bodies);
    assert done + [] == done;
  }

  lemma {:induction false} PumpStops(l: Ledger, report: seq<nat>, before: seq<Transfer>, t: Transfer, others: seq<Transfer>,
                                     bodies: seq<seq<Act>>, acts: seq<Act>, end: Act, rest: seq<Act>)
    requires Finished(l.pending, report) == before + ([t] + others) && |bodies| == |before| && AllPlain(bodies)
    requires Plain(acts) && Ends(end) && !end.Return?
    ensures var r := Stepped(l, false, Frame(report), Written(bodies) + (acts + ([end] + rest)));
            && r.rest == rest && r.dead == end.Panic?
            && r.l.called == l.called + CallsOf(before, |l.starts|) + [Call(t, |l.starts|)]
            && (forall o <- others :: o.id < |r.l.ids| ==> r.l.ids[o.id].place.Dropped?)
  {
    var pump, tape := |l.starts|, acts + ([end] + rest);
    var first := TookAll(Began(l), Finished(l.pending, report));
    var m := CalledAll(first, before, pump, bodies);
    CalledAllCalls(first, before, pump, bodies);
    ReturningCallbacks(first, before, [t] + others, pump, bodies, tape);
    FirstCallback(m, t, others, pump, acts, end, rest);
    var n := Applied(CalledBack(m, Call(t, pump)), acts);
    AllDroppedWithout(n, end.Panic?, others, pump, rest);
  }

  lemma {:induction false} AllDroppedWithout(l: Ledger, dead: bool, left: seq<Transfer>, pump: nat, tape: seq<Act>)
    ensures var r := Completed(l, dead, true, left, pump, tape);
            && r.l.called == l.called && r.dead == dead && r.rest == tape
            && (forall t <- left :: t.id < |r.l.ids| ==> r.l.ids[t.id].place.Dropped?)
  {
    RestIsDropped(l, dead, true, left, pump, tape);
    forall t <- left ensures Holds(left, t.id) {
      var i :| 0 <= i < |left| && left[i] == t;
    }
  }

  // ---------------------------------------------------------------- runs whose callbacks do nothing

  /** What can be seen from outside: the pending requests, how many ids were given out, and what was called back. */
  datatype View = View(pending: map<nat, Fn>, ids: nat, called: seq<Transfer>)

  /** Each transfer of a report is called back if it is pending. */
  function Reported(v: View, report: seq<nat>): View {
    if report == [] then v
    else
      var u, id := Reported(v, report[..|report| - 1]), report[|report| - 1];
      if id in u.pending then u.(pending := u.pending - {id}, called := u.called + [Transfer(id, u.pending[id])]) else u
  }

  function Expected(v: View, act: Act): View {
    match act
    case Request(fn, added) =>
      if |v.pending| == MAX_PENDING then v
      else v.(pending := if added then v.pending[v.ids := fn] else v.pending, ids := v.ids + 1)
    case Frame(report) => Reported(v, report)
    case Shutdown => v.(pending := map[])
    case _ => v
  }

  function ExpectedAll(v: View, acts: seq<Act>): View
    decreases |acts|
  {
    if acts == [] then v else ExpectedAll(Expected(v, acts[0]), acts[1..])
  }

  function Seen(l: Ledger): View {
    View(l.pending, |l.ids|, Transfers(l.called))
  }

  function Returns(n: nat): seq<Act> {
    seq(n, i => Return)
  }

  /** Each action, with callbacks that return at once. */
  function Quietly(acts: seq<Act>): seq<Act> {
    if acts == [] then []
    else [acts[0]] + (Returns(if acts[0].Frame? then |acts[0].report| else 0) + Quietly(acts[1..]))
  }

  lemma {:induction false} ServedReturns(l: Ledger, dead: bool, n: nat, rest: seq<Act>)
    ensures Served(l, dead, Returns(n) + rest) == Served(l, dead, rest)
  {
    if n == 0 {
      assert Returns(0) + rest == rest;
    } else {
      assert (Returns(n) + rest)[1..] == Returns(n - 1) + rest;
      ServedReturns(l, dead, n - 1, rest);
    }
  }

  lemma {:induction false} WrittenReturns(n: nat)
    ensures Written(Empty(n)) == Returns(n)
  {
    if n > 0 {
      assert Empty(n)[1..] == Empty(n - 1);
      WrittenReturns(n - 1);
      assert Returns(n) == [Return] + Returns(n - 1);
      assert [] + ([Return] + Returns(n - 1)) == [Return] + Returns(n - 1);
    }
  }

  /** What has been taken from `v` when the transfers `done` are out. */
  function Without(v: View, l: Ledger, done: seq<Transfer>): View {
    v.(pending := TookAll(l, done).pending, called := v.called + done)
  }

  /** What a pump takes is what the report calls back. */
  lemma {:induction false} TakesReported(l: Ledger, v: View, report: seq<nat>)
    requires v.pending == l.pending && forall id <- l.pending :: id < |l.ids|
    ensures var done := Finished(l.pending, report); |done| <= |report| && Reported(v, report) == Without(v, l, done)
    decreases |report|
  {
    if report == [] {
      assert Without(v, l, []) == v;
    } else {
      var init, id := report[..|report| - 1], report[|report| - 1];
      TakesReported(l, v, init);
      ReportEnds(l, report);
      TakesLast(l, v, Finished(l.pending, init), id);
      var u := Reported(v, init);
      assert Reported(v, report)
          == if id in u.pending then u.(pending := u.pending - {id}, called := u.called + [Transfer(id, u.pending[id])]) else u;
    }
  }

  /** The last transfer of a report. */
  lemma {:induction false} ReportEnds(l: Ledger, report: seq<nat>)
    requires report != [] && forall id <- l.pending :: id < |l.ids|
    ensures var done, id := Finished(l.pending, report[..|report| - 1]), report[|report| - 1];
            var m := TookAll(l, done);
            if id in m.pending
            then && Finished(l.pending, report) == done + [Transfer(id, m.pending[id])]
                 && TookAll(l, done + [Transfer(id, m.pending[id])]) == Moved(m, id, Taken)
            else Finished(l.pending, report) == done
  {
    ReportNext(l, report, |report| - 1);
    assert report[..|report| - 1 + 1] == report;
  }

  lemma {:induction false} TakesLast(l: Ledger, v: View, done: seq<Transfer>, id: nat)
    requires id in TookAll(l, done).pending
             ==> TookAll(l, done + [Transfer(id, TookAll(l, done).pending[id])]) == Moved(TookAll(l, done), id, Taken)
    ensures var u := Without(v, l, done);
            id in u.pending ==>
              u.(pending := u.pending - {id}, called := u.called + [Transfer(id, u.pending[id])])
              == Without(v, l, done + [Transfer(id, u.pending[id])])
  {
    var u := Without(v, l, done);
    if id in u.pending {
      var t := Transfer(id, u.pending[id]);
      assert v.called + done + [t] == v.called + (done + [t]);
    }
  }

  /** Every pending request has an id that was given out, and there are at most 1000. */
  predicate Limited(l: Ledger) {
    |l.pending| <= MAX_PENDING && forall id <- l.pending :: id < |l.ids|
  }

  /** What the pump of such a report leaves. */
  function Reporting(l: Ledger, report: seq<nat>): Ledger {
    var done := Finished(l.pending, report);
    CalledAll(TookAll(Began(l), done), done, |l.starts|, Empty(|done|))
  }

  function Empty(n: nat): (bodies: seq<seq<Act>>)
    ensures |bodies| == n && AllPlain(bodies) && forall i :: 0 <= i < n ==> bodies[i] == []
  {
    seq(n, i => [])
  }

  lemma {:induction false} ReportingSeen(l: Ledger, report: seq<nat>)
    requires Limited(l)
    ensures var m := Reporting(l, report); Limited(m) && Seen(m) == Reported(Seen(l), report)
  {
    var done := Finished(l.pending, report);
    TakesReported(l, Seen(l), report);
    BeganTakes(l, done);
    TookAllFewer(l, done);
    CalledAllCalls(TookAll(Began(l), done), done, |l.starts|, Empty(|done|));
    CalledSeen(l.called, done, |l.starts|);
  }

  function Transfers(called: seq<Call>): seq<Transfer> {
    seq(|called|, i requires 0 <= i < |called| => called[i].transfer)
  }

  lemma CalledSeen(called: seq<Call>, done: seq<Transfer>, pump: nat)
    ensures Transfers(called + CallsOf(done, pump)) == Transfers(called) + done
  {
  }

  lemma {:induction false} QuietFrame(l: Ledger, report: seq<nat>, rest: seq<Act>)
    requires Limited(l)
    ensures var s := Stepped(l, false, Frame(report), Returns(|report|) + rest);
            !s.dead && s.l == Reporting(l, report) && Served(s.l, false, s.rest) == Served(s.l, false, rest)
  {
    var done := Finished(l.pending, report);
    TakesReported(l, Seen(l), report);
    var n := |report| - |done|;
    assert Returns(|report|) + rest == Returns(|done|) + (Returns(n) + rest);
    WrittenReturns(|done|);
    WholePump(l, report, Empty(|done|), Returns(n) + rest);
    ServedReturns(Reporting(l, report), false, n, rest);
  }

  lemma {:induction false} TookAllFewer(l: Ledger, done: seq<Transfer>)
    requires Limited(l)
    ensures Limited(TookAll(l, done))
    decreases |done|
  {
    if done != [] {
      TookAllFewer(l, done[..|done| - 1]);
      OneLess(TookAll(l, done[..|done| - 1]).pending, done[|done| - 1].id);
    }
  }

  lemma {:induction false} BeganTakes(l: Ledger, done: seq<Transfer>)
    ensures TookAll(Began(l), done) == Began(TookAll(l, done))
    decreases |done|
  {
    if done != [] { BeganTakes(l, done[..|done| - 1]); }
  }

  /** One action, and the returns after it. */
  function Next(l: Ledger, act: Act, tape: seq<Act>): Ledger {
    if act.Shutdown? then Cleared(l) else Stepped(l, false, act, tape).l
  }

  lemma {:induction false} QuietStep(l: Ledger, act: Act, rest: seq<Act>)
    requires Limited(l)
    ensures var tape := Returns(if act.Frame? then |act.report| else 0) + rest;
            var m := Next(l, act, tape);
            && Limited(m) && Seen(m) == Expected(Seen(l), act)
            && Served(l, false, [act] + tape) == Served(m, false, rest)
  {
    var n := if act.Frame? then |act.report| else 0;
    assert ([act] + (Returns(n) + rest))[1..] == Returns(n) + rest;
    if act.Frame? {
      QuietFrame(l, act.report, rest);
      ReportingSeen(l, act.report);
    } else {
      assert Returns(0) + rest == rest;
      if act.Request? { OneMore(l.pending, |l.ids|, act.fn); }
      if act.Request? && !act.added { assert Seen(Refused(l, act.fn)).called == Seen(l).called; }
    }
  }

  /**
    In a run whose callbacks do nothing, any requests, reports and clears in any order: which
    requests are pending, how many ids were given out, and which callbacks were called, in order
    and with which functions.
   */
  lemma {:induction false} QuietRun(l: Ledger, acts: seq<Act>)
    requires Limited(l)
    ensures Seen(Served(l, false, Quietly(acts))) == ExpectedAll(Seen(l), acts)
    decreases |acts|
  {
    if acts != [] {
      QuietStep(l, acts[0], Quietly(acts[1..]));
      QuietRun(Next(l, acts[0], Quietly(acts)[1..]), acts[1..]);
      assert Quietly(acts)[1..] == Returns(if acts[0].Frame? then |acts[0].report| else 0) + Quietly(acts[1..]);
    }
  }

  /** The ids that were pending at some clear. */
  function PendingAtClears(l: Ledger, dead: bool, tape: seq<Act>): set<nat>
    decreases |tape|
  {
    if tape == [] then {}
    else if tape[0].Shutdown? then l.pending.Keys + PendingAtClears(Cleared(l), dead, tape[1..])
    else var s := Stepped(l, dead, tape[0], tape[1..]); PendingAtClears(s.l, s.dead, s.rest)
  }

  /** One thing that happens outside the callbacks; `more` are the ids a clear drops. */
  method ServeOne(h: Http, tape: seq<Act>, ghost cleared: set<nat>) returns (rest: seq<Act>, ghost more: set<nat>)
    requires tape != [] && h.Valid() && NoneTaken(h.ids) && AllDropped(h.ids, cleared)
    modifies h
    ensures |rest| < |tape| && h.Valid() && NoneTaken(h.ids) && AllDropped(h.ids, cleared + more)
    ensures Served(old(h.Now()), old(h.dead), tape) == Served(h.Now(), h.dead, rest)
    ensures PendingAtClears(old(h.Now()), old(h.dead), tape) == more + PendingAtClears(h.Now(), h.dead, rest)
  {
    ghost var before := h.Now();
    more := {};
    if tape[0].Shutdown? {
      more := h.transfers.Keys;
      h.Clear();
      rest := tape[1..];
    } else {
      rest := h.Step(tape[0], tape[1..]);
    }
    NestedKeeps(before, h.Now(), cleared);
  }

  /**
    Any run of requests, pumps and clears, with callbacks that start requests and pumps inside
    callbacks.  Every accepted request is pending, or was called back exactly once with its own
    callback, by a pump that began after it was accepted, or was dropped.  What was pending at a
    clear is never called back.  The callbacks are those the requests of the tape came with, in
    order; only requests beyond the limit get no id.
   */
  method Serve(tape: seq<Act>) returns (h: Http)
    ensures Inv(h.Now()) && |h.transfers| <= MAX_PENDING && h.Now() == Served(FRESH, false, tape)
    ensures forall i, j :: 0 <= i < j < |h.called| ==> h.called[i].transfer.id != h.called[j].transfer.id
    ensures forall c <- h.called :: c.transfer.id !in PendingAtClears(FRESH, false, tape)
    ensures |h.ids| - Count(h.ids, Failed) == |h.transfers| + |h.called| + Count(h.ids, Dropped)
    ensures forall c <- h.called :: c.transfer.id < |h.ids| && c.transfer.fn == Fns(h.ids)[c.transfer.id]
    ensures Issued(FRESH, h.Now(), tape)
  {
    h := new Http();
    ghost var cleared := {};
    var rest := tape;
    while rest != []
      invariant fresh(h) && h.Valid() && NoneTaken(h.ids) && AllDropped(h.ids, cleared)
      invariant Served(FRESH, false, tape) == Served(h.Now(), h.dead, rest)
      invariant PendingAtClears(FRESH, false, tape) == cleared + PendingAtClears(h.Now(), h.dead, rest)
      decreases |rest|
    {
      ghost var more;
      rest, more := ServeOne(h, rest, cleared);
      cleared := cleared + more;
    }
    ServedIssues(FRESH, false, tape);
    EndOfRun(h.Now(), cleared);
  }

  lemma EndOfRun(l: Ledger, cleared: set<nat>)
    requires Inv(l) && NoneTaken(l.ids) && AllDropped(l.ids, cleared)
    ensures forall i, j :: 0 <= i < j < |l.called| ==> l.called[i].transfer.id != l.called[j].transfer.id
    ensures forall c <- l.called :: c.transfer.id !in cleared
    ensures |l.ids| - Count(l.ids, Failed) == |l.pending| + |l.called| + Count(l.ids, Dropped)
    ensures forall c <- l.called :: c.transfer.id < |l.ids| && c.transfer.fn == Fns(l.ids)[c.transfer.id]
  {
    forall i, j | 0 <= i < j < |l.called| ensures l.called[i].transfer.id != l.called[j].transfer.id {
      CalledOnce(l, i, j);
    }
    NeverAfterClear(l, cleared);
    Conservation(l);
    CountNone(l.ids);
    OwnCallbacks(l);
  }

  /** What was pending at some clear stays dropped. */
  predicate AllDropped(ids: seq<Entry>, cleared: set<nat>) {
    forall id <- cleared :: id < |ids| && ids[id].place.Dropped?
  }

  lemma NestedKeeps(l: Ledger, m: Ledger, cleared: set<nat>)
    requires Nested(l, m) && NoneTaken(l.ids) && AllDropped(l.ids, cleared)
    ensures NoneTaken(m.ids) && AllDropped(m.ids, cleared)
  {
    forall id <- cleared ensures m.ids[id].place.Dropped? {
      assert Moves(l.ids[id], m.ids[id]);
    }
  }

  lemma NeverAfterClear(l: Ledger, cleared: set<nat>)
    requires Inv(l) && AllDropped(l.ids, cleared)
    ensures forall c <- l.called :: c.transfer.id !in cleared
  {
    forall i | 0 <= i < |l.called| ensures l.called[i].transfer.id !in cleared {
      assert Rightly(l, i);
    }
  }

  predicate NoneTaken(ids: seq<Entry>) {
    forall id :: 0 <= id < |ids| ==> !ids[id].place.Taken?
  }

  lemma {:induction false} CountNone(ids: seq<Entry>)
    requires NoneTaken(ids)
    ensures Count(ids, Taken) == 0
  {
    if ids != [] { CountNone(ids[1..]); }
  }
}
