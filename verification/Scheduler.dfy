/**
  The timers as they are implemented (src/core/scheduler.{hpp,cpp}): a map of entries whose
  nodes never move, where destroying the running timer only marks it, because the tick still
  holds a reference to its entry.  Proved against the simple timers, where destroying removes.
 */
module Scheduler {
  import opened SimpleTimers

  datatype Entry = Entry(timer: Timer, running: bool, destroyed: bool)

  /** The timers a script can see. */
  function Visible(timers: map<nat, Entry>): map<nat, Timer> {
    map id <- timers | !timers[id].destroyed :: timers[id].timer
  }

  /** Nothing is marked destroyed except while it runs. */
  predicate Tidy(timers: map<nat, Entry>) {
    forall id <- timers :: timers[id].destroyed ==> timers[id].running
  }

  predicate NoneRunning(timers: map<nat, Entry>) {
    forall id <- timers :: !timers[id].running
  }

  /** The entry of a running timer stays where it is; it can only be marked. */
  predicate RunningStay(before: map<nat, Entry>, after: map<nat, Entry>) {
    forall id <- before :: before[id].running ==>
      && id in after && after[id].running && after[id].timer == before[id].timer
      && (before[id].destroyed ==> after[id].destroyed)
  }

  /** Every timer has a run to come, but for one that is running. */
  predicate PendingTimers(timers: map<nat, Entry>) {
    forall id <- timers :: timers[id].running || Pending(timers[id].timer)
  }

  /** No callback starts or ends another one. */
  predicate NoneStarted(before: map<nat, Entry>, after: map<nat, Entry>) {
    forall id <- after :: after[id].running ==> id in before && before[id].running
  }

  /** The timers of the list from `i` on have not run in this tick. */
  predicate DueLater(s: Timers, now: int, due: seq<nat>, i: nat) {
    && (forall k :: 0 <= k < |due| ==> due[k] < s.nextId)
    && (forall k :: i <= k < |due| && due[k] in s.live ==> s.live[due[k]].due <= now)
    && (forall j, k :: 0 <= j < k < |due| ==> due[j] != due[k])
  }

  function After(runs: seq<nat>, r: Ticked): Ticked {
    r.(runs := runs + r.runs)
  }

  /** After the turn of one timer the later ones of the list still have not run. */
  lemma {:induction false} DueAfter(s: Timers, now: int, due: seq<nat>, i: nat, tape: seq<Act>)
    requires Known(s) && i < |due| && due[i] in s.live && DueLater(s, now, due, i)
    ensures var later := RunOne(s, due[i], now, tape).0; s.clock <= later.clock && DueLater(later, now, due, i + 1)
  {
    RunOneFollows(s, due[i], now, tape);
  }

  class Scheduler {
    var timers: map<nat, Entry>
    var nextId: nat
    var clock: int   // what clock_() returns
    ghost var finished: map<nat, Timer>
    ghost var destroyed: set<nat>

    ghost predicate Valid()
      reads this
    {
      && Tidy(timers) && PendingTimers(timers) && (forall id <- timers :: id < nextId)
      && Known(Abs()) && AllOnSchedule(Abs()) && AllDone(Abs())
    }

    /** The simple timers these fields stand for. */
    ghost function Abs(): Timers
      reads this
    {
      Timers(Visible(timers), nextId, clock, finished, destroyed)
    }

    constructor (now: int)
      ensures Valid() && timers == map[] && Abs() == Timers(map[], 1, now, map[], {})
    {
      timers, nextId, clock, finished, destroyed := map[], 1, now, map[], {};
    }

    /**
      Refused (an exception) for an interval or a repeat count out of range.  The new timer is due
      one interval from now and has all its runs to come; no other timer changes.
     */
    method Create(interval: int, repeats: int) returns (ok: bool, id: nat)
      requires Valid()
      modifies this`timers, this`nextId
      ensures Valid() && RunningStay(old(timers), timers) && NoneStarted(old(timers), timers)
      ensures ok <==> Accepts(interval, repeats)
      ensures Abs() == Apply(old(Abs()), SimpleTimers.Create(interval, repeats))
      ensures ok ==> id == old(nextId) && id !in old(timers) && nextId == id + 1
      ensures var new_ := Timer(interval, repeats, clock + interval, repeats, clock, 0, false);
              timers == if ok then old(timers)[id := Entry(new_, false, false)] else old(timers)
    {
      if interval < 0 || interval > MAX_INTERVAL {
        return false, 0;
      }
      if repeats != FOREVER && repeats <= 0 {
        return false, 0;
      }
      id := nextId;
      nextId := nextId + 1;
      timers := timers[id := Entry(NewTimer(interval, repeats, clock), false, false)];
      assert Visible(timers) == old(Visible(timers))[id := NewTimer(interval, repeats, clock)];
      ok := true;
    }

    method Exists(id: nat) returns (exists_: bool)
      ensures exists_ <==> id in Abs().live
    {
      exists_ := id in timers && !timers[id].destroyed;
    }

    /** Afterwards the timer does not exist, and all others are as they were. */
    method Destroy(id: nat) returns (ok: bool)
      requires Valid()
      modifies this`timers, this`destroyed
      ensures Valid() && RunningStay(old(timers), timers) && NoneStarted(old(timers), timers)
      ensures ok <==> id in old(Abs()).live
      ensures Abs() == Apply(old(Abs()), SimpleTimers.Destroy(id))
      ensures Abs().live == old(Abs()).live - {id}
    {
      if id !in timers || timers[id].destroyed {
        assert Abs().live - {id} == Abs().live;
        return false;
      }
      if timers[id].running {
        timers := timers[id := timers[id].(destroyed := true)];   // removed once its callback returns
      } else {
        timers := timers - {id};
      }
      destroyed := destroyed + {id};
      assert Visible(timers) == old(Visible(timers)) - {id};
      return true;
    }

    /** Releases every timer; for the timers that is as if they were destroyed. */
    method Clear()
      requires Valid()
      modifies this`timers, this`destroyed
      ensures Valid() && timers == map[]
    {
      destroyed := destroyed + Abs().live.Keys;
      timers := map[];
    }

    /** A callback: the actions of the tape up to its return. */
    method RunLua(tape: seq<Act>) returns (rest: seq<Act>)
      requires Valid()
      modifies this
      ensures Valid() && RunningStay(old(timers), timers) && NoneStarted(old(timers), timers)
      ensures (Abs(), rest) == SimpleTimers.RunLua(old(Abs()), tape)
      decreases |tape|
    {
      if tape == [] {
        return [];
      }
      if tape[0].Return? {
        return tape[1..];
      }
      match tape[0] {
        case Create(interval, repeats) => var _, _ := Create(interval, repeats);
        case Destroy(id) => var _ := Destroy(id);
        case Wait(ms) => clock := clock + ms;
        case Return =>
      }
      ghost var mid := timers;
      rest := RunLua(tape[1..]);
    }

    /** The due timers, earliest first. */
    method CollectDue(now: int) returns (due: seq<nat>)
      requires Valid()
      ensures IsDueList(Abs().live, now, due)
    {
      due := [];
      var live := Visible(timers);
      for id := 0 to nextId   // std::map: in the order of the ids
        invariant forall d <- due :: d < id && d in live && live[d].due <= now
        invariant forall d <- live :: d < id && live[d].due <= now ==> d in due
        invariant Sorted(live, due)
      {
        if id in live && live[id].due <= now {
          due := InsertByDue(live, due, id);
        }
      }
    }

    /**
      One tick: it collects the due timers, then runs those that still exist at their turn.
      No callback may enter another tick.
     */
    method Tick(tape: seq<Act>) returns (rest: seq<Act>, runs: seq<nat>, ghost due: seq<nat>)
      requires Valid() && NoneRunning(timers)
      modifies this
      ensures Valid() && NoneRunning(timers) && Proper(Abs())
      ensures IsDueList(old(Abs()).live, old(clock), due)
      ensures Ticked(Abs(), rest, runs) == TickFrom(old(Abs()), old(clock), due, tape)
    {
      rest, runs, due := tape, [], [];
      if timers == map[] {
        return;
      }
      var now := clock;
      var list := CollectDue(now);
      due := list;
      rest, runs := RunAll(list, now, tape);
    }

    /** The loop over the list, which no callback changes. */
    method RunAll(due: seq<nat>, now: int, tape: seq<Act>) returns (rest: seq<Act>, runs: seq<nat>)
      requires Valid() && NoneRunning(timers) && now <= clock && DueLater(Abs(), now, due, 0)
      modifies this
      ensures Valid() && NoneRunning(timers)
      ensures Ticked(Abs(), rest, runs) == TickFrom(old(Abs()), now, due, tape)
    {
      rest, runs := tape, [];
      ghost var goal := TickFrom(Abs(), now, due, tape);
      assert due[0..] == due && due[|due|..] == [];
      for i := 0 to |due|
        invariant Valid() && NoneRunning(timers) && now <= clock && DueLater(Abs(), now, due, i)
        invariant goal == After(runs, TickFrom(Abs(), now, due[i..], rest))
      {
        rest, runs := TakeTurn(due, i, now, rest, runs, goal);
      }
    }

    /** The turn of timer number `i` of the list: it runs if it still exists. */
    method TakeTurn(due: seq<nat>, i: nat, now: int, tape: seq<Act>, ran: seq<nat>, ghost goal: Ticked)
      returns (rest: seq<Act>, runs: seq<nat>)
      requires Valid() && NoneRunning(timers) && now <= clock && i < |due| && DueLater(Abs(), now, due, i)
      requires goal == After(ran, TickFrom(Abs(), now, due[i..], tape))
      modifies this
      ensures Valid() && NoneRunning(timers) && now <= clock && DueLater(Abs(), now, due, i + 1)
      ensures goal == After(runs, TickFrom(Abs(), now, due[i + 1..], rest))
    {
      rest, runs := tape, ran;
      var id := due[i];
      Turn(Abs(), now, due, i, tape, ran);
      if id in timers && !timers[id].destroyed {
        DueAfter(Abs(), now, due, i, tape);
        rest := Run(id, now, tape);
        runs := ran + [id];
      }
    }

    /**
      One run of one timer.  The entry read after the callback is the entry that was there
      before it.
     */
    method Run(id: nat, now: int, tape: seq<Act>) returns (rest: seq<Act>)
      requires Valid() && NoneRunning(timers) && id in Abs().live
      requires timers[id].timer.due <= now <= clock
      modifies this
      ensures Valid() && NoneRunning(timers)
      ensures (Abs(), rest) == RunOne(old(Abs()), id, now, tape)
    {
      AdvanceOnSchedule(timers[id].timer, now, clock);
      VisibleStarted(timers, id, Advance(timers[id].timer, now));
      timers := timers[id := Entry(Advance(timers[id].timer, now), true, false)];
      rest := RunLua(tape);
      RunOneOnSchedule(old(Abs()), id, now, tape);
      End(id);
    }

    /** The callback has returned. */
    method End(id: nat)
      requires Valid() && id in timers && timers[id].running && Proper(Finish(Abs(), id))
      requires forall k <- timers :: timers[k].running ==> k == id
      modifies this`timers, this`finished
      ensures Valid() && NoneRunning(timers) && Abs() == Finish(old(Abs()), id)
    {
      VisibleFinished(timers, id, Abs());
      var entry := timers[id].(running := false);
      if !entry.destroyed && entry.timer.remaining == 0 {
        finished := finished[id := entry.timer];
      }
      if entry.destroyed || entry.timer.remaining == 0 {
        timers := timers - {id};
      } else {
        timers := timers[id := entry];
      }
    }
  }

  /** `due` with `id` at its place; the ids already there are all smaller. */
  function InsertByDue(live: map<nat, Timer>, due: seq<nat>, id: nat): (longer: seq<nat>)
    requires id in live && Sorted(live, due) && forall d <- due :: d < id
    ensures Sorted(live, longer)
    ensures forall d :: d in longer <==> d in due || d == id
  {
    if due == [] then [id]
    else
      var last, shorter := due[|due| - 1], due[..|due| - 1];
      LastOf(live, due, id);
      if live[last].due <= live[id].due then
        AppendSorted(live, due, id);
        due + [id]
      else
        var inserted := InsertByDue(live, shorter, id);
        LastStays(live, due, id, inserted);
        inserted + [last]
  }

  lemma {:induction false} LastOf(live: map<nat, Timer>, due: seq<nat>, id: nat)
    requires due != [] && Sorted(live, due) && forall d <- due :: d < id
    ensures var last, shorter := due[|due| - 1], due[..|due| - 1];
            last in live && due == shorter + [last] && Sorted(live, shorter) && forall d <- shorter :: d < id && d in due
  {
    var last, shorter := due[|due| - 1], due[..|due| - 1];
    assert due == shorter + [last];
    forall d <- shorter ensures d in due && d < id {
      assert d in shorter + [last];
    }
  }

  lemma {:induction false} LastStays(live: map<nat, Timer>, due: seq<nat>, id: nat, inserted: seq<nat>)
    requires due != [] && Sorted(live, due) && id in live && live[id].due < live[due[|due| - 1]].due
    requires Sorted(live, inserted) && forall d :: d in inserted <==> d in due[..|due| - 1] || d == id
    ensures Sorted(live, inserted + [due[|due| - 1]])
    ensures forall d :: d in inserted + [due[|due| - 1]] <==> d in due || d == id
  {
    var last, shorter := due[|due| - 1], due[..|due| - 1];
    assert due == shorter + [last];
    forall i | 0 <= i < |inserted| ensures Before(live, inserted[i], last) {
      assert inserted[i] in inserted;
      if inserted[i] != id {
        var j :| 0 <= j < |shorter| && shorter[j] == inserted[i];
        assert due[j] == inserted[i];
      }
    }
  }

  lemma {:induction false} AppendSorted(live: map<nat, Timer>, due: seq<nat>, id: nat)
    requires due != [] && id in live && Sorted(live, due) && forall d <- due :: d < id
    requires live[due[|due| - 1]].due <= live[id].due
    ensures Sorted(live, due + [id])
  {
    forall i | 0 <= i < |due| ensures Before(live, due[i], id) {
      assert due[i] in due;
      if i < |due| - 1 { assert Before(live, due[i], due[|due| - 1]); }
    }
  }

  lemma {:induction false} VisibleStarted(timers: map<nat, Entry>, id: nat, t: Timer)
    requires id in timers && !timers[id].destroyed
    ensures Visible(timers[id := Entry(t, true, false)]) == Visible(timers)[id := t]
  {
  }

  lemma {:induction false} VisibleFinished(timers: map<nat, Entry>, id: nat, s: Timers)
    requires id in timers && s.live == Visible(timers)
    ensures var entry := timers[id].(running := false);
            Visible(if entry.destroyed || entry.timer.remaining == 0 then timers - {id} else timers[id := entry])
            == Finish(s, id).live
  {
  }

  /** One turn of a tick. */
  lemma {:induction false} Turn(s: Timers, now: int, due: seq<nat>, i: nat, tape: seq<Act>, runs: seq<nat>)
    requires i < |due|
    ensures After(runs, TickFrom(s, now, due[i..], tape))
            == if due[i] !in s.live then After(runs, TickFrom(s, now, due[i + 1..], tape))
               else var ran := RunOne(s, due[i], now, tape);
                    After(runs + [due[i]], TickFrom(ran.0, now, due[i + 1..], ran.1))
  {
    assert due[i..][1..] == due[i + 1..];
    if due[i] in s.live {
      var ran := RunOne(s, due[i], now, tape);
      var r := TickFrom(ran.0, now, due[i + 1..], ran.1);
      assert runs + ([due[i]] + r.runs) == runs + [due[i]] + r.runs;
    }
  }
}
