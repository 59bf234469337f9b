/**
  Timers as the documentation describes them: destroying a timer removes it at once, and a
  tick runs the timers that were due when it began.  Times are milliseconds on a clock that
  never goes back; Lua callbacks are read off a tape, as on the event bus.
 */
module SimpleTimers {
  import opened Wrappers

  const FOREVER := -1
  const MAX_INTERVAL := 0x100_0000_0000   // 2^40

  datatype Act =
    | Create(interval: int, repeats: int)   // Timer.create
    | Destroy(id: nat)                      // Timer.destroy
    | Wait(ms: nat)                         // time passes
    | Return                                // the callback returns or raises an error

  /**
    `repeats`, `born`, `runs` and `late` are history: how many runs were asked for, when the timer
    was created, how often it has run, and whether a run ever came a full interval late.
   */
  datatype Timer = Timer(interval: int, remaining: int, due: int, repeats: int, born: int, runs: nat, late: bool)

  /** `finished` and `destroyed` are history: the timers that ended by themselves, and those that were destroyed. */
  datatype Timers = Timers(live: map<nat, Timer>, nextId: nat, clock: int,
                           finished: map<nat, Timer>, destroyed: set<nat>)

  predicate Accepts(interval: int, repeats: int) {
    0 <= interval <= MAX_INTERVAL && (repeats == FOREVER || repeats > 0)
  }

  function NewTimer(interval: int, repeats: int, now: int): Timer {
    Timer(interval, repeats, now + interval, repeats, now, 0, false)
  }

  /** One run at time `now`: fixed rate, but a timer that fell behind starts over from `now`. */
  function Advance(t: Timer, now: int): Timer {
    t.(remaining := if t.remaining > 0 then t.remaining - 1 else t.remaining,
       due := if t.due + t.interval <= now then now + t.interval else t.due + t.interval,
       runs := t.runs + 1,
       late := t.late || t.due + t.interval <= now)
  }

  function Apply(s: Timers, act: Act): Timers {
    match act
    case Create(interval, repeats) =>
      if Accepts(interval, repeats)
      then s.(live := s.live[s.nextId := NewTimer(interval, repeats, s.clock)], nextId := s.nextId + 1)
      else s
    case Destroy(id) => if id in s.live then s.(live := s.live - {id}, destroyed := s.destroyed + {id}) else s
    case Wait(ms) => s.(clock := s.clock + ms)
    case Return => s
  }

  /** A callback: the actions of the tape up to its return. */
  function RunLua(s: Timers, tape: seq<Act>): (r: (Timers, seq<Act>))
    ensures |r.1| <= |tape|
    decreases |tape|
  {
    if tape == [] then (s, [])
    else if tape[0].Return? then (s, tape[1..])
    else RunLua(Apply(s, tape[0]), tape[1..])
  }

  datatype Ticked = Ticked(timers: Timers, tape: seq<Act>, runs: seq<nat>)

  /** What is left of a timer after its callback: nothing, if that was its last run. */
  function Finish(s: Timers, id: nat): Timers {
    if id in s.live && s.live[id].remaining == 0
    then s.(live := s.live - {id}, finished := s.finished[id := s.live[id]])
    else s
  }

  /** One run of one timer. */
  function RunOne(s: Timers, id: nat, now: int, tape: seq<Act>): (r: (Timers, seq<Act>))
    requires id in s.live
    ensures |r.1| <= |tape|
  {
    var ran := RunLua(s.(live := s.live[id := Advance(s.live[id], now)]), tape);
    (Finish(ran.0, id), ran.1)
  }

  function TickFrom(s: Timers, now: int, due: seq<nat>, tape: seq<Act>): (r: Ticked)
    ensures |r.tape| <= |tape|
    decreases |due|
  {
    if due == [] then Ticked(s, tape, [])
    else if due[0] !in s.live then TickFrom(s, now, due[1..], tape)
    else
      var ran := RunOne(s, due[0], now, tape);
      var r := TickFrom(ran.0, now, due[1..], ran.1);
      r.(runs := [due[0]] + r.runs)
  }

  // ---------------------------------------------------------------- the order of a tick

  /** Earliest first; ids, which are in creation order, break ties. */
  predicate Before(live: map<nat, Timer>, a: nat, b: nat)
    requires a in live && b in live
  {
    live[a].due < live[b].due || (live[a].due == live[b].due && a < b)
  }

  predicate Sorted(live: map<nat, Timer>, due: seq<nat>) {
    && (forall i :: 0 <= i < |due| ==> due[i] in live)
    && (forall i, j :: 0 <= i < j < |due| ==> Before(live, due[i], due[j]))
  }

  /** `due` lists the timers due at `now`, each once, in that order. */
  predicate IsDueList(live: map<nat, Timer>, now: int, due: seq<nat>) {
    && Sorted(live, due)
    && (forall id <- due :: id in live && live[id].due <= now)
    && (forall id <- live :: live[id].due <= now ==> id in due)
  }

  /** There is only one such list, so a tick is a function of the timers and the callbacks. */
  lemma {:induction false} DueListUnique(live: map<nat, Timer>, now: int, a: seq<nat>, b: seq<nat>, k: nat)
    requires IsDueList(live, now, a) && IsDueList(live, now, b)
    requires k <= |a| && k <= |b| && a[..k] == b[..k]
    ensures a == b
    decreases |a| - k
  {
    assert forall i :: 0 <= i < k ==> a[i] == a[..k][i] && b[i] == b[..k][i];
    assert (k < |a| ==> a[k] in b) && (k < |b| ==> b[k] in a);
    if k < |a| && k < |b| {
      assert a[k] == b[k];
      assert a[..k + 1] == b[..k + 1];
      DueListUnique(live, now, a, b, k + 1);
    }
  }

  // ---------------------------------------------------------------- what a tick means

  /** Ids are given out once: a timer that is gone stays gone, and time goes on. */
  predicate Follows(s: Timers, t: Timers) {
    && s.nextId <= t.nextId && s.clock <= t.clock && s.destroyed <= t.destroyed
    && (forall id <- t.live :: id < s.nextId ==> id in s.live)
    && (forall id <- s.finished :: id in t.finished && t.finished[id] == s.finished[id])
  }

  /** Callbacks change no timer other than by removing it. */
  predicate Untouched(s: Timers, t: Timers) {
    t.finished == s.finished && forall id <- t.live :: id < s.nextId ==> id in s.live && t.live[id] == s.live[id]
  }

  /** A timer of every id given out exists, has ended by itself or was destroyed, and only one of these. */
  predicate Known(s: Timers) {
    && 1 <= s.nextId && (forall id: nat :: 1 <= id < s.nextId ==> id in s.live || id in s.finished || id in s.destroyed)
    && (forall id <- s.live :: 1 <= id < s.nextId && id !in s.finished && id !in s.destroyed)
    && (forall id <- s.finished :: id < s.nextId && id !in s.destroyed)
    && (forall id <- s.destroyed :: id < s.nextId)
  }

  lemma {:induction false} RunLuaFollows(s: Timers, tape: seq<Act>)
    requires Known(s)
    ensures Known(RunLua(s, tape).0) && Follows(s, RunLua(s, tape).0) && Untouched(s, RunLua(s, tape).0)
    decreases |tape|
  {
    if tape != [] && !tape[0].Return? {
      RunLuaFollows(Apply(s, tape[0]), tape[1..]);
    }
  }

  lemma {:induction false} RunOneFollows(s: Timers, id: nat, now: int, tape: seq<Act>)
    requires Known(s) && id in s.live
    ensures var later := RunOne(s, id, now, tape).0;
            && Known(later) && Follows(s, later)
            && forall k <- later.live :: k != id && k < s.nextId ==> k in s.live && later.live[k] == s.live[k]
  {
    RunLuaFollows(s.(live := s.live[id := Advance(s.live[id], now)]), tape);
  }

  /** `runs` are some of `due`, in the order of `due`. */
  predicate Subsequence(runs: seq<nat>, due: seq<nat>)
    decreases |due|
  {
    runs == [] || (due != [] && (Subsequence(runs, due[1..]) || (runs[0] == due[0] && Subsequence(runs[1..], due[1..]))))
  }

  /**
    Whatever the callbacks do, a tick runs timers of its due list in that order, and a timer of
    the list that it does not run no longer exists.  A timer created meanwhile has a new id, so
    it is not in the list.
   */
  lemma {:induction false} TickMeaning(s: Timers, now: int, due: seq<nat>, tape: seq<Act>)
    requires Known(s) && (forall id <- due :: id < s.nextId)
    ensures var r := TickFrom(s, now, due, tape);
            && Known(r.timers) && Follows(s, r.timers)
            && Subsequence(r.runs, due)
            && (forall id <- r.runs :: id in due && id in s.live)
            && (forall id <- due :: id in r.runs || id !in r.timers.live)
    decreases |due|
  {
    var r := TickFrom(s, now, due, tape);
    if due != [] {
      var tail := due[1..];
      assert forall id <- tail :: id in due;
      assert forall id <- due :: id == due[0] || id in tail;
      if due[0] !in s.live {
        TickMeaning(s, now, tail, tape);
      } else {
        RunOneFollows(s, due[0], now, tape);
        var ran := RunOne(s, due[0], now, tape);
        TickMeaning(ran.0, now, tail, ran.1);
        assert r.runs[1..] == TickFrom(ran.0, now, tail, ran.1).runs;
        assert r.runs[0] == due[0];
      }
    }
  }

  lemma {:induction false} TickConcat(s: Timers, now: int, a: seq<nat>, c: seq<nat>, tape: seq<Act>)
    ensures var r := TickFrom(s, now, a, tape);
            var more := TickFrom(r.timers, now, c, r.tape);
            TickFrom(s, now, a + c, tape) == more.(runs := r.runs + more.runs)
    decreases |a|
  {
    if a == [] {
      assert a + c == c;
      assert [] + TickFrom(s, now, c, tape).runs == TickFrom(s, now, c, tape).runs;
    } else {
      assert (a + c)[1..] == a[1..] + c;
      if a[0] !in s.live {
        TickConcat(s, now, a[1..], c, tape);
      } else {
        var ran := RunOne(s, a[0], now, tape);
        TickConcat(ran.0, now, a[1..], c, ran.1);
        var r := TickFrom(ran.0, now, a[1..], ran.1);
        var more := TickFrom(r.timers, now, c, r.tape);
        assert [a[0]] + (r.runs + more.runs) == [a[0]] + r.runs + more.runs;
      }
    }
  }

  /** When exactly a due timer runs: if and only if it still exists at its turn. */
  lemma {:induction false} RunsAtItsTurn(s: Timers, now: int, before: seq<nat>, id: nat, rest: seq<nat>, tape: seq<Act>)
    requires Known(s) && (forall k <- before + [id] + rest :: k < s.nextId)
    requires id !in before && id !in rest
    ensures id in TickFrom(s, now, before + [id] + rest, tape).runs
            <==> id in TickFrom(s, now, before, tape).timers.live
  {
    var due := before + [id] + rest;
    assert forall k <- before :: k in due;
    assert forall k <- rest :: k in due;
    assert id in due && due == before + ([id] + rest);
    TickConcat(s, now, before, [id] + rest, tape);
    TickMeaning(s, now, before, tape);
    var r := TickFrom(s, now, before, tape);
    assert ([id] + rest)[1..] == rest;
    if id !in r.timers.live {
      TickMeaning(r.timers, now, rest, r.tape);
    }
  }

  // ---------------------------------------------------------------- the rate of a timer

  /**
    The schedule of a timer, at any time of its life: it has run at most once per full interval
    since it was created; its next run is due no sooner than its next full interval, exactly
    then while it was never a full interval late, and at most one interval from now.
   */
  predicate OnSchedule(t: Timer, clock: int) {
    && 0 <= t.interval <= MAX_INTERVAL && Counted(t)
    && t.born + t.runs * t.interval <= clock
    && t.born + (t.runs + 1) * t.interval <= t.due <= clock + t.interval
    && (!t.late ==> t.due == t.born + (t.runs + 1) * t.interval)
  }

  /** A timer that does not repeat for ever has left what was asked for, less the runs it has had. */
  predicate Counted(t: Timer) {
    if t.repeats == FOREVER then t.remaining == FOREVER else t.repeats > 0 && 0 <= t.remaining == t.repeats - t.runs
  }

  predicate AllOnSchedule(s: Timers) {
    forall id <- s.live :: OnSchedule(s.live[id], s.clock)
  }

  /** The timer has a run to come. */
  predicate Pending(t: Timer) {
    t.repeats == FOREVER || t.runs < t.repeats
  }

  /** The timers that exist have runs to come, unless it is the one that runs now. */
  predicate AllPending(s: Timers, running: set<nat>) {
    forall id <- s.live :: id in running || Pending(s.live[id])
  }

  /** A timer that has ended by itself has run exactly as often as was asked for. */
  predicate AllDone(s: Timers) {
    forall id <- s.finished :: s.finished[id].repeats != FOREVER && s.finished[id].runs == s.finished[id].repeats
  }

  /** What holds of the timers outside the callbacks. */
  predicate Proper(s: Timers) {
    Known(s) && AllOnSchedule(s) && AllPending(s, {}) && AllDone(s)
  }

  lemma AdvanceOnSchedule(t: Timer, now: int, clock: int)
    requires OnSchedule(t, clock) && Pending(t) && t.due <= now <= clock
    ensures OnSchedule(Advance(t, now), clock)
    ensures t.interval > 0 ==> now < Advance(t, now).due <= now + t.interval
    ensures now < t.due + t.interval ==> Advance(t, now).due == t.due + t.interval && Advance(t, now).late == t.late
    ensures now >= t.due + t.interval ==> Advance(t, now).due == now + t.interval
  {
    assert (t.runs + 2) * t.interval == (t.runs + 1) * t.interval + t.interval;
  }

  lemma {:induction false} RunLuaOnSchedule(s: Timers, running: set<nat>, tape: seq<Act>)
    requires AllOnSchedule(s) && AllPending(s, running) && AllDone(s)
    ensures var t := RunLua(s, tape).0; AllOnSchedule(t) && AllPending(t, running) && AllDone(t) && s.clock <= t.clock
    decreases |tape|
  {
    if tape != [] && !tape[0].Return? {
      assert AllOnSchedule(Apply(s, tape[0]));
      RunLuaOnSchedule(Apply(s, tape[0]), running, tape[1..]);
    }
  }

  /** One run of a timer that has one to come. */
  lemma {:induction false} RunOneOnSchedule(s: Timers, id: nat, now: int, tape: seq<Act>)
    requires Proper(s) && id in s.live && s.live[id].due <= now <= s.clock
    ensures Proper(RunOne(s, id, now, tape).0)
  {
    var started := s.(live := s.live[id := Advance(s.live[id], now)]);
    AdvanceOnSchedule(s.live[id], now, s.clock);
    RunOneFollows(s, id, now, tape);
    RunLuaOnSchedule(started, {id}, tape);
    RunLuaFollows(started, tape);
  }

  /**
    Every timer keeps its schedule and its count through every tick, whatever the callbacks do:
    it exists as long as it has runs to come, and if nobody destroys it, it ends with exactly as
    many as were asked for.
   */
  lemma {:induction false} TickOnSchedule(s: Timers, now: int, due: seq<nat>, tape: seq<Act>)
    requires Proper(s) && now <= s.clock
    requires forall i, j :: 0 <= i < j < |due| ==> due[i] != due[j]
    requires forall id <- due :: id < s.nextId && (id in s.live ==> s.live[id].due <= now)
    ensures Proper(TickFrom(s, now, due, tape).timers)
    decreases |due|
  {
    if due != [] {
      var tail := due[1..];
      assert forall id <- tail :: id in due && id != due[0];
      assert forall i, j :: 0 <= i < j < |tail| ==> tail[i] == due[i + 1] && tail[j] == due[j + 1];
      if due[0] !in s.live {
        TickOnSchedule(s, now, tail, tape);
      } else {
        RunOneOnSchedule(s, due[0], now, tape);
        RunOneFollows(s, due[0], now, tape);
        var ran := RunOne(s, due[0], now, tape);
        TickOnSchedule(ran.0, now, tail, ran.1);
      }
    }
  }

  /** What becomes of a timer: it exists still, or this is how it ended. */
  predicate Became(t: Timers, id: nat, was: Timer, runs: nat) {
    var now := if id in t.live then Some(t.live[id]) else if id in t.finished then Some(t.finished[id]) else None;
    now.None? || (now.value.runs == was.runs + runs
                  && now.value.interval == was.interval && now.value.repeats == was.repeats && now.value.born == was.born)
  }

  /** A tick counts one run for each timer it runs and none for any other. */
  lemma {:induction false} TickCounts(s: Timers, now: int, due: seq<nat>, tape: seq<Act>, id: nat)
    requires Known(s) && (forall k <- due :: k < s.nextId) && id in s.live
    requires forall i, j :: 0 <= i < j < |due| ==> due[i] != due[j]
    ensures var r := TickFrom(s, now, due, tape); Became(r.timers, id, s.live[id], if id in r.runs then 1 else 0)
    decreases |due|, 0
  {
    if due != [] {
      var tail := due[1..];
      assert due == [due[0]] + tail && forall k <- tail :: k in due;
      assert forall i, j :: 0 <= i < j < |tail| ==> tail[i] == due[i + 1] && tail[j] == due[j + 1];
      if due[0] !in s.live {
        TickCounts(s, now, tail, tape, id);
      } else {
        var ran := RunOne(s, due[0], now, tape);
        RunOneFollows(s, due[0], now, tape);
        RunOneCounts(s, due[0], now, tape, id);
        RestCounts(ran.0, now, tail, ran.1, id);
        TickRuns(s, now, due, tape, id);
      }
    }
  }

  /** Of a timer that no longer exists nothing changes. */
  lemma {:induction false} RestCounts(s: Timers, now: int, due: seq<nat>, tape: seq<Act>, id: nat)
    requires Known(s) && (forall k <- due :: k < s.nextId) && 1 <= id < s.nextId
    requires forall i, j :: 0 <= i < j < |due| ==> due[i] != due[j]
    ensures id in TickFrom(s, now, due, tape).runs ==> id in due
    ensures var r := TickFrom(s, now, due, tape);
            if id in s.live then Became(r.timers, id, s.live[id], if id in r.runs then 1 else 0)
            else if id in s.finished then Became(r.timers, id, s.finished[id], 0) && id !in r.runs
            else id !in r.timers.live && id !in r.timers.finished && id !in r.runs
    decreases |due|, 1
  {
    TickMeaning(s, now, due, tape);
    if id in s.live { TickCounts(s, now, due, tape, id); }
  }

  lemma {:induction false} TickRuns(s: Timers, now: int, due: seq<nat>, tape: seq<Act>, id: nat)
    requires due != [] && due[0] in s.live && due[0] !in due[1..]
    ensures var ran := RunOne(s, due[0], now, tape);
            id in TickFrom(s, now, due, tape).runs <==> id == due[0] || id in TickFrom(ran.0, now, due[1..], ran.1).runs
  {
    var ran := RunOne(s, due[0], now, tape);
    var runs := TickFrom(ran.0, now, due[1..], ran.1).runs;
    assert ([due[0]] + runs)[0] == due[0] && (id in [due[0]] + runs <==> id == due[0] || id in runs);
  }

  lemma {:induction false} RunOneCounts(s: Timers, ran: nat, now: int, tape: seq<Act>, id: nat)
    requires Known(s) && ran in s.live && id in s.live
    ensures Became(RunOne(s, ran, now, tape).0, id, s.live[id], if id == ran then 1 else 0)
  {
    RunLuaFollows(s.(live := s.live[ran := Advance(s.live[ran], now)]), tape);
  }

  // ---------------------------------------------------------------- callbacks, on the tape alone

  function Applied(s: Timers, acts: seq<Act>): Timers
    decreases |acts|
  {
    if acts == [] then s else Applied(Apply(s, acts[0]), acts[1..])
  }

  /** A callback does its actions, up to its return. */
  lemma {:induction false} CallbackRuns(s: Timers, acts: seq<Act>, rest: seq<Act>)
    requires Return !in acts
    ensures RunLua(s, acts + ([Return] + rest)) == (Applied(s, acts), rest)
    decreases |acts|
  {
    var tape := acts + ([Return] + rest);
    if acts == [] {
      assert tape == [Return] + rest && tape[1..] == rest;
    } else {
      assert acts[0] in acts && tape[0] == acts[0] && tape[1..] == acts[1..] + ([Return] + rest);
      CallbackRuns(Apply(s, acts[0]), acts[1..], rest);
    }
  }

  /** Afterwards an older timer exists exactly if it did before and none of the actions destroyed it. */
  lemma {:induction false} CallbackLeaves(s: Timers, acts: seq<Act>, id: nat)
    requires Known(s) && id < s.nextId
    ensures id in Applied(s, acts).live <==> id in s.live && Destroy(id) !in acts
    decreases |acts|
  {
    if acts != [] {
      assert acts == [acts[0]] + acts[1..];
      RunLuaFollows(s, [acts[0]]);
      CallbackLeaves(Apply(s, acts[0]), acts[1..], id);
    }
  }

  function Waited(acts: seq<Act>): nat {
    if acts == [] then 0 else (if acts[0].Wait? then acts[0].ms else 0) + Waited(acts[1..])
  }

  function NewTimers(acts: seq<Act>): nat {
    if acts == [] then 0
    else (if acts[0].Create? && Accepts(acts[0].interval, acts[0].repeats) then 1 else 0) + NewTimers(acts[1..])
  }

  lemma {:induction false} CallbackCounts(s: Timers, acts: seq<Act>)
    ensures Applied(s, acts).clock == s.clock + Waited(acts) && Applied(s, acts).nextId == s.nextId + NewTimers(acts)
    decreases |acts|
  {
    if acts != [] { CallbackCounts(Apply(s, acts[0]), acts[1..]); }
  }

  /** The tape of these callbacks. */
  function Written(bodies: seq<seq<Act>>): seq<Act> {
    if bodies == [] then [] else bodies[0] + ([Return] + Written(bodies[1..]))
  }

  function Flat(bodies: seq<seq<Act>>): seq<Act> {
    if bodies == [] then [] else bodies[0] + Flat(bodies[1..])
  }

  /**
    A tick whose callbacks destroy nothing runs the callback of every timer that is due, in order
    and each with its own part of the tape, and all they do is done.
   */
  lemma {:induction false} WholeTick(s: Timers, now: int, due: seq<nat>, bodies: seq<seq<Act>>, rest: seq<Act>)
    requires Known(s) && (forall id <- due :: id in s.live) && |bodies| == |due|
    requires forall i, j :: 0 <= i < j < |due| ==> due[i] != due[j]
    requires forall i :: 0 <= i < |bodies| ==> forall a <- bodies[i] :: !a.Return? && !a.Destroy?
    ensures var r := TickFrom(s, now, due, Written(bodies) + rest);
            && r.runs == due && r.tape == rest
            && r.timers.clock == s.clock + Waited(Flat(bodies)) && r.timers.nextId == s.nextId + NewTimers(Flat(bodies))
    decreases |due|
  {
    if due == [] {
      assert Written(bodies) + rest == rest;
    } else {
      var acts, more := bodies[0], Written(bodies[1..]) + rest;
      var started := s.(live := s.live[due[0] := Advance(s.live[due[0]], now)]);
      assert Written(bodies) + rest == acts + ([Return] + more);
      CallbackRuns(started, acts, more);
      CallbackCounts(started, acts);
      var ran := RunOne(s, due[0], now, acts + ([Return] + more));
      RunOneFollows(s, due[0], now, acts + ([Return] + more));
      var tail := due[1..];
      assert forall i, j :: 0 <= i < j < |tail| ==> tail[i] == due[i + 1] && tail[j] == due[j + 1];
      forall id <- tail ensures id in ran.0.live {
        assert id in due && id != due[0];
        CallbackLeaves(started, acts, id);
      }
      WholeTick(ran.0, now, tail, bodies[1..], rest);
      FlatCounts(acts, bodies[1..]);
      assert [due[0]] + tail == due;
    }
  }

  lemma {:induction false} FlatCounts(acts: seq<Act>, bodies: seq<seq<Act>>)
    ensures Waited(acts + Flat(bodies)) == Waited(acts) + Waited(Flat(bodies))
    ensures NewTimers(acts + Flat(bodies)) == NewTimers(acts) + NewTimers(Flat(bodies))
    decreases |acts|
  {
    if acts == [] {
      assert acts + Flat(bodies) == Flat(bodies);
    } else {
      assert (acts + Flat(bodies))[1..] == acts[1..] + Flat(bodies);
      FlatCounts(acts[1..], bodies);
    }
  }

  lemma NonNegative(a: nat, b: nat)
    ensures a * b >= 0
  {
  }

  /** With clock values up to 2^62 no sum the scheduler computes leaves the 64-bit range. */
  lemma SumsFit(t: Timer, now: int, clock: int, interval: int)
    requires OnSchedule(t, clock) && 0 <= now <= clock <= 0x4000_0000_0000_0000 && t.born >= 0
    requires 0 <= interval <= MAX_INTERVAL
    ensures 0 <= t.due + t.interval < 0x8000_0000_0000_0000
    ensures 0 <= now + t.interval < 0x8000_0000_0000_0000
    ensures 0 <= clock + interval < 0x8000_0000_0000_0000
  {
    assert t.due >= 0 by { NonNegative(t.runs + 1, t.interval); }
  }
}
