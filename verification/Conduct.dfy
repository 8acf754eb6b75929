/** How a search conducts itself, told from its records: what it asks for next is a function of the records
    alone, which is why a resumed search can go on from them; how long it holds; and why it stopped. */
module Conduct {
  import opened Plan
  import opened Search
  import opened Summary

  // ---------------------------------------------------------------- the next step, from the records

  function LastOf(past: seq<Record>): Record
    requires past != []
  {
    past[|past| - 1]
  }

  function ConfirmsIn(past: seq<Record>): nat
    decreases |past|
  {
    if past == [] then 0 else ConfirmsIn(past[..|past| - 1]) + if LastOf(past).kind == ConfirmStep then 1 else 0
  }

  /** Between the highest pass and the lowest failure; then the highest pass again, until it is confirmed. */
  function AfterRamp(p: Plan, past: seq<Record>): Option<(real, Kind)> {
    var passes, fails := RatesOf(past, Passed), RatesOf(past, Failed);
    if passes == [] || fails == [] then None
    else
      var lo, hi := Highest(passes), Lowest(fails);
      var mid := RoundRate((lo + hi) / 2.0);
      if hi - lo > p.width * (if lo >= 1.0 then lo else 1.0) && lo < mid < hi then Some((mid, RefineStep))
      else if p.repeats > 0 then Some((lo, ConfirmStep))
      else None
  }

  /** The rate and kind of the step that follows these records, if one does. */
  function NextAsk(p: Plan, past: seq<Record>): Option<(real, Kind)> {
    if past != [] && LastOf(past).outcome.verdict == Unsettled then None
    else
      match p.preset
      case Quick => NextListed(p, past, QuickStep)
      case Soak => NextListed(p, past, SoakStep)
      case Resilience => NextListed(p, past, ResilienceStep)
      case Capacity => NextSought(p, past)
  }

  /** The explicit rates one after the other, or the initial one. */
  function NextListed(p: Plan, past: seq<Record>, kind: Kind): Option<(real, Kind)> {
    if p.rates == [] then if past == [] then Some((p.initial, kind)) else None
    else if |past| < |p.rates| then Some((p.rates[|past|], kind))
    else None
  }

  /** A rate raised by the ramp factor, on the grid and under the ceiling. */
  function Raised(p: Plan, rate: real): real { Smaller(RoundRate(rate * p.rampFactor), MaxRate(p)) }

  /** Up the ramp from the initial rate until a failure or no headway; from then on as after a ramp. */
  function NextSought(p: Plan, past: seq<Record>): Option<(real, Kind)> {
    if past == [] then Some((Smaller(RoundRate(p.initial), MaxRate(p)), RampStep))
    else
      var last := LastOf(past);
      if last.kind == RampStep && last.outcome.verdict == Passed then
        if Raised(p, last.rate) > last.rate then Some((Raised(p, last.rate), RampStep)) else None
      else if last.kind == ConfirmStep then
        if last.outcome.verdict == Passed && ConfirmsIn(past) < p.repeats then Some((last.rate, ConfirmStep)) else None
      else AfterRamp(p, past)
  }

  /** Confirming and soaking steps are held longer than the others. */
  function HoldOf(p: Plan, kind: Kind): real {
    if kind == ConfirmStep || kind == SoakStep then p.candidateHold else p.measure
  }

  // ---------------------------------------------------------------- the machine follows it

  /** What the search knows agrees with its records, and it asks for what they call for. */
  predicate Follows(p: Plan, past: seq<Record>, t: Tally, c: Control)
    requires Proper(p, c)
  {
    && t.passes == RatesOf(past, Passed) && t.fails == RatesOf(past, Failed)
    && t.res.steps == |past|
    && (c.Ended? ==> NextAsk(p, past) == None)
    && (!c.Ended? ==> NextAsk(p, past) == Some((Ask(p, c).rate, Ask(p, c).kind)))
    && (c.Listing? ==> c.k == |past|)
    && (c.Confirming? ==> ConfirmsIn(past) == c.i && c.i < p.repeats)
    && (c.Ramping? || c.Refining? ==> ConfirmsIn(past) == 0)
    && (Fixed(p) ==> c.Listing? || c.Ended?) && (!Fixed(p) ==> !c.Listing?)
    && (c.Ramping? ==> t.fails == [])
  }

  lemma OneRecord(past: seq<Record>, r: Record)
    ensures RatesOf(past + [r], Passed) == if r.outcome.verdict == Passed then RatesOf(past, Passed) + [r.rate]
                                           else RatesOf(past, Passed)
    ensures RatesOf(past + [r], Failed) == if r.outcome.verdict == Failed then RatesOf(past, Failed) + [r.rate]
                                           else RatesOf(past, Failed)
    ensures ConfirmsIn(past + [r]) == ConfirmsIn(past) + if r.kind == ConfirmStep then 1 else 0
    ensures LastOf(past + [r]) == r
  {
    assert (past + [r])[..|past|] == past;
  }

  /** Replayed or executed, the step that goes on is recorded at the rate and of the kind that were asked. */
  lemma StepRecorded(p: Plan, w: World, m: Memory, t: Tally, q: Request)
    requires Step(p, w, m, t, q).go
    ensures
      var s := Step(p, w, m, t, q);
      && s.m.completed != [] && s.m.completed[..|s.m.completed| - 1] == m.completed
      && var r := LastOf(s.m.completed);
         r.rate == q.rate && r.kind == q.kind && r.outcome.verdict == s.verdict
  {
    hide MaxIndex, Enter;
  }

  /** The tally with one settled record more. */
  predicate OneMore(t: Tally, u: Tally, r: Record) {
    && r.outcome.verdict != Unsettled && u.res.steps == t.res.steps + 1
    && u.passes == (if r.outcome.verdict == Passed then t.passes + [r.rate] else t.passes)
    && u.fails == (if r.outcome.verdict == Failed then t.fails + [r.rate] else t.fails)
  }

  lemma ListFollows(p: Plan, past: seq<Record>, r: Record, t: Tally, u: Tally, c: Control)
    requires c.Listing? && Proper(p, c) && Follows(p, past, t, c) && OneMore(t, u, r)
    ensures var (u1, c1) := After(p, u, c, r.outcome.verdict); Follows(p, past + [r], u1, c1)
  {
    hide RatesOf, ConfirmsIn;
    OneRecord(past, r);
  }

  lemma RampFollows(p: Plan, past: seq<Record>, r: Record, t: Tally, u: Tally, c: Control)
    requires c.Ramping? && Follows(p, past, t, c) && OneMore(t, u, r)
    requires r.rate == c.rate && r.kind == RampStep
    ensures var (u1, c1) := After(p, u, c, r.outcome.verdict); Follows(p, past + [r], u1, c1)
  {
    hide RoundRate, MaxRate, NextRate, NextSought, RatesOf, ConfirmsIn, RefineOrConfirm, AfterRamp;
    OneRecord(past, r);
    if r.outcome.verdict == Passed {
      UpTheRamp(p, past + [r]);
    } else if u.passes == [] {
      FailedRamp(p, past + [r]);
      NothingAfter(p, past + [r]);
    } else {
      FailedRamp(p, past + [r]);
      RefiningFollows(p, past + [r], u);
    }
  }

  lemma NextRateIs(p: Plan, rate: real)
    ensures NextRate(p, rate) == Raised(p, rate)
  {
    hide RoundRate, MaxRate;
    var raised := rate * p.rampFactor;
    assert Grown(p, rate) == raised;
  }

  lemma UpTheRamp(p: Plan, past: seq<Record>)
    requires past != [] && LastOf(past).kind == RampStep && LastOf(past).outcome.verdict == Passed
    ensures
      var next := NextRate(p, LastOf(past).rate);
      NextSought(p, past) == if next > LastOf(past).rate then Some((next, RampStep)) else None
  {
    hide RoundRate, MaxRate, Raised, NextRate;
    NextRateIs(p, LastOf(past).rate);
  }

  lemma FailedRamp(p: Plan, past: seq<Record>)
    requires past != [] && LastOf(past).kind == RampStep && LastOf(past).outcome.verdict == Failed
    ensures NextSought(p, past) == AfterRamp(p, past)
  {
    hide AfterRamp;
  }

  lemma NothingAfter(p: Plan, past: seq<Record>)
    requires RatesOf(past, Passed) == []
    ensures AfterRamp(p, past) == None
  {
  }

  lemma RefiningFollows(p: Plan, past: seq<Record>, u: Tally)
    requires u.passes == RatesOf(past, Passed) != [] && u.fails == RatesOf(past, Failed) != []
    ensures
      var c := RefineOrConfirm(p, u);
      && AfterRamp(p, past) == (if c.Ended? then None else Some((Ask(p, c).rate, Ask(p, c).kind)))
      && (c.Refining? || (c.Confirming? && c.i == 0 < p.repeats) || c.Ended?)
  {
    hide RoundRate, Highest, Lowest, RatesOf;
  }

  lemma RefineFollows(p: Plan, past: seq<Record>, r: Record, t: Tally, u: Tally, c: Control)
    requires c.Refining? && Started(t, c) && Follows(p, past, t, c) && OneMore(t, u, r)
    requires r.rate == c.mid && r.kind == RefineStep
    ensures var (u1, c1) := After(p, u, c, r.outcome.verdict); Follows(p, past + [r], u1, c1)
  {
    hide RoundRate, MaxRate, RatesOf, ConfirmsIn, RefineOrConfirm, AfterRamp;
    OneRecord(past, r);
    RefiningFollows(p, past + [r], u);
  }

  lemma ConfirmFollows(p: Plan, past: seq<Record>, r: Record, t: Tally, u: Tally, c: Control)
    requires c.Confirming? && Follows(p, past, t, c) && OneMore(t, u, r)
    requires r.rate == c.candidate && r.kind == ConfirmStep
    ensures var (u1, c1) := After(p, u, c, r.outcome.verdict); Follows(p, past + [r], u1, c1)
  {
    hide RoundRate, MaxRate, RatesOf, ConfirmsIn, AfterRamp;
    OneRecord(past, r);
  }

  lemma FollowsOn(p: Plan, past: seq<Record>, r: Record, t: Tally, u: Tally, c: Control)
    requires Proper(p, c) && !c.Ended? && Started(t, c) && Follows(p, past, t, c) && OneMore(t, u, r)
    requires r.rate == Ask(p, c).rate && r.kind == Ask(p, c).kind
    ensures var (u1, c1) := After(p, u, c, r.outcome.verdict); Follows(p, past + [r], u1, c1)
  {
    hide Follows, After;
    match c
    case Listing(_) => ListFollows(p, past, r, t, u, c);
    case Ramping(_) => RampFollows(p, past, r, t, u, c);
    case Refining(_) => RefineFollows(p, past, r, t, u, c);
    case Confirming(_, _) => ConfirmFollows(p, past, r, t, u, c);
  }

  // ---------------------------------------------------------------- over a run

  /** Every record is of the step that the records before it call for. */
  predicate Conducted(p: Plan, past: seq<Record>) {
    forall k | 0 <= k < |past| :: NextAsk(p, past[..k]) == Some((past[k].rate, past[k].kind))
  }

  /** Every executed step is what the world answers to a request of its rate and kind, held as long as
      the kind says, at the number the step has in the search. */
  ghost predicate Executed(p: Plan, w: World, m: Memory, steps: nat) {
    && |m.executed| <= steps && (m.replay != [] ==> m.executed == [])
    && forall i | 0 <= i < |m.executed| ::
         var r := m.executed[i];
         r.outcome == w.outcome(steps - |m.executed| + i, Request(r.rate, r.kind, HoldOf(p, r.kind)))
  }

  predicate Unbroken(v: seq<Record>) { forall k | 0 <= k < |v| :: !v[k].outcome.broken }

  /** Why the search stopped: because it was told to, because the next step was beyond the budget, because
      the last step did not settle, because the ramp met a ceiling, because the controller failed; or
      because it had nothing more to ask. */
  ghost predicate StoppedFor(p: Plan, w: World, f: Final) {
    var past, reason := f.m.completed, f.t.res.stopReason;
    match f.how
    case Broken => reason == INFRASTRUCTURE && f.m.executed != [] && LastOf(f.m.executed).outcome.broken
    case Capped => reason == if MaxRate(p) < p.budget then POLICY else BUDGET
    case Stopped =>
      if past != [] && LastOf(past).outcome.verdict == Unsettled then
        reason == if LastOf(past).outcome.cancelled then CANCEL else LastOf(past).outcome.reason
      else if w.stopped(|past|) then reason == CANCEL
      else
        && reason == BUDGET && NextAsk(p, past).Some?
        && (|past| >= p.maxSteps || !w.affordable(|past|, HoldOf(p, NextAsk(p, past).value.1)))
    case _ => reason == "" && NextAsk(p, past) == None
  }

  lemma HoldIsAsked(p: Plan, c: Control)
    requires Proper(p, c) && !c.Ended? && (Fixed(p) <==> c.Listing?)
    ensures Ask(p, c).hold == HoldOf(p, Ask(p, c).kind)
  {
  }

  lemma StepGoes(p: Plan, w: World, m: Memory, t: Tally, q: Request)
    requires Unbroken(m.replay) && Executed(p, w, m, t.res.steps) && q.hold == HoldOf(p, q.kind)
    ensures
      var s := Step(p, w, m, t, q);
      && Unbroken(s.m.replay) && Executed(p, w, s.m, s.t.res.steps)
      && (s.go ==>
            && s.m.completed != [] && s.m.completed[..|s.m.completed| - 1] == m.completed
            && OneMore(t, s.t, LastOf(s.m.completed)) && s.t.res.stopReason == t.res.stopReason
            && LastOf(s.m.completed).rate == q.rate && LastOf(s.m.completed).kind == q.kind
            && LastOf(s.m.completed).outcome.verdict == s.verdict)
  {
    hide MaxIndex;
  }

  /** A step that does not go on, and why. */
  lemma StepHalts(p: Plan, w: World, m: Memory, t: Tally, q: Request)
    requires Unbroken(m.replay) && !Step(p, w, m, t, q).go
    ensures
      var s := Step(p, w, m, t, q);
      var n, reason := t.res.steps, s.t.res.stopReason;
      if s.error then
        s.m.completed == m.completed && reason == INFRASTRUCTURE
        && s.m.executed != [] && LastOf(s.m.executed).outcome.broken
      else if s.m.completed == m.completed then
        if w.stopped(n) then reason == CANCEL else reason == BUDGET && (n >= p.maxSteps || !w.affordable(n, q.hold))
      else
        && s.m.completed != [] && s.m.completed[..|s.m.completed| - 1] == m.completed
        && var r := LastOf(s.m.completed);
           r.rate == q.rate && r.kind == q.kind && r.outcome.verdict == Unsettled
           && reason == if r.outcome.cancelled then CANCEL else r.outcome.reason
  {
    hide MaxIndex;
  }

  lemma StepStops(p: Plan, w: World, m: Memory, t: Tally, c: Control)
    requires Proper(p, c) && !c.Ended? && Started(t, c) && Follows(p, m.completed, t, c) && Conducted(p, m.completed)
    requires Unbroken(m.replay)
    requires m.completed != [] ==> LastOf(m.completed).outcome.verdict != Unsettled
    requires !Step(p, w, m, t, Ask(p, c)).go
    ensures
      var s := Step(p, w, m, t, Ask(p, c));
      && Conducted(p, s.m.completed)
      && StoppedFor(p, w, Final(s.m, s.t, if s.error then Broken else Stopped))
  {
    hide Step, NextAsk, Ask, RatesOf, ConfirmsIn, Conducted;
    FollowsHold(p, m.completed, t, c);
    StepHalts(p, w, m, t, Ask(p, c));
    var s := Step(p, w, m, t, Ask(p, c));
    if s.m.completed != m.completed && !s.error {
      var r := LastOf(s.m.completed);
      assert s.m.completed == m.completed + [r];
      RecordConducts(p, m.completed, r, t, c);
    }
  }

  lemma {:induction false} DriveConducts(p: Plan, w: World, m: Memory, t: Tally, c: Control)
    requires Proper(p, c) && Started(t, c) && Follows(p, m.completed, t, c) && Conducted(p, m.completed)
    requires Unbroken(m.replay) && Executed(p, w, m, t.res.steps)
    requires c.Ended? ==> StoppedFor(p, w, Final(m, t, c.how))
    requires !c.Ended? ==> t.res.stopReason == ""
    requires !c.Ended? && m.completed != [] ==> LastOf(m.completed).outcome.verdict != Unsettled
    ensures
      var f := Drive(p, w, m, t, c);
      Conducted(p, f.m.completed) && Executed(p, w, f.m, f.t.res.steps) && StoppedFor(p, w, f)
    decreases p.maxSteps - t.res.steps
  {
    hide Ask, After, Step, Follows, Conducted, Executed, StoppedFor;
    if !c.Ended? {
      var q := Ask(p, c);
      var s := Step(p, w, m, t, q);
      FollowsHold(p, m.completed, t, c);
      StepGoes(p, w, m, t, q);
      if s.go {
        var r := LastOf(s.m.completed);
        assert s.m.completed == m.completed + [r];
        FollowsOn(p, m.completed, r, t, s.t, c);
        RecordConducts(p, m.completed, r, t, c);
        var (t1, c1) := After(p, s.t, c, s.verdict);
        EndsFor(p, w, s.m, t, s.t, r, c);
        DriveConducts(p, w, s.m, t1, c1);
      } else {
        StepStops(p, w, m, t, c);
      }
    }
  }

  lemma FollowsHold(p: Plan, past: seq<Record>, t: Tally, c: Control)
    requires Proper(p, c) && !c.Ended? && Follows(p, past, t, c)
    ensures Ask(p, c).hold == HoldOf(p, Ask(p, c).kind)
  {
    HoldIsAsked(p, c);
  }

  lemma RecordConducts(p: Plan, past: seq<Record>, r: Record, t: Tally, c: Control)
    requires Proper(p, c) && !c.Ended? && Follows(p, past, t, c) && Conducted(p, past)
    requires r.rate == Ask(p, c).rate && r.kind == Ask(p, c).kind
    ensures Conducted(p, past + [r])
  {
    hide NextAsk, Ask, RatesOf, ConfirmsIn;
    assert (past + [r])[..|past|] == past;
    assert forall k | 0 <= k < |past| :: (past + [r])[..k] == past[..k];
  }

  /** The reason when the search ends by itself. */
  lemma EndsFor(p: Plan, w: World, m: Memory, t: Tally, u: Tally, r: Record, c: Control)
    requires Proper(p, c) && !c.Ended? && Started(t, c) && r.outcome.verdict != Unsettled
    requires OneMore(t, u, r) && u.res.stopReason == "" && m.completed != [] && LastOf(m.completed) == r
    requires var (u1, c1) := After(p, u, c, r.outcome.verdict); Follows(p, m.completed, u1, c1)
    ensures
      var (u1, c1) := After(p, u, c, r.outcome.verdict);
      if c1.Ended? then StoppedFor(p, w, Final(m, u1, c1.how)) else u1.res.stopReason == ""
  {
    hide NextAsk, RatesOf, ConfirmsIn, RoundRate, MaxRate, Settled;
  }

  /** Every search, of any preset and resumed or not, asks in turn for exactly what its records call for and
      ends when they call for nothing more; every executed step is held as long as its kind says; and the
      stop reason is why it stopped. */
  lemma EverySearchFollowsItsRecords(p: Plan, w: World, replay: seq<Record>)
    requires Unbroken(replay)
    ensures
      var f := Finish(p, w, Memory(replay, 0, [], []));
      Conducted(p, f.m.completed) && Executed(p, w, f.m, f.t.res.steps) && StoppedFor(p, w, f)
  {
    var m := Memory(replay, 0, [], []);
    hide Drive, MaxRate, RoundRate;
    DriveConducts(p, w, m, Empty(p), Begin(p));
  }

  // ---------------------------------------------------------------- the fixed presets

  lemma {:induction false} ClaimsLast(p: Plan, w: World, m: Memory, t: Tally, c: Control)
    requires Proper(p, c) && Started(t, c) && (c.Listing? || c.Ended?)
    ensures
      var f := Drive(p, w, m, t, c);
      SameClaims(f.t, t) && f.t.res.unstable == t.res.unstable
    decreases p.maxSteps - t.res.steps
  {
    hide Step;
    if !c.Ended? {
      var s := Step(p, w, m, t, Ask(p, c));
      if s.go {
        var (t1, c1) := After(p, s.t, c, s.verdict);
        ClaimsLast(p, w, s.m, t1, c1);
      }
    }
  }

  /** The presets with fixed rates report the highest rate that passed and the lowest that failed, whatever
      lies between them, under the name of the preset; they never recommend. */
  lemma FixedPresetsReport(p: Plan, w: World, m: Memory)
    requires !p.preset.Capacity?
    ensures
      var t, r := Finish(p, w, m).t, Result(p, w, m);
      && r.class_ == (match p.preset case Quick => Regression case Soak => Soaked case _ => Resilient)
      && r.lower == (if t.passes == [] then None else Some(Highest(t.passes)))
      && r.upper == (if t.fails == [] then None else Some(Lowest(t.fails)))
      && r.recommended.None? && r.width.None? && !r.unstable
      && (r.nonMonotonic <==> exists x, y :: x in t.passes && y in t.fails && x > y)
  {
    ClaimsLast(p, w, m, Empty(p), Begin(p));
    hide Drive;
    var t := Finish(p, w, m).t;
    if x, y :| x in t.passes && y in t.fails && x > y {
      var i :| 0 <= i < |t.passes| && t.passes[i] == x;
      var j :| 0 <= j < |t.fails| && t.fails[j] == y;
      assert t.passes[i] > t.fails[j];
    }
  }
}
