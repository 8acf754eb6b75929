/** How the capacity search closes in: the gap halves with every refine step, a platform with a
    sharp limit is bracketed correctly, and no rate beyond the plan's policy is ever offered. */
module Convergence {
  import opened Plan
  import opened Search
  import opened Boundary

  // ---------------------------------------------------------------- the gap

  function Gap(t: Tally): real
    requires t.passes != [] && t.fails != []
  {
    Lowest(t.fails) - Highest(t.passes)
  }

  lemma MidpointIsNear(lo: real, hi: real)
    requires 0.0 < lo < RoundRate((lo + hi) / 2.0) < hi
    ensures
      var mid, half := RoundRate((lo + hi) / 2.0), (hi - lo) / 2.0;
      mid - lo <= half + HalfStep((lo + hi) / 2.0) && hi - mid <= half + HalfStep((lo + hi) / 2.0)
  {
    RoundRateIsNear((lo + hi) / 2.0);
  }

  /** A refine step, whichever way it turns out, leaves at most half the gap and half a grid step. */
  lemma RefineHalvesGap(p: Plan, t: Tally, mid: real, u: Tally, verdict: Verdict)
    requires CapacityPlan(p) && Invariant(p, t, Refining(mid)) && Entered(t, u, mid, verdict)
    ensures u.passes != [] && u.fails != []
    ensures Gap(u) <= Gap(t) / 2.0 + HalfStep((Highest(t.passes) + Lowest(t.fails)) / 2.0) <= Gap(t) / 2.0 + 0.5
  {
    MidpointOf(p, t, mid);
    MidpointIsNear(Highest(t.passes), Lowest(t.fails));
    BoundsAfter(p, t, mid, u, verdict);
    hide Invariant, Entered, RoundRate;
  }

  lemma MidpointOf(p: Plan, t: Tally, mid: real)
    requires CapacityPlan(p) && Invariant(p, t, Refining(mid))
    ensures t.passes != [] && t.fails != []
    ensures 0.0 < Highest(t.passes) < mid < Lowest(t.fails)
    ensures mid == RoundRate((Highest(t.passes) + Lowest(t.fails)) / 2.0)
  {
    hide RoundRate, Count, MaxRate;
  }

  lemma BoundsAfter(p: Plan, t: Tally, mid: real, u: Tally, verdict: Verdict)
    requires CapacityPlan(p) && Invariant(p, t, Refining(mid)) && Entered(t, u, mid, verdict)
    ensures u.passes != [] && u.fails != []
    ensures (Highest(u.passes), Lowest(u.fails))
            == if verdict == Passed then (mid, Lowest(t.fails)) else (Highest(t.passes), mid)
  {
    hide RoundRate, MaxRate, Count, Standing;
    if verdict == Passed {
      assert u.fails == t.fails;
      HighestIs(u.passes, mid);
    } else {
      assert u.passes == t.passes;
      LowestIs(u.fails, mid);
    }
  }

  // ---------------------------------------------------------------- many refine steps

  /** The search k refine steps on, if it refines that long. */
  function RefineRun(p: Plan, w: World, m: Memory, t: Tally, c: Control, k: nat): Option<(Tally, Control)>
    requires Proper(p, c) && Started(t, c)
    decreases k
  {
    if k == 0 then Some((t, c))
    else if !c.Refining? then None
    else
      var s := Step(p, w, m, t, Ask(p, c));
      if !s.go then None
      else
        var (t1, c1) := After(p, s.t, c, s.verdict);
        RefineRun(p, w, s.m, t1, c1, k - 1)
  }

  /** x doubled k times. */
  function Doubled(k: nat, x: real): real { if k == 0 then x else 2.0 * Doubled(k - 1, x) }

  lemma {:induction false} DoubledGrows(k: nat, x: real, y: real)
    requires x < y
    ensures Doubled(k, x) < Doubled(k, y)
    decreases k
  {
    if k > 0 { DoubledGrows(k - 1, x, y); }
  }

  /** After k refine steps, however they turned out, what the gap exceeds 1 by has been halved k times. */
  lemma {:induction false} RefineRunHalvesGap(p: Plan, w: World, m: Memory, t: Tally, k: nat)
    requires CapacityPlan(p) && t.passes != [] && t.fails != [] && Invariant(p, t, RefineOrConfirm(p, t))
    requires RefineRun(p, w, m, t, RefineOrConfirm(p, t), k).Some?
    ensures
      var (u, c) := RefineRun(p, w, m, t, RefineOrConfirm(p, t), k).value;
      && u.passes != [] && u.fails != [] && c == RefineOrConfirm(p, u)
      && Doubled(k, Gap(u) - 1.0) <= Gap(t) - 1.0
      && Highest(t.passes) <= Highest(u.passes)
    decreases k
  {
    hide Step, Invariant, RefineOrConfirm, Entered, Gap, After, Ask, Highest, Lowest;
    if k > 0 {
      var c := RefineOrConfirm(p, t);
      RefineOnce(p, w, m, t, c.mid);
      var s := Step(p, w, m, t, Ask(p, c));
      RefineRunHalvesGap(p, w, s.m, s.t, k - 1);
    }
  }

  lemma RefineOnce(p: Plan, w: World, m: Memory, t: Tally, mid: real)
    requires CapacityPlan(p) && t.passes != [] && t.fails != []
    requires Invariant(p, t, Refining(mid)) && Step(p, w, m, t, Ask(p, Refining(mid))).go
    ensures
      var s := Step(p, w, m, t, Ask(p, Refining(mid)));
      && s.t.passes != [] && s.t.fails != [] && Invariant(p, s.t, RefineOrConfirm(p, s.t))
      && After(p, s.t, Refining(mid), s.verdict) == (s.t, RefineOrConfirm(p, s.t))
      && Gap(s.t) <= Gap(t) / 2.0 + 0.5 && Highest(t.passes) <= Highest(s.t.passes)
  {
    var s := Step(p, w, m, t, Ask(p, Refining(mid)));
    RefineHalvesGap(p, t, mid, s.t, s.verdict);
    RefineKeeps(p, t, mid, s.t, s.verdict);
    HigherWithMore(t, s.t, mid, s.verdict);
    hide Invariant, Step, RefineOrConfirm, Gap;
  }

  lemma HigherWithMore(t: Tally, u: Tally, mid: real, verdict: Verdict)
    requires t.passes != [] && Entered(t, u, mid, verdict)
    ensures Highest(t.passes) <= Highest(u.passes)
  {
    if verdict == Passed {
      assert u.passes[..|u.passes| - 1] == t.passes;
    } else {
      assert u.passes == t.passes;
    }
  }

  /** A target wider than 1 ends refinement early: whenever another step is asked for after k of them,
      2^k times (target - 1) is below gap - 1. */
  lemma RefineStepsMeetTarget(p: Plan, w: World, m: Memory, t: Tally, k: nat)
    requires CapacityPlan(p) && t.passes != [] && t.fails != [] && Invariant(p, t, RefineOrConfirm(p, t))
    requires RefineRun(p, w, m, t, RefineOrConfirm(p, t), k).Some?
    requires RefineRun(p, w, m, t, RefineOrConfirm(p, t), k).value.1.Refining?
    ensures Doubled(k, Target(p, Highest(t.passes)) - 1.0) < Gap(t) - 1.0
  {
    hide RefineRun, Invariant, Doubled, Target, Highest, Lowest, Midpoint;
    RefineRunHalvesGap(p, w, m, t, k);
    var u := RefineRun(p, w, m, t, RefineOrConfirm(p, t), k).value.0;
    TargetGrows(p, Highest(t.passes), Highest(u.passes));
    DoubledGrows(k, Target(p, Highest(t.passes)) - 1.0, Gap(u) - 1.0);
  }

  lemma TargetGrows(p: Plan, lo: real, higher: real)
    requires Sound(p) && lo <= higher
    ensures Target(p, lo) <= Target(p, higher)
  {
    ScaleUp(p.width, Larger(lo, 1.0), Larger(higher, 1.0));
  }

  lemma ScaleUp(k: real, a: real, b: real)
    requires k > 0.0 && a <= b
    ensures k * a <= k * b
  {
  }

  /** The grid step in the middle between two rates: 1 from 10 up, 0.1 below. */
  function GridStep(lo: real, hi: real): real { 2.0 * HalfStep((lo + hi) / 2.0) }

  /** Refinement stops by itself only within the target width or within one grid step. */
  lemma SettledMeansClose(p: Plan, lo: real, hi: real)
    requires 0.0 < lo < hi && Settled(p, lo, hi)
    ensures hi - lo <= p.width * Larger(lo, 1.0) || hi - lo <= GridStep(lo, hi)
  {
    RoundRateIsNear((lo + hi) / 2.0);
  }

  lemma WidthOfGap(lo: real, hi: real, width: real)
    requires hi - lo <= width * Larger(lo, 1.0)
    ensures RelativeWidth(lo, hi) <= width
  {
    Quotient(hi - lo, Larger(lo, 1.0), width);
  }

  lemma Quotient(a: real, m: real, w: real)
    requires m > 0.0 && a <= w * m
    ensures a / m <= w
  {
    var x := a / m;
    assert x * m == a;
    Scale(x, w, m);
  }

  /** A search that ran to the end of its confirmation reports a bounded capacity within the target
      width, or a gap of at most one grid step; it always recommends, and only such a search does. */
  lemma ConfirmedSearchConverges(p: Plan, w: World, m: Memory)
    requires CapacityPlan(p)
    ensures
      var f, r := Finish(p, w, m), Result(p, w, m);
      && (f.how == Confirmed <==> r.recommended.Some?)
      && (f.how == Confirmed ==>
            && r.lower.Some? && r.upper.Some?
            && (r.class_ == Bounded || r.upper.value - r.lower.value <= GridStep(r.lower.value, r.upper.value)))
      && (f.how == Capped ==> r.class_ == LowerOnly)
      && (f.how == NothingPassed ==> r.class_ == Class.NoPass)
  {
    SearchStands(p, w, m);
    hide Finish;
    var t := Finish(p, w, m).t;
    ConfirmedConclusion(p, t, Finish(p, w, m).how);
  }

  lemma ConfirmedConclusion(p: Plan, t: Tally, how: Ending)
    requires CapacityPlan(p) && Standing(p, t) && Reached(p, t, how)
    ensures
      var r := Conclude(p, t);
      && (how == Confirmed <==> r.recommended.Some?)
      && (how == Confirmed ==>
            && r.lower.Some? && r.upper.Some?
            && (r.class_ == Bounded || r.upper.value - r.lower.value <= GridStep(r.lower.value, r.upper.value)))
      && (how == Capped ==> r.class_ == LowerOnly)
      && (how == NothingPassed ==> r.class_ == Class.NoPass)
  {
    Conclusion(p, t);
    hide Conclude, Settled, Count, RelativeWidth, NextRate, Within, OnceExcept;
    if how == Confirmed {
      PositiveBounds(p, t);
      CloseOrNarrow(p, Highest(t.passes), Lowest(t.fails));
    }
  }

  lemma PositiveBounds(p: Plan, t: Tally)
    requires Standing(p, t) && t.passes != [] && t.fails != [] && !t.res.unstable
    ensures 0.0 < Highest(t.passes) < Lowest(t.fails)
  {
  }

  lemma CloseOrNarrow(p: Plan, lo: real, hi: real)
    requires 0.0 < lo < hi && Settled(p, lo, hi)
    ensures RelativeWidth(lo, hi) <= p.width || hi - lo <= GridStep(lo, hi)
  {
    SettledMeansClose(p, lo, hi);
    if hi - lo <= p.width * Larger(lo, 1.0) { WidthOfGap(lo, hi, p.width); }
  }

  // ---------------------------------------------------------------- a platform with a limit

  /** Every step that settles passes up to the limit and fails above it. */
  ghost predicate Threshold(w: World, limit: real) {
    forall n, q ::
      && (w.outcome(n, q).verdict == Passed ==> q.rate <= limit)
      && (w.outcome(n, q).verdict == Failed ==> q.rate > limit)
  }

  /** Recorded steps that are replayed came from the same platform. */
  ghost predicate FromPlatform(v: seq<Record>, limit: real) {
    forall r :: r in v ==>
      && (r.outcome.verdict == Passed ==> r.rate <= limit)
      && (r.outcome.verdict == Failed ==> r.rate > limit)
  }

  predicate Split(t: Tally, limit: real) {
    && (forall k :: 0 <= k < |t.passes| ==> t.passes[k] <= limit)
    && (forall k :: 0 <= k < |t.fails| ==> limit < t.fails[k])
  }

  lemma StepSplits(p: Plan, w: World, m: Memory, t: Tally, q: Request, limit: real)
    requires Threshold(w, limit) && FromPlatform(m.replay, limit) && Split(t, limit)
    ensures var s := Step(p, w, m, t, q); Split(s.t, limit) && FromPlatform(s.m.replay, limit)
  {
    hide MaxIndex;
  }

  lemma {:induction false} DriveSplits(p: Plan, w: World, m: Memory, t: Tally, c: Control, limit: real)
    requires Proper(p, c) && Started(t, c)
    requires Threshold(w, limit) && FromPlatform(m.replay, limit) && Split(t, limit)
    ensures Split(Drive(p, w, m, t, c).t, limit)
    decreases p.maxSteps - t.res.steps
  {
    hide Ask, After, Step;
    if !c.Ended? {
      var s := Step(p, w, m, t, Ask(p, c));
      StepSplits(p, w, m, t, Ask(p, c), limit);
      if s.go {
        var (t1, c1) := After(p, s.t, c, s.verdict);
        DriveSplits(p, w, s.m, t1, c1, limit);
      }
    }
  }

  /** Against a platform with a sharp limit, resumed or not, the bounds enclose the limit, both
      were tested, and no rate between them was. */
  lemma ThresholdIsBracketed(p: Plan, w: World, m: Memory, limit: real)
    requires CapacityPlan(p) && Threshold(w, limit) && FromPlatform(m.replay, limit)
    ensures
      var t, r := Finish(p, w, m).t, Result(p, w, m);
      && (r.lower.Some? ==> r.lower.value in t.passes && r.lower.value <= limit)
      && (r.upper.Some? ==> r.upper.value in t.fails && limit < r.upper.value)
      && (r.lower.Some? && r.upper.Some? ==> TightBracket(t, r.lower.value, r.upper.value))
      && (t.passes != [] ==> r.lower == Some(Highest(t.passes)))
  {
    DriveSplits(p, w, m, Empty(p), Begin(p), limit);
    SearchStands(p, w, m);
    CapacityBracket(p, w, m);
    hide Finish;
    Conclusion(p, Finish(p, w, m).t);
    hide Conclude, Count;
  }

  // ---------------------------------------------------------------- the ramp

  lemma FloorAtMost(x: real, k: int)
    ensures x.Floor <= k <==> x < k as real + 1.0
  {
  }

  lemma TenthsGrow(r: real, x: real)
    requires OnGrid(r) && r <= x < 10.0
    ensures RoundRate(x) <= r <==> x < r + 0.05
  {
    FloorAtMost(x * 10.0 + 0.5, (r * 10.0).Floor);
  }

  lemma WholeGrow(r: real, x: real)
    requires OnGrid(r) && r >= 10.0 && x >= r
    ensures RoundRate(x) <= r <==> x < r + 0.5
  {
    FloorAtMost(x + 0.5, r.Floor);
  }

  lemma CrossTen(r: real, x: real)
    requires OnGrid(r) && r < 10.0 <= x
    ensures RoundRate(x) > r && x >= r + 0.05
  {
    FloorAtMost(r * 10.0, 99);
    FloorAtMost(x + 0.5, 9);
  }

  /** From a rate on the grid, the ramp makes no headway below the ceiling exactly when the ramp
      factor adds less than half a grid step. */
  lemma RampStalls(p: Plan, rate: real)
    requires CapacityPlan(p) && OnGrid(rate) && rate < MaxRate(p)
    ensures NextRate(p, rate) <= rate <==> Grown(p, rate) < rate + HalfStep(rate)
  {
    GrownUp(p, rate);
    StallAt(rate, Grown(p, rate));
    hide RoundRate, MaxRate, Grown, OnGrid, HalfStep;
  }

  lemma GrownUp(p: Plan, rate: real)
    requires CapacityPlan(p) && rate > 0.0
    ensures rate < Grown(p, rate)
  {
    Scale(p.rampFactor, 1.0, rate);
  }

  lemma StallAt(rate: real, x: real)
    requires OnGrid(rate) && x >= rate
    ensures RoundRate(x) <= rate <==> x < rate + HalfStep(rate)
  {
    if rate >= 10.0 { WholeGrow(rate, x); } else if x < 10.0 { TenthsGrow(rate, x); } else { CrossTen(rate, x); }
  }

  // ---------------------------------------------------------------- rates on the grid

  predicate Gridded(p: Plan, x: real) { OnGrid(x) || x == MaxRate(p) }

  predicate AllGridded(p: Plan, v: seq<real>) { forall k :: 0 <= k < |v| ==> Gridded(p, v[k]) }

  /** The rates tried and the one to try next. */
  predicate OnTrack(p: Plan, t: Tally, c: Control) {
    AllGridded(p, t.passes) && AllGridded(p, t.fails)
    && match c
       case Listing(_) => false
       case Ramping(rate) => Gridded(p, rate)
       case Refining(mid) => Gridded(p, mid)
       case Confirming(candidate, _) => Gridded(p, candidate)
       case Ended(_) => true
  }

  lemma RoundedIsGridded(p: Plan, x: real)
    ensures Gridded(p, RoundRate(x)) && Gridded(p, Smaller(RoundRate(x), MaxRate(p)))
  {
    RoundRateOnGrid(x);
  }

  lemma AfterOnTrack(p: Plan, t: Tally, c: Control, verdict: Verdict)
    requires Proper(p, c) && !c.Ended? && OnTrack(p, t, c) && verdict != Unsettled
    requires if verdict == Passed then t.passes != [] else t.fails != []
    requires Started(t, c)
    ensures var (t1, c1) := After(p, t, c, verdict); OnTrack(p, t1, c1)
  {
    hide Gridded, MaxRate, RoundRate, Settled;
    if c.Ramping? { RoundedIsGridded(p, Grown(p, c.rate)); }
    if t.passes != [] && t.fails != [] {
      var lo, hi := Highest(t.passes), Lowest(t.fails);
      RoundedIsGridded(p, (lo + hi) / 2.0);
      assert Gridded(p, lo);
    }
  }

  lemma StepOnTrack(p: Plan, t: Tally, c: Control, u: Tally, verdict: Verdict)
    requires Proper(p, c) && !c.Ended? && OnTrack(p, t, c) && Entered(t, u, Ask(p, c).rate, verdict)
    ensures OnTrack(p, u, c)
  {
    hide Gridded, MaxRate;
  }

  lemma {:induction false} DriveOnTrack(p: Plan, w: World, m: Memory, t: Tally, c: Control)
    requires Proper(p, c) && Started(t, c) && OnTrack(p, t, c)
    ensures var f := Drive(p, w, m, t, c); AllGridded(p, f.t.passes) && AllGridded(p, f.t.fails)
    decreases p.maxSteps - t.res.steps
  {
    hide Ask, After, Step, OnTrack;
    if c.Ended? {
      TrackIsGridded(p, t, c);
    } else {
      var s := Step(p, w, m, t, Ask(p, c));
      if s.go {
        StepOnTrack(p, t, c, s.t, s.verdict);
        AfterOnTrack(p, s.t, c, s.verdict);
        var (t1, c1) := After(p, s.t, c, s.verdict);
        DriveOnTrack(p, w, s.m, t1, c1);
      } else {
        TrackIsGridded(p, t, c);
      }
    }
  }

  lemma TrackIsGridded(p: Plan, t: Tally, c: Control)
    requires OnTrack(p, t, c)
    ensures AllGridded(p, t.passes) && AllGridded(p, t.fails)
  {
  }

  /** Every rate a capacity search tries lies on the grid, or is the ceiling. */
  lemma EveryRateIsOnTheGrid(p: Plan, w: World, m: Memory)
    requires CapacityPlan(p)
    ensures AllGridded(p, Finish(p, w, m).t.passes) && AllGridded(p, Finish(p, w, m).t.fails)
  {
    RoundedIsGridded(p, p.initial);
    DriveOnTrack(p, w, m, Empty(p), Begin(p));
  }

  /** So a ramp that ended at a ceiling either reached it, or stalled on the grid below it. */
  lemma CappedRamp(p: Plan, w: World, m: Memory)
    requires CapacityPlan(p) && Finish(p, w, m).how == Capped
    ensures
      var passes := Finish(p, w, m).t.passes;
      && passes != []
      && var top := Highest(passes);
         top == MaxRate(p) || (top < MaxRate(p) && OnGrid(top) && Grown(p, top) < top + HalfStep(top))
  {
    SearchStands(p, w, m);
    EveryRateIsOnTheGrid(p, w, m);
    hide Finish, OnGrid, Grown, HalfStep, MaxRate, NextRate;
    var top := Highest(Finish(p, w, m).t.passes);
    assert Gridded(p, top);
    if top != MaxRate(p) { RampStalls(p, top); }
  }

  // ---------------------------------------------------------------- ramps that reach their ceiling

  /** The ramp gains half a grid step at its first rate, and at 10, should it come past there. */
  predicate Steep(p: Plan) {
    var first := FirstRate(p);
    || first == MaxRate(p)
    || (first + HalfStep(first) <= Grown(p, first) && (first >= 10.0 || p.rampFactor >= 1.05 || MaxRate(p) <= 10.0))
  }

  /** Nothing below the first rate passes before it, and the ramp never comes back below it. */
  predicate FromFirst(p: Plan, t: Tally, c: Control) {
    && (t.passes != [] ==> t.passes[0] >= FirstRate(p))
    && match c
       case Listing(_) => false
       case Ramping(rate) => rate >= FirstRate(p)
       case Refining(_) => t.passes != []
       case Confirming(_, _) => t.passes != []
       case Ended(_) => true
  }

  lemma {:induction false} DriveFromFirst(p: Plan, w: World, m: Memory, t: Tally, c: Control)
    requires Proper(p, c) && Started(t, c) && FromFirst(p, t, c)
    ensures FromFirst(p, Drive(p, w, m, t, c).t, Ended(Capped))
    decreases p.maxSteps - t.res.steps
  {
    hide Step, MaxRate, RoundRate, FirstRate, NextRate, Settled;
    if !c.Ended? {
      var s := Step(p, w, m, t, Ask(p, c));
      if s.go {
        var (t1, c1) := After(p, s.t, c, s.verdict);
        DriveFromFirst(p, w, s.m, t1, c1);
      }
    }
  }

  /** Where a ramp that is not steep gets stuck: at its first rate, or at 10. */
  predicate Stuck(p: Plan, x: real) {
    var first := FirstRate(p);
    if first + HalfStep(first) > Grown(p, first) then x == first else x <= 10.0
  }

  predicate StaysStuck(p: Plan, t: Tally, c: Control) {
    match c
    case Listing(_) => false
    case Ramping(rate) => Stuck(p, rate) && forall k :: 0 <= k < |t.passes| ==> Stuck(p, t.passes[k])
    case Ended(Capped) => forall k :: 0 <= k < |t.passes| ==> Stuck(p, t.passes[k])
    case _ => true
  }

  lemma StuckStays(p: Plan, rate: real)
    requires CapacityPlan(p) && !Steep(p) && Stuck(p, rate) && NextRate(p, rate) > rate
    ensures Stuck(p, NextRate(p, rate))
  {
    hide MaxRate, RoundRate, OnGrid;
    if FirstRate(p) + HalfStep(FirstRate(p)) > Grown(p, FirstRate(p)) {
      FirstStalls(p);
    } else {
      BelowTen(p, rate);
    }
  }

  lemma FirstStalls(p: Plan)
    requires CapacityPlan(p) && FirstRate(p) < MaxRate(p)
    requires FirstRate(p) + HalfStep(FirstRate(p)) > Grown(p, FirstRate(p))
    ensures NextRate(p, FirstRate(p)) <= FirstRate(p)
  {
    hide MaxRate, RoundRate, OnGrid, Grown, HalfStep, NextRate;
    RoundRateOnGrid(p.initial);
    RampStalls(p, FirstRate(p));
  }

  lemma BelowTen(p: Plan, rate: real)
    requires rate <= 10.0 && 0.0 < p.rampFactor < 1.05
    ensures NextRate(p, rate) <= 10.0
  {
    hide RoundRate, MaxRate;
    Scale(10.0, rate, p.rampFactor);
    assert Grown(p, rate) <= 10.0 * p.rampFactor;
    TenAtMost(Grown(p, rate));
  }

  lemma TenAtMost(x: real)
    requires x < 10.5
    ensures RoundRate(x) <= 10.0
  {
  }

  lemma StepStaysStuck(p: Plan, t: Tally, c: Control, u: Tally, verdict: Verdict)
    requires CapacityPlan(p) && !Steep(p) && Proper(p, c) && !c.Ended? && Started(t, c) && StaysStuck(p, t, c)
    requires Entered(t, u, Ask(p, c).rate, verdict)
    ensures var (t1, c1) := After(p, u, c, verdict); StaysStuck(p, t1, c1)
  {
    hide MaxRate, NextRate, Settled, Stuck, Steep;
    if c.Ramping? && NextRate(p, c.rate) > c.rate { StuckStays(p, c.rate); }
  }

  lemma {:induction false} DriveStaysStuck(p: Plan, w: World, m: Memory, t: Tally, c: Control)
    requires CapacityPlan(p) && !Steep(p) && Proper(p, c) && Started(t, c) && StaysStuck(p, t, c)
    ensures var f := Drive(p, w, m, t, c); f.how == Capped ==> StaysStuck(p, f.t, Ended(Capped))
    decreases p.maxSteps - t.res.steps
  {
    hide Ask, After, Step, Steep;
    if c.Ended? {
    } else {
      var s := Step(p, w, m, t, Ask(p, c));
      if s.go {
        StepStaysStuck(p, t, c, s.t, s.verdict);
        var (t1, c1) := After(p, s.t, c, s.verdict);
        DriveStaysStuck(p, w, s.m, t1, c1);
      }
    }
  }

  /** What the ramp adds to a rate before it is rounded. */
  function Gain(p: Plan, rate: real): real { rate * (p.rampFactor - 1.0) }

  lemma GainGrows(p: Plan, lower: real, rate: real)
    requires p.rampFactor > 1.0 && lower <= rate
    ensures Gain(p, lower) <= Gain(p, rate) && Grown(p, rate) == rate + Gain(p, rate)
  {
    if lower < rate { Scale(rate, lower, p.rampFactor - 1.0); }
  }

  lemma SteepGrows(p: Plan, rate: real)
    requires CapacityPlan(p) && Steep(p) && 0.0 < FirstRate(p) <= rate < MaxRate(p)
    ensures Grown(p, rate) >= rate + HalfStep(rate)
  {
    GainAtTen(p);
    hide MaxRate, FirstRate, Gain, Grown;
    GainGrows(p, FirstRate(p), FirstRate(p));
    GainGrows(p, FirstRate(p), rate);
    if rate >= 10.0 { GainGrows(p, 10.0, rate); }
  }

  lemma GainAtTen(p: Plan)
    ensures p.rampFactor >= 1.05 ==> Gain(p, 10.0) >= 0.5
  {
  }

  /** What the plan says in advance: a ramp that ended at a ceiling reached it exactly when it is steep. */
  lemma CappedReachesExactlyWhen(p: Plan, w: World, m: Memory)
    requires CapacityPlan(p) && Finish(p, w, m).how == Capped
    ensures
      var passes := Finish(p, w, m).t.passes;
      passes != [] && (Highest(passes) == MaxRate(p) <==> Steep(p))
  {
    hide OnGrid, Grown, MaxRate, NextRate, FirstRate, Steep, Stuck, Drive;
    CappedRamp(p, w, m);
    var passes := Finish(p, w, m).t.passes;
    var top := Highest(passes);
    NextRateWithin(p, top);
    if Steep(p) {
      DriveFromFirst(p, w, m, Empty(p), Begin(p));
      assert top >= FirstRate(p);
      if top < MaxRate(p) { SteepGrows(p, top); }
    } else {
      FirstIsStuck(p);
      DriveStaysStuck(p, w, m, Empty(p), Begin(p));
      assert Stuck(p, top);
      StuckIsLow(p, top);
    }
  }

  lemma FirstIsStuck(p: Plan)
    requires CapacityPlan(p) && !Steep(p)
    ensures Stuck(p, FirstRate(p))
  {
    hide MaxRate, RoundRate;
  }

  lemma StuckIsLow(p: Plan, x: real)
    requires CapacityPlan(p) && !Steep(p) && Stuck(p, x)
    ensures x < MaxRate(p)
  {
    NextRateWithin(p, x);
    hide MaxRate, RoundRate;
  }

  const CREEPING: Plan :=
    Plan(Capacity, 10.0, 1.0, 0.0, 1000.0, 0, 1, [], 1.04, 0.05, 3, 20, 600.0, 1800.0, 500.0)

  /** The stall is real: this valid plan stops its ramp after one passed step at 10 messages per
      second and names the budget as the reason, with the budget at 500. */
  lemma CreepingRampStalls(w: World)
    requires !w.stopped(0) && w.affordable(0, 600.0)
    requires w.outcome(0, Request(10.0, RampStep, 600.0)) == Outcome(Passed, "", 600.0, false, false)
    ensures Valid(CREEPING)
    ensures
      var f := Finish(CREEPING, w, Memory([], 0, [], []));
      f.how == Capped && f.t.passes == [10.0] && MaxRate(CREEPING) == 500.0 && f.t.res.stopReason == BUDGET
  {
    var p := CREEPING;
    assert DeviceLimit(p) == Some(1000.0);
    assert MaxRate(p) == 500.0 && FirstRate(p) == 10.0;
    assert Grown(p, 10.0) == 10.4 && NextRate(p, 10.0) == 10.0;
    var m, t, c := Memory([], 0, [], []), Empty(p), Ramping(10.0);
    var s := Step(p, w, m, t, Ask(p, c));
    assert s.go && s.verdict == Passed;
    var (t1, c1) := After(p, s.t, c, Passed);
    assert c1 == Ended(Capped);
  }

  // ---------------------------------------------------------------- the policy

  predicate Allowed(p: Plan, rate: real) { rate <= p.budget && !Violates(p, rate) }

  /** The next step, if there is one, may be offered. */
  predicate MayAsk(p: Plan, t: Tally, c: Control) {
    Proper(p, c) && if Fixed(p) then c.Listing? || c.Ended? else Invariant(p, t, c)
  }

  predicate AllAllowed(p: Plan, v: seq<Record>) { forall k :: 0 <= k < |v| ==> Allowed(p, v[k].rate) }

  lemma AskIsAllowed(p: Plan, t: Tally, c: Control)
    requires Valid(p) && MayAsk(p, t, c) && !c.Ended?
    ensures Allowed(p, Ask(p, c).rate)
  {
    var rate := Ask(p, c).rate;
    if Fixed(p) {
      assert rate in PlanRates(p);
    } else {
      InvariantRate(p, t, c);
      WithinMaxRate(p, rate);
    }
  }

  lemma InvariantRate(p: Plan, t: Tally, c: Control)
    requires CapacityPlan(p) && Proper(p, c) && Invariant(p, t, c) && !c.Ended?
    ensures Ask(p, c).rate <= MaxRate(p)
  {
    hide MaxRate, RoundRate, Settled, Count;
  }

  lemma {:induction false} DriveAllowed(p: Plan, w: World, m: Memory, t: Tally, c: Control)
    requires Valid(p) && MayAsk(p, t, c) && Started(t, c) && AllAllowed(p, m.executed)
    ensures AllAllowed(p, Drive(p, w, m, t, c).m.executed)
    decreases p.maxSteps - t.res.steps
  {
    hide After, Step, Ask, Invariant, Allowed, Valid;
    if !c.Ended? {
      var q := Ask(p, c);
      AskIsAllowed(p, t, c);
      StepExecutes(p, w, m, t, q);
      var s := Step(p, w, m, t, q);
      if s.go {
        var (t1, c1) := After(p, s.t, c, s.verdict);
        NextMayAsk(p, t, c, s.t, s.verdict);
        DriveAllowed(p, w, s.m, t1, c1);
      }
    }
  }

  lemma NextMayAsk(p: Plan, t: Tally, c: Control, u: Tally, verdict: Verdict)
    requires Valid(p) && MayAsk(p, t, c) && !c.Ended? && Entered(t, u, Ask(p, c).rate, verdict)
    requires Started(u, c) && if verdict == Passed then u.passes != [] else u.fails != []
    ensures var (t1, c1) := After(p, u, c, verdict); MayAsk(p, t1, c1)
  {
    if !Fixed(p) { SettledStepKeeps(p, t, c, u, verdict); }
  }

  lemma StepExecutes(p: Plan, w: World, m: Memory, t: Tally, q: Request)
    ensures
      var e := Step(p, w, m, t, q).m.executed;
      e == m.executed || (|e| == |m.executed| + 1 && e[..|m.executed|] == m.executed && e[|m.executed|].rate == q.rate)
  {
    hide MaxIndex, Enter;
  }

  /** Under a valid plan, of any preset, no step is ever offered above the message budget or beyond
      the per-device allowance. */
  lemma EveryOfferIsAllowed(p: Plan, w: World, replay: seq<Record>)
    requires Valid(p)
    ensures AllAllowed(p, Finish(p, w, Memory(replay, 0, [], [])).m.executed)
  {
    if !Fixed(p) { InvariantStarts(p); }
    DriveAllowed(p, w, Memory(replay, 0, [], []), Empty(p), Begin(p));
  }
}
