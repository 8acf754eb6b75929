/** What a capacity search has shown when it ends, whatever the platform did and wherever it was
    stopped: a bracket, and a recommendation only with full confirmation. */
module Boundary {
  import opened Plan
  import opened Search

  predicate CapacityPlan(p: Plan) { Sound(p) && p.preset.Capacity? }

  // ---------------------------------------------------------------- the invariant

  predicate Within(p: Plan, v: seq<real>) { forall k :: 0 <= k < |v| ==> 0.0 < v[k] <= MaxRate(p) }

  /** Every pass happened once, except that `top` may have been confirmed. */
  predicate OnceExcept(v: seq<real>, top: real) { forall x :: x in v && x != top ==> Count(v, x) == 1 }

  predicate AllBelow(v: seq<real>, x: real) { forall k :: 0 <= k < |v| ==> v[k] < x }

  predicate AllAbove(v: seq<real>, x: real) { forall k :: 0 <= k < |v| ==> x < v[k] }

  /** `top` is the highest pass, met `n` times, and no failure is at or below it. */
  predicate Bracketed(t: Tally, top: real, n: nat) {
    && t.passes != [] && top == Highest(t.passes) && Count(t.passes, top) == n && OnceExcept(t.passes, top)
    && AllAbove(t.fails, top)
  }

  /** The highest pass failed on a retest. */
  predicate RefutedAt(p: Plan, t: Tally) {
    && t.passes != [] && t.fails != []
    && var top := Highest(t.passes);
       Count(t.passes, top) <= p.repeats && OnceExcept(t.passes, top) && Lowest(t.fails) == top
  }

  /** What holds when the search may stop. */
  predicate Standing(p: Plan, t: Tally) {
    && SameClaims(t, Empty(p))
    && Within(p, t.passes) && Within(p, t.fails)
    && (if t.res.unstable then RefutedAt(p, t)
        else if t.passes == [] then true
        else
          var top := Highest(t.passes);
          var n := Count(t.passes, top);
          Bracketed(t, top, n) && n <= p.repeats + 1 && (n == p.repeats + 1 ==> t.fails != []))
  }

  predicate Invariant(p: Plan, t: Tally, c: Control) {
    && Standing(p, t)
    && match c
       case Listing(_) => false
       case Ramping(rate) =>
         0.0 < rate <= MaxRate(p) && !t.res.unstable && t.fails == []
         && AllBelow(t.passes, rate) && OnceExcept(t.passes, rate)
       case Refining(mid) =>
         !t.res.unstable && t.passes != [] && t.fails != [] && Bracketed(t, Highest(t.passes), 1)
         && Highest(t.passes) < mid < Lowest(t.fails)
         && mid == RoundRate((Highest(t.passes) + Lowest(t.fails)) / 2.0)
       case Confirming(candidate, i) =>
         !t.res.unstable && t.fails != [] && i < p.repeats && Bracketed(t, candidate, i + 1)
         && Settled(p, candidate, Lowest(t.fails))
       case Ended(how) => Reached(p, t, how)
  }

  /** What the search has shown when it ends by itself. */
  predicate Reached(p: Plan, t: Tally, how: Ending) {
    match how
    case NothingPassed => t.passes == [] && t.fails != []
    case Capped => t.fails == [] && t.passes != [] && NextRate(p, Highest(t.passes)) <= Highest(t.passes)
    case Confirmed =>
      !t.res.unstable && t.passes != [] && t.fails != [] && Settled(p, Highest(t.passes), Lowest(t.fails))
      && Count(t.passes, Highest(t.passes)) == p.repeats + 1
    case Refuted => t.res.unstable
    case Stopped => Unconfirmed(p, t)
    case Broken => Unconfirmed(p, t)
    case Listed => false
  }

  /** The highest pass has not been confirmed to the end. */
  predicate Unconfirmed(p: Plan, t: Tally) {
    t.res.unstable || t.passes == [] || Count(t.passes, Highest(t.passes)) <= p.repeats
  }

  lemma CountSnoc(v: seq<real>, x: real, y: real)
    ensures Count(v + [x], y) == Count(v, y) + (if x == y then 1 else 0)
  {
  }

  lemma CountAbsent(v: seq<real>, x: real)
    requires x !in v
    ensures Count(v, x) == 0
  {
  }

  lemma HighestIs(v: seq<real>, x: real)
    requires x in v && forall k :: 0 <= k < |v| ==> v[k] <= x
    ensures Highest(v) == x
  {
  }

  lemma LowestIs(v: seq<real>, x: real)
    requires x in v && forall k :: 0 <= k < |v| ==> x <= v[k]
    ensures Lowest(v) == x
  {
  }

  /** A new pass above all others. */
  lemma NewTop(t: Tally, x: real, u: Tally)
    requires AllBelow(t.passes, x) && AllAbove(t.fails, x)
    requires forall y :: y in t.passes ==> Count(t.passes, y) == 1
    requires u.passes == t.passes + [x] && u.fails == t.fails
    ensures Bracketed(u, x, 1) && Highest(u.passes) == x
  {
    var v := t.passes + [x];
    CountAbsent(t.passes, x);
    CountSnoc(t.passes, x, x);
    HighestIs(v, x);
    hide Count;
    forall y | y in v && y != x ensures Count(v, y) == 1 { CountSnoc(t.passes, x, y); }
  }

  lemma WithinSnoc(p: Plan, v: seq<real>, x: real)
    requires Within(p, v) && 0.0 < x <= MaxRate(p)
    ensures Within(p, v + [x])
  {
  }

  lemma AllOnce(t: Tally, top: real)
    requires Bracketed(t, top, 1)
    ensures forall y :: y in t.passes ==> Count(t.passes, y) == 1
  {
  }

  /** One more confirmation of the top. */
  lemma TopAgain(t: Tally, u: Tally, top: real, n: nat)
    requires Bracketed(t, top, n) && u.passes == t.passes + [top] && u.fails == t.fails
    ensures Bracketed(u, top, n + 1) && Highest(u.passes) == top
  {
    CountSnoc(t.passes, top, top);
    HighestIs(u.passes, top);
    hide Count;
    forall y | y in u.passes && y != top ensures Count(u.passes, y) == 1 { CountSnoc(t.passes, top, y); }
  }

  // ---------------------------------------------------------------- every step keeps it

  /** The tally after a step at this rate passed or failed. */
  predicate Entered(t: Tally, u: Tally, rate: real, verdict: Verdict) {
    && verdict != Unsettled
    && u.passes == t.passes + (if verdict == Passed then [rate] else [])
    && u.fails == t.fails + (if verdict == Failed then [rate] else [])
    && u.res.unstable == t.res.unstable && SameClaims(u, t)
  }

  lemma RefineOrConfirmKeeps(p: Plan, t: Tally)
    requires CapacityPlan(p) && Within(p, t.passes) && Within(p, t.fails) && SameClaims(t, Empty(p))
    requires !t.res.unstable && t.fails != [] && t.passes != [] && Bracketed(t, Highest(t.passes), 1)
    ensures Invariant(p, t, RefineOrConfirm(p, t))
  {
  }

  lemma NextRateWithin(p: Plan, rate: real)
    requires CapacityPlan(p)
    ensures 0.0 < NextRate(p, rate) <= MaxRate(p) && 0.0 < FirstRate(p) <= MaxRate(p)
  {
    MaxRatePositive(p);
    RoundRateIsNear(Grown(p, rate));
    RoundRateIsNear(p.initial);
  }

  lemma RampPassKeeps(p: Plan, t: Tally, rate: real, u: Tally)
    requires CapacityPlan(p) && Invariant(p, t, Ramping(rate)) && Entered(t, u, rate, Passed)
    ensures Standing(p, u) && u.fails == [] && Highest(u.passes) == rate
    ensures forall y :: y in u.passes ==> Count(u.passes, y) == 1
  {
    hide RoundRate, MaxRate, Count;
    assert u.fails == t.fails;
    NewTop(t, rate, u);
    WithinSnoc(p, t.passes, rate);
    AllOnce(u, rate);
  }

  lemma RampFailKeeps(p: Plan, t: Tally, rate: real, u: Tally)
    requires CapacityPlan(p) && Invariant(p, t, Ramping(rate)) && Entered(t, u, rate, Failed)
    ensures Standing(p, u) && (u.passes != [] ==> Invariant(p, u, RefineOrConfirm(p, u)))
  {
    hide MaxRate, Count;
    assert u.passes == t.passes && u.fails == [rate];
    if u.passes != [] { RefineOrConfirmKeeps(p, u); }
  }

  lemma RampKeeps(p: Plan, t: Tally, rate: real, u: Tally, verdict: Verdict)
    requires CapacityPlan(p) && Invariant(p, t, Ramping(rate)) && Entered(t, u, rate, verdict)
    ensures var (t1, c1) := After(p, u, Ramping(rate), verdict); Invariant(p, t1, c1)
  {
    NextRateWithin(p, rate);
    hide RoundRate, MaxRate, NextRate, RefineOrConfirm, Count;
    if verdict == Passed {
      RampPassKeeps(p, t, rate, u);
    } else {
      RampFailKeeps(p, t, rate, u);
    }
  }

  lemma RefineKeeps(p: Plan, t: Tally, mid: real, u: Tally, verdict: Verdict)
    requires CapacityPlan(p) && Invariant(p, t, Refining(mid)) && Entered(t, u, mid, verdict)
    ensures Invariant(p, u, RefineOrConfirm(p, u))
  {
    hide RoundRate, MaxRate, RefineOrConfirm, Count;
    assert 0.0 < mid <= MaxRate(p);
    if verdict == Passed {
      assert u.fails == t.fails;
      AllOnce(t, Highest(t.passes));
      NewTop(t, mid, u);
      WithinSnoc(p, t.passes, mid);
    } else {
      assert u.passes == t.passes;
      WithinSnoc(p, t.fails, mid);
    }
    RefineOrConfirmKeeps(p, u);
  }

  lemma ConfirmKeeps(p: Plan, t: Tally, candidate: real, i: nat, u: Tally, verdict: Verdict)
    requires CapacityPlan(p) && Invariant(p, t, Confirming(candidate, i)) && Entered(t, u, candidate, verdict)
    ensures var (t1, c1) := After(p, u, Confirming(candidate, i), verdict); Invariant(p, t1, c1)
  {
    hide RoundRate, MaxRate, Count, Settled;
    if verdict == Passed {
      assert u.fails == t.fails;
      TopAgain(t, u, candidate, i + 1);
      WithinSnoc(p, t.passes, candidate);
    } else {
      assert u.passes == t.passes;
      WithinSnoc(p, t.fails, candidate);
      LowestIs(u.fails, candidate);
    }
  }

  lemma SettledStepKeeps(p: Plan, t: Tally, c: Control, u: Tally, verdict: Verdict)
    requires CapacityPlan(p) && Invariant(p, t, c) && !c.Ended? && Proper(p, c)
    requires Entered(t, u, Ask(p, c).rate, verdict)
    ensures var (t1, c1) := After(p, u, c, verdict); Invariant(p, t1, c1)
  {
    match c
    case Ramping(rate) => RampKeeps(p, t, rate, u, verdict);
    case Refining(mid) => RefineKeeps(p, t, mid, u, verdict);
    case Confirming(candidate, i) => ConfirmKeeps(p, t, candidate, i, u, verdict);
  }

  lemma InvariantStarts(p: Plan)
    requires CapacityPlan(p)
    ensures Invariant(p, Empty(p), Begin(p))
  {
    NextRateWithin(p, p.initial);
  }

  lemma {:induction false} DriveStanding(p: Plan, w: World, m: Memory, t: Tally, c: Control)
    requires CapacityPlan(p) && Proper(p, c) && Started(t, c) && Invariant(p, t, c)
    ensures var f := Drive(p, w, m, t, c); Standing(p, f.t) && Reached(p, f.t, f.how)
    decreases p.maxSteps - t.res.steps
  {
    hide Ask, After, Step, Invariant, Standing, Reached;
    if c.Ended? {
      InvariantStands(p, t, c);
    } else {
      var s := Step(p, w, m, t, Ask(p, c));
      if s.go {
        SettledStepKeeps(p, t, c, s.t, s.verdict);
        var (t1, c1) := After(p, s.t, c, s.verdict);
        DriveStanding(p, w, s.m, t1, c1);
      } else {
        StopStands(p, t, c, s.t, if s.error then Broken else Stopped);
      }
    }
  }

  lemma InvariantStands(p: Plan, t: Tally, c: Control)
    requires Invariant(p, t, c)
    ensures Standing(p, t) && (c.Ended? ==> Reached(p, t, c.how))
  {
  }

  lemma RunningIsUnconfirmed(p: Plan, t: Tally, c: Control)
    requires CapacityPlan(p) && Invariant(p, t, c) && !c.Ended?
    ensures Unconfirmed(p, t)
  {
    hide RoundRate, MaxRate, Settled, Count, Within;
  }

  lemma StopStands(p: Plan, t: Tally, c: Control, u: Tally, how: Ending)
    requires CapacityPlan(p) && Invariant(p, t, c) && !c.Ended? && (how == Stopped || how == Broken)
    requires u.passes == t.passes && u.fails == t.fails && u.res.unstable == t.res.unstable && SameClaims(u, t)
    ensures Standing(p, u) && Reached(p, u, how)
  {
    InvariantStands(p, t, c);
    RunningIsUnconfirmed(p, t, c);
    hide Invariant, RoundRate, MaxRate, Count, Within;
  }

  lemma SearchStands(p: Plan, w: World, m: Memory)
    requires CapacityPlan(p)
    ensures var f := Finish(p, w, m); Standing(p, f.t) && Reached(p, f.t, f.how)
  {
    InvariantStarts(p);
    DriveStanding(p, w, m, Empty(p), Begin(p));
  }

  // ---------------------------------------------------------------- what the result says

  ghost predicate Tested(t: Tally, x: real) { x in t.passes || x in t.fails }

  /** The reported bounds were both tested, in that order, and no tested rate lies between them. */
  ghost predicate TightBracket(t: Tally, lower: real, upper: real) {
    && lower in t.passes && upper in t.fails && lower < upper
    && forall x :: Tested(t, x) ==> x <= lower || upper <= x
  }

  lemma NoneAbove(p: Plan, t: Tally)
    requires Standing(p, t)
    ensures !PassAboveFailure(t)
  {
  }

  lemma BelowAll(v: seq<real>, hi: real)
    requires v != [] && AllBelow(v, hi)
    ensures Below(v, hi) != [] && Highest(Below(v, hi)) == Highest(v)
  {
    var b := Below(v, hi);
    assert Highest(v) in b;
    forall k | 0 <= k < |b| ensures b[k] <= Highest(v) { assert b[k] in v; }
    HighestIs(b, Highest(v));
  }

  /** The conclusion, case by case. */
  lemma Conclusion(p: Plan, t: Tally)
    requires CapacityPlan(p) && Standing(p, t)
    ensures
      var r := Conclude(p, t);
      && !r.nonMonotonic
      && r.upper == (if t.fails == [] then None else Some(Lowest(t.fails)))
      && if t.passes == [] then
           r.lower.None? && r.recommended.None? && r.class_ == (if t.fails == [] then Inconclusive else NoPass)
         else if t.fails == [] then
           r.class_ == LowerOnly && r.lower == Some(Highest(t.passes)) && r.recommended.None?
         else if t.res.unstable then
           && r.recommended.None? && r.class_ != LowerOnly
           && var below := Below(t.passes, Lowest(t.fails));
              r.lower == if below == [] then None else Some(Highest(below))
         else
           && r.lower == Some(Highest(t.passes))
           && r.class_ == (if RelativeWidth(Highest(t.passes), Lowest(t.fails)) <= p.width then Bounded else Wide)
           && r.recommended == if Count(t.passes, Highest(t.passes)) == p.repeats + 1
                               then Some(Operating(Highest(t.passes))) else None
  {
    NoneAbove(p, t);
    hide Count, Within, Operating, RelativeWidth, PassAboveFailure;
    if t.passes != [] && t.fails != [] && !t.res.unstable { BelowAll(t.passes, Lowest(t.fails)); }
  }

  /** In any capacity search, however it went and wherever it was stopped: no pass was recorded
      above a failure; there is a lower bound exactly when some rate passed below every failure,
      and an upper bound exactly when some rate failed; and the two form a tight bracket. */
  lemma CapacityBracket(p: Plan, w: World, m: Memory)
    requires CapacityPlan(p)
    ensures
      var t, r := Finish(p, w, m).t, Result(p, w, m);
      && !r.nonMonotonic
      && (r.lower.Some? <==> exists x :: x in t.passes && AllAbove(t.fails, x))
      && (r.upper.Some? <==> t.fails != [])
      && (r.lower.Some? ==> r.lower.value in t.passes && AllAbove(t.fails, r.lower.value))
      && (r.lower.Some? && r.upper.Some? ==> TightBracket(t, r.lower.value, r.upper.value))
  {
    SearchStands(p, w, m);
    hide Finish;
    ConclusionBrackets(p, Finish(p, w, m).t);
  }

  lemma ConclusionBrackets(p: Plan, t: Tally)
    requires CapacityPlan(p) && Standing(p, t)
    ensures
      var r := Conclude(p, t);
      && !r.nonMonotonic
      && (r.lower.Some? <==> exists x :: x in t.passes && AllAbove(t.fails, x))
      && (r.upper.Some? <==> t.fails != [])
      && (r.lower.Some? ==> r.lower.value in t.passes && AllAbove(t.fails, r.lower.value))
      && (r.lower.Some? && r.upper.Some? ==> TightBracket(t, r.lower.value, r.upper.value))
  {
    hide Conclude, Within, Count;
    Conclusion(p, t);
    if t.passes != [] {
      if t.fails == [] || !t.res.unstable {
        assert AllAbove(t.fails, Highest(t.passes));
      } else {
        var below := Below(t.passes, Lowest(t.fails));
        if x :| x in t.passes && AllAbove(t.fails, x) { assert x in below; }
        if below != [] { assert AllAbove(t.fails, Highest(below)); }
      }
    }
  }

  /** What the class of a capacity result says: whether anything passed or failed, whether a pass stands below
      every failure, and whether the bounds are within the target width; the reported width is the gap in
      terms of the lower bound (of 1 below that). */
  lemma ClassSaysWhatIsKnown(p: Plan, w: World, m: Memory)
    requires CapacityPlan(p)
    ensures ClassIsKnown(p, Finish(p, w, m).t, Result(p, w, m))
  {
    SearchStands(p, w, m);
    hide Finish;
    ConclusionClass(p, Finish(p, w, m).t);
  }

  /** The bounds are no further apart than this share of the lower one (of 1 below that). */
  predicate Near(width: real, lower: real, upper: real) { upper - lower <= width * Larger(lower, 1.0) }

  predicate IsWidth(width: real, lower: real, upper: real) { upper - lower == width * Larger(lower, 1.0) }

  ghost predicate ClassIsKnown(p: Plan, t: Tally, r: SearchResult) {
    && (r.class_ == Inconclusive <==> t.passes == [] && t.fails == [])
    && (r.class_ == NoPass <==> t.passes == [] && t.fails != [])
    && (r.class_ == LowerOnly <==> t.passes != [] && t.fails == [])
    && (r.class_ == Class.Unstable <==> t.passes != [] && t.fails != [] && r.lower.None?)
    && (r.class_ == Bounded <==> r.lower.Some? && r.upper.Some? && Near(p.width, r.lower.value, r.upper.value))
    && (r.class_ == Wide <==> r.lower.Some? && r.upper.Some? && !Near(p.width, r.lower.value, r.upper.value))
    && (r.width.Some? <==> r.lower.Some? && r.upper.Some?)
    && (r.width.Some? ==> IsWidth(r.width.value, r.lower.value, r.upper.value))
    && (r.unstable <==> t.res.unstable || r.class_ == Class.Unstable)
  }

  lemma ConclusionClass(p: Plan, t: Tally)
    requires CapacityPlan(p) && Standing(p, t)
    ensures ClassIsKnown(p, t, Conclude(p, t))
  {
    hide Standing, RelativeWidth, PassAboveFailure, Below, Highest, Lowest, Conclude, Near, IsWidth, CapacityPlan,
         Sound, Count, Larger, Operating, Recommend;
    NoneAbove(p, t);
    StandingClaimsNothing(p, t);
    if t.passes != [] && t.fails != [] {
      var below := Below(t.passes, Lowest(t.fails));
      ConcludeBetween(p, t);
      if below != [] { WidthIsRelative(Highest(below), Lowest(t.fails), p.width); }
    } else {
      ConcludeOpen(p, t);
    }
  }

  lemma ConcludeOpen(p: Plan, t: Tally)
    requires !PassAboveFailure(t) && t.res.class_ == Unmeasured && t.res.width.None? && t.res.lower.None?
    requires t.res.upper.None? && (t.passes == [] || t.fails == [])
    ensures
      var r := Conclude(p, t);
      && r.width.None? && r.unstable == t.res.unstable && (r.lower.None? || r.upper.None?)
      && r.class_ == if t.passes != [] then LowerOnly else if t.fails != [] then NoPass else Inconclusive
  {
    hide PassAboveFailure, Count, Operating, Highest, Lowest, RelativeWidth, Below;
  }

  lemma ConcludeBetween(p: Plan, t: Tally)
    requires !PassAboveFailure(t) && t.res.class_ == Unmeasured && t.res.width.None? && t.res.lower.None?
    requires t.passes != [] && t.fails != []
    ensures
      var r, hi := Conclude(p, t), Lowest(t.fails);
      var below := Below(t.passes, hi);
      && r.upper == Some(hi)
      && if below == [] then r.lower.None? && r.width.None? && r.unstable && r.class_ == Class.Unstable
         else
           var lo := Highest(below);
           && r.lower == Some(lo) && r.width == Some(RelativeWidth(lo, hi)) && r.unstable == t.res.unstable
           && r.class_ == if RelativeWidth(lo, hi) <= p.width then Bounded else Wide
  {
    hide PassAboveFailure, Count, Operating, Highest, Lowest, RelativeWidth, Below;
  }

  lemma StandingClaimsNothing(p: Plan, t: Tally)
    requires CapacityPlan(p) && Standing(p, t)
    ensures t.res.class_ == Unmeasured && t.res.lower.None? && t.res.upper.None? && t.res.width.None?
  {
  }

  lemma WidthIsRelative(lower: real, upper: real, width: real)
    ensures IsWidth(RelativeWidth(lower, upper), lower, upper)
    ensures RelativeWidth(lower, upper) <= width <==> Near(width, lower, upper)
  {
    var d, x := Larger(lower, 1.0), RelativeWidth(lower, upper);
    assert x * d == upper - lower;
    if x <= width { Scale(width, x, d); } else { Scale(x, width, d); }
  }

  /** A whole rate, the highest that is at most seven tenths of this one. */
  predicate SevenTenths(x: real, rate: real) {
    x.Floor as real == x && 10.0 * x <= 7.0 * rate < 10.0 * (x + 1.0)
  }

  /** A recommendation is made exactly when the lower bound passed Repeats + 1 times and a rate
      above it failed; it is then seven tenths of the highest pass, rounded down, so it lies below every rate
      that failed. A result that is only a lower bound never carries one. */
  lemma RecommendationIsConfirmed(p: Plan, w: World, m: Memory)
    requires CapacityPlan(p)
    ensures
      var t, r := Finish(p, w, m).t, Result(p, w, m);
      && (r.recommended.Some? <==> r.lower.Some? && r.upper.Some? && Count(t.passes, r.lower.value) == p.repeats + 1)
      && (r.recommended.Some? ==>
            && r.lower.value == Highest(t.passes) && AllAbove(t.fails, r.lower.value)
            && SevenTenths(r.recommended.value, r.lower.value)
            && 0.0 <= r.recommended.value < r.lower.value < r.upper.value)
      && (r.class_ == LowerOnly ==> r.recommended.None?)
  {
    SearchStands(p, w, m);
    hide Finish;
    ConclusionConfirms(p, Finish(p, w, m).t);
  }

  lemma ConclusionConfirms(p: Plan, t: Tally)
    requires CapacityPlan(p) && Standing(p, t)
    ensures
      var r := Conclude(p, t);
      && (r.recommended.Some? <==> r.lower.Some? && r.upper.Some? && Count(t.passes, r.lower.value) == p.repeats + 1)
      && (r.recommended.Some? ==>
            && r.lower.value == Highest(t.passes) && AllAbove(t.fails, r.lower.value)
            && SevenTenths(r.recommended.value, r.lower.value)
            && 0.0 <= r.recommended.value < r.lower.value < r.upper.value)
      && (r.class_ == LowerOnly ==> r.recommended.None?)
  {
    PassesArePositive(p, t);
    hide Conclude, Within, Count, Operating;
    Conclusion(p, t);
    if t.passes != [] && t.fails != [] {
      if t.res.unstable {
        var below := Below(t.passes, Lowest(t.fails));
        if below != [] { assert Highest(below) in t.passes && Highest(below) != Highest(t.passes); }
      } else {
        OperatingIsSevenTenths(Highest(t.passes));
      }
    }
  }

  lemma PassesArePositive(p: Plan, t: Tally)
    requires Standing(p, t)
    ensures t.passes != [] ==> Highest(t.passes) > 0.0
  {
  }

  lemma OperatingIsSevenTenths(rate: real)
    requires rate > 0.0
    ensures SevenTenths(Operating(rate), rate) && 0.0 <= Operating(rate) < rate
  {
  }
}
