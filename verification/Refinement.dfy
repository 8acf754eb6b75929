/** How many refine steps a capacity search can take, whatever the target width. */
module Refinement {
  import opened Plan
  import opened Search
  import opened Boundary
  import opened Convergence

  function Ceil(x: real): int { -((-x).Floor) }

  /** The tenths strictly between two rates, when the lower one is a tenth. */
  function Tenths(lo: real, hi: real): (n: nat)
    requires lo < hi
  {
    Ceil((hi - lo) * 10.0) - 1
  }

  /** The whole rates from 10 up strictly between two rates. */
  function Wholes(lo: real, hi: real): nat {
    var first, end := if lo.Floor < 9 then 10 else lo.Floor + 1, Ceil(hi);
    if end > first then end - first else 0
  }

  /** How often n can be halved until nothing is left. */
  function Halvings(n: nat): nat { if n == 0 then 0 else 1 + Halvings(n / 2) }

  lemma {:induction false} HalvingsGrow(a: nat, b: nat)
    requires a <= b
    ensures Halvings(a) <= Halvings(b)
    decreases a
  {
    if a > 0 { HalvingsGrow(a / 2, b / 2); }
  }

  /** What is left to refine between two rates: a step to a whole rate uses one of these up, a step to a
      tenth halves the tenths. */
  function Left(lo: real, hi: real): nat
    requires lo < hi
  {
    Wholes(lo, hi) + Halvings(Tenths(lo, hi))
  }

  lemma WholeStep(lo: real, hi: real, mid: real)
    requires 0.0 < lo < mid < hi && (lo + hi) / 2.0 >= 10.0 && mid == RoundRate((lo + hi) / 2.0)
    ensures Left(lo, mid) < Left(lo, hi) && Left(mid, hi) < Left(lo, hi)
  {
    WholesUsed(lo, hi, mid);
    TenthsShrink(lo, hi, mid);
    HalvingsGrow(Tenths(lo, mid), Tenths(lo, hi));
    HalvingsGrow(Tenths(mid, hi), Tenths(lo, hi));
  }

  lemma WholesUsed(lo: real, hi: real, mid: real)
    requires 0.0 < lo < mid < hi && (lo + hi) / 2.0 >= 10.0 && mid == RoundRate((lo + hi) / 2.0)
    ensures Wholes(lo, mid) < Wholes(lo, hi) && Wholes(mid, hi) < Wholes(lo, hi)
  {
    var n := ((lo + hi) / 2.0 + 0.5).Floor;
    assert mid == n as real && n >= 10;
    hide RoundRate;
    WholeBetween(lo, hi, n);
  }

  lemma WholeBetween(lo: real, hi: real, n: int)
    requires lo < n as real < hi && n >= 10
    ensures Wholes(lo, n as real) < Wholes(lo, hi) && Wholes(n as real, hi) < Wholes(lo, hi)
  {
  }

  lemma TenthsShrink(lo: real, hi: real, mid: real)
    requires lo < mid < hi
    ensures Tenths(lo, mid) <= Tenths(lo, hi) && Tenths(mid, hi) <= Tenths(lo, hi)
    ensures Wholes(lo, mid) <= Wholes(lo, hi) && Wholes(mid, hi) <= Wholes(lo, hi)
  {
  }

  lemma TenthStep(lo: real, hi: real, mid: real)
    requires OnGrid(lo) && lo < mid < hi && (lo + hi) / 2.0 < 10.0 && mid == RoundRate((lo + hi) / 2.0)
    ensures Left(lo, mid) < Left(lo, hi) && Left(mid, hi) < Left(lo, hi)
  {
    TenthsHalve(lo, hi, mid);
    TenthsShrink(lo, hi, mid);
    HalvingsGrow(Tenths(lo, mid), Tenths(lo, hi) / 2);
    HalvingsGrow(Tenths(mid, hi), Tenths(lo, hi) / 2);
  }

  lemma TenthsHalve(lo: real, hi: real, mid: real)
    requires OnGrid(lo) && lo < mid < hi && (lo + hi) / 2.0 < 10.0 && mid == RoundRate((lo + hi) / 2.0)
    ensures Tenths(lo, hi) > 0
    ensures Tenths(lo, mid) <= Tenths(lo, hi) / 2 && Tenths(mid, hi) <= Tenths(lo, hi) / 2
  {
    var a, g := (lo * 10.0).Floor, (hi - lo) * 10.0;
    var h := (g / 2.0 + 0.5).Floor;
    RoundedTenths(lo, hi, a);
    assert (mid - lo) * 10.0 == h as real && (hi - mid) * 10.0 == g - h as real;
    hide RoundRate, OnGrid;
    HalfRounds(g);
  }

  lemma RoundedTenths(lo: real, hi: real, a: int)
    requires lo >= 0.1 && lo * 10.0 == a as real && lo < RoundRate((lo + hi) / 2.0) && (lo + hi) / 2.0 < 10.0
    ensures RoundRate((lo + hi) / 2.0) * 10.0 == (a + ((hi - lo) * 10.0 / 2.0 + 0.5).Floor) as real
  {
    var x := (hi - lo) * 10.0 / 2.0 + 0.5;
    assert (lo + hi) / 2.0 * 10.0 + 0.5 == a as real + x;
    FloorPlus(a, x);
  }

  lemma FloorPlus(a: int, x: real)
    ensures (a as real + x).Floor == a + x.Floor
  {
  }

  lemma HalfRounds(g: real)
    requires g > 0.0
    ensures
      var n, h := Ceil(g) - 1, (g / 2.0 + 0.5).Floor;
      && (0 < h && h as real < g ==> n > 0)
      && h - 1 <= n / 2 && Ceil(g - h as real) - 1 <= n / 2
  {
  }

  /** Below a gap of 2 at most seven steps are left: two to whole rates and five that halve 19 tenths. */
  lemma SmallGap(lo: real, hi: real)
    requires lo < hi < lo + 2.0
    ensures Left(lo, hi) <= 7
  {
    assert Tenths(lo, hi) <= 19 && Wholes(lo, hi) <= 2;
    HalvingsGrow(Tenths(lo, hi), 19);
    assert Halvings(19) == 5 by { assert Halvings(2) == 2 && Halvings(4) == 3 && Halvings(9) == 4; }
  }

  // ---------------------------------------------------------------- over a run

  function LeftOf(t: Tally): nat
    requires t.passes != [] && t.fails != [] && Highest(t.passes) < Lowest(t.fails)
  {
    Left(Highest(t.passes), Lowest(t.fails))
  }

  lemma EntryUsesUp(p: Plan, t: Tally, mid: real, u: Tally, verdict: Verdict)
    requires CapacityPlan(p) && t.passes != [] && t.fails != [] && OnGrid(Highest(t.passes))
    requires Invariant(p, t, Refining(mid)) && Entered(t, u, mid, verdict)
    ensures u.passes != [] && u.fails != [] && Highest(u.passes) < Lowest(u.fails) && OnGrid(Highest(u.passes))
    ensures Highest(t.passes) < Lowest(t.fails) && LeftOf(u) < LeftOf(t)
  {
    hide Invariant, Left, RoundRate, OnGrid, Entered, Highest, Lowest;
    MidpointOf(p, t, mid);
    BoundsAfter(p, t, mid, u, verdict);
    MidUsesUp(Highest(t.passes), Lowest(t.fails), mid);
  }

  lemma StepUsesUp(p: Plan, w: World, m: Memory, t: Tally, mid: real)
    requires CapacityPlan(p) && t.passes != [] && t.fails != [] && OnGrid(Highest(t.passes))
    requires Invariant(p, t, Refining(mid)) && Step(p, w, m, t, Ask(p, Refining(mid))).go
    ensures
      var u := Step(p, w, m, t, Ask(p, Refining(mid))).t;
      && u.passes != [] && u.fails != [] && Highest(u.passes) < Lowest(u.fails) && OnGrid(Highest(u.passes))
      && Highest(t.passes) < Lowest(t.fails) && LeftOf(u) < LeftOf(t)
  {
    hide Invariant, LeftOf, OnGrid, Highest, Lowest, Step;
    var s := Step(p, w, m, t, Ask(p, Refining(mid)));
    EntryUsesUp(p, t, mid, s.t, s.verdict);
  }

  lemma MidUsesUp(lo: real, hi: real, mid: real)
    requires OnGrid(lo) && 0.0 < lo < mid < hi && mid == RoundRate((lo + hi) / 2.0)
    ensures Left(lo, mid) < Left(lo, hi) && Left(mid, hi) < Left(lo, hi) && OnGrid(mid)
  {
    hide Left, RoundRate, OnGrid;
    RoundRateOnGrid((lo + hi) / 2.0);
    if (lo + hi) / 2.0 >= 10.0 { WholeStep(lo, hi, mid); } else { TenthStep(lo, hi, mid); }
  }

  lemma RefiningLeavesSome(p: Plan, t: Tally, mid: real)
    requires CapacityPlan(p) && t.passes != [] && t.fails != [] && OnGrid(Highest(t.passes))
    requires Invariant(p, t, Refining(mid))
    ensures Highest(t.passes) < Lowest(t.fails) && LeftOf(t) > 0
  {
    hide Invariant, Left, RoundRate, OnGrid;
    MidpointOf(p, t, mid);
    MidUsesUp(Highest(t.passes), Lowest(t.fails), mid);
  }

  lemma BoundsApart(p: Plan, t: Tally)
    requires CapacityPlan(p) && t.passes != [] && t.fails != [] && Invariant(p, t, RefineOrConfirm(p, t))
    ensures Highest(t.passes) < Lowest(t.fails)
  {
  }

  /** Every refine step uses up part of what is left. */
  lemma {:induction false} RunUsesUp(p: Plan, w: World, m: Memory, t: Tally, k: nat)
    requires CapacityPlan(p) && t.passes != [] && t.fails != [] && Invariant(p, t, RefineOrConfirm(p, t))
    requires OnGrid(Highest(t.passes)) && Highest(t.passes) < Lowest(t.fails)
    requires RefineRun(p, w, m, t, RefineOrConfirm(p, t), k).Some?
    requires RefineRun(p, w, m, t, RefineOrConfirm(p, t), k).value.1.Refining?
    ensures k < LeftOf(t)
    decreases k
  {
    hide Step, Invariant, RefineOrConfirm, Entered, LeftOf, After, Ask, Highest, Lowest, OnGrid;
    if k > 0 {
      var c := RefineOrConfirm(p, t);
      RefineOnce(p, w, m, t, c.mid);
      StepUsesUp(p, w, m, t, c.mid);
      var s := Step(p, w, m, t, Ask(p, c));
      RunUsesUp(p, w, s.m, s.t, k - 1);
    } else {
      RefiningLeavesSome(p, t, RefineOrConfirm(p, t).mid);
    }
  }

  lemma {:induction false} FewStepsFrom(p: Plan, w: World, m: Memory, t: Tally, k: nat)
    requires CapacityPlan(p) && t.passes != [] && t.fails != [] && Invariant(p, t, RefineOrConfirm(p, t))
    requires OnGrid(Highest(t.passes)) && Highest(t.passes) < Lowest(t.fails) && k >= 7
    requires RefineRun(p, w, m, t, RefineOrConfirm(p, t), k).Some?
    requires RefineRun(p, w, m, t, RefineOrConfirm(p, t), k).value.1.Refining?
    ensures Doubled(k - 7, 1.0) <= Gap(t) - 1.0
    decreases k
  {
    hide Step, Invariant, RefineOrConfirm, Entered, LeftOf, After, Ask, Highest, Lowest, OnGrid;
    RunUsesUp(p, w, m, t, k);
    if Gap(t) < 2.0 {
      LeftIsSmall(t);
    } else if k > 7 {
      var c := RefineOrConfirm(p, t);
      RefineOnce(p, w, m, t, c.mid);
      StepUsesUp(p, w, m, t, c.mid);
      var s := Step(p, w, m, t, Ask(p, c));
      FewStepsFrom(p, w, s.m, s.t, k - 1);
    }
  }

  lemma LeftIsSmall(t: Tally)
    requires t.passes != [] && t.fails != [] && Highest(t.passes) < Lowest(t.fails) && Gap(t) < 2.0
    ensures LeftOf(t) <= 7
  {
    SmallGap(Highest(t.passes), Lowest(t.fails));
  }

  /** The number of refine steps is logarithmic in the first gap, for every target width: whenever another
      one is asked for after k of them, 2^(k - 7) is at most gap - 1. */
  lemma RefineStepsAreFew(p: Plan, w: World, m: Memory, t: Tally, k: nat)
    requires CapacityPlan(p) && t.passes != [] && t.fails != [] && Invariant(p, t, RefineOrConfirm(p, t))
    requires AllGridded(p, t.passes) && k >= 7
    requires RefineRun(p, w, m, t, RefineOrConfirm(p, t), k).Some?
    requires RefineRun(p, w, m, t, RefineOrConfirm(p, t), k).value.1.Refining?
    ensures Doubled(k - 7, 1.0) <= Gap(t) - 1.0
  {
    BoundsApart(p, t);
    LowestFailWithin(p, t);
    FewStepsFrom(p, w, m, t, k);
  }

  lemma LowestFailWithin(p: Plan, t: Tally)
    requires t.passes != [] && t.fails != [] && Invariant(p, t, RefineOrConfirm(p, t))
    ensures Lowest(t.fails) <= MaxRate(p)
  {
  }
}
