/** The boundary search: which load step it asks for next, and what it concludes.

    `Drive` is the search as a machine that asks for one step at a time; module Searcher holds the
    program's own loops, proved to do exactly what the machine does. Everything the outside world
    decides (a stop request, the budget, how a step turned out) is a `World` indexed by the number
    of steps the search has asked for before.
 */
module Search {
  import opened Plan

  datatype Kind = QuickStep | SoakStep | ResilienceStep | RampStep | RefineStep | ConfirmStep

  datatype Request = Request(rate: real, kind: Kind, hold: real)

  datatype Verdict = Passed | Failed | Unsettled

  /** How an executed step turned out; `broken` is a controller failure. */
  datatype Outcome = Outcome(verdict: Verdict, reason: string, seconds: real, cancelled: bool, broken: bool)

  datatype Record = Record(index: nat, kind: Kind, rate: real, outcome: Outcome)

  datatype World = World(
    stopped: nat -> bool, affordable: (nat, real) -> bool, outcome: (nat, Request) -> Outcome)

  datatype Class =
    | Bounded | Wide | LowerOnly | NoPass | Unstable | Inconclusive | Regression | Soaked | Resilient | Unmeasured

  datatype SearchResult = SearchResult(
    class_: Class, lower: Option<real>, upper: Option<real>, recommended: Option<real>, width: Option<real>,
    healthy: real, stopReason: string, failureMode: string, unstable: bool, nonMonotonic: bool, steps: nat)

  const CANCEL := "manual_cancel"
  const BUDGET := "budget_limit"
  const POLICY := "policy_limit"
  const INFRASTRUCTURE := "infrastructure_failure"

  // ---------------------------------------------------------------- extremes

  function Highest(v: seq<real>): (m: real)
    requires v != []
    ensures m in v
    ensures forall k :: 0 <= k < |v| ==> v[k] <= m
    decreases |v|
  {
    var last := v[|v| - 1];
    if |v| == 1 then last
    else
      var rest := Highest(v[..|v| - 1]);
      if last > rest then last else rest
  }

  function Lowest(v: seq<real>): (m: real)
    requires v != []
    ensures m in v
    ensures forall k :: 0 <= k < |v| ==> m <= v[k]
    decreases |v|
  {
    var last := v[|v| - 1];
    if |v| == 1 then last
    else
      var rest := Lowest(v[..|v| - 1]);
      if last < rest then last else rest
  }

  /** None stands for the infinity of an empty fold. */
  method MaxOf(v: seq<real>) returns (m: Option<real>)
    ensures m == if v == [] then None else Some(Highest(v))
  {
    m := None;
    for i := 0 to |v|
      invariant m == if i == 0 then None else Some(Highest(v[..i]))
    {
      assert v[..i + 1][..i] == v[..i];
      if m.None? || v[i] > m.value { m := Some(v[i]); }
    }
    assert v[..|v|] == v;
  }

  method MinOf(v: seq<real>) returns (m: Option<real>)
    ensures m == if v == [] then None else Some(Lowest(v))
  {
    m := None;
    for i := 0 to |v|
      invariant m == if i == 0 then None else Some(Lowest(v[..i]))
    {
      assert v[..i + 1][..i] == v[..i];
      if m.None? || v[i] < m.value { m := Some(v[i]); }
    }
    assert v[..|v|] == v;
  }

  function Larger(x: real, y: real): real { if x >= y then x else y }

  function Smaller(x: real, y: real): real { if x <= y then x else y }

  // ---------------------------------------------------------------- the controller's side of a step

  /** What the controller remembers: recorded steps still to be replayed, the last phase index and
      the records of this run, those it executed apart. */
  datatype Memory = Memory(replay: seq<Record>, phaseN: nat, completed: seq<Record>, executed: seq<Record>)

  function MaxIndex(n: nat, records: seq<Record>): nat
    decreases |records|
  {
    if records == [] then n else MaxIndex(if records[0].index > n then records[0].index else n, records[1..])
  }

  /** The recorded step if the search asks for it again; otherwise the replay is over for good. */
  function ReplayStep(m: Memory, q: Request): (Memory, Option<Record>) {
    if m.replay == [] then (m, None)
    else
      var rec := m.replay[0];
      if rec.rate != q.rate || rec.kind != q.kind then
        (m.(replay := [], phaseN := MaxIndex(m.phaseN, m.replay)), None)
      else
        (m.(replay := m.replay[1..], phaseN := rec.index, completed := m.completed + [rec]), Some(rec))
  }

  function RunStep(world: World, m: Memory, n: nat, q: Request): (Memory, Record) {
    var (m1, hit) := ReplayStep(m, q);
    if hit.Some? then (m1, hit.value)
    else
      var rec := Record(m1.phaseN + 1, q.kind, q.rate, world.outcome(n, q));
      var completed := if rec.outcome.broken then m1.completed else m1.completed + [rec];
      (Memory(m1.replay, m1.phaseN + 1, completed, m1.executed + [rec]),
       rec)
  }

  // ---------------------------------------------------------------- one step of the search

  datatype Tally = Tally(passes: seq<real>, fails: seq<real>, res: SearchResult)

  datatype Stepped = Stepped(m: Memory, t: Tally, verdict: Verdict, go: bool, error: bool)

  /** Nothing is concluded while the search still runs. */
  predicate SameClaims(t: Tally, u: Tally) {
    && t.res.class_ == u.res.class_ && t.res.lower == u.res.lower && t.res.upper == u.res.upper
    && t.res.recommended == u.res.recommended && t.res.width == u.res.width && t.res.nonMonotonic == u.res.nonMonotonic
  }

  function Halt(m: Memory, t: Tally, reason: string): Stepped {
    Stepped(m, t.(res := t.res.(stopReason := reason)), Unsettled, false, false)
  }

  /** The outcome of an asked step entered into the tally. */
  function Enter(t: Tally, rate: real, o: Outcome): (t1: Tally)
    ensures t1.res.steps == t.res.steps && t1.res.unstable == t.res.unstable && SameClaims(t1, t)
  {
    match o.verdict
    case Passed => t.(passes := t.passes + [rate], res := t.res.(healthy := t.res.healthy + o.seconds))
    case Failed =>
      var fails := t.fails + [rate];
      t.(fails := fails,
         res := if t.res.failureMode == "" || rate <= Lowest(fails) then t.res.(failureMode := o.reason) else t.res)
    case Unsettled => t.(res := t.res.(stopReason := if o.cancelled then CANCEL else o.reason))
  }

  function Step(p: Plan, world: World, m: Memory, t: Tally, q: Request): (s: Stepped)
    ensures s.go ==>
      && s.verdict != Unsettled && s.t.res.steps == t.res.steps + 1 <= p.maxSteps
      && s.t.passes == t.passes + (if s.verdict == Passed then [q.rate] else [])
      && s.t.fails == t.fails + (if s.verdict == Failed then [q.rate] else [])
    ensures !s.go ==> s.t.passes == t.passes && s.t.fails == t.fails
    ensures s.t.res.unstable == t.res.unstable && SameClaims(s.t, t)
  {
    var n := t.res.steps;
    if world.stopped(n) then Halt(m, t, CANCEL)
    else if n >= p.maxSteps || !world.affordable(n, q.hold) then Halt(m, t, BUDGET)
    else
      var (m1, rec) := RunStep(world, m, n, q);
      var t1 := t.(res := t.res.(steps := n + 1));
      if rec.outcome.broken then Halt(m1, t1, INFRASTRUCTURE).(error := true)
      else Stepped(m1, Enter(t1, q.rate, rec.outcome), rec.outcome.verdict, rec.outcome.verdict != Unsettled, false)
  }

  // ---------------------------------------------------------------- the whole search

  datatype Ending = Listed | NothingPassed | Capped | Confirmed | Refuted | Stopped | Broken

  datatype Control =
    | Listing(k: nat)
    | Ramping(rate: real)
    | Refining(mid: real)
    | Confirming(candidate: real, i: nat)
    | Ended(how: Ending)

  function Fixed(p: Plan): bool { !p.preset.Capacity? }

  predicate Proper(p: Plan, c: Control) { c.Listing? ==> Fixed(p) && c.k < |PlanRates(p)| }

  function FixedKind(p: Plan): Kind {
    match p.preset case Quick => QuickStep case Soak => SoakStep case _ => ResilienceStep
  }

  function FixedHold(p: Plan): real { if p.preset.Soak? then p.candidateHold else p.measure }

  function FixedClass(p: Plan): Class {
    match p.preset case Quick => Regression case Soak => Soaked case _ => Resilient
  }

  function Ask(p: Plan, c: Control): Request
    requires Proper(p, c) && !c.Ended?
  {
    match c
    case Listing(k) => Request(PlanRates(p)[k], FixedKind(p), FixedHold(p))
    case Ramping(rate) => Request(rate, RampStep, p.measure)
    case Refining(mid) => Request(mid, RefineStep, p.measure)
    case Confirming(candidate, _) => Request(candidate, ConfirmStep, p.candidateHold)
  }

  function FirstRate(p: Plan): real { Smaller(RoundRate(p.initial), MaxRate(p)) }

  function Grown(p: Plan, rate: real): real { rate * p.rampFactor }

  function NextRate(p: Plan, rate: real): real { Smaller(RoundRate(Grown(p, rate)), MaxRate(p)) }

  function Begin(p: Plan): Control { if Fixed(p) then Listing(0) else Ramping(FirstRate(p)) }

  /** The gap that is good enough above `lo`. */
  function Target(p: Plan, lo: real): real { p.width * Larger(lo, 1.0) }

  function Midpoint(lo: real, hi: real): real { RoundRate((lo + hi) / 2.0) }

  /** Nothing more to refine: the gap is within the target width, or the grid has no rate in it. */
  predicate Settled(p: Plan, lo: real, hi: real) {
    hi - lo <= Target(p, lo) || !(lo < Midpoint(lo, hi) < hi)
  }

  function RefineOrConfirm(p: Plan, t: Tally): Control
    requires t.passes != [] && t.fails != []
  {
    var lo, hi := Highest(t.passes), Lowest(t.fails);
    if !Settled(p, lo, hi) then Refining(Midpoint(lo, hi))
    else if p.repeats > 0 then Confirming(lo, 0)
    else Ended(Confirmed)
  }

  /** What the search does after a step that passed or failed. */
  function After(p: Plan, t: Tally, c: Control, verdict: Verdict): (Tally, Control)
    requires Proper(p, c) && !c.Ended? && verdict != Unsettled
    requires if verdict == Passed then t.passes != [] else t.fails != []
    requires c.Refining? ==> t.passes != [] && t.fails != []
    ensures
      var (t1, c1) := After(p, t, c, verdict);
      && Proper(p, c1) && Started(t1, c1)
      && t1.passes == t.passes && t1.fails == t.fails && t1.res.steps == t.res.steps && SameClaims(t1, t)
  {
    match c
    case Listing(k) => (t, if k + 1 < |PlanRates(p)| then Listing(k + 1) else Ended(Listed))
    case Ramping(rate) =>
      if verdict == Failed then
        (t, if t.passes == [] then Ended(NothingPassed) else RefineOrConfirm(p, t))
      else if NextRate(p, rate) <= rate then
        (t.(res := t.res.(stopReason := if MaxRate(p) < p.budget then POLICY else BUDGET)), Ended(Capped))
      else (t, Ramping(NextRate(p, rate)))
    case Refining(_) => (t, RefineOrConfirm(p, t))
    case Confirming(candidate, i) =>
      if verdict == Failed then (t.(res := t.res.(unstable := true)), Ended(Refuted))
      else (t, if i + 1 < p.repeats then Confirming(candidate, i + 1) else Ended(Confirmed))
  }

  datatype Final = Final(m: Memory, t: Tally, how: Ending)

  predicate Started(t: Tally, c: Control) { c.Refining? ==> t.passes != [] && t.fails != [] }

  function Drive(p: Plan, world: World, m: Memory, t: Tally, c: Control): Final
    requires Proper(p, c) && Started(t, c)
    decreases p.maxSteps - t.res.steps
  {
    if c.Ended? then Final(m, t, c.how)
    else
      var s := Step(p, world, m, t, Ask(p, c));
      if !s.go then Final(s.m, s.t, if s.error then Broken else Stopped)
      else
        var (t1, c1) := After(p, s.t, c, s.verdict);
        Drive(p, world, s.m, t1, c1)
  }

  // ---------------------------------------------------------------- the conclusion

  function Count(v: seq<real>, x: real): nat { multiset(v)[x] }

  predicate SomeAbove(passes: seq<real>, fails: seq<real>) {
    exists i, j :: 0 <= i < |fails| && 0 <= j < |passes| && passes[j] > fails[i]
  }

  predicate PassAboveFailure(t: Tally) { SomeAbove(t.passes, t.fails) }

  /** The passes strictly below every failure. */
  function Below(v: seq<real>, hi: real): (b: seq<real>)
    ensures forall x :: x in b <==> x in v && x < hi
    decreases |v|
  {
    if v == [] then []
    else
      var rest := Below(v[..|v| - 1], hi);
      assert v == v[..|v| - 1] + [v[|v| - 1]];
      if v[|v| - 1] < hi then rest + [v[|v| - 1]] else rest
  }

  const FACTOR: real := 0.7

  /** The operating policy: a fixed fraction of the confirmed rate, rounded down. */
  function Operating(rate: real): real { (rate * FACTOR).Floor as real }

  function RelativeWidth(lower: real, upper: real): real { (upper - lower) / Larger(lower, 1.0) }

  function Conclude(p: Plan, t: Tally): SearchResult {
    var r := if PassAboveFailure(t) then t.res.(nonMonotonic := true) else t.res;
    if r.class_ in {Regression, Soaked, Resilient} then
      r.(lower := if t.passes == [] then r.lower else Some(Highest(t.passes)),
         upper := if t.fails == [] then r.upper else Some(Lowest(t.fails)))
    else if t.passes == [] then
      if t.fails == [] then r.(class_ := Inconclusive) else r.(class_ := NoPass, upper := Some(Lowest(t.fails)))
    else if t.fails == [] then
      Recommend(p, t, r.(class_ := LowerOnly, lower := Some(Highest(t.passes))), Highest(t.passes))
    else
      var hi := Lowest(t.fails);
      var below := Below(t.passes, hi);
      if below == [] then r.(class_ := Unstable, unstable := true, upper := Some(hi))
      else
        var lower := Highest(below);
        var width := RelativeWidth(lower, hi);
        Recommend(p, t, r.(class_ := if width <= p.width then Bounded else Wide,
                           lower := Some(lower), upper := Some(hi), width := Some(width)), lower)
  }

  function Recommend(p: Plan, t: Tally, r: SearchResult, lower: real): SearchResult {
    if r.unstable || r.nonMonotonic || Count(t.passes, lower) <= p.repeats then r
    else r.(recommended := Some(Operating(lower)))
  }

  function Empty(p: Plan): Tally {
    Tally([], [], SearchResult(if Fixed(p) then FixedClass(p) else Unmeasured,
                               None, None, None, None, 0.0, "", "", false, false, 0))
  }

  function Finish(p: Plan, world: World, m: Memory): Final { Drive(p, world, m, Empty(p), Begin(p)) }

  /** The result of a search. */
  function Result(p: Plan, world: World, m: Memory): SearchResult { Conclude(p, Finish(p, world, m).t) }
}
