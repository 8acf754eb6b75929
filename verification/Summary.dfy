/** The search result as a summary of the phase records: what is reported can be recomputed from
    the records alone. */
module Summary {
  import opened Plan
  import opened Search

  function RatesOf(v: seq<Record>, verdict: Verdict): seq<real>
    decreases |v|
  {
    if v == [] then []
    else
      var last := v[|v| - 1];
      RatesOf(v[..|v| - 1], verdict) + if last.outcome.verdict == verdict then [last.rate] else []
  }

  /** The measured seconds of the steps that passed. */
  function HealthySeconds(v: seq<Record>): real
    decreases |v|
  {
    if v == [] then 0.0
    else
      var last := v[|v| - 1];
      HealthySeconds(v[..|v| - 1]) + if last.outcome.verdict == Passed then last.outcome.seconds else 0.0
  }

  predicate FailedAt(r: Record, rate: real) { r.outcome.verdict == Failed && r.rate == rate }

  /** The reason of the last failure at the lowest failing rate. */
  predicate ModeOf(mode: string, v: seq<Record>, lowest: real) {
    exists k :: 0 <= k < |v| && FailedAt(v[k], lowest) && v[k].outcome.reason == mode
                && forall j :: k < j < |v| ==> !FailedAt(v[j], lowest)
  }

  /** A failed record says why. */
  predicate Explained(v: seq<Record>) {
    forall k :: 0 <= k < |v| && v[k].outcome.verdict == Failed ==> v[k].outcome.reason != ""
  }

  predicate Summarises(t: Tally, v: seq<Record>) {
    && t.passes == RatesOf(v, Passed) && t.fails == RatesOf(v, Failed)
    && t.res.healthy == HealthySeconds(v)
    && (Explained(v) ==> if t.fails == [] then t.res.failureMode == ""
         else ModeOf(t.res.failureMode, v, Lowest(t.fails)))
  }

  lemma Snoc(v: seq<Record>, r: Record, verdict: Verdict)
    ensures RatesOf(v + [r], verdict) == RatesOf(v, verdict) + if r.outcome.verdict == verdict then [r.rate] else []
    ensures HealthySeconds(v + [r])
            == HealthySeconds(v) + if r.outcome.verdict == Passed then r.outcome.seconds else 0.0
    ensures Explained(v + [r]) ==> Explained(v)
  {
    assert (v + [r])[..|v|] == v;
    if Explained(v + [r]) {
      forall k | 0 <= k < |v| && v[k].outcome.verdict == Failed ensures v[k].outcome.reason != "" {
        assert (v + [r])[k] == v[k];
      }
    }
  }

  lemma LowestSnoc(v: seq<real>, x: real)
    requires v != []
    ensures Lowest(v + [x]) == if x < Lowest(v) then x else Lowest(v)
  {
    assert (v + [x])[..|v|] == v;
  }

  lemma ModeKept(mode: string, v: seq<Record>, r: Record, lowest: real)
    requires ModeOf(mode, v, lowest) && !FailedAt(r, lowest)
    ensures ModeOf(mode, v + [r], lowest)
  {
    var k :| 0 <= k < |v| && FailedAt(v[k], lowest) && v[k].outcome.reason == mode
             && forall j :: k < j < |v| ==> !FailedAt(v[j], lowest);
    assert (v + [r])[k] == v[k];
  }

  lemma EnterSummarises(t: Tally, v: seq<Record>, r: Record)
    requires Summarises(t, v)
    ensures Summarises(Enter(t, r.rate, r.outcome), v + [r])
  {
    Snoc(v, r, Passed);
    Snoc(v, r, Failed);
    var u := Enter(t, r.rate, r.outcome);
    if Explained(v + [r]) {
      FailureModeFollows(t, v, r);
    }
  }

  lemma FailureModeFollows(t: Tally, v: seq<Record>, r: Record)
    requires Explained(v + [r]) && t.fails == RatesOf(v, Failed)
    requires if t.fails == [] then t.res.failureMode == "" else ModeOf(t.res.failureMode, v, Lowest(t.fails))
    ensures
      var u := Enter(t, r.rate, r.outcome);
      if u.fails == [] then u.res.failureMode == "" else ModeOf(u.res.failureMode, v + [r], Lowest(u.fails))
  {
    var u := Enter(t, r.rate, r.outcome);
    assert (v + [r])[|v|] == r;
    if r.outcome.verdict == Failed {
      if t.fails != [] { LowestSnoc(t.fails, r.rate); }
      if t.fails == [] || r.rate <= Lowest(t.fails) {
        assert FailedAt((v + [r])[|v|], Lowest(u.fails));
      } else {
        ModeIsExplained(t.res.failureMode, v, r, Lowest(t.fails));
        ModeKept(t.res.failureMode, v, r, Lowest(t.fails));
      }
    } else if t.fails != [] {
      ModeKept(t.res.failureMode, v, r, Lowest(t.fails));
    }
  }

  lemma ModeIsExplained(mode: string, v: seq<Record>, r: Record, lowest: real)
    requires Explained(v + [r]) && ModeOf(mode, v, lowest)
    ensures mode != ""
  {
    var k :| 0 <= k < |v| && FailedAt(v[k], lowest) && v[k].outcome.reason == mode;
    assert (v + [r])[k] == v[k];
  }

  lemma StepSummarises(p: Plan, w: World, m: Memory, t: Tally, q: Request)
    requires Summarises(t, m.completed)
    requires forall k :: 0 <= k < |m.replay| ==> !m.replay[k].outcome.broken
    ensures var s := Step(p, w, m, t, q); Summarises(s.t, s.m.completed)
    ensures var s := Step(p, w, m, t, q); forall k :: 0 <= k < |s.m.replay| ==> !s.m.replay[k].outcome.broken
  {
    hide Enter, MaxIndex, Summarises;
    var n := t.res.steps;
    SameTotals(t, t.(res := t.res.(stopReason := CANCEL)), m.completed);
    SameTotals(t, t.(res := t.res.(stopReason := BUDGET)), m.completed);
    var (m1, rec) := RunStep(w, m, n, q);
    var t1 := t.(res := t.res.(steps := n + 1));
    SameTotals(t, t1, m.completed);
    SameTotals(t1, t1.(res := t1.res.(stopReason := INFRASTRUCTURE)), m.completed);
    EnterSummarises(t1, m.completed, rec);
    assert rec.rate == q.rate;
  }

  lemma SameTotals(t: Tally, u: Tally, v: seq<Record>)
    requires Summarises(t, v) && u.passes == t.passes && u.fails == t.fails
    requires u.res.healthy == t.res.healthy && u.res.failureMode == t.res.failureMode
    ensures Summarises(u, v)
  {
  }

  lemma {:induction false} DriveSummarises(p: Plan, w: World, m: Memory, t: Tally, c: Control)
    requires Proper(p, c) && Started(t, c) && Summarises(t, m.completed)
    requires forall k :: 0 <= k < |m.replay| ==> !m.replay[k].outcome.broken
    ensures var f := Drive(p, w, m, t, c); Summarises(f.t, f.m.completed)
    decreases p.maxSteps - t.res.steps
  {
    hide Ask, Step, Summarises;
    if !c.Ended? {
      var s := Step(p, w, m, t, Ask(p, c));
      StepSummarises(p, w, m, t, Ask(p, c));
      if s.go {
        var (t1, c1) := After(p, s.t, c, s.verdict);
        SameTotals(s.t, t1, s.m.completed);
        DriveSummarises(p, w, s.m, t1, c1);
      }
    }
  }

  /** For every preset and every run, resumed or not: passes, failures and healthy seconds are
      those of the completed records, and the failure mode is the reason of the latest failure at
      the lowest failing rate. */
  lemma ResultSummarisesRecords(p: Plan, w: World, replay: seq<Record>)
    requires forall k :: 0 <= k < |replay| ==> !replay[k].outcome.broken
    ensures var f := Finish(p, w, Memory(replay, 0, [], [])); Summarises(f.t, f.m.completed)
  {
    DriveSummarises(p, w, Memory(replay, 0, [], []), Empty(p), Begin(p));
  }
}
