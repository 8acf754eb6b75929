/** The program's own loops: the controller that answers a step from its records or executes it,
    and the searcher that drives it. Each method is proved to do what the machine of module Search
    does, so every result about the machine is a result about these loops. */
module Searcher {
  import opened Plan
  import S = Search
  import opened Search

  class Controller {
    const world: World
    var replay: seq<Record>
    var phaseN: nat
    var completed: seq<Record>
    var executed: seq<Record>

    constructor (world: World, replay: seq<Record>)
      ensures this.world == world && Memory() == Search.Memory(replay, 0, [], [])
    {
      this.world, this.replay, phaseN, completed, executed := world, replay, 0, [], [];
    }

    function Memory(): Search.Memory
      reads this
    {
      Search.Memory(replay, phaseN, completed, executed)
    }

    method ReplayStep(q: Request) returns (hit: Option<Record>)
      modifies this
      ensures (Memory(), hit) == S.ReplayStep(old(Memory()), q)
    {
      if |replay| == 0 {
        return None;
      }
      var rec := replay[0];
      if rec.rate != q.rate || rec.kind != q.kind {
        ghost var before := phaseN;
        for i := 0 to |replay|
          invariant replay == old(replay) && completed == old(completed) && executed == old(executed)
          invariant MaxIndex(before, replay) == MaxIndex(phaseN, replay[i..])
        {
          if replay[i].index > phaseN { phaseN := replay[i].index; }
        }
        replay := [];
        return None;
      }
      replay, phaseN, completed := replay[1..], rec.index, completed + [rec];
      return Some(rec);
    }

    /** `n` is the number of steps the search has asked for before. */
    method RunStep(n: nat, q: Request) returns (rec: Record)
      modifies this
      ensures (Memory(), rec) == S.RunStep(world, old(Memory()), n, q)
    {
      var hit := ReplayStep(q);
      if hit.Some? {
        return hit.value;
      }
      phaseN := phaseN + 1;
      rec := Record(phaseN, q.kind, q.rate, world.outcome(n, q));
      executed := executed + [rec];
      if !rec.outcome.broken { completed := completed + [rec]; }
    }
  }

  class Searcher {
    const p: Plan
    const maxRate: real
    const run: Controller
    var res: SearchResult
    var passes: seq<real>
    var fails: seq<real>

    constructor (p: Plan, run: Controller)
      ensures this.p == p && this.run == run && maxRate == MaxRate(p)
      ensures Tally() == Empty(p).(res := Empty(p).res.(class_ := Unmeasured))
    {
      this.p, this.run, maxRate := p, run, MaxRate(p);
      res := SearchResult(Unmeasured, None, None, None, None, 0.0, "", "", false, false, 0);
      passes, fails := [], [];
    }

    function Tally(): Search.Tally
      reads this
    {
      Search.Tally(passes, fails, res)
    }

    method Step(q: Request) returns (verdict: Verdict, go: bool, error: bool)
      modifies this, run
      ensures
        var s := S.Step(p, run.world, old(run.Memory()), old(Tally()), q);
        && run.Memory() == s.m && Tally() == s.t && go == s.go && error == s.error
        && (go ==> verdict == s.verdict)
    {
      hide S.RunStep, Enter;
      if run.world.stopped(res.steps) {
        res := res.(stopReason := CANCEL);
        return Unsettled, false, false;
      }
      if res.steps >= p.maxSteps || !run.world.affordable(res.steps, q.hold) {
        res := res.(stopReason := BUDGET);
        return Unsettled, false, false;
      }
      var rec := run.RunStep(res.steps, q);
      res := res.(steps := res.steps + 1);
      if rec.outcome.broken {
        res := res.(stopReason := INFRASTRUCTURE);
        return Unsettled, false, true;
      }
      RecordOutcome(q.rate, rec.outcome);
      return rec.outcome.verdict, rec.outcome.verdict != Unsettled, false;
    }

    /** The second half of a step: its outcome goes into the tally. */
    method RecordOutcome(rate: real, o: Outcome)
      modifies this
      ensures Tally() == Enter(old(Tally()), rate, o)
    {
      match o.verdict {
        case Passed =>
          passes := passes + [rate];
          res := res.(healthy := res.healthy + o.seconds);
        case Failed =>
          fails := fails + [rate];
          var low := MinOf(fails);
          if res.failureMode == "" || rate <= low.value {
            res := res.(failureMode := o.reason);
          }
        case Unsettled =>
          res := res.(stopReason := o.reason);
          if o.cancelled { res := res.(stopReason := CANCEL); }
      }
    }

    method RunFixed() returns (error: bool)
      requires Fixed(p) && res.steps == 0
      modifies this, run
      ensures
        var t := old(Tally()).(res := old(res).(class_ := FixedClass(p)));
        var f := Drive(p, run.world, old(run.Memory()), t, Listing(0));
        run.Memory() == f.m && Tally() == f.t && error == (f.how == Broken)
    {
      hide S.RunStep, Enter;
      var rates := PlanRates(p);
      res := res.(class_ := FixedClass(p));
      ghost var f := Drive(p, run.world, run.Memory(), Tally(), Listing(0));
      var k := 0;
      while k < |rates|
        invariant 0 <= k <= |rates|
        invariant Drive(p, run.world, run.Memory(), Tally(), if k < |rates| then Listing(k) else Ended(Listed)) == f
      {
        var verdict, go, broken := Step(Request(rates[k], FixedKind(p), FixedHold(p)));
        if broken || !go {
          return broken;
        }
        k := k + 1;
      }
      return false;
    }

    method RunCapacity() returns (error: bool)
      requires !Fixed(p) && res.steps == 0 && maxRate == MaxRate(p)
      modifies this, run
      ensures
        var f := Drive(p, run.world, old(run.Memory()), old(Tally()), Begin(p));
        run.Memory() == f.m && Tally() == f.t && error == (f.how == Broken)
    {
      hide S.RunStep, Enter, RoundRate, Grown;
      ghost var f := Drive(p, run.world, run.Memory(), Tally(), Begin(p));
      error := false;
      var rate := Smaller(RoundRate(p.initial), maxRate);
      // Each turn offers one ramp rate.
      while true
        invariant Drive(p, run.world, run.Memory(), Tally(), Ramping(rate)) == f
        decreases p.maxSteps - res.steps
      {
        var verdict, go, broken := Step(Request(rate, RampStep, p.measure));
        if broken || !go {
          return broken;
        }
        if verdict == Failed {
          break;
        }
        var next := Smaller(RoundRate(Grown(p, rate)), maxRate);
        if next <= rate {
          res := res.(stopReason := BUDGET);
          if maxRate < p.budget { res := res.(stopReason := POLICY); }
          return;
        }
        rate := next;
      }
      if |passes| == 0 {
        return;
      }
      error := Refine(f);
    }

    /** The machine refines once. */
    static lemma RefineOnce(p: Plan, world: World, m: Search.Memory, t: Search.Tally, mid: real)
      requires t.passes != [] && t.fails != []
      ensures
        var s := S.Step(p, world, m, t, Request(mid, RefineStep, p.measure));
        && (s.error ==> !s.go)
        && (s.go ==> s.t.passes != [] && s.t.fails != [])
        && Drive(p, world, m, t, Refining(mid))
           == if s.go then Drive(p, world, s.m, s.t, RefineOrConfirm(p, s.t))
              else Final(s.m, s.t, if s.error then Broken else Stopped)
    {
      hide S.RunStep, Enter, RefineOrConfirm;
    }

    /** The bisection loop, and what follows it. */
    method Refine(ghost f: Final) returns (error: bool)
      requires passes != [] && fails != []
      requires f == Drive(p, run.world, run.Memory(), Tally(), RefineOrConfirm(p, Tally()))
      modifies this, run
      ensures run.Memory() == f.m && Tally() == f.t && error == (f.how == Broken)
    {
      hide Drive, S.Step, S.RunStep, Enter, After, Target, Midpoint, Highest, Lowest;
      while true
        invariant passes != [] && fails != []
        invariant Drive(p, run.world, run.Memory(), Tally(), RefineOrConfirm(p, Tally())) == f
        decreases p.maxSteps - res.steps
      {
        var highest := MaxOf(passes);
        var lowest := MinOf(fails);
        var lo, hi := highest.value, lowest.value;
        if hi - lo <= Target(p, lo) {
          break;
        }
        var mid := Midpoint(lo, hi);
        if mid <= lo || mid >= hi {
          break;
        }
        RefineOnce(p, run.world, run.Memory(), Tally(), mid);
        var verdict, go, broken := Step(Request(mid, RefineStep, p.measure));
        if broken || !go {
          return broken;
        }
      }
      var candidate := MaxOf(passes);
      error := Confirm(f, candidate.value);
    }

    /** The repeated holds at the candidate rate. */
    method Confirm(ghost f: Final, candidate: real) returns (error: bool)
      requires f == Drive(p, run.world, run.Memory(), Tally(),
                          if p.repeats > 0 then Confirming(candidate, 0) else Ended(Confirmed))
      modifies this, run
      ensures run.Memory() == f.m && Tally() == f.t && error == (f.how == Broken)
    {
      hide S.RunStep, Enter;
      var i := 0;
      while i < p.repeats
        invariant 0 <= i && (p.repeats > 0 ==> i <= p.repeats)
        invariant Drive(p, run.world, run.Memory(), Tally(),
                        if i < p.repeats then Confirming(candidate, i) else Ended(Confirmed)) == f
      {
        var verdict, go, broken := Step(Request(candidate, ConfirmStep, p.candidateHold));
        if broken || !go {
          return broken;
        }
        if verdict == Failed {
          res := res.(unstable := true);
          return false;
        }
        i := i + 1;
      }
      return false;
    }

    /** The conclusion, drawn in place. */
    method Finish()
      modifies this
      ensures passes == old(passes) && fails == old(fails)
      ensures res == Conclude(p, old(Tally()))
    {
      hide PassAboveFailure, Operating, RelativeWidth, Count;
      MarkNonMonotonic();
      if res.class_ == Regression || res.class_ == Soaked || res.class_ == Resilient {
        if |passes| > 0 {
          var v := MaxOf(passes);
          res := res.(lower := v);
        }
        if |fails| > 0 {
          var v := MinOf(fails);
          res := res.(upper := v);
        }
        return;
      }
      if |passes| == 0 && |fails| > 0 {
        var v := MinOf(fails);
        res := res.(class_ := NoPass, upper := v);
        return;
      }
      if |passes| == 0 {
        res := res.(class_ := Inconclusive);
        return;
      }
      var top := MaxOf(passes);
      var lower := top.value;
      if |fails| > 0 {
        var lowest := MinOf(fails);
        var hi := lowest.value;
        var highest := HighestBelow(hi);
        if highest.None? {
          res := res.(class_ := Unstable, unstable := true, upper := Some(hi));
          return;
        }
        lower := highest.value;
        var width := RelativeWidth(lower, hi);
        res := res.(upper := Some(hi), width := Some(width), class_ := Wide);
        if width <= p.width { res := res.(class_ := Bounded); }
      } else {
        res := res.(class_ := LowerOnly);
      }
      res := res.(lower := Some(lower));
      if res.unstable || res.nonMonotonic {
        return;
      }
      var confirmed := Confirmations(lower);
      if confirmed > p.repeats { res := res.(recommended := Some(Operating(lower))); }
    }

    /** A pass above a failure makes the result non-monotonic. */
    method MarkNonMonotonic()
      modifies this`res
      ensures res == if PassAboveFailure(old(Tally())) then old(res).(nonMonotonic := true) else old(res)
    {
      ghost var r := res;
      for i := 0 to |fails|
        invariant res == if SomeAbove(passes, fails[..i]) then r.(nonMonotonic := true) else r
      {
        for j := 0 to |passes|
          invariant res == if SomeAbove(passes, fails[..i]) || SomeAbove(passes[..j], [fails[i]])
                           then r.(nonMonotonic := true) else r
        {
          OnePassMore(passes, j, fails[i]);
          if passes[j] > fails[i] { res := res.(nonMonotonic := true); }
        }
        assert passes[..|passes|] == passes;
        OneFailureMore(passes, fails, i);
      }
      assert fails[..|fails|] == fails;
    }

    static lemma OnePassMore(passes: seq<real>, j: nat, f: real)
      requires j < |passes|
      ensures SomeAbove(passes[..j + 1], [f]) <==> SomeAbove(passes[..j], [f]) || passes[j] > f
    {
      var v := passes[..j + 1];
      if passes[j] > f { assert v[j] > [f][0]; }
      if SomeAbove(passes[..j], [f]) {
        var i, k :| 0 <= i < 1 && 0 <= k < j && passes[..j][k] > [f][i];
        assert v[k] > [f][i];
      }
      if SomeAbove(v, [f]) {
        var i, k :| 0 <= i < 1 && 0 <= k < j + 1 && v[k] > [f][i];
        if k < j { assert passes[..j][k] > [f][i]; }
      }
    }

    static lemma OneFailureMore(passes: seq<real>, fails: seq<real>, i: nat)
      requires i < |fails|
      ensures SomeAbove(passes, fails[..i + 1]) <==> SomeAbove(passes, fails[..i]) || SomeAbove(passes, [fails[i]])
    {
      var v := fails[..i + 1];
      if SomeAbove(passes, fails[..i]) {
        var k, j :| 0 <= k < i && 0 <= j < |passes| && passes[j] > fails[..i][k];
        assert passes[j] > v[k];
      }
      if SomeAbove(passes, [fails[i]]) {
        var k, j :| 0 <= k < 1 && 0 <= j < |passes| && passes[j] > [fails[i]][k];
        assert passes[j] > v[i];
      }
      if SomeAbove(passes, v) {
        var k, j :| 0 <= k < i + 1 && 0 <= j < |passes| && passes[j] > v[k];
        if k < i { assert passes[j] > fails[..i][k]; } else { assert passes[j] > [fails[i]][0]; }
      }
    }

    /** The highest pass strictly below `hi`, if any. */
    method HighestBelow(hi: real) returns (lower: Option<real>)
      ensures lower == if Below(passes, hi) == [] then None else Some(Highest(Below(passes, hi)))
    {
      lower := None;
      for i := 0 to |passes|
        invariant lower == if Below(passes[..i], hi) == [] then None else Some(Highest(Below(passes[..i], hi)))
      {
        var x := passes[i];
        assert passes[..i + 1][..i] == passes[..i];
        ghost var b := Below(passes[..i], hi);
        if x < hi {
          assert (b + [x])[..|b|] == b;
          if lower.None? || x > lower.value { lower := Some(x); }
        }
      }
      assert passes[..|passes|] == passes;
    }

    /** How often exactly this rate passed. */
    method Confirmations(rate: real) returns (n: nat)
      ensures n == Count(passes, rate)
    {
      n := 0;
      for i := 0 to |passes|
        invariant n == Count(passes[..i], rate)
      {
        assert passes[..i + 1] == passes[..i] + [passes[i]];
        if passes[i] == rate { n := n + 1; }
      }
      assert passes[..|passes|] == passes;
    }

    /** The whole search. */
    method Run() returns (error: bool)
      requires maxRate == MaxRate(p) && Tally() == Empty(p).(res := Empty(p).res.(class_ := Unmeasured))
      modifies this, run
      ensures
        var f := S.Finish(p, run.world, old(run.Memory()));
        && run.Memory() == f.m && error == (f.how == Broken)
        && res == Result(p, run.world, old(run.Memory()))
    {
      hide Drive, Conclude;
      if Fixed(p) {
        error := RunFixed();
      } else {
        error := RunCapacity();
      }
      Finish();
    }
  }
}
