/** The verdict on a load step, drawn from recorded evidence. The texts of the checks are left out;
    a check is known by what it is about. */
module Judge {
  import opened Plan
  import opened Counts
  import H = Histogram
  import opened Histogram
  import opened Accounting

  datatype About =
    | Halted | Agents | SentAll(stream: string) | Paced(stream: string) | Ingress | Queries | QueryLatency
    | Module(name: string) | ModuleLatency(name: string) | Realtime | RealtimeLatency | Operation
    | Unaccounted | Drainage | Alarms | Messages | AckOnly | BusinessLatency | Backlog | DeadLetters
    | Injection | RecoveryTime | ZeroLoss

  datatype Status = Passed | Failed | Inconclusive | Noted

  datatype Reason = NoReason | Service | Policy | Generator | Observability | IntegrityLoss | Budget | Cancel
    | Infrastructure

  datatype Check = Check(about: About, status: Status, reason: Reason)

  datatype Slo = Slo(
    sendTolerance: real, successRatio: real, queryP95: real, queryP99: real, businessP95: real, businessP99: real,
    maxUnaccounted: nat, maxClock: real, backlogGrowth: real, moduleP95: map<string, real>, zeroLoss: bool,
      maxRecovery: real)

  datatype Evidence = Evidence(
    uniqueSent: nat, unaccounted: nat, pending: nat, alarmMismatches: nat, alarmsChecked: nat, ackOnly: nat,
    latencyValid: bool, clockUncertainty: real, latency: Hist)

  datatype Fault = Fault(injected: bool, recovered: bool)

  datatype Recovery = Recovery(seconds: Option<real>, baseline: Option<real>)

  datatype Record = Record(
    resilience: bool, cancelled: bool, agents: seq<bool>, streams: map<string, Stats>, operations: seq<bool>,
    integrity: Evidence, slope: Option<real>, deadLetters: Option<real>, seconds: real,
    faults: seq<Fault>, recovery: Option<Recovery>)

  const MESSAGE_STREAMS := ["http", "mqtt", "tcp"]
  const MODULES := ["ai", "knowledge", "video", "export_raw", "export_replay", "export_inspection", "openapi"]
  const OFFERED := MESSAGE_STREAMS + ["query"] + MODULES
  const WORD := 0x1_0000_0000_0000_0000

  // ---------------------------------------------------------------- percentiles

  function Nearest(x: real): real { (x + 0.5).Floor as real }

  function Rounded(v: real): real { if v >= 100.0 then Nearest(v) else Nearest(v * 10.0) / 10.0 }

  /** The reported percentile, if there are enough samples for it. */
  function Percentile(h: Hist, q: real, needed: nat): Option<real>
    requires q >= 0.0
  {
    if h.n == 0 || h.n < needed then None else Some(Rounded(QuantileOf(h, q)))
  }

  /** Reported percentiles are whole from 100 on and tenths below, and the nearest such number (the higher of two). */
  lemma RoundedIsNear(v: real)
    ensures -0.5 < Rounded(v) - v <= 0.5 && (10.0 * Rounded(v)).Floor as real == 10.0 * Rounded(v)
    ensures v < 100.0 ==> -0.05 < Rounded(v) - v <= 0.05
    ensures v >= 100.0 ==> Rounded(v).Floor as real == Rounded(v)
  {
    NearestIsNear(v);
    NearestIsNear(v * 10.0);
    hide Nearest;
    var n := Nearest(v * 10.0).Floor;
    if v >= 100.0 { TenTimes(Nearest(v)); } else { assert 10.0 * Rounded(v) == n as real; }
  }

  lemma NearestIsNear(x: real)
    ensures x - 0.5 < Nearest(x) <= x + 0.5 && Nearest(x).Floor as real == Nearest(x)
  {
  }

  lemma TenTimes(x: real)
    requires x.Floor as real == x
    ensures (10.0 * x).Floor as real == 10.0 * x
  {
    assert 10.0 * x == (10 * x.Floor) as real;
  }

  // ---------------------------------------------------------------- single checks

  /** In a resilience step the ordinary objectives are only recorded. */
  function Slack(r: Record, c: Check): Check {
    if r.resilience && c.status != Passed then Check(c.about, Noted, NoReason) else c
  }

  function LatencyCheck(about: About, h: Hist, p95: real, p99: real): Check {
    var a, b := Percentile(h, 0.95, 20), Percentile(h, 0.99, 100);
    if a.None? then Check(about, Inconclusive, Observability)
    else if a.value > p95 || (b.Some? && b.value > p99) then Check(about, Failed, Service)
    else Check(about, Passed, NoReason)
  }

  function Late(s: Stats): real { if s.lateness.n == 0 then 0.0 else QuantileOf(s.lateness, 0.95) }

  function Ratio(a: nat, b: int): real
    requires b > 0
  {
    a as real / b as real
  }

  function StreamChecks(p: Slo, r: Record, name: string): seq<Check> {
    if name !in r.streams || r.streams[name].scheduled == 0 then []
    else
      var s := r.streams[name];
      if Ratio(s.notSent, s.scheduled) > p.sendTolerance then [Slack(r, Check(SentAll(name), Inconclusive, Generator))]
      else if Late(s) > 1000.0 then [Slack(r, Check(Paced(name), Inconclusive, Generator))]
      else [Check(SentAll(name), Passed, NoReason)]
  }

  function Totals(r: Record): Stats { MergeAll(r, MESSAGE_STREAMS) }

  function MergeAll(r: Record, names: seq<string>): Stats
    decreases |names|
  {
    if names == [] then NO_STATS
    else
      var t, name := MergeAll(r, names[..|names| - 1]), names[|names| - 1];
      if name in r.streams then JoinStats(t, r.streams[name]) else t
  }

  /** Mostly throttled answers are the platform's policy, not its limit. */
  function FailReason(s: Stats): Reason { if Count(s.codes, "429") * 2 > s.fail then Policy else Service }

  function IngressChecks(p: Slo, r: Record): seq<Check> {
    var m := Totals(r);
    if m.sent == 0 then []
    else if Ratio(m.ok, m.sent) >= p.successRatio then [Check(Ingress, Passed, NoReason)]
    else [Slack(r, Check(Ingress, Failed, FailReason(m)))]
  }

  function QueryChecks(p: Slo, r: Record): seq<Check> {
    if "query" !in r.streams || r.streams["query"].sent == 0 then []
    else
      var q := r.streams["query"];
      [Slack(r, if Ratio(q.ok, q.sent) < p.successRatio then Check(Queries, Failed, Service)
        else Check(Queries, Passed, NoReason)),
       Slack(r, LatencyCheck(QueryLatency, q.latency, p.queryP95, p.queryP99))]
  }

  /** Requests that were tried; the subtraction wraps like the program's. */
  function Attempted(s: Stats): nat {
    var n := s.sent - Count(s.codes, "budget_exhausted");
    if n < 0 then n % WORD else n
  }

  function Limit(p: Slo, name: string): real { if name in p.moduleP95 then p.moduleP95[name] else 0.0 }

  function ModuleChecks(p: Slo, r: Record, name: string): seq<Check> {
    if name !in r.streams || r.streams[name].sent == 0 then []
    else
      var s := r.streams[name];
      if Count(s.codes, "no_active_alarm") > 0 then [Check(Module(name), Inconclusive, Observability)]
      else if Attempted(s) == 0 then [Check(Module(name), Inconclusive, Budget)]
      else
        [if Ratio(s.ok, Attempted(s)) < p.successRatio then Slack(r, Check(Module(name), Failed, FailReason(s)))
         else Check(Module(name), Passed, NoReason)]
        + if Limit(p, name) > 0.0 then
            [Slack(r, LatencyCheck(ModuleLatency(name), s.latency, Limit(p, name), Limit(p, name) * 2.5))]
          else []
  }

  function RealtimeChecks(p: Slo, r: Record): seq<Check> {
    if "realtime" !in r.streams then []
    else if r.streams["realtime"].ok == 0 then [Check(Realtime, Inconclusive, Observability)]
    else if Limit(p, "realtime") > 0.0 then
      [LatencyCheck(RealtimeLatency, r.streams["realtime"].latency, Limit(p, "realtime"), Limit(p, "realtime") * 2.5)]
    else []
  }

  function OperationChecks(ok: bool): seq<Check> {
    [if ok then Check(Operation, Passed, NoReason) else Check(Operation, Failed, Service)]
  }

  function AgentChecks(incomplete: bool): seq<Check> {
    if incomplete then [Check(Agents, Inconclusive, Infrastructure)] else []
  }

  function IntegrityChecks(p: Slo, r: Record): seq<Check> {
    var e := r.integrity;
    if e.uniqueSent > 0 then
      [if e.unaccounted > p.maxUnaccounted then Check(Unaccounted, Failed, IntegrityLoss)
       else if e.pending > 0 then Check(Drainage, Failed, Service)
       else if e.alarmMismatches > 0 then Check(Alarms, Failed, IntegrityLoss)
       else Check(Messages, Passed, NoReason),
       Slack(r, if !e.latencyValid || e.clockUncertainty > p.maxClock then
         Check(BusinessLatency, Inconclusive, Observability)
                else LatencyCheck(BusinessLatency, e.latency, p.businessP95, p.businessP99))]
    else if e.ackOnly > 0 then [Check(AckOnly, Passed, NoReason)]
    else []
  }

  function GrowthLimit(p: Slo, m: Stats): real { Larger(50.0, p.backlogGrowth * m.sent as real) }

  function BacklogChecks(p: Slo, r: Record): seq<Check> {
    if Totals(r).sent == 0 then []
    else if r.slope.None? then [Slack(r, Check(Backlog, Inconclusive, Observability))]
    else if r.slope.value * r.seconds > GrowthLimit(p, Totals(r)) then [Slack(r, Check(Backlog, Failed, Service))]
    else [Check(Backlog, Passed, NoReason)]
  }

  function DeadLetterChecks(p: Slo, r: Record): seq<Check> {
    if r.deadLetters.Some? then
      [if r.deadLetters.value > 0.0 then Check(DeadLetters, Failed, IntegrityLoss)
        else Check(DeadLetters, Passed, NoReason)]
    else if r.resilience && p.zeroLoss then [Check(DeadLetters, Inconclusive, Observability)]
    else []
  }

  function FaultNotes(f: Fault): seq<Check> {
    [if f.injected && f.recovered then Check(Injection, Passed, NoReason)
      else Check(Injection, Inconclusive, Infrastructure)]
  }

  function RecoveryCheck(p: Slo, r: Record): Check {
    if r.recovery.None? || r.recovery.value.seconds.None? then
      if r.recovery.Some? && r.recovery.value.baseline.None? then Check(RecoveryTime, Inconclusive, Observability)
      else Check(RecoveryTime, Failed, Service)
    else if r.recovery.value.seconds.value > p.maxRecovery then Check(RecoveryTime, Failed, Service)
    else Check(RecoveryTime, Passed, NoReason)
  }

  function ZeroLossChecks(p: Slo, r: Record): seq<Check> {
    if p.zeroLoss && r.integrity.uniqueSent > 0 && r.integrity.alarmsChecked == 0 then
      [Check(ZeroLoss, Inconclusive, Observability)]
    else if p.zeroLoss && r.integrity.alarmsChecked > 0 && r.integrity.alarmMismatches == 0 then
      [Check(ZeroLoss, Passed, NoReason)]
    else []
  }

  // ---------------------------------------------------------------- all checks in order

  function Each<T>(items: seq<T>, checks: T -> seq<Check>): seq<Check>
    decreases |items|
  {
    if items == [] then [] else Each(items[..|items| - 1], checks) + checks(items[|items| - 1])
  }

  function OfStream(p: Slo, r: Record): string -> seq<Check> { name => StreamChecks(p, r, name) }

  function OfModule(p: Slo, r: Record): string -> seq<Check> { name => ModuleChecks(p, r, name) }

  function FaultChecks(p: Slo, r: Record): seq<Check> {
    if !r.resilience then []
    else
      Each(r.faults, FaultNotes)
      + (if r.faults == [] || exists i :: 0 <= i < |r.faults| && !r.faults[i].injected then []
        else [RecoveryCheck(p, r)])
      + ZeroLossChecks(p, r)
  }

  function HaltChecks(r: Record): seq<Check> { if r.cancelled then [Check(Halted, Inconclusive, Cancel)] else [] }

  function LoadChecks(p: Slo, r: Record): seq<Check> {
    HaltChecks(r) + Each(r.agents, AgentChecks) + Each(OFFERED, OfStream(p, r))
    + IngressChecks(p, r) + QueryChecks(p, r)
  }

  function BusinessChecks(p: Slo, r: Record): seq<Check> {
    Each(MODULES, OfModule(p, r)) + RealtimeChecks(p, r) + Each(r.operations, OperationChecks)
  }

  function PipelineChecks(p: Slo, r: Record): seq<Check> {
    IntegrityChecks(p, r) + BacklogChecks(p, r) + DeadLetterChecks(p, r) + FaultChecks(p, r)
  }

  function Checks(p: Slo, r: Record): seq<Check> { LoadChecks(p, r) + BusinessChecks(p, r) + PipelineChecks(p, r) }

  // ---------------------------------------------------------------- the conclusion

  predicate Has(checks: seq<Check>, status: Status, reason: Reason) {
    exists i :: 0 <= i < |checks| && checks[i].status == status && checks[i].reason == reason
  }

  function FirstInconclusive(checks: seq<Check>): Option<Reason>
    decreases |checks|
  {
    if checks == [] then None
    else if checks[0].status == Inconclusive then Some(checks[0].reason)
    else FirstInconclusive(checks[1..])
  }

  const ORDER := [IntegrityLoss, Service, Policy]

  /** A failure of the first reason in the order that has one; else the first gap in the evidence. */
  function Conclusion(checks: seq<Check>, idle: bool): (Status, Reason) {
    if Has(checks, Failed, IntegrityLoss) then (Failed, IntegrityLoss)
    else if Has(checks, Failed, Service) then (Failed, Service)
    else if Has(checks, Failed, Policy) then (Failed, Policy)
    else if FirstInconclusive(checks).Some? then (Inconclusive, FirstInconclusive(checks).value)
    else if idle then (Inconclusive, Generator)
    else (Passed, NoReason)
  }

  /** Neither messages nor queries were sent. */
  predicate Idle(r: Record) { Totals(r).sent == 0 && ("query" !in r.streams || r.streams["query"].sent == 0) }

  function Verdict(p: Slo, r: Record): (Status, Reason) { Conclusion(Checks(p, r), Idle(r)) }

  method Conclude(checks: seq<Check>, idle: bool) returns (status: Status, reason: Reason)
    ensures (status, reason) == Conclusion(checks, idle)
  {
    status, reason := Passed, NoReason;
    for k := 0 to |ORDER|
      invariant status == Passed ==> reason == NoReason && forall j | 0 <= j < k :: !Has(checks, Failed, ORDER[j])
      invariant status != Passed ==>
                  status == Failed && exists j :: 0 <= j < k && reason == ORDER[j] && Has(checks, Failed, ORDER[j])
                                                  && forall h | 0 <= h < j :: !Has(checks, Failed, ORDER[h])
    {
      for i := 0 to |checks|
        invariant status == Passed ==>
                    && reason == NoReason && (forall j | 0 <= j < k :: !Has(checks, Failed, ORDER[j]))
                    && forall j | 0 <= j < i :: !(checks[j].status == Failed && checks[j].reason == ORDER[k])
        invariant status != Passed ==>
                    status == Failed && exists j :: 0 <= j <= k && reason == ORDER[j] && Has(checks, Failed, ORDER[j])
                                                    && forall h | 0 <= h < j :: !Has(checks, Failed, ORDER[h])
      {
        if checks[i].status == Failed && checks[i].reason == ORDER[k] && status == Passed {
          status, reason := Failed, ORDER[k];
        }
      }
    }
    assert ORDER[0] == IntegrityLoss && ORDER[1] == Service && ORDER[2] == Policy;
    if status == Passed {
      assert !Has(checks, Failed, ORDER[0]) && !Has(checks, Failed, ORDER[1]) && !Has(checks, Failed, ORDER[2]);
      for i := 0 to |checks|
        invariant status == Passed && reason == NoReason
        invariant FirstInconclusive(checks) == FirstInconclusive(checks[i..])
      {
        assert checks[i..][1..] == checks[i + 1..];
        if checks[i].status == Inconclusive {
          status, reason := Inconclusive, checks[i].reason;
          return;
        }
      }
      assert checks[|checks|..] == [];
      if idle { status, reason := Inconclusive, Generator; }
    }
  }

  // ---------------------------------------------------------------- what a pass stands on

  predicate All(checks: seq<Check>, q: Check -> bool) { forall i | 0 <= i < |checks| :: q(checks[i]) }

  lemma AllJoin(a: seq<Check>, b: seq<Check>, q: Check -> bool)
    ensures All(a + b, q) <==> All(a, q) && All(b, q)
  {
    var c := a + b;
    assert forall i | 0 <= i < |a| :: c[i] == a[i];
    assert forall i | 0 <= i < |b| :: c[|a| + i] == b[i];
  }

  lemma AllFew(q: Check -> bool)
    ensures All([], q)
    ensures forall c :: All([c], q) <==> q(c)
    ensures forall c, d :: All([c, d], q) <==> q(c) && q(d)
  {
    forall c, d ensures All([c, d], q) <==> q(c) && q(d) {
      assert [c, d][0] == c && [c, d][1] == d;
    }
    forall c ensures All([c], q) <==> q(c) {
      assert [c][0] == c;
    }
  }

  lemma {:induction false} AllEach<T>(items: seq<T>, checks: T -> seq<Check>, q: Check -> bool)
    ensures All(Each(items, checks), q) <==> forall i | 0 <= i < |items| :: All(checks(items[i]), q)
    decreases |items|
  {
    if items != [] {
      hide All;
      var init, last := items[..|items| - 1], items[|items| - 1];
      AllEach(init, checks, q);
      AllJoin(Each(init, checks), checks(last), q);
      assert items == init + [last];
    } else {
      assert Each(items, checks) == [];
    }
  }

  predicate Settles(c: Check) { c.status != Failed && c.status != Inconclusive }

  /** Enough samples, and the reported percentiles within their limits. */
  predicate Within(h: Hist, p95: real, p99: real) {
    && h.n >= 20 && Rounded(QuantileOf(h, 0.95)) <= p95
    && (h.n >= 100 ==> Rounded(QuantileOf(h, 0.99)) <= p99)
  }

  predicate StreamBacked(p: Slo, r: Record, name: string) {
    name in r.streams && r.streams[name].scheduled > 0 ==>
      Ratio(r.streams[name].notSent, r.streams[name].scheduled) <= p.sendTolerance && Late(r.streams[name]) <= 1000.0
  }

  predicate IngressBacked(p: Slo, r: Record) {
    Totals(r).sent > 0 ==> Ratio(Totals(r).ok, Totals(r).sent) >= p.successRatio
  }

  predicate QueriesBacked(p: Slo, r: Record) {
    "query" in r.streams && r.streams["query"].sent > 0 ==>
      && Ratio(r.streams["query"].ok, r.streams["query"].sent) >= p.successRatio
      && Within(r.streams["query"].latency, p.queryP95, p.queryP99)
  }

  predicate ModuleBacked(p: Slo, r: Record, name: string) {
    name in r.streams && r.streams[name].sent > 0 ==>
      var s := r.streams[name];
      && Count(s.codes, "no_active_alarm") == 0 && Attempted(s) > 0 && Ratio(s.ok, Attempted(s)) >= p.successRatio
      && (Limit(p, name) > 0.0 ==> Within(s.latency, Limit(p, name), Limit(p, name) * 2.5))
  }

  predicate RealtimeBacked(p: Slo, r: Record) {
    "realtime" in r.streams ==>
      && r.streams["realtime"].ok > 0
      && (Limit(p, "realtime") > 0.0 ==>
            Within(r.streams["realtime"].latency, Limit(p, "realtime"), Limit(p, "realtime") * 2.5))
  }

  predicate MessagesBacked(p: Slo, r: Record) {
    r.integrity.uniqueSent > 0 ==>
      var e := r.integrity;
      && e.unaccounted <= p.maxUnaccounted && e.pending == 0 && e.alarmMismatches == 0
      && e.latencyValid && e.clockUncertainty <= p.maxClock && Within(e.latency, p.businessP95, p.businessP99)
  }

  predicate BacklogBacked(p: Slo, r: Record) {
    Totals(r).sent > 0 ==> r.slope.Some? && r.slope.value * r.seconds <= GrowthLimit(p, Totals(r))
  }

  /** The evidence a pass needs, objective by objective. */
  predicate Backed(p: Slo, r: Record) {
    && !r.cancelled && (forall i | 0 <= i < |r.agents| :: !r.agents[i]) && !Idle(r)
    && (forall i | 0 <= i < |OFFERED| :: StreamBacked(p, r, OFFERED[i]))
    && IngressBacked(p, r) && QueriesBacked(p, r) && RealtimeBacked(p, r)
    && (forall i | 0 <= i < |MODULES| :: ModuleBacked(p, r, MODULES[i]))
    && (forall i | 0 <= i < |r.operations| :: r.operations[i])
    && MessagesBacked(p, r) && BacklogBacked(p, r)
    && (r.deadLetters.Some? ==> r.deadLetters.value <= 0.0)
  }

  lemma WithinSettles(about: About, h: Hist, p95: real, p99: real)
    ensures Settles(LatencyCheck(about, h, p95, p99)) <==> Within(h, p95, p99)
  {
    hide Rounded, QuantileOf;
  }

  lemma StreamSettles(p: Slo, r: Record, name: string)
    requires !r.resilience
    ensures All(StreamChecks(p, r, name), Settles) <==> StreamBacked(p, r, name)
  {
    hide Late, Ratio, All;
    AllFew(Settles);
  }

  lemma ModuleSettles(p: Slo, r: Record, name: string)
    requires !r.resilience
    ensures All(ModuleChecks(p, r, name), Settles) <==> ModuleBacked(p, r, name)
  {
    hide Ratio, LatencyCheck, Within, Attempted, Count, All;
    AllFew(Settles);
    if name in r.streams && r.streams[name].sent > 0 {
      WithinSettles(ModuleLatency(name), r.streams[name].latency, Limit(p, name), Limit(p, name) * 2.5);
      forall a, b ensures All([a] + [b], Settles) <==> Settles(a) && Settles(b) { AllJoin([a], [b], Settles); }
      forall a: Check ensures [a] + [] == [a] {}
    }
  }

  lemma OthersSettle(p: Slo, r: Record)
    requires !r.resilience
    ensures All(IngressChecks(p, r), Settles) <==> IngressBacked(p, r)
    ensures All(QueryChecks(p, r), Settles) <==> QueriesBacked(p, r)
    ensures All(RealtimeChecks(p, r), Settles) <==> RealtimeBacked(p, r)
    ensures All(IntegrityChecks(p, r), Settles) <==> MessagesBacked(p, r)
    ensures All(BacklogChecks(p, r), Settles) <==> BacklogBacked(p, r)
    ensures All(DeadLetterChecks(p, r), Settles) <==> (r.deadLetters.Some? ==> r.deadLetters.value <= 0.0)
  {
    hide Ratio, LatencyCheck, Within, Totals, GrowthLimit, FailReason, All;
    AllFew(Settles);
    if "query" in r.streams { WithinSettles(QueryLatency, r.streams["query"].latency, p.queryP95, p.queryP99); }
    if "realtime" in r.streams {
      WithinSettles(RealtimeLatency, r.streams["realtime"].latency, Limit(p, "realtime"), Limit(p, "realtime") * 2.5);
    }
    WithinSettles(BusinessLatency, r.integrity.latency, p.businessP95, p.businessP99);
  }

  /** All checks satisfy q when those of every part do. */
  lemma AllChecks(p: Slo, r: Record, q: Check -> bool)
    ensures
      All(Checks(p, r), q) <==>
        && All(HaltChecks(r), q) && (forall i | 0 <= i < |r.agents| :: All(AgentChecks(r.agents[i]), q))
        && (forall i | 0 <= i < |OFFERED| :: All(StreamChecks(p, r, OFFERED[i]), q))
        && All(IngressChecks(p, r), q) && All(QueryChecks(p, r), q)
        && (forall i | 0 <= i < |MODULES| :: All(ModuleChecks(p, r, MODULES[i]), q))
        && All(RealtimeChecks(p, r), q)
        && (forall i | 0 <= i < |r.operations| :: All(OperationChecks(r.operations[i]), q))
        && All(IntegrityChecks(p, r), q) && All(BacklogChecks(p, r), q) && All(DeadLetterChecks(p, r), q)
        && All(FaultChecks(p, r), q)
  {
    hide All, Each, HaltChecks, AgentChecks, StreamChecks, IngressChecks, QueryChecks, ModuleChecks, RealtimeChecks,
         OperationChecks, IntegrityChecks, BacklogChecks, DeadLetterChecks, FaultChecks;
    var load, business, pipeline := LoadChecks(p, r), BusinessChecks(p, r), PipelineChecks(p, r);
    AllJoin(load, business, q);
    AllJoin(load + business, pipeline, q);
    var agents, streams := Each(r.agents, AgentChecks), Each(OFFERED, OfStream(p, r));
    AllJoin(HaltChecks(r), agents, q);
    AllJoin(HaltChecks(r) + agents, streams, q);
    AllJoin(HaltChecks(r) + agents + streams, IngressChecks(p, r), q);
    AllJoin(HaltChecks(r) + agents + streams + IngressChecks(p, r), QueryChecks(p, r), q);
    AllEach(r.agents, AgentChecks, q);
    AllEach(OFFERED, OfStream(p, r), q);
    var modules, operations := Each(MODULES, OfModule(p, r)), Each(r.operations, OperationChecks);
    AllJoin(modules, RealtimeChecks(p, r), q);
    AllJoin(modules + RealtimeChecks(p, r), operations, q);
    AllEach(MODULES, OfModule(p, r), q);
    AllEach(r.operations, OperationChecks, q);
    AllJoin(IntegrityChecks(p, r), BacklogChecks(p, r), q);
    AllJoin(IntegrityChecks(p, r) + BacklogChecks(p, r), DeadLetterChecks(p, r), q);
    AllJoin(IntegrityChecks(p, r) + BacklogChecks(p, r) + DeadLetterChecks(p, r), FaultChecks(p, r), q);
  }

  /** Every failure has a reason of the order. */
  predicate Ranked(c: Check) { c.status == Failed ==> c.reason in {IntegrityLoss, Service, Policy} }

  lemma SomeFailure(checks: seq<Check>)
    requires All(checks, Ranked)
    ensures All(checks, Settles) <==>
              && !Has(checks, Failed, IntegrityLoss) && !Has(checks, Failed, Service) && !Has(checks, Failed, Policy)
              && FirstInconclusive(checks).None?
  {
    Gaps(checks);
    if !All(checks, Settles) {
      var i :| 0 <= i < |checks| && !Settles(checks[i]);
      assert Ranked(checks[i]);
    }
  }

  lemma {:induction false} Gaps(checks: seq<Check>)
    ensures FirstInconclusive(checks).None? <==> forall i | 0 <= i < |checks| :: checks[i].status != Inconclusive
    decreases |checks|
  {
    if checks != [] {
      Gaps(checks[1..]);
      assert forall i | 1 <= i < |checks| :: checks[i] == checks[1..][i - 1];
    }
  }

  lemma FailuresAreRanked(p: Slo, r: Record)
    ensures All(Checks(p, r), Ranked)
  {
    hide HaltChecks, AgentChecks, StreamChecks, IngressChecks, QueryChecks, ModuleChecks, RealtimeChecks,
         OperationChecks, IntegrityChecks, BacklogChecks, DeadLetterChecks, FaultChecks, Checks, All, Ranked;
    AllChecks(p, r, Ranked);
    PartsAreRanked(p, r);
    OthersAreRanked(p, r);
    FaultsAreRanked(p, r);
    forall i | 0 <= i < |MODULES|
      ensures All(ModuleChecks(p, r, MODULES[i]), Ranked)
    {
      ModuleIsRanked(p, r, MODULES[i]);
    }
  }

  lemma OthersAreRanked(p: Slo, r: Record)
    ensures forall name :: All(StreamChecks(p, r, name), Ranked)
    ensures forall b :: All(AgentChecks(b), Ranked) && All(OperationChecks(b), Ranked)
  {
    hide Ratio, Late;
  }

  lemma ModuleIsRanked(p: Slo, r: Record, name: string)
    ensures All(ModuleChecks(p, r, name), Ranked)
  {
    hide Ratio, Percentile, Attempted, Count;
  }

  lemma PartsAreRanked(p: Slo, r: Record)
    ensures All(HaltChecks(r), Ranked) && All(IngressChecks(p, r), Ranked) && All(QueryChecks(p, r), Ranked)
    ensures All(RealtimeChecks(p, r), Ranked) && All(IntegrityChecks(p, r), Ranked) && All(BacklogChecks(p, r), Ranked)
    ensures All(DeadLetterChecks(p, r), Ranked)
  {
    hide Ratio, Percentile, Totals, GrowthLimit, Count;
  }

  lemma FaultsAreRanked(p: Slo, r: Record)
    ensures All(FaultChecks(p, r), Ranked)
  {
    hide All, Each;
    AllFew(Ranked);
    if r.resilience {
      var a := Each(r.faults, FaultNotes);
      var b := if r.faults == [] || exists i :: 0 <= i < |r.faults| && !r.faults[i].injected then []
        else [RecoveryCheck(p, r)];
      AllEach(r.faults, FaultNotes, Ranked);
      AllJoin(a, b, Ranked);
      AllJoin(a + b, ZeroLossChecks(p, r), Ranked);
    }
  }

  /** No failed check has a reason that comes before this one. */
  predicate Foremost(checks: seq<Check>, reason: Reason) {
    forall c | c in checks && c.status == Failed ::
      || reason == IntegrityLoss
      || (reason == Service && c.reason != IntegrityLoss)
      || (reason == Policy && c.reason == Policy)
  }

  /** An ordinary step passes exactly when every objective is backed by its evidence, and fails
      exactly when some check failed, for the first reason in the order that one failed for. */
  lemma PassedExactlyWhenBacked(p: Slo, r: Record)
    requires !r.resilience
    ensures Verdict(p, r).0 == Passed <==> Backed(p, r)
    ensures Verdict(p, r).0 == Failed <==> exists i :: 0 <= i < |Checks(p, r)| && Checks(p, r)[i].status == Failed
    ensures Verdict(p, r).0 == Failed ==>
              Has(Checks(p, r), Failed, Verdict(p, r).1) && Foremost(Checks(p, r), Verdict(p, r).1)
  {
    ReasonIsForemost(p, r);
    hide HaltChecks, IngressChecks, QueryChecks, ModuleChecks, RealtimeChecks, StreamChecks, IntegrityChecks,
         BacklogChecks, DeadLetterChecks, Checks, Has, FirstInconclusive, Idle, StreamBacked, IngressBacked,
         QueriesBacked, ModuleBacked, RealtimeBacked, MessagesBacked, BacklogBacked, All;
    AllChecks(p, r, Settles);
    AllFew(Settles);
    OthersSettle(p, r);
    HaltSettles(r);
    forall i | 0 <= i < |OFFERED|
      ensures All(StreamChecks(p, r, OFFERED[i]), Settles) <==> StreamBacked(p, r, OFFERED[i])
    {
      StreamSettles(p, r, OFFERED[i]);
    }
    forall i | 0 <= i < |MODULES|
      ensures All(ModuleChecks(p, r, MODULES[i]), Settles) <==> ModuleBacked(p, r, MODULES[i])
    {
      ModuleSettles(p, r, MODULES[i]);
    }
    FailuresAreRanked(p, r);
    SomeFailure(Checks(p, r));
    FailedMeansHas(Checks(p, r));
  }

  lemma ReasonIsForemost(p: Slo, r: Record)
    ensures Verdict(p, r).0 == Failed ==>
              Has(Checks(p, r), Failed, Verdict(p, r).1) && Foremost(Checks(p, r), Verdict(p, r).1)
  {
    hide Checks, Idle;
    FailuresAreRanked(p, r);
    var checks := Checks(p, r);
    forall c | c in checks && c.status == Failed ensures Has(checks, Failed, c.reason) && Ranked(c) {}
  }

  lemma HaltSettles(r: Record)
    ensures All(HaltChecks(r), Settles) <==> !r.cancelled
  {
    AllFew(Settles);
  }

  lemma FailedMeansHas(checks: seq<Check>)
    requires All(checks, Ranked)
    ensures Has(checks, Failed, IntegrityLoss) || Has(checks, Failed, Service) || Has(checks, Failed, Policy)
            <==> exists i :: 0 <= i < |checks| && checks[i].status == Failed
  {
    if exists i :: 0 <= i < |checks| && checks[i].status == Failed {
      var i :| 0 <= i < |checks| && checks[i].status == Failed;
      assert Ranked(checks[i]);
    }
  }

  /** Under an injected failure the ordinary objectives decide nothing: a step fails only for lost or
      unsettled messages, dead letters, alarms, realtime latency, operations or its recovery. */
  predicate Substantial(c: Check) {
    c.status == Failed ==> c.about in {Unaccounted, Drainage, Alarms, DeadLetters, Operation, RecoveryTime,
      RealtimeLatency}
  }

  lemma ResilienceFailsOnSubstance(p: Slo, r: Record)
    requires r.resilience
    ensures All(Checks(p, r), Substantial)
  {
    hide HaltChecks, AgentChecks, StreamChecks, IngressChecks, QueryChecks, ModuleChecks, RealtimeChecks,
         OperationChecks, IntegrityChecks, BacklogChecks, DeadLetterChecks, FaultChecks, Checks, All, Substantial;
    AllChecks(p, r, Substantial);
    SlackIsSubstantial(p, r);
    OthersAreSubstantial(p, r);
    FaultsAreSubstantial(p, r);
    forall i | 0 <= i < |MODULES| ensures All(ModuleChecks(p, r, MODULES[i]), Substantial) {
      ModuleIsSubstantial(p, r, MODULES[i]);
    }
  }

  lemma OthersAreSubstantial(p: Slo, r: Record)
    requires r.resilience
    ensures forall name :: All(StreamChecks(p, r, name), Substantial)
    ensures forall b :: All(AgentChecks(b), Substantial) && All(OperationChecks(b), Substantial)
  {
    hide Ratio, Late;
  }

  lemma ModuleIsSubstantial(p: Slo, r: Record, name: string)
    requires r.resilience
    ensures All(ModuleChecks(p, r, name), Substantial)
  {
    hide Ratio, Percentile, Attempted, Count;
  }

  lemma SlackIsSubstantial(p: Slo, r: Record)
    requires r.resilience
    ensures All(HaltChecks(r), Substantial) && All(IngressChecks(p, r), Substantial)
    ensures All(QueryChecks(p, r), Substantial)
    ensures All(RealtimeChecks(p, r), Substantial) && All(IntegrityChecks(p, r), Substantial)
    ensures All(BacklogChecks(p, r), Substantial) && All(DeadLetterChecks(p, r), Substantial)
  {
    hide Ratio, Percentile, Totals, GrowthLimit, Count;
  }

  lemma FaultsAreSubstantial(p: Slo, r: Record)
    ensures All(FaultChecks(p, r), Substantial)
  {
    hide All, Each;
    AllFew(Substantial);
    if r.resilience {
      var a := Each(r.faults, FaultNotes);
      var b := if r.faults == [] || exists i :: 0 <= i < |r.faults| && !r.faults[i].injected then []
        else [RecoveryCheck(p, r)];
      AllEach(r.faults, FaultNotes, Substantial);
      AllJoin(a, b, Substantial);
      AllJoin(a + b, ZeroLossChecks(p, r), Substantial);
    }
  }

  /** The evidence a resilience step needs to pass: the ordinary objectives are not part of it, loss,
      recovery and complete faults are. */
  predicate Survived(p: Slo, r: Record) {
    && !r.cancelled && (forall i | 0 <= i < |r.agents| :: !r.agents[i]) && !Idle(r)
    && (forall i | 0 <= i < |MODULES| :: ModuleRan(r, MODULES[i]))
    && RealtimeBacked(p, r)
    && (forall i | 0 <= i < |r.operations| :: r.operations[i])
    && NothingLost(p, r) && FaultsComplete(p, r)
  }

  predicate ModuleRan(r: Record, name: string) {
    name in r.streams && r.streams[name].sent > 0 ==>
      Count(r.streams[name].codes, "no_active_alarm") == 0 && Attempted(r.streams[name]) > 0
  }

  predicate NothingLost(p: Slo, r: Record) {
    && (r.integrity.uniqueSent > 0 ==>
          r.integrity.unaccounted <= p.maxUnaccounted && r.integrity.pending == 0 && r.integrity.alarmMismatches == 0)
    && (if r.deadLetters.Some? then r.deadLetters.value <= 0.0 else !p.zeroLoss)
    && (p.zeroLoss && r.integrity.uniqueSent > 0 ==> r.integrity.alarmsChecked > 0)
  }

  predicate FaultsComplete(p: Slo, r: Record) {
    && (forall i | 0 <= i < |r.faults| :: r.faults[i].injected && r.faults[i].recovered)
    && (r.faults != [] ==>
          r.recovery.Some? && r.recovery.value.seconds.Some? && r.recovery.value.seconds.value <= p.maxRecovery)
  }

  lemma SlackSettles(p: Slo, r: Record)
    requires r.resilience
    ensures forall i | 0 <= i < |OFFERED| :: All(StreamChecks(p, r, OFFERED[i]), Settles)
    ensures All(IngressChecks(p, r), Settles) && All(QueryChecks(p, r), Settles) && All(BacklogChecks(p, r), Settles)
  {
    hide Ratio, LatencyCheck, Totals, GrowthLimit, Late, FailReason;
  }

  lemma ModuleRunSettles(p: Slo, r: Record, name: string)
    requires r.resilience
    ensures All(ModuleChecks(p, r, name), Settles) <==> ModuleRan(r, name)
  {
    hide Ratio, LatencyCheck, Attempted, Count, FailReason, All;
    AllFew(Settles);
    forall a, b ensures All([a] + [b], Settles) <==> Settles(a) && Settles(b) { AllJoin([a], [b], Settles); }
    forall a: Check ensures [a] + [] == [a] {}
  }

  lemma LossSettles(p: Slo, r: Record)
    requires r.resilience
    ensures All(RealtimeChecks(p, r), Settles) <==> RealtimeBacked(p, r)
    ensures All(IntegrityChecks(p, r), Settles) && All(DeadLetterChecks(p, r), Settles)
            && All(ZeroLossChecks(p, r), Settles)
            <==> NothingLost(p, r)
  {
    hide LatencyCheck, Within, All;
    AllFew(Settles);
    if "realtime" in r.streams {
      WithinSettles(RealtimeLatency, r.streams["realtime"].latency, Limit(p, "realtime"), Limit(p, "realtime") * 2.5);
    }
  }

  lemma FaultsSettle(p: Slo, r: Record)
    requires r.resilience
    ensures All(FaultChecks(p, r), Settles) <==> FaultsComplete(p, r) && All(ZeroLossChecks(p, r), Settles)
  {
    hide All, Each, ZeroLossChecks;
    AllFew(Settles);
    var a := Each(r.faults, FaultNotes);
    var b := if r.faults == [] || exists i :: 0 <= i < |r.faults| && !r.faults[i].injected then []
      else [RecoveryCheck(p, r)];
    AllEach(r.faults, FaultNotes, Settles);
    AllJoin(a, b, Settles);
    AllJoin(a + b, ZeroLossChecks(p, r), Settles);
  }

  /** A resilience step passes exactly when it survived. */
  lemma ResiliencePassesExactlyWhenSurvived(p: Slo, r: Record)
    requires r.resilience
    ensures Verdict(p, r).0 == Passed <==> Survived(p, r)
  {
    hide HaltChecks, IngressChecks, QueryChecks, ModuleChecks, RealtimeChecks, StreamChecks, IntegrityChecks,
         BacklogChecks, DeadLetterChecks, FaultChecks, ZeroLossChecks, Checks, Has, FirstInconclusive, Idle, ModuleRan,
         RealtimeBacked,
         NothingLost, FaultsComplete, All;
    AllChecks(p, r, Settles);
    AllFew(Settles);
    SlackSettles(p, r);
    LossSettles(p, r);
    FaultsSettle(p, r);
    HaltSettles(r);
    forall i | 0 <= i < |MODULES| ensures All(ModuleChecks(p, r, MODULES[i]), Settles) <==> ModuleRan(r, MODULES[i]) {
      ModuleRunSettles(p, r, MODULES[i]);
    }
    FailuresAreRanked(p, r);
    SomeFailure(Checks(p, r));
  }

  /** What rounding can hide at a limit. */
  function Slip(limit: real): real { if limit < 100.0 then 0.05 else 0.5 }

  lemma RoundedWithin(x: real, limit: real)
    requires Rounded(x) <= limit
    ensures x <= limit + Slip(limit)
  {
    RoundedIsNear(x);
  }

  /** A latency objective that is met bounds the observations themselves, to within rounding: 95 of 100 are at
      most the limit, and 99 of 100 at most theirs from 100 observations on, as far as the histogram's buckets
      reach. */
  lemma PassBoundsTrueLatency(obs: seq<real>, p95: real, p99: real)
    requires Within(Of(obs), p95, p99) && obs != []
    ensures 0.95 * |obs| as real <= Tally(obs, AtMost(Upper(LAST))) as real ==>
              0.95 * |obs| as real <= Tally(obs, AtMost(p95 + Slip(p95))) as real
    ensures |obs| >= 100 && 0.99 * |obs| as real <= Tally(obs, AtMost(Upper(LAST))) as real ==>
              0.99 * |obs| as real <= Tally(obs, AtMost(p99 + Slip(p99))) as real
  {
    hide Of, Rounded, QuantileOf, Upper, Tally;
    HistogramTotals(obs);
    ReportedCovers(obs, 0.95, p95);
    if |obs| >= 100 { ReportedCovers(obs, 0.99, p99); }
  }

  lemma ReportedCovers(obs: seq<real>, q: real, limit: real)
    requires obs != [] && 0.0 <= q <= 1.0 && Rounded(QuantileOf(Of(obs), q)) <= limit
    ensures q * |obs| as real <= Tally(obs, AtMost(Upper(LAST))) as real ==>
              q * |obs| as real <= Tally(obs, AtMost(limit + Slip(limit))) as real
  {
    hide Of, Rounded, QuantileOf, Upper, Tally;
    var w := QuantileOf(Of(obs), q);
    QuantileCoversItsShare(obs, q);
    RoundedWithin(w, limit);
    TallyGrows(obs, AtMost(w), AtMost(limit + Slip(limit)));
  }

  /** One that is missed means slow observations: less than 95 of 100 are below one that is at least the
      limit but for a tenth and the rounding, or less than 99 of 100 below such a one. */
  lemma FailureMeansSlowness(obs: seq<real>, p95: real, p99: real)
    requires |obs| >= 20 && !Within(Of(obs), p95, p99)
    ensures SlowOnes(obs, 0.95, p95) || (|obs| >= 100 && SlowOnes(obs, 0.99, p99))
  {
    hide Of, Rounded, QuantileOf, SlowOnes;
    HistogramTotals(obs);
    if Rounded(QuantileOf(Of(obs), 0.95)) > p95 {
      ReportedAbove(obs, 0.95, p95);
    } else {
      ReportedAbove(obs, 0.99, p99);
    }
  }

  /** There is an observation with less than the share below it that is about as high as the limit. */
  ghost predicate SlowOnes(obs: seq<real>, q: real, limit: real) {
    exists v :: (exists i :: 0 <= i < |obs| && Clamp(obs[i]) == v)
                && (Tally(obs, H.Under(v)) as real) < q * |obs| as real
                && limit - 0.5 < Larger(GROWTH * v, BASE)
  }

  lemma ReportedAbove(obs: seq<real>, q: real, limit: real)
    requires obs != [] && 0.0 < q <= 1.0 && Rounded(QuantileOf(Of(obs), q)) > limit
    ensures SlowOnes(obs, q, limit)
  {
    hide Of, Rounded, QuantileOf, Tally;
    QuantileCoversItsShare(obs, q);
    RoundedIsNear(QuantileOf(Of(obs), q));
    assert q * |obs| as real > 0.0;
  }

  // ---------------------------------------------------------------- the program's procedure

  method MessageTotals(r: Record) returns (t: Stats)
    ensures t == Totals(r)
  {
    t := NO_STATS;
    for i := 0 to |MESSAGE_STREAMS|
      invariant t == MergeAll(r, MESSAGE_STREAMS[..i])
    {
      assert MESSAGE_STREAMS[..i + 1][..i] == MESSAGE_STREAMS[..i];
      var name := MESSAGE_STREAMS[i];
      if name in r.streams { t := JoinStats(t, r.streams[name]); }
    }
    assert MESSAGE_STREAMS[..|MESSAGE_STREAMS|] == MESSAGE_STREAMS;
  }

  /** Appends the checks of every item in turn. */
  method AddEach<T>(checks: seq<Check>, items: seq<T>, of: T -> seq<Check>) returns (more: seq<Check>)
    ensures more == checks + Each(items, of)
  {
    more := checks;
    for i := 0 to |items|
      invariant more == checks + Each(items[..i], of)
    {
      assert items[..i + 1][..i] == items[..i];
      more := more + of(items[i]);
    }
    assert items[..|items|] == items;
  }

  method JudgeFaults(p: Slo, r: Record, checks: seq<Check>) returns (more: seq<Check>)
    requires r.resilience
    ensures more == checks + FaultChecks(p, r)
  {
    more := checks;
    var injected := true;
    for i := 0 to |r.faults|
      invariant more == checks + Each(r.faults[..i], FaultNotes)
      invariant injected <==> forall j | 0 <= j < i :: r.faults[j].injected
    {
      assert r.faults[..i + 1][..i] == r.faults[..i];
      var f := r.faults[i];
      if !f.injected {
        injected := false;
        more := more + [Check(Injection, Inconclusive, Infrastructure)];
      } else if !f.recovered {
        more := more + [Check(Injection, Inconclusive, Infrastructure)];
      } else {
        more := more + [Check(Injection, Passed, NoReason)];
      }
    }
    assert r.faults[..|r.faults|] == r.faults;
    if r.faults != [] && injected { more := more + [RecoveryCheck(p, r)]; }
    more := more + ZeroLossChecks(p, r);
  }

  method Judge(p: Slo, r: Record) returns (checks: seq<Check>, status: Status, reason: Reason)
    ensures checks == Checks(p, r)
    ensures (status, reason) == Verdict(p, r)
  {
    hide Each, OfStream, OfModule, IngressChecks, QueryChecks, RealtimeChecks, IntegrityChecks, BacklogChecks,
         DeadLetterChecks, FaultChecks, Totals, Conclusion;
    checks := [];
    if r.cancelled { checks := checks + [Check(Halted, Inconclusive, Cancel)]; }
    checks := AddEach(checks, r.agents, AgentChecks);
    checks := AddEach(checks, OFFERED, OfStream(p, r));
    var m := MessageTotals(r);
    checks := checks + IngressChecks(p, r) + QueryChecks(p, r);
    assert checks == LoadChecks(p, r);
    ghost var load := checks;
    checks := AddEach(checks, MODULES, OfModule(p, r));
    checks := checks + RealtimeChecks(p, r);
    checks := AddEach(checks, r.operations, OperationChecks);
    assert checks == load + BusinessChecks(p, r);
    ghost var business := checks;
    checks := checks + IntegrityChecks(p, r) + BacklogChecks(p, r) + DeadLetterChecks(p, r);
    if r.resilience {
      checks := JudgeFaults(p, r, checks);
    } else {
      NoFaults(p, r);
    }
    assert checks == business + PipelineChecks(p, r);
    status, reason := Conclude(checks, m.sent == 0 && ("query" !in r.streams || r.streams["query"].sent == 0));
  }

  lemma NoFaults(p: Slo, r: Record)
    requires !r.resilience
    ensures FaultChecks(p, r) == []
  {
  }
}
