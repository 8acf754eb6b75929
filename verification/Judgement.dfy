/** The verdict on a load step told from its evidence, objective by objective and without the checks: what
    makes it fail and for which reason, and what leaves it open. */
module Judgement {
  import opened Plan
  import opened Counts
  import opened Histogram
  import opened Accounting
  import opened Judge

  // ---------------------------------------------------------------- the evidence

  function Stream(r: Record, name: string): Stats { if name in r.streams then r.streams[name] else NO_STATS }

  /** The device messages of all three streams. */
  function MessagesSent(r: Record): nat { Stream(r, "http").sent + Stream(r, "mqtt").sent + Stream(r, "tcp").sent }

  function MessagesOk(r: Record): nat { Stream(r, "http").ok + Stream(r, "mqtt").ok + Stream(r, "tcp").ok }

  function MessagesFailed(r: Record): nat { Stream(r, "http").fail + Stream(r, "mqtt").fail + Stream(r, "tcp").fail }

  function MessagesThrottled(r: Record): nat {
    Count(Stream(r, "http").codes, "429") + Count(Stream(r, "mqtt").codes, "429") + Count(Stream(r, "tcp").codes, "429")
  }

  /** Enough samples, and a reported percentile above its limit. */
  predicate TooSlow(h: Hist, p95: real, p99: real) {
    && h.n >= 20
    && (Rounded(QuantileOf(h, 0.95)) > p95 || (h.n >= 100 && Rounded(QuantileOf(h, 0.99)) > p99))
  }

  predicate TooFew(ok: nat, tried: nat, ratio: real) { tried > 0 && (ok as real) < ratio * tried as real }

  /** More than half of what failed was throttled. */
  predicate Throttled(throttled: nat, failed: nat) { throttled * 2 > failed }

  /** The module did something, and something that can be judged. */
  predicate Judged(r: Record, name: string) {
    var s := Stream(r, name);
    s.sent > 0 && Count(s.codes, "no_active_alarm") == 0 && Attempted(s) > 0
  }

  predicate ModuleTooFew(p: Slo, r: Record, name: string) {
    Judged(r, name) && TooFew(Stream(r, name).ok, Attempted(Stream(r, name)), p.successRatio)
  }

  predicate ModuleThrottled(r: Record, name: string) {
    Throttled(Count(Stream(r, name).codes, "429"), Stream(r, name).fail)
  }

  /** The limit of a percentile, and two and a half times as much for the 99th. */
  predicate Sluggish(p: Slo, h: Hist, name: string) {
    name in p.moduleP95 && p.moduleP95[name] > 0.0 && TooSlow(h, p.moduleP95[name], p.moduleP95[name] * 2.5)
  }

  function Part(ratio: real, n: nat): real { ratio * n as real }

  /** What a slope adds up to. */
  function Growth(slope: real, seconds: real): real { slope * seconds }

  predicate BacklogGrew(p: Slo, r: Record) {
    && MessagesSent(r) > 0 && r.slope.Some?
    && Growth(r.slope.value, r.seconds) > 50.0
    && Growth(r.slope.value, r.seconds) > Part(p.backlogGrowth, MessagesSent(r))
  }

  predicate Incomplete(f: Fault) { !f.injected || !f.recovered }

  /** All faults were injected, so there is a recovery to judge. */
  predicate RecoveryDue(r: Record) { r.faults != [] && forall i | 0 <= i < |r.faults| :: r.faults[i].injected }

  // ---------------------------------------------------------------- failures

  predicate Lost(p: Slo, r: Record) {
    var e := r.integrity;
    || (e.uniqueSent > 0 && e.unaccounted > p.maxUnaccounted)
    || (e.uniqueSent > 0 && e.pending == 0 && e.alarmMismatches > 0)
    || (r.deadLetters.Some? && r.deadLetters.value > 0.0)
  }

  /** What fails a step under any load, injected failures included. */
  predicate Broken(p: Slo, r: Record) {
    || (exists i :: 0 <= i < |r.operations| && !r.operations[i])
    || (r.integrity.uniqueSent > 0 && r.integrity.unaccounted <= p.maxUnaccounted && r.integrity.pending > 0)
    || ("realtime" in r.streams && r.streams["realtime"].ok > 0
        && Sluggish(p, r.streams["realtime"].latency, "realtime"))
  }

  /** The ordinary objectives that the platform missed. */
  predicate Missed(p: Slo, r: Record) {
    || (TooFew(MessagesOk(r), MessagesSent(r), p.successRatio)
        && !Throttled(MessagesThrottled(r), MessagesFailed(r)))
    || TooFew(Stream(r, "query").ok, Stream(r, "query").sent, p.successRatio)
    || (Stream(r, "query").sent > 0 && TooSlow(Stream(r, "query").latency, p.queryP95, p.queryP99))
    || (exists i :: 0 <= i < |MODULES| && ModuleTooFew(p, r, MODULES[i]) && !ModuleThrottled(r, MODULES[i]))
    || (exists i :: 0 <= i < |MODULES| && Judged(r, MODULES[i])
                    && Sluggish(p, Stream(r, MODULES[i]).latency, MODULES[i]))
    || (r.integrity.uniqueSent > 0 && r.integrity.latencyValid && r.integrity.clockUncertainty <= p.maxClock
        && TooSlow(r.integrity.latency, p.businessP95, p.businessP99))
    || BacklogGrew(p, r)
  }

  /** The ordinary objectives missed because requests were throttled. */
  predicate Curbed(p: Slo, r: Record) {
    || (TooFew(MessagesOk(r), MessagesSent(r), p.successRatio) && Throttled(MessagesThrottled(r), MessagesFailed(r)))
    || (exists i :: 0 <= i < |MODULES| && ModuleTooFew(p, r, MODULES[i]) && ModuleThrottled(r, MODULES[i]))
  }

  /** After its faults the platform came back too late, or not at all although it could be measured. */
  predicate Unrecovered(p: Slo, r: Record) {
    RecoveryDue(r)
    && match r.recovery
       case None => true
       case Some(c) => if c.seconds.Some? then c.seconds.value > p.maxRecovery else c.baseline.Some?
  }

  /** Whether the evidence fails the step for this reason. Under injected failures the ordinary
      objectives do not count, but the recovery does. */
  predicate Breached(p: Slo, r: Record, reason: Reason) {
    match reason
    case IntegrityLoss => Lost(p, r)
    case Service => Broken(p, r) || (if r.resilience then Unrecovered(p, r) else Missed(p, r))
    case Policy => !r.resilience && Curbed(p, r)
    case _ => false
  }

  // ---------------------------------------------------------------- gaps

  predicate Short(p: Slo, s: Stats) {
    s.scheduled > 0
    && ((s.notSent as real) > p.sendTolerance * s.scheduled as real
        || (s.lateness.n > 0 && QuantileOf(s.lateness, 0.95) > 1000.0))
  }

  /** What keeps a module from being judged. */
  function ModuleGap(p: Slo, r: Record, name: string): Option<Reason> {
    var s := Stream(r, name);
    if s.sent == 0 then None
    else if Count(s.codes, "no_active_alarm") > 0 then Some(Observability)
    else if Attempted(s) == 0 then Some(Budget)
    else if !r.resilience && name in p.moduleP95 && p.moduleP95[name] > 0.0 && s.latency.n < 20 then Some(Observability)
    else None
  }

  function FirstModuleGap(p: Slo, r: Record, names: seq<string>): Option<Reason>
    decreases |names|
  {
    if names == [] then None
    else
      var earlier := FirstModuleGap(p, r, names[..|names| - 1]);
      if earlier.Some? then earlier else ModuleGap(p, r, names[|names| - 1])
  }

  predicate Unobserved(p: Slo, r: Record) {
    || ("realtime" in r.streams
        && (r.streams["realtime"].ok == 0
            || ("realtime" in p.moduleP95 && p.moduleP95["realtime"] > 0.0 && r.streams["realtime"].latency.n < 20)))
    || (!r.resilience && r.integrity.uniqueSent > 0
        && (!r.integrity.latencyValid || r.integrity.clockUncertainty > p.maxClock || r.integrity.latency.n < 20))
    || (!r.resilience && MessagesSent(r) > 0 && r.slope.None?)
    || (r.resilience && p.zeroLoss && r.deadLetters.None?)
  }

  predicate Unproven(p: Slo, r: Record) {
    || (RecoveryDue(r) && r.recovery.Some? && r.recovery.value.seconds.None? && r.recovery.value.baseline.None?)
    || (p.zeroLoss && r.integrity.uniqueSent > 0 && r.integrity.alarmsChecked == 0)
  }

  /** What the first gap in the evidence is for, in the order of the objectives. */
  function Gap(p: Slo, r: Record): Option<Reason> {
    if r.cancelled then Some(Cancel)
    else if true in r.agents then Some(Infrastructure)
    else if !r.resilience && exists i :: 0 <= i < |OFFERED| && Short(p, Stream(r, OFFERED[i])) then Some(Generator)
    else if !r.resilience && Stream(r, "query").sent > 0 && Stream(r, "query").latency.n < 20 then Some(Observability)
    else if FirstModuleGap(p, r, MODULES).Some? then FirstModuleGap(p, r, MODULES)
    else if Unobserved(p, r) then Some(Observability)
    else if r.resilience && exists i :: 0 <= i < |r.faults| && Incomplete(r.faults[i]) then Some(Infrastructure)
    else if r.resilience && Unproven(p, r) then Some(Observability)
    else if MessagesSent(r) == 0 && Stream(r, "query").sent == 0 then Some(Generator)
    else None
  }

  // ---------------------------------------------------------------- the checks say the same

  lemma TotalsAreMessages(r: Record)
    ensures Totals(r).sent == MessagesSent(r) && Totals(r).ok == MessagesOk(r) && Totals(r).fail == MessagesFailed(r)
    ensures Count(Totals(r).codes, "429") == MessagesThrottled(r)
  {
    hide Join;
    var a, b := MESSAGE_STREAMS[..1], MESSAGE_STREAMS[..2];
    assert MESSAGE_STREAMS[..2] == ["http", "mqtt"] && b[..1] == ["http"];
    assert ["http"][..0] == [];
    assert MergeAll(r, []) == NO_STATS;
    var one := MergeAll(r, ["http"]);
    var two := MergeAll(r, ["http", "mqtt"]);
    assert ["http", "mqtt"][..1] == ["http"];
  }

  /** Requests beyond the budget do not count as tried; should more be recorded than were sent, the number of
      64 bits wraps. */
  lemma AttemptedWraps(s: Stats)
    requires s.sent < WORD && Count(s.codes, "budget_exhausted") < WORD
    ensures Attempted(s) < WORD
    ensures Attempted(s) == s.sent - Count(s.codes, "budget_exhausted")
            || Attempted(s) == s.sent + WORD - Count(s.codes, "budget_exhausted")
  {
  }

  lemma RatioIsQuotient(a: nat, b: nat, x: real)
    requires b > 0
    ensures Ratio(a, b) < x <==> (a as real) < x * b as real
  {
    var q, d := Ratio(a, b), b as real;
    assert q * d == a as real;
    if q < x { Scale(x, q, d); } else { Scale(q, x, d); }
  }

  lemma RatioAbove(a: nat, b: nat, x: real)
    requires b > 0
    ensures Ratio(a, b) > x <==> (a as real) > x * b as real
  {
    var q, d := Ratio(a, b), b as real;
    assert q * d == a as real;
    if q > x { Scale(q, x, d); } else { Scale(x, q, d); }
  }

  /** No check fails for this reason. */
  function FreeOf(reason: Reason): Check -> bool {
    (c: Check) => !(c.status == Status.Failed && c.reason == reason)
  }

  lemma SlowFails(about: About, h: Hist, p95: real, p99: real, reason: Reason)
    ensures FreeOf(reason)(LatencyCheck(about, h, p95, p99)) <==> !(reason == Service && TooSlow(h, p95, p99))
    ensures LatencyCheck(about, h, p95, p99).status == Inconclusive <==> h.n < 20
    ensures LatencyCheck(about, h, p95, p99).status == Inconclusive ==>
              LatencyCheck(about, h, p95, p99).reason == Observability
  {
    hide Rounded, QuantileOf;
  }

  lemma IngressFree(p: Slo, r: Record, reason: Reason)
    ensures All(IngressChecks(p, r), FreeOf(reason)) <==>
              !(!r.resilience && TooFew(MessagesOk(r), MessagesSent(r), p.successRatio)
                && reason == if Throttled(MessagesThrottled(r), MessagesFailed(r)) then Policy else Service)
  {
    hide Ratio, Totals, All, MessagesSent, MessagesOk, MessagesFailed, MessagesThrottled, Count;
    TotalsAreMessages(r);
    AllFew(FreeOf(reason));
    if Totals(r).sent > 0 { RatioIsQuotient(Totals(r).ok, Totals(r).sent, p.successRatio); }
  }

  lemma QueriesFree(p: Slo, r: Record, reason: Reason)
    ensures All(QueryChecks(p, r), FreeOf(reason)) <==>
              !(!r.resilience && reason == Service
                && (TooFew(Stream(r, "query").ok, Stream(r, "query").sent, p.successRatio)
                    || (Stream(r, "query").sent > 0 && TooSlow(Stream(r, "query").latency, p.queryP95, p.queryP99))))
  {
    hide Ratio, LatencyCheck, TooSlow, All;
    AllFew(FreeOf(reason));
    if "query" in r.streams && r.streams["query"].sent > 0 {
      RatioIsQuotient(r.streams["query"].ok, r.streams["query"].sent, p.successRatio);
      SlowFails(QueryLatency, r.streams["query"].latency, p.queryP95, p.queryP99, reason);
    }
  }

  lemma ModuleFree(p: Slo, r: Record, name: string, reason: Reason)
    ensures All(ModuleChecks(p, r, name), FreeOf(reason)) <==>
              !(!r.resilience
                && ((ModuleTooFew(p, r, name) && reason == if ModuleThrottled(r, name) then Policy else Service)
                    || (Judged(r, name) && Sluggish(p, Stream(r, name).latency, name) && reason == Service)))
  {
    hide Ratio, LatencyCheck, TooSlow, Attempted, Count, All;
    AllFew(FreeOf(reason));
    if name in r.streams && r.streams[name].sent > 0 && Attempted(r.streams[name]) > 0 {
      RatioIsQuotient(r.streams[name].ok, Attempted(r.streams[name]), p.successRatio);
      SlowFails(ModuleLatency(name), r.streams[name].latency, Limit(p, name), Limit(p, name) * 2.5, reason);
      forall a, b ensures All([a] + [b], FreeOf(reason)) <==> FreeOf(reason)(a) && FreeOf(reason)(b) {
        AllJoin([a], [b], FreeOf(reason));
      }
      forall a: Check ensures [a] + [] == [a] {}
    }
  }

  lemma RealtimeFree(p: Slo, r: Record, reason: Reason)
    ensures All(RealtimeChecks(p, r), FreeOf(reason)) <==>
              !(reason == Service && "realtime" in r.streams && r.streams["realtime"].ok > 0
                && Sluggish(p, r.streams["realtime"].latency, "realtime"))
  {
    hide LatencyCheck, TooSlow, All;
    AllFew(FreeOf(reason));
    if "realtime" in r.streams {
      SlowFails(RealtimeLatency, r.streams["realtime"].latency, Limit(p, "realtime"), Limit(p, "realtime") * 2.5,
                reason);
    }
  }

  lemma IntegrityFree(p: Slo, r: Record, reason: Reason)
    ensures
      var e := r.integrity;
      All(IntegrityChecks(p, r), FreeOf(reason)) <==>
        || e.uniqueSent == 0
        || !(|| (reason == IntegrityLoss
                 && (e.unaccounted > p.maxUnaccounted || (e.pending == 0 && e.alarmMismatches > 0)))
             || (reason == Service && e.unaccounted <= p.maxUnaccounted && e.pending > 0)
             || (reason == Service && !r.resilience && e.latencyValid && e.clockUncertainty <= p.maxClock
                 && TooSlow(e.latency, p.businessP95, p.businessP99)))
  {
    hide LatencyCheck, TooSlow, All;
    AllFew(FreeOf(reason));
    SlowFails(BusinessLatency, r.integrity.latency, p.businessP95, p.businessP99, reason);
  }

  lemma BacklogFree(p: Slo, r: Record, reason: Reason)
    ensures All(BacklogChecks(p, r), FreeOf(reason)) <==> !(!r.resilience && reason == Service && BacklogGrew(p, r))
  {
    hide Totals, All, MessagesSent, MessagesOk, MessagesFailed, MessagesThrottled, GrowthLimit, BacklogGrew;
    TotalsAreMessages(r);
    GrowthIsOverLimit(p, r);
    AllFew(FreeOf(reason));
  }

  lemma GrowthIsOverLimit(p: Slo, r: Record)
    ensures BacklogGrew(p, r) <==>
              Totals(r).sent > 0 && r.slope.Some? && r.slope.value * r.seconds > GrowthLimit(p, Totals(r))
  {
    hide Totals, MessagesSent, MessagesOk, MessagesFailed, MessagesThrottled, GrowthLimit, Part, Growth;
    TotalsAreMessages(r);
    if r.slope.Some? { LimitIsLarger(p, Totals(r), r.slope.value, r.seconds); }
  }

  lemma LimitIsLarger(p: Slo, m: Stats, slope: real, seconds: real)
    ensures slope * seconds > GrowthLimit(p, m)
            <==> Growth(slope, seconds) > 50.0 && Growth(slope, seconds) > Part(p.backlogGrowth, m.sent)
  {
  }

  lemma DeadLettersFree(p: Slo, r: Record, reason: Reason)
    ensures All(DeadLetterChecks(p, r), FreeOf(reason)) <==>
              !(reason == IntegrityLoss && r.deadLetters.Some? && r.deadLetters.value > 0.0)
  {
    hide All;
    AllFew(FreeOf(reason));
  }

  lemma NeverFree(p: Slo, r: Record, reason: Reason)
    ensures All(HaltChecks(r), FreeOf(reason)) && forall b :: All(AgentChecks(b), FreeOf(reason))
    ensures forall name :: All(StreamChecks(p, r, name), FreeOf(reason))
    ensures forall b :: All(OperationChecks(b), FreeOf(reason)) <==> b || reason != Service
  {
    hide Ratio, Late, All;
    AllFew(FreeOf(reason));
  }

  lemma FaultsFree(p: Slo, r: Record, reason: Reason)
    ensures All(FaultChecks(p, r), FreeOf(reason)) <==> !(r.resilience && reason == Service && Unrecovered(p, r))
  {
    hide All, Each;
    AllFew(FreeOf(reason));
    if r.resilience {
      var a := Each(r.faults, FaultNotes);
      var b := if r.faults == [] || exists i :: 0 <= i < |r.faults| && !r.faults[i].injected then []
        else [RecoveryCheck(p, r)];
      AllEach(r.faults, FaultNotes, FreeOf(reason));
      AllJoin(a, b, FreeOf(reason));
      AllJoin(a + b, ZeroLossChecks(p, r), FreeOf(reason));
    }
  }

  /** A check fails for a reason exactly when the evidence is breached for it. */
  lemma FailuresAreBreaches(p: Slo, r: Record, reason: Reason)
    ensures Has(Checks(p, r), Status.Failed, reason) <==> Breached(p, r, reason)
  {
    hide HaltChecks, AgentChecks, StreamChecks, IngressChecks, QueryChecks, ModuleChecks, RealtimeChecks,
         OperationChecks, IntegrityChecks, BacklogChecks, DeadLetterChecks, FaultChecks, Checks, All, TooSlow, TooFew,
         Throttled, Judged, ModuleTooFew, ModuleThrottled, Sluggish, BacklogGrew, Unrecovered, MessagesSent, MessagesOk,
         MessagesFailed, MessagesThrottled, Stream;
    AllChecks(p, r, FreeOf(reason));
    NeverFree(p, r, reason);
    IngressFree(p, r, reason);
    QueriesFree(p, r, reason);
    RealtimeFree(p, r, reason);
    IntegrityFree(p, r, reason);
    BacklogFree(p, r, reason);
    DeadLettersFree(p, r, reason);
    FaultsFree(p, r, reason);
    forall i | 0 <= i < |MODULES|
      ensures All(ModuleChecks(p, r, MODULES[i]), FreeOf(reason)) <==>
                !(!r.resilience
                  && ((ModuleTooFew(p, r, MODULES[i])
                       && reason == if ModuleThrottled(r, MODULES[i]) then Policy else Service)
                      || (Judged(r, MODULES[i]) && Sluggish(p, Stream(r, MODULES[i]).latency, MODULES[i])
                          && reason == Service)))
    {
      ModuleFree(p, r, MODULES[i], reason);
    }
    HasOrFree(Checks(p, r), reason);
  }

  lemma HasOrFree(checks: seq<Check>, reason: Reason)
    ensures Has(checks, Status.Failed, reason) <==> !All(checks, FreeOf(reason))
  {
  }

  function OtherThan(c: Check): Check -> bool { (d: Check) => d != c }

  lemma ListedOrOther(checks: seq<Check>, c: Check)
    ensures c in checks <==> !All(checks, OtherThan(c))
  {
  }

  /** What a report may say beyond the verdict: that only protocol answers were seen, exactly when there was
      nothing else; that no alarm was lost under an injected failure, exactly when all were checked. */
  lemma NotesAreEarned(p: Slo, r: Record)
    ensures Check(AckOnly, Status.Passed, NoReason) in Checks(p, r) <==>
              r.integrity.uniqueSent == 0 && r.integrity.ackOnly > 0
    ensures Check(ZeroLoss, Status.Passed, NoReason) in Checks(p, r) <==>
              r.resilience && p.zeroLoss && r.integrity.alarmsChecked > 0 && r.integrity.alarmMismatches == 0
  {
    hide HaltChecks, AgentChecks, StreamChecks, IngressChecks, QueryChecks, ModuleChecks, RealtimeChecks,
         OperationChecks, IntegrityChecks, BacklogChecks, DeadLetterChecks, FaultChecks, Checks, All;
    NotedIn(p, r, Check(AckOnly, Status.Passed, NoReason));
    NotedIn(p, r, Check(ZeroLoss, Status.Passed, NoReason));
    NotedIntegrity(p, r);
    NotedFaults(p, r);
  }

  lemma NotedIntegrity(p: Slo, r: Record)
    ensures Check(AckOnly, Status.Passed, NoReason) in IntegrityChecks(p, r) <==>
              r.integrity.uniqueSent == 0 && r.integrity.ackOnly > 0
    ensures Check(ZeroLoss, Status.Passed, NoReason) !in IntegrityChecks(p, r)
  {
    hide Percentile;
  }

  lemma NotedFaults(p: Slo, r: Record)
    ensures Check(ZeroLoss, Status.Passed, NoReason) in FaultChecks(p, r) <==>
              r.resilience && p.zeroLoss && r.integrity.alarmsChecked > 0 && r.integrity.alarmMismatches == 0
    ensures Check(AckOnly, Status.Passed, NoReason) !in FaultChecks(p, r)
  {
    hide Each, All;
    var c, d := Check(ZeroLoss, Status.Passed, NoReason), Check(AckOnly, Status.Passed, NoReason);
    AllEach(r.faults, FaultNotes, OtherThan(c));
    AllEach(r.faults, FaultNotes, OtherThan(d));
    AllFew(OtherThan(c));
    AllFew(OtherThan(d));
    ListedOrOther(Each(r.faults, FaultNotes), c);
    ListedOrOther(Each(r.faults, FaultNotes), d);
  }

  /** A check of this kind comes from nowhere else. */
  lemma NotedIn(p: Slo, r: Record, c: Check)
    requires c.about == AckOnly || c.about == ZeroLoss
    ensures c in Checks(p, r) <==> c in IntegrityChecks(p, r) || c in FaultChecks(p, r)
  {
    hide HaltChecks, AgentChecks, StreamChecks, IngressChecks, QueryChecks, ModuleChecks, RealtimeChecks,
         OperationChecks, IntegrityChecks, BacklogChecks, DeadLetterChecks, FaultChecks, Checks, All;
    AllChecks(p, r, OtherThan(c));
    ListedOrOther(Checks(p, r), c);
    ListedOrOther(IntegrityChecks(p, r), c);
    ListedOrOther(FaultChecks(p, r), c);
    NotedNowhere(p, r, c);
    forall i | 0 <= i < |MODULES| ensures All(ModuleChecks(p, r, MODULES[i]), OtherThan(c)) {
      NoModuleNotes(p, r, MODULES[i], c);
    }
  }

  lemma NoModuleNotes(p: Slo, r: Record, name: string, c: Check)
    requires c.about == AckOnly || c.about == ZeroLoss
    ensures All(ModuleChecks(p, r, name), OtherThan(c))
  {
    hide Ratio, Percentile, Attempted, Count;
  }

  lemma NotedNowhere(p: Slo, r: Record, c: Check)
    requires c.about == AckOnly || c.about == ZeroLoss
    ensures All(HaltChecks(r), OtherThan(c)) && All(IngressChecks(p, r), OtherThan(c))
    ensures All(QueryChecks(p, r), OtherThan(c)) && All(RealtimeChecks(p, r), OtherThan(c))
    ensures All(BacklogChecks(p, r), OtherThan(c)) && All(DeadLetterChecks(p, r), OtherThan(c))
    ensures forall b :: All(AgentChecks(b), OtherThan(c)) && All(OperationChecks(b), OtherThan(c))
    ensures forall name :: All(StreamChecks(p, r, name), OtherThan(c))
  {
    hide Ratio, Percentile, Totals, GrowthLimit, Late, Count;
  }

  // ---------------------------------------------------------------- the first gap

  function Either(a: Option<Reason>, b: Option<Reason>): Option<Reason> { if a.Some? then a else b }

  lemma {:induction false} GapOfBoth(a: seq<Check>, b: seq<Check>)
    ensures FirstInconclusive(a + b) == Either(FirstInconclusive(a), FirstInconclusive(b))
    decreases |a|
  {
    if a == [] {
      assert a + b == b;
    } else {
      GapOfBoth(a[1..], b);
      assert (a + b)[1..] == a[1..] + b;
    }
  }

  /** Where every item has no gap or one for this reason. */
  lemma {:induction false} GapOfEach<T>(items: seq<T>, checks: T -> seq<Check>, reason: Reason)
    requires forall i | 0 <= i < |items| :: FirstInconclusive(checks(items[i])) in {None, Some(reason)}
    ensures FirstInconclusive(Each(items, checks))
            == if exists i :: 0 <= i < |items| && FirstInconclusive(checks(items[i])).Some? then Some(reason) else None
    decreases |items|
  {
    if items != [] {
      hide FirstInconclusive;
      var init, last := items[..|items| - 1], items[|items| - 1];
      GapOfEach(init, checks, reason);
      GapOfBoth(Each(init, checks), checks(last));
      assert items == init + [last];
      assert forall i | 0 <= i < |init| :: init[i] == items[i];
    } else {
      assert Each(items, checks) == [];
    }
  }

  lemma GapOfFew()
    ensures FirstInconclusive([]) == None
    ensures forall c :: FirstInconclusive([c]) == if c.status == Inconclusive then Some(c.reason) else None
    ensures forall c, d :: FirstInconclusive([c, d]) == Either(FirstInconclusive([c]), FirstInconclusive([d]))
  {
    forall c, d ensures FirstInconclusive([c, d]) == Either(FirstInconclusive([c]), FirstInconclusive([d])) {
      assert [c, d] == [c] + [d];
      GapOfBoth([c], [d]);
    }
  }

  lemma StreamGap(p: Slo, r: Record, name: string)
    ensures FirstInconclusive(StreamChecks(p, r, name))
            == if !r.resilience && Short(p, Stream(r, name)) then Some(Generator) else None
  {
    hide Ratio, FirstInconclusive;
    GapOfFew();
    if name in r.streams && r.streams[name].scheduled > 0 {
      RatioAbove(r.streams[name].notSent, r.streams[name].scheduled, p.sendTolerance);
    }
  }

  lemma QueryGap(p: Slo, r: Record)
    ensures FirstInconclusive(QueryChecks(p, r))
            == if !r.resilience && Stream(r, "query").sent > 0 && Stream(r, "query").latency.n < 20 then
                 Some(Observability)
               else None
    ensures FirstInconclusive(IngressChecks(p, r)) == None
  {
    hide Ratio, LatencyCheck, FirstInconclusive, Totals, FailReason;
    GapOfFew();
    if "query" in r.streams {
      SlowFails(QueryLatency, r.streams["query"].latency, p.queryP95, p.queryP99, Service);
    }
  }

  lemma ModuleGapIs(p: Slo, r: Record, name: string)
    ensures FirstInconclusive(ModuleChecks(p, r, name)) == ModuleGap(p, r, name)
  {
    hide Ratio, LatencyCheck, FirstInconclusive, FailReason, Attempted, Count;
    GapOfFew();
    if name in r.streams && r.streams[name].sent > 0 && Attempted(r.streams[name]) > 0 {
      SlowFails(ModuleLatency(name), r.streams[name].latency, Limit(p, name), Limit(p, name) * 2.5, Service);
      forall a, b ensures FirstInconclusive([a] + [b]) == Either(FirstInconclusive([a]), FirstInconclusive([b])) {
        GapOfBoth([a], [b]);
      }
      forall a: Check ensures [a] + [] == [a] {}
    }
  }

  lemma {:induction false} ModulesGap(p: Slo, r: Record, names: seq<string>)
    ensures FirstInconclusive(Each(names, OfModule(p, r))) == FirstModuleGap(p, r, names)
    decreases |names|
  {
    hide FirstInconclusive, ModuleChecks, ModuleGap;
    if names == [] {
      GapOfFew();
      assert Each(names, OfModule(p, r)) == [];
    } else {
      var init, last := names[..|names| - 1], names[|names| - 1];
      ModulesGap(p, r, init);
      GapOfBoth(Each(init, OfModule(p, r)), ModuleChecks(p, r, last));
      ModuleGapIs(p, r, last);
    }
  }

  /** One reason only: a gap there is for want of observation. */
  predicate GapWhen(checks: seq<Check>, gap: bool) {
    FirstInconclusive(checks) == if gap then Some(Observability) else None
  }

  lemma RealtimeGap(p: Slo, r: Record)
    ensures
      GapWhen(RealtimeChecks(p, r),
              "realtime" in r.streams
              && (r.streams["realtime"].ok == 0
                  || ("realtime" in p.moduleP95 && p.moduleP95["realtime"] > 0.0
                      && r.streams["realtime"].latency.n < 20)))
  {
    hide LatencyCheck, FirstInconclusive;
    GapOfFew();
    if "realtime" in r.streams {
      SlowFails(RealtimeLatency, r.streams["realtime"].latency, Limit(p, "realtime"), Limit(p, "realtime") * 2.5,
                Service);
    }
  }

  lemma IntegrityGap(p: Slo, r: Record)
    ensures
      GapWhen(IntegrityChecks(p, r),
              !r.resilience && r.integrity.uniqueSent > 0
              && (!r.integrity.latencyValid || r.integrity.clockUncertainty > p.maxClock || r.integrity.latency.n < 20))
  {
    hide LatencyCheck, FirstInconclusive;
    GapOfFew();
    SlowFails(BusinessLatency, r.integrity.latency, p.businessP95, p.businessP99, Service);
  }

  lemma BacklogGap(p: Slo, r: Record)
    ensures GapWhen(BacklogChecks(p, r), !r.resilience && MessagesSent(r) > 0 && r.slope.None?)
    ensures GapWhen(DeadLetterChecks(p, r), r.resilience && p.zeroLoss && r.deadLetters.None?)
  {
    hide FirstInconclusive, Totals, GrowthLimit, MessagesSent, MessagesOk, MessagesFailed, MessagesThrottled;
    GapOfFew();
    TotalsAreMessages(r);
  }

  lemma RestGap(p: Slo, r: Record)
    ensures
      Either(FirstInconclusive(RealtimeChecks(p, r)),
             Either(FirstInconclusive(IntegrityChecks(p, r)),
                    Either(FirstInconclusive(BacklogChecks(p, r)), FirstInconclusive(DeadLetterChecks(p, r)))))
      == if Unobserved(p, r) then Some(Observability) else None
  {
    hide FirstInconclusive, RealtimeChecks, IntegrityChecks, BacklogChecks, DeadLetterChecks, MessagesSent;
    RealtimeGap(p, r);
    IntegrityGap(p, r);
    BacklogGap(p, r);
  }

  lemma FaultGap(p: Slo, r: Record)
    ensures
      FirstInconclusive(FaultChecks(p, r))
      == if !r.resilience then None
         else if exists i :: 0 <= i < |r.faults| && Incomplete(r.faults[i]) then Some(Infrastructure)
         else if Unproven(p, r) then Some(Observability)
         else None
  {
    hide Each, FirstInconclusive;
    GapOfFew();
    if r.resilience {
      var a := Each(r.faults, FaultNotes);
      var b := if r.faults == [] || exists i :: 0 <= i < |r.faults| && !r.faults[i].injected then []
        else [RecoveryCheck(p, r)];
      GapOfEach(r.faults, FaultNotes, Infrastructure);
      GapOfBoth(a, b);
      GapOfBoth(a + b, ZeroLossChecks(p, r));
    }
  }

  lemma LoadGap(p: Slo, r: Record)
    ensures
      FirstInconclusive(LoadChecks(p, r))
      == if r.cancelled then Some(Cancel)
         else if true in r.agents then Some(Infrastructure)
         else if !r.resilience && exists i :: 0 <= i < |OFFERED| && Short(p, Stream(r, OFFERED[i])) then Some(Generator)
         else if !r.resilience && Stream(r, "query").sent > 0 && Stream(r, "query").latency.n < 20 then
           Some(Observability)
         else None
  {
    hide Each, FirstInconclusive, IngressChecks, QueryChecks, StreamChecks, Short, Stream;
    GapOfFew();
    QueryGap(p, r);
    forall i | 0 <= i < |OFFERED|
      ensures FirstInconclusive(OfStream(p, r)(OFFERED[i]))
              == if !r.resilience && Short(p, Stream(r, OFFERED[i])) then Some(Generator) else None
    {
      StreamGap(p, r, OFFERED[i]);
    }
    GapOfEach(r.agents, AgentChecks, Infrastructure);
    GapOfEach(OFFERED, OfStream(p, r), Generator);
    var agents, streams := Each(r.agents, AgentChecks), Each(OFFERED, OfStream(p, r));
    GapOfBoth(HaltChecks(r), agents);
    GapOfBoth(HaltChecks(r) + agents, streams);
    GapOfBoth(HaltChecks(r) + agents + streams, IngressChecks(p, r));
    GapOfBoth(HaltChecks(r) + agents + streams + IngressChecks(p, r), QueryChecks(p, r));
  }

  /** Not counting idleness, the first gap among the checks is the one the evidence shows. */
  lemma FirstGap(p: Slo, r: Record)
    ensures
      FirstInconclusive(Checks(p, r))
      == Either(FirstInconclusive(LoadChecks(p, r)),
                Either(FirstModuleGap(p, r, MODULES),
                       Either(if Unobserved(p, r) then Some(Observability) else None,
                              FirstInconclusive(FaultChecks(p, r)))))
  {
    hide Each, FirstInconclusive, LoadChecks, RealtimeChecks, IntegrityChecks, BacklogChecks, DeadLetterChecks,
         FaultChecks, FirstModuleGap, Unobserved;
    var modules, operations := Each(MODULES, OfModule(p, r)), Each(r.operations, OperationChecks);
    ModulesGap(p, r, MODULES);
    RestGap(p, r);
    OperationsGap(r);
    GapOfBoth(modules, RealtimeChecks(p, r));
    GapOfBoth(modules + RealtimeChecks(p, r), operations);
    GapOfBoth(IntegrityChecks(p, r), BacklogChecks(p, r));
    GapOfBoth(IntegrityChecks(p, r) + BacklogChecks(p, r), DeadLetterChecks(p, r));
    GapOfBoth(IntegrityChecks(p, r) + BacklogChecks(p, r) + DeadLetterChecks(p, r), FaultChecks(p, r));
    GapOfBoth(LoadChecks(p, r), BusinessChecks(p, r));
    GapOfBoth(LoadChecks(p, r) + BusinessChecks(p, r), PipelineChecks(p, r));
  }

  lemma OperationsGap(r: Record)
    ensures FirstInconclusive(Each(r.operations, OperationChecks)) == None
  {
    hide FirstInconclusive;
    GapOfFew();
    GapOfEach(r.operations, OperationChecks, Service);
  }

  /** The whole verdict from the evidence, for ordinary and resilience steps: a loss of data comes before a
      limit of the platform, that before a policy, and any of them before a gap; the first gap in the order
      of the objectives names the reason, and without one the step passes. */
  lemma VerdictFollowsEvidence(p: Slo, r: Record)
    ensures
      Verdict(p, r)
      == if Breached(p, r, IntegrityLoss) then (Status.Failed, IntegrityLoss)
         else if Breached(p, r, Service) then (Status.Failed, Service)
         else if Breached(p, r, Policy) then (Status.Failed, Policy)
         else if Gap(p, r).Some? then (Status.Inconclusive, Gap(p, r).value)
         else (Status.Passed, NoReason)
  {
    hide Checks, Has, FirstInconclusive, Breached, FirstModuleGap, Unobserved, Unproven, LoadChecks, FaultChecks, Short,
         Totals, MessagesSent;
    FailuresAreBreaches(p, r, IntegrityLoss);
    FailuresAreBreaches(p, r, Service);
    FailuresAreBreaches(p, r, Policy);
    FirstGap(p, r);
    LoadGap(p, r);
    FaultGap(p, r);
    TotalsAreMessages(r);
  }
}
