/** The load agent's lease protocol: one leased run at a time, any number of controllers calling in,
    a watchdog per prepared run, and phases that finish in their own time.

    Every critical section of the program is one atomic event; an event carries the clock readings
    it takes. Preparing is two events, because the end of preparation extends the lease again.
    Prepared runs and phases are named by the order in which they came into being. */
module Lease {
  import opened Plan

  datatype Claim = Claim(run: string, generation: int, lease: int)

  datatype Ref = Ref(run: string, generation: int)

  datatype Run = Run(claim: Claim, leaseUntil: int, preparing: bool, phases: map<string, nat>, current: Option<nat>)

  datatype Phase = Phase(owner: nat, id: string, cancelled: bool, aborted: bool, expired: bool, done: bool)

  datatype State = State(held: Option<nat>, runs: seq<Run>, phases: seq<Phase>)

  /** `at` is when a lease is checked, `from` when the new one begins. */
  datatype Event =
    | PrepareBegin(claim: Claim, at: int, from: int)
    | PrepareEnd(id: nat, at: int)
    | Tick(id: nat, at: int)
    | Heartbeat(ref: Ref, at: int, from: int)
    | StartPhase(ref: Ref, phase: string, at: int)
    | Stop(ref: Ref, hard: bool, at: int)
    | Release(ref: Ref, at: int)
    | PhaseDone(index: nat, at: int)
    | Clean(run: string, at: int)
  {
    function End(): int { if PrepareBegin? || Heartbeat? then from else at }
  }

  datatype Reply = Accepted | Busy | Stale | PhaseRunning | Duplicate

  const DEFAULT_LEASE := 20_000_000_000

  function Effective(c: Claim): Claim { if c.lease <= 0 then c.(lease := DEFAULT_LEASE) else c }

  // ---------------------------------------------------------------- one event

  predicate WellIndexed(s: State) {
    && (s.held.Some? ==> s.held.value < |s.runs|)
    && (forall r | 0 <= r < |s.runs| && s.runs[r].current.Some? :: s.runs[r].current.value < |s.phases|)
  }

  /** Whether this claim may take the agent from run r whatever the lease. */
  predicate Supersedes(c: Claim, r: Run) { c.run == r.claim.run && c.generation >= r.claim.generation }

  predicate Addresses(ref: Ref, r: Run) { ref.run == r.claim.run && ref.generation >= r.claim.generation }

  function CancelPhase(s: State, r: Run, aborted: bool, expired: bool): State
    requires WellIndexed(s) && r in s.runs
  {
    if r.current.None? then s
    else
      var ph := s.phases[r.current.value];
      s.(phases := s.phases[r.current.value := ph.(cancelled := true, aborted := ph.aborted || aborted,
        expired := ph.expired || expired)])
  }

  function LetGo(s: State): (t: State)
    requires WellIndexed(s)
    ensures t.held == None && t.runs == s.runs && |t.phases| == |s.phases|
  {
    if s.held.None? then s else CancelPhase(s, s.runs[s.held.value], true, false).(held := None)
  }

  function Take(s: State, c: Claim, from: int): State {
    s.(held := Some(|s.runs|), runs := s.runs + [Run(c, from + c.lease, true, map[], None)])
  }

  function WithRun(s: State, id: nat, r: Run): State
    requires id < |s.runs|
  {
    s.(runs := s.runs[id := r])
  }

  predicate Running(s: State, r: Run)
    requires WellIndexed(s) && r in s.runs
  {
    r.current.Some? && !s.phases[r.current.value].done
  }

  function Begin(s: State, id: nat, phase: string): State
    requires id < |s.runs|
  {
    var r, i := s.runs[id], |s.phases|;
    WithRun(s, id, r.(phases := r.phases[phase := i], current := Some(i)))
      .(phases := s.phases + [Phase(id, phase, false, false, false, false)])
  }

  /** A cleanup leaves alone what belongs to another run, is still leased or still running. */
  predicate Keeps(s: State, r: Run, run: string, at: int)
    requires WellIndexed(s) && r in s.runs
  {
    r.claim.run != run || at < r.leaseUntil || Running(s, r)
  }

  function Step(s: State, e: Event): (State, Reply)
    requires WellIndexed(s)
  {
    match e
    case PrepareBegin(c, at, from) =>
      if s.held.Some? && !Supersedes(c, s.runs[s.held.value]) && at < s.runs[s.held.value].leaseUntil then (s, Busy)
      else (Take(LetGo(s), Effective(c), from), Accepted)
    case PrepareEnd(id, at) =>
      if id >= |s.runs| || !s.runs[id].preparing then (s, Stale)
      else
        var r := s.runs[id].(preparing := false);
        (WithRun(s, id, if s.held == Some(id) then r.(leaseUntil := at + r.claim.lease) else r), Accepted)
    case Tick(id, at) =>
      if s.held != Some(id) || at < s.runs[id].leaseUntil then (s, Accepted)
      else (CancelPhase(s, s.runs[id], false, true), Accepted)
    case PhaseDone(i, at) =>
      if i >= |s.phases| then (s, Stale) else (s.(phases := s.phases[i := s.phases[i].(done := true)]), Accepted)
    case Clean(run, at) =>
      if s.held.Some? && Keeps(s, s.runs[s.held.value], run, at) then (s, Busy)
      else (LetGo(s), Accepted)
    case _ =>
      if s.held.None? || !Addresses(e.ref, s.runs[s.held.value]) then (s, Stale) else Call(s, e)
  }

  /** A call of the controller that the held run answers. */
  function Call(s: State, e: Event): (State, Reply)
    requires WellIndexed(s) && s.held.Some?
    requires e.Heartbeat? || e.StartPhase? || e.Stop? || e.Release?
  {
    var id := s.held.value;
    var r := s.runs[id];
    match e
    case Heartbeat(_, at, from) =>
      if at >= r.leaseUntil then (s, Stale) else (WithRun(s, id, r.(leaseUntil := from + r.claim.lease)), Accepted)
    case StartPhase(_, phase, at) =>
      if at >= r.leaseUntil then (s, Stale)
      else if Running(s, r) then (s, PhaseRunning)
      else if phase in r.phases then (s, Duplicate)
      else (Begin(s, id, phase), Accepted)
    case Stop(_, hard, _) => (CancelPhase(s, r, hard, false), Accepted)
    case Release(_, _) => (LetGo(s), Accepted)
  }

  const INITIAL := State(None, [], [])

  // ---------------------------------------------------------------- what every reachable state keeps

  /** Neither finished nor told to stop. */
  predicate Live(p: Phase) { !p.done && !p.cancelled }

  predicate PhasesIndexed(s: State) {
    && (forall i | 0 <= i < |s.phases| :: s.phases[i].owner < |s.runs|)
    && (forall i | 0 <= i < |s.phases| ::
          s.phases[i].id in s.runs[s.phases[i].owner].phases && s.runs[s.phases[i].owner].phases[s.phases[i].id] == i)
  }

  predicate CurrentOwned(s: State)
    requires WellIndexed(s)
  {
    forall r | 0 <= r < |s.runs| && s.runs[r].current.Some? :: s.phases[s.runs[r].current.value].owner == r
  }

  /** Phases of one prepared run follow each other: all but the current one are over. */
  predicate OneAfterAnother(s: State)
    requires PhasesIndexed(s)
  {
    forall i | 0 <= i < |s.phases| && !s.phases[i].done :: s.runs[s.phases[i].owner].current == Some(i)
  }

  predicate OnlyHeldLives(s: State) {
    forall i | 0 <= i < |s.phases| && Live(s.phases[i]) :: s.held == Some(s.phases[i].owner)
  }

  /** A run remembers no other phase IDs than those of its phases. */
  predicate NothingElse(s: State) {
    forall r, id | 0 <= r < |s.runs| && id in s.runs[r].phases ::
      var i := s.runs[r].phases[id];
      i < |s.phases| && s.phases[i].owner == r && s.phases[i].id == id
  }

  predicate Coherent(s: State) {
    && WellIndexed(s) && PhasesIndexed(s) && NothingElse(s) && CurrentOwned(s) && OneAfterAnother(s) && OnlyHeldLives(s)
    && (forall i | 0 <= i < |s.phases| && (s.phases[i].expired || s.phases[i].aborted) :: s.phases[i].cancelled)
    && (forall r | 0 <= r < |s.runs| :: s.runs[r].claim.lease > 0)
  }

  lemma CancelKeeps(s: State, id: nat, aborted: bool, expired: bool)
    requires Coherent(s) && id < |s.runs|
    ensures
      var t := CancelPhase(s, s.runs[id], aborted, expired);
      && Coherent(t) && t.runs == s.runs && t.held == s.held && |t.phases| == |s.phases|
      && (forall i | 0 <= i < |s.phases| && Live(t.phases[i]) :: s.phases[i].owner != id)
      && (forall i | 0 <= i < |s.phases| && s.phases[i].owner != id :: t.phases[i] == s.phases[i])
  {
  }

  lemma LetGoKeeps(s: State)
    requires Coherent(s)
    ensures Coherent(LetGo(s)) && forall i | 0 <= i < |s.phases| :: !Live(LetGo(s).phases[i])
  {
    if s.held.Some? { CancelKeeps(s, s.held.value, true, false); }
  }

  lemma BeginKeeps(s: State, id: nat, phase: string)
    requires Coherent(s) && s.held == Some(id) && !Running(s, s.runs[id]) && phase !in s.runs[id].phases
    ensures Coherent(Begin(s, id, phase))
  {
    hide Begin, OneAfterAnother, OnlyHeldLives, PhasesIndexed, NothingElse, CurrentOwned;
    BeginIndexes(s, id, phase);
    BeginOrders(s, id, phase);
  }

  lemma BeginIndexes(s: State, id: nat, phase: string)
    requires Coherent(s) && id < |s.runs| && phase !in s.runs[id].phases
    ensures
      var t := Begin(s, id, phase);
      && WellIndexed(t) && CurrentOwned(t) && PhasesIndexed(t) && NothingElse(t)
      && (forall i | 0 <= i < |t.phases| && (t.phases[i].expired || t.phases[i].aborted) :: t.phases[i].cancelled)
      && (forall r | 0 <= r < |t.runs| :: t.runs[r].claim.lease > 0)
  {
    hide OneAfterAnother, OnlyHeldLives;
  }

  lemma BeginOrders(s: State, id: nat, phase: string)
    requires Coherent(s) && s.held == Some(id) && !Running(s, s.runs[id]) && PhasesIndexed(Begin(s, id, phase))
    ensures OneAfterAnother(Begin(s, id, phase)) && OnlyHeldLives(Begin(s, id, phase))
  {
    hide NothingElse;
  }

  lemma TakeKeeps(s: State, c: Claim, from: int)
    requires Coherent(s) && c.lease > 0 && forall i | 0 <= i < |s.phases| :: !Live(s.phases[i])
    ensures Coherent(Take(s, c, from))
  {
  }

  /** A run may change its lease, or be done with preparing. */
  lemma RenewKeeps(s: State, id: nat, until: int, preparing: bool)
    requires Coherent(s) && id < |s.runs|
    ensures Coherent(WithRun(s, id, s.runs[id].(leaseUntil := until, preparing := preparing)))
  {
  }

  lemma DoneKeeps(s: State, i: nat)
    requires Coherent(s) && i < |s.phases|
    ensures Coherent(s.(phases := s.phases[i := s.phases[i].(done := true)]))
  {
  }

  lemma StepKeeps(s: State, e: Event)
    requires Coherent(s)
    ensures Coherent(Step(s, e).0)
  {
    hide CancelPhase, LetGo, Begin, Take, WithRun, PhasesIndexed, NothingElse, CurrentOwned, OneAfterAnother,
      OnlyHeldLives, Running;
    match e
    case PrepareBegin(c, at, from) =>
      LetGoKeeps(s);
      TakeKeeps(LetGo(s), Effective(c), from);
    case PrepareEnd(id, at) =>
      if id < |s.runs| {
        RenewKeeps(s, id, at + s.runs[id].claim.lease, false);
        RenewKeeps(s, id, s.runs[id].leaseUntil, false);
      }
    case Tick(id, at) =>
      if id < |s.runs| { CancelKeeps(s, id, false, true); }
    case PhaseDone(i, at) =>
      if i < |s.phases| { DoneKeeps(s, i); }
    case Clean(run, at) =>
      LetGoKeeps(s);
    case _ =>
      if s.held.Some? { CallKeeps(s, e); }
  }

  lemma CallKeeps(s: State, e: Event)
    requires Coherent(s) && s.held.Some?
    requires e.Heartbeat? || e.StartPhase? || e.Stop? || e.Release?
    ensures Coherent(Call(s, e).0)
  {
    hide CancelPhase, LetGo, Begin, WithRun, PhasesIndexed, NothingElse, CurrentOwned, OneAfterAnother, OnlyHeldLives;
    var id := s.held.value;
    match e
    case Heartbeat(_, at, from) => RenewKeeps(s, id, from + s.runs[id].claim.lease, s.runs[id].preparing);
    case StartPhase(_, phase, at) =>
      if !Running(s, s.runs[id]) && phase !in s.runs[id].phases { BeginKeeps(s, id, phase); }
    case Stop(_, hard, at) => CancelKeeps(s, id, hard, false);
    case Release(_, at) => LetGoKeeps(s);
  }

  // ---------------------------------------------------------------- runs of the protocol

  function Play(s: State, events: seq<Event>): State
    requires Coherent(s)
    decreases |events|
  {
    if events == [] then s
    else
      StepKeeps(s, events[0]);
      Play(Step(s, events[0]).0, events[1..])
  }

  /** The clock never runs backwards. */
  predicate Orderly(now: int, events: seq<Event>)
    decreases |events|
  {
    events == [] || (now <= events[0].at <= events[0].End() && Orderly(events[0].End(), events[1..]))
  }

  lemma {:induction false} PlayKeeps(s: State, events: seq<Event>)
    requires Coherent(s)
    ensures Coherent(Play(s, events))
    decreases |events|
  {
    if events != [] {
      StepKeeps(s, events[0]);
      PlayKeeps(Step(s, events[0]).0, events[1..]);
    }
  }

  /** However calls, ticks and endings interleave: at most one phase is neither finished nor told to
      stop, and it is the current phase of the held run; the phases of one prepared run have
      different IDs and follow each other. */
  lemma OnePhaseAtATime(events: seq<Event>)
    ensures
      var s := Play(INITIAL, events);
      && (forall i, j | 0 <= i < |s.phases| && 0 <= j < |s.phases| && Live(s.phases[i]) && Live(s.phases[j]) :: i == j)
      && (forall i | 0 <= i < |s.phases| && Live(s.phases[i]) ::
            && s.held == Some(s.phases[i].owner) && s.phases[i].owner < |s.runs|
            && s.runs[s.phases[i].owner].current == Some(i))
      && (forall i, j | 0 <= i < j < |s.phases| && s.phases[i].owner == s.phases[j].owner ::
           s.phases[i].id != s.phases[j].id)
      && (forall i, j | 0 <= i < j < |s.phases| && s.phases[i].owner == s.phases[j].owner ::
           s.phases[i].done || s.phases[j].done)
  {
    PlayKeeps(INITIAL, events);
  }

  // ---------------------------------------------------------------- who may take the agent

  predicate Valid(s: State, at: int)
    requires WellIndexed(s)
  {
    s.held.Some? && at < s.runs[s.held.value].leaseUntil
  }

  /** Someone entitled to the agent takes it or gives it up. */
  predicate ByRight(e: Event, r: Run) {
    (e.PrepareBegin? && Supersedes(e.claim, r)) || (e.Release? && Addresses(e.ref, r))
  }

  /** A valid lease changes hands only by right, and then to the same run in no lower generation. */
  lemma ValidLeaseIsRespected(s: State, e: Event)
    requires Coherent(s) && Valid(s, e.at)
    ensures
      var t, r := Step(s, e).0, s.runs[s.held.value];
      if ByRight(e, r) then
        if e.Release? then t.held == None
        else t.held == Some(|s.runs|) && |t.runs| == |s.runs| + 1 && t.runs[|s.runs|].claim == Effective(e.claim)
      else t.held == s.held && |t.runs| == |s.runs| && t.runs[s.held.value].claim == r.claim
    ensures e.PrepareBegin? && !Supersedes(e.claim, s.runs[s.held.value]) ==> Step(s, e) == (s, Busy)
  {
    hide PhasesIndexed, NothingElse, CurrentOwned, OneAfterAnother, OnlyHeldLives;
  }

  /** The deadline as the controller that sends `ref` can tell it. */
  function Deadline(until: int, e: Event, ref: Ref, lease: int): int {
    if e.Heartbeat? && e.ref == ref then e.from + lease else until
  }

  /** Before every deadline there was another heartbeat of `ref`, and nobody acted by right. */
  predicate KeptUp(until: int, events: seq<Event>, ref: Ref, r: Run)
    decreases |events|
  {
    events == []
    || (events[0].at < until && !ByRight(events[0], r)
        && KeptUp(Deadline(until, events[0], ref, r.claim.lease), events[1..], ref, r))
  }

  function LastDeadline(until: int, events: seq<Event>, ref: Ref, lease: int): int
    decreases |events|
  {
    if events == [] then until else LastDeadline(Deadline(until, events[0], ref, lease), events[1..], ref, lease)
  }

  /** A controller that keeps up its heartbeats keeps its agent, whatever others try. */
  lemma {:induction false} HeartbeatsKeepTheAgent(s: State, until: int, now: int, events: seq<Event>, ref: Ref)
    requires Coherent(s) && s.held.Some? && Addresses(ref, s.runs[s.held.value])
    requires until <= s.runs[s.held.value].leaseUntil && until <= now + s.runs[s.held.value].claim.lease
    requires Orderly(now, events) && KeptUp(until, events, ref, s.runs[s.held.value])
    ensures
      var t, h := Play(s, events), s.held.value;
      && t.held == s.held && h < |t.runs| && t.runs[h].claim == s.runs[h].claim
      && LastDeadline(until, events, ref, s.runs[h].claim.lease) <= t.runs[h].leaseUntil
    decreases |events|
  {
    hide PhasesIndexed, NothingElse, CurrentOwned, OneAfterAnother, OnlyHeldLives, CancelPhase, Begin;
    if events != [] {
      var e, h := events[0], s.held.value;
      var t, lease := Step(s, e).0, s.runs[h].claim.lease;
      StepKeeps(s, e);
      ValidLeaseIsRespected(s, e);
      LeaseAfter(s, e);
      KeptUpIgnores(Deadline(until, e, ref, lease), events[1..], ref, s.runs[h], t.runs[h]);
      HeartbeatsKeepTheAgent(t, Deadline(until, e, ref, lease), e.End(), events[1..], ref);
    }
  }

  lemma {:induction false} KeptUpIgnores(until: int, events: seq<Event>, ref: Ref, r: Run, q: Run)
    requires KeptUp(until, events, ref, r) && q.claim == r.claim
    ensures KeptUp(until, events, ref, q)
    decreases |events|
  {
    if events != [] { KeptUpIgnores(Deadline(until, events[0], ref, r.claim.lease), events[1..], ref, r, q); }
  }

  /** What an event does to the lease of the held run that stays held. */
  lemma LeaseAfter(s: State, e: Event)
    requires Coherent(s) && Valid(s, e.at) && !ByRight(e, s.runs[s.held.value])
    ensures
      var h := s.held.value;
      var r := s.runs[h];
      var t := Step(s, e).0;
      && h < |t.runs|
      && t.runs[h].leaseUntil
         == if e.Heartbeat? && Addresses(e.ref, r) then e.from + r.claim.lease
            else if e.PrepareEnd? && e.id == h && r.preparing then e.at + r.claim.lease
            else r.leaseUntil
  {
    hide PhasesIndexed, NothingElse, CurrentOwned, OneAfterAnother, OnlyHeldLives;
  }

  // ---------------------------------------------------------------- generations

  /** Every event finds the lease of the held run valid, and none gives the agent up. */
  predicate Covered(s: State, events: seq<Event>)
    requires Coherent(s)
    decreases |events|
  {
    events == []
    || (Valid(s, events[0].at) && !(events[0].Release? && ByRight(events[0], s.runs[s.held.value]))
        && (StepKeeps(s, events[0]); Covered(Step(s, events[0]).0, events[1..])))
  }

  /** As long as the lease is covered the agent stays with one run whose generation only rises, so
      every call of an older generation is refused and changes nothing. */
  lemma {:induction false} OlderGenerationsAreFencedOff(s: State, events: seq<Event>, stale: Event)
    requires Coherent(s) && s.held.Some? && Covered(s, events)
    requires stale.Heartbeat? || stale.StartPhase? || stale.Stop? || stale.Release?
    requires !Addresses(stale.ref, s.runs[s.held.value])
    ensures
      var t, c := Play(s, events), s.runs[s.held.value].claim;
      && WellIndexed(t) && t.held.Some?
      && t.runs[t.held.value].claim.run == c.run && t.runs[t.held.value].claim.generation >= c.generation
      && Step(t, stale) == (t, Stale)
    decreases |events|
  {
    hide PhasesIndexed, NothingElse, CurrentOwned, OneAfterAnother, OnlyHeldLives, CancelPhase, Begin;
    if events != [] {
      StepKeeps(s, events[0]);
      ValidLeaseIsRespected(s, events[0]);
      OlderGenerationsAreFencedOff(Step(s, events[0]).0, events[1..], stale);
    }
  }

  /** A resumed controller takes the agent at once, valid lease or not; what ran before is told to
      stop and what is called in the generation before is refused. */
  lemma ResumeTakesOver(s: State, c: Claim, at: int, from: int, stale: Event)
    requires Coherent(s) && s.held.Some? && Supersedes(c, s.runs[s.held.value])
    requires stale.Heartbeat? || stale.StartPhase? || stale.Stop? || stale.Release?
    requires stale.ref.run == c.run && stale.ref.generation < c.generation
    ensures
      var (t, reply) := Step(s, PrepareBegin(c, at, from));
      && reply == Accepted && t.held == Some(|s.runs|) && |t.runs| == |s.runs| + 1
      && t.runs[|s.runs|].claim == Effective(c)
      && (forall i | 0 <= i < |t.phases| :: !Live(t.phases[i]))
      && WellIndexed(t) && Step(t, stale) == (t, Stale)
  {
    StepKeeps(s, PrepareBegin(c, at, from));
    LetGoKeeps(s);
  }

  /** The order of generations needs the lease: in no other way than by preparing a lower generation of
      the held run once its lease has run out does the agent go back to one, and then it always does. */
  lemma GenerationFallsExactlyWhen(s: State, e: Event)
    requires Coherent(s) && s.held.Some?
    ensures
      var t, was := Step(s, e).0, s.runs[s.held.value];
      && WellIndexed(t)
      && ((t.held.Some? && t.runs[t.held.value].claim.run == was.claim.run
           && t.runs[t.held.value].claim.generation < was.claim.generation)
          <==> e.PrepareBegin? && e.claim.run == was.claim.run && e.claim.generation < was.claim.generation
               && e.at >= was.leaseUntil)
  {
    hide PhasesIndexed, NothingElse, CurrentOwned, OneAfterAnother, OnlyHeldLives;
    StepKeeps(s, e);
  }

  /** Generation 2 prepared, its lease of 10 run out, generation 1 prepared. */
  lemma ExpiredLeaseLetsGenerationsFall()
    ensures
      var s := Play(INITIAL, [PrepareBegin(Claim("r", 2, 10), 0, 0), PrepareBegin(Claim("r", 1, 10), 10, 10)]);
      && WellIndexed(s) && s.held.Some? && s.runs[s.held.value].claim == Claim("r", 1, 10)
  {
    var e, f := PrepareBegin(Claim("r", 2, 10), 0, 0), PrepareBegin(Claim("r", 1, 10), 10, 10);
    var s := Step(INITIAL, e).0;
    StepKeeps(INITIAL, e);
    StepKeeps(s, f);
    assert Play(s, [f]) == Step(s, f).0;
    assert [e, f][1..] == [f];
  }

  // ---------------------------------------------------------------- stopping, releasing and cleaning

  /** The caller speaks for the held run, in its generation or a later one. */
  predicate Speaks(s: State, ref: Ref)
    requires WellIndexed(s)
  {
    s.held.Some? && ref.run == s.runs[s.held.value].claim.run
    && ref.generation >= s.runs[s.held.value].claim.generation
  }

  /** Phase i is the current one of the held run. */
  predicate Current(s: State, i: nat)
    requires WellIndexed(s)
  {
    s.held.Some? && s.runs[s.held.value].current == Some(i)
  }

  /** A stop is accepted exactly from who speaks for the held run. It then cancels that run's current phase,
      and aborts it if it is hard, so that nothing is live any more; nothing else changes. */
  lemma StopStopsThePhase(s: State, ref: Ref, hard: bool, at: int)
    requires Coherent(s)
    ensures
      var (t, reply) := Step(s, Stop(ref, hard, at));
      && reply == (if Speaks(s, ref) then Accepted else Stale) && (reply == Stale ==> t == s)
      && t.held == s.held && t.runs == s.runs && |t.phases| == |s.phases|
      && (reply == Accepted ==>
            && (forall i | 0 <= i < |s.phases| :: !Live(t.phases[i]))
            && forall i | 0 <= i < |s.phases| ::
                 t.phases[i] == if Current(s, i) then
                                  s.phases[i].(cancelled := true, aborted := s.phases[i].aborted || hard)
                                else s.phases[i])
  {
    hide PhasesIndexed, NothingElse;
  }

  /** A preparation is admitted exactly when the lease is not valid or the claim carries the held run on. It then
      holds the agent under a lease of the claimed length, of 20 seconds if none is claimed, and has no phases
      yet; what the run before still did is aborted. */
  lemma PreparationTakesExactlyWhen(s: State, c: Claim, at: int, from: int)
    requires Coherent(s)
    ensures
      var (t, reply) := Step(s, PrepareBegin(c, at, from));
      var lease := if c.lease > 0 then c.lease else 20_000_000_000;
      if s.held.None? || s.runs[s.held.value].leaseUntil <= at
         || (c.run == s.runs[s.held.value].claim.run && c.generation >= s.runs[s.held.value].claim.generation)
      then
        && reply == Accepted && t.held == Some(|s.runs|)
        && t.runs == s.runs + [Run(Claim(c.run, c.generation, lease), from + lease, true, map[], None)]
        && |t.phases| == |s.phases|
        && forall i | 0 <= i < |s.phases| ::
             t.phases[i] == if Current(s, i) then s.phases[i].(cancelled := true, aborted := true) else s.phases[i]
      else reply == Busy && t == s
  {
    hide PhasesIndexed, NothingElse, CurrentOwned, OneAfterAnother, OnlyHeldLives;
  }

  /** A heartbeat is accepted exactly from who speaks for the held run before its lease has run out; the lease
      then lasts its length from now, and nothing else changes. */
  lemma HeartbeatRenewsExactlyWhen(s: State, ref: Ref, at: int, from: int)
    requires Coherent(s)
    ensures
      var (t, reply) := Step(s, Heartbeat(ref, at, from));
      if Speaks(s, ref) && at < s.runs[s.held.value].leaseUntil then
        var r := s.runs[s.held.value];
        && reply == Accepted && t.held == s.held && t.phases == s.phases
        && t.runs == s.runs[s.held.value := r.(leaseUntil := from + r.claim.lease)]
      else reply == Stale && t == s
  {
  }

  /** A phase that starts is the current one of the held run and live; one that does not start changes nothing and
      is told why: not the holder or no lease, a phase still running, or a name used before. */
  lemma StartMakesItLive(s: State, ref: Ref, phase: string, at: int)
    requires Coherent(s)
    ensures
      var (t, reply) := Step(s, StartPhase(ref, phase, at));
      if !Speaks(s, ref) || s.runs[s.held.value].leaseUntil <= at then reply == Stale && t == s
      else
        var h := s.held.value;
        if exists i :: 0 <= i < |s.phases| && s.phases[i].owner == h && !s.phases[i].done then
          reply == PhaseRunning && t == s
        else if exists i :: 0 <= i < |s.phases| && s.phases[i].owner == h && s.phases[i].id == phase then
          reply == Duplicate && t == s
        else
          && reply == Accepted && t.held == s.held && Current(t, |s.phases|)
          && t.phases == s.phases + [Phase(h, phase, false, false, false, false)]
          && t.runs[h].claim == s.runs[h].claim && t.runs[h].leaseUntil == s.runs[h].leaseUntil
          && forall r | 0 <= r < |s.runs| && r != h :: t.runs[r] == s.runs[r]
  {
    hide OnlyHeldLives;
    if s.held.Some? {
      var r := s.runs[s.held.value];
      if phase in r.phases { assert s.phases[r.phases[phase]].id == phase; }
      if r.current.Some? { assert s.phases[r.current.value].owner == s.held.value; }
    }
  }

  /** The end of a preparation: from here on the lease counts if the run is still held, and the run is no longer
      being prepared. */
  lemma PreparationEnds(s: State, id: nat, at: int)
    requires Coherent(s) && id < |s.runs| && s.runs[id].preparing
    ensures
      var (t, reply) := Step(s, PrepareEnd(id, at));
      var until := if s.held == Some(id) then at + s.runs[id].claim.lease else s.runs[id].leaseUntil;
      && reply == Accepted && t.held == s.held && t.phases == s.phases
      && t.runs == s.runs[id := s.runs[id].(preparing := false, leaseUntil := until)]
  {
  }

  /** Letting the held run go aborts its current phase and changes no run. */
  ghost predicate LetsGo(s: State, t: State)
    requires WellIndexed(s)
  {
    && t.held == None && t.runs == s.runs && |t.phases| == |s.phases|
    && forall i | 0 <= i < |s.phases| ::
         t.phases[i] == if Current(s, i) then s.phases[i].(cancelled := true, aborted := true) else s.phases[i]
  }

  lemma ReleaseLetsGo(s: State, ref: Ref, at: int)
    requires Coherent(s)
    ensures
      var (t, reply) := Step(s, Release(ref, at));
      if Speaks(s, ref) then reply == Accepted && LetsGo(s, t) else reply == Stale && t == s
  {
    hide PhasesIndexed, NothingElse, CurrentOwned, OneAfterAnother, OnlyHeldLives;
  }

  /** A cleanup lets go of a run of its name when its lease has run out and all its phases are done, and
      is refused by any other held run. */
  lemma CleanLetsGoExactlyWhen(s: State, run: string, at: int)
    requires Coherent(s)
    ensures
      var (t, reply) := Step(s, Clean(run, at));
      if s.held.None? then reply == Accepted && t == s
      else if s.runs[s.held.value].claim.run == run && s.runs[s.held.value].leaseUntil <= at
              && forall i | 0 <= i < |s.phases| && s.phases[i].owner == s.held.value :: s.phases[i].done
      then reply == Accepted && LetsGo(s, t)
      else reply == Busy && t == s
  {
    hide PhasesIndexed, NothingElse, OnlyHeldLives;
  }

  /** What makes a phase that is neither finished nor cancelled stop being so: its end, a stop or release by
      who speaks for its run, a preparation that takes the agent, or the watchdog of its run after the lease.
      Nothing else does. */
  lemma LiveEndsExactlyWhen(s: State, i: nat, e: Event)
    requires Coherent(s) && i < |s.phases| && Live(s.phases[i])
    ensures
      && s.held.Some? && i < |Step(s, e).0.phases|
      && var r := s.runs[s.held.value];
         !Live(Step(s, e).0.phases[i]) <==>
           match e
           case PhaseDone(index, _) => index == i
           case Stop(ref, _, _) => Speaks(s, ref)
           case Release(ref, _) => Speaks(s, ref)
           case PrepareBegin(c, at, _) =>
             at >= r.leaseUntil || (c.run == r.claim.run && c.generation >= r.claim.generation)
           case Tick(id, at) => s.held == Some(id) && at >= r.leaseUntil
           case _ => false
  {
    hide PhasesIndexed, NothingElse;
    assert Current(s, i);
  }

  // ---------------------------------------------------------------- expiry

  /** A lease that has run out stays out: nothing renews it and its run starts nothing, however long
      the protocol goes on, unless the run is still being prepared. */
  lemma {:induction false} ExpiredStaysExpired(s: State, id: nat, now: int, events: seq<Event>)
    requires Coherent(s) && id < |s.runs| && s.runs[id].leaseUntil <= now && !s.runs[id].preparing
    requires Orderly(now, events)
    ensures id < |Play(s, events).runs| && Play(s, events).runs[id] == s.runs[id]
    decreases |events|
  {
    hide PhasesIndexed, NothingElse, CurrentOwned, OneAfterAnother, OnlyHeldLives;
    if events != [] {
      StepKeeps(s, events[0]);
      ExpiredStaysExpired(Step(s, events[0]).0, id, events[0].End(), events[1..]);
    }
  }

  /** Exactly the end of its own preparation revives an expired lease, and only while the run is held. */
  lemma RevivedByPreparationOnly(s: State, id: nat, e: Event)
    requires Coherent(s) && id < |s.runs| && s.runs[id].leaseUntil <= e.at
    ensures
      var t := Step(s, e).0;
      && id < |t.runs|
      && (t.runs[id].leaseUntil != s.runs[id].leaseUntil <==>
          e.PrepareEnd? && e.id == id && s.runs[id].preparing && s.held == Some(id))
  {
    hide PhasesIndexed, NothingElse, CurrentOwned, OneAfterAnother, OnlyHeldLives;
  }

  /** Once the watchdog has found the lease expired nothing is sent any more until somebody prepares. */
  lemma WatchdogStopsSending(s: State, id: nat, at: int, events: seq<Event>)
    requires Coherent(s) && s.held == Some(id) && s.runs[id].leaseUntil <= at && !s.runs[id].preparing
    requires Orderly(at, events) && forall e | e in events :: !e.PrepareBegin?
    ensures
      var t := Play(s, [Tick(id, at)] + events);
      forall i | 0 <= i < |t.phases| :: !Live(t.phases[i])
  {
    var tick := Tick(id, at);
    StepKeeps(s, tick);
    CancelKeeps(s, id, false, true);
    assert ([tick] + events)[1..] == events;
    StaysSilent(Step(s, tick).0, id, at, events);
  }

  lemma {:induction false} StaysSilent(s: State, id: nat, now: int, events: seq<Event>)
    requires Coherent(s) && (s.held == None || s.held == Some(id))
    requires id < |s.runs| && s.runs[id].leaseUntil <= now && !s.runs[id].preparing
    requires forall i | 0 <= i < |s.phases| :: !Live(s.phases[i])
    requires Orderly(now, events) && forall e | e in events :: !e.PrepareBegin?
    ensures forall i | 0 <= i < |Play(s, events).phases| :: !Live(Play(s, events).phases[i])
    decreases |events|
  {
    hide PhasesIndexed, NothingElse, CurrentOwned, OneAfterAnother, OnlyHeldLives;
    if events != [] {
      var e := events[0];
      StepKeeps(s, e);
      PhasesOnlyEnd(s, e);
      StaysSilent(Step(s, e).0, id, e.End(), events[1..]);
    }
  }

  /** Phases never come back: who is finished or told to stop remains so. */
  lemma PhasesOnlyEnd(s: State, e: Event)
    requires Coherent(s)
    ensures
      var t := Step(s, e).0;
      && |s.phases| <= |t.phases|
      && forall i | 0 <= i < |s.phases| ::
           && t.phases[i].owner == s.phases[i].owner && t.phases[i].id == s.phases[i].id
           && (s.phases[i].done ==> t.phases[i].done) && (s.phases[i].cancelled ==> t.phases[i].cancelled)
  {
    hide PhasesIndexed, NothingElse, CurrentOwned, OneAfterAnother, OnlyHeldLives;
  }

  /** A run that lost the agent never gets it back and starts no further phase. */
  lemma {:induction false} NeverHeldAgain(s: State, id: nat, events: seq<Event>)
    requires Coherent(s) && id < |s.runs| && s.held != Some(id)
    ensures
      var t := Play(s, events);
      && t.held != Some(id) && id < |t.runs| && t.runs[id].phases == s.runs[id].phases
      && t.runs[id].leaseUntil == s.runs[id].leaseUntil
    decreases |events|
  {
    hide PhasesIndexed, NothingElse, CurrentOwned, OneAfterAnother, OnlyHeldLives;
    if events != [] {
      StepKeeps(s, events[0]);
      NeverHeldAgain(Step(s, events[0]).0, id, events[1..]);
    }
  }

  /** A phase starts exactly when its run is held in this or an older generation under a valid
      lease, nothing of it is running and it never started a phase of that name. */
  lemma StartsExactlyWhen(s: State, ref: Ref, phase: string, at: int)
    requires Coherent(s)
    ensures
      Step(s, StartPhase(ref, phase, at)).1 == Accepted <==>
        && Valid(s, at) && Addresses(ref, s.runs[s.held.value])
        && forall i | 0 <= i < |s.phases| && s.phases[i].owner == s.held.value ::
             s.phases[i].done && s.phases[i].id != phase
  {
    if s.held.Some? {
      var r := s.runs[s.held.value];
      if phase in r.phases { assert s.phases[r.phases[phase]].id == phase; }
      if r.current.Some? { assert s.phases[r.current.value].owner == s.held.value; }
    }
  }

  /** Only within one preparation: a run prepared again may start a phase name again. */
  lemma PreparingAgainForgetsPhases(s: State, c: Claim, phase: string, at: int, from: int, start: int)
    requires Coherent(s) && s.held.Some? && Supersedes(c, s.runs[s.held.value])
    requires from <= start < from + Effective(c).lease
    ensures
      var t := Step(s, PrepareBegin(c, at, from)).0;
      WellIndexed(t) && Step(t, StartPhase(Ref(c.run, c.generation), phase, start)).1 == Accepted
  {
    StepKeeps(s, PrepareBegin(c, at, from));
  }

  // ---------------------------------------------------------------- the program's object

  class Worker {
    var held: Option<nat>
    var runs: seq<Run>
    var phases: seq<Phase>

    constructor ()
      ensures Snapshot() == INITIAL
    {
      held, runs, phases := None, [], [];
    }

    function Snapshot(): State
      reads this
    {
      State(held, runs, phases)
    }

    method PrepareBegin(claim: Claim, at: int, from: int) returns (reply: Reply)
      requires WellIndexed(Snapshot())
      modifies this
      ensures (Snapshot(), reply) == Step(old(Snapshot()), Event.PrepareBegin(claim, at, from))
    {
      var req := claim;
      if req.lease <= 0 { req := req.(lease := DEFAULT_LEASE); }
      if held.Some? {
        var r := runs[held.value];
        var sameRun := r.claim.run == req.run && req.generation >= r.claim.generation;
        if !sameRun && at < r.leaseUntil {
          return Busy;
        }
        ReleaseLocked();
      }
      runs := runs + [Run(req, from + req.lease, true, map[], None)];
      held := Some(|runs| - 1);
      return Accepted;
    }

    /** The last lines of a preparation: the lease counts from here. */
    method PrepareEnd(id: nat, at: int)
      requires WellIndexed(Snapshot()) && id < |runs| && runs[id].preparing
      modifies this
      ensures Snapshot() == Step(old(Snapshot()), Event.PrepareEnd(id, at)).0
    {
      runs := runs[id := runs[id].(preparing := false)];
      if held == Some(id) { runs := runs[id := runs[id].(leaseUntil := at + runs[id].claim.lease)]; }
    }

    /** One tick of the watchdog of run `id`; it goes on watching while the run is held. */
    method WatchLease(id: nat, at: int) returns (watching: bool)
      requires WellIndexed(Snapshot())
      modifies this
      ensures Snapshot() == Step(old(Snapshot()), Tick(id, at)).0 && watching == (held == Some(id))
    {
      if held != Some(id) {
        return false;
      }
      if at >= runs[id].leaseUntil && runs[id].current.Some? {
        var i := runs[id].current.value;
        phases := phases[i := phases[i].(expired := true)];
        phases := phases[i := phases[i].(cancelled := true)];
      }
      return true;
    }

    /** The held run if the caller may speak for it. */
    method RunFor(ref: Ref) returns (id: Option<nat>)
      requires WellIndexed(Snapshot())
      ensures id == if held.Some? && Addresses(ref, runs[held.value]) then held else None
    {
      if held.None? || runs[held.value].claim.run != ref.run || ref.generation < runs[held.value].claim.generation {
        return None;
      }
      return held;
    }

    method Heartbeat(ref: Ref, at: int, from: int) returns (reply: Reply)
      requires WellIndexed(Snapshot())
      modifies this
      ensures (Snapshot(), reply) == Step(old(Snapshot()), Event.Heartbeat(ref, at, from))
    {
      var id := RunFor(ref);
      if id.None? || at >= runs[id.value].leaseUntil {
        return Stale;
      }
      runs := runs[id.value := runs[id.value].(leaseUntil := from + runs[id.value].claim.lease)];
      return Accepted;
    }

    method StartPhase(ref: Ref, phase: string, at: int) returns (reply: Reply)
      requires WellIndexed(Snapshot())
      modifies this
      ensures (Snapshot(), reply) == Step(old(Snapshot()), Event.StartPhase(ref, phase, at))
    {
      var id := RunFor(ref);
      if id.None? || at >= runs[id.value].leaseUntil {
        return Stale;
      }
      var r := runs[id.value];
      if r.current.Some? && !phases[r.current.value].done {
        return PhaseRunning;
      }
      if phase in r.phases {
        return Duplicate;
      }
      var i := |phases|;
      phases := phases + [Phase(id.value, phase, false, false, false, false)];
      runs := runs[id.value := r.(phases := r.phases[phase := i], current := Some(i))];
      return Accepted;
    }

    /** A phase goroutine comes to its end. */
    method Finish(i: nat)
      requires WellIndexed(Snapshot()) && i < |phases|
      modifies this
      ensures forall at :: Snapshot() == Step(old(Snapshot()), PhaseDone(i, at)).0
    {
      phases := phases[i := phases[i].(done := true)];
    }

    method Stop(ref: Ref, hard: bool) returns (reply: Reply)
      requires WellIndexed(Snapshot())
      modifies this
      ensures forall at :: (Snapshot(), reply) == Step(old(Snapshot()), Event.Stop(ref, hard, at))
    {
      var id := RunFor(ref);
      if id.None? {
        return Stale;
      }
      if runs[id.value].current.Some? {
        var i := runs[id.value].current.value;
        phases := phases[i := phases[i].(cancelled := true)];
        if hard { phases := phases[i := phases[i].(aborted := true)]; }
        assert phases == CancelPhase(old(Snapshot()), runs[id.value], hard, false).phases;
      }
      return Accepted;
    }

    method Release(ref: Ref) returns (reply: Reply)
      requires WellIndexed(Snapshot())
      modifies this
      ensures forall at :: (Snapshot(), reply) == Step(old(Snapshot()), Event.Release(ref, at))
    {
      var id := RunFor(ref);
      if id.None? {
        return Stale;
      }
      ReleaseLocked();
      return Accepted;
    }

    /** The worker's part of a cleanup: it lets an expired, idle run of that name go. */
    method Cleanup(run: string, at: int) returns (reply: Reply)
      requires WellIndexed(Snapshot())
      modifies this
      ensures (Snapshot(), reply) == Step(old(Snapshot()), Clean(run, at))
    {
      if held.Some? {
        var r := runs[held.value];
        var running := r.current.Some? && !phases[r.current.value].done;
        if r.claim.run != run || at < r.leaseUntil || running {
          return Busy;
        }
        ReleaseLocked();
      }
      return Accepted;
    }

    method ReleaseLocked()
      requires WellIndexed(Snapshot())
      modifies this
      ensures Snapshot() == LetGo(old(Snapshot()))
    {
      if held.None? {
        return;
      }
      var r := runs[held.value];
      held := None;
      if r.current.Some? {
        var i := r.current.value;
        phases := phases[i := phases[i].(cancelled := true)];
        phases := phases[i := phases[i].(aborted := true)];
      }
    }
  }
}
