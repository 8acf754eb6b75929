/** What a load phase counts: the open-loop streams, their slots, the requests in flight and the
    ledger, in every interleaving of the goroutines. */
module Accounting {
  import opened Counts
  import opened Histogram

  datatype Stats = Stats(
    scheduled: nat, sent: nat, notSent: nat, ok: nat, fail: nat, attempts: nat, bytes: nat, codes: map<string, nat>,
    latency: Hist, failLatency: Hist, lateness: Hist, warmupSent: nat)

  const NO_STATS := Stats(0, 0, 0, 0, 0, 0, 0, map[], NONE, NONE, NONE, 0)

  /** What the recorder is told of a finished request. */
  datatype Response = Response(ok: bool, code: string, latency: real, lateness: real, attempts: int, bytes: int)

  function Bump(codes: map<string, nat>, c: string): map<string, nat> { codes[c := Count(codes, c) + 1] }

  function AtLeast(x: int, low: nat): nat { if x >= low then x else low }

  function Scheduled(s: Stats, measured: bool): Stats { if measured then s.(scheduled := s.scheduled + 1) else s }

  function NotSent(s: Stats, measured: bool): Stats {
    if measured then s.(notSent := s.notSent + 1, codes := Bump(s.codes, "not_sent")) else s
  }

  function Finished(s: Stats, measured: bool, r: Response): Stats {
    if !measured then s.(warmupSent := s.warmupSent + 1)
    else
      var t := s.(sent := s.sent + 1, attempts := s.attempts + AtLeast(r.attempts, 1),
        bytes := s.bytes + AtLeast(r.bytes, 0),
                  codes := Bump(s.codes, r.code), lateness := Add(s.lateness, r.lateness));
      if r.ok then t.(ok := t.ok + 1, latency := Add(t.latency, r.latency))
      else t.(fail := t.fail + 1, failLatency := Add(t.failLatency, r.latency))
  }

  /** Everything scheduled is accounted for, but for `open` slots still under way. */
  ghost predicate Accounted(s: Stats, open: nat) {
    && s.scheduled == s.sent + s.notSent + open
    && s.sent == s.ok + s.fail
    && Total(s.codes) == s.sent + s.notSent
    && s.latency.n == s.ok && s.failLatency.n == s.fail && s.lateness.n == s.sent
  }

  lemma BumpAddsOne(codes: map<string, nat>, c: string)
    ensures Total(Bump(codes, c)) == Total(codes) + 1
  {
    TotalSet(codes, c, Count(codes, c) + 1);
  }

  // ---------------------------------------------------------------- merging agents

  function JoinStats(s: Stats, o: Stats): Stats {
    Stats(s.scheduled + o.scheduled, s.sent + o.sent, s.notSent + o.notSent, s.ok + o.ok, s.fail + o.fail,
          s.attempts + o.attempts, s.bytes + o.bytes, Plus(s.codes, o.codes),
          Join(s.latency, o.latency), Join(s.failLatency, o.failLatency), Join(s.lateness, o.lateness),
          s.warmupSent + o.warmupSent)
  }

  /** Merging the agents of a stream keeps it accounted for. */
  lemma MergeKeepsAccounts(s: Stats, o: Stats, a: nat, b: nat)
    requires Accounted(s, a) && Accounted(o, b)
    ensures Accounted(JoinStats(s, o), a + b)
  {
    hide Plus, Total;
    TotalPlus(s.codes, o.codes);
  }

  /** Merging into an empty record copies. */
  lemma MergingIntoNothingCopies(s: Stats, a: seq<real>, b: seq<real>, c: seq<real>)
    requires s.latency == Of(a) && s.failLatency == Of(b) && s.lateness == Of(c)
    ensures JoinStats(NO_STATS, s) == s
  {
    hide Of;
    assert Of([]) == NONE by { NoneOfNothing(); }
    assert [] + a == a && [] + b == b && [] + c == c;
    MergeIsConcatenation([], a);
    MergeIsConcatenation([], b);
    MergeIsConcatenation([], c);
    assert Plus(map[], s.codes) == s.codes;
  }

  lemma NoneOfNothing()
    ensures Of([]) == NONE
  {
  }

  // ---------------------------------------------------------------- the phase

  /** A slot of a stream: offered, refused for want of a free place, flying, its result recorded,
      its ledger entry written, or closed. */
  datatype Progress = Offered | Refused | Flying | Recorded | Written | Closed

  datatype Slot = Slot(measured: bool, progress: Progress)

  datatype Stream = Stream(message: bool, slots: seq<Slot>, stats: Stats)

  datatype State = State(streams: map<string, Stream>, ledger: multiset<(string, nat)>, inflight: nat)

  datatype Event =
    | Offer(stream: string, measured: bool)
    | Launch(stream: string)
    | Refuse(stream: string)
    | WriteRefused(stream: string)
    | Respond(stream: string, k: nat, response: Response)
    | WriteResult(stream: string, k: nat, resource: bool)
    | Free(stream: string, k: nat)

  /** The stream's own loop is between two slots. */
  predicate Idle(t: Stream) { t.slots == [] || t.slots[|t.slots| - 1].progress !in {Offered, Refused} }

  predicate Last(t: Stream, p: Progress) { t.slots != [] && t.slots[|t.slots| - 1].progress == p }

  predicate At(t: Stream, k: nat, p: Progress) { k < |t.slots| && t.slots[k].progress == p }

  predicate Enabled(s: State, limit: nat, e: Event) {
    && e.stream in s.streams
    && var t := s.streams[e.stream];
       match e
       case Offer(_, _) => Idle(t)
       case Launch(_) => Last(t, Offered) && s.inflight < limit
       case Refuse(_) => Last(t, Offered) && s.inflight >= limit
       case WriteRefused(_) => Last(t, Refused)
       case Respond(_, k, _) => At(t, k, Flying)
       case WriteResult(_, k, _) => At(t, k, Recorded)
       case Free(_, k) => At(t, k, Written) && s.inflight > 0
  }

  function Index(s: State, e: Event): nat
    requires e.stream in s.streams && (e.Launch? || e.Refuse? || e.WriteRefused? ==> s.streams[e.stream].slots != [])
  {
    match e
    case Respond(_, k, _) => k
    case WriteResult(_, k, _) => k
    case Free(_, k) => k
    case Offer(_, _) => |s.streams[e.stream].slots|
    case _ => |s.streams[e.stream].slots| - 1
  }

  function Moved(t: Stream, k: nat, p: Progress): Stream
    requires k < |t.slots|
  {
    t.(slots := t.slots[k := t.slots[k].(progress := p)])
  }

  function StreamAfter(t: Stream, k: nat, e: Event): Stream
    requires e.Offer? || k < |t.slots|
  {
    match e
    case Offer(_, measured) => t.(slots := t.slots + [Slot(measured, Offered)], stats := Scheduled(t.stats, measured))
    case Launch(_) => Moved(t, k, Flying)
    case Refuse(_) => Moved(t, k, Refused).(stats := NotSent(t.stats, t.slots[k].measured))
    case WriteRefused(_) => Moved(t, k, Closed)
    case Respond(_, _, r) => Moved(t, k, Recorded).(stats := Finished(t.stats, t.slots[k].measured, r))
    case WriteResult(_, _, _) => Moved(t, k, Written)
    case Free(_, _) => Moved(t, k, Closed)
  }

  predicate Writes(t: Stream, e: Event) {
    (e.WriteRefused? && t.message) || (e.WriteResult? && (t.message || e.resource))
  }

  function Step(s: State, limit: nat, e: Event): State
    requires Enabled(s, limit, e)
  {
    var t, k := s.streams[e.stream], Index(s, e);
    State(s.streams[e.stream := StreamAfter(t, k, e)],
          if Writes(t, e) then s.ledger + multiset{(e.stream, k)} else s.ledger,
          if e.Launch? then s.inflight + 1 else if e.Free? then s.inflight - 1 else s.inflight)
  }

  // ---------------------------------------------------------------- counting slots

  predicate Under(x: Slot) { x.measured && x.progress in {Offered, Flying} }

  predicate Measured(x: Slot) { x.measured }

  predicate Busy(x: Slot) { x.progress in {Flying, Recorded, Written} }

  predicate Entered(x: Slot) { x.progress in {Written, Closed} }

  function One(b: bool): nat { if b then 1 else 0 }

  function CountSlots(slots: seq<Slot>, p: Slot -> bool): nat
    decreases |slots|
  {
    if slots == [] then 0 else CountSlots(slots[..|slots| - 1], p) + One(p(slots[|slots| - 1]))
  }

  lemma CountOneMore(slots: seq<Slot>, x: Slot, p: Slot -> bool)
    ensures CountSlots(slots + [x], p) == CountSlots(slots, p) + One(p(x))
  {
    assert (slots + [x])[..|slots|] == slots;
  }

  lemma {:induction false} CountChanged(slots: seq<Slot>, k: nat, x: Slot, p: Slot -> bool)
    requires k < |slots|
    ensures CountSlots(slots[k := x], p) == CountSlots(slots, p) - One(p(slots[k])) + One(p(x))
    decreases |slots|
  {
    var init := slots[..|slots| - 1];
    if k == |slots| - 1 {
      assert slots[k := x][..|slots| - 1] == init;
    } else {
      CountChanged(init, k, x, p);
      assert slots[k := x][..|slots| - 1] == init[k := x];
    }
  }

  lemma {:induction false} CountNone(slots: seq<Slot>, p: Slot -> bool)
    requires forall i | 0 <= i < |slots| :: !p(slots[i])
    ensures CountSlots(slots, p) == 0
    decreases |slots|
  {
    if slots != [] { CountNone(slots[..|slots| - 1], p); }
  }

  function Flights(s: State): map<string, nat> { map n | n in s.streams :: CountSlots(s.streams[n].slots, Busy) }

  function MeasuredSlots(t: Stream): nat { CountSlots(t.slots, Measured) }

  ghost predicate StreamAccounts(t: Stream) {
    && Accounted(t.stats, CountSlots(t.slots, Under))
    && t.stats.scheduled == MeasuredSlots(t)
  }

  /** Exactly one entry for every slot of a message stream that got that far, at most one for others. */
  ghost predicate LedgerAgrees(s: State) {
    forall n: string, k: nat ::
      if n !in s.streams || k >= |s.streams[n].slots| || !Entered(s.streams[n].slots[k]) then (n, k) !in s.ledger
      else if s.streams[n].message then s.ledger[(n, k)] == 1
      else s.ledger[(n, k)] <= 1
  }

  ghost predicate Coherent(s: State, limit: nat) {
    && (forall n | n in s.streams :: StreamAccounts(s.streams[n]))
    && LedgerAgrees(s)
    && s.inflight == Total(Flights(s)) && s.inflight <= limit
  }

  lemma MovedCounts(t: Stream, k: nat, p: Progress, q: Slot -> bool)
    requires k < |t.slots|
    ensures CountSlots(Moved(t, k, p).slots, q)
            == CountSlots(t.slots, q) - One(q(t.slots[k])) + One(q(t.slots[k].(progress := p)))
  {
    CountChanged(t.slots, k, t.slots[k].(progress := p), q);
  }

  /** The progress a slot must have made for the event. */
  predicate Ready(t: Stream, k: nat, e: Event) {
    match e
    case Offer(_, _) => k == |t.slots|
    case Launch(_) => At(t, k, Offered)
    case Refuse(_) => At(t, k, Offered)
    case WriteRefused(_) => At(t, k, Refused)
    case Respond(_, _, _) => At(t, k, Flying)
    case WriteResult(_, _, _) => At(t, k, Recorded)
    case Free(_, _) => At(t, k, Written)
  }

  lemma StreamKeeps(t: Stream, k: nat, e: Event)
    requires StreamAccounts(t) && Ready(t, k, e)
    ensures StreamAccounts(StreamAfter(t, k, e))
  {
    hide CountSlots, Moved, Total, Bump, Add;
    match e
    case Offer(_, measured) =>
      CountOneMore(t.slots, Slot(measured, Offered), Under);
      CountOneMore(t.slots, Slot(measured, Offered), Measured);
    case Launch(_) => MovedTwice(t, k, Flying);
    case Refuse(_) => MovedTwice(t, k, Refused); BumpAddsOne(t.stats.codes, "not_sent");
    case WriteRefused(_) => MovedTwice(t, k, Closed);
    case Respond(_, _, r) => MovedTwice(t, k, Recorded); BumpAddsOne(t.stats.codes, r.code); AddCountsOne(t.stats, r);
    case WriteResult(_, _, _) => MovedTwice(t, k, Written);
    case Free(_, _) => MovedTwice(t, k, Closed);
  }

  lemma MovedTwice(t: Stream, k: nat, p: Progress)
    requires k < |t.slots|
    ensures
      var u := Moved(t, k, p);
      && u.stats == t.stats && u.message == t.message
      && MeasuredSlots(u) == MeasuredSlots(t)
      && CountSlots(u.slots, Under)
         == CountSlots(t.slots, Under) - One(Under(t.slots[k])) + One(t.slots[k].measured && p in {Offered, Flying})
      && CountSlots(u.slots, Busy)
         == CountSlots(t.slots, Busy) - One(Busy(t.slots[k])) + One(p in {Flying, Recorded, Written})
  {
    MovedCounts(t, k, p, Under);
    MovedCounts(t, k, p, Measured);
    MovedCounts(t, k, p, Busy);
  }

  lemma AddCountsOne(s: Stats, r: Response)
    ensures Add(s.lateness, r.lateness).n == s.lateness.n + 1
    ensures Add(s.latency, r.latency).n == s.latency.n + 1 && Add(s.failLatency, r.latency).n == s.failLatency.n + 1
  {
  }

  lemma FlightsKeep(s: State, limit: nat, e: Event)
    requires Enabled(s, limit, e) && s.inflight == Total(Flights(s))
    ensures Step(s, limit, e).inflight == Total(Flights(Step(s, limit, e)))
  {
    hide CountSlots, Total, Finished, Scheduled, NotSent;
    var t, k := s.streams[e.stream], Index(s, e);
    assert Ready(t, k, e);
    var u := StreamAfter(t, k, e);
    if e.Offer? {
      CountOneMore(t.slots, Slot(e.measured, Offered), Busy);
    } else {
      MovedTwice(t, k, u.slots[k].progress);
    }
    var b := CountSlots(u.slots, Busy);
    assert Flights(Step(s, limit, e)) == Flights(s)[e.stream := b];
    TotalSet(Flights(s), e.stream, b);
  }

  lemma LedgerKeeps(s: State, limit: nat, e: Event)
    requires Enabled(s, limit, e) && LedgerAgrees(s)
    ensures LedgerAgrees(Step(s, limit, e))
  {
    hide Finished, Scheduled, NotSent;
    var t, k, u := s.streams[e.stream], Index(s, e), Step(s, limit, e);
    assert Ready(t, k, e);
    assert (e.stream, k) in u.ledger ==> u.ledger[(e.stream, k)] == s.ledger[(e.stream, k)] + One(Writes(t, e));
  }

  lemma StepKeeps(s: State, limit: nat, e: Event)
    requires Coherent(s, limit) && Enabled(s, limit, e)
    ensures Coherent(Step(s, limit, e), limit)
  {
    hide StreamAccounts, StreamAfter, LedgerAgrees, Flights, Total;
    StreamKeeps(s.streams[e.stream], Index(s, e), e);
    FlightsKeep(s, limit, e);
    LedgerKeeps(s, limit, e);
  }

  /** Nothing gets stuck: the loop of a stream always has exactly one way on, and every request can go on to its
      end. */
  lemma NothingGetsStuck(s: State, limit: nat, n: string)
    requires Coherent(s, limit) && n in s.streams
    ensures
      var t := s.streams[n];
      && (forall measured :: Enabled(s, limit, Offer(n, measured)) <==> !Last(t, Offered) && !Last(t, Refused))
      && (Enabled(s, limit, Launch(n)) <==> Last(t, Offered) && s.inflight < limit)
      && (Enabled(s, limit, Refuse(n)) <==> Last(t, Offered) && s.inflight == limit)
      && (Enabled(s, limit, WriteRefused(n)) <==> Last(t, Refused))
      && forall k | 0 <= k < |t.slots| ::
           && (forall r :: Enabled(s, limit, Respond(n, k, r)) <==> t.slots[k].progress == Flying)
           && (forall b :: Enabled(s, limit, WriteResult(n, k, b)) <==> t.slots[k].progress == Recorded)
           && (Enabled(s, limit, Free(n, k)) <==> t.slots[k].progress == Written)
  {
    hide StreamAccounts, LedgerAgrees, Total, CountSlots;
    forall k | 0 <= k < |s.streams[n].slots| && s.streams[n].slots[k].progress == Written ensures s.inflight > 0 {
      SomeFlight(s, n, k);
    }
  }

  lemma SomeFlight(s: State, n: string, k: nat)
    requires n in s.streams && k < |s.streams[n].slots| && Busy(s.streams[n].slots[k])
    ensures Total(Flights(s)) > 0
  {
    hide Total, CountSlots;
    var flights := Flights(s);
    CountSome(s.streams[n].slots, k, Busy);
    AnyFirst(flights, n);
  }

  lemma {:induction false} CountSome(slots: seq<Slot>, k: nat, p: Slot -> bool)
    requires k < |slots| && p(slots[k])
    ensures CountSlots(slots, p) > 0
    decreases |slots|
  {
    if k < |slots| - 1 { CountSome(slots[..|slots| - 1], k, p); }
  }

  // ---------------------------------------------------------------- whole phases

  ghost predicate Run(s: State, limit: nat, events: seq<Event>, t: State)
    decreases |events|
  {
    if events == [] then t == s
    else Enabled(s, limit, events[0]) && Run(Step(s, limit, events[0]), limit, events[1..], t)
  }

  /** The phase begins: streams without slots, nothing counted, nothing in flight. */
  predicate Fresh(s: State) {
    && (forall n | n in s.streams :: s.streams[n].slots == [] && s.streams[n].stats == NO_STATS)
    && s.ledger == multiset{} && s.inflight == 0
  }

  lemma FreshIsCoherent(s: State, limit: nat)
    requires Fresh(s)
    ensures Coherent(s, limit)
  {
    hide StreamAccounts, Total, CountSlots;
    forall n | n in s.streams ensures StreamAccounts(s.streams[n]) && CountSlots(s.streams[n].slots, Busy) == 0 {
      FreshStream(s.streams[n]);
    }
    TotalZero(Flights(s));
  }

  lemma FreshStream(t: Stream)
    requires t.slots == [] && t.stats == NO_STATS
    ensures StreamAccounts(t) && CountSlots(t.slots, Busy) == 0
  {
    hide Total;
    assert CountSlots([], Under) == 0 && CountSlots([], Measured) == 0;
    assert Total(t.stats.codes) == 0 by { TotalNone<string>(); }
  }

  lemma {:induction false} TotalZero(m: map<string, nat>)
    requires forall k | k in m :: m[k] == 0
    ensures Total(m) == 0
    decreases |m|
  {
    hide Total;
    if m == map[] {
      TotalNone<string>();
    } else {
      var k :| k in m;
      Fewer(m, k);
      AnyFirst(m, k);
      TotalZero(m - {k});
    }
  }

  lemma {:induction false} RunKeeps(s: State, limit: nat, events: seq<Event>, t: State)
    requires Coherent(s, limit) && Run(s, limit, events, t)
    ensures Coherent(t, limit)
    decreases |events|
  {
    hide Coherent, Step, Enabled;
    if events != [] {
      StepKeeps(s, limit, events[0]);
      RunKeeps(Step(s, limit, events[0]), limit, events[1..], t);
    }
  }

  /** The accounts of a stream close. */
  ghost predicate Balanced(s: Stats) { Accounted(s, 0) }

  /** However the goroutines of a phase interleave: never more requests in flight than allowed, and
      when every slot is closed every stream balances, has counted each measured slot once, and a
      message stream has exactly one ledger entry for every slot. */
  lemma FinishedPhaseBalances(s: State, limit: nat, events: seq<Event>, t: State)
    requires Fresh(s) && Run(s, limit, events, t)
    ensures t.inflight <= limit
    ensures
      (forall n | n in t.streams :: AllClosed(t.streams[n])) ==>
        && t.inflight == 0
        && forall n | n in t.streams ::
             && Balanced(t.streams[n].stats)
             && t.streams[n].stats.scheduled == CountSlots(t.streams[n].slots, Measured)
             && (t.streams[n].message ==> forall k: nat :: t.ledger[(n, k)] == One(k < |t.streams[n].slots|))
  {
    hide Step, Enabled, StreamAccounts, Total, CountSlots, LedgerAgrees, AllClosed, Balanced;
    FreshIsCoherent(s, limit);
    RunKeeps(s, limit, events, t);
    if forall n | n in t.streams :: AllClosed(t.streams[n]) {
      forall n | n in t.streams
        ensures
          && CountSlots(t.streams[n].slots, Busy) == 0 && Balanced(t.streams[n].stats)
          && t.streams[n].stats.scheduled == CountSlots(t.streams[n].slots, Measured)
          && (t.streams[n].message ==> forall k: nat :: t.ledger[(n, k)] == One(k < |t.streams[n].slots|))
      {
        ClosedStream(t.streams[n]);
        if t.streams[n].message { ClosedLedger(t, n); }
      }
      TotalZero(Flights(t));
    }
  }

  predicate AllClosed(t: Stream) { forall i | 0 <= i < |t.slots| :: t.slots[i].progress == Closed }

  lemma ClosedStream(t: Stream)
    requires StreamAccounts(t) && AllClosed(t)
    ensures CountSlots(t.slots, Busy) == 0 && Balanced(t.stats) && t.stats.scheduled == CountSlots(t.slots, Measured)
  {
    CountNone(t.slots, Under);
    CountNone(t.slots, Busy);
  }

  lemma ClosedLedger(s: State, n: string)
    requires LedgerAgrees(s) && n in s.streams && AllClosed(s.streams[n]) && s.streams[n].message
    ensures forall k: nat :: s.ledger[(n, k)] == One(k < |s.streams[n].slots|)
  {
  }

  // ---------------------------------------------------------------- the program's object

  class StreamRecorder {
    var s: Stats

    constructor ()
      ensures s == NO_STATS
    {
      s := NO_STATS;
    }

    method Schedule(measured: bool)
      modifies this
      ensures s == Scheduled(old(s), measured)
    {
      if !measured {
        return;
      }
      s := s.(scheduled := s.scheduled + 1);
    }

    method Code(c: string)
      modifies this
      ensures s == old(s).(codes := Bump(old(s).codes, c))
    {
      s := s.(codes := s.codes[c := Count(s.codes, c) + 1]);
    }

    method Skip(measured: bool)
      modifies this
      ensures s == NotSent(old(s), measured)
    {
      if !measured {
        return;
      }
      s := s.(notSent := s.notSent + 1);
      Code("not_sent");
    }

    method Done(measured: bool, r: Response)
      modifies this
      ensures s == Finished(old(s), measured, r)
    {
      hide Add, Bump;
      if !measured {
        s := s.(warmupSent := s.warmupSent + 1);
        return;
      }
      s := s.(sent := s.sent + 1);
      s := s.(attempts := s.attempts + AtLeast(r.attempts, 1));
      s := s.(bytes := s.bytes + AtLeast(r.bytes, 0));
      Code(r.code);
      s := s.(lateness := Add(s.lateness, r.lateness));
      if r.ok {
        s := s.(ok := s.ok + 1);
        s := s.(latency := Add(s.latency, r.latency));
      } else {
        s := s.(fail := s.fail + 1);
        s := s.(failLatency := Add(s.failLatency, r.latency));
      }
    }

    /** Adds the numbers of another agent to these, if there are any. */
    method Merge(other: Stats)
      modifies this
      ensures s == JoinStats(old(s), other)
    {
      s := s.(scheduled := s.scheduled + other.scheduled, sent := s.sent + other.sent,
        notSent := s.notSent + other.notSent,
              ok := s.ok + other.ok, fail := s.fail + other.fail, attempts := s.attempts + other.attempts,
              bytes := s.bytes + other.bytes, warmupSent := s.warmupSent + other.warmupSent);
      var codes := AddCounts(s.codes, other.codes);
      s := s.(codes := codes);
      s := s.(latency := Join(s.latency, other.latency));
      s := s.(failLatency := Join(s.failLatency, other.failLatency));
      s := s.(lateness := Join(s.lateness, other.lateness));
    }

    /** A copy: merging into nothing. */
    method Snapshot() returns (out: Stats)
      ensures out == JoinStats(NO_STATS, s)
    {
      var copy := new StreamRecorder();
      copy.Merge(s);
      out := copy.s;
    }
  }
}
