/** What the recorder of a stream holds at the end of a phase, told from the events of the phase alone. */
module Recording {
  import opened Counts
  import opened Histogram
  import opened Accounting

  // ---------------------------------------------------------------- the events of one stream

  /** Which slots of the stream were offered in the measured window, in order. */
  function Flags(events: seq<Event>, n: string): seq<bool>
    decreases |events|
  {
    if events == [] then []
    else
      var e := events[|events| - 1];
      Flags(events[..|events| - 1], n) + if e.Offer? && e.stream == n then [e.measured] else []
  }

  predicate InWindow(flags: seq<bool>, k: int) { 0 <= k < |flags| && flags[k] }

  /** The responses to the requests of the stream, of the measured slots or of the others. */
  function Answers(events: seq<Event>, n: string, measured: bool): seq<Response>
    decreases |events|
  {
    if events == [] then []
    else
      var init, e := events[..|events| - 1], events[|events| - 1];
      Answers(init, n, measured)
      + if e.Respond? && e.stream == n && InWindow(Flags(init, n), e.k) == measured then [e.response] else []
  }

  /** How many measured slots found no free place. */
  function Refusals(events: seq<Event>, n: string): nat
    decreases |events|
  {
    if events == [] then 0
    else
      var init, e := events[..|events| - 1], events[|events| - 1];
      Refusals(init, n)
      + if e.Refuse? && e.stream == n && InWindow(Flags(init, n), |Flags(init, n)| - 1) then 1 else 0
  }

  function Offers(flags: seq<bool>): nat
    decreases |flags|
  {
    if flags == [] then 0 else Offers(flags[..|flags| - 1]) + if flags[|flags| - 1] then 1 else 0
  }

  // ---------------------------------------------------------------- what the numbers tell

  /** The responses that were, or were not, successful. */
  function Those(answers: seq<Response>, ok: bool): seq<Response>
    decreases |answers|
  {
    if answers == [] then []
    else
      var last := answers[|answers| - 1];
      Those(answers[..|answers| - 1], ok) + if last.ok == ok then [last] else []
  }

  function Times(answers: seq<Response>): seq<real> {
    seq(|answers|, i requires 0 <= i < |answers| => answers[i].latency)
  }

  function Delays(answers: seq<Response>): seq<real> {
    seq(|answers|, i requires 0 <= i < |answers| => answers[i].lateness)
  }

  function WithCode(answers: seq<Response>, c: string): nat
    decreases |answers|
  {
    if answers == [] then 0
    else WithCode(answers[..|answers| - 1], c) + if answers[|answers| - 1].code == c then 1 else 0
  }

  /** A request is tried at least once, whatever the response says. */
  function Tries(answers: seq<Response>): nat
    decreases |answers|
  {
    if answers == [] then 0
    else
      var n := answers[|answers| - 1].attempts;
      Tries(answers[..|answers| - 1]) + if n < 1 then 1 else n
  }

  function Volume(answers: seq<Response>): nat
    decreases |answers|
  {
    if answers == [] then 0
    else
      var n := answers[|answers| - 1].bytes;
      Volume(answers[..|answers| - 1]) + if n < 0 then 0 else n
  }

  /** The record of these measured responses, of so many measured slots offered, refused and answered
      outside the window. */
  ghost predicate Tells(s: Stats, answers: seq<Response>, offered: nat, refused: nat, outside: nat) {
    && s.scheduled == offered && s.notSent == refused && s.warmupSent == outside
    && s.sent == |answers| && s.ok == |Those(answers, true)| && s.fail == |Those(answers, false)|
    && s.latency == Of(Times(Those(answers, true))) && s.failLatency == Of(Times(Those(answers, false)))
    && s.lateness == Of(Delays(answers))
    && s.attempts == Tries(answers) && s.bytes == Volume(answers)
    && forall c :: Count(s.codes, c) == WithCode(answers, c) + if c == "not_sent" then refused else 0
  }

  lemma OneAnswer(answers: seq<Response>, r: Response)
    ensures Times(answers + [r]) == Times(answers) + [r.latency]
    ensures Delays(answers + [r]) == Delays(answers) + [r.lateness]
    ensures forall ok :: Those(answers + [r], ok) == if r.ok == ok then Those(answers, ok) + [r] else Those(answers, ok)
    ensures forall c :: WithCode(answers + [r], c) == WithCode(answers, c) + if r.code == c then 1 else 0
    ensures Tries(answers + [r]) == Tries(answers) + if r.attempts < 1 then 1 else r.attempts
    ensures Volume(answers + [r]) == Volume(answers) + if r.bytes < 0 then 0 else r.bytes
  {
    assert (answers + [r])[..|answers|] == answers;
  }

  lemma OneTime(obs: seq<real>, x: real)
    ensures Of(obs + [x]) == Add(Of(obs), x)
  {
    assert (obs + [x])[..|obs|] == obs;
  }

  /** A finished request of the window is one response more. */
  lemma FinishedTells(s: Stats, answers: seq<Response>, offered: nat, refused: nat, outside: nat, r: Response)
    requires Tells(s, answers, offered, refused, outside)
    ensures Tells(Finished(s, true, r), answers + [r], offered, refused, outside)
    ensures Tells(Finished(s, false, r), answers, offered, refused, outside + 1)
  {
    hide Of, Add, Times, Delays, Those, WithCode, Tries, Volume;
    OneAnswer(answers, r);
    OneAnswer(Those(answers, r.ok), r);
    OneTime(Times(Those(answers, r.ok)), r.latency);
    OneTime(Delays(answers), r.lateness);
  }

  lemma RefusedTells(s: Stats, answers: seq<Response>, offered: nat, refused: nat, outside: nat, measured: bool)
    requires Tells(s, answers, offered, refused, outside)
    ensures Tells(NotSent(s, measured), answers, offered, if measured then refused + 1 else refused, outside)
    ensures Tells(Scheduled(s, measured), answers, if measured then offered + 1 else offered, refused, outside)
  {
    hide Of, Add, Times, Delays, Those, WithCode, Tries, Volume;
  }

  // ---------------------------------------------------------------- over a run

  /** The stream as the events so far left it. */
  ghost predicate Told(t: Stream, past: seq<Event>, n: string) {
    var flags := Flags(past, n);
    && |t.slots| == |flags| && (forall k | 0 <= k < |flags| :: t.slots[k].measured == flags[k])
    && Tells(t.stats, Answers(past, n, true), Offers(flags), Refusals(past, n), |Answers(past, n, false)|)
  }

  lemma OneEvent(past: seq<Event>, e: Event, n: string)
    ensures Flags(past + [e], n) == if e.Offer? && e.stream == n then Flags(past, n) + [e.measured] else Flags(past, n)
    ensures forall m ::
              Answers(past + [e], n, m)
              == if e.Respond? && e.stream == n && InWindow(Flags(past, n), e.k) == m then
                   Answers(past, n, m) + [e.response]
                 else Answers(past, n, m)
    ensures
      Refusals(past + [e], n)
      == Refusals(past, n)
         + if e.Refuse? && e.stream == n && InWindow(Flags(past, n), |Flags(past, n)| - 1) then 1 else 0
    ensures forall flags, b :: Offers(flags + [b]) == Offers(flags) + if b then 1 else 0
  {
    assert (past + [e])[..|past|] == past;
    forall flags: seq<bool>, b ensures Offers(flags + [b]) == Offers(flags) + if b then 1 else 0 {
      assert (flags + [b])[..|flags|] == flags;
    }
  }

  lemma StreamTold(t: Stream, k: nat, past: seq<Event>, e: Event)
    requires Told(t, past, e.stream) && Ready(t, k, e)
    requires match e case Respond(_, i, _) => k == i case Refuse(_) => k == |t.slots| - 1 case _ => true
    ensures Told(StreamAfter(t, k, e), past + [e], e.stream)
  {
    hide Tells, Flags, Answers, Refusals, Offers, Finished, NotSent, Scheduled;
    var n := e.stream;
    OneEvent(past, e, n);
    var answers, offered := Answers(past, n, true), Offers(Flags(past, n));
    var refused, outside := Refusals(past, n), |Answers(past, n, false)|;
    match e
    case Offer(_, measured) => RefusedTells(t.stats, answers, offered, refused, outside, measured);
    case Refuse(_) => RefusedTells(t.stats, answers, offered, refused, outside, t.slots[k].measured);
    case Respond(_, _, r) => FinishedTells(t.stats, answers, offered, refused, outside, r);
    case _ =>
  }

  lemma StepTold(s: State, limit: nat, past: seq<Event>, e: Event)
    requires Enabled(s, limit, e) && forall n | n in s.streams :: Told(s.streams[n], past, n)
    ensures forall n | n in Step(s, limit, e).streams :: Told(Step(s, limit, e).streams[n], past + [e], n)
  {
    hide Told, StreamAfter;
    StreamTold(s.streams[e.stream], Index(s, e), past, e);
    forall n | n in s.streams && n != e.stream ensures Told(s.streams[n], past + [e], n) {
      OtherStream(s.streams[n], past, e, n);
    }
  }

  lemma OtherStream(t: Stream, past: seq<Event>, e: Event, n: string)
    requires Told(t, past, n) && e.stream != n
    ensures Told(t, past + [e], n)
  {
    hide Tells, Flags, Answers, Refusals, Offers;
    OneEvent(past, e, n);
  }

  lemma {:induction false} RunTold(s: State, limit: nat, past: seq<Event>, events: seq<Event>, t: State)
    requires Run(s, limit, events, t) && forall n | n in s.streams :: Told(s.streams[n], past, n)
    ensures forall n | n in t.streams :: Told(t.streams[n], past + events, n)
    decreases |events|
  {
    hide Told, Step, Enabled;
    if events == [] {
      assert past + events == past;
    } else {
      StepTold(s, limit, past, events[0]);
      RunTold(Step(s, limit, events[0]), limit, past + [events[0]], events[1..], t);
      assert past + [events[0]] + events[1..] == past + events;
    }
  }

  lemma NothingTold(t: Stream, n: string)
    requires t.slots == [] && t.stats == NO_STATS
    ensures Told(t, [], n)
  {
    assert Times([]) == [] && Delays([]) == [];
  }

  /** However the goroutines of a phase interleave, each stream's record tells exactly what happened to its
      measured slots: how many were offered, refused and answered, which answers were successful and how long
      they took, which codes came how often, the tries and the bytes. Of the other slots it only counts the
      answers. */
  lemma RecordsTellTheEvents(s: State, limit: nat, events: seq<Event>, t: State, n: string)
    requires Fresh(s) && Run(s, limit, events, t) && n in t.streams
    ensures
      Tells(t.streams[n].stats, Answers(events, n, true), Offers(Flags(events, n)), Refusals(events, n),
            |Answers(events, n, false)|)
  {
    hide Told, Run, Tells, Answers, Refusals, Offers, Flags;
    FreshTold(s);
    RunTold(s, limit, [], events, t);
    assert [] + events == events;
    ToldTells(t.streams[n], events, n);
  }

  lemma FreshTold(s: State)
    requires Fresh(s)
    ensures forall n | n in s.streams :: Told(s.streams[n], [], n)
  {
    hide Told;
    forall n | n in s.streams ensures Told(s.streams[n], [], n) { NothingTold(s.streams[n], n); }
  }

  lemma ToldTells(t: Stream, past: seq<Event>, n: string)
    requires Told(t, past, n)
    ensures Tells(t.stats, Answers(past, n, true), Offers(Flags(past, n)), Refusals(past, n),
                  |Answers(past, n, false)|)
  {
  }

  // ---------------------------------------------------------------- merging agents

  lemma TimesBoth(a: seq<Response>, b: seq<Response>)
    ensures Times(a + b) == Times(a) + Times(b) && Delays(a + b) == Delays(a) + Delays(b)
  {
  }

  lemma {:induction false} BothTold(a: seq<Response>, b: seq<Response>)
    ensures Times(a + b) == Times(a) + Times(b) && Delays(a + b) == Delays(a) + Delays(b)
    ensures forall ok :: Those(a + b, ok) == Those(a, ok) + Those(b, ok)
    ensures forall c :: WithCode(a + b, c) == WithCode(a, c) + WithCode(b, c)
    ensures Tries(a + b) == Tries(a) + Tries(b) && Volume(a + b) == Volume(a) + Volume(b)
    decreases |b|
  {
    hide Those, WithCode, Tries, Volume, Times, Delays;
    TimesBoth(a, b);
    if b == [] {
      assert a + b == a;
      NoneTold();
    } else {
      var init, last := b[..|b| - 1], b[|b| - 1];
      BothTold(a, init);
      OneAnswer(a + init, last);
      OneAnswer(init, last);
      assert b == init + [last] && a + b == a + init + [last];
    }
  }

  lemma NoneTold()
    ensures forall ok :: Those([], ok) == []
    ensures forall c :: WithCode([], c) == 0
    ensures Tries([]) == 0 && Volume([]) == 0
  {
  }

  /** The merged record of two agents tells what happened on both. */
  lemma MergedRecordsTellBoth(s: Stats, o: Stats, a: seq<Response>, b: seq<Response>, offered: (nat, nat),
      refused: (nat, nat), outside: (nat, nat))
    requires Tells(s, a, offered.0, refused.0, outside.0) && Tells(o, b, offered.1, refused.1, outside.1)
    ensures Tells(JoinStats(s, o), a + b, offered.0 + offered.1, refused.0 + refused.1, outside.0 + outside.1)
  {
    hide Of, Join, Times, Delays, Those, WithCode, Tries, Volume;
    BothTold(a, b);
    BothTold(Those(a, true), Those(b, true));
    BothTold(Those(a, false), Those(b, false));
    MergeIsConcatenation(Times(Those(a, true)), Times(Those(b, true)));
    MergeIsConcatenation(Times(Those(a, false)), Times(Those(b, false)));
    MergeIsConcatenation(Delays(a), Delays(b));
  }
}
