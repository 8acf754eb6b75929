/** Reconciling the messages that were sent with what the platform's stores hold of them. */
module Reconciliation {
  import opened Plan
  import opened Counts

  datatype Raw = Raw(hash: string, published: bool, parseError: string)

  datatype Standard = Standard(id: string, hasProperties: bool, processedAt: nat)

  /** What one batch of queries sees; each map is what its own query found, when that was asked. */
  datatype Store = Store(
    raws: map<string, Raw>, bodies: map<string, nat>, standards: map<string, seq<Standard>>,
    telemetry: map<string, nat>, telemetryOn: bool)

  datatype State = Pending | Confirmed | Missing | Unknown | Rejected | Conflict | ParseFailed | NoBody | NoTelemetry

  datatype Message = Message(
    phase: string, measured: bool, device: string, hash: string, ingressOK: bool, result: string, scheduled: int,
    state: State, processedAt: nat, copies: nat)

  datatype Entry = Entry(
    tcp: bool, rawID: string, device: string, hash: string, measured: bool, ok: bool, result: string, scheduled: int)

  datatype Book = Book(msgs: map<string, Message>, duplicates: map<string, nat>, ackOnly: map<string, nat>)

  const BLANK := Book(map[], map[], map[])

  predicate Settled(s: State) { s == Confirmed || s == Conflict || s == ParseFailed }

  // ---------------------------------------------------------------- one message against the store

  function Standards(s: Store, id: string): seq<Standard> { if id in s.standards then s.standards[id] else [] }

  predicate AllProcessed(stds: seq<Standard>) { stds != [] && forall i | 0 <= i < |stds| :: stds[i].processedAt > 0 }

  predicate LacksTelemetry(stds: seq<Standard>, telemetry: map<string, nat>) {
    exists i :: 0 <= i < |stds| && stds[i].hasProperties && Count(telemetry, stds[i].id) == 0
  }

  function AbsentState(m: Message): State {
    if m.ingressOK then Missing
    else if |m.result| == 3 && m.result[0] == '4' then Rejected
    else Unknown
  }

  function PresentState(raw: Raw, stds: seq<Standard>, copies: nat, telemetry: map<string, nat>, on: bool,
      last: bool): State {
    if !raw.published || !AllProcessed(stds) then Pending
    else if copies == 0 then if last then NoBody else Pending
    else if on && LacksTelemetry(stds, telemetry) then if last then NoTelemetry else Pending
    else Confirmed
  }

  /** What a check from scratch says of a message. */
  function Check(m: Message, id: string, s: Store, last: bool): State {
    if id !in s.raws then if last then AbsentState(m) else Pending
    else if s.raws[id].hash != m.hash then Conflict
    else if s.raws[id].parseError != "" then ParseFailed
    else PresentState(s.raws[id], Standards(s, id), Count(s.bodies, id), s.telemetry, s.telemetryOn, last)
  }

  function Copies(id: string, s: Store): nat { if id in s.raws then Count(s.bodies, id) else 0 }

  function LatestOf(stds: seq<Standard>): (t: nat)
    ensures forall i | 0 <= i < |stds| :: stds[i].processedAt <= t
    ensures t > 0 ==> exists i :: 0 <= i < |stds| && stds[i].processedAt == t
    decreases |stds|
  {
    if stds == [] then 0
    else
      var t, last := LatestOf(stds[..|stds| - 1]), stds[|stds| - 1].processedAt;
      assert forall i | 0 <= i < |stds| - 1 :: stds[..|stds| - 1][i] == stds[i];
      if last > t then last else t
  }

  function Latest(id: string, s: Store): nat { LatestOf(Standards(s, id)) }

  /** Stored under this ID as sent, and parsed. */
  predicate Intact(m: Message, id: string, s: Store) {
    id in s.raws && s.raws[id].hash == m.hash && s.raws[id].parseError == ""
  }

  function Update(m: Message, id: string, s: Store, last: bool): Message {
    m.(state := Check(m, id, s, last), copies := Copies(id, s),
       processedAt := if Intact(m, id, s) && Latest(id, s) > m.processedAt then Latest(id, s) else m.processedAt)
  }

  /** Exactly what each verdict says of the evidence. */
  lemma VerdictsMeanEvidence(m: Message, id: string, s: Store, last: bool)
    ensures
      var v, stds := Check(m, id, s, last), Standards(s, id);
      && (v == Confirmed <==>
            && Intact(m, id, s) && s.raws[id].published && stds != [] && Count(s.bodies, id) > 0
            && forall i | 0 <= i < |stds| ::
                 && stds[i].processedAt > 0
                 && (s.telemetryOn && stds[i].hasProperties ==> Count(s.telemetry, stds[i].id) > 0))
      && (v == Conflict <==> id in s.raws && s.raws[id].hash != m.hash)
      && (v == ParseFailed <==> id in s.raws && s.raws[id].hash == m.hash && s.raws[id].parseError != "")
      && (v in {Missing, Rejected, Unknown} <==> last && id !in s.raws)
      && (v == Missing ==> m.ingressOK) && (v in {Rejected, Unknown} ==> !m.ingressOK)
      && (last && v == Pending <==> last && Intact(m, id, s) && !(s.raws[id].published && AllProcessed(stds)))
      && (!last ==> v in {Pending, Confirmed, Conflict, ParseFailed})
  {
  }

  /** The number that three digits stand for. */
  predicate IsCode(result: string, n: int) {
    |result| == 3 && (forall k | 0 <= k < 3 :: '0' <= result[k] <= '9')
    && n == 100 * (result[0] as int - 48) + 10 * (result[1] as int - 48) + result[2] as int - 48
  }

  /** What was never stored is missing if it was confirmed at the ingress, rejected if the answer was a client
      error, and of unknown fate after any other answer. */
  lemma AbsenceMeansAnswer(m: Message, id: string, s: Store, n: int)
    requires id !in s.raws
    ensures Check(m, id, s, false) == Pending
    ensures Check(m, id, s, true) == Missing <==> m.ingressOK
    ensures !m.ingressOK && IsCode(m.result, n) ==>
              Check(m, id, s, true) == if 400 <= n <= 499 then Rejected else Unknown
    ensures !m.ingressOK && |m.result| != 3 ==> Check(m, id, s, true) == Unknown
  {
  }

  /** A completion time is the latest that any check saw of the message as it was sent. */
  lemma TimesOnlyRise(m: Message, id: string, s: Store, last: bool)
    ensures
      var t := Update(m, id, s, last).processedAt;
      && m.processedAt <= t && (t == m.processedAt || t == Latest(id, s))
      && (if Intact(m, id, s) then Latest(id, s) <= t else t == m.processedAt)
  {
    hide Latest;
  }

  // ---------------------------------------------------------------- batches

  function PassOver(msgs: map<string, Message>, s: Store, ids: set<string>, last: bool): (r: map<string, Message>)
    ensures r.Keys == msgs.Keys
  {
    map id | id in msgs :: if id in ids then Update(msgs[id], id, s, last) else msgs[id]
  }

  /** What one batch asks the stores, and what they answer. */
  function RawIndexes(s: Store, ids: seq<string>): map<string, Raw> { map id | id in ids && id in s.raws :: s.raws[id] }

  function RawBodies(s: Store, ids: seq<string>): map<string, nat> {
    map id | id in ids && id in s.bodies :: s.bodies[id]
  }

  function StandardsOf(s: Store, ids: seq<string>): map<string, seq<Standard>> {
    map id | id in ids && id in s.standards :: s.standards[id]
  }

  function TelemetryOf(s: Store, ids: set<string>): map<string, nat> {
    map id | id in ids && id in s.telemetry :: s.telemetry[id]
  }

  function Open(msgs: map<string, Message>): set<string> { set id | id in msgs && !Settled(msgs[id].state) }

  // ---------------------------------------------------------------- ledgers

  predicate Identified(e: Entry) { e.result != "not_sent" && !e.tcp && e.rawID != "" }

  function Bump(counts: map<string, nat>, k: string): map<string, nat> { counts[k := Count(counts, k) + 1] }

  function Tracked(e: Entry, phase: string, offset: int): Message {
    Message(phase, e.measured, e.device, e.hash, e.ok, e.result, e.scheduled - offset, Pending, 0, 0)
  }

  function TrackOne(b: Book, e: Entry, phase: string, offset: int): Book {
    if e.result == "not_sent" then b
    else if e.tcp then if e.ok then b.(ackOnly := Bump(b.ackOnly, phase)) else b
    else if e.rawID == "" then b
    else if e.rawID in b.msgs then b.(duplicates := Bump(b.duplicates, phase))
    else b.(msgs := b.msgs[e.rawID := Tracked(e, phase, offset)])
  }

  function TrackAll(b: Book, entries: seq<Entry>, phase: string, offset: int): Book
    decreases |entries|
  {
    if entries == [] then b
    else TrackOne(TrackAll(b, entries[..|entries| - 1], phase, offset), entries[|entries| - 1], phase, offset)
  }

  function InPhase(msgs: map<string, Message>, phase: string): set<string> {
    set id | id in msgs && msgs[id].phase == phase
  }

  function IdentifiedIn(entries: seq<Entry>): nat
    decreases |entries|
  {
    if entries == [] then 0
    else IdentifiedIn(entries[..|entries| - 1]) + if Identified(entries[|entries| - 1]) then 1 else 0
  }

  /** Every ledger entry that carries an ID is one message of its phase or one duplicate, and what
      was tracked before stays as it was. */
  lemma {:induction false} TrackingCountsEveryID(b: Book, entries: seq<Entry>, phase: string, offset: int)
    ensures
      var c := TrackAll(b, entries, phase, offset);
      && |InPhase(c.msgs, phase)| + Count(c.duplicates, phase)
         == |InPhase(b.msgs, phase)| + Count(b.duplicates, phase) + IdentifiedIn(entries)
      && (forall p | p != phase ::
            InPhase(c.msgs, p) == InPhase(b.msgs, p) && Count(c.duplicates, p) == Count(b.duplicates, p))
      && (forall id | id in b.msgs :: id in c.msgs && c.msgs[id] == b.msgs[id])
      && (forall id | id in c.msgs && id !in b.msgs :: c.msgs[id].state == Pending && c.msgs[id].phase == phase)
    decreases |entries|
  {
    if entries != [] {
      var init, e := entries[..|entries| - 1], entries[|entries| - 1];
      TrackingCountsEveryID(b, init, phase, offset);
      TrackOneCounts(TrackAll(b, init, phase, offset), e, phase, offset);
    }
  }

  /** An entry that can be told apart by its ID: sent, and not over TCP. */
  predicate Bears(e: Entry, id: string) { e.result != "not_sent" && !e.tcp && e.rawID == id && id != "" }

  /** The message holds what its ledger entry says, the sending time on the controller's clock. */
  predicate Matches(m: Message, e: Entry, phase: string, offset: int) {
    && m.phase == phase && m.measured == e.measured && m.device == e.device && m.hash == e.hash
    && m.ingressOK == e.ok && m.result == e.result && m.scheduled + offset == e.scheduled
    && m.state == Pending && m.processedAt == 0 && m.copies == 0
  }

  function AckedIn(entries: seq<Entry>): nat
    decreases |entries|
  {
    if entries == [] then 0
    else
      var e := entries[|entries| - 1];
      AckedIn(entries[..|entries| - 1]) + if e.tcp && e.ok && e.result != "not_sent" then 1 else 0
  }

  /** The message is what the first entry with its ID says. */
  predicate Stems(m: Message, id: string, entries: seq<Entry>, phase: string, offset: int) {
    exists k ::
      && 0 <= k < |entries| && Bears(entries[k], id) && Matches(m, entries[k], phase, offset)
      && forall j | 0 <= j < k :: !Bears(entries[j], id)
  }

  /** Every message that a ledger adds stems from it, every entry with an ID is tracked, and the acknowledged
      TCP entries are counted. */
  lemma {:induction false} TrackingKeepsTheEntries(b: Book, entries: seq<Entry>, phase: string, offset: int)
    ensures
      var c := TrackAll(b, entries, phase, offset);
      && (forall id | id in c.msgs && id !in b.msgs :: Stems(c.msgs[id], id, entries, phase, offset))
      && (forall k | 0 <= k < |entries| && Bears(entries[k], entries[k].rawID) :: entries[k].rawID in c.msgs)
      && Count(c.ackOnly, phase) == Count(b.ackOnly, phase) + AckedIn(entries)
      && (forall p | p != phase :: Count(c.ackOnly, p) == Count(b.ackOnly, p))
    decreases |entries|
  {
    if entries != [] {
      hide Bears, Matches, TrackOne, Stems, Count;
      var init, e := entries[..|entries| - 1], entries[|entries| - 1];
      TrackingKeepsTheEntries(b, init, phase, offset);
      TrackedAllBear(b, init, phase, offset);
      var d, c := TrackAll(b, init, phase, offset), TrackAll(b, entries, phase, offset);
      TrackOneKeeps(d, e, phase, offset);
      assert entries == init + [e];
      forall id | id in c.msgs && id !in b.msgs ensures Stems(c.msgs[id], id, entries, phase, offset) {
        if id in d.msgs { StemsStill(d.msgs[id], id, init, e, phase, offset); }
        else { StemsNow(c.msgs[id], id, init, e, phase, offset); }
      }
    }
  }

  lemma StemsStill(m: Message, id: string, init: seq<Entry>, e: Entry, phase: string, offset: int)
    requires Stems(m, id, init, phase, offset)
    ensures Stems(m, id, init + [e], phase, offset)
  {
    hide Bears, Matches;
    var k :| 0 <= k < |init| && Bears(init[k], id) && Matches(m, init[k], phase, offset)
             && forall j | 0 <= j < k :: !Bears(init[j], id);
    assert (init + [e])[k] == init[k];
  }

  lemma StemsNow(m: Message, id: string, init: seq<Entry>, e: Entry, phase: string, offset: int)
    requires Bears(e, id) && Matches(m, e, phase, offset) && forall j | 0 <= j < |init| :: !Bears(init[j], id)
    ensures Stems(m, id, init + [e], phase, offset)
  {
    hide Bears, Matches;
    assert (init + [e])[|init|] == e;
  }

  /** What a ledger does not track it does not hold. */
  lemma TrackedAllBear(b: Book, entries: seq<Entry>, phase: string, offset: int)
    requires forall k | 0 <= k < |entries| && Bears(entries[k], entries[k].rawID) ::
               entries[k].rawID in TrackAll(b, entries, phase, offset).msgs
    ensures forall id | id !in TrackAll(b, entries, phase, offset).msgs ::
              forall j | 0 <= j < |entries| :: !Bears(entries[j], id)
  {
    hide TrackAll;
  }

  lemma TrackOneKeeps(d: Book, e: Entry, phase: string, offset: int)
    ensures
      var c := TrackOne(d, e, phase, offset);
      && (forall id | id in d.msgs :: id in c.msgs && c.msgs[id] == d.msgs[id])
      && (forall id | id in c.msgs && id !in d.msgs :: Bears(e, id) && Matches(c.msgs[id], e, phase, offset))
      && (Bears(e, e.rawID) ==> e.rawID in c.msgs)
      && (forall p ::
            Count(c.ackOnly, p)
            == Count(d.ackOnly, p) + if p == phase && e.tcp && e.ok && e.result != "not_sent" then 1 else 0)
  {
  }

  lemma TrackOneCounts(b: Book, e: Entry, phase: string, offset: int)
    ensures
      var c := TrackOne(b, e, phase, offset);
      && |InPhase(c.msgs, phase)| + Count(c.duplicates, phase)
         == |InPhase(b.msgs, phase)| + Count(b.duplicates, phase) + (if Identified(e) then 1 else 0)
      && (forall p | p != phase ::
            InPhase(c.msgs, p) == InPhase(b.msgs, p) && Count(c.duplicates, p) == Count(b.duplicates, p))
  {
    hide InPhase, Count;
    BumpCounts(b.duplicates, phase);
    if e.rawID !in b.msgs { NewMessage(b.msgs, e.rawID, Tracked(e, phase, offset)); }
  }

  lemma BumpCounts(counts: map<string, nat>, k: string)
    ensures Count(Bump(counts, k), k) == Count(counts, k) + 1
    ensures forall j | j != k :: Count(Bump(counts, k), j) == Count(counts, j)
  {
  }

  lemma NewMessage(msgs: map<string, Message>, id: string, m: Message)
    requires id !in msgs
    ensures |InPhase(msgs[id := m], m.phase)| == |InPhase(msgs, m.phase)| + 1
    ensures forall p | p != m.phase :: InPhase(msgs[id := m], p) == InPhase(msgs, p)
  {
    assert InPhase(msgs[id := m], m.phase) == InPhase(msgs, m.phase) + {id};
  }

  // ---------------------------------------------------------------- any sequence of ledgers and passes

  datatype Event =
    | Track(entries: seq<Entry>, phase: string, offset: int)
    | Batch(store: Store, ids: set<string>, last: bool)

  function Apply(b: Book, e: Event): Book {
    match e
    case Track(entries, phase, offset) => TrackAll(b, entries, phase, offset)
    case Batch(s, ids, last) => b.(msgs := PassOver(b.msgs, s, ids * Open(b.msgs), last))
  }

  function Play(b: Book, events: seq<Event>): Book
    decreases |events|
  {
    if events == [] then b else Play(Apply(b, events[0]), events[1..])
  }

  /** The same message, whatever its verdict. */
  predicate SameMessage(m: Message, n: Message) {
    n == m.(state := n.state, processedAt := n.processedAt, copies := n.copies)
  }

  /** Nothing is forgotten, no message changes but in its verdict, and a settled verdict is final
      whatever the stores say later. */
  lemma {:induction false} SettledStays(b: Book, events: seq<Event>, id: string)
    requires id in b.msgs
    ensures
      var c := Play(b, events);
      && id in c.msgs && SameMessage(b.msgs[id], c.msgs[id]) && b.msgs[id].processedAt <= c.msgs[id].processedAt
      && (Settled(b.msgs[id].state) ==> c.msgs[id] == b.msgs[id])
    decreases |events|
  {
    hide Check, Latest, Copies, TrackAll;
    if events != [] {
      var e := events[0];
      if e.Track? { TrackingCountsEveryID(b, e.entries, e.phase, e.offset); }
      SettledStays(Apply(b, e), events[1..], id);
    }
  }

  predicate SameEvidence(s: Store, t: Store, id: string) {
    && (id in s.raws <==> id in t.raws) && (id in s.raws ==> s.raws[id] == t.raws[id])
    && Standards(s, id) == Standards(t, id) && Count(s.bodies, id) == Count(t.bodies, id)
    && s.telemetryOn == t.telemetryOn
    && forall i | 0 <= i < |Standards(s, id)| ::
         Count(s.telemetry, Standards(s, id)[i].id) == Count(t.telemetry, Standards(s, id)[i].id)
  }

  /** What settled a message stays in the stores. */
  predicate Keeps(b: Book, s: Store, t: Store) {
    forall id | id in b.msgs && Settled(b.msgs[id].state) :: SameEvidence(s, t, id)
  }

  /** The latest processing time of a message that is still open does not fall. */
  predicate Grows(b: Book, s: Store, t: Store) {
    forall id | id in b.msgs && !Settled(b.msgs[id].state) :: Latest(id, s) <= Latest(id, t)
  }

  /** From store to store over a run, what settled a message stays. */
  predicate Steady(b: Book, s: Store, events: seq<Event>)
    decreases |events|
  {
    events == []
    || if events[0].Track? then Steady(Apply(b, events[0]), s, events[1..])
       else Keeps(b, s, events[0].store) && Steady(Apply(b, events[0]), events[0].store, events[1..])
  }

  predicate Growing(b: Book, s: Store, events: seq<Event>)
    decreases |events|
  {
    events == []
    || if events[0].Track? then Growing(Apply(b, events[0]), s, events[1..])
       else Grows(b, s, events[0].store) && Growing(Apply(b, events[0]), events[0].store, events[1..])
  }

  function LastStore(s: Store, events: seq<Event>): Store
    decreases |events|
  {
    if events == [] then s else LastStore(if events[0].Track? then s else events[0].store, events[1..])
  }

  /** What the book says of a settled message is what a check from scratch would say now. */
  predicate FaithfulAt(m: Message, id: string, s: Store) {
    && (Settled(m.state) ==>
          Check(m, id, s, true) == m.state && Check(m, id, s, false) == m.state && m.copies == Copies(id, s))
    && (m.state == Confirmed ==> m.processedAt >= Latest(id, s))
  }

  predicate Faithful(b: Book, s: Store) { forall id | id in b.msgs :: FaithfulAt(b.msgs[id], id, s) }

  /** No time in the book is later than the stores know. */
  predicate Timely(b: Book, s: Store) { forall id | id in b.msgs :: b.msgs[id].processedAt <= Latest(id, s) }

  lemma EvidenceDecides(m: Message, id: string, s: Store, t: Store, last: bool)
    requires SameEvidence(s, t, id)
    ensures Check(m, id, s, last) == Check(m, id, t, last)
    ensures Copies(id, s) == Copies(id, t) && Latest(id, s) == Latest(id, t)
  {
  }

  lemma UpdateIsFaithful(m: Message, id: string, s: Store, last: bool)
    ensures FaithfulAt(Update(m, id, s, last), id, s)
    ensures Check(Update(m, id, s, last), id, s, last) == Update(m, id, s, last).state
    ensures Update(m, id, s, last).copies == Copies(id, s)
  {
    hide Latest, AllProcessed, LacksTelemetry;
  }

  lemma BatchKeepsFaithful(b: Book, s: Store, t: Store, ids: set<string>, last: bool)
    requires Faithful(b, s) && Keeps(b, s, t)
    ensures Faithful(Apply(b, Batch(t, ids, last)), t)
  {
    hide Check, Latest, Copies, SameEvidence, Update;
    var c := Apply(b, Batch(t, ids, last));
    forall id | id in c.msgs ensures FaithfulAt(c.msgs[id], id, t) {
      var m := b.msgs[id];
      if Settled(m.state) {
        EvidenceDecides(m, id, s, t, true);
        EvidenceDecides(m, id, s, t, false);
      } else {
        UpdateIsFaithful(m, id, t, last);
      }
    }
  }

  lemma BatchKeepsTimely(b: Book, s: Store, t: Store, ids: set<string>, last: bool)
    requires Timely(b, s) && Keeps(b, s, t) && Grows(b, s, t)
    ensures Timely(Apply(b, Batch(t, ids, last)), t)
  {
    hide Check, Latest, Copies, SameEvidence, Intact;
    forall id | id in b.msgs ensures Latest(id, s) <= Latest(id, t) {
      if Settled(b.msgs[id].state) { EvidenceDecides(b.msgs[id], id, s, t, true); }
    }
  }

  lemma {:induction false} RunsStayFaithful(b: Book, s: Store, events: seq<Event>)
    requires Faithful(b, s) && Steady(b, s, events)
    ensures Faithful(Play(b, events), LastStore(s, events))
    decreases |events|
  {
    hide Check, Latest, Copies, TrackAll, Keeps;
    if events != [] {
      var e := events[0];
      if e.Track? {
        TrackingCountsEveryID(b, e.entries, e.phase, e.offset);
        NewMessagesAreBlank(b, e.entries, e.phase, e.offset);
        RunsStayFaithful(Apply(b, e), s, events[1..]);
      } else {
        BatchKeepsFaithful(b, s, e.store, e.ids, e.last);
        RunsStayFaithful(Apply(b, e), e.store, events[1..]);
      }
    }
  }

  lemma {:induction false} RunsStayTimely(b: Book, s: Store, events: seq<Event>)
    requires Timely(b, s) && Steady(b, s, events) && Growing(b, s, events)
    ensures Timely(Play(b, events), LastStore(s, events))
    decreases |events|
  {
    hide Latest, TrackAll, Keeps, Grows, PassOver;
    if events != [] {
      var e := events[0];
      if e.Track? {
        TrackingCountsEveryID(b, e.entries, e.phase, e.offset);
        NewMessagesAreBlank(b, e.entries, e.phase, e.offset);
        RunsStayTimely(Apply(b, e), s, events[1..]);
      } else {
        BatchKeepsTimely(b, s, e.store, e.ids, e.last);
        RunsStayTimely(Apply(b, e), e.store, events[1..]);
      }
    }
  }

  lemma {:induction false} NewMessagesAreBlank(b: Book, entries: seq<Entry>, phase: string, offset: int)
    ensures
      var c := TrackAll(b, entries, phase, offset);
      forall id | id in c.msgs && id !in b.msgs :: c.msgs[id].processedAt == 0 && c.msgs[id].state == Pending
    decreases |entries|
  {
    if entries != [] { NewMessagesAreBlank(b, entries[..|entries| - 1], phase, offset); }
  }

  /** After a batch over everything open, on whatever was faithful before, every message has the
      verdict and the copies that a check from scratch gives. */
  lemma BatchOverAllIsFullRecheck(b: Book, s: Store, t: Store, ids: set<string>)
    requires Faithful(b, s) && Keeps(b, s, t) && Open(b.msgs) <= ids
    ensures
      var msgs := Apply(b, Batch(t, ids, true)).msgs;
      forall id | id in msgs ::
        && msgs[id].state == Check(msgs[id], id, t, true) && msgs[id].copies == Copies(id, t)
        && (msgs[id].state == Confirmed ==> msgs[id].processedAt >= Latest(id, t))
  {
    hide Check, Latest, Copies, Keeps, Update;
    BatchKeepsFaithful(b, s, t, ids, true);
    var msgs := Apply(b, Batch(t, ids, true)).msgs;
    forall id | id in msgs
      ensures msgs[id].state == Check(msgs[id], id, t, true) && msgs[id].copies == Copies(id, t)
    {
      if !Settled(b.msgs[id].state) { UpdateIsFaithful(b.msgs[id], id, t, true); }
    }
  }

  lemma {:induction false} PlayTwice(b: Book, first: seq<Event>, rest: seq<Event>)
    ensures Play(b, first + rest) == Play(Play(b, first), rest)
    decreases |first|
  {
    hide Apply;
    if first == [] {
      assert first + rest == rest;
    } else {
      assert (first + rest)[1..] == first[1..] + rest;
      PlayTwice(Apply(b, first[0]), first[1..], rest);
    }
  }

  lemma CheckIgnoresVerdict(m: Message, id: string, t: Store)
    ensures Check(Update(m, id, t, true), id, t, true) == Check(m, id, t, true)
  {
  }
}
