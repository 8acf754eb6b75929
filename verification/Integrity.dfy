/** The summary of one phase, and the object that reconciles. */
module Integrity {
  import opened Plan
  import opened Counts
  import opened Histogram
  import opened Reconciliation
  import opened Passes

  datatype Summary = Summary(
    uniqueSent: nat, ingressConfirmed: nat, archived: nat, done: nat, states: map<State, nat>,
    missing: nat, unknown: nat, pending: nat, unaccounted: nat, duplicates: nat, extraRows: nat, ackOnly: nat,
    ackOnlyMode: bool, latency: Hist, latencyValid: bool, clockUncertainty: real)

  // ---------------------------------------------------------------- counting messages

  function Confirmable(msgs: map<string, Message>, phase: string): set<string> {
    set id | id in msgs && msgs[id].phase == phase && msgs[id].ingressOK
  }

  function AnyOf(msgs: map<string, Message>, phase: string, sts: set<State>): set<string> {
    set id | id in msgs && msgs[id].phase == phase && msgs[id].state in sts
  }

  const LOST := {Missing, Conflict, ParseFailed, NoBody, NoTelemetry}
  const STORED := {Confirmed, Pending, NoTelemetry, NoBody}
  const ALL_STATES := {Pending, Confirmed, Missing, Unknown, Rejected, Conflict, ParseFailed, NoBody, NoTelemetry}

  /** The counters of a summary are the numbers of the phase's messages of each kind. */
  predicate Counted(r: Summary, msgs: map<string, Message>, phase: string) {
    && r.uniqueSent == |InPhase(msgs, phase)|
    && r.ingressConfirmed == |Confirmable(msgs, phase)|
    && r.done == |AnyOf(msgs, phase, {Confirmed})|
    && r.archived == |AnyOf(msgs, phase, STORED)|
    && r.missing == |AnyOf(msgs, phase, LOST)|
    && r.unknown == |AnyOf(msgs, phase, {Unknown})|
    && r.pending == |AnyOf(msgs, phase, {Pending})|
    && forall st :: Count(r.states, st) == |AnyOf(msgs, phase, {st})|
  }

  lemma OneMore(msgs: map<string, Message>, id: string, m: Message, phase: string, sts: set<State>)
    requires id !in msgs
    ensures
      |AnyOf(msgs[id := m], phase, sts)|
      == |AnyOf(msgs, phase, sts)| + if m.phase == phase && m.state in sts then 1 else 0
  {
    var more := AnyOf(msgs[id := m], phase, sts);
    if m.phase == phase && m.state in sts {
      assert id !in AnyOf(msgs, phase, sts);
      assert more == AnyOf(msgs, phase, sts) + {id};
    } else {
      assert more == AnyOf(msgs, phase, sts);
    }
  }

  lemma AnyOfAll(msgs: map<string, Message>, phase: string)
    ensures AnyOf(msgs, phase, ALL_STATES) == InPhase(msgs, phase)
  {
    forall st: State ensures st in ALL_STATES {
      match st case Pending => case Confirmed => case Missing => case Unknown => case Rejected => case _ =>
    }
  }

  lemma SplitStates(msgs: map<string, Message>, phase: string, a: set<State>, b: set<State>)
    requires a !! b
    ensures |AnyOf(msgs, phase, a + b)| == |AnyOf(msgs, phase, a)| + |AnyOf(msgs, phase, b)|
  {
    assert AnyOf(msgs, phase, a + b) == AnyOf(msgs, phase, a) + AnyOf(msgs, phase, b);
    assert AnyOf(msgs, phase, a) !! AnyOf(msgs, phase, b);
  }

  /** The mass balance: every message sent is done, missing, unknown, pending or rejected, and no
      message is two of these. */
  lemma MassBalance(r: Summary, msgs: map<string, Message>, phase: string)
    requires Counted(r, msgs, phase)
    ensures r.uniqueSent == r.done + r.missing + r.unknown + r.pending + Count(r.states, Rejected)
    ensures
      r.missing == Count(r.states, Missing) + Count(r.states, Conflict) + Count(r.states, ParseFailed)
                   + Count(r.states, NoBody) + Count(r.states, NoTelemetry)
    ensures r.archived == r.done + r.pending + Count(r.states, NoBody) + Count(r.states, NoTelemetry)
    ensures r.done == Count(r.states, Confirmed) && r.pending == Count(r.states, Pending)
    ensures r.unknown == Count(r.states, Unknown)
  {
    hide InPhase, AnyOf;
    AnyOfAll(msgs, phase);
    Split(msgs, phase, {Missing}, {Conflict}, {Missing, Conflict});
    Split(msgs, phase, {Missing, Conflict}, {ParseFailed}, {Missing, Conflict, ParseFailed});
    Split(msgs, phase, {Missing, Conflict, ParseFailed}, {NoBody}, {Missing, Conflict, ParseFailed, NoBody});
    Split(msgs, phase, {Missing, Conflict, ParseFailed, NoBody}, {NoTelemetry}, LOST);
    Split(msgs, phase, LOST, {Confirmed}, LOST + {Confirmed});
    Split(msgs, phase, LOST + {Confirmed}, {Unknown}, LOST + {Confirmed, Unknown});
    Split(msgs, phase, LOST + {Confirmed, Unknown}, {Pending}, LOST + {Confirmed, Unknown, Pending});
    Split(msgs, phase, LOST + {Confirmed, Unknown, Pending}, {Rejected}, ALL_STATES);
    Split(msgs, phase, {Confirmed}, {Pending}, {Confirmed, Pending});
    Split(msgs, phase, {Confirmed, Pending}, {NoTelemetry}, {Confirmed, Pending, NoTelemetry});
    Split(msgs, phase, {Confirmed, Pending, NoTelemetry}, {NoBody}, STORED);
  }

  lemma Split(msgs: map<string, Message>, phase: string, a: set<State>, b: set<State>, c: set<State>)
    requires a !! b && c == a + b
    ensures |AnyOf(msgs, phase, c)| == |AnyOf(msgs, phase, a)| + |AnyOf(msgs, phase, b)|
  {
    SplitStates(msgs, phase, a, b);
  }

  // ---------------------------------------------------------------- business latency

  /** Completed in the measured window, at a known time. */
  predicate Timed(m: Message, phase: string) {
    m.phase == phase && m.state == Confirmed && m.measured && m.processedAt > 0
  }

  function TimedIds(msgs: map<string, Message>, phase: string): set<string> {
    set id | id in msgs && Timed(msgs[id], phase)
  }

  /** From the scheduled sending to the completion, both on the controller's clock, in milliseconds. */
  function LatencyOf(m: Message, dbOffset: int): real {
    (m.processedAt * 1000 - dbOffset - m.scheduled) as real / 1000.0
  }

  /** The latency does not depend on any clock: with the sending at one time of the controller, which the
      agent's clock shows with its own offset, and the completion at another, which the database shows with
      its, it is the time between them. */
  lemma LatencyIgnoresClocks(e: Entry, phase: string, m: Message, offset: int, dbOffset: int, sent: int, done: int)
    requires e.scheduled == sent + offset && m.processedAt * 1000 == done + dbOffset
    requires m == Tracked(e, phase, offset).(state := m.state, processedAt := m.processedAt, copies := m.copies)
    ensures LatencyOf(m, dbOffset) * 1000.0 == (done - sent) as real
  {
  }

  function Latencies(msgs: map<string, Message>, ids: seq<string>, dbOffset: int): seq<real>
    requires forall i | 0 <= i < |ids| :: ids[i] in msgs
  {
    if ids == [] then []
    else Latencies(msgs, ids[..|ids| - 1], dbOffset) + [LatencyOf(msgs[ids[|ids| - 1]], dbOffset)]
  }

  /** The histogram of the latencies of all these messages, each once, in the order of `ids`. */
  predicate Measured(h: Hist, msgs: map<string, Message>, phase: string, dbOffset: int, ids: seq<string>) {
    && Distinct(ids) && Ids(ids) == TimedIds(msgs, phase) && (forall i | 0 <= i < |ids| :: ids[i] in msgs)
    && h == Of(Latencies(msgs, ids, dbOffset))
  }

  lemma {:induction false} LatenciesKeep(msgs: map<string, Message>, id: string, m: Message, ids: seq<string>,
      dbOffset: int)
    requires id !in msgs && forall i | 0 <= i < |ids| :: ids[i] in msgs
    ensures Latencies(msgs[id := m], ids, dbOffset) == Latencies(msgs, ids, dbOffset)
    decreases |ids|
  {
    if ids != [] { LatenciesKeep(msgs, id, m, ids[..|ids| - 1], dbOffset); }
  }

  lemma MeasuredOneMore(h: Hist, msgs: map<string, Message>, id: string, m: Message, phase: string, dbOffset: int,
      ids: seq<string>)
    requires Measured(h, msgs, phase, dbOffset, ids) && id !in msgs
    ensures
      if Timed(m, phase) then Measured(Add(h, LatencyOf(m, dbOffset)), msgs[id := m], phase, dbOffset, ids + [id])
      else Measured(h, msgs[id := m], phase, dbOffset, ids)
  {
    hide Add, LatencyOf;
    LatenciesKeep(msgs, id, m, ids, dbOffset);
    var more := ids + [id];
    assert more[..|ids|] == ids && more[|ids|] == id;
    assert forall i | 0 <= i < |ids| :: ids[i] in Ids(ids) && more[i] == ids[i];
    if Timed(m, phase) {
      assert Ids(more) == Ids(ids) + {id};
      assert TimedIds(msgs[id := m], phase) == TimedIds(msgs, phase) + {id};
      LatenciesOneMore(msgs[id := m], ids, id, dbOffset);
      OfOneMore(Latencies(msgs, ids, dbOffset), LatencyOf(m, dbOffset));
    } else {
      assert TimedIds(msgs[id := m], phase) == TimedIds(msgs, phase);
    }
  }

  lemma OfOneMore(obs: seq<real>, x: real)
    ensures Of(obs + [x]) == Add(Of(obs), x)
  {
    hide Add;
    assert (obs + [x])[..|obs|] == obs;
  }

  lemma {:induction false} LatencyBag(msgs: map<string, Message>, ids: seq<string>, dbOffset: int, id: string)
    returns (rest: seq<string>)
    requires Distinct(ids) && id in ids && forall i | 0 <= i < |ids| :: ids[i] in msgs
    ensures Distinct(rest) && Ids(rest) == Ids(ids) - {id} && |rest| == |ids| - 1
    ensures forall i | 0 <= i < |rest| :: rest[i] in msgs
    ensures multiset(Latencies(msgs, ids, dbOffset))
            == multiset(Latencies(msgs, rest, dbOffset)) + multiset{LatencyOf(msgs[id], dbOffset)}
    decreases |ids|
  {
    hide LatencyOf, Ids, Distinct, Latencies;
    var init, last := ids[..|ids| - 1], ids[|ids| - 1];
    assert ids == init + [last];
    IdsOneMore(init, last);
    LatenciesOneMore(msgs, init, last, dbOffset);
    if last == id {
      rest := init;
    } else {
      var part := LatencyBag(msgs, init, dbOffset, id);
      rest := part + [last];
      IdsOneMore(part, last);
      LatenciesOneMore(msgs, part, last, dbOffset);
    }
  }

  lemma LatenciesOneMore(msgs: map<string, Message>, ids: seq<string>, id: string, dbOffset: int)
    requires id in msgs && forall i | 0 <= i < |ids| :: ids[i] in msgs
    ensures Latencies(msgs, ids + [id], dbOffset) == Latencies(msgs, ids, dbOffset) + [LatencyOf(msgs[id], dbOffset)]
  {
    hide LatencyOf;
    assert (ids + [id])[..|ids|] == ids;
  }

  lemma IdsOneMore(ids: seq<string>, id: string)
    ensures Ids(ids + [id]) == Ids(ids) + {id}
    ensures Distinct(ids + [id]) ==> Distinct(ids) && id !in Ids(ids)
    ensures Distinct(ids) && id !in Ids(ids) ==> Distinct(ids + [id])
    ensures id in Ids(ids) <==> id in ids
  {
    var more := ids + [id];
    assert more[|ids|] == id && forall i | 0 <= i < |ids| :: more[i] == ids[i];
  }

  lemma EmptyIds(ids: seq<string>)
    ensures Ids(ids) == {} <==> ids == []
  {
    if ids != [] { assert ids[0] in Ids(ids); }
  }

  lemma {:induction false} SameBags(msgs: map<string, Message>, ids: seq<string>, other: seq<string>, dbOffset: int)
    requires Distinct(ids) && Distinct(other) && Ids(ids) == Ids(other)
    requires (forall i | 0 <= i < |ids| :: ids[i] in msgs) && forall i | 0 <= i < |other| :: other[i] in msgs
    ensures multiset(Latencies(msgs, ids, dbOffset)) == multiset(Latencies(msgs, other, dbOffset))
    decreases |ids|
  {
    if ids == [] {
      EmptyIds(other);
    } else {
      var init, last := ids[..|ids| - 1], ids[|ids| - 1];
      assert ids == init + [last];
      IdsOneMore(init, last);
      IdsOneMore(other, last);
      var rest := LatencyBag(msgs, other, dbOffset, last);
      SameBags(msgs, init, rest, dbOffset);
    }
  }

  /** The latency histogram of a phase does not depend on the order its messages are visited in. */
  lemma LatencyIsDetermined(h: Hist, g: Hist, msgs: map<string, Message>, phase: string, dbOffset: int,
      ids: seq<string>, other: seq<string>)
    requires Measured(h, msgs, phase, dbOffset, ids) && Measured(g, msgs, phase, dbOffset, other)
    ensures h == g
  {
    SameBags(msgs, ids, other, dbOffset);
    OrderDoesNotMatter(Latencies(msgs, ids, dbOffset), Latencies(msgs, other, dbOffset));
  }

  lemma {:induction false} DistinctIds(ids: seq<string>)
    requires Distinct(ids)
    ensures |Ids(ids)| == |ids|
    decreases |ids|
  {
    EmptyIds(ids);
    if ids != [] {
      var init, last := ids[..|ids| - 1], ids[|ids| - 1];
      assert ids == init + [last];
      IdsOneMore(init, last);
      DistinctIds(init);
    }
  }

  lemma {:induction false} LatenciesCount(msgs: map<string, Message>, ids: seq<string>, dbOffset: int)
    requires forall i | 0 <= i < |ids| :: ids[i] in msgs
    ensures |Latencies(msgs, ids, dbOffset)| == |ids|
    decreases |ids|
  {
    if ids != [] { LatenciesCount(msgs, ids[..|ids| - 1], dbOffset); }
  }

  /** The latency histogram has one observation for each message of the phase that was sent in the measured
      window and completed at a known time. */
  lemma EachLatencyOnce(h: Hist, msgs: map<string, Message>, phase: string, dbOffset: int, ids: seq<string>)
    requires Measured(h, msgs, phase, dbOffset, ids)
    ensures
      h.n == |set id | id in msgs && msgs[id].phase == phase && msgs[id].measured && msgs[id].state == Confirmed
                       && msgs[id].processedAt > 0|
  {
    DistinctIds(ids);
    LatenciesCount(msgs, ids, dbOffset);
    HistogramTotals(Latencies(msgs, ids, dbOffset));
    assert TimedIds(msgs, phase)
           == set id | id in msgs && msgs[id].phase == phase && msgs[id].measured && msgs[id].state == Confirmed
                       && msgs[id].processedAt > 0;
  }

  // ---------------------------------------------------------------- surplus rows

  function Surplus(m: Message, phase: string): nat { if m.phase == phase && m.copies > 1 then m.copies - 1 else 0 }

  function SurplusOf(msgs: map<string, Message>, phase: string): map<string, nat> {
    map id | id in msgs :: Surplus(msgs[id], phase)
  }

  /** Stored rows beyond the first of each message. */
  ghost function ExtraRows(msgs: map<string, Message>, phase: string): nat { Total(SurplusOf(msgs, phase)) }

  /** The stored rows of the phase's messages. */
  function RowsOf(msgs: map<string, Message>, phase: string): map<string, nat> {
    map id | id in msgs :: if msgs[id].phase == phase then msgs[id].copies else 0
  }

  function Stored(msgs: map<string, Message>, phase: string): set<string> {
    set id | id in msgs && msgs[id].phase == phase && msgs[id].copies > 0
  }

  /** Every stored row is the first of its message or one of the extra rows. */
  lemma {:induction false} RowsAreFirstOrExtra(msgs: map<string, Message>, phase: string)
    ensures Total(RowsOf(msgs, phase)) == |Stored(msgs, phase)| + ExtraRows(msgs, phase)
    decreases |msgs|
  {
    hide Total;
    if msgs == map[] {
      TotalNone<string>();
      assert RowsOf(msgs, phase) == map[] && SurplusOf(msgs, phase) == map[] && Stored(msgs, phase) == {};
    } else {
      var id :| id in msgs;
      var rest, m := msgs - {id}, msgs[id];
      Fewer(msgs, id);
      RowsAreFirstOrExtra(rest, phase);
      assert msgs == rest[id := m];
      OneRowMore(rest, id, m, phase);
    }
  }

  lemma OneRowMore(msgs: map<string, Message>, id: string, m: Message, phase: string)
    requires id !in msgs
    ensures
      var more, rows := msgs[id := m], if m.phase == phase then m.copies else 0;
      && Total(RowsOf(more, phase)) == Total(RowsOf(msgs, phase)) + rows
      && |Stored(more, phase)| + ExtraRows(more, phase) == |Stored(msgs, phase)| + ExtraRows(msgs, phase) + rows
  {
    hide Total, RowsOf, SurplusOf, Stored;
    var more, rows := msgs[id := m], if m.phase == phase then m.copies else 0;
    EachMapMore(msgs, id, m, phase);
    TotalSet(RowsOf(msgs, phase), id, rows);
    TotalSet(SurplusOf(msgs, phase), id, Surplus(m, phase));
    StoredMore(msgs, id, m, phase);
  }

  lemma EachMapMore(msgs: map<string, Message>, id: string, m: Message, phase: string)
    requires id !in msgs
    ensures RowsOf(msgs[id := m], phase) == RowsOf(msgs, phase)[id := if m.phase == phase then m.copies else 0]
    ensures SurplusOf(msgs[id := m], phase) == SurplusOf(msgs, phase)[id := Surplus(m, phase)]
    ensures Count(RowsOf(msgs, phase), id) == 0 && Count(SurplusOf(msgs, phase), id) == 0
  {
  }

  lemma StoredMore(msgs: map<string, Message>, id: string, m: Message, phase: string)
    requires id !in msgs
    ensures |Stored(msgs[id := m], phase)| == |Stored(msgs, phase)| + if m.phase == phase && m.copies > 0 then 1 else 0
  {
    if m.phase == phase && m.copies > 0 { assert Stored(msgs[id := m], phase) == Stored(msgs, phase) + {id}; }
    else { assert Stored(msgs[id := m], phase) == Stored(msgs, phase); }
  }

  /** What one message more does to every number. */
  lemma EachOneMore(msgs: map<string, Message>, id: string, m: Message, phase: string)
    requires id !in msgs
    ensures
      var more, here := msgs[id := m], m.phase == phase;
      && |InPhase(more, phase)| == |InPhase(msgs, phase)| + (if here then 1 else 0)
      && |Confirmable(more, phase)| == |Confirmable(msgs, phase)| + (if here && m.ingressOK then 1 else 0)
      && ExtraRows(more, phase) == ExtraRows(msgs, phase) + Surplus(m, phase)
      && forall sts: set<State> ::
           |AnyOf(more, phase, sts)| == |AnyOf(msgs, phase, sts)| + if here && m.state in sts then 1 else 0
  {
    hide AnyOf;
    forall sts: set<State>
      ensures |AnyOf(msgs[id := m], phase, sts)|
              == |AnyOf(msgs, phase, sts)| + if m.phase == phase && m.state in sts then 1 else 0
    {
      OneMore(msgs, id, m, phase, sts);
    }
    OneMoreSent(msgs, id, m, phase);
    assert SurplusOf(msgs[id := m], phase) == SurplusOf(msgs, phase)[id := Surplus(m, phase)];
    TotalSet(SurplusOf(msgs, phase), id, Surplus(m, phase));
  }

  lemma OneMoreSent(msgs: map<string, Message>, id: string, m: Message, phase: string)
    requires id !in msgs
    ensures |InPhase(msgs[id := m], phase)| == |InPhase(msgs, phase)| + if m.phase == phase then 1 else 0
    ensures |Confirmable(msgs[id := m], phase)|
            == |Confirmable(msgs, phase)| + if m.phase == phase && m.ingressOK then 1 else 0
  {
    var more := msgs[id := m];
    if m.phase == phase { assert InPhase(more, phase) == InPhase(msgs, phase) + {id}; }
    else { assert InPhase(more, phase) == InPhase(msgs, phase); }
    if m.phase == phase && m.ingressOK { assert Confirmable(more, phase) == Confirmable(msgs, phase) + {id}; }
    else { assert Confirmable(more, phase) == Confirmable(msgs, phase); }
  }

  // ---------------------------------------------------------------- the program's object

  /** The entries of a ledger before the first line that cannot be read. */
  function Readable(lines: seq<Option<Entry>>): (r: seq<Entry>)
    ensures |r| <= |lines| && forall i | 0 <= i < |r| :: lines[i] == Some(r[i])
    ensures |r| < |lines| ==> lines[|r|].None?
  {
    if lines == [] || lines[0].None? then [] else [lines[0].value] + Readable(lines[1..])
  }

  lemma TrackNothing(b: Book, phase: string, offset: int)
    ensures TrackAll(b, [], phase, offset) == b
  {
  }

  lemma TrackNext(b: Book, entries: seq<Entry>, i: nat, phase: string, offset: int)
    requires i < |entries|
    ensures TrackAll(b, entries[..i + 1], phase, offset)
            == TrackOne(TrackAll(b, entries[..i], phase, offset), entries[i], phase, offset)
  {
    assert entries[..i + 1][..i] == entries[..i];
  }

  class Verifier {
    const batch: nat
    var msgs: map<string, Message>
    var duplicates: map<string, nat>
    var ackOnly: map<string, nat>
    var clockOK: bool
    var dbOffset: int
    var dbUncertainty: int

    constructor ()
      ensures Snapshot() == BLANK && batch == 1000 && clockOK && dbOffset == 0 && dbUncertainty == 0
    {
      batch, msgs, duplicates, ackOnly := 1000, map[], map[], map[];
      clockOK, dbOffset, dbUncertainty := true, 0, 0;
    }

    function Snapshot(): Book
      reads this
    {
      Book(msgs, duplicates, ackOnly)
    }

    /** Reads a ledger to its end, or to the line that cannot be read, which fails the call. */
    method Track(lines: seq<Option<Entry>>, phase: string, offset: int) returns (ok: bool)
      modifies this`msgs, this`duplicates, this`ackOnly
      ensures Snapshot() == TrackAll(old(Snapshot()), Readable(lines), phase, offset)
      ensures ok <==> forall i | 0 <= i < |lines| :: lines[i].Some?
    {
      hide TrackAll, Readable;
      ghost var b := Snapshot();
      ghost var entries := Readable(lines);
      TrackNothing(b, phase, offset);
      for i := 0 to |lines|
        invariant i <= |entries|
        invariant Snapshot() == TrackAll(b, entries[..i], phase, offset)
      {
        if lines[i].None? {
          assert entries[..i] == entries;
          return false;
        }
        var e := lines[i].value;
        TrackNext(b, entries, i, phase, offset);
        if e.result == "not_sent" {
        } else if e.tcp {
          if e.ok { ackOnly := ackOnly[phase := Count(ackOnly, phase) + 1]; }
        } else if e.rawID == "" {
        } else if e.rawID in msgs {
          duplicates := duplicates[phase := Count(duplicates, phase) + 1];
        } else {
          msgs := msgs[e.rawID := Tracked(e, phase, offset)];
        }
      }
      assert entries[..|lines|] == entries;
      return true;
    }

    /** One batch of queries and its verdicts. */
    method PassBatch(store: Store, ids: seq<string>, last: bool)
      requires Distinct(ids) && forall i | 0 <= i < |ids| :: ids[i] in msgs
      modifies this`msgs
      ensures msgs == PassOver(old(msgs), store, Ids(ids), last)
    {
      hide Check, PresentState, AllProcessed, LacksTelemetry, PassOver, LatestOf;
      var raws := RawIndexes(store, ids);
      var present := Present(raws, ids);
      var bodies := RawBodies(store, present);
      var standards := StandardsOf(store, present);
      var telemetry: map<string, nat> := map[];
      if store.telemetryOn { telemetry := TelemetryOf(store, Wanted(standards)); }
      ghost var was := msgs;
      PassOverNothing(was, store, last);
      for i := 0 to |ids|
        invariant msgs == PassOver(was, store, Ids(ids[..i]), last)
        invariant forall j | 0 <= j < |ids| :: ids[j] in was && ids[j] in msgs
        invariant forall j | i <= j < |ids| :: msgs[ids[j]] == was[ids[j]]
      {
        var id := ids[i];
        var m := Examine(msgs[id], id, raws, bodies, standards, telemetry, store.telemetryOn, store, ids, present,
          last);
        msgs := msgs[id := m];
        assert ids[..i + 1] == ids[..i] + [id];
        PassOverOneMore(was, store, ids[..i], id, last);
      }
      assert ids[..|ids|] == ids;
    }

    /** Reads the database clock (its offset and uncertainty in microseconds, if it answers), then
        queries everything open. */
    method Pass(clock: Option<(int, int)>, stores: nat -> Option<Store>, last: bool)
      returns (failed: bool, ghost open: seq<string>)
      requires batch > 0
      modifies this`msgs, this`clockOK, this`dbOffset, this`dbUncertainty
      ensures clockOK == clock.Some?
      ensures clock.Some? ==> (dbOffset, dbUncertainty) == clock.value
      ensures clock.None? ==> dbOffset == old(dbOffset) && dbUncertainty == old(dbUncertainty)
      ensures Distinct(open) && Ids(open) == Open(old(msgs))
      ensures (msgs, failed) == PassFrom(old(msgs), open, batch, stores, 0, last)
    {
      hide PassFrom, Distinct, Ids, Open;
      if clock.Some? {
        dbOffset, dbUncertainty, clockOK := clock.value.0, clock.value.1, true;
      } else {
        clockOK := false;
      }
      failed, open := PassOpen(stores, last);
    }

    /** Queries everything not settled, `batch` messages at a time; `stores(k)` is what the queries
        of the k-th batch see, each at its own moment, if they succeed. */
    method PassOpen(stores: nat -> Option<Store>, last: bool) returns (failed: bool, ghost open: seq<string>)
      requires batch > 0
      modifies this`msgs
      ensures Distinct(open) && Ids(open) == Open(old(msgs))
      ensures (msgs, failed) == PassFrom(old(msgs), open, batch, stores, 0, last)
    {
      hide PassOver, PassFrom;
      var todo := Listing(Open(msgs));
      open := todo;
      ghost var was := msgs;
      var i, k := 0, 0;
      while i < |todo|
        invariant 0 <= i && (i <= |todo| || i < |todo| + batch)
        invariant forall id | id in was :: id in msgs
        invariant PassFrom(was, open, batch, stores, 0, last)
                  == PassFrom(msgs, if i <= |todo| then open[i..] else [], batch, stores, k, last)
        decreases |todo| - i
      {
        var end := if i + batch <= |todo| then i + batch else |todo|;
        var ids := todo[i..end];
        PassUnfolds(msgs, todo[i..], batch, stores, k, last);
        assert todo[i..][..end - i] == ids;
        assert todo[i..][end - i..] == todo[end..];
        assert forall j | 0 <= j < |todo| :: todo[j] in Ids(todo);
        if stores(k).None? {
          return true, open;
        }
        PassBatch(stores(k).value, ids, last);
        i, k := i + batch, k + 1;
      }
      assert (if i <= |todo| then open[i..] else []) == [];
      PassEnds(msgs, batch, stores, k, last);
      return false, open;
    }

    method PhaseIntegrity(phase: string, agentUncertainty: int) returns (r: Summary, ghost timed: seq<string>)
      ensures Counted(r, msgs, phase)
      ensures r.extraRows == ExtraRows(msgs, phase)
      ensures r.unaccounted == r.missing
      ensures r.duplicates == Count(duplicates, phase) && r.ackOnly == Count(ackOnly, phase)
      ensures r.ackOnlyMode <==> r.uniqueSent == 0 && r.ackOnly > 0
      ensures Measured(r.latency, msgs, phase, dbOffset, timed)
      ensures r.latencyValid <==> clockOK && r.latency.n > 0
      ensures r.clockUncertainty == (dbUncertainty + agentUncertainty) as real / 1000.0
    {
      hide Counted, ExtraRows, Measured;
      r, timed := Summarise(msgs, phase, dbOffset, Count(duplicates, phase), Count(ackOnly, phase));
      r := Complete(r, msgs, phase, (dbUncertainty + agentUncertainty) as real / 1000.0, clockOK);
    }
  }

  /** All messages of the phase go into a summary, in any order. */
  method Summarise(msgs: map<string, Message>, phase: string, dbOffset: int, duplicates: nat, ackOnly: nat)
    returns (r: Summary, ghost timed: seq<string>)
    ensures Counted(r, msgs, phase) && r.extraRows == ExtraRows(msgs, phase)
    ensures r.duplicates == duplicates && r.ackOnly == ackOnly && !r.ackOnlyMode
    ensures Measured(r.latency, msgs, phase, dbOffset, timed)
  {
    hide Counted, ExtraRows, Measured, Timed, Add, LatencyOf, Latencies, InPhase, AnyOf, Confirmable;
    r := Summary(0, 0, 0, 0, map[], 0, 0, 0, 0, duplicates, 0, ackOnly, false, NONE, false, 0.0);
    timed := [];
    var todo := msgs.Keys;
    ghost var seen: map<string, Message> := map[];
    NothingYet(r, phase, dbOffset);
    while todo != {}
      invariant todo <= msgs.Keys && seen.Keys == msgs.Keys - todo
      invariant forall id | id in seen :: seen[id] == msgs[id]
      invariant Counted(r, seen, phase) && r.extraRows == ExtraRows(seen, phase)
      invariant r.duplicates == duplicates && r.ackOnly == ackOnly && !r.ackOnlyMode
      invariant Measured(r.latency, seen, phase, dbOffset, timed)
      decreases |todo|
    {
      var id :| id in todo;
      MeasuredOneMore(r.latency, seen, id, msgs[id], phase, dbOffset, timed);
      r := Enter(r, seen, id, msgs[id], phase, dbOffset);
      if Timed(msgs[id], phase) { timed := timed + [id]; }
      seen := seen[id := msgs[id]];
      todo := todo - {id};
    }
    assert seen == msgs;
  }

  /** The rest of the summary, once every message is in. */
  method Complete(r: Summary, ghost msgs: map<string, Message>, phase: string, uncertainty: real, clockOK: bool)
    returns (t: Summary)
    requires Counted(r, msgs, phase) && !r.ackOnlyMode
    ensures Counted(t, msgs, phase) && t.extraRows == r.extraRows && t.unaccounted == t.missing
    ensures t.duplicates == r.duplicates && t.ackOnly == r.ackOnly && t.latency == r.latency
    ensures t.ackOnlyMode <==> t.uniqueSent == 0 && t.ackOnly > 0
    ensures t.latencyValid <==> clockOK && t.latency.n > 0
    ensures t.clockUncertainty == uncertainty
  {
    hide InPhase, Confirmable, AnyOf;
    t := r.(unaccounted := r.missing);
    t := t.(clockUncertainty := uncertainty);
    t := t.(latencyValid := clockOK && t.latency.n > 0);
    if t.uniqueSent == 0 && t.ackOnly > 0 { t := t.(ackOnlyMode := true); }
  }

  /** One message goes into the summary. */
  method Enter(r: Summary, ghost seen: map<string, Message>, id: string, m: Message, phase: string, dbOffset: int)
    returns (t: Summary)
    requires Counted(r, seen, phase) && r.extraRows == ExtraRows(seen, phase) && id !in seen
    ensures Counted(t, seen[id := m], phase) && t.extraRows == ExtraRows(seen[id := m], phase)
    ensures t.duplicates == r.duplicates && t.ackOnly == r.ackOnly && t.ackOnlyMode == r.ackOnlyMode
    ensures t.latency == if Timed(m, phase) then Add(r.latency, LatencyOf(m, dbOffset)) else r.latency
  {
    hide Counted, ExtraRows, Add, LatencyOf, InPhase, AnyOf, Confirmable, Total;
    t := r;
    if m.phase == phase { t := EnterOwn(r, m, dbOffset); }
    CountedAfter(r, t, seen, id, m, phase);
  }

  /** A message of the phase. */
  method EnterOwn(r: Summary, m: Message, dbOffset: int) returns (t: Summary)
    ensures t.uniqueSent == r.uniqueSent + 1 && t.ingressConfirmed == r.ingressConfirmed + One(m.ingressOK)
    ensures t.states == r.states[m.state := Count(r.states, m.state) + 1]
    ensures t.done == r.done + One(m.state == Confirmed) && t.archived == r.archived + One(m.state in STORED)
    ensures t.missing == r.missing + One(m.state in LOST) && t.unknown == r.unknown + One(m.state == Unknown)
    ensures t.pending == r.pending + One(m.state == Pending) && t.extraRows == r.extraRows + Surplus(m, m.phase)
    ensures t.duplicates == r.duplicates && t.ackOnly == r.ackOnly && t.ackOnlyMode == r.ackOnlyMode
    ensures t.latency == if Timed(m, m.phase) then Add(r.latency, LatencyOf(m, dbOffset)) else r.latency
  {
    hide Add, LatencyOf;
    t := Classify(r, m.state);
    t := t.(uniqueSent := t.uniqueSent + 1, states := t.states[m.state := Count(t.states, m.state) + 1]);
    if m.ingressOK { t := t.(ingressConfirmed := t.ingressConfirmed + 1); }
    if m.copies > 1 { t := t.(extraRows := t.extraRows + m.copies - 1); }
    if m.state == Confirmed && m.measured && m.processedAt > 0 {
      t := t.(latency := Add(t.latency, LatencyOf(m, dbOffset)));
    }
  }

  /** The two switches over the verdict. */
  method Classify(r: Summary, st: State) returns (t: Summary)
    ensures
      t == r.(done := r.done + One(st == Confirmed), archived := r.archived + One(st in STORED),
              missing := r.missing + One(st in LOST), unknown := r.unknown + One(st == Unknown),
              pending := r.pending + One(st == Pending))
  {
    t := r;
    match st {
      case Confirmed => t := t.(archived := t.archived + 1, done := t.done + 1);
      case Pending => t := t.(archived := t.archived + 1);
      case NoTelemetry => t := t.(archived := t.archived + 1);
      case NoBody => t := t.(archived := t.archived + 1);
      case _ =>
    }
    match st {
      case Missing => t := t.(missing := t.missing + 1);
      case Conflict => t := t.(missing := t.missing + 1);
      case ParseFailed => t := t.(missing := t.missing + 1);
      case NoBody => t := t.(missing := t.missing + 1);
      case NoTelemetry => t := t.(missing := t.missing + 1);
      case Unknown => t := t.(unknown := t.unknown + 1);
      case Pending => t := t.(pending := t.pending + 1);
      case _ =>
    }
  }

  function One(b: bool): nat { if b then 1 else 0 }

  lemma CountedAfter(r: Summary, t: Summary, seen: map<string, Message>, id: string, m: Message, phase: string)
    requires Counted(r, seen, phase) && r.extraRows == ExtraRows(seen, phase) && id !in seen
    requires
      var here := m.phase == phase;
      && t.uniqueSent == r.uniqueSent + One(here)
      && t.ingressConfirmed == r.ingressConfirmed + One(here && m.ingressOK)
      && t.done == r.done + One(here && m.state == Confirmed)
      && t.archived == r.archived + One(here && m.state in STORED)
      && t.missing == r.missing + One(here && m.state in LOST)
      && t.unknown == r.unknown + One(here && m.state == Unknown)
      && t.pending == r.pending + One(here && m.state == Pending)
      && t.states == (if here then r.states[m.state := Count(r.states, m.state) + 1] else r.states)
      && t.extraRows == r.extraRows + Surplus(m, phase)
    ensures Counted(t, seen[id := m], phase) && t.extraRows == ExtraRows(seen[id := m], phase)
  {
    hide InPhase, Confirmable, AnyOf, ExtraRows, Surplus;
    EachOneMore(seen, id, m, phase);
  }

  lemma NothingYet(r: Summary, phase: string, dbOffset: int)
    requires r.uniqueSent == r.ingressConfirmed == r.archived == r.done == 0
    requires r.missing == r.unknown == r.pending == 0 && r.states == map[]
    ensures Counted(r, map[], phase) && ExtraRows(map[], phase) == 0
    ensures Measured(NONE, map[], phase, dbOffset, [])
  {
    forall sts: set<State> ensures AnyOf(map[], phase, sts) == {} {}
    assert InPhase(map[], phase) == {} && Confirmable(map[], phase) == {};
    assert SurplusOf(map[], phase) == map[];
    TotalNone<string>();
  }
}
