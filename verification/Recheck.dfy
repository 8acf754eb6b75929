/** What the passes of a whole run, complete or broken off, add up to. */
module Recheck {
  import opened Plan
  import opened Counts
  import opened Reconciliation
  import opened Passes

  /** A call of the verifier: a ledger read as far as it goes, or a pass over `ids`, where `stores(k)` is
      what the queries of its k-th batch see, if they succeed. */
  datatype Call =
    | TrackCall(entries: seq<Entry>, phase: string, offset: int)
    | PassCall(ids: seq<string>, stores: nat -> Option<Store>, last: bool)

  function Do(b: Book, batch: nat, call: Call): Book
    requires batch > 0
  {
    match call
    case TrackCall(entries, phase, offset) => TrackAll(b, entries, phase, offset)
    case PassCall(ids, stores, last) => b.(msgs := PassFrom(b.msgs, ids, batch, stores, 0, last).0)
  }

  /** A pass lists what is open, each message once. */
  predicate Possible(b: Book, call: Call) { call.PassCall? ==> Distinct(call.ids) && Ids(call.ids) == Open(b.msgs) }

  function Run(b: Book, batch: nat, calls: seq<Call>): Book
    requires batch > 0
    decreases |calls|
  {
    if |calls| == 0 then b else Run(Do(b, batch, calls[0]), batch, calls[1..])
  }

  predicate Runs(b: Book, batch: nat, calls: seq<Call>)
    requires batch > 0
    decreases |calls|
  {
    |calls| == 0 || (Possible(b, calls[0]) && Runs(Do(b, batch, calls[0]), batch, calls[1..]))
  }

  // ---------------------------------------------------------------- calls as events

  /** The batches of a pass, up to the one whose queries fail. */
  function Batches(ids: seq<string>, batch: nat, stores: nat -> Option<Store>, k: nat, last: bool): seq<Event>
    requires batch > 0
    decreases |ids|
  {
    if ids == [] || stores(k).None? then []
    else
      var n := if batch <= |ids| then batch else |ids|;
      [Batch(stores(k).value, Ids(ids[..n]), last)] + Batches(ids[n..], batch, stores, k + 1, last)
  }

  /** A batch of a pass filters nothing: what the pass listed stays open until its own batch. */
  lemma {:induction false} PassIsItsBatches(
      b: Book, ids: seq<string>, batch: nat, stores: nat -> Option<Store>, k: nat, last: bool)
    requires batch > 0 && Distinct(ids) && Ids(ids) <= Open(b.msgs)
    ensures Play(b, Batches(ids, batch, stores, k, last))
            == b.(msgs := PassFrom(b.msgs, ids, batch, stores, k, last).0)
    decreases |ids|
  {
    hide Update;
    if ids != [] && stores(k).Some? {
      var n := if batch <= |ids| then batch else |ids|;
      var e := Batch(stores(k).value, Ids(ids[..n]), last);
      IdsSplit(ids, n);
      var c := Apply(b, e);
      assert Ids(ids[..n]) * Open(b.msgs) == Ids(ids[..n]);
      assert Ids(ids[n..]) <= Open(c.msgs);
      PassIsItsBatches(c, ids[n..], batch, stores, k + 1, last);
      PassUnfolds(b.msgs, ids, batch, stores, k, last);
      var rest := Batches(ids[n..], batch, stores, k + 1, last);
      assert ([e] + rest)[1..] == rest;
    }
  }

  function EventsOf(batch: nat, call: Call): seq<Event>
    requires batch > 0
  {
    match call
    case TrackCall(entries, phase, offset) => [Track(entries, phase, offset)]
    case PassCall(ids, stores, last) => Batches(ids, batch, stores, 0, last)
  }

  function Events(batch: nat, calls: seq<Call>): seq<Event>
    requires batch > 0
    decreases |calls|
  {
    if |calls| == 0 then [] else EventsOf(batch, calls[0]) + Events(batch, calls[1..])
  }

  lemma CallIsItsEvents(b: Book, batch: nat, call: Call)
    requires batch > 0 && Possible(b, call)
    ensures Play(b, EventsOf(batch, call)) == Do(b, batch, call)
  {
    hide TrackAll, PassFrom;
    match call
    case TrackCall(entries, phase, offset) =>
      assert [Track(entries, phase, offset)][1..] == [];
    case PassCall(ids, stores, last) => PassIsItsBatches(b, ids, batch, stores, 0, last);
  }

  lemma {:induction false} RunIsPlay(b: Book, batch: nat, calls: seq<Call>)
    requires batch > 0 && Runs(b, batch, calls)
    ensures Run(b, batch, calls) == Play(b, Events(batch, calls))
    decreases |calls|
  {
    hide Do, EventsOf, Play;
    if |calls| == 0 {
      PlayNothing(b);
    } else {
      var c := Do(b, batch, calls[0]);
      CallIsItsEvents(b, batch, calls[0]);
      RunIsPlay(c, batch, calls[1..]);
      PlayTwice(b, EventsOf(batch, calls[0]), Events(batch, calls[1..]));
    }
  }

  lemma PlayNothing(b: Book)
    ensures Play(b, []) == b
  {
  }

  // ---------------------------------------------------------------- what runs keep

  /** Over any ledgers and passes, whatever fails and whatever the stores say: nothing is forgotten, no
      message changes but in its verdict, and a settled verdict is final. */
  lemma SettledIsFinal(b: Book, batch: nat, calls: seq<Call>, id: string)
    requires batch > 0 && Runs(b, batch, calls) && id in b.msgs
    ensures
      var c := Run(b, batch, calls);
      && id in c.msgs && SameMessage(b.msgs[id], c.msgs[id]) && b.msgs[id].processedAt <= c.msgs[id].processedAt
      && (Settled(b.msgs[id].state) ==> c.msgs[id] == b.msgs[id])
  {
    hide Run, Runs, Play, Events;
    RunIsPlay(b, batch, calls);
    SettledStays(b, Events(batch, calls), id);
  }

  /** Incremental checking is full checking. Let any ledgers and passes go before, some of them broken
      off, while what settled a message stays in the stores. After a last pass that reaches all stores
      every message has the verdict and the copies that a check from scratch gives, and no confirmed
      one an earlier completion; exactly that completion if no processing time of an open message fell. */
  lemma LastPassIsFullRecheck(
      batch: nat, calls: seq<Call>, s: Store, ids: seq<string>, stores: nat -> Option<Store>, t: Store)
    requires batch > 0 && Runs(BLANK, batch, calls) && Possible(Run(BLANK, batch, calls), PassCall(ids, stores, true))
    requires forall j :: stores(j) == Some(t)
    requires Steady(BLANK, s, Events(batch, calls))
    requires Keeps(Run(BLANK, batch, calls), LastStore(s, Events(batch, calls)), t)
    ensures
      var b := Run(BLANK, batch, calls);
      var (msgs, failed) := PassFrom(b.msgs, ids, batch, stores, 0, true);
      var before := LastStore(s, Events(batch, calls));
      && !failed && msgs.Keys == b.msgs.Keys
      && (forall id | id in msgs ::
            && msgs[id].state == Check(msgs[id], id, t, true) && msgs[id].copies == Copies(id, t)
            && (msgs[id].state == Confirmed ==> msgs[id].processedAt >= Latest(id, t)))
      && (Growing(BLANK, s, Events(batch, calls)) && Grows(b, before, t) ==>
            forall id | id in msgs && msgs[id].state == Confirmed :: msgs[id].processedAt == Latest(id, t))
  {
    hide Run, Runs, Play, Events, PassFrom, Steady, Growing, Grows, Keeps, Check, Latest, Copies, LastStore, Update;
    var b, events := Run(BLANK, batch, calls), Events(batch, calls);
    RunIsPlay(BLANK, batch, calls);
    RunsStayFaithful(BLANK, s, events);
    BatchesMakeOnePass(b.msgs, ids, batch, stores, 0, t, true);
    assert Ids(ids) * Open(b.msgs) == Ids(ids);
    BatchOverAllIsFullRecheck(b, LastStore(s, events), t, Ids(ids));
    if Growing(BLANK, s, events) && Grows(b, LastStore(s, events), t) {
      RunsStayTimely(BLANK, s, events);
      BatchKeepsTimely(b, LastStore(s, events), t, Ids(ids), true);
    }
  }

  /** Without any promise about the stores: a last pass agrees with a check from scratch exactly when
      that check would still settle every settled message as before. */
  lemma RecheckAgreesExactlyWhen(b: Book, batch: nat, ids: seq<string>, stores: nat -> Option<Store>, t: Store)
    requires batch > 0 && Possible(b, PassCall(ids, stores, true)) && forall j :: stores(j) == Some(t)
    ensures
      var msgs := PassFrom(b.msgs, ids, batch, stores, 0, true).0;
      (forall id | id in msgs :: msgs[id].state == Check(msgs[id], id, t, true))
      <==> (forall id | id in b.msgs && Settled(b.msgs[id].state) :: Check(b.msgs[id], id, t, true) == b.msgs[id].state)
  {
    hide PresentState, AbsentState, Latest, Copies, PassFrom;
    BatchesMakeOnePass(b.msgs, ids, batch, stores, 0, t, true);
    var msgs := PassOver(b.msgs, t, Open(b.msgs), true);
    forall id | id in b.msgs ensures id in msgs && (Settled(b.msgs[id].state) ==> msgs[id] == b.msgs[id]) &&
                                     (!Settled(b.msgs[id].state) ==> msgs[id].state == Check(msgs[id], id, t, true)) {
      CheckIgnoresVerdict(b.msgs[id], id, t);
    }
  }
}
