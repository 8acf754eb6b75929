/** A pass asks the stores about what is open, in batches. */
module Passes {
  import opened Plan
  import opened Counts
  import opened Reconciliation

  predicate Distinct(ids: seq<string>) { forall i, j | 0 <= i < j < |ids| :: ids[i] != ids[j] }

  function Ids(ids: seq<string>): set<string> { set i | 0 <= i < |ids| :: ids[i] }

  /** The first `batch` IDs against what their queries see, then the rest; a failed query ends the
      pass and leaves what is left as it was. */
  function PassFrom(msgs: map<string, Message>, ids: seq<string>, batch: nat, stores: nat -> Option<Store>, k: nat,
      last: bool)
    : (map<string, Message>, bool)
    requires batch > 0
    decreases |ids|
  {
    if ids == [] then (msgs, false)
    else if stores(k).None? then (msgs, true)
    else
      var n := if batch <= |ids| then batch else |ids|;
      PassFrom(PassOver(msgs, stores(k).value, Ids(ids[..n]), last), ids[n..], batch, stores, k + 1, last)
  }

  lemma PassUnfolds(msgs: map<string, Message>, ids: seq<string>, batch: nat, stores: nat -> Option<Store>, k: nat,
      last: bool)
    requires batch > 0 && ids != []
    ensures
      var n := if batch <= |ids| then batch else |ids|;
      PassFrom(msgs, ids, batch, stores, k, last)
      == if stores(k).None? then (msgs, true)
         else PassFrom(PassOver(msgs, stores(k).value, Ids(ids[..n]), last), ids[n..], batch, stores, k + 1, last)
  {
  }

  lemma PassEnds(msgs: map<string, Message>, batch: nat, stores: nat -> Option<Store>, k: nat, last: bool)
    requires batch > 0
    ensures PassFrom(msgs, [], batch, stores, k, last) == (msgs, false)
  {
  }

  /** On one store the batches make one pass over everything open, whatever their size and order. */
  lemma {:induction false} BatchesMakeOnePass(
      msgs: map<string, Message>, ids: seq<string>, batch: nat, stores: nat -> Option<Store>, k: nat, store: Store,
      last: bool)
    requires batch > 0 && Distinct(ids) && forall j | j >= k :: stores(j) == Some(store)
    ensures PassFrom(msgs, ids, batch, stores, k, last) == (PassOver(msgs, store, Ids(ids), last), false)
    decreases |ids|
  {
    hide Update;
    if ids == [] {
      PassOverNothing(msgs, store, last);
    } else {
      var n := if batch <= |ids| then batch else |ids|;
      var head, tail := ids[..n], ids[n..];
      var half := PassOver(msgs, store, Ids(head), last);
      BatchesMakeOnePass(half, tail, batch, stores, k + 1, store, last);
      IdsSplit(ids, n);
      PassOverTwice(msgs, store, Ids(head), Ids(tail), last);
    }
  }

  lemma IdsSplit(ids: seq<string>, n: nat)
    requires n <= |ids| && Distinct(ids)
    ensures Ids(ids) == Ids(ids[..n]) + Ids(ids[n..]) && Ids(ids[..n]) !! Ids(ids[n..])
  {
    forall i | 0 <= i < |ids| ensures ids[i] in Ids(ids[..n]) + Ids(ids[n..]) {
      if i < n { assert ids[i] == ids[..n][i]; } else { assert ids[i] == ids[n..][i - n]; }
    }
  }

  lemma PassOverTwice(msgs: map<string, Message>, s: Store, a: set<string>, b: set<string>, last: bool)
    requires a !! b
    ensures PassOver(PassOver(msgs, s, a, last), s, b, last) == PassOver(msgs, s, a + b, last)
  {
    hide Update;
  }

  lemma PassOverNothing(msgs: map<string, Message>, s: Store, last: bool)
    ensures PassOver(msgs, s, Ids([]), last) == msgs
  {
  }

  lemma PassOverOneMore(msgs: map<string, Message>, s: Store, ids: seq<string>, id: string, last: bool)
    requires id in msgs
    ensures PassOver(msgs, s, Ids(ids + [id]), last)
            == PassOver(msgs, s, Ids(ids), last)[id := Update(msgs[id], id, s, last)]
  {
    hide Update;
    var more := ids + [id];
    assert more[|ids|] == id;
    assert forall i | 0 <= i < |ids| :: more[i] == ids[i];
    assert Ids(more) == Ids(ids) + {id};
  }

  method Listing(ids: set<string>) returns (list: seq<string>)
    ensures Distinct(list) && Ids(list) == ids
  {
    list := [];
    var todo := ids;
    while todo != {}
      invariant todo <= ids && Distinct(list) && Ids(list) == ids - todo
      decreases |todo|
    {
      var id :| id in todo;
      ghost var was := list;
      list := list + [id];
      assert list[|was|] == id && forall i | 0 <= i < |was| :: list[i] == was[i];
      assert id !in Ids(was);
      assert Ids(list) == Ids(was) + {id};
      todo := todo - {id};
    }
  }

  method Present(raws: map<string, Raw>, ids: seq<string>) returns (present: seq<string>)
    ensures forall id :: id in present <==> id in ids && id in raws
  {
    present := [];
    for i := 0 to |ids|
      invariant forall id :: id in present <==> id in ids[..i] && id in raws
    {
      assert ids[..i + 1] == ids[..i] + [ids[i]];
      if ids[i] in raws { present := present + [ids[i]]; }
    }
    assert ids[..|ids|] == ids;
  }

  /** The message IDs whose telemetry a batch asks for. */
  function Wanted(standards: map<string, seq<Standard>>): set<string> {
    set id, i | id in standards && 0 <= i < |standards[id]| && standards[id][i].processedAt > 0
      && standards[id][i].hasProperties
      :: standards[id][i].id
  }

  method SettledState(raw: Raw, stds: seq<Standard>, copies: nat, telemetry: map<string, nat>, on: bool, last: bool)
    returns (st: State)
    ensures st == PresentState(raw, stds, copies, telemetry, on, last)
  {
    var processed := |stds| > 0;
    for i := 0 to |stds|
      invariant processed <==> |stds| > 0 && forall j | 0 <= j < i :: stds[j].processedAt > 0
    {
      if stds[i].processedAt == 0 { processed := false; }
    }
    if !raw.published || !processed {
      return Pending;
    }
    if copies == 0 {
      return if last then NoBody else Pending;
    }
    if on {
      for i := 0 to |stds|
        invariant forall j | 0 <= j < i :: !(stds[j].hasProperties && Count(telemetry, stds[j].id) == 0)
      {
        if stds[i].hasProperties && Count(telemetry, stds[i].id) == 0 {
          return if last then NoTelemetry else Pending;
        }
      }
    }
    return Confirmed;
  }

  /** One message against the answers of its batch: the same verdict as against the stores. */
  method Examine(
      was: Message, id: string, raws: map<string, Raw>, bodies: map<string, nat>, standards: map<string, seq<Standard>>,
      telemetry: map<string, nat>, on: bool, ghost store: Store, ghost ids: seq<string>,
      ghost present: seq<string>, last: bool)
    returns (m: Message)
    requires id in ids && forall k :: k in present <==> k in ids && k in raws
    requires raws == RawIndexes(store, ids) && bodies == RawBodies(store, present)
    requires standards == StandardsOf(store, present)
    requires on == store.telemetryOn && telemetry == if on then TelemetryOf(store, Wanted(standards)) else map[]
    ensures m == Update(was, id, store, last)
  {
    hide PresentState, AllProcessed, LacksTelemetry, LatestOf, RawIndexes, RawBodies, StandardsOf, TelemetryOf, Wanted;
    var stds := if id in standards then standards[id] else [];
    AnswersAreTheStores(id, raws, bodies, standards, store, ids, present);
    var copies := Count(bodies, id);
    m := was.(copies := copies);
    if id !in raws {
      m := m.(state := Pending);
      if last { m := m.(state := AbsentState(m)); }
    } else if raws[id].hash != m.hash {
      m := m.(state := Conflict);
    } else if raws[id].parseError != "" {
      m := m.(state := ParseFailed);
    } else {
      var st := SettledState(raws[id], stds, copies, telemetry, on, last);
      AnswersSuffice(raws[id], copies, last, id, stds, standards, telemetry, store);
      var latest := LatestAt(stds);
      m := m.(state := st);
      if latest > m.processedAt { m := m.(processedAt := latest); }
    }
  }

  method LatestAt(stds: seq<Standard>) returns (t: nat)
    ensures t == LatestOf(stds)
  {
    t := 0;
    for i := 0 to |stds|
      invariant t == LatestOf(stds[..i])
    {
      assert stds[..i + 1][..i] == stds[..i];
      if stds[i].processedAt > t { t := stds[i].processedAt; }
    }
    assert stds[..|stds|] == stds;
  }

  lemma AnswersAreTheStores(
      id: string, raws: map<string, Raw>, bodies: map<string, nat>, standards: map<string, seq<Standard>>, store: Store,
      ids: seq<string>, present: seq<string>)
    requires id in ids && forall k :: k in present <==> k in ids && k in raws
    requires raws == RawIndexes(store, ids) && bodies == RawBodies(store, present)
    requires standards == StandardsOf(store, present)
    ensures id in raws <==> id in store.raws
    ensures id in raws ==> raws[id] == store.raws[id]
    ensures Count(bodies, id) == Copies(id, store)
    ensures (if id in standards then standards[id] else []) == if id in store.raws then Standards(store, id) else []
  {
  }

  /** Once everything is processed, all the telemetry that matters was asked for. */
  lemma AnswersSuffice(
      raw: Raw, copies: nat, last: bool, id: string, stds: seq<Standard>, standards: map<string, seq<Standard>>,
      telemetry: map<string, nat>, store: Store)
    requires stds == (if id in standards then standards[id] else [])
    requires store.telemetryOn ==> telemetry == TelemetryOf(store, Wanted(standards))
    ensures PresentState(raw, stds, copies, telemetry, store.telemetryOn, last)
            == PresentState(raw, stds, copies, store.telemetry, store.telemetryOn, last)
  {
    if AllProcessed(stds) && store.telemetryOn {
      forall i | 0 <= i < |stds| && stds[i].hasProperties
        ensures Count(telemetry, stds[i].id) == Count(store.telemetry, stds[i].id)
      {
        assert stds[i].id in Wanted(standards);
      }
    }
  }
}
