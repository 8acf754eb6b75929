/** Matching archive receipts to publishes over one device connection.

    Publishing is three steps that interleave with everything else: the wait is registered, the
    publish ends with or without what came over its channel, and the wait is removed. */
module Receipts {
  import opened Plan

  datatype Receipt = Receipt(id: string, hash: string, archived: bool, raw: string)

  /** What came over the channel of a publish: the raw ID, and which delivery brought it. */
  datatype Delivery = Delivery(raw: string, index: nat)

  datatype Outcome = Waiting | Confirmed(raw: string) | GivenUp

  datatype Publish = Publish(
    id: string, hash: string, since: nat, channel: Option<Delivery>, closed: bool, outcome: Outcome, removed: bool)

  /** `pending` says which publish waits under a key; `log` is every delivery so far. */
  datatype State = State(pending: map<string, nat>, publishes: seq<Publish>, log: seq<Receipt>)

  datatype Event =
    | Register(id: string, hash: string)
    | Receive(receipt: Receipt)
    | TakeReceipt(index: nat)
    | GiveUp(index: nat)
    | Remove(index: nat)

  const NUL := "\0"
  const INITIAL := State(map[], [], [])

  function Key(id: string, hash: string): string { id + NUL + hash }

  function KeyOf(p: Publish): string { Key(p.id, p.hash) }

  predicate Known(s: State, i: nat) { i < |s.publishes| }

  predicate Indexed(s: State) { forall k | k in s.pending :: Known(s, s.pending[k]) }

  function With(s: State, i: nat, p: Publish): State
    requires Known(s, i)
  {
    s.(publishes := s.publishes[i := p])
  }

  function Deliver(s: State, r: Receipt): State
    requires Indexed(s)
  {
    var t, key := s.(log := s.log + [r]), Key(r.id, r.hash);
    if !r.archived || key !in s.pending then t
    else
      var i := s.pending[key];
      var p := s.publishes[i].(channel := Some(Delivery(r.raw, |s.log|)), closed := true);
      With(t, i, p).(pending := s.pending - {key})
  }

  function Step(s: State, e: Event): State
    requires Indexed(s)
  {
    match e
    case Register(id, hash) =>
      s.(pending := s.pending[Key(id, hash) := |s.publishes|],
         publishes := s.publishes + [Publish(id, hash, |s.log|, None, false, Waiting, false)])
    case Receive(r) => Deliver(s, r)
    case TakeReceipt(i) =>
      if Known(s, i) && s.publishes[i].outcome == Waiting && s.publishes[i].channel.Some? then
        With(s, i, s.publishes[i].(outcome := Confirmed(s.publishes[i].channel.value.raw)))
      else s
    case GiveUp(i) =>
      if Known(s, i) && s.publishes[i].outcome == Waiting then With(s, i, s.publishes[i].(outcome := GivenUp)) else s
    case Remove(i) =>
      if Known(s, i) && s.publishes[i].outcome != Waiting && !s.publishes[i].removed then
        With(s, i, s.publishes[i].(removed := true)).(pending := s.pending - {KeyOf(s.publishes[i])})
      else s
  }

  // ---------------------------------------------------------------- what every state keeps

  /** The delivery in a channel is one that was meant for this key and came after the wait began. */
  predicate Matched(s: State, p: Publish) {
    p.channel.Some? ==>
      var d := p.channel.value;
      && p.since <= d.index < |s.log| && s.log[d.index].archived && s.log[d.index].raw == d.raw
      && Key(s.log[d.index].id, s.log[d.index].hash) == KeyOf(p)
  }

  predicate Coherent(s: State) {
    && Indexed(s)
    && (forall k | k in s.pending ::
          var p := s.publishes[s.pending[k]];
          KeyOf(p) == k && p.channel.None? && !p.closed && !p.removed)
    && (forall i | 0 <= i < |s.publishes| ::
          var p := s.publishes[i];
          && Matched(s, p) && (p.closed <==> p.channel.Some?) && p.since <= |s.log|
          && (p.outcome.Confirmed? ==> p.channel.Some? && p.outcome.raw == p.channel.value.raw)
          && (p.removed ==> p.outcome != Waiting))
    && (forall i, j | 0 <= i < j < |s.publishes| && s.publishes[i].channel.Some? && s.publishes[j].channel.Some? ::
          s.publishes[i].channel.value.index != s.publishes[j].channel.value.index)
  }

  lemma DeliverKeeps(s: State, r: Receipt)
    requires Coherent(s)
    ensures Coherent(Deliver(s, r))
  {
    hide Key;
    var t, key := Deliver(s, r), Key(r.id, r.hash);
    forall i | 0 <= i < |s.publishes| ensures Matched(t, t.publishes[i]) {}
    if r.archived && key in s.pending {
      forall k | k in t.pending ensures t.pending[k] != s.pending[key] {
        assert KeyOf(s.publishes[s.pending[k]]) == k;
      }
    }
  }

  lemma StepKeeps(s: State, e: Event)
    requires Coherent(s)
    ensures Coherent(Step(s, e))
  {
    hide Key;
    match e
    case Receive(r) => DeliverKeeps(s, r);
    case _ =>
  }

  function Play(s: State, events: seq<Event>): State
    requires Coherent(s)
    decreases |events|
  {
    if events == [] then s
    else
      StepKeeps(s, events[0]);
      Play(Step(s, events[0]), events[1..])
  }

  lemma {:induction false} PlayKeeps(s: State, events: seq<Event>)
    requires Coherent(s)
    ensures Coherent(Play(s, events))
    decreases |events|
  {
    hide Step;
    if events != [] {
      StepKeeps(s, events[0]);
      PlayKeeps(Step(s, events[0]), events[1..]);
    }
  }

  predicate Plain(s: string) { forall i | 0 <= i < |s| :: s[i] != '\0' }

  /** However publishes, deliveries, retries and timeouts interleave: a publish is confirmed only by
      an archived receipt for its key that came after its wait began, and no receipt confirms two;
      a delivery finds an empty, open channel, so it never blocks; and when every publish has
      returned no wait is left. */
  lemma ReceiptsMatch(events: seq<Event>)
    ensures
      var s := Play(INITIAL, events);
      && (forall i | 0 <= i < |s.publishes| && s.publishes[i].outcome.Confirmed? ::
            var p := s.publishes[i];
            && p.channel.Some? && p.since <= p.channel.value.index < |s.log|
            && var r := s.log[p.channel.value.index];
               r.archived && r.raw == p.outcome.raw && Key(r.id, r.hash) == KeyOf(p))
      && (forall i, j | 0 <= i < j < |s.publishes| && s.publishes[i].outcome.Confirmed?
           && s.publishes[j].outcome.Confirmed? ::
            s.publishes[i].channel.value.index != s.publishes[j].channel.value.index)
      && (forall k | k in s.pending ::
            Known(s, s.pending[k]) && s.publishes[s.pending[k]].channel.None? && !s.publishes[s.pending[k]].closed)
      && ((forall i | 0 <= i < |s.publishes| :: s.publishes[i].removed) ==> s.pending == map[])
  {
    PlayKeeps(INITIAL, events);
    var s := Play(INITIAL, events);
    forall i | 0 <= i < |s.publishes| && s.publishes[i].outcome.Confirmed? ensures Matched(s, s.publishes[i]) {}
    if s.pending != map[] {
      var k :| k in s.pending;
      assert !s.publishes[s.pending[k]].removed;
    }
  }

  /** Keys stand for the ID and the hash exactly when the ID holds no NUL (a hash never does). */
  lemma KeysDetermineExactlyWhen(id: string, hash: string)
    requires Plain(hash)
    ensures (forall rid, rhash | Key(rid, rhash) == Key(id, hash) :: rid == id && rhash == hash) <==> Plain(id)
  {
    if Plain(id) {
      forall rid, rhash | Key(rid, rhash) == Key(id, hash) ensures rid == id && rhash == hash {
        SameKeySameParts(id, hash, rid, rhash);
      }
    } else {
      var i :| 0 <= i < |id| && id[i] == '\0';
      var rid, rhash := id[..i], id[i + 1..] + NUL + hash;
      assert Key(rid, rhash) == Key(id, hash);
    }
  }

  lemma SameKeySameParts(id: string, hash: string, rid: string, rhash: string)
    requires Plain(id) && Plain(hash) && Key(rid, rhash) == Key(id, hash)
    ensures rid == id && rhash == hash
  {
    var k := Key(id, hash);
    assert k[|id|] == '\0' && k[|rid|] == '\0';
    assert forall i | 0 <= i < |id| :: k[i] == id[i];
    assert forall i | |id| < i < |k| :: k[i] == hash[i - |id| - 1];
    assert id == k[..|id|] && rid == k[..|rid|];
    assert hash == k[|id| + 1..] && rhash == k[|rid| + 1..];
  }

  /** Nothing but a publish or its end with this key, or an archived receipt for it. */
  predicate Apart(s: State, e: Event, key: string) {
    match e
    case Register(id, hash) => Key(id, hash) != key
    case Receive(r) => !r.archived || Key(r.id, r.hash) != key
    case Remove(i) => Known(s, i) ==> KeyOf(s.publishes[i]) != key
    case _ => true
  }

  predicate AllApart(s: State, events: seq<Event>, key: string)
    requires Coherent(s)
    decreases |events|
  {
    events == []
    || (Apart(s, events[0], key) && (StepKeeps(s, events[0]); AllApart(Step(s, events[0]), events[1..], key)))
  }

  /** A publish whose key nobody else uses in between gets the first archived receipt for it. */
  lemma {:induction false} LonePublishGetsItsReceipt(s: State, key: string, events: seq<Event>, r: Receipt)
    requires Coherent(s) && key in s.pending && AllApart(s, events, key)
    requires r.archived && Key(r.id, r.hash) == key
    ensures
      var t, i := Play(s, events), s.pending[key];
      && Indexed(t)
      && var u := Step(t, Receive(r));
         Known(u, i) && u.publishes[i].channel == Some(Delivery(r.raw, |t.log|))
    decreases |events|
  {
    hide Key;
    if events != [] {
      StepKeeps(s, events[0]);
      StaysRegistered(s, events[0], key);
      LonePublishGetsItsReceipt(Step(s, events[0]), key, events[1..], r);
    }
  }

  lemma StaysRegistered(s: State, e: Event, key: string)
    requires Coherent(s) && key in s.pending && Apart(s, e, key)
    ensures key in Step(s, e).pending && Step(s, e).pending[key] == s.pending[key]
  {
    hide Key;
  }

  /** A publish whose wait is no longer its own is never confirmed: another publish of the same key took
      it over, or removed it when it ended. */
  lemma {:induction false} DisplacedIsNeverConfirmed(s: State, i: nat, events: seq<Event>)
    requires Coherent(s) && Known(s, i) && s.publishes[i].channel.None?
    requires KeyOf(s.publishes[i]) !in s.pending || s.pending[KeyOf(s.publishes[i])] != i
    ensures
      var t := Play(s, events);
      Known(t, i) && t.publishes[i].channel.None? && !t.publishes[i].outcome.Confirmed?
    decreases |events|
  {
    hide Key;
    assert !s.publishes[i].outcome.Confirmed?;
    if events != [] {
      StepKeeps(s, events[0]);
      StaysDisplaced(s, i, events[0]);
      DisplacedIsNeverConfirmed(Step(s, events[0]), i, events[1..]);
    }
  }

  lemma StaysDisplaced(s: State, i: nat, e: Event)
    requires Coherent(s) && Known(s, i) && s.publishes[i].channel.None?
    requires KeyOf(s.publishes[i]) !in s.pending || s.pending[KeyOf(s.publishes[i])] != i
    ensures
      var t := Step(s, e);
      && Known(t, i) && t.publishes[i].channel.None? && KeyOf(t.publishes[i]) == KeyOf(s.publishes[i])
      && (KeyOf(t.publishes[i]) !in t.pending || t.pending[KeyOf(t.publishes[i])] != i)
  {
    hide Key;
  }

  ghost predicate CanBeConfirmed(s: State, i: nat)
    requires Coherent(s)
  {
    exists events ::
      Known(Play(s, events), i) && Known(s, i) && Play(s, events).publishes[i].outcome.Confirmed?
  }

  lemma {:induction false} EndedStays(s: State, i: nat, events: seq<Event>)
    requires Coherent(s) && Known(s, i) && s.publishes[i].outcome != Waiting
    ensures Known(Play(s, events), i) && Play(s, events).publishes[i].outcome == s.publishes[i].outcome
    decreases |events|
  {
    hide Key;
    if events != [] {
      StepKeeps(s, events[0]);
      EndedStays(Step(s, events[0]), i, events[1..]);
    }
  }

  /** Whatever is still to come, a publish that waits can be confirmed exactly when its receipt is in its
      channel or the wait under its key is its own. */
  lemma CanBeConfirmedExactlyWhen(s: State, i: nat)
    requires Coherent(s) && Known(s, i)
    ensures
      var p := s.publishes[i];
      CanBeConfirmed(s, i) <==>
        p.outcome.Confirmed?
        || (p.outcome == Waiting
            && (p.channel.Some? || (KeyOf(p) in s.pending && s.pending[KeyOf(p)] == i)))
  {
    hide Key, Matched, Step;
    var p := s.publishes[i];
    if p.outcome == Waiting && p.channel.Some? {
      TakenIsConfirmed(s, i);
    } else if p.outcome == Waiting && KeyOf(p) in s.pending && s.pending[KeyOf(p)] == i {
      var r := Receive(Receipt(p.id, p.hash, true, ""));
      StepKeeps(s, r);
      ReceivedIsThere(s, i);
      TakenIsConfirmed(Step(s, r), i);
      assert [r, TakeReceipt(i)][1..] == [TakeReceipt(i)];
      assert Play(s, [r, TakeReceipt(i)]).publishes[i].outcome.Confirmed?;
    } else {
      forall events ensures Known(Play(s, events), i)
                    ensures Play(s, events).publishes[i].outcome.Confirmed? <==> p.outcome.Confirmed?
      {
        if p.outcome == Waiting { DisplacedIsNeverConfirmed(s, i, events); } else { EndedStays(s, i, events); }
      }
      if p.outcome.Confirmed? { assert Known(Play(s, []), i); }
    }
  }

  /** A publish that has returned is removed once, and with it the wait under its key. */
  lemma RemovalIsOnce(s: State, i: nat)
    requires Coherent(s) && Known(s, i) && s.publishes[i].outcome != Waiting
    ensures
      var t := Step(s, Remove(i));
      && Coherent(t) && Known(t, i) && t.publishes[i].removed && KeyOf(s.publishes[i]) == KeyOf(t.publishes[i])
      && (if s.publishes[i].removed then t == s
          else KeyOf(s.publishes[i]) !in t.pending
               && forall k | k != KeyOf(s.publishes[i]) :: k in t.pending <==> k in s.pending)
      && Step(t, Remove(i)) == t
  {
    hide Key;
    StepKeeps(s, Remove(i));
  }

  /** The end of a publish costs every other one of its key the receipt that has not arrived. */
  lemma RemovalCostsTheOthers(s: State, i: nat, j: nat)
    requires Coherent(s) && Known(s, i) && s.publishes[i].outcome != Waiting && !s.publishes[i].removed
    requires Known(s, j) && KeyOf(s.publishes[j]) == KeyOf(s.publishes[i])
    requires s.publishes[j].outcome == Waiting && s.publishes[j].channel.None?
    ensures Coherent(Step(s, Remove(i))) && !CanBeConfirmed(Step(s, Remove(i)), j)
  {
    hide Key, CanBeConfirmed;
    StepKeeps(s, Remove(i));
    CanBeConfirmedExactlyWhen(Step(s, Remove(i)), j);
  }

  lemma TakenIsConfirmed(s: State, i: nat)
    requires Coherent(s) && Known(s, i) && s.publishes[i].outcome == Waiting && s.publishes[i].channel.Some?
    ensures var t := Play(s, [TakeReceipt(i)]); Known(t, i) && t.publishes[i].outcome.Confirmed?
  {
    hide Key;
    StepKeeps(s, TakeReceipt(i));
    assert [TakeReceipt(i)][1..] == [];
  }

  lemma ReceivedIsThere(s: State, i: nat)
    requires Coherent(s) && Known(s, i) && s.publishes[i].outcome == Waiting
    requires KeyOf(s.publishes[i]) in s.pending && s.pending[KeyOf(s.publishes[i])] == i
    ensures
      var p := s.publishes[i];
      var t := Step(s, Receive(Receipt(p.id, p.hash, true, "")));
      Known(t, i) && t.publishes[i].outcome == Waiting && t.publishes[i].channel.Some?
  {
  }

  // ---------------------------------------------------------------- the attempts of one publish

  datatype Trial = SendCancelled | SendFailed(code: string) | WaitCancelled | Got(raw: string) | TimedOut

  datatype Result = Result(ok: bool, code: string, bytes: nat, attempts: int, raw: string)

  /** The attempts after registering: the first that does not time out decides; `trial(k)` is what
      attempt k meets. */
  method Attempts(trial: nat -> Trial, retries: int, size: nat) returns (r: Result)
    ensures retries < 0 ==> r == Result(false, "receipt_timeout", 0, retries + 1, "")
    ensures retries >= 0 ==>
              var k := r.attempts - 1;
              && 0 <= k <= retries && (forall j: nat | j < k :: trial(j) == TimedOut)
              && (trial(k) == TimedOut ==> k == retries)
              && match trial(k)
                 case Got(raw) => r.ok && r.raw == raw && r.bytes == size
                                  && r.code == (if k == 0 then "archived" else "archived_retry")
                 case SendCancelled => r == Result(false, "timeout", 0, k + 1, "")
                 case SendFailed(code) => r == Result(false, code, 0, k + 1, "")
                 case _ => r == Result(false, "receipt_timeout", 0, k + 1, "")
  {
    var attempt := 0;
    while attempt <= retries
      invariant 0 <= attempt && (retries >= 0 ==> attempt <= retries + 1) && (retries < 0 ==> attempt == 0)
      invariant forall j: nat | j < attempt :: trial(j) == TimedOut
      decreases retries + 1 - attempt
    {
      match trial(attempt) {
        case SendCancelled => return Result(false, "timeout", 0, attempt + 1, "");
        case SendFailed(code) => return Result(false, code, 0, attempt + 1, "");
        case WaitCancelled => return Result(false, "receipt_timeout", 0, attempt + 1, "");
        case Got(raw) =>
          var code := "archived";
          if attempt > 0 { code := "archived_retry"; }
          return Result(true, code, size, attempt + 1, raw);
        case TimedOut =>
      }
      attempt := attempt + 1;
    }
    return Result(false, "receipt_timeout", 0, retries + 1, "");
  }

  // ---------------------------------------------------------------- the program's object

  class MQTTReceipts {
    var pending: map<string, nat>
    var publishes: seq<Publish>
    var log: seq<Receipt>

    constructor ()
      ensures Snapshot() == INITIAL
    {
      pending, publishes, log := map[], [], [];
    }

    function Snapshot(): State
      reads this
    {
      State(pending, publishes, log)
    }

    method Receive(r: Receipt)
      requires Indexed(Snapshot())
      modifies this
      ensures Snapshot() == Deliver(old(Snapshot()), r)
    {
      log := log + [r];
      if !r.archived {
        return;
      }
      var key := r.id + NUL + r.hash;
      if key in pending {
        var i := pending[key];
        pending := pending - {key};
        publishes := publishes[i := publishes[i].(channel := Some(Delivery(r.raw, |log| - 1)))];
        publishes := publishes[i := publishes[i].(closed := true)];
      }
    }

    method Register(id: string, hash: string) returns (i: nat)
      requires Indexed(Snapshot())
      modifies this
      ensures Snapshot() == Step(old(Snapshot()), Event.Register(id, hash)) && i == old(|publishes|)
    {
      i := |publishes|;
      publishes := publishes + [Publish(id, hash, |log|, None, false, Waiting, false)];
      pending := pending[id + NUL + hash := i];
    }

    /** The deferred removal when a publish returns. */
    method Unregister(i: nat)
      requires Indexed(Snapshot()) && i < |publishes| && publishes[i].outcome != Waiting && !publishes[i].removed
      modifies this
      ensures Snapshot() == Step(old(Snapshot()), Remove(i))
    {
      publishes := publishes[i := publishes[i].(removed := true)];
      pending := pending - {KeyOf(publishes[i])};
    }
  }
}
