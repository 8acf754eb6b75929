/** Resuming an interrupted search from its recorded steps.

    The controller reads the phase records back in directory order, drops the cancelled one, sorts
    the rest by index and answers the search from them until it asks for something else.
 */
module Replay {
  import opened Plan
  import opened Search

  // ---------------------------------------------------------------- reading the records back

  function NotCancelled(files: seq<Record>): (kept: seq<Record>)
    ensures forall r :: r in kept ==> !r.outcome.cancelled
    decreases |files|
  {
    if files == [] then []
    else if files[0].outcome.cancelled then NotCancelled(files[1..])
    else [files[0]] + NotCancelled(files[1..])
  }

  predicate Ordered(v: seq<Record>) { forall i, j :: 0 <= i < j < |v| ==> v[i].index <= v[j].index }

  predicate StrictlyOrdered(v: seq<Record>) { forall i, j :: 0 <= i < j < |v| ==> v[i].index < v[j].index }

  function Insert(r: Record, v: seq<Record>): (s: seq<Record>)
    ensures multiset(s) == multiset(v) + multiset{r}
    decreases |v|
  {
    if v == [] || r.index <= v[0].index then [r] + v
    else
      assert v == [v[0]] + v[1..];
      [v[0]] + Insert(r, v[1..])
  }

  lemma {:induction false} InsertKeepsOrder(r: Record, v: seq<Record>)
    requires Ordered(v)
    ensures Ordered(Insert(r, v))
    decreases |v|
  {
    if v != [] && r.index > v[0].index {
      InsertKeepsOrder(r, v[1..]);
      var rest := Insert(r, v[1..]);
      forall j | 0 <= j < |rest| ensures v[0].index <= rest[j].index {
        assert rest[j] in multiset(rest);
        assert rest[j] == r || rest[j] in v[1..];
      }
    }
  }

  /** Sorting by index; which of two records with the same index comes first is left open by the
      program, and decided here. */
  function Sort(v: seq<Record>): (s: seq<Record>)
    ensures Ordered(s) && multiset(s) == multiset(v)
    decreases |v|
  {
    if v == [] then []
    else
      assert v == [v[0]] + v[1..];
      InsertKeepsOrder(v[0], Sort(v[1..]));
      Insert(v[0], Sort(v[1..]))
  }

  function LoadReplay(files: seq<Record>): seq<Record> { Sort(NotCancelled(files)) }

  lemma MinimumFirst(s: seq<Record>, v: seq<Record>)
    requires Ordered(s) && StrictlyOrdered(v) && multiset(s) == multiset(v) && v != []
    ensures s != [] && s[0] == v[0]
  {
    assert |multiset(s)| == |multiset(v)|;
    assert v[0] in multiset(s) && s[0] in multiset(v);
    var i :| 0 <= i < |s| && s[i] == v[0];
    var j :| 0 <= j < |v| && v[j] == s[0];
  }

  lemma MultisetTail(s: seq<Record>)
    requires s != []
    ensures multiset(s[1..]) == multiset(s) - multiset{s[0]}
  {
    assert s == [s[0]] + s[1..];
  }

  /** With distinct indices there is one sorted order. */
  lemma {:induction false} SortedIsUnique(s: seq<Record>, v: seq<Record>)
    requires Ordered(s) && StrictlyOrdered(v) && multiset(s) == multiset(v)
    ensures s == v
    decreases |v|
  {
    if v == [] {
      assert |multiset(s)| == 0;
    } else {
      MinimumFirst(s, v);
      MultisetTail(s);
      MultisetTail(v);
      SortedIsUnique(s[1..], v[1..]);
      assert s == [s[0]] + s[1..] && v == [v[0]] + v[1..];
    }
  }

  /** The directory order of the records does not matter. */
  lemma LoadReplayRestores(files: seq<Record>, recorded: seq<Record>)
    requires multiset(NotCancelled(files)) == multiset(recorded) && StrictlyOrdered(recorded)
    ensures LoadReplay(files) == recorded
  {
    SortedIsUnique(LoadReplay(files), recorded);
  }

  // ---------------------------------------------------------------- runs that record

  function Blank(): Memory { Memory([], 0, [], []) }

  function Resumed(recorded: seq<Record>): Memory { Memory(recorded, 0, [], []) }

  /** A search without anything to replay numbers its records 1, 2, 3, ... */
  predicate Recording(m: Memory, t: Tally) {
    && m.replay == [] && m.phaseN == |m.executed| == t.res.steps
    && (forall k :: 0 <= k < |m.executed| ==> m.executed[k].index == k + 1)
  }

  /** The records of a run extend those it already had, and stay numbered. */
  lemma {:induction false} RunRecords(p: Plan, w: World, m: Memory, t: Tally, c: Control)
    requires Proper(p, c) && Started(t, c) && Recording(m, t)
    ensures
      var f := Drive(p, w, m, t, c);
      && m.executed <= f.m.executed && Recording(f.m, f.t)
    decreases p.maxSteps - t.res.steps
  {
    hide Ask, After, Step;
    if !c.Ended? {
      var s := Step(p, w, m, t, Ask(p, c));
      StepRecords(p, w, m, t, Ask(p, c));
      if s.go {
        var (t1, c1) := After(p, s.t, c, s.verdict);
        RunRecords(p, w, s.m, t1, c1);
      }
    }
  }

  /** Two worlds agree on everything before step k. */
  ghost predicate AgreeBefore(w: World, v: World, k: nat) {
    forall n: nat | n < k ::
      && w.stopped(n) == v.stopped(n)
      && (forall h :: w.affordable(n, h) == v.affordable(n, h))
      && (forall q :: w.outcome(n, q) == v.outcome(n, q))
  }

  /** ... and on everything from step k on. */
  ghost predicate AgreeFrom(w: World, v: World, k: nat) {
    forall n: nat | n >= k ::
      && w.stopped(n) == v.stopped(n)
      && (forall h :: w.affordable(n, h) == v.affordable(n, h))
      && (forall q :: w.outcome(n, q) == v.outcome(n, q))
  }

  /** Nothing keeps the search from going on before step k: no stop request, enough budget. */
  ghost predicate ClearBefore(w: World, k: nat) {
    forall n: nat | n < k :: !w.stopped(n) && forall h :: w.affordable(n, h)
  }

  /** What a run does up to step k depends only on the world up to step k. */
  lemma {:induction false} SamePrefix(p: Plan, w: World, v: World, m: Memory, t: Tally, c: Control, k: nat)
    requires Proper(p, c) && Started(t, c) && Recording(m, t)
    requires AgreeBefore(w, v, k) && |m.executed| <= k <= |Drive(p, w, m, t, c).m.executed|
    ensures k <= |Drive(p, v, m, t, c).m.executed|
    ensures Drive(p, w, m, t, c).m.executed[..k] == Drive(p, v, m, t, c).m.executed[..k]
    decreases p.maxSteps - t.res.steps
  {
    hide Ask, After, Enter;
    if |m.executed| == k {
      RunRecords(p, w, m, t, c);
      RunRecords(p, v, m, t, c);
    } else {
      var s := Step(p, w, m, t, Ask(p, c));
      assert s == Step(p, v, m, t, Ask(p, c));
      if s.go {
        var (t1, c1) := After(p, s.t, c, s.verdict);
        SamePrefix(p, w, v, s.m, t1, c1, k);
      }
    }
  }

  // ---------------------------------------------------------------- replay

  /** The resumed run has replayed as many of the recorded steps as the original has taken, and
      since then has executed what the original executed. */
  predicate InStep(m: Memory, r: Memory, t: Tally, recorded: seq<Record>) {
    && Recording(m, t)
    && r.phaseN == m.phaseN && r.completed == m.completed == m.executed
    && if |m.executed| < |recorded| then r.replay == recorded[|m.executed|..] && r.executed == []
       else r.replay == [] && r.executed == m.executed[|recorded|..]
  }

  predicate Usable(recorded: seq<Record>) { forall r :: r in recorded ==> !r.outcome.broken }

  /** One step of both runs, while records are left: the resumed run takes the record the original
      just made. */
  lemma ReplayOne(p: Plan, w: World, v: World, m: Memory, r: Memory, t: Tally, q: Request, recorded: seq<Record>)
    requires InStep(m, r, t, recorded) && Usable(recorded) && |m.executed| < |recorded|
    requires ClearBefore(v, |recorded|)
    requires recorded <= Step(p, w, m, t, q).m.executed || Step(p, w, m, t, q).m.executed <= recorded
    requires Step(p, w, m, t, q).m.executed != m.executed
    ensures
      var s, u := Step(p, w, m, t, q), Step(p, v, r, t, q);
      && s.t == u.t && s.verdict == u.verdict && s.go == u.go && s.error == u.error == false
      && InStep(s.m, u.m, s.t, recorded)
  {
    hide Enter;
    var n := |m.executed|;
    var s := Step(p, w, m, t, q);
    assert s.m.executed[n] == recorded[n];
    assert recorded[n..][0] == recorded[n] && recorded[n..][1..] == recorded[n + 1..];
    assert s.m.executed[n].outcome == w.outcome(n, q);
    assert recorded[n] in recorded;
    assert s.m.executed == m.executed + [recorded[n]];
    if n + 1 == |recorded| { assert recorded[n + 1..] == [] && s.m.executed[|recorded|..] == []; }
  }

  /** One step of both runs after the replay. */
  lemma ExecuteOne(p: Plan, w: World, v: World, m: Memory, r: Memory, t: Tally, q: Request, recorded: seq<Record>)
    requires InStep(m, r, t, recorded) && |recorded| <= |m.executed|
    requires AgreeFrom(v, w, |recorded|)
    ensures
      var s, u := Step(p, w, m, t, q), Step(p, v, r, t, q);
      && s.t == u.t && s.verdict == u.verdict && s.go == u.go && s.error == u.error
      && u.m.executed == s.m.executed[|recorded|..]
      && u.m.completed == s.m.completed && u.m.phaseN == s.m.phaseN && u.m.replay == []
      && (s.go ==> InStep(s.m, u.m, s.t, recorded))
  {
    hide Enter, MaxIndex;
    SliceSnoc(m.executed, Record(m.phaseN + 1, q.kind, q.rate, w.outcome(t.res.steps, q)), |recorded|);
  }

  lemma SliceSnoc<T>(v: seq<T>, x: T, k: nat)
    requires k <= |v|
    ensures (v + [x])[k..] == v[k..] + [x]
  {
  }

  lemma {:induction false} ReplayInStep(p: Plan, w: World, v: World, m: Memory, r: Memory, t: Tally, c: Control,
      recorded: seq<Record>)
    requires Proper(p, c) && Started(t, c) && InStep(m, r, t, recorded) && Usable(recorded)
    requires ClearBefore(v, |recorded|) && AgreeFrom(v, w, |recorded|)
    requires recorded <= Drive(p, w, m, t, c).m.executed
    ensures
      var f, g := Drive(p, w, m, t, c), Drive(p, v, r, t, c);
      && g.t == f.t && g.how == f.how
      && g.m.executed == f.m.executed[|recorded|..]
      && g.m.completed == f.m.completed && g.m.phaseN == f.m.phaseN && g.m.replay == []
    decreases p.maxSteps - t.res.steps
  {
    hide Ask, After, Step;
    if !c.Ended? {
      var q := Ask(p, c);
      var s := Step(p, w, m, t, q);
      StepRecords(p, w, m, t, q);
      if s.go {
        var (t1, c1) := After(p, s.t, c, s.verdict);
        RunRecords(p, w, s.m, t1, c1);
        if |m.executed| < |recorded| {
          ReplayOne(p, w, v, m, r, t, q, recorded);
        } else {
          ExecuteOne(p, w, v, m, r, t, q, recorded);
        }
        ReplayInStep(p, w, v, s.m, Step(p, v, r, t, q).m, t1, c1, recorded);
      } else if |m.executed| < |recorded| {
        ReplayOne(p, w, v, m, r, t, q, recorded);
      } else {
        ExecuteOne(p, w, v, m, r, t, q, recorded);
      }
    }
  }

  lemma StepRecords(p: Plan, w: World, m: Memory, t: Tally, q: Request)
    requires Recording(m, t)
    ensures
      var s := Step(p, w, m, t, q);
      && m.executed <= s.m.executed && |s.m.executed| <= |m.executed| + 1
      && Recording(s.m, s.t) && (s.go ==> |s.m.executed| == |m.executed| + 1)
  {
  }

  // ---------------------------------------------------------------- the main result

  function Original(p: Plan, w: World): Final { Finish(p, w, Blank()) }

  function Executed(p: Plan, w: World): seq<Record> { Original(p, w).m.executed }

  /** The resumed run g ends like the uninterrupted run f and has executed only what came after the
      recorded steps, under higher indices. */
  predicate EndsAlike(f: Final, g: Final, recorded: seq<Record>) {
    && recorded <= f.m.executed
    && g.t == f.t && g.how == f.how
    && g.m.executed == f.m.executed[|recorded|..]
    && g.m.completed == f.m.completed
    && forall r, x :: r in recorded && x in g.m.executed ==> r.index < x.index
  }

  /** Crash and resume. A run in world w was interrupted after recording its first k steps (and
      perhaps one more that was cancelled); the records lie in the directory in any order. Resumed
      in a world that lets the search reach step k and from there on is world `after`, it executes
      none of the k steps, and ends in every respect where an uninterrupted run would have ended
      whose world is w up to step k and `after` from there. */
  lemma ResumeEqualsUninterrupted(p: Plan, w: World, files: seq<Record>, k: nat, whole: World, after: World)
    requires k <= |Executed(p, w)| && Usable(Executed(p, w)[..k])
    requires multiset(NotCancelled(files)) == multiset(Executed(p, w)[..k])
    requires AgreeBefore(w, whole, k) && AgreeFrom(after, whole, k) && ClearBefore(after, k)
    ensures
      var recorded := LoadReplay(files);
      && |recorded| == k
      && EndsAlike(Original(p, whole), Finish(p, after, Resumed(recorded)), recorded)
      && Result(p, after, Resumed(recorded)) == Result(p, whole, Blank())
  {
    hide Drive, Conclude;
    SharedRecords(p, w, whole, k);
    var recorded := Executed(p, whole)[..k];
    LoadReplayRestores(files, recorded);
    ResumeFrom(p, whole, after, recorded);
  }

  /** The steps before k are recorded alike, and numbered from 1. */
  lemma SharedRecords(p: Plan, w: World, whole: World, k: nat)
    requires k <= |Executed(p, w)| && AgreeBefore(w, whole, k)
    ensures k <= |Executed(p, whole)| && Executed(p, w)[..k] == Executed(p, whole)[..k]
    ensures StrictlyOrdered(Executed(p, whole)[..k])
  {
    hide Drive;
    RunRecords(p, w, Blank(), Empty(p), Begin(p));
    SamePrefix(p, w, whole, Blank(), Empty(p), Begin(p), k);
    RunRecords(p, whole, Blank(), Empty(p), Begin(p));
  }

  lemma ResumeFrom(p: Plan, whole: World, after: World, recorded: seq<Record>)
    requires recorded <= Executed(p, whole) && Usable(recorded)
    requires AgreeFrom(after, whole, |recorded|) && ClearBefore(after, |recorded|)
    ensures EndsAlike(Original(p, whole), Finish(p, after, Resumed(recorded)), recorded)
  {
    hide Drive;
    RunRecords(p, whole, Blank(), Empty(p), Begin(p));
    assert recorded[0..] == recorded;
    ReplayInStep(p, whole, after, Blank(), Resumed(recorded), Empty(p), Begin(p), recorded);
    LaterIndices(Executed(p, whole), |recorded|);
  }

  lemma LaterIndices(v: seq<Record>, k: nat)
    requires k <= |v| && forall i :: 0 <= i < |v| ==> v[i].index == i + 1
    ensures forall r, x :: r in v[..k] && x in v[k..] ==> r.index < x.index
  {
  }

  // ---------------------------------------------------------------- divergence

  /** `top` is the highest recorded index; whatever was executed lies above it, in order. */
  predicate Numbered(m: Memory, top: nat) {
    && Ordered(m.replay)
    && (if m.replay == [] then top <= m.phaseN
        else m.phaseN <= m.replay[0].index && m.replay[|m.replay| - 1].index == top && m.executed == [])
    && (forall k :: 0 <= k < |m.executed| ==> top < m.executed[k].index <= m.phaseN)
    && StrictlyOrdered(m.executed)
  }

  lemma {:induction false} MaxIndexReaches(n: nat, v: seq<Record>)
    requires Ordered(v) && v != [] && n <= v[0].index
    ensures MaxIndex(n, v) == v[|v| - 1].index
    decreases |v|
  {
    if |v| > 1 { MaxIndexReaches(v[0].index, v[1..]); }
  }

  lemma StepNumbered(p: Plan, w: World, m: Memory, t: Tally, q: Request, top: nat)
    requires Numbered(m, top)
    ensures Numbered(Step(p, w, m, t, q).m, top)
  {
    hide Enter, ReplayStep;
    ReplayNumbered(m, q, top);
    var (m1, hit) := ReplayStep(m, q);
    var rec := Record(m1.phaseN + 1, q.kind, q.rate, w.outcome(t.res.steps, q));
    if hit.None? {
      ExecuteNumbered(m1, rec, m1.completed, top);
      ExecuteNumbered(m1, rec, m1.completed + [rec], top);
    }
  }

  lemma ExecuteNumbered(m: Memory, rec: Record, completed: seq<Record>, top: nat)
    requires Numbered(m, top) && m.replay == [] && rec.index == m.phaseN + 1
    ensures Numbered(Memory([], rec.index, completed, m.executed + [rec]), top)
  {
  }

  lemma ReplayNumbered(m: Memory, q: Request, top: nat)
    requires Numbered(m, top)
    ensures
      var (m1, hit) := ReplayStep(m, q);
      && Numbered(m1, top) && (hit.None? ==> m1.replay == [])
  {
    if m.replay != [] { MaxIndexReaches(m.phaseN, m.replay); }
  }

  lemma {:induction false} DriveNumbered(p: Plan, w: World, m: Memory, t: Tally, c: Control, top: nat)
    requires Proper(p, c) && Started(t, c) && Numbered(m, top)
    ensures Numbered(Drive(p, w, m, t, c).m, top)
    decreases p.maxSteps - t.res.steps
  {
    hide Ask, After, Step, Numbered;
    if !c.Ended? {
      var s := Step(p, w, m, t, Ask(p, c));
      StepNumbered(p, w, m, t, Ask(p, c), top);
      if s.go {
        var (t1, c1) := After(p, s.t, c, s.verdict);
        DriveNumbered(p, w, s.m, t1, c1, top);
      }
    }
  }

  /** Whatever was recorded, and whether or not the resumed search follows it to the end, every
      step it executes itself gets an index above all recorded ones, and above the one before. */
  lemma ExecutedAboveRecorded(p: Plan, w: World, files: seq<Record>)
    ensures
      var g := Finish(p, w, Resumed(LoadReplay(files)));
      && StrictlyOrdered(g.m.executed)
      && forall r, x :: r in LoadReplay(files) && x in g.m.executed ==> r.index < x.index
  {
    hide Drive, LoadReplay;
    var v := LoadReplay(files);
    assert Ordered(v) by { LoadReplayOrdered(files); }
    var top := if v == [] then 0 else v[|v| - 1].index;
    DriveNumbered(p, w, Resumed(v), Empty(p), Begin(p), top);
  }

  lemma LoadReplayOrdered(files: seq<Record>)
    ensures Ordered(LoadReplay(files))
  {
  }
}
