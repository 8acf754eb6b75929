/** The increase of a monotonic counter over scraped rounds, tolerant of restarts. */
module Counter {
  import opened Plan

  /** A scrape of one instance: its reading, unless the scrape failed or the counter was absent or
      not a number. */
  datatype Sample = Sample(instance: string, reading: Option<real>)

  type Round = seq<Sample>

  function Flat(rounds: seq<Round>): seq<Sample>
    decreases |rounds|
  {
    if rounds == [] then [] else Flat(rounds[..|rounds| - 1]) + rounds[|rounds| - 1]
  }

  function Instances(samples: seq<Sample>): set<string> { set i | 0 <= i < |samples| :: samples[i].instance }

  /** The readings of one instance in the order of the rounds. */
  function Readings(samples: seq<Sample>, instance: string): seq<real>
    decreases |samples|
  {
    if samples == [] then []
    else
      var init, last := Readings(samples[..|samples| - 1], instance), samples[|samples| - 1];
      if last.instance == instance && last.reading.Some? then init + [last.reading.value] else init
  }

  /** From one reading to the next; a drop is a restart from zero. */
  function Delta(a: real, b: real): real { if b >= a then b - a else b }

  function Increase(v: seq<real>): real
    decreases |v|
  {
    if |v| < 2 then 0.0 else Increase(v[..|v| - 1]) + Delta(v[|v| - 2], v[|v| - 1])
  }

  lemma IncreaseOne(v: seq<real>, x: real)
    requires v != []
    ensures Increase(v + [x]) == Increase(v) + Delta(v[|v| - 1], x)
  {
    assert (v + [x])[..|v|] == v;
  }

  lemma IncreaseFirst(x: real)
    ensures Increase([]) == 0.0 && Increase([x]) == 0.0
  {
  }

  // ---------------------------------------------------------------- sums over instances

  ghost function Sum(m: map<string, real>): real
    decreases |m|
  {
    if m == map[] then 0.0
    else
      var k :| k in m;
      Fewer(m, k);
      m[k] + Sum(m - {k})
  }

  lemma Fewer(m: map<string, real>, k: string)
    requires k in m
    ensures |m - {k}| < |m|
  {
    assert m.Keys == (m - {k}).Keys + {k};
  }

  lemma {:induction false} AnyFirst(m: map<string, real>, k: string)
    requires k in m
    ensures Sum(m) == m[k] + Sum(m - {k})
    decreases |m|
  {
    var j :| j in m && Sum(m) == m[j] + Sum(m - {j});
    if j != k {
      Fewer(m, j);
      Fewer(m, k);
      AnyFirst(m - {j}, k);
      AnyFirst(m - {k}, j);
      assert m - {j} - {k} == m - {k} - {j};
    }
  }

  lemma SumPut(m: map<string, real>, k: string, v: real)
    requires k !in m
    ensures Sum(m[k := v]) == Sum(m) + v
  {
    AnyFirst(m[k := v], k);
    assert m[k := v] - {k} == m;
  }

  lemma SumNone()
    ensures Sum(map[]) == 0.0
  {
  }

  lemma {:induction false} SumsAdd(a: map<string, real>, b: map<string, real>, c: map<string, real>)
    requires a.Keys == b.Keys == c.Keys && forall k | k in a :: c[k] == a[k] + b[k]
    ensures Sum(c) == Sum(a) + Sum(b)
    decreases |a|
  {
    if a != map[] {
      var k :| k in a;
      assert k in b && k in c;
      Fewer(a, k);
      AnyFirst(a, k);
      AnyFirst(b, k);
      AnyFirst(c, k);
      SumsAdd(a - {k}, b - {k}, c - {k});
    } else {
      assert b == map[] && c == map[];
    }
  }

  lemma {:induction false} SumsGrow(a: map<string, real>, b: map<string, real>)
    requires a.Keys == b.Keys && forall k | k in a :: a[k] <= b[k]
    ensures Sum(a) <= Sum(b)
    ensures Sum(a) == Sum(b) <==> forall k | k in a :: a[k] == b[k]
    decreases |a|
  {
    if a != map[] {
      var k :| k in a;
      assert k in b;
      Fewer(a, k);
      AnyFirst(a, k);
      AnyFirst(b, k);
      SumsGrow(a - {k}, b - {k});
      assert forall j | j in a :: j == k || j in a - {k};
    } else {
      assert b == map[];
    }
  }

  function Increases(samples: seq<Sample>): map<string, real> {
    map k | k in Instances(samples) :: Increase(Readings(samples, k))
  }

  /** Every instance that was scraped has two readings, and there is one. */
  predicate Measurable(samples: seq<Sample>) {
    Instances(samples) != {} && forall k | k in Instances(samples) :: |Readings(samples, k)| >= 2
  }

  // ---------------------------------------------------------------- the program's loops

  datatype Track = Track(last: real, seen: nat, total: real)

  ghost predicate Tracks(per: map<string, Track>, samples: seq<Sample>) {
    forall k: string ::
      var v := Readings(samples, k);
      (k in per <==> v != []) && (k in per ==> per[k] == Track(v[|v| - 1], |v|, Increase(v)))
  }

  method CounterIncrease(rounds: seq<Round>) returns (sum: real, valid: bool)
    ensures valid <==> && Instances(Flat(rounds)) != {}
                       && forall k | k in Instances(Flat(rounds)) :: |Readings(Flat(rounds), k)| >= 2
    ensures sum == if valid then Sum(Increases(Flat(rounds))) else 0.0
  {
    hide Increase, Readings;
    NothingRead();
    var per: map<string, Track> := map[];
    var instances: set<string> := {};
    for i := 0 to |rounds|
      invariant Tracks(per, Flat(rounds[..i])) && instances == Instances(Flat(rounds[..i]))
    {
      ghost var before := Flat(rounds[..i]);
      assert rounds[..i + 1][..i] == rounds[..i];
      assert before + rounds[i][..0] == before;
      for j := 0 to |rounds[i]|
        invariant Tracks(per, before + rounds[i][..j]) && instances == Instances(before + rounds[i][..j])
      {
        var s := rounds[i][j];
        ghost var samples := before + rounds[i][..j];
        assert before + rounds[i][..j + 1] == samples + [s];
        InstancesOne(samples, s);
        instances := instances + {s.instance};
        var was := per;
        per := TrackOne(per, s, samples);
      }
      assert rounds[i][..|rounds[i]|] == rounds[i];
    }
    assert rounds[..|rounds|] == rounds;
    if instances == {} {
      return 0.0, false;
    }
    sum, valid := AddUp(per, instances, Flat(rounds));
  }

  lemma InstancesOne(samples: seq<Sample>, s: Sample)
    ensures Instances(samples + [s]) == Instances(samples) + {s.instance}
  {
    var more := samples + [s];
    assert more[|samples|] == s;
    assert forall i | 0 <= i < |samples| :: more[i] == samples[i];
  }

  lemma ReadingsOne(samples: seq<Sample>, s: Sample, k: string)
    ensures
      Readings(samples + [s], k)
      == if s.instance == k && s.reading.Some? then Readings(samples, k) + [s.reading.value] else Readings(samples, k)
  {
    assert (samples + [s])[..|samples|] == samples;
  }

  lemma NothingRead()
    ensures forall k :: Readings([], k) == []
  {
  }

  method TrackOne(per: map<string, Track>, s: Sample, ghost samples: seq<Sample>) returns (more: map<string, Track>)
    requires Tracks(per, samples)
    ensures Tracks(more, samples + [s])
  {
    hide Increase, Readings;
    ghost var was := Readings(samples, s.instance);
    TrackPut(per, s, samples);
    more := per;
    if s.reading.None? {
      return;
    }
    var v := s.reading.value;
    if s.instance !in per {
      IncreaseFirst(v);
      assert was + [v] == [v];
      more := per[s.instance := Track(v, 1, 0.0)];
    } else {
      var st := per[s.instance];
      IncreaseOne(was, v);
      if v >= st.last {
        st := st.(total := st.total + (v - st.last));
      } else {
        st := st.(total := st.total + v);
      }
      more := per[s.instance := st.(last := v, seen := st.seen + 1)];
    }
  }

  /** The instance of the sample gets one reading more, the others keep theirs. */
  lemma TrackPut(per: map<string, Track>, s: Sample, samples: seq<Sample>)
    requires Tracks(per, samples)
    ensures
      if s.reading.None? then Tracks(per, samples + [s])
      else
        var v := Readings(samples, s.instance) + [s.reading.value];
        Tracks(per[s.instance := Track(s.reading.value, |v|, Increase(v))], samples + [s])
  {
    hide Increase, Readings;
    forall k ensures Readings(samples + [s], k)
      == if s.instance == k && s.reading.Some? then Readings(samples, k) + [s.reading.value] else Readings(samples, k)
    {
      ReadingsOne(samples, s, k);
    }
  }

  method AddUp(per: map<string, Track>, instances: set<string>, ghost samples: seq<Sample>)
    returns (sum: real, valid: bool)
    requires Tracks(per, samples) && instances == Instances(samples) && instances != {}
    ensures valid <==> Measurable(samples)
    ensures sum == if valid then Sum(Increases(samples)) else 0.0
  {
    hide Sum, Increase, Readings;
    SumNone();
    sum := 0.0;
    var todo := instances;
    ghost var added: map<string, real> := map[];
    while todo != {}
      invariant todo <= instances && added.Keys == instances - todo && sum == Sum(added)
      invariant forall k | k in added :: added[k] == Increase(Readings(samples, k)) && |Readings(samples, k)| >= 2
      decreases |todo|
    {
      var k :| k in todo;
      if k !in per || per[k].seen < 2 {
        return 0.0, false;
      }
      SumPut(added, k, per[k].total);
      sum := sum + per[k].total;
      added := added[k := per[k].total];
      todo := todo - {k};
    }
    assert added == Increases(samples);
    return sum, true;
  }

  // ---------------------------------------------------------------- against the true increments

  /** What happens to the counter of one instance between scrapes. */
  datatype Tick = Grow(more: real) | Restart | Read

  /** `grown` and `lost` count from the last reading: all growth, and what a restart then wiped out. */
  datatype Life = Life(value: real, readings: seq<real>, grown: real, lost: real, restarted: bool, truth: real,
    missed: real)

  const BORN := Life(0.0, [], 0.0, 0.0, false, 0.0, 0.0)

  predicate Possible(h: seq<Tick>) { forall i | 0 <= i < |h| && h[i].Grow? :: h[i].more >= 0.0 }

  /** What a reading cannot know: growth before a restart, and the old value if the counter has
      passed it again. */
  function Unseen(l: Life): real
    requires l.readings != []
  {
    if !l.restarted then 0.0
    else if l.value < l.readings[|l.readings| - 1] then l.lost
    else l.lost + l.readings[|l.readings| - 1]
  }

  function Lived(l: Life, t: Tick): Life {
    match t
    case Grow(more) => l.(value := l.value + more, grown := l.grown + more)
    case Restart => l.(value := 0.0, lost := l.grown, restarted := true)
    case Read =>
      var first := l.readings == [];
      l.(readings := l.readings + [l.value], grown := 0.0, lost := 0.0, restarted := false,
         truth := if first then 0.0 else l.truth + l.grown, missed := if first then 0.0 else l.missed + Unseen(l))
  }

  /** The life of a counter: its readings, and its true growth from the first to the last of them. */
  function Live(h: seq<Tick>): Life
    decreases |h|
  {
    if h == [] then BORN else Lived(Live(h[..|h| - 1]), h[|h| - 1])
  }

  predicate Sane(l: Life) {
    && l.value >= 0.0 && 0.0 <= l.lost <= l.grown && l.missed >= 0.0
    && (forall i | 0 <= i < |l.readings| :: l.readings[i] >= 0.0)
    && (l.readings != [] ==>
          l.value == if l.restarted then l.grown - l.lost else l.readings[|l.readings| - 1] + l.grown)
    && (!l.restarted ==> l.lost == 0.0)
    && Increase(l.readings) + l.missed == l.truth
  }

  lemma {:induction false} LivesAreSane(h: seq<Tick>)
    requires Possible(h)
    ensures Sane(Live(h))
    decreases |h|
  {
    hide Lived, Increase, Unseen, Sane;
    if h == [] {
      BornSane();
    } else {
      LivesAreSane(h[..|h| - 1]);
      LivedSane(Live(h[..|h| - 1]), h[|h| - 1]);
    }
  }

  lemma BornSane()
    ensures Sane(BORN)
  {
    IncreaseFirst(0.0);
  }

  /** The measured increase is the true growth between the first and the last reading, less what
      restarts hid: never more, and exact when nothing was hidden. */
  lemma IncreaseNeverOverstates(h: seq<Tick>)
    requires Possible(h)
    ensures Increase(Live(h).readings) == Live(h).truth - Live(h).missed && Live(h).missed >= 0.0
  {
    hide Lived, Increase, Live;
    LivesAreSane(h);
  }

  lemma LivedSane(l: Life, t: Tick)
    requires Sane(l) && (t.Grow? ==> t.more >= 0.0)
    ensures Sane(Lived(l, t))
  {
    hide Increase;
    if t.Read? {
      if l.readings == [] {
        IncreaseFirst(l.value);
        assert l.readings + [l.value] == [l.value];
      } else {
        IncreaseOne(l.readings, l.value);
      }
    }
  }

  /** A reading after a restart is exact exactly when the restart wiped nothing out that had grown
      since the reading before, and the counter is below that reading (or that was zero). */
  lemma ExactAfterRestartExactlyWhen(l: Life)
    requires Sane(l) && l.readings != [] && l.restarted
    ensures
      var last := l.readings[|l.readings| - 1];
      && (Delta(last, l.value) == l.grown <==> l.lost == 0.0 && (l.value < last || last == 0.0))
      && (Unseen(l) == 0.0 <==> l.lost == 0.0 && (l.value < last || last == 0.0))
  {
  }

  /** A reading now would see all growth since the reading before. */
  predicate SeesAll(l: Life)
    requires l.readings != []
  {
    !l.restarted || (l.lost == 0.0 && (l.value < l.readings[|l.readings| - 1] || l.readings[|l.readings| - 1] == 0.0))
  }

  /** Every reading after the first saw all growth since the one before. */
  predicate AllSeen(h: seq<Tick>) {
    forall i | 0 <= i < |h| && h[i] == Read && Live(h[..i]).readings != [] :: SeesAll(Live(h[..i]))
  }

  lemma SeesAllOrMisses(l: Life, t: Tick)
    requires Sane(l) && (t.Grow? ==> t.more >= 0.0) && (l.readings == [] ==> l.missed == 0.0)
    ensures Lived(l, t).missed == 0.0 <==> l.missed == 0.0 && (t == Read && l.readings != [] ==> SeesAll(l))
  {
    hide Increase;
    if l.readings != [] && l.restarted { ExactAfterRestartExactlyWhen(l); }
  }

  lemma {:induction false} NothingMissedUnread(h: seq<Tick>)
    ensures Live(h).readings == [] ==> Live(h).missed == 0.0
    decreases |h|
  {
    if h != [] { NothingMissedUnread(h[..|h| - 1]); }
  }

  /** For every history: the measured increase is exact exactly when every reading after the first
      came without a restart since the one before, or after restarts that wiped out no growth and
      left the counter below that reading. */
  lemma {:induction false} ExactExactlyWhen(h: seq<Tick>)
    requires Possible(h)
    ensures Increase(Live(h).readings) == Live(h).truth <==> AllSeen(h)
    ensures Live(h).missed == 0.0 <==> AllSeen(h)
    decreases |h|
  {
    hide Increase, Lived, Sane, Unseen, SeesAll;
    IncreaseNeverOverstates(h);
    if h != [] {
      var init, last := h[..|h| - 1], h[|h| - 1];
      ExactExactlyWhen(init);
      LivesAreSane(init);
      NothingMissedUnread(init);
      SeesAllOrMisses(Live(init), last);
      assert forall i | 0 <= i < |init| :: h[..i] == init[..i];
    }
  }

  /** Restarted means: after some reading. */
  lemma {:induction false} RestartedSince(h: seq<Tick>)
    ensures Live(h).readings != [] <==> exists i :: 0 <= i < |h| && h[i] == Read
    ensures Live(h).readings != [] && Live(h).restarted ==>
              exists i, j :: 0 <= i < j < |h| && h[i] == Read && h[j] == Restart
    decreases |h|
  {
    if h != [] {
      var init, n := h[..|h| - 1], |h| - 1;
      RestartedSince(init);
      if Live(init).readings != [] {
        var i :| 0 <= i < n && init[i] == Read;
        assert h[i] == Read;
        if Live(init).restarted {
          var a, b :| 0 <= a < b < n && init[a] == Read && init[b] == Restart;
          assert h[a] == Read && h[b] == Restart;
        }
      }
    }
  }

  lemma NotRestartedSince(h: seq<Tick>)
    requires forall i, j | 0 <= i < j < |h| && h[i] == Read :: h[j] != Restart
    ensures Live(h).readings != [] ==> SeesAll(Live(h))
  {
    hide Live;
    RestartedSince(h);
  }

  /** Restarts before the first reading or after the last one do not matter: without one between
      two readings the increase is exact. */
  lemma ExactWithoutRestart(h: seq<Tick>)
    requires Possible(h)
    requires forall i, j, k | 0 <= i < j < k < |h| && h[i] == Read && h[k] == Read :: h[j] != Restart
    ensures Increase(Live(h).readings) == Live(h).truth
  {
    hide Increase, Live, Lived, SeesAll;
    forall k | 0 <= k < |h| && h[k] == Read && Live(h[..k]).readings != [] ensures SeesAll(Live(h[..k])) {
      NotRestartedSince(h[..k]);
    }
    ExactExactlyWhen(h);
  }

  // ---------------------------------------------------------------- windows

  lemma {:induction false} IncreaseSplits(a: seq<real>, x: real, b: seq<real>)
    ensures Increase(a + [x] + b) == Increase(a + [x]) + Increase([x] + b)
    decreases |b|
  {
    hide Increase;
    if b == [] {
      assert a + [x] + b == a + [x] && [x] + b == [x];
      IncreaseFirst(x);
    } else {
      var init, last := b[..|b| - 1], b[|b| - 1];
      IncreaseSplits(a, x, init);
      assert a + [x] + b == (a + [x] + init) + [last] && [x] + b == ([x] + init) + [last];
      IncreaseOne(a + [x] + init, last);
      IncreaseOne([x] + init, last);
    }
  }

  lemma {:induction false} ReadingsJoin(a: seq<Sample>, b: seq<Sample>, k: string)
    ensures Readings(a + b, k) == Readings(a, k) + Readings(b, k)
    decreases |b|
  {
    hide Readings;
    if b == [] {
      assert a + b == a;
      NothingRead();
    } else {
      var init, last := b[..|b| - 1], b[|b| - 1];
      ReadingsJoin(a, init, k);
      assert b == init + [last];
      assert a + (init + [last]) == (a + init) + [last];
      ReadingsOne(a + init, last, k);
      ReadingsOne(init, last, k);
    }
  }

  lemma InstancesJoin(a: seq<Sample>, b: seq<Sample>)
    ensures Instances(a + b) == Instances(a) + Instances(b)
  {
    var c := a + b;
    assert forall i | 0 <= i < |a| :: c[i] == a[i];
    assert forall i | 0 <= i < |b| :: c[|a| + i] == b[i];
  }

  /** Windows that share a round in which every instance was read once add up. */
  lemma WindowsAdd(before: seq<Sample>, shared: seq<Sample>, after: seq<Sample>)
    requires forall k | k in Instances(before + shared + after) :: |Readings(shared, k)| == 1
    requires Measurable(before + shared) && Measurable(shared + after)
    ensures
      && Measurable(before + shared + after)
      && Sum(Increases(before + shared + after)) == Sum(Increases(before + shared)) + Sum(Increases(shared + after))
  {
    hide Increase, Readings, Instances;
    var all, left, right := before + shared + after, before + shared, shared + after;
    InstancesJoin(left, after);
    InstancesJoin(before, shared);
    InstancesJoin(shared, after);
    forall k | k in Instances(all)
      ensures k in Instances(shared)
      ensures Increase(Readings(all, k)) == Increase(Readings(left, k)) + Increase(Readings(right, k))
      ensures |Readings(all, k)| >= |Readings(left, k)|
    {
      NoReading(shared, k);
      ReadingsJoin(left, after, k);
      ReadingsJoin(before, shared, k);
      ReadingsJoin(shared, after, k);
      var x := Readings(shared, k)[0];
      assert Readings(shared, k) == [x];
      IncreaseSplits(Readings(before, k), x, Readings(after, k));
    }
    assert Instances(left) == Instances(right) == Instances(all) == Instances(shared);
    SumsAdd(Increases(left), Increases(right), Increases(all));
  }

  lemma {:induction false} NoReading(samples: seq<Sample>, k: string)
    ensures k !in Instances(samples) ==> Readings(samples, k) == []
    decreases |samples|
  {
    if samples != [] {
      var init, last := samples[..|samples| - 1], samples[|samples| - 1];
      NoReading(init, k);
      assert samples == init + [last];
      InstancesOne(init, last);
      ReadingsOne(init, last, k);
    }
  }

  /** The total over all instances never overstates what they grew together, and is exact exactly
      when every instance's readings saw all of its growth. */
  lemma TotalNeverOverstates(samples: seq<Sample>, lives: map<string, seq<Tick>>, truth: map<string, real>)
    requires lives.Keys == truth.Keys == Instances(samples)
    requires forall k | k in lives ::
               Possible(lives[k]) && Live(lives[k]).readings == Readings(samples, k) && truth[k] == Live(lives[k]).truth
    ensures Sum(Increases(samples)) <= Sum(truth)
    ensures Sum(Increases(samples)) == Sum(truth) <==> forall k | k in lives :: AllSeen(lives[k])
  {
    hide Increase, Readings, Live, AllSeen;
    var increases := Increases(samples);
    forall k | k in lives ensures increases[k] <= truth[k] && (increases[k] == truth[k] <==> AllSeen(lives[k])) {
      IncreaseNeverOverstates(lives[k]);
      ExactExactlyWhen(lives[k]);
    }
    SumsGrow(increases, truth);
  }
}
