/** How the controller splits devices, connections and rates over its agents. */
module Split {

  import P = Plan

  function Min(a: int, b: int): int { if a <= b then a else b }

  function ChunkSize(length: nat, n: nat): nat
    requires n > 0
  {
    (length + n - 1) / n
  }

  function Times(k: nat, size: nat): nat { k * size }

  /** The i-th of n contiguous parts. */
  function Chunk<T>(v: seq<T>, i: nat, n: nat): seq<T>
    requires n > 0
  {
    if |v| == 0 then []
    else
      TimesNext(i, ChunkSize(|v|, n));
      var lo, hi := Min(Times(i, ChunkSize(|v|, n)), |v|), Min(Times(i + 1, ChunkSize(|v|, n)), |v|);
      v[lo..hi]
  }

  lemma TimesNext(k: nat, size: nat)
    ensures Times(k + 1, size) == Times(k, size) + size
  {
  }

  function Chunks<T>(v: seq<T>, n: nat, k: nat): seq<T>
    requires n > 0
  {
    if k == 0 then [] else Chunks(v, n, k - 1) + Chunk(v, k - 1, n)
  }

  lemma {:induction false} ChunksArePrefix<T>(v: seq<T>, n: nat, k: nat)
    requires n > 0 && v != []
    ensures Chunks(v, n, k) == v[..Min(Times(k, ChunkSize(|v|, n)), |v|)]
    decreases k
  {
    hide ChunkSize, Times;
    if k == 0 {
      TimesNone(ChunkSize(|v|, n));
    } else {
      ChunksArePrefix(v, n, k - 1);
      TimesNext(k - 1, ChunkSize(|v|, n));
      Extend(v, Min(Times(k - 1, ChunkSize(|v|, n)), |v|), Min(Times(k, ChunkSize(|v|, n)), |v|));
    }
  }

  lemma TimesNone(size: nat)
    ensures Times(0, size) == 0
  {
  }

  lemma Extend<T>(v: seq<T>, lo: nat, hi: nat)
    requires lo <= hi <= |v|
    ensures v[..lo] + v[lo..hi] == v[..hi]
  {
  }

  /** The parts put together again are the list: no device is lost, none serves twice. */
  lemma ChunksCoverTheList<T>(v: seq<T>, n: nat)
    requires n > 0
    ensures Chunks(v, n, n) == v
  {
    hide ChunkSize, Times, Chunks;
    if v == [] {
      NoChunks<T>(n, n);
    } else {
      ChunksArePrefix(v, n, n);
      EnoughChunks(|v|, n);
    }
  }

  lemma EnoughChunks(length: nat, n: nat)
    requires n > 0
    ensures Times(n, ChunkSize(length, n)) >= length
  {
  }

  /** MQTT takes the first devices, as many as it has connections. */
  function MqttDevices<T>(devices: seq<T>, mqttUsed: bool, connections: nat): seq<T>
    requires mqttUsed ==> connections <= |devices|
  {
    if mqttUsed then devices[..connections] else []
  }

  function HttpDevices<T>(devices: seq<T>, mqttUsed: bool, httpUsed: bool, connections: nat): seq<T>
    requires mqttUsed ==> connections <= |devices|
  {
    if !httpUsed then [] else if mqttUsed then devices[connections..] else devices
  }

  /** The parts of all agents together, MQTT before HTTP, are the fixture devices in order, each once,
      exactly when HTTP carries load or MQTT has a connection for every device; without HTTP the
      devices beyond the connections serve nobody. */
  lemma EveryDeviceServesOnce<T>(devices: seq<T>, mqttUsed: bool, httpUsed: bool, connections: nat, n: nat)
    requires n > 0 && (mqttUsed ==> connections <= |devices|)
    ensures
      var served := Chunks(MqttDevices(devices, mqttUsed, connections), n, n)
                    + Chunks(HttpDevices(devices, mqttUsed, httpUsed, connections), n, n);
      && served == (if httpUsed then devices else if mqttUsed then devices[..connections] else [])
      && (served == devices <==> devices == [] || httpUsed || (mqttUsed && connections == |devices|))
  {
    hide Chunks;
    ChunksCoverTheList(MqttDevices(devices, mqttUsed, connections), n);
    ChunksCoverTheList(HttpDevices(devices, mqttUsed, httpUsed, connections), n);
  }

  /** The devices that the plan's limits count on for a stream are those the controller hands out for it. */
  lemma PlannedDevicesServe<T>(p: P.Plan, devices: seq<T>)
    requires P.Sound(p) && |devices| == p.deviceCount
    ensures
      var mqtt, n := p.mqttShare > 0.0, if p.mqttShare > 0.0 then p.mqttConnections else 0;
      && (mqtt ==> P.StreamDevices(p, P.Mqtt) == |MqttDevices(devices, mqtt, n)|)
      && P.StreamDevices(p, P.Http) == |HttpDevices(devices, mqtt, true, n)|
  {
  }

  lemma {:induction false} NoChunks<T>(n: nat, k: nat)
    requires n > 0
    ensures Chunks<T>([], n, k) == []
    decreases k
  {
    if k > 0 { NoChunks<T>(n, k - 1); }
  }

  /** How many of the planned connections agent i opens. */
  function Connections(total: nat, i: nat, n: nat): nat
    requires n > 0
  {
    total / n + if i < total % n then 1 else 0
  }

  function ConnectionsUpTo(total: nat, n: nat, k: nat): nat
    requires n > 0
  {
    if k == 0 then 0 else ConnectionsUpTo(total, n, k - 1) + Connections(total, k - 1, n)
  }

  lemma {:induction false} ConnectionsCount(total: nat, n: nat, k: nat)
    requires n > 0 && k <= n
    ensures ConnectionsUpTo(total, n, k) == k * (total / n) + Min(k, total % n)
    decreases k
  {
    if k > 0 {
      ConnectionsCount(total, n, k - 1);
      assert (k - 1) * (total / n) + total / n == k * (total / n);
    }
  }

  /** The agents open exactly the planned connections between them, none more than one more than another. */
  lemma ConnectionsAddUp(total: nat, n: nat)
    requires n > 0
    ensures ConnectionsUpTo(total, n, n) == total
    ensures forall i: nat, j: nat :: Connections(total, i, n) <= Connections(total, j, n) + 1
  {
    ConnectionsCount(total, n, n);
  }

  // ---------------------------------------------------------------- rates

  /** An agent: whether it serves the stream, and whether its lease was lost. */
  datatype Agent = Agent(serves: bool, lost: bool)

  function Serving(agents: seq<Agent>): nat
    decreases |agents|
  {
    if agents == [] then 0 else Serving(agents[..|agents| - 1]) + if agents[|agents| - 1].serves then 1 else 0
  }

  function Active(agents: seq<Agent>): (n: nat)
    ensures n <= Serving(agents)
    decreases |agents|
  {
    if agents == [] then 0
    else Active(agents[..|agents| - 1]) + if agents[|agents| - 1].serves && !agents[|agents| - 1].lost then 1 else 0
  }

  function Portion(rate: real, n: nat): real
    requires n > 0
  {
    rate / n as real
  }

  /** The share of a stream's rate: every serving agent counts, also a lost one, whose share nobody takes over. */
  function Share(a: Agent, rate: real, n: nat): real { if a.serves && !a.lost && n > 0 then Portion(rate, n) else 0.0 }

  function Offered(agents: seq<Agent>, rate: real, n: nat): real
    decreases |agents|
  {
    if agents == [] then 0.0 else Offered(agents[..|agents| - 1], rate, n) + Share(agents[|agents| - 1], rate, n)
  }

  method AgentsWith(agents: seq<Agent>) returns (n: nat)
    ensures n == Serving(agents)
  {
    n := 0;
    for i := 0 to |agents|
      invariant n == Serving(agents[..i])
    {
      assert agents[..i + 1][..i] == agents[..i];
      if agents[i].serves { n := n + 1; }
    }
    assert agents[..|agents|] == agents;
  }

  function Product(k: nat, x: real): real { k as real * x }

  lemma {:induction false} OfferedCounts(agents: seq<Agent>, rate: real, n: nat)
    requires n > 0
    ensures Offered(agents, rate, n) == Product(Active(agents), Portion(rate, n))
    decreases |agents|
  {
    hide Product, Portion;
    if agents == [] {
      Distribute(0, Portion(rate, n));
    } else {
      var init := agents[..|agents| - 1];
      OfferedCounts(init, rate, n);
      Distribute(Active(init), Portion(rate, n));
    }
  }

  lemma Distribute(k: nat, x: real)
    ensures Product(0, x) == 0.0 && Product(k + 1, x) == Product(k, x) + x
  {
  }

  /** The agents' shares make up the rate of every stream somebody serves; with agents lost they
      make up the same fraction of it, never more. */
  lemma SharesAddUp(agents: seq<Agent>, rate: real)
    requires Serving(agents) > 0 && rate >= 0.0
    ensures Product(Serving(agents), Offered(agents, rate, Serving(agents))) == Product(Active(agents), rate)
    ensures Active(agents) == Serving(agents) ==> Offered(agents, rate, Serving(agents)) == rate
    ensures Offered(agents, rate, Serving(agents)) <= rate
  {
    hide Product, Portion, Offered;
    var n, k := Serving(agents), Active(agents);
    OfferedCounts(agents, rate, n);
    Fraction(k, n, rate);
  }

  lemma Fraction(k: nat, n: nat, rate: real)
    requires n > 0 && k <= n && rate >= 0.0
    ensures
      var x := Product(k, Portion(rate, n));
      Product(n, x) == Product(k, rate) && x <= rate && (k == n ==> x == rate)
  {
    var y := Portion(rate, n);
    assert n as real * y == rate;
    var x := Product(k, y);
    assert Product(n, x) == k as real * (n as real * y);
    Scaled(k as real, n as real, y);
  }

  lemma Scaled(a: real, b: real, y: real)
    requires a <= b && y >= 0.0
    ensures a * y <= b * y
  {
  }

  // ---------------------------------------------------------------- when the parts are even

  /** How many parts hold a device. */
  function Parts(length: nat, size: nat): nat
    requires size > 0
  {
    (length + size - 1) / size
  }

  /** What the last of them holds. */
  function Rest(length: nat, size: nat): int
    requires size > 0
  {
    length - Times(Parts(length, size), size) + size
  }

  lemma SizeBounds(length: nat, n: nat)
    requires length > 0 && n > 0
    ensures 0 < ChunkSize(length, n) <= length
  {
    var size := ChunkSize(length, n);
    Quotient(length + n - 1, n);
    hide Times, ChunkSize;
    TimesNone(n);
    TimesAtLeast(length, n);
    TimesNext(length, n);
    if size > length { TimesGrows(length + 1, size, n); }
  }

  lemma TimesAtLeast(k: nat, size: nat)
    requires size > 0
    ensures Times(k, size) >= k
  {
  }

  lemma Quotient(a: nat, size: nat)
    requires size > 0
    ensures Times(a / size, size) <= a < Times(a / size, size) + size
  {
  }

  lemma PartsBounds(length: nat, size: nat)
    requires length > 0 && size > 0
    ensures Times(Parts(length, size), size) - size < length <= Times(Parts(length, size), size)
    ensures Parts(length, size) > 0 && 0 < Rest(length, size) <= size
  {
    hide Times;
    Quotient(length + size - 1, size);
    TimesNone(size);
  }

  lemma TimesGrows(i: nat, j: nat, size: nat)
    requires i <= j
    ensures Times(i, size) <= Times(j, size)
  {
  }

  lemma PartsCover(length: nat, size: nat, i: nat)
    requires length > 0 && size > 0
    ensures i < Parts(length, size) <==> Times(i, size) < length
  {
    PartsBounds(length, size);
    hide Times, Parts, Rest;
    var p := Parts(length, size);
    TimesNext(p - 1, size);
    if i < p { TimesGrows(i, p - 1, size); } else { TimesGrows(p, i, size); }
  }

  /** The last part is full exactly when the size divides the list. */
  lemma RestIsFullExactlyWhen(length: nat, size: nat)
    requires length > 0 && size > 0
    ensures Rest(length, size) == size <==> length % size == 0
  {
    var p, q := Parts(length, size), length / size;
    PartsBounds(length, size);
    Remainder(length, size);
    hide Times, Parts;
    TimesNext(p - 1, size);
    TimesNext(q, size);
    if q < p { TimesGrows(q, p - 1, size); } else { TimesGrows(p, q, size); }
    if q + 1 < p { TimesGrows(q + 1, p - 1, size); }
  }

  lemma Remainder(a: nat, size: nat)
    requires size > 0
    ensures a == Times(a / size, size) + a % size
  {
  }

  /** Every part but the last is full, and what is left over is in the last. */
  lemma ChunkLengths<T>(v: seq<T>, n: nat, i: nat)
    requires n > 0 && v != []
    ensures ChunkSize(|v|, n) > 0
    ensures
      var size := ChunkSize(|v|, n);
      var last := Parts(|v|, size) - 1;
      |Chunk(v, i, n)| == if i < last then size else if i == last then Rest(|v|, size) else 0
  {
    SizeBounds(|v|, n);
    var size := ChunkSize(|v|, n);
    PartsCover(|v|, size, i);
    PartsCover(|v|, size, i + 1);
    PartsBounds(|v|, size);
    TimesNext(i, size);
    hide Times, Parts, ChunkSize;
  }

  lemma ChunkServes<T>(v: seq<T>, n: nat, i: nat)
    requires n > 0 && v != []
    ensures ChunkSize(|v|, n) > 0
    ensures Chunk(v, i, n) != [] <==> i < Parts(|v|, ChunkSize(|v|, n))
  {
    ChunkLengths(v, n, i);
    PartsBounds(|v|, ChunkSize(|v|, n));
    hide Times, Parts, ChunkSize, Chunk, Rest;
  }

  /** Every agent gets a device exactly when the parts before the last agent's leave one over. */
  lemma EveryAgentServesExactlyWhen<T>(v: seq<T>, n: nat)
    requires n > 0 && v != []
    ensures (forall i: nat | i < n :: Chunk(v, i, n) != []) <==> Times(n - 1, ChunkSize(|v|, n)) < |v|
  {
    hide ChunkSize, Times, Chunk, Parts;
    SizeBounds(|v|, n);
    forall i: nat ensures Chunk(v, i, n) != [] <==> i < Parts(|v|, ChunkSize(|v|, n)) {
      ChunkServes(v, n, i);
    }
    ChunkServes(v, n, n - 1);
    PartsCover(|v|, ChunkSize(|v|, n), n - 1);
  }

  /** The parts that hold anything are equal exactly when the part size divides the list. */
  lemma EvenExactlyWhen<T>(v: seq<T>, n: nat)
    requires n > 0 && v != []
    ensures ChunkSize(|v|, n) > 0
    ensures (forall i: nat, j: nat | Chunk(v, i, n) != [] && Chunk(v, j, n) != []
               :: |Chunk(v, i, n)| == |Chunk(v, j, n)|)
            <==> |v| % ChunkSize(|v|, n) == 0
  {
    hide ChunkSize, Times, Chunk, Parts, Rest;
    SizeBounds(|v|, n);
    var size := ChunkSize(|v|, n);
    var last := Parts(|v|, size) - 1;
    PartsBounds(|v|, size);
    RestIsFullExactlyWhen(|v|, size);
    OnePartIsFull(|v|, n);
    forall i: nat ensures |Chunk(v, i, n)| == if i < last then size else if i == last then Rest(|v|, size) else 0 {
      ChunkLengths(v, n, i);
    }
    assert Chunk(v, 0, n) != [] && Chunk(v, last, n) != [];
  }

  /** With a single part the size is the length of the list. */
  lemma OnePartIsFull(length: nat, n: nat)
    requires length > 0 && n > 0
    ensures ChunkSize(length, n) > 0
    ensures Parts(length, ChunkSize(length, n)) == 1 ==> Rest(length, ChunkSize(length, n)) == ChunkSize(length, n)
  {
    SizeBounds(length, n);
    PartsBounds(length, ChunkSize(length, n));
    TimesNone(ChunkSize(length, n));
    TimesNext(0, ChunkSize(length, n));
    hide Times, ChunkSize, Parts;
  }

  /** Five devices over four agents: one agent has half of what another has, and one has nothing. */
  lemma ChunksMayBeUneven(v: seq<nat>)
    requires |v| == 5
    ensures |Chunk(v, 0, 4)| == 2 && |Chunk(v, 2, 4)| == 1 && |Chunk(v, 3, 4)| == 0
  {
  }

  // ---------------------------------------------------------------- the allowance of a device

  /** The agents with their parts of a list: one serves when it has a device. */
  function Fleet<T>(v: seq<T>, n: nat, k: nat): seq<Agent>
    requires n > 0
  {
    if k == 0 then [] else Fleet(v, n, k - 1) + [Agent(Chunk(v, k - 1, n) != [], false)]
  }

  lemma {:induction false} FleetServes<T>(v: seq<T>, n: nat, k: nat)
    requires n > 0 && v != []
    ensures ChunkSize(|v|, n) > 0
    ensures Serving(Fleet(v, n, k)) == Min(k, Parts(|v|, ChunkSize(|v|, n)))
    decreases k
  {
    hide ChunkSize, Chunk, Parts, Serving;
    SizeBounds(|v|, n);
    if k == 0 {
      OneMore([], Agent(false, false));
    } else {
      FleetServes(v, n, k - 1);
      ChunkServes(v, n, k - 1);
      OneMore(Fleet(v, n, k - 1), Agent(Chunk(v, k - 1, n) != [], false));
    }
  }

  lemma OneMore(agents: seq<Agent>, a: Agent)
    ensures Serving([]) == 0
    ensures Serving(agents + [a]) == Serving(agents) + if a.serves then 1 else 0
  {
    assert (agents + [a])[..|agents|] == agents;
  }

  /** As many agents serve the list as there are parts with a device. */
  lemma ServingIsParts<T>(v: seq<T>, n: nat)
    requires n > 0 && v != []
    ensures ChunkSize(|v|, n) > 0
    ensures Serving(Fleet(v, n, n)) == Parts(|v|, ChunkSize(|v|, n)) > 0
  {
    hide Times, ChunkSize, Parts, Serving, Fleet;
    SizeBounds(|v|, n);
    FleetServes(v, n, n);
    EnoughChunks(|v|, n);
    PartsCover(|v|, ChunkSize(|v|, n), n);
    PartsBounds(|v|, ChunkSize(|v|, n));
  }

  /** What each device of agent i sends of a stream's rate. */
  function DeviceRate<T>(v: seq<T>, n: nat, rate: real, i: nat): real
    requires n > 0
  {
    var part := Chunk(v, i, n);
    if part == [] then 0.0
    else Portion(Share(Agent(true, false), rate, Serving(Fleet(v, n, n))), |part|)
  }

  /** No device of any agent sends more than it may. */
  ghost predicate Within<T>(v: seq<T>, n: nat, rate: real, allowed: real)
    requires n > 0
  {
    forall i: nat | i < n :: DeviceRate(v, n, rate, i) <= allowed
  }

  lemma PortionBound(rate: real, n: nat, allowed: real)
    requires n > 0
    ensures Portion(rate, n) <= allowed <==> rate <= Product(n, allowed)
  {
    var y := Portion(rate, n);
    assert n as real * y == rate;
    if y <= allowed { Scale(n as real, y, allowed); } else { Scale(n as real, allowed, y); }
  }

  lemma Scale(k: real, x: real, y: real)
    requires k > 0.0 && x <= y
    ensures k * x <= k * y && (x < y ==> k * x < k * y)
  {
  }

  lemma ProductOfProducts(k: nat, j: nat, x: real)
    ensures Product(k, Product(j, x)) == Product(Times(k, j), x)
  {
    assert Times(k, j) as real == k as real * j as real;
  }

  lemma ProductGrows(k: nat, j: nat, x: real)
    requires k <= j && x >= 0.0
    ensures Product(k, x) <= Product(j, x)
    ensures k < j && x > 0.0 ==> Product(k, x) < Product(j, x)
  {
  }

  /** The least of the parts sets the limit: with p serving agents and c devices in the last part, no
      device sends more than allowed exactly up to p * c times the allowance. */
  lemma WithinExactlyWhen<T>(v: seq<T>, n: nat, rate: real, allowed: real)
    requires n > 0 && v != [] && rate >= 0.0
    ensures ChunkSize(|v|, n) > 0 && Rest(|v|, ChunkSize(|v|, n)) > 0
    ensures
      var size := ChunkSize(|v|, n);
      Within(v, n, rate, allowed) <==> rate <= Product(Times(Parts(|v|, size), Rest(|v|, size)), allowed)
  {
    hide ChunkSize, Times, Chunk, Parts, Rest, Product, Portion, Serving, Fleet;
    ServingIsParts(v, n);
    var size := ChunkSize(|v|, n);
    var p, c := Parts(|v|, size), Rest(|v|, size);
    PartsBounds(|v|, size);
    EnoughParts(|v|, n);
    ProductOfProducts(p, c, allowed);
    PortionBound(rate, p, Product(c, allowed));
    var share := Portion(rate, p);
    SmallerPortion(rate, p, p);
    forall i: nat | i < n
      ensures i < p ==> DeviceRate(v, n, rate, i) == Portion(share, if i == p - 1 then c else size)
      ensures i >= p ==> DeviceRate(v, n, rate, i) == 0.0
    {
      ChunkLengths(v, n, i);
    }
    PortionBound(share, c, allowed);
    SmallerPortion(share, c, size);
    assert DeviceRate(v, n, rate, p - 1) == Portion(share, c);
  }

  lemma SmallerPortion(x: real, c: nat, size: nat)
    requires 0 < c <= size && x >= 0.0
    ensures 0.0 <= Portion(x, size) <= Portion(x, c)
  {
    if x > 0.0 {
      PortionBound(x, c, Portion(x, c));
      ProductGrows(c, size, Portion(x, c));
      PortionBound(x, size, Portion(x, c));
    }
  }

  lemma EnoughParts(length: nat, n: nat)
    requires length > 0 && n > 0
    ensures ChunkSize(length, n) > 0 && Parts(length, ChunkSize(length, n)) <= n
  {
    SizeBounds(length, n);
    EnoughChunks(length, n);
    PartsCover(length, ChunkSize(length, n), n);
  }

  /** As many devices as the last part, in every part: at most all devices, and all only if the parts are even. */
  lemma EvenParts(length: nat, n: nat)
    requires length > 0 && n > 0
    ensures ChunkSize(length, n) > 0 && Rest(length, ChunkSize(length, n)) > 0
    ensures
      var size := ChunkSize(length, n);
      var even := Times(Parts(length, size), Rest(length, size));
      even <= length && (even == length <==> length % size == 0)
  {
    SizeBounds(length, n);
    var size := ChunkSize(length, n);
    PartsBounds(length, size);
    RestIsFullExactlyWhen(length, size);
    OnePartIsFull(length, n);
    var p, c := Parts(length, size), Rest(length, size);
    assert length == Times(p, size) - size + c;
    hide Parts, Rest, ChunkSize;
    LastPartWeighs(p, size, c);
  }

  lemma LastPartWeighs(p: nat, size: nat, c: nat)
    requires p > 0 && 0 < c <= size && (p == 1 ==> c == size)
    ensures Times(p, c) <= Times(p, size) - size + c
    ensures Times(p, c) == Times(p, size) - size + c <==> c == size
  {
    var d := size - c;
    TimesPlus(p, c, d);
    hide Times;
    if p > 1 {
      TimesNext(1, d);
      TimesNext(0, d);
      TimesNone(d);
      TimesGrows(2, p, d);
    } else {
      TimesNext(0, d);
      TimesNone(d);
    }
  }

  lemma TimesPlus(k: nat, a: nat, b: nat)
    ensures Times(k, a + b) == Times(k, a) + Times(k, b)
  {
  }

  /** The search's check takes the devices of a stream together. What it admits is within the allowance of
      every single device exactly when the part size divides the number of devices. */
  lemma AllowanceHoldsExactlyWhen<T>(v: seq<T>, n: nat, allowed: real)
    requires n > 0 && v != [] && allowed > 0.0
    ensures ChunkSize(|v|, n) > 0
    ensures (forall rate: real | rate >= 0.0 && Portion(rate, |v|) <= allowed :: Within(v, n, rate, allowed))
            <==> |v| % ChunkSize(|v|, n) == 0
  {
    hide ChunkSize, Times, Parts, Rest, Product, Portion, Within;
    EvenParts(|v|, n);
    var size := ChunkSize(|v|, n);
    var even := Times(Parts(|v|, size), Rest(|v|, size));
    ProductGrows(even, |v|, allowed);
    forall rate: real | rate >= 0.0
      ensures Portion(rate, |v|) <= allowed <==> rate <= Product(|v|, allowed)
      ensures Within(v, n, rate, allowed) <==> rate <= Product(even, allowed)
    {
      PortionBound(rate, |v|, allowed);
      WithinExactlyWhen(v, n, rate, allowed);
    }
    var most := Product(|v|, allowed);
    ProductGrows(0, |v|, allowed);
    Distribute(0, allowed);
    if |v| % size != 0 {
      assert Portion(most, |v|) <= allowed && !Within(v, n, most, allowed);
    }
  }
}
