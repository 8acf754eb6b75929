/** Reports go through the connection unchanged: what the device printed is what is delivered. */
module Reports {
  import opened Crc
  import opened CrcStrength
  import opened Codec
  import opened Session

  /** The RTU part of a report: unit, function 0x46, register, register count, byte count, body. */
  function ReportData(unit: byte, register: nat, body: seq<byte>): (d: seq<byte>)
    requires register < 0x10000 && |body| < 0x100
    ensures |d| == 7 + |body|
  {
    [unit, 0x46, Hi(register), Lo(register), 0, ToByte(|body| / 2), ToByte(|body|)] + body
  }

  function RtuReport(unit: byte, register: nat, body: seq<byte>): (frame: seq<byte>)
    requires register < 0x10000 && |body| < 0x100
    ensures |frame| == 9 + |body|
  {
    RtuOf(ReportData(unit, register, body))
  }

  /** The sample device's report: its IMEI, then unit 1. */
  function Report(register: nat, body: seq<byte>): seq<byte>
    requires register < 0x10000 && |body| < 0x100
  {
    SAMPLE_IMEI + RtuReport(1, register, body)
  }

  const SAMPLE_IMEI: seq<byte> := [56, 54, 56, 56, 57, 50, 48, 55, 52, 50, 52, 51, 52, 52, 54]

  function RegisterOf(frame: seq<byte>): int
    requires |frame| >= 4
  {
    U16(frame[2], frame[3])
  }

  function BodyOf(frame: seq<byte>): seq<byte>
    requires |frame| >= 9
  {
    frame[7..|frame| - 2]
  }

  lemma U16Split(n: int)
    ensures U16(Hi(n), Lo(n)) == n % 0x10000
  {
    hide ToInt, ToByte;
    ByteValue(n / 0x100 % 0x100);
    ByteValue(n % 0x100);
  }

  lemma Literals()
    ensures ToInt(0x46) == 0x46 && ToInt(0) == 0 && ToInt(6) == 6 && ToInt(0x10) == 0x10 && ToInt(5) == 5
  {
  }

  lemma RtuKeeps(d: seq<byte>)
    ensures RtuOf(d)[..|d|] == d && forall k :: 0 <= k < |d| ==> RtuOf(d)[k] == d[k]
  {
  }

  lemma ReportFields(unit: byte, register: nat, body: seq<byte>)
    requires register < 0x10000 && |body| < 0x100
    ensures
      var f := RtuReport(unit, register, body);
      && f[0] == unit && ToInt(f[1]) == 0x46 && RegisterOf(f) == register && BodyOf(f) == body
      && U16(f[4], f[5]) == |body| / 2 && ToInt(f[6]) == |body| && ValidCrc(f)
  {
    hide ToInt, ToByte, RtuOf, ValidCrc, ReportData;
    var d := ReportData(unit, register, body);
    DataFields(unit, register, body);
    SentFramesAreValid(d);
    RtuKeeps(d);
    assert RtuOf(d)[7..|d|] == RtuOf(d)[..|d|][7..];
  }

  lemma DataFields(unit: byte, register: nat, body: seq<byte>)
    requires register < 0x10000 && |body| < 0x100
    ensures
      var d := ReportData(unit, register, body);
      && d[0] == unit && ToInt(d[1]) == 0x46 && U16(d[2], d[3]) == register && d[7..] == body
      && U16(d[4], d[5]) == |body| / 2 && ToInt(d[6]) == |body|
  {
    hide ToInt, ToByte, Hi, Lo;
    Literals();
    U16Split(register);
    ByteValue(|body| / 2);
    ByteValue(|body|);
  }

  /** A report at the front of the buffer is taken whole exactly when its body has an even number
      of bytes and at most 250 of them; the other two cases are refused for what they are. */
  lemma ReportIsTaken(pre: seq<byte>, unit: byte, register: nat, body: seq<byte>, rest: seq<byte>, imei: seq<byte>)
    requires register < 0x10000 && |body| < 0x100 && unit != 0
    ensures After(pre + RtuReport(unit, register, body) + rest, |pre|, imei) ==
            if |body| > 250 then Reject(TooLong)
            else if |body| % 2 == 1 then Reject(CountMismatch)
            else Got(|pre| + 9 + |body|, imei, RtuReport(unit, register, body))
  {
    hide ToInt, ToByte, ValidCrc, RtuReport;
    var f := RtuReport(unit, register, body);
    ReportFields(unit, register, body);
    FrameAt(pre, f, rest);
    UnitValue(unit);
  }

  lemma SampleReading(register: nat, body: seq<byte>, rest: seq<byte>, device: seq<byte>)
    requires register < 0x10000 && |body| < 0x100
    ensures SensorFrame(Report(register, body) + rest, device) ==
            if |body| > 250 then Reject(TooLong)
            else if |body| % 2 == 1 then Reject(CountMismatch)
            else Got(|Report(register, body)|, SAMPLE_IMEI, RtuReport(1, register, body))
    ensures ToInt(1) == 1
  {
    hide ToInt, RtuReport, ValidCrc;
    SampleImei();
    var data, f := Report(register, body) + rest, RtuReport(1, register, body);
    assert data == SAMPLE_IMEI + f + rest && data[..15] == SAMPLE_IMEI && data[0] == SAMPLE_IMEI[0];
    ReportIsTaken(SAMPLE_IMEI, 1, register, body, rest, SAMPLE_IMEI);
  }

  lemma SampleImei()
    ensures IsImei(SAMPLE_IMEI) && ToInt(1) == 1
  {
  }

  lemma UnitValue(unit: byte)
    requires unit != 0
    ensures ToInt(unit) != 0
  {
  }

  lemma FrameAt(pre: seq<byte>, f: seq<byte>, rest: seq<byte>)
    ensures
      var data := pre + f + rest;
      && data[|pre|..|pre| + |f|] == f
      && forall k :: 0 <= k < |f| ==> data[|pre| + k] == f[k]
  {
  }

  // ---------------------------------------------------------------- streams of reports

  /** A report on a connection: only the first has to carry the IMEI. */
  datatype Item = Item(prefixed: bool, unit: byte, register: nat, body: seq<byte>)

  /** Without an IMEI in front, a unit byte that is an ASCII digit would be read as one. */
  predicate Sendable(item: Item) {
    && item.unit != 0 && item.register < 0x10000
    && |item.body| <= 250 && |item.body| % 2 == 0
    && (item.prefixed || !IsDigit(item.unit))
  }

  function Rtu(item: Item): seq<byte>
    requires Sendable(item)
  {
    RtuReport(item.unit, item.register, item.body)
  }

  function Wire(imei: seq<byte>, item: Item): seq<byte>
    requires Sendable(item)
  {
    (if item.prefixed then imei else []) + Rtu(item)
  }

  function Stream(imei: seq<byte>, items: seq<Item>): seq<byte>
    requires forall item :: item in items ==> Sendable(item)
    decreases |items|
  {
    if items == [] then [] else Wire(imei, items[0]) + Stream(imei, items[1..])
  }

  function StateAfter(state: State, items: seq<Item>): State
    decreases |items|
  {
    if items == [] then state else StateAfter(state["unit" := Whole(ToInt(items[0].unit))], items[1..])
  }

  lemma ItemIsTaken(imei: seq<byte>, item: Item, rest: seq<byte>, device: seq<byte>)
    requires IsImei(imei) && Sendable(item)
    requires if item.prefixed then true else device == imei
    ensures SensorFrame(Wire(imei, item) + rest, device) == Got(|Wire(imei, item)|, imei, Rtu(item))
  {
    hide ToInt, RtuReport, ValidCrc;
    var data := Wire(imei, item) + rest;
    var pre := if item.prefixed then imei else [];
    ReportFields(item.unit, item.register, item.body);
    ReportIsTaken(pre, item.unit, item.register, item.body, rest, imei);
    assert data == pre + Rtu(item) + rest;
    if item.prefixed {
      assert data[..15] == imei && data[0] == imei[0];
    } else {
      assert data[0] == Rtu(item)[0] == item.unit;
    }
  }

  lemma ItemIsAccepted(imei: seq<byte>, item: Item, rest: seq<byte>, device: seq<byte>, state: State)
    requires IsImei(imei) && Sendable(item)
    requires if item.prefixed then true else device == imei
    ensures Ingress(Wire(imei, item) + rest, device, state) ==
            Accepted(|Wire(imei, item)|, imei, "", state["unit" := Whole(ToInt(item.unit))])
  {
    hide ToInt, RtuReport, ValidCrc, Wire, SensorFrame;
    ItemIsTaken(imei, item, rest, device);
    ReportFields(item.unit, item.register, item.body);
  }

  /** The sample report is accepted, with or without more behind it and whatever the session knew,
      exactly when its body has an even length of at most 250 bytes. */
  lemma SampleReportAccepted(register: nat, body: seq<byte>, rest: seq<byte>, device: seq<byte>, state: State)
    requires register < 0x10000 && |body| < 0x100
    ensures
      var a := Ingress(Report(register, body) + rest, device, state);
      if |body| <= 250 && |body| % 2 == 0 then
        a == Accepted(|Report(register, body)|, SAMPLE_IMEI, "", state["unit" := Whole(1)])
      else a.Refused?
  {
    hide ToInt, RtuReport, ValidCrc, SensorFrame, Wire;
    SampleReading(register, body, rest, device);
    if |body| <= 250 && |body| % 2 == 0 {
      var item := Item(true, 1, register, body);
      SampleImei();
      ItemIsAccepted(SAMPLE_IMEI, item, rest, device, state);
      SampleWire(register, body);
    }
  }

  lemma SampleWire(register: nat, body: seq<byte>)
    requires register < 0x10000 && |body| <= 250 && |body| % 2 == 0
    ensures Wire(SAMPLE_IMEI, Item(true, 1, register, body)) == Report(register, body)
  {
    hide RtuReport;
  }

  function Deliveries(imei: seq<byte>, items: seq<Item>): (d: seq<Delivered>)
    requires forall item :: item in items ==> Sendable(item)
    ensures |d| == |items|
    decreases |items|
  {
    if items == [] then [] else [Delivered(imei, Rtu(items[0]), "")] + Deliveries(imei, items[1..])
  }

  lemma TakeItem(c: Connection, imei: seq<byte>, item: Item, rest: seq<byte>)
    requires IsImei(imei) && Sendable(item) && !c.closed && c.buffer == Wire(imei, item) + rest
    requires c.device == imei || (c.device == [] && (item.prefixed || c.profile == imei))
    ensures Ready(c)
    ensures TakeFrame(c) == Connection(rest, c.profile, imei, c.state["unit" := Whole(ToInt(item.unit))],
                                       c.delivered + [Delivered(imei, Rtu(item), "")], false)
  {
    hide ToInt, RtuReport, ValidCrc, Ingress, SensorFrame;
    ItemIsAccepted(imei, item, rest, Told(c), c.state);
    ItemIsTaken(imei, item, rest, Told(c));
    var wire := Wire(imei, item);
    assert (wire + rest)[|wire|..] == rest;
  }

  lemma {:induction false} StreamIsTaken(c: Connection, imei: seq<byte>, items: seq<Item>, rest: seq<byte>)
    requires IsImei(imei) && forall item :: item in items ==> Sendable(item)
    requires !c.closed && c.buffer == Stream(imei, items) + rest
    requires c.device == imei || (c.device == [] && items != [] && (items[0].prefixed || c.profile == imei))
    ensures Drain(c) == Drain(Connection(rest, c.profile, imei, StateAfter(c.state, items),
                                         c.delivered + Deliveries(imei, items), false))
    decreases |items|
  {
    hide Wire, Rtu, TakeFrame, Ready, ToInt;
    if items == [] {
      assert c.buffer == rest && c.delivered + [] == c.delivered;
    } else {
      var later := Stream(imei, items[1..]) + rest;
      assert c.buffer == Wire(imei, items[0]) + later;
      TakeItem(c, imei, items[0], later);
      StreamIsTaken(TakeFrame(c), imei, items[1..], rest);
      var one := [Delivered(imei, Rtu(items[0]), "")];
      assert c.delivered + one + Deliveries(imei, items[1..]) == c.delivered + (one + Deliveries(imei, items[1..]));
    }
  }

  /** A frame carries its register and body. */
  predicate Carries(d: Delivered, imei: seq<byte>, item: Item) {
    && d.device == imei && d.correlation == "" && |d.frame| >= 9
    && RegisterOf(d.frame) == item.register && BodyOf(d.frame) == item.body
  }

  lemma {:induction false} DeliveriesCarry(imei: seq<byte>, items: seq<Item>, k: nat)
    requires forall item :: item in items ==> Sendable(item)
    requires k < |items|
    ensures Carries(Deliveries(imei, items)[k], imei, items[k])
    decreases |items|
  {
    hide ToInt, RtuReport;
    assert Sendable(items[0]);
    if k == 0 {
      ReportFields(items[0].unit, items[0].register, items[0].body);
    } else {
      DeliveriesCarry(imei, items[1..], k - 1);
    }
  }

  /** However a stream of reports is cut on its way, the connection delivers exactly those reports,
      in order, each with its own register and body, and keeps nothing back. */
  lemma StreamRoundTrip(c: Connection, imei: seq<byte>, items: seq<Item>, chunks: seq<seq<byte>>)
    requires IsImei(imei) && forall item :: item in items ==> Sendable(item)
    requires !c.closed && c.buffer == [] && chunks != [] && Concat(chunks) == Stream(imei, items)
    requires c.device == imei || (c.device == [] && items != [] && (items[0].prefixed || c.profile == imei))
    ensures
      var end := FeedAll(c, chunks);
      && !end.closed && end.buffer == [] && end.device == imei
      && end.state == StateAfter(c.state, items)
      && |end.delivered| == |c.delivered| + |items|
      && end.delivered[..|c.delivered|] == c.delivered
      && forall k :: 0 <= k < |items| ==> Carries(end.delivered[|c.delivered| + k], imei, items[k])
  {
    FeedAllIsFeed(c, chunks);
    var start := Extend(c, Concat(chunks));
    assert start.buffer == Stream(imei, items) + [];
    StreamIsTaken(start, imei, items, []);
    forall k | 0 <= k < |items| ensures Carries(Deliveries(imei, items)[k], imei, items[k]) {
      DeliveriesCarry(imei, items, k);
    }
  }
}
