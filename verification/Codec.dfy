/** The stream codec of the explosion-proof hydraulic sensor: 15 ASCII digits of IMEI followed by
    Modbus RTU frames, with write commands going the other way.

    A frame is taken off the front of a TCP buffer; the session remembers the device, the unit
    number of its last report and the command it still waits for.
 */
module Codec {
  import opened Crc

  datatype Error =
    | BadImei | NoImei | BadUnit | TooLong | BadFunction | BadCrc | CountMismatch
    | AckMismatch | ValueMismatch | QuantityMismatch
    | NoUnit | BadCommand | BadParam | IdentityChanged

  // ---------------------------------------------------------------- one frame

  function ToInt(b: byte): (n: int)
    ensures 0 <= n < 256
  {
    b as int
  }

  function ToByte(n: int): byte
    requires 0 <= n < 256
  {
    n as byte
  }

  lemma NextByte(b: byte)
    requires b as int < 255
    ensures (b + 1) as int == b as int + 1
  {
  }

  lemma {:induction false} ByteFor(n: nat) returns (b: byte)
    requires n < 256
    ensures b as int == n
  {
    if n == 0 {
      b := 0;
    } else {
      var c := ByteFor(n - 1);
      NextByte(c);
      b := c + 1;
    }
  }

  lemma ByteValue(n: int)
    requires 0 <= n < 256
    ensures ToInt(ToByte(n)) == n
  {
    var b := ByteFor(n);
  }

  function U16(hi: byte, lo: byte): int { ToInt(hi) * 256 + ToInt(lo) }

  predicate IsDigit(b: byte) { 48 <= ToInt(b) <= 57 }

  predicate IsImei(data: seq<byte>) {
    |data| == 15 && forall k :: 0 <= k < 15 ==> IsDigit(data[k])
  }

  datatype Reading = NeedMore | Reject(error: Error) | Got(length: nat, imei: seq<byte>, frame: seq<byte>)

  /** The first frame of `data`; `device` is the identity the session already has, if any. */
  function SensorFrame(data: seq<byte>, device: seq<byte>): (r: Reading)
    ensures r.Got? ==> 0 < r.length <= |data|
  {
    if data == [] then NeedMore
    else if IsDigit(data[0]) then
      if |data| < 15 then NeedMore
      else if !IsImei(data[..15]) then Reject(BadImei)
      else After(data, 15, data[..15])
    else if device == [] then Reject(NoImei)
    else After(data, 0, device)
  }

  /** The frame that starts at `start`. */
  function After(data: seq<byte>, start: nat, imei: seq<byte>): (r: Reading)
    requires start <= |data|
    ensures r.Got? ==> 0 < r.length <= |data|
  {
    if |data| < start + 2 then NeedMore
    else if ToInt(data[start]) == 0 then Reject(BadUnit)
    else if ToInt(data[start + 1]) == 0x46 then
      if |data| < start + 7 then NeedMore
      else if ToInt(data[start + 6]) > 250 then Reject(TooLong)
      else Cut(data, start, 7 + ToInt(data[start + 6]) + 2, imei)
    else if ToInt(data[start + 1]) == 0x06 || ToInt(data[start + 1]) == 0x10 then Cut(data, start, 8, imei)
    else Reject(BadFunction)
  }

  function Cut(data: seq<byte>, start: nat, length: nat, imei: seq<byte>): (r: Reading)
    requires start + 2 <= |data| && length >= 8
    ensures r.Got? ==> 0 < r.length <= |data|
  {
    if |data| < start + length then NeedMore
    else
      var frame := data[start..start + length];
      if !ValidCrc(frame) then Reject(BadCrc)
      else if ToInt(frame[1]) == 0x46 && U16(frame[4], frame[5]) * 2 != ToInt(frame[6]) then Reject(CountMismatch)
      else Got(start + length, imei, frame)
  }

  /** An answer, once given, does not depend on what follows in the buffer. */
  lemma AnswerIsStable(data: seq<byte>, more: seq<byte>, device: seq<byte>)
    requires !SensorFrame(data, device).NeedMore?
    ensures SensorFrame(data + more, device) == SensorFrame(data, device)
  {
    var all := data + more;
    assert all[0] == data[0];
    if IsDigit(data[0]) {
      assert all[..15] == data[..15];
      if IsImei(data[..15]) { AfterIsStable(data, more, 15, data[..15]); }
    } else if device != [] {
      AfterIsStable(data, more, 0, device);
    }
  }

  lemma AfterIsStable(data: seq<byte>, more: seq<byte>, start: nat, imei: seq<byte>)
    requires start <= |data| && !After(data, start, imei).NeedMore?
    ensures After(data + more, start, imei) == After(data, start, imei)
  {
    var all := data + more;
    assert all[start] == data[start] && all[start + 1] == data[start + 1];
    if ToInt(data[start]) != 0 {
      if ToInt(data[start + 1]) == 0x46 {
        assert all[start + 6] == data[start + 6];
        if ToInt(data[start + 6]) <= 250 { CutIsStable(data, more, start, 7 + ToInt(data[start + 6]) + 2, imei); }
      } else if ToInt(data[start + 1]) == 0x06 || ToInt(data[start + 1]) == 0x10 {
        CutIsStable(data, more, start, 8, imei);
      }
    }
  }

  lemma CutIsStable(data: seq<byte>, more: seq<byte>, start: nat, length: nat, imei: seq<byte>)
    requires start + 2 <= |data| && length >= 8 && !Cut(data, start, length, imei).NeedMore?
    ensures Cut(data + more, start, length, imei) == Cut(data, start, length, imei)
  {
    assert (data + more)[start..start + length] == data[start..start + length];
  }

  /** How many bytes from `start` on show what a frame is rejected for. */
  function Telling(data: seq<byte>, start: nat, e: Error): nat {
    match e
    case BadUnit => start + 2
    case BadFunction => start + 2
    case TooLong => start + 7
    case _ =>
      if start + 6 < |data| && ToInt(data[start + 1]) == 0x46 then start + 9 + ToInt(data[start + 6]) else start + 8
  }

  /** No answer waits for more bytes than tell it: a frame is taken when its last byte is there, and what is
      rejected is rejected as soon as the offending bytes are. */
  lemma AnswersAtOnce(data: seq<byte>, device: seq<byte>)
    requires !SensorFrame(data, device).NeedMore?
    ensures
      var r := SensorFrame(data, device);
      var start := if IsDigit(data[0]) then 15 else 0;
      var n := match r case Got(length, _, _) => length case Reject(NoImei) => 1 case Reject(BadImei) => 15
               case Reject(e) => Telling(data, start, e) case NeedMore => 0;
      0 < n <= |data| && SensorFrame(data[..n], device) == r
  {
    hide ToInt, ValidCrc, U16, IsImei;
    if IsDigit(data[0]) {
      if IsImei(data[..15]) {
        AfterAtOnce(data, 15, data[..15]);
      } else {
        assert data[..15][..15] == data[..15] && data[..15][0] == data[0];
      }
    } else if device != [] {
      AfterAtOnce(data, 0, device);
    }
  }

  lemma AfterAtOnce(data: seq<byte>, start: nat, imei: seq<byte>)
    requires start <= |data| && !After(data, start, imei).NeedMore?
    ensures
      var r := After(data, start, imei);
      && !(r.Reject? && (r.error == NoImei || r.error == BadImei))
      && var n := match r case Got(length, _, _) => length case Reject(e) => Telling(data, start, e) case NeedMore => 0;
         start + 2 <= n <= |data| && After(data[..n], start, imei) == r
         && (start > 0 ==> data[..n][..start] == data[..start] && data[..n][0] == data[0])
  {
    hide ToInt, ValidCrc, U16;
    if ToInt(data[start]) != 0 {
      if ToInt(data[start + 1]) == 0x46 {
        if ToInt(data[start + 6]) <= 250 {
          var n := start + 9 + ToInt(data[start + 6]);
          assert data[..n][start..n] == data[start..n];
        }
      } else if ToInt(data[start + 1]) == 0x06 || ToInt(data[start + 1]) == 0x10 {
        assert data[..start + 8][start..start + 8] == data[start..start + 8];
      }
    }
  }

  // ---------------------------------------------------------------- session state

  /** A value of the platform's JSON state: whole numbers come back from storage as floats. */
  datatype Value = Whole(n: int) | Float(r: real) | Other

  type State = map<string, Value>

  function Truncate(r: real): int {
    if r >= 0.0 then r.Floor else -((-r).Floor)
  }

  function StateNumber(s: State, key: string): int {
    if key !in s then 0
    else match s[key] {
      case Whole(n) => n
      case Float(r) => Truncate(r)
      case Other => 0
    }
  }

  function HexDigit(n: nat): char
    requires n < 16
  {
    if n < 10 then '0' + n as char else 'a' + (n - 10) as char
  }

  /** The format "%02x-%04x". */
  function Correlation(fn: nat, register: nat): string
    requires fn < 0x100 && register < 0x10000
  {
    [HexDigit(fn / 16), HexDigit(fn % 16), '-',
     HexDigit(register / 0x1000), HexDigit(register / 0x100 % 16), HexDigit(register / 16 % 16),
       HexDigit(register % 16)]
  }

  // ---------------------------------------------------------------- device to platform

  datatype Answer =
    | More
    | Refused(error: Error)
    | Accepted(consumed: nat, device: seq<byte>, correlation: string, state: State)

  function Ingress(data: seq<byte>, device: seq<byte>, state: State): (a: Answer)
    ensures a.Accepted? ==>
      var r := SensorFrame(data, device);
      r.Got? && a.consumed == r.length && 0 < a.consumed <= |data| && a.device == r.imei
  {
    match SensorFrame(data, device)
    case Reject(e) => Refused(e)
    case NeedMore => More
    case Got(length, imei, frame) =>
      assert WellFramed(frame) by { FrameShape(data, device); }
      var fn, unit := ToInt(frame[1]), Whole(ToInt(frame[0]));
      if fn == 0x06 || fn == 0x10 then
        var register := U16(frame[2], frame[3]);
        if StateNumber(state, "pendingFunction") != fn || StateNumber(state, "pendingRegister") != register then
          Refused(AckMismatch)
        else if fn == 6 && StateNumber(state, "pendingValue") != U16(frame[4], frame[5]) then Refused(ValueMismatch)
        else if fn == 0x10 && U16(frame[4], frame[5]) != 5 then Refused(QuantityMismatch)
        else Accepted(length, imei, Correlation(fn, register), map["unit" := unit])
      else
        Accepted(length, imei, "", state["unit" := unit])
  }

  /** A checked frame of the three known functions. */
  predicate WellFramed(frame: seq<byte>) {
    && ValidCrc(frame)
    && 8 <= |frame|
    && ToInt(frame[0]) != 0
    && if ToInt(frame[1]) == 0x46 then
         9 <= |frame| == 9 + ToInt(frame[6]) && ToInt(frame[6]) == 2 * U16(frame[4], frame[5]) <= 250
       else
         (ToInt(frame[1]) == 0x06 || ToInt(frame[1]) == 0x10) && |frame| == 8
  }

  lemma CutShape(data: seq<byte>, start: nat, length: nat, imei: seq<byte>)
    requires start + 2 <= |data| && length >= 8 && ToInt(data[start]) != 0 && Cut(data, start, length, imei).Got?
    requires if ToInt(data[start + 1]) == 0x46 then
        start + 7 <= |data| && ToInt(data[start + 6]) <= 250 && length == ToInt(data[start + 6]) + 9
      else
        (ToInt(data[start + 1]) == 0x06 || ToInt(data[start + 1]) == 0x10) && length == 8
    ensures
      var r := Cut(data, start, length, imei);
      && r.imei == imei && WellFramed(r.frame)
      && r.length == start + |r.frame| <= |data| && r.frame == data[start..r.length]
  {
    var frame := data[start..start + length];
    assert frame[0] == data[start] && frame[1] == data[start + 1];
    if length > 8 { assert frame[6] == data[start + 6]; }
  }

  lemma AfterShape(data: seq<byte>, start: nat, imei: seq<byte>)
    requires start <= |data| && After(data, start, imei).Got?
    ensures
      var r := After(data, start, imei);
      && r.imei == imei && WellFramed(r.frame)
      && r.length == start + |r.frame| <= |data| && r.frame == data[start..r.length]
  {
    CutShape(data, start, if ToInt(data[start + 1]) == 0x46 then 9 + ToInt(data[start + 6]) else 8, imei);
  }

  /** What every frame taken from the buffer looks like, and where it comes from: with a leading
      IMEI the device is the one on the wire, otherwise the one the session already has. */
  lemma FrameShape(data: seq<byte>, device: seq<byte>)
    requires SensorFrame(data, device).Got?
    ensures
      var r := SensorFrame(data, device);
      && WellFramed(r.frame)
      && |r.frame| <= r.length <= |data| && r.frame == data[r.length - |r.frame|..r.length]
      && (if r.length == |r.frame| then r.imei == device && device != [] && !IsDigit(data[0])
          else r.length == |r.frame| + 15 && r.imei == data[..15] && IsImei(r.imei))
  {
    if IsDigit(data[0]) { AfterShape(data, 15, data[..15]); } else { AfterShape(data, 0, device); }
  }

  // ---------------------------------------------------------------- platform to device

  datatype Param = Number(n: int) | Fraction(r: real) | Text(s: string) | Unsupported

  datatype Command = Command(kind: string, params: map<string, Param>)

  datatype IntResult = Int(n: int) | NotInt

  predicate Decimal(s: string) { s != "" && forall k :: 0 <= k < |s| ==> '0' <= s[k] <= '9' }

  function DecimalValue(s: string): nat
    requires forall k :: 0 <= k < |s| ==> '0' <= s[k] <= '9'
  {
    if s == "" then 0
    else
      var last := s[|s| - 1];
      assert '0' <= last;
      10 * DecimalValue(s[..|s| - 1]) + (last as int - 48)
  }

  /** A signed 64-bit decimal literal. */
  function ParseInt(s: string): IntResult {
    var digits := if s != "" && (s[0] == '+' || s[0] == '-') then s[1..] else s;
    if !Decimal(digits) then NotInt
    else
      var n: int := if s[0] == '-' then 0 - DecimalValue(digits) else DecimalValue(digits);
      if -0x8000_0000_0000_0000 <= n < 0x8000_0000_0000_0000 then Int(n) else NotInt
  }

  function IntParam(params: map<string, Param>, key: string, min: int, max: int): (r: IntResult)
    ensures r.Int? ==> min <= r.n <= max
  {
    if key !in params then NotInt
    else
      var parsed := match params[key] {
        case Number(n) => Int(n)
        case Fraction(r) => if r.Floor as real == r then Int(r.Floor) else NotInt
        case Text(t) => ParseInt(t)
        case Unsupported => NotInt
      };
      if parsed.Int? && min <= parsed.n <= max then parsed else NotInt
  }

  datatype Encoded = Failed(error: Error) | Wire(reply: seq<byte>, correlation: string, state: State)

  function UnitOf(state: State): int {
    if "unit" !in state then 0
    else match state["unit"] {
      case Whole(n) => n
      case Float(r) => if r < 1.0 || r > 247.0 then 0 else Truncate(r)
      case Other => 0
    }
  }

  /** The register a single-value command writes. */
  function CommandRegister(kind: string): IntResult {
    if kind == "setDetectionTime" then Int(6)
    else if kind == "setChangeAlarmValue" then Int(0)
    else if kind == "setUploadTime" then Int(2)
    else if kind == "setOffset" then Int(11)
    else NotInt
  }

  function Hi(n: int): byte { ToByte(n / 0x100 % 0x100) }

  function Lo(n: int): byte { ToByte(n % 0x100) }

  /** The two's complement bytes of a 32-bit value, high byte first. */
  function Be32(n: int): (r: seq<byte>)
    ensures |r| == 4
  {
    [Hi(n / 0x1_0000), Lo(n / 0x1_0000), Hi(n), Lo(n)]
  }

  function Encode(command: Command, state: State): Encoded {
    var unit := UnitOf(state);
    if unit < 1 || unit > 247 then Failed(NoUnit)
    else if command.kind == "setMultipleParams" then
      var collection := IntParam(command.params, "collectionTime", 0, 65535);
      var lower := IntParam(command.params, "alarmLowerLimit", -2147483648, 2147483647);
      var upper := IntParam(command.params, "alarmUpperLimit", -2147483648, 2147483647);
      if collection.NotInt? || lower.NotInt? || upper.NotInt? then Failed(BadParam)
      else
        Wire(RtuOf([ToByte(unit), 0x10, 0, 6, 0, 5, 10, Hi(collection.n), Lo(collection.n)]
                   + Be32(lower.n) + Be32(upper.n)),
             "10-0006",
             map["unit" := Whole(unit), "pendingFunction" := Whole(16), "pendingRegister" := Whole(6)])
    else
      var register := CommandRegister(command.kind);
      if register.NotInt? then Failed(BadCommand)
      else
        var value := IntParam(command.params, "value", -32768, 65535);
        if value.NotInt? then Failed(BadParam)
        else
          Wire(RtuOf([ToByte(unit), 6, Hi(register.n), Lo(register.n), Hi(value.n), Lo(value.n)]),
               Correlation(6, register.n),
               map["unit" := Whole(unit), "pendingFunction" := Whole(6), "pendingRegister" := Whole(register.n),
                   "pendingValue" := Whole(value.n % 0x1_0000)])
  }
}
