/** Write commands and their acknowledgements over a whole connection. */
module Pairing {
  import opened Crc
  import opened CrcStrength
  import opened Codec
  import opened Reports

  /** What happens on the connection, and what the platform knows of it. `last` is the latest
      command that has not been acknowledged, as it was sent, and `correlation` the identifier the
      caller waits on; both are empty when there is none. */
  datatype Event = Inbound(data: seq<byte>) | Send(command: Command)

  datatype Line = Line(device: seq<byte>, state: State, last: seq<byte>, correlation: string)

  function Start(device: seq<byte>): Line { Line(device, map[], [], "") }

  function Step(l: Line, e: Event): Line {
    match e
    case Inbound(data) =>
      (match Ingress(data, l.device, l.state)
       case Accepted(_, device, correlation, state) =>
         if correlation == "" then l.(device := device, state := state) else Line(device, state, [], "")
       case _ => l)
    case Send(command) =>
      match Encode(command, l.state)
      case Wire(reply, correlation, state) => Line(l.device, state, reply, correlation)
      case Failed(_) => l
  }

  function Run(l: Line, events: seq<Event>): Line
    decreases |events|
  {
    if events == [] then l else Run(Step(l, events[0]), events[1..])
  }

  // ---------------------------------------------------------------- commands

  function FunctionOf(sent: seq<byte>): int
    requires |sent| >= 2
  {
    ToInt(sent[1])
  }

  /** The bytes of a write command as section 6.6 or 6.12 of "MODBUS Application Protocol
      Specification V1.1b3" lays them out. */
  predicate WriteCommand(sent: seq<byte>) {
    && |sent| >= 8
    && 1 <= ToInt(sent[0]) <= 247
    && ValidCrc(sent)
    && ((FunctionOf(sent) == 6 && |sent| == 8)
        || (FunctionOf(sent) == 16 && |sent| == 19 && U16(sent[4], sent[5]) == 5 && ToInt(sent[6]) == 10))
  }

  /** The pending entries of the state describe the command that was sent. */
  predicate Describes(state: State, sent: seq<byte>)
    requires |sent| >= 8
  {
    && StateNumber(state, "pendingFunction") == FunctionOf(sent)
    && StateNumber(state, "pendingRegister") == U16(sent[2], sent[3])
    && (FunctionOf(sent) == 6 ==> StateNumber(state, "pendingValue") == U16(sent[4], sent[5]))
  }

  lemma SingleFields(unit: int, register: int, value: int)
    requires 1 <= unit <= 247 && 0 <= register < 0x10000
    ensures
      var d := SingleData(unit, register, value);
      && |d| == 6 && ToInt(d[0]) == unit && ToInt(d[1]) == 6
      && U16(d[2], d[3]) == register && U16(d[4], d[5]) == value % 0x10000
  {
    hide ToInt, ToByte, Hi, Lo;
    Literals();
    ByteValue(unit);
    U16Split(register);
    U16Split(value);
  }

  function SingleData(unit: int, register: int, value: int): seq<byte>
    requires 1 <= unit <= 247
  {
    [ToByte(unit), 6, Hi(register), Lo(register), Hi(value), Lo(value)]
  }

  lemma MultipleFields(unit: int, rest: seq<byte>)
    requires 1 <= unit <= 247
    ensures
      var d := [ToByte(unit), 0x10, 0, 6, 0, 5, 10] + rest;
      && ToInt(d[0]) == unit && ToInt(d[1]) == 16 && U16(d[2], d[3]) == 6 && U16(d[4], d[5]) == 5 && ToInt(d[6]) == 10
  {
    hide ToByte;
    ByteValue(unit);
  }

  lemma SingleDescribes(command: Command, state: State)
    requires Encode(command, state).Wire? && command.kind != "setMultipleParams"
    ensures
      var w := Encode(command, state);
      && WriteCommand(w.reply) && Describes(w.state, w.reply)
      && w.correlation == Correlation(FunctionOf(w.reply), U16(w.reply[2], w.reply[3]))
  {
    hide ToInt, ToByte, RtuOf, ValidCrc, Hi, Lo, U16, UnitOf, IntParam;
    var unit, register := UnitOf(state), CommandRegister(command.kind).n;
    var value := IntParam(command.params, "value", -32768, 65535).n;
    var d := SingleData(unit, register, value);
    SingleFields(unit, register, value);
    RtuKeeps(d);
    SentFramesAreValid(d);
  }

  lemma MultipleDescribes(command: Command, state: State)
    requires Encode(command, state).Wire? && command.kind == "setMultipleParams"
    ensures
      var w := Encode(command, state);
      && WriteCommand(w.reply) && Describes(w.state, w.reply)
      && w.correlation == Correlation(FunctionOf(w.reply), U16(w.reply[2], w.reply[3]))
  {
    hide ToInt, ToByte, RtuOf, ValidCrc, Hi, Lo, U16, UnitOf, IntParam, Be32;
    var unit := UnitOf(state);
    var collection := IntParam(command.params, "collectionTime", 0, 65535);
    var lower := IntParam(command.params, "alarmLowerLimit", -2147483648, 2147483647);
    var upper := IntParam(command.params, "alarmUpperLimit", -2147483648, 2147483647);
    var rest := [Hi(collection.n), Lo(collection.n)] + Be32(lower.n) + Be32(upper.n);
    var d := [ToByte(unit), 0x10, 0, 6, 0, 5, 10] + rest;
    MultipleFields(unit, rest);
    assert d == [ToByte(unit), 0x10, 0, 6, 0, 5, 10, Hi(collection.n), Lo(collection.n)]
                + Be32(lower.n) + Be32(upper.n);
    RtuKeeps(d);
    SentFramesAreValid(d);
  }

  /** A command that is sent is a write command, and the state describes it. */
  lemma EncodeDescribes(command: Command, state: State)
    requires Encode(command, state).Wire?
    ensures
      var w := Encode(command, state);
      && WriteCommand(w.reply) && Describes(w.state, w.reply)
      && w.correlation == Correlation(FunctionOf(w.reply), U16(w.reply[2], w.reply[3]))
  {
    if command.kind == "setMultipleParams" {
      MultipleDescribes(command, state);
    } else {
      SingleDescribes(command, state);
    }
  }

  function U32(b: seq<byte>): int
    requires |b| == 4
  {
    U16(b[0], b[1]) * 0x1_0000 + U16(b[2], b[3])
  }

  /** A big-endian 32-bit word read as two's complement. */
  function S32(b: seq<byte>): int
    requires |b| == 4
  {
    if U32(b) < 0x8000_0000 then U32(b) else U32(b) - 0x1_0000_0000
  }

  lemma SignedRoundTrip(n: int)
    requires -0x8000_0000 <= n < 0x8000_0000
    ensures S32(Be32(n)) == n
  {
    hide Hi, Lo, U16;
    U16Split(n / 0x1_0000);
    U16Split(n);
  }

  /** The device reads back the numbers the caller gave: the collection time and both limits,
      negative ones included. */
  lemma CommandCarriesLimits(command: Command, state: State)
    requires Encode(command, state).Wire? && command.kind == "setMultipleParams"
    ensures
      var r := Encode(command, state).reply;
      && |r| == 19
      && Int(U16(r[7], r[8])) == IntParam(command.params, "collectionTime", 0, 65535)
      && Int(S32(r[9..13])) == IntParam(command.params, "alarmLowerLimit", -2147483648, 2147483647)
      && Int(S32(r[13..17])) == IntParam(command.params, "alarmUpperLimit", -2147483648, 2147483647)
  {
    hide ToInt, ToByte, RtuOf, ValidCrc, Hi, Lo, U16, UnitOf, IntParam, Be32, S32;
    var collection := IntParam(command.params, "collectionTime", 0, 65535).n;
    var lower := IntParam(command.params, "alarmLowerLimit", -2147483648, 2147483647).n;
    var upper := IntParam(command.params, "alarmUpperLimit", -2147483648, 2147483647).n;
    U16Split(collection);
    SignedRoundTrip(lower);
    SignedRoundTrip(upper);
    var d := [ToByte(UnitOf(state)), 0x10, 0, 6, 0, 5, 10, Hi(collection), Lo(collection)] + Be32(lower) + Be32(upper);
    RtuKeeps(d);
    assert d[9..13] == Be32(lower) && d[13..17] == Be32(upper);
    assert RtuOf(d)[9..13] == RtuOf(d)[..17][9..13] && RtuOf(d)[13..17] == RtuOf(d)[..17][13..17];
  }

  /** The device reads back the unit it was addressed by. */
  lemma MultipleFieldsOf(command: Command, state: State)
    requires Encode(command, state).Wire? && command.kind == "setMultipleParams"
    ensures
      var r := Encode(command, state).reply;
      && |r| == 19 && ToInt(r[0]) == UnitOf(state) && ToInt(r[1]) == 16 && U16(r[2], r[3]) == 6
  {
    hide ToInt, ToByte, RtuOf, ValidCrc, Hi, Lo, U16, UnitOf, IntParam, Be32;
    var collection := IntParam(command.params, "collectionTime", 0, 65535);
    var lower := IntParam(command.params, "alarmLowerLimit", -2147483648, 2147483647);
    var upper := IntParam(command.params, "alarmUpperLimit", -2147483648, 2147483647);
    var rest := [Hi(collection.n), Lo(collection.n)] + Be32(lower.n) + Be32(upper.n);
    var d := [ToByte(UnitOf(state)), 0x10, 0, 6, 0, 5, 10] + rest;
    MultipleFields(UnitOf(state), rest);
    assert d == [ToByte(UnitOf(state)), 0x10, 0, 6, 0, 5, 10, Hi(collection.n), Lo(collection.n)]
                + Be32(lower.n) + Be32(upper.n);
    RtuKeeps(d);
  }

  /** The registers of the single writes. */
  predicate Writes(kind: string, register: int) {
    || (kind == "setDetectionTime" && register == 6) || (kind == "setChangeAlarmValue" && register == 0)
    || (kind == "setUploadTime" && register == 2) || (kind == "setOffset" && register == 11)
  }

  /** Of a single write the device reads back the unit, the register of the command and the value, a negative
      one as its two's complement. */
  lemma CommandCarriesValue(command: Command, state: State)
    requires Encode(command, state).Wire? && command.kind != "setMultipleParams"
    ensures
      var r, value := Encode(command, state).reply, IntParam(command.params, "value", -32768, 65535);
      && |r| == 8 && ToInt(r[0]) == UnitOf(state) && ToInt(r[1]) == 6
      && Writes(command.kind, U16(r[2], r[3]))
      && value.Int? && U16(r[4], r[5]) == if value.n < 0 then value.n + 0x10000 else value.n
  {
    hide ToInt, ToByte, RtuOf, ValidCrc, Hi, Lo, U16, UnitOf, IntParam;
    var unit, register := UnitOf(state), CommandRegister(command.kind).n;
    var value := IntParam(command.params, "value", -32768, 65535).n;
    SingleFields(unit, register, value);
    RtuKeeps(SingleData(unit, register, value));
  }

  ghost predicate Known(kind: string) { kind == "setMultipleParams" || exists register :: Writes(kind, register) }

  /** The parameters of a command of this kind are whole numbers in their ranges. */
  predicate Complete(command: Command) {
    if command.kind == "setMultipleParams" then
      && IntParam(command.params, "collectionTime", 0, 65535).Int?
      && IntParam(command.params, "alarmLowerLimit", -0x8000_0000, 0x7fff_ffff).Int?
      && IntParam(command.params, "alarmUpperLimit", -0x8000_0000, 0x7fff_ffff).Int?
    else IntParam(command.params, "value", -32768, 65535).Int?
  }

  /** A command is sent exactly when a unit has reported, its kind is known and its parameters are complete;
      otherwise the first of these that is missing is the error. */
  lemma SentExactlyWhen(command: Command, state: State)
    ensures
      var e := Encode(command, state);
      if !(1 <= UnitOf(state) <= 247) then e == Failed(NoUnit)
      else if !Known(command.kind) then e == Failed(BadCommand)
      else if !Complete(command) then e == Failed(BadParam)
      else e.Wire?
  {
    hide UnitOf, IntParam, RtuOf, ToByte, Hi, Lo, Be32;
    if CommandRegister(command.kind).Int? { assert Writes(command.kind, CommandRegister(command.kind).n); }
  }

  // ---------------------------------------------------------------- numbers as the platform keeps them

  /** A decimal literal, as it is printed. */
  function Digits(n: nat): (s: string)
    ensures s != "" && forall k | 0 <= k < |s| :: '0' <= s[k] <= '9'
  {
    (if n < 10 then "" else Digits(n / 10)) + [('0' as int + n % 10) as char]
  }

  function Print(n: int): string { if n < 0 then "-" + Digits(-n) else Digits(n) }

  lemma {:induction false} DigitsRead(n: nat)
    ensures DecimalValue(Digits(n)) == n
    decreases n
  {
    var s := Digits(n);
    if n >= 10 {
      DigitsRead(n / 10);
      assert s[..|s| - 1] == Digits(n / 10);
    } else {
      assert s[..|s| - 1] == "";
    }
  }

  /** A number means the same as a number, as a float without a fraction and as a printed text; outside its
      range, with a fraction or missing it is refused. */
  lemma NumbersAreRead(params: map<string, Param>, key: string, n: int, min: int, max: int)
    requires -0x8000_0000_0000_0000 <= min <= max < 0x8000_0000_0000_0000
    ensures
      var read := if min <= n <= max then Int(n) else NotInt;
      && IntParam(params[key := Number(n)], key, min, max) == read
      && IntParam(params[key := Fraction(n as real)], key, min, max) == read
      && IntParam(params[key := Text(Print(n))], key, min, max) == read
      && IntParam(params[key := Fraction(n as real + 0.5)], key, min, max) == NotInt
      && IntParam(params[key := Unsupported], key, min, max) == NotInt
      && IntParam(params - {key}, key, min, max) == NotInt
  {
    hide ParseInt, Print;
    PrintedIsRead(n);
    HalfBetween(n);
  }

  lemma HalfBetween(n: int)
    ensures (n as real).Floor == n && (n as real + 0.5).Floor == n
  {
  }

  lemma PrintedIsRead(n: int)
    ensures ParseInt(Print(n)) == if -0x8000_0000_0000_0000 <= n < 0x8000_0000_0000_0000 then Int(n) else NotInt
  {
    hide Digits, DecimalValue;
    if n < 0 {
      DigitsRead(-n);
      assert Print(n)[1..] == Digits(-n);
    } else {
      DigitsRead(n);
    }
  }

  function HexValue(c: char): int { if c <= '9' then c as int - 48 else c as int - 87 }

  function HexNumber(s: string): int
    decreases |s|
  {
    if s == "" then 0 else 16 * HexNumber(s[..|s| - 1]) + HexValue(s[|s| - 1])
  }

  lemma HexDigitReads(n: nat)
    requires n < 16
    ensures HexValue(HexDigit(n)) == n && ('0' <= HexDigit(n) <= '9' || 'a' <= HexDigit(n) <= 'f')
  {
  }

  lemma HexOneMore(s: string, n: nat)
    requires n < 16
    ensures HexNumber(s + [HexDigit(n)]) == 16 * HexNumber(s) + n
  {
    HexDigitReads(n);
    assert (s + [HexDigit(n)])[..|s|] == s;
  }

  lemma TwoDigits(a: nat, b: nat)
    requires a < 16 && b < 16
    ensures HexNumber([HexDigit(a), HexDigit(b)]) == 16 * a + b
  {
    hide HexNumber, HexDigit;
    HexNone();
    HexOneMore([], a);
    HexOneMore([HexDigit(a)], b);
    assert [] + [HexDigit(a)] == [HexDigit(a)] && [HexDigit(a)] + [HexDigit(b)] == [HexDigit(a), HexDigit(b)];
  }

  lemma HexNone()
    ensures HexNumber("") == 0
  {
  }

  lemma FourDigits(a: nat, b: nat, c: nat, d: nat)
    requires a < 16 && b < 16 && c < 16 && d < 16
    ensures HexNumber([HexDigit(a), HexDigit(b), HexDigit(c), HexDigit(d)]) == 0x1000 * a + 0x100 * b + 16 * c + d
  {
    hide HexNumber, HexDigit;
    TwoDigits(a, b);
    var s := [HexDigit(a), HexDigit(b)];
    HexOneMore(s, c);
    HexOneMore(s + [HexDigit(c)], d);
    assert s + [HexDigit(c)] + [HexDigit(d)] == [HexDigit(a), HexDigit(b), HexDigit(c), HexDigit(d)];
  }

  lemma HexParts(n: nat)
    requires n < 0x10000
    ensures n / 0x1000 < 16 && n == 0x1000 * (n / 0x1000) + 0x100 * (n / 0x100 % 16) + 16 * (n / 16 % 16) + n % 16
  {
  }

  /** An acknowledgement's identifier reads back as the function and the register, two and four hexadecimal
      digits, so commands with different functions or registers have different ones. */
  lemma CorrelationReads(fn: nat, register: nat)
    requires fn < 0x100 && register < 0x10000
    ensures
      var c := Correlation(fn, register);
      |c| == 7 && c[2] == '-' && HexNumber(c[..2]) == fn && HexNumber(c[3..]) == register
  {
    hide HexDigit, HexNumber;
    var c := Correlation(fn, register);
    TwoDigits(fn / 16, fn % 16);
    assert c[..2] == [HexDigit(fn / 16), HexDigit(fn % 16)];
    HexParts(register);
    FourDigits(register / 0x1000, register / 0x100 % 16, register / 16 % 16, register % 16);
    assert c[3..] == [HexDigit(register / 0x1000), HexDigit(register / 0x100 % 16), HexDigit(register / 16 % 16),
                      HexDigit(register % 16)];
  }

  /** Without a reported unit, or with one that no device has, there is none to send to; a number that is missing
      or none is 0, and a fraction is cut off towards 0. */
  lemma NoUnitElse(state: State, key: string, r: real)
    ensures StateNumber(state[key := Other], key) == StateNumber(state - {key}, key) == 0
    ensures
      var n := StateNumber(state[key := Float(r)], key);
      if r >= 0.0 then n as real <= r < n as real + 1.0 else n as real - 1.0 < r <= n as real
    ensures UnitOf(state["unit" := Other]) == UnitOf(state - {"unit"}) == 0
    ensures r < 1.0 || r > 247.0 ==> UnitOf(state["unit" := Float(r)]) == 0
    ensures 1.0 <= r <= 247.0 ==> UnitOf(state["unit" := Float(r)]) == r.Floor
  {
  }

  /** The state survives its storage, from which whole numbers come back as floats: the unit and every
      pending number read the same. */
  lemma StoredNumbersRead(state: State, key: string, n: int)
    ensures StateNumber(state[key := Float(n as real)], key) == StateNumber(state[key := Whole(n)], key) == n
    ensures 1 <= n <= 247 ==> UnitOf(state["unit" := Float(n as real)]) == UnitOf(state["unit" := Whole(n)]) == n
  {
    assert (n as real).Floor == n && (-(n as real)).Floor == -n;
  }

  // ---------------------------------------------------------------- runs

  predicate Pairs(l: Line) {
    if l.last == [] then
      StateNumber(l.state, "pendingFunction") != 6 && StateNumber(l.state, "pendingFunction") != 16
    else
      && WriteCommand(l.last) && Describes(l.state, l.last)
      && l.correlation == Correlation(FunctionOf(l.last), U16(l.last[2], l.last[3]))
  }

  /** What an accepted frame says about the state it was accepted in. */
  lemma AcceptedFrame(data: seq<byte>, device: seq<byte>, state: State)
    requires Ingress(data, device, state).Accepted?
    ensures
      var a, f := Ingress(data, device, state), SensorFrame(data, device).frame;
      && WellFramed(f)
      && (a.correlation == "" <==> ToInt(f[1]) == 0x46)
      && (a.correlation == "" ==> a.state == state["unit" := Whole(ToInt(f[0]))])
      && (a.correlation != "" ==>
            && Describes(state, f) && a.state == map["unit" := Whole(ToInt(f[0]))]
            && a.correlation == Correlation(ToInt(f[1]), U16(f[2], f[3]))
            && (FunctionOf(f) == 16 ==> U16(f[4], f[5]) == 5))
  {
    hide SensorFrame;
    FrameShape(data, device);
  }

  lemma AcceptedEffect(data: seq<byte>, device: seq<byte>, state: State)
    requires Ingress(data, device, state).Accepted?
    ensures
      var a := Ingress(data, device, state);
      if a.correlation == "" then
        forall key :: key != "unit" ==> StateNumber(a.state, key) == StateNumber(state, key)
      else
        StateNumber(a.state, "pendingFunction") == 0
  {
    hide Ingress, ToInt, ValidCrc;
    AcceptedFrame(data, device, state);
  }

  lemma InboundPairs(l: Line, data: seq<byte>)
    requires Pairs(l)
    ensures Pairs(Step(l, Inbound(data)))
  {
    hide Ingress, WriteCommand, StateNumber, ToInt, U16, Correlation;
    if l.last != [] { SentIsLong(l.last); }
    if Ingress(data, l.device, l.state).Accepted? { AcceptedEffect(data, l.device, l.state); }
  }

  lemma SendPairs(l: Line, command: Command)
    requires Pairs(l)
    ensures Pairs(Step(l, Send(command)))
  {
    hide Encode, WriteCommand, Describes, ToInt, U16, Correlation;
    if Encode(command, l.state).Wire? {
      EncodeDescribes(command, l.state);
      SentIsLong(Encode(command, l.state).reply);
    }
  }

  lemma StepPairs(l: Line, e: Event)
    requires Pairs(l)
    ensures Pairs(Step(l, e))
  {
    hide Pairs, Step;
    match e
    case Inbound(data) => InboundPairs(l, data);
    case Send(command) => SendPairs(l, command);
  }

  lemma SentIsLong(sent: seq<byte>)
    requires WriteCommand(sent)
    ensures |sent| >= 8
  {
  }

  lemma {:induction false} RunPairs(l: Line, events: seq<Event>)
    requires Pairs(l)
    ensures Pairs(Run(l, events))
    decreases |events|
  {
    hide Step, Pairs;
    if events != [] {
      StepPairs(l, events[0]);
      RunPairs(Step(l, events[0]), events[1..]);
    }
  }

  lemma SameByte(a: byte, b: byte)
    requires ToInt(a) == ToInt(b)
    ensures a == b
  {
  }

  lemma SameWord(a: byte, b: byte, c: byte, d: byte)
    requires U16(a, b) == U16(c, d)
    ensures a == c && b == d
  {
    assert ToInt(a) == ToInt(c) && ToInt(b) == ToInt(d);
    SameByte(a, c);
    SameByte(b, d);
  }

  /** Over any run of the connection, an acknowledgement is accepted only for the latest command
      that has none yet: it repeats that command's function and register (and, for a single
      write, its value), and it carries that command's correlation. */
  lemma AcknowledgementMatchesCommand(device: seq<byte>, events: seq<Event>, data: seq<byte>)
    ensures
      var l := Run(Start(device), events);
      var a := Ingress(data, l.device, l.state);
      a.Accepted? && a.correlation != "" ==>
        var f := SensorFrame(data, l.device).frame;
        && l.last != [] && WriteCommand(l.last) && WellFramed(f)
        && f[1..4] == l.last[1..4]
        && (FunctionOf(f) == 6 ==> f[4..6] == l.last[4..6])
        && (FunctionOf(f) == 16 ==> U16(f[4], f[5]) == 5)
        && a.correlation == l.correlation
        && Step(l, Inbound(data)).last == []
  {
    hide Ingress, WriteCommand, ToInt, ValidCrc;
    RunPairs(Start(device), events);
    var l := Run(Start(device), events);
    if Ingress(data, l.device, l.state).Accepted? && Ingress(data, l.device, l.state).correlation != "" {
      AcceptedFrame(data, l.device, l.state);
      AcknowledgementFields(l, SensorFrame(data, l.device).frame);
    }
  }

  lemma AcknowledgementFields(l: Line, f: seq<byte>)
    requires Pairs(l) && WellFramed(f) && ToInt(f[1]) != 0x46 && Describes(l.state, f)
    ensures l.last != [] && WriteCommand(l.last)
    ensures f[1..4] == l.last[1..4] && (FunctionOf(f) == 6 ==> f[4..6] == l.last[4..6])
    ensures l.correlation == Correlation(ToInt(f[1]), U16(f[2], f[3]))
  {
    hide ToInt, ValidCrc;
    SameByte(f[1], l.last[1]);
    SameWord(f[2], f[3], l.last[2], l.last[3]);
    if FunctionOf(f) == 6 { SameWord(f[4], f[5], l.last[4], l.last[5]); }
  }

  /** Until the next command is sent, no acknowledgement is accepted: not the same one again, and
      no other. */
  lemma {:induction false} NoAcknowledgementWithoutCommand(l: Line, events: seq<Event>, data: seq<byte>)
    requires Pairs(l) && l.last == [] && forall e :: e in events ==> e.Inbound?
    ensures
      var end := Run(l, events);
      end.last == [] && !(Ingress(data, end.device, end.state).Accepted?
                          && Ingress(data, end.device, end.state).correlation != "")
    decreases |events|
  {
    hide Ingress, ToInt, ValidCrc;
    if events == [] {
      if Ingress(data, l.device, l.state).Accepted? { AcceptedFrame(data, l.device, l.state); }
    } else {
      StepPairs(l, events[0]);
      NoAcknowledgementWithoutCommand(Step(l, events[0]), events[1..], data);
    }
  }

  // ---------------------------------------------------------------- the device's answer

  /** The response the Modbus specification prescribes: an echo of a single write, the first six
      bytes with their own checksum for a multiple write. */
  function Response(sent: seq<byte>): seq<byte>
    requires WriteCommand(sent)
  {
    if FunctionOf(sent) == 6 then sent else RtuOf(sent[..6])
  }

  lemma ResponseFields(sent: seq<byte>)
    requires WriteCommand(sent)
    ensures
      var r := Response(sent);
      && |r| == 8 && ValidCrc(r) && r[0] == sent[0] && r[1] == sent[1]
      && U16(r[2], r[3]) == U16(sent[2], sent[3]) && U16(r[4], r[5]) == U16(sent[4], sent[5])
  {
    hide ToInt, RtuOf, ValidCrc;
    if FunctionOf(sent) != 6 {
      RtuKeeps(sent[..6]);
      SentFramesAreValid(sent[..6]);
    }
  }

  lemma ResponseReading(sent: seq<byte>, imei: seq<byte>, rest: seq<byte>, device: seq<byte>)
    requires WriteCommand(sent) && (imei == [] || IsImei(imei))
    ensures
      var r := SensorFrame(imei + Response(sent) + rest, device);
      if imei != [] then r == Got(23, imei, Response(sent))
      else if IsDigit(sent[0]) then !r.Got?
      else if device == [] then r == Reject(NoImei)
      else r == Got(8, device, Response(sent))
  {
    hide ToInt, RtuOf, ValidCrc, Response;
    ResponseFields(sent);
    var r := Response(sent);
    FrameAt(imei, r, rest);
    var data := imei + r + rest;
    if imei != [] {
      assert data[..15] == imei && data[0] == imei[0];
    } else {
      assert data == r + rest;
      if IsDigit(sent[0]) && |data| >= 15 {
        assert data[..15][1] == r[1];
      }
    }
  }

  /** At any point of any run where a command waits, whatever reports came in since, the
      prescribed response is accepted and consumed to its last byte, with whatever follows it left
      alone, exactly when an IMEI stands in front of it, or the device is known and the unit number
      is not one of the ASCII digits 48 to 57. */
  lemma CorrectResponseAccepted(device: seq<byte>, events: seq<Event>, imei: seq<byte>, rest: seq<byte>)
    requires Run(Start(device), events).last != [] && (imei == [] || IsImei(imei))
    ensures
      var l := Run(Start(device), events);
      && WriteCommand(l.last)
      && var a := Ingress(imei + Response(l.last) + rest, l.device, l.state);
         if imei != [] || (l.device != [] && !(48 <= ToInt(l.last[0]) <= 57)) then
           a == Accepted(|imei| + 8, if imei == [] then l.device else imei, l.correlation,
                         map["unit" := Whole(ToInt(l.last[0]))])
         else !a.Accepted?
  {
    hide ToInt, ValidCrc, Response, SensorFrame;
    RunPairs(Start(device), events);
    var l := Run(Start(device), events);
    ResponseFields(l.last);
    ResponseReading(l.last, imei, rest, l.device);
  }

  /** A command goes to the unit that reported last; so one to a digit unit waits after a single
      report that has the IMEI in front, and its response cannot do without one either. */
  lemma CommandGoesToReportedUnit(imei: seq<byte>, item: Item, n: nat, rest: seq<byte>)
    requires IsImei(imei) && Sendable(item) && item.prefixed && 1 <= ToInt(item.unit) <= 247 && n < 0x10000
    ensures
      var command := Command("setDetectionTime", map["value" := Number(n)]);
      var l := Run(Start([]), [Inbound(Reports.Wire(imei, item)), Send(command)]);
      && WriteCommand(l.last) && l.device == imei && l.last[0] == item.unit
      && (IsDigit(item.unit) ==>
            && !Ingress(Response(l.last) + rest, l.device, l.state).Accepted?
            && Ingress(imei + Response(l.last) + rest, l.device, l.state).Accepted?)
  {
    var command := Command("setDetectionTime", map["value" := Number(n)]);
    var events := [Inbound(Reports.Wire(imei, item)), Send(command)];
    hide Run, Ingress, Response, Reports.Wire, ToInt, ValidCrc, WriteCommand, Sendable, IsImei;
    FirstReport(imei, item);
    RunTwo(Start([]), events[0], events[1]);
    hide Encode;
    CommandAfterReport(item.unit, n);
    CorrectResponseAccepted([], events, [], rest);
    CorrectResponseAccepted([], events, imei, rest);
    var l := Run(Start([]), events);
    assert [] + Response(l.last) + rest == Response(l.last) + rest;
  }

  lemma RunTwo(l: Line, a: Event, b: Event)
    ensures Run(l, [a, b]) == Step(Step(l, a), b)
  {
    hide Step;
    assert [a, b][1..] == [b] && [b][1..] == [];
    assert Run(Step(l, a), [b]) == Step(Step(l, a), b);
  }

  lemma FirstReport(imei: seq<byte>, item: Item)
    requires IsImei(imei) && Sendable(item) && item.prefixed
    ensures Step(Start([]), Inbound(Reports.Wire(imei, item)))
            == Line(imei, map["unit" := Whole(ToInt(item.unit))], [], "")
  {
    hide Ingress, Reports.Wire, ToInt;
    ItemIsAccepted(imei, item, [], [], map[]);
    assert Reports.Wire(imei, item) + [] == Reports.Wire(imei, item);
  }

  lemma CommandAfterReport(unit: byte, n: nat)
    requires 1 <= ToInt(unit) <= 247 && n < 0x10000
    ensures
      var e := Encode(Command("setDetectionTime", map["value" := Number(n)]), map["unit" := Whole(ToInt(unit))]);
      e.Wire? && WriteCommand(e.reply) && e.reply[0] == unit
  {
    var command, state := Command("setDetectionTime", map["value" := Number(n)]), map["unit" := Whole(ToInt(unit))];
    hide RtuOf, ValidCrc, Hi, Lo, ToByte, ToInt;
    SingleDescribes(command, state);
    var d := SingleData(ToInt(unit), 6, n);
    RtuKeeps(d);
    ByteValue(ToInt(unit));
    SameByte(ToByte(ToInt(unit)), unit);
  }
}
