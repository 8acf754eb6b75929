/** Finding the JSON object in a model's answer. */
module Extract {
  import opened Plan
  import opened Json

  // ---------------------------------------------------------------- the brace that closes

  datatype Mode = Outside | Inside | Escaped

  /** Where the scanner stands after a character, as far as strings go. */
  function Shift(m: Mode, c: char): Mode {
    match m
    case Outside => if c == '\"' then Inside else Outside
    case Inside => if c == '\\' then Escaped else if c == '\"' then Outside else Inside
    case Escaped => Inside
  }

  datatype Scan = Open(depth: int, mode: Mode) | Closed

  function Advance(k: Scan, c: char): Scan {
    if k.Closed? then Closed
    else
      var depth := if k.mode != Outside then k.depth else if c == '{' then k.depth + 1
        else if c == '}' then k.depth - 1 else k.depth;
      if k.mode == Outside && c == '}' && depth == 0 then Closed else Open(depth, Shift(k.mode, c))
  }

  function Go(k: Scan, s: string): Scan
    decreases |s|
  {
    if s == "" then k else Go(Advance(k, s[0]), s[1..])
  }

  const START := Open(0, Outside)

  lemma {:induction false} GoOn(k: Scan, s: string, t: string)
    ensures Go(k, s + t) == Go(Go(k, s), t)
    decreases |s|
  {
    if s == "" {
      assert s + t == t;
    } else {
      assert (s + t)[1..] == s[1..] + t;
      GoOn(Advance(k, s[0]), s[1..], t);
    }
  }

  lemma GoOne(k: Scan, s: string, c: char)
    ensures Go(k, s + [c]) == Advance(Go(k, s), c)
  {
    GoOn(k, s, [c]);
    assert Go(Go(k, s), [c]) == Go(Advance(Go(k, s), c), [c][1..]);
  }

  lemma GoNone(k: Scan)
    ensures Go(k, "") == k
  {
  }

  lemma {:induction false} ClosedForGood(s: string)
    ensures Go(Closed, s) == Closed
    decreases |s|
  {
    if s != "" { ClosedForGood(s[1..]); }
  }

  /** The index of the brace that closes what opens at `start`, or -1. */
  method MatchingBrace(s: string, start: nat) returns (end: int)
    requires start < |s|
    ensures -1 <= end < |s|
    ensures end >= 0 ==> start <= end && Go(START, s[start..end]) != Closed && Go(START, s[start..end + 1]) == Closed
    ensures end == -1 ==> Go(START, s[start..]) != Closed
  {
    var depth, inString, escaped := 0, false, false;
    for i := start to |s|
      invariant escaped ==> inString
      invariant Go(START, s[start..i]) == Open(depth, if escaped then Escaped else if inString then Inside else Outside)
    {
      var c := s[i];
      assert s[start..i + 1] == s[start..i] + [c];
      GoOne(START, s[start..i], c);
      if inString {
        if escaped { escaped := false; }
        else if c == '\\' { escaped := true; }
        else if c == '\"' { inString := false; }
      } else if c == '\"' {
        inString := true;
      } else if c == '{' {
        depth := depth + 1;
      } else if c == '}' {
        depth := depth - 1;
        if depth == 0 {
          return i;
        }
      }
    }
    assert s[start..|s|] == s[start..];
    return -1;
  }

  /** Characters that mean nothing to the scanners outside strings. */
  predicate Tame(t: string) { forall i | 0 <= i < |t| :: t[i] != '\"' && t[i] != ',' && t[i] != '{' && t[i] != '}' }

  lemma {:induction false} TamePasses(d: int, t: string)
    requires Tame(t)
    ensures Go(Open(d, Outside), t) == Open(d, Outside)
    decreases |t|
  {
    if t != "" { TamePasses(d, t[1..]); }
  }

  lemma TameJoin(t: string, u: string)
    requires Tame(t) && Tame(u)
    ensures Tame(t + u)
  {
  }

  lemma AtomsAreTame(v: Value)
    requires Good(v) && (v.Word? || v.Number?)
    ensures Tame(Text(v))
  {
    if v.Number? {
      hide Tame;
      var sign := if v.minus then "-" else "";
      var fraction := if v.fraction == "" then "" else "." + v.fraction;
      var exponent :=
        if v.exponent.None? then "" else [v.exponent.value.e] + v.exponent.value.sign + v.exponent.value.digits;
      PartsAreTame(v, sign, fraction, exponent);
      TameJoin(sign, v.whole);
      TameJoin(sign + v.whole, fraction);
      TameJoin(sign + v.whole + fraction, exponent);
    }
  }

  lemma PartsAreTame(v: Value, sign: string, fraction: string, exponent: string)
    requires v.Number? && Good(v)
    requires sign == "" || sign == "-"
    requires fraction == (if v.fraction == "" then "" else "." + v.fraction)
    requires exponent == if v.exponent.None? then ""
                         else [v.exponent.value.e] + v.exponent.value.sign + v.exponent.value.digits
    ensures Tame(sign) && Tame(v.whole) && Tame(fraction) && Tame(exponent)
  {
  }

  lemma {:induction false} PiecesPass(d: int, s: seq<Piece>)
    requires GoodPieces(s)
    ensures Go(Open(d, Inside), PiecesText(s)) == Open(d, Inside)
    decreases |s|
  {
    if s != [] {
      GoOn(Open(d, Inside), PieceText(s[0]), PiecesText(s[1..]));
      PiecePasses(d, s[0]);
      PiecesPass(d, s[1..]);
    }
  }

  lemma PiecePasses(d: int, p: Piece)
    requires GoodPiece(p)
    ensures Go(Open(d, Inside), PieceText(p)) == Open(d, Inside)
  {
    match p
    case Plain(c) => GoOne(Open(d, Inside), "", c); assert "" + [c] == [c];
    case Escape(c) => GoOne(Open(d, Inside), ['\\'], c); assert ['\\'] + [c] == ['\\', c];
    case Code(hex) =>
      GoOn(Open(d, Inside), "\\u", hex);
      HexPasses(d, hex);
  }

  lemma {:induction false} HexPasses(d: int, hex: string)
    requires forall i | 0 <= i < |hex| :: Hex(hex[i])
    ensures Go(Open(d, Inside), hex) == Open(d, Inside)
    decreases |hex|
  {
    if hex != "" { HexPasses(d, hex[1..]); }
  }

  lemma QuotedPasses(d: int, s: seq<Piece>)
    requires GoodPieces(s)
    ensures Go(Open(d, Outside), Quoted(s)) == Open(d, Outside)
  {
    PiecesPass(d, s);
    GoOn(Open(d, Outside), "\"", PiecesText(s));
    GoOne(Open(d, Outside), "\"" + PiecesText(s), '\"');
  }

  /** Inside an object the scanner passes over every value... */
  lemma {:induction false} ValuePasses(d: int, v: Value)
    requires d >= 1 && Good(v)
    ensures Go(Open(d, Outside), Text(v)) == Open(d, Outside)
    decreases v, 0
  {
    hide Body, Quoted, NumberText, Go;
    match v
    case Word(_) => AtomsAreTame(v); TamePasses(d, Text(v));
    case Number(_, _, _, _) => AtomsAreTame(v); TamePasses(d, Text(v));
    case Str(pieces) => QuotedPasses(d, pieces);
    case Group(object_, items) =>
      var inner := if object_ then d + 1 else d;
      ItemsPass(inner, items, object_, true);
      GoOne(Open(d, Outside), "", Opener(object_));
      GoOn(Open(d, Outside), [Opener(object_)], Body(items, true));
      assert "" + [Opener(object_)] == [Opener(object_)];
      GoNone(Open(d, Outside));
      GoOne(Open(d, Outside), [Opener(object_)] + Body(items, true), Closer(object_));
  }

  /** ... and over the inside of every container. */
  lemma {:induction false} ItemsPass(d: int, b: Items, object_: bool, first: bool)
    requires d >= 1 && GoodItems(b, object_)
    ensures Go(Open(d, Outside), Body(b, first)) == Open(d, Outside)
    decreases b, 1
  {
    var k := Open(d, Outside);
    match b
    case End(comma, pad) =>
      CommaPasses(d, comma);
      TamePasses(d, pad);
      GoOn(k, if comma then "," else "", pad);
    case More(before, key, value, after, rest) =>
      CommaPasses(d, !first);
      TamePasses(d, before);
      KeyPasses(d, key);
      ValuePasses(d, value);
      TamePasses(d, after);
      ItemsPass(d, rest, object_, false);
      var a4 := after + Body(rest, false);
      var a3 := Text(value) + a4;
      var a2 := KeyText(key) + a3;
      GoOn(k, after, Body(rest, false));
      GoOn(k, Text(value), a4);
      GoOn(k, KeyText(key), a3);
      GoOn(k, before, a2);
      GoOn(k, if first then "" else ",", before + a2);
  }

  lemma CommaPasses(d: int, comma: bool)
    ensures Go(Open(d, Outside), if comma then "," else "") == Open(d, Outside)
  {
  }

  lemma KeyPasses(d: int, key: Option<Key>)
    requires key.Some? ==> GoodPieces(key.value.name) && Spaces(key.value.before) && Spaces(key.value.after)
    ensures Go(Open(d, Outside), KeyText(key)) == Open(d, Outside)
  {
    GoNone(Open(d, Outside));
    hide Go, Quoted, GoodPieces;
    if key.Some? {
      var k, q, after := Open(d, Outside), Quoted(key.value.name), key.value.before + ":" + key.value.after;
      QuotedPasses(d, key.value.name);
      TamePasses(d, after);
      GoOn(k, q, after);
      assert KeyText(key) == q + after;
    }
  }

  /** The scanner closes at the last brace of an object and not before. */
  lemma ObjectCloses(v: Value)
    requires Good(v) && v.Group? && v.object_
    ensures Go(START, Text(v)[..|Text(v)| - 1]) != Closed && Go(START, Text(v)) == Closed
  {
    var inner := ['{'] + Body(v.items, true);
    ItemsPass(1, v.items, true, true);
    GoOn(START, ['{'], Body(v.items, true));
    GoOne(START, inner, '}');
    assert Text(v)[..|Text(v)| - 1] == inner;
  }

  // ---------------------------------------------------------------- the first object

  ghost predicate ObjectAt(s: string, i: nat, j: nat) { i < j <= |s| && IsObject(s[i..j]) }

  /** Every object in a text starts with a brace, and the scanner finds its end, whatever stands
      before it and after it. */
  lemma ScannerFindsObjects(s: string, i: nat, j: nat, k: nat)
    requires ObjectAt(s, i, j) && i < k <= |s|
    ensures j >= i + 2 && s[i] == '{' && s[j - 1] == '}'
    ensures Go(START, s[i..k]) == Closed <==> j <= k
  {
    hide Go, IsObject, Advance;
    var t := s[i..j];
    ObjectTextCloses(t);
    if j <= k {
      assert s[i..k] == t + s[j..k];
      GoOn(START, t, s[j..k]);
      ClosedForGood(s[j..k]);
    } else {
      var u := t[..|t| - 1];
      assert u == s[i..j - 1] == s[i..k] + s[k..j - 1];
      GoOn(START, s[i..k], s[k..j - 1]);
      ClosedForGood(s[k..j - 1]);
    }
  }

  lemma ObjectTextCloses(t: string)
    requires IsObject(t)
    ensures |t| >= 2 && t[0] == '{' && t[|t| - 1] == '}'
    ensures Go(START, t[..|t| - 1]) != Closed && Go(START, t) == Closed
  {
    var v :| Proper(v) && v.Group? && v.object_ && t == Text(v);
    ObjectCloses(v);
    assert t == ['{'] + Body(v.items, true) + ['}'];
  }

  /** An object that starts somewhere is the only one that starts there. */
  lemma ObjectsAreDetermined(s: string, i: nat, j: nat, k: nat)
    requires ObjectAt(s, i, j) && ObjectAt(s, i, k)
    ensures j == k
  {
    hide Go, IsObject;
    ScannerFindsObjects(s, i, j, j);
    ScannerFindsObjects(s, i, j, k);
    ScannerFindsObjects(s, i, k, j);
    ScannerFindsObjects(s, i, k, k);
  }

  ghost predicate FirstObjectAt(s: string, i: nat, j: nat) {
    ObjectAt(s, i, j) && forall h: nat, k: nat | 0 <= h < i :: !ObjectAt(s, h, k)
  }

  ghost predicate NoObject(s: string) { forall i: nat, j: nat :: !ObjectAt(s, i, j) }

  /** The first object of a text: its earliest substring that is one. */
  ghost predicate IsFirstObject(s: string, r: Option<string>) {
    match r
    case None => NoObject(s)
    case Some(t) => exists i: nat, j: nat :: FirstObjectAt(s, i, j) && t == s[i..j]
  }

  method IndexOfBrace(s: string, from: nat) returns (i: int)
    requires from <= |s|
    ensures i == -1 || from <= i < |s|
    ensures i >= 0 ==> s[i] == '{' && forall k | from <= k < i :: s[k] != '{'
    ensures i == -1 ==> forall k | from <= k < |s| :: s[k] != '{'
  {
    for k := from to |s|
      invariant forall h | from <= h < k :: s[h] != '{'
    {
      if s[k] == '{' {
        return k;
      }
    }
    return -1;
  }

  /** `valid` is the library's validity check. */
  method FirstJSONObject(s: string, valid: string -> bool) returns (r: Option<string>)
    requires forall t :: valid(t) <==> IsJson(t)
    ensures IsFirstObject(s, r)
  {
    var start := IndexOfBrace(s, 0);
    NoneBefore(s, 0, if start < 0 then |s| else start);
    while start >= 0
      invariant -1 <= start < |s| && (start >= 0 ==> s[start] == '{')
      invariant forall h: nat, k: nat | 0 <= h < (if start < 0 then |s| else start) :: !ObjectAt(s, h, k)
      decreases if start < 0 then 0 else |s| - start
    {
      var end := MatchingBrace(s, start);
      if end > start && valid(s[start..end + 1]) {
        FoundIsObject(s, start, end);
        assert FirstObjectAt(s, start, end + 1);
        return Some(s[start..end + 1]);
      }
      forall k: nat ensures !ObjectAt(s, start, k) {
        if ObjectAt(s, start, k) { RejectedIsNone(s, start, end, k, valid); }
      }
      var next := IndexOfBrace(s, start + 1);
      NoneBefore(s, start + 1, if next < 0 then |s| else next);
      start := next;
    }
    return None;
  }

  /** Without an opening brace nothing starts. */
  lemma NoneBefore(s: string, from: nat, to: nat)
    requires from <= to <= |s| && forall k | from <= k < to :: s[k] != '{'
    ensures forall h: nat, k: nat | from <= h < to :: !ObjectAt(s, h, k)
  {
    forall h: nat, k: nat | from <= h < to ensures !ObjectAt(s, h, k) {
      if ObjectAt(s, h, k) { ScannerFindsObjects(s, h, k, k); }
    }
  }

  lemma FoundIsObject(s: string, start: nat, end: nat)
    requires start < end < |s| && s[start] == '{' && IsJson(s[start..end + 1])
    requires Go(START, s[start..end]) != Closed && Go(START, s[start..end + 1]) == Closed
    ensures ObjectAt(s, start, end + 1)
  {
    hide Go, IsObject, IsJson;
    GoOne(START, s[start..end], s[end]);
    assert s[start..end + 1] == s[start..end] + [s[end]];
    BracedIsObject(s[start..end + 1]);
  }

  lemma RejectedIsNone(s: string, start: nat, end: int, k: nat, valid: string -> bool)
    requires start < |s| && -1 <= end < |s| && ObjectAt(s, start, k)
    requires forall t :: valid(t) <==> IsJson(t)
    requires end >= 0 ==> start <= end && Go(START, s[start..end]) != Closed && Go(START, s[start..end + 1]) == Closed
    requires end == -1 ==> Go(START, s[start..]) != Closed
    ensures end > start && valid(s[start..end + 1])
  {
    hide Go, IsObject, IsJson;
    assert s[start..|s|] == s[start..];
    ScannerFindsObjects(s, start, k, |s|);
    ScannerFindsObjects(s, start, k, end + 1);
    if start < end { ScannerFindsObjects(s, start, k, end); }
    ObjectIsJson(s[start..k]);
  }
}
