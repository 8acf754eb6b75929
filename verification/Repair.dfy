/** Removing trailing commas from a model's answer, and the whole extraction. */
module Repair {
  import opened Plan
  import opened Json
  import opened Extract

  function TrimLeft(s: string): string
    decreases |s|
  {
    if s != "" && Space(s[0]) then TrimLeft(s[1..]) else s
  }

  predicate Closes(rest: string) {
    var t := TrimLeft(rest);
    t != "" && (t[0] == '}' || t[0] == ']')
  }

  /** The text without the commas, outside strings, that only white space parts from a closing bracket. */
  function Tidy(m: Mode, s: string): string
    decreases |s|
  {
    if s == "" then ""
    else if m == Outside && s[0] == ',' && Closes(s[1..]) then Tidy(Outside, s[1..])
    else [s[0]] + Tidy(Shift(m, s[0]), s[1..])
  }

  /** One character, and the rest. */
  lemma TidyOne(m: Mode, c: char, rest: string)
    ensures
      Tidy(m, [c] + rest)
      == if m == Outside && c == ',' && Closes(rest) then Tidy(Shift(m, c), rest) else [c] + Tidy(Shift(m, c), rest)
  {
    assert ([c] + rest)[1..] == rest;
  }

  lemma TidyNone(m: Mode)
    ensures Tidy(m, "") == ""
  {
  }

  method WithoutTrailingCommas(s: string) returns (b: string)
    ensures b == Tidy(Outside, s)
  {
    hide Tidy, TrimLeft;
    b := "";
    assert s == s[0..];
    var inString, escaped := false, false;
    for i := 0 to |s|
      invariant escaped ==> inString
      invariant Tidy(Outside, s) == b + Tidy(if escaped then Escaped else if inString then Inside else Outside, s[i..])
    {
      var c := s[i];
      var dropped := false;
      ghost var mode := if escaped then Escaped else if inString then Inside else Outside;
      assert s[i..] == [c] + s[i + 1..];
      TidyOne(mode, c, s[i + 1..]);
      if inString {
        if escaped { escaped := false; }
        else if c == '\\' { escaped := true; }
        else if c == '\"' { inString := false; }
      } else if c == '\"' {
        inString := true;
      } else if c == ',' {
        var rest := Trimmed(s[i + 1..]);
        dropped := |rest| > 0 && (rest[0] == '}' || rest[0] == ']');
      }
      if !dropped { b := b + [c]; }
    }
    assert s[|s|..] == "";
    TidyNone(if escaped then Escaped else if inString then Inside else Outside);
  }

  method Trimmed(s: string) returns (t: string)
    ensures t == TrimLeft(s)
  {
    var i := 0;
    while i < |s| && Space(s[i])
      invariant i <= |s| && TrimLeft(s) == TrimLeft(s[i..])
    {
      assert s[i..][1..] == s[i + 1..];
      i := i + 1;
    }
    return s[i..];
  }

  lemma {:induction false} TrimSkips(pad: string, rest: string)
    requires Spaces(pad)
    ensures TrimLeft(pad + rest) == TrimLeft(rest)
    decreases |pad|
  {
    if pad == "" {
      assert pad + rest == rest;
    } else {
      assert (pad + rest)[1..] == pad[1..] + rest;
      TrimSkips(pad[1..], rest);
    }
  }

  lemma {:induction false} TidyTame(t: string, rest: string)
    requires Tame(t)
    ensures Tidy(Outside, t + rest) == t + Tidy(Outside, rest)
    decreases |t|
  {
    if t == "" {
      assert t + rest == rest;
    } else {
      assert (t + rest)[1..] == t[1..] + rest;
      TidyTame(t[1..], rest);
    }
  }

  lemma {:induction false} TidyPieces(s: seq<Piece>, rest: string)
    requires GoodPieces(s)
    ensures Tidy(Inside, PiecesText(s) + rest) == PiecesText(s) + Tidy(Inside, rest)
    decreases |s|
  {
    hide Tidy, PieceText, GoodPiece;
    if s == [] {
      assert PiecesText(s) + rest == rest;
    } else {
      var head, more := PieceText(s[0]), PiecesText(s[1..]);
      assert (head + more) + rest == head + (more + rest);
      TidyPiece(s[0], more + rest);
      TidyPieces(s[1..], rest);
      assert head + (more + Tidy(Inside, rest)) == (head + more) + Tidy(Inside, rest);
    }
  }

  lemma TidyPiece(p: Piece, rest: string)
    requires GoodPiece(p)
    ensures Tidy(Inside, PieceText(p) + rest) == PieceText(p) + Tidy(Inside, rest)
  {
    match p
    case Plain(c) => assert ([c] + rest)[1..] == rest;
    case Escape(c) => TidyEscape(c, rest);
    case Code(hex) =>
      assert "\\u" + hex + rest == ['\\', 'u'] + (hex + rest);
      TidyEscape('u', hex + rest);
      TidyHex(hex, rest);
  }

  lemma TidyEscape(c: char, rest: string)
    ensures Tidy(Inside, ['\\', c] + rest) == ['\\', c] + Tidy(Inside, rest)
  {
    hide Tidy;
    assert ['\\', c] + rest == ['\\'] + ([c] + rest);
    TidyOne(Inside, '\\', [c] + rest);
    TidyOne(Escaped, c, rest);
  }

  lemma {:induction false} TidyHex(hex: string, rest: string)
    requires forall i | 0 <= i < |hex| :: Hex(hex[i])
    ensures Tidy(Inside, hex + rest) == hex + Tidy(Inside, rest)
    decreases |hex|
  {
    if hex == "" {
      assert hex + rest == rest;
    } else {
      assert (hex + rest)[1..] == hex[1..] + rest;
      TidyHex(hex[1..], rest);
    }
  }

  lemma TidyQuoted(s: seq<Piece>, rest: string)
    requires GoodPieces(s)
    ensures Tidy(Outside, Quoted(s) + rest) == Quoted(s) + Tidy(Outside, rest)
  {
    hide Tidy, PiecesText;
    var t, end := PiecesText(s), ['\"'] + rest;
    assert Quoted(s) + rest == ['\"'] + (t + end);
    TidyOne(Outside, '\"', t + end);
    TidyPieces(s, end);
    TidyOne(Inside, '\"', rest);
    assert ['\"'] + (t + (['\"'] + Tidy(Outside, rest))) == Quoted(s) + Tidy(Outside, rest);
  }

  lemma TidyKey(key: Option<Key>, rest: string)
    requires key.Some? ==> GoodPieces(key.value.name) && Spaces(key.value.before) && Spaces(key.value.after)
    ensures Tidy(Outside, KeyText(key) + rest) == KeyText(key) + Tidy(Outside, rest)
  {
    hide Tidy, Quoted, GoodPieces;
    if key.None? {
      assert KeyText(key) + rest == rest;
    } else {
      var name, colon := Quoted(key.value.name), key.value.before + ":" + key.value.after;
      assert KeyText(key) == name + colon;
      assert (name + colon) + rest == name + (colon + rest);
      TidyQuoted(key.value.name, colon + rest);
      TidyTame(colon, rest);
      assert name + (colon + Tidy(Outside, rest)) == (name + colon) + Tidy(Outside, rest);
    }
  }

  /** The tidied text of a tree is that of the tree without commas too many, whatever follows. */
  lemma {:induction false} TidyValue(v: Value, rest: string)
    requires Good(v)
    ensures Tidy(Outside, Text(v) + rest) == Text(Clean(v)) + Tidy(Outside, rest)
    decreases v, 0
  {
    hide Tidy, Body, CleanItems, NumberText, Quoted, GoodPieces;
    match v
    case Word(_) => AtomsAreTame(v); TidyTame(Text(v), rest);
    case Number(_, _, _, _) => AtomsAreTame(v); TidyTame(Text(v), rest);
    case Str(pieces) => TidyQuoted(pieces, rest);
    case Group(object_, items) =>
      var open, shut := [Opener(object_)], [Closer(object_)];
      var inside, tidied := Body(items, true), Body(CleanItems(items), true);
      assert Text(v) + rest == open + (inside + (shut + rest));
      TidyOne(Outside, Opener(object_), inside + (shut + rest));
      TidyItems(items, object_, true, rest);
      TidyOne(Outside, Closer(object_), rest);
      assert Text(Clean(v)) == open + tidied + shut;
      assert open + (tidied + (shut + Tidy(Outside, rest))) == open + tidied + shut + Tidy(Outside, rest);
  }

  lemma {:induction false} TidyItems(b: Items, object_: bool, first: bool, rest: string)
    requires GoodItems(b, object_)
    ensures
      var end := [Closer(object_)] + rest;
      Tidy(Outside, Body(b, first) + end) == Body(CleanItems(b), first) + Tidy(Outside, end)
    decreases b, 1
  {
    hide Tidy, Text, KeyText, TrimLeft, Good, Clean, GoodPieces;
    var end := [Closer(object_)] + rest;
    match b
    case End(comma, pad) =>
      PadCloses(pad, object_, rest);
      TidyTame(pad, end);
      TidyComma(pad + end);
      assert Body(b, first) + end == if comma then "," + (pad + end) else pad + end;
      assert Body(CleanItems(b), first) == pad;
    case More(before, key, value, after, more) =>
      var tail := after + (Body(more, false) + end);
      var a1 := KeyText(key) + (Text(value) + tail);
      var comma := if first then "" else ",";
      EntryJoins(comma, before, KeyText(key), Text(value), after, Body(more, false), end);
      assert Body(b, first) + end == comma + (before + a1);
      assert first ==> comma + (before + a1) == before + a1;
      EntryStays(before, key, value, tail);
      TidyComma(before + a1);
      TidyTame(before, a1);
      TidyKey(key, Text(value) + tail);
      TidyValue(value, tail);
      TidyTame(after, Body(more, false) + end);
      TidyItems(more, object_, false, rest);
      assert Tidy(Outside, comma + (before + a1)) == comma + Tidy(Outside, before + a1);
      EntryJoins(comma, before, KeyText(key), Text(Clean(value)), after, Body(CleanItems(more), false),
        Tidy(Outside, end));
      assert Body(CleanItems(b), first)
          == comma + (before + (KeyText(key) + (Text(Clean(value)) + (after + Body(CleanItems(more), false)))));
  }

  /** A comma goes exactly when a bracket closes after it. */
  lemma TidyComma(rest: string)
    ensures Tidy(Outside, "," + rest) == (if Closes(rest) then "" else ",") + Tidy(Outside, rest)
  {
    assert ("," + rest)[1..] == rest;
  }

  lemma PadCloses(pad: string, object_: bool, rest: string)
    requires Spaces(pad)
    ensures Closes(pad + ([Closer(object_)] + rest))
  {
    TrimSkips(pad, [Closer(object_)] + rest);
  }

  /** After a comma that stands before another entry no bracket closes. */
  lemma EntryStays(before: string, key: Option<Key>, value: Value, rest: string)
    requires Good(value) && Spaces(before)
    ensures !Closes(before + (KeyText(key) + (Text(value) + rest)))
  {
    var t := KeyText(key) + (Text(value) + rest);
    ValueStarts(value);
    TrimSkips(before, t);
    assert t[0] == if key.Some? then '\"' else Text(value)[0];
  }

  lemma EntryJoins(comma: string, before: string, key: string, value: string, after: string, more: string, end: string)
    ensures
      comma + (before + (key + (value + (after + (more + end)))))
      == (comma + (before + (key + (value + (after + more))))) + end
  {
  }

  /** Every JSON text stays as it is. */
  lemma JsonIsTidy(t: string)
    requires IsJson(t)
    ensures Tidy(Outside, t) == t
  {
    var v, lead, trail :| Proper(v) && Spaces(lead) && Spaces(trail) && t == lead + Text(v) + trail;
    assert t == lead + (Text(v) + (trail + ""));
    TidyTame(lead, Text(v) + (trail + ""));
    TidyValue(v, trail + "");
    TidyTame(trail, "");
  }

  /** A text whose containers may end in a comma too many becomes the JSON text without them. */
  lemma TidyMakesJson(v: Value)
    requires Good(v) && Nesting(v) <= MAX_NESTING
    ensures Tidy(Outside, Text(v)) == Text(Clean(v)) && IsJson(Tidy(Outside, Text(v)))
  {
    TidyValue(v, "");
    assert Text(v) + "" == Text(v);
    assert Proper(Clean(v)) && Spaces("") && Text(Clean(v)) == "" + Text(Clean(v)) + "";
  }

  // ---------------------------------------------------------------- the whole extraction

  /** The first object, or the first one of the tidied text, or the text. */
  ghost predicate IsExtracted(s: string, r: string) {
    if !NoObject(s) then IsFirstObject(s, Some(r))
    else if !NoObject(Tidy(Outside, s)) then IsFirstObject(Tidy(Outside, s), Some(r))
    else r == s
  }

  method ExtractJSON(s: string, valid: string -> bool) returns (r: string)
    requires forall t :: valid(t) <==> IsJson(t)
    ensures IsExtracted(s, r)
  {
    hide IsObject, IsJson;
    var object_ := FirstJSONObject(s, valid);
    if object_.Some? {
      return object_.value;
    }
    var tidied := WithoutTrailingCommas(s);
    object_ := FirstJSONObject(tidied, valid);
    if object_.Some? {
      return object_.value;
    }
    return s;
  }

  /** There is one answer to extract. */
  lemma ExtractionIsDetermined(s: string, r: string, q: string)
    requires IsExtracted(s, r) && IsExtracted(s, q)
    ensures r == q
  {
    hide IsObject, Tidy;
    var t := if !NoObject(s) then s else Tidy(Outside, s);
    if !NoObject(t) { FirstIsDetermined(t, r, q); }
  }

  lemma FirstIsDetermined(s: string, r: string, q: string)
    requires IsFirstObject(s, Some(r)) && IsFirstObject(s, Some(q))
    ensures r == q
  {
    hide IsObject;
    var i: nat, j: nat :| FirstObjectAt(s, i, j) && r == s[i..j];
    var h: nat, k: nat :| FirstObjectAt(s, h, k) && q == s[h..k];
    assert i == h;
    ObjectsAreDetermined(s, i, j, k);
  }

  predicate Braceless(s: string) { forall i | 0 <= i < |s| :: s[i] != '{' }

  /** An object that follows a text without an opening brace is the first. */
  lemma FirstAfterPrefix(pre: string, v: Value, suf: string)
    requires Proper(v) && v.Group? && v.object_ && Braceless(pre)
    ensures FirstObjectAt(pre + Text(v) + suf, |pre|, |pre| + |Text(v)|)
    ensures (pre + Text(v) + suf)[|pre|..|pre| + |Text(v)|] == Text(v)
  {
    var s := pre + Text(v) + suf;
    assert s[|pre|..|pre| + |Text(v)|] == Text(v);
    ObjectTextCloses(Text(v));
    NoneBefore(s, 0, |pre|);
  }

  /** An answer that holds a JSON object after a text without an opening brace yields that object,
      printed as it stands, whatever follows. */
  lemma ExtractsTheObject(pre: string, v: Value, suf: string, r: string)
    requires Proper(v) && v.Group? && v.object_ && Braceless(pre)
    requires IsExtracted(pre + Text(v) + suf, r)
    ensures r == Text(v)
  {
    hide IsObject;
    var s := pre + Text(v) + suf;
    FirstAfterPrefix(pre, v, suf);
    assert IsFirstObject(s, Some(Text(v)));
    FirstIsDetermined(s, r, Text(v));
  }

  function Walk(m: Mode, s: string): Mode
    decreases |s|
  {
    if s == "" then m else Walk(Shift(m, s[0]), s[1..])
  }

  lemma {:induction false} TidyPrefix(m: Mode, pre: string, rest: string) returns (p: string)
    requires Walk(m, pre) == Outside && Braceless(pre)
    ensures Tidy(m, pre + rest) == p + Tidy(Outside, rest) && Braceless(p)
    decreases |pre|
  {
    if pre == "" {
      assert pre + rest == rest;
      p := "";
    } else {
      hide Tidy, Closes, Shift, Braceless, Walk;
      var c, more := pre[0], pre[1..];
      WalkOn(m, pre);
      BracelessSplits(pre);
      var q := TidyPrefix(Shift(m, c), more, rest);
      TidyOne(m, c, more + rest);
      BracelessJoins(c, q);
      assert pre == [c] + more;
      Reassociate([c], more, rest);
      Reassociate([c], q, Tidy(Outside, rest));
      p := if m == Outside && c == ',' && Closes(more + rest) then q else [c] + q;
    }
  }

  lemma WalkOn(m: Mode, s: string)
    requires s != ""
    ensures Walk(m, s) == Walk(Shift(m, s[0]), s[1..])
  {
  }

  lemma Reassociate(a: string, b: string, c: string)
    ensures (a + b) + c == a + (b + c)
  {
  }

  lemma BracelessSplits(s: string)
    requires Braceless(s) && s != ""
    ensures s[0] != '{' && Braceless(s[1..])
  {
  }

  lemma BracelessJoins(c: char, s: string)
    requires Braceless(s) && c != '{'
    ensures Braceless([c] + s)
  {
  }

  /** The repair: when the answer holds no JSON object, one with commas too many after a text
      without an opening brace or an open string comes out without them. */
  lemma RepairsTrailingCommas(pre: string, v: Value, suf: string, r: string)
    requires Good(v) && Nesting(v) <= MAX_NESTING && v.Group? && v.object_
    requires Walk(Outside, pre) == Outside && Braceless(pre)
    requires NoObject(pre + Text(v) + suf) && IsExtracted(pre + Text(v) + suf, r)
    ensures r == Text(Clean(v))
  {
    hide IsObject, Tidy, Good, Clean, Text, Walk;
    var s := pre + Text(v) + suf;
    assert s == pre + (Text(v) + suf);
    var p := TidyPrefix(Outside, pre, Text(v) + suf);
    TidyValue(v, suf);
    var t, w := Tidy(Outside, s), Clean(v);
    assert t == p + Text(w) + Tidy(Outside, suf);
    CleanObject(v);
    FirstAfterPrefix(p, w, Tidy(Outside, suf));
    assert IsFirstObject(t, Some(Text(w)));
    FirstIsDetermined(t, r, Text(w));
  }

  lemma CleanObject(v: Value)
    requires Good(v) && Nesting(v) <= MAX_NESTING && v.Group? && v.object_
    ensures Proper(Clean(v)) && Clean(v).Group? && Clean(v).object_
  {
  }
}
