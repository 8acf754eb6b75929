/** JSON texts (RFC 8259) as concrete syntax trees: every tree prints one text, with its white space.

    A container may end in a comma too many, which no JSON text has; the trees without one are
    exactly JSON. */
module Json {
  import opened Plan

  datatype Piece = Plain(c: char) | Escape(c: char) | Code(hex: string)

  datatype Exponent = Exponent(e: char, sign: string, digits: string)

  datatype Value =
    | Word(text: string)
    | Number(minus: bool, whole: string, fraction: string, exponent: Option<Exponent>)
    | Str(pieces: seq<Piece>)
    | Group(object_: bool, items: Items)

  /** The rest of a container, up to its closing bracket. */
  datatype Items =
    | End(comma: bool, pad: string)
    | More(before: string, key: Option<Key>, value: Value, after: string, rest: Items)

  datatype Key = Key(name: seq<Piece>, before: string, after: string)

  predicate Space(c: char) { c == ' ' || c == '\t' || c == '\r' || c == '\n' }

  predicate Spaces(s: string) { forall i | 0 <= i < |s| :: Space(s[i]) }

  predicate Digit(c: char) { '0' <= c <= '9' }

  predicate Digits(s: string) { s != "" && forall i | 0 <= i < |s| :: Digit(s[i]) }

  predicate Hex(c: char) { Digit(c) || 'a' <= c <= 'f' || 'A' <= c <= 'F' }

  // ---------------------------------------------------------------- well-formed trees

  predicate GoodPiece(p: Piece) {
    match p
    case Plain(c) => c >= ' ' && c != '\"' && c != '\\'
    case Escape(c) => c in "\"\\/bfnrt"
    case Code(hex) => |hex| == 4 && forall i | 0 <= i < 4 :: Hex(hex[i])
  }

  predicate GoodPieces(s: seq<Piece>) { forall i | 0 <= i < |s| :: GoodPiece(s[i]) }

  predicate Good(v: Value) {
    match v
    case Word(t) => t == "true" || t == "false" || t == "null"
    case Number(_, whole, fraction, exponent) =>
      && Digits(whole) && (whole[0] == '0' ==> |whole| == 1)
      && (fraction == "" || Digits(fraction))
      && (exponent.Some? ==>
            && exponent.value.e in "eE"
            && (exponent.value.sign == "" || exponent.value.sign == "+" || exponent.value.sign == "-")
            && Digits(exponent.value.digits))
    case Str(pieces) => GoodPieces(pieces)
    case Group(object_, items) => GoodItems(items, object_)
  }

  predicate GoodItems(b: Items, object_: bool) {
    match b
    case End(_, pad) => Spaces(pad)
    case More(before, key, value, after, rest) =>
      && Spaces(before) && Spaces(after) && Good(value) && GoodItems(rest, object_)
      && key.Some? == object_
      && (key.Some? ==> GoodPieces(key.value.name) && Spaces(key.value.before) && Spaces(key.value.after))
  }

  /** No comma too many. */
  predicate Strict(v: Value) { v.Group? ==> StrictItems(v.items) }

  predicate StrictItems(b: Items) {
    match b
    case End(comma, _) => !comma
    case More(_, _, value, _, rest) => Strict(value) && StrictItems(rest)
  }

  const MAX_NESTING := 10000

  function Nesting(v: Value): nat { if v.Group? then 1 + NestingOf(v.items) else 0 }

  function NestingOf(b: Items): nat {
    match b
    case End(_, _) => 0
    case More(_, _, value, _, rest) =>
      var n, m := Nesting(value), NestingOf(rest);
      if n > m then n else m
  }

  // ---------------------------------------------------------------- printing

  function PieceText(p: Piece): string {
    match p
    case Plain(c) => [c]
    case Escape(c) => ['\\', c]
    case Code(hex) => "\\u" + hex
  }

  function PiecesText(s: seq<Piece>): string { if s == [] then "" else PieceText(s[0]) + PiecesText(s[1..]) }

  function Quoted(s: seq<Piece>): string { "\"" + PiecesText(s) + "\"" }

  function NumberText(v: Value): string
    requires v.Number?
  {
    (if v.minus then "-" else "") + v.whole + (if v.fraction == "" then "" else "." + v.fraction)
    + (if v.exponent.None? then "" else [v.exponent.value.e] + v.exponent.value.sign + v.exponent.value.digits)
  }

  function Opener(object_: bool): char { if object_ then '{' else '[' }

  function Closer(object_: bool): char { if object_ then '}' else ']' }

  function Text(v: Value): string {
    match v
    case Word(t) => t
    case Number(_, _, _, _) => NumberText(v)
    case Str(pieces) => Quoted(pieces)
    case Group(object_, items) => [Opener(object_)] + Body(items, true) + [Closer(object_)]
  }

  function KeyText(key: Option<Key>): string {
    if key.None? then "" else Quoted(key.value.name) + key.value.before + ":" + key.value.after
  }

  function Body(b: Items, first: bool): string {
    match b
    case End(comma, pad) => (if comma then "," else "") + pad
    case More(before, key, value, after, rest) =>
      (if first then "" else ",") + (before + (KeyText(key) + (Text(value) + (after + Body(rest, false)))))
  }

  // ---------------------------------------------------------------- JSON texts

  predicate Proper(v: Value) { Good(v) && Strict(v) && Nesting(v) <= MAX_NESTING }

  /** A JSON text; deeper nesting than the limit is refused. */
  ghost predicate IsJson(t: string) {
    exists v, lead, trail :: Proper(v) && Spaces(lead) && Spaces(trail) && t == lead + Text(v) + trail
  }

  /** The text of a JSON object, from its opening to its closing brace. */
  ghost predicate IsObject(t: string) { exists v :: Proper(v) && v.Group? && v.object_ && t == Text(v) }

  /** The tree without its commas too many. */
  function Clean(v: Value): (w: Value)
    ensures Strict(w) && (Good(v) ==> Good(w)) && Nesting(w) == Nesting(v)
    ensures Strict(v) ==> w == v
  {
    if v.Group? then v.(items := CleanItems(v.items)) else v
  }

  function CleanItems(b: Items): (c: Items)
    ensures StrictItems(c) && NestingOf(c) == NestingOf(b)
    ensures forall object_ | GoodItems(b, object_) :: GoodItems(c, object_)
    ensures StrictItems(b) ==> c == b
  {
    match b
    case End(_, pad) => End(false, pad)
    case More(before, key, value, after, rest) => More(before, key, Clean(value), after, CleanItems(rest))
  }

  /** No value starts like the end of a container. */
  lemma ValueStarts(v: Value)
    requires Good(v)
    ensures Text(v) != "" && !Space(Text(v)[0]) && Text(v)[0] != '}' && Text(v)[0] != ']'
    ensures Text(v)[0] == '{' <==> v.Group? && v.object_
  {
    match v
    case Word(t) =>
    case Number(minus, whole, _, _) => assert Text(v)[0] == if minus then '-' else whole[0];
    case Str(_) => assert Text(v)[0] == '\"';
    case Group(object_, _) => assert Text(v)[0] == Opener(object_);
  }

  lemma SpaceAtEitherEnd(lead: string, t: string, trail: string)
    requires Spaces(lead) && Spaces(trail) && t != ""
    ensures lead != "" ==> Space((lead + t + trail)[0])
    ensures trail != "" ==> Space((lead + t + trail)[|lead + t + trail| - 1])
  {
    var all := lead + t + trail;
    if lead != "" { assert all[0] == lead[0]; }
    if trail != "" { assert all[|all| - 1] == trail[|trail| - 1]; }
  }

  /** A JSON text from a brace to a brace is an object. */
  lemma BracedIsObject(t: string)
    requires IsJson(t) && t != "" && t[0] == '{' && t[|t| - 1] == '}'
    ensures IsObject(t)
  {
    var v, lead, trail :| Proper(v) && Spaces(lead) && Spaces(trail) && t == lead + Text(v) + trail;
    ValueStarts(v);
    SpaceAtEitherEnd(lead, Text(v), trail);
    assert t == Text(v);
  }

  lemma ObjectIsJson(t: string)
    requires IsObject(t)
    ensures IsJson(t)
  {
    var v :| Proper(v) && v.Group? && v.object_ && t == Text(v);
    assert Spaces("") && t == "" + Text(v) + "";
  }
}
