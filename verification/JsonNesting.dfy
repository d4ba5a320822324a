/**
 The one-pass bound on JSON nesting, against the grammar of RFC 8259: for every text of the grammar the
 scanner accepts exactly when the containers nest no deeper than the bound.
 */
module JsonNesting {
  import opened Options

  const MAX_DEPTH := 64

  // ---- The scanner -----------------------------------------------------------------------

  datatype Scan = At(depth: nat, inString: bool, escaped: bool) | TooDeep

  const START: Scan := At(0, false, false)

  function Feed(scan: Scan, c: char): Scan {
    match scan
    case TooDeep => TooDeep
    case At(depth, inString, escaped) =>
      if inString then
        if escaped then At(depth, true, false)
        else if c == '\\' then At(depth, true, true)
        else if c == '"' then At(depth, false, false)
        else scan
      else if c == '"' then At(depth, true, escaped)
      else if c == '[' || c == '{' then (if depth + 1 > MAX_DEPTH then TooDeep else At(depth + 1, false, escaped))
      else if c == ']' || c == '}' then At(if depth > 0 then depth - 1 else 0, false, escaped)
      else scan
  }

  function Feeds(scan: Scan, text: string): Scan
    decreases |text|
  {
    if text == [] then scan else Feeds(Feed(scan, text[0]), text[1..])
  }

  predicate Accepts(text: string) {
    Feeds(START, text) != TooDeep
  }

  lemma {:induction false} DeepStaysDeep(text: string)
    ensures Feeds(TooDeep, text) == TooDeep
  {
    if text != [] { DeepStaysDeep(text[1..]); }
  }

  /** _validate_json_nesting; false where the service raises ValueError. */
  method ValidateJsonNesting(value: string) returns (ok: bool)
    ensures ok <==> Accepts(value)
  {
    var depth: nat, inString, escaped := 0, false, false;
    assert value[0..] == value;
    for i := 0 to |value|
      invariant Feeds(At(depth, inString, escaped), value[i..]) == Feeds(START, value)
    {
      var character := value[i];
      assert value[i..][1..] == value[i + 1..];
      if inString {
        if escaped {
          escaped := false;
        } else if character == '\\' {
          escaped := true;
        } else if character == '"' {
          inString := false;
        }
        continue;
      }
      if character == '"' {
        inString := true;
      } else if character == '[' || character == '{' {
        depth := depth + 1;
        if depth > MAX_DEPTH {
          DeepStaysDeep(value[i + 1..]);
          return false;
        }
      } else if character == ']' || character == '}' {
        depth := if depth > 0 then depth - 1 else 0;
      }
    }
    ok := true;
  }

  // ---- The grammar, sections 2 to 7 of RFC 8259 -----------------------------------------------

  datatype Piece = Unescaped(c: char) | Escape(c: char) | Unicode(hex: string)
  datatype Exponent = Exponent(marker: char, sign: string, digits: string)
  datatype Value =
    | Name(text: string)
    | Number(minus: bool, whole: string, fraction: string, exponent: Option<Exponent>)
    | Text(pieces: seq<Piece>)
    | Array(space: string, elements: Elements)
    | Object(space: string, members: Members)
  datatype Elements = NoElement | Element(before: string, value: Value, after: string, rest: Elements)
  datatype Members =
    | NoMember
    | Member(before: string, name: seq<Piece>, beforeColon: string, afterColon: string, value: Value, after: string,
             rest: Members)

  predicate Space(s: string) {
    forall c :: c in s ==> c == ' ' || c == '\t' || c == '\n' || c == '\r'
  }

  predicate Digits(s: string) {
    forall c :: c in s ==> '0' <= c <= '9'
  }

  predicate Hex(s: string) {
    |s| == 4 && forall c :: c in s ==> '0' <= c <= '9' || 'a' <= c <= 'f' || 'A' <= c <= 'F'
  }

  predicate GoodPiece(piece: Piece) {
    match piece
    case Unescaped(c) => c >= '\U{0020}' && c != '"' && c != '\\'
    case Escape(c) => c in "\"\\/bfnrt"
    case Unicode(hex) => Hex(hex)
  }

  predicate GoodText(pieces: seq<Piece>) {
    forall piece :: piece in pieces ==> GoodPiece(piece)
  }

  predicate GoodExponent(exponent: Option<Exponent>) {
    exponent.Some? ==>
      && (exponent.value.marker == 'e' || exponent.value.marker == 'E')
      && exponent.value.sign in {"", "+", "-"} && exponent.value.digits != [] && Digits(exponent.value.digits)
  }

  predicate Good(value: Value) {
    match value
    case Name(text) => text in {"true", "false", "null"}
    case Number(_, whole, fraction, exponent) =>
      && whole != [] && Digits(whole) && (whole[0] == '0' ==> |whole| == 1)
      && Digits(fraction) && GoodExponent(exponent)
    case Text(pieces) => GoodText(pieces)
    case Array(space, elements) => Space(space) && GoodElements(elements)
    case Object(space, members) => Space(space) && GoodMembers(members)
  }

  predicate GoodElements(elements: Elements) {
    match elements
    case NoElement => true
    case Element(before, value, after, rest) => Space(before) && Good(value) && Space(after) && GoodElements(rest)
  }

  predicate GoodMembers(members: Members) {
    match members
    case NoMember => true
    case Member(before, name, beforeColon, afterColon, value, after, rest) =>
      && Space(before) && GoodText(name) && Space(beforeColon) && Space(afterColon) && Good(value) && Space(after)
      && GoodMembers(rest)
  }

  function RenderPiece(piece: Piece): string {
    match piece
    case Unescaped(c) => [c]
    case Escape(c) => ['\\', c]
    case Unicode(hex) => ['\\', 'u'] + hex
  }

  function RenderPieces(pieces: seq<Piece>): string {
    if pieces == [] then [] else RenderPiece(pieces[0]) + RenderPieces(pieces[1..])
  }

  function RenderText(pieces: seq<Piece>): string {
    "\"" + RenderPieces(pieces) + "\""
  }

  function RenderExponent(exponent: Option<Exponent>): string {
    if exponent.None? then [] else [exponent.value.marker] + exponent.value.sign + exponent.value.digits
  }

  function RenderFraction(fraction: string): string {
    if fraction == [] then [] else "." + fraction
  }

  function Render(value: Value): string {
    match value
    case Name(text) => text
    case Number(minus, whole, fraction, exponent) =>
      (if minus then "-" else "") + whole + RenderFraction(fraction) + RenderExponent(exponent)
    case Text(pieces) => RenderText(pieces)
    case Array(space, elements) => "[" + space + RenderElements(elements, "") + "]"
    case Object(space, members) => "{" + space + RenderMembers(members, "") + "}"
  }

  /** Elements separated by commas; the first has none before it. */
  function RenderElements(elements: Elements, separator: string): string {
    match elements
    case NoElement => []
    case Element(before, value, after, rest) =>
      separator + before + Render(value) + after + RenderElements(rest, ",")
  }

  function RenderMembers(members: Members, separator: string): string {
    match members
    case NoMember => []
    case Member(before, name, beforeColon, afterColon, value, after, rest) =>
      separator + before + RenderText(name) + beforeColon + ":" + afterColon + Render(value) + after
      + RenderMembers(rest, ",")
  }

  function Max(a: nat, b: nat): nat {
    if a < b then b else a
  }

  /** How deep the containers of a value nest. */
  function Depth(value: Value): nat {
    match value
    case Name(_) => 0
    case Number(_, _, _, _) => 0
    case Text(_) => 0
    case Array(_, elements) => 1 + ElementsDepth(elements)
    case Object(_, members) => 1 + MembersDepth(members)
  }

  function ElementsDepth(elements: Elements): nat {
    match elements
    case NoElement => 0
    case Element(_, value, _, rest) => Max(Depth(value), ElementsDepth(rest))
  }

  function MembersDepth(members: Members): nat {
    match members
    case NoMember => 0
    case Member(_, _, _, _, value, _, rest) => Max(Depth(value), MembersDepth(rest))
  }

  // ---- The scanner refines the structure -------------------------------------------------------

  lemma {:induction false} FeedsJoin(scan: Scan, left: string, right: string)
    ensures Feeds(scan, left + right) == Feeds(Feeds(scan, left), right)
    decreases |left|
  {
    if left == [] {
      assert left + right == right;
    } else {
      FeedsJoin(Feed(scan, left[0]), left[1..], right);
      assert (left + right)[1..] == left[1..] + right;
    }
  }

  predicate Quiet(s: string) {
    forall c :: c in s ==> c !in "\"[]{}"
  }

  /** The scanner between tokens. */
  function Between(depth: nat): Scan {
    At(depth, false, false)
  }

  lemma {:induction false} QuietFeeds(depth: nat, s: string)
    requires Quiet(s)
    ensures Feeds(Between(depth), s) == Between(depth)
  {
    if s != [] {
      assert s[0] in s;
      QuietFeeds(depth, s[1..]);
    }
  }

  lemma {:induction false} InsideFeeds(depth: nat, s: string)
    requires forall c :: c in s ==> c != '"' && c != '\\'
    ensures Feeds(At(depth, true, false), s) == At(depth, true, false)
  {
    if s != [] {
      assert s[0] in s && forall c :: c in s[1..] ==> c in s;
      InsideFeeds(depth, s[1..]);
    }
  }

  lemma EscapedFeeds(depth: nat, c: char)
    ensures Feeds(At(depth, true, false), ['\\', c]) == At(depth, true, false)
  {
    assert ['\\', c][1..] == [c];
    assert Feeds(At(depth, true, true), [c]) == Feeds(At(depth, true, false), [c][1..]);
  }

  lemma PieceFeeds(depth: nat, piece: Piece)
    requires GoodPiece(piece)
    ensures Feeds(At(depth, true, false), RenderPiece(piece)) == At(depth, true, false)
  {
    match piece {
      case Unescaped(c) => InsideFeeds(depth, [c]);
      case Escape(c) => EscapedFeeds(depth, c);
      case Unicode(hex) =>
        FeedsJoin(At(depth, true, false), ['\\', 'u'], hex);
        EscapedFeeds(depth, 'u');
        InsideFeeds(depth, hex);
    }
  }

  lemma {:induction false} PiecesFeed(depth: nat, pieces: seq<Piece>)
    requires GoodText(pieces)
    ensures Feeds(At(depth, true, false), RenderPieces(pieces)) == At(depth, true, false)
  {
    if pieces != [] {
      assert pieces[0] in pieces;
      FeedsJoin(At(depth, true, false), RenderPiece(pieces[0]), RenderPieces(pieces[1..]));
      PieceFeeds(depth, pieces[0]);
      PiecesFeed(depth, pieces[1..]);
    }
  }

  /** A string leaves the scanner where it was, whatever brackets, quotes and escapes it holds. */
  lemma TextFeeds(depth: nat, pieces: seq<Piece>)
    requires GoodText(pieces)
    ensures Feeds(Between(depth), RenderText(pieces)) == Between(depth)
  {
    FeedsJoin(Between(depth), "\"", RenderPieces(pieces) + "\"");
    FeedsJoin(At(depth, true, false), RenderPieces(pieces), "\"");
    PiecesFeed(depth, pieces);
    assert "\""[1..] == [];
    assert RenderText(pieces) == "\"" + (RenderPieces(pieces) + "\"");
  }

  lemma QuietJoins(left: string, right: string)
    requires Quiet(left) && Quiet(right)
    ensures Quiet(left + right)
  {
  }

  lemma DigitsAreQuiet(s: string)
    requires Digits(s)
    ensures Quiet(s)
  {
  }

  lemma FractionIsQuiet(fraction: string)
    requires Digits(fraction)
    ensures Quiet(RenderFraction(fraction))
  {
    DigitsAreQuiet(fraction);
    QuietJoins(".", fraction);
  }

  lemma ExponentIsQuiet(exponent: Option<Exponent>)
    requires GoodExponent(exponent)
    ensures Quiet(RenderExponent(exponent))
  {
    if exponent.Some? {
      var e := exponent.value;
      DigitsAreQuiet(e.digits);
      assert Quiet([e.marker]) && Quiet(e.sign);
      QuietJoins([e.marker], e.sign);
      QuietJoins([e.marker] + e.sign, e.digits);
    }
  }

  lemma NumberIsQuiet(value: Value)
    requires value.Number? && Good(value)
    ensures Quiet(Render(value))
  {
    var sign := if value.minus then "-" else "";
    DigitsAreQuiet(value.whole);
    FractionIsQuiet(value.fraction);
    ExponentIsQuiet(value.exponent);
    QuietJoins(sign, value.whole);
    QuietJoins(sign + value.whole, RenderFraction(value.fraction));
    QuietJoins(sign + value.whole + RenderFraction(value.fraction), RenderExponent(value.exponent));
  }

  lemma ScalarFeeds(depth: nat, value: Value)
    requires Good(value) && !value.Array? && !value.Object?
    ensures Feeds(Between(depth), Render(value)) == Between(depth) && Depth(value) == 0
  {
    if value.Name? {
      QuietFeeds(depth, value.text);
    } else if value.Number? {
      NumberIsQuiet(value);
      QuietFeeds(depth, Render(value));
    } else {
      TextFeeds(depth, value.pieces);
    }
  }

  /** Where the scanner stands after a part of the given depth. */
  function After(depth: nat, inner: nat): Scan {
    if depth + inner <= MAX_DEPTH then Between(depth) else TooDeep
  }

  /** Spaces around a part do not matter. */
  lemma PaddedFeeds(depth: nat, before: string, part: string, after: string, inner: nat)
    requires Quiet(before) && Quiet(after) && Feeds(Between(depth), part) == After(depth, inner)
    ensures Feeds(Between(depth), before + part + after) == After(depth, inner)
  {
    FeedsJoin(Between(depth), before + part, after);
    FeedsJoin(Between(depth), before, part);
    QuietFeeds(depth, before);
    QuietFeeds(depth, after);
    DeepStaysDeep(after);
  }

  lemma SequenceFeeds(depth: nat, first: string, second: string, a: nat, b: nat)
    requires Feeds(Between(depth), first) == After(depth, a) && Feeds(Between(depth), second) == After(depth, b)
    ensures Feeds(Between(depth), first + second) == After(depth, Max(a, b))
  {
    FeedsJoin(Between(depth), first, second);
    DeepStaysDeep(second);
  }

  lemma ContainerFeeds(depth: nat, left: string, space: string, body: string, right: string, inner: nat)
    requires depth <= MAX_DEPTH && ((left == "[" && right == "]") || (left == "{" && right == "}")) && Quiet(space)
    requires depth < MAX_DEPTH ==> Feeds(Between(depth + 1), body) == After(depth + 1, inner)
    ensures Feeds(Between(depth), left + space + body + right) == After(depth, 1 + inner)
  {
    var rest := space + body + right;
    assert left + space + body + right == left + rest;
    FeedsJoin(Between(depth), left, rest);
    assert left[1..] == [] && right[1..] == [];
    if depth == MAX_DEPTH {
      DeepStaysDeep(rest);
    } else {
      FeedsJoin(Between(depth + 1), space + body, right);
      FeedsJoin(Between(depth + 1), space, body);
      QuietFeeds(depth + 1, space);
      DeepStaysDeep(right);
    }
  }

  lemma {:induction false} ValueFeeds(depth: nat, value: Value)
    requires depth <= MAX_DEPTH && Good(value)
    ensures Feeds(Between(depth), Render(value)) == After(depth, Depth(value))
    decreases value
  {
    if value.Array? {
      if depth < MAX_DEPTH { ElementsFeed(depth + 1, value.elements, ""); }
      ContainerFeeds(depth, "[", value.space, RenderElements(value.elements, ""), "]", ElementsDepth(value.elements));
    } else if value.Object? {
      if depth < MAX_DEPTH { MembersFeed(depth + 1, value.members, ""); }
      ContainerFeeds(depth, "{", value.space, RenderMembers(value.members, ""), "}", MembersDepth(value.members));
    } else {
      ScalarFeeds(depth, value);
    }
  }

  lemma {:induction false} ElementsFeed(depth: nat, elements: Elements, separator: string)
    requires depth <= MAX_DEPTH && GoodElements(elements) && Quiet(separator)
    ensures Feeds(Between(depth), RenderElements(elements, separator)) == After(depth, ElementsDepth(elements))
    decreases elements
  {
    match elements {
      case NoElement =>
      case Element(before, value, after, rest) =>
        ValueFeeds(depth, value);
        PaddedFeeds(depth, separator + before, Render(value), after, Depth(value));
        ElementsFeed(depth, rest, ",");
        SequenceFeeds(depth, separator + before + Render(value) + after, RenderElements(rest, ","),
                      Depth(value), ElementsDepth(rest));
    }
  }

  lemma NameFeeds(depth: nat, before: string, name: seq<Piece>, beforeColon: string, afterColon: string)
    requires depth <= MAX_DEPTH && Quiet(before) && GoodText(name) && Space(beforeColon) && Space(afterColon)
    ensures Feeds(Between(depth), before + RenderText(name) + (beforeColon + ":" + afterColon)) == Between(depth)
  {
    TextFeeds(depth, name);
    PaddedFeeds(depth, before, RenderText(name), beforeColon + ":" + afterColon, 0);
  }

  lemma MemberFeeds(depth: nat, key: string, value: string, after: string, rest: string, inner: nat, others: nat)
    requires Feeds(Between(depth), key) == Between(depth) && Quiet(after) && depth <= MAX_DEPTH
    requires Feeds(Between(depth), value) == After(depth, inner) && Feeds(Between(depth), rest) == After(depth, others)
    ensures Feeds(Between(depth), key + value + after + rest) == After(depth, Max(inner, others))
  {
    PaddedFeeds(depth, [], value, after, inner);
    assert [] + value + after == value + after;
    SequenceFeeds(depth, value + after, rest, inner, others);
    FeedsJoin(Between(depth), key, value + after + rest);
    assert key + (value + after + rest) == key + value + after + rest;
  }

  lemma {:induction false} MembersFeed(depth: nat, members: Members, separator: string)
    requires depth <= MAX_DEPTH && GoodMembers(members) && Quiet(separator)
    ensures Feeds(Between(depth), RenderMembers(members, separator)) == After(depth, MembersDepth(members))
    decreases members
  {
    if members.Member? {
      var colon := members.beforeColon + ":" + members.afterColon;
      var key := separator + members.before + RenderText(members.name) + colon;
      NameFeeds(depth, separator + members.before, members.name, members.beforeColon, members.afterColon);
      ValueFeeds(depth, members.value);
      MembersFeed(depth, members.rest, ",");
      MemberFeeds(depth, key, Render(members.value), members.after, RenderMembers(members.rest, ","),
                  Depth(members.value), MembersDepth(members.rest));
      MemberText(members, separator);
    }
  }

  lemma MemberText(members: Members, separator: string)
    requires members.Member?
    ensures RenderMembers(members, separator) ==
              separator + members.before + RenderText(members.name) + (members.beforeColon + ":" + members.afterColon)
              + Render(members.value) + members.after + RenderMembers(members.rest, ",")
  {
    var colon := members.beforeColon + ":" + members.afterColon;
    var start := separator + members.before + RenderText(members.name);
    assert start + members.beforeColon + ":" + members.afterColon == start + colon;
  }

  /** For every JSON text, the scan accepts exactly when the value nests at most 64 containers deep. */
  lemma ScanDecidesDepth(before: string, value: Value, after: string)
    requires Space(before) && Good(value) && Space(after)
    ensures Accepts(before + Render(value) + after) <==> Depth(value) <= MAX_DEPTH
  {
    ValueFeeds(0, value);
    PaddedFeeds(0, before, Render(value), after, Depth(value));
  }
}
