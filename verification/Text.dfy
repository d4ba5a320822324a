/** The Python string operations the parsers rely on. */
module Text {
  /** str.isspace for one character. */
  predicate IsSpace(c: char) {
    || '\U{0009}' <= c <= '\U{000D}' || '\U{001C}' <= c <= '\U{0020}' || c == '\U{0085}' || c == '\U{00A0}'
    || c == '\U{1680}' || '\U{2000}' <= c <= '\U{200A}' || c == '\U{2028}' || c == '\U{2029}'
    || c == '\U{202F}' || c == '\U{205F}' || c == '\U{3000}'
  }

  function StripLeft(s: string): (r: string)
    ensures |r| <= |s|
    ensures r == [] || !IsSpace(r[0])
  {
    if s != [] && IsSpace(s[0]) then StripLeft(s[1..]) else s
  }

  function StripRight(s: string): (r: string)
    ensures r <= s
    ensures r == [] || !IsSpace(r[|r| - 1])
    ensures s != [] && !IsSpace(s[0]) ==> r != []
  {
    if s != [] && IsSpace(s[|s| - 1]) then StripRight(s[..|s| - 1]) else s
  }

  /** str.strip */
  function Strip(s: string): (r: string)
    ensures r == [] || (!IsSpace(r[0]) && !IsSpace(r[|r| - 1]))
  {
    StripRight(StripLeft(s))
  }

  lemma StripIsIdentity(s: string)
    requires s == [] || (!IsSpace(s[0]) && !IsSpace(s[|s| - 1]))
    ensures Strip(s) == s
  {
  }

  /** str.rstrip("/") */
  function TrimSlashes(s: string): (r: string)
    ensures r <= s
    ensures r == [] || r[|r| - 1] != '/'
    ensures forall i :: |r| <= i < |s| ==> s[i] == '/'
  {
    if s != [] && s[|s| - 1] == '/' then TrimSlashes(s[..|s| - 1]) else s
  }

  /** str.split("/") */
  function Segments(s: string): (r: seq<string>)
    ensures |r| >= 1
  {
    if s == [] then [[]]
    else
      var rest := Segments(s[1..]);
      if s[0] == '/' then [[]] + rest else [[s[0]] + rest[0]] + rest[1..]
  }

  /** The line boundaries of str.splitlines. */
  predicate IsBreak(c: char) {
    || '\U{000A}' <= c <= '\U{000D}' || '\U{001C}' <= c <= '\U{001E}'
    || c == '\U{0085}' || c == '\U{2028}' || c == '\U{2029}'
  }

  function FirstBreak(s: string): (k: nat)
    ensures k <= |s| && (k < |s| ==> IsBreak(s[k]))
    ensures forall i :: 0 <= i < k ==> !IsBreak(s[i])
  {
    if s == [] || IsBreak(s[0]) then 0
    else
      assert forall i :: 0 <= i < |s| - 1 ==> s[1..][i] == s[i + 1];
      1 + FirstBreak(s[1..])
  }

  /** str.splitlines: a carriage return and line feed are one boundary, and a final boundary adds no line. */
  function SplitLines(s: string): seq<string>
    decreases |s|
  {
    if s == [] then []
    else
      var k := FirstBreak(s);
      if k == |s| then [s]
      else
        var width := if s[k] == '\r' && k + 1 < |s| && s[k + 1] == '\n' then 2 else 1;
        [s[..k]] + SplitLines(s[k + width..])
  }

  function Utf8Width(c: char): nat {
    if c < '\U{0080}' then 1 else if c < '\U{0800}' then 2 else if c < '\U{10000}' then 3 else 4
  }

  /** len(s.encode("utf-8")) */
  function Utf8Length(s: string): nat {
    if s == [] then 0 else Utf8Width(s[0]) + Utf8Length(s[1..])
  }

  lemma {:induction false} Utf8Bound(s: string)
    ensures Utf8Length(s) <= 4 * |s|
  {
    if s != [] { Utf8Bound(s[1..]); }
  }

  // ---- What these operations are ---------------------------------------------------------------

  const SPACES :=
    "\t\n\U{000B}\U{000C}\r\U{001C}\U{001D}\U{001E}\U{001F} \U{0085}\U{00A0}\U{1680}"
    + "\U{2000}\U{2001}\U{2002}\U{2003}\U{2004}\U{2005}\U{2006}\U{2007}\U{2008}\U{2009}\U{200A}"
    + "\U{2028}\U{2029}\U{202F}\U{205F}\U{3000}"
  const BREAKS := "\n\U{000B}\U{000C}\r\U{001C}\U{001D}\U{001E}\U{0085}\U{2028}\U{2029}"

  /** Exactly the characters Python takes for white space, and those it breaks lines at. */
  lemma SpacesAndBreaks(c: char)
    ensures IsSpace(c) <==> c in SPACES
    ensures IsBreak(c) <==> c in BREAKS
  {
  }

  lemma {:induction false} StripLeftExactly(s: string)
    ensures |StripLeft(s)| <= |s| && s[|s| - |StripLeft(s)|..] == StripLeft(s)
    ensures forall i :: 0 <= i < |s| - |StripLeft(s)| ==> IsSpace(s[i])
  {
    if s != [] && IsSpace(s[0]) { StripLeftExactly(s[1..]); }
  }

  lemma {:induction false} StripRightExactly(s: string)
    ensures StripRight(s) <= s
    ensures forall i :: |StripRight(s)| <= i < |s| ==> IsSpace(s[i])
  {
    if s != [] && IsSpace(s[|s| - 1]) { StripRightExactly(s[..|s| - 1]); }
  }

  /** Only white space is stripped, from both ends. */
  lemma StripExactly(s: string) returns (from: nat)
    ensures from + |Strip(s)| <= |s| && s[from..from + |Strip(s)|] == Strip(s)
    ensures forall i :: 0 <= i < |s| && !(from <= i < from + |Strip(s)|) ==> IsSpace(s[i])
  {
    StripLeftExactly(s);
    StripRightExactly(StripLeft(s));
    from := |s| - |StripLeft(s)|;
    assert forall i :: from <= i < |s| ==> s[i] == StripLeft(s)[i - from];
  }

  /** A line ends at its first boundary; a carriage return and the line feed after it are one. */
  lemma LinesSplitExactly(line: string, boundary: string, rest: string)
    requires forall i :: 0 <= i < |line| ==> !IsBreak(line[i])
    requires boundary == "\r\n" || (|boundary| == 1 && IsBreak(boundary[0]))
    requires boundary == "\r" ==> rest == [] || rest[0] != '\n'
    ensures SplitLines(line + boundary + rest) == [line] + SplitLines(rest)
  {
    var s := line + boundary + rest;
    assert s[|line|] == boundary[0] && forall i :: 0 <= i < |line| ==> s[i] == line[i];
    assert FirstBreak(s) == |line|;
    assert s[..|line|] == line && s[|line| + |boundary|..] == rest;
    if |line| + 1 < |s| { assert s[|line| + 1] == (boundary + rest)[1]; }
  }

  /** The characters that fit in one to four bytes. */
  const CAPACITY: seq<int> := [0, 128, 2048, 65536, 1114112]

  /** A character takes the fewest bytes it fits in, and a text as many as its characters. */
  lemma {:induction false} Utf8Exactly(c: char, s: string, t: string)
    ensures 1 <= Utf8Width(c) <= 4 && CAPACITY[Utf8Width(c) - 1] <= c as int < CAPACITY[Utf8Width(c)]
    ensures Utf8Length([c]) == Utf8Width(c) && Utf8Length(s + t) == Utf8Length(s) + Utf8Length(t)
    decreases |s|
  {
    assert [c][1..] == [];
    if s == [] {
      assert s + t == t;
    } else {
      assert (s + t)[1..] == s[1..] + t;
      Utf8Exactly(c, s[1..], t);
    }
  }
}
