/**
 CODEOWNERS path patterns: the glob-to-regex compiler, the meaning of the regular
 expressions it emits, and a direct recursive matcher that it agrees with.
 */
module Patterns {
  import opened Options
  import opened Text

  // ---- Validation -----------------------------------------------------------------

  function WithoutAnchor(value: string): string {
    if value != [] && value[0] == '/' then value[1..] else value
  }

  predicate GoodSegment(segment: string) {
    segment != "" && segment != "." && segment != ".."
  }

  predicate ValidCore(core: string) {
    && core != []
    && forall segment :: segment in Segments(TrimSlashes(core)) ==> GoodSegment(segment)
  }

  /** validate_pattern: the stripped pattern, or None where the service raises ValueError. */
  function ValidatePattern(pattern: string): (r: Option<string>)
    ensures r.Some? ==> r.value == Strip(pattern) && r.value != []
  {
    var value := Strip(pattern);
    if value == [] || value[0] == '!' || '[' in value || ']' in value || '\\' in value || value[0] == '#'
       || !ValidCore(WithoutAnchor(value))
    then None else Some(value)
  }

  /** s[i..j] is what stands between two slashes or ends. */
  predicate SegmentOf(s: string, i: int, j: int) {
    0 <= i <= j <= |s| && (i == 0 || s[i - 1] == '/') && (j == |s| || s[j] == '/') && '/' !in s[i..j]
  }

  lemma {:induction false} OneSegment(s: string)
    requires '/' !in s
    ensures Segments(s) == [s]
  {
    if s != [] {
      assert s[0] in s && forall c :: c in s[1..] ==> c in s;
      OneSegment(s[1..]);
      assert [s[0]] + s[1..] == s;
    }
  }

  lemma {:induction false} SegmentsJoin(first: string, rest: string)
    requires '/' !in first
    ensures Segments(first + "/" + rest) == [first] + Segments(rest)
  {
    var s := first + "/" + rest;
    if first == [] {
      assert s[1..] == rest;
    } else {
      assert first[0] in first && forall c :: c in first[1..] ==> c in first;
      assert s[1..] == first[1..] + "/" + rest;
      SegmentsJoin(first[1..], rest);
      assert [first[0]] + first[1..] == first;
    }
  }

  function FirstSlash(s: string): (k: nat)
    requires '/' in s
    ensures k < |s| && s[k] == '/' && '/' !in s[..k]
  {
    if s[0] == '/' then 0
    else
      assert s == [s[0]] + s[1..];
      var k := 1 + FirstSlash(s[1..]);
      assert s[..k] == [s[0]] + s[1..][..k - 1];
      k
  }

  ghost predicate GoodBetweenSlashes(s: string) {
    forall i, j :: SegmentOf(s, i, j) ==> GoodSegment(s[i..j])
  }

  lemma ShiftSegment(s: string, k: nat, i: int, j: int)
    requires k < |s| && s[k] == '/' && i >= k + 1
    ensures SegmentOf(s, i, j) <==> SegmentOf(s[k + 1..], i - k - 1, j - k - 1)
    ensures SegmentOf(s, i, j) ==> s[i..j] == s[k + 1..][i - k - 1..j - k - 1]
  {
    if i <= j <= |s| { assert s[i..j] == s[k + 1..][i - k - 1..j - k - 1]; }
  }

  /** Splitting at slashes yields exactly what stands between them. */
  lemma {:induction false} SegmentsAreBetweenSlashes(s: string)
    ensures (forall segment :: segment in Segments(s) ==> GoodSegment(segment)) <==> GoodBetweenSlashes(s)
    decreases |s|
  {
    if '/' !in s {
      OneSegment(s);
      assert SegmentOf(s, 0, |s|) && s[0..|s|] == s;
      assert forall k :: 0 <= k < |s| ==> s[k] in s;
      assert forall i, j :: SegmentOf(s, i, j) ==> i == 0 && j == |s|;
    } else {
      var k := FirstSlash(s);
      var first, rest := s[..k], s[k + 1..];
      assert s == first + "/" + rest;
      SegmentsJoin(first, rest);
      SegmentsAreBetweenSlashes(rest);
      assert SegmentOf(s, 0, k) && s[0..k] == first;
      BetweenSlashesSplits(s, k);
    }
  }

  lemma NoSlashInside(s: string, i: int, j: int)
    requires SegmentOf(s, i, j)
    ensures forall m :: i <= m < j ==> s[m] != '/'
  {
    forall m | i <= m < j ensures s[m] != '/' { assert s[i..j][m - i] == s[m]; }
  }

  lemma BetweenSlashesSplits(s: string, k: nat)
    requires k < |s| && s[k] == '/' && '/' !in s[..k]
    ensures GoodBetweenSlashes(s) <==> GoodSegment(s[..k]) && GoodBetweenSlashes(s[k + 1..])
  {
    var rest := s[k + 1..];
    assert SegmentOf(s, 0, k) && s[0..k] == s[..k];
    if GoodSegment(s[..k]) && GoodBetweenSlashes(rest) {
      forall i, j | SegmentOf(s, i, j) ensures GoodSegment(s[i..j]) {
        if i <= k {
          NoSlashInside(s, i, j);
          NoSlashInside(s, 0, k);
          assert i == 0 && j == k;
        } else {
          ShiftSegment(s, k, i, j);
        }
      }
    }
    if GoodBetweenSlashes(s) {
      forall i, j | SegmentOf(rest, i, j) ensures GoodSegment(rest[i..j]) {
        ShiftSegment(s, k, i + k + 1, j + k + 1);
      }
    }
  }

  /**
   Exactly the accepted patterns: stripped, non-empty text that begins with neither `!` nor `#`, holds no bracket
   and no backslash, and below its anchor and trailing slashes has no empty, `.` or `..` segment.
   */
  lemma AcceptedPatterns(pattern: string)
    ensures ValidatePattern(pattern).Some? <==>
              var value := Strip(pattern);
              && value != [] && value[0] != '!' && value[0] != '#'
              && '[' !in value && ']' !in value && '\\' !in value
              && WithoutAnchor(value) != [] && GoodBetweenSlashes(TrimSlashes(WithoutAnchor(value)))
  {
    SegmentsAreBetweenSlashes(TrimSlashes(WithoutAnchor(Strip(pattern))));
  }

  // ---- Regular expressions ----------------------------------------------------------

  datatype Re = Empty | Chr(c: char) | Dot | NotSlash | Star(body: Re) | Opt(body: Re) | Cat(left: Re, right: Re)

  /** s is in the language of r, as re.fullmatch decides it without DOTALL. */
  ghost predicate Matches(r: Re, s: string)
    decreases r, |s|
  {
    match r
    case Empty => s == []
    case Chr(c) => s == [c]
    case Dot => |s| == 1 && s[0] != '\n'
    case NotSlash => |s| == 1 && s[0] != '/'
    case Star(body) => s == [] || exists i :: 0 < i <= |s| && Matches(body, s[..i]) && Matches(r, s[i..])
    case Opt(body) => s == [] || Matches(body, s)
    case Cat(left, right) => exists i :: 0 <= i <= |s| && Matches(left, s[..i]) && Matches(right, s[i..])
  }

  function Concat(rs: seq<Re>): Re {
    if rs == [] then Empty else Cat(rs[0], Concat(rs[1..]))
  }

  const ANY: Re := Star(Dot)
  const ANY_DIRS: Re := Opt(Cat(Star(Dot), Chr('/')))
  const BELOW: Re := Opt(Cat(Chr('/'), Star(Dot)))

  // ---- The compiler -------------------------------------------------------------------

  function DropStars(s: string): (r: string)
    ensures |r| <= |s|
    ensures r == [] || r[0] != '*'
    ensures s != [] && s[0] == '*' ==> |r| < |s|
  {
    if s != [] && s[0] == '*' then DropStars(s[1..]) else s
  }

  /** The tokens emitted for the rest of a pattern. */
  function Tokens(value: string): seq<Re>
    decreases |value|
  {
    if value == [] then []
    else if value[0] == '*' then
      if |value| > 1 && value[1] == '*' then
        var rest := DropStars(value);
        if rest != [] && rest[0] == '/' then [ANY_DIRS] + Tokens(rest[1..]) else [ANY] + Tokens(rest)
      else [Star(NotSlash)] + Tokens(value[1..])
    else if value[0] == '?' then [NotSlash] + Tokens(value[1..])
    else [Chr(value[0])] + Tokens(value[1..])
  }

  predicate Anchored(value: string) {
    (value != [] && value[0] == '/') || '/' in TrimSlashes(value)
  }

  /** What is translated: the pattern without its anchor, a trailing slash naming a directory recursively. */
  function Body(value: string): string {
    var core := WithoutAnchor(value);
    if core != [] && core[|core| - 1] == '/' then core + "**" else core
  }

  function LastSegment(value: string): string {
    var segments := Segments(TrimSlashes(WithoutAnchor(value)));
    segments[|segments| - 1]
  }

  /** The last segment names a literal file or directory. */
  predicate LiteralEnd(value: string) {
    '*' !in LastSegment(value) && '?' !in LastSegment(value)
  }

  function Compiled(value: string): Re {
    Concat((if Anchored(value) then [] else [ANY_DIRS]) + Tokens(Body(value))
           + (if LiteralEnd(value) then [BELOW] else []))
  }

  method SkipStars(value: string, start: nat) returns (index: nat)
    requires start <= |value|
    ensures start <= index <= |value| && value[index..] == DropStars(value[start..])
  {
    index := start;
    while index < |value| && value[index] == '*'
      invariant start <= index <= |value|
      invariant DropStars(value[start..]) == DropStars(value[index..])
    {
      assert value[index..][1..] == value[index + 1..];
      index := index + 1;
    }
  }

  lemma StarTokens(value: string, start: nat)
    requires start < |value| && value[start] == '*'
    requires start + 1 == |value| || value[start + 1] != '*'
    ensures Continues(value, start, Star(NotSlash), start + 1)
  {
    assert value[start..][1..] == value[start + 1..];
  }

  lemma DoubleStarTokens(value: string, start: nat, index: nat)
    requires start + 1 < |value| && value[start] == '*' && value[start + 1] == '*'
    requires start + 2 <= index <= |value| && value[index..] == DropStars(value[start + 2..])
    ensures index < |value| && value[index] == '/' ==> Continues(value, start, ANY_DIRS, index + 1)
    ensures !(index < |value| && value[index] == '/') ==> Continues(value, start, ANY, index)
  {
    assert value[start..][1..] == value[start + 1..] && value[start + 1..][1..] == value[start + 2..];
    assert DropStars(value[start..]) == DropStars(value[start + 1..]) == value[index..];
    if index < |value| { assert value[index..][1..] == value[index + 1..]; }
  }

  ghost predicate Continues(value: string, start: nat, token: Re, next: nat) {
    start < next <= |value| && Tokens(value[start..]) == [token] + Tokens(value[next..])
  }

  /** One or several stars in a row: the token, and where the pattern continues. */
  method TranslateStars(value: string, start: nat) returns (token: Re, next: nat)
    requires start < |value| && value[start] == '*'
    ensures Continues(value, start, token, next)
  {
    if start + 1 == |value| || value[start + 1] != '*' {
      StarTokens(value, start);
      return Star(NotSlash), start + 1;
    }
    next := SkipStars(value, start + 2);
    DoubleStarTokens(value, start, next);
    if next < |value| && value[next] == '/' {
      return ANY_DIRS, next + 1;
    }
    token := ANY;
  }

  lemma PlainToken(value: string, index: nat)
    requires index < |value| && value[index] != '*'
    ensures Continues(value, index, if value[index] == '?' then NotSlash else Chr(value[index]), index + 1)
  {
    assert value[index..][1..] == value[index + 1..];
  }

  method NextToken(value: string, index: nat) returns (token: Re, next: nat)
    requires index < |value|
    ensures Continues(value, index, token, next)
  {
    if value[index] == '*' {
      token, next := TranslateStars(value, index);
    } else {
      PlainToken(value, index);
      token, next := if value[index] == '?' then NotSlash else Chr(value[index]), index + 1;
    }
  }

  /** `translated` is what the loop has emitted for value[..index]. */
  ghost predicate Emitted(value: string, index: nat, translated: seq<Re>) {
    index <= |value| && translated + Tokens(value[index..]) == Tokens(value)
  }

  lemma EmitOne(value: string, index: nat, translated: seq<Re>, token: Re, next: nat)
    requires Emitted(value, index, translated) && Continues(value, index, token, next)
    ensures Emitted(value, next, translated + [token])
  {
    var rest := Tokens(value[next..]);
    assert translated + ([token] + rest) == translated + [token] + rest;
  }

  /** _pattern_regex's translation loop. */
  method Translate(value: string) returns (translated: seq<Re>)
    ensures translated == Tokens(value)
  {
    translated := [];
    var index := 0;
    assert value[0..] == value;
    while index < |value|
      invariant Emitted(value, index, translated)
    {
      var token, next := NextToken(value, index);
      EmitOne(value, index, translated, token, next);
      translated, index := translated + [token], next;
    }
    assert value[index..] == [];
  }

  method CompilePattern(value: string) returns (re: Re)
    ensures re == Compiled(value)
  {
    var body := WithoutAnchor(value);
    if body != [] && body[|body| - 1] == '/' {
      body := body + "**";
    }
    var parts := Translate(body);
    if !Anchored(value) { parts := [ANY_DIRS] + parts; }
    if LiteralEnd(value) { parts := parts + [BELOW]; }
    if Anchored(value) { assert [] + Tokens(body) == Tokens(body); }
    re := Concat(parts);
    assert parts == (if Anchored(value) then [] else [ANY_DIRS]) + Tokens(body)
                    + (if LiteralEnd(value) then [BELOW] else []);
  }

  // ---- The direct matcher ----------------------------------------------------------------

  predicate OneLine(s: string) {
    '\n' !in s
  }

  /** The path continues after the slash at i, which ends one line's worth of directories. */
  predicate DirsUpTo(path: string, i: nat) {
    i < |path| && path[i] == '/' && OneLine(path[..i])
  }

  /** What may follow a literal end: nothing, or a slash and anything on one line. */
  predicate Tail(s: string, literalEnd: bool) {
    s == [] || (literalEnd && s[0] == '/' && OneLine(s[1..]))
  }

  /** `*` stays within a segment, `**` crosses them, and `**` before a slash stands for whole directories. */
  predicate Glob(pattern: string, path: string, literalEnd: bool)
    decreases |pattern|
  {
    if pattern == [] then Tail(path, literalEnd)
    else if pattern[0] == '*' then
      if |pattern| > 1 && pattern[1] == '*' then
        var rest := DropStars(pattern);
        if rest != [] && rest[0] == '/' then
          || Glob(rest[1..], path, literalEnd)
          || exists i :: 0 <= i < |path| && DirsUpTo(path, i) && Glob(rest[1..], path[i + 1..], literalEnd)
        else exists i :: 0 <= i <= |path| && OneLine(path[..i]) && Glob(rest, path[i..], literalEnd)
      else exists i :: 0 <= i <= |path| && '/' !in path[..i] && Glob(pattern[1..], path[i..], literalEnd)
    else if pattern[0] == '?' then path != [] && path[0] != '/' && Glob(pattern[1..], path[1..], literalEnd)
    else path != [] && path[0] == pattern[0] && Glob(pattern[1..], path[1..], literalEnd)
  }

  predicate PatternMatches(value: string, path: string) {
    || Glob(Body(value), path, LiteralEnd(value))
    || (!Anchored(value)
        && exists i :: 0 <= i < |path| && DirsUpTo(path, i) && Glob(Body(value), path[i + 1..], LiteralEnd(value)))
  }

  // ---- The compiled expression means what the direct matcher says ---------------------------

  lemma {:induction false} StarOfClass(body: Re, s: string, i: nat)
    requires (body == Dot || body == NotSlash) && i <= |s|
    ensures Matches(Star(body), s[i..]) <==> forall k :: i <= k < |s| ==> Matches(body, [s[k]])
    decreases |s| - i
  {
    if i < |s| {
      StarOfClass(body, s, i + 1);
      assert s[i..][..1] == [s[i]] && s[i..][1..] == s[i + 1..];
      if Matches(Star(body), s[i..]) {
        var j :| 0 < j <= |s[i..]| && Matches(body, s[i..][..j]) && Matches(Star(body), s[i..][j..]);
        assert j == 1;
      }
      if forall k :: i <= k < |s| ==> Matches(body, [s[k]]) {
        assert Matches(body, [s[i]]);
      }
    }
  }

  lemma AnyMeans(s: string)
    ensures Matches(ANY, s) <==> OneLine(s)
  {
    StarOfClass(Dot, s, 0);
    assert s[0..] == s;
    if !OneLine(s) {
      var k :| 0 <= k < |s| && s[k] == '\n';
      assert !Matches(Dot, [s[k]]);
    }
  }

  lemma SegmentStarMeans(s: string)
    ensures Matches(Star(NotSlash), s) <==> '/' !in s
  {
    StarOfClass(NotSlash, s, 0);
    assert s[0..] == s;
    if '/' in s {
      var k :| 0 <= k < |s| && s[k] == '/';
      assert !Matches(NotSlash, [s[k]]);
    }
  }

  lemma {:induction false} CatChar(left: Re, c: char, s: string)
    ensures Matches(Cat(left, Chr(c)), s) <==> s != [] && s[|s| - 1] == c && Matches(left, s[..|s| - 1])
  {
    if i :| 0 <= i <= |s| && Matches(left, s[..i]) && Matches(Chr(c), s[i..]) {
      assert i == |s| - 1;
    }
    if s != [] && s[|s| - 1] == c {
      assert s[|s| - 1..] == [c] && Matches(Chr(c), s[|s| - 1..]);
    }
  }

  lemma {:induction false} CharCat(c: char, right: Re, s: string)
    ensures Matches(Cat(Chr(c), right), s) <==> s != [] && s[0] == c && Matches(right, s[1..])
  {
    if i :| 0 <= i <= |s| && Matches(Chr(c), s[..i]) && Matches(right, s[i..]) {
      assert i == 1 && s[..1] == [c];
    }
    if s != [] && s[0] == c {
      assert s[..1] == [c] && Matches(Chr(c), s[..1]);
    }
  }

  /** Whole leading directories: nothing, or one line ending in a slash. */
  lemma {:induction false} AnyDirsMeans(s: string)
    ensures Matches(ANY_DIRS, s) <==> s == [] || (s[|s| - 1] == '/' && OneLine(s[..|s| - 1]))
  {
    CatChar(Star(Dot), '/', s);
    if s != [] { AnyMeans(s[..|s| - 1]); }
  }

  lemma {:induction false} BelowMeans(s: string)
    ensures Matches(BELOW, s) <==> Tail(s, true)
  {
    CharCat('/', Star(Dot), s);
    if s != [] { AnyMeans(s[1..]); }
  }

  function End(literalEnd: bool): seq<Re> {
    if literalEnd then [BELOW] else []
  }

  function Rest(pattern: string, literalEnd: bool): Re {
    Concat(Tokens(pattern) + End(literalEnd))
  }

  lemma RestUnfolds(token: Re, pattern: string, rest: string, literalEnd: bool)
    requires Tokens(pattern) == [token] + Tokens(rest)
    ensures Rest(pattern, literalEnd) == Cat(token, Rest(rest, literalEnd))
  {
    assert Tokens(pattern) + End(literalEnd) == [token] + (Tokens(rest) + End(literalEnd));
  }

  lemma EndMeans(path: string, literalEnd: bool)
    ensures Matches(Rest([], literalEnd), path) <==> Tail(path, literalEnd)
  {
    assert Tokens([]) + End(literalEnd) == End(literalEnd);
    if literalEnd {
      BelowMeans(path);
      assert Concat([BELOW]) == Cat(BELOW, Empty);
      assert path[..|path|] == path && path[|path|..] == [];
    }
  }

  /** The rest of a pattern after a token that takes a prefix of the path. */
  lemma PrefixToken(token: Re, pattern: string, rest: string, path: string, literalEnd: bool)
    requires Tokens(pattern) == [token] + Tokens(rest)
    ensures Matches(Rest(pattern, literalEnd), path) <==>
              exists i :: 0 <= i <= |path| && Matches(token, path[..i]) && Matches(Rest(rest, literalEnd), path[i..])
  {
    RestUnfolds(token, pattern, rest, literalEnd);
  }

  lemma SingleToken(token: Re, pattern: string, rest: string, path: string, literalEnd: bool)
    requires Tokens(pattern) == [token] + Tokens(rest) && (token.Chr? || token == NotSlash)
    ensures Matches(Rest(pattern, literalEnd), path) <==>
              path != [] && Matches(token, [path[0]]) && Matches(Rest(rest, literalEnd), path[1..])
  {
    PrefixToken(token, pattern, rest, path, literalEnd);
    if path != [] { assert path[..1] == [path[0]]; }
    forall i | 0 <= i <= |path| && Matches(token, path[..i]) ensures i == 1 { assert |path[..i]| == 1; }
  }

  lemma DirsPrefix(path: string, i: nat)
    requires i <= |path|
    ensures Matches(ANY_DIRS, path[..i]) <==> i == 0 || DirsUpTo(path, i - 1)
  {
    AnyDirsMeans(path[..i]);
    if i > 0 { assert path[..i][..i - 1] == path[..i - 1]; }
  }

  lemma DirsSplit(re: Re, path: string)
    ensures Matches(Cat(ANY_DIRS, re), path) <==>
              Matches(re, path) || exists i :: 0 <= i < |path| && DirsUpTo(path, i) && Matches(re, path[i + 1..])
  {
    if Matches(Cat(ANY_DIRS, re), path) {
      var i :| 0 <= i <= |path| && Matches(ANY_DIRS, path[..i]) && Matches(re, path[i..]);
      DirsPrefix(path, i);
      if i == 0 {
        assert path[0..] == path;
      } else {
        assert DirsUpTo(path, i - 1) && path[i - 1 + 1..] == path[i..];
      }
    }
    if Matches(re, path) {
      DirsPrefix(path, 0);
      assert path[0..] == path;
    }
    if i :| 0 <= i < |path| && DirsUpTo(path, i) && Matches(re, path[i + 1..]) {
      DirsPrefix(path, i + 1);
      assert Matches(ANY_DIRS, path[..i + 1]);
    }
  }

  lemma {:induction false} TokensMatch(pattern: string, path: string, literalEnd: bool)
    ensures Matches(Rest(pattern, literalEnd), path) <==> Glob(pattern, path, literalEnd)
    decreases |pattern|
  {
    if pattern == [] {
      EndMeans(path, literalEnd);
    } else if pattern[0] == '*' {
      if |pattern| > 1 && pattern[1] == '*' {
        var rest := DropStars(pattern);
        if rest != [] && rest[0] == '/' {
          RestUnfolds(ANY_DIRS, pattern, rest[1..], literalEnd);
          DirsSplit(Rest(rest[1..], literalEnd), path);
          TokensMatch(rest[1..], path, literalEnd);
          if i :| 0 <= i < |path| && DirsUpTo(path, i) && Matches(Rest(rest[1..], literalEnd), path[i + 1..]) {
            TokensMatch(rest[1..], path[i + 1..], literalEnd);
          }
          if i :| 0 <= i < |path| && DirsUpTo(path, i) && Glob(rest[1..], path[i + 1..], literalEnd) {
            TokensMatch(rest[1..], path[i + 1..], literalEnd);
          }
        } else {
          PrefixToken(ANY, pattern, rest, path, literalEnd);
          forall i | 0 <= i <= |path|
            ensures Matches(ANY, path[..i]) <==> OneLine(path[..i])
            ensures Matches(Rest(rest, literalEnd), path[i..]) <==> Glob(rest, path[i..], literalEnd)
          {
            AnyMeans(path[..i]);
            TokensMatch(rest, path[i..], literalEnd);
          }
        }
      } else {
        PrefixToken(Star(NotSlash), pattern, pattern[1..], path, literalEnd);
        forall i | 0 <= i <= |path|
          ensures Matches(Star(NotSlash), path[..i]) <==> '/' !in path[..i]
          ensures Matches(Rest(pattern[1..], literalEnd), path[i..]) <==> Glob(pattern[1..], path[i..], literalEnd)
        {
          SegmentStarMeans(path[..i]);
          TokensMatch(pattern[1..], path[i..], literalEnd);
        }
      }
    } else {
      SingleToken(if pattern[0] == '?' then NotSlash else Chr(pattern[0]), pattern, pattern[1..], path, literalEnd);
      if path != [] { TokensMatch(pattern[1..], path[1..], literalEnd); }
    }
  }

  /** For every pattern and path, the emitted expression matches exactly when the direct matcher does. */
  lemma CompilationPreservesMeaning(value: string, path: string)
    ensures Matches(Compiled(value), path) <==> PatternMatches(value, path)
  {
    var body, end := Body(value), LiteralEnd(value);
    var rest := Rest(body, end);
    TokensMatch(body, path, end);
    if Anchored(value) {
      assert [] + Tokens(body) + End(end) == Tokens(body) + End(end);
    } else {
      assert [ANY_DIRS] + Tokens(body) + End(end) == [ANY_DIRS] + (Tokens(body) + End(end));
      assert Compiled(value) == Cat(ANY_DIRS, rest);
      DirsSplit(rest, path);
      if i :| 0 <= i < |path| && DirsUpTo(path, i) && Matches(rest, path[i + 1..]) {
        TokensMatch(body, path[i + 1..], end);
      }
      if i :| 0 <= i < |path| && DirsUpTo(path, i) && Glob(body, path[i + 1..], end) {
        TokensMatch(body, path[i + 1..], end);
      }
    }
  }

  // ---- Wildcard-free patterns -------------------------------------------------------------

  predicate Plain(value: string) {
    '*' !in value && '?' !in value
  }

  lemma {:induction false} SegmentsOfPlain(s: string)
    requires Plain(s)
    ensures forall segment :: segment in Segments(s) ==> Plain(segment)
  {
    if s != [] {
      SegmentsOfPlain(s[1..]);
      var rest := Segments(s[1..]);
      assert Plain(rest[0]);
      if s[0] != '/' {
        assert Plain([s[0]] + rest[0]);
        assert forall x :: x in rest[1..] ==> x in rest;
      }
    }
  }

  lemma PlainEndsLiterally(value: string)
    requires Plain(value)
    ensures LiteralEnd(value)
  {
    var core := TrimSlashes(WithoutAnchor(value));
    assert forall c :: c in core ==> c in WithoutAnchor(value);
    assert forall c :: c in WithoutAnchor(value) ==> c in value;
    SegmentsOfPlain(core);
    assert LastSegment(value) in Segments(core);
  }

  lemma {:induction false} GlobLiteralPrefix(core: string, more: string, path: string, literalEnd: bool)
    requires Plain(core)
    ensures Glob(core + more, path, literalEnd) <==> core <= path && Glob(more, path[|core|..], literalEnd)
  {
    if core == [] {
      assert core + more == more && path[0..] == path;
    } else {
      assert core[0] in core;
      assert (core + more)[1..] == core[1..] + more;
      assert Glob(core + more, path, literalEnd) <==>
               path != [] && path[0] == core[0] && Glob(core[1..] + more, path[1..], literalEnd);
      assert forall c :: c in core[1..] ==> c in core;
      if path != [] {
        GlobLiteralPrefix(core[1..], more, path[1..], literalEnd);
        assert core == [core[0]] + core[1..] && path == [path[0]] + path[1..];
        if core <= path { assert path[1..][|core| - 1..] == path[|core|..]; }
      }
    }
  }

  /** An anchored wildcard-free `d` matches exactly d and everything under it. */
  lemma AnchoredLiteral(value: string, path: string)
    requires Plain(value) && Anchored(value) && WithoutAnchor(value) != [] && value[|value| - 1] != '/'
    ensures var d := WithoutAnchor(value);
            Matches(Compiled(value), path) <==>
              path == d || (d + "/" <= path && OneLine(path[|d| + 1..]))
  {
    var d := WithoutAnchor(value);
    CompilationPreservesMeaning(value, path);
    PlainEndsLiterally(value);
    assert forall c :: c in d ==> c in value;
    assert d + [] == d;
    GlobLiteralPrefix(d, [], path, true);
    if d <= path {
      var rest := path[|d|..];
      assert path == d + rest;
      if rest != [] { assert rest[1..] == path[|d| + 1..]; }
    }
  }

  lemma AnythingOnOneLine(path: string, literalEnd: bool)
    ensures Glob("**", path, literalEnd) <==> OneLine(path)
  {
    assert DropStars("**"[1..]) == [];
    assert DropStars("**") == [];
    if OneLine(path) {
      assert path[..|path|] == path && path[|path|..] == [];
      assert Glob([], path[|path|..], literalEnd);
    }
    if i :| 0 <= i <= |path| && OneLine(path[..i]) && Glob([], path[i..], literalEnd) {
      assert path == path[..i] + path[i..];
      if path[i..] != [] { assert path[i..] == ['/'] + path[i..][1..]; }
    }
  }

  /** An anchored wildcard-free `d/` matches exactly what is under d. */
  lemma AnchoredDirectory(value: string, path: string)
    requires Plain(value) && Anchored(value) && WithoutAnchor(value) != [] && value[|value| - 1] == '/'
    ensures var d := WithoutAnchor(value);
            Matches(Compiled(value), path) <==> d <= path && OneLine(path[|d|..])
  {
    var d := WithoutAnchor(value);
    CompilationPreservesMeaning(value, path);
    PlainEndsLiterally(value);
    assert forall c :: c in d ==> c in value;
    GlobLiteralPrefix(d, "**", path, true);
    if d <= path { AnythingOnOneLine(path[|d|..], true); }
  }

  /** `/d/` followed by two stars matches exactly the one-line paths under d. */
  lemma AnchoredTree(d: string, path: string)
    requires Plain(d) && d != []
    ensures PatternMatches("/" + d + "**", path) <==> d <= path && OneLine(path[|d|..])
  {
    var value := "/" + d + "**";
    assert value[1..] == d + "**" && Body(value) == d + "**";
    GlobLiteralPrefix(d, "**", path, LiteralEnd(value));
    if d <= path { AnythingOnOneLine(path[|d|..], LiteralEnd(value)); }
  }

  /** The name stands at position i of the path as a whole segment, whatever lies below it. */
  predicate SegmentAt(name: string, path: string, i: nat) {
    && i + |name| <= |path| && path[i..i + |name|] == name
    && (i == 0 || DirsUpTo(path, i - 1))
    && Tail(path[i + |name|..], true)
  }

  lemma LiteralAt(name: string, path: string, i: nat)
    requires Plain(name) && i <= |path|
    ensures Glob(name, path[i..], true) <==>
              i + |name| <= |path| && path[i..i + |name|] == name && Tail(path[i + |name|..], true)
  {
    assert name + [] == name;
    GlobLiteralPrefix(name, [], path[i..], true);
    if i + |name| <= |path| {
      assert path[i..][..|name|] == path[i..i + |name|] && path[i..][|name|..] == path[i + |name|..];
      assert name <= path[i..] <==> path[i..][..|name|] == name;
    }
  }

  lemma BareNameShape(name: string)
    requires Plain(name) && name != [] && '/' !in name
    ensures !Anchored(name) && Body(name) == name && LiteralEnd(name)
  {
    PlainEndsLiterally(name);
  }

  lemma GlobGivesSegment(name: string, path: string)
    requires Plain(name)
    requires Glob(name, path, true) || exists i :: 0 <= i < |path| && DirsUpTo(path, i) && Glob(name, path[i + 1..], true)
    ensures exists i :: 0 <= i <= |path| && SegmentAt(name, path, i)
  {
    if Glob(name, path, true) {
      LiteralAt(name, path, 0);
      assert path[0..] == path;
      assert SegmentAt(name, path, 0);
    } else {
      var i :| 0 <= i < |path| && DirsUpTo(path, i) && Glob(name, path[i + 1..], true);
      LiteralAt(name, path, i + 1);
      assert SegmentAt(name, path, i + 1);
    }
  }

  lemma SegmentGivesGlob(name: string, path: string, i: nat)
    requires Plain(name) && i <= |path| && SegmentAt(name, path, i)
    ensures Glob(name, path, true) || exists k :: 0 <= k < |path| && DirsUpTo(path, k) && Glob(name, path[k + 1..], true)
  {
    LiteralAt(name, path, i);
    if i == 0 {
      assert path[0..] == path;
    } else {
      assert DirsUpTo(path, i - 1) && path[i - 1 + 1..] == path[i..];
    }
  }

  /** A bare wildcard-free name matches exactly the paths that have it as a segment. */
  lemma BareName(name: string, path: string)
    requires Plain(name) && name != [] && '/' !in name
    ensures Matches(Compiled(name), path) <==> exists i :: 0 <= i <= |path| && SegmentAt(name, path, i)
  {
    CompilationPreservesMeaning(name, path);
    BareNameShape(name);
    if PatternMatches(name, path) {
      GlobGivesSegment(name, path);
    }
    if i :| 0 <= i <= |path| && SegmentAt(name, path, i) {
      SegmentGivesGlob(name, path, i);
    }
  }
}
