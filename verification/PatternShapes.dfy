/**
 What a pattern matches, by its written shape: whether it holds a slash, whether its
 last segment holds a wildcard, and whether it ends in a slash.
 */
module PatternShapes {
  import opened Text
  import opened Patterns

  /** The pattern is zero or more directories followed by one last segment. */
  predicate Splits(value: string, directories: string, last: string) {
    && value == directories + last && last != [] && '/' !in last
    && (directories == [] || directories[|directories| - 1] == '/')
  }

  predicate Wild(segment: string) {
    '*' in segment || '?' in segment
  }

  /** A leading slash only says where the pattern is read from. */
  function Unrooted(value: string): string {
    if value != [] && value[0] == '/' then value[1..] else value
  }

  /** The pattern, read from where the path begins to exactly where it ends. */
  predicate Reads(pattern: string, path: string) {
    Glob(pattern, path, false)
  }

  // ---- Shapes -----------------------------------------------------------------------

  lemma {:induction false} SlashSplits(s: string)
    requires '/' in s
    ensures |Segments(s)| >= 2
  {
    if s[0] != '/' {
      assert s == [s[0]] + s[1..];
      SlashSplits(s[1..]);
    }
  }

  lemma {:induction false} LastOfSegments(directories: string, last: string)
    requires '/' !in last && (directories == [] || directories[|directories| - 1] == '/')
    ensures var segments := Segments(directories + last); segments[|segments| - 1] == last
  {
    var s := directories + last;
    if directories == [] {
      OneSegment(last);
      assert s == last;
    } else {
      assert s[1..] == directories[1..] + last;
      LastOfSegments(directories[1..], last);
      if directories[0] != '/' {
        assert directories[1..][|directories| - 2] in s[1..];
        SlashSplits(s[1..]);
      }
    }
  }

  lemma NoTrailingSlash(value: string, directories: string, last: string)
    requires Splits(value, directories, last)
    ensures value[|value| - 1] != '/' && TrimSlashes(value) == value && TrimSlashes(value + "/") == value
    ensures '/' in value <==> directories != []
  {
    assert last[|last| - 1] in last && value[|value| - 1] == last[|last| - 1];
    assert (value + "/")[..|value|] == value;
    if directories != [] { assert directories[|directories| - 1] in value; }
  }

  lemma SameWithoutAnchor(value: string)
    ensures WithoutAnchor(value) == Unrooted(value)
  {
  }

  lemma UnrootedSplits(value: string, directories: string, last: string)
    requires Splits(value, directories, last)
    ensures Splits(Unrooted(value), Unrooted(directories), last)
    ensures Unrooted(value + "/") == Unrooted(value) + "/"
  {
    if directories == [] {
      assert last[0] in last && value == last;
    } else {
      assert value[0] == directories[0];
      if value[0] == '/' {
        assert value[1..] == directories[1..] + last;
        if |directories| > 1 { assert directories[1..][|directories| - 2] == '/'; }
      }
    }
  }

  /** A pattern is anchored exactly when it holds a slash other than one at its end. */
  lemma AnchoredExactly(value: string, directories: string, last: string)
    requires Splits(value, directories, last)
    ensures Anchored(value) <==> directories != []
    ensures Anchored(value + "/") <==> directories != []
  {
    NoTrailingSlash(value, directories, last);
    assert (value + "/")[0] == value[0];
    if value[0] == '/' { assert value[0] in value; }
  }

  lemma LastSegmentIs(value: string, core: string, directories: string, last: string)
    requires Splits(core, directories, last) && TrimSlashes(WithoutAnchor(value)) == core
    ensures LiteralEnd(value) <==> !Wild(last)
  {
    LastOfSegments(directories, last);
  }

  /** What a pattern names is literal exactly when its last segment holds no wildcard. */
  lemma LiteralExactly(value: string, directories: string, last: string)
    requires Splits(value, directories, last)
    ensures LiteralEnd(value) <==> !Wild(last)
    ensures LiteralEnd(value + "/") <==> !Wild(last)
  {
    var core := Unrooted(value);
    UnrootedSplits(value, directories, last);
    NoTrailingSlash(core, Unrooted(directories), last);
    SameWithoutAnchor(value);
    SameWithoutAnchor(value + "/");
    LastSegmentIs(value, core, Unrooted(directories), last);
    LastSegmentIs(value + "/", core, Unrooted(directories), last);
  }

  // ---- One pattern after another -----------------------------------------------------

  /** The first pattern reads the path up to k, and the second goes on from there. */
  predicate CutAt(pattern: string, more: string, literalEnd: bool, path: string, k: nat) {
    k <= |path| && Reads(pattern, path[..k]) && Glob(more, path[k..], literalEnd)
  }

  ghost predicate Cuts(pattern: string, more: string, literalEnd: bool, path: string) {
    exists k :: 0 <= k <= |path| && CutAt(pattern, more, literalEnd, path, k)
  }

  /** The same for what remains of the path after its first i characters. */
  predicate CutFrom(rest: string, more: string, literalEnd: bool, path: string, i: nat, k: nat) {
    i <= k <= |path| && Reads(rest, path[..k][i..]) && Glob(more, path[k..], literalEnd)
  }

  /** No run of stars is cut in two, and no double star parted from what follows it. */
  predicate Joins(pattern: string, more: string) {
    || more == [] || pattern == [] || pattern[|pattern| - 1] != '*'
    || (more[0] != '*' && (|pattern| == 1 || pattern[|pattern| - 2] != '*'))
  }

  /** A pattern reads a path exactly when its beginning reads some of it and its end the rest. */
  lemma {:induction false} Composes(pattern: string, more: string, path: string, literalEnd: bool)
    requires Joins(pattern, more)
    ensures Glob(pattern + more, path, literalEnd) <==> Cuts(pattern, more, literalEnd, path)
    decreases |pattern|, 1
  {
    if pattern == [] {
      assert pattern + more == more && path[0..] == path;
      if Glob(more, path, literalEnd) { assert CutAt(pattern, more, literalEnd, path, 0); }
    } else if pattern[0] != '*' {
      OneComposes(pattern, more, path, literalEnd);
    } else if |pattern| == 1 || pattern[1] != '*' {
      StarComposes(pattern, more, path, literalEnd);
    } else {
      var rest := DropStars(pattern);
      DropsOfJoined(pattern, more);
      if rest != [] && rest[0] == '/' {
        DirsCompose(pattern, rest[1..], more, path, literalEnd);
      } else {
        StarsCompose(pattern, rest, more, path, literalEnd);
      }
    }
  }

  lemma {:induction false} DropsOfJoined(pattern: string, more: string)
    requires pattern != [] && Joins(pattern, more)
    ensures DropStars(pattern + more) == DropStars(pattern) + more
    ensures Joins(DropStars(pattern), more) && Joins(pattern[1..], more)
    ensures DropStars(pattern) == [] && |pattern| > 1 ==> more == []
    ensures DropStars(pattern) != [] ==> Joins(DropStars(pattern)[1..], more)
  {
    assert (pattern + more)[1..] == pattern[1..] + more;
    if pattern[0] == '*' && |pattern| > 1 { DropsOfJoined(pattern[1..], more); }
  }

  lemma OneComposes(pattern: string, more: string, path: string, literalEnd: bool)
    requires pattern != [] && pattern[0] != '*' && Joins(pattern, more)
    ensures Glob(pattern + more, path, literalEnd) <==> Cuts(pattern, more, literalEnd, path)
    decreases |pattern|, 0
  {
    var rest := pattern[1..];
    assert (pattern + more)[1..] == rest + more;
    if path != [] {
      RestComposes(rest, more, path, 1, literalEnd);
      if k :| 1 <= k <= |path| && CutFrom(rest, more, literalEnd, path, 1, k) && Glob(pattern + more, path, literalEnd) {
        assert path[..k][0] == path[0];
        assert CutAt(pattern, more, literalEnd, path, k);
      }
    }
    if k :| 0 <= k <= |path| && CutAt(pattern, more, literalEnd, path, k) {
      assert path[..k] != [] && path[..k][0] == path[0];
      assert CutFrom(rest, more, literalEnd, path, 1, k);
    }
  }

  /** Composition after a token that takes the first i characters. */
  lemma RestComposes(rest: string, more: string, path: string, i: nat, literalEnd: bool)
    requires i <= |path| && Joins(rest, more)
    ensures Glob(rest + more, path[i..], literalEnd) <==>
              exists k :: i <= k <= |path| && CutFrom(rest, more, literalEnd, path, i, k)
    decreases |rest|, 2
  {
    Composes(rest, more, path[i..], literalEnd);
    if k :| 0 <= k <= |path[i..]| && CutAt(rest, more, literalEnd, path[i..], k) {
      CutsAgree(path, i, i + k);
      assert CutFrom(rest, more, literalEnd, path, i, i + k);
    }
    if k :| i <= k <= |path| && CutFrom(rest, more, literalEnd, path, i, k) {
      CutsAgree(path, i, k);
      assert CutAt(rest, more, literalEnd, path[i..], k - i);
    }
  }

  lemma CutsAgree(path: string, i: nat, k: nat)
    requires i <= k <= |path|
    ensures path[i..][..k - i] == path[..k][i..] && path[i..][k - i..] == path[k..] && path[..k][..i] == path[..i]
  {
  }

  lemma StarGlob(pattern: string, path: string, literalEnd: bool)
    requires pattern != [] && pattern[0] == '*' && (|pattern| == 1 || pattern[1] != '*')
    ensures Glob(pattern, path, literalEnd) <==>
              exists i :: 0 <= i <= |path| && '/' !in path[..i] && Glob(pattern[1..], path[i..], literalEnd)
  {
  }

  lemma StarCut(pattern: string, more: string, path: string, i: nat, k: nat, literalEnd: bool)
    requires pattern != [] && pattern[0] == '*' && (|pattern| == 1 || pattern[1] != '*')
    requires CutFrom(pattern[1..], more, literalEnd, path, i, k) && '/' !in path[..i]
    ensures CutAt(pattern, more, literalEnd, path, k)
  {
    CutsAgree(path, i, k);
    StarGlob(pattern, path[..k], false);
  }

  lemma CutStar(pattern: string, more: string, path: string, k: nat, literalEnd: bool) returns (i: nat)
    requires pattern != [] && pattern[0] == '*' && (|pattern| == 1 || pattern[1] != '*')
    requires CutAt(pattern, more, literalEnd, path, k)
    ensures CutFrom(pattern[1..], more, literalEnd, path, i, k) && '/' !in path[..i]
  {
    StarGlob(pattern, path[..k], false);
    var n :| 0 <= n <= k && '/' !in path[..k][..n] && Glob(pattern[1..], path[..k][n..], false);
    CutsAgree(path, n, k);
    i := n;
  }

  lemma StarComposes(pattern: string, more: string, path: string, literalEnd: bool)
    requires pattern != [] && pattern[0] == '*' && (|pattern| == 1 || pattern[1] != '*') && Joins(pattern, more)
    ensures Glob(pattern + more, path, literalEnd) <==> Cuts(pattern, more, literalEnd, path)
    decreases |pattern|, 0
  {
    var rest := pattern[1..];
    assert (pattern + more)[1..] == rest + more;
    StarGlob(pattern + more, path, literalEnd);
    if i :| 0 <= i <= |path| && '/' !in path[..i] && Glob(rest + more, path[i..], literalEnd) {
      RestComposes(rest, more, path, i, literalEnd);
      var k :| i <= k <= |path| && CutFrom(rest, more, literalEnd, path, i, k);
      StarCut(pattern, more, path, i, k, literalEnd);
    }
    if k :| 0 <= k <= |path| && CutAt(pattern, more, literalEnd, path, k) {
      var i := CutStar(pattern, more, path, k, literalEnd);
      RestComposes(rest, more, path, i, literalEnd);
    }
  }

  predicate StarsBefore(pattern: string, rest: string) {
    && |pattern| > 1 && pattern[0] == '*' && pattern[1] == '*'
    && rest == DropStars(pattern) && (rest == [] || rest[0] != '/')
  }

  lemma StarsGlob(pattern: string, rest: string, path: string, literalEnd: bool)
    requires StarsBefore(pattern, rest)
    ensures Glob(pattern, path, literalEnd) <==>
              exists i :: 0 <= i <= |path| && OneLine(path[..i]) && Glob(rest, path[i..], literalEnd)
  {
  }

  lemma StarsCompose(pattern: string, rest: string, more: string, path: string, literalEnd: bool)
    requires StarsBefore(pattern, rest) && StarsBefore(pattern + more, rest + more) && Joins(rest, more)
    ensures Glob(pattern + more, path, literalEnd) <==> Cuts(pattern, more, literalEnd, path)
    decreases |pattern|, 0
  {
    StarsGlob(pattern + more, rest + more, path, literalEnd);
    if i :| 0 <= i <= |path| && OneLine(path[..i]) && Glob(rest + more, path[i..], literalEnd) {
      RestComposes(rest, more, path, i, literalEnd);
      var k :| i <= k <= |path| && CutFrom(rest, more, literalEnd, path, i, k);
      CutsAgree(path, i, k);
      StarsGlob(pattern, rest, path[..k], false);
      assert CutAt(pattern, more, literalEnd, path, k);
    }
    if k :| 0 <= k <= |path| && CutAt(pattern, more, literalEnd, path, k) {
      StarsGlob(pattern, rest, path[..k], false);
      var i :| 0 <= i <= k && OneLine(path[..k][..i]) && Glob(rest, path[..k][i..], false);
      CutsAgree(path, i, k);
      assert CutFrom(rest, more, literalEnd, path, i, k);
      RestComposes(rest, more, path, i, literalEnd);
    }
  }

  /** The pattern stands for whole directories before `rest`. */
  predicate DirsBefore(pattern: string, rest: string) {
    && |pattern| > 1 && pattern[0] == '*' && pattern[1] == '*'
    && DropStars(pattern) != [] && DropStars(pattern)[0] == '/' && rest == DropStars(pattern)[1..]
  }

  /** Whole directories end at n. */
  predicate DirsEnd(path: string, n: nat) {
    n == 0 || DirsUpTo(path, n - 1)
  }

  lemma DirsGlob(pattern: string, rest: string, path: string, literalEnd: bool)
    requires DirsBefore(pattern, rest)
    ensures Glob(pattern, path, literalEnd) <==>
              exists n :: 0 <= n <= |path| && DirsEnd(path, n) && Glob(rest, path[n..], literalEnd)
  {
    if Glob(rest, path, literalEnd) {
      assert path[0..] == path && DirsEnd(path, 0);
    }
    if i :| 0 <= i < |path| && DirsUpTo(path, i) && Glob(rest, path[i + 1..], literalEnd) {
      assert DirsEnd(path, i + 1);
    }
    if n :| 0 <= n <= |path| && DirsEnd(path, n) && Glob(rest, path[n..], literalEnd) && n > 0 {
      assert DirsUpTo(path, n - 1) && path[n - 1 + 1..] == path[n..];
    }
  }

  lemma DirsCompose(pattern: string, rest: string, more: string, path: string, literalEnd: bool)
    requires DirsBefore(pattern, rest) && DirsBefore(pattern + more, rest + more) && Joins(rest, more)
    ensures Glob(pattern + more, path, literalEnd) <==> Cuts(pattern, more, literalEnd, path)
    decreases |pattern|, 0
  {
    DirsGlob(pattern + more, rest + more, path, literalEnd);
    if n :| 0 <= n <= |path| && DirsEnd(path, n) && Glob(rest + more, path[n..], literalEnd) {
      RestComposes(rest, more, path, n, literalEnd);
      var k :| n <= k <= |path| && CutFrom(rest, more, literalEnd, path, n, k);
      DirsOfCut(path, k, n);
      DirsGlob(pattern, rest, path[..k], false);
      assert CutAt(pattern, more, literalEnd, path, k);
    }
    if k :| 0 <= k <= |path| && CutAt(pattern, more, literalEnd, path, k) {
      DirsGlob(pattern, rest, path[..k], false);
      var n :| 0 <= n <= k && DirsEnd(path[..k], n) && Glob(rest, path[..k][n..], false);
      DirsOfCut(path, k, n);
      assert CutFrom(rest, more, literalEnd, path, n, k);
      RestComposes(rest, more, path, n, literalEnd);
    }
  }

  lemma DirsOfCut(path: string, k: nat, n: nat)
    requires n <= k <= |path|
    ensures DirsEnd(path[..k], n) <==> DirsEnd(path, n)
  {
    if n > 0 { CutsAgree(path, n - 1, k); }
  }

  // ---- What each shape matches ------------------------------------------------------------

  /** An anchored pattern is read from the root, another from below any whole leading directories. */
  predicate StartsAt(anchored: bool, path: string, n: nat) {
    n <= |path| && (n == 0 || (!anchored && path[n - 1] == '/' && OneLine(path[..n - 1])))
  }

  /** The path is on one line below its first k characters. */
  predicate BelowAt(path: string, k: nat) {
    k < |path| && path[k] == '/' && OneLine(path[k + 1..])
  }

  ghost predicate ReadsWhole(anchored: bool, pattern: string, path: string) {
    exists n :: 0 <= n <= |path| && StartsAt(anchored, path, n) && Reads(pattern, path[n..])
  }

  predicate ReadsPart(anchored: bool, pattern: string, path: string, n: nat, k: nat) {
    StartsAt(anchored, path, n) && n <= k <= |path| && Reads(pattern, path[..k][n..])
  }

  /** The pattern reads the path up to its end, or up to a slash with one line below it. */
  ghost predicate MatchesOrHolds(anchored: bool, pattern: string, path: string) {
    exists n: nat, k: nat :: ReadsPart(anchored, pattern, path, n, k) && (k == |path| || BelowAt(path, k))
  }

  /** The pattern reads the path up to a slash with one line below it. */
  ghost predicate Holds(anchored: bool, pattern: string, path: string) {
    exists n: nat, k: nat :: ReadsPart(anchored, pattern, path, n, k) && BelowAt(path, k)
  }

  lemma CompiledGlobs(value: string, path: string)
    ensures Matches(Compiled(value), path) <==>
              exists n :: 0 <= n <= |path| && StartsAt(Anchored(value), path, n) && Glob(Body(value), path[n..], LiteralEnd(value))
  {
    CompilationPreservesMeaning(value, path);
    if Glob(Body(value), path, LiteralEnd(value)) {
      assert path[0..] == path && StartsAt(Anchored(value), path, 0);
    }
    if !Anchored(value) {
      if i :| 0 <= i < |path| && DirsUpTo(path, i) && Glob(Body(value), path[i + 1..], LiteralEnd(value)) {
        assert StartsAt(false, path, i + 1);
      }
      if n :| 0 <= n <= |path| && StartsAt(false, path, n) && Glob(Body(value), path[n..], LiteralEnd(value)) && n > 0 {
        assert DirsUpTo(path, n - 1) && path[n - 1 + 1..] == path[n..];
      }
    }
    assert path[0..] == path;
  }

  lemma BodyIs(value: string, directories: string, last: string)
    requires Splits(value, directories, last)
    ensures Body(value) == Unrooted(value) && Body(value + "/") == Unrooted(value) + "/**"
  {
    UnrootedSplits(value, directories, last);
    NoTrailingSlash(Unrooted(value), Unrooted(directories), last);
    SameWithoutAnchor(value);
    SameWithoutAnchor(value + "/");
    assert Unrooted(value) + "/" + "**" == Unrooted(value) + "/**";
  }

  /** A pattern whose last segment holds a wildcard matches what it reads to the end of the path, and nothing below. */
  lemma WildcardMatchesExactly(value: string, directories: string, last: string, path: string)
    requires Splits(value, directories, last) && Wild(last)
    ensures Matches(Compiled(value), path) <==> ReadsWhole(directories != [], Unrooted(value), path)
  {
    CompiledGlobs(value, path);
    BodyIs(value, directories, last);
    AnchoredExactly(value, directories, last);
    LiteralExactly(value, directories, last);
  }

  /** What is read first, and where the rest goes on. */
  lemma PartThenRest(anchored: bool, core: string, more: string, path: string, literalEnd: bool)
    requires Joins(core, more)
    ensures (exists n :: 0 <= n <= |path| && StartsAt(anchored, path, n) && Glob(core + more, path[n..], literalEnd)) <==>
            (exists n: nat, k: nat :: ReadsPart(anchored, core, path, n, k) && Glob(more, path[k..], literalEnd))
  {
    if n :| 0 <= n <= |path| && StartsAt(anchored, path, n) && Glob(core + more, path[n..], literalEnd) {
      RestComposes(core, more, path, n, literalEnd);
      var k :| n <= k <= |path| && CutFrom(core, more, literalEnd, path, n, k);
      assert ReadsPart(anchored, core, path, n, k);
    }
    if n: nat, k: nat :| ReadsPart(anchored, core, path, n, k) && Glob(more, path[k..], literalEnd) {
      assert CutFrom(core, more, literalEnd, path, n, k);
      RestComposes(core, more, path, n, literalEnd);
    }
  }

  lemma TailReads(path: string, k: nat)
    requires k <= |path|
    ensures Glob([], path[k..], true) <==> k == |path| || BelowAt(path, k)
  {
    if k < |path| { assert path[k..][1..] == path[k + 1..]; }
  }

  /** A pattern with a literal last segment matches what it reads, and everything on one line below that. */
  lemma LiteralMatchesExactly(value: string, directories: string, last: string, path: string)
    requires Splits(value, directories, last) && !Wild(last)
    ensures Matches(Compiled(value), path) <==> MatchesOrHolds(directories != [], Unrooted(value), path)
  {
    var core := Unrooted(value);
    CompiledGlobs(value, path);
    BodyIs(value, directories, last);
    AnchoredExactly(value, directories, last);
    LiteralExactly(value, directories, last);
    assert core + [] == core;
    PartThenRest(directories != [], core, [], path, true);
    forall k | 0 <= k <= |path| ensures Glob([], path[k..], true) <==> k == |path| || BelowAt(path, k) { TailReads(path, k); }
  }

  lemma DirectoryShape(value: string, directories: string, last: string)
    requires Splits(value, directories, last) && Joins(last, "/**")
    ensures Body(value + "/") == Unrooted(value) + "/**" && Joins(Unrooted(value), "/**")
    ensures Anchored(value + "/") <==> directories != []
  {
    BodyIs(value, directories, last);
    AnchoredExactly(value, directories, last);
    UnrootedSplits(value, directories, last);
  }

  lemma TreeBelow(anchored: bool, core: string, path: string, literalEnd: bool)
    requires Joins(core, "/**")
    ensures (exists n :: 0 <= n <= |path| && StartsAt(anchored, path, n) && Glob(core + "/**", path[n..], literalEnd)) <==>
            Holds(anchored, core, path)
  {
    PartThenRest(anchored, core, "/**", path, literalEnd);
    forall k | 0 <= k <= |path| ensures Glob("/**", path[k..], literalEnd) <==> BelowAt(path, k) {
      BelowReads(path, k, literalEnd);
    }
  }

  /** A pattern that ends in a slash, unless a double star stands before it, matches exactly what is below what it reads. */
  lemma DirectoryMatchesExactly(value: string, directories: string, last: string, path: string)
    requires Splits(value, directories, last) && Joins(last, "/**")
    ensures Matches(Compiled(value + "/"), path) <==> Holds(directories != [], Unrooted(value), path)
  {
    CompiledGlobs(value + "/", path);
    DirectoryShape(value, directories, last);
    TreeBelow(directories != [], Unrooted(value), path, LiteralEnd(value + "/"));
  }

  lemma BelowReads(path: string, k: nat, literalEnd: bool)
    requires k <= |path|
    ensures Glob("/**", path[k..], literalEnd) <==> BelowAt(path, k)
  {
    TreeReads(path[k..], literalEnd);
    if k < |path| { assert path[k..][1..] == path[k + 1..]; }
  }

  lemma TreeReads(s: string, literalEnd: bool)
    ensures Glob("/**", s, literalEnd) <==> s != [] && s[0] == '/' && OneLine(s[1..])
  {
    assert "/**"[1..] == "**";
    if s != [] { AnythingOnOneLine(s[1..], literalEnd); }
  }

  /** A double star before the last slash: the pattern goes on to two stars, and so reads to the end of the path. */
  lemma DoubleStarDirectoryMatchesExactly(value: string, directories: string, last: string, path: string)
    requires Splits(value, directories, last) && !Joins(last, "/**")
    ensures Matches(Compiled(value + "/"), path) <==> ReadsWhole(directories != [], Unrooted(value) + "/**", path)
  {
    CompiledGlobs(value + "/", path);
    BodyIs(value, directories, last);
    AnchoredExactly(value, directories, last);
    LiteralExactly(value, directories, last);
    assert last[|last| - 1] in last;
  }

  // ---- Wildcards below a plain directory ----------------------------------------------------

  /** One star below d, with or without a leading slash: the direct children of d, and nothing deeper. */
  lemma DirectChildrenExactly(root: string, d: string, path: string)
    requires root in {"", "/"} && Plain(d) && d != [] && d[0] != '/'
    ensures Matches(Compiled(root + d + "/" + "*"), path) <==> d + "/" <= path && '/' !in path[|d| + 1..]
  {
    var value := root + d + "/" + "*";
    BelowDirectory(root, d, "*", path);
    if d + "/" <= path { OneStarReads(path[|d| + 1..]); }
  }

  lemma BelowDirectory(root: string, d: string, last: string, path: string)
    requires root in {"", "/"} && Plain(d) && d != [] && d[0] != '/' && last != [] && '/' !in last && Wild(last)
    ensures Matches(Compiled(root + d + "/" + last), path) <==> d + "/" <= path && Reads(last, path[|d| + 1..])
  {
    var value := root + d + "/" + last;
    assert value == (root + d + "/") + last && Splits(value, root + d + "/", last);
    assert root == "" ==> value[0] == d[0];
    assert root == "/" ==> value[1..] == d + "/" + last;
    assert Unrooted(value) == d + "/" + last;
    WildcardMatchesExactly(value, root + d + "/", last, path);
    assert path[0..] == path;
    GlobLiteralPrefix(d + "/", last, path, false);
    assert |d + "/"| == |d| + 1;
  }

  lemma OneMarkReads(s: string)
    ensures Reads("?", s) <==> |s| == 1 && s[0] != '/'
  {
    assert "?"[1..] == [];
  }

  lemma OneStarReads(s: string)
    ensures Reads("*", s) <==> '/' !in s
  {
    assert "*"[1..] == [];
    assert s[..|s|] == s && s[|s|..] == [];
    if '/' !in s { assert Glob([], s[|s|..], false); }
    if i :| 0 <= i <= |s| && '/' !in s[..i] && Glob([], s[i..], false) { assert i == |s|; }
  }

  /** A question mark below d: exactly one more character, which is no slash. */
  lemma OneCharacterExactly(root: string, d: string, path: string)
    requires root in {"", "/"} && Plain(d) && d != [] && d[0] != '/'
    ensures Matches(Compiled(root + d + "/" + "?"), path) <==> d + "/" <= path && |path| == |d| + 2 && path[|d| + 1] != '/'
  {
    BelowDirectory(root, d, "?", path);
    if d + "/" <= path { OneMarkReads(path[|d| + 1..]); }
  }

  /** An inner slash anchors a pattern: it matches nothing below other directories. */
  lemma InnerSlashAnchors(d: string, name: string, path: string)
    requires Plain(d) && Plain(name) && d != [] && d[0] != '/' && name != [] && '/' !in name
    ensures Matches(Compiled(d + "/" + name), path) <==>
              path == d + "/" + name || (d + "/" + name + "/" <= path && OneLine(path[|d| + |name| + 2..]))
  {
    var value := d + "/" + name;
    assert Splits(value, d + "/", name);
    AnchoredExactly(value, d + "/", name);
    assert value[0] == d[0] && name[|name| - 1] in name;
    AnchoredLiteral(value, path);
  }

  // ---- Runs of stars ------------------------------------------------------------------------

  function Stars(n: nat): string {
    if n == 0 then [] else "*" + Stars(n - 1)
  }

  lemma {:induction false} StarsDrop(n: nat, rest: string)
    requires rest == [] || rest[0] != '*'
    ensures DropStars(Stars(n) + rest) == rest
  {
    if n == 0 {
      assert Stars(n) + rest == rest;
    } else {
      assert Stars(n) + rest == "*" + (Stars(n - 1) + rest);
      StarsDrop(n - 1, rest);
    }
  }

  /** Two or more stars before a slash stand for nothing or whole directories on one line. */
  lemma StarredDirectories(n: nat, rest: string, path: string)
    requires n >= 2
    ensures Reads(Stars(n) + "/" + rest, path) <==>
              || Reads(rest, path)
              || exists i :: 0 <= i < |path| && path[i] == '/' && OneLine(path[..i]) && Reads(rest, path[i + 1..])
  {
    var pattern := Stars(n) + "/" + rest;
    StarsDrop(n, "/" + rest);
    assert pattern == Stars(n) + ("/" + rest) && ("/" + rest)[1..] == rest;
    assert Stars(n) == "*" + ("*" + Stars(n - 2));
    if i :| 0 <= i < |path| && path[i] == '/' && OneLine(path[..i]) && Reads(rest, path[i + 1..]) { assert DirsUpTo(path, i); }
    if i :| 0 <= i < |path| && DirsUpTo(path, i) && Reads(rest, path[i + 1..]) {
      assert path[i] == '/' && OneLine(path[..i]) && Reads(rest, path[i + 1..]);
    }
  }

  /** Two or more stars before anything else take any one line's worth of characters, slashes included. */
  lemma StarredCharacters(n: nat, rest: string, path: string)
    requires n >= 2 && (rest == [] || (rest[0] != '*' && rest[0] != '/'))
    ensures Reads(Stars(n) + rest, path) <==> exists i :: 0 <= i <= |path| && OneLine(path[..i]) && Reads(rest, path[i..])
  {
    StarsDrop(n, rest);
    assert Stars(n) == "*" + ("*" + Stars(n - 2));
  }
}
