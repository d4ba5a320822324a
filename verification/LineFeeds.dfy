/**
 Paths that hold a line feed.  The emitted expressions stop at one, so what is said of a
 directory is not said of every path below it: it is neither guarded nor owned there.
 */
module LineFeeds {
  import opened Options
  import opened Text
  import opened Patterns
  import opened Policy
  import opened Evaluator
  import opened Guardrails
  import C = Codeowners

  /** normalize_repository_path accepts the path: a relative one, with no edge whitespace and no odd segment. */
  ghost predicate RepositoryPath(path: string) {
    path != [] && Strip(path) == path && path[0] != '/' && '\\' !in path && GoodBetweenSlashes(path)
  }

  /** Below a directory whose own segments are good, any good name makes a path. */
  lemma NamesBelow(directory: string, name: string)
    requires '/' !in name && GoodSegment(name) && !IsSpace(name[|name| - 1]) && '\\' !in directory && '\\' !in name
    requires directory != [] && '/' !in directory && GoodSegment(directory) && !IsSpace(directory[0])
    ensures RepositoryPath(directory + "/" + name)
  {
    var path := directory + "/" + name;
    StripIsIdentity(path);
    SegmentsJoin(directory, name);
    OneSegment(name);
    SegmentsAreBetweenSlashes(path);
    assert path[0] == directory[0] && directory[0] in directory;
  }

  // ---- Guarded directories -------------------------------------------------------------

  lemma NotThere(name: string, path: string, k: nat)
    requires k < |name| && k < |path| && name[k] != path[k]
    ensures !FileOrBelow(name, path) && !Below(name, path)
  {
    assert (name + "/")[k] == name[k];
  }

  const WORKFLOWS := ".github/workflows/"

  lemma OtherBuiltinsMiss(rest: string)
    ensures Guarded(WORKFLOWS + rest) <==> Below(WORKFLOWS, WORKFLOWS + rest)
  {
    var path := WORKFLOWS + rest;
    assert path[0] == '.' && path[8] == 'w';
    NotThere("CODEOWNERS", path, 0);
    NotThere(".github/CODEOWNERS", path, 8);
    NotThere("docs/CODEOWNERS", path, 0);
    NotThere("stampbot.toml", path, 0);
    NotThere(".github/actions/", path, 8);
  }

  /** Below the workflow directory exactly the one-line names are guarded. */
  lemma WorkflowsGuardedExactly(rest: string)
    ensures AnyMatch(Matchers(BUILTINS), WORKFLOWS + rest) <==> OneLine(rest)
  {
    var path := WORKFLOWS + rest;
    assert path[|WORKFLOWS|..] == rest && WORKFLOWS <= path;
    BuiltinsMatchGuarded(path);
    OtherBuiltinsMiss(rest);
  }

  const FEED := "a\nb.yml"

  /** So a workflow file whose name holds a line feed is not guarded. */
  lemma GuardedFeedEscapes()
    ensures !AnyMatch(Matchers(BUILTINS), WORKFLOWS + FEED)
  {
    WorkflowsGuardedExactly(FEED);
    assert FEED[1] == '\n';
  }

  // ---- Owned directories -----------------------------------------------------------------

  /** A rule for an anchored wildcard-free directory owns exactly the one-line paths below it. */
  lemma DirectoryOwnedExactly(value: string, owners: seq<string>, line: nat, path: string)
    requires Plain(value) && Anchored(value) && WithoutAnchor(value) != [] && value[|value| - 1] == '/'
    ensures C.OwnersFor([C.Rule(value, owners, line)], path) ==
              if Below(WithoutAnchor(value), path) then owners else []
  {
    CompilationPreservesMeaning(value, path);
    AnchoredDirectory(value, path);
    LoneRule(C.Rule(value, owners, line), C.AppliesTo(path));
  }

  lemma LoneRule(rule: C.Rule, applies: C.Rule -> bool)
    ensures C.Chosen([rule], applies) == if applies(rule) then Some(rule) else None
  {
    assert [rule][..0] == [];
  }

  const SRC := "/src/"

  lemma SrcIsPlain()
    ensures Plain(SRC) && Anchored(SRC) && WithoutAnchor(SRC) == "src/" && SRC[|SRC| - 1] == '/'
  {
    assert SRC[1..] == "src/";
  }

  lemma BelowSrc(rest: string)
    ensures Below("src/", "src/" + rest) <==> OneLine(rest)
  {
    assert ("src/" + rest)[|"src/"|..] == rest;
  }

  const OWNED := C.Rule(SRC, ["@o"], 1)

  /** A rule for `/src/` owns a path below it exactly when the rest of the path is on one line. */
  lemma SrcOwnedExactly(rest: string)
    ensures C.OwnersFor([OWNED], "src/" + rest) == if OneLine(rest) then ["@o"] else []
  {
    SrcIsPlain();
    BelowSrc(rest);
    DirectoryOwnedExactly(SRC, ["@o"], 1, "src/" + rest);
  }

  /** So a repository path below an owned directory has no owner when its name holds a line feed. */
  lemma OwnedFeedEscapes()
    ensures C.OwnersFor([OWNED], "src/" + FEED) == []
  {
    SrcOwnedExactly(FEED);
    assert FEED[1] == '\n';
  }

  lemma OwnedFeedIsAPath()
    ensures RepositoryPath("src/" + FEED)
  {
    NamesBelow("src", FEED);
    assert "src" + "/" + FEED == "src/" + FEED;
  }

  // ---- An unapproved change that passes ------------------------------------------------------

  lemma OwnedPattern()
    ensures ValidatePattern(SRC) == Some(SRC)
  {
    StripIsIdentity(SRC);
    assert SRC[1..] == "src/" && "src/"[..3] == "src";
    OneSegment("src");
  }

  lemma OwnerNormal()
    ensures C.NormalizeOwner("@o") == C.Owner("@o")
  {
    StripIsIdentity("@o");
    assert "@o"[1..] == "o";
    assert C.Lower("@o") == "@o";
  }

  lemma OwnedIsPrintable()
    ensures C.Printable(OWNED)
  {
    OwnedPattern();
    OwnerNormal();
  }

  lemma OwnedText()
    ensures C.Print([OWNED]) == "/src/ @o\n"
  {
  }

  /** The printed rule is a CODEOWNERS document with just this rule. */
  lemma OwnedParses()
    ensures C.Parse(C.Print([OWNED])) == C.Document([OWNED])
  {
    OwnedIsPrintable();
    OwnedText();
    Utf8Bound(C.Print([OWNED]));
    assert forall rule :: rule in [OWNED] ==> rule == OWNED;
    C.RoundTrip([OWNED]);
    assert C.Numbered([OWNED]) == [OWNED];
  }

  // ---- The default guards are sound -----------------------------------------------------------

  function Join(parts: seq<string>): string
    requires parts != []
  {
    if |parts| == 1 then parts[0] else parts[0] + "/" + Join(parts[1..])
  }

  predicate CleanPart(part: string) {
    GoodSegment(part) && forall c :: c in part ==> c !in "/[]\\" && !IsSpace(c)
  }

  lemma {:induction false} JoinedSegments(parts: seq<string>)
    requires parts != [] && forall i :: 0 <= i < |parts| ==> CleanPart(parts[i])
    ensures Segments(Join(parts)) == parts
    ensures Join(parts) != [] && Join(parts)[|Join(parts)| - 1] != '/'
    ensures forall c :: c in Join(parts) ==> c !in "[]\\" && !IsSpace(c)
  {
    var first := parts[0];
    assert CleanPart(first) && first[|first| - 1] in first && '/' !in first;
    if |parts| == 1 {
      OneSegment(first);
    } else {
      assert forall i :: 0 <= i < |parts| - 1 ==> parts[1..][i] == parts[i + 1];
      JoinedSegments(parts[1..]);
      SegmentsJoin(first, Join(parts[1..]));
    }
  }

  lemma PartsAreCore(parts: seq<string>)
    requires parts != [] && forall i :: 0 <= i < |parts| ==> CleanPart(parts[i])
    ensures ValidCore(Join(parts))
  {
    JoinedSegments(parts);
    assert TrimSlashes(Join(parts)) == Join(parts);
  }

  lemma CleanValue(core: string)
    requires ValidCore(core) && core != [] && forall c :: c in core ==> c !in "[]\\" && !IsSpace(c)
    ensures Valid("/" + core)
  {
    var value := "/" + core;
    assert core[|core| - 1] in core && value[1..] == core;
    StripIsIdentity(value);
  }

  lemma AnchoredPartsAreValid(patterns: seq<string>, i: nat, parts: seq<string>)
    requires i < |patterns| && parts != [] && patterns[i] == "/" + Join(parts)
    requires forall k :: 0 <= k < |parts| ==> CleanPart(parts[k])
    ensures Valid(patterns[i])
  {
    JoinedSegments(parts);
    PartsAreCore(parts);
    CleanValue(Join(parts));
  }

  lemma RootValid(patterns: seq<string>, i: nat, name: string)
    requires i < |patterns| && patterns[i] == "/" + name && CleanPart(name)
    ensures Valid(patterns[i])
  {
    AnchoredPartsAreValid(patterns, i, [name]);
  }

  lemma NestedValid(patterns: seq<string>, i: nat, directory: string, name: string)
    requires i < |patterns| && patterns[i] == "/" + directory + "/" + name && CleanPart(directory) && CleanPart(name)
    ensures Valid(patterns[i])
  {
    assert [directory, name][1..] == [name];
    assert Join([directory, name]) == directory + "/" + name;
    assert "/" + directory + "/" + name == "/" + (directory + "/" + name);
    AnchoredPartsAreValid(patterns, i, [directory, name]);
  }

  lemma TreeValid(patterns: seq<string>, i: nat, top: string, directory: string)
    requires i < |patterns| && patterns[i] == "/" + top + "/" + directory + "/" + "**"
    requires CleanPart(top) && CleanPart(directory)
    ensures Valid(patterns[i])
  {
    var parts := [top, directory, "**"];
    assert parts[1..] == [directory, "**"] && [directory, "**"][1..] == ["**"];
    assert Join([directory, "**"]) == directory + "/" + "**";
    assert Join(parts) == top + "/" + (directory + "/" + "**");
    assert "/" + top + "/" + directory + "/" + "**" == "/" + (top + "/" + (directory + "/" + "**"));
    AnchoredPartsAreValid(patterns, i, parts);
  }

  const POLICY_FILE := "extra-codeowners.toml"
  const POLICY_PATH := ".github" + "/" + POLICY_FILE

  lemma PolicyPartsAreClean()
    ensures CleanPart(".github") && CleanPart(POLICY_FILE)
  {
  }

  lemma LonePathValid(patterns: seq<string>, directory: string, file: string)
    requires |patterns| == 1 && patterns[0] == "/" + directory + "/" + file
    requires CleanPart(directory) && CleanPart(file)
    ensures AllValid(patterns)
  {
    NestedValid(patterns, 0, directory, file);
    LoneValid(patterns);
  }

  lemma LoneValid(patterns: seq<string>)
    requires |patterns| == 1 && Valid(patterns[0])
    ensures AllValid(patterns)
  {
  }

  lemma RootFileValid(patterns: seq<string>)
    requires 0 < |patterns| && patterns[0] == BUILTINS[0]
    ensures AllValid([patterns[0]])
  {
    RootValid(patterns, 0, "CODEOWNERS");
  }

  lemma GithubFileValid(patterns: seq<string>)
    requires 1 < |patterns| && patterns[1] == BUILTINS[1]
    ensures AllValid([patterns[1]])
  {
    NestedValid(patterns, 1, ".github", "CODEOWNERS");
  }

  lemma DocsFileValid(patterns: seq<string>)
    requires 2 < |patterns| && patterns[2] == BUILTINS[2]
    ensures AllValid([patterns[2]])
  {
    NestedValid(patterns, 2, "docs", "CODEOWNERS");
  }

  lemma StampbotFileValid(patterns: seq<string>)
    requires 3 < |patterns| && patterns[3] == BUILTINS[3]
    ensures AllValid([patterns[3]])
  {
    RootValid(patterns, 3, "stampbot.toml");
  }

  lemma WorkflowsValid(patterns: seq<string>)
    requires 4 < |patterns| && patterns[4] == BUILTINS[4]
    ensures AllValid([patterns[4]])
  {
    TreeValid(patterns, 4, ".github", "workflows");
  }

  lemma ActionsValid(patterns: seq<string>)
    requires 5 < |patterns| && patterns[5] == BUILTINS[5]
    ensures AllValid([patterns[5]])
  {
    TreeValid(patterns, 5, ".github", "actions");
  }

  lemma SixValid(patterns: seq<string>)
    requires |patterns| == 6 && forall i :: 0 <= i < 6 ==> AllValid([patterns[i]])
    ensures AllValid(patterns)
  {
    JoinValid([patterns[0]], [patterns[1]]);
    JoinValid([patterns[0]] + [patterns[1]], [patterns[2]]);
    JoinValid([patterns[0]] + [patterns[1]] + [patterns[2]], [patterns[3]]);
    JoinValid([patterns[0]] + [patterns[1]] + [patterns[2]] + [patterns[3]], [patterns[4]]);
    JoinValid([patterns[0]] + [patterns[1]] + [patterns[2]] + [patterns[3]] + [patterns[4]], [patterns[5]]);
    assert patterns == [patterns[0]] + [patterns[1]] + [patterns[2]] + [patterns[3]] + [patterns[4]] + [patterns[5]];
  }

  lemma JoinValid(some: seq<string>, more: seq<string>)
    requires AllValid(some) && AllValid(more)
    ensures AllValid(some + more)
  {
  }

  /** The built-in patterns never stop a policy from compiling. */
  lemma BuiltinsValid()
    ensures AllValid(BUILTINS)
  {
    RootFileValid(BUILTINS);
    GithubFileValid(BUILTINS);
    DocsFileValid(BUILTINS);
    StampbotFileValid(BUILTINS);
    WorkflowsValid(BUILTINS);
    ActionsValid(BUILTINS);
    SixValid(BUILTINS);
  }

  // ---- The whole input --------------------------------------------------------------------------

  const DEFAULTS := RunOptions(true, false, POLICY_PATH)
  const NO_APPS := Organization([], [])
  const ENABLED := Repository(true, false, false, [])

  /** Default options and policies that delegate nothing are sound. */
  lemma DefaultsAreSound()
    ensures Sound(NO_APPS, ENABLED, DEFAULTS)
  {
    BuiltinsValid();
    PolicyPartsAreClean();
    assert "/" + POLICY_PATH == "/" + ".github" + "/" + POLICY_FILE;
    LonePathValid(["/" + POLICY_PATH], ".github", POLICY_FILE);
    JoinValid(BUILTINS, ["/" + POLICY_PATH]);
    assert NonDelegablePaths(NO_APPS, ENABLED, DEFAULTS) == BUILTINS + ["/" + POLICY_PATH];
  }

  /** One changed file below the owned directory, no review, no author evidence, and default policy. */
  function Change(rest: string): Input {
    Input("head", C.Print([OWNED]), [ChangedFile("src/" + rest, None)], [], None, {}, NO_APPS, ENABLED, DEFAULTS)
  }

  lemma OwnersOfOwned(rest: string)
    ensures Ownership([OWNED])("src/" + rest) == if OneLine(rest) then {"@o"} else {}
  {
    SrcOwnedExactly(rest);
    OwnersAsSet([OWNED], "src/" + rest);
  }

  lemma OwnersAsSet(rules: seq<C.Rule>, path: string)
    ensures Ownership(rules)(path) == OwnerSet(C.OwnersFor(rules, path))
  {
  }

  lemma NobodyApproves(rest: string, owners: set<string>)
    ensures PathApproved(Change(rest), Effective(NO_APPS, ENABLED, DEFAULTS), "src/" + rest, owners) <==> owners == {}
  {
    var data := Change(rest);
    assert forall review :: !CurrentApproval(data, review);
  }

  /**
   A change below the owned directory that nobody has approved passes exactly when the
   rest of its path holds a line feed; on one line it is refused, as it should be.
   */
  lemma UnapprovedChangePassesExactly(rest: string)
    ensures Approvable(Change(rest)) <==> !OneLine(rest)
  {
    var data := Change(rest);
    var policy := Effective(NO_APPS, ENABLED, DEFAULTS);
    DefaultsAreSound();
    OwnedParses();
    OwnersOfOwned(rest);
    NobodyApproves(rest, Ownership([OWNED])("src/" + rest));
    OnlyChange(data, policy, Ownership([OWNED]), "src/" + rest);
  }

  lemma OnlyChange(data: Input, policy: CompiledPolicy, ownersOf: string -> set<string>, path: string)
    requires data.changedFiles == [ChangedFile(path, None)]
    ensures AllApproved(data, policy, ownersOf) <==> PathApproved(data, policy, path, ownersOf(path))
  {
    assert Changed(data, path) by { assert data.changedFiles[0].path == path; }
    assert forall other :: Changed(data, other) ==> other == path;
  }
}
