/** The built-in guarded paths, and what they guarantee about every successful evaluation. */
module Guardrails {
  import opened Options
  import opened Text
  import opened Patterns
  import opened Policy
  import opened Evaluator

  /** A file of this name, or anything on one line below a directory of this name. */
  predicate FileOrBelow(name: string, path: string) {
    path == name || (name + "/" <= path && OneLine(path[|name| + 1..]))
  }

  predicate Below(directory: string, path: string) {
    directory <= path && OneLine(path[|directory|..])
  }

  /** The paths that define or execute the approval boundary. */
  predicate Guarded(path: string) {
    || FileOrBelow("CODEOWNERS", path) || FileOrBelow(".github/CODEOWNERS", path)
    || FileOrBelow("docs/CODEOWNERS", path) || FileOrBelow("stampbot.toml", path)
    || Below(".github/workflows/", path) || Below(".github/actions/", path)
  }

  lemma FilePattern(patterns: seq<string>, i: nat, name: string, path: string)
    requires i < |patterns| && patterns[i] == "/" + name
    requires Plain(name) && name != [] && !IsSpace(name[|name| - 1]) && name[|name| - 1] != '/'
    ensures Matchers(patterns)[i](path) <==> FileOrBelow(name, path)
  {
    var value := "/" + name;
    StripIsIdentity(value);
    assert value[1..] == name;
    CompilationPreservesMeaning(value, path);
    AnchoredLiteral(value, path);
  }

  lemma TreePattern(patterns: seq<string>, i: nat, directory: string, path: string)
    requires i < |patterns| && patterns[i] == "/" + directory + "**" && Plain(directory) && directory != []
    ensures Matchers(patterns)[i](path) <==> Below(directory, path)
  {
    StripIsIdentity(patterns[i]);
    AnchoredTree(directory, path);
  }

  lemma AnyOfSix(matchers: seq<Matcher>, path: string)
    requires |matchers| == 6
    ensures AnyMatch(matchers, path) <==>
              matchers[0](path) || matchers[1](path) || matchers[2](path)
              || matchers[3](path) || matchers[4](path) || matchers[5](path)
  {
  }

  lemma RootFile(path: string)
    ensures Matchers(BUILTINS)[0](path) <==> FileOrBelow("CODEOWNERS", path)
  {
    FilePattern(BUILTINS, 0, "CODEOWNERS", path);
  }

  lemma GithubFile(path: string)
    ensures Matchers(BUILTINS)[1](path) <==> FileOrBelow(".github/CODEOWNERS", path)
  {
    FilePattern(BUILTINS, 1, ".github/CODEOWNERS", path);
  }

  lemma DocsFile(path: string)
    ensures Matchers(BUILTINS)[2](path) <==> FileOrBelow("docs/CODEOWNERS", path)
  {
    FilePattern(BUILTINS, 2, "docs/CODEOWNERS", path);
  }

  lemma StampbotFile(path: string)
    ensures Matchers(BUILTINS)[3](path) <==> FileOrBelow("stampbot.toml", path)
  {
    FilePattern(BUILTINS, 3, "stampbot.toml", path);
  }

  lemma WorkflowTree(path: string)
    ensures Matchers(BUILTINS)[4](path) <==> Below(".github/workflows/", path)
  {
    TreePattern(BUILTINS, 4, ".github/workflows/", path);
  }

  lemma ActionTree(path: string)
    ensures Matchers(BUILTINS)[5](path) <==> Below(".github/actions/", path)
  {
    TreePattern(BUILTINS, 5, ".github/actions/", path);
  }

  /** The built-in patterns match exactly the guarded paths. */
  lemma BuiltinsMatchGuarded(path: string)
    ensures AnyMatch(Matchers(BUILTINS), path) <==> Guarded(path)
  {
    AnyOfSix(Matchers(BUILTINS), path);
    RootFile(path);
    GithubFile(path);
    DocsFile(path);
    StampbotFile(path);
    WorkflowTree(path);
    ActionTree(path);
  }

  lemma MatchesStay(before: seq<string>, some: seq<string>, after: seq<string>, path: string)
    requires AnyMatch(Matchers(some), path)
    ensures AnyMatch(Matchers(before + some + after), path)
  {
    var all := before + some + after;
    var i :| 0 <= i < |some| && Matchers(some)[i](path);
    assert all[|before| + i] == some[i];
    assert Matchers(all)[|before| + i](path);
  }

  /** What approves a path that no application may approve. */
  ghost predicate OwnersApprove(data: Input, owners: set<string>) {
    owners == {} || HumanApproves(data, owners) || AuthorIdentities(data) * owners != {}
  }

  function Guards(data: Input): seq<string> {
    NonDelegablePaths(data.organization, data.repository, data.options)
  }

  function PolicyOf(data: Input): CompiledPolicy {
    Effective(data.organization, data.repository, data.options)
  }

  lemma NonDelegableNeedsOwners(data: Input, path: string, owners: set<string>)
    requires AnyMatch(Matchers(Guards(data)), path)
    ensures PathApproved(data, PolicyOf(data), path, owners) <==> OwnersApprove(data, owners)
  {
  }

  lemma BuiltinsFirst(data: Input) returns (rest: seq<string>)
    requires !data.options.allowInsecure
    ensures Guards(data) == [] + BUILTINS + rest
  {
    var policyFile := if data.repository.policyFileDelegable then [] else ["/" + data.options.policyPath];
    rest := policyFile + data.organization.nonDelegable;
    assert BUILTINS + policyFile + data.organization.nonDelegable == BUILTINS + rest;
  }

  /** Without the insecure escape hatch only its owners approve a guarded path, whatever applications say. */
  lemma GuardedPathsNeedTheirOwners(data: Input, path: string, owners: set<string>)
    requires !data.options.allowInsecure && Guarded(path)
    ensures PathApproved(data, PolicyOf(data), path, owners) <==> OwnersApprove(data, owners)
  {
    BuiltinsMatchGuarded(path);
    var rest := BuiltinsFirst(data);
    MatchesStay([], BUILTINS, rest, path);
    NonDelegableNeedsOwners(data, path, owners);
  }

  /** So is the repository's own policy file, unless the repository has opted in. */
  lemma PolicyFileNeedsItsOwners(data: Input, owners: set<string>)
    requires !data.options.allowInsecure && !data.repository.policyFileDelegable
    requires var file := data.options.policyPath;
             Plain(file) && file != [] && !IsSpace(file[|file| - 1]) && file[|file| - 1] != '/'
    ensures PathApproved(data, PolicyOf(data), data.options.policyPath, owners) <==> OwnersApprove(data, owners)
  {
    var file := data.options.policyPath;
    FilePattern(["/" + file], 0, file, file);
    assert Matchers(["/" + file])[0](file);
    MatchesStay(BUILTINS, ["/" + file], data.organization.nonDelegable, file);
    NonDelegableNeedsOwners(data, file, owners);
  }

  lemma OrganizationLast(data: Input) returns (guarded: seq<string>)
    ensures Guards(data) == guarded + data.organization.nonDelegable + []
  {
    guarded := if data.options.allowInsecure then []
               else BUILTINS + if data.repository.policyFileDelegable then [] else ["/" + data.options.policyPath];
  }

  /** The organization's own patterns bind whatever the run or the repository allows. */
  lemma OrganizationPathsNeedTheirOwners(data: Input, path: string, owners: set<string>)
    requires AnyMatch(Matchers(data.organization.nonDelegable), path)
    ensures PathApproved(data, PolicyOf(data), path, owners) <==> OwnersApprove(data, owners)
  {
    var guarded := OrganizationLast(data);
    MatchesStay(guarded, data.organization.nonDelegable, [], path);
    NonDelegableNeedsOwners(data, path, owners);
  }
}
