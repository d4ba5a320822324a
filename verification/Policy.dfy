/** Compilation of organization and repository policy, and delegation decisions for one path. */
module Policy {
  import opened Options
  import opened Text
  import opened Patterns

  datatype App = App(alias: string, slug: string, appId: nat, botUserId: nat)
  datatype Organization = Organization(apps: seq<App>, nonDelegable: seq<string>)
  datatype Delegation = Delegation(
    app: string, paths: seq<string>, forOwners: seq<string>,
    requiredLabels: set<string>, forbiddenLabels: set<string>)
  datatype Repository = Repository(
    enabled: bool, authorCounts: bool, policyFileDelegable: bool, delegations: seq<Delegation>)
  datatype RunOptions = RunOptions(exactHead: bool, allowInsecure: bool, policyPath: string)

  /** A compiled pattern decides paths. */
  type Matcher = string -> bool

  function CompileMatcher(pattern: string): Matcher {
    (path: string) => PatternMatches(Strip(pattern), path)
  }

  function Matchers(patterns: seq<string>): (r: seq<Matcher>)
    ensures |r| == |patterns|
    ensures forall i :: 0 <= i < |patterns| ==> r[i] == CompileMatcher(patterns[i])
  {
    seq(|patterns|, i requires 0 <= i < |patterns| => CompileMatcher(patterns[i]))
  }

  predicate AnyMatch(matchers: seq<Matcher>, path: string) {
    exists i :: 0 <= i < |matchers| && matchers[i](path)
  }

  // ---- compile_policy --------------------------------------------------------------------

  const BUILTINS: seq<string> := [
    "/CODEOWNERS", "/.github/CODEOWNERS", "/docs/CODEOWNERS", "/stampbot.toml",
    "/.github/workflows/**", "/.github/actions/**"]

  /** The organization's additions are always last, whatever the run or the repository allows. */
  function NonDelegablePaths(organization: Organization, repository: Repository, options: RunOptions): seq<string> {
    (if options.allowInsecure then []
     else BUILTINS + if repository.policyFileDelegable then [] else ["/" + options.policyPath])
    + organization.nonDelegable
  }

  datatype CompiledDelegation = CompiledDelegation(rule: Delegation, patterns: seq<Matcher>)
  datatype CompiledPolicy = CompiledPolicy(delegations: seq<CompiledDelegation>, nonDelegable: seq<Matcher>)
  datatype PolicyIssue =
    | InvalidNonDelegable(pattern: string)
    | Unenrolled(index: nat)
    | InvalidDelegationPattern(index: nat, pattern: string)
  datatype Compilation = Compiled(policy: CompiledPolicy) | Invalid(issues: seq<PolicyIssue>)

  predicate Valid(pattern: string) {
    ValidatePattern(pattern).Some?
  }

  predicate AllValid(patterns: seq<string>) {
    forall i :: 0 <= i < |patterns| ==> Valid(patterns[i])
  }

  predicate Enrolled(organization: Organization, alias: string) {
    exists i :: 0 <= i < |organization.apps| && organization.apps[i].alias == alias
  }

  predicate SoundDelegation(organization: Organization, delegation: Delegation) {
    Enrolled(organization, delegation.app) && AllValid(delegation.paths)
  }

  /** Every guarded pattern is valid and every delegation names an enrolled application and valid paths. */
  predicate Sound(organization: Organization, repository: Repository, options: RunOptions) {
    && AllValid(NonDelegablePaths(organization, repository, options))
    && forall i :: 0 <= i < |repository.delegations| ==> SoundDelegation(organization, repository.delegations[i])
  }

  function CompileDelegation(delegation: Delegation): CompiledDelegation {
    CompiledDelegation(delegation, Matchers(delegation.paths))
  }

  /** The policy a sound pair compiles to. */
  function Effective(organization: Organization, repository: Repository, options: RunOptions): CompiledPolicy {
    CompiledPolicy(
      seq(|repository.delegations|, i requires 0 <= i < |repository.delegations| =>
        CompileDelegation(repository.delegations[i])),
      Matchers(NonDelegablePaths(organization, repository, options)))
  }

  method CheckPatterns(patterns: seq<string>) returns (invalid: seq<string>)
    ensures invalid == [] <==> AllValid(patterns)
    ensures forall pattern :: pattern in invalid <==> pattern in patterns && !Valid(pattern)
  {
    invalid := [];
    for i := 0 to |patterns|
      invariant invalid == [] <==> forall j :: 0 <= j < i ==> Valid(patterns[j])
      invariant forall pattern :: pattern in invalid <==> pattern in patterns[..i] && !Valid(pattern)
    {
      if !Valid(patterns[i]) { invalid := invalid + [patterns[i]]; }
    }
    assert patterns[..|patterns|] == patterns;
  }

  /** What the compiler reports: each invalid guarded pattern, unenrolled application, and invalid delegation path. */
  ghost predicate Reported(organization: Organization, guarded: seq<string>, delegations: seq<Delegation>,
                           issue: PolicyIssue)
  {
    match issue
    case InvalidNonDelegable(pattern) => pattern in guarded && !Valid(pattern)
    case Unenrolled(index) =>
      1 <= index <= |delegations| && !Enrolled(organization, delegations[index - 1].app)
    case InvalidDelegationPattern(index, pattern) =>
      && 1 <= index <= |delegations| && Enrolled(organization, delegations[index - 1].app)
      && pattern in delegations[index - 1].paths && !Valid(pattern)
  }

  /** The issues found in one delegation. */
  method CheckDelegation(organization: Organization, delegation: Delegation, index: nat) returns (issues: seq<PolicyIssue>)
    ensures issues == [] <==> SoundDelegation(organization, delegation)
    ensures forall issue :: issue in issues <==>
              || (issue == Unenrolled(index) && !Enrolled(organization, delegation.app))
              || (issue.InvalidDelegationPattern? && issue.index == index && Enrolled(organization, delegation.app)
                  && issue.pattern in delegation.paths && !Valid(issue.pattern))
  {
    if !Enrolled(organization, delegation.app) { return [Unenrolled(index)]; }
    var invalid := CheckPatterns(delegation.paths);
    issues := seq(|invalid|, k requires 0 <= k < |invalid| => InvalidDelegationPattern(index, invalid[k]));
    forall pattern | pattern in invalid ensures InvalidDelegationPattern(index, pattern) in issues {
      var k :| 0 <= k < |invalid| && invalid[k] == pattern;
      assert issues[k] == InvalidDelegationPattern(index, pattern);
    }
  }

  /** The guarded patterns come first, then each delegation in order. */
  method CompileDelegations(organization: Organization, guarded: seq<string>, delegations: seq<Delegation>)
    returns (issues: seq<PolicyIssue>, compiled: seq<CompiledDelegation>)
    ensures issues == [] <==>
              AllValid(guarded) && forall i :: 0 <= i < |delegations| ==> SoundDelegation(organization, delegations[i])
    ensures forall issue :: issue in issues <==> Reported(organization, guarded, delegations, issue)
    ensures issues == [] ==>
              |compiled| == |delegations| && forall i :: 0 <= i < |delegations| ==> compiled[i] == CompileDelegation(delegations[i])
  {
    issues := CheckGuarded(guarded);
    compiled := [];
    for i := 0 to |delegations|
      invariant issues == [] <==>
                  AllValid(guarded) && forall j :: 0 <= j < i ==> SoundDelegation(organization, delegations[j])
      invariant issues == [] ==> |compiled| == i && forall j :: 0 <= j < i ==> compiled[j] == CompileDelegation(delegations[j])
      invariant forall issue :: issue in issues <==> Reported(organization, guarded, delegations[..i], issue)
    {
      var found := CheckDelegation(organization, delegations[i], i + 1);
      if found == [] { compiled := compiled + [CompileDelegation(delegations[i])]; }
      issues := issues + found;
    }
    assert delegations[..|delegations|] == delegations;
  }

  method CheckGuarded(guarded: seq<string>) returns (issues: seq<PolicyIssue>)
    ensures issues == [] <==> AllValid(guarded)
    ensures forall issue :: issue in issues <==>
              issue.InvalidNonDelegable? && issue.pattern in guarded && !Valid(issue.pattern)
  {
    var invalid := CheckPatterns(guarded);
    issues := seq(|invalid|, i requires 0 <= i < |invalid| => InvalidNonDelegable(invalid[i]));
    forall pattern | pattern in invalid ensures InvalidNonDelegable(pattern) in issues {
      var k :| 0 <= k < |invalid| && invalid[k] == pattern;
      assert issues[k] == InvalidNonDelegable(pattern);
    }
  }

  method CompilePolicy(organization: Organization, repository: Repository, options: RunOptions)
    returns (compilation: Compilation)
    ensures compilation.Compiled? <==> Sound(organization, repository, options)
    ensures compilation.Compiled? ==> compilation.policy == Effective(organization, repository, options)
    ensures compilation.Invalid? ==>
              forall issue :: issue in compilation.issues <==>
                Reported(organization, NonDelegablePaths(organization, repository, options), repository.delegations, issue)
  {
    var guarded := NonDelegablePaths(organization, repository, options);
    var issues, compiled := CompileDelegations(organization, guarded, repository.delegations);
    compilation := if issues != [] then Invalid(issues) else Compiled(CompiledPolicy(compiled, Matchers(guarded)));
  }

  lemma AnyMatchMeans(patterns: seq<string>, path: string)
    ensures AnyMatch(Matchers(patterns), path) <==>
              exists i :: 0 <= i < |patterns| && PatternMatches(Strip(patterns[i]), path)
  {
    if i :| 0 <= i < |patterns| && PatternMatches(Strip(patterns[i]), path) {
      assert Matchers(patterns)[i](path);
    }
  }

  // ---- Decisions for one path ----------------------------------------------------------------

  datatype Reason = MissingLabels(labels: set<string>) | ForbiddenLabels(labels: set<string>)
  datatype Decision = Decision(app: string, eligible: bool, reasons: set<Reason>)

  predicate OwnersApply(forOwners: seq<string>, owners: set<string>) {
    "*" in forOwners || exists i :: 0 <= i < |forOwners| && forOwners[i] in owners
  }

  predicate Applies(delegation: CompiledDelegation, path: string, owners: set<string>) {
    AnyMatch(delegation.patterns, path) && OwnersApply(delegation.rule.forOwners, owners)
  }

  predicate LabelsAllow(rule: Delegation, labels: set<string>) {
    rule.requiredLabels <= labels && rule.forbiddenLabels !! labels
  }

  ghost predicate ReportedMissing(reasons: set<Reason>, name: string) {
    exists reason :: reason in reasons && reason.MissingLabels? && name in reason.labels
  }

  ghost predicate ReportedForbidden(reasons: set<Reason>, name: string) {
    exists reason :: reason in reasons && reason.ForbiddenLabels? && name in reason.labels
  }

  /** Exactly the missing and the forbidden labels are reported, and nothing when the labels allow the delegation. */
  function Reasons(rule: Delegation, labels: set<string>): (reasons: set<Reason>)
    ensures reasons == {} <==> LabelsAllow(rule, labels)
    ensures forall name :: ReportedMissing(reasons, name) <==> name in rule.requiredLabels && name !in labels
    ensures forall name :: ReportedForbidden(reasons, name) <==> name in rule.forbiddenLabels && name in labels
  {
    var missing := rule.requiredLabels - labels;
    var forbidden := rule.forbiddenLabels * labels;
    var reasons := (if missing != {} then {MissingLabels(missing)} else {})
                   + (if forbidden != {} then {ForbiddenLabels(forbidden)} else {});
    assert forall name :: name in rule.requiredLabels ==> name in missing || name in labels;
    assert missing != {} ==> MissingLabels(missing) in reasons;
    assert forbidden != {} ==> ForbiddenLabels(forbidden) in reasons;
    assert forall reason :: reason in reasons ==> reason == MissingLabels(missing) || reason == ForbiddenLabels(forbidden);
    assert forall name :: name in missing ==> ReportedMissing(reasons, name);
    assert forall name :: name in forbidden ==> ReportedForbidden(reasons, name);
    reasons
  }

  function Decide(delegation: CompiledDelegation, path: string, owners: set<string>, labels: set<string>)
    : (r: Option<Decision>)
    ensures r.Some? <==> Applies(delegation, path, owners)
    ensures r.Some? ==> r.value.app == delegation.rule.app && r.value.reasons == Reasons(delegation.rule, labels)
                        && (r.value.eligible <==> LabelsAllow(delegation.rule, labels))
  {
    if !Applies(delegation, path, owners) then None
    else
      var reasons := Reasons(delegation.rule, labels);
      Some(Decision(delegation.rule.app, reasons == {}, reasons))
  }

  method RelevantDecisions(policy: CompiledPolicy, path: string, owners: set<string>, labels: set<string>)
    returns (decisions: seq<Decision>)
    ensures forall d :: d in decisions <==>
              exists i :: 0 <= i < |policy.delegations| && Decide(policy.delegations[i], path, owners, labels) == Some(d)
  {
    decisions := [];
    for i := 0 to |policy.delegations|
      invariant forall d :: d in decisions <==>
                  exists j :: 0 <= j < i && Decide(policy.delegations[j], path, owners, labels) == Some(d)
    {
      var decision := Decide(policy.delegations[i], path, owners, labels);
      if decision.Some? { decisions := decisions + [decision.value]; }
    }
  }

  /** The decisions about one application, in order. */
  function About(decisions: seq<Decision>, alias: string): (r: seq<Decision>)
    ensures forall d :: d in r <==> d in decisions && d.app == alias
  {
    if decisions == [] then []
    else
      var last := decisions[|decisions| - 1];
      assert decisions == decisions[..|decisions| - 1] + [last];
      About(decisions[..|decisions| - 1], alias) + if last.app == alias then [last] else []
  }

  function GroupOf(byApp: map<string, seq<Decision>>, alias: string): seq<Decision> {
    if alias in byApp then byApp[alias] else []
  }

  method GroupByApp(decisions: seq<Decision>) returns (byApp: map<string, seq<Decision>>)
    ensures forall alias :: About(decisions, alias) == GroupOf(byApp, alias)
    ensures forall alias :: alias in byApp ==> byApp[alias] != []
  {
    byApp := map[];
    for i := 0 to |decisions|
      invariant forall alias :: About(decisions[..i], alias) == GroupOf(byApp, alias)
      invariant forall alias :: alias in byApp ==> byApp[alias] != []
    {
      var d := decisions[i];
      ghost var done, before := decisions[..i], byApp;
      assert decisions[..i + 1] == done + [d];
      byApp := byApp[d.app := (if d.app in byApp then byApp[d.app] else []) + [d]];
      forall alias ensures About(done + [d], alias) == GroupOf(byApp, alias) {
        AboutNext(done, d, alias);
        assert About(done, alias) == GroupOf(before, alias);
      }
    }
    assert decisions[..|decisions|] == decisions;
  }

  lemma AboutNext(decisions: seq<Decision>, d: Decision, alias: string)
    ensures About(decisions + [d], alias) == About(decisions, alias) + if d.app == alias then [d] else []
  {
    assert (decisions + [d])[..|decisions|] == decisions;
  }

  function Pooled(decisions: seq<Decision>): (r: set<Reason>)
    ensures forall reason :: reason in r <==> exists d :: d in decisions && reason in d.reasons
  {
    set d, reason | d in decisions && reason in d.reasons :: reason
  }

  /** Any eligible delegation suffices; otherwise the reasons are pooled. */
  function Merge(alias: string, decisions: seq<Decision>): (r: Decision)
    ensures r.app == alias && (r.eligible <==> exists d :: d in decisions && d.eligible)
    ensures r.reasons == if r.eligible then {} else Pooled(decisions)
  {
    if exists i :: 0 <= i < |decisions| && decisions[i].eligible then Decision(alias, true, {})
    else Decision(alias, false, Pooled(decisions))
  }

  method Coalesce(decisions: seq<Decision>) returns (coalesced: map<string, Decision>)
    ensures forall alias :: alias in coalesced <==> About(decisions, alias) != []
    ensures forall alias :: alias in coalesced ==> coalesced[alias] == Merge(alias, About(decisions, alias))
  {
    var byApp := GroupByApp(decisions);
    coalesced := map alias | alias in byApp :: Merge(alias, byApp[alias]);
  }

  ghost predicate Permits(delegation: CompiledDelegation, path: string, owners: set<string>, labels: set<string>) {
    Applies(delegation, path, owners) && LabelsAllow(delegation.rule, labels)
  }

  /** Some delegation to this application covers the path for these owners, and the labels allow it. */
  ghost predicate Eligible(policy: CompiledPolicy, alias: string, path: string, owners: set<string>, labels: set<string>) {
    exists i :: 0 <= i < |policy.delegations|
      && policy.delegations[i].rule.app == alias && Permits(policy.delegations[i], path, owners, labels)
  }

  lemma DecisionsAbout(policy: CompiledPolicy, path: string, owners: set<string>, labels: set<string>,
                       relevant: seq<Decision>, alias: string)
    requires forall d :: d in relevant <==>
               exists i :: 0 <= i < |policy.delegations| && Decide(policy.delegations[i], path, owners, labels) == Some(d)
    ensures About(relevant, alias) != [] <==>
              exists i :: 0 <= i < |policy.delegations| && policy.delegations[i].rule.app == alias
                          && Applies(policy.delegations[i], path, owners)
    ensures (exists d :: d in About(relevant, alias) && d.eligible) <==> Eligible(policy, alias, path, owners, labels)
  {
    var about := About(relevant, alias);
    forall i | 0 <= i < |policy.delegations| && policy.delegations[i].rule.app == alias
               && Applies(policy.delegations[i], path, owners)
      ensures Decide(policy.delegations[i], path, owners, labels).value in about
    {
    }
    if about != [] { assert about[0] in about; }
  }

  method DelegationDecisions(policy: CompiledPolicy, path: string, owners: set<string>, labels: set<string>)
    returns (decisions: map<string, Decision>)
    ensures forall alias :: alias in decisions && decisions[alias].eligible <==>
              Eligible(policy, alias, path, owners, labels)
    ensures forall alias :: alias in decisions <==>
              exists i :: 0 <= i < |policy.delegations| && policy.delegations[i].rule.app == alias
                          && Applies(policy.delegations[i], path, owners)
  {
    var relevant := RelevantDecisions(policy, path, owners, labels);
    decisions := Coalesce(relevant);
    forall alias
      ensures About(relevant, alias) != [] <==>
                exists i :: 0 <= i < |policy.delegations| && policy.delegations[i].rule.app == alias
                            && Applies(policy.delegations[i], path, owners)
      ensures (exists d :: d in About(relevant, alias) && d.eligible) <==> Eligible(policy, alias, path, owners, labels)
    {
      DecisionsAbout(policy, path, owners, labels, relevant, alias);
    }
  }
}
