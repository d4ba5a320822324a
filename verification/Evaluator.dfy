/**
 The approval decision for one pull request. The service groups changed paths by owner set and
 decides group by group; `Evaluate` is proved equal to a definition that looks at one path at a time.
 */
module Evaluator {
  import opened Options
  import opened Text
  import opened Policy
  import C = Codeowners

  datatype ActorKind = Human | Application
  datatype Actor = Actor(
    kind: ActorKind, login: string, userId: nat, appId: nat, appSlug: string,
    ownerAliases: set<string>, directOwnerEligible: bool)
  datatype ReviewState = Approved | ChangesRequested | Commented | Dismissed | Pending
  datatype Review = Review(id: nat, actor: Actor, state: ReviewState, commitSha: Option<string>, submittedAt: nat)
  datatype Author = Author(login: string, ownerAliases: set<string>, directOwnerEligible: bool)
  datatype ChangedFile = ChangedFile(path: string, previousPath: Option<string>)
  datatype Input = Input(
    headSha: string, codeowners: string, changedFiles: seq<ChangedFile>, reviews: seq<Review>,
    author: Option<Author>, labels: set<string>, organization: Organization, repository: Repository,
    options: RunOptions)

  // ---- Reviews that count -------------------------------------------------------------------

  predicate Opinionated(review: Review) {
    review.state in {Approved, ChangesRequested, Dismissed}
  }

  function ActorKey(review: Review): (ActorKind, nat) {
    (review.actor.kind, review.actor.userId)
  }

  /** The comparison the service sorts and replaces by. */
  predicate Before(a: Review, b: Review) {
    a.submittedAt < b.submittedAt || (a.submittedAt == b.submittedAt && a.id < b.id)
  }

  /** An opinionated review that no other opinionated review by the same actor follows; the first of equals stands. */
  ghost predicate LatestAmong(reviews: seq<Review>, n: nat, i: nat)
    requires n <= |reviews|
  {
    && i < n && Opinionated(reviews[i])
    && forall j :: 0 <= j < n && Opinionated(reviews[j]) && ActorKey(reviews[j]) == ActorKey(reviews[i]) ==>
         || reviews[j].submittedAt < reviews[i].submittedAt
         || (reviews[j].submittedAt == reviews[i].submittedAt && reviews[j].id < reviews[i].id)
         || (reviews[j].submittedAt == reviews[i].submittedAt && reviews[j].id == reviews[i].id && i <= j)
  }

  ghost predicate Latest(reviews: seq<Review>, i: nat) {
    LatestAmong(reviews, |reviews|, i)
  }

  ghost predicate Stands(reviews: seq<Review>, review: Review) {
    exists i :: 0 <= i < |reviews| && reviews[i] == review && Latest(reviews, i)
  }

  /** Times never decrease, and at one time ids never do. */
  ghost predicate Ordered(s: seq<Review>) {
    && (forall i, j :: 0 <= i < j < |s| ==> s[i].submittedAt <= s[j].submittedAt)
    && (forall i, j :: 0 <= i < j < |s| && s[i].submittedAt == s[j].submittedAt ==> s[i].id <= s[j].id)
  }

  function InsertByTime(s: seq<Review>, review: Review): (r: seq<Review>)
    ensures multiset(r) == multiset(s) + multiset{review}
    ensures forall x :: x in r <==> x in s || x == review
  {
    if s == [] || Before(review, s[0]) then [review] + s
    else
      assert s == [s[0]] + s[1..];
      [s[0]] + InsertByTime(s[1..], review)
  }

  lemma {:induction false} InsertKeepsOrder(s: seq<Review>, review: Review)
    requires Ordered(s)
    ensures Ordered(InsertByTime(s, review))
  {
    if s != [] && !Before(review, s[0]) {
      InsertKeepsOrder(s[1..], review);
      var rest := InsertByTime(s[1..], review);
      forall j | 0 <= j < |rest| ensures !Before(rest[j], s[0]) { assert rest[j] in rest; }
    }
  }

  type ActorId = (ActorKind, nat)

  ghost predicate Entry(reviews: seq<Review>, n: nat, key: ActorId, review: Review, i: nat)
    requires n <= |reviews|
  {
    LatestAmong(reviews, n, i) && reviews[i] == review && ActorKey(review) == key
  }

  /** The dictionary of latest reviews after the first n, with the position of each entry. */
  ghost predicate LatestSoFar(reviews: seq<Review>, n: nat, latest: map<ActorId, Review>, at: map<ActorId, nat>)
    requires n <= |reviews|
  {
    && latest.Keys == at.Keys
    && (forall i :: 0 <= i < n && Opinionated(reviews[i]) ==> ActorKey(reviews[i]) in latest)
    && (forall key :: key in latest ==> Entry(reviews, n, key, latest[key], at[key]))
  }

  /** A review that does not replace its actor's entry leaves every entry the latest. */
  lemma EntryStays(reviews: seq<Review>, n: nat, key: ActorId, review: Review, i: nat)
    requires n < |reviews| && Entry(reviews, n, key, review, i)
    requires Opinionated(reviews[n]) && ActorKey(reviews[n]) == key ==> !Before(review, reviews[n])
    ensures Entry(reviews, n + 1, key, review, i)
  {
  }

  lemma EntryReplaced(reviews: seq<Review>, n: nat, latest: map<ActorId, Review>, at: map<ActorId, nat>)
    requires n < |reviews| && LatestSoFar(reviews, n, latest, at) && Opinionated(reviews[n])
    requires ActorKey(reviews[n]) in latest ==> Before(latest[ActorKey(reviews[n])], reviews[n])
    ensures Entry(reviews, n + 1, ActorKey(reviews[n]), reviews[n], n)
  {
    var key := ActorKey(reviews[n]);
    forall j | 0 <= j < n && Opinionated(reviews[j]) && ActorKey(reviews[j]) == key
      ensures Before(reviews[j], reviews[n])
    {
      assert Entry(reviews, n, key, latest[key], at[key]);
    }
  }

  lemma LatestReplaced(reviews: seq<Review>, n: nat, latest: map<ActorId, Review>, at: map<ActorId, nat>)
    requires n < |reviews| && LatestSoFar(reviews, n, latest, at) && Opinionated(reviews[n])
    requires ActorKey(reviews[n]) in latest ==> Before(latest[ActorKey(reviews[n])], reviews[n])
    ensures var key := ActorKey(reviews[n]); LatestSoFar(reviews, n + 1, latest[key := reviews[n]], at[key := n])
  {
    EntryReplaced(reviews, n, latest, at);
    var key := ActorKey(reviews[n]);
    forall other | other in latest && other != key ensures Entry(reviews, n + 1, other, latest[other], at[other]) {
      EntryStays(reviews, n, other, latest[other], at[other]);
    }
  }

  lemma LatestKept(reviews: seq<Review>, n: nat, latest: map<ActorId, Review>, at: map<ActorId, nat>)
    requires n < |reviews| && LatestSoFar(reviews, n, latest, at)
    requires Opinionated(reviews[n]) ==>
               ActorKey(reviews[n]) in latest && !Before(latest[ActorKey(reviews[n])], reviews[n])
    ensures LatestSoFar(reviews, n + 1, latest, at)
  {
    forall other | other in latest ensures Entry(reviews, n + 1, other, latest[other], at[other]) {
      EntryStays(reviews, n, other, latest[other], at[other]);
    }
  }

  lemma StandsExactlyAsStored(reviews: seq<Review>, latest: map<ActorId, Review>, at: map<ActorId, nat>, review: Review)
    requires LatestSoFar(reviews, |reviews|, latest, at)
    ensures (exists key :: key in latest && latest[key] == review) <==> Stands(reviews, review)
  {
    if i :| 0 <= i < |reviews| && reviews[i] == review && Latest(reviews, i) {
      var key := ActorKey(review);
      assert Entry(reviews, |reviews|, key, latest[key], at[key]);
    }
    if key :| key in latest && latest[key] == review {
      assert Entry(reviews, |reviews|, key, review, at[key]);
    }
  }

  method LatestOpinionatedReviews(reviews: seq<Review>) returns (sorted: seq<Review>)
    ensures Ordered(sorted)
    ensures forall review :: review in sorted <==> Stands(reviews, review)
  {
    var latest: map<ActorId, Review> := map[];
    ghost var at: map<ActorId, nat> := map[];
    for n := 0 to |reviews|
      invariant LatestSoFar(reviews, n, latest, at)
    {
      var review := reviews[n];
      var key := ActorKey(review);
      if Opinionated(review) && (key !in latest || Before(latest[key], review)) {
        LatestReplaced(reviews, n, latest, at);
        latest := latest[key := review];
        at := at[key := n];
      } else {
        LatestKept(reviews, n, latest, at);
      }
    }
    sorted := SortByTime(latest);
    forall review ensures (exists key :: key in latest && latest[key] == review) <==> Stands(reviews, review) {
      StandsExactlyAsStored(reviews, latest, at, review);
    }
  }

  method SortByTime(latest: map<ActorId, Review>) returns (sorted: seq<Review>)
    ensures Ordered(sorted)
    ensures forall review :: review in sorted <==> exists key :: key in latest && latest[key] == review
  {
    sorted := [];
    var keys := latest.Keys;
    while keys != {}
      invariant keys <= latest.Keys && Ordered(sorted)
      invariant forall review :: review in sorted <==> exists key :: key in latest && key !in keys && latest[key] == review
    {
      var key :| key in keys;
      InsertKeepsOrder(sorted, latest[key]);
      sorted := InsertByTime(sorted, latest[key]);
      keys := keys - {key};
    }
  }

  // ---- Whose approval it is --------------------------------------------------------------------

  ghost predicate CurrentApproval(data: Input, review: Review) {
    && Stands(data.reviews, review) && review.state.Approved?
    && (data.options.exactHead ==> review.commitSha == Some(data.headSha))
  }

  method CurrentApprovals(data: Input) returns (approvals: seq<Review>, stale: seq<Review>)
    ensures forall review :: review in approvals <==> CurrentApproval(data, review)
    ensures forall review :: review in stale <==>
              Stands(data.reviews, review) && review.state.Approved? && !CurrentApproval(data, review)
  {
    var latest := LatestOpinionatedReviews(data.reviews);
    approvals, stale := [], [];
    for i := 0 to |latest|
      invariant forall review :: review in approvals <==> review in latest[..i] && CurrentApproval(data, review)
      invariant forall review :: review in stale <==>
                  review in latest[..i] && review.state.Approved? && !CurrentApproval(data, review)
    {
      var review := latest[i];
      assert review in latest && latest[..i + 1] == latest[..i] + [review];
      if !review.state.Approved? { continue; }
      if data.options.exactHead && review.commitSha != Some(data.headSha) {
        stale := stale + [review];
        continue;
      }
      approvals := approvals + [review];
    }
    assert latest[..|latest|] == latest;
  }

  predicate IsBot(app: App, actor: Actor) {
    && app.appId == actor.appId && app.slug == actor.appSlug && app.botUserId == actor.userId
    && actor.login == app.slug + "[bot]"
  }

  /** The first enrolled application whose four identity attributes all match. */
  function AppFor(apps: seq<App>, actor: Actor): (r: Option<string>)
    ensures r.None? <==> forall i :: 0 <= i < |apps| ==> !IsBot(apps[i], actor)
    ensures r.Some? ==> exists i :: 0 <= i < |apps| && IsBot(apps[i], actor) && apps[i].alias == r.value
  {
    if apps == [] then None
    else if IsBot(apps[0], actor) then Some(apps[0].alias)
    else AppFor(apps[1..], actor)
  }

  predicate FromApp(apps: seq<App>, review: Review, alias: string) {
    review.actor.kind.Application? && AppFor(apps, review.actor) == Some(alias)
  }

  method RecognizedAppApprovals(apps: seq<App>, approvals: seq<Review>)
    returns (approved: set<string>, ignored: seq<Review>)
    ensures forall alias :: alias in approved <==> exists review :: review in approvals && FromApp(apps, review, alias)
    ensures forall review :: review in ignored <==>
              review in approvals && review.actor.kind.Application? && AppFor(apps, review.actor).None?
  {
    approved, ignored := {}, [];
    for i := 0 to |approvals|
      invariant forall alias :: alias in approved <==>
                  exists review :: review in approvals[..i] && FromApp(apps, review, alias)
      invariant forall review :: review in ignored <==>
                  review in approvals[..i] && review.actor.kind.Application? && AppFor(apps, review.actor).None?
    {
      var review := approvals[i];
      assert approvals[..i + 1] == approvals[..i] + [review];
      if review.actor.kind.Human? { continue; }
      var alias := AppFor(apps, review.actor);
      if alias.None? {
        ignored := ignored + [review];
      } else {
        assert FromApp(apps, review, alias.value);
        approved := approved + {alias.value};
      }
    }
    assert approvals[..|approvals|] == approvals;
  }

  function OwnerIdentities(login: string, aliases: set<string>, direct: bool): set<string> {
    if direct then aliases + {"@" + C.Lower(login)} else aliases
  }

  predicate HumanOwner(review: Review, owners: set<string>) {
    review.actor.kind.Human?
    && OwnerIdentities(review.actor.login, review.actor.ownerAliases, review.actor.directOwnerEligible) * owners != {}
  }

  function AuthorIdentities(data: Input): set<string> {
    if data.repository.authorCounts && data.author.Some?
    then OwnerIdentities(data.author.value.login, data.author.value.ownerAliases, data.author.value.directOwnerEligible)
    else {}
  }

  // ---- The definition, one path at a time --------------------------------------------------------

  ghost predicate Changed(data: Input, path: string) {
    exists i :: 0 <= i < |data.changedFiles|
      && (data.changedFiles[i].path == path || data.changedFiles[i].previousPath == Some(path))
  }

  ghost predicate HumanApproves(data: Input, owners: set<string>) {
    exists review :: CurrentApproval(data, review) && HumanOwner(review, owners)
  }

  ghost predicate AppApproved(data: Input, alias: string) {
    exists review :: CurrentApproval(data, review) && FromApp(data.organization.apps, review, alias)
  }

  /** The path is delegable and an approved application is eligible for it. */
  ghost predicate AppApproves(data: Input, policy: CompiledPolicy, path: string, owners: set<string>) {
    && !AnyMatch(policy.nonDelegable, path)
    && exists alias :: AppApproved(data, alias) && Eligible(policy, alias, path, owners, data.labels)
  }

  ghost predicate PathApproved(data: Input, policy: CompiledPolicy, path: string, owners: set<string>) {
    || owners == {}
    || HumanApproves(data, owners)
    || AuthorIdentities(data) * owners != {}
    || AppApproves(data, policy, path, owners)
  }

  ghost predicate AllApproved(data: Input, policy: CompiledPolicy, ownersOf: string -> set<string>) {
    forall path :: Changed(data, path) ==> PathApproved(data, policy, path, ownersOf(path))
  }

  function OwnerSet(owners: seq<string>): set<string> {
    set owner | owner in owners
  }

  function Ownership(rules: seq<C.Rule>): string -> set<string> {
    (path: string) => OwnerSet(C.OwnersFor(rules, path))
  }

  /** Success, path by path. */
  ghost predicate Approvable(data: Input) {
    && data.repository.enabled
    && Sound(data.organization, data.repository, data.options)
    && match C.Parse(data.codeowners)
       case Rejected(_) => false
       case Document(rules) =>
         AllApproved(data, Effective(data.organization, data.repository, data.options), Ownership(rules))
  }

  // ---- Withdrawn approvals -------------------------------------------------------------------

  /** The same actor gave another opinion later, or the same instant under a later id or place. */
  ghost predicate Overtaken(reviews: seq<Review>, i: nat)
    requires i < |reviews|
  {
    exists j :: 0 <= j < |reviews|
      && reviews[j].actor.kind == reviews[i].actor.kind && reviews[j].actor.userId == reviews[i].actor.userId
      && !reviews[j].state.Commented? && !reviews[j].state.Pending?
      && (|| reviews[i].submittedAt < reviews[j].submittedAt
          || (reviews[i].submittedAt == reviews[j].submittedAt && reviews[i].id < reviews[j].id)
          || (reviews[i].submittedAt == reviews[j].submittedAt && reviews[i].id == reviews[j].id && j < i))
  }

  /** One of the actor's own identities is among the owners: a team alias, or the login where that is allowed. */
  ghost predicate ActsFor(actor: Actor, owners: set<string>) {
    || (exists alias :: alias in actor.ownerAliases && alias in owners)
    || (actor.directOwnerEligible && ("@" + C.Lower(actor.login)) in owners)
  }

  /** The review is an approval by a human owner, on the head where that is required. */
  ghost predicate OwnerApproval(data: Input, owners: set<string>, review: Review) {
    && review.state.Approved? && review.actor.kind.Human? && ActsFor(review.actor, owners)
    && (data.options.exactHead ==> review.commitSha == Some(data.headSha))
  }

  lemma ActsForExactly(actor: Actor, owners: set<string>)
    ensures ActsFor(actor, owners) <==>
              OwnerIdentities(actor.login, actor.ownerAliases, actor.directOwnerEligible) * owners != {}
  {
    var identities := OwnerIdentities(actor.login, actor.ownerAliases, actor.directOwnerEligible);
    if alias :| alias in actor.ownerAliases && alias in owners { assert alias in identities * owners; }
    if actor.directOwnerEligible && ("@" + C.Lower(actor.login)) in owners {
      assert ("@" + C.Lower(actor.login)) in identities * owners;
    }
  }

  lemma StandsExactly(reviews: seq<Review>, i: nat)
    requires i < |reviews| && reviews[i].state.Approved?
    ensures Latest(reviews, i) <==> !Overtaken(reviews, i)
  {
  }

  /** A human owner approves exactly when some approval of theirs has not been overtaken by a later opinion. */
  lemma HumanApprovesExactly(data: Input, owners: set<string>)
    ensures HumanApproves(data, owners) <==>
              exists i :: 0 <= i < |data.reviews| && OwnerApproval(data, owners, data.reviews[i]) && !Overtaken(data.reviews, i)
  {
    if review :| CurrentApproval(data, review) && HumanOwner(review, owners) {
      var i :| 0 <= i < |data.reviews| && data.reviews[i] == review && Latest(data.reviews, i);
      StandsExactly(data.reviews, i);
      ActsForExactly(review.actor, owners);
      assert OwnerApproval(data, owners, data.reviews[i]);
    }
    if i :| 0 <= i < |data.reviews| && OwnerApproval(data, owners, data.reviews[i]) && !Overtaken(data.reviews, i) {
      StandsExactly(data.reviews, i);
      ActsForExactly(data.reviews[i].actor, owners);
      assert CurrentApproval(data, data.reviews[i]) && HumanOwner(data.reviews[i], owners);
    }
  }

  /**
   A change whose owners have all taken their approvals back does not pass, unless the
   author or an application covers it.
   */
  lemma WithdrawnApprovalsBlock(data: Input, rules: seq<C.Rule>, path: string)
    requires C.Parse(data.codeowners) == C.Document(rules) && Changed(data, path)
    requires var owners := OwnerSet(C.OwnersFor(rules, path));
             && owners != {} && AuthorIdentities(data) * owners == {}
             && !AppApproves(data, Effective(data.organization, data.repository, data.options), path, owners)
             && forall i :: 0 <= i < |data.reviews| && OwnerApproval(data, owners, data.reviews[i]) ==>
                  Overtaken(data.reviews, i)
    ensures !Approvable(data)
  {
    HumanApprovesExactly(data, OwnerSet(C.OwnersFor(rules, path)));
    assert Ownership(rules)(path) == OwnerSet(C.OwnersFor(rules, path));
  }

  // ---- The grouped algorithm ------------------------------------------------------------------------

  method EvaluationPaths(files: seq<ChangedFile>) returns (paths: seq<string>)
    ensures C.Distinct(paths)
    ensures forall path :: path in paths <==>
              exists i :: 0 <= i < |files| && (files[i].path == path || files[i].previousPath == Some(path))
  {
    var all := [];
    for n := 0 to |files|
      invariant forall path :: path in all <==>
                  exists i :: 0 <= i < n && (files[i].path == path || files[i].previousPath == Some(path))
    {
      if files[n].previousPath.Some? { all := all + [files[n].previousPath.value]; }
      all := all + [files[n].path];
    }
    paths := C.FirstOccurrences(all);
  }

  datatype Group = Group(owners: set<string>, paths: seq<string>)

  method FindGroup(groups: seq<Group>, owners: set<string>) returns (k: nat)
    ensures k <= |groups| && (k < |groups| ==> groups[k].owners == owners)
    ensures forall j :: 0 <= j < k ==> groups[j].owners != owners
  {
    k := 0;
    while k < |groups| && groups[k].owners != owners
      invariant k <= |groups| && forall j :: 0 <= j < k ==> groups[j].owners != owners
      decreases |groups| - k
    {
      k := k + 1;
    }
  }

  /** The groups hold exactly the owned paths, each under its own owners. */
  ghost predicate Grouped(groups: seq<Group>, paths: seq<string>, ownersOf: string -> set<string>) {
    && (forall i :: 0 <= i < |groups| ==> groups[i].owners != {} && groups[i].paths != [])
    && (forall i, j :: 0 <= i < j < |groups| ==> groups[i].owners != groups[j].owners)
    && (forall i, path :: 0 <= i < |groups| ==>
          (path in groups[i].paths <==> path in paths && ownersOf(path) == groups[i].owners))
    && (forall path :: path in paths && ownersOf(path) != {} ==> HasGroup(groups, ownersOf(path)))
  }

  ghost predicate HasGroup(groups: seq<Group>, owners: set<string>) {
    exists i :: 0 <= i < |groups| && groups[i].owners == owners
  }

  method AddToGroup(groups: seq<Group>, ghost paths: seq<string>, ghost ownersOf: string -> set<string>,
                    path: string, owners: set<string>)
    returns (grown: seq<Group>)
    requires Grouped(groups, paths, ownersOf) && owners == ownersOf(path) && owners != {}
    ensures Grouped(grown, paths + [path], ownersOf)
  {
    var k := FindGroup(groups, owners);
    if k == |groups| {
      grown := groups + [Group(owners, [path])];
      assert grown[k].owners == owners;
      assert !HasGroup(groups, owners);
    } else {
      grown := if path in groups[k].paths then groups
               else groups[k := Group(owners, groups[k].paths + [path])];
    }
    forall other | other in paths + [path] && ownersOf(other) != {} ensures HasGroup(grown, ownersOf(other)) {
      if other != path {
        var i :| 0 <= i < |groups| && groups[i].owners == ownersOf(other);
        assert grown[i].owners == ownersOf(other);
      } else {
        assert grown[k].owners == owners;
      }
    }
  }

  method GroupPaths(paths: seq<string>, ownersOf: string -> set<string>) returns (groups: seq<Group>, unowned: seq<string>)
    ensures Grouped(groups, paths, ownersOf)
    ensures forall path :: path in unowned <==> path in paths && ownersOf(path) == {}
  {
    groups, unowned := [], [];
    for n := 0 to |paths|
      invariant Grouped(groups, paths[..n], ownersOf)
      invariant forall path :: path in unowned <==> path in paths[..n] && ownersOf(path) == {}
    {
      var path := paths[n];
      var owners := ownersOf(path);
      assert paths[..n + 1] == paths[..n] + [path];
      if owners == {} {
        unowned := unowned + [path];
        assert Grouped(groups, paths[..n + 1], ownersOf);
      } else {
        groups := AddToGroup(groups, paths[..n], ownersOf, path, owners);
      }
    }
    assert paths[..|paths|] == paths;
  }

  /** What evaluate has established before it looks at paths. */
  datatype Facts = Facts(
    policy: CompiledPolicy, labels: set<string>, approvals: seq<Review>,
    authorIdentities: set<string>, approvedApps: set<string>)

  ghost predicate HumanCovers(facts: Facts, owners: set<string>) {
    exists review :: review in facts.approvals && HumanOwner(review, owners)
  }

  ghost predicate AppCovers(facts: Facts, path: string, owners: set<string>) {
    && !AnyMatch(facts.policy.nonDelegable, path)
    && exists alias :: alias in facts.approvedApps && Eligible(facts.policy, alias, path, owners, facts.labels)
  }

  ghost predicate Covered(facts: Facts, path: string, owners: set<string>) {
    HumanCovers(facts, owners) || facts.authorIdentities * owners != {} || AppCovers(facts, path, owners)
  }

  datatype SatisfiedBy = Humans(reviews: seq<Review>) | OwningAuthor | Apps(aliases: set<string>) | Nobody
  datatype PathEvidence =
    PathEvidence(path: string, nonDelegable: bool, eligibleApps: set<string>, approvedApps: set<string>)
  datatype Requirement = Requirement(
    owners: set<string>, paths: seq<string>, satisfied: bool, satisfiedBy: SatisfiedBy, evidence: seq<PathEvidence>)
  datatype Result =
    | PolicyDisabled
    | CodeownersErrors(codeownersIssues: seq<C.Issue>)
    | PolicyErrors(policyIssues: seq<PolicyIssue>)
    | Decided(requirements: seq<Requirement>, unowned: seq<string>)

  predicate Passed(result: Result) {
    result.Decided? && forall i :: 0 <= i < |result.requirements| ==> result.requirements[i].satisfied
  }

  /** What is reported about one path. */
  ghost predicate EvidenceFor(facts: Facts, path: string, owners: set<string>, evidence: PathEvidence) {
    && evidence.path == path && evidence.nonDelegable == AnyMatch(facts.policy.nonDelegable, path)
    && (forall alias :: alias in evidence.eligibleApps <==>
          !evidence.nonDelegable && Eligible(facts.policy, alias, path, owners, facts.labels))
    && evidence.approvedApps == evidence.eligibleApps * facts.approvedApps
  }

  method AppEvidence(facts: Facts, path: string, owners: set<string>) returns (evidence: PathEvidence)
    ensures EvidenceFor(facts, path, owners, evidence)
  {
    if AnyMatch(facts.policy.nonDelegable, path) { return PathEvidence(path, true, {}, {}); }
    var decisions := DelegationDecisions(facts.policy, path, owners, facts.labels);
    var eligible := set alias | alias in decisions && decisions[alias].eligible;
    var approvals := eligible * facts.approvedApps;
    evidence := PathEvidence(path, false, eligible, approvals);
  }

  /** The evidence names an approved application exactly when one covers the path. */
  lemma EvidenceDecides(facts: Facts, path: string, owners: set<string>, evidence: PathEvidence)
    requires EvidenceFor(facts, path, owners, evidence)
    ensures evidence.approvedApps != {} <==> AppCovers(facts, path, owners)
  {
    if alias :| alias in facts.approvedApps && Eligible(facts.policy, alias, path, owners, facts.labels) {
      assert alias in facts.approvedApps && (!evidence.nonDelegable ==> alias in evidence.approvedApps);
    }
  }

  function AppsIn(evidence: seq<PathEvidence>): set<string> {
    if evidence == [] then {} else AppsIn(evidence[..|evidence| - 1]) + evidence[|evidence| - 1].approvedApps
  }

  method CollectEvidence(facts: Facts, owners: set<string>, paths: seq<string>)
    returns (all: bool, apps: set<string>, evidence: seq<PathEvidence>)
    ensures |evidence| == |paths| && apps == AppsIn(evidence)
    ensures all <==> forall i :: 0 <= i < |paths| ==> evidence[i].approvedApps != {}
    ensures forall i :: 0 <= i < |paths| ==> EvidenceFor(facts, paths[i], owners, evidence[i])
  {
    all, apps, evidence := true, {}, [];
    for n := 0 to |paths|
      invariant |evidence| == n && apps == AppsIn(evidence)
      invariant all <==> forall i :: 0 <= i < n ==> evidence[i].approvedApps != {}
      invariant forall i :: 0 <= i < n ==> EvidenceFor(facts, paths[i], owners, evidence[i])
    {
      var one := AppEvidence(facts, paths[n], owners);
      if one.approvedApps == {} { all := false; }
      apps := apps + one.approvedApps;
      assert (evidence + [one])[..n] == evidence;
      evidence := evidence + [one];
    }
  }

  method AppRequirement(facts: Facts, group: Group) returns (requirement: Requirement)
    ensures requirement.owners == group.owners && requirement.paths == group.paths
    ensures requirement.satisfied <==> forall path :: path in group.paths ==> AppCovers(facts, path, group.owners)
    ensures |requirement.evidence| == |group.paths|
    ensures forall i :: 0 <= i < |group.paths| ==>
              EvidenceFor(facts, group.paths[i], group.owners, requirement.evidence[i])
    ensures requirement.satisfiedBy == if requirement.satisfied then Apps(AppsIn(requirement.evidence)) else Nobody
  {
    var all, apps, evidence := CollectEvidence(facts, group.owners, group.paths);
    forall i | 0 <= i < |group.paths|
      ensures evidence[i].approvedApps != {} <==> AppCovers(facts, group.paths[i], group.owners)
    {
      EvidenceDecides(facts, group.paths[i], group.owners, evidence[i]);
    }
    requirement := Requirement(group.owners, group.paths, all, if all then Apps(apps) else Nobody, evidence);
  }

  method HumanOwners(approvals: seq<Review>, owners: set<string>) returns (satisfying: seq<Review>)
    ensures forall review :: review in satisfying <==> review in approvals && HumanOwner(review, owners)
  {
    satisfying := [];
    for n := 0 to |approvals|
      invariant forall review :: review in satisfying <==> review in approvals[..n] && HumanOwner(review, owners)
    {
      assert approvals[..n + 1] == approvals[..n] + [approvals[n]];
      if HumanOwner(approvals[n], owners) { satisfying := satisfying + [approvals[n]]; }
    }
    assert approvals[..|approvals|] == approvals;
  }

  function PlainEvidence(policy: CompiledPolicy, paths: seq<string>): seq<PathEvidence> {
    seq(|paths|, i requires 0 <= i < |paths| =>
      PathEvidence(paths[i], AnyMatch(policy.nonDelegable, paths[i]), {}, {}))
  }

  ghost predicate GroupCovered(facts: Facts, owners: set<string>, paths: seq<string>) {
    forall path :: path in paths ==> Covered(facts, path, owners)
  }

  /** Human owners are credited before an owning author, and an author before applications. */
  ghost predicate CreditHolds(facts: Facts, owners: set<string>, requirement: Requirement) {
    match requirement.satisfiedBy
    case Humans(reviews) =>
      reviews != [] && forall review :: review in reviews <==> review in facts.approvals && HumanOwner(review, owners)
    case OwningAuthor => !HumanCovers(facts, owners) && facts.authorIdentities * owners != {}
    case Apps(aliases) =>
      && !HumanCovers(facts, owners) && facts.authorIdentities * owners == {}
      && aliases == AppsIn(requirement.evidence)
    case Nobody => !requirement.satisfied
  }

  /** One group of paths is satisfied exactly when each of its paths is covered. */
  method DecideGroup(facts: Facts, group: Group) returns (requirement: Requirement)
    requires group.paths != []
    ensures requirement.owners == group.owners && requirement.paths == group.paths
    ensures requirement.satisfied <==> GroupCovered(facts, group.owners, group.paths)
    ensures CreditHolds(facts, group.owners, requirement)
  {
    var humans := HumanOwners(facts.approvals, group.owners);
    if humans != [] {
      assert humans[0] in humans;
      assert HumanCovers(facts, group.owners);
      return Requirement(group.owners, group.paths, true, Humans(humans), PlainEvidence(facts.policy, group.paths));
    }
    assert !HumanCovers(facts, group.owners);
    if facts.authorIdentities * group.owners != {} {
      return Requirement(group.owners, group.paths, true, OwningAuthor, PlainEvidence(facts.policy, group.paths));
    }
    requirement := AppRequirement(facts, group);
  }

  ghost predicate DecidedFor(facts: Facts, group: Group, requirement: Requirement) {
    && requirement.owners == group.owners && requirement.paths == group.paths
    && (requirement.satisfied <==> GroupCovered(facts, group.owners, group.paths))
  }

  method DecideGroups(facts: Facts, groups: seq<Group>) returns (requirements: seq<Requirement>)
    requires forall i :: 0 <= i < |groups| ==> groups[i].paths != []
    ensures |requirements| == |groups|
    ensures forall i :: 0 <= i < |groups| ==> DecidedFor(facts, groups[i], requirements[i])
  {
    requirements := [];
    for n := 0 to |groups|
      invariant |requirements| == n
      invariant forall i :: 0 <= i < n ==> DecidedFor(facts, groups[i], requirements[i])
    {
      var requirement := DecideGroup(facts, groups[n]);
      requirements := requirements + [requirement];
    }
  }

  // ---- The algorithm agrees with the definition --------------------------------------------------

  ghost predicate PathCovered(facts: Facts, ownersOf: string -> set<string>, path: string) {
    ownersOf(path) == {} || Covered(facts, path, ownersOf(path))
  }

  /** Deciding by group agrees with deciding path by path. */
  lemma GroupsAgreeWithPaths(facts: Facts, groups: seq<Group>, paths: seq<string>, ownersOf: string -> set<string>)
    requires Grouped(groups, paths, ownersOf)
    ensures (forall i :: 0 <= i < |groups| ==> GroupCovered(facts, groups[i].owners, groups[i].paths)) <==>
            (forall path :: path in paths ==> PathCovered(facts, ownersOf, path))
  {
    if forall i :: 0 <= i < |groups| ==> GroupCovered(facts, groups[i].owners, groups[i].paths) {
      forall path | path in paths ensures PathCovered(facts, ownersOf, path) {
        if ownersOf(path) != {} {
          assert HasGroup(groups, ownersOf(path));
          var i :| 0 <= i < |groups| && groups[i].owners == ownersOf(path);
          assert path in groups[i].paths;
        }
      }
    }
    if forall path :: path in paths ==> PathCovered(facts, ownersOf, path) {
      forall i | 0 <= i < |groups| ensures GroupCovered(facts, groups[i].owners, groups[i].paths) {
        forall path | path in groups[i].paths ensures Covered(facts, path, groups[i].owners) {
          assert PathCovered(facts, ownersOf, path);
        }
      }
    }
  }

  /** The facts are those of the input. */
  ghost predicate FactsOf(data: Input, policy: CompiledPolicy, facts: Facts) {
    && facts.policy == policy && facts.labels == data.labels
    && (forall review :: review in facts.approvals <==> CurrentApproval(data, review))
    && facts.authorIdentities == AuthorIdentities(data)
    && (forall alias :: alias in facts.approvedApps <==>
          exists review :: review in facts.approvals && FromApp(data.organization.apps, review, alias))
  }

  lemma FactsDecide(data: Input, policy: CompiledPolicy, facts: Facts, ownersOf: string -> set<string>, path: string)
    requires FactsOf(data, policy, facts)
    ensures PathCovered(facts, ownersOf, path) <==> PathApproved(data, policy, path, ownersOf(path))
  {
    var owners := ownersOf(path);
    assert HumanCovers(facts, owners) <==> HumanApproves(data, owners);
    forall alias ensures alias in facts.approvedApps <==> AppApproved(data, alias) {
      if review :| CurrentApproval(data, review) && FromApp(data.organization.apps, review, alias) {
        assert review in facts.approvals;
      }
    }
  }

  method GatherFacts(data: Input, policy: CompiledPolicy) returns (facts: Facts)
    ensures FactsOf(data, policy, facts)
  {
    var approvals, stale := CurrentApprovals(data);
    var approvedApps, ignored := RecognizedAppApprovals(data.organization.apps, approvals);
    facts := Facts(policy, data.labels, approvals, AuthorIdentities(data), approvedApps);
  }

  /** Each path of a requirement is a changed path with exactly that requirement's owners. */
  ghost predicate PathsOwned(paths: seq<string>, ownersOf: string -> set<string>, requirement: Requirement) {
    forall path :: path in requirement.paths ==> path in paths && ownersOf(path) == requirement.owners
  }

  method DecidePaths(facts: Facts, paths: seq<string>, ownersOf: string -> set<string>)
    returns (requirements: seq<Requirement>, unowned: seq<string>)
    ensures (forall i :: 0 <= i < |requirements| ==> requirements[i].satisfied) <==>
            (forall path :: path in paths ==> PathCovered(facts, ownersOf, path))
    ensures forall path :: path in unowned <==> path in paths && ownersOf(path) == {}
    ensures forall i :: 0 <= i < |requirements| ==> PathsOwned(paths, ownersOf, requirements[i])
  {
    var groups: seq<Group>;
    groups, unowned := GroupPaths(paths, ownersOf);
    requirements := DecideGroups(facts, groups);
    GroupsAgreeWithPaths(facts, groups, paths, ownersOf);
    assert forall i :: 0 <= i < |groups| ==> DecidedFor(facts, groups[i], requirements[i]);
  }

  method DecideInput(data: Input, policy: CompiledPolicy, ownersOf: string -> set<string>) returns (result: Result)
    ensures result.Decided? && (Passed(result) <==> AllApproved(data, policy, ownersOf))
    ensures forall path :: path in result.unowned <==> Changed(data, path) && ownersOf(path) == {}
  {
    var facts := GatherFacts(data, policy);
    var paths := EvaluationPaths(data.changedFiles);
    var requirements, unowned := DecidePaths(facts, paths, ownersOf);
    forall path ensures path in paths <==> Changed(data, path) {}
    forall path | path in paths
      ensures PathCovered(facts, ownersOf, path) <==> PathApproved(data, policy, path, ownersOf(path))
    {
      FactsDecide(data, policy, facts, ownersOf, path);
    }
    result := Decided(requirements, unowned);
  }

  /** evaluate: it succeeds exactly when every changed path is approved on its own. */
  method Evaluate(data: Input) returns (result: Result)
    ensures Passed(result) <==> Approvable(data)
    ensures result.PolicyDisabled? <==> !data.repository.enabled
    ensures result.CodeownersErrors? ==> C.Parse(data.codeowners) == C.Rejected(result.codeownersIssues)
    ensures result.PolicyErrors? ==> !Sound(data.organization, data.repository, data.options)
  {
    if !data.repository.enabled { return PolicyDisabled; }
    var parsed := C.ParseCodeowners(data.codeowners);
    if parsed.Rejected? { return CodeownersErrors(parsed.issues); }
    var compilation := CompilePolicy(data.organization, data.repository, data.options);
    if compilation.Invalid? { return PolicyErrors(compilation.issues); }
    result := DecideInput(data, compilation.policy, Ownership(parsed.rules));
  }
}
