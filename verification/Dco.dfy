/**
 Developer Certificate of Origin evidence: the commit-order worklist, what it decides,
 and the whole decision for one pull request.
 */
module Dco {
  import opened Options

  type Sha = string
  type CommitCount = n: nat | 0 < n <= 250 witness 1

  datatype UserIdentity = UserIdentity(login: string, id: nat)
  datatype GitIdentity = GitIdentity(name: string, email: string)
  datatype Verification = Verification(
    valid: bool, state: string, verifiedAt: Option<string>, signedByGitHub: bool, signer: Option<UserIdentity>)
  datatype Commit = Commit(
    sha: Sha, parents: seq<Sha>, author: GitIdentity, committer: GitIdentity, authorSignoff: bool,
    dependabotSignoff: bool, githubAuthor: Option<UserIdentity>, verification: Option<Verification>)
  datatype Repository = Repository(id: nat, fullName: string)
  datatype Pull = Pull(
    number: nat, open: bool, repository: Repository, baseRepository: Repository, baseRef: string, baseSha: Sha,
    headRepository: Repository, headRef: string, headSha: Sha,
    authorLogin: string, authorId: nat, authorKind: string, commitCount: CommitCount)
  datatype Comparison = Comparison(
    repository: Repository, pullNumber: nat, baseSha: Sha, headSha: Sha, baseCommitSha: Sha,
    totalCommits: CommitCount, aheadBy: CommitCount, listed: seq<Sha>)
  datatype Evidence = Evidence(event: Pull, before: Pull, after: Pull, comparison: Comparison, commits: seq<Commit>)

  // ---- Commit order --------------------------------------------------------------------

  ghost predicate Distinct(listed: seq<Sha>) {
    forall i, j :: 0 <= i < j < |listed| ==> listed[i] != listed[j]
  }

  ghost predicate Follows(listed: seq<Sha>, commits: seq<Commit>) {
    |commits| == |listed| && forall i :: 0 <= i < |listed| ==> commits[i].sha == listed[i]
  }

  /** Commit j is a parent of commit i. */
  predicate ParentOf(commits: seq<Commit>, i: int, j: int) {
    0 <= i < |commits| && 0 <= j < |commits| && commits[j].sha in commits[i].parents
  }

  ghost predicate ParentsPrecede(commits: seq<Commit>) {
    forall i, j :: ParentOf(commits, i, j) ==> j < i
  }

  /** A walk from the head through listed parents. */
  ghost predicate Walk(commits: seq<Commit>, path: seq<nat>) {
    && path != [] && commits != [] && path[0] == |commits| - 1
    && forall k :: 0 <= k < |path| - 1 ==> ParentOf(commits, path[k], path[k + 1])
  }

  ghost predicate Reached(commits: seq<Commit>, i: nat) {
    exists path :: Walk(commits, path) && path[|path| - 1] == i
  }

  ghost predicate AllReached(commits: seq<Commit>) {
    forall i :: 0 <= i < |commits| ==> Reached(commits, i)
  }

  lemma WalkOn(commits: seq<Commit>, i: nat, j: nat)
    requires Reached(commits, i) && ParentOf(commits, i, j)
    ensures Reached(commits, j)
  {
    var path :| Walk(commits, path) && path[|path| - 1] == i;
    var longer := path + [j];
    assert Walk(commits, longer) && longer[|longer| - 1] == j;
  }

  lemma HeadReached(commits: seq<Commit>)
    requires commits != []
    ensures Reached(commits, |commits| - 1)
  {
    assert Walk(commits, [|commits| - 1]);
  }

  /** A set that holds the head and the listed parents of its members holds every walk. */
  lemma {:induction false} ClosedHoldsWalk(commits: seq<Commit>, closed: set<Sha>, path: seq<nat>, k: nat)
    requires Walk(commits, path) && k < |path| && commits[|commits| - 1].sha in closed
    requires forall i, j :: ParentOf(commits, i, j) && commits[i].sha in closed ==> commits[j].sha in closed
    ensures path[k] < |commits| && commits[path[k]].sha in closed
  {
    if k > 0 {
      ClosedHoldsWalk(commits, closed, path, k - 1);
      assert ParentOf(commits, path[k - 1], path[k]);
    }
  }

  method IndexCommits(commits: seq<Commit>) returns (positions: map<Sha, nat>)
    requires forall i, j :: 0 <= i < j < |commits| ==> commits[i].sha != commits[j].sha
    ensures Indexed(commits, positions)
  {
    positions := map[];
    for n := 0 to |commits|
      invariant forall sha :: sha in positions ==> positions[sha] < n && commits[positions[sha]].sha == sha
      invariant forall i :: 0 <= i < n ==> commits[i].sha in positions && positions[commits[i].sha] == i
    {
      positions := positions[commits[n].sha := n];
    }
  }

  ghost predicate Indexed(commits: seq<Commit>, positions: map<Sha, nat>) {
    && (forall sha :: sha in positions ==> positions[sha] < |commits| && commits[positions[sha]].sha == sha)
    && (forall i :: 0 <= i < |commits| ==> commits[i].sha in positions && positions[commits[i].sha] == i)
  }

  method ParentsComeFirst(commits: seq<Commit>, positions: map<Sha, nat>) returns (ok: bool)
    requires Indexed(commits, positions)
    ensures ok <==> ParentsPrecede(commits)
  {
    for index := 0 to |commits|
      invariant forall i, j :: 0 <= i < index && ParentOf(commits, i, j) ==> j < i
    {
      var parents := commits[index].parents;
      if exists k :: 0 <= k < |parents| && parents[k] in positions && positions[parents[k]] >= index {
        ghost var k :| 0 <= k < |parents| && parents[k] in positions && positions[parents[k]] >= index;
        assert ParentOf(commits, index, positions[parents[k]]);
        return false;
      }
      assert forall j :: ParentOf(commits, index, j) ==> j < index;
    }
    assert forall i, j :: ParentOf(commits, i, j) ==> j < i;
    ok := true;
  }

  ghost predicate ParentsIn(commits: seq<Commit>, positions: map<Sha, nat>, reachable: set<Sha>, sha: Sha)
    requires Indexed(commits, positions) && sha in positions
  {
    forall parent :: parent in commits[positions[sha]].parents && parent in positions ==> parent in reachable
  }

  ghost predicate Visited(commits: seq<Commit>, positions: map<Sha, nat>, reachable: set<Sha>, pending: seq<Sha>, sha: Sha)
    requires Indexed(commits, positions) && sha in positions
  {
    Reached(commits, positions[sha]) && (sha in pending || ParentsIn(commits, positions, reachable, sha))
  }

  /** What the worklist knows: members were reached, and each is waiting or has its listed parents in. */
  ghost predicate Exploring(commits: seq<Commit>, positions: map<Sha, nat>, reachable: set<Sha>, pending: seq<Sha>)
    requires Indexed(commits, positions)
  {
    && reachable <= positions.Keys
    && (forall sha :: sha in pending ==> sha in reachable)
    && (forall sha :: sha in reachable ==> Visited(commits, positions, reachable, pending, sha))
  }

  /** The inner loop: every listed parent of one commit that is not yet reachable joins both collections. */
  method VisitParents(commits: seq<Commit>, positions: map<Sha, nat>, current: Sha, reachable: set<Sha>, pending: seq<Sha>)
    returns (grown: set<Sha>, waiting: seq<Sha>)
    requires Indexed(commits, positions) && current in reachable
    requires Exploring(commits, positions, reachable, pending + [current])
    ensures Exploring(commits, positions, grown, waiting)
    ensures reachable <= grown && (grown == reachable ==> waiting == pending)
  {
    var parents := commits[positions[current]].parents;
    grown, waiting := reachable, pending;
    for k := 0 to |parents|
      invariant reachable <= grown <= positions.Keys && (grown == reachable ==> waiting == pending)
      invariant forall sha :: sha in pending ==> sha in waiting
      invariant forall sha :: sha in waiting ==> sha in grown
      invariant forall sha :: sha in grown && sha !in reachable ==> sha in waiting
      invariant forall sha :: sha in grown ==> Reached(commits, positions[sha])
      invariant forall j :: 0 <= j < k && parents[j] in positions ==> parents[j] in grown
    {
      var parent := parents[k];
      if parent in positions && parent !in grown {
        assert ParentOf(commits, positions[current], positions[parent]);
        WalkOn(commits, positions[current], positions[parent]);
        grown := grown + {parent};
        waiting := waiting + [parent];
      }
    }
    forall sha | sha in grown ensures Visited(commits, positions, grown, waiting, sha) {
      if sha in reachable {
        assert Visited(commits, positions, reachable, pending + [current], sha);
      }
    }
  }

  method Explore(commits: seq<Commit>, positions: map<Sha, nat>) returns (reachable: set<Sha>)
    requires commits != [] && Indexed(commits, positions)
    ensures reachable <= positions.Keys
    ensures forall i :: 0 <= i < |commits| ==> (commits[i].sha in reachable <==> Reached(commits, i))
  {
    var head := commits[|commits| - 1].sha;
    HeadReached(commits);
    reachable := {head};
    var pending := [head];
    while pending != []
      invariant Exploring(commits, positions, reachable, pending) && head in reachable
      decreases positions.Keys - reachable, |pending|
    {
      var current, rest := pending[|pending| - 1], pending[..|pending| - 1];
      assert pending == rest + [current];
      reachable, pending := VisitParents(commits, positions, current, reachable, rest);
    }
    forall i | 0 <= i < |commits| ensures commits[i].sha in reachable <==> Reached(commits, i) {
      if path :| Walk(commits, path) && path[|path| - 1] == i {
        ExploredIsClosed(commits, positions, reachable);
        ClosedHoldsWalk(commits, reachable, path, |path| - 1);
      }
      if commits[i].sha in reachable { assert Visited(commits, positions, reachable, [], commits[i].sha); }
    }
  }

  lemma ExploredIsClosed(commits: seq<Commit>, positions: map<Sha, nat>, reachable: set<Sha>)
    requires Indexed(commits, positions) && Exploring(commits, positions, reachable, [])
    ensures forall i, j :: ParentOf(commits, i, j) && commits[i].sha in reachable ==> commits[j].sha in reachable
  {
    forall i, j | ParentOf(commits, i, j) && commits[i].sha in reachable ensures commits[j].sha in reachable {
      assert Visited(commits, positions, reachable, [], commits[i].sha);
      assert ParentsIn(commits, positions, reachable, commits[i].sha);
    }
  }

  method FollowsList(listed: seq<Sha>, commits: seq<Commit>) returns (ok: bool)
    requires |commits| == |listed|
    ensures ok <==> Follows(listed, commits)
  {
    for i := 0 to |listed|
      invariant forall j :: 0 <= j < i ==> commits[j].sha == listed[j]
    {
      if commits[i].sha != listed[i] { return false; }
    }
    ok := true;
  }

  /** Evidence follows the list, listed parents come strictly first, and the head reaches every listed commit. */
  ghost predicate OrderHolds(listed: seq<Sha>, commits: seq<Commit>) {
    Follows(listed, commits) && ParentsPrecede(commits) && AllReached(commits)
  }

  /** _commit_order_is_valid, on the distinct non-empty lists of equal length its caller passes. */
  method CommitOrderIsValid(listed: seq<Sha>, commits: seq<Commit>) returns (valid: bool)
    requires listed != [] && |commits| == |listed| && Distinct(listed)
    ensures valid <==> OrderHolds(listed, commits)
  {
    var follows := FollowsList(listed, commits);
    if !follows { return false; }
    var positions := IndexCommits(commits);
    var ordered := ParentsComeFirst(commits, positions);
    if !ordered { return false; }
    var reachable := Explore(commits, positions);
    valid := reachable == set sha | sha in listed;
    AllInExactly(listed, commits, positions, reachable);
  }

  lemma AllInExactly(listed: seq<Sha>, commits: seq<Commit>, positions: map<Sha, nat>, reachable: set<Sha>)
    requires Follows(listed, commits) && Indexed(commits, positions) && reachable <= positions.Keys
    requires forall i :: 0 <= i < |commits| ==> (commits[i].sha in reachable <==> Reached(commits, i))
    ensures reachable == (set sha | sha in listed) <==> AllReached(commits)
  {
    var all := set sha | sha in listed;
    assert forall i :: 0 <= i < |commits| ==> commits[i].sha == listed[i] && listed[i] in all;
    if AllReached(commits) {
      forall sha ensures sha in reachable <==> sha in all {
        if sha in all {
          var i :| 0 <= i < |listed| && listed[i] == sha;
          assert Reached(commits, i);
        }
        if sha in reachable { assert commits[positions[sha]].sha == sha; }
      }
    }
  }

  // ---- The same condition without reachability ---------------------------------------------

  ghost predicate HasChild(commits: seq<Commit>, j: nat) {
    exists i :: 0 <= i < |commits| && ParentOf(commits, i, j)
  }

  lemma {:induction false} ChildrenReach(commits: seq<Commit>, j: nat)
    requires ParentsPrecede(commits) && j < |commits|
    requires forall k :: 0 <= k < |commits| - 1 ==> HasChild(commits, k)
    ensures Reached(commits, j)
    decreases |commits| - j
  {
    if j == |commits| - 1 {
      HeadReached(commits);
    } else {
      assert HasChild(commits, j);
      var i :| 0 <= i < |commits| && ParentOf(commits, i, j);
      ChildrenReach(commits, i);
      WalkOn(commits, i, j);
    }
  }

  /** Given the order, the head reaches every commit exactly when each earlier commit is some listed commit's parent. */
  lemma ReachedExactlyWhenParented(commits: seq<Commit>)
    requires ParentsPrecede(commits)
    ensures AllReached(commits) <==> forall j :: 0 <= j < |commits| - 1 ==> HasChild(commits, j)
  {
    if AllReached(commits) {
      forall j | 0 <= j < |commits| - 1 ensures HasChild(commits, j) {
        assert Reached(commits, j);
        var path :| Walk(commits, path) && path[|path| - 1] == j;
        assert ParentOf(commits, path[|path| - 2], path[|path| - 1]);
      }
    }
    if forall j :: 0 <= j < |commits| - 1 ==> HasChild(commits, j) {
      forall i | 0 <= i < |commits| ensures Reached(commits, i) {
        ChildrenReach(commits, i);
      }
    }
  }

  // ---- The decision for one pull request ------------------------------------------------------

  const DEPENDABOT := UserIdentity("dependabot[bot]", 49_699_333)
  const DEPENDABOT_EMAIL := "49699333+dependabot[bot]@users.noreply.github.com"
  const WEB_FLOW := UserIdentity("web-flow", 19_864_447)
  const WEB_FLOW_GIT := GitIdentity("GitHub", "noreply@github.com")

  predicate OfficialPull(pull: Pull) {
    && pull.authorLogin == DEPENDABOT.login && pull.authorId == DEPENDABOT.id && pull.authorKind == "Bot"
    && pull.baseRepository.id == pull.repository.id && pull.headRepository.id == pull.repository.id
    && "dependabot/" <= pull.headRef && pull.commitCount == 1
  }

  predicate OfficialCommit(commit: Commit, pull: Pull) {
    && commit.verification.Some?
    && commit.sha == pull.headSha && commit.parents == [pull.baseSha]
    && commit.githubAuthor == Some(DEPENDABOT)
    && commit.author == GitIdentity(DEPENDABOT.login, DEPENDABOT_EMAIL) && commit.committer == WEB_FLOW_GIT
    && var verification := commit.verification.value;
    && verification.valid && verification.state == "VALID"
    && verification.verifiedAt.Some? && verification.verifiedAt.value != ""
    && verification.signedByGitHub && verification.signer == Some(WEB_FLOW)
    && commit.dependabotSignoff
  }

  datatype Outcome = AuthorSignoff | OfficialDependabot | MissingSignoff
  datatype Failure =
    | NotOpen | PullChanged | ComparisonMismatch | CountMismatch | DuplicateCommit | HeadMismatch | OrderMismatch
    | SignoffMissing
  datatype Result = Result(failure: Option<Failure>, outcomes: seq<Outcome>)

  /** The outcome of one commit: an author's sign-off comes before Dependabot's exemption. */
  function OutcomeOf(commit: Commit, pull: Pull): Outcome {
    if commit.authorSignoff then AuthorSignoff
    else if OfficialPull(pull) && OfficialCommit(commit, pull) then OfficialDependabot
    else MissingSignoff
  }

  /** The conditions in the order they are checked. */
  ghost predicate Satisfied(evidence: Evidence, failure: Failure) {
    var pull, comparison, listed := evidence.event, evidence.comparison, evidence.comparison.listed;
    match failure
    case NotOpen => pull.open
    case PullChanged => evidence.before == pull && evidence.after == pull
    case ComparisonMismatch =>
      && comparison.repository == pull.repository && comparison.pullNumber == pull.number
      && comparison.baseSha == pull.baseSha && comparison.headSha == pull.headSha
      && comparison.baseCommitSha == pull.baseSha
    case CountMismatch =>
      comparison.totalCommits == comparison.aheadBy == |listed| == |evidence.commits| == pull.commitCount
    case DuplicateCommit => Distinct(listed)
    case HeadMismatch => listed != [] && listed[|listed| - 1] == pull.headSha
    case OrderMismatch => OrderHolds(listed, evidence.commits)
    case SignoffMissing => forall i :: 0 <= i < |evidence.commits| ==> OutcomeOf(evidence.commits[i], pull) != MissingSignoff
  }

  function Rank(failure: Failure): nat {
    match failure
    case NotOpen => 0
    case PullChanged => 1
    case ComparisonMismatch => 2
    case CountMismatch => 3
    case DuplicateCommit => 4
    case HeadMismatch => 5
    case OrderMismatch => 6
    case SignoffMissing => 7
  }

  /** The reported failure is the first unsatisfied condition, and there is none exactly on a pass. */
  ghost predicate FirstFailure(evidence: Evidence, failure: Option<Failure>) {
    match failure
    case None => forall f :: Satisfied(evidence, f)
    case Some(failed) => !Satisfied(evidence, failed) && forall f :: Rank(f) < Rank(failed) ==> Satisfied(evidence, f)
  }

  /** The checks, first to last. */
  const CHECKS: seq<Failure> := [
    NotOpen, PullChanged, ComparisonMismatch, CountMismatch, DuplicateCommit, HeadMismatch, OrderMismatch, SignoffMissing]

  lemma RanksAreInOrder(k: nat)
    requires k < |CHECKS|
    ensures Rank(CHECKS[k]) == k
  {
  }

  function ShaSet(listed: seq<Sha>): set<Sha> {
    set sha | sha in listed
  }

  /** Comparing the sizes of the list and its set finds duplicates. */
  lemma {:induction false} SizesShowDuplicates(listed: seq<Sha>)
    ensures |ShaSet(listed)| <= |listed|
    ensures |ShaSet(listed)| == |listed| <==> Distinct(listed)
  {
    if listed == [] {
      assert ShaSet(listed) == {};
    } else {
      var before, last := listed[..|listed| - 1], listed[|listed| - 1];
      SizesShowDuplicates(before);
      assert listed == before + [last];
      assert ShaSet(listed) == ShaSet(before) + {last};
      if last in before {
        assert ShaSet(listed) == ShaSet(before);
        var i :| 0 <= i < |before| && before[i] == last;
        assert listed[i] == listed[|listed| - 1];
      } else {
        assert last !in ShaSet(before);
        assert Distinct(listed) <==> Distinct(before) by {
          assert forall i :: 0 <= i < |before| ==> listed[i] == before[i] && before[i] in before;
        }
      }
    }
  }

  method Outcomes(commits: seq<Commit>, pull: Pull) returns (outcomes: seq<Outcome>)
    ensures |outcomes| == |commits| && forall i :: 0 <= i < |commits| ==> outcomes[i] == OutcomeOf(commits[i], pull)
  {
    outcomes := [];
    var official := OfficialPull(pull);
    for i := 0 to |commits|
      invariant |outcomes| == i && forall k :: 0 <= k < i ==> outcomes[k] == OutcomeOf(commits[k], pull)
    {
      var outcome := if commits[i].authorSignoff then AuthorSignoff
                     else if official && OfficialCommit(commits[i], pull) then OfficialDependabot
                     else MissingSignoff;
      outcomes := outcomes + [outcome];
    }
  }

  ghost predicate OutcomesReported(evidence: Evidence, result: Result) {
    if result.failure.None? || result.failure == Some(SignoffMissing)
    then |result.outcomes| == |evidence.commits|
         && forall i :: 0 <= i < |result.outcomes| ==> result.outcomes[i] == OutcomeOf(evidence.commits[i], evidence.event)
    else result.outcomes == []
  }

  /** evaluate_dco */
  method EvaluateDco(evidence: Evidence) returns (result: Result)
    ensures FirstFailure(evidence, result.failure)
    ensures OutcomesReported(evidence, result)
  {
    var pull, comparison, listed := evidence.event, evidence.comparison, evidence.comparison.listed;
    if !pull.open { return Result(Some(NotOpen), []); }
    if evidence.before != pull || evidence.after != pull { return Result(Some(PullChanged), []); }
    if comparison.repository != pull.repository || comparison.pullNumber != pull.number
       || comparison.baseSha != pull.baseSha || comparison.headSha != pull.headSha
       || comparison.baseCommitSha != pull.baseSha
    {
      return Result(Some(ComparisonMismatch), []);
    }
    if comparison.totalCommits != pull.commitCount || comparison.aheadBy != pull.commitCount
       || |listed| != pull.commitCount || |evidence.commits| != pull.commitCount
    {
      return Result(Some(CountMismatch), []);
    }
    SizesShowDuplicates(listed);
    if |ShaSet(listed)| != |listed| { return Result(Some(DuplicateCommit), []); }
    if listed[|listed| - 1] != pull.headSha { return Result(Some(HeadMismatch), []); }
    var ordered := CommitOrderIsValid(listed, evidence.commits);
    if !ordered { return Result(Some(OrderMismatch), []); }
    var outcomes := Outcomes(evidence.commits, pull);
    if exists i :: 0 <= i < |outcomes| && outcomes[i] == MissingSignoff {
      return Result(Some(SignoffMissing), outcomes);
    }
    result := Result(None, outcomes);
  }

  // ---- Dependabot's exemption --------------------------------------------------------------------

  /** GitHub's own bot opened the pull request from a branch of its own in the same repository. */
  ghost predicate OpenedByDependabot(pull: Pull) {
    && pull.authorLogin == "dependabot[bot]" && pull.authorId == 49699333 && pull.authorKind == "Bot"
    && pull.headRepository.id == pull.baseRepository.id == pull.repository.id
    && (exists branch :: pull.headRef == "dependabot/" + branch)
  }

  /** GitHub committed and signed the commit on the bot's behalf, and the bot signed it off. */
  predicate SignedForDependabot(commit: Commit) {
    && commit.githubAuthor.Some? && commit.githubAuthor.value.login == "dependabot[bot]"
    && commit.githubAuthor.value.id == 49699333
    && commit.author.name == "dependabot[bot]"
    && commit.author.email == "49699333+dependabot[bot]@users.noreply.github.com"
    && commit.committer.name == "GitHub" && commit.committer.email == "noreply@github.com"
    && commit.dependabotSignoff
    && match commit.verification
       case None => false
       case Some(v) =>
         && v.valid && v.state == "VALID" && v.verifiedAt.Some? && v.verifiedAt != Some("")
         && v.signedByGitHub && v.signer.Some? && v.signer.value.login == "web-flow" && v.signer.value.id == 19864447
  }

  ghost predicate Exempt(commit: Commit, pull: Pull) {
    && OpenedByDependabot(pull) && SignedForDependabot(commit)
    && pull.commitCount == 1 && commit.sha == pull.headSha && |commit.parents| == 1 && commit.parents[0] == pull.baseSha
  }

  lemma OpenedExactly(pull: Pull)
    ensures OfficialPull(pull) <==> OpenedByDependabot(pull) && pull.commitCount == 1
  {
    if "dependabot/" <= pull.headRef { assert pull.headRef == "dependabot/" + pull.headRef[|"dependabot/"|..]; }
  }

  /** A commit without its author's sign-off is let through exactly as the bot's single commit directly on the base. */
  lemma ExemptExactly(commit: Commit, pull: Pull)
    ensures OutcomeOf(commit, pull) == AuthorSignoff <==> commit.authorSignoff
    ensures OutcomeOf(commit, pull) == OfficialDependabot <==> !commit.authorSignoff && Exempt(commit, pull)
  {
    OpenedExactly(pull);
  }

  // ---- What a pass means ------------------------------------------------------------------------

  /**
   A passing pull request is one unchanged list of distinct commits ending at the head, parents first, where every
   earlier commit has a listed child, and each commit carries its author's sign-off, unless the pull request is
   Dependabot's own: then its single commit sits directly on the base.
   */
  lemma PassMeans(evidence: Evidence)
    requires FirstFailure(evidence, None)
    ensures evidence.event.open && evidence.before == evidence.event == evidence.after
    ensures Follows(evidence.comparison.listed, evidence.commits) && ParentsPrecede(evidence.commits)
    ensures evidence.commits != [] && evidence.commits[|evidence.commits| - 1].sha == evidence.event.headSha
    ensures forall j :: 0 <= j < |evidence.commits| - 1 ==> HasChild(evidence.commits, j)
    ensures (forall i :: 0 <= i < |evidence.commits| ==> evidence.commits[i].authorSignoff)
            || (|evidence.commits| == 1 && evidence.commits[0].parents == [evidence.event.baseSha]
                && Exempt(evidence.commits[0], evidence.event))
  {
    forall i | 0 <= i < |evidence.commits| { ExemptExactly(evidence.commits[i], evidence.event); }
    assert Satisfied(evidence, NotOpen) && Satisfied(evidence, PullChanged) && Satisfied(evidence, CountMismatch);
    assert Satisfied(evidence, HeadMismatch) && Satisfied(evidence, OrderMismatch) && Satisfied(evidence, SignoffMissing);
    ReachedExactlyWhenParented(evidence.commits);
  }
}
