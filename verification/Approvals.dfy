/** Who approves a path, in terms of the reviews, the author and the configured delegations themselves. */
module Approvals {
  import opened Options
  import opened Text
  import opened Patterns
  import opened Policy
  import opened Evaluator
  import C = Codeowners

  // ---- Applications -----------------------------------------------------------------------

  /** The actor is this application's own bot account: id, slug, account and login all agree. */
  predicate BotOf(app: App, actor: Actor) {
    && actor.appId == app.appId && actor.appSlug == app.slug && actor.userId == app.botUserId
    && actor.login == app.slug + "[bot]"
  }

  /** The review comes from an application, and app n is the first enrolled one whose bot it is. */
  ghost predicate ReviewOfApp(apps: seq<App>, review: Review, n: nat) {
    && review.actor.kind.Application? && n < |apps| && BotOf(apps[n], review.actor)
    && forall m :: 0 <= m < n ==> !BotOf(apps[m], review.actor)
  }

  lemma {:induction false} FirstBot(apps: seq<App>, actor: Actor, n: nat)
    requires n < |apps| && BotOf(apps[n], actor) && forall m :: 0 <= m < n ==> !BotOf(apps[m], actor)
    ensures AppFor(apps, actor) == Some(apps[n].alias)
  {
    if n > 0 {
      assert !BotOf(apps[0], actor) && forall m :: 0 <= m < n - 1 ==> apps[1..][m] == apps[m + 1];
      FirstBot(apps[1..], actor, n - 1);
    }
  }

  lemma {:induction false} BotExists(apps: seq<App>, actor: Actor) returns (n: nat)
    requires AppFor(apps, actor).Some?
    ensures n < |apps| && BotOf(apps[n], actor) && forall m :: 0 <= m < n ==> !BotOf(apps[m], actor)
  {
    if IsBot(apps[0], actor) {
      n := 0;
    } else {
      var k := BotExists(apps[1..], actor);
      n := k + 1;
    }
  }

  lemma FromAppExactly(apps: seq<App>, review: Review, alias: string)
    ensures FromApp(apps, review, alias) <==>
              exists n :: 0 <= n < |apps| && ReviewOfApp(apps, review, n) && apps[n].alias == alias
  {
    if FromApp(apps, review, alias) {
      var n := BotExists(apps, review.actor);
      FirstBot(apps, review.actor, n);
      assert ReviewOfApp(apps, review, n);
    }
    if n :| 0 <= n < |apps| && ReviewOfApp(apps, review, n) && apps[n].alias == alias {
      FirstBot(apps, review.actor, n);
    }
  }

  /** An approval by the application, on the head where that is required, that no later opinion of its bot overtakes. */
  ghost predicate AppApproval(data: Input, alias: string, i: nat) {
    && i < |data.reviews| && data.reviews[i].state.Approved? && !Overtaken(data.reviews, i)
    && (data.options.exactHead ==> data.reviews[i].commitSha == Some(data.headSha))
    && exists n :: 0 <= n < |data.organization.apps|
         && ReviewOfApp(data.organization.apps, data.reviews[i], n) && data.organization.apps[n].alias == alias
  }

  lemma AppApprovedExactly(data: Input, alias: string)
    ensures AppApproved(data, alias) <==> exists i :: AppApproval(data, alias, i)
  {
    if review :| CurrentApproval(data, review) && FromApp(data.organization.apps, review, alias) {
      var i :| 0 <= i < |data.reviews| && data.reviews[i] == review && Latest(data.reviews, i);
      StandsExactly(data.reviews, i);
      FromAppExactly(data.organization.apps, review, alias);
      assert AppApproval(data, alias, i);
    }
    if i: nat :| AppApproval(data, alias, i) {
      StandsExactly(data.reviews, i);
      FromAppExactly(data.organization.apps, data.reviews[i], alias);
      assert CurrentApproval(data, data.reviews[i]);
    }
  }

  // ---- Delegations -------------------------------------------------------------------------

  /** The repository delegates the path to the application for some of these owners, and the labels allow it. */
  ghost predicate Delegated(delegation: Delegation, alias: string, path: string, owners: set<string>, labels: set<string>) {
    && delegation.app == alias
    && (exists i :: 0 <= i < |delegation.paths| && PatternMatches(Strip(delegation.paths[i]), path))
    && ("*" in delegation.forOwners || exists owner :: owner in delegation.forOwners && owner in owners)
    && (forall name :: name in delegation.requiredLabels ==> name in labels)
    && (forall name :: name in delegation.forbiddenLabels ==> name !in labels)
  }

  lemma PermitsExactly(delegation: Delegation, alias: string, path: string, owners: set<string>, labels: set<string>)
    ensures delegation.app == alias && Permits(CompileDelegation(delegation), path, owners, labels) <==>
              Delegated(delegation, alias, path, owners, labels)
  {
    AnyMatchMeans(delegation.paths, path);
    assert (exists owner :: owner in delegation.forOwners && owner in owners) <==>
             exists i :: 0 <= i < |delegation.forOwners| && delegation.forOwners[i] in owners;
    assert delegation.forbiddenLabels !! labels <==> forall name :: name in delegation.forbiddenLabels ==> name !in labels;
  }

  lemma EligibleExactly(data: Input, alias: string, path: string, owners: set<string>)
    ensures Eligible(Effective(data.organization, data.repository, data.options), alias, path, owners, data.labels) <==>
              exists i :: 0 <= i < |data.repository.delegations|
                && Delegated(data.repository.delegations[i], alias, path, owners, data.labels)
  {
    var policy, delegations := Effective(data.organization, data.repository, data.options), data.repository.delegations;
    forall i | 0 <= i < |delegations|
      ensures policy.delegations[i].rule.app == alias && Permits(policy.delegations[i], path, owners, data.labels) <==>
                Delegated(delegations[i], alias, path, owners, data.labels)
    {
      PermitsExactly(delegations[i], alias, path, owners, data.labels);
    }
  }

  /** A policy is sound exactly when all its patterns are valid and each delegation names an enrolled application. */
  lemma SoundExactly(organization: Organization, repository: Repository, options: RunOptions)
    ensures Sound(organization, repository, options) <==>
              && (forall pattern :: pattern in NonDelegablePaths(organization, repository, options) ==>
                    ValidatePattern(pattern).Some?)
              && (forall delegation :: delegation in repository.delegations ==>
                    && (exists app :: app in organization.apps && app.alias == delegation.app)
                    && forall pattern :: pattern in delegation.paths ==> ValidatePattern(pattern).Some?)
  {
    forall delegation
      ensures SoundDelegation(organization, delegation) <==>
                && (exists app :: app in organization.apps && app.alias == delegation.app)
                && forall pattern :: pattern in delegation.paths ==> ValidatePattern(pattern).Some?
    {
      if app :| app in organization.apps && app.alias == delegation.app {
        var i :| 0 <= i < |organization.apps| && organization.apps[i] == app;
      }
    }
  }

  // ---- One path --------------------------------------------------------------------------------

  /** The author owns the path under an identity of their own, and the repository has opted in. */
  ghost predicate AuthorOwns(data: Input, owners: set<string>) {
    && data.repository.authorCounts && data.author.Some?
    && var author := data.author.value;
    || (exists alias :: alias in author.ownerAliases && alias in owners)
    || (author.directOwnerEligible && ("@" + C.Lower(author.login)) in owners)
  }

  lemma AuthorOwnsExactly(data: Input, owners: set<string>)
    ensures AuthorIdentities(data) * owners != {} <==> AuthorOwns(data, owners)
  {
    if data.repository.authorCounts && data.author.Some? {
      var author, identities := data.author.value, AuthorIdentities(data);
      if alias :| alias in author.ownerAliases && alias in owners { assert alias in identities * owners; }
      if author.directOwnerEligible && ("@" + C.Lower(author.login)) in owners {
        assert ("@" + C.Lower(author.login)) in identities * owners;
      }
    }
  }

  ghost predicate HumanApproval(data: Input, owners: set<string>, i: nat) {
    i < |data.reviews| && OwnerApproval(data, owners, data.reviews[i]) && !Overtaken(data.reviews, i)
  }

  lemma HumanApprovalExactly(data: Input, owners: set<string>)
    ensures HumanApproves(data, owners) <==> exists i :: HumanApproval(data, owners, i)
  {
    HumanApprovesExactly(data, owners);
    if HumanApproves(data, owners) {
      var i :| 0 <= i < |data.reviews| && OwnerApproval(data, owners, data.reviews[i]) && !Overtaken(data.reviews, i);
      assert HumanApproval(data, owners, i);
    }
  }

  ghost predicate AppCoversPath(data: Input, path: string, owners: set<string>, alias: string) {
    && (exists i :: AppApproval(data, alias, i))
    && exists i :: 0 <= i < |data.repository.delegations|
         && Delegated(data.repository.delegations[i], alias, path, owners, data.labels)
  }

  /**
   A path is approved exactly when it has no owners, or a human owner's approval stands,
   or its owning author counts, or it is not guarded and an application's approval stands
   that the repository delegates the path to.
   */
  lemma PathApprovedExactly(data: Input, path: string, owners: set<string>)
    ensures PathApproved(data, Effective(data.organization, data.repository, data.options), path, owners) <==>
              || owners == {}
              || (exists i :: HumanApproval(data, owners, i))
              || AuthorOwns(data, owners)
              || (&& (forall pattern :: pattern in NonDelegablePaths(data.organization, data.repository, data.options) ==>
                        !PatternMatches(Strip(pattern), path))
                  && exists alias :: AppCoversPath(data, path, owners, alias))
  {
    HumanApprovalExactly(data, owners);
    AuthorOwnsExactly(data, owners);
    AppApprovesExactly(data, path, owners);
  }

  lemma AppApprovesExactly(data: Input, path: string, owners: set<string>)
    ensures AppApproves(data, Effective(data.organization, data.repository, data.options), path, owners) <==>
              && (forall pattern :: pattern in NonDelegablePaths(data.organization, data.repository, data.options) ==>
                    !PatternMatches(Strip(pattern), path))
              && exists alias :: AppCoversPath(data, path, owners, alias)
  {
    var guards := NonDelegablePaths(data.organization, data.repository, data.options);
    AnyMatchMeans(guards, path);
    forall alias
      ensures AppApproved(data, alias)
              && Eligible(Effective(data.organization, data.repository, data.options), alias, path, owners, data.labels)
              <==> AppCoversPath(data, path, owners, alias)
    {
      AppApprovedExactly(data, alias);
      EligibleExactly(data, alias, path, owners);
    }
  }
}
