/** Which CODEOWNERS documents and owners are accepted, what an accepted document holds, and who owns a path. */
module CodeownersFacts {
  import opened Options
  import opened Text
  import opened Patterns
  import opened Codeowners

  // ---- Which documents are accepted, and what they hold ----------------------------------------

  /** What a line says: its tokens up to a comment, none for a blank or comment line. */
  function Words(raw: string): seq<string> {
    if Strip(raw) == [] || Strip(raw)[0] == '#' then [] else BeforeComment(SplitFrom(Strip(raw), []))
  }

  /** A line with something on it that is not a valid pattern followed by owners. */
  ghost predicate Faulty(raw: string) {
    var tokens := Words(raw);
    && tokens != []
    && (ValidatePattern(tokens[0]).None? || exists k :: 1 <= k < |tokens| && NormalizeOwner(tokens[k]).BadOwner?)
  }

  /** The rule stands for the line: its pattern, and each of its owners once. */
  ghost predicate RuleOf(raw: string, number: nat, rule: Rule) {
    var tokens := Words(raw);
    && tokens != [] && rule.line == number && Some(rule.pattern) == ValidatePattern(tokens[0]) && Distinct(rule.owners)
    && forall owner :: owner in rule.owners <==> exists k :: 1 <= k < |tokens| && NormalizeOwner(tokens[k]) == Owner(owner)
  }

  lemma {:induction false} IssuesFromBadOwners(results: seq<OwnerResult>, line: nat)
    ensures OwnerIssues(results, line) == [] <==> forall i :: 0 <= i < |results| ==> results[i].Owner?
  {
    if results != [] { IssuesFromBadOwners(results[..|results| - 1], line); }
  }

  lemma {:induction false} NamesOfOwners(results: seq<OwnerResult>)
    ensures forall name :: name in Names(results) <==> exists i :: 0 <= i < |results| && results[i] == Owner(name)
  {
    if results != [] {
      NamesOfOwners(results[..|results| - 1]);
      assert results == results[..|results| - 1] + [results[|results| - 1]];
    }
  }

  function OfWords(words: seq<string>, number: nat): LineResult {
    if words == [] then Skipped
    else match ValidatePattern(words[0])
      case None => Bad([Issue(InvalidPattern, number)])
      case Some(pattern) => OfOwners(pattern, NormalizeAll(words[1..]), number)
  }

  function OfOwners(pattern: string, results: seq<OwnerResult>, number: nat): LineResult {
    if OwnerIssues(results, number) != [] then Bad(OwnerIssues(results, number))
    else Accepted(Rule(pattern, Unique(Names(results)), number))
  }

  lemma LineOfWords(raw: string, number: nat)
    ensures ParseLine(raw, number) == OfWords(Words(raw), number)
  {
  }

  lemma OwnersExactly(pattern: string, results: seq<OwnerResult>, number: nat)
    ensures var r := OfOwners(pattern, results, number);
            && !r.Skipped? && (r.Bad? ==> r.issues != [])
            && (r.Bad? <==> exists i :: 0 <= i < |results| && results[i].BadOwner?)
            && (r.Accepted? ==>
                  && r.rule.pattern == pattern && r.rule.line == number && Distinct(r.rule.owners)
                  && forall owner :: owner in r.rule.owners <==> exists i :: 0 <= i < |results| && results[i] == Owner(owner))
  {
    IssuesFromBadOwners(results, number);
    NamesOfOwners(results);
  }

  lemma NormalizedTail(words: seq<string>)
    requires words != []
    ensures forall owner :: (exists i :: 0 <= i < |words| - 1 && NormalizeAll(words[1..])[i] == Owner(owner)) <==>
                            (exists k :: 1 <= k < |words| && NormalizeOwner(words[k]) == Owner(owner))
    ensures (exists i :: 0 <= i < |words| - 1 && NormalizeAll(words[1..])[i].BadOwner?) <==>
            (exists k :: 1 <= k < |words| && NormalizeOwner(words[k]).BadOwner?)
  {
    var results := NormalizeAll(words[1..]);
    assert forall k :: 1 <= k < |words| ==> results[k - 1] == NormalizeOwner(words[k]);
    forall owner
      ensures (exists i :: 0 <= i < |words| - 1 && results[i] == Owner(owner)) <==>
              (exists k :: 1 <= k < |words| && NormalizeOwner(words[k]) == Owner(owner))
    {
      if i :| 0 <= i < |words| - 1 && results[i] == Owner(owner) { assert NormalizeOwner(words[i + 1]) == Owner(owner); }
    }
    if i :| 0 <= i < |words| - 1 && results[i].BadOwner? { assert NormalizeOwner(words[i + 1]).BadOwner?; }
  }

  /** What a line comes to, by its words. */
  lemma LineExactly(raw: string, number: nat)
    ensures ParseLine(raw, number).Skipped? <==> Words(raw) == []
    ensures ParseLine(raw, number).Bad? <==> Faulty(raw)
    ensures ParseLine(raw, number).Bad? ==> ParseLine(raw, number).issues != []
    ensures ParseLine(raw, number).Accepted? ==> RuleOf(raw, number, ParseLine(raw, number).rule)
  {
    var words := Words(raw);
    LineOfWords(raw, number);
    if words != [] && ValidatePattern(words[0]).Some? {
      OwnersExactly(ValidatePattern(words[0]).value, NormalizeAll(words[1..]), number);
      NormalizedTail(words);
    }
  }

  lemma {:induction false} IssuesOfLines(results: seq<LineResult>)
    requires forall i :: 0 <= i < |results| && results[i].Bad? ==> results[i].issues != []
    ensures Issues(results) == [] <==> forall i :: 0 <= i < |results| ==> !results[i].Bad?
  {
    if results != [] { IssuesOfLines(results[..|results| - 1]); }
  }

  lemma LinesExactly(lines: seq<string>)
    ensures forall i :: 0 <= i < |lines| ==>
              (Results(lines)[i].Bad? <==> Faulty(lines[i])) && (Results(lines)[i].Bad? ==> Results(lines)[i].issues != [])
  {
    forall i | 0 <= i < |lines|
      ensures (Results(lines)[i].Bad? <==> Faulty(lines[i])) && (Results(lines)[i].Bad? ==> Results(lines)[i].issues != [])
    {
      LineExactly(lines[i], i + 1);
    }
  }

  ghost predicate SomeBad(results: seq<LineResult>) {
    exists i :: 0 <= i < |results| && results[i].Bad?
  }

  ghost predicate SomeFaulty(lines: seq<string>) {
    exists i :: 0 <= i < |lines| && Faulty(lines[i])
  }

  lemma BadLinesAreFaulty(lines: seq<string>)
    ensures SomeBad(Results(lines)) <==> SomeFaulty(lines)
    ensures Issues(Results(lines)) == [] <==> !SomeBad(Results(lines))
  {
    LinesExactly(lines);
    IssuesOfLines(Results(lines));
  }

  /** A document is rejected exactly when it is too large or some line of it is faulty: no faulty line is skipped. */
  lemma RejectedExactly(content: string)
    ensures Parse(content).Rejected? <==> Utf8Length(content) > 3145728 || SomeFaulty(SplitLines(content))
  {
    BadLinesAreFaulty(SplitLines(content));
  }

  lemma {:induction false} RulesOfLines(results: seq<LineResult>)
    ensures forall rule :: rule in Rules(results) <==> exists i :: 0 <= i < |results| && results[i] == Accepted(rule)
  {
    if results != [] {
      var before, last := results[..|results| - 1], results[|results| - 1];
      RulesOfLines(before);
      assert results == before + [last];
    }
  }

  lemma {:induction false} LinesOfRules(results: seq<LineResult>)
    requires forall i :: 0 <= i < |results| && results[i].Accepted? ==> results[i].rule.line == i + 1
    ensures forall i, j :: 0 <= i < j < |Rules(results)| ==> Rules(results)[i].line < Rules(results)[j].line
    ensures forall i :: 0 <= i < |Rules(results)| ==> 1 <= Rules(results)[i].line <= |results|
  {
    if results != [] { LinesOfRules(results[..|results| - 1]); }
  }

  ghost predicate HasLine(rules: seq<Rule>, number: nat) {
    exists rule :: rule in rules && rule.line == number
  }

  /** The rules are those of the lines, in line order, and no line that says something is left out. */
  ghost predicate RulesAre(results: seq<LineResult>, rules: seq<Rule>) {
    && (forall i, j :: 0 <= i < j < |rules| ==> rules[i].line < rules[j].line)
    && (forall rule :: rule in rules ==> 1 <= rule.line <= |results| && results[rule.line - 1] == Accepted(rule))
    && (forall i :: 0 <= i < |results| ==> results[i].Skipped? || HasLine(rules, i + 1))
  }

  lemma RuleIsItsLine(results: seq<LineResult>, rule: Rule)
    requires forall i :: 0 <= i < |results| && results[i].Accepted? ==> results[i].rule.line == i + 1
    requires rule in Rules(results)
    ensures 1 <= rule.line <= |results| && results[rule.line - 1] == Accepted(rule)
  {
    RulesOfLines(results);
    var i :| 0 <= i < |results| && results[i] == Accepted(rule);
  }

  lemma LineHasItsRule(results: seq<LineResult>, i: nat)
    requires i < |results| && results[i].Accepted? && results[i].rule.line == i + 1
    ensures HasLine(Rules(results), i + 1)
  {
    RulesOfLines(results);
    assert results[i] == Accepted(results[i].rule);
  }

  lemma RulesAreLines(results: seq<LineResult>)
    requires !SomeBad(results) && forall i :: 0 <= i < |results| && results[i].Accepted? ==> results[i].rule.line == i + 1
    ensures RulesAre(results, Rules(results))
  {
    LinesOfRules(results);
    forall rule | rule in Rules(results) ensures 1 <= rule.line <= |results| && results[rule.line - 1] == Accepted(rule) {
      RuleIsItsLine(results, rule);
    }
    forall i | 0 <= i < |results| ensures results[i].Skipped? || HasLine(Rules(results), i + 1) {
      if results[i].Accepted? { LineHasItsRule(results, i); }
    }
  }

  lemma AcceptedCarriesNumber(raw: string, number: nat)
    ensures ParseLine(raw, number).Accepted? ==> ParseLine(raw, number).rule.line == number
  {
  }

  lemma NumbersAreLines(lines: seq<string>)
    ensures forall i :: 0 <= i < |lines| && Results(lines)[i].Accepted? ==> Results(lines)[i].rule.line == i + 1
  {
    forall i | 0 <= i < |lines| && Results(lines)[i].Accepted? ensures Results(lines)[i].rule.line == i + 1 {
      AcceptedCarriesNumber(lines[i], i + 1);
    }
  }

  /**
   An accepted document holds one rule for each line that says something, in line
   order; LineExactly says what the rule of a line is.
   */
  lemma DocumentExactly(content: string)
    requires Parse(content).Document?
    ensures RulesAre(Results(SplitLines(content)), Parse(content).rules)
  {
    BadLinesAreFaulty(SplitLines(content));
    NumbersAreLines(SplitLines(content));
    RulesAreLines(Results(SplitLines(content)));
  }

  lemma ChosenExactly(rules: seq<Rule>, applies: Rule -> bool)
    ensures (forall rule :: rule in rules ==> !applies(rule)) ==> Chosen(rules, applies) == None
    ensures forall i :: 0 <= i < |rules| && applies(rules[i]) && (forall j :: i < j < |rules| ==> !applies(rules[j])) ==>
              Chosen(rules, applies) == Some(rules[i])
  {
    var k := LastMatch(rules, applies);
    if k > 0 { assert rules[k - 1] in rules; }
  }

  lemma OwnersOfChosen(rules: seq<Rule>, path: string)
    ensures OwnersFor(rules, path) == match Chosen(rules, AppliesTo(path)) case None => [] case Some(rule) => rule.owners
    ensures forall rule :: AppliesTo(path)(rule) <==> PatternMatches(rule.pattern, path)
  {
  }

  /** The last rule that matches a path decides its owners. */
  lemma LastMatchOwns(rules: seq<Rule>, path: string, i: nat)
    requires i < |rules| && PatternMatches(rules[i].pattern, path)
    requires forall j :: i < j < |rules| ==> !PatternMatches(rules[j].pattern, path)
    ensures OwnersFor(rules, path) == rules[i].owners
  {
    OwnersOfChosen(rules, path);
    ChosenExactly(rules, AppliesTo(path));
  }

  /** A path no rule matches has no owner. */
  lemma UnmatchedHasNoOwner(rules: seq<Rule>, path: string)
    requires forall rule :: rule in rules ==> !PatternMatches(rule.pattern, path)
    ensures OwnersFor(rules, path) == []
  {
    OwnersOfChosen(rules, path);
    ChosenExactly(rules, AppliesTo(path));
  }

  // ---- Which owners are accepted ------------------------------------------------------------------

  const LETTERS := "abcdefghijklmnopqrstuvwxyz"
  const DIGITS := "0123456789"
  const OTHER_LETTERS := "\U{0131}\U{017F}"

  /** One word of letters, digits, underscores, dots and hyphens that begins with a letter or digit. */
  predicate Handle(s: string) {
    && s != [] && s[0] in LETTERS + DIGITS + OTHER_LETTERS
    && forall i :: 0 <= i < |s| ==> s[i] in LETTERS + DIGITS + OTHER_LETTERS || s[i] in "_.-"
  }

  lemma StartExactly(c: char)
    ensures OwnerStart(c) <==> c in LETTERS + DIGITS + OTHER_LETTERS
  {
  }

  lemma HandleExactly(s: string)
    ensures OwnerName(s) <==> Handle(s)
  {
    forall c ensures OwnerStart(c) <==> c in LETTERS + DIGITS + OTHER_LETTERS { StartExactly(c); }
    if Handle(s) {
      forall c | c in s ensures OwnerStart(c) || c == '_' || c == '.' || c == '-' {
        var i :| 0 <= i < |s| && s[i] == c;
      }
    }
  }

  ghost predicate User(owner: string) {
    exists user :: owner == "@" + user && Handle(user)
  }

  ghost predicate Team(owner: string) {
    exists organization, team :: IsTeam(owner, organization, team)
  }

  predicate IsTeam(owner: string, organization: string, team: string) {
    owner == "@" + organization + "/" + team && Handle(organization) && Handle(team)
  }

  lemma UserExactly(owner: string)
    ensures User(owner) <==> owner != [] && owner[0] == '@' && OwnerName(owner[1..])
  {
    if owner != [] && owner[0] == '@' {
      assert owner == "@" + owner[1..];
      HandleExactly(owner[1..]);
    }
    if user :| owner == "@" + user && Handle(user) {
      assert owner[1..] == user;
      HandleExactly(user);
    }
  }

  lemma TeamText(owner: string, i: nat)
    requires 1 <= i < |owner| && owner[0] == '@' && owner[i] == '/'
    ensures owner == "@" + owner[1..i] + "/" + owner[i + 1..]
  {
  }

  lemma SlashGivesTeam(owner: string, i: nat)
    requires owner != [] && owner[0] == '@' && TeamSlash(owner, i)
    ensures Team(owner)
  {
    HandleExactly(owner[1..i]);
    HandleExactly(owner[i + 1..]);
    TeamText(owner, i);
    assert IsTeam(owner, owner[1..i], owner[i + 1..]);
  }

  lemma TeamGivesSlash(owner: string, organization: string, team: string)
    requires IsTeam(owner, organization, team)
    ensures owner[0] == '@' && TeamSlash(owner, 1 + |organization|)
  {
    var i := 1 + |organization|;
    HandleExactly(organization);
    HandleExactly(team);
    assert owner[1..i] == organization && owner[i + 1..] == team && owner[i] == '/';
  }

  lemma TeamExactly(owner: string)
    ensures Team(owner) <==> owner != [] && owner[0] == '@' && exists i :: 1 <= i < |owner| && TeamSlash(owner, i)
  {
    if owner != [] && owner[0] == '@' {
      if i :| 1 <= i < |owner| && TeamSlash(owner, i) { SlashGivesTeam(owner, i); }
    }
    if organization, team :| IsTeam(owner, organization, team) {
      TeamGivesSlash(owner, organization, team);
    }
  }

  /** Exactly the accepted owners: a user or an organization's team, in lower case and without surrounding space. */
  lemma AcceptedOwners(value: string, owner: string)
    ensures NormalizeOwner(value) == Owner(owner) <==> owner == Lower(Strip(value)) && (User(owner) || Team(owner))
    ensures NormalizeOwner(value) == BadOwner(EmailOwner) <==> '@' in Lower(Strip(value)) && Lower(Strip(value))[0] != '@'
  {
    UserExactly(owner);
    TeamExactly(owner);
  }

  /** Lower-casing changes exactly the capital letters, and the one sign that folds to k. */
  lemma LowerExactly(c: char)
    ensures 'A' <= c <= 'Z' ==> LowerChar(c) as int == c as int + 32
    ensures c == '\U{212A}' ==> LowerChar(c) == 'k'
    ensures !('A' <= c <= 'Z') && c != '\U{212A}' ==> LowerChar(c) == c
  {
  }
}
