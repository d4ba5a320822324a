/** Strict parsing of CODEOWNERS documents, last-match lookup, and the round trip with a printer. */
module Codeowners {
  import opened Options
  import opened Text
  import opened Patterns

  const MAX_BYTES: nat := 3 * 1024 * 1024

  datatype IssueCode = TooLarge | InvalidPattern | EmailOwner | InvalidOwner
  datatype Issue = Issue(code: IssueCode, line: nat)
  datatype Rule = Rule(pattern: string, owners: seq<string>, line: nat)
  datatype Parsed = Document(rules: seq<Rule>) | Rejected(issues: seq<Issue>)

  // ---- Owners -----------------------------------------------------------------------

  /** Case-insensitive matching also lets dotless i and long s stand for i and s. */
  predicate OwnerStart(c: char) {
    'a' <= c <= 'z' || '0' <= c <= '9' || c == '\U{0131}' || c == '\U{017F}'
  }

  predicate OwnerName(s: string) {
    s != [] && OwnerStart(s[0]) && forall c :: c in s ==> OwnerStart(c) || c == '_' || c == '.' || c == '-'
  }

  predicate TeamSlash(s: string, i: nat) {
    1 <= i < |s| && s[i] == '/' && OwnerName(s[1..i]) && OwnerName(s[i + 1..])
  }

  /** @user or @org/team */
  predicate OwnerShape(s: string) {
    s != [] && s[0] == '@' && (OwnerName(s[1..]) || exists i :: 1 <= i < |s| && TeamSlash(s, i))
  }

  /** str.lower, as far as an accepted owner can tell. */
  function LowerChar(c: char): char {
    if 'A' <= c <= 'Z' then c - 'A' + 'a' else if c == '\U{212A}' then 'k' else c
  }

  function Lower(s: string): (r: string)
    ensures |r| == |s| && forall i :: 0 <= i < |s| ==> r[i] == LowerChar(s[i])
  {
    if s == [] then [] else [LowerChar(s[0])] + Lower(s[1..])
  }

  datatype OwnerResult = Owner(name: string) | BadOwner(code: IssueCode)

  function NormalizeOwner(value: string): OwnerResult {
    var owner := Lower(Strip(value));
    if '@' in owner && owner[0] != '@' then BadOwner(EmailOwner)
    else if !OwnerShape(owner) then BadOwner(InvalidOwner)
    else Owner(owner)
  }

  // ---- One line ------------------------------------------------------------------------

  /** The tokens of the rest of a line, given the characters of the token begun. */
  function SplitFrom(line: string, current: string): seq<string>
    decreases |line|
  {
    if line == [] then (if current == [] then [] else [current])
    else if line[0] == '\\' && |line| > 1 && IsSpace(line[1]) then SplitFrom(line[2..], current + [line[1]])
    else if IsSpace(line[0]) then (if current == [] then [] else [current]) + SplitFrom(line[1..], [])
    else SplitFrom(line[1..], current + [line[0]])
  }

  lemma SplitNext(line: string, index: nat, current: string)
    requires index < |line|
    ensures SplitFrom(line[index..], current) ==
              if line[index] == '\\' && index + 1 < |line| && IsSpace(line[index + 1])
              then SplitFrom(line[index + 2..], current + [line[index + 1]])
              else if IsSpace(line[index])
              then (if current == [] then [] else [current]) + SplitFrom(line[index + 1..], [])
              else SplitFrom(line[index + 1..], current + [line[index]])
  {
    assert line[index..][1..] == line[index + 1..];
    if index + 1 < |line| { assert line[index..][2..] == line[index + 2..]; }
  }

  method SplitLine(line: string) returns (tokens: seq<string>)
    ensures tokens == SplitFrom(line, [])
  {
    tokens := [];
    var current := "";
    var index := 0;
    assert line[0..] == line;
    while index < |line|
      invariant index <= |line|
      invariant tokens + SplitFrom(line[index..], current) == SplitFrom(line, [])
    {
      var character := line[index];
      SplitNext(line, index, current);
      if character == '\\' && index + 1 < |line| && IsSpace(line[index + 1]) {
        current := current + [line[index + 1]];
        index := index + 2;
        continue;
      }
      if IsSpace(character) {
        if current != "" {
          tokens := tokens + [current];
          current := "";
        }
      } else {
        current := current + [character];
      }
      index := index + 1;
    }
    assert line[index..] == [];
    if current != "" {
      tokens := tokens + [current];
    }
  }

  function BeforeComment(tokens: seq<string>): seq<string> {
    if tokens == [] || (tokens[0] != [] && tokens[0][0] == '#') then []
    else [tokens[0]] + BeforeComment(tokens[1..])
  }

  function NormalizeAll(raw: seq<string>): (r: seq<OwnerResult>)
    ensures |r| == |raw| && forall i :: 0 <= i < |raw| ==> r[i] == NormalizeOwner(raw[i])
  {
    seq(|raw|, i requires 0 <= i < |raw| => NormalizeOwner(raw[i]))
  }

  function Names(results: seq<OwnerResult>): seq<string> {
    if results == [] then []
    else match results[|results| - 1]
      case Owner(name) => Names(results[..|results| - 1]) + [name]
      case BadOwner(_) => Names(results[..|results| - 1])
  }

  function OwnerIssues(results: seq<OwnerResult>, line: nat): seq<Issue> {
    if results == [] then []
    else match results[|results| - 1]
      case Owner(_) => OwnerIssues(results[..|results| - 1], line)
      case BadOwner(code) => OwnerIssues(results[..|results| - 1], line) + [Issue(code, line)]
  }

  ghost predicate Distinct(s: seq<string>) {
    forall i, j :: 0 <= i < j < |s| ==> s[i] != s[j]
  }

  /** dict.fromkeys: first occurrences, in order. */
  function Unique(s: seq<string>): (r: seq<string>)
    ensures forall x :: x in r <==> x in s
    ensures Distinct(r)
  {
    if s == [] then []
    else
      assert s == s[..|s| - 1] + [s[|s| - 1]];
      var before := Unique(s[..|s| - 1]);
      if s[|s| - 1] in before then before else before + [s[|s| - 1]]
  }

  datatype LineResult = Skipped | Accepted(rule: Rule) | Bad(issues: seq<Issue>)

  function ParseLine(raw: string, line: nat): LineResult {
    var stripped := Strip(raw);
    if stripped == [] || stripped[0] == '#' then Skipped
    else
      var tokens := BeforeComment(SplitFrom(stripped, []));
      if tokens == [] then Skipped
      else match ValidatePattern(tokens[0])
        case None => Bad([Issue(InvalidPattern, line)])
        case Some(pattern) =>
          var results := NormalizeAll(tokens[1..]);
          var issues := OwnerIssues(results, line);
          if issues != [] then Bad(issues) else Accepted(Rule(pattern, Unique(Names(results)), line))
  }

  // ---- The document ------------------------------------------------------------------------

  function Results(lines: seq<string>): (r: seq<LineResult>)
    ensures |r| == |lines| && forall i :: 0 <= i < |lines| ==> r[i] == ParseLine(lines[i], i + 1)
  {
    seq(|lines|, i requires 0 <= i < |lines| => ParseLine(lines[i], i + 1))
  }

  function Rules(results: seq<LineResult>): seq<Rule> {
    if results == [] then []
    else
      var before := Rules(results[..|results| - 1]);
      match results[|results| - 1]
      case Accepted(rule) => before + [rule]
      case _ => before
  }

  function Issues(results: seq<LineResult>): seq<Issue> {
    if results == [] then []
    else
      var before := Issues(results[..|results| - 1]);
      match results[|results| - 1]
      case Bad(issues) => before + issues
      case _ => before
  }

  function Parse(content: string): Parsed {
    if Utf8Length(content) > MAX_BYTES then Rejected([Issue(TooLarge, 0)])
    else
      var results := Results(SplitLines(content));
      if Issues(results) != [] then Rejected(Issues(results)) else Document(Rules(results))
  }

  method NormalizeOwners(raw: seq<string>, line: nat) returns (owners: seq<string>, issues: seq<Issue>)
    ensures owners == Names(NormalizeAll(raw)) && issues == OwnerIssues(NormalizeAll(raw), line)
  {
    owners, issues := [], [];
    ghost var results := NormalizeAll(raw);
    for i := 0 to |raw|
      invariant owners == Names(results[..i]) && issues == OwnerIssues(results[..i], line)
    {
      assert results[..i + 1][..i] == results[..i];
      var result := NormalizeOwner(raw[i]);
      match result {
        case Owner(name) => owners := owners + [name];
        case BadOwner(code) => issues := issues + [Issue(code, line)];
      }
    }
    assert results[..|raw|] == results;
  }

  method FirstOccurrences(values: seq<string>) returns (unique: seq<string>)
    ensures unique == Unique(values)
  {
    unique := [];
    for i := 0 to |values|
      invariant unique == Unique(values[..i])
    {
      assert values[..i + 1][..i] == values[..i];
      if values[i] !in unique { unique := unique + [values[i]]; }
    }
    assert values[..|values|] == values;
  }

  method CutComment(tokens: seq<string>) returns (kept: seq<string>)
    ensures kept == BeforeComment(tokens)
  {
    var index := 0;
    assert tokens[0..] == tokens;
    while index < |tokens| && !(tokens[index] != [] && tokens[index][0] == '#')
      invariant index <= |tokens| && BeforeComment(tokens) == tokens[..index] + BeforeComment(tokens[index..])
    {
      assert tokens[index..][1..] == tokens[index + 1..];
      assert tokens[..index + 1] == tokens[..index] + [tokens[index]];
      index := index + 1;
    }
    kept := tokens[..index];
  }

  method ParseOneLine(raw: string, line: nat) returns (result: LineResult)
    ensures result == ParseLine(raw, line)
  {
    var stripped := Strip(raw);
    if stripped == [] || stripped[0] == '#' { return Skipped; }
    var split := SplitLine(stripped);
    var tokens := CutComment(split);
    if tokens == [] { return Skipped; }
    var pattern := ValidatePattern(tokens[0]);
    if pattern.None? { return Bad([Issue(InvalidPattern, line)]); }
    var owners, issues := NormalizeOwners(tokens[1..], line);
    if issues != [] { return Bad(issues); }
    var unique := FirstOccurrences(owners);
    result := Accepted(Rule(pattern.value, unique, line));
  }

  /** parse_codeowners */
  method ParseCodeowners(content: string) returns (parsed: Parsed)
    ensures parsed == Parse(content)
  {
    if Utf8Length(content) > MAX_BYTES { return Rejected([Issue(TooLarge, 0)]); }
    var lines := SplitLines(content);
    var rules: seq<Rule>, issues: seq<Issue> := [], [];
    ghost var results := Results(lines);
    for number := 0 to |lines|
      invariant rules == Rules(results[..number]) && issues == Issues(results[..number])
    {
      assert results[..number + 1][..number] == results[..number];
      var result := ParseOneLine(lines[number], number + 1);
      match result {
        case Skipped =>
        case Accepted(rule) => rules := rules + [rule];
        case Bad(found) => issues := issues + found;
      }
    }
    assert results[..|lines|] == results;
    parsed := if issues != [] then Rejected(issues) else Document(rules);
  }

  // ---- Lookup --------------------------------------------------------------------------------

  /** The index after the last rule that applies, or 0. */
  function LastMatch(rules: seq<Rule>, applies: Rule -> bool): (k: nat)
    ensures k <= |rules|
    ensures k > 0 ==> applies(rules[k - 1])
    ensures forall i :: k <= i < |rules| ==> !applies(rules[i])
  {
    if rules == [] then 0
    else if applies(rules[|rules| - 1]) then |rules|
    else
      assert forall i :: 0 <= i < |rules| - 1 ==> rules[..|rules| - 1][i] == rules[i];
      LastMatch(rules[..|rules| - 1], applies)
  }

  function Chosen(rules: seq<Rule>, applies: Rule -> bool): Option<Rule> {
    var k := LastMatch(rules, applies);
    if k == 0 then None else Some(rules[k - 1])
  }

  function AppliesTo(path: string): Rule -> bool {
    (rule: Rule) => PatternMatches(rule.pattern, path)
  }

  /** owners_for: the owners of the last matching rule, or none. */
  function OwnersFor(rules: seq<Rule>, path: string): seq<string> {
    match Chosen(rules, AppliesTo(path))
    case None => []
    case Some(rule) => rule.owners
  }

  /** rule_for's loop: it visits every rule, and the last match wins. */
  method LastRule(rules: seq<Rule>, applies: Rule -> bool) returns (matched: Option<Rule>)
    ensures matched == Chosen(rules, applies)
    ensures matched.None? <==> forall i :: 0 <= i < |rules| ==> !applies(rules[i])
    ensures matched.Some? ==> exists i :: 0 <= i < |rules| && rules[i] == matched.value && applies(rules[i])
                                          && forall j :: i < j < |rules| ==> !applies(rules[j])
  {
    matched := None;
    for i := 0 to |rules|
      invariant matched == Chosen(rules[..i], applies)
    {
      assert rules[..i + 1][..i] == rules[..i];
      if applies(rules[i]) { matched := Some(rules[i]); }
    }
    assert rules[..|rules|] == rules;
    ghost var last := LastMatch(rules, applies);
    assert matched.Some? ==> rules[last - 1] == matched.value;
  }

  method RuleFor(rules: seq<Rule>, path: string) returns (matched: Option<Rule>)
    ensures (if matched.None? then [] else matched.value.owners) == OwnersFor(rules, path)
  {
    matched := LastRule(rules, AppliesTo(path));
  }

  // ---- Printing and parsing back --------------------------------------------------------------

  function Escape(pattern: string): string {
    if pattern == [] then []
    else (if IsSpace(pattern[0]) then ['\\', pattern[0]] else [pattern[0]]) + Escape(pattern[1..])
  }

  function OwnersText(owners: seq<string>): string {
    if owners == [] then [] else " " + owners[0] + OwnersText(owners[1..])
  }

  function Line(rule: Rule): string {
    Escape(rule.pattern) + OwnersText(rule.owners)
  }

  function Print(rules: seq<Rule>): string {
    if rules == [] then [] else Line(rules[0]) + "\n" + Print(rules[1..])
  }

  /** A rule some line can spell: a stripped valid pattern on one line, and normalized owners without repeats. */
  ghost predicate Printable(rule: Rule) {
    && ValidatePattern(rule.pattern) == Some(rule.pattern)
    && (forall c :: c in rule.pattern ==> !IsBreak(c))
    && (forall owner :: owner in rule.owners ==> NormalizeOwner(owner) == Owner(owner))
    && Distinct(rule.owners)
  }

  function Numbered(rules: seq<Rule>): (r: seq<Rule>)
    ensures |r| == |rules| && forall i :: 0 <= i < |rules| ==> r[i] == Rule(rules[i].pattern, rules[i].owners, i + 1)
  {
    seq(|rules|, i requires 0 <= i < |rules| => Rule(rules[i].pattern, rules[i].owners, i + 1))
  }

  lemma SplitSpace(c: char, rest: string, current: string)
    requires IsSpace(c)
    ensures SplitFrom(['\\', c] + rest, current) == SplitFrom(rest, current + [c])
  {
    var line := ['\\', c] + rest;
    assert line[1] == c && line[2..] == rest;
  }

  lemma SplitPlain(c: char, rest: string, current: string)
    requires !IsSpace(c) && c != '\\'
    ensures SplitFrom([c] + rest, current) == SplitFrom(rest, current + [c])
  {
    var line := [c] + rest;
    assert line[0] == c && line[1..] == rest;
  }

  lemma {:induction false} SplitEscaped(pattern: string, rest: string, current: string)
    requires '\\' !in pattern
    ensures SplitFrom(Escape(pattern) + rest, current) == SplitFrom(rest, current + pattern)
  {
    if pattern == [] {
      assert Escape(pattern) + rest == rest && current + pattern == current;
    } else {
      var c, tail := pattern[0], Escape(pattern[1..]) + rest;
      SplitEscaped(pattern[1..], rest, current + [c]);
      assert current + [c] + pattern[1..] == current + pattern;
      if IsSpace(c) {
        assert Escape(pattern) + rest == ['\\', c] + tail;
        SplitSpace(c, tail, current);
      } else {
        assert Escape(pattern) + rest == [c] + tail;
        SplitPlain(c, tail, current);
      }
    }
  }

  predicate WordChar(c: char) {
    !IsSpace(c) && c != '\\' && !IsBreak(c)
  }

  predicate Word(s: string) {
    s != [] && forall c :: c in s ==> WordChar(c)
  }

  lemma {:induction false} EscapeWord(word: string)
    requires word == [] || Word(word)
    ensures Escape(word) == word
  {
    if word != [] {
      assert word[0] in word;
      EscapeWord(word[1..]);
    }
  }

  /** The space before an owner ends the token begun, and the owner is the next one. */
  lemma SplitOneOwner(owner: string, rest: string, current: string)
    requires current != [] && Word(owner)
    ensures SplitFrom(" " + (owner + rest), current) == [current] + SplitFrom(rest, owner)
  {
    var line := " " + (owner + rest);
    assert line[1..] == owner + rest && IsSpace(line[0]);
    EscapeWord(owner);
    SplitEscaped(owner, rest, []);
    assert [] + owner == owner;
  }

  lemma {:induction false} SplitOwners(owners: seq<string>, current: string)
    requires current != [] && forall i :: 0 <= i < |owners| ==> Word(owners[i])
    ensures SplitFrom(OwnersText(owners), current) == [current] + owners
  {
    if owners != [] {
      var owner, rest := owners[0], OwnersText(owners[1..]);
      assert OwnersText(owners) == " " + (owner + rest);
      SplitOneOwner(owner, rest, current);
      SplitOwners(owners[1..], owner);
    }
  }

  lemma PunctuationJoins(left: string, c: char, right: string)
    requires Word(left) && Word(right) && (c == '@' || c == '/')
    ensures Word([c] + right) && Word(left + [c] + right)
  {
  }

  lemma NameIsWord(name: string)
    requires OwnerName(name)
    ensures Word(name)
  {
  }

  lemma TeamIsWord(owner: string, i: nat)
    requires TeamSlash(owner, i)
    ensures Word(owner[1..])
  {
    var left, right := owner[1..i], owner[i + 1..];
    NameIsWord(left);
    NameIsWord(right);
    PunctuationJoins(left, '/', right);
    assert owner[1..] == left + ['/'] + right;
  }

  lemma ShapeIsWord(owner: string)
    requires OwnerShape(owner)
    ensures Word(owner)
  {
    if OwnerName(owner[1..]) {
      NameIsWord(owner[1..]);
    } else {
      var i :| 1 <= i < |owner| && TeamSlash(owner, i);
      TeamIsWord(owner, i);
    }
    PunctuationJoins(owner[1..], '@', owner[1..]);
    assert owner == ['@'] + owner[1..];
  }

  lemma {:induction false} KeepAllTokens(tokens: seq<string>)
    requires forall token :: token in tokens ==> token != [] && token[0] != '#'
    ensures BeforeComment(tokens) == tokens
  {
    if tokens != [] {
      assert tokens[0] in tokens && forall token :: token in tokens[1..] ==> token in tokens;
      KeepAllTokens(tokens[1..]);
    }
  }

  lemma {:induction false} AllNormal(owners: seq<string>, results: seq<OwnerResult>, line: nat)
    requires |results| == |owners| && forall i :: 0 <= i < |owners| ==> results[i] == Owner(owners[i])
    ensures Names(results) == owners && OwnerIssues(results, line) == []
  {
    if owners == [] {
    } else {
      AllNormal(owners[..|owners| - 1], results[..|owners| - 1], line);
    }
  }

  lemma OwnersStay(owners: seq<string>, line: nat)
    requires forall owner :: owner in owners ==> NormalizeOwner(owner) == Owner(owner)
    ensures Names(NormalizeAll(owners)) == owners && OwnerIssues(NormalizeAll(owners), line) == []
  {
    AllNormal(owners, NormalizeAll(owners), line);
  }

  lemma {:induction false} DistinctStay(owners: seq<string>)
    requires Distinct(owners)
    ensures Unique(owners) == owners
  {
    if owners != [] {
      var before := owners[..|owners| - 1];
      DistinctStay(before);
      if owners[|owners| - 1] in before {
        assert false;
      }
    }
  }

  lemma {:induction false} EscapeEnds(pattern: string)
    requires pattern != []
    ensures Escape(pattern) != [] && Escape(pattern)[|Escape(pattern)| - 1] == pattern[|pattern| - 1]
    ensures !IsSpace(pattern[0]) ==> Escape(pattern)[0] == pattern[0]
  {
    if |pattern| > 1 { EscapeEnds(pattern[1..]); }
  }

  lemma {:induction false} OwnersTextEnds(owners: seq<string>)
    requires owners != [] && forall owner :: owner in owners ==> Word(owner)
    ensures var text := OwnersText(owners); text != [] && !IsSpace(text[|text| - 1])
  {
    assert Word(owners[0]) && owners[0][|owners[0]| - 1] in owners[0];
    if |owners| > 1 { OwnersTextEnds(owners[1..]); }
  }

  /** The characters of a printed line come from its pattern and owners, or are separators. */
  lemma {:induction false} EscapeHasNoBreak(pattern: string)
    requires forall c :: c in pattern ==> !IsBreak(c)
    ensures forall c :: c in Escape(pattern) ==> !IsBreak(c)
  {
    if pattern != [] {
      assert pattern[0] in pattern;
      EscapeHasNoBreak(pattern[1..]);
    }
  }

  lemma {:induction false} OwnersTextHasNoBreak(owners: seq<string>)
    requires forall owner :: owner in owners ==> Word(owner)
    ensures forall c :: c in OwnersText(owners) ==> !IsBreak(c)
  {
    if owners != [] {
      assert Word(owners[0]);
      OwnersTextHasNoBreak(owners[1..]);
    }
  }

  lemma OwnersAreWords(owners: seq<string>)
    requires forall owner :: owner in owners ==> NormalizeOwner(owner) == Owner(owner)
    ensures forall owner :: owner in owners ==> Word(owner) && owner[0] == '@'
  {
    forall owner | owner in owners ensures Word(owner) && owner[0] == '@' {
      assert OwnerShape(owner);
      ShapeIsWord(owner);
    }
  }

  lemma LineShape(rule: Rule)
    requires Printable(rule)
    ensures var line := Line(rule);
            && line != [] && line[0] == rule.pattern[0] && Strip(line) == line
            && forall c :: c in line ==> !IsBreak(c)
  {
    var line := Line(rule);
    EscapeEnds(rule.pattern);
    EscapeHasNoBreak(rule.pattern);
    OwnersAreWords(rule.owners);
    OwnersTextHasNoBreak(rule.owners);
    if rule.owners != [] { OwnersTextEnds(rule.owners); }
    StripIsIdentity(line);
  }

  lemma LineTokens(rule: Rule)
    requires Printable(rule)
    ensures BeforeComment(SplitFrom(Line(rule), [])) == [rule.pattern] + rule.owners
  {
    var tokens := [rule.pattern] + rule.owners;
    OwnersAreWords(rule.owners);
    assert SplitFrom(Line(rule), []) == tokens by {
      SplitEscaped(rule.pattern, OwnersText(rule.owners), []);
      assert [] + rule.pattern == rule.pattern;
      SplitOwners(rule.owners, rule.pattern);
    }
    KeepAllTokens(tokens);
  }

  lemma LineParses(rule: Rule, line: nat)
    requires Printable(rule)
    ensures ParseLine(Line(rule), line) == Accepted(Rule(rule.pattern, rule.owners, line))
  {
    LineShape(rule);
    LineTokens(rule);
    var tokens := [rule.pattern] + rule.owners;
    assert tokens[1..] == rule.owners;
    OwnersStay(rule.owners, line);
    DistinctStay(rule.owners);
  }

  function Lines(rules: seq<Rule>): (r: seq<string>)
    ensures |r| == |rules| && forall i :: 0 <= i < |rules| ==> r[i] == Line(rules[i])
  {
    if rules == [] then [] else [Line(rules[0])] + Lines(rules[1..])
  }

  lemma FirstLineSplits(line: string, more: string)
    requires forall c :: c in line ==> !IsBreak(c)
    ensures SplitLines(line + "\n" + more) == [line] + SplitLines(more)
  {
    var text := line + "\n" + more;
    FirstBreakAfter(line, "\n" + more);
    assert line + ("\n" + more) == text;
    assert text[..|line|] == line && text[|line| + 1..] == more;
  }

  lemma {:induction false} PrintedLines(rules: seq<Rule>)
    requires forall rule :: rule in rules ==> Printable(rule)
    ensures SplitLines(Print(rules)) == Lines(rules)
  {
    if rules != [] {
      assert rules[0] in rules;
      LineShape(rules[0]);
      FirstLineSplits(Line(rules[0]), Print(rules[1..]));
      PrintedLines(rules[1..]);
    }
  }

  lemma FirstBreakAfter(line: string, more: string)
    requires (forall c :: c in line ==> !IsBreak(c)) && more != [] && IsBreak(more[0])
    ensures FirstBreak(line + more) == |line|
  {
    var text := line + more;
    assert text[|line|] == more[0];
    assert forall i :: 0 <= i < |line| ==> text[i] in line;
  }

  lemma {:induction false} AllAccepted(rules: seq<Rule>, results: seq<LineResult>)
    requires |results| == |rules| && forall i :: 0 <= i < |rules| ==> results[i] == Accepted(rules[i])
    ensures Rules(results) == rules && Issues(results) == []
  {
    if rules != [] {
      AllAccepted(rules[..|rules| - 1], results[..|rules| - 1]);
    }
  }

  lemma LinesAccepted(rules: seq<Rule>)
    requires forall rule :: rule in rules ==> Printable(rule)
    ensures forall i :: 0 <= i < |rules| ==> Results(Lines(rules))[i] == Accepted(Numbered(rules)[i])
  {
    forall i | 0 <= i < |rules| ensures Results(Lines(rules))[i] == Accepted(Numbered(rules)[i]) {
      assert rules[i] in rules;
      LineParses(rules[i], i + 1);
    }
  }

  /** Parsing what the printer writes returns the same rules in order, numbered by line. */
  lemma RoundTrip(rules: seq<Rule>)
    requires forall rule :: rule in rules ==> Printable(rule)
    requires Utf8Length(Print(rules)) <= MAX_BYTES
    ensures Parse(Print(rules)) == Document(Numbered(rules))
  {
    PrintedLines(rules);
    LinesAccepted(rules);
    AllAccepted(Numbered(rules), Results(Lines(rules)));
  }
}
