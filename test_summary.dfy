/** The test-run summariser: a line-by-line reader of Jest's console output that
    collects passing test names and failures (with their error and stack-trace
    lines), a classifier that proposes a fix for a failure, and the Markdown
    report built from both. */
module TestSummary {
  import opened Optional
  import opened Text

  const PassMark := '\U{2713}'   // ✓
  const FailMark := '\U{2715}'   // ✕
  const Bullet := '\U{25CF}'     // ●

  // --------------------------------------------------- the name-capturing pattern

  /** `t` is a whole match of `\s+\(\d+\s*ms\)`, read left to right. */
  predicate TimingSuffix(t: string) {
    t != [] && IsSpace(t[0]) && SpacesThenParen(t[1..])
  }

  /** The rest of `\s+` followed by `\(`. */
  predicate SpacesThenParen(t: string)
    decreases |t|
  {
    t != [] && if IsSpace(t[0]) then SpacesThenParen(t[1..]) else t[0] == '(' && DigitsThenMs(t[1..], false)
  }

  /** `\d+` (of which a digit is already `seen` or not) followed by `\s*ms\)`. */
  predicate DigitsThenMs(t: string, seen: bool)
    decreases |t|
  {
    t != [] && if IsDigit(t[0]) then DigitsThenMs(t[1..], true) else seen && SpacesThenMs(t)
  }

  /** `\s*ms\)` up to the end. */
  predicate SpacesThenMs(t: string)
    decreases |t|
  {
    if t != [] && IsSpace(t[0]) then SpacesThenMs(t[1..]) else t == "ms)"
  }

  predicate NoTerminator(s: string) {
    forall i :: 0 <= i < |s| ==> !IsLineTerminator(s[i])
  }

  /** The lazy capture may end at `j`: the text ends there, or the optional
      timing group matches all that follows. */
  predicate StopsAt(rest: string, j: nat) {
    j == |rest| || (j < |rest| && TimingSuffix(rest[j..]))
  }

  /** The lazy `(.+?)` starting at `m` in `rest`, trying end positions from `j`
      up: the first end at which the capture may stop, provided `.` (which does
      not match line terminators) covers everything from `m` to there. */
  function Capture(rest: string, m: nat, j: nat): (r: Option<nat>)
    requires m < j <= |rest| + 1
    requires NoTerminator(rest[m..j - 1])
    ensures r.Some? ==> j <= r.value <= |rest|
    ensures r.Some? ==> NoTerminator(rest[m..r.value]) && StopsAt(rest, r.value)
    ensures r.Some? ==> forall k :: j <= k < r.value ==> !StopsAt(rest, k)
    decreases |rest| + 1 - j
  {
    if j > |rest| || IsLineTerminator(rest[j - 1]) then None
    else
      assert rest[m..j] == rest[m..j - 1] + [rest[j - 1]];
      if StopsAt(rest, j) then Some(j)
      else Capture(rest, m, j + 1)
  }

  /** The greedy `\s+` after the mark gives back one space at a time, from
      the longest run down to a single space, until the capture succeeds. */
  function TryFrom(rest: string, m: nat): (r: Option<string>)
    requires m <= |rest|
    decreases m
  {
    if m == 0 then None
    else
      match Capture(rest, m, m + 1)
      case Some(j) => Some(rest[m..j])
      case None => TryFrom(rest, m - 1)
  }

  /** `/<mark>\s+(.+?)(?:\s+\(\d+\s*ms\))?$/` tried at each occurrence of the
      mark from `p` on: the first group of the leftmost match. */
  function MatchFrom(line: string, mark: char, p: nat): (r: Option<string>)
    ensures r.Some? ==> mark in line
    decreases |line| - p
  {
    if p >= |line| then None
    else if line[p] == mark then
      var rest := line[p + 1..];
      match TryFrom(rest, LeadingSpaces(rest))
      case Some(c) => Some(c)
      case None => MatchFrom(line, mark, p + 1)
    else MatchFrom(line, mark, p + 1)
  }

  function MatchMarked(line: string, mark: char): (r: Option<string>)
    ensures r.Some? ==> mark in line
  {
    MatchFrom(line, mark, 0)
  }

  lemma NoTerminatorPrefix(s: string, a: nat, b: nat, c: nat)
    requires a <= b <= c <= |s| && NoTerminator(s[a..c])
    ensures NoTerminator(s[a..b])
  {
    forall i | 0 <= i < b - a
      ensures !IsLineTerminator(s[a..b][i])
    {
      assert s[a..b][i] == s[a..c][i];
    }
  }

  /** The search finds the first admissible end when every earlier one is refused. */
  lemma {:induction false} CaptureFinds(rest: string, m: nat, j: nat, e: nat)
    requires m < j <= e <= |rest|
    requires NoTerminator(rest[m..e]) && StopsAt(rest, e)
    requires forall k :: j <= k < e ==> !StopsAt(rest, k)
    ensures NoTerminator(rest[m..j - 1])
    ensures Capture(rest, m, j) == Some(e)
    decreases e - j
  {
    NoTerminatorPrefix(rest, m, j - 1, e);
    assert rest[j - 1] == rest[m..e][j - 1 - m];
    if j < e {
      CaptureFinds(rest, m, j + 1, e);
    }
  }

  /** Spaces followed by a character other than `(` never open the timing group. */
  lemma {:induction false} NoParenNoTiming(x: string, y: string)
    requires '(' !in x && exists i :: 0 <= i < |x| && !IsSpace(x[i])
    ensures !SpacesThenParen(x + y)
    decreases |x|
  {
    assert (x + y)[0] == x[0];
    if IsSpace(x[0]) {
      var i :| 0 <= i < |x| && !IsSpace(x[i]);
      assert x[1..][i - 1] == x[i];
      assert (x + y)[1..] == x[1..] + y;
      NoParenNoTiming(x[1..], y);
    }
  }

  /** A run of digits then spaces then `ms)` completes the timing group. */
  lemma {:induction false} DigitsComplete(d: string, seen: bool)
    requires forall i :: 0 <= i < |d| ==> IsDigit(d[i])
    requires seen || d != []
    ensures DigitsThenMs(d + " ms)", seen)
    decreases |d|
  {
    if d != [] {
      assert (d + " ms)")[0] == d[0];
      assert (d + " ms)")[1..] == d[1..] + " ms)";
      DigitsComplete(d[1..], true);
    } else {
      assert SpacesThenMs(" ms)") by { assert " ms)"[1..] == "ms)"; }
    }
  }

  /** Jest's line `<mark> name` or `<mark> name (N ms)` yields exactly the name,
      provided the name has no surrounding spaces, no line terminator and no `(`. */
  lemma MarkedLineName(mark: char, name: string, d: string)
    requires name != [] && !IsSpace(name[0]) && !IsSpace(name[|name| - 1])
    requires NoTerminator(name) && '(' !in name
    requires forall i :: 0 <= i < |d| ==> IsDigit(d[i])
    ensures MatchMarked([mark] + " " + name, mark) == Some(name)
    ensures d != [] ==> MatchMarked([mark] + " " + name + " (" + d + " ms)", mark) == Some(name)
  {
    NameCaptured(mark, name, "");
    assert [mark] + " " + name + "" == [mark] + " " + name;
    if d != [] {
      var suffix := " (" + d + " ms)";
      TimingOf(d);
      NameCaptured(mark, name, suffix);
      assert [mark] + " " + name + " (" + d + " ms)" == [mark] + " " + name + suffix;
    }
  }

  /** Jest's ` (N ms)` is a timing suffix. */
  lemma TimingOf(d: string)
    requires d != [] && forall i :: 0 <= i < |d| ==> IsDigit(d[i])
    ensures TimingSuffix(" (" + d + " ms)")
  {
    var suffix := " (" + d + " ms)";
    assert suffix[1..] == "(" + d + " ms)";
    assert ("(" + d + " ms)")[1..] == d + " ms)";
    DigitsComplete(d, false);
  }

  lemma NameCaptured(mark: char, name: string, suffix: string)
    requires name != [] && !IsSpace(name[0]) && !IsSpace(name[|name| - 1])
    requires NoTerminator(name) && '(' !in name
    requires suffix == [] || TimingSuffix(suffix)
    ensures MatchMarked([mark] + " " + name + suffix, mark) == Some(name)
  {
    var line := [mark] + " " + name + suffix;
    var rest := " " + name + suffix;
    assert line[1..] == rest;
    assert LeadingSpaces(rest) == 1 by {
      assert rest[1] == name[0];
      assert rest[..2] == [' ', name[0]];
    }
    var e := 1 + |name|;
    assert rest[1..e] == name;
    assert rest[e..] == suffix;
    forall k | 2 <= k < e
      ensures !StopsAt(rest, k)
    {
      assert rest[k..] == name[k - 1..] + suffix;
      assert name[k - 1..][|name| - k] == name[|name| - 1];
      NoStopInName(name[k - 1..], suffix);
    }
    CaptureFinds(rest, 1, 2, e);
  }

  /** The capture cannot stop before the last character of a name that ends in
      a non-space and holds no `(`. */
  lemma NoStopInName(x: string, suffix: string)
    requires x != [] && !IsSpace(x[|x| - 1]) && '(' !in x
    ensures !TimingSuffix(x + suffix)
  {
    if IsSpace(x[0]) {
      assert (x + suffix)[1..] == x[1..] + suffix;
      assert x[1..][|x| - 2] == x[|x| - 1];
      NoParenNoTiming(x[1..], suffix);
    }
  }

  // ------------------------------------------------------------------ the parser

  /** A failed test: its name, the error lines and the stack-trace lines, each
      line followed by a newline (an absent stack trace is empty). */
  datatype TestFailure = TestFailure(name: string, error: string, stackTrace: string)

  datatype Parsed = Parsed(failures: seq<TestFailure>, passes: seq<string>)

  /** The parser's variables between two lines: the recorded failures and
      passes, and the failure whose details are being collected. */
  datatype ParseState = ParseState(failures: seq<TestFailure>, passes: seq<string>, current: Option<TestFailure>)

  const Start := ParseState([], [], None)

  predicate IsPassLine(line: string) {
    PassMark in line || Contains(line, "PASS")
  }

  predicate IsFailLine(line: string) {
    FailMark in line || Contains(line, "FAIL")
  }

  predicate IsErrorLine(line: string) {
    Contains(line, "Expected") || Contains(line, "Received") || Contains(line, "Error:")
  }

  /** The line ends the collection of a pending failure. */
  predicate EndsFailure(line: string) {
    Trim(line) == "" || Bullet in line
  }

  /** The failure list with `pending` recorded if it collected an error. */
  function Record(failures: seq<TestFailure>, pending: TestFailure): seq<TestFailure> {
    if pending.error != "" then failures + [pending] else failures
  }

  /** The branch the line takes in the loop's `if`/`else if` chain. */
  function Branch(s: ParseState, line: string): ParseState {
    if IsPassLine(line) then
      match MatchMarked(line, PassMark)
      case Some(c) => s.(passes := s.passes + [Trim(c)])
      case None => s
    else if IsFailLine(line) then
      match MatchMarked(line, FailMark)
      case Some(c) => s.(current := Some(TestFailure(Trim(c), "", "")))
      case None => s
    else if IsErrorLine(line) then
      if s.current.Some? then s.(current := Some(s.current.value.(error := s.current.value.error + line + "\n")))
      else s
    else if Contains(line, "at ") && s.current.Some? then
      s.(current := Some(s.current.value.(stackTrace := s.current.value.stackTrace + line + "\n")))
    else s
  }

  /** The end-of-failure check that follows the chain. */
  function Flush(s: ParseState, line: string): ParseState {
    if s.current.Some? && EndsFailure(line) then ParseState(Record(s.failures, s.current.value), s.passes, None)
    else s
  }

  /** One turn of the loop. */
  function Step(s: ParseState, line: string): ParseState {
    Flush(Branch(s, line), line)
  }

  /** The loop's state after the given lines. */
  function Run(lines: seq<string>): ParseState {
    if lines == [] then Start else Step(Run(lines[..|lines| - 1]), lines[|lines| - 1])
  }

  /** After the loop, a pending failure with an error is recorded. */
  function Finish(s: ParseState): Parsed {
    Parsed(if s.current.Some? then Record(s.failures, s.current.value) else s.failures, s.passes)
  }

  /** `parseTestOutput` (the lines of `output` split at newlines). */
  method ParseTestOutput(output: string) returns (parsed: Parsed)
    ensures parsed == Finish(Run(Split(output, '\n')))
  {
    var lines := Split(output, '\n');
    var failures: seq<TestFailure> := [];
    var passes: seq<string> := [];
    var currentTest: Option<TestFailure> := None;
    for i := 0 to |lines|
      invariant ParseState(failures, passes, currentTest) == Run(lines[..i])
    {
      var line := lines[i];
      failures, passes, currentTest := ReadLine(failures, passes, currentTest, line);
      failures, passes, currentTest := EndFailure(failures, passes, currentTest, line);
      assert lines[..i + 1][..i] == lines[..i];
    }
    assert lines[..|lines|] == lines;
    if currentTest.Some? && currentTest.value.error != "" {
      failures := failures + [currentTest.value];
    }
    parsed := Parsed(failures, passes);
  }

  /** The loop's `if`/`else if` chain on one line. */
  method ReadLine(failures: seq<TestFailure>, passes: seq<string>, currentTest: Option<TestFailure>, line: string)
    returns (failures': seq<TestFailure>, passes': seq<string>, currentTest': Option<TestFailure>)
    ensures ParseState(failures', passes', currentTest') == Branch(ParseState(failures, passes, currentTest), line)
  {
    failures', passes', currentTest' := failures, passes, currentTest;
    if PassMark in line || Contains(line, "PASS") {
      var found := MatchMarked(line, PassMark);
      if found.Some? {
        passes' := passes + [Trim(found.value)];
      }
    } else if FailMark in line || Contains(line, "FAIL") {
      var found := MatchMarked(line, FailMark);
      if found.Some? {
        currentTest' := Some(TestFailure(Trim(found.value), "", ""));
      }
    } else if Contains(line, "Expected") || Contains(line, "Received") || Contains(line, "Error:") {
      if currentTest.Some? {
        currentTest' := Some(currentTest.value.(error := currentTest.value.error + line + "\n"));
      }
    } else if Contains(line, "at ") && currentTest.Some? {
      currentTest' := Some(currentTest.value.(stackTrace := currentTest.value.stackTrace + line + "\n"));
    }
  }

  /** The check after the chain: a blank line or a `●` line records the pending
      failure if it collected an error, and drops it either way. */
  method EndFailure(failures: seq<TestFailure>, passes: seq<string>, currentTest: Option<TestFailure>, line: string)
    returns (failures': seq<TestFailure>, passes': seq<string>, currentTest': Option<TestFailure>)
    ensures ParseState(failures', passes', currentTest') == Flush(ParseState(failures, passes, currentTest), line)
  {
    failures', passes', currentTest' := failures, passes, currentTest;
    if currentTest.Some? && (Trim(line) == "" || Bullet in line) {
      if currentTest.value.error != "" {
        failures' := failures + [currentTest.value];
      }
      currentTest' := None;
    }
  }

  // --------------------------------------------------------- what the parser does

  /** The names the pass branch records, in order: the trimmed capture of every
      pass line whose `✓` pattern matches. */
  function PassNames(lines: seq<string>): (r: seq<string>)
    ensures |r| <= |lines|
  {
    if lines == [] then []
    else
      var line := lines[|lines| - 1];
      PassNames(lines[..|lines| - 1]) + PassOf(line)
  }

  /** The capture a pass line contributes, if any. */
  function PassOf(line: string): seq<string> {
    if IsPassLine(line) && MatchMarked(line, PassMark).Some? then [Trim(MatchMarked(line, PassMark).value)] else []
  }

  lemma StepPasses(s: ParseState, line: string)
    ensures Step(s, line).passes == s.passes + PassOf(line)
  {
    assert Branch(s, line).passes == s.passes + PassOf(line);
  }

  /** Passes are collected independently of any failure being read. */
  lemma {:induction false} PassesAreCollected(lines: seq<string>)
    ensures Run(lines).passes == PassNames(lines)
  {
    if lines != [] {
      var n := |lines|;
      PassesAreCollected(lines[..n - 1]);
      StepPasses(Run(lines[..n - 1]), lines[n - 1]);
    }
  }

  /** Lines whose `✕` pattern matches in the failure branch. */
  function FailLines(lines: seq<string>): (n: nat)
    ensures n <= |lines|
  {
    if lines == [] then 0
    else
      var line := lines[|lines| - 1];
      FailLines(lines[..|lines| - 1]) + StartsFailure(line)
  }

  predicate AllHaveErrors(failures: seq<TestFailure>) {
    forall i :: 0 <= i < |failures| ==> failures[i].error != ""
  }

  /** Recorded and pending failures together. */
  function Started(s: ParseState): nat {
    |s.failures| + if s.current.Some? then 1 else 0
  }

  /** A failure line that matches. */
  function StartsFailure(line: string): nat {
    if !IsPassLine(line) && IsFailLine(line) && MatchMarked(line, FailMark).Some? then 1 else 0
  }

  lemma StepKeepsErrors(s: ParseState, line: string)
    requires AllHaveErrors(s.failures)
    ensures AllHaveErrors(Step(s, line).failures)
    ensures Started(Step(s, line)) <= Started(s) + StartsFailure(line)
  {
    var b := Branch(s, line);
    assert b.failures == s.failures;
    assert Started(b) <= Started(s) + StartsFailure(line);
  }

  /** Every recorded failure collected an error, and there are never more
      failures, recorded or pending, than failure lines that started one. */
  lemma {:induction false} RunInvariant(lines: seq<string>)
    ensures AllHaveErrors(Run(lines).failures)
    ensures Started(Run(lines)) <= FailLines(lines)
  {
    if lines != [] {
      var n := |lines|;
      RunInvariant(lines[..n - 1]);
      StepKeepsErrors(Run(lines[..n - 1]), lines[n - 1]);
    }
  }

  /** What `parseTestOutput` returns: the passes in order, and only failures that
      collected an error, at most one per failure line. */
  lemma ParseResult(output: string)
    ensures Finish(Run(Split(output, '\n'))).passes == PassNames(Split(output, '\n'))
    ensures AllHaveErrors(Finish(Run(Split(output, '\n'))).failures)
    ensures |Finish(Run(Split(output, '\n'))).failures| <= FailLines(Split(output, '\n'))
  {
    var lines := Split(output, '\n');
    PassesAreCollected(lines);
    RunInvariant(lines);
  }

  /** A word that starts with a visible character does not occur among spaces. */
  lemma NotAmongSpaces(line: string, word: string)
    requires AllSpace(line) && word != [] && !IsSpace(word[0])
    ensures !Contains(line, word)
  {
  }

  /** A blank line records the pending failure if it has an error, and drops it. */
  lemma BlankLineFlushes(s: ParseState, line: string)
    requires AllSpace(line) && s.current.Some?
    ensures Step(s, line) == ParseState(Record(s.failures, s.current.value), s.passes, None)
  {
    NotAmongSpaces(line, "PASS");
    NotAmongSpaces(line, "FAIL");
    NotAmongSpaces(line, "Expected");
    NotAmongSpaces(line, "Received");
    NotAmongSpaces(line, "Error:");
    NotAmongSpaces(line, "at ");
    assert PassMark !in line && FailMark !in line by {
      assert !IsSpace(PassMark) && !IsSpace(FailMark);
    }
  }

  /** A stack-trace line adds to the pending failure's trace and never to its error. */
  lemma StackLineGoesToTrace(s: ParseState, line: string)
    requires s.current.Some? && !IsPassLine(line) && !IsFailLine(line) && !IsErrorLine(line)
    requires Contains(line, "at ") && Bullet !in line
    ensures Step(s, line).current == Some(s.current.value.(stackTrace := s.current.value.stackTrace + line + "\n"))
    ensures Step(s, line).current.value.error == s.current.value.error
    ensures Step(s, line).failures == s.failures
  {
    if AllSpace(line) {
      NotAmongSpaces(line, "at ");
    }
  }

  /** A new `✕` line replaces the pending failure without recording it. */
  lemma FailLineReplaces(s: ParseState, line: string, name: string)
    requires !IsPassLine(line) && MatchMarked(line, FailMark) == Some(name)
    requires !AllSpace(line) && Bullet !in line
    ensures Step(s, line) == s.(current := Some(TestFailure(Trim(name), "", "")))
  {
  }

  // ---------------------------------------------------------- the fix classifier

  /** A classification rule: the keywords, whether all of them or any one of
      them must occur in the lower-cased error, and the advice it gives. */
  datatype Rule = Rule(keywords: seq<string>, needsAll: bool, fix: Fix)

  /** The kinds of advice the summariser gives. */
  datatype Fix = AssertionFix | MissingFix | TimeoutFix | NotFoundFix | TypeFix | DefaultFix

  function FixText(fix: Fix): string {
    match fix
    case AssertionFix => "Assertion mismatch: Compare the expected and received values. Check if the implementation matches the specification."
    case MissingFix => "Missing or undefined function/property: Check imports, ensure the function exists, and verify the object structure."
    case TimeoutFix => "Test timeout: The async operation took too long. Check for missing await, unresolved promises, or infinite loops."
    case NotFoundFix => "Resource not found: Verify file paths, mock setup, and that required resources exist."
    case TypeFix => "Type error: Check that values are the expected types and that operations are valid for those types."
    case DefaultFix => "Review the error message and stack trace to identify the issue."
  }


  /** The rules in the order they are tried. */
  const Rules: seq<Rule> := [
    Rule(["expected", "received"], true, AssertionFix),
    Rule(["undefined", "is not a function"], false, MissingFix),
    Rule(["timeout"], false, TimeoutFix),
    Rule(["not found", "cannot find"], false, NotFoundFix),
    Rule(["type error", "typeerror"], false, TypeFix)
  ]

  predicate RuleMatches(rule: Rule, e: string) {
    if rule.needsAll then forall i :: 0 <= i < |rule.keywords| ==> Contains(e, rule.keywords[i])
    else exists i :: 0 <= i < |rule.keywords| && Contains(e, rule.keywords[i])
  }

  lemma TwoKeywords(rule: Rule, e: string)
    requires |rule.keywords| == 2
    ensures RuleMatches(rule, e) <==>
      if rule.needsAll then Contains(e, rule.keywords[0]) && Contains(e, rule.keywords[1])
      else Contains(e, rule.keywords[0]) || Contains(e, rule.keywords[1])
  {
    if !rule.needsAll && RuleMatches(rule, e) {
      var i :| 0 <= i < 2 && Contains(e, rule.keywords[i]);
    }
  }

  /** The first rule, from `k` on, that matches. */
  function FirstRule(rules: seq<Rule>, e: string, k: nat): (r: Option<nat>)
    ensures r.Some? ==> k <= r.value < |rules| && RuleMatches(rules[r.value], e)
    ensures r.Some? ==> forall j :: k <= j < r.value ==> !RuleMatches(rules[j], e)
    ensures r.None? ==> forall j :: k <= j < |rules| ==> !RuleMatches(rules[j], e)
    decreases |rules| - k
  {
    if k >= |rules| then None
    else if RuleMatches(rules[k], e) then Some(k)
    else FirstRule(rules, e, k + 1)
  }

  /** The advice of the first of `rules` that matches, or the default. */
  function AdviceOf(rules: seq<Rule>, e: string): Fix {
    match FirstRule(rules, e, 0)
    case Some(k) => rules[k].fix
    case None => DefaultFix
  }

  /** The advice the table gives for an error. */
  function Advice(e: string): Fix {
    AdviceOf(Rules, e)
  }

  /** `suggestFix`: the chain of keyword tests on the lower-cased error. It
      gives the advice of the first rule of the table that matches, and the
      default when none does. */
  function SuggestFix(failure: TestFailure): (r: string)
    ensures r == FixText(Advice(ToLower(failure.error)))
  {
    var error := ToLower(failure.error);
    RulesMatch(error);
    FiveRules(Rules, error);
    if Contains(error, "expected") && Contains(error, "received") then FixText(AssertionFix)
    else if Contains(error, "undefined") || Contains(error, "is not a function") then FixText(MissingFix)
    else if Contains(error, "timeout") then FixText(TimeoutFix)
    else if Contains(error, "not found") || Contains(error, "cannot find") then FixText(NotFoundFix)
    else if Contains(error, "type error") || Contains(error, "typeerror") then FixText(TypeFix)
    else FixText(DefaultFix)
  }

  /** What each rule of the table asks of an error. */
  lemma RulesMatch(error: string)
    ensures RuleMatches(Rules[0], error) <==> Contains(error, "expected") && Contains(error, "received")
    ensures RuleMatches(Rules[1], error) <==> Contains(error, "undefined") || Contains(error, "is not a function")
    ensures RuleMatches(Rules[2], error) <==> Contains(error, "timeout")
    ensures RuleMatches(Rules[3], error) <==> Contains(error, "not found") || Contains(error, "cannot find")
    ensures RuleMatches(Rules[4], error) <==> Contains(error, "type error") || Contains(error, "typeerror")
  {
    TwoKeywords(Rules[0], error);
    TwoKeywords(Rules[1], error);
    TwoKeywords(Rules[3], error);
    TwoKeywords(Rules[4], error);
    assert Rules[2].keywords == ["timeout"];
    if RuleMatches(Rules[2], error) {
      var i :| 0 <= i < 1 && Contains(error, Rules[2].keywords[i]);
    }
    if Contains(error, "timeout") {
      assert Contains(error, Rules[2].keywords[0]);
    }
  }

  /** With five rules, the first that matches decides. */
  lemma FiveRules(rules: seq<Rule>, e: string)
    requires |rules| == 5
    ensures AdviceOf(rules, e) ==
      if RuleMatches(rules[0], e) then rules[0].fix
      else if RuleMatches(rules[1], e) then rules[1].fix
      else if RuleMatches(rules[2], e) then rules[2].fix
      else if RuleMatches(rules[3], e) then rules[3].fix
      else if RuleMatches(rules[4], e) then rules[4].fix
      else DefaultFix
  {
    assert FirstRule(rules, e, 5) == None;
    assert FirstRule(rules, e, 4) == if RuleMatches(rules[4], e) then Some(4) else None;
    assert FirstRule(rules, e, 3) == if RuleMatches(rules[3], e) then Some(3) else FirstRule(rules, e, 4);
    assert FirstRule(rules, e, 2) == if RuleMatches(rules[2], e) then Some(2) else FirstRule(rules, e, 3);
    assert FirstRule(rules, e, 1) == if RuleMatches(rules[1], e) then Some(1) else FirstRule(rules, e, 2);
  }

  /** An assertion mismatch wins over every other rule, whatever else the error says. */
  lemma AssertionFirst(error: string)
    requires Contains(error, "expected") && Contains(error, "received")
    ensures Advice(error) == AssertionFix
  {
    assert RuleMatches(Rules[0], error);
  }

  // ------------------------------------------------------------------ the report

  /** `exitCode === 0`; a run killed by a signal has no exit code. */
  function StatusText(exitCode: Option<int>): (r: string)
    ensures r == "\U{2705} PASSED" <==> exitCode == Some(0)
  {
    if exitCode == Some(0) then "\U{2705} PASSED" else "\U{274C} FAILED"
  }

  const Title := "# Test Results Summary\n\n"

  /** One `**name:** value` line of the header. */
  function Field(name: string, value: string): string {
    "**" + name + ":** " + value + "\n"
  }

  function Header(parsed: Parsed, exitCode: Option<int>): string {
    Title
    + Field("Status", StatusText(exitCode))
    + Field("Total Tests", NatToString(|parsed.failures| + |parsed.passes|))
    + Field("Passed", NatToString(|parsed.passes|))
    + Field("Failed", NatToString(|parsed.failures|)) + "\n"
  }

  /** The heading that numbers a failure. */
  function FailureHeading(index: nat, failure: TestFailure): string {
    "### " + NatToString(index) + ". " + failure.name + "\n\n"
  }

  /** A fenced code block holding `text` trimmed. */
  function Fenced(text: string): string {
    "```\n" + Trim(text) + "\n```\n"
  }

  function ErrorBlock(failure: TestFailure): string {
    "**Error:**\n" + Fenced(failure.error) + "\n"
  }

  function FixLine(failure: TestFailure): string {
    "**Suggested Fix:** " + SuggestFix(failure) + "\n\n"
  }

  /** The collapsible stack trace, present only when one was recorded. */
  function TraceBlock(failure: TestFailure): string {
    if failure.stackTrace != "" then
      "<details>\n<summary>Stack Trace</summary>\n\n" + Fenced(failure.stackTrace) + "</details>\n\n"
    else ""
  }

  /** The report's entry for the failure numbered `index`. */
  function FailureEntry(index: nat, failure: TestFailure): string {
    FailureHeading(index, failure) + ErrorBlock(failure) + FixLine(failure) + TraceBlock(failure)
  }

  /** The entries of the failures, numbered from 1 in order. */
  function FailureEntries(failures: seq<TestFailure>): string {
    if failures == [] then ""
    else FailureEntries(failures[..|failures| - 1]) + FailureEntry(|failures|, failures[|failures| - 1])
  }

  function PassItem(name: string): string {
    "- \U{2713} " + name + "\n"
  }

  function PassItems(passes: seq<string>): string {
    if passes == [] then ""
    else PassItems(passes[..|passes| - 1]) + PassItem(passes[|passes| - 1])
  }

  const PassedHeading := "## Passed Tests\n\n"

  function ShowingLine(count: nat): string {
    NatToString(count) + " tests passed. Showing first 10:\n\n"
  }

  function MoreLine(count: nat): string {
    "\n... and " + NatToString(count) + " more.\n"
  }

  /** Every pass of up to 20, else the count, the first 10 and how many more. */
  function PassedSection(passes: seq<string>): string {
    if 0 < |passes| <= 20 then PassedHeading + PassItems(passes)
    else if |passes| > 20 then
      PassedHeading + ShowingLine(|passes|) + PassItems(passes[..10]) + MoreLine(|passes| - 10)
    else ""
  }

  const FailedHeading := "## Failed Tests\n\n"

  /** The failures part of the report, present only when something failed. */
  function FailedSection(failures: seq<TestFailure>): string {
    if |failures| > 0 then FailedHeading + FailureEntries(failures) else ""
  }

  /** The whole report. */
  function Summary(parsed: Parsed, exitCode: Option<int>): string {
    Header(parsed, exitCode) + FailedSection(parsed.failures) + PassedSection(parsed.passes)
  }

  /** `formatSummary`: the header, then each failure in turn, then the passes. */
  method FormatSummary(parsed: Parsed, exitCode: Option<int>) returns (summary: string)
    ensures summary == Summary(parsed, exitCode)
  {
    var total := |parsed.failures| + |parsed.passes|;
    summary := Title;
    summary := summary + Field("Status", StatusText(exitCode));
    summary := summary + Field("Total Tests", NatToString(total));
    summary := summary + Field("Passed", NatToString(|parsed.passes|));
    summary := summary + Field("Failed", NatToString(|parsed.failures|)) + "\n";
    assert summary == Header(parsed, exitCode);
    summary := AppendFailures(summary, parsed.failures);
    summary := AppendPassed(summary, parsed.passes);
  }

  /** The failures' heading and `forEach`, when there are failures. */
  method AppendFailures(summary: string, failures: seq<TestFailure>) returns (r: string)
    ensures r == summary + FailedSection(failures)
  {
    r := summary;
    if |failures| > 0 {
      r := r + FailedHeading;
      ghost var base := r;
      for index := 0 to |failures|
        invariant r == base + FailureEntries(failures[..index])
      {
        ghost var done := FailureEntries(failures[..index]);
        r := r + FailureEntry(index + 1, failures[index]);
        AppendAssociates(base, done, FailureEntry(index + 1, failures[index]));
        PrefixStep(failures, index);
      }
      TakeAll(failures);
      AppendAssociates(summary, FailedHeading, FailureEntries(failures));
    } else {
      AppendAssociates(summary, "", "");
    }
  }

  /** The passes' heading and `forEach`: every pass, or the first 10 of more than 20. */
  method AppendPassed(summary: string, passes: seq<string>) returns (r: string)
    ensures r == summary + PassedSection(passes)
  {
    r := summary;
    if |passes| > 0 && |passes| <= 20 {
      r := r + PassedHeading;
      r := AppendPasses(r, passes);
      AppendAssociates(summary, PassedHeading, PassItems(passes));
    } else if |passes| > 20 {
      var showing, items, more := ShowingLine(|passes|), PassItems(passes[..10]), MoreLine(|passes| - 10);
      r := r + PassedHeading;
      r := r + showing;
      r := AppendPasses(r, passes[..10]);
      r := r + more;
      AppendAssociates(summary, PassedHeading, showing);
      AppendAssociates(summary, PassedHeading + showing, items);
      AppendAssociates(summary, PassedHeading + showing + items, more);
    } else {
      assert summary + "" == summary;
    }
  }

  /** The passes' `forEach`: one bullet per name, in order. */
  method AppendPasses(summary: string, passes: seq<string>) returns (r: string)
    ensures r == summary + PassItems(passes)
  {
    r := summary;
    for i := 0 to |passes|
      invariant r == summary + PassItems(passes[..i])
    {
      AppendAssociates(summary, PassItems(passes[..i]), PassItem(passes[i]));
      r := r + PassItem(passes[i]);
      PrefixStep(passes, i);
    }
    TakeAll(passes);
  }

  /** The report opens with the status line, which says PASSED exactly when the
      run exited with code 0. */
  lemma SummaryStatus(parsed: Parsed, exitCode: Option<int>)
    ensures StartsWith(Summary(parsed, exitCode), PassedOpening()) <==> exitCode == Some(0)
  {
    var header := Header(parsed, exitCode);
    var opening := Title + Field("Status", StatusText(exitCode));
    HeaderOpens(parsed, exitCode);
    StartsWithConcat(header, FailedSection(parsed.failures));
    StartsWithConcat(header + FailedSection(parsed.failures), PassedSection(parsed.passes));
    StartsWithTrans(header + FailedSection(parsed.failures), header, opening);
    StartsWithTrans(Summary(parsed, exitCode), header + FailedSection(parsed.failures), opening);
    OpeningsDiffer();
    SameLengthPrefix(Summary(parsed, exitCode), opening, PassedOpening());
  }

  /** The opening of a report on a run that passed. */
  function PassedOpening(): string {
    Title + Field("Status", "\U{2705} PASSED")
  }

  /** The failed opening is as long as the passed one but differs from it. */
  lemma OpeningsDiffer()
    ensures |Title + Field("Status", "\U{274C} FAILED")| == |PassedOpening()|
    ensures Title + Field("Status", "\U{274C} FAILED") != PassedOpening()
  {
    var failed := Title + Field("Status", "\U{274C} FAILED");
    var at := |Title| + |"**Status:** "|;
    assert failed[at] == '\U{274C}';
    assert PassedOpening()[at] == '\U{2705}';
  }

  /** The header begins with the title and the status line. */
  lemma HeaderOpens(parsed: Parsed, exitCode: Option<int>)
    ensures StartsWith(Header(parsed, exitCode), Title + Field("Status", StatusText(exitCode)))
  {
    var opening := Title + Field("Status", StatusText(exitCode));
    var total := Field("Total Tests", NatToString(|parsed.failures| + |parsed.passes|));
    var passed, failed := Field("Passed", NatToString(|parsed.passes|)), Field("Failed", NatToString(|parsed.failures|));
    AppendAssociates(opening, total, passed);
    AppendAssociates(opening, total + passed, failed);
    AppendAssociates(opening, total + passed + failed, "\n");
    StartsWithConcat(opening, total + passed + failed + "\n");
  }

  /** The report states the run's counts, the total being passes plus failures. */
  lemma SummaryCounts(parsed: Parsed, exitCode: Option<int>)
    ensures Contains(Summary(parsed, exitCode), Field("Total Tests", NatToString(|parsed.failures| + |parsed.passes|)))
    ensures Contains(Summary(parsed, exitCode), Field("Passed", NatToString(|parsed.passes|)))
    ensures Contains(Summary(parsed, exitCode), Field("Failed", NatToString(|parsed.failures|)))
  {
    var header := Header(parsed, exitCode);
    var rest := FailedSection(parsed.failures) + PassedSection(parsed.passes);
    HeaderCounts(parsed, exitCode);
    AppendAssociates(header, FailedSection(parsed.failures), PassedSection(parsed.passes));
    ContainsLeft(header, rest, Field("Total Tests", NatToString(|parsed.failures| + |parsed.passes|)));
    ContainsLeft(header, rest, Field("Passed", NatToString(|parsed.passes|)));
    ContainsLeft(header, rest, Field("Failed", NatToString(|parsed.failures|)));
  }

  lemma HeaderCounts(parsed: Parsed, exitCode: Option<int>)
    ensures Contains(Header(parsed, exitCode), Field("Total Tests", NatToString(|parsed.failures| + |parsed.passes|)))
    ensures Contains(Header(parsed, exitCode), Field("Passed", NatToString(|parsed.passes|)))
    ensures Contains(Header(parsed, exitCode), Field("Failed", NatToString(|parsed.failures|)))
  {
    var status := Title + Field("Status", StatusText(exitCode));
    var total := Field("Total Tests", NatToString(|parsed.failures| + |parsed.passes|));
    var passed := Field("Passed", NatToString(|parsed.passes|));
    var failed := Field("Failed", NatToString(|parsed.failures|));
    ContainsEnd(status, total);
    ContainsLeft(status + total, passed, total);
    ContainsLeft(status + total + passed, failed, total);
    ContainsLeft(status + total + passed + failed, "\n", total);
    ContainsEnd(status + total, passed);
    ContainsLeft(status + total + passed, failed, passed);
    ContainsLeft(status + total + passed + failed, "\n", passed);
    ContainsEnd(status + total + passed, failed);
    ContainsLeft(status + total + passed + failed, "\n", failed);
  }

  /** Every failure has its entry in the report, numbered from 1 in order. */
  lemma SummaryListsFailures(parsed: Parsed, exitCode: Option<int>, k: nat)
    requires k < |parsed.failures|
    ensures Contains(Summary(parsed, exitCode), FailureEntry(k + 1, parsed.failures[k]))
  {
    var entries := FailureEntries(parsed.failures);
    var entry := FailureEntry(k + 1, parsed.failures[k]);
    EntriesContain(parsed.failures, k);
    ContainsRight(FailedHeading, entries, entry);
    ContainsRight(Header(parsed, exitCode), FailedHeading + entries, entry);
    ContainsLeft(Header(parsed, exitCode) + (FailedHeading + entries), PassedSection(parsed.passes), entry);
  }

  lemma {:induction false} EntriesContain(failures: seq<TestFailure>, k: nat)
    requires k < |failures|
    ensures Contains(FailureEntries(failures), FailureEntry(k + 1, failures[k]))
    decreases |failures|
  {
    if k == |failures| - 1 {
      EntryLast(failures);
    } else {
      EntriesContain(failures[..|failures| - 1], k);
      EntryKept(failures, FailureEntry(k + 1, failures[k]));
    }
  }

  /** The entry of the last failure ends the entries. */
  lemma EntryLast(failures: seq<TestFailure>)
    requires |failures| > 0
    ensures Contains(FailureEntries(failures), FailureEntry(|failures|, failures[|failures| - 1]))
  {
    var n := |failures|;
    ContainsEnd(FailureEntries(failures[..n - 1]), FailureEntry(n, failures[n - 1]));
  }

  /** What the entries of all but the last failure hold, the entries of all hold. */
  lemma EntryKept(failures: seq<TestFailure>, x: string)
    requires |failures| > 0 && Contains(FailureEntries(failures[..|failures| - 1]), x)
    ensures Contains(FailureEntries(failures), x)
  {
    var n := |failures|;
    ContainsLeft(FailureEntries(failures[..n - 1]), FailureEntry(n, failures[n - 1]), x);
  }

  /** Up to 20 passes are all listed; of more, the first 10 are listed. */
  lemma SummaryListsPasses(parsed: Parsed, exitCode: Option<int>, k: nat)
    requires k < |parsed.passes| && (|parsed.passes| <= 20 || k < 10)
    ensures Contains(Summary(parsed, exitCode), PassItem(parsed.passes[k]))
  {
    PassesInSection(parsed.passes, k);
    InPassedSection(parsed, exitCode, PassItem(parsed.passes[k]));
  }

  /** Of more than 20 passes, the report says how many it did not list. */
  lemma SummaryCountsUnlisted(parsed: Parsed, exitCode: Option<int>)
    requires |parsed.passes| > 20
    ensures Contains(Summary(parsed, exitCode), MoreLine(|parsed.passes| - 10))
  {
    PassesInSection(parsed.passes, 0);
    InPassedSection(parsed, exitCode, MoreLine(|parsed.passes| - 10));
  }

  /** What the passes part shows, the report shows. */
  lemma InPassedSection(parsed: Parsed, exitCode: Option<int>, x: string)
    requires Contains(PassedSection(parsed.passes), x)
    ensures Contains(Summary(parsed, exitCode), x)
  {
    ContainsRight(Header(parsed, exitCode) + FailedSection(parsed.failures), PassedSection(parsed.passes), x);
  }

  /** The passes part lists each pass it shows and, past 20, how many it left out. */
  lemma PassesInSection(passes: seq<string>, k: nat)
    requires k < |passes| && (|passes| <= 20 || k < 10)
    ensures Contains(PassedSection(passes), PassItem(passes[k]))
    ensures |passes| > 20 ==> Contains(PassedSection(passes), MoreLine(|passes| - 10))
  {
    var item := PassItem(passes[k]);
    if |passes| <= 20 {
      assert PassedSection(passes) == PassedHeading + PassItems(passes);
      ItemsContain(passes, k);
      ContainsRight(PassedHeading, PassItems(passes), item);
    } else {
      var showing := ShowingLine(|passes|);
      var more := MoreLine(|passes| - 10);
      var listed := PassItems(passes[..10]);
      LongPassedSection(passes);
      ItemsContain(passes[..10], k);
      assert passes[..10][k] == passes[k];
      ContainsRight(PassedHeading + showing, listed, item);
      ContainsLeft(PassedHeading + showing + listed, more, item);
      ContainsEnd(PassedHeading + showing + listed, more);
    }
  }

  /** The passes part of a report with more than 20 passes, unfolded. */
  lemma LongPassedSection(passes: seq<string>)
    requires |passes| > 20
    ensures PassedSection(passes)
      == PassedHeading + ShowingLine(|passes|) + PassItems(passes[..10]) + MoreLine(|passes| - 10)
  {
  }

  lemma {:induction false} ItemsContain(passes: seq<string>, k: nat)
    requires k < |passes|
    ensures Contains(PassItems(passes), PassItem(passes[k]))
    decreases |passes|
  {
    var n := |passes|;
    var init := passes[..n - 1];
    var last := PassItem(passes[n - 1]);
    assert PassItems(passes) == PassItems(init) + last;
    if k == n - 1 {
      ContainsEnd(PassItems(init), last);
    } else {
      ItemsContain(init, k);
      assert init[k] == passes[k];
      ContainsLeft(PassItems(init), last, PassItem(passes[k]));
    }
  }
}
