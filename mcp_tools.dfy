/** The training MCP server's four tools: a hint for an exercise at a clamped
    level, the guidelines for a component type looked up case-insensitively,
    one section cut out of the training document, and a repository listing
    capped at fifty entries. Each tool's reply is a datatype whose error
    variant carries the server's error text. */
module McpTools {

  import opened Optional
  import opened Text

  // ---------------------------------------------------------------------------
  // getExerciseHint

  datatype Exercise = Exercise(title: string, hints: seq<string>)

  /** `Object.keys(EXERCISE_HINTS).map(Number)`: the exercise numbers 1 to 3. */
  const AvailableExercises: seq<int> := [1, 2, 3]

  datatype HintReply =
    | Hint(exercise: string, hintLevel: int, hint: string, moreHintsAvailable: bool)
    | UnknownExercise(error: string, availableExercises: seq<int>)

  /** The title of each of `EXERCISE_HINTS`'s entries (exercise 3 for any number
      other than 1 and 2). */
  function ExerciseTitle(exerciseNumber: int): string {
    if exerciseNumber == 1 then "Exercise 01: Tabs and Refactoring"
    else if exerciseNumber == 2 then "Exercise 02: Debug and Browser Agent"
    else "Exercise 03: Documentation and Mermaid"
  }

  /** Hint `i` (from 0, the gentlest, to 2, the most explicit) of an exercise, as
      stored in `EXERCISE_HINTS` (exercise 3 and hint 2 stand for any other
      number). */
  function HintText(exerciseNumber: int, i: int): string {
    if exerciseNumber == 1 then
      if i == 0 then
        "Look for repeated patterns in the validation functions. Notice how they all check for empty values, length, and format?"
      else if i == 1 then
        "Consider creating a generic validation function that takes a configuration object. The config could specify min/max length, required status, and a regex pattern."
      else
        "Create a `createValidator` factory function that returns a validation function. Use it like: `const validateName = createValidator({ required: true, minLength: 2, pattern: /^[a-zA-Z]+$/ })`"
    else if exerciseNumber == 2 then
      if i == 0 then
        "The delete bug is in App.tsx. Pay attention to how the index is calculated in the deleteTask function."
      else if i == 1 then
        "Look at line where `wrongIndex` is calculated. The `+ 1` is causing the off-by-one error. The function deletes the next task instead of the selected one."
      else
        "For accessibility: Form inputs need labels (use `<label htmlFor>`), buttons need aria-labels, color contrast must meet WCAG AA (4.5:1 ratio), and headings should follow h1 \U{2192} h2 \U{2192} h3 order."
    else
      if i == 0 then
        "Start by asking Cursor to analyze the module structure. Use Agent mode for comprehensive analysis across all files."
      else if i == 1 then
        "For Mermaid diagrams, ask Cursor to identify the relationships between classes first. PaymentProcessor depends on Gateway, FraudDetector, AuditLogger, and NotificationService."
      else
        "Generate docs in this order: 1) README with overview, 2) API.md with all exports, 3) ARCHITECTURE.md with class and sequence diagrams, 4) SECURITY.md for fraud detection details."
  }

  /** `EXERCISE_HINTS[exerciseNumber]`: the exercises 1, 2 and 3, each with a
      title and three hints. */
  function ExerciseHints(exerciseNumber: int): (r: Option<Exercise>)
    ensures r.Some? <==> 1 <= exerciseNumber <= 3
    ensures r.Some? ==> |r.value.hints| == 3
  {
    if 1 <= exerciseNumber <= 3 then
      Some(Exercise(ExerciseTitle(exerciseNumber),
        [HintText(exerciseNumber, 0), HintText(exerciseNumber, 1), HintText(exerciseNumber, 2)]))
    else None
  }

  function Min(a: int, b: int): int { if a <= b then a else b }

  function Max(a: int, b: int): int { if a >= b then a else b }

  /** `Math.min(Math.max(1, hintLevel), 3)`, where a missing level defaults to 1:
      a level inside 1..3 is kept, one below is raised to 1, one above is
      lowered to 3. */
  function ClampLevel(hintLevel: Option<int>): (level: int)
    ensures 1 <= level <= 3
    ensures hintLevel.None? ==> level == 1
    ensures hintLevel.Some? && 1 <= hintLevel.value <= 3 ==> level == hintLevel.value
    ensures hintLevel.Some? && hintLevel.value < 1 ==> level == 1
    ensures hintLevel.Some? && hintLevel.value > 3 ==> level == 3
  {
    Min(Max(1, hintLevel.GetOr(1)), 3)
  }

  /** `getExerciseHint`: an unknown exercise is an error naming it and listing the
      known ones; otherwise the hint at the clamped level, with more hints
      available exactly below the last level. */
  function GetExerciseHint(exerciseNumber: int, hintLevel: Option<int>): (r: HintReply)
    ensures r.UnknownExercise? <==> !(1 <= exerciseNumber <= 3)
    ensures r.UnknownExercise? ==>
      r.error == "Unknown exercise number: " + IntToString(exerciseNumber)
      && r.availableExercises == AvailableExercises
    ensures r.Hint? ==>
      var exercise := ExerciseHints(exerciseNumber).value;
      1 <= r.hintLevel <= 3
      && r.hintLevel == ClampLevel(hintLevel)
      && r.exercise == exercise.title
      && r.hint == exercise.hints[r.hintLevel - 1]
      && (r.moreHintsAvailable <==> r.hintLevel < |exercise.hints|)
  {
    match ExerciseHints(exerciseNumber)
    case None =>
      UnknownExercise("Unknown exercise number: " + IntToString(exerciseNumber), AvailableExercises)
    case Some(exercise) =>
      var level := ClampLevel(hintLevel);
      Hint(exercise.title, level, exercise.hints[level - 1], level < 3)
  }

  /** Asking for levels 1, 2 and 3 in turn walks through all of an exercise's
      hints in order, and only the last reply says no more are available. */
  lemma HintsInOrder(exerciseNumber: int, i: nat)
    requires 1 <= exerciseNumber <= 3 && i < 3
    ensures GetExerciseHint(exerciseNumber, Some(i + 1)).hint == ExerciseHints(exerciseNumber).value.hints[i]
    ensures GetExerciseHint(exerciseNumber, Some(i + 1)).moreHintsAvailable <==> i < 2
  {
  }

  // ---------------------------------------------------------------------------
  // lookupComponentGuidelines

  datatype Guidelines = Guidelines(title: string, practices: seq<string>, example: string)

  /** The four entries of `COMPONENT_GUIDELINES`. */
  datatype ComponentKind = ReactComponent | ApiHandler | TestCase | ServiceClass

  /** The key each entry is stored under. */
  function Key(kind: ComponentKind): string {
    match kind
    case ReactComponent => "react-component"
    case ApiHandler => "api-handler"
    case TestCase => "test"
    case ServiceClass => "service-class"
  }

  /** `Object.keys(COMPONENT_GUIDELINES)`, in declaration order. */
  const ComponentTypes: seq<string> := ["react-component", "api-handler", "test", "service-class"]

  /** The entry stored under `key`, if any: the keys are exactly the listed types. */
  function KindOf(key: string): (r: Option<ComponentKind>)
    ensures r.Some? <==> key in ComponentTypes
    ensures r.Some? ==> Key(r.value) == key
  {
    if key == "react-component" then Some(ReactComponent)
    else if key == "api-handler" then Some(ApiHandler)
    else if key == "test" then Some(TestCase)
    else if key == "service-class" then Some(ServiceClass)
    else None
  }

  datatype GuidelinesReply =
    | Found(guidelines: Guidelines)
    | UnknownType(error: string, availableTypes: seq<string>)

  /** `COMPONENT_GUIDELINES`: the four component types, each with a title,
      seven practices and an example. */
  function GuidelinesFor(kind: ComponentKind): Guidelines {
    match kind
    case ReactComponent =>
      Guidelines("React Component Guidelines", [
        "Use functional components with hooks",
        "Implement proper TypeScript typing for props",
        "Add accessibility attributes (aria-label, role, etc.)",
        "Use semantic HTML elements",
        "Implement error boundaries for error handling",
        "Memoize expensive computations with useMemo",
        "Use useCallback for event handlers passed to children"
      ],
        "\ninterface ButtonProps {\n  label: string;\n  onClick: () => void;\n  disabled?: boolean;\n}\n\nexport const Button: React.FC<ButtonProps> = ({ \n  label, \n  onClick, \n  disabled = false \n}) => {\n  return (\n    <button\n      type=\"button\"\n      onClick={onClick}\n      disabled={disabled}\n      aria-disabled={disabled}\n    >\n      {label}\n    </button>\n  );\n};")
    case ApiHandler =>
      Guidelines("API Handler Guidelines", [
        "Validate all input parameters",
        "Use proper HTTP status codes",
        "Implement rate limiting",
        "Log requests and responses (excluding sensitive data)",
        "Handle errors gracefully with descriptive messages",
        "Use async/await consistently",
        "Implement request timeouts"
      ],
        "\nexport async function handleRequest(req: Request): Promise<Response> {\n  try {\n    const body = await validateInput(req.body);\n    const result = await processRequest(body);\n    return new Response(JSON.stringify(result), { status: 200 });\n  } catch (error) {\n    logger.error('Request failed', { error });\n    return new Response(JSON.stringify({ error: 'Internal error' }), { status: 500 });\n  }\n}")
    case TestCase =>
      Guidelines("Test Writing Guidelines", [
        "Follow Arrange-Act-Assert pattern",
        "Use descriptive test names that explain the expected behavior",
        "Test one behavior per test",
        "Mock external dependencies",
        "Include edge cases and error scenarios",
        "Keep tests independent of each other",
        "Avoid testing implementation details"
      ],
        "\ndescribe('UserService', () => {\n  it('should return user when valid ID is provided', async () => {\n    // Arrange\n    const mockRepo = { findById: jest.fn().mockResolvedValue({ id: '1', name: 'Test' }) };\n    const service = new UserService(mockRepo);\n    \n    // Act\n    const result = await service.getUser('1');\n    \n    // Assert\n    expect(result).toEqual({ id: '1', name: 'Test' });\n    expect(mockRepo.findById).toHaveBeenCalledWith('1');\n  });\n});")
    case ServiceClass =>
      Guidelines("Service Class Guidelines", [
        "Use dependency injection for testability",
        "Implement interfaces for abstractions",
        "Keep methods focused on single responsibility",
        "Handle errors at appropriate levels",
        "Add JSDoc documentation for public methods",
        "Use meaningful names that reflect business domain",
        "Implement proper logging and monitoring"
      ],
        "\nexport class PaymentService {\n  constructor(\n    private readonly gateway: PaymentGateway,\n    private readonly logger: Logger\n  ) {}\n\n  /**\n   * Process a payment transaction.\n   * @param amount - The payment amount in cents\n   * @param customerId - The customer identifier\n   * @returns Payment result with transaction ID\n   * @throws PaymentError if processing fails\n   */\n  async processPayment(amount: number, customerId: string): Promise<PaymentResult> {\n    this.logger.info('Processing payment', { amount, customerId });\n    // Implementation...\n  }\n}")
  }

  /** `lookupComponentGuidelines`: the entry under the lower-cased type, or an
      error that repeats the type as given and lists all four keys. */
  function LookupComponentGuidelines(componentType: string): (r: GuidelinesReply)
    ensures r.Found? <==> ToLower(componentType) in ComponentTypes
    ensures r.Found? ==> exists kind :: Key(kind) == ToLower(componentType) && r.guidelines == GuidelinesFor(kind)
    ensures r.UnknownType? ==>
      r.error == "Unknown component type: " + componentType && r.availableTypes == ComponentTypes
  {
    match KindOf(ToLower(componentType))
    case Some(kind) => Found(GuidelinesFor(kind))
    case None => UnknownType("Unknown component type: " + componentType, ComponentTypes)
  }

  /** Lower-casing twice is lower-casing once. */
  lemma ToLowerIdempotent(s: string)
    ensures ToLower(ToLower(s)) == ToLower(s)
  {
    assert forall i :: 0 <= i < |s| ==> ToLower(ToLower(s))[i] == ToLower(s)[i];
  }

  /** The lookup ignores case: a type and its lower-cased spelling are found or
      not found alike, and when found they give the same guidelines. */
  lemma LookupIgnoresCase(componentType: string)
    ensures LookupComponentGuidelines(ToLower(componentType)).Found?
        == LookupComponentGuidelines(componentType).Found?
    ensures LookupComponentGuidelines(componentType).Found? ==>
      LookupComponentGuidelines(ToLower(componentType)) == LookupComponentGuidelines(componentType)
  {
    ToLowerIdempotent(componentType);
  }

  // ---------------------------------------------------------------------------
  // readTrainingSection

  /** A heading line (starting with `#`) whose lower-cased text contains the
      lower-cased search text. */
  predicate IsMatch(line: string, sectionLower: string) {
    StartsWith(line, "#") && Contains(ToLower(line), sectionLower)
  }

  /** A line that closes the section opened by `title`: a top-level heading, or a
      second-level heading when the section itself is a second-level one. */
  predicate EndsSection(line: string, title: string) {
    StartsWith(line, "# ") || (StartsWith(line, "## ") && StartsWith(title, "## "))
  }

  /** The scan's variables (`inSection`, `sectionTitle`, `sectionContent`) and
      whether it has left the loop. */
  datatype Scan = Scan(inSection: bool, title: string, content: seq<string>, stopped: bool)

  const Unstarted := Scan(false, "", [], false)

  /** One turn of the loop over the lines. */
  function Step(st: Scan, line: string, sectionLower: string): Scan {
    if st.stopped then st
    else if IsMatch(line, sectionLower) then Scan(true, line, [line], false)
    else if !st.inSection then st
    else if EndsSection(line, st.title) then st.(stopped := true)
    else st.(content := st.content + [line])
  }

  /** The scan after the given lines. */
  function ScanLines(lines: seq<string>, sectionLower: string): Scan {
    if lines == [] then Unstarted
    else Step(ScanLines(lines[..|lines| - 1], sectionLower), lines[|lines| - 1], sectionLower)
  }

  const MissingDocument := "Training document not found. It may not have been generated yet."

  const SectionSuggestions := "Try: \"Module 1\", \"tabs\", \"agent\", \"browser\", \"mcp\", \"rules\", \"capstone\""

  datatype SectionReply =
    | Section(section: string, content: string, lineCount: nat)
    | SectionNotFound(error: string, availableSections: string)
    | DocumentMissing(error: string)

  /** The reply for a finished scan. */
  function Reply(st: Scan, section: string): SectionReply {
    if st.content == [] then SectionNotFound("Section \"" + section + "\" not found.", SectionSuggestions)
    else Section(st.title, Join(st.content, "\n"), |st.content|)
  }

  /** `readTrainingSection`, with the training document passed in (`None` when the
      file does not exist): the loop over its lines leaves the scan's state. */
  method ReadTrainingSection(document: Option<string>, section: string) returns (r: SectionReply)
    ensures document.None? ==> r == DocumentMissing(MissingDocument)
    ensures document.Some? ==> r == Reply(ScanLines(Split(document.value, '\n'), ToLower(section)), section)
  {
    if document.None? {
      return DocumentMissing(MissingDocument);
    }
    var sectionLower := ToLower(section);
    var lines := Split(document.value, '\n');
    var inSection := false;
    var sectionContent: seq<string> := [];
    var sectionTitle := "";
    for i := 0 to |lines|
      invariant Scan(inSection, sectionTitle, sectionContent, false) == ScanLines(lines[..i], sectionLower)
    {
      var line := lines[i];
      PrefixStep(lines, i);
      if StartsWith(line, "#") && Contains(ToLower(line), sectionLower) {
        inSection := true;
        sectionTitle := line;
        sectionContent := [line];
        continue;
      }
      if inSection {
        if StartsWith(line, "# ") || (StartsWith(line, "## ") && StartsWith(sectionTitle, "## ")) {
          StoppedScan(lines, i + 1, sectionLower);
          break;
        }
        sectionContent := sectionContent + [line];
      }
    }
    TakeAll(lines);
    if sectionContent == [] {
      return SectionNotFound("Section \"" + section + "\" not found.", SectionSuggestions);
    }
    return Section(sectionTitle, Join(sectionContent, "\n"), |sectionContent|);
  }

  /** Once the loop has broken off, the remaining lines change nothing. */
  lemma {:induction false} StoppedScan(lines: seq<string>, n: nat, sectionLower: string)
    requires n <= |lines| && ScanLines(lines[..n], sectionLower).stopped
    ensures ScanLines(lines, sectionLower) == ScanLines(lines[..n], sectionLower)
    decreases |lines|
  {
    if n == |lines| {
      TakeAll(lines);
    } else {
      var init := lines[..|lines| - 1];
      assert init[..n] == lines[..n];
      StoppedScan(init, n, sectionLower);
    }
  }

  /** What the scan's state always satisfies: it stops only inside a section; it
      is inside a section exactly when it has collected lines; and then the first
      collected line is the matching heading it took as the title, and every
      later one neither matches nor closes the section. */
  predicate Consistent(st: Scan, sectionLower: string) {
    (st.stopped ==> st.inSection)
    && (st.inSection <==> st.content != [])
    && (st.inSection ==>
          st.content[0] == st.title && IsMatch(st.title, sectionLower)
          && forall j :: 1 <= j < |st.content| ==>
               !IsMatch(st.content[j], sectionLower) && !EndsSection(st.content[j], st.title))
  }

  lemma {:induction false} ScanConsistent(lines: seq<string>, sectionLower: string)
    ensures Consistent(ScanLines(lines, sectionLower), sectionLower)
  {
    if lines != [] {
      var init := lines[..|lines| - 1];
      var line := lines[|lines| - 1];
      ScanConsistent(init, sectionLower);
      var st := ScanLines(init, sectionLower);
      if !st.stopped && !IsMatch(line, sectionLower) && st.inSection && !EndsSection(line, st.title) {
        assert forall j :: 0 <= j < |st.content| ==> (st.content + [line])[j] == st.content[j];
      }
    }
  }

  /** A section is found exactly when some line is a matching heading. */
  lemma {:induction false} ScanFinds(lines: seq<string>, sectionLower: string)
    ensures ScanLines(lines, sectionLower).inSection
        <==> exists i :: 0 <= i < |lines| && IsMatch(lines[i], sectionLower)
  {
    if lines != [] {
      var init := lines[..|lines| - 1];
      var line := lines[|lines| - 1];
      ScanFinds(init, sectionLower);
      ScanConsistent(init, sectionLower);
      assert forall i :: 0 <= i < |init| ==> init[i] == lines[i];
      if IsMatch(line, sectionLower) {
        assert IsMatch(lines[|lines| - 1], sectionLower);
      }
    }
  }

  /** The collected lines are the lines from position `s` on, up to the line
      that closed the section when the loop broke off, or to the end. */
  predicate CollectedFrom(lines: seq<string>, st: Scan, s: int) {
    0 <= s && s + |st.content| <= |lines| && st.content == lines[s..s + |st.content|]
    && if st.stopped then s + |st.content| < |lines| && EndsSection(lines[s + |st.content|], st.title)
       else s + |st.content| == |lines|
  }

  lemma {:induction false} ScanSlice(lines: seq<string>, sectionLower: string)
    ensures ScanLines(lines, sectionLower).inSection ==>
      exists s :: CollectedFrom(lines, ScanLines(lines, sectionLower), s)
  {
    if lines != [] {
      var init := lines[..|lines| - 1];
      var line := lines[|lines| - 1];
      var st := ScanLines(init, sectionLower);
      var next := ScanLines(lines, sectionLower);
      assert next == Step(st, line, sectionLower);
      ScanSlice(init, sectionLower);
      ScanConsistent(init, sectionLower);
      if st.stopped {
        var s :| CollectedFrom(init, st, s);
        SliceOfInit(lines, s, s + |st.content|);
        assert CollectedFrom(lines, next, s);
      } else if IsMatch(line, sectionLower) {
        assert CollectedFrom(lines, next, |lines| - 1);
      } else if st.inSection {
        var s :| CollectedFrom(init, st, s);
        SliceOfInit(lines, s, |init|);
        if EndsSection(line, st.title) {
          assert CollectedFrom(lines, next, s);
        } else {
          SliceToEnd(lines, s);
          assert CollectedFrom(lines, next, s);
        }
      }
    }
  }

  /** A slice of all but the last element is a slice of the whole. */
  lemma SliceOfInit<T>(xs: seq<T>, lo: int, hi: int)
    requires xs != [] && 0 <= lo <= hi <= |xs| - 1
    ensures xs[..|xs| - 1][lo..hi] == xs[lo..hi]
    ensures hi < |xs| - 1 ==> xs[..|xs| - 1][hi] == xs[hi]
  {
  }

  /** A slice that runs to the end is the slice up to the last element, then that element. */
  lemma SliceToEnd<T>(xs: seq<T>, lo: int)
    requires 0 <= lo < |xs|
    ensures xs[lo..] == xs[lo..|xs| - 1] + [xs[|xs| - 1]]
    ensures xs[lo..|xs|] == xs[lo..]
  {
  }

  /** `run` is the section opened by the matching heading `title` at position `s`:
      the lines from `s` up to, not including, the first later line closing the
      section, or to the end, with no other matching heading inside. */
  predicate RunAt(lines: seq<string>, sectionLower: string, title: string, run: seq<string>, s: int) {
    0 <= s && s + |run| <= |lines| && run == lines[s..s + |run|]
    && |run| >= 1 && lines[s] == title && IsMatch(title, sectionLower)
    && (forall j :: s < j < s + |run| ==>
          !IsMatch(lines[j], sectionLower) && !EndsSection(lines[j], title))
    && (s + |run| == |lines| || EndsSection(lines[s + |run|], title))
  }

  lemma CollectedRun(lines: seq<string>, sectionLower: string, st: Scan, s: int)
    requires Consistent(st, sectionLower) && st.inSection && CollectedFrom(lines, st, s)
    ensures RunAt(lines, sectionLower, st.title, st.content, s)
  {
    assert forall j :: s < j < s + |st.content| ==> lines[j] == st.content[j - s];
  }

  /** The scan collects lines exactly when some line is a matching heading. */
  lemma ScanCollects(lines: seq<string>, sectionLower: string)
    ensures ScanLines(lines, sectionLower).content != []
        <==> exists i :: 0 <= i < |lines| && IsMatch(lines[i], sectionLower)
  {
    ScanFinds(lines, sectionLower);
    ScanConsistent(lines, sectionLower);
  }

  /** What the scan over a split document collects is the run opened by its
      title, and it splits back out of its join. */
  lemma ScanRun(lines: seq<string>, sectionLower: string)
    requires forall i :: 0 <= i < |lines| ==> '\n' !in lines[i]
    ensures var st := ScanLines(lines, sectionLower);
      st.content != [] ==>
        Split(Join(st.content, "\n"), '\n') == st.content
        && exists s :: RunAt(lines, sectionLower, st.title, st.content, s)
  {
    var st := ScanLines(lines, sectionLower);
    ScanConsistent(lines, sectionLower);
    ScanSlice(lines, sectionLower);
    if st.inSection {
      var s :| CollectedFrom(lines, st, s);
      CollectedRun(lines, sectionLower, st, s);
      RunRejoins(lines, st.content, s);
    }
  }

  /** `readTrainingSection` reports the section missing exactly when no line of
      the document is a heading matching the search text (which the tool
      lower-cases before scanning). */
  lemma SectionMissingIffNoMatch(section: string, sectionLower: string, lines: seq<string>, r: SectionReply)
    requires r == Reply(ScanLines(lines, sectionLower), section)
    ensures r.SectionNotFound? <==> forall i :: 0 <= i < |lines| ==> !IsMatch(lines[i], sectionLower)
  {
    ScanCollects(lines, sectionLower);
  }

  /** When `readTrainingSection` finds a section in a document's lines (the
      pieces of a split on newlines), the reply names a matching heading, its
      content splits back into exactly the run of lines that heading opens, and
      `lineCount` is the number of those lines. */
  lemma SectionIsRun(section: string, sectionLower: string, lines: seq<string>, r: SectionReply)
    requires forall i :: 0 <= i < |lines| ==> '\n' !in lines[i]
    requires r == Reply(ScanLines(lines, sectionLower), section)
    requires r.Section?
    ensures r.lineCount == |Split(r.content, '\n')|
    ensures exists s :: RunAt(lines, sectionLower, r.section, Split(r.content, '\n'), s)
  {
    ScanRun(lines, sectionLower);
  }

  /** A run of lines taken from a split document splits back out of its join. */
  lemma RunRejoins(lines: seq<string>, run: seq<string>, s: int)
    requires forall i :: 0 <= i < |lines| ==> '\n' !in lines[i]
    requires 0 <= s && s + |run| <= |lines| && run == lines[s..s + |run|] && |run| >= 1
    ensures Split(Join(run, "\n"), '\n') == run
  {
    assert forall k :: 0 <= k < |run| ==> run[k] == lines[s + k];
    SplitJoin(run, '\n');
  }

  // ---------------------------------------------------------------------------
  // listRepoFiles

  /** A directory's contents as `readdirSync` returns them, in order. */
  datatype Node = File(name: string) | Directory(name: string, children: seq<Node>)

  datatype EntryType = FileEntry | DirectoryEntry

  /** `{ name, type }`: a path relative to the listed directory. */
  datatype Entry = Entry(name: string, kind: EntryType)

  /** Names the walk neither lists nor enters. */
  const Skipped: seq<string> := ["node_modules", ".git", "dist", "build"]

  /** `path.join(relativePath, name)` for a name without separators. */
  function JoinPath(relativePath: string, name: string): (r: string)
    ensures EndsWith(r, name)
  {
    if relativePath == "" then name else relativePath + "/" + name
  }

  /** `!pattern || name.endsWith(pattern)`: an absent or empty pattern admits every file. */
  predicate Admits(pattern: Option<string>, name: string) {
    pattern.None? || pattern.value == "" || EndsWith(name, pattern.value)
  }

  /** An entry as the walk can produce it: directories end in `/`, and files
      end with the pattern when there is one. */
  predicate Listable(e: Entry, pattern: Option<string>) {
    (e.kind == DirectoryEntry ==> EndsWith(e.name, "/"))
    && (e.kind == FileEntry && pattern.Some? ==> EndsWith(e.name, pattern.value))
  }

  /** A path ending with an admitted name ends with the pattern. */
  lemma AdmittedPath(path: string, name: string, pattern: Option<string>)
    requires EndsWith(path, name) && Admits(pattern, name)
    ensures pattern.Some? ==> EndsWith(path, pattern.value)
  {
    if pattern.Some? {
      var suffix := pattern.value;
      assert path[|path| - |suffix|..] == path[|path| - |name|..][|name| - |suffix|..];
    }
  }

  /** The entries `walkDir` pushes for `nodes` under `relativePath`, in order. */
  function Walk(nodes: seq<Node>, relativePath: string, pattern: Option<string>): seq<Entry>
    decreases nodes
  {
    if nodes == [] then []
    else Walk(nodes[..|nodes| - 1], relativePath, pattern) + WalkOne(nodes[|nodes| - 1], relativePath, pattern)
  }

  /** The entries `walkDir` pushes for one node: nothing for a skipped name; a
      directory's own entry followed by its contents; a file only when the
      pattern admits its name. */
  function WalkOne(node: Node, relativePath: string, pattern: Option<string>): seq<Entry>
    decreases node
  {
    var relPath := JoinPath(relativePath, node.name);
    if node.name in Skipped then []
    else if node.Directory? then [Entry(relPath + "/", DirectoryEntry)] + Walk(node.children, relPath, pattern)
    else if Admits(pattern, node.name) then [Entry(relPath, FileEntry)]
    else []
  }

  /** Every entry of a walk is listable: directories end in `/` and files end
      with the pattern. */
  lemma {:induction false} WalkListable(nodes: seq<Node>, relativePath: string, pattern: Option<string>)
    ensures forall e :: e in Walk(nodes, relativePath, pattern) ==> Listable(e, pattern)
    decreases nodes
  {
    if nodes != [] {
      WalkListable(nodes[..|nodes| - 1], relativePath, pattern);
      WalkOneListable(nodes[|nodes| - 1], relativePath, pattern);
    }
  }

  lemma {:induction false} WalkOneListable(node: Node, relativePath: string, pattern: Option<string>)
    ensures forall e :: e in WalkOne(node, relativePath, pattern) ==> Listable(e, pattern)
    decreases node
  {
    var relPath := JoinPath(relativePath, node.name);
    if node.name !in Skipped {
      if node.Directory? {
        WalkListable(node.children, relPath, pattern);
        assert EndsWith(relPath + "/", "/");
      } else if Admits(pattern, node.name) {
        AdmittedPath(relPath, node.name, pattern);
      }
    }
  }

  /** `walkDir`: pushes the entries for `nodes` onto `files`, one entry of the
      directory at a time. */
  method WalkDir(nodes: seq<Node>, relativePath: string, pattern: Option<string>, files: seq<Entry>)
    returns (r: seq<Entry>)
    ensures r == files + Walk(nodes, relativePath, pattern)
    decreases nodes, 1
  {
    r := files;
    for i := 0 to |nodes|
      invariant r == files + Walk(nodes[..i], relativePath, pattern)
    {
      ghost var done := r;
      r := WalkEntry(nodes[i], relativePath, pattern, r);
      WalkStep(nodes, i, relativePath, pattern);
      AppendAssociates(files, Walk(nodes[..i], relativePath, pattern), WalkOne(nodes[i], relativePath, pattern));
    }
    TakeAll(nodes);
  }

  /** One turn of `walkDir`'s loop: a skipped name is passed over; a directory is
      listed and then walked right away; a file is listed when the pattern
      admits its name. */
  method WalkEntry(entry: Node, relativePath: string, pattern: Option<string>, files: seq<Entry>)
    returns (r: seq<Entry>)
    ensures r == files + WalkOne(entry, relativePath, pattern)
    decreases entry, 0
  {
    r := files;
    var relPath := JoinPath(relativePath, entry.name);
    if entry.name in Skipped {
      return;
    }
    if entry.Directory? {
      r := r + [Entry(relPath + "/", DirectoryEntry)];
      r := WalkDir(entry.children, relPath, pattern, r);
      AppendAssociates(files, [Entry(relPath + "/", DirectoryEntry)], Walk(entry.children, relPath, pattern));
    } else if pattern.None? || pattern.value == "" || EndsWith(entry.name, pattern.value) {
      r := r + [Entry(relPath, FileEntry)];
    }
  }

  /** The walk over one more node extends the walk over the ones before it. */
  lemma WalkStep(nodes: seq<Node>, i: nat, relativePath: string, pattern: Option<string>)
    requires i < |nodes|
    ensures Walk(nodes[..i + 1], relativePath, pattern)
         == Walk(nodes[..i], relativePath, pattern) + WalkOne(nodes[i], relativePath, pattern)
  {
    PrefixStep(nodes, i);
  }

  /** The number of entries of one type (`files.filter(...).length`). */
  function CountType(files: seq<Entry>, kind: EntryType): (n: nat)
    ensures n <= |files|
  {
    if files == [] then 0
    else CountType(files[..|files| - 1], kind) + (if files[|files| - 1].kind == kind then 1 else 0)
  }

  /** Every entry is a file or a directory, so the two counts add up to all entries. */
  lemma {:induction false} CountsCoverAll(files: seq<Entry>)
    ensures CountType(files, FileEntry) + CountType(files, DirectoryEntry) == |files|
  {
    if files != [] {
      CountsCoverAll(files[..|files| - 1]);
    }
  }

  /** At most this many entries are returned. */
  const MaxEntries := 50

  datatype ListReply =
    | Listing(directory: Option<string>, fileCount: nat, directoryCount: nat, files: seq<Entry>, truncated: bool)
    | DirectoryNotFound(error: string)

  /** The reply built from everything the walk collected: both counts are over all
      entries, at most the first fifty are returned, and `truncated` is set
      exactly when some were left off. */
  function Shape(directory: Option<string>, files: seq<Entry>): (r: ListReply)
    ensures r.Listing? && r.directory == directory
    ensures r.fileCount == CountType(files, FileEntry) && r.directoryCount == CountType(files, DirectoryEntry)
    ensures r.fileCount + r.directoryCount == |files|
    ensures |r.files| == Min(MaxEntries, |files|) && r.files == files[..|r.files|]
    ensures r.truncated <==> |r.files| < |files|
    ensures !r.truncated ==> r.files == files
  {
    CountsCoverAll(files);
    Listing(directory, CountType(files, FileEntry), CountType(files, DirectoryEntry),
      files[..Min(MaxEntries, |files|)], |files| > MaxEntries)
  }

  /** `listRepoFiles`, with the directory's contents passed in (`None` when it
      does not exist): the walk from the top with an empty relative path, shaped
      into the reply. An absent directory argument reads as `undefined` in the
      error text. */
  method ListRepoFiles(directory: Option<string>, pattern: Option<string>, contents: Option<seq<Node>>)
    returns (r: ListReply)
    ensures contents.None? ==> r == DirectoryNotFound("Directory not found: " + directory.GetOr("undefined"))
    ensures contents.Some? ==> r == Shape(directory, Walk(contents.value, "", pattern))
    ensures r.Listing? ==> forall e :: e in r.files ==> Listable(e, pattern)
  {
    if contents.None? {
      return DirectoryNotFound("Directory not found: " + directory.GetOr("undefined"));
    }
    var files := WalkDir(contents.value, "", pattern, []);
    assert files == Walk(contents.value, "", pattern);
    r := Shape(directory, files);
    WalkListable(contents.value, "", pattern);
    assert forall e :: e in r.files ==> e in files;
  }
}
