/** The rule-based analyses of the AI service: complexity metrics, next-file
    predictions, the fallback commit-message generator and the fallback code
    review. Regular-expression searches over the diff or the file content
    are inputs to the model: a boolean when the source only asks whether
    the pattern matches, a count when it uses the number of matches. */
module AiService {
  import opened Strings
  import opened Seqs
  import StableSort

  datatype Severity = Warning | Info

  /** What an issue reports; `Message` gives the text the source shows. */
  datatype Problem =
    | FileTooLarge | HighCyclomatic | HighCognitive | LongFunctions(count: nat)
    | ConsoleLog | DebuggerStatement | TodoComments | LongLines(count: nat) | LooseNullEquality

  datatype Issue = Issue(severity: Severity, problem: Problem)

  function Message(p: Problem): string {
    match p
    case FileTooLarge => "File is too large (>300 lines)"
    case HighCyclomatic => "High cyclomatic complexity"
    case HighCognitive => "High cognitive complexity (deep nesting)"
    case LongFunctions(n) => NatToString(n) + " long function(s) detected"
    case ConsoleLog => "Console.log statements found (consider removing)"
    case DebuggerStatement => "Debugger statements found"
    case TodoComments => "TODO/FIXME comments present"
    case LongLines(n) => NatToString(n) + " long lines (>120 chars) detected"
    case LooseNullEquality => "Loose equality with null/undefined (use === instead)"
  }

  // ---------------------------------------------------------------------
  // analyzeCodeComplexity
  // ---------------------------------------------------------------------

  /** Match counts of the three regular expressions the analysis runs over
      the content: control-flow keywords, `{ ... {` nestings and functions
      of 500 characters or more. */
  datatype ComplexityMatches = ComplexityMatches(controlFlow: nat, nested: nat, longFunctions: nat)

  datatype Metrics = Metrics(
    linesOfCode: nat,
    cyclomaticComplexity: nat,
    cognitiveComplexity: nat,
    maintainabilityScore: int,
    issues: seq<Issue>)

  /** A line counts as code when it is not blank and, once leading
      whitespace is dropped, does not start with `//`. (Trimming the end as
      well, as `trim` does, changes neither test.) */
  predicate IsCodeLine(line: string) {
    var t := TrimStart(line);
    t != "" && !StartsWith(t, "//")
  }

  function CountCodeLines(lines: seq<string>): (n: nat)
    ensures n <= |lines|
    ensures n == 0 <==> forall i :: 0 <= i < |lines| ==> !IsCodeLine(lines[i])
  {
    if lines == [] then 0
    else
      assert forall i :: 1 <= i < |lines| ==> lines[i] == lines[1..][i - 1];
      (if IsCodeLine(lines[0]) then 1 else 0) + CountCodeLines(lines[1..])
  }

  /** The count adds up over the lines: the lines of two texts count
      separately, and one line counts once exactly when it is code. */
  lemma {:induction false} CountCodeLinesAppend(a: seq<string>, b: seq<string>, line: string)
    ensures CountCodeLines(a + b) == CountCodeLines(a) + CountCodeLines(b)
    ensures CountCodeLines([line]) == if IsCodeLine(line) then 1 else 0
    decreases |a|
  {
    if a == [] {
      assert a + b == b;
    } else {
      assert (a + b)[1..] == a[1..] + b;
      CountCodeLinesAppend(a[1..], b, line);
    }
  }

  /** A line holding only an ideographic space is blank, as JavaScript's
      `trim` sees it. */
  lemma WideSpaceIsBlank()
    ensures CountCodeLines(["\U{3000}"]) == 0
  {
    SpaceThen('\U{3000}', "");
    CountCodeLinesAppend([], [], "\U{3000}");
  }

  /** An em space before `//` still makes the line a comment, whatever
      follows. */
  lemma SpacedCommentIsNotCode(rest: string)
    ensures CountCodeLines([['\U{2003}'] + "//" + rest]) == 0
  {
    var comment := "//" + rest;
    assert ['\U{2003}'] + "//" + rest == ['\U{2003}'] + comment;
    SpaceThen('\U{2003}', comment);
    assert comment[0] == '/' && comment[..2] == "//";
    assert TrimStart(comment) == comment;
    CountCodeLinesAppend([], [], ['\U{2003}'] + comment);
  }

  /** A leading space separator is trimmed away. */
  lemma SpaceThen(c: char, rest: string)
    requires '\U{2000}' <= c <= '\U{200A}' || c == '\U{3000}'
    ensures TrimStart([c] + rest) == TrimStart(rest)
  {
    assert ([c] + rest)[1..] == rest;
  }

  /** One maintainability deduction: the points it costs and the issue it
      reports. */
  datatype Deduction = Deduction(points: nat, issue: Issue)

  /** The points and the issue of a deduction when its condition holds. */
  function PointsIf(c: bool, d: Deduction): nat {
    if c then d.points else 0
  }

  function IssuesIf(c: bool, d: Deduction): seq<Issue> {
    if c then [d.issue] else []
  }

  /** The four deductions, in the order the analysis applies them. */
  const TooLarge := Deduction(20, Issue(Warning, FileTooLarge))
  const Cyclomatic := Deduction(15, Issue(Warning, HighCyclomatic))
  const Cognitive := Deduction(15, Issue(Warning, HighCognitive))
  function LongFunctionsDeduction(n: nat): Deduction {
    Deduction(10, Issue(Info, LongFunctions(n)))
  }

  /** The maintainability score: 100 less every deduction that applies. */
  function ScoreFor(linesOfCode: nat, cyclomatic: nat, cognitive: nat, longFunctions: nat): int {
    100 - PointsIf(linesOfCode > 300, TooLarge) - PointsIf(cyclomatic > 15, Cyclomatic)
        - PointsIf(cognitive > 10, Cognitive) - PointsIf(longFunctions > 0, LongFunctionsDeduction(longFunctions))
  }

  /** The issues, one per deduction that applies, in order. */
  function IssuesFor(linesOfCode: nat, cyclomatic: nat, cognitive: nat, longFunctions: nat): seq<Issue> {
    IssuesIf(linesOfCode > 300, TooLarge) + IssuesIf(cyclomatic > 15, Cyclomatic) +
    IssuesIf(cognitive > 10, Cognitive) + IssuesIf(longFunctions > 0, LongFunctionsDeduction(longFunctions))
  }

  /** Each deduction costs 10 to 20 points and reports one issue, so the
      score stays within [40, 100]. */
  lemma ScoreBounds(linesOfCode: nat, cyclomatic: nat, cognitive: nat, longFunctions: nat)
    ensures var score := ScoreFor(linesOfCode, cyclomatic, cognitive, longFunctions);
            var issues := IssuesFor(linesOfCode, cyclomatic, cognitive, longFunctions);
            40 <= score <= 100 && |issues| <= 4 &&
            10 * |issues| <= 100 - score <= 20 * |issues| &&
            (score == 100 <==> issues == [])
  {
  }

  /** Each issue is reported exactly when its threshold is passed. */
  lemma IssuesExactly(linesOfCode: nat, cyclomatic: nat, cognitive: nat, longFunctions: nat)
    ensures var issues := IssuesFor(linesOfCode, cyclomatic, cognitive, longFunctions);
            (TooLarge.issue in issues <==> linesOfCode > 300) &&
            (Cyclomatic.issue in issues <==> cyclomatic > 15) &&
            (Cognitive.issue in issues <==> cognitive > 10) &&
            (LongFunctionsDeduction(longFunctions).issue in issues <==> longFunctions > 0)
  {
  }

  /** The complexity report: metrics computed from the content and the
      match counts, the score reduced step by step from 100. */
  method AnalyzeCodeComplexity(content: string, matches: ComplexityMatches) returns (m: Metrics)
    ensures m.linesOfCode == CountCodeLines(Split(content, '\n'))
    ensures m.cyclomaticComplexity == matches.controlFlow + 1 >= 1
    ensures m.cognitiveComplexity == matches.nested
    ensures m.maintainabilityScore == ScoreFor(m.linesOfCode, m.cyclomaticComplexity, m.cognitiveComplexity, matches.longFunctions)
    ensures m.issues == IssuesFor(m.linesOfCode, m.cyclomaticComplexity, m.cognitiveComplexity, matches.longFunctions)
  {
    m := Metrics(0, 0, 0, 100, []);
    var lines := Split(content, '\n');
    m := m.(linesOfCode := CountCodeLines(lines));
    m := m.(cyclomaticComplexity := matches.controlFlow + 1);
    m := m.(cognitiveComplexity := matches.nested);
    if m.linesOfCode > 300 {
      m := m.(maintainabilityScore := m.maintainabilityScore - 20, issues := m.issues + [Issue(Warning, FileTooLarge)]);
    }
    ghost var issues := IssuesIf(m.linesOfCode > 300, TooLarge);
    assert m.issues == issues;
    if m.cyclomaticComplexity > 15 {
      m := m.(maintainabilityScore := m.maintainabilityScore - 15, issues := m.issues + [Issue(Warning, HighCyclomatic)]);
    }
    issues := issues + IssuesIf(m.cyclomaticComplexity > 15, Cyclomatic);
    assert m.issues == issues;
    if m.cognitiveComplexity > 10 {
      m := m.(maintainabilityScore := m.maintainabilityScore - 15, issues := m.issues + [Issue(Warning, HighCognitive)]);
    }
    issues := issues + IssuesIf(m.cognitiveComplexity > 10, Cognitive);
    assert m.issues == issues;
    if matches.longFunctions > 0 {
      m := m.(maintainabilityScore := m.maintainabilityScore - 10, issues := m.issues + [Issue(Info, LongFunctions(matches.longFunctions))]);
    }
    assert m.issues == IssuesFor(m.linesOfCode, m.cyclomaticComplexity, m.cognitiveComplexity, matches.longFunctions);
    assert m.maintainabilityScore == ScoreFor(m.linesOfCode, m.cyclomaticComplexity, m.cognitiveComplexity, matches.longFunctions);
    ScoreBounds(m.linesOfCode, m.cyclomaticComplexity, m.cognitiveComplexity, matches.longFunctions);
  }

  // ---------------------------------------------------------------------
  // predictNextFiles
  // ---------------------------------------------------------------------

  datatype Reason = SameDirectory | TestFile | StyleFile | ModuleIndex | RecentlyAccessed

  /** A predicted file; `confidence` is in tenths (0.7 is 7). */
  datatype Prediction = Prediction(file: string, reason: Reason, confidence: nat)

  /** The `reason` text of each rule. */
  function ReasonText(r: Reason): string {
    match r
    case SameDirectory => "Same directory"
    case TestFile => "Test file"
    case StyleFile => "Style file"
    case ModuleIndex => "Module index"
    case RecentlyAccessed => "Recently accessed"
  }

  /** The test-file candidate: `.test` inserted before the last extension,
      when the last dot is followed by at least one character. */
  function TestFileFor(path: string): (r: string)
    ensures var k := LastIndexOf(path, '.');
            (0 <= k < |path| - 1 ==> r == path[..k] + ".test." + Extension(path)) &&
            (!(0 <= k < |path| - 1) ==> r == path)
  {
    var k := LastIndexOf(path, '.');
    LastSegmentAt(path, '.');
    if 0 <= k < |path| - 1 then path[..k] + ".test." + path[k + 1..] else path
  }

  /** The style-file candidate: a `.jsx` or `.tsx` ending replaced by
      `.css`. */
  function StyleFileFor(path: string): (r: string) {
    if EndsWith(path, ".jsx") || EndsWith(path, ".tsx") then path[..|path| - 4] + ".css" else path
  }

  /** The module-index candidate: `index` with the file's extension, in
      the file's directory. */
  function IndexFileFor(path: string): string {
    Dirname(path) + "/index." + Extension(path)
  }

  /** The siblings rule 1 looks at: the directory's entries other than the
      current file's own name, at most three. */
  function SiblingNames(path: string, structure: map<string, seq<string>>): (r: seq<string>)
    ensures |r| <= 3
    ensures Basename(path) !in r
    ensures Dirname(path) !in structure ==> r == []
    ensures Dirname(path) in structure ==>
              var others := |Without(structure[Dirname(path)], Basename(path))|;
              |r| == if others <= 3 then others else 3
    ensures forall f :: f in r ==> Dirname(path) in structure && f in structure[Dirname(path)]
  {
    var dir := Dirname(path);
    if dir in structure then
      var others := Without(structure[dir], Basename(path));
      WithoutMembers(structure[dir], Basename(path));
      var r := Take(others, 3);
      assert forall f :: f in r ==> f in others;
      r
    else []
  }

  /** Rule 1 takes, in order, the first three entries of the directory
      other than the current file: an entry with `k < 3` such entries
      before it is sibling `k`, and rule 1 predicts it. */
  lemma SiblingsComplete(path: string, structure: map<string, seq<string>>, i: nat)
    requires Dirname(path) in structure && i < |structure[Dirname(path)]|
    requires structure[Dirname(path)][i] != Basename(path)
    requires |Without(structure[Dirname(path)][..i], Basename(path))| < 3
    ensures var k := |Without(structure[Dirname(path)][..i], Basename(path))|;
            var names := SiblingNames(path, structure);
            k < |names| && names[k] == structure[Dirname(path)][i] &&
            SiblingPrediction(Dirname(path), structure[Dirname(path)][i]) in SameDirectoryPredictions(Dirname(path), names)
  {
    var entries := structure[Dirname(path)];
    var k := |Without(entries[..i], Basename(path))|;
    WithoutAt(entries, Basename(path), i);
    var names := SiblingNames(path, structure);
    assert names == Take(Without(entries, Basename(path)), 3);
    assert SameDirectoryPredictions(Dirname(path), names)[k] == SiblingPrediction(Dirname(path), entries[i]);
  }

  /** Rule 1 for one sibling. */
  function SiblingPrediction(dir: string, name: string): Prediction {
    Prediction(dir + "/" + name, SameDirectory, 7)
  }

  function SameDirectoryPredictions(dir: string, names: seq<string>): (r: seq<Prediction>)
    ensures |r| == |names|
    ensures forall i :: 0 <= i < |r| ==> r[i] == SiblingPrediction(dir, names[i])
  {
    if names == [] then [] else [SiblingPrediction(dir, names[0])] + SameDirectoryPredictions(dir, names[1..])
  }

  /** Rule 5 over the recent files before index `j` (the source passes
      the first three): each one other than the current file, with
      confidence 6 - its index. */
  function RecentPredictions(current: string, recent: seq<string>, j: nat): seq<Prediction>
    requires j <= |recent| <= 3
  {
    if j == 0 then []
    else
      RecentPredictions(current, recent, j - 1) +
      (if recent[j - 1] != current then [Prediction(recent[j - 1], RecentlyAccessed, 6 - (j - 1))] else [])
  }

  predicate SuggestsTest(path: string) {
    !Contains(path, ".test.") && !Contains(path, ".spec.")
  }

  predicate SuggestsStyle(path: string) {
    Extension(path) == "jsx" || Extension(path) == "tsx"
  }

  predicate SuggestsIndex(path: string) {
    path != IndexFileFor(path)
  }

  /** Rule 2: the test file, unless the current file is a test. */
  function TestRule(current: string): seq<Prediction> {
    if SuggestsTest(current) then [Prediction(TestFileFor(current), TestFile, 8)] else []
  }

  /** Rule 3: the style sheet of a component. */
  function StyleRule(current: string): seq<Prediction> {
    if SuggestsStyle(current) then [Prediction(StyleFileFor(current), StyleFile, 6)] else []
  }

  /** Rule 4: the directory's index module. */
  function IndexRule(current: string): seq<Prediction> {
    if SuggestsIndex(current) then [Prediction(IndexFileFor(current), ModuleIndex, 5)] else []
  }

  /** Every prediction the five rules make, in the order they make them. */
  function Candidates(current: string, recent: seq<string>, structure: map<string, seq<string>>): seq<Prediction> {
    var firstThree := Take(recent, 3);
    SameDirectoryPredictions(Dirname(current), SiblingNames(current, structure)) +
    TestRule(current) + StyleRule(current) + IndexRule(current) +
    RecentPredictions(current, firstThree, |firstThree|)
  }

  function Confidence(p: Prediction): int {
    p.confidence
  }

  /** Rule 1's loop: one prediction per sibling name, in order. */
  method PushSiblings(dir: string, names: seq<string>) returns (predictions: seq<Prediction>)
    ensures predictions == SameDirectoryPredictions(dir, names)
  {
    predictions := [];
    var i := 0;
    while i < |names|
      invariant i <= |names| && |predictions| == i
      invariant forall k :: 0 <= k < i ==> predictions[k] == SiblingPrediction(dir, names[k])
    {
      predictions := predictions + [SiblingPrediction(dir, names[i])];
      i := i + 1;
    }
  }

  /** Rule 2: pushes the test file unless the current file is a test. */
  method PushTestFile(current: string, predictions: seq<Prediction>) returns (r: seq<Prediction>)
    ensures r == predictions + TestRule(current)
  {
    r := predictions;
    if SuggestsTest(current) {
      r := r + [Prediction(TestFileFor(current), TestFile, 8)];
    }
  }

  /** Rule 3: pushes the style sheet of a `.jsx`/`.tsx` component. */
  method PushStyleFile(current: string, predictions: seq<Prediction>) returns (r: seq<Prediction>)
    ensures r == predictions + StyleRule(current)
  {
    r := predictions;
    if SuggestsStyle(current) {
      r := r + [Prediction(StyleFileFor(current), StyleFile, 6)];
    }
  }

  /** Rule 4: pushes the directory's index module unless it is the current file. */
  method PushIndexFile(current: string, predictions: seq<Prediction>) returns (r: seq<Prediction>)
    ensures r == predictions + IndexRule(current)
  {
    r := predictions;
    var indexFile := IndexFileFor(current);
    if current != indexFile {
      r := r + [Prediction(indexFile, ModuleIndex, 5)];
    }
  }

  /** Rule 5's loop over (at most three) recent files. */
  method PushRecent(current: string, firstThree: seq<string>) returns (predictions: seq<Prediction>)
    requires |firstThree| <= 3
    ensures predictions == RecentPredictions(current, firstThree, |firstThree|)
  {
    predictions := [];
    var j := 0;
    while j < |firstThree|
      invariant j <= |firstThree|
      invariant predictions == RecentPredictions(current, firstThree, j)
    {
      ghost var before := predictions;
      if firstThree[j] != current {
        predictions := predictions + [Prediction(firstThree[j], RecentlyAccessed, 6 - j)];
      }
      assert RecentPredictions(current, firstThree, j + 1) == before +
        (if firstThree[j] != current then [Prediction(firstThree[j], RecentlyAccessed, 6 - j)] else []);
      j := j + 1;
    }
  }

  /** The five rules, pushed one after the other. */
  method PushRules(current: string, recent: seq<string>, structure: map<string, seq<string>>)
    returns (predictions: seq<Prediction>)
    ensures predictions == Candidates(current, recent, structure)
  {
    predictions := PushSiblings(Dirname(current), SiblingNames(current, structure));
    predictions := PushTestFile(current, predictions);
    predictions := PushStyleFile(current, predictions);
    predictions := PushIndexFile(current, predictions);
    var recentPredictions := PushRecent(current, Take(recent, 3));
    predictions := predictions + recentPredictions;
  }

  /** The predictions, pushed rule by rule, then sorted by confidence and cut
      to the first five. */
  method PredictNextFiles(current: string, recent: seq<string>, structure: map<string, seq<string>>)
    returns (r: seq<Prediction>)
    ensures r == Take(StableSort.Sort(Candidates(current, recent, structure), Confidence), 5)
    ensures |r| <= 5 && StableSort.SortedDesc(r, Confidence)
    ensures multiset(r) <= multiset(Candidates(current, recent, structure))
    ensures |Candidates(current, recent, structure)| <= 5 ==> multiset(r) == multiset(Candidates(current, recent, structure))
  {
    var predictions := PushRules(current, recent, structure);
    r := Take(StableSort.Sort(predictions, Confidence), 5);
    StableSort.TopOfSort(predictions, Confidence, 5);
  }

  /** Rule 1 only suggests entries of the current directory other than the
      current file, each under `dir + "/"`, and at most three of them. */
  lemma SameDirectoryRule(current: string, structure: map<string, seq<string>>, p: Prediction)
    requires p in SameDirectoryPredictions(Dirname(current), SiblingNames(current, structure))
    ensures p.reason == SameDirectory && p.confidence == 7
    ensures exists name :: Dirname(current) in structure && name in structure[Dirname(current)] &&
              name != Basename(current) && p.file == Dirname(current) + "/" + name
  {
    var names := SiblingNames(current, structure);
    var ps := SameDirectoryPredictions(Dirname(current), names);
    var k :| 0 <= k < |ps| && ps[k] == p;
    assert names[k] in names;
  }

  /** Rule 5 suggests the recent file at index `i` (one of the first three)
      with confidence 6 - i when it is not the current file. */
  lemma {:induction false} RecentRuleComplete(current: string, recent: seq<string>, j: nat, i: nat)
    requires j <= |recent| <= 3 && i < j && recent[i] != current
    ensures Prediction(recent[i], RecentlyAccessed, 6 - i) in RecentPredictions(current, recent, j)
  {
    if i < j - 1 {
      RecentRuleComplete(current, recent, j - 1, i);
    }
  }

  /** Rule 5 suggests nothing but a recent file other than the current one,
      at index `i` with confidence 6 - i. */
  lemma {:induction false} RecentRuleSound(current: string, recent: seq<string>, j: nat, p: Prediction)
    requires j <= |recent| <= 3 && p in RecentPredictions(current, recent, j)
    ensures p.file != current && p.reason == RecentlyAccessed
    ensures exists i :: 0 <= i < j && p.file == recent[i] && p.confidence == 6 - i
  {
    if p !in RecentPredictions(current, recent, j - 1) {
      assert p == Prediction(recent[j - 1], RecentlyAccessed, 6 - (j - 1));
    } else {
      RecentRuleSound(current, recent, j - 1, p);
    }
  }

  /** Rules 2 to 4 each make their one prediction exactly when their
      condition holds, and no other rule makes a prediction with their
      reason. */
  lemma FileRules(current: string, recent: seq<string>, structure: map<string, seq<string>>, p: Prediction)
    requires p in Candidates(current, recent, structure)
    ensures p.reason == TestFile ==> p == Prediction(TestFileFor(current), TestFile, 8) && SuggestsTest(current)
    ensures p.reason == StyleFile ==> p == Prediction(StyleFileFor(current), StyleFile, 6) && SuggestsStyle(current)
    ensures p.reason == ModuleIndex ==> p == Prediction(IndexFileFor(current), ModuleIndex, 5) && SuggestsIndex(current)
  {
    var firstThree := Take(recent, 3);
    var siblings := SameDirectoryPredictions(Dirname(current), SiblingNames(current, structure));
    var recents := RecentPredictions(current, firstThree, |firstThree|);
    SiblingReasons(current, structure);
    RecentReasons(current, firstThree);
    assert p in siblings + TestRule(current) + StyleRule(current) + IndexRule(current) + recents;
    RuleMembers(current);
    RuleSlots(siblings, TestRule(current), StyleRule(current), IndexRule(current), recents, p);
  }

  /** What each of rules 2 to 4 can predict. */
  lemma RuleMembers(current: string)
    ensures forall q :: q in TestRule(current) ==> q == Prediction(TestFileFor(current), TestFile, 8) && SuggestsTest(current)
    ensures forall q :: q in StyleRule(current) ==> q == Prediction(StyleFileFor(current), StyleFile, 6) && SuggestsStyle(current)
    ensures forall q :: q in IndexRule(current) ==> q == Prediction(IndexFileFor(current), ModuleIndex, 5) && SuggestsIndex(current)
  {
  }

  lemma SiblingReasons(current: string, structure: map<string, seq<string>>)
    ensures forall q :: q in SameDirectoryPredictions(Dirname(current), SiblingNames(current, structure)) ==>
              q.reason == SameDirectory
  {
    forall q | q in SameDirectoryPredictions(Dirname(current), SiblingNames(current, structure))
      ensures q.reason == SameDirectory
    {
      SameDirectoryRule(current, structure, q);
    }
  }

  lemma RecentReasons(current: string, firstThree: seq<string>)
    requires |firstThree| <= 3
    ensures forall q :: q in RecentPredictions(current, firstThree, |firstThree|) ==> q.reason == RecentlyAccessed
  {
    forall q | q in RecentPredictions(current, firstThree, |firstThree|)
      ensures q.reason == RecentlyAccessed
    {
      RecentRuleSound(current, firstThree, |firstThree|, q);
    }
  }

  /** Rules 2 to 4 make their prediction whenever their condition holds. */
  lemma FileRulesFire(current: string, recent: seq<string>, structure: map<string, seq<string>>)
    ensures SuggestsTest(current) ==> Prediction(TestFileFor(current), TestFile, 8) in Candidates(current, recent, structure)
    ensures SuggestsStyle(current) ==> Prediction(StyleFileFor(current), StyleFile, 6) in Candidates(current, recent, structure)
    ensures SuggestsIndex(current) ==> Prediction(IndexFileFor(current), ModuleIndex, 5) in Candidates(current, recent, structure)
  {
  }

  /** In the candidate list, a prediction with a file rule's reason comes
      from that rule. */
  lemma RuleSlots(siblings: seq<Prediction>, test: seq<Prediction>, style: seq<Prediction>,
                  index: seq<Prediction>, recents: seq<Prediction>, p: Prediction)
    requires forall q :: q in siblings ==> q.reason == SameDirectory
    requires forall q :: q in recents ==> q.reason == RecentlyAccessed
    requires forall q :: q in test ==> q.reason == TestFile
    requires forall q :: q in style ==> q.reason == StyleFile
    requires forall q :: q in index ==> q.reason == ModuleIndex
    requires p in siblings + test + style + index + recents
    ensures p.reason == TestFile ==> p in test
    ensures p.reason == StyleFile ==> p in style
    ensures p.reason == ModuleIndex ==> p in index
  {
  }

  // ---------------------------------------------------------------------
  // generateRuleBasedCommitMessage
  // ---------------------------------------------------------------------

  datatype CommitType = Feat | Fix | Refactor | Docs | Style | Chore

  function TypeName(t: CommitType): string {
    match t
    case Feat => "feat"
    case Fix => "fix"
    case Refactor => "refactor"
    case Docs => "docs"
    case Style => "style"
    case Chore => "chore"
  }

  /** The verb each type's message starts with. */
  function ActionVerb(t: CommitType): string {
    match t
    case Feat => "Add"
    case Fix => "Fix"
    case Refactor => "Refactor"
    case Docs | Style | Chore => "Update"
  }

  /** What the generator reads off the diff: the counts of added and
      removed lines, and whether each keyword family occurs (as a whole
      word, ignoring case). */
  datatype CommitSignals = CommitSignals(
    additions: nat, deletions: nat,
    featureWords: bool, fixWords: bool, refactorWords: bool, docsWords: bool, styleWords: bool)

  /** A file ending in `.md` or `.txt`, ignoring case. */
  predicate IsDocFile(f: string) {
    EndsWithIgnoreCase(f, ".md") || EndsWithIgnoreCase(f, ".txt")
  }

  /** A file ending in `.css`, `.scss` or `.less`, ignoring case. */
  predicate IsStyleFile(f: string) {
    EndsWithIgnoreCase(f, ".css") || EndsWithIgnoreCase(f, ".scss") || EndsWithIgnoreCase(f, ".less")
  }

  function AnyDocFile(files: seq<string>): (b: bool)
    ensures b <==> exists i :: 0 <= i < |files| && IsDocFile(files[i])
  {
    if files == [] then false
    else IsDocFile(files[0]) || (assert forall i :: 1 <= i < |files| ==> files[i] == files[1..][i - 1]; AnyDocFile(files[1..]))
  }

  function AnyStyleFile(files: seq<string>): (b: bool)
    ensures b <==> exists i :: 0 <= i < |files| && IsStyleFile(files[i])
  {
    if files == [] then false
    else IsStyleFile(files[0]) || (assert forall i :: 1 <= i < |files| ==> files[i] == files[1..][i - 1]; AnyStyleFile(files[1..]))
  }

  /** More than one and a half deletions per addition: `deletions >
      additions * 1.5` on integers. */
  predicate MostlyDeletions(sig: CommitSignals) {
    2 * sig.deletions > 3 * sig.additions
  }

  /** Whether the rule of type `t`, taken on its own, fires. */
  predicate Fires(t: CommitType, files: seq<string>, sig: CommitSignals) {
    match t
    case Feat => sig.featureWords
    case Fix => sig.fixWords
    case Refactor => MostlyDeletions(sig) || sig.refactorWords
    case Docs => AnyDocFile(files) || sig.docsWords
    case Style => AnyStyleFile(files) || sig.styleWords
    case Chore => true
  }

  /** The order in which the rules are tried. */
  function Precedence(t: CommitType): nat {
    match t
    case Feat => 0
    case Fix => 1
    case Refactor => 2
    case Docs => 3
    case Style => 4
    case Chore => 5
  }

  /** The type the if/else-if chain settles on. */
  function CommitTypeFor(files: seq<string>, sig: CommitSignals): CommitType {
    if sig.featureWords then Feat
    else if sig.fixWords then Fix
    else if MostlyDeletions(sig) || sig.refactorWords then Refactor
    else if AnyDocFile(files) || sig.docsWords then Docs
    else if AnyStyleFile(files) || sig.styleWords then Style
    else Chore
  }

  /** The chain picks the first rule, in precedence order, that fires: the
      type it picks fires and no rule before it does. */
  lemma CommitTypeIsFirstFired(files: seq<string>, sig: CommitSignals, t: CommitType)
    ensures CommitTypeFor(files, sig) == t <==>
              Fires(t, files, sig) &&
              forall u: CommitType :: Precedence(u) < Precedence(t) ==> !Fires(u, files, sig)
  {
    var r := CommitTypeFor(files, sig);
    assert Fires(r, files, sig);
    assert forall u: CommitType :: Precedence(u) < Precedence(r) ==> !Fires(u, files, sig);
    assert Precedence(r) == Precedence(t) ==> r == t;
  }

  /** The extensions the single-file scope drops. */
  predicate StrippedExtension(ext: string) {
    ext in {"js", "jsx", "ts", "tsx", "css", "scss", "vue", "py", "java", "go"}
  }

  /** A file name with a listed final extension removed (case-sensitive). */
  function ComponentName(fileName: string): string {
    if '.' in fileName && StrippedExtension(LastSegment(fileName, '.')) then AllButLastSegment(fileName, '.')
    else fileName
  }

  /** `name.ext` gives back `name` for a listed extension, whatever dots
      `name` has. */
  lemma ComponentNameStrips(name: string, ext: string)
    requires StrippedExtension(ext)
    ensures ComponentName(name + "." + ext) == name
  {
    assert '.' !in ext;
    assert name + "." + ext == name + ['.'] + ext;
    SegmentsOfJoin(name, '.', ext);
  }

  /** Every directory starts with `prefix` (as a string). */
  function AllStartWith(dirs: seq<string>, prefix: string): (b: bool)
    ensures b <==> forall i :: 0 <= i < |dirs| ==> StartsWith(dirs[i], prefix)
  {
    if dirs == [] then true
    else StartsWith(dirs[0], prefix) && (assert forall i :: 1 <= i < |dirs| ==> dirs[i] == dirs[1..][i - 1]; AllStartWith(dirs[1..], prefix))
  }

  /** The directory of each file, in order. */
  function Dirs(files: seq<string>): (r: seq<string>)
    ensures |r| == |files| && forall i :: 0 <= i < |files| ==> r[i] == Dirname(files[i])
  {
    if files == [] then [] else [Dirname(files[0])] + Dirs(files[1..])
  }

  /** The scope of a commit of several files: the last segment of the first
      file's directory when every directory starts with that directory as a
      string, else "multiple"; an empty segment also gives "multiple". */
  function MultiScope(files: seq<string>): (scope: string)
    requires |files| >= 1
    ensures scope != ""
    ensures scope == "multiple" || ('/' !in scope && EndsWith(Dirname(files[0]), scope))
  {
    var dirs := Dirs(files);
    var commonDir := dirs[0];
    if AllStartWith(dirs, commonDir) then
      (if LastSegment(commonDir, '/') != "" then LastSegment(commonDir, '/') else "multiple")
    else "multiple"
  }

  function CommitScope(files: seq<string>): string
    requires |files| >= 1
  {
    if |files| == 1 then ComponentName(Basename(files[0])) else MultiScope(files)
  }

  /** `type(scope): Action subject`, the parenthesised scope only when the
      scope is not empty; the subject is the scope for one file and the
      file count otherwise. */
  function CommitMessage(t: CommitType, scope: string, fileCount: nat): string {
    TypeName(t) + (if scope != "" then "(" + scope + ")" else "") + ": " + ActionVerb(t) + " " +
    (if fileCount == 1 then scope else NatToString(fileCount) + " files")
  }

  /** The if/else-if chain of the source, in which the first keyword
      family that occurs decides the type. */
  method DetermineType(files: seq<string>, sig: CommitSignals) returns (commitType: CommitType)
    ensures commitType == CommitTypeFor(files, sig)
  {
    commitType := Chore;
    if sig.featureWords {
      commitType := Feat;
    } else if sig.fixWords {
      commitType := Fix;
    } else if 2 * sig.deletions > 3 * sig.additions || sig.refactorWords {
      commitType := Refactor;
    } else if AnyDocFile(files) || sig.docsWords {
      commitType := Docs;
    } else if AnyStyleFile(files) || sig.styleWords {
      commitType := Style;
    }
  }

  /** The scope: the component name for one file, else the common
      directory's last segment or "multiple". */
  method DetermineScope(files: seq<string>) returns (scope: string)
    requires |files| >= 1
    ensures scope == CommitScope(files)
  {
    if |files| == 1 {
      scope := ComponentName(Basename(files[0]));
    } else {
      var dirs := Dirs(files);
      var commonDir := dirs[0];
      if AllStartWith(dirs, commonDir) {
        scope := LastSegment(commonDir, '/');
        if scope == "" {
          scope := "multiple";
        }
      } else {
        scope := "multiple";
      }
    }
  }

  /** The first fired rule decides the type and the verb, the file paths
      decide the scope. An empty file list makes the source throw. */
  method GenerateRuleBasedCommitMessage(files: seq<string>, sig: CommitSignals) returns (msg: string)
    requires |files| >= 1
    ensures msg == CommitMessage(CommitTypeFor(files, sig), CommitScope(files), |files|)
  {
    var commitType := DetermineType(files, sig);
    var action := ActionVerb(commitType);
    var scope := DetermineScope(files);
    var scopePart := if scope != "" then "(" + scope + ")" else "";
    if |files| == 1 {
      msg := TypeName(commitType) + scopePart + ": " + action + " " + scope;
    } else {
      msg := TypeName(commitType) + scopePart + ": " + action + " " + NatToString(|files|) + " files";
    }
  }

  /** Only the first file's directory is the candidate scope, and the test
      is a string prefix, not a path prefix: `a` is taken as the scope of
      files in `a` and `ab`. */
  lemma ScopeIsStringPrefix(x: string, y: string)
    requires '/' !in x && '/' !in y
    ensures MultiScope(["a/" + x, "ab/" + y]) == "a"
  {
    TwoDirs(x, y);
    assert StartsWith("a", "a") && StartsWith("ab", "a");
    assert LastSegment("a", '/') == "a";
  }

  lemma TwoDirs(x: string, y: string)
    requires '/' !in x && '/' !in y
    ensures Dirs(["a/" + x, "ab/" + y]) == ["a", "ab"]
  {
    assert "a/" + x == "a" + ['/'] + x;
    assert "ab/" + y == "ab" + ['/'] + y;
    SegmentsOfJoin("a", '/', x);
    SegmentsOfJoin("ab", '/', y);
  }

  // ---------------------------------------------------------------------
  // generateRuleBasedReview
  // ---------------------------------------------------------------------

  /** What the review reads off the diff. */
  datatype ReviewSignals = ReviewSignals(
    consoleLog: bool, debugger: bool, todo: bool, longLines: nat,
    looseNull: bool, varDeclaration: bool, tests: bool, jsDoc: bool)

  datatype Suggestion = BreakLongLines | PreferLetConst | PraiseTests | PraiseDocs

  function SuggestionText(s: Suggestion): string {
    match s
    case BreakLongLines => "Consider breaking long lines for better readability"
    case PreferLetConst => "Consider using let/const instead of var"
    case PraiseTests => "Great job including tests! \U{2705}"
    case PraiseDocs => "Good documentation with JSDoc comments! \U{1F4DD}"
  }

  datatype Review = Review(score: int, issues: seq<Issue>, suggestions: seq<Suggestion>, summary: string)

  /** `[x]` when `c` holds, else nothing. */
  function When<T>(c: bool, x: T): seq<T> {
    if c then [x] else []
  }

  /** `k` when `c` holds, else 0. */
  function IfThen(c: bool, k: int): int {
    if c then k else 0
  }

  function ReviewIssues(sig: ReviewSignals): seq<Issue> {
    When(sig.consoleLog, Issue(Warning, ConsoleLog)) +
    When(sig.debugger, Issue(Warning, DebuggerStatement)) +
    When(sig.todo, Issue(Info, TodoComments)) +
    When(sig.longLines > 5, Issue(Info, LongLines(sig.longLines))) +
    When(sig.looseNull, Issue(Warning, LooseNullEquality))
  }

  function ReviewSuggestions(sig: ReviewSignals): seq<Suggestion> {
    When(sig.longLines > 5, BreakLongLines) +
    When(sig.varDeclaration, PreferLetConst) +
    When(sig.tests, PraiseTests) +
    When(sig.jsDoc, PraiseDocs)
  }

  /** Twice the score before rounding: 8 with steps of a half and of one. */
  function DoubledScore(sig: ReviewSignals): int {
    16 - IfThen(sig.consoleLog, 1) - IfThen(sig.debugger, 2) - IfThen(sig.longLines > 5, 1)
       - IfThen(sig.looseNull, 2) - IfThen(sig.varDeclaration, 1)
       + IfThen(sig.tests, 1) + IfThen(sig.jsDoc, 1)
  }

  /** Rounding half of `twice` to the nearest integer, halves upwards. */
  function RoundHalf(twice: int): (r: int)
    ensures twice <= 2 * r <= twice + 1
  {
    (twice + 1) / 2
  }

  function Clamp(lo: int, hi: int, x: int): (r: int)
    requires lo <= hi
    ensures lo <= r <= hi
    ensures lo <= x <= hi ==> r == x
    ensures x < lo ==> r == lo
    ensures x > hi ==> r == hi
  {
    if x < lo then lo else if x > hi then hi else x
  }

  function ReviewSummary(issueCount: nat, suggestionCount: nat): string {
    "Code review complete. " + NatToString(issueCount) + " issue(s) found. " +
    NatToString(suggestionCount) + " suggestion(s)."
  }

  /** The checks for common issues, from a score of 8 (16 halves). */
  method CommonIssueChecks(sig: ReviewSignals) returns (issues: seq<Issue>, suggestions: seq<Suggestion>, twice: int)
    ensures issues == When(sig.consoleLog, Issue(Warning, ConsoleLog)) +
                      When(sig.debugger, Issue(Warning, DebuggerStatement)) +
                      When(sig.todo, Issue(Info, TodoComments)) +
                      When(sig.longLines > 5, Issue(Info, LongLines(sig.longLines)))
    ensures suggestions == When(sig.longLines > 5, BreakLongLines)
    ensures twice == 16 - IfThen(sig.consoleLog, 1) - IfThen(sig.debugger, 2) - IfThen(sig.longLines > 5, 1)
  {
    issues, suggestions, twice := [], [], 16;
    if sig.consoleLog {
      issues := issues + [Issue(Warning, ConsoleLog)];
      twice := twice - 1;
    }
    assert issues == When(sig.consoleLog, Issue(Warning, ConsoleLog));
    ghost var before := issues;
    if sig.debugger {
      issues := issues + [Issue(Warning, DebuggerStatement)];
      twice := twice - 2;
    }
    assert issues == before + When(sig.debugger, Issue(Warning, DebuggerStatement));
    before := issues;
    if sig.todo {
      issues := issues + [Issue(Info, TodoComments)];
    }
    assert issues == before + When(sig.todo, Issue(Info, TodoComments));
    before := issues;
    if sig.longLines > 5 {
      issues := issues + [Issue(Info, LongLines(sig.longLines))];
      suggestions := suggestions + [BreakLongLines];
      twice := twice - 1;
    }
    assert issues == before + When(sig.longLines > 5, Issue(Info, LongLines(sig.longLines)));
  }

  /** The checks for potential errors: loose null equality and `var`. */
  method PotentialErrorChecks(sig: ReviewSignals, issues0: seq<Issue>, suggestions0: seq<Suggestion>, twice0: int)
    returns (issues: seq<Issue>, suggestions: seq<Suggestion>, twice: int)
    ensures issues == issues0 + When(sig.looseNull, Issue(Warning, LooseNullEquality))
    ensures suggestions == suggestions0 + When(sig.varDeclaration, PreferLetConst)
    ensures twice == twice0 - IfThen(sig.looseNull, 2) - IfThen(sig.varDeclaration, 1)
  {
    issues, suggestions, twice := issues0, suggestions0, twice0;
    if sig.looseNull {
      issues := issues + [Issue(Warning, LooseNullEquality)];
      twice := twice - 2;
    }
    if sig.varDeclaration {
      suggestions := suggestions + [PreferLetConst];
      twice := twice - 1;
    }
  }

  /** Positive feedback for tests and for JSDoc comments. */
  method PositiveFeedback(sig: ReviewSignals, suggestions0: seq<Suggestion>, twice0: int)
    returns (suggestions: seq<Suggestion>, twice: int)
    ensures suggestions == suggestions0 + When(sig.tests, PraiseTests) + When(sig.jsDoc, PraiseDocs)
    ensures twice == twice0 + IfThen(sig.tests, 1) + IfThen(sig.jsDoc, 1)
  {
    suggestions, twice := suggestions0, twice0;
    if sig.tests {
      suggestions := suggestions + [PraiseTests];
      twice := twice + 1;
    }
    assert suggestions == suggestions0 + When(sig.tests, PraiseTests);
    if sig.jsDoc {
      suggestions := suggestions + [PraiseDocs];
      twice := twice + 1;
    }
  }

  /** The review: each matching check pushes its issue or suggestion and
      moves the score, which is then rounded and clamped to [1, 10]. */
  method GenerateRuleBasedReview(sig: ReviewSignals) returns (review: Review)
    ensures review.issues == ReviewIssues(sig)
    ensures review.suggestions == ReviewSuggestions(sig)
    ensures review.score == Clamp(1, 10, RoundHalf(DoubledScore(sig)))
    ensures review.summary == ReviewSummary(|ReviewIssues(sig)|, |ReviewSuggestions(sig)|)
  {
    var issues, suggestions, twice := CommonIssueChecks(sig);
    issues, suggestions, twice := PotentialErrorChecks(sig, issues, suggestions, twice);
    suggestions, twice := PositiveFeedback(sig, suggestions, twice);
    assert issues == ReviewIssues(sig);
    assert suggestions == ReviewSuggestions(sig);
    assert twice == DoubledScore(sig);
    review := Review(Clamp(1, 10, RoundHalf(twice)), issues, suggestions, ReviewSummary(|issues|, |suggestions|));
  }

  /** The doubled score stays within [9, 18], so the rounded score is
      between 5 and 9 and the clamp never acts. */
  lemma ReviewScoreRange(sig: ReviewSignals)
    ensures 9 <= DoubledScore(sig) <= 18
    ensures 5 <= RoundHalf(DoubledScore(sig)) <= 9
    ensures Clamp(1, 10, RoundHalf(DoubledScore(sig))) == RoundHalf(DoubledScore(sig))
  {
  }

  /** One issue per check that matched, and one suggestion per rule that
      gives one. */
  lemma ReviewCounts(sig: ReviewSignals)
    ensures |ReviewIssues(sig)| ==
              IfThen(sig.consoleLog, 1) + IfThen(sig.debugger, 1) + IfThen(sig.todo, 1) +
              IfThen(sig.longLines > 5, 1) + IfThen(sig.looseNull, 1)
    ensures |ReviewSuggestions(sig)| ==
              IfThen(sig.longLines > 5, 1) + IfThen(sig.varDeclaration, 1) + IfThen(sig.tests, 1) + IfThen(sig.jsDoc, 1)
  {
  }
}
