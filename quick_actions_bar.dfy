/** The quick-actions bar: the actions offered for the open file and its
    git status, and the order in which the bar shows them. */
module QuickActionsBar {
  import opened Wrappers
  import opened Strings
  import opened Seqs
  import StableSort

  datatype ActionId = CommitCurrent | ReviewChanges | AnalyzeComplexity | CreateTest | AiSuggest

  datatype Priority = High | Medium | Low

  /** An offered action: what it does, how urgent it is, and the file its
      click hands to `onAction`. */
  datatype Action = Action(id: ActionId, priority: Priority, file: string)

  /** The git status prop; `modified` is `None` when the list is missing. */
  datatype GitStatus = GitStatus(modified: Option<seq<string>>)

  /** The first argument `onAction` receives. */
  function Command(id: ActionId): string {
    match id
    case CommitCurrent => "commit"
    case ReviewChanges => "review"
    case AnalyzeComplexity => "analyze"
    case CreateTest => "create-test"
    case AiSuggest => "ai-suggest"
  }

  /** Each action hands `onAction` its own command, so the handler can
      tell the actions apart. */
  lemma CommandsDistinct(x: ActionId, y: ActionId)
    ensures Command(x) == Command(y) <==> x == y
  {
  }

  /** The priority table of the sort comparator. */
  function Weight(p: Priority): int {
    match p
    case High => 3
    case Medium => 2
    case Low => 1
  }

  function ActionWeight(a: Action): int {
    Weight(a.priority)
  }

  /** The position of each action in generation order. */
  function Rank(id: ActionId): nat {
    match id
    case CommitCurrent => 0
    case ReviewChanges => 1
    case AnalyzeComplexity => 2
    case CreateTest => 3
    case AiSuggest => 4
  }

  /** The priority each action is generated with. */
  function PriorityOf(id: ActionId): Priority {
    match id
    case CommitCurrent => High
    case ReviewChanges => High
    case AnalyzeComplexity => Medium
    case CreateTest => Low
    case AiSuggest => Medium
  }

  /** The open file ("" when none) is in the status's modified list. */
  predicate IsModified(file: string, git: Option<GitStatus>) {
    git.Some? && file != "" && git.value.modified.Some? && file in git.value.modified.value
  }

  /** The extensions the analyser and the test generator handle. */
  predicate IsCodeExtension(ext: string) {
    ext in ["jsx", "tsx", "js", "ts", "py", "java", "go"]
  }

  predicate IsTestPath(file: string) {
    Contains(file, ".test.") || Contains(file, ".spec.")
  }

  /** What the rules look at: a file is open, it is modified, it has a
      code extension, it is a test file. */
  datatype Facts = Facts(present: bool, modified: bool, code: bool, test: bool)

  function FactsOf(file: string, git: Option<GitStatus>): Facts {
    Facts(file != "", IsModified(file, git), IsCodeExtension(Extension(file)), IsTestPath(file))
  }

  /** The git rule: commit and review a modified file. */
  function GitRule(f: Facts, file: string): seq<Action> {
    if f.modified then [Action(CommitCurrent, High, file), Action(ReviewChanges, High, file)] else []
  }

  /** The file rule: analyse code, and write a test for code that is not
      a test itself. */
  function FileRule(f: Facts, file: string): seq<Action> {
    if f.present && f.code then
      [Action(AnalyzeComplexity, Medium, file)] + (if !f.test then [Action(CreateTest, Low, file)] else [])
    else []
  }

  /** The suggestion rule: any open file. */
  function SuggestRule(f: Facts, file: string): seq<Action> {
    if f.present then [Action(AiSuggest, Medium, file)] else []
  }

  function ActionsFor(f: Facts, file: string): seq<Action> {
    GitRule(f, file) + FileRule(f, file) + SuggestRule(f, file)
  }

  /** The actions for a file, rule by rule. */
  function Actions(file: string, git: Option<GitStatus>): seq<Action> {
    ActionsFor(FactsOf(file, git), file)
  }

  /** The ids of a list of actions, in order. */
  function Ids(actions: seq<Action>): (r: seq<ActionId>)
    ensures |r| == |actions| && forall i :: 0 <= i < |r| ==> r[i] == actions[i].id
  {
    if actions == [] then [] else [actions[0].id] + Ids(actions[1..])
  }

  /** `generateActions`, pushing one rule at a time. */
  method GenerateActions(file: string, git: Option<GitStatus>) returns (actions: seq<Action>)
    ensures actions == Actions(file, git)
  {
    ghost var f := FactsOf(file, git);
    actions := [];
    if IsModified(file, git) {
      actions := actions + [Action(CommitCurrent, High, file)];
      actions := actions + [Action(ReviewChanges, High, file)];
    }
    assert actions == GitRule(f, file);
    ghost var before := actions;
    if file != "" {
      var ext := Extension(file);
      if IsCodeExtension(ext) {
        actions := actions + [Action(AnalyzeComplexity, Medium, file)];
        if !IsTestPath(file) {
          actions := actions + [Action(CreateTest, Low, file)];
        }
      }
    }
    assert actions == before + FileRule(f, file);
    before := actions;
    if file != "" {
      actions := actions + [Action(AiSuggest, Medium, file)];
    }
    assert actions == before + SuggestRule(f, file);
  }

  /** Which actions are offered, and how. */
  lemma ActionRules(file: string, git: Option<GitStatus>)
    ensures var ids := Ids(Actions(file, git));
            (CommitCurrent in ids <==> IsModified(file, git)) &&
            (ReviewChanges in ids <==> IsModified(file, git)) &&
            (AnalyzeComplexity in ids <==> file != "" && IsCodeExtension(Extension(file))) &&
            (CreateTest in ids <==> file != "" && IsCodeExtension(Extension(file)) && !IsTestPath(file)) &&
            (AiSuggest in ids <==> file != "")
    ensures file == "" ==> Actions(file, git) == []
  {
    RulesFor(FactsOf(file, git), file);
  }

  lemma RulesFor(f: Facts, file: string)
    ensures var ids := Ids(ActionsFor(f, file));
            (CommitCurrent in ids <==> f.modified) &&
            (ReviewChanges in ids <==> f.modified) &&
            (AnalyzeComplexity in ids <==> f.present && f.code) &&
            (CreateTest in ids <==> f.present && f.code && !f.test) &&
            (AiSuggest in ids <==> f.present)
    ensures !f.present && !f.modified ==> ActionsFor(f, file) == []
  {
    IdsFor(f, file);
    IdListMembers(f);
  }

  lemma IdListMembers(f: Facts)
    ensures var ids := IdList(f);
            (CommitCurrent in ids <==> f.modified) &&
            (ReviewChanges in ids <==> f.modified) &&
            (AnalyzeComplexity in ids <==> f.present && f.code) &&
            (CreateTest in ids <==> f.present && f.code && !f.test) &&
            (AiSuggest in ids <==> f.present)
  {
    var git := if f.modified then [CommitCurrent, ReviewChanges] else [];
    var code := if f.present && f.code then [AnalyzeComplexity] + (if !f.test then [CreateTest] else []) else [];
    var suggest := if f.present then [AiSuggest] else [];
    assert IdList(f) == git + code + suggest;
    forall id
      ensures id in IdList(f) <==> id in git || id in code || id in suggest
    {
    }
  }

  /** The ids the rules produce for the given facts, in order. */
  function IdList(f: Facts): seq<ActionId> {
    (if f.modified then [CommitCurrent, ReviewChanges] else []) +
    (if f.present && f.code then [AnalyzeComplexity] + (if !f.test then [CreateTest] else []) else []) +
    (if f.present then [AiSuggest] else [])
  }

  lemma IdsFor(f: Facts, file: string)
    ensures Ids(ActionsFor(f, file)) == IdList(f)
  {
    var git, code, suggest := GitRule(f, file), FileRule(f, file), SuggestRule(f, file);
    IdsAppend(git, code);
    IdsAppend(git + code, suggest);
    assert Ids(git) == (if f.modified then [CommitCurrent, ReviewChanges] else []);
    assert Ids(code) == (if f.present && f.code then [AnalyzeComplexity] + (if !f.test then [CreateTest] else []) else []);
    assert Ids(suggest) == (if f.present then [AiSuggest] else []);
  }

  lemma {:induction false} IdsAppend(a: seq<Action>, b: seq<Action>)
    ensures Ids(a + b) == Ids(a) + Ids(b)
  {
  }

  /** At most five actions, in generation order (so no id twice), each
      with its fixed priority and the file it was made for. */
  lemma ActionsShape(file: string, git: Option<GitStatus>)
    ensures var r := Actions(file, git);
            |r| <= 5 &&
            (forall i, j :: 0 <= i < j < |r| ==> Rank(r[i].id) < Rank(r[j].id)) &&
            (forall i :: 0 <= i < |r| ==> r[i].priority == PriorityOf(r[i].id) && r[i].file == file)
  {
    ShapeFor(FactsOf(file, git), file);
  }

  lemma ShapeFor(f: Facts, file: string)
    ensures var r := ActionsFor(f, file);
            |r| <= 5 &&
            (forall i, j :: 0 <= i < j < |r| ==> Rank(r[i].id) < Rank(r[j].id)) &&
            (forall i :: 0 <= i < |r| ==> r[i].priority == PriorityOf(r[i].id) && r[i].file == file)
  {
  }

  /** What the expanded bar shows: the actions by falling priority, ties in
      generation order, at most five; all of them, since there are at most
      five. */
  function Shown(actions: seq<Action>): seq<Action> {
    Take(StableSort.Sort(actions, ActionWeight), 5)
  }

  lemma ShownOrder(file: string, git: Option<GitStatus>, p: Priority)
    ensures var generated := Actions(file, git);
            var shown := Shown(generated);
            StableSort.SortedDesc(shown, ActionWeight) &&
            multiset(shown) == multiset(generated) &&
            StableSort.WithKey(shown, ActionWeight, Weight(p)) == StableSort.WithKey(generated, ActionWeight, Weight(p))
  {
    var generated := Actions(file, git);
    ActionsShape(file, git);
    StableSort.SortStable(generated, ActionWeight, Weight(p));
  }

  /** For a modified source file every rule fires: commit, review,
      analyze, create test, AI suggestions. */
  lemma ModifiedSourceFile()
    ensures Actions("a.js", Some(GitStatus(Some(["a.js"])))) ==
            [Action(CommitCurrent, High, "a.js"), Action(ReviewChanges, High, "a.js"),
             Action(AnalyzeComplexity, Medium, "a.js"), Action(CreateTest, Low, "a.js"),
             Action(AiSuggest, Medium, "a.js")]
  {
    ModifiedSourceFacts();
  }

  lemma ModifiedSourceFacts()
    ensures FactsOf("a.js", Some(GitStatus(Some(["a.js"])))) == Facts(true, true, true, false)
  {
    var file := "a.js";
    assert Extension(file) == "js" by {
      SegmentsOfJoin("a", '.', "js");
      assert file == "a" + ['.'] + "js";
    }
    ShortIsNotTest(file);
  }

  /** A path shorter than `.test.` cannot be a test path. */
  lemma ShortIsNotTest(file: string)
    requires |file| < 6
    ensures !IsTestPath(file)
  {
    ShortLacks(file, ".test.");
    ShortLacks(file, ".spec.");
  }

  /** The bar's state: the generated list, which rendering sorts in place,
      and whether the bar is expanded. */
  class Bar {
    var actions: seq<Action>
    var isExpanded: bool

    constructor()
      ensures actions == [] && isExpanded
    {
      actions := [];
      isExpanded := true;
    }

    /** The effect on a new file or git status. */
    method Refresh(file: string, git: Option<GitStatus>)
      modifies this
      ensures actions == Actions(file, git)
      ensures isExpanded == old(isExpanded)
    {
      var generated := GenerateActions(file, git);
      SetActions(generated);
    }

    /** The `actions` state setter. */
    method SetActions(generated: seq<Action>)
      modifies this
      ensures actions == generated && isExpanded == old(isExpanded)
    {
      actions := generated;
    }

    /** Rendering: nothing for an empty list, only the toggle when
        collapsed, otherwise the list is sorted in place and its first
        five are shown. */
    method Render() returns (shown: Option<seq<Action>>)
      modifies this
      ensures isExpanded == old(isExpanded)
      ensures old(actions) == [] ==> shown == None && actions == old(actions)
      ensures old(actions) != [] && !isExpanded ==> shown == Some([]) && actions == old(actions)
      ensures old(actions) != [] && isExpanded ==>
                actions == StableSort.Sort(old(actions), ActionWeight) && shown == Some(Shown(old(actions)))
    {
      if actions == [] {
        return None;
      }
      if !isExpanded {
        return Some([]);
      }
      actions := StableSort.Sort(actions, ActionWeight);
      shown := Some(Take(actions, 5));
    }

    method SetExpanded(expanded: bool)
      modifies this
      ensures isExpanded == expanded && actions == old(actions)
    {
      isExpanded := expanded;
    }
  }

  /** Sorting the state array on every render changes nothing after the
      first: the shown list is the same each time. */
  lemma RenderAgain(actions: seq<Action>)
    ensures Shown(StableSort.Sort(actions, ActionWeight)) == Shown(actions)
  {
    StableSort.SortIdempotent(actions, ActionWeight);
  }

  /** A click hands `onAction` the action's command and its file. */
  function Click(a: Action): (r: (string, string))
    ensures r.0 == Command(a.id) && r.1 == a.file
  {
    (Command(a.id), a.file)
  }
}
