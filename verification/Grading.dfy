/** Turning a worker result into a verdict (src/benchmark/grading.ts). */
module Grading {
  import opened BenchTypes
  import opened CommandGrader
  import opened Report

  /** `text.includes(part)`. */
  predicate Includes(text: string, part: string) {
    part <= text || (text != [] && Includes(text[1..], part))
  }

  predicate StandsAt(part: string, text: string, i: int) { 0 <= i && i + |part| <= |text| && text[i..i + |part|] == part }

  /** `part` stands somewhere in `text`. */
  ghost predicate Occurs(part: string, text: string) { exists i :: StandsAt(part, text, i) }

  lemma {:induction false} IncludesMeans(text: string, part: string)
    ensures Includes(text, part) <==> Occurs(part, text)
  {
    if part <= text {
      assert StandsAt(part, text, 0);
    } else {
      assert !StandsAt(part, text, 0);
      if text != [] {
        IncludesMeans(text[1..], part);
        StandsLater(part, text);
      }
    }
  }

  lemma StandsLater(part: string, text: string)
    requires text != [] && !StandsAt(part, text, 0)
    ensures Occurs(part, text) <==> Occurs(part, text[1..])
  {
    if Occurs(part, text[1..]) {
      var i :| StandsAt(part, text[1..], i);
      assert text[i + 1..i + 1 + |part|] == text[1..][i..i + |part|];
      assert StandsAt(part, text, i + 1);
    }
    if Occurs(part, text) {
      var i :| StandsAt(part, text, i);
      assert text[1..][i - 1..i - 1 + |part|] == text[i..i + |part|];
      assert StandsAt(part, text[1..], i - 1);
    }
  }

  /** What an assertion asks, said of the output, the texts of the final files and the end of its command. */
  ghost predicate Asks(a: Assertion, output: string, texts: map<string, Option<string>>, command: Option<CommandEvidence>) {
    match a
    case Equals(value) => output == value
    case Contains(value) => Occurs(value, output)
    case FileExists(path) => path in texts
    case FileEquals(path, value) => path in texts && texts[path] == Some(value)
    case FileContains(path, value) => path in texts && texts[path].Some? && Occurs(value, texts[path].value)
    case Command(_, _, expected) => command.Some? && command.value.status.CommandCompleted? && command.value.exitCode == Some(expected)
  }

  function PathOf(a: Assertion): Option<string> {
    match a
    case FileExists(path) => Some(path)
    case FileEquals(path, _) => Some(path)
    case FileContains(path, _) => Some(path)
    case _ => None
  }

  predicate NeedsWorkspaceGrading(item: Case) {
    exists i :: 0 <= i < |item.assertions| && !item.assertions[i].Equals? && !item.assertions[i].Contains?
  }

  predicate OutputPasses(a: Assertion, output: string) {
    match a
    case Equals(value) => output == value
    case Contains(value) => Includes(output, value)
    case _ => false
  }

  function OutputResults(assertions: seq<Assertion>, output: string): (r: seq<AssertionResult>)
    ensures |r| == |assertions|
    ensures forall i :: 0 <= i < |r| ==> r[i] == AssertionResult(KindOf(assertions[i]), OutputPasses(assertions[i], output), None, None)
  {
    if assertions == [] then []
    else
      [AssertionResult(KindOf(assertions[0]), OutputPasses(assertions[0], output), None, None)] + OutputResults(assertions[1..], output)
  }

  /** `gradeBenchmarkResult`: grading from the output alone. */
  function GradeResult(item: Case, result: WorkerResult): Grade {
    if TaskEnded(result.status) then Grade(Fail, [], None, None)
    else if !Confirmed(result) then Grade(Unscored, [], None, None)
    else if NeedsWorkspaceGrading(item) then Grade(Unscored, [], Some(WorkspaceGradingRequired), None)
    else
      var results := OutputResults(item.assertions, result.output);
      Grade(if results != [] && AllPassed(results) then Pass else Fail, results, None, None)
  }

  /** A case as the suite loader admits it. */
  predicate CaseLoaded(item: Case) { 1 <= |item.assertions| <= 64 }

  /** The result names its assertion and says whether what it asks holds. */
  ghost predicate Reports(r: AssertionResult, a: Assertion, output: string, texts: map<string, Option<string>>) {
    r.kind == KindOf(a) && r.path == PathOf(a) && (r.passed <==> Asks(a, output, texts, r.command))
  }

  /**
   * A case graded from its output alone: every assertion is reported in order, and it passes exactly when the output is
   * what each of them asks for.
   */
  lemma GradeResultMeans(item: Case, result: WorkerResult)
    requires CaseLoaded(item) && Confirmed(result) && !NeedsWorkspaceGrading(item)
    ensures
      var g := GradeResult(item, result);
      && |g.assertions| == |item.assertions|
      && (forall i :: 0 <= i < |item.assertions| ==> Reports(g.assertions[i], item.assertions[i], result.output, map[]))
      && (g.verdict.Pass? <==> forall i :: 0 <= i < |item.assertions| ==> Asks(item.assertions[i], result.output, map[], None))
      && (g.verdict.Pass? || g.verdict.Fail?)
  {
    var results := OutputResults(item.assertions, result.output);
    forall i | 0 <= i < |item.assertions|
      ensures Reports(results[i], item.assertions[i], result.output, map[]) && results[i].command.None?
    {
      assert item.assertions[i].Equals? || item.assertions[i].Contains?;
      if item.assertions[i].Contains? { IncludesMeans(result.output, item.assertions[i].value); }
    }
    assert AllPassed(results) <==> forall i :: 0 <= i < |item.assertions| ==> results[i].passed;
  }

  lemma GradeResultSound(item: Case, result: WorkerResult)
    requires CaseLoaded(item)
    ensures GradeSound(GradeResult(item, result), result)
    ensures forall i :: 0 <= i < |GradeResult(item, result).assertions| ==> !NeedsWorkspace(GradeResult(item, result).assertions[i])
    ensures GradeResult(item, result).verdict.Pass? <==>
      Confirmed(result) && forall i :: 0 <= i < |item.assertions| ==> OutputPasses(item.assertions[i], result.output)
  {
    if Confirmed(result) {
      var results := OutputResults(item.assertions, result.output);
      if NeedsWorkspaceGrading(item) {
        var i :| 0 <= i < |item.assertions| && !item.assertions[i].Equals? && !item.assertions[i].Contains?;
        assert !OutputPasses(item.assertions[i], result.output);
      } else {
        assert forall i :: 0 <= i < |results| ==> results[i].passed == OutputPasses(item.assertions[i], result.output);
      }
    }
  }

  // ---------------------------------------------------------------- grading the workspace

  /** The decoded text of every file of the final workspace; no text when it is not readable text. */
  type Texts = map<string, Option<string>>

  /** What the environment does at one assertion: whether the run is aborted by then, and how its command ends. */
  datatype GraderStep = GraderStep(aborted: bool, command: CommandGrade)

  ghost predicate EnvironmentKeepsContract(item: Case, steps: seq<GraderStep>) {
    && |steps| == |item.assertions|
    && forall i :: 0 <= i < |steps| && item.assertions[i].Command? ==>
         CommandContract(steps[i].command, item.assertions[i].expectedExitCode)
  }

  predicate FilePasses(texts: Texts, path: string, value: string, whole: bool) {
    path in texts && texts[path].Some? && (if whole then texts[path].value == value else Includes(texts[path].value, value))
  }

  /** One assertion that needs no process. */
  function Check(a: Assertion, output: string, texts: Texts): AssertionResult
    requires !a.Command?
  {
    match a
    case Equals(value) => AssertionResult(EqualsKind, output == value, None, None)
    case Contains(value) => AssertionResult(ContainsKind, Includes(output, value), None, None)
    case FileExists(path) => AssertionResult(FileExistsKind, path in texts, Some(path), None)
    case FileEquals(path, value) => AssertionResult(FileEqualsKind, FilePasses(texts, path, value, true), Some(path), None)
    case FileContains(path, value) => AssertionResult(FileContainsKind, FilePasses(texts, path, value, false), Some(path), None)
  }

  function ResultAt(item: Case, output: string, texts: Texts, steps: seq<GraderStep>, i: nat): AssertionResult
    requires i < |item.assertions| == |steps|
  {
    if item.assertions[i].Command? then steps[i].command.assertion else Check(item.assertions[i], output, texts)
  }

  /** Every result, of whatever kind, reports its assertion; commands do by their contract. */
  lemma ResultReports(item: Case, output: string, texts: Texts, steps: seq<GraderStep>, i: nat)
    requires EnvironmentKeepsContract(item, steps) && i < |item.assertions|
    ensures Reports(ResultAt(item, output, texts, steps, i), item.assertions[i], output, texts)
  {
    match item.assertions[i]
    case Equals(_) =>
    case Contains(value) => IncludesMeans(output, value);
    case FileExists(_) =>
    case FileEquals(_, _) =>
    case FileContains(path, value) => if path in texts && texts[path].Some? { IncludesMeans(texts[path].value, value); }
    case Command(_, _, _) =>
  }

  predicate CommandUnusable(g: CommandGrade) { g.error.Some? || !g.terminationConfirmed }

  /** Grading stops at an assertion when the run is aborted there or its command cannot be trusted. */
  predicate StopsAt(item: Case, steps: seq<GraderStep>, i: nat)
    requires i < |item.assertions| == |steps|
  {
    steps[i].aborted || (item.assertions[i].Command? && CommandUnusable(steps[i].command))
  }

  function Stopped(item: Case, output: string, texts: Texts, steps: seq<GraderStep>, i: nat, before: seq<AssertionResult>): Grade
    requires i < |item.assertions| == |steps|
  {
    var c := steps[i].command;
    if steps[i].aborted then Grade(Unscored, before, Some(GraderCancelled), Some(true))
    else Grade(Unscored, before + [ResultAt(item, output, texts, steps, i)], if c.error.Some? then c.error else Some(GraderUnconfirmed), Some(c.terminationConfirmed))
  }

  /** The grade from assertion `i` on, given the results before it. */
  function GradeFrom(item: Case, output: string, texts: Texts, steps: seq<GraderStep>, i: nat, before: seq<AssertionResult>): Grade
    requires i <= |item.assertions| == |steps|
    decreases |item.assertions| - i
  {
    if i == |item.assertions| then Grade(if before != [] && AllPassed(before) then Pass else Fail, before, None, Some(true))
    else if StopsAt(item, steps, i) then Stopped(item, output, texts, steps, i, before)
    else GradeFrom(item, output, texts, steps, i + 1, before + [ResultAt(item, output, texts, steps, i)])
  }

  function WorkspaceGrade(item: Case, result: WorkerResult, texts: Texts, steps: seq<GraderStep>): Grade
    requires |item.assertions| == |steps|
  {
    if Confirmed(result) then GradeFrom(item, result.output, texts, steps, 0, []) else GradeResult(item, result)
  }

  /** `gradeBenchmarkWorkspace`, with its early returns. */
  method GradeWorkspace(item: Case, result: WorkerResult, texts: Texts, steps: seq<GraderStep>) returns (grade: Grade)
    requires |item.assertions| == |steps|
    ensures grade == WorkspaceGrade(item, result, texts, steps)
  {
    if result.status != Completed || !result.terminationConfirmed {
      return GradeResult(item, result);
    }
    var assertions: seq<AssertionResult> := [];
    for i := 0 to |item.assertions|
      invariant WorkspaceGrade(item, result, texts, steps) == GradeFrom(item, result.output, texts, steps, i, assertions)
    {
      if steps[i].aborted {
        return Grade(Unscored, assertions, Some(GraderCancelled), Some(true));
      }
      match item.assertions[i]
      case Command(_, _, _) =>
        var outcome := steps[i].command;
        assertions := assertions + [outcome.assertion];
        if outcome.error.Some? || !outcome.terminationConfirmed {
          return Grade(Unscored, assertions, if outcome.error.Some? then outcome.error else Some(GraderUnconfirmed), Some(outcome.terminationConfirmed));
        }
      case assertion =>
        assertions := assertions + [Check(assertion, result.output, texts)];
    }
    return Grade(if assertions != [] && AllPassed(assertions) then Pass else Fail, assertions, None, Some(true));
  }

  /** The results before assertion `i`, none of which stopped the grading. */
  ghost predicate ResultsBefore(item: Case, output: string, texts: Texts, steps: seq<GraderStep>, i: nat, before: seq<AssertionResult>)
    requires i <= |item.assertions| == |steps|
  {
    && |before| == i
    && forall k :: 0 <= k < i ==> !StopsAt(item, steps, k) && before[k] == ResultAt(item, output, texts, steps, k)
  }

  /** Evidence that needs nothing of the grade it ends up in. */
  predicate Standalone(a: AssertionResult) {
    EvidenceMatchesKind(a) && (a.command.Some? ==> CommandSound(a, Grade(Pass, [], None, Some(true))))
  }

  lemma ResultSettled(item: Case, output: string, texts: Texts, steps: seq<GraderStep>, i: nat)
    requires EnvironmentKeepsContract(item, steps) && i < |steps| && !StopsAt(item, steps, i)
    ensures Standalone(ResultAt(item, output, texts, steps, i))
  {}

  /** The grade is always one the report accepts beside captured evidence; it passes only when every check did. */
  lemma {:induction false} GradeFromSound(item: Case, result: WorkerResult, texts: Texts, steps: seq<GraderStep>, i: nat, before: seq<AssertionResult>)
    requires CaseLoaded(item) && EnvironmentKeepsContract(item, steps) && Confirmed(result)
    requires i <= |item.assertions| && ResultsBefore(item, result.output, texts, steps, i, before)
    ensures
      var g := GradeFrom(item, result.output, texts, steps, i, before);
      && GradeSound(g, result)
      && (g.verdict.Pass? <==> forall k :: 0 <= k < |steps| ==> !StopsAt(item, steps, k) && ResultAt(item, result.output, texts, steps, k).passed)
      && (g.verdict.Unscored? <==> exists k :: 0 <= k < |steps| && StopsAt(item, steps, k))
    decreases |item.assertions| - i
  {
    var g := GradeFrom(item, result.output, texts, steps, i, before);
    forall k | 0 <= k < i ensures Standalone(before[k]) { ResultSettled(item, result.output, texts, steps, k); }
    if i == |item.assertions| {
    } else if StopsAt(item, steps, i) {
    } else {
      GradeFromSound(item, result, texts, steps, i + 1, before + [ResultAt(item, result.output, texts, steps, i)]);
    }
  }

  lemma WorkspaceGradeSound(item: Case, result: WorkerResult, texts: Texts, steps: seq<GraderStep>)
    requires CaseLoaded(item) && EnvironmentKeepsContract(item, steps) && Confirmed(result)
    ensures
      var g := WorkspaceGrade(item, result, texts, steps);
      && GradeSound(g, result)
      && (g.verdict.Pass? <==> forall k :: 0 <= k < |steps| ==> !StopsAt(item, steps, k) && ResultAt(item, result.output, texts, steps, k).passed)
      && (g.verdict.Unscored? <==> exists k :: 0 <= k < |steps| && StopsAt(item, steps, k))
  {
    GradeFromSound(item, result, texts, steps, 0, []);
  }

  /** The first assertion at which grading stops, or the number of assertions. */
  ghost predicate FirstStop(item: Case, steps: seq<GraderStep>, n: nat)
    requires |item.assertions| == |steps|
  {
    n <= |steps| && (forall k :: 0 <= k < n ==> !StopsAt(item, steps, k)) && (n < |steps| ==> StopsAt(item, steps, n))
  }

  lemma {:induction false} GradeFromEvidence(item: Case, output: string, texts: Texts, steps: seq<GraderStep>, i: nat, before: seq<AssertionResult>) returns (n: nat)
    requires |item.assertions| == |steps| && i <= |steps| && ResultsBefore(item, output, texts, steps, i, before)
    ensures FirstStop(item, steps, n)
    ensures
      var g := GradeFrom(item, output, texts, steps, i, before);
      && |g.assertions| == (if n < |steps| && !steps[n].aborted then n + 1 else n)
      && forall k :: 0 <= k < |g.assertions| ==> g.assertions[k] == ResultAt(item, output, texts, steps, k)
    decreases |item.assertions| - i
  {
    if i == |item.assertions| || StopsAt(item, steps, i) {
      n := i;
    } else {
      n := GradeFromEvidence(item, output, texts, steps, i + 1, before + [ResultAt(item, output, texts, steps, i)]);
    }
  }

  /**
   * What a workspace grade shows: the assertions in order up to the first at which grading stopped, each reporting whether
   * what it asks of the output, the files or its command holds; and a pass means that all of it holds.
   */
  lemma WorkspaceGradeMeans(item: Case, result: WorkerResult, texts: Texts, steps: seq<GraderStep>) returns (n: nat)
    requires CaseLoaded(item) && EnvironmentKeepsContract(item, steps) && Confirmed(result)
    ensures FirstStop(item, steps, n)
    ensures
      var g := WorkspaceGrade(item, result, texts, steps);
      && |g.assertions| == (if n < |steps| && !steps[n].aborted then n + 1 else n)
      && (forall k :: 0 <= k < |g.assertions| ==> Reports(g.assertions[k], item.assertions[k], result.output, texts))
      && (g.verdict.Unscored? <==> n < |steps|)
      && (g.verdict.Pass? <==> n == |steps| && forall k :: 0 <= k < |steps| ==> Asks(item.assertions[k], result.output, texts, g.assertions[k].command))
  {
    n := GradeFromEvidence(item, result.output, texts, steps, 0, []);
    WorkspaceGradeSound(item, result, texts, steps);
    forall k | 0 <= k < |steps| ensures Reports(ResultAt(item, result.output, texts, steps, k), item.assertions[k], result.output, texts) {
      ResultReports(item, result.output, texts, steps, k);
    }
  }
}
