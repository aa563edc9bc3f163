/**
 * The pass/warn/fail policy that `SpotBugsTask.evaluateResult` applies to
 * the result of one SpotBugs worker run.
 *
 * Throwing a `GradleException` becomes the outcome `Failed`, logging a
 * warning becomes `Warned`, and returning normally becomes `Clean`.
 */
module ResultEvaluation {
  import opened Common

  /** What the worker hands back: whether it raised an exception, the number
      of internal analysis errors and the number of findings (Java `int`s). */
  datatype SpotBugsResult = SpotBugsResult(hasException: bool, errorCount: int, bugCount: int)

  /** A single-file report of the task's report container. The container
      holds its reports by `name` ("xml", "html", ...); the policy reads
      only whether a report is enabled and where it is written. */
  datatype Report = Report(name: string, enabled: bool, destination: Path)

  /** What evaluating a result does to the build. `hasCause` says whether the
      thrown exception wraps the worker's exception. */
  datatype Outcome = Clean | Warned(message: string) | Failed(message: string, hasCause: bool)

  // Split in two so that the verifier can look at single characters of the first sentence.
  const ErrorMessage := "SpotBugs encountered an error." + " Run with --debug to get more information."
  const ViolationsMessage := "SpotBugs rule violations were found."
  const ReportPointer := " See the report at: "

  /** The worker could not be trusted: it raised, or the engine counted internal errors. */
  predicate IsInfrastructureFailure(result: SpotBugsResult) {
    result.hasException || result.errorCount > 0
  }

  /** The analysis completed and reported rule violations. */
  predicate FindingsPresent(result: SpotBugsResult) {
    !IsInfrastructureFailure(result) && result.bugCount > 0
  }

  /** The first enabled report of the container, in its iteration order
      (`getFirstEnabled`); `None` stands for Java's null. */
  function FirstEnabled(reports: seq<Report>): (r: Option<Report>)
    ensures r.Some? ==> r.value in reports && r.value.enabled
    ensures r.None? <==> forall i | 0 <= i < |reports| :: !reports[i].enabled
  {
    if reports == [] then None
    else if reports[0].enabled then Some(reports[0])
    else FirstEnabled(reports[1..])
  }

  /** No enabled report comes before the one `FirstEnabled` picks. */
  lemma {:induction false} FirstEnabledIsEarliest(reports: seq<Report>, i: nat)
    requires i < |reports| && reports[i].enabled
    requires forall j | 0 <= j < i :: !reports[j].enabled
    ensures FirstEnabled(reports) == Some(reports[i])
  {
    if i > 0 {
      assert !reports[0].enabled;
      FirstEnabledIsEarliest(reports[1..], i - 1);
    }
  }

  /** The text that accompanies rule violations: the fixed sentence, followed
      by a pointer to the first enabled report when there is one. `render`
      stands for `ConsoleRenderer.asClickableFileUrl`. */
  function ViolationMessage(firstEnabled: Option<Report>, render: Path -> string): (m: string)
    ensures |ViolationsMessage| <= |m| && m[..|ViolationsMessage|] == ViolationsMessage
    ensures firstEnabled.None? <==> m == ViolationsMessage
    ensures firstEnabled.Some? ==>
              m[|ViolationsMessage|..] == ReportPointer + render(firstEnabled.value.destination)
  {
    match firstEnabled
    case None => ViolationsMessage
    case Some(report) => ViolationsMessage + ReportPointer + render(report.destination)
  }

  /** `evaluateResult`: exceptions first, then internal errors, then findings. */
  function Evaluate(result: SpotBugsResult, reports: seq<Report>, ignoreFailures: bool,
                    render: Path -> string): (o: Outcome)
    // the worker's exception is kept as the cause exactly when there is one
    ensures o.Failed? && o.hasCause <==> result.hasException
    // infrastructure failures fail with the generic error message, whatever ignoreFailures says
    ensures IsInfrastructureFailure(result) ==> o == Failed(ErrorMessage, result.hasException)
    // findings are only ever downgraded to a warning, and only when failures are ignored
    ensures o.Warned? <==> FindingsPresent(result) && ignoreFailures
    ensures o.Clean? <==> !IsInfrastructureFailure(result) && result.bugCount <= 0
    ensures FindingsPresent(result) ==>
              !o.Clean? && o.message == ViolationMessage(FirstEnabled(reports), render)
  {
    if result.hasException then
      Failed(ErrorMessage, true)
    else if result.errorCount > 0 then
      Failed(ErrorMessage, false)
    else if result.bugCount > 0 then
      var message := ViolationMessage(FirstEnabled(reports), render);
      if ignoreFailures then Warned(message) else Failed(message, false)
    else
      Clean
  }

  /** `ignoreFailures` never suppresses an exception or an internal error. */
  lemma IgnoreFailuresKeepsInfrastructureFailures(result: SpotBugsResult, reports: seq<Report>,
                                                  render: Path -> string)
    requires IsInfrastructureFailure(result)
    ensures Evaluate(result, reports, true, render).Failed?
    ensures Evaluate(result, reports, true, render) == Evaluate(result, reports, false, render)
  {
  }

  /** `ignoreFailures` changes the outcome exactly when findings are present,
      and then only turns the failure into a warning with the same text. */
  lemma IgnoreFailuresOnlyGovernsFindings(result: SpotBugsResult, reports: seq<Report>,
                                          render: Path -> string)
    ensures Evaluate(result, reports, true, render) != Evaluate(result, reports, false, render)
            <==> FindingsPresent(result)
    ensures FindingsPresent(result) ==>
              var m := ViolationMessage(FirstEnabled(reports), render);
              Evaluate(result, reports, true, render) == Warned(m)
              && Evaluate(result, reports, false, render) == Failed(m, false)
  {
  }

  /** The violation text never reads like the error text, so a failure's
      message tells an untrustworthy run from one that found bugs. */
  lemma ViolationMessageIsNotErrorMessage(firstEnabled: Option<Report>, render: Path -> string)
    ensures ViolationMessage(firstEnabled, render) != ErrorMessage
  {
    var m := ViolationMessage(firstEnabled, render);
    assert m[..|ViolationsMessage|][9] == ViolationsMessage[9] == 'r';
    assert ErrorMessage[9] == 'e';
  }

  /** A failure's message names its reason: the error text exactly for
      infrastructure failures, the violation text otherwise. */
  lemma FailureMessageNamesReason(result: SpotBugsResult, reports: seq<Report>, ignoreFailures: bool,
                                  render: Path -> string)
    requires Evaluate(result, reports, ignoreFailures, render).Failed?
    ensures Evaluate(result, reports, ignoreFailures, render).message == ErrorMessage
            <==> IsInfrastructureFailure(result)
  {
    if !IsInfrastructureFailure(result) {
      ViolationMessageIsNotErrorMessage(FirstEnabled(reports), render);
    }
  }

  /** With findings and an enabled report, the message points at the first
      enabled report's destination, whatever the later reports are. */
  lemma {:induction false} MessagePointsAtFirstEnabledReport(result: SpotBugsResult, reports: seq<Report>,
                                                             i: nat, ignoreFailures: bool,
                                                             render: Path -> string)
    requires FindingsPresent(result)
    requires i < |reports| && reports[i].enabled
    requires forall j | 0 <= j < i :: !reports[j].enabled
    ensures Evaluate(result, reports, ignoreFailures, render).message
            == ViolationsMessage + ReportPointer + render(reports[i].destination)
  {
    FirstEnabledIsEarliest(reports, i);
  }
}
