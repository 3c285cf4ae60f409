/**
 * The assistant path: dispatching on a run's status (`handleRunStatus`) and
 * answering a run that requires action (`handleRequiresAction`), which may
 * submit tool outputs and dispatch again on the run the service returns.
 *
 * The assistant service is a script: `submissions` holds, in order, what the
 * successive submissions of tool outputs return (the next run, or the error
 * they throw), and `listing` what listing the thread's messages returns.
 */
module RunStatus {
  import opened Wrappers
  import opened ToolOutputs

  const Completed: string := "completed"
  const RequiresAction: string := "requires_action"
  const RunDidNotComplete: string := "Run did not complete"
  const RequiredActionPrefix: string := "Could not handle required action: "
  const AssistantNotFound: string := "Assistant not found"

  /**
   * A run as the route reads it: its id, its status and the tool calls at
   * `required_action.submit_tool_outputs.tool_calls` (absent when any part of
   * that path is missing).
   */
  datatype Run = Run(id: string, status: string, toolCalls: Option<seq<ToolCall>>)

  /** What the assistant path resolves to: the thread's messages, or `undefined`. */
  datatype Answer = ThreadMessages(messages: seq<string>) | Undefined

  /** The settled assistant path: an answer, or the message of the error it throws. */
  datatype Outcome = Settled(answer: Answer) | Threw(message: string)

  /** What one status dispatch does before it calls anything else. */
  datatype Step =
    | Return(outcome: Outcome)          // settles without further dispatch
    | Submit(outputs: seq<ToolOutput>)  // submits these outputs, then dispatches on the returned run
    | Recheck                           // dispatches again on the same run, submitting nothing

  /** `handleRequiresAction`, up to its submission. */
  function RequiredActionStep(run: Run): Step {
    match run.toolCalls
    case None => Return(Settled(Undefined))
    case Some(calls) =>
      var outputs := CollectToolOutputs(calls);
      if |outputs| > 0 then Submit(outputs) else Recheck
  }

  /** `handleRunStatus`, up to its first call. */
  function StatusStep(run: Run, listing: Result<seq<string>>): Step {
    if run.status == Completed then
      (match listing
       case Ok(messages) => Return(Settled(ThreadMessages(messages)))
       case Err(e) => Return(Threw(e)))
    else if run.status == RequiresAction then RequiredActionStep(run)
    else Return(Threw(RunDidNotComplete))
  }

  /**
   * How a dispatch ends: settled; never, because the same run is dispatched
   * again and again; or beyond the script, which ran out of submission results.
   */
  datatype Dispatched = Finished(outcome: Outcome) | Diverges | Unscripted

  /**
   * `handleRunStatus` with everything it calls. A submission error is
   * wrapped with "Could not handle required action: "; the outcome of the
   * dispatch that follows a submission is returned unwrapped, because that
   * call is returned from the `try` block without being awaited.
   */
  function HandleRunStatus(run: Run, submissions: seq<Result<Run>>, listing: Result<seq<string>>): (d: Dispatched)
    ensures d.Finished? && d.outcome.Settled? && d.outcome.answer.ThreadMessages? ==> listing == Ok(d.outcome.answer.messages)
    decreases |submissions|
  {
    match StatusStep(run, listing)
    case Return(outcome) => Finished(outcome)
    case Recheck => Diverges
    case Submit(_) =>
      if submissions == [] then Unscripted
      else
        match submissions[0]
        case Err(e) => Finished(Threw(RequiredActionPrefix + e))
        case Ok(next) => HandleRunStatus(next, submissions[1..], listing)
  }

  /** How the assistant session starts: with a first run, with no assistant, or with an error. */
  datatype Setup = Started(run: Run) | NoAssistant | SetupFailed(message: string)

  /** `shouldGoOutside`: the session's start, then the dispatch on its first run. */
  function ShouldGoOutside(setup: Setup, submissions: seq<Result<Run>>, listing: Result<seq<string>>): Dispatched {
    match setup
    case Started(run) => HandleRunStatus(run, submissions, listing)
    case NoAssistant => Finished(Threw(AssistantNotFound))
    case SetupFailed(e) => Finished(Threw(e))
  }

  /** The batches of tool outputs a dispatch submits, in order. */
  function Submitted(run: Run, submissions: seq<Result<Run>>, listing: Result<seq<string>>): seq<seq<ToolOutput>>
    decreases |submissions|
  {
    match StatusStep(run, listing)
    case Submit(outputs) =>
      if submissions == [] then []
      else if submissions[0].Err? then [outputs]
      else [outputs] + Submitted(submissions[0].value, submissions[1..], listing)
    case _ => []
  }

  /** A completed run settles on the thread's messages, or fails with the listing's own error message. */
  lemma CompletedListsMessages(run: Run, submissions: seq<Result<Run>>, listing: Result<seq<string>>)
    requires run.status == Completed
    ensures listing.Ok? ==> HandleRunStatus(run, submissions, listing) == Finished(Settled(ThreadMessages(listing.value)))
    ensures listing.Err? ==> HandleRunStatus(run, submissions, listing) == Finished(Threw(listing.error))
  {
  }

  /** A status other than `completed` and `requires_action` fails with "Run did not complete". */
  lemma OtherStatusFails(run: Run, submissions: seq<Result<Run>>, listing: Result<seq<string>>)
    requires run.status != Completed && run.status != RequiresAction
    ensures HandleRunStatus(run, submissions, listing) == Finished(Threw("Run did not complete"))
  {
  }

  /** A run requiring action without tool calls settles on `undefined`, not on an error. */
  lemma MissingToolCallsIsUndefined(run: Run, submissions: seq<Result<Run>>, listing: Result<seq<string>>)
    requires run.status == RequiresAction && run.toolCalls == None
    ensures HandleRunStatus(run, submissions, listing) == Finished(Settled(Undefined))
  {
  }

  /**
   * A run requiring action submits exactly the `get_weather` answers of its
   * calls, and submits only when there is at least one.
   */
  lemma RequiredActionSubmitsWeatherAnswers(run: Run, listing: Result<seq<string>>)
    requires run.status == RequiresAction && run.toolCalls.Some?
    ensures var calls := run.toolCalls.value;
      && ((exists i :: 0 <= i < |calls| && calls[i].name == WeatherTool) <==> StatusStep(run, listing).Submit?)
      && (StatusStep(run, listing).Submit? ==> StatusStep(run, listing).outputs == CollectToolOutputs(calls))
  {
    CollectEmptyIff(run.toolCalls.value);
  }

  /**
   * A dispatch runs forever exactly when it reaches a run that requires action
   * and lists tool calls none of which is `get_weather`: nothing is submitted
   * and the unchanged run is dispatched again.
   */
  lemma RecheckIff(run: Run, listing: Result<seq<string>>)
    ensures StatusStep(run, listing) == Recheck <==>
      && run.status == RequiresAction
      && run.toolCalls.Some?
      && forall i :: 0 <= i < |run.toolCalls.value| ==> run.toolCalls.value[i].name != WeatherTool
  {
    if run.status == RequiresAction && run.toolCalls.Some? {
      CollectEmptyIff(run.toolCalls.value);
    }
  }

  /**
   * Every error the dispatch throws is "Run did not complete", the listing's
   * own error, or a submission's error behind "Could not handle required action: ".
   */
  lemma {:induction false} ThrownMessages(run: Run, submissions: seq<Result<Run>>, listing: Result<seq<string>>, m: string)
    requires HandleRunStatus(run, submissions, listing) == Finished(Threw(m))
    ensures || m == RunDidNotComplete
            || listing == Err(m)
            || exists k :: 0 <= k < |submissions| && submissions[k].Err? && m == RequiredActionPrefix + submissions[k].error
    decreases |submissions|
  {
    if StatusStep(run, listing).Submit? && submissions != [] && submissions[0].Ok? {
      ThrownMessages(submissions[0].value, submissions[1..], listing, m);
      if exists k :: 0 <= k < |submissions[1..]| && submissions[1..][k].Err? && m == RequiredActionPrefix + submissions[1..][k].error {
        var k :| 0 <= k < |submissions[1..]| && submissions[1..][k].Err? && m == RequiredActionPrefix + submissions[1..][k].error;
        assert submissions[k + 1] == submissions[1..][k];
      }
    } else if StatusStep(run, listing).Submit? && submissions != [] {
      assert submissions[0].Err? && m == RequiredActionPrefix + submissions[0].error;
    }
  }

  /**
   * The script only supplies what the dispatch asks for: once a dispatch has
   * an end, further submission results change nothing, and it uses exactly
   * one result per submitted batch: no more batches than results, and the
   * first results, one per batch, already give the same end.
   */
  lemma {:induction false} ScriptExtension(run: Run, submissions: seq<Result<Run>>, more: seq<Result<Run>>, listing: Result<seq<string>>)
    requires HandleRunStatus(run, submissions, listing) != Unscripted
    ensures HandleRunStatus(run, submissions + more, listing) == HandleRunStatus(run, submissions, listing)
    ensures Submitted(run, submissions + more, listing) == Submitted(run, submissions, listing)
    ensures |Submitted(run, submissions, listing)| <= |submissions|
    ensures HandleRunStatus(run, submissions[..|Submitted(run, submissions, listing)|], listing) == HandleRunStatus(run, submissions, listing)
    decreases |submissions|
  {
    if StatusStep(run, listing).Submit? {
      assert submissions != [];
      assert (submissions + more)[0] == submissions[0];
      var n := |Submitted(run, submissions, listing)|;
      if submissions[0].Ok? {
        assert (submissions + more)[1..] == submissions[1..] + more;
        ScriptExtension(submissions[0].value, submissions[1..], more, listing);
        assert submissions[..n][0] == submissions[0];
        assert submissions[..n][1..] == submissions[1..][..n - 1];
      } else {
        assert submissions[..n] == [submissions[0]];
      }
    }
  }

  /**
   * Nothing is ever submitted empty, and the first batch is the selection made
   * from the first run's own tool calls.
   */
  lemma {:induction false} SubmittedBatchesNonEmpty(run: Run, submissions: seq<Result<Run>>, listing: Result<seq<string>>)
    ensures forall b :: 0 <= b < |Submitted(run, submissions, listing)| ==> |Submitted(run, submissions, listing)[b]| > 0
    ensures |Submitted(run, submissions, listing)| > 0 ==>
      && run.status == RequiresAction && run.toolCalls.Some?
      && Submitted(run, submissions, listing)[0] == CollectToolOutputs(run.toolCalls.value)
    decreases |submissions|
  {
    if StatusStep(run, listing).Submit? && submissions != [] && submissions[0].Ok? {
      SubmittedBatchesNonEmpty(submissions[0].value, submissions[1..], listing);
      var rest := Submitted(submissions[0].value, submissions[1..], listing);
      assert forall b :: 1 <= b < |Submitted(run, submissions, listing)| ==> Submitted(run, submissions, listing)[b] == rest[b - 1];
    }
  }

  /**
   * The assistant path throws only what its start throws, "Assistant not
   * found" when there is no assistant, or what the dispatch throws.
   */
  lemma AssistantPathErrors(setup: Setup, submissions: seq<Result<Run>>, listing: Result<seq<string>>, m: string)
    requires ShouldGoOutside(setup, submissions, listing) == Finished(Threw(m))
    ensures || (setup == NoAssistant && m == "Assistant not found")
            || setup == SetupFailed(m)
            || (setup.Started? && (|| m == RunDidNotComplete
                                   || listing == Err(m)
                                   || exists k :: 0 <= k < |submissions| && submissions[k].Err? && m == RequiredActionPrefix + submissions[k].error))
  {
    if setup.Started? {
      ThrownMessages(setup.run, submissions, listing, m);
    }
  }
}
