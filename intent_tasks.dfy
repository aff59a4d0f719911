/**
 * `extract_intent_task` of `tasks/intent_tasks.py`: start, run the keyword extractor, store
 * the intent, each step committed before it is announced; or, if the extractor raises, the
 * shared retry-or-fail ending.
 */
module IntentTasks {
  import opened Wrappers
  import opened Models
  import opened SessionDb
  import opened Websocket
  import opened TaskRetry
  import opened IntentEndpoint

  const Step := "intent_extraction"
  const Stage := "Intent extraction"

  /** The row after a successful extraction: the intent stored, status "intent_extracted", progress 100. */
  function IntentStoredRow(r: SessionRow, intent: IntentResult): SessionRow {
    r.(extractedIntent := Some(intent), status := "intent_extracted", currentStep := "awaiting_confirmation",
       progress := 100.0)
  }

  /** One run of the task on the row `r0`, the extractor meeting `outcome`. */
  function IntentRun(r0: SessionRow, userInput: string, outcome: StageOutcome, retries: nat, now: nat): Run<IntentResult> {
    var r1 := BeginRow(r0, Step);
    var e1 := [Sent(ProgressUpdate(Step, 10.0, "Starting intent extraction..."), r1)];
    if outcome.Completes? then
      var r2 := CheckpointRow(r1, 80.0);
      var intent := ExtractIntent(userInput, now);
      var r3 := IntentStoredRow(r2, intent);
      Run(r3, Done(intent),
          e1 + [Sent(ProgressUpdate(Step, 80.0, "Processing intent with AI models..."), r2),
                Sent(ProgressUpdate(Step, 100.0, "Intent extraction completed successfully"), r3),
                Sent(AnalysisComplete(Step, IntentResults(intent)), r3)])
    else
      StageErrorRun(r1, e1, Stage, outcome, retries, now)
  }

  /**
   * A run that completes stores the extracted intent (raw input attached, confidence 0.85),
   * moves to "intent_extracted"/"awaiting_confirmation" at progress 100, adds no error, and
   * ends with the 100 update followed by `analysis_complete`.
   */
  lemma IntentRunCompletes(r0: SessionRow, userInput: string, retries: nat, now: nat)
    ensures var run := IntentRun(r0, userInput, Completes, retries, now);
            && run.decision.Done?
            && run.row.extractedIntent == Some(run.decision.result)
            && run.decision.result.rawInput == userInput && run.decision.result.confidence == 85
            && run.row.status == "intent_extracted" && run.row.currentStep == "awaiting_confirmation"
            && run.row.progress == 100.0 && run.row.errors == r0.errors
            && |run.events| == 4 && run.events[3].message == AnalysisComplete(Step, IntentResults(run.decision.result))
  {
  }

  /**
   * A run whose extractor raises stays at progress 10 and adds exactly one error; it is
   * rescheduled after 60 * 2^retries seconds exactly when the error is transient and fewer
   * than three retries have run, and fails otherwise.
   */
  lemma IntentRunRaises(r0: SessionRow, userInput: string, outcome: StageOutcome, retries: nat, now: nat)
    requires !outcome.Completes?
    ensures var run := IntentRun(r0, userInput, outcome, retries, now);
            && run.row.progress == 10.0 && run.row.currentStep == Step
            && |run.row.errors| == |r0.errors| + 1 && run.row.errors[..|r0.errors|] == r0.errors
            && (run.decision.Retry? <==> outcome.Transient? && retries < 3)
            && (run.decision.Retry? ==> run.decision.countdown == 60 * Pow2(retries) && run.row.status == "processing")
            && (!run.decision.Retry? ==> run.decision == Failed(outcome.error) && run.row.status == "failed")
  {
  }

  /** Whatever happens, progress goes 10, 80, 100 (or stops at 10), each value committed before it is announced. */
  lemma IntentRunProgress(r0: SessionRow, userInput: string, outcome: StageOutcome, retries: nat, now: nat)
    ensures var run := IntentRun(r0, userInput, outcome, retries, now);
            && ProgressValues(run.events) == (if outcome.Completes? then [10.0, 80.0, 100.0] else [10.0])
            && StrictlyIncreasing(ProgressValues(run.events))
            && CommittedBeforeSent(run.events)
  {
    var run := IntentRun(r0, userInput, outcome, retries, now);
    if outcome.Completes? {
      assert run.events == [run.events[0], run.events[1], run.events[2], run.events[3]];
      ProgressValuesOfFour(run.events[0], run.events[1], run.events[2], run.events[3]);
    } else {
      assert run.events == [run.events[0], run.events[1]];
      ProgressValuesOfTwo(run.events[0], run.events[1]);
    }
  }

  /**
   * `extract_intent_task`: `rec` is the session row the query found (null when there is none);
   * the row it leaves is committed, and the messages are returned in the order sent.
   */
  method ExtractIntentTask(rec: SessionRecord?, userInput: string, outcome: StageOutcome, retries: nat, now: nat)
    returns (d: Decision<IntentResult>, events: seq<Sent>)
    modifies rec
    ensures rec == null ==> d == SessionNotFound && events == []
    ensures rec != null ==>
              var run := IntentRun(old(rec.Row()), userInput, outcome, retries, now);
              rec.Row() == run.row && rec.committed == run.row && d == run.decision && events == run.events
  {
    if rec == null {
      return SessionNotFound, [];
    }
    var e := Begin(rec, Step, "Starting intent extraction...");
    events := [e];
    if outcome.Completes? {
      var intent := ExtractIntent(userInput, now);
      e := Checkpoint(rec, Step, 80.0, "Processing intent with AI models...");
      events := events + [e];
      StoreIntent(rec, intent);
      events := events + [Sent(ProgressUpdate(Step, 100.0, "Intent extraction completed successfully"), rec.Row()),
                          Sent(AnalysisComplete(Step, IntentResults(intent)), rec.Row())];
      d := Done(intent);
    } else {
      d, events := HandleStageError(rec, events, Stage, outcome, retries, now);
    }
  }

  /** Store the intent, set status, step and progress, and commit. */
  method StoreIntent(rec: SessionRecord, intent: IntentResult)
    modifies rec
    ensures rec.Row() == IntentStoredRow(old(rec.Row()), intent) && rec.committed == rec.Row()
  {
    rec.extractedIntent := Some(intent);
    rec.status := "intent_extracted";
    rec.currentStep := "awaiting_confirmation";
    rec.progress := 100.0;
    rec.Commit();
  }
}
