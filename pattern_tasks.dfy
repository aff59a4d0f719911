/**
 * `discover_patterns_task` of `tasks/pattern_tasks.py`: start, validate the intent, two
 * checkpoints, the mock discovery, a third checkpoint, store the report id, then announce
 * completion and every pattern of confidence at least 0.7; or the shared retry-or-fail ending.
 */
module PatternTasks {
  import opened Wrappers
  import opened Models
  import opened SessionDb
  import opened Websocket
  import opened TaskRetry
  import opened MockServices

  const Step := "pattern_discovery"
  const Stage := "Pattern discovery"
  /** The progress texts the task sends, in order. */
  const StartText := "Starting pattern discovery analysis..."
  const AnalyzingText := "Analyzing companies in target market..."
  const ExtractingText := "Extracting success patterns from company data..."
  const ReportText := "Generating pattern analysis report..."
  const DoneText := "Pattern discovery completed successfully"

  /** The row after a successful discovery: report id stored, "patterns_discovered", progress 100. */
  function PatternsStoredRow(r: SessionRow, reportId: string): SessionRow {
    r.(patternReportId := Some(reportId), status := "patterns_discovered", currentStep := "awaiting_validation",
       progress := 100.0)
  }

  /** One `pattern_discovered` message per pattern of confidence at least 0.7, in report order. */
  function DiscoveredEvents(ps: seq<Pattern>, row: SessionRow): (es: seq<Sent>)
    ensures |es| == CountAtLeast(ps, 70)
    ensures forall k :: 0 <= k < |es| ==>
              es[k].committed == row && es[k].message.PatternDiscovered?
              && es[k].message.pattern in ps && es[k].message.pattern.confidence >= 70
  {
    if ps == [] then []
    else
      var last := ps[|ps| - 1];
      DiscoveredEvents(ps[..|ps| - 1], row) + (if last.confidence >= 70 then [Sent(PatternDiscovered(last), row)] else [])
  }

  /**
   * The k-th announcement carries the k-th pattern of confidence at least 0.7, in report
   * order: the pattern at index j with exactly k qualifying patterns before it.
   */
  lemma {:induction false} DiscoveredEventsInOrder(ps: seq<Pattern>, row: SessionRow, k: nat)
    requires k < |DiscoveredEvents(ps, row)|
    ensures exists j :: 0 <= j < |ps| && ps[j].confidence >= 70 && CountAtLeast(ps[..j], 70) == k
                        && DiscoveredEvents(ps, row)[k] == Sent(PatternDiscovered(ps[j]), row)
  {
    var init := ps[..|ps| - 1];
    if k < |DiscoveredEvents(init, row)| {
      DiscoveredEventsInOrder(init, row, k);
      var j :| 0 <= j < |init| && init[j].confidence >= 70 && CountAtLeast(init[..j], 70) == k
               && DiscoveredEvents(init, row)[k] == Sent(PatternDiscovered(init[j]), row);
      assert ps[..j] == init[..j];
    } else {
      var j := |ps| - 1;
      assert ps[..j] == init;
      assert ps[j].confidence >= 70;
    }
  }

  /** When every pattern clears the bar, each one is announced, in order. */
  lemma {:induction false} DiscoveredEventsAll(ps: seq<Pattern>, row: SessionRow)
    requires forall k :: 0 <= k < |ps| ==> ps[k].confidence >= 70
    ensures DiscoveredEvents(ps, row) == seq(|ps|, k requires 0 <= k < |ps| => Sent(PatternDiscovered(ps[k]), row))
  {
    if ps != [] {
      DiscoveredEventsAll(ps[..|ps| - 1], row);
    }
  }

  /** The mock discovery the task runs for session `sessionId`, on the intent's industry and country. */
  function Discovery(sessionId: string, uuid: nat -> string): IntentResult -> PatternReport {
    (intent: IntentResult) => MockPatternDiscovery(intent.industry, intent.country, sessionId, uuid)
  }

  /**
   * One run of the task on `r0`; `intentData` is None when it does not validate as an intent,
   * and `discover` is the discovery stage (`Discovery` for the task as written).
   */
  function PatternRun(r0: SessionRow, intentData: Option<IntentResult>, outcome: StageOutcome, retries: nat, now: nat,
                      discover: IntentResult -> PatternReport): Run<PatternReport>
  {
    var r1 := BeginRow(r0, Step);
    var e1 := [Sent(ProgressUpdate(Step, 10.0, StartText), r1)];
    if intentData.None? then Run(r1, InvalidInput, e1)
    else
      var r2 := CheckpointRow(r1, 30.0);
      var r3 := CheckpointRow(r2, 60.0);
      var e3 := e1 + [Sent(ProgressUpdate(Step, 30.0, AnalyzingText), r2),
                      Sent(ProgressUpdate(Step, 60.0, ExtractingText), r3)];
      if outcome.Completes? then
        var report := discover(intentData.value);
        var r4 := CheckpointRow(r3, 85.0);
        var r5 := PatternsStoredRow(r4, report.id);
        Run(r5, Done(report),
            e3 + [Sent(ProgressUpdate(Step, 85.0, ReportText), r4),
                  Sent(ProgressUpdate(Step, 100.0, DoneText), r5),
                  Sent(AnalysisComplete(Step, PatternResults(report)), r5)]
               + DiscoveredEvents(report.patterns, r5))
      else
        StageErrorRun(r3, e3, Stage, outcome, retries, now)
  }

  /**
   * A run that completes stores the report's id and moves to "patterns_discovered" /
   * "awaiting_validation" at progress 100, with no error added; the report is the one the
   * discovery stage returns for the intent.
   */
  lemma PatternRunCompletes(r0: SessionRow, intent: IntentResult, retries: nat, now: nat, discover: IntentResult -> PatternReport)
    ensures var run := PatternRun(r0, Some(intent), Completes, retries, now, discover);
            && run.decision == Done(discover(intent))
            && run.row.patternReportId == Some(run.decision.result.id)
            && run.row.status == "patterns_discovered" && run.row.currentStep == "awaiting_validation"
            && run.row.progress == 100.0 && run.row.errors == r0.errors
  {
  }

  /**
   * After `analysis_complete`, a completed run announces every pattern of the report, in
   * order: the mock discovery only produces patterns of confidence at least 0.7.
   */
  lemma PatternRunAnnouncesAll(r0: SessionRow, intent: IntentResult, retries: nat, now: nat, uuid: nat -> string)
    ensures var run := PatternRun(r0, Some(intent), Completes, retries, now, Discovery(r0.id, uuid));
            && run.decision.Done? && |run.events| >= 6
            && var ps := run.decision.result.patterns;
            && run.events[5].message == AnalysisComplete(Step, PatternResults(run.decision.result))
            && run.events[6..] == seq(|ps|, k requires 0 <= k < |ps| => Sent(PatternDiscovered(ps[k]), run.row))
  {
    var run := PatternRun(r0, Some(intent), Completes, retries, now, Discovery(r0.id, uuid));
    var report := MockPatternDiscovery(intent.industry, intent.country, r0.id, uuid);
    var ev := run.events;
    var disc := DiscoveredEvents(report.patterns, run.row);
    assert |ev| == 6 + |disc| && ev[6..] == disc;
    MockDiscoveryAllHighConfidence(intent.industry, intent.country, r0.id, uuid);
    DiscoveredEventsAll(report.patterns, run.row);
  }

  /** An intent that does not validate ends the run after the start: "processing" at 10, no error recorded, no retry. */
  lemma PatternRunInvalidInput(r0: SessionRow, outcome: StageOutcome, retries: nat, now: nat, discover: IntentResult -> PatternReport)
    ensures var run := PatternRun(r0, None, outcome, retries, now, discover);
            && run.decision == InvalidInput && run.row.status == "processing" && run.row.progress == 10.0
            && run.row.errors == r0.errors && |run.events| == 1
  {
  }

  /**
   * A run whose discovery raises stays at progress 60 and adds exactly one error; it retries
   * after 60 * 2^retries seconds exactly when the error is transient and fewer than three
   * retries have run, and fails otherwise.
   */
  lemma PatternRunRaises(r0: SessionRow, intent: IntentResult, outcome: StageOutcome, retries: nat, now: nat, discover: IntentResult -> PatternReport)
    requires !outcome.Completes?
    ensures var run := PatternRun(r0, Some(intent), outcome, retries, now, discover);
            && run.row.progress == 60.0 && run.row.currentStep == Step
            && |run.row.errors| == |r0.errors| + 1 && run.row.errors[..|r0.errors|] == r0.errors
            && (run.decision.Retry? <==> outcome.Transient? && retries < 3)
            && (run.decision.Retry? ==> run.decision.countdown == 60 * Pow2(retries) && run.row.status == "processing")
            && (!run.decision.Retry? ==> run.decision == Failed(outcome.error) && run.row.status == "failed")
  {
  }

  /** The three messages every validated run sends first carry 10, 30 and 60. */
  lemma PatternRunHead(r0: SessionRow, intent: IntentResult, outcome: StageOutcome, retries: nat, now: nat,
                       discover: IntentResult -> PatternReport)
    ensures var ev := PatternRun(r0, Some(intent), outcome, retries, now, discover).events;
            && |ev| >= 3 && ProgressValues(ev[..3]) == [10.0, 30.0, 60.0]
  {
    var r1 := BeginRow(r0, Step);
    var r2 := CheckpointRow(r1, 30.0);
    var r3 := CheckpointRow(r2, 60.0);
    var e3 := [Sent(ProgressUpdate(Step, 10.0, StartText), r1),
               Sent(ProgressUpdate(Step, 30.0, AnalyzingText), r2),
               Sent(ProgressUpdate(Step, 60.0, ExtractingText), r3)];
    var ev := PatternRun(r0, Some(intent), outcome, retries, now, discover).events;
    assert ev[..3] == e3;
    ProgressValuesOfThree(e3[0], e3[1], e3[2]);
  }

  lemma PatternRunProgressCompletes(r0: SessionRow, intent: IntentResult, retries: nat, now: nat, discover: IntentResult -> PatternReport)
    ensures ProgressValues(PatternRun(r0, Some(intent), Completes, retries, now, discover).events)
            == [10.0, 30.0, 60.0, 85.0, 100.0]
  {
    var ev := PatternRun(r0, Some(intent), Completes, retries, now, discover).events;
    PatternRunHead(r0, intent, Completes, retries, now, discover);
    ProgressValuesOfThree(ev[3], ev[4], ev[5]);
    assert ev[3..6] == [ev[3], ev[4], ev[5]];
    assert ev == ev[..3] + ev[3..6] + ev[6..];
    ProgressValuesConcat(ev[..3], ev[3..6]);
    ProgressValuesAppendQuiet(ev[..3] + ev[3..6], ev[6..]);
  }

  lemma PatternRunProgressRaises(r0: SessionRow, intent: IntentResult, outcome: StageOutcome, retries: nat, now: nat,
                                 discover: IntentResult -> PatternReport)
    requires !outcome.Completes?
    ensures ProgressValues(PatternRun(r0, Some(intent), outcome, retries, now, discover).events) == [10.0, 30.0, 60.0]
  {
    var ev := PatternRun(r0, Some(intent), outcome, retries, now, discover).events;
    PatternRunHead(r0, intent, outcome, retries, now, discover);
    assert ev == ev[..3] + [ev[3]];
    ProgressValuesSnoc(ev[..3], ev[3]);
  }

  /** Progress goes 10, 30, 60, 85, 100, or stops at 10 or at 60. */
  lemma PatternRunProgress(r0: SessionRow, intentData: Option<IntentResult>, outcome: StageOutcome, retries: nat, now: nat,
                           discover: IntentResult -> PatternReport)
    ensures var vs := ProgressValues(PatternRun(r0, intentData, outcome, retries, now, discover).events);
            && vs == (if intentData.None? then [10.0]
                      else if outcome.Completes? then [10.0, 30.0, 60.0, 85.0, 100.0]
                      else [10.0, 30.0, 60.0])
            && StrictlyIncreasing(vs)
  {
    if intentData.None? {
      var ev := PatternRun(r0, intentData, outcome, retries, now, discover).events;
      assert ev == [] + [ev[0]];
      ProgressValuesSnoc([], ev[0]);
    } else if outcome.Completes? {
      PatternRunProgressCompletes(r0, intentData.value, retries, now, discover);
    } else {
      PatternRunProgressRaises(r0, intentData.value, outcome, retries, now, discover);
    }
  }

  /** Every progress value is committed to the row before the message announcing it is sent. */
  lemma PatternRunCommitsFirst(r0: SessionRow, intentData: Option<IntentResult>, outcome: StageOutcome, retries: nat,
                               now: nat, discover: IntentResult -> PatternReport)
    ensures CommittedBeforeSent(PatternRun(r0, intentData, outcome, retries, now, discover).events)
  {
  }

  /**
   * `discover_patterns_task`: `rec` is the session row the query found (null when there is
   * none); the row it leaves is committed, and the messages are returned in the order sent.
   */
  method DiscoverPatternsTask(rec: SessionRecord?, intentData: Option<IntentResult>, outcome: StageOutcome, retries: nat,
                              now: nat, uuid: nat -> string) returns (d: Decision<PatternReport>, events: seq<Sent>)
    modifies rec
    ensures rec == null ==> d == SessionNotFound && events == []
    ensures rec != null ==>
              var run := PatternRun(old(rec.Row()), intentData, outcome, retries, now, Discovery(old(rec.Row()).id, uuid));
              rec.Row() == run.row && rec.committed == run.row && d == run.decision && events == run.events
  {
    if rec == null {
      return SessionNotFound, [];
    }
    var sessionId := rec.id;
    var e := Begin(rec, Step, StartText);
    events := [e];
    if intentData.None? {
      return InvalidInput, events;
    }
    var e2 := Checkpoint(rec, Step, 30.0, AnalyzingText);
    var e3 := Checkpoint(rec, Step, 60.0, ExtractingText);
    events := events + [e2, e3];
    if outcome.Completes? {
      var report := MockPatternDiscovery(intentData.value.industry, intentData.value.country, sessionId, uuid);
      e := Checkpoint(rec, Step, 85.0, ReportText);
      StorePatternReport(rec, report.id);
      var row := rec.Row();
      events := events + [e, Sent(ProgressUpdate(Step, 100.0, DoneText), row),
                          Sent(AnalysisComplete(Step, PatternResults(report)), row)];
      var discovered := AnnounceDiscovered(report.patterns, row);
      events := events + discovered;
      d := Done(report);
    } else {
      d, events := HandleStageError(rec, events, Stage, outcome, retries, now);
    }
  }

  /** Store the report id, set status, step and progress, and commit. */
  method StorePatternReport(rec: SessionRecord, reportId: string)
    modifies rec
    ensures rec.Row() == PatternsStoredRow(old(rec.Row()), reportId) && rec.committed == rec.Row()
  {
    rec.patternReportId := Some(reportId);
    rec.status := "patterns_discovered";
    rec.currentStep := "awaiting_validation";
    rec.progress := 100.0;
    rec.Commit();
  }

  /** The loop sending `pattern_discovered` for each pattern whose confidence is at least 0.7. */
  method AnnounceDiscovered(ps: seq<Pattern>, row: SessionRow) returns (es: seq<Sent>)
    ensures es == DiscoveredEvents(ps, row)
  {
    es := [];
    var i := 0;
    while i < |ps|
      invariant 0 <= i <= |ps|
      invariant es == DiscoveredEvents(ps[..i], row)
    {
      assert ps[..i + 1][..i] == ps[..i];
      if ps[i].confidence >= 70 {
        es := es + [Sent(PatternDiscovered(ps[i]), row)];
      }
      i := i + 1;
    }
    assert ps[..|ps|] == ps;
  }
}
