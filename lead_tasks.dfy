/**
 * The two tasks of `tasks/lead_tasks.py`. `generate_leads_task` starts, validates the pattern
 * report, passes three checkpoints, runs the mock lead generation, completes the session, then
 * announces completion and every high-priority lead; or takes the shared retry-or-fail ending.
 * `export_leads_task` looks a lead report up and returns a mock export record, retrying on any
 * error at most twice.
 */
module LeadTasks {
  import opened Wrappers
  import opened Strings
  import opened Models
  import opened SessionDb
  import opened Websocket
  import opened TaskRetry
  import opened MockServices

  const Step := "lead_generation"
  const Stage := "Lead generation"
  /** The progress texts the task sends, in order. */
  const StartText := "Starting lead generation based on discovered patterns..."
  const CollectingText := "Collecting company data from external sources..."
  const AnalyzingText := "Analyzing signals and matching patterns..."
  const ScoringText := "Scoring leads and prioritizing opportunities..."
  const DoneText := "Lead generation completed successfully"

  /** The row of a completed session: lead report stored, "completed" at progress 100, completion time set. */
  function CompletedRow(r: SessionRow, reportId: string, now: nat): SessionRow {
    r.(leadReportId := Some(reportId), leadsGenerated := true, status := "completed", currentStep := "completed",
       progress := 100.0, completedAt := Some(now))
  }

  /** One `lead_found` message per lead of priority high, in report order. */
  function HighLeadEvents(leads: seq<LeadAnalysis>, row: SessionRow): (es: seq<Sent>)
    ensures |es| == CountPriority(leads, High)
    ensures forall k :: 0 <= k < |es| ==>
              es[k].committed == row && es[k].message.LeadFound?
              && es[k].message.lead in leads && es[k].message.lead.priority == High
  {
    if leads == [] then []
    else
      var last := leads[|leads| - 1];
      HighLeadEvents(leads[..|leads| - 1], row) + (if last.priority == High then [Sent(LeadFound(last), row)] else [])
  }

  /**
   * The k-th announcement carries the k-th high-priority lead, in report order: the lead at
   * index j with exactly k high-priority leads before it.
   */
  lemma {:induction false} HighLeadEventsInOrder(leads: seq<LeadAnalysis>, row: SessionRow, k: nat)
    requires k < |HighLeadEvents(leads, row)|
    ensures exists j :: 0 <= j < |leads| && leads[j].priority == High && CountPriority(leads[..j], High) == k
                        && HighLeadEvents(leads, row)[k] == Sent(LeadFound(leads[j]), row)
  {
    var init := leads[..|leads| - 1];
    if k < |HighLeadEvents(init, row)| {
      HighLeadEventsInOrder(init, row, k);
      var j :| 0 <= j < |init| && init[j].priority == High && CountPriority(init[..j], High) == k
               && HighLeadEvents(init, row)[k] == Sent(LeadFound(init[j]), row);
      assert leads[..j] == init[..j];
    } else {
      var j := |leads| - 1;
      assert leads[..j] == init;
      assert leads[j].priority == High;
    }
  }

  /**
   * One run of the task on `r0`; `patternData` is None when it does not validate as a pattern
   * report, and `generate` is the lead generation service (the task calls `mock_lead_generation`,
   * see `Generation`).
   */
  function LeadRun(r0: SessionRow, patternData: Option<PatternReport>, outcome: StageOutcome, retries: nat, now: nat,
                   generate: PatternReport -> LeadReport): Run<LeadReport>
  {
    var r1 := BeginRow(r0, Step);
    var e1 := [Sent(ProgressUpdate(Step, 10.0, StartText), r1)];
    if patternData.None? then Run(r1, InvalidInput, e1)
    else
      var r2 := CheckpointRow(r1, 25.0);
      var r3 := CheckpointRow(r2, 50.0);
      var r4 := CheckpointRow(r3, 75.0);
      var e4 := e1 + [Sent(ProgressUpdate(Step, 25.0, CollectingText), r2),
                      Sent(ProgressUpdate(Step, 50.0, AnalyzingText), r3),
                      Sent(ProgressUpdate(Step, 75.0, ScoringText), r4)];
      if outcome.Completes? then
        var report := generate(patternData.value);
        var r5 := CompletedRow(r4, report.id, now);
        Run(r5, Done(report),
            e4 + [Sent(ProgressUpdate(Step, 100.0, DoneText), r5), Sent(AnalysisComplete(Step, LeadResults(report)), r5)]
               + HighLeadEvents(report.leads, r5))
      else
        StageErrorRun(r4, e4, Stage, outcome, retries, now)
  }

  /** The service the task calls: the report of `mock_lead_generation`, drawing ids from `uuid`. */
  function Generation(uuid: nat -> string): PatternReport -> LeadReport {
    p => MockLeadGenerationSpec(p, uuid).report
  }

  /**
   * A run that completes stores the lead report's id, marks leads generated, and moves the
   * session to "completed" at progress 100 with the completion time set, adding no error;
   * the report is the mock generation for the pattern report.
   */
  lemma LeadRunCompletes(r0: SessionRow, input: PatternReport, retries: nat, now: nat,
                         generate: PatternReport -> LeadReport)
    ensures var run := LeadRun(r0, Some(input), Completes, retries, now, generate);
            && run.decision == Done(generate(input))
            && run.row.leadReportId == Some(run.decision.result.id) && run.row.leadsGenerated
            && run.row.status == "completed" && run.row.currentStep == "completed"
            && run.row.progress == 100.0 && run.row.completedAt == Some(now) && run.row.errors == r0.errors
  {
  }

  /**
   * After `analysis_complete`, a completed run sends one `lead_found` per high-priority lead of
   * the report, and the mock generation always yields exactly two of them.
   */
  lemma LeadRunAnnouncesHigh(r0: SessionRow, input: PatternReport, retries: nat, now: nat, uuid: nat -> string)
    ensures var run := LeadRun(r0, Some(input), Completes, retries, now, Generation(uuid));
            && run.decision.Done? && |run.events| == 8
            && run.events[5].message == AnalysisComplete(Step, LeadResults(run.decision.result))
            && forall k :: 6 <= k < 8 ==>
                 run.events[k].message.LeadFound? && run.events[k].message.lead in run.decision.result.leads
                 && run.events[k].message.lead.priority == High
  {
    var run := LeadRun(r0, Some(input), Completes, retries, now, Generation(uuid));
    var report := MockLeadGenerationSpec(input, uuid).report;
    var high := HighLeadEvents(report.leads, run.row);
    assert run.events[6..] == high;
    MockLeadCounts(input, uuid);
  }

  /** A pattern report that does not validate ends the run after the start: "processing" at 10, no error, no retry. */
  lemma LeadRunInvalidInput(r0: SessionRow, outcome: StageOutcome, retries: nat, now: nat,
                            generate: PatternReport -> LeadReport)
    ensures var run := LeadRun(r0, None, outcome, retries, now, generate);
            && run.decision == InvalidInput && run.row.status == "processing" && run.row.progress == 10.0
            && run.row.errors == r0.errors && |run.events| == 1
  {
  }

  /**
   * A run whose generation raises stays at progress 75 and adds exactly one error; it retries
   * after 60 * 2^retries seconds exactly when the error is transient and fewer than three
   * retries have run, and fails otherwise; the session is never completed.
   */
  lemma LeadRunRaises(r0: SessionRow, input: PatternReport, outcome: StageOutcome, retries: nat, now: nat,
                      generate: PatternReport -> LeadReport)
    requires !outcome.Completes?
    ensures var run := LeadRun(r0, Some(input), outcome, retries, now, generate);
            && run.row.progress == 75.0 && run.row.currentStep == Step && run.row.completedAt == r0.completedAt
            && |run.row.errors| == |r0.errors| + 1 && run.row.errors[..|r0.errors|] == r0.errors
            && (run.decision.Retry? <==> outcome.Transient? && retries < 3)
            && (run.decision.Retry? ==> run.decision.countdown == 60 * Pow2(retries) && run.row.status == "processing")
            && (!run.decision.Retry? ==> run.decision == Failed(outcome.error) && run.row.status == "failed")
  {
  }

  /** The four messages every validated run sends first carry 10, 25, 50 and 75. */
  lemma LeadRunHead(r0: SessionRow, input: PatternReport, outcome: StageOutcome, retries: nat, now: nat,
                    generate: PatternReport -> LeadReport)
    ensures var ev := LeadRun(r0, Some(input), outcome, retries, now, generate).events;
            && |ev| >= 4 && ProgressValues(ev[..4]) == [10.0, 25.0, 50.0, 75.0]
  {
    var ev := LeadRun(r0, Some(input), outcome, retries, now, generate).events;
    ProgressValuesOfFour(ev[0], ev[1], ev[2], ev[3]);
    assert ev[..4] == [ev[0], ev[1], ev[2], ev[3]];
  }

  lemma LeadRunProgressCompletes(r0: SessionRow, input: PatternReport, retries: nat, now: nat,
                                 generate: PatternReport -> LeadReport)
    ensures ProgressValues(LeadRun(r0, Some(input), Completes, retries, now, generate).events)
            == [10.0, 25.0, 50.0, 75.0, 100.0]
  {
    var ev := LeadRun(r0, Some(input), Completes, retries, now, generate).events;
    LeadRunHead(r0, input, Completes, retries, now, generate);
    ProgressValuesOfTwo(ev[4], ev[5]);
    assert ev[4..6] == [ev[4], ev[5]];
    assert ev == ev[..4] + ev[4..6] + ev[6..];
    ProgressValuesConcat(ev[..4], ev[4..6]);
    ProgressValuesAppendQuiet(ev[..4] + ev[4..6], ev[6..]);
  }

  lemma LeadRunProgressRaises(r0: SessionRow, input: PatternReport, outcome: StageOutcome, retries: nat, now: nat,
                              generate: PatternReport -> LeadReport)
    requires !outcome.Completes?
    ensures ProgressValues(LeadRun(r0, Some(input), outcome, retries, now, generate).events) == [10.0, 25.0, 50.0, 75.0]
  {
    var ev := LeadRun(r0, Some(input), outcome, retries, now, generate).events;
    LeadRunHead(r0, input, outcome, retries, now, generate);
    assert ev == ev[..4] + [ev[4]];
    ProgressValuesSnoc(ev[..4], ev[4]);
  }

  /** Progress goes 10, 25, 50, 75, 100, or stops at 10 or at 75. */
  lemma LeadRunProgress(r0: SessionRow, patternData: Option<PatternReport>, outcome: StageOutcome, retries: nat, now: nat,
                        generate: PatternReport -> LeadReport)
    ensures var vs := ProgressValues(LeadRun(r0, patternData, outcome, retries, now, generate).events);
            && vs == (if patternData.None? then [10.0]
                      else if outcome.Completes? then [10.0, 25.0, 50.0, 75.0, 100.0]
                      else [10.0, 25.0, 50.0, 75.0])
            && StrictlyIncreasing(vs)
  {
    if patternData.None? {
      var ev := LeadRun(r0, patternData, outcome, retries, now, generate).events;
      assert ev == [] + [ev[0]];
      ProgressValuesSnoc([], ev[0]);
    } else if outcome.Completes? {
      LeadRunProgressCompletes(r0, patternData.value, retries, now, generate);
    } else {
      LeadRunProgressRaises(r0, patternData.value, outcome, retries, now, generate);
    }
  }

  /** Every progress value is committed to the row before the message announcing it is sent. */
  lemma LeadRunCommitsFirst(r0: SessionRow, patternData: Option<PatternReport>, outcome: StageOutcome, retries: nat,
                            now: nat, generate: PatternReport -> LeadReport)
    ensures CommittedBeforeSent(LeadRun(r0, patternData, outcome, retries, now, generate).events)
  {
  }

  /**
   * `generate_leads_task`: `rec` is the session row the query found (null when there is
   * none); the row it leaves is committed, and the messages are returned in the order sent.
   */
  method GenerateLeadsTask(rec: SessionRecord?, patternData: Option<PatternReport>, outcome: StageOutcome, retries: nat,
                           now: nat, uuid: nat -> string) returns (d: Decision<LeadReport>, events: seq<Sent>)
    modifies rec
    ensures rec == null ==> d == SessionNotFound && events == []
    ensures rec != null ==>
              var run := LeadRun(old(rec.Row()), patternData, outcome, retries, now, Generation(uuid));
              rec.Row() == run.row && rec.committed == run.row && d == run.decision && events == run.events
  {
    if rec == null {
      return SessionNotFound, [];
    }
    var e := Begin(rec, Step, StartText);
    events := [e];
    if patternData.None? {
      return InvalidInput, events;
    }
    var e2 := Checkpoint(rec, Step, 25.0, CollectingText);
    var e3 := Checkpoint(rec, Step, 50.0, AnalyzingText);
    var e4 := Checkpoint(rec, Step, 75.0, ScoringText);
    events := events + [e2, e3, e4];
    if outcome.Completes? {
      var generated := MockLeadGeneration(patternData.value, uuid);
      var report := generated.report;
      StoreLeadReport(rec, report.id, now);
      var row := rec.Row();
      events := events + [Sent(ProgressUpdate(Step, 100.0, DoneText), row), Sent(AnalysisComplete(Step, LeadResults(report)), row)];
      var found := AnnounceHighLeads(report.leads, row);
      events := events + found;
      d := Done(report);
    } else {
      d, events := HandleStageError(rec, events, Stage, outcome, retries, now);
    }
  }

  /** Store the lead report id, complete the session, and commit. */
  method StoreLeadReport(rec: SessionRecord, reportId: string, now: nat)
    modifies rec
    ensures rec.Row() == CompletedRow(old(rec.Row()), reportId, now) && rec.committed == rec.Row()
  {
    rec.leadReportId := Some(reportId);
    rec.leadsGenerated := true;
    rec.status := "completed";
    rec.currentStep := "completed";
    rec.progress := 100.0;
    rec.completedAt := Some(now);
    rec.Commit();
  }

  /** The loop sending `lead_found` for each lead whose priority is high. */
  method AnnounceHighLeads(leads: seq<LeadAnalysis>, row: SessionRow) returns (es: seq<Sent>)
    ensures es == HighLeadEvents(leads, row)
  {
    es := [];
    var i := 0;
    while i < |leads|
      invariant 0 <= i <= |leads|
      invariant es == HighLeadEvents(leads[..i], row)
    {
      assert leads[..i + 1][..i] == leads[..i];
      if leads[i].priority == High {
        es := es + [Sent(LeadFound(leads[i]), row)];
      }
      i := i + 1;
    }
    assert leads[..|leads|] == leads;
  }

  // ---------------------------------------------------------------- export_leads_task

  /** `max_retries=2` of the export task. */
  const ExportMaxRetries: nat := 2

  /** The export format a caller who names none gets. */
  const DefaultExportFormat := "json"

  /** The export record the task returns; `expiresAt` is in seconds, like the clock. */
  datatype Export = Export(exportId: string, format: string, leadReportId: string, downloadUrl: string,
                           expiresAt: nat, fileSize: nat)

  /** `export_{report}_{format}_{seconds}`. */
  function ExportId(leadReportId: string, format: string, now: nat): string {
    "export_" + leadReportId + "_" + format + "_" + NatToString(now)
  }

  /**
   * One run of `export_leads_task` against the set of stored lead report ids, at clock reading
   * `now` in whole seconds. The only error it can meet is a missing report, and like any error
   * it is retried while fewer than two retries have run, after 30 * 2^retries seconds.
   */
  function ExportLeads(stored: set<string>, leadReportId: string, format: string, retries: nat, now: nat): (d: Decision<Export>)
    ensures d.Done? <==> leadReportId in stored
    ensures d.Done? ==>
              && d.result.exportId == ExportId(leadReportId, format, now)
              && d.result.leadReportId == leadReportId && d.result.format == format
              && d.result.downloadUrl == "/api/v1/leads/download/" + d.result.exportId + "." + format
              && d.result.expiresAt == now + 24 * 3600 && d.result.fileSize == 1024 * 100
    ensures d.Retry? <==> leadReportId !in stored && retries < ExportMaxRetries
    ensures d.Retry? ==> d.countdown == 30 * Pow2(retries)
    ensures !d.Done? && !d.Retry? ==> d == Failed("Lead report " + leadReportId + " not found")
  {
    if leadReportId in stored then
      var id := ExportId(leadReportId, format, now);
      Done(Export(id, format, leadReportId, "/api/v1/leads/download/" + id + "." + format, now + 24 * 3600, 1024 * 100))
    else if retries < ExportMaxRetries then
      Retry(30 * Pow2(retries))
    else
      Failed("Lead report " + leadReportId + " not found")
  }

  /** The export id names its report and format, and ends with the clock reading in decimal. */
  lemma ExportIdNamesItsInputs(leadReportId: string, format: string, now: nat)
    ensures var id := ExportId(leadReportId, format, now);
            var p := |"export_"| + |leadReportId| + 1;
            && |id| > p + |format| + 1
            && id[|"export_"|..|"export_"| + |leadReportId|] == leadReportId
            && id[p..p + |format|] == format
            && DecimalValue(id[p + |format| + 1..]) == now
  {
    var id := ExportId(leadReportId, format, now);
    var p := |"export_"| + |leadReportId| + 1;
    assert id[p + |format| + 1..] == NatToString(now);
    NatToStringRoundTrip(now);
  }

  /** A call that names no format exports JSON: the id and the download link both say so. */
  lemma DefaultExportIsJson(stored: set<string>, leadReportId: string, retries: nat, now: nat)
    requires leadReportId in stored
    ensures var d := ExportLeads(stored, leadReportId, DefaultExportFormat, retries, now);
            d.Done? && d.result.format == "json"
            && d.result.downloadUrl == "/api/v1/leads/download/export_" + leadReportId + "_json_" + NatToString(now) + ".json"
  {
  }

  /** Two exports of the same report and format made at different seconds get different ids. */
  lemma ExportIdsDifferOverTime(leadReportId: string, format: string, a: nat, b: nat)
    requires a != b
    ensures ExportId(leadReportId, format, a) != ExportId(leadReportId, format, b)
  {
    var prefix := "export_" + leadReportId + "_" + format + "_";
    if ExportId(leadReportId, format, a) == ExportId(leadReportId, format, b) {
      assert ExportId(leadReportId, format, a)[|prefix|..] == NatToString(a);
      assert ExportId(leadReportId, format, b)[|prefix|..] == NatToString(b);
      NatToStringInjective(a, b);
    }
  }

  /** A missing report is retried after 30 and then 60 seconds, and the third run fails. */
  lemma MissingReportRetriesTwice(stored: set<string>, leadReportId: string, format: string, now: nat)
    requires leadReportId !in stored
    ensures ExportLeads(stored, leadReportId, format, 0, now) == Retry(30)
    ensures ExportLeads(stored, leadReportId, format, 1, now) == Retry(60)
    ensures ExportLeads(stored, leadReportId, format, 2, now).Failed?
  {
    assert Pow2(1) == 2;
  }
}
