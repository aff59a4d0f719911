/**
 * What the three worker tasks of `tasks/` share: the session-row steps they take (start,
 * progress checkpoint, retry, failure), each committed before the WebSocket message that
 * announces it, and the retry rule (only `ConnectionError`/`TimeoutError`, only while fewer
 * than three retries have run, countdown 60 * 2^retries seconds).
 *
 * The stage call itself is abstracted to a `StageOutcome`; every message a task sends is
 * logged as a `Sent` together with the row the database held when it was sent.
 */
module TaskRetry {
  import opened Wrappers
  import opened Strings
  import opened SessionDb
  import opened Websocket

  /** `max_retries=3` of the three stage tasks. */
  const MaxRetries: nat := 3

  function Pow2(n: nat): (r: nat)
    ensures r >= 1
  {
    if n == 0 then 1 else 2 * Pow2(n - 1)
  }

  /** The countdown of the retry scheduled after `retries` earlier retries. */
  function Backoff(retries: nat): nat {
    60 * Pow2(retries)
  }

  /** What the stage call does: return normally, raise a transient error, or raise anything else. */
  datatype StageOutcome = Completes | Transient(error: string) | OtherError(error: string)

  /** The condition under which a task schedules a retry instead of failing. */
  predicate RetriesOn(outcome: StageOutcome, retries: nat) {
    outcome.Transient? && retries < MaxRetries
  }

  /** How one run of a task ends. */
  datatype Decision<T> =
    | Done(result: T)
    | Retry(countdown: nat)
    | Failed(error: string)
    | SessionNotFound
    | InvalidInput

  /** A message the task sent, with the row the database held at that moment. */
  datatype Sent = Sent(message: Message, committed: SessionRow)

  /** One run: the row it leaves, how it ends, and what it sent. */
  datatype Run<T> = Run(row: SessionRow, decision: Decision<T>, events: seq<Sent>)

  /** The progress values announced by `progress_update` messages, in order. */
  function ProgressValues(events: seq<Sent>): seq<real> {
    if events == [] then []
    else ProgressValues(events[..|events| - 1])
         + (if events[|events| - 1].message.ProgressUpdate? then [events[|events| - 1].message.progress] else [])
  }

  /** Every `progress_update` announces a value the database already holds. */
  predicate CommittedBeforeSent(events: seq<Sent>) {
    forall k :: 0 <= k < |events| && events[k].message.ProgressUpdate? ==>
      events[k].committed.progress == events[k].message.progress
  }

  predicate StrictlyIncreasing(xs: seq<real>) {
    forall i, j :: 0 <= i < j < |xs| ==> xs[i] < xs[j]
  }

  /** Sending one more message adds its progress value, if it carries one, at the end. */
  lemma ProgressValuesSnoc(events: seq<Sent>, e: Sent)
    ensures ProgressValues(events + [e])
            == ProgressValues(events) + (if e.message.ProgressUpdate? then [e.message.progress] else [])
  {
    assert (events + [e])[..|events|] == events;
  }

  /** Messages that are not progress updates add no progress values. */
  lemma {:induction false} ProgressValuesAppendQuiet(events: seq<Sent>, more: seq<Sent>)
    requires forall k :: 0 <= k < |more| ==> !more[k].message.ProgressUpdate?
    ensures ProgressValues(events + more) == ProgressValues(events)
  {
    if more != [] {
      var front := more[..|more| - 1];
      ProgressValuesAppendQuiet(events, front);
      assert events + more == (events + front) + [more[|more| - 1]];
      ProgressValuesSnoc(events + front, more[|more| - 1]);
    } else {
      assert events + more == events;
    }
  }

  /** The progress value one message carries, if any. */
  function ProgressOf(e: Sent): seq<real> {
    if e.message.ProgressUpdate? then [e.message.progress] else []
  }

  lemma ProgressValuesOfTwo(a: Sent, b: Sent)
    ensures ProgressValues([a, b]) == ProgressOf(a) + ProgressOf(b)
  {
    assert [a, b][..1] == [a] && [a][..0] == [];
    assert ProgressValues([a]) == ProgressValues([]) + ProgressOf(a);
  }

  lemma {:induction false} ProgressValuesConcat(a: seq<Sent>, b: seq<Sent>)
    ensures ProgressValues(a + b) == ProgressValues(a) + ProgressValues(b)
  {
    if b == [] {
      assert a + b == a;
    } else {
      var front, last := b[..|b| - 1], b[|b| - 1];
      ProgressValuesConcat(a, front);
      assert a + b == (a + front) + [last];
      ProgressValuesSnoc(a + front, last);
      assert b == front + [last];
      ProgressValuesSnoc(front, last);
    }
  }

  lemma ProgressValuesOfThree(a: Sent, b: Sent, c: Sent)
    ensures ProgressValues([a, b, c]) == ProgressOf(a) + ProgressOf(b) + ProgressOf(c)
  {
    assert [a, b, c][..2] == [a, b];
    ProgressValuesOfTwo(a, b);
  }

  lemma ProgressValuesOfFour(a: Sent, b: Sent, c: Sent, d: Sent)
    ensures ProgressValues([a, b, c, d]) == ProgressOf(a) + ProgressOf(b) + ProgressOf(c) + ProgressOf(d)
  {
    assert [a, b, c, d][..3] == [a, b, c] && [a, b, c][..2] == [a, b];
    ProgressValuesOfTwo(a, b);
  }

  // ---------------------------------------------------------------- row steps

  /** The start of every task: status "processing", the task's step, progress 10. */
  function BeginRow(r: SessionRow, step: string): (c: SessionRow)
    ensures c.status == "processing" && c.currentStep == step && c.progress == 10.0
    ensures c.(status := r.status, currentStep := r.currentStep, progress := r.progress) == r
  {
    r.(status := "processing", currentStep := step, progress := 10.0)
  }

  /** A progress checkpoint: only the progress column changes. */
  function CheckpointRow(r: SessionRow, p: real): (c: SessionRow)
    ensures c.progress == p && c.(progress := r.progress) == r
  {
    r.(progress := p)
  }

  /** The error entry text of a retry, e.g. "Intent extraction failed (retry 1): timed out". */
  function RetryErrorText(stage: string, retries: nat, error: string): string {
    stage + " failed (retry " + NatToString(retries + 1) + "): " + error
  }

  /** The `retry_error` notice, e.g. "Intent extraction failed, retrying... (1/3)". */
  function RetryNotice(stage: string, retries: nat): Message {
    Error("retry_error", stage + " failed, retrying... (" + NatToString(retries + 1) + "/" + NatToString(MaxRetries) + ")")
  }

  /** The text of a final failure, used both for the error entry and the `processing_error` notice. */
  function FailText(stage: string, error: string): string {
    stage + " failed: " + error
  }

  /**
   * How a run ends once the stage call raised: with a retry (one error entry, status kept)
   * or a failure (status "failed", one error entry), the notice sent after the commit.
   */
  function StageErrorRun<T>(r: SessionRow, sent: seq<Sent>, stage: string, outcome: StageOutcome, retries: nat, now: nat): (run: Run<T>)
    requires !outcome.Completes?
    ensures |run.row.errors| == |r.errors| + 1 && run.row.errors[..|r.errors|] == r.errors
    ensures run.row.updatedAt == now
    ensures run.row.(status := r.status, errors := r.errors, updatedAt := r.updatedAt) == r
    ensures RetriesOn(outcome, retries) ==>
              && run.row.status == r.status
              && run.decision == Retry(Backoff(retries))
              && run.row.errors[|r.errors|].message == RetryErrorText(stage, retries, outcome.error)
              && run.events == sent + [Sent(RetryNotice(stage, retries), run.row)]
    ensures !RetriesOn(outcome, retries) ==>
              && run.row.status == "failed"
              && run.decision == Failed(outcome.error)
              && run.row.errors[|r.errors|].message == FailText(stage, outcome.error)
              && run.events == sent + [Sent(Error("processing_error", FailText(stage, outcome.error)), run.row)]
  {
    if RetriesOn(outcome, retries) then
      var c := WithErrorEntry(r, RetryErrorText(stage, retries, outcome.error), now);
      Run(c, Retry(Backoff(retries)), sent + [Sent(RetryNotice(stage, retries), c)])
    else
      var c := WithErrorEntry(r.(status := "failed"), FailText(stage, outcome.error), now);
      Run(c, Failed(outcome.error), sent + [Sent(Error("processing_error", FailText(stage, outcome.error)), c)])
  }

  // ---------------------------------------------------------------- retries across runs

  /**
   * The countdowns a task schedules when it is run again after each retry, the k-th run
   * meeting `outcomes[k]`; the sequence ends at the first run that does not retry.
   */
  function Countdowns(outcomes: seq<StageOutcome>, retries: nat): seq<nat>
    decreases |outcomes|
  {
    if outcomes == [] || !RetriesOn(outcomes[0], retries) then []
    else [Backoff(retries)] + Countdowns(outcomes[1..], retries + 1)
  }

  /**
   * However the stage keeps failing, a task retries at most three times in all, and the k-th
   * retry waits 60 * 2^(retries + k) seconds: 60, 120 and 240 from a first run.
   */
  lemma {:induction false} CountdownsBounded(outcomes: seq<StageOutcome>, retries: nat)
    ensures |Countdowns(outcomes, retries)| <= if retries <= MaxRetries then MaxRetries - retries else 0
    ensures forall k :: 0 <= k < |Countdowns(outcomes, retries)| ==> Countdowns(outcomes, retries)[k] == Backoff(retries + k)
  {
    if outcomes != [] && RetriesOn(outcomes[0], retries) {
      CountdownsBounded(outcomes[1..], retries + 1);
      var rest := Countdowns(outcomes[1..], retries + 1);
      forall k | 0 <= k < |Countdowns(outcomes, retries)|
        ensures Countdowns(outcomes, retries)[k] == Backoff(retries + k)
      {
        if k > 0 {
          assert Countdowns(outcomes, retries)[k] == rest[k - 1];
        }
      }
    }
  }

  /** Three transient failures in a row from a first run give the countdowns 60, 120 and 240. */
  lemma FirstRetries(e1: string, e2: string, e3: string, e4: string)
    ensures Countdowns([Transient(e1), Transient(e2), Transient(e3), Transient(e4)], 0) == [60, 120, 240]
  {
    var os := [Transient(e1), Transient(e2), Transient(e3), Transient(e4)];
    assert Countdowns(os[3..], 3) == [];
    assert os[2..][1..] == os[3..] && os[1..][1..] == os[2..];
    assert Countdowns(os[2..], 2) == [240];
    assert Countdowns(os[1..], 1) == [120, 240];
  }

  // ---------------------------------------------------------------- the steps as methods

  /** Start of a task: set status, step and progress 10, commit, then announce. */
  method Begin(rec: SessionRecord, step: string, text: string) returns (e: Sent)
    modifies rec
    ensures rec.Row() == BeginRow(old(rec.Row()), step) && rec.committed == rec.Row()
    ensures e == Sent(ProgressUpdate(step, 10.0, text), rec.Row())
  {
    rec.status := "processing";
    rec.currentStep := step;
    rec.progress := 10.0;
    rec.Commit();
    e := Sent(ProgressUpdate(step, 10.0, text), rec.Row());
  }

  /** A checkpoint: set the progress, commit, then announce. */
  method Checkpoint(rec: SessionRecord, step: string, p: real, text: string) returns (e: Sent)
    modifies rec
    ensures rec.Row() == CheckpointRow(old(rec.Row()), p) && rec.committed == rec.Row()
    ensures e == Sent(ProgressUpdate(step, p, text), rec.Row())
  {
    rec.progress := p;
    rec.Commit();
    e := Sent(ProgressUpdate(step, p, text), rec.Row());
  }

  /** The `except` branch around the stage call: retry or fail, commit, then send the notice. */
  method HandleStageError<T>(rec: SessionRecord, sent: seq<Sent>, stage: string, outcome: StageOutcome, retries: nat, now: nat)
    returns (d: Decision<T>, events: seq<Sent>)
    requires !outcome.Completes?
    modifies rec
    ensures var run: Run<T> := StageErrorRun(old(rec.Row()), sent, stage, outcome, retries, now);
            rec.Row() == run.row && rec.committed == run.row && d == run.decision && events == run.events
  {
    if outcome.Transient? && retries < MaxRetries {
      rec.AddError(RetryErrorText(stage, retries, outcome.error), now);
      rec.Commit();
      d := Retry(Backoff(retries));
      events := sent + [Sent(RetryNotice(stage, retries), rec.Row())];
    } else {
      rec.status := "failed";
      rec.AddError(FailText(stage, outcome.error), now);
      rec.Commit();
      d := Failed(outcome.error);
      events := sent + [Sent(Error("processing_error", FailText(stage, outcome.error)), rec.Row())];
    }
  }
}
