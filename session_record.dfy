/**
 * The database-backed session record of `models/db/session.py`. Status and step are plain
 * strings here (the worker tasks write values such as "processing" that the in-memory
 * enumeration does not have), and errors are structured `{message, timestamp}` entries.
 * The record object carries, besides its columns, the row as last committed, so that what
 * a reader of the database sees at any point is part of the model.
 */
module SessionDb {
  import opened Wrappers
  import opened Models

  /** One entry of the `errors` column; the timestamp is a clock reading. */
  datatype ErrorEntry = ErrorEntry(message: string, timestamp: nat)

  /** The columns of one `sessions` row. */
  datatype SessionRow = SessionRow(
    id: string,
    userInput: string,
    status: string,
    currentStep: string,
    progress: real,
    extractedIntent: Option<IntentResult>,
    patternReportId: Option<string>,
    patternsConfirmed: bool,
    leadReportId: Option<string>,
    leadsGenerated: bool,
    userConfirmations: map<string, bool>,
    errors: seq<ErrorEntry>,
    createdAt: nat,
    updatedAt: nat,
    completedAt: Option<nat>)

  /** The column defaults of a freshly inserted row. */
  predicate IsNewRow(r: SessionRow) {
    && r.status == "pending"
    && r.currentStep == "intent_extraction"
    && r.progress == 0.0
    && r.extractedIntent == None
    && r.patternReportId == None && !r.patternsConfirmed
    && r.leadReportId == None && !r.leadsGenerated
    && r.userConfirmations == map[] && r.errors == []
    && r.completedAt == None
  }

  /** The row `complete_session()` leaves: status and step "completed", progress 100, both stamps set. */
  function CompleteRow(r: SessionRow, now: nat): (c: SessionRow)
    ensures c.status == "completed" && c.currentStep == "completed" && c.progress == 100.0
    ensures c.completedAt == Some(now) && c.updatedAt == now
    ensures c.(status := r.status, currentStep := r.currentStep, progress := r.progress,
               completedAt := r.completedAt, updatedAt := r.updatedAt) == r
  {
    r.(status := "completed", currentStep := "completed", progress := 100.0,
       completedAt := Some(now), updatedAt := now)
  }

  /** The row `add_error(message)` leaves: one more entry at the end, earlier ones in order. */
  function WithErrorEntry(r: SessionRow, message: string, now: nat): (c: SessionRow)
    ensures |c.errors| == |r.errors| + 1
    ensures c.errors[..|r.errors|] == r.errors
    ensures c.errors[|r.errors|] == ErrorEntry(message, now)
    ensures c.updatedAt == now
    ensures c.(errors := r.errors, updatedAt := r.updatedAt) == r
  {
    r.(errors := r.errors + [ErrorEntry(message, now)], updatedAt := now)
  }

  /** Errors only accumulate: a run of `add_error` calls keeps every earlier entry, in order. */
  lemma {:induction false} ErrorsOnlyGrow(r: SessionRow, messages: seq<string>, now: nat)
    ensures var last := AddErrors(r, messages, now);
            |last.errors| == |r.errors| + |messages|
            && last.errors[..|r.errors|] == r.errors
            && forall k :: 0 <= k < |messages| ==> last.errors[|r.errors| + k].message == messages[k]
  {
    if messages != [] {
      var front := messages[..|messages| - 1];
      ErrorsOnlyGrow(r, front, now);
      var mid := AddErrors(r, front, now);
      var last := WithErrorEntry(mid, messages[|messages| - 1], now);
      assert AddErrors(r, messages, now) == last;
      assert last.errors[..|mid.errors|] == mid.errors;
      assert last.errors[..|r.errors|] == mid.errors[..|r.errors|];
      forall k | 0 <= k < |messages|
        ensures last.errors[|r.errors| + k].message == messages[k]
      {
        if k < |front| {
          assert last.errors[|r.errors| + k] == mid.errors[|r.errors| + k];
        }
      }
    }
  }

  /** `add_error` applied to each message in turn. */
  function AddErrors(r: SessionRow, messages: seq<string>, now: nat): SessionRow {
    if messages == [] then r
    else WithErrorEntry(AddErrors(r, messages[..|messages| - 1], now), messages[|messages| - 1], now)
  }

  /** `SessionDB`: the mapped object of one row, plus the row as the database holds it. */
  class SessionRecord {
    var id: string
    var userInput: string
    var status: string
    var currentStep: string
    var progress: real
    var extractedIntent: Option<IntentResult>
    var patternReportId: Option<string>
    var patternsConfirmed: bool
    var leadReportId: Option<string>
    var leadsGenerated: bool
    var userConfirmations: map<string, bool>
    var errors: seq<ErrorEntry>
    var createdAt: nat
    var updatedAt: nat
    var completedAt: Option<nat>
    /** The row as of the last commit. */
    var committed: SessionRow

    function Row(): SessionRow
      reads this
    {
      SessionRow(id, userInput, status, currentStep, progress, extractedIntent, patternReportId,
                 patternsConfirmed, leadReportId, leadsGenerated, userConfirmations, errors,
                 createdAt, updatedAt, completedAt)
    }

    /** A row inserted with every column at its default, and committed. */
    constructor (id: string, userInput: string, now: nat)
      ensures IsNewRow(Row()) && Row().id == id && Row().userInput == userInput
      ensures Row().createdAt == now && Row().updatedAt == now
      ensures committed == Row()
    {
      this.id := id;
      this.userInput := userInput;
      status := "pending";
      currentStep := "intent_extraction";
      progress := 0.0;
      extractedIntent := None;
      patternReportId := None;
      patternsConfirmed := false;
      leadReportId := None;
      leadsGenerated := false;
      userConfirmations := map[];
      errors := [];
      createdAt := now;
      updatedAt := now;
      completedAt := None;
      committed := SessionRow(id, userInput, "pending", "intent_extraction", 0.0, None, None, false,
                              None, false, map[], [], now, now, None);
    }

    method CompleteSession(now: nat)
      modifies this
      ensures Row() == CompleteRow(old(Row()), now)
      ensures committed == old(committed)
    {
      status := "completed";
      currentStep := "completed";
      progress := 100.0;
      completedAt := Some(now);
      updatedAt := now;
    }

    method AddError(message: string, now: nat)
      modifies this
      ensures Row() == WithErrorEntry(old(Row()), message, now)
      ensures committed == old(committed)
    {
      errors := errors + [ErrorEntry(message, now)];
      updatedAt := now;
    }

    /** `db.commit()`: the database now holds the object's columns. */
    method Commit()
      modifies this
      ensures committed == Row() && Row() == old(Row())
    {
      committed := Row();
    }
  }
}
