/**
 * The in-memory session record of `models/session.py`: the `SessionStatus` enumeration and
 * the `SessionState` object with its three mutators. Timestamps are clock readings passed in
 * as `now`.
 */
module SessionModel {
  import opened Wrappers
  import opened Models

  datatype SessionStatus =
    | Pending
    | IntentExtracted
    | PatternDiscovery
    | PatternsValidated
    | LeadGeneration
    | Completed
    | Failed

  /** The string value of each member, as the enumeration declares it. */
  function StatusValue(st: SessionStatus): string {
    match st
    case Pending => "pending"
    case IntentExtracted => "intent_extracted"
    case PatternDiscovery => "pattern_discovery"
    case PatternsValidated => "patterns_validated"
    case LeadGeneration => "lead_generation"
    case Completed => "completed"
    case Failed => "failed"
  }

  /** `SessionStatus(v)`: the member whose value is `v`; None where Python raises ValueError. */
  function ParseStatus(v: string): (r: Option<SessionStatus>)
    ensures r.Some? ==> StatusValue(r.value) == v
    ensures r.None? ==> forall st :: StatusValue(st) != v
  {
    if v == "pending" then Some(Pending)
    else if v == "intent_extracted" then Some(IntentExtracted)
    else if v == "pattern_discovery" then Some(PatternDiscovery)
    else if v == "patterns_validated" then Some(PatternsValidated)
    else if v == "lead_generation" then Some(LeadGeneration)
    else if v == "completed" then Some(Completed)
    else if v == "failed" then Some(Failed)
    else None
  }

  /** The enumeration has exactly seven members, with seven distinct values. */
  lemma StatusValuesDistinct()
    ensures |set st: SessionStatus | true :: StatusValue(st)| == 7
    ensures forall st :: ParseStatus(StatusValue(st)) == Some(st)
  {
    var vs := set st: SessionStatus | true :: StatusValue(st);
    assert vs == {"pending", "intent_extracted", "pattern_discovery", "patterns_validated",
                  "lead_generation", "completed", "failed"} by {
      assert StatusValue(Pending) in vs && StatusValue(IntentExtracted) in vs;
      assert StatusValue(PatternDiscovery) in vs && StatusValue(PatternsValidated) in vs;
      assert StatusValue(LeadGeneration) in vs && StatusValue(Completed) in vs;
      assert StatusValue(Failed) in vs;
    }
  }

  /** The value of every field of a `SessionState`. */
  datatype SessionValue = SessionValue(
    id: string,
    userInput: string,
    extractedIntent: Json,
    status: SessionStatus,
    currentStep: string,
    progress: real,
    patternReportId: Option<string>,
    patternsConfirmed: bool,
    leadReportId: Option<string>,
    leadsGenerated: bool,
    userConfirmations: map<string, bool>,
    errors: seq<string>,
    retryCount: int,
    createdAt: nat,
    updatedAt: nat,
    completedAt: Option<nat>)

  /** The field defaults: a session that has just been created. */
  predicate IsFresh(v: SessionValue) {
    && v.extractedIntent == JNull
    && v.status == Pending
    && v.currentStep == "intent_extraction"
    && v.progress == 0.0
    && v.patternReportId == None && !v.patternsConfirmed
    && v.leadReportId == None && !v.leadsGenerated
    && v.userConfirmations == map[] && v.errors == [] && v.retryCount == 0
    && v.completedAt == None
  }

  /** The value `update_progress(step, progress)` leaves: step and progress, nothing else. */
  function WithProgress(v: SessionValue, step: string, progress: real): (r: SessionValue)
    ensures r.currentStep == step && r.progress == progress
    ensures r.(currentStep := v.currentStep, progress := v.progress) == v
  {
    v.(currentStep := step, progress := progress)
  }

  /** The value `add_error(error)` leaves: one more error at the end, earlier ones kept. */
  function WithError(v: SessionValue, error: string, now: nat): (r: SessionValue)
    ensures |r.errors| == |v.errors| + 1
    ensures r.errors[..|v.errors|] == v.errors && r.errors[|v.errors|] == error
    ensures r.(errors := v.errors, updatedAt := v.updatedAt) == v
  {
    v.(errors := v.errors + [error], updatedAt := now)
  }

  /** The value `complete_session()` leaves; the current step is not touched. */
  function WithCompletion(v: SessionValue, now: nat): (r: SessionValue)
    ensures r.status == Completed && r.progress == 100.0 && r.completedAt.Some?
    ensures r.currentStep == v.currentStep && r.errors == v.errors
    ensures r.(status := v.status, progress := v.progress, completedAt := v.completedAt, updatedAt := v.updatedAt) == v
  {
    v.(status := Completed, progress := 100.0, completedAt := Some(now), updatedAt := now)
  }

  /** `SessionState`: one analysis session, updated in place. */
  class SessionState {
    var id: string
    var userInput: string
    var extractedIntent: Json
    var status: SessionStatus
    var currentStep: string
    var progress: real
    var patternReportId: Option<string>
    var patternsConfirmed: bool
    var leadReportId: Option<string>
    var leadsGenerated: bool
    var userConfirmations: map<string, bool>
    var errors: seq<string>
    var retryCount: int
    var createdAt: nat
    var updatedAt: nat
    var completedAt: Option<nat>

    function Value(): SessionValue
      reads this
    {
      SessionValue(id, userInput, extractedIntent, status, currentStep, progress, patternReportId,
                   patternsConfirmed, leadReportId, leadsGenerated, userConfirmations, errors,
                   retryCount, createdAt, updatedAt, completedAt)
    }

    /** `SessionState(id=..., user_input=...)` with every other field at its default. */
    constructor (id: string, userInput: string, now: nat)
      ensures Value().id == id && Value().userInput == userInput
      ensures IsFresh(Value()) && 0.0 <= progress <= 100.0
      ensures createdAt == now && updatedAt == now
    {
      this.id := id;
      this.userInput := userInput;
      extractedIntent := JNull;
      status := Pending;
      currentStep := "intent_extraction";
      progress := 0.0;
      patternReportId := None;
      patternsConfirmed := false;
      leadReportId := None;
      leadsGenerated := false;
      userConfirmations := map[];
      errors := [];
      retryCount := 0;
      createdAt := now;
      updatedAt := now;
      completedAt := None;
    }

    method UpdateProgress(step: string, progress: real)
      modifies this
      ensures Value() == WithProgress(old(Value()), step, progress)
    {
      this.currentStep := step;
      this.progress := progress;
    }

    method AddError(error: string, now: nat)
      modifies this
      ensures Value() == WithError(old(Value()), error, now)
    {
      errors := errors + [error];
      updatedAt := now;
    }

    method CompleteSession(now: nat)
      modifies this
      ensures Value() == WithCompletion(old(Value()), now)
    {
      status := Completed;
      progress := 100.0;
      completedAt := Some(now);
      updatedAt := now;
    }
  }
}
