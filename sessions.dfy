/**
 * The session API of `api/v1/endpoints/sessions.py`: a process-wide dictionary of
 * `SessionState` objects keyed by id, and the create / get / update / delete / list /
 * confirm commands on it. Ids come from a uuid oracle and timestamps from a clock, both
 * passed in. A missing id is the HTTP 404 of the source; an unknown status string is the
 * ValueError that `SessionStatus(...)` raises; a `user_confirmations` value that
 * `dict.update` cannot merge is the TypeError or ValueError it raises.
 */
module Sessions {
  import opened Wrappers
  import opened Models
  import opened SessionModel

  datatype StoreError = NotFound | InvalidStatus(value: string) | NotMergeable(error: string)

  /**
   * The `user_confirmations` value of an update request: answers that `dict.update` merges,
   * or a value it rejects (a number, a string, a list that is not of pairs), with the error.
   */
  datatype Confirmations = Answers(answers: map<string, bool>) | Rejected(error: string)

  /**
   * The body of an update request: each whitelisted key, if present. A present key whose
   * value is None sets the field to None, hence the nested options.
   */
  datatype Updates = Updates(
    status: Option<string>,
    currentStep: Option<string>,
    progress: Option<real>,
    extractedIntent: Option<Json>,
    patternReportId: Option<Option<string>>,
    patternsConfirmed: Option<bool>,
    leadReportId: Option<Option<string>>,
    leadsGenerated: Option<bool>,
    userConfirmations: Option<Confirmations>)

  /** The request carries no status, or one that names a member of `SessionStatus`. */
  predicate StatusAccepted(u: Updates) {
    u.status.None? || ParseStatus(u.status.value).Some?
  }

  /** The request names `user_confirmations` with a value `dict.update` rejects. */
  predicate MergeFails(u: Updates) {
    u.userConfirmations.Some? && u.userConfirmations.value.Rejected?
  }

  /**
   * The session `update_session` leaves: each whitelisted field that the request names takes
   * the requested value, `user_confirmations` is merged into rather than replaced, and
   * nothing outside the whitelist changes except `updated_at`. When the merge raises, the
   * eight fields written before it keep their new values, while the answers and
   * `updated_at` stay as they were.
   */
  function ApplyUpdates(v: SessionValue, u: Updates, now: nat): (r: SessionValue)
    requires StatusAccepted(u)
    ensures u.status.Some? ==> StatusValue(r.status) == u.status.value
    ensures u.status.None? ==> r.status == v.status
    ensures r.currentStep == u.currentStep.GetOr(v.currentStep)
    ensures r.progress == u.progress.GetOr(v.progress)
    ensures r.extractedIntent == u.extractedIntent.GetOr(v.extractedIntent)
    ensures r.patternReportId == u.patternReportId.GetOr(v.patternReportId)
    ensures r.patternsConfirmed == u.patternsConfirmed.GetOr(v.patternsConfirmed)
    ensures r.leadReportId == u.leadReportId.GetOr(v.leadReportId)
    ensures r.leadsGenerated == u.leadsGenerated.GetOr(v.leadsGenerated)
    ensures r.id == v.id && r.userInput == v.userInput && r.errors == v.errors
    ensures r.retryCount == v.retryCount && r.createdAt == v.createdAt && r.completedAt == v.completedAt
    ensures !MergeFails(u) ==> r.updatedAt == now
    ensures MergeFails(u) ==> r.updatedAt == v.updatedAt && r.userConfirmations == v.userConfirmations
  {
    WriteReportFields(WriteStateFields(v, u), u, now)
  }

  /** The request's status (converted), step, progress and intent, where it names them. */
  function WriteStateFields(v: SessionValue, u: Updates): (r: SessionValue)
    requires StatusAccepted(u)
    ensures r == v.(status := r.status, currentStep := r.currentStep, progress := r.progress,
                    extractedIntent := r.extractedIntent)
  {
    v.(status := if u.status.Some? then ParseStatus(u.status.value).value else v.status,
       currentStep := u.currentStep.GetOr(v.currentStep),
       progress := u.progress.GetOr(v.progress),
       extractedIntent := u.extractedIntent.GetOr(v.extractedIntent))
  }

  /**
   * The request's report links and flags where it names them, then the merged answers and
   * the stamp; a rejected merge stops before both.
   */
  function WriteReportFields(v: SessionValue, u: Updates, now: nat): (r: SessionValue)
    ensures r == v.(patternReportId := r.patternReportId, patternsConfirmed := r.patternsConfirmed,
                    leadReportId := r.leadReportId, leadsGenerated := r.leadsGenerated,
                    userConfirmations := r.userConfirmations, updatedAt := r.updatedAt)
    ensures !MergeFails(u) ==> r.updatedAt == now
    ensures MergeFails(u) ==> r.updatedAt == v.updatedAt && r.userConfirmations == v.userConfirmations
  {
    var linked := v.(patternReportId := u.patternReportId.GetOr(v.patternReportId),
                     patternsConfirmed := u.patternsConfirmed.GetOr(v.patternsConfirmed),
                     leadReportId := u.leadReportId.GetOr(v.leadReportId),
                     leadsGenerated := u.leadsGenerated.GetOr(v.leadsGenerated));
    if u.userConfirmations.None? then linked.(updatedAt := now)
    else match u.userConfirmations.value
      case Rejected(_) => linked
      case Answers(a) => linked.(userConfirmations := v.userConfirmations + a, updatedAt := now)
  }

  /**
   * `user_confirmations` is merged: a step the request names takes the requested answer,
   * every other recorded answer is kept, and no step appears from nowhere.
   */
  lemma ApplyUpdatesMerges(v: SessionValue, u: Updates, now: nat)
    requires StatusAccepted(u)
    ensures forall k :: k in v.userConfirmations && !(u.userConfirmations.Some? && u.userConfirmations.value.Answers?
                                                       && k in u.userConfirmations.value.answers)
                        ==> k in ApplyUpdates(v, u, now).userConfirmations && ApplyUpdates(v, u, now).userConfirmations[k] == v.userConfirmations[k]
    ensures u.userConfirmations.Some? && u.userConfirmations.value.Answers? ==>
              forall k :: k in u.userConfirmations.value.answers
                          ==> k in ApplyUpdates(v, u, now).userConfirmations
                              && ApplyUpdates(v, u, now).userConfirmations[k] == u.userConfirmations.value.answers[k]
    ensures forall k :: k in ApplyUpdates(v, u, now).userConfirmations ==>
              k in v.userConfirmations
              || (u.userConfirmations.Some? && u.userConfirmations.value.Answers? && k in u.userConfirmations.value.answers)
  {
  }

  /** The error `confirm_step` records when the user rejects `step`. */
  function RejectionMessage(step: string): string {
    "User rejected step: " + step
  }

  /**
   * The session `confirm_step(step, confirmed)` leaves. The answer is always recorded;
   * a confirmation advances the three known steps and leaves any other step alone; a
   * rejection fails the session and logs exactly one error, whatever the status was.
   */
  function Confirm(v: SessionValue, step: string, confirmed: bool, now: nat): (r: SessionValue)
    ensures r.userConfirmations == v.userConfirmations[step := confirmed]
    ensures confirmed && step == "intent_extraction" ==>
              r.status == IntentExtracted && r.currentStep == "pattern_discovery"
    ensures confirmed && step == "patterns_validation" ==>
              r.status == PatternsValidated && r.currentStep == "lead_generation"
    ensures confirmed && step == "lead_generation" ==>
              r.status == Completed && r.progress == 100.0 && r.completedAt == Some(now)
              && r.currentStep == v.currentStep
    ensures confirmed && step != "intent_extraction" && step != "patterns_validation" && step != "lead_generation" ==>
              r.status == v.status && r.currentStep == v.currentStep && r.progress == v.progress
    ensures confirmed ==> r.errors == v.errors
    ensures !confirmed ==>
              r.status == Failed && r.errors == v.errors + [RejectionMessage(step)]
              && r.currentStep == v.currentStep && r.progress == v.progress
    ensures confirmed && (step == "intent_extraction" || step == "patterns_validation") ==> r.progress == v.progress
    ensures !(confirmed && step == "lead_generation") ==> r.completedAt == v.completedAt
    ensures 0.0 <= v.progress <= 100.0 ==> 0.0 <= r.progress <= 100.0
    ensures r.id == v.id && r.userInput == v.userInput && r.createdAt == v.createdAt && r.updatedAt == now
    ensures r.extractedIntent == v.extractedIntent && r.retryCount == v.retryCount
    ensures r.patternReportId == v.patternReportId && r.patternsConfirmed == v.patternsConfirmed
    ensures r.leadReportId == v.leadReportId && r.leadsGenerated == v.leadsGenerated
  {
    var answered := v.(userConfirmations := v.userConfirmations[step := confirmed]);
    var moved :=
      if !confirmed then WithError(answered.(status := Failed), RejectionMessage(step), now)
      else if step == "intent_extraction" then answered.(status := IntentExtracted, currentStep := "pattern_discovery")
      else if step == "patterns_validation" then answered.(status := PatternsValidated, currentStep := "lead_generation")
      else if step == "lead_generation" then WithCompletion(answered, now)
      else answered;
    moved.(updatedAt := now)
  }

  /**
   * Nothing stops a finished session from moving again: a completed session that is
   * rejected becomes failed, and a failed one that is confirmed at the first step goes
   * back to `intent_extracted`.
   */
  lemma ConfirmHasNoTerminalGuard(v: SessionValue, step: string, now: nat)
    ensures v.status == Completed ==> Confirm(v, step, false, now).status == Failed
    ensures v.status == Failed ==> Confirm(v, "intent_extraction", true, now).status == IntentExtracted
  {
  }

  /** The three confirmations in order take a fresh session to completion with nothing logged. */
  lemma ConfirmHappyPath(v: SessionValue, t1: nat, t2: nat, t3: nat)
    requires IsFresh(v)
    ensures var done := Confirm(Confirm(Confirm(v, "intent_extraction", true, t1), "patterns_validation", true, t2),
                                "lead_generation", true, t3);
            done.status == Completed && done.progress == 100.0 && done.errors == []
            && done.currentStep == "lead_generation"
            && done.userConfirmations == map["intent_extraction" := true, "patterns_validation" := true,
                                              "lead_generation" := true]
  {
  }

  /**
   * The body of `update_session` on the session it found: each whitelisted key present in
   * the request is written (a key that is absent leaves its field as it is), the status
   * converted first; then `updated_at`. `merged` is false when the answers could not be
   * merged, in which case the method stops there, as the raise does.
   */
  method ApplyTo(s: SessionState, u: Updates, now: nat) returns (merged: bool)
    requires StatusAccepted(u)
    modifies s
    ensures merged <==> !MergeFails(u)
    ensures s.Value() == ApplyUpdates(old(s.Value()), u, now)
  {
    ApplyStateFields(s, u);
    merged := ApplyReportFields(s, u, now);
  }

  method ApplyStateFields(s: SessionState, u: Updates)
    requires StatusAccepted(u)
    modifies s
    ensures s.Value() == WriteStateFields(old(s.Value()), u)
  {
    if u.status.Some? {
      s.status := ParseStatus(u.status.value).value;
    }
    s.currentStep := u.currentStep.GetOr(s.currentStep);
    s.progress := u.progress.GetOr(s.progress);
    s.extractedIntent := u.extractedIntent.GetOr(s.extractedIntent);
  }

  method ApplyReportFields(s: SessionState, u: Updates, now: nat) returns (merged: bool)
    modifies s
    ensures merged <==> !MergeFails(u)
    ensures s.Value() == WriteReportFields(old(s.Value()), u, now)
  {
    s.patternReportId := u.patternReportId.GetOr(s.patternReportId);
    s.patternsConfirmed := u.patternsConfirmed.GetOr(s.patternsConfirmed);
    s.leadReportId := u.leadReportId.GetOr(s.leadReportId);
    s.leadsGenerated := u.leadsGenerated.GetOr(s.leadsGenerated);
    ghost var linked := s.Value();
    if u.userConfirmations.Some? {
      match u.userConfirmations.value
      case Rejected(_) =>
        assert linked == WriteReportFields(old(s.Value()), u, now);
        return false;
      case Answers(a) =>
        s.userConfirmations := s.userConfirmations + a;
    }
    s.updatedAt := now;
    merged := true;
  }

  /** The body of `confirm_step` on the session it found. */
  method ConfirmOn(s: SessionState, step: string, confirmed: bool, now: nat)
    modifies s
    ensures s.Value() == Confirm(old(s.Value()), step, confirmed, now)
  {
    s.userConfirmations := s.userConfirmations[step := confirmed];
    if confirmed {
      if step == "intent_extraction" {
        s.status := IntentExtracted;
        s.currentStep := "pattern_discovery";
      } else if step == "patterns_validation" {
        s.status := PatternsValidated;
        s.currentStep := "lead_generation";
      } else if step == "lead_generation" {
        s.CompleteSession(now);
      }
    } else {
      s.status := Failed;
      s.AddError(RejectionMessage(step), now);
    }
    s.updatedAt := now;
  }

  /** The module-level `sessions` dictionary together with the commands on it. */
  class SessionStore {
    var sessions: map<string, SessionState>

    /** No two ids share one session object. */
    ghost predicate Valid()
      reads this
    {
      forall a, b :: a in sessions && b in sessions && a != b ==> sessions[a] != sessions[b]
    }

    /** The value of every stored session, by id. */
    ghost function Snapshot(): map<string, SessionValue>
      reads this, sessions.Values
    {
      map k | k in sessions :: sessions[k].Value()
    }

    constructor ()
      ensures Valid() && sessions == map[]
    {
      sessions := map[];
    }

    /** `create_session`: stores a fresh pending session under the oracle's id and returns it. */
    method CreateSession(userInput: string, id: string, now: nat) returns (s: SessionState)
      requires Valid()
      modifies this
      ensures Valid() && fresh(s)
      ensures sessions == old(sessions)[id := s]
      ensures Snapshot() == old(Snapshot())[id := s.Value()]
      ensures s.Value().id == id && s.Value().userInput == userInput && IsFresh(s.Value())
      ensures id !in old(sessions) ==> |sessions| == |old(sessions)| + 1
    {
      s := new SessionState(id, userInput, now);
      ghost var v := s.Value();
      sessions := sessions[id := s];
      assert s.Value() == v;
    }

    /** `get_session`: the stored object itself, or 404. */
    method GetSession(id: string) returns (r: Result<SessionState, StoreError>)
      ensures id in sessions ==> r == Success(sessions[id])
      ensures id !in sessions ==> r == Failure(NotFound)
    {
      if id !in sessions {
        return Failure(NotFound);
      }
      r := Success(sessions[id]);
    }

    /** When only the session stored under `id` changed, only its entry of the snapshot changed. */
    twostate lemma SnapshotAfterOne(id: string)
      requires Valid() && id in sessions && sessions == old(sessions)
      requires forall k :: k in sessions && k != id ==> unchanged(sessions[k])
      ensures Snapshot() == old(Snapshot())[id := sessions[id].Value()]
    {
    }

    /**
     * `update_session`: 404 for an unknown id; an unknown status string raises before any
     * field is written; otherwise the stored session takes `ApplyUpdates`, and no other
     * session changes. A rejected `user_confirmations` raises after the other fields are
     * written, so the session is left half-updated behind the error.
     */
    method UpdateSession(id: string, u: Updates, now: nat) returns (r: Result<SessionState, StoreError>)
      requires Valid()
      modifies if id in sessions then {sessions[id]} else {}
      ensures sessions == old(sessions) && Valid()
      ensures id !in sessions ==> r == Failure(NotFound) && Snapshot() == old(Snapshot())
      ensures id in sessions && !StatusAccepted(u) ==>
                r == Failure(InvalidStatus(u.status.value)) && Snapshot() == old(Snapshot())
      ensures id in sessions && StatusAccepted(u) ==>
                Snapshot() == old(Snapshot())[id := ApplyUpdates(old(Snapshot())[id], u, now)]
      ensures id in sessions && StatusAccepted(u) && !MergeFails(u) ==> r == Success(sessions[id])
      ensures id in sessions && StatusAccepted(u) && MergeFails(u) ==>
                r == Failure(NotMergeable(u.userConfirmations.value.error))
    {
      if id !in sessions {
        return Failure(NotFound);
      }
      var s := sessions[id];
      if !StatusAccepted(u) {
        return Failure(InvalidStatus(u.status.value));
      }
      var merged := ApplyTo(s, u, now);
      SnapshotAfterOne(id);
      if merged {
        r := Success(s);
      } else {
        r := Failure(NotMergeable(u.userConfirmations.value.error));
      }
    }

    /** `delete_session`: removes exactly that id, or 404. */
    method DeleteSession(id: string) returns (r: Result<string, StoreError>)
      requires Valid()
      modifies this
      ensures Valid()
      ensures id in old(sessions) ==>
                r == Success("Session deleted successfully")
                && sessions == old(sessions) - {id} && Snapshot() == old(Snapshot()) - {id}
      ensures id !in old(sessions) ==> r == Failure(NotFound) && sessions == old(sessions)
    {
      if id !in sessions {
        return Failure(NotFound);
      }
      sessions := sessions - {id};
      r := Success("Session deleted successfully");
    }

    /** `list_sessions`: every stored session once. */
    method ListSessions() returns (xs: seq<SessionState>, ghost ks: seq<string>)
      ensures ListsValues(sessions, ks, xs)
      ensures |xs| == |sessions|
    {
      xs, ks := ListValues(sessions);
    }

    /** `confirm_step`: 404 for an unknown id; otherwise the stored session takes `Confirm`. */
    method ConfirmStep(id: string, step: string, confirmed: bool, now: nat) returns (r: Result<SessionState, StoreError>)
      requires Valid()
      modifies if id in sessions then {sessions[id]} else {}
      ensures sessions == old(sessions) && Valid()
      ensures id !in sessions ==> r == Failure(NotFound) && Snapshot() == old(Snapshot())
      ensures id in sessions ==>
                r == Success(sessions[id])
                && Snapshot() == old(Snapshot())[id := Confirm(old(Snapshot())[id], step, confirmed, now)]
    {
      if id !in sessions {
        return Failure(NotFound);
      }
      var s := sessions[id];
      ConfirmOn(s, step, confirmed, now);
      SnapshotAfterOne(id);
      r := Success(s);
    }
  }
}
