/**
 * The post-processing and retry logic of `services/llm_service.py`: cutting the JSON out of a
 * model reply, parsing it with a trailing-comma repair, and the bounded attempt loops of
 * `extract_intent`, `discover_patterns` and `generate_leads`. The HTTP request and
 * `json.loads` are oracles: `request(k)` is what the k-th attempt's request returns or the
 * message of what it raises, and `loads(t)` is the decoded document or the decoder's message.
 */
module LlmService {
  import opened Wrappers
  import opened Strings
  import opened Models

  /** The index of the last `c` in `s`, or -1 (the end of a greedy match up to `c`). */
  function LastIndexOf(s: string, c: char): (r: int)
    ensures -1 <= r < |s|
    ensures r >= 0 ==> s[r] == c
    ensures forall k :: r < k < |s| ==> s[k] != c
    decreases |s|
  {
    if s == [] then -1
    else if s[|s| - 1] == c then |s| - 1
    else LastIndexOf(s[..|s| - 1], c)
  }

  /** The match of `\{.*\}` under DOTALL: from the first '{' to the last '}', when a '}' follows it. */
  function BraceSpan(s: string): (r: Option<string>)
    ensures r.Some? <==> exists i, j :: 0 <= i < j < |s| && s[i] == '{' && s[j] == '}'
    ensures r.Some? ==> |r.value| >= 2 && r.value[0] == '{' && r.value[|r.value| - 1] == '}'
                        && OccursAt(s, r.value, Find(s, "{", 0))
                        && (forall k :: 0 <= k < Find(s, "{", 0) ==> s[k] != '{')
                        && (forall k :: Find(s, "{", 0) + |r.value| <= k < |s| ==> s[k] != '}')
  {
    var f := Find(s, "{", 0);
    var l := LastIndexOf(s, '}');
    if f >= 0 && l > f then
      assert s[f] == s[f..f + 1][0] == '{';
      assert forall k :: 0 <= k < f ==> s[k] != '{' by {
        forall k | 0 <= k < f ensures s[k] != '{' {
          assert !OccursAt(s, "{", k);
          assert s[k..k + 1] == [s[k]];
        }
      }
      Some(s[f..l + 1])
    else
      assert forall i, j :: 0 <= i < j < |s| && s[i] == '{' ==> s[j] != '}' by {
        forall i, j | 0 <= i < j < |s| && s[i] == '{' ensures s[j] != '}' {
          assert s[i..i + 1] == "{";
          assert OccursAt(s, "{", i);
        }
      }
      None
  }

  /** `start` and `end` of a fenced block: the text after the opening fence up to the next "```". */
  function FenceEnd(s: string, open: string): (e: int)
  {
    var f := Find(s, open, 0);
    if f >= 0 then Find(s, "```", f + |open|) else -1
  }

  /** The opening fence `open` occurs and a closing "```" follows it. */
  predicate ClosedFence(s: string, open: string) {
    FenceEnd(s, open) >= 0
  }

  /** The text between the first `open` and the next "```", before stripping. */
  function FencedText(s: string, open: string): (t: string)
    requires ClosedFence(s, open)
    ensures !Contains(t, "```")
    ensures exists i :: OccursAt(s, t, i)
  {
    var f := Find(s, open, 0);
    var e := Find(s, "```", f + |open|);
    var t := s[f + |open|..e];
    assert OccursAt(s, t, f + |open|);
    forall k ensures !OccursAt(t, "```", k) {
      if 0 <= k && k + 3 <= |t| {
        SliceWithin(s, t, f + |open|, k, 3);
        assert !OccursAt(s, "```", f + |open| + k);
      }
    }
    ContainsIff(t, "```");
    t
  }

  /** A slice of a piece of `s` is the slice of `s` at the shifted position. */
  lemma SliceWithin(s: string, t: string, i: int, k: int, n: nat)
    requires OccursAt(s, t, i) && 0 <= k && k + n <= |t|
    ensures t[k..k + n] == s[i + k..i + k + n]
  {
    var a, b := t[k..k + n], s[i + k..i + k + n];
    forall m | 0 <= m < n ensures a[m] == b[m] {
      assert t[k + m] == s[i..i + |t|][k + m];
    }
  }

  /** A piece of a piece of `s` is a piece of `s`. */
  lemma OccursWithin(s: string, t: string, u: string, i: int, j: int)
    requires OccursAt(s, t, i) && OccursAt(t, u, j)
    ensures OccursAt(s, u, i + j)
  {
    SliceWithin(s, t, i, j, |u|);
  }

  /** A fence-free text stays fence-free once stripped. */
  lemma StripHasNoFence(t: string)
    requires !Contains(t, "```")
    ensures !Contains(Strip(t), "```")
  {
    var r := Strip(t);
    var i :| OccursAt(t, r, i);
    ContainsIff(t, "```");
    forall k ensures !OccursAt(r, "```", k) {
      if 0 <= k && k + 3 <= |r| {
        SliceWithin(t, r, i, k, 3);
        assert !OccursAt(t, "```", i + k);
      }
    }
    ContainsIff(r, "```");
  }

  /**
   * `_extract_json_from_response`: the stripped body of a closed "```json" fence; failing that,
   * of a closed plain fence; failing that, the first '{' through the last '}'; failing that, the
   * stripped reply. The result is always a piece of the reply, and a fenced result holds no fence.
   */
  function ExtractJson(s: string): (r: string)
    ensures exists i :: OccursAt(s, r, i)
    ensures ClosedFence(s, "```json") ==> r == Strip(FencedText(s, "```json")) && !Contains(r, "```")
    ensures !ClosedFence(s, "```json") && ClosedFence(s, "```") ==>
              r == Strip(FencedText(s, "```")) && !Contains(r, "```")
    ensures !ClosedFence(s, "```json") && !ClosedFence(s, "```") && BraceSpan(s).Some? ==>
              r == BraceSpan(s).value && r[0] == '{' && r[|r| - 1] == '}'
    ensures !ClosedFence(s, "```json") && !ClosedFence(s, "```") && BraceSpan(s).None? ==> r == Strip(s)
  {
    if ClosedFence(s, "```json") then
      var t := FencedText(s, "```json");
      var i :| OccursAt(s, t, i);
      var r := Strip(t);
      var j :| OccursAt(t, r, j);
      OccursWithin(s, t, r, i, j);
      StripHasNoFence(t);
      r
    else if ClosedFence(s, "```") then
      var t := FencedText(s, "```");
      var i :| OccursAt(s, t, i);
      var r := Strip(t);
      var j :| OccursAt(t, r, j);
      OccursWithin(s, t, r, i, j);
      StripHasNoFence(t);
      r
    else
      match BraceSpan(s)
      case Some(b) =>
        StripKeeps(b);
        Strip(b)
      case None => Strip(s)
  }

  /** A reply with no backquote at all has no fence of either kind. */
  lemma NoBackquoteNoFence(s: string)
    requires forall k :: 0 <= k < |s| ==> s[k] != '`'
    ensures !ClosedFence(s, "```json") && !ClosedFence(s, "```")
  {
    forall k ensures !OccursAt(s, "```", k) {
      if 0 <= k && k + 3 <= |s| {
        assert s[k..k + 3][0] == s[k];
      }
    }
    forall k ensures !OccursAt(s, "```json", k) {
      if 0 <= k && k + 7 <= |s| {
        assert s[k..k + 7][0] == s[k];
      }
    }
  }

  /** A reply that already is bare object text, with no backquote, comes back unchanged. */
  lemma BareObjectUnchanged(s: string)
    requires |s| >= 2 && s[0] == '{' && s[|s| - 1] == '}'
    requires forall k :: 0 <= k < |s| ==> s[k] != '`'
    ensures ExtractJson(s) == s
  {
    NoBackquoteNoFence(s);
    assert s[0..1] == "{";
    assert Find(s, "{", 0) == 0;
    assert BraceSpan(s) == Some(s[0..|s|]);
    assert s[0..|s|] == s;
  }

  /** The next non-space character after index `i` closes an object or an array. */
  predicate ClosesAfterSpace(s: string, i: nat)
    requires i <= |s|
  {
    var k := SkipSpace(s, i);
    k < |s| && (s[k] == '}' || s[k] == ']')
  }

  /**
   * `re.sub(r',(\s*[}\]])', r'\1', s)`: every comma whose next non-space character is a closing
   * bracket is dropped. The spaces and the bracket a match consumes hold no comma, so deciding
   * comma by comma against the input gives the same text as the left-to-right substitution.
   */
  function RemoveTrailingCommas(s: string): (r: string)
    ensures |r| <= |s|
    ensures RemoveChar(r, ',') == RemoveChar(s, ',')
  {
    if s == [] then []
    else if s[0] == ',' && ClosesAfterSpace(s, 1) then
      RemoveTrailingCommas(s[1..])
    else
      var rest := RemoveTrailingCommas(s[1..]);
      assert ([s[0]] + rest)[1..] == rest;
      [s[0]] + rest
  }

  /** `SkipSpace` on a suffix is `SkipSpace` on the whole text, shifted. */
  lemma {:induction false} SkipSpaceSuffix(s: string, i: nat)
    requires 1 <= i <= |s|
    ensures SkipSpace(s[1..], i - 1) == SkipSpace(s, i) - 1
    decreases |s| - i
  {
    if i < |s| && IsSpace(s[i]) {
      SkipSpaceSuffix(s, i + 1);
    }
  }

  /** A text with no trailing comma is left exactly as it is. */
  lemma {:induction false} NoTrailingCommaUnchanged(s: string)
    requires forall i :: 0 <= i < |s| && s[i] == ',' ==> !ClosesAfterSpace(s, i + 1)
    ensures RemoveTrailingCommas(s) == s
    decreases |s|
  {
    if s != [] {
      var t := s[1..];
      forall i | 0 <= i < |t| && t[i] == ',' ensures !ClosesAfterSpace(t, i + 1) {
        SkipSpaceSuffix(s, i + 2);
        assert t[SkipSpace(t, i + 1)..] == s[SkipSpace(s, i + 2)..];
      }
      NoTrailingCommaUnchanged(t);
      assert [s[0]] + t == s;
    }
  }

  /** A comma directly before the closing brace at the end of the text is dropped. */
  lemma {:induction false} FinalCommaDropped(p: string)
    requires forall k :: 0 <= k < |p| ==> p[k] != ','
    ensures RemoveTrailingCommas(p + ",}") == p + "}"
    decreases |p|
  {
    if p == [] {
      var s := ",}";
      assert SkipSpace(s, 1) == 1;
      assert s[1..] == "}";
      assert SkipSpace("}", 1) == 1;
      assert RemoveTrailingCommas("}"[1..]) == [];
    } else {
      assert (p + ",}")[1..] == p[1..] + ",}";
      FinalCommaDropped(p[1..]);
      assert [p[0]] + (p[1..] + "}") == p + "}";
    }
  }

  /** The message `_parse_json_safely` raises, around the first decoder error. */
  function ParseFailure(decodeError: string): string {
    "Failed to parse LLM response as JSON: " + decodeError
  }

  /**
   * `_parse_json_safely` as written: the repair path calls `re.sub`, but `re` is only imported
   * locally inside `_extract_json_from_response`, so the call raises a NameError that the bare
   * `except` turns into the parse failure. Whenever the first decode fails, the parse fails.
   */
  function ParseJsonSafelyAsWritten(response: string, loads: string -> Result<Json, string>): (r: Result<Json, string>)
    ensures r.Success? <==> loads(ExtractJson(response)).Success?
    ensures r.Success? ==> r.value == loads(ExtractJson(response)).value
    ensures r.Failure? ==> r.error == ParseFailure(loads(ExtractJson(response)).error)
  {
    var cleaned := ExtractJson(response);
    match loads(cleaned)
    case Success(j) => Success(j)
    case Failure(e) => Failure(ParseFailure(e))
  }

  /**
   * `_parse_json_safely` as intended: when the extracted text does not decode, decode it again
   * with its trailing commas removed; fail, naming the first decoder error, only if both fail.
   */
  function ParseJsonSafely(response: string, loads: string -> Result<Json, string>): (r: Result<Json, string>)
    ensures var c := ExtractJson(response);
            r.Success? <==> loads(c).Success? || loads(RemoveTrailingCommas(c)).Success?
    ensures var c := ExtractJson(response);
            r.Success? ==> r.value == (if loads(c).Success? then loads(c).value else loads(RemoveTrailingCommas(c)).value)
    ensures r.Failure? ==> r.error == ParseFailure(loads(ExtractJson(response)).error)
  {
    var cleaned := ExtractJson(response);
    match loads(cleaned)
    case Success(j) => Success(j)
    case Failure(e) =>
      match loads(RemoveTrailingCommas(cleaned))
      case Success(j) => Success(j)
      case Failure(_) => Failure(ParseFailure(e))
  }

  /** The two agree except where the repair rescues a reply, which the written code never does. */
  lemma RepairOnlyAddsSuccesses(response: string, loads: string -> Result<Json, string>)
    ensures ParseJsonSafelyAsWritten(response, loads).Success? ==>
              ParseJsonSafely(response, loads) == ParseJsonSafelyAsWritten(response, loads)
    ensures ParseJsonSafelyAsWritten(response, loads).Failure? && ParseJsonSafely(response, loads).Failure? ==>
              ParseJsonSafely(response, loads) == ParseJsonSafelyAsWritten(response, loads)
  {
  }

  /**
   * The reply `{"a": 1,}`: a decoder that rejects it and accepts `{"a": 1}` (as Python's does)
   * makes the written parse fail, while the intended one decodes the repaired text.
   */
  lemma TrailingCommaCounterexample(loads: string -> Result<Json, string>, value: Json)
    requires loads("{\"a\": 1,}").Failure?
    requires loads("{\"a\": 1}") == Success(value)
    ensures ParseJsonSafelyAsWritten("{\"a\": 1,}", loads) == Failure(ParseFailure(loads("{\"a\": 1,}").error))
    ensures ParseJsonSafely("{\"a\": 1,}", loads) == Success(value)
  {
    var p := "{\"a\": 1";
    assert p + ",}" == "{\"a\": 1,}";
    assert p + "}" == "{\"a\": 1}";
    var s := p + ",}";
    assert forall k :: 0 <= k < |s| ==> s[k] != '`';
    assert forall k :: 0 <= k < |p| ==> p[k] != ',';
    BareObjectUnchanged(s);
    FinalCommaDropped(p);
  }

  /** The first `n` attempts, in order. */
  function Attempts<T>(attempt: nat -> Result<T, string>, n: nat): (a: seq<Result<T, string>>)
    ensures |a| == n
    ensures forall k :: 0 <= k < n ==> a[k] == attempt(k)
  {
    seq(n, k requires 0 <= k => attempt(k))
  }

  /**
   * The outcome of `for attempt in range(max_retries)` whose body returns on success and, on the
   * last attempt, on failure: the first success, else the last failure.
   */
  function FirstSuccess<T>(a: seq<Result<T, string>>): (r: Result<T, string>)
    requires |a| > 0
    ensures r.Success? <==> exists k :: 0 <= k < |a| && a[k].Success?
    ensures r.Success? ==> exists k :: 0 <= k < |a| && a[k] == r && forall j :: 0 <= j < k ==> a[j].Failure?
    ensures r.Failure? ==> r == a[|a| - 1]
  {
    if a[0].Success? || |a| == 1 then a[0]
    else
      var r := FirstSuccess(a[1..]);
      assert forall k :: 1 <= k < |a| ==> a[k] == a[1..][k - 1];
      r
  }

  /** The attempt a loop returns at: every earlier one failed, and it succeeded or was the last. */
  lemma FirstSuccessAt<T>(a: seq<Result<T, string>>, k: nat)
    requires k < |a|
    requires forall j :: 0 <= j < k ==> a[j].Failure?
    requires a[k].Success? || k == |a| - 1
    ensures FirstSuccess(a) == a[k]
  {
    var r := FirstSuccess(a);
    if r.Success? {
      var k' :| 0 <= k' < |a| && a[k'] == r && forall j :: 0 <= j < k' ==> a[j].Failure?;
      assert k' == k;
    }
  }

  /** Only the first `n` attempts matter: at most `n` requests are made. */
  lemma AttemptsBeyondUnused<T>(a: nat -> Result<T, string>, b: nat -> Result<T, string>, n: nat)
    requires n > 0
    requires forall k :: 0 <= k < n ==> a(k) == b(k)
    ensures FirstSuccess(Attempts(a, n)) == FirstSuccess(Attempts(b, n))
  {
    assert Attempts(a, n) == Attempts(b, n);
  }

  /** The attempt loop the three services share, with its early returns. */
  method RetryLoop<T>(attempt: nat -> Result<T, string>, maxRetries: nat) returns (r: Result<T, string>)
    requires maxRetries > 0
    ensures r == FirstSuccess(Attempts(attempt, maxRetries))
  {
    var k := 0;
    while true
      invariant k < maxRetries
      invariant forall j :: 0 <= j < k ==> attempt(j).Failure?
      decreases maxRetries - k
    {
      r := attempt(k);
      if r.Success? || k == maxRetries - 1 {
        FirstSuccessAt(Attempts(attempt, maxRetries), k);
        return;
      }
      k := k + 1;
    }
  }

  /** What a successful attempt hands back: the report id it drew, if any, and the filled-in dict. */
  datatype Filled = Filled(reportId: Option<string>, report: map<string, Json>)

  /** The dict a service method returns: `success` with the report, or `success: False` with `error`. */
  datatype ServiceReply =
    | Succeeded(sessionId: string, reportId: Option<string>, report: map<string, Json>)
    | Failed(sessionId: string, error: string)

  /** The AttributeError `.update` raises on a decoded value that is not an object. */
  function NoUpdate(j: Json): string {
    "'" + JsonTypeName(j) + "' object has no attribute 'update'"
  }

  /** `d.get(key, default)`. */
  function Get(d: map<string, Json>, key: string, default: Json): (v: Json)
    ensures key in d ==> v == d[key]
    ensures key !in d ==> v == default
  {
    if key in d then d[key] else default
  }

  /** Python `len` of a decoded value, or the TypeError message for a value without one. */
  function JsonLen(j: Json): (r: Result<nat, string>)
    ensures r.Success? <==> j.JStr? || j.JArr? || j.JObj?
    ensures j.JArr? ==> r == Success(|j.items|)
  {
    match j
    case JStr(s) => Success(|s|)
    case JArr(items) => Success(|items|)
    case JObj(fields) => Success(|fields|)
    case _ => Failure("object of type '" + JsonTypeName(j) + "' has no len()")
  }

  /** The reply of `extract_intent`'s inline parse: decode the reply, else its brace span, else fail. */
  function ParseWithBraceFallback(text: string, loads: string -> Result<Json, string>): (r: Result<Json, string>)
    ensures loads(text).Success? ==> r == loads(text)
    ensures loads(text).Failure? && BraceSpan(text).None? ==> r == Failure("Failed to parse LLM response as JSON")
    ensures loads(text).Failure? && BraceSpan(text).Some? ==> r == loads(BraceSpan(text).value)
  {
    match loads(text)
    case Success(j) => Success(j)
    case Failure(_) =>
      match BraceSpan(text)
      case Some(b) => loads(b)
      case None => Failure("Failed to parse LLM response as JSON")
  }

  /** The default confidence of an extracted intent, 0.85. */
  const DefaultConfidence: real := 0.85

  /** The keys `extract_intent` sets on a decoded intent. */
  const IntentKeys: set<string> := {"confidence", "raw_input", "extracted_at"}

  /** The decoded intent `d` after `update`: confidence kept or defaulted, raw input and time stamped in. */
  function IntentFields(d: map<string, Json>, userInput: string, stamp: string): (m: map<string, Json>)
    ensures m.Keys == d.Keys + IntentKeys
    ensures m["confidence"] == Get(d, "confidence", JNum(DefaultConfidence))
    ensures m["raw_input"] == JStr(userInput) && m["extracted_at"] == JStr(stamp)
    ensures forall k :: k in d && k !in IntentKeys ==> m[k] == d[k]
  {
    d + map["confidence" := Get(d, "confidence", JNum(DefaultConfidence)),
            "raw_input" := JStr(userInput), "extracted_at" := JStr(stamp)]
  }

  /** `intent_data.update(...)`, which raises on a decoded value that is not an object. */
  function FillIntent(j: Json, userInput: string, stamp: string): (r: Result<Filled, string>)
    ensures r.Success? <==> j.JObj?
    ensures r.Failure? ==> r.error == NoUpdate(j)
    ensures r.Success? ==> r.value == Filled(None, IntentFields(j.fields, userInput, stamp))
  {
    match j
    case JObj(d) => Success(Filled(None, IntentFields(d, userInput, stamp)))
    case _ => Failure(NoUpdate(j))
  }

  /** One attempt of `extract_intent`: the request, the inline parse, the fill-in. */
  function IntentAttempt(userInput: string, request: nat -> Result<string, string>,
                         loads: string -> Result<Json, string>, stamp: string): nat -> Result<Filled, string>
  {
    (k: nat) =>
      match request(k)
      case Failure(e) => Failure(e)
      case Success(text) =>
        match ParseWithBraceFallback(text, loads)
        case Failure(e) => Failure(e)
        case Success(j) => FillIntent(j, userInput, stamp)
  }

  /** The reply of a service from the outcome of its attempt loop; failures are returned, not raised. */
  function Reply(sessionId: string, r: Result<Filled, string>, wrap: string -> string): (out: ServiceReply)
    ensures out.sessionId == sessionId
    ensures out.Succeeded? <==> r.Success?
    ensures out.Succeeded? ==> out.reportId == r.value.reportId && out.report == r.value.report
    ensures out.Failed? ==> out.error == wrap(r.error)
  {
    match r
    case Success(f) => Succeeded(sessionId, f.reportId, f.report)
    case Failure(e) => Failed(sessionId, wrap(e))
  }

  /** `str(e)` itself, the error `extract_intent` and `discover_patterns` return. */
  function Unwrapped(e: string): string { e }

  const IntentRetries: nat := 2
  const PatternRetries: nat := 2
  const LeadRetries: nat := 3

  /** `extract_intent`: at most two attempts, the first success, else the last attempt's error. */
  function ExtractIntentSpec(userInput: string, sessionId: string, request: nat -> Result<string, string>,
                             loads: string -> Result<Json, string>, stamp: string): ServiceReply
  {
    Reply(sessionId, FirstSuccess(Attempts(IntentAttempt(userInput, request, loads, stamp), IntentRetries)), Unwrapped)
  }

  method ExtractIntent(userInput: string, sessionId: string, request: nat -> Result<string, string>,
                       loads: string -> Result<Json, string>, stamp: string) returns (reply: ServiceReply)
    ensures reply == ExtractIntentSpec(userInput, sessionId, request, loads, stamp)
  {
    var r := RetryLoop(IntentAttempt(userInput, request, loads, stamp), IntentRetries);
    reply := Reply(sessionId, r, Unwrapped);
  }

  /** The decoded report `d` after `update`, given the length `total` of its `patterns`. */
  function PatternFields(d: map<string, Json>, total: nat, sessionId: string, reportId: string, stamp: string): (m: map<string, Json>)
    ensures m.Keys == d.Keys + PatternKeys
    ensures m["id"] == JStr(reportId) && m["session_id"] == JStr(sessionId)
    ensures m["companies_analyzed"] == Get(d, "companies_analyzed", JNum(12.0))
    ensures m["analysis_duration"] == Get(d, "analysis_duration", JNum(45.2))
    ensures m["total_patterns"] == JNum(total as real)
    ensures m["generated_at"] == JStr(stamp) && m["model_version"] == JStr("1.0")
    ensures forall k :: k in d && k !in PatternKeys ==> m[k] == d[k]
  {
    d + map["id" := JStr(reportId), "session_id" := JStr(sessionId),
            "companies_analyzed" := Get(d, "companies_analyzed", JNum(12.0)),
            "analysis_duration" := Get(d, "analysis_duration", JNum(45.2)),
            "total_patterns" := JNum(total as real),
            "generated_at" := JStr(stamp), "model_version" := JStr("1.0")]
  }

  /** `pattern_data.update(...)`: raises on a non-object, or when its `patterns` has no length. */
  function FillPatterns(j: Json, sessionId: string, reportId: string, stamp: string): (r: Result<Filled, string>)
    ensures r.Success? <==> j.JObj? && JsonLen(Get(j.fields, "patterns", JArr([]))).Success?
    ensures !j.JObj? ==> r == Failure(NoUpdate(j))
    ensures j.JObj? && r.Failure? ==> r.error == JsonLen(Get(j.fields, "patterns", JArr([]))).error
    ensures r.Success? ==>
              r.value == Filled(Some(reportId), PatternFields(j.fields, JsonLen(Get(j.fields, "patterns", JArr([]))).value, sessionId, reportId, stamp))
  {
    match j
    case JObj(d) =>
      (match JsonLen(Get(d, "patterns", JArr([])))
       case Failure(e) => Failure(e)
       case Success(n) => Success(Filled(Some(reportId), PatternFields(d, n, sessionId, reportId, stamp))))
    case _ => Failure(NoUpdate(j))
  }

  /** The keys `discover_patterns` sets on a decoded report. */
  const PatternKeys: set<string> :=
    {"id", "session_id", "companies_analyzed", "analysis_duration", "total_patterns", "generated_at", "model_version"}

  /** One attempt of `discover_patterns`; `ids(k)` is the uuid the k-th attempt draws. */
  function PatternAttempt(sessionId: string, request: nat -> Result<string, string>,
                          loads: string -> Result<Json, string>, ids: nat -> string, stamp: string): nat -> Result<Filled, string>
  {
    (k: nat) =>
      match request(k)
      case Failure(e) => Failure(e)
      case Success(text) =>
        match ParseWithBraceFallback(text, loads)
        case Failure(e) => Failure(e)
        case Success(j) => FillPatterns(j, sessionId, ids(k), stamp)
  }

  /** `discover_patterns`: at most two attempts, the first success, else the last attempt's error. */
  function DiscoverPatternsSpec(sessionId: string, request: nat -> Result<string, string>,
                                loads: string -> Result<Json, string>, ids: nat -> string, stamp: string): ServiceReply
  {
    Reply(sessionId, FirstSuccess(Attempts(PatternAttempt(sessionId, request, loads, ids, stamp), PatternRetries)), Unwrapped)
  }

  method DiscoverPatterns(sessionId: string, request: nat -> Result<string, string>,
                          loads: string -> Result<Json, string>, ids: nat -> string, stamp: string) returns (reply: ServiceReply)
    ensures reply == DiscoverPatternsSpec(sessionId, request, loads, ids, stamp)
  {
    var r := RetryLoop(PatternAttempt(sessionId, request, loads, ids, stamp), PatternRetries);
    reply := Reply(sessionId, r, Unwrapped);
  }

  /** The export formats every lead report advertises. */
  const ExportFormats: Json := JArr([JStr("csv"), JStr("json"), JStr("xlsx")])

  /** The decoded report `d` after `update`, given the length `total` of its `leads`. */
  function LeadFields(d: map<string, Json>, total: nat, sessionId: string, reportId: string, patternReportId: Json, stamp: string): (m: map<string, Json>)
    ensures m.Keys == d.Keys + LeadKeys
    ensures m["id"] == JStr(reportId) && m["session_id"] == JStr(sessionId)
    ensures m["pattern_report_id"] == patternReportId
    ensures m["leads_generated"] == JNum(total as real)
    ensures m["analysis_duration"] == Get(d, "analysis_duration", JNum(32.8))
    ensures m["export_formats"] == ExportFormats
    ensures m["generated_at"] == JStr(stamp) && m["model_version"] == JStr("1.0")
    ensures forall k :: k in d && k !in LeadKeys ==> m[k] == d[k]
  {
    d + map["id" := JStr(reportId), "session_id" := JStr(sessionId),
            "pattern_report_id" := patternReportId,
            "leads_generated" := JNum(total as real),
            "analysis_duration" := Get(d, "analysis_duration", JNum(32.8)),
            "export_formats" := ExportFormats,
            "generated_at" := JStr(stamp), "model_version" := JStr("1.0")]
  }

  /** `lead_data.update(...)`: raises on a non-object, or when its `leads` has no length. */
  function FillLeads(j: Json, sessionId: string, reportId: string, patternReportId: Json, stamp: string): (r: Result<Filled, string>)
    ensures r.Success? <==> j.JObj? && JsonLen(Get(j.fields, "leads", JArr([]))).Success?
    ensures !j.JObj? ==> r == Failure(NoUpdate(j))
    ensures j.JObj? && r.Failure? ==> r.error == JsonLen(Get(j.fields, "leads", JArr([]))).error
    ensures r.Success? ==>
              r.value == Filled(Some(reportId), LeadFields(j.fields, JsonLen(Get(j.fields, "leads", JArr([]))).value, sessionId, reportId, patternReportId, stamp))
  {
    match j
    case JObj(d) =>
      (match JsonLen(Get(d, "leads", JArr([])))
       case Failure(e) => Failure(e)
       case Success(n) => Success(Filled(Some(reportId), LeadFields(d, n, sessionId, reportId, patternReportId, stamp))))
    case _ => Failure(NoUpdate(j))
  }

  /** The keys `generate_leads` sets on a decoded report. */
  const LeadKeys: set<string> :=
    {"id", "session_id", "pattern_report_id", "leads_generated", "analysis_duration", "export_formats", "generated_at", "model_version"}

  /**
   * One attempt of `generate_leads`, parsing the reply with `parse` (the service calls
   * `_parse_json_safely`).
   */
  function LeadAttempt(parse: (string, string -> Result<Json, string>) -> Result<Json, string>,
                       patternReport: map<string, Json>, sessionId: string, request: nat -> Result<string, string>,
                       loads: string -> Result<Json, string>, ids: nat -> string, stamp: string): nat -> Result<Filled, string>
  {
    (k: nat) =>
      match request(k)
      case Failure(e) => Failure(e)
      case Success(text) =>
        match parse(text, loads)
        case Failure(e) => Failure(e)
        case Success(j) => FillLeads(j, sessionId, ids(k), Get(patternReport, "id", JStr("")), stamp)
  }

  /** The error `generate_leads` returns after its last attempt fails. */
  function LeadsGaveUp(e: string): string {
    "Failed to generate leads after 3 attempts: " + e
  }

  /**
   * `generate_leads` as written: at most three attempts, each parsing with the written
   * `_parse_json_safely` (whose comma repair never succeeds); the first success, else the last
   * error wrapped.
   */
  function GenerateLeadsSpec(patternReport: map<string, Json>, sessionId: string, request: nat -> Result<string, string>,
                             loads: string -> Result<Json, string>, ids: nat -> string, stamp: string): ServiceReply
  {
    Reply(sessionId, FirstSuccess(Attempts(LeadAttempt(ParseJsonSafelyAsWritten, patternReport, sessionId, request, loads, ids, stamp),
                                           LeadRetries)), LeadsGaveUp)
  }

  /** `generate_leads` with the comma repair working as intended. */
  function GenerateLeadsIntendedSpec(patternReport: map<string, Json>, sessionId: string, request: nat -> Result<string, string>,
                                     loads: string -> Result<Json, string>, ids: nat -> string, stamp: string): ServiceReply
  {
    Reply(sessionId, FirstSuccess(Attempts(LeadAttempt(ParseJsonSafely, patternReport, sessionId, request, loads, ids, stamp),
                                           LeadRetries)), LeadsGaveUp)
  }

  method GenerateLeads(patternReport: map<string, Json>, sessionId: string, request: nat -> Result<string, string>,
                       loads: string -> Result<Json, string>, ids: nat -> string, stamp: string) returns (reply: ServiceReply)
    ensures reply == GenerateLeadsSpec(patternReport, sessionId, request, loads, ids, stamp)
  {
    var r := RetryLoop(LeadAttempt(ParseJsonSafelyAsWritten, patternReport, sessionId, request, loads, ids, stamp), LeadRetries);
    reply := Reply(sessionId, r, LeadsGaveUp);
  }

  /**
   * What a service returns from its attempts: success exactly when some attempt of the first `n`
   * succeeds, then the earliest one's report; otherwise the last attempt's error, wrapped.
   */
  lemma ReplyOfAttempts(sessionId: string, attempt: nat -> Result<Filled, string>, n: nat, wrap: string -> string)
    requires n > 0
    ensures var reply := Reply(sessionId, FirstSuccess(Attempts(attempt, n)), wrap);
            && reply.sessionId == sessionId
            && (reply.Succeeded? <==> exists k :: 0 <= k < n && attempt(k).Success?)
            && (reply.Succeeded? ==> exists k :: 0 <= k < n && attempt(k) == Success(Filled(reply.reportId, reply.report))
                                                && forall j :: 0 <= j < k ==> attempt(j).Failure?)
            && (reply.Failed? ==> reply.error == wrap(attempt(n - 1).error))
  {
    var a := Attempts(attempt, n);
    var r := FirstSuccess(a);
    if r.Success? {
      var k :| 0 <= k < n && a[k] == r && forall j :: 0 <= j < n && j < k ==> a[j].Failure?;
      assert attempt(k) == Success(Filled(r.value.reportId, r.value.report));
    }
  }

  /** `extract_intent` makes at most two requests: replies that agree on them give the same result. */
  lemma ExtractIntentAtMostTwoRequests(userInput: string, sessionId: string, request1: nat -> Result<string, string>,
                                       request2: nat -> Result<string, string>, loads: string -> Result<Json, string>, stamp: string)
    requires forall k :: 0 <= k < 2 ==> request1(k) == request2(k)
    ensures ExtractIntentSpec(userInput, sessionId, request1, loads, stamp) == ExtractIntentSpec(userInput, sessionId, request2, loads, stamp)
  {
    AttemptsBeyondUnused(IntentAttempt(userInput, request1, loads, stamp), IntentAttempt(userInput, request2, loads, stamp), IntentRetries);
  }

  /**
   * A successful `extract_intent` returns a decoded object filled in by `FillIntent` (so the raw
   * input, the time and a confidence defaulting to 0.85 are set); a first reply that decodes to an
   * object is the one returned; two failed requests give the second one's error, not an exception.
   */
  lemma ExtractIntentReply(userInput: string, sessionId: string, request: nat -> Result<string, string>,
                           loads: string -> Result<Json, string>, stamp: string)
    ensures var reply := ExtractIntentSpec(userInput, sessionId, request, loads, stamp);
            reply.Succeeded? ==> reply.reportId == None && exists d :: reply.report == IntentFields(d, userInput, stamp)
    ensures forall d :: request(0).Success? && loads(request(0).value) == Success(JObj(d)) ==>
              ExtractIntentSpec(userInput, sessionId, request, loads, stamp)
              == Succeeded(sessionId, None, IntentFields(d, userInput, stamp))
    ensures request(0).Failure? && request(1).Failure? ==>
              ExtractIntentSpec(userInput, sessionId, request, loads, stamp) == Failed(sessionId, request(1).error)
  {
    var attempt := IntentAttempt(userInput, request, loads, stamp);
    ReplyOfAttempts(sessionId, attempt, IntentRetries, Unwrapped);
    var reply := ExtractIntentSpec(userInput, sessionId, request, loads, stamp);
    if reply.Succeeded? {
      var k :| 0 <= k < 2 && attempt(k) == Success(Filled(reply.reportId, reply.report));
      var j := ParseWithBraceFallback(request(k).value, loads).value;
      assert FillIntent(j, userInput, stamp) == attempt(k);
    }
  }

  /** `discover_patterns` makes at most two requests. */
  lemma DiscoverPatternsAtMostTwoRequests(sessionId: string, request1: nat -> Result<string, string>,
                                          request2: nat -> Result<string, string>, loads: string -> Result<Json, string>,
                                          ids: nat -> string, stamp: string)
    requires forall k :: 0 <= k < 2 ==> request1(k) == request2(k)
    ensures DiscoverPatternsSpec(sessionId, request1, loads, ids, stamp) == DiscoverPatternsSpec(sessionId, request2, loads, ids, stamp)
  {
    AttemptsBeyondUnused(PatternAttempt(sessionId, request1, loads, ids, stamp), PatternAttempt(sessionId, request2, loads, ids, stamp), PatternRetries);
  }

  /**
   * A successful `discover_patterns` returns, as `pattern_report_id`, the id one of its two
   * attempts drew, and a decoded object filled in by `FillPatterns` under that id (so
   * `total_patterns` is the length of its `patterns`); two failed requests give the second error.
   */
  lemma DiscoverPatternsReply(sessionId: string, request: nat -> Result<string, string>,
                              loads: string -> Result<Json, string>, ids: nat -> string, stamp: string)
    ensures var reply := DiscoverPatternsSpec(sessionId, request, loads, ids, stamp);
            reply.Succeeded? ==> exists k, d, n :: 0 <= k < 2 && reply.reportId == Some(ids(k))
                                                  && JsonLen(Get(d, "patterns", JArr([]))) == Success(n)
                                                  && reply.report == PatternFields(d, n, sessionId, ids(k), stamp)
    ensures request(0).Failure? && request(1).Failure? ==>
              DiscoverPatternsSpec(sessionId, request, loads, ids, stamp) == Failed(sessionId, request(1).error)
  {
    var attempt := PatternAttempt(sessionId, request, loads, ids, stamp);
    ReplyOfAttempts(sessionId, attempt, PatternRetries, Unwrapped);
    var reply := DiscoverPatternsSpec(sessionId, request, loads, ids, stamp);
    if reply.Succeeded? {
      var k :| 0 <= k < 2 && attempt(k) == Success(Filled(reply.reportId, reply.report));
      var j := ParseWithBraceFallback(request(k).value, loads).value;
      assert FillPatterns(j, sessionId, ids(k), stamp) == attempt(k);
    }
  }

  /** `generate_leads` makes at most three requests. */
  lemma GenerateLeadsAtMostThreeRequests(patternReport: map<string, Json>, sessionId: string, request1: nat -> Result<string, string>,
                                         request2: nat -> Result<string, string>, loads: string -> Result<Json, string>,
                                         ids: nat -> string, stamp: string)
    requires forall k :: 0 <= k < 3 ==> request1(k) == request2(k)
    ensures GenerateLeadsSpec(patternReport, sessionId, request1, loads, ids, stamp)
            == GenerateLeadsSpec(patternReport, sessionId, request2, loads, ids, stamp)
  {
    AttemptsBeyondUnused(LeadAttempt(ParseJsonSafelyAsWritten, patternReport, sessionId, request1, loads, ids, stamp),
                         LeadAttempt(ParseJsonSafelyAsWritten, patternReport, sessionId, request2, loads, ids, stamp), LeadRetries);
  }

  /**
   * A successful `generate_leads` returns the id one of its three attempts drew and the object
   * that attempt's reply decodes to directly (the written parse repairs nothing), filled in by
   * `LeadFields` (so `leads_generated` is the length of its `leads` and `pattern_report_id` the
   * input report's id, "" when it has none).
   */
  lemma GenerateLeadsReply(patternReport: map<string, Json>, sessionId: string, request: nat -> Result<string, string>,
                           loads: string -> Result<Json, string>, ids: nat -> string, stamp: string)
    ensures var reply := GenerateLeadsSpec(patternReport, sessionId, request, loads, ids, stamp);
            reply.Succeeded? ==> exists k, d, n :: 0 <= k < 3 && reply.reportId == Some(ids(k))
                                      && request(k).Success? && loads(ExtractJson(request(k).value)) == Success(JObj(d))
                                      && JsonLen(Get(d, "leads", JArr([]))) == Success(n)
                                      && reply.report == LeadFields(d, n, sessionId, ids(k), Get(patternReport, "id", JStr("")), stamp)
  {
    var attempt := LeadAttempt(ParseJsonSafelyAsWritten, patternReport, sessionId, request, loads, ids, stamp);
    ReplyOfAttempts(sessionId, attempt, LeadRetries, LeadsGaveUp);
    var reply := GenerateLeadsSpec(patternReport, sessionId, request, loads, ids, stamp);
    if reply.Succeeded? {
      var k :| 0 <= k < 3 && attempt(k) == Success(Filled(reply.reportId, reply.report));
      var j := ParseJsonSafelyAsWritten(request(k).value, loads).value;
      assert FillLeads(j, sessionId, ids(k), Get(patternReport, "id", JStr("")), stamp) == attempt(k);
    }
  }

  /** A failed `generate_leads` names its three attempts and the last one's error; it does not raise. */
  lemma GenerateLeadsGivesUp(patternReport: map<string, Json>, sessionId: string, request: nat -> Result<string, string>,
                             loads: string -> Result<Json, string>, ids: nat -> string, stamp: string)
    ensures var reply := GenerateLeadsSpec(patternReport, sessionId, request, loads, ids, stamp);
            reply.Failed? ==> reply.error == LeadsGaveUp(LeadAttempt(ParseJsonSafelyAsWritten, patternReport, sessionId, request, loads, ids, stamp)(2).error)
    ensures request(0).Failure? && request(1).Failure? && request(2).Failure? ==>
              GenerateLeadsSpec(patternReport, sessionId, request, loads, ids, stamp) == Failed(sessionId, LeadsGaveUp(request(2).error))
  {
    ReplyOfAttempts(sessionId, LeadAttempt(ParseJsonSafelyAsWritten, patternReport, sessionId, request, loads, ids, stamp), LeadRetries, LeadsGaveUp);
  }

  /**
   * Replying `{"a": 1,}` to every request: the written service fails all three attempts on the
   * parse error and gives up, while the intended one succeeds on the first attempt.
   */
  lemma GenerateLeadsTrailingComma(patternReport: map<string, Json>, sessionId: string,
                                   loads: string -> Result<Json, string>, ids: nat -> string, stamp: string)
    requires loads("{\"a\": 1,}").Failure?
    requires loads("{\"a\": 1}") == Success(JObj(map["a" := JNum(1.0)]))
    ensures var request := (k: nat) => Success("{\"a\": 1,}");
            GenerateLeadsSpec(patternReport, sessionId, request, loads, ids, stamp)
            == Failed(sessionId, LeadsGaveUp(ParseFailure(loads("{\"a\": 1,}").error)))
    ensures var request := (k: nat) => Success("{\"a\": 1,}");
            var reply := GenerateLeadsIntendedSpec(patternReport, sessionId, request, loads, ids, stamp);
            reply.Succeeded? && reply.reportId == Some(ids(0))
  {
    var request: nat -> Result<string, string> := (k: nat) => Success("{\"a\": 1,}");
    TrailingCommaCounterexample(loads, JObj(map["a" := JNum(1.0)]));
    var written := LeadAttempt(ParseJsonSafelyAsWritten, patternReport, sessionId, request, loads, ids, stamp);
    var intended := LeadAttempt(ParseJsonSafely, patternReport, sessionId, request, loads, ids, stamp);
    assert forall k :: 0 <= k < 3 ==> written(k).Failure?;
    ReplyOfAttempts(sessionId, written, LeadRetries, LeadsGaveUp);
    assert JsonLen(Get(map["a" := JNum(1.0)], "leads", JArr([]))) == Success(0);
    assert intended(0).Success?;
    FirstSuccessAt(Attempts(intended, LeadRetries), 0);
  }
}
