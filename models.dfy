/**
 * The record shapes the core passes around (the pydantic models of `models/intent.py`,
 * `models/pattern.py` and `models/lead.py`). Confidence values are kept in hundredths and
 * quality scores in thousandths, so that the thresholds the code compares them against
 * are exact.
 */
module Models {
  import opened Wrappers

  /** A decoded JSON document, as `json.loads` produces it. */
  datatype Json =
    | JNull
    | JBool(b: bool)
    | JNum(n: real)
    | JStr(s: string)
    | JArr(items: seq<Json>)
    | JObj(fields: map<string, Json>)

  /** The Python type name of a decoded value, as the messages of errors about it spell it. */
  function JsonTypeName(j: Json): string {
    match j
    case JNull => "NoneType"
    case JBool(_) => "bool"
    case JNum(n) => if n.Floor as real == n then "int" else "float"
    case JStr(_) => "str"
    case JArr(_) => "list"
    case JObj(_) => "dict"
  }

  /** The dictionary the keyword extractor returns. */
  datatype MockIntent = MockIntent(industry: string, country: string, companySize: Option<string>, goal: string)

  /** `IntentExtractionResult`; `confidence` in hundredths, `extractedAt` a clock reading. */
  datatype IntentResult = IntentResult(
    industry: string,
    country: string,
    companySize: Option<string>,
    goal: string,
    confidence: nat,
    rawInput: string,
    extractedAt: nat)

  /** `SuccessPattern`; `confidence` in hundredths. */
  datatype Pattern = Pattern(
    id: string,
    name: string,
    confidence: nat,
    frequency: nat,
    totalCompanies: nat,
    category: string,
    subcategory: Option<string>,
    implementationComplexity: Option<string>,
    sourceCompanies: seq<string>)

  /** `PatternReport`, without the floating-point and free-text fields. */
  datatype PatternReport = PatternReport(
    id: string,
    sessionId: string,
    industry: string,
    country: string,
    companiesAnalyzed: nat,
    patterns: seq<Pattern>,
    totalPatterns: nat,
    highConfidencePatterns: nat)

  datatype Priority = High | Medium | Low

  /** `LeadAnalysisResult`; `quality` in thousandths. */
  datatype LeadAnalysis = LeadAnalysis(
    leadId: string,
    sessionId: string,
    quality: nat,
    priority: Priority,
    matchedPatterns: seq<string>,
    signalStrength: string)

  /** `LeadReport`, without the floating-point and free-text fields. */
  datatype LeadReport = LeadReport(
    id: string,
    sessionId: string,
    industry: string,
    country: string,
    leadsGenerated: nat,
    leads: seq<LeadAnalysis>,
    highPriorityLeads: nat,
    mediumPriorityLeads: nat,
    lowPriorityLeads: nat,
    patternCoverage: map<string, nat>)

  /** The number of patterns whose confidence is at least `threshold` hundredths. */
  function CountAtLeast(ps: seq<Pattern>, threshold: nat): (n: nat)
    ensures n <= |ps|
  {
    if ps == [] then 0
    else CountAtLeast(ps[..|ps| - 1], threshold) + (if ps[|ps| - 1].confidence >= threshold then 1 else 0)
  }

  /** The number of patterns whose confidence is strictly above `threshold` hundredths. */
  function CountAbove(ps: seq<Pattern>, threshold: nat): (n: nat)
    ensures n <= |ps|
  {
    if ps == [] then 0
    else CountAbove(ps[..|ps| - 1], threshold) + (if ps[|ps| - 1].confidence > threshold then 1 else 0)
  }

  lemma {:induction false} CountAtLeastAll(ps: seq<Pattern>, threshold: nat)
    requires forall k :: 0 <= k < |ps| ==> ps[k].confidence >= threshold
    ensures CountAtLeast(ps, threshold) == |ps|
  {
    if ps != [] {
      CountAtLeastAll(ps[..|ps| - 1], threshold);
    }
  }

  /** The number of leads with priority `p`. */
  function CountPriority(leads: seq<LeadAnalysis>, p: Priority): (n: nat)
    ensures n <= |leads|
  {
    if leads == [] then 0
    else CountPriority(leads[..|leads| - 1], p) + (if leads[|leads| - 1].priority == p then 1 else 0)
  }

  /** Every lead has exactly one of the three priorities. */
  lemma {:induction false} PriorityCountsPartition(leads: seq<LeadAnalysis>)
    ensures CountPriority(leads, High) + CountPriority(leads, Medium) + CountPriority(leads, Low) == |leads|
  {
    if leads != [] {
      PriorityCountsPartition(leads[..|leads| - 1]);
    }
  }

  /**
   * `xs` lists the values of `m` in the key order `ks`: every key exactly once, and each
   * entry of `xs` the value of the key in the same position.
   */
  ghost predicate ListsValues<V>(m: map<string, V>, ks: seq<string>, xs: seq<V>) {
    && |ks| == |xs|
    && (forall i, j :: 0 <= i < j < |ks| ==> ks[i] != ks[j])
    && (forall k :: k in m <==> k in ks)
    && (forall i :: 0 <= i < |xs| ==> ks[i] in m && xs[i] == m[ks[i]])
  }

  /**
   * Python `list(d.values())`: every value of `m`, each key contributing exactly one entry;
   * `ks` is the key order of the listing.
   */
  method ListValues<V>(m: map<string, V>) returns (xs: seq<V>, ks: seq<string>)
    ensures ListsValues(m, ks, xs)
    ensures |xs| == |m|
  {
    var remaining := m.Keys;
    xs, ks := [], [];
    while remaining != {}
      invariant remaining <= m.Keys
      invariant |xs| + |remaining| == |m|
      invariant |ks| == |xs|
      invariant forall i, j :: 0 <= i < j < |ks| ==> ks[i] != ks[j]
      invariant forall k :: k in ks <==> k in m && k !in remaining
      invariant forall i :: 0 <= i < |xs| ==> ks[i] in m && xs[i] == m[ks[i]]
      decreases |remaining|
    {
      var k :| k in remaining;
      xs, ks := xs + [m[k]], ks + [k];
      remaining := remaining - {k};
    }
  }

  /** An HTTP error the endpoints raise: status code and detail text. */
  datatype HttpError = HttpError(status: nat, detail: string)
}
