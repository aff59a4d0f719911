/**
 * The pattern endpoint of `api/v1/endpoints/patterns.py`: a fixed catalogue of success
 * patterns (three base entries, a fourth for SaaS or FinTech) turned into patterns by a loop,
 * the report around them, and the process-wide dictionary of reports keyed by id. Fresh
 * identifiers come from `uuid`, `uuid(k)` being the k-th drawn while one report is built.
 */
module PatternsEndpoint {
  import opened Wrappers
  import opened Strings
  import opened Models

  /** One catalogue entry: name, category, confidence in hundredths, and frequency. */
  datatype PatternData = PatternData(name: string, category: string, confidence: nat, frequency: nat)

  const CloudNative := PatternData("Cloud-Native Architecture", "technology", 85, 10)
  const EnterpriseSales := PatternData("Enterprise Sales Focus", "business_model", 78, 8)
  const ProductLed := PatternData("Product-Led Growth", "growth_strategy", 72, 6)
  const RecurringRevenue := PatternData("Recurring Revenue Model", "business_model", 92, 11)
  const ComplianceFirst := PatternData("Regulatory Compliance First", "compliance", 88, 9)

  /** The entries for `industry`: the three base entries, then one more for SaaS or for FinTech. */
  function CatalogueFor(industry: string): (ds: seq<PatternData>)
    ensures |ds| == if industry == "SaaS" || industry == "FinTech" then 4 else 3
    ensures ds[..3] == [CloudNative, EnterpriseSales, ProductLed]
  {
    var base := [CloudNative, EnterpriseSales, ProductLed];
    if industry == "SaaS" then base + [RecurringRevenue]
    else if industry == "FinTech" then base + [ComplianceFirst]
    else base
  }

  /** `[f"Company_{j}" for j in range(frequency)]`. */
  function SourceCompanies(frequency: nat): (cs: seq<string>)
    ensures |cs| == frequency
  {
    seq(frequency, j requires 0 <= j => "Company_" + NatToString(j))
  }

  /** The source companies of a pattern are named Company_0 up to Company_{frequency-1}, all different. */
  lemma SourceCompaniesDistinct(frequency: nat, a: nat, b: nat)
    requires a < frequency && b < frequency && a != b
    ensures SourceCompanies(frequency)[a] == "Company_" + NatToString(a)
    ensures SourceCompanies(frequency)[a] != SourceCompanies(frequency)[b]
  {
    var cs := SourceCompanies(frequency);
    if cs[a] == cs[b] {
      assert cs[a][|"Company_"|..] == NatToString(a);
      assert cs[b][|"Company_"|..] == NatToString(b);
      NatToStringInjective(a, b);
    }
  }

  function Complexity(i: nat): string {
    if i % 2 == 0 then "medium" else "high"
  }

  /** The pattern built from entry `d` at position `i` of the catalogue, with identifier `id`. */
  function PatternAt(d: PatternData, i: nat, id: string): Pattern {
    Pattern(id, d.name, d.confidence, d.frequency, 12, d.category, None, Some(Complexity(i)), SourceCompanies(d.frequency))
  }

  /** The patterns `_generate_mock_patterns(industry)` returns, the i-th with identifier `uuid(next + i)`. */
  function MockPatterns(industry: string, uuid: nat -> string, next: nat): seq<Pattern> {
    var ds := CatalogueFor(industry);
    seq(|ds|, i requires 0 <= i < |ds| => PatternAt(ds[i], i, uuid(next + i)))
  }

  /**
   * Four patterns for SaaS or FinTech and three otherwise; the i-th draws identifier
   * `uuid(next + i)`, has complexity "medium" for even i and "high" for odd i, twelve companies
   * in total, no subcategory, `frequency` source companies, and a confidence above 0.7.
   */
  lemma MockPatternsShape(industry: string, uuid: nat -> string, next: nat)
    ensures var ps := MockPatterns(industry, uuid, next);
            && |ps| == (if industry == "SaaS" || industry == "FinTech" then 4 else 3)
            && forall i :: 0 <= i < |ps| ==>
                 && ps[i].id == uuid(next + i)
                 && ps[i].implementationComplexity == Some(if i % 2 == 0 then "medium" else "high")
                 && ps[i].totalCompanies == 12 && ps[i].subcategory == None
                 && |ps[i].sourceCompanies| == ps[i].frequency
                 && ps[i].confidence > 70
  {
    var ds := CatalogueFor(industry);
    assert forall i :: 0 <= i < |ds| ==> ds[i].confidence > 70 by {
      forall i | 0 <= i < |ds|
        ensures ds[i].confidence > 70
      {
        if i < 3 {
          assert ds[i] == ds[..3][i];
        }
      }
    }
  }

  /** `_generate_mock_patterns`: the entries are appended to the base list, then turned into patterns one by one. */
  method GenerateMockPatterns(industry: string, uuid: nat -> string, next: nat) returns (ps: seq<Pattern>)
    ensures ps == MockPatterns(industry, uuid, next)
  {
    var ds := [CloudNative, EnterpriseSales, ProductLed];
    if industry == "SaaS" {
      ds := ds + [RecurringRevenue];
    } else if industry == "FinTech" {
      ds := ds + [ComplianceFirst];
    }
    assert ds == CatalogueFor(industry);
    ps := [];
    var i := 0;
    while i < |ds|
      invariant 0 <= i <= |ds| && |ps| == i
      invariant forall k :: 0 <= k < i ==> ps[k] == PatternAt(ds[k], k, uuid(next + k))
    {
      ps := ps + [PatternAt(ds[i], i, uuid(next + i))];
      i := i + 1;
    }
  }

  /**
   * `_mock_pattern_discovery`: the report id is drawn first, then one id per pattern, then the
   * report's session id; twelve companies analysed; `high_confidence_patterns` counts the
   * patterns of confidence strictly above 0.8.
   */
  function MockPatternDiscovery(intent: IntentResult, uuid: nat -> string): (r: PatternReport) {
    var ps := MockPatterns(intent.industry, uuid, 1);
    PatternReport(uuid(0), uuid(|ps| + 1), intent.industry, intent.country, 12, ps, |ps|, CountAbove(ps, 80))
  }

  /**
   * The report carries the intent's industry and country and all its patterns; two of them
   * are above 0.8 for SaaS (0.85, 0.92) and FinTech (0.85, 0.88), one otherwise (0.85).
   */
  lemma MockDiscoveryCounts(intent: IntentResult, uuid: nat -> string)
    ensures var r := MockPatternDiscovery(intent, uuid);
            && r.industry == intent.industry && r.country == intent.country && r.companiesAnalyzed == 12
            && r.totalPatterns == |r.patterns| == (if intent.industry == "SaaS" || intent.industry == "FinTech" then 4 else 3)
            && r.highConfidencePatterns == (if intent.industry == "SaaS" || intent.industry == "FinTech" then 2 else 1)
  {
    var ps := MockPatterns(intent.industry, uuid, 1);
    var ds := CatalogueFor(intent.industry);
    assert ps[..1][..0] == [] && ps[..1][0].confidence == 85;
    assert CountAbove(ps[..1], 80) == 1;
    assert ps[..2][..1] == ps[..1] && ps[..2][1].confidence == 78;
    assert CountAbove(ps[..2], 80) == 1;
    assert ps[..3][..2] == ps[..2] && ps[..3][2].confidence == 72;
    assert CountAbove(ps[..3], 80) == 1;
    if |ps| == 4 {
      assert ps[..4][..3] == ps[..3] && ps[..4] == ps;
    } else {
      assert ps == ps[..3];
    }
  }

  /**
   * With distinct draws, the report's session id is a fresh identifier: neither the report's
   * own id nor any pattern's, and so unrelated to the session the caller is in.
   */
  lemma MockDiscoverySessionIdFresh(intent: IntentResult, uuid: nat -> string)
    requires forall a: nat, b: nat :: a != b ==> uuid(a) != uuid(b)
    ensures var r := MockPatternDiscovery(intent, uuid);
            && r.sessionId != r.id
            && forall p :: p in r.patterns ==> p.id != r.sessionId && p.id != r.id
  {
    var r := MockPatternDiscovery(intent, uuid);
    forall p | p in r.patterns
      ensures p.id != r.sessionId && p.id != r.id
    {
      var i :| 0 <= i < |r.patterns| && r.patterns[i] == p;
      assert p.id == uuid(1 + i);
    }
  }

  /** The `pattern_reports` dictionary and the three routes on it. */
  class PatternStore {
    var reports: map<string, PatternReport>

    constructor()
      ensures reports == map[]
    {
      reports := map[];
    }

    /** `POST /discover`: build a report and store it under its id. */
    method DiscoverPatterns(intent: IntentResult, uuid: nat -> string) returns (r: PatternReport)
      modifies this
      ensures r == MockPatternDiscovery(intent, uuid)
      ensures reports == old(reports)[r.id := r]
    {
      var reportId := uuid(0);
      var ps := GenerateMockPatterns(intent.industry, uuid, 1);
      r := PatternReport(reportId, uuid(|ps| + 1), intent.industry, intent.country, 12, ps, |ps|, CountAbove(ps, 80));
      reports := reports[r.id := r];
    }

    /** `GET /{report_id}`: the stored report, or 404. */
    method GetPatternReport(id: string) returns (r: Result<PatternReport, HttpError>)
      ensures id in reports ==> r == Success(reports[id])
      ensures id !in reports ==> r == Failure(HttpError(404, "Pattern report not found"))
    {
      if id !in reports {
        return Failure(HttpError(404, "Pattern report not found"));
      }
      r := Success(reports[id]);
    }

    /** `GET /`: every stored report once. */
    method ListPatternReports() returns (xs: seq<PatternReport>, ghost ks: seq<string>)
      ensures ListsValues(reports, ks, xs)
      ensures |xs| == |reports|
    {
      xs, ks := ListValues(reports);
    }
  }
}
