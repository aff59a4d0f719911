/**
 * The lead endpoint of `api/v1/endpoints/leads.py`: twenty-five leads built by a loop from
 * five company templates, their priorities and pattern coverage, and the process-wide
 * dictionary of lead reports keyed by id. Fresh identifiers come from `uuid`, `uuid(k)` being
 * the k-th drawn while one report is built.
 */
module LeadsEndpoint {
  import opened Wrappers
  import opened Strings
  import opened Models

  /** `num_leads`. */
  const NumLeads: nat := 25

  /** A company template: name, employee count and revenue. */
  datatype Template = Template(name: string, employees: nat, revenue: nat)

  const Templates: seq<Template> := [
    Template("TechCorp Solutions", 150, 25000000),
    Template("DataFlow Systems", 80, 12000000),
    Template("CloudBridge Inc", 200, 45000000),
    Template("InnovateTech", 50, 8000000),
    Template("EnterpriseSoft", 300, 65000000)
  ]

  /**
   * `LeadData`, the company record built for each lead, without its floating-point and
   * constant fields. Only its id and pattern ids reach the report.
   */
  datatype LeadData = LeadData(
    id: string,
    name: string,
    industry: string,
    country: string,
    website: string,
    foundedYear: nat,
    employeeCount: nat,
    revenue: nat,
    funding: nat,
    headquarters: string,
    patternIds: seq<string>)

  /** `[p.id for p in pattern_report.patterns[:2]]`. */
  function FirstTwoIds(report: PatternReport): (ids: seq<string>)
    ensures |ids| == if |report.patterns| < 2 then |report.patterns| else 2
    ensures forall k :: 0 <= k < |ids| ==> ids[k] == report.patterns[k].id
  {
    var ps := if |report.patterns| < 2 then report.patterns else report.patterns[..2];
    seq(|ps|, k requires 0 <= k < |ps| => ps[k].id)
  }

  function Website(i: nat): string {
    "https://lead" + NatToString(i + 1) + ".example.com"
  }

  /** The company record of lead `i`, built from template `t`. */
  function LeadDataAt(t: Template, i: nat, report: PatternReport, id: string): LeadData {
    LeadData(id, t.name + " " + NatToString(i + 1), report.industry, report.country, Website(i), 2015 + i % 8,
             t.employees + i * 10, t.revenue + i * 1000000, 5000000 + i * 2000000,
             "City " + NatToString(i % 10) + ", " + report.country, FirstTwoIds(report))
  }

  /** `overall_score` of lead `i`, 0.75 + 0.005 i, in thousandths. */
  function QualityAt(i: nat): nat {
    750 + 5 * i
  }

  /** The priority rule: high above 0.8, medium above 0.7, low otherwise. */
  function PriorityOf(quality: nat): Priority {
    if quality > 800 then High else if quality > 700 then Medium else Low
  }

  function SignalStrength(i: nat): string {
    if i < 10 then "strong" else "moderate"
  }

  /** The analysis of lead `i` for the company record `d`. */
  function LeadFrom(d: LeadData, i: nat, report: PatternReport): LeadAnalysis {
    LeadAnalysis(d.id, report.sessionId, QualityAt(i), PriorityOf(QualityAt(i)), d.patternIds, SignalStrength(i))
  }

  /** The company record of lead `i` as `_generate_mock_leads` builds it, with identifier `uuid(next + i)`. */
  function MockLeadData(report: PatternReport, uuid: nat -> string, next: nat, i: nat): LeadData {
    LeadDataAt(Templates[i % |Templates|], i, report, uuid(next + i))
  }

  /** The leads `_generate_mock_leads` returns. */
  function MockLeads(report: PatternReport, uuid: nat -> string, next: nat): seq<LeadAnalysis> {
    seq(NumLeads, i requires 0 <= i => LeadFrom(MockLeadData(report, uuid, next, i), i, report))
  }

  /** `_generate_mock_leads`: one template, one company record and one analysis per index. */
  method GenerateMockLeads(report: PatternReport, uuid: nat -> string, next: nat) returns (leads: seq<LeadAnalysis>)
    ensures leads == MockLeads(report, uuid, next)
  {
    leads := [];
    var i := 0;
    while i < NumLeads
      invariant 0 <= i <= NumLeads && |leads| == i
      invariant forall k :: 0 <= k < i ==> leads[k] == LeadFrom(MockLeadData(report, uuid, next, k), k, report)
    {
      var template := Templates[i % |Templates|];
      var data := LeadDataAt(template, i, report, uuid(next + i));
      var quality := QualityAt(i);
      var priority := if quality > 800 then High else if quality > 700 then Medium else Low;
      leads := leads + [LeadAnalysis(data.id, report.sessionId, quality, priority, data.patternIds, SignalStrength(i))];
      i := i + 1;
    }
  }

  /**
   * Lead i draws identifier `uuid(next + i)`, lists the ids of the report's first two
   * patterns, is high priority exactly when i > 10 and medium otherwise (never low), and has
   * a strong signal exactly when i < 10; so no strongly signalled lead is high priority.
   */
  lemma MockLeadsShape(report: PatternReport, uuid: nat -> string, next: nat)
    ensures var leads := MockLeads(report, uuid, next);
            && |leads| == 25
            && forall i :: 0 <= i < 25 ==>
                 && leads[i].leadId == uuid(next + i) && leads[i].sessionId == report.sessionId
                 && leads[i].matchedPatterns == FirstTwoIds(report)
                 && (leads[i].priority == High <==> i > 10)
                 && (leads[i].priority == Medium <==> i <= 10)
                 && (leads[i].signalStrength == "strong" <==> i < 10)
                 && (leads[i].signalStrength == "strong" ==> leads[i].priority == Medium)
  {
  }

  /**
   * Lead i + 5 reuses lead i's template, with 50 more employees, 5,000,000 more revenue and
   * 10,000,000 more funding; founding years stay within 2015 to 2022.
   */
  lemma MockLeadDataCycle(report: PatternReport, uuid: nat -> string, next: nat, i: nat)
    ensures var d, e := MockLeadData(report, uuid, next, i), MockLeadData(report, uuid, next, i + 5);
            && e.employeeCount == d.employeeCount + 50
            && e.revenue == d.revenue + 5000000
            && e.funding == d.funding + 10000000
            && 2015 <= d.foundedYear <= 2022
            && d.name == Templates[i % 5].name + " " + NatToString(i + 1)
            && e.name == Templates[i % 5].name + " " + NatToString(i + 6)
  {
    assert (i + 5) % 5 == i % 5;
  }

  /** Every lead gets its own website. */
  lemma MockWebsitesDistinct(report: PatternReport, uuid: nat -> string, next: nat, i: nat, j: nat)
    requires i != j
    ensures MockLeadData(report, uuid, next, i).website != MockLeadData(report, uuid, next, j).website
  {
    var prefix := "https://lead";
    var wi, wj := Website(i), Website(j);
    if wi == wj {
      assert wi[|prefix|..] == NatToString(i + 1) + ".example.com";
      assert wj[|prefix|..] == NatToString(j + 1) + ".example.com";
      NatToStringThenText(i + 1, j + 1, ".example.com");
    }
  }

  // ---------------------------------------------------------------- counts

  /** Over the first `n` leads of the rule above: `n - 11` high (if positive), the rest medium, none low. */
  lemma {:induction false} PriorityCountsPrefix(leads: seq<LeadAnalysis>, n: nat)
    requires n <= |leads|
    requires forall i :: 0 <= i < |leads| ==> leads[i].priority == (if i > 10 then High else Medium)
    ensures CountPriority(leads[..n], High) == if n > 11 then n - 11 else 0
    ensures CountPriority(leads[..n], Medium) == if n > 11 then 11 else n
    ensures CountPriority(leads[..n], Low) == 0
  {
    if n > 0 {
      PriorityCountsPrefix(leads, n - 1);
      assert leads[..n][..n - 1] == leads[..n - 1];
    }
  }

  // ---------------------------------------------------------------- coverage

  /** Python `d.get(key, 0)`. */
  function Get(m: map<string, nat>, key: string): nat {
    if key in m then m[key] else 0
  }

  /** How many times `pid` occurs in `ids`. */
  function Occurrences(ids: seq<string>, pid: string): nat {
    if ids == [] then 0 else Occurrences(ids[..|ids| - 1], pid) + (if ids[|ids| - 1] == pid then 1 else 0)
  }

  /** How many times `pid` occurs across the matched lists of all leads. */
  function TotalOccurrences(leads: seq<LeadAnalysis>, pid: string): nat {
    if leads == [] then 0
    else TotalOccurrences(leads[..|leads| - 1], pid) + Occurrences(leads[|leads| - 1].matchedPatterns, pid)
  }

  /** The inner loop: `m[pid] = m.get(pid, 0) + 1` for each id in turn. */
  function AddAll(m: map<string, nat>, ids: seq<string>): map<string, nat> {
    if ids == [] then m
    else var pid := ids[|ids| - 1]; var m' := AddAll(m, ids[..|ids| - 1]); m'[pid := Get(m', pid) + 1]
  }

  /** The whole counting loop over the leads, starting from an empty dictionary. */
  function CoverageOf(leads: seq<LeadAnalysis>): map<string, nat> {
    if leads == [] then map[] else AddAll(CoverageOf(leads[..|leads| - 1]), leads[|leads| - 1].matchedPatterns)
  }

  lemma {:induction false} AddAllCounts(m: map<string, nat>, ids: seq<string>)
    ensures forall pid :: Get(AddAll(m, ids), pid) == Get(m, pid) + Occurrences(ids, pid)
    ensures forall pid :: pid in AddAll(m, ids) <==> pid in m || Occurrences(ids, pid) > 0
  {
    if ids != [] {
      AddAllCounts(m, ids[..|ids| - 1]);
    }
  }

  /**
   * The coverage dictionary holds exactly the pattern ids some lead lists, each mapped to the
   * number of times it is listed across all leads.
   */
  lemma {:induction false} CoverageCounts(leads: seq<LeadAnalysis>)
    ensures forall pid :: Get(CoverageOf(leads), pid) == TotalOccurrences(leads, pid)
    ensures forall pid :: pid in CoverageOf(leads) <==> TotalOccurrences(leads, pid) > 0
  {
    if leads != [] {
      CoverageCounts(leads[..|leads| - 1]);
      AddAllCounts(CoverageOf(leads[..|leads| - 1]), leads[|leads| - 1].matchedPatterns);
    }
  }

  /** When every lead lists the same ids, each id is counted once per lead per listing. */
  lemma {:induction false} TotalOccurrencesUniform(leads: seq<LeadAnalysis>, ids: seq<string>, pid: string)
    requires forall i :: 0 <= i < |leads| ==> leads[i].matchedPatterns == ids
    ensures TotalOccurrences(leads, pid) == |leads| * Occurrences(ids, pid)
  {
    if leads != [] {
      TotalOccurrencesUniform(leads[..|leads| - 1], ids, pid);
    }
  }

  /** The counting loop of `_mock_lead_generation`. */
  method CountCoverage(leads: seq<LeadAnalysis>) returns (m: map<string, nat>)
    ensures m == CoverageOf(leads)
  {
    m := map[];
    var i := 0;
    while i < |leads|
      invariant 0 <= i <= |leads|
      invariant m == CoverageOf(leads[..i])
    {
      assert leads[..i + 1][..i] == leads[..i];
      var ids := leads[i].matchedPatterns;
      var start := m;
      var j := 0;
      while j < |ids|
        invariant 0 <= j <= |ids|
        invariant m == AddAll(start, ids[..j])
      {
        assert ids[..j + 1][..j] == ids[..j];
        var pid := ids[j];
        m := m[pid := Get(m, pid) + 1];
        j := j + 1;
      }
      assert ids[..|ids|] == ids;
      i := i + 1;
    }
    assert leads[..|leads|] == leads;
  }

  // ---------------------------------------------------------------- the report

  /** `_mock_lead_generation`: the report id is drawn first, then one id per lead. */
  function MockLeadGeneration(report: PatternReport, uuid: nat -> string): LeadReport {
    var leads := MockLeads(report, uuid, 1);
    LeadReport(uuid(0), report.sessionId, report.industry, report.country, |leads|, leads,
               CountPriority(leads, High), CountPriority(leads, Medium), CountPriority(leads, Low), CoverageOf(leads))
  }

  /**
   * A generated report has 25 leads, 14 high priority, 11 medium and none low, the three
   * counts adding up to the number of leads; it keeps the pattern report's session, industry
   * and country.
   */
  lemma MockLeadGenerationCounts(report: PatternReport, uuid: nat -> string)
    ensures var r := MockLeadGeneration(report, uuid);
            && r.leadsGenerated == |r.leads| == 25
            && r.highPriorityLeads == 14 && r.mediumPriorityLeads == 11 && r.lowPriorityLeads == 0
            && r.highPriorityLeads + r.mediumPriorityLeads + r.lowPriorityLeads == r.leadsGenerated
            && r.sessionId == report.sessionId && r.industry == report.industry && r.country == report.country
  {
    var leads := MockLeads(report, uuid, 1);
    MockLeadsShape(report, uuid, 1);
    PriorityCountsPrefix(leads, 25);
    assert leads[..25] == leads;
  }

  /**
   * The coverage of a generated report maps exactly the ids of the pattern report's first two
   * patterns, each to 25 times the number of those two slots that carry it (25 when the ids differ).
   */
  lemma MockLeadGenerationCoverage(report: PatternReport, uuid: nat -> string, pid: string)
    ensures var r := MockLeadGeneration(report, uuid);
            && (pid in r.patternCoverage <==> pid in FirstTwoIds(report))
            && Get(r.patternCoverage, pid) == 25 * Occurrences(FirstTwoIds(report), pid)
  {
    var leads := MockLeads(report, uuid, 1);
    var ids := FirstTwoIds(report);
    MockLeadsShape(report, uuid, 1);
    CoverageCounts(leads);
    TotalOccurrencesUniform(leads, ids, pid);
    OccurrencesPositive(ids, pid);
  }

  lemma {:induction false} OccurrencesPositive(ids: seq<string>, pid: string)
    ensures Occurrences(ids, pid) > 0 <==> pid in ids
  {
    if ids != [] {
      OccurrencesPositive(ids[..|ids| - 1], pid);
      assert ids == ids[..|ids| - 1] + [ids[|ids| - 1]];
    }
  }

  /** The `lead_reports` dictionary and the three routes on it. */
  class LeadStore {
    var reports: map<string, LeadReport>

    constructor()
      ensures reports == map[]
    {
      reports := map[];
    }

    /** `POST /generate`: build a report and store it under its id. */
    method GenerateLeads(report: PatternReport, uuid: nat -> string) returns (r: LeadReport)
      modifies this
      ensures r == MockLeadGeneration(report, uuid)
      ensures reports == old(reports)[r.id := r]
    {
      var reportId := uuid(0);
      var leads := GenerateMockLeads(report, uuid, 1);
      var coverage := CountCoverage(leads);
      r := LeadReport(reportId, report.sessionId, report.industry, report.country, |leads|, leads,
                      CountPriority(leads, High), CountPriority(leads, Medium), CountPriority(leads, Low), coverage);
      reports := reports[r.id := r];
    }

    /** `GET /{report_id}`: the stored report, or 404. */
    method GetLeadReport(id: string) returns (r: Result<LeadReport, HttpError>)
      ensures id in reports ==> r == Success(reports[id])
      ensures id !in reports ==> r == Failure(HttpError(404, "Lead report not found"))
    {
      if id !in reports {
        return Failure(HttpError(404, "Lead report not found"));
      }
      r := Success(reports[id]);
    }

    /** `GET /`: every stored report once. */
    method ListLeadReports() returns (xs: seq<LeadReport>, ghost ks: seq<string>)
      ensures ListsValues(reports, ks, xs)
      ensures |xs| == |reports|
    {
      xs, ks := ListValues(reports);
    }
  }
}
