/**
 * The deterministic stage functions of `services/mock_services.py` that the worker tasks call:
 * the fixed pattern catalogue, the five-lead generator and the aggregation of a lead report.
 * Fresh identifiers come from `uuid`, where `uuid(k)` is the k-th identifier drawn during one
 * stage; the keyword fallback of `mock_intent_extraction` is `IntentEndpoint.MockIntentExtraction`.
 */
module MockServices {
  import opened Wrappers
  import opened Strings
  import opened Models

  // ---------------------------------------------------------------- patterns

  function ProductLedGrowthStrategy(id: string): Pattern {
    Pattern(id, "Product-Led Growth Strategy", 85, 8, 12, "business_model", Some("growth_strategy"),
            Some("medium"), ["Company A", "Company B", "Company C"])
  }

  function EnterpriseSalesFocus(id: string): Pattern {
    Pattern(id, "Enterprise Sales Focus", 78, 6, 10, "sales_strategy", Some("enterprise"),
            Some("high"), ["Company D", "Company E"])
  }

  function RegulatoryComplianceFirst(id: string): Pattern {
    Pattern(id, "Regulatory Compliance First", 92, 10, 15, "compliance", Some("regulatory"),
            Some("high"), ["FinTech Co A", "FinTech Co B"])
  }

  function ClinicalWorkflowIntegration(id: string): Pattern {
    Pattern(id, "Clinical Workflow Integration", 88, 7, 11, "integration", Some("clinical"),
            Some("high"), ["HealthTech Co A", "HealthTech Co B"])
  }

  /** The patterns `generate_mock_patterns(industry)` returns, the k-th with identifier `uuid(next + k)`. */
  function MockPatternsFor(industry: string, uuid: nat -> string, next: nat): (ps: seq<Pattern>)
    ensures |ps| == if industry == "FinTech" || industry == "HealthTech" then 3 else 2
    ensures forall k :: 0 <= k < |ps| ==> ps[k].id == uuid(next + k)
    ensures forall k :: 0 <= k < |ps| ==> ps[k].confidence >= 70
    ensures ps[..2] == [ProductLedGrowthStrategy(uuid(next)), EnterpriseSalesFocus(uuid(next + 1))]
  {
    var base := [ProductLedGrowthStrategy(uuid(next)), EnterpriseSalesFocus(uuid(next + 1))];
    if industry == "FinTech" then base + [RegulatoryComplianceFirst(uuid(next + 2))]
    else if industry == "HealthTech" then base + [ClinicalWorkflowIntegration(uuid(next + 2))]
    else base
  }

  /** `generate_mock_patterns`: the two base patterns, then one appended for FinTech or HealthTech. */
  method GenerateMockPatterns(industry: string, uuid: nat -> string, next: nat) returns (ps: seq<Pattern>)
    ensures ps == MockPatternsFor(industry, uuid, next)
  {
    ps := [ProductLedGrowthStrategy(uuid(next)), EnterpriseSalesFocus(uuid(next + 1))];
    if industry == "FinTech" {
      ps := ps + [RegulatoryComplianceFirst(uuid(next + 2))];
    } else if industry == "HealthTech" {
      ps := ps + [ClinicalWorkflowIntegration(uuid(next + 2))];
    }
  }

  /**
   * The report `mock_pattern_discovery` builds: report id drawn first, then the patterns;
   * twelve companies analysed; `high_confidence_patterns` counts confidence at least 0.7.
   */
  function MockPatternDiscovery(industry: string, country: string, sessionId: string, uuid: nat -> string): (r: PatternReport)
    ensures r.id == uuid(0) && r.sessionId == sessionId
    ensures r.industry == industry && r.country == country && r.companiesAnalyzed == 12
  {
    var ps := MockPatternsFor(industry, uuid, 1);
    PatternReport(uuid(0), sessionId, industry, country, 12, ps, |ps|, CountAtLeast(ps, 70))
  }

  /** Every catalogue pattern clears the 0.7 bar, so a mock report's patterns are all high-confidence. */
  lemma MockDiscoveryAllHighConfidence(industry: string, country: string, sessionId: string, uuid: nat -> string)
    ensures var r := MockPatternDiscovery(industry, country, sessionId, uuid);
            r.totalPatterns == |r.patterns| && r.highConfidencePatterns == r.totalPatterns
            && r.totalPatterns == (if industry == "FinTech" || industry == "HealthTech" then 3 else 2)
  {
    var ps := MockPatternsFor(industry, uuid, 1);
    CountAtLeastAll(ps, 70);
  }

  // ---------------------------------------------------------------- leads

  /** One lead as `generate_mock_leads` builds it; `quality` in thousandths. */
  datatype MockLead = MockLead(
    id: string,
    companyName: string,
    website: string,
    industry: string,
    size: string,
    location: string,
    priority: Priority,
    quality: nat,
    matchedPatterns: seq<string>)

  /** The company list for an industry; an unknown industry gets the SaaS list. */
  function CompaniesFor(industry: string): (cs: seq<string>)
    ensures |cs| == 5
  {
    if industry == "FinTech" then ["PaySecure", "BankTech Innovations", "FinanceFlow", "CryptoSafe", "InvestPro"]
    else if industry == "HealthTech" then ["MedTech Solutions", "HealthSync", "CarePlatform", "BioTech Systems", "MedicalAI"]
    else if industry == "E-commerce" then ["ShopFlow", "RetailTech", "CommercePro", "MarketSync", "SalesPlatform"]
    else if industry == "AI/ML" then ["AIBrain", "MachineLogic", "NeuralTech", "DataScience Pro", "SmartSystems"]
    else ["TechCorp Solutions", "CloudFlow Systems", "DataSync Inc", "PlatformPro", "SaaSphere"]
  }

  /**
   * The location list for a country; an unknown country gets the United States list. Its
   * contract has the same form as `CompaniesFor`'s: both tables hold five entries per key.
   */
  function LocationsFor(country: string): (ls: seq<string>)
    ensures |ls| == 5
  {
    if country == "Germany" then ["Berlin", "Munich", "Hamburg", "Frankfurt", "Stuttgart"]
    else if country == "United Kingdom" then ["London", "Manchester", "Edinburgh", "Bristol", "Birmingham"]
    else if country == "France" then ["Paris", "Lyon", "Marseille", "Toulouse", "Nice"]
    else if country == "Canada" then ["Toronto", "Vancouver", "Montreal", "Calgary", "Ottawa"]
    else ["San Francisco, CA", "New York, NY", "Austin, TX", "Boston, MA", "Seattle, WA"]
  }

  /** High for the first two leads, medium for the next two, low after that. */
  function PriorityAt(i: nat): Priority {
    if i < 2 then High else if i < 4 then Medium else Low
  }

  function QualityOf(p: Priority): nat {
    match p
    case High => 850
    case Medium => 650
    case Low => 450
  }

  function SizeOf(p: Priority): string {
    match p
    case High => "Enterprise"
    case Medium => "Mid-Market"
    case Low => "Small"
  }

  /** `company.lower().replace(' ', '')`, wrapped into a web address. */
  function Website(company: string): string {
    "https://www." + RemoveChar(Lower(company), ' ') + ".com"
  }

  /** The names of the given patterns, in order. */
  function Names(ps: seq<Pattern>): (ns: seq<string>)
    ensures |ns| == |ps| && forall k :: 0 <= k < |ps| ==> ns[k] == ps[k].name
  {
    seq(|ps|, k requires 0 <= k < |ps| => ps[k].name)
  }

  /** Python `xs[:2]`. */
  function FirstTwo<T>(xs: seq<T>): (r: seq<T>)
    ensures |r| == if |xs| < 2 then |xs| else 2
    ensures r == xs[..|r|]
  {
    if |xs| < 2 then xs else xs[..2]
  }

  /** Lead `i` of `generate_mock_leads`: `company` and `location` are the i-th entries of the lists. */
  function MockLeadAt(industry: string, company: string, location: string, patterns: seq<Pattern>, i: nat, id: string): (l: MockLead)
    ensures l.id == id && l.companyName == company && l.location == location && l.industry == industry
    ensures l.website == Website(company)
    ensures l.priority == High <==> i < 2
    ensures l.priority == Medium <==> 2 <= i < 4
    ensures l.priority == Low <==> 4 <= i
    ensures l.quality == (if i < 2 then 850 else if i < 4 then 650 else 450)
    ensures |l.matchedPatterns| == (if |patterns| < 2 then |patterns| else 2)
    ensures forall k :: 0 <= k < |l.matchedPatterns| ==> l.matchedPatterns[k] == patterns[k].name
    ensures l.matchedPatterns == Names(FirstTwo(patterns))
  {
    var p := PriorityAt(i);
    MockLead(id, company, Website(company), industry, SizeOf(p), location, p, QualityOf(p), Names(FirstTwo(patterns)))
  }

  /** The five leads built from the chosen company and location lists, the i-th with identifier `uuid(next + i)`. */
  function LeadsFrom(industry: string, companies: seq<string>, locations: seq<string>, patterns: seq<Pattern>,
                     uuid: nat -> string, next: nat): (leads: seq<MockLead>)
    requires |companies| == 5 && |locations| == 5
    ensures |leads| == 5
    ensures forall i :: 0 <= i < 5 ==>
              leads[i] == MockLeadAt(industry, companies[i], locations[i % |locations|], patterns, i, uuid(next + i))
  {
    seq(5, i requires 0 <= i < 5 => MockLeadAt(industry, companies[i], locations[i % |locations|], patterns, i, uuid(next + i)))
  }

  /** The leads `generate_mock_leads` returns for an industry and a country. */
  function MockLeadsFor(industry: string, country: string, patterns: seq<Pattern>, uuid: nat -> string, next: nat): (leads: seq<MockLead>)
    ensures |leads| == 5
    ensures forall i :: 0 <= i < 5 ==> leads[i].matchedPatterns == Names(FirstTwo(patterns))
  {
    LeadsFrom(industry, CompaniesFor(industry), LocationsFor(country), patterns, uuid, next)
  }

  /** `generate_mock_leads`: picks the two lists, then builds one lead per company. */
  method GenerateMockLeads(industry: string, country: string, patterns: seq<Pattern>, uuid: nat -> string, next: nat)
    returns (leads: seq<MockLead>)
    ensures leads == MockLeadsFor(industry, country, patterns, uuid, next)
  {
    var companies := CompaniesFor(industry);
    var locations := LocationsFor(country);
    leads := BuildLeads(industry, companies, locations, patterns, uuid, next);
  }

  /** The loop of `generate_mock_leads`: lead i takes company i and location `i % len(locations)`. */
  method BuildLeads(industry: string, companies: seq<string>, locations: seq<string>, patterns: seq<Pattern>,
                    uuid: nat -> string, next: nat) returns (leads: seq<MockLead>)
    requires |companies| == 5 && |locations| == 5
    ensures leads == LeadsFrom(industry, companies, locations, patterns, uuid, next)
  {
    leads := [];
    var i := 0;
    while i < |companies|
      invariant 0 <= i <= |companies|
      invariant |leads| == i
      invariant forall k :: 0 <= k < i ==>
                  leads[k] == MockLeadAt(industry, companies[k], locations[k % |locations|], patterns, k, uuid(next + k))
    {
      leads := leads + [MockLeadAt(industry, companies[i], locations[i % |locations|], patterns, i, uuid(next + i))];
      i := i + 1;
    }
  }

  // ---------------------------------------------------------------- lead report

  /** The `LeadAnalysisResult` built from one raw lead: strong signals exactly for high priority. */
  function AnalysisOf(raw: MockLead, sessionId: string): (a: LeadAnalysis)
    ensures a.leadId == raw.id && a.priority == raw.priority && a.quality == raw.quality
    ensures a.matchedPatterns == raw.matchedPatterns && a.sessionId == sessionId
    ensures a.signalStrength == (if raw.priority == High then "strong" else "moderate")
  {
    LeadAnalysis(raw.id, sessionId, raw.quality, raw.priority, raw.matchedPatterns,
                 if raw.priority == High then "strong" else "moderate")
  }

  /** Every raw lead converted, in order. */
  function Analyses(raw: seq<MockLead>, sessionId: string): (leads: seq<LeadAnalysis>)
    ensures |leads| == |raw|
    ensures forall k :: 0 <= k < |raw| ==> leads[k] == AnalysisOf(raw[k], sessionId)
  {
    if raw == [] then []
    else Analyses(raw[..|raw| - 1], sessionId) + [AnalysisOf(raw[|raw| - 1], sessionId)]
  }

  /** The number of leads whose matched patterns include `name`. */
  function CountListing(leads: seq<LeadAnalysis>, name: string): (n: nat)
    ensures n <= |leads|
  {
    if leads == [] then 0
    else CountListing(leads[..|leads| - 1], name) + (if name in leads[|leads| - 1].matchedPatterns then 1 else 0)
  }

  /** `pattern_coverage`: each input pattern's name mapped to the number of leads listing it. */
  function CoverageByName(patterns: seq<Pattern>, leads: seq<LeadAnalysis>): (m: map<string, nat>)
    ensures m.Keys == set k | 0 <= k < |patterns| :: patterns[k].name
    ensures forall name :: name in m ==> m[name] == CountListing(leads, name)
  {
    map name | name in Names(patterns) :: CountListing(leads, name)
  }

  /** The lead report and the pattern report id that `mock_lead_generation` returns. */
  datatype GeneratedLeads = GeneratedLeads(report: LeadReport, patternReportId: string)

  /** The report `mock_lead_generation` builds from the raw leads: converted leads, counts and coverage. */
  function LeadReportFrom(input: PatternReport, raw: seq<MockLead>, reportId: string): GeneratedLeads {
    var leads := Analyses(raw, input.sessionId);
    GeneratedLeads(
      LeadReport(reportId, input.sessionId, input.industry, input.country, |leads|, leads,
                 CountPriority(leads, High), CountPriority(leads, Medium), CountPriority(leads, Low),
                 CoverageByName(input.patterns, leads)),
      input.id)
  }

  /** What `mock_lead_generation` returns for a pattern report; the report id is drawn first. */
  function MockLeadGenerationSpec(input: PatternReport, uuid: nat -> string): GeneratedLeads {
    LeadReportFrom(input, MockLeadsFor(input.industry, input.country, input.patterns, uuid, 1), uuid(0))
  }

  /** `mock_lead_generation`: draws the report id, generates the raw leads and aggregates them. */
  method MockLeadGeneration(input: PatternReport, uuid: nat -> string) returns (g: GeneratedLeads)
    ensures g == MockLeadGenerationSpec(input, uuid)
  {
    var reportId := uuid(0);
    var raw := GenerateMockLeads(input.industry, input.country, input.patterns, uuid, 1);
    g := AggregateLeads(input, raw, reportId);
  }

  /** One step of the count: the counter of `p` goes up by one. */
  method Tally(high: nat, medium: nat, low: nat, p: Priority) returns (high': nat, medium': nat, low': nat)
    ensures high' == high + (if p == High then 1 else 0)
    ensures medium' == medium + (if p == Medium then 1 else 0)
    ensures low' == low + (if p == Low then 1 else 0)
  {
    high', medium', low' := high, medium, low;
    if p == High {
      high' := high + 1;
    } else if p == Medium {
      medium' := medium + 1;
    } else {
      low' := low + 1;
    }
  }

  /** Converting one more raw lead extends the converted prefix by its conversion. */
  lemma AnalysesSnoc(raw: seq<MockLead>, i: nat, sessionId: string)
    requires i < |raw|
    ensures Analyses(raw[..i + 1], sessionId) == Analyses(raw[..i], sessionId) + [AnalysisOf(raw[i], sessionId)]
  {
    assert raw[..i + 1][..i] == raw[..i];
  }

  /** The loop of `mock_lead_generation`: converts each raw lead in turn, counting priorities on the way. */
  method ConvertLeads(raw: seq<MockLead>, sessionId: string) returns (leads: seq<LeadAnalysis>, high: nat, medium: nat, low: nat)
    ensures leads == Analyses(raw, sessionId)
    ensures high == CountPriority(leads, High) && medium == CountPriority(leads, Medium) && low == CountPriority(leads, Low)
  {
    leads := [];
    high, medium, low := 0, 0, 0;
    var i := 0;
    while i < |raw|
      invariant 0 <= i <= |raw|
      invariant leads == Analyses(raw[..i], sessionId)
      invariant high == CountPriority(leads, High)
      invariant medium == CountPriority(leads, Medium)
      invariant low == CountPriority(leads, Low)
    {
      var lead := AnalysisOf(raw[i], sessionId);
      high, medium, low := Tally(high, medium, low, lead.priority);
      AnalysesSnoc(raw, i, sessionId);
      CountPriorityStep(leads, lead, High);
      CountPriorityStep(leads, lead, Medium);
      CountPriorityStep(leads, lead, Low);
      leads := leads + [lead];
      i := i + 1;
    }
    assert raw[..|raw|] == raw;
  }

  /** `mock_lead_generation` after the leads are drawn: the converted leads, their counts and the coverage. */
  method AggregateLeads(input: PatternReport, raw: seq<MockLead>, reportId: string) returns (g: GeneratedLeads)
    ensures g == LeadReportFrom(input, raw, reportId)
  {
    var leads, high, medium, low := ConvertLeads(raw, input.sessionId);
    g := GeneratedLeads(
      LeadReport(reportId, input.sessionId, input.industry, input.country, |leads|, leads, high, medium, low,
                 CoverageByName(input.patterns, leads)),
      input.id);
  }

  /** The three priority counts add up to the number of leads, which is `leads_generated`. */
  lemma LeadCountsAddUp(input: PatternReport, uuid: nat -> string)
    ensures var r := MockLeadGenerationSpec(input, uuid).report;
            r.highPriorityLeads + r.mediumPriorityLeads + r.lowPriorityLeads == r.leadsGenerated == |r.leads|
  {
    PriorityCountsPartition(MockLeadGenerationSpec(input, uuid).report.leads);
  }

  /** Appending one lead adds one to the count of its own priority and nothing to the others. */
  lemma CountPriorityStep(leads: seq<LeadAnalysis>, lead: LeadAnalysis, p: Priority)
    ensures CountPriority(leads + [lead], p) == CountPriority(leads, p) + (if lead.priority == p then 1 else 0)
  {
    assert (leads + [lead])[..|leads|] == leads;
  }

  /** The number of indices below `n` that `PriorityAt` gives priority `p`. */
  function PriorityCountBelow(n: nat, p: Priority): nat {
    if n == 0 then 0 else PriorityCountBelow(n - 1, p) + (if PriorityAt(n - 1) == p then 1 else 0)
  }

  lemma {:induction false} CountByIndex(leads: seq<LeadAnalysis>, p: Priority)
    requires forall i :: 0 <= i < |leads| ==> leads[i].priority == PriorityAt(i)
    ensures CountPriority(leads, p) == PriorityCountBelow(|leads|, p)
  {
    if leads != [] {
      CountByIndex(leads[..|leads| - 1], p);
    }
  }

  /** Five raw leads prioritised by index give two high, two medium and one low priority lead. */
  lemma CountsOfFive(input: PatternReport, raw: seq<MockLead>, reportId: string)
    requires |raw| == 5 && forall i :: 0 <= i < 5 ==> raw[i].priority == PriorityAt(i)
    ensures var r := LeadReportFrom(input, raw, reportId).report;
            r.leadsGenerated == 5 && r.highPriorityLeads == 2 && r.mediumPriorityLeads == 2 && r.lowPriorityLeads == 1
  {
    var leads := LeadReportFrom(input, raw, reportId).report.leads;
    CountByIndex(leads, High);
    CountByIndex(leads, Medium);
    CountByIndex(leads, Low);
  }

  /** A mock report always holds five leads: two high, two medium and one low priority. */
  lemma MockLeadCounts(input: PatternReport, uuid: nat -> string)
    ensures var r := MockLeadGenerationSpec(input, uuid).report;
            r.leadsGenerated == 5 && r.highPriorityLeads == 2 && r.mediumPriorityLeads == 2 && r.lowPriorityLeads == 1
  {
    var raw := MockLeadsFor(input.industry, input.country, input.patterns, uuid, 1);
    CountsOfFive(input, raw, uuid(0));
  }

  /** When every lead lists the same patterns, a name is covered by all of them or by none. */
  lemma {:induction false} CountListingUniform(leads: seq<LeadAnalysis>, matched: seq<string>, name: string)
    requires forall k :: 0 <= k < |leads| ==> leads[k].matchedPatterns == matched
    ensures CountListing(leads, name) == if name in matched then |leads| else 0
  {
    if leads != [] {
      CountListingUniform(leads[..|leads| - 1], matched, name);
    }
  }

  /** Raw leads that all list the first two input patterns cover those names fully and no other. */
  lemma UniformCoverage(input: PatternReport, raw: seq<MockLead>, reportId: string, name: string)
    requires forall i :: 0 <= i < |raw| ==> raw[i].matchedPatterns == Names(FirstTwo(input.patterns))
    requires exists k :: 0 <= k < |input.patterns| && input.patterns[k].name == name
    ensures var r := LeadReportFrom(input, raw, reportId).report;
            name in r.patternCoverage
            && r.patternCoverage[name] == if name in Names(FirstTwo(input.patterns)) then |raw| else 0
  {
    var leads := Analyses(raw, input.sessionId);
    CountListingUniform(leads, Names(FirstTwo(input.patterns)), name);
  }

  /**
   * Coverage of a mock report: each of the first two input patterns' names maps to 5, every
   * other input pattern's name to 0.
   */
  lemma MockCoverage(input: PatternReport, uuid: nat -> string, name: string)
    requires exists k :: 0 <= k < |input.patterns| && input.patterns[k].name == name
    ensures var r := MockLeadGenerationSpec(input, uuid).report;
            name in r.patternCoverage
            && r.patternCoverage[name] == if name in Names(FirstTwo(input.patterns)) then 5 else 0
  {
    var raw := MockLeadsFor(input.industry, input.country, input.patterns, uuid, 1);
    UniformCoverage(input, raw, uuid(0), name);
  }
}
