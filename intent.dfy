/**
 * The keyword intent extractor of `api/v1/endpoints/intent.py`: ordered substring tests on
 * the ASCII-lower-cased input pick an industry and a country, each with a default. The same
 * rules appear a second time, unchanged, as the fallback of `mock_intent_extraction` in
 * `services/mock_services.py`; the model states them once, here.
 */
module IntentEndpoint {
  import opened Wrappers
  import opened Strings
  import opened Models

  /** The industries the extractor can produce. */
  const Industries: set<string> := {"SaaS", "FinTech", "HealthTech", "E-commerce", "AI/ML"}

  /** The countries the extractor can produce. */
  const Countries: set<string> := {"United States", "Germany", "United Kingdom", "France", "Canada"}

  /** The industries and countries `/examples` advertises. */
  const AdvertisedIndustries: set<string> := Industries + {"EdTech", "Cybersecurity"}
  const AdvertisedCountries: set<string> := Countries + {"Netherlands", "Sweden"}

  predicate MentionsFinTech(l: string) { Contains(l, "fintech") || Contains(l, "financial") }
  predicate MentionsHealthTech(l: string) { Contains(l, "healthtech") || Contains(l, "healthcare") }
  predicate MentionsECommerce(l: string) { Contains(l, "ecommerce") || Contains(l, "e-commerce") }
  predicate MentionsAi(l: string) { Contains(l, "ai") || Contains(l, "artificial intelligence") }
  predicate MentionsUk(l: string) { Contains(l, "uk") || Contains(l, "united kingdom") }

  /** The industry rule on lower-cased text: the first group of keywords that occurs wins. */
  function ClassifyIndustry(l: string): (r: string)
    ensures r in Industries
    ensures r == "FinTech" <==> MentionsFinTech(l)
    ensures r == "HealthTech" <==> !MentionsFinTech(l) && MentionsHealthTech(l)
    ensures r == "E-commerce" <==> !MentionsFinTech(l) && !MentionsHealthTech(l) && MentionsECommerce(l)
    ensures r == "AI/ML" <==> !MentionsFinTech(l) && !MentionsHealthTech(l) && !MentionsECommerce(l) && MentionsAi(l)
  {
    if MentionsFinTech(l) then "FinTech"
    else if MentionsHealthTech(l) then "HealthTech"
    else if MentionsECommerce(l) then "E-commerce"
    else if MentionsAi(l) then "AI/ML"
    else "SaaS"
  }

  /** The country rule on lower-cased text: the first keyword that occurs wins. */
  function ClassifyCountry(l: string): (r: string)
    ensures r in Countries
    ensures r == "Germany" <==> Contains(l, "germany")
    ensures r == "United Kingdom" <==> !Contains(l, "germany") && MentionsUk(l)
    ensures r == "France" <==> !Contains(l, "germany") && !MentionsUk(l) && Contains(l, "france")
    ensures r == "Canada" <==> !Contains(l, "germany") && !MentionsUk(l) && !Contains(l, "france") && Contains(l, "canada")
  {
    if Contains(l, "germany") then "Germany"
    else if MentionsUk(l) then "United Kingdom"
    else if Contains(l, "france") then "France"
    else if Contains(l, "canada") then "Canada"
    else "United States"
  }

  /** `_mock_intent_extraction`: both rules on the lower-cased input; no size, goal lead generation. */
  function MockIntentExtraction(userInput: string): (r: MockIntent)
    ensures r.industry in Industries && r.country in Countries
    ensures r.companySize == None && r.goal == "lead_generation"
    ensures r.industry == ClassifyIndustry(Lower(userInput)) && r.country == ClassifyCountry(Lower(userInput))
  {
    var l := Lower(userInput);
    MockIntent(ClassifyIndustry(l), ClassifyCountry(l), None, "lead_generation")
  }

  /** The default answers: input that mentions none of the keywords is SaaS in the United States. */
  lemma DefaultsWhenNothingMatches(userInput: string)
    requires var l := Lower(userInput);
             !MentionsFinTech(l) && !MentionsHealthTech(l) && !MentionsECommerce(l) && !MentionsAi(l)
             && !Contains(l, "germany") && !MentionsUk(l) && !Contains(l, "france") && !Contains(l, "canada")
    ensures MockIntentExtraction(userInput).industry == "SaaS"
    ensures MockIntentExtraction(userInput).country == "United States"
  {
  }

  /** Substring matching is literal: any input whose lower-cased text holds "ai" is AI/ML unless an earlier rule fired. */
  lemma AiInsideWordsCounts(userInput: string, k: nat)
    requires var l := Lower(userInput);
             OccursAt(l, "ai", k) && !MentionsFinTech(l) && !MentionsHealthTech(l) && !MentionsECommerce(l)
    ensures MockIntentExtraction(userInput).industry == "AI/ML"
  {
    ContainsIff(Lower(userInput), "ai");
  }

  /** Likewise "uk" anywhere gives the United Kingdom unless "germany" occurs. */
  lemma UkInsideWordsCounts(userInput: string, k: nat)
    requires var l := Lower(userInput); OccursAt(l, "uk", k) && !Contains(l, "germany")
    ensures MockIntentExtraction(userInput).country == "United Kingdom"
  {
    ContainsIff(Lower(userInput), "uk");
  }

  /** Two of the advertised industries and two of the advertised countries are never produced. */
  lemma AdvertisedButNeverProduced(userInput: string)
    ensures "EdTech" in AdvertisedIndustries && "Cybersecurity" in AdvertisedIndustries
    ensures MockIntentExtraction(userInput).industry !in {"EdTech", "Cybersecurity"}
    ensures "Netherlands" in AdvertisedCountries && "Sweden" in AdvertisedCountries
    ensures MockIntentExtraction(userInput).country !in {"Netherlands", "Sweden"}
  {
  }

  /**
   * `extract_intent`: the extractor's answer with the raw input attached, confidence 0.85
   * (85 hundredths) and the clock reading as the extraction time.
   */
  function ExtractIntent(userInput: string, now: nat): (r: IntentResult)
    ensures r.rawInput == userInput && r.confidence == 85 && r.extractedAt == now
    ensures MockIntent(r.industry, r.country, r.companySize, r.goal) == MockIntentExtraction(userInput)
  {
    var m := MockIntentExtraction(userInput);
    IntentResult(m.industry, m.country, m.companySize, m.goal, 85, userInput, now)
  }
}
