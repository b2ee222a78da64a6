/**
 * The data provider of the application (src/contexts/DataContext.jsx): the investor list and its
 * three-criteria search, the lookup by id, and the provider state that saving a company or an
 * outreach draft updates.
 */
module DataContext {
  import opened Wrappers
  import opened Text
  import opened Sequences

  /** One entry of an investor's `criteria` list. */
  datatype Criterion = Criterion(industry: string, stage: string, location: string)

  datatype Investor = Investor(
    investorId: string,
    name: string,
    firm: string,
    website: string,
    investmentThesis: string,
    stageFocus: string,
    checkSize: string,
    contactEmail: string,
    linkedinProfile: string,
    criteria: seq<Criterion>)

  /** A response template; `kind` is the template's `type`. */
  datatype Template = Template(templateId: string, name: string, kind: string, content: string)

  /** The company profile the prompt builders read; `fundingAsk` is optional in the onboarding form. */
  datatype Company = Company(name: string, industry: string, stage: string, description: string, fundingAsk: Option<string>)

  /**
   * A record built by object spread (a saved company or outreach message): field names to values.
   * Map union is right-biased, as later properties of a spread win over earlier ones.
   */
  type Record = map<string, string>

  // ---- searchInvestors ----

  /** The search criteria; an absent criterion is `None`. */
  datatype Filters = Filters(industry: Option<string>, stage: Option<string>, location: Option<string>)

  /** A criterion takes part in the search when it is truthy and not the text `all`. */
  predicate Active(criterion: Option<string>) {
    criterion.Some? && criterion.value != "" && criterion.value != "all"
  }

  /** Some criterion's industry, or the thesis, contains the term, all compared in lower case. */
  predicate MatchesIndustry(inv: Investor, term: string) {
    (exists k | 0 <= k < |inv.criteria| :: Contains(Lower(inv.criteria[k].industry), Lower(term))) ||
    Contains(Lower(inv.investmentThesis), Lower(term))
  }

  /** The stage focus equals the term, compared in lower case: equality, not containment. */
  predicate MatchesStage(inv: Investor, term: string) {
    Lower(inv.stageFocus) == Lower(term)
  }

  /** Some criterion's location contains the term, compared in lower case. */
  predicate MatchesLocation(inv: Investor, term: string) {
    exists k | 0 <= k < |inv.criteria| :: Contains(Lower(inv.criteria[k].location), Lower(term))
  }

  predicate PassesIndustry(filters: Filters, inv: Investor) {
    !Active(filters.industry) || MatchesIndustry(inv, filters.industry.value)
  }

  predicate PassesStage(filters: Filters, inv: Investor) {
    !Active(filters.stage) || MatchesStage(inv, filters.stage.value)
  }

  predicate PassesLocation(filters: Filters, inv: Investor) {
    !Active(filters.location) || MatchesLocation(inv, filters.location.value)
  }

  /** An investor survives the search when it passes every active criterion. */
  predicate Keeps(filters: Filters, inv: Investor) {
    PassesIndustry(filters, inv) && PassesStage(filters, inv) && PassesLocation(filters, inv)
  }

  function IndustryTest(filters: Filters): Investor -> bool {
    inv => PassesIndustry(filters, inv)
  }

  function StageTest(filters: Filters): Investor -> bool {
    inv => PassesStage(filters, inv)
  }

  function LocationTest(filters: Filters): Investor -> bool {
    inv => PassesLocation(filters, inv)
  }

  function KeepTest(filters: Filters): Investor -> bool {
    inv => Keeps(filters, inv)
  }

  predicate NoneActive(filters: Filters) {
    !Active(filters.industry) && !Active(filters.stage) && !Active(filters.location)
  }

  /**
   * `searchInvestors(filters)`: the industry, stage and location criteria narrow the list one after
   * the other, each only when it is active. The result is the one filter by all criteria together.
   */
  function SearchInvestors(investors: seq<Investor>, filters: Filters): (r: seq<Investor>)
    ensures r == Filter(investors, KeepTest(filters))
    ensures forall inv :: inv in r <==> inv in investors && Keeps(filters, inv)
    ensures forall inv :: multiset(r)[inv] == if Keeps(filters, inv) then multiset(investors)[inv] else 0
    ensures IsSubsequence(r, investors)
    ensures NoneActive(filters) ==> r == investors
  {
    var p1, p2, p3 := IndustryTest(filters), StageTest(filters), LocationTest(filters);
    FilterMultiset(investors, KeepTest(filters));
    FilterSubsequence(investors, KeepTest(filters));
    FilterKeepsAll(investors, KeepTest(filters));
    ThreeNarrowings(investors, Active(filters.industry), p1, Active(filters.stage), p2, Active(filters.location), p3, KeepTest(filters));
    Narrow(Narrow(Narrow(investors, Active(filters.industry), p1), Active(filters.stage), p2), Active(filters.location), p3)
  }

  function BothTest(f: Filters, g: Filters): Investor -> bool {
    inv => Keeps(f, inv) && Keeps(g, inv)
  }

  /** Searching the result of one search is one filter by both sets of criteria. */
  lemma SearchTwice(investors: seq<Investor>, f: Filters, g: Filters)
    ensures SearchInvestors(SearchInvestors(investors, f), g) == Filter(investors, BothTest(f, g))
  {
    FilterFilter(investors, KeepTest(f), KeepTest(g), BothTest(f, g));
  }

  /** Two searches applied one after the other give the same list in either order. */
  lemma SearchesCommute(investors: seq<Investor>, f: Filters, g: Filters)
    ensures SearchInvestors(SearchInvestors(investors, f), g) == SearchInvestors(SearchInvestors(investors, g), f)
  {
    SearchTwice(investors, f, g);
    SearchTwice(investors, g, f);
    FilterCongruent(investors, BothTest(f, g), BothTest(g, f));
  }

  function OnlyIndustry(filters: Filters): Filters {
    Filters(filters.industry, None, None)
  }

  function OnlyStage(filters: Filters): Filters {
    Filters(None, filters.stage, None)
  }

  function OnlyLocation(filters: Filters): Filters {
    Filters(None, None, filters.location)
  }

  /**
   * Searching by one criterion at a time, location first, then stage, then industry, gives the
   * same list as searching by all three at once; with `SearchesCommute`, any order does.
   */
  lemma SearchOneCriterionAtATime(investors: seq<Investor>, filters: Filters)
    ensures SearchInvestors(SearchInvestors(SearchInvestors(investors, OnlyLocation(filters)), OnlyStage(filters)), OnlyIndustry(filters)) ==
      SearchInvestors(investors, filters)
  {
    var byStage := SearchInvestors(SearchInvestors(investors, OnlyLocation(filters)), OnlyStage(filters));
    SearchTwice(investors, OnlyLocation(filters), OnlyStage(filters));
    forall inv ensures KeepTest(filters)(inv) == (BothTest(OnlyLocation(filters), OnlyStage(filters))(inv) && KeepTest(OnlyIndustry(filters))(inv)) {
      KeepsByParts(filters, inv);
    }
    FilterFilter(investors, BothTest(OnlyLocation(filters), OnlyStage(filters)), KeepTest(OnlyIndustry(filters)), KeepTest(filters));
  }

  /** An investor passes all criteria exactly when it passes each one alone. */
  lemma KeepsByParts(filters: Filters, inv: Investor)
    ensures Keeps(filters, inv) ==
      (Keeps(OnlyLocation(filters), inv) && Keeps(OnlyStage(filters), inv) && Keeps(OnlyIndustry(filters), inv))
  {
  }

  // ---- getInvestorById ----

  /** `getInvestorById(id)`: the first investor with that id, or nothing when none has it. */
  function GetInvestorById(investors: seq<Investor>, id: string): (r: Option<Investor>)
    ensures r.None? <==> forall k :: 0 <= k < |investors| ==> investors[k].investorId != id
    ensures r.Some? ==> r.value.investorId == id
    ensures r.Some? ==> exists k ::
      0 <= k < |investors| && investors[k] == r.value && (forall j :: 0 <= j < k ==> investors[j].investorId != id)
  {
    Find(investors, (inv: Investor) => inv.investorId == id)
  }

  // ---- saveOutreachMessage and saveCompany ----

  /**
   * The message `saveOutreachMessage` builds: a generated `messageId` the data may override, then
   * the data, then `sentAt` and `status = draft`, which override the data.
   */
  function DraftMessage(messageData: Record, randomSuffix: string, now: string): (message: Record)
    ensures message.Keys == messageData.Keys + {"messageId", "sentAt", "status"}
    ensures message["status"] == "draft" && message["sentAt"] == now
    ensures message["messageId"] == if "messageId" in messageData then messageData["messageId"] else "msg_" + randomSuffix
    ensures forall field :: field in messageData && field != "sentAt" && field != "status" ==>
      message[field] == messageData[field]
  {
    map["messageId" := "msg_" + randomSuffix] + messageData + map["sentAt" := now, "status" := "draft"]
  }

  /**
   * The record `saveCompany` builds: a generated `companyId` the data may override, then the data,
   * then `createdAt`, which overrides the data.
   */
  function CompanyInfo(companyData: Record, randomSuffix: string, now: string): (info: Record)
    ensures info.Keys == companyData.Keys + {"companyId", "createdAt"}
    ensures info["createdAt"] == now
    ensures info["companyId"] == if "companyId" in companyData then companyData["companyId"] else "comp_" + randomSuffix
    ensures forall field :: field in companyData && field != "createdAt" ==> info[field] == companyData[field]
  {
    map["companyId" := "comp_" + randomSuffix] + companyData + map["createdAt" := now]
  }

  /** The state `DataProvider` holds. */
  class DataProvider {
    var investors: seq<Investor>
    var templates: seq<Template>
    var outreachMessages: seq<Record>
    var company: Option<Record>

    /**
     * A fresh provider: the given investors and templates (the application passes `MockInvestors` and
     * `MockTemplates`), no messages, and the company stored by an earlier session, if any.
     */
    constructor(initialInvestors: seq<Investor>, initialTemplates: seq<Template>, stored: Option<Record>)
      ensures investors == initialInvestors && templates == initialTemplates
      ensures outreachMessages == [] && company == stored
    {
      investors := initialInvestors;
      templates := initialTemplates;
      outreachMessages := [];
      company := stored;
    }

    /** `saveOutreachMessage(messageData)`: the new draft goes in front of the earlier messages. */
    method SaveOutreachMessage(messageData: Record, randomSuffix: string, now: string) returns (message: Record)
      modifies this
      ensures message == DraftMessage(messageData, randomSuffix, now)
      ensures outreachMessages == [message] + old(outreachMessages)
      ensures investors == old(investors) && templates == old(templates) && company == old(company)
    {
      message := DraftMessage(messageData, randomSuffix, now);
      outreachMessages := [message] + outreachMessages;
    }

    /** `saveCompany(companyData)`: the new record replaces the company. */
    method SaveCompany(companyData: Record, randomSuffix: string, now: string) returns (info: Record)
      modifies this
      ensures info == CompanyInfo(companyData, randomSuffix, now)
      ensures company == Some(info)
      ensures investors == old(investors) && templates == old(templates) && outreachMessages == old(outreachMessages)
    {
      info := CompanyInfo(companyData, randomSuffix, now);
      company := Some(info);
    }
  }

  // ---- the built-in data ----

  const MockInvestors: seq<Investor> := [
    Investor("inv_1", "Sarah Chen", "Accel Partners", "https://accel.com",
      "B2B SaaS, fintech, and developer tools with strong product-market fit", "Series A", "$2M - $10M",
      "sarah@accel.com", "https://linkedin.com/in/sarahchen",
      [Criterion("SaaS", "Series A", "San Francisco"), Criterion("Fintech", "Series A", "San Francisco")]),
    Investor("inv_2", "Michael Rodriguez", "Sequoia Capital", "https://sequoiacap.com",
      "Early-stage consumer and enterprise technology companies", "Seed", "$500K - $3M",
      "michael@sequoiacap.com", "https://linkedin.com/in/michaelrodriguez",
      [Criterion("Consumer Tech", "Seed", "Palo Alto"), Criterion("Enterprise", "Seed", "Palo Alto")]),
    Investor("inv_3", "Emily Johnson", "Bessemer Venture Partners", "https://bvp.com",
      "Cloud infrastructure, developer tools, and vertical SaaS", "Series B", "$5M - $25M",
      "emily@bvp.com", "https://linkedin.com/in/emilyjohnson",
      [Criterion("Cloud Infrastructure", "Series B", "New York"), Criterion("Developer Tools", "Series B", "New York")]),
    Investor("inv_4", "David Kim", "Andreessen Horowitz", "https://a16z.com",
      "AI/ML, crypto, and consumer applications with network effects", "Series A", "$3M - $15M",
      "david@a16z.com", "https://linkedin.com/in/davidkim",
      [Criterion("AI/ML", "Series A", "Menlo Park"), Criterion("Crypto", "Series A", "Menlo Park")]),
    Investor("inv_5", "Lisa Wang", "General Catalyst", "https://generalcatalyst.com",
      "Healthcare technology and B2B marketplaces", "Seed", "$1M - $5M",
      "lisa@generalcatalyst.com", "https://linkedin.com/in/lisawang",
      [Criterion("Healthcare", "Seed", "Boston"), Criterion("Marketplace", "Seed", "Boston")])
  ]

  const MockTemplates: seq<Template> := [
    Template("template_1", "Initial Interest Response", "response",
      "Thank you for your interest in [COMPANY_NAME]. I'm excited to share more details about our progress.\n\n" +
      "Here are some key updates since our last conversation:\n- [KEY_METRIC_1]\n- [KEY_METRIC_2] \n- [KEY_ACHIEVEMENT]\n\n" +
      "I'd love to schedule a call to discuss how we align with your investment thesis. " +
      "Are you available for a 30-minute call next week?\n\nBest regards,\n[FOUNDER_NAME]"),
    Template("template_2", "Follow-up After Meeting", "followup",
      "Hi [INVESTOR_NAME],\n\nThank you for taking the time to meet with our team yesterday. " +
      "It was great to discuss [SPECIFIC_TOPIC] and learn more about [FIRM_NAME]'s approach to [INVESTMENT_AREA].\n\n" +
      "As promised, I'm attaching:\n- Updated pitch deck with the financial projections we discussed\n" +
      "- Customer testimonials and case studies\n- Technical architecture overview\n\n" +
      "I'm happy to arrange introductions to our key customers or advisors if that would be helpful " +
      "for your due diligence process.\n\nLooking forward to your feedback!\n\nBest,\n[FOUNDER_NAME]"),
    Template("template_3", "Due Diligence Information", "response",
      "Hi [INVESTOR_NAME],\n\nThanks for moving forward with due diligence. " +
      "I've prepared the information you requested:\n\nFinancial Information:\n- 3-year financial projections\n" +
      "- Current burn rate and runway\n- Revenue breakdown by customer segment\n\nLegal & Corporate:\n" +
      "- Cap table and employee equity breakdown\n- IP portfolio and pending patents\n- Key contracts and partnerships\n\n" +
      "I'll have our legal team share the data room access shortly. " +
      "Please let me know if you need any additional information.\n\nBest regards,\n[FOUNDER_NAME]")
  ]

  /** The built-in investors have distinct ids, so each lookup by one of them finds that investor. */
  lemma MockIdsDistinct()
    ensures forall i, j :: 0 <= i < j < |MockInvestors| ==> MockInvestors[i].investorId != MockInvestors[j].investorId
  {
  }
}
