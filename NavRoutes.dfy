/** The selections the menus forward, followed through the router: each
    `category:link` string built from the navigation table, lowercased, and
    matched against the phrase chain.

    The route of a leaf is decided by which of the chain's phrases its
    lowercased category and link include. Because no phrase has a colon, the
    `...AroundColon` lemmas reduce a phrase in `category:link` to a phrase in
    one of the two sides. Each side is then settled by small per-literal
    lemmas:
    - `...Text` gives the set of characters the lowercased literal uses, and
      `...No..` a pair of adjacent letters it never has;
    - `...Names` gives the phrases it does include, by their position;
    - `...Lacks...Phrases` rules out one group of phrases at a time: each has
      a character outside that set (`Strings.MissingChar`) or that letter
      pair (`Strings.MissingPair`);
    - `...Phrases` collects these facts, and the route lemmas at the end
      combine those of a category and a link.
    The facts are split this finely only so that each proof about a literal
    stays within the solver's budget. */
module NavRoutes {
  import opened Strings
  import opened NavData
  import opened AppRouter
  import opened Navbar

  /** Lowercasing a selection lowercases its two sides and keeps the colon. */
  lemma LowerSelection(category: string, link: string)
    ensures Lower(Selection(category, link)) == Lower(category) + [':'] + Lower(link)
  {
    LowerAppend(category, ":" + link);
    LowerAppend(":", link);
    assert Lower(":") == ":";
  }

  /** No phrase of the chain has a colon, so a phrase occurs in a selection
      exactly when it occurs in the category or in the link: the banking phrases.
      This and the next three lemmas state the same fact for four groups of
      phrases; the split into four only keeps each proof within the solver's
      budget. */
  lemma BankingPhrasesAroundColon(a: string, b: string)
    ensures Contains(a + [':'] + b, "retail & corporate banking") <==> Contains(a, "retail & corporate banking") || Contains(b, "retail & corporate banking")
    ensures Contains(a + [':'] + b, "asset & wealth management") <==> Contains(a, "asset & wealth management") || Contains(b, "asset & wealth management")
    ensures Contains(a + [':'] + b, "cards & payments") <==> Contains(a, "cards & payments") || Contains(b, "cards & payments")
    ensures Contains(a + [':'] + b, "risk & compliance") <==> Contains(a, "risk & compliance") || Contains(b, "risk & compliance")
  {
    ContainsAroundSeparator(a, ':', b, "retail & corporate banking");
    ContainsAroundSeparator(a, ':', b, "asset & wealth management");
    ContainsAroundSeparator(a, ':', b, "cards & payments");
    ContainsAroundSeparator(a, ':', b, "risk & compliance");
  }

  /** The same for the two service phrases and the two air-travel phrases. */
  lemma ServiceAndAirPhrasesAroundColon(a: string, b: string)
    ensures Contains(a + [':'] + b, "ai services") <==> Contains(a, "ai services") || Contains(b, "ai services")
    ensures Contains(a + [':'] + b, "intelligent automation") <==> Contains(a, "intelligent automation") || Contains(b, "intelligent automation")
    ensures Contains(a + [':'] + b, "airlines") <==> Contains(a, "airlines") || Contains(b, "airlines")
    ensures Contains(a + [':'] + b, "airports") <==> Contains(a, "airports") || Contains(b, "airports")
  {
    ContainsAroundSeparator(a, ':', b, "ai services");
    ContainsAroundSeparator(a, ':', b, "intelligent automation");
    ContainsAroundSeparator(a, ':', b, "airlines");
    ContainsAroundSeparator(a, ':', b, "airports");
  }

  /** The same for the remaining travel phrases and the retail phrases. */
  lemma TravelAndRetailPhrasesAroundColon(a: string, b: string)
    ensures Contains(a + [':'] + b, "travel tech") <==> Contains(a, "travel tech") || Contains(b, "travel tech")
    ensures Contains(a + [':'] + b, "online travel agencies") <==> Contains(a, "online travel agencies") || Contains(b, "online travel agencies")
    ensures Contains(a + [':'] + b, "retail") <==> Contains(a, "retail") || Contains(b, "retail")
    ensures Contains(a + [':'] + b, "banking") <==> Contains(a, "banking") || Contains(b, "banking")
  {
    ContainsAroundSeparator(a, ':', b, "travel tech");
    ContainsAroundSeparator(a, ':', b, "online travel agencies");
    ContainsAroundSeparator(a, ':', b, "retail");
    ContainsAroundSeparator(a, ':', b, "banking");
  }

  /** The same for the last four phrases. */
  lemma LaterPhrasesAroundColon(a: string, b: string)
    ensures Contains(a + [':'] + b, "consumer packaged goods") <==> Contains(a, "consumer packaged goods") || Contains(b, "consumer packaged goods")
    ensures Contains(a + [':'] + b, "(cpg)") <==> Contains(a, "(cpg)") || Contains(b, "(cpg)")
    ensures Contains(a + [':'] + b, "our story") <==> Contains(a, "our story") || Contains(b, "our story")
    ensures Contains(a + [':'] + b, "data engineering") <==> Contains(a, "data engineering") || Contains(b, "data engineering")
  {
    ContainsAroundSeparator(a, ':', b, "consumer packaged goods");
    ContainsAroundSeparator(a, ':', b, "(cpg)");
    ContainsAroundSeparator(a, ':', b, "our story");
    ContainsAroundSeparator(a, ':', b, "data engineering");
  }

  /** Lowercased, "Banking & Financial Services" uses only these characters. */
  lemma BankingCategoryText(x: string)
    requires x == Lower(BankingSection.category)
    ensures Within(x, {' ', '&', 'a', 'b', 'c', 'e', 'f', 'g', 'i', 'k', 'l', 'n', 'r', 's', 'v'})
  {
  }

  /** What "Banking & Financial Services" lacks follows from its characters and letter pairs alone. */
  lemma BankingCategoryLacksBankingPhrases(x: string)
    requires Within(x, {' ', '&', 'a', 'b', 'c', 'e', 'f', 'g', 'i', 'k', 'l', 'n', 'r', 's', 'v'})
    ensures !Contains(x, "retail & corporate banking")
    ensures !Contains(x, "asset & wealth management")
    ensures !Contains(x, "cards & payments")
  {
    MissingChar(x, {' ', '&', 'a', 'b', 'c', 'e', 'f', 'g', 'i', 'k', 'l', 'n', 'r', 's', 'v'}, "retail & corporate banking", 16);
    MissingChar(x, {' ', '&', 'a', 'b', 'c', 'e', 'f', 'g', 'i', 'k', 'l', 'n', 'r', 's', 'v'}, "asset & wealth management", 24);
    MissingChar(x, {' ', '&', 'a', 'b', 'c', 'e', 'f', 'g', 'i', 'k', 'l', 'n', 'r', 's', 'v'}, "cards & payments", 14);
  }

  /** The phrases of the chain that the lowercased "Banking & Financial Services" includes and lacks,
      as far as the routes below depend on them. */
  lemma BankingCategoryPhrases(x: string)
    requires x == Lower(BankingSection.category)
    ensures !Contains(x, "retail & corporate banking")
    ensures !Contains(x, "asset & wealth management")
    ensures !Contains(x, "cards & payments")
  {
    BankingCategoryText(x);
    BankingCategoryLacksBankingPhrases(x);
  }

  /** Lowercased, "Retail & Corporate Banking" uses only these characters. */
  lemma RetailCorporateBankingLinkText(x: string)
    requires x == Lower(BankingSection.links[0])
    ensures Within(x, {' ', '&', 'a', 'b', 'c', 'e', 'g', 'i', 'k', 'l', 'n', 'o', 'p', 'r', 't'})
  {
  }

  /** Lowercased, "Retail & Corporate Banking" includes "retail & corporate banking". */
  lemma RetailCorporateBankingLinkNames(x: string)
    requires x == Lower(BankingSection.links[0])
    ensures Contains(x, "retail & corporate banking")
  {
    PresentAt(x, "retail & corporate banking", 0);
  }

  /** The phrases of the chain that the lowercased "Retail & Corporate Banking" includes and lacks,
      as far as the routes below depend on them. */
  lemma RetailCorporateBankingLinkPhrases(x: string)
    requires x == Lower(BankingSection.links[0])
    ensures Contains(x, "retail & corporate banking")
  {
    RetailCorporateBankingLinkText(x);
    RetailCorporateBankingLinkNames(x);
  }

  /** Lowercased, "Asset & Wealth Management" uses only these characters. */
  lemma AssetWealthManagementLinkText(x: string)
    requires x == Lower(BankingSection.links[1])
    ensures Within(x, {' ', '&', 'a', 'e', 'g', 'h', 'l', 'm', 'n', 's', 't', 'w'})
  {
  }

  /** Lowercased, "Asset & Wealth Management" includes "asset & wealth management". */
  lemma AssetWealthManagementLinkNames(x: string)
    requires x == Lower(BankingSection.links[1])
    ensures Contains(x, "asset & wealth management")
  {
    PresentAt(x, "asset & wealth management", 0);
  }

  /** What "Asset & Wealth Management" lacks follows from its characters and letter pairs alone. */
  lemma AssetWealthManagementLinkLacksBankingPhrases(x: string)
    requires Within(x, {' ', '&', 'a', 'e', 'g', 'h', 'l', 'm', 'n', 's', 't', 'w'})
    ensures !Contains(x, "retail & corporate banking")
  {
    MissingChar(x, {' ', '&', 'a', 'e', 'g', 'h', 'l', 'm', 'n', 's', 't', 'w'}, "retail & corporate banking", 23);
  }

  /** The phrases of the chain that the lowercased "Asset & Wealth Management" includes and lacks,
      as far as the routes below depend on them. */
  lemma AssetWealthManagementLinkPhrases(x: string)
    requires x == Lower(BankingSection.links[1])
    ensures Contains(x, "asset & wealth management")
    ensures !Contains(x, "retail & corporate banking")
  {
    AssetWealthManagementLinkText(x);
    AssetWealthManagementLinkNames(x);
    AssetWealthManagementLinkLacksBankingPhrases(x);
  }

  /** Lowercased, "Cards & Payments" uses only these characters. */
  lemma CardsPaymentsLinkText(x: string)
    requires x == Lower(BankingSection.links[2])
    ensures Within(x, {' ', '&', 'a', 'c', 'd', 'e', 'm', 'n', 'p', 'r', 's', 't', 'y'})
  {
  }

  /** Lowercased, "Cards & Payments" includes "cards & payments". */
  lemma CardsPaymentsLinkNames(x: string)
    requires x == Lower(BankingSection.links[2])
    ensures Contains(x, "cards & payments")
  {
    PresentAt(x, "cards & payments", 0);
  }

  /** What "Cards & Payments" lacks follows from its characters and letter pairs alone. */
  lemma CardsPaymentsLinkLacksBankingPhrases(x: string)
    requires Within(x, {' ', '&', 'a', 'c', 'd', 'e', 'm', 'n', 'p', 'r', 's', 't', 'y'})
    ensures !Contains(x, "retail & corporate banking")
    ensures !Contains(x, "asset & wealth management")
  {
    MissingChar(x, {' ', '&', 'a', 'c', 'd', 'e', 'm', 'n', 'p', 'r', 's', 't', 'y'}, "retail & corporate banking", 25);
    MissingChar(x, {' ', '&', 'a', 'c', 'd', 'e', 'm', 'n', 'p', 'r', 's', 't', 'y'}, "asset & wealth management", 19);
  }

  /** The phrases of the chain that the lowercased "Cards & Payments" includes and lacks,
      as far as the routes below depend on them. */
  lemma CardsPaymentsLinkPhrases(x: string)
    requires x == Lower(BankingSection.links[2])
    ensures Contains(x, "cards & payments")
    ensures !Contains(x, "retail & corporate banking")
    ensures !Contains(x, "asset & wealth management")
  {
    CardsPaymentsLinkText(x);
    CardsPaymentsLinkNames(x);
    CardsPaymentsLinkLacksBankingPhrases(x);
  }

  /** Lowercased, "Risk & Compliance" uses only these characters. */
  lemma RiskComplianceLinkText(x: string)
    requires x == Lower(BankingSection.links[3])
    ensures Within(x, {' ', '&', 'a', 'c', 'e', 'i', 'k', 'l', 'm', 'n', 'o', 'p', 'r', 's'})
  {
  }

  /** Lowercased, "Risk & Compliance" includes "risk & compliance". */
  lemma RiskComplianceLinkNames(x: string)
    requires x == Lower(BankingSection.links[3])
    ensures Contains(x, "risk & compliance")
  {
    PresentAt(x, "risk & compliance", 0);
  }

  /** What "Risk & Compliance" lacks follows from its characters and letter pairs alone. */
  lemma RiskComplianceLinkLacksBankingPhrases(x: string)
    requires Within(x, {' ', '&', 'a', 'c', 'e', 'i', 'k', 'l', 'm', 'n', 'o', 'p', 'r', 's'})
    ensures !Contains(x, "retail & corporate banking")
    ensures !Contains(x, "asset & wealth management")
    ensures !Contains(x, "cards & payments")
  {
    MissingChar(x, {' ', '&', 'a', 'c', 'e', 'i', 'k', 'l', 'm', 'n', 'o', 'p', 'r', 's'}, "retail & corporate banking", 25);
    MissingChar(x, {' ', '&', 'a', 'c', 'e', 'i', 'k', 'l', 'm', 'n', 'o', 'p', 'r', 's'}, "asset & wealth management", 24);
    MissingChar(x, {' ', '&', 'a', 'c', 'e', 'i', 'k', 'l', 'm', 'n', 'o', 'p', 'r', 's'}, "cards & payments", 14);
  }

  /** The phrases of the chain that the lowercased "Risk & Compliance" includes and lacks,
      as far as the routes below depend on them. */
  lemma RiskComplianceLinkPhrases(x: string)
    requires x == Lower(BankingSection.links[3])
    ensures Contains(x, "risk & compliance")
    ensures !Contains(x, "retail & corporate banking")
    ensures !Contains(x, "asset & wealth management")
    ensures !Contains(x, "cards & payments")
  {
    RiskComplianceLinkText(x);
    RiskComplianceLinkNames(x);
    RiskComplianceLinkLacksBankingPhrases(x);
  }

  /** Lowercased, "AI" uses only these characters. */
  lemma AICategoryText(x: string)
    requires x == Lower(AISection.category)
    ensures Within(x, {'a', 'i'})
  {
  }

  /** What "AI" lacks follows from its characters and letter pairs alone. */
  lemma AICategoryLacksBankingPhrases(x: string)
    requires Within(x, {'a', 'i'})
    ensures !Contains(x, "retail & corporate banking")
    ensures !Contains(x, "asset & wealth management")
    ensures !Contains(x, "cards & payments")
    ensures !Contains(x, "risk & compliance")
  {
    MissingChar(x, {'a', 'i'}, "retail & corporate banking", 25);
    MissingChar(x, {'a', 'i'}, "asset & wealth management", 24);
    MissingChar(x, {'a', 'i'}, "cards & payments", 15);
    MissingChar(x, {'a', 'i'}, "risk & compliance", 16);
  }

  /** The phrases of the chain that the lowercased "AI" includes and lacks,
      as far as the routes below depend on them. */
  lemma AICategoryPhrases(x: string)
    requires x == Lower(AISection.category)
    ensures !Contains(x, "retail & corporate banking")
    ensures !Contains(x, "asset & wealth management")
    ensures !Contains(x, "cards & payments")
    ensures !Contains(x, "risk & compliance")
  {
    AICategoryText(x);
    AICategoryLacksBankingPhrases(x);
  }

  /** Lowercased, "AI Services" uses only these characters. */
  lemma AiServicesLinkText(x: string)
    requires x == Lower(AISection.links[0])
    ensures Within(x, {' ', 'a', 'c', 'e', 'i', 'r', 's', 'v'})
  {
  }

  /** Lowercased, "AI Services" includes "ai services". */
  lemma AiServicesLinkNames(x: string)
    requires x == Lower(AISection.links[0])
    ensures Contains(x, "ai services")
  {
    PresentAt(x, "ai services", 0);
  }

  /** What "AI Services" lacks follows from its characters and letter pairs alone. */
  lemma AiServicesLinkLacksBankingPhrases(x: string)
    requires Within(x, {' ', 'a', 'c', 'e', 'i', 'r', 's', 'v'})
    ensures !Contains(x, "retail & corporate banking")
    ensures !Contains(x, "asset & wealth management")
    ensures !Contains(x, "cards & payments")
    ensures !Contains(x, "risk & compliance")
  {
    MissingChar(x, {' ', 'a', 'c', 'e', 'i', 'r', 's', 'v'}, "retail & corporate banking", 25);
    MissingChar(x, {' ', 'a', 'c', 'e', 'i', 'r', 's', 'v'}, "asset & wealth management", 24);
    MissingChar(x, {' ', 'a', 'c', 'e', 'i', 'r', 's', 'v'}, "cards & payments", 14);
    MissingChar(x, {' ', 'a', 'c', 'e', 'i', 'r', 's', 'v'}, "risk & compliance", 14);
  }

  /** The phrases of the chain that the lowercased "AI Services" includes and lacks,
      as far as the routes below depend on them. */
  lemma AiServicesLinkPhrases(x: string)
    requires x == Lower(AISection.links[0])
    ensures Contains(x, "ai services")
    ensures !Contains(x, "retail & corporate banking")
    ensures !Contains(x, "asset & wealth management")
    ensures !Contains(x, "cards & payments")
    ensures !Contains(x, "risk & compliance")
  {
    AiServicesLinkText(x);
    AiServicesLinkNames(x);
    AiServicesLinkLacksBankingPhrases(x);
  }

  /** Lowercased, "Automation" uses only these characters. */
  lemma AutomationCategoryText(x: string)
    requires x == Lower(AutomationSection.category)
    ensures Within(x, {'a', 'i', 'm', 'n', 'o', 't', 'u'})
  {
  }

  /** What "Automation" lacks follows from its characters and letter pairs alone. */
  lemma AutomationCategoryLacksBankingPhrases(x: string)
    requires Within(x, {'a', 'i', 'm', 'n', 'o', 't', 'u'})
    ensures !Contains(x, "retail & corporate banking")
    ensures !Contains(x, "asset & wealth management")
    ensures !Contains(x, "cards & payments")
    ensures !Contains(x, "risk & compliance")
  {
    MissingChar(x, {'a', 'i', 'm', 'n', 'o', 't', 'u'}, "retail & corporate banking", 25);
    MissingChar(x, {'a', 'i', 'm', 'n', 'o', 't', 'u'}, "asset & wealth management", 22);
    MissingChar(x, {'a', 'i', 'm', 'n', 'o', 't', 'u'}, "cards & payments", 15);
    MissingChar(x, {'a', 'i', 'm', 'n', 'o', 't', 'u'}, "risk & compliance", 16);
  }

  /** What "Automation" lacks follows from its characters and letter pairs alone. */
  lemma AutomationCategoryLacksServiceAndAirPhrases(x: string)
    requires Within(x, {'a', 'i', 'm', 'n', 'o', 't', 'u'})
    ensures !Contains(x, "ai services")
  {
    MissingChar(x, {'a', 'i', 'm', 'n', 'o', 't', 'u'}, "ai services", 10);
  }

  /** The phrases of the chain that the lowercased "Automation" includes and lacks,
      as far as the routes below depend on them. */
  lemma AutomationCategoryPhrases(x: string)
    requires x == Lower(AutomationSection.category)
    ensures !Contains(x, "retail & corporate banking")
    ensures !Contains(x, "asset & wealth management")
    ensures !Contains(x, "cards & payments")
    ensures !Contains(x, "risk & compliance")
    ensures !Contains(x, "ai services")
  {
    AutomationCategoryText(x);
    AutomationCategoryLacksBankingPhrases(x);
    AutomationCategoryLacksServiceAndAirPhrases(x);
  }

  /** Lowercased, "Intelligent Automation" uses only these characters. */
  lemma IntelligentAutomationLinkText(x: string)
    requires x == Lower(AutomationSection.links[0])
    ensures Within(x, {' ', 'a', 'e', 'g', 'i', 'l', 'm', 'n', 'o', 't', 'u'})
  {
  }

  /** Lowercased, "Intelligent Automation" includes "intelligent automation". */
  lemma IntelligentAutomationLinkNames(x: string)
    requires x == Lower(AutomationSection.links[0])
    ensures Contains(x, "intelligent automation")
  {
    PresentAt(x, "intelligent automation", 0);
  }

  /** What "Intelligent Automation" lacks follows from its characters and letter pairs alone. */
  lemma IntelligentAutomationLinkLacksBankingPhrases(x: string)
    requires Within(x, {' ', 'a', 'e', 'g', 'i', 'l', 'm', 'n', 'o', 't', 'u'})
    ensures !Contains(x, "retail & corporate banking")
    ensures !Contains(x, "asset & wealth management")
    ensures !Contains(x, "cards & payments")
    ensures !Contains(x, "risk & compliance")
  {
    MissingChar(x, {' ', 'a', 'e', 'g', 'i', 'l', 'm', 'n', 'o', 't', 'u'}, "retail & corporate banking", 22);
    MissingChar(x, {' ', 'a', 'e', 'g', 'i', 'l', 'm', 'n', 'o', 't', 'u'}, "asset & wealth management", 13);
    MissingChar(x, {' ', 'a', 'e', 'g', 'i', 'l', 'm', 'n', 'o', 't', 'u'}, "cards & payments", 15);
    MissingChar(x, {' ', 'a', 'e', 'g', 'i', 'l', 'm', 'n', 'o', 't', 'u'}, "risk & compliance", 15);
  }

  /** What "Intelligent Automation" lacks follows from its characters and letter pairs alone. */
  lemma IntelligentAutomationLinkLacksServiceAndAirPhrases(x: string)
    requires Within(x, {' ', 'a', 'e', 'g', 'i', 'l', 'm', 'n', 'o', 't', 'u'})
    ensures !Contains(x, "ai services")
  {
    MissingChar(x, {' ', 'a', 'e', 'g', 'i', 'l', 'm', 'n', 'o', 't', 'u'}, "ai services", 10);
  }

  /** The phrases of the chain that the lowercased "Intelligent Automation" includes and lacks,
      as far as the routes below depend on them. */
  lemma IntelligentAutomationLinkPhrases(x: string)
    requires x == Lower(AutomationSection.links[0])
    ensures Contains(x, "intelligent automation")
    ensures !Contains(x, "retail & corporate banking")
    ensures !Contains(x, "asset & wealth management")
    ensures !Contains(x, "cards & payments")
    ensures !Contains(x, "risk & compliance")
    ensures !Contains(x, "ai services")
  {
    IntelligentAutomationLinkText(x);
    IntelligentAutomationLinkNames(x);
    IntelligentAutomationLinkLacksBankingPhrases(x);
    IntelligentAutomationLinkLacksServiceAndAirPhrases(x);
  }

  /** "Travel, Transportation & Hospitality" in two halves, to keep the proofs about it small. */
  lemma TravelCategoryHalves()
    ensures TravelSection.category == "Travel, Transportation" + " & Hospitality"
  {
  }

  lemma TravelCategoryFrontText(y: string)
    requires y == Lower("Travel, Transportation")
    ensures Within(y, {' ', '&', ',', 'a', 'e', 'h', 'i', 'l', 'n', 'o', 'p', 'r', 's', 't', 'v', 'y'})
  {
  }

  lemma TravelCategoryFrontNoAI(y: string)
    requires y == Lower("Travel, Transportation")
    ensures NoPair(y, 'a', 'i')
  {
  }

  lemma TravelCategoryBackText(y: string)
    requires y == Lower(" & Hospitality")
    ensures Within(y, {' ', '&', ',', 'a', 'e', 'h', 'i', 'l', 'n', 'o', 'p', 'r', 's', 't', 'v', 'y'})
  {
  }

  lemma TravelCategoryBackNoAI(y: string)
    requires y == Lower(" & Hospitality")
    ensures NoPair(y, 'a', 'i')
  {
  }

  /** Lowercased, "Travel, Transportation & Hospitality" uses only these characters. */
  lemma TravelCategoryText(x: string)
    requires x == Lower(TravelSection.category)
    ensures Within(x, {' ', '&', ',', 'a', 'e', 'h', 'i', 'l', 'n', 'o', 'p', 'r', 's', 't', 'v', 'y'})
  {
    TravelCategoryHalves();
    LowerAppend("Travel, Transportation", " & Hospitality");
    TravelCategoryFrontText(Lower("Travel, Transportation"));
    TravelCategoryBackText(Lower(" & Hospitality"));
    WithinAppend(Lower("Travel, Transportation"), Lower(" & Hospitality"), {' ', '&', ',', 'a', 'e', 'h', 'i', 'l', 'n', 'o', 'p', 'r', 's', 't', 'v', 'y'});
  }

  /** Lowercased, "Travel, Transportation & Hospitality" never has 'a' followed by 'i'. */
  lemma TravelCategoryNoAI(x: string)
    requires x == Lower(TravelSection.category)
    ensures NoPair(x, 'a', 'i')
  {
    TravelCategoryHalves();
    LowerAppend("Travel, Transportation", " & Hospitality");
    TravelCategoryFrontNoAI(Lower("Travel, Transportation"));
    TravelCategoryBackNoAI(Lower(" & Hospitality"));
    NoPairAppend(Lower("Travel, Transportation"), Lower(" & Hospitality"), 'a', 'i');
  }

  /** What "Travel, Transportation & Hospitality" lacks follows from its characters and letter pairs alone. */
  lemma TravelCategoryLacksBankingPhrases(x: string)
    requires Within(x, {' ', '&', ',', 'a', 'e', 'h', 'i', 'l', 'n', 'o', 'p', 'r', 's', 't', 'v', 'y'})
    ensures !Contains(x, "retail & corporate banking")
    ensures !Contains(x, "asset & wealth management")
    ensures !Contains(x, "cards & payments")
    ensures !Contains(x, "risk & compliance")
  {
    MissingChar(x, {' ', '&', ',', 'a', 'e', 'h', 'i', 'l', 'n', 'o', 'p', 'r', 's', 't', 'v', 'y'}, "retail & corporate banking", 25);
    MissingChar(x, {' ', '&', ',', 'a', 'e', 'h', 'i', 'l', 'n', 'o', 'p', 'r', 's', 't', 'v', 'y'}, "asset & wealth management", 21);
    MissingChar(x, {' ', '&', ',', 'a', 'e', 'h', 'i', 'l', 'n', 'o', 'p', 'r', 's', 't', 'v', 'y'}, "cards & payments", 11);
    MissingChar(x, {' ', '&', ',', 'a', 'e', 'h', 'i', 'l', 'n', 'o', 'p', 'r', 's', 't', 'v', 'y'}, "risk & compliance", 15);
  }

  /** What "Travel, Transportation & Hospitality" lacks follows from its characters and letter pairs alone. */
  lemma TravelCategoryLacksServiceAndAirPhrases(x: string)
    requires Within(x, {' ', '&', ',', 'a', 'e', 'h', 'i', 'l', 'n', 'o', 'p', 'r', 's', 't', 'v', 'y'})
    requires NoPair(x, 'a', 'i')
    ensures !Contains(x, "ai services")
    ensures !Contains(x, "intelligent automation")
    ensures !Contains(x, "airlines")
    ensures !Contains(x, "airports")
  {
    MissingChar(x, {' ', '&', ',', 'a', 'e', 'h', 'i', 'l', 'n', 'o', 'p', 'r', 's', 't', 'v', 'y'}, "ai services", 8);
    MissingChar(x, {' ', '&', ',', 'a', 'e', 'h', 'i', 'l', 'n', 'o', 'p', 'r', 's', 't', 'v', 'y'}, "intelligent automation", 16);
    MissingPair(x, "airlines", 0);
    MissingPair(x, "airports", 0);
  }

  /** What "Travel, Transportation & Hospitality" lacks follows from its characters and letter pairs alone. */
  lemma TravelCategoryLacksTravelAndRetailPhrases(x: string)
    requires Within(x, {' ', '&', ',', 'a', 'e', 'h', 'i', 'l', 'n', 'o', 'p', 'r', 's', 't', 'v', 'y'})
    requires NoPair(x, 'a', 'i')
    ensures !Contains(x, "travel tech")
    ensures !Contains(x, "online travel agencies")
    ensures !Contains(x, "retail")
  {
    MissingChar(x, {' ', '&', ',', 'a', 'e', 'h', 'i', 'l', 'n', 'o', 'p', 'r', 's', 't', 'v', 'y'}, "travel tech", 9);
    MissingChar(x, {' ', '&', ',', 'a', 'e', 'h', 'i', 'l', 'n', 'o', 'p', 'r', 's', 't', 'v', 'y'}, "online travel agencies", 18);
    MissingPair(x, "retail", 3);
  }

  /** What "Travel, Transportation & Hospitality" lacks follows from its characters and letter pairs alone. */
  lemma TravelCategoryLacksLaterPhrases(x: string)
    requires Within(x, {' ', '&', ',', 'a', 'e', 'h', 'i', 'l', 'n', 'o', 'p', 'r', 's', 't', 'v', 'y'})
    ensures !Contains(x, "consumer packaged goods")
    ensures !Contains(x, "(cpg)")
    ensures !Contains(x, "our story")
    ensures !Contains(x, "data engineering")
  {
    MissingChar(x, {' ', '&', ',', 'a', 'e', 'h', 'i', 'l', 'n', 'o', 'p', 'r', 's', 't', 'v', 'y'}, "consumer packaged goods", 21);
    MissingChar(x, {' ', '&', ',', 'a', 'e', 'h', 'i', 'l', 'n', 'o', 'p', 'r', 's', 't', 'v', 'y'}, "(cpg)", 4);
    MissingChar(x, {' ', '&', ',', 'a', 'e', 'h', 'i', 'l', 'n', 'o', 'p', 'r', 's', 't', 'v', 'y'}, "our story", 1);
    MissingChar(x, {' ', '&', ',', 'a', 'e', 'h', 'i', 'l', 'n', 'o', 'p', 'r', 's', 't', 'v', 'y'}, "data engineering", 15);
  }

  /** The phrases of the chain that the lowercased "Travel, Transportation & Hospitality" includes and lacks,
      as far as the routes below depend on them. */
  lemma TravelCategoryPhrases(x: string)
    requires x == Lower(TravelSection.category)
    ensures !Contains(x, "retail & corporate banking")
    ensures !Contains(x, "asset & wealth management")
    ensures !Contains(x, "cards & payments")
    ensures !Contains(x, "risk & compliance")
    ensures !Contains(x, "ai services")
    ensures !Contains(x, "intelligent automation")
    ensures !Contains(x, "airlines")
    ensures !Contains(x, "airports")
    ensures !Contains(x, "travel tech")
    ensures !Contains(x, "online travel agencies")
    ensures !Contains(x, "retail")
    ensures !Contains(x, "consumer packaged goods")
    ensures !Contains(x, "(cpg)")
    ensures !Contains(x, "our story")
    ensures !Contains(x, "data engineering")
  {
    TravelCategoryText(x);
    TravelCategoryNoAI(x);
    TravelCategoryLacksBankingPhrases(x);
    TravelCategoryLacksServiceAndAirPhrases(x);
    TravelCategoryLacksTravelAndRetailPhrases(x);
    TravelCategoryLacksLaterPhrases(x);
  }

  /** Lowercased, "Airlines" uses only these characters. */
  lemma AirlinesLinkText(x: string)
    requires x == Lower(TravelSection.links[0])
    ensures Within(x, {'a', 'e', 'i', 'l', 'n', 'r', 's'})
  {
  }

  /** Lowercased, "Airlines" includes "airlines". */
  lemma AirlinesLinkNames(x: string)
    requires x == Lower(TravelSection.links[0])
    ensures Contains(x, "airlines")
  {
    PresentAt(x, "airlines", 0);
  }

  /** What "Airlines" lacks follows from its characters and letter pairs alone. */
  lemma AirlinesLinkLacksBankingPhrases(x: string)
    requires Within(x, {'a', 'e', 'i', 'l', 'n', 'r', 's'})
    ensures !Contains(x, "retail & corporate banking")
    ensures !Contains(x, "asset & wealth management")
    ensures !Contains(x, "cards & payments")
    ensures !Contains(x, "risk & compliance")
  {
    MissingChar(x, {'a', 'e', 'i', 'l', 'n', 'r', 's'}, "retail & corporate banking", 25);
    MissingChar(x, {'a', 'e', 'i', 'l', 'n', 'r', 's'}, "asset & wealth management", 24);
    MissingChar(x, {'a', 'e', 'i', 'l', 'n', 'r', 's'}, "cards & payments", 14);
    MissingChar(x, {'a', 'e', 'i', 'l', 'n', 'r', 's'}, "risk & compliance", 15);
  }

  /** What "Airlines" lacks follows from its characters and letter pairs alone. */
  lemma AirlinesLinkLacksServiceAndAirPhrases(x: string)
    requires Within(x, {'a', 'e', 'i', 'l', 'n', 'r', 's'})
    ensures !Contains(x, "ai services")
    ensures !Contains(x, "intelligent automation")
  {
    MissingChar(x, {'a', 'e', 'i', 'l', 'n', 'r', 's'}, "ai services", 8);
    MissingChar(x, {'a', 'e', 'i', 'l', 'n', 'r', 's'}, "intelligent automation", 20);
  }

  /** The phrases of the chain that the lowercased "Airlines" includes and lacks,
      as far as the routes below depend on them. */
  lemma AirlinesLinkPhrases(x: string)
    requires x == Lower(TravelSection.links[0])
    ensures Contains(x, "airlines")
    ensures !Contains(x, "retail & corporate banking")
    ensures !Contains(x, "asset & wealth management")
    ensures !Contains(x, "cards & payments")
    ensures !Contains(x, "risk & compliance")
    ensures !Contains(x, "ai services")
    ensures !Contains(x, "intelligent automation")
  {
    AirlinesLinkText(x);
    AirlinesLinkNames(x);
    AirlinesLinkLacksBankingPhrases(x);
    AirlinesLinkLacksServiceAndAirPhrases(x);
  }

  /** Lowercased, "Airports" uses only these characters. */
  lemma AirportsLinkText(x: string)
    requires x == Lower(TravelSection.links[1])
    ensures Within(x, {'a', 'i', 'o', 'p', 'r', 's', 't'})
  {
  }

  /** Lowercased, "Airports" includes "airports". */
  lemma AirportsLinkNames(x: string)
    requires x == Lower(TravelSection.links[1])
    ensures Contains(x, "airports")
  {
    PresentAt(x, "airports", 0);
  }

  /** What "Airports" lacks follows from its characters and letter pairs alone. */
  lemma AirportsLinkLacksBankingPhrases(x: string)
    requires Within(x, {'a', 'i', 'o', 'p', 'r', 's', 't'})
    ensures !Contains(x, "retail & corporate banking")
    ensures !Contains(x, "asset & wealth management")
    ensures !Contains(x, "cards & payments")
    ensures !Contains(x, "risk & compliance")
  {
    MissingChar(x, {'a', 'i', 'o', 'p', 'r', 's', 't'}, "retail & corporate banking", 25);
    MissingChar(x, {'a', 'i', 'o', 'p', 'r', 's', 't'}, "asset & wealth management", 23);
    MissingChar(x, {'a', 'i', 'o', 'p', 'r', 's', 't'}, "cards & payments", 13);
    MissingChar(x, {'a', 'i', 'o', 'p', 'r', 's', 't'}, "risk & compliance", 16);
  }

  /** What "Airports" lacks follows from its characters and letter pairs alone. */
  lemma AirportsLinkLacksServiceAndAirPhrases(x: string)
    requires Within(x, {'a', 'i', 'o', 'p', 'r', 's', 't'})
    ensures !Contains(x, "ai services")
    ensures !Contains(x, "intelligent automation")
    ensures !Contains(x, "airlines")
  {
    MissingChar(x, {'a', 'i', 'o', 'p', 'r', 's', 't'}, "ai services", 9);
    MissingChar(x, {'a', 'i', 'o', 'p', 'r', 's', 't'}, "intelligent automation", 21);
    MissingChar(x, {'a', 'i', 'o', 'p', 'r', 's', 't'}, "airlines", 6);
  }

  /** The phrases of the chain that the lowercased "Airports" includes and lacks,
      as far as the routes below depend on them. */
  lemma AirportsLinkPhrases(x: string)
    requires x == Lower(TravelSection.links[1])
    ensures Contains(x, "airports")
    ensures !Contains(x, "retail & corporate banking")
    ensures !Contains(x, "asset & wealth management")
    ensures !Contains(x, "cards & payments")
    ensures !Contains(x, "risk & compliance")
    ensures !Contains(x, "ai services")
    ensures !Contains(x, "intelligent automation")
    ensures !Contains(x, "airlines")
  {
    AirportsLinkText(x);
    AirportsLinkNames(x);
    AirportsLinkLacksBankingPhrases(x);
    AirportsLinkLacksServiceAndAirPhrases(x);
  }

  /** Lowercased, "Travel Tech" uses only these characters. */
  lemma TravelTechLinkText(x: string)
    requires x == Lower(TravelSection.links[2])
    ensures Within(x, {' ', 'a', 'c', 'e', 'h', 'l', 'r', 't', 'v'})
  {
  }

  /** Lowercased, "Travel Tech" includes "travel tech". */
  lemma TravelTechLinkNames(x: string)
    requires x == Lower(TravelSection.links[2])
    ensures Contains(x, "travel tech")
  {
    PresentAt(x, "travel tech", 0);
  }

  /** What "Travel Tech" lacks follows from its characters and letter pairs alone. */
  lemma TravelTechLinkLacksBankingPhrases(x: string)
    requires Within(x, {' ', 'a', 'c', 'e', 'h', 'l', 'r', 't', 'v'})
    ensures !Contains(x, "retail & corporate banking")
    ensures !Contains(x, "asset & wealth management")
    ensures !Contains(x, "cards & payments")
    ensures !Contains(x, "risk & compliance")
  {
    MissingChar(x, {' ', 'a', 'c', 'e', 'h', 'l', 'r', 't', 'v'}, "retail & corporate banking", 25);
    MissingChar(x, {' ', 'a', 'c', 'e', 'h', 'l', 'r', 't', 'v'}, "asset & wealth management", 23);
    MissingChar(x, {' ', 'a', 'c', 'e', 'h', 'l', 'r', 't', 'v'}, "cards & payments", 15);
    MissingChar(x, {' ', 'a', 'c', 'e', 'h', 'l', 'r', 't', 'v'}, "risk & compliance", 14);
  }

  /** What "Travel Tech" lacks follows from its characters and letter pairs alone. */
  lemma TravelTechLinkLacksServiceAndAirPhrases(x: string)
    requires Within(x, {' ', 'a', 'c', 'e', 'h', 'l', 'r', 't', 'v'})
    ensures !Contains(x, "ai services")
    ensures !Contains(x, "intelligent automation")
    ensures !Contains(x, "airlines")
    ensures !Contains(x, "airports")
  {
    MissingChar(x, {' ', 'a', 'c', 'e', 'h', 'l', 'r', 't', 'v'}, "ai services", 10);
    MissingChar(x, {' ', 'a', 'c', 'e', 'h', 'l', 'r', 't', 'v'}, "intelligent automation", 21);
    MissingChar(x, {' ', 'a', 'c', 'e', 'h', 'l', 'r', 't', 'v'}, "airlines", 7);
    MissingChar(x, {' ', 'a', 'c', 'e', 'h', 'l', 'r', 't', 'v'}, "airports", 7);
  }

  /** The phrases of the chain that the lowercased "Travel Tech" includes and lacks,
      as far as the routes below depend on them. */
  lemma TravelTechLinkPhrases(x: string)
    requires x == Lower(TravelSection.links[2])
    ensures Contains(x, "travel tech")
    ensures !Contains(x, "retail & corporate banking")
    ensures !Contains(x, "asset & wealth management")
    ensures !Contains(x, "cards & payments")
    ensures !Contains(x, "risk & compliance")
    ensures !Contains(x, "ai services")
    ensures !Contains(x, "intelligent automation")
    ensures !Contains(x, "airlines")
    ensures !Contains(x, "airports")
  {
    TravelTechLinkText(x);
    TravelTechLinkNames(x);
    TravelTechLinkLacksBankingPhrases(x);
    TravelTechLinkLacksServiceAndAirPhrases(x);
  }

  /** Lowercased, "Online Travel Agencies" uses only these characters. */
  lemma OnlineTravelAgenciesLinkText(x: string)
    requires x == Lower(TravelSection.links[3])
    ensures Within(x, {' ', 'a', 'c', 'e', 'g', 'i', 'l', 'n', 'o', 'r', 's', 't', 'v'})
  {
  }

  /** Lowercased, "Online Travel Agencies" never has 'a' followed by 'i'. */
  lemma OnlineTravelAgenciesLinkNoAI(x: string)
    requires x == Lower(TravelSection.links[3])
    ensures NoPair(x, 'a', 'i')
  {
  }

  /** Lowercased, "Online Travel Agencies" includes "online travel agencies". */
  lemma OnlineTravelAgenciesLinkNames(x: string)
    requires x == Lower(TravelSection.links[3])
    ensures Contains(x, "online travel agencies")
  {
    PresentAt(x, "online travel agencies", 0);
  }

  /** What "Online Travel Agencies" lacks follows from its characters and letter pairs alone. */
  lemma OnlineTravelAgenciesLinkLacksBankingPhrases(x: string)
    requires Within(x, {' ', 'a', 'c', 'e', 'g', 'i', 'l', 'n', 'o', 'r', 's', 't', 'v'})
    ensures !Contains(x, "retail & corporate banking")
    ensures !Contains(x, "asset & wealth management")
    ensures !Contains(x, "cards & payments")
    ensures !Contains(x, "risk & compliance")
  {
    MissingChar(x, {' ', 'a', 'c', 'e', 'g', 'i', 'l', 'n', 'o', 'r', 's', 't', 'v'}, "retail & corporate banking", 22);
    MissingChar(x, {' ', 'a', 'c', 'e', 'g', 'i', 'l', 'n', 'o', 'r', 's', 't', 'v'}, "asset & wealth management", 21);
    MissingChar(x, {' ', 'a', 'c', 'e', 'g', 'i', 'l', 'n', 'o', 'r', 's', 't', 'v'}, "cards & payments", 11);
    MissingChar(x, {' ', 'a', 'c', 'e', 'g', 'i', 'l', 'n', 'o', 'r', 's', 't', 'v'}, "risk & compliance", 10);
  }

  /** What "Online Travel Agencies" lacks follows from its characters and letter pairs alone. */
  lemma OnlineTravelAgenciesLinkLacksServiceAndAirPhrases(x: string)
    requires Within(x, {' ', 'a', 'c', 'e', 'g', 'i', 'l', 'n', 'o', 'r', 's', 't', 'v'})
    requires NoPair(x, 'a', 'i')
    ensures !Contains(x, "ai services")
    ensures !Contains(x, "intelligent automation")
    ensures !Contains(x, "airlines")
    ensures !Contains(x, "airports")
  {
    MissingPair(x, "ai services", 0);
    MissingChar(x, {' ', 'a', 'c', 'e', 'g', 'i', 'l', 'n', 'o', 'r', 's', 't', 'v'}, "intelligent automation", 16);
    MissingPair(x, "airlines", 0);
    MissingChar(x, {' ', 'a', 'c', 'e', 'g', 'i', 'l', 'n', 'o', 'r', 's', 't', 'v'}, "airports", 3);
  }

  /** What "Online Travel Agencies" lacks follows from its characters and letter pairs alone. */
  lemma OnlineTravelAgenciesLinkLacksTravelAndRetailPhrases(x: string)
    requires Within(x, {' ', 'a', 'c', 'e', 'g', 'i', 'l', 'n', 'o', 'r', 's', 't', 'v'})
    ensures !Contains(x, "travel tech")
  {
    MissingChar(x, {' ', 'a', 'c', 'e', 'g', 'i', 'l', 'n', 'o', 'r', 's', 't', 'v'}, "travel tech", 10);
  }

  /** The phrases of the chain that the lowercased "Online Travel Agencies" includes and lacks,
      as far as the routes below depend on them. */
  lemma OnlineTravelAgenciesLinkPhrases(x: string)
    requires x == Lower(TravelSection.links[3])
    ensures Contains(x, "online travel agencies")
    ensures !Contains(x, "retail & corporate banking")
    ensures !Contains(x, "asset & wealth management")
    ensures !Contains(x, "cards & payments")
    ensures !Contains(x, "risk & compliance")
    ensures !Contains(x, "ai services")
    ensures !Contains(x, "intelligent automation")
    ensures !Contains(x, "airlines")
    ensures !Contains(x, "airports")
    ensures !Contains(x, "travel tech")
  {
    OnlineTravelAgenciesLinkText(x);
    OnlineTravelAgenciesLinkNoAI(x);
    OnlineTravelAgenciesLinkNames(x);
    OnlineTravelAgenciesLinkLacksBankingPhrases(x);
    OnlineTravelAgenciesLinkLacksServiceAndAirPhrases(x);
    OnlineTravelAgenciesLinkLacksTravelAndRetailPhrases(x);
  }

  /** Lowercased, "Logistics and Rail" uses only these characters. */
  lemma LogisticsAndRailLinkText(x: string)
    requires x == Lower(TravelSection.links[4])
    ensures Within(x, {' ', 'a', 'c', 'd', 'g', 'i', 'l', 'n', 'o', 'r', 's', 't'})
  {
  }

  /** What "Logistics and Rail" lacks follows from its characters and letter pairs alone. */
  lemma LogisticsAndRailLinkLacksBankingPhrases(x: string)
    requires Within(x, {' ', 'a', 'c', 'd', 'g', 'i', 'l', 'n', 'o', 'r', 's', 't'})
    ensures !Contains(x, "retail & corporate banking")
    ensures !Contains(x, "asset & wealth management")
    ensures !Contains(x, "cards & payments")
    ensures !Contains(x, "risk & compliance")
  {
    MissingChar(x, {' ', 'a', 'c', 'd', 'g', 'i', 'l', 'n', 'o', 'r', 's', 't'}, "retail & corporate banking", 22);
    MissingChar(x, {' ', 'a', 'c', 'd', 'g', 'i', 'l', 'n', 'o', 'r', 's', 't'}, "asset & wealth management", 22);
    MissingChar(x, {' ', 'a', 'c', 'd', 'g', 'i', 'l', 'n', 'o', 'r', 's', 't'}, "cards & payments", 12);
    MissingChar(x, {' ', 'a', 'c', 'd', 'g', 'i', 'l', 'n', 'o', 'r', 's', 't'}, "risk & compliance", 16);
  }

  /** What "Logistics and Rail" lacks follows from its characters and letter pairs alone. */
  lemma LogisticsAndRailLinkLacksServiceAndAirPhrases(x: string)
    requires Within(x, {' ', 'a', 'c', 'd', 'g', 'i', 'l', 'n', 'o', 'r', 's', 't'})
    ensures !Contains(x, "ai services")
    ensures !Contains(x, "intelligent automation")
    ensures !Contains(x, "airlines")
    ensures !Contains(x, "airports")
  {
    MissingChar(x, {' ', 'a', 'c', 'd', 'g', 'i', 'l', 'n', 'o', 'r', 's', 't'}, "ai services", 9);
    MissingChar(x, {' ', 'a', 'c', 'd', 'g', 'i', 'l', 'n', 'o', 'r', 's', 't'}, "intelligent automation", 16);
    MissingChar(x, {' ', 'a', 'c', 'd', 'g', 'i', 'l', 'n', 'o', 'r', 's', 't'}, "airlines", 6);
    MissingChar(x, {' ', 'a', 'c', 'd', 'g', 'i', 'l', 'n', 'o', 'r', 's', 't'}, "airports", 3);
  }

  /** What "Logistics and Rail" lacks follows from its characters and letter pairs alone. */
  lemma LogisticsAndRailLinkLacksTravelAndRetailPhrases(x: string)
    requires Within(x, {' ', 'a', 'c', 'd', 'g', 'i', 'l', 'n', 'o', 'r', 's', 't'})
    ensures !Contains(x, "travel tech")
    ensures !Contains(x, "online travel agencies")
    ensures !Contains(x, "retail")
  {
    MissingChar(x, {' ', 'a', 'c', 'd', 'g', 'i', 'l', 'n', 'o', 'r', 's', 't'}, "travel tech", 10);
    MissingChar(x, {' ', 'a', 'c', 'd', 'g', 'i', 'l', 'n', 'o', 'r', 's', 't'}, "online travel agencies", 20);
    MissingChar(x, {' ', 'a', 'c', 'd', 'g', 'i', 'l', 'n', 'o', 'r', 's', 't'}, "retail", 1);
  }

  /** What "Logistics and Rail" lacks follows from its characters and letter pairs alone. */
  lemma LogisticsAndRailLinkLacksLaterPhrases(x: string)
    requires Within(x, {' ', 'a', 'c', 'd', 'g', 'i', 'l', 'n', 'o', 'r', 's', 't'})
    ensures !Contains(x, "consumer packaged goods")
    ensures !Contains(x, "(cpg)")
    ensures !Contains(x, "our story")
    ensures !Contains(x, "data engineering")
  {
    MissingChar(x, {' ', 'a', 'c', 'd', 'g', 'i', 'l', 'n', 'o', 'r', 's', 't'}, "consumer packaged goods", 15);
    MissingChar(x, {' ', 'a', 'c', 'd', 'g', 'i', 'l', 'n', 'o', 'r', 's', 't'}, "(cpg)", 4);
    MissingChar(x, {' ', 'a', 'c', 'd', 'g', 'i', 'l', 'n', 'o', 'r', 's', 't'}, "our story", 8);
    MissingChar(x, {' ', 'a', 'c', 'd', 'g', 'i', 'l', 'n', 'o', 'r', 's', 't'}, "data engineering", 11);
  }

  /** The phrases of the chain that the lowercased "Logistics and Rail" includes and lacks,
      as far as the routes below depend on them. */
  lemma LogisticsAndRailLinkPhrases(x: string)
    requires x == Lower(TravelSection.links[4])
    ensures !Contains(x, "retail & corporate banking")
    ensures !Contains(x, "asset & wealth management")
    ensures !Contains(x, "cards & payments")
    ensures !Contains(x, "risk & compliance")
    ensures !Contains(x, "ai services")
    ensures !Contains(x, "intelligent automation")
    ensures !Contains(x, "airlines")
    ensures !Contains(x, "airports")
    ensures !Contains(x, "travel tech")
    ensures !Contains(x, "online travel agencies")
    ensures !Contains(x, "retail")
    ensures !Contains(x, "consumer packaged goods")
    ensures !Contains(x, "(cpg)")
    ensures !Contains(x, "our story")
    ensures !Contains(x, "data engineering")
  {
    LogisticsAndRailLinkText(x);
    LogisticsAndRailLinkLacksBankingPhrases(x);
    LogisticsAndRailLinkLacksServiceAndAirPhrases(x);
    LogisticsAndRailLinkLacksTravelAndRetailPhrases(x);
    LogisticsAndRailLinkLacksLaterPhrases(x);
  }

  /** Lowercased, "Hospitality" uses only these characters. */
  lemma HospitalityLinkText(x: string)
    requires x == Lower(TravelSection.links[5])
    ensures Within(x, {'a', 'h', 'i', 'l', 'o', 'p', 's', 't', 'y'})
  {
  }

  /** What "Hospitality" lacks follows from its characters and letter pairs alone. */
  lemma HospitalityLinkLacksBankingPhrases(x: string)
    requires Within(x, {'a', 'h', 'i', 'l', 'o', 'p', 's', 't', 'y'})
    ensures !Contains(x, "retail & corporate banking")
    ensures !Contains(x, "asset & wealth management")
    ensures !Contains(x, "cards & payments")
    ensures !Contains(x, "risk & compliance")
  {
    MissingChar(x, {'a', 'h', 'i', 'l', 'o', 'p', 's', 't', 'y'}, "retail & corporate banking", 25);
    MissingChar(x, {'a', 'h', 'i', 'l', 'o', 'p', 's', 't', 'y'}, "asset & wealth management", 23);
    MissingChar(x, {'a', 'h', 'i', 'l', 'o', 'p', 's', 't', 'y'}, "cards & payments", 13);
    MissingChar(x, {'a', 'h', 'i', 'l', 'o', 'p', 's', 't', 'y'}, "risk & compliance", 16);
  }

  /** What "Hospitality" lacks follows from its characters and letter pairs alone. */
  lemma HospitalityLinkLacksServiceAndAirPhrases(x: string)
    requires Within(x, {'a', 'h', 'i', 'l', 'o', 'p', 's', 't', 'y'})
    ensures !Contains(x, "ai services")
    ensures !Contains(x, "intelligent automation")
    ensures !Contains(x, "airlines")
    ensures !Contains(x, "airports")
  {
    MissingChar(x, {'a', 'h', 'i', 'l', 'o', 'p', 's', 't', 'y'}, "ai services", 9);
    MissingChar(x, {'a', 'h', 'i', 'l', 'o', 'p', 's', 't', 'y'}, "intelligent automation", 21);
    MissingChar(x, {'a', 'h', 'i', 'l', 'o', 'p', 's', 't', 'y'}, "airlines", 6);
    MissingChar(x, {'a', 'h', 'i', 'l', 'o', 'p', 's', 't', 'y'}, "airports", 5);
  }

  /** What "Hospitality" lacks follows from its characters and letter pairs alone. */
  lemma HospitalityLinkLacksTravelAndRetailPhrases(x: string)
    requires Within(x, {'a', 'h', 'i', 'l', 'o', 'p', 's', 't', 'y'})
    ensures !Contains(x, "travel tech")
    ensures !Contains(x, "online travel agencies")
    ensures !Contains(x, "retail")
  {
    MissingChar(x, {'a', 'h', 'i', 'l', 'o', 'p', 's', 't', 'y'}, "travel tech", 9);
    MissingChar(x, {'a', 'h', 'i', 'l', 'o', 'p', 's', 't', 'y'}, "online travel agencies", 20);
    MissingChar(x, {'a', 'h', 'i', 'l', 'o', 'p', 's', 't', 'y'}, "retail", 1);
  }

  /** What "Hospitality" lacks follows from its characters and letter pairs alone. */
  lemma HospitalityLinkLacksLaterPhrases(x: string)
    requires Within(x, {'a', 'h', 'i', 'l', 'o', 'p', 's', 't', 'y'})
    ensures !Contains(x, "consumer packaged goods")
    ensures !Contains(x, "(cpg)")
    ensures !Contains(x, "our story")
    ensures !Contains(x, "data engineering")
  {
    MissingChar(x, {'a', 'h', 'i', 'l', 'o', 'p', 's', 't', 'y'}, "consumer packaged goods", 21);
    MissingChar(x, {'a', 'h', 'i', 'l', 'o', 'p', 's', 't', 'y'}, "(cpg)", 4);
    MissingChar(x, {'a', 'h', 'i', 'l', 'o', 'p', 's', 't', 'y'}, "our story", 7);
    MissingChar(x, {'a', 'h', 'i', 'l', 'o', 'p', 's', 't', 'y'}, "data engineering", 15);
  }

  /** The phrases of the chain that the lowercased "Hospitality" includes and lacks,
      as far as the routes below depend on them. */
  lemma HospitalityLinkPhrases(x: string)
    requires x == Lower(TravelSection.links[5])
    ensures !Contains(x, "retail & corporate banking")
    ensures !Contains(x, "asset & wealth management")
    ensures !Contains(x, "cards & payments")
    ensures !Contains(x, "risk & compliance")
    ensures !Contains(x, "ai services")
    ensures !Contains(x, "intelligent automation")
    ensures !Contains(x, "airlines")
    ensures !Contains(x, "airports")
    ensures !Contains(x, "travel tech")
    ensures !Contains(x, "online travel agencies")
    ensures !Contains(x, "retail")
    ensures !Contains(x, "consumer packaged goods")
    ensures !Contains(x, "(cpg)")
    ensures !Contains(x, "our story")
    ensures !Contains(x, "data engineering")
  {
    HospitalityLinkText(x);
    HospitalityLinkLacksBankingPhrases(x);
    HospitalityLinkLacksServiceAndAirPhrases(x);
    HospitalityLinkLacksTravelAndRetailPhrases(x);
    HospitalityLinkLacksLaterPhrases(x);
  }

  /** Lowercased, "Retail & Consumer Goods" uses only these characters. */
  lemma RetailGoodsCategoryText(x: string)
    requires x == Lower(RetailSection.category)
    ensures Within(x, {' ', '&', 'a', 'c', 'd', 'e', 'g', 'i', 'l', 'm', 'n', 'o', 'r', 's', 't', 'u'})
  {
  }

  /** Lowercased, "Retail & Consumer Goods" never has 'l' followed by 'i'. */
  lemma RetailGoodsCategoryNoLI(x: string)
    requires x == Lower(RetailSection.category)
    ensures NoPair(x, 'l', 'i')
  {
  }

  /** Lowercased, "Retail & Consumer Goods" includes "retail". */
  lemma RetailGoodsCategoryNames(x: string)
    requires x == Lower(RetailSection.category)
    ensures Contains(x, "retail")
  {
    PresentAt(x, "retail", 0);
  }

  /** What "Retail & Consumer Goods" lacks follows from its characters and letter pairs alone. */
  lemma RetailGoodsCategoryLacksBankingPhrases(x: string)
    requires Within(x, {' ', '&', 'a', 'c', 'd', 'e', 'g', 'i', 'l', 'm', 'n', 'o', 'r', 's', 't', 'u'})
    ensures !Contains(x, "retail & corporate banking")
    ensures !Contains(x, "asset & wealth management")
    ensures !Contains(x, "cards & payments")
    ensures !Contains(x, "risk & compliance")
  {
    MissingChar(x, {' ', '&', 'a', 'c', 'd', 'e', 'g', 'i', 'l', 'm', 'n', 'o', 'r', 's', 't', 'u'}, "retail & corporate banking", 22);
    MissingChar(x, {' ', '&', 'a', 'c', 'd', 'e', 'g', 'i', 'l', 'm', 'n', 'o', 'r', 's', 't', 'u'}, "asset & wealth management", 13);
    MissingChar(x, {' ', '&', 'a', 'c', 'd', 'e', 'g', 'i', 'l', 'm', 'n', 'o', 'r', 's', 't', 'u'}, "cards & payments", 10);
    MissingChar(x, {' ', '&', 'a', 'c', 'd', 'e', 'g', 'i', 'l', 'm', 'n', 'o', 'r', 's', 't', 'u'}, "risk & compliance", 10);
  }

  /** What "Retail & Consumer Goods" lacks follows from its characters and letter pairs alone. */
  lemma RetailGoodsCategoryLacksServiceAndAirPhrases(x: string)
    requires Within(x, {' ', '&', 'a', 'c', 'd', 'e', 'g', 'i', 'l', 'm', 'n', 'o', 'r', 's', 't', 'u'})
    requires NoPair(x, 'l', 'i')
    ensures !Contains(x, "ai services")
    ensures !Contains(x, "intelligent automation")
    ensures !Contains(x, "airlines")
    ensures !Contains(x, "airports")
  {
    MissingChar(x, {' ', '&', 'a', 'c', 'd', 'e', 'g', 'i', 'l', 'm', 'n', 'o', 'r', 's', 't', 'u'}, "ai services", 6);
    MissingPair(x, "intelligent automation", 5);
    MissingPair(x, "airlines", 3);
    MissingChar(x, {' ', '&', 'a', 'c', 'd', 'e', 'g', 'i', 'l', 'm', 'n', 'o', 'r', 's', 't', 'u'}, "airports", 3);
  }

  /** What "Retail & Consumer Goods" lacks follows from its characters and letter pairs alone. */
  lemma RetailGoodsCategoryLacksTravelAndRetailPhrases(x: string)
    requires Within(x, {' ', '&', 'a', 'c', 'd', 'e', 'g', 'i', 'l', 'm', 'n', 'o', 'r', 's', 't', 'u'})
    ensures !Contains(x, "travel tech")
    ensures !Contains(x, "online travel agencies")
    ensures !Contains(x, "banking")
  {
    MissingChar(x, {' ', '&', 'a', 'c', 'd', 'e', 'g', 'i', 'l', 'm', 'n', 'o', 'r', 's', 't', 'u'}, "travel tech", 10);
    MissingChar(x, {' ', '&', 'a', 'c', 'd', 'e', 'g', 'i', 'l', 'm', 'n', 'o', 'r', 's', 't', 'u'}, "online travel agencies", 10);
    MissingChar(x, {' ', '&', 'a', 'c', 'd', 'e', 'g', 'i', 'l', 'm', 'n', 'o', 'r', 's', 't', 'u'}, "banking", 3);
  }

  /** What "Retail & Consumer Goods" lacks follows from its characters and letter pairs alone. */
  lemma RetailGoodsCategoryLacksLaterPhrases(x: string)
    requires Within(x, {' ', '&', 'a', 'c', 'd', 'e', 'g', 'i', 'l', 'm', 'n', 'o', 'r', 's', 't', 'u'})
    ensures !Contains(x, "consumer packaged goods")
  {
    MissingChar(x, {' ', '&', 'a', 'c', 'd', 'e', 'g', 'i', 'l', 'm', 'n', 'o', 'r', 's', 't', 'u'}, "consumer packaged goods", 12);
  }

  /** The phrases of the chain that the lowercased "Retail & Consumer Goods" includes and lacks,
      as far as the routes below depend on them. */
  lemma RetailGoodsCategoryPhrases(x: string)
    requires x == Lower(RetailSection.category)
    ensures Contains(x, "retail")
    ensures !Contains(x, "retail & corporate banking")
    ensures !Contains(x, "asset & wealth management")
    ensures !Contains(x, "cards & payments")
    ensures !Contains(x, "risk & compliance")
    ensures !Contains(x, "ai services")
    ensures !Contains(x, "intelligent automation")
    ensures !Contains(x, "airlines")
    ensures !Contains(x, "airports")
    ensures !Contains(x, "travel tech")
    ensures !Contains(x, "online travel agencies")
    ensures !Contains(x, "banking")
    ensures !Contains(x, "consumer packaged goods")
  {
    RetailGoodsCategoryText(x);
    RetailGoodsCategoryNoLI(x);
    RetailGoodsCategoryNames(x);
    RetailGoodsCategoryLacksBankingPhrases(x);
    RetailGoodsCategoryLacksServiceAndAirPhrases(x);
    RetailGoodsCategoryLacksTravelAndRetailPhrases(x);
    RetailGoodsCategoryLacksLaterPhrases(x);
  }

  /** Lowercased, "Retail" uses only these characters. */
  lemma RetailLinkText(x: string)
    requires x == Lower(RetailSection.links[0])
    ensures Within(x, {'a', 'e', 'i', 'l', 'r', 't'})
  {
  }

  /** What "Retail" lacks follows from its characters and letter pairs alone. */
  lemma RetailLinkLacksBankingPhrases(x: string)
    requires Within(x, {'a', 'e', 'i', 'l', 'r', 't'})
    ensures !Contains(x, "retail & corporate banking")
    ensures !Contains(x, "asset & wealth management")
    ensures !Contains(x, "cards & payments")
    ensures !Contains(x, "risk & compliance")
  {
    MissingChar(x, {'a', 'e', 'i', 'l', 'r', 't'}, "retail & corporate banking", 25);
    MissingChar(x, {'a', 'e', 'i', 'l', 'r', 't'}, "asset & wealth management", 23);
    MissingChar(x, {'a', 'e', 'i', 'l', 'r', 't'}, "cards & payments", 15);
    MissingChar(x, {'a', 'e', 'i', 'l', 'r', 't'}, "risk & compliance", 15);
  }

  /** What "Retail" lacks follows from its characters and letter pairs alone. */
  lemma RetailLinkLacksServiceAndAirPhrases(x: string)
    requires Within(x, {'a', 'e', 'i', 'l', 'r', 't'})
    ensures !Contains(x, "ai services")
    ensures !Contains(x, "intelligent automation")
    ensures !Contains(x, "airlines")
    ensures !Contains(x, "airports")
  {
    MissingChar(x, {'a', 'e', 'i', 'l', 'r', 't'}, "ai services", 10);
    MissingChar(x, {'a', 'e', 'i', 'l', 'r', 't'}, "intelligent automation", 21);
    MissingChar(x, {'a', 'e', 'i', 'l', 'r', 't'}, "airlines", 7);
    MissingChar(x, {'a', 'e', 'i', 'l', 'r', 't'}, "airports", 7);
  }

  /** What "Retail" lacks follows from its characters and letter pairs alone. */
  lemma RetailLinkLacksTravelAndRetailPhrases(x: string)
    requires Within(x, {'a', 'e', 'i', 'l', 'r', 't'})
    ensures !Contains(x, "travel tech")
    ensures !Contains(x, "online travel agencies")
    ensures !Contains(x, "banking")
  {
    MissingChar(x, {'a', 'e', 'i', 'l', 'r', 't'}, "travel tech", 10);
    MissingChar(x, {'a', 'e', 'i', 'l', 'r', 't'}, "online travel agencies", 21);
    MissingChar(x, {'a', 'e', 'i', 'l', 'r', 't'}, "banking", 6);
  }

  /** What "Retail" lacks follows from its characters and letter pairs alone. */
  lemma RetailLinkLacksLaterPhrases(x: string)
    requires Within(x, {'a', 'e', 'i', 'l', 'r', 't'})
    ensures !Contains(x, "consumer packaged goods")
  {
    MissingChar(x, {'a', 'e', 'i', 'l', 'r', 't'}, "consumer packaged goods", 22);
  }

  /** The phrases of the chain that the lowercased "Retail" includes and lacks,
      as far as the routes below depend on them. */
  lemma RetailLinkPhrases(x: string)
    requires x == Lower(RetailSection.links[0])
    ensures !Contains(x, "retail & corporate banking")
    ensures !Contains(x, "asset & wealth management")
    ensures !Contains(x, "cards & payments")
    ensures !Contains(x, "risk & compliance")
    ensures !Contains(x, "ai services")
    ensures !Contains(x, "intelligent automation")
    ensures !Contains(x, "airlines")
    ensures !Contains(x, "airports")
    ensures !Contains(x, "travel tech")
    ensures !Contains(x, "online travel agencies")
    ensures !Contains(x, "banking")
    ensures !Contains(x, "consumer packaged goods")
  {
    RetailLinkText(x);
    RetailLinkLacksBankingPhrases(x);
    RetailLinkLacksServiceAndAirPhrases(x);
    RetailLinkLacksTravelAndRetailPhrases(x);
    RetailLinkLacksLaterPhrases(x);
  }

  /** Lowercased, "Consumer Packaged Goods (CPG)" uses only these characters. */
  lemma ConsumerPackagedGoodsCpgLinkText(x: string)
    requires x == Lower(RetailSection.links[1])
    ensures Within(x, {' ', '(', ')', 'a', 'c', 'd', 'e', 'g', 'k', 'm', 'n', 'o', 'p', 'r', 's', 'u'})
  {
  }

  /** Lowercased, "Consumer Packaged Goods (CPG)" includes "consumer packaged goods". */
  lemma ConsumerPackagedGoodsCpgLinkNames(x: string)
    requires x == Lower(RetailSection.links[1])
    ensures Contains(x, "consumer packaged goods")
  {
    PresentAt(x, "consumer packaged goods", 0);
  }

  /** What "Consumer Packaged Goods (CPG)" lacks follows from its characters and letter pairs alone. */
  lemma ConsumerPackagedGoodsCpgLinkLacksBankingPhrases(x: string)
    requires Within(x, {' ', '(', ')', 'a', 'c', 'd', 'e', 'g', 'k', 'm', 'n', 'o', 'p', 'r', 's', 'u'})
    ensures !Contains(x, "retail & corporate banking")
    ensures !Contains(x, "asset & wealth management")
    ensures !Contains(x, "cards & payments")
    ensures !Contains(x, "risk & compliance")
  {
    MissingChar(x, {' ', '(', ')', 'a', 'c', 'd', 'e', 'g', 'k', 'm', 'n', 'o', 'p', 'r', 's', 'u'}, "retail & corporate banking", 23);
    MissingChar(x, {' ', '(', ')', 'a', 'c', 'd', 'e', 'g', 'k', 'm', 'n', 'o', 'p', 'r', 's', 'u'}, "asset & wealth management", 24);
    MissingChar(x, {' ', '(', ')', 'a', 'c', 'd', 'e', 'g', 'k', 'm', 'n', 'o', 'p', 'r', 's', 'u'}, "cards & payments", 14);
    MissingChar(x, {' ', '(', ')', 'a', 'c', 'd', 'e', 'g', 'k', 'm', 'n', 'o', 'p', 'r', 's', 'u'}, "risk & compliance", 12);
  }

  /** What "Consumer Packaged Goods (CPG)" lacks follows from its characters and letter pairs alone. */
  lemma ConsumerPackagedGoodsCpgLinkLacksServiceAndAirPhrases(x: string)
    requires Within(x, {' ', '(', ')', 'a', 'c', 'd', 'e', 'g', 'k', 'm', 'n', 'o', 'p', 'r', 's', 'u'})
    ensures !Contains(x, "ai services")
    ensures !Contains(x, "intelligent automation")
    ensures !Contains(x, "airlines")
    ensures !Contains(x, "airports")
  {
    MissingChar(x, {' ', '(', ')', 'a', 'c', 'd', 'e', 'g', 'k', 'm', 'n', 'o', 'p', 'r', 's', 'u'}, "ai services", 7);
    MissingChar(x, {' ', '(', ')', 'a', 'c', 'd', 'e', 'g', 'k', 'm', 'n', 'o', 'p', 'r', 's', 'u'}, "intelligent automation", 19);
    MissingChar(x, {' ', '(', ')', 'a', 'c', 'd', 'e', 'g', 'k', 'm', 'n', 'o', 'p', 'r', 's', 'u'}, "airlines", 4);
    MissingChar(x, {' ', '(', ')', 'a', 'c', 'd', 'e', 'g', 'k', 'm', 'n', 'o', 'p', 'r', 's', 'u'}, "airports", 6);
  }

  /** What "Consumer Packaged Goods (CPG)" lacks follows from its characters and letter pairs alone. */
  lemma ConsumerPackagedGoodsCpgLinkLacksTravelAndRetailPhrases(x: string)
    requires Within(x, {' ', '(', ')', 'a', 'c', 'd', 'e', 'g', 'k', 'm', 'n', 'o', 'p', 'r', 's', 'u'})
    ensures !Contains(x, "travel tech")
    ensures !Contains(x, "online travel agencies")
  {
    MissingChar(x, {' ', '(', ')', 'a', 'c', 'd', 'e', 'g', 'k', 'm', 'n', 'o', 'p', 'r', 's', 'u'}, "travel tech", 10);
    MissingChar(x, {' ', '(', ')', 'a', 'c', 'd', 'e', 'g', 'k', 'm', 'n', 'o', 'p', 'r', 's', 'u'}, "online travel agencies", 19);
  }

  /** The phrases of the chain that the lowercased "Consumer Packaged Goods (CPG)" includes and lacks,
      as far as the routes below depend on them. */
  lemma ConsumerPackagedGoodsCpgLinkPhrases(x: string)
    requires x == Lower(RetailSection.links[1])
    ensures Contains(x, "consumer packaged goods")
    ensures !Contains(x, "retail & corporate banking")
    ensures !Contains(x, "asset & wealth management")
    ensures !Contains(x, "cards & payments")
    ensures !Contains(x, "risk & compliance")
    ensures !Contains(x, "ai services")
    ensures !Contains(x, "intelligent automation")
    ensures !Contains(x, "airlines")
    ensures !Contains(x, "airports")
    ensures !Contains(x, "travel tech")
    ensures !Contains(x, "online travel agencies")
  {
    ConsumerPackagedGoodsCpgLinkText(x);
    ConsumerPackagedGoodsCpgLinkNames(x);
    ConsumerPackagedGoodsCpgLinkLacksBankingPhrases(x);
    ConsumerPackagedGoodsCpgLinkLacksServiceAndAirPhrases(x);
    ConsumerPackagedGoodsCpgLinkLacksTravelAndRetailPhrases(x);
  }

  /** Lowercased, "Company" uses only these characters. */
  lemma CompanyCategoryText(x: string)
    requires x == Lower(CompanySection.category)
    ensures Within(x, {'a', 'c', 'm', 'n', 'o', 'p', 'y'})
  {
  }

  /** What "Company" lacks follows from its characters and letter pairs alone. */
  lemma CompanyCategoryLacksBankingPhrases(x: string)
    requires Within(x, {'a', 'c', 'm', 'n', 'o', 'p', 'y'})
    ensures !Contains(x, "retail & corporate banking")
    ensures !Contains(x, "asset & wealth management")
    ensures !Contains(x, "cards & payments")
    ensures !Contains(x, "risk & compliance")
  {
    MissingChar(x, {'a', 'c', 'm', 'n', 'o', 'p', 'y'}, "retail & corporate banking", 25);
    MissingChar(x, {'a', 'c', 'm', 'n', 'o', 'p', 'y'}, "asset & wealth management", 24);
    MissingChar(x, {'a', 'c', 'm', 'n', 'o', 'p', 'y'}, "cards & payments", 15);
    MissingChar(x, {'a', 'c', 'm', 'n', 'o', 'p', 'y'}, "risk & compliance", 16);
  }

  /** What "Company" lacks follows from its characters and letter pairs alone. */
  lemma CompanyCategoryLacksServiceAndAirPhrases(x: string)
    requires Within(x, {'a', 'c', 'm', 'n', 'o', 'p', 'y'})
    ensures !Contains(x, "ai services")
    ensures !Contains(x, "intelligent automation")
    ensures !Contains(x, "airlines")
    ensures !Contains(x, "airports")
  {
    MissingChar(x, {'a', 'c', 'm', 'n', 'o', 'p', 'y'}, "ai services", 10);
    MissingChar(x, {'a', 'c', 'm', 'n', 'o', 'p', 'y'}, "intelligent automation", 19);
    MissingChar(x, {'a', 'c', 'm', 'n', 'o', 'p', 'y'}, "airlines", 7);
    MissingChar(x, {'a', 'c', 'm', 'n', 'o', 'p', 'y'}, "airports", 7);
  }

  /** What "Company" lacks follows from its characters and letter pairs alone. */
  lemma CompanyCategoryLacksTravelAndRetailPhrases(x: string)
    requires Within(x, {'a', 'c', 'm', 'n', 'o', 'p', 'y'})
    ensures !Contains(x, "travel tech")
    ensures !Contains(x, "online travel agencies")
    ensures !Contains(x, "retail")
  {
    MissingChar(x, {'a', 'c', 'm', 'n', 'o', 'p', 'y'}, "travel tech", 10);
    MissingChar(x, {'a', 'c', 'm', 'n', 'o', 'p', 'y'}, "online travel agencies", 21);
    MissingChar(x, {'a', 'c', 'm', 'n', 'o', 'p', 'y'}, "retail", 5);
  }

  /** What "Company" lacks follows from its characters and letter pairs alone. */
  lemma CompanyCategoryLacksLaterPhrases(x: string)
    requires Within(x, {'a', 'c', 'm', 'n', 'o', 'p', 'y'})
    ensures !Contains(x, "consumer packaged goods")
    ensures !Contains(x, "(cpg)")
  {
    MissingChar(x, {'a', 'c', 'm', 'n', 'o', 'p', 'y'}, "consumer packaged goods", 22);
    MissingChar(x, {'a', 'c', 'm', 'n', 'o', 'p', 'y'}, "(cpg)", 4);
  }

  /** The phrases of the chain that the lowercased "Company" includes and lacks,
      as far as the routes below depend on them. */
  lemma CompanyCategoryPhrases(x: string)
    requires x == Lower(CompanySection.category)
    ensures !Contains(x, "retail & corporate banking")
    ensures !Contains(x, "asset & wealth management")
    ensures !Contains(x, "cards & payments")
    ensures !Contains(x, "risk & compliance")
    ensures !Contains(x, "ai services")
    ensures !Contains(x, "intelligent automation")
    ensures !Contains(x, "airlines")
    ensures !Contains(x, "airports")
    ensures !Contains(x, "travel tech")
    ensures !Contains(x, "online travel agencies")
    ensures !Contains(x, "retail")
    ensures !Contains(x, "consumer packaged goods")
    ensures !Contains(x, "(cpg)")
  {
    CompanyCategoryText(x);
    CompanyCategoryLacksBankingPhrases(x);
    CompanyCategoryLacksServiceAndAirPhrases(x);
    CompanyCategoryLacksTravelAndRetailPhrases(x);
    CompanyCategoryLacksLaterPhrases(x);
  }

  /** Lowercased, "Our Story" uses only these characters. */
  lemma OurStoryLinkText(x: string)
    requires x == Lower(CompanySection.links[0])
    ensures Within(x, {' ', 'o', 'r', 's', 't', 'u', 'y'})
  {
  }

  /** Lowercased, "Our Story" includes "our story". */
  lemma OurStoryLinkNames(x: string)
    requires x == Lower(CompanySection.links[0])
    ensures Contains(x, "our story")
  {
    PresentAt(x, "our story", 0);
  }

  /** What "Our Story" lacks follows from its characters and letter pairs alone. */
  lemma OurStoryLinkLacksBankingPhrases(x: string)
    requires Within(x, {' ', 'o', 'r', 's', 't', 'u', 'y'})
    ensures !Contains(x, "retail & corporate banking")
    ensures !Contains(x, "asset & wealth management")
    ensures !Contains(x, "cards & payments")
    ensures !Contains(x, "risk & compliance")
  {
    MissingChar(x, {' ', 'o', 'r', 's', 't', 'u', 'y'}, "retail & corporate banking", 25);
    MissingChar(x, {' ', 'o', 'r', 's', 't', 'u', 'y'}, "asset & wealth management", 23);
    MissingChar(x, {' ', 'o', 'r', 's', 't', 'u', 'y'}, "cards & payments", 13);
    MissingChar(x, {' ', 'o', 'r', 's', 't', 'u', 'y'}, "risk & compliance", 16);
  }

  /** What "Our Story" lacks follows from its characters and letter pairs alone. */
  lemma OurStoryLinkLacksServiceAndAirPhrases(x: string)
    requires Within(x, {' ', 'o', 'r', 's', 't', 'u', 'y'})
    ensures !Contains(x, "ai services")
    ensures !Contains(x, "intelligent automation")
    ensures !Contains(x, "airlines")
    ensures !Contains(x, "airports")
  {
    MissingChar(x, {' ', 'o', 'r', 's', 't', 'u', 'y'}, "ai services", 9);
    MissingChar(x, {' ', 'o', 'r', 's', 't', 'u', 'y'}, "intelligent automation", 21);
    MissingChar(x, {' ', 'o', 'r', 's', 't', 'u', 'y'}, "airlines", 6);
    MissingChar(x, {' ', 'o', 'r', 's', 't', 'u', 'y'}, "airports", 3);
  }

  /** What "Our Story" lacks follows from its characters and letter pairs alone. */
  lemma OurStoryLinkLacksTravelAndRetailPhrases(x: string)
    requires Within(x, {' ', 'o', 'r', 's', 't', 'u', 'y'})
    ensures !Contains(x, "travel tech")
    ensures !Contains(x, "online travel agencies")
    ensures !Contains(x, "retail")
  {
    MissingChar(x, {' ', 'o', 'r', 's', 't', 'u', 'y'}, "travel tech", 10);
    MissingChar(x, {' ', 'o', 'r', 's', 't', 'u', 'y'}, "online travel agencies", 20);
    MissingChar(x, {' ', 'o', 'r', 's', 't', 'u', 'y'}, "retail", 5);
  }

  /** What "Our Story" lacks follows from its characters and letter pairs alone. */
  lemma OurStoryLinkLacksLaterPhrases(x: string)
    requires Within(x, {' ', 'o', 'r', 's', 't', 'u', 'y'})
    ensures !Contains(x, "consumer packaged goods")
    ensures !Contains(x, "(cpg)")
  {
    MissingChar(x, {' ', 'o', 'r', 's', 't', 'u', 'y'}, "consumer packaged goods", 21);
    MissingChar(x, {' ', 'o', 'r', 's', 't', 'u', 'y'}, "(cpg)", 4);
  }

  /** The phrases of the chain that the lowercased "Our Story" includes and lacks,
      as far as the routes below depend on them. */
  lemma OurStoryLinkPhrases(x: string)
    requires x == Lower(CompanySection.links[0])
    ensures Contains(x, "our story")
    ensures !Contains(x, "retail & corporate banking")
    ensures !Contains(x, "asset & wealth management")
    ensures !Contains(x, "cards & payments")
    ensures !Contains(x, "risk & compliance")
    ensures !Contains(x, "ai services")
    ensures !Contains(x, "intelligent automation")
    ensures !Contains(x, "airlines")
    ensures !Contains(x, "airports")
    ensures !Contains(x, "travel tech")
    ensures !Contains(x, "online travel agencies")
    ensures !Contains(x, "retail")
    ensures !Contains(x, "consumer packaged goods")
    ensures !Contains(x, "(cpg)")
  {
    OurStoryLinkText(x);
    OurStoryLinkNames(x);
    OurStoryLinkLacksBankingPhrases(x);
    OurStoryLinkLacksServiceAndAirPhrases(x);
    OurStoryLinkLacksTravelAndRetailPhrases(x);
    OurStoryLinkLacksLaterPhrases(x);
  }

  /** Lowercased, "Data" uses only these characters. */
  lemma DataCategoryText(x: string)
    requires x == Lower(DataSection.category)
    ensures Within(x, {'a', 'd', 't'})
  {
  }

  /** What "Data" lacks follows from its characters and letter pairs alone. */
  lemma DataCategoryLacksBankingPhrases(x: string)
    requires Within(x, {'a', 'd', 't'})
    ensures !Contains(x, "retail & corporate banking")
    ensures !Contains(x, "asset & wealth management")
    ensures !Contains(x, "cards & payments")
    ensures !Contains(x, "risk & compliance")
  {
    MissingChar(x, {'a', 'd', 't'}, "retail & corporate banking", 25);
    MissingChar(x, {'a', 'd', 't'}, "asset & wealth management", 23);
    MissingChar(x, {'a', 'd', 't'}, "cards & payments", 15);
    MissingChar(x, {'a', 'd', 't'}, "risk & compliance", 16);
  }

  /** What "Data" lacks follows from its characters and letter pairs alone. */
  lemma DataCategoryLacksServiceAndAirPhrases(x: string)
    requires Within(x, {'a', 'd', 't'})
    ensures !Contains(x, "ai services")
    ensures !Contains(x, "intelligent automation")
    ensures !Contains(x, "airlines")
    ensures !Contains(x, "airports")
  {
    MissingChar(x, {'a', 'd', 't'}, "ai services", 10);
    MissingChar(x, {'a', 'd', 't'}, "intelligent automation", 21);
    MissingChar(x, {'a', 'd', 't'}, "airlines", 7);
    MissingChar(x, {'a', 'd', 't'}, "airports", 7);
  }

  /** What "Data" lacks follows from its characters and letter pairs alone. */
  lemma DataCategoryLacksTravelAndRetailPhrases(x: string)
    requires Within(x, {'a', 'd', 't'})
    ensures !Contains(x, "travel tech")
    ensures !Contains(x, "online travel agencies")
    ensures !Contains(x, "retail")
  {
    MissingChar(x, {'a', 'd', 't'}, "travel tech", 10);
    MissingChar(x, {'a', 'd', 't'}, "online travel agencies", 21);
    MissingChar(x, {'a', 'd', 't'}, "retail", 5);
  }

  /** What "Data" lacks follows from its characters and letter pairs alone. */
  lemma DataCategoryLacksLaterPhrases(x: string)
    requires Within(x, {'a', 'd', 't'})
    ensures !Contains(x, "consumer packaged goods")
    ensures !Contains(x, "(cpg)")
    ensures !Contains(x, "our story")
  {
    MissingChar(x, {'a', 'd', 't'}, "consumer packaged goods", 22);
    MissingChar(x, {'a', 'd', 't'}, "(cpg)", 4);
    MissingChar(x, {'a', 'd', 't'}, "our story", 8);
  }

  /** The phrases of the chain that the lowercased "Data" includes and lacks,
      as far as the routes below depend on them. */
  lemma DataCategoryPhrases(x: string)
    requires x == Lower(DataSection.category)
    ensures !Contains(x, "retail & corporate banking")
    ensures !Contains(x, "asset & wealth management")
    ensures !Contains(x, "cards & payments")
    ensures !Contains(x, "risk & compliance")
    ensures !Contains(x, "ai services")
    ensures !Contains(x, "intelligent automation")
    ensures !Contains(x, "airlines")
    ensures !Contains(x, "airports")
    ensures !Contains(x, "travel tech")
    ensures !Contains(x, "online travel agencies")
    ensures !Contains(x, "retail")
    ensures !Contains(x, "consumer packaged goods")
    ensures !Contains(x, "(cpg)")
    ensures !Contains(x, "our story")
  {
    DataCategoryText(x);
    DataCategoryLacksBankingPhrases(x);
    DataCategoryLacksServiceAndAirPhrases(x);
    DataCategoryLacksTravelAndRetailPhrases(x);
    DataCategoryLacksLaterPhrases(x);
  }

  /** Lowercased, "Data Engineering" uses only these characters. */
  lemma DataEngineeringLinkText(x: string)
    requires x == Lower(DataSection.links[0])
    ensures Within(x, {' ', 'a', 'd', 'e', 'g', 'i', 'n', 'r', 't'})
  {
  }

  /** Lowercased, "Data Engineering" includes "data engineering". */
  lemma DataEngineeringLinkNames(x: string)
    requires x == Lower(DataSection.links[0])
    ensures Contains(x, "data engineering")
  {
    PresentAt(x, "data engineering", 0);
  }

  /** What "Data Engineering" lacks follows from its characters and letter pairs alone. */
  lemma DataEngineeringLinkLacksBankingPhrases(x: string)
    requires Within(x, {' ', 'a', 'd', 'e', 'g', 'i', 'n', 'r', 't'})
    ensures !Contains(x, "retail & corporate banking")
    ensures !Contains(x, "asset & wealth management")
    ensures !Contains(x, "cards & payments")
    ensures !Contains(x, "risk & compliance")
  {
    MissingChar(x, {' ', 'a', 'd', 'e', 'g', 'i', 'n', 'r', 't'}, "retail & corporate banking", 22);
    MissingChar(x, {' ', 'a', 'd', 'e', 'g', 'i', 'n', 'r', 't'}, "asset & wealth management", 21);
    MissingChar(x, {' ', 'a', 'd', 'e', 'g', 'i', 'n', 'r', 't'}, "cards & payments", 15);
    MissingChar(x, {' ', 'a', 'd', 'e', 'g', 'i', 'n', 'r', 't'}, "risk & compliance", 15);
  }

  /** What "Data Engineering" lacks follows from its characters and letter pairs alone. */
  lemma DataEngineeringLinkLacksServiceAndAirPhrases(x: string)
    requires Within(x, {' ', 'a', 'd', 'e', 'g', 'i', 'n', 'r', 't'})
    ensures !Contains(x, "ai services")
    ensures !Contains(x, "intelligent automation")
    ensures !Contains(x, "airlines")
    ensures !Contains(x, "airports")
  {
    MissingChar(x, {' ', 'a', 'd', 'e', 'g', 'i', 'n', 'r', 't'}, "ai services", 10);
    MissingChar(x, {' ', 'a', 'd', 'e', 'g', 'i', 'n', 'r', 't'}, "intelligent automation", 20);
    MissingChar(x, {' ', 'a', 'd', 'e', 'g', 'i', 'n', 'r', 't'}, "airlines", 7);
    MissingChar(x, {' ', 'a', 'd', 'e', 'g', 'i', 'n', 'r', 't'}, "airports", 7);
  }

  /** What "Data Engineering" lacks follows from its characters and letter pairs alone. */
  lemma DataEngineeringLinkLacksTravelAndRetailPhrases(x: string)
    requires Within(x, {' ', 'a', 'd', 'e', 'g', 'i', 'n', 'r', 't'})
    ensures !Contains(x, "travel tech")
    ensures !Contains(x, "online travel agencies")
    ensures !Contains(x, "retail")
  {
    MissingChar(x, {' ', 'a', 'd', 'e', 'g', 'i', 'n', 'r', 't'}, "travel tech", 10);
    MissingChar(x, {' ', 'a', 'd', 'e', 'g', 'i', 'n', 'r', 't'}, "online travel agencies", 21);
    MissingChar(x, {' ', 'a', 'd', 'e', 'g', 'i', 'n', 'r', 't'}, "retail", 5);
  }

  /** What "Data Engineering" lacks follows from its characters and letter pairs alone. */
  lemma DataEngineeringLinkLacksLaterPhrases(x: string)
    requires Within(x, {' ', 'a', 'd', 'e', 'g', 'i', 'n', 'r', 't'})
    ensures !Contains(x, "consumer packaged goods")
    ensures !Contains(x, "(cpg)")
    ensures !Contains(x, "our story")
  {
    MissingChar(x, {' ', 'a', 'd', 'e', 'g', 'i', 'n', 'r', 't'}, "consumer packaged goods", 22);
    MissingChar(x, {' ', 'a', 'd', 'e', 'g', 'i', 'n', 'r', 't'}, "(cpg)", 4);
    MissingChar(x, {' ', 'a', 'd', 'e', 'g', 'i', 'n', 'r', 't'}, "our story", 8);
  }

  /** The phrases of the chain that the lowercased "Data Engineering" includes and lacks,
      as far as the routes below depend on them. */
  lemma DataEngineeringLinkPhrases(x: string)
    requires x == Lower(DataSection.links[0])
    ensures Contains(x, "data engineering")
    ensures !Contains(x, "retail & corporate banking")
    ensures !Contains(x, "asset & wealth management")
    ensures !Contains(x, "cards & payments")
    ensures !Contains(x, "risk & compliance")
    ensures !Contains(x, "ai services")
    ensures !Contains(x, "intelligent automation")
    ensures !Contains(x, "airlines")
    ensures !Contains(x, "airports")
    ensures !Contains(x, "travel tech")
    ensures !Contains(x, "online travel agencies")
    ensures !Contains(x, "retail")
    ensures !Contains(x, "consumer packaged goods")
    ensures !Contains(x, "(cpg)")
    ensures !Contains(x, "our story")
  {
    DataEngineeringLinkText(x);
    DataEngineeringLinkNames(x);
    DataEngineeringLinkLacksBankingPhrases(x);
    DataEngineeringLinkLacksServiceAndAirPhrases(x);
    DataEngineeringLinkLacksTravelAndRetailPhrases(x);
    DataEngineeringLinkLacksLaterPhrases(x);
  }

  /** Lowercased, "Contact" uses only these characters. */
  lemma ContactWordText(x: string)
    requires x == Lower("Contact")
    ensures Within(x, {'a', 'c', 'n', 'o', 't'})
  {
  }

  /** What "Contact" lacks follows from its characters and letter pairs alone. */
  lemma ContactWordLacksBankingPhrases(x: string)
    requires Within(x, {'a', 'c', 'n', 'o', 't'})
    ensures !Contains(x, "retail & corporate banking")
    ensures !Contains(x, "asset & wealth management")
    ensures !Contains(x, "cards & payments")
    ensures !Contains(x, "risk & compliance")
  {
    MissingChar(x, {'a', 'c', 'n', 'o', 't'}, "retail & corporate banking", 25);
    MissingChar(x, {'a', 'c', 'n', 'o', 't'}, "asset & wealth management", 22);
    MissingChar(x, {'a', 'c', 'n', 'o', 't'}, "cards & payments", 15);
    MissingChar(x, {'a', 'c', 'n', 'o', 't'}, "risk & compliance", 16);
  }

  /** What "Contact" lacks follows from its characters and letter pairs alone. */
  lemma ContactWordLacksServiceAndAirPhrases(x: string)
    requires Within(x, {'a', 'c', 'n', 'o', 't'})
    ensures !Contains(x, "ai services")
    ensures !Contains(x, "intelligent automation")
    ensures !Contains(x, "airlines")
    ensures !Contains(x, "airports")
  {
    MissingChar(x, {'a', 'c', 'n', 'o', 't'}, "ai services", 10);
    MissingChar(x, {'a', 'c', 'n', 'o', 't'}, "intelligent automation", 19);
    MissingChar(x, {'a', 'c', 'n', 'o', 't'}, "airlines", 7);
    MissingChar(x, {'a', 'c', 'n', 'o', 't'}, "airports", 7);
  }

  /** What "Contact" lacks follows from its characters and letter pairs alone. */
  lemma ContactWordLacksTravelAndRetailPhrases(x: string)
    requires Within(x, {'a', 'c', 'n', 'o', 't'})
    ensures !Contains(x, "travel tech")
    ensures !Contains(x, "online travel agencies")
    ensures !Contains(x, "retail")
  {
    MissingChar(x, {'a', 'c', 'n', 'o', 't'}, "travel tech", 10);
    MissingChar(x, {'a', 'c', 'n', 'o', 't'}, "online travel agencies", 21);
    MissingChar(x, {'a', 'c', 'n', 'o', 't'}, "retail", 5);
  }

  /** What "Contact" lacks follows from its characters and letter pairs alone. */
  lemma ContactWordLacksLaterPhrases(x: string)
    requires Within(x, {'a', 'c', 'n', 'o', 't'})
    ensures !Contains(x, "consumer packaged goods")
    ensures !Contains(x, "(cpg)")
    ensures !Contains(x, "our story")
    ensures !Contains(x, "data engineering")
  {
    MissingChar(x, {'a', 'c', 'n', 'o', 't'}, "consumer packaged goods", 22);
    MissingChar(x, {'a', 'c', 'n', 'o', 't'}, "(cpg)", 4);
    MissingChar(x, {'a', 'c', 'n', 'o', 't'}, "our story", 8);
    MissingChar(x, {'a', 'c', 'n', 'o', 't'}, "data engineering", 15);
  }

  /** The phrases of the chain that the lowercased "Contact" includes and lacks,
      as far as the routes below depend on them. */
  lemma ContactWordPhrases(x: string)
    requires x == Lower("Contact")
    ensures !Contains(x, "retail & corporate banking")
    ensures !Contains(x, "asset & wealth management")
    ensures !Contains(x, "cards & payments")
    ensures !Contains(x, "risk & compliance")
    ensures !Contains(x, "ai services")
    ensures !Contains(x, "intelligent automation")
    ensures !Contains(x, "airlines")
    ensures !Contains(x, "airports")
    ensures !Contains(x, "travel tech")
    ensures !Contains(x, "online travel agencies")
    ensures !Contains(x, "retail")
    ensures !Contains(x, "consumer packaged goods")
    ensures !Contains(x, "(cpg)")
    ensures !Contains(x, "our story")
    ensures !Contains(x, "data engineering")
  {
    ContactWordText(x);
    ContactWordLacksBankingPhrases(x);
    ContactWordLacksServiceAndAirPhrases(x);
    ContactWordLacksTravelAndRetailPhrases(x);
    ContactWordLacksLaterPhrases(x);
  }

  /** "Banking & Financial Services:Retail & Corporate Banking" opens the retail and corporate banking page. */
  lemma RetailCorporateBankingRoute()
    ensures Route(Selection(BankingSection.category, BankingSection.links[0])) == RetailBanking
  {
    LowerSelection(BankingSection.category, BankingSection.links[0]);
    var a, b := Lower(BankingSection.category), Lower(BankingSection.links[0]);
    BankingPhrasesAroundColon(a, b);
    ServiceAndAirPhrasesAroundColon(a, b);
    TravelAndRetailPhrasesAroundColon(a, b);
    LaterPhrasesAroundColon(a, b);
    BankingCategoryPhrases(a);
    RetailCorporateBankingLinkPhrases(b);
  }

  /** "Banking & Financial Services:Asset & Wealth Management" opens the asset and wealth management page. */
  lemma AssetWealthManagementRoute()
    ensures Route(Selection(BankingSection.category, BankingSection.links[1])) == AssetWealth
  {
    LowerSelection(BankingSection.category, BankingSection.links[1]);
    var a, b := Lower(BankingSection.category), Lower(BankingSection.links[1]);
    BankingPhrasesAroundColon(a, b);
    ServiceAndAirPhrasesAroundColon(a, b);
    TravelAndRetailPhrasesAroundColon(a, b);
    LaterPhrasesAroundColon(a, b);
    BankingCategoryPhrases(a);
    AssetWealthManagementLinkPhrases(b);
  }

  /** "Banking & Financial Services:Cards & Payments" opens the cards and payments page. */
  lemma CardsPaymentsRoute()
    ensures Route(Selection(BankingSection.category, BankingSection.links[2])) == CardsPayments
  {
    LowerSelection(BankingSection.category, BankingSection.links[2]);
    var a, b := Lower(BankingSection.category), Lower(BankingSection.links[2]);
    BankingPhrasesAroundColon(a, b);
    ServiceAndAirPhrasesAroundColon(a, b);
    TravelAndRetailPhrasesAroundColon(a, b);
    LaterPhrasesAroundColon(a, b);
    BankingCategoryPhrases(a);
    CardsPaymentsLinkPhrases(b);
  }

  /** "Banking & Financial Services:Risk & Compliance" opens the risk and compliance page. */
  lemma RiskComplianceRoute()
    ensures Route(Selection(BankingSection.category, BankingSection.links[3])) == RiskCompliance
  {
    LowerSelection(BankingSection.category, BankingSection.links[3]);
    var a, b := Lower(BankingSection.category), Lower(BankingSection.links[3]);
    BankingPhrasesAroundColon(a, b);
    ServiceAndAirPhrasesAroundColon(a, b);
    TravelAndRetailPhrasesAroundColon(a, b);
    LaterPhrasesAroundColon(a, b);
    BankingCategoryPhrases(a);
    RiskComplianceLinkPhrases(b);
  }

  /** "AI:AI Services" opens the AI services page. */
  lemma AiServicesRoute()
    ensures Route(Selection(AISection.category, AISection.links[0])) == AIServices
  {
    LowerSelection(AISection.category, AISection.links[0]);
    var a, b := Lower(AISection.category), Lower(AISection.links[0]);
    BankingPhrasesAroundColon(a, b);
    ServiceAndAirPhrasesAroundColon(a, b);
    TravelAndRetailPhrasesAroundColon(a, b);
    LaterPhrasesAroundColon(a, b);
    AICategoryPhrases(a);
    AiServicesLinkPhrases(b);
  }

  /** "Automation:Intelligent Automation" opens the intelligent automation page. */
  lemma IntelligentAutomationRoute()
    ensures Route(Selection(AutomationSection.category, AutomationSection.links[0])) == IntelligentAutomation
  {
    LowerSelection(AutomationSection.category, AutomationSection.links[0]);
    var a, b := Lower(AutomationSection.category), Lower(AutomationSection.links[0]);
    BankingPhrasesAroundColon(a, b);
    ServiceAndAirPhrasesAroundColon(a, b);
    TravelAndRetailPhrasesAroundColon(a, b);
    LaterPhrasesAroundColon(a, b);
    AutomationCategoryPhrases(a);
    IntelligentAutomationLinkPhrases(b);
  }

  /** "Travel, Transportation & Hospitality:Airlines" opens the airlines page. */
  lemma AirlinesRoute()
    ensures Route(Selection(TravelSection.category, TravelSection.links[0])) == Airlines
  {
    LowerSelection(TravelSection.category, TravelSection.links[0]);
    var a, b := Lower(TravelSection.category), Lower(TravelSection.links[0]);
    BankingPhrasesAroundColon(a, b);
    ServiceAndAirPhrasesAroundColon(a, b);
    TravelAndRetailPhrasesAroundColon(a, b);
    LaterPhrasesAroundColon(a, b);
    TravelCategoryPhrases(a);
    AirlinesLinkPhrases(b);
  }

  /** "Travel, Transportation & Hospitality:Airports" opens the airports page. */
  lemma AirportsRoute()
    ensures Route(Selection(TravelSection.category, TravelSection.links[1])) == Airports
  {
    LowerSelection(TravelSection.category, TravelSection.links[1]);
    var a, b := Lower(TravelSection.category), Lower(TravelSection.links[1]);
    BankingPhrasesAroundColon(a, b);
    ServiceAndAirPhrasesAroundColon(a, b);
    TravelAndRetailPhrasesAroundColon(a, b);
    LaterPhrasesAroundColon(a, b);
    TravelCategoryPhrases(a);
    AirportsLinkPhrases(b);
  }

  /** "Travel, Transportation & Hospitality:Travel Tech" opens the travel technology page. */
  lemma TravelTechRoute()
    ensures Route(Selection(TravelSection.category, TravelSection.links[2])) == TravelTech
  {
    LowerSelection(TravelSection.category, TravelSection.links[2]);
    var a, b := Lower(TravelSection.category), Lower(TravelSection.links[2]);
    BankingPhrasesAroundColon(a, b);
    ServiceAndAirPhrasesAroundColon(a, b);
    TravelAndRetailPhrasesAroundColon(a, b);
    LaterPhrasesAroundColon(a, b);
    TravelCategoryPhrases(a);
    TravelTechLinkPhrases(b);
  }

  /** "Travel, Transportation & Hospitality:Online Travel Agencies" opens the online travel agencies page. */
  lemma OnlineTravelAgenciesRoute()
    ensures Route(Selection(TravelSection.category, TravelSection.links[3])) == OTA
  {
    LowerSelection(TravelSection.category, TravelSection.links[3]);
    var a, b := Lower(TravelSection.category), Lower(TravelSection.links[3]);
    BankingPhrasesAroundColon(a, b);
    ServiceAndAirPhrasesAroundColon(a, b);
    TravelAndRetailPhrasesAroundColon(a, b);
    LaterPhrasesAroundColon(a, b);
    TravelCategoryPhrases(a);
    OnlineTravelAgenciesLinkPhrases(b);
  }

  /** "Travel, Transportation & Hospitality:Logistics and Rail" opens the home page. */
  lemma LogisticsAndRailRoute()
    ensures Route(Selection(TravelSection.category, TravelSection.links[4])) == Home
  {
    LowerSelection(TravelSection.category, TravelSection.links[4]);
    var a, b := Lower(TravelSection.category), Lower(TravelSection.links[4]);
    BankingPhrasesAroundColon(a, b);
    ServiceAndAirPhrasesAroundColon(a, b);
    TravelAndRetailPhrasesAroundColon(a, b);
    LaterPhrasesAroundColon(a, b);
    TravelCategoryPhrases(a);
    LogisticsAndRailLinkPhrases(b);
  }

  /** "Travel, Transportation & Hospitality:Hospitality" opens the home page. */
  lemma HospitalityRoute()
    ensures Route(Selection(TravelSection.category, TravelSection.links[5])) == Home
  {
    LowerSelection(TravelSection.category, TravelSection.links[5]);
    var a, b := Lower(TravelSection.category), Lower(TravelSection.links[5]);
    BankingPhrasesAroundColon(a, b);
    ServiceAndAirPhrasesAroundColon(a, b);
    TravelAndRetailPhrasesAroundColon(a, b);
    LaterPhrasesAroundColon(a, b);
    TravelCategoryPhrases(a);
    HospitalityLinkPhrases(b);
  }

  /** "Retail & Consumer Goods:Retail" opens the retail page. */
  lemma RetailRoute()
    ensures Route(Selection(RetailSection.category, RetailSection.links[0])) == Retail
  {
    LowerSelection(RetailSection.category, RetailSection.links[0]);
    var a, b := Lower(RetailSection.category), Lower(RetailSection.links[0]);
    BankingPhrasesAroundColon(a, b);
    ServiceAndAirPhrasesAroundColon(a, b);
    TravelAndRetailPhrasesAroundColon(a, b);
    LaterPhrasesAroundColon(a, b);
    RetailGoodsCategoryPhrases(a);
    RetailLinkPhrases(b);
  }

  /** "Retail & Consumer Goods:Consumer Packaged Goods (CPG)" opens the consumer packaged goods page. */
  lemma ConsumerPackagedGoodsCpgRoute()
    ensures Route(Selection(RetailSection.category, RetailSection.links[1])) == CPG
  {
    LowerSelection(RetailSection.category, RetailSection.links[1]);
    var a, b := Lower(RetailSection.category), Lower(RetailSection.links[1]);
    BankingPhrasesAroundColon(a, b);
    ServiceAndAirPhrasesAroundColon(a, b);
    TravelAndRetailPhrasesAroundColon(a, b);
    LaterPhrasesAroundColon(a, b);
    RetailGoodsCategoryPhrases(a);
    ConsumerPackagedGoodsCpgLinkPhrases(b);
  }

  /** "Company:Our Story" opens the our story page. */
  lemma OurStoryRoute()
    ensures Route(Selection(CompanySection.category, CompanySection.links[0])) == OurStory
  {
    LowerSelection(CompanySection.category, CompanySection.links[0]);
    var a, b := Lower(CompanySection.category), Lower(CompanySection.links[0]);
    BankingPhrasesAroundColon(a, b);
    ServiceAndAirPhrasesAroundColon(a, b);
    TravelAndRetailPhrasesAroundColon(a, b);
    LaterPhrasesAroundColon(a, b);
    CompanyCategoryPhrases(a);
    OurStoryLinkPhrases(b);
  }

  /** "Data:Data Engineering" opens the data engineering page. */
  lemma DataEngineeringRoute()
    ensures Route(Selection(DataSection.category, DataSection.links[0])) == DataEngineering
  {
    LowerSelection(DataSection.category, DataSection.links[0]);
    var a, b := Lower(DataSection.category), Lower(DataSection.links[0]);
    BankingPhrasesAroundColon(a, b);
    ServiceAndAirPhrasesAroundColon(a, b);
    TravelAndRetailPhrasesAroundColon(a, b);
    LaterPhrasesAroundColon(a, b);
    DataCategoryPhrases(a);
    DataEngineeringLinkPhrases(b);
  }

  /** Only the exact lowercase `'contact'` opens the contact page: the
      capitalised caption matches no phrase, lands on the home page and still
      scrolls to the top. */
  lemma CapitalisedContactIsHome()
    ensures Dispatch("Contact") == Home
    ensures Scrolls("Contact") == 1
  {
    ContactWordPhrases(Lower("Contact"));
  }

  /** Every Banking & Financial Services link reaches a page of its own, while
      two of the travel links fall back to the home page. */
  lemma BankingLeavesDedicatedTravelFallbacks()
    ensures forall li :: 0 <= li < |BankingSection.links| ==>
              Route(Selection(BankingSection.category, BankingSection.links[li])) != Home
    ensures Route(Selection(TravelSection.category, TravelSection.links[4])) == Home
    ensures Route(Selection(TravelSection.category, TravelSection.links[5])) == Home
  {
    RetailCorporateBankingRoute();
    AssetWealthManagementRoute();
    CardsPaymentsRoute();
    RiskComplianceRoute();
    LogisticsAndRailRoute();
    HospitalityRoute();
    forall li | 0 <= li < |BankingSection.links|
      ensures Route(Selection(BankingSection.category, BankingSection.links[li])) != Home
    {
      assert li == 0 || li == 1 || li == 2 || li == 3;
    }
  }

  /** Every page the chain can select other than home has a menu link that
      opens it: a link of a section of a dropdown of `NAV_ITEMS`. */
  lemma MenuPagesReachable(v: View)
    requires v != Home && v != Contact && v != Other
    ensures exists i: nat, si: nat, li: nat :: i < |NavItems| && NavItems[i].dropdown.Some?
              && si < |NavItems[i].dropdown.value.sections|
              && li < |NavItems[i].dropdown.value.sections[si].links|
              && Route(Selection(NavItems[i].dropdown.value.sections[si].category,
                                 NavItems[i].dropdown.value.sections[si].links[li])) == v
  {
    var industries, services, about := IndustriesItem.dropdown.value.sections,
      ServicesItem.dropdown.value.sections, AboutItem.dropdown.value.sections;
    assert NavItems[0] == IndustriesItem && NavItems[1] == ServicesItem && NavItems[2] == AboutItem;
    match v {
      case RetailBanking =>
        RetailCorporateBankingRoute();
        assert industries[0] == BankingSection;
      case AssetWealth =>
        AssetWealthManagementRoute();
        assert industries[0] == BankingSection && BankingSection.links[1] == industries[0].links[1];
      case CardsPayments =>
        CardsPaymentsRoute();
        assert industries[0] == BankingSection;
      case RiskCompliance =>
        RiskComplianceRoute();
        assert industries[0] == BankingSection;
      case AIServices =>
        AiServicesRoute();
        assert services[0] == AISection;
      case IntelligentAutomation =>
        IntelligentAutomationRoute();
        assert services[1] == AutomationSection;
      case Airlines =>
        AirlinesRoute();
        assert industries[1] == TravelSection;
      case Airports =>
        AirportsRoute();
        assert industries[1] == TravelSection;
      case TravelTech =>
        TravelTechRoute();
        assert industries[1] == TravelSection;
      case OTA =>
        OnlineTravelAgenciesRoute();
        assert industries[1] == TravelSection;
      case Retail =>
        RetailRoute();
        assert industries[2] == RetailSection;
      case CPG =>
        ConsumerPackagedGoodsCpgRoute();
        assert industries[2] == RetailSection;
      case OurStory =>
        OurStoryRoute();
        assert about[0] == CompanySection;
      case DataEngineering =>
        DataEngineeringRoute();
        assert services[2] == DataSection;
    }
  }
}
