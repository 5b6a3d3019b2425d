/** The navigation table of the site (`NAV_ITEMS`) and the shape of its entries
    (`NavItem`): top-level labels, each with an optional mega-menu dropdown whose
    sections group leaf links under a category. */
module NavData {

  datatype Option<T> = None | Some(value: T)

  /** One column of a dropdown: a category heading and its leaf links. */
  datatype Section = Section(category: string, links: seq<string>)

  datatype Dropdown = Dropdown(title: string, description: string, sections: seq<Section>)

  /** A top-level navigation entry; `name` is the source's `label` (a reserved word
      here) and `dropdown` is optional in the source type. */
  datatype NavItem = NavItem(name: string, href: string, dropdown: Option<Dropdown>)

  const BankingSection := Section("Banking & Financial Services",
    ["Retail & Corporate Banking", "Asset & Wealth Management", "Cards & Payments", "Risk & Compliance"])
  const TravelSection := Section("Travel, Transportation & Hospitality",
    ["Airlines", "Airports", "Travel Tech", "Online Travel Agencies", "Logistics and Rail", "Hospitality"])
  const RetailSection := Section("Retail & Consumer Goods",
    ["Retail", "Consumer Packaged Goods (CPG)"])
  const InsuranceSection := Section("Insurance",
    ["Life & Annuities", "Property & Casualty", "Lloyd's & London Market"])
  const HealthcareSection := Section("Healthcare & Life Sciences",
    ["Life Sciences", "Med Tech", "Payers", "Providers"])
  const PublicSection := Section("Public Sector",
    ["Central/Federal Government", "Departments and Agencies", "Local/State Government and Councils",
     "Nonprofit and Community Organizations"])

  const IndustriesItem := NavItem("Industries", "#industries", Some(Dropdown(
    "Industries",
    "We transform at the intersect of deep domain knowledge and emerging technologies expertise.",
    [BankingSection, TravelSection, RetailSection, InsuranceSection, HealthcareSection, PublicSection])))

  const AISection := Section("AI", ["AI Services", "AI Platforms", "AI/ML"])
  const AutomationSection := Section("Automation", ["Intelligent Automation"])
  const DataSection := Section("Data", ["Data Engineering", "Data Analytics", "Data Governance"])
  const ConsultSection := Section("Consult", ["Process Consulting", "Strategy & Transformation"])
  const EngineeringSection := Section("Engineering",
    ["Digital Engineering", "Product Engineering", "Legacy Modernization"])
  const ExperienceSection := Section("Experience",
    ["Digital Experience", "1:1 Customer Engagement", "Conversational Experience"])

  const ServicesItem := NavItem("Services", "#services", Some(Dropdown(
    "Services",
    "We help you innovate and scale with industry-leading digital services.",
    [AISection, AutomationSection, DataSection, ConsultSection, EngineeringSection, ExperienceSection])))

  const CompanySection := Section("Company", ["Our Story", "Mission & Values", "Leadership Team"])
  const PresenceSection := Section("Presence", ["Global Offices", "Partnerships"])

  const AboutItem := NavItem("About Us", "#about", Some(Dropdown(
    "About Us", "Learn more about JOSATA.", [CompanySection, PresenceSection])))

  const InsightsItem := NavItem("Insights", "#insights", Some(Dropdown(
    "Insights", "Expert perspectives.",
    [Section("Thought Leadership", ["Blogs", "Whitepapers"])])))

  const CareersItem := NavItem("Careers", "#careers", Some(Dropdown(
    "Careers", "Join us.",
    [Section("Work", ["Life at JOSATA", "Diversity"]),
     Section("Openings", ["Job Search"])])))

  const DigitalItem := NavItem("Digital", "#digital", Some(Dropdown(
    "Vector Digital", "Integrated platform.",
    [Section("Capabilities", ["Digital Strategy", "Advanced Analytics"])])))

  /** `NAV_ITEMS`, in menu order. */
  const NavItems: seq<NavItem> := [IndustriesItem, ServicesItem, AboutItem, InsightsItem, CareersItem, DigitalItem]

  /** `items.find(item => item.label === key)`: the first entry whose label is `key`. */
  function Find(items: seq<NavItem>, key: string): (r: Option<NavItem>)
    ensures r.None? <==> forall i :: 0 <= i < |items| ==> items[i].name != key
    ensures r.Some? ==> exists i :: 0 <= i < |items| && items[i] == r.value
                                  && items[i].name == key
                                  && forall j :: 0 <= j < i ==> items[j].name != key
  {
    if |items| == 0 then None
    else if items[0].name == key then Some(items[0])
    else
      var r := Find(items[1..], key);
      assert forall j :: 1 <= j < |items| ==> items[j] == items[1..][j - 1];
      r
  }

  /** Every entry of `NAV_ITEMS` has a non-empty label and a dropdown, and
      `Find` returns each one by its label. */
  lemma NavItemsFound()
    ensures forall i :: 0 <= i < |NavItems| ==> NavItems[i].name != "" && NavItems[i].dropdown.Some?
    ensures forall i :: 0 <= i < |NavItems| ==> Find(NavItems, NavItems[i].name) == Some(NavItems[i])
  {
    LabelsDistinct();
  }

  /** No two entries of `NAV_ITEMS` share a label. */
  lemma LabelsDistinct()
    ensures forall i, j :: 0 <= i < j < |NavItems| ==> NavItems[i].name != NavItems[j].name
  {
  }
}
