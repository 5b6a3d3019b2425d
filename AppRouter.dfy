/** The application shell's view selection: `handleVibeChange` turns the string a
    menu forwards into one page of the site, remembers the string as the active
    "vibe" and asks the window to scroll back to the top. */
module AppRouter {
  import opened Strings

  /** The page tags of the `view` state, in the order the source declares them. */
  datatype View =
    | Home | RetailBanking | AssetWealth | CardsPayments | RiskCompliance | AIServices
    | IntelligentAutomation | Airlines | Airports | TravelTech | OTA | Retail | CPG
    | OurStory | DataEngineering | Contact | Other

  /** The substring chain applied to every selection other than the exact
      strings `'home'` and `'contact'`: the string is lowercased and the first
      phrase it includes picks the page; nothing matched means home. */
  function Route(s: string): (r: View)
    ensures r != Contact && r != Other
  {
    Classify(Lower(s))
  }

  /** The chain itself, on the already lowercased string `v`. */
  function Classify(v: string): (r: View)
    ensures r != Contact && r != Other
  {
    if Contains(v, "retail & corporate banking") then RetailBanking
    else if Contains(v, "asset & wealth management") then AssetWealth
    else if Contains(v, "cards & payments") then CardsPayments
    else if Contains(v, "risk & compliance") then RiskCompliance
    else if Contains(v, "ai services") then AIServices
    else if Contains(v, "intelligent automation") then IntelligentAutomation
    else if Contains(v, "airlines") then Airlines
    else if Contains(v, "airports") then Airports
    else if Contains(v, "travel tech") then TravelTech
    else if Contains(v, "online travel agencies") then OTA
    else if Contains(v, "retail") && !Contains(v, "banking") && !Contains(v, "consumer packaged goods") then Retail
    else if Contains(v, "consumer packaged goods") || Contains(v, "(cpg)") then CPG
    else if Contains(v, "our story") then OurStory
    else if Contains(v, "data engineering") then DataEngineering
    else Home
  }

  /** The page `handleVibeChange(vibe)` shows: the two exact strings first,
      compared case-sensitively, then the phrase chain. */
  function Dispatch(vibe: string): (r: View)
    ensures r == Contact <==> vibe == "contact"
    ensures vibe == "home" ==> r == Home
    ensures vibe != "home" && vibe != "contact" ==> r == Route(vibe)
  {
    if vibe == "home" then Home
    else if vibe == "contact" then Contact
    else Route(vibe)
  }

  /** The number of `window.scrollTo` calls one `handleVibeChange(vibe)` makes. */
  function Scrolls(vibe: string): (n: nat)
    ensures n <= 1
    ensures n == 0 <==> vibe == "home"
  {
    if vibe == "home" then 0 else 1
  }

  // ---------------------------------------------------------------------------
  // The chain as a table of rules, an independent reading of the same order.

  /** A rule fires on a lowercased string that includes one of `anyOf` and none
      of `noneOf`. */
  datatype Rule = Rule(anyOf: seq<string>, noneOf: seq<string>, view: View)

  predicate Fires(r: Rule, v: string) {
    (exists i :: 0 <= i < |r.anyOf| && Contains(v, r.anyOf[i]))
    && (forall i :: 0 <= i < |r.noneOf| ==> !Contains(v, r.noneOf[i]))
  }

  const RouteRules: seq<Rule> := [
    Rule(["retail & corporate banking"], [], RetailBanking),
    Rule(["asset & wealth management"], [], AssetWealth),
    Rule(["cards & payments"], [], CardsPayments),
    Rule(["risk & compliance"], [], RiskCompliance),
    Rule(["ai services"], [], AIServices),
    Rule(["intelligent automation"], [], IntelligentAutomation),
    Rule(["airlines"], [], Airlines),
    Rule(["airports"], [], Airports),
    Rule(["travel tech"], [], TravelTech),
    Rule(["online travel agencies"], [], OTA),
    Rule(["retail"], ["banking", "consumer packaged goods"], Retail),
    Rule(["consumer packaged goods", "(cpg)"], [], CPG),
    Rule(["our story"], [], OurStory),
    Rule(["data engineering"], [], DataEngineering)
  ]

  /** The position of the first rule that fires, or `|rules|` when none does. */
  function FirstFiring(rules: seq<Rule>, v: string, from: nat := 0): (k: nat)
    requires from <= |rules|
    ensures from <= k <= |rules|
    ensures k < |rules| ==> Fires(rules[k], v)
    ensures forall j :: from <= j < k ==> !Fires(rules[j], v)
    decreases |rules| - from
  {
    if from == |rules| then from
    else if Fires(rules[from], v) then from
    else FirstFiring(rules, v, from + 1)
  }

  /** The view of the first rule that fires, or home when none does. */
  function FirstMatch(rules: seq<Rule>, v: string): (r: View)
    ensures (forall k :: 0 <= k < |rules| ==> !Fires(rules[k], v)) ==> r == Home
    ensures r == Home || exists k :: 0 <= k < |rules| && Fires(rules[k], v) && r == rules[k].view
  {
    var k := FirstFiring(rules, v);
    if k < |rules| then rules[k].view else Home
  }

  /** The two rules with more than one phrase, spelled out. */
  lemma RetailRules(v: string)
    ensures Fires(RouteRules[10], v) <==>
              Contains(v, "retail") && !Contains(v, "banking") && !Contains(v, "consumer packaged goods")
    ensures Fires(RouteRules[11], v) <==> Contains(v, "consumer packaged goods") || Contains(v, "(cpg)")
  {
    var r := RouteRules[10];
    assert r.anyOf == ["retail"] && r.noneOf == ["banking", "consumer packaged goods"];
    assert (exists i :: 0 <= i < |r.anyOf| && Contains(v, r.anyOf[i])) <==> Contains(v, r.anyOf[0]);
    assert (forall i :: 0 <= i < |r.noneOf| ==> !Contains(v, r.noneOf[i]))
       <==> !Contains(v, r.noneOf[0]) && !Contains(v, r.noneOf[1]);
    var c := RouteRules[11];
    assert c.anyOf == ["consumer packaged goods", "(cpg)"] && c.noneOf == [];
    assert (exists i :: 0 <= i < |c.anyOf| && Contains(v, c.anyOf[i]))
       <==> Contains(v, c.anyOf[0]) || Contains(v, c.anyOf[1]);
  }

  /** The first six rules each test one phrase and exclude nothing. */
  lemma BankingAndServiceRules(v: string)
    ensures Fires(RouteRules[0], v) <==> Contains(v, "retail & corporate banking")
    ensures Fires(RouteRules[1], v) <==> Contains(v, "asset & wealth management")
    ensures Fires(RouteRules[2], v) <==> Contains(v, "cards & payments")
    ensures Fires(RouteRules[3], v) <==> Contains(v, "risk & compliance")
    ensures Fires(RouteRules[4], v) <==> Contains(v, "ai services")
    ensures Fires(RouteRules[5], v) <==> Contains(v, "intelligent automation")
  {
    forall i | 0 <= i < 6
      ensures Fires(RouteRules[i], v) <==> Contains(v, RouteRules[i].anyOf[0])
    {
      assert |RouteRules[i].anyOf| == 1 && |RouteRules[i].noneOf| == 0;
    }
  }

  /** So do the travel rules and the last two. */
  lemma TravelAndLaterRules(v: string)
    ensures Fires(RouteRules[6], v) <==> Contains(v, "airlines")
    ensures Fires(RouteRules[7], v) <==> Contains(v, "airports")
    ensures Fires(RouteRules[8], v) <==> Contains(v, "travel tech")
    ensures Fires(RouteRules[9], v) <==> Contains(v, "online travel agencies")
    ensures Fires(RouteRules[12], v) <==> Contains(v, "our story")
    ensures Fires(RouteRules[13], v) <==> Contains(v, "data engineering")
  {
    forall i | 6 <= i < |RouteRules| && i != 10 && i != 11
      ensures Fires(RouteRules[i], v) <==> Contains(v, RouteRules[i].anyOf[0])
    {
      assert |RouteRules[i].anyOf| == 1 && |RouteRules[i].noneOf| == 0;
    }
  }

  /** The chain and the rule table agree on every input. */
  lemma RouteFollowsRules(s: string)
    ensures Route(s) == FirstMatch(RouteRules, Lower(s))
  {
    var v := Lower(s);
    var rs := RouteRules;
    BankingAndServiceRules(v);
    TravelAndLaterRules(v);
    RetailRules(v);
    var k := FirstFiring(rs, v);
    if k == 0 {}
    else if k == 1 {}
    else if k == 2 {}
    else if k == 3 {}
    else if k == 4 {}
    else if k == 5 {}
    else if k == 6 {}
    else if k == 7 {}
    else if k == 8 {}
    else if k == 9 {}
    else if k == 10 {}
    else if k == 11 {}
    else if k == 12 {}
    else if k == 13 {}
    else {
      assert !Fires(rs[0], v) && !Fires(rs[1], v) && !Fires(rs[2], v) && !Fires(rs[3], v) && !Fires(rs[4], v) && !Fires(rs[5], v) && !Fires(rs[6], v) && !Fires(rs[7], v) && !Fires(rs[8], v) && !Fires(rs[9], v) && !Fires(rs[10], v) && !Fires(rs[11], v) && !Fires(rs[12], v) && !Fires(rs[13], v);
    }
  }

  /** The first rule that fires decides: a rule that fires can only be
      overridden by one listed before it. */
  lemma EarlierRuleWins(s: string, i: nat)
    requires i < |RouteRules| && Fires(RouteRules[i], Lower(s))
    ensures exists k :: 0 <= k <= i && Fires(RouteRules[k], Lower(s)) && Route(s) == RouteRules[k].view
  {
    RouteFollowsRules(s);
    var k := FirstFiring(RouteRules, Lower(s));
    assert k <= i;
  }

  /** Matching ignores case: a selection and its lowercase form reach the same page. */
  lemma RouteIgnoresCase(s: string, t: string)
    ensures Route(Lower(s)) == Route(s)
    ensures Lower(s) == Lower(t) ==> Route(s) == Route(t)
  {
    LowerIdempotent(s);
  }

  /** "airlines" is tested before "airports": a selection naming both, and none of
      the six phrases tested earlier, reaches the airlines page. */
  lemma AirlinesBeforeAirports(s: string)
    requires Contains(Lower(s), "airlines") && Contains(Lower(s), "airports")
    requires forall i :: 0 <= i < 6 ==> !Fires(RouteRules[i], Lower(s))
    ensures Route(s) == Airlines
  {
    BankingAndServiceRules(Lower(s));
    assert !Fires(RouteRules[0], Lower(s)) && !Fires(RouteRules[1], Lower(s)) && !Fires(RouteRules[2], Lower(s));
    assert !Fires(RouteRules[3], Lower(s)) && !Fires(RouteRules[4], Lower(s)) && !Fires(RouteRules[5], Lower(s));
  }

  /** The retail page is reached exactly when no dedicated-phrase rule fired, the
      string includes "retail", and it includes neither "banking" nor
      "consumer packaged goods". */
  lemma RetailExactly(s: string)
    ensures Route(s) == Retail <==>
              (forall i :: 0 <= i < 10 ==> !Fires(RouteRules[i], Lower(s)))
              && Contains(Lower(s), "retail") && !Contains(Lower(s), "banking")
              && !Contains(Lower(s), "consumer packaged goods")
  {
    var v := Lower(s);
    BankingAndServiceRules(v);
    TravelAndLaterRules(v);
    if forall i :: 0 <= i < 10 ==> !Fires(RouteRules[i], v) {
      assert !Fires(RouteRules[0], v) && !Fires(RouteRules[1], v) && !Fires(RouteRules[2], v);
      assert !Fires(RouteRules[3], v) && !Fires(RouteRules[4], v) && !Fires(RouteRules[5], v);
      assert !Fires(RouteRules[6], v) && !Fires(RouteRules[7], v) && !Fires(RouteRules[8], v);
      assert !Fires(RouteRules[9], v);
    }
  }

  /** The packaged-goods page is reached when no earlier rule fired and the
      string names consumer packaged goods or carries the "(cpg)" tag. */
  lemma CpgAfterRetail(s: string)
    requires forall i :: 0 <= i < 11 ==> !Fires(RouteRules[i], Lower(s))
    requires Contains(Lower(s), "consumer packaged goods") || Contains(Lower(s), "(cpg)")
    ensures Route(s) == CPG
  {
    RouteFollowsRules(s);
    RetailRules(Lower(s));
    var k := FirstFiring(RouteRules, Lower(s));
    assert k == 11;
  }

  /** A selection none of whose rules fires falls back to the home page. */
  lemma UnmatchedIsHome(s: string)
    requires forall i :: 0 <= i < |RouteRules| ==> !Fires(RouteRules[i], Lower(s))
    ensures Route(s) == Home
  {
    RouteFollowsRules(s);
  }

  /** Only the exact string `'contact'` opens the contact page, only the exact
      string `'home'` skips the scroll, and no selection produces the unused
      `'other'` tag. */
  lemma DispatchExactStrings(vibe: string)
    ensures Dispatch(vibe) == Contact <==> vibe == "contact"
    ensures Scrolls(vibe) == 0 <==> vibe == "home"
    ensures Dispatch(vibe) != Other
  {
  }

  /** The state `handleVibeChange` writes: the last selection, the page on
      show, and (as a count) the scroll-to-top requests issued so far. */
  class App {
    var activeVibe: string
    var view: View
    ghost var scrollRequests: nat

    /** The page on show is home or the page the last selection dispatched to. */
    ghost predicate Valid()
      reads this
    {
      view == Home || view == Dispatch(activeVibe)
    }

    constructor()
      ensures Valid()
      ensures activeVibe == "home" && view == Home && scrollRequests == 0
    {
      activeVibe := "home";
      view := Home;
      scrollRequests := 0;
    }

    /** `handleVibeChange(vibe)`. */
    method HandleVibeChange(vibe: string)
      modifies this
      ensures Valid()
      ensures activeVibe == vibe && view == Dispatch(vibe)
      ensures scrollRequests == old(scrollRequests) + Scrolls(vibe)
    {
      activeVibe := vibe;
      if vibe == "home" {
        view := Home;
        return;
      }
      if vibe == "contact" {
        view := Contact;
        scrollRequests := scrollRequests + 1;
        return;
      }
      view := Route(vibe);
      scrollRequests := scrollRequests + 1;
    }

    /** Every page's `onBack`: return home, keeping the active selection. */
    method Back()
      requires Valid()
      modifies this
      ensures Valid()
      ensures view == Home && activeVibe == old(activeVibe) && scrollRequests == old(scrollRequests)
    {
      view := Home;
    }
  }
}
