# Navigation core of the JOSATA marketing site, in Dafny

The site is a single-page React application. No view is read from the URL;
the shell chooses the page from state. A
"vibe" string is handed from the header up to the application shell
(`App`), and the shell decides which page to show:

- `'home'` shows the landing page.
- `'contact'` shows the contact page.
- Anything else is lowercased and run through an ordered chain of
  substring tests. The first test that matches picks a dedicated page;
  otherwise the site falls back to home.

The header builds the vibe as `category:link` from the mega-menu or the
side drawer. It also sends `'home'` from the logo and `'contact'` from the
Contact Us button and the drawer's secondary links.

This project models that navigation core:

- **`NavData`**: the navigation table `NAV_ITEMS`, written out section by
  section, and `Find`, a first-match lookup by label.
- **`AppRouter`**: the page chain.
  - `Route` is the chain applied to the lowercased vibe.
  - `Dispatch` and `Scrolls` cover the two exact strings and the
    scroll-to-top request.
  - The chain is also stated a second way, as a table of rules
    (`RouteRules`) with a first-firing-rule reading (`FirstMatch`).
    `RouteFollowsRules` proves the two agree for every input.
  - The `App` class holds the shell's state (`activeVibe`, `view`) and its
    two state changes, `HandleVibeChange` and the pages' `onBack`.
- **`Navbar`**: the header.
  - `Selection` is the `category:link` encoding, and it is injective on
    colon-free categories.
  - The `Navbar` class holds `activeMenu`, `isSideMenuOpen`, `sideMenuView`,
    the drawer's pending delayed resets, and the label the mounted
    mega-menu panel was drawn for. The panel's mouse-enter handler restores
    that label.
  - Each event handler is a method: hovering menus, opening and closing
    the drawer, the reset timer firing, drawer navigation, leaf clicks,
    the logo and the Contact buttons.
  - Each handler forwards to the `App` it was given, or does nothing when
    the header has no callback.
- **`StandardMenu`** and **`IndustriesMenu`**: the two mega-menu panels
  that forward leaf clicks. The industries panel also keeps its own
  highlighted link.
- **`NavRoutes`**: end-to-end facts that join the table, the encoding and
  the chain.
  - Which page each named menu leaf opens.
  - That every dedicated page is reachable from some menu leaf.
  - That the capitalised word "Contact" does not open the contact page.
- **`Hero`**: the hero carousel.
  - The slide index advances modulo the number of slides, and a tab click
    selects a slide.
  - The title is split into a dimmed lead and a bold last two words, with
    `split(' ').slice(0,-2).join(' ')` and `slice(-2)`.
    `Strings.Split`, `Join` and `Slice` model the JavaScript operations,
    with JavaScript's negative-index clamping.
- **`Accordion`**: the capability accordion of the airports page. At most
  one item is open, and clicking the open item closes it.
- **`Strings`**: ASCII lowercasing, substring search (`includes`), and
  `split`/`join`/`slice` with their round-trip lemmas.

## Model

| member | source | states |
|---|---|---|
| NavData.Find | components/layout/Navbar.tsx:19 | `NAV_ITEMS.find` by label: `None` exactly when no entry has the label; otherwise a found value is an entry of the list |
| NavData.NavItemsFound | data/constants.ts:39-112 | every entry of the navigation table has a dropdown and is found by its own label |
| NavData.LabelsDistinct | data/constants.ts:39-112 | the six top-level labels are pairwise distinct |
| AppRouter.Route | App.tsx:50-83 | the page chosen for a non-exact vibe is never the contact page or the unused `other` view |
| AppRouter.Classify | App.tsx:53-83 | the if/else chain over the lowercased vibe never yields contact or `other` |
| AppRouter.Dispatch | App.tsx:39-48 | only the exact `'contact'` gives the contact page; the exact `'home'` gives home; any other vibe goes to the phrase chain |
| AppRouter.Scrolls | App.tsx:39-84 | one scroll to the top per vibe, none for the exact `'home'` |
| AppRouter.FirstMatch | App.tsx:53-83 | the table's page is home when no rule fires, and otherwise home or the page of a firing rule |
| AppRouter.FirstFiring | App.tsx:53-83 | the index of the first rule that fires: every earlier rule fails, and the rule at that index fires when one exists |
| AppRouter.BankingAndServiceRules | App.tsx:53-64 | each of the first six rules fires exactly when the lowercased vibe includes its phrase |
| AppRouter.TravelAndLaterRules | App.tsx:65-80 | the travel, story and data-engineering rules each fire exactly when their phrase is included |
| AppRouter.RetailRules | App.tsx:73-76 | the retail rule fires iff `retail` is included and neither `banking` nor `consumer packaged goods` is; the CPG rule fires iff either of its two phrases is included |
| AppRouter.RouteFollowsRules | App.tsx:50-83 | for every vibe the chain equals the first-match reading of the rule table applied to the lowercased vibe |
| AppRouter.EarlierRuleWins | App.tsx:53-83 | when rule i fires, the page shown is that of some rule at or before i that fires |
| AppRouter.RouteIgnoresCase | App.tsx:50 | routing depends only on the lowercased vibe: two vibes equal up to case reach the same page |
| AppRouter.AirlinesBeforeAirports | App.tsx:65-68 | a vibe that mentions both airlines and airports, and none of the earlier phrases, opens the airlines page |
| AppRouter.RetailExactly | App.tsx:53-74 | the retail page is shown iff no earlier rule fires, `retail` is included, and neither `banking` nor `consumer packaged goods` is |
| AppRouter.CpgAfterRetail | App.tsx:75-76 | when none of the first eleven rules fires, either CPG phrase opens the CPG page |
| AppRouter.UnmatchedIsHome | App.tsx:81-82 | a vibe that fires no rule falls back to the home page |
| AppRouter.DispatchExactStrings | App.tsx:39-48 | only the exact string `'contact'` reaches the contact page; only the exact string `'home'` skips the scroll to top; `other` is never set |
| AppRouter.App.constructor | App.tsx:28-32 | the shell starts with vibe `'home'` on the home view |
| AppRouter.App.HandleVibeChange | App.tsx:37-85 | stores the vibe, sets the view to the dispatched page, and counts one scroll request unless the vibe is `'home'` |
| AppRouter.App.Back | App.tsx:106 | a page's back button returns to home and leaves the vibe and scroll requests unchanged |
| Navbar.Selection | components/layout/Navbar.tsx:28 | the vibe is the category, a colon, then the link, character for character |
| Navbar.SelectionInjective | components/layout/Navbar.tsx:28 | for colon-free categories, the encoded vibe determines both the category and the link |
| Navbar.FindDropdown | components/layout/Navbar.tsx:19 | looking up a label finds an entry with a dropdown exactly for the labels of the table; a found entry carries the label |
| Navbar.Shown | components/layout/Navbar.tsx:178-194 | a panel is shown iff the label has a dropdown: the Digital panel for `Digital`, the industries panel for `Industries`, the standard panel otherwise |
| Navbar.Navbar.constructor | components/layout/Navbar.tsx:15-17 | no menu open, drawer closed on its main list, no resets pending, nothing forwarded |
| Navbar.Navbar.CurrentItem | components/layout/Navbar.tsx:19 | the item for the open menu: it carries the open label, and is present for every non-empty label of the table |
| Navbar.Navbar.MegaMenu | components/layout/Navbar.tsx:178-194 | which panel renders, with the same three-way choice as `Shown` on the open label |
| Navbar.Navbar.DrawerItem | components/layout/Navbar.tsx:77 | the drawer's sub-view item carries the sub-view's label and has a dropdown whenever the drawer is off its main list |
| Navbar.Navbar.Notify | components/layout/Navbar.tsx:65 | `onVibeChange?.(vibe)`: with a callback, the shell's vibe, view and scroll count change as `HandleVibeChange` says; without one nothing is forwarded; the header's own state is unchanged |
| Navbar.Navbar.EnterMenu | components/layout/Navbar.tsx:141 | hovering a top-level item opens its menu; when it has a dropdown, the panel is drawn for that label; nothing else changes |
| Navbar.Navbar.LeaveMenu | components/layout/Navbar.tsx:142 | leaving a top-level item, or the panel, closes the menu and changes nothing else |
| Navbar.Navbar.EnterMegaMenu | components/layout/Navbar.tsx:184 | entering the mounted panel sets the open menu to the label the panel was drawn for: an open panel stays as it is, and one animating out after its label's mouse-leave is shown again |
| Navbar.Navbar.UnmountPanel | components/layout/Navbar.tsx:177-178 | once the closed panel has animated out it is unmounted, and entering it is no longer possible |
| Navbar.PointerFromLabelIntoPanel | components/layout/Navbar.tsx:141-142 | moving the pointer from label i down into its panel (label enter, label leave, panel enter) leaves the menu open on label i, showing item i's panel |
| Navbar.Navbar.OpenSideMenu | components/layout/Navbar.tsx:119 | the hamburger opens the drawer without changing its view |
| Navbar.Navbar.CloseSideMenu | components/layout/Navbar.tsx:21-24 | closing the drawer hides it and schedules one more delayed reset; no earlier reset is cancelled |
| Navbar.Navbar.FireReset | components/layout/Navbar.tsx:23 | a pending reset puts the drawer back on its main list and is consumed |
| Navbar.Navbar.SelectFunction | components/layout/Navbar.tsx:26-32 | with a callback: forwards `category:link`, the shell shows the routed page, the menu closes, the drawer closes and schedules a reset; without a callback: nothing changes |
| Navbar.Navbar.MainListClick | components/layout/Navbar.tsx:48 | on the main view of the open drawer, an entry with a dropdown opens its sub-view; one without closes the drawer |
| Navbar.Navbar.DrawerBack | components/layout/Navbar.tsx:86 | the drawer's Back button returns to the main list and changes nothing else |
| Navbar.Navbar.DrawerLeafClick | components/layout/Navbar.tsx:91-98 | with a callback, a leaf of the open drawer's sub-view forwards its own section's category and the link: the shell stores that vibe, shows its `Route` and scrolls once; the menu closes; the drawer closes on its current view and schedules one reset. Without a callback nothing changes |
| Navbar.Navbar.StandardPanelClick | components/layout/Navbar.tsx:193 | with a callback, a standard-panel leaf forwards what `StandardMenu.Clicked` picks: the shell stores it, shows its route and scrolls once; the mega-menu closes; the drawer closes and schedules one reset. Without a callback nothing changes |
| Navbar.Navbar.ActivateLogo | components/layout/Navbar.tsx:130-131 | the logo's click and hover both send `'home'`: the shell's vibe becomes `'home'`, it shows home, and no scroll is requested |
| Navbar.Navbar.ActivateContactUs | components/layout/Navbar.tsx:167-168 | the Contact Us button's hover and click send `'contact'`: the shell's vibe becomes `'contact'`, it shows the contact page, and one scroll is requested |
| Navbar.Navbar.ActivateSecondaryLink | components/layout/Navbar.tsx:61-65 | on the main view of the open drawer, every secondary link sends `'contact'`, whatever its caption: the shell's vibe becomes `'contact'`, it shows the contact page, and one scroll is requested |
| StandardMenu.Renders | components/navigation/StandardMenuContent.tsx:12 | the panel renders iff the entry has a dropdown, and then draws one button per link |
| StandardMenu.GridColumns | components/navigation/StandardMenuContent.tsx:21 | three grid columns exactly when the dropdown has more than five sections, two otherwise |
| StandardMenu.LinkButtons | components/navigation/StandardMenuContent.tsx:24-29 | one button per link of a section, in order, each carrying that section's category |
| StandardMenu.Buttons | components/navigation/StandardMenuContent.tsx:22-29 | a pick is rendered iff some section has its category and lists its link |
| StandardMenu.ButtonsInOrder | components/navigation/StandardMenuContent.tsx:22-29 | as many buttons as links; the first section's buttons come first, in link order |
| StandardMenu.Clicked | components/navigation/StandardMenuContent.tsx:29 | a click forwards something iff a callback was given; what it forwards is a rendered button, with the clicked section's category and link |
| StandardMenu.StandardGridWidths | components/navigation/StandardMenuContent.tsx:21 | Services gets three columns; About Us, Insights and Careers get two |
| IndustriesMenu.IndustriesPanel.constructor | components/navigation/IndustriesMenuContent.tsx:12 | the panel starts with no highlighted link |
| IndustriesMenu.IndustriesPanel.Click | components/navigation/IndustriesMenuContent.tsx:37-41 | highlights the clicked link. With both callbacks present it forwards `category:link`: the shell stores it, shows its route and scrolls once; the header closes its menu and drawer and schedules one reset. With a header but no shell callback, the header is unchanged |
| IndustriesMenu.IndustriesPanel.Highlighted | components/navigation/IndustriesMenuContent.tsx:45 | the highlight is keyed by link text: nothing is highlighted while `activeLink` is null, and a link is highlighted iff every link with the same text is |
| IndustriesMenu.Renders | components/navigation/IndustriesMenuContent.tsx:14 | the panel renders iff the entry has a dropdown; an empty sections array is truthy, so it does not suppress the panel |
| IndustriesMenu.IndustriesPanel.Hover | components/navigation/IndustriesMenuContent.tsx:42 | hovering highlights that link |
| IndustriesMenu.IndustriesPanel.Leave | components/navigation/IndustriesMenuContent.tsx:43 | leaving clears the highlight |
| NavRoutes.LowerSelection | App.tsx:50 | lowercasing `category:link` lowercases each side and keeps the colon |
| NavRoutes.BankingPhrasesAroundColon | App.tsx:53-60 | a banking phrase occurs in `a:b` iff it occurs in `a` or in `b` |
| NavRoutes.ServiceAndAirPhrasesAroundColon | App.tsx:61-68 | the same for the service and air-travel phrases |
| NavRoutes.TravelAndRetailPhrasesAroundColon | App.tsx:69-76 | the same for the travel and retail phrases |
| NavRoutes.LaterPhrasesAroundColon | App.tsx:73-80 | the same for the remaining phrases |
| NavRoutes.RetailCorporateBankingRoute | App.tsx:53-54 | `Banking & Financial Services:Retail & Corporate Banking` opens the retail and corporate banking page |
| NavRoutes.AssetWealthManagementRoute | App.tsx:55-56 | the Asset & Wealth Management leaf opens its page |
| NavRoutes.CardsPaymentsRoute | App.tsx:57-58 | the Cards & Payments leaf opens its page |
| NavRoutes.RiskComplianceRoute | App.tsx:59-60 | the Risk & Compliance leaf opens its page |
| NavRoutes.AiServicesRoute | App.tsx:61-62 | `AI:AI Services` opens the AI services page |
| NavRoutes.IntelligentAutomationRoute | App.tsx:63-64 | `Automation:Intelligent Automation` opens its page |
| NavRoutes.AirlinesRoute | App.tsx:65-66 | the Airlines travel leaf opens the airlines page |
| NavRoutes.AirportsRoute | App.tsx:67-68 | the Airports travel leaf opens the airports page |
| NavRoutes.TravelTechRoute | App.tsx:69-70 | the Travel Tech leaf opens its page |
| NavRoutes.OnlineTravelAgenciesRoute | App.tsx:71-72 | the Online Travel Agencies leaf opens the OTA page |
| NavRoutes.LogisticsAndRailRoute | App.tsx:81-82 | the Logistics & Rail leaf matches no phrase and falls back to home |
| NavRoutes.HospitalityRoute | App.tsx:81-82 | the Hospitality leaf falls back to home |
| NavRoutes.RetailRoute | App.tsx:73-74 | `Retail & Consumer Goods:Retail` opens the retail page |
| NavRoutes.ConsumerPackagedGoodsCpgRoute | App.tsx:75-76 | the CPG leaf opens the CPG page; the retail rule does not take it, since the category word "Retail" comes with the CPG phrase |
| NavRoutes.OurStoryRoute | App.tsx:77-78 | `Company:Our Story` opens the our-story page |
| NavRoutes.DataEngineeringRoute | App.tsx:79-80 | `Data:Data Engineering` opens its page |
| NavRoutes.CapitalisedContactIsHome | App.tsx:44-48 | the capitalised `Contact` fails the exact test, matches no phrase, shows home, and still scrolls |
| NavRoutes.BankingLeavesDedicatedTravelFallbacks | data/constants.ts:48-54 | every banking leaf opens a dedicated page; the Logistics & Rail and Hospitality travel leaves fall back to home |
| NavRoutes.MenuPagesReachable | App.tsx:53-80 | every page the chain can pick, other than home, is opened by some leaf of the navigation table |
| Hero.Next | components/Hero.tsx:59 | the next slide index stays in range: one more, wrapping from the last slide to the first |
| Hero.AfterTicks | components/Hero.tsx:57-61 | after any number of interval ticks the index is still a valid slide |
| Hero.AfterTicksIsModular | components/Hero.tsx:59 | m ticks from slide k show slide (k + m) mod the slide count |
| Hero.FullRoundReturns | components/Hero.tsx:59 | a full round of ticks returns to the starting slide, and no shorter positive round does |
| Hero.TitleLinesRejoin | components/Hero.tsx:121-122 | for a title of three or more words, the dimmed lead, a space and the bold tail rebuild the title; the tail is exactly two words |
| Hero.TitleLead | components/Hero.tsx:121 | the dimmed line is empty for a title of one or two words |
| Hero.TitleTail | components/Hero.tsx:122 | the bold line is the whole title when it has one or two words |
| Hero.SlideTitleWords | constants.tsx:4-37 | every hero slide's title has at least three words |
| Hero.SlideTitlesRejoin | components/Hero.tsx:121-122 | for every slide, the two title lines together rebuild its title |
| Hero.Carousel.constructor | components/Hero.tsx:50 | the carousel starts on the first slide |
| Hero.Carousel.Shown | components/Hero.tsx:118-123 | the displayed slide is one of the hero slides |
| Hero.Carousel.TabHighlights | components/Hero.tsx:148-160 | one highlight flag per tab; exactly one tab is highlighted, the current slide's |
| Hero.Carousel.Advance | components/Hero.tsx:59 | an interval tick moves to `Next` of the current slide |
| Hero.Carousel.SelectTab | components/Hero.tsx:144 | clicking tab i shows slide i and highlights that tab |
| Accordion.Toggle | components/industry/AirportsPage.tsx:33 | clicking the open item closes all items; clicking another opens it; no other item is open afterwards |
| Accordion.ToggleTwice | components/industry/AirportsPage.tsx:33 | two clicks on one item restore the state iff no item or that item was open; otherwise they leave all closed |
| Accordion.IsOpen | components/industry/AirportsPage.tsx:28 | no item is open while the active index is null, and an open item is the only open one |
| Accordion.OpenItems | components/industry/AirportsPage.tsx:28 | the open items are those whose index equals the active index; there is at most one |
| Accordion.CapabilityAccordion.constructor | components/industry/AirportsPage.tsx:76 | the first capability starts open |
| Accordion.CapabilityAccordion.Click | components/industry/AirportsPage.tsx:33 | the active index becomes `Toggle` of the old one: the clicked item opens, or it closes if it was open |
| Strings.Lower | App.tsx:50 | lowercasing keeps the length and changes each character to its lowercase form |
| Strings.LowerIdempotent | App.tsx:50 | lowercasing twice is lowercasing once |
| Strings.LowerAppend | App.tsx:50 | lowercasing distributes over concatenation |
| Strings.ContainsInAppend | App.tsx:53 | a phrase included in either part is included in the concatenation |
| Strings.ContainsAroundSeparator | App.tsx:53 | a phrase without the separator occurs in `a + sep + b` iff it occurs in `a` or in `b` |
| Strings.Split | components/Hero.tsx:121 | `split` always yields at least one piece |
| Strings.SplitPiecesLackSeparator | components/Hero.tsx:121 | no piece of a split contains the separator |
| Strings.JoinSplit | components/Hero.tsx:121-122 | joining the pieces of a split with the same separator rebuilds the string |
| Strings.SplitJoin | components/Hero.tsx:121-122 | splitting a join of separator-free pieces gives the pieces back |
| Strings.SplitAtSeparator | components/Hero.tsx:121 | a split at the first separator is the pieces before it followed by the pieces after it |
| Strings.JoinAppend | components/Hero.tsx:121-122 | joining two non-empty piece lists is joining each and putting the separator between |
| Strings.Join | components/Hero.tsx:121-122 | `join` of no pieces is empty; otherwise the result starts with the first piece |
| Strings.Slice | components/Hero.tsx:121-122 | `slice(begin, end)` is the run of elements starting at the clamped begin, empty exactly when the clamped bounds cross, never past the end |
| Strings.SliceIndex | components/Hero.tsx:121-122 | a JavaScript slice bound: a negative bound counts from the end, and the result is clamped to the length |
| Strings.SliceComplement | components/Hero.tsx:121-122 | `slice(0, k)` followed by `slice(k)` is the whole sequence, for every k, negative included |

## Left out

- Animation, layout, styling and icons are not modelled; only which panel,
  page or slide is shown is. Framer Motion's hover and entry effects, the
  parallax and the progress bars are left out.
- Real timers are not modelled.
  - The drawer's 300 ms `setTimeout` is a count of pending resets, one per
    close. `FireReset` is the callback running. The source never clears
    these timers, and the model does not either.
  - The carousel's 8-second `setInterval` is one `Advance` call per tick.
- `window.scrollTo` is a ghost counter, `scrollRequests`, of scroll-to-top
  requests. The smooth scroll and the scroll position are not modelled.
  The same goes for the scroll-linked spring of the progress bar.
- `toLowerCase` is modelled on ASCII letters only. The navigation strings
  are ASCII; other Unicode case mappings are not modelled.
- `DigitalMenuContent` is not part of this model. The model records only
  that the Digital menu shows that panel; it forwards no selection.
- The static page bodies are not modelled: the industry, service, story,
  contact and home sections, the footer and the visuals. Neither are the
  unused duplicate panels under `components/menu/`. Only the airports
  page's accordion and every page's back button (the shared `onBack`)
  are.
- The home page renders `components/home/Hero.tsx`, which is not part of
  this model. The carousel modelled here is `components/Hero.tsx` with the
  slides of `constants.tsx`.
- NavRoutes: end-to-end routes are stated for sixteen named menu leaves,
  plus `MenuPagesReachable` and `BankingLeavesDedicatedTravelFallbacks`.
  They are not stated for every leaf of the table, because each leaf is
  proved separately on its literal text. `AppRouter.RouteFollowsRules`
  gives the route of any other leaf as the first firing rule.
- The `other` view is declared in the shell's state type but never set.
  `AppRouter.DispatchExactStrings` proves it is unreachable.
- Hero.TitleLinesRejoin: the rebuild holds only for titles of three or
  more words. A two-word title has an empty lead and an all-bold tail, so
  lead, space and tail would not rebuild it. Every current slide title
  has at least three words (`Hero.SlideTitleWords`).
- The header's search button has no handler in the source and is not
  modelled.
- IndustriesMenuContent's left-hand title and description panel and its
  grid layout carry no behaviour and are not modelled.
- The mega-menu's exit animation has no duration in the model. While a
  closed panel animates out it is still mounted and can be entered.
  `Navbar.Navbar.UnmountPanel` is the moment the animation ends, and it
  may happen at any point after the menu closes.
