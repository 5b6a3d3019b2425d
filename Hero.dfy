/** The landing-page hero: a carousel over `HERO_SLIDES` that advances on a
    timer and jumps on a tab click, and a heading that sets the last two words
    of the slide title on a line of their own. */
module Hero {
  import opened Strings

  datatype HeroSlide = HeroSlide(title: string, highlight: string, subtitle: string,
                                 description: string, image: string, navTitle: string)

  /** `HERO_SLIDES`, in tab order. */
  const HeroSlides: seq<HeroSlide> := [
    HeroSlide("Our business is to help your business run", "more effectively and more efficiently.",
              "Enterprise Strategy", "What we do",
              "https://images.unsplash.com/photo-1497366216548-37526070297c?auto=format&fit=crop&q=80&w=2000",
              "Digital Transformation"),
    HeroSlide("Accelerate your competitive advantage with", "AI-First Engineering.",
              "Innovation Intelligence", "Measure capability",
              "https://images.unsplash.com/photo-1677442136019-21780ecad995?auto=format&fit=crop&q=80&w=2000",
              "AI & Automation"),
    HeroSlide("Scale your global operations with", "Cloud Core Infrastructure.",
              "Enterprise Core", "Explore Cloud",
              "https://images.unsplash.com/photo-1460925895917-afdab827c52f?auto=format&fit=crop&q=80&w=2000",
              "Cloud Excellence"),
    HeroSlide("Protect your enterprise digital assets with", "Adaptive Cyber Defense.",
              "Digital Resilience", "View Resilience",
              "https://images.unsplash.com/photo-1552664730-d307ca884978?auto=format&fit=crop&q=80&w=2000",
              "Cyber Security")
  ]

  /** The slide after `k`, wrapping from the last slide to the first. */
  function Next(k: nat): (r: nat)
    requires k < |HeroSlides|
    ensures r < |HeroSlides|
    ensures k + 1 < |HeroSlides| ==> r == k + 1
    ensures k + 1 == |HeroSlides| ==> r == 0
  {
    (k + 1) % |HeroSlides|
  }

  /** The slide shown after `m` timer ticks starting from slide `k`. */
  function AfterTicks(k: nat, m: nat): (r: nat)
    requires k < |HeroSlides|
    ensures r < |HeroSlides|
  {
    if m == 0 then k else Next(AfterTicks(k, m - 1))
  }

  /** Ticking `m` times moves `m` slides forward, modulo the number of slides. */
  lemma {:induction false} AfterTicksIsModular(k: nat, m: nat)
    requires k < |HeroSlides|
    ensures AfterTicks(k, m) == (k + m) % |HeroSlides|
  {
    if m > 0 {
      AfterTicksIsModular(k, m - 1);
    }
  }

  /** A full round of ticks brings the carousel back to the slide it started on. */
  lemma FullRoundReturns(k: nat)
    requires k < |HeroSlides|
    ensures AfterTicks(k, |HeroSlides|) == k
    ensures forall m :: 0 < m < |HeroSlides| ==> AfterTicks(k, m) != k
  {
    AfterTicksIsModular(k, |HeroSlides|);
    forall m | 0 < m < |HeroSlides|
      ensures AfterTicks(k, m) != k
    {
      AfterTicksIsModular(k, m);
    }
  }

  /** The first heading line: every word of the title but the last two,
      `title.split(' ').slice(0, -2).join(' ')`; empty for one or two words. */
  function TitleLead(title: string): (r: string)
    ensures |Split(title, ' ')| <= 2 ==> r == ""
  {
    Join(Slice(Split(title, ' '), 0, -2), ' ')
  }

  /** The second heading line: the last two words, `title.split(' ').slice(-2).join(' ')`;
      the whole title when it has one or two words. */
  function TitleTail(title: string): (r: string)
    ensures |Split(title, ' ')| <= 2 ==> r == title
  {
    var words := Split(title, ' ');
    assert |words| <= 2 ==> Slice(words, -2, |words|) == words;
    JoinSplit(title, ' ');
    Join(Slice(words, -2, |words|), ' ')
  }

  /** With three words or more, the two lines joined by a space are the title,
      and the second line holds exactly two words. */
  lemma TitleLinesRejoin(title: string)
    requires |Split(title, ' ')| >= 3
    ensures TitleLead(title) + " " + TitleTail(title) == title
    ensures |Split(TitleTail(title), ' ')| == 2
  {
    var words := Split(title, ' ');
    var lead := Slice(words, 0, -2);
    var tail := Slice(words, -2, |words|);
    SliceComplement(words, -2);
    JoinAppend(lead, tail, ' ');
    JoinSplit(title, ' ');
    SplitPiecesLackSeparator(title, ' ');
    SplitJoin(tail, ' ');
  }

  /** A string with two spaces splits into at least three words. */
  lemma ThreeWords(t: string, i: nat, j: nat)
    requires i < j < |t| && t[i] == ' ' && t[j] == ' '
    ensures |Split(t, ' ')| >= 3
  {
    SplitPastSeparator(t, ' ', i);
    SplitPastSeparator(t[i + 1..], ' ', j - i - 1);
  }

  /** Every slide title has at least three words. */
  lemma SlideTitleWords(i: nat)
    requires i < |HeroSlides|
    ensures |Split(HeroSlides[i].title, ' ')| >= 3
  {
    var t := HeroSlides[i].title;
    if i == 0 {
      ThreeWords(t, |t| - 13, |t| - 4);
    } else if i == 1 {
      ThreeWords(t, |t| - 15, |t| - 5);
    } else if i == 2 {
      ThreeWords(t, |t| - 16, |t| - 5);
    } else {
      ThreeWords(t, |t| - 12, |t| - 5);
    }
  }

  /** So the two heading lines of every slide together spell its title. */
  lemma SlideTitlesRejoin()
    ensures forall i :: 0 <= i < |HeroSlides| ==>
              TitleLead(HeroSlides[i].title) + " " + TitleTail(HeroSlides[i].title) == HeroSlides[i].title
  {
    forall i | 0 <= i < |HeroSlides|
      ensures TitleLead(HeroSlides[i].title) + " " + TitleTail(HeroSlides[i].title) == HeroSlides[i].title
    {
      SlideTitleWords(i);
      TitleLinesRejoin(HeroSlides[i].title);
    }
  }

  /** The carousel state of the hero section. */
  class Carousel {
    /** `currentSlide`, an index into `HERO_SLIDES`. */
    var currentSlide: nat

    ghost predicate Valid()
      reads this
    {
      currentSlide < |HeroSlides|
    }

    /** The carousel opens on the first slide. */
    constructor()
      ensures Valid() && currentSlide == 0
    {
      currentSlide := 0;
    }

    /** The slide whose image, subtitle, heading and highlight are on screen. */
    function Shown(): (s: HeroSlide)
      reads this
      requires Valid()
      ensures s in HeroSlides
    {
      HeroSlides[currentSlide]
    }

    /** For each tab, whether it is drawn highlighted with the progress bar. */
    function TabHighlights(): (r: seq<bool>)
      reads this
      requires Valid()
      ensures |r| == |HeroSlides|
      ensures exists i :: 0 <= i < |r| && r[i]
      ensures forall i, j :: 0 <= i < |r| && 0 <= j < |r| && r[i] && r[j] ==> i == j
      ensures r[currentSlide]
    {
      var k := currentSlide;
      var r := seq(|HeroSlides|, i requires 0 <= i < |HeroSlides| => k == i);
      assert r[k];
      r
    }

    /** One tick of the eight-second interval. */
    method Advance()
      requires Valid()
      modifies this
      ensures Valid()
      ensures currentSlide == Next(old(currentSlide))
    {
      currentSlide := (currentSlide + 1) % |HeroSlides|;
    }

    /** A click on tab `i` shows slide `i`. */
    method SelectTab(i: nat)
      requires i < |HeroSlides|
      modifies this
      ensures Valid()
      ensures currentSlide == i
      ensures TabHighlights()[i]
    {
      currentSlide := i;
    }
  }
}
