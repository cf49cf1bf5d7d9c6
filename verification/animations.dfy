/**
 * The animation script: which page the path names, the class tagging that
 * each page's setup performs, the scroll observer's callback and the
 * typewriter reveal of the home page's subtitle.
 *
 * Elements are objects whose class list, `style.animationDelay` and text
 * are updated in place. A selector query is not evaluated here: each
 * `querySelectorAll` result reaches the model as the sequence of matching
 * elements in document order (so without repetitions), and `querySelector`
 * as its first element.
 */
module Animations {
  import opened Wrappers
  import opened Text

  // ---------------------------------------------------------------------
  // getCurrentPage
  // ---------------------------------------------------------------------

  datatype Page = Home | Projects | About | Resume | Contact

  /** The string `getCurrentPage` returns, which is also the path fragment it looks for. */
  function Name(p: Page): string
  {
    match p
    case Home => "home"
    case Projects => "projects"
    case About => "about"
    case Resume => "resume"
    case Contact => "contact"
  }

  /** The order in which the pages are tried; `Home` is the default after all of them. */
  function Rank(p: Page): nat
  {
    match p
    case Projects => 0
    case About => 1
    case Resume => 2
    case Contact => 3
    case Home => 4
  }

  /**
   * `getCurrentPage`: the first of projects, about, resume and contact
   * whose name occurs in the path, and home when none does.
   */
  function GetCurrentPage(path: string): (p: Page)
    ensures p != Home ==> Contains(path, Name(p))
    ensures forall q: Page | Rank(q) < Rank(p) :: !Contains(path, Name(q))
  {
    if Contains(path, "projects") then Projects
    else if Contains(path, "about") then About
    else if Contains(path, "resume") then Resume
    else if Contains(path, "contact") then Contact
    else Home
  }

  /** A path that names a page somewhere resolves to that page or to one tried before it. */
  lemma EarlierPageWins(path: string, q: Page)
    requires q != Home && Contains(path, Name(q))
    ensures Rank(GetCurrentPage(path)) <= Rank(q)
  {
  }

  /** Only a path naming none of the four pages resolves to home. */
  lemma HomeIsDefault(path: string)
    ensures GetCurrentPage(path) == Home <==> forall q: Page | q != Home :: !Contains(path, Name(q))
  {
    if GetCurrentPage(path) == Home {
      forall q: Page | q != Home ensures !Contains(path, Name(q)) {
        assert Rank(q) < Rank(Home);
      }
    }
  }

  /** Each page's own name resolves back to that page. */
  lemma NameRoundTrip(p: Page)
    ensures GetCurrentPage(Name(p)) == p
  {
    var s := Name(p);
    match p
    case Home => HomeNameResolves(s);
    case Projects => ProjectsNameResolves(s);
    case About => AboutNameResolves(s);
    case Resume => ResumeNameResolves(s);
    case Contact => ContactNameResolves(s);
  }

  lemma HomeNameResolves(s: string)
    requires s == "home"
    ensures GetCurrentPage(s) == Home
  {
    MissingChar(s, "projects", 'p');
    MissingChar(s, "about", 'a');
    MissingChar(s, "resume", 'r');
    MissingChar(s, "contact", 'c');
  }

  lemma ProjectsNameResolves(s: string)
    requires s == "projects"
    ensures GetCurrentPage(s) == Projects
  {
    assert OccursAt(s, "projects", 0);
    OccursContains(s, "projects", 0);
  }

  lemma AboutNameResolves(s: string)
    requires s == "about"
    ensures GetCurrentPage(s) == About
  {
    MissingChar(s, "projects", 'p');
    assert OccursAt(s, "about", 0);
    OccursContains(s, "about", 0);
  }

  lemma ResumeNameResolves(s: string)
    requires s == "resume"
    ensures GetCurrentPage(s) == Resume
  {
    MissingChar(s, "projects", 'p');
    MissingChar(s, "about", 'a');
    assert OccursAt(s, "resume", 0);
    OccursContains(s, "resume", 0);
  }

  lemma ContactNameResolves(s: string)
    requires s == "contact"
    ensures GetCurrentPage(s) == Contact
  {
    MissingChar(s, "projects", 'p');
    MissingChar(s, "about", 'b');
    MissingChar(s, "resume", 'r');
    assert OccursAt(s, "contact", 0);
    OccursContains(s, "contact", 0);
  }

  // ---------------------------------------------------------------------
  // Elements and class tagging
  // ---------------------------------------------------------------------

  const ScrollAnimate := "scroll-animate"
  const Animate := "animate"
  const HoverLift := "hover-lift"
  const HoverScale := "hover-scale"
  const HoverGlow := "hover-glow"
  const FadeInUp := "animate-fade-in-up"
  const FadeInRight := "animate-fade-in-right"
  const FadeIn := "animate-fade-in"
  const Delay1 := "animate-delay-1"
  const Delay2 := "animate-delay-2"
  const Delay3 := "animate-delay-3"
  const Typewriter := "typewriter"

  /**
   * A DOM element: its class list, its `style.animationDelay` in tenths of
   * a second (`None` while unset) and its text content.
   */
  class Element {
    var classes: set<string>
    var animationDelay: Option<nat>
    var textContent: string

    constructor (classes: set<string>, textContent: string)
      ensures this.classes == classes && this.textContent == textContent && animationDelay == None
    {
      this.classes := classes;
      this.textContent := textContent;
      animationDelay := None;
    }
  }

  /** A node list: no element twice. */
  predicate Distinct(els: seq<Element>)
  {
    forall i, j | 0 <= i < j < |els| :: els[i] != els[j]
  }

  /** `querySelector`: the first match of the same query. */
  function First(els: seq<Element>): (r: Option<Element>)
    ensures r.Some? <==> |els| > 0
    ensures r.Some? ==> r.value == els[0]
  {
    if |els| == 0 then None else Some(els[0])
  }

  /** The elements of a query result, as a set. */
  function Nodes(els: seq<Element>): set<Element>
  {
    set e | e in els
  }

  /** The element a `querySelector` found, as a set. */
  function Opt(el: Option<Element>): set<Element>
  {
    if el.Some? then {el.value} else {}
  }

  /** The classes a query's loop adds to `e`: `added` when `e` is among the matches, nothing otherwise. */
  function In(els: seq<Element>, e: Element, added: set<string>): set<string>
  {
    if e in els then added else {}
  }

  /** The classes an `if (el) el.classList.add(...)` adds to `e`. */
  function Tag(el: Option<Element>, e: Element, added: set<string>): set<string>
  {
    if el == Some(e) then added else {}
  }

  /** The `index` that `forEach` passes for `e`. */
  function IndexIn(els: seq<Element>, e: Element): (i: nat)
    requires e in els
    ensures i < |els| && els[i] == e
  {
    if els[0] == e then 0 else 1 + IndexIn(els[1..], e)
  }

  /**
   * The delay `e` has after a loop that gives the match at `index` the
   * delay `first + index * step` tenths; `d` is its delay before the loop.
   */
  function Stagger(els: seq<Element>, e: Element, first: nat, step: nat, d: Option<nat>): Option<nat>
  {
    if e in els then Some(first + IndexIn(els, e) * step) else d
  }

  /**
   * `forEach(el => el.classList.add(...))`: every listed element gains
   * `added` (an element listed twice gains it once), and nothing else
   * changes.
   */
  method AddClasses(els: seq<Element>, added: set<string>)
    modifies Nodes(els)
    ensures forall e: Element | old(allocated(e)) :: e.classes == old(e.classes) + In(els, e, added)
    ensures forall e: Element | old(allocated(e)) ::
              e.animationDelay == old(e.animationDelay) && e.textContent == old(e.textContent)
  {
    for k := 0 to |els|
      invariant forall e: Element | old(allocated(e)) :: e.classes == old(e.classes) + In(els[..k], e, added)
      invariant forall e: Element | old(allocated(e)) ::
                  e.animationDelay == old(e.animationDelay) && e.textContent == old(e.textContent)
    {
      els[k].classes := els[k].classes + added;
      assert els[..k + 1] == els[..k] + [els[k]];
    }
    assert els[..|els|] == els;
  }

  /**
   * `forEach((el, index) => { el.classList.add(...); el.style.animationDelay = ... })`:
   * the element at `index` gains `added` and the delay `first + index * step`
   * tenths of a second; nothing else changes.
   */
  method AddClassesWithDelay(els: seq<Element>, added: set<string>, first: nat, step: nat)
    requires Distinct(els)
    modifies Nodes(els)
    ensures forall i | 0 <= i < |els| :: els[i].animationDelay == Some(first + i * step)
    ensures forall e: Element | old(allocated(e)) :: e.classes == old(e.classes) + In(els, e, added)
    ensures forall e: Element | old(allocated(e)) :: e.animationDelay == Stagger(els, e, first, step, old(e.animationDelay))
    ensures forall e: Element | old(allocated(e)) :: e.textContent == old(e.textContent)
  {
    for k := 0 to |els|
      invariant forall i | 0 <= i < k :: els[i].classes == old(els[i].classes) + added
      invariant forall i | 0 <= i < k :: els[i].animationDelay == Some(first + i * step)
      invariant forall i | k <= i < |els| :: els[i].classes == old(els[i].classes)
      invariant forall i | k <= i < |els| :: els[i].animationDelay == old(els[i].animationDelay)
      invariant forall e | e in els :: e.textContent == old(e.textContent)
    {
      els[k].classes := els[k].classes + added;
      els[k].animationDelay := Some(first + k * step);
    }
    forall e: Element | old(allocated(e)) && e in els
      ensures e.classes == old(e.classes) + added
      ensures e.animationDelay == Some(first + IndexIn(els, e) * step)
    {
      var i := IndexIn(els, e);
    }
  }

  /** `addScrollAnimation`: the `index`-th match gets `scroll-animate` and a delay of `index` tenths. */
  method AddScrollAnimation(els: seq<Element>)
    requires Distinct(els)
    modifies Nodes(els)
    ensures forall i | 0 <= i < |els| :: els[i].animationDelay == Some(i)
    ensures forall e: Element | old(allocated(e)) :: e.classes == old(e.classes) + In(els, e, {ScrollAnimate})
    ensures forall e: Element | old(allocated(e)) :: e.animationDelay == Stagger(els, e, 0, 1, old(e.animationDelay))
    ensures forall e: Element | old(allocated(e)) :: e.textContent == old(e.textContent)
  {
    AddClassesWithDelay(els, {ScrollAnimate}, 0, 1);
  }

  /**
   * The section loop of the about, resume and contact setups: the
   * `index`-th section gets `animate-fade-in-up` and a delay of
   * `(index + 1) * 2` tenths, so even the first section waits.
   */
  method AddSectionFadeIns(sections: seq<Element>)
    requires Distinct(sections)
    modifies Nodes(sections)
    ensures forall i | 0 <= i < |sections| :: sections[i].animationDelay == Some((i + 1) * 2)
    ensures forall i | 0 <= i < |sections| :: sections[i].animationDelay.value >= 2
    ensures forall e: Element | old(allocated(e)) :: e.classes == old(e.classes) + In(sections, e, {FadeInUp})
    ensures forall e: Element | old(allocated(e)) :: e.animationDelay == Stagger(sections, e, 2, 2, old(e.animationDelay))
    ensures forall e: Element | old(allocated(e)) :: e.textContent == old(e.textContent)
  {
    AddClassesWithDelay(sections, {FadeInUp}, 2, 2);
  }

  /**
   * The matches of every selector the setups query, on the page as
   * loaded. The tagging only adds classes that none of these selectors
   * test, so the matches do not change while the setups run; the one
   * exception, `.scroll-animate`, is queried before any tagging.
   */
  datatype PageMatches = PageMatches(
    scrollAnimated: seq<Element>,     // .scroll-animate
    heroTitle: Option<Element>,       // .hero-title
    heroSubtitle: Option<Element>,    // .hero-subtitle
    heroDescription: Option<Element>, // .hero-description
    heroImage: Option<Element>,       // .hero-image
    aboutSections: seq<Element>,      // .about-section
    skillsSections: seq<Element>,     // .skills-section
    ctaSections: seq<Element>,        // .cta-section
    projectCards: seq<Element>,       // .project-card
    pageHeaders: seq<Element>,        // .page-header
    projectsIntros: seq<Element>,     // .projects-intro
    aboutPageSections: seq<Element>,  // .about-section, .interests-section, .internship-goals
    resumePreview: Option<Element>,   // .resume-preview
    resumeSections: seq<Element>,     // .resume-download, .resume-section-item
    contactSections: seq<Element>,    // .contact-form, .contact-info, .additional-info
    buttons: seq<Element>,            // .btn
    cards: seq<Element>,              // .card, .project-card, .info-card
    links: seq<Element>)              // a:not(.btn)
  {
    /** Every query result is a node list. */
    predicate Valid()
    {
      Distinct(scrollAnimated) && Distinct(aboutSections) && Distinct(skillsSections) &&
      Distinct(ctaSections) && Distinct(projectCards) && Distinct(pageHeaders) &&
      Distinct(projectsIntros) && Distinct(aboutPageSections) && Distinct(resumeSections) &&
      Distinct(contactSections) && Distinct(buttons) && Distinct(cards) && Distinct(links)
    }

    function HeroParts(): set<Element>
    {
      Opt(heroTitle) + Opt(heroSubtitle) + Opt(heroDescription) + Opt(heroImage)
    }

    function HomeTargets(): set<Element>
    {
      HeroParts() + Nodes(aboutSections) + Nodes(skillsSections) + Nodes(ctaSections)
    }

    function ProjectsTargets(): set<Element>
    {
      Nodes(projectCards) + Nodes(pageHeaders) + Nodes(projectsIntros)
    }

    function AboutTargets(): set<Element>
    {
      Opt(First(pageHeaders)) + Nodes(aboutPageSections)
    }

    function ResumeTargets(): set<Element>
    {
      Opt(resumePreview) + Nodes(resumeSections)
    }

    function ContactTargets(): set<Element>
    {
      Opt(First(pageHeaders)) + Nodes(contactSections)
    }

    function HoverTargets(): set<Element>
    {
      Nodes(buttons) + Nodes(cards) + Nodes(links)
    }

    /** The elements the setup of page `p` may touch. */
    function Targets(p: Page): set<Element>
    {
      match p
      case Home => HomeTargets()
      case Projects => ProjectsTargets()
      case About => AboutTargets()
      case Resume => ResumeTargets()
      case Contact => ContactTargets()
    }

    /** Every element a setup may touch. */
    function Elements(): set<Element>
    {
      Nodes(scrollAnimated) + HomeTargets() + ProjectsTargets() + AboutTargets() +
      ResumeTargets() + ContactTargets() + HoverTargets()
    }

    /** The entrance classes of the four hero parts. */
    function HeroClasses(e: Element): set<string>
    {
      Tag(heroTitle, e, {FadeInUp}) + Tag(heroSubtitle, e, {FadeInUp, Delay1}) +
      Tag(heroDescription, e, {FadeInUp, Delay2}) + Tag(heroImage, e, {FadeInRight, Delay3})
    }

    /** The classes the setup of page `p` adds to `e`. */
    function PageClasses(p: Page, e: Element): set<string>
    {
      match p
      case Home =>
        HeroClasses(e) + In(aboutSections, e, {ScrollAnimate}) +
        In(skillsSections, e, {ScrollAnimate}) + In(ctaSections, e, {ScrollAnimate})
      case Projects =>
        In(projectCards, e, {ScrollAnimate, HoverLift}) +
        In(pageHeaders, e, {ScrollAnimate}) + In(projectsIntros, e, {ScrollAnimate})
      case About => Tag(First(pageHeaders), e, {FadeInUp}) + In(aboutPageSections, e, {FadeInUp})
      case Resume => Tag(resumePreview, e, {FadeIn}) + In(resumeSections, e, {FadeInUp})
      case Contact => Tag(First(pageHeaders), e, {FadeInUp}) + In(contactSections, e, {FadeInUp})
    }

    /**
     * The delay `e` has after the setup of page `p`, given its delay `d`
     * before: the loops run in source order, so the last loop reaching `e`
     * decides.
     */
    function PageDelay(p: Page, e: Element, d: Option<nat>): Option<nat>
    {
      match p
      case Home =>
        Stagger(ctaSections, e, 0, 1, Stagger(skillsSections, e, 0, 1, Stagger(aboutSections, e, 0, 1, d)))
      case Projects =>
        Stagger(projectsIntros, e, 0, 1, Stagger(pageHeaders, e, 0, 1, Stagger(projectCards, e, 0, 1, d)))
      case About => Stagger(aboutPageSections, e, 2, 2, d)
      case Resume => Stagger(resumeSections, e, 2, 2, d)
      case Contact => Stagger(contactSections, e, 2, 2, d)
    }

    /** The classes `setupHoverEffects` adds to `e`. */
    function HoverClasses(e: Element): set<string>
    {
      In(buttons, e, {HoverScale}) + In(cards, e, {HoverLift}) + In(links, e, {HoverGlow})
    }
  }

  /** `if (el) el.classList.add(...)`. */
  method AddIfPresent(el: Option<Element>, added: set<string>)
    modifies Opt(el)
    ensures forall e: Element | old(allocated(e)) :: e.classes == old(e.classes) + Tag(el, e, added)
    ensures forall e: Element | old(allocated(e)) ::
              e.animationDelay == old(e.animationDelay) && e.textContent == old(e.textContent)
  {
    if el.Some? {
      el.value.classes := el.value.classes + added;
    }
  }

  /**
   * `setupHomeAnimations`: the hero parts get their entrance classes and
   * the about, skills and call-to-action sections are tagged for scrolling.
   */
  method SetupHomeAnimations(m: PageMatches)
    requires Distinct(m.aboutSections) && Distinct(m.skillsSections) && Distinct(m.ctaSections)
    modifies m.HomeTargets()
    ensures forall e: Element | old(allocated(e)) :: e.classes == old(e.classes) + m.PageClasses(Home, e)
    ensures forall e: Element | old(allocated(e)) :: e.animationDelay == m.PageDelay(Home, e, old(e.animationDelay))
    ensures forall e: Element | old(allocated(e)) :: e.textContent == old(e.textContent)
  {
    AddHeroEntrances(m);
    AddScrollAnimation(m.aboutSections);
    AddScrollAnimation(m.skillsSections);
    AddScrollAnimation(m.ctaSections);
  }

  /** The first half of `setupHomeAnimations`: the four hero parts that exist get their entrance classes. */
  method AddHeroEntrances(m: PageMatches)
    modifies m.HeroParts()
    ensures forall e: Element | old(allocated(e)) :: e.classes == old(e.classes) + m.HeroClasses(e)
    ensures forall e: Element | old(allocated(e)) ::
              e.animationDelay == old(e.animationDelay) && e.textContent == old(e.textContent)
  {
    AddIfPresent(m.heroTitle, {FadeInUp});
    AddIfPresent(m.heroSubtitle, {FadeInUp, Delay1});
    AddIfPresent(m.heroDescription, {FadeInUp, Delay2});
    AddIfPresent(m.heroImage, {FadeInRight, Delay3});
  }

  /**
   * `setupProjectsAnimations`: project cards get `scroll-animate` and
   * `hover-lift` with a delay of their index in tenths, then page headers
   * and intros are tagged for scrolling. A later loop overwrites an
   * earlier delay.
   */
  method SetupProjectsAnimations(m: PageMatches)
    requires Distinct(m.projectCards) && Distinct(m.pageHeaders) && Distinct(m.projectsIntros)
    modifies m.ProjectsTargets()
    ensures forall e: Element | old(allocated(e)) :: e.classes == old(e.classes) + m.PageClasses(Projects, e)
    ensures forall e: Element | old(allocated(e)) :: e.animationDelay == m.PageDelay(Projects, e, old(e.animationDelay))
    ensures forall e: Element | old(allocated(e)) :: e.textContent == old(e.textContent)
  {
    AddClassesWithDelay(m.projectCards, {ScrollAnimate, HoverLift}, 0, 1);
    AddScrollAnimation(m.pageHeaders);
    AddScrollAnimation(m.projectsIntros);
  }

  /** `setupAboutAnimations`: the page header fades in, then the sections with growing delays. */
  method SetupAboutAnimations(m: PageMatches)
    requires Distinct(m.aboutPageSections)
    modifies m.AboutTargets()
    ensures forall e: Element | old(allocated(e)) :: e.classes == old(e.classes) + m.PageClasses(About, e)
    ensures forall e: Element | old(allocated(e)) :: e.animationDelay == m.PageDelay(About, e, old(e.animationDelay))
    ensures forall e: Element | old(allocated(e)) :: e.textContent == old(e.textContent)
  {
    AddIfPresent(First(m.pageHeaders), {FadeInUp});
    AddSectionFadeIns(m.aboutPageSections);
  }

  /** `setupResumeAnimations`: the preview fades in, then the sections with growing delays. */
  method SetupResumeAnimations(m: PageMatches)
    requires Distinct(m.resumeSections)
    modifies m.ResumeTargets()
    ensures forall e: Element | old(allocated(e)) :: e.classes == old(e.classes) + m.PageClasses(Resume, e)
    ensures forall e: Element | old(allocated(e)) :: e.animationDelay == m.PageDelay(Resume, e, old(e.animationDelay))
    ensures forall e: Element | old(allocated(e)) :: e.textContent == old(e.textContent)
  {
    AddIfPresent(m.resumePreview, {FadeIn});
    AddSectionFadeIns(m.resumeSections);
  }

  /** `setupContactAnimations`: the page header fades in, then the sections with growing delays. */
  method SetupContactAnimations(m: PageMatches)
    requires Distinct(m.contactSections)
    modifies m.ContactTargets()
    ensures forall e: Element | old(allocated(e)) :: e.classes == old(e.classes) + m.PageClasses(Contact, e)
    ensures forall e: Element | old(allocated(e)) :: e.animationDelay == m.PageDelay(Contact, e, old(e.animationDelay))
    ensures forall e: Element | old(allocated(e)) :: e.textContent == old(e.textContent)
  {
    AddIfPresent(First(m.pageHeaders), {FadeInUp});
    AddSectionFadeIns(m.contactSections);
  }

  /**
   * `setupPageSpecificAnimations`: the setup of the page the path resolves
   * to, and only that one; no element outside that page's targets changes.
   */
  method SetupPageSpecificAnimations(path: string, m: PageMatches) returns (page: Page)
    requires m.Valid()
    modifies m.Targets(GetCurrentPage(path))
    ensures page == GetCurrentPage(path)
    ensures forall e: Element | old(allocated(e)) :: e.classes == old(e.classes) + m.PageClasses(page, e)
    ensures forall e: Element | old(allocated(e)) :: e.animationDelay == m.PageDelay(page, e, old(e.animationDelay))
    ensures forall e: Element | old(allocated(e)) :: e.textContent == old(e.textContent)
  {
    page := GetCurrentPage(path);
    match page
    case Home => SetupHomeAnimations(m);
    case Projects => SetupProjectsAnimations(m);
    case About => SetupAboutAnimations(m);
    case Resume => SetupResumeAnimations(m);
    case Contact => SetupContactAnimations(m);
  }

  /** `setupHoverEffects`: buttons scale, cards lift and links glow on hover. */
  method SetupHoverEffects(m: PageMatches)
    modifies m.HoverTargets()
    ensures forall e: Element | old(allocated(e)) :: e.classes == old(e.classes) + m.HoverClasses(e)
    ensures forall e: Element | old(allocated(e)) ::
              e.animationDelay == old(e.animationDelay) && e.textContent == old(e.textContent)
  {
    AddClasses(m.buttons, {HoverScale});
    AddClasses(m.cards, {HoverLift});
    AddClasses(m.links, {HoverGlow});
  }

  /** In a node list, the match at `index` gets the delay `first + index * step`. */
  lemma StaggerAt(els: seq<Element>, i: int, first: nat, step: nat, d: Option<nat>)
    requires Distinct(els) && 0 <= i < |els|
    ensures Stagger(els, els[i], first, step, d) == Some(first + i * step)
  {
    var j := IndexIn(els, els[i]);
    assert j == i;
  }

  /**
   * Home page delays: the call-to-action loop runs last, so its matches
   * keep their index; an about or skills section keeps its own index
   * unless a later loop reaches it; the hero parts keep their delay.
   */
  lemma HomeDelays(m: PageMatches, e: Element, d: Option<nat>)
    requires m.Valid()
    ensures forall i | 0 <= i < |m.ctaSections| :: m.PageDelay(Home, m.ctaSections[i], d) == Some(i)
    ensures forall i | 0 <= i < |m.skillsSections| && m.skillsSections[i] !in m.ctaSections ::
              m.PageDelay(Home, m.skillsSections[i], d) == Some(i)
    ensures forall i | 0 <= i < |m.aboutSections| && m.aboutSections[i] !in m.skillsSections + m.ctaSections ::
              m.PageDelay(Home, m.aboutSections[i], d) == Some(i)
    ensures e !in m.aboutSections + m.skillsSections + m.ctaSections ==> m.PageDelay(Home, e, d) == d
  {
    forall i | 0 <= i < |m.ctaSections| ensures m.PageDelay(Home, m.ctaSections[i], d) == Some(i) {
      StaggerAt(m.ctaSections, i, 0, 1, Stagger(m.skillsSections, m.ctaSections[i], 0, 1, Stagger(m.aboutSections, m.ctaSections[i], 0, 1, d)));
    }
    forall i | 0 <= i < |m.skillsSections| && m.skillsSections[i] !in m.ctaSections
      ensures m.PageDelay(Home, m.skillsSections[i], d) == Some(i)
    {
      StaggerAt(m.skillsSections, i, 0, 1, Stagger(m.aboutSections, m.skillsSections[i], 0, 1, d));
    }
    forall i | 0 <= i < |m.aboutSections| && m.aboutSections[i] !in m.skillsSections + m.ctaSections
      ensures m.PageDelay(Home, m.aboutSections[i], d) == Some(i)
    {
      StaggerAt(m.aboutSections, i, 0, 1, d);
    }
  }

  /**
   * Projects page delays: the intros' loop runs last, then the headers',
   * then the cards'; each element keeps the index of the last loop that
   * reaches it.
   */
  lemma ProjectsDelays(m: PageMatches, e: Element, d: Option<nat>)
    requires m.Valid()
    ensures forall i | 0 <= i < |m.projectsIntros| :: m.PageDelay(Projects, m.projectsIntros[i], d) == Some(i)
    ensures forall i | 0 <= i < |m.pageHeaders| && m.pageHeaders[i] !in m.projectsIntros ::
              m.PageDelay(Projects, m.pageHeaders[i], d) == Some(i)
    ensures forall i | 0 <= i < |m.projectCards| && m.projectCards[i] !in m.pageHeaders + m.projectsIntros ::
              m.PageDelay(Projects, m.projectCards[i], d) == Some(i)
    ensures e !in m.projectCards + m.pageHeaders + m.projectsIntros ==> m.PageDelay(Projects, e, d) == d
  {
    forall i | 0 <= i < |m.projectsIntros| ensures m.PageDelay(Projects, m.projectsIntros[i], d) == Some(i) {
      var x := m.projectsIntros[i];
      StaggerAt(m.projectsIntros, i, 0, 1, Stagger(m.pageHeaders, x, 0, 1, Stagger(m.projectCards, x, 0, 1, d)));
    }
    forall i | 0 <= i < |m.pageHeaders| && m.pageHeaders[i] !in m.projectsIntros
      ensures m.PageDelay(Projects, m.pageHeaders[i], d) == Some(i)
    {
      StaggerAt(m.pageHeaders, i, 0, 1, Stagger(m.projectCards, m.pageHeaders[i], 0, 1, d));
    }
    forall i | 0 <= i < |m.projectCards| && m.projectCards[i] !in m.pageHeaders + m.projectsIntros
      ensures m.PageDelay(Projects, m.projectCards[i], d) == Some(i)
    {
      StaggerAt(m.projectCards, i, 0, 1, d);
    }
  }

  /**
   * About, resume and contact pages: section `index` waits `(index + 1) * 2`
   * tenths, never zero, and every other element (the header, the preview)
   * keeps its delay.
   */
  lemma SectionDelays(m: PageMatches, p: Page, e: Element, d: Option<nat>)
    requires m.Valid() && (p == About || p == Resume || p == Contact)
    ensures var sections := if p == About then m.aboutPageSections else if p == Resume then m.resumeSections else m.contactSections;
            (forall i | 0 <= i < |sections| :: m.PageDelay(p, sections[i], d) == Some((i + 1) * 2)) &&
            (e !in sections ==> m.PageDelay(p, e, d) == d) &&
            (e in sections ==> m.PageDelay(p, e, d).Some? && m.PageDelay(p, e, d).value >= 2)
  {
    var sections := if p == About then m.aboutPageSections else if p == Resume then m.resumeSections else m.contactSections;
    forall i | 0 <= i < |sections| ensures m.PageDelay(p, sections[i], d) == Some((i + 1) * 2) {
      StaggerAt(sections, i, 2, 2, d);
    }
  }

  /** Each hero part that exists gets its entrance classes on the home page. */
  lemma HeroEntrances(m: PageMatches, e: Element)
    ensures m.heroTitle == Some(e) ==> FadeInUp in m.PageClasses(Home, e)
    ensures m.heroSubtitle == Some(e) ==> {FadeInUp, Delay1} <= m.PageClasses(Home, e)
    ensures m.heroDescription == Some(e) ==> {FadeInUp, Delay2} <= m.PageClasses(Home, e)
    ensures m.heroImage == Some(e) ==> {FadeInRight, Delay3} <= m.PageClasses(Home, e)
  {
  }

  /** A page's setup, and the hover setup, touch nothing outside their targets. */
  lemma SetupsStayInTargets(m: PageMatches, p: Page, e: Element, d: Option<nat>)
    ensures e !in m.Targets(p) ==> m.PageClasses(p, e) == {} && m.PageDelay(p, e, d) == d
    ensures e !in m.HoverTargets() ==> m.HoverClasses(e) == {}
  {
  }

  /** No setup adds `animate`: only the scroll observer's callback does. */
  lemma NoSetupAnimates(m: PageMatches, p: Page, e: Element)
    ensures Animate !in m.PageClasses(p, e) + m.HoverClasses(e)
  {
    forall c | c in m.PageClasses(p, e) + m.HoverClasses(e) ensures |c| != |Animate| {
    }
  }

  // ---------------------------------------------------------------------
  // The scroll observer
  // ---------------------------------------------------------------------

  /** One `IntersectionObserverEntry`: its target and whether it is in view. */
  datatype Entry = Entry(target: Element, isIntersecting: bool)

  /** Some entry of the batch reports `e` in view. */
  predicate InView(entries: seq<Entry>, e: Element)
  {
    exists k :: 0 <= k < |entries| && entries[k].target == e && entries[k].isIntersecting
  }

  /** The observer `setupScrollAnimations` creates, with the elements it observes. */
  class ScrollObserver {
    const targets: seq<Element>

    /** `setupScrollAnimations`: observe every element that has `scroll-animate` at this moment. */
    constructor (scrollAnimated: seq<Element>)
      ensures targets == scrollAnimated
    {
      targets := scrollAnimated;
    }

    /**
     * The callback: each target reported in view gains `animate`. The
     * class is never removed and no target is unobserved, so a target that
     * comes into view again keeps the same classes.
     */
    method OnIntersect(entries: seq<Entry>)
      requires forall k | 0 <= k < |entries| :: entries[k].target in targets
      modifies Nodes(targets)
      ensures forall e | e in targets :: e.classes == old(e.classes) + (if InView(entries, e) then {Animate} else {})
      ensures forall e | e in targets && Animate in old(e.classes) :: e.classes == old(e.classes)
      ensures forall e | e in targets :: e.animationDelay == old(e.animationDelay) && e.textContent == old(e.textContent)
    {
      for k := 0 to |entries|
        invariant forall e | e in targets ::
                    e.classes == old(e.classes) + (if InView(entries[..k], e) then {Animate} else {})
        invariant forall e | e in targets :: e.animationDelay == old(e.animationDelay) && e.textContent == old(e.textContent)
      {
        var entry := entries[k];
        if entry.isIntersecting {
          entry.target.classes := entry.target.classes + {Animate};
        }
        forall e | e in targets
          ensures InView(entries[..k + 1], e) <==> InView(entries[..k], e) || (entry.target == e && entry.isIntersecting)
        {
          if InView(entries[..k + 1], e) && !(entry.target == e && entry.isIntersecting) {
            var j :| 0 <= j < k + 1 && entries[..k + 1][j].target == e && entries[..k + 1][j].isIntersecting;
            assert entries[..k][j] == entries[..k + 1][j];
          }
          if InView(entries[..k], e) {
            var j :| 0 <= j < k && entries[..k][j].target == e && entries[..k][j].isIntersecting;
            assert entries[..k + 1][j] == entries[..k][j];
          }
          if entry.target == e && entry.isIntersecting {
            assert entries[..k + 1][k] == entry;
          }
        }
      }
      assert entries[..|entries|] == entries;
    }
  }

  // ---------------------------------------------------------------------
  // Typewriter
  // ---------------------------------------------------------------------

  /**
   * The interval timer of `typeWriter`: each tick appends the next
   * character, and the tick after the last character stops the timer.
   * `shown` counts the characters appended so far (the `i` of the source).
   */
  class TypeWriter {
    const element: Element
    const text: string
    var shown: nat
    var running: bool
    /** The element's text when the timer started. */
    ghost const start: string

    /** After `shown` ticks the element shows the first `shown` characters. */
    ghost predicate Valid()
      reads this, element
    {
      shown <= |text| && element.textContent == start + text[..shown] && (!running ==> shown == |text|)
    }

    constructor (element: Element, text: string)
      ensures this.element == element && this.text == text
      ensures shown == 0 && running && start == element.textContent && Valid()
    {
      this.element := element;
      this.text := text;
      shown := 0;
      running := true;
      start := element.textContent;
    }

    /** One interval tick. */
    method Tick()
      requires Valid() && running
      modifies this, element`textContent
      ensures Valid()
      ensures old(shown) < |text| ==>
                shown == old(shown) + 1 && running &&
                element.textContent == old(element.textContent) + [text[old(shown)]]
      ensures old(shown) == |text| ==> shown == old(shown) && !running && element.textContent == old(element.textContent)
    {
      if shown < |text| {
        element.textContent := element.textContent + [text[shown]];
        assert text[..shown + 1] == text[..shown] + [text[shown]];
        shown := shown + 1;
      } else {
        running := false;
      }
    }

    /** The timeout after the timer stops: the element loses `typewriter`. */
    method Finish()
      requires !running
      modifies element`classes
      ensures element.classes == old(element.classes) - {Typewriter}
    {
      element.classes := element.classes - {Typewriter};
    }

    /**
     * The timer run to its end: `|text|` character ticks and one final
     * tick, after which the element shows its start text followed by the
     * whole of `text`.
     */
    method RunToCompletion() returns (ticks: nat)
      requires Valid() && running
      modifies this, element`textContent
      ensures Valid() && !running
      ensures ticks == |text| - old(shown) + 1
      ensures element.textContent == start + text
    {
      ticks := 0;
      while running
        invariant Valid()
        invariant ticks == shown - old(shown) + (if running then 0 else 1)
        decreases |text| - shown + (if running then 1 else 0)
      {
        Tick();
        ticks := ticks + 1;
      }
      assert text[..|text|] == text;
    }
  }

  /**
   * `setupTypewriterEffect`: only on the home page and only when a
   * subtitle exists, the subtitle's text is captured, the element is
   * emptied and tagged `typewriter`, and a typewriter over the captured
   * text is prepared (started after a one-second timeout).
   */
  method SetupTypewriterEffect(path: string, heroSubtitle: Option<Element>) returns (writer: Option<TypeWriter>)
    modifies Opt(heroSubtitle)
    ensures writer.Some? <==> heroSubtitle.Some? && GetCurrentPage(path) == Home
    ensures writer.None? ==> heroSubtitle.None? || unchanged(heroSubtitle.value)
    ensures writer.Some? ==>
              var el := heroSubtitle.value;
              writer.value.element == el && writer.value.text == old(el.textContent) &&
              el.textContent == "" && el.classes == old(el.classes) + {Typewriter} &&
              el.animationDelay == old(el.animationDelay) &&
              writer.value.running && writer.value.shown == 0 && writer.value.Valid() &&
              fresh(writer.value)
    ensures forall e: Element | old(allocated(e)) ::
              e.classes == old(e.classes) + (if writer.Some? && heroSubtitle == Some(e) then {Typewriter} else {})
    ensures forall e: Element | old(allocated(e)) ::
              e.animationDelay == old(e.animationDelay) &&
              e.textContent == if writer.Some? && heroSubtitle == Some(e) then "" else old(e.textContent)
  {
    if heroSubtitle.Some? && GetCurrentPage(path) == Home {
      var el := heroSubtitle.value;
      var text := el.textContent;
      el.textContent := "";
      el.classes := el.classes + {Typewriter};
      var w := new TypeWriter(el, text);
      writer := Some(w);
    } else {
      writer := None;
    }
  }

  /**
   * The whole reveal on the home page: setting up, running the timer to
   * its end and the final timeout leave the subtitle showing exactly the
   * text it had at load time, without the `typewriter` class it had
   * during the reveal.
   */
  method RevealSubtitle(path: string, heroSubtitle: Element) returns (ticks: nat)
    requires GetCurrentPage(path) == Home
    modifies heroSubtitle
    ensures heroSubtitle.textContent == old(heroSubtitle.textContent)
    ensures heroSubtitle.classes == old(heroSubtitle.classes) - {Typewriter}
    ensures heroSubtitle.animationDelay == old(heroSubtitle.animationDelay)
    ensures ticks == |old(heroSubtitle.textContent)| + 1
  {
    var writer := SetupTypewriterEffect(path, Some(heroSubtitle));
    var w := writer.value;
    ticks := w.RunToCompletion();
    w.Finish();
  }

  /** The two tagging steps of `setupAnimations`: the page's own setup, then the hover effects. */
  method TagElements(path: string, m: PageMatches)
    requires m.Valid()
    modifies m.Elements()
    ensures forall e: Element | old(allocated(e)) ::
              e.classes == old(e.classes) + m.PageClasses(GetCurrentPage(path), e) + m.HoverClasses(e)
    ensures forall e: Element | old(allocated(e)) ::
              e.animationDelay == m.PageDelay(GetCurrentPage(path), e, old(e.animationDelay))
    ensures forall e: Element | old(allocated(e)) :: e.textContent == old(e.textContent)
  {
    var page := SetupPageSpecificAnimations(path, m);
    label tagged:
    SetupHoverEffects(m);
    forall e: Element | old(allocated(e))
      ensures e.classes == old(e.classes) + m.PageClasses(page, e) + m.HoverClasses(e)
    {
      assert old@tagged(e.classes) == old(e.classes) + m.PageClasses(page, e);
    }
  }

  /**
   * `setupAnimations`, in the source's order: the observer is created
   * first, so it observes exactly the elements that carry `scroll-animate`
   * in the page as loaded; elements the page setups tag afterwards are not
   * among its targets.
   */
  method SetupAnimations(path: string, m: PageMatches) returns (observer: ScrollObserver, writer: Option<TypeWriter>)
    requires m.Valid()
    modifies m.Elements()
    ensures observer.targets == m.scrollAnimated
    ensures writer.Some? <==> m.heroSubtitle.Some? && GetCurrentPage(path) == Home
    ensures writer.Some? ==> writer.value.element == m.heroSubtitle.value && writer.value.text == old(m.heroSubtitle.value.textContent)
    ensures writer.Some? ==> writer.value.Valid() && writer.value.running && writer.value.shown == 0 && fresh(writer.value)
    ensures forall e: Element | old(allocated(e)) ::
              e.classes == old(e.classes) + m.PageClasses(GetCurrentPage(path), e) + m.HoverClasses(e) +
                           (if writer.Some? && m.heroSubtitle == Some(e) then {Typewriter} else {})
    ensures forall e: Element | old(allocated(e)) ::
              e.animationDelay == m.PageDelay(GetCurrentPage(path), e, old(e.animationDelay))
    ensures forall e: Element | old(allocated(e)) ::
              e.textContent == if writer.Some? && m.heroSubtitle == Some(e) then "" else old(e.textContent)
  {
    observer := new ScrollObserver(m.scrollAnimated);
    TagElements(path, m);
    writer := SetupTypewriterEffect(path, m.heroSubtitle);
  }
}
