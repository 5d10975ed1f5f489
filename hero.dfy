/** The home page scripts: the hero load timeline, the background parallax
    configuration and the close guard of the side modal. */
module HomeHero {
  import opened Dom
  import opened JsValues
  import opened Timeline
  import opened Resize

  const NavRow := HasClass("nav-row")
  const SectionSel := HasClass("section")
  const ButtonSel := HasClass("button")

  // ---------------------------------------------------------------------------
  // initHeroLoad

  /** How `initHeroLoad` ends. */
  datatype HeroLoad =
    | NoNav                         // returned early: the page has no `.nav-row`
    | Threw                         // no `.section`: reading its lines throws a TypeError
    | Built(steps: seq<LoadStep>)   // the steps of the load timeline, in the order added

  /** The page-load timeline of the home hero, given the nav and the hero
      section found in `doc`: the hero is made visible at 0.5 s, the lines
      move up after it and the nav moves up together with the lines; then,
      each only when the page has them, the reveal items (only when there are
      two or more), the paragraphs of the paragraph wrap and the buttons of
      the button wrap, at fixed times. */
  function HeroLoadPlan(doc: Element, nav: Element, hero: Element): seq<LoadStep>
  {
    HeroLoadHead(nav, hero)
    + Opt(RevealItemsStep(QuerySelectorAll(doc, RevealSel), 2))
    + Opt(PItemsStep(QuerySelector(hero, WrapPSel)))
    + Opt(ButtonsStep(QuerySelector(hero, WrapButtonsSel), ButtonSel))
  }

  /** The three steps every hero load timeline starts with. */
  function HeroLoadHead(nav: Element, hero: Element): seq<LoadStep>
  {
    [Step(Target(HeroSection, [hero]), Set, NoMove, Show, NoCleanup, Abs(500.0)),
     Step(Target(Lines, QuerySelectorAll(hero, SingleLine)), To, MoveY("0"), Untouched, NoCleanup, AfterPrevious),
     Step(Target(Nav, [nav]), To, MoveY("0"), Untouched, NoCleanup, WithPrevious)]
  }

  /** No group is animated twice: the reveal items are animated (by their one
      step) exactly when the page has two or more, the paragraphs exactly when
      the hero has a paragraph wrap, the buttons exactly when it has a button
      wrap; the first three steps are always the hero, its lines and the nav. */
  lemma HeroLoadRoles(doc: Element, nav: Element, hero: Element)
    ensures var plan := HeroLoadPlan(doc, nav, hero);
      |plan| >= 3 && plan[0].target.role == HeroSection && plan[1].target.role == Lines && plan[2].target.role == Nav
      && DistinctRoles(plan)
      && StepFor(plan, RevealItems, RevealItemsStep(QuerySelectorAll(doc, RevealSel), 2))
      && StepFor(plan, PItems, PItemsStep(QuerySelector(hero, WrapPSel)))
      && StepFor(plan, Buttons, ButtonsStep(QuerySelector(hero, WrapButtonsSel), ButtonSel))
  {
    var head := HeroLoadHead(nav, hero);
    assert DistinctRoles(head) && !HasRole(head, RevealItems) && !HasRole(head, PItems) && !HasRole(head, Buttons);
    AppendOpts(head, RevealItemsStep(QuerySelectorAll(doc, RevealSel), 2), PItemsStep(QuerySelector(hero, WrapPSel)),
      ButtonsStep(QuerySelector(hero, WrapButtonsSel), ButtonSel), RevealItems, PItems, Buttons);
  }

  /** The steps `initHeroLoad` adds once the nav and the hero are found. */
  method HeroTimeline(doc: Element, nav: Element, hero: Element) returns (steps: seq<LoadStep>)
    ensures steps == HeroLoadPlan(doc, nav, hero)
  {
    var tl := new Builder<Target<LoadRole>>();
    tl.Add(Step(Target(HeroSection, [hero]), Set, NoMove, Show, NoCleanup, Abs(500.0)));
    tl.Add(Step(Target(Lines, QuerySelectorAll(hero, SingleLine)), To, MoveY("0"), Untouched, NoCleanup, AfterPrevious));
    tl.Add(Step(Target(Nav, [nav]), To, MoveY("0"), Untouched, NoCleanup, WithPrevious));
    assert tl.steps == HeroLoadHead(nav, hero);
    tl.AddIf(RevealItemsStep(QuerySelectorAll(doc, RevealSel), 2));
    tl.AddIf(PItemsStep(QuerySelector(hero, WrapPSel)));
    tl.AddIf(ButtonsStep(QuerySelector(hero, WrapButtonsSel), ButtonSel));
    steps := tl.steps;
  }

  /** `initHeroLoad`: nothing without a nav, a TypeError without a hero
      section, otherwise the hero load plan. */
  method InitHeroLoad(doc: Element) returns (r: HeroLoad)
    ensures r.NoNav? <==> !Contains(doc, NavRow)
    ensures r.Threw? <==> Contains(doc, NavRow) && !Contains(doc, SectionSel)
    ensures r.Built? <==> Contains(doc, NavRow) && Contains(doc, SectionSel)
    ensures r.Built? ==>
      r.steps == HeroLoadPlan(doc, QuerySelector(doc, NavRow).value, QuerySelector(doc, SectionSel).value)
  {
    var nav := QuerySelector(doc, NavRow);
    if nav.None? {
      return NoNav;
    }
    var hero := QuerySelector(doc, SectionSel);
    if hero.None? {
      return Threw;
    }
    var steps := HeroTimeline(doc, nav.value, hero.value);
    r := Built(steps);
  }

  // ---------------------------------------------------------------------------
  // initBgParallax

  const ParallaxTrigger := AttrIs("data-parallax", "trigger")
  const ParallaxTargetSel := AttrIs("data-parallax", "target")

  /** The tweened property: `xPercent` or `yPercent`. */
  datatype Axis = XPercent | YPercent

  /** `scrub: true` (follow the scroll directly) or a number of seconds of lag. */
  datatype Scrub = Follow | Lag(seconds: real)

  /** The scroll-linked `fromTo` tween a parallax trigger sets up. */
  datatype Parallax = Parallax(target: Element, trigger: Element, axis: Axis, from: real, to: real,
                               scrub: Scrub, start: string, end: string)

  /** The configuration read from one `[data-parallax="trigger"]` element. */
  function ParallaxOf(trigger: Element): (p: Parallax)
    ensures p.trigger == trigger
    ensures p.axis == XPercent <==> GetAttr(trigger, "data-parallax-direction") == Some("horizontal")
  {
    var direction := OrString(GetAttr(trigger, "data-parallax-direction"), "vertical");
    var scrub := ParseAttr(GetAttr(trigger, "data-parallax-scrub"));
    var target := match QuerySelector(trigger, ParallaxTargetSel) case Some(t) => t case None => trigger;
    Parallax(
      target, trigger,
      if direction == "horizontal" then XPercent else YPercent,
      OrNumber(ParseAttr(GetAttr(trigger, "data-parallax-start")), -5.0),
      OrNumber(ParseAttr(GetAttr(trigger, "data-parallax-end")), 20.0),
      if scrub.Num? && scrub.value != 0.0 then Lag(scrub.value) else Follow,
      OrString(GetAttr(trigger, "data-parallax-scroll-start"), "top bottom"),
      OrString(GetAttr(trigger, "data-parallax-scroll-end"), "bottom top"))
  }

  /** The tween moves the first `[data-parallax="target"]` inside the trigger,
      or the trigger itself when it has none. */
  lemma ParallaxTarget(trigger: Element)
    ensures Contains(trigger, ParallaxTargetSel) ==>
      ParallaxOf(trigger).target in Descendants(trigger) && Matches(ParallaxOf(trigger).target, ParallaxTargetSel)
    ensures !Contains(trigger, ParallaxTargetSel) ==> ParallaxOf(trigger).target == trigger
  {
  }

  /** A trigger with none of the parallax attributes and no inner target moves
      itself vertically from -5% to 20% while it crosses the viewport,
      following the scroll directly. */
  lemma ParallaxDefaults(trigger: Element)
    requires forall a :: a in trigger.attrs ==> a == "data-parallax"
    requires !Contains(trigger, ParallaxTargetSel)
    ensures ParallaxOf(trigger) == Parallax(trigger, trigger, YPercent, -5.0, 20.0, Follow, "top bottom", "bottom top")
  {
    assert GetAttr(trigger, "data-parallax-direction").None?;
    assert GetAttr(trigger, "data-parallax-start").None? && GetAttr(trigger, "data-parallax-end").None?;
    assert GetAttr(trigger, "data-parallax-scrub").None?;
  }

  /** Start and end values written as positive whole numbers are used as
      written; a written 0 is falsy and falls back to the default. */
  lemma ParallaxRange(trigger: Element, a: nat, b: nat)
    requires GetAttr(trigger, "data-parallax-start") == Some(NatToString(a))
    requires GetAttr(trigger, "data-parallax-end") == Some(NatToString(b))
    ensures ParallaxOf(trigger).from == if a == 0 then -5.0 else a as real
    ensures ParallaxOf(trigger).to == if b == 0 then 20.0 else b as real
  {
    ParseFloatOfNatToString(a);
    ParseFloatOfNatToString(b);
  }

  /** A scrub attribute written as a positive whole number becomes a lag of
      that many seconds; 0 or an unreadable value means `scrub: true`. */
  lemma ParallaxScrub(trigger: Element, n: nat)
    requires GetAttr(trigger, "data-parallax-scrub") == Some(NatToString(n))
    ensures ParallaxOf(trigger).scrub == if n == 0 then Follow else Lag(n as real)
  {
    ParseFloatOfNatToString(n);
  }

  /** One tween per trigger, in the triggers' order. */
  function ParallaxAll(triggers: seq<Element>): (r: seq<Parallax>)
    ensures |r| == |triggers|
  {
    if triggers == [] then [] else ParallaxAll(triggers[..|triggers| - 1]) + [ParallaxOf(triggers[|triggers| - 1])]
  }

  /** The tween at each position is the one configured by the trigger there. */
  lemma {:induction false} ParallaxAllAt(triggers: seq<Element>, i: nat)
    requires i < |triggers|
    ensures ParallaxAll(triggers)[i] == ParallaxOf(triggers[i])
  {
    if i < |triggers| - 1 {
      ParallaxAllAt(triggers[..|triggers| - 1], i);
    }
  }

  /** `initBgParallax`: the tweens of every `[data-parallax="trigger"]` element,
      in document order. */
  method InitBgParallax(doc: Element) returns (tweens: seq<Parallax>)
    ensures tweens == ParallaxAll(QuerySelectorAll(doc, ParallaxTrigger))
  {
    var triggers := QuerySelectorAll(doc, ParallaxTrigger);
    tweens := [];
    for i := 0 to |triggers|
      invariant tweens == ParallaxAll(triggers[..i])
    {
      assert triggers[..i + 1][..i] == triggers[..i];
      tweens := tweens + [ParallaxOf(triggers[i])];
    }
    assert triggers[..|triggers|] == triggers;
  }

  // ---------------------------------------------------------------------------
  // initModalBg: the close guard

  /** The side modal's close controls. `animating` is the flag the close
      timeline sets when it starts and clears when it completes; `closes`
      counts how often the close timeline was (re)started from its beginning. */
  class ModalClose {
    var animating: bool
    ghost var closes: nat

    constructor ()
      ensures !animating && closes == 0
    {
      animating := false;
      closes := 0;
    }

    /** A click on a `[data-modal-close]` element: ignored while the close
        timeline runs, otherwise it restarts the close timeline, whose start
        raises the flag. */
    method ClickClose() returns (played: bool)
      modifies this
      ensures played == !old(animating)
      ensures animating
      ensures closes == old(closes) + (if played then 1 else 0)
    {
      if animating {
        return false;
      }
      closes := closes + 1;
      animating := true;
      played := true;
    }

    /** The Escape key is not guarded: it always restarts the close timeline. */
    method Escape()
      modifies this
      ensures animating && closes == old(closes) + 1
    {
      closes := closes + 1;
      animating := true;
    }

    /** The close timeline completes. */
    method Complete()
      modifies this
      ensures !animating && closes == old(closes)
    {
      animating := false;
    }
  }

  // ---------------------------------------------------------------------------
  // initSplit: the resize listener

  /** What a width change makes the home page redo. */
  datatype Rerun = SplitLines | RerunHeroLoad

  /** The listener `initSplit` registers, with the width at registration. */
  method ListenForResize(width: int) returns (g: WidthGuard<Rerun>)
    ensures fresh(g) && g.lastWidth == width && !g.pending && g.runs == 0
    ensures g.work == [SplitLines, RerunHeroLoad]
  {
    g := new WidthGuard(width, [SplitLines, RerunHeroLoad]);
  }
}
