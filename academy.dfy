/** The Flow Academy text scripts: the page-load timeline, the letter
    splitting with its `split-ran` marker and letter delays, the split-type
    mapping of the masked heading reveal, and the resize listener. */
module Academy {
  import opened Dom
  import opened JsValues
  import opened Timeline
  import opened Resize

  const NavSel := AnyOf([HasClass("nav-row"), Tag("nav"), HasAttr("data-nav")])
  const HeroSel := AnyOf([HasClass("section"), HasAttr("data-hero"), HasAttr("data-load-section")])
  const ButtonSel := AnyOf([HasClass("button"), HasAttr("data-button")])

  // ---------------------------------------------------------------------------
  // initLoad

  /** How `initLoad` ends. */
  datatype Load = NoHero | Built(steps: seq<LoadStep>)

  /** The two steps every Flow Academy load timeline starts with: the hero is
      made visible at 0.5 s and its lines move up after it. */
  function LoadHead(hero: Element): seq<LoadStep>
  {
    [Step(Target(HeroSection, [hero]), Set, NoMove, Show, NoCleanup, Abs(500.0)),
     Step(Target(Lines, QuerySelectorAll(hero, SingleLine)), To, MoveY("0"), Untouched, NoCleanup, AfterPrevious)]
  }

  /** The nav step: the nav moves up together with the lines; present only
      when the document has a nav. */
  function NavStep(nav: Option<Element>): Option<LoadStep>
  {
    match nav
    case Some(n) => Some(Step(Target(Nav, [n]), To, MoveY("0"), Untouched, NoCleanup, WithPrevious))
    case None => None
  }

  /** The page-load timeline of a Flow Academy page, given the document, the
      container searched (`next`, the document by default) and the hero found
      in it: the head, then, each only when the page has them, the nav, the
      reveal items (one or more), the paragraphs of the paragraph wrap and the
      buttons of the button wrap. */
  function LoadPlan(doc: Element, scope: Element, hero: Element): seq<LoadStep>
  {
    LoadHead(hero)
    + Opt(NavStep(QuerySelector(doc, NavSel)))
    + Opt(RevealItemsStep(QuerySelectorAll(scope, RevealSel), 1))
    + Opt(PItemsStep(QuerySelector(hero, WrapPSel)))
    + Opt(ButtonsStep(QuerySelector(hero, WrapButtonsSel), ButtonSel))
  }

  lemma LoadHeadRoles(hero: Element)
    ensures var head := LoadHead(hero);
      |head| == 2 && head[0].target.role == HeroSection && head[1].target.role == Lines
      && DistinctRoles(head) && !HasRole(head, Nav) && !HasRole(head, RevealItems)
      && !HasRole(head, PItems) && !HasRole(head, Buttons)
  {
  }

  /** The hero comes first, its lines second, and the nav, when the document
      has one, third. */
  lemma LoadOrder(doc: Element, scope: Element, hero: Element)
    ensures var plan := LoadPlan(doc, scope, hero);
      |plan| >= 2 && plan[0].target.role == HeroSection && plan[1].target.role == Lines
      && (Contains(doc, NavSel) ==> |plan| >= 3 && plan[2].target.role == Nav)
  {
    var head := LoadHead(hero);
    var nav := NavStep(QuerySelector(doc, NavSel));
    var rest := Opt(RevealItemsStep(QuerySelectorAll(scope, RevealSel), 1)) + Opt(PItemsStep(QuerySelector(hero, WrapPSel)))
      + Opt(ButtonsStep(QuerySelector(hero, WrapButtonsSel), ButtonSel));
    LoadHeadRoles(hero);
    assert LoadPlan(doc, scope, hero) == head + Opt(nav) + rest;
    assert (head + Opt(nav) + rest)[..|head| + |Opt(nav)|] == head + Opt(nav);
  }

  /** No group is animated twice, and each optional group is animated, by its
      one step, exactly when the page has it. */
  lemma LoadRoles(doc: Element, scope: Element, hero: Element)
    ensures var plan := LoadPlan(doc, scope, hero);
      DistinctRoles(plan)
      && StepFor(plan, Nav, NavStep(QuerySelector(doc, NavSel)))
      && StepFor(plan, RevealItems, RevealItemsStep(QuerySelectorAll(scope, RevealSel), 1))
      && StepFor(plan, PItems, PItemsStep(QuerySelector(hero, WrapPSel)))
      && StepFor(plan, Buttons, ButtonsStep(QuerySelector(hero, WrapButtonsSel), ButtonSel))
  {
    var head := LoadHead(hero);
    var nav := NavStep(QuerySelector(doc, NavSel));
    LoadHeadRoles(hero);
    AppendOpt(head, nav, Nav);
    AppendOpts(head + Opt(nav), RevealItemsStep(QuerySelectorAll(scope, RevealSel), 1), PItemsStep(QuerySelector(hero, WrapPSel)),
      ButtonsStep(QuerySelector(hero, WrapButtonsSel), ButtonSel), RevealItems, PItems, Buttons);
  }

  /** The steps `initLoad` adds once the hero is found. */
  method LoadTimeline(doc: Element, scope: Element, hero: Element) returns (steps: seq<LoadStep>)
    ensures steps == LoadPlan(doc, scope, hero)
  {
    var tl := new Builder<Target<LoadRole>>();
    tl.Add(Step(Target(HeroSection, [hero]), Set, NoMove, Show, NoCleanup, Abs(500.0)));
    tl.Add(Step(Target(Lines, QuerySelectorAll(hero, SingleLine)), To, MoveY("0"), Untouched, NoCleanup, AfterPrevious));
    assert tl.steps == LoadHead(hero);
    tl.AddIf(NavStep(QuerySelector(doc, NavSel)));
    tl.AddIf(RevealItemsStep(QuerySelectorAll(scope, RevealSel), 1));
    tl.AddIf(PItemsStep(QuerySelector(hero, WrapPSel)));
    tl.AddIf(ButtonsStep(QuerySelector(hero, WrapButtonsSel), ButtonSel));
    steps := tl.steps;
  }

  /** `initLoad(next)`: nothing when the container has no hero, otherwise the
      load plan. The nav is looked up in the whole document. */
  method InitLoad(doc: Element, scope: Element) returns (r: Load)
    ensures r.NoHero? <==> !Contains(scope, HeroSel)
    ensures r.Built? ==> Contains(scope, HeroSel) && r.steps == LoadPlan(doc, scope, QuerySelector(scope, HeroSel).value)
  {
    var hero := QuerySelector(scope, HeroSel);
    if hero.None? {
      return NoHero;
    }
    var steps := LoadTimeline(doc, scope, hero.value);
    r := Built(steps);
  }

  // ---------------------------------------------------------------------------
  // initSplit: letters

  /** A `[data-split="letters"]` element. `letterCount` is how many letters
      SplitText makes of its text; `split` says whether it is currently split
      into letters, and `delays` holds the `transition-delay` of each letter,
      in milliseconds ([] when none is set). */
  class LetterTarget {
    const hasDelayAttr: bool
    const letterCount: nat
    var splitRan: bool
    var split: bool
    var delays: seq<real>

    constructor (hasDelayAttr: bool, letterCount: nat, splitRan: bool)
      ensures this.hasDelayAttr == hasDelayAttr && this.letterCount == letterCount && this.splitRan == splitRan
      ensures !split && delays == []
    {
      this.hasDelayAttr := hasDelayAttr;
      this.letterCount := letterCount;
      this.splitRan := splitRan;
      split := false;
      delays := [];
    }
  }

  /** The delay of each of `n` letters: the first letter does not wait and
      each letter waits 1/150 s longer than the one before it. */
  function LetterDelays(n: nat): (r: seq<real>)
    ensures |r| == n
    ensures n > 0 ==> r[0] == 0.0
    ensures forall k :: 0 <= k < n - 1 ==> r[k + 1] - r[k] == 1000.0 / 150.0
  {
    seq(n, k => k as real * 1000.0 / 150.0)
  }

  /** Reverting the instances of the previous split: a reverted target is no
      longer split and its letters, with their delays, are gone. */
  method RevertLetters(targets: seq<LetterTarget>, previous: seq<bool>)
    requires |previous| <= |targets|
    requires forall i, j :: 0 <= i < j < |targets| ==> targets[i] != targets[j]
    modifies targets
    ensures forall j :: 0 <= j < |targets| ==> targets[j].splitRan == old(targets[j].splitRan)
    ensures forall j :: 0 <= j < |targets| ==>
      if j < |previous| && previous[j] then !targets[j].split && targets[j].delays == []
      else targets[j].split == old(targets[j].split) && targets[j].delays == old(targets[j].delays)
  {
    for i := 0 to |previous|
      invariant forall j :: 0 <= j < |targets| ==> targets[j].splitRan == old(targets[j].splitRan)
      invariant forall j :: 0 <= j < |targets| ==>
        if j < i && previous[j] then !targets[j].split && targets[j].delays == []
        else targets[j].split == old(targets[j].split) && targets[j].delays == old(targets[j].delays)
    {
      if previous[i] {
        targets[i].split := false;
        targets[i].delays := [];
      }
    }
  }

  /** The `map` over the letter targets: a target already marked `split-ran`
      gets no instance. */
  method NewInstances(targets: seq<LetterTarget>) returns (made: seq<bool>)
    ensures |made| == |targets|
    ensures forall i :: 0 <= i < |targets| ==> (made[i] <==> !targets[i].splitRan)
  {
    made := [];
    for i := 0 to |targets|
      invariant |made| == i
      invariant forall j :: 0 <= j < i ==> (made[j] <==> !targets[j].splitRan)
    {
      made := made + [!targets[i].splitRan];
    }
  }

  /** The `forEach` over the new instances: each split target is marked
      `split-ran` and, when it carries `data-letters-delay`, its letters get
      their delays. Targets without a new instance are left alone. */
  method MarkInstances(targets: seq<LetterTarget>, made: seq<bool>)
    requires |made| == |targets|
    requires forall i, j :: 0 <= i < j < |targets| ==> targets[i] != targets[j]
    modifies targets
    ensures forall j :: 0 <= j < |targets| && made[j] ==>
      targets[j].splitRan && targets[j].split
      && targets[j].delays == if targets[j].hasDelayAttr then LetterDelays(targets[j].letterCount) else []
    ensures forall j :: 0 <= j < |targets| && !made[j] ==>
      targets[j].splitRan == old(targets[j].splitRan) && targets[j].split == old(targets[j].split)
      && targets[j].delays == old(targets[j].delays)
  {
    for i := 0 to |targets|
      invariant forall j :: 0 <= j < i && made[j] ==>
        targets[j].splitRan && targets[j].split
        && targets[j].delays == if targets[j].hasDelayAttr then LetterDelays(targets[j].letterCount) else []
      invariant forall j :: 0 <= j < |targets| && (i <= j || !made[j]) ==>
        targets[j].splitRan == old(targets[j].splitRan) && targets[j].split == old(targets[j].split)
        && targets[j].delays == old(targets[j].delays)
    {
      if made[i] {
        targets[i].splitRan := true;
        targets[i].split := true;
        targets[i].delays := if targets[i].hasDelayAttr then LetterDelays(targets[i].letterCount) else [];
      }
    }
  }

  /** The letter part of `splitText`: the instances made last time
      (`previous[i]` for `targets[i]`) are reverted, then every target not yet
      marked `split-ran` is split into letters and marked. `made[i]` says
      whether `targets[i]` was split by this call. Afterwards every target is
      marked, so a later call splits nothing. */
  method SplitLetters(targets: seq<LetterTarget>, previous: seq<bool>) returns (made: seq<bool>)
    requires |previous| <= |targets|
    requires forall i, j :: 0 <= i < j < |targets| ==> targets[i] != targets[j]
    modifies targets
    ensures |made| == |targets|
    ensures forall i :: 0 <= i < |targets| ==> made[i] == !old(targets[i].splitRan)
    ensures forall i :: 0 <= i < |targets| ==> targets[i].splitRan
    ensures forall i :: 0 <= i < |targets| && made[i] ==>
      targets[i].split && targets[i].delays == if targets[i].hasDelayAttr then LetterDelays(targets[i].letterCount) else []
    ensures forall i :: 0 <= i < |targets| && !made[i] ==>
      if i < |previous| && previous[i] then !targets[i].split && targets[i].delays == []
      else targets[i].split == old(targets[i].split) && targets[i].delays == old(targets[i].delays)
  {
    RevertLetters(targets, previous);
    made := NewInstances(targets);
    MarkInstances(targets, made);
  }

  /** The letters as a resize leaves them: a target split into letters on
      the first pass is reverted when the width changes, and, being marked
      `split-ran`, is not split again, so its letters are gone for good. */
  method LettersAfterResize() returns (splitBefore: bool, splitAfter: bool)
    ensures splitBefore && !splitAfter
  {
    var t := new LetterTarget(true, 3, false);
    var made := SplitLetters([t], []);
    assert [t][0] == t && made[0];
    splitBefore := t.split;
    made := SplitLetters([t], made);
    assert [t][0] == t;
    splitAfter := t.split;
  }

  /** `splitText` with the marker consulted only for targets this listener
      did not split itself: a target whose instance was just reverted is split
      again, so a resize keeps every letter target split, with its delays. */
  method SplitLettersAgain(targets: seq<LetterTarget>, previous: seq<bool>) returns (made: seq<bool>)
    requires |previous| <= |targets|
    requires forall i, j :: 0 <= i < j < |targets| ==> targets[i] != targets[j]
    modifies targets
    ensures |made| == |targets|
    ensures forall i :: 0 <= i < |targets| ==>
      made[i] == (!old(targets[i].splitRan) || (i < |previous| && previous[i]))
    ensures forall i :: 0 <= i < |targets| ==> targets[i].splitRan
    ensures forall i :: 0 <= i < |previous| && previous[i] ==>
      targets[i].split && targets[i].delays == if targets[i].hasDelayAttr then LetterDelays(targets[i].letterCount) else []
    ensures forall i :: 0 <= i < |targets| && made[i] ==>
      targets[i].split && targets[i].delays == if targets[i].hasDelayAttr then LetterDelays(targets[i].letterCount) else []
  {
    RevertLetters(targets, previous);
    var unmarked := NewInstances(targets);
    made := [];
    for i := 0 to |targets|
      invariant |made| == i
      invariant forall j :: 0 <= j < i ==> made[j] == (unmarked[j] || (j < |previous| && previous[j]))
    {
      made := made + [unmarked[i] || (i < |previous| && previous[i])];
    }
    MarkInstances(targets, made);
  }

  /** With the correction, a width change leaves a letter target split. */
  method LettersAfterResizeAgain() returns (splitBefore: bool, splitAfter: bool)
    ensures splitBefore && splitAfter
  {
    var t := new LetterTarget(true, 3, false);
    var made := SplitLettersAgain([t], []);
    assert [t][0] == t && made[0];
    splitBefore := t.split;
    made := SplitLettersAgain([t], made);
    assert [t][0] == t;
    splitAfter := t.split;
  }

  // ---------------------------------------------------------------------------
  // initMaskTextScrollReveal

  /** The pieces SplitText can cut a heading into. */
  datatype Unit = Line | Word | Char

  /** The split type of a `[data-split="heading"]` element: its
      `data-split-reveal` value, "lines" when absent or empty. */
  function SplitType(heading: Element): (t: string)
    ensures t != ""
  {
    OrString(GetAttr(heading, "data-split-reveal"), "lines")
  }

  /** What the heading is split into: lines alone, lines and words, or (for
      any other type) lines, words and characters. */
  function UnitsToSplit(t: string): (r: seq<Unit>)
    ensures |r| >= 1 && r[0] == Line
    ensures Word in r <==> t != "lines"
    ensures Char in r <==> t != "lines" && t != "words"
  {
    if t == "lines" then [Line] else if t == "words" then [Line, Word] else [Line, Word, Char]
  }

  /** The scroll-triggered `from` tween of the split pieces: which unit, and the
      duration and stagger configured for it, in milliseconds. */
  datatype MaskTween = MaskTween(unit: Unit, durationMs: real, staggerMs: real)

  /** The tween `onSplit` returns: it animates the unit the type names, which
      is the finest unit the heading was split into. Only "lines", "words"
      and "chars" have a configuration; any other type reads the
      configuration of an unknown key and throws a TypeError (None). */
  function MaskTweenOf(t: string): (r: Option<MaskTween>)
    ensures r.Some? <==> t in {"lines", "words", "chars"}
    ensures r.Some? ==> r.value.unit == (if t == "lines" then Line else if t == "words" then Word else Char)
    ensures r.Some? ==> r.value.unit == UnitsToSplit(t)[|UnitsToSplit(t)| - 1]
    ensures r.Some? ==> r.value.durationMs > 0.0 && r.value.staggerMs > 0.0
  {
    if t == "lines" then Some(MaskTween(Line, 800.0, 80.0))
    else if t == "words" then Some(MaskTween(Word, 600.0, 60.0))
    else if t == "chars" then Some(MaskTween(Char, 400.0, 10.0))
    else None
  }

  /** A heading without a split type is split into lines and animated line by line. */
  lemma DefaultSplitType(heading: Element)
    requires GetAttr(heading, "data-split-reveal") in {None, Some("")}
    ensures UnitsToSplit(SplitType(heading)) == [Line]
    ensures MaskTweenOf(SplitType(heading)) == Some(MaskTween(Line, 800.0, 80.0))
  {
  }

  // ---------------------------------------------------------------------------
  // initSplit: the resize listener

  /** What a width change makes a Flow Academy page redo. */
  datatype Rerun = SplitText | TextScroll | RerunLoad

  /** The listener `initSplit` registers, with the width at registration. */
  method ListenForResize(width: int) returns (g: WidthGuard<Rerun>)
    ensures fresh(g) && g.lastWidth == width && !g.pending && g.runs == 0
    ensures g.work == [SplitText, TextScroll, RerunLoad]
  {
    g := new WidthGuard(width, [SplitText, TextScroll, RerunLoad]);
  }
}
