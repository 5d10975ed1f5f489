/** The Flow Academy loading fix: the welcome loader that cycles through a
    comma-separated word list before the hero is revealed, the hero reveal
    itself, and the start-up branch between the two. */
module Loader {
  import opened Dom
  import opened JsValues
  import opened Timeline

  const ContainerSel := HasAttr("data-loading-container")
  const WordsSel := HasAttr("data-loading-words")
  const WordsTargetSel := HasAttr("data-loading-words-target")
  const HeroSectionSel := HasAttr("data-hero-section")

  /** The elements present among `es`: GSAP skips null targets. */
  function Present(es: seq<Option<Element>>): (r: seq<Element>)
    ensures forall e :: e in r <==> Some(e) in es
  {
    if es == [] then []
    else
      var rest := Present(es[1..]);
      assert forall o :: o in es <==> o == es[0] || o in es[1..];
      match es[0]
      case Some(e) => [e] + rest
      case None => rest
  }

  // ---------------------------------------------------------------------------
  // initHeroReveal

  /** How `initHeroReveal` ends. */
  datatype HeroReveal = NoHeroSection | Revealed(steps: seq<LoadStep>)

  /** The two steps every hero reveal starts with, both at 0: the hero is made
      visible, and the two wraps that exist are hidden and moved down. */
  function RevealHead(hero: Element): seq<LoadStep>
  {
    [Step(Target(HeroSection, [hero]), Set, NoMove, Show, NoCleanup, Abs(0.0)),
     Step(Target(Wraps, Present([QuerySelector(hero, WrapPSel), QuerySelector(hero, WrapButtonsSel)])), Set, MoveY("20"), Hide, NoCleanup, Abs(0.0))]
  }

  /** The lines step: the lines move up at the load delay of 0.3 s; present
      only when there is at least one line. */
  function LinesStep(lines: seq<Element>): Option<LoadStep>
  {
    if |lines| > 0 then Some(Step(Target(Lines, lines), To, MoveY("0"), Untouched, NoCleanup, Abs(300.0))) else None
  }

  /** A wrap step: the wrap fades in and moves up 0.6 s before the end of the
      timeline; present only when the wrap exists. */
  function WrapStep(role: LoadRole, wrap: Option<Element>): Option<LoadStep>
  {
    match wrap
    case Some(w) => Some(Step(Target(role, [w]), To, MoveY("0"), Show, NoCleanup, Relative(-600.0)))
    case None => None
  }

  /** The nav step: the nav fades in and moves up 0.8 s before the end of the
      timeline; present only when the document has a nav. */
  function NavShowStep(nav: Option<Element>): Option<LoadStep>
  {
    match nav
    case Some(n) => Some(Step(Target(Nav, [n]), To, MoveY("0"), Show, NoCleanup, Relative(-800.0)))
    case None => None
  }

  /** The hero reveal timeline, given the document and its hero section: the
      head, then, each only when the page has it, the lines, the paragraph
      wrap, the button wrap and the nav. */
  function HeroRevealPlan(doc: Element, hero: Element): seq<LoadStep>
  {
    RevealHead(hero)
    + Opt(LinesStep(QuerySelectorAll(hero, SingleLine)))
    + Opt(WrapStep(WrapP, QuerySelector(hero, WrapPSel)))
    + Opt(WrapStep(WrapButtons, QuerySelector(hero, WrapButtonsSel)))
    + Opt(NavShowStep(QuerySelector(doc, Tag("nav"))))
  }

  lemma RevealHeadRoles(hero: Element)
    ensures var head := RevealHead(hero);
      |head| == 2 && head[0].target.role == HeroSection && head[1].target.role == Wraps
      && DistinctRoles(head) && !HasRole(head, Lines) && !HasRole(head, WrapP)
      && !HasRole(head, WrapButtons) && !HasRole(head, Nav)
  {
  }

  /** No group is animated twice, and each optional group is animated, by its
      one step, exactly when the page has it. */
  lemma HeroRevealRoles(doc: Element, hero: Element)
    ensures var plan := HeroRevealPlan(doc, hero);
      DistinctRoles(plan)
      && StepFor(plan, Lines, LinesStep(QuerySelectorAll(hero, SingleLine)))
      && StepFor(plan, WrapP, WrapStep(WrapP, QuerySelector(hero, WrapPSel)))
      && StepFor(plan, WrapButtons, WrapStep(WrapButtons, QuerySelector(hero, WrapButtonsSel)))
      && StepFor(plan, Nav, NavShowStep(QuerySelector(doc, Tag("nav"))))
  {
    var head := RevealHead(hero);
    var lines := LinesStep(QuerySelectorAll(hero, SingleLine));
    RevealHeadRoles(hero);
    AppendOpt(head, lines, Lines);
    AppendOpts(head + Opt(lines), WrapStep(WrapP, QuerySelector(hero, WrapPSel)),
      WrapStep(WrapButtons, QuerySelector(hero, WrapButtonsSel)), NavShowStep(QuerySelector(doc, Tag("nav"))),
      WrapP, WrapButtons, Nav);
  }

  /** The steps `initHeroReveal` adds once the hero section is found. */
  method HeroRevealTimeline(doc: Element, hero: Element) returns (steps: seq<LoadStep>)
    ensures steps == HeroRevealPlan(doc, hero)
  {
    var wrapP := QuerySelector(hero, WrapPSel);
    var wrapButtons := QuerySelector(hero, WrapButtonsSel);
    var tl := new Builder<Target<LoadRole>>();
    tl.Add(Step(Target(HeroSection, [hero]), Set, NoMove, Show, NoCleanup, Abs(0.0)));
    tl.Add(Step(Target(Wraps, Present([wrapP, wrapButtons])), Set, MoveY("20"), Hide, NoCleanup, Abs(0.0)));
    assert tl.steps == RevealHead(hero);
    tl.AddIf(LinesStep(QuerySelectorAll(hero, SingleLine)));
    tl.AddIf(WrapStep(WrapP, wrapP));
    tl.AddIf(WrapStep(WrapButtons, wrapButtons));
    tl.AddIf(NavShowStep(QuerySelector(doc, Tag("nav"))));
    steps := tl.steps;
  }

  /** `initHeroReveal`: nothing without `[data-hero-section]`, otherwise the
      hero reveal plan. */
  method InitHeroReveal(doc: Element) returns (r: HeroReveal)
    ensures r.NoHeroSection? <==> !Contains(doc, HeroSectionSel)
    ensures r.Revealed? ==> Contains(doc, HeroSectionSel) && r.steps == HeroRevealPlan(doc, QuerySelector(doc, HeroSectionSel).value)
  {
    var hero := QuerySelector(doc, HeroSectionSel);
    if hero.None? {
      return NoHeroSection;
    }
    var steps := HeroRevealTimeline(doc, hero.value);
    r := Revealed(steps);
  }

  lemma HeroRevealStartsWithHead(doc: Element, hero: Element)
    ensures |HeroRevealPlan(doc, hero)| >= 2 && HeroRevealPlan(doc, hero)[1] == RevealHead(hero)[1]
  {
    var rest := Opt(LinesStep(QuerySelectorAll(hero, SingleLine))) + Opt(WrapStep(WrapP, QuerySelector(hero, WrapPSel)))
      + Opt(WrapStep(WrapButtons, QuerySelector(hero, WrapButtonsSel))) + Opt(NavShowStep(QuerySelector(doc, Tag("nav"))));
    assert HeroRevealPlan(doc, hero) == RevealHead(hero) + rest;
  }

  /** Every wrap the reveal hides at the start is faded in again by a step of
      its own. */
  lemma HiddenWrapsAreShown(doc: Element, hero: Element, w: Element)
    requires w in HeroRevealPlan(doc, hero)[1].target.nodes
    ensures exists s :: s in HeroRevealPlan(doc, hero) && s.target.nodes == [w] && s.alpha == Show
  {
    var wrapP := QuerySelector(hero, WrapPSel);
    var wrapButtons := QuerySelector(hero, WrapButtonsSel);
    HeroRevealStartsWithHead(doc, hero);
    assert Some(w) in [wrapP, wrapButtons];
    HeroRevealRoles(doc, hero);
    if wrapP == Some(w) {
      assert WrapStep(WrapP, wrapP).value in HeroRevealPlan(doc, hero);
    } else {
      assert WrapStep(WrapButtons, wrapButtons).value in HeroRevealPlan(doc, hero);
    }
  }

  // ---------------------------------------------------------------------------
  // initWelcomingWordsLoader

  /** The words of a `data-loading-words` value: the pieces between commas,
      each trimmed. */
  function ParseWords(attr: string): (words: seq<string>)
    ensures |words| == |Split(attr, ',')|
    ensures forall k :: 0 <= k < |words| ==> words[k] == Trim(Split(attr, ',')[k])
  {
    var pieces := Split(attr, ',');
    seq(|pieces|, k requires 0 <= k < |pieces| => Trim(pieces[k]))
  }

  /** There is one word more than there are commas, so even a value without
      a comma gives one word; no word has a comma in it or white space at
      either end. */
  lemma WordCount(attr: string)
    ensures |ParseWords(attr)| == Count(attr, ',') + 1
    ensures forall k :: 0 <= k < |ParseWords(attr)| ==> ',' !in ParseWords(attr)[k]
    ensures forall k :: 0 <= k < |ParseWords(attr)| && ParseWords(attr)[k] != [] ==>
      !IsSpace(ParseWords(attr)[k][0]) && !IsSpace(ParseWords(attr)[k][|ParseWords(attr)[k]| - 1])
  {
    SplitCount(attr, ',');
    forall k | 0 <= k < |ParseWords(attr)|
      ensures ',' !in ParseWords(attr)[k]
      ensures ParseWords(attr)[k] != [] ==>
        !IsSpace(ParseWords(attr)[k][0]) && !IsSpace(ParseWords(attr)[k][|ParseWords(attr)[k]| - 1])
    {
      WordShape(attr, k);
    }
  }

  lemma WordShape(attr: string, k: nat)
    requires k < |ParseWords(attr)|
    ensures ',' !in ParseWords(attr)[k]
    ensures ParseWords(attr)[k] != [] ==>
      !IsSpace(ParseWords(attr)[k][0]) && !IsSpace(ParseWords(attr)[k][|ParseWords(attr)[k]| - 1])
  {
    var piece := Split(attr, ',')[k];
    assert ParseWords(attr)[k] == Trim(piece);
    TrimIsInfix(piece);
  }

  /** Trimming keeps a contiguous part of the string, so it adds no character. */
  lemma TrimIsInfix(s: string)
    ensures forall c :: c in Trim(s) ==> c in s
  {
    var t := TrimStart(s);
    assert forall c :: c in t ==> c in s by {
      forall c | c in t ensures c in s {
        var k :| 0 <= k < |t| && t[k] == c;
        assert s[|s| - |t| + k] == c;
      }
    }
    assert forall c :: c in TrimEnd(t) ==> c in t by {
      forall c | c in TrimEnd(t) ensures c in t {
        var k :| 0 <= k < |TrimEnd(t)| && TrimEnd(t)[k] == c;
        assert t[k] == c;
      }
    }
  }

  /** What the word timeline animates: the words element, the text swap to one
      word (its nodes are the words target, if any), and the container. */
  datatype WordRole = WordsBox | SwapTo(word: string) | ContainerBox

  type WordStep = Step<Target<WordRole>>

  /** How `initWelcomingWordsLoader` ends. */
  datatype Loader =
    | NoContainer(hero: HeroReveal)   // no loading container: the hero reveal runs at once
    | NoWordsElement                  // no `[data-loading-words]`: reading it throws a TypeError
    | NoWordList                      // the word list is missing or empty: logged, nothing runs
    | Running(words: seq<string>, steps: seq<WordStep>)   // the hero reveal runs when the timeline completes

  /** The first two steps of the word timeline: the words start half a line
      down and invisible, then fade in and move up. */
  function WordsIn(box: Element): seq<WordStep>
  {
    [Step(Target(WordsBox, [box]), Set, ShiftYPercent(50.0), Hide, NoCleanup, AfterPrevious),
     Step(Target(WordsBox, [box]), To, ShiftYPercent(0.0), Show, NoCleanup, AfterPrevious)]
  }

  /** The last two steps: the words fade out upwards, and the container fades
      out, starting 0.2 s before the words have finished. */
  function WordsOut(box: Element, container: Element): seq<WordStep>
  {
    [Step(Target(WordsBox, [box]), To, ShiftYPercent(-75.0), Hide, NoCleanup, AfterPrevious),
     Step(Target(ContainerBox, [container]), To, NoMove, Hide, NoCleanup, Relative(-200.0))]
  }

  /** The text swap to `word`, 0.3 s after the previous step ends. */
  function Swap(word: string, target: seq<Element>): WordStep
  {
    Step(Target(SwapTo(word), target), Call, NoMove, Untouched, NoCleanup, Relative(300.0))
  }

  /** The word timeline: the fade-in, one text swap per word in the order of
      the list, then the fade-out. */
  ghost predicate IsWordTimeline(container: Element, box: Element, target: seq<Element>, words: seq<string>, steps: seq<WordStep>)
  {
    |steps| == |words| + 4
    && steps[..2] == WordsIn(box) && steps[|words| + 2..] == WordsOut(box, container)
    && forall k :: 0 <= k < |words| ==> steps[k + 2] == Swap(words[k], target)
  }

  /** The loop of `initWelcomingWordsLoader` that adds one text swap per word. */
  method WordTimeline(container: Element, box: Element, target: seq<Element>, words: seq<string>)
    returns (steps: seq<WordStep>)
    ensures IsWordTimeline(container, box, target, words, steps)
  {
    var tl := new Builder<Target<WordRole>>();
    tl.Add(WordsIn(box)[0]);
    tl.Add(WordsIn(box)[1]);
    for k := 0 to |words|
      invariant |tl.steps| == k + 2
      invariant tl.steps[..2] == WordsIn(box)
      invariant forall j :: 0 <= j < k ==> tl.steps[j + 2] == Swap(words[j], target)
    {
      tl.Add(Swap(words[k], target));
    }
    tl.Add(WordsOut(box, container)[0]);
    tl.Add(WordsOut(box, container)[1]);
    steps := tl.steps;
  }

  /** The words the text-swap steps of `steps` show, in order. */
  function SwappedWords(steps: seq<WordStep>): seq<string>
  {
    if steps == [] then []
    else
      (if steps[0].kind == Call && steps[0].target.role.SwapTo? then [steps[0].target.role.word] else [])
      + SwappedWords(steps[1..])
  }

  lemma {:induction false} SwappedWordsAppend(a: seq<WordStep>, b: seq<WordStep>)
    ensures SwappedWords(a + b) == SwappedWords(a) + SwappedWords(b)
  {
    if a == [] {
      assert a + b == b;
    } else {
      var c := a + b;
      assert c[0] == a[0] && c[1..] == a[1..] + b;
      SwappedWordsAppend(a[1..], b);
    }
  }

  lemma {:induction false} SwappedWordsOfSwaps(mid: seq<WordStep>, words: seq<string>, target: seq<Element>)
    requires |mid| == |words|
    requires forall k :: 0 <= k < |words| ==> mid[k] == Swap(words[k], target)
    ensures SwappedWords(mid) == words
  {
    if words != [] {
      SwappedWordsOfSwaps(mid[1..], words[1..], target);
      assert words == [words[0]] + words[1..];
    }
  }

  /** The timeline swaps the text to exactly the listed words, each once, in
      the order of the list: nothing before or after the words swaps text. */
  lemma SwapsFollowWords(container: Element, box: Element, target: seq<Element>, words: seq<string>, steps: seq<WordStep>)
    requires IsWordTimeline(container, box, target, words, steps)
    ensures SwappedWords(steps) == words
  {
    var n := |words|;
    var mid := steps[2..n + 2];
    assert steps == steps[..2] + mid + steps[n + 2..];
    SwappedWordsAppend(steps[..2] + mid, steps[n + 2..]);
    SwappedWordsAppend(steps[..2], mid);
    SwappedWordsOfSwaps(mid, words, target);
    assert SwappedWords(WordsIn(box)) == [] by {
      assert WordsIn(box)[1..][1..] == [];
    }
    assert SwappedWords(WordsOut(box, container)) == [] by {
      assert WordsOut(box, container)[1..][1..] == [];
    }
  }

  /** `initWelcomingWordsLoader`. */
  method InitWelcomingWordsLoader(doc: Element) returns (r: Loader)
    ensures r.NoContainer? <==> !Contains(doc, ContainerSel)
    ensures r.NoContainer? ==>
      (r.hero.NoHeroSection? <==> !Contains(doc, HeroSectionSel))
      && (r.hero.Revealed? ==> r.hero.steps == HeroRevealPlan(doc, QuerySelector(doc, HeroSectionSel).value))
    ensures r.NoWordsElement? <==>
      Contains(doc, ContainerSel) && !Contains(QuerySelector(doc, ContainerSel).value, WordsSel)
    ensures r.NoWordList? <==>
      Contains(doc, ContainerSel) && Contains(QuerySelector(doc, ContainerSel).value, WordsSel)
      && GetAttr(QuerySelector(QuerySelector(doc, ContainerSel).value, WordsSel).value, "data-loading-words") in {None, Some("")}
    ensures r.Running? ==>
      Contains(doc, ContainerSel) && Contains(QuerySelector(doc, ContainerSel).value, WordsSel)
      && var container := QuerySelector(doc, ContainerSel).value;
         var box := QuerySelector(container, WordsSel).value;
         GetAttr(box, "data-loading-words").Some?
         && r.words == ParseWords(GetAttr(box, "data-loading-words").value)
         && IsWordTimeline(container, box, Present([QuerySelector(box, WordsTargetSel)]), r.words, r.steps)
  {
    var container := QuerySelector(doc, ContainerSel);
    if container.None? {
      var hero := InitHeroReveal(doc);
      return NoContainer(hero);
    }
    var box := QuerySelector(container.value, WordsSel);
    if box.None? {
      return NoWordsElement;
    }
    var target := QuerySelector(box.value, WordsTargetSel);
    var attr := GetAttr(box.value, "data-loading-words");
    if attr.None? || attr.value == "" {
      return NoWordList;
    }
    var words := ParseWords(attr.value);
    var steps := WordTimeline(container.value, box.value, Present([target]), words);
    r := Running(words, steps);
  }

  /** The word timeline's `onComplete`: the hero reveal starts only now. */
  method LoaderComplete(doc: Element) returns (hero: HeroReveal)
    ensures hero.NoHeroSection? <==> !Contains(doc, HeroSectionSel)
    ensures hero.Revealed? ==> hero.steps == HeroRevealPlan(doc, QuerySelector(doc, HeroSectionSel).value)
  {
    hero := InitHeroReveal(doc);
  }

  // ---------------------------------------------------------------------------
  // init

  /** `init`, once the libraries are found: with a loading container the
      welcome loader runs (and the hero waits for it), otherwise the hero
      reveal runs at once. */
  method Init(doc: Element) returns (r: Loader)
    ensures Contains(doc, ContainerSel) <==> !r.NoContainer?
    ensures r.NoContainer? ==> (r.hero.NoHeroSection? <==> !Contains(doc, HeroSectionSel))
    ensures r.NoContainer? && r.hero.Revealed? ==>
      Contains(doc, HeroSectionSel) && r.hero.steps == HeroRevealPlan(doc, QuerySelector(doc, HeroSectionSel).value)
    ensures r.Running? ==>
      Contains(doc, ContainerSel) && Contains(QuerySelector(doc, ContainerSel).value, WordsSel)
      && var box := QuerySelector(QuerySelector(doc, ContainerSel).value, WordsSel).value;
         GetAttr(box, "data-loading-words").Some?
         && r.words == ParseWords(GetAttr(box, "data-loading-words").value) && SwappedWords(r.steps) == r.words
  {
    if Contains(doc, ContainerSel) {
      r := InitWelcomingWordsLoader(doc);
      if r.Running? {
        var container := QuerySelector(doc, ContainerSel).value;
        var box := QuerySelector(container, WordsSel).value;
        SwapsFollowWords(container, box, Present([QuerySelector(box, WordsTargetSel)]), r.words, r.steps);
      }
    } else {
      var hero := InitHeroReveal(doc);
      r := NoContainer(hero);
    }
  }
}
