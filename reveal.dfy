/** The reveal-group planner of gsap-reveal.js: for each `[data-reveal-group]`
    element it reads the group configuration, sorts the direct children into
    item and nested slots, plans the hidden initial state and the reveal
    timeline with its start offsets, and binds the timeline to a one-shot
    scroll trigger whose completion may notify carousels. */
module Reveal {
  import opened Dom
  import opened JsValues
  import opened Timeline

  const NestedMarker := HasAttr("data-reveal-group-nested")
  const SwiperWrap := HasAttr("data-swiper-wrap")

  // ---------------------------------------------------------------------------
  // Configuration

  /** Group-level configuration; the stagger is in milliseconds. */
  datatype GroupConfig = GroupConfig(staggerMs: real, distance: string, start: string)

  /** Reads data-stagger, data-distance and data-start with their defaults. */
  function ParseGroupConfig(g: Element): (c: GroupConfig)
    ensures var n := ParseAttr(GetAttr(g, "data-stagger"));
      && (n.Num? && n.value != 0.0 ==> c.staggerMs == n.value)
      && (n.NaN? || n.value == 0.0 ==> c.staggerMs == 100.0)
    ensures c.staggerMs != 0.0
    ensures "data-distance" in g.attrs && g.attrs["data-distance"] != "" ==> c.distance == g.attrs["data-distance"]
    ensures !("data-distance" in g.attrs && g.attrs["data-distance"] != "") ==> c.distance == "2em"
    ensures "data-start" in g.attrs && g.attrs["data-start"] != "" ==> c.start == g.attrs["data-start"]
    ensures !("data-start" in g.attrs && g.attrs["data-start"] != "") ==> c.start == "top 80%"
  {
    GroupConfig(
      OrNumber(ParseAttr(GetAttr(g, "data-stagger")), 100.0),
      OrString(GetAttr(g, "data-distance"), "2em"),
      OrString(GetAttr(g, "data-start"), "top 80%"))
  }

  /** A data-stagger written as a positive whole number of milliseconds is
      taken as it is written. */
  lemma StaggerAttributeIsRead(g: Element, n: nat)
    requires n > 0 && GetAttr(g, "data-stagger") == Some(NatToString(n))
    ensures ParseGroupConfig(g).staggerMs == n as real
  {
    ParseFloatOfNatToString(n);
  }

  /** The nested stagger: the nested element's own data-stagger unless that
      parses to NaN; unlike the group stagger, an explicit 0 is kept. */
  function NestedStagger(nestedEl: Element, cfg: GroupConfig): (ms: real)
    ensures ParseAttr(GetAttr(nestedEl, "data-stagger")).NaN? ==> ms == cfg.staggerMs
    ensures ParseAttr(GetAttr(nestedEl, "data-stagger")).Num? ==> ms == ParseAttr(GetAttr(nestedEl, "data-stagger")).value
  {
    match ParseAttr(GetAttr(nestedEl, "data-stagger"))
    case NaN => cfg.staggerMs
    case Num(v) => v
  }

  lemma NestedZeroStaggerKept(nestedEl: Element, cfg: GroupConfig)
    requires GetAttr(nestedEl, "data-stagger") == Some("0")
    ensures NestedStagger(nestedEl, cfg) == 0.0
  {
    ParseFloatOfNatToString(0);
  }

  // ---------------------------------------------------------------------------
  // Slots

  datatype Slot = Item(el: Element) | Nested(parentEl: Element, nestedEl: Element, includeParent: bool)

  /** The child itself when it carries the nested marker, else its first
      descendant that does. */
  function NestedGroupOf(child: Element): (r: Option<Element>)
    ensures r.Some? <==> IsOrContains(child, NestedMarker)
    ensures r.Some? ==> Matches(r.value, NestedMarker)
    ensures r.Some? ==> r.value == child || r.value in Descendants(child)
  {
    if Matches(child, NestedMarker) then Some(child) else QuerySelector(child, NestedMarker)
  }

  predicate IgnoreIsFalse(e: Element)
  {
    GetAttr(e, "data-ignore") == Some("false")
  }

  /** The slot a direct child becomes. */
  function Classify(child: Element): (s: Slot)
    ensures s.Nested? <==> IsOrContains(child, NestedMarker)
    ensures s.Item? ==> s.el == child && !Matches(child, NestedMarker)
    ensures s.Nested? ==> s.parentEl == child && Matches(s.nestedEl, NestedMarker)
    ensures s.Nested? ==> s.nestedEl == child || s.nestedEl in Descendants(child)
    ensures s.Nested? ==> (s.includeParent <==> IgnoreIsFalse(child) || IgnoreIsFalse(s.nestedEl))
  {
    match NestedGroupOf(child)
    case Some(n) => Nested(child, n, IgnoreIsFalse(child) || IgnoreIsFalse(n))
    case None => Item(child)
  }

  /** The slots of a group: one per direct child, in child order. */
  method BuildSlots(children: seq<Element>) returns (slots: seq<Slot>)
    ensures |slots| == |children|
    ensures forall i :: 0 <= i < |children| ==> slots[i] == Classify(children[i])
  {
    slots := [];
    for i := 0 to |children|
      invariant |slots| == i
      invariant forall j :: 0 <= j < i ==> slots[j] == Classify(children[j])
    {
      slots := slots + [Classify(children[i])];
    }
  }

  function SlotsOf(children: seq<Element>): (slots: seq<Slot>)
    ensures |slots| == |children|
  {
    seq(|children|, i requires 0 <= i < |children| => Classify(children[i]))
  }

  // ---------------------------------------------------------------------------
  // The initial hidden state

  predicate IsSwiperElement(e: Element)
  {
    IsOrContains(e, SwiperWrap)
  }

  function HideStep(e: Element, d: string): Step<Element>
  {
    Step(e, Set, MoveY(d), Hide, NoCleanup, Abs(0.0))
  }

  function KeepVisibleStep(e: Element, d: string): Step<Element>
  {
    Step(e, Set, MoveY(d), ForceVisible, NoCleanup, Abs(0.0))
  }

  /** The distance an item slot starts from. */
  function ItemDistance(el: Element, cfg: GroupConfig): string
  {
    if Matches(el, NestedMarker) then cfg.distance else OrString(GetAttr(el, "data-distance"), cfg.distance)
  }

  /** The initial state of one target, `d` below its place: swiper elements
      are forced visible, every other target is hidden. */
  function InitialTargetStep(e: Element, d: string): (r: Step<Element>)
    ensures r.target == e && r.kind == Set && r.y == MoveY(d) && r.pos == Abs(0.0)
    ensures IsSwiperElement(e) ==> r.alpha == ForceVisible
    ensures !IsSwiperElement(e) ==> r.alpha == Hide
  {
    if IsSwiperElement(e) then KeepVisibleStep(e, d) else HideStep(e, d)
  }

  function NestedInitial(cs: seq<Element>, d: string): (r: seq<Step<Element>>)
    ensures |r| == |cs|
  {
    seq(|cs|, k requires 0 <= k < |cs| => InitialTargetStep(cs[k], d))
  }

  function SlotInitial(slot: Slot, cfg: GroupConfig): seq<Step<Element>>
  {
    match slot
    case Item(el) =>
      if IsSwiperElement(el) then [KeepVisibleStep(el, cfg.distance)] else [HideStep(el, ItemDistance(el, cfg))]
    case Nested(p, n, inc) =>
      (if inc then [HideStep(p, cfg.distance)] else [])
      + NestedInitial(n.children, OrString(GetAttr(n, "data-distance"), cfg.distance))
  }

  /** The initial steps of the first `n` slots. */
  function InitialPlan(slots: seq<Slot>, cfg: GroupConfig, n: nat): seq<Step<Element>>
    requires n <= |slots|
  {
    if n == 0 then [] else InitialPlan(slots, cfg, n - 1) + SlotInitial(slots[n - 1], cfg)
  }

  /** The second pass re-asserts an included parent's distance. */
  function SlotReassert(slot: Slot, cfg: GroupConfig): seq<Step<Element>>
  {
    if slot.Nested? && slot.includeParent
    then [Step(slot.parentEl, Set, MoveY(cfg.distance), Untouched, NoCleanup, Abs(0.0))]
    else []
  }

  function ReassertPlan(slots: seq<Slot>, cfg: GroupConfig, n: nat): seq<Step<Element>>
    requires n <= |slots|
  {
    if n == 0 then [] else ReassertPlan(slots, cfg, n - 1) + SlotReassert(slots[n - 1], cfg)
  }

  /** The initial state of one slot, the body of the first `slots.forEach`. */
  method SlotInitialSteps(slot: Slot, cfg: GroupConfig) returns (steps: seq<Step<Element>>)
    ensures steps == SlotInitial(slot, cfg)
  {
    match slot
    case Item(el) =>
      if !IsSwiperElement(el) {
        steps := [HideStep(el, ItemDistance(el, cfg))];
      } else {
        steps := [KeepVisibleStep(el, cfg.distance)];
      }
    case Nested(p, n, inc) =>
      steps := [];
      if inc {
        steps := [HideStep(p, cfg.distance)];
      }
      var nestedD := OrString(GetAttr(n, "data-distance"), cfg.distance);
      ghost var before := steps;
      for k := 0 to |n.children|
        invariant steps == before + NestedInitial(n.children[..k], nestedD)
      {
        assert n.children[..k + 1] == n.children[..k] + [n.children[k]];
        steps := steps + [InitialTargetStep(n.children[k], nestedD)];
      }
      assert n.children[..|n.children|] == n.children;
  }

  /** The second `slots.forEach`: re-asserts the distance of included parents. */
  method ReassertParents(slots: seq<Slot>, cfg: GroupConfig) returns (steps: seq<Step<Element>>)
    ensures steps == ReassertPlan(slots, cfg, |slots|)
  {
    steps := [];
    for i := 0 to |slots|
      invariant steps == ReassertPlan(slots, cfg, i)
    {
      if slots[i].Nested? && slots[i].includeParent {
        steps := steps + [Step(slots[i].parentEl, Set, MoveY(cfg.distance), Untouched, NoCleanup, Abs(0.0))];
      }
    }
  }

  /** The initial hidden state of a group: every slot in order, then the pass
      that re-asserts the distance of included parents. */
  method BuildInitialState(slots: seq<Slot>, cfg: GroupConfig) returns (steps: seq<Step<Element>>)
    ensures steps == InitialPlan(slots, cfg, |slots|) + ReassertPlan(slots, cfg, |slots|)
  {
    steps := [];
    for i := 0 to |slots|
      invariant steps == InitialPlan(slots, cfg, i)
    {
      var more := SlotInitialSteps(slots[i], cfg);
      steps := steps + more;
    }
    var again := ReassertParents(slots, cfg);
    steps := steps + again;
  }

  // ---------------------------------------------------------------------------
  // The reveal timeline

  /** Start of slot `i`: slot index times the group stagger. */
  function SlotTime(i: nat, cfg: GroupConfig): real
  {
    i as real * cfg.staggerMs
  }

  /** The tween that reveals one target; swiper elements move on y only and
      have only their transform cleared afterwards. */
  function RevealStep(e: Element, t: real): (r: Step<Element>)
    ensures r.target == e && r.kind == To && r.y == MoveY("0") && r.pos == Abs(t)
    ensures IsSwiperElement(e) ==> r.alpha == Untouched && r.cleanup == ClearTransform
    ensures !IsSwiperElement(e) ==> r.alpha == Show && r.cleanup == ClearAll
  {
    if IsSwiperElement(e) then Step(e, To, MoveY("0"), Untouched, ClearTransform, Abs(t))
    else Step(e, To, MoveY("0"), Show, ClearAll, Abs(t))
  }

  /** Start of a nested child: the slot's time plus its index times the nested stagger. */
  function NestedStart(slotTime: real, nestedIndex: int, nestedMs: real): real
  {
    slotTime + nestedIndex as real * nestedMs
  }

  function NestedReveal(cs: seq<Element>, t: real, ms: real): (r: seq<Step<Element>>)
    ensures |r| == |cs|
  {
    seq(|cs|, k requires 0 <= k < |cs| => RevealStep(cs[k], NestedStart(t, k, ms)))
  }

  function ParentCount(slot: Slot): nat
  {
    if slot.Nested? && slot.includeParent then 1 else 0
  }

  function SlotReveal(slot: Slot, i: nat, cfg: GroupConfig): (r: seq<Step<Element>>)
    ensures |r| == ParentCount(slot) + (if slot.Nested? then |slot.nestedEl.children| else 1)
  {
    var t := SlotTime(i, cfg);
    match slot
    case Item(el) => [RevealStep(el, t)]
    case Nested(p, n, inc) =>
      (if inc then [Step(p, To, MoveY("0"), Show, ClearAll, Abs(t))] else [])
      + NestedReveal(n.children, t, NestedStagger(n, cfg))
  }

  /** The reveal steps of the first `n` slots. */
  function RevealPlan(slots: seq<Slot>, cfg: GroupConfig, n: nat): seq<Step<Element>>
    requires n <= |slots|
  {
    if n == 0 then [] else RevealPlan(slots, cfg, n - 1) + SlotReveal(slots[n - 1], n - 1, cfg)
  }

  /** The nested children's tweens, each `nestedIndex * nestedStagger` after the slot's time. */
  method NestedChildrenReveal(cs: seq<Element>, slotTime: real, nestedMs: real) returns (steps: seq<Step<Element>>)
    ensures steps == NestedReveal(cs, slotTime, nestedMs)
  {
    steps := [];
    for nestedIndex := 0 to |cs|
      invariant |steps| == nestedIndex
      invariant forall j :: 0 <= j < nestedIndex ==> steps[j] == RevealStep(cs[j], NestedStart(slotTime, j, nestedMs))
    {
      steps := steps + [RevealStep(cs[nestedIndex], NestedStart(slotTime, nestedIndex, nestedMs))];
    }
  }

  /** The tweens of one slot, the body of the `slots.forEach` inside `onEnter`. */
  method SlotRevealSteps(slot: Slot, slotIndex: nat, cfg: GroupConfig) returns (steps: seq<Step<Element>>)
    ensures steps == SlotReveal(slot, slotIndex, cfg)
  {
    var slotTime := SlotTime(slotIndex, cfg);
    match slot
    case Item(el) =>
      steps := [RevealStep(el, slotTime)];
    case Nested(p, n, inc) =>
      steps := [];
      if inc {
        steps := [Step(p, To, MoveY("0"), Show, ClearAll, Abs(slotTime))];
      }
      var nestedMs := NestedStagger(n, cfg);
      var children := NestedChildrenReveal(n.children, slotTime, nestedMs);
      steps := steps + children;
  }

  /** Builds the timeline the scroll trigger plays, slot by slot. */
  method BuildRevealTimeline(slots: seq<Slot>, cfg: GroupConfig) returns (steps: seq<Step<Element>>)
    ensures steps == RevealPlan(slots, cfg, |slots|)
  {
    steps := [];
    for slotIndex := 0 to |slots|
      invariant steps == RevealPlan(slots, cfg, slotIndex)
    {
      var more := SlotRevealSteps(slots[slotIndex], slotIndex, cfg);
      steps := steps + more;
    }
  }

  /** The start the offset rule assigns to the `k`-th step of a slot: the
      slot's time, plus the nested stagger times the child's index for the
      children of a nested slot (after the included parent, if any). */
  function ExpectedStart(slot: Slot, i: nat, k: nat, cfg: GroupConfig): real
  {
    if slot.Nested? && k >= ParentCount(slot)
    then NestedStart(SlotTime(i, cfg), k - ParentCount(slot), NestedStagger(slot.nestedEl, cfg))
    else SlotTime(i, cfg)
  }

  lemma SlotRevealStarts(slot: Slot, i: nat, k: nat, cfg: GroupConfig)
    requires k < |SlotReveal(slot, i, cfg)|
    ensures SlotReveal(slot, i, cfg)[k].pos == Abs(ExpectedStart(slot, i, k, cfg))
    ensures SlotReveal(slot, i, cfg)[k].kind == To
    ensures k < ParentCount(slot) ==>
      SlotReveal(slot, i, cfg)[k] == Step(slot.parentEl, To, MoveY("0"), Show, ClearAll, Abs(SlotTime(i, cfg)))
    ensures k >= ParentCount(slot) ==>
      SlotReveal(slot, i, cfg)[k] == RevealStep(SlotReveal(slot, i, cfg)[k].target, ExpectedStart(slot, i, k, cfg))
  {
    var t := SlotTime(i, cfg);
    if slot.Item? {
      assert SlotReveal(slot, i, cfg)[k] == RevealStep(slot.el, t);
    } else {
      var pc := ParentCount(slot);
      var head: seq<Step<Element>> := if slot.includeParent then [Step(slot.parentEl, To, MoveY("0"), Show, ClearAll, Abs(t))] else [];
      var rest := NestedReveal(slot.nestedEl.children, t, NestedStagger(slot.nestedEl, cfg));
      assert SlotReveal(slot, i, cfg) == head + rest;
      assert |head| == pc;
      if k >= pc {
        assert SlotReveal(slot, i, cfg)[k] == rest[k - pc];
      } else {
        assert SlotReveal(slot, i, cfg)[k] == head[k];
      }
    }
  }

  /** The reveal timeline after each of the first `n` slots, and each slot's own steps. */
  ghost function RevealPrefixes(slots: seq<Slot>, cfg: GroupConfig, n: nat): seq<seq<Step<Element>>>
    requires n <= |slots|
  {
    seq(n + 1, m requires 0 <= m <= n => RevealPlan(slots, cfg, m))
  }

  ghost function RevealChunks(slots: seq<Slot>, cfg: GroupConfig, n: nat): seq<seq<Step<Element>>>
    requires n <= |slots|
  {
    seq(n, m requires 0 <= m < n => SlotReveal(slots[m], m, cfg))
  }

  /** One more slot appends that slot's steps. */
  lemma RevealPlanStep(slots: seq<Slot>, cfg: GroupConfig, m: nat)
    requires m < |slots|
    ensures RevealPlan(slots, cfg, m + 1) == RevealPlan(slots, cfg, m) + SlotReveal(slots[m], m, cfg)
  {
  }

  lemma RevealPlanBuilt(slots: seq<Slot>, cfg: GroupConfig, n: nat)
    requires n <= |slots|
    ensures BuiltFrom(RevealPrefixes(slots, cfg, n), RevealChunks(slots, cfg, n))
  {
    var prefixes := RevealPrefixes(slots, cfg, n);
    var chunks := RevealChunks(slots, cfg, n);
    forall m | 0 <= m < n
      ensures prefixes[m + 1] == prefixes[m] + chunks[m]
    {
      RevealPlanStep(slots, cfg, m);
    }
  }

  /** Slot `i`'s steps sit in the timeline right after those of the slots before it. */
  lemma RevealPlanSlot(slots: seq<Slot>, cfg: GroupConfig, n: nat, i: nat, k: nat)
    requires i < n <= |slots| && k < |SlotReveal(slots[i], i, cfg)|
    ensures |RevealPlan(slots, cfg, i)| + k < |RevealPlan(slots, cfg, n)|
    ensures RevealPlan(slots, cfg, n)[|RevealPlan(slots, cfg, i)| + k] == SlotReveal(slots[i], i, cfg)[k]
  {
    RevealPlanBuilt(slots, cfg, n);
    ChunkAt(RevealPrefixes(slots, cfg, n), RevealChunks(slots, cfg, n), i, k);
  }

  /** The offset rule: the `k`-th step of slot `i` starts at
      `i * groupStagger (+ nestedIndex * nestedStagger)`. */
  lemma RevealOffsets(slots: seq<Slot>, cfg: GroupConfig, i: nat, k: nat)
    requires i < |slots| && k < |SlotReveal(slots[i], i, cfg)|
    ensures var tl := RevealPlan(slots, cfg, |slots|);
      var j := |RevealPlan(slots, cfg, i)| + k;
      j < |tl| && tl[j].pos == Abs(ExpectedStart(slots[i], i, k, cfg))
  {
    RevealPlanSlot(slots, cfg, |slots|, i, k);
    SlotRevealStarts(slots[i], i, k, cfg);
  }

  /** Three item slots at the default 100 ms stagger start at 0, 100 and 200 ms. */
  lemma ThreeItemsExample(a: Element, b: Element, c: Element, cfg: GroupConfig)
    requires cfg.staggerMs == 100.0
    ensures var tl := RevealPlan([Item(a), Item(b), Item(c)], cfg, 3);
      |tl| == 3 && tl[0].pos == Abs(0.0) && tl[1].pos == Abs(100.0) && tl[2].pos == Abs(200.0)
  {
    var slots := [Item(a), Item(b), Item(c)];
    assert RevealPlan(slots, cfg, 1) == [RevealStep(a, 0.0)];
    assert RevealPlan(slots, cfg, 2) == [RevealStep(a, 0.0), RevealStep(b, 100.0)];
  }

  /** A nested slot at index 1 with a 50 ms nested stagger and two children
      starts them at 100 and 150 ms. */
  lemma NestedExample(a: Element, p: Element, n: Element, cfg: GroupConfig)
    requires cfg.staggerMs == 100.0 && |n.children| == 2
    requires NestedStagger(n, cfg) == 50.0
    ensures var tl := RevealPlan([Item(a), Nested(p, n, false)], cfg, 2);
      |tl| == 3 && tl[1].pos == Abs(100.0) && tl[2].pos == Abs(150.0)
  {
    var slots := [Item(a), Nested(p, n, false)];
    RevealPlanStep(slots, cfg, 0);
    RevealPlanStep(slots, cfg, 1);
    var nested := SlotReveal(slots[1], 1, cfg);
    assert |RevealPlan(slots, cfg, 1)| == 1 && |nested| == 2;
    SlotRevealStarts(slots[1], 1, 0, cfg);
    SlotRevealStarts(slots[1], 1, 1, cfg);
    assert RevealPlan(slots, cfg, 2)[1] == nested[0] && RevealPlan(slots, cfg, 2)[2] == nested[1];
  }

  // ---------------------------------------------------------------------------
  // A group's whole plan

  /** The one-shot scroll trigger that plays a group's reveal. */
  datatype Trigger = Trigger(start: string, once: bool, timeline: seq<Step<Element>>, swiperFollowUp: bool)

  /** What setting up one group produces: immediate steps and, unless motion
      is reduced, the trigger. */
  datatype GroupSetup = GroupSetup(initial: seq<Step<Element>>, trigger: Option<Trigger>)

  function ShowStep(e: Element): Step<Element>
  {
    Step(e, Set, MoveY("0"), Show, ClearAll, Abs(0.0))
  }

  function ReducedMotionSteps(g: Element): (r: seq<Step<Element>>)
    ensures |r| == 1 + |Descendants(g)|
  {
    [ShowStep(g)] + seq(|Descendants(g)|, i requires 0 <= i < |Descendants(g)| => ShowStep(Descendants(g)[i]))
  }

  /** The plan for one group, as a specification. */
  function GroupPlan(g: Element, reduced: bool): GroupSetup
  {
    var cfg := ParseGroupConfig(g);
    if reduced then GroupSetup(ReducedMotionSteps(g), None)
    else if g.children == [] then
      GroupSetup([HideStep(g, cfg.distance)],
        Some(Trigger(cfg.start, true, [Step(g, To, MoveY("0"), Show, ClearAll, Abs(0.0))], Contains(g, SwiperWrap))))
    else
      var slots := SlotsOf(g.children);
      GroupSetup(InitialPlan(slots, cfg, |slots|) + ReassertPlan(slots, cfg, |slots|),
        Some(Trigger(cfg.start, true, RevealPlan(slots, cfg, |slots|), Contains(g, SwiperWrap))))
  }

  /** Under reduced motion the group and every descendant are shown at once. */
  method ShowAll(g: Element) returns (all: seq<Step<Element>>)
    ensures all == ReducedMotionSteps(g)
  {
    all := [ShowStep(g)];
    var ds := Descendants(g);
    for i := 0 to |ds|
      invariant all == [ShowStep(g)] + seq(i, j requires 0 <= j < i => ShowStep(ds[j]))
    {
      all := all + [ShowStep(ds[i])];
    }
  }

  /** Sets up one group the way the script's per-group callback does. */
  method SetupGroup(g: Element, reduced: bool) returns (s: GroupSetup)
    ensures s == GroupPlan(g, reduced)
  {
    var cfg := ParseGroupConfig(g);
    if reduced {
      var all := ShowAll(g);
      return GroupSetup(all, None);
    }
    var containsSwiper := Contains(g, SwiperWrap);
    if g.children == [] {
      return GroupSetup([HideStep(g, cfg.distance)],
        Some(Trigger(cfg.start, true, [Step(g, To, MoveY("0"), Show, ClearAll, Abs(0.0))], containsSwiper)));
    }
    var slots := BuildSlots(g.children);
    assert slots == SlotsOf(g.children);
    var initial := BuildInitialState(slots, cfg);
    var timeline := BuildRevealTimeline(slots, cfg);
    s := GroupSetup(initial, Some(Trigger(cfg.start, true, timeline, containsSwiper)));
  }

  /** The plans of all groups, each depending on its own group only. */
  function GroupPlans(groups: seq<Element>, reduced: bool): (r: seq<GroupSetup>)
    ensures |r| == |groups|
    ensures forall i :: 0 <= i < |groups| ==> r[i] == GroupPlan(groups[i], reduced)
  {
    seq(|groups|, i requires 0 <= i < |groups| => GroupPlan(groups[i], reduced))
  }

  /** Every group has its plan among the plans of the groups. */
  lemma GroupPlansCover(groups: seq<Element>, reduced: bool)
    ensures forall g :: g in groups ==>
      exists i :: 0 <= i < |GroupPlans(groups, reduced)| && GroupPlans(groups, reduced)[i] == GroupPlan(g, reduced)
  {
    forall g | g in groups
      ensures exists i :: 0 <= i < |GroupPlans(groups, reduced)| && GroupPlans(groups, reduced)[i] == GroupPlan(g, reduced)
    {
      var i :| 0 <= i < |groups| && groups[i] == g;
      assert GroupPlans(groups, reduced)[i] == GroupPlan(g, reduced);
    }
  }

  /** The groups of a page. */
  const GroupSel := HasAttr("data-reveal-group")

  /** `initContentRevealScroll`: every `[data-reveal-group]` element of the
      document is set up on its own, in document order, a group nested in
      another one included; with no group at all nothing happens. */
  method InitContentRevealScroll(doc: Element, reduced: bool) returns (setups: seq<GroupSetup>)
    ensures setups == GroupPlans(QuerySelectorAll(doc, GroupSel), reduced)
    ensures setups == [] <==> !Contains(doc, GroupSel)
    ensures forall g :: g in Descendants(doc) && Matches(g, GroupSel) ==>
      exists i :: 0 <= i < |setups| && setups[i] == GroupPlan(g, reduced)
  {
    var groups := QuerySelectorAll(doc, GroupSel);
    setups := [];
    for i := 0 to |groups|
      invariant setups == GroupPlans(groups[..i], reduced)
    {
      var s := SetupGroup(groups[i], reduced);
      setups := setups + [s];
      assert groups[..i + 1] == groups[..i] + [groups[i]];
    }
    assert groups[..|groups|] == groups;
    QuerySelectorAllStartsWithFirst(doc, GroupSel);
    GroupPlansCover(groups, reduced);
  }

  // ---------------------------------------------------------------------------
  // Properties of a group's plan

  /** Reduced motion: the group and every descendant are set visible with
      y 0 and cleared properties, nothing is hidden and no trigger exists. */
  lemma ReducedMotionShowsAll(g: Element)
    ensures GroupPlan(g, true).trigger.None?
    ensures forall s :: s in GroupPlan(g, true).initial ==> s.kind == Set && s.alpha == Show && s.y == MoveY("0") && s.cleanup == ClearAll
    ensures forall e :: e == g || e in Descendants(g) ==> HasStepFor(GroupPlan(g, true).initial, e)
  {
    var steps := ReducedMotionSteps(g);
    var ds := Descendants(g);
    assert steps[0].target == g;
    forall e | e in ds
      ensures HasStepFor(steps, e)
    {
      var i :| 0 <= i < |ds| && ds[i] == e;
      assert steps[i + 1].target == e;
    }
  }

  /** A group without element children is its own sole target: hidden at the
      group distance, revealed by a single once-only trigger; it contains no
      swiper wrap, so no carousel follow-up is scheduled. */
  lemma ChildlessGroup(g: Element)
    requires g.children == []
    ensures var p := GroupPlan(g, false);
      && p.initial == [HideStep(g, ParseGroupConfig(g).distance)]
      && p.trigger.Some? && p.trigger.value.once
      && p.trigger.value.timeline == [Step(g, To, MoveY("0"), Show, ClearAll, Abs(0.0))]
      && !p.trigger.value.swiperFollowUp
  {
    LeafHasNoDescendants(g);
  }

  /** Without reduced motion every group gets exactly one trigger, once-only,
      at the configured start, with the swiper follow-up exactly when the
      group contains a swiper wrap. */
  lemma TriggerShape(g: Element)
    ensures var p := GroupPlan(g, false);
      && p.trigger.Some? && p.trigger.value.once
      && p.trigger.value.start == ParseGroupConfig(g).start
      && (p.trigger.value.swiperFollowUp <==> Contains(g, SwiperWrap))
  {
  }

  /** The steps of a slot that hide a target never hide a swiper element,
      except an included parent of a nested slot. */
  lemma SlotInitialSwiperSafe(slot: Slot, cfg: GroupConfig)
    ensures forall s :: s in SlotInitial(slot, cfg) && s.Hides() ==>
      !IsSwiperElement(s.target) || (slot.Nested? && slot.includeParent && s.target == slot.parentEl)
  {
    if slot.Nested? {
      var d := OrString(GetAttr(slot.nestedEl, "data-distance"), cfg.distance);
      var head: seq<Step<Element>> := if slot.includeParent then [HideStep(slot.parentEl, cfg.distance)] else [];
      var rest := NestedInitial(slot.nestedEl.children, d);
      assert SlotInitial(slot, cfg) == head + rest;
      forall s | s in rest && s.Hides()
        ensures !IsSwiperElement(s.target)
      {
        var k :| 0 <= k < |rest| && rest[k] == s;
        assert s == InitialTargetStep(slot.nestedEl.children[k], d);
      }
    }
  }

  /** The initial state after each of the first `n` slots, and each slot's own steps. */
  ghost function InitialPrefixes(slots: seq<Slot>, cfg: GroupConfig, n: nat): seq<seq<Step<Element>>>
    requires n <= |slots|
  {
    seq(n + 1, m requires 0 <= m <= n => InitialPlan(slots, cfg, m))
  }

  ghost function InitialChunks(slots: seq<Slot>, cfg: GroupConfig, n: nat): seq<seq<Step<Element>>>
    requires n <= |slots|
  {
    seq(n, m requires 0 <= m < n => SlotInitial(slots[m], cfg))
  }

  /** One more slot appends that slot's initial steps. */
  lemma InitialPlanStep(slots: seq<Slot>, cfg: GroupConfig, m: nat)
    requires m < |slots|
    ensures InitialPlan(slots, cfg, m + 1) == InitialPlan(slots, cfg, m) + SlotInitial(slots[m], cfg)
  {
  }

  lemma InitialPlanBuilt(slots: seq<Slot>, cfg: GroupConfig, n: nat)
    requires n <= |slots|
    ensures BuiltFrom(InitialPrefixes(slots, cfg, n), InitialChunks(slots, cfg, n))
  {
    var prefixes := InitialPrefixes(slots, cfg, n);
    var chunks := InitialChunks(slots, cfg, n);
    forall m | 0 <= m < n
      ensures prefixes[m + 1] == prefixes[m] + chunks[m]
    {
      InitialPlanStep(slots, cfg, m);
    }
  }

  lemma InitialPlanSwiperSafe(slots: seq<Slot>, cfg: GroupConfig, n: nat)
    requires n <= |slots|
    ensures forall s :: s in InitialPlan(slots, cfg, n) && s.Hides() ==>
      !IsSwiperElement(s.target)
      || exists i :: 0 <= i < n && slots[i].Nested? && slots[i].includeParent && s.target == slots[i].parentEl
  {
    var prefixes := InitialPrefixes(slots, cfg, n);
    var chunks := InitialChunks(slots, cfg, n);
    InitialPlanBuilt(slots, cfg, n);
    assert prefixes[n] == InitialPlan(slots, cfg, n);
    forall s | s in InitialPlan(slots, cfg, n) && s.Hides() && IsSwiperElement(s.target)
      ensures exists i :: 0 <= i < n && slots[i].Nested? && slots[i].includeParent && s.target == slots[i].parentEl
    {
      InSomeChunk(prefixes, chunks, s);
      var i :| 0 <= i < n && s in chunks[i];
      assert chunks[i] == SlotInitial(slots[i], cfg);
      SlotInitialSwiperSafe(slots[i], cfg);
    }
  }

  /** `e` is the included parent of a nested slot, the one target of a slot
      that is hidden and revealed whether it is a swiper element or not. */
  predicate IncludedParent(slot: Slot, e: Element)
  {
    slot.Nested? && slot.includeParent && e == slot.parentEl
  }

  /** Where a slot's targets start: an item from the group distance when it is
      a swiper element and from its own distance otherwise, a nested child
      from the nested element's distance; swiper elements are forced visible
      and every other target is hidden. */
  lemma SlotInitialDistances(slot: Slot, cfg: GroupConfig)
    ensures slot.Item? ==> (|SlotInitial(slot, cfg)| == 1
      && var s := SlotInitial(slot, cfg)[0];
         s.target == slot.el && s.kind == Set
         && s.y == MoveY(if IsSwiperElement(slot.el) then cfg.distance else ItemDistance(slot.el, cfg))
         && (s.alpha == ForceVisible <==> IsSwiperElement(slot.el))
         && (s.alpha == Hide <==> !IsSwiperElement(slot.el)))
    ensures slot.Nested? ==> (|SlotInitial(slot, cfg)| == ParentCount(slot) + |slot.nestedEl.children|
      && forall k :: 0 <= k < |slot.nestedEl.children| ==>
           var s := SlotInitial(slot, cfg)[ParentCount(slot) + k];
           s.target == slot.nestedEl.children[k] && s.kind == Set
           && s.y == MoveY(OrString(GetAttr(slot.nestedEl, "data-distance"), cfg.distance))
           && (s.alpha == ForceVisible <==> IsSwiperElement(s.target))
           && (s.alpha == Hide <==> !IsSwiperElement(s.target)))
  {
    if slot.Nested? {
      var d := OrString(GetAttr(slot.nestedEl, "data-distance"), cfg.distance);
      var head: seq<Step<Element>> := if slot.includeParent then [HideStep(slot.parentEl, cfg.distance)] else [];
      var rest := NestedInitial(slot.nestedEl.children, d);
      assert SlotInitial(slot, cfg) == head + rest;
      forall k | 0 <= k < |slot.nestedEl.children|
        ensures SlotInitial(slot, cfg)[ParentCount(slot) + k] == InitialTargetStep(slot.nestedEl.children[k], d)
      {
        assert SlotInitial(slot, cfg)[ParentCount(slot) + k] == rest[k];
      }
    }
  }

  /** Every initial step of a slot hides its target or forces it visible; it
      forces only swiper elements visible, and every swiper element other
      than an included parent is forced visible. */
  lemma SlotInitialKeepsSwipers(slot: Slot, cfg: GroupConfig)
    ensures forall s :: s in SlotInitial(slot, cfg) ==>
      (s.alpha == Hide || s.alpha == ForceVisible)
      && (s.alpha == ForceVisible ==> IsSwiperElement(s.target))
      && (IsSwiperElement(s.target) && !IncludedParent(slot, s.target) ==> s.alpha == ForceVisible)
  {
    SlotInitialDistances(slot, cfg);
    forall s | s in SlotInitial(slot, cfg)
      ensures (s.alpha == Hide || s.alpha == ForceVisible)
        && (s.alpha == ForceVisible ==> IsSwiperElement(s.target))
        && (IsSwiperElement(s.target) && !IncludedParent(slot, s.target) ==> s.alpha == ForceVisible)
    {
      var k :| 0 <= k < |SlotInitial(slot, cfg)| && SlotInitial(slot, cfg)[k] == s;
      if slot.Nested? && k >= ParentCount(slot) {
        assert s == SlotInitial(slot, cfg)[ParentCount(slot) + (k - ParentCount(slot))];
      } else if slot.Nested? {
        assert s == HideStep(slot.parentEl, cfg.distance);
      }
    }
  }

  lemma InitialPlanKeepsSwipers(slots: seq<Slot>, cfg: GroupConfig, n: nat)
    requires n <= |slots|
    ensures forall s :: s in InitialPlan(slots, cfg, n) ==>
      (s.alpha == Hide || s.alpha == ForceVisible)
      && (s.alpha == ForceVisible ==> IsSwiperElement(s.target))
      && (IsSwiperElement(s.target) && s.alpha != ForceVisible ==>
            exists i :: 0 <= i < n && IncludedParent(slots[i], s.target))
  {
    var prefixes := InitialPrefixes(slots, cfg, n);
    var chunks := InitialChunks(slots, cfg, n);
    InitialPlanBuilt(slots, cfg, n);
    assert prefixes[n] == InitialPlan(slots, cfg, n);
    forall s | s in InitialPlan(slots, cfg, n)
      ensures (s.alpha == Hide || s.alpha == ForceVisible)
        && (s.alpha == ForceVisible ==> IsSwiperElement(s.target))
        && (IsSwiperElement(s.target) && s.alpha != ForceVisible ==>
              exists i :: 0 <= i < n && IncludedParent(slots[i], s.target))
    {
      InSomeChunk(prefixes, chunks, s);
      var i :| 0 <= i < n && s in chunks[i];
      assert chunks[i] == SlotInitial(slots[i], cfg);
      SlotInitialKeepsSwipers(slots[i], cfg);
    }
  }

  lemma {:induction false} ReassertPlanNeverHides(slots: seq<Slot>, cfg: GroupConfig, n: nat)
    requires n <= |slots|
    ensures forall s :: s in ReassertPlan(slots, cfg, n) ==>
      !s.Hides() && s.alpha == Untouched && exists i :: 0 <= i < n && IncludedParent(slots[i], s.target)
  {
    if n > 0 {
      ReassertPlanNeverHides(slots, cfg, n - 1);
    }
  }

  lemma SlotRevealNeverHides(slot: Slot, i: nat, cfg: GroupConfig)
    ensures forall s :: s in SlotReveal(slot, i, cfg) ==> !s.Hides() && s.kind == To
  {
    forall s | s in SlotReveal(slot, i, cfg)
      ensures !s.Hides() && s.kind == To
    {
      var k :| 0 <= k < |SlotReveal(slot, i, cfg)| && SlotReveal(slot, i, cfg)[k] == s;
      SlotRevealStarts(slot, i, k, cfg);
    }
  }

  /** A slot's tweens fade in and clear every inline style of a target that
      is not a swiper element; a swiper element other than an included parent
      only moves and has only its transform cleared. */
  lemma SlotRevealSwiperTweens(slot: Slot, i: nat, cfg: GroupConfig)
    ensures forall s :: s in SlotReveal(slot, i, cfg) ==>
      (!IsSwiperElement(s.target) ==> s.alpha == Show && s.cleanup == ClearAll)
      && (IsSwiperElement(s.target) && !IncludedParent(slot, s.target) ==>
            s.alpha == Untouched && s.cleanup == ClearTransform && s.y == MoveY("0"))
  {
    forall s | s in SlotReveal(slot, i, cfg)
      ensures (!IsSwiperElement(s.target) ==> s.alpha == Show && s.cleanup == ClearAll)
        && (IsSwiperElement(s.target) && !IncludedParent(slot, s.target) ==>
              s.alpha == Untouched && s.cleanup == ClearTransform && s.y == MoveY("0"))
    {
      var k :| 0 <= k < |SlotReveal(slot, i, cfg)| && SlotReveal(slot, i, cfg)[k] == s;
      SlotRevealStarts(slot, i, k, cfg);
    }
  }

  lemma RevealPlanSwiperTweens(slots: seq<Slot>, cfg: GroupConfig, n: nat)
    requires n <= |slots|
    ensures forall s :: s in RevealPlan(slots, cfg, n) ==>
      (!IsSwiperElement(s.target) ==> s.alpha == Show && s.cleanup == ClearAll)
      && (IsSwiperElement(s.target) && s.cleanup != ClearTransform ==>
            exists i :: 0 <= i < n && IncludedParent(slots[i], s.target))
      && (s.cleanup == ClearTransform ==> s.alpha == Untouched && s.y == MoveY("0"))
  {
    RevealPlanBuilt(slots, cfg, n);
    forall s | s in RevealPlan(slots, cfg, n)
      ensures (!IsSwiperElement(s.target) ==> s.alpha == Show && s.cleanup == ClearAll)
        && (IsSwiperElement(s.target) && s.cleanup != ClearTransform ==>
              exists i :: 0 <= i < n && IncludedParent(slots[i], s.target))
        && (s.cleanup == ClearTransform ==> s.alpha == Untouched && s.y == MoveY("0"))
    {
      assert RevealPrefixes(slots, cfg, n)[n] == RevealPlan(slots, cfg, n);
      InSomeChunk(RevealPrefixes(slots, cfg, n), RevealChunks(slots, cfg, n), s);
      var i :| 0 <= i < n && s in RevealChunks(slots, cfg, n)[i];
      SlotRevealSwiperTweens(slots[i], i, cfg);
    }
  }

  lemma RevealPlanNeverHides(slots: seq<Slot>, cfg: GroupConfig, n: nat)
    requires n <= |slots|
    ensures forall s :: s in RevealPlan(slots, cfg, n) ==> !s.Hides() && s.kind == To
  {
    RevealPlanBuilt(slots, cfg, n);
    forall s | s in RevealPlan(slots, cfg, n)
      ensures !s.Hides() && s.kind == To
    {
      assert RevealPrefixes(slots, cfg, n)[n] == RevealPlan(slots, cfg, n);
      InSomeChunk(RevealPrefixes(slots, cfg, n), RevealChunks(slots, cfg, n), s);
      var i :| 0 <= i < n && s in RevealChunks(slots, cfg, n)[i];
      SlotRevealNeverHides(slots[i], i, cfg);
    }
  }

  /** The swiper exemption: in a group's plan, no step hides an element that
      is or contains a swiper wrap, except a direct child included as the
      parent of a nested slot, and a childless group root that itself carries
      data-swiper-wrap (neither case is checked by the script); the reveal
      timeline hides nothing. */
  lemma SwiperNeverHidden(g: Element)
    ensures forall s :: s in GroupPlan(g, false).initial && s.Hides() && IsSwiperElement(s.target) ==>
      || (s.target in g.children && Classify(s.target).Nested? && Classify(s.target).includeParent)
      || (g.children == [] && s.target == g && Matches(g, SwiperWrap))
    ensures forall s :: s in GroupPlan(g, false).trigger.value.timeline ==> !s.Hides()
  {
    if g.children == [] {
      LeafHasNoDescendants(g);
    } else {
      var slots := SlotsOf(g.children);
      var cfg := ParseGroupConfig(g);
      ChildrenSwiperSafe(g.children, cfg);
      RevealPlanNeverHides(slots, cfg, |slots|);
    }
  }

  /** `e` is a child of `g` that its nested slot includes as parent. */
  predicate IncludedParentChild(g: Element, e: Element)
  {
    e in g.children && Classify(e).Nested? && Classify(e).includeParent
  }

  /** The swiper handling of a group with children: the initial state forces
      every swiper element visible (except an included parent) and forces
      nothing else visible; the reveal tween of a swiper element (except an
      included parent) only moves it and clears only its transform, while
      every other target fades in and has all its inline styles cleared. */
  lemma SwiperKeptVisible(g: Element)
    ensures forall s :: s in GroupPlan(g, false).initial && s.alpha == ForceVisible ==> IsSwiperElement(s.target)
    ensures forall s :: (g.children != [] && s in GroupPlan(g, false).initial
      && IsSwiperElement(s.target) && !IncludedParentChild(g, s.target)) ==> s.alpha == ForceVisible
    ensures forall s :: s in GroupPlan(g, false).trigger.value.timeline && !IsSwiperElement(s.target) ==>
      s.alpha == Show && s.cleanup == ClearAll
    ensures forall s :: (g.children != [] && s in GroupPlan(g, false).trigger.value.timeline
      && IsSwiperElement(s.target) && !IncludedParentChild(g, s.target)) ==>
      s.alpha == Untouched && s.cleanup == ClearTransform && s.y == MoveY("0")
  {
    if g.children != [] {
      var slots := SlotsOf(g.children);
      var cfg := ParseGroupConfig(g);
      var n := |slots|;
      InitialPlanKeepsSwipers(slots, cfg, n);
      ReassertPlanNeverHides(slots, cfg, n);
      RevealPlanSwiperTweens(slots, cfg, n);
      forall e, i | 0 <= i < n && IncludedParent(slots[i], e)
        ensures IncludedParentChild(g, e)
      {
        assert slots[i] == Classify(g.children[i]);
      }
    }
  }

  /** The initial state of a group with children hides a swiper element only
      as the included parent of a nested slot. */
  lemma ChildrenSwiperSafe(cs: seq<Element>, cfg: GroupConfig)
    ensures forall s :: (s in InitialPlan(SlotsOf(cs), cfg, |cs|) + ReassertPlan(SlotsOf(cs), cfg, |cs|)
      && s.Hides() && IsSwiperElement(s.target)) ==>
      s.target in cs && Classify(s.target).Nested? && Classify(s.target).includeParent
  {
    var slots := SlotsOf(cs);
    InitialPlanSwiperSafe(slots, cfg, |slots|);
    ReassertPlanNeverHides(slots, cfg, |slots|);
    forall s | s in InitialPlan(slots, cfg, |slots|) && s.Hides() && IsSwiperElement(s.target)
      ensures s.target in cs && Classify(s.target).Nested? && Classify(s.target).includeParent
    {
      var i :| 0 <= i < |slots| && slots[i].Nested? && slots[i].includeParent && s.target == slots[i].parentEl;
      assert slots[i] == Classify(cs[i]);
    }
  }

  lemma SlotHiddenAreRevealed(slot: Slot, i: nat, cfg: GroupConfig)
    ensures forall s :: s in SlotInitial(slot, cfg) && s.Hides() ==>
      exists r :: r in SlotReveal(slot, i, cfg) && r.target == s.target && r.alpha == Show
  {
    var t := SlotTime(i, cfg);
    match slot
    case Item(el) =>
      assert SlotReveal(slot, i, cfg)[0] == RevealStep(el, t);
    case Nested(p, n, inc) =>
      var d := OrString(GetAttr(n, "data-distance"), cfg.distance);
      var head: seq<Step<Element>> := if inc then [HideStep(p, cfg.distance)] else [];
      var rest := NestedInitial(n.children, d);
      var rHead: seq<Step<Element>> := if inc then [Step(p, To, MoveY("0"), Show, ClearAll, Abs(t))] else [];
      var rRest := NestedReveal(n.children, t, NestedStagger(n, cfg));
      assert SlotInitial(slot, cfg) == head + rest;
      assert SlotReveal(slot, i, cfg) == rHead + rRest;
      forall s | s in head + rest && s.Hides()
        ensures exists r :: r in rHead + rRest && r.target == s.target && r.alpha == Show
      {
        if s in head {
          assert rHead[0] in rHead + rRest;
        } else {
          var k :| 0 <= k < |rest| && rest[k] == s;
          assert rRest[k] in rHead + rRest;
        }
      }
  }

  /** A step the initial state of the first `n` slots hides is matched by a
      reveal step of the same slot. */
  lemma HiddenStepRevealed(slots: seq<Slot>, cfg: GroupConfig, n: nat, s: Step<Element>)
    requires n <= |slots| && s in InitialPlan(slots, cfg, n) && s.Hides()
    ensures exists r :: r in RevealPlan(slots, cfg, n) && r.target == s.target && r.alpha == Show
  {
    InitialPlanBuilt(slots, cfg, n);
    RevealPlanBuilt(slots, cfg, n);
    assert InitialPrefixes(slots, cfg, n)[n] == InitialPlan(slots, cfg, n);
    InSomeChunk(InitialPrefixes(slots, cfg, n), InitialChunks(slots, cfg, n), s);
    var i :| 0 <= i < n && s in InitialChunks(slots, cfg, n)[i];
    SlotHiddenAreRevealed(slots[i], i, cfg);
    var r :| r in SlotReveal(slots[i], i, cfg) && r.target == s.target && r.alpha == Show;
    ChunkIn(RevealPrefixes(slots, cfg, n), RevealChunks(slots, cfg, n), i, r);
    assert RevealPrefixes(slots, cfg, n)[n] == RevealPlan(slots, cfg, n);
  }

  lemma PlanHiddenAreRevealed(slots: seq<Slot>, cfg: GroupConfig, n: nat)
    requires n <= |slots|
    ensures forall s :: s in InitialPlan(slots, cfg, n) && s.Hides() ==>
      exists r :: r in RevealPlan(slots, cfg, n) && r.target == s.target && r.alpha == Show
  {
    forall s | s in InitialPlan(slots, cfg, n) && s.Hides()
      ensures exists r :: r in RevealPlan(slots, cfg, n) && r.target == s.target && r.alpha == Show
    {
      HiddenStepRevealed(slots, cfg, n, s);
    }
  }

  /** Nothing stays invisible: every element the initial state hides is
      tweened back to autoAlpha 1 by the group's reveal timeline. */
  lemma HiddenAreRevealed(g: Element)
    ensures forall s :: s in GroupPlan(g, false).initial && s.Hides() ==>
      exists r :: r in GroupPlan(g, false).trigger.value.timeline && r.target == s.target && r.alpha == Show
  {
    var cfg := ParseGroupConfig(g);
    if g.children != [] {
      var slots := SlotsOf(g.children);
      assert GroupPlan(g, false).initial == InitialPlan(slots, cfg, |slots|) + ReassertPlan(slots, cfg, |slots|);
      assert GroupPlan(g, false).trigger.value.timeline == RevealPlan(slots, cfg, |slots|);
      PlanHiddenAreRevealed(slots, cfg, |slots|);
      ReassertPlanNeverHides(slots, cfg, |slots|);
    } else {
      assert GroupPlan(g, false).trigger.value.timeline[0].target == g;
    }
  }

  // ---------------------------------------------------------------------------
  // Firing once, and the carousel follow-up

  /** A scroll trigger created with `once: true`: the first entry plays the
      timeline and kills the trigger, so later entries do nothing. */
  class OnceTrigger {
    var fired: bool
    ghost var plays: nat

    ghost predicate Valid()
      reads this
    {
      plays <= 1 && (fired <==> plays == 1)
    }

    constructor ()
      ensures Valid() && !fired && plays == 0
    {
      fired := false;
      plays := 0;
    }

    /** The viewport reaches the trigger's start position. */
    method Enter() returns (play: bool)
      requires Valid()
      modifies this
      ensures Valid() && fired
      ensures play == !old(fired)
      ensures plays == old(plays) + (if play then 1 else 0)
    {
      play := !fired;
      if play {
        fired := true;
        plays := plays + 1;
      }
    }
  }

  /** What the follow-up does for one swiper wrap. */
  datatype FollowUp = UpdateInstance(wrap: Element) | CallInitSwiperSlider

  /** What `triggerSwiperUpdate` does for one wrap. */
  function FollowUpOf(w: Element, instances: set<Element>, initDefined: bool): seq<FollowUp>
  {
    if w in instances then [UpdateInstance(w)]
    else if initDefined then [CallInitSwiperSlider]
    else []
  }

  /** What `triggerSwiperUpdate` does for the wraps, in order. */
  function FollowUps(wraps: seq<Element>, instances: set<Element>, initDefined: bool): seq<FollowUp>
  {
    if wraps == [] then []
    else FollowUps(wraps[..|wraps| - 1], instances, initDefined) + FollowUpOf(wraps[|wraps| - 1], instances, initDefined)
  }

  /** The actions follow the wraps: those of an earlier run of wraps come
      before those of a later one. */
  lemma {:induction false} FollowUpsKeepOrder(a: seq<Element>, b: seq<Element>, instances: set<Element>, initDefined: bool)
    ensures FollowUps(a + b, instances, initDefined) == FollowUps(a, instances, initDefined) + FollowUps(b, instances, initDefined)
    decreases |b|
  {
    if b == [] {
      assert a + b == a;
    } else {
      var b' := b[..|b| - 1];
      FollowUpsKeepOrder(a, b', instances, initDefined);
      assert (a + b)[..|a + b| - 1] == a + b';
      assert (a + b)[|a + b| - 1] == b[|b| - 1];
    }
  }

  /** When `initSwiperSlider` is defined there is one action per wrap, at the
      wrap's own position: an update where the wrap has an instance, a call
      to `initSwiperSlider` where it has none. */
  lemma {:induction false} FollowUpsPerWrap(wraps: seq<Element>, instances: set<Element>)
    ensures |FollowUps(wraps, instances, true)| == |wraps|
    ensures forall j :: 0 <= j < |wraps| ==>
      FollowUps(wraps, instances, true)[j] == (if wraps[j] in instances then UpdateInstance(wraps[j]) else CallInitSwiperSlider)
  {
    if wraps != [] {
      var front := wraps[..|wraps| - 1];
      FollowUpsPerWrap(front, instances);
      forall j | 0 <= j < |front|
        ensures wraps[j] == front[j]
      {
      }
    }
  }

  /** Only wraps with an instance are updated, each of them is, and
      `initSwiperSlider` is called exactly when it is defined and some wrap
      has no instance; there is at most one action per wrap. */
  lemma {:induction false} FollowUpsActions(wraps: seq<Element>, instances: set<Element>, initDefined: bool)
    ensures |FollowUps(wraps, instances, initDefined)| <= |wraps|
    ensures forall a :: a in FollowUps(wraps, instances, initDefined) && a.UpdateInstance? ==>
      a.wrap in instances && a.wrap in wraps
    ensures forall w :: w in wraps && w in instances ==> UpdateInstance(w) in FollowUps(wraps, instances, initDefined)
    ensures CallInitSwiperSlider in FollowUps(wraps, instances, initDefined) <==>
      initDefined && exists w :: w in wraps && w !in instances
  {
    if wraps != [] {
      var front := wraps[..|wraps| - 1];
      var last := wraps[|wraps| - 1];
      FollowUpsActions(front, instances, initDefined);
      assert forall w :: w in wraps <==> w in front || w == last;
    }
  }

  /** `triggerSwiperUpdate`, run 50 ms after a group's reveal completes: for
      each swiper wrap inside the container, in document order, update its
      instance if it has one, otherwise call `initSwiperSlider` if that
      function is defined. `instances` are the wraps that already carry a
      Swiper instance. */
  method TriggerSwiperUpdate(container: Element, instances: set<Element>, initDefined: bool)
    returns (actions: seq<FollowUp>)
    ensures actions == FollowUps(QuerySelectorAll(container, SwiperWrap), instances, initDefined)
    ensures initDefined ==> (|actions| == |QuerySelectorAll(container, SwiperWrap)|
      && forall j :: 0 <= j < |actions| ==>
           var w := QuerySelectorAll(container, SwiperWrap)[j];
           actions[j] == if w in instances then UpdateInstance(w) else CallInitSwiperSlider)
    ensures |actions| <= |QuerySelectorAll(container, SwiperWrap)|
    ensures forall a :: a in actions && a.UpdateInstance? ==>
      a.wrap in instances && a.wrap in QuerySelectorAll(container, SwiperWrap)
    ensures forall w :: w in QuerySelectorAll(container, SwiperWrap) && w in instances ==> UpdateInstance(w) in actions
    ensures CallInitSwiperSlider in actions <==>
      initDefined && exists w :: w in QuerySelectorAll(container, SwiperWrap) && w !in instances
  {
    var wraps := QuerySelectorAll(container, SwiperWrap);
    actions := [];
    for i := 0 to |wraps|
      invariant actions == FollowUps(wraps[..i], instances, initDefined)
    {
      assert wraps[..i + 1][..i] == wraps[..i];
      if wraps[i] in instances {
        actions := actions + [UpdateInstance(wraps[i])];
      } else if initDefined {
        actions := actions + [CallInitSwiperSlider];
      }
    }
    assert wraps[..|wraps|] == wraps;
    FollowUpsActions(wraps, instances, initDefined);
    if initDefined {
      FollowUpsPerWrap(wraps, instances);
    }
  }
}
