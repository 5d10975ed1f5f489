/** The carousel start-up: one Swiper per `[data-swiper-group]`, created at
    once when its wrap is visible and otherwise deferred until the wrap
    becomes visible, with navigation and pagination only where their
    elements exist. */
module Sliders {
  import opened Dom

  const GroupSel := HasAttr("data-swiper-group")
  const WrapSel := HasAttr("data-swiper-wrap")
  const PrevSel := HasAttr("data-swiper-prev")
  const NextSel := HasAttr("data-swiper-next")
  const PaginationSel := HasClass("swiper-pagination")

  /** The two computed style properties the script looks at. */
  datatype Style = Style(display: string, visibility: string)

  predicate Visible(s: Style)
  {
    s.display != "none" && s.visibility != "hidden"
  }

  /** The parts of the Swiper configuration that depend on the page: the
      navigation buttons and the pagination element. The fixed settings
      (speed, keyboard, mousewheel, observers, slides per view) are the same
      for every carousel. */
  datatype Navigation = Navigation(nextEl: Element, prevEl: Element)
  datatype Options = Options(navigation: Option<Navigation>, pagination: Option<Element>, speedMs: nat)

  /** The configuration object, with its two conditional spreads. */
  function OptionsFor(prev: Option<Element>, next: Option<Element>, pagination: Option<Element>): (o: Options)
    ensures o.navigation.Some? <==> prev.Some? && next.Some?
    ensures o.navigation.Some? ==> o.navigation.value == Navigation(next.value, prev.value)
    ensures o.pagination == pagination
    ensures o.speedMs == 600
  {
    Options(
      if prev.Some? && next.Some? then Some(Navigation(next.value, prev.value)) else None,
      pagination,
      600)
  }

  /** The configuration of the carousel in `group`. */
  function GroupOptions(group: Element): Options
  {
    OptionsFor(QuerySelector(group, PrevSel), QuerySelector(group, NextSel), QuerySelector(group, PaginationSel))
  }

  /** A Swiper instance on `wrap`. */
  datatype Instance = Instance(wrap: Element, options: Options)

  /** `initializeSingleSwiper`: the constructor may throw (`fails`); the error
      is caught and logged, and nothing is returned. */
  method InitializeSingleSwiper(wrap: Element, prev: Option<Element>, next: Option<Element>,
                                pagination: Option<Element>, fails: bool)
    returns (r: Option<Instance>)
    ensures r.None? <==> fails
    ensures r.Some? ==> r.value == Instance(wrap, OptionsFor(prev, next, pagination))
  {
    var options := OptionsFor(prev, next, pagination);
    if fails {
      return None;
    }
    r := Some(Instance(wrap, options));
  }

  /** What the start-up does for one group. */
  datatype GroupStart =
    | MissingWrap                          // warned and skipped
    | Started(instance: Option<Instance>)  // the wrap was visible: created at once (None when the constructor threw)
    | Waiting(wrap: Element, options: Options)  // the wrap was hidden: creation deferred

  /** The start-up of one group, given the computed style of each element
      and the wraps whose Swiper constructor throws. */
  function StartOf(group: Element, style: Element -> Style, failing: set<Element>): (r: GroupStart)
    ensures r.MissingWrap? <==> !Contains(group, WrapSel)
    ensures r.Started? <==> Contains(group, WrapSel) && Visible(style(QuerySelector(group, WrapSel).value))
    ensures r.Waiting? ==>
      r.wrap == QuerySelector(group, WrapSel).value && !Visible(style(r.wrap)) && r.options == GroupOptions(group)
    ensures r.Started? && r.instance.Some? ==>
      r.instance.value == Instance(QuerySelector(group, WrapSel).value, GroupOptions(group))
    ensures r.Started? ==> (r.instance.None? <==> QuerySelector(group, WrapSel).value in failing)
  {
    match QuerySelector(group, WrapSel)
    case None => MissingWrap
    case Some(wrap) =>
      if Visible(style(wrap)) then
        Started(if wrap in failing then None else Some(Instance(wrap, GroupOptions(group))))
      else Waiting(wrap, GroupOptions(group))
  }

  /** One start per group, in the groups' order. */
  function StartsOf(groups: seq<Element>, style: Element -> Style, failing: set<Element>): (r: seq<GroupStart>)
    ensures |r| == |groups|
  {
    if groups == [] then [] else StartsOf(groups[..|groups| - 1], style, failing) + [StartOf(groups[|groups| - 1], style, failing)]
  }

  /** The start of each group is decided by that group alone. */
  lemma {:induction false} StartsOfAt(groups: seq<Element>, style: Element -> Style, failing: set<Element>, i: nat)
    requires i < |groups|
    ensures StartsOf(groups, style, failing)[i] == StartOf(groups[i], style, failing)
  {
    if i < |groups| - 1 {
      StartsOfAt(groups[..|groups| - 1], style, failing, i);
    }
  }

  /** `initSwiperSlider`, once the library is found: every group is handled
      in document order; a group without a wrap or whose constructor throws
      does not stop the others. With no group at all nothing happens. */
  method InitSwiperSlider(doc: Element, style: Element -> Style, failing: set<Element>) returns (starts: seq<GroupStart>)
    ensures starts == StartsOf(QuerySelectorAll(doc, GroupSel), style, failing)
    ensures starts == [] <==> QuerySelectorAll(doc, GroupSel) == []
  {
    var groups := QuerySelectorAll(doc, GroupSel);
    starts := [];
    for i := 0 to |groups|
      invariant starts == StartsOf(groups[..i], style, failing)
    {
      var group := groups[i];
      var start: GroupStart;
      var wrap := QuerySelector(group, WrapSel);
      if wrap.None? {
        start := MissingWrap;
      } else {
        var prev := QuerySelector(group, PrevSel);
        var next := QuerySelector(group, NextSel);
        var pagination := QuerySelector(group, PaginationSel);
        if Visible(style(wrap.value)) {
          var instance := InitializeSingleSwiper(wrap.value, prev, next, pagination, wrap.value in failing);
          start := Started(instance);
        } else {
          start := Waiting(wrap.value, OptionsFor(prev, next, pagination));
        }
      }
      assert start == StartOf(group, style, failing);
      assert groups[..i + 1][..i] == groups[..i];
      starts := starts + [start];
    }
    assert groups[..|groups|] == groups;
  }

  // ---------------------------------------------------------------------------
  // The deferred start of a hidden carousel

  /** A hidden wrap waits on two channels: a mutation observer on its `style`
      and `class` attributes, and a single check 100 ms later. Either one
      creates the carousel if it finds the wrap visible, and disconnects the
      observer; the observer does not cancel the timer, so both may create it.
      `inits` counts the calls of `initializeSingleSwiper`. */
  class DeferredStart {
    const wrap: Element
    const options: Options
    var observing: bool
    var timerPending: bool
    var inits: nat

    /** Each channel creates the carousel at most once. */
    ghost predicate Valid()
      reads this
    {
      inits <= (if observing then 0 else 1) + (if timerPending then 0 else 1)
    }

    constructor (wrap: Element, options: Options)
      ensures Valid() && this.wrap == wrap && this.options == options
      ensures observing && timerPending && inits == 0
    {
      this.wrap := wrap;
      this.options := options;
      observing := true;
      timerPending := true;
      inits := 0;
    }

    /** A mutation of the wrap's `style` or `class` while observed, after which
        the wrap's computed style is `s`. */
    method Mutation(s: Style)
      requires Valid() && observing
      modifies this
      ensures Valid() && timerPending == old(timerPending)
      ensures Visible(s) ==> !observing && inits == old(inits) + 1
      ensures !Visible(s) ==> observing && inits == old(inits)
    {
      if Visible(s) {
        observing := false;
        inits := inits + 1;
      }
    }

    /** The 100 ms check, finding the computed style `s`. */
    method Timeout(s: Style)
      requires Valid() && timerPending
      modifies this
      ensures Valid() && !timerPending
      ensures Visible(s) ==> !observing && inits == old(inits) + 1
      ensures !Visible(s) ==> observing == old(observing) && inits == old(inits)
    {
      timerPending := false;
      if Visible(s) {
        observing := false;
        inits := inits + 1;
      }
    }
  }

  /** A wrap that is still hidden whenever it is looked at is never started:
      a mutation that leaves it hidden and the timer both do nothing. */
  method StaysHidden(wrap: Element, options: Options, hidden: Style) returns (inits: nat)
    requires !Visible(hidden)
    ensures inits == 0
  {
    var d := new DeferredStart(wrap, options);
    d.Mutation(hidden);
    d.Timeout(hidden);
    d.Mutation(hidden);
    inits := d.inits;
  }

  /** A wrap that becomes visible within 100 ms through a class change is
      started twice: once by the observer and once more by the timer. */
  method StartedTwice(wrap: Element, options: Options) returns (inits: nat)
    ensures inits == 2
  {
    var d := new DeferredStart(wrap, options);
    var shown := Style("block", "visible");
    d.Mutation(shown);
    d.Timeout(shown);
    inits := d.inits;
  }
}
