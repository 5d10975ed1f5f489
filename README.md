# Flow Academy page animations — a Dafny model

This project models the decision logic of the site's animation scripts: the
code that reads attributes and the shape of the document, decides which
elements take part, and builds an ordered plan of animation steps. The
animation, text-splitting and carousel libraries themselves are not modelled.

- **The document.** It is an abstract tree (`Dom`). An element has an attribute map, a class set and ordered element children. `querySelector`/`querySelectorAll` are the first or every matching descendant in document order, over a small selector language (attribute, attribute value, class, tag, selector list).
- **A timeline.** It is a sequence of steps (`Timeline`). Each step records:
  - its target;
  - its kind (`set`, `to`, `from`, `call`);
  - its vertical offset;
  - what it does to visibility (hide, show, force visible, untouched);
  - its `clearProps`;
  - a symbolic start position: `Abs(ms)`, `WithPrevious` ("<"), `Relative(ms)` ("+=/-=") or `AfterPrevious`.

  A `Builder` object stands for `gsap.timeline()`: each `tl.set/to/from/call` appends one step. Relative positions are recorded, not resolved. Times are milliseconds as real numbers, because a stagger read with `parseFloat` may be fractional.
- **JavaScript values.** `JsValues` covers the value operations the scripts lean on: `parseFloat` (sign, digits, fraction), the `||` fallbacks for numbers and strings, one-character `split`, and `trim`.

Modules, one per script plus three shared ones:

| module | file | models |
|---|---|---|
| `Dom` | dom.dfy | elements, selectors, `matches`, `querySelector(All)` |
| `JsValues` | jsvalues.dfy | `parseFloat`, `||` defaults, `split`, `trim` |
| `Timeline` | timeline.dfy | steps, positions, roles of load-timeline steps, the timeline builder |
| `Resize` | resize.dfy | the width-only, 300 ms debounced resize listener shared by two scripts |
| `Reveal` | reveal.dfy | gsap-reveal.js: `initContentRevealScroll`, `triggerSwiperUpdate` |
| `HomeHero` | hero.dfy | home-hero-animations.js: `initHeroLoad`, `initBgParallax`, the `initModalBg` close guard, the `initSplit` resize listener |
| `Academy` | academy.dfy | flow-academy.js: `initLoad`, the letter part of `initSplit` with `split-ran`, `initMaskTextScrollReveal`'s type mapping, the resize listener |
| `Loader` | loader.dfy | flow-academy-loading-fix.js: `initWelcomingWordsLoader`, `initHeroReveal`, `init` |
| `Sliders` | swiper.dfy | swiper-init.js: `initSwiperSlider`, `initializeSingleSwiper` |

## How it is specified

Each script that builds a plan step by step is modelled as a method with loops, or with builder calls. Each such method is proved equal to a specification function: `GroupPlan`, `HeroLoadPlan`, `LoadPlan`, `HeroRevealPlan`, `IsWordTimeline`, `StartsOf`, `ParallaxAll`. Lemmas then state what the scripts promise about those functions:

- **Reveal timing.** Each reveal step starts at `slotIndex × groupStagger (+ nestedIndex × nestedStagger)`.
- **Nothing stays hidden.** Every hidden element is revealed again.
- **Swiper safety.** Swiper elements are not hidden, with the exceptions listed under "Left out". The reveal hides nothing.
- **Load timelines.** No element group is animated twice. Each optional step is present, by exactly one step, iff its element exists.
- **Word loader.** The text swaps follow the word list exactly.
- **State handlers.** Objects whose state the scripts update in place are classes: the once-only trigger, the modal guard, the resize guard, letter targets and the deferred carousel start. Their handlers are methods with `modifies` clauses.

## Two behaviours of the code worth knowing

The model follows the code in both cases:

- **Hidden swipers.** The comments in gsap-reveal.js:101 and gsap-reveal.js:110 say that Swiper wrappers are not hidden, to avoid dimension problems, and are only moved. The code applies that rule to items and to nested children: they are set to `opacity: 1` at their start offset, and their reveal tween only moves them and clears only `transform`. `Reveal.SwiperKeptVisible` states this. The code still hides two kinds of swiper elements:
  - a direct child that contains a swiper and is included as a nested group's parent;
  - a childless group root that itself carries `data-swiper-wrap`.

  `Reveal.SwiperNeverHidden` states exactly these two exceptions.
- **Carousels started twice.** For a carousel that is hidden at start, swiper-init.js:39-59 installs two ways to start it later: a `MutationObserver` and a 100 ms fallback timer. Each one creates the carousel when it finds the wrapper visible. The timer disconnects the observer, but the observer does not cancel the timer. So a wrapper that becomes visible within 100 ms is started by the observer and again by the timer. `Sliders.StartedTwice` shows it.

## Model

| member | source | states |
|---|---|---|
| Dom.First | gsap-reveal.js:82 | `querySelector` finds an element iff some descendant matches, and what it finds is a matching descendant |
| Dom.FirstIsFirst | gsap-reveal.js:82 | what `querySelector` finds is the first match in document order: no earlier descendant matches |
| Dom.QuerySelectorAll | gsap-reveal.js:230 | `querySelectorAll` holds exactly the matching descendants |
| Dom.FilterMembers | gsap-reveal.js:230 | the selection keeps exactly the matching elements, and no more elements than it was given |
| Dom.FilterKeepsOrder | gsap-reveal.js:230 | the selection keeps document order: the matches of an earlier part of the list come before those of a later part, and a single element is kept iff it matches |
| Dom.FilterStartsWithFirst | gsap-reveal.js:230 | a selection is non-empty iff the first-match search finds something, and then it starts with that element |
| Dom.QuerySelectorAllStartsWithFirst | gsap-reveal.js:230 | `querySelectorAll` is non-empty iff some descendant matches, and its first element is what `querySelector` returns |
| Dom.ChildIsOrContains | gsap-reveal.js:47 | a child that is or contains a match makes its parent contain one |
| Dom.LeafHasNoDescendants | gsap-reveal.js:50-52 | an element without element children has no descendants and so contains no swiper wrap |
| JsValues.OrNumber | gsap-reveal.js:31 | `n \|\| d`: NaN and 0 fall back to the default, any other number is kept |
| JsValues.OrString | gsap-reveal.js:32-33 | `a \|\| d`: null and "" fall back to the default, any other string is kept |
| JsValues.ParseFloatOfNatToString | gsap-reveal.js:31 | round trip: `parseFloat` of a whole number's decimal rendering gives the number back |
| JsValues.SplitCount | flow-academy-loading-fix.js:39 | `split(',')` yields one piece more than there are commas |
| JsValues.SplitJoin | flow-academy-loading-fix.js:39 | joining the pieces of `split` with the separator gives the string back |
| JsValues.TrimStart | flow-academy-loading-fix.js:39 | the result is a suffix of the string; everything dropped is white space and the result does not start with white space |
| JsValues.TrimEnd | flow-academy-loading-fix.js:39 | the result is a prefix of the string; everything dropped is white space and the result does not end with white space |
| JsValues.Trim | flow-academy-loading-fix.js:39 | `trim` leaves no white space at either end |
| JsValues.TrimIsSlice | flow-academy-loading-fix.js:39 | `trim` keeps one contiguous slice of the string and drops only white space before and after it |
| JsValues.TrimFixedPoints | flow-academy-loading-fix.js:39 | a string is its own trim iff neither end is white space, so trimming twice changes nothing |
| Timeline.Builder.Add | home-hero-animations.js:50-52 | each `tl.set/to/from` appends exactly its step to the timeline |
| Timeline.Builder.AddIf | home-hero-animations.js:54-62 | a guarded `tl.to/from` appends its step exactly when the guard held |
| Timeline.AppendOpts | home-hero-animations.js:54-62 | guarded steps for new groups keep groups distinct; each group ends up animated by exactly its own step or not at all |
| Reveal.ParseGroupConfig | gsap-reveal.js:31-33 | stagger is the parsed `data-stagger`, or 100 ms when it is absent, unparseable or 0; distance defaults to "2em", start to "top 80%" |
| Reveal.StaggerAttributeIsRead | gsap-reveal.js:31 | a `data-stagger` written as a positive whole number is the stagger in ms |
| Reveal.NestedStagger | gsap-reveal.js:191-192 | the nested stagger falls back to the group stagger only when its attribute parses to NaN |
| Reveal.NestedZeroStaggerKept | gsap-reveal.js:191-192 | an explicit nested `data-stagger="0"` is kept as 0 |
| Reveal.NestedGroupOf | gsap-reveal.js:80-82 | a child's nested group is the child itself when marked, else its first marked descendant; it exists iff the child is or contains the marker |
| Reveal.Classify | gsap-reveal.js:79-95 | a child is a nested slot iff it is or contains `[data-reveal-group-nested]`, else an item; the parent is included iff `data-ignore` is "false" on the child or on the nested group |
| Reveal.BuildSlots | gsap-reveal.js:78-96 | one slot per direct child, in child order |
| Reveal.SlotInitialSteps | gsap-reveal.js:99-130 | the initial steps of one slot equal the slot's specified initial state |
| Reveal.ReassertParents | gsap-reveal.js:133-137 | the second pass re-asserts the group distance on every included parent, in slot order |
| Reveal.BuildInitialState | gsap-reveal.js:99-137 | the initial state is every slot's initial steps in slot order, followed by the re-assert pass |
| Reveal.InitialTargetStep | gsap-reveal.js:119-126 | a nested child starts at the nested distance; a swiper element is forced visible (`opacity: 1`), any other target is hidden |
| Reveal.RevealStep | gsap-reveal.js:158-212 | a reveal tween is a `to` at the given time that moves its element to y 0; for a swiper element it leaves visibility alone and clears only `transform`, otherwise it fades in to autoAlpha 1 and clears all props |
| Reveal.NestedChildrenReveal | gsap-reveal.js:194-214 | one tween per nested child, each starting `nestedIndex × nestedStagger` after the slot time |
| Reveal.SlotRevealSteps | gsap-reveal.js:155-215 | the tweens of one slot equal its specified reveal steps: the included parent at the slot time, then the nested children |
| Reveal.BuildRevealTimeline | gsap-reveal.js:154-216 | the timeline is every slot's reveal steps in slot order |
| Reveal.SlotRevealStarts | gsap-reveal.js:155-212 | the k-th tween of a slot starts at the slot time, plus the nested stagger times the child index for nested children |
| Reveal.RevealPlanSlot | gsap-reveal.js:154-216 | a slot's tweens sit in the timeline right after those of all earlier slots |
| Reveal.RevealOffsets | gsap-reveal.js:155-212 | the offset rule: the k-th tween of slot i starts at `i × groupStagger (+ nestedIndex × nestedStagger)` |
| Reveal.ThreeItemsExample | gsap-reveal.js:155 | three item slots at the default stagger start at 0, 100 and 200 ms |
| Reveal.NestedExample | gsap-reveal.js:191-205 | two nested children of slot 1 with a 50 ms nested stagger start at 100 and 150 ms |
| Reveal.ShowAll | gsap-reveal.js:39-44 | reduced motion shows the group and then each descendant in document order |
| Reveal.SetupGroup | gsap-reveal.js:30-218 | the setup of one group equals its specified plan (reduced-motion, childless and slotted cases) |
| Reveal.GroupPlans | gsap-reveal.js:29-221 | one plan per group, at the group's position; each group's plan depends on that group alone |
| Reveal.GroupPlansCover | gsap-reveal.js:29-221 | every group has its own plan among the plans |
| Reveal.InitContentRevealScroll | gsap-reveal.js:20-222 | the `[data-reveal-group]` elements of the document are set up in document order, a group nested in another one included; every group gets its plan; nothing is set up iff the document has no group |
| Reveal.ReducedMotionShowsAll | gsap-reveal.js:39-44 | under reduced motion no trigger exists, and the group and every descendant are set to y 0, autoAlpha 1, with all props cleared |
| Reveal.ChildlessGroup | gsap-reveal.js:50-74 | a childless group is its own sole target: hidden at the group distance, revealed by one once-only trigger, with no swiper follow-up |
| Reveal.TriggerShape | gsap-reveal.js:140-152 | without reduced motion each group has one once-only trigger at its start, with the swiper follow-up iff the group contains a swiper wrap |
| Reveal.SlotInitialSwiperSafe | gsap-reveal.js:99-130 | a slot's initial state hides no swiper element other than an included nested parent |
| Reveal.InitialPlanSwiperSafe | gsap-reveal.js:99-130 | the initial state of all slots hides no swiper element other than included nested parents |
| Reveal.SlotInitialDistances | gsap-reveal.js:99-130 | an item starts from the group distance when it is a swiper element and from its own `data-distance` otherwise; nested children start from the nested distance; exactly the swiper elements are forced visible, the rest hidden |
| Reveal.SlotInitialKeepsSwipers | gsap-reveal.js:99-130 | a slot's initial steps hide or force visible; they force only swiper elements visible, and every swiper element but an included parent |
| Reveal.InitialPlanKeepsSwipers | gsap-reveal.js:99-130 | across all slots: only swiper elements are forced visible, and a swiper element that is not forced visible is an included parent |
| Reveal.ReassertPlanNeverHides | gsap-reveal.js:133-137 | the re-assert pass hides nothing, leaves visibility alone and touches only included parents |
| Reveal.SlotRevealNeverHides | gsap-reveal.js:157-214 | every reveal tween of a slot is a `to` that hides nothing |
| Reveal.RevealPlanNeverHides | gsap-reveal.js:154-216 | no tween of the reveal timeline hides anything |
| Reveal.SlotRevealSwiperTweens | gsap-reveal.js:157-214 | a slot's tweens fade in and clear all props of every non-swiper target; a swiper target other than an included parent is only moved and has only its transform cleared |
| Reveal.RevealPlanSwiperTweens | gsap-reveal.js:154-216 | across the timeline: non-swiper targets fade in with all props cleared; a swiper target without the transform-only cleanup is an included parent; the transform-only cleanup never touches visibility |
| Reveal.ChildrenSwiperSafe | gsap-reveal.js:99-137 | in a group with children, a hidden swiper element is always a direct child included as a nested parent |
| Reveal.SwiperKeptVisible | gsap-reveal.js:99-216 | in a group with children, every swiper element except an included parent is forced visible at the start and its tween only moves it and clears only `transform`; only swiper elements are forced visible, and every other target fades in with all props cleared |
| Reveal.SwiperNeverHidden | gsap-reveal.js:99-137 | a group's plan hides a swiper element only as an included nested parent or as a childless root that is itself a swiper wrap; the reveal hides nothing |
| Reveal.SlotHiddenAreRevealed | gsap-reveal.js:99-215 | every element a slot hides is tweened to autoAlpha 1 by that slot's reveal |
| Reveal.HiddenStepRevealed | gsap-reveal.js:99-215 | an element hidden by the initial state of the first n slots is shown again by their reveal timeline |
| Reveal.PlanHiddenAreRevealed | gsap-reveal.js:99-215 | every element the initial state hides is shown again by the reveal timeline |
| Reveal.HiddenAreRevealed | gsap-reveal.js:50-216 | nothing stays invisible: every element a group's plan hides is shown again by its trigger's timeline |
| Reveal.OnceTrigger.constructor | gsap-reveal.js:140-143 | a new once-only trigger has not fired |
| Reveal.OnceTrigger.Enter | gsap-reveal.js:143-144 | the first entry plays the reveal; later entries play nothing, so it plays at most once |
| Reveal.FollowUpsKeepOrder | gsap-reveal.js:230-242 | the actions follow the wraps in order: those for an earlier run of wraps come before those for a later one |
| Reveal.FollowUpsPerWrap | gsap-reveal.js:230-242 | when `initSwiperSlider` is defined there is one action per wrap at its position: an update if the wrap has an instance, a call otherwise |
| Reveal.FollowUpsActions | gsap-reveal.js:230-242 | only wraps with an instance are updated, and all of them are; `initSwiperSlider` is called iff it is defined and some wrap has none; at most one action per wrap |
| Reveal.TriggerSwiperUpdate | gsap-reveal.js:228-244 | the actions are those of the container's swiper wraps in document order: with `initSwiperSlider` defined, exactly one per wrap, an update or a call; each wrap with an instance is updated; `initSwiperSlider` is called iff it is defined and some wrap has no instance |
| HomeHero.HeroLoadRoles | home-hero-animations.js:50-62 | hero, lines, nav come first in that order; no group is animated twice; reveal items iff more than one; paragraphs iff wrap-p exists; buttons iff wrap-buttons exists |
| HomeHero.HeroTimeline | home-hero-animations.js:50-62 | the steps added equal the hero load plan |
| HomeHero.InitHeroLoad | home-hero-animations.js:26-63 | nothing without `.nav-row`; a TypeError without `.section`; otherwise the hero load plan |
| HomeHero.ParallaxOf | home-hero-animations.js:293-300 | the tween belongs to its trigger; it uses `xPercent` iff the direction is "horizontal" |
| HomeHero.ParallaxTarget | home-hero-animations.js:299 | the target is the first inner `[data-parallax="target"]`, or the trigger itself when there is none |
| HomeHero.ParallaxDefaults | home-hero-animations.js:293-300 | without attributes: vertical, -5 to 20, scrub true, "top bottom" to "bottom top" |
| HomeHero.ParallaxRange | home-hero-animations.js:295-296 | start and end written as whole numbers are used, except 0, which falls back to -5 or 20 |
| HomeHero.ParallaxScrub | home-hero-animations.js:294 | a whole-number scrub is that lag in seconds; 0 means `scrub: true` |
| HomeHero.ParallaxAllAt | home-hero-animations.js:292-316 | the i-th tween is the one configured by the i-th trigger |
| HomeHero.InitBgParallax | home-hero-animations.js:289-317 | one tween per `[data-parallax="trigger"]`, in document order |
| HomeHero.ModalClose.constructor | home-hero-animations.js:145 | the close guard starts lowered |
| HomeHero.ModalClose.ClickClose | home-hero-animations.js:195-200 | a close click is ignored while the close timeline runs, otherwise it restarts it |
| HomeHero.ModalClose.Escape | home-hero-animations.js:202-206 | Escape is not guarded and always restarts the close timeline |
| HomeHero.ModalClose.Complete | home-hero-animations.js:162-166 | the close timeline's completion lowers the guard |
| HomeHero.ListenForResize | home-hero-animations.js:350-362 | the listener records the current width, has nothing pending, and reruns the line split and `initHeroLoad` |
| Resize.WidthGuard.constructor | home-hero-animations.js:350-351 | the guard starts with the current width and no timer |
| Resize.WidthGuard.Resize | home-hero-animations.js:353-357 | a resize at the recorded width changes nothing; any other resize (re)starts the 300 ms timer |
| Resize.WidthGuard.Fire | home-hero-animations.js:357-361 | when the timer fires, the width is recorded and the work reruns exactly once |
| Academy.LoadHeadRoles | flow-academy.js:131-132 | the load timeline starts with the hero, then its lines |
| Academy.LoadOrder | flow-academy.js:131-136 | hero first, lines second, and the nav third when the document has one |
| Academy.LoadRoles | flow-academy.js:131-148 | no group is animated twice; nav iff found; reveal items iff at least one; paragraphs and buttons iff their wraps exist |
| Academy.LoadTimeline | flow-academy.js:131-148 | the steps added equal the load plan |
| Academy.InitLoad | flow-academy.js:104-149 | nothing without a hero in the container; otherwise the load plan, with the nav looked up in the whole document |
| Academy.LetterTarget.constructor | flow-academy.js:29 | a letter target starts unsplit, without delays |
| Academy.LetterDelays | flow-academy.js:71-74 | one delay per letter: the first letter waits 0 and each letter waits 1/150 s longer than the previous one |
| Academy.RevertLetters | flow-academy.js:38-41 | the previous instances are reverted: those targets lose their letters and delays, and `split-ran` is untouched |
| Academy.NewInstances | flow-academy.js:59-65 | a target gets a new instance iff it is not marked `split-ran` |
| Academy.MarkInstances | flow-academy.js:67-77 | each new instance's target is split and marked `split-ran`; its letters get delays iff it has `data-letters-delay` |
| Academy.SplitLetters | flow-academy.js:38-77 | a target is split iff it was unmarked; afterwards every target is marked |
| Academy.LettersAfterResize | flow-academy.js:38-69 | as written, a target split at start-up is left without letters after a width change |
| Academy.SplitLettersAgain | flow-academy.js:38-77 | corrected: every target whose instance was just reverted is split again, with its delays |
| Academy.LettersAfterResizeAgain | flow-academy.js:88-96 | with the correction, a letter target is still split after a width change |
| Academy.SplitType | flow-academy.js:184 | the split type is `data-split-reveal`, or "lines" when absent or empty |
| Academy.UnitsToSplit | flow-academy.js:185-187 | lines always; words iff the type is not "lines"; characters iff it is neither "lines" nor "words" |
| Academy.MaskTweenOf | flow-academy.js:197-204 | a tween exists iff the type is lines, words or chars; it animates exactly the unit the type names, which is the finest unit the heading was split into, with a positive duration and stagger |
| Academy.DefaultSplitType | flow-academy.js:184-187 | without a type the heading is split into lines and animated by the lines configuration |
| Academy.ListenForResize | flow-academy.js:84-97 | the listener records the current width and reruns splitting, scroll reveals and the load plan |
| Loader.Present | flow-academy-loading-fix.js:141 | the targets of `[wrapP, wrapButtons]` are exactly those that exist |
| Loader.RevealHeadRoles | flow-academy-loading-fix.js:139-141 | the reveal starts by showing the hero and hiding the wraps |
| Loader.HeroRevealRoles | flow-academy-loading-fix.js:139-180 | no group is animated twice; lines iff at least one; wrap-p, wrap-buttons and nav each iff their element exists |
| Loader.HeroRevealTimeline | flow-academy-loading-fix.js:132-180 | the steps added equal the hero reveal plan |
| Loader.InitHeroReveal | flow-academy-loading-fix.js:118-183 | nothing without `[data-hero-section]`; otherwise the hero reveal plan |
| Loader.HiddenWrapsAreShown | flow-academy-loading-fix.js:141-171 | every wrap hidden at the start is faded in again by a step of its own |
| Loader.ParseWords | flow-academy-loading-fix.js:39 | the words are the comma-separated pieces, each trimmed, in order |
| Loader.WordCount | flow-academy-loading-fix.js:39 | there is one word more than there are commas; no word has a comma or white space at either end |
| Loader.WordTimeline | flow-academy-loading-fix.js:49-77 | fade-in, one text swap per word at "+=0.3" in list order, then fade-out with the container 0.2 s early |
| Loader.SwapsFollowWords | flow-academy-loading-fix.js:58-63 | the timeline swaps the text to exactly the listed words, each once, in order |
| Loader.InitWelcomingWordsLoader | flow-academy-loading-fix.js:20-78 | no container: hero reveal at once; no words element: TypeError; missing or empty list: nothing runs; otherwise the word timeline |
| Loader.LoaderComplete | flow-academy-loading-fix.js:41-46 | the hero reveal starts when the word timeline completes |
| Loader.Init | flow-academy-loading-fix.js:248-258 | with a loading container the loader runs and the hero waits; without one the hero reveal runs at once |
| Sliders.OptionsFor | swiper-init.js:71-109 | navigation iff both buttons exist (next and prev wired as found); pagination iff its element exists; speed 600 ms |
| Sliders.InitializeSingleSwiper | swiper-init.js:69-124 | a throwing constructor is caught and nothing is returned; otherwise an instance on the wrap with the assembled options |
| Sliders.StartOf | swiper-init.js:20-66 | no wrap: skipped; visible wrap: created at once; hidden wrap: creation deferred |
| Sliders.StartsOfAt | swiper-init.js:20-66 | each group's start depends on that group alone, so a skipped or failing group does not affect the others |
| Sliders.InitSwiperSlider | swiper-init.js:13-66 | every group is handled in document order; with no group nothing happens |
| Sliders.DeferredStart.constructor | swiper-init.js:39-59 | a deferred wrap starts observed, with the timer pending and no instance |
| Sliders.DeferredStart.Mutation | swiper-init.js:39-45 | a mutation that finds the wrap visible disconnects the observer and creates the carousel; otherwise nothing happens |
| Sliders.DeferredStart.Timeout | swiper-init.js:53-59 | the 100 ms check creates the carousel iff it finds the wrap visible |
| Sliders.StaysHidden | swiper-init.js:39-59 | a wrap that stays hidden is never initialised |
| Sliders.StartedTwice | swiper-init.js:39-59 | a wrap shown by a class change within 100 ms is initialised twice |

## Left out

- Tween numerics are not modelled. This covers easing curves, durations, the `stagger` inside one tween, interpolation and other floating-point behaviour inside the animation library. A step records kind, offset, visibility, cleanup and start position only. The one exception is the per-unit split configuration (`splitConfig`), whose duration and stagger `Academy.MaskTweenOf` carries because looking it up is what decides whether a heading animates at all.
- Relative positions ("<", "-=0.6", "+=0.3") are kept symbolic and never resolved to absolute times.
- Times are real-valued milliseconds, not integers, because `parseFloat` can yield fractional staggers.
- `parseFloat` is modelled without exponents and without the literal "Infinity". Its leading white space, like that of `trim`, is the full JavaScript set: the Unicode space separators, tab, vertical tab, form feed, the byte order mark and the four line terminators.
- Elements are values, not objects with an identity: two elements with the same id, tag, attributes, classes and children are the same element in the model, and an element does not know its parent. Statements such as "no element is animated twice" are therefore about element values. Where the scripts keep state on a node (letter targets, the deferred carousel start, the once-only trigger, the modal guard), the model uses a class.
- SplitText and SplitType internals are parameters: the letter count of a target, and the line split with its wrappers. This also covers the line-splitting half of both `initSplit` functions and the `initSplit` of flow-academy-loading-fix.js.
- `initTextScroll` (both files) is not modelled. It is a fixed tween per target with no decision beyond "has lines".
- UnicornStudio (`initBackgroundWrapper`), the video modal, the modal's open timeline and the dashboard timeline are not modelled. They are fixed library sequences with no decisions.
- Library-presence checks, console logging, the `gsap.context` revert handle, `ScrollTrigger.refresh` on load completion, and DOMContentLoaded/readyState wiring are not modelled.
- These inputs are parameters:
  - `matchMedia` is the `reduced` flag;
  - `getComputedStyle` is a style function;
  - the existence of `window.initSwiperSlider` is a boolean;
  - a Swiper constructor that throws is the `failing` set.
- Timers, scroll-trigger entries, `MutationObserver` callbacks and `requestAnimationFrame` are events, modelled as method calls. The 50 ms delays before `triggerSwiperUpdate` and before the first `initSwiperSlider`, and the `swiper.update()` in `requestAnimationFrame`, are not modelled.
- The fixed Swiper settings (slides per view, breakpoints, keyboard, mousewheel, observers) are not modelled. Only the speed and the conditional navigation and pagination are.
- Calling an `init*` function twice registers a second listener each time. The model has one listener per call.
- `Reveal.SwiperNeverHidden` is weaker than "swiper elements are never hidden", because the code hides two kinds of swiper element. One is a direct child included as a nested parent while containing a swiper. The other is a childless group root carrying `data-swiper-wrap`.
- `Reveal.ShowAll`: the reduced-motion `gsap.set` on all descendants is one call on a NodeList. It is modelled as one step per descendant.
- `HomeHero.ModalClose.ClickClose`: the close timeline's `onStart` is treated as running synchronously with `play(0)`.
- `Loader.WordTimeline`: when the words element has no `[data-loading-words-target]`, the text swap throws at the moment it runs. The model records the swap with an empty target list and does not model the throw.
- `Sliders.DeferredStart` does not promise exactly one initialisation of a hidden carousel, because the code does not: the observer does not cancel the 100 ms timer.
- `Academy.MaskTweenOf` records the unit, duration and stagger only. The `yPercent: 110`, the mask option and the heading's scroll trigger are fixed values and are left out.

## Findings

| source | as written | input that shows it | evidently intended | confidence | as-written member | corrected member |
|---|---|---|---|---|---|---|
| flow-academy.js:38-69 | a width change reverts the letter instances, then skips every target marked `split-ran`; that marker was set by the first split and is never removed | one `[data-split="letters"]` target, split at start-up, followed by one resize that changes the width | the reverted targets are split into letters again, with their delays | not executed | Academy.LettersAfterResize | Academy.SplitLettersAgain |
