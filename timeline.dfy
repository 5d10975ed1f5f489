/** Animation plans: a timeline is an ordered list of steps, each naming its
    target, what kind of call produced it, the few properties the scripts'
    decisions are about, and where it starts. Easing, durations and tween
    interpolation belong to the animation library and are not recorded. */
module Timeline {
  import opened Dom

  /** `tl.set`, `tl.to`, `tl.from`, `tl.call`. */
  datatype Kind = Set | To | From | Call

  /** Where a step starts, in milliseconds, kept symbolic:
      `Abs(t)` is an absolute position, `WithPrevious` is "<",
      `Relative(d)` is "+=d" or "-=d", `AfterPrevious` is the default
      (append at the end of the timeline). */
  datatype Position = Abs(ms: real) | WithPrevious | Relative(ms: real) | AfterPrevious

  /** What a step does to visibility:
      `Hide` is autoAlpha 0 (or opacity 0) — for a `from` step, the state it starts from;
      `Show` is autoAlpha 1 (or opacity 1);
      `ForceVisible` is opacity 1 with visibility visible, used where hiding is avoided;
      `Untouched` leaves opacity and visibility alone. */
  datatype Alpha = Hide | Show | ForceVisible | Untouched

  /** The clearProps applied by the step (for a tween: on its completion). */
  datatype Cleanup = NoCleanup | ClearAll | ClearTransform

  /** The vertical offset a step sets or moves to (for a `from` step, starts from):
      `MoveY(v)` is `y: v`, `ShiftYPercent(p)` is `yPercent: p`. */
  datatype Offset = NoMove | MoveY(to: string) | ShiftYPercent(pct: real)

  datatype Step<T> = Step(target: T, kind: Kind, y: Offset, alpha: Alpha, cleanup: Cleanup, pos: Position)
  {
    predicate Hides() { alpha == Hide }
  }

  /** Some step of `plan` acts on `t`. */
  predicate HasStepFor<T(==)>(plan: seq<Step<T>>, t: T)
  {
    exists i :: 0 <= i < |plan| && plan[i].target == t
  }

  /** The element groups the page-load timelines animate. */
  datatype LoadRole = HeroSection | Lines | Nav | RevealItems | PItems | Buttons | Wraps | WrapP | WrapButtons

  /** The markers the load timelines look for. */
  const SingleLine := HasClass("single-line")
  const WrapPSel := AttrIs("data-load-items", "wrap-p")
  const WrapButtonsSel := AttrIs("data-load-items", "wrap-buttons")
  const RevealSel := AttrIs("data-load-items", "reveal")

  /** The reveal-item step of a load timeline: the items come up from 20 %
      below, starting hidden, at 0.3 s; present only when there are at least
      `least` items. */
  function RevealItemsStep(items: seq<Element>, least: nat): Option<Step<Target<LoadRole>>>
  {
    if |items| >= least then Some(Step(Target(RevealItems, items), From, ShiftYPercent(20.0), Hide, NoCleanup, Abs(300.0)))
    else None
  }

  /** The paragraph step: the `p` elements of the paragraph wrap move up at
      0.3 s; present only when there is such a wrap. */
  function PItemsStep(pWrap: Option<Element>): Option<Step<Target<LoadRole>>>
  {
    match pWrap
    case Some(w) => Some(Step(Target(PItems, QuerySelectorAll(w, Tag("p"))), To, MoveY("0"), Untouched, NoCleanup, Abs(300.0)))
    case None => None
  }

  /** The button step: the buttons of the button wrap come in from hidden at
      0.8 s; present only when there is such a wrap. */
  function ButtonsStep(buttonWrap: Option<Element>, buttonSel: Selector): Option<Step<Target<LoadRole>>>
  {
    match buttonWrap
    case Some(w) => Some(Step(Target(Buttons, QuerySelectorAll(w, buttonSel)), From, NoMove, Hide, NoCleanup, Abs(800.0)))
    case None => None
  }

  /** A step target: what it stands for in the page, and the elements it
      resolves to (a NodeList, or the one element found). */
  datatype Target<R> = Target(role: R, nodes: seq<Element>)

  /** A step of a page-load timeline. */
  type LoadStep = Step<Target<LoadRole>>

  /** Some step of `plan` animates the group `role`. */
  predicate HasRole<R(==)>(plan: seq<Step<Target<R>>>, role: R)
  {
    exists i :: 0 <= i < |plan| && plan[i].target.role == role
  }

  /** In `plan`, the group `role` is animated by the step `expected` and by
      no other step, or, when `expected` is None, not animated at all. */
  predicate StepFor<R(==)>(plan: seq<Step<Target<R>>>, role: R, expected: Option<Step<Target<R>>>)
  {
    match expected
    case None => !HasRole(plan, role)
    case Some(s) =>
      s.target.role == role && s in plan
      && forall i :: 0 <= i < |plan| && plan[i].target.role == role ==> plan[i] == s
  }

  /** No two steps of `plan` animate the same group. */
  predicate DistinctRoles<R(==)>(plan: seq<Step<Target<R>>>)
  {
    forall i, j :: 0 <= i < j < |plan| ==> plan[i].target.role != plan[j].target.role
  }

  /** Appending a step for a group not yet animated: that group is now
      animated by exactly that step, and the groups stay distinct. */
  lemma AppendNewRole<R>(plan: seq<Step<Target<R>>>, s: Step<Target<R>>)
    requires DistinctRoles(plan) && !HasRole(plan, s.target.role)
    ensures DistinctRoles(plan + [s])
    ensures StepFor(plan + [s], s.target.role, Some(s))
  {
  }

  /** Appending a step leaves what any other group is animated by unchanged. */
  lemma AppendOtherRole<R>(plan: seq<Step<Target<R>>>, s: Step<Target<R>>, role: R, e: Option<Step<Target<R>>>)
    requires role != s.target.role && StepFor(plan, role, e)
    ensures StepFor(plan + [s], role, e)
  {
  }

  /** The steps a guarded `tl.to(...)` adds: its one step, or none when the
      guard fails. */
  function Opt<T>(o: Option<T>): (r: seq<T>)
    ensures |r| == (if o.Some? then 1 else 0)
  {
    match o
    case Some(s) => [s]
    case None => []
  }

  /** Appending a guarded step for a group not yet animated: that group is
      animated by exactly that step (or not at all when the guard failed),
      the groups stay distinct, and every other group keeps its step. */
  lemma AppendOpt<R>(plan: seq<Step<Target<R>>>, o: Option<Step<Target<R>>>, role: R)
    requires DistinctRoles(plan) && !HasRole(plan, role)
    requires o.Some? ==> o.value.target.role == role
    ensures DistinctRoles(plan + Opt(o)) && StepFor(plan + Opt(o), role, o)
    ensures forall other, e :: other != role && StepFor(plan, other, e) ==> StepFor(plan + Opt(o), other, e)
  {
    if o.Some? {
      AppendNewRole(plan, o.value);
      forall other, e | other != role && StepFor(plan, other, e)
        ensures StepFor(plan + Opt(o), other, e)
      {
        AppendOtherRole(plan, o.value, other, e);
      }
    } else {
      assert plan + Opt(o) == plan;
    }
  }

  /** Three guarded steps for three groups the plan does not animate yet:
      each group ends up animated by its own step (or not at all), the groups
      stay distinct, and every other group keeps its step. */
  lemma AppendOpts<R>(plan: seq<Step<Target<R>>>, a: Option<Step<Target<R>>>, b: Option<Step<Target<R>>>,
                      c: Option<Step<Target<R>>>, ra: R, rb: R, rc: R)
    requires DistinctRoles(plan) && !HasRole(plan, ra) && !HasRole(plan, rb) && !HasRole(plan, rc)
    requires ra != rb && ra != rc && rb != rc
    requires (a.Some? ==> a.value.target.role == ra) && (b.Some? ==> b.value.target.role == rb)
    requires c.Some? ==> c.value.target.role == rc
    ensures DistinctRoles(plan + Opt(a) + Opt(b) + Opt(c))
    ensures StepFor(plan + Opt(a) + Opt(b) + Opt(c), ra, a) && StepFor(plan + Opt(a) + Opt(b) + Opt(c), rb, b)
    ensures StepFor(plan + Opt(a) + Opt(b) + Opt(c), rc, c)
    ensures forall other, e :: other != ra && other != rb && other != rc && StepFor(plan, other, e) ==>
      StepFor(plan + Opt(a) + Opt(b) + Opt(c), other, e)
  {
    assert StepFor(plan, rb, None) && StepFor(plan, rc, None);
    AppendOpt(plan, a, ra);
    AppendOpt(plan + Opt(a), b, rb);
    AppendOpt(plan + Opt(a) + Opt(b), c, rc);
  }

  /** A timeline assembled chunk by chunk: `prefixes[m]` is the timeline after
      the first `m` chunks have been appended. */
  ghost predicate BuiltFrom<T>(prefixes: seq<seq<T>>, chunks: seq<seq<T>>)
  {
    |prefixes| == |chunks| + 1 && prefixes[0] == []
    && forall m :: 0 <= m < |chunks| ==> prefixes[m + 1] == prefixes[m] + chunks[m]
  }

  /** The `k`-th step of chunk `i` sits right after the steps of the earlier chunks. */
  lemma {:induction false} ChunkAt<T>(prefixes: seq<seq<T>>, chunks: seq<seq<T>>, i: nat, k: nat)
    requires BuiltFrom(prefixes, chunks) && i < |chunks| && k < |chunks[i]|
    ensures |prefixes[i]| + k < |prefixes[|chunks|]|
    ensures prefixes[|chunks|][|prefixes[i]| + k] == chunks[i][k]
  {
    var n := |chunks|;
    if i < n - 1 {
      ChunkAt(prefixes[..n], chunks[..n - 1], i, k);
      assert prefixes[n] == prefixes[n - 1] + chunks[n - 1];
    } else {
      assert prefixes[n] == prefixes[n - 1] + chunks[n - 1];
    }
  }

  /** Every step of the whole timeline comes from one of the chunks. */
  lemma {:induction false} InSomeChunk<T>(prefixes: seq<seq<T>>, chunks: seq<seq<T>>, x: T)
    requires BuiltFrom(prefixes, chunks) && x in prefixes[|chunks|]
    ensures exists i :: 0 <= i < |chunks| && x in chunks[i]
  {
    var n := |chunks|;
    assert n > 0;
    assert prefixes[n] == prefixes[n - 1] + chunks[n - 1];
    if x !in chunks[n - 1] {
      InSomeChunk(prefixes[..n], chunks[..n - 1], x);
      var i :| 0 <= i < n - 1 && x in chunks[..n - 1][i];
      assert x in chunks[i];
    }
  }

  /** Every step of every chunk is in the whole timeline. */
  lemma ChunkIn<T>(prefixes: seq<seq<T>>, chunks: seq<seq<T>>, i: nat, x: T)
    requires BuiltFrom(prefixes, chunks) && i < |chunks| && x in chunks[i]
    ensures x in prefixes[|chunks|]
  {
    var k :| 0 <= k < |chunks[i]| && chunks[i][k] == x;
    ChunkAt(prefixes, chunks, i, k);
  }

  /** A timeline under construction: the library object that `gsap.timeline()`
      returns, of which only the list of added steps is modelled. */
  class Builder<T> {
    var steps: seq<Step<T>>

    constructor ()
      ensures steps == []
    {
      steps := [];
    }

    /** Every `tl.set/to/from/call` appends exactly one step. */
    method Add(s: Step<T>)
      modifies this
      ensures steps == old(steps) + [s]
    {
      steps := steps + [s];
    }

    /** A guarded `tl.to/from(...)`: appends the step when its guard held. */
    method AddIf(o: Option<Step<T>>)
      modifies this
      ensures steps == old(steps) + Opt(o)
    {
      if o.Some? {
        Add(o.value);
      }
    }
  }
}
