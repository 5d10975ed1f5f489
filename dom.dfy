/** An abstract document tree: elements with an attribute map, a class list
    and ordered element children, and the three queries the scripts use
    (matches, querySelector, querySelectorAll) over a small selector language. */
module Dom {

  datatype Option<T> = None | Some(value: T)

  /** An element node. `id` only tells apart elements whose tag, attributes
      and subtrees happen to coincide; it is not the HTML id attribute. */
  datatype Element = Element(id: nat, tag: string, attrs: map<string, string>, classes: set<string>, children: seq<Element>)

  /** The selectors the scripts use: `[name]`, `[name="value"]`, `.name`,
      a tag name, and a comma-separated selector list. */
  datatype Selector =
    | HasAttr(name: string)
    | AttrIs(name: string, value: string)
    | HasClass(name: string)
    | Tag(name: string)
    | AnyOf(alternatives: seq<Selector>)

  predicate Matches(e: Element, sel: Selector)
    decreases sel, 1
  {
    match sel
    case HasAttr(n) => n in e.attrs
    case AttrIs(n, v) => n in e.attrs && e.attrs[n] == v
    case HasClass(c) => c in e.classes
    case Tag(t) => e.tag == t
    case AnyOf(alts) => MatchesSome(e, alts)
  }

  /** Some selector of the list matches. */
  predicate MatchesSome(e: Element, alts: seq<Selector>)
    decreases alts, 0
  {
    alts != [] && (Matches(e, alts[0]) || MatchesSome(e, alts[1..]))
  }

  /** `getAttribute`: None stands for JavaScript's null. */
  function GetAttr(e: Element, name: string): (r: Option<string>)
    ensures r.Some? <==> name in e.attrs
    ensures r.Some? ==> r.value == e.attrs[name]
  {
    if name in e.attrs then Some(e.attrs[name]) else None
  }

  /** Every descendant of `e` (not `e` itself) in document (pre-)order. */
  function Descendants(e: Element): seq<Element>
    decreases e, 1
  {
    DescendantsOf(e.children)
  }

  function DescendantsOf(cs: seq<Element>): seq<Element>
    decreases cs, 0
  {
    if cs == [] then [] else [cs[0]] + Descendants(cs[0]) + DescendantsOf(cs[1..])
  }

  /** The first element of `es` that matches `sel`. */
  function First(es: seq<Element>, sel: Selector): (r: Option<Element>)
    ensures r.Some? <==> exists i :: 0 <= i < |es| && Matches(es[i], sel)
    ensures r.Some? ==> r.value in es && Matches(r.value, sel)
  {
    if es == [] then None
    else if Matches(es[0], sel) then Some(es[0])
    else
      var r := First(es[1..], sel);
      assert forall i :: 1 <= i < |es| ==> es[i] == es[1..][i - 1];
      r
  }

  /** No element before the one `First` returns matches. */
  lemma {:induction false} FirstIsFirst(es: seq<Element>, sel: Selector)
    requires First(es, sel).Some?
    ensures exists i :: 0 <= i < |es| && es[i] == First(es, sel).value && forall j :: 0 <= j < i ==> !Matches(es[j], sel)
  {
    if !Matches(es[0], sel) {
      var t := es[1..];
      assert First(es, sel) == First(t, sel);
      FirstIsFirst(t, sel);
      var i :| 0 <= i < |t| && t[i] == First(t, sel).value && forall j :: 0 <= j < i ==> !Matches(t[j], sel);
      forall j | 0 <= j < i + 1
        ensures !Matches(es[j], sel)
      {
        if j > 0 {
          assert es[j] == t[j - 1];
        }
      }
      assert es[i + 1] == t[i];
    }
  }

  /** `e.querySelector(sel)`: the first matching descendant, or null. */
  function QuerySelector(e: Element, sel: Selector): Option<Element>
  {
    First(Descendants(e), sel)
  }

  /** `e.querySelectorAll(sel)`: every matching descendant, in document order. */
  function QuerySelectorAll(e: Element, sel: Selector): (r: seq<Element>)
    ensures forall x :: x in r <==> x in Descendants(e) && Matches(x, sel)
  {
    FilterMembers(Descendants(e), sel);
    Filter(Descendants(e), sel)
  }

  /** The elements of `es` that match `sel`. */
  function Filter(es: seq<Element>, sel: Selector): seq<Element>
  {
    if es == [] then []
    else if Matches(es[0], sel) then [es[0]] + Filter(es[1..], sel)
    else Filter(es[1..], sel)
  }

  /** `Filter` keeps exactly the matching elements, and no more than there were. */
  lemma {:induction false} FilterMembers(es: seq<Element>, sel: Selector)
    ensures forall x :: x in Filter(es, sel) <==> x in es && Matches(x, sel)
    ensures |Filter(es, sel)| <= |es|
  {
    if es != [] {
      FilterMembers(es[1..], sel);
      assert forall x :: x in es <==> x == es[0] || x in es[1..];
    }
  }

  /** `Filter` keeps the order of the list: the matches of an earlier part
      come before those of a later part, and a single element is kept
      exactly when it matches. Together these determine `Filter` on every
      list. */
  lemma {:induction false} FilterKeepsOrder(a: seq<Element>, b: seq<Element>, sel: Selector)
    ensures Filter(a + b, sel) == Filter(a, sel) + Filter(b, sel)
    ensures |a| == 1 ==> Filter(a, sel) == (if Matches(a[0], sel) then a else [])
  {
    if a == [] {
      assert a + b == b;
    } else {
      var t := a[1..];
      FilterKeepsOrder(t, b, sel);
      var ab := a + b;
      assert ab[0] == a[0] && ab[1..] == t + b;
      if Matches(a[0], sel) {
        calc {
          Filter(ab, sel);
          [a[0]] + Filter(t + b, sel);
          [a[0]] + (Filter(t, sel) + Filter(b, sel));
          ([a[0]] + Filter(t, sel)) + Filter(b, sel);
        }
      }
      if |a| == 1 {
        assert t == [];
      }
    }
  }

  /** The first element `querySelectorAll` lists is the one `querySelector` finds. */
  lemma {:induction false} FilterStartsWithFirst(es: seq<Element>, sel: Selector)
    ensures Filter(es, sel) != [] <==> First(es, sel).Some?
    ensures Filter(es, sel) != [] ==> Filter(es, sel)[0] == First(es, sel).value
  {
    if es != [] && !Matches(es[0], sel) {
      FilterStartsWithFirst(es[1..], sel);
    }
  }

  lemma QuerySelectorAllStartsWithFirst(e: Element, sel: Selector)
    ensures QuerySelectorAll(e, sel) != [] <==> Contains(e, sel)
    ensures QuerySelectorAll(e, sel) != [] ==> QuerySelectorAll(e, sel)[0] == QuerySelector(e, sel).value
  {
    FilterStartsWithFirst(Descendants(e), sel);
  }

  /** Some descendant of `e` matches `sel`. */
  predicate Contains(e: Element, sel: Selector)
  {
    QuerySelector(e, sel).Some?
  }

  /** `e.matches(sel) || e.querySelector(sel)`: the element is or contains a match. */
  predicate IsOrContains(e: Element, sel: Selector)
  {
    Matches(e, sel) || Contains(e, sel)
  }

  /** A direct child is a descendant, and so is every descendant of a child. */
  lemma {:induction false} ChildDescendants(cs: seq<Element>, i: nat)
    requires i < |cs|
    ensures cs[i] in DescendantsOf(cs)
    ensures forall x :: x in Descendants(cs[i]) ==> x in DescendantsOf(cs)
    decreases i
  {
    if i > 0 {
      ChildDescendants(cs[1..], i - 1);
    }
  }

  /** A child that is or contains a match makes its parent contain one. */
  lemma ChildIsOrContains(e: Element, i: nat, sel: Selector)
    requires i < |e.children| && IsOrContains(e.children[i], sel)
    ensures Contains(e, sel)
  {
    ChildDescendants(e.children, i);
    if Matches(e.children[i], sel) {
      assert e.children[i] in Descendants(e);
    } else {
      var d := QuerySelector(e.children[i], sel).value;
      assert d in Descendants(e);
    }
  }

  /** An element without element children has no descendants at all. */
  lemma LeafHasNoDescendants(e: Element)
    requires e.children == []
    ensures Descendants(e) == [] && !Contains(e, HasAttr("data-swiper-wrap"))
  {
  }
}
