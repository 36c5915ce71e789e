/**
 * `Route.function` and `RouteSelector.isSupport` of OpenCensusTracer.kt:
 * rebuilding a normalised path ("/customer/{id}") from a route's chain of
 * ancestors, keeping only the path-segment and combinator selectors.
 *
 * A Ktor route is an object with an immutable parent link and selector;
 * a selector's `toString()` is taken as a given display string.
 */
module Routes {

  /** The route selector classes of Ktor's routing. */
  datatype SelectorKind =
    | RootSelector
    | PathSegmentConstant
    | PathSegmentParameter
    | PathSegmentOptionalParameter
    | PathSegmentWildcard
    | PathSegmentTailcard
    | OrSelector
    | AndSelector
    | HttpMethodSelector
    | HttpHeaderSelector
    | HttpAcceptSelector
    | ConstantParameterSelector
    | ParameterSelector
    | OptionalParameterSelector

  /** A selector: its class and what its `toString()` shows. */
  datatype RouteSelector = RouteSelector(kind: SelectorKind, display: string)

  /** `isSupport`: the selectors that stand for a part of the path. */
  predicate IsSupport(s: RouteSelector)
    ensures IsSupport(s) <==> s.kind in {PathSegmentConstant, PathSegmentParameter,
      PathSegmentOptionalParameter, PathSegmentWildcard, PathSegmentTailcard, OrSelector, AndSelector}
  {
    match s.kind
    case PathSegmentConstant | PathSegmentParameter | PathSegmentOptionalParameter
       | PathSegmentWildcard | PathSegmentTailcard | OrSelector | AndSelector => true
    case _ => false
  }

  /** A node of the routing tree. */
  class Route {
    const parent: Route?
    const selector: RouteSelector
    /** Distance from the root. */
    ghost const Depth: nat
    /** The selectors from the root down to this route, this route's own last. */
    ghost const Chain: seq<RouteSelector>

    ghost predicate Valid()
      decreases Depth
    {
      && |Chain| == Depth + 1
      && Chain[Depth] == selector
      && (parent == null ==> Depth == 0)
      && (parent != null ==>
            && Depth == parent.Depth + 1
            && Chain[..Depth] == parent.Chain
            && parent.Valid())
    }

    constructor (parent: Route?, selector: RouteSelector)
      requires parent != null ==> parent.Valid()
      ensures Valid() && this.parent == parent && this.selector == selector
      ensures Chain == (if parent == null then [] else parent.Chain) + [selector]
    {
      this.parent := parent;
      this.selector := selector;
      Depth := if parent == null then 0 else parent.Depth + 1;
      Chain := (if parent == null then [] else parent.Chain) + [selector];
    }
  }

  /** The supported selectors of `ss`, in the same order. */
  function Supported(ss: seq<RouteSelector>): (r: seq<RouteSelector>)
    ensures forall i :: 0 <= i < |r| ==> IsSupport(r[i])
    ensures |r| <= |ss|
  {
    if ss == [] then []
    else (if IsSupport(ss[0]) then [ss[0]] else []) + Supported(ss[1..])
  }

  /** Kotlin `reversed()`. */
  function Reverse<T>(s: seq<T>): (r: seq<T>)
    ensures |r| == |s|
    ensures forall i :: 0 <= i < |s| ==> r[i] == s[|s| - 1 - i]
  {
    if s == [] then [] else [s[|s| - 1]] + Reverse(s[..|s| - 1])
  }

  /** Kotlin `joinToString("/")` over the selectors' display strings. */
  function JoinDisplays(ss: seq<RouteSelector>): string {
    if ss == [] then ""
    else if |ss| == 1 then ss[0].display
    else ss[0].display + "/" + JoinDisplays(ss[1..])
  }

  /** What `Route.function` returns for a route whose root-to-route selector
      chain is `chain`: the supported selectors of the ancestors only. */
  function RoutePath(chain: seq<RouteSelector>): (path: string)
    requires |chain| > 0
    ensures |path| >= 1 && path[0] == '/'
    ensures Supported(chain[..|chain| - 1]) == [] ==> path == "/"
  {
    "/" + JoinDisplays(Supported(chain[..|chain| - 1]))
  }

  /** `Route.function`: walk the parent links up to the root, collecting the
      supported selectors, then join them root first. */
  method Function(route: Route) returns (path: string)
    requires route.Valid()
    ensures path == RoutePath(route.Chain)
  {
    var selectors: seq<RouteSelector> := [];
    var p := route.parent;
    ghost var k := route.Depth;
    while p != null
      invariant p == null ==> k == 0
      invariant p != null ==> p.Valid() && k == p.Depth + 1 && route.Chain[..k] == p.Chain
      invariant k <= route.Depth
      invariant Reverse(selectors) == Supported(route.Chain[k..route.Depth])
      decreases k
    {
      var s := p.selector;
      ghost var rest := route.Chain[k..route.Depth];
      assert s == route.Chain[k - 1] by {
        assert p.Chain[p.Depth] == s;
      }
      assert route.Chain[k - 1..route.Depth] == [s] + rest;
      if IsSupport(s) {
        assert selectors + [s] != [];
        assert (selectors + [s])[..|selectors|] == selectors;
        selectors := selectors + [s];
      }
      p := p.parent;
      k := k - 1;
    }
    assert route.Chain[0..route.Depth] == route.Chain[..|route.Chain| - 1];
    path := "/" + JoinDisplays(Reverse(selectors));
  }

  /** Keeping supported selectors distributes over concatenation. */
  lemma {:induction false} SupportedAppend(a: seq<RouteSelector>, b: seq<RouteSelector>)
    ensures Supported(a + b) == Supported(a) + Supported(b)
    decreases |a|
  {
    if a == [] {
      assert a + b == b;
    } else {
      assert (a + b)[0] == a[0];
      assert (a + b)[1..] == a[1..] + b;
      SupportedAppend(a[1..], b);
    }
  }

  /** A selector is kept exactly when it occurs in the input and is supported. */
  lemma {:induction false} SupportedMembers(ss: seq<RouteSelector>)
    ensures forall x :: x in Supported(ss) <==> x in ss && IsSupport(x)
    decreases |ss|
  {
    if ss != [] {
      SupportedMembers(ss[1..]);
      assert ss == [ss[0]] + ss[1..];
    }
  }

  /** A single selector is kept exactly when it is supported. */
  lemma SupportedSingle(x: RouteSelector)
    ensures Supported([x]) == if IsSupport(x) then [x] else []
  {
    assert [x][1..] == [];
  }

  /** Joining one more display string adds it after a "/" (or alone). */
  lemma {:induction false} JoinDisplaysSnoc(ss: seq<RouteSelector>, s: RouteSelector)
    ensures JoinDisplays(ss + [s]) ==
      if ss == [] then s.display else JoinDisplays(ss) + "/" + s.display
    decreases |ss|
  {
    if |ss| == 1 {
      assert (ss + [s])[1..] == [s];
    } else if |ss| > 1 {
      assert (ss + [s])[1..] == ss[1..] + [s];
      JoinDisplaysSnoc(ss[1..], s);
    }
  }

  /** Nothing supported in the chain above the route: the path is "/". */
  lemma {:induction false} NoSupportedAncestorsIsRoot(chain: seq<RouteSelector>)
    requires |chain| > 0
    requires forall i :: 0 <= i < |chain| - 1 ==> !IsSupport(chain[i])
    ensures RoutePath(chain) == "/"
  {
    NoneSupported(chain[..|chain| - 1]);
  }

  lemma {:induction false} NoneSupported(ss: seq<RouteSelector>)
    requires forall i :: 0 <= i < |ss| ==> !IsSupport(ss[i])
    ensures Supported(ss) == []
    decreases |ss|
  {
    if ss != [] {
      assert !IsSupport(ss[0]);
      forall i | 0 <= i < |ss[1..]| ensures !IsSupport(ss[1..][i]) {
        assert ss[1..][i] == ss[i + 1];
      }
      NoneSupported(ss[1..]);
    }
  }

  /** The route's own selector never shows in its path. */
  lemma OwnSelectorExcluded(ancestors: seq<RouteSelector>, s: RouteSelector, t: RouteSelector)
    ensures RoutePath(ancestors + [s]) == RoutePath(ancestors + [t])
  {
    assert (ancestors + [s])[..|ancestors|] == ancestors;
    assert (ancestors + [t])[..|ancestors|] == ancestors;
  }

  /** Root-to-leaf order: a child's path is its parent's path extended by the
      parent's selector when that selector is supported. */
  lemma {:induction false} ChildPathExtendsParent(parentChain: seq<RouteSelector>, child: RouteSelector)
    requires |parentChain| > 0
    ensures var p := parentChain[|parentChain| - 1];
      RoutePath(parentChain + [child]) ==
        if !IsSupport(p) then RoutePath(parentChain)
        else if Supported(parentChain[..|parentChain| - 1]) == [] then "/" + p.display
        else RoutePath(parentChain) + "/" + p.display
  {
    var n := |parentChain|;
    var p := parentChain[n - 1];
    var above := parentChain[..n - 1];
    var kept := Supported(above);
    assert (parentChain + [child])[..n] == above + [p];
    assert RoutePath(parentChain + [child]) == "/" + JoinDisplays(Supported(above + [p]));
    assert RoutePath(parentChain) == "/" + JoinDisplays(kept);
    SupportedAppend(above, [p]);
    SupportedSingle(p);
    if IsSupport(p) {
      assert Supported(above + [p]) == kept + [p];
      JoinDisplaysSnoc(kept, p);
    } else {
      assert Supported(above + [p]) == kept + [];
      assert kept + [] == kept;
    }
  }

  /** The route `PATCH /customer/{id}` of the example application: its path
      is "/customer/{id}", the method selector being the route's own. */
  lemma CustomerIdExample()
    ensures RoutePath([RouteSelector(RootSelector, ""), RouteSelector(PathSegmentConstant, "customer"),
                       RouteSelector(PathSegmentParameter, "{id}"), RouteSelector(HttpMethodSelector, "(method:PATCH)")])
            == "/customer/{id}"
  {
    var root, customer, id := RouteSelector(RootSelector, ""), RouteSelector(PathSegmentConstant, "customer"),
                              RouteSelector(PathSegmentParameter, "{id}");
    var chain := [root, customer, id, RouteSelector(HttpMethodSelector, "(method:PATCH)")];
    assert chain[..|chain| - 1] == [root, customer, id];
    assert [root, customer, id][1..] == [customer, id];
    assert [customer, id][1..] == [id];
    assert [id][1..] == [];
    assert Supported([id]) == [id] + Supported([]);
    assert Supported([customer, id]) == [customer] + Supported([id]);
    assert Supported([root, customer, id]) == Supported([customer, id]);
    assert Supported([root, customer, id]) == [customer, id];
    assert JoinDisplays([customer, id]) == "customer" + "/" + JoinDisplays([id]);
    assert RoutePath(chain) == "/" + JoinDisplays([customer, id]);
    assert "/" + ("customer" + "/" + "{id}") == "/customer/{id}";
  }
}
