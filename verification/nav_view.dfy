/** The navigation bar's logic: which pages it lists for the selected cluster, and the
    theme-mode toggle. */
module NavView {
  import opened Wrappers
  import opened Clusters

  /** The routes the bar can link to; any other route a cluster type enables is
      `OtherRoute`. */
  datatype Route = Config | Workloads | Admin | K8Dashboard | Ipfs | Rippled | OtherRoute(path: string)

  /** A `MenuModel`: the route it links to; its title is fixed by the route. */
  datatype Page = Page(path: Route)
  {
    function title(): string { Title(path) }
  }

  /** The cluster pages, in the order they are tested. */
  const ClusterRoutes: seq<Route> := [Config, Workloads, Admin, K8Dashboard]

  /** Position of a route in the order the bar lists pages. */
  function Rank(r: Route): nat
  {
    match r
    case Config => 0
    case Workloads => 1
    case Admin => 2
    case K8Dashboard => 3
    case Ipfs => 4
    case Rippled => 5
    case OtherRoute(_) => 6
  }

  /** The title shown for each listed route. */
  function Title(r: Route): string
  {
    match r
    case Config => "Config"
    case Workloads => "Workloads"
    case Admin => "Admin"
    case K8Dashboard => "K8 Dashboard"
    case Ipfs => "IPFS"
    case Rippled => "Rippled CLI"
    case OtherRoute(p) => p
  }

  /** The routes of a page list, in order. */
  function Paths(pages: seq<Page>): (r: seq<Route>)
    ensures |r| == |pages| && forall i :: 0 <= i < |pages| ==> r[i] == pages[i].path
  {
    if |pages| == 0 then [] else [pages[0].path] + Paths(pages[1..])
  }

  /** The pages listed in order: sorted by rank, so each route at most once. */
  predicate WellOrdered(pages: seq<Page>)
  {
    forall i, j :: 0 <= i < j < |pages| ==> Rank(pages[i].path) < Rank(pages[j].path)
  }

  /** The routes ranked below 4 are exactly the cluster routes. */
  lemma ClusterRoutesRanked()
    ensures forall i, j :: 0 <= i < j < |ClusterRoutes| ==> Rank(ClusterRoutes[i]) < Rank(ClusterRoutes[j])
    ensures forall route :: route in ClusterRoutes <==> Rank(route) < 4
  {
  }

  /** One page per candidate route that the routes list, in the candidates' order. */
  function PagesFor(candidates: seq<Route>, navViewRoutes: seq<Route>): (r: seq<Page>)
    requires forall i, j :: 0 <= i < j < |candidates| ==> Rank(candidates[i]) < Rank(candidates[j])
    ensures WellOrdered(r)
    ensures |candidates| > 0 ==> forall i :: 0 <= i < |r| ==> Rank(candidates[0]) <= Rank(r[i].path)
    ensures forall i :: 0 <= i < |r| ==> r[i].path in candidates
  {
    if |candidates| == 0 then []
    else
      var route := candidates[0];
      var rest := PagesFor(candidates[1..], navViewRoutes);
      assert |candidates| > 1 ==> Rank(route) < Rank(candidates[1]);
      if route in navViewRoutes then
        OrderedAppend([Page(route)], rest);
        [Page(route)] + rest
      else rest
  }

  /** A route gets a page exactly when it is a candidate and the routes list it. */
  lemma {:induction false} PagesForListed(candidates: seq<Route>, navViewRoutes: seq<Route>, x: Route)
    requires forall i, j :: 0 <= i < j < |candidates| ==> Rank(candidates[i]) < Rank(candidates[j])
    ensures x in Paths(PagesFor(candidates, navViewRoutes)) <==> x in candidates && x in navViewRoutes
    decreases |candidates|
  {
    if |candidates| > 0 {
      var route := candidates[0];
      var rest := PagesFor(candidates[1..], navViewRoutes);
      PagesForListed(candidates[1..], navViewRoutes, x);
      assert x in candidates <==> x == route || x in candidates[1..];
      if route in navViewRoutes {
        var r := [Page(route)] + rest;
        assert PagesFor(candidates, navViewRoutes) == r;
        assert Paths(r) == [route] + Paths(rest);
      }
    }
  }

  /** The cluster pages for the routes the cluster type enables: Config, Workloads, Admin
      and K8 Dashboard, in that order, each when the routes list it. */
  function ClusterPages(navViewRoutes: seq<Route>): (r: seq<Page>)
    ensures WellOrdered(r)
    ensures forall i :: 0 <= i < |r| ==> Rank(r[i].path) < 4
  {
    ClusterRoutesRanked();
    PagesFor(ClusterRoutes, navViewRoutes)
  }

  /** A route gets a cluster page exactly when it is a cluster route the type enables. */
  lemma {:induction false} ClusterPagesListed(navViewRoutes: seq<Route>, route: Route)
    ensures route in Paths(ClusterPages(navViewRoutes)) <==> Rank(route) < 4 && route in navViewRoutes
  {
    ClusterRoutesRanked();
    PagesForListed(ClusterRoutes, navViewRoutes, route);
  }

  /** The ripple stack is enabled when the cluster's config says exactly `"true"`. */
  predicate RippleEnabled(cluster: Cluster)
  {
    EnableRippleStack in cluster.configs && cluster.configs[EnableRippleStack] == "true"
  }

  /** Two ordered page lists, the first ranked wholly before the second, concatenate to
      an ordered list. */
  lemma OrderedAppend(c: seq<Page>, d: seq<Page>)
    requires WellOrdered(c) && WellOrdered(d)
    requires forall i, j :: 0 <= i < |c| && 0 <= j < |d| ==> Rank(c[i].path) < Rank(d[j].path)
    ensures WellOrdered(c + d)
    ensures Paths(c + d) == Paths(c) + Paths(d)
  {
    var r := c + d;
    assert forall i :: 0 <= i < |c| ==> r[i] == c[i];
    assert forall i :: |c| <= i < |r| ==> r[i] == d[i - |c|];
  }

  /** The pages of the ripple stack. */
  const RipplePages: seq<Page> := [Page(Ipfs), Page(Rippled)]

  /** The ripple pages are in order, after every cluster page. */
  lemma RipplePagesOrdered()
    ensures WellOrdered(RipplePages)
    ensures forall j :: 0 <= j < |RipplePages| ==> 4 <= Rank(RipplePages[j].path)
    ensures Paths(RipplePages) == [Ipfs, Rippled]
  {
  }

  /** `pages`: nothing without a selected cluster; otherwise its cluster pages, then the
      IPFS and Rippled CLI pages when the ripple stack is enabled. */
  function Pages(selected: Option<Cluster>, navViewRoutes: ClusterType -> seq<Route>): (r: seq<Page>)
    ensures selected.None? ==> r == []
    ensures WellOrdered(r)
    ensures selected.Some? && RippleEnabled(selected.value) ==> |r| >= 2 && r[|r| - 2..] == RipplePages
  {
    if selected.None? then []
    else
      var c := ClusterPages(navViewRoutes(selected.value.clusterType));
      if RippleEnabled(selected.value) then
        RipplePagesOrdered();
        OrderedAppend(c, RipplePages);
        var r := c + RipplePages;
        assert r[|c|..] == RipplePages;
        r
      else c
  }

  /** Membership in a list followed by the two ripple routes. */
  lemma InAppendRipple(c: seq<Route>, x: Route)
    ensures x in c + [Ipfs, Rippled] <==> x in c || x == Ipfs || x == Rippled
  {
  }

  /** A cluster route gets a page exactly when the selected cluster's type enables it. */
  lemma {:induction false} PagesListCluster(selected: Option<Cluster>, navViewRoutes: ClusterType -> seq<Route>, route: Route)
    requires selected.Some? && Rank(route) < 4
    ensures route in Paths(Pages(selected, navViewRoutes)) <==> route in navViewRoutes(selected.value.clusterType)
  {
    var routes := navViewRoutes(selected.value.clusterType);
    var c := Paths(ClusterPages(routes));
    ClusterPagesListed(routes, route);
    assert route != Ipfs && route != Rippled;
    PagesAppendRipple(selected, navViewRoutes);
    if RippleEnabled(selected.value) {
      InAppendRipple(c, route);
    }
  }

  /** IPFS and Rippled CLI get a page exactly when the ripple stack is enabled. */
  lemma {:induction false} PagesListRipple(selected: Option<Cluster>, navViewRoutes: ClusterType -> seq<Route>, route: Route)
    requires selected.Some? && (route == Ipfs || route == Rippled)
    ensures route in Paths(Pages(selected, navViewRoutes)) <==> RippleEnabled(selected.value)
  {
    var c := Paths(ClusterPages(navViewRoutes(selected.value.clusterType)));
    ClusterPagesListed(navViewRoutes(selected.value.clusterType), route);
    PagesAppendRipple(selected, navViewRoutes);
    InAppendRipple(c, route);
  }

  /** No other route ever gets a page. */
  lemma {:induction false} PagesListNoOther(selected: Option<Cluster>, navViewRoutes: ClusterType -> seq<Route>, route: Route)
    requires route.OtherRoute?
    ensures route !in Paths(Pages(selected, navViewRoutes))
  {
    if selected.Some? {
      var c := Paths(ClusterPages(navViewRoutes(selected.value.clusterType)));
      ClusterPagesListed(navViewRoutes(selected.value.clusterType), route);
      PagesAppendRipple(selected, navViewRoutes);
      InAppendRipple(c, route);
    }
  }

  /** The routes of the selected cluster's pages: its cluster pages', then IPFS and
      Rippled CLI when the ripple stack is enabled. */
  lemma {:induction false} PagesAppendRipple(selected: Option<Cluster>, navViewRoutes: ClusterType -> seq<Route>)
    requires selected.Some?
    ensures var c := Paths(ClusterPages(navViewRoutes(selected.value.clusterType)));
      Paths(Pages(selected, navViewRoutes)) == if RippleEnabled(selected.value) then c + [Ipfs, Rippled] else c
  {
    var c := ClusterPages(navViewRoutes(selected.value.clusterType));
    if RippleEnabled(selected.value) {
      RipplePagesOrdered();
      OrderedAppend(c, RipplePages);
      assert Pages(selected, navViewRoutes) == c + RipplePages;
    }
  }

  /** The mode used when nothing usable is stored. */
  const DefaultMode: string := "vaporwave"

  /** The starting theme mode: the stored one, or the default when nothing (or the
      empty string) is stored. */
  function InitialMode(stored: Option<string>): (r: string)
    ensures stored.Some? && stored.value != "" ==> r == stored.value
    ensures stored.None? || stored.value == "" ==> r == DefaultMode
    ensures r != ""
  {
    if stored.Some? && stored.value != "" then stored.value else DefaultMode
  }

  /** The three modes of the cycle. */
  predicate InCycle(mode: string)
  {
    mode == "vaporwave" || mode == "light" || mode == "dark"
  }

  /** The toggle button: vaporwave to light, light to dark, anything else to vaporwave. */
  function Toggle(mode: string): (r: string)
    ensures InCycle(r)
    ensures r != mode || !InCycle(mode)
  {
    if mode == "vaporwave" then "light" else if mode == "light" then "dark" else "vaporwave"
  }

  /** Three toggles bring a mode of the cycle back to itself, and the first toggle takes
      any stored mode into the cycle. */
  lemma ToggleCycle(mode: string)
    ensures InCycle(mode) ==> Toggle(Toggle(Toggle(mode))) == mode
    ensures InCycle(mode) ==> Toggle(mode) != mode && Toggle(Toggle(mode)) != mode
    ensures !InCycle(mode) ==> Toggle(mode) == DefaultMode
  {
  }

  /** From the default, the toggle visits light, then dark, then returns. */
  lemma ToggleFromDefault()
    ensures Toggle(DefaultMode) == "light" && Toggle("light") == "dark" && Toggle("dark") == DefaultMode
  {
  }
}
