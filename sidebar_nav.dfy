/** The sidebar's navigation table and the rule that marks an entry active for
    the current path: exact equality for an entry flagged `matchExact`, a
    string prefix test (not a path-segment test) for every other entry. */
module SidebarNav {

  /** `title` is the entry's visible label; the icon is presentation only and is not modelled. */
  datatype NavItem = NavItem(href: string, title: string, matchExact: bool)

  const NavItems: seq<NavItem> := [
    NavItem("/dashboard", "Dashboard", true),
    NavItem("/dynamic-query-routing", "Query Routing", false),
    NavItem("/self-prompting-optimization", "Prompt Optimization", false),
    NavItem("/energy-aware-model-selection", "Energy-Aware Selection", false),
    NavItem("/collaborative-output-refinement", "Output Refinement", false),
    NavItem("/ai-tools", "AI Tools", false)
  ]

  /** `item.matchExact ? pathname === item.href : pathname.startsWith(item.href)`:
      an active entry's href always begins the path, and an exactly matched
      entry is active on no longer path. */
  function IsActive(item: NavItem, pathname: string): (active: bool)
    ensures active ==> item.href <= pathname
    ensures active && item.matchExact ==> |pathname| == |item.href|
    ensures !item.matchExact ==> (active <==> item.href <= pathname)
  {
    if item.matchExact then pathname == item.href else item.href <= pathname
  }

  /** The indices of the entries highlighted for `pathname`: never more than one. */
  function ActiveItems(pathname: string): (active: set<nat>)
    ensures forall i: nat :: i in active <==> i < |NavItems| && IsActive(NavItems[i], pathname)
    ensures |active| <= 1
  {
    var active := set i: nat | i < |NavItems| && IsActive(NavItems[i], pathname);
    AtMostOneActive(pathname);
    AtMostOneIndex(active, pathname);
    active
  }

  /** A set of active indices with no two distinct members has at most one. */
  lemma AtMostOneIndex(active: set<nat>, pathname: string)
    requires forall i: nat :: i in active ==> i < |NavItems| && IsActive(NavItems[i], pathname)
    requires forall i, j :: (0 <= i < |NavItems| && 0 <= j < |NavItems| && i != j
      && IsActive(NavItems[i], pathname)) ==> !IsActive(NavItems[j], pathname)
    ensures |active| <= 1
  {
    if active != {} {
      var i :| i in active;
      assert active == {i};
    }
  }

  /** Six entries; only the dashboard is matched exactly. */
  lemma TableShape()
    ensures |NavItems| == 6
    ensures NavItems[0].matchExact
    ensures forall i :: 1 <= i < |NavItems| ==> !NavItems[i].matchExact
  {
  }

  /** No entry's href is a prefix of another's. */
  lemma NoHrefIsPrefixOfAnother()
    ensures forall i, j :: 0 <= i < |NavItems| && 0 <= j < |NavItems| && i != j ==>
      !(NavItems[i].href <= NavItems[j].href)
  {
    forall i, j | 0 <= i < |NavItems| && 0 <= j < |NavItems| && i != j
      ensures !(NavItems[i].href <= NavItems[j].href)
    {
      DistinctAt(i, j);
    }
  }

  /** One pair of the table: the two hrefs differ at a position both of them
      have (the second character, or the third for the two that start "/d"),
      so neither is a prefix of the other. */
  lemma DistinctAt(i: nat, j: nat)
    requires i < |NavItems| && j < |NavItems| && i != j
    ensures !(NavItems[i].href <= NavItems[j].href)
  {
    var a, b := NavItems[i].href, NavItems[j].href;
    if {i, j} == {0, 1} {
      assert a[2] != b[2];
    } else {
      assert a[1] != b[1];
    }
  }

  /** The hrefs, which are the list's React keys, are pairwise distinct. */
  lemma HrefsDistinct()
    ensures forall i, j :: 0 <= i < j < |NavItems| ==> NavItems[i].href != NavItems[j].href
  {
    NoHrefIsPrefixOfAnother();
  }

  /** Two prefixes of one sequence are comparable: the shorter is a prefix of the longer. */
  lemma PrefixesComparable(a: string, b: string, p: string)
    requires a <= p && b <= p
    ensures |a| <= |b| ==> a <= b
    ensures |b| <= |a| ==> b <= a
  {
  }

  /** For every path no two entries are highlighted. */
  lemma AtMostOneActive(pathname: string)
    ensures forall i, j :: (0 <= i < |NavItems| && 0 <= j < |NavItems| && i != j
      && IsActive(NavItems[i], pathname)) ==> !IsActive(NavItems[j], pathname)
  {
    NoHrefIsPrefixOfAnother();
    forall i, j | 0 <= i < |NavItems| && 0 <= j < |NavItems| && i != j && IsActive(NavItems[i], pathname)
      ensures !IsActive(NavItems[j], pathname)
    {
      if IsActive(NavItems[j], pathname) {
        var a, b := NavItems[i].href, NavItems[j].href;
        PrefixesComparable(a, b, pathname);
        assert false;
      }
    }
  }

  /** The dashboard is highlighted on `/dashboard` only, not below it. */
  lemma DashboardExact(rest: string)
    requires rest != []
    ensures IsActive(NavItems[0], "/dashboard")
    ensures !IsActive(NavItems[0], "/dashboard" + rest)
  {
  }

  /** Every other entry is highlighted on any path that starts with its href,
      including one that merely continues the last segment. */
  lemma PrefixActivates(i: nat, rest: string)
    requires 1 <= i < |NavItems|
    ensures IsActive(NavItems[i], NavItems[i].href + rest)
    ensures IsActive(NavItems[5], "/ai-toolsX")
  {
    assert "/ai-toolsX" == NavItems[5].href + "X";
  }
}
