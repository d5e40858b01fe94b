/** The dashboard shell (src/components/layout/DashboardLayout.tsx): the per-role
    sidebar links, which of them is current, the header breadcrumbs and the avatar
    initials. The signed-in user comes from a helper that is not part of this
    model; its role and name are parameters here. */
module DashboardLayout {
  import opened Optional
  import opened Seqs
  import opened Text
  import opened Roles
  import opened BreadcrumbNav

  datatype NavItem = NavItem(name: string, href: string)

  /** A sidebar link with its `current` flag. */
  datatype MarkedItem = MarkedItem(name: string, href: string, current: bool)

  /** A header breadcrumb. */
  datatype LayoutCrumb = LayoutCrumb(name: string, href: string)

  /** `navigationConfig[role]`. */
  function NavigationConfig(r: Role): seq<NavItem>
  {
    match r
    case Admin => [
      NavItem("Overview", "/dashboard/admin"),
      NavItem("Users & Merchants", "/dashboard/admin/users"),
      NavItem("Quick Actions", "/dashboard/admin/actions"),
      NavItem("Settings", "/dashboard/admin/settings")]
    case Merchant => [
      NavItem("Overview", "/dashboard/merchant"),
      NavItem("Approvals", "/dashboard/merchant/approvals"),
      NavItem("Customers", "/dashboard/merchant/customers"),
      NavItem("Contribution", "/dashboard/merchant/contribution"),
      NavItem("Notifications", "/dashboard/merchant/notifications"),
      NavItem("Settings", "/dashboard/merchant/settings")]
    case Member => [
      NavItem("Overview", "/dashboard/member"),
      NavItem("Points", "/dashboard/member/points"),
      NavItem("Rewards", "/dashboard/member/rewards"),
      NavItem("Activity", "/dashboard/member/activity"),
      NavItem("Settings", "/dashboard/member/settings")]
  }

  /** `roleLabels[role]`. */
  function RoleLabel(r: Role): string
  {
    match r
    case Admin => "Admin Portal"
    case Merchant => "Merchant Portal"
    case Member => "Member Portal"
  }

  /** The root of a role's dashboard, `/dashboard/${role}`. */
  function DashboardRoot(r: Role): string
  {
    "/dashboard/" + RoleName(r)
  }

  predicate HrefsDistinct(items: seq<NavItem>)
  {
    forall i, j :: 0 <= i < j < |items| ==> items[i].href != items[j].href
  }

  /** Every sidebar link stays inside the role's own dashboard, and the first is
      the dashboard root itself. */
  lemma NavigationStaysInDashboard(r: Role)
    ensures var items := NavigationConfig(r);
            |items| >= 1 && items[0] == NavItem("Overview", DashboardRoot(r)) &&
            forall i :: 0 <= i < |items| ==> StartsWith(items[i].href, DashboardRoot(r))
  {
    var items, root := NavigationConfig(r), DashboardRoot(r);
    match r
    case Admin =>
      assert root == "/dashboard/admin";
      forall i | 0 <= i < |items| ensures StartsWith(items[i].href, root) {
        assert items[i].href[..|root|] == root;
      }
    case Merchant =>
      assert root == "/dashboard/merchant";
      forall i | 0 <= i < |items| ensures StartsWith(items[i].href, root) {
        assert items[i].href[..|root|] == root;
      }
    case Member =>
      assert root == "/dashboard/member";
      forall i | 0 <= i < |items| ensures StartsWith(items[i].href, root) {
        assert items[i].href[..|root|] == root;
      }
  }

  /** No two sidebar links of a role share an href. */
  lemma NavigationHrefsDistinct(r: Role)
    ensures HrefsDistinct(NavigationConfig(r))
  {
  }

  /** The two-segment path `/a/b`. */
  lemma TwoSegments(a: string, b: string)
    requires a != "" && b != ""
    requires '/' !in a && '/' !in b
    ensures Segments("/" + a + "/" + b) == [a, b]
  {
    SegmentsOfJoinPath([a, b]);
    assert [a, b][1..] == [b] && [b][1..] == [];
    assert JoinPath([b]) == "/" + b + JoinPath([]);
    assert JoinPath([a, b]) == "/" + a + JoinPath([b]);
    assert "/" + a + ("/" + b + "") == "/" + a + "/" + b;
  }

  /** The path of a role's root, built as the trail builds it. */
  lemma JoinPathOfRoot(r: Role)
    ensures IsSegment("dashboard") && IsSegment(RoleName(r))
    ensures JoinPath(["dashboard", RoleName(r)]) == DashboardRoot(r)
  {
    var segs := ["dashboard", RoleName(r)];
    assert segs[1..] == [RoleName(r)] && segs[1..][1..] == [];
    assert JoinPath(segs[1..]) == "/" + RoleName(r) + "";
    match r
    case Admin =>
    case Merchant =>
    case Member =>
  }

  /** Every page under a role's dashboard cuts into "dashboard", the role, and the
      page, so its trail reads Home, Dashboard, the role, the page. */
  lemma DashboardPageSegments(r: Role, page: string)
    requires IsSegment(page)
    ensures Segments(DashboardRoot(r) + "/" + page) == ["dashboard", RoleName(r), page]
  {
    var segs := ["dashboard", RoleName(r), page];
    JoinPathOfRoot(r);
    assert segs == ["dashboard", RoleName(r)] + [page];
    JoinPathSnoc(["dashboard", RoleName(r)], page);
    SegmentsOfJoinPath(segs);
  }

  function MarkAgainst(pathname: string): NavItem -> MarkedItem
  {
    (item: NavItem) => MarkedItem(item.name, item.href, item.href == pathname)
  }

  /** `navigation`: the links unchanged, each current exactly when its href is the
      pathname. */
  function MarkCurrent(items: seq<NavItem>, pathname: string): (marked: seq<MarkedItem>)
    ensures |marked| == |items|
    ensures forall i :: 0 <= i < |items| ==>
              marked[i].name == items[i].name && marked[i].href == items[i].href &&
              (marked[i].current <==> items[i].href == pathname)
  {
    MapSeq(items, MarkAgainst(pathname))
  }

  /** At most one sidebar link is highlighted, whatever the pathname. */
  lemma AtMostOneCurrent(r: Role, pathname: string)
    ensures var marked := MarkCurrent(NavigationConfig(r), pathname);
            forall i, j :: 0 <= i < |marked| && 0 <= j < |marked| && marked[i].current && marked[j].current ==> i == j
  {
    NavigationHrefsDistinct(r);
  }

  /** `navigation.find(nav => nav.href === href)`: the first link with that href. */
  function FindByHref(items: seq<MarkedItem>, href: string): (found: Option<MarkedItem>)
    ensures found.Some? <==> exists i :: 0 <= i < |items| && items[i].href == href
    ensures found.Some? ==> found.value in items && found.value.href == href
    decreases |items|
  {
    if items == [] then None
    else if items[0].href == href then Some(items[0])
    else
      var rest := FindByHref(items[1..], href);
      assert forall i :: 1 <= i < |items| ==> items[i] == items[1..][i - 1];
      rest
  }

  /** `getBreadcrumbs`: nothing for paths of at most two segments; otherwise the
      portal crumb, then the crumb of the sidebar link whose href is the pathname,
      when there is one. */
  method GetBreadcrumbs(r: Role, pathname: string) returns (crumbs: seq<LayoutCrumb>)
    ensures |Segments(pathname)| <= 2 ==> crumbs == []
    ensures |Segments(pathname)| > 2 ==>
              1 <= |crumbs| <= 2 && crumbs[0] == LayoutCrumb(RoleLabel(r), DashboardRoot(r))
    ensures |crumbs| == 2 <==>
              |Segments(pathname)| > 2 &&
              exists i :: 0 <= i < |NavigationConfig(r)| && NavigationConfig(r)[i].href == pathname
    ensures |crumbs| == 2 ==>
              NavItem(crumbs[1].name, crumbs[1].href) in NavigationConfig(r) && crumbs[1].href == pathname
  {
    var navigation := MarkCurrent(NavigationConfig(r), pathname);
    var pathSegments := Segments(pathname);
    crumbs := [];
    if |pathSegments| > 2 {
      crumbs := crumbs + [LayoutCrumb(RoleLabel(r), DashboardRoot(r))];
      var currentNav := FindByHref(navigation, pathname);
      if currentNav.Some? {
        var k :| 0 <= k < |navigation| && navigation[k] == currentNav.value;
        assert NavigationConfig(r)[k] == NavItem(currentNav.value.name, pathname);
        crumbs := crumbs + [LayoutCrumb(currentNav.value.name, pathname)];
      }
    }
  }

  /** On the dashboard root (the Overview link) the header shows no breadcrumbs
      at all: its path has only two segments. */
  lemma RootHasNoCrumbs(r: Role)
    ensures |Segments(DashboardRoot(r))| == 2
  {
    assert DashboardRoot(r) == "/" + "dashboard" + "/" + RoleName(r);
    TwoSegments("dashboard", RoleName(r));
  }

  /** `n[0]` for a word; reading past the end of the empty word gives undefined,
      which `join` turns into nothing. */
  function FirstChar(word: string): string
  {
    if word == "" then "" else [word[0]]
  }

  /** `join("")`. */
  function Concat(pieces: seq<string>): string
    decreases |pieces|
  {
    if pieces == [] then "" else pieces[0] + Concat(pieces[1..])
  }

  /** The first characters of the words, joined: one per non-empty word, in order. */
  lemma {:induction false} FirstCharsOfWords(words: seq<string>)
    ensures var c, nonEmpty := Concat(MapSeq(words, FirstChar)), Filter(words, IsNonEmpty());
            |c| == |nonEmpty| && forall k :: 0 <= k < |c| ==> nonEmpty[k] != "" && c[k] == nonEmpty[k][0]
    decreases |words|
  {
    if words != [] {
      var w, rest := words[0], words[1..];
      FirstCharsOfWords(rest);
      var mapped := MapSeq(words, FirstChar);
      assert mapped == [FirstChar(w)] + MapSeq(rest, FirstChar);
      assert mapped[1..] == MapSeq(rest, FirstChar);
      var c', nonEmpty' := Concat(MapSeq(rest, FirstChar)), Filter(rest, IsNonEmpty());
      assert Concat(mapped) == FirstChar(w) + c';
      if w != "" {
        assert Filter(words, IsNonEmpty()) == [w] + nonEmpty';
      } else {
        assert Filter(words, IsNonEmpty()) == nonEmpty';
      }
    }
  }

  /** The avatar fallback: the first character of every space-separated word,
      upper-cased, in order; runs of spaces add nothing. */
  function Initials(name: string): (r: string)
    ensures var words := Filter(Split(name, ' '), IsNonEmpty());
            |r| == |words| && forall k :: 0 <= k < |r| ==> words[k] != "" && r[k] == Upper(words[k][0])
  {
    FirstCharsOfWords(Split(name, ' '));
    UpperString(Concat(MapSeq(Split(name, ' '), FirstChar)))
  }
}
