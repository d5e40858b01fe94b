/** The page breadcrumb trail (src/components/layout/BreadcrumbNav.tsx): the path
    is cut at `/`, empty segments are dropped, and one crumb per segment is
    appended while the prefix path is accumulated. */
module BreadcrumbNav {
  import opened Optional
  import opened Seqs
  import opened Text

  datatype Crumb = Crumb(title: string, href: string)

  /** The first crumb of every trail. */
  const HomeCrumb := Crumb("Home", "/")

  function IsNonEmpty(): string -> bool
  {
    (s: string) => s != ""
  }

  /** A path segment: non-empty and free of slashes. */
  predicate IsSegment(s: string)
  {
    s != "" && '/' !in s
  }

  /** `pathname.split("/").filter(Boolean)`: the non-empty pieces, in order, each
      free of slashes, every non-empty piece among them with as many copies as
      the split has. */
  function Segments(pathname: string): (segs: seq<string>)
    ensures forall i :: 0 <= i < |segs| ==> IsSegment(segs[i])
    ensures IsSubsequence(segs, Split(pathname, '/'))
    ensures forall piece :: piece in Split(pathname, '/') && piece != "" ==> piece in segs
    ensures forall piece :: multiset(segs)[piece] ==
              if piece != "" then multiset(Split(pathname, '/'))[piece] else 0
  {
    var segs := Filter(Split(pathname, '/'), IsNonEmpty());
    FilterIsSubsequence(Split(pathname, '/'), IsNonEmpty());
    FilterMultiset(Split(pathname, '/'), IsNonEmpty());
    assert forall i :: 0 <= i < |segs| ==> segs[i] in segs;
    segs
  }

  /** The segments are the split's pieces less its empty ones, counted with
      repeats: `|Segments(pathname)|` is the number of non-empty pieces. */
  lemma {:induction false} SegmentCount(pathname: string)
    ensures |Segments(pathname)| == |Split(pathname, '/')| - multiset(Split(pathname, '/'))[""]
  {
    NonEmptyCount(Split(pathname, '/'));
  }

  /** Filtering out the empty strings drops exactly their copies. */
  lemma {:induction false} NonEmptyCount(pieces: seq<string>)
    ensures |Filter(pieces, IsNonEmpty())| == |pieces| - multiset(pieces)[""]
    decreases |pieces|
  {
    if pieces != [] {
      assert pieces == [pieces[0]] + pieces[1..];
      assert multiset(pieces) == multiset([pieces[0]]) + multiset(pieces[1..]);
      NonEmptyCount(pieces[1..]);
    }
  }

  /** The path built from segments as `currentPath` builds it: `/seg` for each one. */
  function JoinPath(segs: seq<string>): string
    decreases |segs|
  {
    if segs == [] then "" else "/" + segs[0] + JoinPath(segs[1..])
  }

  /** Appending one segment extends the path by `/seg`: the `+=` of the loop. */
  lemma {:induction false} JoinPathSnoc(segs: seq<string>, seg: string)
    ensures JoinPath(segs + [seg]) == JoinPath(segs) + "/" + seg
    decreases |segs|
  {
    if segs == [] {
      assert JoinPath([seg]) == "/" + seg + JoinPath([]);
    } else {
      assert (segs + [seg])[0] == segs[0];
      assert (segs + [seg])[1..] == segs[1..] + [seg];
      JoinPathSnoc(segs[1..], seg);
    }
  }

  /** The label of a segment: the custom labels for the five known segments, the
      capitalised segment otherwise. Every custom label is that same
      capitalisation, so the rule is one. */
  function Label(segment: string): (title: string)
    ensures title == Capitalize(segment)
  {
    if segment == "dashboard" then "Dashboard"
    else if segment == "login" then "Login"
    else if segment == "admin" then "Admin"
    else if segment == "merchant" then "Merchant"
    else if segment == "member" then "Member"
    else Capitalize(segment)
  }

  /** The loop of the component over given segments: Home, then one crumb per
      segment, crumb k+1 linking to the first k+1 segments. */
  method BuildTrail(segs: seq<string>) returns (trail: seq<Crumb>)
    ensures |trail| == 1 + |segs| && trail[0] == HomeCrumb
    ensures forall k :: 0 <= k < |segs| ==>
              trail[k + 1] == Crumb(Capitalize(segs[k]), JoinPath(segs[..k + 1]))
  {
    trail := [HomeCrumb];
    var currentPath := "";
    var i := 0;
    while i < |segs|
      invariant 0 <= i <= |segs|
      invariant currentPath == JoinPath(segs[..i])
      invariant |trail| == i + 1 && trail[0] == HomeCrumb
      invariant forall k :: 0 <= k < i ==> trail[k + 1] == Crumb(Capitalize(segs[k]), JoinPath(segs[..k + 1]))
    {
      assert segs[..i + 1] == segs[..i] + [segs[i]];
      JoinPathSnoc(segs[..i], segs[i]);
      currentPath := currentPath + "/" + segs[i];
      trail := trail + [Crumb(Label(segs[i]), currentPath)];
      i := i + 1;
    }
  }

  /** The component's trail, or None where it renders nothing (the pathname "/").
      A trail starts at Home and has one crumb per non-empty segment; crumb k+1
      links to the first k+1 segments and carries segment k capitalised. */
  method Breadcrumbs(pathname: string) returns (crumbs: Option<seq<Crumb>>)
    ensures crumbs.None? <==> pathname == "/"
    ensures crumbs.Some? ==>
              var segs := Segments(pathname);
              |crumbs.value| == 1 + |segs| && crumbs.value[0] == HomeCrumb &&
              forall k :: 0 <= k < |segs| ==>
                crumbs.value[k + 1] == Crumb(Capitalize(segs[k]), JoinPath(segs[..k + 1]))
  {
    if pathname == "/" {
      return None;
    }
    var trail := BuildTrail(Segments(pathname));
    return Some(trail);
  }

  /** Each crumb's href is a proper prefix of the next one's. */
  lemma HrefProperPrefix(segs: seq<string>, k: nat)
    requires k < |segs|
    ensures var shorter, longer := JoinPath(segs[..k]), JoinPath(segs[..k + 1]);
            |shorter| < |longer| && longer[..|shorter|] == shorter
  {
    assert segs[..k + 1] == segs[..k] + [segs[k]];
    JoinPathSnoc(segs[..k], segs[k]);
  }

  /** Splitting after a leading slash: an empty first piece, then the rest. */
  lemma SplitLeadingSlash(t: string)
    ensures Split("/" + t, '/') == [""] + Split(t, '/')
  {
    assert ("/" + t)[1..] == t;
  }

  /** A built path splits with an empty first piece: it is empty or starts with a slash. */
  lemma JoinPathFirstPieceEmpty(segs: seq<string>)
    ensures Split(JoinPath(segs), '/')[0] == ""
  {
    if segs != [] {
      assert JoinPath(segs) == "/" + (segs[0] + JoinPath(segs[1..]));
      SplitLeadingSlash(segs[0] + JoinPath(segs[1..]));
    }
  }

  /** The path of at least one segment splits into an empty piece, the first
      segment, and what the rest of the path splits into after its own empty
      first piece. */
  lemma SplitJoinPath(segs: seq<string>)
    requires segs != [] && '/' !in segs[0]
    ensures var st := Split(JoinPath(segs[1..]), '/');
            st[0] == "" && Split(JoinPath(segs), '/') == ["", segs[0]] + st[1..]
  {
    var seg, tail := segs[0], JoinPath(segs[1..]);
    var st := Split(tail, '/');
    JoinPathFirstPieceEmpty(segs[1..]);
    calc {
      Split(JoinPath(segs), '/');
      { assert JoinPath(segs) == "/" + (seg + tail); }
      Split("/" + (seg + tail), '/');
      { SplitLeadingSlash(seg + tail); }
      [""] + Split(seg + tail, '/');
      { SplitPrefix(seg, tail, '/'); assert seg + st[0] == seg; }
      [""] + ([seg] + st[1..]);
      ["", seg] + st[1..];
    }
  }

  /** The last crumb's href, cut up again, gives back the segments: no segment is
      lost or merged by the join. */
  lemma {:induction false} SegmentsOfJoinPath(segs: seq<string>)
    requires forall i :: 0 <= i < |segs| ==> IsSegment(segs[i])
    ensures Segments(JoinPath(segs)) == segs
    decreases |segs|
  {
    if segs != [] {
      var seg, rest := segs[0], segs[1..];
      SegmentsOfJoinPath(rest);
      var st := Split(JoinPath(rest), '/');
      var p := IsNonEmpty();
      SplitJoinPath(segs);
      assert ["", seg] + st[1..] == [""] + ([seg] + st[1..]);
      FilterCons("", [seg] + st[1..], p);
      FilterCons(seg, st[1..], p);
      assert st == [""] + st[1..];
      FilterCons("", st[1..], p);
    }
  }

  /** A pathname made only of slashes has no segments, so every such pathname
      other than "/" itself (such as "" or "//") renders the trail Home alone. */
  lemma {:induction false} OnlySlashesGiveHomeOnly(pathname: string)
    requires forall i :: 0 <= i < |pathname| ==> pathname[i] == '/'
    ensures Segments(pathname) == []
    decreases |pathname|
  {
    if pathname != "" {
      var rest := pathname[1..];
      assert pathname == "/" + rest;
      SplitLeadingSlash(rest);
      FilterCons("", Split(rest, '/'), IsNonEmpty());
      OnlySlashesGiveHomeOnly(rest);
    }
  }
}
