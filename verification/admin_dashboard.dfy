/** The admin dashboard: the header title chosen from the last segment of the
    location path, and the sub-routes of the admin area. */
module AdminDashboard {
  import JsStrings

  datatype Section = Section(segment: string, title: string)

  /** The eight admin screens, by path segment. */
  const Sections: seq<Section> := [
    Section("bookings", "Booking Management"),
    Section("tours", "Tour Adventures"),
    Section("settings", "Global Settings"),
    Section("home", "Home Page Content"),
    Section("destinations", "Destinations"),
    Section("pages", "Static Pages"),
    Section("testimonials", "Reviews & Testimonials"),
    Section("profile", "Admin Profile")
  ]

  const DefaultTitle := "Dashboard"
  const DefaultSegment := "bookings"

  predicate Known(segment: string)
  {
    exists i :: 0 <= i < |Sections| && Sections[i].segment == segment
  }

  /** `pathname.split('/').pop()`: the text after the last '/'. */
  function LastSegment(path: string): (r: string)
    ensures '/' !in r
    ensures |r| <= |path| && path[|path| - |r|..] == r
  {
    var pieces := JsStrings.Split(path, '/');
    var r := pieces[|pieces| - 1];
    assert |r| <= |path| && path[|path| - |r|..] == r by {
      LastPieceIsSuffix(pieces, path);
    }
    r
  }

  lemma {:induction false} LastPieceIsSuffix(pieces: seq<string>, path: string)
    requires |pieces| >= 1 && JsStrings.Join(pieces, "/") == path
    ensures |pieces[|pieces| - 1]| <= |path| && path[|path| - |pieces[|pieces| - 1]|..] == pieces[|pieces| - 1]
  {
    if |pieces| > 1 {
      var rest := pieces[1..];
      LastPieceIsSuffix(rest, JsStrings.Join(rest, "/"));
      assert pieces[|pieces| - 1] == rest[|rest| - 1];
    }
  }

  /** The switch of `getPageTitle`: the title of the section with that
      segment, `Dashboard` for any other. */
  function TitleOf(segment: string): (r: string)
    ensures forall i :: 0 <= i < |Sections| && Sections[i].segment == segment ==> r == Sections[i].title
    ensures !Known(segment) ==> r == DefaultTitle
  {
    TitleIn(Sections, segment)
  }

  function TitleIn(sections: seq<Section>, segment: string): (r: string)
    requires forall i, j :: 0 <= i < j < |sections| ==> sections[i].segment != sections[j].segment
    ensures forall i :: 0 <= i < |sections| && sections[i].segment == segment ==> r == sections[i].title
    ensures (forall i :: 0 <= i < |sections| ==> sections[i].segment != segment) ==> r == DefaultTitle
  {
    if sections == [] then DefaultTitle
    else if sections[0].segment == segment then sections[0].title
    else
      assert forall i :: 1 <= i < |sections| ==> sections[i] == sections[1..][i - 1];
      TitleIn(sections[1..], segment)
  }

  /** `getPageTitle`: the header shows one of the eight section titles or
      the default one. */
  function PageTitle(path: string): (r: string)
    ensures r == DefaultTitle || exists i :: 0 <= i < |Sections| && r == Sections[i].title
  {
    var segment := LastSegment(path);
    assert Known(segment) ==> exists i :: 0 <= i < |Sections| && TitleOf(segment) == Sections[i].title;
    TitleOf(segment)
  }

  /** The title depends only on the text after the last '/'. */
  lemma TitleFromLastSegment(prefix: string, segment: string)
    requires '/' !in segment
    ensures PageTitle(prefix + "/" + segment) == TitleOf(segment)
  {
    JsStrings.SplitLastPiece(prefix, '/', segment);
  }

  /** A trailing slash leaves an empty last segment: the default title. */
  lemma TrailingSlashIsDashboard(prefix: string)
    ensures PageTitle(prefix + "/") == DefaultTitle
  {
    assert prefix + "/" == prefix + "/" + "";
    TitleFromLastSegment(prefix, "");
    forall i | 0 <= i < |Sections| ensures Sections[i].segment != "" {
      assert |Sections[i].segment| > 0;
    }
  }

  /** ASCII capitals folded to lower case, every other character kept: a
      route that is not case-sensitive compares the path this way. */
  function AsciiLower(s: string): (r: string)
    ensures |r| == |s|
    ensures forall i :: 0 <= i < |s| ==> r[i] == if 'A' <= s[i] <= 'Z' then (s[i] as int + 32) as char else s[i]
  {
    seq(|s|, i requires 0 <= i < |s| => if 'A' <= s[i] <= 'Z' then (s[i] as int + 32) as char else s[i])
  }

  /** The path without the slashes at its end, which a route pattern accepts. */
  function TrimTrailingSlashes(s: string): (r: string)
    ensures |r| <= |s| && s[..|r|] == r
    ensures r == [] || r[|r| - 1] != '/'
    ensures forall i :: |r| <= i < |s| ==> s[i] == '/'
    decreases |s|
  {
    if s != [] && s[|s| - 1] == '/' then TrimTrailingSlashes(s[..|s| - 1]) else s
  }

  /** A segment without capitals folds to itself. */
  predicate NoCapitals(s: string)
  {
    forall i :: 0 <= i < |s| ==> !('A' <= s[i] <= 'Z')
  }

  lemma {:induction false} SectionsLowerCase(i: nat)
    requires i < |Sections|
    ensures NoCapitals(Sections[i].segment) && '/' !in Sections[i].segment && Sections[i].segment != ""
  {
    var s := Sections[i].segment;
    assert s in {"bookings", "tours", "settings", "home", "destinations", "pages", "testimonials", "profile"};
  }

  /** The routes of the admin area for `rest`, the path below `/admin/`: a
      route matches when `rest`, with its trailing slashes dropped, spells
      its segment up to ASCII case; any other path redirects to the
      bookings screen. */
  function RouteTarget(rest: string): (r: string)
    ensures Known(r)
    ensures Known(AsciiLower(TrimTrailingSlashes(rest))) ==> r == AsciiLower(TrimTrailingSlashes(rest))
    ensures !Known(AsciiLower(TrimTrailingSlashes(rest))) ==> r == DefaultSegment
  {
    assert Sections[0].segment == DefaultSegment;
    var folded := AsciiLower(TrimTrailingSlashes(rest));
    if Known(folded) then folded else DefaultSegment
  }

  /** As written, the header can say "Dashboard" over a screen: the router
      renders the tour list for `/admin/tours/`, whose last piece is "". */
  lemma TrailingSlashScreenTitledDashboard()
    ensures RouteTarget("tours/") == "tours" && PageTitle("/admin/tours/") == DefaultTitle
  {
    assert Sections[1].segment == "tours";
    assert TrimTrailingSlashes("tours/") == "tours" by {
      assert "tours/"[..|"tours/"| - 1] == "tours";
    }
    SectionsLowerCase(1);
    assert AsciiLower("tours") == "tours";
    assert "/admin/tours/" == "/admin/tours" + "/";
    TrailingSlashIsDashboard("/admin/tours");
  }

  /** Likewise for `/admin/Tours`: routed to the tour list, titled by the
      unknown piece "Tours". */
  lemma CapitalisedScreenTitledDashboard()
    ensures RouteTarget("Tours") == "tours" && PageTitle("/admin/Tours") == DefaultTitle
  {
    assert Sections[1].segment == "tours";
    assert TrimTrailingSlashes("Tours") == "Tours";
    assert AsciiLower("Tours") == "tours";
    assert "/admin/Tours" == "/admin" + "/" + "Tours";
    TitleFromLastSegment("/admin", "Tours");
    forall i | 0 <= i < |Sections| ensures Sections[i].segment != "Tours" {
      SectionsLowerCase(i);
      assert 'A' <= "Tours"[0] <= 'Z';
    }
  }

  /** The header for the screen the router ends on: that screen's title. */
  function ScreenTitle(rest: string): (r: string)
    ensures forall i :: 0 <= i < |Sections| && Sections[i].segment == RouteTarget(rest) ==> r == Sections[i].title
  {
    TitleOf(RouteTarget(rest))
  }

  /** Every screen the router ends on is named in the header, never the
      default title. */
  lemma RoutedScreensTitled(rest: string)
    ensures ScreenTitle(rest) != DefaultTitle
  {
    forall i | 0 <= i < |Sections| ensures Sections[i].title != DefaultTitle {
      assert |Sections[i].title| != |DefaultTitle|;
    }
  }

  /** On the paths the sidebar links to, the screen title is the title the
      header shows as written. */
  lemma {:induction false} ScreenTitleOnExactPaths(segment: string)
    requires Known(segment)
    ensures ScreenTitle(segment) == PageTitle("/admin/" + segment)
  {
    var i :| 0 <= i < |Sections| && Sections[i].segment == segment;
    SectionsLowerCase(i);
    assert TrimTrailingSlashes(segment) == segment;
    assert AsciiLower(segment) == segment;
    assert "/admin/" + segment == "/admin" + "/" + segment;
    TitleFromLastSegment("/admin", segment);
  }
}
