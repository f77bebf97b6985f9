/**
 * The site layout: the navigation bar and the footer are hidden on the admin
 * and agent areas and on the sign-in, sign-up and password-reset pages.
 */
module Layout {
  import opened Common
  import Proxy

  const BarePages: seq<string> := ["/sign-in", "/sign-up", "/forgot-password"]

  /** `hideLayout`. */
  predicate HideLayout(pathname: string)
  {
    StartsWith(pathname, "/admin") || StartsWith(pathname, "/agent") || pathname in BarePages
  }

  /**
   * Every admin or agent page hides the layout, and so do the middleware's
   * two auth routes; the bid and profile areas and the home page keep it.
   */
  lemma LayoutByArea(pathname: string)
    ensures StartsWith(pathname, "/admin") || StartsWith(pathname, "/agent") ==> HideLayout(pathname)
    ensures Proxy.IsAuthRoute(pathname) ==> HideLayout(pathname)
    ensures StartsWith(pathname, "/bid") || StartsWith(pathname, "/profile") ==> !HideLayout(pathname)
    ensures pathname == "/" ==> !HideLayout(pathname)
  {
    if StartsWith(pathname, "/bid") || StartsWith(pathname, "/profile") {
      assert pathname[1] == 'b' || pathname[1] == 'p';
      assert pathname !in BarePages by {
        assert forall p :: p in BarePages ==> p[1] == 's' || p[1] == 'f';
      }
    }
  }

  /** Only exact matches hide the layout outside the two areas: "/sign-in/" keeps it. */
  lemma ExactBarePages()
    ensures HideLayout("/forgot-password")
    ensures !HideLayout("/sign-in/")
    ensures !HideLayout("/results")
  {
    assert "/sign-in/" !in BarePages;
    assert !StartsWith("/sign-in/", "/admin") by { assert "/sign-in/"[1] == 's'; }
    assert !StartsWith("/sign-in/", "/agent") by { assert "/sign-in/"[1] == 's'; }
    assert !StartsWith("/results", "/admin") by { assert "/results"[1] == 'r'; }
    assert !StartsWith("/results", "/agent") by { assert "/results"[1] == 'r'; }
  }

  /** A page the middleware never guards and that is not an auth page shows the layout unless it is the reset page. */
  lemma PublicPagesShowLayout(pathname: string)
    requires !Proxy.IsProtected(pathname) && !Proxy.IsAuthRoute(pathname) && pathname != "/forgot-password"
    ensures !HideLayout(pathname)
  {
  }
}
