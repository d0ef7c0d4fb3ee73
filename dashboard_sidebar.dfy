/**
 * The dashboard's navigation (src/components/dashboard/DashboardSidebar.tsx):
 * a fixed list of links, and which of them is highlighted for the current
 * pathname.
 */
module DashboardSidebar {
  import opened Js

  datatype NavLink = NavLink(href: string, title: string)

  const Home := "/dashboard"

  const NavLinks: seq<NavLink> := [
    NavLink(Home, "Home"),
    NavLink("/dashboard/repositories", "Repositories"),
    NavLink("/dashboard/analysis", "Analysis"),
    NavLink("/dashboard/code-files", "Code Files"),
    NavLink("/dashboard/documentation", "Documentation"),
    NavLink("/dashboard/qa", "Q&A")
  ]

  /** A raw string-prefix match, except that Home needs the exact path. */
  predicate IsActive(pathname: string, href: string)
    ensures IsActive(pathname, href) ==> |href| <= |pathname| && pathname[..|href|] == href
    ensures href == Home ==> (IsActive(pathname, href) <==> pathname == Home)
  {
    StartsWith(pathname, href) && (href != Home || pathname == Home)
  }

  /** Home is highlighted exactly on `/dashboard` itself. */
  lemma HomeActive(pathname: string)
    ensures IsActive(pathname, NavLinks[0].href) <==> pathname == Home
  {
  }

  /** Every other link is highlighted exactly when the pathname starts with its href. */
  lemma OtherActive(pathname: string, i: int)
    requires 1 <= i < |NavLinks|
    ensures IsActive(pathname, NavLinks[i].href) <==> StartsWith(pathname, NavLinks[i].href)
  {
    assert |NavLinks[i].href| > |Home|;
  }

  /** The match is not per segment: the Q&A link is highlighted on `/dashboard/qaz`. */
  lemma QaActiveOnLongerSegment()
    ensures IsActive("/dashboard/qaz", NavLinks[5].href)
  {
    assert "/dashboard/qaz"[..|"/dashboard/qa"|] == "/dashboard/qa";
  }

  /** Every href starts with `/dashboard`. */
  lemma HrefsUnderHome(i: int)
    requires 0 <= i < |NavLinks|
    ensures StartsWith(NavLinks[i].href, Home)
  {
  }

  /** A pathname outside `/dashboard` highlights nothing. */
  lemma NoMatchOutside(pathname: string)
    requires !StartsWith(pathname, Home)
    ensures forall i :: 0 <= i < |NavLinks| ==> !IsActive(pathname, NavLinks[i].href)
  {
    forall i | 0 <= i < |NavLinks| ensures !IsActive(pathname, NavLinks[i].href) {
      if IsActive(pathname, NavLinks[i].href) {
        HrefsUnderHome(i);
        PrefixTransitive(pathname, Home, NavLinks[i].href);
      }
    }
  }

  /** The hrefs other than Home differ right after `/dashboard/`. */
  lemma DistinctSegments(i: int, j: int)
    requires 1 <= i < |NavLinks| && 1 <= j < |NavLinks| && i != j
    ensures |NavLinks[i].href| > 11 && |NavLinks[j].href| > 11
    ensures NavLinks[i].href[11] != NavLinks[j].href[11]
  {
  }

  /** No pathname highlights two links. */
  lemma AtMostOneActive(pathname: string, i: int, j: int)
    requires 0 <= i < |NavLinks| && 0 <= j < |NavLinks|
    requires IsActive(pathname, NavLinks[i].href) && IsActive(pathname, NavLinks[j].href)
    ensures i == j
  {
    if i != j && i != 0 && j != 0 {
      DistinctSegments(i, j);
    }
  }
}
