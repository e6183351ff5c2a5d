/** `DashboardPage.tsx`: the tab shown first, taken from the last path segment, and the
    tab change that records the tab and navigates to its path. */
module Dashboard {
  import opened TextUtil

  /** The ids of `menuItems`, in menu order. */
  const MenuIds: seq<string> := ["overview", "profile"]

  /** The initial `activeTab`: `pathname.split('/').pop() || 'overview'`, with the segment
      `dashboard` itself read as the overview. */
  function InitialTab(pathname: string): (tab: string)
    ensures tab != "" && tab != "dashboard" && '/' !in tab
    ensures tab == "overview" || tab == LastPiece(pathname, '/')
    ensures LastPiece(pathname, '/') in {"", "dashboard"} ==> tab == "overview"
    ensures LastPiece(pathname, '/') !in {"", "dashboard"} ==> tab == LastPiece(pathname, '/')
  {
    SplitPiecesFree(pathname, '/');
    var segment := LastPiece(pathname, '/');
    var path := if segment == "" then "overview" else segment;
    if path == "dashboard" then "overview" else path
  }

  /** Where `handleTabChange` navigates for a tab. */
  function TabPath(id: string): (path: string)
    ensures id == "overview" ==> path == "/dashboard"
    ensures id != "overview" ==> path == "/dashboard/" + id
  {
    if id == "overview" then "/dashboard" else "/dashboard/" + id
  }

  /** Reading the tab back from its own path gives the tab exactly for `overview` and for
      the non-empty ids without `/` other than `dashboard`. */
  lemma TabRoundTrip(id: string)
    ensures InitialTab(TabPath(id)) == id <==> id == "overview" || (id != "" && '/' !in id && id != "dashboard")
  {
    if id == "overview" {
      DashboardSegment();
    } else {
      SegmentAfterDashboard(id);
      if '/' in id {
        LastPieceShorter(id, '/');
        assert '/' !in "overview";
      } else {
        SplitWithout(id, '/');
      }
    }
  }

  /** The last segment of `/dashboard` is `dashboard`. */
  lemma DashboardSegment()
    ensures LastPiece("/dashboard", '/') == "dashboard"
  {
    SlashSegment("dashboard");
    assert "/dashboard" == ['/'] + "dashboard";
  }

  lemma SlashSegment(w: string)
    requires '/' !in w
    ensures LastPiece(['/'] + w, '/') == w
  {
    assert ['/'] + w == "" + ['/'] + w;
    LastPieceAround("", w, '/');
    SplitWithout(w, '/');
  }

  /** Below `/dashboard/`, the last segment is that of the id. */
  lemma SegmentAfterDashboard(id: string)
    ensures LastPiece("/dashboard/" + id, '/') == LastPiece(id, '/')
  {
    assert "/dashboard/" + id == "/dashboard" + ['/'] + id;
    LastPieceAround("/dashboard", id, '/');
  }

  /** Both menu entries survive the round trip. */
  lemma MenuRoundTrip()
    ensures forall id :: id in MenuIds ==> InitialTab(TabPath(id)) == id
  {
    TabRoundTrip("overview");
    TabRoundTrip("profile");
  }

  /** The dashboard's `activeTab` state. */
  class DashboardState {
    var activeTab: string

    constructor(pathname: string)
      ensures activeTab == InitialTab(pathname)
    {
      activeTab := InitialTab(pathname);
    }

    /** `handleTabChange`: the tab becomes exactly `tabId`; the navigation target is returned. */
    method HandleTabChange(tabId: string) returns (navigateTo: string)
      modifies this
      ensures activeTab == tabId
      ensures navigateTo == TabPath(tabId)
    {
      activeTab := tabId;
      navigateTo := if tabId == "overview" then "/dashboard" else "/dashboard/" + tabId;
    }
  }
}
