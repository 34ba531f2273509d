/**
  Client runs of the two presenters over one shared guard, stated in terms of
  what a user sees: which item is highlighted and whether the router is asked
  to navigate.
 */
module NavScenarios {
  import opened NavigationConfig
  import opened ManualScroll
  import opened NavMenu
  import opened Navbar

  /**
    After a click on an in-page link, any number of scroll events leave the
    clicked section highlighted for as long as its reset has not fired.
   */
  method ClickHighlightSurvivesScrolling(clickLayout: Layout, pageYOffset: real, scrolls: seq<Layout>)
    returns (highlighted: string, guardSet: bool)
    requires "features" in clickLayout
    ensures highlighted == "features" && guardSet
  {
    var guard := new ManualScrollGuard();
    var menu := new NavMenu(guard, "/");
    var _ := menu.HandleClick("#features", clickLayout, pageYOffset);
    var i := 0;
    while i < |scrolls|
      invariant menu.activeSection == "features" && menu.pathname == "/"
      invariant guard.manualScrolling && menu.guard == guard
    {
      menu.HandleScroll(scrolls[i]);
      i := i + 1;
    }
    highlighted := menu.activeSection;
    guardSet := guard.manualScrolling;
  }

  /** Once the reset fires, the next scroll event hands the highlight back to the resolver. */
  method ResetReleasesScrollSync(clickLayout: Layout, pageYOffset: real, scrollLayout: Layout)
    returns (highlighted: string)
    requires "pricing" in clickLayout
    ensures highlighted == ActiveMenuKey(scrollLayout, ScrollOffset)
  {
    var guard := new ManualScrollGuard();
    var menu := new NavMenu(guard, "/");
    var _ := menu.HandleClick("#pricing", clickLayout, pageYOffset);
    guard.FireReset(ManualScrollTimeout);
    menu.HandleScroll(scrollLayout);
    highlighted := menu.activeSection;
  }

  /**
    Two clicks in a row: the first click's reset is not cancelled, so when it
    fires the guard is cleared while the second click's reset is still
    pending, and a scroll event replaces the optimistic highlight.
   */
  method SecondClickKeepsFirstReset(layout: Layout, pageYOffset: real, scrollLayout: Layout)
    returns (guardAfterFirstReset: bool, stillPending: multiset<nat>, highlighted: string)
    requires "features" in layout && "pricing" in layout
    ensures !guardAfterFirstReset
    ensures stillPending == multiset{ManualScrollTimeout}
    ensures highlighted == ActiveMenuKey(scrollLayout, ScrollOffset)
  {
    var guard := new ManualScrollGuard();
    var menu := new NavMenu(guard, "/");
    var _ := menu.HandleClick("#features", layout, pageYOffset);
    var _ := menu.HandleClick("#pricing", layout, pageYOffset);
    assert guard.pendingResets == multiset{ManualScrollTimeout, ManualScrollTimeout};
    guard.FireReset(ManualScrollTimeout);
    guardAfterFirstReset := guard.manualScrolling;
    stillPending := guard.pendingResets;
    menu.HandleScroll(scrollLayout);
    highlighted := menu.activeSection;
  }

  /** Off the home page an in-page link sends the router home with the anchor and sets no guard. */
  method OffHomeClickNavigates(layout: Layout, pageYOffset: real)
    returns (desktop: ClickEffect, drawer: ClickEffect, guardSet: bool, drawerOpen: bool)
    ensures desktop == drawer == RouterPush("/#pricing")
    ensures !guardSet && !drawerOpen
  {
    var guard := new ManualScrollGuard();
    var menu := new NavMenu(guard, "/blog");
    var bar := new Navbar(guard, "/blog");
    bar.ToggleDrawer();
    desktop := menu.HandleClick("#pricing", layout, pageYOffset);
    drawer := bar.HandleLinkClick("#pricing", layout);
    guardSet := guard.manualScrolling;
    drawerOpen := bar.isDrawerOpen;
  }

  /** With the guard clear, both presenters resolve the same menu key from the same page. */
  method PresentersAgree(layout: Layout) returns (desktop: string, drawer: string)
    ensures desktop == drawer == ActiveMenuKey(layout, ScrollOffset)
    ensures IsMenuKey(desktop)
  {
    var guard := new ManualScrollGuard();
    var menu := new NavMenu(guard, "/");
    var bar := new Navbar(guard, "/");
    menu.HandleScroll(layout);
    bar.HandleScroll(layout);
    desktop, drawer := menu.activeSection, bar.activeSection;
  }

  /** A click in the drawer sets the shared guard, so the desktop menu ignores scrolling too. */
  method DrawerClickHoldsDesktop(layout: Layout, scrollLayout: Layout)
    returns (desktop: string, drawer: string, drawerOpen: bool)
    requires "pricing" in layout
    ensures desktop == "hero" && drawer == "pricing" && !drawerOpen
  {
    var guard := new ManualScrollGuard();
    var menu := new NavMenu(guard, "/");
    var bar := new Navbar(guard, "/");
    bar.ToggleDrawer();
    var _ := bar.HandleLinkClick("#pricing", layout);
    menu.HandleScroll(scrollLayout);
    bar.HandleScroll(scrollLayout);
    desktop, drawer, drawerOpen := menu.activeSection, bar.activeSection, bar.isDrawerOpen;
  }
}
