/**
  The site header's mobile drawer: a toggled list of links with its own
  highlighted item, kept in step with the page by the same resolver and the
  same shared manual-scroll guard as the desktop menu. A click on an in-page
  link scrolls the section into view and always closes the drawer. The header
  styling, logo, theme and sign-in buttons are not modelled.
 */
module Navbar {
  import opened NavigationConfig
  import opened ManualScroll
  import opened NavMenu

  /** Milliseconds the guard stays set after a click in the drawer. */
  const DrawerScrollTimeout: nat := 1500

  class Navbar {
    const guard: ManualScrollGuard
    var pathname: string
    var activeSection: string
    var isDrawerOpen: bool

    constructor (guard: ManualScrollGuard, pathname: string)
      ensures this.guard == guard && this.pathname == pathname
      ensures activeSection == "hero" && !isDrawerOpen
    {
      this.guard := guard;
      this.pathname := pathname;
      activeSection := "hero";
      isDrawerOpen := false;
    }

    /**
      The link with this href is drawn as the current item: an in-page link
      when it names the active section on the home page, any other link when
      it is the current page.
     */
    function Highlighted(href: string): (b: bool)
      reads this
      ensures IsAnchor(href) && IsPath(pathname) ==> (b <==> pathname == "/" && href == "#" + activeSection)
      ensures !IsAnchor(href) ==> (b <==> href == pathname)
    {
      AnchorHighlight(href, pathname, activeSection);
      ItemActive(href, pathname, activeSection)
    }

    method ToggleDrawer()
      modifies this
      ensures isDrawerOpen == !old(isDrawerOpen)
      ensures activeSection == old(activeSection) && pathname == old(pathname)
    {
      isDrawerOpen := !isDrawerOpen;
    }

    method HandleOverlayClick()
      modifies this
      ensures !isDrawerOpen
      ensures activeSection == old(activeSection) && pathname == old(pathname)
    {
      isDrawerOpen := false;
    }

    /** Scroll listener: skipped while the guard is set or off the home page. */
    method HandleScroll(layout: Layout)
      modifies this
      ensures pathname == old(pathname) && isDrawerOpen == old(isDrawerOpen)
      ensures guard.manualScrolling || pathname != "/" ==> activeSection == old(activeSection)
      ensures !guard.manualScrolling && pathname == "/" ==>
        activeSection == ActiveMenuKey(layout, ScrollOffset) && IsMenuKey(activeSection)
    {
      var manual := guard.Get();
      if manual || pathname != "/" {
        return;
      }
      var key := GetActiveMenuSection(layout, ScrollOffset);
      activeSection := key;
    }

    /** The pathname changes: the listener is registered anew and runs once at once. */
    method RouteChanged(path: string, layout: Layout)
      modifies this
      ensures pathname == path && isDrawerOpen == old(isDrawerOpen)
      ensures guard.manualScrolling || path != "/" ==> activeSection == old(activeSection)
      ensures !guard.manualScrolling && path == "/" ==> activeSection == ActiveMenuKey(layout, ScrollOffset)
    {
      pathname := path;
      HandleScroll(layout);
    }

    /** Click on a drawer link; `layout` holds the boxes of the elements present on the page. */
    method HandleLinkClick(href: string, layout: Layout) returns (effect: ClickEffect)
      requires guard.Valid()
      modifies this, guard
      ensures guard.Valid()
      ensures pathname == old(pathname)
      ensures !isDrawerOpen
      ensures !IsAnchor(href) ==>
        effect == FollowLink && activeSection == old(activeSection) && unchanged(guard)
      ensures IsAnchor(href) && pathname != "/" ==>
        effect == RouterPush("/" + href) && activeSection == old(activeSection) && unchanged(guard)
      ensures IsAnchor(href) && pathname == "/" && TargetId(href) !in layout ==>
        effect == Prevented && activeSection == old(activeSection) && unchanged(guard)
      ensures IsAnchor(href) && pathname == "/" && TargetId(href) in layout ==>
        && effect == ScrollIntoView(TargetId(href))
        && guard.manualScrolling
        && activeSection == TargetId(href)
        && guard.pendingResets == old(guard.pendingResets) + multiset{DrawerScrollTimeout}
    {
      if !IsAnchor(href) {
        isDrawerOpen := false;
        return FollowLink;
      }
      if pathname != "/" {
        effect := RouterPush("/" + href);
        isDrawerOpen := false;
        return;
      }
      var targetId := TargetId(href);
      if targetId in layout {
        guard.Set(true);
        activeSection := targetId;
        effect := ScrollIntoView(targetId);
        guard.ScheduleReset(DrawerScrollTimeout);
      } else {
        effect := Prevented;
      }
      isDrawerOpen := false;
    }
  }
}
