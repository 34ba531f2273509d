/**
  The desktop navigation menu: a row of links, one of them highlighted. A
  scroll listener keeps the highlight on the active menu key. A click on an
  in-page link sets the shared manual-scroll guard, moves the highlight at
  once and scrolls smoothly to the section. The indicator's position and size
  and the spring animation are not modelled.
 */
module NavMenu {
  import opened NavigationConfig
  import opened ManualScroll

  /** What the browser or the router is asked to do after a click on a link. */
  datatype ClickEffect =
    | FollowLink                  // default kept: the browser follows the href
    | RouterPush(url: string)     // default prevented, client-side navigation to url
    | SmoothScrollTo(top: real)   // default prevented, window scrolls to this page offset
    | ScrollIntoView(id: string)  // default prevented, the element scrolls into view
    | Prevented                   // default prevented, nothing else happens
  {
    predicate PreventsDefault() {
      !FollowLink?
    }
  }

  /** The link points at a section of the current page. */
  predicate IsAnchor(href: string) {
    |href| > 0 && href[0] == '#'
  }

  /** The href without its first character: the id of an in-page target. */
  function TargetId(href: string): string {
    if |href| == 0 then href else href[1..]
  }

  /** A router pathname: it starts with a slash. */
  predicate IsPath(p: string) {
    |p| > 0 && p[0] == '/'
  }

  /** The highlight rule shared by the desktop menu and the mobile drawer. */
  predicate ItemActive(href: string, pathname: string, activeSection: string) {
    (IsAnchor(href) && pathname == "/" && activeSection == TargetId(href)) || href == pathname
  }

  /** An in-page link is highlighted exactly on the home page, when it names the active section. */
  lemma AnchorHighlight(href: string, pathname: string, activeSection: string)
    ensures IsAnchor(href) && IsPath(pathname) ==>
      (ItemActive(href, pathname, activeSection) <==> pathname == "/" && href == "#" + activeSection)
  {
    if IsAnchor(href) {
      assert href == "#" + TargetId(href);
    }
  }

  /** With distinct hrefs and no link to "/" itself, at most one link is highlighted. */
  lemma HighlightUnique(hrefs: seq<string>, pathname: string, activeSection: string, i: nat, j: nat)
    requires Distinct(hrefs) && "/" !in hrefs && IsPath(pathname)
    requires i < |hrefs| && j < |hrefs|
    requires ItemActive(hrefs[i], pathname, activeSection) && ItemActive(hrefs[j], pathname, activeSection)
    ensures i == j
  {
    AnchorHighlight(hrefs[i], pathname, activeSection);
    AnchorHighlight(hrefs[j], pathname, activeSection);
  }

  /**
    The link the indicator starts under: the enterprise page's own link there,
    the hero anchor everywhere else. It is the link the initial state highlights.
   */
  function InitialIndicatorHref(pathname: string): (href: string)
    ensures IsPath(pathname) ==>
      (ItemActive(href, pathname, "hero") <==> pathname == "/" || pathname == "/enterprise")
  {
    if pathname == "/enterprise" then "/enterprise" else "#hero"
  }

  class NavMenu {
    const guard: ManualScrollGuard
    var pathname: string
    var activeSection: string

    constructor (guard: ManualScrollGuard, pathname: string)
      ensures this.guard == guard && this.pathname == pathname
      ensures activeSection == "hero"
    {
      this.guard := guard;
      this.pathname := pathname;
      activeSection := "hero";
    }

    /**
      The link with this href is drawn as the current item: an in-page link
      when it names the active section on the home page, any other link when
      it is the current page.
     */
    function Highlighted(href: string): (b: bool)
      reads this
      ensures IsAnchor(href) && IsPath(pathname) ==> (b <==> pathname == "/" && href == "#" + activeSection)
      ensures !IsAnchor(href) ==> (b <==> href == pathname)
    {
      AnchorHighlight(href, pathname, activeSection);
      ItemActive(href, pathname, activeSection)
    }

    /** Scroll listener: skipped while the guard is set or off the home page. */
    method HandleScroll(layout: Layout)
      modifies this
      ensures pathname == old(pathname)
      ensures guard.manualScrolling || pathname != "/" ==> activeSection == old(activeSection)
      ensures !guard.manualScrolling && pathname == "/" ==>
        activeSection == ActiveMenuKey(layout, ScrollOffset) && IsMenuKey(activeSection)
    {
      var manual := guard.Get();
      if manual || pathname != "/" {
        return;
      }
      var key := GetActiveMenuSection(layout, ScrollOffset);
      activeSection := key;
    }

    /** The pathname changes: the listener is registered anew and runs once at once. */
    method RouteChanged(path: string, layout: Layout)
      modifies this
      ensures pathname == path
      ensures guard.manualScrolling || path != "/" ==> activeSection == old(activeSection)
      ensures !guard.manualScrolling && path == "/" ==> activeSection == ActiveMenuKey(layout, ScrollOffset)
    {
      pathname := path;
      HandleScroll(layout);
    }

    /**
      Click on a menu link. `layout` holds the boxes of the elements present on
      the page and `pageYOffset` is the current vertical scroll of the window.
     */
    method HandleClick(href: string, layout: Layout, pageYOffset: real) returns (effect: ClickEffect)
      requires guard.Valid()
      modifies this, guard
      ensures guard.Valid()
      ensures pathname == old(pathname)
      ensures !IsAnchor(href) ==>
        effect == FollowLink && activeSection == old(activeSection) && unchanged(guard)
      ensures IsAnchor(href) && pathname != "/" ==>
        effect == RouterPush("/" + href) && activeSection == old(activeSection) && unchanged(guard)
      ensures IsAnchor(href) && pathname == "/" && TargetId(href) !in layout ==>
        effect == Prevented && activeSection == old(activeSection) && unchanged(guard)
      ensures IsAnchor(href) && pathname == "/" && TargetId(href) in layout ==>
        && effect == SmoothScrollTo(layout[TargetId(href)].top + pageYOffset - ScrollOffset)
        && guard.manualScrolling
        && activeSection == TargetId(href)
        && guard.pendingResets == old(guard.pendingResets) + multiset{ManualScrollTimeout}
    {
      if !IsAnchor(href) {
        return FollowLink;
      }
      var targetId := TargetId(href);
      if pathname != "/" {
        return RouterPush("/" + href);
      }
      if targetId in layout {
        guard.Set(true);
        activeSection := targetId;
        var offsetPosition := layout[targetId].top + pageYOffset - ScrollOffset;
        effect := SmoothScrollTo(offsetPosition);
        guard.ScheduleReset(ManualScrollTimeout);
      } else {
        effect := Prevented;
      }
    }
  }
}
