# Scroll-synchronised homepage navigation, modelled in Dafny

This project models the navigation core of the Salesix marketing homepage. It is
written in Dafny and covers three parts.

- **Section map and active-section resolver** (`navigation_config.dfy`, module
  `NavigationConfig`):
  - the table from menu keys to the page sections each key covers;
  - the lookup from a section id to its menu key;
  - the top-to-bottom list of section ids;
  - the scan that picks the active section from a snapshot of the page layout;
  - the composition of the scan and the lookup that gives the menu key to
    highlight.

  The DOM is a `Layout`: a map from element id to its viewport box
  `Rect(top, bottom)`. An id with no element is simply absent from the map.
  `findClosestSection` is a `while` loop with `break`. It is proved equal to a
  declarative last-wins specification (`StopIndex`, `LastCandidate`,
  `ActiveIndex`, `ClosestSection`), and the lemmas about the resolver are
  proved about that specification.
- **Manual-scroll guard** (`manual_scroll.dfy`, module `ManualScroll`). This is
  the shared flag behind `getManualScrolling`/`setManualScrolling`. The flag's
  storage is not part of this model, so it is a boolean cell with a getter and
  a setter. Beside it sits the multiset of pending "clear the guard" timers,
  each recorded by its delay. Firing any pending timer clears the guard.
  Scheduling a timer never cancels an earlier one. This matches the code at
  frontend/src/components/home/nav-menu.tsx:152-154 and
  frontend/src/components/home/sections/navbar.tsx:280-282.
- **The two presenters** (`nav_menu.dfy` and `navbar.dfy`). `NavMenu.NavMenu`
  is the desktop menu and `Navbar.Navbar` is the mobile drawer. Each is a class
  with these parts:
  - its `activeSection`, its `pathname` and (for the drawer) `isDrawerOpen`;
  - a reference to the one shared guard;
  - methods for the scroll listener, the route change that re-registers the
    listener, and the link click.

  A click returns a `ClickEffect`:
  - `FollowLink` when the default action is kept;
  - `RouterPush(url)` for `router.push`;
  - `SmoothScrollTo(top)` for `window.scrollTo`;
  - `ScrollIntoView(id)` for `element.scrollIntoView`;
  - `Prevented` when the default is prevented and nothing else happens.

  `nav_scenarios.dfy` runs both presenters over one guard. It shows what a user
  sees across clicks, scroll events and timer firings.

The system's design description says that a second click restarts the guard's
timer and clears the earlier one. The code does not do this: both presenters
call `setTimeout` without clearing the previous timer. This model follows the
code. `NavScenarios.SecondClickKeepsFirstReset` shows the consequence. The
first click's reset clears the guard while the second click's reset is still
pending, and the next scroll event then replaces the optimistic highlight.

The design description speaks of monotonicity "as the page scrolls". On a fixed
layout snapshot, the model states this as monotonicity in the offset line
(`ActiveIndexMonotone`).

## Model

| member | source | states |
|---|---|---|
| NavigationConfig.FirstOwner | frontend/src/lib/navigation-config.ts:36-40 | the index found is the first entry, in enumeration order, whose list holds the id; it is the number of entries when no list holds it |
| NavigationConfig.MenuSectionFor | frontend/src/lib/navigation-config.ts:35-42 | every id listed under key k maps back to k (the round trip); an id that no list holds maps to itself |
| NavigationConfig.SectionMapDisjoint | frontend/src/lib/navigation-config.ts:10-16 | no section id is listed under two menu keys |
| NavigationConfig.AllSectionIds | frontend/src/lib/navigation-config.ts:48-52 | the page order is exactly the section map's lists, entry after entry (hero … footer) |
| NavigationConfig.AllSectionIdsDistinct | frontend/src/lib/navigation-config.ts:51 | each section id appears in the page order once |
| NavigationConfig.ListedSectionHasOwner | frontend/src/lib/navigation-config.ts:10-16 | every id in the page order is covered by some menu key, and its lookup is a menu key |
| NavigationConfig.OptimisticHighlightAgrees | frontend/src/lib/navigation-config.ts:10-16 | each menu key is a section id in the page order and maps to itself, so the key a click highlights is the key the resolver gives for that section |
| NavigationConfig.StopIndex | frontend/src/lib/navigation-config.ts:66-83 | the scan stops at the first present section whose top is below the offset; absent ids and started sections never stop it |
| NavigationConfig.LastCandidate | frontend/src/lib/navigation-config.ts:61-78 | the result is the last index before the bound that is present, started and not scrolled past, and 0 when there is none |
| NavigationConfig.ClosestSection | frontend/src/lib/navigation-config.ts:59-88 | there is a result (never null) exactly when the list is non-empty, and it is one of the listed ids |
| NavigationConfig.FindClosestSection | frontend/src/lib/navigation-config.ts:59-88 | the loop with its early break returns the last-wins section of the specification |
| NavigationConfig.ActiveIndexCharacterized | frontend/src/lib/navigation-config.ts:65-85 | both directions: index c is reported iff it is the last candidate before the stop, or c is 0 and no candidate precedes the stop |
| NavigationConfig.DefaultIsHero | frontend/src/lib/navigation-config.ts:61 | when no present section has top at or above the offset, the result is 'hero' and the menu key is 'hero' |
| NavigationConfig.ActiveIndexMonotone | frontend/src/lib/navigation-config.ts:63-83 | on a fixed layout, a lower offset line never reports a section higher up the page |
| NavigationConfig.AbsentSectionSkipped | frontend/src/lib/navigation-config.ts:66-67 | removing an id that has no element (after the first position) leaves the result unchanged |
| NavigationConfig.ActiveMenuKey | frontend/src/lib/navigation-config.ts:95-101 | the owner of the resolved section, 'hero' only when there is none, is always a key of the section map |
| NavigationConfig.GetActiveMenuSection | frontend/src/lib/navigation-config.ts:95-101 | composing the scan with the lookup yields the specified menu key, always a key of the section map |
| NavigationConfig.CapabilitiesScenario | frontend/src/lib/navigation-config.ts:65-85 | with hero scrolled past the line, capabilities straddling it and deliverables below it, the active section and its menu key are both 'capabilities' |
| ManualScroll.ManualScrollGuard.constructor | frontend/src/components/home/nav-menu.tsx:11-12 | the guard starts clear with no pending reset |
| ManualScroll.ManualScrollGuard.Get | frontend/src/components/home/nav-menu.tsx:69 | reading the guard returns its current value |
| ManualScroll.ManualScrollGuard.Set | frontend/src/components/home/nav-menu.tsx:130 | setting the guard changes the flag only; pending resets stay |
| ManualScroll.ManualScrollGuard.ScheduleReset | frontend/src/components/home/nav-menu.tsx:152-154 | a new reset is added and earlier pending resets are kept (no cancellation) |
| ManualScroll.ManualScrollGuard.FireReset | frontend/src/components/home/sections/navbar.tsx:280-282 | a pending reset fires: it leaves the pending set and the guard is cleared |
| NavMenu.AnchorHighlight | frontend/src/components/home/nav-menu.tsx:167 | an in-page link is highlighted iff the page is '/' and the link is '#' followed by the active section |
| NavMenu.HighlightUnique | frontend/src/components/home/nav-menu.tsx:164-176 | with distinct hrefs and no link to '/', no two links are highlighted at once |
| NavMenu.InitialIndicatorHref | frontend/src/components/home/nav-menu.tsx:48-64 | the indicator starts on '/enterprise' on that page and on '#hero' elsewhere, and that link is the one the initial 'hero' state highlights exactly on '/' and '/enterprise' |
| NavMenu.NavMenu.constructor | frontend/src/components/home/nav-menu.tsx:44 | the desktop menu starts with 'hero' active |
| NavMenu.NavMenu.Highlighted | frontend/src/components/home/nav-menu.tsx:167 | an in-page link is highlighted iff on '/' it names the active section; any other link iff it is the current pathname |
| NavMenu.NavMenu.HandleScroll | frontend/src/components/home/nav-menu.tsx:67-84 | no change while the guard is set or off '/'; otherwise the active section becomes the resolved menu key |
| NavMenu.NavMenu.RouteChanged | frontend/src/components/home/nav-menu.tsx:86-105 | after a route change the listener runs once: on '/' with the guard clear the active key is resolved, otherwise nothing changes |
| NavMenu.NavMenu.HandleClick | frontend/src/components/home/nav-menu.tsx:107-156 | a non-'#' link is followed with nothing changed; off '/' the router is sent to '/' + href with nothing changed; on '/' with no target nothing changes; with a target the guard is set, the target is highlighted, the window scrolls to elementTop + pageYOffset - 100 and one 500 ms reset is added to those pending |
| Navbar.Navbar.constructor | frontend/src/components/home/sections/navbar.tsx:71-72 | the drawer starts closed with 'hero' active |
| Navbar.Navbar.Highlighted | frontend/src/components/home/sections/navbar.tsx:288 | the drawer uses the desktop rule: an in-page link iff on '/' it names the active section, any other link iff it is the current pathname |
| Navbar.Navbar.ToggleDrawer | frontend/src/components/home/sections/navbar.tsx:107 | the drawer flag is negated and nothing else changes |
| Navbar.Navbar.HandleOverlayClick | frontend/src/components/home/sections/navbar.tsx:108 | the drawer is closed and nothing else changes |
| Navbar.Navbar.HandleScroll | frontend/src/components/home/sections/navbar.tsx:85-92 | no change while the guard is set or off '/'; otherwise the active section becomes the resolved menu key |
| Navbar.Navbar.RouteChanged | frontend/src/components/home/sections/navbar.tsx:84-98 | after a route change the listener runs once with the same gate |
| Navbar.Navbar.HandleLinkClick | frontend/src/components/home/sections/navbar.tsx:252-286 | the drawer always ends closed; a non-'#' link is followed, and off '/' the router is sent to '/' + href, both leaving guard and highlight alone; on '/' with a target the guard is set, the target is highlighted, it is scrolled into view and one 1500 ms reset is added |
| NavScenarios.ClickHighlightSurvivesScrolling | frontend/src/components/home/nav-menu.tsx:126-154 | after a click, any number of scroll events keep the clicked section highlighted while its reset is pending |
| NavScenarios.ResetReleasesScrollSync | frontend/src/components/home/nav-menu.tsx:152-154 | once the reset fires, the next scroll event highlights the resolved menu key |
| NavScenarios.SecondClickKeepsFirstReset | frontend/src/components/home/nav-menu.tsx:151-154 | two quick clicks leave two resets; the first one clears the guard while the second is still pending, and a scroll then overrides the highlight |
| NavScenarios.OffHomeClickNavigates | frontend/src/components/home/sections/navbar.tsx:259-266 | off '/', '#pricing' in either presenter asks the router for '/#pricing', sets no guard and closes the drawer |
| NavScenarios.PresentersAgree | frontend/src/components/home/sections/navbar.tsx:85-92 | with the guard clear, desktop and drawer resolve the same menu key from the same page |
| NavScenarios.DrawerClickHoldsDesktop | frontend/src/components/home/sections/navbar.tsx:271-282 | a drawer click sets the shared guard, so the desktop highlight ignores scrolling too, and the drawer closes |

## Left out

- The indicator's `left`, `width` and `isReady` state, its measurement with `getBoundingClientRect`/`offsetLeft`, and the spring animation. The placement of the indicator off the home page (frontend/src/components/home/nav-menu.tsx:86-99) is measurement only.
- The browser and the framework. `window.scrollTo`, `scrollIntoView` and `router.push` are returned as `ClickEffect` values and never performed. `document.getElementById`/`getBoundingClientRect` are the `Layout` parameter. `window.pageYOffset` is a parameter. `addEventListener`/`removeEventListener` appear only as `RouteChanged` running the listener once.
- Wall-clock time. A pending reset fires when `FireReset` is called, in any order, with no clock.
- The guard's storage. It is not part of this model, and its initial value (clear) is an assumption of the constructor.
- JavaScript numbers. Positions are Dafny `real`s, without floating-point rounding. The resolver only compares them, and the scroll target only adds and subtracts them.
- The `offset = SCROLL_OFFSET` default parameters. Every modelled caller passes the offset explicitly.
- Header styling, the `hasScrolled` flag, theme and logo selection, and the sign-in buttons in `navbar.tsx`. None of them takes part in navigation.
- NavMenu.NavMenu.HandleClick: the contract gives the state after the click and the scroll it requests. It does not state that the guard and the highlight are updated before the scroll request; the body does these steps in that order.
- Navbar.Navbar.HandleLinkClick: the same holds for the drawer. The contract does not state that the guard and highlight change before `scrollIntoView`.
