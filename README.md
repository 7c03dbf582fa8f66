# Sidebar state machine of the ShirokoHub page scripts

The site has four pages, each with its own script. Every script carries a
copy of `SidebarModule`, a small state machine for the navigation sidebar.
On a wide viewport the sidebar is a rail next to the content. On a narrow
viewport (width at most 768 pixels) it is a drawer with a full-screen overlay
behind it. The module's state is:

- one boolean field;
- the class lists of two elements, the sidebar and the overlay;
- one local storage key, scoped to the page.

Four handlers drive it: toggle, close, resize and restore. Each one reads the
viewport width.

The develop-progress, projects and about-bot scripts (`develop_main.js`,
`project_main.js`, `about-bot_main.js`) are identical apart from the storage
key. Module `ExpandSidebar` models all three, parameterised by a `Page`. Its
flag is `isExpanded` and its classes are `expanded` (sidebar) and `active`
(overlay). The home page script (`main.js`) is a variant, modelled by module
`CollapseSidebar`. Its flag is `isCollapsed`. It uses `active` on a narrow
viewport and `collapsed` on a wide one.

Each variant is modelled in two layers:

- `State` is a record of the flag, the two class sets and the storage map.
  Each handler is a function on `State`: `Toggle`, `Close`, `Resize`,
  `Restore`. `Run` applies a sequence of handler calls in order.
- A `SidebarModule` class holds the same fields. Its handler methods
  (`ToggleSidebar`, `CloseSidebar`, `HandleResize`, `RestoreState`) update the
  fields in place, each proved to produce exactly the state the matching
  function gives. `Init` models the anchor guard. The `…Clicked` and
  `ResizeSettled` methods model the listeners that `init` wires, so they do
  nothing when the anchors were missing.

The properties are proved as lemmas on the functions:

- **Sidebar class tracks the flag** (three pages): `isExpanded` agrees with
  `expanded` after any sequence of calls (`RunKeepsInSync`).
- **Overlay does not track the flag** (three pages): it stays paired with the
  flag only while every call sees a narrow viewport
  (`NarrowRunKeepsOverlayPaired`). Expanding on a wide viewport, resizing to
  narrow and toggling closes the drawer but shows the overlay
  (`OverlayDoesNotTrackFlag`). The model keeps this behaviour as written.
- **Sidebar and overlay stay paired** (home page): their `active` classes
  stay equal (`RunKeepsPaired`).
- **`isCollapsed` means two things** (home page): opening the drawer on a
  narrow viewport stores `"true"`, and a later wide load reads it as a
  collapsed rail (`NarrowOpenRestoresCollapsed`). Resizing to narrow drops the
  `collapsed` class but leaves the flag set (`ResizeDropsCollapsedClass`).

The other modules:

- `Dom`: class-list add, remove and toggle on `set<string>`, and
  `localStorage` `setItem`/`getItem` on `map<string, string>`.
  `localStorage.setItem` turns a boolean into the string `"true"` or
  `"false"`. `getItem` on an absent key gives `None`, standing for `null`.
- `Viewport`: `Utils.isMobile` and the 768 breakpoint.
- `Clock`: the `HH:MM:SS` text of `TimeModule.updateTime`.
- `Navigation`: `addTooltips` and `setActivePage`, which update the link
  array in place.

The three non-home scripts have `SidebarModule`, `addTooltips` and
`updateTime` at the same line numbers. Rows below cite one of the three; the
same lines in the other two scripts say the same thing, with that script's
key. `main.js` has its own `addTooltips` at lines 74-82, identical to the
others.

On a narrow viewport the overlay is meant to appear and disappear together
with the drawer. The code does not keep the two together once a wide-viewport
toggle has happened. The model follows the code and states the gap as lemmas.

The home page's resize rule on a narrow viewport tests `active` and removes
`collapsed`. The other pages' rule tests and removes `expanded`. The model
follows each script as written.

## Model

| member | source | states |
|---|---|---|
| Dom.AddClass | scripts/develop_main.js:103 | after `classList.add(c)`, `c` is present and every other class is kept |
| Dom.RemoveClass | scripts/develop_main.js:65-66 | after `classList.remove(c)`, `c` is absent and every other class is kept |
| Dom.ToggleClass | scripts/develop_main.js:49-50 | `classList.toggle(c)` flips whether `c` is present and keeps every other class |
| Dom.ToggleClassTwice | scripts/develop_main.js:49 | toggling the same class twice gives back the original class list |
| Dom.BoolString | scripts/develop_main.js:57 | `setItem` stores a boolean as `"true"` exactly when it is true and as `"false"` exactly when it is false |
| Dom.SetItem | scripts/develop_main.js:57 | after `setItem`, the key holds the value and no other key changes |
| Dom.GetItem | scripts/develop_main.js:101 | `getItem` returns a value exactly when the key is stored, and then the stored string |
| Dom.StoredBoolReadsBack | scripts/develop_main.js:57-102 | a stored boolean reads back as exactly `"true"` iff it was true |
| Viewport.BreakpointIsInclusive | scripts/main.js:243-245 | width 768 is mobile and 769 is not; any width below a mobile width is mobile |
| Clock.NatToString | scripts/develop_main.js:16-18 | `String(n)` is a non-empty digit string that denotes `n`, has no leading zero, is one digit exactly when `n < 10`, and is at most two digits when `n < 100` |
| Clock.PadStart | scripts/develop_main.js:16-18 | `padStart(w, c)` has length max(len, w), ends with the original string and is `c` before it |
| Clock.TwoDigitsDenotes | scripts/project_main.js:16-18 | every field below 100, rendered by `String(n).padStart(2, '0')`, is exactly two digits that denote it |
| Clock.FormatTime | scripts/about-bot_main.js:15-20 | the clock text is 8 characters with ':' at positions 2 and 5, and its three two-digit fields denote h, m and s |
| Clock.FormatTimeInjective | scripts/main.js:12-19 | distinct in-range times never produce the same clock text |
| Navigation.WithTooltip | scripts/develop_main.js:77-80 | a link with a `.nav-text` child gets that text as `data-tooltip`; a link without one is unchanged; no other attribute, class or path changes |
| Navigation.WithTooltipIdempotent | scripts/project_main.js:74-82 | adding the tooltips a second time changes nothing |
| Navigation.AddTooltips | scripts/develop_main.js:74-82 | each link in the array is updated on its own by the per-link tooltip rule |
| Navigation.MarkActive | scripts/main.js:173-178 | a link carries `active` afterwards iff its path equals the current path; its other classes, path and attributes are unchanged |
| Navigation.SetActivePage | scripts/main.js:168-180 | each link is updated on its own by the per-link rule, so exactly the links to the current path carry `active` |
| Navigation.MarkActiveIdempotent | scripts/main.js:172-179 | marking the active page a second time for the same path changes nothing |
| Navigation.TooltipAndActiveCommute | scripts/main.js:268-270 | tooltips and active marking touch disjoint parts of a link, so the order of the sidebar and navigation initialisation does not matter for the links |
| ExpandSidebar.StorageKeysDistinct | scripts/project_main.js:57 | the develop, projects and about-bot pages persist under three pairwise different keys |
| ExpandSidebar.ToggleEffect | scripts/develop_main.js:44-54 | toggle negates `isExpanded` and flips `expanded` in both modes. It flips overlay `active` only when width <= 768 and otherwise leaves the overlay exactly as it was. No other class changes |
| ExpandSidebar.TogglePersists | scripts/develop_main.js:57 | after a toggle the page's key holds `"true"` or `"false"`, equal to the new flag, and no other key changes |
| ExpandSidebar.ToggleKeepsOtherPages | scripts/about-bot_main.js:57 | a toggle on one page leaves another page's stored flag unchanged, present or absent |
| ExpandSidebar.ToggleTwice | scripts/project_main.js:44-58 | two toggles at the same width restore the flag and both class sets; the stored value is then the flag from before the first toggle |
| ExpandSidebar.ToggleTwiceFromLoaded | scripts/project_main.js:39-58 | from the default state two toggles leave the sidebar closed, the overlay clear and `"false"` stored |
| ExpandSidebar.CloseEffect | scripts/develop_main.js:63-69 | at width <= 768 close leaves `expanded` and overlay `active` absent and the flag false, changing nothing else; at width > 768 it changes nothing |
| ExpandSidebar.CloseIdempotent | scripts/project_main.js:63-69 | closing twice equals closing once |
| ExpandSidebar.ResizeEffect | scripts/develop_main.js:87-95 | at width > 768 resize removes only the overlay's `active`. At width <= 768 the state is unchanged, because its remove runs only when `expanded` is already absent |
| ExpandSidebar.RestoreEffect | scripts/about-bot_main.js:100-106 | restore adds `expanded` and sets the flag iff the key holds exactly `"true"` and width > 768; otherwise the state is untouched |
| ExpandSidebar.StepKeepsInSync | scripts/develop_main.js:45-105 | each of toggle, close, resize and restore keeps `isExpanded` equal to "the sidebar has `expanded`" |
| ExpandSidebar.RunKeepsInSync | scripts/about-bot_main.js:39-106 | any sequence of toggle, close, resize and restore calls keeps `isExpanded` equal to "the sidebar has `expanded`" |
| ExpandSidebar.LoadedStaysInSync | scripts/develop_main.js:39-106 | starting from `isExpanded = false` and no `expanded` class, the flag tracks the class after any sequence of calls |
| ExpandSidebar.RunKeepsEverythingElse | scripts/project_main.js:44-106 | no sequence of calls changes another storage key, a sidebar class other than `expanded`, or an overlay class other than `active` |
| ExpandSidebar.NarrowRunKeepsOverlayPaired | scripts/develop_main.js:47-50 | while every call sees width <= 768, overlay `active` stays equal to the flag |
| ExpandSidebar.OverlayDoesNotTrackFlag | scripts/about-bot_main.js:44-95 | expand at 1024, resize to 500, toggle at 500: the drawer is closed but the overlay is active, so the overlay does not track the flag |
| ExpandSidebar.PersistRoundTrip | scripts/project_main.js:57-105 | after any toggle, a fresh load restores `isExpanded` = (flag after the toggle and width > 768) |
| ExpandSidebar.LoadedRoundTrip | scripts/develop_main.js:57-105 | a toggle from default, then a fresh load, reopens the sidebar on a wide viewport and starts closed on a narrow one |
| ExpandSidebar.SidebarModule.constructor | scripts/develop_main.js:35-39 | before `init` the module has no elements, `isExpanded` false, and is not wired |
| ExpandSidebar.SidebarModule.ToggleSidebar | scripts/develop_main.js:44-58 | the fields afterwards are exactly `Toggle` of the fields before, and flag/class agreement is kept |
| ExpandSidebar.SidebarModule.CloseSidebar | scripts/develop_main.js:63-69 | the fields afterwards are exactly `Close` of the fields before; a wide close changes nothing |
| ExpandSidebar.SidebarModule.HandleResize | scripts/develop_main.js:87-95 | the fields afterwards are exactly `Resize` of the fields before; the flag and sidebar classes never change |
| ExpandSidebar.SidebarModule.RestoreState | scripts/develop_main.js:100-106 | the fields afterwards are exactly `Restore` of the fields before |
| ExpandSidebar.SidebarModule.Init | scripts/develop_main.js:111-125 | if sidebar, toggle button or overlay is missing, it returns with the state and links untouched and nothing wired. Otherwise it takes the elements, adds the tooltips to every link and restores the saved state |
| ExpandSidebar.SidebarModule.ToggleClicked | scripts/develop_main.js:128-130 | a toggle-button click runs toggle only when the listeners were wired |
| ExpandSidebar.SidebarModule.OverlayClicked | scripts/develop_main.js:133-135 | an overlay click runs close only when wired |
| ExpandSidebar.SidebarModule.NavLinkClicked | scripts/develop_main.js:138-145 | a navigation-link click runs close only when wired and width <= 768 |
| ExpandSidebar.SidebarModule.ResizeSettled | scripts/develop_main.js:148-154 | the settled resize runs the resize handler only when wired |
| CollapseSidebar.StorageKeyDistinct | scripts/main.js:57 | the home page key `sidebarCollapsed` is different from each of the other three pages' keys |
| CollapseSidebar.ToggleEffect | scripts/main.js:44-54 | toggle negates `isCollapsed` on every call. At width <= 768 it flips `active` on both elements and nothing else. At width > 768 it flips only the sidebar's `collapsed` and leaves the overlay untouched |
| CollapseSidebar.TogglePersists | scripts/main.js:57 | after a toggle `sidebarCollapsed` holds the new flag as `"true"`/`"false"` and no other key changes |
| CollapseSidebar.ToggleTwice | scripts/main.js:44-58 | two toggles at the same width restore the flag and both class sets, storing the original flag |
| CollapseSidebar.CloseEffect | scripts/main.js:63-69 | at width <= 768 close removes `active` from both elements and sets the flag false, changing nothing else; at width > 768 it is a no-op |
| CollapseSidebar.CloseIdempotent | scripts/main.js:64-68 | closing twice equals closing once |
| CollapseSidebar.CloseActsExactlyOnMobile | scripts/main.js:64 | with the drawer open, close changes the state iff `isMobile` holds for the width |
| CollapseSidebar.ResizeEffect | scripts/main.js:87-98 | at width > 768 resize removes `active` from both elements only. At width <= 768 it removes only `collapsed` when the sidebar lacks `active`, and otherwise changes nothing |
| CollapseSidebar.RestoreEffect | scripts/main.js:103-109 | restore adds `collapsed` and sets `isCollapsed` iff the key holds exactly `"true"` and width > 768; otherwise the state is untouched |
| CollapseSidebar.StepKeepsPaired | scripts/main.js:49-108 | each of toggle, close, resize and restore keeps "the sidebar has `active`" equal to "the overlay has `active`" |
| CollapseSidebar.RunKeepsPaired | scripts/main.js:44-109 | any sequence of calls keeps the sidebar's and the overlay's `active` equal |
| CollapseSidebar.LoadedStaysPaired | scripts/main.js:39-109 | from markup where neither element is `active`, the two stay paired after any sequence of calls |
| CollapseSidebar.RunKeepsEverythingElse | scripts/main.js:45-108 | no sequence of calls changes another storage key, a sidebar class other than `active`/`collapsed`, or an overlay class other than `active` |
| CollapseSidebar.NarrowOpenRestoresCollapsed | scripts/main.js:45-108 | opening the drawer on a narrow viewport stores `"true"`, which a later wide load restores as a collapsed rail |
| CollapseSidebar.ResizeDropsCollapsedClass | scripts/main.js:53-96 | collapsing on a wide viewport and then resizing to narrow removes `collapsed` while `isCollapsed` stays true |
| CollapseSidebar.PersistRoundTrip | scripts/main.js:57-108 | after any toggle, a fresh load restores `isCollapsed` = (flag after the toggle and width > 768) |
| CollapseSidebar.SidebarModule.constructor | scripts/main.js:35-39 | before `init` the module has no elements, `isCollapsed` false, and is not wired |
| CollapseSidebar.SidebarModule.ToggleSidebar | scripts/main.js:44-58 | the fields afterwards are exactly `Toggle` of the fields before, and sidebar/overlay pairing is kept |
| CollapseSidebar.SidebarModule.CloseSidebar | scripts/main.js:63-69 | the fields afterwards are exactly `Close` of the fields before; a wide close changes nothing |
| CollapseSidebar.SidebarModule.HandleResize | scripts/main.js:87-98 | the fields afterwards are exactly `Resize` of the fields before; the flag and storage never change |
| CollapseSidebar.SidebarModule.RestoreState | scripts/main.js:103-109 | the fields afterwards are exactly `Restore` of the fields before |
| CollapseSidebar.SidebarModule.Init | scripts/main.js:114-128 | if an anchor is missing, it returns with the state and links untouched and nothing wired. Otherwise it takes the elements, adds the tooltips and restores the saved state |
| CollapseSidebar.SidebarModule.ToggleClicked | scripts/main.js:131-133 | a toggle-button click runs toggle only when wired |
| CollapseSidebar.SidebarModule.OverlayClicked | scripts/main.js:136-138 | an overlay click runs close only when wired |
| CollapseSidebar.SidebarModule.NavLinkClicked | scripts/main.js:141-148 | a navigation-link click runs close only when wired and width <= 768 |
| CollapseSidebar.SidebarModule.ResizeSettled | scripts/main.js:151-157 | the settled resize runs the resize handler only when wired |

## Left out

- The clock (`new Date()`, `setInterval` in `TimeModule.init`) is left out. `updateTime` is modelled as a function of (h, m, s) with h < 24 and m, s < 60, the ranges `Date` returns. Its early return when the clock element is missing is not modelled.
- The 250 ms resize debounce (`clearTimeout`/`setTimeout` in each `init`) and `Utils.debounce` are timers. A settled resize is one atomic `ResizeSettled(width)` call.
- `ProgressModule.animateProgress` is a floating-point animation driven by an interval timer.
- `TooltipModule` positioning uses layout measurements in fractional pixels.
- `AnimationModule`, `SmoothScrollModule`, `ProjectCardsModule`, `Utils.scrollToTop` and the body fade-in set only presentation styles.
- DOM lookup (`getElementById`, `querySelectorAll`), listener registration and `console` logging are not modelled. Elements are given as class sets or an `Option` when they may be missing. Links are an array found before `init`.
- `localStorage` is a `map<string, string>` held by the module object. Storage errors (quota, disabled storage) are not modelled.
- `new URL(link.href).pathname` parsing is not modelled; each link carries its pathname as a string.
- The sidebar and the overlay are assumed to be two different elements, so an update to one never changes the other.
- `init` is modelled as called once per page load (`requires !anchored`), since the page calls it once from `DOMContentLoaded`. Calling it twice, which would wire every listener twice, is not modelled.
