/**
 The sidebar of the develop-progress, projects and about-bot pages. The three
 page scripts carry the same `SidebarModule`, differing only in the local
 storage key it persists to, so one module parameterised by the page serves
 all three.

 The state is the `isExpanded` field, the class lists of the sidebar and of
 the overlay, and local storage. The sidebar is open when it carries
 `expanded`; on a narrow viewport the overlay is shown when it carries
 `active`. The viewport width is an input of every handler.
 */
module ExpandSidebar {
  import opened Dom
  import opened Viewport
  import Navigation

  const ExpandedClass: string := "expanded"
  const ActiveClass: string := "active"

  datatype Page = Develop | Projects | AboutBot

  /** The page-scoped local storage key each page persists `isExpanded` under. */
  function StorageKey(page: Page): string
  {
    match page
    case Develop => "developSidebarExpanded"
    case Projects => "projectsSidebarExpanded"
    case AboutBot => "aboutBotSidebarExpanded"
  }

  /** The three pages persist under three different keys. */
  lemma StorageKeysDistinct(p: Page, q: Page)
    ensures StorageKey(p) == StorageKey(q) <==> p == q
  {
  }

  /** The observable state of one page's `SidebarModule`. */
  datatype State = State(
    expanded: bool,
    sidebar: set<string>,
    overlay: set<string>,
    storage: map<string, string>)

  /**
   The state right after the three anchors are found: `isExpanded` at its
   default `false`, the elements with the classes of the page's markup.
   */
  function Loaded(sidebar: set<string>, overlay: set<string>, storage: map<string, string>): State
  {
    State(false, sidebar, overlay, storage)
  }

  /** The flag agrees with the sidebar's class list. */
  predicate InSync(s: State)
  {
    s.expanded <==> ExpandedClass in s.sidebar
  }

  // ---------------------------------------------------------------------------
  // The four handlers, on states

  /**
   `toggleSidebar`: flips the flag and the sidebar's `expanded` class; on a
   narrow viewport also flips the overlay's `active`; then persists the new
   flag. Both branches of the source toggle `expanded`; only the narrow one
   touches the overlay.
   */
  function Toggle(page: Page, s: State, width: int): State
  {
    var expanded := !s.expanded;
    var sidebar := ToggleClass(s.sidebar, ExpandedClass);
    var overlay := if IsMobile(width) then ToggleClass(s.overlay, ActiveClass) else s.overlay;
    State(expanded, sidebar, overlay, SetItem(s.storage, StorageKey(page), BoolString(expanded)))
  }

  /** `closeSidebar`: on a narrow viewport closes the drawer and hides the overlay. */
  function Close(s: State, width: int): State
  {
    if IsMobile(width) then
      s.(sidebar := RemoveClass(s.sidebar, ExpandedClass),
         overlay := RemoveClass(s.overlay, ActiveClass),
         expanded := false)
    else
      s
  }

  /**
   `handleResize`: on a wide viewport hides the overlay; on a narrow one it
   removes `expanded` only when `expanded` is already absent.
   */
  function Resize(s: State, width: int): State
  {
    if !IsMobile(width) then
      s.(overlay := RemoveClass(s.overlay, ActiveClass))
    else if ExpandedClass !in s.sidebar then
      s.(sidebar := RemoveClass(s.sidebar, ExpandedClass))
    else
      s
  }

  /** `restoreState`: reopens the sidebar when the stored string is exactly "true" on a wide viewport. */
  function Restore(page: Page, s: State, width: int): State
  {
    if GetItem(s.storage, StorageKey(page)) == Some("true") && !IsMobile(width) then
      s.(sidebar := AddClass(s.sidebar, ExpandedClass), expanded := true)
    else
      s
  }

  /** One handler invocation with the viewport width it reads. */
  datatype Call = ToggleCall(width: int) | CloseCall(width: int) | ResizeCall(width: int) | RestoreCall(width: int)

  function Step(page: Page, s: State, c: Call): State
  {
    match c
    case ToggleCall(w) => Toggle(page, s, w)
    case CloseCall(w) => Close(s, w)
    case ResizeCall(w) => Resize(s, w)
    case RestoreCall(w) => Restore(page, s, w)
  }

  /** The state after a sequence of handler invocations, in order. */
  function Run(page: Page, s: State, calls: seq<Call>): State
    decreases |calls|
  {
    if calls == [] then s else Run(page, Step(page, s, calls[0]), calls[1..])
  }

  // ---------------------------------------------------------------------------
  // What each handler does

  /**
   Toggle negates the flag and flips `expanded` in both modes; it flips the
   overlay's `active` on a narrow viewport and leaves the overlay exactly as
   it was on a wide one. No other class changes.
   */
  lemma ToggleEffect(page: Page, s: State, width: int)
    ensures var t := Toggle(page, s, width);
      && t.expanded == !s.expanded
      && (ExpandedClass in t.sidebar <==> ExpandedClass !in s.sidebar)
      && t.sidebar - {ExpandedClass} == s.sidebar - {ExpandedClass}
      && (IsMobile(width) ==> (ActiveClass in t.overlay <==> ActiveClass !in s.overlay))
      && t.overlay - {ActiveClass} == s.overlay - {ActiveClass}
      && (!IsMobile(width) ==> t.overlay == s.overlay)
  {
  }

  /** After a toggle the page's key holds "true" or "false" as the new flag; no other key changes. */
  lemma TogglePersists(page: Page, s: State, width: int)
    ensures var t := Toggle(page, s, width);
      && GetItem(t.storage, StorageKey(page)) == Some(if t.expanded then "true" else "false")
      && t.storage - {StorageKey(page)} == s.storage - {StorageKey(page)}
  {
  }

  /** A toggle on one page never changes what another page has persisted. */
  lemma ToggleKeepsOtherPages(page: Page, other: Page, s: State, width: int)
    requires other != page
    ensures GetItem(Toggle(page, s, width).storage, StorageKey(other)) == GetItem(s.storage, StorageKey(other))
  {
    StorageKeysDistinct(page, other);
  }

  /**
   Two toggles at the same width restore the flag and both class lists; the
   stored value is then the flag as it was before the first toggle.
   */
  lemma ToggleTwice(page: Page, s: State, width: int)
    ensures Toggle(page, Toggle(page, s, width), width)
      == s.(storage := SetItem(s.storage, StorageKey(page), BoolString(s.expanded)))
  {
    ToggleClassTwice(s.sidebar, ExpandedClass);
    ToggleClassTwice(s.overlay, ActiveClass);
    var key := StorageKey(page);
    var t := Toggle(page, s, width);
    assert SetItem(t.storage, key, BoolString(s.expanded)) == SetItem(s.storage, key, BoolString(s.expanded));
  }

  /** From the freshly loaded state, two toggles leave everything closed and "false" stored. */
  lemma ToggleTwiceFromLoaded(page: Page, storage: map<string, string>, width: int)
    ensures var s := Toggle(page, Toggle(page, Loaded({}, {}, storage), width), width);
      && !s.expanded && s.sidebar == {} && s.overlay == {}
      && GetItem(s.storage, StorageKey(page)) == Some("false")
  {
    ToggleTwice(page, Loaded({}, {}, storage), width);
  }

  /**
   On a narrow viewport close leaves `expanded` and the overlay's `active`
   absent and the flag false, touching no other class or key; on a wide
   viewport it changes nothing.
   */
  lemma CloseEffect(s: State, width: int)
    ensures var t := Close(s, width);
      && (IsMobile(width) ==>
            && !t.expanded && ExpandedClass !in t.sidebar && ActiveClass !in t.overlay
            && t.sidebar - {ExpandedClass} == s.sidebar - {ExpandedClass}
            && t.overlay - {ActiveClass} == s.overlay - {ActiveClass}
            && t.storage == s.storage)
      && (!IsMobile(width) ==> t == s)
  {
  }

  /** Closing twice is closing once. */
  lemma CloseIdempotent(s: State, width: int)
    ensures Close(Close(s, width), width) == Close(s, width)
  {
    if IsMobile(width) {
      var t := Close(s, width);
      assert RemoveClass(t.sidebar, ExpandedClass) == t.sidebar;
      assert RemoveClass(t.overlay, ActiveClass) == t.overlay;
    }
  }

  /**
   On a wide viewport resize removes only the overlay's `active`; on a narrow
   one it changes nothing at all, since its remove runs only when the class is
   already absent.
   */
  lemma ResizeEffect(s: State, width: int)
    ensures !IsMobile(width) ==> Resize(s, width) == s.(overlay := s.overlay - {ActiveClass})
    ensures IsMobile(width) ==> Resize(s, width) == s
  {
    if IsMobile(width) && ExpandedClass !in s.sidebar {
      assert RemoveClass(s.sidebar, ExpandedClass) == s.sidebar;
    }
  }

  /**
   Restore opens the sidebar exactly when the page's key holds the exact
   string "true" and the viewport is wide; otherwise the state is untouched.
   */
  lemma RestoreEffect(page: Page, s: State, width: int)
    ensures var honoured := StorageKey(page) in s.storage && s.storage[StorageKey(page)] == "true" && width > 768;
      var t := Restore(page, s, width);
      && (honoured ==> t == s.(expanded := true, sidebar := s.sidebar + {ExpandedClass}))
      && (!honoured ==> t == s)
  {
  }

  // ---------------------------------------------------------------------------
  // Invariants

  /** Every handler keeps the flag in agreement with the sidebar's `expanded` class. */
  lemma StepKeepsInSync(page: Page, s: State, c: Call)
    requires InSync(s)
    ensures InSync(Step(page, s, c))
  {
  }

  /** Any sequence of handler calls keeps the flag in agreement with the sidebar's class. */
  lemma {:induction false} RunKeepsInSync(page: Page, s: State, calls: seq<Call>)
    requires InSync(s)
    ensures InSync(Run(page, s, calls))
    decreases |calls|
  {
    if calls != [] {
      StepKeepsInSync(page, s, calls[0]);
      RunKeepsInSync(page, Step(page, s, calls[0]), calls[1..]);
    }
  }

  /** From a page whose markup has no `expanded` class, the flag tracks the class forever. */
  lemma LoadedStaysInSync(page: Page, sidebar: set<string>, overlay: set<string>, storage: map<string, string>, calls: seq<Call>)
    requires ExpandedClass !in sidebar
    ensures InSync(Run(page, Loaded(sidebar, overlay, storage), calls))
  {
    RunKeepsInSync(page, Loaded(sidebar, overlay, storage), calls);
  }

  /** No sequence of handler calls on one page touches any other storage key, or any other class. */
  lemma {:induction false} RunKeepsEverythingElse(page: Page, s: State, calls: seq<Call>)
    ensures var t := Run(page, s, calls);
      && t.storage - {StorageKey(page)} == s.storage - {StorageKey(page)}
      && t.sidebar - {ExpandedClass} == s.sidebar - {ExpandedClass}
      && t.overlay - {ActiveClass} == s.overlay - {ActiveClass}
    decreases |calls|
  {
    if calls != [] {
      var next := Step(page, s, calls[0]);
      assert next.storage - {StorageKey(page)} == s.storage - {StorageKey(page)};
      assert next.sidebar - {ExpandedClass} == s.sidebar - {ExpandedClass};
      assert next.overlay - {ActiveClass} == s.overlay - {ActiveClass};
      RunKeepsEverythingElse(page, next, calls[1..]);
    }
  }

  /** The overlay is shown exactly when the drawer is open. */
  predicate OverlayPaired(s: State)
  {
    ActiveClass in s.overlay <==> s.expanded
  }

  predicate AllNarrow(calls: seq<Call>)
  {
    forall i :: 0 <= i < |calls| ==> IsMobile(calls[i].width)
  }

  /** While every call sees a narrow viewport, the overlay stays paired with the flag. */
  lemma {:induction false} NarrowRunKeepsOverlayPaired(page: Page, s: State, calls: seq<Call>)
    requires OverlayPaired(s) && AllNarrow(calls)
    ensures OverlayPaired(Run(page, s, calls))
    decreases |calls|
  {
    if calls != [] {
      assert IsMobile(calls[0].width);
      var next := Step(page, s, calls[0]);
      assert OverlayPaired(next);
      assert AllNarrow(calls[1..]) by {
        forall i | 0 <= i < |calls[1..]| ensures IsMobile(calls[1..][i].width) {
          assert calls[1..][i] == calls[i + 1];
        }
      }
      NarrowRunKeepsOverlayPaired(page, next, calls[1..]);
    }
  }

  /**
   Once a wide viewport intervenes the overlay no longer follows the flag:
   open the rail on a wide viewport, shrink to narrow, toggle. The drawer
   closes, yet the overlay is shown.
   */
  lemma OverlayDoesNotTrackFlag(page: Page, storage: map<string, string>)
    ensures var s := Run(page, Loaded({}, {}, storage), [ToggleCall(1024), ResizeCall(500), ToggleCall(500)]);
      && !s.expanded && ExpandedClass !in s.sidebar && ActiveClass in s.overlay
      && !OverlayPaired(s)
  {
    var s0 := Loaded({}, {}, storage);
    var s1 := Toggle(page, s0, 1024);
    var s2 := Resize(s1, 500);
    var s3 := Toggle(page, s2, 500);
    assert Run(page, s2, [ToggleCall(500)]) == s3;
    assert [ToggleCall(1024), ResizeCall(500), ToggleCall(500)][1..] == [ResizeCall(500), ToggleCall(500)];
    assert [ResizeCall(500), ToggleCall(500)][1..] == [ToggleCall(500)];
  }

  // ---------------------------------------------------------------------------
  // Persistence across page loads

  /**
   What a toggle persists is what the next page load restores: a fresh load
   on a wide viewport reopens the sidebar iff the toggle left it open, and a
   load on a narrow viewport always starts closed.
   */
  lemma PersistRoundTrip(page: Page, s: State, w1: int, w2: int,
                         sidebar: set<string>, overlay: set<string>)
    ensures var t := Toggle(page, s, w1);
      Restore(page, Loaded(sidebar, overlay, t.storage), w2).expanded == (t.expanded && !IsMobile(w2))
  {
    StoredBoolReadsBack(s.storage, StorageKey(page), !s.expanded);
  }

  /**
   Toggle from the freshly loaded state, then reload: on a wide viewport the
   sidebar comes back open, on a narrow one it starts closed.
   */
  lemma LoadedRoundTrip(page: Page, storage: map<string, string>, w1: int, w2: int)
    ensures var t := Toggle(page, Loaded({}, {}, storage), w1);
      var r := Restore(page, Loaded({}, {}, t.storage), w2);
      && (!IsMobile(w2) ==> r.expanded && ExpandedClass in r.sidebar)
      && (IsMobile(w2) ==> !r.expanded && r.sidebar == {})
  {
    PersistRoundTrip(page, Loaded({}, {}, storage), w1, w2, {}, {});
  }

  // ---------------------------------------------------------------------------
  // The module object

  /**
   One page's `SidebarModule` object. `anchored` records that `init` found the
   sidebar, the toggle button and the overlay, and so wired the listeners:
   the handlers below are only ever invoked through those listeners.
   */
  class SidebarModule {
    const page: Page
    var anchored: bool
    var isExpanded: bool
    var sidebarClasses: set<string>
    var overlayClasses: set<string>
    var storage: map<string, string>

    function Snapshot(): State
      reads this
    {
      State(isExpanded, sidebarClasses, overlayClasses, storage)
    }

    /** The module before `init`: no elements yet, `isExpanded` false. */
    constructor (page: Page, storage: map<string, string>)
      ensures this.page == page && !anchored
      ensures Snapshot() == State(false, {}, {}, storage)
    {
      this.page := page;
      anchored := false;
      isExpanded := false;
      sidebarClasses := {};
      overlayClasses := {};
      this.storage := storage;
    }

    method ToggleSidebar(width: int)
      requires anchored
      modifies this
      ensures anchored
      ensures Snapshot() == Toggle(page, old(Snapshot()), width)
      ensures old(InSync(Snapshot())) ==> InSync(Snapshot())
    {
      isExpanded := !isExpanded;
      if IsMobile(width) {
        sidebarClasses := ToggleClass(sidebarClasses, ExpandedClass);
        overlayClasses := ToggleClass(overlayClasses, ActiveClass);
      } else {
        sidebarClasses := ToggleClass(sidebarClasses, ExpandedClass);
      }
      storage := SetItem(storage, StorageKey(page), BoolString(isExpanded));
    }

    method CloseSidebar(width: int)
      requires anchored
      modifies this
      ensures anchored
      ensures Snapshot() == Close(old(Snapshot()), width)
      ensures IsMobile(width) ==> InSync(Snapshot())
      ensures !IsMobile(width) ==> Snapshot() == old(Snapshot())
    {
      if IsMobile(width) {
        sidebarClasses := RemoveClass(sidebarClasses, ExpandedClass);
        overlayClasses := RemoveClass(overlayClasses, ActiveClass);
        isExpanded := false;
      }
    }

    method HandleResize(width: int)
      requires anchored
      modifies this
      ensures anchored
      ensures Snapshot() == Resize(old(Snapshot()), width)
      ensures isExpanded == old(isExpanded) && sidebarClasses == old(sidebarClasses)
    {
      if !IsMobile(width) {
        overlayClasses := RemoveClass(overlayClasses, ActiveClass);
      } else {
        if ExpandedClass !in sidebarClasses {
          sidebarClasses := RemoveClass(sidebarClasses, ExpandedClass);
        }
      }
    }

    method RestoreState(width: int)
      requires anchored
      modifies this
      ensures anchored
      ensures Snapshot() == Restore(page, old(Snapshot()), width)
      ensures old(InSync(Snapshot())) ==> InSync(Snapshot())
    {
      var savedState := GetItem(storage, StorageKey(page));
      if savedState == Some("true") && !IsMobile(width) {
        sidebarClasses := AddClass(sidebarClasses, ExpandedClass);
        isExpanded := true;
      }
    }

    /**
     `init`: when any of the three anchors is missing it returns at once, so
     no tooltip is added, nothing is restored and no listener is wired; the
     state stays at its defaults. Otherwise it takes the found elements, adds
     the tooltips, restores the persisted state and wires the listeners.
     */
    method Init(sidebar: Option<set<string>>, toggleButton: Option<set<string>>,
                overlay: Option<set<string>>, links: array<Navigation.NavLink>, width: int)
      requires !anchored
      modifies this, links
      ensures anchored <==> sidebar.Some? && toggleButton.Some? && overlay.Some?
      ensures !anchored ==> Snapshot() == old(Snapshot())
      ensures !anchored ==> forall i :: 0 <= i < links.Length ==> links[i] == old(links[i])
      ensures anchored ==> Snapshot() == Restore(page, old(Snapshot()).(sidebar := sidebar.value, overlay := overlay.value), width)
      ensures anchored ==> forall i :: 0 <= i < links.Length ==> links[i] == Navigation.WithTooltip(old(links[i]))
      ensures anchored && ExpandedClass !in sidebar.value && !old(isExpanded) ==> InSync(Snapshot())
    {
      if sidebar.None? || toggleButton.None? || overlay.None? {
        return;
      }
      sidebarClasses := sidebar.value;
      overlayClasses := overlay.value;
      anchored := true;
      Navigation.AddTooltips(links);
      RestoreState(width);
    }

    /** A click on the toggle button. */
    method ToggleClicked(width: int)
      modifies this
      ensures anchored == old(anchored)
      ensures Snapshot() == if anchored then Toggle(page, old(Snapshot()), width) else old(Snapshot())
    {
      if anchored {
        ToggleSidebar(width);
      }
    }

    /** A click on the overlay. */
    method OverlayClicked(width: int)
      modifies this
      ensures anchored == old(anchored)
      ensures Snapshot() == if anchored then Close(old(Snapshot()), width) else old(Snapshot())
    {
      if anchored {
        CloseSidebar(width);
      }
    }

    /** A click on a navigation link closes the drawer on a narrow viewport. */
    method NavLinkClicked(width: int)
      modifies this
      ensures anchored == old(anchored)
      ensures Snapshot() == if anchored && IsMobile(width) then Close(old(Snapshot()), width) else old(Snapshot())
    {
      if anchored && IsMobile(width) {
        CloseSidebar(width);
      }
    }

    /** The debounced resize callback firing after the viewport settled at `width`. */
    method ResizeSettled(width: int)
      modifies this
      ensures anchored == old(anchored)
      ensures Snapshot() == if anchored then Resize(old(Snapshot()), width) else old(Snapshot())
    {
      if anchored {
        HandleResize(width);
      }
    }
  }
}
