/**
 The sidebar of the home page, a variant of the other pages' `SidebarModule`.
 Its flag is `isCollapsed`, and it uses two different classes by viewport:
 on a narrow viewport the drawer is open when the sidebar carries `active`
 (with the overlay's `active` alongside), on a wide viewport the rail is
 narrowed when the sidebar carries `collapsed`. It persists under
 `sidebarCollapsed`.
 */
module CollapseSidebar {
  import opened Dom
  import opened Viewport
  import Navigation
  import ExpandSidebar

  const ActiveClass: string := "active"
  const CollapsedClass: string := "collapsed"
  const StorageKey: string := "sidebarCollapsed"

  /** The home page's key differs from the keys of the three other pages. */
  lemma StorageKeyDistinct(other: ExpandSidebar.Page)
    ensures StorageKey != ExpandSidebar.StorageKey(other)
  {
  }

  /** The observable state of the home page's `SidebarModule`. */
  datatype State = State(
    collapsed: bool,
    sidebar: set<string>,
    overlay: set<string>,
    storage: map<string, string>)

  /** The state right after the anchors are found: `isCollapsed` false, the markup's classes. */
  function Loaded(sidebar: set<string>, overlay: set<string>, storage: map<string, string>): State
  {
    State(false, sidebar, overlay, storage)
  }

  /** The sidebar and the overlay agree on `active`. */
  predicate Paired(s: State)
  {
    ActiveClass in s.sidebar <==> ActiveClass in s.overlay
  }

  // ---------------------------------------------------------------------------
  // The four handlers, on states

  /**
   `toggleSidebar`: flips the flag on every call; on a narrow viewport flips
   `active` on both elements, on a wide one flips `collapsed` on the sidebar;
   then persists the new flag.
   */
  function Toggle(s: State, width: int): State
  {
    var collapsed := !s.collapsed;
    var stored := SetItem(s.storage, StorageKey, BoolString(collapsed));
    if IsMobile(width) then
      State(collapsed, ToggleClass(s.sidebar, ActiveClass), ToggleClass(s.overlay, ActiveClass), stored)
    else
      State(collapsed, ToggleClass(s.sidebar, CollapsedClass), s.overlay, stored)
  }

  /** `closeSidebar`: on a narrow viewport removes `active` from both elements and clears the flag. */
  function Close(s: State, width: int): State
  {
    if IsMobile(width) then
      s.(sidebar := RemoveClass(s.sidebar, ActiveClass),
         overlay := RemoveClass(s.overlay, ActiveClass),
         collapsed := false)
    else
      s
  }

  /**
   `handleResize`: on a wide viewport removes `active` from both elements; on a
   narrow one removes the sidebar's `collapsed` unless the drawer is open.
   */
  function Resize(s: State, width: int): State
  {
    if !IsMobile(width) then
      s.(sidebar := RemoveClass(s.sidebar, ActiveClass), overlay := RemoveClass(s.overlay, ActiveClass))
    else if ActiveClass !in s.sidebar then
      s.(sidebar := RemoveClass(s.sidebar, CollapsedClass))
    else
      s
  }

  /** `restoreState`: collapses the rail when the stored string is exactly "true" on a wide viewport. */
  function Restore(s: State, width: int): State
  {
    if GetItem(s.storage, StorageKey) == Some("true") && !IsMobile(width) then
      s.(sidebar := AddClass(s.sidebar, CollapsedClass), collapsed := true)
    else
      s
  }

  datatype Call = ToggleCall(width: int) | CloseCall(width: int) | ResizeCall(width: int) | RestoreCall(width: int)

  function Step(s: State, c: Call): State
  {
    match c
    case ToggleCall(w) => Toggle(s, w)
    case CloseCall(w) => Close(s, w)
    case ResizeCall(w) => Resize(s, w)
    case RestoreCall(w) => Restore(s, w)
  }

  function Run(s: State, calls: seq<Call>): State
    decreases |calls|
  {
    if calls == [] then s else Run(Step(s, calls[0]), calls[1..])
  }

  // ---------------------------------------------------------------------------
  // What each handler does

  /**
   Toggle negates the flag on every call. Narrow: `active` flips on both
   elements and `collapsed` is left alone. Wide: only the sidebar's
   `collapsed` flips, the overlay is untouched.
   */
  lemma ToggleEffect(s: State, width: int)
    ensures var t := Toggle(s, width);
      && t.collapsed == !s.collapsed
      && (IsMobile(width) ==>
            && (ActiveClass in t.sidebar <==> ActiveClass !in s.sidebar)
            && (ActiveClass in t.overlay <==> ActiveClass !in s.overlay)
            && t.sidebar - {ActiveClass} == s.sidebar - {ActiveClass}
            && t.overlay - {ActiveClass} == s.overlay - {ActiveClass})
      && (!IsMobile(width) ==>
            && (CollapsedClass in t.sidebar <==> CollapsedClass !in s.sidebar)
            && t.sidebar - {CollapsedClass} == s.sidebar - {CollapsedClass}
            && t.overlay == s.overlay)
  {
  }

  /** After a toggle `sidebarCollapsed` holds the new flag as "true" or "false"; no other key changes. */
  lemma TogglePersists(s: State, width: int)
    ensures var t := Toggle(s, width);
      && GetItem(t.storage, StorageKey) == Some(if t.collapsed then "true" else "false")
      && t.storage - {StorageKey} == s.storage - {StorageKey}
  {
  }

  /** Two toggles at the same width restore the flag and both class lists. */
  lemma ToggleTwice(s: State, width: int)
    ensures Toggle(Toggle(s, width), width)
      == s.(storage := SetItem(s.storage, StorageKey, BoolString(s.collapsed)))
  {
    ToggleClassTwice(s.sidebar, ActiveClass);
    ToggleClassTwice(s.overlay, ActiveClass);
    ToggleClassTwice(s.sidebar, CollapsedClass);
    var t := Toggle(s, width);
    assert SetItem(t.storage, StorageKey, BoolString(s.collapsed)) == SetItem(s.storage, StorageKey, BoolString(s.collapsed));
  }

  /**
   On a narrow viewport close leaves `active` absent on both elements and the
   flag false, touching nothing else; on a wide viewport it changes nothing.
   */
  lemma CloseEffect(s: State, width: int)
    ensures var t := Close(s, width);
      && (IsMobile(width) ==>
            && !t.collapsed && ActiveClass !in t.sidebar && ActiveClass !in t.overlay
            && t.sidebar - {ActiveClass} == s.sidebar - {ActiveClass}
            && t.overlay - {ActiveClass} == s.overlay - {ActiveClass}
            && t.storage == s.storage)
      && (!IsMobile(width) ==> t == s)
  {
  }

  /** Closing twice is closing once. */
  lemma CloseIdempotent(s: State, width: int)
    ensures Close(Close(s, width), width) == Close(s, width)
  {
    if IsMobile(width) {
      var t := Close(s, width);
      assert RemoveClass(t.sidebar, ActiveClass) == t.sidebar;
      assert RemoveClass(t.overlay, ActiveClass) == t.overlay;
    }
  }

  /**
   `Utils.isMobile` is the test close branches on: with the drawer open, a
   close changes the state exactly when the viewport is mobile.
   */
  lemma CloseActsExactlyOnMobile(s: State, width: int)
    requires ActiveClass in s.sidebar
    ensures Close(s, width) != s <==> IsMobile(width)
  {
    if IsMobile(width) {
      assert ActiveClass !in Close(s, width).sidebar;
    }
  }

  /**
   Wide: resize removes `active` from both elements and nothing else. Narrow:
   with the drawer closed it removes only `collapsed`; with it open it
   changes nothing.
   */
  lemma ResizeEffect(s: State, width: int)
    ensures !IsMobile(width) ==>
      Resize(s, width) == s.(sidebar := s.sidebar - {ActiveClass}, overlay := s.overlay - {ActiveClass})
    ensures IsMobile(width) && ActiveClass !in s.sidebar ==>
      Resize(s, width) == s.(sidebar := s.sidebar - {CollapsedClass})
    ensures IsMobile(width) && ActiveClass in s.sidebar ==> Resize(s, width) == s
  {
  }

  /** Restore collapses the rail exactly on a stored "true" and a wide viewport. */
  lemma RestoreEffect(s: State, width: int)
    ensures var honoured := StorageKey in s.storage && s.storage[StorageKey] == "true" && width > 768;
      var t := Restore(s, width);
      && (honoured ==> t == s.(collapsed := true, sidebar := s.sidebar + {CollapsedClass}))
      && (!honoured ==> t == s)
  {
  }

  // ---------------------------------------------------------------------------
  // Invariants

  /** Every handler keeps the sidebar's and the overlay's `active` equal. */
  lemma StepKeepsPaired(s: State, c: Call)
    requires Paired(s)
    ensures Paired(Step(s, c))
  {
  }

  /** Any sequence of handler calls keeps the sidebar and the overlay paired. */
  lemma {:induction false} RunKeepsPaired(s: State, calls: seq<Call>)
    requires Paired(s)
    ensures Paired(Run(s, calls))
    decreases |calls|
  {
    if calls != [] {
      StepKeepsPaired(s, calls[0]);
      RunKeepsPaired(Step(s, calls[0]), calls[1..]);
    }
  }

  /** From markup where neither element is `active`, the two stay paired forever. */
  lemma LoadedStaysPaired(sidebar: set<string>, overlay: set<string>, storage: map<string, string>, calls: seq<Call>)
    requires ActiveClass !in sidebar && ActiveClass !in overlay
    ensures Paired(Run(Loaded(sidebar, overlay, storage), calls))
  {
    RunKeepsPaired(Loaded(sidebar, overlay, storage), calls);
  }

  /** No sequence of handler calls touches another storage key or the overlay's other classes. */
  lemma {:induction false} RunKeepsEverythingElse(s: State, calls: seq<Call>)
    ensures var t := Run(s, calls);
      && t.storage - {StorageKey} == s.storage - {StorageKey}
      && t.sidebar - {ActiveClass, CollapsedClass} == s.sidebar - {ActiveClass, CollapsedClass}
      && t.overlay - {ActiveClass} == s.overlay - {ActiveClass}
    decreases |calls|
  {
    if calls != [] {
      var next := Step(s, calls[0]);
      assert next.storage - {StorageKey} == s.storage - {StorageKey};
      assert next.sidebar - {ActiveClass, CollapsedClass} == s.sidebar - {ActiveClass, CollapsedClass};
      assert next.overlay - {ActiveClass} == s.overlay - {ActiveClass};
      RunKeepsEverythingElse(next, calls[1..]);
    }
  }

  // ---------------------------------------------------------------------------
  // The flag does not mean one thing

  /**
   Opening the drawer on a narrow viewport stores "true" under
   `sidebarCollapsed`, and a later load on a wide viewport reads that as a
   collapsed rail.
   */
  lemma NarrowOpenRestoresCollapsed(storage: map<string, string>, narrow: int, wide: int)
    requires IsMobile(narrow) && !IsMobile(wide)
    ensures var t := Toggle(Loaded({}, {}, storage), narrow);
      && ActiveClass in t.sidebar && t.collapsed
      && var r := Restore(Loaded({}, {}, t.storage), wide);
      r.collapsed && CollapsedClass in r.sidebar
  {
  }

  /**
   Collapse the rail on a wide viewport, then shrink to narrow: resize drops
   the `collapsed` class while `isCollapsed` stays true.
   */
  lemma ResizeDropsCollapsedClass(storage: map<string, string>, wide: int, narrow: int)
    requires IsMobile(narrow) && !IsMobile(wide)
    ensures var s := Resize(Toggle(Loaded({}, {}, storage), wide), narrow);
      s.collapsed && CollapsedClass !in s.sidebar
  {
  }

  /**
   What a toggle persists is what the next wide load restores, whatever the
   viewport of the toggle; a narrow load always starts uncollapsed.
   */
  lemma PersistRoundTrip(s: State, w1: int, w2: int, sidebar: set<string>, overlay: set<string>)
    ensures var t := Toggle(s, w1);
      Restore(Loaded(sidebar, overlay, t.storage), w2).collapsed == (t.collapsed && !IsMobile(w2))
  {
    StoredBoolReadsBack(s.storage, StorageKey, !s.collapsed);
  }

  // ---------------------------------------------------------------------------
  // The module object

  /** The home page's `SidebarModule` object; `anchored` as on the other pages. */
  class SidebarModule {
    var anchored: bool
    var isCollapsed: bool
    var sidebarClasses: set<string>
    var overlayClasses: set<string>
    var storage: map<string, string>

    function Snapshot(): State
      reads this
    {
      State(isCollapsed, sidebarClasses, overlayClasses, storage)
    }

    constructor (storage: map<string, string>)
      ensures !anchored
      ensures Snapshot() == State(false, {}, {}, storage)
    {
      anchored := false;
      isCollapsed := false;
      sidebarClasses := {};
      overlayClasses := {};
      this.storage := storage;
    }

    method ToggleSidebar(width: int)
      requires anchored
      modifies this
      ensures anchored
      ensures Snapshot() == Toggle(old(Snapshot()), width)
      ensures old(Paired(Snapshot())) ==> Paired(Snapshot())
    {
      isCollapsed := !isCollapsed;
      if IsMobile(width) {
        sidebarClasses := ToggleClass(sidebarClasses, ActiveClass);
        overlayClasses := ToggleClass(overlayClasses, ActiveClass);
      } else {
        sidebarClasses := ToggleClass(sidebarClasses, CollapsedClass);
      }
      storage := SetItem(storage, StorageKey, BoolString(isCollapsed));
    }

    method CloseSidebar(width: int)
      requires anchored
      modifies this
      ensures anchored
      ensures Snapshot() == Close(old(Snapshot()), width)
      ensures IsMobile(width) ==> Paired(Snapshot())
      ensures !IsMobile(width) ==> Snapshot() == old(Snapshot())
    {
      if IsMobile(width) {
        sidebarClasses := RemoveClass(sidebarClasses, ActiveClass);
        overlayClasses := RemoveClass(overlayClasses, ActiveClass);
        isCollapsed := false;
      }
    }

    method HandleResize(width: int)
      requires anchored
      modifies this
      ensures anchored
      ensures Snapshot() == Resize(old(Snapshot()), width)
      ensures isCollapsed == old(isCollapsed) && storage == old(storage)
      ensures old(Paired(Snapshot())) ==> Paired(Snapshot())
    {
      if !IsMobile(width) {
        sidebarClasses := RemoveClass(sidebarClasses, ActiveClass);
        overlayClasses := RemoveClass(overlayClasses, ActiveClass);
      } else {
        if ActiveClass !in sidebarClasses {
          sidebarClasses := RemoveClass(sidebarClasses, CollapsedClass);
        }
      }
    }

    method RestoreState(width: int)
      requires anchored
      modifies this
      ensures anchored
      ensures Snapshot() == Restore(old(Snapshot()), width)
      ensures old(Paired(Snapshot())) ==> Paired(Snapshot())
    {
      var savedState := GetItem(storage, StorageKey);
      if savedState == Some("true") && !IsMobile(width) {
        sidebarClasses := AddClass(sidebarClasses, CollapsedClass);
        isCollapsed := true;
      }
    }

    /**
     `init`: returns at once when an anchor is missing; otherwise takes the
     found elements, adds the tooltips, restores and wires the listeners.
     */
    method Init(sidebar: Option<set<string>>, toggleButton: Option<set<string>>,
                overlay: Option<set<string>>, links: array<Navigation.NavLink>, width: int)
      requires !anchored
      modifies this, links
      ensures anchored <==> sidebar.Some? && toggleButton.Some? && overlay.Some?
      ensures !anchored ==> Snapshot() == old(Snapshot())
      ensures !anchored ==> forall i :: 0 <= i < links.Length ==> links[i] == old(links[i])
      ensures anchored ==> Snapshot() == Restore(old(Snapshot()).(sidebar := sidebar.value, overlay := overlay.value), width)
      ensures anchored ==> forall i :: 0 <= i < links.Length ==> links[i] == Navigation.WithTooltip(old(links[i]))
      ensures anchored && ActiveClass !in sidebar.value && ActiveClass !in overlay.value ==> Paired(Snapshot())
    {
      if sidebar.None? || toggleButton.None? || overlay.None? {
        return;
      }
      sidebarClasses := sidebar.value;
      overlayClasses := overlay.value;
      anchored := true;
      Navigation.AddTooltips(links);
      RestoreState(width);
    }

    method ToggleClicked(width: int)
      modifies this
      ensures anchored == old(anchored)
      ensures Snapshot() == if anchored then Toggle(old(Snapshot()), width) else old(Snapshot())
    {
      if anchored {
        ToggleSidebar(width);
      }
    }

    method OverlayClicked(width: int)
      modifies this
      ensures anchored == old(anchored)
      ensures Snapshot() == if anchored then Close(old(Snapshot()), width) else old(Snapshot())
    {
      if anchored {
        CloseSidebar(width);
      }
    }

    method NavLinkClicked(width: int)
      modifies this
      ensures anchored == old(anchored)
      ensures Snapshot() == if anchored && IsMobile(width) then Close(old(Snapshot()), width) else old(Snapshot())
    {
      if anchored && IsMobile(width) {
        CloseSidebar(width);
      }
    }

    method ResizeSettled(width: int)
      modifies this
      ensures anchored == old(anchored)
      ensures Snapshot() == if anchored then Resize(old(Snapshot()), width) else old(Snapshot())
    {
      if anchored {
        HandleResize(width);
      }
    }
  }
}
