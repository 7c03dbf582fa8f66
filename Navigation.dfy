/**
 The navigation links (`.nav-links a`) and the two per-link updates the page
 scripts run over them: `SidebarModule.addTooltips`, which copies each link's
 `.nav-text` label into its `data-tooltip` attribute, and (on the home page)
 `NavigationModule.setActivePage`, which marks the link to the current page.
 The list `querySelectorAll` returns is an array of links updated in place.
 */
module Navigation {
  import opened Dom

  const TooltipAttribute: string := "data-tooltip"
  const ActiveClass: string := "active"

  /**
   One `<a>` of the navigation: the pathname of its `href` (already parsed),
   the text of its `.nav-text` child if it has one, its class list and its
   attributes.
   */
  datatype NavLink = NavLink(
    path: string,
    navText: Option<string>,
    classes: set<string>,
    attributes: map<string, string>)

  /**
   The body of the `forEach` in `addTooltips` for one link: a link with a
   `.nav-text` child gets that text as its `data-tooltip`; a link without one
   is left as it was. Only that one attribute can change.
   */
  function WithTooltip(link: NavLink): (r: NavLink)
    ensures r.path == link.path && r.navText == link.navText && r.classes == link.classes
    ensures r.attributes - {TooltipAttribute} == link.attributes - {TooltipAttribute}
    ensures link.navText.Some? ==> TooltipAttribute in r.attributes && r.attributes[TooltipAttribute] == link.navText.value
    ensures link.navText.None? ==> r == link
  {
    match link.navText
    case Some(text) => link.(attributes := link.attributes[TooltipAttribute := text])
    case None => link
  }

  /** Running `addTooltips` again changes nothing. */
  lemma WithTooltipIdempotent(link: NavLink)
    ensures WithTooltip(WithTooltip(link)) == WithTooltip(link)
  {
  }

  /** `SidebarModule.addTooltips`: every link is updated by `WithTooltip`, each on its own. */
  method AddTooltips(links: array<NavLink>)
    modifies links
    ensures forall i :: 0 <= i < links.Length ==> links[i] == WithTooltip(old(links[i]))
  {
    var i := 0;
    while i < links.Length
      invariant 0 <= i <= links.Length
      invariant forall k :: 0 <= k < i ==> links[k] == WithTooltip(old(links[k]))
      invariant forall k :: i <= k < links.Length ==> links[k] == old(links[k])
    {
      links[i] := WithTooltip(links[i]);
      i := i + 1;
    }
  }

  /**
   The body of the `forEach` in `setActivePage` for one link: `active` is
   added when the link's path is the current path and removed otherwise.
   */
  function MarkActive(link: NavLink, currentPath: string): (r: NavLink)
    ensures ActiveClass in r.classes <==> link.path == currentPath
    ensures r.classes - {ActiveClass} == link.classes - {ActiveClass}
    ensures r.path == link.path && r.navText == link.navText && r.attributes == link.attributes
  {
    if link.path == currentPath then
      link.(classes := AddClass(link.classes, ActiveClass))
    else
      link.(classes := RemoveClass(link.classes, ActiveClass))
  }

  /**
   `NavigationModule.setActivePage`: afterwards exactly the links whose path
   is the current path carry `active`; nothing else about any link changes.
   */
  method SetActivePage(links: array<NavLink>, currentPath: string)
    modifies links
    ensures forall i :: 0 <= i < links.Length ==> links[i] == MarkActive(old(links[i]), currentPath)
    ensures forall i :: 0 <= i < links.Length ==> (ActiveClass in links[i].classes <==> links[i].path == currentPath)
  {
    var i := 0;
    while i < links.Length
      invariant 0 <= i <= links.Length
      invariant forall k :: 0 <= k < i ==> links[k] == MarkActive(old(links[k]), currentPath)
      invariant forall k :: i <= k < links.Length ==> links[k] == old(links[k])
    {
      links[i] := MarkActive(links[i], currentPath);
      i := i + 1;
    }
  }

  /** Running `setActivePage` again for the same path changes nothing. */
  lemma MarkActiveIdempotent(link: NavLink, currentPath: string)
    ensures MarkActive(MarkActive(link, currentPath), currentPath) == MarkActive(link, currentPath)
  {
  }

  /**
   The two link updates touch disjoint parts of a link, so the order in which
   the page initialises its modules does not matter for the links.
   */
  lemma TooltipAndActiveCommute(link: NavLink, currentPath: string)
    ensures WithTooltip(MarkActive(link, currentPath)) == MarkActive(WithTooltip(link), currentPath)
  {
  }
}
