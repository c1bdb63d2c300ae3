/**
 * The site header: which navigation entry is highlighted for the current
 * path, the scrolled look past a 10-pixel scroll, the mobile menu flag and
 * the hover dropdown.
 *
 * The path comes from the router and the scroll offset from the window;
 * both are parameters.
 */
module Header {
  import opened Wrappers

  datatype DropdownItem = DropdownItem(name: string, href: string)

  datatype NavItem = NavItem(name: string, href: string, dropdown: seq<DropdownItem>)

  const Navigation: seq<NavItem> := [
    NavItem("Home", "/", []),
    NavItem("Services", "/services", [
      DropdownItem("Full-Stack Development", "/services#web-development"),
      DropdownItem("Flutter Mobile Apps", "/services#mobile-development"),
      DropdownItem("AI Automation", "/services#ai-automation"),
      DropdownItem("SEO Optimization", "/services#seo-optimization")
    ]),
    NavItem("About", "/about", []),
    NavItem("Contact", "/contact", []),
    NavItem("Blog", "#blog", [])
  ]

  /** The header switches to its scrolled look past this many pixels. */
  const ScrollThreshold: real := 10.0

  /**
   * `isActive`: the root entry is active only on the root path; any other
   * entry is active whenever the path starts with its href.
   */
  function IsActive(pathname: string, href: string): (r: bool)
    ensures href == "/" ==> (r <==> pathname == "/")
    ensures href != "/" ==> (r <==> |href| <= |pathname| && pathname[..|href|] == href)
  {
    if href == "/" then pathname == "/" else href <= pathname
  }

  /** Every entry other than the root is active on its own path and on every extension of it. */
  lemma ActiveOnExtensions(href: string, suffix: string)
    requires href != "/"
    ensures IsActive(href + suffix, href)
  {
    assert (href + suffix)[..|href|] == href;
  }

  /** A plain prefix test: "/about" is also highlighted on "/aboutus". */
  lemma AboutActiveOnAboutUs()
    ensures IsActive("/aboutus", "/about")
  {
    ActiveOnExtensions("/about", "us");
    assert "/about" + "us" == "/aboutus";
  }

  /** Two prefixes of the same string are prefixes of each other. */
  lemma PrefixesAreComparable(a: string, b: string, s: string)
    requires a <= s
    ensures b <= s ==> a <= b || b <= a
  {
    if b <= s {
      if |a| <= |b| {
        assert b[..|a|] == s[..|a|] == a;
      } else {
        assert a[..|b|] == s[..|b|] == b;
      }
    }
  }

  /** Strings that differ at a common position are not prefixes of each other. */
  lemma DifferentAt(a: string, b: string, k: nat)
    requires k < |a| && k < |b| && a[k] != b[k]
    ensures !(a <= b) && !(b <= a)
  {
  }

  /** No href of a non-root entry is a prefix of another. */
  lemma NonRootHrefsIncomparable(i: nat, j: nat)
    requires 0 < i < j < |Navigation|
    ensures !(Navigation[i].href <= Navigation[j].href) && !(Navigation[j].href <= Navigation[i].href)
  {
    var a := Navigation[i].href;
    var b := Navigation[j].href;
    DifferentAt(a, b, if a[0] == b[0] then 1 else 0);
  }

  /** Whatever the path, at most one navigation entry is highlighted. */
  lemma AtMostOneActive(pathname: string)
    ensures forall i, j ::
      (0 <= i < j < |Navigation| && IsActive(pathname, Navigation[i].href)) ==> !IsActive(pathname, Navigation[j].href)
  {
    forall i, j | 0 <= i < j < |Navigation| && IsActive(pathname, Navigation[i].href)
      ensures !IsActive(pathname, Navigation[j].href)
    {
      if i > 0 {
        NonRootHrefsIncomparable(i, j);
        PrefixesAreComparable(Navigation[i].href, Navigation[j].href, pathname);
      }
    }
  }

  /** The header's three state fields. */
  class HeaderState {
    var isOpen: bool
    var isScrolled: bool
    var activeDropdown: Option<string>

    constructor ()
      ensures !isOpen && !isScrolled && activeDropdown == None
    {
      isOpen := false;
      isScrolled := false;
      activeDropdown := None;
    }

    /** Whether the dropdown of the named entry is open. */
    function ShowsDropdown(name: string): (r: bool)
      reads this
      ensures r <==> activeDropdown == Some(name)
    {
      activeDropdown.Some? && activeDropdown.value == name
    }

    /** The scroll listener. */
    method HandleScroll(scrollY: real)
      modifies this`isScrolled
      ensures isScrolled <==> scrollY > ScrollThreshold
    {
      isScrolled := scrollY > 10.0;
    }

    /** The mobile menu button. */
    method ToggleMenu()
      modifies this`isOpen
      ensures isOpen == !old(isOpen)
    {
      isOpen := !isOpen;
    }

    /** Any link of the mobile menu closes it. */
    method CloseMenu()
      modifies this`isOpen
      ensures !isOpen
    {
      isOpen := false;
    }

    /** The pointer enters an entry that has a dropdown: that dropdown, and only it, opens. */
    method MouseEnter(item: NavItem)
      requires item in Navigation && item.dropdown != []
      modifies this`activeDropdown
      ensures ShowsDropdown(item.name)
      ensures forall other :: other != item.name ==> !ShowsDropdown(other)
    {
      activeDropdown := Some(item.name);
    }

    /** The pointer leaves it: no dropdown is open. */
    method MouseLeave()
      modifies this`activeDropdown
      ensures forall name :: !ShowsDropdown(name)
    {
      activeDropdown := None;
    }
  }
}
