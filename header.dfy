/** The site header (src/components/Header.tsx): the navigation table, the rule that
    marks the current page's link, and the mobile menu's open flag. */
module Header {
  import opened Wrappers
  import opened Seqs

  /** A menu entry; `labelText` is the source's `label`, a reserved word in Dafny. */
  datatype NavItem = NavItem(to: string, labelText: string, isButton: bool)

  const NAV_ITEMS: seq<NavItem> := [
    NavItem("/", "Главная", false),
    NavItem("/services", "Услуги", false),
    NavItem("/projects", "Проекты", false),
    NavItem("/about", "О нас", false),
    NavItem("/media", "Медиа", false),
    NavItem("/research", "Научная деятельность", false),
    NavItem("/careers", "Карьера", true)
  ]

  /** A link is active when the current path equals its target, character for character. */
  predicate IsActive(pathname: string, item: NavItem)
  {
    pathname == item.to
  }

  function ActiveAt(pathname: string): NavItem -> bool
  {
    item => IsActive(pathname, item)
  }

  /** The active links, in menu order. */
  function ActiveItems(pathname: string): (r: seq<NavItem>)
    ensures forall item :: item in r ==> item in NAV_ITEMS && item.to == pathname
    ensures forall item :: item in NAV_ITEMS && item.to == pathname ==> item in r
  {
    Filter(NAV_ITEMS, ActiveAt(pathname))
  }

  /** The link targets are pairwise distinct. */
  lemma TargetsDistinct()
    ensures forall i, j :: 0 <= i < j < |NAV_ITEMS| ==> NAV_ITEMS[i].to != NAV_ITEMS[j].to
  {
  }

  /** On a link's own path that link, and only it, is active. */
  lemma ActiveOnOwnPath(i: nat)
    requires i < |NAV_ITEMS|
    ensures ActiveItems(NAV_ITEMS[i].to) == [NAV_ITEMS[i]]
  {
    TargetsDistinct();
    FilterSingle(NAV_ITEMS, ActiveAt(NAV_ITEMS[i].to), i);
  }

  /** On any path at most one link is active. */
  lemma AtMostOneActive(pathname: string)
    ensures |ActiveItems(pathname)| <= 1
  {
    if i :| 0 <= i < |NAV_ITEMS| && NAV_ITEMS[i].to == pathname {
      ActiveOnOwnPath(i);
    } else {
      FilterNone(NAV_ITEMS, ActiveAt(pathname));
    }
  }

  /** The contacts page has no link of its own, so no link is active on it. */
  lemma NoneActiveOnContacts()
    ensures ActiveItems("/contacts") == []
  {
    FilterNone(NAV_ITEMS, ActiveAt("/contacts"));
  }

  /** A sub-path or an extension of a link's target does not make the link active. */
  lemma LongerPathInactive(item: NavItem, suffix: string)
    requires suffix != ""
    ensures !IsActive(item.to + suffix, item)
  {
    assert |item.to + suffix| > |item.to|;
  }

  /** Only the careers link carries the button style. */
  lemma OnlyCareersIsButton()
    ensures forall i :: 0 <= i < |NAV_ITEMS| ==> (NAV_ITEMS[i].isButton <==> NAV_ITEMS[i].to == "/careers")
  {
  }

  /** How a desktop link is drawn: highlighted, button-styled, and, for links that are not
      buttons, an underline that is full or empty. */
  datatype LinkLook = LinkLook(highlighted: bool, buttonStyle: bool, underlineFull: Option<bool>)

  function DesktopLook(pathname: string, item: NavItem): (r: LinkLook)
    ensures r.highlighted <==> IsActive(pathname, item)
    ensures r.buttonStyle == item.isButton
    ensures r.underlineFull == if item.isButton then None else Some(r.highlighted)
  {
    var active := pathname == item.to;
    LinkLook(active, item.isButton, if item.isButton then None else Some(active))
  }

  /** Drawn over the whole desktop menu on any path: a link is highlighted exactly when it
      is one of the active links, so at most one link is highlighted; the button style
      falls on the careers link alone, and every other link carries an underline that is
      full exactly on its own path. */
  lemma DesktopMenuLook(pathname: string)
    ensures forall i :: 0 <= i < |NAV_ITEMS| ==>
              (DesktopLook(pathname, NAV_ITEMS[i]).highlighted <==> NAV_ITEMS[i] in ActiveItems(pathname))
    ensures forall i, j ::
              0 <= i < |NAV_ITEMS| && 0 <= j < |NAV_ITEMS| &&
              DesktopLook(pathname, NAV_ITEMS[i]).highlighted &&
              DesktopLook(pathname, NAV_ITEMS[j]).highlighted
              ==> i == j
    ensures forall i :: 0 <= i < |NAV_ITEMS| ==>
              (DesktopLook(pathname, NAV_ITEMS[i]).buttonStyle <==> NAV_ITEMS[i].to == "/careers")
    ensures forall i :: 0 <= i < |NAV_ITEMS| && NAV_ITEMS[i].to != "/careers" ==>
              DesktopLook(pathname, NAV_ITEMS[i]).underlineFull == Some(pathname == NAV_ITEMS[i].to)
  {
    TargetsDistinct();
    OnlyCareersIsButton();
  }

  /** The header's React state: whether the mobile menu is open. */
  class HeaderState {
    var open: bool

    constructor ()
      ensures !open
    {
      open := false;
    }

    /** The mobile menu is rendered exactly while `open` holds. */
    function MobileMenuShown(): bool
      reads this
    {
      open
    }

    /** The burger button flips the flag. */
    method ToggleMenu()
      modifies this
      ensures open == !old(open)
    {
      open := !open;
    }

    /** Following any link of the mobile menu closes it. */
    method FollowMobileLink(item: NavItem)
      requires item in NAV_ITEMS
      modifies this
      ensures !open
    {
      open := false;
    }
  }
}
