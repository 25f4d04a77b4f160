/**
 * The sidebar link (dandi/components/navigation/NavItem.tsx): whether it is
 * highlighted for the current path, and the attributes its anchor gets.
 * The current path is an input; `None` stands for a path the router does
 * not know (`usePathname()` returning null).
 */
module NavItem {
  import opened Wrappers
  import opened JsStrings

  /** A sidebar entry (types/navigation.ts) without its icon (`label` is the field `labelText`, `label` being a Dafny keyword); `external` may be absent. */
  datatype NavigationItem = NavigationItem(href: string, labelText: string, external: Option<bool>)

  /** The attributes spread onto the anchor. */
  datatype LinkProps = LinkProps(href: string, target: Option<string>, rel: Option<string>)

  /**
   * `isActive`: never for an address starting "http"; otherwise when the
   * path is the address itself or lies below it.
   */
  function IsActive(href: string, pathname: Option<string>): (active: bool)
    ensures active ==> !StartsWith(href, "http") && pathname.Some? && StartsWith(pathname.value, href)
    ensures !StartsWith(href, "http") && pathname == Some(href) ==> active
  {
    if StartsWith(href, "http") then false
    else if pathname.None? then false
    else
      var p := pathname.value;
      if p == href then true
      else if StartsWith(p, href + "/") then
        assert p[..|href|] == p[..|href| + 1][..|href|] == (href + "/")[..|href|] == href;
        true
      else false
  }

  /** The same rule stated on positions: the path equals the address, or continues it with a '/'. */
  lemma {:induction false} ActiveIffEqualOrBelow(href: string, p: string)
    ensures IsActive(href, Some(p)) <==>
      !StartsWith(href, "http") &&
      (p == href || (|href| < |p| && p[..|href|] == href && p[|href|] == '/'))
  {
    if |href| < |p| {
      assert p[..|href| + 1] == p[..|href|] + [p[|href|]];
      if StartsWith(p, href + "/") {
        assert p[..|href|] == (href + "/")[..|href|];
      }
    }
  }

  /** An address starting "http" (so also "https") is never highlighted. */
  lemma AbsoluteAddressNeverActive(href: string, pathname: Option<string>)
    requires StartsWith(href, "http")
    ensures !IsActive(href, pathname)
  {
  }

  /** Without a known path nothing is highlighted. */
  lemma UnknownPathInactive(href: string)
    ensures !IsActive(href, None)
  {
  }

  /** A path below the address highlights it. */
  lemma NestedPathActive(href: string, rest: string)
    requires !StartsWith(href, "http")
    ensures IsActive(href, Some(href + "/" + rest))
  {
    assert (href + "/" + rest)[..|href + "/"|] == href + "/";
  }

  /** A path that shares the address as a prefix without a '/' after it ("/dashboards" for "/dashboard") does not highlight it. */
  lemma {:induction false} SiblingPathInactive(href: string, rest: string)
    requires rest != [] && rest[0] != '/'
    ensures !IsActive(href, Some(href + rest))
  {
    ActiveIffEqualOrBelow(href, href + rest);
    assert (href + rest)[|href|] == rest[0];
  }

  /** The root address "/" is highlighted on "/" and on every path beginning "//", and on no other path. */
  lemma {:induction false} RootActiveIff(p: string)
    ensures IsActive("/", Some(p)) <==> p == "/" || StartsWith(p, "//")
  {
    assert !StartsWith("/", "http");
    assert "/" + "/" == "//";
  }

  /** `linkProps`: an external entry opens in a new tab without opener or referrer; any other has only its address. */
  function LinkPropsOf(item: NavigationItem): (props: LinkProps)
    ensures props.href == item.href
    ensures item.external == Some(true) ==> props.target == Some("_blank") && props.rel == Some("noopener noreferrer")
    ensures item.external != Some(true) ==> props.target == None && props.rel == None
  {
    if item.external == Some(true) then LinkProps(item.href, Some("_blank"), Some("noopener noreferrer"))
    else LinkProps(item.href, None, None)
  }
}
