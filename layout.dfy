/** The application shell's display rules: the bottom navigation and its
    active entry, the notification badge, the handle and avatar fallbacks,
    the render gate on the signed-in user, and the verified flag read from
    the user's document (src/components/Layout.tsx). */
module Layout {
  import opened Backend
  import opened Account

  datatype NavItem = NavItem(path: string, text: string)

  /** The bottom navigation: five entries with distinct paths, in the
      order Home, Explore, Create, Reels, Profile. */
  function BottomNavItems(): (items: seq<NavItem>)
    ensures |items| == 5
    ensures forall i, j :: 0 <= i < j < |items| ==> items[i].path != items[j].path
    ensures items[0].text == "Home" && items[1].text == "Explore" && items[2].text == "Create"
    ensures items[3].text == "Reels" && items[4].text == "Profile"
  {
    [NavItem("/", "Home"), NavItem("/explore", "Explore"), NavItem("/create", "Create"),
     NavItem("/reels", "Reels"), NavItem("/profile", "Profile")]
  }

  /** `isActive(path)`: exact comparison with the current pathname. */
  predicate IsActive(pathname: string, path: string)
    ensures IsActive(pathname, path) ==> |pathname| == |path|
    ensures |path| < |pathname| && pathname[..|path|] == path ==> !IsActive(pathname, path)
  {
    pathname == path
  }

  /** Whatever the pathname, at most one bottom entry is highlighted, and
      none is on a sub-path such as "/explore/tags" since there is no prefix
      matching. */
  lemma AtMostOneActive(pathname: string)
    ensures forall i, j :: 0 <= i < j < |BottomNavItems()| && IsActive(pathname, BottomNavItems()[i].path) ==>
      !IsActive(pathname, BottomNavItems()[j].path)
    ensures pathname == "/explore/tags" ==> forall i :: 0 <= i < |BottomNavItems()| ==> !IsActive(pathname, BottomNavItems()[i].path)
  {
  }

  /** The notification count the header starts with; nothing changes it. */
  const Notifications: int := 3

  /** The red badge on the notifications button: absent for a count of zero
      or less, "9+" above nine, otherwise the single digit. */
  function BadgeLabel(count: int): (r: Option<string>)
    ensures r.None? <==> count <= 0
    ensures r.Some? ==> (r.value == "9+" <==> count > 9)
    ensures r.Some? && count <= 9 ==> |r.value| == 1 && r.value[0] as int - '0' as int == count
    ensures r.Some? ==> 1 <= |r.value| <= 2
  {
    if count <= 0 then None
    else if count > 9 then Some("9+")
    else Some([('0' as int + count) as char])
  }

  /** What the header shows of the account. */
  datatype Header = Header(
    handle: Option<string>, avatarFallback: string, badge: Option<string>,
    verified: bool, activeNav: seq<bool>)

  /** The layout: nothing at all without a user. */
  function Render(user: Option<User>, pathname: string, notifications: int, isVerified: bool): (r: Option<Header>)
    ensures r.None? <==> user.None?
    ensures r.Some? ==> r.value.handle == Handle(user.value)
    ensures r.Some? && Present(user.value.displayName) ==>
      r.value.avatarFallback == [user.value.displayName.value[0]]
    ensures r.Some? && !Present(user.value.displayName) ==> r.value.avatarFallback == "SL"
    ensures r.Some? ==> r.value.badge == BadgeLabel(notifications) && r.value.verified == isVerified
    ensures r.Some? ==> |r.value.activeNav| == 5
    ensures r.Some? ==> forall i :: 0 <= i < 5 ==> (r.value.activeNav[i] <==> pathname == BottomNavItems()[i].path)
  {
    match user
    case None => None
    case Some(u) =>
      var items := BottomNavItems();
      Some(Header(
        Handle(u), AvatarLetter(u, "SL"), BadgeLabel(notifications), isVerified,
        seq(|items|, i requires 0 <= i < |items| => IsActive(pathname, items[i].path))))
  }

  /** The read of the user's own document: found (with its `isVerified`
      field, if any), missing, or failed. */
  datatype UserDocRead = Found(isVerified: Option<Value>) | NotFound | ReadFailed

  /** The verification effect: it runs only with a user, and only a found
      document changes the flag, to the truthiness of its field. */
  function Verified(current: bool, user: Option<User>, read: UserDocRead): (r: bool)
    ensures user.None? || !read.Found? ==> r == current
    ensures user.Some? && read == Found(None) ==> !r
    ensures user.Some? && read.Found? ==> (r <==> read.isVerified.Some? && Truthy(read.isVerified.value))
    ensures user.Some? && read.Found? && read.isVerified.Some? && read.isVerified.value in {Null, Bool(false), Num(0), Str("")} ==> !r
  {
    if user.None? then current
    else match read
      case Found(v) => v.Some? && Truthy(v.value)
      case NotFound => current
      case ReadFailed => current
  }

  /** A lookup that fails or finds no document leaves the flag unchanged;
      the flag is set only from an existing document. */
  lemma VerifiedOnlyFromDocument(current: bool, user: Option<User>, read: UserDocRead)
    ensures !read.Found? || user.None? ==> Verified(current, user, read) == current
    ensures Verified(current, user, read) != current ==> user.Some? && read.Found?
    ensures user.Some? && read == Found(Some(Bool(true))) ==> Verified(current, user, read)
    ensures user.Some? && read == Found(None) ==> !Verified(current, user, read)
    ensures user.Some? && read.Found? ==>
      Verified(current, user, read) == (read.isVerified.Some? && Truthy(read.isVerified.value))
  {
  }

  class LayoutShell {
    var notifications: int
    var searchQuery: string
    var isVerified: bool

    constructor ()
      ensures notifications == Notifications && searchQuery == "" && !isVerified
    {
      notifications := Notifications;
      searchQuery := "";
      isVerified := false;
    }

    /** The effect run when the signed-in user changes. */
    method CheckVerification(user: Option<User>, read: UserDocRead)
      modifies this
      ensures isVerified == Verified(old(isVerified), user, read)
      ensures notifications == old(notifications) && searchQuery == old(searchQuery)
    {
      if user.Some? {
        match read
        case Found(v) =>
          isVerified := v.Some? && Truthy(v.value);
        case NotFound =>
        case ReadFailed =>
      }
    }
  }
}
