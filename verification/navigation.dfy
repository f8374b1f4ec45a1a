/** The top navigation bar: its item table, the role filter, and the unread badge. */
module Navigation {
  import opened Common
  import opened Storage

  datatype NavItem = NavItem(path: string, title: string, roles: seq<string>)

  const AllRoles: seq<string> := ["admin", "facility_manager", "teacher"]

  const NavItems: seq<NavItem> := [
    NavItem("/", "Dashboard", AllRoles),
    NavItem("/rooms", "Room Details", AllRoles),
    NavItem("/devices", "Device Health", ["admin", "facility_manager"]),
    NavItem("/settings", "Settings", AllRoles)
  ]

  /** The items shown: nothing at all (no bar) when nobody is signed in;
      otherwise exactly the items whose role list holds the user's role, in
      table order. */
  function VisibleItems(user: Option<Account>): (r: Option<seq<NavItem>>)
    ensures r.None? <==> user.None?
    ensures r.Some? ==> forall item :: item in r.value <==> item in NavItems && user.value.role in item.roles
  {
    match user
    case None => None
    case Some(account) => Some(Filter(NavItems, (item: NavItem) => account.role in item.roles))
  }

  lemma TeacherRoles()
    ensures "teacher" in NavItems[0].roles && "teacher" in NavItems[1].roles
    ensures "teacher" !in NavItems[2].roles && "teacher" in NavItems[3].roles
  {
    assert NavItems[2].roles[0] != "teacher" && NavItems[2].roles[1] != "teacher";
  }

  /** The items of a list whose third entry alone is refused. */
  lemma FilterDropsThird(t: seq<NavItem>, p: NavItem -> bool)
    requires |t| == 4 && p(t[0]) && p(t[1]) && !p(t[2]) && p(t[3])
    ensures Filter(t, p) == [t[0], t[1], t[3]]
  {
    FilterStep(t, 0, p);
    FilterStep(t, 1, p);
    FilterStep(t, 2, p);
    FilterStep(t, 3, p);
    assert t[0..] == t && t[4..] == [];
  }

  /** A teacher sees every item but "/devices", in table order. */
  lemma TeacherItems(account: Account)
    requires account.role == "teacher"
    ensures VisibleItems(Some(account)) == Some([NavItems[0], NavItems[1], NavItems[3]])
    ensures forall item :: item in VisibleItems(Some(account)).value ==> item.path != "/devices"
  {
    TeacherRoles();
    FilterDropsThird(NavItems, (item: NavItem) => account.role in item.roles);
  }

  /** Administrators and facility managers see all four items. */
  lemma ManagersSeeAll(account: Account)
    requires account.role == "admin" || account.role == "facility_manager"
    ensures VisibleItems(Some(account)) == Some(NavItems)
  {
    FilterKeepsAll(NavItems, (item: NavItem) => account.role in item.roles);
  }

  /** A role outside the table (the empty role included) sees nothing. */
  lemma UnknownRoleSeesNothing(account: Account)
    requires account.role !in AllRoles
    ensures VisibleItems(Some(account)) == Some([])
  {
    FilterEmptyIff(NavItems, (item: NavItem) => account.role in item.roles);
  }

  /** The unread badge: on the dashboard item only, and only with unread notifications. */
  predicate ShowsUnreadBadge(item: NavItem, unreadCount: int) {
    item.path == "/" && unreadCount > 0
  }

  /** Of the items anyone can see, only the first can carry the badge. */
  lemma BadgeOnlyOnDashboard(user: Option<Account>, unreadCount: int, i: nat)
    requires VisibleItems(user).Some? && i < |VisibleItems(user).value|
    ensures ShowsUnreadBadge(VisibleItems(user).value[i], unreadCount) <==>
      VisibleItems(user).value[i] == NavItems[0] && unreadCount > 0
  {
    assert VisibleItems(user).value[i] in NavItems;
  }
}
