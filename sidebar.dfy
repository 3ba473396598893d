/** The navigation menu of src/components/Sidebar.tsx: a fixed list of items,
    each listing the roles that see it, filtered by the caller's role, and the
    role badge. */
module Sidebar {
  import opened Common

  datatype MenuItem = MenuItem(id: string, caption: string, roles: seq<string>)

  const OverviewItem := MenuItem("overview", "Overview", ["admin", "sales", "cashier"])
  const RegisterItem := MenuItem("register", "Register Customer", ["admin", "sales"])
  const QueueItem := MenuItem("queue", "Queue Management", ["admin", "sales", "cashier"])
  const NotificationsItem := MenuItem("notifications", "Notifications", ["admin"])
  const TransactionsItem := MenuItem("transactions", "Transactions", ["admin", "cashier"])
  const ReportsItem := MenuItem("reports", "Reports", ["admin", "cashier"])
  const ActivityLogItem := MenuItem("activity-log", "Activity Log", ["admin", "cashier"])

  const MenuItems: seq<MenuItem> := [
    OverviewItem, RegisterItem, QueueItem, NotificationsItem, TransactionsItem, ReportsItem, ActivityLogItem]

  /** `items.filter(item => item.roles.includes(userRole))`, written out
      rather than through `Common.Filter`: the lemmas about the literal menu
      below unfold it step by step, which stays cheap only without `Filter`'s
      subsequence postcondition. */
  function Visible(items: seq<MenuItem>, userRole: string): (shown: seq<MenuItem>)
    ensures |shown| <= |items|
    ensures forall i :: 0 <= i < |shown| ==> userRole in shown[i].roles
    decreases |items|
  {
    if items == [] then []
    else (if userRole in items[0].roles then [items[0]] else []) + Visible(items[1..], userRole)
  }

  /** An item is shown exactly when the role is listed in it, and the shown
      items keep their menu order. */
  lemma {:induction false} VisibleSpec(items: seq<MenuItem>, userRole: string)
    ensures forall it :: it in Visible(items, userRole) <==> it in items && userRole in it.roles
    ensures IsSubsequence(Visible(items, userRole), items)
    decreases |items|
  {
    if items != [] {
      VisibleSpec(items[1..], userRole);
      var rest := Visible(items[1..], userRole);
      if userRole in items[0].roles {
        assert ([items[0]] + rest)[1..] == rest;
      } else {
        assert [] + rest == rest;
      }
    }
  }

  /** The ids of a list of menu items, in order. */
  function Ids(items: seq<MenuItem>): (ids: seq<string>)
    ensures |ids| == |items| && forall i :: 0 <= i < |items| ==> ids[i] == items[i].id
  {
    seq(|items|, i requires 0 <= i < |items| => items[i].id)
  }

  /** An admin sees all seven items. */
  lemma AdminSeesEverything()
    ensures Visible(MenuItems, "admin") == MenuItems
    ensures Ids(Visible(MenuItems, "admin")) ==
      ["overview", "register", "queue", "notifications", "transactions", "reports", "activity-log"]
  {
    forall i | 0 <= i < |MenuItems| ensures "admin" in MenuItems[i].roles {
      assert MenuItems[i].roles[0] == "admin";
    }
    VisibleAll(MenuItems, "admin");
  }

  /** A role listed in every item sees the whole list. */
  lemma {:induction false} VisibleAll(items: seq<MenuItem>, userRole: string)
    requires forall i :: 0 <= i < |items| ==> userRole in items[i].roles
    ensures Visible(items, userRole) == items
    decreases |items|
  {
    if items != [] {
      assert userRole in items[0].roles;
      VisibleAll(items[1..], userRole);
    }
  }

  /** The sales role sees exactly overview, register and queue. */
  lemma SalesMenu()
    ensures Ids(Visible(MenuItems, "sales")) == ["overview", "register", "queue"]
  {
    var m, r := MenuItems, "sales";
    SuffixSteps();
    RoleNamesDiffer();
    assert Visible(m[6..], r) == [];
    assert Visible(m[5..], r) == [];
    assert Visible(m[4..], r) == [];
    assert Visible(m[3..], r) == [];
    assert Visible(m[2..], r) == [m[2]];
    assert Visible(m[1..], r) == [m[1], m[2]];
    assert Visible(m, r) == [m[0], m[1], m[2]];
  }

  /** The cashier role sees exactly overview, queue, transactions, reports and activity-log. */
  lemma CashierMenu()
    ensures Visible(MenuItems, "cashier") == [OverviewItem, QueueItem, TransactionsItem, ReportsItem, ActivityLogItem]
  {
    var r := "cashier";
    CashierListed();
    var t: seq<MenuItem> := [];
    var v: seq<MenuItem> := [];
    VisibleCons(ActivityLogItem, t, r);
    t, v := [ActivityLogItem] + t, [ActivityLogItem] + v;
    VisibleCons(ReportsItem, t, r);
    t, v := [ReportsItem] + t, [ReportsItem] + v;
    VisibleCons(TransactionsItem, t, r);
    t, v := [TransactionsItem] + t, [TransactionsItem] + v;
    VisibleCons(NotificationsItem, t, r);
    t := [NotificationsItem] + t;
    VisibleCons(QueueItem, t, r);
    t, v := [QueueItem] + t, [QueueItem] + v;
    VisibleCons(RegisterItem, t, r);
    t := [RegisterItem] + t;
    VisibleCons(OverviewItem, t, r);
    t, v := [OverviewItem] + t, [OverviewItem] + v;
    assert t == MenuItems;
  }

  /** One step of the filter: the first item, if it lists the role, then the rest. */
  lemma VisibleCons(x: MenuItem, rest: seq<MenuItem>, userRole: string)
    ensures Visible([x] + rest, userRole) == (if userRole in x.roles then [x] else []) + Visible(rest, userRole)
  {
    assert ([x] + rest)[1..] == rest;
  }

  /** The items that list the cashier role. */
  lemma CashierListed()
    ensures "cashier" in OverviewItem.roles && "cashier" !in RegisterItem.roles
    ensures "cashier" in QueueItem.roles && "cashier" !in NotificationsItem.roles
    ensures "cashier" in TransactionsItem.roles && "cashier" in ReportsItem.roles
    ensures "cashier" in ActivityLogItem.roles
  {
    RoleNamesDiffer();
    assert OverviewItem.roles[2] == "cashier" && QueueItem.roles[2] == "cashier";
    assert TransactionsItem.roles[1] == "cashier" && ReportsItem.roles[1] == "cashier";
    assert ActivityLogItem.roles[1] == "cashier";
  }

  /** Any other role text, 'staff' and 'viewer' included, sees no item. */
  lemma {:induction false} OtherRolesSeeNothing(userRole: string)
    requires userRole != "admin" && userRole != "sales" && userRole != "cashier"
    ensures Visible(MenuItems, userRole) == []
  {
    var m, r := MenuItems, userRole;
    SuffixSteps();
    assert Visible(m[6..], r) == [];
    assert Visible(m[5..], r) == [];
    assert Visible(m[4..], r) == [];
    assert Visible(m[3..], r) == [];
    assert Visible(m[2..], r) == [];
    assert Visible(m[1..], r) == [];
  }

  /** The three role names differ (by length, or else by first letter). */
  lemma RoleNamesDiffer()
    ensures "cashier" != "admin" && "cashier" != "sales" && "sales" != "admin"
  {
    assert |"cashier"| == 7 && |"admin"| == 5 && |"sales"| == 5;
    assert "sales"[0] == 's' && "admin"[0] == 'a';
  }

  /** The tails of the menu, one item shorter each. */
  lemma SuffixSteps()
    ensures MenuItems[6..][1..] == []
    ensures forall k :: 0 <= k < 6 ==> MenuItems[k..][1..] == MenuItems[k + 1..]
  {
  }

  /** The badge text: the role with its first character upper-cased. */
  function BadgeLabel(userRole: string): (badge: string)
    ensures |badge| == |userRole|
    ensures userRole != "" ==> badge[0] == UpperChar(userRole[0]) && badge[1..] == userRole[1..]
  {
    if userRole == "" then "" else [UpperChar(userRole[0])] + userRole[1..]
  }

}
