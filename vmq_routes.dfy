/**
 * The application's static menu (`vmqRoutes`): seven top-level entries, two
 * of them branches with the relative children `add` and `manage`, every
 * entry reserved to the `admin` role. The guard always filters this menu.
 */
module VmqRoutes {
  import opened Wrappers
  import opened Menu
  import opened RoleFilter
  import opened RouteUtil

  const AdminOnly: seq<string> := ["admin"]

  function Meta(title: string, icon: string, fixedTab: bool, alwaysShow: bool, inLayout: bool): RouteMeta {
    RouteMeta(title, Some(icon), Some(AdminOnly), false, fixedTab, alwaysShow, inLayout)
  }

  /** A page: a component and no `children` key. */
  function Page(path: string, name: string, component: string, meta: RouteMeta): RouteRecord {
    RouteRecord(path, name, Some(component), meta, Absent)
  }

  /** A group: children and no component. */
  function Group(path: string, name: string, meta: RouteMeta, children: seq<RouteRecord>): RouteRecord {
    RouteRecord(path, name, None, meta, Present(children))
  }

  const Dashboard: RouteRecord :=
    Page("/dashboard", "VmqDashboard", "/vmq/dashboard/index", Meta("首页", "&#xe6cc;", true, false, false))
  const SystemSettings: RouteRecord :=
    Page("/systemSettings", "SystemSettings", "/vmq/systemSettings/index", Meta("系统设置", "&#xe6d0;", false, false, false))
  const Monitor: RouteRecord :=
    Page("/monitorSettings", "Monitor", "/vmq/monitorSettings/index", Meta("监控端状态", "&#xe81d;", false, false, false))
  const Wechat: RouteRecord :=
    Group("/wxqrcode", "Wechat", Meta("微信二维码", "&#xe7c1;", false, true, false), [
      Page("add", "AddWechatQrcode", "/vmq/wxqrcode/add/index", Meta("添加", "&#xe717;", false, false, true)),
      Page("manage", "ManageWechatQrcode", "/vmq/wxqrcode/manage/index", Meta("管理", "&#xe7ba;", false, false, true))
    ])
  const Alipay: RouteRecord :=
    Group("/zfbqrcode", "Alipay", Meta("支付宝二维码", "&#xe843;", false, true, false), [
      Page("add", "AddAlipayQrcode", "/vmq/zfbqrcode/add/index", Meta("添加", "&#xe717;", false, false, true)),
      Page("manage", "ManageAlipayQrcode", "/vmq/zfbqrcode/manage/index", Meta("管理", "&#xe7ba;", false, false, true))
    ])
  const OrderList: RouteRecord :=
    Page("/orderlist", "OrderList", "/vmq/orderlist/index", Meta("订单列表", "&#xe76c;", false, false, false))
  const ApiDoc: RouteRecord :=
    Page("/api", "ApiDoc", "/vmq/api/index", Meta("Api说明", "&#xe654;", false, false, false))

  const Routes: seq<RouteRecord> := [Dashboard, SystemSettings, Monitor, Wechat, Alipay, OrderList, ApiDoc]

  /** The names of all entries of `menu`, depth-first. */
  function Names(menu: seq<RouteRecord>): seq<string> {
    if menu == [] then []
    else
      var item := menu[0];
      [item.name] + (if item.children.Present? then Names(item.children.items) else []) + Names(menu[1..])
  }

  /** Leaves carry a component; branches carry none. */
  predicate ComponentsOnLeaves(menu: seq<RouteRecord>) {
    forall k :: 0 <= k < |menu| ==>
      (menu[k].component.Some? <==> menu[k].children.Absent?) &&
      (menu[k].children.Present? ==> ComponentsOnLeaves(menu[k].children.items))
  }

  /** Every entry of the menu, top-level and child, is reserved to `admin`. */
  lemma RoutesAdminOnly()
    ensures AllRolesAre(Routes, AdminOnly)
  {
    assert AllRolesAre(Wechat.children.items, AdminOnly);
    assert AllRolesAre(Alipay.children.items, AdminOnly);
  }

  /** With `admin` among the roles held, filtering returns the menu unchanged. */
  lemma AdminSeesEverything(roles: seq<string>)
    requires "admin" in roles
    ensures FilterMenuByRoles(Routes, roles) == Routes
  {
    RoutesAdminOnly();
    SameRolesPermitted(Routes, AdminOnly, roles, "admin");
    FilterKeepsPermitted(Routes, roles);
  }

  /** Without `admin`, filtering leaves nothing at all. */
  lemma OthersSeeNothing(roles: seq<string>)
    requires "admin" !in roles
    ensures FilterMenuByRoles(Routes, roles) == []
  {
    forall k | 0 <= k < |Routes| ensures !HasPermission(Routes[k], roles) {
      assert Routes[k].meta.roles == Some(AdminOnly);
    }
    FilterNoneVisible(Routes, roles);
  }

  const AllNames: seq<string> := ["VmqDashboard", "SystemSettings", "Monitor", "Wechat", "AddWechatQrcode",
                                   "ManageWechatQrcode", "Alipay", "AddAlipayQrcode", "ManageAlipayQrcode",
                                   "OrderList", "ApiDoc"]

  lemma NamesCons(item: RouteRecord, rest: seq<RouteRecord>)
    ensures Names([item] + rest) ==
      [item.name] + (if item.children.Present? then Names(item.children.items) else []) + Names(rest)
  {
    assert ([item] + rest)[1..] == rest;
  }

  /** The names below a group of two pages. */
  lemma NamesOfPair(a: RouteRecord, b: RouteRecord)
    requires a.children.Absent? && b.children.Absent?
    ensures Names([a, b]) == [a.name, b.name]
  {
    NamesCons(b, []);
    assert [b] + [] == [b];
    NamesCons(a, [b]);
    assert [a] + [b] == [a, b];
  }

  lemma NamesTail()
    ensures Names([Alipay, OrderList, ApiDoc]) ==
      ["Alipay", "AddAlipayQrcode", "ManageAlipayQrcode", "OrderList", "ApiDoc"]
  {
    NamesOfPair(OrderList, ApiDoc);
    NamesOfPair(Alipay.children.items[0], Alipay.children.items[1]);
    assert Alipay.children.items == [Alipay.children.items[0], Alipay.children.items[1]];
    NamesCons(Alipay, [OrderList, ApiDoc]);
    assert [Alipay] + [OrderList, ApiDoc] == [Alipay, OrderList, ApiDoc];
  }

  lemma NamesFromWechat()
    ensures Names([Wechat, Alipay, OrderList, ApiDoc]) ==
      ["Wechat", "AddWechatQrcode", "ManageWechatQrcode", "Alipay", "AddAlipayQrcode", "ManageAlipayQrcode",
       "OrderList", "ApiDoc"]
  {
    NamesTail();
    NamesOfPair(Wechat.children.items[0], Wechat.children.items[1]);
    assert Wechat.children.items == [Wechat.children.items[0], Wechat.children.items[1]];
    NamesCons(Wechat, [Alipay, OrderList, ApiDoc]);
    assert [Wechat] + [Alipay, OrderList, ApiDoc] == [Wechat, Alipay, OrderList, ApiDoc];
  }

  lemma NamesFromMonitor()
    ensures Names([Monitor, Wechat, Alipay, OrderList, ApiDoc]) == AllNames[2..]
  {
    NamesFromWechat();
    NamesCons(Monitor, [Wechat, Alipay, OrderList, ApiDoc]);
    assert [Monitor] + [Wechat, Alipay, OrderList, ApiDoc] == [Monitor, Wechat, Alipay, OrderList, ApiDoc];
  }

  /** The names of the menu, depth-first. */
  lemma RoutesNames()
    ensures Names(Routes) == AllNames
  {
    var t2 := [Monitor, Wechat, Alipay, OrderList, ApiDoc];
    NamesFromMonitor();
    NamesCons(SystemSettings, t2);
    NamesCons(Dashboard, [SystemSettings] + t2);
    assert Routes == [Dashboard] + ([SystemSettings] + t2);
  }

  /** Seven top-level entries, eleven in all, no name used twice. */
  lemma RoutesShape()
    ensures |Routes| == 7
    ensures |Names(Routes)| == 11
    ensures forall i, j :: 0 <= i < j < |Names(Routes)| ==> Names(Routes)[i] != Names(Routes)[j]
  {
    RoutesNames();
    forall i, j | 0 <= i < j < |AllNames| ensures AllNames[i] != AllNames[j] {
      assert |AllNames[i]| != |AllNames[j]| || AllNames[i][1] != AllNames[j][1] ||
             AllNames[i][3] != AllNames[j][3] || AllNames[i][6] != AllNames[j][6];
    }
  }

  /** Pages have a component and no children; the two groups have children and no component. */
  lemma RoutesComponents()
    ensures ComponentsOnLeaves(Routes)
  {
    assert ComponentsOnLeaves(Wechat.children.items);
    assert ComponentsOnLeaves(Alipay.children.items);
  }

  /** The home path of the menu is `/dashboard`. */
  lemma RoutesHomePath()
    ensures FirstMenuPath(Routes) == "/dashboard"
  {
    assert !IsBlank(Dashboard.path) by { assert !IsWhitespace(Dashboard.path[0]); }
    assert StartsWith(Dashboard.path, "/");
    assert ItemFirst(Dashboard, "") == Some("/dashboard");
    assert Routes[0] == Dashboard;
  }

  /** The two groups hold exactly `add` and `manage`. */
  lemma GroupChildren()
    ensures |Wechat.children.items| == 2 && Wechat.children.items[0].path == "add" && Wechat.children.items[1].path == "manage"
    ensures |Alipay.children.items| == 2 && Alipay.children.items[0].path == "add" && Alipay.children.items[1].path == "manage"
  {
  }

  /** The children of the WeChat group resolve below `/wxqrcode`. */
  lemma WechatChildPaths()
    ensures JoinPath(Wechat.path, "add") == "/wxqrcode/add" && JoinPath(Wechat.path, "manage") == "/wxqrcode/manage"
  {
    JoinRelative("/wxqrcode", "add");
    JoinRelative("/wxqrcode", "manage");
  }

  /** The children of the Alipay group resolve below `/zfbqrcode`. */
  lemma AlipayChildPaths()
    ensures JoinPath(Alipay.path, "add") == "/zfbqrcode/add" && JoinPath(Alipay.path, "manage") == "/zfbqrcode/manage"
  {
    JoinRelative("/zfbqrcode", "add");
    JoinRelative("/zfbqrcode", "manage");
  }
}
