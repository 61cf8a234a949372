/**
 * The route record (`AppRouteRecord`) that menus are made of: the shape the
 * static menu of the application is written in, that the role filter copies
 * and that the home-path search walks.
 */
module Menu {
  import opened Wrappers

  /**
   * The `meta` bag of a route record, with the keys the core reads
   * (`roles`, `isHide`) and the ones the application's menu sets.
   * A record written without `meta` behaves like one whose meta has no
   * `roles` and `isHide = false`, which is how the core reads `meta?.…`.
   */
  datatype RouteMeta = RouteMeta(
    title: string,
    icon: Option<string>,
    roles: Option<seq<string>>,
    isHide: bool,
    fixedTab: bool,
    alwaysShow: bool,
    inLayout: bool)

  /** The `children` key: left out of the record, or an array (possibly empty). */
  datatype Children = Absent | Present(items: seq<RouteRecord>)

  datatype RouteRecord = RouteRecord(
    path: string,
    name: string,
    component: Option<string>,
    meta: RouteMeta,
    children: Children)

  /** JavaScript's `item.children?.length` is truthy: the children array exists and is not empty. */
  predicate HasChildren(item: RouteRecord) {
    item.children.Present? && |item.children.items| > 0
  }
}
