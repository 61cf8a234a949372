/**
 * The role filter of the navigation guard (`filterMenuByRoles`): a pure,
 * order-preserving structural transform of a nested menu that keeps the
 * entries a set of held roles may see.
 */
module RoleFilter {
  import opened Wrappers
  import opened Menu
  import opened Positions

  /**
   * An entry is visible when it declares no `meta.roles`, or when one of its
   * roles is held. A declared empty list `roles: []` therefore hides the
   * entry from everyone.
   */
  predicate HasPermission(item: RouteRecord, roles: seq<string>) {
    item.meta.roles.None? || exists role :: role in item.meta.roles.value && role in roles
  }

  /**
   * The copy of a visible entry: every field is kept; the children are
   * filtered recursively, but only when there is at least one child, so a
   * missing `children` stays missing and `children: []` stays `[]`.
   */
  function FilterItem(item: RouteRecord, roles: seq<string>): (r: RouteRecord)
    ensures r.path == item.path && r.name == item.name && r.component == item.component
    ensures r.meta == item.meta
    ensures r.children.Present? <==> item.children.Present?
    ensures HasChildren(item) ==> r.children.items == FilterMenuByRoles(item.children.items, roles)
    ensures !HasChildren(item) ==> r == item
  {
    if HasChildren(item) then item.(children := Present(FilterMenuByRoles(item.children.items, roles)))
    else item
  }

  /** The visible entries of `menu`, in their original order, each filtered by `FilterItem`. */
  function FilterMenuByRoles(menu: seq<RouteRecord>, roles: seq<string>): (r: seq<RouteRecord>)
    ensures |r| <= |menu|
    ensures forall k :: 0 <= k < |r| ==> HasPermission(r[k], roles)
  {
    if menu == [] then []
    else
      var rest := FilterMenuByRoles(menu[1..], roles);
      if HasPermission(menu[0], roles) then [FilterItem(menu[0], roles)] + rest else rest
  }

  /** Every entry of `menu`, at every depth, is visible to `roles`. */
  predicate AllPermitted(menu: seq<RouteRecord>, roles: seq<string>) {
    forall k :: 0 <= k < |menu| ==>
      HasPermission(menu[k], roles) &&
      (menu[k].children.Present? ==> AllPermitted(menu[k].children.items, roles))
  }

  /** The positions of `menu` that the filter keeps, in increasing order. */
  ghost function KeptIndices(menu: seq<RouteRecord>, roles: seq<string>): seq<nat>
  {
    if menu == [] then []
    else
      var rest := Shift(KeptIndices(menu[1..], roles));
      if HasPermission(menu[0], roles) then [0] + rest else rest
  }

  /** The kept positions are in range and strictly increasing. */
  lemma {:induction false} KeptIncreasing(menu: seq<RouteRecord>, roles: seq<string>)
    ensures forall k :: 0 <= k < |KeptIndices(menu, roles)| ==> KeptIndices(menu, roles)[k] < |menu|
    ensures Increasing(KeptIndices(menu, roles))
  {
    if menu != [] {
      KeptIncreasing(menu[1..], roles);
      var sh := Shift(KeptIndices(menu[1..], roles));
      if HasPermission(menu[0], roles) {
        var idx := KeptIndices(menu, roles);
        assert idx == [0] + sh;
        assert forall k :: 1 <= k < |idx| ==> idx[k] == sh[k - 1];
      }
    }
  }

  /** `out` lists, in order, the copies of the entries of `menu` at the positions `idx`. */
  predicate CopiesAt(menu: seq<RouteRecord>, roles: seq<string>, out: seq<RouteRecord>, idx: seq<nat>) {
    |out| == |idx| &&
    forall k :: 0 <= k < |idx| ==> idx[k] < |menu| && out[k] == FilterItem(menu[idx[k]], roles)
  }

  /** The copies at the shifted positions of a tail are copies at the same places of the whole list. */
  lemma CopiesAtShift(menu: seq<RouteRecord>, roles: seq<string>, out: seq<RouteRecord>, idx: seq<nat>)
    requires menu != [] && CopiesAt(menu[1..], roles, out, idx)
    ensures CopiesAt(menu, roles, out, Shift(idx))
  {
    var sh := Shift(idx);
    forall k | 0 <= k < |sh| ensures sh[k] < |menu| && out[k] == FilterItem(menu[sh[k]], roles) {
      assert menu[sh[k]] == menu[1..][idx[k]];
    }
  }

  /** Prepending the copy of the first entry at position 0 keeps the correspondence. */
  lemma CopiesAtCons(menu: seq<RouteRecord>, roles: seq<string>, out: seq<RouteRecord>, idx: seq<nat>)
    requires menu != [] && CopiesAt(menu, roles, out, idx)
    ensures CopiesAt(menu, roles, [FilterItem(menu[0], roles)] + out, [0] + idx)
  {
    var out', idx' := [FilterItem(menu[0], roles)] + out, [0] + idx;
    forall k | 1 <= k < |idx'| ensures idx'[k] < |menu| && out'[k] == FilterItem(menu[idx'[k]], roles) {
      assert idx'[k] == idx[k - 1] && out'[k] == out[k - 1];
    }
  }

  /** The k-th returned entry is the copy of the entry at the k-th kept position. */
  lemma {:induction false} FilterAtKept(menu: seq<RouteRecord>, roles: seq<string>)
    ensures CopiesAt(menu, roles, FilterMenuByRoles(menu, roles), KeptIndices(menu, roles))
  {
    if menu != [] {
      var tail := menu[1..];
      FilterAtKept(tail, roles);
      CopiesAtShift(menu, roles, FilterMenuByRoles(tail, roles), KeptIndices(tail, roles));
      if HasPermission(menu[0], roles) {
        CopiesAtCons(menu, roles, FilterMenuByRoles(tail, roles), Shift(KeptIndices(tail, roles)));
      }
    }
  }

  /**
   * The filter's output is exactly the visible entries of the input, each
   * copied by `FilterItem`, in their original order: the kept positions are
   * increasing and in range, and the k-th output is the copy of the entry at
   * the k-th kept position.
   */
  lemma FilterSelectsInOrder(menu: seq<RouteRecord>, roles: seq<string>)
    ensures CopiesAt(menu, roles, FilterMenuByRoles(menu, roles), KeptIndices(menu, roles))
    ensures Increasing(KeptIndices(menu, roles))
  {
    FilterAtKept(menu, roles);
    KeptIncreasing(menu, roles);
  }

  /** A position is kept if and only if its entry is visible to `roles`. */
  lemma {:induction false} KeptIffVisible(menu: seq<RouteRecord>, roles: seq<string>)
    ensures forall i :: 0 <= i < |menu| ==>
      (i in KeptIndices(menu, roles) <==> HasPermission(menu[i], roles))
  {
    if menu != [] {
      var tail := menu[1..];
      KeptIffVisible(tail, roles);
      var idx' := KeptIndices(tail, roles);
      forall i | 0 <= i < |menu|
        ensures i in KeptIndices(menu, roles) <==> HasPermission(menu[i], roles)
      {
        ShiftMembership(idx', i);
        if i > 0 {
          assert menu[i] == tail[i - 1];
        }
      }
    }
  }

  /** Nothing the filter returns, at any depth, is hidden from `roles`. */
  lemma {:induction false} FilterDeepSound(menu: seq<RouteRecord>, roles: seq<string>)
    ensures AllPermitted(FilterMenuByRoles(menu, roles), roles)
  {
    if menu != [] {
      FilterDeepSound(menu[1..], roles);
      var x := menu[0];
      if HasPermission(x, roles) {
        FilterItemDeepSound(x, roles);
        var r := FilterMenuByRoles(menu, roles);
        assert r == [FilterItem(x, roles)] + FilterMenuByRoles(menu[1..], roles);
      }
    }
  }

  lemma {:induction false} FilterItemDeepSound(item: RouteRecord, roles: seq<string>)
    ensures var r := FilterItem(item, roles);
      r.children.Present? ==> AllPermitted(r.children.items, roles)
  {
    if HasChildren(item) {
      FilterDeepSound(item.children.items, roles);
    }
  }

  /** Filtering twice with the same roles gives what filtering once gives. */
  lemma {:induction false} FilterIdempotent(menu: seq<RouteRecord>, roles: seq<string>)
    ensures FilterMenuByRoles(FilterMenuByRoles(menu, roles), roles) == FilterMenuByRoles(menu, roles)
  {
    if menu != [] {
      var rest := FilterMenuByRoles(menu[1..], roles);
      FilterIdempotent(menu[1..], roles);
      if HasPermission(menu[0], roles) {
        var x := FilterItem(menu[0], roles);
        FilterItemIdempotent(menu[0], roles);
        assert ([x] + rest)[1..] == rest;
        assert ([x] + rest)[0] == x;
      }
    }
  }

  lemma {:induction false} FilterItemIdempotent(item: RouteRecord, roles: seq<string>)
    ensures FilterItem(FilterItem(item, roles), roles) == FilterItem(item, roles)
  {
    if HasChildren(item) {
      FilterIdempotent(item.children.items, roles);
    }
  }

  /** A menu that is visible through and through comes back unchanged. */
  lemma {:induction false} FilterKeepsPermitted(menu: seq<RouteRecord>, roles: seq<string>)
    requires AllPermitted(menu, roles)
    ensures FilterMenuByRoles(menu, roles) == menu
  {
    if menu != [] {
      assert AllPermitted(menu[1..], roles) by {
        forall k | 0 <= k < |menu[1..]| ensures menu[1..][k] == menu[k + 1] { }
      }
      FilterKeepsPermitted(menu[1..], roles);
      var x := menu[0];
      if HasChildren(x) {
        FilterKeepsPermitted(x.children.items, roles);
      }
      assert FilterItem(x, roles) == x;
      assert menu == [x] + menu[1..];
    }
  }

  /** When no top-level entry is visible, the filter returns the empty menu. */
  lemma {:induction false} FilterNoneVisible(menu: seq<RouteRecord>, roles: seq<string>)
    requires forall k :: 0 <= k < |menu| ==> !HasPermission(menu[k], roles)
    ensures FilterMenuByRoles(menu, roles) == []
  {
    if menu != [] {
      assert forall k :: 0 <= k < |menu[1..]| ==> menu[1..][k] == menu[k + 1];
      FilterNoneVisible(menu[1..], roles);
    }
  }

  /** An entry declaring `roles: []` never survives the filter, whatever roles are held. */
  lemma EmptyRoleListHides(item: RouteRecord, rest: seq<RouteRecord>, roles: seq<string>)
    requires item.meta.roles == Some([])
    ensures FilterMenuByRoles([item] + rest, roles) == FilterMenuByRoles(rest, roles)
  {
    assert ([item] + rest)[1..] == rest;
  }

  /** Every entry at every depth of `menu` declares exactly the roles `expected`. */
  predicate AllRolesAre(menu: seq<RouteRecord>, expected: seq<string>) {
    forall k :: 0 <= k < |menu| ==>
      menu[k].meta.roles == Some(expected) &&
      (menu[k].children.Present? ==> AllRolesAre(menu[k].children.items, expected))
  }

  /** A menu whose entries all declare the same roles is visible through and through to a holder of one of them. */
  lemma {:induction false} SameRolesPermitted(menu: seq<RouteRecord>, expected: seq<string>, roles: seq<string>, held: string)
    requires AllRolesAre(menu, expected) && held in expected && held in roles
    ensures AllPermitted(menu, roles)
  {
    forall k | 0 <= k < |menu|
      ensures HasPermission(menu[k], roles)
      ensures menu[k].children.Present? ==> AllPermitted(menu[k].children.items, roles)
    {
      assert held in menu[k].meta.roles.value;
      if menu[k].children.Present? {
        SameRolesPermitted(menu[k].children.items, expected, roles, held);
      }
    }
  }
}
