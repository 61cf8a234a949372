/**
 * Navigation path helpers: the iframe test, path normalisation, and the
 * home-path search `getFirstMenuPath`, which walks a menu depth-first, left
 * to right, accumulating each entry's full path, and answers the first leaf's.
 */
module RouteUtil {
  import opened Wrappers
  import opened Menu
  import opened Positions

  predicate StartsWith(s: string, prefix: string) {
    |prefix| <= |s| && s[..|prefix|] == prefix
  }

  /** A URL is an iframe route when it lies under `/outside/iframe/`. */
  predicate IsIframe(url: string) {
    StartsWith(url, "/outside/iframe/")
  }

  /** The iframe routes are exactly `/outside/iframe/` followed by anything, the bare prefix included. */
  lemma IsIframeIffPrefix(url: string, rest: string)
    ensures IsIframe(url) <==> |url| >= 16 && url == "/outside/iframe/" + url[16..]
    ensures IsIframe("/outside/iframe/" + rest)
  {
    var p := "/outside/iframe/";
    assert |p| == 16;
    assert (p + rest)[..16] == p;
    if |url| >= 16 && url == p + url[16..] {
      assert url[..16] == p;
    }
  }

  /**
   * The characters JavaScript's `String.prototype.trim` removes: the
   * ECMAScript WhiteSpace (tab, vertical tab, form feed, no-break space,
   * byte-order mark and the space separators) and LineTerminator characters.
   */
  predicate IsWhitespace(c: char) {
    c == '\t' || c == '\n' || c == '\U{000B}' || c == '\U{000C}' || c == '\r' || c == ' ' ||
    c == '\U{00A0}' || c == '\U{1680}' || ('\U{2000}' <= c <= '\U{200A}') ||
    c == '\U{2028}' || c == '\U{2029}' || c == '\U{202F}' || c == '\U{205F}' ||
    c == '\U{3000}' || c == '\U{FEFF}'
  }

  /** `s.trim()` is the empty string. */
  predicate IsBlank(s: string) {
    forall k :: 0 <= k < |s| ==> IsWhitespace(s[k])
  }

  /** An entry takes part in the search: its path is not empty or blank, and it is not hidden. */
  predicate IsValidMenuItem(item: RouteRecord) {
    item.path != "" && !IsBlank(item.path) && !item.meta.isHide
  }

  /** A path made absolute by prefixing `/` when it has none. */
  function NormalizePath(path: string): (r: string)
    ensures |r| > 0 && r[0] == '/'
    ensures StartsWith(path, "/") ==> r == path
    ensures !StartsWith(path, "/") ==> r == "/" + path
  {
    if StartsWith(path, "/") then path else "/" + path
  }

  /** Normalising twice changes nothing more than normalising once. */
  lemma NormalizePathIdempotent(path: string)
    ensures NormalizePath(NormalizePath(path)) == NormalizePath(path)
  {
    var r := NormalizePath(path);
    assert r[..1] == "/";
  }

  /** No two consecutive `/` in `s`. */
  predicate NoDoubleSlash(s: string) {
    forall k :: 0 <= k < |s| - 1 ==> !(s[k] == '/' && s[k + 1] == '/')
  }

  /** `s.replace(/\/+/g, '/')`: every run of `/` becomes a single `/`. */
  function CollapseSlashes(s: string): (r: string)
    ensures |r| <= |s|
    ensures |s| > 0 ==> |r| > 0 && r[0] == s[0]
    ensures NoDoubleSlash(r)
  {
    if |s| == 0 then ""
    else if |s| >= 2 && s[0] == '/' && s[1] == '/' then CollapseSlashes(s[1..])
    else [s[0]] + CollapseSlashes(s[1..])
  }

  /** A string without runs of `/` is left as it is. */
  lemma {:induction false} CollapseSlashesKeeps(s: string)
    requires NoDoubleSlash(s)
    ensures CollapseSlashes(s) == s
  {
    if |s| > 0 {
      assert NoDoubleSlash(s[1..]) by {
        forall k | 0 <= k < |s[1..]| - 1 ensures !(s[1..][k] == '/' && s[1..][k + 1] == '/') {
          assert s[1..][k] == s[k + 1] && s[1..][k + 1] == s[k + 2];
        }
      }
      CollapseSlashesKeeps(s[1..]);
      assert s == [s[0]] + s[1..];
    }
  }

  /** Collapsing is idempotent. */
  lemma CollapseSlashesIdempotent(s: string)
    ensures CollapseSlashes(CollapseSlashes(s)) == CollapseSlashes(s)
  {
    CollapseSlashesKeeps(CollapseSlashes(s));
  }

  /** Position `i` of `s` holds a `/` that another `/` follows: one character of a run the collapse drops. */
  predicate SlashBeforeSlash(s: string, i: int) {
    0 <= i && i + 1 < |s| && s[i] == '/' && s[i + 1] == '/'
  }

  /** The positions of `s` that survive the collapse, in increasing order. */
  ghost function KeptChars(s: string): seq<nat> {
    if |s| == 0 then []
    else
      var rest := Shift(KeptChars(s[1..]));
      if SlashBeforeSlash(s, 0) then rest else [0] + rest
  }

  /** `out` lists, in order, the characters of `s` at the positions `idx`. */
  predicate CharsAt(s: string, out: string, idx: seq<nat>) {
    |out| == |idx| &&
    forall k :: 0 <= k < |idx| ==> idx[k] < |s| && out[k] == s[idx[k]]
  }

  /** The characters at a tail's positions are those at the shifted positions of the whole string. */
  lemma CharsAtShift(s: string, out: string, idx: seq<nat>)
    requires |s| > 0 && CharsAt(s[1..], out, idx)
    ensures CharsAt(s, out, Shift(idx))
  {
    var sh := Shift(idx);
    forall k | 0 <= k < |sh| ensures sh[k] < |s| && out[k] == s[sh[k]] {
      assert s[sh[k]] == s[1..][idx[k]];
    }
  }

  /** Prepending the first character at position 0 keeps the correspondence. */
  lemma CharsAtCons(s: string, out: string, idx: seq<nat>)
    requires |s| > 0 && CharsAt(s, out, idx)
    ensures CharsAt(s, [s[0]] + out, [0] + idx)
  {
    var out', idx' := [s[0]] + out, [0] + idx;
    forall k | 1 <= k < |idx'| ensures idx'[k] < |s| && out'[k] == s[idx'[k]] {
      assert idx'[k] == idx[k - 1] && out'[k] == out[k - 1];
    }
  }

  /** The collapse returns the characters of `s` at the kept positions. */
  lemma {:induction false} CollapseAtKept(s: string)
    ensures CharsAt(s, CollapseSlashes(s), KeptChars(s))
  {
    if |s| > 0 {
      CollapseAtKept(s[1..]);
      CharsAtShift(s, CollapseSlashes(s[1..]), KeptChars(s[1..]));
      if !SlashBeforeSlash(s, 0) {
        CharsAtCons(s, CollapseSlashes(s[1..]), Shift(KeptChars(s[1..])));
      }
    }
  }

  /** A position is kept exactly when it is not a `/` followed by another `/`. */
  lemma {:induction false} KeptCharsIff(s: string)
    ensures forall i :: 0 <= i < |s| ==> (i in KeptChars(s) <==> !SlashBeforeSlash(s, i))
  {
    if |s| > 0 {
      var tail := s[1..];
      KeptCharsIff(tail);
      forall i | 0 <= i < |s| ensures i in KeptChars(s) <==> !SlashBeforeSlash(s, i) {
        ShiftMembership(KeptChars(tail), i);
        if i > 0 {
          assert SlashBeforeSlash(s, i) == SlashBeforeSlash(tail, i - 1);
        }
      }
    }
  }

  /** The kept positions are strictly increasing. */
  lemma {:induction false} KeptCharsIncreasing(s: string)
    ensures Increasing(KeptChars(s))
  {
    if |s| > 0 {
      KeptCharsIncreasing(s[1..]);
      var sh := Shift(KeptChars(s[1..]));
      if !SlashBeforeSlash(s, 0) {
        var idx := KeptChars(s);
        assert idx == [0] + sh;
        assert forall k :: 1 <= k < |idx| ==> idx[k] == sh[k - 1];
      }
    }
  }

  /**
   * `s.replace(/\/+/g, '/')` exactly: the result is `s` with every `/` that
   * another `/` follows deleted, everything else kept in order, so each run
   * of `/` leaves one `/`.
   */
  lemma CollapseSlashesSelects(s: string)
    ensures CharsAt(s, CollapseSlashes(s), KeptChars(s))
    ensures Increasing(KeptChars(s))
    ensures forall i :: 0 <= i < |s| ==> (i in KeptChars(s) <==> !SlashBeforeSlash(s, i))
  {
    CollapseAtKept(s);
    KeptCharsIncreasing(s);
    KeptCharsIff(s);
  }

  /**
   * The full path of an entry below `parentPath`: an entry path starting with
   * `/` replaces the accumulated prefix; any other is appended after a `/`
   * and runs of `/` in the result are collapsed.
   */
  function JoinPath(parentPath: string, path: string): (r: string)
    ensures path != "" ==> r != ""
    ensures StartsWith(path, "/") ==> r == path
    ensures !StartsWith(path, "/") ==> r == CollapseSlashes(parentPath + "/" + path) && NoDoubleSlash(r)
    ensures path != "" && (parentPath == "" || parentPath[0] == '/') ==> r[0] == '/'
  {
    if StartsWith(path, "/") then path
    else CollapseSlashes(parentPath + "/" + path)
  }

  /** Below the root `/`, a relative path is joined and the doubled `/` collapsed. */
  lemma JoinAtRoot(path: string)
    requires path != "" && path[0] != '/' && NoDoubleSlash(path)
    ensures JoinPath("/", path) == "/" + path
  {
    assert !StartsWith(path, "/") by { assert path[..1] != "/"; }
    var joined := "/" + "/" + path;
    assert joined[1..] == "/" + path;
    assert NoDoubleSlash("/" + path) by {
      var t := "/" + path;
      forall k | 0 <= k < |t| - 1 ensures !(t[k] == '/' && t[k + 1] == '/') {
        if k > 0 {
          assert t[k] == path[k - 1] && t[k + 1] == path[k];
        }
      }
    }
    CollapseSlashesKeeps("/" + path);
  }

  /** For example, `dashboard` below `/` is `/dashboard`. */
  lemma JoinDashboardAtRoot()
    ensures JoinPath("/", "dashboard") == "/dashboard"
  {
    JoinAtRoot("dashboard");
  }

  /** An accumulated prefix the search can produce: empty at the top, otherwise absolute. */
  predicate IsSearchPrefix(parentPath: string) {
    parentPath == "" || parentPath[0] == '/'
  }

  /**
   * The leaf the search settles on for one entry below `parentPath`: none for
   * an invalid entry (its whole subtree is skipped); the first leaf of its
   * children when it has any; otherwise the entry's own full path. An entry
   * whose `children` is `[]` is a leaf.
   */
  function ItemFirst(item: RouteRecord, parentPath: string): (r: Option<string>)
    ensures r.Some? ==> r.value != ""
  {
    if !IsValidMenuItem(item) then None
    else
      var currentPath := JoinPath(parentPath, item.path);
      if HasChildren(item) then FirstLeafPath(item.children.items, currentPath) else Some(currentPath)
  }

  /** The first leaf, in depth-first left-to-right order, of the entries of `data`. */
  function FirstLeafPath(data: seq<RouteRecord>, parentPath: string): (r: Option<string>)
    ensures r.Some? ==> r.value != ""
  {
    if data == [] then None
    else
      match ItemFirst(data[0], parentPath)
      case Some(p) => Some(p)
      case None => FirstLeafPath(data[1..], parentPath)
  }

  /** The home path of a menu: its first leaf's full path, or "" when it has none. */
  function FirstMenuPath(menuList: seq<RouteRecord>): string {
    FirstLeafPath(menuList, "").GetOr("")
  }

  /** The full paths of all leaves the search can reach, in depth-first left-to-right order. */
  function Candidates(data: seq<RouteRecord>, parentPath: string): seq<string> {
    if data == [] then [] else ItemCandidates(data[0], parentPath) + Candidates(data[1..], parentPath)
  }

  function ItemCandidates(item: RouteRecord, parentPath: string): seq<string> {
    if !IsValidMenuItem(item) then []
    else
      var currentPath := JoinPath(parentPath, item.path);
      if HasChildren(item) then Candidates(item.children.items, currentPath) else [currentPath]
  }

  /** The search answers the first of all candidate leaves; later candidates never replace it. */
  lemma {:induction false} FirstLeafIsFirstCandidate(data: seq<RouteRecord>, parentPath: string)
    ensures FirstLeafPath(data, parentPath) ==
      if Candidates(data, parentPath) == [] then None else Some(Candidates(data, parentPath)[0])
  {
    if data != [] {
      ItemFirstIsFirstCandidate(data[0], parentPath);
      FirstLeafIsFirstCandidate(data[1..], parentPath);
    }
  }

  lemma {:induction false} ItemFirstIsFirstCandidate(item: RouteRecord, parentPath: string)
    ensures ItemFirst(item, parentPath) ==
      if ItemCandidates(item, parentPath) == [] then None else Some(ItemCandidates(item, parentPath)[0])
  {
    if IsValidMenuItem(item) && HasChildren(item) {
      FirstLeafIsFirstCandidate(item.children.items, JoinPath(parentPath, item.path));
    }
  }

  /** Every candidate leaf below an empty or absolute prefix has an absolute full path. */
  lemma {:induction false} CandidatesAbsolute(data: seq<RouteRecord>, parentPath: string)
    requires IsSearchPrefix(parentPath)
    ensures forall k :: 0 <= k < |Candidates(data, parentPath)| ==>
      Candidates(data, parentPath)[k] != "" && Candidates(data, parentPath)[k][0] == '/'
  {
    if data != [] {
      ItemCandidatesAbsolute(data[0], parentPath);
      CandidatesAbsolute(data[1..], parentPath);
    }
  }

  lemma {:induction false} ItemCandidatesAbsolute(item: RouteRecord, parentPath: string)
    requires IsSearchPrefix(parentPath)
    ensures forall k :: 0 <= k < |ItemCandidates(item, parentPath)| ==>
      ItemCandidates(item, parentPath)[k] != "" && ItemCandidates(item, parentPath)[k][0] == '/'
  {
    if IsValidMenuItem(item) && HasChildren(item) {
      CandidatesAbsolute(item.children.items, JoinPath(parentPath, item.path));
    }
  }

  /** A home path, when there is one, is absolute. */
  lemma FirstMenuPathAbsolute(menuList: seq<RouteRecord>)
    ensures FirstMenuPath(menuList) != "" ==> FirstMenuPath(menuList)[0] == '/'
  {
    FirstLeafIsFirstCandidate(menuList, "");
    CandidatesAbsolute(menuList, "");
  }

  /** The empty menu has no home path. */
  lemma FirstMenuPathOfEmpty()
    ensures FirstMenuPath([]) == ""
  {
  }

  /** An invalid entry contributes nothing, however many leaves lie below it. */
  lemma InvalidItemSkipped(item: RouteRecord, rest: seq<RouteRecord>, parentPath: string)
    requires !IsValidMenuItem(item)
    ensures ItemCandidates(item, parentPath) == []
    ensures FirstLeafPath([item] + rest, parentPath) == FirstLeafPath(rest, parentPath)
  {
    assert ([item] + rest)[1..] == rest;
  }

  /** A valid entry without children, or with `children: []`, is itself the first leaf. */
  lemma LeafFirst(item: RouteRecord, rest: seq<RouteRecord>, parentPath: string)
    requires IsValidMenuItem(item) && (item.children.Absent? || item.children.items == [])
    ensures FirstLeafPath([item] + rest, parentPath) == Some(JoinPath(parentPath, item.path))
  {
  }

  /** A valid entry with children is never a candidate itself: only its subtree is. */
  lemma BranchNotCandidate(item: RouteRecord, parentPath: string)
    requires IsValidMenuItem(item) && HasChildren(item)
    ensures ItemCandidates(item, parentPath) == Candidates(item.children.items, JoinPath(parentPath, item.path))
  {
  }

  /** The search of a list extended by one entry: the old answer if there was one, else the new entry's. */
  lemma {:induction false} FirstLeafPathSnoc(data: seq<RouteRecord>, item: RouteRecord, parentPath: string)
    ensures FirstLeafPath(data + [item], parentPath) ==
      if FirstLeafPath(data, parentPath).Some? then FirstLeafPath(data, parentPath) else ItemFirst(item, parentPath)
  {
    if data == [] {
      assert [] + [item] == [item];
    } else {
      assert (data + [item])[1..] == data[1..] + [item];
      FirstLeafPathSnoc(data[1..], item, parentPath);
    }
  }

  /**
   * `findPath`: walks `data` like the source's loop, recursing into entries
   * with children; `home` plays the closure's captured `homePath`, which is
   * only set while still empty.
   */
  method FindPath(data: seq<RouteRecord>, parentPath: string, homeIn: string) returns (home: string)
    ensures home == if homeIn != "" then homeIn else FirstLeafPath(data, parentPath).GetOr("")
  {
    home := homeIn;
    var i := 0;
    while i < |data|
      invariant 0 <= i <= |data|
      invariant home == if homeIn != "" then homeIn else FirstLeafPath(data[..i], parentPath).GetOr("")
    {
      var item := data[i];
      FirstLeafPathSnoc(data[..i], item, parentPath);
      assert data[..i + 1] == data[..i] + [item];
      if IsValidMenuItem(item) {
        var currentPath := JoinPath(parentPath, item.path);
        if HasChildren(item) {
          home := FindPath(item.children.items, currentPath, home);
        } else if home == "" {
          home := currentPath;
        }
      }
      i := i + 1;
    }
    assert data[..|data|] == data;
  }

  /** `getFirstMenuPath`: the home path of a menu. */
  method GetFirstMenuPath(menuList: seq<RouteRecord>) returns (homePath: string)
    ensures homePath == FirstMenuPath(menuList)
    ensures homePath == "" <==> Candidates(menuList, "") == []
    ensures homePath != "" ==> homePath == Candidates(menuList, "")[0] && homePath[0] == '/'
  {
    homePath := "";
    homePath := FindPath(menuList, "", homePath);
    FirstLeafIsFirstCandidate(menuList, "");
    FirstMenuPathAbsolute(menuList);
  }

  /** A relative child path that needs no collapsing resolves to `parent/child`. */
  lemma JoinRelative(parentPath: string, path: string)
    requires |path| > 0 && path[0] != '/'
    requires NoDoubleSlash(parentPath + "/" + path)
    ensures JoinPath(parentPath, path) == parentPath + "/" + path
  {
    assert !StartsWith(path, "/") by { assert path[..1] != "/"; }
    CollapseSlashesKeeps(parentPath + "/" + path);
  }
}
