/**
 * The client's hash router (src/lib/router.tsx): the current path and its
 * segments, matching a pattern with `:name` segments against them, and
 * the active test of a navigation link.
 */
module Router {
  import opened Wrappers
  import opened Text

  /** Where the client goes when the hash is empty. */
  const HomePath: string := "/dashboard"

  /** `s.split("/").filter(Boolean)` */
  function Segments(s: string): (parts: seq<string>)
    ensures forall i :: 0 <= i < |parts| ==> parts[i] != "" && '/' !in parts[i]
  {
    var pieces := Split(s, '/');
    var parts := NonEmpty(pieces);
    assert forall i :: 0 <= i < |parts| ==> parts[i] in pieces;
    parts
  }

  /** A path written as `/` followed by its segments joined with `/` has exactly those segments. */
  lemma SegmentsJoin(ps: seq<string>)
    requires forall i :: 0 <= i < |ps| ==> ps[i] != "" && '/' !in ps[i]
    ensures Segments("/" + Join(ps, "/")) == ps
  {
    var s := "/" + Join(ps, "/");
    if ps == [] {
      assert Split(s, '/') == ["", ""];
      NonEmptyAppend([""], [""]);
    } else {
      SplitJoin(ps, '/');
      assert s == [] + ['/'] + Join(ps, "/");
      SplitAtSeparator([], Join(ps, "/"), '/');
      NonEmptyAppend([""], ps);
    }
  }

  datatype Route = Route(path: string, parts: seq<string>)

  /** `getRoute()` for `location.hash` equal to `hash` (the leading `#` included). */
  function GetRoute(hash: string): (r: Route)
    ensures r.path != ""
    ensures |hash| > 1 ==> r.path == hash[1..]
    ensures |hash| <= 1 ==> r.path == HomePath
    ensures r.parts == Segments(r.path)
  {
    var path := if |hash| > 1 then hash[1..] else HomePath;
    Route(path, Segments(path))
  }

  /** A `:name` segment, which binds `name`. */
  predicate IsParam(segment: string) {
    StartsWith(segment, ":")
  }

  /** Every literal segment of the pattern equals the path segment at the same index. */
  predicate Conforms(pattern: seq<string>, parts: seq<string>) {
    |pattern| == |parts| &&
    forall i :: 0 <= i < |pattern| && !IsParam(pattern[i]) ==> pattern[i] == parts[i]
  }

  /** The map built left to right: each `:name` binds `name`, a later binding of the same name winning. */
  function Bindings(pattern: seq<string>, parts: seq<string>): map<string, string>
    requires |pattern| == |parts|
    decreases |pattern|
  {
    if pattern == [] then map[]
    else
      var n := |pattern| - 1;
      var m := Bindings(pattern[..n], parts[..n]);
      if IsParam(pattern[n]) then m[pattern[n][1..] := parts[n]] else m
  }

  /** What `matches` answers for the pattern's and the path's segments. */
  function Match(pattern: seq<string>, parts: seq<string>): Option<map<string, string>> {
    if Conforms(pattern, parts) then Some(Bindings(pattern, parts)) else None
  }

  /** Extending both sequences by one segment extends the bindings by that segment's. */
  lemma BindingsStep(pattern: seq<string>, parts: seq<string>, i: nat)
    requires |pattern| == |parts| && i < |pattern|
    ensures Bindings(pattern[..i + 1], parts[..i + 1]) ==
      var m := Bindings(pattern[..i], parts[..i]);
      if IsParam(pattern[i]) then m[pattern[i][1..] := parts[i]] else m
  {
    assert pattern[..i + 1][..i] == pattern[..i] && parts[..i + 1][..i] == parts[..i];
  }

  /**
   * `route.matches(pattern)`: null on a different number of segments or
   * on the first literal segment that differs; otherwise the bindings.
   */
  method Matches(route: Route, pattern: string) returns (r: Option<map<string, string>>)
    ensures r == Match(Segments(pattern), route.parts)
  {
    r := MatchSegments(Segments(pattern), route.parts);
  }

  /** The loop of `matches`, over the pattern's and the path's segments. */
  method MatchSegments(pattern: seq<string>, parts: seq<string>) returns (r: Option<map<string, string>>)
    ensures r == Match(pattern, parts)
  {
    if |pattern| != |parts| {
      return None;
    }
    var params: map<string, string> := map[];
    for i := 0 to |pattern|
      invariant params == Bindings(pattern[..i], parts[..i])
      invariant forall j :: 0 <= j < i && !IsParam(pattern[j]) ==> pattern[j] == parts[j]
    {
      BindingsStep(pattern, parts, i);
      if IsParam(pattern[i]) {
        params := params[pattern[i][1..] := parts[i]];
      } else if pattern[i] != parts[i] {
        return None;
      }
    }
    assert pattern[..|pattern|] == pattern && parts[..|parts|] == parts;
    r := Some(params);
  }

  /** Position `i` holds a `:name` segment whose name no later segment binds again. */
  predicate LastBinder(pattern: seq<string>, i: int) {
    0 <= i < |pattern| && IsParam(pattern[i]) &&
    forall j :: i < j < |pattern| && IsParam(pattern[j]) ==> pattern[j][1..] != pattern[i][1..]
  }

  /** The bindings hold exactly the names of the pattern's `:name` segments. */
  lemma {:induction false} BindingsKeys(pattern: seq<string>, parts: seq<string>)
    requires |pattern| == |parts|
    ensures forall name :: name in Bindings(pattern, parts) <==>
      exists i :: 0 <= i < |pattern| && IsParam(pattern[i]) && pattern[i][1..] == name
  {
    if pattern != [] {
      var n := |pattern| - 1;
      var p, q := pattern[..n], parts[..n];
      BindingsKeys(p, q);
      var m0, m := Bindings(p, q), Bindings(pattern, parts);
      forall name
        ensures name in m <==> exists i :: 0 <= i < |pattern| && IsParam(pattern[i]) && pattern[i][1..] == name
      {
        if name in m {
          if IsParam(pattern[n]) && pattern[n][1..] == name {
            assert IsParam(pattern[n]) && pattern[n][1..] == name;
          } else {
            assert name in m0;
            var i :| 0 <= i < |p| && IsParam(p[i]) && p[i][1..] == name;
            assert pattern[i] == p[i];
          }
        }
        if exists i :: 0 <= i < |pattern| && IsParam(pattern[i]) && pattern[i][1..] == name {
          var i :| 0 <= i < |pattern| && IsParam(pattern[i]) && pattern[i][1..] == name;
          if i < n {
            assert p[i] == pattern[i];
            assert name in m0;
          }
        }
      }
    }
  }

  /** Each name is bound to the path segment under its last occurrence in the pattern. */
  lemma {:induction false} BindingsValues(pattern: seq<string>, parts: seq<string>)
    requires |pattern| == |parts|
    ensures forall i :: LastBinder(pattern, i) ==>
      pattern[i][1..] in Bindings(pattern, parts) && Bindings(pattern, parts)[pattern[i][1..]] == parts[i]
  {
    if pattern != [] {
      var n := |pattern| - 1;
      var p, q := pattern[..n], parts[..n];
      BindingsValues(p, q);
      var m0, m := Bindings(p, q), Bindings(pattern, parts);
      forall i | LastBinder(pattern, i)
        ensures pattern[i][1..] in m && m[pattern[i][1..]] == parts[i]
      {
        if i < n {
          assert p[i] == pattern[i] && q[i] == parts[i];
          assert forall j :: i < j < n ==> p[j] == pattern[j];
          assert LastBinder(p, i);
        }
      }
    }
  }

  /** A pattern without `:name` segments matches only the same segments, and then with no bindings. */
  lemma {:induction false} LiteralPattern(pattern: seq<string>, parts: seq<string>)
    requires forall i :: 0 <= i < |pattern| ==> !IsParam(pattern[i])
    ensures Match(pattern, parts).Some? <==> pattern == parts
    ensures Match(pattern, parts).Some? ==> Match(pattern, parts).value == map[]
  {
    if |pattern| == |parts| {
      BindingsKeys(pattern, parts);
      var m := Bindings(pattern, parts);
      assert forall name :: name !in m;
      assert m == map[];
    }
  }

  /** `route.path === href || route.path.startsWith(href + "/")` */
  predicate IsActive(path: string, href: string) {
    path == href || StartsWith(path, href + "/")
  }

  /** A link is active on its own page and on every page below it. */
  lemma ActiveBelow(href: string, rest: string)
    ensures IsActive(href, href)
    ensures IsActive(href + "/" + rest, href)
  {
    assert (href + "/") <= (href + "/" + rest);
  }

  /** A link is not active on a sibling page whose name merely extends its own. */
  lemma InactiveOnSibling(href: string, c: char, rest: string)
    requires c != '/'
    ensures !IsActive(href + [c] + rest, href)
  {
    var path := href + [c] + rest;
    assert path[|href|] == c != (href + "/")[|href|];
  }
}
