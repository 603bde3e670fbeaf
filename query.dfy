/**
 * What the read queries compute: the rows a WHERE clause selects, each
 * once, in `ORDER BY createdAt DESC` order, cut by `LIMIT ? OFFSET ?`.
 * Rows with equal timestamps may come in any order, as in SQL.
 */
module Query {
  import opened Records

  predicate Distinct<T(==)>(s: seq<T>) {
    forall i, j :: 0 <= i < j < |s| ==> s[i] != s[j]
  }

  /** `ids` lists every member of `selected` exactly once and nothing else. */
  ghost predicate Enumerates(ids: seq<Id>, selected: set<Id>) {
    && Distinct(ids)
    && (forall i :: 0 <= i < |ids| ==> ids[i] in selected)
    && (forall k :: k in selected ==> k in ids)
  }

  /** `ids` is in non-increasing order of their timestamps. */
  ghost predicate NewestFirst(ids: seq<Id>, stamp: map<Id, Timestamp>) {
    && (forall i :: 0 <= i < |ids| ==> ids[i] in stamp)
    && (forall i, j :: 0 <= i < j < |ids| ==> stamp[ids[i]] >= stamp[ids[j]])
  }

  /** A result of `SELECT ... WHERE <selected> ORDER BY createdAt DESC`, as ids. */
  ghost predicate IsNewestFirstListing(ids: seq<Id>, selected: set<Id>, stamp: map<Id, Timestamp>) {
    Enumerates(ids, selected) && NewestFirst(ids, stamp)
  }

  /** Puts `k` in front of the first id that is strictly older than it. */
  function InsertNewestFirst(ids: seq<Id>, k: Id, stamp: map<Id, Timestamp>): (r: seq<Id>)
    requires k in stamp && NewestFirst(ids, stamp)
    ensures NewestFirst(r, stamp)
    ensures |r| == |ids| + 1
    ensures forall x :: x in r <==> x in ids || x == k
    ensures Distinct(ids) && k !in ids ==> Distinct(r)
  {
    if ids == [] || stamp[k] >= stamp[ids[0]] then [k] + ids
    else
      var tail := InsertNewestFirst(ids[1..], k, stamp);
      assert forall i :: 0 <= i < |ids| - 1 ==> ids[1..][i] == ids[i + 1];
      assert forall x :: x in tail ==> x in stamp && stamp[ids[0]] >= stamp[x];
      assert Distinct(ids) && k !in ids ==> ids[0] !in tail;
      [ids[0]] + tail
  }

  /** Orders the selected ids newest first (the sort behind ORDER BY). */
  method OrderNewestFirst(selected: set<Id>, stamp: map<Id, Timestamp>) returns (ids: seq<Id>)
    requires selected <= stamp.Keys
    ensures IsNewestFirstListing(ids, selected, stamp)
  {
    ids := [];
    var rest := selected;
    while rest != {}
      invariant rest <= selected
      invariant Enumerates(ids, selected - rest) && NewestFirst(ids, stamp)
      decreases rest
    {
      var k :| k in rest;
      var next := InsertNewestFirst(ids, k, stamp);
      assert forall i :: 0 <= i < |next| ==> next[i] in next;
      ids, rest := next, rest - {k};
    }
  }

  /** The rows behind a list of ids, in the same order. */
  function Rows<T>(ids: seq<Id>, table: map<Id, T>): (rows: seq<T>)
    requires forall i :: 0 <= i < |ids| ==> ids[i] in table
    ensures |rows| == |ids|
    ensures forall i :: 0 <= i < |ids| ==> rows[i] == table[ids[i]]
  {
    seq(|ids|, i requires 0 <= i < |ids| => table[ids[i]])
  }

  /** SQLite's effective offset: a negative OFFSET counts as zero. */
  function Skip(offset: int): nat {
    if offset < 0 then 0 else offset
  }

  /**
   * `LIMIT limit OFFSET offset` in SQLite: skip `offset` rows, then keep at
   * most `limit` of them; a negative limit keeps them all.
   */
  function Window<T>(rows: seq<T>, limit: int, offset: int): (r: seq<T>)
    ensures |r| <= |rows| && (limit >= 0 ==> |r| <= limit)
    ensures forall i :: 0 <= i < |r| ==> Skip(offset) + i < |rows| && r[i] == rows[Skip(offset) + i]
    ensures Skip(offset) < |rows| && limit != 0 ==> r != []
    ensures var remaining := if Skip(offset) < |rows| then |rows| - Skip(offset) else 0;
      |r| == if limit < 0 || limit >= remaining then remaining else limit
  {
    var from := if Skip(offset) < |rows| then rows[Skip(offset)..] else [];
    if limit < 0 || limit >= |from| then from else from[..limit]
  }

  /** Two consecutive pages of size `limit` together form the page of size `2 * limit`. */
  lemma ConsecutivePages<T>(rows: seq<T>, limit: nat, offset: nat)
    ensures Window(rows, limit, offset) + Window(rows, limit, offset + limit)
         == Window(rows, 2 * limit, offset)
  {
    var a, b, c := Window(rows, limit, offset), Window(rows, limit, offset + limit), Window(rows, 2 * limit, offset);
    var n := |rows|;
    if offset >= n {
    } else if offset + limit >= n {
      assert b == [];
      assert a == rows[offset..];
      assert c == rows[offset..];
    } else {
      assert a == rows[offset..offset + limit];
      if offset + 2 * limit <= n {
        assert b == rows[offset + limit..offset + 2 * limit];
        assert c == rows[offset..offset + 2 * limit];
      } else {
        assert b == rows[offset + limit..];
        assert c == rows[offset..];
      }
      assert a + b == c;
    }
  }

  /** A distinct listing of a set has as many entries as the set has members. */
  lemma {:induction false} EnumeratesCount(ids: seq<Id>, selected: set<Id>)
    requires Enumerates(ids, selected)
    ensures |ids| == |selected|
  {
    if ids == [] {
      assert forall k :: k !in selected;
      assert selected == {};
    } else {
      var n := |ids| - 1;
      var last, init := ids[n], ids[..n];
      assert forall i :: 0 <= i < n ==> init[i] == ids[i] && init[i] != last;
      forall k | k in selected - {last} ensures k in init {
        var i :| 0 <= i < |ids| && ids[i] == k;
        assert i != n;
      }
      EnumeratesCount(init, selected - {last});
    }
  }

  // ----- what the listing handlers answer -----

  /** The ids of the rows of `table` that `keep` admits: a `WHERE` clause over one table. */
  function Where<T>(table: map<Id, T>, keep: T -> bool): (s: set<Id>)
    ensures s <= table.Keys
    ensures forall k :: k in s <==> k in table && keep(table[k])
  {
    set k | k in table && keep(table[k])
  }

  /** `SELECT id FROM project WHERE id = ? AND userId = ?` finds a row. */
  predicate OwnsProject(projects: map<Id, Project>, id: Id, user: UserId) {
    id in projects && projects[id].userId == user
  }

  /** `SELECT ... FROM channel WHERE id = ? AND userId = ?` finds a row. */
  predicate OwnsChannel(channels: map<Id, Channel>, id: Id, user: UserId) {
    id in channels && channels[id].userId == user
  }

  /** The `createdAt` column of a table. */
  function Stamps<T>(table: map<Id, T>, at: T -> Timestamp): (s: map<Id, Timestamp>)
    ensures s.Keys == table.Keys
    ensures forall k :: k in table ==> s[k] == at(table[k])
  {
    map k | k in table :: at(table[k])
  }

  /** `rows` is `SELECT * ... WHERE <selected> ORDER BY createdAt DESC` over `table`. */
  ghost predicate IsListing<T>(rows: seq<T>, table: map<Id, T>, selected: set<Id>, at: T -> Timestamp)
    requires selected <= table.Keys
  {
    exists ids :: IsNewestFirstListing(ids, selected, Stamps(table, at)) && rows == Rows(ids, table)
  }

  /** A listing holds each selected row once, nothing else, newest first. */
  lemma ListingContents<T>(rows: seq<T>, table: map<Id, T>, selected: set<Id>, at: T -> Timestamp)
    requires selected <= table.Keys && IsListing(rows, table, selected, at)
    ensures |rows| == |selected|
    ensures forall i :: 0 <= i < |rows| ==> exists k :: k in selected && rows[i] == table[k]
    ensures forall k :: k in selected ==> table[k] in rows
    ensures forall i, j :: 0 <= i < j < |rows| ==> at(rows[i]) >= at(rows[j])
  {
    var ids :| IsNewestFirstListing(ids, selected, Stamps(table, at)) && rows == Rows(ids, table);
    EnumeratesCount(ids, selected);
    forall i | 0 <= i < |rows| ensures exists k :: k in selected && rows[i] == table[k] {
      assert rows[i] == table[ids[i]];
    }
    forall k | k in selected ensures table[k] in rows {
      var i :| 0 <= i < |ids| && ids[i] == k;
      assert rows[i] == table[k];
    }
  }

  /** Runs the query: the selected rows, newest first. */
  method ListNewestFirst<T>(table: map<Id, T>, selected: set<Id>, at: T -> Timestamp) returns (rows: seq<T>)
    requires selected <= table.Keys
    ensures IsListing(rows, table, selected, at)
  {
    var ids := OrderNewestFirst(selected, Stamps(table, at));
    rows := Rows(ids, table);
  }

  /** `limit` and `offset` when the query string leaves them out. */
  const DefaultLimit: int := 50
  const DefaultOffset: int := 0

  /** `page` is the listing of the selection cut by `LIMIT limit OFFSET offset`. */
  ghost predicate IsWindow<T(!new)>(page: seq<T>, table: map<Id, T>, selected: set<Id>, at: T -> Timestamp, limit: int, offset: int)
    requires selected <= table.Keys
  {
    exists all :: IsListing(all, table, selected, at) && page == Window(all, limit, offset)
  }

  /** `page` is a window of the listing, and `total` is `SELECT COUNT(*)` over the same selection. */
  ghost predicate IsPage<T(!new)>(page: seq<T>, total: nat, table: map<Id, T>, selected: set<Id>, at: T -> Timestamp, limit: int, offset: int)
    requires selected <= table.Keys
  {
    total == |selected| && IsWindow(page, table, selected, at, limit, offset)
  }

  /** A page holds at most `limit` selected rows, newest first, and `total` counts the whole selection. */
  lemma PageContents<T(!new)>(page: seq<T>, total: nat, table: map<Id, T>, selected: set<Id>, at: T -> Timestamp, limit: int, offset: int)
    requires selected <= table.Keys && IsPage(page, total, table, selected, at, limit, offset)
    ensures |page| <= total && (limit >= 0 ==> |page| <= limit)
    ensures Skip(offset) < total && limit != 0 ==> page != []
    ensures forall i :: 0 <= i < |page| ==> exists k :: k in selected && page[i] == table[k]
    ensures forall i, j :: 0 <= i < j < |page| ==> at(page[i]) >= at(page[j])
  {
    var all :| IsListing(all, table, selected, at) && page == Window(all, limit, offset);
    ListingContents(all, table, selected, at);
    forall i | 0 <= i < |page| ensures exists k :: k in selected && page[i] == table[k] {
      assert page[i] == all[Skip(offset) + i];
    }
    forall i, j | 0 <= i < j < |page| ensures at(page[i]) >= at(page[j]) {
      assert page[i] == all[Skip(offset) + i] && page[j] == all[Skip(offset) + j];
    }
  }

  /** Runs the page query and the count. */
  method PageNewestFirst<T(!new)>(table: map<Id, T>, selected: set<Id>, at: T -> Timestamp, limit: int, offset: int)
      returns (page: seq<T>, total: nat)
    requires selected <= table.Keys
    ensures IsPage(page, total, table, selected, at, limit, offset)
  {
    var all := ListNewestFirst(table, selected, at);
    page, total := Window(all, limit, offset), |selected|;
  }
}
