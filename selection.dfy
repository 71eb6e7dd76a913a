/** Which rows of the `paths` table a `PathQuery` selects, the WHERE clause
    the engine builds for it, and the three ways the selected paths are
    grouped by (frame, atom_id): by the SQL engine for one query, by the SQL
    engine for a UNION of queries, and in memory for a flat list of ids. */
module Selection {
  import opened ChiTypes

  // ---------------------------------------------------------------------------
  // Query semantics
  // ---------------------------------------------------------------------------

  /** `if query.path_types:` -- a list filter applies only when it is present and non-empty. */
  predicate Restricts<T>(filter: Option<seq<T>>) {
    filter.Some? && |filter.value| > 0
  }

  /** A row matches a query when every condition the query sets holds of it. */
  predicate Matches(q: PathQuery, row: PathRow) {
    && (Restricts(q.pathTypes) ==> row.pathType in q.pathTypes.value)
    && (q.minReff.Some? ==> row.reff >= q.minReff.value)
    && (q.maxReff.Some? ==> row.reff <= q.maxReff.value)
    && (Restricts(q.frames) ==> row.frame in q.frames.value)
    && (Restricts(q.atomIds) ==> row.atomId in q.atomIds.value)
    && (q.nleg.Some? ==> row.nleg == q.nleg.value)
  }

  /** A row matches at least one of several queries (the rows of their UNION). */
  predicate AnyMatches(qs: seq<PathQuery>, row: PathRow) {
    exists i :: 0 <= i < |qs| && Matches(qs[i], row)
  }

  /** One `AND` term of the generated WHERE clause. */
  datatype Condition =
    | PathTypeIn(types: seq<string>)
    | ReffAtLeast(minReff: real)
    | ReffAtMost(maxReff: real)
    | FrameIn(frames: seq<int>)
    | AtomIdIn(atomIds: seq<int>)
    | NlegEquals(nleg: int)

  /** What SQLite evaluates for one term. */
  predicate Holds(c: Condition, row: PathRow) {
    match c
    case PathTypeIn(types) => row.pathType in types
    case ReffAtLeast(bound) => row.reff >= bound
    case ReffAtMost(bound) => row.reff <= bound
    case FrameIn(frames) => row.frame in frames
    case AtomIdIn(atomIds) => row.atomId in atomIds
    case NlegEquals(n) => row.nleg == n
  }

  /** `WHERE 1=1 AND c1 AND c2 ...` */
  predicate HoldsAll(conds: seq<Condition>, row: PathRow) {
    forall i :: 0 <= i < |conds| ==> Holds(conds[i], row)
  }

  lemma HoldsAllAppend(conds: seq<Condition>, c: Condition, row: PathRow)
    ensures HoldsAll(conds + [c], row) <==> HoldsAll(conds, row) && Holds(c, row)
  {
    var all := conds + [c];
    assert all[|conds|] == c;
    assert forall i :: 0 <= i < |conds| ==> all[i] == conds[i];
  }

  /** Builds the WHERE clause of a query term by term, skipping every unset field;
      the clause selects exactly the rows the query matches. */
  method WhereClause(q: PathQuery) returns (conds: seq<Condition>)
    ensures forall row :: HoldsAll(conds, row) <==> Matches(q, row)
  {
    conds := [];
    ghost var c0 := conds;
    if Restricts(q.pathTypes) {
      conds := conds + [PathTypeIn(q.pathTypes.value)];
    }
    ghost var c1 := conds;
    if q.minReff.Some? {
      conds := conds + [ReffAtLeast(q.minReff.value)];
    }
    ghost var c2 := conds;
    if q.maxReff.Some? {
      conds := conds + [ReffAtMost(q.maxReff.value)];
    }
    ghost var c3 := conds;
    if Restricts(q.frames) {
      conds := conds + [FrameIn(q.frames.value)];
    }
    ghost var c4 := conds;
    if Restricts(q.atomIds) {
      conds := conds + [AtomIdIn(q.atomIds.value)];
    }
    ghost var c5 := conds;
    if q.nleg.Some? {
      conds := conds + [NlegEquals(q.nleg.value)];
    }
    forall row ensures HoldsAll(conds, row) <==> Matches(q, row) {
      if Restricts(q.pathTypes) { HoldsAllAppend(c0, PathTypeIn(q.pathTypes.value), row); }
      if q.minReff.Some? { HoldsAllAppend(c1, ReffAtLeast(q.minReff.value), row); }
      if q.maxReff.Some? { HoldsAllAppend(c2, ReffAtMost(q.maxReff.value), row); }
      if Restricts(q.frames) { HoldsAllAppend(c3, FrameIn(q.frames.value), row); }
      if Restricts(q.atomIds) { HoldsAllAppend(c4, AtomIdIn(q.atomIds.value), row); }
      if q.nleg.Some? { HoldsAllAppend(c5, NlegEquals(q.nleg.value), row); }
    }
  }

  // ---------------------------------------------------------------------------
  // Selected rows (table order stands in for SQLite's unspecified row order)
  // ---------------------------------------------------------------------------

  /** The rows `SELECT ... WHERE (parts[0]) UNION ... UNION (parts[n-1])` returns
      (with one part, the rows of a single WHERE clause); each table row at most once. */
  function Select(paths: seq<PathRow>, parts: seq<seq<Condition>>): seq<PathRow> {
    if |paths| == 0 then []
    else
      var row := paths[|paths| - 1];
      Select(paths[..|paths| - 1], parts)
        + (if exists i :: 0 <= i < |parts| && HoldsAll(parts[i], row) then [row] else [])
  }

  /** The rows that match at least one query. */
  function MatchingAny(paths: seq<PathRow>, qs: seq<PathQuery>): seq<PathRow> {
    if |paths| == 0 then []
    else
      var row := paths[|paths| - 1];
      MatchingAny(paths[..|paths| - 1], qs) + (if AnyMatches(qs, row) then [row] else [])
  }

  /** The rows one query matches: a UNION of that query alone. */
  function MatchingRows(paths: seq<PathRow>, q: PathQuery): seq<PathRow> {
    MatchingAny(paths, [q])
  }

  /** `[p['id'] for p in paths]` */
  function IdsOf(rows: seq<PathRow>): (ids: seq<nat>)
    ensures |ids| == |rows|
    ensures forall i :: 0 <= i < |rows| ==> ids[i] == rows[i].id
  {
    seq(|rows|, i requires 0 <= i < |rows| => rows[i].id)
  }

  lemma MatchingRowsMembers(paths: seq<PathRow>, q: PathQuery, row: PathRow)
    ensures row in MatchingRows(paths, q) <==> row in paths && Matches(q, row)
  {
    MatchingAnyMembers(paths, [q], row);
    assert AnyMatches([q], row) <==> Matches(q, row) by {
      if Matches(q, row) { assert Matches([q][0], row); }
    }
  }

  lemma {:induction false} MatchingAnyMembers(paths: seq<PathRow>, qs: seq<PathQuery>, row: PathRow)
    ensures row in MatchingAny(paths, qs) <==> row in paths && AnyMatches(qs, row)
  {
    if |paths| > 0 {
      MatchingAnyMembers(paths[..|paths| - 1], qs, row);
      assert paths == paths[..|paths| - 1] + [paths[|paths| - 1]];
    }
  }

  /** The SQL built from the queries selects what the queries mean. */
  lemma {:induction false} SelectAgrees(paths: seq<PathRow>, parts: seq<seq<Condition>>, qs: seq<PathQuery>)
    requires |parts| == |qs|
    requires forall i, row :: 0 <= i < |qs| ==> (HoldsAll(parts[i], row) <==> Matches(qs[i], row))
    ensures Select(paths, parts) == MatchingAny(paths, qs)
  {
    if |paths| > 0 {
      SelectAgrees(paths[..|paths| - 1], parts, qs);
      var row := paths[|paths| - 1];
      if exists i :: 0 <= i < |parts| && HoldsAll(parts[i], row) {
        var i :| 0 <= i < |parts| && HoldsAll(parts[i], row);
        assert Matches(qs[i], row);
      }
      if AnyMatches(qs, row) {
        var i :| 0 <= i < |qs| && Matches(qs[i], row);
        assert HoldsAll(parts[i], row);
      }
    }
  }

  /** A sub-list of a table keeps its ids unique. */
  lemma {:induction false} MatchingAnyUnique(paths: seq<PathRow>, qs: seq<PathQuery>)
    requires UniqueIds(paths)
    ensures UniqueIds(MatchingAny(paths, qs))
  {
    if |paths| > 0 {
      var pre := paths[..|paths| - 1];
      var row := paths[|paths| - 1];
      MatchingAnyUnique(pre, qs);
      var sel := MatchingAny(pre, qs);
      forall r | r in sel ensures r.id != row.id {
        MatchingAnyMembers(pre, qs, r);
        var i :| 0 <= i < |pre| && pre[i] == r;
        assert paths[i] == r;
      }
    }
  }

  // ---------------------------------------------------------------------------
  // Grouping done by SQLite: GROUP BY p.frame, p.atom_id with GROUP_CONCAT(p.id)
  // ---------------------------------------------------------------------------

  /** The groups `GROUP BY frame, atom_id` produces. */
  function RowKeys(rows: seq<PathRow>): set<GroupKey> {
    if |rows| == 0 then {} else RowKeys(rows[..|rows| - 1]) + {rows[|rows| - 1].Key()}
  }

  /** The ids one group collects, in row order. */
  function IdsWithKey(rows: seq<PathRow>, k: GroupKey): seq<nat> {
    if |rows| == 0 then []
    else
      var row := rows[|rows| - 1];
      IdsWithKey(rows[..|rows| - 1], k) + (if row.Key() == k then [row.id] else [])
  }

  /** One entry per (frame, atom_id) group of the selected rows, holding the group's ids. */
  function GroupRows(rows: seq<PathRow>): map<GroupKey, seq<nat>> {
    map k | k in RowKeys(rows) :: IdsWithKey(rows, k)
  }

  /** The groups of the single-query variant. */
  function QueryGroups(paths: seq<PathRow>, q: PathQuery): map<GroupKey, seq<nat>> {
    GroupRows(MatchingRows(paths, q))
  }

  /** The groups of the UNION variant. */
  function UnionGroups(paths: seq<PathRow>, qs: seq<PathQuery>): map<GroupKey, seq<nat>> {
    GroupRows(MatchingAny(paths, qs))
  }

  ghost predicate InGroup(groups: map<GroupKey, seq<nat>>, k: GroupKey, x: nat) {
    k in groups && x in groups[k]
  }

  lemma {:induction false} RowKeysMembers(rows: seq<PathRow>, k: GroupKey)
    ensures k in RowKeys(rows) <==> exists r :: r in rows && r.Key() == k
  {
    if |rows| > 0 {
      var pre := rows[..|rows| - 1];
      RowKeysMembers(pre, k);
      assert rows == pre + [rows[|rows| - 1]];
    }
  }

  lemma {:induction false} IdsWithKeyMembers(rows: seq<PathRow>, k: GroupKey, x: nat)
    ensures x in IdsWithKey(rows, k) <==> exists r :: r in rows && r.id == x && r.Key() == k
  {
    if |rows| > 0 {
      var pre := rows[..|rows| - 1];
      IdsWithKeyMembers(pre, k, x);
      assert rows == pre + [rows[|rows| - 1]];
    }
  }

  /** A path id is in group `k` exactly when some selected row with that id belongs to atom `k`. */
  lemma GroupRowsMembers(rows: seq<PathRow>, k: GroupKey, x: nat)
    ensures InGroup(GroupRows(rows), k, x) <==> exists r :: r in rows && r.id == x && r.Key() == k
  {
    RowKeysMembers(rows, k);
    IdsWithKeyMembers(rows, k, x);
  }

  /** Every group SQLite returns is non-empty, so its GROUP_CONCAT text is not empty. */
  lemma {:induction false} GroupRowsNonEmpty(rows: seq<PathRow>, k: GroupKey)
    requires k in RowKeys(rows)
    ensures |IdsWithKey(rows, k)| > 0
  {
    var pre := rows[..|rows| - 1];
    if rows[|rows| - 1].Key() != k {
      GroupRowsNonEmpty(pre, k);
    }
  }

  /** Rows with unique ids give each group a list without repeats. */
  lemma {:induction false} IdsWithKeyDistinct(rows: seq<PathRow>, k: GroupKey)
    requires UniqueIds(rows)
    ensures Distinct(IdsWithKey(rows, k))
  {
    if |rows| > 0 {
      var pre := rows[..|rows| - 1];
      var row := rows[|rows| - 1];
      IdsWithKeyDistinct(pre, k);
      if row.Key() == k {
        var ids := IdsWithKey(pre, k);
        forall x | x in ids ensures x != row.id {
          IdsWithKeyMembers(pre, k, x);
          var r :| r in pre && r.id == x && r.Key() == k;
          var i :| 0 <= i < |pre| && pre[i] == r;
          assert rows[i] == r;
        }
        var all := ids + [row.id];
        forall i, j | 0 <= i < j < |all| ensures all[i] != all[j] {
          if j == |ids| {
            assert all[i] in ids;
          }
        }
      }
    }
  }

  /** UNION removes duplicates: a path matched by several queries is listed once in its group. */
  lemma UnionGroupsDistinct(paths: seq<PathRow>, qs: seq<PathQuery>, k: GroupKey)
    requires UniqueIds(paths) && k in UnionGroups(paths, qs)
    ensures Distinct(UnionGroups(paths, qs)[k])
  {
    MatchingAnyUnique(paths, qs);
    IdsWithKeyDistinct(MatchingAny(paths, qs), k);
  }

  /** The UNION variant's groups are the groups of the union of the individual match sets:
      a path is in group `k` exactly when one of the queries puts it there. */
  lemma UnionGroupsMembers(paths: seq<PathRow>, qs: seq<PathQuery>, k: GroupKey, x: nat)
    ensures InGroup(UnionGroups(paths, qs), k, x)
        <==> exists i :: 0 <= i < |qs| && InGroup(QueryGroups(paths, qs[i]), k, x)
  {
    var all := MatchingAny(paths, qs);
    GroupRowsMembers(all, k, x);
    if InGroup(UnionGroups(paths, qs), k, x) {
      var r :| r in all && r.id == x && r.Key() == k;
      MatchingAnyMembers(paths, qs, r);
      var i :| 0 <= i < |qs| && Matches(qs[i], r);
      MatchingRowsMembers(paths, qs[i], r);
      GroupRowsMembers(MatchingRows(paths, qs[i]), k, x);
    }
    if exists i :: 0 <= i < |qs| && InGroup(QueryGroups(paths, qs[i]), k, x) {
      var i :| 0 <= i < |qs| && InGroup(QueryGroups(paths, qs[i]), k, x);
      GroupRowsMembers(MatchingRows(paths, qs[i]), k, x);
      var r :| r in MatchingRows(paths, qs[i]) && r.id == x && r.Key() == k;
      MatchingRowsMembers(paths, qs[i], r);
      MatchingAnyMembers(paths, qs, r);
    }
  }

  /** With a single query, the UNION variant groups exactly as the single-query variant. */
  lemma UnionOfOneIsQuery(paths: seq<PathRow>, q: PathQuery)
    ensures UnionGroups(paths, [q]) == QueryGroups(paths, q)
  {
  }

  // ---------------------------------------------------------------------------
  // Grouping done in memory for a flat id list
  // ---------------------------------------------------------------------------

  /** `path_info[id]` after scanning the rows of `SELECT id, frame, atom_id ... WHERE id IN (...)`:
      the key of the last row carrying the id. */
  function LastKey(paths: seq<PathRow>, id: nat): Option<GroupKey> {
    if |paths| == 0 then None
    else if paths[|paths| - 1].id == id then Some(paths[|paths| - 1].Key())
    else LastKey(paths[..|paths| - 1], id)
  }

  /** `path_info`: the (frame, atom_id) of every requested id that has a row. */
  function PathKeys(paths: seq<PathRow>, ids: seq<nat>): map<nat, GroupKey> {
    map id | id in ids && LastKey(paths, id).Some? :: LastKey(paths, id).value
  }

  /** The keys of `atom_groups` after appending every id of `ids` that has a key. */
  function KeysOf(ids: seq<nat>, info: map<nat, GroupKey>): set<GroupKey> {
    if |ids| == 0 then {}
    else
      var id := ids[|ids| - 1];
      KeysOf(ids[..|ids| - 1], info) + (if id in info then {info[id]} else {})
  }

  /** `atom_groups[k]`: the ids of `ids` keyed `k`, in input order, repeats kept. */
  function Members(ids: seq<nat>, info: map<nat, GroupKey>, k: GroupKey): seq<nat> {
    if |ids| == 0 then []
    else
      var id := ids[|ids| - 1];
      Members(ids[..|ids| - 1], info, k) + (if id in info && info[id] == k then [id] else [])
  }

  function GroupByKey(ids: seq<nat>, info: map<nat, GroupKey>): map<GroupKey, seq<nat>> {
    map k | k in KeysOf(ids, info) :: Members(ids, info, k)
  }

  /** The groups of the flat-id variant. */
  function FlatGroups(paths: seq<PathRow>, ids: seq<nat>): map<GroupKey, seq<nat>> {
    GroupByKey(ids, PathKeys(paths, ids))
  }

  /** With unique ids, the lookup finds the key of the one row carrying the id. */
  lemma {:induction false} LastKeyOfRow(paths: seq<PathRow>, i: nat)
    requires UniqueIds(paths) && i < |paths|
    ensures LastKey(paths, paths[i].id) == Some(paths[i].Key())
  {
    if i < |paths| - 1 {
      LastKeyOfRow(paths[..|paths| - 1], i);
    }
  }

  /** The lookup finds nothing exactly when no row carries the id. */
  lemma {:induction false} LastKeyFound(paths: seq<PathRow>, id: nat)
    ensures LastKey(paths, id).Some? <==> exists i :: 0 <= i < |paths| && paths[i].id == id
  {
    if |paths| > 0 {
      var pre := paths[..|paths| - 1];
      LastKeyFound(pre, id);
      if exists i :: 0 <= i < |paths| && paths[i].id == id {
        var i :| 0 <= i < |paths| && paths[i].id == id;
        if i < |paths| - 1 {
          assert pre[i].id == id;
        }
      }
    }
  }

  lemma {:induction false} MembersSpec(ids: seq<nat>, info: map<nat, GroupKey>, k: GroupKey, x: nat)
    ensures x in Members(ids, info, k) <==> x in ids && x in info && info[x] == k
  {
    if |ids| > 0 {
      MembersSpec(ids[..|ids| - 1], info, k, x);
      assert ids == ids[..|ids| - 1] + [ids[|ids| - 1]];
    }
  }

  lemma {:induction false} KeysOfSpec(ids: seq<nat>, info: map<nat, GroupKey>, k: GroupKey)
    ensures k in KeysOf(ids, info) <==> |Members(ids, info, k)| > 0
  {
    if |ids| > 0 {
      KeysOfSpec(ids[..|ids| - 1], info, k);
    }
  }

  /** Grouping keeps the input order: the group of a concatenation is the group of the
      first part followed by the group of the second. */
  lemma {:induction false} MembersAppend(ids: seq<nat>, more: seq<nat>, info: map<nat, GroupKey>, k: GroupKey)
    ensures Members(ids + more, info, k) == Members(ids, info, k) + Members(more, info, k)
  {
    if |more| == 0 {
      assert ids + more == ids;
    } else {
      var all := ids + more;
      var last := more[|more| - 1];
      assert all[..|all| - 1] == ids + more[..|more| - 1];
      assert all[|all| - 1] == last;
      MembersAppend(ids, more[..|more| - 1], info, k);
    }
  }

  /** The flat variant puts every requested id that has a row into the group of that row's
      (frame, atom_id) and into no other group; ids without a row are dropped. */
  lemma FlatGroupsPlacement(paths: seq<PathRow>, ids: seq<nat>, k: GroupKey, x: nat)
    requires UniqueIds(paths)
    ensures InGroup(FlatGroups(paths, ids), k, x)
        <==> x in ids && exists i :: 0 <= i < |paths| && paths[i].id == x && paths[i].Key() == k
  {
    var info := PathKeys(paths, ids);
    MembersSpec(ids, info, k, x);
    KeysOfSpec(ids, info, k);
    LastKeyFound(paths, x);
    if x in ids && exists i :: 0 <= i < |paths| && paths[i].id == x && paths[i].Key() == k {
      var i :| 0 <= i < |paths| && paths[i].id == x && paths[i].Key() == k;
      LastKeyOfRow(paths, i);
    }
    if InGroup(FlatGroups(paths, ids), k, x) {
      var i :| 0 <= i < |paths| && paths[i].id == x;
      LastKeyOfRow(paths, i);
    }
  }

  /** Grouping the ids of some rows through a lookup that knows every row's key gives the
      groups SQLite forms from the rows themselves. */
  lemma {:induction false} GroupByKeyOfRows(rows: seq<PathRow>, info: map<nat, GroupKey>, k: GroupKey)
    requires forall i :: 0 <= i < |rows| ==> rows[i].id in info && info[rows[i].id] == rows[i].Key()
    ensures Members(IdsOf(rows), info, k) == IdsWithKey(rows, k)
    ensures k in KeysOf(IdsOf(rows), info) <==> k in RowKeys(rows)
  {
    if |rows| > 0 {
      var pre := rows[..|rows| - 1];
      assert IdsOf(rows)[..|rows| - 1] == IdsOf(pre);
      GroupByKeyOfRows(pre, info, k);
    }
  }

  /** Flat variant fed with the ids a query selects == single-query variant. */
  lemma FlatAgreesWithQuery(paths: seq<PathRow>, q: PathQuery)
    requires UniqueIds(paths)
    ensures FlatGroups(paths, IdsOf(MatchingRows(paths, q))) == QueryGroups(paths, q)
  {
    var sel := MatchingRows(paths, q);
    var ids := IdsOf(sel);
    var info := PathKeys(paths, ids);
    forall i | 0 <= i < |sel| ensures sel[i].id in info && info[sel[i].id] == sel[i].Key() {
      MatchingRowsMembers(paths, q, sel[i]);
      var p :| 0 <= p < |paths| && paths[p] == sel[i];
      LastKeyOfRow(paths, p);
      assert ids[i] == sel[i].id;
    }
    forall k ensures Members(ids, info, k) == IdsWithKey(sel, k)
                  && (k in KeysOf(ids, info) <==> k in RowKeys(sel)) {
      GroupByKeyOfRows(sel, info, k);
    }
    assert KeysOf(ids, info) == RowKeys(sel);
  }
}
