# chi(k) query engine: selection, resampling and aggregation

This project models the aggregation core of `src/md_exafs/chi_database_query.py` in the
md_exafs package. The package stores one chi(k) signal per scattering path in an SQLite
database. Each path belongs to an absorbing atom of a structural snapshot, identified by
the pair (frame, atom_id). The query engine selects paths by physical criteria and
fetches their stored signals. It resamples each signal onto a standard k grid with a
cubic spline that is zero outside the signal's own k range, then combines the curves.

The model covers these parts of the engine:

- **Selection** (`selection.dfy`):
  - what a `PathQuery` selects, and the WHERE clause built for it;
  - the rows a UNION of several queries returns;
  - the three ways the selected paths are grouped by (frame, atom_id): `GROUP BY` for one
    query, `GROUP BY` over a UNION, and the in-memory `defaultdict` grouping of a flat id list.
- **Fetching and combining** (`chi_query.dfy`, `curves.dfy`):
  - `get_chi_data` is a lookup in the `chi_data` table, so each requested id is counted
    once whatever the number of times it is requested;
  - `sum_chi_data` adds up the resampled curves of the fetched signals;
  - `average_chi_data` divides that sum by the number of fetched signals;
  - the three "sum within each atom, then average across atoms" variants return the curve
    and the number of atom groups;
  - `get_paths_with_chi` and the module-level `query_and_average_multipath`.
- **The standard grid and resampling** (`resample.dfy`):
  - `np.arange(k_min, k_max + k_step, k_step)` over exact reals;
  - one signal resampled onto the grid; the spline is a function parameter.
- **The GROUP_CONCAT text** (`id_text.dfy`): SQLite joins a group's ids into text with
  `GROUP_CONCAT`, and the code parses that text back. The model includes the round trip.

SQLite returns rows, and so fills the cursor-built dicts `chi_data` and `path_info`, in an
order that is not specified. `atom_groups` is iterated in insertion order, which is the
order its keys first appear in the requested ids. The model does not rely on any of these
orders. Every sum is defined by a specification that does not depend on order
(`Curves.SumMap`), and every loop over a dict is proved for any visiting order.

Behaviour of the code that a reader might not expect:

- **Group count.** The count includes groups with no stored signal: `len(atom_groups)` at
  line 383, and `num_atoms += 1` for every cursor row at lines 486 and 612. When at least
  one group has data, the count is the number of groups formed. When none has, the
  result is `(None, 0)`. See `ChiQuery.GroupCountBounds` and
  `ChiQuery.GroupWithoutDataCounted`.
- **Grid parameters.** `k_max < k_min` is not checked. `np.arange` then returns a shorter
  or empty grid, and `Resampling.GridCount` models that grid. A non-positive `k_step` is a
  precondition (see "Left out").
- **Repeated ids.** The flat variant keeps a repeated id twice in its group list
  (lines 378-381). The per-group sum is still over distinct ids, because `get_chi_data`
  builds a dict keyed by id (lines 152-157). The flat variant therefore returns the same
  result as the single-query variant whenever the ids of the `paths` table are unique. That
  uniqueness is assumed, because the schema is not modelled. See
  `ChiQuery.FlatResultAgreesWithQuery`.

## Model

| member | source | states |
|---|---|---|
| Selection.WhereClause | src/md_exafs/chi_database_query.py:83-108 | The conditions built for a query hold of a row exactly when the query matches it. A list filter that is `None` or empty, and a scalar filter that is `None`, adds no condition. |
| Selection.MatchingRowsMembers | src/md_exafs/chi_database_query.py:60-123 | A row is returned by `query_paths` exactly when it is in the table and matches the query. |
| Selection.SelectAgrees | src/md_exafs/chi_database_query.py:541-595 | The UNION of the per-query WHERE clauses selects exactly the rows that match at least one query, each once. |
| Selection.MatchingAnyMembers | src/md_exafs/chi_database_query.py:589-595 | A row is in the UNION exactly when it is in the table and some query matches it. |
| Selection.MatchingAnyUnique | src/md_exafs/chi_database_query.py:589-595 | The UNION never repeats a row, so ids unique in the table stay unique in the union. |
| Selection.RowKeysMembers | src/md_exafs/chi_database_query.py:473 | `GROUP BY frame, atom_id` forms a group for exactly the keys of the selected rows. |
| Selection.IdsWithKeyMembers | src/md_exafs/chi_database_query.py:439 | A group's id list holds exactly the ids of the selected rows with that key. |
| Selection.GroupRowsMembers | src/md_exafs/chi_database_query.py:438-473 | An id is in group `k` exactly when some selected row has that id and key `k`. |
| Selection.GroupRowsNonEmpty | src/md_exafs/chi_database_query.py:439 | Every group SQLite returns has at least one id, so its GROUP_CONCAT text is never empty. |
| Selection.IdsWithKeyDistinct | src/md_exafs/chi_database_query.py:439 | Rows with unique ids give each group an id list without repeats. |
| Selection.UnionGroupsDistinct | src/md_exafs/chi_database_query.py:589-595 | A path matched by several queries appears once in its group of the UNION variant. |
| Selection.UnionGroupsMembers | src/md_exafs/chi_database_query.py:589-595 | An id is in group `k` of the UNION variant exactly when one of the queries alone puts it in group `k`. |
| Selection.UnionOfOneIsQuery | src/md_exafs/chi_database_query.py:589-595 | A UNION of one query forms the same groups as the single-query variant. |
| Selection.LastKeyOfRow | src/md_exafs/chi_database_query.py:369-372 | With unique ids, `path_info[id]` is the (frame, atom_id) of the row carrying that id. |
| Selection.LastKeyFound | src/md_exafs/chi_database_query.py:369-372 | `path_info` has an entry for an id exactly when some row carries that id. |
| Selection.MembersSpec | src/md_exafs/chi_database_query.py:378-381 | An id is appended to group `k` exactly when it was requested, has a `path_info` entry, and that entry is `k`. |
| Selection.KeysOfSpec | src/md_exafs/chi_database_query.py:378-383 | The `defaultdict` has a key exactly for the groups that received at least one id. |
| Selection.MembersAppend | src/md_exafs/chi_database_query.py:378-381 | Grouping keeps input order: the group of a concatenated id list is the group of the first part followed by the group of the second. |
| Selection.FlatGroupsPlacement | src/md_exafs/chi_database_query.py:361-381 | The flat variant puts every requested id that has a row into the group of that row's key and into no other group. Ids without a row are dropped. |
| Selection.GroupByKeyOfRows | src/md_exafs/chi_database_query.py:374-381 | Grouping rows' ids through a lookup that knows every row's key gives the groups `GROUP BY` forms from the rows. |
| Selection.FlatAgreesWithQuery | src/md_exafs/chi_database_query.py:337-381 | Given the ids one query selects, with unique table ids, the flat variant forms the same groups as the single-query variant. |
| IdText.NatToString | src/md_exafs/chi_database_query.py:439 | The text SQLite writes for an id is a non-empty string of decimal digits. |
| IdText.ParseNatOfNatToString | src/md_exafs/chi_database_query.py:488 | `int` applied to the text of an id gives back the id. |
| IdText.SplitComma | src/md_exafs/chi_database_query.py:488 | `split(',')` always yields at least one piece. |
| IdText.SplitWithoutComma | src/md_exafs/chi_database_query.py:488 | A piece without commas splits into itself alone. |
| IdText.SplitAfterPiece | src/md_exafs/chi_database_query.py:488 | A comma-free piece followed by a comma splits off as the first piece. |
| IdText.ParseIdsJoinIds | src/md_exafs/chi_database_query.py:488 | Parsing the GROUP_CONCAT text of a non-empty id list gives back the same list, in order. |
| Resampling.GridCount | src/md_exafs/chi_database_query.py:277 | The grid has the least number of points whose next point would reach the exclusive stop `k_max + k_step`. |
| Resampling.GridWithinRange | src/md_exafs/chi_database_query.py:277 | Every grid point lies in `[k_min, k_max + k_step)`. |
| Resampling.GridSpacing | src/md_exafs/chi_database_query.py:277 | Consecutive grid points are `k_step` apart. |
| Resampling.GridReachesKMax | src/md_exafs/chi_database_query.py:277 | When `k_min <= k_max`, the grid starts at `k_min` and its last point is at least `k_max` and below `k_max + k_step`. |
| Resampling.HalfStepGridExample | src/md_exafs/chi_database_query.py:277 | `k_min = 0, k_max = 1, k_step = 0.5` gives the grid `[0, 0.5, 1]`. |
| Resampling.SeqMin | src/md_exafs/chi_database_query.py:284-285 | The lower end of a signal's k range is one of its samples and is at most every sample. |
| Resampling.SeqMax | src/md_exafs/chi_database_query.py:284-285 | The upper end of a signal's k range is one of its samples and is at least every sample. |
| Resampling.Resample | src/md_exafs/chi_database_query.py:284-286 | Resampling gives one value per grid point, and exactly 0.0 at every grid point outside the signal's k range. |
| Resampling.ResampleAtSample | src/md_exafs/chi_database_query.py:284-286 | At a grid point equal to one of the signal's own k samples, the resampled value is that sample's chi, for a spline through the data. |
| Curves.SumMapRemove | src/md_exafs/chi_database_query.py:328-333 | The sum over the fetched curves can start with any entry: it does not depend on iteration order. |
| Curves.SumMapInsert | src/md_exafs/chi_database_query.py:328-333 | Adding an entry under a new key adds its curve to the sum. |
| Curves.SumsAgreeAppend | src/md_exafs/chi_database_query.py:287 | Appending a curve to the list and storing it under a new key keeps the list's sum equal to the map's sum. |
| Curves.MeanOfAgreeingSums | src/md_exafs/chi_database_query.py:291 | `np.mean(..., axis=0)` of the list equals the order-free sum divided by the number of entries. |
| Curves.SumMapZeroAt | src/md_exafs/chi_database_query.py:330-333 | A grid point where every summand is zero sums to zero. |
| Curves.MeanOfEqualCurves | src/md_exafs/chi_database_query.py:291 | Averaging copies of one curve gives that curve: every entry has weight `1/N`. |
| ChiQuery.GetChiData | src/md_exafs/chi_database_query.py:125-159 | `get_chi_data` returns `{}` for an empty list. Otherwise the cursor loop ends with exactly the specified lookup: one entry per requested id that has a stored signal, holding that signal. |
| ChiQuery.FetchAppend | src/md_exafs/chi_database_query.py:141-157 | Requesting one more id adds that id's stored signal if it has one, and otherwise changes nothing. |
| ChiQuery.HasDataFetch | src/md_exafs/chi_database_query.py:393-396 | `if chi_data:` holds exactly when some requested id has a stored signal. |
| ChiQuery.AccumulateChi | src/md_exafs/chi_database_query.py:326-333 | The accumulation loop, in any dict order, ends with the order-free sum of the resampled curves. |
| ChiQuery.SummedChiAddPath | src/md_exafs/chi_database_query.py:328-333 | Requesting one more id that has a stored signal adds that signal's resampled curve to the sum. |
| ChiQuery.SummedChiRepeatedPath | src/md_exafs/chi_database_query.py:152-157 | Requesting an id a second time changes neither the fetched data nor the sum: the sum is over distinct ids. |
| ChiQuery.SummedChiOfOne | src/md_exafs/chi_database_query.py:326-333 | A single fetched signal sums to its own resampled curve. |
| ChiQuery.SummedChiZeroOutside | src/md_exafs/chi_database_query.py:330-333 | A grid point outside every fetched signal's k range sums to 0.0. |
| ChiQuery.SumChiData | src/md_exafs/chi_database_query.py:296-335 | `None` exactly when the id list is empty or no id has a stored signal. Otherwise the standard grid and the sum of the distinct fetched signals' resampled curves. |
| ChiQuery.AverageChiData | src/md_exafs/chi_database_query.py:250-294 | `None` in exactly the cases `sum_chi_data` returns `None`. Otherwise the same sum divided by the number of distinct fetched signals. |
| ChiQuery.InterpolateAll | src/md_exafs/chi_database_query.py:280-287 | `interpolated_chi` holds one curve per fetched signal, and its sum is the order-free sum. |
| ChiQuery.AverageOfIdenticalSignals | src/md_exafs/chi_database_query.py:289-292 | When every fetched signal resamples to the same curve, the average is that curve. |
| ChiQuery.AtomSums | src/md_exafs/chi_database_query.py:389-407 | There is a per-atom sum only for groups that exist, and every sum is the grid's length. |
| ChiQuery.AtomSumsInsert | src/md_exafs/chi_database_query.py:392-407 | One more group adds a per-atom sum exactly when it has data, and leaves the other sums unchanged. |
| ChiQuery.SumAtom | src/md_exafs/chi_database_query.py:392-407 | One atom's step appends its group sum exactly when the group has data, and otherwise leaves `atom_sums` unchanged. |
| ChiQuery.AverageGroups | src/md_exafs/chi_database_query.py:389-413 | The per-atom loop, in any dict order, yields `None` when no group has data. Otherwise it yields the unweighted mean of the per-atom sums. |
| ChiQuery.PathInfo | src/md_exafs/chi_database_query.py:362-372 | `path_info` maps every requested id that has a row to that row's (frame, atom_id). |
| ChiQuery.GroupByKeyAppend | src/md_exafs/chi_database_query.py:378-381 | Grouping one more id appends it to the end of its group's list, creating the group if needed. An id without a `path_info` entry changes nothing. |
| ChiQuery.GroupByAtom | src/md_exafs/chi_database_query.py:374-381 | The `atom_groups` loop produces the specified grouping of the requested ids. |
| ChiQuery.SumWithinAtomsThenAverage | src/md_exafs/chi_database_query.py:337-417 | The flat variant returns the grouped result of the in-memory groups: `(None, 0)` when no group has data, otherwise the mean curve and the number of groups. |
| ChiQuery.ParseGroupConcat | src/md_exafs/chi_database_query.py:485-488 | Every GROUP_CONCAT text parses, and parsing gives back exactly the groups SQLite formed. |
| ChiQuery.AverageGroupRows | src/md_exafs/chi_database_query.py:482-510 | The cursor loop counts every row as an atom and yields the grouped average of the parsed groups. |
| ChiQuery.SumWithinAtomsThenAverageQuery | src/md_exafs/chi_database_query.py:419-514 | The single-query variant returns the grouped result of the groups the query selects. |
| ChiQuery.SumWithinAtomsThenAverageQueries | src/md_exafs/chi_database_query.py:516-640 | `(None, 0)` for an empty query list. Otherwise the grouped result of the groups formed from the UNION of the queries' matches. |
| ChiQuery.GroupCountBounds | src/md_exafs/chi_database_query.py:383-417 | The result is `None` exactly when no group has data, and the count is then 0. Otherwise the count is the number of groups, and it is at least the number of averaged groups, which is positive. |
| ChiQuery.GroupWithoutDataCounted | src/md_exafs/chi_database_query.py:483-507 | A group none of whose ids has a stored signal leaves the curve unchanged. It raises the count by one when the result is a curve, and leaves `(None, 0)` unchanged when no other group has data. |
| ChiQuery.GroupedMeanUnweighted | src/md_exafs/chi_database_query.py:409-413 | When every group with data sums to the same curve, the result is that curve. |
| ChiQuery.GroupedMeanOfTwoAtoms | src/md_exafs/chi_database_query.py:409-413 | With two atoms that have data, the result is half the sum of their per-atom sums, whatever the number of paths in each: the mean is not weighted by path count. |
| ChiQuery.FlatResultAgreesWithQuery | src/md_exafs/chi_database_query.py:337-514 | Given the ids one query selects, the flat variant returns the same curve and count as the single-query variant, when table ids are unique. |
| ChiQuery.QueryPaths | src/md_exafs/chi_database_query.py:60-123 | `query_paths` returns the rows the query matches, in table order. |
| ChiQuery.GetPathsWithChi | src/md_exafs/chi_database_query.py:161-193 | Every matching path comes back in order, with its stored signal where there is one and `None` where there is not. |
| ChiQuery.MultipathQueryMatches | src/md_exafs/chi_database_query.py:663-668 | The query built for one pair matches a row exactly when its type is the pair's type, its reff is within the pair's distance when one is given, and its frame is listed when frames are given. |
| ChiQuery.IdsOfMatchingRows | src/md_exafs/chi_database_query.py:670-671 | An id is in `[p['id'] for p in paths]` exactly when some matching row has that id. |
| ChiQuery.MultipathIdsMembers | src/md_exafs/chi_database_query.py:660-672 | An id is collected exactly when one of the zipped (type, distance) pairs selects a row with that id. |
| ChiQuery.SelectedByNextPair | src/md_exafs/chi_database_query.py:663-672 | The ids selected by the first `n` pairs are those of the first `n - 1` pairs together with those of pair `n`. |
| ChiQuery.QueryAndAverageMultipath | src/md_exafs/chi_database_query.py:643-683 | Pairs up to the shorter list are used. The result is `None` exactly when no collected id has a stored signal. Otherwise it is the average of the distinct fetched signals on the default grid (0 to 20 in steps of 0.05). |

## Left out

- The SQLite connection, its context-manager lifecycle and the `RuntimeError` raised without a connection are not modelled. The database is the `Database` value passed to each operation.
- The SQL text, its `?` parameter lists and SQLite's limit on the number of variables are not modelled. A query's meaning is modelled by its WHERE conditions.
- `ORDER BY p.frame, p.atom_id, p.path_num` in `query_paths` is not modelled: rows come back in table order. The model does not rely on the order of `GROUP BY` rows or of dict iteration, and every sum is proved independent of it.
- ChiQuery.QueryPaths: states the rows and table order, not the `ORDER BY` sort.
- The cubic spline of `interp1d` is a function parameter, and its construction is not modelled. That includes its failure on signals with fewer than four points or with repeated k values. Unsorted k values are sorted by `interp1d` itself. Only the spline's values inside the signal's own k range are used.
- Resampling.ResampleAtSample: the spline passing through its data points is a precondition, because the spline is a parameter.
- `bytes_to_numpy` decoding, the JSON `atom_sequence` column and the `deg` column are not modelled. Stored signals are sequences of reals.
- Floating point is modelled as exact reals, and so is `np.arange`. Rounding in the grid and in sums, and arange's sensitivity to that rounding, are not captured.
- Logging is not modelled.
- `get_unique_path_types`, `get_reff_range` and `get_frame_atom_counts` are reporting queries outside the aggregation core.
- A non-positive `k_step` is excluded by a precondition. In the code, a zero step makes `np.arange` raise. A negative step gives a descending grid when `k_min > k_max + k_step`, for example 21 points from 20 down to 0 for `k_min = 20, k_max = 0, k_step = -1`, and otherwise an empty one. The code resamples and combines a descending grid like any other.
- The array type of the grid is not modelled. `sum_chi_data` and the three grouped variants accumulate into `np.zeros_like(standard_k)` (lines 326, 398, 495 and 621). With integer grid arguments, such as `k_min = 0, k_max = 20, k_step = 1`, `standard_k` is an integer array and `chi_sum += chi_interp` raises numpy's casting error. `average_chi_data` succeeds with the same arguments, because `np.mean` makes a new float array. The model treats all five operations alike over the reals.
- The check `if not union_parts` (line 581) is not modelled: it cannot hold after `if not queries` has returned.
- The `else: return None` of `average_chi_data` (lines 293-294) is not modelled: `interpolated_chi` is never empty once `chi_data` is non-empty.
- Path ids are non-negative integers (`nat`). Negative ids and the signed, padded or whitespace forms `int()` accepts are not modelled. The GROUP_CONCAT text only ever holds unsigned decimals.
- ChiQuery.GetPathsWithChi: the code adds `k_grid` and `chi_values` to the row dicts in place. The model returns a new sequence of (row, signal) pairs.
- ChiQuery.FlatResultAgreesWithQuery: assumes that path ids are unique in the `paths` table. The schema is not modelled, and the model's table is a plain sequence of rows.
- ChiQuery.ParsedGroups: requires that every text parses. That holds for GROUP_CONCAT output (`ChiQuery.ParseGroupConcat`), so the `ValueError` branch of `int()` is never reached.
