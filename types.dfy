/** Records shared by the chi(k) query engine: rows of the `paths` table,
    stored chi(k) signals, query criteria and the curves the engine returns. */
module ChiTypes {

  datatype Option<+T> = None | Some(value: T)

  /** (frame, atom_id): one absorbing atom in one structural snapshot. */
  datatype GroupKey = GroupKey(frame: int, atomId: int)

  /** One row of the `paths` table, restricted to the columns the engine reads. */
  datatype PathRow = PathRow(id: nat, frame: int, atomId: int, pathNum: int,
                             nleg: int, reff: real, pathType: string)
  {
    /** The atom this path starts from. */
    function Key(): GroupKey { GroupKey(frame, atomId) }
  }

  /** One row of the `chi_data` table: chi(k) sampled on the path's own k grid. */
  datatype RawSignal = RawSignal(k: seq<real>, chi: seq<real>)

  /** Selection criteria; `None` (and, for the list fields, an empty list) means "no restriction". */
  datatype PathQuery = PathQuery(pathTypes: Option<seq<string>>, minReff: Option<real>,
                                 maxReff: Option<real>, frames: Option<seq<int>>,
                                 atomIds: Option<seq<int>>, nleg: Option<int>)

  /** The two tables the engine reads: `paths` (in storage order) and `chi_data` keyed by path id. */
  datatype Database = Database(paths: seq<PathRow>, chiData: map<nat, RawSignal>)

  /** A combined curve: the columns [k, chi] of the returned array. */
  datatype Curve = Curve(k: seq<real>, chi: seq<real>)

  /** The cubic spline through (k_grid, chi_values), evaluated at one wavenumber.
      Only its values inside the signal's own k range are ever used. */
  type Spline = (seq<real>, seq<real>, real) -> real

  /** No two rows of the `paths` table share an `id` (assumed: the schema is not modelled). */
  predicate UniqueIds(paths: seq<PathRow>) {
    forall i, j :: 0 <= i < j < |paths| ==> paths[i].id != paths[j].id
  }

  /** No value occurs twice. */
  predicate Distinct(xs: seq<nat>) {
    forall i, j :: 0 <= i < j < |xs| ==> xs[i] != xs[j]
  }
}
