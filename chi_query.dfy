/** The aggregation engine of the chi(k) database: fetching stored signals,
    summing and averaging them on the standard k grid, the two-level rule
    "sum within each absorbing atom, then average across atoms" in its three
    routing variants, the path listing with attached signals, and the
    multipath driver. The `paths` and `chi_data` tables are passed in as a
    `Database` value; the cubic spline is the `Spline` parameter. */
module ChiQuery {
  import opened ChiTypes
  import opened Curves
  import opened Resampling
  import opened IdText
  import opened Selection

  // ---------------------------------------------------------------------------
  // Fetching and resampling stored signals
  // ---------------------------------------------------------------------------

  /** `get_chi_data(path_ids)`: a dict keyed by path id, so an id requested twice
      is fetched once and an id without a stored signal is absent. */
  function Fetch(chiData: map<nat, RawSignal>, ids: seq<nat>): (fetched: map<nat, RawSignal>)
    ensures forall id :: id in fetched <==> id in ids && id in chiData
    ensures forall id | id in fetched :: fetched[id] == chiData[id]
  {
    map id | id in ids && id in chiData :: chiData[id]
  }

  /** Requesting one more id adds its stored signal, if it has one, and nothing else. */
  lemma FetchAppend(chiData: map<nat, RawSignal>, ids: seq<nat>, x: nat)
    ensures Fetch(chiData, ids + [x])
         == if x in chiData then Fetch(chiData, ids)[x := chiData[x]] else Fetch(chiData, ids)
  {
    var before := Fetch(chiData, ids);
    var after := Fetch(chiData, ids + [x]);
    if x in chiData {
      assert after == before[x := chiData[x]];
    } else {
      assert after == before;
    }
  }

  /** `get_chi_data`: `{}` for an empty id list, otherwise one entry per row of
      `SELECT path_id, ... FROM chi_data WHERE path_id IN (...)`, added by the cursor loop. */
  method GetChiData(chiData: map<nat, RawSignal>, pathIds: seq<nat>) returns (fetched: map<nat, RawSignal>)
    ensures fetched == Fetch(chiData, pathIds)
  {
    fetched := map[];
    if |pathIds| == 0 {
      return;
    }
    for i := 0 to |pathIds|
      invariant fetched == Fetch(chiData, pathIds[..i])
    {
      var pathId := pathIds[i];
      FetchAppend(chiData, pathIds[..i], pathId);
      assert pathIds[..i + 1] == pathIds[..i] + [pathId];
      if pathId in chiData {
        fetched := fetched[pathId := chiData[pathId]];
      }
    }
    assert pathIds[..|pathIds|] == pathIds;
  }

  /** Every fetched signal resampled onto `grid`, keyed by path id. */
  function ResampledMap(fetched: map<nat, RawSignal>, grid: seq<real>, spline: Spline): (m: map<nat, seq<real>>)
    ensures m.Keys == fetched.Keys
    ensures Uniform(m, |grid|)
  {
    map id | id in fetched :: Resample(fetched[id], grid, spline)
  }

  /** The sum, over the distinct fetched ids, of their resampled signals. */
  ghost function SummedChi(fetched: map<nat, RawSignal>, grid: seq<real>, spline: Spline): (r: seq<real>)
    ensures |r| == |grid|
  {
    SumMap(ResampledMap(fetched, grid, spline), |grid|)
  }

  /** `chi_sum = np.zeros_like(standard_k)` followed by `chi_sum += chi_interp` for
      every fetched signal, in the dict's (unspecified) order. */
  method AccumulateChi(fetched: map<nat, RawSignal>, grid: seq<real>, spline: Spline)
    returns (chiSum: seq<real>)
    ensures chiSum == SummedChi(fetched, grid, spline)
  {
    chiSum := Zeros(|grid|);
    var pending := fetched.Keys;
    assert fetched - pending == map[];
    assert ResampledMap(fetched - pending, grid, spline) == map[];
    while pending != {}
      invariant pending <= fetched.Keys
      invariant chiSum == SummedChi(fetched - pending, grid, spline)
      decreases |pending|
    {
      var id :| id in pending;
      var chiInterp := Resample(fetched[id], grid, spline);
      AccumulateStep(fetched, pending, grid, spline, id);
      chiSum := Add(chiSum, chiInterp);
      pending := pending - {id};
    }
    assert fetched - pending == fetched;
  }

  lemma AccumulateStep(fetched: map<nat, RawSignal>, pending: set<nat>, grid: seq<real>, spline: Spline, id: nat)
    requires id in pending && pending <= fetched.Keys
    ensures SummedChi(fetched - (pending - {id}), grid, spline)
         == Add(SummedChi(fetched - pending, grid, spline), Resample(fetched[id], grid, spline))
  {
    var done := ResampledMap(fetched - pending, grid, spline);
    var r := Resample(fetched[id], grid, spline);
    assert fetched - (pending - {id}) == (fetched - pending)[id := fetched[id]];
    assert ResampledMap(fetched - (pending - {id}), grid, spline) == done[id := r];
    SumMapInsert(done, |grid|, id, r);
    AddCommutes(r, SumMap(done, |grid|));
  }

  /** Adding a path id that was not requested yet and has a stored signal adds
      that signal's resampled curve to the sum. */
  lemma SummedChiAddPath(chiData: map<nat, RawSignal>, ids: seq<nat>, x: nat, grid: seq<real>, spline: Spline)
    requires x !in ids && x in chiData
    ensures SummedChi(Fetch(chiData, ids + [x]), grid, spline)
         == Add(Resample(chiData[x], grid, spline), SummedChi(Fetch(chiData, ids), grid, spline))
  {
    var before := ResampledMap(Fetch(chiData, ids), grid, spline);
    var r := Resample(chiData[x], grid, spline);
    assert ResampledMap(Fetch(chiData, ids + [x]), grid, spline) == before[x := r];
    SumMapInsert(before, |grid|, x, r);
  }

  /** Requesting an id again changes nothing: the sum is over distinct ids. */
  lemma SummedChiRepeatedPath(chiData: map<nat, RawSignal>, ids: seq<nat>, x: nat, grid: seq<real>, spline: Spline)
    requires x in ids
    ensures Fetch(chiData, ids + [x]) == Fetch(chiData, ids)
    ensures SummedChi(Fetch(chiData, ids + [x]), grid, spline) == SummedChi(Fetch(chiData, ids), grid, spline)
  {
  }

  /** A single fetched signal sums to its own resampled curve. */
  lemma SummedChiOfOne(id: nat, sig: RawSignal, grid: seq<real>, spline: Spline)
    ensures SummedChi(map[id := sig], grid, spline) == Resample(sig, grid, spline)
  {
    var r := Resample(sig, grid, spline);
    var empty: map<nat, seq<real>> := map[];
    assert ResampledMap(map[id := sig], grid, spline) == empty[id := r];
    SumMapInsert(empty, |grid|, id, r);
    assert SumMap(empty, |grid|) == Zeros(|grid|);
    AddCommutes(r, Zeros(|grid|));
    AddZeros(r);
  }

  /** A grid point outside every fetched signal's own k range sums to 0.0. */
  lemma SummedChiZeroOutside(fetched: map<nat, RawSignal>, grid: seq<real>, spline: Spline, j: nat)
    requires j < |grid|
    requires forall id | id in fetched :: !InDomain(fetched[id].k, grid[j])
    ensures SummedChi(fetched, grid, spline)[j] == 0.0
  {
    SumMapZeroAt(ResampledMap(fetched, grid, spline), |grid|, j);
  }

  // ---------------------------------------------------------------------------
  // sum_chi_data and average_chi_data
  // ---------------------------------------------------------------------------

  /** `sum_chi_data`: `None` for an empty id list or when no id has a stored signal;
      otherwise the standard grid and the sum of the distinct fetched signals on it. */
  method SumChiData(db: Database, pathIds: seq<nat>, kMin: real, kMax: real, kStep: real, spline: Spline)
    returns (r: Option<Curve>)
    requires kStep > 0.0
    ensures r.None? <==> |pathIds| == 0 || Fetch(db.chiData, pathIds) == map[]
    ensures r.Some? ==>
      var grid := StandardGrid(kMin, kMax, kStep);
      r.value == Curve(grid, SummedChi(Fetch(db.chiData, pathIds), grid, spline))
  {
    if |pathIds| == 0 {
      return None;
    }
    var chiData := GetChiData(db.chiData, pathIds);
    if chiData == map[] {
      return None;
    }
    var standardK := StandardGrid(kMin, kMax, kStep);
    var chiSum := AccumulateChi(chiData, standardK, spline);
    return Some(Curve(standardK, chiSum));
  }

  /** `average_chi_data`: `None` in exactly the cases `sum_chi_data` returns `None`;
      otherwise the same sum divided by the number of distinct fetched ids. */
  method AverageChiData(db: Database, pathIds: seq<nat>, kMin: real, kMax: real, kStep: real, spline: Spline)
    returns (r: Option<Curve>)
    requires kStep > 0.0
    ensures r.None? <==> |pathIds| == 0 || Fetch(db.chiData, pathIds) == map[]
    ensures r.Some? ==>
      var grid := StandardGrid(kMin, kMax, kStep);
      var fetched := Fetch(db.chiData, pathIds);
      |fetched| > 0 && r.value == Curve(grid, Divide(SummedChi(fetched, grid, spline), |fetched| as real))
  {
    if |pathIds| == 0 {
      return None;
    }
    var chiData := GetChiData(db.chiData, pathIds);
    if chiData == map[] {
      return None;
    }
    var standardK := StandardGrid(kMin, kMax, kStep);
    var interpolatedChi := InterpolateAll(chiData, standardK, spline);
    var chiAverage := Mean(interpolatedChi, |standardK|);
    return Some(Curve(standardK, chiAverage));
  }

  /** The list `interpolated_chi`: every fetched signal resampled onto `grid`, in the
      dict's (unspecified) order. Its sum is the sum over the distinct fetched ids. */
  method InterpolateAll(fetched: map<nat, RawSignal>, grid: seq<real>, spline: Spline)
    returns (interpolatedChi: seq<seq<real>>)
    ensures AllOfLength(interpolatedChi, |grid|) && |interpolatedChi| == |fetched|
    ensures SumSeq(interpolatedChi, |grid|) == SummedChi(fetched, grid, spline)
  {
    interpolatedChi := [];
    var pending := fetched.Keys;
    assert fetched - pending == map[];
    while pending != {}
      invariant pending <= fetched.Keys
      invariant SumsAgree(interpolatedChi, ResampledMap(fetched - pending, grid, spline), |grid|)
      decreases |pending|
    {
      var id :| id in pending;
      var chiInterp := Resample(fetched[id], grid, spline);
      InterpolateStep(fetched, pending, interpolatedChi, grid, spline, id);
      interpolatedChi := interpolatedChi + [chiInterp];
      pending := pending - {id};
    }
    InterpolatedEverything(fetched, pending, interpolatedChi, grid, spline);
  }

  /** Once no id is pending, the list holds one curve per fetched id and sums to their sum. */
  lemma InterpolatedEverything(fetched: map<nat, RawSignal>, pending: set<nat>, cs: seq<seq<real>>,
                               grid: seq<real>, spline: Spline)
    requires pending == {}
    requires SumsAgree(cs, ResampledMap(fetched - pending, grid, spline), |grid|)
    ensures AllOfLength(cs, |grid|) && |cs| == |fetched|
    ensures SumSeq(cs, |grid|) == SummedChi(fetched, grid, spline)
  {
    assert fetched - pending == fetched;
    var m := ResampledMap(fetched, grid, spline);
    assert |m| == |fetched| by {
      assert m.Keys == fetched.Keys;
    }
  }

  lemma InterpolateStep(fetched: map<nat, RawSignal>, pending: set<nat>, cs: seq<seq<real>>,
                        grid: seq<real>, spline: Spline, id: nat)
    requires id in pending && pending <= fetched.Keys
    requires SumsAgree(cs, ResampledMap(fetched - pending, grid, spline), |grid|)
    ensures SumsAgree(cs + [Resample(fetched[id], grid, spline)],
                      ResampledMap(fetched - (pending - {id}), grid, spline), |grid|)
  {
    var done := ResampledMap(fetched - pending, grid, spline);
    var r := Resample(fetched[id], grid, spline);
    SumsAgreeAppend(cs, done, |grid|, id, r);
    assert fetched - (pending - {id}) == (fetched - pending)[id := fetched[id]];
    assert ResampledMap(fetched - (pending - {id}), grid, spline) == done[id := r];
  }

  /** When every fetched signal resamples to the same curve, their average is that curve. */
  lemma AverageOfIdenticalSignals(fetched: map<nat, RawSignal>, grid: seq<real>, spline: Spline, c: seq<real>)
    requires |fetched| > 0
    requires forall id | id in fetched :: Resample(fetched[id], grid, spline) == c
    ensures Divide(SummedChi(fetched, grid, spline), |fetched| as real) == c
  {
    var m := ResampledMap(fetched, grid, spline);
    assert |m| == |fetched| by { assert m.Keys == fetched.Keys; }
    MeanOfEqualCurves(m, c);
  }

  // ---------------------------------------------------------------------------
  // Sum within each atom, then average across atoms
  // ---------------------------------------------------------------------------

  /** The per-atom sums: one summed curve for every group with at least one stored signal. */
  ghost function AtomSums(groups: map<GroupKey, seq<nat>>, chiData: map<nat, RawSignal>,
                          grid: seq<real>, spline: Spline): (sums: map<GroupKey, seq<real>>)
    ensures sums.Keys <= groups.Keys
    ensures Uniform(sums, |grid|)
  {
    map k | k in groups && HasData(chiData, groups[k]) :: GroupSum(chiData, groups[k], grid, spline)
  }

  /** The summed curve of one group of path ids. */
  ghost function GroupSum(chiData: map<nat, RawSignal>, ids: seq<nat>, grid: seq<real>, spline: Spline): (r: seq<real>)
    ensures |r| == |grid|
  {
    SummedChi(Fetch(chiData, ids), grid, spline)
  }

  /** Some id of the list has a stored signal: `get_chi_data` returns a non-empty dict. */
  predicate HasData(chiData: map<nat, RawSignal>, ids: seq<nat>) {
    exists id :: id in ids && id in chiData
  }

  lemma HasDataFetch(chiData: map<nat, RawSignal>, ids: seq<nat>)
    ensures HasData(chiData, ids) <==> Fetch(chiData, ids) != map[]
  {
    if HasData(chiData, ids) {
      var id :| id in ids && id in chiData;
      assert id in Fetch(chiData, ids);
    }
  }

  /** The unweighted mean of the per-atom sums, or `None` when no group has data. */
  ghost function GroupedAverage(groups: map<GroupKey, seq<nat>>, chiData: map<nat, RawSignal>,
                                grid: seq<real>, spline: Spline): Option<seq<real>>
  {
    var sums := AtomSums(groups, chiData, grid, spline);
    if |sums| == 0 then None else Some(Divide(SumMap(sums, |grid|), |sums| as real))
  }

  /** What every grouped variant returns for its groups: `(None, 0)` when no group
      has data, otherwise the curve on the standard grid and the number of groups. */
  ghost function GroupedResult(groups: map<GroupKey, seq<nat>>, chiData: map<nat, RawSignal>,
                               kMin: real, kMax: real, kStep: real, spline: Spline): (Option<Curve>, nat)
    requires kStep > 0.0
  {
    var grid := StandardGrid(kMin, kMax, kStep);
    match GroupedAverage(groups, chiData, grid, spline)
    case None => (None, 0)
    case Some(avg) => (Some(Curve(grid, avg)), |groups|)
  }

  /** One more group: it contributes a per-atom sum exactly when it has data. */
  lemma AtomSumsInsert(groups: map<GroupKey, seq<nat>>, chiData: map<nat, RawSignal>,
                       grid: seq<real>, spline: Spline, k: GroupKey, ids: seq<nat>)
    requires k !in groups
    ensures AtomSums(groups[k := ids], chiData, grid, spline)
         == if !HasData(chiData, ids) then AtomSums(groups, chiData, grid, spline)
            else AtomSums(groups, chiData, grid, spline)[k := GroupSum(chiData, ids, grid, spline)]
  {
    var before := AtomSums(groups, chiData, grid, spline);
    var after := AtomSums(groups[k := ids], chiData, grid, spline);
    AtomSumsInsertKeys(groups, chiData, grid, spline, k, ids);
    AtomSumsInsertNew(groups, chiData, grid, spline, k, ids);
    AtomSumsInsertValues(groups, chiData, grid, spline, k, ids);
    if HasData(chiData, ids) {
      MapInsertEq(before, after, k, GroupSum(chiData, ids, grid, spline));
    } else {
      MapSameEq(before, after);
    }
  }

  lemma MapInsertEq<K, V>(before: map<K, V>, after: map<K, V>, k: K, v: V)
    requires k in after && after[k] == v
    requires forall g | g != k :: (g in after <==> g in before) && (g in before ==> after[g] == before[g])
    ensures after == before[k := v]
  {
  }

  lemma MapSameEq<K, V>(before: map<K, V>, after: map<K, V>)
    requires forall g :: (g in after <==> g in before) && (g in before ==> after[g] == before[g])
    ensures after == before
  {
  }

  lemma AtomSumsInsertValues(groups: map<GroupKey, seq<nat>>, chiData: map<nat, RawSignal>,
                             grid: seq<real>, spline: Spline, k: GroupKey, ids: seq<nat>)
    requires k !in groups
    ensures var before := AtomSums(groups, chiData, grid, spline);
      forall g | g in before :: g in AtomSums(groups[k := ids], chiData, grid, spline)
        && AtomSums(groups[k := ids], chiData, grid, spline)[g] == before[g]
  {
    var grown := groups[k := ids];
    forall g | g in groups ensures grown[g] == groups[g] {}
  }

  lemma AtomSumsInsertKeys(groups: map<GroupKey, seq<nat>>, chiData: map<nat, RawSignal>,
                           grid: seq<real>, spline: Spline, k: GroupKey, ids: seq<nat>)
    requires k !in groups
    ensures forall g | g != k :: g in AtomSums(groups[k := ids], chiData, grid, spline)
                              ==> g in AtomSums(groups, chiData, grid, spline)
    ensures k !in AtomSums(groups, chiData, grid, spline)
  {
    var grown := groups[k := ids];
    forall g | g != k && g in grown ensures grown[g] == groups[g] {}
  }

  lemma AtomSumsInsertNew(groups: map<GroupKey, seq<nat>>, chiData: map<nat, RawSignal>,
                          grid: seq<real>, spline: Spline, k: GroupKey, ids: seq<nat>)
    ensures k in AtomSums(groups[k := ids], chiData, grid, spline) <==> HasData(chiData, ids)
    ensures HasData(chiData, ids) ==> AtomSums(groups[k := ids], chiData, grid, spline)[k] == GroupSum(chiData, ids, grid, spline)
  {
    var grown := groups[k := ids];
    assert grown[k] == ids;
  }

  /** The per-group loop shared by the grouped variants: for every group with data,
      sum its signals into `atomSums`; then `np.mean(atom_sums, axis=0)`. */
  method AverageGroups(groups: map<GroupKey, seq<nat>>, chiData: map<nat, RawSignal>,
                       grid: seq<real>, spline: Spline) returns (avg: Option<seq<real>>)
    ensures avg == GroupedAverage(groups, chiData, grid, spline)
  {
    var atomSums: seq<seq<real>> := [];
    var pending := groups.Keys;
    assert groups - pending == map[];
    while pending != {}
      invariant pending <= groups.Keys
      invariant SumsAgree(atomSums, AtomSums(groups - pending, chiData, grid, spline), |grid|)
      decreases |pending|
    {
      var k :| k in pending;
      var atomPathIds := groups[k];
      AtomSumsStep(groups, pending, atomSums, chiData, grid, spline, k);
      atomSums := SumAtom(chiData, atomPathIds, grid, spline, atomSums);
      pending := pending - {k};
    }
    AverageOfAtomSums(groups, pending, atomSums, chiData, grid, spline);
    if |atomSums| == 0 {
      return None;
    }
    return Some(Mean(atomSums, |grid|));
  }

  /** Once every group has been visited, the mean of `atomSums` is the grouped average. */
  lemma AverageOfAtomSums(groups: map<GroupKey, seq<nat>>, pending: set<GroupKey>, atomSums: seq<seq<real>>,
                          chiData: map<nat, RawSignal>, grid: seq<real>, spline: Spline)
    requires pending == {}
    requires SumsAgree(atomSums, AtomSums(groups - pending, chiData, grid, spline), |grid|)
    ensures AllOfLength(atomSums, |grid|)
    ensures GroupedAverage(groups, chiData, grid, spline)
         == if |atomSums| == 0 then None else Some(Mean(atomSums, |grid|))
  {
    NothingPending(groups, pending, chiData, grid, spline);
    MeanOfAgreeingSums(atomSums, AtomSums(groups, chiData, grid, spline), |grid|);
  }

  lemma NothingPending(groups: map<GroupKey, seq<nat>>, pending: set<GroupKey>,
                       chiData: map<nat, RawSignal>, grid: seq<real>, spline: Spline)
    requires pending == {}
    ensures AtomSums(groups - pending, chiData, grid, spline) == AtomSums(groups, chiData, grid, spline)
  {
    assert groups - pending == groups;
  }

  /** One atom of the per-group loop: fetch its signals and, when there are any,
      append their sum to `atomSums`. */
  method SumAtom(chiData: map<nat, RawSignal>, atomPathIds: seq<nat>, grid: seq<real>, spline: Spline,
                 atomSums: seq<seq<real>>) returns (grown: seq<seq<real>>)
    ensures grown == if HasData(chiData, atomPathIds)
                     then atomSums + [GroupSum(chiData, atomPathIds, grid, spline)] else atomSums
  {
    var fetched := GetChiData(chiData, atomPathIds);
    HasDataFetch(chiData, atomPathIds);
    grown := atomSums;
    if fetched != map[] {
      var chiSum := AccumulateChi(fetched, grid, spline);
      grown := atomSums + [chiSum];
    }
  }

  /** Taking group `k` off the pending set adds its sum when it has data. */
  lemma AtomSumsShift(groups: map<GroupKey, seq<nat>>, pending: set<GroupKey>,
                      chiData: map<nat, RawSignal>, grid: seq<real>, spline: Spline, k: GroupKey)
    requires k in pending && pending <= groups.Keys
    ensures var done := AtomSums(groups - pending, chiData, grid, spline);
      && k !in done
      && AtomSums(groups - (pending - {k}), chiData, grid, spline)
         == if !HasData(chiData, groups[k]) then done
            else done[k := GroupSum(chiData, groups[k], grid, spline)]
  {
    var before := groups - pending;
    assert groups - (pending - {k}) == before[k := groups[k]];
    AtomSumsInsert(before, chiData, grid, spline, k, groups[k]);
  }

  /** One step of the per-group loop: a group with data appends its sum to `atomSums`. */
  lemma AtomSumsStep(groups: map<GroupKey, seq<nat>>, pending: set<GroupKey>, atomSums: seq<seq<real>>,
                     chiData: map<nat, RawSignal>, grid: seq<real>, spline: Spline, k: GroupKey)
    requires k in pending && pending <= groups.Keys
    requires SumsAgree(atomSums, AtomSums(groups - pending, chiData, grid, spline), |grid|)
    ensures SumsAgree(if HasData(chiData, groups[k])
                      then atomSums + [GroupSum(chiData, groups[k], grid, spline)] else atomSums,
                      AtomSums(groups - (pending - {k}), chiData, grid, spline), |grid|)
  {
    var done := AtomSums(groups - pending, chiData, grid, spline);
    AtomSumsShift(groups, pending, chiData, grid, spline, k);
    if HasData(chiData, groups[k]) {
      SumsAgreeAppend(atomSums, done, |grid|, k, GroupSum(chiData, groups[k], grid, spline));
    }
  }

  /** The flat-id variant, `sum_chi_within_atoms_then_average`. */
  method SumWithinAtomsThenAverage(db: Database, pathIds: seq<nat>, kMin: real, kMax: real, kStep: real,
                                   spline: Spline) returns (r: Option<Curve>, numAtoms: nat)
    requires kStep > 0.0
    ensures (r, numAtoms) == GroupedResult(FlatGroups(db.paths, pathIds), db.chiData, kMin, kMax, kStep, spline)
  {
    if |pathIds| == 0 {
      assert FlatGroups(db.paths, pathIds) == map[];
      return None, 0;
    }
    var pathInfo := PathInfo(db.paths, pathIds);
    var atomGroups := GroupByAtom(pathIds, pathInfo);
    numAtoms := |atomGroups|;
    var standardK := StandardGrid(kMin, kMax, kStep);
    var chiAverage := AverageGroups(atomGroups, db.chiData, standardK, spline);
    if chiAverage.None? {
      return None, 0;
    }
    return Some(Curve(standardK, chiAverage.value)), numAtoms;
  }

  /** `path_info`, filled from the rows of the `paths` table whose id was requested. */
  method PathInfo(paths: seq<PathRow>, pathIds: seq<nat>) returns (info: map<nat, GroupKey>)
    ensures info == PathKeys(paths, pathIds)
  {
    info := map[];
    for i := 0 to |paths|
      invariant info == PathKeys(paths[..i], pathIds)
    {
      var row := paths[i];
      assert paths[..i + 1][..i] == paths[..i];
      if row.id in pathIds {
        info := info[row.id := row.Key()];
      }
    }
    assert paths[..|paths|] == paths;
  }

  /** Grouping one more id through the lookup. */
  lemma GroupByKeyAppend(ids: seq<nat>, info: map<nat, GroupKey>, id: nat)
    ensures var before := GroupByKey(ids, info);
      GroupByKey(ids + [id], info)
        == if id in info
           then before[info[id] := (if info[id] in before then before[info[id]] else []) + [id]]
           else before
  {
    var all := ids + [id];
    assert all[..|all| - 1] == ids;
    var before := GroupByKey(ids, info);
    var after := GroupByKey(all, info);
    assert KeysOf(all, info) == KeysOf(ids, info) + (if id in info then {info[id]} else {});
    forall k ensures Members(all, info, k) == Members(ids, info, k) + (if id in info && info[id] == k then [id] else []) {
    }
    if id in info {
      var key := info[id];
      KeysOfSpec(ids, info, key);
      var members := if key in before then before[key] else [];
      assert Members(ids, info, key) == members;
      var expected := before[key := members + [id]];
      assert after.Keys == expected.Keys;
      forall k | k in after ensures after[k] == expected[k] {
        if k != key {
          assert after[k] == Members(ids, info, k);
        }
      }
    } else {
      assert after.Keys == before.Keys;
      forall k | k in after ensures after[k] == before[k] {
        assert after[k] == Members(ids, info, k);
      }
    }
  }

  /** The `atom_groups` defaultdict: each id with a lookup entry appended to its group. */
  method GroupByAtom(pathIds: seq<nat>, info: map<nat, GroupKey>) returns (atomGroups: map<GroupKey, seq<nat>>)
    ensures atomGroups == GroupByKey(pathIds, info)
  {
    atomGroups := map[];
    for i := 0 to |pathIds|
      invariant atomGroups == GroupByKey(pathIds[..i], info)
    {
      var pathId := pathIds[i];
      GroupByKeyAppend(pathIds[..i], info, pathId);
      assert pathIds[..i + 1] == pathIds[..i] + [pathId];
      if pathId in info {
        var key := info[pathId];
        var members := if key in atomGroups then atomGroups[key] else [];
        atomGroups := atomGroups[key := members + [pathId]];
      }
    }
    assert pathIds[..|pathIds|] == pathIds;
  }

  // ---------------------------------------------------------------------------
  // The SQL-grouped variants
  // ---------------------------------------------------------------------------

  /** The rows of `GROUP BY frame, atom_id` with `GROUP_CONCAT(id)`, keyed by group. */
  function GroupConcat(rows: seq<PathRow>): (text: map<GroupKey, string>)
    ensures text.Keys == RowKeys(rows)
  {
    map k | k in RowKeys(rows) :: JoinIds(IdsWithKey(rows, k))
  }

  /** The id lists parsed back from the GROUP_CONCAT text, where every text parses. */
  function ParsedGroups(text: map<GroupKey, string>): (groups: map<GroupKey, seq<nat>>)
    requires forall k | k in text :: ParseIds(text[k]).Some?
    ensures groups.Keys == text.Keys
  {
    map k | k in text :: ParseIds(text[k]).value
  }

  /** Parsing the GROUP_CONCAT text recovers exactly the groups SQLite formed. */
  lemma ParseGroupConcat(rows: seq<PathRow>)
    ensures forall k | k in GroupConcat(rows) :: ParseIds(GroupConcat(rows)[k]).Some?
    ensures ParsedGroups(GroupConcat(rows)) == GroupRows(rows)
  {
    forall k | k in RowKeys(rows) ensures ParseIds(JoinIds(IdsWithKey(rows, k))) == Some(IdsWithKey(rows, k)) {
      GroupRowsNonEmpty(rows, k);
      ParseIdsJoinIds(IdsWithKey(rows, k));
    }
  }

  /** The cursor loop of the SQL-grouped variants: every row counts as an atom,
      its id list is parsed, and groups with data are summed and averaged. */
  method AverageGroupRows(text: map<GroupKey, string>, chiData: map<nat, RawSignal>,
                          grid: seq<real>, spline: Spline) returns (avg: Option<seq<real>>, numAtoms: nat)
    requires forall k | k in text :: ParseIds(text[k]).Some?
    ensures numAtoms == |text|
    ensures avg == GroupedAverage(ParsedGroups(text), chiData, grid, spline)
  {
    ghost var groups := ParsedGroups(text);
    numAtoms := 0;
    var atomSums: seq<seq<real>> := [];
    var pending := text.Keys;
    assert groups - pending == map[];
    while pending != {}
      invariant pending <= text.Keys
      invariant numAtoms + |pending| == |text|
      invariant SumsAgree(atomSums, AtomSums(groups - pending, chiData, grid, spline), |grid|)
      decreases |pending|
    {
      var k :| k in pending;
      numAtoms := numAtoms + 1;
      var atomPathIds := ParseIds(text[k]).value;
      ParsedRowStep(text, pending, atomSums, chiData, grid, spline, k);
      atomSums := SumAtom(chiData, atomPathIds, grid, spline, atomSums);
      pending := pending - {k};
    }
    AverageOfAtomSums(groups, pending, atomSums, chiData, grid, spline);
    if |atomSums| == 0 {
      return None, numAtoms;
    }
    return Some(Mean(atomSums, |grid|)), numAtoms;
  }

  /** One step of the cursor loop, stated on the row text. */
  lemma ParsedRowStep(text: map<GroupKey, string>, pending: set<GroupKey>, atomSums: seq<seq<real>>,
                      chiData: map<nat, RawSignal>, grid: seq<real>, spline: Spline, k: GroupKey)
    requires forall k | k in text :: ParseIds(text[k]).Some?
    requires k in pending && pending <= text.Keys
    requires SumsAgree(atomSums, AtomSums(ParsedGroups(text) - pending, chiData, grid, spline), |grid|)
    ensures var ids := ParseIds(text[k]).value;
      SumsAgree(if HasData(chiData, ids) then atomSums + [GroupSum(chiData, ids, grid, spline)] else atomSums,
                AtomSums(ParsedGroups(text) - (pending - {k}), chiData, grid, spline), |grid|)
  {
    var groups := ParsedGroups(text);
    assert groups[k] == ParseIds(text[k]).value;
    AtomSumsStep(groups, pending, atomSums, chiData, grid, spline, k);
  }

  /** The single-query variant, `sum_chi_within_atoms_then_average_query`. */
  method SumWithinAtomsThenAverageQuery(db: Database, q: PathQuery, kMin: real, kMax: real, kStep: real,
                                        spline: Spline) returns (r: Option<Curve>, numAtoms: nat)
    requires kStep > 0.0
    ensures (r, numAtoms) == GroupedResult(QueryGroups(db.paths, q), db.chiData, kMin, kMax, kStep, spline)
  {
    var conds := WhereClause(q);
    SelectAgrees(db.paths, [conds], [q]);
    var selected := Select(db.paths, [conds]);
    var text := GroupConcat(selected);
    ParseGroupConcat(selected);
    var standardK := StandardGrid(kMin, kMax, kStep);
    var chiAverage;
    chiAverage, numAtoms := AverageGroupRows(text, db.chiData, standardK, spline);
    if chiAverage.None? {
      return None, 0;
    }
    return Some(Curve(standardK, chiAverage.value)), numAtoms;
  }

  /** The UNION variant, `sum_chi_within_atoms_then_average_queries`: `(None, 0)` for
      an empty query list, otherwise the grouped result over the union of the matches. */
  method SumWithinAtomsThenAverageQueries(db: Database, qs: seq<PathQuery>, kMin: real, kMax: real, kStep: real,
                                          spline: Spline) returns (r: Option<Curve>, numAtoms: nat)
    requires kStep > 0.0
    ensures |qs| == 0 ==> r == None && numAtoms == 0
    ensures |qs| > 0 ==>
      (r, numAtoms) == GroupedResult(UnionGroups(db.paths, qs), db.chiData, kMin, kMax, kStep, spline)
  {
    if |qs| == 0 {
      return None, 0;
    }
    var unionParts: seq<seq<Condition>> := [];
    for i := 0 to |qs|
      invariant |unionParts| == i
      invariant forall j, row :: 0 <= j < i ==> (HoldsAll(unionParts[j], row) <==> Matches(qs[j], row))
    {
      var sqlPart := WhereClause(qs[i]);
      unionParts := unionParts + [sqlPart];
    }
    SelectAgrees(db.paths, unionParts, qs);
    var combined := Select(db.paths, unionParts);
    var text := GroupConcat(combined);
    ParseGroupConcat(combined);
    var standardK := StandardGrid(kMin, kMax, kStep);
    var chiAverage;
    chiAverage, numAtoms := AverageGroupRows(text, db.chiData, standardK, spline);
    if chiAverage.None? {
      return None, 0;
    }
    return Some(Curve(standardK, chiAverage.value)), numAtoms;
  }

  // ---------------------------------------------------------------------------
  // Properties of the grouped result
  // ---------------------------------------------------------------------------

  lemma {:induction false} SubsetCardinality<T>(a: set<T>, b: set<T>)
    requires a <= b
    ensures |a| <= |b|
    decreases |b|
  {
    if a != {} {
      var x :| x in a;
      SubsetCardinality(a - {x}, b - {x});
    }
  }

  /** The result is `None` exactly when no group has a stored signal; the count is then 0,
      and otherwise it counts every group, those without data included. */
  lemma GroupCountBounds(groups: map<GroupKey, seq<nat>>, chiData: map<nat, RawSignal>,
                         kMin: real, kMax: real, kStep: real, spline: Spline)
    requires kStep > 0.0
    ensures var (r, numAtoms) := GroupedResult(groups, chiData, kMin, kMax, kStep, spline);
      && (r.None? <==> forall k | k in groups :: !HasData(chiData, groups[k]))
      && (r.None? ==> numAtoms == 0)
      && (r.Some? ==> numAtoms == |groups|
                      && numAtoms >= |AtomSums(groups, chiData, StandardGrid(kMin, kMax, kStep), spline)| > 0)
  {
    var grid := StandardGrid(kMin, kMax, kStep);
    var sums := AtomSums(groups, chiData, grid, spline);
    SubsetCardinality(sums.Keys, groups.Keys);
    if forall k | k in groups :: !HasData(chiData, groups[k]) {
      assert sums == map[];
    } else {
      var k :| k in groups && HasData(chiData, groups[k]);
      assert k in sums;
    }
  }

  /** A group whose ids have no stored signal leaves the average unchanged but is counted. */
  lemma GroupWithoutDataCounted(groups: map<GroupKey, seq<nat>>, chiData: map<nat, RawSignal>,
                                kMin: real, kMax: real, kStep: real, spline: Spline, k: GroupKey, ids: seq<nat>)
    requires kStep > 0.0 && k !in groups
    requires forall id | id in ids :: id !in chiData
    ensures var (r, n) := GroupedResult(groups, chiData, kMin, kMax, kStep, spline);
      var (r', n') := GroupedResult(groups[k := ids], chiData, kMin, kMax, kStep, spline);
      r' == r && (r.Some? ==> n' == n + 1) && (r.None? ==> n' == 0)
  {
    var grid := StandardGrid(kMin, kMax, kStep);
    assert !HasData(chiData, ids);
    AtomSumsInsert(groups, chiData, grid, spline, k, ids);
  }

  /** The mean is over atoms, not over paths: when every atom with data sums to the
      same curve, the result is that curve whatever the number of paths per atom. */
  lemma GroupedMeanUnweighted(groups: map<GroupKey, seq<nat>>, chiData: map<nat, RawSignal>,
                              grid: seq<real>, spline: Spline, c: seq<real>)
    requires |c| == |grid|
    requires exists k | k in groups :: HasData(chiData, groups[k])
    requires forall k | k in groups && HasData(chiData, groups[k]) ::
      GroupSum(chiData, groups[k], grid, spline) == c
    ensures GroupedAverage(groups, chiData, grid, spline) == Some(c)
  {
    var sums := AtomSums(groups, chiData, grid, spline);
    var k :| k in groups && HasData(chiData, groups[k]);
    assert k in sums;
    MeanOfEqualCurves(sums, c);
  }

  /** Two atoms weigh one half each, whatever their numbers of paths: the result is the plain
      mean of the two per-atom sums, not a mean weighted by `|ids1|` and `|ids2|`. */
  lemma GroupedMeanOfTwoAtoms(chiData: map<nat, RawSignal>, grid: seq<real>, spline: Spline,
                              k1: GroupKey, ids1: seq<nat>, k2: GroupKey, ids2: seq<nat>)
    requires k1 != k2 && HasData(chiData, ids1) && HasData(chiData, ids2)
    ensures GroupedAverage(map[k1 := ids1, k2 := ids2], chiData, grid, spline)
         == Some(Divide(Add(GroupSum(chiData, ids1, grid, spline), GroupSum(chiData, ids2, grid, spline)), 2.0))
  {
    var s1 := GroupSum(chiData, ids1, grid, spline);
    var s2 := GroupSum(chiData, ids2, grid, spline);
    var noGroups: map<GroupKey, seq<nat>> := map[];
    var one := noGroups[k1 := ids1];
    assert AtomSums(noGroups, chiData, grid, spline) == map[];
    AtomSumsInsert(noGroups, chiData, grid, spline, k1, ids1);
    AtomSumsInsert(one, chiData, grid, spline, k2, ids2);
    assert one[k2 := ids2] == map[k1 := ids1, k2 := ids2];
    var noSums: map<GroupKey, seq<real>> := map[];
    var sums := noSums[k1 := s1][k2 := s2];
    assert AtomSums(map[k1 := ids1, k2 := ids2], chiData, grid, spline) == sums;
    SumMapInsert(noSums, |grid|, k1, s1);
    assert SumMap(noSums, |grid|) == Zeros(|grid|);
    AddCommutes(s1, Zeros(|grid|));
    AddZeros(s1);
    SumMapInsert(noSums[k1 := s1], |grid|, k2, s2);
    AddCommutes(s2, s1);
    assert |sums| == 2;
  }

  /** Feeding the flat variant the ids one query selects gives the single-query variant's result. */
  lemma FlatResultAgreesWithQuery(db: Database, q: PathQuery, kMin: real, kMax: real, kStep: real, spline: Spline)
    requires kStep > 0.0 && UniqueIds(db.paths)
    ensures GroupedResult(FlatGroups(db.paths, IdsOf(MatchingRows(db.paths, q))), db.chiData, kMin, kMax, kStep, spline)
         == GroupedResult(QueryGroups(db.paths, q), db.chiData, kMin, kMax, kStep, spline)
  {
    FlatAgreesWithQuery(db.paths, q);
  }

  // ---------------------------------------------------------------------------
  // Path listing and the multipath driver
  // ---------------------------------------------------------------------------

  /** A path row with its stored signal attached, or `None` where it has none. */
  datatype PathWithChi = PathWithChi(path: PathRow, signal: Option<RawSignal>)

  /** `query_paths`: the rows the query matches (in table order). */
  method QueryPaths(db: Database, q: PathQuery) returns (rows: seq<PathRow>)
    ensures rows == MatchingRows(db.paths, q)
  {
    var conds := WhereClause(q);
    SelectAgrees(db.paths, [conds], [q]);
    rows := Select(db.paths, [conds]);
  }

  /** `get_paths_with_chi`: every matching path, in order, with its signal when one is stored. */
  method GetPathsWithChi(db: Database, q: PathQuery) returns (result: seq<PathWithChi>)
    ensures |result| == |MatchingRows(db.paths, q)|
    ensures forall i :: 0 <= i < |result| ==>
      var row := MatchingRows(db.paths, q)[i];
      result[i].path == row
      && (row.id in db.chiData ==> result[i].signal == Some(db.chiData[row.id]))
      && (row.id !in db.chiData ==> result[i].signal == None)
  {
    var paths := QueryPaths(db, q);
    if |paths| == 0 {
      return [];
    }
    var pathIds := IdsOf(paths);
    var chiData := GetChiData(db.chiData, pathIds);
    result := [];
    for i := 0 to |paths|
      invariant |result| == i
      invariant forall j :: 0 <= j < i ==>
        result[j].path == paths[j]
        && (paths[j].id in db.chiData ==> result[j].signal == Some(db.chiData[paths[j].id]))
        && (paths[j].id !in db.chiData ==> result[j].signal == None)
    {
      var path := paths[i];
      assert path.id == pathIds[i];
      if path.id in chiData {
        result := result + [PathWithChi(path, Some(chiData[path.id]))];
      } else {
        result := result + [PathWithChi(path, None)];
      }
    }
  }

  /** The query built for one (path type, maximum distance) pair. */
  function MultipathQuery(pathType: string, maxDist: Option<real>, frames: Option<seq<int>>): PathQuery {
    PathQuery(Some([pathType]), None, maxDist, frames, None, None)
  }

  /** The pair's query selects the rows of that type, within the distance when one is
      given, in the listed frames when a non-empty list is given. */
  lemma MultipathQueryMatches(pathType: string, maxDist: Option<real>, frames: Option<seq<int>>, row: PathRow)
    ensures Matches(MultipathQuery(pathType, maxDist, frames), row) <==>
      && row.pathType == pathType
      && (maxDist.Some? ==> row.reff <= maxDist.value)
      && (Restricts(frames) ==> row.frame in frames.value)
  {
    assert row.pathType in [pathType] <==> row.pathType == pathType;
  }

  /** `all_path_ids` after the first `n` pairs of the zipped lists. */
  function MultipathIds(paths: seq<PathRow>, pathTypes: seq<string>, maxDistances: seq<Option<real>>,
                        frames: Option<seq<int>>, n: nat): seq<nat>
    requires n <= |pathTypes| && n <= |maxDistances|
  {
    if n == 0 then []
    else MultipathIds(paths, pathTypes, maxDistances, frames, n - 1)
         + IdsOf(MatchingRows(paths, MultipathQuery(pathTypes[n - 1], maxDistances[n - 1], frames)))
  }

  /** Pair `i` of the zipped lists selects `row`. */
  predicate PairSelects(pathTypes: seq<string>, maxDistances: seq<Option<real>>, frames: Option<seq<int>>,
                        i: nat, row: PathRow)
    requires i < |pathTypes| && i < |maxDistances|
  {
    Matches(MultipathQuery(pathTypes[i], maxDistances[i], frames), row)
  }

  /** The ids of the rows a query selects are the ids of the matching rows of the table. */
  lemma IdsOfMatchingRows(paths: seq<PathRow>, q: PathQuery, x: nat)
    ensures x in IdsOf(MatchingRows(paths, q)) <==> exists row :: row in paths && row.id == x && Matches(q, row)
  {
    var sel := MatchingRows(paths, q);
    var ids := IdsOf(sel);
    if x in ids {
      var j :| 0 <= j < |ids| && ids[j] == x;
      MatchingRowsMembers(paths, q, sel[j]);
    }
    if exists row :: row in paths && row.id == x && Matches(q, row) {
      var row :| row in paths && row.id == x && Matches(q, row);
      MatchingRowsMembers(paths, q, row);
      var j :| 0 <= j < |sel| && sel[j] == row;
      assert ids[j] == x;
    }
  }

  /** Some pair among the first `n` of the zipped lists selects a path row with id `x`. */
  ghost predicate SelectedByPairs(paths: seq<PathRow>, pathTypes: seq<string>, maxDistances: seq<Option<real>>,
                                  frames: Option<seq<int>>, n: nat, x: nat)
    requires n <= |pathTypes| && n <= |maxDistances|
  {
    exists i, row :: 0 <= i < n && row in paths && row.id == x && PairSelects(pathTypes, maxDistances, frames, i, row)
  }

  /** An id is collected exactly when some path row with that id is selected by one of the pairs. */
  lemma {:induction false} MultipathIdsMembers(paths: seq<PathRow>, pathTypes: seq<string>,
                                               maxDistances: seq<Option<real>>, frames: Option<seq<int>>,
                                               n: nat, x: nat)
    requires n <= |pathTypes| && n <= |maxDistances|
    ensures x in MultipathIds(paths, pathTypes, maxDistances, frames, n)
        <==> SelectedByPairs(paths, pathTypes, maxDistances, frames, n, x)
  {
    if n > 0 {
      MultipathIdsMembers(paths, pathTypes, maxDistances, frames, n - 1, x);
      SelectedByNextPair(paths, pathTypes, maxDistances, frames, n, x);
    }
  }

  /** Pairs `0..n` select `x` exactly when pairs `0..n-1` do or pair `n-1` does. */
  lemma SelectedByNextPair(paths: seq<PathRow>, pathTypes: seq<string>, maxDistances: seq<Option<real>>,
                           frames: Option<seq<int>>, n: nat, x: nat)
    requires 0 < n <= |pathTypes| && n <= |maxDistances|
    ensures SelectedByPairs(paths, pathTypes, maxDistances, frames, n, x)
        <==> SelectedByPairs(paths, pathTypes, maxDistances, frames, n - 1, x)
             || x in IdsOf(MatchingRows(paths, MultipathQuery(pathTypes[n - 1], maxDistances[n - 1], frames)))
  {
    var q := MultipathQuery(pathTypes[n - 1], maxDistances[n - 1], frames);
    IdsOfMatchingRows(paths, q, x);
    if x in IdsOf(MatchingRows(paths, q)) {
      var row :| row in paths && row.id == x && Matches(q, row);
      assert PairSelects(pathTypes, maxDistances, frames, n - 1, row);
    }
    if SelectedByPairs(paths, pathTypes, maxDistances, frames, n, x) {
      var i, row :| 0 <= i < n && row in paths && row.id == x && PairSelects(pathTypes, maxDistances, frames, i, row);
      if i < n - 1 {
        assert SelectedByPairs(paths, pathTypes, maxDistances, frames, n - 1, x);
      }
    }
  }

  /** `query_and_average_multipath`: collects the ids of every (type, distance) pair of
      the zipped lists and averages them on the default grid; `None` when nothing matched
      or nothing matched has a stored signal. */
  method QueryAndAverageMultipath(db: Database, pathTypes: seq<string>, maxDistances: seq<Option<real>>,
                                  frames: Option<seq<int>>, spline: Spline) returns (r: Option<Curve>)
    ensures var pairs := if |pathTypes| <= |maxDistances| then |pathTypes| else |maxDistances|;
      var fetched := Fetch(db.chiData, MultipathIds(db.paths, pathTypes, maxDistances, frames, pairs));
      var grid := StandardGrid(DefaultKMin, DefaultKMax, DefaultKStep);
      && (r.None? <==> fetched == map[])
      && (r.Some? ==> |fetched| > 0 && r.value == Curve(grid, Divide(SummedChi(fetched, grid, spline), |fetched| as real)))
  {
    var pairs := if |pathTypes| <= |maxDistances| then |pathTypes| else |maxDistances|;
    var allPathIds: seq<nat> := [];
    for i := 0 to pairs
      invariant allPathIds == MultipathIds(db.paths, pathTypes, maxDistances, frames, i)
    {
      var query := MultipathQuery(pathTypes[i], maxDistances[i], frames);
      var paths := QueryPaths(db, query);
      var pathIds := IdsOf(paths);
      allPathIds := allPathIds + pathIds;
    }
    if |allPathIds| == 0 {
      return None;
    }
    r := AverageChiData(db, allPathIds, DefaultKMin, DefaultKMax, DefaultKStep, spline);
  }
}
