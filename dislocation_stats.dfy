/**
 * The per-frame statistics of scripts/analyze_dislocations.py and what is
 * built from them: the box volume, the mask of atoms whose centro-symmetry
 * parameter exceeds a threshold, the dislocation density, the number of grain
 * types, the loop of `analyze_time_evolution` over the timesteps in ascending
 * order with the matching against strain data, the three phases of the report,
 * and the text of `export_frame_to_xyz`.
 */
module DislocationStats {
  import opened Wrappers
  import opened Text
  import opened Numbers
  import opened Geometry
  import opened Dislocations

  // ---------------------------------------------------------------------------
  // Timesteps in ascending order
  // ---------------------------------------------------------------------------

  predicate Increasing(ts: seq<int>)
  {
    forall i, j :: 0 <= i < j < |ts| ==> ts[i] < ts[j]
  }

  lemma {:induction false} LeastExists(keys: set<int>)
    requires keys != {}
    ensures exists m :: m in keys && forall k :: k in keys ==> m <= k
    decreases |keys|
  {
    if forall y :: y !in keys {
      assert false;
    }
    var x :| x in keys;
    var others := keys - {x};
    if others != {} {
      LeastExists(others);
      var m :| m in others && forall k :: k in others ==> m <= k;
      var least := if x < m then x else m;
      forall k | k in keys
        ensures least <= k
      {
        if k != x {
          assert k in others;
        }
      }
      assert least in keys;
    } else {
      forall k | k in keys
        ensures x <= k
      {
        assert k !in others;
      }
    }
  }

  /** `sorted(data.keys())`: the least key first, then the rest in order. */
  function SortedKeys(keys: set<int>): (ts: seq<int>)
    ensures |ts| == |keys|
    decreases |keys|
  {
    if keys == {} then []
    else
      LeastExists(keys);
      var m :| m in keys && forall k :: k in keys ==> m <= k;
      [m] + SortedKeys(keys - {m})
  }

  /** The sorted timesteps are exactly the keys, each once, in strictly ascending order. */
  lemma {:induction false} SortedKeysSpec(keys: set<int>)
    ensures Increasing(SortedKeys(keys))
    ensures forall t :: t in SortedKeys(keys) <==> t in keys
    decreases |keys|
  {
    if keys != {} {
      var ts := SortedKeys(keys);
      var m := ts[0];
      var rest := SortedKeys(keys - {m});
      assert ts == [m] + rest;
      assert m in keys && forall k :: k in keys ==> m <= k;
      SortedKeysSpec(keys - {m});
      forall i, j | 0 <= i < j < |ts|
        ensures ts[i] < ts[j]
      {
        if i > 0 {
          assert ts[i] == rest[i - 1] && ts[j] == rest[j - 1];
        } else {
          assert ts[j] == rest[j - 1] && rest[j - 1] in keys - {m};
        }
      }
    }
  }

  // ---------------------------------------------------------------------------
  // Box volume
  // ---------------------------------------------------------------------------

  /** The product of the widths `bounds[1] - bounds[0]`, taken axis by axis from 1.0. */
  function Extent(box: seq<Bound>): real
  {
    if box == [] then 1.0
    else Extent(box[..|box| - 1]) * (box[|box| - 1].hi - box[|box| - 1].lo)
  }

  /** Cubic ångström to cubic metre. */
  const CubicMetresPerCubicAngstrom: real := 1.0e-30

  function Volume(box: seq<Bound>): real
  {
    Extent(box) * CubicMetresPerCubicAngstrom
  }

  predicate Proper(box: seq<Bound>)
  {
    forall k :: 0 <= k < |box| ==> box[k].lo < box[k].hi
  }

  /** A box whose every axis has `lo < hi` has a positive extent. */
  lemma {:induction false} ExtentPositive(box: seq<Bound>)
    requires Proper(box)
    ensures Extent(box) > 0.0
  {
    if box != [] {
      var init := box[..|box| - 1];
      assert Proper(init) by {
        forall k | 0 <= k < |init| ensures init[k].lo < init[k].hi {
          assert init[k] == box[k];
        }
      }
      ExtentPositive(init);
      var w := box[|box| - 1].hi - box[|box| - 1].lo;
      assert w > 0.0;
      MulPositive(Extent(init), w);
    }
  }

  lemma MulPositive(a: real, b: real)
    requires a > 0.0 && b > 0.0
    ensures a * b > 0.0
  {
  }

  /** A box whose every axis has `lo < hi` has a positive volume. */
  lemma VolumePositive(box: seq<Bound>)
    requires Proper(box)
    ensures Volume(box) > 0.0
  {
    ExtentPositive(box);
    MulPositive(Extent(box), CubicMetresPerCubicAngstrom);
  }

  /** The volume loop of `analyze_time_evolution`. */
  method BoxVolume(box: seq<Bound>) returns (v: real)
    ensures v == Volume(box)
  {
    v := 1.0;
    for k := 0 to |box|
      invariant v == Extent(box[..k])
    {
      assert box[..k + 1][..k] == box[..k];
      v := v * (box[k].hi - box[k].lo);
    }
    assert box[..|box|] == box;
    v := v * CubicMetresPerCubicAngstrom;
  }

  // ---------------------------------------------------------------------------
  // Dislocations, density and grains
  // ---------------------------------------------------------------------------

  /** The threshold `analyze_time_evolution` applies to the CSP values. */
  const CspThreshold: real := 2.0

  /** `identify_dislocations`: one flag per atom, set when its CSP exceeds the threshold. */
  function IdentifyDislocations(csp: seq<real>, threshold: real): (mask: seq<bool>)
    ensures |mask| == |csp|
  {
    seq(|csp|, k requires 0 <= k < |csp| => csp[k] > threshold)
  }

  /** `np.sum` of a boolean mask: the number of set flags. */
  function CountTrue(mask: seq<bool>): nat
  {
    if mask == [] then 0
    else CountTrue(mask[..|mask| - 1]) + (if mask[|mask| - 1] then 1 else 0)
  }

  /** The count is at most the number of flags, and zero exactly when no flag is set. */
  lemma {:induction false} CountTrueBounds(mask: seq<bool>)
    ensures CountTrue(mask) <= |mask|
    ensures CountTrue(mask) == 0 <==> forall k :: 0 <= k < |mask| ==> !mask[k]
  {
    if mask != [] {
      var init := mask[..|mask| - 1];
      CountTrueBounds(init);
      assert forall k :: 0 <= k < |init| ==> init[k] == mask[k];
    }
  }

  /** A mask that sets at least the flags of another counts at least as many. */
  lemma {:induction false} CountTrueMonotone(a: seq<bool>, b: seq<bool>)
    requires |a| == |b| && forall k :: 0 <= k < |a| ==> a[k] ==> b[k]
    ensures CountTrue(a) <= CountTrue(b)
  {
    if a != [] {
      var n := |a| - 1;
      assert forall k :: 0 <= k < n ==> a[..n][k] == a[k] && b[..n][k] == b[k];
      CountTrueMonotone(a[..n], b[..n]);
    }
  }

  /** Raising the threshold never finds more dislocation atoms. */
  lemma DislocationsMonotone(csp: seq<real>, low: real, high: real)
    requires low <= high
    ensures CountTrue(IdentifyDislocations(csp, high)) <= CountTrue(IdentifyDislocations(csp, low))
  {
    CountTrueMonotone(IdentifyDislocations(csp, high), IdentifyDislocations(csp, low));
  }

  /** Length per dislocation atom, in metres. */
  const MetresPerAtom: real := 1.0e-10

  /**
   * `calculate_dislocation_density`: the dislocation length over the box
   * volume. A zero volume makes numpy produce inf or nan, modelled as `None`.
   */
  function CalculateDislocationDensity(mask: seq<bool>, volume: real): (d: Option<real>)
    ensures d.Some? <==> volume != 0.0
    ensures d.Some? ==> d.value * volume == CountTrue(mask) as real * MetresPerAtom
  {
    if volume == 0.0 then None else Some(CountTrue(mask) as real * MetresPerAtom / volume)
  }

  /** In a box of positive volume the density is never negative, and it is zero exactly when no atom is flagged. */
  lemma DensitySign(mask: seq<bool>, volume: real)
    requires volume > 0.0
    ensures CalculateDislocationDensity(mask, volume).value >= 0.0
    ensures CalculateDislocationDensity(mask, volume).value == 0.0 <==> forall k :: 0 <= k < |mask| ==> !mask[k]
  {
    CountTrueBounds(mask);
  }

  /** `len(np.unique(types))`: the number of distinct grain types. */
  function Grains(types: seq<int>): nat
  {
    |set t | t in types|
  }

  lemma {:induction false} DistinctAtMost(types: seq<int>)
    ensures |set t | t in types| <= |types|
  {
    if types != [] {
      var init := types[..|types| - 1];
      DistinctAtMost(init);
      assert (set t | t in types) == (set t | t in init) + {types[|types| - 1]} by {
        assert types == init + [types[|types| - 1]];
      }
    }
  }

  /** A frame with atoms has at least one grain type and no more than atoms. */
  lemma GrainsBounds(types: seq<int>)
    requires types != []
    ensures 1 <= Grains(types) <= |types|
  {
    DistinctAtMost(types);
    var distinct := set t | t in types;
    assert types[0] in distinct;
    assert distinct != {};
  }

  // ---------------------------------------------------------------------------
  // The time evolution
  // ---------------------------------------------------------------------------

  /** `for bounds in box_bounds` on a frame stored without a box raises TypeError. */
  datatype AnalysisError = NoBox(timestep: int)

  /** What `analyze_time_evolution` returns; `None` marks a density numpy computes as inf or nan. */
  datatype Evolution = Evolution(
    timesteps: seq<int>,
    densities: seq<Option<real>>,
    counts: seq<nat>,
    grains: seq<nat>,
    matchedStrain: seq<real>,
    matchedDensity: seq<Option<real>>)

  /** The density, dislocation count and grain count of the frames at `ts`, in that order, or the first frame without a box. */
  function Collect(data: map<int, Frame>, ts: seq<int>): Result<(seq<Option<real>>, seq<nat>, seq<nat>), AnalysisError>
    requires forall k :: 0 <= k < |ts| ==> ts[k] in data
  {
    if ts == [] then Success(([], [], []))
    else
      match Collect(data, ts[..|ts| - 1])
      case Failure(e) => Failure(e)
      case Success((ds, cs, gs)) =>
        var t := ts[|ts| - 1];
        var f := data[t];
        if f.box.None? then Failure(NoBox(t))
        else
          var mask := IdentifyDislocations(f.csp, CspThreshold);
          Success((ds + [CalculateDislocationDensity(mask, Volume(f.box.value))],
                   cs + [CountTrue(mask)], gs + [Grains(f.types)]))
  }

  /** The three lists have one entry per timestep; the run fails exactly when some frame has no box. */
  lemma {:induction false} CollectSpec(data: map<int, Frame>, ts: seq<int>)
    requires forall k :: 0 <= k < |ts| ==> ts[k] in data
    ensures Collect(data, ts).Success? <==> forall k :: 0 <= k < |ts| ==> data[ts[k]].box.Some?
    ensures Collect(data, ts).Success? ==>
      var (ds, cs, gs) := Collect(data, ts).value;
      |ds| == |ts| && |cs| == |ts| && |gs| == |ts| &&
      forall k :: 0 <= k < |ts| ==>
        var mask := IdentifyDislocations(data[ts[k]].csp, CspThreshold);
        cs[k] == CountTrue(mask) && gs[k] == Grains(data[ts[k]].types) &&
        ds[k] == CalculateDislocationDensity(mask, Volume(data[ts[k]].box.value))
  {
    if ts != [] {
      var init := ts[..|ts| - 1];
      assert forall k :: 0 <= k < |init| ==> init[k] == ts[k];
      CollectSpec(data, init);
    }
  }

  /** `dict(zip(timestep, strain))`: a later row for the same timestep replaces an earlier one. */
  function StrainMap(rows: seq<(int, real)>): map<int, real>
  {
    if rows == [] then map[]
    else StrainMap(rows[..|rows| - 1])[rows[|rows| - 1].0 := rows[|rows| - 1].1]
  }

  /** The map holds the timesteps of the rows, each with the strain of its last row. */
  lemma {:induction false} StrainMapSpec(rows: seq<(int, real)>)
    ensures forall t :: t in StrainMap(rows) <==> exists j :: 0 <= j < |rows| && rows[j].0 == t
    ensures forall j :: 0 <= j < |rows| && (forall k :: j < k < |rows| ==> rows[k].0 != rows[j].0) ==>
      StrainMap(rows)[rows[j].0] == rows[j].1
  {
    if rows != [] {
      var n := |rows| - 1;
      var init := rows[..n];
      StrainMapSpec(init);
      assert forall j :: 0 <= j < n ==> init[j] == rows[j];
      forall t | t in StrainMap(rows)
        ensures exists j :: 0 <= j < |rows| && rows[j].0 == t
      {
        if t != rows[n].0 {
          var j :| 0 <= j < n && init[j].0 == t;
          assert rows[j].0 == t;
        }
      }
    }
  }

  /** The matching loop: `(t, strain_map[t], d)` for each timestep `t` with density `d` that the strain data holds. */
  function Matched(ts: seq<int>, ds: seq<Option<real>>, strain: map<int, real>): seq<(int, real, Option<real>)>
    requires |ts| == |ds|
  {
    if ts == [] then []
    else
      var n := |ts| - 1;
      Matched(ts[..n], ds[..n], strain) + (if ts[n] in strain then [(ts[n], strain[ts[n]], ds[n])] else [])
  }

  /**
   * A matched triple is exactly a timestep present in the strain data, with
   * its strain and its density; and the triples follow the timesteps' order.
   */
  lemma {:induction false} MatchedSpec(ts: seq<int>, ds: seq<Option<real>>, strain: map<int, real>)
    requires |ts| == |ds|
    ensures forall x :: x in Matched(ts, ds, strain) <==>
      exists j :: 0 <= j < |ts| && ts[j] in strain && x == (ts[j], strain[ts[j]], ds[j])
    ensures Increasing(ts) ==> forall a, b :: 0 <= a < b < |Matched(ts, ds, strain)| ==>
      Matched(ts, ds, strain)[a].0 < Matched(ts, ds, strain)[b].0
  {
    if ts != [] {
      var n := |ts| - 1;
      var m := Matched(ts[..n], ds[..n], strain);
      MatchedSpec(ts[..n], ds[..n], strain);
      assert forall j :: 0 <= j < n ==> ts[..n][j] == ts[j] && ds[..n][j] == ds[j];
      if Increasing(ts) {
        assert Increasing(ts[..n]);
        forall a | 0 <= a < |m|
          ensures m[a].0 < ts[n]
        {
          assert m[a] in m;
        }
      }
    }
  }

  function Strains(ms: seq<(int, real, Option<real>)>): (r: seq<real>)
    ensures |r| == |ms|
  {
    if ms == [] then [] else Strains(ms[..|ms| - 1]) + [ms[|ms| - 1].1]
  }

  function Densities(ms: seq<(int, real, Option<real>)>): (r: seq<Option<real>>)
    ensures |r| == |ms|
  {
    if ms == [] then [] else Densities(ms[..|ms| - 1]) + [ms[|ms| - 1].2]
  }

  /** What `analyze_time_evolution` returns, or the error it raises. */
  function EvolutionSpec(data: map<int, Frame>, rows: Option<seq<(int, real)>>): Result<Evolution, AnalysisError>
  {
    var ts := SortedKeys(data.Keys);
    SortedKeysSpec(data.Keys);
    CollectSpec(data, ts);
    match Collect(data, ts)
    case Failure(e) => Failure(e)
    case Success((ds, cs, gs)) =>
      var ms := if rows.Some? then Matched(ts, ds, StrainMap(rows.value)) else [];
      Success(Evolution(ts, ds, cs, gs, Strains(ms), Densities(ms)))
  }

  /**
   * The timesteps are the stored ones in ascending order, with one entry per
   * timestep in each list; the matched pairs follow that order.
   */
  lemma EvolutionShape(data: map<int, Frame>, rows: Option<seq<(int, real)>>)
    ensures EvolutionSpec(data, rows).Success? ==>
      var e := EvolutionSpec(data, rows).value;
      Increasing(e.timesteps) && (forall t :: t in e.timesteps <==> t in data) &&
      |e.densities| == |e.timesteps| && |e.counts| == |e.timesteps| && |e.grains| == |e.timesteps| &&
      |e.matchedStrain| == |e.matchedDensity| && (rows.None? ==> e.matchedStrain == [])
  {
    var ts := SortedKeys(data.Keys);
    SortedKeysSpec(data.Keys);
    CollectSpec(data, ts);
  }

  /** The statistics loop of `analyze_time_evolution` over the timesteps `ts`. */
  method FrameStatistics(data: map<int, Frame>, ts: seq<int>) returns (r: Result<(seq<Option<real>>, seq<nat>, seq<nat>), AnalysisError>)
    requires forall k :: 0 <= k < |ts| ==> ts[k] in data
    ensures r == Collect(data, ts)
  {
    var densities: seq<Option<real>> := [];
    var counts: seq<nat> := [];
    var grains: seq<nat> := [];
    for k := 0 to |ts|
      invariant Collect(data, ts[..k]) == Success((densities, counts, grains))
    {
      assert ts[..k + 1][..k] == ts[..k];
      var frame := data[ts[k]];
      if frame.box.None? {
        CollectFailureStays(data, ts, k + 1);
        return Failure(NoBox(ts[k]));
      }
      var volume := BoxVolume(frame.box.value);
      var mask := IdentifyDislocations(frame.csp, CspThreshold);
      counts := counts + [CountTrue(mask)];
      densities := densities + [CalculateDislocationDensity(mask, volume)];
      grains := grains + [Grains(frame.types)];
    }
    assert ts[..|ts|] == ts;
    r := Success((densities, counts, grains));
  }

  /** The matching loop of `analyze_time_evolution`. */
  method MatchTimesteps(ts: seq<int>, densities: seq<Option<real>>, strainMap: map<int, real>)
    returns (matchedStrain: seq<real>, matchedDensity: seq<Option<real>>)
    requires |ts| == |densities|
    ensures matchedStrain == Strains(Matched(ts, densities, strainMap))
    ensures matchedDensity == Densities(Matched(ts, densities, strainMap))
  {
    matchedStrain, matchedDensity := [], [];
    ghost var ms: seq<(int, real, Option<real>)> := [];
    for k := 0 to |ts|
      invariant ms == Matched(ts[..k], densities[..k], strainMap)
      invariant matchedStrain == Strains(ms) && matchedDensity == Densities(ms)
    {
      assert ts[..k + 1][..k] == ts[..k] && densities[..k + 1][..k] == densities[..k];
      if ts[k] in strainMap {
        ghost var before := ms;
        ms := ms + [(ts[k], strainMap[ts[k]], densities[k])];
        assert ms[..|ms| - 1] == before;
        matchedStrain := matchedStrain + [strainMap[ts[k]]];
        matchedDensity := matchedDensity + [densities[k]];
      }
    }
    assert ts[..|ts|] == ts && densities[..|ts|] == densities;
  }

  /** `analyze_time_evolution` without the plots: the statistics loop, then the matching loop. */
  method AnalyzeTimeEvolution(data: map<int, Frame>, rows: Option<seq<(int, real)>>) returns (r: Result<Evolution, AnalysisError>)
    ensures r == EvolutionSpec(data, rows)
  {
    var ts := SortedKeys(data.Keys);
    SortedKeysSpec(data.Keys);
    var stats := FrameStatistics(data, ts);
    if stats.Failure? {
      return Failure(stats.error);
    }
    var (densities, counts, grains) := stats.value;
    CollectSpec(data, ts);
    var matchedStrain: seq<real> := [];
    var matchedDensity: seq<Option<real>> := [];
    if rows.Some? {
      matchedStrain, matchedDensity := MatchTimesteps(ts, densities, StrainMap(rows.value));
    }
    r := Success(Evolution(ts, densities, counts, grains, matchedStrain, matchedDensity));
  }

  /** Once a prefix of the timesteps fails, the whole run fails with the same error. */
  lemma {:induction false} CollectFailureStays(data: map<int, Frame>, ts: seq<int>, k: nat)
    requires forall j :: 0 <= j < |ts| ==> ts[j] in data
    requires k <= |ts| && Collect(data, ts[..k]).Failure?
    ensures Collect(data, ts) == Collect(data, ts[..k])
    decreases |ts| - k
  {
    if k < |ts| {
      assert ts[..k + 1][..k] == ts[..k];
      CollectFailureStays(data, ts, k + 1);
    } else {
      assert ts[..k] == ts;
    }
  }

  // ---------------------------------------------------------------------------
  // The three phases of the report
  // ---------------------------------------------------------------------------

  datatype Phase = Initial | Middle | Final

  /** The masks of `main`: up to 1000, above 1000 up to 5000, above 5000. */
  predicate InPhase(t: int, p: Phase)
  {
    match p
    case Initial => t <= 1000
    case Middle => t > 1000 && t <= 5000
    case Final => t > 5000
  }

  /** The one phase a timestep falls into. */
  function PhaseOf(t: int): (p: Phase)
    ensures InPhase(t, p)
    ensures forall q: Phase :: InPhase(t, q) ==> q == p
  {
    if t <= 1000 then Initial else if t <= 5000 then Middle else Final
  }

  /** `[d for d, m in zip(densities, mask) if m]` for the mask of phase `p`. */
  function PhaseDensities(ts: seq<int>, ds: seq<Option<real>>, p: Phase): seq<Option<real>>
    requires |ts| == |ds|
  {
    if ts == [] then []
    else
      var n := |ts| - 1;
      PhaseDensities(ts[..n], ds[..n], p) + (if InPhase(ts[n], p) then [ds[n]] else [])
  }

  /** The three phases split the densities: none is lost and none is counted twice. */
  lemma {:induction false} PhasesPartition(ts: seq<int>, ds: seq<Option<real>>)
    requires |ts| == |ds|
    ensures |PhaseDensities(ts, ds, Initial)| + |PhaseDensities(ts, ds, Middle)| + |PhaseDensities(ts, ds, Final)| == |ds|
  {
    if ts != [] {
      var n := |ts| - 1;
      PhasesPartition(ts[..n], ds[..n]);
      var p := PhaseOf(ts[n]);
    }
  }

  /** A density belongs to the phase of its timestep. */
  lemma {:induction false} PhaseMembers(ts: seq<int>, ds: seq<Option<real>>, p: Phase)
    requires |ts| == |ds|
    ensures forall j :: 0 <= j < |ts| && InPhase(ts[j], p) ==> ds[j] in PhaseDensities(ts, ds, p)
  {
    if ts != [] {
      var n := |ts| - 1;
      PhaseMembers(ts[..n], ds[..n], p);
      assert forall j :: 0 <= j < n ==> ts[..n][j] == ts[j] && ds[..n][j] == ds[j];
    }
  }

  /** The positions whose timestep falls in phase `p`, in ascending order. */
  function PhaseIndices(ts: seq<int>, p: Phase): (idx: seq<nat>)
    ensures forall k :: 0 <= k < |idx| ==> idx[k] < |ts| && InPhase(ts[idx[k]], p)
    ensures forall k, l :: 0 <= k < l < |idx| ==> idx[k] < idx[l]
    ensures forall j :: 0 <= j < |ts| && InPhase(ts[j], p) ==> j in idx
  {
    if ts == [] then []
    else
      var n := |ts| - 1;
      var front := PhaseIndices(ts[..n], p);
      assert forall j :: 0 <= j < n ==> ts[..n][j] == ts[j];
      front + (if InPhase(ts[n], p) then [n] else [])
  }

  /**
   * The comprehension keeps exactly the densities whose timestep is in phase
   * `p`, each once, in their original order: element k is the density at the
   * k-th such position.
   */
  lemma {:induction false} PhaseSelection(ts: seq<int>, ds: seq<Option<real>>, p: Phase)
    requires |ts| == |ds|
    ensures var idx := PhaseIndices(ts, p);
      |PhaseDensities(ts, ds, p)| == |idx| &&
      forall k :: 0 <= k < |idx| ==> PhaseDensities(ts, ds, p)[k] == ds[idx[k]]
  {
    if ts != [] {
      var n := |ts| - 1;
      PhaseSelection(ts[..n], ds[..n], p);
      var front := PhaseIndices(ts[..n], p);
      forall k | 0 <= k < |front|
        ensures ds[..n][front[k]] == ds[front[k]]
      {
      }
    }
  }

  // ---------------------------------------------------------------------------
  // The .xyz export
  // ---------------------------------------------------------------------------

  const FrameCaption := "Frame at timestep "

  /** One atom line: type, the three coordinates and the CSP value, as `show` prints a float. */
  function XyzLine(t: int, p: Vec3, c: real, show: real -> string): string
  {
    Join([IntText(t), show(p.x), show(p.y), show(p.z), show(c)], ' ')
  }

  function Min3(a: nat, b: nat, c: nat): nat
  {
    if a <= b && a <= c then a else if b <= c then b else c
  }

  /** One line per atom, over `zip(positions, types, csp)`. */
  function XyzAtoms(f: Frame, show: real -> string): (r: seq<string>)
    ensures |r| == Min3(|f.positions|, |f.types|, |f.csp|)
  {
    var n := Min3(|f.positions|, |f.types|, |f.csp|);
    seq(n, k requires 0 <= k < n => XyzLine(f.types[k], f.positions[k], f.csp[k], show))
  }

  /** The lines written for frame `f` stored at `timestep`: the atom count, the caption, then one line per atom. */
  function XyzLines(f: Frame, timestep: int, show: real -> string): seq<string>
  {
    [IntText(|f.positions|), FrameCaption + IntText(timestep)] + XyzAtoms(f, show)
  }

  /** The lines `export_frame_to_xyz` writes, or `None` when the timestep is not stored. */
  function XyzText(data: map<int, Frame>, timestep: int, show: real -> string): Option<seq<string>>
  {
    if timestep !in data then None else Some(XyzLines(data[timestep], timestep, show))
  }

  /** The first line reads back as the atom count and the second, after the caption, as the timestep. */
  lemma XyzHeader(f: Frame, timestep: int, show: real -> string)
    ensures var lines := XyzLines(f, timestep, show);
      |lines| >= 2 && ParseInt(lines[0]) == Some(|f.positions|) &&
      StartsWith(lines[1], FrameCaption) && ParseInt(lines[1][|FrameCaption|..]) == Some(timestep)
  {
    var lines := XyzLines(f, timestep, show);
    ParseIntText(|f.positions|);
    ParseIntText(timestep);
    assert lines[0] == IntText(|f.positions|);
    assert lines[1] == FrameCaption + IntText(timestep);
    assert lines[1][|FrameCaption|..] == IntText(timestep);
  }

  /** Line `k + 2` describes atom `k`; a consistent frame has one line per atom. */
  lemma XyzBody(f: Frame, timestep: int, show: real -> string)
    ensures var lines := XyzLines(f, timestep, show);
      (FrameOk(f) ==> |lines| == 2 + |f.positions|) &&
      forall k :: 2 <= k < |lines| ==> lines[k] == XyzLine(f.types[k - 2], f.positions[k - 2], f.csp[k - 2], show)
  {
  }

  /** The file exists exactly for a stored timestep, with the header and body above. */
  lemma XyzSpec(data: map<int, Frame>, timestep: int, show: real -> string)
    ensures XyzText(data, timestep, show).Some? <==> timestep in data
    ensures timestep in data ==>
      var f := data[timestep];
      var lines := XyzText(data, timestep, show).value;
      (FrameOk(f) ==> |lines| == 2 + |f.positions|) &&
      |lines| >= 2 && ParseInt(lines[0]) == Some(|f.positions|) &&
      StartsWith(lines[1], FrameCaption) && ParseInt(lines[1][|FrameCaption|..]) == Some(timestep) &&
      forall k :: 2 <= k < |lines| ==> lines[k] == XyzLine(f.types[k - 2], f.positions[k - 2], f.csp[k - 2], show)
  {
    if timestep in data {
      XyzHeader(data[timestep], timestep, show);
      XyzBody(data[timestep], timestep, show);
    }
  }

  /** The atom loop of `export_frame_to_xyz`: one line per atom, in order. */
  method WriteXyzAtoms(f: Frame, show: real -> string) returns (body: seq<string>)
    ensures body == XyzAtoms(f, show)
  {
    body := [];
    var n := Min3(|f.positions|, |f.types|, |f.csp|);
    for k := 0 to n
      invariant |body| == k
      invariant forall j :: 0 <= j < k ==> body[j] == XyzLine(f.types[j], f.positions[j], f.csp[j], show)
    {
      body := body + [XyzLine(f.types[k], f.positions[k], f.csp[k], show)];
    }
  }

  /** `export_frame_to_xyz`: the two header lines, then one line per atom. */
  method ExportFrameToXyz(data: map<int, Frame>, timestep: int, show: real -> string) returns (r: Option<seq<string>>)
    ensures r == XyzText(data, timestep, show)
  {
    if timestep !in data {
      return None;
    }
    var f := data[timestep];
    var lines := [IntText(|f.positions|), FrameCaption + IntText(timestep)];
    var body := WriteXyzAtoms(f, show);
    lines := lines + body;
    r := Some(lines);
  }
}
