/**
 `open_grid`: fuse a BOUT++ grid file into a simulation dataset. The loaded
 grid passes, strictly in order, through the dimension filter, the x and y
 guard-cell trims (with the split for double-null topologies), separation of
 its scalars into metadata, the merge into the target dataset, and the
 geometry dispatch. Loading the file and building geometry coordinates are
 outside the model: the grid arrives as a value, and the call to
 `apply_geometry` is returned as a record of what it was given.
 */
module Grid {
  import opened Python
  import opened Arrays
  import opened Datasets

  /** The dimensions a grid variable may use. */
  const AcceptableDims: set<string> := {"t", "x", "y", "z"}

  /** The warnings `open_grid` can issue. */
  datatype Warning =
    | UnrecognisedDims(dims: set<string>) // variables on these dimensions were dropped
    | NoGeometry                          // no geometry type, so no coordinates added

  /** What `apply_geometry` was called with. */
  datatype GeometryCall = GeometryCall(geometry: AttrValue, coordinates: Option<seq<string>>)

  /** The fused dataset (before geometry coordinates are added) and the
      geometry call, if one was made. */
  datatype Opened = Opened(ds: Dataset, geometryCall: Option<GeometryCall>)

  /** The returned dataset or the exception raised, with the warnings issued
      on the way (those issued before an exception included). */
  datatype Outcome = Outcome(result: Result<Opened>, warnings: seq<Warning>)

  datatype Filtered = Filtered(grid: Dataset, warnings: seq<Warning>)

  // ---------------------------------------------------------------------------
  // Dimension filter

  /** The dimensions of the grid that are not acceptable. */
  function Unrecognised(vars: Vars): set<string>
  {
    DimsOf(vars) - AcceptableDims
  }

  /** Drop, in one batch, every variable on a dimension outside t, x, y, z,
      warning once with the set of those dimensions. */
  function FilterDims(grid: Dataset): (r: Filtered)
    ensures r.grid.attrs == grid.attrs
    ensures forall n :: n in r.grid.vars ==> n in grid.vars && r.grid.vars[n] == grid.vars[n]
    ensures |r.warnings| <= 1
  {
    var unrecognised := Unrecognised(grid.vars);
    if |unrecognised| > 0 then
      Filtered(grid.(vars := DropDims(grid.vars, unrecognised)), [UnrecognisedDims(unrecognised)])
    else
      Filtered(grid, [])
  }

  /** After the filter every variable's dimensions lie in t, x, y, z; a
      variable is kept, unchanged, iff all its dimensions are acceptable; and
      one warning naming exactly the unrecognised dimensions is issued iff
      some variable uses one. */
  lemma FilterDimsSpec(grid: Dataset)
    ensures forall n, d :: n in FilterDims(grid).grid.vars && d in FilterDims(grid).grid.vars[n].dims ==>
              d in AcceptableDims
    ensures forall n :: n in FilterDims(grid).grid.vars <==>
              n in grid.vars && forall d :: d in grid.vars[n].dims ==> d in AcceptableDims
    ensures FilterDims(grid).warnings != [] <==>
              exists n, d :: n in grid.vars && d in grid.vars[n].dims && d !in AcceptableDims
    ensures FilterDims(grid).warnings == [] || FilterDims(grid).warnings == [UnrecognisedDims(Unrecognised(grid.vars))]
    ensures forall d :: d in Unrecognised(grid.vars) <==>
              d !in AcceptableDims && exists n :: n in grid.vars && d in grid.vars[n].dims
  {
    var r := FilterDims(grid);
    var bad := Unrecognised(grid.vars);
    if |bad| > 0 {
      var d :| d in bad;
      var n :| n in grid.vars && d in grid.vars[n].dims;
      forall n | n in grid.vars
        ensures n in r.grid.vars <==> forall d :: d in grid.vars[n].dims ==> d in AcceptableDims
      {
        assert forall d :: d in grid.vars[n].dims ==> d in DimsOf(grid.vars);
      }
    } else {
      assert bad == {};
      forall n, d | n in grid.vars && d in grid.vars[n].dims
        ensures d in AcceptableDims
      {
        assert d in DimsOf(grid.vars);
      }
    }
  }

  // ---------------------------------------------------------------------------
  // Guard-cell trims, line by line

  /** The slice `[w:-w]` of one line: w guard cells off each end. */
  function GuardTrim<T>(s: seq<T>, w: int): seq<T>
  {
    PySlice(s, Some(w), Some(-w))
  }

  /** The y trim of one line in a double-null grid, as the code computes it:
      the guard trim, then the pieces `[:nin]` and `[nin+2g:]` of the
      trimmed line, joined. */
  function DoubleNullTrim<T>(s: seq<T>, g: int, nin: int): seq<T>
  {
    var u := GuardTrim(s, g);
    PySlice(u, None, Some(nin)) + PySlice(u, Some(nin + 2 * g), None)
  }

  /** t is s with w cells removed from each end: its length is |s| - 2w
      (0 when s is too short) and its cell i is cell i + w of s. */
  ghost predicate ShiftedBy<T>(s: seq<T>, t: seq<T>, w: nat)
  {
    && |t| == (if |s| >= 2 * w then |s| - 2 * w else 0)
    && forall i :: 0 <= i < |t| ==> t[i] == s[i + w]
  }

  /** The slice `[w:-w]` removes exactly w guard cells from each end. */
  lemma GuardTrimShifts<T>(s: seq<T>, w: int)
    requires w > 0
    ensures ShiftedBy(s, GuardTrim(s, w), w)
  {
  }

  /** In original indices the double-null trim keeps rows [g, g+nin) and
      [nin+3g, |s|-g), in order and unaltered, when the inner region fits in
      the guard-trimmed line: |s| - 4g rows remain. */
  lemma DoubleNullTrimKeeps<T>(s: seq<T>, g: int, nin: int)
    requires g > 0 && 0 <= nin && nin + 4 * g <= |s|
    ensures DoubleNullTrim(s, g, nin) == s[g..g + nin] + s[nin + 3 * g..|s| - g]
    ensures |DoubleNullTrim(s, g, nin)| == |s| - 4 * g
  {
    var u := GuardTrim(s, g);
    assert u == s[g..|s| - g];
    assert PySlice(u, None, Some(nin)) == s[g..g + nin];
    assert PySlice(u, Some(nin + 2 * g), None) == s[nin + 3 * g..|s| - g];
  }

  /** When ny_inner reaches past the guard-trimmed line, the second cut
      removes nothing and the double-null trim is the plain guard trim. */
  lemma DoubleNullTrimPastEnd<T>(s: seq<T>, g: int, nin: int)
    requires g > 0 && nin >= |GuardTrim(s, g)|
    ensures DoubleNullTrim(s, g, nin) == GuardTrim(s, g)
  {
  }

  // ---------------------------------------------------------------------------
  // x guard-cell trim

  /** Remove the x guard cells: only without keep_xboundaries and with a
      target dataset, whose metadata gives the width MXG; a width of 0 or
      less leaves the grid alone. */
  function TrimX(grid: Dataset, ds: Option<Dataset>, keepX: bool): (r: Result<Dataset>)
    ensures keepX || ds.None? ==> r == Ok(grid)
    ensures !keepX && ds.Some? && MetadataOf(ds.value, "MXG").Ok? && MetadataOf(ds.value, "MXG").value <= 0 ==>
              r == Ok(grid)
    ensures !keepX && ds.Some? && MetadataOf(ds.value, "MXG").Err? ==> r == Err(MetadataOf(ds.value, "MXG").error)
    ensures !keepX && ds.Some? && MetadataOf(ds.value, "MXG").Ok? && MetadataOf(ds.value, "MXG").value > 0 ==>
              (r.Err? <==> "x" !in DimsOf(grid.vars))
    ensures r.Ok? ==> r.value.attrs == grid.attrs
    ensures r.Ok? ==> r.value.vars.Keys == grid.vars.Keys
    ensures r.Ok? ==> forall n :: n in grid.vars ==>
              r.value.vars[n].dims == grid.vars[n].dims && r.value.vars[n].attrs == grid.vars[n].attrs
    ensures r.Ok? ==> forall n :: n in grid.vars && "x" !in grid.vars[n].dims ==> r.value.vars[n] == grid.vars[n]
    ensures r != Err(NotImplemented)
  {
    if keepX then Ok(grid)
    else
      var m :- if ds.Some? then MetadataOf(ds.value, "MXG") else Ok(0);
      if m > 0 then
        var vars :- Isel(grid.vars, "x", Some(m), Some(-m));
        Ok(grid.(vars := vars))
      else Ok(grid)
  }

  /** With a target whose MXG is m > 0, every line along x of every
      x-variable loses m cells at each end: its length becomes |s| - 2m (or 0)
      and its cell i is the input's cell i + m. */
  lemma TrimXLines(grid: Dataset, ds: Dataset, m: int, n: string, p: seq<nat>, s: seq<Arr>)
    requires MetadataOf(ds, "MXG") == Ok(m) && m > 0
    requires n in grid.vars && "x" in grid.vars[n].dims && |p| == IndexOf(grid.vars[n].dims, "x")
    requires LineAt(grid.vars[n].data, p) == Some(s)
    ensures TrimX(grid, Some(ds), false).Ok?
    ensures LineAt(TrimX(grid, Some(ds), false).value.vars[n].data, p).Some?
    ensures ShiftedBy(s, LineAt(TrimX(grid, Some(ds), false).value.vars[n].data, p).value, m)
  {
    assert "x" in DimsOf(grid.vars);
    LineAtAxis(grid.vars[n].data, p, SliceLine(Some(m), Some(-m)));
    GuardTrimShifts(s, m);
  }

  // ---------------------------------------------------------------------------
  // y guard-cell trim

  /** Remove the y guard cells unless keep_yboundaries: the width g is the
      grid's own y_boundary_guards, and for g > 0 the slice `[g:-g]` is taken
      and then, for a double-null grid, the inner cut is removed too. */
  function TrimY(grid: Dataset, keepY: bool): (r: Result<Dataset>)
    ensures keepY ==> r == Ok(grid)
    ensures !keepY && ScalarOf(grid.vars, "y_boundary_guards").Ok? ==>
              (ScalarOf(grid.vars, "y_boundary_guards").value <= 0 ==> r == Ok(grid))
    ensures !keepY && ScalarOf(grid.vars, "y_boundary_guards").Err? ==>
              r == Err(ScalarOf(grid.vars, "y_boundary_guards").error)
    ensures r.Ok? ==> r.value.attrs == grid.attrs
    ensures r.Ok? ==> r.value.vars.Keys == grid.vars.Keys
    ensures r.Ok? ==> forall n :: n in grid.vars ==>
              r.value.vars[n].dims == grid.vars[n].dims && r.value.vars[n].attrs == grid.vars[n].attrs
    ensures r.Ok? ==> forall n :: n in grid.vars && "y" !in grid.vars[n].dims ==> r.value.vars[n] == grid.vars[n]
    ensures !keepY && ScalarOf(grid.vars, "y_boundary_guards").Ok? ==>
              (ScalarOf(grid.vars, "y_boundary_guards").value > 0 && "y" !in DimsOf(grid.vars) ==>
                 r == Err(MissingDimension("y")))
    ensures r != Err(NotImplemented)
  {
    if keepY then Ok(grid)
    else
      var g :- ScalarOf(grid.vars, "y_boundary_guards");
      if g <= 0 then Ok(grid) else TrimYBy(grid, g)
  }

  /** The y trim for a positive guard width g: the slice `[g:-g]` along y,
      then the double-null cut. */
  function TrimYBy(grid: Dataset, g: int): (r: Result<Dataset>)
    ensures r.Ok? ==> r.value.attrs == grid.attrs
    ensures r.Ok? ==> r.value.vars.Keys == grid.vars.Keys
    ensures r.Ok? ==> forall n :: n in grid.vars ==>
              r.value.vars[n].dims == grid.vars[n].dims && r.value.vars[n].attrs == grid.vars[n].attrs
    ensures r.Ok? ==> forall n :: n in grid.vars && "y" !in grid.vars[n].dims ==> r.value.vars[n] == grid.vars[n]
    ensures r != Err(NotImplemented)
  {
    var trimmed :- Isel(grid.vars, "y", Some(g), Some(-g));
    var vars :- SplitDoubleNull(trimmed, g);
    Ok(grid.(vars := vars))
  }

  /** The second step of the y trim, on the guard-trimmed variables: if
      jyseps1_2 > jyseps2_1 (double null) they are cut into `[:ny_inner]` and
      `[ny_inner+2g:]` along y and the two pieces are joined along y. */
  function SplitDoubleNull(trimmed: Vars, g: int): (r: Result<Vars>)
    ensures r.Ok? ==> r.value.Keys == trimmed.Keys
    ensures r.Ok? ==> forall n :: n in trimmed ==>
              r.value[n].dims == trimmed[n].dims && r.value[n].attrs == trimmed[n].attrs
    ensures r.Ok? ==> forall n :: n in trimmed && "y" !in trimmed[n].dims ==> r.value[n] == trimmed[n]
    ensures r != Err(NotImplemented)
  {
    var j12 :- ScalarOf(trimmed, "jyseps1_2");
    var j21 :- ScalarOf(trimmed, "jyseps2_1");
    if j12 > j21 then
      var nin :- ScalarOf(trimmed, "ny_inner");
      CutDoubleNull(trimmed, g, nin)
    else
      Ok(trimmed)
  }

  /** The cut itself: the pieces `[:nin]` and `[nin+2g:]` along y, joined
      along y. */
  function CutDoubleNull(trimmed: Vars, g: int, nin: int): (r: Result<Vars>)
    ensures r.Ok? ==> r.value.Keys == trimmed.Keys
    ensures r.Ok? ==> forall n :: n in trimmed ==>
              r.value[n].dims == trimmed[n].dims && r.value[n].attrs == trimmed[n].attrs
    ensures r.Ok? ==> forall n :: n in trimmed && "y" !in trimmed[n].dims ==> r.value[n] == trimmed[n]
    ensures r != Err(NotImplemented)
  {
    var lower :- Isel(trimmed, "y", None, Some(nin));
    var upper := Isel(trimmed, "y", Some(nin + 2 * g), None).value;
    Concat(lower, upper, "y")
  }

  /** A grid variable that does not run along y and holds the single value v. */
  predicate YFree(vars: Vars, name: string, v: int)
  {
    name in vars && "y" !in vars[name].dims && Sole(vars[name].data) == Some(v)
  }

  /** The two pieces of a double-null cut always join: both are cut from the
      same trimmed grid, so they agree everywhere except along y. */
  lemma PiecesJoin(trimmed: Vars, g: int, nin: int)
    requires "y" in DimsOf(trimmed)
    ensures Isel(trimmed, "y", None, Some(nin)).Ok? && Isel(trimmed, "y", Some(nin + 2 * g), None).Ok?
    ensures Concat(Isel(trimmed, "y", None, Some(nin)).value,
                   Isel(trimmed, "y", Some(nin + 2 * g), None).value, "y").Ok?
  {
    var lower := Isel(trimmed, "y", None, Some(nin)).value;
    var upper := Isel(trimmed, "y", Some(nin + 2 * g), None).value;
    forall n | n in lower
      ensures Joinable(lower[n], upper[n], "y")
    {
      if "y" in trimmed[n].dims {
        ConcatAtAxes(trimmed[n].data, IndexOf(trimmed[n].dims, "y"),
                     SliceLine(None, Some(nin)), SliceLine(Some(nin + 2 * g), None));
      }
    }
  }

  /** Which branch the double-null cut takes: for topology indices that do
      not run along y, it joins the two pieces iff jyseps1_2 > jyseps2_1. */
  lemma SplitDoubleNullBranch(trimmed: Vars, g: int, j12: int, j21: int, nin: int)
    requires YFree(trimmed, "jyseps1_2", j12) && YFree(trimmed, "jyseps2_1", j21)
    requires j12 > j21 ==> YFree(trimmed, "ny_inner", nin) && "y" in DimsOf(trimmed)
    ensures j12 <= j21 ==> SplitDoubleNull(trimmed, g) == Ok(trimmed)
    ensures j12 > j21 ==>
              SplitDoubleNull(trimmed, g) ==
              Concat(Isel(trimmed, "y", None, Some(nin)).value, Isel(trimmed, "y", Some(nin + 2 * g), None).value, "y")
  {
    assert ScalarOf(trimmed, "jyseps1_2") == Ok(j12);
    assert ScalarOf(trimmed, "jyseps2_1") == Ok(j21);
    if j12 > j21 {
      assert ScalarOf(trimmed, "ny_inner") == Ok(nin);
      assert SplitDoubleNull(trimmed, g) == CutDoubleNull(trimmed, g, nin);
    }
  }

  /** The double-null cut line by line: every line u along y becomes
      `u[:nin] + u[nin+2g:]` when jyseps1_2 > jyseps2_1, and stays u otherwise. */
  lemma SplitDoubleNullLines(trimmed: Vars, n: string, p: seq<nat>, u: seq<Arr>, g: int, j12: int, j21: int, nin: int)
    requires YFree(trimmed, "jyseps1_2", j12) && YFree(trimmed, "jyseps2_1", j21)
    requires j12 > j21 ==> YFree(trimmed, "ny_inner", nin)
    requires n in trimmed && "y" in trimmed[n].dims && |p| == IndexOf(trimmed[n].dims, "y")
    requires LineAt(trimmed[n].data, p) == Some(u)
    ensures SplitDoubleNull(trimmed, g).Ok?
    ensures LineAt(SplitDoubleNull(trimmed, g).value[n].data, p) ==
            Some(if j12 > j21 then PySlice(u, None, Some(nin)) + PySlice(u, Some(nin + 2 * g), None) else u)
  {
    assert "y" in DimsOf(trimmed);
    SplitDoubleNullBranch(trimmed, g, j12, j21, nin);
    if j12 > j21 {
      PiecesJoin(trimmed, g, nin);
      var lo := SliceLine(None, Some(nin));
      var hi := SliceLine(Some(nin + 2 * g), None);
      var lower := Isel(trimmed, "y", None, Some(nin)).value;
      var upper := Isel(trimmed, "y", Some(nin + 2 * g), None).value;
      var k := IndexOf(trimmed[n].dims, "y");
      assert lower[n].data == AtAxis(trimmed[n].data, k, lo);
      assert upper[n].data == AtAxis(trimmed[n].data, k, hi);
      ConcatAtAxes(trimmed[n].data, k, lo, hi);
      assert Concat(lower, upper, "y").value[n].data == AtAxis(trimmed[n].data, k, Joined(lo, hi));
      LineAtAxis(trimmed[n].data, p, Joined(lo, hi));
    }
  }

  /** With a positive guard width the y trim is the guard slice followed by
      the double-null cut. */
  lemma TrimYSteps(grid: Dataset, g: int)
    requires ScalarOf(grid.vars, "y_boundary_guards") == Ok(g) && g > 0
    requires "y" in DimsOf(grid.vars)
    ensures var cut := SplitDoubleNull(Isel(grid.vars, "y", Some(g), Some(-g)).value, g);
            TrimY(grid, false) == if cut.Ok? then Ok(grid.(vars := cut.value)) else Err(cut.error)
  {
    assert TrimY(grid, false) == TrimYBy(grid, g);
  }

  /** The guard slice along y leaves a variable that does not run along y as
      it was. */
  lemma YFreeKept(vars: Vars, name: string, v: int, start: Option<int>, stop: Option<int>)
    requires YFree(vars, name, v) && "y" in DimsOf(vars)
    ensures YFree(Isel(vars, "y", start, stop).value, name, v)
  {
  }

  /** The y trim line by line: for a grid whose guard width g is positive and
      whose topology indices do not run along y, every line along y of every
      y-variable becomes the double-null trim of that line when
      jyseps1_2 > jyseps2_1, and the plain guard trim otherwise. */
  lemma TrimYLines(grid: Dataset, n: string, p: seq<nat>, s: seq<Arr>, g: int, j12: int, j21: int, nin: int)
    requires ScalarOf(grid.vars, "y_boundary_guards") == Ok(g) && g > 0
    requires YFree(grid.vars, "jyseps1_2", j12) && YFree(grid.vars, "jyseps2_1", j21)
    requires j12 > j21 ==> YFree(grid.vars, "ny_inner", nin)
    requires n in grid.vars && "y" in grid.vars[n].dims && |p| == IndexOf(grid.vars[n].dims, "y")
    requires LineAt(grid.vars[n].data, p) == Some(s)
    ensures TrimY(grid, false).Ok?
    ensures LineAt(TrimY(grid, false).value.vars[n].data, p) ==
            Some(if j12 > j21 then DoubleNullTrim(s, g, nin) else GuardTrim(s, g))
  {
    assert "y" in DimsOf(grid.vars);
    var guard := SliceLine(Some(g), Some(-g));
    var trimmed := Isel(grid.vars, "y", Some(g), Some(-g)).value;
    YFreeKept(grid.vars, "jyseps1_2", j12, Some(g), Some(-g));
    YFreeKept(grid.vars, "jyseps2_1", j21, Some(g), Some(-g));
    if j12 > j21 {
      YFreeKept(grid.vars, "ny_inner", nin, Some(g), Some(-g));
    }
    assert trimmed[n].data == AtAxis(grid.vars[n].data, |p|, guard);
    LineAtAxis(grid.vars[n].data, p, guard);
    SplitDoubleNullLines(trimmed, n, p, GuardTrim(s, g), g, j12, j21, nin);
    TrimYSteps(grid, g);
  }

  /** Single null (jyseps1_2 <= jyseps2_1): every line along y loses g cells
      at each end, Ny becoming Ny - 2g, cell i coming from cell i + g. */
  lemma TrimYSingleNull(grid: Dataset, n: string, p: seq<nat>, s: seq<Arr>, g: int, j12: int, j21: int)
    requires ScalarOf(grid.vars, "y_boundary_guards") == Ok(g) && g > 0
    requires YFree(grid.vars, "jyseps1_2", j12) && YFree(grid.vars, "jyseps2_1", j21) && j12 <= j21
    requires n in grid.vars && "y" in grid.vars[n].dims && |p| == IndexOf(grid.vars[n].dims, "y")
    requires LineAt(grid.vars[n].data, p) == Some(s)
    ensures TrimY(grid, false).Ok?
    ensures LineAt(TrimY(grid, false).value.vars[n].data, p).Some?
    ensures ShiftedBy(s, LineAt(TrimY(grid, false).value.vars[n].data, p).value, g)
  {
    TrimYLines(grid, n, p, s, g, j12, j21, 0);
    GuardTrimShifts(s, g);
  }

  /** Double null (jyseps1_2 > jyseps2_1) with the inner region inside the
      trimmed line: every line along y becomes rows [g, g+nin) followed by
      rows [nin+3g, Ny-g) of the input, Ny - 4g rows in all, nothing
      reordered or altered at the junction. */
  lemma TrimYDoubleNull(grid: Dataset, n: string, p: seq<nat>, s: seq<Arr>, g: int, j12: int, j21: int, nin: int)
    requires ScalarOf(grid.vars, "y_boundary_guards") == Ok(g) && g > 0
    requires YFree(grid.vars, "jyseps1_2", j12) && YFree(grid.vars, "jyseps2_1", j21) && j12 > j21
    requires YFree(grid.vars, "ny_inner", nin) && 0 <= nin
    requires n in grid.vars && "y" in grid.vars[n].dims && |p| == IndexOf(grid.vars[n].dims, "y")
    requires LineAt(grid.vars[n].data, p) == Some(s) && nin + 4 * g <= |s|
    ensures TrimY(grid, false).Ok?
    ensures LineAt(TrimY(grid, false).value.vars[n].data, p) == Some(s[g..g + nin] + s[nin + 3 * g..|s| - g])
    ensures |LineAt(TrimY(grid, false).value.vars[n].data, p).value| == |s| - 4 * g
  {
    TrimYLines(grid, n, p, s, g, j12, j21, nin);
    DoubleNullTrimKeeps(s, g, nin);
  }

  // ---------------------------------------------------------------------------
  // Separate and merge

  /** `xr.merge((ds, grid))` after `grid.drop(ds.keys())`, then the grid's
      scalars stamped as the `grid` attribute group on the dataset and on
      every variable. The merge carries no dataset attributes over, so the
      target's `metadata` attribute is gone afterwards. */
  function MergeInto(target: Dataset, sep: Separated): Dataset
  {
    var pruned := sep.fields - target.vars.Keys;
    SetAttrsOnAllVars(Dataset(target.vars + pruned, map[]), "grid", Group(sep.metadata))
  }

  /** Move the grid's scalars into metadata and, with a target, merge the
      remaining fields into it, the target's own variables taking precedence.
      With a target the y-boundary check comes first: a positive
      y_boundary_guards left among the fields together with a false
      keep_yboundaries in the target's metadata raises. The stamping
      sets the `grid` attribute on the result and on all its variables. */
  function Fuse(grid: Dataset, ds: Option<Dataset>): (r: Result<Dataset>)
    ensures r.Ok? ==> forall n :: n in r.value.vars ==>
              "grid" in r.value.vars[n].attrs && r.value.vars[n].attrs["grid"] == Group(Separate(grid.vars).metadata)
    ensures r.Ok? ==> r.value.attrs == (if ds.None? then grid.attrs else map[])[Name("grid") := Group(Separate(grid.vars).metadata)]
    ensures ds.None? ==> r.Ok?
  {
    var sep := Separate(grid.vars);
    if ds.None? then
      Ok(SetAttrsOnAllVars(Dataset(sep.fields, grid.attrs), "grid", Group(sep.metadata)))
    else
      var positive :- GetPositive(sep.fields, "y_boundary_guards");
      if positive then
        var keep :- MetadataOf(ds.value, "keep_yboundaries");
        if keep == 0 then Err(NotImplemented) else Ok(MergeInto(ds.value, sep))
      else
        Ok(MergeInto(ds.value, sep))
  }

  /** Without a target the fused dataset is the grid's array fields, each
      as it was apart from the added `grid` attribute; its scalars are gone. */
  lemma FuseAlone(grid: Dataset)
    ensures Fuse(grid, None).Ok?
    ensures forall n :: n in Fuse(grid, None).value.vars <==> n in grid.vars && grid.vars[n].dims != []
    ensures forall n :: n in Fuse(grid, None).value.vars ==>
              Fuse(grid, None).value.vars[n].dims == grid.vars[n].dims &&
              Fuse(grid, None).value.vars[n].data == grid.vars[n].data &&
              Fuse(grid, None).value.vars[n].attrs == grid.vars[n].attrs["grid" := Group(Separate(grid.vars).metadata)]
  {
  }

  /** With a target, a successful fusion holds exactly the target's variables
      and the grid's array fields; every name the target has keeps the
      target's variable, and every other name the grid's (each with the
      `grid` attribute added). */
  lemma FuseTargetWins(grid: Dataset, target: Dataset)
    requires Fuse(grid, Some(target)).Ok?
    ensures var out := Fuse(grid, Some(target)).value.vars;
            && out.Keys == target.vars.Keys + Separate(grid.vars).fields.Keys
            && (forall n :: n in target.vars ==>
                  out[n].dims == target.vars[n].dims && out[n].data == target.vars[n].data &&
                  out[n].attrs == target.vars[n].attrs["grid" := Group(Separate(grid.vars).metadata)])
            && (forall n :: n in grid.vars && grid.vars[n].dims != [] && n !in target.vars ==>
                  out[n].dims == grid.vars[n].dims && out[n].data == grid.vars[n].data &&
                  out[n].attrs == grid.vars[n].attrs["grid" := Group(Separate(grid.vars).metadata)])
  {
    assert Fuse(grid, Some(target)).value == MergeInto(target, Separate(grid.vars));
  }

  /** With a target, fusion raises NotImplementedError exactly when the
      separated grid's y_boundary_guards (0 when absent) tests positive and
      the target's keep_yboundaries is false; it succeeds exactly when the
      truth test and the metadata lookup it needs do not raise and the
      check does not fire. */
  lemma FuseMismatch(grid: Dataset, target: Dataset)
    ensures var positive := GetPositive(Separate(grid.vars).fields, "y_boundary_guards");
            Fuse(grid, Some(target)) == Err(NotImplemented) <==>
              positive == Ok(true) &&
              MetadataOf(target, "keep_yboundaries") == Ok(0)
    ensures var positive := GetPositive(Separate(grid.vars).fields, "y_boundary_guards");
            Fuse(grid, Some(target)).Ok? <==>
              positive.Ok? &&
              (!positive.value || (MetadataOf(target, "keep_yboundaries").Ok? && MetadataOf(target, "keep_yboundaries").value != 0))
  {
    assert Fuse(grid, Some(target)) != Err(NotImplemented) || Fuse(grid, Some(target)).Err?;
  }

  /** As written, the y-boundary check reads y_boundary_guards from the grid
      after its scalars were moved to metadata: when y_boundary_guards is a
      scalar it is no longer there, reads as 0, and the check never raises. */
  lemma FuseScalarGuardNeverRaises(grid: Dataset, target: Dataset)
    requires "y_boundary_guards" in grid.vars && grid.vars["y_boundary_guards"].dims == []
    ensures Fuse(grid, Some(target)).Ok?
  {
    assert "y_boundary_guards" !in Separate(grid.vars).fields;
  }

  // ---------------------------------------------------------------------------
  // Geometry dispatch

  /** The resolved geometry (None when there is none) and the warnings issued. */
  datatype Resolved = Resolved(geometry: Option<AttrValue>, warnings: seq<Warning>)

  /** Resolve the geometry as the code does: an explicit geometry is used as
      given; without one, the dataset attribute `geometry` is read only if the
      attribute dictionary has the key `None` (the test is `geometry in
      ds.attrs` with geometry None); otherwise nothing is resolved and, unless
      quiet, a warning is issued. */
  function ResolveGeometry(geometry: Option<string>, attrs: map<Key, AttrValue>, quiet: bool): (r: Resolved)
    ensures geometry.Some? ==> r == Resolved(Some(Text(geometry.value)), [])
    ensures r.warnings == [] || r.warnings == [NoGeometry]
    ensures NoGeometry in r.warnings <==> geometry.None? && NoneKey !in attrs && !quiet
    ensures geometry.None? && NoneKey !in attrs ==> r.geometry == None
    ensures geometry.None? && NoneKey in attrs ==>
              r == Resolved(if Name("geometry") in attrs then Some(attrs[Name("geometry")]) else None, [])
  {
    if geometry.None? then
      if NoneKey in attrs then
        Resolved(if Name("geometry") in attrs then Some(attrs[Name("geometry")]) else None, [])
      else
        Resolved(None, if quiet then [] else [NoGeometry])
    else
      Resolved(Some(Text(geometry.value)), [])
  }

  // ---------------------------------------------------------------------------
  // The whole pipeline

  /** The trims and the fusion, on the dimension-filtered grid. */
  function Fused(grid: Dataset, ds: Option<Dataset>, keepX: bool, keepY: bool): (r: Result<Dataset>)
  {
    var xTrimmed :- TrimX(grid, ds, keepX);
    var yTrimmed :- TrimY(xTrimmed, keepY);
    Fuse(yTrimmed, ds)
  }

  /** `open_grid(gridfilepath, geometry, coordinates, ds, quiet,
      keep_xboundaries, keep_yboundaries)` for the grid loaded from
      gridfilepath. */
  function OpenGrid(grid: Dataset, geometry: Option<string>, coordinates: Option<seq<string>>,
                    ds: Option<Dataset>, quiet: bool, keepX: bool, keepY: bool): (r: Outcome)
    ensures r.result.Ok? && r.result.value.geometryCall.Some? ==> geometry.Some? || NoneKey in r.result.value.ds.attrs
  {
    var filtered := FilterDims(grid);
    Dispatch(filtered.warnings, Fused(filtered.grid, ds, keepX, keepY), geometry, coordinates, quiet)
  }

  /** The end of open_grid: an exception from the earlier steps propagates
      with the warnings already issued; otherwise the geometry is resolved and,
      if there is one, apply_geometry is called with it. */
  function Dispatch(warnings: seq<Warning>, fused: Result<Dataset>, geometry: Option<string>,
                    coordinates: Option<seq<string>>, quiet: bool): (r: Outcome)
    ensures fused.Err? ==> r == Outcome(Err(fused.error), warnings)
    ensures fused.Ok? ==> r.result.Ok? && r.result.value.ds == fused.value
    ensures fused.Ok? ==>
              var resolved := ResolveGeometry(geometry, fused.value.attrs, quiet);
              && r.warnings == warnings + resolved.warnings
              && (r.result.value.geometryCall.Some? <==> resolved.geometry.Some?)
              && (resolved.geometry.Some? ==>
                    r.result.value.geometryCall == Some(GeometryCall(resolved.geometry.value, coordinates)))
  {
    if fused.Err? then
      Outcome(Err(fused.error), warnings)
    else
      var resolved := ResolveGeometry(geometry, fused.value.attrs, quiet);
      var call := if resolved.geometry.Some? then Some(GeometryCall(resolved.geometry.value, coordinates)) else None;
      Outcome(Ok(Opened(fused.value, call)), warnings + resolved.warnings)
  }

  /** The trims keep the dataset attributes, and fusion keeps them only
      without a target. */
  lemma FusedAttrs(grid: Dataset, ds: Option<Dataset>, keepX: bool, keepY: bool)
    requires Fused(grid, ds, keepX, keepY).Ok?
    ensures var attrs := Fused(grid, ds, keepX, keepY).value.attrs;
            && Name("grid") in attrs && attrs[Name("grid")].Group?
            && attrs == (if ds.None? then grid.attrs else map[])[Name("grid") := attrs[Name("grid")]]
  {
    var x := TrimX(grid, ds, keepX).value;
    var y := TrimY(x, keepY).value;
    assert Fused(grid, ds, keepX, keepY) == Fuse(y, ds);
  }

  /** Dispatch adds at most the NoGeometry warning to those already issued,
      and adds it iff it returns without a geometry argument, without a
      `None` attribute key and without quiet. */
  lemma DispatchWarnings(warnings: seq<Warning>, fused: Result<Dataset>, geometry: Option<string>,
                         coordinates: Option<seq<string>>, quiet: bool)
    ensures var r := Dispatch(warnings, fused, geometry, coordinates, quiet);
            r.warnings == warnings +
              (if r.result.Ok? && geometry.None? && NoneKey !in r.result.value.ds.attrs && !quiet
               then [NoGeometry] else [])
  {
  }

  /** One UnrecognisedDims warning is issued iff some grid variable uses a
      dimension outside t, x, y, z; a NoGeometry warning iff the call returns
      without a geometry argument, without a `None` key among the returned
      dataset's attributes and without quiet; nothing else is warned. */
  lemma OpenGridWarnings(grid: Dataset, geometry: Option<string>, coordinates: Option<seq<string>>,
                         ds: Option<Dataset>, quiet: bool, keepX: bool, keepY: bool)
    ensures var r := OpenGrid(grid, geometry, coordinates, ds, quiet, keepX, keepY);
            r.warnings ==
              (if exists n, d :: n in grid.vars && d in grid.vars[n].dims && d !in AcceptableDims
               then [UnrecognisedDims(Unrecognised(grid.vars))] else []) +
              (if r.result.Ok? && geometry.None? && NoneKey !in r.result.value.ds.attrs && !quiet
               then [NoGeometry] else [])
  {
    FilterDimsSpec(grid);
    var filtered := FilterDims(grid);
    var fused := Fused(filtered.grid, ds, keepX, keepY);
    var r := Dispatch(filtered.warnings, fused, geometry, coordinates, quiet);
    assert OpenGrid(grid, geometry, coordinates, ds, quiet, keepX, keepY) == r;
    DispatchWarnings(filtered.warnings, fused, geometry, coordinates, quiet);
  }

  /** apply_geometry is called iff a geometry is resolved: an explicit
      geometry is passed on with the coordinate names; without one (and
      without a `None` attribute key, which a grid file cannot have) no
      geometry is applied, and the NoGeometry warning is issued iff not quiet. */
  lemma OpenGridGeometry(grid: Dataset, geometry: Option<string>, coordinates: Option<seq<string>>,
                         ds: Option<Dataset>, quiet: bool, keepX: bool, keepY: bool)
    requires OpenGrid(grid, geometry, coordinates, ds, quiet, keepX, keepY).result.Ok?
    ensures var r := OpenGrid(grid, geometry, coordinates, ds, quiet, keepX, keepY);
            && (geometry.Some? ==> r.result.value.geometryCall == Some(GeometryCall(Text(geometry.value), coordinates)))
            && (geometry.None? && NoneKey !in grid.attrs ==>
                  r.result.value.geometryCall == None && (NoGeometry in r.warnings <==> !quiet))
  {
    var filtered := FilterDims(grid);
    FusedAttrs(filtered.grid, ds, keepX, keepY);
    FilterDimsSpec(grid);
  }

  /** Every variable of the returned dataset carries the same `grid` attribute
      group: the scalars of the trimmed grid. */
  lemma OpenGridStamped(grid: Dataset, geometry: Option<string>, coordinates: Option<seq<string>>,
                        ds: Option<Dataset>, quiet: bool, keepX: bool, keepY: bool)
    requires OpenGrid(grid, geometry, coordinates, ds, quiet, keepX, keepY).result.Ok?
    ensures var out := OpenGrid(grid, geometry, coordinates, ds, quiet, keepX, keepY).result.value.ds.vars;
            forall n, m :: n in out && m in out ==>
              "grid" in out[n].attrs && "grid" in out[m].attrs &&
              out[n].attrs["grid"] == out[m].attrs["grid"] && out[n].attrs["grid"].Group?
  {
  }

  /** With a target, every variable the target has comes back with the
      target's dimensions and cells, whatever the grid holds under that name. */
  lemma OpenGridTargetWins(grid: Dataset, geometry: Option<string>, coordinates: Option<seq<string>>,
                           target: Dataset, quiet: bool, keepX: bool, keepY: bool)
    requires OpenGrid(grid, geometry, coordinates, Some(target), quiet, keepX, keepY).result.Ok?
    ensures var out := OpenGrid(grid, geometry, coordinates, Some(target), quiet, keepX, keepY).result.value.ds.vars;
            forall n :: n in target.vars ==>
              n in out && out[n].dims == target.vars[n].dims && out[n].data == target.vars[n].data
  {
    var filtered := FilterDims(grid).grid;
    var x := TrimX(filtered, Some(target), keepX).value;
    var y := TrimY(x, keepY).value;
    FuseTargetWins(y, target);
  }

  /** A zero-dimensional grid variable holding v. */
  predicate ScalarCell(vars: Vars, name: string, v: int)
  {
    name in vars && vars[name].dims == [] && vars[name].data == Cell(v)
  }

  /** The filter and both trims keep a zero-dimensional variable as it was. */
  lemma ScalarCellKept(grid: Dataset, ds: Option<Dataset>, keepX: bool, keepY: bool, name: string, v: int)
    requires ScalarCell(grid.vars, name, v)
    ensures ScalarCell(FilterDims(grid).grid.vars, name, v)
    ensures TrimX(grid, ds, keepX).Ok? ==> ScalarCell(TrimX(grid, ds, keepX).value.vars, name, v)
    ensures TrimY(grid, keepY).Ok? ==> ScalarCell(TrimY(grid, keepY).value.vars, name, v)
  {
    FilterDimsKeeps(grid, name);
  }

  /** The filter keeps a variable all of whose dimensions are acceptable. */
  lemma FilterDimsKeeps(grid: Dataset, name: string)
    requires name in grid.vars && forall d :: d in grid.vars[name].dims ==> d in AcceptableDims
    ensures name in FilterDims(grid).grid.vars && FilterDims(grid).grid.vars[name] == grid.vars[name]
  {
    if |Unrecognised(grid.vars)| > 0 {
      assert forall d :: d in grid.vars[name].dims ==> d !in Unrecognised(grid.vars);
    }
  }

  /** As written, a grid whose y_boundary_guards is a scalar never makes
      open_grid raise NotImplementedError, whatever the target's
      keep_yboundaries says. */
  lemma OpenGridNeverRaisesMismatch(grid: Dataset, geometry: Option<string>, coordinates: Option<seq<string>>,
                                    target: Dataset, quiet: bool, keepX: bool, keepY: bool, g: int)
    requires ScalarCell(grid.vars, "y_boundary_guards", g)
    ensures OpenGrid(grid, geometry, coordinates, Some(target), quiet, keepX, keepY).result != Err(NotImplemented)
  {
    var filtered := FilterDims(grid).grid;
    assert OpenGrid(grid, geometry, coordinates, Some(target), quiet, keepX, keepY).result.Err? ==>
           OpenGrid(grid, geometry, coordinates, Some(target), quiet, keepX, keepY).result.error ==
           Fused(filtered, Some(target), keepX, keepY).error;
    ScalarCellKept(grid, Some(target), keepX, keepY, "y_boundary_guards", g);
    var x := TrimX(filtered, Some(target), keepX);
    if x.Ok? {
      ScalarCellKept(filtered, Some(target), keepX, keepY, "y_boundary_guards", g);
      var y := TrimY(x.value, keepY);
      if y.Ok? {
        ScalarCellKept(x.value, Some(target), keepX, keepY, "y_boundary_guards", g);
        FuseScalarGuardNeverRaises(y.value, target);
      }
    }
  }

  /** In a single-null grid with a positive guard width the y trim is the
      guard slice along y alone. */
  lemma TrimYSingleNullIsSlice(grid: Dataset, g: int, j12: int, j21: int)
    requires ScalarOf(grid.vars, "y_boundary_guards") == Ok(g) && g > 0 && "y" in DimsOf(grid.vars)
    requires YFree(grid.vars, "jyseps1_2", j12) && YFree(grid.vars, "jyseps2_1", j21) && j12 <= j21
    ensures TrimY(grid, false) == Ok(grid.(vars := Isel(grid.vars, "y", Some(g), Some(-g)).value))
  {
    YFreeKept(grid.vars, "jyseps1_2", j12, Some(g), Some(-g));
    YFreeKept(grid.vars, "jyseps2_1", j21, Some(g), Some(-g));
    SplitDoubleNullBranch(Isel(grid.vars, "y", Some(g), Some(-g)).value, g, j12, j21, 0);
    TrimYSteps(grid, g);
  }

  /** The x trim of a variable on (x, y): 2m fewer rows, row i being the
      input's row i + m. */
  lemma TrimXRows(grid: Dataset, target: Dataset, n: string, rows: seq<Arr>, i: nat, s: seq<Arr>, m: int)
    requires MetadataOf(target, "MXG") == Ok(m) && m > 0
    requires n in grid.vars && grid.vars[n].dims == ["x", "y"]
    requires LineAt(grid.vars[n].data, []) == Some(rows) && i + 2 * m < |rows|
    requires LineAt(grid.vars[n].data, [i + m]) == Some(s)
    ensures TrimX(grid, Some(target), false).Ok?
    ensures var v := TrimX(grid, Some(target), false).value.vars[n];
            && v.dims == ["x", "y"]
            && LineAt(v.data, []).Some? && |LineAt(v.data, []).value| == |rows| - 2 * m
            && LineAt(v.data, [i]) == Some(s)
  {
    TrimXLines(grid, target, m, n, [], rows);
    var v := TrimX(grid, Some(target), false).value.vars[n];
    var xRows := LineAt(v.data, []).value;
    assert v.data == Axis(xRows);
    assert xRows[i] == rows[i + m];
  }

  /** The single-null y trim of a variable on (x, y): the rows stay, and row
      i loses g cells at each end. */
  lemma TrimYRows(grid: Dataset, n: string, len: nat, i: nat, s: seq<Arr>, g: int, j12: int, j21: int)
    requires ScalarCell(grid.vars, "y_boundary_guards", g) && g > 0
    requires ScalarCell(grid.vars, "jyseps1_2", j12) && ScalarCell(grid.vars, "jyseps2_1", j21) && j12 <= j21
    requires n in grid.vars && grid.vars[n].dims == ["x", "y"]
    requires LineAt(grid.vars[n].data, []).Some? && |LineAt(grid.vars[n].data, []).value| == len
    requires LineAt(grid.vars[n].data, [i]) == Some(s)
    ensures TrimY(grid, false).Ok?
    ensures var v := TrimY(grid, false).value.vars[n];
            && v.dims == ["x", "y"]
            && LineAt(v.data, []).Some? && |LineAt(v.data, []).value| == len
            && LineAt(v.data, [i]).Some? && ShiftedBy(s, LineAt(v.data, [i]).value, g)
  {
    TrimYSingleNull(grid, n, [i], s, g, j12, j21);
    assert "y" in DimsOf(grid.vars);
    TrimYSingleNullIsSlice(grid, g, j12, j21);
    var v := TrimY(grid, false).value.vars[n];
    assert v.data == AtAxis(grid.vars[n].data, 1, SliceLine(Some(g), Some(-g)));
  }

  /** End to end for a single-null grid fused into a target with MXG = m > 0
      (neither boundary kept): a variable on (x, y) that the target lacks
      comes back with 2m fewer rows along x, and its row i is row i + m of
      the grid with g cells removed from each end along y. */
  lemma OpenGridTrimsXY(grid: Dataset, geometry: Option<string>, coordinates: Option<seq<string>>,
                        target: Dataset, quiet: bool, n: string, rows: seq<Arr>, i: nat, s: seq<Arr>,
                        m: int, g: int, j12: int, j21: int)
    requires MetadataOf(target, "MXG") == Ok(m) && m > 0
    requires ScalarCell(grid.vars, "y_boundary_guards", g) && g > 0
    requires ScalarCell(grid.vars, "jyseps1_2", j12) && ScalarCell(grid.vars, "jyseps2_1", j21) && j12 <= j21
    requires n in grid.vars && grid.vars[n].dims == ["x", "y"] && n !in target.vars
    requires LineAt(grid.vars[n].data, []) == Some(rows) && i + 2 * m < |rows|
    requires LineAt(grid.vars[n].data, [i + m]) == Some(s)
    ensures var r := OpenGrid(grid, geometry, coordinates, Some(target), quiet, false, false);
            && r.result.Ok? && n in r.result.value.ds.vars
            && LineAt(r.result.value.ds.vars[n].data, []).Some?
            && |LineAt(r.result.value.ds.vars[n].data, []).value| == |rows| - 2 * m
            && LineAt(r.result.value.ds.vars[n].data, [i]).Some?
            && ShiftedBy(s, LineAt(r.result.value.ds.vars[n].data, [i]).value, g)
  {
    var filtered := FilterDims(grid).grid;
    FilterDimsKeeps(grid, n);
    ScalarCellKept(grid, Some(target), false, false, "y_boundary_guards", g);
    ScalarCellKept(grid, Some(target), false, false, "jyseps1_2", j12);
    ScalarCellKept(grid, Some(target), false, false, "jyseps2_1", j21);

    TrimXRows(filtered, target, n, rows, i, s, m);
    var xTrimmed := TrimX(filtered, Some(target), false).value;
    ScalarCellKept(filtered, Some(target), false, false, "y_boundary_guards", g);
    ScalarCellKept(filtered, Some(target), false, false, "jyseps1_2", j12);
    ScalarCellKept(filtered, Some(target), false, false, "jyseps2_1", j21);

    TrimYRows(xTrimmed, n, |rows| - 2 * m, i, s, g, j12, j21);
    var yTrimmed := TrimY(xTrimmed, false).value;
    ScalarCellKept(xTrimmed, Some(target), false, false, "y_boundary_guards", g);

    FuseScalarGuardNeverRaises(yTrimmed, target);
    FuseTargetWins(yTrimmed, target);
    var fused := Fused(filtered, Some(target), false, false);
    assert fused == Fuse(yTrimmed, Some(target));
    assert OpenGrid(grid, geometry, coordinates, Some(target), quiet, false, false).result.value.ds == fused.value;
  }
}
