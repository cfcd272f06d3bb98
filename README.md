# open_grid: fusing a BOUT++ grid file into a simulation dataset

This project models xBOUT's `open_grid` (`xbout/grid.py`). The function
takes a BOUT++ grid file as produced by a grid generator and passes it
through a fixed pipeline:

1. It drops every variable that has a dimension outside `t`, `x`, `y`, `z`, with one warning.
2. Unless `keep_xboundaries` is set, it removes `MXG` x guard cells from each end. `MXG` comes from the metadata of the target dataset.
3. Unless `keep_yboundaries` is set, it removes the grid's own `y_boundary_guards` y guard cells from each end.
4. For a double-null topology (`jyseps1_2 > jyseps2_1`), step 3 also cuts out the guard cells at the second divertor target: the pieces `[:ny_inner]` and `[ny_inner+2g:]` are joined along `y`.
5. It moves the grid's scalars into metadata.
6. With a target dataset, it merges into the target, and the target's own variables win. Before the merge, a check meant to catch a y-boundary mismatch may raise `NotImplementedError`. As written, the check can fire only when `y_boundary_guards` is not zero-dimensional (see below).
7. It stamps the scalars as the `grid` attribute on the dataset and on every variable.
8. It resolves the geometry and hands it to `apply_geometry`.

The model is pure, like the source. The code has no loops and mutates nothing in place: every step rebinds `grid` or `ds` to a new value. So every step is a Dafny function, and the properties are lemmas about those functions.

- `python.dfy` (module `Python`): `None`, the exceptions the code can raise, and the result-or-exception type. It also defines Python's slice `s[start:stop]`, which clamps bounds and counts negative bounds from the end.
- `arrays.dfy` (module `Arrays`): an n-dimensional array is a cell or a sequence of sub-arrays. Acting along dimension k means acting on every line at depth k. It also defines joining two arrays along a dimension.
- `datasets.dfy` (module `Datasets`): variables, datasets and the xarray calls the pipeline makes: `dims`, `drop_dims`, `isel`, `concat` with `compat='identical'`, `int(ds[name])`, `bool(ds.get(name, 0) > 0)`, `ds.metadata[key]`. `ds.metadata` is the dataset attribute `metadata`, read attribute-style. It also specifies the two utility helpers `_separate_metadata` and `_set_attrs_on_all_vars` by their effect.
- `grid.dfy` (module `Grid`): the pipeline stages, `OpenGrid`, and the properties of each stage and of the whole.

Warnings are returned as a sequence of `Warning` values, in order. An exception is a `Result.Err`. The warnings issued before the exception are still returned. The call to `apply_geometry` is returned as a `GeometryCall` record of its arguments.

### Where the code and its documentation part ways

The model follows the code in each of these cases:

- The docstring (`xbout/grid.py:26-28`) says that without a `geometry` argument the geometry is read from the file's attributes. The code tests `geometry in ds.attrs` while `geometry` is `None` (`xbout/grid.py:94`), so the fallback runs only when `None` is itself an attribute key. `ResolveGeometry` and `OpenGridGeometry` state this.
- The y-boundary check (`xbout/grid.py:82`) runs after `_separate_metadata`. It reads `y_boundary_guards` from the separated grid. When `y_boundary_guards` is a scalar it has already been moved to metadata, so the check reads the default 0 and never raises `NotImplementedError`. `FuseScalarGuardNeverRaises` and `OpenGridNeverRaisesMismatch` prove this.
- The second double-null cut is taken on the guard-trimmed array. In the original indices, the rows kept are `[g, g+nin)` and `[nin+3g, Ny-g)`. `DoubleNullTrimKeeps` and `TrimYDoubleNull` state this.

## Model

| member | source | states |
|---|---|---|
| Python.SliceBound | xbout/grid.py:63 | a slice bound lands inside 0..n after negative bounds are counted from the end and clamped |
| Python.PySlice | xbout/grid.py:63 | a Python slice never fails and is never longer than its input |
| Python.PySliceIsWindow | xbout/grid.py:72-73 | every slice is a contiguous window `s[lo..lo+len]` of its input |
| Python.PySliceNegativeBounds | xbout/grid.py:63 | a negative bound -k means the same as \|s\|-k, for `[a:b]`, `[a:]` and `[:b]` |
| Python.PySliceInRange | xbout/grid.py:72-73 | in-range bounds select `s[a..b]`; bounds past the end are clamped to the end or give the empty slice |
| Arrays.Sole | xbout/grid.py:65 | `int()` of an array returns only the array's single cell: a result v means the cells are exactly [v], so an array of none or of two or more cells, however nested, gives nothing |
| Arrays.ElementsOfUniform | xbout/grid.py:65 | n items of k cells each hold n * k cells |
| Arrays.SoleBalanced | xbout/grid.py:65 | for an array numpy could build (balanced), `int()` succeeds iff the array holds exactly one cell, and returns that cell |
| Arrays.LineAtAxis | xbout/grid.py:63 | acting along a dimension changes exactly the lines along it: the line at p becomes f of the old line, and exists iff it existed |
| Arrays.ConcatAtAxes | xbout/grid.py:72-75 | two slices of the same array along dimension k always join along k, and every line of the join is the two sliced lines end to end |
| Datasets.DimsOf | xbout/grid.py:51 | `grid.dims` holds exactly the dimensions some variable uses |
| Datasets.DropDims | xbout/grid.py:55 | `drop_dims` keeps a variable, unchanged, iff none of its dimensions is dropped |
| Datasets.IndexOf | xbout/grid.py:63 | the position found holds the named dimension |
| Datasets.Isel | xbout/grid.py:63 | `isel` succeeds iff the dataset has the dimension; it keeps names, dimensions and attributes, and leaves variables without that dimension unchanged |
| Datasets.Concat | xbout/grid.py:74-75 | `concat(..., compat='identical')` succeeds iff both pieces hold the same names and each pair is joinable (same dimensions and a cell-wise join along d, or identical without d); each result variable is the joined pair |
| Datasets.ScalarOf | xbout/grid.py:65 | `int(grid[name])` succeeds iff the variable exists and `int()` of its array succeeds, and returns that single cell |
| Datasets.GetPositive | xbout/grid.py:82 | `bool(grid.get(name, 0) > 0)` is False for an absent name; for a present one it succeeds iff the array has at most one cell, and it is True iff the array has exactly one cell and that cell is positive |
| Datasets.GetPositiveAgreesWithInt | xbout/grid.py:82 | where `int()` of the variable succeeds, the truth test is that integer > 0; an array with no cells tests False although `int()` of it raises |
| Datasets.MetadataOf | xbout/grid.py:59 | `ds.metadata[key]` raises AttributeError without a `metadata` attribute; it succeeds iff that attribute is a dictionary holding the key, and returns its value |
| Datasets.Separate | xbout/grid.py:78 | `_separate_metadata` partitions the variables: zero-dimensional ones become metadata, the others stay unchanged |
| Datasets.SetAttrsOnAllVars | xbout/grid.py:91 | the dataset and every variable get the attribute; names, dimensions and cells do not change |
| Grid.FilterDims | xbout/grid.py:50-55 | the filter keeps the dataset attributes, keeps each surviving variable unchanged, and warns at most once |
| Grid.FilterDimsSpec | xbout/grid.py:50-55 | after the filter all dimensions are in t, x, y, z; a variable survives iff all its dimensions are acceptable; the one warning is issued iff an unrecognised dimension exists, and it names exactly those dimensions |
| Grid.FilterDimsKeeps | xbout/grid.py:50-55 | a variable whose dimensions are all acceptable survives the filter unchanged |
| Grid.GuardTrimShifts | xbout/grid.py:63 | `[w:-w]` gives length max(0, n-2w), and cell i comes from cell i+w |
| Grid.DoubleNullTrimKeeps | xbout/grid.py:68-75 | the double-null trim keeps original rows `[g, g+nin)` then `[nin+3g, Ny-g)`, which is Ny-4g rows, unaltered and in order |
| Grid.DoubleNullTrimPastEnd | xbout/grid.py:71-75 | when ny_inner reaches past the trimmed line, the double-null trim is the plain guard trim |
| Grid.TrimX | xbout/grid.py:57-63 | the grid is unchanged with keep_xboundaries, without a target, or with MXG <= 0; the failed lookup of MXG is raised; with MXG > 0 the trim raises iff the grid has no x; names, dimensions, attributes and non-x variables are kept |
| Grid.TrimXLines | xbout/grid.py:57-63 | with MXG = m > 0, every line along x loses m cells at each end, and cell i comes from cell i+m |
| Grid.TrimXRows | xbout/grid.py:57-63 | for an (x, y) variable the x extent becomes n-2m, and row i is input row i+m |
| Grid.TrimY | xbout/grid.py:64-75 | the grid is unchanged with keep_yboundaries or with y_boundary_guards <= 0; a missing or non-scalar y_boundary_guards raises; with a positive width and no y dimension it raises MissingDimension; names, dimensions, attributes and non-y variables are kept; it never raises NotImplementedError |
| Grid.TrimYBy | xbout/grid.py:66-75 | the trim for a positive width keeps names, dimensions, attributes and non-y variables |
| Grid.SplitDoubleNull | xbout/grid.py:69-75 | the double-null step keeps names, dimensions, attributes and non-y variables |
| Grid.CutDoubleNull | xbout/grid.py:71-75 | the cut-and-join keeps names, dimensions, attributes and non-y variables |
| Grid.PiecesJoin | xbout/grid.py:72-75 | the pieces `[:nin]` and `[nin+2g:]` of one grid always concatenate under `compat='identical'` |
| Grid.SplitDoubleNullBranch | xbout/grid.py:69-75 | the cut is taken iff jyseps1_2 > jyseps2_1 strictly; otherwise the grid passes through |
| Grid.SplitDoubleNullLines | xbout/grid.py:69-75 | line by line, the cut turns u into `u[:nin] + u[nin+2g:]` for double null and leaves u otherwise |
| Grid.TrimYSteps | xbout/grid.py:64-75 | for g > 0 the y trim is the guard slice followed by the double-null step, with its exceptions passed on |
| Grid.YFreeKept | xbout/grid.py:68-69 | the guard slice leaves a scalar topology index as it was |
| Grid.TrimYLines | xbout/grid.py:64-75 | every line along y becomes the double-null trim of itself when jyseps1_2 > jyseps2_1, and the guard trim otherwise |
| Grid.TrimYSingleNull | xbout/grid.py:66-68 | single null: every line along y gets length Ny-2g, and cell i comes from cell i+g |
| Grid.TrimYDoubleNull | xbout/grid.py:69-75 | double null with nin+4g <= Ny: every line along y becomes `s[g..g+nin] + s[nin+3g..Ny-g]`, which is Ny-4g rows |
| Grid.TrimYSingleNullIsSlice | xbout/grid.py:64-68 | in a single-null grid the y trim is exactly `isel(y=slice(g, -g))` |
| Grid.TrimYRows | xbout/grid.py:64-68 | for an (x, y) variable, single null keeps the x extent, and each row loses g cells at each end along y |
| Grid.ScalarCellKept | xbout/grid.py:50-75 | the filter and both trims keep a zero-dimensional variable as it was |
| Grid.Fuse | xbout/grid.py:78-91 | every output variable carries the `grid` attribute equal to the separated metadata; the dataset attributes are the grid's without a target, or none after a merge, in both cases with `grid` set to the same group; without a target fusion cannot fail |
| Grid.FuseAlone | xbout/grid.py:78-80 | without a target the result holds exactly the grid's non-scalar variables, each with its dimensions, cells and attributes, plus the `grid` attribute |
| Grid.FuseTargetWins | xbout/grid.py:85-91 | with a target the names are the target's plus the grid's fields; target names keep the target's variable with `grid` added; other names keep the grid's dimensions, cells and attributes, with `grid` added |
| Grid.FuseMismatch | xbout/grid.py:82-84 | NotImplementedError iff the separated y_boundary_guards (default 0) tests positive and keep_yboundaries is false; no error iff the truth test and the lookup it needs do not raise and the check does not fire |
| Grid.FuseScalarGuardNeverRaises | xbout/grid.py:78-84 | a scalar y_boundary_guards is gone before the check, so neither the check nor a lookup raises |
| Grid.ResolveGeometry | xbout/grid.py:93-98 | an explicit geometry is used; without one and with a `None` key, the `geometry` attribute (or nothing) is resolved with no warning; without one and without a `None` key nothing is resolved; NoGeometry is warned iff no geometry, no `None` key and not quiet |
| Grid.Dispatch | xbout/grid.py:93-104 | an earlier exception propagates with the warnings so far; otherwise the dataset is returned with the resolution's warnings appended, and apply_geometry is called iff a geometry is resolved, with the coordinate names |
| Grid.DispatchWarnings | xbout/grid.py:93-98 | dispatch appends NoGeometry, and only it, iff it returns with no geometry argument, no `None` key and not quiet |
| Grid.FusedAttrs | xbout/grid.py:57-91 | the result carries a `grid` attribute group; apart from it, the dataset attributes are the grid's without a target and none after a merge |
| Grid.OpenGrid | xbout/grid.py:10-104 | apply_geometry is called only with an explicit geometry or a `None` attribute key |
| Grid.OpenGridWarnings | xbout/grid.py:50-98 | the warnings are exactly: UnrecognisedDims iff an unrecognised dimension exists, then NoGeometry iff the call returns with no geometry, no `None` key and not quiet |
| Grid.OpenGridGeometry | xbout/grid.py:93-102 | an explicit geometry goes to apply_geometry with the coordinates; with none, apply_geometry is not called, and the warning is issued iff not quiet |
| Grid.OpenGridStamped | xbout/grid.py:91 | every output variable carries the same `grid` attribute group |
| Grid.OpenGridTargetWins | xbout/grid.py:85-90 | every target variable comes back with the target's dimensions and cells |
| Grid.OpenGridNeverRaisesMismatch | xbout/grid.py:78-84 | with a scalar y_boundary_guards, open_grid never raises NotImplementedError |
| Grid.OpenGridTrimsXY | xbout/grid.py:57-91 | end to end, single null, MXG = m > 0: a grid-only (x, y) variable has n-2m rows, and row i is input row i+m with g cells removed from each end along y |

## Left out

- Loading the file (`xbout/grid.py:45-46`): `Path`, `_check_filetype` and `xr.open_dataset` are file I/O. The loaded grid is an argument of `OpenGrid`.
- `geometries.apply_geometry` (`xbout/grid.py:102`): the coordinate construction is in `xbout/geometries.py`, which is not part of this model. The call is recorded as a `GeometryCall` with its arguments. Its own errors, such as an unregistered geometry name, are not modelled.
- `_separate_metadata` and `_set_attrs_on_all_vars`: `xbout/utils.py` is not part of this model. They are specified by their effect. `Separate` moves zero-dimensional variables into a metadata group. `SetAttrsOnAllVars` sets one attribute on the dataset and on every variable, as xBOUT's helper of that name does.
- Payloads: cells hold abstract integers. Floating point, NaN and the truncation of `int()` on a float are not modelled. `keep_yboundaries` counts as false when it is 0.
- Grid.SplitDoubleNull: the test `grid['jyseps1_2'] > grid['jyseps2_1']` is modelled as `int()` of each side, so an index without exactly one cell raises `ScalarConversion`. numpy instead compares element-wise: `bool()` of an empty comparison is False (with a deprecation warning), and `bool()` of a comparison of two or more cells raises ValueError.
- Coordinates and index alignment in `xr.merge`: the model has no coordinate variables, indexes or dimension sizes. The merge is a union of names in which the target wins. It carries no dataset attributes over, as `xr.merge` of that era does.
- Datasets.MetadataOf: xarray's attribute-style `ds.metadata` looks among the data variables and coordinates before the attributes, so a variable named `metadata` would shadow the attribute. The model reads only the attribute.
- Grid.FuseMismatch: `xr.merge` raising ValueError on a dimension whose size differs between target and grid (`xbout/grid.py:90`) is not modelled, so "no error" here means no NotImplementedError and no failed lookup. A merge of grid fields whose x or y extent differs from the target's would raise in the program.
- Grid.FuseScalarGuardNeverRaises: success means that the check at `xbout/grid.py:82` does not raise. The size conflict that `xr.merge` raises on, which that check was meant to prevent, is not modelled.
- Grid.OpenGridTrimsXY: the claimed success assumes the trimmed grid's x and y extents agree with the target's. `xr.merge`'s ValueError on conflicting dimension sizes is not modelled.
- Warning text: a warning is a `Warning` value (`UnrecognisedDims` with the dimension set, or `NoGeometry`), not a message string.
- Grid.OpenGrid: its own contract states only the geometry-call condition. The warnings, stamping, target-wins and trimming properties of the whole call are stated by the `OpenGrid…` lemmas beside it.
