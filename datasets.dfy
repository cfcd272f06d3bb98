/**
 Labelled datasets as `open_grid` uses them: a dictionary of named variables,
 each with its dimension names, its cells and its attributes, plus the
 dataset's own attributes. The operations are the few xarray calls the
 pipeline makes (`drop_dims`, `isel`, `concat`, item lookup, `drop`,
 `merge`), together with the two helpers it imports from its utilities,
 specified by their effect.
 */
module Datasets {
  import opened Python
  import opened Arrays

  /** An attribute value: text, a number, a group of named values (such as
      the grid's scalar fields, which stay arrays of rank 0), or a dictionary
      of named numbers (such as a simulation's `metadata`). */
  datatype AttrValue =
    | Text(s: string)
    | Number(n: int)
    | Group(entries: map<string, Arr>)
    | Metadata(values: map<string, int>)

  /** A key of a dataset's attribute dictionary; Python allows `None` as a key. */
  datatype Key = NoneKey | Name(name: string)

  /** A variable: its dimension names in order, its cells (nested to that many
      levels) and its attribute dictionary. */
  datatype Var = Var(dims: seq<string>, data: Arr, attrs: map<string, AttrValue>)

  type Vars = map<string, Var>

  /** A dataset: its variables and its attribute dictionary. A simulation
      dataset keeps its metadata dictionary in the attribute `metadata`, which
      `ds.metadata` reads. */
  datatype Dataset = Dataset(vars: Vars, attrs: map<Key, AttrValue>)

  /** The dataset's dimensions (`ds.dims`): every dimension some variable uses. */
  function DimsOf(vars: Vars): (r: set<string>)
    ensures forall n, d :: n in vars && d in vars[n].dims ==> d in r
    ensures forall d :: d in r ==> exists n :: n in vars && d in vars[n].dims
  {
    set n, d | n in vars && d in vars[n].dims :: d
  }

  /** `ds.drop_dims(drop)`: every variable that uses one of the dimensions in
      `drop` is removed, all at once; the others are kept as they were. */
  function DropDims(vars: Vars, drop: set<string>): (r: Vars)
    ensures forall n :: n in r <==> n in vars && forall d :: d in vars[n].dims ==> d !in drop
    ensures forall n :: n in r ==> r[n] == vars[n]
  {
    map n | n in vars && (forall d :: d in vars[n].dims ==> d !in drop) :: vars[n]
  }

  /** Position of dimension d among a variable's dimensions. */
  function IndexOf(dims: seq<string>, d: string): (i: nat)
    requires d in dims
    ensures i < |dims| && dims[i] == d
  {
    if dims[0] == d then 0 else 1 + IndexOf(dims[1..], d)
  }

  /** The line function of the Python slice `[start:stop]`. */
  function SliceLine(start: Option<int>, stop: Option<int>): seq<Arr> -> seq<Arr>
  {
    xs => PySlice(xs, start, stop)
  }

  /** Apply f along dimension d of a variable that has it; a variable without
      d is left alone. */
  function Along(v: Var, d: string, f: seq<Arr> -> seq<Arr>): Var
  {
    if d in v.dims then v.(data := AtAxis(v.data, IndexOf(v.dims, d), f)) else v
  }

  /** `ds.isel(d=slice(start, stop))`: every variable that has d is sliced
      along it; selecting on a dimension the dataset lacks raises. */
  function Isel(vars: Vars, d: string, start: Option<int>, stop: Option<int>): (r: Result<Vars>)
    ensures r.Ok? <==> d in DimsOf(vars)
    ensures r.Ok? ==> r.value.Keys == vars.Keys
    ensures r.Ok? ==> forall n :: n in vars ==> r.value[n].dims == vars[n].dims && r.value[n].attrs == vars[n].attrs
    ensures r.Ok? ==> forall n :: n in vars && d !in vars[n].dims ==> r.value[n] == vars[n]
  {
    if d !in DimsOf(vars) then Err(MissingDimension(d))
    else Ok(map n | n in vars :: Along(vars[n], d, SliceLine(start, stop)))
  }

  /** Whether two pieces of one variable may be joined along d by
      `xr.concat(..., data_vars='minimal', compat='identical')`: a variable
      with d must agree in dimensions and join cell-wise (its attributes are
      not compared); a variable without d is not concatenated and must be
      identical. */
  predicate Joinable(a: Var, b: Var, d: string)
  {
    if d in a.dims then
      a.dims == b.dims && ConcatAt(a.data, b.data, IndexOf(a.dims, d)).Some?
    else a == b
  }

  /** The joined variable, for two pieces that are Joinable; it keeps the
      first piece's attributes. */
  function JoinVar(a: Var, b: Var, d: string): Var
    requires Joinable(a, b, d)
  {
    if d in a.dims then a.(data := ConcatAt(a.data, b.data, IndexOf(a.dims, d)).value) else a
  }

  /** `xr.concat((lower, upper), dim=d, data_vars='minimal', compat='identical')`. */
  function Concat(lower: Vars, upper: Vars, d: string): (r: Result<Vars>)
    ensures r.Ok? <==> lower.Keys == upper.Keys && forall n :: n in lower ==> Joinable(lower[n], upper[n], d)
    ensures r.Ok? ==> r.value.Keys == lower.Keys
    ensures r.Ok? ==> forall n :: n in lower ==> r.value[n] == JoinVar(lower[n], upper[n], d)
  {
    if lower.Keys != upper.Keys then Err(ConcatMismatch)
    else if exists n :: n in lower && !Joinable(lower[n], upper[n], d) then Err(ConcatMismatch)
    else Ok(map n | n in lower :: JoinVar(lower[n], upper[n], d))
  }

  /** `int(ds[name])`: the variable must exist and hold exactly one element. */
  function ScalarOf(vars: Vars, name: string): (r: Result<int>)
    ensures r.Ok? <==> name in vars && Sole(vars[name].data).Some?
    ensures r.Ok? ==> Some(r.value) == Sole(vars[name].data)
  {
    if name !in vars then Err(KeyError(name))
    else match Sole(vars[name].data)
      case Some(v) => Ok(v)
      case None => Err(ScalarConversion(name))
  }

  /** `bool(ds.get(name, 0) > 0)`: an absent name compares its default 0;
      otherwise numpy compares cell by cell and bool() of the comparison is
      False for no cells, the one comparison for one cell, and raises for
      more. */
  function GetPositive(vars: Vars, name: string): (r: Result<bool>)
    ensures name !in vars ==> r == Ok(false)
    ensures name in vars ==> (r.Ok? <==> |Elements(vars[name].data)| <= 1)
    ensures r == Ok(true) <==> name in vars && |Elements(vars[name].data)| == 1 && Elements(vars[name].data)[0] > 0
  {
    if name !in vars then Ok(false)
    else
      var cells := Elements(vars[name].data);
      if |cells| == 0 then Ok(false)
      else if |cells| == 1 then Ok(cells[0] > 0)
      else Err(AmbiguousTruth(name))
  }

  /** Where int() of the variable succeeds, the truth test agrees with
      comparing that integer; a variable with no cells tests False although
      int() of it raises. */
  lemma GetPositiveAgreesWithInt(vars: Vars, name: string)
    ensures ScalarOf(vars, name).Ok? ==> GetPositive(vars, name) == Ok(ScalarOf(vars, name).value > 0)
    ensures name in vars && Elements(vars[name].data) == [] ==>
              GetPositive(vars, name) == Ok(false) && ScalarOf(vars, name).Err?
  {
    if name in vars && Elements(vars[name].data) == [] {
      assert Sole(vars[name].data).None?;
    }
  }

  /** `ds.metadata[key]`: attribute-style access to the dataset attribute
      `metadata`, then a dictionary lookup. */
  function MetadataOf(ds: Dataset, key: string): (r: Result<int>)
    ensures Name("metadata") !in ds.attrs ==> r == Err(AttributeError("metadata"))
    ensures r.Ok? <==> Name("metadata") in ds.attrs && ds.attrs[Name("metadata")].Metadata? &&
                       key in ds.attrs[Name("metadata")].values
    ensures r.Ok? ==> r.value == ds.attrs[Name("metadata")].values[key]
  {
    if Name("metadata") !in ds.attrs then Err(AttributeError("metadata"))
    else match ds.attrs[Name("metadata")]
      case Metadata(values) => if key in values then Ok(values[key]) else Err(KeyError(key))
      case _ => Err(TypeError("metadata"))
  }

  /** The result of `_separate_metadata`: the array variables, and the
      zero-dimensional ones as a metadata group. */
  datatype Separated = Separated(fields: Vars, metadata: map<string, Arr>)

  /** `_separate_metadata(ds)`, by its effect: zero-dimensional variables
      leave the dataset and become metadata; every variable lands in exactly
      one of the two. */
  function Separate(vars: Vars): (r: Separated)
    ensures r.fields.Keys !! r.metadata.Keys
    ensures r.fields.Keys + r.metadata.Keys == vars.Keys
    ensures forall n :: n in r.fields ==> vars[n].dims != [] && r.fields[n] == vars[n]
    ensures forall n :: n in r.metadata ==> vars[n].dims == [] && r.metadata[n] == vars[n].data
  {
    Separated(map n | n in vars && vars[n].dims != [] :: vars[n],
              map n | n in vars && vars[n].dims == [] :: vars[n].data)
  }

  /** `_set_attrs_on_all_vars(ds, key, value)`, by its effect: the dataset
      and every variable get attribute `key` set to `value`; nothing else
      changes. */
  function SetAttrsOnAllVars(ds: Dataset, key: string, value: AttrValue): (r: Dataset)
    ensures r.attrs == ds.attrs[Name(key) := value]
    ensures r.vars.Keys == ds.vars.Keys
    ensures forall n :: n in r.vars ==>
              r.vars[n].dims == ds.vars[n].dims && r.vars[n].data == ds.vars[n].data &&
              r.vars[n].attrs == ds.vars[n].attrs[key := value]
  {
    Dataset(map n | n in ds.vars :: ds.vars[n].(attrs := ds.vars[n].attrs[key := value]),
            ds.attrs[Name(key) := value])
  }
}
