/**
 Labelled arrays reduced to their shape and cells. An n-dimensional array is
 either a single cell or an axis: the sequence of (n-1)-dimensional sub-arrays
 laid out along its outermost dimension. Working "along dimension k" means
 descending k axes and then acting on the sequence found there, the line of
 rows along that dimension.
 */
module Arrays {
  import opened Python

  /** Cell payloads are abstract; an int stands for any stored number. */
  datatype Arr = Cell(v: int) | Axis(items: seq<Arr>)

  /** The cells of an array in row-major order (`a.flat`). */
  function Elements(a: Arr): seq<int>
    decreases a
  {
    match a
    case Cell(v) => [v]
    case Axis(xs) => ElementsOf(xs)
  }

  /** The cells of a sequence of sub-arrays, one after the other. */
  function ElementsOf(xs: seq<Arr>): seq<int>
    decreases xs
  {
    if xs == [] then [] else Elements(xs[0]) + ElementsOf(xs[1..])
  }

  /** Every axis's items hold the same number of cells, at every depth: true
      of every array numpy builds, whose items along an axis share one shape. */
  predicate Balanced(a: Arr)
    decreases a
  {
    match a
    case Cell(_) => true
    case Axis(xs) =>
      forall i :: 0 <= i < |xs| ==> Balanced(xs[i]) && |Elements(xs[i])| == |Elements(xs[0])|
  }

  /** The single element of an array that holds exactly one, whatever its
      rank; this is what Python's int() accepts of an array. */
  function Sole(a: Arr): (r: Option<int>)
    ensures r.Some? ==> Elements(a) == [r.value]
    decreases a
  {
    match a
    case Cell(v) => Some(v)
    case Axis(xs) =>
      if |xs| == 1 then
        assert ElementsOf(xs) == Elements(xs[0]) + ElementsOf([]);
        Sole(xs[0])
      else None
  }

  /** n items of k cells each hold n * k cells. */
  lemma {:induction false} ElementsOfUniform(xs: seq<Arr>, k: nat)
    requires forall i :: 0 <= i < |xs| ==> |Elements(xs[i])| == k
    ensures |ElementsOf(xs)| == |xs| * k
    decreases xs
  {
    if xs != [] {
      ElementsOfUniform(xs[1..], k);
    }
  }

  /** For a balanced array, int() succeeds exactly when the array holds one
      cell, and gives that cell; so an array of two or more cells, or of none,
      is refused however it is nested. */
  lemma {:induction false} SoleBalanced(a: Arr)
    requires Balanced(a)
    ensures Sole(a).Some? <==> |Elements(a)| == 1
    ensures |Elements(a)| == 1 ==> Sole(a) == Some(Elements(a)[0])
    decreases a
  {
    match a
    case Cell(_) =>
    case Axis(xs) =>
      if |xs| == 1 {
        assert ElementsOf(xs) == Elements(xs[0]) + ElementsOf([]);
        SoleBalanced(xs[0]);
      } else if |xs| > 1 {
        var k := |Elements(xs[0])|;
        ElementsOfUniform(xs, k);
        assert |xs| * k != 1 by {
          if k > 0 {
            assert |xs| * k >= |xs| * 1;
          }
        }
      }
  }

  /** Apply f to every line along dimension k (depth k) and keep everything
      above that depth as it was. */
  function AtAxis(a: Arr, k: nat, f: seq<Arr> -> seq<Arr>): Arr
    decreases a
  {
    match a
    case Cell(_) => a
    case Axis(xs) =>
      if k == 0 then Axis(f(xs))
      else Axis(seq(|xs|, i requires 0 <= i < |xs| => AtAxis(xs[i], k - 1, f)))
  }

  /** Join two arrays along dimension k: their lines at depth k are
      concatenated. The arrays must agree on every extent above depth k;
      otherwise there is no result. */
  function ConcatAt(a: Arr, b: Arr, k: nat): Option<Arr>
    decreases a
  {
    match a
    case Cell(_) => if a == b then Some(a) else None
    case Axis(xs) =>
      match b
      case Cell(_) => None
      case Axis(ys) =>
        if k == 0 then Some(Axis(xs + ys))
        else if |xs| != |ys| then None
        else
          var parts := seq(|xs|, i requires 0 <= i < |xs| => ConcatAt(xs[i], ys[i], k - 1));
          if forall i :: 0 <= i < |parts| ==> parts[i].Some? then
            Some(Axis(seq(|parts|, i requires 0 <= i < |parts| => parts[i].value)))
          else None
  }

  /** The line reached by indexing the outer |p| dimensions with p, if every
      index is in range and there is an axis below them. */
  function LineAt(a: Arr, p: seq<nat>): Option<seq<Arr>>
    decreases |p|
  {
    match a
    case Cell(_) => None
    case Axis(xs) =>
      if p == [] then Some(xs)
      else if p[0] < |xs| then LineAt(xs[p[0]], p[1..])
      else None
  }

  /** The line function that applies f and then g side by side and joins
      their results. */
  function Joined(f: seq<Arr> -> seq<Arr>, g: seq<Arr> -> seq<Arr>): seq<Arr> -> seq<Arr>
  {
    xs => f(xs) + g(xs)
  }

  /** AtAxis acts on exactly the lines along dimension |p|: the line at p of
      the result is f of the line at p of the input, and there is one iff
      there was one. */
  lemma {:induction false} LineAtAxis(a: Arr, p: seq<nat>, f: seq<Arr> -> seq<Arr>)
    ensures LineAt(AtAxis(a, |p|, f), p) ==
            (if LineAt(a, p).Some? then Some(f(LineAt(a, p).value)) else None)
    decreases |p|
  {
    match a
    case Cell(_) =>
    case Axis(xs) =>
      if p != [] && p[0] < |xs| {
        LineAtAxis(xs[p[0]], p[1..], f);
      }
  }

  /** Two transforms of the same array along dimension k always join along k,
      and the joined array is the one whose every line along k is the two
      transformed lines end to end. */
  lemma {:induction false} ConcatAtAxes(a: Arr, k: nat, f: seq<Arr> -> seq<Arr>, g: seq<Arr> -> seq<Arr>)
    ensures ConcatAt(AtAxis(a, k, f), AtAxis(a, k, g), k) == Some(AtAxis(a, k, Joined(f, g)))
    decreases a
  {
    match a
    case Cell(_) =>
    case Axis(xs) =>
      if k > 0 {
        var lhs := AtAxis(a, k, f).items;
        var rhs := AtAxis(a, k, g).items;
        var parts := seq(|xs|, i requires 0 <= i < |xs| => ConcatAt(lhs[i], rhs[i], k - 1));
        forall i | 0 <= i < |xs|
          ensures parts[i] == Some(AtAxis(xs[i], k - 1, Joined(f, g)))
        {
          ConcatAtAxes(xs[i], k - 1, f, g);
        }
        var joined := seq(|parts|, i requires 0 <= i < |parts| => parts[i].value);
        assert joined == AtAxis(a, k, Joined(f, g)).items;
      }
  }
}
