/** The slice of pandas the pipeline relies on: a frame is a sequence of column
    labels and a sequence of rows, each row holding one cell per label. */
module Frames {
  import opened Wrappers
  import opened Errors

  /** A cell: a missing value (NaN or None), a number, or a string. */
  datatype Cell = Null | Num(x: real) | Text(s: string)

  datatype Table = Table(columns: seq<string>, rows: seq<seq<Cell>>)

  /** Every row has exactly one cell per column label. */
  predicate WellFormed(t: Table) {
    forall k :: 0 <= k < |t.rows| ==> |t.rows[k]| == |t.columns|
  }

  type DataFrame = t: Table | WellFormed(t) witness Table([], [])

  /** The first position of `x` in `xs`, which is where pandas looks a label up. */
  function IndexOf(xs: seq<string>, x: string): (i: nat)
    requires x in xs
    ensures i < |xs| && xs[i] == x && x !in xs[..i]
  {
    if xs[0] == x then 0
    else
      var i := 1 + IndexOf(xs[1..], x);
      assert xs[..i] == [xs[0]] + xs[1..][..i - 1];
      i
  }

  /** The elements of `xs` that are not in `excluded`, in their original order. */
  function Remaining(xs: seq<string>, excluded: seq<string>): seq<string>
  {
    if xs == [] then []
    else Remaining(xs[..|xs| - 1], excluded) + (if xs[|xs| - 1] in excluded then [] else [xs[|xs| - 1]])
  }

  lemma {:induction false} RemainingMembers(xs: seq<string>, excluded: seq<string>)
    ensures forall x :: x in Remaining(xs, excluded) <==> x in xs && x !in excluded
  {
    if xs != [] {
      var p := xs[..|xs| - 1];
      RemainingMembers(p, excluded);
      assert xs == p + [xs[|xs| - 1]];
    }
  }

  /** `Remaining` is empty exactly when every element of `xs` is excluded. */
  lemma RemainingEmpty(xs: seq<string>, excluded: seq<string>)
    ensures Remaining(xs, excluded) == [] <==> forall x :: x in xs ==> x in excluded
  {
    RemainingMembers(xs, excluded);
    if Remaining(xs, excluded) != [] {
      assert Remaining(xs, excluded)[0] in Remaining(xs, excluded);
    }
  }

  /** The positions of the labels that are not in `drop`, in increasing order. */
  function Kept(columns: seq<string>, drop: seq<string>): (ks: seq<nat>)
    ensures |ks| <= |columns|
    ensures forall j :: 0 <= j < |ks| ==> ks[j] < |columns| && columns[ks[j]] !in drop
    ensures forall j, j' :: 0 <= j < j' < |ks| ==> ks[j] < ks[j']
    ensures forall i :: 0 <= i < |columns| && columns[i] !in drop ==> i in ks
  {
    if columns == [] then []
    else
      var ks := Kept(columns[..|columns| - 1], drop);
      if columns[|columns| - 1] in drop then ks else ks + [|columns| - 1]
  }

  /** The elements of `xs` at the positions `ks`. */
  function Select<T>(xs: seq<T>, ks: seq<nat>): (r: seq<T>)
    requires forall j :: 0 <= j < |ks| ==> ks[j] < |xs|
    ensures |r| == |ks| && forall j :: 0 <= j < |ks| ==> r[j] == xs[ks[j]]
  {
    seq(|ks|, j requires 0 <= j < |ks| => xs[ks[j]])
  }

  /** Selecting the kept positions is the same as filtering out the dropped labels. */
  lemma {:induction false} KeptLabels(columns: seq<string>, drop: seq<string>)
    ensures Select(columns, Kept(columns, drop)) == Remaining(columns, drop)
  {
    if columns != [] {
      var n := |columns|;
      var p := columns[..n - 1];
      KeptLabels(p, drop);
      var ks := Kept(p, drop);
      assert Select(columns, ks) == Select(p, ks);
    }
  }

  /** `df.drop(columns=labels)`: a new frame without the labelled columns. A label the
      frame does not have raises `KeyError` listing every such label. */
  function Drop(df: DataFrame, labels: seq<string>): (r: Result<DataFrame, Cause>)
    ensures r.Err? <==> exists l :: l in labels && l !in df.columns
    ensures r.Err? ==> r.error == KeyError(Remaining(labels, df.columns))
    ensures r.Ok? ==> var ks := Kept(df.columns, labels);
      && r.value.columns == Select(df.columns, ks)
      && |r.value.rows| == |df.rows|
      && forall k :: 0 <= k < |df.rows| ==> r.value.rows[k] == Select(df.rows[k], ks)
  {
    RemainingEmpty(labels, df.columns);
    if Remaining(labels, df.columns) != [] then Err(KeyError(Remaining(labels, df.columns)))
    else
      var ks := Kept(df.columns, labels);
      var t := Table(Select(df.columns, ks), seq(|df.rows|, k requires 0 <= k < |df.rows| => Select(df.rows[k], ks)));
      Ok(t)
  }

  /** `df[name]`: the cells of the first column labelled `name`. */
  function Column(df: DataFrame, name: string): (r: Result<seq<Cell>, Cause>)
    ensures r.Err? <==> name !in df.columns
    ensures r.Err? ==> r.error == KeyError([name])
    ensures r.Ok? ==> |r.value| == |df.rows|
    ensures r.Ok? ==> forall k :: 0 <= k < |df.rows| ==> r.value[k] == df.rows[k][IndexOf(df.columns, name)]
  {
    if name !in df.columns then Err(KeyError([name]))
    else
      var j := IndexOf(df.columns, name);
      Ok(seq(|df.rows|, k requires 0 <= k < |df.rows| => df.rows[k][j]))
  }

  /** `df[name] = values`: overwrites the column `name` if the frame has one, and
      otherwise appends it as the last column. */
  function WithColumn(df: DataFrame, name: string, values: seq<Cell>): (r: DataFrame)
    requires |values| == |df.rows|
    ensures r.columns == if name in df.columns then df.columns else df.columns + [name]
    ensures |r.rows| == |df.rows|
    ensures Column(r, name) == Ok(values)
    ensures forall k, j :: 0 <= k < |df.rows| && 0 <= j < |df.columns| && df.columns[j] != name ==> r.rows[k][j] == df.rows[k][j]
  {
    if name in df.columns then
      var j := IndexOf(df.columns, name);
      var r := Table(df.columns, seq(|df.rows|, k requires 0 <= k < |df.rows| => df.rows[k][j := values[k]]));
      assert Column(r, name).value == values;
      r
    else
      var r := Table(df.columns + [name], seq(|df.rows|, k requires 0 <= k < |df.rows| => df.rows[k] + [values[k]]));
      assert r.columns[..|df.columns|] == df.columns;
      assert IndexOf(r.columns, name) == |df.columns|;
      assert Column(r, name).value == values;
      r
  }

  /** `DataFrame(d)` for a dict of equally long lists: one column per key, in the
      dict's order, and one row per list position. Lists of different lengths raise. */
  function FromDict(d: seq<(string, seq<Cell>)>): (r: Result<DataFrame, Cause>)
    ensures r.Ok? <==> forall i :: 0 <= i < |d| ==> |d[i].1| == |d[0].1|
    ensures r.Ok? ==> && r.value.columns == seq(|d|, i requires 0 <= i < |d| => d[i].0)
                      && |r.value.rows| == (if d == [] then 0 else |d[0].1|)
                      && forall k, i :: 0 <= k < |r.value.rows| && 0 <= i < |d| ==> r.value.rows[k][i] == d[i].1[k]
  {
    if exists i :: 0 <= i < |d| && |d[i].1| != |d[0].1| then Err(ShapeMismatch)
    else
      var n := if d == [] then 0 else |d[0].1|;
      var t := Table(seq(|d|, i requires 0 <= i < |d| => d[i].0),
                     seq(n, k requires 0 <= k < n => seq(|d|, i requires 0 <= i < |d| => d[i].1[k])));
      Ok(t)
  }
}
