/** `drop_columns` from the project's utilities; the YAML, dill and numpy helpers
    beside it are file I/O and are modelled by the `Files` module. */
module MainUtils {
  import opened Wrappers
  import opened Errors
  import opened Frames

  /** Dropping keeps, for every remaining label, the very column it had before:
      the first column under that label is never one of the dropped ones. */
  lemma DropKeepsColumnValues(df: DataFrame, cols: seq<string>, t: DataFrame)
    requires Drop(df, cols) == Ok(t)
    ensures forall c :: c in t.columns ==> Column(t, c) == Column(df, c)
  {
    var ks := Kept(df.columns, cols);
    forall c | c in t.columns
      ensures Column(t, c) == Column(df, c)
    {
      var j := IndexOf(t.columns, c);
      var i := ks[j];
      assert df.columns[i] == c;
      assert IndexOf(df.columns, c) == i;
      assert Column(t, c).value == Column(df, c).value;
    }
  }

  /** `drop_columns(df, cols)`: returns a new frame whose labels are the frame's labels
      minus `cols` in their original order, with the same rows and the same values under
      every remaining label. A label the frame lacks makes it raise. */
  function DropColumns(df: DataFrame, cols: seq<string>): (r: Result<DataFrame, Cause>)
    ensures r.Ok? <==> forall c :: c in cols ==> c in df.columns
    ensures r.Err? ==> r.error == KeyError(Remaining(cols, df.columns))
    ensures r.Ok? ==> r.value.columns == Remaining(df.columns, cols)
    ensures r.Ok? ==> |r.value.rows| == |df.rows|
    ensures r.Ok? ==> forall c :: c in r.value.columns ==> Column(r.value, c) == Column(df, c)
  {
    KeptLabels(df.columns, cols);
    var r := Drop(df, cols);
    if r.Ok? then DropKeepsColumnValues(df, cols, r.value); r else r
  }

  /** A dropped label is gone from the result, and every other label is still there. */
  lemma DropColumnsLabels(df: DataFrame, cols: seq<string>)
    requires DropColumns(df, cols).Ok?
    ensures forall c :: c in DropColumns(df, cols).value.columns <==> c in df.columns && c !in cols
  {
    RemainingMembers(df.columns, cols);
  }
}
