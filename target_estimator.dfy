/** target_estimator.py: the fixed label mapping and the bundle that pairs the
    fitted preprocessor with the trained model. */
module TargetEstimator {
  import opened Frames
  import opened Ml

  /** The attributes `TargetValueMapping.__init__` sets, in the order it sets them,
      which is the order `__dict__` lists them. */
  function Fields(): seq<(string, int)> {
    [("Certified", 0), ("Denied", 1)]
  }

  /** `dict(pairs)`: a later pair overwrites an earlier pair with the same key. */
  function ToDict<K, V>(pairs: seq<(K, V)>): map<K, V> {
    if pairs == [] then map[]
    else ToDict(pairs[..|pairs| - 1])[pairs[|pairs| - 1].0 := pairs[|pairs| - 1].1]
  }

  /** `zip(values, keys)`. */
  function Swapped<K, V>(pairs: seq<(K, V)>): (r: seq<(V, K)>)
    ensures |r| == |pairs| && forall i :: 0 <= i < |pairs| ==> r[i] == (pairs[i].1, pairs[i].0)
  {
    seq(|pairs|, i requires 0 <= i < |pairs| => (pairs[i].1, pairs[i].0))
  }

  /** With distinct keys, the dict maps each key to its own pair's value. */
  lemma {:induction false} ToDictAt<K, V>(pairs: seq<(K, V)>, i: nat)
    requires i < |pairs|
    requires forall a, b :: 0 <= a < b < |pairs| ==> pairs[a].0 != pairs[b].0
    ensures pairs[i].0 in ToDict(pairs) && ToDict(pairs)[pairs[i].0] == pairs[i].1
  {
    var n := |pairs|;
    if i < n - 1 {
      ToDictAt(pairs[..n - 1], i);
    }
  }

  /** Inverting a dict whose values are distinct and then looking a value up gives
      back its key: the reverse mapping undoes the forward one. */
  lemma ReverseRoundTrip<K, V>(pairs: seq<(K, V)>, i: nat)
    requires i < |pairs|
    requires forall a, b :: 0 <= a < b < |pairs| ==> pairs[a].1 != pairs[b].1
    ensures pairs[i].1 in ToDict(Swapped(pairs)) && ToDict(Swapped(pairs))[pairs[i].1] == pairs[i].0
  {
    ToDictAt(Swapped(pairs), i);
  }

  /** `TargetValueMapping()._asdict()`. */
  function AsDict(): (d: map<string, int>)
    ensures d == map["Certified" := 0, "Denied" := 1]
  {
    var f := Fields();
    assert f[..1][..0] == [];
    assert ToDict(f[..1]) == map["Certified" := 0];
    ToDict(f)
  }

  /** `TargetValueMapping().reverse_mapping()`. */
  function ReverseMapping(): (d: map<int, string>)
    ensures d == map[0 := "Certified", 1 := "Denied"]
  {
    var f := Swapped(Fields());
    assert f[..1][..0] == [];
    assert ToDict(f[..1]) == map[0 := "Certified"];
    ToDict(f)
  }

  /** Every label survives the trip through the forward and the reverse mapping. */
  lemma LabelRoundTrip()
    ensures forall l :: l in AsDict() ==> AsDict()[l] in ReverseMapping() && ReverseMapping()[AsDict()[l]] == l
  {
    ReverseRoundTrip(Fields(), 0);
    ReverseRoundTrip(Fields(), 1);
  }

  /** `Series.replace(TargetValueMapping()._asdict())` on one cell. */
  function Relabel(c: Cell): (r: Cell)
    ensures c == Text("Certified") ==> r == Num(0.0)
    ensures c == Text("Denied") ==> r == Num(1.0)
    ensures c != Text("Certified") && c != Text("Denied") ==> r == c
  {
    if c.Text? && c.s in AsDict() then Num(AsDict()[c.s] as real) else c
  }

  /** `USvisaModel`: the preprocessing object and the trained model, saved as one unit. */
  datatype USvisaModel = USvisaModel(preprocessingObject: Preprocessor, trainedModelObject: Estimator) {

    /** `predict`: transform with the bundled, already fitted preprocessor (never a fit),
        then the bundled model's predict. */
    function Predict(df: DataFrame, ml: Oracles): (r: seq<Cell>)
      ensures r == ml.predict(trainedModelObject, ml.transform(preprocessingObject, df))
    {
      var transformedFeature := ml.transform(preprocessingObject, df);
      ml.predict(trainedModelObject, transformedFeature)
    }

    /** `__repr__`: the trained model's class name followed by "()". */
    function Repr(): (s: string)
      ensures |s| == |trainedModelObject.className| + 2
      ensures s[..|trainedModelObject.className|] == trainedModelObject.className
      ensures s[|trainedModelObject.className|..] == "()"
    {
      trainedModelObject.className + "()"
    }

    /** `__str__`: the same text as `__repr__`. */
    function Str(): (s: string)
      ensures s == Repr()
    {
      trainedModelObject.className + "()"
    }
  }
}
