/** The local disk the stages read and write. What a file holds is kept as the value
    that was serialized (csv, numpy, dill, yaml), so reading back what was written
    returns the same value. */
module Files {
  import opened Wrappers
  import opened Errors
  import opened Frames
  import opened Ml
  import opened TargetEstimator

  /** An object that dill or pickle can hold. */
  datatype PyObject = PreprocessorObject(preprocessor: Preprocessor) | ModelObject(model: USvisaModel)

  /** The content of a file or of a stored object. */
  datatype Blob =
    | Csv(df: DataFrame)
    | NumpyArray(matrix: Matrix)
    | Pickle(obj: PyObject)
    | Yaml(report: DriftReport)
    | Bytes(data: seq<bv8>)

  /** The local file system: path to content. */
  class LocalDisk {
    var files: map<string, Blob>

    constructor(files: map<string, Blob>)
      ensures this.files == files
    {
      this.files := files;
    }
  }

  /** `pd.read_csv(path)`. */
  function ReadCsv(files: map<string, Blob>, path: string): (r: Result<DataFrame, Cause>)
    ensures r.Ok? <==> path in files && files[path].Csv?
    ensures r.Ok? ==> files[path] == Csv(r.value)
  {
    if path !in files then Err(FileNotFound(path))
    else if !files[path].Csv? then Err(UnreadableFile(path))
    else Ok(files[path].df)
  }

  /** `load_numpy_array_data(path)`. */
  function LoadNumpyArrayData(files: map<string, Blob>, path: string): (r: Result<Matrix, Cause>)
    ensures r.Ok? <==> path in files && files[path].NumpyArray?
    ensures r.Ok? ==> files[path] == NumpyArray(r.value)
  {
    if path !in files then Err(FileNotFound(path))
    else if !files[path].NumpyArray? then Err(UnreadableFile(path))
    else Ok(files[path].matrix)
  }

  /** `load_object(path)`. */
  function LoadObject(files: map<string, Blob>, path: string): (r: Result<PyObject, Cause>)
    ensures r.Ok? <==> path in files && files[path].Pickle?
    ensures r.Ok? ==> files[path] == Pickle(r.value)
  {
    if path !in files then Err(FileNotFound(path))
    else if !files[path].Pickle? then Err(UnreadableFile(path))
    else Ok(files[path].obj)
  }
}
