/** aws_storage.py: the object store as buckets of key to content. The store's state
    is held by one `SimpleStorageService` object that every user shares. */
module AwsStorage {
  import opened Wrappers
  import opened Errors
  import opened Files

  type Bucket = map<string, Blob>

  /** The keys `bucket.objects.filter(Prefix=prefix)` lists: every key that starts with
      `prefix`, not only `prefix` itself. */
  function KeysWithPrefix(bucket: Bucket, prefix: string): (ks: set<string>)
    ensures forall k :: k in ks <==> k in bucket && prefix <= k
  {
    set k | k in bucket && prefix <= k
  }

  /** `s3_key_path_available`: some key of the bucket starts with `s3Key`. Listing a
      bucket that does not exist raises. */
  function S3KeyPathAvailable(buckets: map<string, Bucket>, bucketName: string, s3Key: string): (r: Result<bool, Cause>)
    ensures bucketName !in buckets ==> r == Err(NoSuchBucket(bucketName))
    ensures bucketName in buckets ==> r.Ok? && (r.value <==> exists k :: k in buckets[bucketName] && s3Key <= k)
  {
    if bucketName !in buckets then Err(NoSuchBucket(bucketName))
    else
      var ks := KeysWithPrefix(buckets[bucketName], s3Key);
      if |ks| > 0 then
        var k :| k in ks;
        Ok(true)
      else Ok(false)
  }

  /** What `get_file_object` returns: the one object, or the list of objects. The list
      is kept as the set of its keys; its order is not modelled. */
  datatype FileObject = Single(key: string) | Listing(keys: set<string>)

  /** A set holding two distinct keys has at least two elements. */
  lemma TwoDistinct(s: set<string>, x: string, y: string)
    requires x in s && y in s && x != y
    ensures |s| >= 2
  {
    var rest := s - {x};
    assert y in rest;
    assert |rest| == |s| - 1;
  }

  lemma SingletonElement(s: set<string>, x: string)
    requires |s| == 1 && x in s
    ensures s == {x}
  {
    if y :| y in s && y != x {
      TwoDistinct(s, x, y);
    }
  }

  /** `get_file_object`: the single object when exactly one key starts with `filename`,
      and otherwise the whole list, which may be empty or hold several objects. */
  function GetFileObject(buckets: map<string, Bucket>, filename: string, bucketName: string): (r: Result<FileObject, Cause>)
    ensures bucketName !in buckets ==> r == Err(NoSuchBucket(bucketName))
    ensures bucketName in buckets ==> r.Ok? && var ks := KeysWithPrefix(buckets[bucketName], filename);
      && (|ks| == 1 ==> r.value.Single? && ks == {r.value.key})
      && (|ks| != 1 ==> r.value == Listing(ks))
  {
    if bucketName !in buckets then Err(NoSuchBucket(bucketName))
    else
      var ks := KeysWithPrefix(buckets[bucketName], filename);
      if |ks| == 1 then
        var k :| k in ks;
        SingletonElement(ks, k);
        Ok(Single(k))
      else Ok(Listing(ks))
  }

  /** The key `load_model` reads: `model_name`, or `model_dir/model_name`. */
  function ModelFile(modelName: string, modelDir: Option<string>): (key: string)
    ensures modelDir.None? ==> key == modelName
    ensures modelDir.Some? ==>
              && |key| == |modelDir.value| + 1 + |modelName|
              && key[..|modelDir.value|] == modelDir.value && key[|modelDir.value|] == '/'
              && key[|modelDir.value| + 1..] == modelName
  {
    if modelDir.None? then modelName else modelDir.value + "/" + modelName
  }

  /** `load_model`: unpickles the one object whose key starts with the model key. A listing
      (no match, or several) has no `get` and raises, and so does content that is not a
      pickle. */
  function LoadModel(buckets: map<string, Bucket>, modelName: string, bucketName: string, modelDir: Option<string>): (r: Result<PyObject, Cause>)
    ensures r.Ok? <==>
              && bucketName in buckets
              && exists k :: KeysWithPrefix(buckets[bucketName], ModelFile(modelName, modelDir)) == {k} && buckets[bucketName][k].Pickle?
    ensures r.Ok? ==> exists k :: KeysWithPrefix(buckets[bucketName], ModelFile(modelName, modelDir)) == {k} && buckets[bucketName][k] == Pickle(r.value)
  {
    var modelFile := ModelFile(modelName, modelDir);
    var fileObject :- GetFileObject(buckets, modelFile, bucketName);
    if fileObject.Listing? then Err(NotASingleObject(modelFile))
    else if !buckets[bucketName][fileObject.key].Pickle? then Err(UnpicklingError(fileObject.key))
    else Ok(buckets[bucketName][fileObject.key].obj)
  }

  /** Because presence is a prefix test, a bucket holding two keys that both start with
      the model key reports the model present, yet loading it raises. */
  lemma PresentButNotLoadable(buckets: map<string, Bucket>, bucketName: string, key: string, k1: string, k2: string)
    requires bucketName in buckets && k1 in buckets[bucketName] && k2 in buckets[bucketName]
    requires k1 != k2 && key <= k1 && key <= k2
    ensures S3KeyPathAvailable(buckets, bucketName, key) == Ok(true)
    ensures LoadModel(buckets, key, bucketName, None).Err?
  {
    var ks := KeysWithPrefix(buckets[bucketName], key);
    TwoDistinct(ks, k1, k2);
  }

  class SimpleStorageService {
    var buckets: map<string, Bucket>

    constructor(buckets: map<string, Bucket>)
      ensures this.buckets == buckets
    {
      this.buckets := buckets;
    }

    /** `upload_file`: the store's key `toFilename` takes the local file's content; the
        local file is deleted only when `remove` is set, and only after the upload. */
    method UploadFile(disk: LocalDisk, fromFilename: string, toFilename: string, bucketName: string, remove: bool := true)
      returns (r: Result<(), Cause>)
      modifies this, disk
      ensures r.Ok? <==> fromFilename in old(disk.files) && bucketName in old(buckets)
      ensures fromFilename !in old(disk.files) ==> r == Err(FileNotFound(fromFilename))
      ensures fromFilename in old(disk.files) && bucketName !in old(buckets) ==> r == Err(NoSuchBucket(bucketName))
      ensures r.Ok? ==> buckets == old(buckets)[bucketName := old(buckets)[bucketName][toFilename := old(disk.files)[fromFilename]]]
      ensures r.Ok? ==> disk.files == if remove then old(disk.files) - {fromFilename} else old(disk.files)
      ensures r.Err? ==> buckets == old(buckets) && disk.files == old(disk.files)
    {
      if fromFilename !in disk.files {
        return Err(FileNotFound(fromFilename));
      }
      if bucketName !in buckets {
        return Err(NoSuchBucket(bucketName));
      }
      buckets := buckets[bucketName := buckets[bucketName][toFilename := disk.files[fromFilename]]];
      if remove {
        disk.files := disk.files - {fromFilename};
      }
      r := Ok(());
    }

    /** `create_folder`: a HEAD request on `folderName`; only its 404 answer leads to
        writing the empty object `folderName/`. `accessDenied` stands for a caller whom
        S3 answers 403 instead; that and every other client error is ignored. A HEAD on
        a missing bucket also answers 404, and the write that follows raises. */
    method CreateFolder(folderName: string, bucketName: string, accessDenied: bool) returns (r: Result<(), Cause>)
      modifies this
      ensures var notFound := !accessDenied && (bucketName !in old(buckets) || folderName !in old(buckets)[bucketName]);
        && (!notFound ==> r.Ok? && buckets == old(buckets))
        && (notFound && bucketName !in old(buckets) ==> r == Err(NoSuchBucket(bucketName)) && buckets == old(buckets))
        && (notFound && bucketName in old(buckets) ==>
              r.Ok? && buckets == old(buckets)[bucketName := old(buckets)[bucketName][folderName + "/" := Bytes([])]])
    {
      var notFound := !accessDenied && (bucketName !in buckets || folderName !in buckets[bucketName]);
      if notFound {
        if bucketName !in buckets {
          return Err(NoSuchBucket(bucketName));
        }
        buckets := buckets[bucketName := buckets[bucketName][folderName + "/" := Bytes([])]];
      }
      r := Ok(());
    }
  }
}
