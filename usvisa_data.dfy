/** usvisa_data.py: reading one MongoDB collection into a frame, then dropping the
    `_id` column and turning the "na" sentinel into a missing value. */
module UsvisaData {
  import opened Wrappers
  import opened Errors
  import opened Frames

  /** A stored record: its fields in stored order (a document has no repeated field). */
  type Document = seq<(string, Cell)>

  /** The databases the server holds: database name to collection name to records,
      and the default database the client was opened on. */
  datatype MongoDBClient = MongoDBClient(databases: map<string, map<string, seq<Document>>>, databaseName: string)

  predicate Distinct(xs: seq<string>) {
    forall i, j :: 0 <= i < j < |xs| ==> xs[i] != xs[j]
  }

  function Keys(doc: Document): (ks: seq<string>)
    ensures |ks| == |doc| && forall i :: 0 <= i < |doc| ==> ks[i] == doc[i].0
  {
    seq(|doc|, i requires 0 <= i < |doc| => doc[i].0)
  }

  /** The value a record has for `key`; a record without the field gives a missing value. */
  function Lookup(doc: Document, key: string): Cell {
    if key in Keys(doc) then doc[IndexOf(Keys(doc), key)].1 else Null
  }

  lemma DistinctConcat(a: seq<string>, b: seq<string>)
    requires Distinct(a) && Distinct(b)
    requires forall k :: k in b ==> k !in a
    ensures Distinct(a + b)
  {
    forall i, j | 0 <= i < j < |a + b|
      ensures (a + b)[i] != (a + b)[j]
    {
      if j >= |a| {
        assert (a + b)[j] == b[j - |a|] && b[j - |a|] in b;
        if i < |a| {
          assert (a + b)[i] in a;
        }
      }
    }
  }

  /** The keys of `keys` not yet in `seen`, once each, in order of first appearance. */
  function NewKeys(seen: seq<string>, keys: seq<string>): (added: seq<string>)
    ensures forall k :: k in added <==> k in keys && k !in seen
    ensures Distinct(added)
  {
    if keys == [] then []
    else
      var n := |keys|;
      var p := NewKeys(seen, keys[..n - 1]);
      assert keys == keys[..n - 1] + [keys[n - 1]];
      if keys[n - 1] in seen || keys[n - 1] in p then p else p + [keys[n - 1]]
  }

  /** The labels of `DataFrame(records)`: every field of every record, once each, in
      order of first appearance. */
  function FrameColumns(docs: seq<Document>): (cols: seq<string>)
    ensures Distinct(cols)
    ensures forall k :: k in cols <==> exists i :: 0 <= i < |docs| && k in Keys(docs[i])
  {
    if docs == [] then []
    else
      var n := |docs|;
      var p := FrameColumns(docs[..n - 1]);
      var added := NewKeys(p, Keys(docs[n - 1]));
      assert forall k :: k in p + added <==> exists i :: 0 <= i < n && k in Keys(docs[i]) by {
        forall k ensures k in p + added <==> exists i :: 0 <= i < n && k in Keys(docs[i]) {
          if exists i :: 0 <= i < n && k in Keys(docs[i]) {
            var i :| 0 <= i < n && k in Keys(docs[i]);
            if i < n - 1 {
              assert docs[..n - 1][i] == docs[i];
            }
          }
          if k in p {
            var i :| 0 <= i < n - 1 && k in Keys(docs[..n - 1][i]);
            assert docs[..n - 1][i] == docs[i];
          }
        }
      }
      DistinctConcat(p, added);
      p + added
  }

  /** `pd.DataFrame(list(collection.find()))`: one row per record, one column per field
      name, and a missing value where a record lacks the field. */
  function RecordsToFrame(docs: seq<Document>): (df: DataFrame)
    ensures df.columns == FrameColumns(docs)
    ensures |df.rows| == |docs|
    ensures forall i, j :: 0 <= i < |docs| && 0 <= j < |df.columns| ==> df.rows[i][j] == Lookup(docs[i], df.columns[j])
  {
    var cols := FrameColumns(docs);
    Table(cols, seq(|docs|, i requires 0 <= i < |docs| => seq(|cols|, j requires 0 <= j < |cols| => Lookup(docs[i], cols[j]))))
  }

  /** The records of a collection. Naming a database or a collection that does not
      exist yields an empty collection, not an error. */
  function Find(databases: map<string, map<string, seq<Document>>>, database: string, collection: string): seq<Document> {
    if database in databases && collection in databases[database] then databases[database][collection] else []
  }

  /** The collection as written: the default database is `client.database`, but a named
      database is looked up with `client[name]`, and `MongoDBClient` defines no
      subscript, so that raises `TypeError`. */
  function SelectCollectionAsWritten(client: MongoDBClient, collectionName: string, databaseName: Option<string>): (r: Result<seq<Document>, Cause>)
    ensures databaseName.None? ==> r == Ok(Find(client.databases, client.databaseName, collectionName))
    ensures databaseName.Some? ==> r == Err(TypeError("MongoDBClient"))
  {
    if databaseName.None? then Ok(Find(client.databases, client.databaseName, collectionName))
    else Err(TypeError("MongoDBClient"))
  }

  /** Asking for any named database fails, even the client's own default one. */
  lemma NamedDatabaseRaises(client: MongoDBClient, collectionName: string)
    requires client.databaseName in client.databases && collectionName in client.databases[client.databaseName]
    ensures SelectCollectionAsWritten(client, collectionName, None).Ok?
    ensures SelectCollectionAsWritten(client, collectionName, Some(client.databaseName)).Err?
  {
  }

  /** The collection as intended: from the default database when no name is given,
      and from the named database otherwise. */
  function SelectCollection(client: MongoDBClient, collectionName: string, databaseName: Option<string>): (docs: seq<Document>)
    ensures var db := if databaseName.None? then client.databaseName else databaseName.value;
      docs == if db in client.databases && collectionName in client.databases[db] then client.databases[db][collectionName] else []
  {
    match databaseName
    case None => Find(client.databases, client.databaseName, collectionName)
    case Some(name) => Find(client.databases, name, collectionName)
  }

  /** Naming the default database reads the same records as naming none. */
  lemma DefaultNameAgrees(client: MongoDBClient, collectionName: string)
    ensures SelectCollection(client, collectionName, Some(client.databaseName)) == SelectCollection(client, collectionName, None)
  {
  }

  /** The "na" sentinel becomes a missing value; every other cell stays. */
  function NaToNull(c: Cell): Cell {
    if c == Text("na") then Null else c
  }

  /** `df.replace({"na": np.nan})`. */
  function ReplaceNa(df: DataFrame): (r: DataFrame)
    ensures r.columns == df.columns && |r.rows| == |df.rows|
    ensures forall i, j :: 0 <= i < |df.rows| && 0 <= j < |df.columns| ==> r.rows[i][j] == NaToNull(df.rows[i][j])
  {
    Table(df.columns, seq(|df.rows|, i requires 0 <= i < |df.rows| =>
      seq(|df.columns|, j requires 0 <= j < |df.columns| => NaToNull(df.rows[i][j]))))
  }

  /** `export_collection_as_dataframe`: one row per record; the labels are the record
      fields without `_id` (dropped only when present); each cell is the record's value
      for its label with "na" turned into a missing value. */
  method ExportCollectionAsDataframe(client: MongoDBClient, collectionName: string, databaseName: Option<string>)
    returns (df: DataFrame)
    ensures var docs := SelectCollection(client, collectionName, databaseName);
      && var all := FrameColumns(docs);
      && ("_id" in all ==> df.columns == Remaining(all, ["_id"]))
      && ("_id" !in all ==> df.columns == all)
      && |df.rows| == |docs|
      && forall i, j :: 0 <= i < |docs| && 0 <= j < |df.columns| ==> df.rows[i][j] == NaToNull(Lookup(docs[i], df.columns[j]))
    ensures "_id" !in df.columns
  {
    var docs := SelectCollection(client, collectionName, databaseName);
    df := RecordsToFrame(docs);
    if "_id" in df.columns {
      KeptLabels(df.columns, ["_id"]);
      RemainingMembers(df.columns, ["_id"]);
      var dropped := Drop(df, ["_id"]);
      df := dropped.value;
    }
    df := ReplaceNa(df);
  }
}
