/**
 * Schemaless documents as the handlers see them through the MongoDB driver,
 * with the two single-document primitives they rely on: equality filters
 * (FindOne, CountDocuments) and `$set` updates with upsert (UpdateOne).
 */
module Documents {
  import opened Wrappers
  import opened ObjectIds

  /** A BSON value. All numbers (int, float64) are exact reals here. */
  datatype Value =
    | Null
    | Str(s: string)
    | Num(n: real)
    | Time(t: int)
    | Oid(id: ObjectId)
    | Doc(fields: map<string, Value>)
    | Arr(elems: seq<Value>)

  /** A document: field names to values; an absent key is a missing field. */
  type Row = map<string, Value>

  /** An ordered `$set` list of key/value pairs (a bson.D). */
  type Patch = seq<(string, Value)>

  /** Unix time in seconds of Go's zero time.Time (0001-01-01T00:00:00Z). */
  const ZeroTime: int := -62135596800

  const SecondsPerDay: int := 86400

  /** A nil pointer is encoded as BSON null. */
  function OptStr(o: Option<string>): Value { if o.Some? then Str(o.value) else Null }

  function OptNum(o: Option<real>): Value { if o.Some? then Num(o.value) else Null }

  function OptTime(o: Option<int>): Value { if o.Some? then Time(o.value) else Null }

  /** Wraps each document as a sub-document value (a BSON array of documents). */
  function Docs(rows: seq<Row>): (r: seq<Value>)
    ensures |r| == |rows|
    ensures forall i :: 0 <= i < |rows| ==> r[i] == Doc(rows[i])
  {
    seq(|rows|, i requires 0 <= i < |rows| => Doc(rows[i]))
  }

  /**
   * The value at a dotted field path (`"$food.name"` is ["food", "name"]);
   * None when a step is missing or is not a sub-document.
   */
  function Get(row: Row, path: seq<string>): (r: Option<Value>)
    requires path != []
    ensures |path| == 1 ==> (r.Some? <==> path[0] in row)
    ensures |path| == 1 && r.Some? ==> r.value == row[path[0]]
    decreases |path|
  {
    if path[0] !in row then None
    else if |path| == 1 then Some(row[path[0]])
    else match row[path[0]]
      case Doc(inner) => Get(inner, path[1..])
      case _ => None
  }

  /** Missing and null compare alike in filters and in $lookup keys. */
  function OrNull(v: Option<Value>): Value { if v.Some? then v.value else Null }

  /** The document passes the equality filter {key: v}. */
  predicate FieldEquals(row: Row, key: string, v: Value)
  {
    OrNull(Get(row, [key])) == v
  }

  /** FindOne: the index of the first document passing {key: v}, if any. */
  function FindFirst(docs: seq<Row>, key: string, v: Value): (r: Option<nat>)
    ensures r.Some? ==> r.value < |docs| && FieldEquals(docs[r.value], key, v)
    ensures r.Some? ==> forall j :: 0 <= j < r.value ==> !FieldEquals(docs[j], key, v)
    ensures r.None? ==> forall j :: 0 <= j < |docs| ==> !FieldEquals(docs[j], key, v)
  {
    if docs == [] then None
    else if FieldEquals(docs[0], key, v) then Some(0)
    else match FindFirst(docs[1..], key, v)
      case None => None
      case Some(i) => Some(i + 1)
  }

  /** CountDocuments with the filter {key: v}. */
  function CountMatching(docs: seq<Row>, key: string, v: Value): (n: nat)
    ensures n <= |docs|
    ensures n == 0 <==> FindFirst(docs, key, v).None?
  {
    if docs == [] then 0
    else (if FieldEquals(docs[0], key, v) then 1 else 0) + CountMatching(docs[1..], key, v)
  }

  function PatchKeys(patch: Patch): (ks: set<string>)
    ensures forall i :: 0 <= i < |patch| ==> patch[i].0 in ks
    ensures forall k :: k in ks ==> exists i :: 0 <= i < |patch| && patch[i].0 == k
  {
    set i | 0 <= i < |patch| :: patch[i].0
  }

  predicate DistinctKeys(patch: Patch)
  {
    forall i, j :: 0 <= i < j < |patch| ==> patch[i].0 != patch[j].0
  }

  /** The `$set` entry of an optional input: present iff the input is non-nil. */
  function Entry(key: string, v: Option<Value>): (p: Patch)
    ensures PatchKeys(p) == if v.Some? then {key} else {}
    ensures v.Some? ==> p == [(key, v.value)]
    ensures v.None? ==> p == []
  {
    if v.Some? then
      var p := [(key, v.value)];
      assert p[0].0 == key;
      p
    else []
  }

  lemma PatchKeysAppend(a: Patch, b: Patch)
    ensures PatchKeys(a + b) == PatchKeys(a) + PatchKeys(b)
  {
    forall k | k in PatchKeys(a + b) ensures k in PatchKeys(a) + PatchKeys(b) {
      var i :| 0 <= i < |a + b| && (a + b)[i].0 == k;
      if i >= |a| {
        assert b[i - |a|].0 == k;
      }
    }
    forall k | k in PatchKeys(a) ensures k in PatchKeys(a + b) {
      var i :| 0 <= i < |a| && a[i].0 == k;
      assert (a + b)[i].0 == k;
    }
    forall k | k in PatchKeys(b) ensures k in PatchKeys(a + b) {
      var i :| 0 <= i < |b| && b[i].0 == k;
      assert (a + b)[|a| + i].0 == k;
    }
  }

  /** The value behind a pointer, as an optional entry value. */
  function StrOpt(o: Option<string>): (r: Option<Value>)
    ensures r.Some? <==> o.Some?
    ensures o.Some? ==> r.value == Str(o.value)
  {
    if o.Some? then Some(Str(o.value)) else None
  }

  function NumOpt(o: Option<real>): (r: Option<Value>)
    ensures r.Some? <==> o.Some?
    ensures o.Some? ==> r.value == Num(o.value)
  {
    if o.Some? then Some(Num(o.value)) else None
  }

  function TimeOpt(o: Option<int>): (r: Option<Value>)
    ensures r.Some? <==> o.Some?
    ensures o.Some? ==> r.value == Time(o.value)
  {
    if o.Some? then Some(Time(o.value)) else None
  }

  /** Concatenating patches over disjoint keys keeps the keys distinct. */
  lemma DistinctAppend(a: Patch, b: Patch)
    requires DistinctKeys(a) && DistinctKeys(b)
    requires PatchKeys(a) !! PatchKeys(b)
    ensures DistinctKeys(a + b)
  {
    forall i, j | 0 <= i < j < |a + b| ensures (a + b)[i].0 != (a + b)[j].0 {
      if i < |a| && j >= |a| {
        assert (a + b)[i].0 in PatchKeys(a);
        assert (a + b)[j] == b[j - |a|];
        assert (a + b)[j].0 in PatchKeys(b);
      } else if i >= |a| {
        assert (a + b)[i] == b[i - |a|] && (a + b)[j] == b[j - |a|];
      }
    }
  }

  /**
   * Appending the entry of a new key to a patch: keys stay distinct and the
   * key joins the patch iff its input is present.
   */
  lemma AppendEntry(p: Patch, k: string, o: Option<Value>)
    requires DistinctKeys(p)
    requires k !in PatchKeys(p)
    ensures DistinctKeys(p + Entry(k, o))
    ensures PatchKeys(p + Entry(k, o)) == PatchKeys(p) + (if o.Some? then {k} else {})
  {
    PatchKeysAppend(p, Entry(k, o));
    DistinctAppend(p, Entry(k, o));
  }

  /** Appending the entries of two new, different keys. */
  lemma AppendEntries(p: Patch, k1: string, o1: Option<Value>, k2: string, o2: Option<Value>)
    requires DistinctKeys(p)
    requires k1 !in PatchKeys(p) && k2 !in PatchKeys(p) && k1 != k2
    ensures DistinctKeys(p + Entry(k1, o1) + Entry(k2, o2))
    ensures PatchKeys(p + Entry(k1, o1) + Entry(k2, o2))
      == PatchKeys(p) + (if o1.Some? then {k1} else {}) + (if o2.Some? then {k2} else {})
  {
    AppendEntry(p, k1, o1);
    AppendEntry(p + Entry(k1, o1), k2, o2);
  }

  /** `$set`: writes the pairs left to right; fields not named stay as they were. */
  function SetFields(row: Row, patch: Patch): (r: Row)
    ensures r.Keys == row.Keys + PatchKeys(patch)
    ensures forall k :: k in row && k !in PatchKeys(patch) ==> r[k] == row[k]
    decreases |patch|
  {
    if patch == [] then row
    else
      assert PatchKeys(patch) == {patch[0].0} + PatchKeys(patch[1..]);
      SetFields(row[patch[0].0 := patch[0].1], patch[1..])
  }

  /** With distinct keys every pair of the patch ends up in the document. */
  lemma {:induction false} SetFieldsValue(row: Row, patch: Patch, i: nat)
    requires DistinctKeys(patch)
    requires i < |patch|
    ensures patch[i].0 in SetFields(row, patch)
    ensures SetFields(row, patch)[patch[i].0] == patch[i].1
    decreases |patch|
  {
    if i > 0 {
      SetFieldsValue(row[patch[0].0 := patch[0].1], patch[1..], i - 1);
    } else {
      assert patch[0].0 !in PatchKeys(patch[1..]);
    }
  }

  /** With distinct keys, any pair of the patch is what the document ends up holding. */
  lemma SetFieldsLookup(row: Row, patch: Patch, k: string, v: Value)
    requires DistinctKeys(patch)
    requires (k, v) in patch
    ensures k in SetFields(row, patch) && SetFields(row, patch)[k] == v
  {
    var i :| 0 <= i < |patch| && patch[i] == (k, v);
    SetFieldsValue(row, patch, i);
  }

  /**
   * UpdateOne(filter {key: v}, {$set: patch}, upsert: true): the first
   * matching document receives the patch; when none matches, a new document
   * made of the filter field and the patch is appended.
   */
  function UpsertOne(docs: seq<Row>, key: string, v: Value, patch: Patch): (r: seq<Row>)
    ensures FindFirst(docs, key, v).Some? ==> |r| == |docs|
    ensures FindFirst(docs, key, v).None? ==> |r| == |docs| + 1 && r[..|docs|] == docs
    ensures forall j :: 0 <= j < |docs| && Some(j) != FindFirst(docs, key, v) ==> r[j] == docs[j]
    ensures FindFirst(docs, key, v).Some? ==>
      var i := FindFirst(docs, key, v).value; r[i] == SetFields(docs[i], patch)
    ensures FindFirst(docs, key, v).None? ==> r[|docs|] == SetFields(map[key := v], patch)
    ensures exists j :: 0 <= j < |r| && PatchKeys(patch) <= r[j].Keys
  {
    match FindFirst(docs, key, v)
    case Some(i) =>
      var r := docs[i := SetFields(docs[i], patch)];
      assert PatchKeys(patch) <= r[i].Keys;
      r
    case None =>
      var r := docs + [SetFields(map[key := v], patch)];
      assert PatchKeys(patch) <= r[|docs|].Keys;
      r
  }

  /** An upsert that matches writes every pair of a distinct-key patch into the matched document. */
  lemma UpsertWrites(docs: seq<Row>, key: string, v: Value, patch: Patch, k: string, x: Value)
    requires FindFirst(docs, key, v).Some?
    requires DistinctKeys(patch) && (k, x) in patch
    ensures var i := FindFirst(docs, key, v).value;
      k in UpsertOne(docs, key, v, patch)[i] && UpsertOne(docs, key, v, patch)[i][k] == x
  {
    var i := FindFirst(docs, key, v).value;
    SetFieldsLookup(docs[i], patch, k, x);
  }
}
