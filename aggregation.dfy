/**
 * The aggregation stages the handlers send to the document store, as pure
 * functions over sequences of documents: $match, $lookup, $unwind,
 * $project and $group.  Each stage is stated with its per-document meaning;
 * projection-validity checks and other store-side errors are not modelled.
 */
module Aggregation {
  import opened Wrappers
  import opened Documents

  // ---------------------------------------------------------------- $match

  /** `{$match: {key: v}}`: keeps, in order, the documents passing the filter. */
  function Match(rows: seq<Row>, key: string, v: Value): (r: seq<Row>)
    ensures |r| <= |rows|
    ensures forall x :: x in r <==> x in rows && FieldEquals(x, key, v)
  {
    if rows == [] then []
    else (if FieldEquals(rows[0], key, v) then [rows[0]] else []) + Match(rows[1..], key, v)
  }

  /** A filter on a field no row has, compared with null, keeps every row (`{$match: {"": null}}`). */
  lemma {:induction false} MatchAbsent(rows: seq<Row>, key: string)
    requires forall r :: r in rows ==> key !in r
    ensures Match(rows, key, Null) == rows
  {
    if rows != [] {
      assert rows[0] in rows;
      forall r | r in rows[1..] ensures key !in r {
        assert r in rows;
      }
      MatchAbsent(rows[1..], key);
    }
  }

  /** Matching a single document keeps it exactly when it passes the filter. */
  lemma MatchOne(row: Row, key: string, v: Value)
    ensures Match([row], key, v) == if FieldEquals(row, key, v) then [row] else []
  {
    assert [row][1..] == [];
  }

  /** $match distributes over concatenation, so it preserves input order. */
  lemma {:induction false} MatchAppend(a: seq<Row>, b: seq<Row>, key: string, v: Value)
    ensures Match(a + b, key, v) == Match(a, key, v) + Match(b, key, v)
  {
    if a != [] {
      assert (a + b)[1..] == a[1..] + b;
      MatchAppend(a[1..], b, key, v);
    } else {
      assert a + b == b;
    }
  }

  // ------------------------------------------------------ $lookup / $unwind

  /**
   * The foreign documents a `$lookup` attaches to a row: those whose
   * foreignField equals the row's localField, a missing field comparing
   * equal to null.
   */
  function Joined(row: Row, from: seq<Row>, local: seq<string>, foreign: string): seq<Row>
    requires local != []
  {
    Match(from, foreign, OrNull(Get(row, local)))
  }

  /** `{$lookup: {from, localField, foreignField, as}}`. */
  function Lookup(rows: seq<Row>, from: seq<Row>, local: seq<string>, foreign: string, into: string): (r: seq<Row>)
    requires local != []
    ensures |r| == |rows|
    ensures forall i :: 0 <= i < |rows| ==> r[i] == rows[i][into := Arr(Docs(Joined(rows[i], from, local, foreign)))]
  {
    seq(|rows|, i requires 0 <= i < |rows| => rows[i][into := Arr(Docs(Joined(rows[i], from, local, foreign)))])
  }

  /**
   * `{$unwind: {path, preserveNullAndEmptyArrays: true}}` on one document:
   * one copy per array element; an empty array drops the field and keeps the
   * document; a missing, null or non-array field keeps the document as is.
   */
  function UnwindRow(row: Row, path: string): (r: seq<Row>)
    ensures |r| >= 1
  {
    if path in row && row[path].Arr? then
      var xs := row[path].elems;
      if xs == [] then [row - {path}]
      else seq(|xs|, j requires 0 <= j < |xs| => row[path := xs[j]])
    else [row]
  }

  function Unwind(rows: seq<Row>, path: string): (r: seq<Row>)
    ensures |r| >= |rows|
  {
    if rows == [] then [] else UnwindRow(rows[0], path) + Unwind(rows[1..], path)
  }

  lemma {:induction false} UnwindAppend(a: seq<Row>, b: seq<Row>, path: string)
    ensures Unwind(a + b, path) == Unwind(a, path) + Unwind(b, path)
  {
    if a != [] {
      assert (a + b)[1..] == a[1..] + b;
      UnwindAppend(a[1..], b, path);
    } else {
      assert a + b == b;
    }
  }

  /** A `$lookup` followed by an `$unwind` of its output field. */
  function LeftJoin(rows: seq<Row>, from: seq<Row>, local: seq<string>, foreign: string, into: string): seq<Row>
    requires local != []
  {
    Unwind(Lookup(rows, from, local, foreign, into), into)
  }

  /**
   * What one row becomes: with no foreign match it is kept, with the join
   * field absent; otherwise it is repeated once per match, in the foreign
   * collection's order, the match stored under `into`.
   */
  lemma LeftJoinOne(row: Row, from: seq<Row>, local: seq<string>, foreign: string, into: string)
    requires local != []
    ensures var j := Joined(row, from, local, foreign);
      LeftJoin([row], from, local, foreign, into)
      == if j == [] then [row - {into}]
         else seq(|j|, k requires 0 <= k < |j| => row[into := Doc(j[k])])
  {
    var j := Joined(row, from, local, foreign);
    var looked := row[into := Arr(Docs(j))];
    assert Lookup([row], from, local, foreign, into) == [looked];
    assert Unwind([looked], into) == UnwindRow(looked, into) + Unwind([], into);
    if j == [] {
      assert looked - {into} == row - {into};
    } else {
      var xs := Docs(j);
      assert forall k :: 0 <= k < |j| ==> looked[into := xs[k]] == row[into := Doc(j[k])];
    }
  }

  lemma LeftJoinAppend(a: seq<Row>, b: seq<Row>, from: seq<Row>, local: seq<string>, foreign: string, into: string)
    requires local != []
    ensures LeftJoin(a + b, from, local, foreign, into)
         == LeftJoin(a, from, local, foreign, into) + LeftJoin(b, from, local, foreign, into)
  {
    assert Lookup(a + b, from, local, foreign, into)
        == Lookup(a, from, local, foreign, into) + Lookup(b, from, local, foreign, into);
    UnwindAppend(Lookup(a, from, local, foreign, into), Lookup(b, from, local, foreign, into), into);
  }

  /** A row's own join output holds the row with only the join field changed. */
  lemma LeftJoinKeepsOne(row: Row, from: seq<Row>, local: seq<string>, foreign: string, into: string)
    requires local != []
    ensures |LeftJoin([row], from, local, foreign, into)| > 0
    ensures LeftJoin([row], from, local, foreign, into)[0] - {into} == row - {into}
    ensures Joined(row, from, local, foreign) == [] ==> LeftJoin([row], from, local, foreign, into)[0] == row - {into}
  {
    LeftJoinOne(row, from, local, foreign, into);
    var j := Joined(row, from, local, foreign);
    if j != [] {
      UpdateMinus(row, into, Doc(j[0]));
    } else {
      UpdateMinus(row - {into}, into, Null);
    }
  }

  /**
   * A left join never drops a row: every input row reappears, equal to the
   * input on every field but the join field.
   */
  lemma LeftJoinKeeps(rows: seq<Row>, from: seq<Row>, local: seq<string>, foreign: string, into: string, i: nat)
    requires local != []
    requires i < |rows|
    ensures exists o :: o in LeftJoin(rows, from, local, foreign, into) && o - {into} == rows[i] - {into}
    ensures Joined(rows[i], from, local, foreign) == [] ==> rows[i] - {into} in LeftJoin(rows, from, local, foreign, into)
  {
    var row := rows[i];
    var before, after := rows[..i], rows[i + 1..];
    assert rows == before + [row] + after;
    LeftJoinAppend(before + [row], after, from, local, foreign, into);
    LeftJoinAppend(before, [row], from, local, foreign, into);
    var mid := LeftJoin([row], from, local, foreign, into);
    var out := LeftJoin(before, from, local, foreign, into) + mid + LeftJoin(after, from, local, foreign, into);
    assert LeftJoin(rows, from, local, foreign, into) == out;
    LeftJoinKeepsOne(row, from, local, foreign, into);
    assert mid[0] in mid;
    assert mid[0] in out;
  }

  lemma UpdateMinus(row: Row, into: string, x: Value)
    ensures row[into := x] - {into} == row - {into}
    ensures (row - {into}) - {into} == row - {into}
  {
  }

  lemma LeftJoinOneFrom(row: Row, from: seq<Row>, local: seq<string>, foreign: string, into: string, o: Row)
    requires local != []
    requires o in LeftJoin([row], from, local, foreign, into)
    ensures o - {into} == row - {into}
  {
    LeftJoinOne(row, from, local, foreign, into);
    var out := LeftJoin([row], from, local, foreign, into);
    var k :| 0 <= k < |out| && out[k] == o;
    var j := Joined(row, from, local, foreign);
    if j == [] {
      UpdateMinus(row, into, Null);
    } else {
      assert out[k] == row[into := Doc(j[k])];
      UpdateMinus(row, into, Doc(j[k]));
    }
  }

  /**
   * Provenance: every output row of a left join is some input row with only
   * the join field changed.
   */
  lemma {:induction false} LeftJoinFrom(rows: seq<Row>, from: seq<Row>, local: seq<string>, foreign: string, into: string, o: Row)
    requires local != []
    requires o in LeftJoin(rows, from, local, foreign, into)
    ensures exists r :: r in rows && o - {into} == r - {into}
  {
    if rows != [] {
      var row, rest := rows[0], rows[1..];
      assert rows == [row] + rest;
      LeftJoinAppend([row], rest, from, local, foreign, into);
      if o in LeftJoin([row], from, local, foreign, into) {
        LeftJoinOneFrom(row, from, local, foreign, into, o);
      } else {
        LeftJoinFrom(rest, from, local, foreign, into, o);
        var r :| r in rest && o - {into} == r - {into};
        assert r in rows;
      }
    }
  }

  /** Every row has at most one foreign match (the joined key is unique). */
  ghost predicate AtMostOneMatch(rows: seq<Row>, from: seq<Row>, local: seq<string>, foreign: string)
    requires local != []
  {
    forall i :: 0 <= i < |rows| ==> |Joined(rows[i], from, local, foreign)| <= 1
  }

  /** A row with at most one foreign match becomes exactly one row. */
  lemma LeftJoinSingle(row: Row, from: seq<Row>, local: seq<string>, foreign: string, into: string)
    requires local != []
    requires |Joined(row, from, local, foreign)| <= 1
    ensures |LeftJoin([row], from, local, foreign, into)| == 1
    ensures LeftJoin([row], from, local, foreign, into)[0] - {into} == row - {into}
  {
    LeftJoinOne(row, from, local, foreign, into);
    var j := Joined(row, from, local, foreign);
    if j != [] {
      assert (row[into := Doc(j[0])]) - {into} == row - {into};
    }
  }

  /** The one-to-one property extends from the rest of the rows to one more row in front. */
  lemma LeftJoinUniqueCons(row: Row, rest: seq<Row>, from: seq<Row>, local: seq<string>, foreign: string, into: string)
    requires local != []
    requires |Joined(row, from, local, foreign)| <= 1
    requires |LeftJoin(rest, from, local, foreign, into)| == |rest|
    requires forall i :: 0 <= i < |rest| ==> LeftJoin(rest, from, local, foreign, into)[i] - {into} == rest[i] - {into}
    ensures |LeftJoin([row] + rest, from, local, foreign, into)| == 1 + |rest|
    ensures forall i :: 0 <= i < 1 + |rest| ==>
      LeftJoin([row] + rest, from, local, foreign, into)[i] - {into} == ([row] + rest)[i] - {into}
  {
    LeftJoinAppend([row], rest, from, local, foreign, into);
    LeftJoinSingle(row, from, local, foreign, into);
    var head := LeftJoin([row], from, local, foreign, into);
    var tail := LeftJoin(rest, from, local, foreign, into);
    var out := head + tail;
    forall i | 0 <= i < 1 + |rest| ensures out[i] - {into} == ([row] + rest)[i] - {into} {
      if i > 0 {
        assert out[i] == tail[i - 1];
        assert ([row] + rest)[i] == rest[i - 1];
      }
    }
  }

  /**
   * When the foreign key is unique the left join is one-to-one: it keeps
   * the row count and changes nothing but the join field, row by row.
   */
  lemma {:induction false} LeftJoinUnique(rows: seq<Row>, from: seq<Row>, local: seq<string>, foreign: string, into: string)
    requires local != []
    requires AtMostOneMatch(rows, from, local, foreign)
    ensures |LeftJoin(rows, from, local, foreign, into)| == |rows|
    ensures forall i :: 0 <= i < |rows| ==> LeftJoin(rows, from, local, foreign, into)[i] - {into} == rows[i] - {into}
  {
    if rows != [] {
      var row, rest := rows[0], rows[1..];
      assert rows == [row] + rest;
      assert AtMostOneMatch(rest, from, local, foreign) by {
        forall i | 0 <= i < |rest| ensures |Joined(rest[i], from, local, foreign)| <= 1 {
          assert rest[i] == rows[i + 1];
        }
      }
      LeftJoinUnique(rest, from, local, foreign, into);
      LeftJoinUniqueCons(row, rest, from, local, foreign, into);
    } else {
      assert LeftJoin(rows, from, local, foreign, into) == Unwind([], into);
    }
  }

  // -------------------------------------------------------------- $project

  type Positive = n: int | n >= 1 witness 1

  /** The right-hand side of one `$project` entry. */
  datatype ProjExpr =
    | Include                                             // key: 1
    | Exclude                                             // key: 0
    | Ref(path: seq<string>)                              // key: "$a.b"
    | Product(left: seq<string>, right: seq<string>)      // key: {$multiply: ["$a", "$b"]}
    | Slice(array: seq<string>, position: int, count: Positive)  // key: {$slice: ["$a", pos, n]}

  type ProjSpec = seq<(string, ProjExpr)>

  /**
   * `$slice: [xs, position, count]`: count elements from position; a
   * negative position counts back from the end (clamped at the start).
   */
  function SliceSeq<T>(xs: seq<T>, position: int, count: Positive): (r: seq<T>)
    ensures |r| <= count
    ensures position >= 0 ==> |r| == (if position >= |xs| then 0
                                      else if |xs| - position < count then |xs| - position
                                      else count)
    ensures position >= 0 ==> forall k :: 0 <= k < |r| ==> r[k] == xs[position + k]
  {
    var start := if position >= 0 then (if position < |xs| then position else |xs|)
                 else (if |xs| + position > 0 then |xs| + position else 0);
    var end := if start + count < |xs| then start + count else |xs|;
    xs[start..end]
  }

  /** The value a projection entry produces for a document, None to omit it. */
  function Eval(row: Row, key: string, e: ProjExpr): Option<Value>
  {
    match e
    case Include => if key in row then Some(row[key]) else None
    case Exclude => None
    case Ref(p) => if p == [] then None else Get(row, p)
    case Product(a, b) =>
      if a == [] || b == [] then Some(Null)
      else (match (Get(row, a), Get(row, b))
        case (Some(Num(x)), Some(Num(y))) => Some(Num(x * y))
        case _ => Some(Null))
    case Slice(p, pos, n) =>
      if p == [] then Some(Null)
      else (match Get(row, p)
        case Some(Arr(xs)) => Some(Arr(SliceSeq(xs, pos, n)))
        case _ => Some(Null))
  }

  predicate DistinctSpec<E>(spec: seq<(string, E)>)
  {
    forall i, j :: 0 <= i < j < |spec| ==> spec[i].0 != spec[j].0
  }

  /** The fields a projection computes (every key other than a kept `_id`). */
  function Computed(row: Row, spec: ProjSpec): (r: Row)
    ensures forall k :: k in r ==> exists i :: 0 <= i < |spec| && spec[i].0 == k
    decreases |spec|
  {
    if spec == [] then map[]
    else
      var rest := Computed(row, spec[1..]);
      match Eval(row, spec[0].0, spec[0].1)
      case Some(v) => rest[spec[0].0 := v]
      case None => rest
  }

  lemma {:induction false} ComputedAt(row: Row, spec: ProjSpec, i: nat)
    requires DistinctSpec(spec)
    requires i < |spec|
    ensures spec[i].0 in Computed(row, spec) <==> Eval(row, spec[i].0, spec[i].1).Some?
    ensures spec[i].0 in Computed(row, spec) ==> Computed(row, spec)[spec[i].0] == Eval(row, spec[i].0, spec[i].1).value
    decreases |spec|
  {
    if i > 0 {
      assert DistinctSpec(spec[1..]) by {
        forall a, b | 0 <= a < b < |spec[1..]| ensures spec[1..][a].0 != spec[1..][b].0 {
          assert spec[1..][a] == spec[a + 1] && spec[1..][b] == spec[b + 1];
        }
      }
      assert spec[1..][i - 1] == spec[i];
      ComputedAt(row, spec[1..], i - 1);
    }
  }

  /**
   * `{$project: spec}` on one document: `_id` passes through unless the spec
   * excludes it; every other output key is a spec key whose entry yields a value.
   */
  function Project(row: Row, spec: ProjSpec): (r: Row)
    ensures forall k :: k in r ==> k == "_id" || exists i :: 0 <= i < |spec| && spec[i].0 == k
  {
    var id: Row := if "_id" in row && ("_id", Exclude) !in spec then map["_id" := row["_id"]] else map[];
    id + Computed(row, spec)
  }

  /** One spec entry's effect on the projected document. */
  lemma ProjectAt(row: Row, spec: ProjSpec, i: nat)
    requires DistinctSpec(spec)
    requires i < |spec|
    ensures spec[i].0 in Project(row, spec) <==>
      Eval(row, spec[i].0, spec[i].1).Some? || (spec[i].0 == "_id" && "_id" in row && ("_id", Exclude) !in spec)
    ensures Eval(row, spec[i].0, spec[i].1).Some? ==> Project(row, spec)[spec[i].0] == Eval(row, spec[i].0, spec[i].1).value
  {
    ComputedAt(row, spec, i);
  }

  /** An entry `k: "$p"` copies the value at path p, when there is one. */
  lemma ProjectRef(row: Row, spec: ProjSpec, i: nat, k: string, p: seq<string>)
    requires DistinctSpec(spec)
    requires i < |spec| && spec[i] == (k, Ref(p))
    requires p != [] && k != "_id"
    ensures k in Project(row, spec) <==> Get(row, p).Some?
    ensures k in Project(row, spec) ==> Project(row, spec)[k] == Get(row, p).value
  {
    ProjectAt(row, spec, i);
  }

  /** A field the spec does not name is not in the projection (other than `_id`). */
  lemma NotProjected(row: Row, spec: ProjSpec, k: string)
    requires k != "_id"
    requires forall j :: 0 <= j < |spec| ==> spec[j].0 != k
    ensures k !in Project(row, spec)
  {
  }

  function ProjectAll(rows: seq<Row>, spec: ProjSpec): (r: seq<Row>)
    ensures |r| == |rows|
    ensures forall i :: 0 <= i < |rows| ==> r[i] == Project(rows[i], spec)
  {
    seq(|rows|, i requires 0 <= i < |rows| => Project(rows[i], spec))
  }

  // ---------------------------------------------------------------- $group

  /** One field of a `$group` `_id` document: a field reference or a constant. */
  datatype KeyExpr = Field(path: seq<string>) | Literal(v: Value)

  type KeySpec = seq<(string, KeyExpr)>

  /** The `_id` document of a row; a reference to a missing field is omitted. */
  function KeyFields(row: Row, spec: KeySpec): Row
    decreases |spec|
  {
    if spec == [] then map[]
    else
      var rest := KeyFields(row, spec[1..]);
      match spec[0].1
      case Literal(v) => rest[spec[0].0 := v]
      case Field(p) =>
        if p == [] then rest
        else match Get(row, p)
          case Some(v) => rest[spec[0].0 := v]
          case None => rest
  }

  function GroupKey(row: Row, spec: KeySpec): Value
  {
    Doc(KeyFields(row, spec))
  }

  /** A bucket of the grouping: its key and its members in arrival order. */
  datatype Group = Group(key: Value, members: seq<Row>)

  /** Adds one row to the bucket of its key, opening a new bucket at the end if needed. */
  function AddTo(gs: seq<Group>, key: Value, row: Row): (r: seq<Group>)
    ensures |r| == |gs| || |r| == |gs| + 1
    ensures |r| >= 1
  {
    if gs == [] then [Group(key, [row])]
    else if gs[0].key == key then [Group(key, gs[0].members + [row])] + gs[1..]
    else [gs[0]] + AddTo(gs[1..], key, row)
  }

  /** The buckets of `{$group: {_id: spec, ...}}`, in order of first appearance. */
  function GroupBy(rows: seq<Row>, spec: KeySpec): seq<Group>
    decreases |rows|
  {
    if rows == [] then []
    else
      var n := |rows| - 1;
      AddTo(GroupBy(rows[..n], spec), GroupKey(rows[n], spec), rows[n])
  }

  /** When every row has the same key, grouping yields the single bucket of all rows. */
  lemma {:induction false} GroupByConstant(rows: seq<Row>, spec: KeySpec, key: Value)
    requires forall r :: r in rows ==> GroupKey(r, spec) == key
    ensures rows == [] ==> GroupBy(rows, spec) == []
    ensures rows != [] ==> GroupBy(rows, spec) == [Group(key, rows)]
    decreases |rows|
  {
    if rows != [] {
      var n := |rows| - 1;
      assert rows[n] in rows;
      if n == 0 {
        assert rows == [rows[0]];
        assert GroupBy(rows[..n], spec) == [];
      } else {
        forall r | r in rows[..n] ensures GroupKey(r, spec) == key {
          assert r in rows;
        }
        GroupByConstant(rows[..n], spec, key);
        assert rows[..n] + [rows[n]] == rows;
      }
    }
  }

  /** Reference definition of a bucket: the rows with that key, in input order. */
  function Select(rows: seq<Row>, spec: KeySpec, key: Value): seq<Row>
    decreases |rows|
  {
    if rows == [] then []
    else
      var n := |rows| - 1;
      Select(rows[..n], spec, key) + (if GroupKey(rows[n], spec) == key then [rows[n]] else [])
  }

  lemma {:induction false} SelectMembers(rows: seq<Row>, spec: KeySpec, key: Value)
    ensures forall r :: r in Select(rows, spec, key) <==> r in rows && GroupKey(r, spec) == key
    decreases |rows|
  {
    if rows != [] {
      var n := |rows| - 1;
      SelectMembers(rows[..n], spec, key);
      assert rows == rows[..n] + [rows[n]];
    }
  }

  function KeysOf(gs: seq<Group>): set<Value>
  {
    if gs == [] then {} else {gs[0].key} + KeysOf(gs[1..])
  }

  lemma {:induction false} KeysOfIndex(gs: seq<Group>, k: Value)
    ensures k in KeysOf(gs) <==> exists i :: 0 <= i < |gs| && gs[i].key == k
  {
    if gs != [] {
      KeysOfIndex(gs[1..], k);
      if exists i :: 0 <= i < |gs| && gs[i].key == k {
        var i :| 0 <= i < |gs| && gs[i].key == k;
        if i > 0 {
          assert gs[1..][i - 1].key == k;
        }
      }
      if exists i :: 0 <= i < |gs[1..]| && gs[1..][i].key == k {
        var i :| 0 <= i < |gs[1..]| && gs[1..][i].key == k;
        assert gs[i + 1].key == k;
      }
    }
  }

  /** The buckets have pairwise distinct keys. */
  predicate Distinct(gs: seq<Group>)
  {
    gs == [] || (gs[0].key !in KeysOf(gs[1..]) && Distinct(gs[1..]))
  }

  /** Distinct keys, stated index by index. */
  lemma {:induction false} DistinctIndices(gs: seq<Group>, i: nat, j: nat)
    requires Distinct(gs)
    requires i < |gs| && j < |gs| && gs[i].key == gs[j].key
    ensures i == j
  {
    if i > 0 && j > 0 {
      assert gs[1..][i - 1] == gs[i] && gs[1..][j - 1] == gs[j];
      DistinctIndices(gs[1..], i - 1, j - 1);
    } else if i > 0 {
      KeysOfIndex(gs[1..], gs[0].key);
    } else if j > 0 {
      KeysOfIndex(gs[1..], gs[0].key);
    }
  }

  /** The members of the bucket with a given key, empty if there is none. */
  function MembersOf(gs: seq<Group>, key: Value): seq<Row>
  {
    if gs == [] then [] else if gs[0].key == key then gs[0].members else MembersOf(gs[1..], key)
  }

  lemma {:induction false} MembersAt(gs: seq<Group>, i: nat)
    requires Distinct(gs)
    requires i < |gs|
    ensures MembersOf(gs, gs[i].key) == gs[i].members
  {
    if i > 0 {
      assert gs[1..][i - 1] == gs[i];
      KeysOfIndex(gs[1..], gs[i].key);
      MembersAt(gs[1..], i - 1);
    }
  }

  lemma {:induction false} AddToKeys(gs: seq<Group>, key: Value, row: Row)
    ensures KeysOf(AddTo(gs, key, row)) == KeysOf(gs) + {key}
    ensures Distinct(gs) ==> Distinct(AddTo(gs, key, row))
  {
    if gs == [] {
      assert AddTo(gs, key, row)[1..] == [];
    } else if gs[0].key == key {
      assert AddTo(gs, key, row)[1..] == gs[1..];
    } else {
      AddToKeys(gs[1..], key, row);
      assert AddTo(gs, key, row)[1..] == AddTo(gs[1..], key, row);
    }
  }

  /** Adding a row extends exactly the bucket of its key. */
  lemma {:induction false} AddToMembers(gs: seq<Group>, key: Value, row: Row, k: Value)
    ensures MembersOf(AddTo(gs, key, row), k) == MembersOf(gs, k) + (if k == key then [row] else [])
  {
    if gs == [] {
      assert AddTo(gs, key, row)[1..] == [];
    } else if gs[0].key == key {
      assert AddTo(gs, key, row)[1..] == gs[1..];
    } else {
      AddToMembers(gs[1..], key, row, k);
      assert AddTo(gs, key, row)[1..] == AddTo(gs[1..], key, row);
    }
  }

  /** The keys met in the input, from the same end as the grouping. */
  function RowKeys(rows: seq<Row>, spec: KeySpec): set<Value>
    decreases |rows|
  {
    if rows == [] then {} else RowKeys(rows[..|rows| - 1], spec) + {GroupKey(rows[|rows| - 1], spec)}
  }

  lemma {:induction false} RowKeysMembers(rows: seq<Row>, spec: KeySpec, k: Value)
    ensures k in RowKeys(rows, spec) <==> exists r :: r in rows && GroupKey(r, spec) == k
    decreases |rows|
  {
    if rows != [] {
      var n := |rows| - 1;
      RowKeysMembers(rows[..n], spec, k);
      assert rows == rows[..n] + [rows[n]];
    }
  }

  /**
   * The grouping as built incrementally agrees with the reference
   * definition: distinct keys, one bucket per key present in the input, and
   * under each key exactly the rows of that key in input order.
   */
  lemma {:induction false} GroupByCorrect(rows: seq<Row>, spec: KeySpec)
    ensures Distinct(GroupBy(rows, spec))
    ensures KeysOf(GroupBy(rows, spec)) == RowKeys(rows, spec)
    ensures forall k :: MembersOf(GroupBy(rows, spec), k) == Select(rows, spec, k)
    decreases |rows|
  {
    if rows != [] {
      var n := |rows| - 1;
      var prev := GroupBy(rows[..n], spec);
      GroupByCorrect(rows[..n], spec);
      AddToKeys(prev, GroupKey(rows[n], spec), rows[n]);
      forall k ensures MembersOf(GroupBy(rows, spec), k) == Select(rows, spec, k) {
        AddToMembers(prev, GroupKey(rows[n], spec), rows[n], k);
      }
    }
  }

  /**
   * Bucket by bucket: every bucket holds exactly the input rows of its key,
   * in input order, and is never empty.
   */
  lemma GroupBuckets(rows: seq<Row>, spec: KeySpec, i: nat)
    requires i < |GroupBy(rows, spec)|
    ensures GroupBy(rows, spec)[i].members == Select(rows, spec, GroupBy(rows, spec)[i].key)
    ensures GroupBy(rows, spec)[i].members != []
  {
    var gs := GroupBy(rows, spec);
    GroupByCorrect(rows, spec);
    MembersAt(gs, i);
    KeysOfIndex(gs, gs[i].key);
    RowKeysMembers(rows, spec, gs[i].key);
    var r :| r in rows && GroupKey(r, spec) == gs[i].key;
    SelectMembers(rows, spec, gs[i].key);
    assert r in gs[i].members;
  }

  /** Every input row lands in exactly one bucket. */
  lemma GroupPartition(rows: seq<Row>, spec: KeySpec, r: Row)
    requires r in rows
    ensures var gs := GroupBy(rows, spec);
      exists i :: 0 <= i < |gs| && r in gs[i].members
        && forall j :: 0 <= j < |gs| && r in gs[j].members ==> j == i
  {
    var gs := GroupBy(rows, spec);
    GroupByCorrect(rows, spec);
    RowKeysMembers(rows, spec, GroupKey(r, spec));
    KeysOfIndex(gs, GroupKey(r, spec));
    var i :| 0 <= i < |gs| && gs[i].key == GroupKey(r, spec);
    GroupBuckets(rows, spec, i);
    SelectMembers(rows, spec, gs[i].key);
    forall j | 0 <= j < |gs| && r in gs[j].members ensures j == i {
      GroupBuckets(rows, spec, j);
      SelectMembers(rows, spec, gs[j].key);
      DistinctIndices(gs, i, j);
    }
  }

  function Sizes(gs: seq<Group>): nat
  {
    if gs == [] then 0 else |gs[0].members| + Sizes(gs[1..])
  }

  lemma {:induction false} AddToSizes(gs: seq<Group>, key: Value, row: Row)
    ensures Sizes(AddTo(gs, key, row)) == Sizes(gs) + 1
  {
    if gs != [] && gs[0].key != key {
      AddToSizes(gs[1..], key, row);
      assert AddTo(gs, key, row)[1..] == AddTo(gs[1..], key, row);
    } else if gs != [] {
      assert AddTo(gs, key, row)[1..] == gs[1..];
    }
  }

  /** The bucket sizes add up to the number of input rows. */
  lemma {:induction false} GroupBySizes(rows: seq<Row>, spec: KeySpec)
    ensures Sizes(GroupBy(rows, spec)) == |rows|
    decreases |rows|
  {
    if rows != [] {
      var n := |rows| - 1;
      GroupBySizes(rows[..n], spec);
      AddToSizes(GroupBy(rows[..n], spec), GroupKey(rows[n], spec), rows[n]);
    }
  }

  /** The numeric contribution of a field to `$sum`: non-numbers and missing count 0. */
  function Amount(row: Row, path: seq<string>): real
  {
    if path == [] then 0.0
    else match Get(row, path)
      case Some(Num(x)) => x
      case _ => 0.0
  }

  function SumOf(rows: seq<Row>, path: seq<string>): real
    decreases |rows|
  {
    if rows == [] then 0.0 else SumOf(rows[..|rows| - 1], path) + Amount(rows[|rows| - 1], path)
  }

  function Totals(gs: seq<Group>, path: seq<string>): real
  {
    if gs == [] then 0.0 else SumOf(gs[0].members, path) + Totals(gs[1..], path)
  }

  lemma {:induction false} AddToTotals(gs: seq<Group>, key: Value, row: Row, path: seq<string>)
    ensures Totals(AddTo(gs, key, row), path) == Totals(gs, path) + Amount(row, path)
  {
    if gs != [] && gs[0].key != key {
      AddToTotals(gs[1..], key, row, path);
      assert AddTo(gs, key, row)[1..] == AddTo(gs[1..], key, row);
    } else if gs != [] {
      var m := gs[0].members + [row];
      assert m[..|m| - 1] == gs[0].members;
      assert AddTo(gs, key, row)[1..] == gs[1..];
    } else {
      assert [row][..0] == [];
      assert SumOf([row], path) == Amount(row, path);
      assert AddTo(gs, key, row) == [Group(key, [row])];
      assert [Group(key, [row])][1..] == [];
    }
  }

  /** The per-bucket `$sum`s of a field add up to its sum over all input rows. */
  lemma {:induction false} GroupByTotals(rows: seq<Row>, spec: KeySpec, path: seq<string>)
    ensures Totals(GroupBy(rows, spec), path) == SumOf(rows, path)
    decreases |rows|
  {
    if rows != [] {
      var n := |rows| - 1;
      GroupByTotals(rows[..n], spec, path);
      AddToTotals(GroupBy(rows[..n], spec), GroupKey(rows[n], spec), rows[n], path);
    }
  }

  /** No input, no buckets; some input, some bucket. */
  lemma GroupByEmpty(rows: seq<Row>, spec: KeySpec)
    ensures GroupBy(rows, spec) == [] <==> rows == []
  {
  }

  lemma {:induction false} SumOfFront(rows: seq<Row>, path: seq<string>)
    requires rows != []
    ensures SumOf(rows, path) == Amount(rows[0], path) + SumOf(rows[1..], path)
    decreases |rows|
  {
    var n := |rows| - 1;
    if n > 0 {
      SumOfFront(rows[..n], path);
      assert rows[..n][1..] == rows[1..][..n - 1];
      assert rows[..n][0] == rows[0];
      assert rows[1..][n - 1] == rows[n];
    } else {
      assert rows[..n] == [] && rows[1..] == [];
    }
  }

  /** Rows that agree field by field on their contributions have equal sums. */
  lemma {:induction false} SumOfPointwise(a: seq<Row>, pa: seq<string>, b: seq<Row>, pb: seq<string>)
    requires |a| == |b|
    requires forall i :: 0 <= i < |a| ==> Amount(a[i], pa) == Amount(b[i], pb)
    ensures SumOf(a, pa) == SumOf(b, pb)
    decreases |a|
  {
    if a != [] {
      var n := |a| - 1;
      SumOfPointwise(a[..n], pa, b[..n], pb);
    }
  }

  lemma {:induction false} SumOfZero(rows: seq<Row>, path: seq<string>)
    requires forall r :: r in rows ==> Amount(r, path) == 0.0
    ensures SumOf(rows, path) == 0.0
    decreases |rows|
  {
    if rows != [] {
      var n := |rows| - 1;
      assert rows[n] in rows;
      SumOfZero(rows[..n], path);
    }
  }

  /** A column holding each bucket's size sums to the total of the sizes. */
  lemma {:induction false} ColumnOfSizes(out: seq<Row>, key: string, gs: seq<Group>)
    requires |out| == |gs|
    requires forall i :: 0 <= i < |out| ==> Amount(out[i], [key]) == |gs[i].members| as real
    ensures SumOf(out, [key]) == Sizes(gs) as real
  {
    if out != [] {
      SumOfFront(out, [key]);
      ColumnOfSizes(out[1..], key, gs[1..]);
    }
  }

  /** A column holding each bucket's sum of a field adds up to the sum over all buckets. */
  lemma {:induction false} ColumnOfTotals(out: seq<Row>, key: string, gs: seq<Group>, path: seq<string>)
    requires |out| == |gs|
    requires forall i :: 0 <= i < |out| ==> Amount(out[i], [key]) == SumOf(gs[i].members, path)
    ensures SumOf(out, [key]) == Totals(gs, path)
  {
    if out != [] {
      SumOfFront(out, [key]);
      ColumnOfTotals(out[1..], key, gs[1..], path);
    }
  }

  /** A column holding each bucket's sum adds up to the sum over all grouped rows. */
  lemma BucketColumnTotal(out: seq<Row>, key: string, rows: seq<Row>, spec: KeySpec, path: seq<string>)
    requires |out| == |GroupBy(rows, spec)|
    requires forall i :: 0 <= i < |out| ==> Amount(out[i], [key]) == SumOf(GroupBy(rows, spec)[i].members, path)
    ensures SumOf(out, [key]) == SumOf(rows, path)
  {
    ColumnOfTotals(out, key, GroupBy(rows, spec), path);
    GroupByTotals(rows, spec, path);
  }

  /** A column holding each bucket's size adds up to the number of grouped rows. */
  lemma BucketColumnCount(out: seq<Row>, key: string, rows: seq<Row>, spec: KeySpec)
    requires |out| == |GroupBy(rows, spec)|
    requires forall i :: 0 <= i < |out| ==> Amount(out[i], [key]) == |GroupBy(rows, spec)[i].members| as real
    ensures SumOf(out, [key]) == |rows| as real
  {
    ColumnOfSizes(out, key, GroupBy(rows, spec));
    GroupBySizes(rows, spec);
  }

  /** The accumulator of one output field of `$group`. */
  datatype Accumulator =
    | Sum(path: seq<string>)   // {$sum: "$a"}
    | CountOne                 // {$sum: 1}
    | PushRoot                 // {$push: "$$ROOT"}

  type AccSpec = seq<(string, Accumulator)>

  function AccValue(g: Group, acc: Accumulator): Value
  {
    match acc
    case Sum(p) => Num(SumOf(g.members, p))
    case CountOne => Num(|g.members| as real)
    case PushRoot => Arr(Docs(g.members))
  }

  function Accumulated(g: Group, accs: AccSpec): (r: Row)
    ensures "_id" in r
    ensures forall k :: k in r ==> k == "_id" || exists i :: 0 <= i < |accs| && accs[i].0 == k
    decreases |accs|
  {
    if accs == [] then map["_id" := g.key]
    else Accumulated(g, accs[1..])[accs[0].0 := AccValue(g, accs[0].1)]
  }

  lemma {:induction false} AccumulatedAt(g: Group, accs: AccSpec, i: nat)
    requires DistinctSpec(accs)
    requires i < |accs|
    ensures accs[i].0 in Accumulated(g, accs)
    ensures Accumulated(g, accs)[accs[i].0] == AccValue(g, accs[i].1)
    decreases |accs|
  {
    if i > 0 {
      assert DistinctSpec(accs[1..]) by {
        forall a, b | 0 <= a < b < |accs[1..]| ensures accs[1..][a].0 != accs[1..][b].0 {
          assert accs[1..][a] == accs[a + 1] && accs[1..][b] == accs[b + 1];
        }
      }
      assert accs[1..][i - 1] == accs[i];
      AccumulatedAt(g, accs[1..], i - 1);
    }
  }

  lemma AccumulatedId(g: Group, accs: AccSpec)
    requires forall i :: 0 <= i < |accs| ==> accs[i].0 != "_id"
    ensures Accumulated(g, accs)["_id"] == g.key
    decreases |accs|
  {
    if accs != [] {
      AccumulatedId(g, accs[1..]);
    }
  }

  /** `{$group: {_id: keys, <accumulators>}}`: one output document per bucket. */
  function GroupStage(rows: seq<Row>, keys: KeySpec, accs: AccSpec): (r: seq<Row>)
    ensures |r| == |GroupBy(rows, keys)|
    ensures forall i :: 0 <= i < |r| ==> r[i] == Accumulated(GroupBy(rows, keys)[i], accs)
  {
    var gs := GroupBy(rows, keys);
    seq(|gs|, i requires 0 <= i < |gs| => Accumulated(gs[i], accs))
  }
}
