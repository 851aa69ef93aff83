/**
 * The listing endpoints' shared parts: the paging parameters read from the
 * query string, and the one-bucket aggregation that counts the documents
 * and slices out a page of them.
 */
module Paging {
  import opened Wrappers
  import opened Documents
  import opened Aggregation

  const DefaultRecordPerPage: Positive := 10

  /**
   * The paging locals of GetFoods and GetUsers. Each query value arrives
   * parsed (None when absent or not an integer, where strconv.Atoi yields 0
   * and an error). recordPerPage and page fall back to 10 and 1 when
   * unparseable or below 1; startIndex is first computed from the page, then
   * overwritten by the parsed startIndex parameter.
   */
  method ListingParams(recordPerPageQuery: Option<int>, pageQuery: Option<int>, startIndexQuery: Option<int>)
    returns (recordPerPage: Positive, page: int, startIndex: int)
    ensures recordPerPageQuery.Some? && recordPerPageQuery.value >= 1 ==> recordPerPage == recordPerPageQuery.value
    ensures recordPerPageQuery.None? || recordPerPageQuery.value < 1 ==> recordPerPage == DefaultRecordPerPage
    ensures pageQuery.Some? && pageQuery.value >= 1 ==> page == pageQuery.value
    ensures pageQuery.None? || pageQuery.value < 1 ==> page == 1
    ensures page >= 1
    ensures startIndexQuery.Some? ==> startIndex == startIndexQuery.value
    ensures startIndexQuery.None? ==> startIndex == 0
  {
    var rpp := if recordPerPageQuery.Some? then recordPerPageQuery.value else 0;
    var err := recordPerPageQuery.None?;
    if err || rpp < 1 {
      rpp := DefaultRecordPerPage;
    }
    recordPerPage := rpp;
    page := if pageQuery.Some? then pageQuery.value else 0;
    var err2 := pageQuery.None?;
    if err2 || page < 1 {
      page := 1;
    }
    startIndex := (page - 1) * recordPerPage;
    startIndex := if startIndexQuery.Some? then startIndexQuery.value else 0;
  }

  /** `{$group: {_id: {_id: "null"}, ...}}`: one key for every document. */
  const ListingKey: KeySpec := [("_id", Literal(Str("null")))]

  const ListingAccumulators: AccSpec := [("total_count", CountOne), ("data", PushRoot)]

  /** `{$project: {_id: 0, total_count: 1, <items>: {$slice: ["$data", startIndex, recordPerPage]}}}`. */
  function ListingProjection(items: string, startIndex: int, recordPerPage: Positive): ProjSpec
  {
    [("_id", Exclude), ("total_count", Include), (items, Slice(["data"], startIndex, recordPerPage))]
  }

  /** The `$match: {"": null}` stage: every document lacking a field named "". */
  function MatchAll(rows: seq<Row>): seq<Row>
  {
    Match(rows, "", Null)
  }

  /** Stored documents have no field named "", so the match stage keeps them all. */
  lemma MatchAllKeeps(rows: seq<Row>)
    requires forall d :: d in rows ==> "" !in d
    ensures MatchAll(rows) == rows
  {
    MatchAbsent(rows, "");
  }

  /** The listing aggregation: match, one-bucket group, then count and slice. */
  function Listing(rows: seq<Row>, items: string, startIndex: int, recordPerPage: Positive): seq<Row>
  {
    ProjectAll(GroupStage(MatchAll(rows), ListingKey, ListingAccumulators), ListingProjection(items, startIndex, recordPerPage))
  }

  /** The single listing document: the document count and the page of documents. */
  function Page(rows: seq<Row>, items: string, startIndex: int, recordPerPage: Positive): Row
  {
    map["total_count" := Num(|rows| as real), items := Arr(SliceSeq(Docs(rows), startIndex, recordPerPage))]
  }

  /** The one bucket's accumulated document. */
  function Bucket(rows: seq<Row>): Row
  {
    map["_id" := Doc(map["_id" := Str("null")]), "data" := Arr(Docs(rows)), "total_count" := Num(|rows| as real)]
  }

  /** Grouping any documents under the literal key gives one bucket holding them all. */
  lemma ListingGroup(rows: seq<Row>)
    ensures rows == [] ==> GroupStage(rows, ListingKey, ListingAccumulators) == []
    ensures rows != [] ==> GroupStage(rows, ListingKey, ListingAccumulators) == [Bucket(rows)]
  {
    var key := Doc(map["_id" := Str("null")]);
    forall r | r in rows ensures GroupKey(r, ListingKey) == key {
      assert KeyFields(r, ListingKey) == map["_id" := Str("null")];
    }
    GroupByConstant(rows, ListingKey, key);
    if rows != [] {
      var g := Group(key, rows);
      assert ListingAccumulators[1..] == [("data", PushRoot)];
      assert Accumulated(g, ListingAccumulators[1..]) == map["_id" := key, "data" := Arr(Docs(rows))];
      assert Accumulated(g, ListingAccumulators) == Bucket(rows);
    }
  }

  /** The final projection of the bucket is the page. */
  lemma ListingPage(rows: seq<Row>, items: string, startIndex: int, recordPerPage: Positive)
    requires items !in {"_id", "total_count"}
    ensures Project(Bucket(rows), ListingProjection(items, startIndex, recordPerPage)) == Page(rows, items, startIndex, recordPerPage)
  {
    var acc := Bucket(rows);
    var spec := ListingProjection(items, startIndex, recordPerPage);
    var slice := Arr(SliceSeq(Docs(rows), startIndex, recordPerPage));
    assert Get(acc, ["data"]) == Some(Arr(Docs(rows)));
    assert Eval(acc, items, spec[2].1) == Some(slice);
    assert spec[2..] == [spec[2]] && spec[2..][1..] == [];
    assert Computed(acc, spec[2..]) == map[items := slice];
    assert spec[1..][1..] == spec[2..];
    assert Computed(acc, spec[1..]) == map[items := slice, "total_count" := Num(|rows| as real)];
    assert Computed(acc, spec) == Computed(acc, spec[1..]);
    assert ("_id", Exclude) in spec;
  }

  /**
   * The listing yields nothing over no documents, and otherwise exactly one
   * document: the count of matched documents and the requested page of them.
   */
  lemma ListingShape(rows: seq<Row>, items: string, startIndex: int, recordPerPage: Positive)
    requires items !in {"_id", "total_count"}
    ensures var m := MatchAll(rows);
      && (m == [] <==> Listing(rows, items, startIndex, recordPerPage) == [])
      && (m != [] ==> Listing(rows, items, startIndex, recordPerPage) == [Page(m, items, startIndex, recordPerPage)])
  {
    var m := MatchAll(rows);
    ListingGroup(m);
    if m != [] {
      ListingPage(m, items, startIndex, recordPerPage);
    }
  }
}
