/**
 * The document store the handlers talk to: seven named collections held by
 * one mutable `Store`, the single-document reads they issue, and the three
 * writes (InsertOne, InsertMany, UpdateOne with upsert).  Driver errors,
 * cursors and timeouts are not modelled; a call either succeeds or, for
 * FindOne, reports that nothing matched.
 */
module Database {
  import opened Wrappers
  import opened ObjectIds
  import opened Documents

  datatype Collection = FoodColl | MenuColl | TableColl | OrderColl | OrderItemColl | InvoiceColl | UserColl

  /** The name each collection is opened under. */
  function Name(c: Collection): string
  {
    match c
    case FoodColl => "food"
    case MenuColl => "menu"
    case TableColl => "table"
    case OrderColl => "order"
    case OrderItemColl => "orderItem"
    case InvoiceColl => "invoice"
    case UserColl => "user"
  }

  /** A snapshot of every collection. */
  datatype DbState = DbState(
    food: seq<Row>, menu: seq<Row>, table: seq<Row>, order: seq<Row>,
    orderItem: seq<Row>, invoice: seq<Row>, user: seq<Row>)
  {
    function Rows(c: Collection): seq<Row>
    {
      match c
      case FoodColl => food
      case MenuColl => menu
      case TableColl => table
      case OrderColl => order
      case OrderItemColl => orderItem
      case InvoiceColl => invoice
      case UserColl => user
    }

    /** The same snapshot with one collection replaced. */
    function With(c: Collection, rows: seq<Row>): (s: DbState)
      ensures s.Rows(c) == rows
      ensures forall d :: d != c ==> s.Rows(d) == Rows(d)
    {
      match c
      case FoodColl => this.(food := rows)
      case MenuColl => this.(menu := rows)
      case TableColl => this.(table := rows)
      case OrderColl => this.(order := rows)
      case OrderItemColl => this.(orderItem := rows)
      case InvoiceColl => this.(invoice := rows)
      case UserColl => this.(user := rows)
    }

    /** FindOne(filter {key: v}): the first matching document, if any. */
    function FindOne(c: Collection, key: string, v: Value): (r: Option<Row>)
      ensures r.Some? <==> exists i :: 0 <= i < |Rows(c)| && FieldEquals(Rows(c)[i], key, v)
      ensures r.Some? ==> r.value in Rows(c) && FieldEquals(r.value, key, v)
      ensures r.Some? <==> FindFirst(Rows(c), key, v).Some?
    {
      match FindFirst(Rows(c), key, v)
      case Some(i) => Some(Rows(c)[i])
      case None => None
    }

    /** CountDocuments(filter {key: v}). */
    function Count(c: Collection, key: string, v: Value): (n: nat)
      ensures n > 0 <==> FindOne(c, key, v).Some?
    {
      CountMatching(Rows(c), key, v)
    }

    /** The state after an UpdateOne call with upsert. */
    function Apply(u: Update): (s: DbState)
      ensures s.Rows(u.target) == UpsertOne(Rows(u.target), u.key, u.value, u.patch)
      ensures forall d :: d != u.target ==> s.Rows(d) == Rows(d)
    {
      With(u.target, UpsertOne(Rows(u.target), u.key, u.value, u.patch))
    }
  }

  /** UpdateOne(filter {key: value}, {$set: patch}, upsert: true) on a collection. */
  datatype Update = Update(target: Collection, key: string, value: Value, patch: Patch)

  /** What a handler sends back. */
  datatype Response =
    | Ok(body: Value)             // 200 with a JSON body
    | BadRequest(error: string)   // 400 {"error": ...}
    | ServerError(error: string)  // 500 {"error": ...}
    | Crash                       // a panic or log.Fatal ends the request
    | NoResponse                  // the handler returns without writing

  /** InsertOneResult. */
  function InsertedBody(id: ObjectId): Value
  {
    Doc(map["InsertedID" := Oid(id)])
  }

  /** InsertManyResult. */
  function InsertedManyBody(ids: seq<ObjectId>): (v: Value)
    ensures v.Doc? && "InsertedIDs" in v.fields && v.fields["InsertedIDs"].Arr?
    ensures |v.fields["InsertedIDs"].elems| == |ids|
  {
    Doc(map["InsertedIDs" := Arr(seq(|ids|, i requires 0 <= i < |ids| => Oid(ids[i])))])
  }

  /**
   * UpdateResult: whether an existing document matched, whether the patch
   * changed it, or whether one was upserted.
   */
  function UpdatedBody(s: DbState, u: Update): (v: Value)
    ensures v.Doc? && v.fields.Keys == {"MatchedCount", "ModifiedCount", "UpsertedCount"}
    ensures v.fields["MatchedCount"] == Num(1.0) <==> FindFirst(s.Rows(u.target), u.key, u.value).Some?
    ensures v.fields["UpsertedCount"] == Num(1.0) <==> FindFirst(s.Rows(u.target), u.key, u.value).None?
    ensures v.fields["ModifiedCount"] == Num(1.0) ==> v.fields["MatchedCount"] == Num(1.0)
  {
    var found := FindFirst(s.Rows(u.target), u.key, u.value);
    var matched := found.Some?;
    var modified := matched && SetFields(s.Rows(u.target)[found.value], u.patch) != s.Rows(u.target)[found.value];
    Doc(map["MatchedCount" := Num(if matched then 1.0 else 0.0),
            "ModifiedCount" := Num(if modified then 1.0 else 0.0),
            "UpsertedCount" := Num(if matched then 0.0 else 1.0)])
  }

  /**
   * An UpdateOne with upsert whose filter matches patches the matched
   * document in place: the collection keeps its size, every other document
   * is unchanged, and each pair of a patch with distinct keys is written.
   */
  lemma ApplyInPlace(s: DbState, u: Update, k: string, x: Value)
    requires FindFirst(s.Rows(u.target), u.key, u.value).Some?
    requires DistinctKeys(u.patch) && (k, x) in u.patch
    ensures var rows := s.Apply(u).Rows(u.target);
      var i := FindFirst(s.Rows(u.target), u.key, u.value).value;
      && |rows| == |s.Rows(u.target)|
      && (forall j :: 0 <= j < |rows| && j != i ==> rows[j] == s.Rows(u.target)[j])
      && k in rows[i] && rows[i][k] == x
  {
    UpsertWrites(s.Rows(u.target), u.key, u.value, u.patch, k, x);
  }

  class Store {
    var food: seq<Row>
    var menu: seq<Row>
    var table: seq<Row>
    var order: seq<Row>
    var orderItem: seq<Row>
    var invoice: seq<Row>
    var user: seq<Row>

    function State(): DbState
      reads this
    {
      DbState(food, menu, table, order, orderItem, invoice, user)
    }

    constructor ()
      ensures State() == DbState([], [], [], [], [], [], [])
    {
      food, menu, table, order, orderItem, invoice, user := [], [], [], [], [], [], [];
    }

    method Put(c: Collection, rows: seq<Row>)
      modifies this
      ensures State() == old(State()).With(c, rows)
    {
      match c
      case FoodColl => food := rows;
      case MenuColl => menu := rows;
      case TableColl => table := rows;
      case OrderColl => order := rows;
      case OrderItemColl => orderItem := rows;
      case InvoiceColl => invoice := rows;
      case UserColl => user := rows;
    }

    /** InsertOne: appends the document to the collection. */
    method InsertOne(c: Collection, doc: Row)
      modifies this
      ensures State() == old(State()).With(c, old(State()).Rows(c) + [doc])
    {
      Put(c, State().Rows(c) + [doc]);
    }

    /** InsertMany: appends the batch in order; an empty batch is a driver error. */
    method InsertMany(c: Collection, docs: seq<Row>) returns (ok: bool)
      modifies this
      ensures ok <==> docs != []
      ensures ok ==> State() == old(State()).With(c, old(State()).Rows(c) + docs)
      ensures !ok ==> State() == old(State())
    {
      if docs == [] {
        return false;
      }
      Put(c, State().Rows(c) + docs);
      ok := true;
    }

    /** UpdateOne with upsert, answering with the update result. */
    method UpdateOne(u: Update) returns (body: Value)
      modifies this
      ensures State() == old(State()).Apply(u)
      ensures body == UpdatedBody(old(State()), u)
    {
      body := UpdatedBody(State(), u);
      Put(u.target, UpsertOne(State().Rows(u.target), u.key, u.value, u.patch));
    }
  }
}
