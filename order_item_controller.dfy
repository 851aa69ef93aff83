/**
 * The order-item handlers: the billing aggregation behind an order's bill
 * (used by the invoice view), the batch placement of an order with its
 * items, and the item update.
 */
module OrderItemController {
  import opened Wrappers
  import opened ObjectIds
  import opened Money
  import opened Documents
  import opened Aggregation
  import opened Database
  import opened Models
  import opened OrderController

  // ------------------------------------------------------------- ItemsByOrder

  /** The first `$project`: one flat row per joined order item. */
  const FlatProjection: ProjSpec := [
    ("id", Exclude),
    ("amount", Ref(["food_price"])),
    ("total_count", Include),
    ("food_name", Ref(["food", "name"])),
    ("food_image", Ref(["food", "food_image"])),
    ("table_number", Ref(["table", "table_number"])),
    ("table_id", Ref(["table", "table_id"])),
    ("order_id", Ref(["order", "order_id"])),
    ("price", Ref(["food", "price"])),
    ("quantity", Include)]

  /** The `_id` of the `$group` stage. */
  const BillingKey: KeySpec := [
    ("order_id", Field(["order"])),
    ("table_id", Field(["table_id"])),
    ("table_number", Field(["table_number"]))]

  const BillingAccumulators: AccSpec := [
    ("payment_due", Sum(["amount"])),
    ("total_count", CountOne),
    ("order_items", PushRoot)]

  /** The second `$project`, over the buckets. */
  const FinalProjection: ProjSpec := [
    ("id", Exclude),
    ("payment_due", Include),
    ("total_count", Include),
    ("total_number", Ref(["_id", "table_number"])),
    ("food_image", Ref(["food", "food_image"])),
    ("order_items", Include),
    ("table_id", Ref(["table", "table_id"])),
    ("order_id", Ref(["order", "order_id"])),
    ("price", Ref(["food", "price"])),
    ("quantity", Include)]

  /** The items of the order, each joined with its food, its order and the order's table. */
  function JoinedItems(s: DbState, id: string): seq<Row>
  {
    var matched := Match(s.orderItem, "order_id", Str(id));
    var withFood := LeftJoin(matched, s.food, ["food_id"], "food_id", "food");
    var withOrder := LeftJoin(withFood, s.order, ["order_id"], "order_id", "order");
    LeftJoin(withOrder, s.table, ["order", "table_id"], "table_id", "table")
  }

  /** The flat rows under a first projection. */
  function FlatItems(joined: seq<Row>, flat: ProjSpec): seq<Row>
  {
    ProjectAll(joined, flat)
  }

  /** The buckets of the `$group` stage. */
  function Buckets(joined: seq<Row>, flat: ProjSpec): seq<Group>
  {
    GroupBy(FlatItems(joined, flat), BillingKey)
  }

  /** The stages after the joins, with the two projections as parameters. */
  function Billing(joined: seq<Row>, flat: ProjSpec, final: ProjSpec): seq<Row>
  {
    ProjectAll(GroupStage(FlatItems(joined, flat), BillingKey, BillingAccumulators), final)
  }

  /** ItemsByOrder: the pipeline exactly as the handler sends it. */
  function ItemsByOrder(s: DbState, id: string): seq<Row>
  {
    Billing(JoinedItems(s, id), FlatProjection, FinalProjection)
  }

  lemma AccumulatorsDistinct()
    ensures DistinctSpec(BillingAccumulators)
    ensures forall i :: 0 <= i < |BillingAccumulators| ==> BillingAccumulators[i].0 != "_id"
  {
  }

  /** The handler's first projection names each field once; `amount` reads `$food_price`. */
  lemma FlatSpec()
    ensures DistinctSpec(FlatProjection)
    ensures FlatProjection[1] == ("amount", Ref(["food_price"]))
  {
  }

  /**
   * A final projection that keeps `_id` and passes the three accumulated
   * fields through unchanged (both projections used here do).
   */
  predicate PassesBucket(final: ProjSpec)
  {
    && DistinctSpec(final)
    && (forall j :: 0 <= j < |final| ==> final[j].0 != "_id")
    && ("payment_due", Include) in final
    && ("total_count", Include) in final
    && ("order_items", Include) in final
  }

  /** The handler's final projection passes the buckets through. */
  lemma FinalPasses()
    ensures PassesBucket(FinalProjection)
    ensures FinalProjection[3] == ("total_number", Ref(["_id", "table_number"]))
  {
    assert FinalProjection[1] == ("payment_due", Include);
    assert FinalProjection[2] == ("total_count", Include);
    assert FinalProjection[5] == ("order_items", Include);
  }

  /** The handler's final projection has no `table_number` entry. */
  lemma FinalLacksTableNumber()
    ensures forall j :: 0 <= j < |FinalProjection| ==> FinalProjection[j].0 != "table_number"
  {
  }

  lemma PassThrough(acc: Row, final: ProjSpec, key: string)
    requires PassesBucket(final)
    requires (key, Include) in final
    requires key in acc
    ensures key in Project(acc, final) && Project(acc, final)[key] == acc[key]
  {
    var k :| 0 <= k < |final| && final[k] == (key, Include);
    ProjectAt(acc, final, k);
  }

  /**
   * One output row of the billing stages describes one bucket: its key
   * under `_id`, the `$sum` of the bucket's amounts as payment_due, the
   * bucket size as total_count, and the bucket itself as order_items.
   */
  lemma BillingRow(joined: seq<Row>, flat: ProjSpec, final: ProjSpec, i: nat)
    requires PassesBucket(final)
    requires i < |Billing(joined, flat, final)|
    ensures |Billing(joined, flat, final)| == |Buckets(joined, flat)|
    ensures var g := Buckets(joined, flat)[i]; var out := Billing(joined, flat, final)[i];
      && "_id" in out && out["_id"] == g.key
      && "payment_due" in out && out["payment_due"] == Num(SumOf(g.members, ["amount"]))
      && "total_count" in out && out["total_count"] == Num(|g.members| as real)
      && "order_items" in out && out["order_items"] == Arr(Docs(g.members))
  {
    var g := Buckets(joined, flat)[i];
    var acc := Accumulated(g, BillingAccumulators);
    AccumulatorsDistinct();
    assert Billing(joined, flat, final)[i] == Project(acc, final);
    AccumulatedAt(g, BillingAccumulators, 0);
    AccumulatedAt(g, BillingAccumulators, 1);
    AccumulatedAt(g, BillingAccumulators, 2);
    AccumulatedId(g, BillingAccumulators);
    PassThrough(acc, final, "payment_due");
    PassThrough(acc, final, "total_count");
    PassThrough(acc, final, "order_items");
    assert "_id" !in Computed(acc, final);
  }

  /** The payment_due column holds each bucket's sum of amounts. */
  lemma BillingDues(joined: seq<Row>, flat: ProjSpec, final: ProjSpec)
    requires PassesBucket(final)
    ensures |Billing(joined, flat, final)| == |Buckets(joined, flat)|
    ensures forall i :: 0 <= i < |Billing(joined, flat, final)| ==>
      Amount(Billing(joined, flat, final)[i], ["payment_due"]) == SumOf(Buckets(joined, flat)[i].members, ["amount"])
  {
    var out := Billing(joined, flat, final);
    if out != [] {
      BillingRow(joined, flat, final, 0);
    }
    forall i | 0 <= i < |out|
      ensures Amount(out[i], ["payment_due"]) == SumOf(Buckets(joined, flat)[i].members, ["amount"]) {
      BillingRow(joined, flat, final, i);
    }
  }

  /** The total_count column holds each bucket's size. */
  lemma BillingSizes(joined: seq<Row>, flat: ProjSpec, final: ProjSpec)
    requires PassesBucket(final)
    ensures |Billing(joined, flat, final)| == |Buckets(joined, flat)|
    ensures forall i :: 0 <= i < |Billing(joined, flat, final)| ==>
      Amount(Billing(joined, flat, final)[i], ["total_count"]) == |Buckets(joined, flat)[i].members| as real
  {
    var out := Billing(joined, flat, final);
    if out != [] {
      BillingRow(joined, flat, final, 0);
    }
    forall i | 0 <= i < |out|
      ensures Amount(out[i], ["total_count"]) == |Buckets(joined, flat)[i].members| as real {
      BillingRow(joined, flat, final, i);
    }
  }

  /** The total_counts add up to the number of joined order items. */
  lemma BillingCounts(joined: seq<Row>, flat: ProjSpec, final: ProjSpec)
    requires PassesBucket(final)
    ensures SumOf(Billing(joined, flat, final), ["total_count"]) == |joined| as real
  {
    BillingSizes(joined, flat, final);
    BucketColumnCount(Billing(joined, flat, final), "total_count", FlatItems(joined, flat), BillingKey);
  }

  /** The payment_dues add up to the sum of the flat rows' amounts. */
  lemma BillingTotals(joined: seq<Row>, flat: ProjSpec, final: ProjSpec)
    requires PassesBucket(final)
    ensures SumOf(Billing(joined, flat, final), ["payment_due"]) == SumOf(FlatItems(joined, flat), ["amount"])
  {
    BillingDues(joined, flat, final);
    BucketColumnTotal(Billing(joined, flat, final), "payment_due", FlatItems(joined, flat), BillingKey, ["amount"]);
  }

  /** The billing stages yield no row exactly when no row enters them. */
  lemma BillingEmpty(joined: seq<Row>, flat: ProjSpec, final: ProjSpec)
    ensures Billing(joined, flat, final) == [] <==> joined == []
  {
    GroupByEmpty(FlatItems(joined, flat), BillingKey);
  }

  lemma LeftJoinNil(from: seq<Row>, local: seq<string>, foreign: string, into: string)
    requires local != []
    ensures LeftJoin([], from, local, foreign, into) == []
  {
    assert Lookup([], from, local, foreign, into) == [];
  }

  /**
   * The joins keep at least one row per matched order item (one per
   * matching food, order and table, or one with the field dropped).
   */
  lemma JoinedCount(s: DbState, id: string)
    ensures |JoinedItems(s, id)| >= |Match(s.orderItem, "order_id", Str(id))|
    ensures Match(s.orderItem, "order_id", Str(id)) == [] ==> JoinedItems(s, id) == []
  {
    LeftJoinNil(s.food, ["food_id"], "food_id", "food");
    LeftJoinNil(s.order, ["order_id"], "order_id", "order");
    LeftJoinNil(s.table, ["order", "table_id"], "table_id", "table");
  }

  /** ItemsByOrder yields no row exactly when no order item carries the order id. */
  lemma ItemsByOrderEmpty(s: DbState, id: string)
    ensures ItemsByOrder(s, id) == [] <==> Match(s.orderItem, "order_id", Str(id)) == []
  {
    JoinedCount(s, id);
    BillingEmpty(JoinedItems(s, id), FlatProjection, FinalProjection);
  }

  /** The total_counts of ItemsByOrder add up to the number of joined order items. */
  lemma ItemsByOrderCounts(s: DbState, id: string)
    ensures SumOf(ItemsByOrder(s, id), ["total_count"]) == |JoinedItems(s, id)| as real
  {
    FinalPasses();
    BillingCounts(JoinedItems(s, id), FlatProjection, FinalProjection);
  }

  lemma MinusAgrees(a: Row, b: Row, x: string, k: string)
    requires a - {x} == b - {x}
    requires k != x
    ensures k in a <==> k in b
    ensures k in a ==> a[k] == b[k]
  {
    assert k in a <==> k in a - {x};
    assert k in b <==> k in b - {x};
    if k in a {
      assert (a - {x})[k] == a[k];
      assert (b - {x})[k] == b[k];
    }
  }

  /**
   * The joins only add "food", "order" and "table": any other field of a
   * joined row is the field of the order item it came from.
   */
  lemma JoinedKeepsField(s: DbState, id: string, j: Row, k: string)
    requires j in JoinedItems(s, id)
    requires k !in {"food", "order", "table"}
    ensures exists item :: && item in s.orderItem && FieldEquals(item, "order_id", Str(id))
                           && (k in j <==> k in item) && (k in j ==> j[k] == item[k])
  {
    var matched := Match(s.orderItem, "order_id", Str(id));
    var withFood := LeftJoin(matched, s.food, ["food_id"], "food_id", "food");
    var withOrder := LeftJoin(withFood, s.order, ["order_id"], "order_id", "order");
    LeftJoinFrom(withOrder, s.table, ["order", "table_id"], "table_id", "table", j);
    var o2 :| o2 in withOrder && j - {"table"} == o2 - {"table"};
    LeftJoinFrom(withFood, s.order, ["order_id"], "order_id", "order", o2);
    var o1 :| o1 in withFood && o2 - {"order"} == o1 - {"order"};
    LeftJoinFrom(matched, s.food, ["food_id"], "food_id", "food", o1);
    var item :| item in matched && o1 - {"food"} == item - {"food"};
    MinusAgrees(j, o2, "table", k);
    MinusAgrees(o2, o1, "order", k);
    MinusAgrees(o1, item, "food", k);
  }

  /** The as-written amount of a flat row is the order item's own food_price. */
  lemma FlatAmount(j: Row)
    ensures Amount(Project(j, FlatProjection), ["amount"]) == Amount(j, ["food_price"])
  {
    FlatSpec();
    ProjectAt(j, FlatProjection, 1);
  }

  /** As written, the payment_dues add up to the joined rows' own food_price fields. */
  lemma ItemsByOrderTotals(s: DbState, id: string)
    ensures SumOf(ItemsByOrder(s, id), ["payment_due"]) == SumOf(JoinedItems(s, id), ["food_price"])
  {
    var joined := JoinedItems(s, id);
    FinalPasses();
    BillingTotals(joined, FlatProjection, FinalProjection);
    var flat := FlatItems(joined, FlatProjection);
    forall i | 0 <= i < |joined|
      ensures Amount(flat[i], ["amount"]) == Amount(joined[i], ["food_price"]) {
      FlatAmount(joined[i]);
    }
    SumOfPointwise(flat, ["amount"], joined, ["food_price"]);
  }

  /** A joined row's food_price is the one of an order item of the order. */
  lemma JoinedFoodPrice(s: DbState, id: string, j: Row)
    requires forall r :: r in s.orderItem ==> Amount(r, ["food_price"]) == 0.0
    requires j in JoinedItems(s, id)
    ensures Amount(j, ["food_price"]) == 0.0
  {
    JoinedKeepsField(s, id, j, "food_price");
    var item :| && item in s.orderItem && FieldEquals(item, "order_id", Str(id))
                && ("food_price" in j <==> "food_price" in item)
                && ("food_price" in j ==> j["food_price"] == item["food_price"]);
    assert Amount(j, ["food_price"]) == Amount(item, ["food_price"]);
  }

  /** As written, without food_price on the order items every flat row's amount is 0. */
  lemma FlatAmountsZero(s: DbState, id: string)
    requires forall r :: r in s.orderItem ==> Amount(r, ["food_price"]) == 0.0
    ensures forall r :: r in FlatItems(JoinedItems(s, id), FlatProjection) ==> Amount(r, ["amount"]) == 0.0
  {
    var joined := JoinedItems(s, id);
    var flat := FlatItems(joined, FlatProjection);
    forall r | r in flat ensures Amount(r, ["amount"]) == 0.0 {
      var k :| 0 <= k < |flat| && flat[k] == r;
      FlatAmount(joined[k]);
      JoinedFoodPrice(s, id, joined[k]);
    }
  }

  /**
   * As written, `amount` reads `$food_price`, a field no join supplies:
   * unless order items carry a numeric food_price of their own, every
   * payment_due is 0, and so is their sum.
   */
  lemma PaymentDueIsZero(s: DbState, id: string)
    requires forall r :: r in s.orderItem ==> Amount(r, ["food_price"]) == 0.0
    ensures forall i :: 0 <= i < |ItemsByOrder(s, id)| ==> Amount(ItemsByOrder(s, id)[i], ["payment_due"]) == 0.0
    ensures SumOf(ItemsByOrder(s, id), ["payment_due"]) == 0.0
  {
    var joined := JoinedItems(s, id);
    var flat := FlatItems(joined, FlatProjection);
    FinalPasses();
    BillingDues(joined, FlatProjection, FinalProjection);
    FlatAmountsZero(s, id);
    var gs := Buckets(joined, FlatProjection);
    forall i | 0 <= i < |gs| ensures SumOf(gs[i].members, ["amount"]) == 0.0 {
      GroupBuckets(flat, BillingKey, i);
      SelectMembers(flat, BillingKey, gs[i].key);
      SumOfZero(gs[i].members, ["amount"]);
    }
    ItemsByOrderTotals(s, id);
    forall j | j in joined ensures Amount(j, ["food_price"]) == 0.0 {
      JoinedFoodPrice(s, id, j);
    }
    SumOfZero(joined, ["food_price"]);
  }

  /** A stored order item has no food_price field. */
  lemma OrderItemDocLacksFoodPrice(item: OrderItem)
    ensures "food_price" !in OrderItemDoc(item)
    ensures Amount(OrderItemDoc(item), ["food_price"]) == 0.0
  {
  }

  /**
   * As written, over order items stored as the handlers store them, every
   * bill row is due 0.
   */
  lemma StoredItemsDueNothing(s: DbState, id: string)
    requires forall r :: r in s.orderItem ==> exists item :: r == OrderItemDoc(item)
    ensures forall i :: 0 <= i < |ItemsByOrder(s, id)| ==> Amount(ItemsByOrder(s, id)[i], ["payment_due"]) == 0.0
  {
    forall r | r in s.orderItem ensures Amount(r, ["food_price"]) == 0.0 {
      var item :| r == OrderItemDoc(item);
      OrderItemDocLacksFoodPrice(item);
    }
    PaymentDueIsZero(s, id);
  }

  /** The table number of a bucket key, if the key has one. */
  function KeyTableNumber(key: Value): Option<Value>
  {
    if key.Doc? && "table_number" in key.fields then Some(key.fields["table_number"]) else None
  }

  lemma GetTableNumber(row: Row)
    requires "_id" in row
    ensures Get(row, ["_id", "table_number"]) == KeyTableNumber(row["_id"])
  {
    assert ["_id", "table_number"][1..] == ["table_number"];
  }

  /**
   * A final projection entry `k: "$_id.table_number"` carries the bucket's
   * table number under k.
   */
  lemma BillingKeyField(joined: seq<Row>, flat: ProjSpec, final: ProjSpec, i: nat, j: nat, k: string)
    requires PassesBucket(final)
    requires i < |Billing(joined, flat, final)|
    requires j < |final| && final[j] == (k, Ref(["_id", "table_number"])) && k != "_id"
    ensures var key := Buckets(joined, flat)[i].key; var out := Billing(joined, flat, final)[i];
      && (k in out <==> KeyTableNumber(key).Some?)
      && (k in out ==> out[k] == KeyTableNumber(key).value)
  {
    var g := Buckets(joined, flat)[i];
    var acc := Accumulated(g, BillingAccumulators);
    BillingRow(joined, flat, final, i);
    assert Billing(joined, flat, final)[i] == Project(acc, final);
    AccumulatorsDistinct();
    AccumulatedId(g, BillingAccumulators);
    ProjectRef(acc, final, j, k, ["_id", "table_number"]);
    GetTableNumber(acc);
  }

  /**
   * As written, the final projection names the bucket's table number
   * `total_number`: no output row has a `table_number` field.
   */
  lemma ItemsByOrderTableNumber(s: DbState, id: string, i: nat)
    requires i < |ItemsByOrder(s, id)|
    ensures "table_number" !in ItemsByOrder(s, id)[i]
    ensures var key := Buckets(JoinedItems(s, id), FlatProjection)[i].key;
      && ("total_number" in ItemsByOrder(s, id)[i] <==> KeyTableNumber(key).Some?)
      && ("total_number" in ItemsByOrder(s, id)[i] ==> ItemsByOrder(s, id)[i]["total_number"] == KeyTableNumber(key).value)
  {
    var joined := JoinedItems(s, id);
    var g := Buckets(joined, FlatProjection)[i];
    var acc := Accumulated(g, BillingAccumulators);
    FinalPasses();
    BillingRow(joined, FlatProjection, FinalProjection, i);
    assert ItemsByOrder(s, id)[i] == Project(acc, FinalProjection);
    FinalLacksTableNumber();
    NotProjected(acc, FinalProjection, "table_number");
    BillingKeyField(joined, FlatProjection, FinalProjection, i, 3, "total_number");
  }

  // --------------------------------------------- ItemsByOrder, as intended

  /** The first projection with the amount computed as `$multiply` of unit_price and quantity. */
  const CorrectedFlatProjection: ProjSpec := [
    ("id", Exclude),
    ("amount", Product(["unit_price"], ["quantity"])),
    ("total_count", Include),
    ("food_name", Ref(["food", "name"])),
    ("food_image", Ref(["food", "food_image"])),
    ("table_number", Ref(["table", "table_number"])),
    ("table_id", Ref(["table", "table_id"])),
    ("order_id", Ref(["order", "order_id"])),
    ("price", Ref(["food", "price"])),
    ("quantity", Include)]

  /** The final projection with the bucket's table number under `table_number`. */
  const CorrectedFinalProjection: ProjSpec := [
    ("id", Exclude),
    ("payment_due", Include),
    ("total_count", Include),
    ("table_number", Ref(["_id", "table_number"])),
    ("food_image", Ref(["food", "food_image"])),
    ("order_items", Include),
    ("table_id", Ref(["table", "table_id"])),
    ("order_id", Ref(["order", "order_id"])),
    ("price", Ref(["food", "price"])),
    ("quantity", Include)]

  function CorrectedItemsByOrder(s: DbState, id: string): seq<Row>
  {
    Billing(JoinedItems(s, id), CorrectedFlatProjection, CorrectedFinalProjection)
  }

  lemma CorrectedFlatSpec()
    ensures DistinctSpec(CorrectedFlatProjection)
    ensures CorrectedFlatProjection[1] == ("amount", Product(["unit_price"], ["quantity"]))
  {
  }

  lemma CorrectedFinalPasses()
    ensures PassesBucket(CorrectedFinalProjection)
    ensures CorrectedFinalProjection[3] == ("table_number", Ref(["_id", "table_number"]))
  {
    assert CorrectedFinalProjection[1] == ("payment_due", Include);
    assert CorrectedFinalProjection[2] == ("total_count", Include);
    assert CorrectedFinalProjection[5] == ("order_items", Include);
  }

  /**
   * Reference definition of a line amount: the row's unit_price times its
   * quantity, 0 unless both are numbers (as `$sum` counts a null product).
   */
  function LineAmount(row: Row): real
  {
    match (Get(row, ["unit_price"]), Get(row, ["quantity"]))
    case (Some(Num(x)), Some(Num(y))) => x * y
    case _ => 0.0
  }

  function LineTotal(rows: seq<Row>): real
    decreases |rows|
  {
    if rows == [] then 0.0 else LineTotal(rows[..|rows| - 1]) + LineAmount(rows[|rows| - 1])
  }

  /** Rows whose amounts are the line amounts of other rows have the same total. */
  lemma {:induction false} SumOfLines(a: seq<Row>, path: seq<string>, b: seq<Row>)
    requires |a| == |b|
    requires forall i :: 0 <= i < |a| ==> Amount(a[i], path) == LineAmount(b[i])
    ensures SumOf(a, path) == LineTotal(b)
    decreases |a|
  {
    if a != [] {
      var n := |a| - 1;
      SumOfLines(a[..n], path, b[..n]);
    }
  }

  /** A field holding `{$multiply: ["$unit_price", "$quantity"]}` contributes the line amount. */
  lemma ProductAmount(out: Row, j: Row)
    requires "amount" in out && Some(out["amount"]) == Eval(j, "amount", Product(["unit_price"], ["quantity"]))
    ensures Amount(out, ["amount"]) == LineAmount(j)
  {
    assert Get(out, ["amount"]) == Some(out["amount"]);
  }

  /** The corrected amount of a flat row is its line amount. */
  lemma CorrectedFlatAmount(j: Row)
    ensures Amount(Project(j, CorrectedFlatProjection), ["amount"]) == LineAmount(j)
  {
    var e := Product(["unit_price"], ["quantity"]);
    assert DistinctSpec(CorrectedFlatProjection) && CorrectedFlatProjection[1] == ("amount", e) by {
      CorrectedFlatSpec();
    }
    assert Eval(j, "amount", e).Some?;
    ProjectAt(j, CorrectedFlatProjection, 1);
    ProductAmount(Project(j, CorrectedFlatProjection), j);
  }

  /** Corrected, the payment_dues add up to the joined items' unit_price × quantity. */
  lemma CorrectedTotals(s: DbState, id: string)
    ensures SumOf(CorrectedItemsByOrder(s, id), ["payment_due"]) == LineTotal(JoinedItems(s, id))
  {
    var joined := JoinedItems(s, id);
    CorrectedFinalPasses();
    BillingTotals(joined, CorrectedFlatProjection, CorrectedFinalProjection);
    var flat := FlatItems(joined, CorrectedFlatProjection);
    forall i | 0 <= i < |joined|
      ensures Amount(flat[i], ["amount"]) == LineAmount(joined[i]) {
      CorrectedFlatAmount(joined[i]);
    }
    SumOfLines(flat, ["amount"], joined);
  }

  /** The line amount of a stored order item: its unit price times a numeric quantity. */
  lemma ItemLineAmount(item: OrderItem)
    ensures LineAmount(OrderItemDoc(item)) ==
      if item.unitPrice.Some? && item.quantity.Some? && item.quantity.value.Num?
      then item.unitPrice.value * item.quantity.value.n else 0.0
  {
    assert Get(OrderItemDoc(item), ["unit_price"]) == Some(OptNum(item.unitPrice));
    assert Get(OrderItemDoc(item), ["quantity"]) == Some(OptRaw(item.quantity));
  }

  /** The joins keep two fields of the order item a joined row came from. */
  lemma JoinedKeepsFields(s: DbState, id: string, j: Row, k1: string, k2: string)
    requires j in JoinedItems(s, id)
    requires k1 !in {"food", "order", "table"} && k2 !in {"food", "order", "table"}
    ensures exists item :: && item in s.orderItem && FieldEquals(item, "order_id", Str(id))
                           && (k1 in j <==> k1 in item) && (k1 in j ==> j[k1] == item[k1])
                           && (k2 in j <==> k2 in item) && (k2 in j ==> j[k2] == item[k2])
  {
    var matched := Match(s.orderItem, "order_id", Str(id));
    var withFood := LeftJoin(matched, s.food, ["food_id"], "food_id", "food");
    var withOrder := LeftJoin(withFood, s.order, ["order_id"], "order_id", "order");
    LeftJoinFrom(withOrder, s.table, ["order", "table_id"], "table_id", "table", j);
    var o2 :| o2 in withOrder && j - {"table"} == o2 - {"table"};
    LeftJoinFrom(withFood, s.order, ["order_id"], "order_id", "order", o2);
    var o1 :| o1 in withFood && o2 - {"order"} == o1 - {"order"};
    LeftJoinFrom(matched, s.food, ["food_id"], "food_id", "food", o1);
    var item :| item in matched && o1 - {"food"} == item - {"food"};
    MinusAgrees(j, o2, "table", k1);
    MinusAgrees(o2, o1, "order", k1);
    MinusAgrees(o1, item, "food", k1);
    MinusAgrees(j, o2, "table", k2);
    MinusAgrees(o2, o1, "order", k2);
    MinusAgrees(o1, item, "food", k2);
  }

  /** Rows that agree on unit_price and quantity have the same line amount. */
  lemma LineAmountAgrees(a: Row, b: Row)
    requires "unit_price" in a <==> "unit_price" in b
    requires "unit_price" in a ==> a["unit_price"] == b["unit_price"]
    requires "quantity" in a <==> "quantity" in b
    requires "quantity" in a ==> a["quantity"] == b["quantity"]
    ensures LineAmount(a) == LineAmount(b)
  {
    assert Get(a, ["unit_price"]) == Get(b, ["unit_price"]);
    assert Get(a, ["quantity"]) == Get(b, ["quantity"]);
  }

  /** A joined row's line amount is that of the order item it came from. */
  lemma JoinedLineAmount(s: DbState, id: string, j: Row)
    requires j in JoinedItems(s, id)
    ensures exists item :: item in s.orderItem && FieldEquals(item, "order_id", Str(id))
                           && LineAmount(j) == LineAmount(item)
  {
    JoinedKeepsFields(s, id, j, "unit_price", "quantity");
    var item :| && item in s.orderItem && FieldEquals(item, "order_id", Str(id))
                && ("unit_price" in j <==> "unit_price" in item) && ("unit_price" in j ==> j["unit_price"] == item["unit_price"])
                && ("quantity" in j <==> "quantity" in item) && ("quantity" in j ==> j["quantity"] == item["quantity"]);
    LineAmountAgrees(j, item);
  }

  /**
   * Each lookup of the billing pipeline finds at most one document: one food
   * per food_id, one order per order_id and one table per table_id.
   */
  ghost predicate UniqueJoins(s: DbState, id: string)
  {
    var matched := Match(s.orderItem, "order_id", Str(id));
    var withFood := LeftJoin(matched, s.food, ["food_id"], "food_id", "food");
    var withOrder := LeftJoin(withFood, s.order, ["order_id"], "order_id", "order");
    && AtMostOneMatch(matched, s.food, ["food_id"], "food_id")
    && AtMostOneMatch(withFood, s.order, ["order_id"], "order_id")
    && AtMostOneMatch(withOrder, s.table, ["order", "table_id"], "table_id")
  }

  /** With unique lookups, the joined rows are the order's items, one each, with the same line amounts. */
  lemma UniqueJoinedItems(s: DbState, id: string)
    requires UniqueJoins(s, id)
    ensures |JoinedItems(s, id)| == |Match(s.orderItem, "order_id", Str(id))|
    ensures forall i :: 0 <= i < |JoinedItems(s, id)| ==>
      LineAmount(JoinedItems(s, id)[i]) == LineAmount(Match(s.orderItem, "order_id", Str(id))[i])
  {
    var matched := Match(s.orderItem, "order_id", Str(id));
    var withFood := LeftJoin(matched, s.food, ["food_id"], "food_id", "food");
    var withOrder := LeftJoin(withFood, s.order, ["order_id"], "order_id", "order");
    var joined := LeftJoin(withOrder, s.table, ["order", "table_id"], "table_id", "table");
    LeftJoinUnique(matched, s.food, ["food_id"], "food_id", "food");
    LeftJoinUnique(withFood, s.order, ["order_id"], "order_id", "order");
    LeftJoinUnique(withOrder, s.table, ["order", "table_id"], "table_id", "table");
    forall i | 0 <= i < |joined| ensures LineAmount(joined[i]) == LineAmount(matched[i]) {
      MinusAgrees(joined[i], withOrder[i], "table", "unit_price");
      MinusAgrees(withOrder[i], withFood[i], "order", "unit_price");
      MinusAgrees(withFood[i], matched[i], "food", "unit_price");
      MinusAgrees(joined[i], withOrder[i], "table", "quantity");
      MinusAgrees(withOrder[i], withFood[i], "order", "quantity");
      MinusAgrees(withFood[i], matched[i], "food", "quantity");
      LineAmountAgrees(joined[i], matched[i]);
    }
  }

  /**
   * Corrected, and with unique lookups, the payment_dues add up to
   * unit_price × quantity over exactly the order's items.
   */
  lemma CorrectedTotalsOfOrder(s: DbState, id: string)
    requires UniqueJoins(s, id)
    ensures SumOf(CorrectedItemsByOrder(s, id), ["payment_due"]) == LineTotal(Match(s.orderItem, "order_id", Str(id)))
  {
    var joined := JoinedItems(s, id);
    var matched := Match(s.orderItem, "order_id", Str(id));
    CorrectedFinalPasses();
    BillingTotals(joined, CorrectedFlatProjection, CorrectedFinalProjection);
    UniqueJoinedItems(s, id);
    var flat := FlatItems(joined, CorrectedFlatProjection);
    forall i | 0 <= i < |joined|
      ensures Amount(flat[i], ["amount"]) == LineAmount(matched[i]) {
      CorrectedFlatAmount(joined[i]);
    }
    SumOfLines(flat, ["amount"], matched);
  }

  /** Corrected, every output row carries its bucket's table number as `table_number`. */
  lemma CorrectedTableNumber(s: DbState, id: string, i: nat)
    requires i < |CorrectedItemsByOrder(s, id)|
    ensures var key := Buckets(JoinedItems(s, id), CorrectedFlatProjection)[i].key;
      && ("table_number" in CorrectedItemsByOrder(s, id)[i] <==> KeyTableNumber(key).Some?)
      && ("table_number" in CorrectedItemsByOrder(s, id)[i] ==>
            CorrectedItemsByOrder(s, id)[i]["table_number"] == KeyTableNumber(key).value)
  {
    CorrectedFinalPasses();
    BillingKeyField(JoinedItems(s, id), CorrectedFlatProjection, CorrectedFinalProjection, i, 3, "table_number");
  }

  // ---------------------------------------------------------- CreateOrderItem

  /** The request body of CreateOrderItem: the table and the items of a new order. */
  datatype OrderItemPack = OrderItemPack(tableId: Option<string>, orderItems: seq<OrderItem>)

  /** The item passes validation once it carries the order id, and has a unit price to round. */
  predicate Acceptable(item: OrderItem, orderId: string, validate: OrderItem -> Option<string>)
  {
    validate(item.(orderId := orderId)).None? && item.unitPrice.Some?
  }

  /**
   * The item as the batch stores it: under the new order, with a fresh id,
   * the current time and its unit price rounded to cents.
   */
  function Placed(item: OrderItem, orderId: string, id: ObjectId, now: int): (r: OrderItem)
    ensures r.orderId == orderId && r.id == id && r.orderItemId == Hex(id)
    ensures r.createdAt == now && r.updatedAt == now
    ensures item.unitPrice.Some? ==> r.unitPrice == Some(ToFixed(item.unitPrice.value, 2))
    ensures r.quantity == item.quantity && r.foodId == item.foodId
  {
    var price := if item.unitPrice.Some? then Some(ToFixed(item.unitPrice.value, 2)) else None;
    item.(orderId := orderId, id := id, orderItemId := Hex(id), createdAt := now, updatedAt := now, unitPrice := price)
  }

  /** The documents of a placed batch, the j-th item under the j-th fresh id. */
  function PlacedDocs(items: seq<OrderItem>, orderId: string, itemIds: nat -> ObjectId, now: int): (r: seq<Row>)
    ensures |r| == |items|
  {
    seq(|items|, j requires 0 <= j < |items| => OrderItemDoc(Placed(items[j], orderId, itemIds(j), now)))
  }

  /** The first item of the batch that stops the loop, if any. */
  function FirstRefused(items: seq<OrderItem>, orderId: string, validate: OrderItem -> Option<string>): (r: Option<nat>)
    ensures r.Some? ==> r.value < |items| && !Acceptable(items[r.value], orderId, validate)
    ensures r.Some? ==> forall j :: 0 <= j < r.value ==> Acceptable(items[j], orderId, validate)
    ensures r.None? <==> forall j :: 0 <= j < |items| ==> Acceptable(items[j], orderId, validate)
  {
    if items == [] then None
    else if !Acceptable(items[0], orderId, validate) then Some(0)
    else match FirstRefused(items[1..], orderId, validate)
      case None => None
      case Some(k) => Some(k + 1)
  }

  /** The parent order of a batch: dated now, on the pack's table. */
  function BatchOrder(pack: OrderItemPack, now: int): Order
  {
    EmptyOrder.(orderDate := now, tableId := pack.tableId)
  }

  /** The outcome of the loop over a batch. */
  datatype Batch = Ready(docs: seq<Row>, ids: seq<ObjectId>) | Invalid(error: string) | MissingPrice

  /**
   * The loop of CreateOrderItem: each item in turn gets the order id, is
   * validated, then stamped with the next fresh id and its rounded price.
   * The first item failing validation stops it with the validation error; a
   * validated item without a unit price stops it at the dereference.
   */
  method PrepareBatch(items: seq<OrderItem>, orderId: string, validate: OrderItem -> Option<string>,
                      itemIds: nat -> ObjectId, now: int)
    returns (b: Batch)
    ensures b.Ready? <==> FirstRefused(items, orderId, validate).None?
    ensures b.Ready? ==> b.docs == PlacedDocs(items, orderId, itemIds, now)
    ensures b.Ready? ==> b.ids == seq(|items|, (j: nat) => itemIds(j))
    ensures match FirstRefused(items, orderId, validate)
      case Some(k) =>
        var err := validate(items[k].(orderId := orderId));
        if err.Some? then b == Invalid(err.value) else b == MissingPrice
      case None => true
  {
    var toInsert: seq<Row> := [];
    var ids: seq<ObjectId> := [];
    for j := 0 to |items|
      invariant toInsert == PlacedDocs(items[..j], orderId, itemIds, now)
      invariant ids == seq(j, (i: nat) => itemIds(i))
      invariant forall i :: 0 <= i < j ==> Acceptable(items[i], orderId, validate)
    {
      var orderItem := items[j];
      orderItem := orderItem.(orderId := orderId);
      var validationErr := validate(orderItem);
      if validationErr.Some? {
        return Invalid(validationErr.value);
      }
      orderItem := orderItem.(id := itemIds(j));
      orderItem := orderItem.(orderItemId := Hex(orderItem.id));
      orderItem := orderItem.(createdAt := now, updatedAt := now);
      if orderItem.unitPrice.None? {
        return MissingPrice;
      }
      var num := ToFixed(orderItem.unitPrice.value, 2);
      orderItem := orderItem.(unitPrice := Some(num));
      assert orderItem == Placed(items[j], orderId, itemIds(j), now);
      assert items[..j + 1] == items[..j] + [items[j]];
      toInsert := toInsert + [OrderItemDoc(orderItem)];
      ids := ids + [itemIds(j)];
    }
    assert items[..|items|] == items;
    b := Ready(toInsert, ids);
  }

  /**
   * CreateOrderItem: once the body binds, the parent order is inserted
   * first, whatever follows; then the items are stamped in order and stored
   * together, all or none. An item failing validation answers 400; a nil unit
   * price, or an empty batch (the driver refuses it), ends the process.
   */
  method CreateOrderItem(db: Store, body: Result<OrderItemPack, string>, validate: OrderItem -> Option<string>,
                         orderOid: ObjectId, itemIds: nat -> ObjectId, now: int)
    returns (resp: Response)
    modifies db
    ensures body.Failure? ==> resp == BadRequest(body.error) && db.State() == old(db.State())
    ensures body.Success? ==> var items := body.value.orderItems; var oid := Hex(orderOid);
      var withOrder := old(db.State()).With(OrderColl, old(db.State()).order + [OrderDoc(Stamped(BatchOrder(body.value, now), orderOid, now))]);
      && (resp.Ok? <==> FirstRefused(items, oid, validate).None? && items != [])
      && (resp.Ok? ==> resp.body == InsertedManyBody(seq(|items|, (j: nat) => itemIds(j))))
      && (resp.Ok? ==> db.State() == withOrder.With(OrderItemColl, old(db.State()).orderItem + PlacedDocs(items, oid, itemIds, now)))
      && (!resp.Ok? ==> db.State() == withOrder)
    ensures body.Success? ==> var items := body.value.orderItems; var oid := Hex(orderOid);
      match FirstRefused(items, oid, validate)
      case Some(k) =>
        var err := validate(items[k].(orderId := oid));
        if err.Some? then resp == BadRequest(err.value) else resp == Crash
      case None => items == [] ==> resp == Crash
  {
    if body.Failure? {
      return BadRequest(body.error);
    }
    var pack := body.value;
    var order := EmptyOrder;
    order := order.(orderDate := now);
    order := order.(tableId := pack.tableId);
    var orderId := OrderItemOrderCreator(db, order, orderOid, now);
    var batch := PrepareBatch(pack.orderItems, orderId, validate, itemIds, now);
    if batch.Invalid? {
      return BadRequest(batch.error);
    }
    if batch.MissingPrice? {
      return Crash;
    }
    var ok := db.InsertMany(OrderItemColl, batch.docs);
    if !ok {
      return Crash;
    }
    resp := Ok(InsertedManyBody(batch.ids));
  }

  // ---------------------------------------------------------- UpdateOrderItem

  /** The `$set` list built from an order item: its non-nil price, quantity and food, then the stamp. */
  function OrderItemPatch(item: OrderItem, now: int): Patch
  {
    Entry("unit_price", NumOpt(item.unitPrice))
      + Entry("quantity", item.quantity)
      + Entry("food_id", StrOpt(item.foodId))
      + Entry("updated_at", Some(Time(now)))
  }

  /** The keys of the three optional entries: distinct, each present exactly when given. */
  lemma OrderItemFieldsKeys(item: OrderItem)
    ensures var f := Entry("unit_price", NumOpt(item.unitPrice)) + Entry("quantity", item.quantity)
                     + Entry("food_id", StrOpt(item.foodId));
      && DistinctKeys(f)
      && PatchKeys(f) <= {"unit_price", "quantity", "food_id"}
      && ("unit_price" in PatchKeys(f) <==> item.unitPrice.Some?)
      && ("quantity" in PatchKeys(f) <==> item.quantity.Some?)
      && ("food_id" in PatchKeys(f) <==> item.foodId.Some?)
  {
    var e1 := Entry("unit_price", NumOpt(item.unitPrice));
    var e2 := Entry("quantity", item.quantity);
    assert [] + e1 == e1;
    AppendEntry([], "unit_price", NumOpt(item.unitPrice));
    assert PatchKeys(e1) <= {"unit_price"};
    AppendEntry(e1, "quantity", item.quantity);
    assert PatchKeys(e1 + e2) <= {"unit_price", "quantity"};
    AppendEntry(e1 + e2, "food_id", StrOpt(item.foodId));
  }

  /** The patch's keys: distinct, each field present exactly when given, and the stamp. */
  lemma OrderItemPatchKeys(item: OrderItem, now: int)
    ensures var p := OrderItemPatch(item, now);
      && DistinctKeys(p)
      && PatchKeys(p) <= {"unit_price", "quantity", "food_id", "updated_at"}
      && ("unit_price" in PatchKeys(p) <==> item.unitPrice.Some?)
      && ("quantity" in PatchKeys(p) <==> item.quantity.Some?)
      && ("food_id" in PatchKeys(p) <==> item.foodId.Some?)
  {
    var f := Entry("unit_price", NumOpt(item.unitPrice)) + Entry("quantity", item.quantity)
             + Entry("food_id", StrOpt(item.foodId));
    OrderItemFieldsKeys(item);
    AppendEntry(f, "updated_at", Some(Time(now)));
  }

  /** The patch's pairs: each given field with its value, and the stamp last. */
  lemma OrderItemPatchPairs(item: OrderItem, now: int)
    ensures var p := OrderItemPatch(item, now);
      && (item.unitPrice.Some? ==> ("unit_price", Num(item.unitPrice.value)) in p)
      && (item.quantity.Some? ==> ("quantity", item.quantity.value) in p)
      && (item.foodId.Some? ==> ("food_id", Str(item.foodId.value)) in p)
      && |p| >= 1 && p[|p| - 1] == ("updated_at", Time(now))
      && ("updated_at", Time(now)) in p
  {
    var e1 := Entry("unit_price", NumOpt(item.unitPrice));
    var e2 := Entry("quantity", item.quantity);
    var e3 := Entry("food_id", StrOpt(item.foodId));
    var p := OrderItemPatch(item, now);
    assert p == e1 + e2 + e3 + [("updated_at", Time(now))];
    assert item.unitPrice.Some? ==> p[0] == ("unit_price", Num(item.unitPrice.value));
    assert item.quantity.Some? ==> p[|e1|] == ("quantity", item.quantity.value);
    assert item.foodId.Some? ==> p[|e1| + |e2|] == ("food_id", Str(item.foodId.value));
  }

  /** Each field given in the item is written, nothing else but the stamp, each once, the stamp last. */
  lemma OrderItemPatchShape(item: OrderItem, now: int)
    ensures var p := OrderItemPatch(item, now);
      && DistinctKeys(p)
      && PatchKeys(p) <= {"unit_price", "quantity", "food_id", "updated_at"}
      && ("unit_price" in PatchKeys(p) <==> item.unitPrice.Some?)
      && ("quantity" in PatchKeys(p) <==> item.quantity.Some?)
      && ("food_id" in PatchKeys(p) <==> item.foodId.Some?)
      && (item.unitPrice.Some? ==> ("unit_price", Num(item.unitPrice.value)) in p)
      && (item.quantity.Some? ==> ("quantity", item.quantity.value) in p)
      && (item.foodId.Some? ==> ("food_id", Str(item.foodId.value)) in p)
      && ("updated_at", Time(now)) in p
      && p[|p| - 1] == ("updated_at", Time(now))
  {
    OrderItemPatchKeys(item, now);
    OrderItemPatchPairs(item, now);
  }

  /**
   * As written, the handler never reads the request body: its patch is that
   * of a zero-valued item, the stamp alone.
   */
  lemma UpdateOrderItemOnlyStamps(now: int)
    ensures OrderItemPatch(EmptyOrderItem, now) == [("updated_at", Time(now))]
  {
    assert [] + [("updated_at", Time(now))] == [("updated_at", Time(now))];
  }

  /**
   * UpdateOrderItem as written: the patch of the zero-valued item it
   * declares, upserted on filter order_item_id.
   */
  method UpdateOrderItem(db: Store, orderItemId: string, now: int) returns (resp: Response)
    modifies db
    ensures var u := Update(OrderItemColl, "order_item_id", Str(orderItemId), OrderItemPatch(EmptyOrderItem, now));
      resp == Ok(UpdatedBody(old(db.State()), u)) && db.State() == old(db.State()).Apply(u)
  {
    var orderItem := EmptyOrderItem;
    var updateObj := OrderItemPatch(orderItem, now);
    var res := db.UpdateOne(Update(OrderItemColl, "order_item_id", Str(orderItemId), updateObj));
    resp := Ok(res);
  }

  /**
   * UpdateOrderItem as intended: the body is bound first (a malformed body
   * is refused), and the given fields are written.
   */
  method CorrectedUpdateOrderItem(db: Store, orderItemId: string, body: Result<OrderItem, string>, now: int)
    returns (resp: Response)
    modifies db
    ensures body.Failure? ==> resp == BadRequest(body.error) && db.State() == old(db.State())
    ensures body.Success? ==>
      var u := Update(OrderItemColl, "order_item_id", Str(orderItemId), OrderItemPatch(body.value, now));
      resp == Ok(UpdatedBody(old(db.State()), u)) && db.State() == old(db.State()).Apply(u)
  {
    if body.Failure? {
      return BadRequest(body.error);
    }
    var orderItem := body.value;
    var updateObj: Patch := [];
    updateObj := updateObj + Entry("unit_price", NumOpt(orderItem.unitPrice));
    updateObj := updateObj + Entry("quantity", orderItem.quantity);
    updateObj := updateObj + Entry("food_id", StrOpt(orderItem.foodId));
    orderItem := orderItem.(updatedAt := now);
    updateObj := updateObj + Entry("updated_at", Some(Time(orderItem.updatedAt)));
    assert [] + Entry("unit_price", NumOpt(orderItem.unitPrice)) == Entry("unit_price", NumOpt(orderItem.unitPrice));
    var res := db.UpdateOne(Update(OrderItemColl, "order_item_id", Str(orderItemId), updateObj));
    resp := Ok(res);
  }
}
