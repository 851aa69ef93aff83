/**
 * The order handlers: creating an order behind a table check, the sparse
 * update with its lookup guard, and the helper that inserts the parent
 * order of an order-item batch.
 */
module OrderController {
  import opened Wrappers
  import opened ObjectIds
  import opened Documents
  import opened Database
  import opened Models

  /** An order as stored after stamping with a fresh id and the current time. */
  function Stamped(order: Order, id: ObjectId, now: int): (o: Order)
    ensures o.id == id && o.orderId == Hex(id) && o.createdAt == now && o.updatedAt == now
    ensures o.orderDate == order.orderDate && o.tableId == order.tableId
  {
    order.(createdAt := now, updatedAt := now, id := id, orderId := Hex(id))
  }

  /**
   * OrderItemOrderCreator: stamps and inserts the order, ignoring the
   * insert's outcome, and returns the new order id.
   */
  method OrderItemOrderCreator(db: Store, order: Order, id: ObjectId, now: int) returns (orderId: string)
    modifies db
    ensures orderId == Hex(id)
    ensures db.State() == old(db.State()).With(OrderColl, old(db.State()).order + [OrderDoc(Stamped(order, id, now))])
  {
    var o := order;
    o := o.(createdAt := now);
    o := o.(updatedAt := now);
    o := o.(id := id);
    o := o.(orderId := Hex(id));
    db.InsertOne(OrderColl, OrderDoc(o));
    orderId := o.orderId;
  }

  /** The table named by the order is missing from the table collection. */
  predicate TableMissing(s: DbState, order: Order)
  {
    order.tableId.Some? && s.FindOne(TableColl, "table_id", Str(order.tableId.value)).None?
  }

  /**
   * CreateOrder: a malformed body or an order failing validation is refused
   * before any store call; a named table must exist; only then is the
   * stamped order inserted.
   */
  method CreateOrder(db: Store, body: Result<Order, string>, validate: Order -> Option<string>, id: ObjectId, now: int)
    returns (resp: Response)
    modifies db
    ensures body.Failure? ==> resp == BadRequest(body.error)
    ensures body.Success? && validate(body.value).Some? ==> resp == BadRequest(validate(body.value).value)
    ensures body.Success? && validate(body.value).None? && TableMissing(old(db.State()), body.value)
      ==> resp == ServerError("table was not found")
    ensures resp.Ok? <==> body.Success? && validate(body.value).None? && !TableMissing(old(db.State()), body.value)
    ensures resp.Ok? ==> resp.body == InsertedBody(id)
    ensures resp.Ok? ==>
      db.State() == old(db.State()).With(OrderColl, old(db.State()).order + [OrderDoc(Stamped(body.value, id, now))])
    ensures !resp.Ok? ==> db.State() == old(db.State())
  {
    if body.Failure? {
      return BadRequest(body.error);
    }
    var order := body.value;
    var validationErr := validate(order);
    if validationErr.Some? {
      return BadRequest(validationErr.value);
    }
    if order.tableId.Some? {
      var table := db.State().FindOne(TableColl, "table_id", Str(order.tableId.value));
      if table.None? {
        return ServerError("table was not found");
      }
    }
    order := order.(createdAt := now, updatedAt := now);
    order := order.(id := id);
    order := order.(orderId := Hex(id));
    db.InsertOne(OrderColl, OrderDoc(order));
    resp := Ok(InsertedBody(id));
  }

  /** The `$set` list of UpdateOrder: the table id under "menu" when given, then the stamp. */
  function OrderPatch(order: Order, now: int): Patch
  {
    Entry("menu", StrOpt(order.tableId))
      + Entry("updated_at", Some(Time(now)))
  }

  lemma OrderPatchShape(order: Order, now: int)
    ensures var p := OrderPatch(order, now);
      && DistinctKeys(p)
      && ("menu" in PatchKeys(p) <==> order.tableId.Some?)
      && (order.tableId.Some? ==> p == [("menu", Str(order.tableId.value)), ("updated_at", Time(now))])
      && (order.tableId.None? ==> p == [("updated_at", Time(now))])
      && PatchKeys(p) <= {"menu", "updated_at"}
      && p[|p| - 1] == ("updated_at", Time(now))
  {
    var m := Entry("menu", StrOpt(order.tableId));
    assert [] + m == m;
    AppendEntry([], "menu", StrOpt(order.tableId));
    AppendEntry(m, "updated_at", Some(Time(now)));
  }

  /** The table id of an UpdateOrder request is looked up among the menus. */
  predicate OrderLookupFails(s: DbState, order: Order)
  {
    order.tableId.Some? && s.FindOne(MenuColl, "table_id", Str(order.tableId.value)).None?
  }

  /**
   * UpdateOrder: when a table id is given it must be found (in the menu
   * collection) or the handler stops without an update; otherwise the patch
   * is upserted on filter order_id.
   */
  method UpdateOrder(db: Store, orderId: string, body: Result<Order, string>, now: int) returns (resp: Response)
    modifies db
    ensures body.Failure? ==> resp == BadRequest(body.error) && db.State() == old(db.State())
    ensures body.Success? && OrderLookupFails(old(db.State()), body.value)
      ==> resp == ServerError("table was not found") && db.State() == old(db.State())
    ensures body.Success? && !OrderLookupFails(old(db.State()), body.value)
      ==> var u := Update(OrderColl, "order_id", Str(orderId), OrderPatch(body.value, now));
          resp == Ok(UpdatedBody(old(db.State()), u)) && db.State() == old(db.State()).Apply(u)
  {
    if body.Failure? {
      return BadRequest(body.error);
    }
    var order := body.value;
    var updateObj: Patch := [];
    if order.tableId.Some? {
      var table := db.State().FindOne(MenuColl, "table_id", Str(order.tableId.value));
      if table.None? {
        return ServerError("table was not found");
      }
      updateObj := updateObj + [("menu", Str(order.tableId.value))];
    }
    order := order.(updatedAt := now);
    updateObj := updateObj + [("updated_at", Time(order.updatedAt))];
    var res := db.UpdateOne(Update(OrderColl, "order_id", Str(orderId), updateObj));
    resp := Ok(res);
  }

  /** A stored menu has no table_id field. */
  lemma MenuDocHasNoTableId(m: Menu)
    ensures "table_id" !in MenuDoc(m)
  {
  }

  /**
   * So when the menu collection is made of menu documents, every UpdateOrder
   * that names a table stops with "table was not found".
   */
  lemma UpdateOrderNeverFindsTable(menus: seq<Menu>, s: DbState, order: Order)
    requires |s.menu| == |menus|
    requires forall i :: 0 <= i < |menus| ==> s.menu[i] == MenuDoc(menus[i])
    requires order.tableId.Some?
    ensures OrderLookupFails(s, order)
  {
    assert s.Rows(MenuColl) == s.menu;
    forall i | 0 <= i < |s.menu| ensures !FieldEquals(s.menu[i], "table_id", Str(order.tableId.value)) {
      MenuDocHasNoTableId(menus[i]);
    }
  }

  /** The lookup as intended: the table id is looked up among the tables. */
  predicate CorrectedOrderLookupFails(s: DbState, order: Order)
  {
    order.tableId.Some? && s.FindOne(TableColl, "table_id", Str(order.tableId.value)).None?
  }

  /** UpdateOrder with the table looked up in the table collection, as CreateOrder does. */
  method CorrectedUpdateOrder(db: Store, orderId: string, body: Result<Order, string>, now: int) returns (resp: Response)
    modifies db
    ensures body.Failure? ==> resp == BadRequest(body.error) && db.State() == old(db.State())
    ensures body.Success? && CorrectedOrderLookupFails(old(db.State()), body.value)
      ==> resp == ServerError("table was not found") && db.State() == old(db.State())
    ensures body.Success? && !CorrectedOrderLookupFails(old(db.State()), body.value)
      ==> var u := Update(OrderColl, "order_id", Str(orderId), OrderPatch(body.value, now));
          resp == Ok(UpdatedBody(old(db.State()), u)) && db.State() == old(db.State()).Apply(u)
  {
    if body.Failure? {
      return BadRequest(body.error);
    }
    var order := body.value;
    var updateObj: Patch := [];
    if order.tableId.Some? {
      var table := db.State().FindOne(TableColl, "table_id", Str(order.tableId.value));
      if table.None? {
        return ServerError("table was not found");
      }
      updateObj := updateObj + [("menu", Str(order.tableId.value))];
    }
    updateObj := updateObj + [("updated_at", Time(now))];
    var res := db.UpdateOne(Update(OrderColl, "order_id", Str(orderId), updateObj));
    resp := Ok(res);
  }

  /** Corrected, an order naming a stored table passes the lookup. */
  lemma CorrectedUpdateOrderFindsTable(s: DbState, order: Order, t: Table)
    requires TableDoc(t) in s.table
    requires order.tableId == Some(t.tableId)
    ensures !CorrectedOrderLookupFails(s, order)
  {
    assert s.Rows(TableColl) == s.table;
    var i :| 0 <= i < |s.table| && s.table[i] == TableDoc(t);
    assert FieldEquals(s.table[i], "table_id", Str(t.tableId));
  }
}
