/**
 * The table handlers: the single-table read, creation behind validation,
 * and the sparse update (which, as written, is issued against the order
 * collection).
 */
module TableController {
  import opened Wrappers
  import opened ObjectIds
  import opened Documents
  import opened Database
  import opened Models

  /**
   * GetTable as written: the table id parameter is matched against the
   * field order_id of the table collection.
   */
  method GetTable(db: Store, tableId: string) returns (resp: Response)
    ensures var found := db.State().FindOne(TableColl, "order_id", Str(tableId));
      && (found.None? <==> resp == ServerError("error occured while fetching the table item"))
      && (found.Some? ==> resp == Ok(Doc(found.value)))
  {
    var table := db.State().FindOne(TableColl, "order_id", Str(tableId));
    if table.None? {
      return ServerError("error occured while fetching the table item");
    }
    resp := Ok(Doc(table.value));
  }

  /** A stored table document carries no order_id field. */
  lemma TableDocHasNoOrderId(t: Table)
    ensures "order_id" !in TableDoc(t)
  {
  }

  /**
   * So GetTable finds nothing in a table collection made of table
   * documents, whatever the id asked for.
   */
  lemma GetTableNeverFinds(tables: seq<Table>, s: DbState, tableId: string)
    requires |s.table| == |tables|
    requires forall i :: 0 <= i < |tables| ==> s.table[i] == TableDoc(tables[i])
    ensures s.FindOne(TableColl, "order_id", Str(tableId)).None?
  {
    forall i | 0 <= i < |s.table| ensures !FieldEquals(s.table[i], "order_id", Str(tableId)) {
      TableDocHasNoOrderId(tables[i]);
    }
  }

  /** GetTable as intended: the table whose table_id is the parameter. */
  method CorrectedGetTable(db: Store, tableId: string) returns (resp: Response)
    ensures var found := db.State().FindOne(TableColl, "table_id", Str(tableId));
      && (found.None? <==> resp == ServerError("error occured while fetching the table item"))
      && (found.Some? ==> resp == Ok(Doc(found.value)))
  {
    var table := db.State().FindOne(TableColl, "table_id", Str(tableId));
    if table.None? {
      return ServerError("error occured while fetching the table item");
    }
    resp := Ok(Doc(table.value));
  }

  /** A table as stored: a fresh id, the current time, its hex id as table_id. */
  function StoredTable(table: Table, id: ObjectId, now: int): (t: Table)
    ensures t.id == id && t.tableId == Hex(id) && t.createdAt == now && t.updatedAt == now
    ensures t.numberOfGuests == table.numberOfGuests && t.tableNumber == table.tableNumber
  {
    table.(createdAt := now, updatedAt := now, id := id, tableId := Hex(id))
  }

  /**
   * CreateTable: a malformed body or a table failing validation is refused
   * before any stamping or store call; otherwise the stamped table is inserted.
   */
  method CreateTable(db: Store, body: Result<Table, string>, validate: Table -> Option<string>, id: ObjectId, now: int)
    returns (resp: Response)
    modifies db
    ensures body.Failure? ==> resp == BadRequest(body.error)
    ensures body.Success? && validate(body.value).Some? ==> resp == BadRequest(validate(body.value).value)
    ensures resp.Ok? <==> body.Success? && validate(body.value).None?
    ensures resp.Ok? ==> resp.body == InsertedBody(id)
    ensures resp.Ok? ==> db.State() == old(db.State()).With(TableColl, old(db.State()).table + [TableDoc(StoredTable(body.value, id, now))])
    ensures !resp.Ok? ==> db.State() == old(db.State())
  {
    if body.Failure? {
      return BadRequest(body.error);
    }
    var table := body.value;
    var validationErr := validate(table);
    if validationErr.Some? {
      return BadRequest(validationErr.value);
    }
    table := table.(createdAt := now, updatedAt := now);
    table := table.(id := id);
    table := table.(tableId := Hex(table.id));
    db.InsertOne(TableColl, TableDoc(table));
    resp := Ok(InsertedBody(id));
  }

  /** With the corrected read, a freshly created table can be read back by its id. */
  lemma CreatedTableFound(s: DbState, table: Table, id: ObjectId, now: int)
    ensures var s' := s.With(TableColl, s.table + [TableDoc(StoredTable(table, id, now))]);
      s'.FindOne(TableColl, "table_id", Str(Hex(id))).Some?
  {
    var s' := s.With(TableColl, s.table + [TableDoc(StoredTable(table, id, now))]);
    assert FieldEquals(s'.table[|s.table|], "table_id", Str(Hex(id)));
  }

  /**
   * The `$set` list of UpdateTable: guests and table number when given,
   * then the stamp.
   */
  function TablePatch(table: Table, now: int): Patch
  {
    Entry("number_of_guests", table.numberOfGuests)
      + Entry("table_number", table.tableNumber)
      + Entry("updated_at", Some(Time(now)))
  }

  /**
   * Each key at most once; guests and table number exactly when given; the
   * stamp always, and last.
   */
  lemma TablePatchShape(table: Table, now: int)
    ensures var p := TablePatch(table, now);
      && DistinctKeys(p)
      && PatchKeys(p) == (if table.numberOfGuests.Some? then {"number_of_guests"} else {})
                         + (if table.tableNumber.Some? then {"table_number"} else {}) + {"updated_at"}
      && p[|p| - 1] == ("updated_at", Time(now))
  {
    var g := Entry("number_of_guests", table.numberOfGuests);
    assert [] + g == g;
    AppendEntry([], "number_of_guests", table.numberOfGuests);
    AppendEntries(g, "table_number", table.tableNumber, "updated_at", Some(Time(now)));
  }

  /**
   * UpdateTable as written: the patch is upserted on filter table_id, but
   * into the order collection.
   */
  method UpdateTable(db: Store, tableId: string, body: Result<Table, string>, now: int) returns (resp: Response)
    modifies db
    ensures body.Failure? ==> resp == BadRequest(body.error) && db.State() == old(db.State())
    ensures body.Success? ==>
      var u := Update(OrderColl, "table_id", Str(tableId), TablePatch(body.value, now));
      resp == Ok(UpdatedBody(old(db.State()), u)) && db.State() == old(db.State()).Apply(u)
  {
    if body.Failure? {
      return BadRequest(body.error);
    }
    var table := body.value;
    var updateObj: Patch := [];
    updateObj := updateObj + Entry("number_of_guests", table.numberOfGuests);
    updateObj := updateObj + Entry("table_number", table.tableNumber);
    table := table.(updatedAt := now);
    updateObj := updateObj + Entry("updated_at", Some(Time(table.updatedAt)));
    assert [] + Entry("number_of_guests", table.numberOfGuests) == Entry("number_of_guests", table.numberOfGuests);
    var res := db.UpdateOne(Update(OrderColl, "table_id", Str(tableId), updateObj));
    resp := Ok(res);
  }

  /**
   * The update never reaches the tables: the table collection is unchanged,
   * and the order collection receives the patch instead.
   */
  lemma UpdateTableMissesTables(s: DbState, tableId: string, table: Table, now: int)
    ensures var s' := s.Apply(Update(OrderColl, "table_id", Str(tableId), TablePatch(table, now)));
      && s'.table == s.table
      && s'.order == UpsertOne(s.order, "table_id", Str(tableId), TablePatch(table, now))
  {
    var u := Update(OrderColl, "table_id", Str(tableId), TablePatch(table, now));
    assert s.Apply(u).Rows(TableColl) == s.Rows(TableColl);
  }

  /** UpdateTable as intended: the same patch and filter, on the table collection. */
  method CorrectedUpdateTable(db: Store, tableId: string, body: Result<Table, string>, now: int) returns (resp: Response)
    modifies db
    ensures body.Failure? ==> resp == BadRequest(body.error) && db.State() == old(db.State())
    ensures body.Success? ==>
      var u := Update(TableColl, "table_id", Str(tableId), TablePatch(body.value, now));
      resp == Ok(UpdatedBody(old(db.State()), u)) && db.State() == old(db.State()).Apply(u)
  {
    if body.Failure? {
      return BadRequest(body.error);
    }
    var table := body.value;
    var updateObj: Patch := [];
    updateObj := updateObj + Entry("number_of_guests", table.numberOfGuests);
    updateObj := updateObj + Entry("table_number", table.tableNumber);
    table := table.(updatedAt := now);
    updateObj := updateObj + Entry("updated_at", Some(Time(table.updatedAt)));
    assert [] + Entry("number_of_guests", table.numberOfGuests) == Entry("number_of_guests", table.numberOfGuests);
    var res := db.UpdateOne(Update(TableColl, "table_id", Str(tableId), updateObj));
    resp := Ok(res);
  }

  /**
   * With the corrected update, the stored table with that id receives the
   * given table number, and the order collection is left alone.
   */
  lemma CorrectedUpdateTableWrites(s: DbState, tableId: string, table: Table, now: int)
    requires table.tableNumber.Some?
    requires s.FindOne(TableColl, "table_id", Str(tableId)).Some?
    ensures var s' := s.Apply(Update(TableColl, "table_id", Str(tableId), TablePatch(table, now)));
      var i := FindFirst(s.table, "table_id", Str(tableId)).value;
      && s'.order == s.order
      && |s'.table| == |s.table|
      && "table_number" in s'.table[i] && s'.table[i]["table_number"] == table.tableNumber.value
  {
    var p := TablePatch(table, now);
    var u := Update(TableColl, "table_id", Str(tableId), p);
    assert s.Rows(TableColl) == s.table;
    assert FindFirst(s.table, "table_id", Str(tableId)).Some?;
    assert s.Apply(u).Rows(OrderColl) == s.Rows(OrderColl);
    assert s.Apply(u).table == UpsertOne(s.table, "table_id", Str(tableId), p) by {
      assert s.Apply(u).Rows(TableColl) == UpsertOne(s.Rows(TableColl), "table_id", Str(tableId), p);
    }
    assert DistinctKeys(p) by { TablePatchShape(table, now); }
    TableNumberEntry(table, now);
    UpsertWrites(s.table, "table_id", Str(tableId), p, "table_number", table.tableNumber.value);
  }

  /** A given table number is one of the patch's pairs. */
  lemma TableNumberEntry(table: Table, now: int)
    requires table.tableNumber.Some?
    ensures ("table_number", table.tableNumber.value) in TablePatch(table, now)
  {
    var g := Entry("number_of_guests", table.numberOfGuests);
    assert TablePatch(table, now)[|g|] == ("table_number", table.tableNumber.value);
  }
}
