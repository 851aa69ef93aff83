/**
 * The invoice handlers: the invoice view, which merges a stored invoice
 * with the first row of its order's bill; creation with its defaults; and
 * the sparse update.
 */
module InvoiceController {
  import opened Wrappers
  import opened ObjectIds
  import opened Documents
  import opened Aggregation
  import opened Database
  import opened Models
  import opened OrderItemController

  // --------------------------------------------------------------- GetInvoice

  /** The view sent back by GetInvoice. */
  datatype InvoiceView = InvoiceView(
    invoiceId: string, paymentMethod: string, orderId: string, paymentStatus: Option<string>,
    paymentDue: Value, tableNumber: Value, paymentDueDate: int, orderDetails: Value)

  /** The zero value of the view. */
  const EmptyView: InvoiceView := InvoiceView("", "", "", None, Null, Null, ZeroTime, Null)

  /** Reading a key of a result row: a missing key reads as null. */
  function FieldOrNull(row: Row, k: string): (v: Value)
    ensures k in row ==> v == row[k]
    ensures k !in row ==> v == Null
  {
    if k in row then row[k] else Null
  }

  /** The view as JSON: one field per view member. */
  function ViewDoc(v: InvoiceView): Value
  {
    Doc(map["Invoice_id" := Str(v.invoiceId), "Payment_method" := Str(v.paymentMethod),
            "Order_id" := Str(v.orderId), "Payment_status" := OptStr(v.paymentStatus),
            "Payment_due" := v.paymentDue, "Table_number" := v.tableNumber,
            "Payment_due_date" := Time(v.paymentDueDate), "Order_details" := v.orderDetails])
  }

  /**
   * The view of an invoice and the first row of its bill: the invoice's ids,
   * due date and status unchanged, its payment method or the literal "null",
   * and the bill's payment_due, table_number and order_items.
   */
  function InvoiceViewOf(invoice: Invoice, bill: Row): (v: InvoiceView)
    ensures v.invoiceId == invoice.invoiceId && v.orderId == invoice.orderId
    ensures v.paymentDueDate == invoice.paymentDueDate && v.paymentStatus == invoice.paymentStatus
    ensures invoice.paymentMethod.None? ==> v.paymentMethod == "null"
    ensures invoice.paymentMethod.Some? ==> v.paymentMethod == invoice.paymentMethod.value
    ensures v.paymentDue == FieldOrNull(bill, "payment_due")
    ensures v.tableNumber == FieldOrNull(bill, "table_number")
    ensures v.orderDetails == FieldOrNull(bill, "order_items")
  {
    InvoiceView(invoice.invoiceId, if invoice.paymentMethod.Some? then invoice.paymentMethod.value else "null",
                invoice.orderId, invoice.paymentStatus, FieldOrNull(bill, "payment_due"),
                FieldOrNull(bill, "table_number"), invoice.paymentDueDate, FieldOrNull(bill, "order_items"))
  }

  /** Fills the view field by field, with the default payment method overwritten when one is stored. */
  method ComposeView(invoice: Invoice, bill: Row) returns (view: InvoiceView)
    ensures view == InvoiceViewOf(invoice, bill)
  {
    view := EmptyView;
    view := view.(orderId := invoice.orderId);
    view := view.(paymentDueDate := invoice.paymentDueDate);
    view := view.(paymentMethod := "null");
    if invoice.paymentMethod.Some? {
      view := view.(paymentMethod := invoice.paymentMethod.value);
    }
    view := view.(invoiceId := invoice.invoiceId);
    view := view.(paymentStatus := invoice.paymentStatus);
    view := view.(paymentDue := FieldOrNull(bill, "payment_due"));
    view := view.(tableNumber := FieldOrNull(bill, "table_number"));
    view := view.(orderDetails := FieldOrNull(bill, "order_items"));
  }

  /** The invoice with the given id, if one is stored and decodes. */
  function FindInvoice(s: DbState, invoiceId: string): Option<Invoice>
  {
    var found := s.FindOne(InvoiceColl, "invoice_id", Str(invoiceId));
    if found.Some? then DecodeInvoice(found.value) else None
  }

  /**
   * GetInvoice: an unknown invoice id, or a stored invoice whose fields do
   * not decode, is an error; an invoice whose order
   * has no bill row fails on indexing row 0; otherwise the view of the
   * invoice and that row.
   */
  method GetInvoice(db: Store, invoiceId: string) returns (resp: Response)
    ensures FindInvoice(db.State(), invoiceId).None? ==> resp == ServerError("error occured while fetching the invoice item")
    ensures FindInvoice(db.State(), invoiceId).Some? ==>
      var invoice := FindInvoice(db.State(), invoiceId).value;
      var bill := ItemsByOrder(db.State(), invoice.orderId);
      && (bill == [] ==> resp == Crash)
      && (bill != [] ==> resp == Ok(ViewDoc(InvoiceViewOf(invoice, bill[0]))))
  {
    var found := db.State().FindOne(InvoiceColl, "invoice_id", Str(invoiceId));
    if found.None? {
      return ServerError("error occured while fetching the invoice item");
    }
    var decoded := DecodeInvoice(found.value);
    if decoded.None? {
      return ServerError("error occured while fetching the invoice item");
    }
    var invoice := decoded.value;
    var allOrderItems := ItemsByOrder(db.State(), invoice.orderId);
    if allOrderItems == [] {
      return Crash;
    }
    var view := ComposeView(invoice, allOrderItems[0]);
    resp := Ok(ViewDoc(view));
  }

  /**
   * The view of a bill row from the pipeline as written: the amount due and
   * the details are those of the first bucket, but its table number is
   * always null, since the bill names it total_number.
   */
  lemma InvoiceViewOfBill(s: DbState, invoice: Invoice)
    requires ItemsByOrder(s, invoice.orderId) != []
    ensures var v := InvoiceViewOf(invoice, ItemsByOrder(s, invoice.orderId)[0]);
      var g := Buckets(JoinedItems(s, invoice.orderId), FlatProjection)[0];
      && v.tableNumber == Null
      && v.paymentDue == Num(SumOf(g.members, ["amount"]))
      && v.orderDetails == Arr(Docs(g.members))
  {
    FinalPasses();
    BillingRow(JoinedItems(s, invoice.orderId), FlatProjection, FinalProjection, 0);
    ItemsByOrderTableNumber(s, invoice.orderId, 0);
  }

  /** GetInvoice over the corrected bill pipeline. */
  method CorrectedGetInvoice(db: Store, invoiceId: string) returns (resp: Response)
    ensures FindInvoice(db.State(), invoiceId).None? ==> resp == ServerError("error occured while fetching the invoice item")
    ensures FindInvoice(db.State(), invoiceId).Some? ==>
      var invoice := FindInvoice(db.State(), invoiceId).value;
      var bill := CorrectedItemsByOrder(db.State(), invoice.orderId);
      && (bill == [] ==> resp == Crash)
      && (bill != [] ==> resp == Ok(ViewDoc(InvoiceViewOf(invoice, bill[0]))))
  {
    var found := db.State().FindOne(InvoiceColl, "invoice_id", Str(invoiceId));
    if found.None? {
      return ServerError("error occured while fetching the invoice item");
    }
    var decoded := DecodeInvoice(found.value);
    if decoded.None? {
      return ServerError("error occured while fetching the invoice item");
    }
    var invoice := decoded.value;
    var allOrderItems := CorrectedItemsByOrder(db.State(), invoice.orderId);
    if allOrderItems == [] {
      return Crash;
    }
    var view := ComposeView(invoice, allOrderItems[0]);
    resp := Ok(ViewDoc(view));
  }

  /** With the corrected pipeline the view shows the bucket's table number. */
  lemma CorrectedViewTableNumber(s: DbState, invoice: Invoice)
    requires CorrectedItemsByOrder(s, invoice.orderId) != []
    ensures var v := InvoiceViewOf(invoice, CorrectedItemsByOrder(s, invoice.orderId)[0]);
      var key := Buckets(JoinedItems(s, invoice.orderId), CorrectedFlatProjection)[0].key;
      v.tableNumber == OrNull(KeyTableNumber(key))
  {
    CorrectedTableNumber(s, invoice.orderId, 0);
  }

  // ------------------------------------------------------------ CreateInvoice

  /**
   * The invoice CreateInvoice stores: built from the zero invoice, status
   * PENDING, due one day after creation, stamped, with its hex id.  Its
   * order id is never filled in.
   */
  function NewInvoice(id: ObjectId, now: int): (v: Invoice)
    ensures v.paymentStatus == Some("PENDING") && v.paymentMethod.None?
    ensures v.paymentDueDate == now + SecondsPerDay
    ensures v.createdAt == now && v.updatedAt == now
    ensures v.id == id && v.invoiceId == Hex(id)
    ensures v.orderId == ""
  {
    EmptyInvoice.(paymentStatus := Some("PENDING"), paymentDueDate := now + SecondsPerDay,
                  createdAt := now, updatedAt := now, id := id, invoiceId := Hex(id))
  }

  /** The order CreateInvoice looks up, by the order id of its still-empty invoice. */
  predicate OrderOfEmptyInvoiceMissing(s: DbState)
  {
    s.FindOne(OrderColl, "order_id", Str(EmptyInvoice.orderId)).None?
  }

  /**
   * CreateInvoice: binds the body as an order but looks up the order id of
   * the empty invoice; defaults the status to PENDING, sets the due date a
   * day ahead, stamps, validates, and inserts.
   */
  method CreateInvoice(db: Store, body: Result<Order, string>, validate: Invoice -> Option<string>, id: ObjectId, now: int)
    returns (resp: Response)
    modifies db
    ensures body.Failure? ==> resp == BadRequest(body.error)
    ensures body.Success? && OrderOfEmptyInvoiceMissing(old(db.State())) ==> resp == ServerError("order was not found")
    ensures body.Success? && !OrderOfEmptyInvoiceMissing(old(db.State())) && validate(NewInvoice(id, now)).Some?
      ==> resp == BadRequest(validate(NewInvoice(id, now)).value)
    ensures resp.Ok? <==> body.Success? && !OrderOfEmptyInvoiceMissing(old(db.State())) && validate(NewInvoice(id, now)).None?
    ensures resp.Ok? ==> resp.body == InsertedBody(id)
    ensures resp.Ok? ==> db.State() == old(db.State()).With(InvoiceColl, old(db.State()).invoice + [InvoiceDoc(NewInvoice(id, now))])
    ensures !resp.Ok? ==> db.State() == old(db.State())
  {
    var invoice := EmptyInvoice;
    if body.Failure? {
      return BadRequest(body.error);
    }
    var order := db.State().FindOne(OrderColl, "order_id", Str(invoice.orderId));
    if order.None? {
      return ServerError("order was not found");
    }
    var status := "PENDING";
    if invoice.paymentStatus.None? {
      invoice := invoice.(paymentStatus := Some(status));
    }
    invoice := invoice.(paymentDueDate := now + SecondsPerDay);
    invoice := invoice.(createdAt := now, updatedAt := now);
    invoice := invoice.(id := id);
    invoice := invoice.(invoiceId := Hex(invoice.id));
    var validationErr := validate(invoice);
    if validationErr.Some? {
      return BadRequest(validationErr.value);
    }
    db.InsertOne(InvoiceColl, InvoiceDoc(invoice));
    resp := Ok(InsertedBody(id));
  }

  /** As written, a created invoice never refers to the order of the request. */
  lemma CreatedInvoiceOrderless(s: DbState, id: ObjectId, now: int, order: Order)
    requires order.orderId != ""
    ensures var doc := InvoiceDoc(NewInvoice(id, now));
      doc["order_id"] == Str("") && !FieldEquals(doc, "order_id", Str(order.orderId))
  {
    assert InvoiceDoc(NewInvoice(id, now))["order_id"] == Str("");
  }

  /** The invoice CreateInvoice evidently means to store: the same, for the given order. */
  function NewInvoiceFor(orderId: string, id: ObjectId, now: int): Invoice
  {
    NewInvoice(id, now).(orderId := orderId)
  }

  /** CreateInvoice as intended: the bound order must exist, and the invoice refers to it. */
  method CorrectedCreateInvoice(db: Store, body: Result<Order, string>, validate: Invoice -> Option<string>, id: ObjectId, now: int)
    returns (resp: Response)
    modifies db
    ensures body.Failure? ==> resp == BadRequest(body.error)
    ensures body.Success? && old(db.State()).FindOne(OrderColl, "order_id", Str(body.value.orderId)).None? ==>
      resp == ServerError("order was not found")
    ensures resp.Ok? <==> body.Success? && old(db.State()).FindOne(OrderColl, "order_id", Str(body.value.orderId)).Some?
                          && validate(NewInvoiceFor(body.value.orderId, id, now)).None?
    ensures resp.Ok? ==> resp.body == InsertedBody(id)
    ensures resp.Ok? ==> db.State() == old(db.State()).With(InvoiceColl,
                            old(db.State()).invoice + [InvoiceDoc(NewInvoiceFor(body.value.orderId, id, now))])
    ensures !resp.Ok? ==> db.State() == old(db.State())
  {
    var invoice := EmptyInvoice;
    if body.Failure? {
      return BadRequest(body.error);
    }
    invoice := invoice.(orderId := body.value.orderId);
    var order := db.State().FindOne(OrderColl, "order_id", Str(invoice.orderId));
    if order.None? {
      return ServerError("order was not found");
    }
    var status := "PENDING";
    if invoice.paymentStatus.None? {
      invoice := invoice.(paymentStatus := Some(status));
    }
    invoice := invoice.(paymentDueDate := now + SecondsPerDay);
    invoice := invoice.(createdAt := now, updatedAt := now);
    invoice := invoice.(id := id);
    invoice := invoice.(invoiceId := Hex(invoice.id));
    var validationErr := validate(invoice);
    if validationErr.Some? {
      return BadRequest(validationErr.value);
    }
    db.InsertOne(InvoiceColl, InvoiceDoc(invoice));
    resp := Ok(InsertedBody(id));
  }

  /** With the corrected handler, the stored invoice names an order that exists. */
  lemma CorrectedInvoiceHasOrder(s: DbState, orderId: string, id: ObjectId, now: int)
    requires s.FindOne(OrderColl, "order_id", Str(orderId)).Some?
    ensures var doc := InvoiceDoc(NewInvoiceFor(orderId, id, now));
      s.FindOne(OrderColl, "order_id", doc["order_id"]).Some?
  {
    assert InvoiceDoc(NewInvoiceFor(orderId, id, now))["order_id"] == Str(orderId);
  }

  // ------------------------------------------------------------ UpdateInvoice

  /** The `$set` list of UpdateInvoice: method and status when given, then the stamp. */
  function InvoicePatch(invoice: Invoice, now: int): Patch
  {
    Entry("payment_method", StrOpt(invoice.paymentMethod))
      + Entry("payment_status", StrOpt(invoice.paymentStatus))
      + Entry("updated_at", Some(Time(now)))
  }

  /**
   * Each key at most once; method and status exactly when given (so the
   * PENDING default, assigned afterwards, never enters it); the stamp last.
   */
  lemma InvoicePatchShape(invoice: Invoice, now: int)
    ensures var p := InvoicePatch(invoice, now);
      && DistinctKeys(p)
      && PatchKeys(p) == (if invoice.paymentMethod.Some? then {"payment_method"} else {})
                         + (if invoice.paymentStatus.Some? then {"payment_status"} else {}) + {"updated_at"}
      && p[|p| - 1] == ("updated_at", Time(now))
  {
    var m := Entry("payment_method", StrOpt(invoice.paymentMethod));
    assert [] + m == m;
    AppendEntry([], "payment_method", StrOpt(invoice.paymentMethod));
    AppendEntries(m, "payment_status", StrOpt(invoice.paymentStatus), "updated_at", Some(Time(now)));
  }

  /**
   * UpdateInvoice as written: the patch is upserted on the misspelt filter
   * key inovice_id; the PENDING default comes too late to matter.
   */
  method UpdateInvoice(db: Store, invoiceId: string, body: Result<Invoice, string>, now: int) returns (resp: Response)
    modifies db
    ensures body.Failure? ==> resp == BadRequest(body.error) && db.State() == old(db.State())
    ensures body.Success? ==>
      var u := Update(InvoiceColl, "inovice_id", Str(invoiceId), InvoicePatch(body.value, now));
      resp == Ok(UpdatedBody(old(db.State()), u)) && db.State() == old(db.State()).Apply(u)
  {
    if body.Failure? {
      return BadRequest(body.error);
    }
    var invoice := body.value;
    var updateObj: Patch := [];
    updateObj := updateObj + Entry("payment_method", StrOpt(invoice.paymentMethod));
    updateObj := updateObj + Entry("payment_status", StrOpt(invoice.paymentStatus));
    invoice := invoice.(updatedAt := now);
    updateObj := updateObj + Entry("updated_at", Some(Time(invoice.updatedAt)));
    assert [] + Entry("payment_method", StrOpt(invoice.paymentMethod)) == Entry("payment_method", StrOpt(invoice.paymentMethod));
    var filter := Str(invoiceId);
    var status := "PENDING";
    if invoice.paymentStatus.None? {
      invoice := invoice.(paymentStatus := Some(status));
    }
    var res := db.UpdateOne(Update(InvoiceColl, "inovice_id", filter, updateObj));
    resp := Ok(res);
  }

  /** A stored invoice document has no inovice_id field. */
  lemma InvoiceDocLacksMisspeltKey(v: Invoice)
    ensures "inovice_id" !in InvoiceDoc(v)
  {
  }

  /**
   * So, over invoice documents, UpdateInvoice never updates an invoice: it
   * keeps every stored one and appends a new document.
   */
  lemma UpdateInvoiceNeverMatches(s: DbState, invoices: seq<Invoice>, invoiceId: string, patch: Patch)
    requires |s.invoice| == |invoices|
    requires forall i :: 0 <= i < |invoices| ==> s.invoice[i] == InvoiceDoc(invoices[i])
    ensures var s' := s.Apply(Update(InvoiceColl, "inovice_id", Str(invoiceId), patch));
      |s'.invoice| == |s.invoice| + 1 && s'.invoice[..|s.invoice|] == s.invoice
  {
    forall i | 0 <= i < |s.invoice| ensures !FieldEquals(s.invoice[i], "inovice_id", Str(invoiceId)) {
      InvoiceDocLacksMisspeltKey(invoices[i]);
    }
    var u := Update(InvoiceColl, "inovice_id", Str(invoiceId), patch);
    assert s.Apply(u).invoice == s.Apply(u).Rows(InvoiceColl);
  }

  /** UpdateInvoice as intended: the same patch, on filter invoice_id. */
  method CorrectedUpdateInvoice(db: Store, invoiceId: string, body: Result<Invoice, string>, now: int) returns (resp: Response)
    modifies db
    ensures body.Failure? ==> resp == BadRequest(body.error) && db.State() == old(db.State())
    ensures body.Success? ==>
      var u := Update(InvoiceColl, "invoice_id", Str(invoiceId), InvoicePatch(body.value, now));
      resp == Ok(UpdatedBody(old(db.State()), u)) && db.State() == old(db.State()).Apply(u)
  {
    if body.Failure? {
      return BadRequest(body.error);
    }
    var invoice := body.value;
    var updateObj: Patch := [];
    updateObj := updateObj + Entry("payment_method", StrOpt(invoice.paymentMethod));
    updateObj := updateObj + Entry("payment_status", StrOpt(invoice.paymentStatus));
    invoice := invoice.(updatedAt := now);
    updateObj := updateObj + Entry("updated_at", Some(Time(invoice.updatedAt)));
    assert [] + Entry("payment_method", StrOpt(invoice.paymentMethod)) == Entry("payment_method", StrOpt(invoice.paymentMethod));
    var res := db.UpdateOne(Update(InvoiceColl, "invoice_id", Str(invoiceId), updateObj));
    resp := Ok(res);
  }

  /**
   * With the corrected filter, a stored invoice with that id is updated in
   * place: the collection keeps its size and the invoice receives the new
   * payment status.
   */
  lemma CorrectedUpdateInvoiceWrites(s: DbState, invoiceId: string, invoice: Invoice, now: int)
    requires invoice.paymentStatus.Some?
    requires s.FindOne(InvoiceColl, "invoice_id", Str(invoiceId)).Some?
    ensures var s' := s.Apply(Update(InvoiceColl, "invoice_id", Str(invoiceId), InvoicePatch(invoice, now)));
      var i := FindFirst(s.invoice, "invoice_id", Str(invoiceId)).value;
      && |s'.invoice| == |s.invoice|
      && "payment_status" in s'.invoice[i] && s'.invoice[i]["payment_status"] == Str(invoice.paymentStatus.value)
  {
    var p := InvoicePatch(invoice, now);
    var u := Update(InvoiceColl, "invoice_id", Str(invoiceId), p);
    assert s.Rows(InvoiceColl) == s.invoice;
    assert FindFirst(s.invoice, "invoice_id", Str(invoiceId)).Some?;
    assert s.Apply(u).invoice == UpsertOne(s.invoice, "invoice_id", Str(invoiceId), p) by {
      assert s.Apply(u).Rows(InvoiceColl) == UpsertOne(s.Rows(InvoiceColl), "invoice_id", Str(invoiceId), p);
    }
    assert DistinctKeys(p) by { InvoicePatchShape(invoice, now); }
    PaymentStatusEntry(invoice, now);
    UpsertWrites(s.invoice, "invoice_id", Str(invoiceId), p, "payment_status", Str(invoice.paymentStatus.value));
  }

  /** A given payment status is one of the patch's pairs. */
  lemma PaymentStatusEntry(invoice: Invoice, now: int)
    requires invoice.paymentStatus.Some?
    ensures ("payment_status", Str(invoice.paymentStatus.value)) in InvoicePatch(invoice, now)
  {
    var m := Entry("payment_method", StrOpt(invoice.paymentMethod));
    assert InvoicePatch(invoice, now)[|m|] == ("payment_status", Str(invoice.paymentStatus.value));
  }
}
