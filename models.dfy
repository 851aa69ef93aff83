/**
 * The request and document records the handlers fill and store.  The
 * struct declarations themselves are not part of this model: fields and
 * their document keys are those the handlers read, write and filter on.  A
 * Go pointer field is an Option (nil is None, stored as null); a field
 * whose Go type the handlers never reveal holds a raw Value.
 */
module Models {
  import opened Wrappers
  import opened ObjectIds
  import opened Documents

  datatype Food = Food(
    id: ObjectId, name: Option<string>, price: Option<real>, foodImage: Option<string>,
    createdAt: int, updatedAt: int, foodId: string, menuId: Option<string>)

  datatype Menu = Menu(
    id: ObjectId, name: string, category: string, startDate: Option<int>, endDate: Option<int>,
    createdAt: int, updatedAt: int, menuId: string)

  datatype Table = Table(
    id: ObjectId, numberOfGuests: Option<Value>, tableNumber: Option<Value>,
    createdAt: int, updatedAt: int, tableId: string)

  datatype Order = Order(
    id: ObjectId, orderDate: int, createdAt: int, updatedAt: int, orderId: string, tableId: Option<string>)

  datatype OrderItem = OrderItem(
    id: ObjectId, quantity: Option<Value>, unitPrice: Option<real>, createdAt: int, updatedAt: int,
    foodId: Option<string>, orderItemId: string, orderId: string)

  datatype Invoice = Invoice(
    id: ObjectId, invoiceId: string, orderId: string, paymentMethod: Option<string>,
    paymentStatus: Option<string>, paymentDueDate: int, createdAt: int, updatedAt: int)

  datatype User = User(
    id: ObjectId, firstName: Option<string>, lastName: Option<string>, password: Option<string>,
    email: Option<string>, phone: Option<string>, token: Option<string>, refreshToken: Option<string>,
    createdAt: int, updatedAt: int, userId: string)

  /** The zero value of a Go `Order`. */
  const EmptyOrder: Order := Order(NilObjectId, ZeroTime, ZeroTime, ZeroTime, "", None)

  /** The zero value of a Go `OrderItem`. */
  const EmptyOrderItem: OrderItem := OrderItem(NilObjectId, None, None, ZeroTime, ZeroTime, None, "", "")

  /** The zero value of a Go `Invoice`. */
  const EmptyInvoice: Invoice := Invoice(NilObjectId, "", "", None, None, ZeroTime, ZeroTime, ZeroTime)

  function OptRaw(o: Option<Value>): Value { if o.Some? then o.value else Null }

  function FoodDoc(f: Food): Row
  {
    map["_id" := Oid(f.id), "name" := OptStr(f.name), "price" := OptNum(f.price),
        "food_image" := OptStr(f.foodImage), "created_at" := Time(f.createdAt),
        "updated_at" := Time(f.updatedAt), "food_id" := Str(f.foodId), "menu_id" := OptStr(f.menuId)]
  }

  function MenuDoc(m: Menu): Row
  {
    map["_id" := Oid(m.id), "name" := Str(m.name), "category" := Str(m.category),
        "start_date" := OptTime(m.startDate), "end_date" := OptTime(m.endDate),
        "created_at" := Time(m.createdAt), "updated_at" := Time(m.updatedAt), "menu_id" := Str(m.menuId)]
  }

  function TableDoc(t: Table): Row
  {
    map["_id" := Oid(t.id), "number_of_guests" := OptRaw(t.numberOfGuests),
        "table_number" := OptRaw(t.tableNumber), "created_at" := Time(t.createdAt),
        "updated_at" := Time(t.updatedAt), "table_id" := Str(t.tableId)]
  }

  function OrderDoc(o: Order): Row
  {
    map["_id" := Oid(o.id), "order_date" := Time(o.orderDate), "created_at" := Time(o.createdAt),
        "updated_at" := Time(o.updatedAt), "order_id" := Str(o.orderId), "table_id" := OptStr(o.tableId)]
  }

  function OrderItemDoc(i: OrderItem): Row
  {
    map["_id" := Oid(i.id), "quantity" := OptRaw(i.quantity), "unit_price" := OptNum(i.unitPrice),
        "created_at" := Time(i.createdAt), "updated_at" := Time(i.updatedAt),
        "food_id" := OptStr(i.foodId), "order_item_id" := Str(i.orderItemId), "order_id" := Str(i.orderId)]
  }

  function InvoiceDoc(v: Invoice): Row
  {
    map["_id" := Oid(v.id), "invoice_id" := Str(v.invoiceId), "order_id" := Str(v.orderId),
        "payment_method" := OptStr(v.paymentMethod), "payment_status" := OptStr(v.paymentStatus),
        "payment_due_date" := Time(v.paymentDueDate), "created_at" := Time(v.createdAt),
        "updated_at" := Time(v.updatedAt)]
  }

  function UserDoc(u: User): Row
  {
    map["_id" := Oid(u.id), "first_name" := OptStr(u.firstName), "last_name" := OptStr(u.lastName),
        "password" := OptStr(u.password), "email" := OptStr(u.email), "phone" := OptStr(u.phone),
        "token" := OptStr(u.token), "refresh_token" := OptStr(u.refreshToken),
        "created_at" := Time(u.createdAt), "updated_at" := Time(u.updatedAt), "user_id" := Str(u.userId)]
  }

  // Decoding a stored document back into a record: a missing or null field
  // leaves the Go zero value; a field holding another BSON type makes the
  // decode fail, as the driver refuses to convert it.

  /** The Go type a record field is decoded into. */
  datatype FieldKind = StrKind | TimeKind | OidKind

  /** Whether a stored value decodes into a field of the given kind. */
  predicate DecodesAs(v: Value, kind: FieldKind)
  {
    match kind
    case StrKind => v.Null? || v.Str?
    case TimeKind => v.Null? || v.Time?
    case OidKind => v.Null? || v.Oid?
  }

  /** The keys of an invoice document and the kinds of their fields. */
  const InvoiceKinds: map<string, FieldKind> := map[
    "_id" := OidKind, "invoice_id" := StrKind, "order_id" := StrKind,
    "payment_method" := StrKind, "payment_status" := StrKind,
    "payment_due_date" := TimeKind, "created_at" := TimeKind, "updated_at" := TimeKind]

  /** Every field the record names holds a value of a type that decodes into it. */
  predicate WellTyped(row: Row, kinds: map<string, FieldKind>)
  {
    forall k :: k in kinds && k in row ==> DecodesAs(row[k], kinds[k])
  }

  function StrField(row: Row, key: string): string
  {
    if key in row && row[key].Str? then row[key].s else ""
  }

  function OptStrField(row: Row, key: string): Option<string>
  {
    if key in row && row[key].Str? then Some(row[key].s) else None
  }

  function TimeField(row: Row, key: string): int
  {
    if key in row && row[key].Time? then row[key].t else ZeroTime
  }

  function IdField(row: Row): ObjectId
  {
    if "_id" in row && row["_id"].Oid? then row["_id"].id else NilObjectId
  }

  /**
   * Decode(&invoice): the invoice read from the document, or None when a
   * field of the record holds a value of another type.
   */
  function DecodeInvoice(row: Row): (r: Option<Invoice>)
    ensures r.None? <==> exists k :: k in InvoiceKinds && k in row && !DecodesAs(row[k], InvoiceKinds[k])
    ensures r.Some? ==> r.value.invoiceId == (if "invoice_id" in row && row["invoice_id"].Str? then row["invoice_id"].s else "")
    ensures r.Some? ==> r.value.orderId == (if "order_id" in row && row["order_id"].Str? then row["order_id"].s else "")
  {
    if WellTyped(row, InvoiceKinds) then
      Some(Invoice(IdField(row), StrField(row, "invoice_id"), StrField(row, "order_id"),
                   OptStrField(row, "payment_method"), OptStrField(row, "payment_status"),
                   TimeField(row, "payment_due_date"), TimeField(row, "created_at"), TimeField(row, "updated_at")))
    else None
  }

  /** Storing an invoice and reading it back gives the same record. */
  lemma DecodeInvoiceDoc(v: Invoice)
    ensures DecodeInvoice(InvoiceDoc(v)) == Some(v)
  {
    InvoiceDocWellTyped(v);
  }

  /** Every field of a stored invoice has the type of its record field. */
  lemma InvoiceDocWellTyped(v: Invoice)
    ensures WellTyped(InvoiceDoc(v), InvoiceKinds)
  {
    var row := InvoiceDoc(v);
    forall k | k in InvoiceKinds && k in row ensures DecodesAs(row[k], InvoiceKinds[k]) {
      assert k in {"_id", "invoice_id", "order_id", "payment_method", "payment_status",
                   "payment_due_date", "created_at", "updated_at"};
    }
  }

  /** A number stored under a string field makes the decode fail. */
  lemma DecodeInvoiceMismatch(row: Row, k: string, n: real)
    requires k in {"invoice_id", "order_id", "payment_method", "payment_status"}
    requires k in row && row[k] == Num(n)
    ensures DecodeInvoice(row) == None
  {
    assert k in InvoiceKinds && !DecodesAs(row[k], InvoiceKinds[k]);
  }

  /** A document with no invoice field at all decodes to the zero invoice. */
  lemma DecodeInvoiceEmpty()
    ensures DecodeInvoice(map[]) == Some(Invoice(NilObjectId, "", "", None, None, ZeroTime, ZeroTime, ZeroTime))
  {
  }
}
