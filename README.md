# Restaurant management service: a Dafny model of its handlers

The service is a Gin and MongoDB REST back end for a restaurant. It keeps
foods, menus, tables, orders, order items, invoices and users in seven
collections. Its HTTP handlers under `controllers/` validate requests,
guard inserts with lookups, build sparse `$set` patches, page listings,
round prices to cents, and compute an order's bill with an aggregation
pipeline. This project models that handler logic and proves properties of it.

The model is laid out as follows:

- Store and requests:
  - The seven collections are the fields of one mutable `Database.Store`.
  - Documents are maps from field names to BSON-like values (`Documents`).
  - Each handler is a method that takes the store and the already-bound
    request body, as a `Result`: a binding failure is the `Failure` case.
  - Request parameters are passed in as parsed values.
  - Struct validation, bcrypt, token generation, fresh ObjectIDs and the
    clock are parameters.
- The response is a `Database.Response`:
  - `Ok` for 200.
  - `BadRequest` and `ServerError` carry their error strings.
  - `Crash` stands for a panic or `log.Fatal`.
  - `NoResponse` is a handler that returns without writing.
- Aggregation stages (`$match`, `$lookup`, `$unwind`, `$project`, `$group`
  and `$slice`) are pure functions over sequences of documents
  (`Aggregation`). The billing pipeline and the listing pipelines are
  composed from them exactly as the handlers write them.
- The handlers hold nine defects whose inputs can be named. Each is
  modelled as written and again as evidently intended, with a lemma about
  each half (see "## Findings").

Modules, in dependency order:

| module | what it holds |
|---|---|
| `Wrappers` | `Option`, `Result` |
| `ObjectIds` | the hex form of ObjectIDs |
| `Money` | `round` and `toFixed` |
| `Documents` | values, rows, filters, `$set` and upsert |
| `Aggregation` | pipeline stages |
| `Database` | collections, snapshots, the `Store` class, responses |
| `Models` | records and their stored documents |
| `Paging` | listing parameters and the one-bucket listing pipeline |
| `OrderController`, `OrderItemController`, `FoodController`, `MenuController`, `TableController`, `InvoiceController`, `UserController` | one module per controller file |

## Model

| member | source | states |
|---|---|---|
| Money.Trunc | controllers/foodController.go:129 | The `int(...)` conversion truncates toward zero: the result is no larger in magnitude than the input, is less than one below it in magnitude, and never changes sign. |
| Money.Round | controllers/foodController.go:128-130 | `round(num)`: x plus one half carrying the sign of x, truncated toward zero. Its meaning is stated by the lemmas below. |
| Money.ToFixed | controllers/foodController.go:132-135 | `toFixed(num, precision)`: x scaled by 10^p, rounded, and scaled back by 10^-p. Its meaning is stated by the lemmas below. |
| Money.RoundNonNegative | controllers/foodController.go:128-130 | For x >= 0, round(x) is floor(x + 0.5). |
| Money.RoundNegative | controllers/foodController.go:128-130 | For x < 0, round(x) is ceil(x - 0.5). |
| Money.RoundOdd | controllers/foodController.go:128-130 | round(-x) == -round(x). |
| Money.RoundError | controllers/foodController.go:128-130 | \|round(x) - x\| <= 1/2. |
| Money.RoundInteger | controllers/foodController.go:128-130 | round(n) == n for every integer n. |
| Money.NearestNonNegative | controllers/foodController.go:128-130 | For x >= 0, no integer is nearer to x than round(x), and a tie is rounded up. |
| Money.RoundHalfAwayFromZero | controllers/foodController.go:128-130 | round(x) is a nearest integer to x, and a tie is rounded away from zero. |
| Money.ToFixedDecimals | controllers/foodController.go:132-135 | toFixed(x, p) shifted by p decimals is the integer round(x * 10^p). |
| Money.ToFixedError | controllers/foodController.go:132-135 | \|toFixed(x, p) - x\| <= 0.5 * 10^-p. |
| Money.ToFixedOfUnits | controllers/foodController.go:132-135 | A value that already has at most p decimals is unchanged. |
| Money.ToFixedIdempotent | controllers/foodController.go:132-135 | toFixed(toFixed(x, p), p) == toFixed(x, p). |
| Money.ToFixedOdd | controllers/foodController.go:132-135 | toFixed(-x, p) == -toFixed(x, p). |
| Money.ToFixedExamples | controllers/foodController.go:132-135 | toFixed(2.345, 2) == 2.35 and toFixed(-2.345, 2) == -2.35. |
| ObjectIds.Hex | controllers/foodController.go:114 | The hex form of an id has two characters per byte, each a hex digit. |
| ObjectIds.UnhexHex | controllers/foodController.go:114 | The hex form of an id decodes back to the id. |
| ObjectIds.HexInjective | controllers/foodController.go:113-114 | Distinct ids have distinct hex forms, so each fresh id gives a fresh `*_id` string. |
| Documents.Get | controllers/orderItemController.go:93-98 | A one-step path reads the field exactly when it is present. |
| Documents.FindFirst | controllers/foodController.go:104 | FindOne returns the first document that passes the equality filter. No earlier document passes, and when none is found, none passes. |
| Documents.CountMatching | controllers/userController.go:116 | The count is at most the collection size, and is zero exactly when FindOne finds nothing. |
| Documents.Entry | controllers/foodController.go:151-161 | A `$set` entry is present exactly when its input is non-nil, and holds that input. |
| Documents.PatchKeysAppend | controllers/foodController.go:149-176 | The keys of appended patches are the union of their keys. |
| Documents.AppendEntry | controllers/foodController.go:149-176 | Appending the entry of a new key keeps the keys distinct, and adds the key exactly when its input is given. |
| Documents.AppendEntries | controllers/foodController.go:149-176 | The same, for two new and different keys. |
| Documents.SetFields | controllers/foodController.go:187-189 | `$set` adds exactly the patch's keys, and every field it does not name keeps its value. |
| Documents.SetFieldsValue | controllers/foodController.go:187-189 | When the keys are distinct, each pair of the patch ends up in the document. |
| Documents.SetFieldsLookup | controllers/foodController.go:187-189 | When the keys are distinct, any pair of the patch is what the document then holds. |
| Documents.UpsertOne | controllers/foodController.go:178-191 | With upsert, the first matching document becomes that document with the `$set` applied, and every other document is unchanged. When no document matches, one new document is appended: the filter field with the `$set` applied. |
| Documents.UpsertWrites | controllers/foodController.go:178-191 | An upsert that matches writes every pair of a patch with distinct keys into the matched document. |
| Aggregation.Match | controllers/orderItemController.go:77 | `$match` keeps exactly the documents whose field equals the value, and never more documents than it was given. |
| Aggregation.MatchAppend | controllers/orderItemController.go:77 | `$match` distributes over concatenation, so it keeps the input order. |
| Aggregation.MatchOne | controllers/orderItemController.go:77 | `$match` on one document keeps it exactly when it passes. |
| Aggregation.MatchAbsent | controllers/foodController.go:41 | A filter on a field that no document has, compared against null, keeps every document. |
| Aggregation.Lookup | controllers/orderItemController.go:78 | `$lookup` keeps the input length, and sets the `as` field of each document to the array of matching foreign documents. |
| Aggregation.Unwind | controllers/orderItemController.go:79 | `$unwind` with `preserveNullAndEmptyArrays` never yields fewer documents than it was given. |
| Aggregation.UnwindAppend | controllers/orderItemController.go:79 | `$unwind` distributes over concatenation. |
| Aggregation.LeftJoin | controllers/orderItemController.go:78-85 | A `$lookup` stage followed by `$unwind` of its output field with `preserveNullAndEmptyArrays`, as each of the three joins is written. |
| Aggregation.LeftJoinOne | controllers/orderItemController.go:78-79 | A lookup followed by an unwind yields one document per match. With no match it yields the document itself, without the field. |
| Aggregation.LeftJoinAppend | controllers/orderItemController.go:78-79 | The left join distributes over concatenation. |
| Aggregation.LeftJoinKeepsOne | controllers/orderItemController.go:78-79 | Joining one document yields at least one output, which agrees with it on every other field. |
| Aggregation.LeftJoinKeeps | controllers/orderItemController.go:78-85 | No input document is dropped. Each one has an output that agrees with it outside the joined field, and a document with no match is kept with that field absent. |
| Aggregation.LeftJoinOneFrom | controllers/orderItemController.go:78-79 | Each output of joining one document agrees with it outside the joined field. |
| Aggregation.LeftJoinFrom | controllers/orderItemController.go:78-85 | Every output document comes from an input document, and differs from it only in the joined field. |
| Aggregation.LeftJoinSingle | controllers/orderItemController.go:78-79 | With at most one match, a document yields exactly one output. |
| Aggregation.LeftJoinUnique | controllers/orderItemController.go:78-85 | With at most one match per document, the left join keeps the length and the order of its input. |
| Aggregation.SliceSeq | controllers/foodController.go:48 | `$slice: [xs, position, n]` takes at most n elements. From a non-negative position it takes the elements starting there, clipped to the array. |
| Aggregation.Eval | controllers/orderItemController.go:87-121 | The value of one projection entry: `1` copies the field, `0` omits it, `"$a.b"` reads the path and is omitted when the path is missing, `$multiply` gives the product of two numbers and null otherwise, and `$slice` slices an array and gives null otherwise. |
| Aggregation.Project | controllers/orderItemController.go:87-102 | `$project` on one document: `_id` passes through unless it is excluded, and every other output key is a key of the spec. |
| Aggregation.ComputedAt | controllers/orderItemController.go:87-102 | Each key of a projection with distinct keys holds the value its expression computes, when that value is defined. |
| Aggregation.ProjectAt | controllers/orderItemController.go:87-102 | The same for the projected document, including the rule that `_id` is kept unless it is excluded. |
| Aggregation.ProjectRef | controllers/orderItemController.go:93-98 | An entry `k: "$a.b"` is present exactly when the path exists, and then copies its value. |
| Aggregation.NotProjected | controllers/orderItemController.go:106-121 | A key that the projection does not name is absent from its output. |
| Aggregation.ProjectAll | controllers/orderItemController.go:87-102 | `$project` maps each document on its own, and keeps the number and order of documents. |
| Aggregation.AddTo | controllers/orderItemController.go:104 | Grouping one more document adds at most one bucket. |
| Aggregation.GroupByConstant | controllers/foodController.go:42 | When every document has the same key, there is one bucket holding all of them, or none for no documents. |
| Aggregation.GroupBy | controllers/orderItemController.go:104 | The buckets of `$group`: one per distinct key, in order of first appearance, each holding its documents in input order. Its meaning is stated by GroupByCorrect and the lemmas around it. |
| Aggregation.SelectMembers | controllers/orderItemController.go:104 | A bucket's candidates are exactly the documents with its key. |
| Aggregation.GroupByCorrect | controllers/orderItemController.go:104 | `$group` keys are distinct. They are exactly the keys of the input documents, and each bucket holds the documents with its key, in input order. |
| Aggregation.GroupBuckets | controllers/orderItemController.go:104 | Every bucket is non-empty, and holds exactly the documents with its key. |
| Aggregation.GroupPartition | controllers/orderItemController.go:104 | Every input document lands in exactly one bucket. |
| Aggregation.GroupBySizes | controllers/orderItemController.go:104 | The bucket sizes add up to the number of input documents. |
| Aggregation.GroupByTotals | controllers/orderItemController.go:104 | The buckets' `$sum`s add up to the input's sum, with missing and non-numeric values counting as 0. |
| Aggregation.GroupByEmpty | controllers/orderItemController.go:104 | Grouping yields no bucket exactly when it is given no document. |
| Aggregation.SumOfZero | controllers/orderItemController.go:104 | A `$sum` over documents whose amounts are all 0 is 0. |
| Aggregation.ColumnOfSizes | controllers/orderItemController.go:104 | A column that holds each bucket's size sums to the total size. |
| Aggregation.ColumnOfTotals | controllers/orderItemController.go:104 | A column that holds each bucket's `$sum` sums to the sum over all buckets. |
| Aggregation.BucketColumnTotal | controllers/orderItemController.go:104 | A column of per-bucket sums adds up to the sum over the grouped documents. |
| Aggregation.BucketColumnCount | controllers/orderItemController.go:104 | A column of per-bucket counts adds up to the number of grouped documents. |
| Aggregation.Accumulated | controllers/orderItemController.go:104 | A bucket document carries `_id` and the accumulator keys, and nothing else. |
| Aggregation.AccumulatedAt | controllers/orderItemController.go:104 | Each accumulator key holds its accumulator's value: `$sum` of a field, `$sum: 1`, or `$push: "$$ROOT"`. |
| Aggregation.AccumulatedId | controllers/orderItemController.go:104 | A bucket document's `_id` is the bucket key. |
| Aggregation.GroupStage | controllers/orderItemController.go:104 | `$group` yields one accumulated document per bucket, in bucket order. |
| Database.DbState.With | controllers/orderController.go:87 | Replacing one collection changes no other collection. |
| Database.DbState.FindOne | controllers/foodController.go:104-109 | FindOne finds a document exactly when one passes the filter, and the document found passes it. |
| Database.DbState.Count | controllers/userController.go:116-127 | The count is positive exactly when FindOne would find a document. |
| Database.DbState.Apply | controllers/foodController.go:184-191 | An UpdateOne with upsert changes only its target collection. |
| Database.ApplyInPlace | controllers/foodController.go:178-191 | An upsert whose filter matches patches the matched document in place. The collection keeps its size, every other document is unchanged, and each pair of a patch with distinct keys is written. |
| Database.InsertedManyBody | controllers/orderItemController.go:182-188 | The InsertMany result lists one inserted id per document. |
| Database.Store.InsertOne | controllers/foodController.go:118 | InsertOne appends the document to its collection and changes no other collection. |
| Database.Store.InsertMany | controllers/orderItemController.go:182-185 | InsertMany appends the batch in order. An empty batch is refused without a change. |
| Database.UpdatedBody | controllers/foodController.go:184-197 | The UpdateResult body holds `MatchedCount`, `ModifiedCount` and `UpsertedCount`. A document matched exactly when `MatchedCount` is 1, one was upserted exactly when `UpsertedCount` is 1, and a document is modified only when one matched. |
| Database.Store.UpdateOne | controllers/foodController.go:184-197 | UpdateOne applies the upsert, and answers whether a document matched, whether the patch changed it, or whether one was added. |
| Models.DecodeInvoice | controllers/invoiceController.go:56-60 | Decoding a document into an invoice fails exactly when a field of the record holds a value of another BSON type. Otherwise the ids are the stored strings, and a missing or null field gives the Go zero value. |
| Models.DecodeInvoiceMismatch | controllers/invoiceController.go:56-60 | A number stored under a string field of the invoice makes the decode fail, so GetInvoice answers the fetch error. |
| Models.DecodeInvoiceEmpty | controllers/invoiceController.go:56 | A document holding none of the invoice's fields decodes to the zero invoice. |
| Models.DecodeInvoiceDoc | controllers/invoiceController.go:56 | A stored invoice decodes, and back to the same record. |
| Paging.ListingParams | controllers/foodController.go:28-39 | `recordPerPage` is the parsed value when it is at least 1, else 10. `page` is the parsed value when it is at least 1, else 1. The page-derived `startIndex` is overwritten by the parsed `startIndex`, or by 0 when that does not parse. |
| Paging.MatchAllKeeps | controllers/foodController.go:41 | The match stage `{"": null}` keeps every stored document. |
| Paging.ListingGroup | controllers/foodController.go:42 | The constant-key group yields no bucket for no documents. Otherwise it yields one bucket with the document count and all the documents under `data`. |
| Paging.ListingPage | controllers/foodController.go:43-51 | The projection of that bucket is the listing page: `total_count` and the requested slice of the documents. |
| Paging.Listing | controllers/foodController.go:41-55 | The listing aggregation of GetFoods: the `{"": null}` match, the constant-key group with `total_count` and `data`, and the projection of the count and a `$slice` of the data. |
| Paging.ListingShape | controllers/foodController.go:41-55 | The listing yields nothing for an empty collection. Otherwise it yields exactly one document: the count and the requested page. |
| OrderController.Stamped | controllers/orderController.go:151-156 | A stamped order has the fresh id, its hex form as `order_id`, and the current time as creation and update time. It keeps its date and table. |
| OrderController.OrderItemOrderCreator | controllers/orderController.go:151-162 | Inserts the stamped order, ignores the insert's outcome, and returns the hex of the fresh id. |
| OrderController.CreateOrder | controllers/orderController.go:56-96 | A binding or validation failure is refused before any lookup. A given table id must name a stored table. The stamped order is inserted exactly when all of these checks pass, and otherwise nothing changes. |
| OrderController.OrderPatch | controllers/orderController.go:110-125 | The `$set` list of UpdateOrder: `("menu", table_id)` when a table id is given, then `updated_at`. |
| OrderController.OrderPatchShape | controllers/orderController.go:110-125 | The patch is `[("menu", table_id), updated_at]` when a table id is given, else `[updated_at]`. Its keys are distinct and the stamp comes last. |
| OrderController.UpdateOrder | controllers/orderController.go:98-149 | A given table id is looked up in the menu collection, and when it is missing nothing is written. Otherwise the patch is upserted on `order_id`. |
| OrderController.MenuDocHasNoTableId | controllers/orderController.go:113 | A stored menu has no `table_id` field. |
| OrderController.UpdateOrderNeverFindsTable | controllers/orderController.go:112-118 | Over a menu collection of menu documents, every UpdateOrder that names a table fails its lookup, so it answers "table was not found". |
| OrderController.CorrectedUpdateOrder | controllers/orderController.go:98-149 | As intended, the table id is looked up in the table collection, as CreateOrder does at `controllers/orderController.go:74`. The rest of the handler is unchanged. |
| OrderController.CorrectedUpdateOrderFindsTable | controllers/orderController.go:112-118 | Corrected, an order naming a stored table passes the lookup. |
| OrderItemController.ItemsByOrder | controllers/orderItemController.go:74-145 | The billing pipeline as the handler sends it: the match on `order_id`, the three joins, the flat projection, the group and the final projection. |
| OrderItemController.AccumulatorsDistinct | controllers/orderItemController.go:104 | The billing accumulators have distinct keys, and none of them is `_id`. |
| OrderItemController.FlatSpec | controllers/orderItemController.go:87-102 | The first projection has distinct keys, and computes `amount` from `$food_price`. |
| OrderItemController.FinalPasses | controllers/orderItemController.go:106-121 | The final projection passes `payment_due`, `total_count` and `order_items` through, and reads `total_number` from `$_id.table_number`. |
| OrderItemController.FinalLacksTableNumber | controllers/orderItemController.go:106-121 | The final projection has no `table_number` entry. |
| OrderItemController.PassThrough | controllers/orderItemController.go:110-114 | An entry `k: 1` of the final projection copies the bucket's k. |
| OrderItemController.BillingRow | controllers/orderItemController.go:104-121 | Each bill row describes one bucket: its key under `_id`, the sum of its amounts as `payment_due`, its size as `total_count`, and its rows as `order_items`. |
| OrderItemController.BillingDues | controllers/orderItemController.go:104-110 | The `payment_due` column holds each bucket's sum of amounts. |
| OrderItemController.BillingSizes | controllers/orderItemController.go:104-111 | The `total_count` column holds each bucket's size. |
| OrderItemController.BillingCounts | controllers/orderItemController.go:104-111 | The `total_count`s add up to the number of joined order items. |
| OrderItemController.BillingTotals | controllers/orderItemController.go:91-110 | The `payment_due`s add up to the sum of the flat rows' amounts. |
| OrderItemController.BillingEmpty | controllers/orderItemController.go:104-134 | The billing stages yield no row exactly when no row enters them. |
| OrderItemController.LeftJoinNil | controllers/orderItemController.go:78-85 | The left join of no documents is empty. |
| OrderItemController.JoinedCount | controllers/orderItemController.go:77-85 | The joins never drop a matched order item (they can multiply one), and no matched item means no joined row. |
| OrderItemController.ItemsByOrderEmpty | controllers/orderItemController.go:74-145 | ItemsByOrder is empty exactly when no order item has the order id. |
| OrderItemController.ItemsByOrderCounts | controllers/orderItemController.go:104-111 | The total counts of ItemsByOrder add up to the number of joined items. |
| OrderItemController.JoinedKeepsField | controllers/orderItemController.go:78-85 | A field of an order item that none of the joins overwrites survives into the joined row unchanged. |
| OrderItemController.FlatAmount | controllers/orderItemController.go:91 | A flat row's amount is the joined row's `food_price`. |
| OrderItemController.ItemsByOrderTotals | controllers/orderItemController.go:91-110 | The `payment_due`s of ItemsByOrder add up to the sum of the joined rows' `food_price`. |
| OrderItemController.JoinedFoodPrice | controllers/orderItemController.go:78-91 | A joined row's `food_price` is the one the order item itself carries. No stage supplies one. |
| OrderItemController.PaymentDueIsZero | controllers/orderItemController.go:91-110 | As written, when no stored order item carries a `food_price` (or each is 0), every bill row has `payment_due` 0, and so does their sum. |
| OrderItemController.OrderItemDocLacksFoodPrice | controllers/orderItemController.go:165-178 | An order item as stored has no `food_price` field. |
| OrderItemController.StoredItemsDueNothing | controllers/orderItemController.go:91-110 | As written, when every stored order item is a stored order-item document, every bill row has `payment_due` 0. |
| OrderItemController.GetTableNumber | controllers/orderItemController.go:112 | `$_id.table_number` reads the table number of the bucket key. |
| OrderItemController.BillingKeyField | controllers/orderItemController.go:112 | An entry `k: "$_id.table_number"` carries the bucket's table number under k, when the key has one. |
| OrderItemController.ItemsByOrderTableNumber | controllers/orderItemController.go:106-121 | As written, no bill row has a `table_number` field. The table number appears under `total_number`, exactly when the bucket key has one. |
| OrderItemController.CorrectedFlatSpec | controllers/orderItemController.go:91 | The corrected first projection has distinct keys, and computes `amount` as `$multiply` of `$unit_price` and `$quantity`. |
| OrderItemController.CorrectedFinalPasses | controllers/orderItemController.go:112 | The corrected final projection passes the bucket fields through, and holds `table_number: "$_id.table_number"`. |
| OrderItemController.CorrectedFlatAmount | controllers/orderItemController.go:91 | A corrected flat row's amount is the line amount of its joined row: unit price times quantity, or 0 unless both are numbers. |
| OrderItemController.SumOfLines | controllers/orderItemController.go:104 | Rows whose amounts are the line amounts of other rows have `$sum` equal to those rows' line total. |
| OrderItemController.CorrectedTotals | controllers/orderItemController.go:91-110 | With the correction, the `payment_due`s add up to the sum of unit price times quantity over the joined items. |
| OrderItemController.UniqueJoinedItems | controllers/orderItemController.go:77-85 | When each food, order and table lookup finds at most one document, the joined rows are the order's items, one each and in order, with the same line amounts. |
| OrderItemController.CorrectedTotalsOfOrder | controllers/orderItemController.go:77-110 | With the correction and unique lookups, the `payment_due`s add up to unit price times quantity over exactly the order's items. |
| OrderItemController.ItemLineAmount | controllers/orderItemController.go:165-178 | The line amount of a stored order item is its unit price times its quantity, when both are present and the quantity is a number, and 0 otherwise. |
| OrderItemController.JoinedLineAmount | controllers/orderItemController.go:77-85 | A joined row has the line amount of the order item of the order it came from. |
| OrderItemController.CorrectedTableNumber | controllers/orderItemController.go:112 | With the correction, each bill row carries its bucket's table number under `table_number`. |
| OrderItemController.Placed | controllers/orderItemController.go:165-178 | A placed item has the new order id, a fresh id with its hex form as `order_item_id`, both stamps, and its unit price rounded by toFixed(·, 2). Its quantity and food are kept. |
| OrderItemController.PlacedDocs | controllers/orderItemController.go:164-179 | The batch has one placed document per item, in request order. |
| OrderItemController.FirstRefused | controllers/orderItemController.go:164-178 | The index of the first item that fails validation (after its order id is set) or has no unit price. All earlier items are acceptable, and there is none when every item is acceptable. |
| OrderItemController.PrepareBatch | controllers/orderItemController.go:160-180 | The loop yields the whole batch exactly when no item is refused. Otherwise it stops at the first refused item, with its validation error, or with a crash for a nil unit price. |
| OrderItemController.CreateOrderItem | controllers/orderItemController.go:147-190 | Once the body binds, the parent order is inserted whatever follows. The items are inserted, all of them in request order, exactly when every item is accepted and the batch is not empty. An empty batch crashes. |
| OrderItemController.OrderItemPatch | controllers/orderItemController.go:198-213 | The `$set` list built from an item: its non-nil `unit_price`, `quantity` and `food_id`, then `updated_at`. |
| OrderItemController.OrderItemPatchShape | controllers/orderItemController.go:198-213 | Each of `unit_price`, `quantity` and `food_id` is present exactly when given, with its value. The keys are distinct, and the stamp is included and comes last. |
| OrderItemController.UpdateOrderItemOnlyStamps | controllers/orderItemController.go:196-213 | As written, the patch is exactly `[updated_at]`. |
| OrderItemController.UpdateOrderItem | controllers/orderItemController.go:192-237 | As written, the handler upserts the stamp alone on `order_item_id`, whatever the request says. |
| OrderItemController.CorrectedUpdateOrderItem | controllers/orderItemController.go:192-237 | As intended, it binds the body (refusing a malformed one) and upserts the body's patch on `order_item_id`. |
| FoodController.GetFoods | controllers/foodController.go:24-68 | The answer is the single listing document: the food count and the requested page of foods under `food_items`, with the defaulted parameters. An empty collection crashes on indexing `[0]`. |
| FoodController.StoredFood | controllers/foodController.go:111-116 | The stored food has a fresh id, its hex form as `food_id`, both stamps, and the price rounded by toFixed(·, 2). Its other fields are kept. |
| FoodController.CreateFood | controllers/foodController.go:87-126 | Binding and validation failures come first. Then the named menu must exist (a nil menu id matches no menu). A nil price crashes. The food is inserted exactly when every check passes, and otherwise nothing changes. |
| FoodController.FoodFieldsKeys | controllers/foodController.go:151-161 | `name`, `price` and `food_image` are each present exactly when non-nil, with distinct keys. |
| FoodController.FoodPatch | controllers/foodController.go:149-176 | The `$set` list of UpdateFood: non-nil `name`, `price` and `food_image`, then `menu` holding the price when a menu id is given, then `updated_at`. |
| FoodController.FoodPatchKeys | controllers/foodController.go:149-176 | The patch has distinct keys. It holds exactly: `name`, `price` and `food_image` when given, `menu` when a menu id is given, and `updated_at` always. |
| FoodController.FoodPatchValues | controllers/foodController.go:151-176 | The values are as sent, with the price not rounded. `menu` holds the price. The stamp comes last. |
| FoodController.UpdateFood | controllers/foodController.go:137-199 | A malformed body, or a given menu id that names no menu, writes nothing. Otherwise the patch is upserted on `food_id`. |
| MenuController.InTimeSpan | controllers/menuController.go:147-149 | inTimeSpan holds when the span starts after the current time and ends after its start. Its contract adds that an accepted span also ends after the current time. |
| MenuController.InTimeSpanIgnoresCheck | controllers/menuController.go:147-149 | The third argument takes no part in the decision. |
| MenuController.StoredMenu | controllers/menuController.go:72-75 | The stored menu has a fresh id, its hex form as `menu_id`, and both stamps. Its other fields are kept. |
| MenuController.CreateMenu | controllers/menuController.go:56-87 | A binding or validation failure is refused before stamping and before any store call. Otherwise the stamped menu is inserted. |
| MenuController.NonEmpty | controllers/menuController.go:113-118 | The entry of a string is present exactly when the string is non-empty. |
| MenuController.MenuDatesKeys | controllers/menuController.go:110-111 | The patch opens with the keys `start_date` and `end_date`. |
| MenuController.MenuPatch | controllers/menuController.go:110-121 | The `$set` list of UpdateMenu: `start_date`, `end_date`, then `name` and `category` when non-empty, then `updated_at`. |
| MenuController.MenuPatchKeys | controllers/menuController.go:110-121 | The patch has distinct keys: both dates, `name` and `category` exactly when non-empty, and `updated_at`. |
| MenuController.MenuPatchOrder | controllers/menuController.go:110-121 | The patch has `start_date` then `end_date` first, and `updated_at` last. |
| MenuController.UpdateMenu | controllers/menuController.go:89-145 | Without both dates the handler neither writes nor answers. A span that fails inTimeSpan is refused without an update. Otherwise the patch is upserted on `menu_id`. |
| MenuController.UpdateMenuWrites | controllers/menuController.go:103-137 | An accepted update of a stored menu writes both dates into that menu in place, and no other menu changes. The stored span then starts after the time of the update and ends after it starts. |
| TableController.GetTable | controllers/tableController.go:39-54 | As written, the table id parameter is matched against the `order_id` field of the table collection, and an error is returned exactly when nothing matches. |
| TableController.TableDocHasNoOrderId | controllers/tableController.go:45 | A stored table document has no `order_id` field. |
| TableController.GetTableNeverFinds | controllers/tableController.go:45 | So, as written, GetTable finds no stored table, whatever id is asked for. |
| TableController.CorrectedGetTable | controllers/tableController.go:39-54 | As intended, the handler looks the table up by `table_id`. |
| TableController.CreatedTableFound | controllers/tableController.go:74-77 | With the correction, a table just created can be read back by its id. |
| TableController.StoredTable | controllers/tableController.go:72-75 | The stored table has a fresh id, its hex form as `table_id`, and both stamps. Its other fields are kept. |
| TableController.CreateTable | controllers/tableController.go:56-86 | A binding or validation failure is refused before stamping and before any store call. Otherwise the stamped table is inserted. |
| TableController.TablePatch | controllers/tableController.go:99-110 | The `$set` list of UpdateTable: non-nil `number_of_guests` and `table_number`, then `updated_at`. |
| TableController.TablePatchShape | controllers/tableController.go:99-110 | `number_of_guests` and `table_number` are present exactly when given, with distinct keys, and the stamp comes last. |
| TableController.UpdateTable | controllers/tableController.go:88-134 | As written, the patch is upserted on `table_id`, but in the order collection. |
| TableController.UpdateTableMissesTables | controllers/tableController.go:113-125 | So, as written, the table collection is unchanged, and the order collection receives the patch. |
| TableController.CorrectedUpdateTable | controllers/tableController.go:88-134 | As intended, the same patch and filter are applied to the table collection. |
| TableController.CorrectedUpdateTableWrites | controllers/tableController.go:105-124 | With the correction, the stored table with the id receives the given table number, and the orders are untouched. |
| TableController.TableNumberEntry | controllers/tableController.go:105-107 | A given table number is one of the patch's pairs. |
| InvoiceController.FieldOrNull | controllers/invoiceController.go:74-76 | Reading a missing key of a result row gives null. |
| InvoiceController.InvoiceViewOf | controllers/invoiceController.go:63-76 | The view copies the invoice id, order id, due date and status. The payment method is the stored one, or the literal `"null"` when there is none. `payment_due`, `table_number` and `order_items` come from the bill row. |
| InvoiceController.ComposeView | controllers/invoiceController.go:63-76 | Filling the view field by field, with the default payment method overwritten, gives that view. |
| InvoiceController.GetInvoice | controllers/invoiceController.go:50-80 | An unknown invoice id is an error. An empty bill crashes on indexing `[0]`. Otherwise the answer is the view of the invoice and row 0 of its order's bill. |
| InvoiceController.InvoiceViewOfBill | controllers/invoiceController.go:65-76 | As written, the view shows the first bucket's amount due and items, but its table number is always null. |
| InvoiceController.CorrectedGetInvoice | controllers/invoiceController.go:50-80 | As intended, GetInvoice reads the corrected bill. |
| InvoiceController.CorrectedViewTableNumber | controllers/invoiceController.go:75 | With the correction, the view shows the bucket's table number. |
| InvoiceController.NewInvoice | controllers/invoiceController.go:100-109 | The stored invoice has status `PENDING` (set because it is nil), a due date one day after creation, both stamps, a fresh id with its hex form as `invoice_id`, and an empty order id. |
| InvoiceController.CreateInvoice | controllers/invoiceController.go:82-126 | A binding failure is refused. Then the order is looked up by the empty invoice's order id, and a miss is an error. Validation runs after stamping. The invoice is inserted exactly when all of these pass, and otherwise nothing changes. |
| InvoiceController.CreatedInvoiceOrderless | controllers/invoiceController.go:88-93 | As written, a created invoice refers to no order: its `order_id` is the empty string. |
| InvoiceController.CorrectedCreateInvoice | controllers/invoiceController.go:82-126 | As intended, the bound order's id is looked up and recorded in the invoice. |
| InvoiceController.CorrectedInvoiceHasOrder | controllers/invoiceController.go:93 | With the correction, the stored invoice names an order that exists. |
| InvoiceController.InvoicePatch | controllers/invoiceController.go:139-161 | The `$set` list of UpdateInvoice: non-nil `payment_method` and `payment_status`, then `updated_at`. |
| InvoiceController.InvoicePatchShape | controllers/invoiceController.go:139-161 | `payment_method` and `payment_status` are present exactly when given, so the later `PENDING` default never enters the patch. The keys are distinct and the stamp comes last. |
| InvoiceController.UpdateInvoice | controllers/invoiceController.go:128-179 | As written, the patch is upserted on the filter key `inovice_id`. |
| InvoiceController.InvoiceDocLacksMisspeltKey | controllers/invoiceController.go:153 | A stored invoice document has no `inovice_id` field. |
| InvoiceController.UpdateInvoiceNeverMatches | controllers/invoiceController.go:153-170 | So, as written, an update leaves every stored invoice as it was and appends a new document. |
| InvoiceController.CorrectedUpdateInvoice | controllers/invoiceController.go:128-179 | As intended, the same patch is upserted on `invoice_id`. |
| InvoiceController.CorrectedUpdateInvoiceWrites | controllers/invoiceController.go:145-170 | With the correction, the invoice with the id is updated in place and receives the new payment status. |
| InvoiceController.PaymentStatusEntry | controllers/invoiceController.go:145-147 | A given payment status is one of the patch's pairs. |
| UserController.GetUsers | controllers/userController.go:22-65 | The parameters get the same defaults as in GetFoods. The answer is row 0 of the match-and-project aggregation, and an empty result crashes. |
| UserController.UserListing | controllers/userController.go:39-48 | The aggregation of GetUsers as written: the `{"": null}` match, then the listing projection applied to each user document, with no group stage. |
| UserController.UserItemsOnly | controllers/userController.go:40-48 | A document without `total_count` and `data` projects to `{"user_items": null}` alone. |
| UserController.GetUsersAsWritten | controllers/userController.go:39-63 | So, as written, over stored users the aggregation yields one `{"user_items": null}` per user, with neither the count nor the users. |
| UserController.CorrectedGetUsers | controllers/userController.go:39-63 | As intended, with the group stage of GetFoods, the answer is the user count and the requested page of users. |
| UserController.StoredUser | controllers/userController.go:112-138 | The stored user has the hash in place of the password, both stamps, a fresh id with its hex form as `user_id`, and tokens generated from email, names and id. |
| UserController.SignUp | controllers/userController.go:84-150 | Binding and validation failures come first. A nil password crashes at hashing. The request is refused as a duplicate exactly when the phone count is positive; the email count plays no part. Nil email or names crash at token generation. Otherwise the user is inserted. |
| UserController.SignedUpPhoneTaken | controllers/userController.go:116-127 | Once a user is stored, any later sign-up with the same phone number, nil included, is refused as a duplicate. |
| UserController.StoredPasswordIsHash | controllers/userController.go:112-113 | The stored document holds the hash of the password, never the password as sent, and the hex id as `user_id`. |
| UserController.VerifyPassword | controllers/userController.go:199-210 | The result is (true, "") when the stored hash matches the given password, and (false, "login or password is incorrect") otherwise. |

## Findings

| source | as written | input that shows it | evidently intended | confidence | as-written member | corrected member |
|---|---|---|---|---|---|---|
| controllers/orderItemController.go:91 | `amount` is read from `$food_price`, a field no join supplies and no stored order item has | any order whose items were stored by CreateOrderItem: every `payment_due` is 0 | each line amount is the item's `unit_price` times its `quantity` (`$multiply: ["$unit_price", "$quantity"]`). These are the two fields the order item itself stores, so when each lookup finds at most one document the sum is the order's total | high (not executed) | OrderItemController.StoredItemsDueNothing | OrderItemController.CorrectedTotalsOfOrder |
| controllers/orderItemController.go:112 | the table number is projected as `total_number`, but GetInvoice reads `table_number` | any invoice whose bill is not empty: the view's `Table_number` is null | project it as `table_number` | high (not executed) | InvoiceController.InvoiceViewOfBill | InvoiceController.CorrectedViewTableNumber |
| controllers/orderItemController.go:196-213 | UpdateOrderItem never binds the request body | a request setting `unit_price`: only `updated_at` is written | bind the body, then build the patch from it | high (not executed) | OrderItemController.UpdateOrderItemOnlyStamps | OrderItemController.CorrectedUpdateOrderItem |
| controllers/invoiceController.go:153 | the update filter key is `inovice_id` | an update of a stored invoice: that invoice is unchanged and a new document is appended | filter on `invoice_id` | high (not executed) | InvoiceController.UpdateInvoiceNeverMatches | InvoiceController.CorrectedUpdateInvoiceWrites |
| controllers/tableController.go:118 | UpdateTable updates the order collection | an update of a stored table: the table collection is unchanged | update the table collection | high (not executed) | TableController.UpdateTableMissesTables | TableController.CorrectedUpdateTableWrites |
| controllers/tableController.go:45 | GetTable filters the table collection on `order_id` | any table created by CreateTable: it is never found | filter on `table_id` | high (not executed) | TableController.GetTableNeverFinds | TableController.CreatedTableFound |
| controllers/invoiceController.go:93 | CreateInvoice looks up the zero invoice's `Order_id` (""), never the bound order's | an order with a non-empty id: the invoice stores `order_id` "" | look up and record the bound order's id | high (not executed) | InvoiceController.CreatedInvoiceOrderless | InvoiceController.CorrectedInvoiceHasOrder |
| controllers/orderController.go:113 | UpdateOrder looks the table id up in the menu collection | any UpdateOrder naming a table, over stored menus: it answers "table was not found" and writes nothing | look the table up in the table collection, as CreateOrder does | high (not executed) | OrderController.UpdateOrderNeverFindsTable | OrderController.CorrectedUpdateOrderFindsTable |
| controllers/userController.go:39-52 | GetUsers has no `$group` stage before its project stage | any non-empty user collection: the answer is `{"user_items": null}` | group like GetFoods, to answer the count and a page of users | high (not executed) | UserController.GetUsersAsWritten | UserController.CorrectedGetUsers |

## Left out

- The HTTP layer is not modelled: Gin routing, status codes and JSON encoding. A Gin bind failure is the `Failure` case of the body.
- Route parameter names are not modelled. Some differ from what the handlers read, for example `routes/orderItemRouter.go:10` and `:13` `:orderItem_id` against `order_item_id`, and `routes/invoiceRouter.go:12` `:invooice_id` against `invoice_id` (so the handler reads an empty id). The handlers take the parameter as an argument.
- MongoDB driver errors, cursors, context timeouts, and the error branches that only a failing driver call can reach are not modelled, for example "food update failed" and "menu item was not created". Store calls always succeed, except FindOne not matching and InsertMany on an empty batch.
- The decoding of found documents into Go structs is modelled only for invoices. The other lookups (`controllers/foodController.go:104`, `:164`; `controllers/orderController.go:74`, `:113`; `controllers/invoiceController.go:93`) count any found document as success, whereas Go's `Decode` would also fail on a field of the wrong BSON type. GetTable answers with the stored document as found.
- Models.DecodeInvoice: the driver's lenient conversions are not modelled. It would also decode an ObjectID into a string field as its hex form, and an integer or a string into a time field. The model accepts only a string, a time or an ObjectID of the field's own kind, or null.
- GetFoods and GetUsers ignore an Aggregate error and then dereference the result. That path is not modelled.
- Exact MongoDB edge semantics are not modelled, such as projection-validity rules (`{"id", 0}` mixed with inclusions) and the `$unwind` of non-array values. Each stage has its per-document meaning; two `$project` entries of the same key do not occur.
- Money.Round, Money.ToFixed: float64 arithmetic, `math.Pow` rounding and 64-bit `int` overflow are not modelled. They are exact over `real` and `int`.
- IEEE-754 values in documents are not modelled: all numbers are exact reals.
- CreateInvoice: `AddDate(0, 0, 1)` is modelled as exactly 86400 seconds, so days of a daylight-saving change are not modelled. The RFC 3339 round trip of `time.Now()` is a whole-second clock value.
- bcrypt hashing and comparison, its cost factor of 14, and token generation (the unseen `helpers` package) are parameters. A hashing panic is not modelled.
- `validate.Struct` is a parameter returning an optional error message.
- `strconv.Atoi` is not modelled: the query parameters arrive already parsed, with an unparseable value given as None.
- ObjectID generation and the clock are inputs. Each CreateOrderItem item takes its id from a function of its position.
- The handlers that list or read without logic of their own are not modelled: GetMenus, GetMenu, GetTables, GetOrders, GetOrder, GetOrderItems, GetOrderItem, GetOrderItemsByOrder, GetInvoices, GetUser, GetFood. Neither are Login and the middleware in `middleware/authMiddleware.go`, which wrap the unseen token helpers.
- The order of Go's deferred `cancel` calls and concurrency are not modelled; the handlers do not coordinate.
- The record structs are not part of this model. The document keys of the seven records in `Models` are reconstructed from the keys the handlers filter on, set and project. TableDocHasNoOrderId, InvoiceDocLacksMisspeltKey, OrderItemDocLacksFoodPrice and GetUsersAsWritten depend on those keys.
- The Go type of an order item's quantity is not visible, so it is a raw value. The corrected line amount counts a missing or null quantity as 0, as `$sum` counts a null product. A quantity of another type, such as a string, makes `$multiply` fail the whole aggregation; the model counts it as 0 as well.
- OrderItemController.CorrectedTotals: the sum is over the joined rows, which are the order's items only when each lookup finds at most one document. CorrectedTotalsOfOrder states the sum over the order's items under that condition. Duplicate food, order or table ids multiply rows and are not ruled out.
- Documents.UpsertOne: the `_id` the server gives an upserted document is not modelled. The `UpdateResult` body has no `UpsertedID`.
- Each handler is given one clock value `now`. The source calls `time.Now()` again for each stamp (`controllers/orderItemController.go:158`, `:175-176`; `controllers/orderController.go:153-154`), so its stamps within one request can differ by the time between the calls.
- `$group` emits its buckets in order of first appearance, which MongoDB does not promise. GetInvoice's row `[0]` (`controllers/invoiceController.go:74`) relies on that order only when an order's items fall into more than one bucket.
