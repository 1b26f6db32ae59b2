# Parts-order intake: a Dafny model of its data and workflows

The application takes parts requests from customers through an order form and
shows the submitted orders to staff on an admin dashboard. This project models
the logic under the user interface:

- **the relational schema** (`schema.dfy`, module `Schema`). There are four tables:
  `orders`, `vehicles`, `order_parts` and `order_images`. Each table's rows are
  a datatype: nullable columns are `Option`s and the status is an enumeration.
  Omitted columns take their declared defaults (status `pending`, quantity 1).
  The whole database is a `Tables` value. It holds the rows of each table in
  storage order and each table's AUTOINCREMENT counter. `WellFormed` states the
  constraints the engine keeps:
  - distinct ids in every table, all within the counter;
  - at most one vehicle per order;
  - every vehicle and part points at an existing order;
  - every image points at an existing part.

  Inserts and the cascading deletes are functions on `Tables`. Lemmas show that
  they keep, or exactly characterise, these constraints.
- **the database handle** (`storage.dfy`, class `Storage.Database`). The tables
  and counters are fields that the methods reassign in place: inserts, cascading
  deletes, transaction rollback and the two full-table selects. Each insert and
  delete states its new contents as one of the `Schema` functions applied to the
  old contents, and keeps `Valid()`. `Rollback` instead sets the contents back to
  a saved snapshot; it promises nothing about `Valid()` itself, which holds again
  because the snapshot was taken from a valid state.
- **the order form's validator** (`order_form.dfy`, module `OrderForm`).
  `Valid` is FormSchema's per-key rules. `FieldErrors` reports every failing
  field, in declaration order. The module also holds the form's initial values.
- **order submission** (`order_submit.dfy`, method
  `OrderSubmit.SubmitOrderToDb`). It works on a `Database`:
  1. It inserts the order and reads back its id.
  2. If no id (or a zero id) comes back, it throws "Failed to create order" and
     rolls back.
  3. Otherwise it inserts the vehicle and the single part under that id.

  The committed state is the function `Committed`. Lemmas about that function
  give the invariants, the rows added and their field values.
- **the dashboard loader** (`dashboard.dfy`, module `Dashboard`). It joins orders
  with their parts. Each part renders as `name (Nx)`; the parts are joined with
  `", "`, and an order without parts shows `"No parts"`. The module also has the
  status badge table (`statusConfig`).

Outside inputs are parameters:
- `now` is the value that the timestamp columns' default stores;
- whether the database driver reports the new order's id is `reportsId`.

One consequence of the validator is worth stating. The schema declares the
mechanic email as an optional email (src/routes/order/index.tsx:34). The form
always sends that key, and it starts blank (src/routes/order/index.tsx:136). A
blank string is not an address, so a request that leaves the field blank is
rejected on that field alone, while the same request without the key is accepted
(`OrderForm.SampleRequestVerdicts`). It follows that, on every accepted form, the
`|| null` conversion of the mechanic email never meets a blank value
(`OrderSubmit.CommittedRows`).

## Model

| member | source | states |
|---|---|---|
| `Seqs.Filter` | src/routes/admin/dashboard/index.tsx:91 | the result holds exactly the elements that pass the test, never more than the input |
| `Text.NatToString` | src/routes/admin/dashboard/index.tsx:93 | the decimal text of a number is non-empty, all digits, and starts with 0 only for 0 |
| `Text.IntToString` | src/routes/admin/dashboard/index.tsx:93 | a quantity's text is digits, with a leading minus for a negative value |
| `Text.IntToStringValue` | src/routes/admin/dashboard/index.tsx:93 | the rendered quantity spells its value: the digits read back as the number, after a minus sign for a negative one |
| `Text.DigitsValueOfNatToString` | src/routes/order/index.tsx:104 | reading the decimal text of n back gives n |
| `Text.NatToStringOfDigitsValue` | src/routes/order/index.tsx:104 | a digit string without a leading zero is the text of its own value |
| `Text.JoinEndsWithLast` | src/routes/admin/dashboard/index.tsx:92-94 | a joined text ends with its last item |
| `Schema.FreshOrderId` | src/server/db/schema/schema.ts:6 | the next generated order id is not used by any order, vehicle or part |
| `Schema.AddOrderWellFormed` | src/server/db/schema/schema.ts:5-23 | inserting an order keeps every constraint, and the new id exists afterwards |
| `Schema.AddVehicleWellFormed` | src/server/db/schema/schema.ts:25-36 | inserting a vehicle keeps the constraints if and only if its order exists and has no vehicle yet |
| `Schema.AddPartWellFormed` | src/server/db/schema/schema.ts:38-47 | inserting a part keeps the constraints if and only if its order exists |
| `Schema.DeleteOrderCascadeSound` | src/server/db/schema/schema.ts:27-53 | deleting an order keeps the constraints. No vehicle, part, or image of one of its parts remains. Every unrelated row is kept |
| `Schema.DeleteMissingOrder` | src/server/db/schema/schema.ts:27-42 | deleting an order id that does not exist changes nothing |
| `Schema.DeleteOrderCascadeComplete` | src/server/db/schema/schema.ts:27-42 | after a cascading delete every remaining order still has its vehicle and a part |
| `Schema.DeletePartCascadeSound` | src/server/db/schema/schema.ts:49-53 | deleting a part keeps the constraints and removes the part and all its images. Every other part and image is kept |
| `Storage.Database.SelectOrders` | src/routes/admin/dashboard/index.tsx:84 | the select returns the orders table as stored |
| `Storage.Database.SelectParts` | src/routes/admin/dashboard/index.tsx:87 | the select returns the order_parts table as stored |
| `Storage.Database.InsertOrder` | src/routes/order/index.tsx:78-93 | the table grows by the row built from the supplied values under the next counter value. The id is reported back only when the driver does. Constraints stay valid |
| `Storage.Database.InsertVehicle` | src/server/db/schema/schema.ts:25-36 | the vehicles table grows by one row under the next counter value; constraints stay valid |
| `Storage.Database.InsertPart` | src/server/db/schema/schema.ts:38-47 | the order_parts table grows by one row, with the quantity default applied; constraints stay valid |
| `Storage.Database.DeleteOrder` | src/server/db/schema/schema.ts:27-53 | the contents become the cascading delete of the order; constraints stay valid |
| `Storage.Database.DeletePart` | src/server/db/schema/schema.ts:49-53 | the contents become the cascading delete of the part; constraints stay valid |
| `Storage.Database.Rollback` | src/routes/order/index.tsx:77-98 | every table and counter returns to the contents saved when the transaction began |
| `OrderForm.ValidIffEveryFieldOk` | src/routes/order/index.tsx:19-45 | the form is accepted exactly when every field passes its own rule |
| `OrderForm.EveryFieldChecked` | src/routes/order/index.tsx:19-45 | every ruled field is checked, once, in declaration order |
| `OrderForm.FieldErrors` | src/routes/order/index.tsx:19-45 | a field is reported if and only if its rule fails. There are no errors exactly when the form is valid. Errors come in declaration order without repeats |
| `OrderForm.EmptyRequiredTextRejected` | src/routes/order/index.tsx:21-38 | an empty name, brand, model, mechanic name, part name or part description is reported and the form is rejected |
| `OrderForm.ValidFormats` | src/routes/order/index.tsx:23-39 | an accepted form has numeric phones of 8+ characters, a 4+ digit year and an alphanumeric VIN. Its quantity is a positive integer. Its mechanic email is absent or an address, never blank |
| `OrderForm.OptionalFieldsIgnored` | src/routes/order/index.tsx:40-44 | part information, engine size and comments never change the verdict or the errors |
| `OrderForm.DefaultFormValuesRejected` | src/routes/order/index.tsx:124-145 | the initial form is rejected on every field except the VIN and the quantity |
| `OrderForm.SingleFailure` | src/routes/order/index.tsx:19-45 | a form that breaks exactly one rule is reported with that field alone |
| `OrderForm.SampleRequestRules` | src/routes/order/index.tsx:19-45 | a complete request with a blank mechanic email passes every rule except the mechanic email's |
| `OrderForm.SampleRequestVerdicts` | src/routes/order/index.tsx:34 | a full request with a blank mechanic email fails on that field only; without the key it is accepted |
| `OrderSubmit.YearTextKeepsYear` | src/routes/order/index.tsx:104 | the stored year is digits with the submitted year's value. It is the submitted text itself unless that starts with a zero |
| `OrderSubmit.CommittedWellFormed` | src/routes/order/index.tsx:77-117 | a committed submission keeps every schema constraint |
| `OrderSubmit.CommittedRows` | src/routes/order/index.tsx:78-116 | one new row in each of orders, vehicles and order_parts under a fresh id; old rows and images are unchanged. The order is pending, admin notes are null and blank comments are null. The vehicle has a null VIN when blank and the submitted VIN otherwise. The part has the requested quantity |
| `OrderSubmit.CommittedComplete` | src/routes/order/index.tsx:77-117 | after a commit every order still has its vehicle and a part: no half-written order is visible |
| `OrderSubmit.UnstoredFieldsIgnored` | src/routes/order/index.tsx:78-114 | engine size and other part information never reach any table |
| `OrderSubmit.SubmitOrderToDb` | src/routes/order/index.tsx:66-120 | it succeeds exactly when the driver returns the id. On success the result is the new order id and the database is the committed state. On failure the error is "Failed to create order" and the database is unchanged. Constraints hold either way |
| `Dashboard.RenderParts` | src/routes/admin/dashboard/index.tsx:93 | one rendering per part, position by position |
| `Dashboard.ListOrders` | src/routes/admin/dashboard/index.tsx:90-104 | exactly one row per fetched order, in fetch order, each the projection of that order with its own parts |
| `Dashboard.RenderPartShape` | src/routes/admin/dashboard/index.tsx:93 | a rendered part is non-empty and ends in `x)` |
| `Dashboard.NoPartsIffEmpty` | src/routes/admin/dashboard/index.tsx:92-94 | the parts cell is "No parts" if and only if the order has no parts; otherwise it is the joined renderings |
| `Dashboard.SinglePartSummary` | src/routes/admin/dashboard/index.tsx:92-94 | the parts cell of one part is that part's rendering |
| `Dashboard.SummaryExamples` | src/routes/admin/dashboard/index.tsx:92-94 | examples: "Brake Pad (2x)", "A (1x), B (3x)" and "No parts" |
| `Dashboard.PartsOfExactly` | src/routes/admin/dashboard/index.tsx:91 | an order's parts are exactly the fetched parts with its id, and the selection keeps fetch order |
| `Dashboard.ListedRowsCopyOrders` | src/routes/admin/dashboard/index.tsx:96-103 | id, customer name, mechanic name, status and creation time are copied from the order. The cell is "No parts" exactly when no fetched part has the order's id |
| `Dashboard.ListOrdersAppend` | src/routes/admin/dashboard/index.tsx:90 | listing more orders appends their rows after the earlier ones |
| `Dashboard.ListingAddsFreshOrder` | src/routes/admin/dashboard/index.tsx:90-104 | an order with a fresh id and one part adds exactly one row showing that part. Earlier rows are unchanged |
| `Dashboard.ListingAfterSubmit` | src/routes/admin/dashboard/index.tsx:90-104 | after a committed submission the listing gains exactly one row: the new id, pending, and "partName (Nx)" |
| `Dashboard.LoadDashboard` | src/routes/admin/dashboard/index.tsx:75-107 | the loader returns the projection of the two tables as stored. It only reads, so unchanged tables give the same listing |
| `Dashboard.StatusConfigShape` | src/routes/admin/dashboard/index.tsx:161-186 | pending and reviewing map to outline with the loader icon, quoted to secondary, completed to default. Labels are distinct |

## Left out

- The user interface is not modelled. This covers the form's rendering, toasts and
  `form.reset()`, the sortable/filterable/paginated table, the sidebar layout and
  the login page. The table widget belongs to a library whose code is not part of
  this model.
- Authentication, the session check, the redirect-only admin index route and the
  database connection singleton are not modelled. The first is a library wrapper;
  the last is environment plumbing.
- `Text.IsEmail` and `Text.IsNumeric` are simple character-class versions of the
  validation library's `string.email` and `string.numeric`, not its exact grammars.
- Timestamps are the unconstrained `now` parameter. The column default is written
  as the quoted text `"CURRENT_TIMESTAMP"` (src/server/db/schema/schema.ts:21-22),
  so whether the engine stores a clock reading or that literal text is left open.
  No operation updates `updatedAt`, and date formatting for display is not modelled.
- Image contents are dropped: an `OrderImage` row keeps only its id, its part, its
  MIME type and its timestamp. No workflow inserts an image, so there is no image
  insert.
- There are no delete workflows in the code. `Storage.Database.DeleteOrder` and
  `Storage.Database.DeletePart` state what the declared cascades do.
- Concurrency and transaction isolation are not modelled. The transaction is
  all-or-nothing on one sequential state.
- `Storage.Database.InsertVehicle`, `Storage.Database.InsertPart`: the engine's
  foreign-key and uniqueness errors are preconditions rather than error results.
  The only caller inserts under a fresh order id it has just created, so it always
  meets them.
- `Storage.Database.InsertOrder`: whether the driver returns the generated id is
  an outside input (`reportsId`). An insert that fails outright inside the engine
  is not modelled.
- `OrderSubmit.YearTextKeepsYear`: the year is read as an exact natural number.
  JavaScript's floating-point limit beyond 2^53 is not modelled.
- Ids, counters and quantities are unbounded integers. SQLite's 64-bit INTEGER
  limit is not modelled. `Text.IntToString` writes every integer in plain digits,
  whereas a JavaScript template literal writes numbers of 1e21 and above in
  exponent form (`1e+21`).
- `OrderForm.FieldErrors`: reports which fields fail, not the library's message texts.
- Quantities that are not numbers (NaN from a non-numeric entry) are not modelled.
  The status column is modelled as its declared four-value type, not as free text.
- The dashboard loader runs without an authorization check, as in the code; access
  control is not part of the model.
