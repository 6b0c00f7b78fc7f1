# Gas-cylinder marketplace: order lifecycle, stock and billing

This project models the core of a Django REST backend for trading gas cylinders. Sellers list stock. Buyers place orders against a listing. Administrators approve or reject orders, approve invoices and confirm payment. Buyers cancel and rate, and sellers mark orders delivered.

The model covers:

- the five-state order machine of `OrderViewSet` (PENDING, APPROVED, REJECTED, DELIVERED, CANCELLED);
- the listing stock that approve takes and cancel gives back;
- the invoice created by the `post_save` receiver;
- the invoice-approval and payment flags, and the single Payment record created on payment;
- the one-per-delivered-order rating gate;
- the permission predicates;
- the serializer rules that fix the buyer, the seller and the frozen total price.

The database is a class `Database.Db`. It has one `seq` per table, and a row's primary key is its index. Every endpoint is a method that modifies the `Db`. Each method runs its guards in the source's order and writes only after all of them pass. On any error it leaves the database unchanged. Each method's contract states:

- the error for every failing guard;
- the complete new state on success;
- that the database invariants are kept (`Database.ValidTables`): foreign keys, the one-to-one links, "an order holding stock has its invoice", the paid-flag/date/payment agreement, and "ratings only on delivered orders, scored 1 to 5";
- the stock ledger (`Ledger`): creating, approving, rejecting and cancelling an order keep, for every listing, its quantity plus the quantities of its APPROVED orders (`Ledger.ReservationsBalance`), and what its DELIVERED orders hold; mark-delivered moves the order's quantity from the APPROVED to the DELIVERED sum; creating an order also leaves every listing's quantity unchanged; creating a listing appends one that no order holds; invoice approval, payment and rating leave the listings and orders unchanged;
- for the five order endpoints, that the order table only evolves along the lifecycle edges (`Lifecycle.Evolves`). Quantity and total price are frozen, and terminal orders never change.

Every save of an order calls the `post_save` receiver (`Signals.CreateInvoiceWhenOrderApproved`), as Django does.

Conventions:

- Money is an integer number of cents and weight an integer number of tenths of a kilogram. These are the fixed-point scales of the Decimal fields.
- The caller supplies timestamps (`timezone.now()`) and the uuid4 hex string used for invoice numbers as parameters.
- A requester is an `Actor`: a user id, the role of its profile (`None` without one) and Django's `is_staff` flag.

Behaviour worth noting:

- A requester without a profile gets `NotFound`: `get_object_or_404(UserProfile, ...)` answers 404 in `get_queryset` and in `OrderViewSet.create`.
- `mark_delivered` admits the listing's seller or a user with `is_staff`, not a user with the ADMIN role.
- Approve and cancel change the listing and the order in separate saves. No transaction is visible in the code.

## Model

| member | source | states |
|---|---|---|
| Models.InvoiceNumber | gas_management/models.py:85 | the generated number is "INV-" plus 8 upper-case hex digits, fits max_length 20, and its digits are the uuid prefix upper-cased |
| Models.NumberOnSave | gas_management/models.py:82-86 | a save assigns a well-formed number only when the invoice has none; an existing number is kept, and no other field changes |
| Models.NumberIsWriteOnce | gas_management/models.py:82-86 | a second save never changes the number the first save assigned, whatever uuid it would draw |
| Lifecycle.ReachableIsClosure | gas_management/views.py:177-272 | the reachable statuses are the reflexive-transitive closure of the approve/reject/cancel/deliver edges; REJECTED, DELIVERED and CANCELLED have no outgoing edge and reach only themselves |
| Lifecycle.EvolvesTransitive | gas_management/views.py:166-272 | two successive evolutions of the order table compose into one |
| Lifecycle.EvolvesByEdge | gas_management/views.py:177-272 | moving a single order along one lifecycle edge, leaving every other row as it was, is an evolution of the order table |
| Lifecycle.HistoryEvolves | gas_management/views.py:166-272 | over any run of endpoint calls, the last order table evolves from the first: rows are only appended and statuses only move forward |
| Lifecycle.FrozenOverHistory | gas_management/serializers.py:54-63 | an order's total price and quantity, set once at creation, are equal at the end of any history; a terminal order is unchanged by it |
| Ledger.HeldAppend | gas_management/views.py:119-151 | a new order adds exactly its own share to what its listing's orders of each status hold |
| Ledger.HeldUpdate | gas_management/views.py:191-197 | rewriting one order swaps its old share of the per-listing sums for its new one |
| Ledger.HeldNone | gas_management/serializers.py:29-31 | a listing that no order refers to holds nothing |
| Ledger.ApproveBalances | gas_management/views.py:190-197 | approving a PENDING order and taking its quantity from its listing keeps each listing's stock plus approved holdings, and what delivered orders hold |
| Ledger.CancelBalances | gas_management/views.py:241-248 | a cancel that restocks exactly when the order was APPROVED keeps stock plus approved holdings per listing, and what delivered orders hold |
| Ledger.DeliverMoves | gas_management/views.py:269-270 | delivering moves the order's quantity from its listing's APPROVED sum to its DELIVERED sum and leaves every other listing alone |
| Permissions.HasRole | gas_management/permissions.py:13-17 | definition: the requester's profile has the role, and a missing profile (DoesNotExist) gives false; its properties are in Permissions.WriteRolesAreExclusive |
| Permissions.IsBuyer | gas_management/permissions.py:8-17 | definition: a safe method, or a BUYER profile; its properties are in Permissions.ReadsAreExempt and Permissions.WriteRolesAreExclusive |
| Permissions.IsSeller | gas_management/permissions.py:23-32 | definition: a safe method, or a SELLER profile; its properties are in Permissions.ReadsAreExempt and Permissions.WriteRolesAreExclusive |
| Permissions.IsAdmin | gas_management/permissions.py:38-43 | definition: an ADMIN profile, whatever the method; its properties are in Permissions.AdminHasNoReadExemption and Permissions.WriteRolesAreExclusive |
| Permissions.IsSellerOrReadOnly | gas_management/permissions.py:49-55 | definition: a safe method, or the object's seller is the requester; its properties are in Permissions.ReadsAreExempt |
| Permissions.IsBuyerOrSellerOrAdmin | gas_management/permissions.py:61-79 | definition: a profile that is ADMIN, or the order's buyer or its listing's seller; its properties are in Permissions.OrderAccess and Views.LookupMatchesObjectPermission |
| Permissions.ReadsAreExempt | gas_management/permissions.py:8-55 | IsBuyer, IsSeller and IsSellerOrReadOnly admit every safe method, even without a profile |
| Permissions.AdminHasNoReadExemption | gas_management/permissions.py:38-43 | IsAdmin ignores the method and holds exactly for an ADMIN profile, never without a profile |
| Permissions.WriteRolesAreExclusive | gas_management/permissions.py:8-43 | on a write, IsBuyer and IsSeller hold exactly for their own role, and no requester passes two of IsBuyer, IsSeller, IsAdmin |
| Permissions.OrderAccess | gas_management/permissions.py:61-79 | IsBuyerOrSellerOrAdmin admits every admin, otherwise exactly the order's buyer or the listing's seller, and nobody without a profile |
| Database.HasInvoiceAppend | gas_management/models.py:74 | adding an invoice gives exactly its order an invoice |
| Database.HasInvoiceUpdate | gas_management/models.py:74 | rewriting an invoice without changing its order leaves which orders have invoices unchanged |
| Database.HasPaymentAppend | gas_management/models.py:99 | adding a payment gives exactly its invoice a payment |
| Database.EmptyIsValid | gas_management/models.py:46-113 | an empty database satisfies every invariant |
| Database.Db.constructor | gas_management/models.py:21-113 | a new database has five empty tables |
| Signals.CreateInvoiceWhenOrderApproved | gas_management/signals.py:6-15 | the receiver adds one invoice with default flags and a fresh number exactly when the saved order is APPROVED and has none; otherwise nothing changes, so repeated saves are idempotent, and afterwards an APPROVED order has its invoice |
| Signals.SaveOrder | gas_management/signals.py:6-15 | saving an order writes that one row and then runs the receiver: an invoice is appended exactly when the saved order is APPROVED and had none, and no other table changes |
| Serializers.GetGasDetails | gas_management/serializers.py:46-52 | definition: the brand, weight, unit price and location of the order's listing; its properties are in Serializers.GasDetailsIgnoreStock |
| Serializers.GasDetailsIgnoreStock | gas_management/serializers.py:46-52 | the gas details of an order are the listing's brand, weight, unit price and location, independent of its stock and seller |
| Serializers.CreateOrderRecord | gas_management/serializers.py:54-63 | the appended order has the requester as buyer, total price unit price times quantity, and the default status PENDING, whatever the client sent for those read-only fields |
| Serializers.CreateListingRecord | gas_management/serializers.py:29-31 | the appended listing has the requester as seller |
| Transitions.ApproveKeepsValid | gas_management/views.py:190-197 | approving a PENDING order together with its new invoice keeps every invariant |
| Transitions.ApproveKeepsLinks | gas_management/views.py:190-197 | a PENDING order has no invoice yet, so its new invoice keeps every foreign key and one-to-one link |
| Transitions.ApproveKeepsFollows | gas_management/views.py:190-197 | after approval the APPROVED order has its invoice, and every invoice is still on an order that is neither PENDING nor REJECTED |
| Transitions.ApproveKeepsSettled | gas_management/views.py:190-197 | the new invoice is unpaid and unapproved, and every payment still settles its paid invoice for the unchanged total |
| Transitions.StatusChangeKeepsValid | gas_management/views.py:219-270 | a status change that neither gives stock to an order without an invoice nor moves a delivered order keeps every invariant |
| Transitions.RejectKeepsValid | gas_management/views.py:219-220 | rejecting a PENDING order keeps every invariant |
| Transitions.CancelKeepsValid | gas_management/views.py:242-248 | cancelling a PENDING or APPROVED order keeps every invariant |
| Transitions.DeliverKeepsValid | gas_management/views.py:269-270 | delivering an APPROVED order keeps every invariant |
| Transitions.OrderAppendKeepsValid | gas_management/views.py:119-151 | creating a PENDING order of positive quantity keeps every invariant |
| Transitions.ListingAppendKeepsValid | gas_management/serializers.py:29-31 | creating a listing keeps every invariant |
| Transitions.InvoiceApprovalKeepsValid | gas_management/views.py:317-319 | approving an invoice keeps every invariant |
| Transitions.PaymentKeepsValid | gas_management/views.py:341-351 | marking an unpaid invoice paid and recording its one payment keeps every invariant; the invoice had no payment before |
| Transitions.UnpaidHasNoPayment | gas_management/views.py:335-351 | an invoice that is not paid has no payment |
| Transitions.PaymentKeepsSettled | gas_management/views.py:341-351 | the paid invoice carries its date and has its payment, and the new payment is COMPLETED for the order's total |
| Transitions.PaymentKeepsOneToOne | gas_management/views.py:341-351 | the new payment is the invoice's only one, and every foreign key still resolves |
| Transitions.PaymentKeepsFollows | gas_management/views.py:341-351 | paying an invoice keeps its order, so the set of invoiced orders is unchanged |
| Transitions.RatingKeepsValid | gas_management/views.py:392-422 | the first rating of a DELIVERED order with score 1 to 5 keeps every invariant, so an order has at most one rating |
| Views.OrderVisible | gas_management/views.py:106-117 | definition: `get_object` on the order queryset finds the order exactly when the requester has a profile and is an admin, the buyer or the listing's seller; its properties are in Views.LookupMatchesObjectPermission and the NotFound clauses of the order endpoints |
| Views.InvoiceVisible | gas_management/views.py:279-290 | definition: the same rule applied to the invoice's order; its properties are in the NotFound clauses of Views.ApproveInvoice and Views.MarkAsPaid |
| Views.LookupMatchesObjectPermission | gas_management/views.py:106-117 | the order queryset finds exactly the orders IsBuyerOrSellerOrAdmin admits, so the object permission never refuses a found order |
| Views.CreateOrder | gas_management/views.py:119-151 | no profile gives NotFound, a non-buyer Forbidden, a missing listing NotFound, quantity at most 0 InvalidQuantity, quantity above stock OutOfStock, bad fields InvalidInput; on success one PENDING order at the frozen price is appended; listing quantities never change |
| Views.Approve | gas_management/views.py:166-199 | an order outside the queryset is NotFound; then ADMIN, PENDING and a quantity within stock, in that order; on success the order is APPROVED, the listing drops by exactly its quantity, its invoice exists, and stock plus approved holdings is kept; on failure nothing changes |
| Views.ApproveWrites | gas_management/views.py:190-197 | the writes of a guarded approve: the order becomes APPROVED, its listing drops by exactly its quantity, its invoice is created if missing, the order table evolves, and stock plus approved holdings and delivered holdings are kept |
| Views.Reject | gas_management/views.py:202-222 | ADMIN then PENDING; on success the order is REJECTED and no stock moves; on failure nothing changes |
| Views.RejectWrites | gas_management/views.py:219-220 | the write of a guarded reject: the order becomes REJECTED, nothing else changes, and no listing's balance moves |
| Views.Cancel | gas_management/views.py:225-250 | the buyer only, from PENDING or APPROVED; the order becomes CANCELLED and the listing regains its quantity exactly when it was APPROVED, so stock plus approved holdings is kept |
| Views.CancelWrites | gas_management/views.py:241-248 | the writes of a guarded cancel: the listing regains the quantity exactly when the order was APPROVED, the order becomes CANCELLED, and both balances are kept |
| Views.MarkDelivered | gas_management/views.py:253-272 | the listing's seller or a staff user, from APPROVED only; the order becomes DELIVERED, the listing is untouched, and the quantity moves from the APPROVED to the DELIVERED sum |
| Views.DeliverWrites | gas_management/views.py:269-270 | the write of a guarded mark-delivered: the order becomes DELIVERED, no listing changes, and its quantity moves from the APPROVED to the DELIVERED sum |
| Views.CreateListing | gas_management/serializers.py:19-31 | a listing with valid fields (quantity from 0 to the PositiveIntegerField maximum, weight and price within their digits, a location of 1 to 100 characters) is appended with the requester as seller and no orders on it; otherwise InvalidInput and nothing changes |
| Views.ApproveInvoice | gas_management/views.py:293-321 | ADMIN, then not already approved, then the order APPROVED, in that order; on success only the approval flag and its date change |
| Views.MarkAsPaid | gas_management/views.py:324-353 | ADMIN, then not already paid; on success the invoice is paid with its date and exactly one COMPLETED payment for the order's total price is appended |
| Views.CreateRating | gas_management/views.py:392-422 | a missing order is NotFound, a non-buyer Forbidden, a not-DELIVERED order InvalidTransition, an existing rating AlreadyRated, a score outside 1..5 InvalidInput; otherwise one rating is appended |
| Scenarios.ListAndOrder | gas_management/views.py:119-151 | listing 10 cylinders and ordering q of them gives a PENDING order priced q times the unit price, with the stock still at 10 |
| Scenarios.ApproveThenCancel | gas_management/views.py:166-250 | approving 2 of 10 leaves 8 and an unpaid, unapproved invoice; cancelling brings the stock back to 10 |
| Scenarios.TwoOrders | gas_management/views.py:119-151 | two orders for 8 and 5 of a listing of 10 are both PENDING and leave the stock at 10 |
| Scenarios.SecondApprovalOutOfStock | gas_management/views.py:184-188 | after an order for 8 of 10 is approved, approving one for 5 fails OutOfStock and leaves it PENDING with the stock at 2 |
| Scenarios.DeliveredOrder | gas_management/views.py:166-272 | an order for 2 that is approved and then delivered has one unpaid invoice and no payment |
| Scenarios.PayTwice | gas_management/views.py:335-351 | paying an invoice twice fails AlreadyPaid the second time, and exactly one payment exists |
| Findings.ApproveAsWritten | gas_management/views.py:190-197 | with the receiver as written, an approval that passes its guards stores APPROVED, fails with a server error and leaves the listing's quantity unchanged, so stock plus approved holdings grows by the order's quantity |
| Findings.ApproveThenCancelAsWritten | gas_management/signals.py:9-15 | with the receiver as written, a listing of 10 ends with 12 after approve and cancel of an order for 2 |

## Left out

- The receiver's `amount` and `due_date` arguments (intended: the order total and the save time plus 7 days). Invoice has no such fields, so the model creates the invoice with its real fields at their defaults.
- Updates and deletes through the generic ModelViewSet endpoints (`update`, `partial_update`, `destroy`) of every viewset. These are framework code not written in the repository. A seller's update of a listing's quantity would move stock outside the ledger.
- A PATCH or PUT on `OrderViewSet` by the order's buyer, the listing's seller or an admin may rewrite an order's `quantity`, `gas_inventory`, `delivery_address` and `contact_phone`; only buyer, total_price and status are read-only (serializers.py:44). The frozen quantity and listing in `Lifecycle.Evolves`, `Lifecycle.FrozenOverHistory` and `Ledger.ReservationsBalance` hold only for the endpoints modelled here.
- Views.CreateListing: the quantity bound `Serializers.MaxQuantity` is 2147483647, the PositiveIntegerField range of PostgreSQL and MySQL; it depends on the database backend (SQLite accepts up to 2^63-1), and no settings file fixes the backend.
- Creating invoices and payments directly through `InvoiceViewSet`/`PaymentViewSet` create. This is generic framework code.
- Queryset filters other than visibility: brand, weight, location, price and seller filters, `quantity > 0`, search and ordering in `get_queryset`. These are ORM queries that change nothing. Weight parsing goes through `float`.
- Read endpoints (`list`, `retrieve`, `my_inventory`, `my_orders`, `seller_orders`, `me`) and HTTP response rendering.
- Registration, profile creation, JWT endpoints, URL routing, admin configuration and app wiring. These are identity and framework plumbing; the model assumes that `apps.py` connects the receiver.
- Anonymous requests: `IsAuthenticated` refuses them before any view code runs, so every `Actor` is authenticated.
- Parse failures of request values: the `int()` of `quantity` in `OrderViewSet.create` (views.py:130), and the `objects.get(pk=...)` lookups of `gas_inventory` (views.py:133) and of `order` in `RatingViewSet.create` (views.py:396). A non-numeric value raises ValueError there, a 500 rather than the 404 of a missing row. Payload values and keys are integers in the model, so only the missing-row 404 is modelled.
- Serializer validation is reduced to the predicates `ValidOrderFields` and `ValidListingFields`. Whitespace trimming of strings and the max_digits limit on `total_price` are not modelled.
- Randomness and uniqueness of invoice numbers: the uuid4 hex string is a parameter, and the unique constraint on `invoice_number` is not checked.
- Timestamps (`created_at`, `updated_at`, `date_added`, `last_updated`) are not stored. The payment and approval dates take a caller-supplied time.
- Concurrency and transactions: each endpoint is one sequential step, and two requests never interleave.
- `Invoice.save` is modelled as a function (`Models.NumberOnSave`) applied to the record at each save, not as a method that assigns to a live object. No invoice object is shared between callers.

## Findings

| source | as written | input that shows it | evidently intended | confidence | as-written member | corrected member |
|---|---|---|---|---|---|---|
| gas_management/signals.py:9-15 | the receiver builds the invoice from `instance.total_amount` and passes `amount`/`due_date`, none of which exist, so it raises on every first save of an APPROVED order; `approve` has already stored APPROVED (views.py:191-192), so the stock decrement at views.py:195-197 never runs | a listing with 10, an order for 2, admin approves (server error, order APPROVED, listing still 10), buyer cancels (allowed from APPROVED): the listing has 12 | create the invoice with default flags and let approval take the stock | not executed; medium, since the project's transaction setting is not visible and a per-request transaction would roll the APPROVED save back | Findings.ApproveThenCancelAsWritten | Views.Approve |
