/** The endpoints of gas_management/views.py that change state. Each one
    looks its entity up, checks its guards in the source's order, and writes
    only once every guard has passed; on an error nothing changes. */
module Views {
  import opened Common
  import opened Models
  import opened Lifecycle
  import opened Ledger
  import opened Permissions
  import opened Database
  import opened Serializers
  import opened Transitions
  import Signals

  /** `self.get_object()` on OrderViewSet finds order `id` exactly when it is
      in the requester's queryset: the requester has a profile (otherwise
      get_object_or_404 answers 404) and is an admin, the order's buyer or its
      listing's seller. */
  function OrderVisible(db: Db, a: Actor, id: nat): bool
    reads db
    requires db.Wf()
  {
    id < |db.orders| && a.profile.Some? &&
    (a.profile.value == Admin || db.orders[id].buyer == a.user ||
     db.listings[db.orders[id].listing].seller == a.user)
  }

  /** `self.get_object()` on InvoiceViewSet: the same rule applied to the
      invoice's order. */
  function InvoiceVisible(db: Db, a: Actor, i: nat): bool
    reads db
    requires db.Wf()
  {
    i < |db.invoices| && OrderVisible(db, a, db.invoices[i].order)
  }

  /** The object permission IsBuyerOrSellerOrAdmin, which get_object checks
      after the lookup, admits exactly the orders the lookup finds; so it never
      refuses an order the queryset yielded. */
  lemma LookupMatchesObjectPermission(db: Db, a: Actor, id: nat)
    requires db.Wf() && id < |db.orders|
    ensures OrderVisible(db, a, id) <==>
              IsBuyerOrSellerOrAdmin(a, db.orders[id].buyer, db.listings[db.orders[id].listing].seller)
  {
  }

  /** OrderViewSet.approve. */
  method Approve(db: Db, a: Actor, id: nat, hex: string) returns (r: Result<Order>)
    requires db.Wf() && IsUuidHex(hex)
    modifies db
    ensures db.Wf() && (old(db.Valid()) ==> db.Valid())
    ensures !old(OrderVisible(db, a, id)) ==> r == Err(NotFound)
    ensures old(OrderVisible(db, a, id)) ==>
              if a.profile != Some(Admin) then r == Err(Forbidden)
              else if old(db.orders[id].status) != Pending then r == Err(InvalidTransition)
              else if old(db.orders[id].quantity > db.listings[db.orders[id].listing].quantity) then r == Err(OutOfStock)
              else r.Ok?
    ensures r.Err? ==> unchanged(db)
    ensures r.Ok? ==>
              var o := old(db.orders[id]);
              var l := old(db.listings[o.listing]);
              && db.orders == old(db.orders)[id := o.(status := Approved)]
              && db.listings == old(db.listings)[o.listing := l.(quantity := l.quantity - o.quantity)]
              && db.invoices == (if old(HasInvoice(db.invoices, id)) then old(db.invoices)
                                 else old(db.invoices) + [NumberOnSave(NewInvoice(id), hex)])
              && db.payments == old(db.payments) && db.ratings == old(db.ratings)
              && r.value == db.orders[id]
    ensures Evolves(old(db.orders), db.orders)
    ensures ReservationsBalance(old(db.listings), old(db.orders), db.listings, db.orders)
    ensures DeliveriesKept(old(db.orders), db.orders)
  {
    if !OrderVisible(db, a, id) {
      return Err(NotFound);
    }
    if a.profile != Some(Admin) {
      return Err(Forbidden);
    }
    var order := db.orders[id];
    if order.status != Pending {
      return Err(InvalidTransition);
    }
    var listing := db.listings[order.listing];
    if order.quantity > listing.quantity {
      return Err(OutOfStock);
    }
    var approved := ApproveWrites(db, id, hex);
    r := Ok(approved);
  }

  /** The writes of OrderViewSet.approve once its guards have passed: the
      order is saved as APPROVED, which creates its invoice, and then the
      listing gives up the order's quantity. */
  method ApproveWrites(db: Db, id: nat, hex: string) returns (approved: Order)
    requires db.Wf() && IsUuidHex(hex) && id < |db.orders| && db.orders[id].status == Pending
    requires db.orders[id].quantity <= db.listings[db.orders[id].listing].quantity
    modifies db
    ensures db.Wf() && (old(db.Valid()) ==> db.Valid())
    ensures var o := old(db.orders[id]);
            var l := old(db.listings[o.listing]);
            && approved == o.(status := Approved)
            && db.orders == old(db.orders)[id := approved]
            && db.listings == old(db.listings)[o.listing := l.(quantity := l.quantity - o.quantity)]
            && db.invoices == (if old(HasInvoice(db.invoices, id)) then old(db.invoices)
                               else old(db.invoices) + [NumberOnSave(NewInvoice(id), hex)])
            && db.payments == old(db.payments) && db.ratings == old(db.ratings)
    ensures Evolves(old(db.orders), db.orders)
    ensures ReservationsBalance(old(db.listings), old(db.orders), db.listings, db.orders)
    ensures DeliveriesKept(old(db.orders), db.orders)
  {
    var order := db.orders[id];
    var listing := db.listings[order.listing];
    ghost var t := db.Snapshot();
    ghost var inv := NumberOnSave(NewInvoice(id), hex);
    ghost var ls := t.listings[order.listing := listing.(quantity := listing.quantity - order.quantity)];
    ApproveBalances(t.listings, t.orders, id);
    EvolvesByEdge(t.orders, id, Approved);
    assert ReservationsBalance(t.listings, t.orders, ls, t.orders[id := order.(status := Approved)]);
    assert DeliveriesKept(t.orders, t.orders[id := order.(status := Approved)]);
    if ValidTables(t) {
      ApproveKeepsValid(t, id, ls, inv);
    }
    // order.status = 'APPROVED'; order.save()
    approved := order.(status := Approved);
    Signals.SaveOrder(db, id, approved, hex);
    assert db.invoices == if HasInvoice(t.invoices, id) then t.invoices else t.invoices + [inv];
    // inventory.quantity -= order.quantity; inventory.save()
    db.listings := db.listings[order.listing := listing.(quantity := listing.quantity - order.quantity)];
    assert db.listings == ls && db.orders == t.orders[id := approved];
    if ValidTables(t) {
      assert db.Snapshot() == WithStatus(t, id, Approved, ls, t.invoices + [inv]);
    }
  }

  /** OrderViewSet.reject: no stock moves, since none was reserved. */
  method Reject(db: Db, a: Actor, id: nat, hex: string) returns (r: Result<Order>)
    requires db.Wf() && IsUuidHex(hex)
    modifies db
    ensures db.Wf() && (old(db.Valid()) ==> db.Valid())
    ensures !old(OrderVisible(db, a, id)) ==> r == Err(NotFound)
    ensures old(OrderVisible(db, a, id)) ==>
              if a.profile != Some(Admin) then r == Err(Forbidden)
              else if old(db.orders[id].status) != Pending then r == Err(InvalidTransition)
              else r.Ok?
    ensures r.Err? ==> unchanged(db)
    ensures r.Ok? ==>
              && db.orders == old(db.orders)[id := old(db.orders[id]).(status := Rejected)]
              && db.listings == old(db.listings) && db.invoices == old(db.invoices)
              && db.payments == old(db.payments) && db.ratings == old(db.ratings)
              && r.value == db.orders[id]
    ensures Evolves(old(db.orders), db.orders)
    ensures ReservationsBalance(old(db.listings), old(db.orders), db.listings, db.orders)
    ensures DeliveriesKept(old(db.orders), db.orders)
  {
    if !OrderVisible(db, a, id) {
      return Err(NotFound);
    }
    if a.profile != Some(Admin) {
      return Err(Forbidden);
    }
    var order := db.orders[id];
    if order.status != Pending {
      return Err(InvalidTransition);
    }
    var rejected := RejectWrites(db, id, hex);
    r := Ok(rejected);
  }

  /** The write of OrderViewSet.reject once its guards have passed: the order
      is saved as REJECTED. */
  method RejectWrites(db: Db, id: nat, hex: string) returns (rejected: Order)
    requires db.Wf() && IsUuidHex(hex) && id < |db.orders| && db.orders[id].status == Pending
    modifies db
    ensures db.Wf() && (old(db.Valid()) ==> db.Valid())
    ensures && rejected == old(db.orders[id]).(status := Rejected)
            && db.orders == old(db.orders)[id := rejected]
            && db.listings == old(db.listings) && db.invoices == old(db.invoices)
            && db.payments == old(db.payments) && db.ratings == old(db.ratings)
    ensures Evolves(old(db.orders), db.orders)
    ensures ReservationsBalance(old(db.listings), old(db.orders), db.listings, db.orders)
    ensures DeliveriesKept(old(db.orders), db.orders)
  {
    var order := db.orders[id];
    ghost var t := db.Snapshot();
    EvolvesByEdge(t.orders, id, Rejected);
    if ValidTables(t) {
      RejectKeepsValid(t, id);
    }
    rejected := order.(status := Rejected);
    forall l ensures Held(t.orders[id := rejected], l, Approved) == Held(t.orders, l, Approved)
                  && Held(t.orders[id := rejected], l, Delivered) == Held(t.orders, l, Delivered)
    {
      HeldUpdate(t.orders, id, rejected, l, Approved);
      HeldUpdate(t.orders, id, rejected, l, Delivered);
    }
    assert ReservationsBalance(t.listings, t.orders, t.listings, t.orders[id := rejected]);
    assert DeliveriesKept(t.orders, t.orders[id := rejected]);
    Signals.SaveOrder(db, id, rejected, hex);
    assert db.orders == t.orders[id := rejected];
    assert db.Snapshot() == WithStatus(t, id, Rejected, t.listings, t.invoices);
  }

  /** The writes of OrderViewSet.cancel once its guards have passed: an
      APPROVED order gives its quantity back to the listing, then the order
      is saved as CANCELLED. */
  method CancelWrites(db: Db, id: nat, hex: string) returns (cancelled: Order)
    requires db.Wf() && IsUuidHex(hex) && id < |db.orders|
    requires db.orders[id].status == Pending || db.orders[id].status == Approved
    modifies db
    ensures db.Wf() && (old(db.Valid()) ==> db.Valid())
    ensures var o := old(db.orders[id]);
            var l := old(db.listings[o.listing]);
            && cancelled == o.(status := Cancelled)
            && db.orders == old(db.orders)[id := cancelled]
            && db.listings == (if o.status == Approved
                               then old(db.listings)[o.listing := l.(quantity := l.quantity + o.quantity)]
                               else old(db.listings))
            && db.invoices == old(db.invoices)
            && db.payments == old(db.payments) && db.ratings == old(db.ratings)
    ensures Evolves(old(db.orders), db.orders)
    ensures ReservationsBalance(old(db.listings), old(db.orders), db.listings, db.orders)
    ensures DeliveriesKept(old(db.orders), db.orders)
  {
    var order := db.orders[id];
    var listing := db.listings[order.listing];
    ghost var t := db.Snapshot();
    ghost var ls := if order.status == Approved
                    then t.listings[order.listing := listing.(quantity := listing.quantity + order.quantity)]
                    else t.listings;
    CancelBalances(t.listings, t.orders, id);
    EvolvesByEdge(t.orders, id, Cancelled);
    assert ReservationsBalance(t.listings, t.orders, ls, t.orders[id := order.(status := Cancelled)]);
    assert DeliveriesKept(t.orders, t.orders[id := order.(status := Cancelled)]);
    if ValidTables(t) {
      CancelKeepsValid(t, id, ls);
    }
    if order.status == Approved {
      // inventory.quantity += order.quantity; inventory.save()
      db.listings := db.listings[order.listing := listing.(quantity := listing.quantity + order.quantity)];
    }
    assert db.listings == ls;
    cancelled := order.(status := Cancelled);
    Signals.SaveOrder(db, id, cancelled, hex);
    assert db.orders == t.orders[id := cancelled];
    assert db.Snapshot() == WithStatus(t, id, Cancelled, ls, t.invoices);
  }

  /** OrderViewSet.cancel: the buyer withdraws a PENDING or APPROVED order;
      only an APPROVED one gives its quantity back to the listing. */
  method Cancel(db: Db, a: Actor, id: nat, hex: string) returns (r: Result<Order>)
    requires db.Wf() && IsUuidHex(hex)
    modifies db
    ensures db.Wf() && (old(db.Valid()) ==> db.Valid())
    ensures !old(OrderVisible(db, a, id)) ==> r == Err(NotFound)
    ensures old(OrderVisible(db, a, id)) ==>
              if a.user != old(db.orders[id].buyer) then r == Err(Forbidden)
              else if old(db.orders[id].status) != Pending && old(db.orders[id].status) != Approved
              then r == Err(InvalidTransition)
              else r.Ok?
    ensures r.Err? ==> unchanged(db)
    ensures r.Ok? ==>
              var o := old(db.orders[id]);
              var l := old(db.listings[o.listing]);
              && db.orders == old(db.orders)[id := o.(status := Cancelled)]
              && db.listings == (if o.status == Approved
                                 then old(db.listings)[o.listing := l.(quantity := l.quantity + o.quantity)]
                                 else old(db.listings))
              && db.invoices == old(db.invoices)
              && db.payments == old(db.payments) && db.ratings == old(db.ratings)
              && r.value == db.orders[id]
    ensures Evolves(old(db.orders), db.orders)
    ensures ReservationsBalance(old(db.listings), old(db.orders), db.listings, db.orders)
    ensures DeliveriesKept(old(db.orders), db.orders)
  {
    if !OrderVisible(db, a, id) {
      return Err(NotFound);
    }
    var order := db.orders[id];
    if a.user != order.buyer {
      return Err(Forbidden);
    }
    if order.status != Pending && order.status != Approved {
      return Err(InvalidTransition);
    }
    var cancelled := CancelWrites(db, id, hex);
    r := Ok(cancelled);
  }

  /** OrderViewSet.mark_delivered: the listing's seller or a staff user
      closes an APPROVED order. The stock stays taken: the order's quantity
      moves from what APPROVED orders hold to what DELIVERED orders hold. */
  method MarkDelivered(db: Db, a: Actor, id: nat, hex: string) returns (r: Result<Order>)
    requires db.Wf() && IsUuidHex(hex)
    modifies db
    ensures db.Wf() && (old(db.Valid()) ==> db.Valid())
    ensures !old(OrderVisible(db, a, id)) ==> r == Err(NotFound)
    ensures old(OrderVisible(db, a, id)) ==>
              if a.user != old(db.listings[db.orders[id].listing].seller) && !a.isStaff then r == Err(Forbidden)
              else if old(db.orders[id].status) != Approved then r == Err(InvalidTransition)
              else r.Ok?
    ensures r.Err? ==> unchanged(db)
    ensures r.Ok? ==>
              var o := old(db.orders[id]);
              && db.orders == old(db.orders)[id := o.(status := Delivered)]
              && db.invoices == old(db.invoices)
              && db.payments == old(db.payments) && db.ratings == old(db.ratings)
              && r.value == db.orders[id]
              && Held(db.orders, o.listing, Approved) + o.quantity == old(Held(db.orders, o.listing, Approved))
              && Held(db.orders, o.listing, Delivered) == old(Held(db.orders, o.listing, Delivered)) + o.quantity
    ensures db.listings == old(db.listings)
    ensures Evolves(old(db.orders), db.orders)
    ensures forall l :: Held(db.orders, l, Approved) + Held(db.orders, l, Delivered) ==
                        Held(old(db.orders), l, Approved) + Held(old(db.orders), l, Delivered)
  {
    if !OrderVisible(db, a, id) {
      return Err(NotFound);
    }
    var order := db.orders[id];
    if a.user != db.listings[order.listing].seller && !a.isStaff {
      return Err(Forbidden);
    }
    if order.status != Approved {
      return Err(InvalidTransition);
    }
    var delivered := DeliverWrites(db, id, hex);
    r := Ok(delivered);
  }

  /** The write of OrderViewSet.mark_delivered once its guards have passed:
      the order is saved as DELIVERED. */
  method DeliverWrites(db: Db, id: nat, hex: string) returns (delivered: Order)
    requires db.Wf() && IsUuidHex(hex) && id < |db.orders| && db.orders[id].status == Approved
    modifies db
    ensures db.Wf() && (old(db.Valid()) ==> db.Valid())
    ensures var o := old(db.orders[id]);
            && delivered == o.(status := Delivered)
            && db.orders == old(db.orders)[id := delivered]
            && db.listings == old(db.listings) && db.invoices == old(db.invoices)
            && db.payments == old(db.payments) && db.ratings == old(db.ratings)
            && Held(db.orders, o.listing, Approved) + o.quantity == old(Held(db.orders, o.listing, Approved))
            && Held(db.orders, o.listing, Delivered) == old(Held(db.orders, o.listing, Delivered)) + o.quantity
    ensures Evolves(old(db.orders), db.orders)
    ensures forall l :: Held(db.orders, l, Approved) + Held(db.orders, l, Delivered) ==
                        Held(old(db.orders), l, Approved) + Held(old(db.orders), l, Delivered)
  {
    var order := db.orders[id];
    ghost var t := db.Snapshot();
    delivered := order.(status := Delivered);
    ghost var o1 := t.orders[id := delivered];
    DeliverMoves(t.orders, id);
    EvolvesByEdge(t.orders, id, Delivered);
    if ValidTables(t) {
      DeliverKeepsValid(t, id);
    }
    Signals.SaveOrder(db, id, delivered, hex);
    assert db.orders == o1;
    assert db.Snapshot() == WithStatus(t, id, Delivered, t.listings, t.invoices);
  }

  /** OrderViewSet.create, which validates and then hands over to
      `OrderSerializer.create`. Creating an order never changes stock: the
      quantity check here is advisory and approval checks again. */
  method CreateOrder(db: Db, a: Actor, p: OrderPayload, hex: string) returns (r: Result<nat>)
    requires db.Wf() && IsUuidHex(hex)
    modifies db
    ensures db.Wf() && (old(db.Valid()) ==> db.Valid())
    ensures r ==
              if a.profile.None? then Err(NotFound)
              else if a.profile != Some(Buyer) then Err(Forbidden)
              else if p.gasInventory >= old(|db.listings|) then Err(NotFound)
              else if p.quantity <= 0 then Err(InvalidQuantity)
              else if p.quantity > old(db.listings[p.gasInventory].quantity) then Err(OutOfStock)
              else if !ValidOrderFields(p) then Err(InvalidInput)
              else Ok(old(|db.orders|))
    ensures r.Err? ==> unchanged(db)
    ensures r.Ok? ==>
              && db.orders == old(db.orders) + [Order(p.gasInventory, a.user, p.quantity,
                                                      old(db.listings[p.gasInventory].unitPrice) * p.quantity,
                                                      Pending, p.deliveryAddress, p.contactPhone)]
              && db.invoices == old(db.invoices)
              && db.payments == old(db.payments) && db.ratings == old(db.ratings)
    ensures db.listings == old(db.listings)
    ensures Evolves(old(db.orders), db.orders)
    ensures ReservationsBalance(old(db.listings), old(db.orders), db.listings, db.orders)
    ensures DeliveriesKept(old(db.orders), db.orders)
  {
    if a.profile.None? {
      return Err(NotFound);
    }
    if a.profile != Some(Buyer) {
      return Err(Forbidden);
    }
    if p.gasInventory >= |db.listings| {
      return Err(NotFound);
    }
    if p.quantity <= 0 {
      return Err(InvalidQuantity);
    }
    if p.quantity > db.listings[p.gasInventory].quantity {
      return Err(OutOfStock);
    }
    if !ValidOrderFields(p) {
      return Err(InvalidInput);
    }
    var id := CreateOrderRecord(db, a.user, p, hex);
    r := Ok(id);
    forall l ensures Held(db.orders, l, Approved) == Held(old(db.orders), l, Approved)
                  && Held(db.orders, l, Delivered) == Held(old(db.orders), l, Delivered)
    {
      HeldAppend(old(db.orders), db.orders[id], l, Approved);
      HeldAppend(old(db.orders), db.orders[id], l, Delivered);
    }
  }

  /** GasInventoryViewSet.create: any authenticated user may list stock (the
      viewset's only permission beyond authentication is object-level); the
      seller is the requester. A new listing starts with no order on it. */
  method CreateListing(db: Db, a: Actor, p: ListingPayload) returns (r: Result<nat>)
    requires db.Wf()
    modifies db
    ensures db.Wf() && (old(db.Valid()) ==> db.Valid())
    ensures r == if ValidListingFields(p) then Ok(old(|db.listings|)) else Err(InvalidInput)
    ensures r.Err? ==> unchanged(db)
    ensures r.Ok? ==>
              && db.listings == old(db.listings) + [Listing(p.brand, p.weightTenths, p.quantity, p.unitPrice,
                                                            a.user, p.location)]
              && Held(db.orders, r.value, Approved) == 0 && Held(db.orders, r.value, Delivered) == 0
    ensures db.orders == old(db.orders) && db.invoices == old(db.invoices)
    ensures db.payments == old(db.payments) && db.ratings == old(db.ratings)
  {
    if !ValidListingFields(p) {
      return Err(InvalidInput);
    }
    var id := CreateListingRecord(db, a.user, p);
    HeldNone(db.orders, id, Approved);
    HeldNone(db.orders, id, Delivered);
    r := Ok(id);
  }

  /** InvoiceViewSet.approve. The already-approved check comes before the
      order-status check. */
  method ApproveInvoice(db: Db, a: Actor, i: nat, now: Time, hex: string) returns (r: Result<Invoice>)
    requires db.Wf() && IsUuidHex(hex)
    modifies db
    ensures db.Wf() && (old(db.Valid()) ==> db.Valid())
    ensures !old(InvoiceVisible(db, a, i)) ==> r == Err(NotFound)
    ensures old(InvoiceVisible(db, a, i)) ==>
              if a.profile != Some(Admin) then r == Err(Forbidden)
              else if old(db.invoices[i].adminApproval) then r == Err(AlreadyApproved)
              else if old(db.orders[db.invoices[i].order].status) != Approved then r == Err(OrderNotApproved)
              else r.Ok?
    ensures r.Err? ==> unchanged(db)
    ensures r.Ok? ==>
              && db.invoices == old(db.invoices)[i := old(db.invoices[i]).(adminApproval := true, adminApprovalDate := Some(now))]
              && db.listings == old(db.listings) && db.orders == old(db.orders)
              && db.payments == old(db.payments) && db.ratings == old(db.ratings)
              && r.value == db.invoices[i]
  {
    if !InvoiceVisible(db, a, i) {
      return Err(NotFound);
    }
    if a.profile != Some(Admin) {
      return Err(Forbidden);
    }
    var inv := db.invoices[i];
    if inv.adminApproval {
      return Err(AlreadyApproved);
    }
    if db.orders[inv.order].status != Approved {
      return Err(OrderNotApproved);
    }
    // invoice.save(): the number is already set, so it is kept
    var approved := NumberOnSave(inv.(adminApproval := true, adminApprovalDate := Some(now)), hex);
    db.invoices := db.invoices[i := approved];
    r := Ok(approved);
    if old(db.Valid()) {
      InvoiceApprovalKeepsValid(old(db.Snapshot()), i, now);
    }
  }

  /** InvoiceViewSet.mark_as_paid: settles the invoice and records exactly one
      Payment for the order's total price. Neither the approval flag nor the
      order's status is consulted. */
  method MarkAsPaid(db: Db, a: Actor, i: nat, now: Time, hex: string) returns (r: Result<Invoice>)
    requires db.Wf() && IsUuidHex(hex)
    modifies db
    ensures db.Wf() && (old(db.Valid()) ==> db.Valid())
    ensures !old(InvoiceVisible(db, a, i)) ==> r == Err(NotFound)
    ensures old(InvoiceVisible(db, a, i)) ==>
              if a.profile != Some(Admin) then r == Err(Forbidden)
              else if old(db.invoices[i].isPaid) then r == Err(AlreadyPaid)
              else r.Ok?
    ensures r.Err? ==> unchanged(db)
    ensures r.Ok? ==>
              var inv := old(db.invoices[i]);
              && db.invoices == old(db.invoices)[i := inv.(isPaid := true, paymentDate := Some(now))]
              && db.payments == old(db.payments) + [Payment(i, old(db.orders[inv.order].totalPrice), Completed, None, "Admin Approved")]
              && db.listings == old(db.listings) && db.orders == old(db.orders) && db.ratings == old(db.ratings)
              && r.value == db.invoices[i]
  {
    if !InvoiceVisible(db, a, i) {
      return Err(NotFound);
    }
    if a.profile != Some(Admin) {
      return Err(Forbidden);
    }
    var inv := db.invoices[i];
    if inv.isPaid {
      return Err(AlreadyPaid);
    }
    // invoice.save(), then Payment.objects.create(...)
    var paid := NumberOnSave(inv.(isPaid := true, paymentDate := Some(now)), hex);
    db.invoices := db.invoices[i := paid];
    db.payments := db.payments + [Payment(i, db.orders[inv.order].totalPrice, Completed, None, "Admin Approved")];
    r := Ok(paid);
    if old(db.Valid()) {
      PaymentKeepsValid(old(db.Snapshot()), i, now, "Admin Approved");
    }
  }

  /** RatingViewSet.create: one rating per DELIVERED order, by its buyer. The
      order is fetched directly, so no profile is needed; the score is
      checked last, by the serializer. */
  method CreateRating(db: Db, a: Actor, p: RatingPayload) returns (r: Result<nat>)
    requires db.Wf()
    modifies db
    ensures db.Wf() && (old(db.Valid()) ==> db.Valid())
    ensures r ==
              if p.order >= old(|db.orders|) then Err(NotFound)
              else if old(db.orders[p.order].buyer) != a.user then Err(Forbidden)
              else if old(db.orders[p.order].status) != Delivered then Err(InvalidTransition)
              else if old(HasRating(db.ratings, p.order)) then Err(AlreadyRated)
              else if !ValidScore(p.score) then Err(InvalidInput)
              else Ok(old(|db.ratings|))
    ensures r.Err? ==> unchanged(db)
    ensures r.Ok? ==> db.ratings == old(db.ratings) + [Rating(p.order, p.score, p.comment)]
    ensures db.listings == old(db.listings) && db.orders == old(db.orders)
    ensures db.invoices == old(db.invoices) && db.payments == old(db.payments)
  {
    if p.order >= |db.orders| {
      return Err(NotFound);
    }
    var order := db.orders[p.order];
    if order.buyer != a.user {
      return Err(Forbidden);
    }
    if order.status != Delivered {
      return Err(InvalidTransition);
    }
    if HasRating(db.ratings, p.order) {
      return Err(AlreadyRated);
    }
    if !ValidScore(p.score) {
      return Err(InvalidInput);
    }
    var rating := Rating(p.order, p.score, p.comment);
    if db.Valid() {
      RatingKeepsValid(db.Snapshot(), rating);
    }
    r := Ok(|db.ratings|);
    db.ratings := db.ratings + [rating];
  }
}
