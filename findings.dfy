/** What OrderViewSet.approve does with the post_save receiver as written.
    The receiver reads a field Order does not have, so the first save of an
    APPROVED order raises after the row is stored and before the view takes
    the stock. A later cancel then returns stock that was never taken. */
module Findings {
  import opened Common
  import opened Models
  import opened Ledger
  import opened Permissions
  import opened Database
  import opened Serializers
  import opened Views
  import Scenarios

  /** OrderViewSet.approve run against the receiver as written. The guards
      are the ones of `Views.Approve`. Once they pass, APPROVED is stored;
      when the order has no invoice yet the receiver raises, the request ends
      with a server error and the listing keeps its quantity, so the listing's
      stock plus what its APPROVED orders hold grows by the order's quantity. */
  method ApproveAsWritten(db: Db, a: Actor, id: nat) returns (r: Result<Order>)
    requires db.Wf()
    modifies db
    ensures db.Wf()
    ensures !old(OrderVisible(db, a, id)) ==> r == Err(NotFound)
    ensures old(OrderVisible(db, a, id)) ==>
              if a.profile != Some(Admin) then r == Err(Forbidden)
              else if old(db.orders[id].status) != Pending then r == Err(InvalidTransition)
              else if old(db.orders[id].quantity > db.listings[db.orders[id].listing].quantity) then r == Err(OutOfStock)
              else if old(HasInvoice(db.invoices, id)) then r.Ok?
              else r == Err(ServerError)
    ensures r.Err? && r.error != ServerError ==> unchanged(db)
    ensures r == Err(ServerError) ==>
              var o := old(db.orders[id]);
              && db.orders == old(db.orders)[id := o.(status := Approved)]
              && db.listings == old(db.listings) && db.invoices == old(db.invoices)
              && db.payments == old(db.payments) && db.ratings == old(db.ratings)
              && Stock(db.listings, o.listing) + Held(db.orders, o.listing, Approved) ==
                 Stock(old(db.listings), o.listing) + Held(old(db.orders), o.listing, Approved) + o.quantity
    ensures r.Ok? ==>
              var o := old(db.orders[id]);
              var l := old(db.listings[o.listing]);
              && db.orders == old(db.orders)[id := o.(status := Approved)]
              && db.listings == old(db.listings)[o.listing := l.(quantity := l.quantity - o.quantity)]
              && db.invoices == old(db.invoices)
              && db.payments == old(db.payments) && db.ratings == old(db.ratings)
              && r.value == db.orders[id]
  {
    if !OrderVisible(db, a, id) {
      return Err(NotFound);
    }
    if a.profile != Some(Admin) {
      return Err(Forbidden);
    }
    var order := db.orders[id];
    if order.status != Pending {
      return Err(InvalidTransition);
    }
    var listing := db.listings[order.listing];
    if order.quantity > listing.quantity {
      return Err(OutOfStock);
    }
    var approved := order.(status := Approved);
    db.orders := db.orders[id := approved];
    // The receiver as written: its guard holds, since the order is now
    // APPROVED, exactly when it has no invoice yet; it then reads
    // `instance.total_amount`, which Order lacks, and raises before creating
    // anything. Otherwise it does nothing.
    if !HasInvoice(db.invoices, id) {
      HeldUpdate(old(db.orders), id, approved, order.listing, Approved);
      return Err(ServerError);
    }
    db.listings := db.listings[order.listing := listing.(quantity := listing.quantity - order.quantity)];
    r := Ok(approved);
  }

  /** The discrepancy on concrete inputs: a listing of 10 cylinders with a
      PENDING order for 2 (`Scenarios.ListAndOrder`); the admin's approval
      fails part-way and the buyer cancels the APPROVED order. The listing
      ends with 12 cylinders where 10 exist. With `Views.Approve` the same
      requests end with 10 (`Scenarios.ApproveThenCancel`). */
  method ApproveThenCancelAsWritten(hex: string) returns (final: nat)
    requires IsUuidHex(hex)
    ensures final == 12
  {
    var db := Scenarios.ListAndOrder(hex, 2);
    var approved := ApproveAsWritten(db, Actor(3, Some(Admin), false), 0);
    assert approved == Err(ServerError);
    var cancelled := Cancel(db, Actor(2, Some(Buyer), false), 0, hex);
    assert cancelled.Ok?;
    final := db.listings[0].quantity;
  }
}
