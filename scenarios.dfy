/** Request sequences a client of the endpoints may send, with what the
    contracts of `Views` let one conclude about them. Users 1, 2 and 3 are a
    seller, a buyer and an admin. */
module Scenarios {
  import opened Common
  import opened Models
  import opened Database
  import opened Serializers
  import opened Views

  const SellerUser := Actor(1, Some(Seller), false)
  const BuyerUser := Actor(2, Some(Buyer), false)
  const AdminUser := Actor(3, Some(Admin), false)

  /** The seller lists 10 cylinders at 1000.00 each and the buyer orders `q`
      of them: listing 0 and PENDING order 0, priced once at q * 1000.00, and
      the listing still holds 10. */
  method ListAndOrder(hex: string, q: int) returns (db: Db)
    requires IsUuidHex(hex) && 0 < q <= 10
    ensures fresh(db) && db.Wf() && db.Valid()
    ensures |db.listings| == 1 && db.listings[0].quantity == 10 && db.listings[0].seller == 1
    ensures |db.orders| == 1 && db.orders[0].listing == 0 && db.orders[0].buyer == 2
    ensures db.orders[0].quantity == q && db.orders[0].status == Pending
    ensures db.orders[0].totalPrice == q * 100000
    ensures db.invoices == [] && db.payments == [] && db.ratings == []
  {
    db := new Db();
    EmptyIsValid();
    var listed := CreateListing(db, SellerUser, ListingPayload(Jibu, 60, 10, 100000, "Nairobi", None));
    assert listed == Ok(0);
    var ordered := CreateOrder(db, BuyerUser, OrderPayload(0, q, "Kilimani", "0700000000", None, None, None), hex);
    assert ordered == Ok(0);
  }

  /** Approving an order for 2 of 10 cylinders leaves 8 and creates its
      unpaid, unapproved invoice; the buyer's cancel then brings the listing
      back to 10. */
  method ApproveThenCancel(hex: string) returns (afterApprove: nat, invoicePaid: bool, invoiceApproved: bool, final: nat)
    requires IsUuidHex(hex)
    ensures afterApprove == 8 && final == 10
    ensures !invoicePaid && !invoiceApproved
  {
    var db := ListAndOrder(hex, 2);
    var approved := Approve(db, AdminUser, 0, hex);
    assert approved.Ok?;
    afterApprove := db.listings[0].quantity;
    assert |db.invoices| == 1 && !db.invoices[0].isPaid && !db.invoices[0].adminApproval;
    invoicePaid, invoiceApproved := db.invoices[0].isPaid, db.invoices[0].adminApproval;
    var cancelled := Cancel(db, BuyerUser, 0, hex);
    assert cancelled.Ok?;
    final := db.listings[0].quantity;
  }

  /** Two PENDING orders for 8 and 5 of the 10 listed cylinders. */
  method TwoOrders(hex: string) returns (db: Db)
    requires IsUuidHex(hex)
    ensures fresh(db) && db.Wf()
    ensures |db.listings| == 1 && db.listings[0].quantity == 10
    ensures |db.orders| == 2 && db.orders[0].listing == 0 && db.orders[1].listing == 0
    ensures db.orders[0].quantity == 8 && db.orders[0].status == Pending
    ensures db.orders[1].quantity == 5 && db.orders[1].status == Pending
  {
    db := ListAndOrder(hex, 8);
    var second := CreateOrder(db, BuyerUser, OrderPayload(0, 5, "Kilimani", "0700000000", None, None, None), hex);
    assert second == Ok(1);
  }

  /** Once the first of those orders is approved, approving the second fails
      for want of stock and leaves it PENDING and the listing at 2. */
  method SecondApprovalOutOfStock(hex: string, hex': string) returns (r: Result<Order>, stock: nat, status: Status)
    requires IsUuidHex(hex) && IsUuidHex(hex')
    ensures r == Err(OutOfStock) && stock == 2 && status == Pending
  {
    var db := TwoOrders(hex);
    var first := Approve(db, AdminUser, 0, hex);
    assert first.Ok?;
    assert db.listings[0].quantity == 2 && db.orders[1].status == Pending && db.orders[1].quantity == 5;
    assert OrderVisible(db, AdminUser, 1);
    r := Approve(db, AdminUser, 1, hex');
    stock := db.listings[0].quantity;
    status := db.orders[1].status;
  }

  /** An order for 2 cylinders, approved and then delivered: its one invoice,
      unpaid, asks for 2 * 1000.00. */
  method DeliveredOrder(hex: string) returns (db: Db)
    requires IsUuidHex(hex)
    ensures fresh(db) && db.Wf()
    ensures |db.orders| == 1 && db.orders[0].status == Delivered && db.orders[0].totalPrice == 200000
    ensures |db.invoices| == 1 && db.invoices[0].order == 0 && !db.invoices[0].isPaid
    ensures db.payments == []
  {
    db := ListAndOrder(hex, 2);
    var approved := Approve(db, AdminUser, 0, hex);
    assert approved.Ok? && |db.invoices| == 1 && db.invoices[0].order == 0 && !db.invoices[0].isPaid;
    assert db.orders[0].status == Approved && OrderVisible(db, SellerUser, 0);
    var delivered := MarkDelivered(db, SellerUser, 0, hex);
    assert delivered.Ok?;
  }

  /** Paying an invoice twice: the second call is refused and the one
      payment, for the order's total, is all there is. */
  method PayTwice(hex: string, now: Time, later: Time) returns (r: Result<Invoice>, payments: seq<Payment>)
    requires IsUuidHex(hex)
    ensures r == Err(AlreadyPaid)
    ensures payments == [Payment(0, 200000, Completed, None, "Admin Approved")]
  {
    var db := DeliveredOrder(hex);
    var paid := MarkAsPaid(db, AdminUser, 0, now, hex);
    assert paid.Ok?;
    r := MarkAsPaid(db, AdminUser, 0, later, hex);
    payments := db.payments;
  }
}
