/** Why each endpoint keeps the database invariants: one lemma per kind of
    write, stated over table snapshots. */
module Transitions {
  import opened Common
  import opened Models
  import opened Lifecycle
  import opened Database

  /** The tables with order `id` moved to status `s`, the listings replaced
      by `ls` (same keys) and the invoices by `invs`. */
  function WithStatus(t: Tables, id: nat, s: Status, ls: seq<Listing>, invs: seq<Invoice>): Tables
    requires id < |t.orders|
  {
    Tables(ls, t.orders[id := t.orders[id].(status := s)], invs, t.payments, t.ratings)
  }

  /** The new invoice is the order's first: a PENDING order has none. */
  lemma ApproveKeepsLinks(t: Tables, id: nat, ls: seq<Listing>, inv: Invoice)
    requires ValidTables(t) && id < |t.orders| && t.orders[id].status == Pending
    requires |ls| == |t.listings| && inv.order == id && WellFormedNumber(inv.number)
    ensures !HasInvoice(t.invoices, id)
    ensures WfTables(WithStatus(t, id, Approved, ls, t.invoices + [inv]))
    ensures OneToOne(WithStatus(t, id, Approved, ls, t.invoices + [inv]))
  {
    var t' := WithStatus(t, id, Approved, ls, t.invoices + [inv]);
    assert forall i :: 0 <= i < |t.invoices| ==> t'.invoices[i] == t.invoices[i];
  }

  /** The APPROVED order now has its invoice, and every other invoice keeps
      an order that is neither PENDING nor REJECTED. */
  lemma ApproveKeepsFollows(t: Tables, id: nat, ls: seq<Listing>, inv: Invoice)
    requires ValidTables(t) && id < |t.orders| && t.orders[id].status == Pending
    requires |ls| == |t.listings| && inv.order == id && WellFormedNumber(inv.number)
    requires WfTables(WithStatus(t, id, Approved, ls, t.invoices + [inv]))
    ensures InvoicesFollowApproval(WithStatus(t, id, Approved, ls, t.invoices + [inv]))
  {
    var t' := WithStatus(t, id, Approved, ls, t.invoices + [inv]);
    forall o ensures HasInvoice(t'.invoices, o) <==> HasInvoice(t.invoices, o) || o == id {
      HasInvoiceAppend(t.invoices, inv, o);
    }
    assert forall i :: 0 <= i < |t.invoices| ==> t'.invoices[i] == t.invoices[i];
  }

  /** The new invoice is unpaid and unapproved, and the payments still
      settle the invoices and totals they settled. */
  lemma ApproveKeepsSettled(t: Tables, id: nat, ls: seq<Listing>, inv: Invoice)
    requires ValidTables(t) && id < |t.orders| && t.orders[id].status == Pending
    requires |ls| == |t.listings| && inv.order == id && WellFormedNumber(inv.number)
    requires !inv.isPaid && inv.paymentDate.None? && !inv.adminApproval && inv.adminApprovalDate.None?
    requires WfTables(WithStatus(t, id, Approved, ls, t.invoices + [inv]))
    ensures Settled(WithStatus(t, id, Approved, ls, t.invoices + [inv]))
  {
    var t' := WithStatus(t, id, Approved, ls, t.invoices + [inv]);
    assert forall i :: 0 <= i < |t.invoices| ==> t'.invoices[i] == t.invoices[i];
    assert forall o :: 0 <= o < |t.orders| ==> t'.orders[o].totalPrice == t.orders[o].totalPrice;
  }

  /** Approving a PENDING order and giving it its invoice keeps every
      invariant. */
  lemma ApproveKeepsValid(t: Tables, id: nat, ls: seq<Listing>, inv: Invoice)
    requires ValidTables(t) && id < |t.orders| && t.orders[id].status == Pending
    requires |ls| == |t.listings| && inv.order == id && WellFormedNumber(inv.number)
    requires !inv.isPaid && inv.paymentDate.None? && !inv.adminApproval && inv.adminApprovalDate.None?
    ensures !HasInvoice(t.invoices, id)
    ensures ValidTables(WithStatus(t, id, Approved, ls, t.invoices + [inv]))
  {
    ApproveKeepsLinks(t, id, ls, inv);
    ApproveKeepsFollows(t, id, ls, inv);
    ApproveKeepsSettled(t, id, ls, inv);
    assert Rated(WithStatus(t, id, Approved, ls, t.invoices + [inv]));
  }

  /** Any other status change keeps every invariant as long as it does not
      give stock-holding status to an order without an invoice and does not
      move a rated (hence DELIVERED) order. */
  lemma StatusChangeKeepsValid(t: Tables, id: nat, s: Status, ls: seq<Listing>)
    requires ValidTables(t) && id < |t.orders| && |ls| == |t.listings|
    requires t.orders[id].status != Pending && t.orders[id].status != Rejected ==> s != Pending && s != Rejected
    requires HoldsStock(s) ==> HasInvoice(t.invoices, id)
    requires t.orders[id].status != Delivered
    ensures ValidTables(WithStatus(t, id, s, ls, t.invoices))
  {
    var t' := WithStatus(t, id, s, ls, t.invoices);
    assert InvoicesFollowApproval(t');
    assert Settled(t');
    assert Rated(t');
  }

  /** Rejecting a PENDING order keeps every invariant. */
  lemma RejectKeepsValid(t: Tables, id: nat)
    requires ValidTables(t) && id < |t.orders| && t.orders[id].status == Pending
    ensures ValidTables(WithStatus(t, id, Rejected, t.listings, t.invoices))
  {
    StatusChangeKeepsValid(t, id, Rejected, t.listings);
  }

  /** Cancelling a PENDING or APPROVED order keeps every invariant, whatever
      same-keyed listings it leaves behind. */
  lemma CancelKeepsValid(t: Tables, id: nat, ls: seq<Listing>)
    requires ValidTables(t) && id < |t.orders| && |ls| == |t.listings|
    requires t.orders[id].status == Pending || t.orders[id].status == Approved
    ensures ValidTables(WithStatus(t, id, Cancelled, ls, t.invoices))
  {
    StatusChangeKeepsValid(t, id, Cancelled, ls);
  }

  /** Delivering an APPROVED order keeps every invariant: it already has its
      invoice. */
  lemma DeliverKeepsValid(t: Tables, id: nat)
    requires ValidTables(t) && id < |t.orders| && t.orders[id].status == Approved
    ensures ValidTables(WithStatus(t, id, Delivered, t.listings, t.invoices))
  {
    assert HasInvoice(t.invoices, id);
    StatusChangeKeepsValid(t, id, Delivered, t.listings);
  }

  /** Creating a PENDING order with a positive quantity on an existing
      listing keeps every invariant. */
  lemma OrderAppendKeepsValid(t: Tables, o: Order)
    requires ValidTables(t) && o.listing < |t.listings| && o.quantity > 0 && o.status == Pending
    ensures ValidTables(t.(orders := t.orders + [o]))
  {
    var t' := t.(orders := t.orders + [o]);
    assert forall i :: 0 <= i < |t.orders| ==> t'.orders[i] == t.orders[i];
    assert InvoicesFollowApproval(t');
    assert Settled(t');
    assert Rated(t');
  }

  /** Creating a listing keeps every invariant. */
  lemma ListingAppendKeepsValid(t: Tables, l: Listing)
    requires ValidTables(t)
    ensures ValidTables(t.(listings := t.listings + [l]))
  {
  }

  /** Approving an invoice that is not yet approved keeps every invariant. */
  lemma InvoiceApprovalKeepsValid(t: Tables, i: nat, now: Time)
    requires ValidTables(t) && i < |t.invoices| && !t.invoices[i].adminApproval
    ensures ValidTables(t.(invoices := t.invoices[i := t.invoices[i].(adminApproval := true, adminApprovalDate := Some(now))]))
  {
    var inv := t.invoices[i].(adminApproval := true, adminApprovalDate := Some(now));
    var t' := t.(invoices := t.invoices[i := inv]);
    forall o ensures HasInvoice(t'.invoices, o) <==> HasInvoice(t.invoices, o) {
      HasInvoiceUpdate(t.invoices, i, inv, o);
    }
    assert InvoicesFollowApproval(t');
    assert Settled(t');
  }

  /** The tables after invoice `i` is marked paid at `now` and its payment,
      for the order's total price, is recorded. */
  function AfterPayment(t: Tables, i: nat, now: Time, paymentMethod: string): Tables
    requires i < |t.invoices| && t.invoices[i].order < |t.orders|
  {
    var pay := Payment(i, t.orders[t.invoices[i].order].totalPrice, Completed, None, paymentMethod);
    t.(invoices := t.invoices[i := t.invoices[i].(isPaid := true, paymentDate := Some(now))],
       payments := t.payments + [pay])
  }

  /** The payment rows and flags stay consistent: the new payment settles
      the invoice it marks paid. */
  lemma PaymentKeepsSettled(t: Tables, i: nat, now: Time, paymentMethod: string)
    requires ValidTables(t) && i < |t.invoices| && !t.invoices[i].isPaid
    ensures WfTables(AfterPayment(t, i, now, paymentMethod))
    ensures Settled(AfterPayment(t, i, now, paymentMethod))
  {
    var t' := AfterPayment(t, i, now, paymentMethod);
    var pay := t'.payments[|t.payments|];
    forall j ensures HasPayment(t'.payments, j) <==> HasPayment(t.payments, j) || j == i {
      HasPaymentAppend(t.payments, pay, j);
    }
    assert forall p :: 0 <= p < |t.payments| ==> t'.payments[p] == t.payments[p];
  }

  /** No payment exists yet for an unpaid invoice. */
  lemma UnpaidHasNoPayment(t: Tables, i: nat)
    requires ValidTables(t) && i < |t.invoices| && !t.invoices[i].isPaid
    ensures !HasPayment(t.payments, i)
  {
  }

  /** The payment is the invoice's first. */
  lemma PaymentKeepsOneToOne(t: Tables, i: nat, now: Time, paymentMethod: string)
    requires ValidTables(t) && i < |t.invoices| && !t.invoices[i].isPaid
    ensures WfTables(AfterPayment(t, i, now, paymentMethod))
    ensures OneToOne(AfterPayment(t, i, now, paymentMethod))
  {
    var t' := AfterPayment(t, i, now, paymentMethod);
    UnpaidHasNoPayment(t, i);
    assert forall p :: 0 <= p < |t.payments| ==> t'.payments[p] == t.payments[p];
  }

  /** The invoice keeps its order, so the invoiced orders stay the same. */
  lemma PaymentKeepsFollows(t: Tables, i: nat, now: Time, paymentMethod: string)
    requires ValidTables(t) && i < |t.invoices| && !t.invoices[i].isPaid
    requires WfTables(AfterPayment(t, i, now, paymentMethod))
    ensures InvoicesFollowApproval(AfterPayment(t, i, now, paymentMethod))
  {
    var t' := AfterPayment(t, i, now, paymentMethod);
    forall o ensures HasInvoice(t'.invoices, o) <==> HasInvoice(t.invoices, o) {
      HasInvoiceUpdate(t.invoices, i, t'.invoices[i], o);
    }
  }

  /** Marking an unpaid invoice paid and recording its one payment, for the
      order's total price, keeps every invariant. */
  lemma PaymentKeepsValid(t: Tables, i: nat, now: Time, paymentMethod: string)
    requires ValidTables(t) && i < |t.invoices| && !t.invoices[i].isPaid
    ensures !HasPayment(t.payments, i)
    ensures
      var pay := Payment(i, t.orders[t.invoices[i].order].totalPrice, Completed, None, paymentMethod);
      ValidTables(t.(invoices := t.invoices[i := t.invoices[i].(isPaid := true, paymentDate := Some(now))],
                     payments := t.payments + [pay]))
  {
    UnpaidHasNoPayment(t, i);
    PaymentKeepsSettled(t, i, now, paymentMethod);
    PaymentKeepsOneToOne(t, i, now, paymentMethod);
    PaymentKeepsFollows(t, i, now, paymentMethod);
    assert Rated(AfterPayment(t, i, now, paymentMethod));
  }

  /** Recording the first rating of a DELIVERED order, with a score from 1 to
      5, keeps every invariant. */
  lemma RatingKeepsValid(t: Tables, rating: Rating)
    requires ValidTables(t) && rating.order < |t.orders| && t.orders[rating.order].status == Delivered
    requires !HasRating(t.ratings, rating.order) && ValidScore(rating.score)
    ensures ValidTables(t.(ratings := t.ratings + [rating]))
  {
    var t' := t.(ratings := t.ratings + [rating]);
    assert forall k :: 0 <= k < |t.ratings| ==> t'.ratings[k] == t.ratings[k];
    assert Rated(t');
  }
}
