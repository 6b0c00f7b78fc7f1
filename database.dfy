/** The persisted tables the endpoints read and write, with the integrity
    rules of gas_management/models.py as invariants. Primary keys are
    positions: rows are appended and never deleted. */
module Database {
  import opened Common
  import opened Models
  import opened Lifecycle

  /** `Invoice.objects.filter(order=o).exists()`. */
  predicate HasInvoice(invoices: seq<Invoice>, o: nat) {
    exists i :: 0 <= i < |invoices| && invoices[i].order == o
  }

  /** `Payment.objects.filter(invoice=i).exists()`. */
  predicate HasPayment(payments: seq<Payment>, i: nat) {
    exists p :: 0 <= p < |payments| && payments[p].invoice == i
  }

  /** `Rating.objects.filter(order=o).exists()`. */
  predicate HasRating(ratings: seq<Rating>, o: nat) {
    exists k :: 0 <= k < |ratings| && ratings[k].order == o
  }

  lemma HasInvoiceAppend(invoices: seq<Invoice>, inv: Invoice, o: nat)
    ensures HasInvoice(invoices + [inv], o) <==> HasInvoice(invoices, o) || inv.order == o
  {
    if HasInvoice(invoices, o) {
      var i :| 0 <= i < |invoices| && invoices[i].order == o;
      assert (invoices + [inv])[i] == invoices[i];
    }
    if inv.order == o {
      assert (invoices + [inv])[|invoices|] == inv;
    }
  }

  /** Rewriting an invoice without touching its order link keeps the set of
      invoiced orders. */
  lemma HasInvoiceUpdate(invoices: seq<Invoice>, i: nat, inv: Invoice, o: nat)
    requires i < |invoices| && inv.order == invoices[i].order
    ensures HasInvoice(invoices[i := inv], o) <==> HasInvoice(invoices, o)
  {
    if HasInvoice(invoices, o) {
      var j :| 0 <= j < |invoices| && invoices[j].order == o;
      assert invoices[i := inv][j].order == o;
    }
    if HasInvoice(invoices[i := inv], o) {
      var j :| 0 <= j < |invoices| && invoices[i := inv][j].order == o;
      assert invoices[j].order == o;
    }
  }

  lemma HasPaymentAppend(payments: seq<Payment>, p: Payment, i: nat)
    ensures HasPayment(payments + [p], i) <==> HasPayment(payments, i) || p.invoice == i
  {
    if HasPayment(payments, i) {
      var k :| 0 <= k < |payments| && payments[k].invoice == i;
      assert (payments + [p])[k] == payments[k];
    }
    if p.invoice == i {
      assert (payments + [p])[|payments|] == p;
    }
  }

  /** One snapshot of every table. */
  datatype Tables = Tables(listings: seq<Listing>, orders: seq<Order>, invoices: seq<Invoice>,
                           payments: seq<Payment>, ratings: seq<Rating>)

  /** Referential integrity: every foreign key names an existing row, and
      every stored invoice carries a number (Invoice.save assigns one before
      the row is first written). */
  ghost predicate WfTables(t: Tables) {
    && (forall i :: 0 <= i < |t.orders| ==> t.orders[i].listing < |t.listings|)
    && (forall i :: 0 <= i < |t.invoices| ==> t.invoices[i].order < |t.orders| && WellFormedNumber(t.invoices[i].number))
    && (forall p :: 0 <= p < |t.payments| ==> t.payments[p].invoice < |t.invoices|)
    && (forall k :: 0 <= k < |t.ratings| ==> t.ratings[k].order < |t.orders|)
  }

  /** The one-to-one links: an order has at most one invoice and one rating,
      an invoice at most one payment. */
  ghost predicate OneToOne(t: Tables) {
    && (forall i, j :: 0 <= i < j < |t.invoices| ==> t.invoices[i].order != t.invoices[j].order)
    && (forall p, q :: 0 <= p < q < |t.payments| ==> t.payments[p].invoice != t.payments[q].invoice)
    && (forall k, m :: 0 <= k < m < |t.ratings| ==> t.ratings[k].order != t.ratings[m].order)
  }

  /** An order that took stock has its invoice, and only an order that was
      approved has one. */
  ghost predicate InvoicesFollowApproval(t: Tables)
    requires WfTables(t)
  {
    && (forall o :: 0 <= o < |t.orders| && HoldsStock(t.orders[o].status) ==> HasInvoice(t.invoices, o))
    && (forall i :: 0 <= i < |t.invoices| ==>
          t.orders[t.invoices[i].order].status != Pending && t.orders[t.invoices[i].order].status != Rejected)
  }

  /** The flags carry their dates; a paid invoice has its payment, and a
      payment settles a paid invoice, completed, for its order's total price. */
  ghost predicate Settled(t: Tables)
    requires WfTables(t)
  {
    && (forall i :: 0 <= i < |t.invoices| ==>
          (t.invoices[i].isPaid <==> t.invoices[i].paymentDate.Some?) &&
          (t.invoices[i].adminApproval <==> t.invoices[i].adminApprovalDate.Some?) &&
          (t.invoices[i].isPaid ==> HasPayment(t.payments, i)))
    && (forall p :: 0 <= p < |t.payments| ==>
          t.invoices[t.payments[p].invoice].isPaid && t.payments[p].status == Completed &&
          t.payments[p].amount == t.orders[t.invoices[t.payments[p].invoice].order].totalPrice)
  }

  /** A rating is on a delivered order and scores 1 to 5. */
  ghost predicate Rated(t: Tables)
    requires WfTables(t)
  {
    forall k :: 0 <= k < |t.ratings| ==>
      t.orders[t.ratings[k].order].status == Delivered && ValidScore(t.ratings[k].score)
  }

  /** The state the endpoints keep. */
  ghost predicate ValidTables(t: Tables) {
    && WfTables(t)
    && (forall i :: 0 <= i < |t.orders| ==> t.orders[i].quantity > 0)
    && OneToOne(t)
    && InvoicesFollowApproval(t)
    && Settled(t)
    && Rated(t)
  }

  /** A fresh database satisfies every invariant. */
  lemma EmptyIsValid()
    ensures ValidTables(Tables([], [], [], [], []))
  {
  }

  class Db {
    var listings: seq<Listing>
    var orders: seq<Order>
    var invoices: seq<Invoice>
    var payments: seq<Payment>
    var ratings: seq<Rating>

    constructor ()
      ensures listings == [] && orders == [] && invoices == [] && payments == [] && ratings == []
    {
      listings, orders, invoices, payments, ratings := [], [], [], [], [];
    }

    function Snapshot(): Tables
      reads this
    {
      Tables(listings, orders, invoices, payments, ratings)
    }

    ghost predicate Wf()
      reads this
    {
      WfTables(Snapshot())
    }

    ghost predicate Valid()
      reads this
    {
      ValidTables(Snapshot())
    }
  }
}
