/** gas_management/signals.py: the post_save receiver on Order. Every save of
    an order runs it. */
module Signals {
  import opened Common
  import opened Models
  import opened Lifecycle
  import opened Database

  /** `create_invoice_when_order_approved`, with the invoice it evidently
      means to create: when the saved order is APPROVED and has no invoice
      yet, one invoice with default flags is created, numbered by
      `Invoice.save`. Otherwise nothing happens, which makes repeated saves
      idempotent. */
  method CreateInvoiceWhenOrderApproved(db: Db, id: nat, hex: string)
    requires db.Wf() && id < |db.orders| && IsUuidHex(hex)
    modifies db
    ensures db.Wf()
    ensures db.listings == old(db.listings) && db.orders == old(db.orders)
    ensures db.payments == old(db.payments) && db.ratings == old(db.ratings)
    ensures db.invoices ==
              if old(db.orders[id].status == Approved && !HasInvoice(db.invoices, id))
              then old(db.invoices) + [NumberOnSave(NewInvoice(id), hex)]
              else old(db.invoices)
    ensures db.orders[id].status == Approved ==> HasInvoice(db.invoices, id)
    ensures forall o :: HasInvoice(db.invoices, o) <==> HasInvoice(old(db.invoices), o) || (o == id && db.orders[id].status == Approved)
  {
    if db.orders[id].status == Approved && !HasInvoice(db.invoices, id) {
      var inv := NumberOnSave(NewInvoice(id), hex);
      forall o ensures HasInvoice(db.invoices + [inv], o) <==> HasInvoice(db.invoices, o) || inv.order == o {
        HasInvoiceAppend(db.invoices, inv, o);
      }
      db.invoices := db.invoices + [inv];
    }
  }

  /** `order.save()` on an existing order: the row is written, then the
      receiver runs on it. */
  method SaveOrder(db: Db, id: nat, o: Order, hex: string)
    requires db.Wf() && id < |db.orders| && o.listing < |db.listings| && IsUuidHex(hex)
    modifies db
    ensures db.Wf()
    ensures db.orders == old(db.orders)[id := o] && db.listings == old(db.listings)
    ensures db.payments == old(db.payments) && db.ratings == old(db.ratings)
    ensures db.invoices ==
              if o.status == Approved && !old(HasInvoice(db.invoices, id))
              then old(db.invoices) + [NumberOnSave(NewInvoice(id), hex)]
              else old(db.invoices)
  {
    db.orders := db.orders[id := o];
    CreateInvoiceWhenOrderApproved(db, id, hex);
  }
}
