/** gas_management/serializers.py: what a client may write, the field
    validation DRF derives from the models, and the two `create` overrides
    that fill in server-side fields. */
module Serializers {
  import opened Common
  import opened Models
  import opened Lifecycle
  import opened Ledger
  import opened Database
  import opened Transitions
  import Signals

  /** The body of an order POST. `buyer`, `totalPrice` and `status` are what
      a client may send for the read-only fields; they are never used. */
  datatype OrderPayload = OrderPayload(gasInventory: nat, quantity: int, deliveryAddress: string,
                                       contactPhone: string, buyer: Option<UserId>,
                                       totalPrice: Option<int>, status: Option<Status>)

  /** The body of a listing POST; `seller` is read-only and never used. */
  datatype ListingPayload = ListingPayload(brand: Brand, weightTenths: int, quantity: int, unitPrice: int,
                                           location: string, seller: Option<UserId>)

  /** The body of a rating POST. */
  datatype RatingPayload = RatingPayload(order: nat, score: int, comment: string)

  /** The `gas_details` field of a serialized order. */
  datatype GasDetails = GasDetails(brand: Brand, weightTenths: int, unitPrice: int, location: string)

  /** Field validation of the writable order fields beyond those the view
      checks itself: delivery_address and contact_phone are required and
      non-blank, and the phone fits its max_length of 20. */
  predicate ValidOrderFields(p: OrderPayload) {
    |p.deliveryAddress| > 0 && 0 < |p.contactPhone| <= 20
  }

  /** The largest value a PositiveIntegerField accepts on a PostgreSQL or
      MySQL backend: DRF validates against the database's integer range. */
  const MaxQuantity: int := 2147483647

  /** Field validation of a listing: quantity is a PositiveIntegerField, from
      0 to MaxQuantity; weight_kg has at most 5 digits, one after the point; unit_price at most
      10 digits, two after the point; location is non-blank and at most 100
      characters. The brand is one of the choices by construction. */
  predicate ValidListingFields(p: ListingPayload) {
    && 0 <= p.quantity <= MaxQuantity
    && -100000 < p.weightTenths < 100000
    && -10000000000 < p.unitPrice < 10000000000
    && 0 < |p.location| <= 100
  }

  /** `get_gas_details`: exactly the listing's brand, weight, unit price and
      location, whatever its stock and seller. */
  function GetGasDetails(l: Listing): GasDetails {
    GasDetails(l.brand, l.weightTenths, l.unitPrice, l.location)
  }

  /** The details shown for an order do not move with the stock: approving or
      cancelling changes only a listing's quantity. */
  lemma GasDetailsIgnoreStock(l: Listing, q: nat, seller: UserId)
    ensures GetGasDetails(l.(quantity := q)) == GetGasDetails(l)
    ensures GetGasDetails(l.(seller := seller)) == GetGasDetails(l)
  {
  }

  /** `OrderSerializer.create`: the buyer is the requester, the total price is
      the listing's unit price times the quantity, computed here once, and
      the status is the model default PENDING. The row is then saved, which
      runs the post_save receiver (a no-op for a PENDING order). */
  method CreateOrderRecord(db: Db, requester: UserId, p: OrderPayload, hex: string) returns (id: nat)
    requires db.Wf() && p.gasInventory < |db.listings| && p.quantity >= 0 && IsUuidHex(hex)
    modifies db
    ensures db.Wf() && (old(db.Valid()) && p.quantity > 0 ==> db.Valid())
    ensures id == old(|db.orders|)
    ensures db.orders == old(db.orders) + [Order(p.gasInventory, requester, p.quantity,
                                                 old(db.listings[p.gasInventory].unitPrice) * p.quantity,
                                                 DefaultOrderStatus, p.deliveryAddress, p.contactPhone)]
    ensures db.listings == old(db.listings) && db.invoices == old(db.invoices)
    ensures db.payments == old(db.payments) && db.ratings == old(db.ratings)
  {
    var listing := db.listings[p.gasInventory];
    var order := Order(p.gasInventory, requester, p.quantity, listing.unitPrice * p.quantity,
                       DefaultOrderStatus, p.deliveryAddress, p.contactPhone);
    id := |db.orders|;
    db.orders := db.orders + [order];
    assert db.orders[id] == order;
    Signals.CreateInvoiceWhenOrderApproved(db, id, hex);
    if old(db.Valid()) && p.quantity > 0 {
      OrderAppendKeepsValid(old(db.Snapshot()), order);
      assert db.Snapshot() == old(db.Snapshot()).(orders := old(db.orders) + [order]);
    }
  }

  /** `GasInventorySerializer.create`: the seller is the requester, whatever
      the client sent. */
  method CreateListingRecord(db: Db, requester: UserId, p: ListingPayload) returns (id: nat)
    requires db.Wf() && p.quantity >= 0
    modifies db
    ensures db.Wf() && (old(db.Valid()) ==> db.Valid())
    ensures id == old(|db.listings|)
    ensures db.listings == old(db.listings) + [Listing(p.brand, p.weightTenths, p.quantity, p.unitPrice,
                                                       requester, p.location)]
    ensures db.orders == old(db.orders) && db.invoices == old(db.invoices)
    ensures db.payments == old(db.payments) && db.ratings == old(db.ratings)
  {
    id := |db.listings|;
    var listing := Listing(p.brand, p.weightTenths, p.quantity, p.unitPrice, requester, p.location);
    if db.Valid() {
      ListingAppendKeepsValid(db.Snapshot(), listing);
    }
    db.listings := db.listings + [listing];
  }
}
