/** The entities of gas_management/models.py: closed enumerations for roles and
    statuses, one record per table row, and the invoice-number rule of
    `Invoice.save`. Money is in cents and weight in tenths of a kilogram, the
    fixed-point scales of the Decimal fields. */
module Models {
  import opened Common

  type UserId = nat

  /** A timestamp as `timezone.now()` yields it; always supplied by the caller. */
  type Time = int

  datatype Role = Buyer | Seller | Admin
  datatype Brand = Jibu | Meru | Total | Other
  datatype Status = Pending | Approved | Rejected | Delivered | Cancelled
  datatype PaymentStatus = PaymentPending | Completed | Failed

  /** The authenticated requester: its user id, the role of its profile (None
      when it has no profile; a user has at most one) and Django's is_staff flag. */
  datatype Actor = Actor(user: UserId, profile: Option<Role>, isStaff: bool)

  /** A GasInventory row. `quantity` is a PositiveIntegerField, hence a nat. */
  datatype Listing = Listing(brand: Brand, weightTenths: int, quantity: nat, unitPrice: int,
                             seller: UserId, location: string)

  /** An Order row; `listing` is the key of its GasInventory. */
  datatype Order = Order(listing: nat, buyer: UserId, quantity: nat, totalPrice: int, status: Status,
                         deliveryAddress: string, contactPhone: string)

  /** An Invoice row; `order` is the key of its Order (a one-to-one link). */
  datatype Invoice = Invoice(order: nat, number: string, isPaid: bool, paymentDate: Option<Time>,
                             adminApproval: bool, adminApprovalDate: Option<Time>)

  /** A Payment row; `invoice` is the key of its Invoice (a one-to-one link). */
  datatype Payment = Payment(invoice: nat, amount: int, status: PaymentStatus,
                             transactionId: Option<string>, paymentMethod: string)

  /** A Rating row; `order` is the key of its Order (a one-to-one link). */
  datatype Rating = Rating(order: nat, score: int, comment: string)

  const DefaultOrderStatus: Status := Pending

  /** An invoice as `Invoice.objects.create(order=...)` builds it before `save`:
      every flag at its default, no dates, and an empty number. */
  function NewInvoice(order: nat): Invoice {
    Invoice(order, "", false, None, false, None)
  }

  /** The choices of Rating.rating. */
  predicate ValidScore(score: int) {
    1 <= score <= 5
  }

  // ---------------------------------------------------------------------------
  // Invoice numbers: "INV-" followed by the first eight characters of a uuid4
  // hex string, upper-cased.

  predicate IsLowerHexDigit(c: char) { '0' <= c <= '9' || 'a' <= c <= 'f' }
  predicate IsUpperHexDigit(c: char) { '0' <= c <= '9' || 'A' <= c <= 'F' }

  /** `uuid.uuid4().hex`: 32 lower-case hexadecimal digits. The random draw
      itself is a parameter of the model. */
  predicate IsUuidHex(h: string) {
    |h| == 32 && forall i :: 0 <= i < |h| ==> IsLowerHexDigit(h[i])
  }

  function ToUpper(c: char): char {
    if 'a' <= c <= 'z' then (c as int - 32) as char else c
  }

  function ToLower(c: char): char {
    if 'A' <= c <= 'Z' then (c as int + 32) as char else c
  }

  /** The shape every generated invoice number has. */
  predicate WellFormedNumber(s: string) {
    |s| == 12 && s[..4] == "INV-" && forall k :: 4 <= k < 12 ==> IsUpperHexDigit(s[k])
  }

  /** `f'INV-{uuid.uuid4().hex[:8].upper()}'`. The number fits the field's
      max_length of 20, and lower-casing its last eight characters gives back
      the uuid prefix it was made from. */
  function InvoiceNumber(hex: string): (r: string)
    requires IsUuidHex(hex)
    ensures WellFormedNumber(r) && |r| <= 20
    ensures forall k :: 0 <= k < 8 ==> ToLower(r[4 + k]) == hex[k]
  {
    "INV-" + seq(8, k requires 0 <= k < 8 => ToUpper(hex[k]))
  }

  /** The number assignment of `Invoice.save`: a number is drawn only when the
      invoice has none, and nothing but the number can change. */
  function NumberOnSave(inv: Invoice, hex: string): (r: Invoice)
    requires IsUuidHex(hex)
    ensures r.(number := inv.number) == inv
    ensures inv.number != "" ==> r == inv
    ensures inv.number == "" ==> WellFormedNumber(r.number)
  {
    if inv.number == "" then inv.(number := InvoiceNumber(hex)) else inv
  }

  /** A number, once assigned, survives every later save, whatever uuid those
      saves would have drawn. */
  lemma NumberIsWriteOnce(inv: Invoice, first: string, later: string)
    requires IsUuidHex(first) && IsUuidHex(later)
    ensures NumberOnSave(NumberOnSave(inv, first), later) == NumberOnSave(inv, first)
  {
  }
}
