/** The inventory ledger: how much of a listing's stock the orders in each
    status account for. */
module Ledger {
  import opened Models

  /** The listing's quantity, 0 for a key with no listing. */
  function Stock(listings: seq<Listing>, l: nat): nat {
    if l < |listings| then listings[l].quantity else 0
  }

  /** What one order contributes to the sum for listing `l` and status `s`. */
  function Share(o: Order, l: nat, s: Status): nat {
    if o.listing == l && o.status == s then o.quantity else 0
  }

  /** The total quantity of the orders on listing `l` whose status is `s`. */
  function Held(orders: seq<Order>, l: nat, s: Status): nat
    decreases |orders|
  {
    if |orders| == 0 then 0 else Held(orders[..|orders| - 1], l, s) + Share(orders[|orders| - 1], l, s)
  }

  /** Creating an order adds exactly its own share. */
  lemma HeldAppend(orders: seq<Order>, o: Order, l: nat, s: Status)
    ensures Held(orders + [o], l, s) == Held(orders, l, s) + Share(o, l, s)
  {
    assert (orders + [o])[..|orders|] == orders;
  }

  /** Rewriting one order swaps its old share for its new one and leaves every
      other order's share in place. */
  lemma {:induction false} HeldUpdate(orders: seq<Order>, i: nat, o: Order, l: nat, s: Status)
    requires i < |orders|
    ensures Held(orders[i := o], l, s) + Share(orders[i], l, s) == Held(orders, l, s) + Share(o, l, s)
  {
    var n := |orders|;
    var u := orders[i := o];
    if i == n - 1 {
      assert u[..n - 1] == orders[..n - 1];
    } else {
      assert u[..n - 1] == orders[..n - 1][i := o];
      HeldUpdate(orders[..n - 1], i, o, l, s);
    }
  }

  /** A listing no order refers to holds nothing. */
  lemma {:induction false} HeldNone(orders: seq<Order>, l: nat, s: Status)
    requires forall i :: 0 <= i < |orders| ==> orders[i].listing != l
    ensures Held(orders, l, s) == 0
  {
    if |orders| > 0 {
      HeldNone(orders[..|orders| - 1], l, s);
    }
  }

  /** For every listing, its stock plus what its APPROVED orders hold is the
      same before and after: stock only moves between the shelf and approved
      orders. */
  ghost predicate ReservationsBalance(l0: seq<Listing>, o0: seq<Order>, l1: seq<Listing>, o1: seq<Order>) {
    forall l :: Stock(l1, l) + Held(o1, l, Approved) == Stock(l0, l) + Held(o0, l, Approved)
  }

  /** For every listing, its DELIVERED orders hold the same quantity. */
  ghost predicate DeliveriesKept(o0: seq<Order>, o1: seq<Order>) {
    forall l :: Held(o1, l, Delivered) == Held(o0, l, Delivered)
  }

  /** Approving a PENDING order while taking its quantity from its listing
      keeps both balances. */
  lemma ApproveBalances(l0: seq<Listing>, o0: seq<Order>, id: nat)
    requires id < |o0| && o0[id].listing < |l0| && o0[id].status == Pending
    requires o0[id].quantity <= l0[o0[id].listing].quantity
    ensures var o := o0[id];
            var l1 := l0[o.listing := l0[o.listing].(quantity := l0[o.listing].quantity - o.quantity)];
            var o1 := o0[id := o.(status := Approved)];
            ReservationsBalance(l0, o0, l1, o1) && DeliveriesKept(o0, o1)
  {
    var o := o0[id];
    var l1 := l0[o.listing := l0[o.listing].(quantity := l0[o.listing].quantity - o.quantity)];
    var ap := o.(status := Approved);
    forall l ensures Stock(l1, l) + Held(o0[id := ap], l, Approved) == Stock(l0, l) + Held(o0, l, Approved)
                  && Held(o0[id := ap], l, Delivered) == Held(o0, l, Delivered)
    {
      HeldUpdate(o0, id, ap, l, Approved);
      HeldUpdate(o0, id, ap, l, Delivered);
    }
  }

  /** Cancelling a PENDING or APPROVED order, with its quantity returned to
      the listing exactly when it was APPROVED, keeps both balances. */
  lemma CancelBalances(l0: seq<Listing>, o0: seq<Order>, id: nat)
    requires id < |o0| && o0[id].listing < |l0|
    requires o0[id].status == Pending || o0[id].status == Approved
    ensures var o := o0[id];
            var l1 := if o.status == Approved
                      then l0[o.listing := l0[o.listing].(quantity := l0[o.listing].quantity + o.quantity)]
                      else l0;
            var o1 := o0[id := o.(status := Cancelled)];
            ReservationsBalance(l0, o0, l1, o1) && DeliveriesKept(o0, o1)
  {
    var o := o0[id];
    var l1 := if o.status == Approved
              then l0[o.listing := l0[o.listing].(quantity := l0[o.listing].quantity + o.quantity)]
              else l0;
    var c := o.(status := Cancelled);
    forall l ensures Stock(l1, l) + Held(o0[id := c], l, Approved) == Stock(l0, l) + Held(o0, l, Approved)
                  && Held(o0[id := c], l, Delivered) == Held(o0, l, Delivered)
    {
      HeldUpdate(o0, id, c, l, Approved);
      HeldUpdate(o0, id, c, l, Delivered);
    }
  }

  /** Delivering an APPROVED order moves its quantity from what the listing's
      APPROVED orders hold to what its DELIVERED orders hold; no other listing
      is affected. */
  lemma DeliverMoves(o0: seq<Order>, id: nat)
    requires id < |o0| && o0[id].status == Approved
    ensures var o := o0[id];
            var o1 := o0[id := o.(status := Delivered)];
            && Held(o1, o.listing, Approved) + o.quantity == Held(o0, o.listing, Approved)
            && Held(o1, o.listing, Delivered) == Held(o0, o.listing, Delivered) + o.quantity
            && (forall l :: l != o.listing ==>
                  Held(o1, l, Approved) == Held(o0, l, Approved) && Held(o1, l, Delivered) == Held(o0, l, Delivered))
            && (forall l :: Held(o1, l, Approved) + Held(o1, l, Delivered) == Held(o0, l, Approved) + Held(o0, l, Delivered))
  {
    var o := o0[id];
    var d := o.(status := Delivered);
    forall l ensures Held(o0[id := d], l, Approved) + Share(o, l, Approved) == Held(o0, l, Approved)
                  && Held(o0[id := d], l, Delivered) == Held(o0, l, Delivered) + Share(d, l, Delivered)
    {
      HeldUpdate(o0, id, d, l, Approved);
      HeldUpdate(o0, id, d, l, Delivered);
    }
  }
}
