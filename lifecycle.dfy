/** The order lifecycle the views implement: the status edges of approve,
    reject, cancel and mark_delivered, and what any run of endpoint calls may do
    to the order table. */
module Lifecycle {
  import opened Models

  /** One endpoint call moves an order along exactly these edges. */
  predicate Edge(from: Status, to: Status) {
    match from
    case Pending => to == Approved || to == Rejected || to == Cancelled
    case Approved => to == Delivered || to == Cancelled
    case Rejected => false
    case Delivered => false
    case Cancelled => false
  }

  predicate Terminal(s: Status) {
    s == Rejected || s == Delivered || s == Cancelled
  }

  /** Statuses whose quantity has been taken out of the listing's stock. */
  predicate HoldsStock(s: Status) {
    s == Approved || s == Delivered
  }

  /** Zero or more edges, spelled out: the only path of two edges is
      PENDING, APPROVED, DELIVERED/CANCELLED, and none is longer. */
  predicate Reachable(from: Status, to: Status) {
    from == to || Edge(from, to) || (from == Pending && to == Delivered)
  }

  /** Reachable is the reflexive-transitive closure of Edge, and a terminal
      status reaches nothing but itself. */
  lemma ReachableIsClosure(a: Status, b: Status, c: Status)
    ensures Reachable(a, a)
    ensures Edge(a, b) ==> Reachable(a, b)
    ensures Reachable(a, b) && Reachable(b, c) ==> Reachable(a, c)
    ensures Reachable(a, b) && a != b ==> Edge(a, b) || (Edge(a, Approved) && Edge(Approved, b))
    ensures Terminal(a) ==> !Edge(a, b) && (Reachable(a, b) <==> b == a)
  {
  }

  /** The order table after some calls, against the one before: rows are only
      appended, only a row's status may differ, and it moved forward along the
      edges. Quantity, buyer, listing and total price are frozen. */
  ghost predicate Evolves(before: seq<Order>, after: seq<Order>) {
    |before| <= |after| &&
    forall i :: 0 <= i < |before| ==>
      after[i].(status := before[i].status) == before[i] && Reachable(before[i].status, after[i].status)
  }

  /** Moving one order along an edge of the lifecycle is an evolution of the
      table. */
  lemma EvolvesByEdge(orders: seq<Order>, id: nat, s: Status)
    requires id < |orders| && Edge(orders[id].status, s)
    ensures Evolves(orders, orders[id := orders[id].(status := s)])
  {
    forall i | 0 <= i < |orders|
      ensures orders[id := orders[id].(status := s)][i].(status := orders[i].status) == orders[i]
      ensures Reachable(orders[i].status, orders[id := orders[id].(status := s)][i].status)
    {
      ReachableIsClosure(orders[i].status, s, s);
    }
  }

  lemma EvolvesTransitive(a: seq<Order>, b: seq<Order>, c: seq<Order>)
    requires Evolves(a, b) && Evolves(b, c)
    ensures Evolves(a, c)
  {
    forall i | 0 <= i < |a|
      ensures c[i].(status := a[i].status) == a[i] && Reachable(a[i].status, c[i].status)
    {
      ReachableIsClosure(a[i].status, b[i].status, c[i].status);
    }
  }

  /** Over any history whose every step is an endpoint call, the last table
      evolves from the first. */
  lemma {:induction false} HistoryEvolves(h: seq<seq<Order>>)
    requires |h| > 0
    requires forall k :: 0 <= k < |h| - 1 ==> Evolves(h[k], h[k + 1])
    ensures Evolves(h[0], h[|h| - 1])
  {
    if |h| == 1 {
    } else {
      HistoryEvolves(h[..|h| - 1]);
      EvolvesTransitive(h[0], h[|h| - 2], h[|h| - 1]);
    }
  }

  /** An order's total price, fixed at creation, is the same at the end of any
      history; and an order that was REJECTED, DELIVERED or CANCELLED is
      untouched by it. */
  lemma FrozenOverHistory(h: seq<seq<Order>>, i: nat)
    requires |h| > 0 && i < |h[0]|
    requires forall k :: 0 <= k < |h| - 1 ==> Evolves(h[k], h[k + 1])
    ensures i < |h[|h| - 1]|
    ensures h[|h| - 1][i].totalPrice == h[0][i].totalPrice
    ensures h[|h| - 1][i].quantity == h[0][i].quantity
    ensures Terminal(h[0][i].status) ==> h[|h| - 1][i] == h[0][i]
  {
    HistoryEvolves(h);
    var last := h[|h| - 1];
    assert last[i].(status := h[0][i].status) == h[0][i];
    ReachableIsClosure(h[0][i].status, last[i].status, last[i].status);
  }
}
