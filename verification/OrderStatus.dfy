/** The order saga's state machine (src/orders/order-status.ts). */
module OrderStatuses {

  datatype OrderStatus =
    | PENDING
    | STOCK_RESERVED
    | PAYMENT_AUTHORIZED
    | COMPLETED
    | COMPENSATING
    | COMPENSATED
    | FAILED

  datatype FailureCode =
    | OUT_OF_STOCK
    | PAYMENT_DECLINED
    | RECONCILED_TIMEOUT
    | RECONCILED_NO_CHARGE

  predicate IsTerminal(status: OrderStatus) {
    status == COMPLETED || status == COMPENSATED || status == FAILED
  }

  /** The arrows of the diagram at the head of the source file. */
  predicate Edge(before: OrderStatus, after: OrderStatus) {
    match before
    case PENDING => after == FAILED || after == STOCK_RESERVED
    case STOCK_RESERVED => after == PAYMENT_AUTHORIZED || after == COMPENSATING
    case PAYMENT_AUTHORIZED => after == COMPLETED
    case COMPENSATING => after == COMPENSATED
    case _ => false
  }

  /** `after` can be reached from `before` along zero or more arrows. */
  predicate Reaches(before: OrderStatus, after: OrderStatus) {
    match before
    case PENDING => true
    case STOCK_RESERVED => after != PENDING && after != FAILED
    case PAYMENT_AUTHORIZED => after == PAYMENT_AUTHORIZED || after == COMPLETED
    case COMPENSATING => after == COMPENSATING || after == COMPENSATED
    case _ => after == before
  }

  /** How far along the saga a status is; every arrow climbs by exactly one, except PENDING to FAILED. */
  function Rank(status: OrderStatus): nat {
    match status
    case PENDING => 0
    case STOCK_RESERVED => 1
    case PAYMENT_AUTHORIZED => 2
    case COMPENSATING => 2
    case COMPLETED => 3
    case COMPENSATED => 3
    case FAILED => 3
  }

  /** A path along the arrows. */
  ghost predicate Walk(path: seq<OrderStatus>) {
    |path| > 0 && forall i {:trigger path[i]} :: 0 < i < |path| ==> Edge(path[i - 1], path[i])
  }

  /** A walk of any length ends in a reachable status, and ranks climb strictly along it. */
  lemma WalksStayReachable(path: seq<OrderStatus>)
    requires Walk(path)
    ensures Reaches(path[0], path[|path| - 1])
    ensures |path| <= Rank(path[|path| - 1]) - Rank(path[0]) + 1
  {
  }

  /** Conversely every reachable status ends some walk, so `Reaches` is exactly the closure. */
  lemma ReachableByWalk(before: OrderStatus, after: OrderStatus) returns (path: seq<OrderStatus>)
    requires Reaches(before, after)
    ensures Walk(path) && path[0] == before && path[|path| - 1] == after
  {
    if before == after {
      path := [before];
    } else if Edge(before, after) {
      path := [before, after];
    } else if before == STOCK_RESERVED {
      path := [before, if after == COMPLETED then PAYMENT_AUTHORIZED else COMPENSATING, after];
    } else if Rank(after) == 2 {
      path := [before, STOCK_RESERVED, after];
    } else {
      path := [before, STOCK_RESERVED, if after == COMPLETED then PAYMENT_AUTHORIZED else COMPENSATING, after];
    }
  }

  lemma RankClimbs(before: OrderStatus, after: OrderStatus)
    requires Reaches(before, after)
    ensures Rank(before) <= Rank(after)
  {
  }

  /** Leaving a status for good means gaining rank, and exactly the terminal statuses cannot be left. */
  lemma LeavingRaisesRank(before: OrderStatus, after: OrderStatus)
    requires Reaches(before, after)
    ensures before != after ==> Rank(before) < Rank(after)
    ensures IsTerminal(before) <==> Rank(before) == 3
    ensures IsTerminal(before) <==> forall s: OrderStatus :: !Edge(before, s)
  {
    if !IsTerminal(before) {
      var s := if before == PENDING then FAILED
               else if before == STOCK_RESERVED then COMPENSATING
               else if before == PAYMENT_AUTHORIZED then COMPLETED else COMPENSATED;
      assert Edge(before, s);
    }
  }
}
