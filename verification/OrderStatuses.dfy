/** The order life cycle table shared by the API and the front ends. */
module OrderStatuses {
  datatype OrderStatus =
    | AwaitingPayment
    | Pending
    | Accepted
    | Preparing
    | Ready
    | AwaitingDriver
    | OutForDelivery
    | Delivered
    | DeliveryFailed
    | Cancelled

  function Transitions(from: OrderStatus): set<OrderStatus> {
    match from
    case AwaitingPayment => {Pending, Cancelled}
    case Pending => {Accepted, Cancelled}
    case Accepted => {Preparing, Cancelled}
    case Preparing => {Ready, Cancelled}
    case Ready => {AwaitingDriver, OutForDelivery, Delivered, Cancelled}
    case AwaitingDriver => {OutForDelivery, Cancelled}
    case OutForDelivery => {Delivered, DeliveryFailed}
    case Delivered => {}
    case DeliveryFailed => {}
    case Cancelled => {}
  }

  predicate CanTransition(from: OrderStatus, to: OrderStatus) {
    to in Transitions(from)
  }

  /** The longest distance of a status from the start of the life cycle. */
  function Stage(status: OrderStatus): nat {
    match status
    case AwaitingPayment => 0
    case Pending => 1
    case Accepted => 2
    case Preparing => 3
    case Ready => 4
    case AwaitingDriver => 5
    case OutForDelivery => 6
    case Delivered => 7
    case DeliveryFailed => 7
    case Cancelled => 7
  }

  ghost predicate IsPath(path: seq<OrderStatus>) {
    forall i | 0 < i < |path| :: CanTransition(path[i - 1], path[i])
  }

  /** No walk through the table revisits a status, so every life cycle is finite. */
  lemma {:induction false} WalksAreAcyclic(path: seq<OrderStatus>)
    requires IsPath(path)
    ensures forall i, j | 0 <= i < j < |path| :: Stage(path[i]) < Stage(path[j])
    ensures |path| <= 8
  {
    if |path| > 1 {
      var init := path[..|path| - 1];
      WalksAreAcyclic(init);
      var last := |path| - 1;
      assert CanTransition(path[last - 1], path[last]);
      forall i, j | 0 <= i < j < |path| ensures Stage(path[i]) < Stage(path[j]) {
        if j < last {
          assert init[i] == path[i] && init[j] == path[j];
        } else if i < last - 1 {
          assert init[i] == path[i] && init[last - 1] == path[last - 1];
        }
      }
      StagesCount(path);
    }
  }

  lemma {:induction false} StagesCount(path: seq<OrderStatus>)
    requires |path| > 0
    requires forall i, j | 0 <= i < j < |path| :: Stage(path[i]) < Stage(path[j])
    ensures Stage(path[|path| - 1]) >= |path| - 1
  {
    if |path| > 1 {
      StagesCount(path[..|path| - 1]);
    }
  }
}
