/**
 * Previous / next problem navigation in the top bar: the ordinal of the next
 * problem, wrapping around inside `[1, MaxOrder]`.
 */
module Topbar {

  /** The number of problems, fixed in the click handler. */
  const MaxOrder: int := 5

  function Direction(isForward: bool): int {
    if isForward then 1 else -1
  }

  /**
   * The ordinal reached by one click from `order`. It lands in range whatever
   * `order` the problem document holds, not only for one already in range.
   */
  function NextOrder(order: int, isForward: bool): (newOrder: int)
    ensures 1 <= newOrder <= MaxOrder
  {
    var newOrder := order + Direction(isForward);
    if newOrder > MaxOrder then 1
    else if newOrder < 1 then MaxOrder
    else newOrder
  }

  /** Inside the range a click moves by one, except that it wraps at both ends. */
  lemma NextOrderInRange(order: int)
    requires 1 <= order <= MaxOrder
    ensures NextOrder(order, true) == if order == MaxOrder then 1 else order + 1
    ensures NextOrder(order, false) == if order == 1 then MaxOrder else order - 1
  {
  }

  /** Forward then back, and back then forward, return to the starting problem. */
  lemma NextOrderInverse(order: int)
    requires 1 <= order <= MaxOrder
    ensures NextOrder(NextOrder(order, true), false) == order
    ensures NextOrder(NextOrder(order, false), true) == order
  {
  }

  /** The ordinal after `clicks` clicks in one direction. */
  ghost function Walk(order: int, isForward: bool, clicks: nat): int
    decreases clicks
  {
    if clicks == 0 then order else Walk(NextOrder(order, isForward), isForward, clicks - 1)
  }

  /** Repeated forward clicks count up modulo the number of problems. */
  lemma {:induction false} WalkForward(order: int, clicks: nat)
    requires 1 <= order <= MaxOrder
    ensures Walk(order, true, clicks) == (order - 1 + clicks) % MaxOrder + 1
    decreases clicks
  {
    if clicks > 0 {
      var next := NextOrder(order, true);
      assert next - 1 == order % MaxOrder;
      WalkForward(next, clicks - 1);
      assert (order % MaxOrder + (clicks - 1)) % MaxOrder == (order - 1 + clicks) % MaxOrder by {
        if order == MaxOrder {
          assert order % MaxOrder + (clicks - 1) == (order - 1 + clicks) - MaxOrder;
        }
      }
    }
  }

  /** Repeated backward clicks count down modulo the number of problems. */
  lemma {:induction false} WalkBackward(order: int, clicks: nat)
    requires 1 <= order <= MaxOrder
    ensures Walk(order, false, clicks) == (order - 1 - clicks) % MaxOrder + 1
    decreases clicks
  {
    if clicks > 0 {
      var next := NextOrder(order, false);
      assert next - 1 == (order - 2) % MaxOrder;
      WalkBackward(next, clicks - 1);
      assert ((order - 2) % MaxOrder - (clicks - 1)) % MaxOrder == (order - 1 - clicks) % MaxOrder by {
        if order == 1 {
          assert (order - 2) % MaxOrder - (clicks - 1) == (order - 1 - clicks) + MaxOrder;
        }
      }
    }
  }

  /**
   * Navigation is cyclic: `MaxOrder` clicks in either direction come back to the
   * start, and every problem is reached from any other in fewer clicks than that.
   */
  lemma WalkIsCyclic(order: int, target: int, isForward: bool)
    requires 1 <= order <= MaxOrder && 1 <= target <= MaxOrder
    ensures Walk(order, isForward, MaxOrder as nat) == order
    ensures exists k: nat :: k < MaxOrder && Walk(order, isForward, k) == target
  {
    if isForward {
      WalkForward(order, MaxOrder as nat);
      var k: nat := (target - order) % MaxOrder;
      WalkForward(order, k);
      assert Walk(order, isForward, k) == target;
    } else {
      WalkBackward(order, MaxOrder as nat);
      var k: nat := (order - target) % MaxOrder;
      WalkBackward(order, k);
      assert Walk(order, isForward, k) == target;
    }
  }
}
