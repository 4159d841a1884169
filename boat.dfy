/**
 * The boat: a FIFO of timed orders, the order currently in effect, and the
 * per-frame motion step that the order in effect drives.
 */
module Boats {
  import opened Basics

  datatype OrderType = NoSpeed | HalfSpeed | FullSpeed | HalfLeft | FullLeft | HalfRight | FullRight

  predicate IsTurn(k: OrderType) {
    k in {HalfLeft, FullLeft, HalfRight, FullRight}
  }

  /** A timed order. `startTime` is stamped when the order is queued and stamped again when it becomes current. */
  datatype Order = Order(kind: OrderType, duration: int, startTime: int)

  const DefaultOrderDuration: int := 3000
  const MaxSpeed: real := 100.0
  const SpeedMultiplier: real := 1.0
  const TurnMultiplier: real := 1.0
  const Width: real := 60.0
  const Height: real := 30.0

  /** Neither velocity component is faster than `MaxSpeed`. */
  predicate SpeedLimited(v: Vec2) {
    Abs(v.x) <= MaxSpeed && Abs(v.y) <= MaxSpeed
  }

  function KindOf(current: Option<Order>): Option<OrderType> {
    if current.Some? then Some(current.value.kind) else None
  }

  /** The magnitude a helm or throttle order gives its velocity component. */
  function OrderedSpeed(k: OrderType): real {
    if k in {FullSpeed, FullLeft, FullRight} then MaxSpeed else MaxSpeed / 2.0
  }

  /**
   * The velocity `updateMovement` leaves, given the kind of order in effect (if any)
   * and the velocity before the frame.
   */
  function Steer(current: Option<OrderType>, v: Vec2): (w: Vec2)
    // no order: the boat coasts, both components damped by 5%
    ensures current.None? ==> w.x == 0.95 * v.x && w.y == 0.95 * v.y
    // a stop order damps both components by 10%
    ensures current == Some(NoSpeed) ==> w.x == 0.9 * v.x && w.y == 0.9 * v.y
    // a throttle order drives the boat up the canvas and leaves the sideways component alone
    ensures current.Some? && current.value in {HalfSpeed, FullSpeed} ==>
              w.x == v.x && w.y == -OrderedSpeed(current.value) && w.y < 0.0
    // a helm order sets only the sideways component: negative to the left, positive to the right
    ensures current.Some? && IsTurn(current.value) ==>
              w.y == v.y && Abs(w.x) == OrderedSpeed(current.value) &&
              (w.x < 0.0 <==> current.value in {HalfLeft, FullLeft})
    // no frame makes the boat faster than its maximum speed
    ensures SpeedLimited(v) ==> SpeedLimited(w)
    // with no order or a stop order, neither component grows
    ensures current.None? || current == Some(NoSpeed) ==> Abs(w.x) <= Abs(v.x) && Abs(w.y) <= Abs(v.y)
  {
    match current
    case None => Vec2(v.x * 0.95, v.y * 0.95)
    case Some(k) =>
      match k
      case NoSpeed => Vec2(v.x * 0.9, v.y * 0.9)
      case HalfSpeed => v.(y := -MaxSpeed * SpeedMultiplier * 0.5)
      case FullSpeed => v.(y := -MaxSpeed * SpeedMultiplier)
      case HalfLeft => v.(x := -MaxSpeed * TurnMultiplier * 0.5)
      case FullLeft => v.(x := -MaxSpeed * TurnMultiplier)
      case HalfRight => v.(x := MaxSpeed * TurnMultiplier * 0.5)
      case FullRight => v.(x := MaxSpeed * TurnMultiplier)
  }

  /** `position += velocity * dt / 1000`, with `dt` in milliseconds and velocity in pixels per second. */
  function Advance(p: Vec2, v: Vec2, dt: real): Vec2 {
    Vec2(p.x + v.x * dt / 1000.0, p.y + v.y * dt / 1000.0)
  }

  /** Velocity after `n` frames without an order in effect. */
  function Coast(v: Vec2, n: nat): Vec2 {
    if n == 0 then v else Steer(None, Coast(v, n - 1))
  }

  function Pow(b: real, n: nat): real {
    if n == 0 then 1.0 else b * Pow(b, n - 1)
  }

  /** A boat with no order in effect slows geometrically: after `n` frames its velocity is `0.95^n` of what it was. */
  lemma {:induction false} CoastIsGeometric(v: Vec2, n: nat)
    ensures Coast(v, n) == Vec2(Pow(0.95, n) * v.x, Pow(0.95, n) * v.y)
  {
    if n > 0 {
      CoastIsGeometric(v, n - 1);
      var p := Pow(0.95, n - 1);
      var w := Coast(v, n - 1);
      assert Coast(v, n) == Vec2(w.x * 0.95, w.y * 0.95) by {
        assert Coast(v, n) == Steer(None, w);
      }
      assert Pow(0.95, n) == 0.95 * p;
      DampScaled(p, v.x);
      DampScaled(p, v.y);
    }
  }

  lemma DampScaled(p: real, c: real)
    ensures (p * c) * 0.95 == (0.95 * p) * c
  {
  }

  /** An order's timer has run out once `duration` milliseconds have passed since its start. */
  predicate Expired(o: Order, now: int) {
    now - o.startTime >= o.duration
  }

  /**
   * `processOrders` on values: with no current order, the queue head becomes current and is
   * restamped with `now`; then the current order is dropped if its timer has run out.
   * Returns the new current order and the new queue.
   */
  function Processed(current: Option<Order>, queue: seq<Order>, now: int): (r: (Option<Order>, seq<Order>))
    // the head is promoted only into an empty slot, and then leaves the queue
    ensures current.None? && queue != [] ==>
              r.1 == queue[1..] &&
              (r.0.None? <==> queue[0].duration <= 0) &&
              (r.0.Some? ==> r.0.value == queue[0].(startTime := now))
    // otherwise the queue is untouched
    ensures !(current.None? && queue != []) ==> r.1 == queue
    // an order already in effect stays until its timer runs out, and is dropped exactly then
    ensures current.Some? ==> (r.0.None? <==> Expired(current.value, now)) && (r.0.Some? ==> r.0 == current)
    // whatever is left in effect has time left
    ensures r.0.Some? ==> !Expired(r.0.value, now)
    ensures current.None? && queue == [] ==> r.0.None?
  {
    var promote := current.None? && queue != [];
    var slot := if promote then Some(queue[0].(startTime := now)) else current;
    var rest := if promote then queue[1..] else queue;
    if slot.Some? && Expired(slot.value, now) then (None, rest) else (slot, rest)
  }

  class Boat {
    var position: Vec2
    var velocity: Vec2
    var currentOrder: Option<Order>
    var orderQueue: seq<Order>
    /** Every order handed to `AddOrder`, in the order given. */
    ghost var Added: seq<Order>
    /** The orders that have become current, in the order promoted, as they stood in the queue. */
    ghost var Promoted: seq<Order>

    ghost predicate Valid()
      reads this
    {
      // FIFO: every order added has either been promoted or is still queued, in the order added
      && Added == Promoted + orderQueue
      // the order in effect is the one promoted last, restamped
      && (currentOrder.Some? ==>
            Promoted != [] &&
            currentOrder.value == Promoted[|Promoted| - 1].(startTime := currentOrder.value.startTime))
      // a non-positive duration never survives the call that promotes it
      && (currentOrder.Some? ==> currentOrder.value.duration > 0)
      && SpeedLimited(velocity)
    }

    constructor (x: real, y: real)
      ensures Valid()
      ensures position == Vec2(x, y) && velocity == Vec2(0.0, 0.0)
      ensures currentOrder == None && orderQueue == []
      ensures Added == [] && Promoted == []
    {
      position := Vec2(x, y);
      velocity := Vec2(0.0, 0.0);
      currentOrder := None;
      orderQueue := [];
      Added := [];
      Promoted := [];
    }

    method AddOrder(kind: OrderType, now: int, duration: int := DefaultOrderDuration)
      requires Valid()
      modifies this
      ensures Valid()
      ensures orderQueue == old(orderQueue) + [Order(kind, duration, now)]
      ensures currentOrder == old(currentOrder)
      ensures position == old(position) && velocity == old(velocity)
      ensures Added == old(Added) + [Order(kind, duration, now)] && Promoted == old(Promoted)
    {
      var order := Order(kind, duration, now);
      orderQueue := orderQueue + [order];
      Added := Added + [order];
    }

    /** One frame: orders first, then movement, so the velocity follows the order left in effect. */
    method Update(deltaTime: real, now: int)
      requires Valid()
      modifies this
      ensures Valid()
      ensures (currentOrder, orderQueue) == Processed(old(currentOrder), old(orderQueue), now)
      ensures velocity == Steer(KindOf(currentOrder), old(velocity))
      ensures position == Advance(old(position), velocity, deltaTime)
      ensures Added == old(Added)
    {
      ProcessOrders(now);
      UpdateMovement(deltaTime);
    }

    method ProcessOrders(now: int)
      requires Valid()
      modifies this
      ensures Valid()
      ensures (currentOrder, orderQueue) == Processed(old(currentOrder), old(orderQueue), now)
      ensures position == old(position) && velocity == old(velocity)
      ensures Added == old(Added)
      ensures Promoted == if old(currentOrder).None? && old(orderQueue) != []
                          then old(Promoted) + [old(orderQueue)[0]] else old(Promoted)
    {
      if currentOrder.None? && |orderQueue| > 0 {
        var head := orderQueue[0];
        orderQueue := orderQueue[1..];
        currentOrder := Some(head.(startTime := now));
        Promoted := Promoted + [head];
      }
      if currentOrder.Some? {
        var elapsed := now - currentOrder.value.startTime;
        if elapsed >= currentOrder.value.duration {
          currentOrder := None;
        }
      }
    }

    method UpdateMovement(deltaTime: real)
      requires Valid()
      modifies this
      ensures Valid()
      ensures velocity == Steer(KindOf(currentOrder), old(velocity))
      ensures position == Advance(old(position), velocity, deltaTime)
      ensures currentOrder == old(currentOrder) && orderQueue == old(orderQueue)
      ensures Added == old(Added) && Promoted == old(Promoted)
    {
      if currentOrder.None? {
        velocity := velocity.(x := velocity.x * 0.95);
        velocity := velocity.(y := velocity.y * 0.95);
        position := Advance(position, velocity, deltaTime);
        return;
      }
      match currentOrder.value.kind {
        case NoSpeed =>
          velocity := velocity.(x := velocity.x * 0.9);
          velocity := velocity.(y := velocity.y * 0.9);
        case HalfSpeed =>
          velocity := velocity.(y := -MaxSpeed * SpeedMultiplier * 0.5);
        case FullSpeed =>
          velocity := velocity.(y := -MaxSpeed * SpeedMultiplier);
        case HalfLeft =>
          velocity := velocity.(x := -MaxSpeed * TurnMultiplier * 0.5);
        case FullLeft =>
          velocity := velocity.(x := -MaxSpeed * TurnMultiplier);
        case HalfRight =>
          velocity := velocity.(x := MaxSpeed * TurnMultiplier * 0.5);
        case FullRight =>
          velocity := velocity.(x := MaxSpeed * TurnMultiplier);
      }
      position := Advance(position, velocity, deltaTime);
    }

    /** Fraction of the current order's duration that has passed, capped at 1; 0 with no order. */
    function OrderProgress(now: int): (p: Num)
      reads this
      requires Valid()
      ensures currentOrder.None? ==> p == Finite(0.0)
      ensures p.Finite? && p.value <= 1.0
      ensures currentOrder.Some? && now >= currentOrder.value.startTime ==> 0.0 <= p.value
      ensures currentOrder.Some? ==> (p.value == 1.0 <==> Expired(currentOrder.value, now))
    {
      if currentOrder.None? then Finite(0.0)
      else MinRatioOne(now - currentOrder.value.startTime, currentOrder.value.duration)
    }

    function CurrentOrderType(): (k: Option<OrderType>)
      reads this
      ensures k.Some? <==> currentOrder.Some?
      ensures k.Some? ==> k.value == currentOrder.value.kind
    {
      KindOf(currentOrder)
    }
  }
}
