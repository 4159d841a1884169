/**
 * The game: one boat, one target and the boat's order scheduler on a canvas,
 * with the play-area clamp, the win check and its score, restart and resize.
 */
module Game {
  import opened Basics
  import opened Boats
  import opened Targets
  import opened Orders

  datatype Status = Playing | Won | Paused

  /** How far inside the canvas edges the boat's box must stay. */
  const Margin: real := 10.0
  const MaxScore: int := 1000

  /** Whether a box of half-size `half` centred at `p` keeps `Margin` clear of both ends of `[0, extent]`. */
  predicate InBand(p: real, half: real, extent: real) {
    Margin + half <= p && p + half <= extent - Margin
  }

  /**
   * One axis of `keepBoatInBounds`: the new position and velocity. The low end is tested
   * first and the high end then tests the possibly moved position, so on a canvas too
   * narrow for the box the high end wins.
   */
  function ClampAxis(p: real, v: real, half: real, extent: real): (r: (real, real))
    // on a canvas wide enough, the box ends inside the band
    ensures half >= 0.0 && extent >= 2.0 * Margin + 2.0 * half ==> InBand(r.0, half, extent)
    // an axis already in bounds keeps both its position and its velocity
    ensures InBand(p, half, extent) ==> r == (p, v)
    // an axis that had to be clamped stops
    ensures !InBand(p, half, extent) ==> r.1 == 0.0
    // it is moved to one of the two limits
    ensures !InBand(p, half, extent) ==> r.0 == Margin + half || r.0 == extent - Margin - half
  {
    var (p1, v1) := if p - half < Margin then (Margin + half, 0.0) else (p, v);
    if p1 + half > extent - Margin then (extent - Margin - half, 0.0) else (p1, v1)
  }

  /** Clamping twice is clamping once. */
  lemma ClampIdempotent(p: real, v: real, half: real, extent: real)
    requires half >= 0.0 && extent >= 2.0 * Margin + 2.0 * half
    ensures var r := ClampAxis(p, v, half, extent); ClampAxis(r.0, r.1, half, extent) == r
  {
  }

  /**
   * The score for reaching the target `elapsed` milliseconds after the start:
   * `max(0, 1000 - floor(elapsed / 100))`. Dafny's `/` on a positive divisor rounds
   * down, as `Math.floor` does, also for a negative `elapsed`.
   */
  function Score(elapsed: int): (s: int)
    ensures 0 <= s
    ensures elapsed >= 0 ==> s <= MaxScore
    ensures s == 0 <==> elapsed >= 100 * MaxScore
    ensures 0 <= elapsed < 100 ==> s == MaxScore
    // one point is lost per full 100 ms
    ensures 0 <= elapsed < 100 * MaxScore ==> (MaxScore - s) * 100 <= elapsed < (MaxScore - s + 1) * 100
  {
    Max(0, MaxScore - elapsed / 100)
  }

  /** Reaching the target later never scores more. */
  lemma ScoreNonIncreasing(earlier: int, later: int)
    requires earlier <= later
    ensures Score(later) <= Score(earlier)
  {
    var qe, ql := earlier / 100, later / 100;
    assert earlier == 100 * qe + earlier % 100;
    assert later == 100 * ql + later % 100;
  }

  /** `resize` on one coordinate: keep its fraction of the canvas. */
  function Rescale(p: real, oldExtent: real, newExtent: real): (q: real)
    requires oldExtent != 0.0
    ensures newExtent != 0.0 ==> q / newExtent == p / oldExtent
    ensures newExtent == oldExtent ==> q == p
  {
    RescaleFacts(p, oldExtent, newExtent);
    (p / oldExtent) * newExtent
  }

  lemma RescaleFacts(p: real, o: real, n: real)
    requires o != 0.0
    ensures n != 0.0 ==> ((p / o) * n) / n == p / o
    ensures n == o ==> (p / o) * n == p
  {
    FractionOf(p / o, n);
    FractionBound(p, o);
  }

  lemma FractionOf(f: real, n: real)
    ensures n != 0.0 ==> (f * n) / n == f
  {
  }

  lemma FractionBound(p: real, e: real)
    requires e != 0.0
    ensures (p / e) * e == p
  {
  }

  class GameState {
    var boat: Boat
    var target: Target
    var orderSystem: OrderSystem
    var status: Status
    var score: int
    var gameStartTime: int
    var canvasWidth: real
    var canvasHeight: real

    ghost predicate Valid()
      reads this, boat, target, orderSystem
    {
      && boat.Valid() && target.Valid() && orderSystem.Valid()
      && orderSystem.boat == boat
      && target.canvasWidth == canvasWidth
    }

    constructor (canvasWidth: real, canvasHeight: real, now: int)
      ensures Valid()
      ensures this.canvasWidth == canvasWidth && this.canvasHeight == canvasHeight
      ensures status == Playing && score == 0 && gameStartTime == now
      ensures fresh(boat) && fresh(target) && fresh(orderSystem)
      ensures boat.position == Vec2(canvasWidth / 2.0, canvasHeight - 80.0) && boat.velocity == Vec2(0.0, 0.0)
      ensures boat.currentOrder == None && boat.orderQueue == []
      ensures target.position == Vec2(canvasWidth / 2.0, 60.0) && target.direction == 1
      ensures target.canvasWidth == canvasWidth
      ensures orderSystem.state == Idle && orderSystem.commandQueue == []
    {
      this.canvasWidth := canvasWidth;
      this.canvasHeight := canvasHeight;
      gameStartTime := now;
      status := Playing;
      score := 0;
      var b := new Boat(canvasWidth / 2.0, canvasHeight - 80.0);
      boat := b;
      target := new Target(canvasWidth / 2.0, 60.0, canvasWidth);
      orderSystem := new OrderSystem(b);
    }

    /**
     * One frame while playing: boat, then target, then the clamp, then the win check.
     * `collides` stands for the target's distance test, applied to the target's and
     * the boat's positions at the end of the frame.
     */
    method Update(deltaTime: real, now: int, collides: (Vec2, Vec2) -> bool)
      requires Valid()
      modifies this, boat, target
      ensures Valid()
      ensures boat == old(boat) && target == old(target) && orderSystem == old(orderSystem)
      ensures canvasWidth == old(canvasWidth) && canvasHeight == old(canvasHeight)
      ensures gameStartTime == old(gameStartTime)
      // only a game in play moves
      ensures old(status) != Playing ==>
                unchanged(this) && unchanged(boat) && unchanged(target)
      ensures old(status) == Playing ==>
                && (boat.currentOrder, boat.orderQueue) == Processed(old(boat.currentOrder), old(boat.orderQueue), now)
                && (var v := Steer(KindOf(boat.currentOrder), old(boat.velocity));
                    var p := Advance(old(boat.position), v, deltaTime);
                    var cx := ClampAxis(p.x, v.x, Width / 2.0, canvasWidth);
                    var cy := ClampAxis(p.y, v.y, Height / 2.0, canvasHeight);
                    boat.position == Vec2(cx.0, cy.0) && boat.velocity == Vec2(cx.1, cy.1))
                && (target.position.x, target.direction) ==
                     Bounce(old(target.position.x), old(target.direction), deltaTime, canvasWidth)
                && target.position.y == old(target.position.y)
                && target.canvasWidth == old(target.canvasWidth)
                && status == (if collides(target.position, boat.position) then Won else Playing)
                && score == (if collides(target.position, boat.position)
                             then Score(now - gameStartTime) else old(score))
    {
      if status != Playing {
        return;
      }
      boat.Update(deltaTime, now);
      target.Update(deltaTime);
      KeepBoatInBounds();
      CheckCollisions(now, collides);
    }

    method KeepBoatInBounds()
      requires Valid()
      modifies boat
      ensures Valid()
      ensures var cx := ClampAxis(old(boat.position.x), old(boat.velocity.x), Width / 2.0, canvasWidth);
              var cy := ClampAxis(old(boat.position.y), old(boat.velocity.y), Height / 2.0, canvasHeight);
              boat.position == Vec2(cx.0, cy.0) && boat.velocity == Vec2(cx.1, cy.1)
      ensures boat.currentOrder == old(boat.currentOrder) && boat.orderQueue == old(boat.orderQueue)
      ensures boat.Added == old(boat.Added) && boat.Promoted == old(boat.Promoted)
    {
      if boat.position.x - Width / 2.0 < Margin {
        boat.position := boat.position.(x := Margin + Width / 2.0);
        boat.velocity := boat.velocity.(x := 0.0);
      }
      if boat.position.x + Width / 2.0 > canvasWidth - Margin {
        boat.position := boat.position.(x := canvasWidth - Margin - Width / 2.0);
        boat.velocity := boat.velocity.(x := 0.0);
      }
      if boat.position.y - Height / 2.0 < Margin {
        boat.position := boat.position.(y := Margin + Height / 2.0);
        boat.velocity := boat.velocity.(y := 0.0);
      }
      if boat.position.y + Height / 2.0 > canvasHeight - Margin {
        boat.position := boat.position.(y := canvasHeight - Margin - Height / 2.0);
        boat.velocity := boat.velocity.(y := 0.0);
      }
    }

    method CheckCollisions(now: int, collides: (Vec2, Vec2) -> bool)
      modifies this
      ensures boat == old(boat) && target == old(target) && orderSystem == old(orderSystem)
      ensures canvasWidth == old(canvasWidth) && canvasHeight == old(canvasHeight)
      ensures gameStartTime == old(gameStartTime)
      ensures collides(target.position, boat.position) ==> status == Won && score == Score(now - gameStartTime)
      ensures !collides(target.position, boat.position) ==> status == old(status) && score == old(score)
    {
      if collides(target.position, boat.position) {
        status := Won;
        score := Score(now - gameStartTime);
      }
    }

    /** Start over on the current canvas with a new boat, target and scheduler. */
    method Reset(now: int)
      modifies this
      ensures Valid()
      ensures canvasWidth == old(canvasWidth) && canvasHeight == old(canvasHeight)
      ensures status == Playing && score == 0 && gameStartTime == now
      ensures fresh(boat) && fresh(target) && fresh(orderSystem)
      ensures boat.position == Vec2(canvasWidth / 2.0, canvasHeight - 80.0) && boat.velocity == Vec2(0.0, 0.0)
      ensures boat.currentOrder == None && boat.orderQueue == []
      ensures target.position == Vec2(canvasWidth / 2.0, 60.0) && target.direction == 1
      ensures target.canvasWidth == canvasWidth
      ensures orderSystem.state == Idle && orderSystem.commandQueue == []
    {
      status := Playing;
      score := 0;
      gameStartTime := now;
      var b := new Boat(canvasWidth / 2.0, canvasHeight - 80.0);
      boat := b;
      target := new Target(canvasWidth / 2.0, 60.0, canvasWidth);
      orderSystem := new OrderSystem(b);
    }

    /** Keep the boat's and the target's positions at the same fractions of the resized canvas. */
    method Resize(newWidth: real, newHeight: real)
      requires Valid()
      requires canvasWidth != 0.0 && canvasHeight != 0.0
      modifies this, boat, target
      ensures Valid()
      ensures boat == old(boat) && target == old(target) && orderSystem == old(orderSystem)
      ensures canvasWidth == newWidth && canvasHeight == newHeight
      ensures boat.position == Vec2(Rescale(old(boat.position.x), old(canvasWidth), newWidth),
                                    Rescale(old(boat.position.y), old(canvasHeight), newHeight))
      ensures target.position == Vec2(Rescale(old(target.position.x), old(canvasWidth), newWidth),
                                      Rescale(old(target.position.y), old(canvasHeight), newHeight))
      ensures target.canvasWidth == newWidth && target.direction == old(target.direction)
      ensures boat.velocity == old(boat.velocity)
      ensures boat.currentOrder == old(boat.currentOrder) && boat.orderQueue == old(boat.orderQueue)
      ensures status == old(status) && score == old(score) && gameStartTime == old(gameStartTime)
    {
      var oldWidth := canvasWidth;
      var oldHeight := canvasHeight;
      canvasWidth := newWidth;
      canvasHeight := newHeight;
      boat.position := boat.position.(x := (boat.position.x / oldWidth) * newWidth);
      boat.position := boat.position.(y := (boat.position.y / oldHeight) * newHeight);
      target.position := target.position.(x := (target.position.x / oldWidth) * newWidth);
      target.position := target.position.(y := (target.position.y / oldHeight) * newHeight);
      target.SetBounds(newWidth);
    }
  }
}
