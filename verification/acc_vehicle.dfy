/**
 * The vehicle fitted with adaptive cruise control: a copy of an existing
 * vehicle, painted green, whose acceleration blends a distance-keeping
 * target and a speed-keeping target with a logistic weight, minus an
 * exponential repulsion from the vehicle in front. It never asks to change
 * lane. The exponential is given as a parameter `exp`, any positive function.
 */
module AccVehicles {
  import opened Optional
  import opened Neighbourhood
  import opened Vehicles

  const ACC_COLOUR := Colour(0.1, 1.0, 0.1)

  ghost predicate Positive(exp: real -> real) {
    forall x :: exp(x) > 0.0
  }

  /** Construction from an existing vehicle: its state is copied, the colour replaced. */
  function Create(orig: Vehicle, indeterminate: Action): (r: Vehicle)
    ensures r.colour == ACC_COLOUR
    ensures r.(colour := orig.colour, action := orig.action) == orig
    ensures WellFormed(orig) ==> WellFormed(r)
  {
    Vehicles.Copy(orig, indeterminate).(colour := ACC_COLOUR)
  }

  /** Weight of the distance target, from the logistic factor k. */
  function DistanceWeight(k: real): (r: real)
    requires k > 0.0
    ensures 0.0 < r < 1.0
  {
    k / (k + 1.0)
  }

  /** Weight of the speed target, from the logistic factor k. */
  function SpeedWeight(k: real): (r: real)
    requires k > 0.0
    ensures 0.0 < r < 1.0
    ensures DistanceWeight(k) + r == 1.0
  {
    assert k / (k + 1.0) + 1.0 / (k + 1.0) == (k + 1.0) / (k + 1.0);
    1.0 / (k + 1.0)
  }

  /** The acceleration that would pull the gap in over the reaction time. */
  function DistanceTarget(self: Vehicle): real
    requires self.reactionTime != 0.0
  {
    -2.0 * self.targetDistance / self.reactionTime / self.reactionTime
  }

  /** The acceleration that reaches the target speed over the reaction time. */
  function SpeedTarget(self: Vehicle): real
    requires self.reactionTime != 0.0
  {
    (self.targetSpeed - self.v) / self.reactionTime
  }

  /** The logistic factor: small when the gap is long, large when it is short. */
  function DistanceFactor(self: Vehicle, front: Target, exp: real -> real): real
    requires self.targetDistance != 0.0
  {
    exp(-3.0 * (front.dist - self.targetDistance) / self.targetDistance)
  }

  /** The repulsion from the vehicle in front, growing fast inside the panic distance. */
  function Repulsion(self: Vehicle, front: Target, exp: real -> real): real {
    exp(7.5 * (self.panicDistance - front.dist))
  }

  function Min(x: real, y: real): real {
    if x < y then x else y
  }

  function Max(x: real, y: real): real {
    if x < y then y else x
  }

  /** The acceleration before the repulsion: the weighted targets plus speed matching with the lead. */
  function Cruise(self: Vehicle, front: Target, exp: real -> real): real
    requires self.reactionTime != 0.0 && self.targetDistance != 0.0
    requires Positive(exp)
  {
    var k := DistanceFactor(self, front, exp);
    DistanceWeight(k) * DistanceTarget(self) + SpeedWeight(k) * SpeedTarget(self)
    + 2.0 * front.vRel / self.reactionTime
  }

  /** The acceleration behind a lead, with the products and quotients grouped in the order they are written in. */
  function Following(self: Vehicle, front: Target, exp: real -> real): (r: real)
    requires self.reactionTime != 0.0 && self.targetDistance != 0.0
    requires Positive(exp)
    ensures r == Cruise(self, front, exp) - Repulsion(self, front, exp)
  {
    var distCoef := DistanceFactor(self, front, exp);
    var a := distCoef / (distCoef + 1.0) * -2.0 * self.targetDistance / self.reactionTime / self.reactionTime
             + 2.0 * front.vRel / self.reactionTime;
    var a' := a + 1.0 / (distCoef + 1.0) * (self.targetSpeed - self.v) / self.reactionTime;
    ScaledDoubleQuotient(distCoef / (distCoef + 1.0), -2.0, self.targetDistance, self.reactionTime);
    MulDivAssoc(1.0 / (distCoef + 1.0), self.targetSpeed - self.v, self.reactionTime);
    a' - Repulsion(self, front, exp)
  }

  /**
   * The cruise-control acceleration. With nothing in front, reach the
   * target speed over the reaction time. With a lead: a weighted mean of
   * the distance and speed targets, plus speed matching with the lead,
   * minus the (always positive) repulsion.
   */
  function DecideAcceleration(self: Vehicle, n: Neighbours, exp: real -> real): (r: real)
    requires self.reactionTime != 0.0 && self.targetDistance != 0.0
    requires Positive(exp)
    ensures n.front.None? ==> r == SpeedTarget(self)
    ensures n.front.None? ==> (r == 0.0 <==> self.v == self.targetSpeed)
    ensures n.front.None? && self.reactionTime > 0.0 ==> (r > 0.0 <==> self.v < self.targetSpeed)
    ensures n.front.Some? ==> r == Cruise(self, n.front.value, exp) - Repulsion(self, n.front.value, exp)
    ensures n.front.Some? ==> r < Cruise(self, n.front.value, exp)
    ensures n.front.Some? ==>
      var blended := Cruise(self, n.front.value, exp) - 2.0 * n.front.value.vRel / self.reactionTime;
      Min(DistanceTarget(self), SpeedTarget(self)) <= blended <= Max(DistanceTarget(self), SpeedTarget(self))
  {
    if n.front.Some? then
      CruiseIsWeightedMean(self, n.front.value, exp);
      Following(self, n.front.value, exp)
    else
      ZeroQuotient(self.targetSpeed - self.v, self.reactionTime);
      (self.targetSpeed - self.v) / self.reactionTime
  }

  /** Without the speed-matching term, the cruise acceleration lies between the distance and speed targets. */
  lemma CruiseIsWeightedMean(self: Vehicle, front: Target, exp: real -> real)
    requires self.reactionTime != 0.0 && self.targetDistance != 0.0
    requires Positive(exp)
    ensures var blended := Cruise(self, front, exp) - 2.0 * front.vRel / self.reactionTime;
      Min(DistanceTarget(self), SpeedTarget(self)) <= blended <= Max(DistanceTarget(self), SpeedTarget(self))
  {
    var k := DistanceFactor(self, front, exp);
    ConvexBlend(DistanceWeight(k), DistanceTarget(self), SpeedTarget(self));
  }

  lemma ZeroQuotient(p: real, d: real)
    requires d != 0.0
    ensures p / d == 0.0 <==> p == 0.0
    ensures d > 0.0 ==> (p / d > 0.0 <==> p > 0.0)
  {
    var q := p / d;
    assert q * d == p;
    if d > 0.0 {
      if q > 0.0 {
        ProductSigns(q, d);
      } else {
        ProductSigns(-q, d);
        assert (-q) * d == -(q * d);
      }
    }
  }

  /** Left-to-right products and quotients, in the order they are written in, regrouped as a weight times a target. */
  lemma ScaledDoubleQuotient(w: real, m: real, c: real, d: real)
    requires d != 0.0
    ensures w * m * c / d / d == w * (m * c / d / d)
  {
    var x := m * c;
    var y := x / d;
    assert w * m * c == w * x;
    SameQuotient(w * m * c, w * x, d);
    SameQuotient(w * m * c / d, w * x / d, d);
    MulDivAssoc(w, x, d);
    SameQuotient(w * x / d, w * y, d);
    MulDivAssoc(w, y, d);
  }

  lemma SameQuotient(p: real, q: real, d: real)
    requires d != 0.0 && p == q
    ensures p / d == q / d
  {
  }

  lemma MulDivAssoc(w: real, c: real, d: real)
    requires d != 0.0
    ensures w * c / d == w * (c / d)
  {
    assert (c / d) * d == c;
    assert w * (c / d) * d == w * c;
  }

  /** A weighted mean with weight in (0, 1) lies between the two values. */
  lemma ConvexBlend(w: real, p: real, q: real)
    requires 0.0 < w < 1.0
    ensures Min(p, q) <= w * p + (1.0 - w) * q <= Max(p, q)
  {
    var m := w * p + (1.0 - w) * q;
    assert m - q == w * (p - q);
    assert m - p == (1.0 - w) * (q - p);
    if p >= q {
      ProductSigns(p - q, w);
      ProductSigns(p - q, 1.0 - w);
      assert (1.0 - w) * (q - p) == -((p - q) * (1.0 - w));
    } else {
      ProductSigns(q - p, w);
      ProductSigns(q - p, 1.0 - w);
      assert w * (p - q) == -((q - p) * w);
    }
  }

  /** The cruise-control vehicle never accepts a lane change. */
  function CanChangeLane(self: Vehicle, front: Option<Target>, back: Option<Target>): (r: bool)
    ensures !r
  {
    false
  }

  /**
   * `think` does not go through the shared lane-change dispatch: that call
   * is commented out. Were it restored, this gate would still let no request
   * through, so the notification and the action would be as `Think` states.
   */
  lemma SharedDispatchNeverNotifies(self: Vehicle, n: Neighbours, accel: real)
    ensures Vehicles.Think(self, n, accel, (f, b) => CanChangeLane(self, f, b)).laneChange.None?
    ensures Vehicles.Think(self, n, accel, (f, b) => CanChangeLane(self, f, b)).vehicle.action == self.action
  {
  }

  /** `think` only decides the acceleration: no notification, the action untouched. */
  function Think(self: Vehicle, n: Neighbours, exp: real -> real): (r: ThinkResult)
    requires self.reactionTime != 0.0 && self.targetDistance != 0.0
    requires Positive(exp)
    ensures r.laneChange.None?
    ensures r.vehicle.action == self.action
    ensures r.vehicle.a == DecideAcceleration(self, n, exp)
    ensures r.vehicle.(a := self.a) == self
  {
    ThinkResult(self.(a := DecideAcceleration(self, n, exp)), None)
  }

  /** `step` is the shared integration step, with its clamps and velocity floor. */
  function Step(self: Vehicle, dt: real): (r: Vehicle)
    requires self.terminalSpeed != 0.0
    ensures r == Vehicles.Step(self, dt)
    ensures MIN_A <= self.a <= Ceiling(self) ==> r.a == self.a
    ensures self.a < MIN_A <= Ceiling(self) ==> r.a == MIN_A
    ensures Ceiling(self) < MIN_A || self.a > Ceiling(self) ==> r.a == Ceiling(self)
    ensures r.v > 0.0 ==> r.v == self.v + dt * r.a
    ensures r.a <= Ceiling(self)
    ensures Ceiling(self) >= MIN_A ==> MIN_A <= r.a
    ensures r.v >= 0.0
    ensures r.x == self.x + dt * r.v
    ensures r.(x := self.x, v := self.v, a := self.a) == self
  {
    Vehicles.Step(self, dt)
  }
}
