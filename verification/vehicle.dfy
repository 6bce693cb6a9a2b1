/**
 * The vehicle record shared by every kind of driver: kinematic state,
 * randomised parameters, the pending lane-change action, the semi-implicit
 * Euler step with its acceleration clamps, and the lane-change dispatch of
 * `think`. The kind-specific decisions (acceleration, lane-change gate) are
 * passed to `Think` as a value and a function, as a subclass supplies them.
 */
module Vehicles {
  import opened Optional
  import opened Intervals
  import opened Neighbourhood

  datatype Action = NoAction | ChangeLaneLeft | ChangeLaneRight

  /** The sign of a value: 1, -1 or 0. */
  function Sgn(val: real): (r: int)
    ensures val > 0.0 <==> r == 1
    ensures val < 0.0 <==> r == -1
    ensures val == 0.0 <==> r == 0
    ensures -1 <= r <= 1
  {
    (if 0.0 < val then 1 else 0) - (if val < 0.0 then 1 else 0)
  }

  datatype Colour = Colour(red: real, green: real, blue: real)

  datatype Vehicle = Vehicle(
    x: real,                // position on the road, m
    v: real,                // speed, m/s
    a: real,                // acceleration, m/s^2
    targetSpeed: real,      // the speed the driver tries to keep
    targetDistance: real,   // the desired gap to the vehicle in front
    width: real,
    length: real,
    colour: Colour,
    lane: real,             // fractional while changing lane; 0 is the rightmost lane
    panicDistance: real,    // gap below which full braking is applied
    reactionTime: real,     // time constant of the corrective terms
    terminalSpeed: real,    // speed at which no more acceleration is possible
    maxAcceleration: real,  // acceleration available at standstill
    action: Action)         // pending request, cleared once the lane-change gate accepts it and the highway is notified

  const PANIC_DISTANCE: real := 12.0
  /** The hardest deceleration the step allows. */
  const MIN_A: real := -19.0

  const SpeedRange := Interval(26.0, 48.0)
  const WidthRange := Interval(3.3, 3.9)
  const LengthRange := Interval(5.5, 6.6)
  const TargetDistanceRange := Interval(35.0, 50.0)
  const ColourRange := Interval(0.0, 0.5)
  const ReactionTimeRange := Interval(2.5, 3.6)
  const TerminalSpeedRange := Interval(180.0 / 3.6, 350.0 / 3.6)
  const MaxAccelerationRange := Interval(8.0, 16.0)

  /** The random draws the constructor consumes: unit draws for the uniform
      attributes, raw samples for the normal (clipped) ones. */
  datatype Draws = Draws(
    speed: real, width: real, length: real, targetDistance: real,
    reactionTime: real, red: real, green: real, blue: real,
    terminalSpeed: real, maxAcceleration: real)

  predicate ValidDraws(d: Draws) {
    && 0.0 <= d.speed <= 1.0
    && 0.0 <= d.targetDistance <= 1.0
    && 0.0 <= d.reactionTime <= 1.0
  }

  /** The parameters every divisor and clamp of the model relies on. */
  predicate WellFormed(v: Vehicle) {
    && v.reactionTime > 0.0
    && v.terminalSpeed > 0.0
    && v.targetDistance > 0.0
    && v.maxAcceleration > 0.0
    && v.panicDistance > 0.0
  }

  /** A new vehicle: at x = 0 with zero acceleration, moving at its target speed, no pending action. */
  function Create(lane: real, d: Draws): (r: Vehicle)
    requires ValidDraws(d)
    ensures r.x == 0.0 && r.a == 0.0
    ensures r.v == r.targetSpeed
    ensures r.panicDistance == PANIC_DISTANCE
    ensures r.action == NoAction && r.lane == lane
    ensures Contains(SpeedRange, r.targetSpeed)
    ensures Contains(WidthRange, r.width) && Contains(LengthRange, r.length)
    ensures Contains(TargetDistanceRange, r.targetDistance)
    ensures Contains(ReactionTimeRange, r.reactionTime)
    ensures Contains(TerminalSpeedRange, r.terminalSpeed)
    ensures Contains(MaxAccelerationRange, r.maxAcceleration)
    ensures 0.4 <= r.colour.red <= 0.9 && 0.4 <= r.colour.green <= 0.9 && 0.3 <= r.colour.blue <= 0.8
    ensures WellFormed(r)
  {
    var speed := Uniform(SpeedRange, d.speed);
    Vehicle(
      x := 0.0, v := speed, a := 0.0,
      targetSpeed := speed,
      targetDistance := Uniform(TargetDistanceRange, d.targetDistance),
      width := Normal(WidthRange, d.width),
      length := Normal(LengthRange, d.length),
      colour := Colour(Normal(ColourRange, d.red) + 0.4,
                       Normal(ColourRange, d.green) + 0.4,
                       Normal(ColourRange, d.blue) + 0.3),
      lane := lane,
      panicDistance := PANIC_DISTANCE,
      reactionTime := Uniform(ReactionTimeRange, d.reactionTime),
      terminalSpeed := Normal(TerminalSpeedRange, d.terminalSpeed),
      maxAcceleration := Normal(MaxAccelerationRange, d.maxAcceleration),
      action := NoAction)
  }

  /** The copy constructor copies every member except the action, which is
      left uninitialised and modelled by `indeterminate`. */
  function Copy(orig: Vehicle, indeterminate: Action): (r: Vehicle)
    ensures r.(action := orig.action) == orig
    ensures r.action == indeterminate
    ensures WellFormed(orig) ==> WellFormed(r)
  {
    orig.(action := indeterminate)
  }

  /** The ordering lanes are sorted by: position only. */
  predicate Less(self: Vehicle, other: Vehicle) {
    self.x < other.x
  }

  lemma LessIsStrictOrder(p: Vehicle, q: Vehicle, s: Vehicle)
    ensures !Less(p, p)
    ensures Less(p, q) ==> !Less(q, p)
    ensures Less(p, q) && Less(q, s) ==> Less(p, s)
  {
  }

  function SetAction(self: Vehicle, action: Action): (r: Vehicle)
    ensures r.action == action
    ensures r.(action := self.action) == self
  {
    self.(action := action)
  }

  function SetV(self: Vehicle, v: real): (r: Vehicle)
    ensures r.v == v
    ensures r.(v := self.v) == self
  {
    self.(v := v)
  }

  function SetTargetSpeed(self: Vehicle, targetSpeed: real): (r: Vehicle)
    ensures r.targetSpeed == targetSpeed
    ensures r.(targetSpeed := self.targetSpeed) == self
  {
    self.(targetSpeed := targetSpeed)
  }

  function SetLane(self: Vehicle, lane: real): (r: Vehicle)
    ensures r.lane == lane
    ensures r.(lane := self.lane) == self
  {
    self.(lane := lane)
  }

  function SetTargetDistance(self: Vehicle, targetDistance: real): (r: Vehicle)
    ensures r.targetDistance == targetDistance
    ensures r.(targetDistance := self.targetDistance) == self
    ensures WellFormed(self) && targetDistance > 0.0 ==> WellFormed(r)
  {
    self.(targetDistance := targetDistance)
  }

  /** Setting a field twice keeps only the last value; setting it to its current value changes nothing. */
  lemma SettersOverwrite(self: Vehicle, s1: real, s2: real, d1: real, d2: real, l1: real, l2: real)
    ensures SetTargetSpeed(SetTargetSpeed(self, s1), s2) == SetTargetSpeed(self, s2)
    ensures SetTargetDistance(SetTargetDistance(self, d1), d2) == SetTargetDistance(self, d2)
    ensures SetLane(SetLane(self, l1), l2) == SetLane(self, l2)
    ensures SetTargetSpeed(self, self.targetSpeed) == self
    ensures SetTargetDistance(self, self.targetDistance) == self
    ensures SetLane(self, self.lane) == self
    ensures SetAction(self, self.action) == self
  {
  }

  /** The acceleration ceiling: maxAcceleration at standstill, falling linearly to 0 at terminal speed. */
  function Ceiling(self: Vehicle): (r: real)
    requires self.terminalSpeed != 0.0
    ensures self.v == 0.0 ==> r == self.maxAcceleration
    ensures self.v == self.terminalSpeed ==> r == 0.0
  {
    self.maxAcceleration * (1.0 - self.v / self.terminalSpeed)
  }

  /**
   * One integration step: clamp the acceleration from below by MIN_A and
   * then from above by the ceiling (the upper clamp runs second and wins),
   * update the velocity, floor it at 0, then move by the new velocity.
   */
  function Step(self: Vehicle, dt: real): (r: Vehicle)
    requires self.terminalSpeed != 0.0
    ensures r.a <= Ceiling(self)
    ensures Ceiling(self) >= MIN_A ==> MIN_A <= r.a
    ensures MIN_A <= self.a <= Ceiling(self) ==> r.a == self.a
    ensures self.a < MIN_A <= Ceiling(self) ==> r.a == MIN_A
    ensures Ceiling(self) < MIN_A || self.a > Ceiling(self) ==> r.a == Ceiling(self)
    ensures r.v >= 0.0
    ensures r.v >= self.v + dt * r.a
    ensures r.v > 0.0 ==> r.v == self.v + dt * r.a
    ensures r.x == self.x + dt * r.v
    ensures dt >= 0.0 ==> r.x >= self.x
    ensures r.(x := self.x, v := self.v, a := self.a) == self
  {
    var ceiling := Ceiling(self);
    var a1 := if self.a < MIN_A then MIN_A else self.a;
    var a2 := if a1 > ceiling then ceiling else a1;
    var v1 := self.v + dt * a2;
    var v2 := if v1 < 0.0 then 0.0 else v1;
    assert dt >= 0.0 ==> dt * v2 >= 0.0 by {
      if dt >= 0.0 {
        ProductSigns(dt, v2);
      }
    }
    self.(a := a2, v := v2, x := self.x + dt * v2)
  }

  /** A product with a non-negative factor keeps the sign of the other factor. */
  lemma ProductSigns(x: real, y: real)
    requires y >= 0.0
    ensures x >= 0.0 ==> x * y >= 0.0
    ensures x > 0.0 && y > 0.0 ==> x * y > 0.0
  {
  }

  /** Stepping changes no parameter, so a well-formed vehicle stays well-formed. */
  lemma StepKeepsWellFormed(self: Vehicle, dt: real)
    requires WellFormed(self)
    ensures WellFormed(Step(self, dt))
    ensures Step(self, dt).action == self.action && Step(self, dt).lane == self.lane
  {
  }

  /** The result of `think`: the updated vehicle and, if the highway was
      notified of a lane change, its direction (+1 left, -1 right). */
  datatype ThinkResult = ThinkResult(vehicle: Vehicle, laneChange: Option<int>)

  /**
   * The shared `think`: store the acceleration the kind decided, then act on
   * a pending lane change. A request is passed to the highway, and the action
   * cleared, only when the kind's gate `canChange` accepts the targets of the
   * requested side; otherwise the request stays pending.
   */
  function Think(self: Vehicle, n: Neighbours, accel: real,
                 canChange: (Option<Target>, Option<Target>) -> bool): (r: ThinkResult)
    ensures r.vehicle.a == accel
    ensures r.vehicle.(a := self.a, action := self.action) == self
    ensures self.action == ChangeLaneLeft ==>
              if canChange(n.frontLeft, n.backLeft)
              then r.laneChange == Some(1) && r.vehicle.action == NoAction
              else r.laneChange == None && r.vehicle.action == ChangeLaneLeft
    ensures self.action == ChangeLaneRight ==>
              if canChange(n.frontRight, n.backRight)
              then r.laneChange == Some(-1) && r.vehicle.action == NoAction
              else r.laneChange == None && r.vehicle.action == ChangeLaneRight
    ensures self.action == NoAction ==> r.laneChange == None && r.vehicle.action == NoAction
  {
    var decided := self.(a := accel);
    match self.action
    case ChangeLaneLeft =>
      if canChange(n.frontLeft, n.backLeft)
      then ThinkResult(decided.(action := NoAction), Some(1))
      else ThinkResult(decided, None)
    case ChangeLaneRight =>
      if canChange(n.frontRight, n.backRight)
      then ThinkResult(decided.(action := NoAction), Some(-1))
      else ThinkResult(decided, None)
    case NoAction =>
      ThinkResult(decided, None)
  }

  /**
   * The highway hears of a lane change exactly when a pending action is
   * consumed, in that action's direction, and only after the gate accepted
   * the targets on that side.
   */
  lemma ThinkNotifiesOnlyWhenAccepted(self: Vehicle, n: Neighbours, accel: real,
                                      canChange: (Option<Target>, Option<Target>) -> bool)
    ensures var r := Think(self, n, accel, canChange);
      && (r.laneChange.Some? <==> r.vehicle.action != self.action)
      && (r.laneChange == Some(1) <==> self.action == ChangeLaneLeft && canChange(n.frontLeft, n.backLeft))
      && (r.laneChange == Some(-1) <==> self.action == ChangeLaneRight && canChange(n.frontRight, n.backRight))
      && (r.laneChange.Some? ==> r.vehicle.action == NoAction)
  {
  }
}
