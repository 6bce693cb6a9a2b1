/**
 * Background traffic: a vehicle that follows the car in front with a
 * two-regime rule, accepts a lane change only with enough room and time on
 * the target lane, and every few seconds rolls a random decision (move
 * right, move left, or pick a new target speed). Setting a target or an
 * action from outside holds the decision timer off for longer.
 */
module RandomTraffic {
  import opened Optional
  import opened Intervals
  import opened Neighbourhood
  import opened Vehicles

  /** Range of the target speeds a random decision picks. */
  const DecidedSpeedRange := Interval(100.0 / 3.6, 250.0 / 3.6)
  /** Delay between two random decisions. */
  const ActionPeriod := Interval(5.7, 13.6)
  /** Delay after a forced setting. */
  const LongActionPeriod := Interval(16.0, 24.0)
  /** Only drivers faster than this choose the left lane. */
  const LEFT_LANE_SPEED: real := 130.0 / 3.6
  /** The reach time standing for "never". */
  const NEVER: real := 10000000000.0

  datatype RandomVehicle = RandomVehicle(base: Vehicle, timeUntilNextAction: real)

  /** A background vehicle at position `x`, its first decision a random period away. */
  function Create(x: real, lane: real, d: Draws, period: real): (r: RandomVehicle)
    requires ValidDraws(d) && 0.0 <= period <= 1.0
    ensures r.base.x == x && r.base.lane == lane
    ensures r.base.(x := 0.0) == Vehicles.Create(lane, d)
    ensures Contains(ActionPeriod, r.timeUntilNextAction)
    ensures WellFormed(r.base) && r.base.action == NoAction
  {
    RandomVehicle(Vehicles.Create(lane, d).(x := x), Uniform(ActionPeriod, period))
  }

  /** The copy constructor: the shared copy (action left uninitialised) and the same timer. */
  function Copy(other: RandomVehicle, indeterminate: Action): (r: RandomVehicle)
    ensures r.timeUntilNextAction == other.timeUntilNextAction
    ensures r.base.(action := other.base.action) == other.base
  {
    RandomVehicle(Vehicles.Copy(other.base, indeterminate), other.timeUntilNextAction)
  }

  function Abs(x: real): real {
    if x < 0.0 then -x else x
  }

  /**
   * Time until the gap shrinks to the target distance, from the positive
   * excess `drift` and the relative speed. When the lead is not closing the
   * quotient is negative (or minus infinity for a zero relative speed in
   * IEEE arithmetic) and the result is NEVER.
   */
  function ReachTime(drift: real, vRel: real): (r: real)
    requires drift > 0.0
    ensures r > 0.0
    ensures vRel < 0.0 ==> r * -vRel == drift
    ensures vRel >= 0.0 ==> r == NEVER
  {
    if vRel == 0.0 then NEVER
    else
      var t := -drift / vRel;
      if t < 0.0 then NEVER else t
  }

  /** The relative-speed correction of the open-gap regime. */
  lemma ClosingCorrection(drift: real, vRel: real)
    requires drift > 0.0
    ensures vRel < 0.0 ==> vRel / ReachTime(drift, vRel) == -(vRel * vRel) / drift
    ensures vRel >= 0.0 ==> vRel / ReachTime(drift, vRel) == vRel / NEVER
  {
    if vRel < 0.0 {
      var t := ReachTime(drift, vRel);
      assert t == -drift / vRel;
      calc {
        vRel / t;
        vRel / (-drift / vRel);
        { assert -drift / vRel * vRel == -drift; }
        -(vRel * vRel) / drift;
      }
    }
  }

  /** Panic braking: full braking once the gap is short of the target by more than the panic distance. */
  function PanicBrake(self: Vehicle, distanceDrift: real): (r: real)
    ensures -distanceDrift > self.panicDistance ==> r == -self.maxAcceleration
    ensures -distanceDrift <= self.panicDistance ==> r == 0.0
    ensures self.maxAcceleration != 0.0 ==> (r != 0.0 <==> -distanceDrift > self.panicDistance)
  {
    if -distanceDrift > self.panicDistance then -self.maxAcceleration else 0.0
  }

  /**
   * The acceleration a background driver asks for. The open-gap regime
   * (gap longer than the target distance) matches the target speed over the
   * reaction time and matches the speed of the lead over the time needed to
   * reach the target distance. The closed-gap regime ignores the target
   * speed: it matches the lead's speed, pulls the gap back to the target
   * distance, and adds full braking inside the panic distance.
   */
  function DecideAcceleration(self: Vehicle, front: Target): (r: real)
    requires self.reactionTime != 0.0
    ensures var drift := front.dist - self.targetDistance;
      drift > 0.0 ==>
        r == -(self.v - self.targetSpeed) / self.reactionTime
             + (if front.vRel < 0.0 then -(front.vRel * front.vRel) / drift else front.vRel / NEVER)
    ensures var drift := front.dist - self.targetDistance;
      drift <= 0.0 ==>
        r == PanicBrake(self, drift)
             + 2.0 * front.vRel / self.reactionTime
             + drift / self.reactionTime / self.reactionTime
  {
    var distanceDrift := front.dist - self.targetDistance;
    var speedDrift := self.v - self.targetSpeed;
    if distanceDrift > 0.0 then
      var reachTime := ReachTime(distanceDrift, front.vRel);
      ClosingCorrection(distanceDrift, front.vRel);
      var aCorrectRelativeSpeed := front.vRel / reachTime;
      var aCorrectSpeed := -speedDrift / self.reactionTime;
      aCorrectSpeed + aCorrectRelativeSpeed
    else
      var aPanicBreak := PanicBrake(self, distanceDrift);
      var aCorrectDistance := distanceDrift / self.reactionTime / self.reactionTime;
      var aMatchSpeed := 2.0 * front.vRel / self.reactionTime;
      aPanicBreak + aMatchSpeed + aCorrectDistance
  }

  /**
   * The two regimes do not meet at zero drift. With a lead at the same
   * speed, any gap beyond the target distance, however small the excess,
   * gives the full speed correction, while a gap exactly at the target
   * distance gives no acceleration at all.
   */
  lemma RegimesDisagreeAtZeroDrift(self: Vehicle, dist: real)
    requires self.reactionTime != 0.0 && self.panicDistance >= 0.0
    requires dist > self.targetDistance
    ensures DecideAcceleration(self, Target(self.targetDistance, 0.0)) == 0.0
    ensures DecideAcceleration(self, Target(dist, 0.0)) == (self.targetSpeed - self.v) / self.reactionTime
  {
  }

  /** Open road, lead not moving away or towards us, at target speed: no acceleration. */
  lemma OpenGapEquilibrium(self: Vehicle, front: Target)
    requires self.reactionTime != 0.0
    requires front.dist > self.targetDistance && front.vRel == 0.0
    requires self.v == self.targetSpeed
    ensures DecideAcceleration(self, front) == 0.0
  {
  }

  /** With an open gap, closing on the lead always asks for less than the pure speed correction. */
  lemma OpenGapClosingSlowsDown(self: Vehicle, front: Target)
    requires self.reactionTime != 0.0
    requires front.dist > self.targetDistance && front.vRel < 0.0
    ensures DecideAcceleration(self, front) < -(self.v - self.targetSpeed) / self.reactionTime
  {
    var drift := front.dist - self.targetDistance;
    ClosingCorrection(drift, front.vRel);
    NegativeQuotient(front.vRel, ReachTime(drift, front.vRel));
  }

  lemma NegativeQuotient(p: real, d: real)
    requires p < 0.0 && d > 0.0
    ensures p / d < 0.0
  {
    DivideOrder(p, 0.0, d);
    assert (p / d) * d == p;
  }

  /** Deep inside the panic distance, with the lead not pulling away, braking exceeds maxAcceleration. */
  lemma PanicBrakeEngages(self: Vehicle, front: Target)
    requires self.reactionTime > 0.0
    requires self.panicDistance >= 0.0
    requires front.dist - self.targetDistance < -self.panicDistance
    requires front.vRel <= 0.0
    ensures DecideAcceleration(self, front) < -self.maxAcceleration
  {
    var drift := front.dist - self.targetDistance;
    var rt := self.reactionTime;
    assert drift / rt < 0.0;
    assert drift / rt / rt < 0.0;
    assert 2.0 * front.vRel / rt <= 0.0;
  }

  /** In the closed-gap regime a shorter gap never asks for more acceleration. */
  lemma ClosedGapMonotone(self: Vehicle, near: Target, far: Target)
    requires self.reactionTime != 0.0 && self.maxAcceleration >= 0.0
    requires near.vRel == far.vRel
    requires near.dist <= far.dist <= self.targetDistance
    ensures DecideAcceleration(self, near) <= DecideAcceleration(self, far)
  {
    var rt := self.reactionTime;
    var dn := near.dist - self.targetDistance;
    var df := far.dist - self.targetDistance;
    DivideTwiceMonotone(dn, df, rt);
    assert PanicBrake(self, dn) <= PanicBrake(self, df);
  }

  lemma DivideOrder(p: real, q: real, d: real)
    requires p <= q && d != 0.0
    ensures d > 0.0 ==> p / d <= q / d
    ensures d < 0.0 ==> q / d <= p / d
  {
    var x := p / d;
    var y := q / d;
    assert x * d == p && y * d == q;
    assert (y - x) * d == q - p;
    if d > 0.0 && y < x {
      assert (x - y) * d > 0.0;
    }
    if d < 0.0 && x < y {
      assert (y - x) * (-d) > 0.0;
    }
  }

  /** Dividing twice by the same non-zero value preserves order. */
  lemma DivideTwiceMonotone(p: real, q: real, d: real)
    requires p <= q && d != 0.0
    ensures p / d / d <= q / d / d
  {
    DivideOrder(p, q, d);
    if d > 0.0 {
      DivideOrder(p / d, q / d, d);
    } else {
      DivideOrder(q / d, p / d, d);
    }
  }

  /**
   * The time test of the lane-change gate: the neighbour would be reached
   * within `limit`, i.e. 0 < num / den < limit. A zero `den` makes the IEEE
   * quotient infinite or NaN, which fails one of the two comparisons.
   */
  function TimeTestRejects(num: real, den: real, limit: real): (r: bool)
    ensures den == 0.0 ==> !r
    ensures den > 0.0 ==> (r <==> 0.0 < num < limit * den)
    ensures den < 0.0 ==> (r <==> limit * den < num < 0.0)
  {
    if den == 0.0 then false
    else
      QuotientBounds(num, den, limit);
      0.0 < num / den < limit
  }

  lemma QuotientBounds(num: real, den: real, limit: real)
    requires den != 0.0
    ensures den > 0.0 ==> (0.0 < num / den <==> 0.0 < num) && (num / den < limit <==> num < limit * den)
    ensures den < 0.0 ==> (0.0 < num / den <==> num < 0.0) && (num / den < limit <==> limit * den < num)
  {
    var q := num / den;
    assert q * den == num;
    if den > 0.0 {
      assert q < limit <==> q * den < limit * den;
    } else {
      assert q < limit <==> q * den > limit * den;
    }
  }

  /**
   * The lane-change gate: both targets on the destination lane must be
   * known, neither may be reached within half the reaction time, and the
   * front and back gaps must be at least 2 and 2.5 panic distances.
   */
  function CanChangeLane(self: Vehicle, front: Option<Target>, back: Option<Target>): (r: bool)
    ensures r <==>
      && front.Some? && back.Some?
      && !TimeTestRejects(-front.value.dist, front.value.vRel, self.reactionTime / 2.0)
      && !TimeTestRejects(back.value.dist, back.value.vRel, self.reactionTime / 2.0)
      && Abs(front.value.dist) >= self.panicDistance * 2.0
      && Abs(back.value.dist) >= self.panicDistance * 2.5
  {
    if front.None? || back.None? then false
    else
      var f := front.value;
      var b := back.value;
      if TimeTestRejects(-f.dist, f.vRel, self.reactionTime / 2.0) then false
      else if TimeTestRejects(b.dist, b.vRel, self.reactionTime / 2.0) then false
      else !(Abs(f.dist) < self.panicDistance * 2.0 || Abs(b.dist) < self.panicDistance * 2.5)
  }

  /** A front gap shorter than twice the panic distance always refuses the change. */
  lemma ShortFrontGapRefused(self: Vehicle, front: Target, back: Option<Target>)
    requires Abs(front.dist) < 2.0 * self.panicDistance
    ensures !CanChangeLane(self, Some(front), back)
  {
  }

  /** Neighbours holding our speed never fail the time tests; only the gaps decide. */
  lemma SameSpeedNeighboursJudgedByGap(self: Vehicle, front: Target, back: Target)
    requires front.vRel == 0.0 && back.vRel == 0.0
    ensures CanChangeLane(self, Some(front), Some(back))
        <==> Abs(front.dist) >= 2.0 * self.panicDistance && Abs(back.dist) >= 2.5 * self.panicDistance
  {
  }

  /** A front neighbour closing in so that contact is due within half the reaction time refuses the change. */
  lemma ImminentFrontContactRefused(self: Vehicle, front: Target, back: Option<Target>)
    requires front.vRel < 0.0 && front.dist > 0.0
    requires front.dist < -front.vRel * (self.reactionTime / 2.0)
    ensures !CanChangeLane(self, Some(front), back)
  {
    assert TimeTestRejects(-front.dist, front.vRel, self.reactionTime / 2.0);
  }

  /**
   * The random decision on a draw in [0, 100): below 25 move right;
   * below 50 move left if faster than 130 km/h, else right; below 80 pick a
   * new target speed and drop any pending action; otherwise do nothing.
   * Only the action and the target speed can change.
   */
  function DecideAction(self: Vehicle, decision: real, speedDraw: real): (r: Vehicle)
    requires 0.0 <= speedDraw <= 1.0
    ensures r.(action := self.action, targetSpeed := self.targetSpeed) == self
    ensures decision < 25.0 ==> r.action == ChangeLaneRight
    ensures 25.0 <= decision < 50.0 ==>
      r.action == (if self.targetSpeed > LEFT_LANE_SPEED then ChangeLaneLeft else ChangeLaneRight)
    ensures decision < 50.0 ==> r.targetSpeed == self.targetSpeed
    ensures 50.0 <= decision < 80.0 ==> r.action == NoAction && Contains(DecidedSpeedRange, r.targetSpeed)
    ensures 80.0 <= decision ==> r == self
    ensures r.action == ChangeLaneLeft && self.action != ChangeLaneLeft ==> self.targetSpeed > LEFT_LANE_SPEED
  {
    if decision < 25.0 then
      self.(action := ChangeLaneRight)
    else if decision < 50.0 then
      if self.targetSpeed > LEFT_LANE_SPEED then self.(action := ChangeLaneLeft)
      else self.(action := ChangeLaneRight)
    else if decision < 80.0 then
      self.(targetSpeed := Uniform(DecidedSpeedRange, speedDraw), action := NoAction)
    else
      self
  }

  /** The action left after the shared dispatch: consumed when the highway was notified, pending otherwise. */
  function Dispatched(pending: Action, laneChange: Option<int>): Action {
    if laneChange.Some? then NoAction else pending
  }

  /** The result of a background vehicle's `think`. */
  datatype Thought = Thought(vehicle: RandomVehicle, laneChange: Option<int>)

  /**
   * `think`: the shared lane-change dispatch with this kind's acceleration
   * and gate, then, once the timer has run out, a fresh timer and a random
   * decision. The front target is required: the acceleration rule reads it
   * before any check for its absence.
   */
  function Think(self: RandomVehicle, n: Neighbours, period: real, decision: real, speedDraw: real): (r: Thought)
    requires n.front.Some? && self.base.reactionTime != 0.0
    requires 0.0 <= period <= 1.0 && 0.0 <= speedDraw <= 1.0
    ensures r.vehicle.base.a == DecideAcceleration(self.base, n.front.value)
    ensures r.laneChange == Some(1)
        <==> self.base.action == ChangeLaneLeft && CanChangeLane(self.base, n.frontLeft, n.backLeft)
    ensures r.laneChange == Some(-1)
        <==> self.base.action == ChangeLaneRight && CanChangeLane(self.base, n.frontRight, n.backRight)
    ensures r.laneChange == None || r.laneChange == Some(1) || r.laneChange == Some(-1)
    ensures r.vehicle.base.(a := self.base.a, action := self.base.action, targetSpeed := self.base.targetSpeed)
            == self.base
    ensures self.timeUntilNextAction >= 0.0 ==>
      && r.vehicle.timeUntilNextAction == self.timeUntilNextAction
      && r.vehicle.base.targetSpeed == self.base.targetSpeed
      && r.vehicle.base.action == Dispatched(self.base.action, r.laneChange)
    ensures self.timeUntilNextAction < 0.0 ==>
      && Contains(ActionPeriod, r.vehicle.timeUntilNextAction)
      && (decision < 25.0 ==> r.vehicle.base.action == ChangeLaneRight)
      && (25.0 <= decision < 50.0 ==>
            r.vehicle.base.action
            == (if self.base.targetSpeed > LEFT_LANE_SPEED then ChangeLaneLeft else ChangeLaneRight))
      && (decision < 50.0 ==> r.vehicle.base.targetSpeed == self.base.targetSpeed)
      && (50.0 <= decision < 80.0 ==>
            r.vehicle.base.action == NoAction && Contains(DecidedSpeedRange, r.vehicle.base.targetSpeed))
      && (80.0 <= decision ==>
            && r.vehicle.base.action == Dispatched(self.base.action, r.laneChange)
            && r.vehicle.base.targetSpeed == self.base.targetSpeed)
  {
    var accel := DecideAcceleration(self.base, n.front.value);
    var gate := (front, back) => CanChangeLane(self.base, front, back);
    var t := Vehicles.Think(self.base, n, accel, gate);
    ThinkNotifiesOnlyWhenAccepted(self.base, n, accel, gate);
    if self.timeUntilNextAction < 0.0 then
      Thought(RandomVehicle(DecideAction(t.vehicle, decision, speedDraw), Uniform(ActionPeriod, period)),
              t.laneChange)
    else
      Thought(RandomVehicle(t.vehicle, self.timeUntilNextAction), t.laneChange)
  }

  /** `step`: the shared integration step, and the decision timer runs down by dt. */
  function Step(self: RandomVehicle, dt: real): (r: RandomVehicle)
    requires self.base.terminalSpeed != 0.0
    ensures r.timeUntilNextAction == self.timeUntilNextAction - dt
    ensures r.base == Vehicles.Step(self.base, dt)
    ensures r.base.v >= 0.0 && r.base.a <= Ceiling(self.base)
  {
    RandomVehicle(Vehicles.Step(self.base, dt), self.timeUntilNextAction - dt)
  }

  /** Forced target speed: the decision timer restarts at a long period. */
  function SetTargetSpeed(self: RandomVehicle, targetSpeed: real, sample: real): (r: RandomVehicle)
    ensures r.base.targetSpeed == targetSpeed
    ensures r.base.(targetSpeed := self.base.targetSpeed) == self.base
    ensures Contains(LongActionPeriod, r.timeUntilNextAction)
  {
    RandomVehicle(Vehicles.SetTargetSpeed(self.base, targetSpeed), Normal(LongActionPeriod, sample))
  }

  /** Forced target distance: the decision timer restarts at a long period. */
  function SetTargetDistance(self: RandomVehicle, targetDistance: real, sample: real): (r: RandomVehicle)
    ensures r.base.targetDistance == targetDistance
    ensures r.base.(targetDistance := self.base.targetDistance) == self.base
    ensures Contains(LongActionPeriod, r.timeUntilNextAction)
  {
    RandomVehicle(Vehicles.SetTargetDistance(self.base, targetDistance), Normal(LongActionPeriod, sample))
  }

  /** Forced action: the decision timer restarts at a long period. */
  function SetAction(self: RandomVehicle, action: Action, sample: real): (r: RandomVehicle)
    ensures r.base.action == action
    ensures r.base.(action := self.base.action) == self.base
    ensures Contains(LongActionPeriod, r.timeUntilNextAction)
  {
    RandomVehicle(Vehicles.SetAction(self.base, action), Normal(LongActionPeriod, sample))
  }

  /**
   * A forced setting is held: stepping for up to 16 seconds after it and
   * then thinking leaves the forced target speed in place, whatever the
   * random draws of that think are.
   */
  lemma ForcedTargetSpeedHeld(self: RandomVehicle, targetSpeed: real, sample: real, dt: real,
                              n: Neighbours, period: real, decision: real, speedDraw: real)
    requires self.base.terminalSpeed != 0.0 && self.base.reactionTime != 0.0
    requires dt <= 16.0
    requires n.front.Some? && 0.0 <= period <= 1.0 && 0.0 <= speedDraw <= 1.0
    ensures Think(Step(SetTargetSpeed(self, targetSpeed, sample), dt), n, period, decision, speedDraw)
            .vehicle.base.targetSpeed == targetSpeed
  {
    var forced := SetTargetSpeed(self, targetSpeed, sample);
    var stepped := Step(forced, dt);
    assert stepped.base.targetSpeed == targetSpeed;
    assert stepped.timeUntilNextAction >= 0.0;
  }
}
