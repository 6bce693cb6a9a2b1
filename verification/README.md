# Highway traffic: vehicle decision and kinematics layer

A Dafny model of the per-vehicle core of a multi-lane highway traffic simulator. It covers:

- the vehicle record and its semi-implicit Euler `step`, with its acceleration clamps and velocity floor;
- the shared lane-change dispatch of `think`;
- the two kinds of driver: background traffic (`RandomVehicle`) and the adaptive-cruise-control vehicle (`ACCVehicle`);
- the `Target`/`Neighbours` record a vehicle senses;
- the interval clip that bounds every randomised attribute;
- the highway's initial population.

Everything is an immutable datatype over `real`, and every operation is a pure function or a small method. Randomness and `exp` are parameters:

- a uniform draw is a unit draw `u` in [0, 1], mapped to `min + u·(max − min)`;
- a normal draw is the raw sample of the normal distribution, which the interval clips;
- `exp` is any function that is positive everywhere.

The `LaneChangeObserver` callback becomes a returned value: `think` returns the updated vehicle together with the direction the highway was notified of, if any (+1 left, −1 right).

Files (one module each):

- `optional.dfy`: `Option`, for the simulator's nullable `Target` pointers.
- `interval.dfy`: `Intervals`. Clip, uniform draw, normal draw.
- `neighbours.dfy`: `Neighbourhood`. `Target`, `Neighbours`, constructors, builders, copy.
- `vehicle.dfy`: `Vehicles`. `Action`, `Sgn`, the record, constructor, copy, ordering, setters, `Step`, the shared `Think`.
- `random_vehicle.dfy`: `RandomTraffic`. Acceleration rule, lane-change gate, random decision, timer, forced setters.
- `acc_vehicle.dfy`: `AccVehicles`. Cruise-control acceleration, the refusing gate, `Think`, `Step`, construction.
- `highway.dfy`: `Highways`. The initial three lanes of one hundred vehicles, the preferred vehicle, the no-op `step`.

Getters (`getX`, `getV`, `getTargetSpeed`, …) are the datatype's field selectors. Each setter's contract says two things: the field now holds the new value, and resetting that one field gives back the original record. Nothing else changes.

Division by zero is written out wherever the code can reach it with a zero relative speed. The rules follow IEEE arithmetic:

- In the lane-change time tests (`RandomVehicle.cpp:116-120`), a zero `vRel` makes the quotient infinite or NaN. One of the two comparisons then fails, so the test never rejects (`TimeTestRejects`).
- In the reach time (`RandomVehicle.cpp:77-81`), `-drift / 0` with a positive drift is minus infinity. That is negative, so the result is the "never" value 1e10 (`ReachTime`).

Elsewhere the divisor is a vehicle parameter. Each operation requires only that its own divisor is non-zero:

- `terminalSpeed` in `step`;
- `reactionTime` in both acceleration rules;
- `targetDistance` in the cruise-control rule.

The constructor draws all three parameters from positive ranges (`Vehicles.Create` ensures `WellFormed`). The UI only sets target distances of 20 m or more.

Notes on what the code does:

- The lane-change gate asks for 2 panic distances of front gap but 2.5 of back gap.
- The time test refuses only a strictly positive time to contact that is below half the reaction time.
- The open-gap and closed-gap acceleration rules do not meet at zero distance drift. With a lead at the same speed, any gap beyond the target distance gives the full speed correction `(targetSpeed − v)/reactionTime`, while a gap exactly at the target distance gives 0 (`RandomTraffic.RegimesDisagreeAtZeroDrift`). With a closing lead the open-gap rule tends to minus infinity as the drift falls to 0, while the closed-gap rule gives `2·vRel/reactionTime`. The model states each regime separately and claims no continuity.
- The highway `step` of this version does nothing. The cruise-control vehicle declares `unsatisfied` and `unsatisfiedTime` (ACCVehicle.h:47-52) but never updates them.

## Model

| member | source | states |
|---|---|---|
| Intervals.Clip | Interval.h:47-49 | the result lies in [lower, upper] when lower ≤ upper; values already inside are unchanged; values below go to lower and values above to upper |
| Intervals.ClipIdempotent | Interval.h:47-49 | clipping twice is the same as clipping once |
| Intervals.Uniform | Interval.h:58-60 | a uniform draw lies in [min, max], with the unit draw's ends mapped to the interval's ends |
| Intervals.Normal | Interval.h:62-63 | `normal()` lies in [min, max] whatever the raw sample; a sample already in range is returned as is |
| Neighbourhood.Empty | Neighbours.cpp:63-68 | the default record has all six targets absent |
| Neighbourhood.Make | Neighbours.cpp:36-40 | the given front and back targets are stored and all four side targets are absent |
| Neighbourhood.WithLeft | Neighbours.cpp:42-46 | frontLeft/backLeft take the given targets and every other field keeps its value |
| Neighbourhood.WithRight | Neighbours.cpp:48-52 | frontRight/backRight take the given targets and every other field keeps its value |
| Neighbourhood.CopyField | Neighbours.cpp:55-60 | a present target is copied as an equal target; an absent one is left as the uninitialised member was |
| Neighbourhood.Copy | Neighbours.cpp:54-61 | every target present in the original has an equal target in the copy |
| Neighbourhood.BuildersCompose | Neighbours.cpp:36-52 | the constructor followed by both builders yields exactly the six given targets, in either builder order |
| Neighbourhood.CopyOfFullRecord | Neighbours.cpp:54-61 | a record with all six targets present is copied to an equal record |
| Vehicles.Sgn | Vehicle.h:209-212 | 1 exactly for positive input, −1 exactly for negative input, 0 exactly for zero; always in {−1, 0, 1} |
| Vehicles.Create | Vehicle.cpp:49-67 | a new vehicle has x = a = 0, v equal to its target speed, panic distance 12, no pending action and the given lane; every randomised attribute lies in its interval; the vehicle is well formed |
| Vehicles.Copy | Vehicle.cpp:71-76 | the copy equals the original in every member except the action, which is left unspecified |
| Vehicles.Less | Vehicle.cpp:82-84 | the ordering compares positions only |
| Vehicles.LessIsStrictOrder | Vehicle.cpp:82-84 | ordering by position is irreflexive, asymmetric and transitive |
| Vehicles.SetAction | Vehicle.h:180-182 | only the action changes, and it takes the given value |
| Vehicles.SetV | Vehicle.h:184-186 | only the velocity changes, and it takes the given value |
| Vehicles.SetTargetSpeed | Vehicle.h:188-190 | only the target speed changes, and reading it back gives the value set |
| Vehicles.SetLane | Vehicle.h:192-194 | only the lane changes, and reading it back gives the value set |
| Vehicles.SetTargetDistance | Vehicle.h:200-202 | only the target distance changes, reading it back gives the value set, and a positive value keeps the vehicle well formed |
| Vehicles.SettersOverwrite | Vehicle.h:180-202 | a second set overrides the first; setting a field to its current value changes nothing |
| Vehicles.Ceiling | Vehicle.cpp:87 | the acceleration ceiling is maxAcceleration at standstill and 0 at terminal speed |
| Vehicles.Step | Vehicle.cpp:86-93 | after a step, with ceiling = maxAcceleration·(1 − v/terminalSpeed) from before the step: a ≤ ceiling; a ≥ −19 whenever the ceiling is itself ≥ −19; an in-range a is unchanged; an a below −19 becomes exactly −19 when the ceiling allows it; an a above the ceiling, or any a when the ceiling is below −19, becomes exactly the ceiling (the upper clamp wins). v ≥ 0, and v is the integrated velocity unless that was negative; x moves by dt times the new v; nothing else changes |
| Vehicles.StepKeepsWellFormed | Vehicle.cpp:86-93 | a step changes no parameter, action or lane, so well-formedness is kept |
| Vehicles.Think | Vehicle.cpp:95-116 | the decided acceleration is stored. A pending left or right change notifies +1 or −1 and clears the action exactly when the gate accepts that side's targets. Otherwise there is no notification and the action stays. With no action nothing is notified |
| Vehicles.ThinkNotifiesOnlyWhenAccepted | Vehicle.cpp:98-115 | a notification happens exactly when the pending action is consumed, in its direction, and only when the gate accepted that side |
| RandomTraffic.Create | RandomVehicle.cpp:43-46 | the vehicle is the base vehicle placed at x, and its first decision is 5.7 to 13.6 s away |
| RandomTraffic.Copy | RandomVehicle.cpp:155-158 | the copy keeps the timer and every base member except the unspecified action |
| RandomTraffic.ReachTime | RandomVehicle.cpp:76-81 | for a positive drift the reach time is positive. It equals −drift/vRel when the lead is closing (vRel < 0) and 1e10 otherwise, including vRel = 0 |
| RandomTraffic.ClosingCorrection | RandomVehicle.cpp:77-82 | the relative-speed correction is −vRel²/drift while closing and vRel/1e10 otherwise |
| RandomTraffic.PanicBrake | RandomVehicle.cpp:91-94 | the panic term is −maxAcceleration when the gap is short of target by more than the panic distance, and 0 otherwise |
| RandomTraffic.DecideAcceleration | RandomVehicle.cpp:48-110 | open gap: a = −(v − targetSpeed)/reactionTime plus −vRel²/drift when closing, or vRel/1e10 otherwise. Closed gap: a = panic term + 2·vRel/reactionTime + drift/reactionTime² |
| RandomTraffic.RegimesDisagreeAtZeroDrift | RandomVehicle.cpp:75-99 | with a lead at the same speed and a non-negative panic distance, a gap exactly at the target distance gives acceleration 0, while any longer gap gives (targetSpeed − v)/reactionTime: the two regimes do not meet |
| RandomTraffic.OpenGapEquilibrium | RandomVehicle.cpp:75-87 | open gap, lead at our speed, and driving at target speed: the acceleration is 0 |
| RandomTraffic.OpenGapClosingSlowsDown | RandomVehicle.cpp:75-87 | with an open gap, closing on the lead always asks for less than the pure speed correction |
| RandomTraffic.PanicBrakeEngages | RandomVehicle.cpp:89-99 | deeper than the panic distance into the gap, with the lead not pulling away, the acceleration is below −maxAcceleration |
| RandomTraffic.ClosedGapMonotone | RandomVehicle.cpp:89-99 | in the closed-gap regime a shorter gap never yields a larger acceleration |
| RandomTraffic.TimeTestRejects | RandomVehicle.cpp:116-120 | the test rejects exactly when contact is due strictly within the limit. A positive vRel means 0 < num < limit·vRel; a negative vRel means limit·vRel < num < 0; a zero vRel never rejects |
| RandomTraffic.CanChangeLane | RandomVehicle.cpp:112-124 | true exactly when both targets are present, neither time test rejects, the front gap is at least 2 panic distances and the back gap at least 2.5 |
| RandomTraffic.ShortFrontGapRefused | RandomVehicle.cpp:122-123 | a front gap shorter than twice the panic distance is always refused |
| RandomTraffic.SameSpeedNeighboursJudgedByGap | RandomVehicle.cpp:116-123 | with both relative speeds 0 the time tests never reject, and only the two gap tests decide |
| RandomTraffic.ImminentFrontContactRefused | RandomVehicle.cpp:116-117 | a closing front target due within half the reaction time is refused |
| RandomTraffic.DecideAction | RandomVehicle.cpp:126-141 | draw < 25 gives right. 25 ≤ draw < 50 gives left if targetSpeed > 130/3.6, else right. 50 ≤ draw < 80 gives a target speed in [100/3.6, 250/3.6] and no action. draw ≥ 80 changes nothing. Only action and target speed ever change, and left is only chosen by fast drivers |
| RandomTraffic.Think | RandomVehicle.cpp:143-150 | the acceleration is this kind's rule, and notifications follow the lane-change gate. Apart from acceleration, action and target speed, the vehicle is unchanged. With the timer not yet negative, the timer and target speed are kept and the action is the one left by the dispatch (cleared exactly when a change was notified). With a negative timer, the timer is redrawn into [5.7, 13.6] and the random decision runs on the dispatched vehicle: draw < 25 asks right; 25 ≤ draw < 50 asks left if targetSpeed > 130/3.6, else right; both keep the target speed; 50 ≤ draw < 80 drops the action and picks a speed in [100/3.6, 250/3.6]; draw ≥ 80 keeps the dispatched action and the target speed |
| RandomTraffic.Step | RandomVehicle.cpp:161-164 | the base vehicle takes the shared step, and the timer falls by exactly dt |
| RandomTraffic.SetTargetSpeed | RandomVehicle.cpp:166-169 | the target speed is set, nothing else in the base changes, and the timer is reset into [16, 24] |
| RandomTraffic.SetTargetDistance | RandomVehicle.cpp:171-174 | the target distance is set, nothing else in the base changes, and the timer is reset into [16, 24] |
| RandomTraffic.SetAction | RandomVehicle.cpp:177-180 | the action is set, nothing else in the base changes, and the timer is reset into [16, 24] |
| RandomTraffic.ForcedTargetSpeedHeld | RandomVehicle.cpp:143-169 | after a forced target speed and a step of at most 16 s, the next think keeps the forced target speed whatever its random draws |
| AccVehicles.Create | ACCVehicle.cpp:36-40 | construction copies every member except the action (unspecified) and only replaces the colour with (0.1, 1.0, 0.1) |
| AccVehicles.DistanceWeight | ACCVehicle.cpp:50-51 | the distance weight k/(k+1) lies in (0, 1) |
| AccVehicles.SpeedWeight | ACCVehicle.cpp:50-53 | the speed weight 1/(k+1) lies in (0, 1) and the two weights sum to 1 |
| AccVehicles.Following | ACCVehicle.cpp:49-55 | behind a lead, the expression as written, evaluated left to right, equals the weighted distance and speed targets plus speed matching, minus the repulsion |
| AccVehicles.DecideAcceleration | ACCVehicle.cpp:47-59 | with no lead, a = (targetSpeed − v)/reactionTime, which is 0 exactly at target speed and positive exactly below it. With a lead, a is the cruise term minus the positive repulsion exp(7.5·(panicDistance − dist)), so strictly below the cruise term. The blended part lies between the distance and speed targets |
| AccVehicles.CruiseIsWeightedMean | ACCVehicle.cpp:50-53 | without the speed-matching term, the cruise acceleration is a weighted mean of the distance and speed targets |
| AccVehicles.CanChangeLane | ACCVehicle.cpp:61-63 | the gate always refuses |
| AccVehicles.SharedDispatchNeverNotifies | ACCVehicle.cpp:61-67 | `think` skips the shared dispatch (the call is commented out at :67); were it restored, this gate would still never notify and never clear the action, so `Think`'s behaviour would not change |
| AccVehicles.Think | ACCVehicle.cpp:66-70 | only the acceleration changes; no lane change is notified and the action is untouched |
| AccVehicles.Step | ACCVehicle.cpp:72-74 | the step is exactly the shared vehicle step: an in-range a is kept, an a below −19 becomes −19 when the ceiling allows, otherwise an a above the ceiling becomes the ceiling; v is the integrated velocity floored at 0; x moves by dt times the new v; nothing else changes |
| Highways.Gap | Highway.cpp:46 | each spawn gap from `deltaX.normal()` lies in [15, 40] |
| Highways.OffsetGrowth | Highway.cpp:44-47 | over any run of k consecutive vehicles the running position grows by between 15·k and 40·k |
| Highways.BuildLane | Highway.cpp:44-48 | the j-th vehicle of a lane is a background vehicle at the sum of the first j + 1 gaps, in that lane |
| Highways.BuiltLaneLayout | Highway.cpp:44-48 | positions in a built lane strictly increase, each consecutive gap is in [15, 40], and the j-th vehicle (0-based) lies in [15·(j+1), 40·(j+1)]. Every vehicle is well formed, in its lane, with no action |
| Highways.Create | Highway.cpp:41-52 | exactly 3 lanes of exactly 100 vehicles each. Lane i is built from its own spawn draws: its j-th vehicle is the background vehicle created from the j-th draw at the sum of the first j + 1 gaps. Each lane is sorted with gaps in [15, 40], and every vehicle is well formed, in its lane, with no action. The preferred vehicle is at lane 3/2 = 1, index 100/2 = 50 |
| Highways.Preferred | Highway.cpp:51 | the preferred vehicle is a vehicle of its lane |
| Highways.Step | Highway.cpp:61-67 | a step changes no state |

## Left out

- UIPresenter, Window, Window2D and Foliage2D: ImGui, GLFW and OpenGL input and drawing; no simulation logic.
- Error.h: an exception wrapper only.
- The random engine of Interval.h (`random_device`, `mt19937`, the distributions): each draw is a parameter. A uniform draw is modelled over the closed interval, since float rounding can reach the upper end.
- `std::exp`: a parameter, any function positive everywhere.
- Float and double rounding: all quantities are exact reals; interval bounds such as 350/3.6 are taken exactly, not rounded to float.
- The `inertialAcceleration` terms of RandomVehicle.cpp:55-72 and the commented-out lines at :103 and :107-109: dead code, never assigned to `a`.
- RandomTraffic.DecideAcceleration: the front target is a required argument. The code reads `n->front->dist` at RandomVehicle.cpp:50 before its null check at :59, and even past that check the coast-to-target value of :61 is overwritten by 0 at :104, so the no-front branch is not modelled.
- Vehicles.Copy, RandomTraffic.Copy, AccVehicles.Create: the copy constructor does not initialise the action (Vehicle.cpp:71-76), so its value is an `indeterminate` parameter and nothing is claimed about it.
- Neighbourhood.Copy: a member whose counterpart in the copied record is absent is left uninitialised (Neighbours.cpp:54-61); its value is taken from an `indeterminate` record and nothing is claimed about it.
- Highway.cpp:47 calls a two-argument `RandomVehicle` constructor, but RandomVehicle.cpp defines only the three-argument one (:43) and the copy constructor (:155). The model places the vehicle at the running position in lane i. The `intV` speed draw is unused, because no constructor body in RandomVehicle.cpp takes a speed.
- The Highway copy constructor (Highway.cpp:54-55): values are immutable here, so a copy is the value itself.
- Target.h is not part of this model; `Target` is the pair (dist, vRel) that the code reads.
- Declared in Highway.h and ACCVehicle.h but not defined in Highway.cpp or ACCVehicle.cpp: the lane-change coordinator and `notifyLaneChange`, teleporting/recycling, the neighbour finder and `target`, `sort`, `addVehicleAt`, `addVehicleInFrontOfPreferred`, `selectVehicleAt`, `unselectVehicle`, `stabilise` (Highway.h:42-91), and the cruise-control `unsatisfied`/`shouldChangeLane` (ACCVehicle.h:47-57).
- `ACCVehicle::decideAction` (ACCVehicle.cpp:42-44): its body is empty and nothing calls it.
- Colour and size are modelled only as stored values. Drawing is out of scope.
