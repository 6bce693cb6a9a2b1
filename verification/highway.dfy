/**
 * The highway's initial population: three lanes of a hundred background
 * vehicles each, every lane laid out from x = 0 forward with a random gap
 * of 15 to 40 m before each vehicle, and the vehicle in the middle of the
 * middle lane as the preferred one. Stepping the highway does nothing yet.
 */
module Highways {
  import opened Intervals
  import opened Vehicles
  import opened RandomTraffic

  const N_LANES: nat := 3
  const N_VEHICLES_PER_LANE: nat := 100
  /** The gap placed before each vehicle of a lane. */
  const DeltaX := Interval(15.0, 40.0)

  /** A lane: its vehicles in the order they were placed. */
  type Lane = seq<RandomVehicle>

  /** The lanes and the position (lane, index) of the preferred vehicle. */
  datatype Highway = Highway(lanes: seq<Lane>, preferredLane: nat, preferredIndex: nat)

  /** The random draws consumed to place one vehicle: the raw gap sample,
      the vehicle's own draws and the unit draw of its first decision period. */
  datatype Spawn = Spawn(gap: real, vehicle: Draws, period: real)

  predicate ValidSpawn(s: Spawn) {
    ValidDraws(s.vehicle) && 0.0 <= s.period <= 1.0
  }

  /** The gap that `deltaX.normal()` yields for a raw sample. */
  function Gap(s: Spawn): (r: real)
    ensures Contains(DeltaX, r)
  {
    Normal(DeltaX, s.gap)
  }

  /** Where the last of `spawns` is placed: the sum of all their gaps. */
  function Offset(spawns: seq<Spawn>): real {
    if |spawns| == 0 then 0.0 else Offset(spawns[..|spawns| - 1]) + Gap(spawns[|spawns| - 1])
  }

  /** Between the i-th and j-th prefixes, the offset grows by 15 to 40 m per vehicle. */
  lemma {:induction false} OffsetGrowth(spawns: seq<Spawn>, i: nat, j: nat)
    requires i <= j <= |spawns|
    ensures 15.0 * (j - i) as real <= Offset(spawns[..j]) - Offset(spawns[..i]) <= 40.0 * (j - i) as real
    decreases j - i
  {
    if i < j {
      OffsetGrowth(spawns, i, j - 1);
      assert spawns[..j][..j - 1] == spawns[..j - 1];
      assert Offset(spawns[..j]) == Offset(spawns[..j - 1]) + Gap(spawns[j - 1]);
    }
  }

  /** Strictly increasing positions along the lane, in the vehicles' own order. */
  predicate Sorted(lane: Lane) {
    forall i, j :: 0 <= i < j < |lane| ==> Less(lane[i].base, lane[j].base)
  }

  /** The j-th vehicle of lane `index`: placed at the sum of the first j + 1 gaps. */
  function Placed(index: nat, spawns: seq<Spawn>, j: nat): RandomVehicle
    requires j < |spawns| && ValidSpawn(spawns[j])
  {
    RandomTraffic.Create(Offset(spawns[..j + 1]), index as real, spawns[j].vehicle, spawns[j].period)
  }

  /** `lane` is lane `index` as laid out from `spawns`. */
  predicate Builds(index: nat, spawns: seq<Spawn>, lane: Lane) {
    && |lane| == |spawns|
    && forall j :: 0 <= j < |lane| ==> ValidSpawn(spawns[j]) && lane[j] == Placed(index, spawns, j)
  }

  /** Lays out one lane: each vehicle one gap further than the previous one. */
  method BuildLane(index: nat, spawns: seq<Spawn>) returns (lane: Lane)
    requires forall k :: 0 <= k < |spawns| ==> ValidSpawn(spawns[k])
    ensures Builds(index, spawns, lane)
  {
    lane := [];
    var x := 0.0;
    var j := 0;
    while j < |spawns|
      invariant 0 <= j <= |spawns| && |lane| == j
      invariant x == Offset(spawns[..j])
      invariant forall k :: 0 <= k < j ==> lane[k] == Placed(index, spawns, k)
    {
      x := x + Gap(spawns[j]);
      assert spawns[..j + 1][..j] == spawns[..j];
      lane := lane + [RandomTraffic.Create(x, index as real, spawns[j].vehicle, spawns[j].period)];
      j := j + 1;
    }
  }

  /** A lane laid out from its spawns is sorted, with every gap and position in range. */
  lemma BuiltLaneLayout(index: nat, spawns: seq<Spawn>, lane: Lane)
    requires Builds(index, spawns, lane)
    ensures Sorted(lane)
    ensures forall j :: 0 <= j < |lane| ==> 15.0 * (j + 1) as real <= lane[j].base.x <= 40.0 * (j + 1) as real
    ensures forall j :: 0 < j < |lane| ==> Contains(DeltaX, lane[j].base.x - lane[j - 1].base.x)
    ensures forall j :: 0 <= j < |lane| ==>
      WellFormed(lane[j].base) && lane[j].base.lane == index as real && lane[j].base.action == NoAction
  {
    forall j | 0 <= j < |lane|
      ensures 15.0 * (j + 1) as real <= lane[j].base.x <= 40.0 * (j + 1) as real
    {
      OffsetGrowth(spawns, 0, j + 1);
    }
    forall j | 0 < j < |lane|
      ensures Contains(DeltaX, lane[j].base.x - lane[j - 1].base.x)
    {
      OffsetGrowth(spawns, j, j + 1);
    }
    forall i, j | 0 <= i < j < |lane|
      ensures Less(lane[i].base, lane[j].base)
    {
      OffsetGrowth(spawns, i + 1, j + 1);
    }
  }

  /** A freshly populated lane: full, sorted, each vehicle one 15 to 40 m gap beyond the previous one. */
  predicate LaidOut(lane: Lane) {
    && |lane| == N_VEHICLES_PER_LANE
    && Sorted(lane)
    && (forall j :: 0 <= j < |lane| ==> 15.0 * (j + 1) as real <= lane[j].base.x <= 40.0 * (j + 1) as real)
    && (forall j :: 0 < j < |lane| ==> Contains(DeltaX, lane[j].base.x - lane[j - 1].base.x))
  }

  predicate Populated(lanes: seq<Lane>) {
    |lanes| == N_LANES && forall i :: 0 <= i < |lanes| ==> LaidOut(lanes[i])
  }

  /** Lane `index` as the constructor leaves it: laid out from `spawns`, its vehicles well-formed, in that lane, idle. */
  predicate FreshLane(index: nat, spawns: seq<Spawn>, lane: Lane) {
    && LaidOut(lane)
    && Builds(index, spawns, lane)
    && forall j :: 0 <= j < |lane| ==>
         WellFormed(lane[j].base) && lane[j].base.lane == index as real && lane[j].base.action == NoAction
  }

  /** The highway constructor, from the draws of every vehicle of every lane. */
  method Create(spawns: seq<seq<Spawn>>) returns (h: Highway)
    requires |spawns| == N_LANES
    requires forall i :: 0 <= i < |spawns| ==> |spawns[i]| == N_VEHICLES_PER_LANE
    requires forall i, k :: 0 <= i < |spawns| && 0 <= k < |spawns[i]| ==> ValidSpawn(spawns[i][k])
    ensures Populated(h.lanes)
    ensures h.preferredLane == N_LANES / 2 && h.preferredIndex == N_VEHICLES_PER_LANE / 2
    ensures h.preferredLane < |h.lanes| && h.preferredIndex < |h.lanes[h.preferredLane]|
    ensures forall i :: 0 <= i < |h.lanes| ==> FreshLane(i, spawns[i], h.lanes[i])
  {
    var lanes: seq<Lane> := [];
    var i := 0;
    while i < N_LANES
      invariant 0 <= i <= N_LANES && |lanes| == i
      invariant forall p :: 0 <= p < i ==> FreshLane(p, spawns[p], lanes[p])
    {
      var lane := BuildLane(i, spawns[i]);
      BuiltLaneLayout(i, spawns[i], lane);
      assert FreshLane(i, spawns[i], lane);
      lanes := lanes + [lane];
      i := i + 1;
    }
    h := Highway(lanes, N_LANES / 2, N_VEHICLES_PER_LANE / 2);
  }

  /** The preferred vehicle: the middle vehicle of the middle lane. */
  function Preferred(h: Highway): (r: RandomVehicle)
    requires h.preferredLane < |h.lanes| && h.preferredIndex < |h.lanes[h.preferredLane]|
    ensures r in h.lanes[h.preferredLane]
  {
    h.lanes[h.preferredLane][h.preferredIndex]
  }

  /** `step`: in this version the per-vehicle loop body is empty, so no state changes. */
  function Step(h: Highway, dt: real): (r: Highway)
    ensures r == h
  {
    h
  }
}
