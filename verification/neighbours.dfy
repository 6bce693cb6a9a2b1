/**
 * What a vehicle senses of the traffic around it: a Target per neighbour,
 * and the record of up to six of them (same lane, left lane, right lane;
 * each in front and behind). An absent neighbour is a null pointer in the
 * simulator and `None` here.
 */
module Neighbourhood {
  import opened Optional

  /** Distance to a neighbour (positive = open gap) and its velocity relative to ours. */
  datatype Target = Target(dist: real, vRel: real)

  datatype Neighbours = Neighbours(
    front: Option<Target>,
    back: Option<Target>,
    frontLeft: Option<Target>,
    frontRight: Option<Target>,
    backLeft: Option<Target>,
    backRight: Option<Target>)

  /** No side neighbour is known. */
  predicate NoSides(n: Neighbours) {
    n.frontLeft.None? && n.frontRight.None? && n.backLeft.None? && n.backRight.None?
  }

  /** The default constructor: nothing is known. */
  function Empty(): (r: Neighbours)
    ensures r.front.None? && r.back.None? && NoSides(r)
  {
    Neighbours(None, None, None, None, None, None)
  }

  /** The two-argument constructor: same-lane targets only. */
  function Make(front: Option<Target>, back: Option<Target>): (r: Neighbours)
    ensures r.front == front && r.back == back
    ensures NoSides(r)
  {
    Neighbours(front, back, None, None, None, None)
  }

  /** Records the left-lane targets; every other field is kept. */
  function WithLeft(n: Neighbours, front: Option<Target>, back: Option<Target>): (r: Neighbours)
    ensures r.frontLeft == front && r.backLeft == back
    ensures r.(frontLeft := n.frontLeft, backLeft := n.backLeft) == n
  {
    n.(frontLeft := front, backLeft := back)
  }

  /** Records the right-lane targets; every other field is kept. */
  function WithRight(n: Neighbours, front: Option<Target>, back: Option<Target>): (r: Neighbours)
    ensures r.frontRight == front && r.backRight == back
    ensures r.(frontRight := n.frontRight, backRight := n.backRight) == n
  {
    n.(frontRight := front, backRight := back)
  }

  /** The copy of one field: a fresh equal Target when present; when absent
      the member is never written, so it keeps whatever `indeterminate` holds. */
  function CopyField(field: Option<Target>, indeterminate: Option<Target>): (r: Option<Target>)
    ensures field.Some? ==> r == field
    ensures field.None? ==> r == indeterminate
  {
    if field.Some? then Some(field.value) else indeterminate
  }

  /**
   * The copy constructor. Each present Target is duplicated; a member whose
   * counterpart in `other` is absent is left uninitialised, modelled by the corresponding
   * field of `indeterminate`.
   */
  function Copy(other: Neighbours, indeterminate: Neighbours): (r: Neighbours)
    ensures other.front.Some? ==> r.front == other.front
    ensures other.back.Some? ==> r.back == other.back
    ensures other.frontLeft.Some? ==> r.frontLeft == other.frontLeft
    ensures other.frontRight.Some? ==> r.frontRight == other.frontRight
    ensures other.backLeft.Some? ==> r.backLeft == other.backLeft
    ensures other.backRight.Some? ==> r.backRight == other.backRight
  {
    Neighbours(
      CopyField(other.front, indeterminate.front),
      CopyField(other.back, indeterminate.back),
      CopyField(other.frontLeft, indeterminate.frontLeft),
      CopyField(other.frontRight, indeterminate.frontRight),
      CopyField(other.backLeft, indeterminate.backLeft),
      CopyField(other.backRight, indeterminate.backRight))
  }

  /** Building a record from the constructor and both builders loses nothing. */
  lemma BuildersCompose(front: Option<Target>, back: Option<Target>,
                        fl: Option<Target>, bl: Option<Target>,
                        fr: Option<Target>, br: Option<Target>)
    ensures WithRight(WithLeft(Make(front, back), fl, bl), fr, br)
         == Neighbours(front, back, fl, fr, bl, br)
    ensures WithLeft(WithRight(Make(front, back), fr, br), fl, bl)
         == WithRight(WithLeft(Make(front, back), fl, bl), fr, br)
  {
  }

  /** A copy of a record with every Target present is equal to it, whatever the uninitialised memory held. */
  lemma CopyOfFullRecord(other: Neighbours, indeterminate: Neighbours)
    requires other.front.Some? && other.back.Some?
    requires other.frontLeft.Some? && other.frontRight.Some?
    requires other.backLeft.Some? && other.backRight.Some?
    ensures Copy(other, indeterminate) == other
  {
  }
}
