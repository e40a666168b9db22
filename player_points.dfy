/**
 * A player's point counter shown as a row of knobs
 * (PlayerScripts/PlayerPointsUI.cs). Each knob is an image that is enabled
 * or not; the grow and shrink animations are not part of this model, and
 * the knob a removal disables is disabled at once.
 */
module PlayerPoints {

  /** The counter and the knobs' enabled flags, as one value. */
  datatype Knobs = Knobs(points: int, enabled: seq<bool>)

  /** The knobs show the counter: the first `points` knobs are enabled and no others. */
  predicate Shows(s: Knobs)
  {
    0 <= s.points <= |s.enabled| && forall i :: 0 <= i < |s.enabled| ==> s.enabled[i] == (i < s.points)
  }

  /** `AddPoint` fails on the knob lookup when the counter is negative. */
  predicate AddThrows(s: Knobs)
  {
    s.points < 0
  }

  /** The state after `AddPoint`: below capacity, the knob at the old count is enabled and the count goes up. */
  function AfterAdd(s: Knobs): Knobs
  {
    if s.points >= |s.enabled| || s.points < 0 then s
    else Knobs(s.points + 1, s.enabled[s.points := true])
  }

  /** `RemovePoint` fails on the knob lookup, after the decrement, when the counter exceeds the knobs. */
  predicate RemoveThrows(s: Knobs)
  {
    s.points > |s.enabled|
  }

  /** The state after `RemovePoint`: above zero, the count goes down and the knob at the new count is disabled. */
  function AfterRemove(s: Knobs): Knobs
  {
    if s.points <= 0 then s
    else if s.points - 1 >= |s.enabled| then Knobs(s.points - 1, s.enabled)
    else Knobs(s.points - 1, s.enabled[s.points - 1 := false])
  }

  /** Adding never raises the count past the number of knobs, and raises it by at most one. */
  lemma AddBounded(s: Knobs)
    ensures s.points <= |s.enabled| ==> AfterAdd(s).points <= |s.enabled|
    ensures AfterAdd(s).points == s.points || AfterAdd(s).points == s.points + 1
    ensures AfterAdd(s).points == s.points + 1 <==> 0 <= s.points < |s.enabled|
    ensures |AfterAdd(s).enabled| == |s.enabled|
  {
  }

  /** Removing never takes a non-negative count below zero, and lowers it by at most one. */
  lemma RemoveBounded(s: Knobs)
    ensures s.points >= 0 ==> AfterRemove(s).points >= 0
    ensures AfterRemove(s).points == s.points - 1 <==> s.points > 0
    ensures s.points <= 0 ==> AfterRemove(s) == s
    ensures |AfterRemove(s).enabled| == |s.enabled|
  {
  }

  /** Both operations keep the knobs showing the counter. */
  lemma StepsKeepShowing(s: Knobs)
    requires Shows(s)
    ensures Shows(AfterAdd(s)) && Shows(AfterRemove(s))
    ensures !AddThrows(s) && !RemoveThrows(s)
  {
  }

  /** Below capacity, a point added and then removed leaves counter and knobs as they were. */
  lemma AddThenRemove(s: Knobs)
    requires Shows(s) && s.points < |s.enabled|
    ensures AfterRemove(AfterAdd(s)) == s
  {
  }

  /** Above zero, a point removed and then added back leaves counter and knobs as they were. */
  lemma RemoveThenAdd(s: Knobs)
    requires Shows(s) && s.points > 0
    ensures AfterAdd(AfterRemove(s)) == s
  {
  }

  class PlayerPointsUI {
    var currentPoints: int
    /** The enabled flag of each knob image. */
    const pointKnobs: array<bool>

    function State(): Knobs
      reads this, pointKnobs
    {
      Knobs(currentPoints, pointKnobs[..])
    }

    /** A counter with `knobCount` knobs, starting at 4 points and drawn by `Start`. */
    constructor (knobCount: nat)
      ensures currentPoints == 4 && pointKnobs.Length == knobCount && fresh(pointKnobs)
      ensures forall i :: 0 <= i < knobCount ==> pointKnobs[i] == (i < 4)
      ensures knobCount >= 4 ==> Shows(State())
    {
      currentPoints := 4;
      pointKnobs := new bool[knobCount];
      new;
      UpdateVisualState();
    }

    /** `UpdateVisualState`: knob i is enabled exactly when i is below the counter. */
    method UpdateVisualState()
      modifies pointKnobs
      ensures forall i :: 0 <= i < pointKnobs.Length ==> pointKnobs[i] == (i < currentPoints)
      ensures 0 <= currentPoints <= pointKnobs.Length ==> Shows(State())
    {
      var i := 0;
      while i < pointKnobs.Length
        invariant 0 <= i <= pointKnobs.Length
        invariant forall j :: 0 <= j < i ==> pointKnobs[j] == (j < currentPoints)
      {
        pointKnobs[i] := i < currentPoints;
        i := i + 1;
      }
    }

    /**
     * `AddPoint`: below capacity, the knob at the current count is enabled
     * and the count goes up by one; at capacity nothing changes. A negative
     * counter makes the knob lookup fail (`ok` false) before any change.
     */
    method AddPoint() returns (ok: bool)
      modifies this, pointKnobs
      ensures State() == AfterAdd(old(State()))
      ensures ok <==> !AddThrows(old(State()))
    {
      if currentPoints >= pointKnobs.Length {
        return true;
      }
      if currentPoints < 0 {
        return false;
      }
      pointKnobs[currentPoints] := true;
      currentPoints := currentPoints + 1;
      return true;
    }

    /**
     * `RemovePoint`: above zero, the count goes down by one and the knob at
     * the new count is disabled; at zero nothing changes. A counter above
     * the number of knobs is decremented and then fails on the knob lookup
     * (`ok` false).
     */
    method RemovePoint() returns (ok: bool)
      modifies this, pointKnobs
      ensures State() == AfterRemove(old(State()))
      ensures ok <==> !RemoveThrows(old(State()))
    {
      if currentPoints <= 0 {
        return true;
      }
      currentPoints := currentPoints - 1;
      if currentPoints >= pointKnobs.Length {
        return false;
      }
      pointKnobs[currentPoints] := false;
      return true;
    }
  }
}
