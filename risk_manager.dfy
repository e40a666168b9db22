/**
 * The turn counter and the list of active risks (RiskDisasterSystem/RiskManager.cs).
 * The per-risk roll `Random.value < baseProbability + escalationRate * currentTurn`
 * is floating point and random; it is abstracted as an oracle `roll`, where
 * `roll(i)` is the outcome for the i-th active risk.
 */
module RiskTurns {
  import opened Risks
  import opened Seqs

  /** The risks whose roll succeeds, in list order. */
  function Triggered(risks: seq<Risk>, roll: nat -> bool): (r: seq<Risk>)
    ensures |r| <= |risks|
    ensures IsSubseq(r, risks)
  {
    if |risks| == 0 then []
    else
      var rest := Triggered(risks[..|risks| - 1], roll);
      if roll(|risks| - 1) then
        assert risks[..|risks| - 1] + [risks[|risks| - 1]] == risks;
        TriggeredExtend(rest, risks[..|risks| - 1], risks[|risks| - 1]);
        rest + [risks[|risks| - 1]]
      else
        assert risks[..|risks| - 1] + [risks[|risks| - 1]] == risks;
        SubseqExtend(rest, risks[..|risks| - 1], risks[|risks| - 1]);
        rest
  }

  /** Keeping the last element of both sequences keeps the subsequence relation. */
  lemma TriggeredExtend(a: seq<Risk>, b: seq<Risk>, x: Risk)
    requires IsSubseq(a, b)
    ensures IsSubseq(a + [x], b + [x])
  {
    assert (a + [x])[..|a|] == a;
    assert (b + [x])[..|b|] == b;
  }

  /** A risk is in the result exactly when some occurrence of it passed its roll. */
  lemma {:induction false} TriggeredMembers(risks: seq<Risk>, roll: nat -> bool)
    ensures forall i :: 0 <= i < |risks| && roll(i) ==> risks[i] in Triggered(risks, roll)
    ensures forall x :: x in Triggered(risks, roll) ==>
      exists i :: 0 <= i < |risks| && roll(i) && risks[i] == x
  {
    if |risks| > 0 {
      var n := |risks| - 1;
      TriggeredMembers(risks[..n], roll);
    }
  }

  /** When every roll succeeds all risks trigger; when none does, none trigger. */
  lemma {:induction false} TriggeredExtremes(risks: seq<Risk>, roll: nat -> bool)
    ensures (forall i :: 0 <= i < |risks| ==> roll(i)) ==> Triggered(risks, roll) == risks
    ensures (forall i :: 0 <= i < |risks| ==> !roll(i)) ==> Triggered(risks, roll) == []
  {
    if |risks| > 0 {
      TriggeredExtremes(risks[..|risks| - 1], roll);
      assert risks[..|risks| - 1] + [risks[|risks| - 1]] == risks;
    }
  }

  class RiskManager {
    var activeRisks: seq<Risk>
    var currentTurn: int

    /** A new manager is at turn 1 with no active risks. */
    constructor ()
      ensures activeRisks == [] && currentTurn == 1
    {
      activeRisks := [];
      currentTurn := 1;
    }

    /** `AdvanceTurn`: the turn counter goes up by exactly one. */
    method AdvanceTurn()
      modifies this
      ensures currentTurn == old(currentTurn) + 1
      ensures activeRisks == old(activeRisks)
    {
      currentTurn := currentTurn + 1;
    }

    /** `AddRisk`: the risk is appended at the end of the active list. */
    method AddRisk(risk: Risk)
      modifies this
      ensures activeRisks == old(activeRisks) + [risk]
      ensures currentTurn == old(currentTurn)
    {
      activeRisks := activeRisks + [risk];
    }

    /**
     * `GetTriggeredRisks`: one roll per active risk in list order; the risks
     * whose roll succeeds, in order. Nothing in the manager changes.
     */
    method GetTriggeredRisks(roll: nat -> bool) returns (triggered: seq<Risk>)
      ensures triggered == Triggered(activeRisks, roll)
      ensures IsSubseq(triggered, activeRisks) && |triggered| <= |activeRisks|
    {
      triggered := [];
      var i := 0;
      while i < |activeRisks|
        invariant 0 <= i <= |activeRisks|
        invariant triggered == Triggered(activeRisks[..i], roll)
      {
        assert activeRisks[..i + 1][..i] == activeRisks[..i];
        if roll(i) {
          triggered := triggered + [activeRisks[i]];
        }
        i := i + 1;
      }
      assert activeRisks[..i] == activeRisks;
    }
  }
}
