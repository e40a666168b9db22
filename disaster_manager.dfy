/**
 * Disaster selection (RiskDisasterSystem/DisasterManager.cs). The tags of the
 * triggered risks are pooled; every disaster requiring at least one of them is
 * a candidate, in list order; each candidate in turn rolls its chance and the
 * first that passes is the disaster. The floating-point roll
 * `Random.value < baseChance` is an oracle: `chance(k)` is the outcome of the
 * k-th candidate's roll.
 */
module Disasters {
  import opened Wrappers
  import opened Risks
  import opened Seqs

  /** Every tag carried by some triggered risk. */
  function ActiveTags(triggered: seq<Risk>): set<string>
  {
    set i, j | 0 <= i < |triggered| && 0 <= j < |triggered[i].disasterTags|
      :: triggered[i].disasterTags[j]
  }

  /** The disaster requires at least one of the given tags. */
  predicate Matches(d: Disaster, tags: set<string>)
  {
    exists j :: 0 <= j < |d.requiredRiskTags| && d.requiredRiskTags[j] in tags
  }

  /** The candidate disasters, in list order. */
  function Possible(all: seq<Disaster>, tags: set<string>): (r: seq<Disaster>)
    ensures forall i :: 0 <= i < |r| ==> r[i] in all && Matches(r[i], tags)
    ensures forall i :: 0 <= i < |all| && Matches(all[i], tags) ==> all[i] in r
  {
    Filter(all, d => Matches(d, tags))
  }

  /** The first candidate at or after `from` whose roll passes. */
  function FirstPassing(cands: seq<Disaster>, chance: nat -> bool, from: nat): (r: Option<Disaster>)
    ensures r.None? <==> forall k :: from <= k < |cands| ==> !chance(k)
    ensures r.Some? ==> exists k :: (from <= k < |cands| && chance(k) && r.value == cands[k]
      && forall j :: from <= j < k ==> !chance(j))
    decreases |cands| - from
  {
    if from >= |cands| then None
    else if chance(from) then Some(cands[from])
    else FirstPassing(cands, chance, from + 1)
  }

  /** What `CalculateDisaster` returns for the given disasters, risks and rolls. */
  function PickDisaster(all: seq<Disaster>, triggered: seq<Risk>, chance: nat -> bool): Option<Disaster>
  {
    FirstPassing(Possible(all, ActiveTags(triggered)), chance, 0)
  }

  /**
   * A chosen disaster is one of the known disasters, has a non-empty tag list,
   * and requires a tag that some triggered risk carries.
   */
  lemma ChosenDisasterMatches(all: seq<Disaster>, triggered: seq<Risk>, chance: nat -> bool)
    ensures PickDisaster(all, triggered, chance).Some? ==>
      var d := PickDisaster(all, triggered, chance).value;
      d in all && |d.requiredRiskTags| > 0
      && exists i, j, k :: (0 <= i < |triggered| && 0 <= j < |triggered[i].disasterTags|
        && 0 <= k < |d.requiredRiskTags| && d.requiredRiskTags[k] == triggered[i].disasterTags[j])
  {
    var r := PickDisaster(all, triggered, chance);
    if r.Some? {
      var tags := ActiveTags(triggered);
      var cands := Possible(all, tags);
      var k :| 0 <= k < |cands| && r.value == cands[k];
      assert Matches(cands[k], tags);
      var t :| 0 <= t < |r.value.requiredRiskTags| && r.value.requiredRiskTags[t] in tags;
      var i, j :| 0 <= i < |triggered| && 0 <= j < |triggered[i].disasterTags|
        && triggered[i].disasterTags[j] == r.value.requiredRiskTags[t];
    }
  }

  /** Without any tag among the triggered risks (in particular with none triggered) there is no disaster. */
  lemma NoTagsNoDisaster(all: seq<Disaster>, triggered: seq<Risk>, chance: nat -> bool)
    requires forall i :: 0 <= i < |triggered| ==> triggered[i].disasterTags == []
    ensures PickDisaster(all, triggered, chance) == None
  {
    assert ActiveTags(triggered) == {};
  }

  /**
   * The candidates are exactly the matching disasters, in order: when every
   * roll passes, the first disaster in the list that matches is chosen.
   */
  lemma CertainChancePicksFirstMatch(all: seq<Disaster>, tags: set<string>, chance: nat -> bool)
    requires chance(0)
    ensures FirstPassing(Possible(all, tags), chance, 0).Some?
        <==> exists i :: 0 <= i < |all| && Matches(all[i], tags)
    ensures forall i :: (0 <= i < |all| && Matches(all[i], tags)
        && (forall j :: 0 <= j < i ==> !Matches(all[j], tags))
        ==> FirstPassing(Possible(all, tags), chance, 0) == Some(all[i]))
  {
    var cands := Possible(all, tags);
    if exists i :: 0 <= i < |all| && Matches(all[i], tags) {
      var i :| 0 <= i < |all| && Matches(all[i], tags);
      assert all[i] in cands;
    }
    forall i | 0 <= i < |all| && Matches(all[i], tags) && (forall j :: 0 <= j < i ==> !Matches(all[j], tags))
      ensures FirstPassing(cands, chance, 0) == Some(all[i])
    {
      FirstMatchLeads(all, tags, i);
    }
  }

  /** If all[i] is the first matching disaster, it heads the candidate list. */
  lemma {:induction false} FirstMatchLeads(all: seq<Disaster>, tags: set<string>, i: nat)
    requires i < |all| && Matches(all[i], tags)
    requires forall j :: 0 <= j < i ==> !Matches(all[j], tags)
    ensures |Possible(all, tags)| > 0 && Possible(all, tags)[0] == all[i]
    decreases |all|
  {
    var init := all[..|all| - 1];
    if i < |all| - 1 {
      FirstMatchLeads(init, tags, i);
    } else {
      NoMatchNoCandidates(init, tags);
    }
  }

  /** When no disaster matches there are no candidates. */
  lemma {:induction false} NoMatchNoCandidates(all: seq<Disaster>, tags: set<string>)
    requires forall i :: 0 <= i < |all| ==> !Matches(all[i], tags)
    ensures Possible(all, tags) == []
  {
    if |all| > 0 {
      NoMatchNoCandidates(all[..|all| - 1], tags);
    }
  }

  /** The single-disaster case: a disaster sharing a tag with a triggered risk, with a certain roll, is chosen. */
  lemma SharedTagTriggers(d: Disaster, risk: Risk, chance: nat -> bool)
    requires chance(0)
    requires exists j, k :: (0 <= j < |risk.disasterTags| && 0 <= k < |d.requiredRiskTags|
      && risk.disasterTags[j] == d.requiredRiskTags[k])
    ensures PickDisaster([d], [risk], chance) == Some(d)
  {
    var j, k :| 0 <= j < |risk.disasterTags| && 0 <= k < |d.requiredRiskTags|
      && risk.disasterTags[j] == d.requiredRiskTags[k];
    var tags := ActiveTags([risk]);
    assert [risk][0].disasterTags[j] in tags;
    assert Matches(d, tags);
    CertainChancePicksFirstMatch([d], tags, chance);
  }

  class DisasterManager {
    var allDisasters: seq<Disaster>

    constructor (disasters: seq<Disaster>)
      ensures allDisasters == disasters
    {
      allDisasters := disasters;
    }

    /**
     * `CalculateDisaster`: the first candidate, in list order, whose roll
     * passes; `None` (null) when no candidate passes. The manager is unchanged.
     */
    method CalculateDisaster(triggeredRisks: seq<Risk>, chance: nat -> bool) returns (r: Option<Disaster>)
      ensures r == PickDisaster(allDisasters, triggeredRisks, chance)
      ensures r.Some? ==> r.value in allDisasters && Matches(r.value, ActiveTags(triggeredRisks))
    {
      var activeTags := ActiveTags(triggeredRisks);
      var possible := Filter(allDisasters, d => Matches(d, activeTags));
      var k := 0;
      while k < |possible|
        invariant 0 <= k <= |possible|
        invariant FirstPassing(possible, chance, 0) == FirstPassing(possible, chance, k)
      {
        if chance(k) {
          return Some(possible[k]);
        }
        k := k + 1;
      }
      return None;
    }
  }
}
