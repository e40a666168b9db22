/**
 * The registry of all risk assets (RiskDisasterSystem/RiskLibrary.cs). The
 * singleton `Instance` and the destruction of duplicate components are not
 * part of this model; the resource folder's contents are a parameter.
 */
module RiskRegistry {
  import opened Risks
  import opened Seqs

  class RiskLibrary {
    var allRisks: seq<Risk>

    constructor (risks: seq<Risk>)
      ensures allRisks == risks
    {
      allRisks := risks;
    }

    /**
     * `Awake`: an empty list is filled with the risks found in the resource
     * folder; a list that already has entries is kept.
     */
    method Awake(resourceRisks: seq<Risk>)
      modifies this
      ensures old(allRisks) == [] ==> allRisks == resourceRisks
      ensures old(allRisks) != [] ==> allRisks == old(allRisks)
    {
      if |allRisks| == 0 {
        allRisks := allRisks + resourceRisks;
      }
    }

    /**
     * `RegisterRisk`: a risk not yet registered is appended at the end; a
     * registered one leaves the list unchanged.
     */
    method RegisterRisk(risk: Risk)
      modifies this
      ensures allRisks == AddIfAbsent(old(allRisks), risk)
      ensures risk in old(allRisks) ==> allRisks == old(allRisks)
      ensures risk !in old(allRisks) ==> allRisks == old(allRisks) + [risk]
    {
      if risk !in allRisks {
        allRisks := allRisks + [risk];
      }
    }
  }
}
