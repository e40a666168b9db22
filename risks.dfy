/**
 * Risk and disaster assets. Both are Unity assets compared by reference in the
 * source; `handle` stands for the object's identity, so value equality of these
 * datatypes plays the part of reference equality. Probabilities, icons and
 * colours (floating point and rendering) are not part of this model.
 */
module Risks {

  /** A risk asset; a null tag array is represented by the empty sequence. */
  datatype Risk = Risk(
    handle: nat,
    riskName: string,
    description: string,
    category: string,
    severity: int,
    disasterTags: seq<string>)

  /** A disaster asset and the risk tags that can set it off. */
  datatype Disaster = Disaster(
    handle: nat,
    disasterName: string,
    requiredRiskTags: seq<string>)
}
