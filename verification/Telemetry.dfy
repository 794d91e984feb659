/** Validity of one telemetry observation at a controlled scenario time, in milliseconds. */
module Telemetry {
  import opened Configuration
  import opened Topology

  const MAXIMUM_TELEMETRY_AGE_MS := 60_000

  datatype Point = Point(value: SwitchState, quality: Quality, updated: int, revision: nat)
  datatype Validity = Validity(
    ageMs: int, freshness: Freshness, quality: Quality,
    qualityValid: bool, timestampValid: bool, overallValid: bool)

  function FreshnessAt(p: Point, time: int): Freshness {
    var age := time - p.updated;
    if age < 0 then InvalidTimestamp
    else if age <= MAXIMUM_TELEMETRY_AGE_MS then Fresh
    else Stale
  }

  function Classify(p: Point, time: int): Validity {
    var freshness := FreshnessAt(p, time);
    Validity(time - p.updated, freshness, p.quality,
             p.quality == Good, freshness != InvalidTimestamp, p.quality == Good && freshness == Fresh)
  }

  /** Every field of the classification: evidence is fresh from its timestamp to one minute after it. */
  lemma ClassifyMeans(p: Point, time: int)
    ensures var v := Classify(p, time);
            && v.ageMs == time - p.updated && v.quality == p.quality
            && (v.qualityValid <==> p.quality == Good) && (v.timestampValid <==> p.updated <= time)
            && (v.freshness == Fresh <==> p.updated <= time <= p.updated + 60_000)
            && (v.freshness == Stale <==> time > p.updated + 60_000)
            && (v.freshness == InvalidTimestamp <==> time < p.updated)
            && (v.overallValid <==> v.qualityValid && v.freshness == Fresh)
  {
  }

  /** Good evidence from its timestamp to one minute after it, both ends included. */
  predicate Trustworthy(p: Point, time: int) { p.quality == Good && p.updated <= time <= p.updated + 60_000 }

  /** The classification is valid exactly for trustworthy evidence. */
  lemma TrustworthyMeans(p: Point, time: int)
    ensures Classify(p, time).overallValid <==> Trustworthy(p, time)
  {
  }

  /** Waiting never makes evidence usable: valid later means valid at any time since its timestamp. */
  lemma ValidEarlier(p: Point, earlier: int, later: int)
    requires p.updated <= earlier <= later && Classify(p, later).overallValid
    ensures Classify(p, earlier).overallValid
  {
  }
}
