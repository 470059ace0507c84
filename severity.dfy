/** Health-status bands for an estimated PM2.5 concentration.

    After the interpolator produces a value, an if/elif chain turns it into one
    of four bands. Each band is closed at its upper threshold (50, 100, 200);
    everything above the last threshold is Unhealthy / Hazardous. */
module Severity {

  datatype Band = Good | Moderate | Poor | Hazardous

  /** Upper limits (inclusive) of the first three bands, in micrograms per cubic metre. */
  const GoodLimit: real := 50.0
  const ModerateLimit: real := 100.0
  const PoorLimit: real := 200.0

  /** Position of a band on the severity scale, 0 for Good up to 3 for Hazardous. */
  function Rank(b: Band): (n: nat)
    ensures n < 4
  {
    match b
    case Good => 0
    case Moderate => 1
    case Poor => 2
    case Hazardous => 3
  }

  /** The interval of values a band stands for, stated band by band. */
  predicate InBand(v: real, b: Band)
  {
    match b
    case Good => v <= GoodLimit
    case Moderate => GoodLimit < v <= ModerateLimit
    case Poor => ModerateLimit < v <= PoorLimit
    case Hazardous => PoorLimit < v
  }

  /** The status chosen for an estimate: the first threshold the value does
      not exceed decides the band. */
  function Classify(pm: real): (b: Band)
    ensures InBand(pm, b)
  {
    if pm <= GoodLimit then Good
    else if pm <= ModerateLimit then Moderate
    else if pm <= PoorLimit then Poor
    else Hazardous
  }

  /** The text shown for each band (without its colour marker). */
  function Label(b: Band): (s: string)
    ensures |s| > 0
  {
    match b
    case Good => "Good"
    case Moderate => "Moderate"
    case Poor => "Poor"
    case Hazardous => "Unhealthy / Hazardous"
  }

  /** Different bands are shown with different texts. */
  lemma LabelInjective(a: Band, b: Band)
    requires Label(a) == Label(b)
    ensures a == b
  {
  }

  /** The bands do not overlap: a value lies in at most one of them. */
  lemma BandsDisjoint(v: real, a: Band, b: Band)
    requires InBand(v, a) && InBand(v, b)
    ensures a == b
  {
  }

  /** Classification is total and exact: every value gets exactly one band,
      namely the one whose interval contains it. */
  lemma ClassifyExact(v: real, b: Band)
    ensures Classify(v) == b <==> InBand(v, b)
  {
  }

  /** The thresholds themselves belong to the lower band; anything above
      them belongs to a higher one. */
  lemma Boundaries(eps: real)
    requires eps > 0.0
    ensures Classify(GoodLimit) == Good && Classify(GoodLimit + eps) != Good
    ensures Classify(ModerateLimit) == Moderate && Rank(Classify(ModerateLimit + eps)) > Rank(Moderate)
    ensures Classify(PoorLimit) == Poor && Classify(PoorLimit + eps) == Hazardous
  {
  }

  /** A larger value never gets a milder band. */
  lemma Monotone(a: real, b: real)
    requires a <= b
    ensures Rank(Classify(a)) <= Rank(Classify(b))
  {
  }

  /** Conversely, a strictly more severe band means a strictly larger value. */
  lemma MoreSevereMeansLarger(a: real, b: real)
    requires Rank(Classify(a)) < Rank(Classify(b))
    ensures a < b
  {
  }
}
