/** The two display lookups of the result panel: the confidence tier that colours
    the percentage, and the colour class of each disease label. */
module Presentation {
  import opened Wrappers

  /** The three confidence buckets, in increasing order. */
  datatype Tier = Low | Medium | High

  /** Position of a tier in the order Low < Medium < High. */
  function Rank(t: Tier): nat
  {
    match t
    case Low => 0
    case Medium => 1
    case High => 2
  }

  /** The comparison chain of `setConfidenceStyle`: a total map from a confidence
      to exactly one tier, with both boundaries belonging to the upper tier. */
  function ConfidenceTier(c: real): (t: Tier)
    ensures t == High <==> c >= 0.90
    ensures t == Medium <==> 0.75 <= c < 0.90
    ensures t == Low <==> c < 0.75
  {
    if c >= 0.90 then High
    else if c >= 0.75 then Medium
    else Low
  }

  /** A higher confidence never falls into a lower tier. */
  lemma TierMonotone(c1: real, c2: real)
    requires c1 <= c2
    ensures Rank(ConfidenceTier(c1)) <= Rank(ConfidenceTier(c2))
  {
  }

  /** The boundary values: 0.90 is High, 0.75 is Medium,
      and the values just below each boundary fall one tier lower. */
  lemma TierBoundaries()
    ensures ConfidenceTier(0.90) == High && ConfidenceTier(0.8999) == Medium
    ensures ConfidenceTier(0.75) == Medium && ConfidenceTier(0.7499) == Low
  {
  }

  /** The `confidenceStyles` record: one colour class per tier. */
  function TierClass(t: Tier): string
  {
    match t
    case High => "text-green-800"
    case Medium => "text-yellow-800"
    case Low => "text-red-800"
  }

  /** `setConfidenceStyle`: the colour class of a confidence. */
  function ConfidenceClass(c: real): string
  {
    TierClass(ConfidenceTier(c))
  }

  /** The colour class tells the tier apart: each of the three classes is
      returned for exactly the confidences of one tier. */
  lemma ConfidenceClassByRange(c: real)
    ensures ConfidenceClass(c) == "text-green-800" <==> c >= 0.90
    ensures ConfidenceClass(c) == "text-yellow-800" <==> 0.75 <= c < 0.90
    ensures ConfidenceClass(c) == "text-red-800" <==> c < 0.75
  {
  }

  /** The labels the style table knows. */
  const StyledLabels: set<string> := {"Healthy", "Early Blight", "Late Blight"}

  /** The `diseaseStyles` table. */
  const DiseaseStyles: map<string, string> :=
    map["Healthy" := "text-green-800",
        "Early Blight" := "text-yellow-800",
        "Late Blight" := "text-red-800"]

  /** The lookup the result panel performs on the predicted label: defined for
      exactly the three known labels, `None` otherwise, never a failure. The
      template literal renders `None` as the class text "undefined", which
      names no style. */
  function DiseaseClass(name: string): (cls: Option<string>)
    ensures cls.Some? <==> name in StyledLabels
    ensures name == "Healthy" ==> cls == Some("text-green-800")
    ensures name == "Early Blight" ==> cls == Some("text-yellow-800")
    ensures name == "Late Blight" ==> cls == Some("text-red-800")
  {
    if name in DiseaseStyles then Some(DiseaseStyles[name]) else None
  }

  /** The three known labels receive three different styles. */
  lemma DiseaseClassesDistinct(a: string, b: string)
    requires a in StyledLabels && b in StyledLabels && a != b
    ensures DiseaseClass(a) != DiseaseClass(b)
  {
  }
}
