/** The ScanResult record shared by the screens (src/components/types.ts). */
module Types {
  import opened Wrappers
  import opened JsSemantics

  /** The three waste-handling categories; no fourth value is representable. */
  datatype Classification = Reusable | Recyclable | NonRecyclable

  /** Three free-form qualitative ratings; nothing restricts their text. */
  datatype EnvironmentalImpact = EnvironmentalImpact(
    carbonFootprint: string,
    recyclability: string,
    biodegradability: string)

  /**
   * One classification outcome for one image. `confidence` is a plain number:
   * any bound on it comes from whoever builds the record.
   */
  datatype ScanResult = ScanResult(
    id: string,
    image: string,
    objectName: string,
    classification: Classification,
    confidence: Number,
    materials: seq<string>,
    environmentalImpact: EnvironmentalImpact,
    disposalTips: seq<string>,
    reuseSuggestions: seq<string>,
    educationalFacts: seq<string>,
    timestamp: string)

  /** The wire spelling of a classification. */
  function ClassificationName(c: Classification): string {
    match c
    case Reusable => "reusable"
    case Recyclable => "recyclable"
    case NonRecyclable => "non-recyclable"
  }

  /** Reads one of the three spellings back; any other text is not a classification. */
  function ParseClassification(s: string): (r: Option<Classification>)
    ensures r.Some? <==> s in {"reusable", "recyclable", "non-recyclable"}
    ensures r.Some? ==> ClassificationName(r.value) == s
  {
    if s == "reusable" then Some(Reusable)
    else if s == "recyclable" then Some(Recyclable)
    else if s == "non-recyclable" then Some(NonRecyclable)
    else None
  }

  /** Every classification's spelling reads back as itself, so the spellings are distinct. */
  lemma ClassificationNameRoundTrip(c: Classification)
    ensures ParseClassification(ClassificationName(c)) == Some(c)
  {
  }

  /**
   * What the service promises of its results: a non-empty object name and a
   * confidence that is a number in [0, 100].
   */
  predicate WellFormed(r: ScanResult) {
    r.objectName != "" && r.confidence.Finite? && 0.0 <= r.confidence.value <= 100.0
  }
}
