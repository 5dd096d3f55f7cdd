/**
 * The colour and icon mappings of the result screen
 * (src/components/ScanResults.tsx). The same classification colour switch
 * appears in EcoScanApp.tsx and ScanHistory.tsx; it is defined once here.
 */
module ScanResults {
  import opened Wrappers
  import opened JsSemantics
  import opened Types

  /** `getClassificationColor`: a badge class for any text, gray for unknown values. */
  function ClassificationColor(classification: string): (r: string)
    ensures r == "bg-gray-500" <==> ParseClassification(classification).None?
  {
    if classification == "reusable" then "bg-green-500"
    else if classification == "recyclable" then "bg-blue-500"
    else if classification == "non-recyclable" then "bg-red-500"
    else "bg-gray-500"
  }

  /** The three classifications get green, blue and red, so no two share a colour. */
  lemma ClassificationColorOf(c: Classification)
    ensures ClassificationColor(ClassificationName(c)) ==
      match c
      case Reusable => "bg-green-500"
      case Recyclable => "bg-blue-500"
      case NonRecyclable => "bg-red-500"
    ensures forall d :: ClassificationColor(ClassificationName(d)) == ClassificationColor(ClassificationName(c)) ==> d == c
  {
  }

  datatype Icon = Leaf | Recycle | Trash

  /** `getClassificationIcon`: an icon for each classification and none for other text. */
  function ClassificationIcon(classification: string): (r: Option<Icon>)
    ensures r.None? <==> ParseClassification(classification).None?
    ensures r.Some? ==> r.value == match ParseClassification(classification).value
      case Reusable => Leaf
      case Recyclable => Recycle
      case NonRecyclable => Trash
  {
    if classification == "reusable" then Some(Leaf)
    else if classification == "recyclable" then Some(Recycle)
    else if classification == "non-recyclable" then Some(Trash)
    else None
  }

  /** The `switch` of `getImpactColor`, applied to the lower-cased label. */
  function LowerImpactColor(lowered: string): string {
    if lowered == "low" then "text-green-600"
    else if lowered == "medium" then "text-yellow-600"
    else if lowered == "high" then "text-red-600"
    else if lowered == "very high" then "text-green-600"
    else if lowered == "never" then "text-red-600"
    else "text-gray-600"
  }

  /** `getImpactColor`: switches on `impact.toLowerCase()`. */
  function ImpactColor(impact: string): (r: string)
    ensures r == "text-green-600" <==> ToLowerCase(impact) in {"low", "very high"}
    ensures r == "text-red-600" <==> ToLowerCase(impact) in {"high", "never"}
    ensures r == "text-yellow-600" <==> ToLowerCase(impact) == "medium"
    ensures r == "text-gray-600" <==> ToLowerCase(impact) !in {"low", "medium", "high", "very high", "never"}
  {
    LowerImpactColor(ToLowerCase(impact))
  }

  /** The colour depends only on the lower-cased label. */
  lemma ImpactColorCaseInsensitive(impact: string)
    ensures ImpactColor(impact) == ImpactColor(ToLowerCase(impact))
  {
    ToLowerCaseIdempotent(impact);
  }

  /** Two labels that agree up to case get the same colour. */
  lemma ImpactColorIgnoresCase(a: string, b: string)
    requires ToLowerCase(a) == ToLowerCase(b)
    ensures ImpactColor(a) == ImpactColor(b)
  {
  }

  /**
   * "Very Low", which the service's prompt allows for all three ratings, has no
   * case of its own and is shown gray.
   */
  lemma VeryLowIsGray()
    ensures ImpactColor("Very Low") == "text-gray-600"
  {
    assert ToLowerCase("Very Low")[0] == 'v';
    assert ToLowerCase("Very Low")[6] == 'o';
  }
}
