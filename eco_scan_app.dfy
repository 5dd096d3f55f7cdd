/**
 * The main screen (src/components/EcoScanApp.tsx): the mock analyser that picks
 * one of two canned results, the screen's state and its capture and selection
 * handlers, and the file name of the downloaded report.
 */
module EcoScanApp {
  import opened Wrappers
  import opened JsSemantics
  import opened Types

  // ---------------------------------------------------------------------------
  // The mock analyser

  /** A value of `Math.random()`. */
  type Draw = r: real | 0.0 <= r < 1.0

  const CatalogSize: nat := 2

  /** `Math.floor(Math.random() * mockResults.length)`: the lower half picks entry 0. */
  function CatalogIndex(draw: Draw): (k: nat)
    ensures k < CatalogSize
    ensures k == 0 <==> draw < 0.5
  {
    (draw * CatalogSize as real).Floor
  }

  // The fixed text of the two canned results.
  const BottleName: string := "Plastic Water Bottle"
  const BottleMaterials: seq<string> := ["PET Plastic", "Polypropylene Cap"]
  const BottleImpact := EnvironmentalImpact("Medium", "High", "Low")
  const BottleDisposalTips: seq<string> :=
    ["Remove cap and label before recycling",
     "Rinse bottle to remove residue",
     "Check local recycling guidelines"]
  const BottleReuseSuggestions: seq<string> :=
    ["Plant pot for seedlings",
     "Storage container for small items",
     "DIY bird feeder"]
  const BottleFacts: seq<string> :=
    ["PET bottles can be recycled into clothing fibers",
     "One bottle takes 450 years to decompose naturally",
     "Recycling one bottle saves energy equivalent to powering a 60W bulb for 6 hours"]

  const JarName: string := "Glass Jar"
  const JarMaterials: seq<string> := ["Soda-lime Glass", "Metal Lid"]
  const JarImpact := EnvironmentalImpact("Low", "Very High", "Never")
  const JarDisposalTips: seq<string> :=
    ["Remove labels and adhesive",
     "Separate metal lid for recycling",
     "Clean thoroughly before disposal"]
  const JarReuseSuggestions: seq<string> :=
    ["Food storage container",
     "Candle holder",
     "Organize small items like screws or buttons"]
  const JarFacts: seq<string> :=
    ["Glass can be recycled infinitely without quality loss",
     "Recycled glass uses 40% less energy than new glass",
     "Glass containers preserve food quality better than plastic"]

  /** The two canned results, stamped with the image, the id and the time. */
  function MockResults(imageData: string, id: string, timestamp: string): (rs: seq<ScanResult>)
    ensures |rs| == CatalogSize
  {
    [ ScanResult(id, imageData, BottleName, Recyclable, Finite(94.0), BottleMaterials, BottleImpact,
        BottleDisposalTips, BottleReuseSuggestions, BottleFacts, timestamp),
      ScanResult(id, imageData, JarName, Reusable, Finite(98.0), JarMaterials, JarImpact,
        JarDisposalTips, JarReuseSuggestions, JarFacts, timestamp) ]
  }

  /** `analyzeImage`: one entry of the catalog, chosen by the random draw. */
  function AnalyzeImage(imageData: string, draw: Draw, id: string, timestamp: string): (r: ScanResult)
    ensures r in MockResults(imageData, id, timestamp)
    ensures r.image == imageData && r.id == id && r.timestamp == timestamp
  {
    MockResults(imageData, id, timestamp)[CatalogIndex(draw)]
  }

  /**
   * Whatever is drawn, the result is the plastic bottle (recyclable, 94) or the
   * glass jar (reusable, 98), and it satisfies the record's invariants.
   */
  lemma AnalyzeImageIsCatalogEntry(imageData: string, draw: Draw, id: string, timestamp: string)
    ensures var r := AnalyzeImage(imageData, draw, id, timestamp);
      (r.objectName == "Plastic Water Bottle" && r.classification == Recyclable && r.confidence == Finite(94.0)) ||
      (r.objectName == "Glass Jar" && r.classification == Reusable && r.confidence == Finite(98.0))
    ensures WellFormed(AnalyzeImage(imageData, draw, id, timestamp))
  {
  }

  // ---------------------------------------------------------------------------
  // The report's file name

  /** `replace(/\s+/g, '-')`: each maximal run of white space becomes one '-'. */
  function Slug(s: string): (r: string)
    decreases |s|
    ensures |r| <= |s|
    ensures NoWhiteSpace(r)
    ensures NoWhiteSpace(s) ==> r == s
  {
    if s == [] then []
    else if IsWhiteSpace(s[0]) then "-" + Slug(TrimStart(s))
    else [s[0]] + Slug(s[1..])
  }

  /** Every character of the slug is a '-' or a character of the text. */
  lemma {:induction false} SlugDrawsFromText(s: string)
    ensures forall c :: c in Slug(s) ==> c == '-' || c in s
    decreases |s|
  {
    if s == [] {
    } else if IsWhiteSpace(s[0]) {
      var t := TrimStart(s);
      SlugDrawsFromText(t);
      forall c | c in t
        ensures c in s
      {
        var j :| 0 <= j < |t| && t[j] == c;
        assert s[|s| - |t| + j] == c;
      }
    } else {
      SlugDrawsFromText(s[1..]);
      forall c | c in s[1..]
        ensures c in s
      {
        var j :| 0 <= j < |s[1..]| && s[1..][j] == c;
        assert s[1 + j] == c;
      }
    }
  }

  /** The slug of a lower-cased text has no capital letters. */
  lemma LowerSlugHasNoCapitals(name: string)
    ensures forall k :: 0 <= k < |Slug(ToLowerCase(name))| ==> !('A' <= Slug(ToLowerCase(name))[k] <= 'Z')
  {
    var lower := ToLowerCase(name);
    var slug := Slug(lower);
    SlugDrawsFromText(lower);
    forall k | 0 <= k < |slug|
      ensures !('A' <= slug[k] <= 'Z')
    {
      var c := slug[k];
      assert c in slug;
      if c != '-' {
        var j :| 0 <= j < |lower| && lower[j] == c;
        assert c == LowerChar(name[j]);
      }
    }
  }

  /** Regrouping the pieces of a slug around one '-'. */
  lemma Regroup(h: string, x: string, y: string)
    ensures h + (x + "-" + y) == h + x + "-" + y
  {
  }

  /** A non-space first character is copied through. */
  lemma SlugKeepsHead(s: string)
    requires s != [] && !IsWhiteSpace(s[0])
    ensures Slug(s) == [s[0]] + Slug(s[1..])
  {
  }

  /** A leading run of white space becomes one '-', whatever follows. */
  lemma SlugCollapsesHead(a: string, x: string)
    requires a != [] && IsWhiteSpace(a[0])
    ensures Slug(a) == "-" + Slug(TrimStart(a))
    ensures Slug(a + x) == "-" + Slug(TrimStart(a + x))
  {
    assert (a + x)[0] == a[0];
  }

  /** Concatenation is associative (stated once so the proofs below stay small). */
  lemma ConcatAssoc(x: string, y: string, z: string)
    ensures x + y + z == x + (y + z)
  {
  }

  /** Dropping a run of white space before a non-space leaves the rest. */
  lemma {:induction false} TrimStartOfRun(w: string, b: string)
    requires forall k :: 0 <= k < |w| ==> IsWhiteSpace(w[k])
    requires b == [] || !IsWhiteSpace(b[0])
    ensures TrimStart(w + b) == b
  {
    if w != [] {
      assert (w + b)[1..] == w[1..] + b;
      TrimStartOfRun(w[1..], b);
    } else {
      assert w + b == b;
    }
  }

  /** Leading white space is dropped the same way whatever follows the last non-space. */
  lemma {:induction false} TrimStartPrefix(a: string, x: string)
    requires a != [] && !IsWhiteSpace(a[|a| - 1])
    ensures TrimStart(a + x) == TrimStart(a) + x
  {
    if IsWhiteSpace(a[0]) {
      assert (a + x)[1..] == a[1..] + x;
      TrimStartPrefix(a[1..], x);
    }
  }

  /** Dropping leading white space from text that ends in a non-space keeps that last character. */
  lemma {:induction false} TrimStartKeepsLast(a: string)
    requires a != [] && !IsWhiteSpace(a[|a| - 1])
    ensures TrimStart(a) != [] && TrimStart(a)[|TrimStart(a)| - 1] == a[|a| - 1]
    ensures IsWhiteSpace(a[0]) ==> |TrimStart(a)| < |a|
  {
    if IsWhiteSpace(a[0]) {
      TrimStartKeepsLast(a[1..]);
    }
  }

  /**
   * One run of white space between two non-space neighbours becomes a single
   * '-', and the text on either side is slugged on its own.
   */
  lemma {:induction false} SlugCollapsesRun(a: string, w: string, b: string)
    requires a == [] || !IsWhiteSpace(a[|a| - 1])
    requires |w| > 0 && forall k :: 0 <= k < |w| ==> IsWhiteSpace(w[k])
    requires b == [] || !IsWhiteSpace(b[0])
    ensures Slug(a + w + b) == Slug(a) + "-" + Slug(b)
    decreases |a|, 1
  {
    if a == [] {
      assert a + w + b == w + b;
      TrimStartOfRun(w, b);
    } else if !IsWhiteSpace(a[0]) {
      SlugCollapsesRunAfterHead(a, w, b);
    } else {
      SlugCollapsesRunAfterLeadingRun(a, w, b);
    }
  }

  /** The case of `SlugCollapsesRun` where the text starts with a non-space. */
  lemma {:induction false} SlugCollapsesRunAfterHead(a: string, w: string, b: string)
    requires a != [] && !IsWhiteSpace(a[0]) && !IsWhiteSpace(a[|a| - 1])
    requires |w| > 0 && forall k :: 0 <= k < |w| ==> IsWhiteSpace(w[k])
    requires b == [] || !IsWhiteSpace(b[0])
    ensures Slug(a + w + b) == Slug(a) + "-" + Slug(b)
    decreases |a|, 0
  {
    var s, tail := a + w + b, a[1..];
    assert s[0] == a[0] && s[1..] == tail + w + b;
    assert tail == [] || tail[|tail| - 1] == a[|a| - 1];
    SlugCollapsesRun(tail, w, b);
    SlugKeepsHead(s);
    SlugKeepsHead(a);
    Regroup([a[0]], Slug(tail), Slug(b));
    assert Slug(s) == [a[0]] + Slug(tail + w + b);
    assert Slug(s) == [a[0]] + (Slug(tail) + "-" + Slug(b));
    assert Slug(a) == [a[0]] + Slug(tail);
    assert Slug(s) == Slug(a) + "-" + Slug(b);
  }

  /** The case of `SlugCollapsesRun` where the text starts with white space. */
  lemma {:induction false} SlugCollapsesRunAfterLeadingRun(a: string, w: string, b: string)
    requires a != [] && IsWhiteSpace(a[0]) && !IsWhiteSpace(a[|a| - 1])
    requires |w| > 0 && forall k :: 0 <= k < |w| ==> IsWhiteSpace(w[k])
    requires b == [] || !IsWhiteSpace(b[0])
    ensures Slug(a + w + b) == Slug(a) + "-" + Slug(b)
    decreases |a|, 0
  {
    var s, rest := a + w + b, TrimStart(a);
    TrimStartKeepsLast(a);
    TrimStartPrefix(a, w + b);
    ConcatAssoc(a, w, b);
    ConcatAssoc(rest, w, b);
    SlugCollapsesRun(rest, w, b);
    SlugCollapsesHead(a, w + b);
    assert Slug(s) == "-" + Slug(rest + w + b);
    assert Slug(s) == "-" + (Slug(rest) + "-" + Slug(b));
    assert Slug(a) == "-" + Slug(rest);
    Regroup("-", Slug(rest), Slug(b));
    assert Slug(s) == Slug(a) + "-" + Slug(b);
  }

  /** `ecoscan-${objectName.toLowerCase().replace(/\s+/g, '-')}.json`. */
  function DownloadFileName(objectName: string): (r: string)
    ensures |r| >= 13 && r[..8] == "ecoscan-" && r[|r| - 5..] == ".json"
    ensures r[8..|r| - 5] == Slug(ToLowerCase(objectName))
    ensures NoWhiteSpace(r[8..|r| - 5])
    ensures forall k :: 8 <= k < |r| - 5 ==> !('A' <= r[k] <= 'Z')
  {
    var middle := Slug(ToLowerCase(objectName));
    LowerSlugHasNoCapitals(objectName);
    var r := "ecoscan-" + middle + ".json";
    assert r[8..|r| - 5] == middle;
    assert forall k :: 8 <= k < |r| - 5 ==> r[k] == middle[k - 8];
    r
  }

  // ---------------------------------------------------------------------------
  // The screen's state

  datatype Tab = ScanTab | ResultsTab | HistoryTab | SearchTab

  /**
   * How the awaited `analyzeImage` call ends: it resolves (with the random draw
   * and the clock readings it used) or it throws.
   */
  datatype AnalysisOutcome = Resolved(draw: Draw, id: string, timestamp: string) | Rejected

  class AppState {
    var currentImage: Option<string>
    var scanResult: Option<ScanResult>
    var isScanning: bool
    var scanHistory: seq<ScanResult>
    var activeTab: Tab

    /**
     * Every result in the history is well formed, and the result on display is
     * one of them.
     */
    ghost predicate Valid()
      reads this
    {
      (forall r :: r in scanHistory ==> WellFormed(r)) &&
      (scanResult.Some? ==> scanResult.value in scanHistory)
    }

    constructor ()
      ensures Valid()
      ensures currentImage == None && scanResult == None && !isScanning
      ensures scanHistory == [] && activeTab == ScanTab
    {
      currentImage, scanResult, isScanning := None, None, false;
      scanHistory, activeTab := [], ScanTab;
    }

    /** The part of `handleImageCapture` before the `await`. */
    method BeginCapture(imageData: string)
      requires Valid()
      modifies this
      ensures Valid()
      ensures currentImage == Some(imageData) && isScanning
      ensures scanResult == old(scanResult) && scanHistory == old(scanHistory) && activeTab == old(activeTab)
    {
      currentImage := Some(imageData);
      isScanning := true;
    }

    /**
     * The part after the `await`: on success the result is shown and put at the
     * front of the history; on failure both stay as they were. Either way the
     * scanning flag is cleared.
     */
    method FinishCapture(imageData: string, outcome: AnalysisOutcome)
      requires Valid()
      modifies this
      ensures Valid()
      ensures !isScanning
      ensures outcome.Resolved? ==>
        var r := AnalyzeImage(imageData, outcome.draw, outcome.id, outcome.timestamp);
        scanResult == Some(r) && scanHistory == [r] + old(scanHistory)
      ensures outcome.Rejected? ==> scanResult == old(scanResult) && scanHistory == old(scanHistory)
      ensures currentImage == old(currentImage) && activeTab == old(activeTab)
    {
      match outcome {
        case Resolved(draw, id, timestamp) =>
          var result := AnalyzeImage(imageData, draw, id, timestamp);
          AnalyzeImageIsCatalogEntry(imageData, draw, id, timestamp);
          scanResult := Some(result);
          scanHistory := [result] + scanHistory;
        case Rejected =>
      }
      isScanning := false;
    }

    /** `handleImageCapture`. */
    method HandleImageCapture(imageData: string, outcome: AnalysisOutcome)
      requires Valid()
      modifies this
      ensures Valid()
      ensures currentImage == Some(imageData) && !isScanning && activeTab == old(activeTab)
      ensures outcome.Resolved? ==>
        var r := AnalyzeImage(imageData, outcome.draw, outcome.id, outcome.timestamp);
        scanResult == Some(r) && scanHistory == [r] + old(scanHistory)
      ensures outcome.Resolved? ==>
        |scanHistory| == |old(scanHistory)| + 1 && scanHistory[0] == scanResult.value &&
        scanHistory[1..] == old(scanHistory)
      ensures outcome.Rejected? ==> scanResult == old(scanResult) && scanHistory == old(scanHistory)
    {
      BeginCapture(imageData);
      FinishCapture(imageData, outcome);
    }

    /**
     * `onSelectResult` from the history list, whose cards only ever pass a
     * result of the history: show it on the results tab.
     */
    method SelectResult(result: ScanResult)
      requires Valid() && result in scanHistory
      modifies this
      ensures Valid()
      ensures scanResult == Some(result) && activeTab == ResultsTab
      ensures scanHistory == old(scanHistory) && currentImage == old(currentImage) && isScanning == old(isScanning)
    {
      scanResult := Some(result);
      activeTab := ResultsTab;
    }

    /** `onValueChange={setActiveTab}`. */
    method SetActiveTab(tab: Tab)
      requires Valid()
      modifies this
      ensures Valid() && activeTab == tab
      ensures scanResult == old(scanResult) && scanHistory == old(scanHistory)
      ensures currentImage == old(currentImage) && isScanning == old(isScanning)
    {
      activeTab := tab;
    }
  }
}
