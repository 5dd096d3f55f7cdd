/**
 * The history screen (src/components/ScanHistory.tsx) as a function from the
 * history list to what it shows: an empty state, or a header count and one
 * entry per result in history order.
 */
module ScanHistory {
  import opened Wrappers
  import opened Types
  import opened ScanResults

  /**
   * One card: the result it shows and hands to `onSelectResult` when its button
   * is clicked, the badge colour, the first materials, and the "+N more" badge.
   */
  datatype EntryView = EntryView(
    result: ScanResult,
    badgeColor: string,
    materialPreview: seq<string>,
    moreMaterials: Option<nat>)

  datatype HistoryView = EmptyState | Listing(count: nat, entries: seq<EntryView>)

  const PreviewSize: nat := 3

  /**
   * `materials.slice(0, 3)` and, when there are more than three, the number
   * left out: together they account for every material.
   */
  function MaterialPreview(materials: seq<string>): (r: (seq<string>, Option<nat>))
    ensures |r.0| <= PreviewSize && r.0 <= materials
    ensures |materials| <= PreviewSize ==> r.0 == materials
    ensures |materials| > PreviewSize ==> r.0 == materials[..PreviewSize] && r.1 == Some(|materials| - PreviewSize)
    ensures r.1.Some? <==> |materials| > PreviewSize
    ensures |r.0| + r.1.GetOr(0) == |materials|
  {
    if |materials| > PreviewSize then (materials[..PreviewSize], Some(|materials| - PreviewSize))
    else (materials, None)
  }

  function Entry(result: ScanResult): EntryView {
    var preview := MaterialPreview(result.materials);
    EntryView(result, ClassificationColor(ClassificationName(result.classification)), preview.0, preview.1)
  }

  /** `history.map(...)`. */
  function Entries(history: seq<ScanResult>): seq<EntryView> {
    if history == [] then [] else [Entry(history[0])] + Entries(history[1..])
  }

  /** The listing has one card per result, in history order. */
  lemma {:induction false} EntriesFollowHistory(history: seq<ScanResult>)
    ensures |Entries(history)| == |history|
    ensures forall k :: 0 <= k < |history| ==> Entries(history)[k] == Entry(history[k])
  {
    if history != [] {
      EntriesFollowHistory(history[1..]);
    }
  }

  function Render(history: seq<ScanResult>): HistoryView {
    if |history| == 0 then EmptyState else Listing(|history|, Entries(history))
  }

  /**
   * An empty history shows only the empty state; otherwise the header counts
   * the results, and card k shows result k, previews its first materials,
   * counts the rest in its "+N more" badge, colours its badge by its
   * classification and hands exactly that result to `onSelectResult`.
   */
  lemma RenderShowsHistory(history: seq<ScanResult>)
    ensures Render(history).EmptyState? <==> history == []
    ensures Render(history).Listing? ==>
      Render(history).count == |history| && |Render(history).entries| == |history|
    ensures Render(history).Listing? ==> forall k :: 0 <= k < |history| ==>
      var e := Render(history).entries[k];
      e.result == history[k] &&
      e.materialPreview == MaterialPreview(history[k].materials).0 &&
      e.moreMaterials == MaterialPreview(history[k].materials).1 &&
      (e.moreMaterials.Some? <==> |history[k].materials| > PreviewSize) &&
      e.badgeColor == ClassificationColor(ClassificationName(history[k].classification)) &&
      e.badgeColor != "bg-gray-500"
  {
    EntriesFollowHistory(history);
  }
}
