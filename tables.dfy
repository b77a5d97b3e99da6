/**
 * The two row sets the builder reads (item.csv and media.csv) and the pandas
 * filters `df[df['field_id'] == field_id]` it applies to them. A row's label
 * is its position in the whole table, as with the default index `read_csv`
 * gives a DataFrame; filtering keeps the labels.
 */
module Tables {
  import opened Wrappers

  datatype ItemRow = ItemRow(fieldId: string, title: string)

  datatype MediaRow = MediaRow(fieldId: string, fieldType: string, fieldUrl: string)

  /** The pandas row label of a media row: its 0-based position in the table. */
  type RowLabel = nat

  /**
   * The label of the first item row with `fieldId` (`item_data.iloc[0]`), or
   * None when the filtered table is empty.
   */
  function FirstItem(items: seq<ItemRow>, fieldId: string): (r: Option<RowLabel>)
    ensures r.None? <==> forall i :: 0 <= i < |items| ==> items[i].fieldId != fieldId
    ensures r.Some? ==> r.value < |items| && items[r.value].fieldId == fieldId
    ensures r.Some? ==> forall j :: 0 <= j < r.value ==> items[j].fieldId != fieldId
    decreases |items|
  {
    if items == [] then None
    else if items[0].fieldId == fieldId then Some(0)
    else
      match FirstItem(items[1..], fieldId)
      case None => None
      case Some(i) => Some(i + 1)
  }

  predicate LabelsWithin(media: seq<MediaRow>, labels: seq<RowLabel>) {
    forall k :: 0 <= k < |labels| ==> labels[k] < |media|
  }

  /**
   * The labels of the media rows with `fieldId`, in table order: exactly the
   * matching positions, each once, ascending.
   */
  function MatchingLabels(media: seq<MediaRow>, fieldId: string): (labels: seq<RowLabel>)
    ensures LabelsWithin(media, labels)
    ensures forall k :: 0 <= k < |labels| ==> media[labels[k]].fieldId == fieldId
    ensures forall i :: 0 <= i < |media| && media[i].fieldId == fieldId ==> i in labels
    ensures forall k, l :: 0 <= k < l < |labels| ==> labels[k] < labels[l]
    decreases |media|
  {
    if media == [] then []
    else
      var n := |media| - 1;
      MatchingLabels(media[..n], fieldId) + (if media[n].fieldId == fieldId then [n] else [])
  }

  /** When every media row carries `fieldId`, the labels are 0, 1, ..., |media| - 1. */
  lemma {:induction false} AllRowsMatch(media: seq<MediaRow>, fieldId: string)
    requires forall i :: 0 <= i < |media| ==> media[i].fieldId == fieldId
    ensures MatchingLabels(media, fieldId) == seq(|media|, i => i)
    decreases |media|
  {
    if media != [] {
      var n := |media| - 1;
      AllRowsMatch(media[..n], fieldId);
      assert seq(|media|, i => i) == seq(n, i => i) + [n];
    }
  }

  /** A media table with no row for `fieldId` yields no labels, and conversely. */
  lemma NoLabelsIff(media: seq<MediaRow>, fieldId: string)
    ensures MatchingLabels(media, fieldId) == [] <==> forall i :: 0 <= i < |media| ==> media[i].fieldId != fieldId
  {
  }
}
