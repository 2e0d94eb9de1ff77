/** The history list computations of App.tsx: building an item, saving it capped at 50, deleting by id. */
module History {
  import opened Types
  import Text
  import Seqs

  /** At most this many items are kept. */
  const HistoryLimit: nat := 50

  /** How many characters of the transcript the snippet keeps. */
  const SnippetLength: nat := 100

  /** The smaller of two counts. */
  function Min(a: nat, b: nat): (r: nat)
    ensures r <= a && r <= b && (r == a || r == b)
  {
    if a < b then a else b
  }

  /** `t.substring(0, 100) + '...'`. */
  function Snippet(t: string): (r: string)
    ensures |r| == Min(|t|, SnippetLength) + 3
    ensures r[..|r| - 3] <= t && r[|r| - 3..] == "..."
  {
    t[..Min(|t|, SnippetLength)] + "..."
  }

  /** The item recorded for a result produced from file `fileName` at time `now` (milliseconds): its id is `now` written in decimal. */
  function NewItem(res: PodcastResult, fileName: string, now: nat): (r: HistoryItem)
    ensures r.timestamp == now
    ensures (forall i :: 0 <= i < |r.id| ==> '0' <= r.id[i] <= '9') && Text.DecimalValue(r.id) == now
    ensures r.id != [] && (r.id[0] == '0' ==> now == 0)
    ensures r.fileName == fileName && r.personaId == res.selectedPersonaId
    ensures r.fullTranscript == res.transcript && r.transformedContent == res.transformedContent
    ensures r.transcriptSnippet == Snippet(res.transcript)
  {
    Text.DecimalRoundTrip(now);
    HistoryItem(
      id := Text.Decimal(now),
      timestamp := now,
      fileName := fileName,
      personaId := res.selectedPersonaId,
      transcriptSnippet := Snippet(res.transcript),
      fullTranscript := res.transcript,
      transformedContent := res.transformedContent)
  }

  /** `[item, ...history].slice(0, 50)`: the item first, then as many of the old items as fit. */
  function Save(history: seq<HistoryItem>, item: HistoryItem): (r: seq<HistoryItem>)
    ensures |r| == Min(|history| + 1, HistoryLimit)
    ensures r[0] == item && r[1..] <= history
  {
    ([item] + history)[..Min(|history| + 1, HistoryLimit)]
  }

  /** `history.filter(item => item.id !== id)`. */
  function Delete(history: seq<HistoryItem>, id: string): (r: seq<HistoryItem>)
    ensures |r| <= |history|
    ensures forall i :: 0 <= i < |r| ==> r[i] in history
  {
    Seqs.Filter(history, (item: HistoryItem) => item.id != id)
  }

  /**
   * Saving a result puts one new item in front whose fields are the result's (the
   * snippet being its first 100 characters and "..."), followed by the old items
   * that fit under the cap.
   */
  lemma SavePrependsResult(history: seq<HistoryItem>, res: PodcastResult, fileName: string, now: nat)
    ensures var r := Save(history, NewItem(res, fileName, now));
      && |r| == Min(|history| + 1, HistoryLimit)
      && r[0].id == Text.Decimal(now) && r[0].timestamp == now && r[0].fileName == fileName
      && r[0].personaId == res.selectedPersonaId
      && r[0].fullTranscript == res.transcript && r[0].transformedContent == res.transformedContent
      && r[0].transcriptSnippet == res.transcript[..Min(|res.transcript|, SnippetLength)] + "..."
      && r[1..] == history[..|r| - 1]
  {
  }

  /** A save never leaves more than 50 items, and it grows a short list by exactly one. */
  lemma SaveBounded(history: seq<HistoryItem>, item: HistoryItem)
    ensures |Save(history, item)| <= HistoryLimit
    ensures |history| < HistoryLimit ==> |Save(history, item)| == |history| + 1
  {
  }

  /** Below the cap nothing is lost: the new list is the item followed by the whole old list. */
  lemma SaveBelowCap(history: seq<HistoryItem>, item: HistoryItem)
    requires |history| < HistoryLimit
    ensures Save(history, item) == [item] + history
  {
  }

  /** At or above the cap, the 49 most recent old items stay, in order, and all older ones are evicted. */
  lemma SaveAtCap(history: seq<HistoryItem>, item: HistoryItem)
    requires |history| >= HistoryLimit
    ensures Save(history, item) == [item] + history[..HistoryLimit - 1]
  {
  }

  /** Deleting leaves no item with that id. */
  lemma DeleteRemovesId(history: seq<HistoryItem>, id: string)
    ensures forall i :: 0 <= i < |Delete(history, id)| ==> Delete(history, id)[i].id != id
  {
  }

  /** Deleting keeps every item with another id exactly as often as it occurred, and drops the rest. */
  lemma DeleteExactly(history: seq<HistoryItem>, id: string, x: HistoryItem)
    ensures multiset(Delete(history, id))[x] == if x.id != id then multiset(history)[x] else 0
  {
    Seqs.FilterCount(history, (item: HistoryItem) => item.id != id, x);
  }

  /** Deleting preserves the relative order of what remains: it distributes over concatenation. */
  lemma DeleteKeepsOrder(a: seq<HistoryItem>, b: seq<HistoryItem>, id: string)
    ensures Delete(a + b, id) == Delete(a, id) + Delete(b, id)
  {
    Seqs.FilterConcat(a, b, (item: HistoryItem) => item.id != id);
  }

  /** Deleting an id that no item has leaves the list as it was. */
  lemma DeleteAbsent(history: seq<HistoryItem>, id: string)
    requires forall i :: 0 <= i < |history| ==> history[i].id != id
    ensures Delete(history, id) == history
  {
    Seqs.FilterAllKept(history, (item: HistoryItem) => item.id != id);
  }

  /** Saving an item with a fresh id below the cap, then deleting that id, gives back the old list. */
  lemma DeleteUndoesSave(history: seq<HistoryItem>, item: HistoryItem)
    requires |history| < HistoryLimit
    requires forall i :: 0 <= i < |history| ==> history[i].id != item.id
    ensures Delete(Save(history, item), item.id) == history
  {
    SaveBelowCap(history, item);
    DeleteKeepsOrder([item], history, item.id);
    DeleteAbsent(history, item.id);
  }
}
