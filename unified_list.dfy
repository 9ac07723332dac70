/** The combined list of every collected item (components/unified-list.tsx):
    items are deduplicated by link, counted per platform, and flagged when
    their content or title contains a negative keyword. */
module UnifiedList {
  import opened Wrappers
  import opened Text
  import opened Seqs
  import opened Types
  import opened KeywordMatch

  /** `dedupedItems` before its date sort: first item per link. */
  function Deduped(items: seq<MonitoringItem>): seq<MonitoringItem>
  {
    DedupBy(items, ItemLink)
  }

  /** The deduplicated links are pairwise distinct, every link of the input
      is still present, and the rows are input rows in input order. */
  lemma DedupedSpec(items: seq<MonitoringItem>)
    ensures DistinctKeys(Deduped(items), ItemLink)
    ensures Keys(Deduped(items), ItemLink) == Keys(items, ItemLink)
    ensures IsSubseq(Deduped(items), items)
  {
    DedupDistinct(items, ItemLink, {});
    DedupKeys(items, ItemLink, {});
  }

  function FromSource(s: PlatformSource): MonitoringItem -> bool
  {
    (item: MonitoringItem) => item.source == s
  }

  /** The `counts` record. */
  datatype Counts = Counts(youtube: nat, naver: nat, google: nat)

  /** The counting loop: `map[item.source]++` for every item. */
  method CountPlatforms(items: seq<MonitoringItem>) returns (c: Counts)
    ensures c.youtube == Count(items, FromSource(YouTube))
    ensures c.naver == Count(items, FromSource(Naver))
    ensures c.google == Count(items, FromSource(Google))
  {
    c := Counts(0, 0, 0);
    for i := 0 to |items|
      invariant c.youtube == Count(items[..i], FromSource(YouTube))
      invariant c.naver == Count(items[..i], FromSource(Naver))
      invariant c.google == Count(items[..i], FromSource(Google))
    {
      assert items[..i + 1] == items[..i] + [items[i]];
      FilterAppend(items[..i], [items[i]], FromSource(YouTube));
      FilterAppend(items[..i], [items[i]], FromSource(Naver));
      FilterAppend(items[..i], [items[i]], FromSource(Google));
      match items[i].source {
        case YouTube => c := c.(youtube := c.youtube + 1);
        case Naver => c := c.(naver := c.naver + 1);
        case Google => c := c.(google := c.google + 1);
      }
    }
    assert items[..|items|] == items;
  }

  /** Every item belongs to exactly one platform, so the three counts add
      up to the number of items. */
  lemma {:induction false} CountsSum(items: seq<MonitoringItem>)
    ensures Count(items, FromSource(YouTube)) + Count(items, FromSource(Naver))
      + Count(items, FromSource(Google)) == |items|
    decreases |items|
  {
    if items != [] {
      CountsSum(items[1..]);
      assert items == [items[0]] + items[1..];
      FilterAppend([items[0]], items[1..], FromSource(YouTube));
      FilterAppend([items[0]], items[1..], FromSource(Naver));
      FilterAppend([items[0]], items[1..], FromSource(Google));
    }
  }

  /** The predicate of `flaggedCount`: a negative keyword in the content or
      in the title. */
  predicate Flagged(item: MonitoringItem, keywords: seq<string>)
  {
    FirstMatch(item.content, keywords).Some? || FirstMatch(item.title, keywords).Some?
  }

  function FlaggedCount(items: seq<MonitoringItem>, keywords: seq<string>): nat
  {
    Count(items, (item: MonitoringItem) => Flagged(item, keywords))
  }

  /** A row's `matchedKw`: the content match `||` the title match, so a
      content match on the empty keyword falls through to the title. */
  function RowMatch(item: MonitoringItem, keywords: seq<string>): Option<string>
  {
    var c := FirstMatch(item.content, keywords);
    if c.Some? && c.value != "" then c else FirstMatch(item.title, keywords)
  }

  /** A row is highlighted exactly when the item is counted as flagged, even
      though `||` skips an empty-keyword match in the content; a non-empty
      keyword found in the content is the one shown. */
  lemma RowMatchSpec(item: MonitoringItem, keywords: seq<string>)
    ensures RowMatch(item, keywords).Some? <==> Flagged(item, keywords)
    ensures var c := FirstMatch(item.content, keywords);
      c.Some? && c.value != "" ==> RowMatch(item, keywords) == c
  {
    var c := FirstMatch(item.content, keywords);
    if c == Some("") {
      FirstMatchSpec(item.content, keywords);
      var i :| 0 <= i < |keywords| && keywords[i] == "";
      ContainsEmpty(Lower(item.title));
      assert Lower(keywords[i]) == "";
      FirstMatchSpec(item.title, keywords);
    }
  }

  /** The flagged count never exceeds the number of rows. */
  lemma FlaggedCountBound(items: seq<MonitoringItem>, keywords: seq<string>)
    ensures FlaggedCount(items, keywords) <= |items|
    ensures (forall i :: 0 <= i < |items| ==> !Flagged(items[i], keywords)) ==> FlaggedCount(items, keywords) == 0
  {
    if forall i :: 0 <= i < |items| ==> !Flagged(items[i], keywords) {
      FilterNone(items, (item: MonitoringItem) => Flagged(item, keywords));
    }
  }
}
