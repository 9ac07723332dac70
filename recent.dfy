/** Most-recently-used search history, shared by every tab and the search
    bar: a saved query moves to the front, its older copy is removed, and the
    list is cut to a fixed length. */
module Recent {
  import opened Seqs

  /** `[q, ...prev.filter((s) => s !== q)].slice(0, cap)` */
  function MoveToFront(prev: seq<string>, q: string, cap: nat): seq<string>
  {
    Take([q] + Without(prev, q), cap)
  }

  /** Saving `q` puts it first, keeps at most `cap` entries, introduces no
      duplicate, keeps only `q` and earlier entries, and keeps the earlier
      entries other than `q` in their order, up to the cap. */
  lemma MoveToFrontSpec(prev: seq<string>, q: string, cap: nat)
    requires cap > 0
    ensures var r := MoveToFront(prev, q, cap);
      && 0 < |r| <= cap
      && r[0] == q
      && (forall x :: x in r ==> x == q || x in prev)
      && r[1..] <= Without(prev, q)
      && (NoDup(prev) ==> NoDup(r))
  {
    var full := [q] + Without(prev, q);
    var r := MoveToFront(prev, q, cap);
    assert r <= full;
    assert full[1..] == Without(prev, q);
    if NoDup(prev) {
      WithoutNoDup(prev, q);
      ConsNoDup(q, Without(prev, q));
      assert NoDup(r) by {
        forall i, j | 0 <= i < j < |r| ensures r[i] != r[j] {
          assert r[i] == full[i] && r[j] == full[j];
        }
      }
    }
  }

  /** Saving several queries in turn, each moved to the front of the list
      the previous one left (before the list is cut). */
  function FrontAll(prev: seq<string>, queries: seq<string>): seq<string>
    decreases |queries|
  {
    if queries == [] then prev else FrontAll([queries[0]] + Without(prev, queries[0]), queries[1..])
  }

  /** The loop of the multi-query save: each query in turn moves to the
      front; the list is cut once at the end. */
  method SaveAll(prev: seq<string>, queries: seq<string>, cap: nat) returns (r: seq<string>)
    ensures r == Take(FrontAll(prev, queries), cap)
  {
    var updated := prev;
    for i := 0 to |queries|
      invariant FrontAll(updated, queries[i..]) == FrontAll(prev, queries)
    {
      assert queries[i..][1..] == queries[i + 1..];
      updated := [queries[i]] + Without(updated, queries[i]);
    }
    assert queries[|queries|..] == [];
    r := Take(updated, cap);
  }

  /** After saving a non-empty batch the last query is first, nothing is
      duplicated, every saved query and every earlier entry is present
      before the cut, and nothing else is. */
  lemma {:induction false} FrontAllSpec(prev: seq<string>, queries: seq<string>)
    requires NoDup(prev)
    ensures var r := FrontAll(prev, queries);
      && NoDup(r)
      && (queries != [] ==> r != [] && r[0] == queries[|queries| - 1])
      && (forall x :: x in r <==> x in prev || x in queries)
    decreases |queries|
  {
    if queries != [] {
      var q := queries[0];
      var next := [q] + Without(prev, q);
      WithoutNoDup(prev, q);
      ConsNoDup(q, Without(prev, q));
      FrontAllSpec(next, queries[1..]);
      assert queries == [q] + queries[1..];
      if |queries| == 1 {
        assert queries[1..] == [];
      } else {
        assert queries[1..][|queries[1..]| - 1] == queries[|queries| - 1];
      }
    }
  }
}
