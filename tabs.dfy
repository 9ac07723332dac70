/** Pieces of state handling that the search tabs share, each written the
    same way in every tab that uses it: splitting the comma-separated input
    into keywords, the per-keyword "show more" counters, the visible slice of
    a keyword's results, and the total over all keywords
    (components/google-tab.tsx, components/naver-tab.tsx,
    components/cafe-tab.tsx, components/unified-scan.tsx). */
module Tabs {
  import opened Wrappers
  import opened Text
  import opened Seqs
  import opened OrderedMap

  /** `PAGE_SIZE` */
  const PageSize: nat := 50

  function TrimAll(parts: seq<string>): (r: seq<string>)
    ensures |r| == |parts| && forall i :: 0 <= i < |parts| ==> r[i] == Trim(parts[i])
  {
    seq(|parts|, i requires 0 <= i < |parts| => Trim(parts[i]))
  }

  predicate NonEmpty(s: string)
  {
    s != ""
  }

  /** How a tab's request to its own API route ends: an ok reply with its
      parsed body, a reply with another status and the `error` field of its
      body if any, or a thrown error with its message. */
  datatype Reply<T> = Ok(body: T) | NotOk(status: nat, error: Option<string>) | Thrown(message: string)

  /** The error shown for a failed reply: `errData.error || fallback(status)`
      for a bad status, the thrown message otherwise. */
  function FailureText<T>(r: Reply<T>, fallback: nat -> string): string
    requires !r.Ok?
  {
    match r
      case NotOk(status, error) => OrElse(error, fallback(status))
      case Thrown(message) => message
  }

  /** The search loop of a tab from keyword `keywords[0]` on, with the lists
      gathered so far in `acc`: each keyword's reply in turn, the first one
      that fails ending the search with its error (`errData.error ||
      fallback(status)`); an ok reply's list, `keep(body)`, is stored under
      its keyword. */
  function GatherFrom<R, T>(keywords: seq<string>, fetch: string -> Reply<R>, keep: R -> seq<T>,
                            fallback: nat -> string, acc: OMap<seq<T>>): (r: Result<OMap<seq<T>>, string>)
    requires acc.Valid()
    ensures r.Success? ==> r.value.Valid()
    decreases |keywords|
  {
    if keywords == [] then Success(acc)
    else
      var reply := fetch(keywords[0]);
      if reply.Ok? then GatherFrom(keywords[1..], fetch, keep, fallback, acc.Set(keywords[0], keep(reply.body)))
      else Failure(FailureText(reply, fallback))
  }

  /** The search succeeds exactly when every keyword's reply is ok. */
  lemma {:induction false} GatherFromSucceeds<R, T>(keywords: seq<string>, fetch: string -> Reply<R>, keep: R -> seq<T>,
                                                    fallback: nat -> string, acc: OMap<seq<T>>)
    requires acc.Valid()
    ensures GatherFrom(keywords, fetch, keep, fallback, acc).Success?
      <==> forall i :: 0 <= i < |keywords| ==> fetch(keywords[i]).Ok?
    decreases |keywords|
  {
    if keywords != [] && fetch(keywords[0]).Ok? {
      var tail := keywords[1..];
      GatherFromSucceeds(tail, fetch, keep, fallback, acc.Set(keywords[0], keep(fetch(keywords[0]).body)));
      assert forall i :: 0 < i < |keywords| ==> keywords[i] == tail[i - 1];
    }
  }

  /** A completed search maps each keyword to the list of its own reply,
      whose reply was ok, and leaves every other key as it was. */
  lemma {:induction false} GatherFromGet<R, T>(keywords: seq<string>, fetch: string -> Reply<R>, keep: R -> seq<T>,
                                               fallback: nat -> string, acc: OMap<seq<T>>, key: string)
    requires acc.Valid()
    ensures var r := GatherFrom(keywords, fetch, keep, fallback, acc);
      r.Success? ==>
        && (key in keywords ==> fetch(key).Ok? && r.value.Get(key) == Some(keep(fetch(key).body)))
        && (key !in keywords ==> r.value.Get(key) == acc.Get(key))
    decreases |keywords|
  {
    if keywords != [] && fetch(keywords[0]).Ok? {
      var k := keywords[0];
      var tail := keywords[1..];
      var next := acc.Set(k, keep(fetch(k).body));
      GatherFromGet(tail, fetch, keep, fallback, next, key);
      assert key in keywords <==> key == k || key in tail;
    }
  }

  /** A failed search carries the error of the first keyword whose reply
      failed. */
  lemma {:induction false} GatherFromFailure<R, T>(keywords: seq<string>, fetch: string -> Reply<R>, keep: R -> seq<T>,
                                                   fallback: nat -> string, acc: OMap<seq<T>>)
    requires acc.Valid()
    ensures var r := GatherFrom(keywords, fetch, keep, fallback, acc);
      r.Failure? ==>
        exists i :: (0 <= i < |keywords| && !fetch(keywords[i]).Ok?
          && (forall j :: 0 <= j < i ==> fetch(keywords[j]).Ok?)
          && r.error == FailureText(fetch(keywords[i]), fallback))
    decreases |keywords|
  {
    if keywords != [] {
      var k := keywords[0];
      var tail := keywords[1..];
      var r := GatherFrom(keywords, fetch, keep, fallback, acc);
      if fetch(k).Ok? {
        var next := acc.Set(k, keep(fetch(k).body));
        GatherFromFailure(tail, fetch, keep, fallback, next);
        assert r == GatherFrom(tail, fetch, keep, fallback, next);
        if r.Failure? {
          var i :| 0 <= i < |tail| && !fetch(tail[i]).Ok?
            && (forall j :: 0 <= j < i ==> fetch(tail[j]).Ok?)
            && r.error == FailureText(fetch(tail[i]), fallback);
          assert keywords[i + 1] == tail[i];
          assert forall j :: 1 <= j < i + 1 ==> keywords[j] == tail[j - 1];
        }
      } else {
        assert r.error == FailureText(fetch(keywords[0]), fallback);
      }
    }
  }

  /** One turn of the search loop at keyword `i`. */
  lemma GatherFromStep<R, T>(keywords: seq<string>, i: nat, fetch: string -> Reply<R>, keep: R -> seq<T>,
                             fallback: nat -> string, acc: OMap<seq<T>>)
    requires i < |keywords| && acc.Valid()
    ensures GatherFrom(keywords[i..], fetch, keep, fallback, acc)
      == if fetch(keywords[i]).Ok?
         then GatherFrom(keywords[i + 1..], fetch, keep, fallback, acc.Set(keywords[i], keep(fetch(keywords[i]).body)))
         else Failure(FailureText(fetch(keywords[i]), fallback))
  {
    assert keywords[i..][0] == keywords[i] && keywords[i..][1..] == keywords[i + 1..];
  }

  /** The visible counts a completed search sets: one page per keyword. */
  function FirstPages(keywords: seq<string>): (r: map<string, nat>)
    ensures r.Keys == set k | k in keywords
    ensures forall k :: k in keywords ==> VisibleOf(r, k) == PageSize
  {
    map k | k in keywords :: PageSize
  }

  /** The counts grow one keyword at a time. */
  lemma FirstPagesStep(keywords: seq<string>, i: nat)
    requires i < |keywords|
    ensures FirstPages(keywords[..i + 1]) == FirstPages(keywords[..i])[keywords[i] := PageSize]
  {
    assert keywords[..i + 1] == keywords[..i] + [keywords[i]];
  }

  /** `raw.split(",").map((s) => s.trim()).filter(Boolean)` */
  function SplitKeywords(raw: string): (r: seq<string>)
  {
    Filter(TrimAll(Split(raw, ',')), NonEmpty)
  }

  /** Every keyword is non-empty, trimmed and free of commas, and the
      keywords are the non-empty trimmed pieces in input order. */
  lemma SplitKeywordsShape(raw: string)
    ensures forall k :: 0 <= k < |SplitKeywords(raw)| ==>
      SplitKeywords(raw)[k] != "" && Trim(SplitKeywords(raw)[k]) == SplitKeywords(raw)[k]
      && ',' !in SplitKeywords(raw)[k]
    ensures IsSubseq(SplitKeywords(raw), TrimAll(Split(raw, ',')))
  {
    var parts := Split(raw, ',');
    var ts := TrimAll(parts);
    var ks := Filter(ts, NonEmpty);
    assert ks == SplitKeywords(raw);
    forall k | 0 <= k < |ks|
      ensures ks[k] != "" && Trim(ks[k]) == ks[k] && ',' !in ks[k]
    {
      KeptPiece(parts, ks[k]);
    }
    FilterSubseq(ts, NonEmpty);
  }

  /** A piece kept by the filter is a trimmed piece of a split. */
  lemma KeptPiece(parts: seq<string>, w: string)
    requires forall k :: 0 <= k < |parts| ==> ',' !in parts[k]
    requires w in TrimAll(parts)
    ensures ',' !in w && Trim(w) == w
  {
    var i :| 0 <= i < |parts| && TrimAll(parts)[i] == w;
    PieceShape(parts[i]);
  }

  lemma PieceShape(p: string)
    requires ',' !in p
    ensures ',' !in Trim(p) && Trim(Trim(p)) == Trim(p)
  {
    TrimIdempotent(p);
    var a := TrimStart(p);
    var b := TrimEnd(a);
    forall x | 0 <= x < |b| ensures b[x] != ',' {
      assert b[x] == a[x] == p[|p| - |a| + x];
    }
  }

  /** Input that is blank after trimming yields no keyword. */
  lemma SplitKeywordsBlank(raw: string)
    requires Trim(raw) == ""
    ensures SplitKeywords(raw) == []
  {
    TrimBlank(raw);
    var parts := Split(raw, ',');
    var ts := TrimAll(parts);
    SplitChars(raw, ',');
    forall i | 0 <= i < |ts| ensures !NonEmpty(ts[i]) {
      assert AllSpace(parts[i]) by {
        forall j | 0 <= j < |parts[i]| ensures IsSpace(parts[i][j]) {
          assert CharsFrom(parts[i], raw);
          assert parts[i][j] in raw;
        }
      }
      TrimBlank(parts[i]);
    }
    FilterNone(ts, NonEmpty);
  }

  /** Input without a comma is one keyword, its trimmed self, unless it is
      blank. */
  lemma SplitKeywordsSingle(raw: string)
    requires ',' !in raw
    ensures SplitKeywords(raw) == if Trim(raw) == "" then [] else [Trim(raw)]
  {
    assert TrimAll(Split(raw, ',')) == [Trim(raw)];
  }

  /** `counts[k] || PAGE_SIZE`: an absent or zero count reads as one page. */
  function VisibleOf(counts: map<string, nat>, k: string): (r: nat)
    ensures r > 0
  {
    if k in counts && counts[k] != 0 then counts[k] else PageSize
  }

  /** `handleShowMore` / `handleLoadMore`: one more page for `k`. */
  function ShowMore(counts: map<string, nat>, k: string): map<string, nat>
  {
    counts[k := VisibleOf(counts, k) + PageSize]
  }

  /** Showing more adds exactly one page for `k`, starting from one page
      when `k` had no count, and changes no other keyword's count. */
  lemma ShowMoreSpec(counts: map<string, nat>, k: string)
    ensures VisibleOf(ShowMore(counts, k), k) == VisibleOf(counts, k) + PageSize
    ensures k !in counts ==> VisibleOf(ShowMore(counts, k), k) == 2 * PageSize
    ensures forall j :: j != k ==> VisibleOf(ShowMore(counts, k), j) == VisibleOf(counts, j)
    ensures ShowMore(counts, k).Keys == counts.Keys + {k}
  {
  }

  /** `results.slice(0, visible)` */
  function Displayed<T>(results: seq<T>, visible: nat): seq<T>
  {
    Take(results, visible)
  }

  /** `results.length > visible` */
  predicate HasMore<T>(results: seq<T>, visible: nat)
  {
    |results| > visible
  }

  /** The rows shown are the first min(length, visible) results, and "more"
      is offered exactly when some result is not shown. */
  lemma DisplayedSpec<T>(results: seq<T>, visible: nat)
    ensures Displayed(results, visible) <= results
    ensures |Displayed(results, visible)| == if |results| < visible then |results| else visible
    ensures HasMore(results, visible) <==> |Displayed(results, visible)| < |results|
  {
  }

  /** `activeTab ? (resultsByKeyword[activeTab] || []) : []` */
  function CurrentResults<T>(results: OMap<seq<T>>, activeTab: string): seq<T>
  {
    if activeTab == "" then []
    else match results.Get(activeTab)
      case Some(rs) => rs
      case None => []
  }

  /** `Object.values(m).reduce((sum, arr) => sum + arr.length, 0)` */
  function SumLengths<T>(xss: seq<seq<T>>): nat
  {
    if xss == [] then 0 else SumLengths(xss[..|xss| - 1]) + |xss[|xss| - 1]|
  }

  /** `Object.values(m).flat()` */
  function Flatten<T>(xss: seq<seq<T>>): seq<T>
  {
    if xss == [] then [] else Flatten(xss[..|xss| - 1]) + xss[|xss| - 1]
  }

  /** The total shown above the tabs is the number of results handed on. */
  lemma {:induction false} SumLengthsFlatten<T>(xss: seq<seq<T>>)
    ensures SumLengths(xss) == |Flatten(xss)|
    decreases |xss|
  {
    if xss != [] {
      SumLengthsFlatten(xss[..|xss| - 1]);
    }
  }
}
