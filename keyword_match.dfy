/** Keyword matching on the client. Two styles are used:
    - the "flexible" match of the unified scan and the Naver tab, which
      ignores case and all white space on both sides
      (components/unified-scan.tsx, components/naver-tab.tsx);
    - the negative-keyword match, which lowercases both sides. The Naver
      tab lists every keyword found; the results table and the unified
      list return only the first keyword found, or null
      (components/results-table.tsx, components/unified-list.tsx). */
module KeywordMatch {
  import opened Wrappers
  import opened Text
  import opened Seqs

  /** `normalise(text)`: lowercased, with every white-space character removed. */
  function Normalise(s: string): (r: string)
    ensures forall i :: 0 <= i < |r| ==> !IsSpace(r[i]) && LowerChar(r[i]) == r[i]
  {
    RemoveSpacesChars(Lower(s));
    RemoveSpaces(Lower(s))
  }

  /** Normalising distributes over concatenation. */
  lemma {:induction false} NormaliseAppend(a: string, b: string)
    ensures Normalise(a + b) == Normalise(a) + Normalise(b)
    decreases |a|
  {
    if a == [] {
      assert a + b == b;
    } else {
      assert Lower(a + b)[1..] == Lower(a[1..] + b);
      assert Lower(a)[1..] == Lower(a[1..]);
      NormaliseAppend(a[1..], b);
    }
  }

  /** Normalising twice is normalising once. */
  lemma NormaliseIdempotent(s: string)
    ensures Normalise(Normalise(s)) == Normalise(s)
  {
    var n := Normalise(s);
    assert Lower(n) == n;
    RemoveSpacesNoop(n);
  }

  /** `flexibleIncludes(text, keyword)` */
  predicate FlexibleIncludes(text: string, keyword: string)
  {
    Contains(Normalise(text), Normalise(keyword))
  }

  /** A keyword made only of white space, the empty one included, matches
      every text. */
  lemma FlexibleBlankKeyword(text: string, keyword: string)
    requires AllSpace(keyword)
    ensures FlexibleIncludes(text, keyword)
  {
    assert Lower(keyword) == seq(|keyword|, i requires 0 <= i < |keyword| => LowerChar(keyword[i]));
    BlankNormalise(keyword);
    ContainsEmpty(Normalise(text));
  }

  lemma {:induction false} BlankNormalise(s: string)
    requires AllSpace(s)
    ensures Normalise(s) == ""
    decreases |s|
  {
    if s != [] {
      NormaliseAppend([s[0]], s[1..]);
      assert [s[0]] + s[1..] == s;
      assert Lower([s[0]]) == [LowerChar(s[0])];
      BlankNormalise(s[1..]);
    }
  }

  /** A keyword that occurs verbatim in the text also matches flexibly. */
  lemma VerbatimMatches(text: string, keyword: string)
    requires Contains(text, keyword)
    ensures FlexibleIncludes(text, keyword)
  {
    ContainsIff(text, keyword);
    var i :| OccursAt(text, keyword, i);
    var pre, post := text[..i], text[i + |keyword|..];
    assert text == pre + keyword + post;
    NormaliseAppend(pre + keyword, post);
    NormaliseAppend(pre, keyword);
    var n := Normalise(text);
    assert n == Normalise(pre) + Normalise(keyword) + Normalise(post);
    assert n[|Normalise(pre)|..|Normalise(pre)| + |Normalise(keyword)|] == Normalise(keyword);
    OccursAtContains(n, Normalise(keyword), |Normalise(pre)|);
  }

  /** Matching ignores case and white space: a text and a keyword match
      exactly when their normal forms do. */
  lemma FlexibleNormalised(text: string, keyword: string)
    ensures FlexibleIncludes(Normalise(text), Normalise(keyword)) == FlexibleIncludes(text, keyword)
  {
    NormaliseIdempotent(text);
    NormaliseIdempotent(keyword);
  }

  /** `matchesAnyKeyword(text, keywords)`: some keyword matches. */
  predicate MatchesAny(text: string, keywords: seq<string>)
  {
    exists i :: 0 <= i < |keywords| && FlexibleIncludes(text, keywords[i])
  }

  /** No keyword matches nothing; a blank keyword matches everything; a
      keyword that occurs verbatim is enough. */
  lemma MatchesAnyCases(text: string, keywords: seq<string>)
    ensures keywords == [] ==> !MatchesAny(text, keywords)
    ensures (exists i :: 0 <= i < |keywords| && AllSpace(keywords[i])) ==> MatchesAny(text, keywords)
    ensures (exists i :: 0 <= i < |keywords| && Contains(text, keywords[i])) ==> MatchesAny(text, keywords)
  {
    if i :| 0 <= i < |keywords| && AllSpace(keywords[i]) {
      FlexibleBlankKeyword(text, keywords[i]);
    }
    if i :| 0 <= i < |keywords| && Contains(text, keywords[i]) {
      VerbatimMatches(text, keywords[i]);
    }
  }

  /** `lower.includes(kw.toLowerCase())` for an already lowercased text. */
  function FoundIn(lower: string): string -> bool
  {
    (kw: string) => Contains(lower, Lower(kw))
  }

  /** `matchNegativeKeywords(text, keywords)`: every keyword found in the
      lowercased text, in list order. */
  function MatchAll(text: string, keywords: seq<string>): seq<string>
  {
    Filter(keywords, FoundIn(Lower(text)))
  }

  /** The keywords listed are exactly those found, in list order. */
  lemma MatchAllSpec(text: string, keywords: seq<string>)
    ensures IsSubseq(MatchAll(text, keywords), keywords)
    ensures forall kw :: kw in MatchAll(text, keywords) <==> kw in keywords && Contains(Lower(text), Lower(kw))
  {
    FilterSubseq(keywords, FoundIn(Lower(text)));
    forall kw {
      FilterMembers(keywords, FoundIn(Lower(text)), kw);
    }
  }

  /** Some keyword is matched exactly when some keyword is found. */
  lemma MatchAllAny(text: string, keywords: seq<string>)
    ensures MatchAll(text, keywords) != [] <==> exists kw :: kw in keywords && Contains(Lower(text), Lower(kw))
  {
    MatchAllSpec(text, keywords);
    if MatchAll(text, keywords) != [] {
      assert MatchAll(text, keywords)[0] in MatchAll(text, keywords);
    }
  }

  /** `matchesNegativeKeywords(text, keywords)`: the first keyword found, or
      null. */
  function FirstMatch(text: string, keywords: seq<string>): Option<string>
  {
    var m := MatchAll(text, keywords);
    if m == [] then None else Some(m[0])
  }

  /** There is no first match exactly when no keyword is found in the text. */
  lemma FirstMatchNone(text: string, keywords: seq<string>)
    ensures FirstMatch(text, keywords).None? <==>
      forall i :: 0 <= i < |keywords| ==> !Contains(Lower(text), Lower(keywords[i]))
  {
    MatchAllSpec(text, keywords);
    if MatchAll(text, keywords) != [] {
      assert MatchAll(text, keywords)[0] in MatchAll(text, keywords);
    } else {
      forall i | 0 <= i < |keywords| ensures !Contains(Lower(text), Lower(keywords[i])) {
        assert keywords[i] !in MatchAll(text, keywords);
      }
    }
  }

  /** The first match is the keyword at the lowest index found in the text;
      there is none exactly when no keyword is found. */
  lemma FirstMatchSpec(text: string, keywords: seq<string>)
    ensures FirstMatch(text, keywords).None? <==>
      forall i :: 0 <= i < |keywords| ==> !Contains(Lower(text), Lower(keywords[i]))
    ensures FirstMatch(text, keywords).Some? ==>
      exists i :: 0 <= i < |keywords| && keywords[i] == FirstMatch(text, keywords).value
        && Contains(Lower(text), Lower(keywords[i]))
        && (forall j :: 0 <= j < i ==> !Contains(Lower(text), Lower(keywords[j])))
  {
    FirstMatchNone(text, keywords);
    if MatchAll(text, keywords) != [] {
      var found := FoundIn(Lower(text));
      var i := FilterHead(keywords, found);
      assert keywords[i] == FirstMatch(text, keywords).value;
      assert found(keywords[i]);
      forall j | 0 <= j < i ensures !Contains(Lower(text), Lower(keywords[j])) {
        assert !found(keywords[j]);
      }
    }
  }

  /** One step of the search loop: a keyword not found keeps the prefix
      without matches. */
  lemma NoMatchStep(keywords: seq<string>, i: nat, found: string -> bool)
    requires i < |keywords| && Filter(keywords[..i], found) == [] && !found(keywords[i])
    ensures Filter(keywords[..i + 1], found) == []
  {
    assert keywords[..i + 1] == keywords[..i] + [keywords[i]];
    FilterAppend(keywords[..i], [keywords[i]], found);
  }

  /** The search loop's exit: the first keyword found heads the match list. */
  lemma FirstHit(keywords: seq<string>, i: nat, found: string -> bool)
    requires i < |keywords| && Filter(keywords[..i], found) == [] && found(keywords[i])
    ensures Filter(keywords, found) != [] && Filter(keywords, found)[0] == keywords[i]
  {
    var rest := keywords[i..];
    assert keywords == keywords[..i] + rest;
    FilterAppend(keywords[..i], rest, found);
    assert rest[0] == keywords[i];
    assert Filter(rest, found) == [keywords[i]] + Filter(rest[1..], found);
  }

  /** The loop of `matchesNegativeKeywords`: lowercase the text once, then
      return the first keyword whose lowercase form it contains. */
  method FindFirstMatch(text: string, keywords: seq<string>) returns (r: Option<string>)
    ensures r == FirstMatch(text, keywords)
  {
    var lower := Lower(text);
    var found := FoundIn(lower);
    for i := 0 to |keywords|
      invariant Filter(keywords[..i], found) == []
    {
      if Contains(lower, Lower(keywords[i])) {
        FirstHit(keywords, i, found);
        return Some(keywords[i]);
      }
      NoMatchStep(keywords, i, found);
    }
    assert keywords[..|keywords|] == keywords;
    return None;
  }
}
