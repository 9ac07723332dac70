/** `scoreRisk` (lib/risk-score.ts): an additive risk score for a monitored
    item. Each attack word found in the lowercased title and content adds
    15, each inquiry word subtracts 8, a link into a target cafe adds 35;
    the sum starts at 10 and is clamped to [0, 100]. */
module RiskScore {
  import opened Wrappers
  import opened Seqs
  import opened Text
  import opened KeywordMatch

  const AttackWords: seq<string> := [
    "사기", "먹튀", "피해", "고소", "신고", "절대", "최악", "조작", "구라", "환불 안",
    "하지마", "거르", "망", "논란"]

  const InquiryWords: seq<string> := [
    "문의", "알려", "방법", "되나요", "가능", "규정", "절차", "질문"]

  datatype Level = Low | Med | High

  datatype RiskResult = RiskResult(score: int, level: Level, reasons: seq<string>, isTargetCafeHit: bool)

  /** The text searched: title and content on two lines, lowercased. */
  function Haystack(title: string, content: string): string
  {
    Lower(title + "\n" + content)
  }

  /** The words of `words` found in `text`, in list order. */
  function Matched(text: string, words: seq<string>): (r: seq<string>)
    ensures |r| <= |words|
  {
    Filter(words, FoundIn(text))
  }

  /** `prefix + w` for each `w`. */
  function Tagged(prefix: string, ws: seq<string>): (r: seq<string>)
    ensures |r| == |ws| && forall i :: 0 <= i < |ws| ==> r[i] == prefix + ws[i]
  {
    seq(|ws|, i requires 0 <= i < |ws| => prefix + ws[i])
  }

  /** `targetCafeUrls.some((u) => link.includes(u))` with an absent list
      read as empty. */
  predicate TargetHit(link: string, targets: Option<seq<string>>)
  {
    targets.Some? && exists u :: u in targets.value && Contains(link, u)
  }

  /** The score before clamping. */
  function RawScore(text: string, link: string, targets: Option<seq<string>>): int
  {
    10 + 15 * |Matched(text, AttackWords)| - 8 * |Matched(text, InquiryWords)|
    + (if TargetHit(link, targets) then 35 else 0)
  }

  /** `Math.max(0, Math.min(100, score))` */
  function Clamp100(s: int): (r: int)
    ensures 0 <= r <= 100
    ensures 0 <= s <= 100 ==> r == s
    ensures s < 0 ==> r == 0
    ensures s > 100 ==> r == 100
  {
    if s > 100 then 100 else if s < 0 then 0 else s
  }

  function LevelOf(score: int): Level
  {
    if score >= 70 then High else if score >= 40 then Med else Low
  }

  /** The reasons: attack words, then inquiry words, then the target cafe. */
  function Reasons(text: string, link: string, targets: Option<seq<string>>): seq<string>
  {
    Tagged("attack_word:", Matched(text, AttackWords))
    + Tagged("inquiry_word:", Matched(text, InquiryWords))
    + (if TargetHit(link, targets) then ["target_cafe"] else [])
  }

  lemma MatchedSnoc(text: string, words: seq<string>, i: nat)
    requires i < |words|
    ensures Matched(text, words[..i + 1])
      == Matched(text, words[..i]) + (if FoundIn(text)(words[i]) then [words[i]] else [])
  {
    assert words[..i + 1] == words[..i] + [words[i]];
    FilterAppend(words[..i], [words[i]], FoundIn(text));
  }

  /** Tagging one more word appends its tag. */
  lemma TaggedSnoc(prefix: string, ws: seq<string>, w: string)
    ensures Tagged(prefix, ws + [w]) == Tagged(prefix, ws) + [prefix + w]
  {
  }

  /** One of the two word loops: the words of `words` found in `text`,
      tagged with `prefix`, and how many there were. */
  method Tally(text: string, words: seq<string>, prefix: string) returns (found: nat, tags: seq<string>)
    ensures found == |Matched(text, words)|
    ensures tags == Tagged(prefix, Matched(text, words))
  {
    found := 0;
    tags := [];
    for i := 0 to |words|
      invariant found == |Matched(text, words[..i])|
      invariant tags == Tagged(prefix, Matched(text, words[..i]))
    {
      MatchedSnoc(text, words, i);
      var w := words[i];
      if Contains(text, Lower(w)) {
        assert FoundIn(text)(w);
        TaggedSnoc(prefix, Matched(text, words[..i]), w);
        found := found + 1;
        tags := tags + [prefix + w];
      } else {
        assert !FoundIn(text)(w);
      }
    }
    assert words[..|words|] == words;
  }

  /** `scoreRisk(item, opts)` */
  method ScoreRisk(title: string, content: string, link: string, targets: Option<seq<string>>)
    returns (r: RiskResult)
    ensures 0 <= r.score <= 100
    ensures r.level == High <==> r.score >= 70
    ensures r.level == Med <==> 40 <= r.score < 70
    ensures r.level == Low <==> r.score < 40
    ensures r.score == Clamp100(RawScore(Haystack(title, content), link, targets))
    ensures r.reasons == Reasons(Haystack(title, content), link, targets)
    ensures r.isTargetCafeHit == TargetHit(link, targets)
  {
    var text := Haystack(title, content);
    var score, reasons, hit := Score(text, link, targets);
    score := Clamp100(score);
    var level := if score >= 70 then High else if score >= 40 then Med else Low;
    r := RiskResult(score, level, reasons, hit);
  }

  /** The body of `scoreRisk` up to the clamp: the raw score, the reasons
      and whether the link hits a target cafe. */
  method Score(text: string, link: string, targets: Option<seq<string>>)
    returns (score: int, reasons: seq<string>, hit: bool)
    ensures score == RawScore(text, link, targets)
    ensures reasons == Reasons(text, link, targets)
    ensures hit == TargetHit(link, targets)
  {
    score := 10;
    var attacks, attackTags := Tally(text, AttackWords, "attack_word:");
    score := score + 15 * attacks;
    var inquiries, inquiryTags := Tally(text, InquiryWords, "inquiry_word:");
    score := score - 8 * inquiries;
    reasons := attackTags + inquiryTags;
    var urls := if targets.Some? then targets.value else [];
    hit := exists u | u in urls :: Contains(link, u);
    if hit {
      score := score + 35;
      reasons := reasons + ["target_cafe"];
    }
  }

  /** Without target cafes nothing is a target hit; an empty target URL
      matches every link. */
  lemma TargetHitCases(link: string, targets: Option<seq<string>>)
    ensures targets == None || targets == Some([]) ==> !TargetHit(link, targets)
    ensures targets.Some? && "" in targets.value ==> TargetHit(link, targets)
  {
    if targets.Some? && "" in targets.value {
      ContainsEmpty(link);
    }
  }

  /** A text with none of the words and no target hit scores 10, LOW. */
  lemma QuietItem(text: string, link: string, targets: Option<seq<string>>)
    requires forall w :: w in AttackWords ==> !Contains(text, Lower(w))
    requires forall w :: w in InquiryWords ==> !Contains(text, Lower(w))
    requires !TargetHit(link, targets)
    ensures Clamp100(RawScore(text, link, targets)) == 10
    ensures LevelOf(Clamp100(RawScore(text, link, targets))) == Low
    ensures Reasons(text, link, targets) == []
  {
    NoneMatched(text, AttackWords);
    NoneMatched(text, InquiryWords);
  }

  /** No word found, no word matched. */
  lemma NoneMatched(text: string, words: seq<string>)
    requires forall w :: w in words ==> !Contains(text, Lower(w))
    ensures Matched(text, words) == []
  {
    FilterNone(words, FoundIn(text));
  }

  /** A target cafe hit with no inquiry word is at least MED; four attack
      words with no inquiry word are HIGH. */
  lemma LevelFloors(text: string, link: string, targets: Option<seq<string>>)
    requires Matched(text, InquiryWords) == []
    ensures TargetHit(link, targets) ==> LevelOf(Clamp100(RawScore(text, link, targets))) != Low
    ensures |Matched(text, AttackWords)| >= 4 ==> LevelOf(Clamp100(RawScore(text, link, targets))) == High
  {
  }

  /** The score never moves by more than the words it found: the raw score
      lies between 10 - 8 * 8 and 10 + 15 * 14 + 35. */
  lemma RawScoreBounds(text: string, link: string, targets: Option<seq<string>>)
    ensures -54 <= RawScore(text, link, targets) <= 255
  {
  }
}
