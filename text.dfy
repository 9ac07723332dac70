/** String helpers shared by the routes and components: JavaScript's
    whitespace class, `trim`, `toLowerCase` (ASCII letters only), `includes`,
    `startsWith`, first-occurrence `replace` and global `replace`/`replaceAll`,
    `split` on one character and `join`. */
module Text {
  import opened Wrappers

  /** The characters JavaScript's `\s` and `String.prototype.trim` treat as
      white space (WhiteSpace and LineTerminator of ECMA-262). */
  predicate IsSpace(c: char)
  {
    c == ' ' || c == '\t' || c == '\n' || c == '\r' || c == '\U{000B}' || c == '\U{000C}'
    || c == '\U{00A0}' || c == '\U{FEFF}' || c == '\U{1680}'
    || ('\U{2000}' <= c <= '\U{200A}')
    || c == '\U{2028}' || c == '\U{2029}' || c == '\U{202F}' || c == '\U{205F}' || c == '\U{3000}'
  }

  predicate AllSpace(s: string)
  {
    forall i :: 0 <= i < |s| ==> IsSpace(s[i])
  }

  function TrimStart(s: string): (r: string)
    ensures |r| <= |s| && r == s[|s| - |r|..]
    ensures r == [] || !IsSpace(r[0])
    ensures AllSpace(s[..|s| - |r|])
  {
    if s == [] || !IsSpace(s[0]) then s
    else
      var t := TrimStart(s[1..]);
      assert s[1..][..|s| - 1 - |t|] == s[1..|s| - |t|];
      t
  }

  function TrimEnd(s: string): (r: string)
    ensures |r| <= |s| && r == s[..|r|]
    ensures r == [] || !IsSpace(r[|r| - 1])
    ensures AllSpace(s[|r|..])
  {
    if s == [] || !IsSpace(s[|s| - 1]) then s
    else
      var t := TrimEnd(s[..|s| - 1]);
      assert s[..|s| - 1][|t|..] == s[|t|..|s| - 1];
      t
  }

  /** `s.trim()` */
  function Trim(s: string): string
  {
    TrimEnd(TrimStart(s))
  }

  /** What trimming removes and keeps: `s` is the result wrapped in white
      space, and the result neither starts nor ends with white space. */
  lemma TrimShape(s: string)
    ensures exists i, j :: 0 <= i <= j <= |s| && Trim(s) == s[i..j] && AllSpace(s[..i]) && AllSpace(s[j..])
    ensures Trim(s) == [] || (!IsSpace(Trim(s)[0]) && !IsSpace(Trim(s)[|Trim(s)| - 1]))
  {
    var a := TrimStart(s);
    var i := |s| - |a|;
    var b := TrimEnd(a);
    assert a[|b|..] == s[i + |b|..];
    assert b == s[i..i + |b|];
  }

  /** Every character of the trimmed text is one of the text. */
  lemma TrimChar(s: string, k: int)
    requires 0 <= k < |Trim(s)|
    ensures Trim(s)[k] in s
  {
    TrimShape(s);
    var i, j :| 0 <= i <= j <= |s| && Trim(s) == s[i..j];
    assert Trim(s)[k] == s[i + k];
  }

  /** Trimming twice is trimming once. */
  lemma TrimIdempotent(s: string)
    ensures Trim(Trim(s)) == Trim(s)
  {
    var t := Trim(s);
    TrimShape(s);
    assert TrimStart(t) == t;
  }

  /** A string trims to nothing exactly when it is all white space. */
  lemma TrimBlank(s: string)
    ensures Trim(s) == "" <==> AllSpace(s)
  {
    TrimShape(s);
  }

  /** `x || d` on an optional string: absent or empty falls back to `d`. */
  function OrElse(x: Option<string>, d: string): string
  {
    if x.None? || x.value == "" then d else x.value
  }

  /** `a || b` on two strings: an empty `a` falls back to `b`. */
  function Or(a: string, b: string): string
  {
    if a == "" then b else a
  }

  /** `const t = s.trim(); if (!t) return;`: the trimmed input when it is
      not empty. */
  function NonBlank(s: string): Option<string>
  {
    var t := Trim(s);
    if t == "" then None else Some(t)
  }

  /** Only all-white-space input is refused; what is accepted is non-empty
      and already trimmed, so accepting it again gives it back. */
  lemma NonBlankSpec(s: string)
    ensures NonBlank(s).None? <==> AllSpace(s)
    ensures NonBlank(s).Some? ==>
      NonBlank(s).value != "" && NonBlank(NonBlank(s).value) == NonBlank(s)
  {
    TrimBlank(s);
    TrimIdempotent(s);
  }

  /** Neither end of `s` is white space. */
  predicate Trimmed(s: string)
  {
    s == [] || (!IsSpace(s[0]) && !IsSpace(s[|s| - 1]))
  }

  /** A string with no white space at either end is its own trim. */
  lemma TrimNoSpace(s: string)
    requires s == [] || (!IsSpace(s[0]) && !IsSpace(s[|s| - 1]))
    ensures Trim(s) == s
  {
  }

  function LowerChar(c: char): char
  {
    if 'A' <= c <= 'Z' then (c as int + 32) as char else c
  }

  /** `s.toLowerCase()` on ASCII letters; other characters are unchanged. */
  function Lower(s: string): (r: string)
    ensures |r| == |s|
    ensures forall i :: 0 <= i < |s| ==> r[i] == LowerChar(s[i])
  {
    seq(|s|, i requires 0 <= i < |s| => LowerChar(s[i]))
  }

  lemma LowerIdempotent(s: string)
    ensures Lower(Lower(s)) == Lower(s)
  {
  }

  /** `s.startsWith(p)` */
  predicate StartsWith(s: string, p: string)
  {
    |p| <= |s| && s[..|p|] == p
  }

  /** `s.includes(sub)`: `sub` occurs at some position of `s`. */
  predicate Contains(s: string, sub: string)
    decreases |s|
  {
    StartsWith(s, sub) || (|s| > 0 && Contains(s[1..], sub))
  }

  predicate OccursAt(s: string, sub: string, i: int)
  {
    0 <= i && i + |sub| <= |s| && s[i..i + |sub|] == sub
  }

  /** An occurrence at any position makes `Contains` hold. */
  lemma {:induction false} OccursAtContains(s: string, sub: string, i: int)
    requires OccursAt(s, sub, i)
    ensures Contains(s, sub)
    decreases i
  {
    if i > 0 {
      assert s[1..][i - 1..i - 1 + |sub|] == s[i..i + |sub|];
      OccursAtContains(s[1..], sub, i - 1);
    }
  }

  /** An occurrence in `b` is one in `a + b + c`, shifted by `|a|`. */
  lemma OccursInside(a: string, b: string, c: string, sub: string, i: int)
    requires OccursAt(b, sub, i)
    ensures OccursAt(a + b + c, sub, |a| + i)
  {
    var s := a + b + c;
    forall k | 0 <= k < |sub| ensures s[|a| + i + k] == sub[k] {
      assert s[|a| + i + k] == b[i + k];
      assert b[i..i + |sub|][k] == b[i + k];
    }
    assert s[|a| + i..|a| + i + |sub|] == sub;
  }

  /** `Contains` agrees with the positional definition of a substring. */
  lemma {:induction false} ContainsIff(s: string, sub: string)
    ensures Contains(s, sub) <==> exists i :: OccursAt(s, sub, i)
    decreases |s|
  {
    if StartsWith(s, sub) {
      assert OccursAt(s, sub, 0);
    } else if |s| > 0 {
      ContainsIff(s[1..], sub);
      if Contains(s[1..], sub) {
        var i :| OccursAt(s[1..], sub, i);
        assert s[1..][i..i + |sub|] == s[i + 1..i + 1 + |sub|];
        assert OccursAt(s, sub, i + 1);
      }
    }
    forall i | OccursAt(s, sub, i) ensures Contains(s, sub) {
      OccursAtContains(s, sub, i);
    }
  }

  lemma ContainsEmpty(s: string)
    ensures Contains(s, "")
  {
  }

  /** `s.replace(pat, rep)` with a string pattern: only the leftmost
      occurrence is replaced. */
  function ReplaceFirst(s: string, pat: string, rep: string): string
    requires |pat| > 0
    decreases |s|
  {
    if |s| < |pat| then s
    else if StartsWith(s, pat) then rep + s[|pat|..]
    else [s[0]] + ReplaceFirst(s[1..], pat, rep)
  }

  /** `s.replaceAll(pat, rep)` and `s.replace(/pat/g, rep)` for a literal
      pattern: leftmost, non-overlapping occurrences are replaced. */
  function ReplaceAll(s: string, pat: string, rep: string): string
    requires |pat| > 0
    decreases |s|
  {
    if |s| < |pat| then s
    else if StartsWith(s, pat) then rep + ReplaceAll(s[|pat|..], pat, rep)
    else [s[0]] + ReplaceAll(s[1..], pat, rep)
  }

  /** A replacement changes nothing when the pattern does not occur. */
  lemma {:induction false} ReplaceAllAbsent(s: string, pat: string, rep: string)
    requires |pat| > 0 && !Contains(s, pat)
    ensures ReplaceAll(s, pat, rep) == s
    decreases |s|
  {
    if |s| >= |pat| {
      ReplaceAllAbsent(s[1..], pat, rep);
    }
  }

  lemma {:induction false} ReplaceFirstAbsent(s: string, pat: string, rep: string)
    requires |pat| > 0 && !Contains(s, pat)
    ensures ReplaceFirst(s, pat, rep) == s
    decreases |s|
  {
    if |s| >= |pat| {
      ReplaceFirstAbsent(s[1..], pat, rep);
    }
  }

  /** A replacement whose pattern starts with a character absent from the
      string changes nothing. */
  lemma {:induction false} AbsentHeadNotContained(s: string, pat: string)
    requires |pat| > 0 && pat[0] !in s
    ensures !Contains(s, pat)
    decreases |s|
  {
    if |s| > 0 {
      assert s[0] != pat[0];
      AbsentHeadNotContained(s[1..], pat);
    }
  }

  /** `s.split(c)` for a one-character separator. */
  /** Every character of `t` occurs in `s`. */
  predicate CharsFrom(t: string, s: string)
  {
    forall i :: 0 <= i < |t| ==> t[i] in s
  }

  function Split(s: string, c: char): (r: seq<string>)
    ensures |r| > 0
    ensures forall k :: 0 <= k < |r| ==> c !in r[k]
    ensures c !in s ==> r == [s]
    decreases |s|
  {
    if s == [] then [""]
    else
      var rest := Split(s[1..], c);
      if s[0] == c then [""] + rest
      else
        assert c !in s ==> rest == [s[1..]] && [s[0]] + s[1..] == s;
        [[s[0]] + rest[0]] + rest[1..]
  }

  /** `parts.join(sep)` */
  function Join(parts: seq<string>, sep: string): string
  {
    if parts == [] then ""
    else if |parts| == 1 then parts[0]
    else parts[0] + sep + Join(parts[1..], sep)
  }

  /** Joining two non-empty lists is joining each and putting the separator
      between them. */
  lemma {:induction false} JoinAppend(a: seq<string>, b: seq<string>, sep: string)
    requires a != [] && b != []
    ensures Join(a + b, sep) == Join(a, sep) + sep + Join(b, sep)
    decreases |a|
  {
    if |a| == 1 {
      assert (a + b)[1..] == b;
    } else {
      assert (a + b)[1..] == a[1..] + b;
      JoinAppend(a[1..], b, sep);
    }
  }

  /** `s.endsWith(suffix)` */
  predicate EndsWith(s: string, suffix: string)
  {
    |suffix| <= |s| && s[|s| - |suffix|..] == suffix
  }

  /** Splitting and joining again on the same character is the identity. */
  lemma {:induction false} JoinSplit(s: string, c: char)
    ensures Join(Split(s, c), [c]) == s
    decreases |s|
  {
    if s != [] {
      JoinSplit(s[1..], c);
      var rest := Split(s[1..], c);
      if s[0] != c {
        if |rest| > 1 {
          assert ([[s[0]] + rest[0]] + rest[1..])[1..] == rest[1..];
          assert rest == [rest[0]] + rest[1..];
        }
      }
    }
  }

  /** The part of `s` before the first character satisfying `stop`. */
  function TakeUntil(s: string, stop: char -> bool): (r: string)
    ensures StartsWith(s, r)
    ensures forall i :: 0 <= i < |r| ==> !stop(r[i])
    ensures |r| == |s| || stop(s[|r|])
  {
    if s == [] || stop(s[0]) then [] else [s[0]] + TakeUntil(s[1..], stop)
  }

  /** Removes every occurrence of one character. */
  function RemoveChar(s: string, c: char): (r: string)
    ensures c !in r
    ensures |r| <= |s|
    ensures c !in s ==> r == s
  {
    if s == [] then []
    else if s[0] == c then RemoveChar(s[1..], c)
    else [s[0]] + RemoveChar(s[1..], c)
  }

  /** Every piece of a split is made of characters of the text. */
  lemma {:induction false} SplitChars(s: string, c: char)
    ensures forall k :: 0 <= k < |Split(s, c)| ==> CharsFrom(Split(s, c)[k], s)
    decreases |s|
  {
    if s != [] {
      var rest := Split(s[1..], c);
      SplitChars(s[1..], c);
      assert forall k :: 0 <= k < |rest| ==> CharsFrom(rest[k], s) by {
        forall k, i | 0 <= k < |rest| && 0 <= i < |rest[k]| ensures rest[k][i] in s {
          assert rest[k][i] in s[1..];
        }
      }
    }
  }

  /** The first piece of a split is the text up to the first separator. */
  lemma {:induction false} SplitFirst(s: string, c: char)
    ensures StartsWith(s, Split(s, c)[0])
    ensures |Split(s, c)[0]| == |s| || s[|Split(s, c)[0]|] == c
    decreases |s|
  {
    if s != [] && s[0] != c {
      SplitFirst(s[1..], c);
    }
  }

  /** `s.replace(/\s+/g, "")`: removes all white space. */
  function RemoveSpaces(s: string): (r: string)
    ensures forall i :: 0 <= i < |r| ==> !IsSpace(r[i])
    ensures |r| <= |s|
  {
    if s == [] then []
    else if IsSpace(s[0]) then RemoveSpaces(s[1..])
    else [s[0]] + RemoveSpaces(s[1..])
  }

  /** Removing white space keeps only characters of the text. */
  lemma {:induction false} RemoveSpacesChars(s: string)
    ensures CharsFrom(RemoveSpaces(s), s)
    decreases |s|
  {
    if s != [] {
      RemoveSpacesChars(s[1..]);
      var r := RemoveSpaces(s);
      var t := RemoveSpaces(s[1..]);
      forall i | 0 <= i < |t| ensures t[i] in s {
        assert t[i] in s[1..];
      }
    }
  }

  lemma {:induction false} RemoveSpacesNoop(s: string)
    requires forall i :: 0 <= i < |s| ==> !IsSpace(s[i])
    ensures RemoveSpaces(s) == s
  {
    if s != [] {
      RemoveSpacesNoop(s[1..]);
    }
  }

  /** Decimal rendering of an integer, as a template literal prints it. */
  function NatToString(n: nat): (r: string)
    ensures |r| > 0
    ensures forall i :: 0 <= i < |r| ==> '0' <= r[i] <= '9'
    decreases n
  {
    var d := ['0' + (n % 10) as char];
    if n < 10 then d else NatToString(n / 10) + d
  }

  predicate IsDigit(c: char)
  {
    '0' <= c <= '9'
  }

  /** `parseInt(s, 10)`: leading white space is skipped, one optional sign
      is read, then the longest run of decimal digits; with no digit the
      result is NaN, written `None`. */
  function ParseInt(s: string): (r: Option<int>)
    ensures r == None <==>
      var t := TrimStart(s);
      var b := if |t| > 0 && (t[0] == '-' || t[0] == '+') then t[1..] else t;
      b == [] || !IsDigit(b[0])
  {
    var t := TrimStart(s);
    var signed := |t| > 0 && (t[0] == '-' || t[0] == '+');
    var body := if signed then t[1..] else t;
    var digits := TakeUntil(body, c => !IsDigit(c));
    if digits == [] then None
    else if t[0] == '-' then Some(-DigitsValue(digits))
    else Some(DigitsValue(digits))
  }

  /** A non-empty run of digits parses to its value. */
  lemma ParseDigits(s: string)
    requires |s| > 0 && forall i :: 0 <= i < |s| ==> IsDigit(s[i])
    ensures ParseInt(s) == Some(DigitsValue(s))
  {
    assert !IsSpace(s[0]) && s[0] != '-' && s[0] != '+';
    assert TrimStart(s) == s;
    var stop := (c: char) => !IsDigit(c);
    var digits := TakeUntil(s, stop);
    assert |digits| == |s|;
    assert digits == s;
  }

  /** Parsing the decimal rendering of a natural number gives it back. */
  lemma ParseIntRoundTrip(n: nat)
    ensures ParseInt(NatToString(n)) == Some(n)
  {
    ParseDigits(NatToString(n));
    NatToStringRoundTrip(n);
  }

  function IntToString(n: int): string
  {
    if n < 0 then "-" + NatToString(-n) else NatToString(n)
  }

  /** A rendered integer is never the text of NaN. */
  lemma IntToStringNotNaN(n: int)
    ensures IntToString(n) != "NaN"
  {
    var r := IntToString(n);
    if n < 0 {
      assert r[0] == '-';
    } else {
      assert '0' <= r[0] <= '9';
    }
    assert "NaN"[0] == 'N';
  }

  /** Reading the digits of `NatToString(n)` back gives `n`. */
  function DigitsValue(s: string): int
  {
    if s == [] then 0 else 10 * DigitsValue(s[..|s| - 1]) + (s[|s| - 1] as int - '0' as int)
  }

  lemma {:induction false} NatToStringRoundTrip(n: nat)
    ensures DigitsValue(NatToString(n)) == n
    decreases n
  {
    var d := ['0' + (n % 10) as char];
    if n >= 10 {
      NatToStringRoundTrip(n / 10);
      var r := NatToString(n / 10) + d;
      assert r[..|r| - 1] == NatToString(n / 10);
    }
  }
}
