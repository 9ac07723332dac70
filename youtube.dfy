/** The pure part of the YouTube client (lib/youtube.ts): recognising a
    video id in a URL, turning the API's HTML comment text into plain text,
    and building a comment record from an API comment.

    `new URL(...)` is not modelled: a URL parser is passed in as a function
    from the string to its host name, path and `v` query value, `None`
    standing for the constructor throwing. */
module YouTube {
  import opened Wrappers
  import opened Text
  import opened Types

  /** What `new URL(s)` yields that `parseVideoId` reads. */
  datatype ParsedUrl = ParsedUrl(hostname: string, pathname: string, v: Option<string>)

  type UrlParser = string -> Option<ParsedUrl>

  /** A character of `[a-zA-Z0-9_-]`. */
  predicate IsIdChar(c: char)
  {
    ('a' <= c <= 'z') || ('A' <= c <= 'Z') || ('0' <= c <= '9') || c == '_' || c == '-'
  }

  /** `/^[a-zA-Z0-9_-]{11}$/.test(s)` */
  predicate IsVideoToken(s: string)
  {
    |s| == 11 && forall i :: 0 <= i < |s| ==> IsIdChar(s[i])
  }

  /** `/^\/(shorts|embed|v)\/([a-zA-Z0-9_-]{11})/` on a path: the second
      group when the path starts with one of the three prefixes followed by
      11 id characters (anything may follow them). */
  function PathToken(path: string): (r: Option<string>)
    ensures r.Some? ==> IsVideoToken(r.value)
  {
    var prefix :=
      if StartsWith(path, "/shorts/") then "/shorts/"
      else if StartsWith(path, "/embed/") then "/embed/"
      else if StartsWith(path, "/v/") then "/v/"
      else "";
    if prefix != "" && |path| >= |prefix| + 11 && IsVideoToken(path[|prefix|..|prefix| + 11])
    then Some(path[|prefix|..|prefix| + 11])
    else None
  }

  /** `parsed.hostname.replace("www.", "")`: the first occurrence only. */
  function StripWww(hostname: string): string
  {
    ReplaceFirst(hostname, "www.", "")
  }

  predicate IsYouTubeHost(host: string)
  {
    host == "youtube.com" || host == "m.youtube.com"
  }

  /** The watch page of a video, the link the components give a video and
      its comments. */
  const WatchPrefix: string := "https://www.youtube.com/watch?v="

  /** `parseVideoId(url)` */
  function ParseVideoId(url: string, parse: UrlParser): Option<string>
  {
    if url == "" then None
    else if IsVideoToken(Trim(url)) then Some(Trim(url))
    else match parse(Trim(url))
      case None => None
      case Some(p) => FromParsedUrl(p)
  }

  /** The part of `parseVideoId` after `new URL` succeeded. */
  function FromParsedUrl(p: ParsedUrl): Option<string>
  {
    var host := StripWww(p.hostname);
    if IsYouTubeHost(host) && p.pathname == "/watch" then p.v
    else if IsYouTubeHost(host) && PathToken(p.pathname).Some? then PathToken(p.pathname)
    else if host == "youtu.be" && IsVideoToken(Slice1(p.pathname)) then Some(Slice1(p.pathname))
    else None
  }

  /** `s.slice(1)` */
  function Slice1(s: string): string
  {
    if s == [] then [] else s[1..]
  }

  /** Every id the parser returns is an 11-character token, except the `v`
      query value of a `/watch` URL, which is passed through unchecked. */
  lemma ParseVideoIdResult(url: string, parse: UrlParser)
    ensures url == "" ==> ParseVideoId(url, parse) == None
    ensures ParseVideoId(url, parse).Some? ==>
      IsVideoToken(ParseVideoId(url, parse).value)
      || (parse(Trim(url)).Some?
          && IsYouTubeHost(StripWww(parse(Trim(url)).value.hostname))
          && parse(Trim(url)).value.pathname == "/watch"
          && ParseVideoId(url, parse) == parse(Trim(url)).value.v)
  {
  }

  /** A bare id, surrounded by white space or not, is returned trimmed
      without consulting the URL parser. */
  lemma ParseBareId(url: string, parse: UrlParser)
    requires IsVideoToken(Trim(url))
    ensures ParseVideoId(url, parse) == Some(Trim(url))
  {
  }

  /** Removing the first "www." from "www." + host gives host back. */
  lemma StripWwwPrefix(host: string)
    ensures StripWww("www." + host) == host
  {
    assert StartsWith("www." + host, "www.");
    assert ("www." + host)[4..] == host;
  }

  /** A host the parser does not know yields null rather than an error. */
  lemma ParseOtherHost(url: string, parse: UrlParser)
    requires url != "" && !IsVideoToken(Trim(url)) && parse(Trim(url)).Some?
    requires !IsYouTubeHost(StripWww(parse(Trim(url)).value.hostname))
    requires StripWww(parse(Trim(url)).value.hostname) != "youtu.be"
    ensures ParseVideoId(url, parse) == None
  {
  }

  /** A host with no "w" is unchanged by the "www." removal. */
  lemma StripWwwNoW(host: string)
    requires 'w' !in host
    ensures StripWww(host) == host
  {
    AbsentHeadNotContained(host, "www.");
    ReplaceFirstAbsent(host, "www.", "");
  }

  /** `https://www.youtube.com/watch?v=...` yields the `v` value as is. */
  lemma ParseWatch(v: Option<string>)
    ensures FromParsedUrl(ParsedUrl("www.youtube.com", "/watch", v)) == v
  {
    StripWwwYouTube();
  }

  /** The "www." of the YouTube host is removed. */
  lemma StripWwwYouTube()
    ensures StripWww("www.youtube.com") == "youtube.com"
  {
    StripWwwPrefix("youtube.com");
    assert "www." + "youtube.com" == "www.youtube.com";
  }

  /** On a YouTube host, any path but `/watch` is read by the path
      pattern alone. */
  lemma FromYouTubePath(p: ParsedUrl)
    requires IsYouTubeHost(StripWww(p.hostname)) && p.pathname != "/watch"
    ensures FromParsedUrl(p) == PathToken(p.pathname)
  {
  }

  /** On the short-link host the path after its slash is the id, if it is
      a token. */
  lemma FromShortLinkHost(p: ParsedUrl)
    requires StripWww(p.hostname) == "youtu.be"
    ensures FromParsedUrl(p) == if IsVideoToken(Slice1(p.pathname)) then Some(Slice1(p.pathname)) else None
  {
    assert !IsYouTubeHost("youtu.be") by {
      assert |"youtu.be"| == 8;
    }
  }

  /** `https://m.youtube.com/shorts/<id>...` yields the id. */
  lemma ParseShorts(id: string, rest: string)
    requires IsVideoToken(id)
    ensures FromParsedUrl(ParsedUrl("m.youtube.com", "/shorts/" + id + rest, None)) == Some(id)
  {
    StripWwwNoW("m.youtube.com");
    var s := "/shorts/" + id + rest;
    assert s != "/watch" by { assert |s| > 6; }
    FromYouTubePath(ParsedUrl("m.youtube.com", s, None));
    assert StartsWith(s, "/shorts/");
    assert s[8..19] == id;
  }

  /** `https://youtube.com/embed/<id>...` yields the id. */
  lemma ParseEmbed(id: string, rest: string)
    requires IsVideoToken(id)
    ensures FromParsedUrl(ParsedUrl("youtube.com", "/embed/" + id + rest, None)) == Some(id)
  {
    StripWwwNoW("youtube.com");
    EmbedPathToken(id, rest);
    assert "/embed/" + id + rest != "/watch" by { assert |"/embed/" + id + rest| > 6; }
    FromYouTubePath(ParsedUrl("youtube.com", "/embed/" + id + rest, None));
  }

  /** The embed prefix is recognised and the id after it read. */
  lemma EmbedPathToken(id: string, rest: string)
    requires IsVideoToken(id)
    ensures PathToken("/embed/" + id + rest) == Some(id)
  {
    var e := "/embed/" + id + rest;
    assert !StartsWith(e, "/shorts/") by { assert e[..8][1] == 'e'; }
    assert StartsWith(e, "/embed/");
    assert e[7..18] == id;
  }

  /** `https://youtu.be/<id>` yields the id. */
  lemma ParseShortLink(id: string)
    requires IsVideoToken(id)
    ensures FromParsedUrl(ParsedUrl("youtu.be", "/" + id, None)) == Some(id)
  {
    StripWwwNoW("youtu.be");
    FromShortLinkHost(ParsedUrl("youtu.be", "/" + id, None));
    assert Slice1("/" + id) == id;
  }

  // ---------------------------------------------------------------------
  // stripHtml

  /** The number of leading white-space characters (`\s*`). */
  function SpaceRun(s: string): (n: nat)
    ensures n <= |s|
    ensures forall i :: 0 <= i < n ==> IsSpace(s[i])
    ensures n == |s| || !IsSpace(s[n])
  {
    if s != [] && IsSpace(s[0]) then 1 + SpaceRun(s[1..]) else 0
  }

  /** The length of a match of `/<br\s*\/?>/i` at the start of `s`, or 0. */
  function BrLen(s: string): (n: nat)
    ensures n <= |s|
    ensures n > 0 ==> n >= 4 && s[0] == '<' && s[n - 1] == '>'
  {
    if |s| >= 3 && s[0] == '<' && (s[1] == 'b' || s[1] == 'B') && (s[2] == 'r' || s[2] == 'R') then
      var k := 3 + SpaceRun(s[3..]);
      if k < |s| && s[k] == '>' then k + 1
      else if k + 1 < |s| && s[k] == '/' && s[k + 1] == '>' then k + 2
      else 0
    else 0
  }

  /** `.replace(/<br\s*\/?>/gi, "\n")` */
  function BrToNewline(s: string): string
  {
    if s == [] then []
    else if BrLen(s) > 0 then "\n" + BrToNewline(s[BrLen(s)..])
    else [s[0]] + BrToNewline(s[1..])
  }

  /** A run of white space followed by something else is matched whole. */
  lemma {:induction false} SpaceRunPrefix(sp: string, t: string)
    requires forall i :: 0 <= i < |sp| ==> IsSpace(sp[i])
    requires t == [] || !IsSpace(t[0])
    ensures SpaceRun(sp + t) == |sp|
  {
    if sp == [] {
      assert sp + t == t;
    } else {
      assert (sp + t)[1..] == sp[1..] + t;
      SpaceRunPrefix(sp[1..], t);
    }
  }

  /** Every spelling of the line break, in either case, with any white
      space before an optional "/", becomes one newline. */
  lemma BrMatch(b: char, r: char, sp: string, closing: string, rest: string)
    requires b == 'b' || b == 'B'
    requires r == 'r' || r == 'R'
    requires forall i :: 0 <= i < |sp| ==> IsSpace(sp[i])
    requires closing == ">" || closing == "/>"
    ensures BrToNewline(['<', b, r] + sp + closing + rest) == "\n" + BrToNewline(rest)
  {
    var s := ['<', b, r] + sp + closing + rest;
    assert s[3..] == sp + (closing + rest);
    assert !IsSpace(closing[0]);
    SpaceRunPrefix(sp, closing + rest);
    assert BrLen(s) == 3 + |sp| + |closing|;
    assert s[BrLen(s)..] == rest;
  }

  /** The index of the first `c` in `s`, or -1. */
  function IndexOf(s: string, c: char): (r: int)
    ensures -1 <= r < |s|
    ensures r == -1 <==> c !in s
    ensures r >= 0 ==> s[r] == c && c !in s[..r]
  {
    if s == [] then -1
    else if s[0] == c then 0
    else
      var k := IndexOf(s[1..], c);
      if k == -1 then -1
      else
        assert s[..k + 1] == [s[0]] + s[1..][..k];
        k + 1
  }

  /** `.replace(/<[^>]*>/g, "")`: a `<` together with everything up to the
      next `>` is deleted; a `<` with no `>` after it stays. */
  function RemoveTags(s: string): string
  {
    if s == [] then []
    else if s[0] == '<' && IndexOf(s[1..], '>') >= 0 then RemoveTags(s[IndexOf(s[1..], '>') + 2..])
    else [s[0]] + RemoveTags(s[1..])
  }

  /** The entity decoding of the YouTube client, in its order. */
  function DecodeEntities(s: string): string
  {
    var a := ReplaceAll(s, "&amp;", "&");
    var b := ReplaceAll(a, "&lt;", "<");
    var c := ReplaceAll(b, "&gt;", ">");
    var d := ReplaceAll(c, "&quot;", "\"");
    ReplaceAll(d, "&#39;", "'")
  }

  /** `stripHtml(html)` of the YouTube client. */
  function StripHtml(html: string): string
  {
    DecodeEntities(RemoveTags(BrToNewline(html)))
  }

  /** No `<` is followed, anywhere later, by a `>`. */
  predicate NoTag(r: string)
  {
    forall i, j :: 0 <= i < j < |r| && r[i] == '<' ==> r[j] != '>'
  }

  /** After tag removal no `<` is followed, anywhere later, by a `>`: no
      complete tag is left. */
  lemma {:induction false} RemoveTagsLeavesNoTag(s: string)
    ensures NoTag(RemoveTags(s))
    ensures '>' !in s ==> RemoveTags(s) == s
    ensures forall c :: c in RemoveTags(s) ==> c in s
  {
    RemoveTagsChars(s);
    RemoveTagsNoClose(s);
    if s != [] {
      var k := IndexOf(s[1..], '>');
      if s[0] == '<' && k >= 0 {
        RemoveTagsLeavesNoTag(s[k + 2..]);
        assert RemoveTags(s) == RemoveTags(s[k + 2..]);
      } else {
        RemoveTagsLeavesNoTag(s[1..]);
        assert RemoveTags(s) == [s[0]] + RemoveTags(s[1..]);
        if s[0] == '<' {
          assert '>' !in s[1..];
          RemoveTagsChars(s[1..]);
        }
        NoTagCons(s[0], RemoveTags(s[1..]));
      }
    }
  }

  /** Tag removal only deletes characters. */
  lemma {:induction false} RemoveTagsChars(s: string)
    ensures forall c :: c in RemoveTags(s) ==> c in s
  {
    if s != [] {
      var k := IndexOf(s[1..], '>');
      if s[0] == '<' && k >= 0 {
        RemoveTagsChars(s[k + 2..]);
        SuffixChars(s, k + 2);
      } else {
        RemoveTagsChars(s[1..]);
        SuffixChars(s, 1);
      }
    }
  }

  /** Without a `>` there is no tag to remove. */
  lemma {:induction false} RemoveTagsNoClose(s: string)
    ensures '>' !in s ==> RemoveTags(s) == s
  {
    if s != [] && '>' !in s {
      assert '>' !in s[1..] by { SuffixChars(s, 1); }
      RemoveTagsNoClose(s[1..]);
      assert [s[0]] + s[1..] == s;
    }
  }

  /** A suffix holds only characters of the whole. */
  lemma SuffixChars(s: string, n: nat)
    requires n <= |s|
    ensures forall c :: c in s[n..] ==> c in s
  {
    forall c | c in s[n..] ensures c in s {
      var i :| 0 <= i < |s[n..]| && s[n..][i] == c;
      assert s[n + i] == c;
    }
  }

  /** A character before a tag-free text keeps it tag-free unless it opens a
      tag the text closes. */
  lemma NoTagCons(c: char, rest: string)
    requires NoTag(rest) && (c == '<' ==> '>' !in rest)
    ensures NoTag([c] + rest)
  {
    var r := [c] + rest;
    forall i, j | 0 <= i < j < |r| && r[i] == '<' ensures r[j] != '>' {
      assert r[j] == rest[j - 1];
      if i > 0 {
        assert r[i] == rest[i - 1];
      }
    }
  }

  lemma {:induction false} RemoveTagsNoLt(s: string)
    requires '<' !in s
    ensures RemoveTags(s) == s
  {
    if s != [] {
      RemoveTagsNoLt(s[1..]);
    }
  }

  lemma {:induction false} BrToNewlineNoLt(s: string)
    requires '<' !in s
    ensures BrToNewline(s) == s
  {
    if s != [] {
      BrToNewlineNoLt(s[1..]);
    }
  }

  lemma DecodeNoAmp(s: string)
    requires '&' !in s
    ensures DecodeEntities(s) == s
  {
    AbsentHeadNotContained(s, "&amp;");
    ReplaceAllAbsent(s, "&amp;", "&");
    AbsentHeadNotContained(s, "&lt;");
    ReplaceAllAbsent(s, "&lt;", "<");
    AbsentHeadNotContained(s, "&gt;");
    ReplaceAllAbsent(s, "&gt;", ">");
    AbsentHeadNotContained(s, "&quot;");
    ReplaceAllAbsent(s, "&quot;", "\"");
    AbsentHeadNotContained(s, "&#39;");
    ReplaceAllAbsent(s, "&#39;", "'");
  }

  /** Text with no markup and no entity comes through unchanged. */
  lemma StripHtmlPlain(s: string)
    requires '<' !in s && '&' !in s
    ensures StripHtml(s) == s
  {
    BrToNewlineNoLt(s);
    RemoveTagsNoLt(s);
    DecodeNoAmp(s);
  }

  /** A plain `<br>` becomes a newline. */
  lemma BrExample()
    ensures BrToNewline("a<br>b") == "a\nb"
  {
    assert BrLen("<br>b") == 4;
    assert BrToNewline("a<br>b") == "a" + BrToNewline("<br>b");
    assert BrToNewline("<br>b") == "\n" + BrToNewline("b");
  }

  /** An upper-case, self-closing `<BR />` becomes a newline too. */
  lemma BrSelfClosingExample()
    ensures BrToNewline("<BR />") == "\n"
  {
    assert SpaceRun(" />") == 1;
    assert BrLen("<BR />") == 6;
    assert BrToNewline("<BR />") == "\n" + BrToNewline("");
  }

  /** Other tags vanish with their brackets. */
  lemma TagExample()
    ensures RemoveTags("<i>x") == "x"
  {
    var s := "<i>x";
    assert s[1..] == "i>x";
    assert IndexOf("i>x", '>') == 1 by {
      assert "i>x"[1..] == ">x";
      assert IndexOf(">x", '>') == 0;
    }
    assert s[3..] == "x";
    assert RemoveTags(s) == RemoveTags("x");
    assert RemoveTags("x") == "x" + RemoveTags("");
  }

  /** `&amp;` is decoded first, so an escaped entity is decoded twice. */
  lemma DoubleDecodeExample()
    ensures DecodeEntities("&amp;lt;") == "<"
  {
    assert ReplaceAll("&amp;lt;", "&amp;", "&") == "&lt;" by {
      assert StartsWith("&amp;lt;", "&amp;");
      assert "&amp;lt;"[5..] == "lt;";
      assert ReplaceAll("lt;", "&amp;", "&") == "lt;";
    }
    assert ReplaceAll("&lt;", "&lt;", "<") == "<" by {
      assert StartsWith("&lt;", "&lt;");
      assert "&lt;"[4..] == "";
    }
    assert ReplaceAll("<", "&gt;", ">") == "<";
    assert ReplaceAll("<", "&quot;", "\"") == "<";
    assert ReplaceAll("<", "&#39;", "'") == "<";
  }

  // ---------------------------------------------------------------------
  // mapComment

  /** The fields of an API comment that `mapComment` reads. */
  datatype ApiComment = ApiComment(
    id: string,
    textOriginal: string,
    textDisplay: string,
    authorDisplayName: string,
    authorChannelId: Option<string>,
    authorChannelUrl: Option<string>,
    likeCount: int,
    publishedAt: string,
    updatedAt: int)

  /** `mapComment(c, videoId, videoUrl, threadId, parentId)`; the clock
      reading for `fetched_at` is a parameter. */
  function MapComment(c: ApiComment, videoId: string, videoUrl: string, threadId: string,
                      parentId: Option<string>, fetchedAt: string): CommentRecord
  {
    CommentRecord(
      videoId, videoUrl, c.id, threadId, parentId, parentId.Some?,
      c.authorDisplayName, c.authorChannelId.GetOr(""), c.authorChannelUrl.GetOr(""),
      c.textOriginal, StripHtml(c.textDisplay), c.likeCount, c.publishedAt, c.updatedAt,
      fetchedAt, CommentSource)
  }

  /** A record is a reply exactly when it has a parent; it keeps the API
      id, falls back to "" for a missing channel, and its plain text is the
      API's display text when that holds no markup or entity. */
  lemma MapCommentSpec(c: ApiComment, videoId: string, videoUrl: string, threadId: string,
                       parentId: Option<string>, fetchedAt: string)
    ensures var r := MapComment(c, videoId, videoUrl, threadId, parentId, fetchedAt);
      && r.commentId == c.id
      && (r.isReply <==> r.parentId.Some?)
      && (c.authorChannelId.None? ==> r.authorChannelId == "")
      && (c.authorChannelUrl.None? ==> r.authorProfileUrl == "")
      && r.source == "youtube_api"
      && ('<' !in c.textDisplay && '&' !in c.textDisplay ==> r.textPlain == c.textDisplay)
  {
    if '<' !in c.textDisplay && '&' !in c.textDisplay {
      StripHtmlPlain(c.textDisplay);
    }
  }
}
