/**
 * The reddit post id extractor, `strip_reddit_id`.
 *
 * The Python function is `re.match(r'.*(?:comments)?\/(\w{6})(?:\/|$)', url)`
 * followed by the first group. Two definitions are given here:
 *  - `RegexMatch` follows the order in which Python's backtracking matcher
 *    tries this particular pattern (longest `.*` first; for each length the
 *    optional `comments` group is tried before the empty alternative);
 *  - `StripRedditId` is a scan for the rightmost slash at which the rest of
 *    the pattern matches.
 * `StripRedditIdIsRegexMatch` proves the two agree on every string.
 */
module RedditId {
  import opened Options

  /** The `{6}` of the pattern: a post id has six word characters. */
  const IdLength: nat := 6

  /** `\w`, restricted to ASCII. */
  predicate IsWordChar(c: char) {
    ('a' <= c <= 'z') || ('A' <= c <= 'Z') || ('0' <= c <= '9') || c == '_'
  }

  predicate AllWordChars(s: string) {
    forall i :: 0 <= i < |s| ==> IsWordChar(s[i])
  }

  /** `.` does not match a newline, so `.*` can only consume newline-free text. */
  predicate NoNewline(s: string) {
    '\n' !in s
  }

  /** `(?:\/|$)` at index `e`: a slash, the end of the string, or (as `$`
      allows in Python) a newline that is the last character. */
  predicate TailAt(url: string, e: nat)
    requires e <= |url|
  {
    e == |url| || url[e] == '/' || (e + 1 == |url| && url[e] == '\n')
  }

  /** `\/(\w{6})(?:\/|$)` matches starting at index `s`. */
  predicate SlashIdAt(url: string, s: nat) {
    s + 1 + IdLength <= |url|
    && url[s] == '/'
    && AllWordChars(url[s + 1 .. s + 1 + IdLength])
    && TailAt(url, s + 1 + IdLength)
  }

  /** The id following the slash at `s`: the pattern's only group. */
  function IdAt(url: string, s: nat): string
    requires SlashIdAt(url, s)
  {
    url[s + 1 .. s + 1 + IdLength]
  }

  /** The slash at `s` can be where the whole pattern matches: `.*` reaches it
      (no newline before it) and the rest of the pattern matches there. */
  predicate Qualifies(url: string, s: nat) {
    SlashIdAt(url, s) && NoNewline(url[..s])
  }

  /** `s` is the rightmost qualifying slash. */
  ghost predicate IsRightmost(url: string, s: nat) {
    Qualifies(url, s) && forall q: nat :: Qualifies(url, q) ==> q <= s
  }

  // ---------------------------------------------------------------------
  // Reference: the backtracking order of `re.match` for this pattern.
  // ---------------------------------------------------------------------

  /** One attempt of the matcher: `.*` consumes exactly `url[..dot]`, and the
      `(?:comments)?` group is taken (`comments`) or skipped. */
  function Attempt(url: string, dot: nat, comments: bool): Option<string>
    requires dot <= |url|
  {
    if !NoNewline(url[..dot]) then None
    else if comments && !(dot + 8 <= |url| && url[dot .. dot + 8] == "comments") then None
    else
      var s := if comments then dot + 8 else dot;
      if SlashIdAt(url, s) then Some(IdAt(url, s)) else None
  }

  /** The attempts for `.*` lengths `dot`, `dot - 1`, ..., `0`, in the order
      a greedy star backtracks; the first success is the match. */
  function Backtrack(url: string, dot: nat): (r: Option<string>)
    requires dot <= |url|
    ensures r.Some? ==> |r.value| == IdLength && AllWordChars(r.value)
    decreases dot
  {
    var taken := Attempt(url, dot, true);
    if taken.Some? then taken
    else
      var skipped := Attempt(url, dot, false);
      if skipped.Some? then skipped
      else if dot == 0 then None
      else Backtrack(url, dot - 1)
  }

  /** The first group of `re.match(pattern, url)`, or `None` when it fails. */
  function RegexMatch(url: string): (r: Option<string>)
    ensures r.Some? ==> |r.value| == IdLength && AllWordChars(r.value)
  {
    Backtrack(url, |url|)
  }

  // ---------------------------------------------------------------------
  // The extractor as a right-to-left scan.
  // ---------------------------------------------------------------------

  /** The largest qualifying position below `n`, if any. */
  function LastQualifying(url: string, n: nat): (r: Option<nat>)
    ensures r.Some? ==> r.value < n && Qualifies(url, r.value)
    ensures r.Some? ==> forall q: nat :: r.value < q < n ==> !Qualifies(url, q)
    ensures r.None? ==> forall q: nat :: q < n ==> !Qualifies(url, q)
    decreases n
  {
    if n == 0 then None
    else if Qualifies(url, n - 1) then Some(n - 1)
    else LastQualifying(url, n - 1)
  }

  /** `strip_reddit_id`: the six word characters after the rightmost slash
      that is followed by them and then by a slash or the end of the url;
      `None` (not an exception) when there is no such slash. */
  function StripRedditId(url: string): (r: Option<string>)
    ensures r.None? <==> forall s: nat :: !Qualifies(url, s)
    ensures r.Some? ==> |r.value| == IdLength && AllWordChars(r.value)
    ensures r.Some? ==> exists s: nat :: IsRightmost(url, s) && r.value == IdAt(url, s)
  {
    match LastQualifying(url, |url|)
    case None => None
    case Some(s) => Some(IdAt(url, s))
  }

  /** Once no position above `dot` qualifies, the backtracking matcher
      returns the id at the last qualifying position up to `dot`. The
      `comments` alternative never wins: the slash it would use lies above
      `dot` and was already tried when `.*` was longer. */
  lemma {:induction false} BacktrackFindsRightmost(url: string, dot: nat)
    requires dot <= |url|
    requires forall q: nat :: dot < q ==> !Qualifies(url, q)
    ensures Backtrack(url, dot) == match LastQualifying(url, dot + 1)
                                   case None => None
                                   case Some(s) => Some(IdAt(url, s))
  {
    if dot + 8 <= |url| && url[dot .. dot + 8] == "comments" && NoNewline(url[..dot]) {
      assert url[..dot + 8] == url[..dot] + url[dot .. dot + 8];
      assert NoNewline(url[..dot + 8]);
      assert !Qualifies(url, dot + 8);
    }
    assert Attempt(url, dot, true) == None;
    if !Qualifies(url, dot) && dot > 0 {
      BacktrackFindsRightmost(url, dot - 1);
    }
  }

  /** The scan and Python's matcher agree on every url. */
  lemma StripRedditIdIsRegexMatch(url: string)
    ensures StripRedditId(url) == RegexMatch(url)
  {
    BacktrackFindsRightmost(url, |url|);
  }

  /** The id is preceded by a slash and followed by a slash or the end of
      the url (or a final newline). */
  lemma IdIsDelimited(url: string, id: string)
    requires StripRedditId(url) == Some(id)
    ensures exists s: nat :: s + 1 + IdLength <= |url| && url[s] == '/'
                          && url[s + 1 .. s + 1 + IdLength] == id
                          && TailAt(url, s + 1 + IdLength)
  {
  }

  /** A qualifying slash with none to its right determines the result. */
  lemma RightmostDetermines(url: string, s: nat)
    requires Qualifies(url, s)
    requires forall q: nat :: s < q < |url| ==> !Qualifies(url, q)
    ensures StripRedditId(url) == Some(IdAt(url, s))
  {
  }

  /** The full link from the docstring yields `84c4kv`: the slash before
      `guikoji` is followed by six word characters but then by `i`. */
  lemma FullLinkExample()
    ensures StripRedditId("https://www.reddit.com/r/bjj/comments/84c4kv/guikoji/") == Some("84c4kv")
  {
    var url := "https://www.reddit.com/r/bjj/comments/84c4kv/guikoji/";
    assert url[38..44] == "84c4kv";
    assert url[..37] == "https://www.reddit.com/r/bjj/comments";
    assert Qualifies(url, 37);
    forall q: nat | 37 < q < |url|
      ensures !Qualifies(url, q)
    {
      if q < 44 {
        assert url[q] in url[38..44];
      } else if 44 < q < 52 {
        assert url[q] in url[45..52];
      }
    }
    RightmostDetermines(url, 37);
  }

  /** A full link whose title slug has exactly six word characters yields
      the slug, not the post id: the slash before the slug also qualifies and
      lies further right. */
  lemma SixCharacterSlugExample()
    ensures Qualifies("https://www.reddit.com/r/bjj/comments/84c4kv/guikoj/", 37)
    ensures StripRedditId("https://www.reddit.com/r/bjj/comments/84c4kv/guikoj/") == Some("guikoj")
  {
    var url := "https://www.reddit.com/r/bjj/comments/84c4kv/guikoj/";
    assert Qualifies(url, 37) by {
      assert url[38..44] == "84c4kv";
      assert url[..37] == "https://www.reddit.com/r/bjj/comments";
    }
    assert Qualifies(url, 44) by {
      assert url[45..51] == "guikoj";
      assert url[..44] == "https://www.reddit.com/r/bjj/comments/84c4kv";
    }
    RightmostDetermines(url, 44);
  }

  /** The short link from the docstring yields the same `84c4kv`. */
  lemma ShortLinkExample()
    ensures StripRedditId("https://redd.it/84c4kv") == Some("84c4kv")
  {
    var url := "https://redd.it/84c4kv";
    assert url[16..22] == "84c4kv";
    assert url[..15] == "https://redd.it";
    RightmostDetermines(url, 15);
  }

  /** A string without a slash yields `None`. */
  lemma NotAUrlExample()
    ensures StripRedditId("not-a-url") == None
  {
  }

  /** The greedy `.*` makes the rightmost of two qualifying slashes win. */
  lemma RightmostWinsExample()
    ensures Qualifies("https://redd.it/aaaaaa/bbbbbb", 15)
    ensures StripRedditId("https://redd.it/aaaaaa/bbbbbb") == Some("bbbbbb")
  {
    var url := "https://redd.it/aaaaaa/bbbbbb";
    assert url[16..22] == "aaaaaa";
    assert url[..15] == "https://redd.it";
    assert url[23..29] == "bbbbbb";
    assert url[..22] == "https://redd.it/aaaaaa";
    RightmostDetermines(url, 22);
  }
}
