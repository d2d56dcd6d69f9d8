/**
 * The embed-URL normaliser of src/media.js (`convertToEmbedUrl`): a YouTube
 * page URL is rewritten to the player URL `https://www.youtube.com/embed/<id>`.
 * The two regular expressions the source uses are written out as functions
 * with the leftmost-match, ordered-alternative and greedy-backtracking
 * semantics of JavaScript regular expressions.
 */
module EmbedUrl {
  import opened Wrappers
  import opened Json

  const EMBED_PREFIX := "https://www.youtube.com/embed/"
  const EMBED_MARK := "youtube.com/embed/"
  const NOCOOKIE_MARK := "youtube-nocookie.com/embed/"
  /** The literal that opens the watch-form regular expression. */
  const WATCH_HOST := "youtube.com/"
  /** The literal that opens the short-link regular expression. */
  const SHORT_HOST := "youtu.be/"

  predicate OccursAt(s: string, p: string, i: nat) {
    i + |p| <= |s| && s[i..i + |p|] == p
  }

  /** `s.includes(p)` */
  predicate Contains(s: string, p: string) {
    exists i :: 0 <= i <= |s| && OccursAt(s, p, i)
  }

  /** The class `[^&?%#]` of the capture group. */
  predicate IdChar(c: char) {
    c != '&' && c != '?' && c != '%' && c != '#'
  }

  /** The class `\w`. */
  predicate WordChar(c: char) {
    ('a' <= c <= 'z') || ('A' <= c <= 'Z') || ('0' <= c <= '9') || c == '_'
  }

  predicate NotSlash(c: char) {
    c != '/'
  }

  /** The class `.`: every character but a line terminator. */
  predicate NotLineTerminator(c: char) {
    c != '\n' && c != '\r' && c != '\U{2028}' && c != '\U{2029}'
  }

  /** A video identifier as the capture `([^&?%#]+)` yields it. */
  predicate IsVideoId(id: string) {
    id != [] && forall k :: 0 <= k < |id| ==> IdChar(id[k])
  }

  /** A slash at `t` followed by an identifier character: `\/([^&?%#]+)` can match there. */
  predicate SlashCapturable(s: string, t: nat) {
    t + 1 < |s| && s[t] == '/' && IdChar(s[t + 1])
  }

  /** `id` occurs at `i` in `s` and is a maximal run of identifier characters there. */
  predicate MaximalIdAt(s: string, id: string, i: nat) {
    OccursAt(s, id, i) && IsVideoId(id) && (i + |id| == |s| || !IdChar(s[i + |id|]))
  }

  /** The length of the longest run of characters satisfying `p` that starts at `i` (a greedy `p*`). */
  function Run(s: string, i: nat, p: char -> bool): (n: nat)
    requires i <= |s|
    ensures i + n <= |s|
    ensures forall k :: i <= k < i + n ==> p(s[k])
    ensures i + n < |s| ==> !p(s[i + n])
    decreases |s| - i
  {
    if i < |s| && p(s[i]) then 1 + Run(s, i + 1, p) else 0
  }

  /** The greedy capture `([^&?%#]+)` at position `i`, when it matches there. */
  function CaptureAt(s: string, i: nat): (r: Option<string>)
    requires i <= |s|
    ensures r.Some? <==> i < |s| && IdChar(s[i])
    ensures r.Some? ==> MaximalIdAt(s, r.value, i)
  {
    var n := Run(s, i, IdChar);
    if n == 0 then None else Some(s[i..i + n])
  }

  /**
   * The tail `.+\/([^&?%#]+)` of the first alternative, where the `.+` may end
   * at any slash position t in [lo, hi): greedy matching tries the last slash
   * first and backtracks to earlier ones while the capture after the slash is
   * empty.
   */
  function LastSlashCapture(s: string, lo: nat, hi: nat): (r: Option<string>)
    requires hi <= |s|
    ensures r.Some? ==> exists t :: lo <= t < hi && s[t] == '/' && MaximalIdAt(s, r.value, t + 1)
    decreases hi
  {
    if hi <= lo then None
    else
      var t := hi - 1;
      if SlashCapturable(s, t) then CaptureAt(s, t + 1)
      else LastSlashCapture(s, lo, t)
  }

  /**
   * The greedy `.+` ends at the last slash in range that a non-empty capture
   * follows: the result is the capture after that slash.
   */
  lemma {:induction false} LastSlashCaptureIsLast(s: string, lo: nat, hi: nat, t: nat)
    requires hi <= |s| && LastCapturable(s, lo, hi, t)
    ensures LastSlashCapture(s, lo, hi) == CaptureAt(s, t + 1)
    decreases hi
  {
    if t + 1 < hi {
      assert !SlashCapturable(s, hi - 1);
      LastSlashCaptureSkip(s, lo, hi);
      LastSlashCaptureIsLast(s, lo, hi - 1, t);
    }
  }

  /** A slash that no capture follows is backtracked over. */
  lemma LastSlashCaptureSkip(s: string, lo: nat, hi: nat)
    requires lo < hi <= |s| && !SlashCapturable(s, hi - 1)
    ensures LastSlashCapture(s, lo, hi) == LastSlashCapture(s, lo, hi - 1)
  {
  }

  /** With no slash in range that a non-empty capture follows, the tail fails. */
  lemma {:induction false} LastSlashCaptureNone(s: string, lo: nat, hi: nat)
    requires hi <= |s| && forall u :: lo <= u < hi ==> !SlashCapturable(s, u)
    ensures LastSlashCapture(s, lo, hi).None?
    decreases hi
  {
    if hi > lo {
      assert !SlashCapturable(s, hi - 1);
      LastSlashCaptureNone(s, lo, hi - 1);
    }
  }

  /** `t` is the last slash in [lo, hi) that a non-empty capture follows. */
  predicate LastCapturable(s: string, lo: nat, hi: nat, t: nat) {
    lo <= t < hi && SlashCapturable(s, t) && forall u :: t < u < hi ==> !SlashCapturable(s, u)
  }

  /**
   * Alternative `[^\/]+\/.+\/` followed by the capture, at position `q`.
   * `[^\/]+` can only end at the first slash after `q` (a shorter run would be
   * followed by a character that is not a slash), and `.+` cannot run past a
   * line terminator.
   */
  function PathAlternative(s: string, q: nat): (r: Option<string>)
    requires q <= |s|
    ensures q < |s| && s[q] == '/' ==> r.None?
    ensures r.Some? ==> && q < |s| && s[q] != '/'
                        && exists t :: q < t < |s| && s[t] == '/' && MaximalIdAt(s, r.value, t + 1)
  {
    var m := Run(s, q, NotSlash);
    var slash := q + m;
    if m == 0 || slash == |s| then None
    else
      var lineEnd := slash + 1 + Run(s, slash + 1, NotLineTerminator);
      LastSlashCapture(s, slash + 2, lineEnd)
  }

  /** Alternative `\w\/\w\/` followed by the capture, at position `q`. */
  function TwoLetterAlternative(s: string, q: nat): (r: Option<string>)
    requires q <= |s|
    ensures r.Some? <==> q + 4 < |s| && WordChar(s[q]) && s[q + 1] == '/' && WordChar(s[q + 2]) && s[q + 3] == '/' && IdChar(s[q + 4])
    ensures r.Some? ==> MaximalIdAt(s, r.value, q + 4)
  {
    if q + 4 <= |s| && WordChar(s[q]) && s[q + 1] == '/' && WordChar(s[q + 2]) && s[q + 3] == '/'
    then CaptureAt(s, q + 4)
    else None
  }

  /** A literal alternative (`v=` or `watch\?v=`) followed by the capture, at position `q`. */
  function LiteralAlternative(s: string, q: nat, lit: string): (r: Option<string>)
    requires q <= |s|
    ensures r.Some? <==> OccursAt(s, lit, q) && q + |lit| < |s| && IdChar(s[q + |lit|])
    ensures r.Some? ==> MaximalIdAt(s, r.value, q + |lit|)
  {
    if OccursAt(s, lit, q) then CaptureAt(s, q + |lit|) else None
  }

  /** The four alternatives after `youtube\.com\/`, tried in the order written. */
  function WatchAlternatives(s: string, q: nat): (r: Option<string>)
    requires q <= |s|
    ensures r.Some? ==> IsVideoId(r.value) && exists t :: q <= t <= |s| && MaximalIdAt(s, r.value, t)
    ensures r.Some? <==> || PathAlternative(s, q).Some? || TwoLetterAlternative(s, q).Some?
                         || LiteralAlternative(s, q, "v=").Some? || LiteralAlternative(s, q, "watch?v=").Some?
    ensures PathAlternative(s, q).Some? ==> r == PathAlternative(s, q)
    ensures PathAlternative(s, q).None? && TwoLetterAlternative(s, q).Some? ==> r == TwoLetterAlternative(s, q)
    ensures PathAlternative(s, q).None? && TwoLetterAlternative(s, q).None? && LiteralAlternative(s, q, "v=").Some? ==>
      r == LiteralAlternative(s, q, "v=")
    ensures PathAlternative(s, q).None? && TwoLetterAlternative(s, q).None? && LiteralAlternative(s, q, "v=").None? ==>
      r == LiteralAlternative(s, q, "watch?v=")
  {
    var a := PathAlternative(s, q);
    if a.Some? then a
    else
      var b := TwoLetterAlternative(s, q);
      if b.Some? then b
      else
        var c := LiteralAlternative(s, q, "v=");
        if c.Some? then c else LiteralAlternative(s, q, "watch?v=")
  }

  /**
   * Capture group 1 of
   * `/(?:youtube\.com\/(?:[^\/]+\/.+\/|\w\/\w\/|v=|watch\?v=))([^&?%#]+)/`,
   * searching for the leftmost match at or after position `i`.
   */
  function WatchMatch(s: string, i: nat): (r: Option<string>)
    requires i <= |s|
    ensures r.Some? ==> IsVideoId(r.value) && exists t :: i <= t <= |s| && MaximalIdAt(s, r.value, t)
    decreases |s| - i
  {
    if i + |WATCH_HOST| > |s| then None
    else if WatchMatchesAt(s, i) then
      WatchAlternatives(s, i + |WATCH_HOST|)
    else WatchMatch(s, i + 1)
  }

  /** The watch-form expression matches with its match starting at `t`. */
  predicate WatchMatchesAt(s: string, t: nat) {
    OccursAt(s, WATCH_HOST, t) && WatchAlternatives(s, t + |WATCH_HOST|).Some?
  }

  /** The watch-form search returns the alternatives of the leftmost match. */
  lemma {:induction false} WatchMatchLeftmost(s: string, i: nat, t: nat)
    requires FirstWatchMatch(s, i, t)
    ensures WatchMatch(s, i) == WatchAlternatives(s, t + |WATCH_HOST|)
    decreases |s| - i
  {
    if i < t {
      assert !WatchMatchesAt(s, i);
      assert FirstWatchMatch(s, i + 1, t);
      WatchMatchLeftmost(s, i + 1, t);
    }
  }

  /** When no watch-form match starts at or after `i`, the search finds none. */
  lemma {:induction false} WatchMatchNone(s: string, i: nat)
    requires i <= |s| && forall t :: i <= t <= |s| ==> !WatchMatchesAt(s, t)
    ensures WatchMatch(s, i).None?
    decreases |s| - i
  {
    if i + |WATCH_HOST| <= |s| {
      assert !WatchMatchesAt(s, i);
      WatchMatchNone(s, i + 1);
    }
  }

  /** The watch-form match at `t` is the leftmost one at or after `i`. */
  predicate FirstWatchMatch(s: string, i: nat, t: nat) {
    i <= t <= |s| && WatchMatchesAt(s, t) && forall u :: i <= u < t ==> !WatchMatchesAt(s, u)
  }

  /** Capture group 1 of `/youtu\.be\/([^&?%#]+)/`, leftmost match at or after `i`. */
  function ShortMatch(s: string, i: nat): (r: Option<string>)
    requires i <= |s|
    ensures r.Some? ==> exists t :: i <= t <= |s| && OccursAt(s, SHORT_HOST, t) && MaximalIdAt(s, r.value, t + |SHORT_HOST|)
    decreases |s| - i
  {
    if i + |SHORT_HOST| > |s| then None
    else if ShortMatchesAt(s, i) then
      CaptureAt(s, i + |SHORT_HOST|)
    else ShortMatch(s, i + 1)
  }

  /** The short-link expression matches with its match starting at `t`. */
  predicate ShortMatchesAt(s: string, t: nat) {
    OccursAt(s, SHORT_HOST, t) && t + |SHORT_HOST| < |s| && IdChar(s[t + |SHORT_HOST|])
  }

  /** The short-link search returns the capture of the leftmost match. */
  lemma {:induction false} ShortMatchLeftmost(s: string, i: nat, t: nat)
    requires FirstShortMatch(s, i, t)
    ensures ShortMatch(s, i) == CaptureAt(s, t + |SHORT_HOST|)
    decreases |s| - i
  {
    if i < t {
      assert !ShortMatchesAt(s, i);
      assert FirstShortMatch(s, i + 1, t);
      ShortMatchLeftmost(s, i + 1, t);
    }
  }

  /** When no short-link match starts at or after `i`, the search finds none. */
  lemma {:induction false} ShortMatchNone(s: string, i: nat)
    requires i <= |s| && forall t :: i <= t <= |s| ==> !ShortMatchesAt(s, t)
    ensures ShortMatch(s, i).None?
    decreases |s| - i
  {
    if i + |SHORT_HOST| <= |s| {
      assert !ShortMatchesAt(s, i);
      ShortMatchNone(s, i + 1);
    }
  }

  /** The short-link match at `t` is the leftmost one at or after `i`. */
  predicate FirstShortMatch(s: string, i: nat, t: nat) {
    i <= t <= |s| && ShortMatchesAt(s, t) && forall u :: i <= u < t ==> !ShortMatchesAt(s, u)
  }

  /** The video identifier: the watch form first, the short link only when it fails. */
  function VideoId(url: string): (r: Option<string>)
    ensures r.Some? ==> IsVideoId(r.value) && exists i :: 0 <= i <= |url| && MaximalIdAt(url, r.value, i)
    ensures WatchMatch(url, 0).Some? ==> r == WatchMatch(url, 0)
    ensures WatchMatch(url, 0).None? ==> r == ShortMatch(url, 0)
  {
    var w := WatchMatch(url, 0);
    if w.Some? then w else ShortMatch(url, 0)
  }

  /** `convertToEmbedUrl` on a string argument. */
  function Normalise(url: string): (r: string)
    ensures url == "" ==> r == ""
    ensures url != "" && (Contains(url, EMBED_MARK) || Contains(url, NOCOOKIE_MARK)) ==> r == url
    ensures r == url || exists id, i :: r == EMBED_PREFIX + id && MaximalIdAt(url, id, i)
  {
    if url == "" then ""
    else if Contains(url, EMBED_MARK) || Contains(url, NOCOOKIE_MARK) then url
    else
      var id := VideoId(url);
      if id.Some? then EMBED_PREFIX + id.value else url
  }

  /**
   * `convertToEmbedUrl(url)` for any JavaScript argument; None stands for
   * `undefined`. Anything that is not a non-empty string gives ''.
   */
  function ConvertToEmbedUrl(url: Option<Json>): (r: string)
    ensures !(url.Some? && url.value.JStr? && url.value.s != "") ==> r == ""
    ensures url.Some? && url.value.JStr? ==> r == Normalise(url.value.s)
  {
    if url.Some? && url.value.JStr? then Normalise(url.value.s) else ""
  }

  /** Every URL the normaliser builds carries the embed mark. */
  lemma EmbedPrefixIsMarked(id: string)
    ensures Contains(EMBED_PREFIX + id, EMBED_MARK)
  {
    assert OccursAt(EMBED_PREFIX + id, EMBED_MARK, 12);
  }

  /** Normalising twice is normalising once: a built URL hits the early return. */
  lemma NormaliseIdempotent(url: string)
    ensures Normalise(Normalise(url)) == Normalise(url)
  {
    var r := Normalise(url);
    if r != url {
      var id := VideoId(url).value;
      EmbedPrefixIsMarked(id);
    }
  }

  /** `convertToEmbedUrl` is idempotent on every argument. */
  lemma ConvertIdempotent(url: Option<Json>)
    ensures ConvertToEmbedUrl(Some(JStr(ConvertToEmbedUrl(url)))) == ConvertToEmbedUrl(url)
  {
    if url.Some? && url.value.JStr? {
      NormaliseIdempotent(url.value.s);
    }
  }

  /** Without `youtube.com/` from position `i` on, the watch-form expression does not match. */
  lemma {:induction false} NoWatchHostNoMatch(s: string, i: nat)
    requires i <= |s|
    requires forall t :: i <= t <= |s| ==> !OccursAt(s, WATCH_HOST, t)
    ensures WatchMatch(s, i).None?
    decreases |s| - i
  {
    if i + |WATCH_HOST| <= |s| {
      NoWatchHostNoMatch(s, i + 1);
    }
  }

  /**
   * The short-link expression is consulted only when the watch-form one
   * fails: a URL without `youtube.com/` is converted through its `youtu.be/`
   * link, if any.
   */
  lemma ShortLinkWithoutWatchHost(url: string)
    requires url != "" && !Contains(url, WATCH_HOST) && !Contains(url, NOCOOKIE_MARK)
    ensures ShortMatch(url, 0).Some? ==> Normalise(url) == EMBED_PREFIX + ShortMatch(url, 0).value
    ensures ShortMatch(url, 0).None? ==> Normalise(url) == url
  {
    NoWatchHostNoMatch(url, 0);
    if Contains(url, EMBED_MARK) {
      var i :| 0 <= i <= |url| && OccursAt(url, EMBED_MARK, i);
      assert url[i..i + |WATCH_HOST|] == url[i..i + |EMBED_MARK|][..|WATCH_HOST|];
      assert OccursAt(url, WATCH_HOST, i);
      assert false;
    }
  }

  /** A match of the watch form wins over any short link in the same URL. */
  lemma WatchFormFirst(url: string)
    requires url != "" && !Contains(url, EMBED_MARK) && !Contains(url, NOCOOKIE_MARK)
    requires WatchMatch(url, 0).Some?
    ensures Normalise(url) == EMBED_PREFIX + WatchMatch(url, 0).value
  {
  }

  /** When the watch form fails, the short link decides, even on a URL that names the watch host. */
  lemma ShortFormSecond(url: string)
    requires url != "" && !Contains(url, EMBED_MARK) && !Contains(url, NOCOOKIE_MARK)
    requires WatchMatch(url, 0).None? && ShortMatch(url, 0).Some?
    ensures Normalise(url) == EMBED_PREFIX + ShortMatch(url, 0).value
  {
  }

  /** A URL that neither expression matches anywhere comes back unchanged. */
  lemma NoMatchKeepsUrl(url: string)
    requires forall t :: 0 <= t <= |url| ==> !WatchMatchesAt(url, t)
    requires forall t :: 0 <= t <= |url| ==> !ShortMatchesAt(url, t)
    ensures Normalise(url) == url
  {
    WatchMatchNone(url, 0);
    ShortMatchNone(url, 0);
  }

  // Evaluating the two expressions on concrete URLs.

  lemma OccursAtChar(s: string, p: string, i: nat, k: nat)
    requires OccursAt(s, p, i) && k < |p|
    ensures s[i + k] == p[k]
  {
    assert s[i..i + |p|][k] == s[i + k];
  }

  lemma {:induction false} RunIs(s: string, i: nat, p: char -> bool, n: nat)
    requires i + n <= |s|
    requires forall k :: i <= k < i + n ==> p(s[k])
    requires i + n == |s| || !p(s[i + n])
    ensures Run(s, i, p) == n
    decreases n
  {
    if n > 0 {
      RunIs(s, i + 1, p, n - 1);
    }
  }

  /** The capture at `i` is exactly the maximal identifier run found there. */
  lemma CaptureIs(s: string, i: nat, id: string)
    requires MaximalIdAt(s, id, i)
    ensures CaptureAt(s, i) == Some(id)
  {
    forall k | i <= k < i + |id|
      ensures IdChar(s[k])
    {
      OccursAtChar(s, id, i, k - i);
    }
    RunIs(s, i, IdChar, |id|);
    assert s[i..i + |id|] == id;
  }

  lemma {:induction false} WatchMatchSkip(s: string, i: nat, j: nat)
    requires i <= j <= |s|
    requires forall t :: i <= t < j ==> !OccursAt(s, WATCH_HOST, t)
    ensures WatchMatch(s, i) == WatchMatch(s, j)
    decreases j - i
  {
    if i < j {
      assert !WatchMatchesAt(s, i);
      WatchMatchStep(s, i);
      WatchMatchSkip(s, i + 1, j);
    }
  }

  /** A start position where the watch-form expression does not match is passed over. */
  lemma WatchMatchStep(s: string, i: nat)
    requires i < |s| && !WatchMatchesAt(s, i)
    ensures WatchMatch(s, i) == WatchMatch(s, i + 1)
  {
    if i + |WATCH_HOST| > |s| {
      assert WatchMatch(s, i + 1).None?;
    }
  }

  lemma {:induction false} ShortMatchSkip(s: string, i: nat, j: nat)
    requires i <= j <= |s|
    requires forall t :: i <= t < j ==> !OccursAt(s, SHORT_HOST, t)
    ensures ShortMatch(s, i) == ShortMatch(s, j)
    decreases j - i
  {
    if i < j {
      assert !ShortMatchesAt(s, i);
      ShortMatchStep(s, i);
      ShortMatchSkip(s, i + 1, j);
    }
  }

  /** A start position where the short-link expression does not match is passed over. */
  lemma ShortMatchStep(s: string, i: nat)
    requires i < |s| && !ShortMatchesAt(s, i)
    ensures ShortMatch(s, i) == ShortMatch(s, i + 1)
  {
    if i + |SHORT_HOST| > |s| {
      assert ShortMatch(s, i + 1).None?;
    }
  }

  lemma OccursAtFromChars(s: string, p: string, i: nat)
    requires i + |p| <= |s| && forall k :: 0 <= k < |p| ==> s[i + k] == p[k]
    ensures OccursAt(s, p, i)
  {
    assert s[i..i + |p|] == p;
  }

  /** A literal alternative fails where its first character is missing. */
  lemma LiteralAbsent(s: string, q: nat, lit: string, c: char)
    requires q < |s| && |lit| > 0 && lit[0] == c && s[q] != c
    ensures LiteralAlternative(s, q, lit).None?
  {
    if q + |lit| <= |s| { assert s[q..q + |lit|][0] == s[q]; }
  }

  /** The two-letter alternative fails where no slash follows the first character. */
  lemma TwoLetterAbsent(s: string, q: nat, c: char)
    requires q + 1 < |s| && s[q + 1] == c && c != '/'
    ensures TwoLetterAlternative(s, q).None?
  {
  }

  /** A string without the character `p[k]` does not contain `p`. */
  lemma AbsentChar(s: string, p: string, k: nat)
    requires k < |p| && forall j :: 0 <= j < |s| ==> s[j] != p[k]
    ensures !Contains(s, p)
  {
    if Contains(s, p) {
      var i :| 0 <= i <= |s| && OccursAt(s, p, i);
      OccursAtChar(s, p, i, k);
      assert false;
    }
  }

  /** Both embed marks contain a 'd', so a URL without one carries neither mark. */
  lemma NoMarkWithoutD(s: string)
    requires forall j :: 0 <= j < |s| ==> s[j] != 'd'
    ensures !Contains(s, EMBED_MARK) && !Contains(s, NOCOOKIE_MARK)
  {
    AbsentChar(s, EMBED_MARK, 16);
    AbsentChar(s, NOCOOKIE_MARK, 25);
  }

  /** The short link with a query keeps only the run before `?`. */
  lemma ShortLinkExample(s: string)
    requires s == "https://youtu.be/abc123?t=5"
    ensures Normalise(s) == EMBED_PREFIX + "abc123"
  {
    ShortLinkExampleWatch(s);
    ShortLinkExampleShort(s);
  }

  lemma ShortLinkExampleWatch(s: string)
    requires s == "https://youtu.be/abc123?t=5"
    ensures !Contains(s, EMBED_MARK) && !Contains(s, NOCOOKIE_MARK) && WatchMatch(s, 0).None?
  {
    assert forall j :: 0 <= j < |s| ==> s[j] != 'm';
    AbsentChar(s, EMBED_MARK, 10);
    AbsentChar(s, NOCOOKIE_MARK, 19);
    forall t | 0 <= t <= |s| ensures !OccursAt(s, WATCH_HOST, t) {
      if OccursAt(s, WATCH_HOST, t) { OccursAtChar(s, WATCH_HOST, t, 10); }
    }
    NoWatchHostNoMatch(s, 0);
  }

  lemma ShortLinkExampleShort(s: string)
    requires s == "https://youtu.be/abc123?t=5"
    ensures ShortMatch(s, 0) == Some("abc123")
  {
    ShortLinkExampleSkip(s);
    ShortLinkExampleHost(s);
    ShortLinkExampleCapture(s);
  }

  lemma ShortLinkExampleHost(s: string)
    requires s == "https://youtu.be/abc123?t=5"
    ensures OccursAt(s, SHORT_HOST, 8)
  {
    OccursAtFromChars(s, SHORT_HOST, 8);
  }

  lemma ShortLinkExampleSkip(s: string)
    requires s == "https://youtu.be/abc123?t=5"
    ensures ShortMatch(s, 0) == ShortMatch(s, 8)
  {
    assert forall j :: 0 <= j < 8 ==> s[j] != 'y';
    forall t | 0 <= t < 8 ensures !OccursAt(s, SHORT_HOST, t) {
      if OccursAt(s, SHORT_HOST, t) { OccursAtChar(s, SHORT_HOST, t, 0); }
    }
    ShortMatchSkip(s, 0, 8);
  }

  lemma ShortLinkExampleCapture(s: string)
    requires s == "https://youtu.be/abc123?t=5"
    ensures CaptureAt(s, 17) == Some("abc123")
  {
    OccursAtFromChars(s, "abc123", 17);
    CaptureIs(s, 17, "abc123");
  }

  /** The watch form with further parameters keeps only the `v=` value. */
  lemma WatchExample(s: string)
    requires s == "https://www.youtube.com/watch?v=abc&t=1"
    ensures Normalise(s) == EMBED_PREFIX + "abc"
  {
    assert forall j :: 0 <= j < |s| ==> s[j] != 'd';
    NoMarkWithoutD(s);
    WatchExampleMatch(s);
  }

  lemma WatchExampleMatch(s: string)
    requires s == "https://www.youtube.com/watch?v=abc&t=1"
    ensures WatchMatch(s, 0) == Some("abc")
  {
    WatchExampleSkip(s);
    WatchExampleHost(s);
    WatchExampleAlternatives(s);
  }

  lemma WatchExampleHost(s: string)
    requires s == "https://www.youtube.com/watch?v=abc&t=1"
    ensures OccursAt(s, WATCH_HOST, 12)
  {
    OccursAtFromChars(s, WATCH_HOST, 12);
  }

  lemma WatchExampleSkip(s: string)
    requires s == "https://www.youtube.com/watch?v=abc&t=1"
    ensures WatchMatch(s, 0) == WatchMatch(s, 12)
  {
    assert forall j :: 0 <= j < 12 ==> s[j] != 'y';
    forall t | 0 <= t < 12 ensures !OccursAt(s, WATCH_HOST, t) {
      if OccursAt(s, WATCH_HOST, t) { OccursAtChar(s, WATCH_HOST, t, 0); }
    }
    WatchMatchSkip(s, 0, 12);
  }

  lemma WatchExampleAlternatives(s: string)
    requires s == "https://www.youtube.com/watch?v=abc&t=1"
    ensures WatchAlternatives(s, 24) == Some("abc")
  {
    WatchExampleNoPath(s);
    TwoLetterAbsent(s, 24, s[25]);
    LiteralAbsent(s, 24, "v=", 'v');
    WatchExampleLiteral(s);
  }

  lemma WatchExampleLiteral(s: string)
    requires s == "https://www.youtube.com/watch?v=abc&t=1"
    ensures LiteralAlternative(s, 24, "watch?v=") == Some("abc")
  {
    OccursAtFromChars(s, "watch?v=", 24);
    WatchExampleCapture(s);
  }

  lemma WatchExampleNoPath(s: string)
    requires s == "https://www.youtube.com/watch?v=abc&t=1"
    ensures PathAlternative(s, 24).None?
  {
    assert forall j :: 24 <= j < |s| ==> s[j] != '/';
    RunIs(s, 24, NotSlash, |s| - 24);
  }

  lemma WatchExampleCapture(s: string)
    requires s == "https://www.youtube.com/watch?v=abc&t=1"
    ensures CaptureAt(s, 32) == Some("abc")
  {
    OccursAtFromChars(s, "abc", 32);
    CaptureIs(s, 32, "abc");
  }

  /** A `/shorts/` path matches none of the alternatives and is returned unchanged. */
  lemma ShortsExample(s: string)
    requires s == "https://youtube.com/shorts/xyz"
    ensures Normalise(s) == s
  {
    assert forall j :: 0 <= j < |s| ==> s[j] != 'd';
    NoMarkWithoutD(s);
    ShortsExampleWatch(s);
    ShortsExampleShort(s);
  }

  lemma ShortsExampleWatch(s: string)
    requires s == "https://youtube.com/shorts/xyz"
    ensures WatchMatch(s, 0).None?
  {
    ShortsExampleSkip(s);
    ShortsExampleStep(s);
    ShortsExampleTail(s);
  }

  /** At offset 8 the host matches but none of the alternatives does. */
  lemma ShortsExampleStep(s: string)
    requires s == "https://youtube.com/shorts/xyz"
    ensures WatchMatch(s, 8) == WatchMatch(s, 9)
  {
    ShortsExampleAlternatives(s);
  }

  lemma ShortsExampleSkip(s: string)
    requires s == "https://youtube.com/shorts/xyz"
    ensures WatchMatch(s, 0) == WatchMatch(s, 8)
  {
    assert forall j :: 0 <= j < 8 ==> s[j] != 'y';
    forall t | 0 <= t < 8 ensures !OccursAt(s, WATCH_HOST, t) {
      if OccursAt(s, WATCH_HOST, t) { OccursAtChar(s, WATCH_HOST, t, 0); }
    }
    WatchMatchSkip(s, 0, 8);
  }

  lemma ShortsExampleTail(s: string)
    requires s == "https://youtube.com/shorts/xyz"
    ensures WatchMatch(s, 9).None?
  {
    assert forall j :: 9 <= j < |s| && j != 28 ==> s[j] != 'y';
    forall t | 9 <= t <= |s| ensures !OccursAt(s, WATCH_HOST, t) {
      if OccursAt(s, WATCH_HOST, t) { OccursAtChar(s, WATCH_HOST, t, 0); }
    }
    NoWatchHostNoMatch(s, 9);
  }

  /** `[^\/]+` takes `shorts`; no slash follows `xyz`, so `.+\/` cannot match. */
  lemma ShortsExampleAlternatives(s: string)
    requires s == "https://youtube.com/shorts/xyz"
    ensures WatchAlternatives(s, 20).None?
  {
    ShortsExampleNoPath(s);
    TwoLetterAbsent(s, 20, s[21]);
    LiteralAbsent(s, 20, "v=", 'v');
    LiteralAbsent(s, 20, "watch?v=", 'w');
  }

  lemma ShortsExampleNoPath(s: string)
    requires s == "https://youtube.com/shorts/xyz"
    ensures PathAlternative(s, 20).None?
  {
    assert forall j :: 20 <= j < 26 ==> s[j] != '/';
    assert s[26] == '/';
    RunIs(s, 20, NotSlash, 6);
    assert forall j :: 27 <= j < 30 ==> s[j] != '/';
    RunIs(s, 27, NotLineTerminator, 3);
  }

  lemma ShortsExampleShort(s: string)
    requires s == "https://youtube.com/shorts/xyz"
    ensures ShortMatch(s, 0).None?
  {
    assert forall j :: 0 <= j < |s| && j != 8 && j != 28 ==> s[j] != 'y';
    assert s[13] != '.';
    forall t | 0 <= t <= |s| ensures !OccursAt(s, SHORT_HOST, t) {
      if OccursAt(s, SHORT_HOST, t) {
        OccursAtChar(s, SHORT_HOST, t, 0);
        OccursAtChar(s, SHORT_HOST, t, 5);
      }
    }
    ShortMatchSkip(s, 0, |s|);
  }

  /** A URL of another host is returned unchanged. */
  lemma OtherHostExample(s: string)
    requires s == "https://example.com/not-youtube"
    ensures Normalise(s) == s
  {
    assert forall j :: 0 <= j < |s| ==> s[j] != 'd';
    NoMarkWithoutD(s);
    OtherHostExampleMatches(s);
  }

  lemma OtherHostExampleMatches(s: string)
    requires s == "https://example.com/not-youtube"
    ensures WatchMatch(s, 0).None? && ShortMatch(s, 0).None?
  {
    assert forall j :: 0 <= j < |s| && j != 24 ==> s[j] != 'y';
    forall t | 0 <= t <= |s| ensures !OccursAt(s, WATCH_HOST, t) && !OccursAt(s, SHORT_HOST, t) {
      if OccursAt(s, WATCH_HOST, t) { OccursAtChar(s, WATCH_HOST, t, 0); }
      if OccursAt(s, SHORT_HOST, t) { OccursAtChar(s, SHORT_HOST, t, 0); }
    }
    NoWatchHostNoMatch(s, 0);
    ShortMatchSkip(s, 0, |s|);
  }
}
