/** `extract_post_id_from_url`: the four Facebook URL shapes, tried in order,
    each a `re.search` for a fixed regular expression. Each expression is
    written out as the positions where it can match, with the greedy `\d+`
    as the maximal run of digits and the lazy `.*?` as the first position
    (on the same line) from which the rest of the expression matches. */
module FacebookUrl {
  import opened Wrappers
  import opened Text

  const HOST: string := "facebook.com/"
  const REEL: string := "facebook.com/reel/"
  const PERMALINK: string := "facebook.com/permalink.php?"
  const STORY: string := "story_fbid="
  const ID: string := "id="
  const VIDEO: string := "facebook.com/video.php?"
  const V: string := "v="

  /** Length of the run of digits starting at i: what a greedy `(\d+)`
      consumes there. */
  function DigitRun(s: string, i: nat): (n: nat)
    decreases |s| - i
    ensures n == 0 || i + n <= |s|
    ensures forall k :: i <= k < i + n ==> k < |s| && IsDigit(s[k])
    ensures i + n < |s| ==> !IsDigit(s[i + n])
  {
    if i < |s| && IsDigit(s[i]) then 1 + DigitRun(s, i + 1) else 0
  }

  /** The text of that run. */
  function Digits(s: string, i: nat): (d: string)
    requires i <= |s|
    ensures AllDigits(d) && |d| == DigitRun(s, i)
  {
    s[i..i + DigitRun(s, i)]
  }

  /** `.` does not match a line break: none in s[a..b). */
  predicate NoNewline(s: string, a: nat, b: nat) {
    forall k :: a <= k < b && k < |s| ==> s[k] != '\n'
  }

  // ------------------------------------------- facebook\.com/(\d+)_(\d+)

  predicate UnderscoreAt(s: string, p: nat) {
    && StartsAt(s, p, HOST)
    && var a := p + |HOST|;
       var n := DigitRun(s, a);
       n > 0 && a + n < |s| && s[a + n] == '_' && DigitRun(s, a + n + 1) > 0
  }

  function FindUnderscore(s: string): (r: Option<nat>)
    ensures r.Some? ==> UnderscoreAt(s, r.value) && forall p :: 0 <= p < r.value ==> !UnderscoreAt(s, p)
    ensures r.None? ==> forall p :: !UnderscoreAt(s, p)
  {
    var P := (p: nat) => UnderscoreAt(s, p);
    assert forall p: nat :: P(p) == UnderscoreAt(s, p);
    FirstIndex(0, |s| + 1, P)
  }

  // ----------------------------------------------- facebook\.com/reel/(\d+)

  predicate ReelAt(s: string, p: nat) {
    StartsAt(s, p, REEL) && DigitRun(s, p + |REEL|) > 0
  }

  function FindReel(s: string): (r: Option<nat>)
    ensures r.Some? ==> ReelAt(s, r.value) && forall p :: 0 <= p < r.value ==> !ReelAt(s, p)
    ensures r.None? ==> forall p :: !ReelAt(s, p)
  {
    var P := (p: nat) => ReelAt(s, p);
    assert forall p: nat :: P(p) == ReelAt(s, p);
    FirstIndex(0, |s| + 1, P)
  }

  // ------- facebook\.com/permalink\.php\?.*?story_fbid=(\d+).*?id=(\d+)

  /** `.*?id=(\d+)` entered at a: "id=" at r, a digit after it, and no line
      break in between. */
  predicate IdAt(s: string, a: nat, r: nat) {
    NoNewline(s, a, r) && StartsAt(s, r, ID) && DigitRun(s, r + |ID|) > 0
  }

  function FindId(s: string, a: nat): (r: Option<nat>)
    ensures r.Some? ==> a <= r.value && IdAt(s, a, r.value)
    ensures r.Some? ==> forall q :: a <= q < r.value ==> !IdAt(s, a, q)
    ensures r.None? ==> forall q :: a <= q ==> !IdAt(s, a, q)
  {
    var P := (q: nat) => IdAt(s, a, q);
    assert forall q: nat :: P(q) == IdAt(s, a, q);
    FirstIndex(a, |s| + 1, P)
  }

  /** `.*?story_fbid=(\d+).*?id=(\d+)` entered at a, with "story_fbid=" at
      q. The first group is the whole digit run there: a shorter run could
      only move the search for "id=" back over digits, where it cannot
      start, so the regular engine's backtracking into the group finds
      nothing new. */
  predicate StoryAt(s: string, a: nat, q: nat) {
    && NoNewline(s, a, q) && StartsAt(s, q, STORY)
    && DigitRun(s, q + |STORY|) > 0 && FindId(s, StoryEnd(s, q)).Some?
  }

  /** Where the story id that starts after `story_fbid=` at q ends. */
  function StoryEnd(s: string, q: nat): nat {
    q + |STORY| + DigitRun(s, q + |STORY|)
  }

  function FindStory(s: string, a: nat): (r: Option<nat>)
    ensures r.Some? ==> a <= r.value && StoryAt(s, a, r.value)
    ensures r.Some? ==> forall q :: a <= q < r.value ==> !StoryAt(s, a, q)
    ensures r.None? ==> forall q :: a <= q ==> !StoryAt(s, a, q)
  {
    var P := (q: nat) => StoryAt(s, a, q);
    assert forall q: nat :: P(q) == StoryAt(s, a, q);
    FirstIndex(a, |s| + 1, P)
  }

  predicate PermalinkAt(s: string, p: nat) {
    StartsAt(s, p, PERMALINK) && FindStory(s, p + |PERMALINK|).Some?
  }

  function FindPermalink(s: string): (r: Option<nat>)
    ensures r.Some? ==> PermalinkAt(s, r.value) && forall p :: 0 <= p < r.value ==> !PermalinkAt(s, p)
    ensures r.None? ==> forall p :: !PermalinkAt(s, p)
  {
    var P := (p: nat) => PermalinkAt(s, p);
    assert forall p: nat :: P(p) == PermalinkAt(s, p);
    FirstIndex(0, |s| + 1, P)
  }

  // ------------------------------------ facebook\.com/video\.php\?.*?v=(\d+)

  predicate VAt(s: string, a: nat, q: nat) {
    NoNewline(s, a, q) && StartsAt(s, q, V) && DigitRun(s, q + |V|) > 0
  }

  function FindV(s: string, a: nat): (r: Option<nat>)
    ensures r.Some? ==> a <= r.value && VAt(s, a, r.value)
    ensures r.Some? ==> forall q :: a <= q < r.value ==> !VAt(s, a, q)
    ensures r.None? ==> forall q :: a <= q ==> !VAt(s, a, q)
  {
    var P := (q: nat) => VAt(s, a, q);
    assert forall q: nat :: P(q) == VAt(s, a, q);
    FirstIndex(a, |s| + 1, P)
  }

  predicate VideoAt(s: string, p: nat) {
    StartsAt(s, p, VIDEO) && FindV(s, p + |VIDEO|).Some?
  }

  function FindVideo(s: string): (r: Option<nat>)
    ensures r.Some? ==> VideoAt(s, r.value) && forall p :: 0 <= p < r.value ==> !VideoAt(s, p)
    ensures r.None? ==> forall p :: !VideoAt(s, p)
  {
    var P := (p: nat) => VideoAt(s, p);
    assert forall p: nat :: P(p) == VideoAt(s, p);
    FirstIndex(0, |s| + 1, P)
  }

  // ------------------------------------------------------------ extract

  /** `(page_id, post_id)`; None where the source returns None. */
  datatype PostRef = PostRef(page: Option<string>, post: Option<string>)

  /** A group of a match: a nonempty run of digits. */
  predicate IsId(o: Option<string>) {
    o.Some? && |o.value| > 0 && AllDigits(o.value)
  }

  /** Groups 1 and 2 of the underscore shape matched at p. */
  function UnderscoreIds(s: string, p: nat): (r: PostRef)
    requires UnderscoreAt(s, p)
    ensures IsId(r.page) && IsId(r.post)
  {
    var a := p + |HOST|;
    PostRef(Some(Digits(s, a)), Some(Digits(s, a + DigitRun(s, a) + 1)))
  }

  /** Where `story_fbid=` of the permalink shape at p is matched. */
  function StoryPos(s: string, p: nat): (q: nat)
    requires PermalinkAt(s, p)
    ensures StoryAt(s, p + |PERMALINK|, q)
  {
    FindStory(s, p + |PERMALINK|).value
  }

  /** Where `id=` of the permalink shape at p is matched. */
  function IdPos(s: string, p: nat): (r: nat)
    requires PermalinkAt(s, p)
    ensures IdAt(s, StoryEnd(s, StoryPos(s, p)), r)
  {
    FindId(s, StoryEnd(s, StoryPos(s, p))).value
  }

  /** The permalink shape matched at p: `story_fbid` is the post, `id`
      the page. */
  function PermalinkIds(s: string, p: nat): (r: PostRef)
    requires PermalinkAt(s, p)
    ensures IsId(r.page) && IsId(r.post)
  {
    PostRef(Some(Digits(s, IdPos(s, p) + |ID|)), Some(Digits(s, StoryPos(s, p) + |STORY|)))
  }

  function ReelIds(s: string, p: nat): (r: PostRef)
    requires ReelAt(s, p)
    ensures r.page.None? && IsId(r.post)
  {
    PostRef(None, Some(Digits(s, p + |REEL|)))
  }

  function VideoIds(s: string, p: nat): (r: PostRef)
    requires VideoAt(s, p)
    ensures r.page.None? && IsId(r.post)
  {
    var q := FindV(s, p + |VIDEO|).value;
    PostRef(None, Some(Digits(s, q + |V|)))
  }

  /** The four shapes in order, the first that matches anywhere in the URL
      deciding the result, each at its leftmost match. */
  function ExtractPostId(url: string): (r: PostRef)
    ensures r.page.Some? ==> IsId(r.page) && IsId(r.post)
    ensures r.post.Some? ==> IsId(r.post)
  {
    match FindUnderscore(url)
    case Some(p) => UnderscoreIds(url, p)
    case None =>
      match FindReel(url)
      case Some(p) => ReelIds(url, p)
      case None =>
        match FindPermalink(url)
        case Some(p) => PermalinkIds(url, p)
        case None =>
          match FindVideo(url)
          case Some(p) => VideoIds(url, p)
          case None => PostRef(None, None)
  }

  /** Which shape decided: a page id comes only from the underscore shape,
      or from the permalink shape when no reel shape occurs; a reel or video
      id carries no page id; (None, None) exactly when no shape occurs. */
  lemma ExtractKinds(url: string)
    ensures ExtractPostId(url).page.Some? <==>
      (exists p :: UnderscoreAt(url, p)) || ((forall p :: !ReelAt(url, p)) && (exists p :: PermalinkAt(url, p)))
    ensures ExtractPostId(url).post.None? <==>
      forall p :: !UnderscoreAt(url, p) && !ReelAt(url, p) && !PermalinkAt(url, p) && !VideoAt(url, p)
  {
    match FindUnderscore(url)
    case Some(p) =>
    case None =>
      match FindReel(url)
      case Some(p) =>
      case None =>
        match FindPermalink(url)
        case Some(p) =>
        case None =>
  }

  // ------------------------------------------------------- round trips

  /** A digit string followed by a non-digit (or the end) is read whole. */
  lemma {:induction false} DigitRunOf(s: string, i: nat, d: string)
    requires i + |d| <= |s| && s[i..i + |d|] == d && AllDigits(d)
    requires i + |d| == |s| || !IsDigit(s[i + |d|])
    ensures DigitRun(s, i) == |d| && Digits(s, i) == d
    decreases |d|
  {
    if |d| > 0 {
      assert s[i] == d[0];
      assert s[i + 1..i + |d|] == d[1..];
      DigitRunOf(s, i + 1, d[1..]);
    }
  }

  /** A shape that starts with `w` + `v` starts with `w`. */
  lemma StartsAtPrefix(s: string, p: nat, w: string, v: string)
    requires StartsAt(s, p, w + v)
    ensures StartsAt(s, p, w)
  {
    assert s[p..p + |w|] == s[p..p + |w + v|][..|w|];
  }

  lemma ShapesShareHost()
    ensures REEL == HOST + "reel/"
    ensures PERMALINK == HOST + "permalink.php?"
    ensures VIDEO == HOST + "video.php?"
  {
  }

  /** Only the host at i can start one of the longer shapes. */
  lemma ShapesOnlyAt(s: string, i: nat)
    requires forall p :: StartsAt(s, p, HOST) ==> p == i
    ensures forall p :: StartsAt(s, p, REEL) ==> p == i
    ensures forall p :: StartsAt(s, p, PERMALINK) ==> p == i
    ensures forall p :: StartsAt(s, p, VIDEO) ==> p == i
  {
    ShapesShareHost();
    forall p | StartsAt(s, p, REEL) ensures p == i { StartsAtPrefix(s, p, HOST, "reel/"); }
    forall p | StartsAt(s, p, PERMALINK) ensures p == i { StartsAtPrefix(s, p, HOST, "permalink.php?"); }
    forall p | StartsAt(s, p, VIDEO) ensures p == i { StartsAtPrefix(s, p, HOST, "video.php?"); }
  }

  // Positions in texts built from parts. These are stated over arbitrary
  // parts so that the fixed URL texts do not enter their proofs.

  lemma Regroup5(a: string, b: string, c: string, d: string, e: string)
    ensures a + b + c + d + e == a + b + (c + d + e)
  {
  }

  /** Splitting the first part of x + (f + a) + ... after its first text. */
  lemma RegroupFirst(pre: string, f: string, a: string, b: string, rest: string)
    ensures pre + (f + a) + b + rest == pre + f + (a + b) + rest
  {
  }

  lemma RegroupFirst3(pre: string, f: string, a: string, b: string, c: string, rest: string)
    ensures pre + (f + a) + b + c + rest == pre + f + (a + b + c) + rest
  {
  }

  /** In x + w + t, x comes first and w starts right after it. */
  lemma WordAt(s: string, x: string, w: string, t: string)
    requires s == x + w + t
    ensures s[..|x|] == x && StartsAt(s, |x|, w)
  {
    assert s[..|x|] == x;
    assert s[|x|..|x| + |w|] == w;
  }

  /** In x + w + d + rest, with d a digit run and rest not going on with a
      digit: w starts at |x| and the run after it is read whole. */
  lemma WordRun(s: string, x: string, w: string, d: string, rest: string)
    requires s == x + w + d + rest
    requires AllDigits(d) && (rest == [] || !IsDigit(rest[0]))
    ensures s[..|x|] == x && StartsAt(s, |x|, w)
    ensures Digits(s, |x| + |w|) == d && DigitRun(s, |x| + |w|) == |d|
    ensures s[|x| + |w| + |d|..] == rest
  {
    var i := |x| + |w|;
    assert s[..|x|] == x;
    assert s[|x|..i] == w;
    assert s[i..i + |d|] == d;
    assert s[i + |d|..] == rest;
    DigitRunOf(s, i, d);
  }

  /** In x + h + d + u + e + rest, with d and e digit runs, u starting
      with a non-digit and rest not going on with a digit: every part is
      where its length puts it, and both runs are read whole. */
  lemma RunsAfter(s: string, x: string, h: string, d: string, u: string, e: string, rest: string)
    requires s == x + h + d + u + e + rest
    requires AllDigits(d) && AllDigits(e) && |u| > 0 && !IsDigit(u[0])
    requires rest == [] || !IsDigit(rest[0])
    ensures var a := |x| + |h|;
      var c := a + |d| + |u|;
      && s[..|x|] == x && StartsAt(s, |x|, h)
      && DigitRun(s, a) == |d| && Digits(s, a) == d
      && StartsAt(s, a + |d|, u) && s[a + |d|] == u[0]
      && DigitRun(s, c) == |e| && Digits(s, c) == e
  {
    SliceParts(s, x, h, d, u, e, rest);
    RunsAt(s, |x| + |h|, d, u, e, rest);
  }

  /** The slices of x + h + d + u + e + rest. */
  lemma SliceParts(s: string, x: string, h: string, d: string, u: string, e: string, rest: string)
    requires s == x + h + d + u + e + rest
    ensures var a := |x| + |h|;
      var c := a + |d| + |u|;
      && c + |e| <= |s|
      && s[..|x|] == x && s[|x|..a] == h && s[a..a + |d|] == d
      && s[a + |d|..c] == u && s[c..c + |e|] == e && s[c + |e|..] == rest
  {
  }

  /** Two digit runs at a and after u, read from the slices alone. */
  lemma RunsAt(s: string, a: nat, d: string, u: string, e: string, rest: string)
    requires var c := a + |d| + |u|;
      && c + |e| <= |s|
      && s[a..a + |d|] == d && s[a + |d|..c] == u && s[c..c + |e|] == e && s[c + |e|..] == rest
    requires AllDigits(d) && AllDigits(e) && |u| > 0 && !IsDigit(u[0])
    requires rest == [] || !IsDigit(rest[0])
    ensures var c := a + |d| + |u|;
      && DigitRun(s, a) == |d| && Digits(s, a) == d && s[a + |d|] == u[0]
      && DigitRun(s, c) == |e| && Digits(s, c) == e
  {
    var c := a + |d| + |u|;
    assert s[a + |d|] == s[a + |d|..c][0];
    DigitRunOf(s, a, d);
    if rest != [] { assert s[c + |e|] == s[c + |e|..][0]; }
    DigitRunOf(s, c, e);
  }

  /** No host text starts in the tail s[off..] when the tail holds none. */
  lemma NoHostInTail(s: string, off: nat)
    requires off <= |s| && !Contains(s[off..], HOST)
    ensures forall p :: off <= p ==> !StartsAt(s, p, HOST)
  {
    var t := s[off..];
    forall p | off <= p ensures !StartsAt(s, p, HOST) {
      if p + |HOST| <= |s| {
        assert t[p - off..p - off + |HOST|] == s[p..p + |HOST|];
        assert !StartsAt(t, p - off, HOST);
      }
    }
  }

  /** The host text starts only at i when every other `f` before the tail
      s[off..] is not followed by `a`, and the tail holds no host text. */
  lemma HostOnlyBefore(s: string, i: nat, off: nat)
    requires off <= |s| && !Contains(s[off..], HOST)
    requires forall k :: 0 <= k < off && k != i && s[k] == 'f' ==> k + 1 < |s| && s[k + 1] != 'a'
    ensures forall p :: StartsAt(s, p, HOST) ==> p == i
  {
    NoHostInTail(s, off);
    forall p | 0 <= p < off && p != i ensures !StartsAt(s, p, HOST) {
      if s[p] == 'f' { Mismatch(s, p, HOST, 1); } else { Mismatch(s, p, HOST, 0); }
    }
  }

  /** A stretch of s that equals an `f`-free text holds no `f`. */
  lemma NoFIn(s: string, lo: nat, hi: nat, t: string)
    requires lo <= hi <= |s| && s[lo..hi] == t && 'f' !in t
    ensures forall k :: lo <= k < hi ==> s[k] != 'f'
  {
    forall k | lo <= k < hi ensures s[k] != 'f' { assert s[k] == t[k - lo]; }
  }

  /** Digits hold no `f`, so neither does an `f`-free text followed by them. */
  lemma NoFThenDigits(t: string, d: string)
    requires 'f' !in t && AllDigits(d)
    ensures 'f' !in t + d
  {
    forall k | 0 <= k < |t + d| ensures (t + d)[k] != 'f' {
      if k >= |t| { assert (t + d)[k] == d[k - |t|]; }
    }
  }

  /** In `pre + "f" + x + rest`, with no `f` in pre or x and no host text
      in rest, the host text can start only at |pre|. */
  lemma HostOnlyFirst(pre: string, x: string, rest: string)
    requires 'f' !in pre && 'f' !in x && !Contains(rest, HOST)
    ensures forall p :: StartsAt(pre + "f" + x + rest, p, HOST) ==> p == |pre|
  {
    var s := pre + "f" + x + rest;
    var i := |pre|;
    var off := i + 1 + |x|;
    assert s[..i] == pre;
    assert s[i + 1..off] == x;
    assert s[off..] == rest;
    NoFIn(s, 0, i, pre);
    NoFIn(s, i + 1, off, x);
    HostOnlyBefore(s, i, off);
  }

  /** The same with a second `f` that is followed by something other than
      `a`: the host text can still start only at |pre|. */
  lemma HostOnlyFirstOfTwo(pre: string, x: string, y: string, rest: string)
    requires 'f' !in pre && 'f' !in x && 'f' !in y && |y| > 0 && y[0] != 'a'
    requires !Contains(rest, HOST)
    ensures forall p :: StartsAt(pre + "f" + x + "f" + y + rest, p, HOST) ==> p == |pre|
  {
    var s := pre + "f" + x + "f" + y + rest;
    var i := |pre|;
    var j := i + 1 + |x|;
    var off := j + 1 + |y|;
    assert s[..i] == pre;
    assert s[i + 1..j] == x;
    assert s[j + 1..off] == y;
    assert s[j + 1] == y[0];
    assert s[off..] == rest;
    NoFIn(s, 0, i, pre);
    NoFIn(s, i + 1, j, x);
    NoFIn(s, j + 1, off, y);
    HostOnlyBefore(s, i, off);
  }

  /** `{pre}facebook.com/{page}_{post}{rest}`, position by position. */
  lemma UnderscoreShape(pre: string, page: string, post: string, rest: string)
    requires 'f' !in pre
    requires |page| > 0 && AllDigits(page) && |post| > 0 && AllDigits(post)
    requires rest == [] || !IsDigit(rest[0])
    ensures var s := pre + HOST + page + "_" + post + rest;
      var a := |pre| + |HOST|;
      && UnderscoreAt(s, |pre|) && (forall p :: 0 <= p < |pre| ==> !StartsAt(s, p, HOST))
      && Digits(s, a) == page && Digits(s, a + |page| + 1) == post
  {
    var s := pre + HOST + page + "_" + post + rest;
    var i := |pre|;
    RunsAfter(s, pre, HOST, page, "_", post, rest);
    forall p | 0 <= p < i ensures !StartsAt(s, p, HOST) {
      assert s[p] == s[..i][p] == pre[p];
      Mismatch(s, p, HOST, 0);
    }
  }

  /** `{pre}facebook.com/{page}_{post}`, followed by anything that does not
      go on with a digit, gives both ids. */
  lemma UnderscoreRoundTrip(pre: string, page: string, post: string, rest: string)
    requires 'f' !in pre
    requires |page| > 0 && AllDigits(page) && |post| > 0 && AllDigits(post)
    requires rest == [] || !IsDigit(rest[0])
    ensures ExtractPostId(pre + HOST + page + "_" + post + rest) == PostRef(Some(page), Some(post))
  {
    var s := pre + HOST + page + "_" + post + rest;
    UnderscoreShape(pre, page, post, rest);
    UnderscoreLeftmost(s, |pre|);
  }

  /** An underscore shape with no host text before it is the first one. */
  lemma UnderscoreLeftmost(s: string, i: nat)
    requires UnderscoreAt(s, i) && forall p :: 0 <= p < i ==> !StartsAt(s, p, HOST)
    ensures FindUnderscore(s) == Some(i)
  {
    var r := FindUnderscore(s);
    assert r.Some?;
    assert StartsAt(s, r.value, HOST);
  }

  lemma Mismatch(s: string, p: nat, w: string, k: nat)
    requires k < |w| && p + k < |s| && s[p + k] != w[k]
    ensures !StartsAt(s, p, w)
  {
    if p + |w| <= |s| { assert s[p..p + |w|][k] == s[p + k]; }
  }

  lemma NoUnderscore(s: string, i: nat)
    requires forall p :: StartsAt(s, p, HOST) ==> p == i
    requires i + |HOST| < |s| && !IsDigit(s[i + |HOST|])
    ensures FindUnderscore(s) == None
  {
    forall p: nat ensures !UnderscoreAt(s, p) {
      if StartsAt(s, p, HOST) { assert p == i; }
    }
  }

  lemma NoShapeBut(s: string, i: nat, w: string)
    requires forall p :: StartsAt(s, p, w) ==> p == i
    requires !StartsAt(s, i, w)
    ensures forall p :: !StartsAt(s, p, w)
  {
  }

  lemma Leftmost(s: string, i: nat, w: string)
    requires forall p :: StartsAt(s, p, w) ==> p == i
    ensures forall p :: p < i ==> !StartsAt(s, p, w)
  {
  }

  lemma FirstAtStart(s: string, a: nat)
    requires StoryAt(s, a, a) || VAt(s, a, a)
    ensures StoryAt(s, a, a) ==> FindStory(s, a) == Some(a)
    ensures VAt(s, a, a) ==> FindV(s, a) == Some(a)
  {
  }

  lemma IdAfterOne(s: string, a: nat)
    requires IdAt(s, a, a + 1) && !IdAt(s, a, a)
    ensures FindId(s, a) == Some(a + 1)
  {
  }

  lemma PermalinkFirst(s: string, i: nat)
    requires PermalinkAt(s, i) && forall p :: StartsAt(s, p, PERMALINK) ==> p == i
    ensures FindPermalink(s) == Some(i)
  {
    Leftmost(s, i, PERMALINK);
  }

  lemma VideoFirst(s: string, i: nat)
    requires VideoAt(s, i) && forall p :: StartsAt(s, p, VIDEO) ==> p == i
    ensures FindVideo(s) == Some(i)
  {
    Leftmost(s, i, VIDEO);
  }

  /** `{pre}facebook.com/reel/{id}{rest}`, position by position. */
  lemma ReelShape(pre: string, id: string, rest: string)
    requires 'f' !in pre
    requires |id| > 0 && AllDigits(id)
    requires (rest == [] || !IsDigit(rest[0])) && !Contains(rest, HOST)
    ensures var s := pre + REEL + id + rest;
      && (forall p :: StartsAt(s, p, HOST) ==> p == |pre|)
      && ReelAt(s, |pre|) && s[|pre| + |HOST|] == 'r'
      && Digits(s, |pre| + |REEL|) == id
  {
    var s := pre + REEL + id + rest;
    var x := "acebook.com/reel/" + id;
    ReelLetters();
    RegroupFirst(pre, "f", "acebook.com/reel/", id, rest);
    NoFThenDigits("acebook.com/reel/", id);
    HostOnlyFirst(pre, x, rest);
    WordRun(s, pre, REEL, id, rest);
    assert s[|pre| + |HOST|] == REEL[|HOST|];
  }

  lemma ReelLetters()
    ensures REEL == "f" + "acebook.com/reel/" && 'f' !in "acebook.com/reel/"
  {
  }

  /** `{pre}facebook.com/reel/{id}`, followed by anything that does not go
      on with a digit and holds no further `facebook.com/`, gives the id and
      no page. */
  lemma ReelRoundTrip(pre: string, id: string, rest: string)
    requires 'f' !in pre
    requires |id| > 0 && AllDigits(id)
    requires (rest == [] || !IsDigit(rest[0])) && !Contains(rest, HOST)
    ensures ExtractPostId(pre + REEL + id + rest) == PostRef(None, Some(id))
  {
    var s := pre + REEL + id + rest;
    var i := |pre|;
    ReelShape(pre, id, rest);
    ShapesOnlyAt(s, i);
    NoUnderscore(s, i);
    Leftmost(s, i, REEL);
    assert FindReel(s) == Some(i);
  }

  /** `{pre}facebook.com/permalink.php?story_fbid={post}&id={page}`. */
  function PermalinkUrl(pre: string, post: string, page: string): string {
    pre + PERMALINK + STORY + post + "&" + ID + page
  }

  /** Where the host text occurs in a permalink URL: the `f` of `fbid` is
      followed by `b`, so only the host itself starts one. */
  lemma PermalinkHost(pre: string, post: string, page: string, rest: string)
    requires 'f' !in pre && AllDigits(page) && AllDigits(post) && !Contains(rest, HOST)
    ensures var s := PermalinkUrl(pre, post, page) + rest;
      && (forall p :: StartsAt(s, p, HOST) ==> p == |pre|)
      && |pre| + |HOST| < |s| && s[|pre| + |HOST|] == 'p'
  {
    var x := "acebook.com/permalink.php?" + "story_";
    var y := "bid=" + post + "&" + ID + page;
    var s := PermalinkUrl(pre, post, page) + rest;
    PermalinkSplit(pre, post, page, rest);
    assert 'f' !in x;
    NoFThenDigits("bid=", post);
    NoFThenDigits("bid=" + post + "&" + ID, page);
    HostOnlyFirstOfTwo(pre, x, y, rest);
    assert s[|pre| + |HOST|] == x[|HOST| - 1];
  }

  /** The permalink and story texts around their `f`s. */
  lemma PermalinkLetters()
    ensures PERMALINK == "f" + "acebook.com/permalink.php?"
    ensures STORY == "story_" + "f" + "bid="
  {
  }

  /** A permalink URL regrouped around its two `f`s. */
  lemma PermalinkSplit(pre: string, post: string, page: string, rest: string)
    ensures PermalinkUrl(pre, post, page) + rest
      == pre + "f" + ("acebook.com/permalink.php?" + "story_") + "f" + ("bid=" + post + "&" + ID + page) + rest
  {
    var a, b := "acebook.com/permalink.php?", "story_";
    var t := post + "&" + ID + page;
    PermalinkLetters();
    calc {
      PermalinkUrl(pre, post, page) + rest;
      pre + ("f" + a) + (b + "f" + "bid=") + t + rest;
      pre + "f" + (a + b) + "f" + ("bid=" + t) + rest;
    }
    assert "bid=" + t == "bid=" + post + "&" + ID + page;
  }

  /** `{pre}facebook.com/permalink.php?story_fbid={post}&id={page}{rest}`,
      position by position. */
  lemma PermalinkShape(pre: string, post: string, page: string, rest: string)
    requires |page| > 0 && AllDigits(page) && |post| > 0 && AllDigits(post)
    requires rest == [] || !IsDigit(rest[0])
    ensures var s := PermalinkUrl(pre, post, page) + rest;
      var i := |pre|;
      var a := i + |PERMALINK| + |STORY| + |post|;
      && StartsAt(s, i, PERMALINK) && StartsAt(s, i + |PERMALINK|, STORY)
      && Digits(s, i + |PERMALINK| + |STORY|) == post
      && s[a] == '&' && StartsAt(s, a + 1, ID) && Digits(s, a + 1 + |ID|) == page
  {
    var s := PermalinkUrl(pre, post, page) + rest;
    PermalinkSlices(s, pre, PERMALINK, STORY, post, "&", ID, page, rest);
    PermalinkRuns(s, |pre|, PERMALINK, STORY, post, ID, page);
  }

  /** The slices of a permalink-shaped text, over arbitrary fixed texts p,
      st and id and a one-character separator amp. */
  lemma PermalinkSlices(s: string, pre: string, p: string, st: string, post: string,
                        amp: string, id: string, page: string, rest: string)
    requires s == pre + p + st + post + amp + id + page + rest
    requires |amp| == 1
    ensures var b := |pre| + |p| + |st|;
      var a := b + |post|;
      var c := a + 1 + |id|;
      && c + |page| <= |s|
      && s[|pre|..|pre| + |p|] == p && s[|pre| + |p|..b] == st && s[b..a] == post
      && s[a] == amp[0] && s[a + 1..c] == id && s[c..c + |page|] == page
      && s[c + |page|..] == rest
  {
    var b := |pre| + |p| + |st|;
    var a := b + |post|;
    assert s[a..a + 1] == amp;
  }

  /** The two ids of a permalink-shaped text, read from its slices alone. */
  lemma PermalinkRuns(s: string, i: nat, p: string, st: string, post: string, id: string, page: string)
    requires var b := i + |p| + |st|;
      var a := b + |post|;
      var c := a + 1 + |id|;
      && c + |page| <= |s|
      && s[i..i + |p|] == p && s[i + |p|..b] == st && s[b..a] == post
      && !IsDigit(s[a]) && s[a + 1..c] == id && s[c..c + |page|] == page
      && (c + |page| == |s| || !IsDigit(s[c + |page|]))
    requires AllDigits(page) && AllDigits(post)
    ensures var b := i + |p| + |st|;
      var a := b + |post|;
      && StartsAt(s, i, p) && StartsAt(s, i + |p|, st) && Digits(s, b) == post
      && StartsAt(s, a + 1, id) && Digits(s, a + 1 + |id|) == page
  {
    var b := i + |p| + |st|;
    var a := b + |post|;
    var c := a + 1 + |id|;
    assert StartsAt(s, i, p) && StartsAt(s, i + |p|, st) && StartsAt(s, a + 1, id);
    DigitRunOf(s, b, post);
    DigitRunOf(s, c, page);
  }

  /** In a permalink URL neither the underscore shape nor the reel shape
      occurs. */
  lemma PermalinkNoEarlierShape(pre: string, post: string, page: string, rest: string)
    requires 'f' !in pre
    requires |page| > 0 && AllDigits(page) && |post| > 0 && AllDigits(post)
    requires (rest == [] || !IsDigit(rest[0])) && !Contains(rest, HOST)
    ensures var s := PermalinkUrl(pre, post, page) + rest;
      FindUnderscore(s) == None && FindReel(s) == None
  {
    var s := PermalinkUrl(pre, post, page) + rest;
    var i := |pre|;
    PermalinkHost(pre, post, page, rest);
    PermalinkShape(pre, post, page, rest);
    ShapesOnlyAt(s, i);
    NoUnderscore(s, i);
    Mismatch(s, i, REEL, |HOST|);
    NoShapeBut(s, i, REEL);
  }

  /** `id=` right after the '&' that ends the story id is found there. */
  lemma IdAfterAmpersand(s: string, a: nat, page: string)
    requires a < |s| && s[a] == '&' && StartsAt(s, a + 1, ID)
    requires a + 1 + |ID| <= |s| && Digits(s, a + 1 + |ID|) == page && |page| > 0
    ensures FindId(s, a) == Some(a + 1)
  {
    assert NoNewline(s, a, a + 1);
    assert IdAt(s, a, a + 1);
    Mismatch(s, a, ID, 0);
    IdAfterOne(s, a);
  }

  /** The permalink shape at i, with the story id `post` right after
      `story_fbid=` and then `&id=` and the page id: its ids are those. */
  lemma PermalinkIdsAt(s: string, i: nat, post: string, page: string)
    requires var q := i + |PERMALINK|;
      var a := q + |STORY| + |post|;
      && StartsAt(s, i, PERMALINK) && StartsAt(s, q, STORY)
      && q + |STORY| <= |s| && Digits(s, q + |STORY|) == post && |post| > 0
      && a < |s| && s[a] == '&' && StartsAt(s, a + 1, ID)
      && a + 1 + |ID| <= |s| && Digits(s, a + 1 + |ID|) == page && |page| > 0
    ensures PermalinkAt(s, i) && PermalinkIds(s, i) == PostRef(Some(page), Some(post))
  {
    var q := i + |PERMALINK|;
    var a := q + |STORY| + |post|;
    IdAfterAmpersand(s, a, page);
    assert StoryEnd(s, q) == a;
    assert StoryAt(s, q, q);
    FirstAtStart(s, q);
    assert StoryPos(s, i) == q;
    assert IdPos(s, i) == a + 1;
  }

  /** The permalink shape is found where the URL's host text starts, and
      its ids are the ones written. */
  lemma PermalinkIdsFound(pre: string, post: string, page: string, rest: string)
    requires 'f' !in pre
    requires |page| > 0 && AllDigits(page) && |post| > 0 && AllDigits(post)
    requires (rest == [] || !IsDigit(rest[0])) && !Contains(rest, HOST)
    ensures var s := PermalinkUrl(pre, post, page) + rest;
      && FindPermalink(s) == Some(|pre|)
      && PermalinkIds(s, |pre|) == PostRef(Some(page), Some(post))
  {
    var s := PermalinkUrl(pre, post, page) + rest;
    PermalinkHost(pre, post, page, rest);
    PermalinkShape(pre, post, page, rest);
    ShapesOnlyAt(s, |pre|);
    PermalinkIdsAt(s, |pre|, post, page);
    PermalinkFirst(s, |pre|);
  }

  /** `{pre}facebook.com/permalink.php?story_fbid={post}&id={page}`,
      followed by anything that does not go on with a digit and holds no
      further `facebook.com/`, gives the page from `id` and the post from
      `story_fbid`. */
  lemma PermalinkRoundTrip(pre: string, post: string, page: string, rest: string)
    requires 'f' !in pre
    requires |page| > 0 && AllDigits(page) && |post| > 0 && AllDigits(post)
    requires (rest == [] || !IsDigit(rest[0])) && !Contains(rest, HOST)
    ensures ExtractPostId(PermalinkUrl(pre, post, page) + rest) == PostRef(Some(page), Some(post))
  {
    PermalinkNoEarlierShape(pre, post, page, rest);
    PermalinkIdsFound(pre, post, page, rest);
  }

  /** `{pre}facebook.com/video.php?v={id}{rest}`, position by position. */
  lemma VideoShape(pre: string, id: string, rest: string)
    requires 'f' !in pre
    requires |id| > 0 && AllDigits(id)
    requires (rest == [] || !IsDigit(rest[0])) && !Contains(rest, HOST)
    ensures var s := pre + VIDEO + V + id + rest;
      var i := |pre|;
      && (forall p :: StartsAt(s, p, HOST) ==> p == i)
      && i + |HOST| < |s| && s[i + |HOST|] == 'v'
      && StartsAt(s, i, VIDEO) && StartsAt(s, i + |VIDEO|, V)
      && Digits(s, i + |VIDEO| + |V|) == id
  {
    var s := pre + VIDEO + V + id + rest;
    var x := "acebook.com/video.php?" + V + id;
    VideoLetters();
    RegroupFirst3(pre, "f", "acebook.com/video.php?", V, id, rest);
    NoFThenDigits("acebook.com/video.php?" + V, id);
    HostOnlyFirst(pre, x, rest);
    Regroup5(pre, VIDEO, V, id, rest);
    WordAt(s, pre, VIDEO, V + id + rest);
    WordRun(s, pre + VIDEO, V, id, rest);
    assert s[|pre| + |HOST|] == VIDEO[|HOST|];
  }

  lemma VideoLetters()
    ensures VIDEO == "f" + "acebook.com/video.php?" && 'f' !in "acebook.com/video.php?" + V
  {
  }

  /** `{pre}facebook.com/video.php?v={id}`, followed by anything that does
      not go on with a digit and holds no further `facebook.com/`, gives the
      id and no page. */
  lemma VideoRoundTrip(pre: string, id: string, rest: string)
    requires 'f' !in pre
    requires |id| > 0 && AllDigits(id)
    requires (rest == [] || !IsDigit(rest[0])) && !Contains(rest, HOST)
    ensures ExtractPostId(pre + VIDEO + V + id + rest) == PostRef(None, Some(id))
  {
    var s := pre + VIDEO + V + id + rest;
    var i := |pre|;
    var q := i + |VIDEO|;
    VideoShape(pre, id, rest);
    ShapesOnlyAt(s, i);
    NoUnderscore(s, i);
    Mismatch(s, i, REEL, |HOST|);
    NoShapeBut(s, i, REEL);
    Mismatch(s, i, PERMALINK, |HOST|);
    NoShapeBut(s, i, PERMALINK);
    assert FindReel(s) == None;
    assert FindPermalink(s) == None;
    FirstAtStart(s, q);
    VideoFirst(s, i);
  }
}
