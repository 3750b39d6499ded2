/** `InstagramFetcher`: business-account lookup, media-code extraction,
    the media listing scan, comment and reply pagination with the
    `total_replies` counter, row formatting and the per-link state update.
    Every Graph API request is answered by the oracle `IgApi`; a request
    that raises is not caught here and reaches the caller as `Threw`. */
module InstagramFetcher {
  import opened Wrappers
  import opened Text
  import opened Paging
  import opened Matching
  import opened Rows

  /** `max_pages` of the media scan. */
  const MAX_MEDIA_PAGES: nat := 30
  /** The default `limit` of `get_instagram_comments`. */
  const COMMENT_LIMIT: nat := 20000

  /** One accessible Facebook page: `name` ('' when absent) and `id`. */
  datatype PageEntry = PageEntry(name: string, id: string)

  /** The answer to the `instagram_business_account` request of a page:
      a raise, a non-200 status, or the linked account's id ('' when the
      page has no linked account). */
  datatype AccountLink = LinkRaised | LinkNotOk | Linked(id: string)

  /** A listed media item: its `id` and `permalink` ('' when absent). */
  datatype MediaItem = MediaItem(id: string, permalink: string)

  /** The fields of a comment or reply; absent fields are None. */
  datatype IgEntry = IgEntry(text: Option<string>, timestamp: Option<Day>, username: Option<string>, likeCount: Option<int>)

  /** The embedded `replies` of a comment: its `data` and whether it
      carries `paging.next`. */
  datatype ReplyBlock = ReplyBlock(data: seq<IgEntry>, hasNext: bool)

  /** A top-level comment; `replies` is None when the key is absent. */
  datatype IgComment = IgComment(id: string, entry: IgEntry, replies: Option<ReplyBlock>)

  /** The Graph API as seen by this fetcher: the `me/accounts` answer, the
      account link of a page, the media listing pages of a business
      account, the comment pages of a media item, and the follow-up reply
      pages after a comment's embedded replies. */
  datatype IgApi = IgApi(
    accounts: Response<PageEntry>,
    account: string -> AccountLink,
    media: string -> seq<Response<MediaItem>>,
    comments: string -> seq<Response<IgComment>>,
    replies: string -> seq<Response<IgEntry>>)

  // ---------------------------------------------- get_instagram_business_id

  function EntryName(p: PageEntry): string { p.name }

  /** The page id the matching loop settles on: the loop breaks at the
      first exact match, having scored only the pages before it; the
      exact page's id is used when it has one, else the best fuzzy page's
      id when its score is above 30, else no id (''). */
  function IgPageId(ratio: Scorer, pages: seq<PageEntry>, name: string): string {
    var names := NamesOf(pages, EntryName);
    var e := ExactIndex(name, names);
    var hi := if e.Some? then e.value else |pages|;
    var b := FuzzyPass(ratio, 0, name, names, 0, hi, NoBest);
    FuzzyPassFirstMax(ratio, 0, name, names, 0, hi, NoBest);
    if e.Some? && pages[e.value].id != "" then pages[e.value].id
    else if b.score > NAME_THRESHOLD then pages[b.at.value.page].id
    else ""
  }

  /** The matching loop, with its `break`. */
  method MatchPageId(ratio: Scorer, pages: seq<PageEntry>, name: string) returns (pageId: string)
    ensures pageId == IgPageId(ratio, pages, name)
  {
    ghost var names := NamesOf(pages, EntryName);
    ghost var e := ExactIndex(name, names);
    ghost var hi := if e.Some? then e.value else |pages|;
    pageId := "";
    var bestMatch: Option<Pair> := None;
    var bestScore := 0;
    var j := 0;
    while j < |pages|
      invariant j <= hi
      invariant FuzzyPass(ratio, 0, name, names, 0, hi, NoBest)
             == FuzzyPass(ratio, 0, name, names, j, hi, Best(bestScore, bestMatch))
      invariant bestMatch.Some? ==> bestMatch.value.page < |pages|
      invariant bestMatch.None? ==> bestScore == 0
      invariant pageId == ""
    {
      assert names[j] == pages[j].name;
      if Lower(pages[j].name) == Lower(name) {
        assert j == hi;
        pageId := pages[j].id;
        break;
      }
      var score := NameScore(ratio, name, pages[j].name);
      if score > bestScore {
        bestScore := score;
        bestMatch := Some(Pair(0, j));
      }
      j := j + 1;
    }
    assert e.Some? ==> pageId == pages[e.value].id;
    assert FuzzyPass(ratio, 0, name, names, 0, hi, NoBest) == Best(bestScore, bestMatch);
    if pageId == "" && bestScore > NAME_THRESHOLD {
      pageId := pages[bestMatch.value.page].id;
    }
  }

  /** An exact match wins wherever it appears, as soon as its page has an id. */
  lemma IgPageIdExact(ratio: Scorer, pages: seq<PageEntry>, name: string, k: nat)
    requires k < |pages| && SameName(pages[k].name, name) && pages[k].id != ""
    requires forall j :: 0 <= j < k ==> !SameName(pages[j].name, name)
    ensures IgPageId(ratio, pages, name) == pages[k].id
  {
    var names := NamesOf(pages, EntryName);
    assert names[k] == pages[k].name;
    assert forall j :: 0 <= j < k ==> !SameName(names[j], name);
    assert ExactIndex(name, names) == Some(k);
  }

  /** Without an exact match, the id is the one of the first page reaching
      the best fuzzy score, if that score is above 30, and none otherwise. */
  lemma IgPageIdFuzzy(ratio: Scorer, pages: seq<PageEntry>, name: string) returns (k: nat)
    requires forall j :: 0 <= j < |pages| ==> !SameName(pages[j].name, name)
    ensures (forall j :: 0 <= j < |pages| ==> NameScore(ratio, name, pages[j].name) <= NAME_THRESHOLD) ==>
      IgPageId(ratio, pages, name) == ""
    ensures (exists j :: 0 <= j < |pages| && NameScore(ratio, name, pages[j].name) > NAME_THRESHOLD) ==> (
      && k < |pages| && IgPageId(ratio, pages, name) == pages[k].id
      && NameScore(ratio, name, pages[k].name) > NAME_THRESHOLD
      && (forall j :: 0 <= j < |pages| ==> NameScore(ratio, name, pages[j].name) <= NameScore(ratio, name, pages[k].name))
      && (forall j :: 0 <= j < k ==> NameScore(ratio, name, pages[j].name) < NameScore(ratio, name, pages[k].name)))
  {
    var names := NamesOf(pages, EntryName);
    forall j | 0 <= j < |pages| ensures !SameName(names[j], name) {
      assert names[j] == pages[j].name;
    }
    assert ExactIndex(name, names).None?;
    FuzzyPassFirstMax(ratio, 0, name, names, 0, |pages|, NoBest);
    var b := FuzzyPass(ratio, 0, name, names, 0, |pages|, NoBest);
    forall j | 0 <= j < |pages| ensures NameScore(ratio, name, pages[j].name) <= b.score {
      assert names[j] == pages[j].name;
    }
    k := 0;
    if b.at.Some? {
      k := b.at.value.page;
      assert names[k] == pages[k].name;
      forall j | 0 <= j < k ensures NameScore(ratio, name, pages[j].name) < b.score {
        assert names[j] == pages[j].name;
      }
    }
  }

  /** An exact match whose page has no id stops the loop all the same:
      the id is then the one of the first page before it reaching the best
      fuzzy score, if that score is above 30, and none otherwise. */
  lemma IgPageIdExactNoId(ratio: Scorer, pages: seq<PageEntry>, name: string, e: nat) returns (k: nat)
    requires e < |pages| && SameName(pages[e].name, name) && pages[e].id == ""
    requires forall j :: 0 <= j < e ==> !SameName(pages[j].name, name)
    ensures (forall j :: 0 <= j < e ==> NameScore(ratio, name, pages[j].name) <= NAME_THRESHOLD) ==>
      IgPageId(ratio, pages, name) == ""
    ensures (exists j :: 0 <= j < e && NameScore(ratio, name, pages[j].name) > NAME_THRESHOLD) ==> (
      && k < e && IgPageId(ratio, pages, name) == pages[k].id
      && NameScore(ratio, name, pages[k].name) > NAME_THRESHOLD
      && (forall j :: 0 <= j < e ==> NameScore(ratio, name, pages[j].name) <= NameScore(ratio, name, pages[k].name))
      && (forall j :: 0 <= j < k ==> NameScore(ratio, name, pages[j].name) < NameScore(ratio, name, pages[k].name)))
  {
    var names := NamesOf(pages, EntryName);
    assert names[e] == pages[e].name;
    assert forall j :: 0 <= j < e ==> !SameName(names[j], name);
    assert ExactIndex(name, names) == Some(e);
    FuzzyPassFirstMax(ratio, 0, name, names, 0, e, NoBest);
    var b := FuzzyPass(ratio, 0, name, names, 0, e, NoBest);
    forall j | 0 <= j < e ensures NameScore(ratio, name, pages[j].name) <= b.score {
      assert names[j] == pages[j].name;
    }
    k := 0;
    if b.at.Some? {
      k := b.at.value.page;
      assert names[k] == pages[k].name;
      forall j | 0 <= j < k ensures NameScore(ratio, name, pages[j].name) < b.score {
        assert names[j] == pages[j].name;
      }
    }
  }

  /** `get_instagram_business_id`: no name gives none; a raise from either
      request propagates; a non-200 `me/accounts` answer, an empty page
      list, no matching page, a non-200 account answer or no linked
      account give none (''); otherwise the linked account's id. */
  function BusinessId(api: IgApi, ratio: Scorer, name: string): Fallible<string> {
    if name == "" then Returned("")
    else match api.accounts
      case Raised => Threw
      case NotOk => Returned("")
      case Ok(pages, _) =>
        if |pages| == 0 then Returned("")
        else
          var pageId := IgPageId(ratio, pages, name);
          if pageId == "" then Returned("")
          else match api.account(pageId)
            case LinkRaised => Threw
            case LinkNotOk => Returned("")
            case Linked(id) => Returned(id)
  }

  method GetInstagramBusinessId(api: IgApi, ratio: Scorer, name: string) returns (r: Fallible<string>)
    ensures r == BusinessId(api, ratio, name)
  {
    if name == "" {
      return Returned("");
    }
    var response := api.accounts;
    if response.Raised? {
      return Threw;
    }
    if response.NotOk? || |response.data| == 0 {
      return Returned("");
    }
    var pageId := MatchPageId(ratio, response.data, name);
    if pageId == "" {
      return Returned("");
    }
    var link := api.account(pageId);
    match link
    case LinkRaised => return Threw;
    case LinkNotOk => return Returned("");
    case Linked(id) => return Returned(id);
  }

  /** A business account comes back only through a matched page with a
      linked account. */
  lemma BusinessIdNeedsPage(api: IgApi, ratio: Scorer, name: string)
    ensures var r := BusinessId(api, ratio, name);
      r.Returned? && r.value != "" ==>
        && name != "" && api.accounts.Ok? && |api.accounts.data| > 0
        && IgPageId(ratio, api.accounts.data, name) != ""
        && api.account(IgPageId(ratio, api.accounts.data, name)) == Linked(r.value)
  {
  }

  // ------------------------------------------- extract_media_code_from_url

  const POST_MARK: string := "/p/"
  const REEL_MARK: string := "/reel/"

  /** `s.split(w)[1].split('/')[0]`. The piece after the first occurrence
      of w ends where w occurs again, and w begins with '/', so cutting it
      at its first '/' gives the text after the first w up to the next '/'. */
  function CodeAfter(s: string, w: string): string
    requires Contains(s, w)
  {
    var p := Find(s, w).value + |w|;
    Split(s[p..], '/')[0]
  }

  /** The code is the text right after the first w, up to the next '/' or
      the end: it holds no '/', and may be empty or carry a query string. */
  lemma CodeAfterShape(s: string, w: string)
    requires Contains(s, w)
    ensures var p := Find(s, w).value + |w|;
      var c := CodeAfter(s, w);
      && p + |c| <= |s| && s[p..p + |c|] == c && '/' !in c
      && (p + |c| == |s| || s[p + |c|] == '/')
  {
    var f := Find(s, w).value;
    assert StartsAt(s, f, w);
    var p := f + |w|;
    var t := s[p..];
    var pieces := Split(t, '/');
    SplitHead(t, '/');
    var c := pieces[0];
    assert c == CodeAfter(s, w);
    assert t[..|c|] == s[p..p + |c|];
    assert |c| < |t| ==> t[|c|] == s[p + |c|];
  }

  /** The permalink split shared by the URL and the media scan: `/p/`
      before `/reel/`, none when neither occurs. */
  function SplitCode(s: string): Option<string> {
    if Contains(s, POST_MARK) then Some(CodeAfter(s, POST_MARK))
    else if Contains(s, REEL_MARK) then Some(CodeAfter(s, REEL_MARK))
    else None
  }

  /** `instagram\.com/(?:p|reel)/([^/]+)` matches at q. */
  predicate RegexAt(s: string, q: nat) {
    || (StartsAt(s, q, "instagram.com/p/") && q + 16 < |s| && s[q + 16] != '/')
    || (StartsAt(s, q, "instagram.com/reel/") && q + 19 < |s| && s[q + 19] != '/')
  }

  /** `re.search(...).group(1)`: the leftmost match's non-empty run of
      characters other than '/'. */
  function RegexGroup(s: string): Option<string> {
    var P := (q: nat) => RegexAt(s, q);
    match FirstIndex(0, |s| + 1, P)
    case None => None
    case Some(q) =>
      if StartsAt(s, q, "instagram.com/p/") then Some(Split(s[q + 16..], '/')[0])
      else if q + 19 <= |s| then Some(Split(s[q + 19..], '/')[0])
      else None
  }

  /** `extract_media_code_from_url`. */
  function ExtractMediaCode(url: string): Option<string> {
    match SplitCode(url)
    case Some(code) => Some(code)
    case None => RegexGroup(url)
  }

  /** The regular-expression fallback is dead code: every URL it could
      match contains `/p/` or `/reel/`, which the splits try first. */
  lemma RegexUnreachable(url: string)
    requires !Contains(url, POST_MARK) && !Contains(url, REEL_MARK)
    ensures RegexGroup(url).None?
  {
    forall q: nat | q <= |url| ensures !RegexAt(url, q) {
      if StartsAt(url, q, "instagram.com/p/") {
        StartsAtSplit(url, q, "instagram.com", POST_MARK);
      }
      if StartsAt(url, q, "instagram.com/reel/") {
        StartsAtSplit(url, q, "instagram.com", REEL_MARK);
      }
    }
    var P := (q: nat) => RegexAt(url, q);
    assert forall q: nat :: q <= |url| ==> !P(q);
  }

  /** The code is missing exactly when neither `/p/` nor `/reel/` occurs;
      `/p/` takes precedence; a code is the text after the chosen mark up
      to the next '/'. */
  lemma MediaCodeCases(url: string)
    ensures ExtractMediaCode(url).None? <==> !Contains(url, POST_MARK) && !Contains(url, REEL_MARK)
    ensures Contains(url, POST_MARK) ==> ExtractMediaCode(url) == Some(CodeAfter(url, POST_MARK))
    ensures !Contains(url, POST_MARK) && Contains(url, REEL_MARK) ==>
      ExtractMediaCode(url) == Some(CodeAfter(url, REEL_MARK))
  {
    if !Contains(url, POST_MARK) && !Contains(url, REEL_MARK) {
      RegexUnreachable(url);
    }
  }

  /** A mark that does not occur in the prefix followed by all of the mark
      but its last character is first found right after the prefix. */
  lemma MarkAfterPrefix(pre: string, mark: string, tail: string)
    requires |mark| > 0 && !Contains(pre + mark[..|mark| - 1], mark)
    ensures Find(pre + mark + tail, mark) == Some(|pre|)
  {
    var s := pre + mark + tail;
    var head := pre + mark[..|mark| - 1];
    assert s[|pre|..|pre| + |mark|] == mark;
    assert StartsAt(s, |pre|, mark);
    assert s[..|head|] == head;
    forall q | 0 <= q < |pre| ensures !StartsAt(s, q, mark) {
      assert s[q..q + |mark|] == head[q..q + |mark|];
      assert !StartsAt(head, q, mark);
    }
  }

  /** The code after a found mark is the text up to the next '/'. */
  lemma CodeAfterIs(s: string, w: string, code: string, rest: string)
    requires Contains(s, w) && s[Find(s, w).value + |w|..] == code + rest
    requires '/' !in code && (rest == [] || rest[0] == '/')
    ensures CodeAfter(s, w) == code
  {
    SplitFirstPiece(code, rest, '/');
  }

  /** A post URL gives back its code: any text without an earlier `/p/`,
      then `/p/`, the code, and the end or a '/'. */
  lemma PostCodeRoundTrip(pre: string, code: string, rest: string)
    requires !Contains(pre + "/p", POST_MARK) && '/' !in code
    requires rest == [] || rest[0] == '/'
    ensures ExtractMediaCode(pre + POST_MARK + code + rest) == Some(code)
  {
    var s := pre + POST_MARK + code + rest;
    assert s == pre + POST_MARK + (code + rest);
    assert POST_MARK[..|POST_MARK| - 1] == "/p";
    MarkAfterPrefix(pre, POST_MARK, code + rest);
    assert s[|pre| + |POST_MARK|..] == code + rest;
    CodeAfterIs(s, POST_MARK, code, rest);
  }

  /** A reel URL with no `/p/` anywhere gives back its code: any text
      without an earlier `/reel/`, then `/reel/`, the code, and the end or
      a '/'. */
  lemma ReelCodeRoundTrip(pre: string, code: string, rest: string)
    requires !Contains(pre + "/reel", REEL_MARK) && '/' !in code
    requires rest == [] || rest[0] == '/'
    requires !Contains(pre + REEL_MARK + code + rest, POST_MARK)
    ensures ExtractMediaCode(pre + REEL_MARK + code + rest) == Some(code)
  {
    var s := pre + REEL_MARK + code + rest;
    assert s == pre + REEL_MARK + (code + rest);
    assert REEL_MARK[..|REEL_MARK| - 1] == "/reel";
    MarkAfterPrefix(pre, REEL_MARK, code + rest);
    assert s[|pre| + |REEL_MARK|..] == code + rest;
    CodeAfterIs(s, REEL_MARK, code, rest);
  }

  // ------------------------------ search_instagram_media_with_extensive_pagination

  /** A listed item whose permalink yields a non-empty code equal to `code`. */
  predicate CodeMatches(item: MediaItem, code: string) {
    var c := SplitCode(item.permalink);
    c.Some? && c.value != "" && code == c.value
  }

  function FirstCodeMatch(items: seq<MediaItem>, code: string): (r: Option<nat>)
    ensures r.Some? ==> r.value < |items| && CodeMatches(items[r.value], code)
    ensures r.Some? ==> forall j :: 0 <= j < r.value ==> !CodeMatches(items[j], code)
    ensures r.None? ==> forall j :: 0 <= j < |items| ==> !CodeMatches(items[j], code)
  {
    var P := (j: nat) => j < |items| && CodeMatches(items[j], code);
    assert forall j: nat :: j < |items| ==> (P(j) <==> CodeMatches(items[j], code));
    FirstIndex(0, |items|, P)
  }

  /** The scan from listing page k on: at most 30 pages in all; a raise
      propagates, a non-200 page ends with nothing; each page's items are
      tried in order, and the scan goes on while there is a next page. */
  function MediaScan(pages: seq<Response<MediaItem>>, k: nat, code: string): Fallible<Option<string>>
    decreases MAX_MEDIA_PAGES - k
  {
    if k >= MAX_MEDIA_PAGES then Returned(None)
    else match PageAt(pages, k)
      case Raised => Threw
      case NotOk => Returned(None)
      case Ok(items, next) =>
        match FirstCodeMatch(items, code)
        case Some(j) => Returned(Some(items[j].id))
        case None => if next then MediaScan(pages, k + 1, code) else Returned(None)
  }

  /** The item loop of one listing page. */
  method ScanPage(items: seq<MediaItem>, code: string) returns (r: Option<nat>)
    ensures r == FirstCodeMatch(items, code)
  {
    var j := 0;
    while j < |items|
      invariant j <= |items|
      invariant FirstCodeMatch(items, code) == FirstIndex(j, |items|, (k: nat) => k < |items| && CodeMatches(items[k], code))
    {
      if CodeMatches(items[j], code) {
        return Some(j);
      }
      j := j + 1;
    }
    return None;
  }

  method SearchInstagramMedia(api: IgApi, businessId: string, code: string) returns (r: Fallible<Option<string>>)
    ensures r == MediaScan(api.media(businessId), 0, code)
  {
    var pages := api.media(businessId);
    var pageCount := 0;
    var more := true;
    while more && pageCount < MAX_MEDIA_PAGES
      invariant pageCount <= MAX_MEDIA_PAGES
      invariant more ==> MediaScan(pages, 0, code) == MediaScan(pages, pageCount, code)
      invariant !more ==> MediaScan(pages, 0, code) == Returned(None)
      decreases MAX_MEDIA_PAGES - pageCount
    {
      var response := PageAt(pages, pageCount);
      pageCount := pageCount + 1;
      match response
      case Raised =>
        return Threw;
      case NotOk =>
        return Returned(None);
      case Ok(items, next) =>
        var j := ScanPage(items, code);
        if j.Some? {
          return Returned(Some(items[j.value].id));
        }
        more := next;
    }
    return Returned(None);
  }

  /** Listing pages past the 30th are never requested. */
  lemma {:induction false} MediaScanFirstPages(pages: seq<Response<MediaItem>>, k: nat, code: string)
    ensures MediaScan(pages, k, code)
         == MediaScan(pages[..if |pages| < MAX_MEDIA_PAGES then |pages| else MAX_MEDIA_PAGES], k, code)
    decreases MAX_MEDIA_PAGES - k
  {
    var front := pages[..if |pages| < MAX_MEDIA_PAGES then |pages| else MAX_MEDIA_PAGES];
    if k < MAX_MEDIA_PAGES {
      assert PageAt(pages, k) == PageAt(front, k);
      MediaScanFirstPages(pages, k + 1, code);
    }
  }

  /** Listing page k' was requested, had a next cursor and no match. */
  predicate Skipped(pages: seq<Response<MediaItem>>, k': nat, code: string) {
    k' < |pages| && pages[k'].Ok? && pages[k'].hasNext && FirstCodeMatch(pages[k'].data, code).None?
  }

  /** Pages k .. m - 1 skipped and a first match at item j of page m:
      the scan returns that item's id. */
  lemma {:induction false} MediaScanReaches(pages: seq<Response<MediaItem>>, k: nat, code: string, m: nat, j: nat)
    requires k <= m < MAX_MEDIA_PAGES && m < |pages| && pages[m].Ok? && j < |pages[m].data|
    requires FirstCodeMatch(pages[m].data, code) == Some(j)
    requires forall k' :: k <= k' < m ==> Skipped(pages, k', code)
    ensures MediaScan(pages, k, code) == Returned(Some(pages[m].data[j].id))
    decreases m - k
  {
    assert PageAt(pages, k) == pages[k];
    if k < m {
      assert Skipped(pages, k, code);
      assert MediaScan(pages, k, code) == MediaScan(pages, k + 1, code);
      MediaScanReaches(pages, k + 1, code, m, j);
    }
  }

  /** Conversely, a found media id is the first matching item in listing
      order: the item comes from one of the first 30 pages and is the first
      match of its page, and every earlier page was a page with a next
      cursor and no match. */
  lemma {:induction false} MediaScanFinds(pages: seq<Response<MediaItem>>, k: nat, code: string) returns (m: nat, j: nat)
    requires MediaScan(pages, k, code).Returned? && MediaScan(pages, k, code).value.Some?
    ensures k <= m < MAX_MEDIA_PAGES && m < |pages| && pages[m].Ok? && j < |pages[m].data|
    ensures FirstCodeMatch(pages[m].data, code) == Some(j)
    ensures forall k' :: k <= k' < m ==> Skipped(pages, k', code)
    ensures MediaScan(pages, k, code).value.value == pages[m].data[j].id
  {
    m, j := MediaScanLocate(pages, k, code);
    MediaScanReaches(pages, k, code, m, j);
  }

  lemma {:induction false} MediaScanLocate(pages: seq<Response<MediaItem>>, k: nat, code: string) returns (m: nat, j: nat)
    requires MediaScan(pages, k, code).Returned? && MediaScan(pages, k, code).value.Some?
    ensures k <= m < MAX_MEDIA_PAGES && m < |pages| && pages[m].Ok? && j < |pages[m].data|
    ensures FirstCodeMatch(pages[m].data, code) == Some(j)
    ensures forall k' :: k <= k' < m ==> Skipped(pages, k', code)
    decreases MAX_MEDIA_PAGES - k
  {
    assert k < MAX_MEDIA_PAGES && k < |pages|;
    var items := pages[k].data;
    match FirstCodeMatch(items, code)
    case Some(i) =>
      m, j := k, i;
    case None =>
      assert pages[k].hasNext && MediaScan(pages, k, code) == MediaScan(pages, k + 1, code);
      assert Skipped(pages, k, code);
      m, j := MediaScanLocate(pages, k + 1, code);
      forall k' | k <= k' < m ensures Skipped(pages, k', code) {
        if k' == k {
          assert Skipped(pages, k, code);
        }
      }
  }

  /** A scan that finds nothing and raises nowhere has seen no match in
      any page it requested. */
  lemma {:induction false} MediaScanMisses(pages: seq<Response<MediaItem>>, k: nat, code: string, k': nat, j: nat)
    requires MediaScan(pages, k, code) == Returned(None)
    requires k <= k' < MAX_MEDIA_PAGES && k' < |pages| && pages[k'].Ok? && j < |pages[k'].data|
    requires forall i :: k <= i < k' ==> pages[i].Ok? && pages[i].hasNext
    ensures !CodeMatches(pages[k'].data[j], code)
    decreases k' - k
  {
    assert PageAt(pages, k) == pages[k];
    assert FirstCodeMatch(pages[k].data, code).None?;
    if k < k' {
      assert pages[k].hasNext;
      assert MediaScan(pages, k + 1, code) == Returned(None);
      MediaScanMisses(pages, k + 1, code, k', j);
    }
  }

  // ------------------------------------------------- get_instagram_comments

  /** A comment with the replies it ends up with. */
  datatype IgThread = IgThread(top: IgEntry, replies: seq<IgEntry>)

  /** The expanded comments so far and `total_replies`. */
  datatype Expansion = Expansion(threads: seq<IgThread>, totalReplies: nat)

  /** One comment of the reply loop, with `tr` replies counted so far: a
      comment without a `replies` key gets none; embedded replies without
      `paging.next` are kept and counted; otherwise the follow-up pages are
      fetched while `total_comments + total_replies` is below the limit,
      appended after the embedded ones, and only they are counted. A raise
      in a follow-up request propagates. */
  function ExpandOne(api: IgApi, c: IgComment, limit: Cap, totalComments: nat, tr: nat): Fallible<Expansion> {
    match c.replies
    case None => Returned(Expansion([IgThread(c.entry, [])], tr))
    case Some(block) =>
      if block.hasNext then
        var more := Collect(api.replies(c.id), 0, limit, totalComments + tr);
        if more.raised then Threw
        else Returned(Expansion([IgThread(c.entry, block.data + more.items)], tr + |more.items|))
      else Returned(Expansion([IgThread(c.entry, block.data)], tr + |block.data|))
  }

  /** The reply loop from comment i on, after `acc` and with `tr` replies
      counted. */
  function ExpandFrom(api: IgApi, comments: seq<IgComment>, i: nat, limit: Cap, totalComments: nat,
                      acc: seq<IgThread>, tr: nat): Fallible<Expansion>
    decreases |comments| - i
  {
    if i >= |comments| then Returned(Expansion(acc, tr))
    else match ExpandOne(api, comments[i], limit, totalComments, tr)
      case Threw => Threw
      case Returned(step) => ExpandFrom(api, comments, i + 1, limit, totalComments, acc + step.threads, step.totalReplies)
  }

  /** One comment gives one thread that fits it, with the follow-up pages
      fetched with `counted` replies already counted; it counts its
      follow-up replies, or its embedded replies when there is no next
      page; it raises exactly when a follow-up request raises. */
  lemma ExpandOneShape(api: IgApi, c: IgComment, limit: Cap, totalComments: nat, tr: nat)
    ensures var r := ExpandOne(api, c, limit, totalComments, tr);
      && (r.Threw? <==> c.replies.Some? && c.replies.value.hasNext
                        && Collect(api.replies(c.id), 0, limit, totalComments + tr).raised)
      && (r.Returned? ==> (
        && |r.value.threads| == 1 && OneFits(api, limit, totalComments + tr, c, r.value.threads[0])
        && r.value.totalReplies + (if c.replies.Some? && c.replies.value.hasNext then |c.replies.value.data| else 0)
           == tr + |r.value.threads[0].replies|))
  {
  }

  /** Once `total_comments + total_replies` has reached the limit, no
      follow-up reply page is requested and a comment keeps only its
      embedded replies. */
  lemma ExpandAtLimit(api: IgApi, c: IgComment, n: nat, totalComments: nat, tr: nat)
    requires totalComments + tr >= n
    ensures c.replies.Some? && c.replies.value.hasNext ==>
      Collect(api.replies(c.id), 0, Limit(n), totalComments + tr).requests == 0
    ensures ExpandOne(api, c, Limit(n), totalComments, tr)
         == Returned(Expansion([IgThread(c.entry, if c.replies.Some? then c.replies.value.data else [])],
                               if c.replies.Some? && !c.replies.value.hasNext then tr + |c.replies.value.data| else tr))
  {
    if c.replies.Some? && c.replies.value.hasNext {
      assert c.replies.value.data + [] == c.replies.value.data;
    }
  }

  /** The embedded replies of comments that carry `paging.next`: the ones
      `total_replies` never counts. */
  function Uncounted(comments: seq<IgComment>, n: nat): nat
    requires n <= |comments|
  {
    if n == 0 then 0
    else
      var c := comments[n - 1];
      Uncounted(comments, n - 1) + (if c.replies.Some? && c.replies.value.hasNext then |c.replies.value.data| else 0)
  }

  function ReplyTotal(threads: seq<IgThread>): nat
    decreases |threads|
  {
    if |threads| == 0 then 0 else ReplyTotal(threads[..|threads| - 1]) + |threads[|threads| - 1].replies|
  }

  /** `total_replies` misses exactly the embedded replies of paginated
      comments: it plus those equals the number of replies kept. */
  lemma {:induction false} ExpandCounts(api: IgApi, comments: seq<IgComment>, i: nat, limit: Cap, totalComments: nat,
                                        acc: seq<IgThread>, tr: nat)
    requires i <= |comments|
    requires tr + Uncounted(comments, i) == ReplyTotal(acc)
    ensures var r := ExpandFrom(api, comments, i, limit, totalComments, acc, tr);
      r.Returned? ==> r.value.totalReplies + Uncounted(comments, |comments|) == ReplyTotal(r.value.threads)
    decreases |comments| - i
  {
    if i < |comments| {
      var r := ExpandOne(api, comments[i], limit, totalComments, tr);
      ExpandOneShape(api, comments[i], limit, totalComments, tr);
      if r.Returned? {
        var t := r.value.threads[0];
        assert r.value.threads == [t];
        ExpandCountsStep(comments, i, acc, tr, t, r.value.totalReplies);
        ExpandCounts(api, comments, i + 1, limit, totalComments, acc + [t], r.value.totalReplies);
      }
    }
  }

  /** One comment of the reply loop keeps the count in step. */
  lemma ExpandCountsStep(comments: seq<IgComment>, i: nat, acc: seq<IgThread>, tr: nat, t: IgThread, tr': nat)
    requires i < |comments|
    requires tr + Uncounted(comments, i) == ReplyTotal(acc)
    requires var c := comments[i];
      tr' + (if c.replies.Some? && c.replies.value.hasNext then |c.replies.value.data| else 0) == tr + |t.replies|
    ensures tr' + Uncounted(comments, i + 1) == ReplyTotal(acc + [t])
  {
    assert (acc + [t])[..|acc|] == acc;
  }

  /** What a comment ends up with when its follow-up pages are fetched
      with `counted` replies already counted: no replies without a
      `replies` key, the embedded replies when there is no next page, and
      otherwise the embedded replies followed by what the capped loop over
      the follow-up pages gathers. */
  predicate OneFits(api: IgApi, limit: Cap, counted: nat, c: IgComment, t: IgThread) {
    && t.top == c.entry
    && (c.replies.None? ==> t.replies == [])
    && (c.replies.Some? && !c.replies.value.hasNext ==> t.replies == c.replies.value.data)
    && (c.replies.Some? && c.replies.value.hasNext ==>
          t.replies == c.replies.value.data + Collect(api.replies(c.id), 0, limit, counted).items)
  }

  /** Thread k fits comment k, with `total_comments` and the replies
      counted before comment k against the limit: the replies of the
      earlier threads, less the embedded replies of the earlier comments
      with a next page, which `total_replies` never counts. */
  predicate ThreadFits(api: IgApi, limit: Cap, totalComments: nat, comments: seq<IgComment>, ts: seq<IgThread>, k: nat)
    requires k < |comments| && k < |ts|
  {
    && ReplyTotal(ts[..k]) >= Uncounted(comments, k)
    && OneFits(api, limit, totalComments + ReplyTotal(ts[..k]) - Uncounted(comments, k), comments[k], ts[k])
  }

  /** The reply loop gives every comment the thread that fits it. */
  lemma {:induction false} ExpandShape(api: IgApi, comments: seq<IgComment>, i: nat, limit: Cap, totalComments: nat,
                                       acc: seq<IgThread>, tr: nat)
    requires i <= |comments| && |acc| == i
    requires tr + Uncounted(comments, i) == ReplyTotal(acc)
    requires forall k :: 0 <= k < i ==> ThreadFits(api, limit, totalComments, comments, acc, k)
    ensures var r := ExpandFrom(api, comments, i, limit, totalComments, acc, tr);
      r.Returned? ==> (
        && |r.value.threads| == |comments|
        && forall k :: 0 <= k < |comments| ==> ThreadFits(api, limit, totalComments, comments, r.value.threads, k))
    decreases |comments| - i
  {
    if i < |comments| {
      var r := ExpandOne(api, comments[i], limit, totalComments, tr);
      ExpandOneShape(api, comments[i], limit, totalComments, tr);
      if r.Returned? {
        var t := r.value.threads[0];
        assert r.value.threads == [t];
        ExpandCountsStep(comments, i, acc, tr, t, r.value.totalReplies);
        FitsExtend(api, limit, totalComments, comments, acc, tr, t);
        ExpandShape(api, comments, i + 1, limit, totalComments, acc + [t], r.value.totalReplies);
      }
    }
  }

  /** The thread of comment i, fetched with the running count, extends the
      threads that fit the earlier comments. */
  lemma {:induction false} FitsExtend(api: IgApi, limit: Cap, totalComments: nat, comments: seq<IgComment>, acc: seq<IgThread>,
                                          tr: nat, t: IgThread)
    requires |acc| < |comments| && tr + Uncounted(comments, |acc|) == ReplyTotal(acc)
    requires forall k :: 0 <= k < |acc| ==> ThreadFits(api, limit, totalComments, comments, acc, k)
    requires OneFits(api, limit, totalComments + tr, comments[|acc|], t)
    ensures forall k :: 0 <= k < |acc| + 1 ==> ThreadFits(api, limit, totalComments, comments, acc + [t], k)
  {
    var ts := acc + [t];
    forall k | 0 <= k < |acc| + 1 ensures ThreadFits(api, limit, totalComments, comments, ts, k) {
      if k < |acc| {
        assert ts[..k] == acc[..k] && ts[k] == acc[k];
        assert ThreadFits(api, limit, totalComments, comments, acc, k);
      } else {
        assert ts[..k] == acc && ts[k] == t;
      }
    }
  }

  /** A comment, or a reply, as a row's content, with the Instagram
      defaults: author '', text '' and likes 0. */
  function IgRowEntry(e: IgEntry): Entry {
    Entry(e.timestamp, e.likeCount.GetOr(0), e.text.GetOr(""), e.username.GetOr(""))
  }

  /** The threads as row entries, in order. What they become in the rows is
      stated by `IgFormattedComment` and `IgFormattedReply`. */
  function IgThreads(threads: seq<IgThread>): seq<Thread> {
    seq(|threads|, i requires 0 <= i < |threads| =>
      Thread(IgRowEntry(threads[i].top),
             seq(|threads[i].replies|, j requires 0 <= j < |threads[i].replies| => IgRowEntry(threads[i].replies[j]))))
  }

  /** The rows of the expanded comments, with client and URL left empty. */
  function IgContext(captured: string): Context {
    Context("", "", "instagram", captured)
  }

  /** `get_instagram_comments`: the capped top-level loop, whose raise
      propagates, then the reply loop, then the rows. */
  function IgComments(api: IgApi, mediaId: string, limit: Cap, captured: string): Fallible<seq<Row>> {
    var top := Collect(api.comments(mediaId), 0, limit, 0);
    if top.raised then Threw
    else match ExpandFrom(api, top.items, 0, limit, |top.items|, [], 0)
      case Threw => Threw
      case Returned(e) => Returned(Flatten(IgThreads(e.threads), IgContext(captured)))
  }

  method GetInstagramComments(api: IgApi, mediaId: string, limit: Cap, captured: string) returns (r: Fallible<seq<Row>>)
    ensures r == IgComments(api, mediaId, limit, captured)
  {
    var all, raised := CollectLoop(api.comments(mediaId), limit, 0);
    if raised {
      return Threw;
    }
    var totalComments := |all|;
    var threads: seq<IgThread> := [];
    var totalReplies: nat := 0;
    var i := 0;
    while i < |all|
      invariant i <= |all|
      invariant ExpandFrom(api, all, 0, limit, totalComments, [], 0)
             == ExpandFrom(api, all, i, limit, totalComments, threads, totalReplies)
    {
      var comment := all[i];
      var replies: seq<IgEntry> := [];
      match comment.replies {
        case None =>
        case Some(block) =>
          if block.hasNext {
            var more, failed := CollectLoop(api.replies(comment.id), limit, totalComments + totalReplies);
            if failed {
              return Threw;
            }
            replies := block.data + more;
            totalReplies := totalReplies + |more|;
          } else {
            replies := block.data;
            totalReplies := totalReplies + |block.data|;
          }
      }
      threads := threads + [IgThread(comment.entry, replies)];
      i := i + 1;
    }
    var rows := FlattenThreads(IgThreads(threads), IgContext(captured));
    return Returned(rows);
  }

  /** The rows of comment i and its replies carry the Instagram defaults
      and no client or URL yet. */
  lemma IgFormattedComment(threads: seq<IgThread>, captured: string, i: nat)
    requires i < |threads|
    ensures Offset(IgThreads(threads), i) < |Flatten(IgThreads(threads), IgContext(captured))|
    ensures var r := Flatten(IgThreads(threads), IgContext(captured))[Offset(IgThreads(threads), i)];
      var e := threads[i].top;
      && r.id == i + 1 && r.subId == ""
      && r.author == (if e.username.Some? then e.username.value else "")
      && r.comment == (if e.text.Some? then e.text.value else "")
      && r.likes == (if e.likeCount.Some? then e.likeCount.value else 0)
      && r.platform == "instagram" && r.client == "" && r.url == ""
  {
    FlattenLayout(IgThreads(threads), IgContext(captured), i);
  }

  lemma IgFormattedReply(threads: seq<IgThread>, captured: string, i: nat, j: nat)
    requires i < |threads| && j < |threads[i].replies|
    ensures Offset(IgThreads(threads), i) + 1 + j < |Flatten(IgThreads(threads), IgContext(captured))|
    ensures var r := Flatten(IgThreads(threads), IgContext(captured))[Offset(IgThreads(threads), i) + 1 + j];
      var e := threads[i].replies[j];
      && r.id == i + 1 && r.subId == SubId(i + 1, j + 1)
      && r.author == (if e.username.Some? then e.username.value else "")
      && r.comment == (if e.text.Some? then e.text.value else "")
      && r.likes == (if e.likeCount.Some? then e.likeCount.value else 0)
      && r.platform == "instagram" && r.client == "" && r.url == ""
  {
    var ts := IgThreads(threads);
    FlattenLayout(ts, IgContext(captured), i);
    assert ts[i].replies[j] == IgRowEntry(threads[i].replies[j]);
  }

  /** With `limit = 0` no comment page is requested and there are no rows;
      otherwise the top-level comments pass the limit by less than a page. */
  lemma IgCommentsCap(api: IgApi, mediaId: string, limit: nat, size: nat)
    requires forall i :: 0 <= i < |api.comments(mediaId)| && api.comments(mediaId)[i].Ok? ==>
      |api.comments(mediaId)[i].data| <= size
    ensures limit == 0 ==> IgComments(api, mediaId, Limit(limit), "") == Returned([])
    ensures limit > 0 ==> |Collect(api.comments(mediaId), 0, Limit(limit), 0).items| < limit + size
  {
    CollectOvershoot(api.comments(mediaId), 0, limit, 0, size);
  }

  // ------------------------------------------------------------ process_link

  /** The alias that resolved, its position and its business account. */
  datatype Resolved = Resolved(index: nat, alias: string, businessId: string)

  /** The `for ... else` alias loop from alias i on: empty aliases are
      skipped, a raise propagates, and the loop breaks at the first alias
      with a business account. */
  function FirstBusiness(api: IgApi, ratio: Scorer, names: seq<string>, i: nat): (r: Fallible<Option<Resolved>>)
    decreases |names| - i
    ensures r.Returned? && r.value.Some? ==>
      var f := r.value.value;
      && i <= f.index < |names| && names[f.index] == f.alias && f.alias != ""
      && BusinessId(api, ratio, f.alias) == Returned(f.businessId) && f.businessId != ""
      && forall k :: i <= k < f.index && names[k] != "" ==> BusinessId(api, ratio, names[k]) == Returned("")
    ensures r.Returned? && r.value.None? ==>
      forall k :: i <= k < |names| && names[k] != "" ==> BusinessId(api, ratio, names[k]) == Returned("")
  {
    if i >= |names| then Returned(None)
    else if names[i] == "" then FirstBusiness(api, ratio, names, i + 1)
    else match BusinessId(api, ratio, names[i])
      case Threw => Threw
      case Returned(id) =>
        if id != "" then Returned(Some(Resolved(i, names[i], id)))
        else FirstBusiness(api, ratio, names, i + 1)
  }

  /** The media id the scan finds for a business account, then that
      media's rows; no media (or an empty id) gives no rows. */
  function AccountRows(api: IgApi, businessId: string, code: string, captured: string): Fallible<seq<Row>> {
    match MediaScan(api.media(businessId), 0, code)
    case Threw => Threw
    case Returned(mediaId) =>
      if mediaId.None? || mediaId.value == "" then Returned([])
      else IgComments(api, mediaId.value, Limit(COMMENT_LIMIT), captured)
  }

  /** The rows of a media item all carry the platform 'instagram'. */
  lemma IgCommentsPlatform(api: IgApi, mediaId: string, limit: Cap, captured: string)
    ensures var r := IgComments(api, mediaId, limit, captured);
      r.Returned? ==> forall j :: 0 <= j < |r.value| ==> r.value[j].platform == "instagram"
  {
    var top := Collect(api.comments(mediaId), 0, limit, 0);
    if !top.raised {
      match ExpandFrom(api, top.items, 0, limit, |top.items|, [], 0)
      case Threw =>
      case Returned(e) => FlattenContext(IgThreads(e.threads), IgContext(captured));
    }
  }

  /** The rows fetched for an account all carry the platform 'instagram'. */
  lemma AccountRowsPlatform(api: IgApi, businessId: string, code: string, captured: string)
    ensures var r := AccountRows(api, businessId, code, captured);
      r.Returned? ==> forall j :: 0 <= j < |r.value| ==> r.value[j].platform == "instagram"
  {
    var m := MediaScan(api.media(businessId), 0, code);
    if m.Returned? && m.value.Some? && m.value.value != "" {
      IgCommentsPlatform(api, m.value.value, Limit(COMMENT_LIMIT), captured);
    }
  }

  /** What one `process_link` call does: nothing, a raise, or rows. */
  datatype IgOutcome = IgNothing | IgRaised | IgSucceeded(alias: string, rows: seq<Row>)

  /** `process_link` once the media code is known. */
  function IgForCode(api: IgApi, ratio: Scorer, code: string, link: string, client: ClientValue, captured: string): IgOutcome {
    if !Truthy(client) then IgNothing
    else match FirstBusiness(api, ratio, MappedNames(client), 0)
      case Threw => IgRaised
      case Returned(None) => IgNothing
      case Returned(Some(f)) =>
        Tagged(f.alias, AccountRows(api, f.businessId, code, captured), link)
  }

  /** The account's rows, if there are any, tagged with the alias that
      resolved and the link. */
  function Tagged(alias: string, got: Fallible<seq<Row>>, link: string): IgOutcome {
    match got
    case Threw => IgRaised
    case Returned(rows) =>
      if |rows| == 0 then IgNothing else IgSucceeded(alias, Retag(rows, alias, link))
  }

  /** Every row of a success carries the alias, the link and the platform. */
  lemma TaggedRows(alias: string, got: Fallible<seq<Row>>, link: string)
    requires got.Returned? ==> forall j :: 0 <= j < |got.value| ==> got.value[j].platform == "instagram"
    ensures var o := Tagged(alias, got, link);
      o.IgSucceeded? ==> (
        && o.alias == alias && |o.rows| > 0
        && forall j :: 0 <= j < |o.rows| ==>
             o.rows[j].client == alias && o.rows[j].url == link && o.rows[j].platform == "instagram")
  {
  }

  /** `process_link`: a URL without a code, a client that is not truthy,
      no alias with a business account, no media found or no comments give
      nothing; any raise propagates; otherwise the rows tagged with the
      resolving alias and the link. */
  function IgProcess(api: IgApi, ratio: Scorer, link: string, client: ClientValue, captured: string): IgOutcome {
    var code := ExtractMediaCode(link);
    if code.None? || code.value == "" then IgNothing
    else IgForCode(api, ratio, code.value, link, client, captured)
  }

  /** A success has rows, every one tagged with the alias that resolved, a
      non-empty alias of a text client, and with the link. */
  lemma IgForCodeSuccess(api: IgApi, ratio: Scorer, code: string, link: string, client: ClientValue, captured: string)
    ensures var o := IgForCode(api, ratio, code, link, client, captured);
      o.IgSucceeded? ==> (
        && client.Text? && |o.rows| > 0 && o.alias != ""
        && (exists k :: 0 <= k < |Aliases(client.s)| && Aliases(client.s)[k] == o.alias)
        && forall j :: 0 <= j < |o.rows| ==>
             o.rows[j].client == o.alias && o.rows[j].url == link && o.rows[j].platform == "instagram")
  {
    var found := FirstBusiness(api, ratio, MappedNames(client), 0);
    if Truthy(client) && found.Returned? && found.value.Some? {
      var f := found.value.value;
      var got := AccountRows(api, f.businessId, code, captured);
      AccountRowsPlatform(api, f.businessId, code, captured);
      TaggedRows(f.alias, got, link);
      assert IgForCode(api, ratio, code, link, client, captured) == Tagged(f.alias, got, link);
      if !client.Text? {
        assert false;
      }
      assert Aliases(client.s)[f.index] == f.alias;
    }
  }

  /** A link without a media code, or with an empty one, does nothing. */
  lemma IgProcessNeedsCode(api: IgApi, ratio: Scorer, link: string, client: ClientValue, captured: string)
    ensures !Contains(link, POST_MARK) && !Contains(link, REEL_MARK) ==> IgProcess(api, ratio, link, client, captured) == IgNothing
    ensures IgProcess(api, ratio, link, client, captured) != IgNothing ==>
      IgProcess(api, ratio, link, client, captured) == IgForCode(api, ratio, ExtractMediaCode(link).value, link, client, captured)
      && ExtractMediaCode(link).value != ""
  {
    MediaCodeCases(link);
  }

  /** With no client (the retry pass) nothing is fetched at all. */
  lemma IgProcessNoClient(api: IgApi, ratio: Scorer, link: string, captured: string)
    ensures IgProcess(api, ratio, link, NoClient, captured) == IgNothing
  {
  }

  /** `row['client'] = name; row['url'] = link`, row by row. */
  /** The work of `process_link` before the rows are stored: the media
      code, the alias loop, the media search, the comments and the tags. */
  method LinkOutcome(api: IgApi, ratio: Scorer, link: string, client: ClientValue, captured: string)
    returns (o: IgOutcome)
    ensures o == IgProcess(api, ratio, link, client, captured)
  {
    var code := ExtractMediaCode(link);
    if code.None? || code.value == "" {
      return IgNothing;
    }
    if !Truthy(client) {
      return IgNothing;
    }
    var found := ResolveAliases(api, ratio, MappedNames(client));
    if found.Threw? {
      return IgRaised;
    }
    if found.value.None? {
      return IgNothing;
    }
    var f := found.value.value;
    var comments := FetchAccountRows(api, f.businessId, code.value, captured);
    assert IgProcess(api, ratio, link, client, captured) == Tagged(f.alias, comments, link);
    if comments.Threw? {
      return IgRaised;
    }
    if |comments.value| == 0 {
      return IgNothing;
    }
    var tagged := TagRows(comments.value, f.alias, link);
    return IgSucceeded(f.alias, tagged);
  }

  method TagRows(rows: seq<Row>, name: string, link: string) returns (tagged: seq<Row>)
    ensures tagged == Retag(rows, name, link)
  {
    tagged := rows;
    var k := 0;
    while k < |rows|
      invariant k <= |rows| && |tagged| == |rows|
      invariant forall j :: 0 <= j < k ==> tagged[j] == rows[j].(client := name, url := link)
      invariant forall j :: k <= j < |rows| ==> tagged[j] == rows[j]
    {
      tagged := tagged[k := tagged[k].(client := name, url := link)];
      k := k + 1;
    }
  }

  /** The `for ... else` alias loop. */
  method ResolveAliases(api: IgApi, ratio: Scorer, names: seq<string>) returns (r: Fallible<Option<Resolved>>)
    ensures r == FirstBusiness(api, ratio, names, 0)
  {
    var i := 0;
    while i < |names|
      invariant i <= |names|
      invariant FirstBusiness(api, ratio, names, 0) == FirstBusiness(api, ratio, names, i)
    {
      var name := names[i];
      if name == "" {
        i := i + 1;
        continue;
      }
      var id := GetInstagramBusinessId(api, ratio, name);
      if id.Threw? {
        return Threw;
      }
      if id.value != "" {
        return Returned(Some(Resolved(i, name, id.value)));
      }
      i := i + 1;
    }
    return Returned(None);
  }

  /** The media search and the comment fetch for one business account. */
  method FetchAccountRows(api: IgApi, businessId: string, code: string, captured: string) returns (r: Fallible<seq<Row>>)
    ensures r == AccountRows(api, businessId, code, captured)
  {
    var media := SearchInstagramMedia(api, businessId, code);
    if media.Threw? {
      return Threw;
    }
    if media.value.None? || media.value.value == "" {
      return Returned([]);
    }
    r := GetInstagramComments(api, media.value.value, Limit(COMMENT_LIMIT), captured);
  }

  /** `InstagramFetcher`: the rows and failed links gathered so far. */
  class Fetcher {
    var allComments: seq<Row>
    var failedLinks: seq<string>

    constructor()
      ensures allComments == [] && failedLinks == []
    {
      allComments := [];
      failedLinks := [];
    }

    /** `process_link`: rows are appended to `all_comments` on success;
        no path touches `failed_links`; `raised` reports an exception
        escaping to the caller. */
    method ProcessLink(api: IgApi, ratio: Scorer, link: string, client: ClientValue, captured: string)
      returns (raised: bool, r: seq<Row>)
      modifies this
      ensures failedLinks == old(failedLinks)
      ensures match IgProcess(api, ratio, link, client, captured)
        case IgNothing => !raised && r == [] && allComments == old(allComments)
        case IgRaised => raised && r == [] && allComments == old(allComments)
        case IgSucceeded(_, rows) => !raised && r == rows && allComments == old(allComments) + rows
    {
      var o := LinkOutcome(api, ratio, link, client, captured);
      match o
      case IgNothing => raised, r := false, [];
      case IgRaised => raised, r := true, [];
      case IgSucceeded(_, rows) =>
        raised, r := false, rows;
        allComments := allComments + rows;
    }
  }
}
