/** `FacebookCommentsFetcher`: the page dictionary, page matching, post
    lookup, comment and reply pagination, row formatting and the per-link
    state update. Every Graph API request is answered by the oracle `FbApi`
    or, for `me/accounts`, by the response the constructor is given; the
    page dictionary is a list of pages with distinct names in Python's
    dictionary order. */
module FacebookFetcher {
  import opened Wrappers
  import opened Text
  import opened Paging
  import opened Matching
  import opened Rows
  import opened FacebookUrl

  /** `get_facebook_comments(..., limit=20000)` as `process_link` calls it. */
  const COMMENT_LIMIT: nat := 20000
  /** A content match is accepted only with a score above this. */
  const CONTENT_THRESHOLD: int := 80
  /** Content is matched only when longer than this. */
  const CONTENT_MIN_LENGTH: nat := 10

  /** One entry of `page_dict`: the page name with its id and token. */
  datatype FbPage = FbPage(name: string, id: string, token: string)

  /** A comment or reply as the Graph API returns it; absent fields are None. */
  datatype FbComment = FbComment(
    id: string, message: Option<string>, createdTime: Option<Day>,
    likeCount: Option<int>, fromName: Option<string>, commentCount: int)

  /** A feed post with its optional `permalink_url` and `message`. */
  datatype FeedPost = FeedPost(id: string, permalink: Option<string>, message: Option<string>)

  /** The answer to a post-id validation request. */
  datatype Probe = ProbeOk | ProbeNotOk | ProbeRaised

  /** The Graph API as seen by this fetcher: the answer to the n-th
      validation request of one lookup for an id, the feed of a page, the
      comment pages of a post and the reply pages of a comment. */
  datatype FbApi = FbApi(
    probe: (string, nat) -> Probe,
    feed: string -> Response<FeedPost>,
    comments: string -> seq<Response<FbComment>>,
    replies: string -> seq<Response<FbComment>>)

  /** A comment with the replies stored under `comment['replies']`. */
  datatype FbThread = FbThread(comment: FbComment, replies: seq<FbComment>)

  // ------------------------------------------ get_facebook_page_id_and_token

  /** Position of the entry named `name` in a page table, if any. */
  function KeyIndex(table: seq<FbPage>, name: string): (r: Option<nat>)
    ensures r.Some? ==> r.value < |table| && table[r.value].name == name
    ensures r.Some? ==> forall k :: 0 <= k < r.value ==> table[k].name != name
    ensures r.None? ==> forall k :: 0 <= k < |table| ==> table[k].name != name
  {
    var P := (k: nat) => k < |table| && table[k].name == name;
    assert forall k: nat :: k < |table| ==> (P(k) <==> table[k].name == name);
    FirstIndex(0, |table|, P)
  }

  /** `page_dict[page_name] = {...}`: a name already present keeps its
      place and takes the new id and token; a new name goes at the end. */
  function Store(table: seq<FbPage>, page: FbPage): seq<FbPage> {
    match KeyIndex(table, page.name)
    case Some(k) => table[k := page]
    case None => table + [page]
  }

  /** The dictionary built from the listed pages, one `Store` per page. */
  function PageTable(entries: seq<FbPage>): seq<FbPage>
    decreases |entries|
  {
    if |entries| == 0 then [] else Store(PageTable(entries[..|entries| - 1]), entries[|entries| - 1])
  }

  /** `get_facebook_page_id_and_token`: no pages when the request raises
      or is not answered with 200; otherwise the dictionary of the listed
      pages. */
  function PageDict(accounts: Response<FbPage>): seq<FbPage> {
    if accounts.Ok? then PageTable(accounts.data) else []
  }

  /** The last listed page with the given name. */
  function LastNamed(entries: seq<FbPage>, name: string): Option<FbPage>
    decreases |entries|
  {
    if |entries| == 0 then None
    else if entries[|entries| - 1].name == name then Some(entries[|entries| - 1])
    else LastNamed(entries[..|entries| - 1], name)
  }

  predicate UniqueNames(table: seq<FbPage>) {
    forall a, b :: 0 <= a < b < |table| ==> table[a].name != table[b].name
  }

  /** What `page_dict` holds: the listed names, each once, every one with
      the id and token of the last page listed under it, in the order in
      which the names were first listed. */
  predicate TableOf(entries: seq<FbPage>, t: seq<FbPage>) {
    && UniqueNames(t)
    && (forall j :: 0 <= j < |entries| ==> KeyIndex(t, entries[j].name).Some?)
    && (forall k :: 0 <= k < |t| ==> KeyIndex(entries, t[k].name).Some? && LastNamed(entries, t[k].name) == Some(t[k]))
    && (forall a, b :: 0 <= a < b < |t| ==>
          KeyIndex(entries, t[a].name).Some? && KeyIndex(entries, t[b].name).Some? &&
          KeyIndex(entries, t[a].name).value < KeyIndex(entries, t[b].name).value)
  }

  /** The first position of a name after one more page is listed. */
  function SnocIndex(s: seq<FbPage>, e: FbPage, name: string): Option<nat> {
    if KeyIndex(s, name).Some? then KeyIndex(s, name) else if e.name == name then Some(|s|) else None
  }

  lemma KeyIndexSnoc(s: seq<FbPage>, e: FbPage, name: string)
    ensures KeyIndex(s + [e], name) == SnocIndex(s, e, name)
  {
    var t := s + [e];
    match KeyIndex(s, name)
    case Some(k) =>
      assert t[k] == s[k];
      assert forall q :: 0 <= q < k ==> t[q] == s[q];
    case None =>
      assert forall q :: 0 <= q < |s| ==> t[q] == s[q];
      assert t[|s|] == e;
  }

  lemma {:induction false} PageTableKeys(entries: seq<FbPage>)
    ensures TableOf(entries, PageTable(entries))
    decreases |entries|
  {
    if |entries| > 0 {
      var init := entries[..|entries| - 1];
      var e := entries[|entries| - 1];
      assert entries == init + [e];
      PageTableKeys(init);
      var t0 := PageTable(init);
      forall name ensures KeyIndex(entries, name) == SnocIndex(init, e, name) {
        KeyIndexSnoc(init, e, name);
      }
      match KeyIndex(t0, e.name)
      case Some(p) => StoreKnown(init, e, t0, p);
      case None => StoreNew(init, e, t0);
    }
  }

  /** Listing a page under a known name replaces that entry in place. */
  lemma StoreKnown(init: seq<FbPage>, e: FbPage, t0: seq<FbPage>, p: nat)
    requires TableOf(init, t0) && p < |t0| && t0[p].name == e.name
    requires forall name :: KeyIndex(init + [e], name) == SnocIndex(init, e, name)
    ensures TableOf(init + [e], t0[p := e])
  {
    var entries := init + [e];
    var t := t0[p := e];
    forall k | 0 <= k < |t| ensures t[k].name == t0[k].name {}
    StoreKnownKeys(init, e, t0, p, t);
    StoreKnownLast(init, e, t0, p, t);
    StoreKnownOrder(init, e, t0, t);
  }

  lemma StoreKnownKeys(init: seq<FbPage>, e: FbPage, t0: seq<FbPage>, p: nat, t: seq<FbPage>)
    requires TableOf(init, t0) && p < |t0| && t0[p].name == e.name && t == t0[p := e]
    ensures UniqueNames(t)
    ensures forall j :: 0 <= j < |init| + 1 ==> KeyIndex(t, (init + [e])[j].name).Some?
  {
    var entries := init + [e];
    forall k | 0 <= k < |t| ensures t[k].name == t0[k].name {}
    forall j | 0 <= j < |entries| ensures KeyIndex(t, entries[j].name).Some? {
      var n := entries[j].name;
      var q := if j < |init| then KeyIndex(t0, n).value else p;
      assert t[q].name == n;
    }
  }

  lemma StoreKnownLast(init: seq<FbPage>, e: FbPage, t0: seq<FbPage>, p: nat, t: seq<FbPage>)
    requires TableOf(init, t0) && p < |t0| && t0[p].name == e.name && t == t0[p := e]
    ensures forall k :: 0 <= k < |t| ==> LastNamed(init + [e], t[k].name) == Some(t[k])
  {
    var entries := init + [e];
    assert entries[..|entries| - 1] == init;
    forall k | 0 <= k < |t| ensures LastNamed(entries, t[k].name) == Some(t[k]) {
      if k != p {
        assert t[k] == t0[k] && t0[k].name != t0[p].name;
      }
    }
  }

  /** The names keep their places, and each keeps its first position. */
  lemma StoreKnownOrder(init: seq<FbPage>, e: FbPage, t0: seq<FbPage>, t: seq<FbPage>)
    requires TableOf(init, t0) && |t| == |t0| && forall k :: 0 <= k < |t| ==> t[k].name == t0[k].name
    requires forall name :: KeyIndex(init + [e], name) == SnocIndex(init, e, name)
    ensures forall a, b :: 0 <= a < b < |t| ==>
      KeyIndex(init + [e], t[a].name).Some? && KeyIndex(init + [e], t[b].name).Some? &&
      KeyIndex(init + [e], t[a].name).value < KeyIndex(init + [e], t[b].name).value
  {
    forall k | 0 <= k < |t| ensures KeyIndex(init + [e], t[k].name) == KeyIndex(init, t0[k].name) {
      assert KeyIndex(init, t0[k].name).Some?;
    }
  }

  /** Listing a page under a new name adds it at the end. */
  lemma StoreNew(init: seq<FbPage>, e: FbPage, t0: seq<FbPage>)
    requires TableOf(init, t0) && forall k :: 0 <= k < |t0| ==> t0[k].name != e.name
    requires forall name :: KeyIndex(init + [e], name) == SnocIndex(init, e, name)
    ensures TableOf(init + [e], t0 + [e])
  {
    var entries := init + [e];
    var t := t0 + [e];
    forall j | 0 <= j < |init| ensures init[j].name != e.name {
      assert KeyIndex(t0, init[j].name).Some?;
    }
    assert KeyIndex(init, e.name).None?;
    forall j | 0 <= j < |entries| ensures KeyIndex(t, entries[j].name).Some? {
      var n := entries[j].name;
      var q := if j < |init| then KeyIndex(t0, n).value else |t0|;
      assert t[q].name == n;
    }
    StoreNewLast(init, e, t0);
    StoreNewOrder(init, e, t0);
  }

  lemma StoreNewLast(init: seq<FbPage>, e: FbPage, t0: seq<FbPage>)
    requires TableOf(init, t0) && forall k :: 0 <= k < |t0| ==> t0[k].name != e.name
    ensures forall k :: 0 <= k < |t0| + 1 ==> LastNamed(init + [e], (t0 + [e])[k].name) == Some((t0 + [e])[k])
  {
    var entries := init + [e];
    var t := t0 + [e];
    assert entries[..|entries| - 1] == init;
    forall k | 0 <= k < |t0| ensures LastNamed(entries, t[k].name) == Some(t[k]) {
      assert t[k] == t0[k];
    }
  }

  lemma StoreNewOrder(init: seq<FbPage>, e: FbPage, t0: seq<FbPage>)
    requires TableOf(init, t0) && KeyIndex(init, e.name).None?
    requires forall name :: KeyIndex(init + [e], name) == SnocIndex(init, e, name)
    ensures forall a, b :: 0 <= a < b < |t0| + 1 ==>
      KeyIndex(init + [e], (t0 + [e])[a].name).Some? && KeyIndex(init + [e], (t0 + [e])[b].name).Some? &&
      KeyIndex(init + [e], (t0 + [e])[a].name).value < KeyIndex(init + [e], (t0 + [e])[b].name).value
  {
    var entries := init + [e];
    var t := t0 + [e];
    forall a, b | 0 <= a < b < |t| ensures KeyIndex(entries, t[a].name).Some? && KeyIndex(entries, t[b].name).Some? &&
      KeyIndex(entries, t[a].name).value < KeyIndex(entries, t[b].name).value
    {
      if b < |t0| {
        assert t[a] == t0[a] && t[b] == t0[b];
      } else {
        assert t[a] == t0[a];
      }
    }
  }

  /** The source's loop over the listed pages. */
  method GetFacebookPageIdAndToken(accounts: Response<FbPage>) returns (table: seq<FbPage>)
    ensures table == PageDict(accounts)
    ensures accounts.Ok? ==> TableOf(accounts.data, table)
  {
    if !accounts.Ok? || |accounts.data| == 0 {
      return [];
    }
    var entries := accounts.data;
    table := [];
    var j := 0;
    while j < |entries|
      invariant j <= |entries|
      invariant table == PageTable(entries[..j])
    {
      assert entries[..j + 1][..j] == entries[..j];
      table := Store(table, entries[j]);
      j := j + 1;
    }
    assert entries[..j] == entries;
    PageTableKeys(entries);
  }

  /** A name listed twice keeps the second page's id and token, and a
      lookup of that name finds the second page. */
  lemma RepeatedNameLastWins(ratio: Scorer)
    ensures PageDict(Ok([FbPage("A", "1", "t"), FbPage("A", "2", "u")], false)) == [FbPage("A", "2", "u")]
    ensures PageDetails(ratio, PageDict(Ok([FbPage("A", "1", "t"), FbPage("A", "2", "u")], false)), "A")
         == Some(FbPage("A", "2", "u"))
  {
    TwoUnderOneName(FbPage("A", "1", "t"), FbPage("A", "2", "u"));
    LookupOnlyPage(ratio, FbPage("A", "2", "u"));
  }

  /** Two pages listed under one name leave only the second. */
  lemma TwoUnderOneName(p: FbPage, q: FbPage)
    requires p.name == q.name
    ensures PageTable([p, q]) == [q]
  {
    assert [p, q][..1] == [p];
    assert [p][..0] == [];
    assert PageTable([p]) == [p];
    assert KeyIndex([p], q.name) == Some(0);
  }

  /** The one page of a dictionary is found under its own name "A". */
  lemma LookupOnlyPage(ratio: Scorer, p: FbPage)
    requires p.name == "A"
    ensures PageDetails(ratio, [p], "A") == Some(p)
  {
    SingleAlias();
    var names := NamesOf([p], PageName);
    assert names[0] == "A";
    var m := FirstExact(QueryAliases("A"), names, 0);
    assert SameName(names[0], QueryAliases("A")[0]);
    assert m.Some? && m.value.page == 0;
  }

  lemma SingleAlias()
    ensures QueryAliases("A") == ["A"]
  {
    assert ',' !in "A";
    var pieces := Split("A", ',');
    assert pieces == ["A"];
    assert !IsSpace('A');
    assert Strip("A") == "A";
    assert |Aliases("A")| == 1;
    assert Aliases("A")[0] == Strip(pieces[0]);
  }

  // ------------------------------------------------ get_page_details_by_name

  function PageName(p: FbPage): string { p.name }

  /** `[name.strip() for name in page_name.split(',')] if page_name else []`:
      no aliases exactly for an empty query, otherwise one trimmed alias per
      comma-separated piece. */
  function QueryAliases(query: string): (r: seq<string>)
    ensures r == [] <==> query == ""
    ensures query != "" ==> |r| == |Split(query, ',')|
    ensures query != "" ==> forall k :: 0 <= k < |r| ==> IsTrim(r[k], Split(query, ',')[k])
  {
    if query == "" then [] else Aliases(query)
  }

  /** The first alias, from number i on, that equals some page name
      ignoring case, with the first such page. */
  function FirstExact(aliases: seq<string>, names: seq<string>, i: nat): (r: Option<Pair>)
    decreases |aliases| - i
    ensures r.Some? ==> (i <= r.value.alias < |aliases| && r.value.page < |names|
      && SameName(names[r.value.page], aliases[r.value.alias]))
    ensures r.Some? ==> forall k :: 0 <= k < r.value.page ==> !SameName(names[k], aliases[r.value.alias])
    ensures r.Some? ==> forall a, k :: i <= a < r.value.alias && 0 <= k < |names| ==> !SameName(names[k], aliases[a])
    ensures r.None? ==> forall a, k :: i <= a < |aliases| && 0 <= k < |names| ==> !SameName(names[k], aliases[a])
  {
    if i >= |aliases| then None
    else match ExactIndex(aliases[i], names)
      case Some(p) => Some(Pair(i, p))
      case None => FirstExact(aliases, names, i + 1)
  }

  /** The page `get_page_details_by_name` returns: an exact match of the
      first alias that has one; otherwise the best fuzzy candidate over all
      aliases and pages, if its score is above 30. */
  function PageDetails(ratio: Scorer, pages: seq<FbPage>, query: string): Option<FbPage> {
    var aliases := QueryAliases(query);
    var names := NamesOf(pages, PageName);
    match FirstExact(aliases, names, 0)
    case Some(m) => Some(pages[m.page])
    case None =>
      var b := FuzzyAliases(ratio, aliases, names, 0, NoBest);
      FuzzyAliasesInRange(ratio, aliases, names, 0, NoBest);
      if b.at.Some? && b.score > NAME_THRESHOLD then Some(pages[b.at.value.page]) else None
  }

  /** The exact pass of one alias: the first page whose name equals it
      ignoring case. */
  method ExactPageIndex(pages: seq<FbPage>, name: string) returns (r: Option<nat>)
    ensures r == ExactIndex(name, NamesOf(pages, PageName))
  {
    ghost var pageNames := NamesOf(pages, PageName);
    var j := 0;
    while j < |pages|
      invariant j <= |pages|
      invariant forall k :: 0 <= k < j ==> !SameName(pageNames[k], name)
    {
      assert pageNames[j] == pages[j].name;
      if Lower(pages[j].name) == Lower(name) {
        return Some(j);
      }
      j := j + 1;
    }
    return None;
  }

  /** The fuzzy pass of alias number i over every page, from the running
      best. */
  method FuzzyPageLoop(ratio: Scorer, pages: seq<FbPage>, i: nat, name: string, bestScore: int, bestMatch: Option<Pair>)
    returns (score': int, match': Option<Pair>)
    ensures Best(score', match') == FuzzyPass(ratio, i, name, NamesOf(pages, PageName), 0, |pages|, Best(bestScore, bestMatch))
    ensures match'.Some? ==> match' == bestMatch || match'.value.page < |pages|
  {
    ghost var pageNames := NamesOf(pages, PageName);
    score', match' := bestScore, bestMatch;
    var j := 0;
    while j < |pages|
      invariant j <= |pages|
      invariant FuzzyPass(ratio, i, name, pageNames, 0, |pages|, Best(bestScore, bestMatch))
             == FuzzyPass(ratio, i, name, pageNames, j, |pages|, Best(score', match'))
      invariant match'.Some? ==> match' == bestMatch || match'.value.page < |pages|
    {
      assert pageNames[j] == pages[j].name;
      var score := NameScore(ratio, name, pages[j].name);
      if score > score' {
        score' := score;
        match' := Some(Pair(i, j));
      }
      j := j + 1;
    }
  }

  /** The nested loops of the source: per alias an exact pass that returns
      at once, then a fuzzy pass that updates the running best. */
  method GetPageDetailsByName(ratio: Scorer, pages: seq<FbPage>, pageName: string) returns (r: Option<FbPage>)
    ensures r == PageDetails(ratio, pages, pageName)
  {
    var names := QueryAliases(pageName);
    ghost var pageNames := NamesOf(pages, PageName);
    var bestScore := 0;
    var bestMatch: Option<Pair> := None;
    var i := 0;
    while i < |names|
      invariant i <= |names|
      invariant FirstExact(names, pageNames, 0) == FirstExact(names, pageNames, i)
      invariant FuzzyAliases(ratio, names, pageNames, 0, NoBest)
             == FuzzyAliases(ratio, names, pageNames, i, Best(bestScore, bestMatch))
      invariant bestMatch.Some? ==> bestMatch.value.page < |pages|
    {
      var exact := ExactPageIndex(pages, names[i]);
      if exact.Some? {
        return Some(pages[exact.value]);
      }
      bestScore, bestMatch := FuzzyPageLoop(ratio, pages, i, names[i], bestScore, bestMatch);
      i := i + 1;
    }
    if bestMatch.Some? && bestScore > NAME_THRESHOLD {
      r := Some(pages[bestMatch.value.page]);
    } else {
      r := None;
    }
  }

  /** An exact match for any alias beats every fuzzy candidate, even one
      found for an earlier alias: the result is then an exact match of an
      alias at or before it. */
  lemma PageDetailsExact(ratio: Scorer, pages: seq<FbPage>, query: string, a: nat, k: nat)
    requires a < |QueryAliases(query)| && k < |pages|
    requires SameName(pages[k].name, QueryAliases(query)[a])
    ensures var r := PageDetails(ratio, pages, query);
      r.Some? && exists a', k' :: (0 <= a' <= a && 0 <= k' < |pages| && r.value == pages[k']
        && SameName(pages[k'].name, QueryAliases(query)[a']))
  {
    var aliases := QueryAliases(query);
    var names := NamesOf(pages, PageName);
    assert SameName(names[k], aliases[a]);
    var m := FirstExact(aliases, names, 0);
    assert m.Some?;
    assert m.value.alias <= a;
    assert SameName(pages[m.value.page].name, aliases[m.value.alias]);
  }

  /** With no exact match anywhere, `PageDetails` takes the fuzzy best. */
  lemma NoExactMatch(ratio: Scorer, pages: seq<FbPage>, query: string)
    requires forall a, k :: 0 <= a < |QueryAliases(query)| && 0 <= k < |pages| ==>
      !SameName(pages[k].name, QueryAliases(query)[a])
    ensures var b := FuzzyAliases(ratio, QueryAliases(query), NamesOf(pages, PageName), 0, NoBest);
      && (b.at.Some? ==> b.at.value.page < |pages|)
      && PageDetails(ratio, pages, query)
         == if b.at.Some? && b.score > NAME_THRESHOLD then Some(pages[b.at.value.page]) else None
  {
    var al := QueryAliases(query);
    var names := NamesOf(pages, PageName);
    var m := FirstExact(al, names, 0);
    if m.Some? {
      assert false;
    }
    FuzzyAliasesInRange(ratio, al, names, 0, NoBest);
  }

  /** Without an exact match, a page is found exactly when some alias
      scores above 30 against some page. */
  lemma PageDetailsFuzzyFound(ratio: Scorer, pages: seq<FbPage>, query: string)
    requires forall a, k :: 0 <= a < |QueryAliases(query)| && 0 <= k < |pages| ==>
      !SameName(pages[k].name, QueryAliases(query)[a])
    ensures var al := QueryAliases(query);
      PageDetails(ratio, pages, query).Some? <==>
        exists a, k :: 0 <= a < |al| && 0 <= k < |pages| && NameScore(ratio, al[a], pages[k].name) > NAME_THRESHOLD
  {
    var al := QueryAliases(query);
    var names := NamesOf(pages, PageName);
    NoExactMatch(ratio, pages, query);
    FuzzyAliasesFirstMax(ratio, al, names, 0, NoBest);
    var b := FuzzyAliases(ratio, al, names, 0, NoBest);
    if b.at.Some? && b.score > NAME_THRESHOLD {
      var a, k := b.at.value.alias, b.at.value.page;
      assert names[k] == pages[k].name;
      assert NameScore(ratio, al[a], pages[k].name) > NAME_THRESHOLD;
    } else {
      assert b.score <= NAME_THRESHOLD;
      forall a, k | 0 <= a < |al| && 0 <= k < |pages|
        ensures NameScore(ratio, al[a], pages[k].name) <= NAME_THRESHOLD
      {
        assert names[k] == pages[k].name;
      }
    }
  }

  /** Without an exact match, the page found is the first pair, alias by
      alias and page by page, that reaches the best score, which is above
      30. */
  lemma PageDetailsFuzzyBest(ratio: Scorer, pages: seq<FbPage>, query: string) returns (a: nat, k: nat)
    requires forall a, k :: 0 <= a < |QueryAliases(query)| && 0 <= k < |pages| ==>
      !SameName(pages[k].name, QueryAliases(query)[a])
    ensures var r := PageDetails(ratio, pages, query);
      var al := QueryAliases(query);
      r.Some? ==> (
        && a < |al| && k < |pages| && r.value == pages[k]
        && NameScore(ratio, al[a], pages[k].name) > NAME_THRESHOLD
        && (forall a', k' :: 0 <= a' < |al| && 0 <= k' < |pages| ==>
              NameScore(ratio, al[a'], pages[k'].name) <= NameScore(ratio, al[a], pages[k].name))
        && (forall a', k' :: 0 <= a' < a && 0 <= k' < |pages| ==>
              NameScore(ratio, al[a'], pages[k'].name) < NameScore(ratio, al[a], pages[k].name))
        && (forall k' :: 0 <= k' < k ==>
              NameScore(ratio, al[a], pages[k'].name) < NameScore(ratio, al[a], pages[k].name)))
  {
    var al := QueryAliases(query);
    NoExactMatch(ratio, pages, query);
    var b := FuzzyAliases(ratio, al, NamesOf(pages, PageName), 0, NoBest);
    a, k := 0, 0;
    if b.at.Some? && b.score > NAME_THRESHOLD {
      a, k := b.at.value.alias, b.at.value.page;
      FuzzyBestOnPages(ratio, al, pages, a, k);
    }
  }

  /** The fold's best, read back on the pages themselves. */
  lemma FuzzyBestOnPages(ratio: Scorer, al: seq<string>, pages: seq<FbPage>, a: nat, k: nat)
    requires FuzzyAliases(ratio, al, NamesOf(pages, PageName), 0, NoBest).at == Some(Pair(a, k))
    ensures a < |al| && k < |pages|
    ensures NameScore(ratio, al[a], pages[k].name) == FuzzyAliases(ratio, al, NamesOf(pages, PageName), 0, NoBest).score
    ensures forall a', k' :: 0 <= a' < |al| && 0 <= k' < |pages| ==>
      NameScore(ratio, al[a'], pages[k'].name) <= NameScore(ratio, al[a], pages[k].name)
    ensures forall a', k' :: 0 <= a' < a && 0 <= k' < |pages| ==>
      NameScore(ratio, al[a'], pages[k'].name) < NameScore(ratio, al[a], pages[k].name)
    ensures forall k' :: 0 <= k' < k ==>
      NameScore(ratio, al[a], pages[k'].name) < NameScore(ratio, al[a], pages[k].name)
  {
    var names := NamesOf(pages, PageName);
    FuzzyAliasesFirstMax(ratio, al, names, 0, NoBest);
    var b := FuzzyAliases(ratio, al, names, 0, NoBest);
    assert names[k] == pages[k].name;
    forall a', k' | 0 <= a' < |al| && 0 <= k' < |pages|
      ensures NameScore(ratio, al[a'], pages[k'].name) <= b.score
    {
      assert names[k'] == pages[k'].name;
    }
    forall a', k' | 0 <= a' < a && 0 <= k' < |pages|
      ensures NameScore(ratio, al[a'], pages[k'].name) < b.score
    {
      assert names[k'] == pages[k'].name;
    }
    forall k' | 0 <= k' < k
      ensures NameScore(ratio, al[a], pages[k'].name) < b.score
    {
      assert names[k'] == pages[k'].name;
    }
  }

  // ---------------------------------------------- find_post_by_url_or_content

  /** `full_post_id` as built from the URL's ids and the given page id. */
  function CandidateId(pageId: string, ref: PostRef): Option<string> {
    if ref.page.Some? && ref.post.Some? then Some(ref.page.value + "_" + ref.post.value)
    else if pageId != "" && ref.post.Some? then Some(pageId + "_" + ref.post.value)
    else ref.post
  }

  /** The id the URL names, checked by requesting it; when the answer is not
      200 and a page id was given but the URL named no page, a second
      request for `{page_id}_{post_id}` follows. A raise ends the check. */
  function ValidatedId(api: FbApi, pageId: string, url: string): Option<string> {
    if url == "" then None
    else
      var ref := ExtractPostId(url);
      if ref.post.None? then None
      else
        var full := CandidateId(pageId, ref).value;
        match api.probe(full, 0)
        case ProbeOk => Some(full)
        case ProbeRaised => None
        case ProbeNotOk =>
          if pageId != "" && ref.page.None? then
            var alt := pageId + "_" + ref.post.value;
            if api.probe(alt, 1) == ProbeOk then Some(alt) else None
          else None
  }

  /** The second validation request asks for the very id of the first, so
      against an API that answers a repeated request the same way it only
      ever finds the first candidate. */
  lemma AlternativeIsFirstCandidate(api: FbApi, pageId: string, url: string)
    requires forall id :: api.probe(id, 1) == api.probe(id, 0)
    ensures var r := ValidatedId(api, pageId, url);
      r.Some? ==> r == CandidateId(pageId, ExtractPostId(url)) && api.probe(r.value, 0) == ProbeOk
  {
  }

  /** `get_page_feed`: the posts of the first feed page; none on any failure. */
  function FeedPosts(api: FbApi, pageId: string): seq<FeedPost> {
    match api.feed(pageId)
    case Ok(data, _) => data
    case _ => []
  }

  /** `'permalink_url' in post and post_url in post['permalink_url']`. */
  predicate PermalinkHit(post: FeedPost, url: string) {
    post.permalink.Some? && Contains(post.permalink.value, url)
  }

  function FirstPermalinkHit(posts: seq<FeedPost>, url: string): (r: Option<nat>)
    ensures r.Some? ==> r.value < |posts| && PermalinkHit(posts[r.value], url)
    ensures r.Some? ==> forall k :: 0 <= k < r.value ==> !PermalinkHit(posts[k], url)
    ensures r.None? ==> forall k :: 0 <= k < |posts| ==> !PermalinkHit(posts[k], url)
  {
    var P := (k: nat) => k < |posts| && PermalinkHit(posts[k], url);
    assert forall k: nat :: k < |posts| ==> (P(k) <==> PermalinkHit(posts[k], url));
    FirstIndex(0, |posts|, P)
  }

  /** `'message' in post and post['message']`. */
  predicate HasMessage(post: FeedPost) {
    post.message.Some? && post.message.value != ""
  }

  function ContentScore(partial: Scorer, content: string, post: FeedPost): Score
    requires HasMessage(post)
  {
    NameScore(partial, content, post.message.value)
  }

  /** `best_score` and `best_match` of the content loop. */
  datatype BestPost = BestPost(score: int, at: Option<nat>)

  const NoPost: BestPost := BestPost(0, None)

  /** The content loop from post j on: posts with a message are scored and
      replace the best only with a strictly greater score. */
  function ContentPass(partial: Scorer, content: string, posts: seq<FeedPost>, j: nat, b: BestPost): BestPost
    decreases |posts| - j
  {
    if j >= |posts| then b
    else
      var b' := if HasMessage(posts[j]) && ContentScore(partial, content, posts[j]) > b.score
        then BestPost(ContentScore(partial, content, posts[j]), Some(j)) else b;
      ContentPass(partial, content, posts, j + 1, b')
  }

  lemma {:induction false} ContentPassFirstMax(partial: Scorer, content: string, posts: seq<FeedPost>, j: nat, b: BestPost)
    ensures var r := ContentPass(partial, content, posts, j, b);
      && r.score >= b.score
      && (forall k :: j <= k < |posts| && HasMessage(posts[k]) ==> ContentScore(partial, content, posts[k]) <= r.score)
      && (r == b || (
           && r.at.Some? && j <= r.at.value < |posts| && HasMessage(posts[r.at.value])
           && r.score == ContentScore(partial, content, posts[r.at.value]) > b.score
           && forall k :: j <= k < r.at.value && HasMessage(posts[k]) ==> ContentScore(partial, content, posts[k]) < r.score))
    decreases |posts| - j
  {
    if j < |posts| {
      var b' := if HasMessage(posts[j]) && ContentScore(partial, content, posts[j]) > b.score
        then BestPost(ContentScore(partial, content, posts[j]), Some(j)) else b;
      ContentPassFirstMax(partial, content, posts, j + 1, b');
    }
  }

  /** `find_post_by_url_or_content`: the validated URL id; else the first
      feed post whose permalink contains the URL; else, for content longer
      than 10 characters, the best-scoring post if its score is above 80. */
  function FindPost(api: FbApi, partial: Scorer, pageId: string, url: string, content: Option<string>): Option<string> {
    match ValidatedId(api, pageId, url)
    case Some(id) => Some(id)
    case None =>
      var posts := FeedPosts(api, pageId);
      var hit := if url != "" then FirstPermalinkHit(posts, url) else None;
      if hit.Some? then Some(posts[hit.value].id)
      else if content.Some? && |content.value| > CONTENT_MIN_LENGTH then
        var b := ContentPass(partial, content.value, posts, 0, NoPost);
        ContentPassFirstMax(partial, content.value, posts, 0, NoPost);
        if b.at.Some? && b.score > CONTENT_THRESHOLD then Some(posts[b.at.value].id) else None
      else None
  }

  /** The feed fallback: the first post in feed order whose permalink holds
      the URL wins; failing that, content is tried only when longer than 10
      characters and a post is accepted only with the best score, above 80,
      the first such post in feed order. */
  lemma FindPostFallback(api: FbApi, partial: Scorer, pageId: string, url: string, content: Option<string>)
    requires ValidatedId(api, pageId, url).None?
    ensures var r := FindPost(api, partial, pageId, url, content);
      var posts := FeedPosts(api, pageId);
      (url != "" && (exists k :: 0 <= k < |posts| && PermalinkHit(posts[k], url)) ==>
         exists k :: 0 <= k < |posts| && r == Some(posts[k].id) && PermalinkHit(posts[k], url)
           && forall k' :: 0 <= k' < k ==> !PermalinkHit(posts[k'], url))
    ensures var r := FindPost(api, partial, pageId, url, content);
      var posts := FeedPosts(api, pageId);
      (url == "" || forall k :: 0 <= k < |posts| ==> !PermalinkHit(posts[k], url)) ==>
        && (r.Some? <==> (content.Some? && |content.value| > CONTENT_MIN_LENGTH
              && exists k :: (0 <= k < |posts| && HasMessage(posts[k])
                   && ContentScore(partial, content.value, posts[k]) > CONTENT_THRESHOLD)))
        && (r.Some? ==> exists k :: (0 <= k < |posts| && HasMessage(posts[k]) && r.value == posts[k].id
              && ContentScore(partial, content.value, posts[k]) > CONTENT_THRESHOLD
              && (forall k' :: 0 <= k' < |posts| && HasMessage(posts[k']) ==>
                    ContentScore(partial, content.value, posts[k']) <= ContentScore(partial, content.value, posts[k]))
              && (forall k' :: 0 <= k' < k && HasMessage(posts[k']) ==>
                    ContentScore(partial, content.value, posts[k']) < ContentScore(partial, content.value, posts[k]))))
  {
    var posts := FeedPosts(api, pageId);
    if url != "" {
      var hit := FirstPermalinkHit(posts, url);
      if hit.Some? {
        assert PermalinkHit(posts[hit.value], url);
      }
    }
    if content.Some? && |content.value| > CONTENT_MIN_LENGTH {
      ContentPassFirstMax(partial, content.value, posts, 0, NoPost);
      var b := ContentPass(partial, content.value, posts, 0, NoPost);
      if b.at.Some? {
        assert ContentScore(partial, content.value, posts[b.at.value]) == b.score;
      }
    }
  }

  /** The validation requests: two at most. */
  method ValidateUrlPostId(api: FbApi, pageId: string, url: string) returns (r: Option<string>)
    ensures r == ValidatedId(api, pageId, url)
  {
    if url == "" {
      return None;
    }
    var ref := ExtractPostId(url);
    if ref.post.None? {
      return None;
    }
    var full: string;
    if ref.page.Some? && ref.post.Some? {
      full := ref.page.value + "_" + ref.post.value;
    } else if pageId != "" && ref.post.Some? {
      full := pageId + "_" + ref.post.value;
    } else {
      full := ref.post.value;
    }
    var answer := api.probe(full, 0);
    if answer == ProbeOk {
      return Some(full);
    } else if answer == ProbeNotOk && pageId != "" && ref.page.None? {
      var alt := pageId + "_" + ref.post.value;
      var altAnswer := api.probe(alt, 1);
      if altAnswer == ProbeOk {
        return Some(alt);
      }
    }
    return None;
  }

  /** The permalink loop over the feed. */
  method PermalinkSearch(posts: seq<FeedPost>, url: string) returns (r: Option<nat>)
    ensures r == FirstPermalinkHit(posts, url)
  {
    var k := 0;
    while k < |posts|
      invariant k <= |posts|
      invariant forall k' :: 0 <= k' < k ==> !PermalinkHit(posts[k'], url)
    {
      var post := posts[k];
      if post.permalink.Some? && Contains(post.permalink.value, url) {
        assert PermalinkHit(posts[k], url);
        return Some(k);
      }
      k := k + 1;
    }
    return None;
  }

  /** The content loop over the feed. */
  method ContentSearch(partial: Scorer, content: string, posts: seq<FeedPost>) returns (b: BestPost)
    ensures b == ContentPass(partial, content, posts, 0, NoPost)
  {
    var bestScore := 0;
    var bestMatch: Option<nat> := None;
    var k := 0;
    while k < |posts|
      invariant k <= |posts|
      invariant ContentPass(partial, content, posts, 0, NoPost)
             == ContentPass(partial, content, posts, k, BestPost(bestScore, bestMatch))
    {
      var post := posts[k];
      if post.message.Some? && post.message.value != "" {
        var score := partial(Lower(content), Lower(post.message.value));
        if score > bestScore {
          bestScore := score;
          bestMatch := Some(k);
        }
      }
      k := k + 1;
    }
    return BestPost(bestScore, bestMatch);
  }

  /** The source's lookup: validation, then the two feed loops. */
  method FindPostByUrlOrContent(api: FbApi, partial: Scorer, pageId: string, url: string, content: Option<string>)
    returns (r: Option<string>)
    ensures r == FindPost(api, partial, pageId, url, content)
  {
    r := ValidateUrlPostId(api, pageId, url);
    if r.Some? {
      return;
    }
    var posts := FeedPosts(api, pageId);
    if url != "" {
      var hit := PermalinkSearch(posts, url);
      if hit.Some? {
        return Some(posts[hit.value].id);
      }
    }
    if content.Some? && |content.value| > CONTENT_MIN_LENGTH {
      var b := ContentSearch(partial, content.value, posts);
      ContentPassFirstMax(partial, content.value, posts, 0, NoPost);
      if b.at.Some? && b.score > CONTENT_THRESHOLD {
        return Some(posts[b.at.value].id);
      }
    }
    return None;
  }

  // ------------------------------------ get_facebook_comments and replies

  /** `get_comment_replies`: every reply page, with no cap; a non-200 or
      empty page ends the loop and keeps what was gathered, a raise
      discards it. */
  function CommentReplies(api: FbApi, commentId: string): seq<FbComment> {
    var c := Collect(api.replies(commentId), 0, Unlimited, 0);
    if c.raised then [] else c.items
  }

  /** `get_facebook_comments`: the capped top-level loop, then each comment
      with `comment_count > 0` gets its replies and every other comment
      none. If a request raised, the comments gathered so far come back
      without replies. */
  function FacebookComments(api: FbApi, postId: string, cap: Cap): (r: seq<FbThread>)
    ensures var c := Collect(api.comments(postId), 0, cap, 0);
      && |r| == |c.items|
      && (forall i :: 0 <= i < |r| ==> r[i].comment == c.items[i])
      && (forall i :: 0 <= i < |r| && (c.raised || r[i].comment.commentCount <= 0) ==> r[i].replies == [])
      && (forall i :: 0 <= i < |r| && !c.raised && r[i].comment.commentCount > 0 ==>
            r[i].replies == CommentReplies(api, r[i].comment.id))
  {
    var c := Collect(api.comments(postId), 0, cap, 0);
    seq(|c.items|, i requires 0 <= i < |c.items| =>
      FbThread(c.items[i],
        if !c.raised && c.items[i].commentCount > 0 then CommentReplies(api, c.items[i].id) else []))
  }

  /** With `limit=0` no page is requested and nothing is returned; otherwise
      the comments can pass the limit, by less than one page. */
  lemma FacebookCommentsCap(api: FbApi, postId: string, limit: nat, size: nat)
    requires forall i :: 0 <= i < |api.comments(postId)| && api.comments(postId)[i].Ok? ==>
      |api.comments(postId)[i].data| <= size
    ensures limit == 0 ==> Collect(api.comments(postId), 0, Limit(limit), 0).requests == 0
    ensures limit == 0 ==> FacebookComments(api, postId, Limit(limit)) == []
    ensures limit > 0 ==> |FacebookComments(api, postId, Limit(limit))| < limit + size
  {
    CollectOvershoot(api.comments(postId), 0, limit, 0, size);
  }

  /** Reply pages up to a non-200 page are kept; a raise after them loses
      them all. */
  lemma CommentRepliesStop(api: FbApi, commentId: string, k: nat)
    requires forall i :: 0 <= i < k ==> Continues(PageAt(api.replies(commentId), i))
    requires PageAt(api.replies(commentId), k).NotOk? || PageAt(api.replies(commentId), k).Raised?
    ensures AllOk(api.replies(commentId), 0, k)
    ensures PageAt(api.replies(commentId), k).NotOk? ==> CommentReplies(api, commentId) == Flat(api.replies(commentId), 0, k)
    ensures PageAt(api.replies(commentId), k).Raised? ==> CommentReplies(api, commentId) == []
  {
    CollectUnlimitedUpTo(api.replies(commentId), 0, k, 0);
  }

  method GetCommentReplies(api: FbApi, commentId: string) returns (replies: seq<FbComment>)
    ensures replies == CommentReplies(api, commentId)
  {
    var raised;
    replies, raised := CollectLoop(api.replies(commentId), Unlimited, 0);
    if raised {
      replies := [];
    }
  }

  method GetFacebookComments(api: FbApi, postId: string, cap: Cap) returns (threads: seq<FbThread>)
    ensures threads == FacebookComments(api, postId, cap)
  {
    var all, raised := CollectLoop(api.comments(postId), cap, 0);
    if raised {
      return seq(|all|, i requires 0 <= i < |all| => FbThread(all[i], []));
    }
    threads := [];
    var i := 0;
    while i < |all|
      invariant i <= |all|
      invariant |threads| == i
      invariant forall j :: 0 <= j < i ==> threads[j] == FacebookComments(api, postId, cap)[j]
    {
      var comment := all[i];
      var replies: seq<FbComment> := [];
      if comment.commentCount > 0 {
        replies := GetCommentReplies(api, comment.id);
      }
      threads := threads + [FbThread(comment, replies)];
      i := i + 1;
    }
  }

  // ------------------------------------------------ format_comments_for_output

  /** A payload comment as a row's content, with the Facebook defaults:
      author 'Unknown', message '' and likes 0. */
  function FbEntry(c: FbComment): Entry {
    Entry(c.createdTime, c.likeCount.GetOr(0), c.message.GetOr(""), c.fromName.GetOr("Unknown"))
  }

  /** The replies of one thread, in order, as row entries. What they become
      in the rows is stated by `FormattedReply`. */
  function FbReplies(replies: seq<FbComment>): seq<Entry> {
    seq(|replies|, j requires 0 <= j < |replies| => FbEntry(replies[j]))
  }

  /** The threads as row entries, in order. What they become in the rows is
      stated by `FormattedComment` and `FormattedReply`. */
  function FbThreads(threads: seq<FbThread>): seq<Thread> {
    seq(|threads|, i requires 0 <= i < |threads| =>
      Thread(FbEntry(threads[i].comment), FbReplies(threads[i].replies)))
  }

  /** `format_comments_for_output`: the payload defaults applied, then the
      rows laid out thread by thread. */
  method FormatCommentsForOutput(threads: seq<FbThread>, client: string, url: string, captured: string)
    returns (rows: seq<Row>)
    ensures rows == Flatten(FbThreads(threads), Context(client, url, "facebook", captured))
  {
    rows := FlattenThreads(FbThreads(threads), Context(client, url, "facebook", captured));
  }

  /** Each comment's row carries its number, an empty sub-id, and the
      Facebook defaults for a missing author, message or like count. */
  lemma FormattedComment(threads: seq<FbThread>, client: string, url: string, captured: string, i: nat)
    requires i < |threads|
    ensures Offset(FbThreads(threads), i) + |threads[i].replies|
          < |Flatten(FbThreads(threads), Context(client, url, "facebook", captured))|
    ensures var r := Flatten(FbThreads(threads), Context(client, url, "facebook", captured))[Offset(FbThreads(threads), i)];
      var c := threads[i].comment;
      && r.id == i + 1 && r.subId == ""
      && r.author == (if c.fromName.Some? then c.fromName.value else "Unknown")
      && r.comment == (if c.message.Some? then c.message.value else "")
      && r.likes == (if c.likeCount.Some? then c.likeCount.value else 0)
      && r.platform == "facebook" && r.client == client && r.url == url
  {
    var ts := FbThreads(threads);
    FlattenLayout(ts, Context(client, url, "facebook", captured), i);
    assert ts[i] == Thread(FbEntry(threads[i].comment), FbReplies(threads[i].replies));
  }

  /** Reply j of comment i follows the comment's row with sub-id "i.j" and
      the same defaults. */
  lemma FormattedReply(threads: seq<FbThread>, client: string, url: string, captured: string, i: nat, j: nat)
    requires i < |threads| && j < |threads[i].replies|
    ensures Offset(FbThreads(threads), i) + 1 + j
          < |Flatten(FbThreads(threads), Context(client, url, "facebook", captured))|
    ensures var r := Flatten(FbThreads(threads), Context(client, url, "facebook", captured))[Offset(FbThreads(threads), i) + 1 + j];
      var c := threads[i].replies[j];
      && r.id == i + 1 && r.subId == SubId(i + 1, j + 1)
      && r.author == (if c.fromName.Some? then c.fromName.value else "Unknown")
      && r.comment == (if c.message.Some? then c.message.value else "")
      && r.likes == (if c.likeCount.Some? then c.likeCount.value else 0)
      && r.platform == "facebook" && r.client == client && r.url == url
  {
    var ts := FbThreads(threads);
    FlattenLayout(ts, Context(client, url, "facebook", captured), i);
    assert ts[i] == Thread(FbEntry(threads[i].comment), FbReplies(threads[i].replies));
    assert ts[i].replies[j] == FbEntry(threads[i].replies[j]);
  }

  // ------------------------------------------------------------ process_link

  /** The post id `process_link` settles on for a matched page. */
  function PostIdFor(api: FbApi, partial: Scorer, page: FbPage, url: string): Option<string> {
    var ref := ExtractPostId(url);
    if ref.page.Some? && ref.post.Some? then Some(ref.page.value + "_" + ref.post.value)
    else if page.id != "" && ref.post.Some? then Some(page.id + "_" + ref.post.value)
    else FindPost(api, partial, page.id, url, None)
  }

  /** One pass of the alias loop: nothing when the alias is empty, its page
      is not found or has no id or token, no post id is found, or the post
      has no comments; otherwise the rows of the comments, tagged with the
      alias and the URL. */
  function AliasRows(pages: seq<FbPage>, api: FbApi, ratio: Scorer, partial: Scorer, url: string,
                     name: string, captured: string): (r: Option<seq<Row>>)
    ensures r.Some? ==> |r.value| > 0 && name != "" && forall j :: 0 <= j < |r.value| ==>
      r.value[j].client == name && r.value[j].url == url && r.value[j].platform == "facebook"
  {
    if name == "" then None
    else match PageDetails(ratio, pages, name)
      case None => None
      case Some(page) =>
        if page.id == "" || page.token == "" then None
        else match PostIdFor(api, partial, page, url)
          case None => None
          case Some(postId) =>
            if postId == "" then None
            else
              var threads := FacebookComments(api, postId, Limit(COMMENT_LIMIT));
              if |threads| == 0 then None
              else
                var ctx := Context(name, url, "facebook", captured);
                FlattenContext(FbThreads(threads), ctx);
                Some(Flatten(FbThreads(threads), ctx))
  }

  /** The alias loop from alias number i on: the first alias that yields
      rows decides. */
  function TryAliases(pages: seq<FbPage>, api: FbApi, ratio: Scorer, partial: Scorer, url: string,
                      names: seq<string>, i: nat, captured: string): (r: Option<seq<Row>>)
    decreases |names| - i
    ensures r.Some? ==> exists k :: i <= k < |names| && FirstWorking(pages, api, ratio, partial, url, names, i, captured, k, r.value)
    ensures r.None? ==> forall k :: i <= k < |names| ==> AliasRows(pages, api, ratio, partial, url, names[k], captured).None?
  {
    if i >= |names| then None
    else match AliasRows(pages, api, ratio, partial, url, names[i], captured)
      case Some(rows) =>
        assert FirstWorking(pages, api, ratio, partial, url, names, i, captured, i, rows);
        Some(rows)
      case None =>
        var r := TryAliases(pages, api, ratio, partial, url, names, i + 1, captured);
        if r.Some? then
          var k :| i + 1 <= k < |names| && FirstWorking(pages, api, ratio, partial, url, names, i + 1, captured, k, r.value);
          FirstWorkingBack(pages, api, ratio, partial, url, names, i, captured, k, r.value);
          r
        else r
  }

  /** An alias that yields nothing does not change which later alias is
      the first to work. */
  lemma FirstWorkingBack(pages: seq<FbPage>, api: FbApi, ratio: Scorer, partial: Scorer, url: string,
                         names: seq<string>, i: nat, captured: string, k: nat, rows: seq<Row>)
    requires i < |names| && AliasRows(pages, api, ratio, partial, url, names[i], captured).None?
    requires FirstWorking(pages, api, ratio, partial, url, names, i + 1, captured, k, rows)
    ensures FirstWorking(pages, api, ratio, partial, url, names, i, captured, k, rows)
  {
  }

  /** Alias k, from alias i on, is the first to yield rows, and they are
      `rows`. */
  predicate FirstWorking(pages: seq<FbPage>, api: FbApi, ratio: Scorer, partial: Scorer, url: string,
                         names: seq<string>, i: nat, captured: string, k: nat, rows: seq<Row>) {
    && i <= k < |names|
    && AliasRows(pages, api, ratio, partial, url, names[k], captured) == Some(rows)
    && forall j :: i <= j < k ==> AliasRows(pages, api, ratio, partial, url, names[j], captured).None?
  }

  /** What one `process_link` call does to the fetcher. */
  datatype FbOutcome = Ignored | Succeeded(rows: seq<Row>) | Failed

  /** `process_link`: a URL that is empty or lacks 'facebook' (case
      sensitive) is ignored; without a usable client, or when no alias
      works, the link fails; otherwise the first working alias's rows. */
  function FbProcess(pages: seq<FbPage>, api: FbApi, ratio: Scorer, partial: Scorer,
                     url: string, client: ClientValue, captured: string): FbOutcome {
    if url == "" || !Contains(url, "facebook") then Ignored
    else if !Truthy(client) then Failed
    else FbProcessOf(TryAliases(pages, api, ratio, partial, url, MappedNames(client), 0, captured))
  }

  /** The outcome of a link whose alias loop ran: the first working
      alias's rows, or a failure. */
  function FbProcessOf(found: Option<seq<Row>>): FbOutcome {
    match found
    case Some(rows) => Succeeded(rows)
    case None => Failed
  }

  /** A link is ignored exactly when it is empty or lacks 'facebook'; a
      link without a text client always fails; a success has rows, all
      tagged with one non-empty alias of the client, the URL and the
      platform. */
  lemma FbProcessOutcomes(pages: seq<FbPage>, api: FbApi, ratio: Scorer, partial: Scorer,
                          url: string, client: ClientValue, captured: string)
    ensures var o := FbProcess(pages, api, ratio, partial, url, client, captured);
      && (o.Ignored? <==> url == "" || !Contains(url, "facebook"))
      && (!o.Ignored? && (!client.Text? || client.s == "") ==> o.Failed?)
      && (o.Succeeded? ==> client.Text? && |o.rows| > 0 && exists k :: (0 <= k < |Aliases(client.s)|
            && Aliases(client.s)[k] != ""
            && forall j :: 0 <= j < |o.rows| ==>
                 o.rows[j].client == Aliases(client.s)[k] && o.rows[j].url == url && o.rows[j].platform == "facebook"))
  {
  }

  /** `FacebookCommentsFetcher`: the page dictionary read at construction,
      and the rows and failed links gathered so far. */
  class Fetcher {
    const pages: seq<FbPage>
    var allComments: seq<Row>
    var failedLinks: seq<string>

    /** The page dictionary is read from the `me/accounts` answer. */
    constructor(accounts: Response<FbPage>)
      ensures pages == PageDict(accounts) && allComments == [] && failedLinks == []
    {
      var table := GetFacebookPageIdAndToken(accounts);
      pages := table;
      allComments := [];
      failedLinks := [];
    }

    /** The body of the alias loop for one alias. */
    method ProcessAlias(api: FbApi, ratio: Scorer, partial: Scorer, url: string, name: string, captured: string)
      returns (r: Option<seq<Row>>)
      ensures r == AliasRows(pages, api, ratio, partial, url, name, captured)
    {
      if name == "" {
        return None;
      }
      var page := GetPageDetailsByName(ratio, pages, name);
      if page.None? || page.value.id == "" || page.value.token == "" {
        return None;
      }
      var ref := ExtractPostId(url);
      var postId: Option<string> := None;
      if ref.page.Some? && ref.post.Some? {
        postId := Some(ref.page.value + "_" + ref.post.value);
      } else if page.value.id != "" && ref.post.Some? {
        postId := Some(page.value.id + "_" + ref.post.value);
      }
      if postId.None? {
        postId := FindPostByUrlOrContent(api, partial, page.value.id, url, None);
      }
      if postId.None? || postId.value == "" {
        return None;
      }
      var comments := GetFacebookComments(api, postId.value, Limit(COMMENT_LIMIT));
      if |comments| == 0 {
        return None;
      }
      var formatted := FormatCommentsForOutput(comments, name, url, captured);
      return Some(formatted);
    }

    /** `process_link`: on success the rows are appended to `all_comments`
        and returned; a failure appends the URL to `failed_links` once; an
        ignored URL changes nothing. */
    method ProcessLink(api: FbApi, ratio: Scorer, partial: Scorer, url: string, client: ClientValue, captured: string)
      returns (r: seq<Row>)
      modifies this
      ensures match FbProcess(pages, api, ratio, partial, url, client, captured)
        case Ignored => r == [] && allComments == old(allComments) && failedLinks == old(failedLinks)
        case Succeeded(rows) => r == rows && allComments == old(allComments) + rows && failedLinks == old(failedLinks)
        case Failed => r == [] && allComments == old(allComments) && failedLinks == old(failedLinks) + [url]
    {
      ghost var o := FbProcess(pages, api, ratio, partial, url, client, captured);
      if url == "" || !Contains(url, "facebook") {
        assert o == Ignored;
        return [];
      }
      if !Truthy(client) {
        assert o == Failed;
        failedLinks := failedLinks + [url];
        return [];
      }
      var found := FirstAliasRows(api, ratio, partial, url, MappedNames(client), captured);
      assert o == FbProcessOf(found);
      if found.Some? {
        allComments := allComments + found.value;
        return found.value;
      }
      failedLinks := failedLinks + [url];
      return [];
    }

    /** The loop over the client's aliases, stopping at the first that
        yields rows. */
    method FirstAliasRows(api: FbApi, ratio: Scorer, partial: Scorer, url: string, names: seq<string>, captured: string)
      returns (found: Option<seq<Row>>)
      ensures found == TryAliases(pages, api, ratio, partial, url, names, 0, captured)
    {
      var i := 0;
      while i < |names|
        invariant i <= |names|
        invariant TryAliases(pages, api, ratio, partial, url, names, 0, captured)
               == TryAliases(pages, api, ratio, partial, url, names, i, captured)
      {
        var rows := ProcessAlias(api, ratio, partial, url, names[i], captured);
        if rows.Some? {
          assert TryAliases(pages, api, ratio, partial, url, names, i, captured) == rows;
          return rows;
        }
        assert TryAliases(pages, api, ratio, partial, url, names, i, captured)
            == TryAliases(pages, api, ratio, partial, url, names, i + 1, captured);
        i := i + 1;
      }
      return None;
    }
  }
}
