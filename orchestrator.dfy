/** `process_links`: the spreadsheet rows are split by platform, every
    Instagram link and then every Facebook link is processed, the rows of
    both fetchers are combined into one frame, and the links that failed
    are tried once more, without a client. */
module Orchestrator {
  import opened Wrappers
  import opened Text
  import opened Matching
  import opened Rows
  import opened Paging
  import Ig = InstagramFetcher
  import Fb = FacebookFetcher

  /** One spreadsheet row: its `client` cell and its `link`. */
  datatype InputRow = InputRow(client: ClientValue, link: string)

  /** `link.str.contains(word, case=False)`. */
  predicate Mentions(link: string, word: string) {
    Contains(Lower(link), word)
  }

  /** The rows whose link mentions `word`, in their order. */
  function Select(rows: seq<InputRow>, word: string): (r: seq<InputRow>)
    decreases |rows|
  {
    if |rows| == 0 then []
    else
      var last := rows[|rows| - 1];
      Select(rows[..|rows| - 1], word) + (if Mentions(last.link, word) then [last] else [])
  }

  /** Selection keeps exactly the rows that mention the word. */
  lemma {:induction false} SelectExactly(rows: seq<InputRow>, word: string)
    ensures |Select(rows, word)| <= |rows|
    ensures forall x :: x in Select(rows, word) <==> x in rows && Mentions(x.link, word)
    decreases |rows|
  {
    if |rows| > 0 {
      var init := rows[..|rows| - 1];
      SelectExactly(init, word);
      assert rows == init + [rows[|rows| - 1]];
    }
  }

  /** What a pass over the rows leaves in a fetcher: `all_comments` and
      `failed_links`. */
  datatype Gathered = Gathered(comments: seq<Row>, failed: seq<string>)

  /** The Instagram loop: a raise is caught here and the link recorded as
      failed; the fetcher itself never records one. */
  function IgRun(api: Ig.IgApi, ratio: Scorer, rows: seq<InputRow>, captured: string): Gathered
    decreases |rows|
  {
    if |rows| == 0 then Gathered([], [])
    else
      var row := rows[|rows| - 1];
      IgStep(IgRun(api, ratio, rows[..|rows| - 1], captured), row.link, Ig.IgProcess(api, ratio, row.link, row.client, captured))
  }

  /** One link of the Instagram loop. */
  function IgStep(g: Gathered, link: string, o: Ig.IgOutcome): Gathered {
    match o
    case IgNothing => g
    case IgRaised => g.(failed := g.failed + [link])
    case IgSucceeded(_, rs) => g.(comments := g.comments + rs)
  }

  /** The Facebook loop: the fetcher records its own failures and raises
      nothing. */
  function FbRun(pages: seq<Fb.FbPage>, api: Fb.FbApi, ratio: Scorer, partial: Scorer,
                 rows: seq<InputRow>, captured: string): Gathered
    decreases |rows|
  {
    if |rows| == 0 then Gathered([], [])
    else
      var g := FbRun(pages, api, ratio, partial, rows[..|rows| - 1], captured);
      var row := rows[|rows| - 1];
      match Fb.FbProcess(pages, api, ratio, partial, row.link, row.client, captured)
      case Ignored => g
      case Failed => g.(failed := g.failed + [row.link])
      case Succeeded(rs) => g.(comments := g.comments + rs)
  }

  /** The combined file's columns: `author` is not among them. */
  const COMBINED_COLUMNS: seq<string> := [
    "id", "sub_id", "date", "week", "likes", "live_video_timestamp", "comment",
    "image_urls", "view_source", "timestamp", "client", "url", "platform"]

  /** The combined frame: none without rows, else every row with its week,
      under the thirteen columns. */
  function Combine(rows: seq<Row>): (t: Option<Table>)
    ensures t.None? <==> |rows| == 0
    ensures t.Some? ==> t.value.columns == COMBINED_COLUMNS
    ensures t.Some? ==> (|t.value.rows| == |rows|
      && forall k :: 0 <= k < |rows| ==> t.value.rows[k] == FinishRow(rows[k]))
  {
    CombinedKeys();
    FilterAllPresent(COMBINED_COLUMNS, ROW_KEYS);
    Frame(COMBINED_COLUMNS, rows)
  }

  /** Every combined column is a key of the rows. */
  lemma CombinedKeys()
    ensures forall k :: 0 <= k < |COMBINED_COLUMNS| ==> COMBINED_COLUMNS[k] in ROW_KEYS
  {
    forall k | 0 <= k < |COMBINED_COLUMNS| ensures COMBINED_COLUMNS[k] in ROW_KEYS {
      assert COMBINED_COLUMNS[k] == SAVED_COLUMNS[k];
    }
  }

  /** The combined file drops the `author` column of the fetchers' own
      files and keeps the rest in the same order. */
  lemma CombinedDropsAuthor()
    ensures SAVED_COLUMNS == COMBINED_COLUMNS + ["author"]
    ensures "author" !in COMBINED_COLUMNS
  {
    forall k | 0 <= k < |COMBINED_COLUMNS| ensures COMBINED_COLUMNS[k] != "author" {
      assert |COMBINED_COLUMNS[k]| != 6 || COMBINED_COLUMNS[k][0] != 'a';
    }
  }

  /** The retry of one link, for the Facebook fetcher's `failed_links`:
      an Instagram link is processed without a client, which does nothing;
      a Facebook link is processed without a client, which fails again
      unless the fetcher ignores it. */
  function RetryOne(pages: seq<Fb.FbPage>, api: Fb.FbApi, ratio: Scorer, partial: Scorer,
                    link: string, captured: string, failed: seq<string>): seq<string>
  {
    if Mentions(link, "instagram") then failed
    else if Mentions(link, "facebook") then
      match Fb.FbProcess(pages, api, ratio, partial, link, NoClient, captured)
      case Failed => failed + [link]
      case _ => failed
    else failed
  }

  function Retry(pages: seq<Fb.FbPage>, api: Fb.FbApi, ratio: Scorer, partial: Scorer,
                 links: seq<string>, captured: string, failed: seq<string>): seq<string>
    decreases |links|
  {
    if |links| == 0 then failed
    else RetryOne(pages, api, ratio, partial, links[|links| - 1], captured,
                  Retry(pages, api, ratio, partial, links[..|links| - 1], captured, failed))
  }

  /** A link the retry records again: not an Instagram link, and one that
      contains 'facebook' as written. */
  predicate FailsAgain(link: string) {
    !Mentions(link, "instagram") && Contains(link, "facebook")
  }

  function Failing(links: seq<string>): seq<string>
    decreases |links|
  {
    if |links| == 0 then []
    else Failing(links[..|links| - 1]) + (if FailsAgain(links[|links| - 1]) then [links[|links| - 1]] else [])
  }

  /** The retry can only fail: it never succeeds, since no client is
      passed, and it records again exactly the failed links that are not
      Instagram links and that contain 'facebook' as written. */
  lemma {:induction false} RetryFailsAgain(pages: seq<Fb.FbPage>, api: Fb.FbApi, ratio: Scorer, partial: Scorer,
                                           links: seq<string>, captured: string, failed: seq<string>)
    ensures Retry(pages, api, ratio, partial, links, captured, failed) == failed + Failing(links)
    decreases |links|
  {
    if |links| > 0 {
      var init := links[..|links| - 1];
      var link := links[|links| - 1];
      RetryFailsAgain(pages, api, ratio, partial, init, captured, failed);
      var before := Retry(pages, api, ratio, partial, init, captured, failed);
      RetryOneFailsAgain(pages, api, ratio, partial, link, captured, before);
      var again := if FailsAgain(link) then [link] else [];
      assert Failing(links) == Failing(init) + again;
      assert (failed + Failing(init)) + again == failed + (Failing(init) + again);
    }
  }

  /** One link of the retry is recorded again exactly when it fails again. */
  lemma RetryOneFailsAgain(pages: seq<Fb.FbPage>, api: Fb.FbApi, ratio: Scorer, partial: Scorer,
                           link: string, captured: string, failed: seq<string>)
    ensures RetryOne(pages, api, ratio, partial, link, captured, failed)
         == failed + (if FailsAgain(link) then [link] else [])
  {
    Fb.FbProcessOutcomes(pages, api, ratio, partial, link, NoClient, captured);
    if Contains(link, "facebook") {
      assert Lower("facebook") == "facebook";
      ContainsLower(link, "facebook");
    }
    if !FailsAgain(link) {
      assert failed + [] == failed;
    }
  }

  /** A link spelled `Facebook` (and without a lower-case 'facebook') is
      selected for the Facebook pass but ignored by the fetcher: it yields
      no rows and is not recorded as failed. */
  lemma CapitalisedLinkIgnored(pages: seq<Fb.FbPage>, api: Fb.FbApi, ratio: Scorer, partial: Scorer,
                               link: string, client: ClientValue, captured: string)
    requires Mentions(link, "facebook") && !Contains(link, "facebook")
    ensures Fb.FbProcess(pages, api, ratio, partial, link, client, captured) == Fb.Ignored
  {
  }

  /** The Instagram retry is a no-op: without a client nothing is fetched,
      nothing raises and nothing is recorded. */
  lemma IgRetryNoOp(api: Ig.IgApi, ratio: Scorer, link: string, captured: string)
    ensures Ig.IgProcess(api, ratio, link, NoClient, captured) == Ig.IgNothing
  {
    Ig.IgProcessNoClient(api, ratio, link, captured);
  }

  /** Every combined row comes from one of the two passes, the Instagram
      rows first; each keeps its platform tag. */
  lemma {:induction false} IgRunPlatform(api: Ig.IgApi, ratio: Scorer, rows: seq<InputRow>, captured: string)
    ensures forall k :: 0 <= k < |IgRun(api, ratio, rows, captured).comments| ==>
      IgRun(api, ratio, rows, captured).comments[k].platform == "instagram"
    decreases |rows|
  {
    if |rows| > 0 {
      var row := rows[|rows| - 1];
      IgRunPlatform(api, ratio, rows[..|rows| - 1], captured);
      IgProcessPlatform(api, ratio, row.link, row.client, captured);
      var before := IgRun(api, ratio, rows[..|rows| - 1], captured).comments;
      match Ig.IgProcess(api, ratio, row.link, row.client, captured) {
        case IgNothing =>
        case IgRaised =>
        case IgSucceeded(_, rs) =>
          PlatformConcat(before, rs, "instagram");
      }
    }
  }

  /** The rows of one Instagram success carry the platform tag. */
  lemma IgProcessPlatform(api: Ig.IgApi, ratio: Scorer, link: string, client: ClientValue, captured: string)
    ensures var o := Ig.IgProcess(api, ratio, link, client, captured);
      o.IgSucceeded? ==> forall j :: 0 <= j < |o.rows| ==> o.rows[j].platform == "instagram"
  {
    var o := Ig.IgProcess(api, ratio, link, client, captured);
    if o.IgSucceeded? {
      Ig.IgProcessNeedsCode(api, ratio, link, client, captured);
      Ig.IgForCodeSuccess(api, ratio, Ig.ExtractMediaCode(link).value, link, client, captured);
    }
  }

  /** Two runs of rows with one platform tag make one run. */
  lemma PlatformConcat(a: seq<Row>, b: seq<Row>, platform: string)
    requires forall k :: 0 <= k < |a| ==> a[k].platform == platform
    requires forall k :: 0 <= k < |b| ==> b[k].platform == platform
    ensures forall k :: 0 <= k < |a + b| ==> (a + b)[k].platform == platform
  {
  }

  lemma {:induction false} FbRunPlatform(pages: seq<Fb.FbPage>, api: Fb.FbApi, ratio: Scorer, partial: Scorer,
                                         rows: seq<InputRow>, captured: string)
    ensures forall k :: 0 <= k < |FbRun(pages, api, ratio, partial, rows, captured).comments| ==>
      FbRun(pages, api, ratio, partial, rows, captured).comments[k].platform == "facebook"
    decreases |rows|
  {
    if |rows| > 0 {
      var row := rows[|rows| - 1];
      FbRunPlatform(pages, api, ratio, partial, rows[..|rows| - 1], captured);
      Fb.FbProcessOutcomes(pages, api, ratio, partial, row.link, row.client, captured);
    }
  }

  /** `process_links` as a value: the combined frame and the two
      fetchers' lists after the main passes. */
  function IgGathered(api: Ig.IgApi, ratio: Scorer, rows: seq<InputRow>, captured: string): Gathered {
    IgRun(api, ratio, Select(rows, "instagram"), captured)
  }

  function FbGathered(pages: seq<Fb.FbPage>, api: Fb.FbApi, ratio: Scorer, partial: Scorer,
                      rows: seq<InputRow>, captured: string): Gathered {
    FbRun(pages, api, ratio, partial, Select(rows, "facebook"), captured)
  }

  /** The combined frame lists the Instagram rows, then the Facebook rows,
      each with its platform tag. */
  lemma CombinedPlatforms(ig: seq<Row>, fb: seq<Row>)
    requires forall k :: 0 <= k < |ig| ==> ig[k].platform == "instagram"
    requires forall k :: 0 <= k < |fb| ==> fb[k].platform == "facebook"
    ensures var t := Combine(ig + fb);
      t.Some? ==> (
        && (forall k :: 0 <= k < |ig| ==> t.value.rows[k].platform == "instagram")
        && (forall k :: |ig| <= k < |ig| + |fb| ==> t.value.rows[k].platform == "facebook"))
  {
    var all := ig + fb;
    forall k | |ig| <= k < |all| ensures all[k].platform == "facebook" {
      assert all[k] == fb[k - |ig|];
    }
  }

  lemma CombinedRows(pages: seq<Fb.FbPage>, igApi: Ig.IgApi, fbApi: Fb.FbApi, ratio: Scorer, partial: Scorer,
                     rows: seq<InputRow>, captured: string)
    ensures var ig := IgGathered(igApi, ratio, rows, captured).comments;
      var fb := FbGathered(pages, fbApi, ratio, partial, rows, captured).comments;
      var t := Combine(ig + fb);
      t.Some? ==> (
        && (forall k :: 0 <= k < |ig| ==> t.value.rows[k].platform == "instagram")
        && (forall k :: |ig| <= k < |ig| + |fb| ==> t.value.rows[k].platform == "facebook"))
  {
    IgRunPlatform(igApi, ratio, Select(rows, "instagram"), captured);
    FbRunPlatform(pages, fbApi, ratio, partial, Select(rows, "facebook"), captured);
    CombinedPlatforms(IgGathered(igApi, ratio, rows, captured).comments,
                      FbGathered(pages, fbApi, ratio, partial, rows, captured).comments);
  }

  /** The Instagram loop: a raise escaping `process_link` is recorded in
      the fetcher's `failed_links`. */
  method InstagramPass(ig: Ig.Fetcher, api: Ig.IgApi, ratio: Scorer, rows: seq<InputRow>, captured: string)
    requires ig.allComments == [] && ig.failedLinks == []
    modifies ig
    ensures Gathered(ig.allComments, ig.failedLinks) == IgRun(api, ratio, rows, captured)
  {
    var i := 0;
    while i < |rows|
      invariant i <= |rows|
      invariant Gathered(ig.allComments, ig.failedLinks) == IgRun(api, ratio, rows[..i], captured)
    {
      var row := rows[i];
      assert rows[..i + 1][..i] == rows[..i];
      ghost var o := Ig.IgProcess(api, ratio, row.link, row.client, captured);
      assert IgRun(api, ratio, rows[..i + 1], captured) == IgStep(IgRun(api, ratio, rows[..i], captured), row.link, o);
      var raised, _ := ig.ProcessLink(api, ratio, row.link, row.client, captured);
      if raised {
        ig.failedLinks := ig.failedLinks + [row.link];
      }
      i := i + 1;
    }
    assert rows[..|rows|] == rows;
  }

  /** The Facebook loop. */
  method FacebookPass(fb: Fb.Fetcher, api: Fb.FbApi, ratio: Scorer, partial: Scorer, rows: seq<InputRow>, captured: string)
    requires fb.allComments == [] && fb.failedLinks == []
    modifies fb
    ensures Gathered(fb.allComments, fb.failedLinks) == FbRun(fb.pages, api, ratio, partial, rows, captured)
  {
    var j := 0;
    while j < |rows|
      invariant j <= |rows|
      invariant Gathered(fb.allComments, fb.failedLinks) == FbRun(fb.pages, api, ratio, partial, rows[..j], captured)
    {
      var row := rows[j];
      assert rows[..j + 1][..j] == rows[..j];
      var _ := fb.ProcessLink(api, ratio, partial, row.link, row.client, captured);
      j := j + 1;
    }
    assert rows[..|rows|] == rows;
  }

  /** The retry loop over a snapshot of the failed links: Instagram links
      go to the Instagram fetcher, which leaves its state as it was, and
      the others that mention 'facebook' to the Facebook fetcher. */
  method RetryPass(ig: Ig.Fetcher, fb: Fb.Fetcher, igApi: Ig.IgApi, fbApi: Fb.FbApi, ratio: Scorer, partial: Scorer,
                   failed: seq<string>, captured: string)
    modifies ig, fb
    ensures ig.allComments == old(ig.allComments) && ig.failedLinks == old(ig.failedLinks)
    ensures fb.allComments == old(fb.allComments)
    ensures fb.failedLinks == old(fb.failedLinks) + Failing(failed)
  {
    var k := 0;
    while k < |failed|
      invariant k <= |failed|
      invariant fb.failedLinks == Retry(fb.pages, fbApi, ratio, partial, failed[..k], captured, old(fb.failedLinks))
      invariant fb.allComments == old(fb.allComments)
      invariant ig.allComments == old(ig.allComments) && ig.failedLinks == old(ig.failedLinks)
    {
      assert failed[..k + 1][..k] == failed[..k];
      RetryLink(ig, fb, igApi, fbApi, ratio, partial, failed[k], captured);
      k := k + 1;
    }
    assert failed[..|failed|] == failed;
    RetryFailsAgain(fb.pages, fbApi, ratio, partial, failed, captured, old(fb.failedLinks));
  }

  /** One link of the retry loop. */
  method RetryLink(ig: Ig.Fetcher, fb: Fb.Fetcher, igApi: Ig.IgApi, fbApi: Fb.FbApi, ratio: Scorer, partial: Scorer,
                   link: string, captured: string)
    modifies ig, fb
    ensures ig.allComments == old(ig.allComments) && ig.failedLinks == old(ig.failedLinks)
    ensures fb.allComments == old(fb.allComments)
    ensures fb.failedLinks == RetryOne(fb.pages, fbApi, ratio, partial, link, captured, old(fb.failedLinks))
  {
    if Mentions(link, "instagram") {
      IgRetryNoOp(igApi, ratio, link, captured);
      var _, _ := ig.ProcessLink(igApi, ratio, link, NoClient, captured);
    } else if Mentions(link, "facebook") {
      Fb.FbProcessOutcomes(fb.pages, fbApi, ratio, partial, link, NoClient, captured);
      var _ := fb.ProcessLink(fbApi, ratio, partial, link, NoClient, captured);
    }
  }

  /** `process_links`: the combined frame, and the two fetchers in the
      state the retry leaves them in. With no rows at all there is no
      frame and no retry. */
  method ProcessLinks(accounts: Response<Fb.FbPage>, igApi: Ig.IgApi, fbApi: Fb.FbApi, ratio: Scorer, partial: Scorer,
                      rows: seq<InputRow>, captured: string)
    returns (table: Option<Table>, ig: Ig.Fetcher, fb: Fb.Fetcher)
    ensures fresh(ig) && fresh(fb)
    ensures var igG := IgGathered(igApi, ratio, rows, captured);
      var fbG := FbGathered(Fb.PageDict(accounts), fbApi, ratio, partial, rows, captured);
      && table == Combine(igG.comments + fbG.comments)
      && ig.allComments == igG.comments && ig.failedLinks == igG.failed
      && fb.allComments == fbG.comments
      && fb.failedLinks == fbG.failed + (if table.Some? then Failing(igG.failed + fbG.failed) else [])
  {
    ig := new Ig.Fetcher();
    fb := new Fb.Fetcher(accounts);
    InstagramPass(ig, igApi, ratio, Select(rows, "instagram"), captured);
    FacebookPass(fb, fbApi, ratio, partial, Select(rows, "facebook"), captured);
    table := Combine(ig.allComments + fb.allComments);
    if table.None? {
      assert fb.failedLinks + [] == fb.failedLinks;
      return;
    }
    RetryPass(ig, fb, igApi, fbApi, ratio, partial, ig.failedLinks + fb.failedLinks, captured);
  }
}
