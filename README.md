# Social-media comment collection, modelled in Dafny

The system reads a spreadsheet of post links, each with a `client` cell. The cell holds one or more comma-separated account names. The system collects every comment and reply of each post through the Facebook Graph API and writes them as rows of one table. Three parts make up the core:

- `facebook/facebook_fetcher.py` (`FacebookCommentsFetcher`):
  - builds the page dictionary from the `me/accounts` answer, where a name listed twice keeps its last page;
  - matches a client name to one of the accessible pages, by case-insensitive exact match or else by best fuzzy score above 30;
  - reads the post id from four URL shapes, or finds the post in the page feed;
  - pages through the comments (capped at 20000) and the replies (uncapped);
  - formats them as rows and records the links that failed.
- `instagram/instagram_fetcher.py` (`InstagramFetcher`):
  - resolves a client name to an Instagram business account;
  - takes the media code from the link (`/p/` before `/reel/`);
  - scans at most 30 pages of the account's media listing for that code;
  - pages through comments, reply continuations and the `total_replies` counter, then formats and tags the rows.
- `function.py` (`process_links`):
  - splits the spreadsheet by platform;
  - runs every Instagram link, then every Facebook link;
  - combines the rows into one frame with a `week` column and a fixed column order;
  - retries the failed links once.

The model has nine modules:

| module | file | contents |
|---|---|---|
| `Wrappers` | `wrappers.dfy` | `Option`; `Fallible` for a call that may raise |
| `Text` | `text.dfy` | the Python string built-ins the source uses: `in`, `split`, `strip`, `lower`, `str(int)` |
| `Paging` | `paging.dfy` | the shared cursor-pagination loop `Collect`, its imperative twin `CollectLoop`, and its laws |
| `Matching` | `matching.dfy` | exact and fuzzy name matching |
| `Rows` | `rows.dfy` | the output row, the layout of threads as rows (`id`, `sub_id`), the `week` rule and column filtering |
| `FacebookUrl` | `facebook_url.dfy` | `extract_post_id_from_url`: each regular expression as the positions where it can match |
| `FacebookFetcher` | `facebook_fetcher.dfy` | the Facebook fetcher; its state is the class `Fetcher` |
| `InstagramFetcher` | `instagram_fetcher.dfy` | the Instagram fetcher; its state is the class `Fetcher` |
| `Orchestrator` | `orchestrator.dfy` | `process_links` |

The HTTP layer is an oracle, given as a parameter:

- A paginated resource is the sequence of responses that successive requests would get. Each response is `Raised`, `NotOk` (a non-200 status) or `Ok(data, hasNext)`.
- Single requests map an id to an answer.
- `fuzz.ratio` and `fuzz.partial_ratio` are parameters of type `Scorer`, known only to return 0..100.
- `.lower()` lowercases ASCII letters, and `\d` matches the ASCII digits 0-9.
- Dates are day ordinals as in Python's `date.toordinal()`, where ordinal 1 is a Monday.
- The capture timestamp (`datetime.now()`) is the parameter `captured`.

Each loop of the source appears twice:

- a `method` with a `while` loop, proved equal to a specification function (`ensures r == Spec(...)`);
- that function's properties, proved as lemmas.

The two fetchers are classes. Their fields `allComments` and `failedLinks` are updated by `ProcessLink`, which states the complete new state for every outcome.

Facts about the source that the proofs bring out:

- The alternative post id that `find_post_by_url_or_content` tries after a failed validation (`facebook/facebook_fetcher.py:288-298`) is built from the same `page_id` and post id as the first candidate. So it is the same id requested twice (`FacebookFetcher.AlternativeIsFirstCandidate`).
- The regular-expression fallback of `extract_media_code_from_url` (`instagram/instagram_fetcher.py:392-397`) can never match. Every string it accepts contains `/p/` or `/reel/`, and those are tried first (`InstagramFetcher.RegexUnreachable`).
- `total_replies` leaves out the embedded replies of comments whose replies continue on further pages (`InstagramFetcher.ExpandCounts`).
- The retry pass gives no client. An Instagram retry therefore does nothing. A Facebook retry can only fail again, and it appends the link to `failed_links` again (`Orchestrator.RetryFailsAgain`).
- A link selected as Facebook because of `Facebook` in capitals, with no lower-case `facebook`, is ignored by `process_link`, which tests case-sensitively (`Orchestrator.CapitalisedLinkIgnored`).
- `process_link` calls `get_page_details_by_name` with one stripped alias. So the cross-alias accumulation of the fuzzy score happens only when the method is called directly with a comma-separated name.

## Model

| member | source | states |
|---|---|---|
| Text.Lower | facebook/facebook_fetcher.py:132 | `.lower()`: the same length, no upper-case ASCII letter left, each one replaced by its lower-case partner, every other character kept |
| Text.LowerIdempotent | facebook/facebook_fetcher.py:132 | lower-casing twice is lower-casing once |
| Text.Find | facebook/facebook_fetcher.py:308 | the first position where the word occurs, with no occurrence before it; None exactly when it occurs nowhere |
| Text.Split | facebook/facebook_fetcher.py:124 | `split(sep)`: at least one piece, no piece holds the separator, and the pieces joined by the separator give back the string |
| Text.StripLeft | facebook/facebook_fetcher.py:124 | only whitespace is removed from the front, and the result does not start with whitespace |
| Text.StripRight | facebook/facebook_fetcher.py:124 | only whitespace is removed from the end, and the result does not end with whitespace |
| Text.Strip | facebook/facebook_fetcher.py:124 | `strip()`: the result is the input with a run of whitespace cut from each end, there is no whitespace left at either end, and only characters of the input remain |
| Text.TrimUnique | facebook/facebook_fetcher.py:124 | a string has only one such trim, so `Text.Strip`'s contract pins its result down |
| Text.Aliases | facebook/facebook_fetcher.py:574 | `[n.strip() for n in s.split(',')]`: one alias per comma-separated piece, alias k is piece k with the whitespace trimmed from both ends, and none holds a comma or begins or ends with whitespace |
| Text.AliasesUnique | facebook/facebook_fetcher.py:574 | any list with one trimmed piece per comma-separated piece is the alias list |
| Text.AliasOfAlias | instagram/instagram_fetcher.py:430 | an alias read again as a client cell is that one alias (stripping is idempotent and an alias has no comma) |
| Text.StripIdempotent | facebook/facebook_fetcher.py:124 | `strip()` applied twice is `strip()` once |
| Text.ContainsLower | function.py:75-76 | a lower-case word found in a link is found in the lower-cased link, so a case-sensitive hit is also a case-insensitive one |
| Text.DecimalRoundTrip | facebook/facebook_fetcher.py:535 | `int(str(n)) == n` for the numbers written into sub-ids |
| Paging.CollectLoop | facebook/facebook_fetcher.py:360-399 | the loop request by request gathers exactly what `Collect` says, and raises exactly when it says |
| Paging.CollectIsWholePages | facebook/facebook_fetcher.py:378-380 | whole pages are appended: the items are the data of the first n pages requested, in order, and every request except possibly the last delivered one of them |
| Paging.CollectOvershoot | facebook/facebook_fetcher.py:360-385 | a loop whose count already reached the cap makes no request; otherwise the count ends below cap + page size, so the cap can be passed by less than one page |
| Paging.CapOvershootWitness | facebook/facebook_fetcher.py:378-385 | a first page of three items under a cap of two is kept whole |
| Paging.CollectStopReason | facebook/facebook_fetcher.py:367-397 | a loop that stops with room under its cap stopped at its last request: a raise, a non-200 page, an empty page or no `paging.next`; it reports a raise exactly when that request raised |
| Paging.CollectUnlimitedUpTo | facebook/facebook_fetcher.py:457-486 | an uncapped loop that meets k continuing pages and then a stopping one makes k + 1 requests and gathers exactly those pages (plus the stopping page's data if it is a page) |
| Paging.CollectStep | facebook/facebook_fetcher.py:378-398 | one step of the loop: a continuing page's data, then the loop from the next page with the count raised by its size |
| Paging.CollectAdvance | facebook/facebook_fetcher.py:378-398 | the loop invariant survives a continuing page |
| Paging.CollectLast | facebook/facebook_fetcher.py:367-397 | the request that does not continue adds its data if it is a page and decides whether the loop raised |
| Paging.CollectCapped | facebook/facebook_fetcher.py:360 | a loop stopped by the cap adds nothing more and did not raise |
| Matching.ExactIndex | facebook/facebook_fetcher.py:131-134 | the first name equal to the query ignoring case, and none before it; None exactly when no name is equal |
| Matching.FuzzyPassFirstMax | facebook/facebook_fetcher.py:137-141 | the fuzzy loop keeps the first maximum: the final score is at least every score seen, and a changed best is a candidate that every earlier one scores strictly below |
| Matching.FuzzyAliasesFirstMax | facebook/facebook_fetcher.py:129-141 | carried across aliases, the best is the first maximum in alias-then-page order: no pair scores more, and every earlier pair scores strictly less |
| Matching.FuzzyAliasesInRange | facebook/facebook_fetcher.py:137-141 | a best that changed points at one of the pages |
| Matching.MappedNames | facebook/facebook_fetcher.py:571-578 | no names exactly for a missing or non-text cell; a text cell, even an empty one, gives its alias list (`Text.Aliases`): one name per comma-separated piece, name k being piece k trimmed |
| Rows.ReplyRowsAt | facebook/facebook_fetcher.py:533-555 | comment i has one reply row per reply; reply j has id i and sub-id "i.(j+1)" |
| Rows.FlattenLength | facebook/facebook_fetcher.py:509-557 | one row per comment plus one per reply |
| Rows.FlattenLayout | facebook/facebook_fetcher.py:509-557 | thread i (0-based) starts at its offset with id i+1 and empty sub-id, and its replies follow it directly in order with sub-ids "(i+1).(j+1)" |
| Rows.FlattenIds | instagram/instagram_fetcher.py:331-377 | ids run from 1 to the number of comments and never decrease down the rows |
| Rows.FlattenContext | instagram/instagram_fetcher.py:331-377 | every row of one formatting call carries that call's client, url, platform and timestamp, and no week yet |
| Rows.FlattenThreads | facebook/facebook_fetcher.py:509-557 | the nested formatting loops produce exactly the specified layout |
| Rows.SubIdRoundTrip | facebook/facebook_fetcher.py:535 | the sub-id `f"{i}.{j}"` reads back as (i, j) |
| Rows.SubIdInjective | instagram/instagram_fetcher.py:357 | two replies with the same sub-id are the same reply of the same comment |
| Rows.WeekStartIsMonday | function.py:154-156 | the week of a date is a Monday, never after the date and fewer than 7 days before it |
| Rows.SameWeek | function.py:155 | every day of a Monday-to-Sunday week has that Monday as its week |
| Rows.FilterColumns | function.py:166 | the filtered list holds exactly the listed columns that are present, and is no longer than the list |
| Rows.FilterAllPresent | facebook/facebook_fetcher.py:682 | filtering keeps the listed order: with every column present it is the list itself |
| Rows.SavedFrame | facebook/facebook_fetcher.py:657-690 | `save_comments`: no frame without rows; otherwise the fourteen columns, `author` last, and every row with its week filled in |
| Rows.FinishRowWeek | facebook/facebook_fetcher.py:670-672 | filling in the week changes nothing else; the week is the Monday of the date, or missing with the date |
| Rows.Retag | instagram/instagram_fetcher.py:466-469 | every row carries the new client and url, and putting the old ones back gives the original row, so no other field changes |
| Rows.RetagFlatten | instagram/instagram_fetcher.py:466-469 | tagging rows formatted with empty client and url gives the rows formatted with that client and url |
| Rows.Frame | function.py:140-167 | no frame for no rows; otherwise one finished row per row, in order |
| FacebookUrl.DigitRun | facebook/facebook_fetcher.py:165 | the greedy `\d+`: every character of the run is a digit, and the next one is not |
| FacebookUrl.FindUnderscore | facebook/facebook_fetcher.py:165-170 | the leftmost match of `facebook\.com/(\d+)_(\d+)`, or None when it matches nowhere |
| FacebookUrl.FindReel | facebook/facebook_fetcher.py:173-177 | the leftmost match of `facebook\.com/reel/(\d+)`, or None when it matches nowhere |
| FacebookUrl.FindPermalink | facebook/facebook_fetcher.py:180-185 | the leftmost match of `permalink\.php\?.*?story_fbid=(\d+).*?id=(\d+)`, with the lazy gaps on one line, or None |
| FacebookUrl.FindVideo | facebook/facebook_fetcher.py:188-192 | the leftmost match of `video\.php\?.*?v=(\d+)`, or None |
| FacebookUrl.UnderscoreIds | facebook/facebook_fetcher.py:165-170 | both groups of the underscore shape are non-empty runs of digits |
| FacebookUrl.ReelIds | facebook/facebook_fetcher.py:173-177 | a reel gives no page id and a non-empty digit post id |
| FacebookUrl.PermalinkIds | facebook/facebook_fetcher.py:180-185 | both groups of the permalink shape are non-empty runs of digits |
| FacebookUrl.VideoIds | facebook/facebook_fetcher.py:188-192 | a video gives no page id and a non-empty digit post id |
| FacebookUrl.ExtractPostId | facebook/facebook_fetcher.py:152-195 | a page id comes only with a post id, and every id is a non-empty run of digits |
| FacebookUrl.ExtractKinds | facebook/facebook_fetcher.py:163-195 | the shapes are tried in order: a page id exactly when the underscore shape matches, or the permalink shape matches and the reel shape does not; (None, None) exactly when no shape matches |
| FacebookUrl.UnderscoreRoundTrip | facebook/facebook_fetcher.py:165-170 | `…facebook.com/{page}_{post}` followed by any text that does not go on with a digit gives back (page, post) |
| FacebookUrl.ReelRoundTrip | facebook/facebook_fetcher.py:163-177 | `…facebook.com/reel/{id}` followed by any text that does not go on with a digit and holds no further `facebook.com/` gives (None, id) |
| FacebookUrl.PermalinkRoundTrip | facebook/facebook_fetcher.py:163-185 | `…facebook.com/permalink.php?story_fbid={post}&id={page}` followed by any text that does not go on with a digit and holds no further `facebook.com/` gives (page, post), with the page from `id` and the post from `story_fbid` |
| FacebookUrl.VideoRoundTrip | facebook/facebook_fetcher.py:163-192 | `…facebook.com/video.php?v={id}` followed by any text that does not go on with a digit and holds no further `facebook.com/` gives (None, id) |
| FacebookFetcher.KeyIndex | facebook/facebook_fetcher.py:101 | the position of the dictionary entry with a given name: the first with it, none before; none when no entry has it |
| FacebookFetcher.PageTableKeys | facebook/facebook_fetcher.py:94-104 | the dictionary holds every listed name exactly once, each with the id and token of the last page listed under it, in the order the names were first listed |
| FacebookFetcher.GetFacebookPageIdAndToken | facebook/facebook_fetcher.py:62-110 | no pages after a raise or a non-200 answer; otherwise the loop builds exactly the dictionary of the listed pages |
| FacebookFetcher.RepeatedNameLastWins | facebook/facebook_fetcher.py:94-134 | a name listed twice keeps the second page, and a lookup of that name returns the second page |
| FacebookFetcher.QueryAliases | facebook/facebook_fetcher.py:124 | `[n.strip() for n in q.split(',')] if q else []`: no aliases exactly for an empty query; otherwise alias k is piece k trimmed |
| FacebookFetcher.FirstExact | facebook/facebook_fetcher.py:129-134 | the first alias that equals some page name ignoring case, with the first such page; no earlier alias equals any page |
| FacebookFetcher.ExactPageIndex | facebook/facebook_fetcher.py:131-134 | the exact loop for one alias returns the first page whose name equals it ignoring case |
| FacebookFetcher.FuzzyPageLoop | facebook/facebook_fetcher.py:137-141 | the fuzzy loop for one alias updates the running best exactly as the fold says |
| FacebookFetcher.GetPageDetailsByName | facebook/facebook_fetcher.py:113-149 | the nested loops return the exact match of the first alias that has one; otherwise the best fuzzy page over all aliases if its score is above 30; otherwise none |
| FacebookFetcher.PageDetailsExact | facebook/facebook_fetcher.py:129-146 | an exact match for any alias wins over every fuzzy candidate, even one from an earlier alias: the result is an exact match of an alias at or before it |
| FacebookFetcher.PageDetailsFuzzyFound | facebook/facebook_fetcher.py:136-149 | without an exact match, a page is found exactly when some alias scores above 30 against some page |
| FacebookFetcher.PageDetailsFuzzyBest | facebook/facebook_fetcher.py:136-146 | without an exact match, the page found has the highest score of all pairs, above 30, and every pair earlier in alias-then-page order scores strictly less (ties keep the first) |
| FacebookFetcher.NoExactMatch | facebook/facebook_fetcher.py:144-149 | with no exact match anywhere the result is the fuzzy best if its score is above 30, and none otherwise |
| FacebookFetcher.AlternativeIsFirstCandidate | facebook/facebook_fetcher.py:263-298 | the alternative id is the first candidate again: against an API that answers a repeated request the same way, a validated id is always the first candidate |
| FacebookFetcher.ValidateUrlPostId | facebook/facebook_fetcher.py:254-300 | the validation requests (two at most) return exactly the specified id |
| FacebookFetcher.FirstPermalinkHit | facebook/facebook_fetcher.py:306-310 | the first feed post whose `permalink_url` contains the URL, none before it; None when no post does |
| FacebookFetcher.PermalinkSearch | facebook/facebook_fetcher.py:306-310 | the permalink loop returns the first hit |
| FacebookFetcher.ContentPassFirstMax | facebook/facebook_fetcher.py:313-322 | the content loop keeps the first post with the highest score among the posts that have a message |
| FacebookFetcher.ContentSearch | facebook/facebook_fetcher.py:313-322 | the content loop's best score and post are those of the fold |
| FacebookFetcher.FindPostFallback | facebook/facebook_fetcher.py:302-329 | with no validated id: the first permalink hit in feed order wins; failing that, a post is found exactly when the content is longer than 10 and some post scores above 80, and it is the first best-scoring post |
| FacebookFetcher.FindPostByUrlOrContent | facebook/facebook_fetcher.py:238-329 | validation, then the permalink loop, then the content loop, give exactly the specified post |
| FacebookFetcher.FacebookComments | facebook/facebook_fetcher.py:331-430 | one thread per fetched comment, in order; without a raise a comment with `comment_count > 0` gets exactly what `get_comment_replies` returns for its id, and every other comment, or every comment after a raise, gets none |
| FacebookFetcher.FacebookCommentsCap | facebook/facebook_fetcher.py:360-385 | `limit=0` requests nothing and returns nothing; otherwise the comments pass the limit by less than one page |
| FacebookFetcher.CommentRepliesStop | facebook/facebook_fetcher.py:457-493 | replies are uncapped; a non-200 page keeps the replies gathered so far, and a raise after them discards them all |
| FacebookFetcher.GetCommentReplies | facebook/facebook_fetcher.py:432-493 | the reply loop returns the specified replies |
| FacebookFetcher.GetFacebookComments | facebook/facebook_fetcher.py:331-430 | the comment loop and the reply fetches return the specified threads |
| FacebookFetcher.FormatCommentsForOutput | facebook/facebook_fetcher.py:495-557 | the rows are the Facebook defaults applied, then laid out thread by thread |
| FacebookFetcher.FormattedComment | facebook/facebook_fetcher.py:509-530 | comment i's row has id i+1, empty sub-id, author 'Unknown', message '' and likes 0 when those fields are missing, platform 'facebook', and the call's client and url |
| FacebookFetcher.FormattedReply | facebook/facebook_fetcher.py:533-555 | reply j of comment i follows it with id i+1, sub-id "(i+1).(j+1)" and the same defaults |
| FacebookFetcher.AliasRows | facebook/facebook_fetcher.py:581-632 | an alias that yields rows is non-empty, and its rows are non-empty and all tagged with it, the URL and 'facebook' |
| FacebookFetcher.TryAliases | facebook/facebook_fetcher.py:581-637 | rows come from the first alias that yields any, and every alias before it yielded none; no rows means no alias yielded any |
| FacebookFetcher.FbProcessOutcomes | facebook/facebook_fetcher.py:560-642 | a link is ignored exactly when it is empty or lacks 'facebook' (case-sensitive); a non-text or empty client fails; a success has rows all tagged with one non-empty alias of the client, the URL and 'facebook' |
| FacebookFetcher.Fetcher.constructor | facebook/facebook_fetcher.py:22-51 | a fetcher whose page dictionary is the one built from the `me/accounts` answer, with no rows and no failed links |
| FacebookFetcher.Fetcher.ProcessAlias | facebook/facebook_fetcher.py:582-632 | the body of the alias loop returns the specified rows for one alias |
| FacebookFetcher.Fetcher.FirstAliasRows | facebook/facebook_fetcher.py:581-637 | the alias loop, with its `break`, returns the rows of the first alias that yields any, as `TryAliases` specifies |
| FacebookFetcher.Fetcher.ProcessLink | facebook/facebook_fetcher.py:560-642 | ignored: nothing changes; success: exactly the rows are appended and returned, `failed_links` unchanged; failure: the URL is appended to `failed_links` exactly once |
| InstagramFetcher.MatchPageId | instagram/instagram_fetcher.py:50-75 | the matching loop with its `break` settles on the specified page id |
| InstagramFetcher.IgPageIdExact | instagram/instagram_fetcher.py:55-63 | the first exact match wins wherever it appears, once its page has an id |
| InstagramFetcher.IgPageIdFuzzy | instagram/instagram_fetcher.py:64-78 | without an exact match: the first page with the highest score, if that score is above 30; no id if no page scores above 30 |
| InstagramFetcher.IgPageIdExactNoId | instagram/instagram_fetcher.py:55-78 | an exact match whose page has no id still ends the loop: the id is then the first best-scoring page before it, if that score is above 30, and none otherwise |
| InstagramFetcher.GetInstagramBusinessId | instagram/instagram_fetcher.py:25-98 | the two requests give the specified account id, none, or a raise |
| InstagramFetcher.BusinessIdNeedsPage | instagram/instagram_fetcher.py:37-98 | a business id comes back only for a non-empty name, through a matched page whose account request answered with that id |
| InstagramFetcher.CodeAfterShape | instagram/instagram_fetcher.py:386-390 | the code is the text right after the first mark up to the next '/' or the end: it has no '/', and may be empty or carry a query string |
| InstagramFetcher.MediaCodeCases | instagram/instagram_fetcher.py:381-397 | no code exactly when neither `/p/` nor `/reel/` occurs; `/p/` takes precedence |
| InstagramFetcher.RegexUnreachable | instagram/instagram_fetcher.py:392-397 | the regular-expression fallback never matches a URL without `/p/` and `/reel/` |
| InstagramFetcher.PostCodeRoundTrip | instagram/instagram_fetcher.py:386-387 | any text without an earlier `/p/`, then `/p/{code}` followed by the end or '/', gives back the code |
| InstagramFetcher.ReelCodeRoundTrip | instagram/instagram_fetcher.py:389-390 | any text without an earlier `/reel/`, then `/reel/{code}` followed by the end or '/', gives back the code when the URL has no `/p/` |
| InstagramFetcher.FirstCodeMatch | instagram/instagram_fetcher.py:144-173 | the first item of a page whose permalink code equals the media code, none before it |
| InstagramFetcher.ScanPage | instagram/instagram_fetcher.py:144-173 | the item loop returns the first matching item |
| InstagramFetcher.SearchInstagramMedia | instagram/instagram_fetcher.py:100-177 | the listing loop returns the specified media id, none, or a raise |
| InstagramFetcher.MediaScanFirstPages | instagram/instagram_fetcher.py:112-121 | listing pages after the 30th are never requested |
| InstagramFetcher.MediaScanReaches | instagram/instagram_fetcher.py:121-177 | a first match on a page reached through skipped pages is returned |
| InstagramFetcher.MediaScanFinds | instagram/instagram_fetcher.py:121-177 | a found id is the first matching item in listing order, on one of the first 30 pages; every earlier page had a next cursor and no match |
| InstagramFetcher.MediaScanMisses | instagram/instagram_fetcher.py:121-178 | a scan that finds nothing saw no matching item on any page it requested |
| InstagramFetcher.ExpandOneShape | instagram/instagram_fetcher.py:263-322 | one comment gives one thread: its entry, no replies without a `replies` key, the embedded replies without a next page, and otherwise the embedded replies followed by what the capped loop over its follow-up pages gathers from the running count; the counter grows by the follow-up replies, or by the embedded ones without a next page; it raises exactly when a follow-up request raises |
| InstagramFetcher.ExpandAtLimit | instagram/instagram_fetcher.py:282-300 | once `total_comments + total_replies` has reached the limit no follow-up page is requested, and a comment keeps only its embedded replies |
| InstagramFetcher.ExpandShape | instagram/instagram_fetcher.py:257-322 | comment k's thread keeps its entry; no `replies` key gives no replies; embedded replies without a next page are kept as they are; otherwise the embedded replies come first, then the follow-up pages gathered with `total_comments` plus the replies counted before comment k against the limit |
| InstagramFetcher.ExpandCounts | instagram/instagram_fetcher.py:255-319 | `total_replies` plus the embedded replies of paginated comments equals the number of replies kept |
| InstagramFetcher.GetInstagramComments | instagram/instagram_fetcher.py:198-379 | the top-level loop, the reply loop with its counters and the formatting give the specified rows, or a raise |
| InstagramFetcher.IgCommentsCap | instagram/instagram_fetcher.py:214-248 | `limit=0` gives no rows; otherwise the top-level comments pass the limit by less than one page |
| InstagramFetcher.IgFormattedComment | instagram/instagram_fetcher.py:331-352 | comment i's row has id i+1, empty sub-id, author '' (not 'Unknown'), text '' and likes 0 when missing, platform 'instagram', and no client or URL yet |
| InstagramFetcher.IgFormattedReply | instagram/instagram_fetcher.py:355-377 | reply j of comment i follows it with sub-id "(i+1).(j+1)" and the same defaults |
| InstagramFetcher.FirstBusiness | instagram/instagram_fetcher.py:437-447 | the `for … else` loop breaks at the first non-empty alias with a business account, and every earlier non-empty alias had none; no alias has one when it finds none |
| InstagramFetcher.ResolveAliases | instagram/instagram_fetcher.py:437-447 | the alias loop resolves exactly as specified |
| InstagramFetcher.IgCommentsPlatform | instagram/instagram_fetcher.py:331-377 | every row of a media item carries the platform 'instagram' |
| InstagramFetcher.AccountRowsPlatform | instagram/instagram_fetcher.py:452-463 | the rows fetched for an account all carry the platform 'instagram' |
| InstagramFetcher.FetchAccountRows | instagram/instagram_fetcher.py:452-463 | the media search and comment fetch give the specified rows |
| InstagramFetcher.TaggedRows | instagram/instagram_fetcher.py:461-469 | a success has rows, each tagged with the resolving alias and the link |
| InstagramFetcher.TagRows | instagram/instagram_fetcher.py:466-469 | the tagging loop sets client and url on every row and nothing else |
| InstagramFetcher.IgForCodeSuccess | instagram/instagram_fetcher.py:427-474 | a success has rows all tagged with a non-empty alias of a text client and with the link |
| InstagramFetcher.IgProcessNeedsCode | instagram/instagram_fetcher.py:419-422 | a link without `/p/` or `/reel/` does nothing; any other outcome uses a non-empty media code |
| InstagramFetcher.IgProcessNoClient | instagram/instagram_fetcher.py:427-450 | without a client nothing is fetched and nothing happens |
| InstagramFetcher.Fetcher.constructor | instagram/instagram_fetcher.py:16-21 | a fetcher with no rows and no failed links |
| InstagramFetcher.Fetcher.ProcessLink | instagram/instagram_fetcher.py:400-474 | `failed_links` is never touched; nothing and raise paths leave `all_comments` as it was; a success appends exactly the tagged rows and returns them |
| InstagramFetcher.LinkOutcome | instagram/instagram_fetcher.py:400-474 | the steps of `process_link` (code extraction, client check, fetch, formatting and tagging) give exactly the outcome `IgProcess` describes |
| Orchestrator.SelectExactly | function.py:75-76 | a platform's rows are exactly the rows whose link mentions its name ignoring case; a link naming both is in both |
| Orchestrator.CombinedKeys | function.py:159-166 | every combined column is a key of every row |
| Orchestrator.CombinedDropsAuthor | function.py:159-163 | the combined columns are the fetchers' columns without `author`, in the same order |
| Orchestrator.Combine | function.py:138-167 | no frame without rows; otherwise the thirteen columns and every row with its week, in order |
| Orchestrator.CombinedPlatforms | function.py:138 | the combined frame lists the Instagram rows first, then the Facebook rows |
| Orchestrator.CombinedRows | function.py:84-167 | the combined frame of the two passes has all Instagram rows, then all Facebook rows, each with its platform tag |
| Orchestrator.IgRunPlatform | function.py:84-102 | the Instagram pass gathers only Instagram rows |
| Orchestrator.IgProcessPlatform | instagram/instagram_fetcher.py:400-474 | the rows of one Instagram success are tagged 'instagram' |
| Orchestrator.FbRunPlatform | function.py:106-124 | the Facebook pass gathers only Facebook rows |
| Orchestrator.RetryOneFailsAgain | function.py:182-190 | one retried link is appended to `failed_links` again exactly when it is not an Instagram link and contains 'facebook' as written |
| Orchestrator.RetryFailsAgain | function.py:178-190 | the retry never succeeds; it appends again exactly the failed links that are not Instagram links and contain 'facebook' as written, in order |
| Orchestrator.CapitalisedLinkIgnored | function.py:75 | a link selected for `Facebook` in capitals without a lower-case 'facebook' is ignored by the fetcher: no rows and no failure |
| Orchestrator.IgRetryNoOp | function.py:184-185 | the Instagram retry does nothing |
| Orchestrator.InstagramPass | function.py:84-102 | the loop leaves the fetcher with the rows of every success, in link order, and with each link whose processing raised |
| Orchestrator.FacebookPass | function.py:106-124 | the loop leaves the fetcher with the rows of every success, in link order, and with the links it recorded as failed |
| Orchestrator.RetryLink | function.py:183-190 | one retry touches no rows and changes only the Facebook failure list, as specified |
| Orchestrator.RetryPass | function.py:178-190 | after the retry the Instagram fetcher is unchanged, the rows are unchanged, and the Facebook failures are followed by the links that failed again |
| Orchestrator.ProcessLinks | function.py:52-192 | the frame combines the Instagram rows, then the Facebook rows; it is computed before the retry, so retried rows never reach it; no frame and no retry without rows; the fetchers' final lists are as stated |

## Left out

- HTTP requests, status codes and JSON decoding. Every request is answered by an oracle parameter. A malformed payload (a missing `id` or `data` key, a non-number count) is not modelled, so the `except` branches that a `KeyError` or `TypeError` would reach are not modelled either.
- Access tokens and the environment lookup, request timeouts, `time.sleep` delays and the 60-second pause on a 429 answer. A 429 is an ordinary failed request.
- Logging, `print` output and `api_call_count`.
- File I/O: the CSV files, the JSON backups, `cleanup_temp_files`, `clear_output_directory` and `os.makedirs`. `save_comments` is modelled only as the frame it would write (`Rows.SavedFrame`). The `save_comments` call inside the Facebook `process_link` is left out because it only writes a file.
- `main` and the outer `try`/`except` of `process_links`. The paths that would reach that `except` are malformed data or file errors, and neither is modelled.
- The access-token lookup of the constructor. The `me/accounts` answer is a parameter of `FacebookFetcher.Fetcher.constructor`; like the source, the model reads only its first page.
- The non-ASCII letters of `.lower()` and the non-ASCII decimal digits that Python 3's `\d` also matches in the four URL patterns of `extract_post_id_from_url`. The model lowercases only 'A'..'Z' and reads only '0'..'9' as digits.
- `get_page_feed` reads only the first feed page, with `limit=100`. It is modelled as the data of that one answer (`FacebookFetcher.FeedPosts`).
- The internals of fuzzywuzzy. The scores are uninterpreted, in 0..100.
- Date parsing by `pd.to_datetime`. Dates are day ordinals, and a missing date gives a missing week. The `week` is kept as a day, not formatted with `strftime`.
- `datetime.now()`. One `captured` timestamp serves the whole formatting call, where the source reads the clock once per row.
- The oEmbed fallback of the media search (`instagram/instagram_fetcher.py:178-196`). Its result is never used.
- The collaborator logging and the earliest and latest date tracking of the media search. They are only logged.
- Spreadsheet cells that are not strings in the `link` column (NaN). All links are strings, so `na=False` has no case to handle.
- FacebookFetcher.Fetcher.ProcessLink: the `except` paths of `process_link` (`facebook/facebook_fetcher.py:644-655`) do not occur. Every request error is caught further down (validation, feed, comments and replies), and payloads are well-formed.
- Orchestrator.ProcessLinks: the retry pass is modelled for its effect on the fetchers' lists only. It runs after the combined file is written, and `process_links` returns the file path, not the retried rows.
