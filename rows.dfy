/** The canonical output row and the flattening of comment threads into
    rows, shared by `format_comments_for_output` (Facebook) and the
    formatting tail of `get_instagram_comments` (Instagram). */
module Rows {
  import opened Wrappers
  import opened Text

  /** A calendar day as a proleptic Gregorian ordinal (Python's
      `date.toordinal()`: day 1 is Monday 0001-01-01). */
  type Day = int

  /** One output record, field for field the dictionary the fetchers build.
      `date` is the parsed comment time (None where the payload had none);
      `week` is None until the orchestrator fills it in. */
  datatype Row = Row(
    id: nat, subId: string, date: Option<Day>, week: Option<Day>, likes: int,
    liveVideoTimestamp: string, comment: string, imageUrls: string,
    viewSource: string, timestamp: string, client: string, url: string,
    platform: string, author: string)

  /** The platform-neutral content of one comment or reply, its defaults
      already applied by the platform's converter. */
  datatype Entry = Entry(date: Option<Day>, likes: int, text: string, author: string)

  /** A top-level comment and its replies in retrieval order. */
  datatype Thread = Thread(top: Entry, replies: seq<Entry>)

  /** What every row of one formatting call shares: client, URL, platform,
      and the capture time (`datetime.now()`, a parameter here). */
  datatype Context = Context(client: string, url: string, platform: string, captured: string)

  /** `f"{i}.{j}"`. */
  function SubId(i: nat, j: nat): string {
    Decimal(i) + "." + Decimal(j)
  }

  function MakeRow(id: nat, subId: string, e: Entry, ctx: Context): Row {
    Row(id, subId, e.date, None, e.likes, "-", e.text, "", "view comment",
        ctx.captured, ctx.client, ctx.url, ctx.platform, e.author)
  }

  /** The rows of the replies of comment number i, reply j getting sub-id "i.j". */
  function ReplyRows(i: nat, replies: seq<Entry>, ctx: Context): seq<Row>
    decreases |replies|
  {
    if |replies| == 0 then []
    else ReplyRows(i, replies[..|replies| - 1], ctx)
         + [MakeRow(i, SubId(i, |replies|), replies[|replies| - 1], ctx)]
  }

  /** Comment number i, then its replies. */
  function ThreadRows(i: nat, t: Thread, ctx: Context): seq<Row> {
    [MakeRow(i, "", t.top, ctx)] + ReplyRows(i, t.replies, ctx)
  }

  /** `enumerate(comments, 1)`: each thread's rows, numbered from 1. */
  function Flatten(threads: seq<Thread>, ctx: Context): seq<Row>
    decreases |threads|
  {
    if |threads| == 0 then []
    else Flatten(threads[..|threads| - 1], ctx)
         + ThreadRows(|threads|, threads[|threads| - 1], ctx)
  }

  function TotalReplies(threads: seq<Thread>): nat
    decreases |threads|
  {
    if |threads| == 0 then 0
    else TotalReplies(threads[..|threads| - 1]) + |threads[|threads| - 1].replies|
  }

  /** Position of the parent row of thread number i (0-based). */
  function Offset(threads: seq<Thread>, i: nat): nat
    requires i <= |threads|
  {
    i + TotalReplies(threads[..i])
  }

  lemma {:induction false} ReplyRowsAt(i: nat, replies: seq<Entry>, ctx: Context)
    ensures |ReplyRows(i, replies, ctx)| == |replies|
    ensures forall j :: 0 <= j < |replies| ==>
      ReplyRows(i, replies, ctx)[j] == MakeRow(i, SubId(i, j + 1), replies[j], ctx)
    decreases |replies|
  {
    if |replies| > 0 {
      var init := replies[..|replies| - 1];
      ReplyRowsAt(i, init, ctx);
      assert forall j :: 0 <= j < |init| ==> init[j] == replies[j];
    }
  }

  /** One row per comment plus one per reply. */
  lemma {:induction false} FlattenLength(threads: seq<Thread>, ctx: Context)
    ensures |Flatten(threads, ctx)| == |threads| + TotalReplies(threads)
    decreases |threads|
  {
    if |threads| > 0 {
      var n := |threads|;
      FlattenLength(threads[..n - 1], ctx);
      ReplyRowsAt(n, threads[n - 1].replies, ctx);
    }
  }

  /** Thread t, numbered id, is laid out in rows from position o: its
      parent row with empty sub-id, then its replies in order, reply j
      (0-based) with sub-id "{id}.{j+1}". */
  predicate LaidOut(rows: seq<Row>, o: nat, id: nat, t: Thread, ctx: Context) {
    && o + |t.replies| < |rows|
    && rows[o] == MakeRow(id, "", t.top, ctx)
    && forall j :: 0 <= j < |t.replies| ==> rows[o + 1 + j] == MakeRow(id, SubId(id, j + 1), t.replies[j], ctx)
  }

  /** The row layout: thread i (0-based) is laid out from position
      Offset(i) with id i+1. */
  lemma {:induction false} FlattenLayout(threads: seq<Thread>, ctx: Context, i: nat)
    requires i < |threads|
    ensures LaidOut(Flatten(threads, ctx), Offset(threads, i), i + 1, threads[i], ctx)
    decreases |threads|
  {
    if i == |threads| - 1 {
      FlattenLayoutLast(threads, ctx);
    } else {
      FlattenLayout(threads[..|threads| - 1], ctx, i);
      FlattenLayoutEarlier(threads, ctx, i);
    }
  }

  /** The last thread's rows close the flattening. */
  lemma FlattenLayoutLast(threads: seq<Thread>, ctx: Context)
    requires |threads| > 0
    ensures LaidOut(Flatten(threads, ctx), Offset(threads, |threads| - 1), |threads|, threads[|threads| - 1], ctx)
  {
    var n := |threads|;
    var init := threads[..n - 1];
    FlattenLength(init, ctx);
    ThreadRowsLaidOut(n, threads[n - 1], ctx);
    LaidOutAfter(Flatten(init, ctx), ThreadRows(n, threads[n - 1], ctx), 0, n, threads[n - 1], ctx);
  }

  /** An earlier thread's rows keep their place when a thread is added. */
  lemma FlattenLayoutEarlier(threads: seq<Thread>, ctx: Context, i: nat)
    requires i + 1 < |threads|
    requires var init := threads[..|threads| - 1];
      LaidOut(Flatten(init, ctx), Offset(init, i), i + 1, init[i], ctx)
    ensures LaidOut(Flatten(threads, ctx), Offset(threads, i), i + 1, threads[i], ctx)
  {
    var n := |threads|;
    var init := threads[..n - 1];
    assert init[..i] == threads[..i];
    assert init[i] == threads[i];
    LaidOutBefore(Flatten(init, ctx), ThreadRows(n, threads[n - 1], ctx), Offset(init, i), i + 1, threads[i], ctx);
  }

  /** One thread's own rows. */
  lemma ThreadRowsLaidOut(id: nat, t: Thread, ctx: Context)
    ensures LaidOut(ThreadRows(id, t, ctx), 0, id, t, ctx)
  {
    ReplyRowsAt(id, t.replies, ctx);
  }

  /** Rows laid out in `back` stay laid out behind `front`. */
  lemma LaidOutAfter(front: seq<Row>, back: seq<Row>, o: nat, id: nat, t: Thread, ctx: Context)
    requires LaidOut(back, o, id, t, ctx)
    ensures LaidOut(front + back, |front| + o, id, t, ctx)
  {
    var rows := front + back;
    forall j | 0 <= j < |t.replies|
      ensures rows[|front| + o + 1 + j] == MakeRow(id, SubId(id, j + 1), t.replies[j], ctx)
    {
      assert rows[|front| + (o + 1 + j)] == back[o + 1 + j];
    }
  }

  /** Rows laid out in `front` stay laid out when `back` follows. */
  lemma LaidOutBefore(front: seq<Row>, back: seq<Row>, o: nat, id: nat, t: Thread, ctx: Context)
    requires LaidOut(front, o, id, t, ctx)
    ensures LaidOut(front + back, o, id, t, ctx)
  {
    var rows := front + back;
    forall j | 0 <= j < |t.replies|
      ensures rows[o + 1 + j] == MakeRow(id, SubId(id, j + 1), t.replies[j], ctx)
    {
      assert rows[o + 1 + j] == front[o + 1 + j];
    }
  }

  /** Ids run from 1 to the number of threads and never decrease, so each
      comment's replies follow it directly. */
  lemma {:induction false} FlattenIds(threads: seq<Thread>, ctx: Context)
    ensures forall k :: 0 <= k < |Flatten(threads, ctx)| ==>
      1 <= Flatten(threads, ctx)[k].id <= |threads|
    ensures forall k, k' :: 0 <= k < k' < |Flatten(threads, ctx)| ==>
      Flatten(threads, ctx)[k].id <= Flatten(threads, ctx)[k'].id
    decreases |threads|
  {
    if |threads| > 0 {
      var n := |threads|;
      var init := threads[..n - 1];
      FlattenIds(init, ctx);
      FlattenLength(init, ctx);
      ReplyRowsAt(n, threads[n - 1].replies, ctx);
      var rows := Flatten(threads, ctx);
      var front := Flatten(init, ctx);
      var back := ThreadRows(n, threads[n - 1], ctx);
      assert rows == front + back;
      assert forall k :: 0 <= k < |back| ==> back[k].id == n;
      forall k | 0 <= k < |rows|
        ensures 1 <= rows[k].id <= n
        ensures k >= |front| ==> rows[k].id == n
      {
        if k < |front| { assert rows[k] == front[k]; } else { assert rows[k] == back[k - |front|]; }
      }
      forall k, k' | 0 <= k < k' < |rows|
        ensures rows[k].id <= rows[k'].id
      {
        if k' < |front| { assert rows[k] == front[k] && rows[k'] == front[k']; }
      }
    }
  }

  /** The sub-id written back into its two numbers. */
  function ParseSubId(s: string): Option<(nat, nat)> {
    var p := Split(s, '.');
    if |p| == 2 && |p[0]| > 0 && |p[1]| > 0 && AllDigits(p[0]) && AllDigits(p[1])
    then Some((ParseDecimal(p[0]), ParseDecimal(p[1])))
    else None
  }

  lemma SplitSubId(i: nat, j: nat)
    ensures Split(SubId(i, j), '.') == [Decimal(i), Decimal(j)]
  {
    var s := SubId(i, j);
    var a, b := Decimal(i), Decimal(j);
    assert '.' !in a && '.' !in b;
    assert s[|a|] == '.';
    assert s[..|a|] == a;
    assert s[|a| + 1..] == b;
    assert IndexOfChar(s, '.') == |a|;
  }

  /** Reading a sub-id back gives the parent and reply numbers, so two
      replies with the same sub-id are the same reply of the same parent. */
  lemma SubIdRoundTrip(i: nat, j: nat)
    ensures ParseSubId(SubId(i, j)) == Some((i, j))
  {
    SplitSubId(i, j);
    DecimalRoundTrip(i);
    DecimalRoundTrip(j);
  }

  lemma SubIdInjective(i: nat, j: nat, i': nat, j': nat)
    requires SubId(i, j) == SubId(i', j')
    ensures i == i' && j == j'
  {
    SubIdRoundTrip(i, j);
    SubIdRoundTrip(i', j');
  }

  // ------------------------------------------------- weeks and columns

  /** `date.weekday()`, Monday being 0 (day 1 is a Monday). */
  function Weekday(d: Day): int {
    (d + 6) % 7
  }

  /** The week column: the date minus its weekday. */
  function WeekStart(d: Day): Day {
    d - Weekday(d)
  }

  /** The week column is a Monday, never after the date and less than a
      week before it. */
  lemma WeekStartIsMonday(d: Day)
    ensures Weekday(WeekStart(d)) == 0
    ensures WeekStart(d) <= d < WeekStart(d) + 7
  {
    var w := Weekday(d);
    assert d + 6 == 7 * ((d + 6) / 7) + w;
    assert WeekStart(d) + 6 == 7 * ((d + 6) / 7);
  }

  /** Every day of a Monday-to-Sunday week has that Monday as its week. */
  lemma SameWeek(d: Day, k: int)
    requires 0 <= k < 7
    ensures WeekStart(WeekStart(d) + k) == WeekStart(d)
  {
    WeekStartIsMonday(d);
    var m := WeekStart(d);
    assert m + 6 == 7 * ((d + 6) / 7);
    assert m + k + 6 == 7 * ((d + 6) / 7) + k;
    assert Weekday(m + k) == k;
  }

  /** The column order of each fetcher's own file, `author` last. */
  const SAVED_COLUMNS: seq<string> := [
    "id", "sub_id", "date", "week", "likes", "live_video_timestamp", "comment",
    "image_urls", "view_source", "timestamp", "client", "url", "platform", "author"]

  /** The keys every row dictionary has: the same fourteen names. */
  const ROW_KEYS: set<string> := set k | 0 <= k < |SAVED_COLUMNS| :: SAVED_COLUMNS[k]

  /** `[col for col in ordered if col in present]`. */
  function FilterColumns(ordered: seq<string>, present: set<string>): (r: seq<string>)
    ensures |r| <= |ordered|
    ensures forall c :: c in r <==> c in ordered && c in present
    decreases |ordered|
  {
    if |ordered| == 0 then []
    else (if ordered[0] in present then [ordered[0]] else []) + FilterColumns(ordered[1..], present)
  }

  /** The filter keeps the listed order: with every column present it is
      the list itself. */
  lemma {:induction false} FilterAllPresent(ordered: seq<string>, present: set<string>)
    requires forall k :: 0 <= k < |ordered| ==> ordered[k] in present
    ensures FilterColumns(ordered, present) == ordered
    decreases |ordered|
  {
    if |ordered| > 0 {
      FilterAllPresent(ordered[1..], present);
      assert [ordered[0]] + ordered[1..] == ordered;
    }
  }

  /** A written frame: the columns in order and the rows with `week` filled in. */
  datatype Table = Table(columns: seq<string>, rows: seq<Row>)

  /** `pd.to_datetime(date)` then date minus weekday; a missing date gives
      a missing week. */
  function FinishRow(r: Row): Row {
    r.(week := if r.date.Some? then Some(WeekStart(r.date.value)) else None)
  }

  /** The frame built from a non-empty list of rows; no frame for none. */
  function Frame(ordered: seq<string>, rows: seq<Row>): (t: Option<Table>)
    ensures t.None? <==> |rows| == 0
    ensures t.Some? ==> |t.value.rows| == |rows|
    ensures t.Some? ==> forall k :: 0 <= k < |rows| ==> t.value.rows[k] == FinishRow(rows[k])
  {
    if |rows| == 0 then None
    else Some(Table(FilterColumns(ordered, ROW_KEYS), seq(|rows|, k requires 0 <= k < |rows| => FinishRow(rows[k]))))
  }

  /** `save_comments` of either fetcher: no frame without rows; otherwise
      the rows with the week filled in, under the fourteen columns,
      `author` last. */
  function SavedFrame(rows: seq<Row>): (t: Option<Table>)
    ensures t.None? <==> |rows| == 0
    ensures t.Some? ==> t.value.columns == SAVED_COLUMNS
    ensures t.Some? ==> (|t.value.rows| == |rows|
      && forall k :: 0 <= k < |rows| ==> t.value.rows[k] == FinishRow(rows[k]))
  {
    FilterAllPresent(SAVED_COLUMNS, ROW_KEYS);
    Frame(SAVED_COLUMNS, rows)
  }

  /** Finishing a row changes its week and nothing else; the week is the
      Monday of the date's week. */
  lemma FinishRowWeek(r: Row)
    ensures FinishRow(r).(week := r.week) == r
    ensures r.date.Some? ==> (
      && FinishRow(r).week.Some?
      && Weekday(FinishRow(r).week.value) == 0
      && FinishRow(r).week.value <= r.date.value < FinishRow(r).week.value + 7)
    ensures r.date.None? ==> FinishRow(r).week.None?
  {
    if r.date.Some? { WeekStartIsMonday(r.date.value); }
  }

  // ------------------------------------------------------- flatten facts

  /** Every row of one formatting call carries that call's context. */
  lemma {:induction false} FlattenContext(threads: seq<Thread>, ctx: Context)
    ensures |Flatten(threads, ctx)| >= |threads|
    ensures forall k :: 0 <= k < |Flatten(threads, ctx)| ==>
      var r := Flatten(threads, ctx)[k];
      r.client == ctx.client && r.url == ctx.url && r.platform == ctx.platform
      && r.timestamp == ctx.captured && r.week.None?
    decreases |threads|
  {
    FlattenLength(threads, ctx);
    if |threads| > 0 {
      var n := |threads|;
      var init := threads[..n - 1];
      FlattenContext(init, ctx);
      ReplyRowsAt(n, threads[n - 1].replies, ctx);
      var rows := Flatten(threads, ctx);
      var front := Flatten(init, ctx);
      var back := ThreadRows(n, threads[n - 1], ctx);
      assert rows == front + back;
      forall k | 0 <= k < |rows|
        ensures rows[k].client == ctx.client && rows[k].url == ctx.url && rows[k].platform == ctx.platform
          && rows[k].timestamp == ctx.captured && rows[k].week.None?
      {
        if k < |front| { assert rows[k] == front[k]; } else { assert rows[k] == back[k - |front|]; }
      }
    }
  }

  /** `row['client'] = name; row['url'] = link` on every row: each row
      carries the new client and url, and putting the old ones back gives
      the original row, so no other field changes. */
  function Retag(rows: seq<Row>, client: string, url: string): (r: seq<Row>)
    ensures |r| == |rows|
    ensures forall k :: 0 <= k < |rows| ==> r[k].client == client && r[k].url == url
    ensures forall k :: 0 <= k < |rows| ==> r[k].(client := rows[k].client, url := rows[k].url) == rows[k]
  {
    seq(|rows|, k requires 0 <= k < |rows| => rows[k].(client := client, url := url))
  }

  /** Tagging rows formatted without client and URL gives the rows
      formatted with them. */
  lemma {:induction false} RetagFlatten(threads: seq<Thread>, ctx: Context, client: string, url: string)
    ensures Retag(Flatten(threads, ctx), client, url) == Flatten(threads, ctx.(client := client, url := url))
    decreases |threads|
  {
    var ctx' := ctx.(client := client, url := url);
    if |threads| > 0 {
      var n := |threads|;
      var init := threads[..n - 1];
      RetagFlatten(init, ctx, client, url);
      RetagConcat(Flatten(init, ctx), ThreadRows(n, threads[n - 1], ctx), client, url);
      RetagThreadRows(n, threads[n - 1], ctx, client, url);
    }
  }

  lemma RetagConcat(a: seq<Row>, b: seq<Row>, client: string, url: string)
    ensures Retag(a + b, client, url) == Retag(a, client, url) + Retag(b, client, url)
  {
    assert |Retag(a + b, client, url)| == |Retag(a, client, url) + Retag(b, client, url)|;
    forall k | 0 <= k < |a + b|
      ensures Retag(a + b, client, url)[k] == (Retag(a, client, url) + Retag(b, client, url))[k]
    {
      if k < |a| {
        assert (a + b)[k] == a[k];
      } else {
        assert (a + b)[k] == b[k - |a|];
      }
    }
  }

  lemma RetagThreadRows(i: nat, t: Thread, ctx: Context, client: string, url: string)
    ensures Retag(ThreadRows(i, t, ctx), client, url) == ThreadRows(i, t, ctx.(client := client, url := url))
  {
    var ctx' := ctx.(client := client, url := url);
    ReplyRowsAt(i, t.replies, ctx);
    ReplyRowsAt(i, t.replies, ctx');
    var a := Retag(ThreadRows(i, t, ctx), client, url);
    var b := ThreadRows(i, t, ctx');
    assert |a| == |b|;
    forall k | 0 <= k < |a| ensures a[k] == b[k] {
      if k > 0 {
        assert ThreadRows(i, t, ctx)[k] == ReplyRows(i, t.replies, ctx)[k - 1];
        assert b[k] == ReplyRows(i, t.replies, ctx')[k - 1];
      }
    }
  }

  /** The formatting loops shared by both fetchers: per thread its parent
      row, then its replies in order. */
  method FlattenThreads(threads: seq<Thread>, ctx: Context) returns (rows: seq<Row>)
    ensures rows == Flatten(threads, ctx)
  {
    rows := [];
    var i := 0;
    while i < |threads|
      invariant i <= |threads|
      invariant rows == Flatten(threads[..i], ctx)
    {
      var thread := threads[i];
      ghost var base := rows;
      var parent := MakeRow(i + 1, "", thread.top, ctx);
      rows := rows + [parent];
      var j := 0;
      while j < |thread.replies|
        invariant j <= |thread.replies|
        invariant rows == base + [parent] + ReplyRows(i + 1, thread.replies[..j], ctx)
      {
        assert thread.replies[..j + 1][..j] == thread.replies[..j];
        rows := rows + [MakeRow(i + 1, SubId(i + 1, j + 1), thread.replies[j], ctx)];
        j := j + 1;
      }
      assert thread.replies[..j] == thread.replies;
      assert threads[..i + 1][..i] == threads[..i];
      i := i + 1;
    }
    assert threads[..i] == threads;
  }
}
