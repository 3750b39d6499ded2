/** The HTTP boundary and the cursor-pagination discipline shared by the
    comment, reply and listing loops of both fetchers.

    A paginated resource is an oracle: the sequence of responses that the
    successive requests (first URL, then each `paging.next`) would receive.
    A request past the end of the sequence reads as a failed request. */
module Paging {

  /** One HTTP response: the call raised (connection error, timeout, bad
      JSON), the status was not 200, or a page with its `data` array and
      whether `paging.next` was present. */
  datatype Response<T> = Raised | NotOk | Ok(data: seq<T>, hasNext: bool)

  function PageAt<T>(pages: seq<Response<T>>, k: nat): Response<T> {
    if k < |pages| then pages[k] else NotOk
  }

  /** A page after which a loop with room left keeps going. */
  predicate Continues<T>(r: Response<T>) {
    r.Ok? && |r.data| > 0 && r.hasNext
  }

  /** The overall cap on a loop: `limit` in the source, or none. */
  datatype Cap = Unlimited | Limit(n: nat)

  /** The loop guard's counter test (`len(all_comments) < limit`). */
  predicate Below(cap: Cap, counted: nat) {
    cap.Unlimited? || counted < cap.n
  }

  /** What a pagination loop gathered: the items in order, the number of
      requests it made, and whether the last one raised. */
  datatype Collected<T> = Collected(items: seq<T>, requests: nat, raised: bool)

  /** The loop shared by the source's paginated fetches, started at page k
      with `counted` items already counted against the cap: while there is
      a cursor and the count is below the cap, fetch a page; stop on a
      raise, a non-200 status, an empty page or a missing `paging.next`;
      otherwise append the whole page and count it. */
  function Collect<T>(pages: seq<Response<T>>, k: nat, cap: Cap, counted: nat): Collected<T>
    decreases |pages| - k
  {
    if !Below(cap, counted) then Collected([], 0, false)
    else match PageAt(pages, k)
      case Raised => Collected([], 1, true)
      case NotOk => Collected([], 1, false)
      case Ok(items, next) =>
        if |items| == 0 then Collected([], 1, false)
        else if !next then Collected(items, 1, false)
        else
          var rest := Collect(pages, k + 1, cap, counted + |items|);
          Collected(items + rest.items, 1 + rest.requests, rest.raised)
  }

  /** Two stretches of one loop run back to back. */
  function Then<T>(a: Collected<T>, b: Collected<T>): Collected<T> {
    Collected(a.items + b.items, a.requests + b.requests, b.raised)
  }

  /** One step of a pagination loop at page k when the guard holds and the
      page continues: the rest of the run is the loop from page k + 1. */
  lemma CollectStep<T>(pages: seq<Response<T>>, k: nat, cap: Cap, counted: nat)
    requires Below(cap, counted) && Continues(PageAt(pages, k))
    ensures Collect(pages, k, cap, counted)
         == Then(Collected(PageAt(pages, k).data, 1, false),
                 Collect(pages, k + 1, cap, counted + |PageAt(pages, k).data|))
  {
  }

  /** The concatenated data of the n pages from page k, all of them pages
      with data. */
  ghost predicate AllOk<T>(pages: seq<Response<T>>, k: nat, n: nat) {
    (n == 0 || k + n <= |pages|) && forall i :: k <= i < k + n ==> pages[i].Ok? && |pages[i].data| > 0
  }

  ghost function Flat<T>(pages: seq<Response<T>>, k: nat, n: nat): seq<T>
    requires AllOk(pages, k, n)
    decreases n
  {
    if n == 0 then [] else assert k < |pages|; pages[k].data + Flat(pages, k + 1, n - 1)
  }

  /** Whole pages are appended: what a loop gathers is the data of the first
      n pages it requested, in order, and every request but possibly the
      last delivered one of them. */
  lemma {:induction false} CollectIsWholePages<T>(pages: seq<Response<T>>, k: nat, cap: Cap, counted: nat)
    returns (n: nat)
    ensures var c := Collect(pages, k, cap, counted);
      && AllOk(pages, k, n)
      && c.items == Flat(pages, k, n)
      && (n == c.requests || n + 1 == c.requests)
    decreases |pages| - k
  {
    var c := Collect(pages, k, cap, counted);
    if !Below(cap, counted) {
      n := 0;
    } else {
      match PageAt(pages, k)
      case Raised => n := 0;
      case NotOk => n := 0;
      case Ok(items, next) =>
        assert k < |pages| && pages[k] == PageAt(pages, k);
        if |items| == 0 {
          n := 0;
        } else if !next {
          n := 1;
          assert AllOk(pages, k, n);
          assert Flat(pages, k + 1, 0) == [];
          assert items + [] == items;
        } else {
          var m := CollectIsWholePages(pages, k + 1, cap, counted + |items|);
          n := m + 1;
          AllOkCons(pages, k, m);
        }
    }
  }

  /** A page with data in front of n pages with data. */
  lemma AllOkCons<T>(pages: seq<Response<T>>, k: nat, n: nat)
    requires k < |pages| && pages[k].Ok? && |pages[k].data| > 0 && AllOk(pages, k + 1, n)
    ensures AllOk(pages, k, n + 1)
    ensures Flat(pages, k, n + 1) == pages[k].data + Flat(pages, k + 1, n)
  {
  }

  /** The cap is checked only before a request, so a capped loop can pass
      it, but by less than one page: with pages of at most `size` items the
      count ends below `limit + size`. A loop whose count already reached
      the cap makes no request at all. */
  lemma {:induction false} CollectOvershoot<T>(pages: seq<Response<T>>, k: nat, limit: nat, counted: nat, size: nat)
    requires forall i :: k <= i < |pages| && pages[i].Ok? ==> |pages[i].data| <= size
    ensures var c := Collect(pages, k, Limit(limit), counted);
      && (counted >= limit ==> c.items == [] && c.requests == 0)
      && (counted < limit ==> counted + |c.items| < limit + size)
    decreases |pages| - k
  {
    if counted < limit {
      match PageAt(pages, k)
      case Raised =>
      case NotOk =>
      case Ok(items, next) =>
        if |items| > 0 && next {
          CollectOvershoot(pages, k + 1, limit, counted + |items|, size);
        }
    }
  }

  /** A loop that ends with room left under its cap stopped because of the
      last page it requested: a raise, a non-200 status, an empty page, no
      `paging.next`, or the end of the recorded responses. */
  lemma {:induction false} CollectStopReason<T>(pages: seq<Response<T>>, k: nat, cap: Cap, counted: nat)
    ensures var c := Collect(pages, k, cap, counted);
      Below(cap, counted + |c.items|) ==>
        && c.requests >= 1
        && !Continues(PageAt(pages, k + c.requests - 1))
        && (c.raised <==> PageAt(pages, k + c.requests - 1).Raised?)
    decreases |pages| - k
  {
    if Below(cap, counted) {
      match PageAt(pages, k)
      case Raised =>
      case NotOk =>
      case Ok(items, next) =>
        if |items| > 0 && next {
          CollectStopReason(pages, k + 1, cap, counted + |items|);
        }
    }
  }

  /** A loop that meets k pages that continue and then one that does not
      gathers exactly those k pages, unless the stopping page raised. */
  lemma {:induction false} CollectUnlimitedUpTo<T>(pages: seq<Response<T>>, j: nat, k: nat, counted: nat)
    requires j <= k
    requires forall i :: j <= i < k ==> Continues(PageAt(pages, i))
    requires !Continues(PageAt(pages, k))
    ensures AllOk(pages, j, k - j)
    ensures var c := Collect(pages, j, Unlimited, counted);
      && c.requests == k - j + 1
      && c.raised == PageAt(pages, k).Raised?
      && (PageAt(pages, k).Ok? ==> c.items == Flat(pages, j, k - j) + PageAt(pages, k).data)
      && (!PageAt(pages, k).Ok? ==> c.items == Flat(pages, j, k - j))
    decreases k - j
  {
    if j < k {
      assert Continues(PageAt(pages, j));
      CollectUnlimitedUpTo(pages, j + 1, k, counted + |PageAt(pages, j).data|);
      assert Continues(PageAt(pages, k - 1));
      forall i | j <= i < k ensures pages[i].Ok? && |pages[i].data| > 0 {
        assert Continues(PageAt(pages, i));
      }
      assert AllOk(pages, j, k - j);
    } else {
      if PageAt(pages, k).Ok? && |PageAt(pages, k).data| == 0 {
        assert PageAt(pages, k).data == [];
      }
    }
  }

  /** The cap can be passed: a first page of three items under a cap of
      two is kept whole. */
  lemma CapOvershootWitness<T>(x: T)
    ensures |Collect([Ok([x, x, x], true)], 0, Limit(2), 0).items| == 3
  {
    assert Collect([Ok([x, x, x], true)], 1, Limit(2), 3) == Collected([], 0, false);
  }

  /** The pagination loop itself, request by request, started with
      `counted` items already counted against the cap: `items` and `raised`
      are what `Collect` says such a loop gathers from the first page. */
  method CollectLoop<T>(pages: seq<Response<T>>, cap: Cap, counted: nat) returns (items: seq<T>, raised: bool)
    ensures items == Collect(pages, 0, cap, counted).items
    ensures raised == Collect(pages, 0, cap, counted).raised
  {
    items := [];
    raised := false;
    var k := 0;
    while Below(cap, counted + |items|)
      invariant k <= |pages|
      invariant FromHere(pages, cap, counted, items, k)
      decreases |pages| - k
    {
      var response := PageAt(pages, k);
      if !Continues(response) {
        CollectLast(pages, cap, counted, items, k);
        if response.Ok? {
          items := items + response.data;
        }
        return items, response.Raised?;
      }
      CollectAdvance(pages, cap, counted, items, k);
      items := items + response.data;
      k := k + 1;
    }
    CollectCapped(pages, cap, counted, items, k);
  }

  /** The loop's invariant: what it has gathered, followed by what the loop
      from page k gathers, is what the whole loop gathers. */
  ghost predicate FromHere<T>(pages: seq<Response<T>>, cap: Cap, counted: nat, items: seq<T>, k: nat) {
    && Collect(pages, 0, cap, counted).items == items + Collect(pages, k, cap, counted + |items|).items
    && Collect(pages, 0, cap, counted).raised == Collect(pages, k, cap, counted + |items|).raised
  }

  /** A page that continues: its data joins what was gathered. */
  lemma CollectAdvance<T>(pages: seq<Response<T>>, cap: Cap, counted: nat, items: seq<T>, k: nat)
    requires FromHere(pages, cap, counted, items, k)
    requires Below(cap, counted + |items|) && Continues(PageAt(pages, k))
    ensures FromHere(pages, cap, counted, items + PageAt(pages, k).data, k + 1)
  {
    var data := PageAt(pages, k).data;
    var rest := Collect(pages, k + 1, cap, counted + |items| + |data|).items;
    assert Collect(pages, k, cap, counted + |items|).items == data + rest;
    assert (items + data) + rest == items + (data + rest);
  }

  /** The last request of a loop: the page that does not continue adds
      its data, if it has any, and says whether the loop raised. */
  lemma CollectLast<T>(pages: seq<Response<T>>, cap: Cap, counted: nat, items: seq<T>, k: nat)
    requires FromHere(pages, cap, counted, items, k)
    requires Below(cap, counted + |items|) && !Continues(PageAt(pages, k))
    ensures Collect(pages, 0, cap, counted).items == items + (if PageAt(pages, k).Ok? then PageAt(pages, k).data else [])
    ensures Collect(pages, 0, cap, counted).raised == PageAt(pages, k).Raised?
  {
    if !PageAt(pages, k).Ok? || |PageAt(pages, k).data| == 0 {
      assert items + [] == items;
    }
  }

  /** A loop stopped by its cap adds nothing more. */
  lemma CollectCapped<T>(pages: seq<Response<T>>, cap: Cap, counted: nat, items: seq<T>, k: nat)
    requires FromHere(pages, cap, counted, items, k) && !Below(cap, counted + |items|)
    ensures Collect(pages, 0, cap, counted).items == items
    ensures !Collect(pages, 0, cap, counted).raised
  {
    assert items + [] == items;
  }
}
