/** Following the cursors of `unflushed_recalls` through a ledger that changes between pages. */
module LedgerPaging {
  import opened Prelude
  import opened Ledger
  import opened LedgerRuns

  /** The ids visited page by page; `ls[i]` is the ledger as the i-th page finds it. */
  function Visited(ls: seq<Ledger>, afterId: nat, limit: nat): seq<nat>
    decreases |ls|
  {
    if ls == [] then [] else
    PageIds(ls[0], afterId, limit) +
    match NextCursor(ls[0], afterId, limit)
    case None => []
    case Some(cursor) => Visited(ls[1..], cursor, limit)
  }

  /** The scan reports exhaustion within these pages. */
  predicate Exhausts(ls: seq<Ledger>, afterId: nat, limit: nat)
    decreases |ls|
  {
    ls != [] &&
    match NextCursor(ls[0], afterId, limit)
    case None => true
    case Some(cursor) => Exhausts(ls[1..], cursor, limit)
  }

  predicate Ascending(ids: seq<nat>) {
    forall i, j :: 0 <= i < j < |ids| ==> ids[i] < ids[j]
  }

  predicate Dirty(l: Ledger, id: nat) {
    id in l.rows && l.rows[id].dirty == 1 && id < l.nextId
  }

  /** The first `limit` of ascending ids are those up to the last of them. */
  lemma PrefixIsBelow(ids: seq<nat>, limit: nat)
    requires Ascending(ids) && 1 <= limit < |ids|
    ensures forall id: nat :: id in ids[..limit] <==> id in ids && id <= ids[limit - 1]
  {
    forall id: nat | id in ids && id <= ids[limit - 1]
      ensures id in ids[..limit]
    {
      var k :| 0 <= k < |ids| && ids[k] == id;
      assert k < limit;
      assert ids[..limit][k] == id;
    }
  }

  /** One page visits exactly the dirty ids between the two cursors, in order. */
  lemma PageCovers(l: Ledger, afterId: nat, limit: nat)
    requires limit >= 1
    ensures Ascending(PageIds(l, afterId, limit))
    ensures match NextCursor(l, afterId, limit)
            case None => forall id: nat :: id in PageIds(l, afterId, limit) <==> Dirty(l, id) && afterId < id
            case Some(cursor) =>
              && afterId + limit <= cursor < l.nextId
              && (forall id: nat :: id in PageIds(l, afterId, limit) <==> Dirty(l, id) && afterId < id && id <= cursor)
  {
    var ids := DirtyFrom(l, afterId + 1);
    if |ids| > limit {
      assert ids[limit - 1] in ids;
      RisesAtLeastByOne(ids, afterId, limit - 1);
      PrefixIsBelow(ids, limit);
    }
  }

  lemma {:induction false} RisesAtLeastByOne(ids: seq<nat>, afterId: nat, k: nat)
    requires Ascending(ids) && k < |ids| && (forall id :: id in ids ==> afterId < id)
    ensures afterId + k + 1 <= ids[k]
  {
    assert ids[0] in ids;
    if k > 0 { RisesAtLeastByOne(ids, afterId, k - 1); }
  }

  lemma AscendingAcross(a: seq<nat>, cursor: nat, b: seq<nat>)
    requires Ascending(a) && Ascending(b)
    requires (forall id: nat :: id in a ==> id <= cursor) && (forall id: nat :: id in b ==> cursor < id)
    ensures Ascending(a + b)
  {
    forall i, j | 0 <= i < j < |a + b|
      ensures (a + b)[i] < (a + b)[j]
    {
      if i < |a| { assert a[i] in a; }
      if j >= |a| { assert b[j - |a|] in b; }
    }
  }

  /** However rows fail to flush, come and go between pages: the scan returns ids in strictly ascending
      order, so none twice, and, once exhausted, every row that stayed dirty throughout. */
  lemma {:induction false} PagingIsCompleteAndFair(ls: seq<Ledger>, afterId: nat, limit: nat, id: nat)
    requires limit >= 1
    ensures Ascending(Visited(ls, afterId, limit))
    ensures forall i: nat :: i in Visited(ls, afterId, limit) ==> afterId < i
    ensures Exhausts(ls, afterId, limit) && afterId < id && (forall i :: 0 <= i < |ls| ==> Dirty(ls[i], id))
            ==> id in Visited(ls, afterId, limit)
    decreases |ls|
  {
    if ls != [] {
      PageCovers(ls[0], afterId, limit);
      match NextCursor(ls[0], afterId, limit)
      case None =>
      case Some(cursor) =>
        PagingIsCompleteAndFair(ls[1..], cursor, limit, id);
        AscendingAcross(PageIds(ls[0], afterId, limit), cursor, Visited(ls[1..], cursor, limit));
        if forall i :: 0 <= i < |ls| ==> Dirty(ls[i], id) {
          assert Dirty(ls[0], id);
          forall i | 0 <= i < |ls[1..]| ensures Dirty(ls[1..][i], id) { assert Dirty(ls[i + 1], id); }
        }
    }
  }

  // ---- The rows a scan returns ----

  function IdsOf(page: seq<(nat, MemoryUsage)>): seq<nat> {
    if page == [] then [] else [page[0].0] + IdsOf(page[1..])
  }

  lemma {:induction false} IdsOfConcat(a: seq<(nat, MemoryUsage)>, b: seq<(nat, MemoryUsage)>)
    ensures IdsOf(a + b) == IdsOf(a) + IdsOf(b)
  {
    if a == [] {
      assert a + b == b;
    } else {
      assert (a + b)[1..] == a[1..] + b;
      IdsOfConcat(a[1..], b);
    }
  }

  /** Of the listed ids exactly those with a delta are returned. */
  lemma {:induction false} FetchIds(l: Ledger, ids: seq<nat>)
    ensures forall id: nat :: id in IdsOf(Fetch(l, ids)) <==> id in ids && Pending(l, id)
  {
    if ids != [] {
      var head := if Pending(l, ids[0]) then [(ids[0], l.rows[ids[0]])] else [];
      FetchIds(l, ids[1..]);
      IdsOfConcat(head, Fetch(l, ids[1..]));
    }
  }

  /** They come in the same order. */
  lemma {:induction false} FetchAscends(l: Ledger, ids: seq<nat>)
    requires Ascending(ids)
    ensures Ascending(IdsOf(Fetch(l, ids)))
  {
    if ids != [] {
      var head := if Pending(l, ids[0]) then [(ids[0], l.rows[ids[0]])] else [];
      FetchAscends(l, ids[1..]);
      FetchIds(l, ids[1..]);
      forall id: nat | id in ids[1..] ensures ids[0] < id { FirstIsLeast(ids, id); }
      IdsOfConcat(head, Fetch(l, ids[1..]));
      AscendingAcross(IdsOf(head), ids[0], IdsOf(Fetch(l, ids[1..])));
    }
  }

  lemma FirstIsLeast(ids: seq<nat>, id: nat)
    requires Ascending(ids) && ids != [] && id in ids[1..]
    ensures ids[0] < id
  {
    var k :| 0 <= k < |ids[1..]| && ids[1..][k] == id;
    assert ids[k + 1] == id;
  }

  /** The rows returned page by page: the i-th page is listed in `ls[i]` and its rows are read in `later[i]`. */
  function Returned(ls: seq<Ledger>, later: seq<Ledger>, afterId: nat, limit: nat): seq<(nat, MemoryUsage)>
    requires |later| == |ls|
    decreases |ls|
  {
    if ls == [] then [] else
    Fetch(later[0], PageIds(ls[0], afterId, limit)) +
    match NextCursor(ls[0], afterId, limit)
    case None => []
    case Some(cursor) => Returned(ls[1..], later[1..], cursor, limit)
  }

  lemma {:induction false} ReturnedAscends(ls: seq<Ledger>, later: seq<Ledger>, afterId: nat, limit: nat)
    requires limit >= 1 && |later| == |ls|
    ensures Ascending(IdsOf(Returned(ls, later, afterId, limit)))
    ensures forall i: nat :: i in IdsOf(Returned(ls, later, afterId, limit)) ==> afterId < i
    decreases |ls|
  {
    if ls != [] {
      var ids := PageIds(ls[0], afterId, limit);
      PageCovers(ls[0], afterId, limit);
      FetchIds(later[0], ids);
      FetchAscends(later[0], ids);
      match NextCursor(ls[0], afterId, limit)
      case None => assert Returned(ls, later, afterId, limit) == Fetch(later[0], ids);
      case Some(cursor) =>
        var rest := Returned(ls[1..], later[1..], cursor, limit);
        ReturnedAscends(ls[1..], later[1..], cursor, limit);
        IdsOfConcat(Fetch(later[0], ids), rest);
        AscendingAcross(IdsOf(Fetch(later[0], ids)), cursor, IdsOf(rest));
    }
  }

  /** The row is dirty in every ledger the scan sees. */
  predicate StaysDirty(ls: seq<Ledger>, id: nat) {
    forall i :: 0 <= i < |ls| ==> Dirty(ls[i], id)
  }

  lemma StaysDirtyNext(ls: seq<Ledger>, id: nat)
    requires ls != [] && StaysDirty(ls, id)
    ensures Dirty(ls[0], id) && StaysDirty(ls[1..], id)
  {
  }

  lemma {:induction false} DirtyIsReturned(ls: seq<Ledger>, later: seq<Ledger>, afterId: nat, limit: nat, id: nat)
    requires limit >= 1 && |later| == |ls| && afterId < id
    requires Exhausts(ls, afterId, limit) && StaysDirty(ls, id) && StaysDirty(later, id)
    requires forall i :: 0 <= i < |ls| ==> RowsInv(later[i])
    ensures id in IdsOf(Returned(ls, later, afterId, limit))
    decreases |ls|
  {
    var ids := PageIds(ls[0], afterId, limit);
    PageCovers(ls[0], afterId, limit);
    FetchIds(later[0], ids);
    StaysDirtyNext(ls, id);
    StaysDirtyNext(later, id);
    assert FlagIsRight(later[0].rows[id]);
    match NextCursor(ls[0], afterId, limit)
    case None => assert Returned(ls, later, afterId, limit) == Fetch(later[0], ids);
    case Some(cursor) =>
      var rest := Returned(ls[1..], later[1..], cursor, limit);
      if cursor < id { DirtyIsReturned(ls[1..], later[1..], cursor, limit, id); }
      IdsOfConcat(Fetch(later[0], ids), rest);
  }

  /** However the ledger changes between pages, and between listing a page and reading its rows: no row is
      returned twice, and once the scan is exhausted, every row that stayed dirty throughout was returned. */
  lemma ReturnsEveryDirtyRow(ls: seq<Ledger>, later: seq<Ledger>, afterId: nat, limit: nat)
    requires limit >= 1 && |later| == |ls| && (forall i :: 0 <= i < |ls| ==> RowsInv(later[i]))
    ensures Ascending(IdsOf(Returned(ls, later, afterId, limit)))
    ensures Exhausts(ls, afterId, limit) ==>
              forall id: nat :: afterId < id && StaysDirty(ls, id) && StaysDirty(later, id) ==>
                id in IdsOf(Returned(ls, later, afterId, limit))
  {
    ReturnedAscends(ls, later, afterId, limit);
    if Exhausts(ls, afterId, limit) {
      forall id: nat | afterId < id && StaysDirty(ls, id) && StaysDirty(later, id)
        ensures id in IdsOf(Returned(ls, later, afterId, limit))
      {
        DirtyIsReturned(ls, later, afterId, limit, id);
      }
    }
  }

  /** The cursor rises by at least `limit` a page, so as long as no id past `last` is handed out meanwhile,
      the scan is over within `last / limit + 1` pages. */
  lemma {:induction false} PagingTerminates(ls: seq<Ledger>, afterId: nat, limit: nat, last: nat)
    requires limit >= 1 && afterId <= last
    requires forall i :: 0 <= i < |ls| ==> ls[i].nextId <= last + 1
    requires |ls| * limit > last - afterId
    ensures Exhausts(ls, afterId, limit)
    decreases |ls|
  {
    PageCovers(ls[0], afterId, limit);
    match NextCursor(ls[0], afterId, limit)
    case None =>
    case Some(cursor) =>
      assert (|ls| - 1) * limit == |ls| * limit - limit;
      PagingTerminates(ls[1..], cursor, limit, last);
  }

  // ---- A pass of the settlement stops after so many pages ----

  const SETTLEMENT_BATCH_LIMIT := 500
  const SETTLEMENT_MAX_BATCHES := 20

  lemma {:induction false} FewerThanItems(some: set<nat>, items: seq<nat>)
    requires forall a :: a in some ==> a in items
    ensures |some| <= |items|
  {
    if items != [] {
      var init, last := items[..|items| - 1], items[|items| - 1];
      assert forall a :: a in some - {last} ==> a in init;
      FewerThanItems(some - {last}, init);
      assert some <= (some - {last}) + {last};
      if last in some { assert |some - {last}| == |some| - 1; } else { assert some - {last} == some; }
    }
  }

  /** A page that holds a row and all of those ahead of it is longer than they are many. */
  lemma PageIsLonger(page: seq<nat>, ahead: set<nat>, id: nat)
    requires id in page && id !in ahead && forall a :: a in ahead ==> a in page
    ensures |ahead| < |page|
  {
    FewerThanItems(ahead + {id}, page);
  }

  lemma StillAhead(page: seq<nat>, ahead: set<nat>, rest: set<nat>, pages: nat, limit: nat)
    requires rest <= ahead && |page| <= limit && pages > 0 && |ahead| >= pages * limit
    requires forall a :: a in ahead - rest ==> a in page
    ensures |rest| >= (pages - 1) * limit
  {
    FewerThanItems(ahead - rest, page);
    assert |ahead - rest| == |ahead| - |rest|;
    assert (pages - 1) * limit == pages * limit - limit;
  }

  lemma CursorIsOnPage(l: Ledger, afterId: nat, limit: nat)
    requires limit >= 1
    ensures |PageIds(l, afterId, limit)| <= limit
    ensures NextCursor(l, afterId, limit).Some? ==> NextCursor(l, afterId, limit).value in PageIds(l, afterId, limit)
  {
    var ids := DirtyFrom(l, afterId + 1);
    if |ids| > limit { assert ids[..limit][limit - 1] == ids[limit - 1]; }
  }

  /** A page does not get past the rows ahead when they fill it. */
  lemma PageIsFilled(l: Ledger, afterId: nat, limit: nat, ahead: set<nat>, id: nat)
    requires limit >= 1 && |ahead| >= limit && forall a :: a in ahead ==> afterId < a < id && Dirty(l, a)
    ensures id !in PageIds(l, afterId, limit)
    ensures NextCursor(l, afterId, limit).Some? ==> NextCursor(l, afterId, limit).value < id
  {
    var page := PageIds(l, afterId, limit);
    PageCovers(l, afterId, limit);
    CursorIsOnPage(l, afterId, limit);
    if id in page { PageIsLonger(page, ahead, id); }
    match NextCursor(l, afterId, limit)
    case None =>
    case Some(cursor) => if cursor >= id { PageIsLonger(page, ahead, cursor); }
  }

  /** However the ledger changes: a row with as many rows ahead of it that stay dirty as the pages of the scan can
      hold is not visited. */
  lemma {:induction false} RowsAheadStarve(ls: seq<Ledger>, afterId: nat, limit: nat, ahead: set<nat>, id: nat)
    requires limit >= 1 && |ahead| >= |ls| * limit
    requires forall a :: a in ahead ==> afterId < a < id && StaysDirty(ls, a)
    ensures id !in Visited(ls, afterId, limit)
    decreases |ls|
  {
    if ls != [] {
      var page := PageIds(ls[0], afterId, limit);
      forall a | a in ahead ensures Dirty(ls[0], a) && StaysDirty(ls[1..], a) { StaysDirtyNext(ls, a); }
      assert |ls| * limit >= limit;
      PageIsFilled(ls[0], afterId, limit, ahead, id);
      match NextCursor(ls[0], afterId, limit)
      case None =>
      case Some(cursor) =>
        var rest := set a | a in ahead && a > cursor;
        AheadOfCursor(ls[0], afterId, limit, ahead, rest, cursor);
        StillAhead(page, ahead, rest, |ls|, limit);
        RowsAheadStarve(ls[1..], cursor, limit, rest, id);
    }
  }

  lemma AheadOfCursor(l: Ledger, afterId: nat, limit: nat, ahead: set<nat>, rest: set<nat>, cursor: nat)
    requires limit >= 1 && NextCursor(l, afterId, limit) == Some(cursor) && rest == set a | a in ahead && a > cursor
    requires forall a :: a in ahead ==> afterId < a && Dirty(l, a)
    ensures |PageIds(l, afterId, limit)| <= limit && forall a :: a in ahead - rest ==> a in PageIds(l, afterId, limit)
  {
    PageCovers(l, afterId, limit);
    CursorIsOnPage(l, afterId, limit);
  }

  /** The same ledger for every page. */
  function Unchanged(l: Ledger, pages: nat): (ls: seq<Ledger>)
    ensures |ls| == pages && forall i :: 0 <= i < pages ==> ls[i] == l
  {
    seq(pages, _ => l)
  }

  lemma TailHas(ids: seq<nat>, id: nat)
    requires Ascending(ids) && ids != []
    ensures id in ids[1..] <==> id in ids && id != ids[0]
    ensures id in ids ==> ids[0] <= id
  {
    if id in ids[1..] { FirstIsLeast(ids, id); }
    if id in ids && id != ids[0] {
      var k :| 0 < k < |ids| && ids[k] == id;
      assert ids[1..][k - 1] == id;
      FirstIsLeast(ids, id);
    }
  }

  /** An ascending list is known by its elements. */
  lemma {:induction false} SameElements(a: seq<nat>, b: seq<nat>)
    requires Ascending(a) && Ascending(b) && forall id: nat :: id in a <==> id in b
    ensures a == b
  {
    if a != [] { assert a[0] in b; }
    if b != [] { assert b[0] in a; }
    if a != [] {
      TailHas(a, b[0]);
      TailHas(b, a[0]);
      forall id: nat ensures id in a[1..] <==> id in b[1..] {
        TailHas(a, id);
        TailHas(b, id);
      }
      SameElements(a[1..], b[1..]);
    }
  }

  lemma BehindIs(ids: seq<nat>, k: nat, id: nat)
    requires Ascending(ids) && 0 < k <= |ids|
    ensures id in ids[k..] <==> id in ids && ids[k - 1] < id
  {
    if id in ids[k..] {
      var i :| 0 <= i < |ids[k..]| && ids[k..][i] == id;
      assert ids[k + i] == id;
    }
    if id in ids && ids[k - 1] < id {
      var i :| 0 <= i < |ids| && ids[i] == id;
      assert k <= i && ids[k..][i - k] == id;
    }
  }

  /** Listing again after the k-th dirty row gives the rest. */
  lemma DirtyAfter(l: Ledger, from: nat, k: nat)
    requires 0 < k <= |DirtyFrom(l, from)|
    ensures DirtyFrom(l, DirtyFrom(l, from)[k - 1] + 1) == DirtyFrom(l, from)[k..]
  {
    var ids := DirtyFrom(l, from);
    var rest := DirtyFrom(l, ids[k - 1] + 1);
    assert ids[k - 1] in ids;
    forall id: nat ensures id in rest <==> id in ids[k..] { BehindIs(ids, k, id); }
    SameElements(rest, ids[k..]);
  }

  function Shorter(ids: seq<nat>, n: nat): seq<nat> {
    if |ids| > n then ids[..n] else ids
  }

  lemma ShorterTwice(ids: seq<nat>, limit: nat, n: nat)
    requires |ids| > limit
    ensures Shorter(ids, limit + n) == ids[..limit] + Shorter(ids[limit..], n)
  {
  }

  /** A pass over a ledger that does not change. */
  function Pass(l: Ledger, afterId: nat, limit: nat, pages: nat): seq<nat>
    decreases pages
  {
    if pages == 0 then [] else
    PageIds(l, afterId, limit) +
    match NextCursor(l, afterId, limit)
    case None => []
    case Some(cursor) => Pass(l, cursor, limit, pages - 1)
  }

  lemma {:induction false} PassIsVisited(l: Ledger, afterId: nat, limit: nat, pages: nat)
    ensures Visited(Unchanged(l, pages), afterId, limit) == Pass(l, afterId, limit, pages)
    decreases pages
  {
    if pages > 0 {
      assert Unchanged(l, pages)[1..] == Unchanged(l, pages - 1);
      match NextCursor(l, afterId, limit)
      case None =>
      case Some(cursor) => PassIsVisited(l, cursor, limit, pages - 1);
    }
  }

  /** How many rows the pages hold. */
  function Room(pages: nat, limit: nat): nat {
    if pages == 0 then 0 else limit + Room(pages - 1, limit)
  }

  lemma {:induction false} RoomIs(pages: nat, limit: nat)
    ensures Room(pages, limit) == pages * limit
  {
    if pages > 0 {
      RoomIs(pages - 1, limit);
      assert pages * limit == limit + (pages - 1) * limit;
    }
  }

  lemma PageOf(l: Ledger, afterId: nat, limit: nat)
    requires limit >= 1
    ensures var ids := DirtyFrom(l, afterId + 1);
            if |ids| > limit
            then PageIds(l, afterId, limit) == ids[..limit] && NextCursor(l, afterId, limit) == Some(ids[limit - 1])
                 && DirtyFrom(l, ids[limit - 1] + 1) == ids[limit..]
            else PageIds(l, afterId, limit) == ids && NextCursor(l, afterId, limit) == None
  {
    if |DirtyFrom(l, afterId + 1)| > limit { DirtyAfter(l, afterId + 1, limit); }
  }

  lemma {:induction false} PassFills(l: Ledger, afterId: nat, limit: nat, pages: nat, ids: seq<nat>)
    requires limit >= 1 && ids == DirtyFrom(l, afterId + 1)
    ensures Pass(l, afterId, limit, pages) == Shorter(ids, Room(pages, limit))
    decreases pages
  {
    if pages > 0 {
      PageOf(l, afterId, limit);
      if |ids| > limit {
        PassFills(l, ids[limit - 1], limit, pages - 1, ids[limit..]);
        ShorterTwice(ids, limit, Room(pages - 1, limit));
      }
    }
  }

  /** Over a ledger that does not change, a pass visits exactly the first rows its pages can hold. */
  lemma PassVisits(l: Ledger, afterId: nat, limit: nat, pages: nat)
    requires limit >= 1
    ensures Visited(Unchanged(l, pages), afterId, limit) == Shorter(DirtyFrom(l, afterId + 1), pages * limit)
  {
    PassIsVisited(l, afterId, limit, pages);
    PassFills(l, afterId, limit, pages, DirtyFrom(l, afterId + 1));
    RoomIs(pages, limit);
  }

  lemma ShorterHasIff(ids: seq<nat>, n: nat, k: nat)
    requires Ascending(ids) && k < |ids|
    ensures ids[k] in Shorter(ids, n) <==> k < n
  {
    var shorter := Shorter(ids, n);
    if k < n {
      assert shorter[k] == ids[k];
    } else {
      forall i | 0 <= i < |shorter| ensures shorter[i] != ids[k] { assert ids[i] < ids[k]; }
    }
  }

  /** It reaches the k-th dirty row if and only if its pages hold more than k. */
  lemma PassReachesIff(l: Ledger, afterId: nat, limit: nat, pages: nat, k: nat)
    requires limit >= 1 && k < |DirtyFrom(l, afterId + 1)|
    ensures DirtyFrom(l, afterId + 1)[k] in Visited(Unchanged(l, pages), afterId, limit) <==> k < pages * limit
  {
    PassVisits(l, afterId, limit, pages);
    ShorterHasIff(DirtyFrom(l, afterId + 1), pages * limit, k);
  }

  /** A settlement pass whose rows all keep failing reaches the k-th of them if and only if k is below ten
      thousand; the next pass begins at the first again, so the rows behind are never tried. */
  lemma SettlementReachesIff(l: Ledger, k: nat)
    requires k < |DirtyFrom(l, 1)|
    ensures DirtyFrom(l, 1)[k] in Visited(Unchanged(l, SETTLEMENT_MAX_BATCHES), 0, SETTLEMENT_BATCH_LIMIT) <==> k < 10_000
  {
    PassReachesIff(l, 0, SETTLEMENT_BATCH_LIMIT, SETTLEMENT_MAX_BATCHES, k);
  }

  /** With limit zero nothing is ever returned, yet the cursor moves past rows nobody has seen. */
  lemma {:induction false} LimitZeroSkipsEverything(ls: seq<Ledger>, afterId: nat)
    ensures Visited(ls, afterId, 0) == []
    ensures ls != [] && NextCursor(ls[0], afterId, 0).Some? ==>
              var skipped := NextCursor(ls[0], afterId, 0).value; afterId < skipped && Dirty(ls[0], skipped)
    decreases |ls|
  {
    if ls != [] {
      var ids := DirtyFrom(ls[0], afterId + 1);
      if ids != [] {
        assert ids[0] in ids;
        LimitZeroSkipsEverything(ls[1..], ids[0]);
      }
    }
  }
}
