/**
 The negative-knowledge cache: queries the graph had nothing for, with a time to live and a row cap.
 A removal may fail in the database; `failing` names the rows whose removal does.
 */
module MissCache {
  import opened Prelude
  import opened Table
  import opened Text

  const RECALL_MISS_TTL_MS := 3_600_000
  const MISS_CACHE_MAX_ROWS := 1024
  const MISS_QUERY_MAX_CHARS := 512
  const SCAN_LIMIT := 100

  datatype Miss = Miss(query: string, createdAt: nat)

  datatype Cache = Cache(rows: map<nat, Miss>, nextId: nat)

  const EMPTY := Cache(map[], 1)

  // ---- Keys ----

  /** White space folded, lower-cased. */
  function CacheKey(query: string): string {
    LowerText(JoinWords(Words(query)))
  }

  lemma WordsOfKey(query: string)
    ensures Words(CacheKey(query)) == LowerAll(Words(query))
    ensures CacheKey(query) == JoinWords(LowerAll(Words(query)))
  {
    WordsAreWords(query);
    LowerJoin(Words(query));
    LowerWordsAreWords(Words(query));
    WordsOfJoin(LowerAll(Words(query)));
  }

  /** Two queries share a cache entry exactly when they are the same words up to case. */
  lemma SameKeyIff(a: string, b: string)
    ensures CacheKey(a) == CacheKey(b) <==> LowerAll(Words(a)) == LowerAll(Words(b))
  {
    WordsOfKey(a);
    WordsOfKey(b);
  }

  lemma {:induction false} LowerTwice(s: string)
    ensures LowerText(LowerText(s)) == LowerText(s)
  {
    if s != [] { LowerTwice(s[1..]); }
  }

  /** A key is its own key. */
  lemma KeyIsNormal(query: string)
    ensures CacheKey(CacheKey(query)) == CacheKey(query)
  {
    WordsOfKey(query);
    LowerTwice(JoinWords(Words(query)));
    LowerJoin(Words(query));
  }

  predicate Cacheable(key: string) {
    key != [] && |key| <= MISS_QUERY_MAX_CHARS
  }

  // ---- Meaning of the operations ----

  function Age(now: nat, createdAt: nat): nat {
    if now >= createdAt then now - createdAt else 0
  }

  predicate Expired(miss: Miss, now: nat) {
    Age(now, miss.createdAt) > RECALL_MISS_TTL_MS
  }

  /** Row ids start at one and are below the next id. */
  predicate IdsInRange(c: Cache) {
    1 <= c.nextId && forall id :: id in c.rows ==> 1 <= id < c.nextId
  }

  predicate OneRowPerKey(c: Cache) {
    forall i, j :: i in c.rows && j in c.rows && c.rows[i].query == c.rows[j].query ==> i == j
  }

  predicate Valid(c: Cache) {
    IdsInRange(c) && OneRowPerKey(c) && |c.rows| <= MISS_CACHE_MAX_ROWS
  }

  function Keys(c: Cache): map<nat, string> {
    map id | id in c.rows :: c.rows[id].query
  }

  function Find(c: Cache, key: string): (r: Option<nat>)
    ensures r.Some? ==> r.value in c.rows && c.rows[r.value].query == key
    ensures r.None? ==> forall id :: id in c.rows && id < c.nextId ==> c.rows[id].query != key
  {
    assert forall id :: id in c.rows ==> id in Keys(c) && Keys(c)[id] == c.rows[id].query;
    FindFrom(Keys(c), key, 0, c.nextId)
  }

  /** A fresh miss is cached for the query. */
  predicate Fresh(c: Cache, query: string, now: nat) {
    var id := Find(c, CacheKey(query));
    id.Some? && !Expired(c.rows[id.value], now)
  }

  function RemoveRow(c: Cache, id: nat): Cache {
    c.(rows := c.rows - {id})
  }

  /** Everything expired goes, except what cannot be removed. */
  function Purged(c: Cache, now: nat, failing: set<nat>): Cache {
    c.(rows := map id | id in c.rows && (id in failing || !Expired(c.rows[id], now)) :: c.rows[id])
  }

  /** Everything goes, except what cannot be removed. */
  function Cleared(c: Cache, failing: set<nat>): Cache {
    c.(rows := map id | id in c.rows && id in failing :: c.rows[id])
  }

  function Recorded(c: Cache, query: string, now: nat, failing: set<nat>): Cache {
    var key := CacheKey(query);
    if !Cacheable(key) then c else
    match Find(c, key)
    case Some(id) => c.(rows := c.rows[id := Miss(key, now)])
    case None =>
      var c' := if |c.rows| >= MISS_CACHE_MAX_ROWS then Purged(c, now, failing) else c;
      if |c'.rows| >= MISS_CACHE_MAX_ROWS then c'
      else Cache(c'.rows[c'.nextId := Miss(key, now)], c'.nextId + 1)
  }

  lemma FewerRows(c: Cache, rows: map<nat, Miss>)
    requires Valid(c) && rows.Keys <= c.rows.Keys && (forall id :: id in rows ==> rows[id] == c.rows[id])
    ensures Valid(c.(rows := rows))
    ensures |rows| <= |c.rows|
  {
    Subset(rows.Keys, c.rows.Keys);
    assert |rows| == |rows.Keys| && |c.rows| == |c.rows.Keys|;
  }

  lemma Subset(a: set<nat>, b: set<nat>)
    requires a <= b
    ensures |a| <= |b|
  {
    assert b == a + (b - a);
  }

  // ---- The cache as an object ----

  /** The row ids in [from, bound), ascending. */
  function IdsFrom(rows: set<nat>, from: nat, bound: nat): (ids: seq<nat>)
    ensures forall id: nat :: id in ids <==> id in rows && from <= id < bound
    ensures forall i, j :: 0 <= i < j < |ids| ==> ids[i] < ids[j]
    decreases if from < bound then bound - from else 0
  {
    if from >= bound then []
    else if from in rows then
      var rest := IdsFrom(rows, from + 1, bound);
      assert forall j :: 0 <= j < |rest| ==> rest[j] in rest;
      [from] + rest
    else IdsFrom(rows, from + 1, bound)
  }

  /** One page of a scan: the first rows after the cursor. */
  function Page(c: Cache, cursor: nat): seq<nat> {
    var ids := IdsFrom(c.rows.Keys, cursor + 1, c.nextId);
    if |ids| > SCAN_LIMIT then ids[..SCAN_LIMIT] else ids
  }

  lemma PageFits(c: Cache, cursor: nat)
    ensures |Page(c, cursor)| <= 100
  {
  }

  /** A page holds every row up to its last one; an empty page means there is no row left. */
  lemma PageIsPrefix(c: Cache, cursor: nat)
    requires IdsInRange(c)
    ensures forall id: nat :: id in Page(c, cursor) ==> id in c.rows && cursor < id < c.nextId
    ensures forall i, j :: 0 <= i < j < |Page(c, cursor)| ==> Page(c, cursor)[i] < Page(c, cursor)[j]
    ensures Page(c, cursor) == [] ==> forall id :: id in c.rows ==> id <= cursor
    ensures Page(c, cursor) != [] ==>
              forall id :: id in c.rows && cursor < id <= Page(c, cursor)[|Page(c, cursor)| - 1] ==> id in Page(c, cursor)
  {
    var ids := IdsFrom(c.rows.Keys, cursor + 1, c.nextId);
    var page := Page(c, cursor);
    forall id | id in page ensures id in c.rows && cursor < id < c.nextId { assert id in ids; }
    if page == [] {
      forall id | id in c.rows ensures id <= cursor { assert id !in ids; }
    } else {
      forall id | id in c.rows && cursor < id <= page[|page| - 1] ensures id in page {
        assert id in ids;
        var i :| 0 <= i < |ids| && ids[i] == id;
        assert page[|page| - 1] == ids[|page| - 1];
        assert i < |page| && page[i] == id;
      }
    }
  }

  /** What a scan leaves once its cursor has passed `cursor`: the rows beyond, and those it keeps. */
  function Swept(rows: map<nat, Miss>, cursor: nat, doomed: set<nat>): map<nat, Miss> {
    map id | id in rows && !(id <= cursor && id in doomed) :: rows[id]
  }

  function OnPage(page: seq<nat>, doomed: set<nat>): set<nat> {
    set id | id in page && id in doomed
  }

  lemma OnPageNext(page: seq<nat>, i: nat, doomed: set<nat>)
    requires i < |page|
    ensures OnPage(page[..i + 1], doomed) == OnPage(page[..i], doomed) + if page[i] in doomed then {page[i]} else {}
  {
    assert page[..i + 1] == page[..i] + [page[i]];
  }

  lemma RemoveOne(rows: map<nat, Miss>, id: nat)
    requires id in rows
    ensures |rows - {id}| == |rows| - 1
  {
    assert (rows - {id}).Keys == rows.Keys - {id};
  }

  /** What is left after the first `n` rows of the page. */
  function Left(rows: map<nat, Miss>, page: seq<nat>, doomed: set<nat>, n: nat): map<nat, Miss>
    requires n <= |page|
  {
    if n == 0 then rows else
    var before := Left(rows, page, doomed, n - 1);
    if page[n - 1] in doomed then before - {page[n - 1]} else before
  }

  lemma {:induction false} LeftIs(rows: map<nat, Miss>, page: seq<nat>, doomed: set<nat>, n: nat)
    requires n <= |page|
    ensures Left(rows, page, doomed, n) == rows - OnPage(page[..n], doomed)
  {
    if n > 0 {
      LeftIs(rows, page, doomed, n - 1);
      OnPageNext(page, n - 1, doomed);
    }
  }

  lemma NextIsLeft(rows: map<nat, Miss>, page: seq<nat>, doomed: set<nat>, n: nat)
    requires n < |page| && page[n] in rows
    requires forall i, j :: 0 <= i < j < |page| ==> page[i] < page[j]
    ensures page[n] in Left(rows, page, doomed, n) && Left(rows, page, doomed, n)[page[n]] == rows[page[n]]
  {
    LeftIs(rows, page, doomed, n);
    assert page[n] !in page[..n];
  }

  lemma SweptPast(rows: map<nat, Miss>, cursor: nat, doomed: set<nat>, page: seq<nat>)
    requires page != [] && cursor < page[|page| - 1]
    requires forall i, j :: 0 <= i < j < |page| ==> page[i] < page[j]
    requires forall id: nat :: id in page ==> cursor < id
    requires forall id :: id in Swept(rows, cursor, doomed) && cursor < id <= page[|page| - 1] ==> id in page
    ensures Swept(rows, page[|page| - 1], doomed) == Swept(rows, cursor, doomed) - OnPage(page, doomed)
  {
    var last := page[|page| - 1];
    forall id | id in page ensures id <= last {
      var i :| 0 <= i < |page| && page[i] == id;
      if i < |page| - 1 { assert page[i] < page[|page| - 1]; }
    }
  }

  /** Removing the doomed rows of the next page carries the sweep to the page's last row; with no page left
      the sweep is over. */
  lemma SweepStep(c: Cache, c': Cache, cursor: nat, doomed: set<nat>)
    requires IdsInRange(c) && c' == c.(rows := Swept(c.rows, cursor, doomed))
    ensures Page(c', cursor) == [] ==> c'.rows == c.rows - doomed
    ensures Page(c', cursor) != [] ==>
              && cursor < Page(c', cursor)[|Page(c', cursor)| - 1] < c.nextId
              && Swept(c.rows, Page(c', cursor)[|Page(c', cursor)| - 1], doomed) == c'.rows - OnPage(Page(c', cursor), doomed)
    ensures forall id: nat :: id in Page(c', cursor) ==> id in c'.rows
    ensures forall i, j :: 0 <= i < j < |Page(c', cursor)| ==> Page(c', cursor)[i] < Page(c', cursor)[j]
  {
    PageIsPrefix(c', cursor);
    var page := Page(c', cursor);
    if page != [] {
      assert page[|page| - 1] in page;
      SweptPast(c.rows, cursor, doomed, page);
    }
  }

  lemma PurgedIs(c: Cache, now: nat, failing: set<nat>, doomed: set<nat>)
    requires forall id :: id in c.rows ==> (id in doomed <==> id !in failing && Expired(c.rows[id], now))
    ensures c.(rows := c.rows - doomed) == Purged(c, now, failing)
  {
    assert c.rows - doomed == Purged(c, now, failing).rows;
  }

  lemma ClearedIs(c: Cache, failing: set<nat>)
    ensures c.(rows := c.rows - (c.rows.Keys - failing)) == Cleared(c, failing)
  {
    assert c.rows - (c.rows.Keys - failing) == Cleared(c, failing).rows;
  }

  class MissCache {
    var rows: map<nat, Miss>
    var nextId: nat

    function View(): Cache
      reads this
    {
      Cache(rows, nextId)
    }

    constructor ()
      ensures View() == EMPTY
    {
      rows, nextId := map[], 1;
    }

    /** One removal, which the database may refuse. */
    method Remove(id: nat, failing: set<nat>) returns (ok: bool)
      modifies this`rows
      ensures ok == (id !in failing)
      ensures rows == if ok then old(rows) - {id} else old(rows)
      ensures id in old(rows) ==> |rows| == |old(rows)| - if ok then 1 else 0
    {
      ok := id !in failing;
      if ok {
        if id in rows { RemoveOne(rows, id); }
        rows := rows - {id};
      }
    }

    /** The lookup reads without the lock; a row it finds expired is left to `RemoveStale`. */
    method Lookup(query: string, now: nat) returns (hit: bool, stale: Option<nat>)
      ensures hit == Fresh(View(), query, now)
      ensures stale == if hit then None else Find(View(), CacheKey(query))
    {
      var found := Find(View(), CacheKey(query));
      match found {
        case None => return false, None;
        case Some(id) =>
          if Age(now, rows[id].createdAt) <= RECALL_MISS_TTL_MS {
            return true, None;
          }
          return false, Some(id);
      }
    }

    /** Takes the row out by its id, whatever it holds by now. */
    method RemoveStale(id: nat, failing: set<nat>)
      modifies this`rows
      ensures View() == Step(old(View()), Prune(id, id in failing))
    {
      var _ := Remove(id, failing);
    }

    /** Both, with nothing in between. */
    method IsFreshMiss(query: string, now: nat, failing: set<nat>) returns (hit: bool)
      modifies this`rows
      ensures hit == Fresh(old(View()), query, now)
      ensures var id := Find(old(View()), CacheKey(query));
              View() == if id.Some? && !hit && id.value !in failing then RemoveRow(old(View()), id.value) else old(View())
    {
      var stale;
      hit, stale := Lookup(query, now);
      if stale.Some? {
        RemoveStale(stale.value, failing);
      }
    }

    /** Removes the expired rows of one page that can be removed. */
    method PurgePage(page: seq<nat>, now: nat, failing: set<nat>, ghost doomed: set<nat>)
      requires forall id: nat :: id in page ==> id in rows
      requires forall i, j :: 0 <= i < j < |page| ==> page[i] < page[j]
      requires forall id :: id in rows ==> (id in doomed <==> id !in failing && Expired(rows[id], now))
      modifies this`rows
      ensures rows == old(rows) - OnPage(page, doomed)
    {
      var i := 0;
      while i < |page|
        invariant 0 <= i <= |page|
        invariant rows == Left(old(rows), page, doomed, i)
      {
        NextIsLeft(old(rows), page, doomed, i);
        if Age(now, rows[page[i]].createdAt) > RECALL_MISS_TTL_MS {
          var _ := Remove(page[i], failing);
        }
        i := i + 1;
      }
      LeftIs(old(rows), page, doomed, i);
      assert page[..i] == page;
    }

    method PurgeExpired(now: nat, failing: set<nat>)
      requires IdsInRange(View())
      modifies this`rows
      ensures View() == Purged(old(View()), now, failing)
    {
      var cursor := 0;
      ghost var doomed := set id | id in rows && id !in failing && Expired(rows[id], now);
      while true
        invariant cursor < nextId
        invariant rows == Swept(old(rows), cursor, doomed)
        decreases nextId - cursor
      {
        SweepStep(old(View()), View(), cursor, doomed);
        var page := Page(View(), cursor);
        if page == [] {
          break;
        }
        PurgePage(page, now, failing, doomed);
        cursor := page[|page| - 1];
      }
      assert rows == old(rows) - doomed;
      PurgedIs(old(View()), now, failing, doomed);
    }

    /** Removes the rows of one page that can be removed. */
    method ClearPage(page: seq<nat>, failing: set<nat>, ghost doomed: set<nat>) returns (cleared: nat)
      requires forall id: nat :: id in page ==> id in rows
      requires forall i, j :: 0 <= i < j < |page| ==> page[i] < page[j]
      requires forall id :: id in rows ==> (id in doomed <==> id !in failing)
      modifies this`rows
      ensures rows == old(rows) - OnPage(page, doomed)
      ensures cleared == |old(rows)| - |rows|
    {
      cleared := 0;
      var i := 0;
      while i < |page|
        invariant 0 <= i <= |page|
        invariant rows == Left(old(rows), page, doomed, i)
        invariant cleared == |old(rows)| - |rows|
      {
        NextIsLeft(old(rows), page, doomed, i);
        var ok := Remove(page[i], failing);
        if ok {
          cleared := cleared + 1;
        }
        i := i + 1;
      }
      LeftIs(old(rows), page, doomed, i);
      assert page[..i] == page;
    }

    method Clear(failing: set<nat>) returns (cleared: nat)
      requires IdsInRange(View())
      modifies this`rows
      ensures View() == Cleared(old(View()), failing)
      ensures cleared == |old(rows)| - |rows|
    {
      cleared := 0;
      var cursor := 0;
      ghost var doomed := rows.Keys - failing;
      while true
        invariant cursor < nextId
        invariant rows == Swept(old(rows), cursor, doomed)
        invariant cleared == |old(rows)| - |rows|
        decreases nextId - cursor
      {
        SweepStep(old(View()), View(), cursor, doomed);
        var page := Page(View(), cursor);
        if page == [] {
          break;
        }
        var n := ClearPage(page, failing, doomed);
        cleared := cleared + n;
        cursor := page[|page| - 1];
      }
      assert rows == old(rows) - doomed;
      ClearedIs(old(View()), failing);
    }

    method RecordMiss(query: string, now: nat, failing: set<nat>)
      requires Valid(View())
      modifies this
      ensures View() == Recorded(old(View()), query, now, failing)
    {
      var key := CacheKey(query);
      if |key| == 0 || |key| > MISS_QUERY_MAX_CHARS {
        return;
      }
      var found := Find(View(), key);
      match found {
        case Some(id) =>
          rows := rows[id := rows[id].(createdAt := now)];
        case None =>
          if |rows| >= MISS_CACHE_MAX_ROWS {
            PurgeExpired(now, failing);
            if |rows| >= MISS_CACHE_MAX_ROWS {
              return;
            }
          }
          rows := rows[nextId := Miss(key, now)];
          nextId := nextId + 1;
      }
    }
  }

  // ---- Whole histories ----

  /** A lookup reads without the lock, and the removal it asks for is a step of its own: anything may have
      happened to the row in between. */
  datatype Event =
    | Record(query: string, now: nat, failing: set<nat>)
    | Clear(failing: set<nat>)
    | Look(query: string, now: nat)
    | Prune(id: nat, fails: bool)

  function Step(c: Cache, e: Event): Cache {
    match e
    case Record(query, now, failing) => Recorded(c, query, now, failing)
    case Clear(failing) => Cleared(c, failing)
    case Look(_, _) => c
    case Prune(id, fails) => if fails then c else RemoveRow(c, id)
  }

  function After(h: seq<Event>): Cache {
    if h == [] then EMPTY else Step(After(h[..|h| - 1]), h[|h| - 1])
  }

  lemma RefreshKeepsValid(c: Cache, id: nat, now: nat)
    requires Valid(c) && id in c.rows
    ensures Valid(c.(rows := c.rows[id := Miss(c.rows[id].query, now)]))
  {
    assert c.rows[id := Miss(c.rows[id].query, now)].Keys == c.rows.Keys;
  }

  lemma InsertKeepsValid(c: Cache, key: string, now: nat)
    requires Valid(c) && |c.rows| < MISS_CACHE_MAX_ROWS
    requires forall id :: id in c.rows ==> c.rows[id].query != key
    ensures Valid(Cache(c.rows[c.nextId := Miss(key, now)], c.nextId + 1))
  {
    assert c.nextId !in c.rows;
  }

  lemma RecordKeepsValid(c: Cache, query: string, now: nat, failing: set<nat>)
    requires Valid(c)
    ensures Valid(Recorded(c, query, now, failing))
  {
    var key := CacheKey(query);
    match Find(c, key)
    case Some(id) => RefreshKeepsValid(c, id, now);
    case None =>
      FewerRows(c, Purged(c, now, failing).rows);
      var c' := if |c.rows| >= MISS_CACHE_MAX_ROWS then Purged(c, now, failing) else c;
      if |c'.rows| < MISS_CACHE_MAX_ROWS { InsertKeepsValid(c', key, now); }
  }

  lemma StepKeepsValid(c: Cache, e: Event)
    requires Valid(c)
    ensures Valid(Step(c, e))
  {
    match e
    case Record(query, now, failing) => RecordKeepsValid(c, query, now, failing);
    case Look(_, _) =>
    case _ => FewerRows(c, Step(c, e).rows);
  }

  /** One row a key, and never more rows than the cap, in every history. */
  lemma {:induction false} NeverBeyondCap(h: seq<Event>)
    ensures Valid(After(h))
  {
    if h != [] {
      NeverBeyondCap(h[..|h| - 1]);
      StepKeepsValid(After(h[..|h| - 1]), h[|h| - 1]);
    }
  }

  /** The k-th event recorded exactly this miss. */
  predicate RecordsMiss(e: Event, miss: Miss) {
    e.Record? && CacheKey(e.query) == miss.query && e.now == miss.createdAt
  }

  /** A clear that removed everything it found. */
  predicate FullClear(c: Cache, e: Event) {
    e.Clear? && c.rows.Keys !! e.failing
  }

  ghost predicate Witnessed(h: seq<Event>, miss: Miss) {
    exists k :: 0 <= k < |h| && RecordsMiss(h[k], miss)
             && forall j :: k < j < |h| ==> !FullClear(After(h[..j]), h[j])
  }

  lemma WitnessExtends(h: seq<Event>, e: Event, miss: Miss)
    requires Witnessed(h, miss) && !FullClear(After(h), e)
    ensures Witnessed(h + [e], miss)
  {
    var k :| 0 <= k < |h| && RecordsMiss(h[k], miss) && forall j :: k < j < |h| ==> !FullClear(After(h[..j]), h[j]);
    var h' := h + [e];
    assert RecordsMiss(h'[k], miss);
    forall j | k < j < |h'| ensures !FullClear(After(h'[..j]), h'[j]) {
      if j < |h| { assert h'[..j] == h[..j]; } else { assert h'[..j] == h; }
    }
  }

  /** A row is the event's own, or was there before and no full clear. */
  lemma RowComesFrom(c: Cache, e: Event, id: nat)
    requires id in Step(c, e).rows
    ensures RecordsMiss(e, Step(c, e).rows[id])
            || (id in c.rows && c.rows[id] == Step(c, e).rows[id] && !FullClear(c, e))
  {
  }

  lemma RecordingIsWitness(h: seq<Event>, e: Event, miss: Miss)
    requires RecordsMiss(e, miss)
    ensures Witnessed(h + [e], miss)
  {
    assert RecordsMiss((h + [e])[|h|], miss);
  }

  lemma {:induction false} RowsAreWitnessed(h: seq<Event>, id: nat)
    requires id in After(h).rows
    ensures Witnessed(h, After(h).rows[id])
  {
    var n := |h| - 1;
    var init, e, miss := h[..n], h[n], After(h).rows[id];
    assert h == init + [e];
    RowComesFrom(After(init), e, id);
    if RecordsMiss(e, miss) {
      RecordingIsWitness(init, e, miss);
    } else {
      RowsAreWitnessed(init, id);
      WitnessExtends(init, e, miss);
    }
  }

  /** A hit is never stale beyond what the cache promises: some query with the same words was recorded
      within the time to live, and no clear that removed everything came after it. */
  lemma HitIsJustified(h: seq<Event>, query: string, now: nat)
    requires Fresh(After(h), query, now)
    ensures exists k :: 0 <= k < |h| && h[k].Record?
              && LowerAll(Words(h[k].query)) == LowerAll(Words(query))
              && now <= h[k].now + 3_600_000
              && forall j :: k < j < |h| ==> !FullClear(After(h[..j]), h[j])
  {
    var miss := After(h).rows[Find(After(h), CacheKey(query)).value];
    RowsAreWitnessed(h, Find(After(h), CacheKey(query)).value);
    var k :| 0 <= k < |h| && RecordsMiss(h[k], miss) && forall j :: k < j < |h| ==> !FullClear(After(h[..j]), h[j]);
    SameKeyIff(h[k].query, query);
  }

  lemma BlankKeyIff(query: string)
    ensures CacheKey(query) == [] <==> Words(query) == []
  {
    WordsOfKey(query);
    WordsAreWords(query);
    LowerWordsAreWords(Words(query));
    assert Words([]) == [];
  }

  /** A row of the query's words is there, recorded within the hour. */
  predicate HasFresh(c: Cache, query: string, now: nat) {
    exists id :: id in c.rows && c.rows[id].query == CacheKey(query) && now <= c.rows[id].createdAt + 3_600_000
  }

  /** A query is a hit exactly when its words were recorded within the hour, and the row is still there. */
  lemma FreshIff(c: Cache, query: string, now: nat)
    requires Valid(c)
    ensures Fresh(c, query, now) <==> HasFresh(c, query, now)
  {
    if id :| id in c.rows && c.rows[id].query == CacheKey(query) && now <= c.rows[id].createdAt + 3_600_000 { FindIs(c, id); }
  }

  /** There is room for one more row, after a purge if need be. */
  predicate HasRoom(c: Cache, now: nat, failing: set<nat>) {
    || |c.rows| < 1024
    || |c.rows.Keys - (set id | id in c.rows && id !in failing && now > c.rows[id].createdAt + 3_600_000)| < 1024
  }

  lemma RoomAfterPurge(c: Cache, now: nat, failing: set<nat>)
    ensures HasRoom(c, now, failing)
       <==> |(if |c.rows| >= MISS_CACHE_MAX_ROWS then Purged(c, now, failing) else c).rows| < MISS_CACHE_MAX_ROWS
  {
    var gone := set id | id in c.rows && id !in failing && now > c.rows[id].createdAt + 3_600_000;
    assert Purged(c, now, failing).rows.Keys == c.rows.Keys - gone;
    assert |Purged(c, now, failing).rows| == |Purged(c, now, failing).rows.Keys|;
  }

  /** Recording a query that has a word, and whose key has at most 512 characters, makes it a hit exactly when it was
      cached or there is room; recording any other query changes nothing. */
  lemma RecordedIsHitIff(c: Cache, query: string, now: nat, failing: set<nat>)
    requires Valid(c)
    ensures Words(query) != [] && |CacheKey(query)| <= 512 ==>
              (Fresh(Recorded(c, query, now, failing), query, now)
               <==> (exists id :: id in c.rows && c.rows[id].query == CacheKey(query)) || HasRoom(c, now, failing))
    ensures Words(query) == [] || |CacheKey(query)| > 512 ==> Recorded(c, query, now, failing) == c
  {
    var key := CacheKey(query);
    var c' := Recorded(c, query, now, failing);
    BlankKeyIff(query);
    RoomAfterPurge(c, now, failing);
    StepKeepsValid(c, Record(query, now, failing));
    match Find(c, key)
    case Some(id) =>
      if Cacheable(key) { assert c'.rows[id] == Miss(key, now); }
    case None =>
      if c.nextId in c'.rows { assert c'.rows[c.nextId].query == key; }
  }

  lemma FindIs(c: Cache, id: nat)
    requires Valid(c) && id in c.rows
    ensures Find(c, c.rows[id].query) == Some(id)
  {
  }

  // ---- How long a hit lasts ----

  function Run(c: Cache, es: seq<Event>): Cache
    decreases |es|
  {
    if es == [] then c else Run(Step(c, es[0]), es[1..])
  }

  /** The event cannot take the row. */
  predicate Spares(e: Event, id: nat) {
    && !(e.Prune? && e.id == id && !e.fails)
    && (e.Clear? ==> id in e.failing)
  }

  predicate RecordedBetween(e: Event, since: nat, now: nat) {
    e.Record? ==> since <= e.now <= now
  }

  /** One event, on a row that was recorded at `since` or later and is not expired at `now`. */
  lemma RowStaysIff(c: Cache, id: nat, since: nat, now: nat, e: Event)
    requires Valid(c) && id in c.rows && since <= c.rows[id].createdAt && Age(now, since) <= RECALL_MISS_TTL_MS
    requires RecordedBetween(e, since, now)
    ensures id in Step(c, e).rows <==> Spares(e, id)
    ensures id in Step(c, e).rows ==> Step(c, e).rows[id].query == c.rows[id].query && since <= Step(c, e).rows[id].createdAt
  {
    if e.Record? && Find(c, CacheKey(e.query)).None? {
      assert id in Purged(c, e.now, e.failing).rows;
    }
  }

  /** A row id is never used again. */
  lemma {:induction false} GoneForGood(c: Cache, id: nat, es: seq<Event>)
    requires Valid(c) && id < c.nextId && id !in c.rows
    ensures id !in Run(c, es).rows
    decreases |es|
  {
    if es != [] {
      StepKeepsValid(c, es[0]);
      GoneForGood(Step(c, es[0]), id, es[1..]);
    }
  }

  lemma {:induction false} RowSurvivesIff(c: Cache, id: nat, query: string, since: nat, now: nat, es: seq<Event>)
    requires Valid(c) && id in c.rows && c.rows[id].query == CacheKey(query)
    requires since <= c.rows[id].createdAt && Age(now, since) <= RECALL_MISS_TTL_MS
    requires forall i :: 0 <= i < |es| ==> RecordedBetween(es[i], since, now)
    ensures id in Run(c, es).rows <==> forall i :: 0 <= i < |es| ==> Spares(es[i], id)
    ensures id in Run(c, es).rows ==> Fresh(Run(c, es), query, now)
    decreases |es|
  {
    if es == [] {
      FindIs(c, id);
    } else {
      var c' := Step(c, es[0]);
      StepKeepsValid(c, es[0]);
      RowStaysIff(c, id, since, now, es[0]);
      if Spares(es[0], id) {
        assert forall i :: 0 <= i < |es| - 1 ==> es[1..][i] == es[i + 1];
        RowSurvivesIff(c', id, query, since, now, es[1..]);
        assert forall i :: 0 < i < |es| ==> es[i] == es[1..][i - 1];
      } else {
        GoneForGood(c', id, es[1..]);
      }
    }
  }

  // ---- Lookups in flight ----

  /** `flying` holds the ids that lookups found expired and have not tried to remove yet, once a lookup. */
  datatype Shared = Shared(c: Cache, flying: multiset<nat>)

  /** A removal is always that of a lookup. */
  predicate Enabled(s: Shared, e: Event) {
    e.Prune? ==> e.id in s.flying
  }

  /** The row a lookup finds expired. */
  function FoundExpired(c: Cache, query: string, now: nat): Option<nat> {
    var id := Find(c, CacheKey(query));
    if id.Some? && Expired(c.rows[id.value], now) then id else None
  }

  function SharedStep(s: Shared, e: Event): Shared
    requires Enabled(s, e)
  {
    var c := Step(s.c, e);
    match e
    case Look(query, now) =>
      (match FoundExpired(s.c, query, now)
       case Some(id) => Shared(c, s.flying + multiset{id})
       case None => Shared(c, s.flying))
    case Prune(id, _) => Shared(c, s.flying - multiset{id})
    case _ => Shared(c, s.flying)
  }

  predicate IsHistory(s: Shared, es: seq<Event>)
    decreases |es|
  {
    es != [] ==> Enabled(s, es[0]) && IsHistory(SharedStep(s, es[0]), es[1..])
  }

  function RunShared(s: Shared, es: seq<Event>): Shared
    requires IsHistory(s, es)
    decreases |es|
  {
    if es == [] then s else RunShared(SharedStep(s, es[0]), es[1..])
  }

  /** How many lookups of these find the row expired. */
  function Finds(s: Shared, es: seq<Event>, id: nat): nat
    requires IsHistory(s, es)
    decreases |es|
  {
    if es == [] then 0
    else (if es[0].Look? && FoundExpired(s.c, es[0].query, es[0].now) == Some(id) then 1 else 0)
         + Finds(SharedStep(s, es[0]), es[1..], id)
  }

  /** How often these try to remove the row on behalf of a lookup. */
  function Prunes(es: seq<Event>, id: nat): nat
    decreases |es|
  {
    if es == [] then 0 else (if es[0].Prune? && es[0].id == id then 1 else 0) + Prunes(es[1..], id)
  }

  /** In every history, each lookup that finds a row expired tries to remove it once, later or never, and nobody else
      does. */
  lemma {:induction false} RemovalsFollowLookups(s: Shared, es: seq<Event>, id: nat)
    requires IsHistory(s, es)
    ensures s.flying[id] + Finds(s, es, id) == Prunes(es, id) + RunShared(s, es).flying[id]
    decreases |es|
  {
    if es != [] { RemovalsFollowLookups(SharedStep(s, es[0]), es[1..], id); }
  }

  /** Clocks stay between `since` and `until`, and no clear takes the row. */
  predicate TameEvent(e: Event, id: nat, since: nat, until: nat) {
    match e
    case Record(_, now, _) => since <= now <= until
    case Look(_, now) => now <= until
    case Clear(failing) => id in failing
    case Prune(_, _) => true
  }

  predicate Tame(es: seq<Event>, id: nat, since: nat, until: nat) {
    forall i :: 0 <= i < |es| ==> TameEvent(es[i], id, since, until)
  }

  /** The row is there, no older than `since`, and no lookup is after it. */
  predicate Undisturbed(s: Shared, id: nat, query: string, since: nat) {
    && Valid(s.c) && id in s.c.rows && s.c.rows[id].query == CacheKey(query)
    && since <= s.c.rows[id].createdAt && id !in s.flying
  }

  lemma StepLeavesUndisturbed(s: Shared, e: Event, id: nat, query: string, since: nat, until: nat)
    requires Undisturbed(s, id, query, since) && Age(until, since) <= RECALL_MISS_TTL_MS
    requires Enabled(s, e) && TameEvent(e, id, since, until)
    ensures Undisturbed(SharedStep(s, e), id, query, since)
  {
    StepKeepsValid(s.c, e);
    RowStaysIff(s.c, id, since, until, e);
  }

  lemma {:induction false} StaysFresh(s: Shared, es: seq<Event>, id: nat, query: string, since: nat, until: nat)
    requires Undisturbed(s, id, query, since) && Age(until, since) <= RECALL_MISS_TTL_MS
    requires IsHistory(s, es) && Tame(es, id, since, until)
    ensures Fresh(RunShared(s, es).c, query, until)
    decreases |es|
  {
    if es == [] {
      FindIs(s.c, id);
    } else {
      StepLeavesUndisturbed(s, es[0], id, query, since, until);
      assert forall i :: 0 <= i < |es| - 1 ==> es[1..][i] == es[i + 1];
      StaysFresh(SharedStep(s, es[0]), es[1..], id, query, since, until);
    }
  }

  lemma {:induction false} OneStep(s: Shared, e: Event)
    requires Enabled(s, e)
    ensures IsHistory(s, [e]) && RunShared(s, [e]) == SharedStep(s, e)
  {
    assert [e][1..] == [];
  }

  lemma RemovedIsMiss(c: Cache, query: string, later: nat)
    requires Valid(c) && Find(c, CacheKey(query)).Some?
    ensures !Fresh(Step(c, Prune(Find(c, CacheKey(query)).value, false)), query, later)
  {
  }

  /** When a hit is safe: with clocks that do not run back and no clear that takes it, a hit is one until `until`
      whatever else is looked up, recorded, purged or removed, if and only if no lookup is in flight that found
      its row expired. */
  lemma HitIsSafeIff(s: Shared, query: string, until: nat)
    requires Valid(s.c) && Fresh(s.c, query, until)
    requires s.c.rows[Find(s.c, CacheKey(query)).value].createdAt <= until
    ensures var id := Find(s.c, CacheKey(query)).value;
            id !in s.flying
            <==> forall es :: IsHistory(s, es) && Tame(es, id, s.c.rows[id].createdAt, until) ==>
                   Fresh(RunShared(s, es).c, query, until)
  {
    var id := Find(s.c, CacheKey(query)).value;
    var since := s.c.rows[id].createdAt;
    if id !in s.flying {
      forall es | IsHistory(s, es) && Tame(es, id, since, until) ensures Fresh(RunShared(s, es).c, query, until) {
        StaysFresh(s, es, id, query, since, until);
      }
    } else {
      var e := Prune(id, false);
      OneStep(s, e);
      RemovedIsMiss(s.c, query, until);
      assert Tame([e], id, since, until);
      assert !Fresh(RunShared(s, [e]).c, query, until);
    }
  }

  /** Recording a query whose row has expired refreshes this row. */
  lemma RecordingRefreshes(c: Cache, id: nat, query: string, now: nat, failing: set<nat>)
    requires Valid(c) && Words(query) != [] && |CacheKey(query)| <= 512 && id in c.rows && c.rows[id].query == CacheKey(query)
    ensures var c' := Step(c, Record(query, now, failing));
            Valid(c') && Find(c', CacheKey(query)) == Some(id) && c'.rows[id] == Miss(CacheKey(query), now)
  {
    FindIs(c, id);
    BlankKeyIff(query);
    StepKeepsValid(c, Record(query, now, failing));
    FindIs(Step(c, Record(query, now, failing)), id);
  }

  lemma LookFindsExpired(s: Shared, id: nat, query: string, now: nat)
    requires Valid(s.c) && id in s.c.rows && s.c.rows[id].query == CacheKey(query) && now > s.c.rows[id].createdAt + 3_600_000
    ensures SharedStep(s, Look(query, now)) == Shared(s.c, s.flying + multiset{id})
  {
    FindIs(s.c, id);
  }

  /** Such a lookup is easily had: one finds the row expired, a recording refreshes the row and makes the query
      a hit, and the lookup's removal then loses the miss just recorded, for good until it is recorded again. */
  lemma RacingPruneLosesFreshMiss(s: Shared, id: nat, query: string, now: nat, failing: set<nat>, later: nat)
    requires Valid(s.c) && Words(query) != [] && |CacheKey(query)| <= 512
    requires id in s.c.rows && s.c.rows[id].query == CacheKey(query) && now > s.c.rows[id].createdAt + 3_600_000
    ensures var s1 := SharedStep(s, Look(query, now));
            var s2 := SharedStep(s1, Record(query, now, failing));
            && Fresh(s2.c, query, now) && Enabled(s2, Prune(id, false))
            && !Fresh(SharedStep(s2, Prune(id, false)).c, query, later)
  {
    LookFindsExpired(s, id, query, now);
    RecordingRefreshes(s.c, id, query, now, failing);
    RemovedIsMiss(Step(s.c, Record(query, now, failing)), query, later);
  }
}
