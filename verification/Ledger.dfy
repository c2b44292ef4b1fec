/**
 The memory usage ledger: which memories were recalled, which were corrected, and how much of the
 recall count is already settled onto the graph.

 The collection is a map from ids to rows. Ids start at 1, rise, and are never reused; scans go in
 ascending id order. Every operation below runs under the ledger's write lock and is one step.
 */
module Ledger {
  import opened Prelude
  import opened Table

  datatype MemoryUsage = MemoryUsage(
    entity: string,
    recallCount: nat,
    selfTestCount: nat,
    lastRecalledAt: nat,
    correctionCount: nat,
    lastCorrectedAt: nat,
    flushedRecallCount: nat,
    dirty: nat,
    updatedAt: nat)

  datatype Ledger = Ledger(rows: map<nat, MemoryUsage>, nextId: nat)

  const EMPTY := Ledger(map[], 1)

  /** A row for `entity` with every counter at its default. */
  function Blank(entity: string, now: nat): MemoryUsage {
    MemoryUsage(entity, 0, 0, 0, 0, 0, 0, 0, now)
  }

  predicate Valid(l: Ledger) {
    && 1 <= l.nextId
    && (forall id :: id in l.rows ==> 1 <= id < l.nextId)
    && (forall i, j :: i in l.rows && j in l.rows && l.rows[i].entity == l.rows[j].entity ==> i == j)
  }

  function Entities(l: Ledger): map<nat, string> {
    map id | id in l.rows :: l.rows[id].entity
  }

  function Find(l: Ledger, entity: string): (r: Option<nat>)
    ensures r.Some? ==> r.value in l.rows && l.rows[r.value].entity == entity
    ensures r.None? ==> forall id :: id in l.rows && id < l.nextId ==> l.rows[id].entity != entity
  {
    assert forall id :: id in l.rows ==> id in Entities(l) && Entities(l)[id] == l.rows[id].entity;
    FindFrom(Entities(l), entity, 0, l.nextId)
  }

  function Add(l: Ledger, row: MemoryUsage): Ledger {
    Ledger(l.rows[l.nextId := row], l.nextId + 1)
  }

  function RecordRecall(l: Ledger, entity: string, now: nat): Ledger {
    match Find(l, entity)
    case Some(id) =>
      var row := l.rows[id];
      l.(rows := l.rows[id := row.(recallCount := row.recallCount + 1, lastRecalledAt := now, dirty := 1, updatedAt := now)])
    case None =>
      Add(l, Blank(entity, now).(recallCount := 1, lastRecalledAt := now, dirty := 1))
  }

  function RecordCorrection(l: Ledger, entity: string, now: nat): (Ledger, bool) {
    match Find(l, entity)
    case Some(id) =>
      var row := l.rows[id];
      if row.correctionCount > 0 then (l, false)
      else (l.(rows := l.rows[id := row.(correctionCount := 1, lastCorrectedAt := now, updatedAt := now)]), true)
    case None =>
      (Add(l, Blank(entity, now).(correctionCount := 1, lastCorrectedAt := now)), true)
  }

  function RecordSelfTest(l: Ledger, entity: string, now: nat): Ledger {
    match Find(l, entity)
    case Some(id) =>
      var row := l.rows[id];
      l.(rows := l.rows[id := row.(selfTestCount := row.selfTestCount + 1, updatedAt := now)])
    case None =>
      Add(l, Blank(entity, now).(selfTestCount := 1))
  }

  function Forget(l: Ledger, entity: string): (Ledger, bool) {
    match Find(l, entity)
    case Some(id) => (l.(rows := l.rows - {id}), true)
    case None => (l, false)
  }

  function MarkFlushed(l: Ledger, id: nat, recallCount: nat, now: nat): Ledger {
    if id !in l.rows then l else
    var row := l.rows[id];
    l.(rows := l.rows[id := row.(flushedRecallCount := recallCount,
                                 dirty := if row.recallCount > recallCount then 1 else 0,
                                 updatedAt := now)])
  }

  /** The two operations that touch a whole set of entities, one row each. */
  datatype Touch = Recalled | SelfTested

  function TouchOne(l: Ledger, touch: Touch, entity: string, now: nat): Ledger {
    if touch.Recalled? then RecordRecall(l, entity, now) else RecordSelfTest(l, entity, now)
  }

  function TouchAll(l: Ledger, touch: Touch, entities: seq<string>, now: nat): Ledger
    decreases |entities|
  {
    if entities == [] then l else TouchAll(TouchOne(l, touch, entities[0], now), touch, entities[1..], now)
  }

  lemma {:induction false} TouchAllAppends(l: Ledger, touch: Touch, entities: seq<string>, entity: string, now: nat)
    ensures TouchAll(l, touch, entities + [entity], now) == TouchOne(TouchAll(l, touch, entities, now), touch, entity, now)
    decreases |entities|
  {
    if entities == [] {
      assert TouchAll(TouchOne(l, touch, entity, now), touch, [entity][1..], now) == TouchOne(l, touch, entity, now);
    } else {
      assert (entities + [entity])[1..] == entities[1..] + [entity];
      TouchAllAppends(TouchOne(l, touch, entities[0], now), touch, entities[1..], entity, now);
    }
  }

  // ---- Scans ----

  /** Ids of the dirty rows in `[from, nextId)`, ascending. */
  function DirtyFrom(l: Ledger, from: nat): (ids: seq<nat>)
    ensures forall id :: id in ids <==> id in l.rows && l.rows[id].dirty == 1 && from <= id < l.nextId
    ensures forall i, j :: 0 <= i < j < |ids| ==> ids[i] < ids[j]
    decreases if from < l.nextId then l.nextId - from else 0
  {
    if from >= l.nextId then []
    else if from in l.rows && l.rows[from].dirty == 1 then
      var rest := DirtyFrom(l, from + 1);
      assert forall j :: 0 <= j < |rest| ==> rest[j] in rest;
      [from] + rest
    else DirtyFrom(l, from + 1)
  }

  /** The ids one page visits, and the cursor when dirty rows remain past it. */
  function PageIds(l: Ledger, afterId: nat, limit: nat): seq<nat> {
    var ids := DirtyFrom(l, afterId + 1);
    if |ids| > limit then ids[..limit] else ids
  }

  function NextCursor(l: Ledger, afterId: nat, limit: nat): Option<nat> {
    var ids := DirtyFrom(l, afterId + 1);
    if |ids| > limit then Some(ids[if limit == 0 then 0 else limit - 1]) else None
  }

  predicate Pending(l: Ledger, id: nat) {
    id in l.rows && l.rows[id].recallCount > l.rows[id].flushedRecallCount
  }

  /** The rows of a page that carry a delta, in the order of `ids`. */
  function Fetch(l: Ledger, ids: seq<nat>): seq<(nat, MemoryUsage)> {
    if ids == [] then []
    else (if Pending(l, ids[0]) then [(ids[0], l.rows[ids[0]])] else []) + Fetch(l, ids[1..])
  }

  lemma {:induction false} FetchAppends(l: Ledger, a: seq<nat>, id: nat)
    ensures Fetch(l, a + [id]) == Fetch(l, a) + (if Pending(l, id) then [(id, l.rows[id])] else [])
  {
    if a == [] {
      assert [id][1..] == [];
    } else {
      assert (a + [id])[1..] == a[1..] + [id];
      FetchAppends(l, a[1..], id);
    }
  }

  // ---- The ledger as an object ----

  class UsageLedger {
    var rows: map<nat, MemoryUsage>
    var nextId: nat

    function View(): Ledger
      reads this
    {
      Ledger(rows, nextId)
    }

    constructor ()
      ensures View() == EMPTY
    {
      rows, nextId := map[], 1;
    }

    method Get(entity: string) returns (id: Option<nat>)
      ensures id == Find(View(), entity)
    {
      var i := 0;
      while i < nextId
        invariant 0 <= i <= nextId
        invariant Find(View(), entity) == FindFrom(Entities(View()), entity, i, nextId)
      {
        if i in rows && rows[i].entity == entity {
          return Some(i);
        }
        i := i + 1;
      }
      return None;
    }

    /** Records one completed recall. The database may fail at the `fault`-th entity (never, when that is
        past the last); what was written before it stays written. */
    method RecordRecalls(entities: seq<string>, now: nat, fault: nat) returns (touched: Result<nat, ()>)
      modifies this
      ensures View() == TouchAll(old(View()), Recalled, if fault < |entities| then entities[..fault] else entities, now)
      ensures touched == if fault < |entities| then Err(()) else Ok(|entities|)
    {
      var n := 0;
      assert entities[..0] == [];
      while n < |entities|
        invariant 0 <= n <= |entities| && n <= fault
        invariant View() == TouchAll(old(View()), Recalled, entities[..n], now)
      {
        if n == fault {
          return Err(());
        }
        var found := Get(entities[n]);
        match found {
          case Some(id) =>
            var row := rows[id];
            rows := rows[id := row.(recallCount := row.recallCount + 1, lastRecalledAt := now, dirty := 1, updatedAt := now)];
          case None =>
            rows := rows[nextId := Blank(entities[n], now).(recallCount := 1, lastRecalledAt := now, dirty := 1)];
            nextId := nextId + 1;
        }
        assert entities[..n + 1] == entities[..n] + [entities[n]];
        TouchAllAppends(old(View()), Recalled, entities[..n], entities[n], now);
        n := n + 1;
      }
      assert entities[..n] == entities;
      touched := Ok(n);
    }

    /** Records self-test retrievals, with the same faults. */
    method RecordSelfTests(entities: seq<string>, now: nat, fault: nat) returns (done: Result<(), ()>)
      modifies this
      ensures View() == TouchAll(old(View()), SelfTested, if fault < |entities| then entities[..fault] else entities, now)
      ensures done == if fault < |entities| then Err(()) else Ok(())
    {
      var n := 0;
      assert entities[..0] == [];
      while n < |entities|
        invariant 0 <= n <= |entities| && n <= fault
        invariant View() == TouchAll(old(View()), SelfTested, entities[..n], now)
      {
        if n == fault {
          return Err(());
        }
        var found := Get(entities[n]);
        match found {
          case Some(id) =>
            var row := rows[id];
            rows := rows[id := row.(selfTestCount := row.selfTestCount + 1, updatedAt := now)];
          case None =>
            rows := rows[nextId := Blank(entities[n], now).(selfTestCount := 1)];
            nextId := nextId + 1;
        }
        assert entities[..n + 1] == entities[..n] + [entities[n]];
        TouchAllAppends(old(View()), SelfTested, entities[..n], entities[n], now);
        n := n + 1;
      }
      assert entities[..n] == entities;
      done := Ok(());
    }

    method Correct(entity: string, now: nat) returns (first: bool)
      modifies this
      ensures (View(), first) == RecordCorrection(old(View()), entity, now)
    {
      var found := Get(entity);
      match found {
        case Some(id) =>
          var row := rows[id];
          if row.correctionCount > 0 {
            return false;
          }
          rows := rows[id := row.(correctionCount := 1, lastCorrectedAt := now, updatedAt := now)];
          first := true;
        case None =>
          rows := rows[nextId := Blank(entity, now).(correctionCount := 1, lastCorrectedAt := now)];
          nextId := nextId + 1;
          first := true;
      }
    }

    method ForgetEntity(entity: string) returns (removed: bool)
      modifies this
      ensures (View(), removed) == Forget(old(View()), entity)
    {
      var found := Get(entity);
      match found {
        case Some(id) =>
          rows := rows - {id};
          removed := true;
        case None =>
          removed := false;
      }
    }

    method Mark(id: nat, recallCount: nat, now: nat)
      modifies this
      ensures View() == MarkFlushed(old(View()), id, recallCount, now)
    {
      if id !in rows {
        return;
      }
      var current := rows[id].recallCount;
      var dirty := if current > recallCount then 1 else 0;
      rows := rows[id := rows[id].(flushedRecallCount := recallCount, dirty := dirty, updatedAt := now)];
    }

    /** Reads the listed rows and keeps those with a delta. */
    method ReadRows(ids: seq<nat>) returns (page: seq<(nat, MemoryUsage)>)
      ensures page == Fetch(View(), ids)
    {
      page := [];
      var i := 0;
      assert ids[..0] == [];
      while i < |ids|
        invariant 0 <= i <= |ids|
        invariant page == Fetch(View(), ids[..i])
      {
        if ids[i] in rows && rows[ids[i]].recallCount > rows[ids[i]].flushedRecallCount {
          page := page + [(ids[i], rows[ids[i]])];
        }
        assert ids[..i + 1] == ids[..i] + [ids[i]];
        FetchAppends(View(), ids[..i], ids[i]);
        i := i + 1;
      }
      assert ids[..i] == ids;
    }

    method UnflushedRecalls(afterId: nat, limit: nat) returns (page: seq<(nat, MemoryUsage)>, next: Option<nat>)
      ensures page == Fetch(View(), PageIds(View(), afterId, limit))
      ensures next == NextCursor(View(), afterId, limit)
    {
      var ids := DirtyFrom(View(), afterId + 1);
      next := if |ids| > limit then Some(ids[if limit == 0 then 0 else limit - 1]) else None;
      if |ids| > limit {
        ids := ids[..limit];
      }
      page := ReadRows(ids);
    }
  }
}
