/**
 The ledger under any interleaving of recalls, corrections, self-tests and forgets with one settler.

 The settler works through a page: it lists dirty ids, reads those rows one by one, and then for each
 row writes the recall count onto the graph, which may fail, and marks the row flushed. Anything may
 happen between two of its steps, the reply to a write may be lost, and a pass may be aborted at any point.
 */
module LedgerRuns {
  import opened Prelude
  import opened EntityIds
  import opened Ledger

  /** A row as the settler read it. */
  datatype Scanned = Scanned(id: nat, entity: string, count: nat)

  /** `ids` are listed but not read yet, `batch` is read but not settled yet; `written` says that the
      graph write of the batch's first row succeeded. `bound` is `nextId` when the page was listed. */
  datatype World = World(
    ledger: Ledger,
    graph: map<string, nat>,
    bound: nat,
    ids: seq<nat>,
    batch: seq<Scanned>,
    written: bool)

  const START := World(EMPTY, map[], 1, [], [], false)

  datatype Event =
    | Touched(touch: Touch, entity: string, now: nat)
    | Corrected(entity: string, now: nat)
    | Forgotten(entity: string)
    | ListPage(afterId: nat, limit: nat)
    | ReadRow
    | WriteGraph
    | WriteFails
    | WriteLosesReply
    | Mark(now: nat)
    | Abort

  predicate Enabled(w: World, e: Event) {
    match e
    case ListPage(_, _) => w.ids == [] && w.batch == []
    case ReadRow => w.ids != []
    case WriteGraph => w.ids == [] && w.batch != [] && IsPropositionId(w.batch[0].entity) && !w.written
    case WriteFails => w.ids == [] && w.batch != [] && IsPropositionId(w.batch[0].entity) && !w.written
    case WriteLosesReply => w.ids == [] && w.batch != [] && IsPropositionId(w.batch[0].entity) && !w.written
    case Mark(_) => w.ids == [] && w.batch != [] && (w.written || !IsPropositionId(w.batch[0].entity))
    case _ => true
  }

  function Step(w: World, e: Event): World
    requires Enabled(w, e)
  {
    match e
    case Touched(touch, entity, now) => w.(ledger := TouchOne(w.ledger, touch, entity, now))
    case Corrected(entity, now) => w.(ledger := RecordCorrection(w.ledger, entity, now).0)
    case Forgotten(entity) => w.(ledger := Forget(w.ledger, entity).0)
    case ListPage(afterId, limit) => w.(ids := PageIds(w.ledger, afterId, limit), bound := w.ledger.nextId)
    case ReadRow =>
      var id := w.ids[0];
      var row := if Pending(w.ledger, id)
                 then [Scanned(id, w.ledger.rows[id].entity, w.ledger.rows[id].recallCount)] else [];
      w.(ids := w.ids[1..], batch := w.batch + row)
    case WriteGraph => w.(graph := w.graph[w.batch[0].entity := w.batch[0].count], written := true)
    case WriteFails => w.(batch := w.batch[1..])
    case WriteLosesReply => w.(graph := w.graph[w.batch[0].entity := w.batch[0].count], batch := w.batch[1..])
    case Mark(now) =>
      w.(ledger := MarkFlushed(w.ledger, w.batch[0].id, w.batch[0].count, now), batch := w.batch[1..], written := false)
    case Abort => w.(ids := [], batch := [], written := false)
  }

  // ---- What every step keeps ----

  /** Exactly the rows with a delta are dirty. */
  predicate FlagIsRight(row: MemoryUsage) {
    && row.flushedRecallCount <= row.recallCount
    && row.dirty == (if row.recallCount > row.flushedRecallCount then 1 else 0)
  }

  /** One row an entity, and the dirty flag says whether there is a delta. */
  predicate RowsInv(l: Ledger) {
    Valid(l) && forall id :: id in l.rows ==> FlagIsRight(l.rows[id])
  }

  /** What a settled row says is what the graph says. */
  predicate GraphAgrees(w: World) {
    forall id :: id in w.ledger.rows && w.ledger.rows[id].dirty == 0 && w.ledger.rows[id].recallCount > 0
                 && IsPropositionId(w.ledger.rows[id].entity) ==>
      && w.ledger.rows[id].entity in w.graph
      && w.graph[w.ledger.rows[id].entity] == w.ledger.rows[id].recallCount
  }

  /** A row read earlier: while it lives it is still dirty and has not lost recalls, and no other row of
      its page is about the same entity. */
  predicate ScanHolds(l: Ledger, bound: nat, p: Scanned) {
    && p.id < bound
    && (p.id in l.rows ==>
          l.rows[p.id].entity == p.entity && p.count <= l.rows[p.id].recallCount && l.rows[p.id].dirty == 1)
    && (forall id :: id in l.rows && l.rows[id].entity == p.entity ==> id == p.id || id >= bound)
  }

  /** The page is worked through in ascending order, rows read before rows to be read. */
  predicate InOrder(bound: nat, ids: seq<nat>, batch: seq<Scanned>) {
    && (forall i :: 0 <= i < |ids| ==> ids[i] < bound)
    && (forall i, j :: 0 <= i < j < |ids| ==> ids[i] < ids[j])
    && (forall i, j :: 0 <= i < |batch| && 0 <= j < |ids| ==> batch[i].id < ids[j])
    && (forall i, j :: 0 <= i < j < |batch| ==> batch[i].id < batch[j].id)
  }

  predicate PageHolds(w: World) {
    && w.bound <= w.ledger.nextId
    && InOrder(w.bound, w.ids, w.batch)
    && (forall i :: 0 <= i < |w.batch| ==> ScanHolds(w.ledger, w.bound, w.batch[i]))
    && (forall id :: id in w.ledger.rows && id >= w.bound && w.ledger.rows[id].recallCount > 0 ==> w.ledger.rows[id].dirty == 1)
    && (w.written ==> w.batch != [] && w.batch[0].entity in w.graph && w.graph[w.batch[0].entity] == w.batch[0].count)
  }

  predicate Inv(w: World) {
    RowsInv(w.ledger) && PageHolds(w) && GraphAgrees(w)
  }

  /** What touching or correcting an entity does to the rows: counts may rise, which dirties the row, and
      an entity without a row may get one. */
  predicate Grows(l: Ledger, l': Ledger) {
    && l.nextId <= l'.nextId
    && (forall id :: id in l.rows ==>
          && id in l'.rows
          && l'.rows[id].entity == l.rows[id].entity
          && l'.rows[id].flushedRecallCount == l.rows[id].flushedRecallCount
          && l'.rows[id].recallCount >= l.rows[id].recallCount)
    && (forall id :: id in l'.rows && id !in l.rows ==>
          && l.nextId <= id
          && l'.rows[id].flushedRecallCount == 0)
  }

  lemma GrowthKeepsInv(w: World, l': Ledger)
    requires Inv(w) && RowsInv(l') && Grows(w.ledger, l')
    ensures Inv(w.(ledger := l'))
  {
    forall i | 0 <= i < |w.batch| ensures ScanHolds(l', w.bound, w.batch[i]) {
      assert ScanHolds(w.ledger, w.bound, w.batch[i]);
    }
  }

  lemma UpdateGrows(l: Ledger, id: nat, row: MemoryUsage)
    requires RowsInv(l) && id in l.rows && FlagIsRight(row)
    requires row.entity == l.rows[id].entity && row.flushedRecallCount == l.rows[id].flushedRecallCount
    requires row.recallCount >= l.rows[id].recallCount
    ensures var l' := l.(rows := l.rows[id := row]); RowsInv(l') && Grows(l, l')
  {
  }

  lemma AddGrows(l: Ledger, row: MemoryUsage)
    requires RowsInv(l) && Find(l, row.entity).None? && FlagIsRight(row) && row.flushedRecallCount == 0
    ensures RowsInv(Add(l, row)) && Grows(l, Add(l, row))
  {
  }

  lemma TouchGrows(l: Ledger, touch: Touch, entity: string, now: nat)
    requires RowsInv(l)
    ensures var l' := TouchOne(l, touch, entity, now); RowsInv(l') && Grows(l, l')
  {
    var l' := TouchOne(l, touch, entity, now);
    match Find(l, entity)
    case Some(id) => UpdateGrows(l, id, l'.rows[id]);
    case None => AddGrows(l, l'.rows[l.nextId]);
  }

  lemma CorrectionGrows(l: Ledger, entity: string, now: nat)
    requires RowsInv(l)
    ensures var l' := RecordCorrection(l, entity, now).0; RowsInv(l') && Grows(l, l')
  {
    var l' := RecordCorrection(l, entity, now).0;
    match Find(l, entity)
    case Some(id) => if l' != l { UpdateGrows(l, id, l'.rows[id]); }
    case None => AddGrows(l, l'.rows[l.nextId]);
  }

  lemma ForgetKeepsRows(l: Ledger, entity: string)
    requires RowsInv(l)
    ensures RowsInv(Forget(l, entity).0)
  {
  }

  lemma ForgetKeepsInv(w: World, entity: string)
    requires Inv(w)
    ensures Inv(Step(w, Forgotten(entity)))
  {
    var l' := Forget(w.ledger, entity).0;
    ForgetKeepsRows(w.ledger, entity);
    FewerRowsKeepPage(w, l');
  }

  /** Rows may go at any time. */
  lemma FewerRowsKeepPage(w: World, l': Ledger)
    requires Inv(w) && RowsInv(l') && l'.nextId == w.ledger.nextId
    requires forall id :: id in l'.rows ==> id in w.ledger.rows && l'.rows[id] == w.ledger.rows[id]
    ensures Inv(w.(ledger := l'))
  {
    forall i | 0 <= i < |w.batch| ensures ScanHolds(l', w.bound, w.batch[i]) {
      assert ScanHolds(w.ledger, w.bound, w.batch[i]);
    }
  }

  lemma ListKeepsInv(w: World, afterId: nat, limit: nat)
    requires Inv(w) && Enabled(w, ListPage(afterId, limit))
    ensures Inv(Step(w, ListPage(afterId, limit)))
  {
    var ids := DirtyFrom(w.ledger, afterId + 1);
    assert forall i :: 0 <= i < |ids| ==> ids[i] in ids;
  }

  lemma ReadKeepsOrder(bound: nat, ids: seq<nat>, batch: seq<Scanned>, p: Scanned)
    requires InOrder(bound, ids, batch) && ids != [] && p.id == ids[0]
    ensures InOrder(bound, ids[1..], batch) && InOrder(bound, ids[1..], batch + [p])
  {
  }

  lemma ReadRowHolds(w: World)
    requires Inv(w) && w.ids != [] && Pending(w.ledger, w.ids[0])
    ensures var row := w.ledger.rows[w.ids[0]];
            ScanHolds(w.ledger, w.bound, Scanned(w.ids[0], row.entity, row.recallCount))
  {
  }

  lemma ReadKeepsInv(w: World)
    requires Inv(w) && Enabled(w, ReadRow)
    ensures Inv(Step(w, ReadRow))
  {
    var id := w.ids[0];
    if Pending(w.ledger, id) {
      var p := Scanned(id, w.ledger.rows[id].entity, w.ledger.rows[id].recallCount);
      ReadRowHolds(w);
      ReadKeepsOrder(w.bound, w.ids, w.batch, p);
      assert Step(w, ReadRow).batch == w.batch + [p];
    } else {
      ReadKeepsOrder(w.bound, w.ids, w.batch, Scanned(id, "", 0));
      assert Step(w, ReadRow).batch == w.batch;
    }
  }

  lemma WriteKeepsInv(w: World)
    requires Inv(w) && Enabled(w, WriteGraph)
    ensures Inv(Step(w, WriteGraph))
  {
    assert ScanHolds(w.ledger, w.bound, w.batch[0]);
  }

  /** A row of the batch may be left as it is, written or not. */
  lemma SkipKeepsInv(w: World)
    requires Inv(w) && w.batch != []
    ensures Inv(w.(batch := w.batch[1..], written := false))
  {
  }

  lemma MarkKeepsRows(l: Ledger, id: nat, count: nat, now: nat)
    requires RowsInv(l) && (id in l.rows ==> count <= l.rows[id].recallCount)
    ensures RowsInv(MarkFlushed(l, id, count, now))
  {
  }

  /** Marking a row concerns no other row of the page. */
  lemma MarkKeepsScan(l: Ledger, id: nat, count: nat, now: nat, bound: nat, p: Scanned)
    requires ScanHolds(l, bound, p) && p.id != id
    ensures ScanHolds(MarkFlushed(l, id, count, now), bound, p)
  {
  }

  lemma MarkKeepsPage(w: World, now: nat)
    requires Inv(w) && Enabled(w, Mark(now))
    ensures PageHolds(Step(w, Mark(now)))
  {
    var p, l' := w.batch[0], Step(w, Mark(now)).ledger;
    assert ScanHolds(w.ledger, w.bound, p);
    forall i | 0 <= i < |w.batch| - 1 ensures ScanHolds(l', w.bound, w.batch[1..][i]) {
      assert ScanHolds(w.ledger, w.bound, w.batch[i + 1]);
      MarkKeepsScan(w.ledger, p.id, p.count, now, w.bound, w.batch[i + 1]);
    }
  }

  lemma MarkKeepsGraph(w: World, now: nat)
    requires Inv(w) && Enabled(w, Mark(now))
    ensures GraphAgrees(Step(w, Mark(now)))
  {
    assert ScanHolds(w.ledger, w.bound, w.batch[0]);
  }

  lemma MarkKeepsInv(w: World, now: nat)
    requires Inv(w) && Enabled(w, Mark(now))
    ensures Inv(Step(w, Mark(now)))
  {
    var p := w.batch[0];
    assert ScanHolds(w.ledger, w.bound, p);
    MarkKeepsRows(w.ledger, p.id, p.count, now);
    MarkKeepsPage(w, now);
    MarkKeepsGraph(w, now);
  }

  lemma StepKeepsInv(w: World, e: Event)
    requires Inv(w) && Enabled(w, e)
    ensures Inv(Step(w, e))
  {
    match e
    case Touched(touch, entity, now) =>
      TouchGrows(w.ledger, touch, entity, now);
      GrowthKeepsInv(w, TouchOne(w.ledger, touch, entity, now));
    case Corrected(entity, now) =>
      CorrectionGrows(w.ledger, entity, now);
      GrowthKeepsInv(w, RecordCorrection(w.ledger, entity, now).0);
    case Forgotten(entity) => ForgetKeepsInv(w, entity);
    case ListPage(afterId, limit) => ListKeepsInv(w, afterId, limit);
    case ReadRow => ReadKeepsInv(w);
    case WriteGraph => WriteKeepsInv(w);
    case WriteFails =>
    case WriteLosesReply =>
      WriteKeepsInv(w);
      SkipKeepsInv(Step(w, WriteGraph));
    case Mark(now) => MarkKeepsInv(w, now);
    case Abort =>
  }

  // ---- Whole histories ----

  predicate IsHistory(h: seq<Event>)
    decreases |h|, 0
  {
    h != [] ==> var n := |h| - 1; IsHistory(h[..n]) && Enabled(After(h[..n]), h[n])
  }

  function After(h: seq<Event>): World
    requires IsHistory(h)
    decreases |h|, 1
  {
    if h == [] then START else var n := |h| - 1; Step(After(h[..n]), h[n])
  }

  lemma {:induction false} HistoryKeepsInv(h: seq<Event>)
    requires IsHistory(h)
    ensures Inv(After(h))
  {
    if h != [] {
      var n := |h| - 1;
      HistoryKeepsInv(h[..n]);
      StepKeepsInv(After(h[..n]), h[n]);
    }
  }

  /** Recalls, self-tests and corrections of an entity recorded since it was last forgotten. */
  function TouchesSince(h: seq<Event>, touch: Touch, entity: string): nat {
    if h == [] then 0 else
    var n := |h| - 1;
    match h[n]
    case Forgotten(e) => if e == entity then 0 else TouchesSince(h[..n], touch, entity)
    case Touched(t, e, _) => TouchesSince(h[..n], touch, entity) + (if t == touch && e == entity then 1 else 0)
    case _ => TouchesSince(h[..n], touch, entity)
  }

  predicate CorrectedSince(h: seq<Event>, entity: string) {
    h != [] &&
    var n := |h| - 1;
    match h[n]
    case Forgotten(e) => e != entity && CorrectedSince(h[..n], entity)
    case Corrected(e, _) => e == entity || CorrectedSince(h[..n], entity)
    case _ => CorrectedSince(h[..n], entity)
  }

  /** The row of an entity. */
  function RowOf(l: Ledger, entity: string): Option<MemoryUsage> {
    match Find(l, entity)
    case Some(id) => Some(l.rows[id])
    case None => None
  }

  lemma RowOfId(l: Ledger, id: nat)
    requires Valid(l) && id in l.rows
    ensures Find(l, l.rows[id].entity) == Some(id)
  {
  }

  /** What a row counts, three zeros when there is none. */
  function Tally(row: Option<MemoryUsage>): (nat, nat, nat) {
    if row.None? then (0, 0, 0) else (row.value.recallCount, row.value.selfTestCount, row.value.correctionCount)
  }

  /** Only the row of one entity differs: the tallies of the others are as they were. */
  lemma OtherTally(l: Ledger, l': Ledger, x: string, entity: string)
    requires RowsInv(l) && RowsInv(l') && Grows(l, l') && x != entity
    requires forall id :: id in l.rows && l.rows[id].entity != x ==> l'.rows[id] == l.rows[id]
    requires forall id :: id in l'.rows && id !in l.rows ==> l'.rows[id].entity == x
    ensures RowOf(l', entity) == RowOf(l, entity)
  {
    SameRow(l, l', entity);
  }

  lemma OwnTally(l: Ledger, touch: Touch, x: string, now: nat)
    requires RowsInv(l)
    ensures var before := Tally(RowOf(l, x));
            Tally(RowOf(TouchOne(l, touch, x, now), x)) ==
            if touch.Recalled? then (before.0 + 1, before.1, before.2) else (before.0, before.1 + 1, before.2)
  {
    var l' := TouchOne(l, touch, x, now);
    TouchGrows(l, touch, x, now);
    match Find(l, x)
    case Some(id) => RowOfId(l', id);
    case None => RowOfId(l', l.nextId);
  }

  lemma TouchTally(l: Ledger, touch: Touch, x: string, now: nat, entity: string)
    requires RowsInv(l)
    ensures var before := Tally(RowOf(l, entity));
            Tally(RowOf(TouchOne(l, touch, x, now), entity)) ==
            if x != entity then before
            else if touch.Recalled? then (before.0 + 1, before.1, before.2) else (before.0, before.1 + 1, before.2)
  {
    if x == entity {
      OwnTally(l, touch, x, now);
    } else {
      TouchGrows(l, touch, x, now);
      OtherTally(l, TouchOne(l, touch, x, now), x, entity);
    }
  }

  lemma CorrectionTally(l: Ledger, x: string, now: nat, entity: string)
    requires RowsInv(l)
    ensures var before := Tally(RowOf(l, entity));
            Tally(RowOf(RecordCorrection(l, x, now).0, entity)) ==
            if x != entity || before.2 > 0 then before else (before.0, before.1, 1)
  {
    var l' := RecordCorrection(l, x, now).0;
    CorrectionGrows(l, x, now);
    if x != entity {
      OtherTally(l, l', x, entity);
    } else {
      match Find(l, x)
      case Some(id) => RowOfId(l', id);
      case None => RowOfId(l', l.nextId);
    }
  }

  /** An entity's row keeps its id while the rows grow; a new one gets the next id. */
  lemma SameRow(l: Ledger, l': Ledger, entity: string)
    requires RowsInv(l) && RowsInv(l') && Grows(l, l')
    ensures match Find(l, entity)
            case Some(id) => Find(l', entity) == Some(id)
            case None => Find(l', entity).Some? ==> Find(l', entity).value >= l.nextId
  {
    match Find(l, entity)
    case Some(id) => RowOfId(l', id);
    case None =>
  }

  lemma ForgetTally(l: Ledger, x: string, entity: string)
    requires RowsInv(l)
    ensures Tally(RowOf(Forget(l, x).0, entity)) == if x == entity then (0, 0, 0) else Tally(RowOf(l, entity))
  {
    var l' := Forget(l, x).0;
    match Find(l', entity)
    case Some(id) => RowOfId(l, id);
    case None =>
      match Find(l, entity)
      case Some(id) => assert id !in l'.rows;
      case None =>
  }

  lemma MarkTally(l: Ledger, id: nat, count: nat, now: nat, entity: string)
    requires RowsInv(l)
    ensures Tally(RowOf(MarkFlushed(l, id, count, now), entity)) == Tally(RowOf(l, entity))
  {
    var l' := MarkFlushed(l, id, count, now);
    match Find(l', entity)
    case Some(id') => RowOfId(l, id');
    case None =>
      if Find(l, entity).Some? {
        assert Find(l, entity).value in l'.rows;
      }
  }

  /** What an event adds to the tally of an entity: only what it records about that entity. */
  function TallyAfter(before: (nat, nat, nat), e: Event, entity: string): (nat, nat, nat) {
    match e
    case Touched(touch, x, _) =>
      if x != entity then before
      else if touch.Recalled? then (before.0 + 1, before.1, before.2) else (before.0, before.1 + 1, before.2)
    case Corrected(x, _) => if x != entity || before.2 > 0 then before else (before.0, before.1, 1)
    case Forgotten(x) => if x == entity then (0, 0, 0) else before
    case _ => before
  }

  lemma StepTally(w: World, e: Event, entity: string)
    requires Inv(w) && Enabled(w, e)
    ensures Tally(RowOf(Step(w, e).ledger, entity)) == TallyAfter(Tally(RowOf(w.ledger, entity)), e, entity)
  {
    match e
    case Touched(touch, x, now) => TouchTally(w.ledger, touch, x, now, entity);
    case Corrected(x, now) => CorrectionTally(w.ledger, x, now, entity);
    case Forgotten(x) => ForgetTally(w.ledger, x, entity);
    case Mark(now) => MarkTally(w.ledger, w.batch[0].id, w.batch[0].count, now, entity);
    case _ =>
  }

  /** What a history recorded about an entity since it was last forgotten. */
  function RecordedSince(h: seq<Event>, entity: string): (nat, nat, nat) {
    (TouchesSince(h, Recalled, entity), TouchesSince(h, SelfTested, entity), if CorrectedSince(h, entity) then 1 else 0)
  }

  lemma RecordedNext(h: seq<Event>, entity: string)
    requires h != []
    ensures RecordedSince(h, entity) == TallyAfter(RecordedSince(h[..|h| - 1], entity), h[|h| - 1], entity)
  {
  }

  /** In every history each entity has at most one row, and its counters are exactly what was recorded
      since the entity was last forgotten; an entity without a row has nothing recorded. */
  lemma {:induction false} CountersAreExact(h: seq<Event>, entity: string)
    requires IsHistory(h)
    ensures Tally(RowOf(After(h).ledger, entity)) == RecordedSince(h, entity)
  {
    if h != [] {
      var n := |h| - 1;
      HistoryKeepsInv(h[..n]);
      CountersAreExact(h[..n], entity);
      StepTally(After(h[..n]), h[n], entity);
      RecordedNext(h, entity);
    }
  }

  /** `record_correction` reports a first correction exactly when there was none since the entity was
      last forgotten. */
  lemma FirstCorrectionOnce(h: seq<Event>, entity: string, now: nat)
    requires IsHistory(h)
    ensures RecordCorrection(After(h).ledger, entity, now).1 <==> !CorrectedSince(h, entity)
  {
    CountersAreExact(h, entity);
  }

  /** No delta is ever lost: in every history, an entity that was recalled since it was last forgotten
      has a row with that many recalls; the row is dirty exactly when fewer of them were flushed; and
      once a proposition's row is clean, the graph shows every one of them. */
  lemma NoDeltaIsLost(h: seq<Event>, entity: string)
    requires IsHistory(h) && TouchesSince(h, Recalled, entity) > 0
    ensures var w := After(h);
            && RowOf(w.ledger, entity).Some?
            && var row := RowOf(w.ledger, entity).value;
            && row.recallCount == TouchesSince(h, Recalled, entity)
            && (row.dirty == 1 <==> row.recallCount > row.flushedRecallCount)
            && (row.dirty == 0 && IsPropositionId(entity) ==>
                  entity in w.graph && w.graph[entity] == TouchesSince(h, Recalled, entity))
  {
    CountersAreExact(h, entity);
    HistoryKeepsInv(h);
    assert Find(After(h).ledger, entity).value in After(h).ledger.rows;
  }

  // ---- What the graph shows ----

  /** The count of the newest write for the entity that reached the graph, its reply lost or not. */
  function NewestWrite(h: seq<Event>, entity: string): Option<nat>
    requires IsHistory(h)
    decreases |h|
  {
    if h == [] then None else
    var n := |h| - 1;
    var w := After(h[..n]);
    if (h[n].WriteGraph? || h[n].WriteLosesReply?) && w.batch[0].entity == entity then Some(w.batch[0].count)
    else NewestWrite(h[..n], entity)
  }

  lemma GraphStep(w: World, e: Event, entity: string)
    requires Enabled(w, e)
    ensures var after := Step(w, e).graph;
            if (e.WriteGraph? || e.WriteLosesReply?) && w.batch[0].entity == entity
            then entity in after && after[entity] == w.batch[0].count
            else (entity in after <==> entity in w.graph) && (entity in after ==> after[entity] == w.graph[entity])
  {
  }

  ghost predicate ShowsNewest(h: seq<Event>, entity: string)
    requires IsHistory(h)
  {
    NewestWrite(h, entity) == if entity in After(h).graph then Some(After(h).graph[entity]) else None
  }

  lemma ShowsNewestNext(h: seq<Event>, entity: string)
    requires h != [] && IsHistory(h) && ShowsNewest(h[..|h| - 1], entity)
    ensures ShowsNewest(h, entity)
  {
    GraphStep(After(h[..|h| - 1]), h[|h| - 1], entity);
  }

  lemma {:induction false} AlwaysShowsNewest(h: seq<Event>, entity: string)
    requires IsHistory(h)
    ensures ShowsNewest(h, entity)
  {
    if h != [] {
      AlwaysShowsNewest(h[..|h| - 1], entity);
      ShowsNewestNext(h, entity);
    }
  }

  /** In every history the graph shows exactly the newest write that reached it: a write that fails changes nothing, and
      neither does forgetting the entity's row. */
  lemma GraphIsNewestWrite(h: seq<Event>, entity: string)
    requires IsHistory(h)
    ensures NewestWrite(h, entity) == if entity in After(h).graph then Some(After(h).graph[entity]) else None
  {
    AlwaysShowsNewest(h, entity);
  }
}
