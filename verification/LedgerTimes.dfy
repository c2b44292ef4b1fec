/** The times a row carries, over any interleaving of events. */
module LedgerTimes {
  import opened Prelude
  import opened Ledger
  import opened LedgerRuns

  /** When an entity was last recalled and first corrected, zero for never, and when its row was last changed. */
  datatype Times = Times(recalled: nat, corrected: nat, updated: nat)

  const NEVER := Times(0, 0, 0)

  function TimesOf(row: Option<MemoryUsage>): Times {
    match row
    case None => NEVER
    case Some(r) => Times(r.lastRecalledAt, r.lastCorrectedAt, r.updatedAt)
  }

  /** The settler marks the row of this entity. */
  predicate MarksRow(w: World, entity: string) {
    w.batch != [] && Find(w.ledger, entity) == Some(w.batch[0].id)
  }

  /** What an event does to the times of an entity: a recall sets its time, the first correction sets its own, and each of
      these, a self-test and the settler's mark set the time of the last change. */
  function TimesAfter(w: World, e: Event, entity: string): Times {
    var row := RowOf(w.ledger, entity);
    var before := TimesOf(row);
    match e
    case Touched(Recalled, x, now) => if x == entity then Times(now, before.corrected, now) else before
    case Touched(SelfTested, x, now) => if x == entity then before.(updated := now) else before
    case Corrected(x, now) =>
      if x == entity && (row.None? || row.value.correctionCount == 0) then Times(before.recalled, now, now) else before
    case Forgotten(x) => if x == entity then NEVER else before
    case Mark(now) => if MarksRow(w, entity) then before.(updated := now) else before
    case _ => before
  }

  lemma OwnTouchTimes(l: Ledger, touch: Touch, x: string, now: nat)
    requires RowsInv(l)
    ensures var before := TimesOf(RowOf(l, x));
            TimesOf(RowOf(TouchOne(l, touch, x, now), x))
            == if touch.Recalled? then Times(now, before.corrected, now) else Times(before.recalled, before.corrected, now)
  {
    var l' := TouchOne(l, touch, x, now);
    TouchGrows(l, touch, x, now);
    match Find(l, x)
    case Some(id) => RowOfId(l', id);
    case None => RowOfId(l', l.nextId);
  }

  lemma OwnCorrectionTimes(l: Ledger, x: string, now: nat)
    requires RowsInv(l)
    ensures var row := RowOf(l, x);
            TimesOf(RowOf(RecordCorrection(l, x, now).0, x))
            == if row.None? || row.value.correctionCount == 0 then Times(TimesOf(row).recalled, now, now) else TimesOf(row)
  {
    var l' := RecordCorrection(l, x, now).0;
    CorrectionGrows(l, x, now);
    match Find(l, x)
    case Some(id) => RowOfId(l', id);
    case None => RowOfId(l', l.nextId);
  }

  lemma ForgetTimes(l: Ledger, x: string, entity: string)
    requires RowsInv(l)
    ensures TimesOf(RowOf(Forget(l, x).0, entity)) == if x == entity then NEVER else TimesOf(RowOf(l, entity))
  {
    var l' := Forget(l, x).0;
    ForgetKeepsRows(l, x);
    match Find(l', entity)
    case Some(id) => RowOfId(l, id);
    case None =>
      match Find(l, entity)
      case Some(id) => assert id !in l'.rows;
      case None =>
  }

  lemma MarkTimes(l: Ledger, id: nat, count: nat, now: nat, entity: string)
    requires RowsInv(l)
    ensures var before := TimesOf(RowOf(l, entity));
            TimesOf(RowOf(MarkFlushed(l, id, count, now), entity))
            == if Find(l, entity) == Some(id) then before.(updated := now) else before
  {
    var l' := MarkFlushed(l, id, count, now);
    match Find(l', entity)
    case Some(id') => RowOfId(l, id');
    case None =>
      if Find(l, entity).Some? { assert Find(l, entity).value in l'.rows; }
  }

  lemma TouchTimes(l: Ledger, touch: Touch, x: string, now: nat, entity: string)
    requires RowsInv(l)
    ensures var before := TimesOf(RowOf(l, entity));
            TimesOf(RowOf(TouchOne(l, touch, x, now), entity))
            == if x != entity then before
               else if touch.Recalled? then Times(now, before.corrected, now) else before.(updated := now)
  {
    if x == entity {
      OwnTouchTimes(l, touch, x, now);
    } else {
      TouchGrows(l, touch, x, now);
      OtherTally(l, TouchOne(l, touch, x, now), x, entity);
    }
  }

  lemma CorrectionTimes(l: Ledger, x: string, now: nat, entity: string)
    requires RowsInv(l)
    ensures var row := RowOf(l, entity);
            TimesOf(RowOf(RecordCorrection(l, x, now).0, entity))
            == if x == entity && (row.None? || row.value.correctionCount == 0) then Times(TimesOf(row).recalled, now, now) else TimesOf(row)
  {
    if x == entity {
      OwnCorrectionTimes(l, x, now);
    } else {
      CorrectionGrows(l, x, now);
      OtherTally(l, RecordCorrection(l, x, now).0, x, entity);
    }
  }

  /** One step changes the times of exactly the entity it is about. */
  lemma StepTimes(w: World, e: Event, entity: string)
    requires Inv(w) && Enabled(w, e)
    ensures TimesOf(RowOf(Step(w, e).ledger, entity)) == TimesAfter(w, e, entity)
  {
    match e
    case Touched(touch, x, now) => TouchTimes(w.ledger, touch, x, now, entity);
    case Corrected(x, now) => CorrectionTimes(w.ledger, x, now, entity);
    case Forgotten(x) => ForgetTimes(w.ledger, x, entity);
    case Mark(now) => MarkTimes(w.ledger, w.batch[0].id, w.batch[0].count, now, entity);
    case _ =>
  }

  /** Forgetting reports a removal exactly when the entity had a row, and leaves none. */
  lemma ForgetIff(l: Ledger, entity: string)
    requires RowsInv(l)
    ensures Forget(l, entity).1 <==> RowOf(l, entity).Some?
    ensures RowOf(Forget(l, entity).0, entity) == None
  {
    ForgetTimes(l, entity, entity);
    match Find(Forget(l, entity).0, entity)
    case Some(id) => RowOfId(l, id);
    case None =>
  }

  // ---- Whole histories ----

  /** When the entity was last recalled since it was forgotten. */
  function LastRecall(h: seq<Event>, entity: string): nat {
    if h == [] then 0 else
    var n := |h| - 1;
    match h[n]
    case Touched(Recalled, e, now) => if e == entity then now else LastRecall(h[..n], entity)
    case Forgotten(e) => if e == entity then 0 else LastRecall(h[..n], entity)
    case _ => LastRecall(h[..n], entity)
  }

  /** When it was first corrected since then. */
  function FirstCorrection(h: seq<Event>, entity: string): nat {
    if h == [] then 0 else
    var n := |h| - 1;
    match h[n]
    case Corrected(e, now) => if e == entity && !CorrectedSince(h[..n], entity) then now else FirstCorrection(h[..n], entity)
    case Forgotten(e) => if e == entity then 0 else FirstCorrection(h[..n], entity)
    case _ => FirstCorrection(h[..n], entity)
  }

  /** In every history a row says when its entity was last recalled and first corrected since it was last forgotten. */
  lemma {:induction false} TimesAreExact(h: seq<Event>, entity: string)
    requires IsHistory(h)
    ensures TimesOf(RowOf(After(h).ledger, entity)).recalled == LastRecall(h, entity)
    ensures TimesOf(RowOf(After(h).ledger, entity)).corrected == FirstCorrection(h, entity)
  {
    if h != [] {
      var n := |h| - 1;
      HistoryKeepsInv(h[..n]);
      CountersAreExact(h[..n], entity);
      TimesAreExact(h[..n], entity);
      StepTimes(After(h[..n]), h[n], entity);
    }
  }
}
