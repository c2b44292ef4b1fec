/**
 Self-tests and corrections are not use: erasing them all from a history changes nothing the ledger
 says about recalls. Here the settler is told which entity to read and which to mark, so that a history
 means the same before and after the erasure although rows get other ids.
 */
module LedgerErasure {
  import opened Prelude
  import opened Ledger
  import opened LedgerRuns

  datatype Op =
    | Recall(entity: string, now: nat)
    | SelfTest(entity: string, now: nat)
    | Correct(entity: string, now: nat)
    | Drop(entity: string)
    | Read(entity: string)
    | Settle(entity: string, now: nat)

  /** What the settler holds for an entity: the id and count it read. */
  datatype Book = Book(ledger: Ledger, held: map<string, (nat, nat)>)

  function Apply(b: Book, op: Op): Book {
    match op
    case Recall(e, now) => b.(ledger := RecordRecall(b.ledger, e, now))
    case SelfTest(e, now) => b.(ledger := RecordSelfTest(b.ledger, e, now))
    case Correct(e, now) => b.(ledger := RecordCorrection(b.ledger, e, now).0)
    case Drop(e) => b.(ledger := Forget(b.ledger, e).0)
    case Read(e) =>
      var id := Find(b.ledger, e);
      if id.Some? && Pending(b.ledger, id.value)
      then b.(held := b.held[e := (id.value, b.ledger.rows[id.value].recallCount)])
      else b.(held := b.held - {e})
    case Settle(e, now) =>
      if e in b.held
      then Book(MarkFlushed(b.ledger, b.held[e].0, b.held[e].1, now), b.held - {e})
      else b
  }

  function Play(ops: seq<Op>): Book {
    if ops == [] then Book(EMPTY, map[]) else Apply(Play(ops[..|ops| - 1]), ops[|ops| - 1])
  }

  predicate IsUse(op: Op) {
    !op.SelfTest? && !op.Correct?
  }

  /** The history without its self-tests and corrections. */
  function Erase(ops: seq<Op>): seq<Op> {
    if ops == [] then [] else
    var rest := Erase(ops[..|ops| - 1]);
    if IsUse(ops[|ops| - 1]) then rest + [ops[|ops| - 1]] else rest
  }

  datatype Use = Use(recallCount: nat, lastRecalledAt: nat, flushedRecallCount: nat, dirty: nat)

  /** What a row says about recalls; a row that never saw one says nothing. */
  function UseOf(l: Ledger, entity: string): Option<Use> {
    match RowOf(l, entity)
    case None => None
    case Some(row) =>
      if row.recallCount == 0 then None
      else Some(Use(row.recallCount, row.lastRecalledAt, row.flushedRecallCount, row.dirty))
  }

  predicate HeldInv(b: Book) {
    && RowsInv(b.ledger)
    && forall e :: e in b.held ==>
         && b.held[e].0 < b.ledger.nextId
         && (b.held[e].0 in b.ledger.rows ==>
               var row := b.ledger.rows[b.held[e].0]; row.entity == e && 0 < b.held[e].1 <= row.recallCount)
  }

  lemma GrowthKeepsHeld(b: Book, l': Ledger)
    requires HeldInv(b) && RowsInv(l') && Grows(b.ledger, l')
    ensures HeldInv(b.(ledger := l'))
  {
  }

  lemma SettleKeepsHeld(b: Book, e: string, now: nat)
    requires HeldInv(b) && e in b.held
    ensures HeldInv(Apply(b, Settle(e, now)))
  {
    MarkKeepsRows(b.ledger, b.held[e].0, b.held[e].1, now);
  }

  lemma ApplyKeepsHeld(b: Book, op: Op)
    requires HeldInv(b)
    ensures HeldInv(Apply(b, op))
  {
    match op
    case Recall(e, now) =>
      TouchGrows(b.ledger, Recalled, e, now);
      GrowthKeepsHeld(b, RecordRecall(b.ledger, e, now));
    case SelfTest(e, now) =>
      TouchGrows(b.ledger, SelfTested, e, now);
      GrowthKeepsHeld(b, RecordSelfTest(b.ledger, e, now));
    case Correct(e, now) =>
      CorrectionGrows(b.ledger, e, now);
      GrowthKeepsHeld(b, RecordCorrection(b.ledger, e, now).0);
    case Drop(e) => ForgetKeepsRows(b.ledger, e);
    case Read(e) =>
    case Settle(e, now) => if e in b.held { SettleKeepsHeld(b, e, now); }
  }

  /** What the settler holds for `e` is about a row that still lives. */
  predicate HoldsLive(b: Book, e: string) {
    e in b.held && b.held[e].0 in b.ledger.rows
  }

  /** Two books that say the same about the recalls of `e`, and whose settlers hold the same for it. */
  predicate Alike(a: Book, b: Book, e: string) {
    && UseOf(a.ledger, e) == UseOf(b.ledger, e)
    && (e in a.held <==> e in b.held)
    && (e in a.held ==> a.held[e].1 == b.held[e].1)
    && (HoldsLive(a, e) <==> HoldsLive(b, e))
  }

  /** The use an operation leaves behind depends on nothing but the use before it and what is held. */
  function UseAfter(use: Option<Use>, op: Op, holdsLive: bool, count: nat): Option<Use> {
    match op
    case Recall(_, now) =>
      if use.None? then Some(Use(1, now, 0, 1))
      else Some(Use(use.value.recallCount + 1, now, use.value.flushedRecallCount, 1))
    case Drop(_) => None
    case Settle(_, _) =>
      if holdsLive && use.Some?
      then Some(use.value.(flushedRecallCount := count, dirty := if use.value.recallCount > count then 1 else 0))
      else use
    case _ => use
  }

  /** Nothing but the row at `id` differs, and both rows there are about `x`. */
  ghost predicate DiffersAt(l: Ledger, l': Ledger, id: nat, x: string) {
    && (forall i :: i != id ==> (i in l.rows <==> i in l'.rows) && (i in l.rows ==> l'.rows[i] == l.rows[i]))
    && (id in l.rows ==> l.rows[id].entity == x)
    && (id in l'.rows ==> l'.rows[id].entity == x)
  }

  lemma DiffersElsewhere(l: Ledger, l': Ledger, id: nat, x: string, e: string)
    requires Valid(l) && Valid(l') && DiffersAt(l, l', id, x) && e != x
    ensures RowOf(l', e) == RowOf(l, e)
  {
    match Find(l, e)
    case Some(i) => RowOfId(l', i);
    case None =>
      match Find(l', e)
      case Some(i) => RowOfId(l, i);
      case None =>
  }

  /** Where an operation on `op.entity` takes effect. */
  lemma TouchesOneRow(b: Book, op: Op) returns (id: nat)
    requires HeldInv(b)
    ensures DiffersAt(b.ledger, Apply(b, op).ledger, id, op.entity)
  {
    if op.Settle? {
      id := if op.entity in b.held then b.held[op.entity].0 else b.ledger.nextId;
    } else {
      id := if Find(b.ledger, op.entity).Some? then Find(b.ledger, op.entity).value else b.ledger.nextId;
    }
  }

  /** An operation leaves the row of every other entity alone. */
  lemma OthersUntouched(b: Book, op: Op, e: string)
    requires HeldInv(b) && op.entity != e
    ensures RowOf(Apply(b, op).ledger, e) == RowOf(b.ledger, e)
  {
    ApplyKeepsHeld(b, op);
    var id := TouchesOneRow(b, op);
    DiffersElsewhere(b.ledger, Apply(b, op).ledger, id, op.entity, e);
  }

  /** The use of an entity that has a row. */
  lemma UseOfId(l: Ledger, id: nat)
    requires Valid(l) && id in l.rows
    ensures var row := l.rows[id];
            UseOf(l, row.entity) == if row.recallCount == 0 then None
                                    else Some(Use(row.recallCount, row.lastRecalledAt, row.flushedRecallCount, row.dirty))
  {
    RowOfId(l, id);
  }

  lemma SettleUse(b: Book, e: string, now: nat)
    requires HeldInv(b) && HoldsLive(b, e)
    ensures UseOf(Apply(b, Settle(e, now)).ledger, e) == UseAfter(UseOf(b.ledger, e), Settle(e, now), true, b.held[e].1)
  {
    var id := b.held[e].0;
    ApplyKeepsHeld(b, Settle(e, now));
    UseOfId(b.ledger, id);
    UseOfId(Apply(b, Settle(e, now)).ledger, id);
  }

  lemma RowUse(b: Book, op: Op)
    requires HeldInv(b) && !op.Settle?
    ensures UseOf(Apply(b, op).ledger, op.entity) == UseAfter(UseOf(b.ledger, op.entity), op, false, 0)
  {
    ApplyKeepsHeld(b, op);
    var l, l' := b.ledger, Apply(b, op).ledger;
    match Find(l, op.entity)
    case Some(id) =>
      UseOfId(l, id);
      if id in l'.rows { UseOfId(l', id); }
    case None =>
      if l.nextId in l'.rows { UseOfId(l', l.nextId); }
  }

  lemma ApplyUse(b: Book, op: Op)
    requires HeldInv(b)
    ensures UseOf(Apply(b, op).ledger, op.entity) ==
            UseAfter(UseOf(b.ledger, op.entity), op, HoldsLive(b, op.entity),
                     if op.entity in b.held then b.held[op.entity].1 else 0)
  {
    if op.Settle? {
      if HoldsLive(b, op.entity) { SettleUse(b, op.entity, op.now); }
    } else {
      RowUse(b, op);
    }
  }

  /** A self-test or correction leaves every entity's use as it was. */
  lemma NonUseChangesNothing(b: Book, op: Op, e: string)
    requires HeldInv(b) && !IsUse(op)
    ensures Alike(Apply(b, op), b, e)
  {
    ApplyKeepsHeld(b, op);
    if e == op.entity { ApplyUse(b, op); } else { OthersUntouched(b, op, e); }
  }

  lemma HeldAlike(a: Book, b: Book, op: Op)
    requires HeldInv(a) && HeldInv(b) && IsUse(op)
    requires Alike(a, b, op.entity)
    ensures var a', b', e := Apply(a, op), Apply(b, op), op.entity;
            && (e in a'.held <==> e in b'.held)
            && (e in a'.held ==> a'.held[e].1 == b'.held[e].1)
            && (HoldsLive(a', e) <==> HoldsLive(b', e))
  {
    var e := op.entity;
    if HoldsLive(a, e) { RowOfId(a.ledger, a.held[e].0); }
    if HoldsLive(b, e) { RowOfId(b.ledger, b.held[e].0); }
  }

  /** What the settler holds for another entity stays held, and lives on. */
  lemma HeldElsewhere(b: Book, op: Op, e: string)
    requires HeldInv(b) && e != op.entity
    ensures var b' := Apply(b, op);
            && (e in b'.held <==> e in b.held)
            && (e in b.held ==> b'.held[e] == b.held[e])
            && (HoldsLive(b', e) <==> HoldsLive(b, e))
  {
  }

  /** Books that are alike stay alike under the same operation. */
  lemma UseKeepsAlike(a: Book, b: Book, op: Op, e: string)
    requires HeldInv(a) && HeldInv(b) && IsUse(op)
    requires Alike(a, b, e)
    ensures Alike(Apply(a, op), Apply(b, op), e)
  {
    if e == op.entity {
      ApplyUse(a, op);
      ApplyUse(b, op);
      HeldAlike(a, b, op);
    } else {
      OthersUntouched(a, op, e);
      OthersUntouched(b, op, e);
      HeldElsewhere(a, op, e);
      HeldElsewhere(b, op, e);
    }
  }

  lemma {:induction false} PlayKeepsHeld(ops: seq<Op>)
    ensures HeldInv(Play(ops))
  {
    if ops != [] {
      PlayKeepsHeld(ops[..|ops| - 1]);
      ApplyKeepsHeld(Play(ops[..|ops| - 1]), ops[|ops| - 1]);
    }
  }

  lemma {:induction false} ErasureKeepsAlike(ops: seq<Op>, e: string)
    ensures Alike(Play(ops), Play(Erase(ops)), e)
  {
    if ops != [] {
      var init, op := ops[..|ops| - 1], ops[|ops| - 1];
      ErasureKeepsAlike(init, e);
      PlayKeepsHeld(init);
      PlayKeepsHeld(Erase(init));
      if IsUse(op) {
        assert (Erase(init) + [op])[..|Erase(init)|] == Erase(init);
        UseKeepsAlike(Play(init), Play(Erase(init)), op, e);
      } else {
        NonUseChangesNothing(Play(init), op, e);
      }
    }
  }

  /** The brain testing or correcting itself never counts as use: with every self-test and correction
      deleted from any history, each entity has the same recall count, recall time, flushed count and
      dirty flag. */
  lemma SelfTestsNeverCountAsUse(ops: seq<Op>, e: string)
    ensures UseOf(Play(ops).ledger, e) == UseOf(Play(Erase(ops)).ledger, e)
  {
    ErasureKeepsAlike(ops, e);
  }
}
