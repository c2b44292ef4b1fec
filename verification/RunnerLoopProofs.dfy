/** What every run of the shared runner loop keeps, whatever the model, clock and engine answer. */
module RunnerLoopProofs {
  import opened Prelude
  import opened Engine
  import opened RunnerLoop

  // ---- What a run spends and hears ----

  /** A handoff that succeeded, a returned turn (`drains` when it took the runner's total with it), or
      the part of a broken turn that was already paid for. A failed handoff leaves no event: what its
      summarization turn cost is unknowable. */
  datatype Event =
    | Handoff(cost: Usage)
    | Turn(cost: Usage, chat: seq<Message>, drains: bool)
    | Spent(cost: Usage)

  function HandoffEvents(r: Runner, tick: Tick): seq<Event> {
    if !r.done && tick.crowded && tick.handoff.HandedOff? then [Handoff(tick.handoff.cost)] else []
  }

  function NextEvents(r: Runner, reply: NextReply): seq<Event> {
    if r.done then [] else
    match reply
    case NoMore => []
    case Broken(spent, _) => [Spent(spent)]
    case Answered(cost, _, chat, _, done, idle) => [Turn(cost, chat, done || idle)]
  }

  function PassEvents(l: Loop, started: nat, tick: Tick): seq<Event> {
    if Budget(l.c.totalTurns, started, tick.now).Some? then [] else
    match Compact(l, tick)
    case Exit(_, _) => []
    case Go(l') => HandoffEvents(l.runner, tick) + NextEvents(l'.runner, tick.next)
  }

  /** The events of a whole run, in order. */
  function Events(l: Loop, started: nat, env: nat -> Tick, k: nat): seq<Event>
    requires Counting(l)
    decreases SaturatingSub(RUNNER_MAX_MODEL_TURNS, l.c.totalTurns)
  {
    PassEvents(l, started, env(k)) +
    match Iterate(l, started, env(k))
    case Exit(_, _) => []
    case Go(l') =>
      IterateAdvances(l, started, env(k));
      Events(l', started, env, k + 1)
  }

  /** The reason the run fails through the loop's single failure exit, if it does. */
  function Failure(l: Loop, started: nat, env: nat -> Tick, k: nat): Option<Reason>
    requires Counting(l)
    decreases SaturatingSub(RUNNER_MAX_MODEL_TURNS, l.c.totalTurns)
  {
    match Iterate(l, started, env(k))
    case Exit(_, failure) => failure
    case Go(l') =>
      IterateAdvances(l, started, env(k));
      Failure(l', started, env, k + 1)
  }

  // ---- Turn budget ----

  function ModelTurns(events: seq<Event>): nat {
    if events == [] then 0 else (if events[0].Spent? then 0 else 1) + ModelTurns(events[1..])
  }

  lemma {:induction false} ModelTurnsConcat(a: seq<Event>, b: seq<Event>)
    ensures ModelTurns(a + b) == ModelTurns(a) + ModelTurns(b)
  {
    if a == [] {
      assert a + b == b;
    } else {
      ModelTurnsConcat(a[1..], b);
      assert (a + b)[1..] == a[1..] + b;
    }
  }

  lemma PassTurns(l: Loop, started: nat, tick: Tick)
    requires l.c.accounted == l.runner.turns
    ensures ModelTurns(PassEvents(l, started, tick)) <= 2
    ensures Iterate(l, started, tick).l.c.totalTurns == l.c.totalTurns + ModelTurns(PassEvents(l, started, tick))
    ensures PassEvents(l, started, tick) != [] ==> l.c.totalTurns < RUNNER_MAX_MODEL_TURNS
  {
    match Compact(l, tick)
    case Exit(_, _) =>
    case Go(l') => ModelTurnsConcat(HandoffEvents(l.runner, tick), NextEvents(l'.runner, tick.next));
  }

  /** The loop's own counter is exactly the number of model turns spent, compaction turns included,
      and no run overshoots the limit by more than one. */
  lemma {:induction false} TurnBudget(l: Loop, started: nat, env: nat -> Tick, k: nat)
    requires l.c.accounted == l.runner.turns
    requires l.c.totalTurns <= RUNNER_MAX_MODEL_TURNS + 1
    ensures Drive(l, started, env, k).c.totalTurns == l.c.totalTurns + ModelTurns(Events(l, started, env, k))
    ensures Drive(l, started, env, k).c.totalTurns <= RUNNER_MAX_MODEL_TURNS + 1
    decreases SaturatingSub(RUNNER_MAX_MODEL_TURNS, l.c.totalTurns)
  {
    PassTurns(l, started, env(k));
    match Iterate(l, started, env(k))
    case Exit(_, _) =>
      assert Events(l, started, env, k) == PassEvents(l, started, env(k));
    case Go(l') =>
      IterateAdvances(l, started, env(k));
      TurnBudget(l', started, env, k + 1);
      ModelTurnsConcat(PassEvents(l, started, env(k)), Events(l', started, env, k + 1));
  }

  // ---- Persistence ----

  predicate LastWritten(l: Loop) {
    l.log != [] && l.log[|l.log| - 1] == l.conv
  }

  /** Either the newest snapshot in the store is the conversation, or only throttled Working turns are
      missing, fewer than the throttle. */
  predicate Synced(l: Loop) {
    if l.c.unpersisted == 0 then LastWritten(l)
    else l.conv.status == Working && l.c.unpersisted < PERSIST_EVERY_N_TURNS
  }

  lemma TurnKeepsSynced(l: Loop, r: Runner, output: RunnerOutput, now: nat)
    requires Synced(l)
    ensures Synced(TakeTurn(l, r, output, now).l)
  {
    var conv := TurnConversation(l, r, output, now);
    if WritesNow(conv, l.c.unpersisted + 1) {
      assert (l.log + [conv])[|l.log|] == conv;
    }
  }

  lemma CompactKeepsSynced(l: Loop, tick: Tick)
    requires Synced(l)
    ensures Synced(Compact(l, tick).l)
  {
  }

  lemma PassKeepsSynced(l: Loop, started: nat, tick: Tick)
    requires Synced(l)
    ensures Synced(Iterate(l, started, tick).l)
  {
    CompactKeepsSynced(l, tick);
    var l' := Compact(l, tick).l;
    match NextStep(l'.runner, tick.next).1
    case Ok(Some(output)) => TurnKeepsSynced(l', NextStep(l'.runner, tick.next).0, output, tick.after);
    case _ =>
  }

  /** Whatever exit a run takes (converged, failed turn, runner error, compaction error, budget), the
      newest snapshot in the store is the conversation in memory. */
  lemma {:induction false} EveryExitIsDurable(l: Loop, started: nat, env: nat -> Tick, k: nat)
    requires Counting(l) && Synced(l)
    ensures LastWritten(Drive(l, started, env, k))
    decreases SaturatingSub(RUNNER_MAX_MODEL_TURNS, l.c.totalTurns)
  {
    PassKeepsSynced(l, started, env(k));
    match Iterate(l, started, env(k))
    case Exit(_, _) =>
    case Go(l') =>
      IterateAdvances(l, started, env(k));
      EveryExitIsDurable(l', started, env, k + 1);
  }

  /** The loop heads of a run that has got this far. */
  predicate IsRun(heads: seq<Loop>, started: nat, env: nat -> Tick) {
    forall i: nat :: i + 1 < |heads| ==> Iterate(heads[i], started, env(i)) == Go(heads[i + 1])
  }

  predicate WroteOrCounted(a: Loop, b: Loop) {
    || (b.c.unpersisted == 0 && LastWritten(b))
    || (b.c.unpersisted == a.c.unpersisted + 1 < PERSIST_EVERY_N_TURNS && b.log == a.log && b.conv.status == Working)
  }

  lemma PassWritesOrCounts(l: Loop, started: nat, tick: Tick)
    requires Iterate(l, started, tick).Go?
    ensures WroteOrCounted(l, Iterate(l, started, tick).l)
  {
  }

  predicate LagsBehind(heads: seq<Loop>)
    requires heads != []
  {
    var h := heads[|heads| - 1];
    && h.c.unpersisted < PERSIST_EVERY_N_TURNS
    && h.c.unpersisted < |heads|
    && (h.c.unpersisted > 0 ==> h.conv.status == Working)
    && h.log != []
    && h.log[|h.log| - 1] == heads[|heads| - 1 - h.c.unpersisted].conv
  }

  lemma {:induction false} LagAccumulates(heads: seq<Loop>)
    requires heads != [] && heads[0].c.unpersisted == 0 && LastWritten(heads[0])
    requires forall i: nat :: i + 1 < |heads| ==> WroteOrCounted(heads[i], heads[i + 1])
    ensures LagsBehind(heads)
  {
    var n := |heads|;
    if n > 1 {
      var shorter := heads[..n - 1];
      forall i: nat | i + 1 < n - 1 ensures WroteOrCounted(shorter[i], shorter[i + 1]) {
        assert WroteOrCounted(heads[i], heads[i + 1]);
      }
      LagAccumulates(shorter);
      assert WroteOrCounted(heads[n - 2], heads[n - 1]);
    }
  }

  /** A crash between throttled writes loses fewer than `PERSIST_EVERY_N_TURNS` turns: at every loop head
      the newest snapshot is the conversation as it stood `unpersisted` turns earlier. */
  lemma CrashLosesFewTurns(heads: seq<Loop>, started: nat, env: nat -> Tick)
    requires heads != [] && IsRun(heads, started, env)
    requires heads[0].c.unpersisted == 0 && LastWritten(heads[0])
    ensures LagsBehind(heads)
  {
    forall i: nat | i + 1 < |heads| ensures WroteOrCounted(heads[i], heads[i + 1]) {
      assert Iterate(heads[i], started, env(i)) == Go(heads[i + 1]);
      PassWritesOrCounts(heads[i], started, env(i));
    }
    LagAccumulates(heads);
  }

  // ---- Completed stays completed, or not ----

  /** Whenever the loop goes on after a turn that converged, whichever host lets it, the conversation is looked
      at once more. It stays Completed, with its usage, exactly when neither budget is reached there; otherwise
      it is flipped to Failed and its usage is overwritten with the runner's drained total. The ring keeps what
      it holds either way. */
  lemma ConvergedIsExaminedAgain(l: Loop, started: nat, env: nat -> Tick, k: nat)
    requires Counting(l) && Synced(l)
    requires l.runner.done && l.conv.status == Completed
    ensures Drive(l, started, env, k).conv.status == Completed
       <==> (l.c.totalTurns < RUNNER_MAX_MODEL_TURNS
             && SaturatingSub(env(k).now, started) < RUNNER_MAX_WALL_CLOCK_MS)
    ensures Drive(l, started, env, k).conv.status == Completed ==> Drive(l, started, env, k) == l
    ensures Drive(l, started, env, k).conv.status != Completed ==>
              && Drive(l, started, env, k).conv.status == Failed
              && Drive(l, started, env, k).conv.usage == l.runner.total
    ensures Drive(l, started, env, k).ring == l.ring
  {
    assert Compact(l, env(k)) == Go(l) by { assert l.(runner := l.runner) == l; }
    assert Advance(l, env(k)) == Exit(l, None) by { assert l.(runner := l.runner) == l; }
  }

  function ConvergingTick(now: nat, cost: Usage): Tick {
    Tick(now, false, HandedOff(cost, 0, 0, []), Answered(cost, 0, [], None, true, false), now)
  }

  /** Concrete runs where it does not, one for each cost: the only turn converges, but the loop head after
      it finds the wall-clock budget spent. The conversation was durably Completed with the turn's usage;
      it ends Failed with none, and the ring still shows it as Completed. */
  lemma ConvergedThenFlipped(cost: Usage) returns (l: Loop, l1: Loop, env: nat -> Tick)
    ensures l.c == FRESH && l.host == MaintenanceHost && l.conv.status == Working
    ensures IsRun([l, l1], 0, env)
    ensures l1.conv.status == Completed && l1.conv.usage == cost && LastWritten(l1)
    ensures Drive(l, 0, env, 0).conv.status == Failed
    ensures Drive(l, 0, env, 0).conv.usage == NO_USAGE
    ensures Drive(l, 0, env, 0).ring == [l1.conv]
  {
    var conv := Conversation(Working, [], NO_USAGE, None, 0);
    l := Loop(MaintenanceHost, Runner(0, NO_USAGE, 0, false, false, []), conv, [], [conv], FRESH);
    env := (k: nat) => ConvergingTick(if k == 0 then 0 else RUNNER_MAX_WALL_CLOCK_MS, cost);
    l1 := ConvergesAtOnce(l, env(0), cost);
    IterateAdvances(l, 0, env(0));
    assert env(1) == ConvergingTick(RUNNER_MAX_WALL_CLOCK_MS, cost);
    assert Drive(l, 0, env, 0) == Drive(l1, 0, env, 1);
    ConvergedIsExaminedAgain(l1, 0, env, 1);
  }

  lemma ConvergesAtOnce(l: Loop, tick: Tick, cost: Usage) returns (l1: Loop)
    requires l.host == MaintenanceHost && !l.runner.done && l.runner.total == NO_USAGE && l.c == FRESH && l.ring == []
    requires tick == ConvergingTick(0, cost)
    ensures Iterate(l, 0, tick) == Go(l1)
    ensures l1.host == MaintenanceHost && l1.runner.done && l1.runner.total == NO_USAGE
    ensures l1.conv.status == Completed && l1.conv.usage == cost && LastWritten(l1) && l1.c.unpersisted == 0
    ensures l1.ring == [l1.conv]
    ensures Counting(l1)
  {
    PlusEmpty(l.runner.total, cost);
    assert Compact(l, tick) == Go(l) by { assert l.(runner := l.runner) == l; }
    l1 := Iterate(l, 0, tick).l;
  }

  // ---- Transcript ----

  /** The latest history of each runner of the run, the current one having shown `latest` so far. */
  function Histories(events: seq<Event>, latest: seq<Message>): (hs: seq<seq<Message>>)
    ensures |hs| > 0
  {
    if events == [] then [latest] else
    match events[0]
    case Handoff(_) => [latest] + Histories(events[1..], [])
    case Spent(_) => Histories(events[1..], latest)
    case Turn(_, chat, _) => Histories(events[1..], if chat == [] then latest else chat)
  }

  /** Within one runner, a history only grows by extension. */
  predicate OnlyExtends(events: seq<Event>, latest: seq<Message>) {
    events != [] ==>
    match events[0]
    case Handoff(_) => OnlyExtends(events[1..], [])
    case Spent(_) => OnlyExtends(events[1..], latest)
    case Turn(_, chat, _) =>
      (chat == [] || latest <= chat) && OnlyExtends(events[1..], if chat == [] then latest else chat)
  }

  function Flatten(hs: seq<seq<Message>>): seq<Message> {
    if hs == [] then [] else hs[0] + Flatten(hs[1..])
  }

  lemma {:induction false} HistoriesStayNonEmpty(events: seq<Event>, latest: seq<Message>)
    requires latest != []
    ensures Histories(events, latest)[0] != []
  {
    if events != [] && !events[0].Handoff? {
      HistoriesStayNonEmpty(events[1..],
        if events[0].Spent? || events[0].chat == [] then latest else events[0].chat);
    }
  }

  /** What the events still to come make of the messages stored so far: `base` is what precedes the
      current runner's part, and is dropped when it is the original input and a runner speaks first. */
  function Expected(base: seq<Message>, latest: seq<Message>, dropsInput: bool, events: seq<Event>): seq<Message> {
    var hs := Histories(events, latest);
    (if dropsInput && hs[0] != [] then [] else base) + Flatten(hs)
  }

  /** The messages are `base` followed by what the current runner has shown. */
  predicate Transcribes(l: Loop, base: seq<Message>, latest: seq<Message>) {
    && l.conv.messages == base + latest
    && l.c.historyLen == |latest|
    && (l.c.replaceInput ==> latest == [])
  }

  lemma ExpectedAtEnd(base: seq<Message>, latest: seq<Message>, dropsInput: bool)
    requires dropsInput ==> latest == []
    ensures Expected(base, latest, dropsInput, []) == base + latest
  {
    assert Flatten([latest]) == latest + Flatten([]) == latest;
  }

  /** The handoff of a pass moves the current runner's part into the base. */
  lemma CompactTranscribes(l: Loop, tick: Tick, base: seq<Message>, latest: seq<Message>, rest: seq<Event>)
    returns (base': seq<Message>, latest': seq<Message>)
    requires Transcribes(l, base, latest) && Compact(l, tick).Go?
    requires OnlyExtends(HandoffEvents(l.runner, tick) + rest, latest)
    ensures var l' := Compact(l, tick).l;
            && Transcribes(l', base', latest')
            && OnlyExtends(rest, latest')
            && Expected(base, latest, l.c.replaceInput, HandoffEvents(l.runner, tick) + rest)
               == Expected(base', latest', l'.c.replaceInput, rest)
  {
    if HandoffEvents(l.runner, tick) == [] {
      base', latest' := base, latest;
      assert [] + rest == rest;
    } else {
      base', latest' := base + latest, [];
      var h := HandoffEvents(l.runner, tick)[0];
      assert HandoffEvents(l.runner, tick) + rest == [h] + rest;
      assert ([h] + rest)[1..] == rest;
      var hs := Histories(rest, []);
      assert ([latest] + hs)[1..] == hs;
      assert Flatten([latest] + hs) == latest + Flatten(hs);
      assert l.conv.messages + [] == l.conv.messages;
    }
  }

  /** One answer of the runner extends its part by exactly the unseen suffix. */
  lemma AdvanceTranscribes(l: Loop, tick: Tick, base: seq<Message>, latest: seq<Message>, rest: seq<Event>)
    returns (base': seq<Message>, latest': seq<Message>)
    requires Transcribes(l, base, latest)
    requires OnlyExtends(NextEvents(l.runner, tick.next) + rest, latest)
    ensures var l' := Advance(l, tick).l;
            && Transcribes(l', base', latest')
            && OnlyExtends(rest, latest')
            && Expected(base, latest, l.c.replaceInput, NextEvents(l.runner, tick.next) + rest)
               == Expected(base', latest', l'.c.replaceInput, rest)
  {
    var events := NextEvents(l.runner, tick.next);
    base', latest' := base, latest;
    if events == [] {
      assert events + rest == rest;
    } else {
      assert (events + rest)[0] == events[0] && (events + rest)[1..] == rest;
      if events[0].Turn? && events[0].chat != [] {
        var chat := events[0].chat;
        latest' := chat;
        if l.c.replaceInput {
          base' := [];
          HistoriesStayNonEmpty(rest, chat);
          assert chat[0..] == chat;
        } else {
          assert latest + chat[|latest|..] == chat;
        }
      }
    }
  }

  /** A whole pass: what was expected of the run is what is expected of its remainder. */
  lemma PassTranscribes(l: Loop, started: nat, tick: Tick, base: seq<Message>, latest: seq<Message>, rest: seq<Event>)
    returns (base': seq<Message>, latest': seq<Message>)
    requires Transcribes(l, base, latest)
    requires OnlyExtends(PassEvents(l, started, tick) + rest, latest)
    ensures var l' := Iterate(l, started, tick).l;
            && Transcribes(l', base', latest')
            && OnlyExtends(rest, latest')
            && Expected(base, latest, l.c.replaceInput, PassEvents(l, started, tick) + rest)
               == Expected(base', latest', l'.c.replaceInput, rest)
  {
    if Budget(l.c.totalTurns, started, tick.now).Some? || Compact(l, tick).Exit? {
      base', latest' := base, latest;
      assert [] + rest == rest;
    } else {
      var mid := Compact(l, tick).l;
      var heard := NextEvents(mid.runner, tick.next);
      assert PassEvents(l, started, tick) + rest == HandoffEvents(l.runner, tick) + (heard + rest);
      base', latest' := CompactTranscribes(l, tick, base, latest, heard + rest);
      base', latest' := AdvanceTranscribes(mid, tick, base', latest', rest);
    }
  }

  /** The stored messages are the concatenation of each runner's latest history, nothing lost and nothing
      repeated, after the original input only when no runner spoke before the first compaction. */
  lemma {:induction false} TranscriptIsConcatenation(l: Loop, started: nat, env: nat -> Tick, k: nat,
                                                    base: seq<Message>, latest: seq<Message>)
    requires Counting(l) && Transcribes(l, base, latest)
    requires OnlyExtends(Events(l, started, env, k), latest)
    ensures Drive(l, started, env, k).conv.messages
         == Expected(base, latest, l.c.replaceInput, Events(l, started, env, k))
    decreases SaturatingSub(RUNNER_MAX_MODEL_TURNS, l.c.totalTurns)
  {
    match Iterate(l, started, env(k))
    case Exit(l', _) =>
      assert Events(l, started, env, k) == PassEvents(l, started, env(k)) + [];
      var base', latest' := PassTranscribes(l, started, env(k), base, latest, []);
      ExpectedAtEnd(base', latest', l'.c.replaceInput);
    case Go(l') =>
      IterateAdvances(l, started, env(k));
      var base', latest' := PassTranscribes(l, started, env(k), base, latest, Events(l', started, env, k + 1));
      TranscriptIsConcatenation(l', started, env, k + 1, base', latest');
  }

  /** The whole-run form: from a fresh loop over a conversation that holds its original input. */
  lemma StoredTranscript(l: Loop, started: nat, env: nat -> Tick)
    requires l.c == FRESH
    requires OnlyExtends(Events(l, started, env, 0), [])
    ensures var hs := Histories(Events(l, started, env, 0), []);
            Drive(l, started, env, 0).conv.messages
            == (if hs[0] != [] then [] else l.conv.messages) + Flatten(hs)
  {
    assert l.conv.messages + [] == l.conv.messages;
    TranscriptIsConcatenation(l, started, env, 0, l.conv.messages, []);
  }

  // ---- Usage ----

  function Paid(events: seq<Event>): Usage {
    if events == [] then NO_USAGE else events[0].cost.Plus(Paid(events[1..]))
  }

  /** What the runner still holds after the events, from `held` on: everything paid since the last turn
      that took the total with it. */
  function Held(events: seq<Event>, held: Usage): Usage {
    if events == [] then held else
    Held(events[1..], if events[0].Turn? && events[0].drains then NO_USAGE else held.Plus(events[0].cost))
  }

  /** What the newest turn reported, `before` when there was none. */
  function Billed(events: seq<Event>, held: Usage, before: Usage): Usage {
    if events == [] then before else
    Billed(events[1..],
           if events[0].Turn? && events[0].drains then NO_USAGE else held.Plus(events[0].cost),
           if events[0].Turn? then held.Plus(events[0].cost) else before)
  }

  lemma {:induction false} HeldConcat(a: seq<Event>, b: seq<Event>, held: Usage, before: Usage)
    ensures Held(a + b, held) == Held(b, Held(a, held))
    ensures Billed(a + b, held, before) == Billed(b, Held(a, held), Billed(a, held, before))
  {
    if a == [] {
      assert a + b == b;
    } else {
      assert (a + b)[1..] == a[1..] + b;
      HeldConcat(a[1..], b,
                 if a[0].Turn? && a[0].drains then NO_USAGE else held.Plus(a[0].cost),
                 if a[0].Turn? then held.Plus(a[0].cost) else before);
    }
  }

  /** One pass: the runner's total, through compaction and its failures, is what the events say it holds;
      the conversation shows what the newest turn reported. */
  lemma PassUsage(l: Loop, started: nat, tick: Tick)
    ensures var l' := Iterate(l, started, tick).l;
            var events := PassEvents(l, started, tick);
            && l'.runner.total == Held(events, l.runner.total)
            && l'.conv.usage == Billed(events, l.runner.total, l.conv.usage)
  {
    if Budget(l.c.totalTurns, started, tick.now).None? && Compact(l, tick).Go? {
      var mid := Compact(l, tick).l;
      assert mid.runner.total == Held(HandoffEvents(l.runner, tick), l.runner.total);
      var heard := NextEvents(mid.runner, tick.next);
      assert Advance(mid, tick).l.runner.total == Held(heard, mid.runner.total);
      assert Advance(mid, tick).l.conv.usage == Billed(heard, mid.runner.total, mid.conv.usage);
      HeldConcat(HandoffEvents(l.runner, tick), heard, l.runner.total, l.conv.usage);
    }
  }

  /** Exact usage at every exit: a failure exit records what the runner still holds, any other exit what
      the newest turn reported. */
  lemma {:induction false} UsageAtExit(l: Loop, started: nat, env: nat -> Tick, k: nat)
    requires Counting(l)
    ensures Drive(l, started, env, k).conv.usage
         == var events := Events(l, started, env, k);
            if Failure(l, started, env, k).Some? then Held(events, l.runner.total)
            else Billed(events, l.runner.total, l.conv.usage)
    decreases SaturatingSub(RUNNER_MAX_MODEL_TURNS, l.c.totalTurns)
  {
    var events := PassEvents(l, started, env(k));
    PassUsage(l, started, env(k));
    match Iterate(l, started, env(k))
    case Exit(_, _) =>
      assert Events(l, started, env, k) == events;
    case Go(l') =>
      IterateAdvances(l, started, env(k));
      UsageAtExit(l', started, env, k + 1);
      HeldConcat(events, Events(l', started, env, k + 1), l.runner.total, l.conv.usage);
  }

  /** The turn took everything the runner held with it. */
  predicate Drains(e: Event) {
    e.Turn? && e.drains
  }

  function LastDrain(events: seq<Event>): (r: Option<nat>)
    ensures r.Some? ==> r.value < |events| && Drains(events[r.value])
  {
    if events == [] then None
    else if Drains(events[|events| - 1]) then Some(|events| - 1)
    else LastDrain(events[..|events| - 1])
  }

  function LastTurn(events: seq<Event>): (r: Option<nat>)
    ensures r.Some? ==> r.value < |events| && events[r.value].Turn?
  {
    if events == [] then None
    else if events[|events| - 1].Turn? then Some(|events| - 1)
    else LastTurn(events[..|events| - 1])
  }

  /** Everything held and paid up to the last turn that took the total with it. */
  function Drained(events: seq<Event>, held: Usage): Usage {
    match LastDrain(events)
    case None => NO_USAGE
    case Some(d) => held.Plus(Paid(events[..d + 1]))
  }

  lemma {:induction false} PaidConcat(a: seq<Event>, b: seq<Event>)
    ensures Paid(a + b) == Paid(a).Plus(Paid(b))
  {
    if a == [] {
      assert a + b == b;
      PlusEmpty(Paid(a), Paid(b));
    } else {
      assert (a + b)[1..] == a[1..] + b;
      PaidConcat(a[1..], b);
      PlusAssoc(a[0].cost, Paid(a[1..]), Paid(b));
    }
  }

  lemma PaidNext(init: seq<Event>, e: Event, held: Usage)
    ensures Paid(init + [e]) == Paid(init).Plus(e.cost)
    ensures Held(init + [e], held) == if Drains(e) then NO_USAGE else Held(init, held).Plus(e.cost)
  {
    PaidConcat(init, [e]);
    assert Paid([e]) == e.cost.Plus(Paid([]));
    HeldConcat(init, [e], held, NO_USAGE);
  }

  lemma DrainedNext(init: seq<Event>, e: Event, held: Usage)
    ensures Drained(init + [e], held) == if Drains(e) then held.Plus(Paid(init + [e])) else Drained(init, held)
  {
    var events := init + [e];
    assert events[..|init|] == init && events[..|events|] == events;
    if !Drains(e) && LastDrain(init).Some? {
      assert events[..LastDrain(init).value + 1] == init[..LastDrain(init).value + 1];
    }
  }

  /** What was paid is what is still held and what was drained. */
  lemma {:induction false} HeldAndDrained(events: seq<Event>, held: Usage)
    ensures held.Plus(Paid(events)) == Held(events, held).Plus(Drained(events, held))
  {
    if events != [] {
      var init, e := events[..|events| - 1], events[|events| - 1];
      assert events == init + [e];
      PaidNext(init, e, held);
      DrainedNext(init, e, held);
      HeldAndDrained(init, held);
      if Drains(e) { PlusEmpty(NO_USAGE, held.Plus(Paid(events))); }
    }
  }

  /** The newest turn reports what the runner held before it and its own cost. */
  lemma {:induction false} BilledIsNewest(events: seq<Event>, held: Usage, before: Usage)
    ensures match LastTurn(events)
            case None => Billed(events, held, before) == before
            case Some(t) => Billed(events, held, before) == Held(events[..t], held).Plus(events[t].cost)
  {
    if events != [] {
      var init, e := events[..|events| - 1], events[|events| - 1];
      assert events == init + [e];
      HeldConcat(init, [e], held, before);
      BilledIsNewest(init, held, before);
      if !e.Turn? && LastTurn(init).Some? { assert events[..LastTurn(init).value] == init[..LastTurn(init).value]; }
    }
  }

  /** A normal exit leaves out what was drained before the newest turn, the t-th event, and what was paid
      after it. */
  lemma BilledAndUnbilled(events: seq<Event>, t: nat, held: Usage)
    requires t < |events|
    ensures held.Plus(Paid(events))
            == Held(events[..t], held).Plus(events[t].cost).Plus(Drained(events[..t], held).Plus(Paid(events[t + 1..])))
  {
    assert events == events[..t] + [events[t]] + events[t + 1..];
    PaidConcat(events[..t] + [events[t]], events[t + 1..]);
    PaidNext(events[..t], events[t], held);
    HeldAndDrained(events[..t], held);
  }

  /** A failure exit records every turn paid for, compactions included, if and only if nothing had been drained;
      what it misses is exactly what had been. */
  lemma FailureBillsAllIff(l: Loop, started: nat, env: nat -> Tick, k: nat)
    requires Counting(l) && Failure(l, started, env, k).Some?
    ensures var events, recorded := Events(l, started, env, k), Drive(l, started, env, k).conv.usage;
            var paid, drained := l.runner.total.Plus(Paid(events)), Drained(events, l.runner.total);
            && recorded.Plus(drained) == paid
            && (recorded == paid <==> drained == NO_USAGE)
  {
    var events := Events(l, started, env, k);
    UsageAtExit(l, started, env, k);
    HeldAndDrained(events, l.runner.total);
    NothingMissedIff(Held(events, l.runner.total), Drained(events, l.runner.total));
  }

  /** Any other exit records every turn paid for if and only if nothing had been drained before the newest
      turn, the t-th event, and nothing was paid after it. */
  lemma ExitBillsAllIff(l: Loop, started: nat, env: nat -> Tick, k: nat, t: nat)
    requires Counting(l) && Failure(l, started, env, k).None? && LastTurn(Events(l, started, env, k)) == Some(t)
    ensures var events, recorded := Events(l, started, env, k), Drive(l, started, env, k).conv.usage;
            var paid, drained, after := l.runner.total.Plus(Paid(events)), Drained(events[..t], l.runner.total), Paid(events[t + 1..]);
            && recorded.Plus(drained.Plus(after)) == paid
            && (recorded == paid <==> drained == NO_USAGE && after == NO_USAGE)
  {
    var events := Events(l, started, env, k);
    UsageAtExit(l, started, env, k);
    BilledIsNewest(events, l.runner.total, l.conv.usage);
    BilledAndUnbilled(events, t, l.runner.total);
    NeitherMissedIff(Held(events[..t], l.runner.total).Plus(events[t].cost),
                     Drained(events[..t], l.runner.total), Paid(events[t + 1..]));
  }

  // ---- When usage is sure to be conserved ----

  /** No review is owed, and a maintenance runner idles only when it is done. */
  ghost predicate NeverIdlesEarly(host: Host, env: nat -> Tick) {
    match host
    case FormationHost(review) => !review
    case MaintenanceHost => forall k :: env(k).next.Answered? && env(k).next.idle ==> env(k).next.done
  }

  ghost predicate DrainsAtMostLast(events: seq<Event>) {
    forall i :: 0 <= i < |events| - 1 ==> !Drains(events[i])
  }

  /** A pass that goes on after a draining turn leaves a finished runner behind. */
  lemma PassDrainsWhenDone(l: Loop, started: nat, env: nat -> Tick, k: nat)
    requires NeverIdlesEarly(l.host, env)
    ensures DrainsAtMostLast(PassEvents(l, started, env(k)))
    ensures Iterate(l, started, env(k)).Go? ==>
              var l' := Iterate(l, started, env(k)).l;
              && l'.host == l.host
              && ((forall e :: e in PassEvents(l, started, env(k)) ==> !Drains(e)) || l'.runner.done)
  {
  }

  lemma {:induction false} DoneRunnerIsSilent(l: Loop, started: nat, env: nat -> Tick, k: nat)
    requires Counting(l) && l.runner.done
    ensures Events(l, started, env, k) == []
  {
  }

  lemma {:induction false} DrainsAtTheEnd(l: Loop, started: nat, env: nat -> Tick, k: nat)
    requires Counting(l) && NeverIdlesEarly(l.host, env)
    ensures DrainsAtMostLast(Events(l, started, env, k))
    decreases SaturatingSub(RUNNER_MAX_MODEL_TURNS, l.c.totalTurns)
  {
    var events := PassEvents(l, started, env(k));
    PassDrainsWhenDone(l, started, env, k);
    match Iterate(l, started, env(k))
    case Exit(_, _) => assert Events(l, started, env, k) == events;
    case Go(l') =>
      IterateAdvances(l, started, env(k));
      var rest := Events(l', started, env, k + 1);
      assert Events(l, started, env, k) == events + rest;
      if l'.runner.done {
        DoneRunnerIsSilent(l', started, env, k + 1);
      } else {
        DrainsAtTheEnd(l', started, env, k + 1);
        assert forall i :: 0 <= i < |events| ==> events[i] in events;
      }
  }

  lemma {:induction false} NoDrain(events: seq<Event>, held: Usage)
    requires forall i :: 0 <= i < |events| ==> !Drains(events[i])
    ensures Drained(events, held) == NO_USAGE
  {
    if events != [] { NoDrain(events[..|events| - 1], held); }
  }

  /** Formation that owes no review, and maintenance whose runner idles only when done, record every turn paid
      for whenever they end with a turn of their own. */
  lemma NoReviewBillsEverything(l: Loop, started: nat, env: nat -> Tick, k: nat)
    requires Counting(l) && NeverIdlesEarly(l.host, env) && Failure(l, started, env, k).None?
    requires var events := Events(l, started, env, k); events != [] && events[|events| - 1].Turn?
    ensures Drive(l, started, env, k).conv.usage == l.runner.total.Plus(Paid(Events(l, started, env, k)))
  {
    var events := Events(l, started, env, k);
    var t := |events| - 1;
    DrainsAtTheEnd(l, started, env, k);
    NoDrain(events[..t], l.runner.total);
    assert events[t + 1..] == [];
    ExitBillsAllIff(l, started, env, k, t);
  }

  /** A normal exit without a turn leaves what the conversation recorded before. */
  lemma NoTurnRecordsNothing(l: Loop, started: nat, env: nat -> Tick, k: nat)
    requires Counting(l) && Failure(l, started, env, k).None? && LastTurn(Events(l, started, env, k)).None?
    ensures Drive(l, started, env, k).conv.usage == l.conv.usage
  {
    UsageAtExit(l, started, env, k);
    BilledIsNewest(Events(l, started, env, k), l.runner.total, l.conv.usage);
  }

  /** Formation without a review goes on only after turns that drained nothing, and fails after none other. */
  lemma PassWithoutReview(l: Loop, started: nat, tick: Tick)
    requires l.host == FormationHost(false)
    ensures match Iterate(l, started, tick)
            case Go(l') => l'.host == l.host && forall e :: e in PassEvents(l, started, tick) ==> !Drains(e)
            case Exit(_, failure) => failure.Some? ==> forall e :: e in PassEvents(l, started, tick) ==> !Drains(e)
  {
  }

  lemma {:induction false} FailureDrainsNothing(l: Loop, started: nat, env: nat -> Tick, k: nat)
    requires Counting(l) && l.host == FormationHost(false) && Failure(l, started, env, k).Some?
    ensures forall e :: e in Events(l, started, env, k) ==> !Drains(e)
    decreases SaturatingSub(RUNNER_MAX_MODEL_TURNS, l.c.totalTurns)
  {
    PassWithoutReview(l, started, env(k));
    match Iterate(l, started, env(k))
    case Exit(_, _) =>
    case Go(l') =>
      IterateAdvances(l, started, env(k));
      FailureDrainsNothing(l', started, env, k + 1);
  }

  /** The run records every turn paid for, if it fails or ends with a turn of its own. */
  ghost predicate BillsAll(l: Loop, started: nat, env: nat -> Tick)
    requires Counting(l)
  {
    var events := Events(l, started, env, 0);
    Failure(l, started, env, 0).Some? || (events != [] && events[|events| - 1].Turn?) ==>
      Drive(l, started, env, 0).conv.usage == l.runner.total.Plus(Paid(events))
  }

  lemma NoReviewBillsAll(l: Loop, started: nat, env: nat -> Tick)
    requires Counting(l) && l.host == FormationHost(false)
    ensures BillsAll(l, started, env)
  {
    var events := Events(l, started, env, 0);
    if Failure(l, started, env, 0).Some? {
      FailureDrainsNothing(l, started, env, 0);
      NoDrain(events, l.runner.total);
      FailureBillsAllIff(l, started, env, 0);
    } else if events != [] && events[|events| - 1].Turn? {
      NoReviewBillsEverything(l, started, env, 0);
    }
  }

  lemma DoneRunnerBillsAll(l: Loop, started: nat, env: nat -> Tick)
    requires Counting(l) && l.runner.done
    ensures BillsAll(l, started, env)
  {
    DoneRunnerIsSilent(l, started, env, 0);
    UsageAtExit(l, started, env, 0);
    PlusNothing(l.runner.total, Paid([]));
  }

  /** A loop about to take its first turn. */
  predicate Starts(l: Loop) {
    l.c == FRESH && l.runner.turns == 0 && !l.runner.done
  }

  /** A single turn as the environment answers it, with no compaction before it. */
  function TurnTick(now: nat, cost: Usage, done: bool, idle: bool): Tick {
    Tick(now, false, Refused([]), Answered(cost, 0, [], None, done, idle), now)
  }

  /** A first turn that drains the runner and after which the loop goes on. */
  lemma FirstTurnDrains(l: Loop, started: nat, env: nat -> Tick, cost: Usage, done: bool) returns (l1: Loop)
    requires Starts(l) && l.host != FormationHost(false) && (l.host.MaintenanceHost? ==> done)
    requires env(0) == TurnTick(0, cost, done, true)
    ensures Iterate(l, started, env(0)) == Go(l1) && Counting(l1)
    ensures l1.runner.total == NO_USAGE && l1.runner.done == done && l1.c.totalTurns == 1
    ensures l1.host == if l.host.MaintenanceHost? then l.host else FormationHost(false)
    ensures Events(l, started, env, 0) == [Turn(cost, [], true)] + Events(l1, started, env, 1)
    ensures Drive(l, started, env, 0) == Drive(l1, started, env, 1)
    ensures Failure(l, started, env, 0) == Failure(l1, started, env, 1)
  {
    assert Compact(l, env(0)) == Go(l) by { assert l.(runner := l.runner) == l; }
    l1 := Iterate(l, started, env(0)).l;
    IterateAdvances(l, started, env(0));
    assert PassEvents(l, started, env(0)) == [Turn(cost, [], true)];
  }

  lemma PaidTurn(held: Usage, a: Usage, rest: seq<Event>)
    ensures held.Plus(Paid([Turn(a, [], true)] + rest)) == held.Plus(a).Plus(Paid(rest))
  {
    assert ([Turn(a, [], true)] + rest)[1..] == rest;
    PlusAssoc(held, a, Paid(rest));
  }

  function ReviewedEnv(a: Usage, b: Usage): nat -> Tick {
    k => if k == 0 then TurnTick(0, a, false, true) else TurnTick(0, b, true, false)
  }

  lemma LastTurnBills(l: Loop, started: nat, env: nat -> Tick, b: Usage)
    requires Counting(l) && l.host == FormationHost(false) && !l.runner.done && l.runner.total == NO_USAGE
    requires l.c.totalTurns < RUNNER_MAX_MODEL_TURNS && env(1) == TurnTick(0, b, true, false)
    ensures Events(l, started, env, 1) == [Turn(b, [], true)] && Failure(l, started, env, 1).None?
    ensures Drive(l, started, env, 1).conv.status == Completed && Drive(l, started, env, 1).conv.usage == b
  {
    assert Compact(l, env(1)) == Go(l) by { assert l.(runner := l.runner) == l; }
    PlusEmpty(NO_USAGE, b);
    assert PassEvents(l, started, env(1)) == [Turn(b, [], true)];
  }

  /** The idle turn that comes before a formation's review takes the total with it, and the review's turn
      then overwrites what was recorded: from any start and for all costs, the conversation ends Completed with
      the cost of the review alone. */
  lemma ReviewedFormationUnderBills(l: Loop, started: nat, a: Usage, b: Usage)
    requires Starts(l) && l.host == FormationHost(true)
    ensures var env := ReviewedEnv(a, b);
            && Failure(l, started, env, 0).None? && Events(l, started, env, 0) == [Turn(a, [], true), Turn(b, [], true)]
            && Drive(l, started, env, 0).conv.status == Completed
            && Drive(l, started, env, 0).conv.usage == b
            && l.runner.total.Plus(Paid(Events(l, started, env, 0))) == l.runner.total.Plus(a).Plus(b)
  {
    var env := ReviewedEnv(a, b);
    var l1 := FirstTurnDrains(l, started, env, a, false);
    LastTurnBills(l1, started, env, b);
    PaidTurn(l.runner.total, a, [Turn(b, [], true)]);
    PaidTurn(NO_USAGE, b, []);
    assert [Turn(b, [], true)] + [] == [Turn(b, [], true)];
    PlusEmpty(NO_USAGE, b);
    PlusEmpty(NO_USAGE, Paid([Turn(b, [], true)]));
    PlusNothing(b, Paid([]));
  }

  function FlippingEnv(started: nat, cost: Usage): nat -> Tick {
    k => if k == 0 then TurnTick(0, cost, true, true) else TurnTick(started + RUNNER_MAX_WALL_CLOCK_MS, cost, true, true)
  }

  /** A maintenance run whose only turn converges and that then finds its time spent records nothing, whatever
      the turn cost. */
  lemma FlippedMaintenanceBillsNothing(l: Loop, started: nat, cost: Usage)
    requires Starts(l) && l.host.MaintenanceHost?
    ensures var env := FlippingEnv(started, cost);
            && Failure(l, started, env, 0) == Some(WallClock)
            && Drive(l, started, env, 0).conv.usage == NO_USAGE
            && l.runner.total.Plus(Paid(Events(l, started, env, 0))) == l.runner.total.Plus(cost)
  {
    var env := FlippingEnv(started, cost);
    var l1 := FirstTurnDrains(l, started, env, cost, true);
    assert env(1) == TurnTick(started + RUNNER_MAX_WALL_CLOCK_MS, cost, true, true);
    assert Budget(l1.c.totalTurns, started, env(1).now) == Some(WallClock);
    assert Events(l1, started, env, 1) == [];
    PaidTurn(l.runner.total, cost, []);
    PlusNothing(l.runner.total.Plus(cost), Paid([]));
  }

  lemma SomethingMissed(held: Usage, cost: Usage, recorded: Usage)
    requires cost == Usage(1, 0, 0, 0)
    ensures held.Plus(cost).Plus(recorded) != recorded && held.Plus(cost) != NO_USAGE
  {
  }

  /** Which runs are sure to bill every turn paid for, whatever the clock, the model and the engine do, on
      failure exits and on exits with a turn: formation that owes no review, and nothing else that has a turn
      to take. */
  lemma BillsAllIff(l: Loop, started: nat)
    requires l.c == FRESH && l.runner.turns == 0
    ensures l.runner.done || l.host == FormationHost(false) <==> forall env :: BillsAll(l, started, env)
  {
    var one := Usage(1, 0, 0, 0);
    if l.runner.done || l.host == FormationHost(false) {
      forall env ensures BillsAll(l, started, env) {
        if l.runner.done { DoneRunnerBillsAll(l, started, env); } else { NoReviewBillsAll(l, started, env); }
      }
    } else if l.host.MaintenanceHost? {
      FlippedMaintenanceBillsNothing(l, started, one);
      SomethingMissed(l.runner.total, one, NO_USAGE);
      assert !BillsAll(l, started, FlippingEnv(started, one));
    } else {
      ReviewedFormationUnderBills(l, started, one, NO_USAGE);
      SomethingMissed(l.runner.total, one, NO_USAGE);
      assert !BillsAll(l, started, ReviewedEnv(one, NO_USAGE));
    }
  }

  lemma HeldAtTheEnd(events: seq<Event>, held: Usage)
    requires DrainsAtMostLast(events)
    ensures Held(events, held)
            == if events != [] && Drains(events[|events| - 1]) then NO_USAGE else held.Plus(Paid(events))
  {
    if events != [] && Drains(events[|events| - 1]) {
      assert events == events[..|events| - 1] + [events[|events| - 1]];
      PaidNext(events[..|events| - 1], events[|events| - 1], held);
    } else {
      NoDrain(events, held);
      HeldAndDrained(events, held);
      PlusNothing(Held(events, held), Drained(events, held));
    }
  }

  /** A maintenance run, whose runner idles only when it is done, fails with every turn billed unless it had
      converged: then, and only then, its last turn has taken everything along and nothing is recorded. */
  lemma FailedMaintenanceBills(l: Loop, started: nat, env: nat -> Tick, k: nat)
    requires Counting(l) && l.host.MaintenanceHost? && NeverIdlesEarly(l.host, env)
    requires Failure(l, started, env, k).Some?
    ensures var events := Events(l, started, env, k);
            Drive(l, started, env, k).conv.usage
            == if events != [] && Drains(events[|events| - 1]) then NO_USAGE else l.runner.total.Plus(Paid(events))
  {
    var events := Events(l, started, env, k);
    DrainsAtTheEnd(l, started, env, k);
    UsageAtExit(l, started, env, k);
    HeldAtTheEnd(events, l.runner.total);
  }

  // ---- The ring of completed conversations ----

  /** The ring after all of these conversations were offered to it. */
  function Ring(offered: seq<Conversation>, maxLen: nat): seq<Conversation> {
    if offered == [] then [] else PushCompleted(Ring(offered[..|offered| - 1], maxLen), offered[|offered| - 1], maxLen)
  }

  function CompletedOnes(offered: seq<Conversation>): seq<Conversation> {
    if offered == [] then []
    else CompletedOnes(offered[..|offered| - 1])
         + if offered[|offered| - 1].status == Completed then [offered[|offered| - 1]] else []
  }

  function Newest<T>(items: seq<T>, maxLen: nat): seq<T> {
    if |items| > maxLen then items[|items| - maxLen..] else items
  }

  lemma NewestPush<T>(items: seq<T>, item: T, maxLen: nat)
    requires maxLen > 0
    ensures Newest(Newest(items, maxLen) + [item], maxLen) == Newest(items + [item], maxLen)
  {
  }

  /** The ring holds exactly the newest completed conversations, in order. */
  lemma {:induction false} RingHoldsNewest(offered: seq<Conversation>, maxLen: nat)
    ensures Ring(offered, maxLen) == Newest(CompletedOnes(offered), maxLen)
  {
    if offered != [] {
      var init, last := offered[..|offered| - 1], offered[|offered| - 1];
      RingHoldsNewest(init, maxLen);
      if maxLen > 0 && last.status == Completed { NewestPush(CompletedOnes(init), last, maxLen); }
    }
  }

  lemma NewestConcat<T>(a: seq<T>, b: seq<T>, maxLen: nat)
    ensures Newest(Newest(a, maxLen) + b, maxLen) == Newest(a + b, maxLen)
  {
  }

  /** The pass got as far as an answered turn. */
  predicate TakesTurn(l: Loop, started: nat, tick: Tick) {
    && Budget(l.c.totalTurns, started, tick.now).None?
    && Compact(l, tick).Go?
    && !Compact(l, tick).l.runner.done && tick.next.Answered?
  }

  /** The conversation a pass completed, if it did. */
  function PassCompletes(l: Loop, started: nat, tick: Tick): seq<Conversation> {
    var conv := Iterate(l, started, tick).l.conv;
    if TakesTurn(l, started, tick) && conv.status == Completed then [conv] else []
  }

  /** Every completed state of the conversation over a run, in order. */
  function Completions(l: Loop, started: nat, env: nat -> Tick, k: nat): seq<Conversation>
    requires Counting(l)
    decreases SaturatingSub(RUNNER_MAX_MODEL_TURNS, l.c.totalTurns)
  {
    PassCompletes(l, started, env(k)) +
    match Iterate(l, started, env(k))
    case Exit(_, _) => []
    case Go(l') =>
      IterateAdvances(l, started, env(k));
      Completions(l', started, env, k + 1)
  }

  lemma TurnRing(l: Loop, r: Runner, output: RunnerOutput, now: nat)
    ensures var l' := TakeTurn(l, r, output, now).l;
            if l'.conv.status == Completed then l'.ring == PushCompleted(l.ring, l'.conv, COMPLETED_RING) else l'.ring == l.ring
  {
  }

  lemma NoTurnNoRing(l: Loop, started: nat, tick: Tick)
    requires !TakesTurn(l, started, tick)
    ensures Iterate(l, started, tick).l.ring == l.ring
  {
  }

  lemma PassPushes(l: Loop, started: nat, tick: Tick)
    ensures var l', completed := Iterate(l, started, tick).l, PassCompletes(l, started, tick);
            if completed == [] then l'.ring == l.ring
            else completed == [l'.conv] && l'.conv.status == Completed && l'.ring == PushCompleted(l.ring, l'.conv, COMPLETED_RING)
  {
    if TakesTurn(l, started, tick) {
      var mid := Compact(l, tick).l;
      var (r, res) := NextStep(mid.runner, tick.next);
      TurnRing(mid, r, res.value.value, tick.after);
    } else {
      NoTurnNoRing(l, started, tick);
    }
  }

  lemma PushIsNewest(ring: seq<Conversation>, conv: Conversation)
    requires |ring| <= COMPLETED_RING && conv.status == Completed
    ensures PushCompleted(ring, conv, COMPLETED_RING) == Newest(ring + [conv], COMPLETED_RING)
  {
  }

  lemma NothingPushed<T>(ring: seq<T>, maxLen: nat)
    requires |ring| <= maxLen
    ensures Newest(ring + [], maxLen) == ring
  {
    assert ring + [] == ring;
  }

  lemma PassRing(l: Loop, started: nat, tick: Tick)
    requires |l.ring| <= COMPLETED_RING
    ensures Iterate(l, started, tick).l.ring == Newest(l.ring + PassCompletes(l, started, tick), COMPLETED_RING)
  {
    PassPushes(l, started, tick);
    if PassCompletes(l, started, tick) == [] {
      NothingPushed(l.ring, COMPLETED_RING);
    } else {
      PushIsNewest(l.ring, Iterate(l, started, tick).l.conv);
    }
  }

  lemma NewestTwice<T>(ring: seq<T>, now: seq<T>, rest: seq<T>, maxLen: nat)
    ensures Newest(Newest(ring + now, maxLen) + rest, maxLen) == Newest(ring + (now + rest), maxLen)
  {
    NewestConcat(ring + now, rest, maxLen);
    assert ring + now + rest == ring + (now + rest);
  }

  lemma NewestIsShort<T>(items: seq<T>, maxLen: nat)
    ensures |Newest(items, maxLen)| <= maxLen
  {
  }

  /** Over a whole run the ring ends with the newest of what it held and what the run completed, in order,
      whatever became of it later. */
  lemma {:induction false} RunRing(l: Loop, started: nat, env: nat -> Tick, k: nat)
    requires Counting(l) && |l.ring| <= COMPLETED_RING
    ensures Drive(l, started, env, k).ring == Newest(l.ring + Completions(l, started, env, k), COMPLETED_RING)
    decreases SaturatingSub(RUNNER_MAX_MODEL_TURNS, l.c.totalTurns)
  {
    PassRing(l, started, env(k));
    match Iterate(l, started, env(k))
    case Exit(_, _) =>
      assert Completions(l, started, env, k) == PassCompletes(l, started, env(k));
    case Go(l') =>
      IterateAdvances(l, started, env(k));
      NewestIsShort(l.ring + PassCompletes(l, started, env(k)), COMPLETED_RING);
      RunRing(l', started, env, k + 1);
      NewestTwice(l.ring, PassCompletes(l, started, env(k)), Completions(l', started, env, k + 1), COMPLETED_RING);
  }

  // ---- The formation review ----

  /** A conversation that counts as completed was finished by its runner, or had its review. */
  predicate ReviewedIfCompleted(l: Loop) {
    l.conv.status == Completed && l.host.FormationHost? ==> l.runner.done || !l.host.reviewPending
  }

  lemma PassKeepsReviewed(l: Loop, started: nat, tick: Tick)
    requires ReviewedIfCompleted(l)
    ensures ReviewedIfCompleted(Iterate(l, started, tick).l)
  {
  }

  /** Formation never completes an idle runner whose review pass is still owed, over any run. */
  lemma {:induction false} ReviewBeforeCompletion(l: Loop, started: nat, env: nat -> Tick, k: nat)
    requires Counting(l) && ReviewedIfCompleted(l)
    ensures ReviewedIfCompleted(Drive(l, started, env, k))
    decreases SaturatingSub(RUNNER_MAX_MODEL_TURNS, l.c.totalTurns)
  {
    PassKeepsReviewed(l, started, env(k));
    match Iterate(l, started, env(k))
    case Exit(_, _) =>
    case Go(l') =>
      IterateAdvances(l, started, env(k));
      ReviewBeforeCompletion(l', started, env, k + 1);
  }

  /** A pass that goes on leaves exactly one thing queued, the review prompt, when the review falls due with it,
      and nothing otherwise. The review falls due with the first idle turn. */
  lemma PassQueues(l: Loop, started: nat, tick: Tick)
    requires Iterate(l, started, tick).Go?
    ensures var l' := Iterate(l, started, tick).l;
            && l'.host.FormationHost? == l.host.FormationHost?
            && (l.host == FormationHost(true) && l'.runner.idle ==> l'.host == FormationHost(false) && l'.runner.queued == [ReviewPrompt])
            && (l.host != FormationHost(true) || !l'.runner.idle ==> l'.host == l.host && l'.runner.queued == [])
  {
  }

  /** An exit leaves the review owed as it was. */
  lemma ExitKeepsHost(l: Loop, started: nat, tick: Tick)
    requires Iterate(l, started, tick).Exit?
    ensures Iterate(l, started, tick).l.host == l.host
  {
  }

  /** How many loop heads after the first find the review prompt queued. */
  function Prompts(heads: seq<Loop>): nat {
    if |heads| <= 1 then 0
    else Prompts(heads[..|heads| - 1]) + if ReviewPrompt in heads[|heads| - 1].runner.queued then 1 else 0
  }

  /** Between two loop heads the review stops being owed exactly when the turn idled, and exactly then the later one
      finds the review prompt queued. */
  predicate ReviewStep(a: Loop, b: Loop) {
    && b.host.FormationHost? && a.host.FormationHost?
    && (b.host.reviewPending <==> a.host.reviewPending && !b.runner.idle)
    && b.runner.queued == if a.host.reviewPending && !b.host.reviewPending then [ReviewPrompt] else []
  }

  lemma HeadsOf(heads: seq<Loop>, started: nat, env: nat -> Tick)
    requires |heads| > 1 && IsRun(heads, started, env)
    ensures IsRun(heads[..|heads| - 1], started, env)
    ensures Iterate(heads[|heads| - 2], started, env(|heads| - 2)) == Go(heads[|heads| - 1])
  {
    var shorter := heads[..|heads| - 1];
    forall i: nat | i + 1 < |shorter| ensures Iterate(shorter[i], started, env(i)) == Go(shorter[i + 1]) {
      assert Iterate(heads[i], started, env(i)) == Go(heads[i + 1]);
    }
    assert heads[|heads| - 2 + 1] == heads[|heads| - 1];
  }

  /** Over any run of a formation that owes its review: it falls due with the first turn that idles, is prompted for
      exactly then, and so at most once. */
  lemma {:induction false} ReviewIsPrompted(heads: seq<Loop>, started: nat, env: nat -> Tick)
    requires heads != [] && IsRun(heads, started, env) && heads[0].host == FormationHost(true)
    ensures forall i: nat :: i + 1 < |heads| ==> ReviewStep(heads[i], heads[i + 1])
    ensures heads[|heads| - 1].host.FormationHost?
    ensures Prompts(heads) == if heads[|heads| - 1].host.reviewPending then 0 else 1
    decreases |heads|
  {
    var n := |heads| - 1;
    if n > 0 {
      var shorter := heads[..n];
      HeadsOf(heads, started, env);
      ReviewIsPrompted(shorter, started, env);
      PassQueues(heads[n - 1], started, env(n - 1));
      forall i: nat | i + 1 < |heads| ensures ReviewStep(heads[i], heads[i + 1]) {
        if i + 1 < n { assert ReviewStep(shorter[i], shorter[i + 1]); }
      }
    }
  }

  lemma {:induction false} HeadsAreReviewed(heads: seq<Loop>, started: nat, env: nat -> Tick)
    requires heads != [] && IsRun(heads, started, env) && ReviewedIfCompleted(heads[0])
    ensures ReviewedIfCompleted(heads[|heads| - 1])
    decreases |heads|
  {
    var n := |heads| - 1;
    if n > 0 {
      HeadsOf(heads, started, env);
      HeadsAreReviewed(heads[..n], started, env);
      PassKeepsReviewed(heads[n - 1], started, env(n - 1));
    }
  }

  /** A formation that owes its review and ends Completed was prompted for the review exactly once, unless its runner
      is done. */
  lemma CompletedAfterReview(heads: seq<Loop>, started: nat, env: nat -> Tick)
    requires heads != [] && IsRun(heads, started, env) && heads[0].host == FormationHost(true)
    requires ReviewedIfCompleted(heads[0])
    requires var flow := Iterate(heads[|heads| - 1], started, env(|heads| - 1)); flow.Exit? && flow.l.conv.status == Completed
    ensures Prompts(heads) == 1 || Iterate(heads[|heads| - 1], started, env(|heads| - 1)).l.runner.done
  {
    var last := heads[|heads| - 1];
    ReviewIsPrompted(heads, started, env);
    HeadsAreReviewed(heads, started, env);
    PassKeepsReviewed(last, started, env(|heads| - 1));
    ExitKeepsHost(last, started, env(|heads| - 1));
  }

  lemma FormationPass(l: Loop, started: nat, tick: Tick)
    requires l.host == FormationHost(false) && l.conv.status == Working
    ensures match Iterate(l, started, tick)
            case Go(l') => l'.host == FormationHost(false) && l'.conv.status == Working
            case Exit(l', failure) => l'.conv.status == Completed ==> failure.None?
  {
  }

  /** Over a whole run, unlike maintenance, formation without a review to come leaves the loop with the very turn
      that converged: no loop head ever finds the conversation Completed, so no budget flips it. */
  lemma {:induction false} CompletedFormationIsFinal(heads: seq<Loop>, started: nat, env: nat -> Tick)
    requires heads != [] && IsRun(heads, started, env)
    requires heads[0].host == FormationHost(false) && heads[0].conv.status == Working
    ensures forall i: nat :: i < |heads| ==> heads[i].host == FormationHost(false) && heads[i].conv.status == Working
    ensures var n := |heads| - 1;
            var flow := Iterate(heads[n], started, env(n));
            flow.l.conv.status == Completed ==> flow == Exit(flow.l, None)
    decreases |heads|
  {
    var n := |heads| - 1;
    if n > 0 {
      var shorter := heads[..n];
      HeadsOf(heads, started, env);
      CompletedFormationIsFinal(shorter, started, env);
      FormationPass(heads[n - 1], started, env(n - 1));
      forall i: nat | i < n ensures heads[i].host == FormationHost(false) && heads[i].conv.status == Working {
        assert shorter[i] == heads[i];
      }
    }
    FormationPass(heads[n], started, env(n));
  }

  // ---- Outcomes are explained ----

  /** A failed conversation says why, and a completed formation carries no old failure. */
  predicate Explained(l: Loop) {
    && (l.conv.status == Failed ==> l.conv.failedReason.Some?)
    && (l.conv.status == Completed && l.host.FormationHost? ==> l.conv.failedReason.None?)
  }

  lemma PassKeepsExplained(l: Loop, started: nat, tick: Tick)
    requires Explained(l)
    ensures Explained(Iterate(l, started, tick).l)
  {
  }

  /** Every run that starts explained ends explained, whichever exit it takes; a retry that converges clears
      the failure of the attempt before. */
  lemma {:induction false} OutcomeIsExplained(l: Loop, started: nat, env: nat -> Tick, k: nat)
    requires Counting(l) && Explained(l)
    ensures Explained(Drive(l, started, env, k))
    decreases SaturatingSub(RUNNER_MAX_MODEL_TURNS, l.c.totalTurns)
  {
    PassKeepsExplained(l, started, env(k));
    match Iterate(l, started, env(k))
    case Exit(_, _) =>
    case Go(l') =>
      IterateAdvances(l, started, env(k));
      OutcomeIsExplained(l', started, env, k + 1);
  }
}
