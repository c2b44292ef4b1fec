/** What a pass of the runner loop makes of each answer of the environment, with the budgets and the throttle by number. */
module RunnerLoopOutcomes {
  import opened Prelude
  import opened Engine
  import opened RunnerLoop
  import opened RunnerLoopProofs

  // ---- Why a run fails ----

  /** The first thing that goes wrong in a pass: 200 turns are spent, 30 minutes are over, the handoff fails, or the
      runner breaks. A finished runner is neither handed off nor asked. */
  function WhyFails(l: Loop, started: nat, tick: Tick): Option<Reason> {
    if l.c.totalTurns >= 200 then Some(TurnLimit)
    else if tick.now >= started + 1_800_000 then Some(WallClock)
    else if l.runner.done then None
    else if tick.crowded && tick.handoff.Refused? then Some(RunnerError(tick.handoff.error))
    else if tick.crowded && tick.handoff.RefusedAfterDrain? then Some(RunnerError(tick.handoff.error))
    else if tick.next.Broken? then Some(RunnerError(tick.next.error))
    else None
  }

  lemma PassFails(l: Loop, started: nat, tick: Tick)
    ensures match Iterate(l, started, tick)
            case Exit(_, failure) => failure == WhyFails(l, started, tick)
            case Go(_) => WhyFails(l, started, tick) == None
  {
  }

  /** A run that fails says why: the conversation ends Failed, stamped, with the reason of the pass that ended it. */
  lemma {:induction false} FailureIsRecorded(l: Loop, started: nat, env: nat -> Tick, k: nat)
    requires Counting(l) && Failure(l, started, env, k).Some?
    ensures Drive(l, started, env, k).conv.status == Failed
    ensures Drive(l, started, env, k).conv.failedReason == Failure(l, started, env, k)
    decreases SaturatingSub(RUNNER_MAX_MODEL_TURNS, l.c.totalTurns)
  {
    match Iterate(l, started, env(k))
    case Exit(_, _) =>
    case Go(l') =>
      IterateAdvances(l, started, env(k));
      FailureIsRecorded(l', started, env, k + 1);
  }

  // ---- What a turn makes of the conversation ----

  /** The conversation after an answered turn: Failed with the reason the runner reports; Completed when the runner is
      done, or, for formation, idle with no review owed; Working otherwise. */
  lemma TurnOutcome(l: Loop, started: nat, tick: Tick)
    requires TakesTurn(l, started, tick)
    ensures var conv, reported := Iterate(l, started, tick).l.conv, tick.next.failed;
            && (conv.status == Failed <==> reported.Some?)
            && (conv.status == Completed <==>
                  reported.None? && (tick.next.done || (tick.next.idle && l.host == FormationHost(false))))
            && (conv.status == Working || conv.status == Failed || conv.status == Completed)
            && conv.updatedAt == tick.after
            && (reported.Some? ==> conv.failedReason == Some(Reported(reported.value)))
            && (reported.None? ==> conv.failedReason == if l.host.FormationHost? then None else l.conv.failedReason)
  {
  }

  /** A pass without an answered turn leaves conversation, store and ring as they were. */
  lemma NoTurnNoChange(l: Loop, started: nat, tick: Tick)
    requires !TakesTurn(l, started, tick)
    ensures var l' := Iterate(l, started, tick).l; l'.conv == l.conv && l'.log == l.log && l'.ring == l.ring && l'.host == l.host
  {
  }

  /** A turn is written when it is the fifth since the last write, or no longer Working. */
  lemma WritesEveryFifth(l: Loop, started: nat, tick: Tick)
    requires TakesTurn(l, started, tick) && l.c.unpersisted < 5
    ensures var l' := Iterate(l, started, tick).l;
            if l'.conv.status != Working || l.c.unpersisted == 4
            then l'.log == l.log + [l'.conv] && l'.c.unpersisted == 0
            else l'.log == l.log && l'.c.unpersisted == l.c.unpersisted + 1
  {
  }

  /** What a run leaves behind: a failed one what the runner still holds, stamped and written; any other one the
      conversation as its last pass left it, written once more only when throttled turns are missing. */
  lemma LastPass(l: Loop, started: nat, env: nat -> Tick, k: nat)
    requires Counting(l) && Iterate(l, started, env(k)).Exit?
    ensures var l', end := Iterate(l, started, env(k)).l, Drive(l, started, env, k);
            if WhyFails(l, started, env(k)).Some?
            then && end.conv == l'.conv.(usage := l'.runner.total, failedReason := WhyFails(l, started, env(k)), status := Failed,
                                         updatedAt := env(k).after)
                 && end.log == l'.log + [end.conv]
            else end.conv == l'.conv
                 && end.log == l'.log + if l'.conv.status == Working && l'.c.unpersisted > 0 then [l'.conv] else []
  {
    PassFails(l, started, env(k));
    assert Iterate(l, started, env(k)).l.log + [] == Iterate(l, started, env(k)).l.log;
  }

  // ---- Compaction ----

  /** A handoff that succeeds costs a turn and leaves a fresh runner that is told to go on, holds everything paid and
      used so far, and whose history is new. */
  lemma CompactionGoesOn(l: Loop, tick: Tick)
    requires !l.runner.done && tick.crowded && tick.handoff.HandedOff?
    ensures Compact(l, tick).Go?
    ensures var l' := Compact(l, tick).l;
            && l'.runner.queued == tick.handoff.queued + [ContinuePrompt]
            && l'.runner.total == l.runner.total.Plus(tick.handoff.cost)
            && l'.runner.tools == l.runner.tools + tick.handoff.used
            && !l'.runner.done && !l'.runner.idle
            && l'.c.totalTurns == l.c.totalTurns + 1 && l'.c.accounted == l'.runner.turns == tick.handoff.freshTurns
            && l'.c.historyLen == 0 && !l'.c.replaceInput && l'.c.unpersisted == l.c.unpersisted
            && l'.conv == l.conv && l'.log == l.log && l'.ring == l.ring && l'.host == l.host
  {
  }

  /** Otherwise compaction changes nothing. */
  lemma NoCompaction(l: Loop, tick: Tick)
    requires l.runner.done || !tick.crowded || !tick.handoff.HandedOff?
    ensures Compact(l, tick).l == l
  {
    assert l.(runner := l.runner) == l;
  }

  // ---- Tools ----

  /** The tool invocations a pass pays for. */
  function PassTools(l: Loop, started: nat, tick: Tick): nat {
    if l.runner.done || l.c.totalTurns >= 200 || tick.now >= started + 1_800_000 then 0
    else (if tick.crowded && tick.handoff.HandedOff? then tick.handoff.used else 0)
         + if tick.next.Answered? && (tick.crowded ==> tick.handoff.HandedOff?) then tick.next.used else 0
  }

  function RunTools(l: Loop, started: nat, env: nat -> Tick, k: nat): nat
    requires Counting(l)
    decreases SaturatingSub(RUNNER_MAX_MODEL_TURNS, l.c.totalTurns)
  {
    PassTools(l, started, env(k)) +
    match Iterate(l, started, env(k))
    case Exit(_, _) => 0
    case Go(l') =>
      IterateAdvances(l, started, env(k));
      RunTools(l', started, env, k + 1)
  }

  lemma PassKeepsTools(l: Loop, started: nat, tick: Tick)
    ensures Iterate(l, started, tick).l.runner.tools == l.runner.tools + PassTools(l, started, tick)
  {
  }

  /** Over a whole run, compactions and their failures included, no tool invocation is lost or counted twice. */
  lemma {:induction false} ToolsAreKept(l: Loop, started: nat, env: nat -> Tick, k: nat)
    requires Counting(l)
    ensures Drive(l, started, env, k).runner.tools == l.runner.tools + RunTools(l, started, env, k)
    decreases SaturatingSub(RUNNER_MAX_MODEL_TURNS, l.c.totalTurns)
  {
    PassKeepsTools(l, started, env(k));
    match Iterate(l, started, env(k))
    case Exit(_, _) =>
    case Go(l') =>
      IterateAdvances(l, started, env(k));
      ToolsAreKept(l', started, env, k + 1);
  }

  // ---- A whole run by number ----

  /** A run from the start spends the turns its events count, 201 at most, and leaves no more than the two newest
      completed conversations in the ring. */
  lemma RunByNumber(l: Loop, started: nat, env: nat -> Tick)
    requires l.c == FRESH && l.runner.turns == 0 && |l.ring| <= 2
    ensures Drive(l, started, env, 0).c.totalTurns == ModelTurns(Events(l, started, env, 0)) <= 201
    ensures Drive(l, started, env, 0).ring == Newest(l.ring + Completions(l, started, env, 0), 2)
  {
    TurnBudget(l, started, env, 0);
    RunRing(l, started, env, 0);
  }
}
