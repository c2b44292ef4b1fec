/**
 The shared formation/maintenance runner loop.

 `Iterate` is one pass of the loop body and `Drive` a whole run; the environment is an oracle that
 answers the k-th pass with `env(k)`. `DriveRunnerLoop` is the loop itself, over mutable objects, and
 is proved to compute exactly `Drive`. What a run keeps is proved about `Drive` in RunnerLoopProofs.
 */
module RunnerLoop {
  import opened Prelude
  import opened Engine

  const PERSIST_EVERY_N_TURNS := 5
  const RUNNER_MAX_MODEL_TURNS := 200
  const RUNNER_MAX_WALL_CLOCK_MS := 30 * 60 * 1000
  const COMPLETED_RING := 2

  datatype Status = Submitted | Working | Completed | Failed

  datatype Reason = TurnLimit | WallClock | RunnerError(error: string) | Reported(text: string)

  datatype Conversation = Conversation(
    status: Status,
    messages: seq<Message>,
    usage: Usage,
    failedReason: Option<Reason>,
    updatedAt: nat)

  /** The two agents that use the loop. Formation owes a review pass while `reviewPending`. */
  datatype Host = MaintenanceHost | FormationHost(reviewPending: bool) {

    predicate TurnIsDone(r: Runner) {
      match this
      case MaintenanceHost => r.done
      case FormationHost(review) => r.done || (r.idle && !review)
    }

    function OnTurnSuccess(reason: Option<Reason>): Option<Reason> {
      match this
      case MaintenanceHost => reason
      case FormationHost(_) => None
    }

    /** The host and runner after the turn, and whether the loop goes on. */
    function AfterTurn(r: Runner, isDone: bool): (Host, Runner, bool) {
      match this
      case MaintenanceHost => (this, r, true)
      case FormationHost(review) =>
        if review && r.idle then (FormationHost(false), r.(queued := r.queued + [ReviewPrompt]), true)
        else (this, r, !isDone)
    }
  }

  /** One pass as the environment plays it: the clock at the loop head, the compaction check and its
      handoff, the answer of `next`, and the clock after it. */
  datatype Tick = Tick(now: nat, crowded: bool, handoff: HandoffReply, next: NextReply, after: nat)

  /** The loop's own locals. */
  datatype Counters = Counters(
    totalTurns: nat,
    accounted: nat,
    historyLen: nat,
    replaceInput: bool,
    unpersisted: nat)

  const FRESH := Counters(0, 0, 0, true, 0)

  /** Everything the loop can change. `ring` is the completed-conversation ring, `log` the snapshots
      written to the conversation store so far, oldest first. */
  datatype Loop = Loop(
    host: Host,
    runner: Runner,
    conv: Conversation,
    ring: seq<Conversation>,
    log: seq<Conversation>,
    c: Counters)

  datatype Flow = Go(l: Loop) | Exit(l: Loop, failure: Option<Reason>)

  function SaturatingSub(a: nat, b: nat): nat {
    if a >= b then a - b else 0
  }

  function Budget(totalTurns: nat, started: nat, now: nat): Option<Reason> {
    if totalTurns >= RUNNER_MAX_MODEL_TURNS then Some(TurnLimit)
    else if SaturatingSub(now, started) >= RUNNER_MAX_WALL_CLOCK_MS then Some(WallClock)
    else None
  }

  /** What compaction means: inert on a finished runner; on success the fresh runner carries the whole
      total; on failure the runner keeps every total it had. */
  function CompactIfNeeded(r: Runner, crowded: bool, reply: HandoffReply): (Runner, Result<bool, string>) {
    if r.done || !crowded then (r, Ok(false)) else
    match reply
    case HandedOff(cost, used, freshTurns, queued) =>
      (Runner(freshTurns, r.total.Plus(cost), r.tools + used, false, false, queued + [ContinuePrompt]), Ok(true))
    case Refused(error) => (r, Err(error))
    case RefusedAfterDrain(error) => (r, Err(error))
  }

  /** Messages, consumed runner-history length and replace flag after one runner output. */
  function AppendHistory(messages: seq<Message>, chat: seq<Message>, historyLen: nat, replace: bool)
    : (seq<Message>, nat, bool)
  {
    if chat == [] then (messages, historyLen, replace) else
    var kept := if replace then [] else messages;
    var unseen := if |chat| >= historyLen then chat[historyLen..] else chat;
    (kept + unseen, |chat|, false)
  }

  function PushCompleted(ring: seq<Conversation>, conv: Conversation, maxLen: nat): seq<Conversation> {
    if conv.status != Completed || maxLen == 0 then ring else
    var pushed := ring + [conv];
    if |pushed| > maxLen then pushed[|pushed| - maxLen..] else pushed
  }

  function TurnConversation(l: Loop, r: Runner, output: RunnerOutput, now: nat): Conversation {
    Conversation(
      if output.failed.Some? then Failed else if l.host.TurnIsDone(r) then Completed else Working,
      AppendHistory(l.conv.messages, output.chat, l.c.historyLen, l.c.replaceInput).0,
      output.usage,
      if output.failed.Some? then Some(Reported(output.failed.value)) else l.host.OnTurnSuccess(l.conv.failedReason),
      now)
  }

  /** Intermediate Working turns are written only every `PERSIST_EVERY_N_TURNS`. */
  predicate WritesNow(conv: Conversation, unpersisted: nat) {
    conv.status != Working || unpersisted >= PERSIST_EVERY_N_TURNS
  }

  function TurnCounters(l: Loop, r: Runner, output: RunnerOutput, conv: Conversation): Counters {
    var (_, historyLen, replaceInput) := AppendHistory(l.conv.messages, output.chat, l.c.historyLen, l.c.replaceInput);
    Counters(
      l.c.totalTurns + SaturatingSub(r.turns, l.c.accounted),
      r.turns, historyLen, replaceInput,
      if WritesNow(conv, l.c.unpersisted + 1) then 0 else l.c.unpersisted + 1)
  }

  /** Accounting of one returned output: turn counters, transcript, status, ring and throttled write. */
  function TakeTurn(l: Loop, r: Runner, output: RunnerOutput, now: nat): Flow {
    var conv := TurnConversation(l, r, output, now);
    var l' := Loop(
      l.host, r, conv,
      if output.failed.Some? then l.ring else PushCompleted(l.ring, conv, COMPLETED_RING),
      if WritesNow(conv, l.c.unpersisted + 1) then l.log + [conv] else l.log,
      TurnCounters(l, r, output, conv));
    if conv.status == Failed then Exit(l', None) else
    var (host, runner, again) := l.host.AfterTurn(r, l.host.TurnIsDone(r));
    if again then Go(l'.(host := host, runner := runner)) else Exit(l', None)
  }

  /** The compaction arm: a handoff costs one model turn and restarts the per-runner counters. */
  function Compact(l: Loop, tick: Tick): Flow {
    var (runner, res) := CompactIfNeeded(l.runner, tick.crowded, tick.handoff);
    match res
    case Err(error) => Exit(l.(runner := runner), Some(RunnerError(error)))
    case Ok(false) => Go(l.(runner := runner))
    case Ok(true) => Go(l.(runner := runner,
                           c := Counters(l.c.totalTurns + 1, runner.turns, 0, false, l.c.unpersisted)))
  }

  function Advance(l: Loop, tick: Tick): Flow {
    var (runner, res) := NextStep(l.runner, tick.next);
    match res
    case Err(error) => Exit(l.(runner := runner), Some(RunnerError(error)))
    case Ok(None) => Exit(l.(runner := runner), None)
    case Ok(Some(output)) => TakeTurn(l, runner, output, tick.after)
  }

  function Iterate(l: Loop, started: nat, tick: Tick): Flow {
    match Budget(l.c.totalTurns, started, tick.now)
    case Some(reason) => Exit(l, Some(reason))
    case None =>
      match Compact(l, tick)
      case Exit(l', failure) => Exit(l', failure)
      case Go(l') => Advance(l', tick)
  }

  /** The single exit: usage backfill and `mark_failed`, then the flush of throttled Working turns. */
  function Finish(l: Loop, failure: Option<Reason>, now: nat): Loop {
    match failure
    case Some(reason) =>
      var conv := l.conv.(usage := l.runner.total, failedReason := failure, status := Failed, updatedAt := now);
      l.(conv := conv, log := l.log + [conv])
    case None =>
      if l.c.unpersisted > 0 && l.conv.status == Working then l.(log := l.log + [l.conv]) else l
  }

  /** The loop counts turns against the runner's own counter, which never runs behind it. */
  predicate Counting(l: Loop) {
    l.c.accounted <= l.runner.turns
  }

  lemma IterateAdvances(l: Loop, started: nat, tick: Tick)
    requires Counting(l) && Iterate(l, started, tick).Go?
    ensures var l' := Iterate(l, started, tick).l;
            && l.c.totalTurns < l'.c.totalTurns
            && l.c.totalTurns < RUNNER_MAX_MODEL_TURNS
            && l'.c.accounted == l'.runner.turns
  {
  }

  /** A whole run from a loop head: pass `k` is answered by `env(k)`. */
  function Drive(l: Loop, started: nat, env: nat -> Tick, k: nat): Loop
    requires Counting(l)
    decreases SaturatingSub(RUNNER_MAX_MODEL_TURNS, l.c.totalTurns)
  {
    match Iterate(l, started, env(k))
    case Exit(l', failure) => Finish(l', failure, env(k).after)
    case Go(l') =>
      IterateAdvances(l, started, env(k));
      Drive(l', started, env, k + 1)
  }

  // ---- The loop over mutable objects ----

  class ConversationRecord {
    var status: Status
    var messages: seq<Message>
    var usage: Usage
    var failedReason: Option<Reason>
    var updatedAt: nat

    function View(): Conversation
      reads this
    {
      Conversation(status, messages, usage, failedReason, updatedAt)
    }
  }

  /** The host's mutable side: its kind (with the pending review), its ring and the store it writes. */
  class HostAgent {
    var host: Host
    var ring: seq<Conversation>
    var log: seq<Conversation>

    method PersistSnapshot(conv: ConversationRecord)
      modifies this`log
      ensures log == old(log) + [conv.View()]
    {
      log := log + [conv.View()];
    }

    method MarkFailed(conv: ConversationRecord, reason: Reason, now: nat)
      requires conv as object != this
      modifies this`log, conv`failedReason, conv`status, conv`updatedAt
      ensures conv.View() == old(conv.View()).(failedReason := Some(reason), status := Failed, updatedAt := now)
      ensures log == old(log) + [conv.View()]
    {
      conv.failedReason := Some(reason);
      conv.status := Failed;
      conv.updatedAt := now;
      PersistSnapshot(conv);
    }

    method PushCompletedHistory(conv: ConversationRecord, maxLen: nat)
      modifies this`ring
      ensures ring == PushCompleted(old(ring), conv.View(), maxLen)
    {
      if conv.status != Completed || maxLen == 0 {
        return;
      }
      ring := ring + [conv.View()];
      var len := |ring|;
      if len > maxLen {
        ring := ring[len - maxLen..];
      }
    }
  }

  /** Puts back the totals a failed handoff drained; totals it left alone stay. */
  method RestoreTotals(runner: CompletionRunner, preUsage: Usage, preTools: nat)
    modifies runner`total, runner`tools
    ensures runner.total == if old(runner.total) == NO_USAGE then preUsage else old(runner.total)
    ensures runner.tools == if old(runner.tools) == 0 then preTools else old(runner.tools)
  {
    if runner.total.IsEmpty() {
      PlusEmpty(runner.total, preUsage);
      runner.Accumulate(preUsage);
    }
    if runner.tools == 0 {
      runner.AccumulateTools(preTools);
    }
  }

  /** The compacted runner takes over, with the drained totals and a prompt to go on. */
  method AdoptCompacted(runner: CompletionRunner, compacted: CompletionRunner, output: HandoffOutput)
    requires runner != compacted
    modifies runner, compacted
    ensures runner.turns == old(compacted.turns) && runner.done == old(compacted.done) && runner.idle == old(compacted.idle)
    ensures runner.queued == old(compacted.queued) + [ContinuePrompt]
    ensures runner.total == if old(compacted.total.IsEmpty()) then output.usage else old(compacted.total).Plus(output.usage)
    ensures runner.tools == old(compacted.tools) + output.tools
  {
    if compacted.total.IsEmpty() {
      PlusEmpty(compacted.total, output.usage);
    }
    compacted.Accumulate(output.usage);
    compacted.AccumulateTools(output.tools);
    compacted.FollowUp(ContinuePrompt);
    runner.Become(compacted.View());
  }

  method CompactRunnerIfNeeded(runner: CompletionRunner, crowded: bool, reply: HandoffReply)
    returns (res: Result<bool, string>)
    modifies runner
    ensures runner.View() == CompactIfNeeded(old(runner.View()), crowded, reply).0
    ensures res == CompactIfNeeded(old(runner.View()), crowded, reply).1
  {
    if runner.done {
      return Ok(false);
    }
    if !crowded {
      return Ok(false);
    }
    ghost var before := runner.View();
    var preUsage := runner.total;
    var preTools := runner.tools;
    var handed := runner.Handoff(reply);
    match handed {
      case Ok((compacted, output)) =>
        assert compacted.total.IsEmpty();
        AdoptCompacted(runner, compacted, output);
        assert runner.View() == CompactIfNeeded(before, crowded, reply).0;
        return Ok(true);
      case Err(error) =>
        RestoreTotals(runner, preUsage, preTools);
        assert runner.total == preUsage && runner.tools == preTools;
        assert runner.View() == before;
        return Err(error);
    }
  }

  method AppendRunnerHistory(conv: ConversationRecord, chat: seq<Message>, historyLen: nat, replaceExisting: bool)
    returns (historyLen': nat, replaceExisting': bool)
    modifies conv`messages
    ensures (conv.messages, historyLen', replaceExisting')
         == AppendHistory(old(conv.messages), chat, historyLen, replaceExisting)
  {
    historyLen', replaceExisting' := historyLen, replaceExisting;
    if |chat| == 0 {
      return;
    }
    if replaceExisting {
      conv.messages := [];
      replaceExisting' := false;
    }
    var incoming := |chat|;
    var unseen := if incoming >= historyLen then chat[historyLen..] else chat;
    conv.messages := conv.messages + unseen;
    historyLen' := incoming;
  }

  function Snapshot(agent: HostAgent, runner: CompletionRunner, conv: ConversationRecord, c: Counters): Loop
    reads agent, runner, conv
  {
    Loop(agent.host, runner.View(), conv.View(), agent.ring, agent.log, c)
  }

  /** One returned output, as the loop body handles it; `again` is false when the loop is left. */
  method HandleOutput(agent: HostAgent, runner: CompletionRunner, conv: ConversationRecord, output: RunnerOutput,
                      now: nat, c: Counters)
    returns (c': Counters, again: bool)
    modifies agent, runner, conv
    ensures var l := old(Snapshot(agent, runner, conv, c));
            var l' := Snapshot(agent, runner, conv, c');
            TakeTurn(l, l.runner, output, now) == if again then Go(l') else Exit(l', None)
  {
    ghost var l := Snapshot(agent, runner, conv, c);
    var totalTurns := c.totalTurns + SaturatingSub(runner.turns, c.accounted);
    var accounted := runner.turns;
    var isDone := agent.host.TurnIsDone(runner.View());
    var historyLen, replaceInput := AppendRunnerHistory(conv, output.chat, c.historyLen, c.replaceInput);
    conv.status := if output.failed.Some? then Failed else if isDone then Completed else Working;
    conv.usage := output.usage;
    conv.updatedAt := now;
    if output.failed.Some? {
      conv.failedReason := Some(Reported(output.failed.value));
    } else {
      conv.failedReason := agent.host.OnTurnSuccess(conv.failedReason);
      agent.PushCompletedHistory(conv, COMPLETED_RING);
    }
    assert conv.View() == TurnConversation(l, l.runner, output, now);
    var unpersisted := c.unpersisted + 1;
    if conv.status != Working || unpersisted >= PERSIST_EVERY_N_TURNS {
      agent.PersistSnapshot(conv);
      unpersisted := 0;
    }
    c' := Counters(totalTurns, accounted, historyLen, replaceInput, unpersisted);
    assert c' == TurnCounters(l, l.runner, output, conv.View());
    if conv.status == Failed {
      again := false;
      return;
    }
    var (host, next, goOn) := agent.host.AfterTurn(runner.View(), isDone);
    again := goOn;
    if again {
      agent.host := host;
      runner.Become(next);
    }
  }

  /** One pass of the loop body. */
  method Pass(agent: HostAgent, runner: CompletionRunner, conv: ConversationRecord, c: Counters, started: nat, tick: Tick)
    returns (c': Counters, again: bool, failure: Option<Reason>)
    modifies agent, runner, conv
    ensures Iterate(old(Snapshot(agent, runner, conv, c)), started, tick)
         == var l' := Snapshot(agent, runner, conv, c'); if again then Go(l') else Exit(l', failure)
  {
    c', again := c, false;
    failure := Budget(c.totalTurns, started, tick.now);
    if failure.Some? {
      return;
    }
    var compacted := CompactRunnerIfNeeded(runner, tick.crowded, tick.handoff);
    if compacted.Err? {
      failure := Some(RunnerError(compacted.error));
      return;
    }
    if compacted.value {
      c' := Counters(c.totalTurns + 1, runner.turns, 0, false, c.unpersisted);
    }
    assert Compact(old(Snapshot(agent, runner, conv, c)), tick) == Go(Snapshot(agent, runner, conv, c'));
    var answer := runner.Next(tick.next);
    if answer.Err? {
      failure := Some(RunnerError(answer.error));
      return;
    }
    if answer.value.None? {
      return;
    }
    c', again := HandleOutput(agent, runner, conv, answer.value.value, tick.after, c');
  }

  method DriveRunnerLoop(agent: HostAgent, runner: CompletionRunner, conv: ConversationRecord,
                         started: nat, env: nat -> Tick)
    returns (c: Counters)
    modifies agent, runner, conv
    ensures Snapshot(agent, runner, conv, c) == Drive(old(Snapshot(agent, runner, conv, FRESH)), started, env, 0)
  {
    c := FRESH;
    var k, again := 0, true;
    var failure: Option<Reason> := None;
    ghost var head := Snapshot(agent, runner, conv, c);
    while again
      invariant Counting(head)
      invariant Drive(old(Snapshot(agent, runner, conv, FRESH)), started, env, 0) == Drive(head, started, env, k)
      invariant again ==> head == Snapshot(agent, runner, conv, c)
      invariant !again ==> Iterate(head, started, env(k)) == Exit(Snapshot(agent, runner, conv, c), failure)
      decreases again, SaturatingSub(RUNNER_MAX_MODEL_TURNS, c.totalTurns)
    {
      c, again, failure := Pass(agent, runner, conv, c, started, env(k));
      if again {
        IterateAdvances(head, started, env(k));
        head := Snapshot(agent, runner, conv, c);
        k := k + 1;
      }
    }
    var now := env(k).after;
    if failure.Some? {
      conv.usage := runner.total;
      agent.MarkFailed(conv, failure.value, now);
    }
    if c.unpersisted > 0 && conv.status == Working {
      agent.PersistSnapshot(conv);
    }
  }
}
