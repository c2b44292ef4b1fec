/** Which calls a run makes, turn by turn, read off the timeline and the driver's replies. */
module EvalCalls {
  import opened Prelude
  import opened Text
  import opened EvalTimeline
  import opened EvalRun
  import opened EvalValidation
  import opened EvalRunProofs

  // ---- When maintenance runs ----

  /** The turn added a maintenance call, its own or one of the cadence. */
  ghost predicate Maintains(d: Driver, s: Scenario, p: Profile, phase: Phase, fork: seq<FormationCall>, turns: seq<Turn>, k: nat)
    requires k < |turns|
  {
    MaintainCalls(Replay(d, s, p, phase, fork, turns, k).policy) < MaintainCalls(Replay(d, s, p, phase, fork, turns, k + 1).policy)
  }

  /** How many turns there are up to the newest that added a maintenance call, none when there is none. */
  ghost function Newest(d: Driver, s: Scenario, p: Profile, phase: Phase, fork: seq<FormationCall>, turns: seq<Turn>, n: nat): (r: nat)
    requires n <= |turns|
    ensures r <= n
  {
    if n == 0 then 0
    else if Maintains(d, s, p, phase, fork, turns, n - 1) then n
    else Newest(d, s, p, phase, fork, turns, n - 1)
  }

  /** The user turns since the newest maintenance call, or since the start. */
  ghost function UsersSince(d: Driver, s: Scenario, p: Profile, phase: Phase, fork: seq<FormationCall>, turns: seq<Turn>, n: nat): int
    requires n <= |turns|
  {
    Users(turns, n) - Users(turns, Newest(d, s, p, phase, fork, turns, n))
  }

  /** The counter before and after a turn, and the maintenance calls the turn makes. */
  lemma CounterMoves(d: Driver, s: Scenario, p: Profile, phase: Phase, fork: seq<FormationCall>, run: Run, turn: Turn)
    requires !phase.FormationOnly? && run.failure.None? && Step(d, s, p, phase, fork, run, turn).failure.None?
    ensures var after := Step(d, s, p, phase, fork, run, turn);
            match turn.kind
            case Maintenance => after.sinceMaintenance == 0 && MaintainCalls(after.policy) == MaintainCalls(run.policy) + 1
            case Normal => UserCounter(p, run, after)
            case Simulated => UserCounter(p, run, after)
            case _ => after.sinceMaintenance == run.sinceMaintenance && MaintainCalls(after.policy) == MaintainCalls(run.policy)
  {
    if turn.kind.Maintenance? {
      MaintenanceCounts(d, run, turn);
    } else if turn.kind.IsCheckpoint() {
      CheckpointCounts(d, s, p, Memory(phase, fork, run), run, turn);
    } else {
      AppendPolicy(run.policy, Maintain(MaintenanceInput(Threshold, p.scope, turn.timestamp)));
    }
  }

  predicate UserCounter(p: Profile, run: Run, after: Run) {
    if p.maintenanceEvery.Some? && p.maintenanceEvery.value > 0 && run.sinceMaintenance + 1 >= p.maintenanceEvery.value
    then after.sinceMaintenance == 0 && MaintainCalls(after.policy) == MaintainCalls(run.policy) + 1
    else after.sinceMaintenance == run.sinceMaintenance + 1 && after.policy == run.policy
  }

  /** The counter is the number of user turns since the newest maintenance call. */
  ghost predicate CounterIsExact(d: Driver, s: Scenario, p: Profile, phase: Phase, fork: seq<FormationCall>, turns: seq<Turn>, n: nat)
    requires n <= |turns|
  {
    Replay(d, s, p, phase, fork, turns, n).sinceMaintenance == UsersSince(d, s, p, phase, fork, turns, n)
  }

  lemma FineBefore(d: Driver, s: Scenario, p: Profile, phase: Phase, fork: seq<FormationCall>, turns: seq<Turn>, n: nat)
    requires 0 < n <= |turns| && Replay(d, s, p, phase, fork, turns, n).failure.None?
    ensures Replay(d, s, p, phase, fork, turns, n - 1).failure.None?
  {
  }

  lemma CounterNext(d: Driver, s: Scenario, p: Profile, phase: Phase, fork: seq<FormationCall>, turns: seq<Turn>, n: nat)
    requires 0 < n <= |turns| && !phase.FormationOnly? && Replay(d, s, p, phase, fork, turns, n).failure.None?
    requires CounterIsExact(d, s, p, phase, fork, turns, n - 1)
    ensures CounterIsExact(d, s, p, phase, fork, turns, n)
  {
    FineBefore(d, s, p, phase, fork, turns, n);
    CounterMoves(d, s, p, phase, fork, Replay(d, s, p, phase, fork, turns, n - 1), turns[n - 1]);
  }

  lemma {:induction false} CounterAlways(d: Driver, s: Scenario, p: Profile, phase: Phase, fork: seq<FormationCall>, turns: seq<Turn>, n: nat)
    requires n <= |turns| && !phase.FormationOnly? && Replay(d, s, p, phase, fork, turns, n).failure.None?
    ensures CounterIsExact(d, s, p, phase, fork, turns, n)
  {
    if n > 0 {
      FineBefore(d, s, p, phase, fork, turns, n);
      CounterAlways(d, s, p, phase, fork, turns, n - 1);
      CounterNext(d, s, p, phase, fork, turns, n);
    }
  }

  /** In every run that has not failed, with maintenance turns or without, a maintenance call is made at a turn if and
      only if it is a maintenance turn, or a user turn with which the user turns since the newest maintenance call of
      either kind reach the cadence. */
  lemma CadenceIsExact(d: Driver, s: Scenario, p: Profile, phase: Phase, fork: seq<FormationCall>, turns: seq<Turn>, u: nat)
    requires u < |turns| && !phase.FormationOnly? && Replay(d, s, p, phase, fork, turns, u + 1).failure.None?
    ensures Maintains(d, s, p, phase, fork, turns, u)
       <==> || turns[u].kind.Maintenance?
            || (turns[u].kind.IsUser() && p.maintenanceEvery.Some? && p.maintenanceEvery.value > 0
                && UsersSince(d, s, p, phase, fork, turns, u) + 1 >= p.maintenanceEvery.value)
  {
    FineBefore(d, s, p, phase, fork, turns, u + 1);
    CounterAlways(d, s, p, phase, fork, turns, u);
    CounterMoves(d, s, p, phase, fork, Replay(d, s, p, phase, fork, turns, u), turns[u]);
  }

  // ---- What the calls say ----

  /** The turn's own context goes before the scenario's. */
  predicate IsContext(context: Option<string>, s: Scenario, turn: Turn) {
    && (turn.context.Some? ==> context == turn.context)
    && (turn.context.None? ==> context == s.defaultContext)
  }

  /** The turn's messages go before its single line. */
  predicate IsInput(input: Input, turn: Turn) {
    || (turn.messages != [] && input == Several(turn.messages))
    || (turn.messages == [] && turn.user.Some? && input == Single(turn.user.value))
  }

  /** An explicit query goes before what the user says, and that before the first message. */
  predicate IsQuery(query: Utterance, turn: Turn) {
    var explicit := turn.query.Some? && Trim(turn.query.value) != [];
    var said := turn.user.Some? && (turn.user.value.Chatter? || Trim(turn.user.value.text) != []);
    && (explicit ==> query == Typed(turn.query.value))
    && (!explicit && said ==> Some(query) == turn.user)
    && (!explicit && !said ==> turn.messages != [] && turn.messages[0].text.Some? && query == Typed(turn.messages[0].text.value))
  }

  /** A maintenance call carries the turn's own input, or that of a daydream without a trigger; one of the cadence the
      profile's scope and the threshold trigger. */
  lemma MaintenanceCallSays(d: Driver, s: Scenario, p: Profile, phase: Phase, fork: seq<FormationCall>, run: Run, turn: Turn)
    requires !phase.FormationOnly? && run.failure.None? && Step(d, s, p, phase, fork, run, turn).failure.None?
    ensures var after := Step(d, s, p, phase, fork, run, turn);
            && (turn.kind.Maintenance? && turn.maintenance.Some? ==> after.policy == run.policy + [Maintain(turn.maintenance.value)])
            && (turn.kind.Maintenance? && turn.maintenance.None? ==>
                  after.policy == run.policy + [Maintain(MaintenanceInput(Unset, Daydream, turn.timestamp))])
            && (turn.kind.IsUser() ==>
                  || after.policy == run.policy
                  || after.policy == run.policy + [Maintain(MaintenanceInput(Threshold, p.scope, turn.timestamp))])
  {
  }

  function Times<T>(n: nat, item: T): seq<T> {
    seq(n, _ => item)
  }

  /** Each of the calls in a row was answered, in order. */
  ghost predicate Replied(d: Driver, memory: seq<FormationCall>, calls: seq<PolicyCall>, call: PolicyCall, answers: seq<string>) {
    forall i :: 0 <= i < |answers| ==> d.recall(memory, calls + Times(i + 1, call)) == Some(answers[i])
  }

  lemma {:induction false} SamplesRepeat(d: Driver, memory: seq<FormationCall>, call: PolicyCall, calls: seq<PolicyCall>, n: nat)
    requires Samples(d, memory, call, calls, n).failure.None?
    ensures Samples(d, memory, call, calls, n).calls == calls + Times(n, call)
    ensures Replied(d, memory, calls, call, Samples(d, memory, call, calls, n).answers)
  {
    if n == 0 {
      assert calls + Times(0, call) == calls;
    } else {
      SamplesRepeat(d, memory, call, calls, n - 1);
      assert calls + Times(n, call) == calls + Times(n - 1, call) + [call];
    }
  }

  /** A checkpoint asks its query as often as the profile wants samples, at least once, over the memory it reads, and
      keeps the replies in order. */
  lemma CheckpointSays(d: Driver, s: Scenario, p: Profile, phase: Phase, fork: seq<FormationCall>, run: Run, turn: Turn)
    returns (query: Utterance, context: Option<string>, answers: seq<string>, memory: seq<FormationCall>)
    requires turn.kind.IsCheckpoint() && !phase.FormationOnly? && run.failure.None?
    requires Step(d, s, p, phase, fork, run, turn).failure.None?
    ensures IsQuery(query, turn) && IsContext(context, s, turn)
    ensures |answers| >= 1 && |answers| >= p.checkpointSamples && (|answers| == 1 || |answers| == p.checkpointSamples)
    ensures memory == if phase.PolicyOnly? then fork else run.formation
    ensures Replied(d, memory, run.policy, Recall(query, context), answers)
    ensures var after := Step(d, s, p, phase, fork, run, turn);
            && after.policy == run.policy + Times(|answers|, Recall(query, context))
            && after.answers == run.answers + answers
            && after.trail == run.trail + [Point(turn.id, d.digest(memory, after.policy, turn, answers).satisfaction)]
  {
    query, context, memory := CheckpointQuery(turn).value, TurnContext(s, turn), Memory(phase, fork, run);
    SamplesRepeat(d, memory, Recall(query, context), run.policy, SampleCount(p));
    answers := Checkpointed(d, s, p, memory, turn, run.policy).answers;
  }

  /** A user turn is remembered with its context and time: what it says itself, or what the simulator writes for it,
      trimmed, when told the hidden profile, the intent, the latest lines and the five latest ratings. */
  lemma MemorySays(d: Driver, s: Scenario, p: Profile, phase: Phase, fork: seq<FormationCall>, run: Run, turn: Turn)
    returns (input: Input, context: Option<string>)
    requires turn.kind.IsUser() && !phase.PolicyOnly? && run.failure.None? && Step(d, s, p, phase, fork, run, turn).failure.None?
    ensures IsContext(context, s, turn)
    ensures var after := Step(d, s, p, phase, fork, run, turn);
            if turn.kind.Normal?
            then IsInput(input, turn) && after.formation == run.formation + [Remember(input, context, turn.timestamp)]
            else
              && turn.intent.Some?
              && var trail := if |run.trail| > 5 then run.trail[|run.trail| - 5..] else run.trail;
              && var asked := run.formation + [Complete(Prompt(s.hiddenProfile, turn.intent.value, run.transcript, trail))];
              && d.complete(asked).Some? && Trim(d.complete(asked).value) != []
              && input == Single(Typed(Trim(d.complete(asked).value)))
              && after.formation == asked + [Remember(input, context, turn.timestamp)]
  {
    context := TurnContext(s, turn);
    if turn.kind.Normal? {
      input := TurnInput(turn).value;
    } else {
      var asked := run.formation + [Complete(Prompt(s.hiddenProfile, turn.intent.value, run.transcript, Last(run.trail, TRAIL_TAIL)))];
      input := Single(Typed(Trim(d.complete(asked).value)));
    }
  }
}
