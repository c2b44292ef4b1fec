/**
 Replaying a scenario: the whole timeline, only its formation half, or only its policy half over memory
 that was formed before.

 The driver is two halves. What formation answers depends on the formation calls made so far; what
 maintenance answers depends on the policy calls made so far; what recall answers, and what the judge and
 the probes make of it, depends on both, on the formation calls because they are what the memory holds.
 */
module EvalRun {
  import opened Prelude
  import opened Text
  import opened EvalTimeline

  const TRANSCRIPT_TAIL := 12
  const TRAIL_TAIL := 5

  datatype Phase = Full | FormationOnly | PolicyOnly

  datatype Profile = Profile(maintenanceEvery: Option<nat>, scope: Scope, checkpointSamples: nat)

  datatype Line = Said(words: Utterance) | Answered(text: string)

  datatype Point = Point(turn: nat, satisfaction: real)

  datatype Prompt = Prompt(profile: string, intent: string, transcript: seq<Line>, trail: seq<Point>)

  datatype Input = Several(messages: seq<Message>) | Single(words: Utterance)

  datatype FormationCall =
    | Complete(prompt: Prompt)
    | Remember(input: Input, context: Option<string>, timestamp: Option<string>)

  datatype PolicyCall = Maintain(input: MaintenanceInput) | Recall(query: Utterance, context: Option<string>)

  datatype Verdict = Verdict(satisfaction: real, answer: string)

  /** The reply to the last call of a history; no reply is an error. */
  datatype Driver = Driver(
    complete: seq<FormationCall> -> Option<string>,
    remember: seq<FormationCall> -> bool,
    maintain: seq<PolicyCall> -> bool,
    recall: (seq<FormationCall>, seq<PolicyCall>) -> Option<string>,
    digest: (seq<FormationCall>, seq<PolicyCall>, Turn, seq<string>) -> Verdict)

  datatype Failure = MissingMessages | MissingIntent | MissingQuery | EmptySimulatedMessage | DriverError

  datatype Run = Run(
    formation: seq<FormationCall>,
    policy: seq<PolicyCall>,
    answers: seq<string>,
    transcript: seq<Line>,
    trail: seq<Point>,
    sinceMaintenance: nat,
    failure: Option<Failure>)

  const START := Run([], [], [], [], [], 0, None)

  // ---- Turns ----

  function Last<T>(items: seq<T>, count: nat): seq<T> {
    if |items| > count then items[|items| - count..] else items
  }

  function TurnInput(turn: Turn): Option<Input> {
    if turn.messages != [] then Some(Several(turn.messages))
    else match turn.user case None => None case Some(words) => Some(Single(words))
  }

  predicate Blank(words: Utterance) {
    words.Typed? && Trim(words.text) == []
  }

  function CheckpointQuery(turn: Turn): Option<Utterance> {
    if turn.query.Some? && Trim(turn.query.value) != [] then Some(Typed(turn.query.value))
    else if turn.user.Some? && !Blank(turn.user.value) then turn.user
    else if turn.messages != [] && turn.messages[0].text.Some? then Some(Typed(turn.messages[0].text.value))
    else None
  }

  function TurnContext(s: Scenario, turn: Turn): Option<string> {
    if turn.context.Some? then turn.context else s.defaultContext
  }

  datatype Encoded = Encoded(calls: seq<FormationCall>, message: Option<string>, failure: Option<Failure>)

  /** A user turn is remembered; a simulated one is written first. */
  function Encode(d: Driver, s: Scenario, turn: Turn, calls: seq<FormationCall>, transcript: seq<Line>,
                  trail: seq<Point>): Encoded
  {
    if turn.kind.Simulated? then
      if turn.intent.None? then Encoded(calls, None, Some(MissingIntent)) else
      var prompt := Prompt(s.hiddenProfile, turn.intent.value, transcript, Last(trail, TRAIL_TAIL));
      var asked := calls + [Complete(prompt)];
      match d.complete(asked)
      case None => Encoded(asked, None, Some(DriverError))
      case Some(text) =>
        var message := Trim(text);
        if message == [] then Encoded(asked, None, Some(EmptySimulatedMessage)) else
        Remembered(d, asked, Some(message), Remember(Single(Typed(message)), TurnContext(s, turn), turn.timestamp))
    else
      match TurnInput(turn)
      case None => Encoded(calls, None, Some(MissingMessages))
      case Some(input) => Remembered(d, calls, None, Remember(input, TurnContext(s, turn), turn.timestamp))
  }

  function Remembered(d: Driver, calls: seq<FormationCall>, message: Option<string>, call: FormationCall): Encoded {
    var asked := calls + [call];
    Encoded(asked, message, if d.remember(asked) then None else Some(DriverError))
  }

  /** The line a user turn adds to the conversation. */
  function Heard(turn: Turn, message: Option<string>): seq<Line> {
    if message.Some? then [Said(Typed(message.value))]
    else if turn.user.Some? then [Said(turn.user.value)]
    else if turn.messages != [] && JoinWords(turn.messages[0].texts) != [] then
      [Said(Typed(JoinWords(turn.messages[0].texts)))]
    else []
  }

  function Pushed(transcript: seq<Line>, turn: Turn, message: Option<string>): seq<Line> {
    Last(transcript + Heard(turn, message), TRANSCRIPT_TAIL)
  }

  datatype Cared = Cared(calls: seq<PolicyCall>, sinceMaintenance: nat, failure: Option<Failure>)

  function Maintained(d: Driver, calls: seq<PolicyCall>, input: MaintenanceInput): Cared {
    var asked := calls + [Maintain(input)];
    Cared(asked, 0, if d.maintain(asked) then None else Some(DriverError))
  }

  /** Every so many user turns, a maintenance cycle. */
  function Cadence(d: Driver, p: Profile, turn: Turn, calls: seq<PolicyCall>, sinceMaintenance: nat): Cared {
    var since := sinceMaintenance + 1;
    if p.maintenanceEvery.Some? && p.maintenanceEvery.value > 0 && since >= p.maintenanceEvery.value then
      Maintained(d, calls, MaintenanceInput(Threshold, p.scope, turn.timestamp))
    else Cared(calls, since, None)
  }

  function TurnMaintenance(turn: Turn): MaintenanceInput {
    if turn.maintenance.Some? then turn.maintenance.value else MaintenanceInput(Unset, Daydream, turn.timestamp)
  }

  datatype Sampled = Sampled(calls: seq<PolicyCall>, answers: seq<string>, failure: Option<Failure>)

  /** `count` recalls of the same query, one after the other, up to the first error. */
  function Samples(d: Driver, memory: seq<FormationCall>, call: PolicyCall, calls: seq<PolicyCall>, count: nat): (r: Sampled)
    ensures r.failure.None? ==> |r.answers| == count
  {
    if count == 0 then Sampled(calls, [], None) else
    var before := Samples(d, memory, call, calls, count - 1);
    if before.failure.Some? then before else
    var asked := before.calls + [call];
    match d.recall(memory, asked)
    case None => Sampled(asked, before.answers, Some(DriverError))
    case Some(answer) => Sampled(asked, before.answers + [answer], None)
  }

  function SampleCount(p: Profile): nat {
    if p.checkpointSamples > 1 then p.checkpointSamples else 1
  }

  function Checkpointed(d: Driver, s: Scenario, p: Profile, memory: seq<FormationCall>, turn: Turn,
                        calls: seq<PolicyCall>): (r: Sampled)
    ensures r.failure.None? ==> |r.answers| == SampleCount(p)
  {
    match CheckpointQuery(turn)
    case None => Sampled(calls, [], Some(MissingQuery))
    case Some(query) => Samples(d, memory, Recall(query, TurnContext(s, turn)), calls, SampleCount(p))
  }

  // ---- The replay ----

  /** The formation part of a user turn. */
  function FormStep(d: Driver, s: Scenario, run: Run, turn: Turn): Run {
    var e := Encode(d, s, turn, run.formation, run.transcript, run.trail);
    if e.failure.Some? then run.(formation := e.calls, failure := e.failure)
    else run.(formation := e.calls,
              transcript := if turn.noise then run.transcript else Pushed(run.transcript, turn, e.message))
  }

  /** The policy part of a user turn. */
  function CadenceStep(d: Driver, p: Profile, run: Run, turn: Turn): Run {
    var c := Cadence(d, p, turn, run.policy, run.sinceMaintenance);
    run.(policy := c.calls, sinceMaintenance := c.sinceMaintenance, failure := c.failure)
  }

  function MaintenanceStep(d: Driver, run: Run, turn: Turn): Run {
    var c := Maintained(d, run.policy, TurnMaintenance(turn));
    run.(policy := c.calls, sinceMaintenance := c.sinceMaintenance, failure := c.failure)
  }

  function CheckpointStep(d: Driver, s: Scenario, p: Profile, memory: seq<FormationCall>, run: Run, turn: Turn): Run {
    var c := Checkpointed(d, s, p, memory, turn, run.policy);
    if c.failure.Some? then run.(policy := c.calls, failure := c.failure) else
    var verdict := d.digest(memory, c.calls, turn, c.answers);
    run.(policy := c.calls,
         answers := run.answers + c.answers,
         trail := run.trail + [Point(turn.id, verdict.satisfaction)],
         transcript := Last(run.transcript + [Answered(verdict.answer)], TRANSCRIPT_TAIL))
  }

  /** What recall reads: the memory this run forms, or the fork it was given. */
  function Memory(phase: Phase, fork: seq<FormationCall>, run: Run): seq<FormationCall> {
    if phase.PolicyOnly? then fork else run.formation
  }

  function Step(d: Driver, s: Scenario, p: Profile, phase: Phase, fork: seq<FormationCall>, run: Run, turn: Turn): Run {
    if run.failure.Some? then run
    else if turn.kind.IsUser() then
      var formed := if phase.PolicyOnly? then run else FormStep(d, s, run, turn);
      if formed.failure.Some? || phase.FormationOnly? then formed else CadenceStep(d, p, formed, turn)
    else if phase.FormationOnly? then run
    else if turn.kind.Maintenance? then MaintenanceStep(d, run, turn)
    else CheckpointStep(d, s, p, Memory(phase, fork, run), run, turn)
  }

  function Replay(d: Driver, s: Scenario, p: Profile, phase: Phase, fork: seq<FormationCall>, turns: seq<Turn>, n: nat): Run
    requires n <= |turns|
  {
    if n == 0 then START
    else Step(d, s, p, phase, fork, Replay(d, s, p, phase, fork, turns, n - 1), turns[n - 1])
  }

  function RunOf(d: Driver, s: Scenario, p: Profile, phase: Phase, fork: seq<FormationCall>): Run {
    Replay(d, s, p, phase, fork, Effective(s), |Effective(s)|)
  }

  lemma {:induction false} FailureIsFinal(d: Driver, s: Scenario, p: Profile, phase: Phase, fork: seq<FormationCall>,
                                          turns: seq<Turn>, i: nat, n: nat)
    requires i <= n <= |turns| && Replay(d, s, p, phase, fork, turns, i).failure.Some?
    ensures Replay(d, s, p, phase, fork, turns, n) == Replay(d, s, p, phase, fork, turns, i)
  {
    if i < n { FailureIsFinal(d, s, p, phase, fork, turns, i, n - 1); }
  }

  /** The recalls of one checkpoint. */
  method RunCheckpoint(d: Driver, s: Scenario, p: Profile, memory: seq<FormationCall>, turn: Turn, policy: seq<PolicyCall>)
    returns (r: Sampled)
    ensures r == Checkpointed(d, s, p, memory, turn, policy)
  {
    var query := CheckpointQuery(turn);
    match query {
      case None => return Sampled(policy, [], Some(MissingQuery));
      case Some(text) =>
        var input := Recall(text, TurnContext(s, turn));
        var calls, answers := policy, [];
        for i := 0 to SampleCount(p)
          invariant Sampled(calls, answers, None) == Samples(d, memory, input, policy, i)
        {
          calls := calls + [input];
          var output := d.recall(memory, calls);
          match output {
            case None =>
              r := Sampled(calls, answers, Some(DriverError));
              SamplesFail(d, memory, input, policy, i + 1, SampleCount(p));
              return;
            case Some(answer) => answers := answers + [answer];
          }
        }
        return Sampled(calls, answers, None);
    }
  }

  lemma {:induction false} SamplesFail(d: Driver, memory: seq<FormationCall>, call: PolicyCall, calls: seq<PolicyCall>, i: nat, n: nat)
    requires i <= n && Samples(d, memory, call, calls, i).failure.Some?
    ensures Samples(d, memory, call, calls, n) == Samples(d, memory, call, calls, i)
  {
    if i < n { SamplesFail(d, memory, call, calls, i, n - 1); }
  }

  /** The run after the first `n` turns. */
  ghost predicate ReplayedTo(d: Driver, s: Scenario, p: Profile, phase: Phase, fork: seq<FormationCall>, turns: seq<Turn>, n: nat, run: Run)
    requires n <= |turns|
  {
    run == Replay(d, s, p, phase, fork, turns, n)
  }

  lemma ReplayedNext(d: Driver, s: Scenario, p: Profile, phase: Phase, fork: seq<FormationCall>, turns: seq<Turn>, n: nat, run: Run)
    requires n < |turns| && ReplayedTo(d, s, p, phase, fork, turns, n, run)
    ensures ReplayedTo(d, s, p, phase, fork, turns, n + 1, Step(d, s, p, phase, fork, run, turns[n]))
  {
  }

  lemma ReplayedFailure(d: Driver, s: Scenario, p: Profile, phase: Phase, fork: seq<FormationCall>, turns: seq<Turn>, n: nat, run: Run)
    requires n <= |turns| && ReplayedTo(d, s, p, phase, fork, turns, n, run) && run.failure.Some?
    ensures ReplayedTo(d, s, p, phase, fork, turns, |turns|, run)
  {
    FailureIsFinal(d, s, p, phase, fork, turns, n, |turns|);
  }

  method RunTimeline(d: Driver, s: Scenario, p: Profile, phase: Phase, fork: seq<FormationCall>) returns (run: Run)
    ensures run == RunOf(d, s, p, phase, fork)
  {
    var timeline := EffectiveTimeline(s);
    run := RunTurns(d, s, p, phase, fork, timeline);
  }

  method RunTurns(d: Driver, s: Scenario, p: Profile, phase: Phase, fork: seq<FormationCall>, timeline: seq<Turn>) returns (run: Run)
    ensures ReplayedTo(d, s, p, phase, fork, timeline, |timeline|, run)
  {
    run := START;
    for i := 0 to |timeline|
      invariant ReplayedTo(d, s, p, phase, fork, timeline, i, run) && run.failure.None?
    {
      ReplayedNext(d, s, p, phase, fork, timeline, i, run);
      run := RunTurn(d, s, p, phase, fork, run, timeline[i]);
      if run.failure.Some? {
        ReplayedFailure(d, s, p, phase, fork, timeline, i + 1, run);
        return;
      }
    }
  }

  method RunTurn(d: Driver, s: Scenario, p: Profile, phase: Phase, fork: seq<FormationCall>, before: Run, turn: Turn)
    returns (run: Run)
    requires before.failure.None?
    ensures run == Step(d, s, p, phase, fork, before, turn)
  {
    run := before;
    if turn.kind.IsUser() {
      if phase != PolicyOnly {
        run := FormStep(d, s, run, turn);
        if run.failure.Some? {
          return;
        }
      }
      if phase != FormationOnly {
        run := CadenceStep(d, p, run, turn);
      }
    } else if phase == FormationOnly {
      return;
    } else if turn.kind.Maintenance? {
      run := MaintenanceStep(d, run, turn);
    } else {
      var sampled := RunCheckpoint(d, s, p, Memory(phase, fork, run), turn, run.policy);
      if sampled.failure.Some? {
        return run.(policy := sampled.calls, failure := sampled.failure);
      }
      var verdict := d.digest(Memory(phase, fork, run), sampled.calls, turn, sampled.answers);
      run := run.(policy := sampled.calls,
                  answers := run.answers + sampled.answers,
                  trail := run.trail + [Point(turn.id, verdict.satisfaction)],
                  transcript := Last(run.transcript + [Answered(verdict.answer)], TRANSCRIPT_TAIL));
    }
  }

  // ---- Shared formation is faithful ----

  /** The interleaved run agrees with the two halves. */
  ghost predicate Agrees(full: Run, form: Run, pol: Run) {
    && (full.failure.Some? <==> form.failure.Some? || pol.failure.Some?)
    && (full.failure.None? ==> full.formation == form.formation && full.policy == pol.policy
                               && full.answers == pol.answers && full.trail == pol.trail
                               && full.sinceMaintenance == pol.sinceMaintenance)
  }

  /** With no checkpoint so far, the simulator has seen the same in both. */
  ghost predicate SeesAlike(full: Run, form: Run) {
    full.failure.None? ==> full.transcript == form.transcript && full.trail == form.trail
  }

  lemma UserStepAgrees(d: Driver, s: Scenario, p: Profile, fork: seq<FormationCall>, full: Run, form: Run, pol: Run, turn: Turn)
    requires turn.kind.IsUser() && Agrees(full, form, pol) && SeesAlike(full, form)
    ensures Agrees(Step(d, s, p, Full, [], full, turn), Step(d, s, p, FormationOnly, [], form, turn),
                   Step(d, s, p, PolicyOnly, fork, pol, turn))
    ensures SeesAlike(Step(d, s, p, Full, [], full, turn), Step(d, s, p, FormationOnly, [], form, turn))
  {
  }

  lemma PolicyStepAgrees(d: Driver, s: Scenario, p: Profile, fork: seq<FormationCall>, full: Run, form: Run, pol: Run, turn: Turn)
    requires !turn.kind.IsUser() && Agrees(full, form, pol)
    requires turn.kind.IsCheckpoint() && full.failure.None? ==> full.formation == fork
    ensures Agrees(Step(d, s, p, Full, [], full, turn), Step(d, s, p, FormationOnly, [], form, turn),
                   Step(d, s, p, PolicyOnly, fork, pol, turn))
    ensures !turn.kind.IsCheckpoint() && SeesAlike(full, form) ==>
              SeesAlike(Step(d, s, p, Full, [], full, turn), Step(d, s, p, FormationOnly, [], form, turn))
  {
  }

  /** Without user turns, nothing more is formed. */
  lemma {:induction false} NothingMoreIsFormed(d: Driver, s: Scenario, p: Profile, turns: seq<Turn>, i: nat, n: nat)
    requires i <= n <= |turns| && forall u :: i <= u < n ==> !turns[u].kind.IsUser()
    ensures Replay(d, s, p, FormationOnly, [], turns, n).formation == Replay(d, s, p, FormationOnly, [], turns, i).formation
  {
    if i < n { NothingMoreIsFormed(d, s, p, turns, i, n - 1); }
  }

  lemma {:induction false} HalvesAgree(d: Driver, s: Scenario, p: Profile, turns: seq<Turn>, fork: seq<FormationCall>, n: nat)
    requires n <= |turns| && UserTurnsFirst(turns)
    requires fork == Replay(d, s, p, FormationOnly, [], turns, |turns|).formation
    ensures Agrees(Replay(d, s, p, Full, [], turns, n), Replay(d, s, p, FormationOnly, [], turns, n),
                   Replay(d, s, p, PolicyOnly, fork, turns, n))
    ensures CheckpointBefore(turns, n)
            || SeesAlike(Replay(d, s, p, Full, [], turns, n), Replay(d, s, p, FormationOnly, [], turns, n))
  {
    if n > 0 {
      var full, form, pol := Replay(d, s, p, Full, [], turns, n - 1), Replay(d, s, p, FormationOnly, [], turns, n - 1),
                             Replay(d, s, p, PolicyOnly, fork, turns, n - 1);
      var turn := turns[n - 1];
      HalvesAgree(d, s, p, turns, fork, n - 1);
      if turn.kind.IsUser() {
        UserStepAgrees(d, s, p, fork, full, form, pol, turn);
      } else {
        if turn.kind.IsCheckpoint() { NothingMoreIsFormed(d, s, p, turns, n - 1, |turns|); }
        PolicyStepAgrees(d, s, p, fork, full, form, pol, turn);
      }
    }
  }

  /** A scenario without shared-formation issues can be split: the interleaved run makes the formation calls
      of the formation half, prompts included, and the policy calls of the policy half over that memory, with
      the same answers and satisfaction; and it completes exactly when both halves do. */
  lemma SharedFormationIsFaithful(d: Driver, s: Scenario, p: Profile)
    requires SharedIssues(s) == []
    ensures var form := RunOf(d, s, p, FormationOnly, []);
            Agrees(RunOf(d, s, p, Full, []), form, RunOf(d, s, p, PolicyOnly, form.formation))
  {
    SharedIssuesExact(s);
    HalvesAgree(d, s, p, Effective(s), RunOf(d, s, p, FormationOnly, []).formation, |Effective(s)|);
  }

  // ---- What a run needs ----

  /** The turn carries what its kind needs. */
  predicate Runnable(turn: Turn) {
    match turn.kind
    case Normal => TurnInput(turn).Some?
    case Simulated => turn.intent.Some?
    case Maintenance => true
    case _ => CheckpointQuery(turn).Some?
  }

  predicate AllRunnable(turns: seq<Turn>) {
    forall i :: 0 <= i < |turns| ==> Runnable(turns[i])
  }

  /** The driver never fails, and its simulator always writes something. */
  ghost predicate Reliable(d: Driver) {
    && (forall calls :: d.complete(calls).Some? && Trim(d.complete(calls).value) != [])
    && (forall calls :: d.remember(calls))
    && (forall calls :: d.maintain(calls))
    && (forall memory, calls :: d.recall(memory, calls).Some?)
  }

  lemma {:induction false} SamplesFailures(d: Driver, memory: seq<FormationCall>, call: PolicyCall, calls: seq<PolicyCall>, n: nat)
    ensures var r := Samples(d, memory, call, calls, n);
            r.failure == None || (r.failure == Some(DriverError) && !Reliable(d))
  {
    if n > 0 { SamplesFailures(d, memory, call, calls, n - 1); }
  }

  /** Nothing went wrong, or the driver is to blame. */
  ghost predicate OnlyByDriver(d: Driver, failure: Option<Failure>) {
    failure == None || (failure in {Some(DriverError), Some(EmptySimulatedMessage)} && !Reliable(d))
  }

  lemma FormFailsByDriver(d: Driver, s: Scenario, run: Run, turn: Turn)
    requires turn.kind.IsUser() && Runnable(turn) && run.failure.None?
    ensures OnlyByDriver(d, FormStep(d, s, run, turn).failure)
  {
  }

  lemma CheckpointFailsByDriver(d: Driver, s: Scenario, p: Profile, memory: seq<FormationCall>, run: Run, turn: Turn)
    requires turn.kind.IsCheckpoint() && Runnable(turn) && run.failure.None?
    ensures OnlyByDriver(d, CheckpointStep(d, s, p, memory, run, turn).failure)
  {
    SamplesFailures(d, memory, Recall(CheckpointQuery(turn).value, TurnContext(s, turn)), run.policy, SampleCount(p));
  }

  lemma StepFailsByDriver(d: Driver, s: Scenario, p: Profile, phase: Phase, fork: seq<FormationCall>, run: Run, turn: Turn)
    requires Runnable(turn) && OnlyByDriver(d, run.failure)
    ensures OnlyByDriver(d, Step(d, s, p, phase, fork, run, turn).failure)
  {
    if run.failure.None? {
      if turn.kind.IsUser() {
        FormFailsByDriver(d, s, run, turn);
      } else if turn.kind.IsCheckpoint() {
        CheckpointFailsByDriver(d, s, p, Memory(phase, fork, run), run, turn);
      }
    }
  }

  /** A scenario whose turns carry what they need fails only by its driver: in no phase does a run stop for
      missing messages, a missing intent or a missing query. */
  lemma {:induction false} OnlyTheDriverFails(d: Driver, s: Scenario, p: Profile, phase: Phase, fork: seq<FormationCall>,
                                              turns: seq<Turn>, n: nat)
    requires n <= |turns| && AllRunnable(turns)
    ensures OnlyByDriver(d, Replay(d, s, p, phase, fork, turns, n).failure)
  {
    if n > 0 {
      OnlyTheDriverFails(d, s, p, phase, fork, turns, n - 1);
      assert Runnable(turns[n - 1]);
      StepFailsByDriver(d, s, p, phase, fork, Replay(d, s, p, phase, fork, turns, n - 1), turns[n - 1]);
    }
  }

  // ---- And only such scenarios can be split ----

  /** An answer that tells how much had been formed. */
  function Tally(n: nat): string {
    seq(n, _ => '.')
  }

  /** A driver whose recall answers tell what it saw. */
  const COUNTING := Driver(
    _ => Some("ok"),
    _ => true,
    _ => true,
    (memory: seq<FormationCall>, calls: seq<PolicyCall>) => Some(Tally(|memory|)),
    (memory: seq<FormationCall>, calls: seq<PolicyCall>, turn: Turn, answers: seq<string>) => Verdict(0.0, ""))

  lemma CountingIsReliable()
    ensures Reliable(COUNTING)
  {
    assert COUNTING.complete([]).value == "ok";
    assert Trim("ok") == "ok";
  }

  lemma {:induction false} CountingSamples(memory: seq<FormationCall>, call: PolicyCall, calls: seq<PolicyCall>, n: nat)
    ensures var r := Samples(COUNTING, memory, call, calls, n);
            r.failure.None? && |r.answers| == n && forall i :: 0 <= i < n ==> |r.answers[i]| == |memory|
  {
    if n > 0 { CountingSamples(memory, call, calls, n - 1); }
  }

  /** With the counting driver, a checkpoint appends answers as long as the memory it reads. */
  lemma CountingCheckpoint(s: Scenario, p: Profile, phase: Phase, fork: seq<FormationCall>, run: Run, turn: Turn)
    requires turn.kind.IsCheckpoint() && Runnable(turn) && run.failure.None? && !phase.FormationOnly?
    ensures var after := Step(COUNTING, s, p, phase, fork, run, turn);
            && after.failure.None? && after.formation == run.formation
            && |after.answers| == |run.answers| + SampleCount(p)
            && run.answers <= after.answers
            && |after.answers[|run.answers|]| == |Memory(phase, fork, run)|
  {
    CountingSamples(Memory(phase, fork, run), Recall(CheckpointQuery(turn).value, TurnContext(s, turn)), run.policy, SampleCount(p));
  }

  lemma CountingStep(s: Scenario, p: Profile, phase: Phase, fork: seq<FormationCall>, run: Run, turn: Turn)
    requires Runnable(turn) && run.failure.None?
    ensures var after := Step(COUNTING, s, p, phase, fork, run, turn);
            && after.failure.None?
            && run.answers <= after.answers
            && |after.answers| == |run.answers| + (if turn.kind.IsCheckpoint() && !phase.FormationOnly? then SampleCount(p) else 0)
            && |after.formation| == |run.formation| + (if phase.PolicyOnly? then 0 else Weight(turn))
  {
    if turn.kind.IsCheckpoint() && !phase.FormationOnly? {
      CountingCheckpoint(s, p, phase, fork, run, turn);
    } else {
      CountingIsReliable();
    }
  }

  /** How many formation calls a turn makes. */
  function Weight(turn: Turn): nat {
    match turn.kind
    case Normal => 1
    case Simulated => 2
    case _ => 0
  }

  function Weights(turns: seq<Turn>, n: nat): nat
    requires n <= |turns|
  {
    if n == 0 then 0 else Weights(turns, n - 1) + Weight(turns[n - 1])
  }

  /** How many recalls the checkpoints make. */
  function Recalls(turns: seq<Turn>, p: Profile, n: nat): nat
    requires n <= |turns|
  {
    if n == 0 then 0 else Recalls(turns, p, n - 1) + if turns[n - 1].kind.IsCheckpoint() then SampleCount(p) else 0
  }

  lemma CountingNeverFails(s: Scenario, p: Profile, phase: Phase, fork: seq<FormationCall>, turns: seq<Turn>, n: nat)
    requires n <= |turns| && AllRunnable(turns)
    ensures Replay(COUNTING, s, p, phase, fork, turns, n).failure.None?
  {
    CountingIsReliable();
    OnlyTheDriverFails(COUNTING, s, p, phase, fork, turns, n);
  }

  lemma CountingNext(s: Scenario, p: Profile, phase: Phase, fork: seq<FormationCall>, turns: seq<Turn>, n: nat)
    requires 0 < n <= |turns| && AllRunnable(turns)
    ensures var run, after := Replay(COUNTING, s, p, phase, fork, turns, n - 1), Replay(COUNTING, s, p, phase, fork, turns, n);
            && run.answers <= after.answers
            && |after.answers| == |run.answers| + (if turns[n - 1].kind.IsCheckpoint() && !phase.FormationOnly? then SampleCount(p) else 0)
            && |after.formation| == |run.formation| + (if phase.PolicyOnly? then 0 else Weight(turns[n - 1]))
  {
    CountingNeverFails(s, p, phase, fork, turns, n - 1);
    assert Runnable(turns[n - 1]);
    CountingStep(s, p, phase, fork, Replay(COUNTING, s, p, phase, fork, turns, n - 1), turns[n - 1]);
  }

  lemma FormationNext(s: Scenario, p: Profile, phase: Phase, fork: seq<FormationCall>, turns: seq<Turn>, n: nat)
    requires 0 < n <= |turns| && AllRunnable(turns)
    ensures |Replay(COUNTING, s, p, phase, fork, turns, n).formation|
         == |Replay(COUNTING, s, p, phase, fork, turns, n - 1).formation| + (if phase.PolicyOnly? then 0 else Weight(turns[n - 1]))
  {
    CountingNext(s, p, phase, fork, turns, n);
  }

  lemma AnswersNext(s: Scenario, p: Profile, phase: Phase, fork: seq<FormationCall>, turns: seq<Turn>, n: nat)
    requires 0 < n <= |turns| && AllRunnable(turns)
    ensures |Replay(COUNTING, s, p, phase, fork, turns, n).answers|
         == |Replay(COUNTING, s, p, phase, fork, turns, n - 1).answers|
            + (if turns[n - 1].kind.IsCheckpoint() && !phase.FormationOnly? then SampleCount(p) else 0)
  {
    CountingNext(s, p, phase, fork, turns, n);
  }

  lemma {:induction false} CountingFormation(s: Scenario, p: Profile, phase: Phase, fork: seq<FormationCall>, turns: seq<Turn>, n: nat)
    requires n <= |turns| && AllRunnable(turns)
    ensures |Replay(COUNTING, s, p, phase, fork, turns, n).formation| == if phase.PolicyOnly? then 0 else Weights(turns, n)
  {
    if n > 0 {
      CountingFormation(s, p, phase, fork, turns, n - 1);
      FormationNext(s, p, phase, fork, turns, n);
    }
  }

  ghost predicate AnswersCounted(s: Scenario, p: Profile, phase: Phase, fork: seq<FormationCall>, turns: seq<Turn>, n: nat)
    requires n <= |turns|
  {
    |Replay(COUNTING, s, p, phase, fork, turns, n).answers| == Recalls(turns, p, n)
  }

  lemma AnswersCountedNext(s: Scenario, p: Profile, phase: Phase, fork: seq<FormationCall>, turns: seq<Turn>, n: nat)
    requires 0 < n <= |turns| && AllRunnable(turns) && !phase.FormationOnly?
    requires AnswersCounted(s, p, phase, fork, turns, n - 1)
    ensures AnswersCounted(s, p, phase, fork, turns, n)
  {
    AnswersNext(s, p, phase, fork, turns, n);
  }

  lemma {:induction false} CountingAnswers(s: Scenario, p: Profile, phase: Phase, fork: seq<FormationCall>, turns: seq<Turn>, n: nat)
    requires n <= |turns| && AllRunnable(turns) && !phase.FormationOnly?
    ensures AnswersCounted(s, p, phase, fork, turns, n)
  {
    if n > 0 {
      CountingAnswers(s, p, phase, fork, turns, n - 1);
      AnswersCountedNext(s, p, phase, fork, turns, n);
    }
  }

  lemma PrefixOfPrefix<T>(a: seq<T>, b: seq<T>, c: seq<T>)
    requires a <= b <= c
    ensures a <= c
  {
  }

  /** The answers after the first `i` turns come first after the first `n`. */
  ghost predicate AnswersKept(s: Scenario, p: Profile, phase: Phase, fork: seq<FormationCall>, turns: seq<Turn>, i: nat, n: nat)
    requires i <= n <= |turns|
  {
    Replay(COUNTING, s, p, phase, fork, turns, i).answers <= Replay(COUNTING, s, p, phase, fork, turns, n).answers
  }

  lemma AnswersKeptNext(s: Scenario, p: Profile, phase: Phase, fork: seq<FormationCall>, turns: seq<Turn>, i: nat, n: nat)
    requires i < n <= |turns| && AllRunnable(turns) && AnswersKept(s, p, phase, fork, turns, i, n - 1)
    ensures AnswersKept(s, p, phase, fork, turns, i, n)
  {
    CountingNext(s, p, phase, fork, turns, n);
    PrefixOfPrefix(Replay(COUNTING, s, p, phase, fork, turns, i).answers, Replay(COUNTING, s, p, phase, fork, turns, n - 1).answers,
                   Replay(COUNTING, s, p, phase, fork, turns, n).answers);
  }

  lemma {:induction false} AnswersGrow(s: Scenario, p: Profile, phase: Phase, fork: seq<FormationCall>, turns: seq<Turn>, i: nat, n: nat)
    requires i <= n <= |turns| && AllRunnable(turns)
    ensures AnswersKept(s, p, phase, fork, turns, i, n)
  {
    if i < n {
      AnswersGrow(s, p, phase, fork, turns, i, n - 1);
      AnswersKeptNext(s, p, phase, fork, turns, i, n);
    }
  }

  lemma {:induction false} WeightsGrow(turns: seq<Turn>, i: nat, n: nat)
    requires i < n <= |turns| && turns[i].kind.IsUser()
    ensures Weights(turns, i) < Weights(turns, n)
  {
    if i < n - 1 { WeightsGrow(turns, i, n - 1); }
  }

  lemma {:induction false} WeightsMonotone(turns: seq<Turn>, i: nat, n: nat)
    requires i <= n <= |turns|
    ensures Weights(turns, i) <= Weights(turns, n)
  {
    if i < n { WeightsMonotone(turns, i, n - 1); }
  }

  /** The answer a checkpoint just gave. */
  lemma FreshAnswerAt(s: Scenario, p: Profile, phase: Phase, fork: seq<FormationCall>, turns: seq<Turn>, c: nat)
    requires c < |turns| && AllRunnable(turns) && turns[c].kind.IsCheckpoint() && !phase.FormationOnly?
    ensures var answers := Replay(COUNTING, s, p, phase, fork, turns, c + 1).answers;
            Recalls(turns, p, c) < |answers|
            && |answers[Recalls(turns, p, c)]| == if phase.PolicyOnly? then |fork| else Weights(turns, c)
  {
    CountingFormation(s, p, phase, fork, turns, c);
    CountingAnswers(s, p, phase, fork, turns, c);
    CountingNeverFails(s, p, phase, fork, turns, c);
    assert Runnable(turns[c]);
    CountingCheckpoint(s, p, phase, fork, Replay(COUNTING, s, p, phase, fork, turns, c), turns[c]);
  }

  /** What the answer at checkpoint `c` tells at the end of the run. */
  lemma AnswerAt(s: Scenario, p: Profile, phase: Phase, fork: seq<FormationCall>, turns: seq<Turn>, c: nat)
    requires c < |turns| && AllRunnable(turns) && turns[c].kind.IsCheckpoint() && !phase.FormationOnly?
    ensures var answers := Replay(COUNTING, s, p, phase, fork, turns, |turns|).answers;
            Recalls(turns, p, c) < |answers|
            && |answers[Recalls(turns, p, c)]| == if phase.PolicyOnly? then |fork| else Weights(turns, c)
  {
    FreshAnswerAt(s, p, phase, fork, turns, c);
    AnswersGrow(s, p, phase, fork, turns, c + 1, |turns|);
    PrefixKeeps(Replay(COUNTING, s, p, phase, fork, turns, c + 1).answers,
                Replay(COUNTING, s, p, phase, fork, turns, |turns|).answers, Recalls(turns, p, c));
  }

  lemma PrefixKeeps<T>(a: seq<T>, b: seq<T>, i: nat)
    requires a <= b && i < |a|
    ensures i < |b| && b[i] == a[i]
  {
  }

  /** The check is also necessary: a scenario it objects to, whose turns carry what they need, has a driver
      under which the interleaved run and the fork disagree. */
  lemma IssuesCanChangeAnswers(s: Scenario, p: Profile)
    requires SharedIssues(s) != [] && AllRunnable(Effective(s))
    ensures Reliable(COUNTING)
    ensures var form := RunOf(COUNTING, s, p, FormationOnly, []);
            !Agrees(RunOf(COUNTING, s, p, Full, []), form, RunOf(COUNTING, s, p, PolicyOnly, form.formation))
  {
    SharedIssuesExact(s);
    CountingIsReliable();
    var turns := Effective(s);
    var c, u :| 0 <= c < u < |turns| && turns[c].kind.IsCheckpoint() && turns[u].kind.IsUser();
    var form := RunOf(COUNTING, s, p, FormationOnly, []);
    CountingFormation(s, p, FormationOnly, [], turns, |turns|);
    CountingNeverFails(s, p, Full, [], turns, |turns|);
    AnswerAt(s, p, Full, [], turns, c);
    AnswerAt(s, p, PolicyOnly, form.formation, turns, c);
    WeightsMonotone(turns, c, u);
    WeightsGrow(turns, u, |turns|);
  }
}
