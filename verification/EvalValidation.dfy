/** Scenario validation: what it promises about the runs of a scenario it lets pass. */
module EvalValidation {
  import opened Prelude
  import opened Text
  import opened EvalTimeline
  import opened EvalRun
  import opened Weaving

  const USIZE_MAX := 0xFFFF_FFFF_FFFF_FFFF

  datatype Severity = Warning | Error

  datatype Complaint =
    | NoTurns | NoiseIsNoOp | BlankNoise | ReservedNoise | DuplicateTurn | TurnOutOfOrder
    | NoMessages | NoIntent | NoQuery | NoCheckpoints

  datatype Issue = Issue(severity: Severity, turn: Option<nat>, what: Complaint)

  datatype Plan = Plan(noise: nat, normal: nat, simulated: nat, maintenance: nat, checkpoint: nat)

  // ---- What validation reports ----

  function Add(issues: seq<Issue>, condition: bool, issue: Issue): seq<Issue> {
    if condition then issues + [issue] else issues
  }

  predicate HasInput(turn: Turn) {
    (turn.user.Some? && !Blank(turn.user.value)) || turn.messages != []
  }

  predicate HasText(text: Option<string>) {
    text.Some? && Trim(text.value) != []
  }

  function AddKindIssue(issues: seq<Issue>, turn: Turn, i: nat): seq<Issue> {
    match turn.kind
    case Normal => Add(issues, !HasInput(turn), Issue(Error, Some(i), NoMessages))
    case Simulated => Add(issues, !HasText(turn.intent), Issue(Error, Some(i), NoIntent))
    case Maintenance => issues
    case _ => Add(issues, !HasText(turn.query), Issue(Error, Some(i), NoQuery))
  }

  predicate Repeats(turns: seq<Turn>, i: nat)
    requires i < |turns|
  {
    exists j :: 0 <= j < i && turns[j].id == turns[i].id
  }

  function AddNumberIssues(issues: seq<Issue>, turns: seq<Turn>, i: nat): seq<Issue>
    requires i < |turns|
  {
    var reserved := Add(issues, turns[i].noise, Issue(Error, Some(i), ReservedNoise));
    var repeated := Add(reserved, Repeats(turns, i), Issue(Error, Some(i), DuplicateTurn));
    Add(repeated, i > 0 && turns[i].id < turns[i - 1].id, Issue(Warning, Some(i), TurnOutOfOrder))
  }

  function AddTurnIssues(issues: seq<Issue>, turns: seq<Turn>, i: nat): seq<Issue>
    requires i < |turns|
  {
    AddKindIssue(AddNumberIssues(issues, turns, i), turns[i], i)
  }

  function TimelineIssues(issues: seq<Issue>, turns: seq<Turn>, n: nat): seq<Issue>
    requires n <= |turns|
  {
    if n == 0 then issues else AddTurnIssues(TimelineIssues(issues, turns, n - 1), turns, n - 1)
  }

  predicate AnyBlank(corpus: seq<string>) {
    exists i :: 0 <= i < |corpus| && Trim(corpus[i]) == []
  }

  function HeaderIssues(s: Scenario): seq<Issue> {
    var empty := Add([], s.timeline == [], Issue(Warning, None, NoTurns));
    match s.noise
    case None => empty
    case Some(noise) =>
      Add(Add(empty, noise.betweenTurns == 0, Issue(Warning, None, NoiseIsNoOp)),
          AnyBlank(noise.corpus), Issue(Error, None, BlankNoise))
  }

  function IssuesOf(s: Scenario): seq<Issue> {
    Add(TimelineIssues(HeaderIssues(s), s.timeline, |s.timeline|),
        PlanOf(s).checkpoint == 0, Issue(Warning, None, NoCheckpoints))
  }

  function SaturatingMul(a: nat, b: nat): nat {
    if a * b > USIZE_MAX then USIZE_MAX else a * b
  }

  function Tick(plan: Plan, turn: Turn): Plan {
    match turn.kind
    case Normal => plan.(normal := plan.normal + 1)
    case Simulated => plan.(simulated := plan.simulated + 1)
    case Maintenance => plan.(maintenance := plan.maintenance + 1)
    case _ => plan.(checkpoint := plan.checkpoint + 1)
  }

  function PlannedNoise(s: Scenario): nat {
    if Gap(s) == 0 || s.timeline == [] then 0 else SaturatingMul(Gap(s), |s.timeline| - 1)
  }

  function PlanUpTo(turns: seq<Turn>, noiseTurns: nat, n: nat): Plan
    requires n <= |turns|
  {
    if n == 0 then Plan(noiseTurns, 0, 0, 0, 0) else Tick(PlanUpTo(turns, noiseTurns, n - 1), turns[n - 1])
  }

  function PlanOf(s: Scenario): Plan {
    PlanUpTo(s.timeline, PlannedNoise(s), |s.timeline|)
  }

  method ValidateHeader(s: Scenario) returns (noiseTurns: nat, issues: seq<Issue>)
    ensures noiseTurns == PlannedNoise(s)
    ensures issues == HeaderIssues(s)
  {
    noiseTurns, issues := 0, [];
    if s.timeline == [] {
      issues := issues + [Issue(Warning, None, NoTurns)];
    }
    match s.noise {
      case None =>
      case Some(noise) =>
        if noise.betweenTurns == 0 {
          issues := issues + [Issue(Warning, None, NoiseIsNoOp)];
        } else if s.timeline != [] {
          noiseTurns := SaturatingMul(noise.betweenTurns, |s.timeline| - 1);
        }
        if AnyBlank(noise.corpus) {
          issues := issues + [Issue(Error, None, BlankNoise)];
        }
    }
  }

  method ValidateTurn(turns: seq<Turn>, i: nat, seenTurns: set<nat>, previousTurn: Option<nat>, before: seq<Issue>)
    returns (issues: seq<Issue>)
    requires i < |turns|
    requires turns[i].id in seenTurns <==> Repeats(turns, i)
    requires previousTurn == if i == 0 then None else Some(turns[i - 1].id)
    ensures issues == AddTurnIssues(before, turns, i)
  {
    var turn := turns[i];
    issues := before;
    if turn.noise {
      issues := issues + [Issue(Error, Some(i), ReservedNoise)];
    }
    if turn.id in seenTurns {
      issues := issues + [Issue(Error, Some(i), DuplicateTurn)];
    }
    if previousTurn.Some? && turn.id < previousTurn.value {
      issues := issues + [Issue(Warning, Some(i), TurnOutOfOrder)];
    }
    issues := AddKindIssue(issues, turn, i);
  }

  function SeenIds(turns: seq<Turn>, n: nat): set<nat>
    requires n <= |turns|
  {
    if n == 0 then {} else SeenIds(turns, n - 1) + {turns[n - 1].id}
  }

  lemma {:induction false} SeenExactly(turns: seq<Turn>, n: nat, id: nat)
    requires n <= |turns|
    ensures id in SeenIds(turns, n) <==> exists j :: 0 <= j < n && turns[j].id == id
  {
    if n > 0 { SeenExactly(turns, n - 1, id); }
  }

  lemma SeenIsRepeat(turns: seq<Turn>, i: nat)
    requires i < |turns|
    ensures turns[i].id in SeenIds(turns, i) <==> Repeats(turns, i)
  {
    SeenExactly(turns, i, turns[i].id);
  }

  method ValidateTimeline(turns: seq<Turn>, noiseTurns: nat, before: seq<Issue>) returns (plan: Plan, issues: seq<Issue>)
    ensures plan == PlanUpTo(turns, noiseTurns, |turns|) && issues == TimelineIssues(before, turns, |turns|)
  {
    plan, issues := Plan(noiseTurns, 0, 0, 0, 0), before;
    var seenTurns: set<nat> := {};
    var previousTurn: Option<nat> := None;
    for i := 0 to |turns|
      invariant plan == PlanUpTo(turns, noiseTurns, i)
      invariant issues == TimelineIssues(before, turns, i)
      invariant seenTurns == SeenIds(turns, i)
      invariant previousTurn == if i == 0 then None else Some(turns[i - 1].id)
    {
      SeenIsRepeat(turns, i);
      issues := ValidateTurn(turns, i, seenTurns, previousTurn, issues);
      seenTurns := seenTurns + {turns[i].id};
      previousTurn := Some(turns[i].id);
      plan := Tick(plan, turns[i]);
    }
  }

  method ValidateScenarioPlan(s: Scenario) returns (plan: Plan, issues: seq<Issue>)
    ensures plan == PlanOf(s) && issues == IssuesOf(s)
  {
    var noiseTurns;
    noiseTurns, issues := ValidateHeader(s);
    plan, issues := ValidateTimeline(s.timeline, noiseTurns, issues);
    if plan.checkpoint == 0 {
      issues := issues + [Issue(Warning, None, NoCheckpoints)];
    }
  }

  // ---- Soundness ----

  predicate OnlyWarnings(issues: seq<Issue>) {
    forall i :: 0 <= i < |issues| ==> issues[i].severity.Warning?
  }

  predicate Passes(s: Scenario) {
    OnlyWarnings(IssuesOf(s))
  }

  lemma OnlyWarningsAdded(issues: seq<Issue>, condition: bool, issue: Issue)
    ensures OnlyWarnings(Add(issues, condition, issue)) <==> OnlyWarnings(issues) && (condition ==> issue.severity.Warning?)
  {
    if condition && OnlyWarnings(issues + [issue]) {
      assert (issues + [issue])[|issues|] == issue;
      forall i | 0 <= i < |issues| ensures issues[i].severity.Warning? { assert (issues + [issue])[i] == issues[i]; }
    }
  }

  lemma OnlyWarningsOfKind(issues: seq<Issue>, turn: Turn, i: nat)
    requires OnlyWarnings(AddKindIssue(issues, turn, i))
    ensures OnlyWarnings(issues) && Runnable(turn)
  {
    match turn.kind
    case Normal => OnlyWarningsAdded(issues, !HasInput(turn), Issue(Error, Some(i), NoMessages));
    case Simulated => OnlyWarningsAdded(issues, !HasText(turn.intent), Issue(Error, Some(i), NoIntent));
    case Maintenance =>
    case _ => OnlyWarningsAdded(issues, !HasText(turn.query), Issue(Error, Some(i), NoQuery));
  }

  /** A turn that draws only warnings has what its kind needs. */
  lemma PassingTurn(issues: seq<Issue>, turns: seq<Turn>, i: nat)
    requires i < |turns| && OnlyWarnings(AddTurnIssues(issues, turns, i))
    ensures OnlyWarnings(issues) && Runnable(turns[i]) && !turns[i].noise
  {
    var lower := i > 0 && turns[i].id < turns[i - 1].id;
    var reserved := Add(issues, turns[i].noise, Issue(Error, Some(i), ReservedNoise));
    var repeated := Add(reserved, Repeats(turns, i), Issue(Error, Some(i), DuplicateTurn));
    OnlyWarningsOfKind(Add(repeated, lower, Issue(Warning, Some(i), TurnOutOfOrder)), turns[i], i);
    OnlyWarningsAdded(repeated, lower, Issue(Warning, Some(i), TurnOutOfOrder));
    OnlyWarningsAdded(reserved, Repeats(turns, i), Issue(Error, Some(i), DuplicateTurn));
    OnlyWarningsAdded(issues, turns[i].noise, Issue(Error, Some(i), ReservedNoise));
  }

  lemma {:induction false} EveryTurnPasses(issues: seq<Issue>, turns: seq<Turn>, n: nat, i: nat)
    requires i < n <= |turns| && OnlyWarnings(TimelineIssues(issues, turns, n))
    ensures Runnable(turns[i])
  {
    PassingTurn(TimelineIssues(issues, turns, n - 1), turns, n - 1);
    if i < n - 1 { EveryTurnPasses(issues, turns, n - 1, i); }
  }

  lemma PassingIsRunnable(s: Scenario)
    requires Passes(s)
    ensures AllRunnable(Effective(s))
  {
    OnlyWarningsAdded(TimelineIssues(HeaderIssues(s), s.timeline, |s.timeline|),
                      PlanOf(s).checkpoint == 0, Issue(Warning, None, NoCheckpoints));
    var turns := Effective(s);
    forall p | 0 <= p < |turns| ensures Runnable(turns[p]) {
      var i, j := Origin(s, p);
      EveryTurnPasses(HeaderIssues(s), s.timeline, |s.timeline|, i);
    }
  }

  /** Validation is sound: a scenario without errors never stops a run, in any phase and with any driver, for
      missing messages, a missing intent or a missing query, noise turns included. */
  lemma ValidationIsSound(d: Driver, s: Scenario, p: Profile, phase: Phase, fork: seq<FormationCall>)
    requires Passes(s)
    ensures RunOf(d, s, p, phase, fork).failure in {None, Some(DriverError), Some(EmptySimulatedMessage)}
    ensures Reliable(d) ==> RunOf(d, s, p, phase, fork).failure == None
  {
    PassingIsRunnable(s);
    OnlyTheDriverFails(d, s, p, phase, fork, Effective(s), |Effective(s)|);
  }

  /** Under this driver, forming memory once and forking it changes nothing. */
  ghost predicate SplitFaithful(d: Driver, s: Scenario, p: Profile) {
    var form := RunOf(d, s, p, FormationOnly, []);
    Agrees(RunOf(d, s, p, Full, []), form, RunOf(d, s, p, PolicyOnly, form.formation))
  }

  /** A scenario that passes validation can be split faithfully under every driver if and only if the
      shared-formation check has nothing to report. */
  lemma SplitIffNoIssue(s: Scenario, p: Profile)
    requires Passes(s)
    ensures SharedIssues(s) == [] <==> forall d: Driver :: SplitFaithful(d, s, p)
  {
    PassingIsRunnable(s);
    if SharedIssues(s) == [] {
      forall d: Driver ensures SplitFaithful(d, s, p) {
        SharedFormationIsFaithful(d, s, p);
      }
    } else {
      IssuesCanChangeAnswers(s, p);
      assert !SplitFaithful(COUNTING, s, p);
    }
  }

  // ---- The plan's counts ----

  datatype Kind = UserText | Simulator | Sleep | Check

  predicate Is(turn: Turn, kind: Kind) {
    match kind
    case UserText => turn.kind.Normal?
    case Simulator => turn.kind.Simulated?
    case Sleep => turn.kind.Maintenance?
    case Check => turn.kind.IsCheckpoint()
  }

  function Count(turns: seq<Turn>, kind: Kind): nat {
    if turns == [] then 0
    else Count(turns[..|turns| - 1], kind) + if Is(turns[|turns| - 1], kind) then 1 else 0
  }

  lemma CountMore(turns: seq<Turn>, turn: Turn, kind: Kind)
    ensures Count(turns + [turn], kind) == Count(turns, kind) + if Is(turn, kind) then 1 else 0
  {
    assert (turns + [turn])[..|turns|] == turns;
  }

  lemma {:induction false} CountNoise(turns: seq<Turn>, block: seq<Turn>, previous: Turn, kind: Kind)
    requires AllNoiseAfter(block, previous)
    ensures Count(turns + block, kind) == Count(turns, kind) + if kind.UserText? then |block| else 0
  {
    if block == [] {
      assert turns + block == turns;
    } else {
      var init, last := block[..|block| - 1], block[|block| - 1];
      assert IsNoiseAfter(last, previous);
      CountNoise(turns, init, previous, kind);
      CountMore(turns + init, last, kind);
      assert turns + block == turns + init + [last];
    }
  }

  lemma CountWovenNext(woven: seq<Turn>, block: seq<Turn>, previous: Turn, last: Turn, kind: Kind)
    requires AllNoiseAfter(block, previous)
    ensures Count(woven + block + [last], kind)
            == Count(woven, kind) + (if kind.UserText? then |block| else 0) + if Is(last, kind) then 1 else 0
  {
    CountNoise(woven, block, previous, kind);
    CountMore(woven + block, last, kind);
  }

  lemma {:induction false} CountWoven(entries: seq<Turn>, blocks: seq<seq<Turn>>, gap: nat, n: nat, kind: Kind)
    requires n <= |entries| && Noisy(entries, blocks, gap)
    ensures Count(Woven(entries, blocks, n), kind)
            == Count(entries[..n], kind) + if kind.UserText? && n > 0 then Offset(n - 1, gap) - (n - 1) else 0
  {
    if n == 1 {
      assert entries[..1] == [entries[0]];
    } else if n > 1 {
      CountWoven(entries, blocks, gap, n - 1, kind);
      CountWovenNext(Woven(entries, blocks, n - 1), blocks[n - 2], entries[n - 2], entries[n - 1], kind);
      CountNext(entries, n, kind);
    }
  }

  /** The replayed timeline holds the authored turns and the noise, kind by kind. */
  lemma EffectiveCounts(s: Scenario, kind: Kind)
    ensures Count(Effective(s), kind)
            == Count(s.timeline, kind) + if kind.UserText? && s.timeline != [] then Gap(s) * (|s.timeline| - 1) else 0
  {
    var blocks := EffectiveIsWoven(s);
    CountWoven(s.timeline, blocks, Gap(s), |s.timeline|, kind);
    if s.timeline != [] { OffsetIs(|s.timeline| - 1, Gap(s)); }
    assert s.timeline[..|s.timeline|] == s.timeline;
  }

  lemma CountNext(turns: seq<Turn>, n: nat, kind: Kind)
    requires 0 < n <= |turns|
    ensures Count(turns[..n], kind) == Count(turns[..n - 1], kind) + if Is(turns[n - 1], kind) then 1 else 0
  {
    CountMore(turns[..n - 1], turns[n - 1], kind);
    assert turns[..n] == turns[..n - 1] + [turns[n - 1]];
  }

  lemma {:induction false} PlanCounts(turns: seq<Turn>, noiseTurns: nat, n: nat)
    requires n <= |turns|
    ensures var plan := PlanUpTo(turns, noiseTurns, n);
            && plan.normal == Count(turns[..n], UserText) && plan.simulated == Count(turns[..n], Simulator)
            && plan.maintenance == Count(turns[..n], Sleep) && plan.checkpoint == Count(turns[..n], Check)
            && plan.noise == noiseTurns
  {
    if n > 0 {
      PlanCounts(turns, noiseTurns, n - 1);
      CountNext(turns, n, UserText);
      CountNext(turns, n, Simulator);
      CountNext(turns, n, Sleep);
      CountNext(turns, n, Check);
    }
  }

  function Completions(calls: seq<FormationCall>): nat {
    if calls == [] then 0
    else Completions(calls[..|calls| - 1]) + if calls[|calls| - 1].Complete? then 1 else 0
  }

  function RecallCalls(calls: seq<PolicyCall>): nat {
    if calls == [] then 0
    else RecallCalls(calls[..|calls| - 1]) + if calls[|calls| - 1].Recall? then 1 else 0
  }

  function MaintainCalls(calls: seq<PolicyCall>): nat {
    if calls == [] then 0
    else MaintainCalls(calls[..|calls| - 1]) + if calls[|calls| - 1].Maintain? then 1 else 0
  }

  lemma AppendFormation(calls: seq<FormationCall>, call: FormationCall)
    ensures Completions(calls + [call]) == Completions(calls) + if call.Complete? then 1 else 0
  {
    assert (calls + [call])[..|calls|] == calls;
  }

  lemma AppendPolicy(calls: seq<PolicyCall>, call: PolicyCall)
    ensures RecallCalls(calls + [call]) == RecallCalls(calls) + if call.Recall? then 1 else 0
    ensures MaintainCalls(calls + [call]) == MaintainCalls(calls) + if call.Maintain? then 1 else 0
  {
    assert (calls + [call])[..|calls|] == calls;
  }

  lemma EncodeCounts(d: Driver, s: Scenario, turn: Turn, calls: seq<FormationCall>, transcript: seq<Line>, trail: seq<Point>)
    requires turn.kind.IsUser() && Encode(d, s, turn, calls, transcript, trail).failure.None?
    ensures var e := Encode(d, s, turn, calls, transcript, trail);
            && Completions(e.calls) == Completions(calls) + (if turn.kind.Simulated? then 1 else 0)
            && |e.calls| - Completions(e.calls) == |calls| - Completions(calls) + 1
  {
    if turn.kind.Simulated? {
      var asked := calls + [Complete(Prompt(s.hiddenProfile, turn.intent.value, transcript, Last(trail, TRAIL_TAIL)))];
      AppendFormation(calls, asked[|calls|]);
      var call := Remember(Single(Typed(Trim(d.complete(asked).value))), TurnContext(s, turn), turn.timestamp);
      AppendFormation(asked, call);
    } else {
      AppendFormation(calls, Remember(TurnInput(turn).value, TurnContext(s, turn), turn.timestamp));
    }
  }

  lemma {:induction false} SampleCounts(d: Driver, memory: seq<FormationCall>, call: PolicyCall, calls: seq<PolicyCall>, n: nat)
    requires call.Recall? && Samples(d, memory, call, calls, n).failure.None?
    ensures var r := Samples(d, memory, call, calls, n);
            RecallCalls(r.calls) == RecallCalls(calls) + n && MaintainCalls(r.calls) == MaintainCalls(calls)
  {
    if n > 0 {
      SampleCounts(d, memory, call, calls, n - 1);
      AppendPolicy(Samples(d, memory, call, calls, n - 1).calls, call);
    }
  }

  lemma FormationStepCounts(d: Driver, s: Scenario, p: Profile, phase: Phase, fork: seq<FormationCall>, run: Run, turn: Turn)
    requires !phase.PolicyOnly? && run.failure.None? && Step(d, s, p, phase, fork, run, turn).failure.None?
    ensures var calls := Step(d, s, p, phase, fork, run, turn).formation;
            && Completions(calls) == Completions(run.formation) + (if Is(turn, Simulator) then 1 else 0)
            && |calls| - Completions(calls)
               == |run.formation| - Completions(run.formation) + (if turn.kind.IsUser() then 1 else 0)
  {
    if turn.kind.IsUser() { EncodeCounts(d, s, turn, run.formation, run.transcript, run.trail); }
  }

  /** The formation calls of a completed run are those of its user turns. */
  lemma {:induction false} FormationCounts(d: Driver, s: Scenario, p: Profile, phase: Phase, fork: seq<FormationCall>,
                                           turns: seq<Turn>, n: nat)
    requires n <= |turns| && !phase.PolicyOnly? && Replay(d, s, p, phase, fork, turns, n).failure.None?
    ensures var calls := Replay(d, s, p, phase, fork, turns, n).formation;
            && Completions(calls) == Count(turns[..n], Simulator)
            && |calls| - Completions(calls) == Count(turns[..n], UserText) + Count(turns[..n], Simulator)
  {
    if n > 0 {
      FormationCounts(d, s, p, phase, fork, turns, n - 1);
      FormationStepCounts(d, s, p, phase, fork, Replay(d, s, p, phase, fork, turns, n - 1), turns[n - 1]);
      CountNext(turns, n, UserText);
      CountNext(turns, n, Simulator);
    }
  }

  lemma CheckpointCounts(d: Driver, s: Scenario, p: Profile, memory: seq<FormationCall>, run: Run, turn: Turn)
    requires run.failure.None? && CheckpointStep(d, s, p, memory, run, turn).failure.None?
    ensures var calls := CheckpointStep(d, s, p, memory, run, turn).policy;
            RecallCalls(calls) == RecallCalls(run.policy) + SampleCount(p) && MaintainCalls(calls) == MaintainCalls(run.policy)
  {
    SampleCounts(d, memory, Recall(CheckpointQuery(turn).value, TurnContext(s, turn)), run.policy, SampleCount(p));
  }

  lemma MaintenanceCounts(d: Driver, run: Run, turn: Turn)
    ensures var calls := MaintenanceStep(d, run, turn).policy;
            RecallCalls(calls) == RecallCalls(run.policy) && MaintainCalls(calls) == MaintainCalls(run.policy) + 1
  {
    AppendPolicy(run.policy, Maintain(TurnMaintenance(turn)));
  }

  lemma CadenceCounts(d: Driver, p: Profile, run: Run, turn: Turn)
    ensures var calls := CadenceStep(d, p, run, turn).policy;
            && RecallCalls(calls) == RecallCalls(run.policy) && MaintainCalls(calls) >= MaintainCalls(run.policy)
            && (p.maintenanceEvery.None? ==> MaintainCalls(calls) == MaintainCalls(run.policy))
  {
    AppendPolicy(run.policy, Maintain(MaintenanceInput(Threshold, p.scope, turn.timestamp)));
  }

  lemma PolicyStepCounts(d: Driver, s: Scenario, p: Profile, phase: Phase, fork: seq<FormationCall>, run: Run, turn: Turn)
    requires !phase.FormationOnly? && run.failure.None? && Step(d, s, p, phase, fork, run, turn).failure.None?
    ensures var calls := Step(d, s, p, phase, fork, run, turn).policy;
            && RecallCalls(calls) == RecallCalls(run.policy) + (if turn.kind.IsCheckpoint() then SampleCount(p) else 0)
            && MaintainCalls(calls) >= MaintainCalls(run.policy) + (if turn.kind.Maintenance? then 1 else 0)
            && (p.maintenanceEvery.None? ==>
                  MaintainCalls(calls) == MaintainCalls(run.policy) + (if turn.kind.Maintenance? then 1 else 0))
  {
    if turn.kind.IsUser() {
      CadenceCounts(d, p, if phase.PolicyOnly? then run else FormStep(d, s, run, turn), turn);
    } else if turn.kind.Maintenance? {
      MaintenanceCounts(d, run, turn);
    } else {
      CheckpointCounts(d, s, p, Memory(phase, fork, run), run, turn);
    }
  }

  /** The recalls of a completed run are those of its checkpoints. */
  lemma {:induction false} PolicyCounts(d: Driver, s: Scenario, p: Profile, phase: Phase, fork: seq<FormationCall>,
                                        turns: seq<Turn>, n: nat)
    requires n <= |turns| && !phase.FormationOnly? && Replay(d, s, p, phase, fork, turns, n).failure.None?
    ensures var calls := Replay(d, s, p, phase, fork, turns, n).policy;
            && RecallCalls(calls) == Recalls(turns, p, n)
            && MaintainCalls(calls) >= Count(turns[..n], Sleep)
            && (p.maintenanceEvery.None? ==> MaintainCalls(calls) == Count(turns[..n], Sleep))
  {
    if n > 0 {
      PolicyCounts(d, s, p, phase, fork, turns, n - 1);
      CountNext(turns, n, Sleep);
      PolicyStepCounts(d, s, p, phase, fork, Replay(d, s, p, phase, fork, turns, n - 1), turns[n - 1]);
    }
  }

  lemma MulNext(a: nat, b: nat)
    ensures (a + 1) * b == a * b + b
  {
  }

  lemma {:induction false} RecallsOfChecks(turns: seq<Turn>, p: Profile, n: nat)
    requires n <= |turns|
    ensures Recalls(turns, p, n) == Count(turns[..n], Check) * SampleCount(p)
  {
    if n > 0 {
      RecallsOfChecks(turns, p, n - 1);
      CountNext(turns, n, Check);
      MulNext(Count(turns[..n - 1], Check), SampleCount(p));
    }
  }

  /** The plan tells what a run executes, when its noise count does not saturate: one simulator call a
      simulated turn, one memory a user turn, the noise included, and one recall a checkpoint and sample. */
  lemma PlanIsExecuted(d: Driver, s: Scenario, p: Profile, phase: Phase, fork: seq<FormationCall>)
    requires RunOf(d, s, p, phase, fork).failure.None?
    requires s.timeline != [] ==> Gap(s) * (|s.timeline| - 1) <= USIZE_MAX
    ensures var run, plan := RunOf(d, s, p, phase, fork), PlanOf(s);
            && (!phase.PolicyOnly? ==>
                  && Completions(run.formation) == plan.simulated
                  && |run.formation| - Completions(run.formation) == plan.normal + plan.simulated + plan.noise)
            && (!phase.FormationOnly? ==>
                  && RecallCalls(run.policy) == plan.checkpoint * SampleCount(p)
                  && MaintainCalls(run.policy) >= plan.maintenance
                  && (p.maintenanceEvery.None? ==> MaintainCalls(run.policy) == plan.maintenance))
  {
    var turns := Effective(s);
    assert turns[..|turns|] == turns && s.timeline[..|s.timeline|] == s.timeline;
    PlanCounts(s.timeline, PlannedNoise(s), |s.timeline|);
    EffectiveCounts(s, UserText);
    EffectiveCounts(s, Simulator);
    EffectiveCounts(s, Sleep);
    EffectiveCounts(s, Check);
    RecallsOfChecks(turns, p, |turns|);
    if !phase.PolicyOnly? { FormationCounts(d, s, p, phase, fork, turns, |turns|); }
    if !phase.FormationOnly? { PolicyCounts(d, s, p, phase, fork, turns, |turns|); }
  }
}
