/** What the interpreter keeps from turn to turn: the simulator's context and the maintenance cadence. */
module EvalRunProofs {
  import opened Prelude
  import opened EvalTimeline
  import opened EvalRun
  import opened EvalValidation

  // ---- What the simulator sees ----

  /** The lines a turn adds to the conversation: what its user says, unless it is noise, and what memory
      answers. */
  function Added(d: Driver, s: Scenario, p: Profile, phase: Phase, fork: seq<FormationCall>, run: Run, turn: Turn): seq<Line> {
    if run.failure.Some? then []
    else if turn.kind.IsUser() then
      if phase.PolicyOnly? || turn.noise then [] else
      var e := Encode(d, s, turn, run.formation, run.transcript, run.trail);
      if e.failure.Some? then [] else Heard(turn, e.message)
    else if phase.FormationOnly? || turn.kind.Maintenance? then []
    else
      var c := Checkpointed(d, s, p, Memory(phase, fork, run), turn, run.policy);
      if c.failure.Some? then [] else [Answered(d.digest(Memory(phase, fork, run), c.calls, turn, c.answers).answer)]
  }

  /** The whole conversation so far. */
  function Spoken(d: Driver, s: Scenario, p: Profile, phase: Phase, fork: seq<FormationCall>, turns: seq<Turn>, n: nat): seq<Line>
    requires n <= |turns|
  {
    if n == 0 then []
    else Spoken(d, s, p, phase, fork, turns, n - 1)
         + Added(d, s, p, phase, fork, Replay(d, s, p, phase, fork, turns, n - 1), turns[n - 1])
  }

  lemma LastOfLast<T>(a: seq<T>, b: seq<T>, count: nat)
    ensures Last(Last(a, count) + b, count) == Last(a + b, count)
    ensures Last(Last(a, count), count) == Last(a, count)
  {
  }

  lemma StepAdds(d: Driver, s: Scenario, p: Profile, phase: Phase, fork: seq<FormationCall>, run: Run, turn: Turn)
    ensures (Step(d, s, p, phase, fork, run, turn).transcript == run.transcript && Added(d, s, p, phase, fork, run, turn) == [])
            || Step(d, s, p, phase, fork, run, turn).transcript
               == Last(run.transcript + Added(d, s, p, phase, fork, run, turn), TRANSCRIPT_TAIL)
  {
  }

  lemma TailStep(before: seq<Line>, transcript: seq<Line>, added: seq<Line>, after: seq<Line>)
    requires transcript == Last(before, TRANSCRIPT_TAIL)
    requires (after == transcript && added == []) || after == Last(transcript + added, TRANSCRIPT_TAIL)
    ensures after == Last(before + added, TRANSCRIPT_TAIL)
  {
    LastOfLast(before, added, TRANSCRIPT_TAIL);
    assert before + [] == before;
  }

  lemma StepMovesTail(d: Driver, s: Scenario, p: Profile, phase: Phase, fork: seq<FormationCall>, run: Run, turn: Turn,
                      before: seq<Line>)
    requires run.transcript == Last(before, TRANSCRIPT_TAIL)
    ensures Step(d, s, p, phase, fork, run, turn).transcript
            == Last(before + Added(d, s, p, phase, fork, run, turn), TRANSCRIPT_TAIL)
  {
    StepAdds(d, s, p, phase, fork, run, turn);
    TailStep(before, run.transcript, Added(d, s, p, phase, fork, run, turn), Step(d, s, p, phase, fork, run, turn).transcript);
  }

  ghost predicate TailAt(d: Driver, s: Scenario, p: Profile, phase: Phase, fork: seq<FormationCall>, turns: seq<Turn>, n: nat)
    requires n <= |turns|
  {
    Replay(d, s, p, phase, fork, turns, n).transcript == Last(Spoken(d, s, p, phase, fork, turns, n), TRANSCRIPT_TAIL)
  }

  lemma TailMoves(d: Driver, s: Scenario, p: Profile, phase: Phase, fork: seq<FormationCall>, turns: seq<Turn>, n: nat)
    requires 0 < n <= |turns| && TailAt(d, s, p, phase, fork, turns, n - 1)
    ensures TailAt(d, s, p, phase, fork, turns, n)
  {
    StepMovesTail(d, s, p, phase, fork, Replay(d, s, p, phase, fork, turns, n - 1), turns[n - 1],
                  Spoken(d, s, p, phase, fork, turns, n - 1));
  }

  lemma {:induction false} TailAlways(d: Driver, s: Scenario, p: Profile, phase: Phase, fork: seq<FormationCall>,
                                      turns: seq<Turn>, n: nat)
    requires n <= |turns|
    ensures TailAt(d, s, p, phase, fork, turns, n)
  {
    if n > 0 {
      TailAlways(d, s, p, phase, fork, turns, n - 1);
      TailMoves(d, s, p, phase, fork, turns, n);
    }
  }

  /** The rolling context is always the last twelve lines of the whole conversation, noise left out. */
  lemma TranscriptIsTail(d: Driver, s: Scenario, p: Profile, phase: Phase, fork: seq<FormationCall>, turns: seq<Turn>, n: nat)
    requires n <= |turns|
    ensures Replay(d, s, p, phase, fork, turns, n).transcript
            == Last(Spoken(d, s, p, phase, fork, turns, n), TRANSCRIPT_TAIL)
  {
    TailAlways(d, s, p, phase, fork, turns, n);
  }

  // ---- How often maintenance runs ----

  predicate NoMaintenanceTurns(turns: seq<Turn>, n: nat)
    requires n <= |turns|
  {
    forall i :: 0 <= i < n ==> !turns[i].kind.Maintenance?
  }

  function Users(turns: seq<Turn>, n: nat): nat
    requires n <= |turns|
  {
    if n == 0 then 0 else Users(turns, n - 1) + if turns[n - 1].kind.IsUser() then 1 else 0
  }

  lemma CadenceAdvances(d: Driver, p: Profile, run: Run, turn: Turn, every: nat)
    requires p.maintenanceEvery == Some(every) && run.sinceMaintenance < every
    ensures var after := CadenceStep(d, p, run, turn);
            if run.sinceMaintenance + 1 == every
            then after.sinceMaintenance == 0 && MaintainCalls(after.policy) == MaintainCalls(run.policy) + 1
            else after.sinceMaintenance == run.sinceMaintenance + 1 && MaintainCalls(after.policy) == MaintainCalls(run.policy)
  {
    AppendPolicy(run.policy, Maintain(MaintenanceInput(Threshold, p.scope, turn.timestamp)));
  }

  lemma StepAdvances(d: Driver, s: Scenario, p: Profile, phase: Phase, fork: seq<FormationCall>, run: Run, turn: Turn, every: nat)
    requires p.maintenanceEvery == Some(every) && run.sinceMaintenance < every && !phase.FormationOnly?
    requires !turn.kind.Maintenance? && run.failure.None? && Step(d, s, p, phase, fork, run, turn).failure.None?
    ensures var after := Step(d, s, p, phase, fork, run, turn);
            if turn.kind.IsUser() && run.sinceMaintenance + 1 == every
            then after.sinceMaintenance == 0 && MaintainCalls(after.policy) == MaintainCalls(run.policy) + 1
            else after.sinceMaintenance == run.sinceMaintenance + (if turn.kind.IsUser() then 1 else 0)
                 && MaintainCalls(after.policy) == MaintainCalls(run.policy)
  {
    if turn.kind.IsUser() {
      CadenceAdvances(d, p, if phase.PolicyOnly? then run else FormStep(d, s, run, turn), turn, every);
    } else {
      CheckpointCounts(d, s, p, Memory(phase, fork, run), run, turn);
    }
  }

  /** `cycles` full periods and `since` turns make `users`. */
  predicate Divides(cycles: nat, every: nat, since: nat, users: nat) {
    since < every && cycles * every + since == users
  }

  lemma DividesNext(cycles: nat, every: nat, since: nat, users: nat)
    requires Divides(cycles, every, since, users)
    ensures if since + 1 == every then Divides(cycles + 1, every, 0, users + 1) else Divides(cycles, every, since + 1, users + 1)
  {
    MulNext(cycles, every);
  }

  lemma StepDivides(d: Driver, s: Scenario, p: Profile, phase: Phase, fork: seq<FormationCall>, run: Run, turn: Turn,
                    every: nat, users: nat)
    requires p.maintenanceEvery == Some(every) && !phase.FormationOnly?
    requires !turn.kind.Maintenance? && run.failure.None? && Step(d, s, p, phase, fork, run, turn).failure.None?
    requires Divides(MaintainCalls(run.policy), every, run.sinceMaintenance, users)
    ensures var after := Step(d, s, p, phase, fork, run, turn);
            Divides(MaintainCalls(after.policy), every, after.sinceMaintenance, users + if turn.kind.IsUser() then 1 else 0)
  {
    StepAdvances(d, s, p, phase, fork, run, turn, every);
    DividesNext(MaintainCalls(run.policy), every, run.sinceMaintenance, users);
  }

  /** Without maintenance turns the cycles so far are the quotient of the user turns by the cadence, noise included,
      and the turns since the last one the remainder. */
  lemma {:induction false} CadenceDivides(d: Driver, s: Scenario, p: Profile, phase: Phase, fork: seq<FormationCall>,
                                          turns: seq<Turn>, n: nat, every: nat)
    requires n <= |turns| && !phase.FormationOnly? && NoMaintenanceTurns(turns, n)
    requires p.maintenanceEvery == Some(every) && every > 0
    requires Replay(d, s, p, phase, fork, turns, n).failure.None?
    ensures var run := Replay(d, s, p, phase, fork, turns, n);
            Divides(MaintainCalls(run.policy), every, run.sinceMaintenance, Users(turns, n))
  {
    if n > 0 {
      CadenceDivides(d, s, p, phase, fork, turns, n - 1, every);
      StepDivides(d, s, p, phase, fork, Replay(d, s, p, phase, fork, turns, n - 1), turns[n - 1], every, Users(turns, n - 1));
    }
  }
}
