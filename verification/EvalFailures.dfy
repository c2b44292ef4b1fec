/** Why a turn of a run fails, and what a turn leaves in the conversation. */
module EvalFailures {
  import opened Prelude
  import opened Text
  import opened EvalTimeline
  import opened EvalRun
  import opened EvalCalls

  // ---- The last call ----

  ghost predicate FormationRefused(d: Driver, calls: seq<FormationCall>)
    requires calls != []
  {
    match calls[|calls| - 1]
    case Complete(_) => d.complete(calls).None?
    case Remember(_, _, _) => !d.remember(calls)
  }

  ghost predicate PolicyRefused(d: Driver, memory: seq<FormationCall>, calls: seq<PolicyCall>)
    requires calls != []
  {
    match calls[|calls| - 1]
    case Maintain(_) => !d.maintain(calls)
    case Recall(_, _) => d.recall(memory, calls).None?
  }

  /** The turn made calls, and the last of them got no reply. */
  ghost predicate LastCallRefused(d: Driver, phase: Phase, fork: seq<FormationCall>, before: Run, after: Run) {
    || (|after.formation| > |before.formation| && FormationRefused(d, after.formation))
    || (|after.policy| > |before.policy| && PolicyRefused(d, if phase.PolicyOnly? then fork else before.formation, after.policy))
  }

  lemma {:induction false} SamplesStop(d: Driver, memory: seq<FormationCall>, call: PolicyCall, calls: seq<PolicyCall>, n: nat)
    requires call.Recall?
    ensures var r := Samples(d, memory, call, calls, n);
            && calls <= r.calls && (n > 0 ==> |r.calls| > |calls|)
            && (r.failure.Some? ==> r.failure == Some(DriverError))
            && (n > 0 ==> (r.failure.Some? <==> PolicyRefused(d, memory, r.calls)))
            && (n == 0 ==> r.failure.None? && r.calls == calls)
  {
    if n > 0 { SamplesStop(d, memory, call, calls, n - 1); }
  }

  lemma CheckpointStops(d: Driver, s: Scenario, p: Profile, memory: seq<FormationCall>, run: Run, turn: Turn)
    requires run.failure.None?
    ensures var after := CheckpointStep(d, s, p, memory, run, turn);
            && run.policy <= after.policy && after.formation == run.formation
            && (after.failure == Some(MissingQuery) <==> !HasQuery(turn))
            && (after.failure == Some(DriverError) <==> |after.policy| > |run.policy| && PolicyRefused(d, memory, after.policy))
            && after.failure in {None, Some(MissingQuery), Some(DriverError)}
  {
    if CheckpointQuery(turn).Some? {
      SamplesStop(d, memory, Recall(CheckpointQuery(turn).value, TurnContext(s, turn)), run.policy, SampleCount(p));
    }
  }

  // ---- Why a turn fails ----

  /** There is a query that says something, or a line that does, or a first message with a text. */
  predicate HasQuery(turn: Turn) {
    || (turn.query.Some? && Trim(turn.query.value) != [])
    || (turn.user.Some? && (turn.user.value.Chatter? || Trim(turn.user.value.text) != []))
    || (turn.messages != [] && turn.messages[0].text.Some?)
  }

  /** What the simulator is asked: the hidden profile, the intent, the latest lines and the five latest ratings. */
  function AskSimulator(s: Scenario, run: Run, intent: string): seq<FormationCall> {
    var trail := if |run.trail| > 5 then run.trail[|run.trail| - 5..] else run.trail;
    run.formation + [Complete(Prompt(s.hiddenProfile, intent, run.transcript, trail))]
  }

  lemma FormStops(d: Driver, s: Scenario, run: Run, turn: Turn)
    requires run.failure.None? && turn.kind.IsUser()
    ensures var after := FormStep(d, s, run, turn);
            && run.formation <= after.formation && after.policy == run.policy
            && after.answers == run.answers && after.trail == run.trail && after.sinceMaintenance == run.sinceMaintenance
            && (after.failure == Some(MissingMessages) <==> turn.kind.Normal? && turn.messages == [] && turn.user.None?)
            && (after.failure == Some(MissingIntent) <==> turn.kind.Simulated? && turn.intent.None?)
            && (after.failure == Some(EmptySimulatedMessage)
                <==> && turn.kind.Simulated? && turn.intent.Some?
                     && d.complete(AskSimulator(s, run, turn.intent.value)).Some?
                     && Trim(d.complete(AskSimulator(s, run, turn.intent.value)).value) == [])
            && (after.failure == Some(DriverError) <==> |after.formation| > |run.formation| && FormationRefused(d, after.formation))
            && after.failure != Some(MissingQuery)
            && (after.failure.Some? ==> after.transcript == run.transcript)
  {
  }

  lemma CadenceStops(d: Driver, p: Profile, run: Run, turn: Turn)
    requires run.failure.None?
    ensures var after := CadenceStep(d, p, run, turn);
            && run.policy <= after.policy && after.formation == run.formation
            && after.answers == run.answers && after.trail == run.trail
            && after.failure in {None, Some(DriverError)}
            && (after.failure == Some(DriverError) <==> |after.policy| > |run.policy| && !d.maintain(after.policy))
            && (|after.policy| > |run.policy| ==> after.policy[|after.policy| - 1].Maintain?)
  {
  }

  /** Exactly why a turn of a run that was fine fails: it lacks its messages, intent or query, the simulator wrote nothing
      but white space, or the last call the turn made got no reply. A failed turn adds no answer and no rating, and the
      calls made before it stay on record. */
  lemma WhyTurnFails(d: Driver, s: Scenario, p: Profile, phase: Phase, fork: seq<FormationCall>, run: Run, turn: Turn)
    requires run.failure.None?
    ensures var after := Step(d, s, p, phase, fork, run, turn);
            && (after.failure == Some(MissingMessages)
                <==> !phase.PolicyOnly? && turn.kind.Normal? && turn.messages == [] && turn.user.None?)
            && (after.failure == Some(MissingIntent) <==> !phase.PolicyOnly? && turn.kind.Simulated? && turn.intent.None?)
            && (after.failure == Some(MissingQuery) <==> !phase.FormationOnly? && turn.kind.IsCheckpoint() && !HasQuery(turn))
            && (after.failure == Some(EmptySimulatedMessage)
                <==> && !phase.PolicyOnly? && turn.kind.Simulated? && turn.intent.Some?
                     && d.complete(AskSimulator(s, run, turn.intent.value)).Some?
                     && Trim(d.complete(AskSimulator(s, run, turn.intent.value)).value) == [])
            && (after.failure == Some(DriverError) <==> LastCallRefused(d, phase, fork, run, after))
            && run.formation <= after.formation && run.policy <= after.policy
            && (after.failure.Some? ==> after.answers == run.answers && after.trail == run.trail)
  {
    if turn.kind.IsUser() {
      if !phase.PolicyOnly? { FormStops(d, s, run, turn); }
      var formed := if phase.PolicyOnly? then run else FormStep(d, s, run, turn);
      if formed.failure.None? && !phase.FormationOnly? { CadenceStops(d, p, formed, turn); }
    } else if turn.kind.IsCheckpoint() && !phase.FormationOnly? {
      CheckpointStops(d, s, p, Memory(phase, fork, run), run, turn);
    }
  }

  /** A failed run stopped at one turn: it was fine before it, and ended as this turn left it. */
  lemma {:induction false} FailsAtOneTurn(d: Driver, s: Scenario, p: Profile, phase: Phase, fork: seq<FormationCall>,
                                          turns: seq<Turn>, n: nat) returns (u: nat)
    requires n <= |turns| && Replay(d, s, p, phase, fork, turns, n).failure.Some?
    ensures u < n && Replay(d, s, p, phase, fork, turns, u).failure.None?
    ensures Replay(d, s, p, phase, fork, turns, n)
         == Step(d, s, p, phase, fork, Replay(d, s, p, phase, fork, turns, u), turns[u])
  {
    if Replay(d, s, p, phase, fork, turns, n - 1).failure.Some? {
      u := FailsAtOneTurn(d, s, p, phase, fork, turns, n - 1);
    } else {
      u := n - 1;
    }
  }

  // ---- What a turn leaves in the conversation ----

  /** The line of a normal turn: its own, or the texts of its first message. */
  predicate IsSaid(lines: seq<Line>, turn: Turn) {
    && (turn.user.Some? ==> lines == [Said(turn.user.value)])
    && (turn.user.None? && turn.messages != [] && JoinWords(turn.messages[0].texts) != [] ==>
          lines == [Said(Typed(JoinWords(turn.messages[0].texts)))])
    && (turn.user.None? && (turn.messages == [] || JoinWords(turn.messages[0].texts) == []) ==> lines == [])
  }

  /** The newest twelve lines. */
  function Twelve(lines: seq<Line>): seq<Line> {
    if |lines| <= 12 then lines else lines[|lines| - 12..]
  }

  /** What a fine turn adds to the conversation, of which the newest twelve lines stay: what its user says, or what the
      simulator wrote for it, unless it is noise; and what memory answers at a checkpoint. */
  lemma TranscriptSays(d: Driver, s: Scenario, p: Profile, phase: Phase, fork: seq<FormationCall>, run: Run, turn: Turn)
    returns (lines: seq<Line>)
    requires run.failure.None? && |run.transcript| <= 12 && Step(d, s, p, phase, fork, run, turn).failure.None?
    ensures Step(d, s, p, phase, fork, run, turn).transcript == Twelve(run.transcript + lines)
    ensures var after := Step(d, s, p, phase, fork, run, turn);
            match turn.kind
            case Normal => if phase.PolicyOnly? || turn.noise then lines == [] else IsSaid(lines, turn)
            case Simulated =>
              if phase.PolicyOnly? || turn.noise then lines == []
              else var reply := d.complete(AskSimulator(s, run, turn.intent.value));
                   reply.Some? && lines == [Said(Typed(Trim(reply.value)))]
            case Maintenance => lines == []
            case _ =>
              if phase.FormationOnly? then lines == []
              else var memory := if phase.PolicyOnly? then fork else run.formation;
                   lines == [Answered(d.digest(memory, after.policy, turn, after.answers[|run.answers|..]).answer)]
  {
    lines := [];
    assert run.transcript + [] == run.transcript;
    if turn.kind.IsUser() {
      if !phase.PolicyOnly? && !turn.noise {
        lines := Heard(turn, Encode(d, s, turn, run.formation, run.transcript, run.trail).message);
      }
    } else if turn.kind.IsCheckpoint() && !phase.FormationOnly? {
      var c := Checkpointed(d, s, p, Memory(phase, fork, run), turn, run.policy);
      assert (run.answers + c.answers)[|run.answers|..] == c.answers;
      lines := [Answered(d.digest(Memory(phase, fork, run), c.calls, turn, c.answers).answer)];
    }
  }
}
