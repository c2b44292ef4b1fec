/**
 The order in which a whole run calls formation and the policies, compared with forming everything first and
 running the policies over the fork. It matters to a memory that can tell a maintenance cycle between two
 memories from one after both.
 */
module EvalOrder {
  import opened Prelude
  import opened EvalTimeline
  import opened EvalRun

  datatype Call = Form(form: FormationCall) | Policy(policy: PolicyCall)

  function Forms(calls: seq<FormationCall>): seq<Call> {
    seq(|calls|, i requires 0 <= i < |calls| => Form(calls[i]))
  }

  function Policies(calls: seq<PolicyCall>): seq<Call> {
    seq(|calls|, i requires 0 <= i < |calls| => Policy(calls[i]))
  }

  function After(d: Driver, s: Scenario, p: Profile, turns: seq<Turn>, n: nat): Run
    requires n <= |turns|
  {
    Replay(d, s, p, Full, [], turns, n)
  }

  /** The whole run before each turn and after the last. */
  function Course(d: Driver, s: Scenario, p: Profile, turns: seq<Turn>): (runs: seq<Run>)
    ensures |runs| == |turns| + 1 && forall n :: 0 <= n <= |turns| ==> runs[n] == After(d, s, p, turns, n)
  {
    seq(|turns| + 1, n requires 0 <= n <= |turns| => After(d, s, p, turns, n))
  }

  function Rest<T>(all: seq<T>, n: nat): seq<T> {
    if n <= |all| then all[n..] else []
  }

  /** The calls one turn made: formation comes first. */
  function Made(before: Run, after: Run): seq<Call> {
    Forms(Rest(after.formation, |before.formation|)) + Policies(Rest(after.policy, |before.policy|))
  }

  /** What each turn made. */
  function MadeByTurn(runs: seq<Run>): (parts: seq<seq<Call>>)
    requires runs != []
    ensures |parts| == |runs| - 1
  {
    seq(|runs| - 1, k requires 0 <= k < |runs| - 1 => Made(runs[k], runs[k + 1]))
  }

  function Joined<T>(parts: seq<seq<T>>, n: nat): seq<T>
    requires n <= |parts|
  {
    if n == 0 then [] else Joined(parts, n - 1) + parts[n - 1]
  }

  /** The calls of the first `n` turns, in the order they were made. */
  function Order(runs: seq<Run>, n: nat): seq<Call>
    requires n < |runs|
  {
    Joined(MadeByTurn(runs), n)
  }

  lemma OrderNext(runs: seq<Run>, n: nat)
    requires 0 < n < |runs|
    ensures Order(runs, n) == Order(runs, n - 1) + Made(runs[n - 1], runs[n])
  {
    assert MadeByTurn(runs)[n - 1] == Made(runs[n - 1], runs[n]);
  }

  // ---- What a turn adds ----

  lemma {:induction false} SamplesExtend(d: Driver, memory: seq<FormationCall>, call: PolicyCall, calls: seq<PolicyCall>, n: nat)
    ensures var r := Samples(d, memory, call, calls, n); calls <= r.calls && (n > 0 ==> |calls| < |r.calls|)
  {
    if n > 0 { SamplesExtend(d, memory, call, calls, n - 1); }
  }

  lemma CheckpointAdds(d: Driver, s: Scenario, p: Profile, run: Run, turn: Turn)
    requires turn.kind.IsCheckpoint() && run.failure.None?
    ensures var after := Step(d, s, p, Full, [], run, turn);
            after.formation == run.formation && run.policy <= after.policy && (after.failure.None? ==> |run.policy| < |after.policy|)
  {
    if CheckpointQuery(turn).Some? {
      SamplesExtend(d, run.formation, Recall(CheckpointQuery(turn).value, TurnContext(s, turn)), run.policy, SampleCount(p));
    }
  }

  lemma UserAdds(d: Driver, s: Scenario, p: Profile, run: Run, turn: Turn)
    requires turn.kind.IsUser() && run.failure.None?
    ensures var after := Step(d, s, p, Full, [], run, turn);
            && run.formation <= after.formation && run.policy <= after.policy
            && (after.failure.None? ==> |run.formation| < |after.formation|)
  {
  }

  lemma StepAdds(d: Driver, s: Scenario, p: Profile, run: Run, turn: Turn)
    requires run.failure.None?
    ensures var after := Step(d, s, p, Full, [], run, turn);
            && run.formation <= after.formation && run.policy <= after.policy
            && (!turn.kind.IsUser() ==> after.formation == run.formation)
            && (!turn.kind.IsUser() && after.failure.None? ==> |run.policy| < |after.policy|)
            && (turn.kind.IsUser() && after.failure.None? ==> |run.formation| < |after.formation|)
  {
    if turn.kind.IsUser() {
      UserAdds(d, s, p, run, turn);
    } else if turn.kind.IsCheckpoint() {
      CheckpointAdds(d, s, p, run, turn);
    }
  }

  /** A run that has not failed had not failed before. */
  lemma {:induction false} FineBefore(d: Driver, s: Scenario, p: Profile, turns: seq<Turn>, i: nat, n: nat)
    requires i <= n <= |turns| && After(d, s, p, turns, n).failure.None?
    ensures After(d, s, p, turns, i).failure.None?
  {
    if i < n { FineBefore(d, s, p, turns, i, n - 1); }
  }

  lemma NextAdds(d: Driver, s: Scenario, p: Profile, turns: seq<Turn>, n: nat)
    requires 0 < n <= |turns| && After(d, s, p, turns, n).failure.None?
    ensures var run, after, turn := After(d, s, p, turns, n - 1), After(d, s, p, turns, n), turns[n - 1];
            && run.failure.None?
            && run.formation <= after.formation && run.policy <= after.policy
            && (turn.kind.IsUser() ==> |run.formation| < |after.formation|)
            && (!turn.kind.IsUser() ==> after.formation == run.formation && |run.policy| < |after.policy|)
  {
    FineBefore(d, s, p, turns, n - 1, n);
    StepAdds(d, s, p, After(d, s, p, turns, n - 1), turns[n - 1]);
  }

  // ---- The order is kept exactly when no policy call comes before a formation call ----

  /** A course of calls only grows. */
  ghost predicate Growing(runs: seq<Run>, n: nat)
    requires n < |runs|
  {
    && runs[0].formation == [] && runs[0].policy == []
    && forall k :: 0 < k <= n ==> runs[k - 1].formation <= runs[k].formation && runs[k - 1].policy <= runs[k].policy
  }

  predicate FormsAt(runs: seq<Run>, u: nat)
    requires u + 1 < |runs|
  {
    |runs[u].formation| < |runs[u + 1].formation|
  }

  /** Whenever something is formed, no policy has run yet. */
  ghost predicate FormsFirst(runs: seq<Run>, n: nat)
    requires n < |runs|
  {
    forall u: nat :: u < n && FormsAt(runs, u) ==> runs[u].policy == []
  }

  ghost predicate Sorted(calls: seq<Call>, run: Run) {
    calls == Forms(run.formation) + Policies(run.policy)
  }

  lemma FormsSplit(calls: seq<FormationCall>, more: seq<FormationCall>)
    requires calls <= more
    ensures Forms(more) == Forms(calls) + Forms(Rest(more, |calls|))
  {
  }

  lemma PoliciesSplit(calls: seq<PolicyCall>, more: seq<PolicyCall>)
    requires calls <= more
    ensures Policies(more) == Policies(calls) + Policies(Rest(more, |calls|))
  {
  }

  lemma Regroup(a: seq<Call>, b: seq<Call>, c: seq<Call>, d: seq<Call>)
    requires b == [] || c == []
    ensures a + b + (c + d) == (a + c) + (b + d)
  {
  }

  lemma SortedNext(calls: seq<Call>, run: Run, after: Run)
    requires Sorted(calls, run) && run.formation <= after.formation && run.policy <= after.policy
    requires run.policy == [] || |run.formation| == |after.formation|
    ensures Sorted(calls + Made(run, after), after)
  {
    FormsSplit(run.formation, after.formation);
    PoliciesSplit(run.policy, after.policy);
    Regroup(Forms(run.formation), Policies(run.policy), Forms(Rest(after.formation, |run.formation|)),
            Policies(Rest(after.policy, |run.policy|)));
  }

  lemma {:induction false} FormsFirstIsSorted(runs: seq<Run>, n: nat)
    requires n < |runs| && Growing(runs, n) && FormsFirst(runs, n)
    ensures Sorted(Order(runs, n), runs[n])
  {
    if n > 0 {
      FormsFirstIsSorted(runs, n - 1);
      assert runs[n - 1].formation <= runs[n].formation;
      assert FormsAt(runs, n - 1) ==> runs[n - 1].policy == [];
      OrderNext(runs, n);
      SortedNext(Order(runs, n - 1), runs[n - 1], runs[n]);
    }
  }

  /** A policy call comes before a formation call. */
  ghost predicate MixedAt(calls: seq<Call>, i: nat, j: nat) {
    i < j < |calls| && calls[i].Policy? && calls[j].Form?
  }

  lemma SortedIsNotMixed(calls: seq<Call>, run: Run, i: nat, j: nat)
    requires Sorted(calls, run)
    ensures !MixedAt(calls, i, j)
  {
  }

  lemma {:induction false} JoinedGrows<T>(parts: seq<seq<T>>, m: nat, n: nat)
    requires m <= n <= |parts|
    ensures Joined(parts, m) <= Joined(parts, n)
  {
    if m < n { JoinedGrows(parts, m, n - 1); }
  }

  lemma MixedLonger(calls: seq<Call>, longer: seq<Call>, i: nat, j: nat)
    requires MixedAt(calls, i, j) && calls <= longer
    ensures MixedAt(longer, i, j)
  {
  }

  lemma MadePolicyLast(run: Run, after: Run)
    requires run.policy == [] && after.policy != []
    ensures var made := Made(run, after); made != [] && made[|made| - 1].Policy?
  {
  }

  lemma MadeFormFirst(run: Run, after: Run)
    requires |run.formation| < |after.formation|
    ensures var made := Made(run, after); made != [] && made[0].Form?
  {
  }

  predicate PolicyAt(calls: seq<Call>, i: nat) {
    i < |calls| && calls[i].Policy?
  }

  lemma PolicyAtAppend(a: seq<Call>, b: seq<Call>, i: nat)
    ensures PolicyAt(a, i) ==> PolicyAt(a + b, i)
    ensures PolicyAt(b, i) ==> PolicyAt(a + b, |a| + i)
  {
  }

  lemma {:induction false} PolicyShows(runs: seq<Run>, n: nat) returns (i: nat)
    requires n < |runs| && runs[0].policy == [] && runs[n].policy != []
    ensures PolicyAt(Order(runs, n), i)
  {
    var before, made := Order(runs, n - 1), Made(runs[n - 1], runs[n]);
    OrderNext(runs, n);
    if runs[n - 1].policy != [] {
      i := PolicyShows(runs, n - 1);
      PolicyAtAppend(before, made, i);
    } else {
      MadePolicyLast(runs[n - 1], runs[n]);
      PolicyAtAppend(before, made, |made| - 1);
      i := |before| + (|made| - 1);
    }
  }

  lemma LateFormMixes(runs: seq<Run>, u: nat) returns (i: nat, j: nat)
    requires u + 1 < |runs| && Growing(runs, u) && FormsAt(runs, u) && runs[u].policy != []
    ensures MixedAt(Order(runs, u + 1), i, j)
  {
    i := PolicyShows(runs, u);
    j := |Order(runs, u)|;
    OrderNext(runs, u + 1);
    MadeFormFirst(runs[u], runs[u + 1]);
  }

  lemma MixedUnsorts(calls: seq<Call>, longer: seq<Call>, run: Run, i: nat, j: nat)
    requires MixedAt(calls, i, j) && calls <= longer
    ensures !Sorted(longer, run)
  {
    MixedLonger(calls, longer, i, j);
    if Sorted(longer, run) { SortedIsNotMixed(longer, run, i, j); }
  }

  lemma LateFormUnsorts(runs: seq<Run>, u: nat, n: nat)
    requires u < n < |runs| && Growing(runs, n) && FormsAt(runs, u) && runs[u].policy != []
    ensures !Sorted(Order(runs, n), runs[n])
  {
    var i, j := LateFormMixes(runs, u);
    JoinedGrows(MadeByTurn(runs), u + 1, n);
    MixedUnsorts(Order(runs, u + 1), Order(runs, n), runs[n], i, j);
  }

  lemma SortedIffFormsFirst(runs: seq<Run>, n: nat)
    requires n < |runs| && Growing(runs, n)
    ensures Sorted(Order(runs, n), runs[n]) <==> FormsFirst(runs, n)
  {
    if FormsFirst(runs, n) {
      FormsFirstIsSorted(runs, n);
    } else {
      var u: nat :| u < n && FormsAt(runs, u) && runs[u].policy != [];
      LateFormUnsorts(runs, u, n);
    }
  }

  // ---- ... which the timeline tells ----

  /** No maintenance turn, no checkpoint and no cycle of the cadence among the first `n` turns. */
  predicate Quiet(turns: seq<Turn>, p: Profile, n: nat)
    requires n <= |turns|
  {
    && (forall i :: 0 <= i < n ==> turns[i].kind.IsUser())
    && (p.maintenanceEvery.Some? && p.maintenanceEvery.value > 0 ==> n < p.maintenanceEvery.value)
  }

  predicate CycleIsDue(p: Profile, since: nat) {
    p.maintenanceEvery.Some? && p.maintenanceEvery.value > 0 && since >= p.maintenanceEvery.value
  }

  lemma UserPolicy(d: Driver, s: Scenario, p: Profile, run: Run, turn: Turn)
    requires turn.kind.IsUser() && run.failure.None? && Step(d, s, p, Full, [], run, turn).failure.None?
    ensures var after := Step(d, s, p, Full, [], run, turn);
            if CycleIsDue(p, run.sinceMaintenance + 1) then |after.policy| == |run.policy| + 1
            else after.policy == run.policy && after.sinceMaintenance == run.sinceMaintenance + 1
  {
  }

  lemma QuietNext(turns: seq<Turn>, p: Profile, n: nat)
    requires 0 < n <= |turns|
    ensures Quiet(turns, p, n) <==> Quiet(turns, p, n - 1) && turns[n - 1].kind.IsUser() && !CycleIsDue(p, n)
  {
  }

  lemma {:induction false} QuietIff(d: Driver, s: Scenario, p: Profile, turns: seq<Turn>, n: nat)
    requires n <= |turns| && After(d, s, p, turns, n).failure.None?
    ensures After(d, s, p, turns, n).policy == [] <==> Quiet(turns, p, n)
    ensures Quiet(turns, p, n) ==> After(d, s, p, turns, n).sinceMaintenance == n
  {
    if n > 0 {
      var run := After(d, s, p, turns, n - 1);
      NextAdds(d, s, p, turns, n);
      QuietIff(d, s, p, turns, n - 1);
      QuietNext(turns, p, n);
      if turns[n - 1].kind.IsUser() { UserPolicy(d, s, p, run, turns[n - 1]); }
    }
  }

  /** Every user turn comes before anything a policy does. */
  predicate MemoriesFirst(turns: seq<Turn>, p: Profile, n: nat)
    requires n <= |turns|
  {
    forall u :: 0 <= u < n && turns[u].kind.IsUser() ==> Quiet(turns, p, u)
  }

  lemma CallsGrow(d: Driver, s: Scenario, p: Profile, turns: seq<Turn>, k: nat, n: nat)
    requires 0 < k <= n <= |turns| && After(d, s, p, turns, n).failure.None?
    ensures var run, after := After(d, s, p, turns, k - 1), After(d, s, p, turns, k);
            && run.formation <= after.formation && run.policy <= after.policy
            && (|run.formation| < |after.formation| <==> turns[k - 1].kind.IsUser())
  {
    FineBefore(d, s, p, turns, k, n);
    NextAdds(d, s, p, turns, k);
  }

  lemma CourseGrows(d: Driver, s: Scenario, p: Profile, turns: seq<Turn>, n: nat)
    requires n <= |turns| && After(d, s, p, turns, n).failure.None?
    ensures Growing(Course(d, s, p, turns), n)
  {
    var runs := Course(d, s, p, turns);
    forall k | 0 < k <= n
      ensures runs[k - 1].formation <= runs[k].formation && runs[k - 1].policy <= runs[k].policy
    {
      CallsGrow(d, s, p, turns, k, n);
    }
  }

  lemma FormsAtUsers(d: Driver, s: Scenario, p: Profile, turns: seq<Turn>, u: nat, n: nat)
    requires u < n <= |turns| && After(d, s, p, turns, n).failure.None?
    ensures FormsAt(Course(d, s, p, turns), u) <==> turns[u].kind.IsUser()
  {
    CallsGrow(d, s, p, turns, u + 1, n);
  }

  /** A run calls formation first and the policies after, if and only if no user turn comes after a maintenance
      turn or a checkpoint, and the cadence is off or not due before the last user turn. */
  lemma OrderIsKeptIff(d: Driver, s: Scenario, p: Profile, turns: seq<Turn>, n: nat)
    requires n <= |turns| && After(d, s, p, turns, n).failure.None?
    ensures Sorted(Order(Course(d, s, p, turns), n), After(d, s, p, turns, n)) <==> MemoriesFirst(turns, p, n)
  {
    var runs := Course(d, s, p, turns);
    CourseGrows(d, s, p, turns, n);
    SortedIffFormsFirst(runs, n);
    forall u: nat | u < n
      ensures FormsAt(runs, u) <==> turns[u].kind.IsUser()
      ensures runs[u].policy == [] <==> Quiet(turns, p, u)
    {
      FormsAtUsers(d, s, p, turns, u, n);
      FineBefore(d, s, p, turns, u, n);
      QuietIff(d, s, p, turns, u);
    }
  }

  lemma SameMemory(d: Driver, s: Scenario, p: Profile, c: nat)
    requires SharedIssues(s) == [] && c < |Effective(s)| && Effective(s)[c].kind.IsCheckpoint()
    requires After(d, s, p, Effective(s), c).failure.None?
    ensures var turns, fork := Effective(s), RunOf(d, s, p, FormationOnly, []).formation;
            var full, forked := After(d, s, p, turns, c), Replay(d, s, p, PolicyOnly, fork, turns, c);
            full.formation == fork && full.policy == forked.policy
    ensures UserTurnsFirst(Effective(s))
  {
    var turns, fork := Effective(s), RunOf(d, s, p, FormationOnly, []).formation;
    SharedIssuesExact(s);
    HalvesAgree(d, s, p, turns, fork, c);
    NothingMoreIsFormed(d, s, p, turns, c, |turns|);
  }

  /** What the fork leaves open: in a scenario without shared-formation issues, the memory a checkpoint reads was
      made by the same calls either way, and in the same order if and only if every user turn of the scenario
      comes before anything a policy does. */
  lemma ForkKeepsOrderIff(d: Driver, s: Scenario, p: Profile, c: nat)
    requires SharedIssues(s) == [] && c < |Effective(s)| && Effective(s)[c].kind.IsCheckpoint()
    requires After(d, s, p, Effective(s), c).failure.None?
    ensures var turns, fork := Effective(s), RunOf(d, s, p, FormationOnly, []).formation;
            var full, forked := After(d, s, p, turns, c), Replay(d, s, p, PolicyOnly, fork, turns, c);
            && full.formation == fork && full.policy == forked.policy
            && (Order(Course(d, s, p, turns), c) == Forms(fork) + Policies(forked.policy) <==> MemoriesFirst(turns, p, |turns|))
  {
    var turns := Effective(s);
    SameMemory(d, s, p, c);
    OrderIsKeptIff(d, s, p, turns, c);
    MemoriesBefore(turns, p, c);
  }

  lemma MemoriesBefore(turns: seq<Turn>, p: Profile, c: nat)
    requires c < |turns| && turns[c].kind.IsCheckpoint() && UserTurnsFirst(turns)
    ensures MemoriesFirst(turns, p, c) <==> MemoriesFirst(turns, p, |turns|)
  {
    assert forall u :: c < u < |turns| ==> !turns[u].kind.IsUser();
  }
}
