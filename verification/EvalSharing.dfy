/** Exactly what the check for shared formation reports, over all scenarios and in which order. */
module EvalSharing {
  import opened Prelude
  import opened EvalTimeline

  /** What a scenario is reported for: a user turn after a checkpoint, or noise that would come after one. */
  ghost predicate IsShared(s: Scenario, issue: SharedIssue) {
    match issue
    case LateUserTurn(u) => u < |s.timeline| && s.timeline[u].kind.IsUser() && exists c :: 0 <= c < u && s.timeline[c].kind.IsCheckpoint()
    case LateNoise => Gap(s) > 0 && exists c :: 0 <= c < |s.timeline| - 1 && s.timeline[c].kind.IsCheckpoint()
  }

  /** Scenario by scenario, turn by turn, and the noise last. */
  predicate Before(a: Located, b: Located) {
    || a.0 < b.0
    || (a.0 == b.0 && a.1.LateUserTurn? && (b.1.LateNoise? || a.1.turnIndex < b.1.turnIndex))
  }

  ghost predicate InOrder(issues: seq<Located>) {
    forall i, j :: 0 <= i < j < |issues| ==> Before(issues[i], issues[j])
  }

  ghost predicate AllBefore(issues: seq<Located>, issue: Located) {
    forall i :: 0 <= i < |issues| ==> Before(issues[i], issue)
  }

  lemma OneMoreInOrder(issues: seq<Located>, issue: Located)
    requires InOrder(issues) && AllBefore(issues, issue)
    ensures InOrder(issues + [issue])
  {
  }

  lemma JoinInOrder(a: seq<Located>, b: seq<Located>)
    requires InOrder(a) && InOrder(b) && forall j :: 0 <= j < |b| ==> AllBefore(a, b[j])
    ensures InOrder(a + b)
  {
  }

  lemma {:induction false} LateTurnsInOrder(index: nat, turns: seq<Turn>, n: nat)
    requires n <= |turns|
    ensures InOrder(At(index, LateTurns(turns, n)))
    ensures forall i :: 0 <= i < |LateTurns(turns, n)| ==> LateTurns(turns, n)[i].LateUserTurn? && LateTurns(turns, n)[i].turnIndex < n
  {
    if n > 0 {
      LateTurnsInOrder(index, turns, n - 1);
      if turns[n - 1].kind.IsUser() && CheckpointBefore(turns, n - 1) {
        AtNext(index, LateTurns(turns, n - 1), [LateUserTurn(n - 1)]);
        OneMoreInOrder(At(index, LateTurns(turns, n - 1)), (index, LateUserTurn(n - 1)));
      } else {
        assert LateTurns(turns, n) == LateTurns(turns, n - 1);
      }
    }
  }

  lemma SharedInOrder(index: nat, s: Scenario)
    ensures InOrder(At(index, SharedIssues(s)))
  {
    var late := LateTurns(s.timeline, |s.timeline|);
    LateTurnsInOrder(index, s.timeline, |s.timeline|);
    if NoiseAfterCheckpoint(s) {
      AtNext(index, late, [LateNoise]);
      OneMoreInOrder(At(index, late), (index, LateNoise));
    } else {
      assert SharedIssues(s) == late;
    }
  }

  lemma SharedIff(s: Scenario, issue: SharedIssue)
    ensures issue in SharedIssues(s) <==> IsShared(s, issue)
  {
    LateTurnsExact(s.timeline, |s.timeline|, issue);
    if issue.LateNoise? {
      assert NoiseAfterCheckpoint(s) <==> IsShared(s, LateNoise);
    }
  }

  lemma AtHas(index: nat, issues: seq<SharedIssue>, located: Located)
    ensures located in At(index, issues) <==> located.0 == index && located.1 in issues
  {
    if located.0 == index && located.1 in issues {
      var i :| 0 <= i < |issues| && issues[i] == located.1;
      assert At(index, issues)[i] == located;
    }
  }

  ghost predicate Lists(scenarios: seq<Scenario>, n: nat, all: seq<Located>, located: Located)
    requires n <= |scenarios|
  {
    located in all <==> located.0 < n && IsShared(scenarios[located.0], located.1)
  }

  lemma ListsNext(scenarios: seq<Scenario>, n: nat, all: seq<Located>, located: Located)
    requires n < |scenarios| && Lists(scenarios, n, all, located)
    ensures Lists(scenarios, n + 1, all + At(n, SharedIssues(scenarios[n])), located)
  {
    AtHas(n, SharedIssues(scenarios[n]), located);
    SharedIff(scenarios[n], located.1);
  }

  lemma {:induction false} AllIssuesIff(scenarios: seq<Scenario>, n: nat, located: Located)
    requires n <= |scenarios|
    ensures Lists(scenarios, n, AllSharedIssues(scenarios, n), located)
  {
    if n > 0 {
      AllIssuesIff(scenarios, n - 1, located);
      ListsNext(scenarios, n - 1, AllSharedIssues(scenarios, n - 1), located);
    }
  }

  lemma {:induction false} AllIssuesInOrder(scenarios: seq<Scenario>, n: nat)
    requires n <= |scenarios|
    ensures InOrder(AllSharedIssues(scenarios, n))
    ensures forall i :: 0 <= i < |AllSharedIssues(scenarios, n)| ==> AllSharedIssues(scenarios, n)[i].0 < n
  {
    if n > 0 {
      AllIssuesInOrder(scenarios, n - 1);
      SharedInOrder(n - 1, scenarios[n - 1]);
      JoinInOrder(AllSharedIssues(scenarios, n - 1), At(n - 1, SharedIssues(scenarios[n - 1])));
    }
  }

  /** The check reports, for every scenario, exactly the user turns after a checkpoint and the noise that would come after
      one, each once, scenario by scenario and turn by turn. */
  lemma SharedIssuesAreExact(scenarios: seq<Scenario>)
    ensures forall located: Located ::
              located in AllSharedIssues(scenarios, |scenarios|)
              <==> located.0 < |scenarios| && IsShared(scenarios[located.0], located.1)
    ensures InOrder(AllSharedIssues(scenarios, |scenarios|))
  {
    forall located: Located
      ensures located in AllSharedIssues(scenarios, |scenarios|)
              <==> located.0 < |scenarios| && IsShared(scenarios[located.0], located.1)
    {
      AllIssuesIff(scenarios, |scenarios|, located);
    }
    AllIssuesInOrder(scenarios, |scenarios|);
  }
}
