/** Exactly which issues validation reports for a scenario, in which order, and when it lets a scenario pass. */
module EvalIssues {
  import opened Prelude
  import opened Text
  import opened EvalTimeline
  import opened EvalRun
  import opened EvalValidation

  // ---- What there is to report ----

  predicate IsEmptyText(text: Option<string>) {
    text.None? || AllSpace(text.value)
  }

  /** Neither messages nor a line that is more than white space. */
  predicate SaysNothing(turn: Turn) {
    turn.messages == [] && (turn.user.None? || (turn.user.value.Typed? && AllSpace(turn.user.value.text)))
  }

  ghost predicate IdSeenBefore(turns: seq<Turn>, i: nat)
    requires i < |turns|
  {
    exists j :: 0 <= j < i && turns[j].id == turns[i].id
  }

  ghost predicate HasBlankEntry(s: Scenario) {
    s.noise.Some? && exists i :: 0 <= i < |s.noise.value.corpus| && AllSpace(s.noise.value.corpus[i])
  }

  ghost predicate HasCheckpoint(turns: seq<Turn>) {
    exists i :: 0 <= i < |turns| && turns[i].kind.IsCheckpoint()
  }

  /** What turn `i` itself gives reason to complain of. */
  ghost predicate IsAtFault(turns: seq<Turn>, i: nat, what: Complaint)
    requires i < |turns|
  {
    match what
    case ReservedNoise => turns[i].noise
    case DuplicateTurn => IdSeenBefore(turns, i)
    case TurnOutOfOrder => i > 0 && turns[i].id < turns[i - 1].id
    case NoMessages => turns[i].kind == Normal && SaysNothing(turns[i])
    case NoIntent => turns[i].kind == Simulated && IsEmptyText(turns[i].intent)
    case NoQuery => turns[i].kind.IsCheckpoint() && IsEmptyText(turns[i].query)
    case _ => false
  }

  /** What the scenario as a whole gives reason to complain of. */
  ghost predicate IsFaulty(s: Scenario, what: Complaint) {
    match what
    case NoTurns => s.timeline == []
    case NoiseIsNoOp => s.noise.Some? && s.noise.value.betweenTurns == 0
    case BlankNoise => HasBlankEntry(s)
    case NoCheckpoints => !HasCheckpoint(s.timeline)
    case _ => false
  }

  predicate IsFatal(what: Complaint) {
    what in {BlankNoise, ReservedNoise, DuplicateTurn, NoMessages, NoIntent, NoQuery}
  }

  ghost predicate IsDue(s: Scenario, issue: Issue) {
    && (issue.severity.Error? <==> IsFatal(issue.what))
    && match issue.turn
       case None => IsFaulty(s, issue.what)
       case Some(i) => i < |s.timeline| && IsAtFault(s.timeline, i, issue.what)
  }

  // ---- In which order ----

  function Rank(what: Complaint): nat {
    match what
    case NoTurns => 0
    case NoiseIsNoOp => 1
    case BlankNoise => 2
    case ReservedNoise => 0
    case DuplicateTurn => 1
    case TurnOutOfOrder => 2
    case _ => 3
  }

  /** The header comes first, then turn by turn, then the missing checkpoints. */
  function Place(issue: Issue, length: nat): nat {
    match issue.turn
    case None => if issue.what.NoCheckpoints? then 4 * length + 4 else Rank(issue.what)
    case Some(i) => 4 * i + 4 + Rank(issue.what)
  }

  /** In ascending order of place, from `low` and below `high`. */
  ghost predicate Climbs(issues: seq<Issue>, low: nat, high: nat, length: nat) {
    && low <= high
    && (forall i :: 0 <= i < |issues| ==> low <= Place(issues[i], length) < high)
    && (forall i, j :: 0 <= i < j < |issues| ==> Place(issues[i], length) < Place(issues[j], length))
  }

  lemma AddClimbs(issues: seq<Issue>, low: nat, place: nat, condition: bool, issue: Issue, length: nat)
    requires Climbs(issues, low, place, length) && Place(issue, length) == place
    ensures Climbs(Add(issues, condition, issue), low, place + 1, length)
  {
  }

  // ---- How often ----

  function Times(issues: seq<Issue>, issue: Issue): nat {
    if issues == [] then 0
    else Times(issues[..|issues| - 1], issue) + if issues[|issues| - 1] == issue then 1 else 0
  }

  lemma TimesAdded(issues: seq<Issue>, condition: bool, found: Issue, issue: Issue)
    ensures Times(Add(issues, condition, found), issue) == Times(issues, issue) + if condition && found == issue then 1 else 0
  {
    if condition { assert (issues + [found])[..|issues|] == issues; }
  }

  lemma {:induction false} TimesIsMultiplicity(issues: seq<Issue>, issue: Issue)
    ensures multiset(issues)[issue] == Times(issues, issue)
  {
    if issues != [] {
      TimesIsMultiplicity(issues[..|issues| - 1], issue);
      assert issues == issues[..|issues| - 1] + [issues[|issues| - 1]];
    }
  }

  // ---- Blank texts ----

  lemma AnyBlankIff(s: Scenario)
    ensures s.noise.Some? && AnyBlank(s.noise.value.corpus) <==> HasBlankEntry(s)
  {
    if s.noise.Some? {
      forall i | 0 <= i < |s.noise.value.corpus|
        ensures Trim(s.noise.value.corpus[i]) == [] <==> AllSpace(s.noise.value.corpus[i])
      {
        BlankIff(s.noise.value.corpus[i]);
      }
    }
  }

  // ---- One turn ----

  lemma SaysNothingIff(turn: Turn)
    ensures HasInput(turn) <==> !SaysNothing(turn)
    ensures HasText(turn.intent) <==> !IsEmptyText(turn.intent)
    ensures HasText(turn.query) <==> !IsEmptyText(turn.query)
  {
    if turn.user.Some? && turn.user.value.Typed? { BlankIff(turn.user.value.text); }
    if turn.intent.Some? { BlankIff(turn.intent.value); }
    if turn.query.Some? { BlankIff(turn.query.value); }
  }

  ghost predicate IsDueAt(turns: seq<Turn>, i: nat, issue: Issue)
    requires i < |turns|
  {
    issue.turn == Some(i) && (issue.severity.Error? <==> IsFatal(issue.what)) && IsAtFault(turns, i, issue.what)
  }

  predicate AboutContent(what: Complaint) {
    what.NoMessages? || what.NoIntent? || what.NoQuery?
  }

  predicate IsKindIssue(turn: Turn, i: nat, issue: Issue) {
    match turn.kind
    case Normal => !HasInput(turn) && issue == Issue(Error, Some(i), NoMessages)
    case Simulated => !HasText(turn.intent) && issue == Issue(Error, Some(i), NoIntent)
    case Maintenance => false
    case _ => !HasText(turn.query) && issue == Issue(Error, Some(i), NoQuery)
  }

  lemma KindIssueIs(issues: seq<Issue>, turn: Turn, i: nat, issue: Issue)
    ensures Times(AddKindIssue(issues, turn, i), issue) == Times(issues, issue) + if IsKindIssue(turn, i, issue) then 1 else 0
  {
    match turn.kind
    case Normal => TimesAdded(issues, !HasInput(turn), Issue(Error, Some(i), NoMessages), issue);
    case Simulated => TimesAdded(issues, !HasText(turn.intent), Issue(Error, Some(i), NoIntent), issue);
    case Maintenance =>
    case _ => TimesAdded(issues, !HasText(turn.query), Issue(Error, Some(i), NoQuery), issue);
  }

  lemma KindDueIff(turns: seq<Turn>, i: nat, issue: Issue)
    requires i < |turns|
    ensures IsKindIssue(turns[i], i, issue) <==> AboutContent(issue.what) && IsDueAt(turns, i, issue)
  {
    SaysNothingIff(turns[i]);
  }

  predicate IsNumberIssue(turns: seq<Turn>, i: nat, issue: Issue)
    requires i < |turns|
  {
    || (turns[i].noise && issue == Issue(Error, Some(i), ReservedNoise))
    || (Repeats(turns, i) && issue == Issue(Error, Some(i), DuplicateTurn))
    || (i > 0 && turns[i].id < turns[i - 1].id && issue == Issue(Warning, Some(i), TurnOutOfOrder))
  }

  lemma NumberIssuesAre(issues: seq<Issue>, turns: seq<Turn>, i: nat, issue: Issue)
    requires i < |turns|
    ensures Times(AddNumberIssues(issues, turns, i), issue) == Times(issues, issue) + if IsNumberIssue(turns, i, issue) then 1 else 0
  {
    var reserved := Add(issues, turns[i].noise, Issue(Error, Some(i), ReservedNoise));
    var repeated := Add(reserved, Repeats(turns, i), Issue(Error, Some(i), DuplicateTurn));
    TimesAdded(issues, turns[i].noise, Issue(Error, Some(i), ReservedNoise), issue);
    TimesAdded(reserved, Repeats(turns, i), Issue(Error, Some(i), DuplicateTurn), issue);
    TimesAdded(repeated, i > 0 && turns[i].id < turns[i - 1].id, Issue(Warning, Some(i), TurnOutOfOrder), issue);
  }

  lemma NumberDueIff(turns: seq<Turn>, i: nat, issue: Issue)
    requires i < |turns|
    ensures IsNumberIssue(turns, i, issue) <==> !AboutContent(issue.what) && IsDueAt(turns, i, issue)
  {
  }

  lemma TurnIssuesAre(issues: seq<Issue>, turns: seq<Turn>, i: nat, issue: Issue)
    requires i < |turns|
    ensures Times(AddTurnIssues(issues, turns, i), issue) == Times(issues, issue) + if IsDueAt(turns, i, issue) then 1 else 0
  {
    NumberIssuesAre(issues, turns, i, issue);
    NumberDueIff(turns, i, issue);
    KindIssueIs(AddNumberIssues(issues, turns, i), turns[i], i, issue);
    KindDueIff(turns, i, issue);
  }

  lemma KindIssueClimbs(issues: seq<Issue>, low: nat, turn: Turn, i: nat, length: nat)
    requires Climbs(issues, low, 4 * i + 7, length)
    ensures Climbs(AddKindIssue(issues, turn, i), low, 4 * i + 8, length)
  {
    match turn.kind
    case Normal => AddClimbs(issues, low, 4 * i + 7, !HasInput(turn), Issue(Error, Some(i), NoMessages), length);
    case Simulated => AddClimbs(issues, low, 4 * i + 7, !HasText(turn.intent), Issue(Error, Some(i), NoIntent), length);
    case Maintenance =>
    case _ => AddClimbs(issues, low, 4 * i + 7, !HasText(turn.query), Issue(Error, Some(i), NoQuery), length);
  }

  lemma NumberIssuesClimb(issues: seq<Issue>, low: nat, turns: seq<Turn>, i: nat, length: nat)
    requires i < |turns| && Climbs(issues, low, 4 * i + 4, length)
    ensures Climbs(AddNumberIssues(issues, turns, i), low, 4 * i + 7, length)
  {
    var reserved := Add(issues, turns[i].noise, Issue(Error, Some(i), ReservedNoise));
    var repeated := Add(reserved, Repeats(turns, i), Issue(Error, Some(i), DuplicateTurn));
    AddClimbs(issues, low, 4 * i + 4, turns[i].noise, Issue(Error, Some(i), ReservedNoise), length);
    AddClimbs(reserved, low, 4 * i + 5, Repeats(turns, i), Issue(Error, Some(i), DuplicateTurn), length);
    AddClimbs(repeated, low, 4 * i + 6, i > 0 && turns[i].id < turns[i - 1].id, Issue(Warning, Some(i), TurnOutOfOrder), length);
  }

  lemma TurnIssuesClimb(issues: seq<Issue>, low: nat, turns: seq<Turn>, i: nat, length: nat)
    requires i < |turns| && Climbs(issues, low, 4 * i + 4, length)
    ensures Climbs(AddTurnIssues(issues, turns, i), low, 4 * i + 8, length)
  {
    NumberIssuesClimb(issues, low, turns, i, length);
    KindIssueClimbs(AddNumberIssues(issues, turns, i), low, turns[i], i, length);
  }

  // ---- All turns ----

  ghost predicate IsDueUpTo(turns: seq<Turn>, n: nat, issue: Issue)
    requires n <= |turns|
  {
    issue.turn.Some? && issue.turn.value < n && IsDueAt(turns, issue.turn.value, issue)
  }

  ghost predicate Counted(issues: seq<Issue>, found: seq<Issue>, turns: seq<Turn>, n: nat, issue: Issue)
    requires n <= |turns|
  {
    Times(found, issue) == Times(issues, issue) + if IsDueUpTo(turns, n, issue) then 1 else 0
  }

  lemma CountedNext(issues: seq<Issue>, found: seq<Issue>, turns: seq<Turn>, n: nat, issue: Issue)
    requires n < |turns| && Counted(issues, found, turns, n, issue)
    ensures Counted(issues, AddTurnIssues(found, turns, n), turns, n + 1, issue)
  {
    TurnIssuesAre(found, turns, n, issue);
  }

  lemma {:induction false} TimelineIssuesAre(issues: seq<Issue>, turns: seq<Turn>, n: nat, issue: Issue)
    requires n <= |turns|
    ensures Counted(issues, TimelineIssues(issues, turns, n), turns, n, issue)
  {
    if n > 0 {
      TimelineIssuesAre(issues, turns, n - 1, issue);
      CountedNext(issues, TimelineIssues(issues, turns, n - 1), turns, n - 1, issue);
    }
  }

  ghost predicate InOrder(found: seq<Issue>, n: nat, length: nat) {
    Climbs(found, 0, 4 * n + 4, length)
  }

  lemma InOrderNext(found: seq<Issue>, turns: seq<Turn>, n: nat, length: nat)
    requires n < |turns| && InOrder(found, n, length)
    ensures InOrder(AddTurnIssues(found, turns, n), n + 1, length)
  {
    TurnIssuesClimb(found, 0, turns, n, length);
  }

  lemma {:induction false} TimelineIssuesClimb(issues: seq<Issue>, turns: seq<Turn>, n: nat, length: nat)
    requires n <= |turns| && InOrder(issues, 0, length)
    ensures InOrder(TimelineIssues(issues, turns, n), n, length)
  {
    if n > 0 {
      TimelineIssuesClimb(issues, turns, n - 1, length);
      InOrderNext(TimelineIssues(issues, turns, n - 1), turns, n - 1, length);
    }
  }

  // ---- The whole scenario ----

  lemma {:induction false} NoCheckpointIff(turns: seq<Turn>, noiseTurns: nat, n: nat)
    requires n <= |turns|
    ensures PlanUpTo(turns, noiseTurns, n).checkpoint == 0 <==> forall i :: 0 <= i < n ==> !turns[i].kind.IsCheckpoint()
  {
    if n > 0 { NoCheckpointIff(turns, noiseTurns, n - 1); }
  }

  ghost predicate IsHeaderIssue(s: Scenario, issue: Issue) {
    && issue.turn.None? && !issue.what.NoCheckpoints?
    && (issue.severity.Error? <==> IsFatal(issue.what)) && IsFaulty(s, issue.what)
  }

  lemma NoiseIssuesAre(issues: seq<Issue>, noise: NoiseConfig, issue: Issue)
    ensures Times(Add(Add(issues, noise.betweenTurns == 0, Issue(Warning, None, NoiseIsNoOp)),
                      AnyBlank(noise.corpus), Issue(Error, None, BlankNoise)), issue)
         == Times(issues, issue)
            + (if noise.betweenTurns == 0 && Issue(Warning, None, NoiseIsNoOp) == issue then 1 else 0)
            + if AnyBlank(noise.corpus) && Issue(Error, None, BlankNoise) == issue then 1 else 0
  {
    var idle := Add(issues, noise.betweenTurns == 0, Issue(Warning, None, NoiseIsNoOp));
    TimesAdded(issues, noise.betweenTurns == 0, Issue(Warning, None, NoiseIsNoOp), issue);
    TimesAdded(idle, AnyBlank(noise.corpus), Issue(Error, None, BlankNoise), issue);
  }

  lemma HeaderIssuesAre(s: Scenario, issue: Issue)
    ensures Times(HeaderIssues(s), issue)
         == (if s.timeline == [] && Issue(Warning, None, NoTurns) == issue then 1 else 0)
            + (if s.noise.Some? && s.noise.value.betweenTurns == 0 && Issue(Warning, None, NoiseIsNoOp) == issue then 1 else 0)
            + if s.noise.Some? && AnyBlank(s.noise.value.corpus) && Issue(Error, None, BlankNoise) == issue then 1 else 0
  {
    TimesAdded([], s.timeline == [], Issue(Warning, None, NoTurns), issue);
    if s.noise.Some? {
      NoiseIssuesAre(Add([], s.timeline == [], Issue(Warning, None, NoTurns)), s.noise.value, issue);
    }
  }

  lemma HeaderDueIff(s: Scenario, issue: Issue)
    ensures IsHeaderIssue(s, issue)
       <==> || (s.timeline == [] && issue == Issue(Warning, None, NoTurns))
            || (s.noise.Some? && s.noise.value.betweenTurns == 0 && issue == Issue(Warning, None, NoiseIsNoOp))
            || (HasBlankEntry(s) && issue == Issue(Error, None, BlankNoise))
  {
  }

  lemma HeaderIsDueIff(s: Scenario, issue: Issue)
    ensures Times(HeaderIssues(s), issue) == if IsHeaderIssue(s, issue) then 1 else 0
  {
    HeaderIssuesAre(s, issue);
    AnyBlankIff(s);
    HeaderDueIff(s, issue);
  }

  lemma NoiseIssuesClimb(issues: seq<Issue>, noise: NoiseConfig, length: nat)
    requires Climbs(issues, 0, 1, length)
    ensures Climbs(Add(Add(issues, noise.betweenTurns == 0, Issue(Warning, None, NoiseIsNoOp)),
                       AnyBlank(noise.corpus), Issue(Error, None, BlankNoise)), 0, 4, length)
  {
    var idle := Add(issues, noise.betweenTurns == 0, Issue(Warning, None, NoiseIsNoOp));
    AddClimbs(issues, 0, 1, noise.betweenTurns == 0, Issue(Warning, None, NoiseIsNoOp), length);
    AddClimbs(idle, 0, 2, AnyBlank(noise.corpus), Issue(Error, None, BlankNoise), length);
  }

  lemma HeaderIssuesClimb(s: Scenario, length: nat)
    ensures Climbs(HeaderIssues(s), 0, 4, length)
  {
    var empty := Add([], s.timeline == [], Issue(Warning, None, NoTurns));
    AddClimbs([], 0, 0, s.timeline == [], Issue(Warning, None, NoTurns), length);
    match s.noise
    case None =>
    case Some(noise) => NoiseIssuesClimb(empty, noise, length);
  }

  lemma DueIff(s: Scenario, issue: Issue)
    ensures IsDue(s, issue)
       <==> || IsHeaderIssue(s, issue)
            || IsDueUpTo(s.timeline, |s.timeline|, issue)
            || (issue == Issue(Warning, None, NoCheckpoints) && !HasCheckpoint(s.timeline))
  {
  }

  lemma IssueIsDueIff(s: Scenario, issue: Issue)
    ensures Times(IssuesOf(s), issue) == if IsDue(s, issue) then 1 else 0
  {
    HeaderIsDueIff(s, issue);
    TimelineIssuesAre(HeaderIssues(s), s.timeline, |s.timeline|, issue);
    NoCheckpointIff(s.timeline, PlannedNoise(s), |s.timeline|);
    TimesAdded(TimelineIssues(HeaderIssues(s), s.timeline, |s.timeline|),
               PlanOf(s).checkpoint == 0, Issue(Warning, None, NoCheckpoints), issue);
    DueIff(s, issue);
  }

  lemma IssuesClimb(s: Scenario)
    ensures Climbs(IssuesOf(s), 0, 4 * |s.timeline| + 5, |s.timeline|)
  {
    var n := |s.timeline|;
    HeaderIssuesClimb(s, n);
    TimelineIssuesClimb(HeaderIssues(s), s.timeline, n, n);
    AddClimbs(TimelineIssues(HeaderIssues(s), s.timeline, n), 0, 4 * n + 4,
              PlanOf(s).checkpoint == 0, Issue(Warning, None, NoCheckpoints), n);
  }

  /** Validation reports exactly the issues that are due, each once: those of the scenario as a whole, then turn by turn,
      then the missing checkpoints. */
  lemma IssuesAreExact(s: Scenario)
    ensures forall issue :: multiset(IssuesOf(s))[issue] == if IsDue(s, issue) then 1 else 0
    ensures var issues := IssuesOf(s);
            forall i, j :: 0 <= i < j < |issues| ==> Place(issues[i], |s.timeline|) < Place(issues[j], |s.timeline|)
  {
    var issues := IssuesOf(s);
    forall issue ensures multiset(issues)[issue] == if IsDue(s, issue) then 1 else 0 {
      IssueIsDueIff(s, issue);
      TimesIsMultiplicity(issues, issue);
    }
    IssuesClimb(s);
  }

  // ---- When a scenario passes ----

  /** The turn has its own number, is not marked as noise, and has what its kind asks for: a line or messages, an intent,
      or a query. */
  ghost predicate IsSound(turns: seq<Turn>, i: nat)
    requires i < |turns|
  {
    && !turns[i].noise && !IdSeenBefore(turns, i)
    && (turns[i].kind == Normal ==> !SaysNothing(turns[i]))
    && (turns[i].kind == Simulated ==> !IsEmptyText(turns[i].intent))
    && (turns[i].kind.IsCheckpoint() ==> !IsEmptyText(turns[i].query))
  }

  lemma PassingHasNoError(s: Scenario, issue: Issue)
    requires Passes(s) && issue.severity.Error?
    ensures !IsDue(s, issue)
  {
    IssueIsDueIff(s, issue);
    TimesIsMultiplicity(IssuesOf(s), issue);
  }

  lemma PassingIsSound(s: Scenario, i: nat)
    requires Passes(s) && i < |s.timeline|
    ensures IsSound(s.timeline, i)
  {
    PassingHasNoError(s, Issue(Error, Some(i), ReservedNoise));
    PassingHasNoError(s, Issue(Error, Some(i), DuplicateTurn));
    PassingHasNoError(s, Issue(Error, Some(i), NoMessages));
    PassingHasNoError(s, Issue(Error, Some(i), NoIntent));
    PassingHasNoError(s, Issue(Error, Some(i), NoQuery));
  }

  lemma SoundHasNoError(s: Scenario, issue: Issue)
    requires issue.severity.Error? && IsDue(s, issue)
    ensures HasBlankEntry(s) || (issue.turn.Some? && !IsSound(s.timeline, issue.turn.value))
  {
  }

  /** A scenario passes exactly when its noise entries have text and every turn is sound. */
  lemma PassesIff(s: Scenario)
    ensures Passes(s) <==> !HasBlankEntry(s) && forall i :: 0 <= i < |s.timeline| ==> IsSound(s.timeline, i)
  {
    if Passes(s) {
      PassingHasNoError(s, Issue(Error, None, BlankNoise));
      forall i | 0 <= i < |s.timeline| ensures IsSound(s.timeline, i) { PassingIsSound(s, i); }
    } else {
      var k :| 0 <= k < |IssuesOf(s)| && !IssuesOf(s)[k].severity.Warning?;
      TimesIsMultiplicity(IssuesOf(s), IssuesOf(s)[k]);
      IssueIsDueIff(s, IssuesOf(s)[k]);
      SoundHasNoError(s, IssuesOf(s)[k]);
    }
  }

  /** The plan announces as many noise turns as the replay adds, up to the largest 64-bit number. */
  lemma PlanNoiseIs(s: Scenario)
    ensures var added := |Effective(s)| - |s.timeline|;
            PlanOf(s).noise == if added > 0xFFFF_FFFF_FFFF_FFFF then 0xFFFF_FFFF_FFFF_FFFF else added
  {
    EffectiveLengthIs(s);
    PlanCounts(s.timeline, PlannedNoise(s), |s.timeline|);
  }
}
