/**
 Evaluation scenarios: noise expansion of a timeline, and the static check for experiments that form
 memory once and fork it for every profile.
 */
module EvalTimeline {
  import opened Prelude
  import opened Weaving

  datatype TurnKind = Normal | Simulated | CheckpointOrganic | CheckpointSynthetic | Maintenance
  {
    predicate IsCheckpoint() {
      CheckpointOrganic? || CheckpointSynthetic?
    }

    predicate IsUser() {
      Normal? || Simulated?
    }
  }

  /** What a user turn says: typed by the author, or an entry of the built-in chit-chat corpus. */
  datatype Utterance = Typed(text: string) | Chatter(entry: nat)

  /** A message: its text parts, and what its own text accessor yields. */
  datatype Message = Message(texts: seq<string>, text: Option<string>)

  datatype Trigger = Unset | Threshold | Named(name: string)

  datatype Scope = Daydream | FullCycle | Quick

  datatype MaintenanceInput = MaintenanceInput(trigger: Trigger, scope: Scope, timestamp: Option<string>)

  datatype Turn = Turn(
    id: nat,
    kind: TurnKind,
    timestamp: Option<string>,
    context: Option<string>,
    user: Option<Utterance>,
    messages: seq<Message>,
    query: Option<string>,
    intent: Option<string>,
    maintenance: Option<MaintenanceInput>,
    noise: bool)

  datatype NoiseConfig = NoiseConfig(betweenTurns: nat, corpus: seq<string>, seed: bv64)

  datatype Scenario = Scenario(
    hiddenProfile: string,
    defaultContext: Option<string>,
    noise: Option<NoiseConfig>,
    timeline: seq<Turn>)

  // ---- Noise ----

  const DEFAULT_CORPUS_SIZE := 24

  const TWO_TO_THE_64 := 0x1_0000_0000_0000_0000

  /** The state of the splitmix64 generator moved on, and what its first rounds make of it. */
  function Mixed(x: bv64, rounds: nat): bv64 {
    if rounds == 0 then x + 0x9E37_79B9_7F4A_7C15 else
    var z := Mixed(x, rounds - 1);
    match rounds
    case 1 => (z ^ (z >> 30)) * 0xBF58_476D_1CE4_E5B9
    case 2 => (z ^ (z >> 27)) * 0x94D0_49BB_1331_11EB
    case _ => z ^ (z >> 31)
  }

  /** The splitmix64 generator, one step from state `x`. */
  function SplitMix64(x: bv64): bv64 {
    Mixed(x, 3)
  }

  function Word(n: nat): bv64 {
    (n % TWO_TO_THE_64) as bv64
  }

  function Draw(seed: bv64, index: nat, j: nat): nat {
    SplitMix64(seed ^ (Word(index) << 16) ^ Word(j)) as nat
  }

  /** The entry a draw picks from the scenario's own corpus, or from the built-in one. */
  function Entry(corpus: seq<string>, draw: nat): (r: Utterance)
    ensures corpus == [] ==> r.Chatter? && r.entry < DEFAULT_CORPUS_SIZE
    ensures corpus != [] ==> r.Typed? && r.text in corpus
  {
    if corpus == [] then Chatter(draw % DEFAULT_CORPUS_SIZE) else Typed(corpus[draw % |corpus|])
  }

  /** The corpus entry for the j-th noise turn before timeline entry `index`. */
  function NoiseText(noise: NoiseConfig, index: nat, j: nat): (r: Utterance)
    ensures noise.corpus == [] ==> r.Chatter? && r.entry < DEFAULT_CORPUS_SIZE
    ensures noise.corpus != [] ==> r.Typed? && r.text in noise.corpus
  {
    Entry(noise.corpus, Draw(noise.seed, index, j))
  }

  function NoiseTurn(noise: NoiseConfig, previous: Turn, index: nat, j: nat): Turn {
    Turn(previous.id, Normal, previous.timestamp, None, Some(NoiseText(noise, index, j)), [], None, None, None, true)
  }

  /** The noise turns after `previous`, one after the other. */
  function NoiseAfter(noise: NoiseConfig, previous: Turn, index: nat): nat -> Turn {
    (j: nat) => NoiseTurn(noise, previous, index, j)
  }

  /** The first `count` noise turns after timeline entry `i`. */
  function NoiseBlock(noise: NoiseConfig, timeline: seq<Turn>, i: nat, count: nat): (block: seq<Turn>)
    requires i < |timeline|
    ensures |block| == count
  {
    Tabulate(NoiseAfter(noise, timeline[i], i + 1), count)
  }

  /** For every entry, the noise that goes after it. */
  function Blocks(noise: NoiseConfig, timeline: seq<Turn>): seq<seq<Turn>> {
    seq(|timeline|, i requires 0 <= i < |timeline| => NoiseBlock(noise, timeline, i, noise.betweenTurns))
  }

  /** The timeline a run really replays. */
  function Effective(s: Scenario): seq<Turn> {
    if s.noise.None? || s.noise.value.betweenTurns == 0 || s.timeline == [] then s.timeline
    else Woven(s.timeline, Blocks(s.noise.value, s.timeline), |s.timeline|)
  }

  /** How many noise turns go between two neighbours. */
  function Gap(s: Scenario): nat {
    if s.noise.None? then 0 else s.noise.value.betweenTurns
  }

  /** The noise turns between entry `index - 1` and entry `index`. */
  method NoiseBetween(noise: NoiseConfig, timeline: seq<Turn>, index: nat) returns (block: seq<Turn>)
    requires 0 < index < |timeline|
    ensures block == NoiseBlock(noise, timeline, index - 1, noise.betweenTurns)
  {
    var previous := timeline[index - 1];
    block := [];
    for j := 0 to noise.betweenTurns
      invariant block == Tabulate(NoiseAfter(noise, previous, index), j)
    {
      block := block + [NoiseTurn(noise, previous, index, j)];
    }
  }

  /** The authored entries with the noise between them. */
  method Weave(noise: NoiseConfig, timeline: seq<Turn>) returns (woven: seq<Turn>)
    ensures woven == Woven(timeline, Blocks(noise, timeline), |timeline|)
  {
    ghost var blocks := Blocks(noise, timeline);
    woven := [];
    for index := 0 to |timeline|
      invariant woven == Woven(timeline, blocks, index)
    {
      if index > 0 {
        var block := NoiseBetween(noise, timeline, index);
        assert block == blocks[index - 1];
        woven := woven + block;
      }
      woven := woven + [timeline[index]];
    }
  }

  method EffectiveTimeline(s: Scenario) returns (timeline: seq<Turn>)
    ensures timeline == Effective(s)
  {
    match s.noise {
      case None => return s.timeline;
      case Some(noise) =>
        if noise.betweenTurns == 0 || s.timeline == [] {
          return s.timeline;
        }
        timeline := Weave(noise, s.timeline);
    }
  }

  // ---- Shape of the expansion ----

  /** A noise turn reuses the id and timestamp of the turn before it, and has a line and nothing else. */
  predicate IsNoiseAfter(turn: Turn, previous: Turn) {
    && turn.noise && turn.kind.Normal? && turn.user.Some? && turn.id == previous.id && turn.timestamp == previous.timestamp
    && turn.context.None? && turn.messages == [] && turn.query.None? && turn.intent.None? && turn.maintenance.None?
  }

  ghost predicate AllNoiseAfter(block: seq<Turn>, previous: Turn) {
    forall j :: 0 <= j < |block| ==> IsNoiseAfter(block[j], previous)
  }

  /** After every entry, `gap` turns of noise. */
  ghost predicate Noisy(entries: seq<Turn>, blocks: seq<seq<Turn>>, gap: nat) {
    && |blocks| == |entries| && Uniform(blocks, gap)
    && forall i :: 0 <= i < |blocks| ==> AllNoiseAfter(blocks[i], entries[i])
  }

  lemma NoiseIsNoise(noise: NoiseConfig, previous: Turn, index: nat, j: nat)
    ensures IsNoiseAfter(NoiseAfter(noise, previous, index)(j), previous)
  {
  }

  lemma BlockIsNoise(noise: NoiseConfig, timeline: seq<Turn>, i: nat, count: nat)
    requires i < |timeline|
    ensures AllNoiseAfter(NoiseBlock(noise, timeline, i, count), timeline[i])
  {
    forall k: nat | k < count ensures IsNoiseAfter(NoiseBlock(noise, timeline, i, count)[k], timeline[i]) {
      TabulateAt(NoiseAfter(noise, timeline[i], i + 1), count, k);
      NoiseIsNoise(noise, timeline[i], i + 1, k);
    }
  }

  /** The replayed timeline is the authored one with noise woven in. */
  lemma EffectiveIsWoven(s: Scenario) returns (blocks: seq<seq<Turn>>)
    ensures Noisy(s.timeline, blocks, Gap(s))
    ensures Effective(s) == Woven(s.timeline, blocks, |s.timeline|)
  {
    if Gap(s) > 0 {
      blocks := Blocks(s.noise.value, s.timeline);
      forall i | 0 <= i < |blocks| ensures |blocks[i]| == Gap(s) && AllNoiseAfter(blocks[i], s.timeline[i]) {
        BlockIsNoise(s.noise.value, s.timeline, i, Gap(s));
      }
    } else {
      blocks := seq(|s.timeline|, _ => []);
      WovenEmpty(s.timeline, blocks, |s.timeline|);
      assert s.timeline[..|s.timeline|] == s.timeline;
    }
  }

  lemma EffectiveLength(s: Scenario)
    ensures |Effective(s)| == if s.timeline == [] then 0 else Offset(|s.timeline| - 1, Gap(s)) + 1
  {
    var blocks := EffectiveIsWoven(s);
    WovenLength(s.timeline, blocks, |s.timeline|, Gap(s));
  }

  lemma NoisyAt(entries: seq<Turn>, blocks: seq<seq<Turn>>, gap: nat, i: nat, j: nat)
    requires Noisy(entries, blocks, gap) && i < |entries| && j <= gap && (j > 0 ==> i + 1 < |entries|)
    ensures var woven := Woven(entries, blocks, |entries|);
            && Offset(i, gap) + j < |woven|
            && (j == 0 ==> woven[Offset(i, gap)] == entries[i])
            && (j > 0 ==> IsNoiseAfter(woven[Offset(i, gap) + j], entries[i]))
  {
    WovenAt(entries, blocks, |entries|, gap, i, j);
    assert AllNoiseAfter(blocks[i], entries[i]);
  }

  /** Every authored turn is at its place, in order, and between two of them there are noise turns that reuse
      the earlier one's id and timestamp. */
  lemma EffectiveAt(s: Scenario, i: nat, j: nat)
    requires i < |s.timeline| && j <= Gap(s) && (j > 0 ==> i + 1 < |s.timeline|)
    ensures Offset(i, Gap(s)) + j < |Effective(s)|
    ensures j == 0 ==> Effective(s)[Offset(i, Gap(s))] == s.timeline[i]
    ensures j > 0 ==> IsNoiseAfter(Effective(s)[Offset(i, Gap(s)) + j], s.timeline[i])
  {
    var blocks := EffectiveIsWoven(s);
    NoisyAt(s.timeline, blocks, Gap(s), i, j);
  }

  /** n entries become n + gap * (n - 1) turns. */
  lemma EffectiveLengthIs(s: Scenario)
    ensures s.timeline != [] ==> |Effective(s)| == |s.timeline| + Gap(s) * (|s.timeline| - 1)
  {
    EffectiveLength(s);
    if s.timeline != [] { OffsetIs(|s.timeline| - 1, Gap(s)); }
  }

  function Authored(turns: seq<Turn>): seq<Turn> {
    if turns == [] then []
    else Authored(turns[..|turns| - 1]) + if turns[|turns| - 1].noise then [] else [turns[|turns| - 1]]
  }

  lemma AuthoredNext(turns: seq<Turn>, turn: Turn)
    ensures Authored(turns + [turn]) == Authored(turns) + if turn.noise then [] else [turn]
  {
    assert (turns + [turn])[..|turns|] == turns;
  }

  predicate NoNoiseFlag(turns: seq<Turn>) {
    forall i :: 0 <= i < |turns| ==> !turns[i].noise
  }

  lemma {:induction false} NoiseAddsNothing(turns: seq<Turn>, block: seq<Turn>, previous: Turn)
    requires AllNoiseAfter(block, previous)
    ensures Authored(turns + block) == Authored(turns)
  {
    if block == [] {
      assert turns + block == turns;
    } else {
      var init, last := block[..|block| - 1], block[|block| - 1];
      assert IsNoiseAfter(last, previous);
      NoiseAddsNothing(turns, init, previous);
      AuthoredNext(turns + init, last);
      assert turns + block == turns + init + [last];
    }
  }

  lemma {:induction false} WovenAuthored(entries: seq<Turn>, blocks: seq<seq<Turn>>, gap: nat, n: nat)
    requires n <= |entries| && NoNoiseFlag(entries) && Noisy(entries, blocks, gap)
    ensures Authored(Woven(entries, blocks, n)) == entries[..n]
  {
    if n == 1 {
      AuthoredNext([], entries[0]);
      assert [] + [entries[0]] == [entries[0]] == entries[..1];
    } else if n > 1 {
      var woven := Woven(entries, blocks, n - 1);
      WovenAuthored(entries, blocks, gap, n - 1);
      NoiseAddsNothing(woven, blocks[n - 2], entries[n - 2]);
      AuthoredNext(woven + blocks[n - 2], entries[n - 1]);
    }
  }

  /** Taking the noise out of the expansion gives the authored timeline back. */
  lemma NoiseOnlyAdds(s: Scenario)
    requires NoNoiseFlag(s.timeline)
    ensures Authored(Effective(s)) == s.timeline
  {
    var blocks := EffectiveIsWoven(s);
    WovenAuthored(s.timeline, blocks, Gap(s), |s.timeline|);
    assert s.timeline[..|s.timeline|] == s.timeline;
  }

  // ---- Shared formation ----

  datatype SharedIssue = LateUserTurn(turnIndex: nat) | LateNoise

  /** An issue and the index of its scenario. */
  type Located = (nat, SharedIssue)

  predicate CheckpointBefore(turns: seq<Turn>, n: nat)
    requires n <= |turns|
  {
    exists c :: 0 <= c < n && turns[c].kind.IsCheckpoint()
  }

  /** The user turns among the first `n` that come after a checkpoint. */
  function LateTurns(turns: seq<Turn>, n: nat): seq<SharedIssue>
    requires n <= |turns|
  {
    if n == 0 then []
    else LateTurns(turns, n - 1)
         + if turns[n - 1].kind.IsUser() && CheckpointBefore(turns, n - 1) then [LateUserTurn(n - 1)] else []
  }

  /** The index of the first checkpoint. */
  function FirstCheckpoint(turns: seq<Turn>, from: nat): (r: Option<nat>)
    requires from <= |turns|
    ensures r.Some? ==> from <= r.value < |turns| && turns[r.value].kind.IsCheckpoint()
    ensures forall c :: from <= c < (if r.Some? then r.value else |turns|) ==> !turns[c].kind.IsCheckpoint()
    decreases |turns| - from
  {
    if from == |turns| then None
    else if turns[from].kind.IsCheckpoint() then Some(from)
    else FirstCheckpoint(turns, from + 1)
  }

  predicate NoiseAfterCheckpoint(s: Scenario) {
    Gap(s) > 0 && match FirstCheckpoint(s.timeline, 0) case None => false case Some(c) => c + 1 < |s.timeline|
  }

  function SharedIssues(s: Scenario): seq<SharedIssue> {
    LateTurns(s.timeline, |s.timeline|) + if NoiseAfterCheckpoint(s) then [LateNoise] else []
  }

  /** The issues of the first `n` scenarios, each with its scenario's index. */
  function AllSharedIssues(scenarios: seq<Scenario>, n: nat): seq<Located>
    requires n <= |scenarios|
  {
    if n == 0 then [] else AllSharedIssues(scenarios, n - 1) + At(n - 1, SharedIssues(scenarios[n - 1]))
  }

  function At(index: nat, issues: seq<SharedIssue>): seq<Located> {
    seq(|issues|, i requires 0 <= i < |issues| => (index, issues[i]))
  }

  lemma AtNext(index: nat, issues: seq<SharedIssue>, more: seq<SharedIssue>)
    ensures At(index, issues + more) == At(index, issues) + At(index, more)
  {
  }

  /** The late user turns of one scenario. */
  method LateUserTurns(scenarioIndex: nat, turns: seq<Turn>) returns (issues: seq<Located>)
    ensures issues == At(scenarioIndex, LateTurns(turns, |turns|))
  {
    issues := [];
    var checkpointSeen := false;
    for turnIndex := 0 to |turns|
      invariant checkpointSeen <==> CheckpointBefore(turns, turnIndex)
      invariant issues == At(scenarioIndex, LateTurns(turns, turnIndex))
    {
      var kind := turns[turnIndex].kind;
      if kind.IsCheckpoint() {
        checkpointSeen := true;
      } else if checkpointSeen && kind.IsUser() {
        AtNext(scenarioIndex, LateTurns(turns, turnIndex), [LateUserTurn(turnIndex)]);
        issues := issues + [(scenarioIndex, LateUserTurn(turnIndex))];
      }
    }
  }

  method SharedFormationIssues(scenarios: seq<Scenario>) returns (issues: seq<Located>)
    ensures issues == AllSharedIssues(scenarios, |scenarios|)
  {
    issues := [];
    for scenarioIndex := 0 to |scenarios|
      invariant issues == AllSharedIssues(scenarios, scenarioIndex)
    {
      var scenario := scenarios[scenarioIndex];
      var found := LateUserTurns(scenarioIndex, scenario.timeline);
      if scenario.noise.Some? && scenario.noise.value.betweenTurns > 0 {
        var position := FirstCheckpoint(scenario.timeline, 0);
        if position.Some? && position.value + 1 < |scenario.timeline| {
          found := found + [(scenarioIndex, LateNoise)];
        }
      }
      IssuesAt(scenarioIndex, scenario, found);
      issues := issues + found;
    }
  }

  lemma IssuesAt(index: nat, s: Scenario, found: seq<Located>)
    requires found == At(index, LateTurns(s.timeline, |s.timeline|)) + if NoiseAfterCheckpoint(s) then [(index, LateNoise)] else []
    ensures found == At(index, SharedIssues(s))
  {
    AtNext(index, LateTurns(s.timeline, |s.timeline|), if NoiseAfterCheckpoint(s) then [LateNoise] else []);
  }

  /** No user turn comes after a checkpoint. */
  ghost predicate UserTurnsFirst(turns: seq<Turn>) {
    forall c, u :: 0 <= c < u < |turns| && turns[c].kind.IsCheckpoint() ==> !turns[u].kind.IsUser()
  }

  /** The check names exactly the authored user turns after a checkpoint. */
  lemma {:induction false} LateTurnsExact(turns: seq<Turn>, n: nat, issue: SharedIssue)
    requires n <= |turns|
    ensures issue in LateTurns(turns, n) <==>
              issue.LateUserTurn? && issue.turnIndex < n && turns[issue.turnIndex].kind.IsUser()
              && CheckpointBefore(turns, issue.turnIndex)
  {
    if n > 0 { LateTurnsExact(turns, n - 1, issue); }
  }

  lemma LateTurnsNone(turns: seq<Turn>)
    ensures LateTurns(turns, |turns|) == [] <==> UserTurnsFirst(turns)
  {
    if LateTurns(turns, |turns|) == [] {
      forall c, u | 0 <= c < u < |turns| && turns[c].kind.IsCheckpoint() ensures !turns[u].kind.IsUser() {
        LateTurnsExact(turns, |turns|, LateUserTurn(u));
      }
    } else {
      var issue := LateTurns(turns, |turns|)[0];
      assert issue in LateTurns(turns, |turns|);
      LateTurnsExact(turns, |turns|, issue);
    }
  }

  lemma OriginInWoven(entries: seq<Turn>, blocks: seq<seq<Turn>>, gap: nat, p: nat) returns (i: nat, j: nat)
    requires Noisy(entries, blocks, gap) && p < |Woven(entries, blocks, |entries|)|
    ensures p == Offset(i, gap) + j && j <= gap && i < |entries| && (j > 0 ==> i + 1 < |entries|)
    ensures j == 0 ==> Woven(entries, blocks, |entries|)[p] == entries[i]
    ensures j > 0 ==> IsNoiseAfter(Woven(entries, blocks, |entries|)[p], entries[i])
  {
    WovenLength(entries, blocks, |entries|, gap);
    i, j := PlaceInside(|entries|, gap, p);
    NoisyAt(entries, blocks, gap, i, j);
  }

  /** Every turn of the expansion is an authored turn or a noise turn after one. */
  lemma Origin(s: Scenario, p: nat) returns (i: nat, j: nat)
    requires p < |Effective(s)|
    ensures p == Offset(i, Gap(s)) + j && j <= Gap(s) && i < |s.timeline| && (j > 0 ==> i + 1 < |s.timeline|)
    ensures j == 0 ==> Effective(s)[p] == s.timeline[i]
    ensures j > 0 ==> Effective(s)[p].kind.Normal? && Effective(s)[p].noise && Effective(s)[p].user.Some?
  {
    var blocks := EffectiveIsWoven(s);
    i, j := OriginInWoven(s.timeline, blocks, Gap(s), p);
  }

  /** The check is exact: it reports nothing if and only if no user turn, authored or noise, comes after a
      checkpoint in the timeline a run replays. */
  lemma SharedIssuesExact(s: Scenario)
    ensures SharedIssues(s) == [] <==> UserTurnsFirst(Effective(s))
  {
    LateTurnsNone(s.timeline);
    if SharedIssues(s) == [] { NoIssueMeansUsersFirst(s); } else { IssueMeansLateUser(s); }
  }

  lemma LateNoiseMeansIssue(s: Scenario, c: nat)
    requires Gap(s) > 0 && c + 1 < |s.timeline| && s.timeline[c].kind.IsCheckpoint()
    ensures LateNoise in SharedIssues(s)
  {
    assert FirstCheckpoint(s.timeline, 0).Some?;
  }

  lemma LateUserMeansIssue(s: Scenario, p: nat, q: nat)
    requires p < q < |Effective(s)| && Effective(s)[p].kind.IsCheckpoint() && Effective(s)[q].kind.IsUser()
    ensures SharedIssues(s) != []
  {
    var c, jc := Origin(s, p);
    var u, ju := Origin(s, q);
    if u < c { OffsetGrows(u, c, Gap(s)); }
    if ju > 0 {
      LateNoiseMeansIssue(s, c);
    } else {
      LateTurnsExact(s.timeline, |s.timeline|, LateUserTurn(u));
    }
  }

  lemma NoIssueMeansUsersFirst(s: Scenario)
    requires SharedIssues(s) == []
    ensures UserTurnsFirst(Effective(s))
  {
    var turns := Effective(s);
    forall p, q | 0 <= p < q < |turns| && turns[p].kind.IsCheckpoint() ensures !turns[q].kind.IsUser() {
      if turns[q].kind.IsUser() { LateUserMeansIssue(s, p, q); }
    }
  }

  lemma LateNoiseIsLate(s: Scenario)
    requires NoiseAfterCheckpoint(s)
    ensures !UserTurnsFirst(Effective(s))
  {
    var c := FirstCheckpoint(s.timeline, 0).value;
    EffectiveAt(s, c, 0);
    EffectiveAt(s, c, 1);
    assert Effective(s)[Offset(c, Gap(s))].kind.IsCheckpoint();
    assert Effective(s)[Offset(c, Gap(s)) + 1].kind.IsUser();
  }

  lemma LateTurnIsLate(s: Scenario, c: nat, u: nat)
    requires c < u < |s.timeline| && s.timeline[c].kind.IsCheckpoint() && s.timeline[u].kind.IsUser()
    ensures !UserTurnsFirst(Effective(s))
  {
    EffectiveAt(s, c, 0);
    EffectiveAt(s, u, 0);
    OffsetGrows(c, u, Gap(s));
    assert Effective(s)[Offset(c, Gap(s))].kind.IsCheckpoint();
    assert Effective(s)[Offset(u, Gap(s))].kind.IsUser();
  }

  lemma IssueMeansLateUser(s: Scenario)
    requires SharedIssues(s) != []
    ensures !UserTurnsFirst(Effective(s))
  {
    LateTurnsNone(s.timeline);
    if NoiseAfterCheckpoint(s) {
      LateNoiseIsLate(s);
    } else {
      var c, u :| 0 <= c < u < |s.timeline| && s.timeline[c].kind.IsCheckpoint() && s.timeline[u].kind.IsUser();
      LateTurnIsLate(s, c, u);
    }
  }
}
