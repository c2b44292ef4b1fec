/**
 The score of one checkpoint answer. `mentions` tells which texts the answer contains, `evidence` whether
 the recall trace shows any of some terms; a finding is its kind and the expectation it is about.
 */
module EvalCheckpoint {
  import opened EvalFindings
  import EvalScores
  import opened Prelude
  import opened Text

  datatype Mode = ShouldExist | ShouldNotExist

  datatype Expectation = Expectation(id: nat, mode: Mode, weight: real, answerTerms: seq<string>, traceTerms: seq<string>)

  datatype Probe = Probe(expectation: nat, satisfied: bool, errored: bool)

  datatype Verdict = Verdict(memoryUtility: real, forgettingQuality: real, uncertaintyCalibration: real, findings: seq<Finding>)

  datatype Rubric = Rubric(required: seq<string>, forbidden: seq<string>, expected: seq<Expectation>)

  datatype Limits = Limits(latency: Option<nat>, tokens: Option<nat>)

  datatype Observation = Observation(probes: seq<Probe>, health: Option<real>, latency: nat, tokens: nat)

  /** What the answer and the recall trace contain. */
  datatype Reading = Reading(mentions: string -> bool, evidence: seq<string> -> bool)

  // ---- Terms ----

  predicate Present(a: Reading, term: string) {
    Trim(term) != [] && a.mentions(term)
  }

  predicate Missing(a: Reading, term: string) {
    Trim(term) != [] && !a.mentions(term)
  }

  function PresentTerms(a: Reading, terms: seq<string>): (r: seq<string>)
    ensures |r| <= |terms|
  {
    if terms == [] then []
    else PresentTerms(a, terms[..|terms| - 1]) + if Present(a, terms[|terms| - 1]) then [terms[|terms| - 1]] else []
  }

  function MissingTerms(a: Reading, terms: seq<string>): seq<string> {
    if terms == [] then []
    else MissingTerms(a, terms[..|terms| - 1]) + if Missing(a, terms[|terms| - 1]) then [terms[|terms| - 1]] else []
  }

  function Fraction(a: Reading, terms: seq<string>): real {
    if terms == [] then 1.0 else |PresentTerms(a, terms)| as real / |terms| as real
  }

  function Repeat(n: nat, f: Finding): seq<Finding> {
    seq(n, _ => f)
  }

  // ---- Expectations ----

  /** What is known of an expectation's memory; without a probe it counts as met. */
  datatype State = Met | Unmet | Unknown

  /** The last probe of an expectation decides. */
  function StateOf(probes: seq<Probe>, id: nat): State {
    if probes == [] then Met
    else if probes[|probes| - 1].expectation == id then
      if probes[|probes| - 1].errored then Unknown else if probes[|probes| - 1].satisfied then Met else Unmet
    else StateOf(probes[..|probes| - 1], id)
  }

  datatype Weights = Weights(present: real, presentMet: real, terms: real, termsMet: real, absent: real, absentMet: real, errors: nat)

  const NO_WEIGHTS := Weights(0.0, 0.0, 0.0, 0.0, 0.0, 0.0, 0)

  function Credit(a: Reading, e: Expectation): real {
    e.weight * Fraction(a, e.answerTerms)
  }

  /** `credit` is the share of the weight its answer terms earned. */
  function Weigh(w: Weights, e: Expectation, state: State, credit: real): Weights {
    if state.Unknown? then w.(errors := w.errors + 1)
    else match e.mode
      case ShouldExist =>
        Weights(w.present + e.weight,
                w.presentMet + (if state.Met? then e.weight else 0.0),
                w.terms + (if e.answerTerms != [] then e.weight else 0.0),
                w.termsMet + (if e.answerTerms != [] then credit else 0.0),
                w.absent, w.absentMet, w.errors)
      case ShouldNotExist =>
        w.(absent := w.absent + e.weight, absentMet := w.absentMet + (if state.Met? then e.weight else 0.0))
  }

  /** The weights of the first `n` expectations. */
  function WeightsOf(a: Reading, expected: seq<Expectation>, probes: seq<Probe>, n: nat): Weights
    requires n <= |expected|
  {
    if n == 0 then NO_WEIGHTS else
    var e := expected[n - 1];
    Weigh(WeightsOf(a, expected, probes, n - 1), e, StateOf(probes, e.id), Credit(a, e))
  }

  /** What an expectation gives to find; without a judge, also why its terms are missing. */
  function Found(a: Reading, e: Expectation, state: State, judged: bool): seq<Finding> {
    match state
    case Unknown => [Finding(GraphProbeError, Some(e.id))]
    case Unmet => [Finding(if e.mode.ShouldExist? then FormationMiss else BadConsolidation, Some(e.id))]
    case Met =>
      if e.mode.ShouldExist? && !judged && MissingTerms(a, e.answerTerms) != [] then
        var terms := if e.traceTerms == [] then e.answerTerms else e.traceTerms;
        [Finding(if a.evidence(terms) then BadSynthesis else BadGrounding, Some(e.id))]
      else []
  }

  function AllFound(a: Reading, expected: seq<Expectation>, probes: seq<Probe>, judged: bool, n: nat): seq<Finding>
    requires n <= |expected|
  {
    if n == 0 then []
    else AllFound(a, expected, probes, judged, n - 1) + Found(a, expected[n - 1], StateOf(probes, expected[n - 1].id), judged)
  }

  // ---- The score ----

  function Ratio(part: real, whole: real): real {
    if whole == 0.0 then 1.0 else part / whole
  }

  function OverBudget(actual: nat, limit: Option<nat>): real {
    if limit.None? || limit.value == 0 || actual <= limit.value then 0.0
    else if (actual - limit.value) as real / limit.value as real > 1.0 then 1.0
    else (actual - limit.value) as real / limit.value as real
  }

  /** Probe-verified presence, and as many of the two term coverages as the rubric defines. */
  function LexicalUtility(presence: real, required: Option<real>, terms: Option<real>): real {
    (presence + (if required.Some? then required.value else 0.0) + (if terms.Some? then terms.value else 0.0))
    / (1.0 + (if required.Some? then 1.0 else 0.0) + (if terms.Some? then 1.0 else 0.0))
  }

  datatype Parts = Parts(utility: real, forgetting: real, calibration: real, health: real, latency: real, tokens: real)

  function PartsOf(a: Reading, rubric: Rubric, o: Observation, limits: Limits, verdict: Option<Verdict>): Parts {
    Blend(a, rubric, o, limits, verdict, WeightsOf(a, rubric.expected, o.probes, |rubric.expected|))
  }

  /** The judge scores the answer; what the probes saw stays objective and is blended in. */
  function Blend(a: Reading, rubric: Rubric, o: Observation, limits: Limits, verdict: Option<Verdict>, w: Weights): Parts {
    var presence, absence := Ratio(w.presentMet, w.present), Ratio(w.absentMet, w.absent);
    var required := if rubric.required == [] then None else Some(Fraction(a, rubric.required));
    var terms := if w.terms > 0.0 then Some(w.termsMet / w.terms) else None;
    Parts(
      match verdict
      case Some(v) => 0.7 * v.memoryUtility + 0.3 * presence
      case None => LexicalUtility(presence, required, terms),
      match verdict
      case Some(v) => 0.5 * v.forgettingQuality + 0.5 * absence
      case None => absence,
      match verdict
      case Some(v) => v.uncertaintyCalibration
      case None => if rubric.forbidden == [] then 1.0 else 1.0 - Fraction(a, rubric.forbidden),
      match o.health
      case Some(h) => h
      case None => if o.probes == [] then 1.0 else 1.0 - w.errors as real / |o.probes| as real,
      OverBudget(o.latency, limits.latency),
      OverBudget(o.tokens, limits.tokens))
  }

  /** The score as it is handed out: every part clamped to [0, 1]. */
  function ScoreOf(p: Parts): EvalScores.Score {
    EvalScores.Score(Total(p), Clamp(p.utility), Clamp(Evolution(p)), Clamp(p.calibration), Clamp(p.forgetting),
                     Clamp(p.health), Clamp(p.latency), Clamp(p.tokens))
  }

  function Evolution(p: Parts): real {
    (p.utility + p.forgetting) / 2.0
  }

  function Total(p: Parts): real {
    Clamp(p.utility * 0.45 + Evolution(p) * 0.2 + p.calibration * 0.15 + p.forgetting * 0.1 + p.health * 0.1
          - p.latency * 0.05 - p.tokens * 0.05)
  }

  /** The judge's findings that nothing found before repeats. */
  function Novel(found: seq<Finding>, judged: seq<Finding>): seq<Finding> {
    if judged == [] then found else
    var before := Novel(found, judged[..|judged| - 1]);
    if judged[|judged| - 1] in before then before else before + [judged[|judged| - 1]]
  }

  predicate ConfirmsStale(verdict: Option<Verdict>) {
    verdict.None? || verdict.value.uncertaintyCalibration < 0.5
    || exists i :: 0 <= i < |verdict.value.findings| && verdict.value.findings[i].kind.Overconfidence?
  }

  /** What probes and terms give to find. */
  function OwnFindings(a: Reading, rubric: Rubric, probes: seq<Probe>, verdict: Option<Verdict>): seq<Finding> {
    (if verdict.None? then Repeat(|MissingTerms(a, rubric.required)|, Finding(BadSynthesis, None)) else [])
    + AllFound(a, rubric.expected, probes, verdict.Some?, |rubric.expected|)
    + (if ConfirmsStale(verdict) then Repeat(|PresentTerms(a, rubric.forbidden)|, Finding(Overconfidence, None)) else [])
  }

  function FindingsOf(a: Reading, rubric: Rubric, o: Observation, limits: Limits, verdict: Option<Verdict>): seq<Finding> {
    var own := OwnFindings(a, rubric, o.probes, verdict);
    (if verdict.Some? then Novel(own, verdict.value.findings) else own)
    + (if OverBudget(o.latency, limits.latency) > 0.0 then [Finding(LatencyCost, None)] else [])
    + (if OverBudget(o.tokens, limits.tokens) > 0.0 then [Finding(TokenCost, None)] else [])
  }

  // ---- The scorer ----

  method WeighExpectations(a: Reading, expected: seq<Expectation>, probes: seq<Probe>, judged: bool)
    returns (w: Weights, findings: seq<Finding>)
    ensures w == WeightsOf(a, expected, probes, |expected|)
    ensures findings == AllFound(a, expected, probes, judged, |expected|)
  {
    w, findings := NO_WEIGHTS, [];
    for n := 0 to |expected|
      invariant w == WeightsOf(a, expected, probes, n)
      invariant findings == AllFound(a, expected, probes, judged, n)
    {
      var e := expected[n];
      var state := StateOf(probes, e.id);
      findings := findings + Found(a, e, state, judged);
      w := Weigh(w, e, state, Credit(a, e));
    }
  }

  method AddJudgeFindings(own: seq<Finding>, judged: seq<Finding>) returns (findings: seq<Finding>)
    ensures findings == Novel(own, judged)
  {
    findings := own;
    for i := 0 to |judged|
      invariant findings == Novel(own, judged[..i])
    {
      assert judged[..i + 1][..i] == judged[..i];
      if judged[i] !in findings {
        findings := findings + [judged[i]];
      }
    }
    assert judged[..|judged|] == judged;
  }

  method FindInAnswer(a: Reading, rubric: Rubric, probes: seq<Probe>, verdict: Option<Verdict>)
    returns (w: Weights, findings: seq<Finding>)
    ensures w == WeightsOf(a, rubric.expected, probes, |rubric.expected|)
    ensures findings == OwnFindings(a, rubric, probes, verdict)
  {
    var missing := [];
    if verdict.None? {
      missing := Repeat(|MissingTerms(a, rubric.required)|, Finding(BadSynthesis, None));
    }
    var found;
    w, found := WeighExpectations(a, rubric.expected, probes, verdict.Some?);
    var stale := [];
    if ConfirmsStale(verdict) {
      stale := Repeat(|PresentTerms(a, rubric.forbidden)|, Finding(Overconfidence, None));
    }
    findings := missing + found + stale;
  }

  method ScoreCheckpoint(a: Reading, rubric: Rubric, o: Observation, limits: Limits, verdict: Option<Verdict>)
    returns (score: EvalScores.Score, findings: seq<Finding>)
    ensures score == ScoreOf(PartsOf(a, rubric, o, limits, verdict))
    ensures findings == FindingsOf(a, rubric, o, limits, verdict)
  {
    var w;
    w, findings := FindInAnswer(a, rubric, o.probes, verdict);
    score := ScoreOf(Blend(a, rubric, o, limits, verdict, w));
    if verdict.Some? {
      findings := AddJudgeFindings(findings, verdict.value.findings);
    }
    var latencyPenalty := OverBudget(o.latency, limits.latency);
    var tokenPenalty := OverBudget(o.tokens, limits.tokens);
    findings := findings
                + (if latencyPenalty > 0.0 then [Finding(LatencyCost, None)] else [])
                + (if tokenPenalty > 0.0 then [Finding(TokenCost, None)] else []);
  }

  // ---- What the score means ----

  lemma {:induction false} WeightsPrefix(a: Reading, part: seq<Expectation>, whole: seq<Expectation>, probes: seq<Probe>, n: nat)
    requires n <= |part| && part <= whole
    ensures WeightsOf(a, whole, probes, n) == WeightsOf(a, part, probes, n)
  {
    if n > 0 { WeightsPrefix(a, part, whole, probes, n - 1); }
  }

  function AllWeights(a: Reading, expected: seq<Expectation>, probes: seq<Probe>): Weights {
    WeightsOf(a, expected, probes, |expected|)
  }

  lemma WeighOneMore(a: Reading, expected: seq<Expectation>, e: Expectation, probes: seq<Probe>)
    ensures AllWeights(a, expected + [e], probes)
            == Weigh(AllWeights(a, expected, probes), e, StateOf(probes, e.id), Credit(a, e))
  {
    WeightsPrefix(a, expected, expected + [e], probes, |expected|);
  }

  lemma WeighCommutes(w: Weights, e: Expectation, state: State, credit: real)
    ensures Weigh(w.(errors := w.errors + 1), e, state, credit)
            == var v := Weigh(w, e, state, credit); v.(errors := v.errors + 1)
  {
  }

  /** A probe that failed says nothing about the memory. */
  lemma {:induction false} UnknownWeighsNothing(a: Reading, before: seq<Expectation>, e: Expectation, after: seq<Expectation>,
                                                probes: seq<Probe>)
    requires StateOf(probes, e.id).Unknown?
    ensures AllWeights(a, before + [e] + after, probes)
            == var w := AllWeights(a, before + after, probes); w.(errors := w.errors + 1)
    decreases |after|
  {
    if after == [] {
      assert before + [e] + after == before + [e] && before + after == before;
      WeighOneMore(a, before, e, probes);
    } else {
      var init, last := after[..|after| - 1], after[|after| - 1];
      UnknownWeighsNothing(a, before, e, init, probes);
      assert before + [e] + after == before + [e] + init + [last] && before + after == before + init + [last];
      WeighOneMore(a, before + [e] + init, last, probes);
      WeighOneMore(a, before + init, last, probes);
      WeighCommutes(AllWeights(a, before + init, probes), last, StateOf(probes, last.id), Credit(a, last));
    }
  }

  /** An expectation whose probe failed leaves the memory scores as they would be without it: one failing
      query is never counted as a memory that was not formed or not forgotten. */
  lemma FailedProbeIsNeutral(a: Reading, rubric: Rubric, before: seq<Expectation>, e: Expectation, after: seq<Expectation>,
                             o: Observation, limits: Limits, verdict: Option<Verdict>)
    requires rubric.expected == before + [e] + after && StateOf(o.probes, e.id).Unknown?
    ensures var with := PartsOf(a, rubric, o, limits, verdict);
            var without := PartsOf(a, rubric.(expected := before + after), o, limits, verdict);
            with.utility == without.utility && with.forgetting == without.forgetting && with.calibration == without.calibration
  {
    UnknownWeighsNothing(a, before, e, after, o.probes);
  }

  /** The same probes came back, and none that was met is unmet now. */
  ghost predicate Better(now: seq<Probe>, then': seq<Probe>) {
    && |now| == |then'|
    && forall id :: (StateOf(now, id).Unknown? <==> StateOf(then', id).Unknown?) && (StateOf(then', id).Met? ==> StateOf(now, id).Met?)
  }

  ghost predicate PositiveWeights(expected: seq<Expectation>) {
    forall i :: 0 <= i < |expected| ==> expected[i].weight > 0.0
  }

  ghost predicate WeighsNoLess(w: Weights, v: Weights) {
    && w.present == v.present && w.absent == v.absent && w.terms == v.terms && w.termsMet == v.termsMet
    && w.errors == v.errors && w.presentMet >= v.presentMet && w.absentMet >= v.absentMet
  }

  ghost predicate MetWithin(w: Weights) {
    0.0 <= w.presentMet <= w.present && 0.0 <= w.absentMet <= w.absent
  }

  lemma WeighImproves(w: Weights, v: Weights, e: Expectation, now: State, then': State, credit: real)
    requires WeighsNoLess(w, v) && MetWithin(w) && e.weight > 0.0
    requires (now.Unknown? <==> then'.Unknown?) && (then'.Met? ==> now.Met?)
    ensures WeighsNoLess(Weigh(w, e, now, credit), Weigh(v, e, then', credit)) && MetWithin(Weigh(w, e, now, credit))
  {
  }

  lemma {:induction false} WeightsImprove(a: Reading, expected: seq<Expectation>, now: seq<Probe>, then': seq<Probe>, n: nat)
    requires n <= |expected| && PositiveWeights(expected) && Better(now, then')
    ensures WeighsNoLess(WeightsOf(a, expected, now, n), WeightsOf(a, expected, then', n))
    ensures MetWithin(WeightsOf(a, expected, now, n))
  {
    if n > 0 {
      var e := expected[n - 1];
      WeightsImprove(a, expected, now, then', n - 1);
      WeighImproves(WeightsOf(a, expected, now, n - 1), WeightsOf(a, expected, then', n - 1), e,
                    StateOf(now, e.id), StateOf(then', e.id), Credit(a, e));
    }
  }

  lemma RatioMonotone(a: real, b: real, whole: real)
    requires a <= b && whole >= 0.0
    ensures Ratio(a, whole) <= Ratio(b, whole)
  {
    if whole > 0.0 { Divided(a, b, whole); }
  }

  lemma Divided(a: real, b: real, w: real)
    requires a <= b && w > 0.0
    ensures a / w <= b / w
  {
    assert b / w - a / w == (b - a) / w;
  }

  lemma UtilityMonotone(a: real, b: real, required: Option<real>, terms: Option<real>)
    requires a <= b
    ensures LexicalUtility(a, required, terms) <= LexicalUtility(b, required, terms)
  {
  }

  /** A graph that meets more of what is expected never scores worse. */
  lemma BetterGraphScoresNoWorse(a: Reading, rubric: Rubric, now: Observation, then': Observation, limits: Limits,
                                 verdict: Option<Verdict>)
    requires PositiveWeights(rubric.expected) && Better(now.probes, then'.probes)
    requires now == then'.(probes := now.probes)
    ensures Total(PartsOf(a, rubric, now, limits, verdict)) >= Total(PartsOf(a, rubric, then', limits, verdict))
  {
    var n := |rubric.expected|;
    WeightsImprove(a, rubric.expected, now.probes, then'.probes, n);
    var w, v := WeightsOf(a, rubric.expected, now.probes, n), WeightsOf(a, rubric.expected, then'.probes, n);
    RatioMonotone(v.presentMet, w.presentMet, w.present);
    RatioMonotone(v.absentMet, w.absentMet, w.absent);
    var p, q := PartsOf(a, rubric, now, limits, verdict), PartsOf(a, rubric, then', limits, verdict);
    if verdict.None? {
      var required := if rubric.required == [] then None else Some(Fraction(a, rubric.required));
      var terms := if w.terms > 0.0 then Some(w.termsMet / w.terms) else None;
      UtilityMonotone(Ratio(v.presentMet, v.present), Ratio(w.presentMet, w.present), required, terms);
    }
    assert p.utility >= q.utility && p.forgetting >= q.forgetting;
    assert p.calibration == q.calibration && p.health == q.health && p.latency == q.latency && p.tokens == q.tokens;
    TotalMonotone(p, q);
  }

  lemma TotalMonotone(p: Parts, q: Parts)
    requires p.utility >= q.utility && p.forgetting >= q.forgetting && p.calibration == q.calibration
    requires p.health == q.health && p.latency == q.latency && p.tokens == q.tokens
    ensures Total(p) >= Total(q)
  {
  }

  lemma QuotientWithin(part: real, whole: real)
    requires 0.0 <= part <= whole && whole > 0.0
    ensures 0.0 <= part / whole <= 1.0
  {
  }

  lemma FractionWithin(a: Reading, terms: seq<string>)
    ensures 0.0 <= Fraction(a, terms) <= 1.0
  {
    if terms != [] { QuotientWithin(|PresentTerms(a, terms)| as real, |terms| as real); }
  }

  lemma PartOfWeight(weight: real, fraction: real)
    requires weight > 0.0 && 0.0 <= fraction <= 1.0
    ensures 0.0 <= weight * fraction <= weight
  {
  }

  lemma CreditWithin(a: Reading, e: Expectation)
    requires e.weight > 0.0
    ensures 0.0 <= Credit(a, e) <= e.weight
  {
    FractionWithin(a, e.answerTerms);
    PartOfWeight(e.weight, Fraction(a, e.answerTerms));
  }

  lemma WeighTerms(w: Weights, e: Expectation, state: State, credit: real)
    requires 0.0 <= w.termsMet <= w.terms && 0.0 <= credit <= e.weight
    ensures var v := Weigh(w, e, state, credit); 0.0 <= v.termsMet <= v.terms
  {
  }

  lemma {:induction false} TermsWithin(a: Reading, expected: seq<Expectation>, probes: seq<Probe>, n: nat)
    requires n <= |expected| && PositiveWeights(expected)
    ensures 0.0 <= WeightsOf(a, expected, probes, n).termsMet <= WeightsOf(a, expected, probes, n).terms
  {
    if n > 0 {
      var e := expected[n - 1];
      TermsWithin(a, expected, probes, n - 1);
      CreditWithin(a, e);
      WeighTerms(WeightsOf(a, expected, probes, n - 1), e, StateOf(probes, e.id), Credit(a, e));
    }
  }

  lemma RatioWithin(part: real, whole: real)
    requires 0.0 <= part <= whole
    ensures 0.0 <= Ratio(part, whole) <= 1.0
  {
    if whole > 0.0 { QuotientWithin(part, whole); }
  }

  ghost predicate InRange(p: Parts) {
    && 0.0 <= p.utility <= 1.0 && 0.0 <= p.forgetting <= 1.0 && 0.0 <= p.calibration <= 1.0
    && 0.0 <= Evolution(p) <= 1.0 && 0.0 <= p.latency <= 1.0 && 0.0 <= p.tokens <= 1.0
  }

  ghost predicate FairJudge(verdict: Option<Verdict>) {
    verdict.Some? ==> var v := verdict.value;
      0.0 <= v.memoryUtility <= 1.0 && 0.0 <= v.forgettingQuality <= 1.0 && 0.0 <= v.uncertaintyCalibration <= 1.0
  }

  lemma BlendInRange(a: Reading, rubric: Rubric, o: Observation, limits: Limits, verdict: Option<Verdict>, w: Weights)
    requires FairJudge(verdict)
    requires 0.0 <= w.presentMet <= w.present && 0.0 <= w.absentMet <= w.absent && 0.0 <= w.termsMet <= w.terms
    ensures InRange(Blend(a, rubric, o, limits, verdict, w))
  {
    RatioWithin(w.presentMet, w.present);
    RatioWithin(w.absentMet, w.absent);
    if w.terms > 0.0 { QuotientWithin(w.termsMet, w.terms); }
    FractionWithin(a, rubric.required);
    FractionWithin(a, rubric.forbidden);
  }

  /** With positive weights and a judge in [0, 1], the memory scores are in [0, 1] before any clamping. */
  lemma PartsInRange(a: Reading, rubric: Rubric, o: Observation, limits: Limits, verdict: Option<Verdict>)
    requires PositiveWeights(rubric.expected) && FairJudge(verdict)
    ensures InRange(PartsOf(a, rubric, o, limits, verdict))
    ensures var p := PartsOf(a, rubric, o, limits, verdict);
            var score := ScoreOf(p);
            && score.memoryUtility == p.utility && score.forgettingQuality == p.forgetting
            && score.uncertaintyCalibration == p.calibration && score.evolutionQuality == Evolution(p)
            && score.latencyPenalty == p.latency && score.tokenCostPenalty == p.tokens
  {
    var n := |rubric.expected|;
    WeightsImprove(a, rubric.expected, o.probes, o.probes, n);
    TermsWithin(a, rubric.expected, o.probes, n);
    BlendInRange(a, rubric, o, limits, verdict, WeightsOf(a, rubric.expected, o.probes, n));
  }

  /** No memory is reported missing or left over unless a probe says so. */
  lemma {:induction false} MissesAreProbed(a: Reading, expected: seq<Expectation>, probes: seq<Probe>, judged: bool, n: nat, f: Finding)
    requires n <= |expected| && f in AllFound(a, expected, probes, judged, n)
    ensures f.expectation.Some?
    ensures f.kind in {FormationMiss, BadConsolidation} <==> StateOf(probes, f.expectation.value).Unmet?
    ensures f.kind == GraphProbeError <==> StateOf(probes, f.expectation.value).Unknown?
  {
    if f in AllFound(a, expected, probes, judged, n - 1) {
      MissesAreProbed(a, expected, probes, judged, n - 1, f);
    } else {
      assert f in Found(a, expected[n - 1], StateOf(probes, expected[n - 1].id), judged);
    }
  }

  lemma {:induction false} AllFoundGrows(a: Reading, expected: seq<Expectation>, probes: seq<Probe>, judged: bool, m: nat, n: nat)
    requires m <= n <= |expected|
    ensures AllFound(a, expected, probes, judged, m) <= AllFound(a, expected, probes, judged, n)
    decreases n - m
  {
    if m < n { AllFoundGrows(a, expected, probes, judged, m + 1, n); }
  }

  lemma FoundIsReported(a: Reading, expected: seq<Expectation>, probes: seq<Probe>, judged: bool, i: nat, f: Finding)
    requires i < |expected| && f in Found(a, expected[i], StateOf(probes, expected[i].id), judged)
    ensures f in AllFound(a, expected, probes, judged, |expected|)
  {
    assert f in AllFound(a, expected, probes, judged, i + 1);
    AllFoundGrows(a, expected, probes, judged, i + 1, |expected|);
  }

  lemma {:induction false} NovelKeeps(found: seq<Finding>, judged: seq<Finding>, f: Finding)
    ensures f in Novel(found, judged) <==> f in found || f in judged
  {
    if judged != [] {
      var n := |judged| - 1;
      NovelKeeps(found, judged[..n], f);
      assert f in judged <==> f in judged[..n] || f == judged[n];
    }
  }

  /** Conversely every expectation a probe found unmet, or could not settle, is reported as that, whatever the
      judge says. */
  lemma EveryMissIsReported(a: Reading, rubric: Rubric, o: Observation, limits: Limits, verdict: Option<Verdict>, i: nat)
    requires i < |rubric.expected|
    ensures var e := rubric.expected[i];
            var findings := FindingsOf(a, rubric, o, limits, verdict);
            && (StateOf(o.probes, e.id).Unmet? ==>
                  Finding(if e.mode.ShouldExist? then FormationMiss else BadConsolidation, Some(e.id)) in findings)
            && (StateOf(o.probes, e.id).Unknown? ==> Finding(GraphProbeError, Some(e.id)) in findings)
  {
    var e := rubric.expected[i];
    var found := Found(a, e, StateOf(o.probes, e.id), verdict.Some?);
    if found != [] {
      FoundIsReported(a, rubric.expected, o.probes, verdict.Some?, i, found[0]);
      assert found[0] in OwnFindings(a, rubric, o.probes, verdict);
      if verdict.Some? {
        NovelKeeps(OwnFindings(a, rubric, o.probes, verdict), verdict.value.findings, found[0]);
      }
    }
  }

  // ---- Which way the score moves ----

  /** Every one of the terms the one answer mentions, the other mentions too. */
  predicate MentionsNoFewer(more: Reading, fewer: Reading, terms: seq<string>) {
    forall i :: 0 <= i < |terms| ==> (fewer.mentions(terms[i]) ==> more.mentions(terms[i]))
  }

  lemma {:induction false} PresentMonotone(more: Reading, fewer: Reading, terms: seq<string>)
    requires MentionsNoFewer(more, fewer, terms)
    ensures |PresentTerms(fewer, terms)| <= |PresentTerms(more, terms)|
  {
    if terms != [] { PresentMonotone(more, fewer, terms[..|terms| - 1]); }
  }

  lemma FractionMonotone(more: Reading, fewer: Reading, terms: seq<string>)
    requires MentionsNoFewer(more, fewer, terms)
    ensures Fraction(fewer, terms) <= Fraction(more, terms)
  {
    PresentMonotone(more, fewer, terms);
    if terms != [] { Divided(|PresentTerms(fewer, terms)| as real, |PresentTerms(more, terms)| as real, |terms| as real); }
  }

  lemma {:induction false} NonePresentIff(a: Reading, terms: seq<string>)
    ensures PresentTerms(a, terms) == [] <==> forall i :: 0 <= i < |terms| ==> !(Trim(terms[i]) != [] && a.mentions(terms[i]))
  {
    if terms != [] { NonePresentIff(a, terms[..|terms| - 1]); }
  }

  lemma ZeroShareIff(n: nat, m: nat)
    requires m > 0
    ensures 1.0 - n as real / m as real == 1.0 <==> n == 0
  {
    var q := n as real / m as real;
    assert q * m as real == n as real;
    if q == 0.0 { assert n as real == 0.0; }
  }

  /** Without a judge, an answer is fully calibrated exactly when it mentions none of the forbidden terms. */
  lemma CalibratedIff(a: Reading, rubric: Rubric, o: Observation, limits: Limits)
    ensures PartsOf(a, rubric, o, limits, None).calibration == 1.0
       <==> forall i :: 0 <= i < |rubric.forbidden| ==> !(Trim(rubric.forbidden[i]) != [] && a.mentions(rubric.forbidden[i]))
  {
    NonePresentIff(a, rubric.forbidden);
    if rubric.forbidden != [] { ZeroShareIff(|PresentTerms(a, rubric.forbidden)|, |rubric.forbidden|); }
  }

  /** The one answer mentions no more forbidden terms and no fewer of the required and expected ones. */
  ghost predicate NoWorse(a: Reading, b: Reading, rubric: Rubric) {
    && MentionsNoFewer(b, a, rubric.forbidden)
    && MentionsNoFewer(a, b, rubric.required)
    && forall i :: 0 <= i < |rubric.expected| ==> MentionsNoFewer(a, b, rubric.expected[i].answerTerms)
  }

  /** The same, but for more weight of terms met. */
  predicate EarnsNoLess(w: Weights, v: Weights) {
    w == v.(termsMet := w.termsMet) && w.termsMet >= v.termsMet
  }

  lemma WeighEarns(w: Weights, v: Weights, e: Expectation, state: State, credit: real, less: real)
    requires EarnsNoLess(w, v) && credit >= less
    ensures EarnsNoLess(Weigh(w, e, state, credit), Weigh(v, e, state, less))
  {
  }

  lemma CreditMonotone(a: Reading, b: Reading, e: Expectation)
    requires e.weight > 0.0 && MentionsNoFewer(a, b, e.answerTerms)
    ensures Credit(a, e) >= Credit(b, e)
  {
    FractionMonotone(a, b, e.answerTerms);
    var f, g := Fraction(a, e.answerTerms), Fraction(b, e.answerTerms);
    assert e.weight * f - e.weight * g == e.weight * (f - g);
  }

  lemma {:induction false} AnswerEarns(a: Reading, b: Reading, expected: seq<Expectation>, probes: seq<Probe>, n: nat)
    requires n <= |expected| && PositiveWeights(expected)
    requires forall i :: 0 <= i < |expected| ==> MentionsNoFewer(a, b, expected[i].answerTerms)
    ensures EarnsNoLess(WeightsOf(a, expected, probes, n), WeightsOf(b, expected, probes, n))
  {
    if n > 0 {
      var e := expected[n - 1];
      AnswerEarns(a, b, expected, probes, n - 1);
      CreditMonotone(a, b, e);
      WeighEarns(WeightsOf(a, expected, probes, n - 1), WeightsOf(b, expected, probes, n - 1), e, StateOf(probes, e.id),
                 Credit(a, e), Credit(b, e));
    }
  }

  lemma UtilityRises(presence: real, required: Option<real>, required': Option<real>, terms: Option<real>, terms': Option<real>)
    requires required.Some? == required'.Some? && (required.Some? ==> required.value >= required'.value)
    requires terms.Some? == terms'.Some? && (terms.Some? ==> terms.value >= terms'.value)
    ensures LexicalUtility(presence, required, terms) >= LexicalUtility(presence, required', terms')
  {
  }

  ghost predicate PartsNoWorse(p: Parts, q: Parts) {
    && p.utility >= q.utility && p.forgetting >= q.forgetting && p.calibration >= q.calibration && p.health >= q.health
    && p.latency <= q.latency && p.tokens <= q.tokens
  }

  /** No part works against the total, and the penalties do. */
  lemma TotalFollowsParts(p: Parts, q: Parts)
    requires PartsNoWorse(p, q)
    ensures Total(p) >= Total(q)
  {
  }

  lemma BlendFollowsAnswer(a: Reading, b: Reading, rubric: Rubric, o: Observation, limits: Limits, w: Weights, v: Weights)
    requires NoWorse(a, b, rubric) && EarnsNoLess(w, v)
    ensures PartsNoWorse(Blend(a, rubric, o, limits, None, w), Blend(b, rubric, o, limits, None, v))
  {
    FractionMonotone(a, b, rubric.required);
    FractionMonotone(b, a, rubric.forbidden);
    if w.terms > 0.0 { Divided(v.termsMet, w.termsMet, w.terms); }
    UtilityRises(Ratio(w.presentMet, w.present),
                 if rubric.required == [] then None else Some(Fraction(a, rubric.required)),
                 if rubric.required == [] then None else Some(Fraction(b, rubric.required)),
                 if w.terms > 0.0 then Some(w.termsMet / w.terms) else None,
                 if w.terms > 0.0 then Some(v.termsMet / w.terms) else None);
  }

  /** Without a judge, an answer that mentions no more of what is forbidden and no less of what is required and
      expected has no part worse, and never scores lower. */
  lemma BetterAnswerScoresNoWorse(a: Reading, b: Reading, rubric: Rubric, o: Observation, limits: Limits)
    requires PositiveWeights(rubric.expected) && NoWorse(a, b, rubric)
    ensures PartsNoWorse(PartsOf(a, rubric, o, limits, None), PartsOf(b, rubric, o, limits, None))
    ensures Total(PartsOf(a, rubric, o, limits, None)) >= Total(PartsOf(b, rubric, o, limits, None))
  {
    var n := |rubric.expected|;
    AnswerEarns(a, b, rubric.expected, o.probes, n);
    BlendFollowsAnswer(a, b, rubric, o, limits, WeightsOf(a, rubric.expected, o.probes, n), WeightsOf(b, rubric.expected, o.probes, n));
    TotalFollowsParts(PartsOf(a, rubric, o, limits, None), PartsOf(b, rubric, o, limits, None));
  }

  /** A judge who rates every part no lower never makes the score lower. */
  lemma BetterJudgeScoresNoWorse(a: Reading, rubric: Rubric, o: Observation, limits: Limits, v: Verdict, u: Verdict)
    requires v.memoryUtility >= u.memoryUtility && v.forgettingQuality >= u.forgettingQuality
    requires v.uncertaintyCalibration >= u.uncertaintyCalibration
    ensures PartsNoWorse(PartsOf(a, rubric, o, limits, Some(v)), PartsOf(a, rubric, o, limits, Some(u)))
    ensures Total(PartsOf(a, rubric, o, limits, Some(v))) >= Total(PartsOf(a, rubric, o, limits, Some(u)))
  {
    TotalFollowsParts(PartsOf(a, rubric, o, limits, Some(v)), PartsOf(a, rubric, o, limits, Some(u)));
  }

  lemma QuotientRises(a: nat, b: nat, w: nat)
    requires a <= b && w > 0
    ensures a as real / w as real <= b as real / w as real
  {
    Divided(a as real, b as real, w as real);
  }

  /** A cost is free up to its limit, counts in full from twice the limit on, and never counts less when it rises. */
  lemma OverBudgetRises(less: nat, more: nat, limit: Option<nat>)
    requires less <= more
    ensures OverBudget(less, limit) <= OverBudget(more, limit)
    ensures limit.None? || limit.value == 0 ==> OverBudget(more, limit) == 0.0
    ensures limit.Some? && limit.value > 0 ==>
              && (OverBudget(more, limit) == 0.0 <==> more <= limit.value)
              && (OverBudget(more, limit) == 1.0 <==> more >= 2 * limit.value)
  {
    if limit.Some? && limit.value > 0 {
      OverBudgetMarks(more, limit.value);
      if less > limit.value { QuotientRises(less - limit.value, more - limit.value, limit.value); }
      OverBudgetMarks(less, limit.value);
    }
  }

  lemma QuotientMarks(part: real, whole: real)
    requires part > 0.0 && whole > 0.0
    ensures part / whole > 0.0
    ensures part / whole >= 1.0 <==> part >= whole
  {
    var q := part / whole;
    assert q * whole == part;
    if q >= 1.0 {
      assert (q - 1.0) * whole >= 0.0;
    } else {
      assert (1.0 - q) * whole > 0.0;
    }
  }

  lemma OverBudgetMarks(actual: nat, limit: nat)
    requires limit > 0
    ensures 0.0 <= OverBudget(actual, Some(limit)) <= 1.0
    ensures OverBudget(actual, Some(limit)) == 0.0 <==> actual <= limit
    ensures OverBudget(actual, Some(limit)) == 1.0 <==> actual >= 2 * limit
  {
    if actual > limit { QuotientMarks((actual - limit) as real, limit as real); }
  }

  /** What costs more never scores better. */
  lemma CostlierScoresNoBetter(a: Reading, rubric: Rubric, o: Observation, latency: nat, tokens: nat, limits: Limits,
                               verdict: Option<Verdict>)
    requires o.latency <= latency && o.tokens <= tokens
    ensures Total(PartsOf(a, rubric, o, limits, verdict))
            >= Total(PartsOf(a, rubric, o.(latency := latency, tokens := tokens), limits, verdict))
  {
    OverBudgetRises(o.latency, latency, limits.latency);
    OverBudgetRises(o.tokens, tokens, limits.tokens);
    TotalFollowsParts(PartsOf(a, rubric, o, limits, verdict),
                      PartsOf(a, rubric, o.(latency := latency, tokens := tokens), limits, verdict));
  }

  // ---- Exactly what is found ----

  /** The answer lacks one of the terms. */
  predicate Lacks(a: Reading, terms: seq<string>) {
    exists i :: 0 <= i < |terms| && Trim(terms[i]) != [] && !a.mentions(terms[i])
  }

  predicate Leaks(a: Reading, terms: seq<string>) {
    exists i :: 0 <= i < |terms| && Trim(terms[i]) != [] && a.mentions(terms[i])
  }

  lemma {:induction false} NoneMissingIff(a: Reading, terms: seq<string>)
    ensures MissingTerms(a, terms) != [] <==> Lacks(a, terms)
  {
    if terms != [] {
      var n := |terms| - 1;
      NoneMissingIff(a, terms[..n]);
      if Lacks(a, terms) {
        var i :| 0 <= i < |terms| && Trim(terms[i]) != [] && !a.mentions(terms[i]);
        if i < n { assert terms[..n][i] == terms[i]; }
      }
      if Lacks(a, terms[..n]) {
        var i :| 0 <= i < n && Trim(terms[..n][i]) != [] && !a.mentions(terms[..n][i]);
        assert Trim(terms[i]) != [] && !a.mentions(terms[i]);
      }
    }
  }

  /** What is wrong with an expectation: its probe could not tell, its memory is missing or left over, or, when there is
      no judge to say so, the memory was there but the answer lacks its terms, though the recall trace had them or not.
      The trace is searched for the expectation's own terms, or else those of the answer. */
  ghost predicate IsWrong(a: Reading, e: Expectation, state: State, judged: bool, kind: Kind) {
    var terms := if e.traceTerms != [] then e.traceTerms else e.answerTerms;
    var unused := state.Met? && e.mode.ShouldExist? && !judged && Lacks(a, e.answerTerms);
    match kind
    case GraphProbeError => state.Unknown?
    case FormationMiss => state.Unmet? && e.mode.ShouldExist?
    case BadConsolidation => state.Unmet? && e.mode.ShouldNotExist?
    case BadSynthesis => unused && a.evidence(terms)
    case BadGrounding => unused && !a.evidence(terms)
    case _ => false
  }

  lemma FoundIff(a: Reading, e: Expectation, state: State, judged: bool, f: Finding)
    ensures f in Found(a, e, state, judged) <==> f.expectation == Some(e.id) && IsWrong(a, e, state, judged, f.kind)
    ensures |Found(a, e, state, judged)| <= 1
  {
    NoneMissingIff(a, e.answerTerms);
  }

  /** The finding is about one of the first `n` expectations. */
  ghost predicate IsAbout(a: Reading, expected: seq<Expectation>, probes: seq<Probe>, judged: bool, n: nat, f: Finding)
    requires n <= |expected|
  {
    exists i :: 0 <= i < n && f.expectation == Some(expected[i].id)
             && IsWrong(a, expected[i], StateOf(probes, expected[i].id), judged, f.kind)
  }

  lemma IsAboutNext(a: Reading, expected: seq<Expectation>, probes: seq<Probe>, judged: bool, n: nat, f: Finding)
    requires 0 < n <= |expected|
    ensures IsAbout(a, expected, probes, judged, n, f)
       <==> || IsAbout(a, expected, probes, judged, n - 1, f)
            || (f.expectation == Some(expected[n - 1].id)
                && IsWrong(a, expected[n - 1], StateOf(probes, expected[n - 1].id), judged, f.kind))
  {
  }

  /** The findings about expectations are exactly those, one at most for each. */
  lemma {:induction false} AllFoundIff(a: Reading, expected: seq<Expectation>, probes: seq<Probe>, judged: bool, n: nat, f: Finding)
    requires n <= |expected|
    ensures f in AllFound(a, expected, probes, judged, n) <==> IsAbout(a, expected, probes, judged, n, f)
    ensures |AllFound(a, expected, probes, judged, n)| <= n
  {
    if n > 0 {
      AllFoundIff(a, expected, probes, judged, n - 1, f);
      IsAboutNext(a, expected, probes, judged, n, f);
      FoundIff(a, expected[n - 1], StateOf(probes, expected[n - 1].id), judged, f);
    }
  }

  /** Findings about the answer as a whole: without a judge a required term it lacks; a forbidden term it leaks, unless
      there is a judge who finds it neither badly calibrated nor overconfident. */
  lemma AnswerFindingsIff(a: Reading, rubric: Rubric, probes: seq<Probe>, verdict: Option<Verdict>, kind: Kind)
    ensures Finding(kind, None) in OwnFindings(a, rubric, probes, verdict)
       <==> || (kind.BadSynthesis? && verdict.None? && Lacks(a, rubric.required))
            || (kind.Overconfidence? && Leaks(a, rubric.forbidden)
                && (verdict.None? || verdict.value.uncertaintyCalibration < 0.5
                    || exists f :: f in verdict.value.findings && f.kind.Overconfidence?))
  {
    AllFoundIff(a, rubric.expected, probes, verdict.Some?, |rubric.expected|, Finding(kind, None));
    NoneMissingIff(a, rubric.required);
    NonePresentIff(a, rubric.forbidden);
    RepeatHas(|MissingTerms(a, rubric.required)|, Finding(BadSynthesis, None), Finding(kind, None));
    RepeatHas(|PresentTerms(a, rubric.forbidden)|, Finding(Overconfidence, None), Finding(kind, None));
    ConfirmsIff(verdict);
  }

  lemma ConfirmsIff(verdict: Option<Verdict>)
    ensures ConfirmsStale(verdict)
       <==> (verdict.None? || verdict.value.uncertaintyCalibration < 0.5
             || exists f :: f in verdict.value.findings && f.kind.Overconfidence?)
  {
    if verdict.Some? {
      if f :| f in verdict.value.findings && f.kind.Overconfidence? {
        var i :| 0 <= i < |verdict.value.findings| && verdict.value.findings[i] == f;
        assert verdict.value.findings[i].kind.Overconfidence?;
      }
    }
  }

  lemma RepeatHas(n: nat, f: Finding, g: Finding)
    ensures g in Repeat(n, f) <==> n > 0 && g == f
  {
    if n > 0 { assert Repeat(n, f)[0] == f; }
  }

  predicate IsExceeded(actual: nat, limit: Option<nat>) {
    limit.Some? && 0 < limit.value < actual
  }

  lemma ExceededIff(actual: nat, limit: Option<nat>)
    ensures OverBudget(actual, limit) > 0.0 <==> IsExceeded(actual, limit)
  {
    OverBudgetRises(actual, actual, limit);
    OverBudgetIsNotNegative(actual, limit);
  }

  lemma JudgedFindings(own: seq<Finding>, verdict: Option<Verdict>, f: Finding)
    ensures f in (if verdict.Some? then Novel(own, verdict.value.findings) else own)
       <==> f in own || (verdict.Some? && f in verdict.value.findings)
  {
    if verdict.Some? { NovelKeeps(own, verdict.value.findings, f); }
  }

  ghost predicate NoneTwice(findings: seq<Finding>) {
    forall i, j :: 0 <= i < j < |findings| ==> findings[i] != findings[j]
  }

  /** Of the judge's findings, exactly those not found before are added, each once. */
  lemma {:induction false} NovelAddsOnce(found: seq<Finding>, judged: seq<Finding>) returns (more: seq<Finding>)
    ensures Novel(found, judged) == found + more && NoneTwice(more)
    ensures forall f :: f in more <==> f in judged && f !in found
  {
    if judged == [] {
      more := [];
      assert found + [] == found;
    } else {
      var last := judged[|judged| - 1];
      var before := NovelAddsOnce(found, judged[..|judged| - 1]);
      assert judged == judged[..|judged| - 1] + [last];
      more := if last in found + before then before else before + [last];
      assert found + (before + [last]) == found + before + [last];
    }
  }

  /** What a checkpoint reports: what was found, what the judge adds, and the budgets that were exceeded. */
  lemma ReportedIff(a: Reading, rubric: Rubric, o: Observation, limits: Limits, verdict: Option<Verdict>, f: Finding)
    ensures f in FindingsOf(a, rubric, o, limits, verdict)
       <==> || f in OwnFindings(a, rubric, o.probes, verdict)
            || (verdict.Some? && f in verdict.value.findings)
            || (f == Finding(LatencyCost, None) && IsExceeded(o.latency, limits.latency))
            || (f == Finding(TokenCost, None) && IsExceeded(o.tokens, limits.tokens))
  {
    ExceededIff(o.latency, limits.latency);
    ExceededIff(o.tokens, limits.tokens);
    JudgedFindings(OwnFindings(a, rubric, o.probes, verdict), verdict, f);
  }

  lemma OverBudgetIsNotNegative(actual: nat, limit: Option<nat>)
    ensures OverBudget(actual, limit) >= 0.0
  {
    if limit.Some? && limit.value > 0 { OverBudgetMarks(actual, limit.value); }
  }

  // ---- How much each part weighs ----

  /** Each part alone, and all of them: utility and forgetting count again through the evolution, which is their mean. */
  lemma PartsWeigh()
    ensures Total(Parts(1.0, 0.0, 0.0, 0.0, 0.0, 0.0)) == 0.55
    ensures Total(Parts(0.0, 1.0, 0.0, 0.0, 0.0, 0.0)) == 0.2
    ensures Total(Parts(0.0, 0.0, 1.0, 0.0, 0.0, 0.0)) == 0.15
    ensures Total(Parts(0.0, 0.0, 0.0, 1.0, 0.0, 0.0)) == 0.1
    ensures Total(Parts(1.0, 1.0, 1.0, 1.0, 0.0, 0.0)) == 1.0
    ensures Total(Parts(1.0, 1.0, 1.0, 1.0, 1.0, 0.0)) == 0.95
    ensures Total(Parts(1.0, 1.0, 1.0, 1.0, 0.0, 1.0)) == 0.95
    ensures Evolution(Parts(1.0, 0.0, 0.0, 0.0, 0.0, 0.0)) == Evolution(Parts(0.0, 1.0, 0.0, 0.0, 0.0, 0.0)) == 0.5
  {
  }

  /** A judge decides seven tenths of the utility, half of the forgetting and all of the calibration; the rest is what the
      probes saw. */
  lemma JudgeDecides(a: Reading, rubric: Rubric, o: Observation, limits: Limits, v: Verdict, u: Verdict)
    ensures var p, q := PartsOf(a, rubric, o, limits, Some(v)), PartsOf(a, rubric, o, limits, Some(u));
            && p.utility - q.utility == 0.7 * (v.memoryUtility - u.memoryUtility)
            && p.forgetting - q.forgetting == 0.5 * (v.forgettingQuality - u.forgettingQuality)
            && p.calibration == v.uncertaintyCalibration
            && p.health == q.health && p.latency == q.latency && p.tokens == q.tokens
  {
  }

  // ---- When a part is full ----

  predicate MentionsAll(a: Reading, terms: seq<string>) {
    forall i :: 0 <= i < |terms| ==> Trim(terms[i]) != [] && a.mentions(terms[i])
  }

  lemma {:induction false} AllPresentIff(a: Reading, terms: seq<string>)
    ensures |PresentTerms(a, terms)| == |terms| <==> MentionsAll(a, terms)
  {
    if terms != [] { AllPresentIff(a, terms[..|terms| - 1]); }
  }

  lemma FullFractionIff(a: Reading, terms: seq<string>)
    ensures Fraction(a, terms) == 1.0 <==> MentionsAll(a, terms)
  {
    AllPresentIff(a, terms);
    if terms != [] { FullQuotientIff(|PresentTerms(a, terms)| as real, |terms| as real); }
  }

  lemma FullQuotientIff(part: real, whole: real)
    requires whole > 0.0
    ensures part / whole == 1.0 <==> part == whole
  {
    assert (part / whole) * whole == part;
  }

  lemma FullProductIff(weight: real, f: real)
    requires weight > 0.0
    ensures weight * f == weight <==> f == 1.0
  {
    assert weight * f - weight == weight * (f - 1.0);
    if f != 1.0 { assert weight * (f - 1.0) != 0.0; }
  }

  lemma FullCreditIff(a: Reading, e: Expectation)
    requires e.weight > 0.0
    ensures Credit(a, e) == e.weight <==> MentionsAll(a, e.answerTerms)
  {
    var f := Fraction(a, e.answerTerms);
    FullFractionIff(a, e.answerTerms);
    FullProductIff(e.weight, f);
    assert Credit(a, e) == e.weight * f;
    assert e.weight * f == e.weight <==> f == 1.0;
  }

  /** The memories the probes could tell about and that should exist do, and the answer mentions all their terms; those
      that should not exist do not. */
  predicate IsMet(e: Expectation, state: State, mode: Mode) {
    state.Unknown? || e.mode != mode || state.Met?
  }

  predicate IsUsed(a: Reading, e: Expectation, state: State) {
    state.Unknown? || e.mode.ShouldNotExist? || MentionsAll(a, e.answerTerms)
  }

  ghost predicate AllMet(expected: seq<Expectation>, probes: seq<Probe>, mode: Mode, n: nat)
    requires n <= |expected|
  {
    forall i :: 0 <= i < n ==> IsMet(expected[i], StateOf(probes, expected[i].id), mode)
  }

  ghost predicate AllUsed(a: Reading, expected: seq<Expectation>, probes: seq<Probe>, n: nat)
    requires n <= |expected|
  {
    forall i :: 0 <= i < n ==> IsUsed(a, expected[i], StateOf(probes, expected[i].id))
  }

  lemma WeighFull(a: Reading, w: Weights, e: Expectation, state: State)
    requires e.weight > 0.0 && w.presentMet <= w.present && w.absentMet <= w.absent && w.termsMet <= w.terms
    ensures var v := Weigh(w, e, state, Credit(a, e));
            && (v.presentMet == v.present <==> w.presentMet == w.present && IsMet(e, state, ShouldExist))
            && (v.absentMet == v.absent <==> w.absentMet == w.absent && IsMet(e, state, ShouldNotExist))
            && (v.termsMet == v.terms <==> w.termsMet == w.terms && IsUsed(a, e, state))
  {
    CreditWithin(a, e);
    FullCreditIff(a, e);
  }

  ghost predicate FullUpTo(a: Reading, w: Weights, expected: seq<Expectation>, probes: seq<Probe>, n: nat)
    requires n <= |expected|
  {
    && (w.presentMet == w.present <==> AllMet(expected, probes, ShouldExist, n))
    && (w.absentMet == w.absent <==> AllMet(expected, probes, ShouldNotExist, n))
    && (w.termsMet == w.terms <==> AllUsed(a, expected, probes, n))
  }

  predicate Ordered(w: Weights) {
    w.presentMet <= w.present && w.absentMet <= w.absent && w.termsMet <= w.terms
  }

  lemma WeightsOrdered(a: Reading, expected: seq<Expectation>, probes: seq<Probe>, n: nat)
    requires n <= |expected| && PositiveWeights(expected)
    ensures Ordered(WeightsOf(a, expected, probes, n))
  {
    WeightsImprove(a, expected, probes, probes, n);
    TermsWithin(a, expected, probes, n);
  }

  lemma OneMoreIsFull(a: Reading, w: Weights, expected: seq<Expectation>, probes: seq<Probe>, n: nat)
    requires 0 < n <= |expected| && expected[n - 1].weight > 0.0 && FullUpTo(a, w, expected, probes, n - 1) && Ordered(w)
    ensures FullUpTo(a, Weigh(w, expected[n - 1], StateOf(probes, expected[n - 1].id), Credit(a, expected[n - 1])), expected, probes, n)
  {
    WeighFull(a, w, expected[n - 1], StateOf(probes, expected[n - 1].id));
  }

  /** `FullUpTo` holds of the weights of the first `n` expectations. */
  ghost predicate FullWeights(a: Reading, expected: seq<Expectation>, probes: seq<Probe>, n: nat)
    requires n <= |expected|
  {
    FullUpTo(a, WeightsOf(a, expected, probes, n), expected, probes, n)
  }

  lemma FullWeightsNext(a: Reading, expected: seq<Expectation>, probes: seq<Probe>, n: nat)
    requires 0 < n <= |expected| && PositiveWeights(expected) && FullWeights(a, expected, probes, n - 1)
    ensures FullWeights(a, expected, probes, n)
  {
    WeightsOrdered(a, expected, probes, n - 1);
    OneMoreIsFull(a, WeightsOf(a, expected, probes, n - 1), expected, probes, n);
  }

  lemma {:induction false} WeightsFullIff(a: Reading, expected: seq<Expectation>, probes: seq<Probe>, n: nat)
    requires n <= |expected| && PositiveWeights(expected)
    ensures FullWeights(a, expected, probes, n)
  {
    if n > 0 {
      WeightsFullIff(a, expected, probes, n - 1);
      FullWeightsNext(a, expected, probes, n);
    }
  }

  lemma FullRatioIff(part: real, whole: real)
    requires 0.0 <= part <= whole
    ensures Ratio(part, whole) == 1.0 <==> part == whole
  {
    if whole > 0.0 { FullQuotientIff(part, whole); }
  }

  lemma FullUtilityIff(presence: real, required: Option<real>, terms: Option<real>)
    requires presence <= 1.0 && (required.Some? ==> required.value <= 1.0) && (terms.Some? ==> terms.value <= 1.0)
    ensures LexicalUtility(presence, required, terms) == 1.0
       <==> presence == 1.0 && (required.Some? ==> required.value == 1.0) && (terms.Some? ==> terms.value == 1.0)
  {
  }

  lemma NoTermsAllUsed(a: Reading, w: Weights)
    requires 0.0 <= w.termsMet <= w.terms
    ensures (if w.terms > 0.0 then w.termsMet / w.terms else 1.0) == 1.0 <==> w.termsMet == w.terms
  {
    if w.terms > 0.0 { FullQuotientIff(w.termsMet, w.terms); }
  }

  /** Without a judge, the utility is full exactly when every memory that should exist does, as far as the probes could
      tell, and the answer mentions every term of theirs and every required one; and the forgetting is full exactly when no
      memory is left over. */
  lemma FullPartsIff(a: Reading, rubric: Rubric, o: Observation, limits: Limits)
    requires PositiveWeights(rubric.expected)
    ensures var p, n := PartsOf(a, rubric, o, limits, None), |rubric.expected|;
            && (p.utility == 1.0 <==> AllMet(rubric.expected, o.probes, ShouldExist, n) && AllUsed(a, rubric.expected, o.probes, n)
                                      && MentionsAll(a, rubric.required))
            && (p.forgetting == 1.0 <==> AllMet(rubric.expected, o.probes, ShouldNotExist, n))
  {
    var n := |rubric.expected|;
    var w := WeightsOf(a, rubric.expected, o.probes, n);
    WeightsFullIff(a, rubric.expected, o.probes, n);
    WeightsImprove(a, rubric.expected, o.probes, o.probes, n);
    TermsWithin(a, rubric.expected, o.probes, n);
    FullRatioIff(w.presentMet, w.present);
    FullRatioIff(w.absentMet, w.absent);
    RatioWithin(w.presentMet, w.present);
    NoTermsAllUsed(a, w);
    if w.terms > 0.0 { QuotientWithin(w.termsMet, w.terms); }
    FractionWithin(a, rubric.required);
    FullFractionIff(a, rubric.required);
    FullUtilityIff(Ratio(w.presentMet, w.present), if rubric.required == [] then None else Some(Fraction(a, rubric.required)),
                   if w.terms > 0.0 then Some(w.termsMet / w.terms) else None);
  }

  lemma {:induction false} NoErrorsIff(a: Reading, expected: seq<Expectation>, probes: seq<Probe>, n: nat)
    requires n <= |expected|
    ensures WeightsOf(a, expected, probes, n).errors == 0 <==> forall i :: 0 <= i < n ==> !StateOf(probes, expected[i].id).Unknown?
  {
    if n > 0 { NoErrorsIff(a, expected, probes, n - 1); }
  }

  /** The graph's own counters say how healthy it is; without them it is fully healthy exactly when no probe failed. */
  lemma HealthyIff(a: Reading, rubric: Rubric, o: Observation, limits: Limits, verdict: Option<Verdict>)
    ensures o.health.Some? ==> Some(PartsOf(a, rubric, o, limits, verdict).health) == o.health
    ensures o.health.None? && o.probes == [] ==> PartsOf(a, rubric, o, limits, verdict).health == 1.0
    ensures o.health.None? && o.probes != [] ==>
              (PartsOf(a, rubric, o, limits, verdict).health == 1.0
               <==> forall i :: 0 <= i < |rubric.expected| ==> !StateOf(o.probes, rubric.expected[i].id).Unknown?)
  {
    NoErrorsIff(a, rubric.expected, o.probes, |rubric.expected|);
    if o.probes != [] { ZeroShareIff(WeightsOf(a, rubric.expected, o.probes, |rubric.expected|).errors, |o.probes|); }
  }

  /** The last probe of an expectation decides, and without one its memory counts as met. */
  lemma {:induction false} LastProbeDecides(probes: seq<Probe>, id: nat, k: nat)
    requires k < |probes| && probes[k].expectation == id && forall j :: k < j < |probes| ==> probes[j].expectation != id
    ensures StateOf(probes, id).Unknown? <==> probes[k].errored
    ensures StateOf(probes, id).Met? <==> !probes[k].errored && probes[k].satisfied
  {
    if k < |probes| - 1 { LastProbeDecides(probes[..|probes| - 1], id, k); }
  }

  lemma {:induction false} UnprobedIsMet(probes: seq<Probe>, id: nat)
    requires forall j :: 0 <= j < |probes| ==> probes[j].expectation != id
    ensures StateOf(probes, id).Met?
  {
    if probes != [] { UnprobedIsMet(probes[..|probes| - 1], id); }
  }
}
