/**
 The maintenance processing slot: two atomic flags, a transferable claim and an RAII guard.

 Every atomic operation on a flag is one step; any number of threads interleave in any order. A claim
 and a guard are owned values, so dropping or forgetting one ends it.
 */
module MaintenanceSlot {
  import opened Prelude

  type Thread = nat

  /** Where a thread stands between two atomic operations of one protocol call. */
  datatype Pc =
    | Publishing            // won `processing`, still has to set `external_claim`
    | Inheriting            // `run` found no claim to inherit, still has to try `processing`
    | Releasing             // a dropped claim took `external_claim` back, still has to clear `processing`

  /** A live claim: who took it, and whether its owner has reached `run` since. */
  datatype Claim = Claim(owner: Thread, ran: bool)

  /** `carries` is bookkeeping only, no step reads it: the claim `external_claim` was last set for, while
      nobody has swapped the flag since. */
  datatype State = State(
    processing: bool,
    external: bool,
    pcs: map<Thread, Pc>,
    claims: map<nat, Claim>,
    guards: set<nat>,
    nextId: nat,
    carries: Option<nat>)

  const INIT := State(false, false, map[], map[], {}, 0, None)

  datatype Step =
    | ClaimCas(t: Thread)                // try_claim_processing: compare_exchange(false, true)
    | ClaimPublish(t: Thread)            // try_claim_processing: external_claim.store(true)
    | DropSwap(t: Thread, claim: nat)    // MaintenanceClaim::drop: external_claim.swap(false)
    | DropStore(t: Thread)               // MaintenanceClaim::drop: processing.store(false)
    | Forget(claim: nat)                 // mem::forget of a claim whose owner's run has returned
    | RunSwap(t: Thread)                 // run: external_claim.swap(false)
    | RunCas(t: Thread)                  // run: compare_exchange(false, true)
    | GuardDrop(guard: nat)              // ProcessingGuard::drop: processing.store(false)

  predicate Enabled(s: State, step: Step) {
    match step
    case ClaimCas(t) => t !in s.pcs
    case ClaimPublish(t) => t in s.pcs && s.pcs[t] == Publishing
    case DropSwap(t, c) => t !in s.pcs && c in s.claims
    case DropStore(t) => t in s.pcs && s.pcs[t] == Releasing
    case Forget(c) => c in s.claims && s.claims[c].ran
    case RunSwap(t) => t !in s.pcs
    case RunCas(t) => t in s.pcs && s.pcs[t] == Inheriting
    case GuardDrop(g) => g in s.guards
  }

  /** The claims of `t` have reached `run`. */
  function MarkRan(claims: map<nat, Claim>, t: Thread): map<nat, Claim> {
    map c | c in claims :: if claims[c].owner == t then Claim(t, true) else claims[c]
  }

  function Next(s: State, step: Step): State
    requires Enabled(s, step)
  {
    match step
    case ClaimCas(t) =>
      if s.processing then s else s.(processing := true, pcs := s.pcs[t := Publishing])
    case ClaimPublish(t) =>
      s.(external := true, pcs := s.pcs - {t}, claims := s.claims[s.nextId := Claim(t, false)],
         nextId := s.nextId + 1, carries := Some(s.nextId))
    case DropSwap(t, c) =>
      s.(external := false, claims := s.claims - {c}, carries := None,
         pcs := if s.external then s.pcs[t := Releasing] else s.pcs)
    case DropStore(t) => s.(processing := false, pcs := s.pcs - {t})
    case Forget(c) => s.(claims := s.claims - {c})
    case RunSwap(t) =>
      var s' := s.(external := false, carries := None, claims := MarkRan(s.claims, t));
      if s.external then s'.(guards := s.guards + {s.nextId}, nextId := s.nextId + 1)
      else s'.(pcs := s.pcs[t := Inheriting])
    case RunCas(t) =>
      var s' := s.(pcs := s.pcs - {t});
      if s.processing then s'
      else s'.(processing := true, guards := s.guards + {s.nextId}, nextId := s.nextId + 1)
    case GuardDrop(g) => s.(processing := false, guards := s.guards - {g})
  }

  // ---- The linear token ----

  /** The four ways of holding the slot. */
  datatype Token = Unpublished(t: Thread) | Carried | Release(t: Thread) | Live(guard: nat)

  predicate Holds(s: State, token: Token) {
    match token
    case Unpublished(t) => t in s.pcs && s.pcs[t] == Publishing
    case Carried => s.external
    case Release(t) => t in s.pcs && s.pcs[t] == Releasing
    case Live(g) => g in s.guards
  }

  ghost predicate HeldBy(s: State, token: Token) {
    forall other :: Holds(s, other) <==> other == token
  }

  ghost predicate Free(s: State) {
    forall token :: !Holds(s, token)
  }

  /** `processing` is set exactly when one token exists, and there is never a second one. */
  ghost predicate OneToken(s: State) {
    if s.processing then exists token :: HeldBy(s, token) else Free(s)
  }

  ghost predicate Inv(s: State) {
    && OneToken(s)
    && (forall c :: c in s.claims ==> c < s.nextId)
    && (forall g :: g in s.guards ==> g < s.nextId)
    && s.external == s.carries.Some?
    && (s.carries.Some? ==> s.carries.value in s.claims && !s.claims[s.carries.value].ran)
  }

  /** The token a step uses up, and the one it leaves behind. */
  function Spends(s: State, step: Step): Option<Token> {
    match step
    case ClaimPublish(t) => Some(Unpublished(t))
    case DropSwap(_, _) => if s.external then Some(Carried) else None
    case DropStore(t) => Some(Release(t))
    case RunSwap(_) => if s.external then Some(Carried) else None
    case GuardDrop(g) => Some(Live(g))
    case _ => None
  }

  function Gains(s: State, step: Step): Option<Token> {
    match step
    case ClaimCas(t) => if s.processing then None else Some(Unpublished(t))
    case ClaimPublish(_) => Some(Carried)
    case DropSwap(t, _) => if s.external then Some(Release(t)) else None
    case RunSwap(_) => if s.external then Some(Live(s.nextId)) else None
    case RunCas(_) => if s.processing then None else Some(Live(s.nextId))
    case _ => None
  }

  lemma StepMovesToken(s: State, step: Step, token: Token)
    requires Enabled(s, step)
    ensures Holds(Next(s, step), token) <==> (Holds(s, token) && Some(token) != Spends(s, step)) || Some(token) == Gains(s, step)
    ensures Spends(s, step).Some? ==> Holds(s, Spends(s, step).value)
  {
  }

  lemma StepKeepsOneToken(s: State, step: Step)
    requires OneToken(s) && Enabled(s, step)
    ensures OneToken(Next(s, step))
  {
    var s', spent, gained := Next(s, step), Spends(s, step), Gains(s, step);
    forall token
      ensures Holds(s', token) <==> (Holds(s, token) && Some(token) != spent) || Some(token) == gained
    {
      StepMovesToken(s, step, token);
    }
    if spent.Some? {
      StepMovesToken(s, step, spent.value);
      assert HeldBy(s, spent.value);
    }
    if gained.Some? {
      assert HeldBy(s', gained.value);
    } else if spent.None? && s.processing {
      var token :| HeldBy(s, token);
      assert HeldBy(s', token);
    }
  }

  lemma StepKeepsInv(s: State, step: Step)
    requires Inv(s) && Enabled(s, step)
    ensures Inv(Next(s, step))
  {
    StepKeepsOneToken(s, step);
  }

  // ---- Runs ----

  predicate IsRun(s: State, steps: seq<Step>)
    decreases |steps|
  {
    steps != [] ==> Enabled(s, steps[0]) && IsRun(Next(s, steps[0]), steps[1..])
  }

  function Run(s: State, steps: seq<Step>): State
    requires IsRun(s, steps)
    decreases |steps|
  {
    if steps == [] then s else Run(Next(s, steps[0]), steps[1..])
  }

  lemma {:induction false} RunKeepsInv(s: State, steps: seq<Step>)
    requires Inv(s) && IsRun(s, steps)
    ensures Inv(Run(s, steps))
    decreases |steps|
  {
    if steps != [] {
      StepKeepsInv(s, steps[0]);
      RunKeepsInv(Next(s, steps[0]), steps[1..]);
    }
  }

  lemma ReachableHolds(steps: seq<Step>)
    requires IsRun(INIT, steps)
    ensures Inv(Run(INIT, steps))
  {
    RunKeepsInv(INIT, steps);
  }

  /** In every reachable state the flag tells the truth: it is set exactly when one token exists, and
      whatever is found holding the slot is that one. */
  lemma ProcessingCountsTokens(steps: seq<Step>)
    requires IsRun(INIT, steps)
    ensures var s := Run(INIT, steps);
            && (s.processing <==> exists token :: Holds(s, token))
            && (forall a, b :: Holds(s, a) && Holds(s, b) ==> a == b)
  {
    ReachableHolds(steps);
    var s := Run(INIT, steps);
    if s.processing {
      var token :| HeldBy(s, token);
      assert Holds(s, token);
    }
  }

  /** Two cycles never run together, however late a claim is dropped. */
  lemma MutualExclusion(steps: seq<Step>, g: nat, h: nat)
    requires IsRun(INIT, steps)
    requires g in Run(INIT, steps).guards && h in Run(INIT, steps).guards
    ensures g == h
    ensures Run(INIT, steps).processing && !Run(INIT, steps).external
  {
    ProcessingCountsTokens(steps);
    var s := Run(INIT, steps);
    assert Holds(s, Live(g)) && Holds(s, Live(h));
    assert s.external <==> Holds(s, Carried);
  }

  /** Once every claim and guard is gone and no call is half done, the slot is free again. */
  lemma SlotIsFreeWhenQuiet(steps: seq<Step>)
    requires IsRun(INIT, steps)
    requires var s := Run(INIT, steps); s.pcs == map[] && s.claims == map[] && s.guards == {}
    ensures !Run(INIT, steps).processing && !Run(INIT, steps).external
  {
    ReachableHolds(steps);
    var s := Run(INIT, steps);
    forall token ensures !Holds(s, token) {
      assert s.carries.None?;
    }
    ProcessingCountsTokens(steps);
  }

  // ---- How long a claim lives ----

  predicate Ends(step: Step, claim: nat) {
    step == Forget(claim) || (step.DropSwap? && step.claim == claim)
  }

  predicate IsEnded(steps: seq<Step>, claim: nat) {
    exists i :: 0 <= i < |steps| && Ends(steps[i], claim)
  }

  lemma EndedOrLater(step: Step, steps: seq<Step>, claim: nat)
    requires |steps| > 0 && steps[0] == step
    ensures IsEnded(steps, claim) <==> Ends(step, claim) || IsEnded(steps[1..], claim)
  {
    if IsEnded(steps[1..], claim) {
      var i :| 0 <= i < |steps[1..]| && Ends(steps[1..][i], claim);
      assert Ends(steps[i + 1], claim);
    }
    if IsEnded(steps, claim) {
      var i :| 0 <= i < |steps| && Ends(steps[i], claim);
      assert i > 0 ==> Ends(steps[1..][i - 1], claim);
    }
  }

  lemma {:induction false} GoneForGood(s: State, steps: seq<Step>, claim: nat)
    requires Inv(s) && IsRun(s, steps) && claim !in s.claims && claim < s.nextId
    ensures claim !in Run(s, steps).claims
    decreases |steps|
  {
    if steps != [] {
      StepKeepsInv(s, steps[0]);
      GoneForGood(Next(s, steps[0]), steps[1..], claim);
    }
  }

  /** Through any steps of any threads, a claim lives until it is dropped or forgotten, and keeps its owner; and its owner
      may forget it exactly when it has started a `run` meanwhile or before. */
  lemma {:induction false} ClaimLivesUntilEnded(s: State, steps: seq<Step>, claim: nat)
    requires Inv(s) && IsRun(s, steps) && claim in s.claims
    ensures claim in Run(s, steps).claims <==> !IsEnded(steps, claim)
    ensures !IsEnded(steps, claim) ==>
              && Run(s, steps).claims[claim].owner == s.claims[claim].owner
              && (Enabled(Run(s, steps), Forget(claim)) <==> s.claims[claim].ran || RunSwap(s.claims[claim].owner) in steps)
    decreases |steps|
  {
    if steps != [] {
      var s' := Next(s, steps[0]);
      StepKeepsInv(s, steps[0]);
      EndedOrLater(steps[0], steps, claim);
      if Ends(steps[0], claim) {
        GoneForGood(s', steps[1..], claim);
      } else {
        ClaimLivesUntilEnded(s', steps[1..], claim);
        assert steps == [steps[0]] + steps[1..];
      }
    }
  }

  // ---- Is the claim's owner alone while it settles? ----

  predicate SwapsTheFlag(step: Step) {
    step.RunSwap? || step.DropSwap?
  }

  /** Through all of `steps` the slot is held by the external flag, on behalf of `claim`. */
  predicate HeldThroughout(s: State, steps: seq<Step>, claim: nat)
    requires IsRun(s, steps)
    decreases |steps|
  {
    && s.external && s.carries == Some(claim)
    && (steps != [] ==> HeldThroughout(Next(s, steps[0]), steps[1..], claim))
  }

  /** A claim names no owner: what ends its hold is any swap of the flag, a `run` by anyone or the late drop
      of any claim, and nothing else. */
  lemma {:induction false} SettlementExclusiveIff(s: State, steps: seq<Step>, claim: nat)
    requires Inv(s) && IsRun(s, steps) && s.external && s.carries == Some(claim)
    ensures HeldThroughout(s, steps, claim) <==> forall i :: 0 <= i < |steps| ==> !SwapsTheFlag(steps[i])
    decreases |steps|
  {
    if steps != [] {
      StepKeepsInv(s, steps[0]);
      if SwapsTheFlag(steps[0]) {
        assert !Next(s, steps[0]).external;
      } else {
        if steps[0].ClaimPublish? {
          assert Holds(s, Unpublished(steps[0].t)) && Holds(s, Carried);
          assert false;
        }
        SettlementExclusiveIff(Next(s, steps[0]), steps[1..], claim);
        assert forall i :: 0 < i < |steps| ==> steps[i] == steps[1..][i - 1];
      }
    }
  }

  /** While the flag carries the claim, nobody else holds the slot in any form. */
  lemma CarriedExcludesAll(s: State)
    requires Inv(s) && s.external
    ensures s.processing && s.guards == {}
    ensures forall t :: t in s.pcs ==> s.pcs[t] == Inheriting
  {
    assert Holds(s, Carried);
    forall t | t in s.pcs ensures s.pcs[t] == Inheriting {
      assert !Holds(s, Unpublished(t)) && !Holds(s, Release(t));
    }
    assert forall g :: g in s.guards <==> Holds(s, Live(g));
  }

  lemma {:induction false} Above(taken: set<Thread>) returns (bound: Thread)
    ensures forall t :: t in taken ==> t < bound
    decreases |taken|
  {
    if taken == {} {
      bound := 0;
    } else {
      var t :| t in taken;
      var rest := Above(taken - {t});
      bound := if t < rest then rest else t + 1;
      forall u | u in taken ensures u < bound {
        assert u == t || u in taken - {t};
      }
    }
  }

  /** Nobody but the owner consumes the claim: no `run` starts, and the claim is not dropped. */
  predicate Disciplined(steps: seq<Step>, claim: nat) {
    forall i :: 0 <= i < |steps| ==> !steps[i].RunSwap? && !(steps[i].DropSwap? && steps[i].claim == claim)
  }

  lemma {:induction false} OnlyClaimIsHeld(s: State, steps: seq<Step>, claim: nat)
    requires Inv(s) && s.external && s.carries == Some(claim) && s.claims.Keys == {claim}
    requires IsRun(s, steps) && Disciplined(steps, claim)
    ensures HeldThroughout(s, steps, claim)
    decreases |steps|
  {
    if steps != [] {
      OnlyClaimStays(s, steps[0], claim);
      StepKeepsInv(s, steps[0]);
      assert forall i :: 0 <= i < |steps| - 1 ==> steps[1..][i] == steps[i + 1];
      OnlyClaimIsHeld(Next(s, steps[0]), steps[1..], claim);
    }
  }

  lemma OnlyClaimStays(s: State, step: Step, claim: nat)
    requires Inv(s) && s.external && s.carries == Some(claim) && s.claims.Keys == {claim} && Enabled(s, step)
    requires !step.RunSwap? && !(step.DropSwap? && step.claim == claim)
    ensures Next(s, step).external && Next(s, step).carries == Some(claim) && Next(s, step).claims.Keys == {claim}
  {
    CarriedExcludesAll(s);
    assert forall c :: c in s.claims.Keys <==> c == claim;
  }

  /** When a settlement is safe from late drops: a claim that is carried stays carried through whatever others
      do, while nobody starts a `run` and its owner keeps it, if and only if it is the only claim alive. */
  lemma SettlementIsSafeIff(s: State, claim: nat)
    requires Inv(s) && s.external && s.carries == Some(claim)
    ensures s.claims.Keys == {claim}
       <==> forall steps :: IsRun(s, steps) && Disciplined(steps, claim) ==> HeldThroughout(s, steps, claim)
  {
    if s.claims.Keys == {claim} {
      forall steps | IsRun(s, steps) && Disciplined(steps, claim) ensures HeldThroughout(s, steps, claim) {
        OnlyClaimIsHeld(s, steps, claim);
      }
    } else {
      assert claim in s.claims.Keys;
      var stale :| stale in s.claims.Keys && stale != claim;
      var t := Above(s.pcs.Keys);
      var steps := [DropSwap(t, stale)];
      assert t !in s.pcs && IsRun(Next(s, steps[0]), steps[1..]);
      assert IsRun(s, steps) && Disciplined(steps, claim);
      assert !HeldThroughout(Next(s, steps[0]), steps[1..], claim);
      assert !HeldThroughout(s, steps, claim);
    }
  }

  /** Nothing in the flags keeps others from starting a `run`: at any moment of the settlement a thread that is
      not the owner can take the slot over and start a cycle beside it. */
  lemma ForeignRunTakesTheSlot(s: State, claim: nat) returns (t: Thread)
    requires Inv(s) && s.external && s.carries == Some(claim)
    ensures t != s.claims[claim].owner && Enabled(s, RunSwap(t))
    ensures var s' := Next(s, RunSwap(t));
            && s'.carries == None && claim in s'.claims && !s'.claims[claim].ran
            && s'.guards == {s.nextId}
  {
    t := Above(s.pcs.Keys + {s.claims[claim].owner});
    assert s.claims[claim].owner in s.pcs.Keys + {s.claims[claim].owner};
    assert t !in s.pcs.Keys;
    CarriedExcludesAll(s);
  }

  /** Late drops do hurt: from any state where the flag carries `claim` while an older claim `stale` is
      still around, dropping the stale one frees the slot, and another thread runs a cycle beside the
      settlement of `claim`'s owner. */
  lemma LateDropReleasesAnotherClaim(s: State, stale: nat, claim: nat, t: Thread, u: Thread)
    requires Inv(s) && s.external && s.carries == Some(claim)
    requires stale in s.claims && stale != claim && t !in s.pcs && u !in s.pcs
    requires s.claims[claim].owner != u
    ensures var steps := [DropSwap(t, stale), DropStore(t), RunSwap(u), RunCas(u)];
            && IsRun(s, steps)
            && claim in Run(s, steps).claims && !Run(s, steps).claims[claim].ran
            && s.nextId in Run(s, steps).guards
  {
    var steps := [DropSwap(t, stale), DropStore(t), RunSwap(u), RunCas(u)];
    assert Holds(s, Carried);
    var s1 := Next(s, steps[0]);
    var s2 := Next(s1, steps[1]);
    var s3 := Next(s2, steps[2]);
    var s4 := Next(s3, steps[3]);
    UnrollRun(s2, steps[2..], s3);
    UnrollRun(s1, steps[1..], s2);
  }

  /** Such a state is reached when a hook's `run` inherits the older claim. */
  lemma StaleClaimIsReachable()
    ensures var steps := [ClaimCas(1), ClaimPublish(1), RunSwap(2), GuardDrop(1), ClaimCas(3), ClaimPublish(3)];
            && IsRun(INIT, steps)
            && Run(INIT, steps).carries == Some(2) && 0 in Run(INIT, steps).claims
            && Run(INIT, steps).claims[2] == Claim(3, false)
  {
    var steps := [ClaimCas(1), ClaimPublish(1), RunSwap(2), GuardDrop(1), ClaimCas(3), ClaimPublish(3)];
    var s1 := Next(INIT, steps[0]);
    var s2 := Next(s1, steps[1]);
    var s3 := Next(s2, steps[2]);
    var s4 := Next(s3, steps[3]);
    var s5 := Next(s4, steps[4]);
    UnrollRun(s4, steps[4..], s5);
    UnrollRun(s3, steps[3..], s4);
    UnrollRun(s2, steps[2..], s3);
    UnrollRun(s1, steps[1..], s2);
  }

  lemma UnrollRun(s: State, steps: seq<Step>, s': State)
    requires steps != [] && Enabled(s, steps[0]) && s' == Next(s, steps[0]) && IsRun(s', steps[1..])
    ensures IsRun(s, steps) && Run(s, steps) == Run(s', steps[1..])
  {
  }

  // ---- The flags as the agent changes them ----

  class AtomicBool {
    var value: bool

    constructor (initial: bool)
      ensures value == initial
    {
      value := initial;
    }

    method Store(v: bool)
      modifies this
      ensures value == v
    {
      value := v;
    }

    method Swap(v: bool) returns (before: bool)
      modifies this
      ensures value == v && before == old(value)
    {
      before := value;
      value := v;
    }

    method CompareExchange(expected: bool, v: bool) returns (ok: bool)
      modifies this
      ensures ok == (old(value) == expected)
      ensures value == if ok then v else old(value)
    {
      ok := value == expected;
      if ok {
        value := v;
      }
    }
  }

  /** The agent's two flags, with the protocol state they stand for. Each method is one atomic operation;
      its result tells the calling thread which way to go on. */
  class MaintenanceAgent {
    const processing: AtomicBool
    const externalClaim: AtomicBool
    ghost var s: State

    ghost predicate Valid()
      reads this, processing, externalClaim
    {
      && processing != externalClaim
      && s.processing == processing.value
      && s.external == externalClaim.value
      && Inv(s)
    }

    constructor ()
      ensures Valid() && s == INIT
      ensures fresh(processing) && fresh(externalClaim)
    {
      processing := new AtomicBool(false);
      externalClaim := new AtomicBool(false);
      s := INIT;
    }

    method TryClaimCas(t: Thread) returns (won: bool)
      requires Valid() && Enabled(s, ClaimCas(t))
      modifies this, processing
      ensures Valid() && s == Next(old(s), ClaimCas(t))
      ensures won == (s != old(s))
    {
      StepKeepsInv(s, ClaimCas(t));
      won := processing.CompareExchange(false, true);
      s := Next(s, ClaimCas(t));
    }

    method PublishClaim(t: Thread) returns (ghost claim: nat)
      requires Valid() && Enabled(s, ClaimPublish(t))
      modifies this, externalClaim
      ensures Valid() && s == Next(old(s), ClaimPublish(t))
      ensures claim in s.claims && s.carries == Some(claim)
    {
      StepKeepsInv(s, ClaimPublish(t));
      claim := s.nextId;
      externalClaim.Store(true);
      s := Next(s, ClaimPublish(t));
    }

    method DropClaimSwap(t: Thread, ghost claim: nat) returns (mustRelease: bool)
      requires Valid() && Enabled(s, DropSwap(t, claim))
      modifies this, externalClaim
      ensures Valid() && s == Next(old(s), DropSwap(t, claim))
      ensures mustRelease == Enabled(s, DropStore(t))
    {
      StepKeepsInv(s, DropSwap(t, claim));
      mustRelease := externalClaim.Swap(false);
      s := Next(s, DropSwap(t, claim));
    }

    method DropClaimStore(t: Thread)
      requires Valid() && Enabled(s, DropStore(t))
      modifies this, processing
      ensures Valid() && s == Next(old(s), DropStore(t))
    {
      StepKeepsInv(s, DropStore(t));
      processing.Store(false);
      s := Next(s, DropStore(t));
    }

    method RunInherit(t: Thread) returns (inherited: bool)
      requires Valid() && Enabled(s, RunSwap(t))
      modifies this, externalClaim
      ensures Valid() && s == Next(old(s), RunSwap(t))
      ensures inherited == !Enabled(s, RunCas(t))
      ensures inherited ==> |s.guards| > 0
    {
      StepKeepsInv(s, RunSwap(t));
      inherited := externalClaim.Swap(false);
      ghost var guard := s.nextId;
      s := Next(s, RunSwap(t));
      assert inherited ==> guard in s.guards;
    }

    method RunAcquire(t: Thread) returns (acquired: bool)
      requires Valid() && Enabled(s, RunCas(t))
      modifies this, processing
      ensures Valid() && s == Next(old(s), RunCas(t))
      ensures acquired == !old(s).processing
      ensures acquired ==> |s.guards| > 0
    {
      StepKeepsInv(s, RunCas(t));
      acquired := processing.CompareExchange(false, true);
      ghost var guard := s.nextId;
      s := Next(s, RunCas(t));
      assert acquired ==> guard in s.guards;
    }

    method DropGuard(ghost guard: nat)
      requires Valid() && Enabled(s, GuardDrop(guard))
      modifies this, processing
      ensures Valid() && s == Next(old(s), GuardDrop(guard))
      ensures !processing.value && s.guards == {}
    {
      StepKeepsInv(s, GuardDrop(guard));
      forall h | h in s.guards ensures h == guard {
        assert Holds(s, Live(h)) && Holds(s, Live(guard));
      }
      processing.Store(false);
      s := Next(s, GuardDrop(guard));
    }
  }
}
