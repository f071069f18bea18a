/**
 * When exactly each transition of the probe's record succeeds, and what runs of them keep: how long
 * a proof may take, that requests never come twice, and that a resumed restore cannot verify.
 */
module ProbeTransitions {
  import opened Basics
  import opened ProbeRecord
  import opened ProbeRuns

  /* ---------- arming ---------- */

  /** An operation can be armed exactly for two distinct targets that end at the intended one, in fresh windows. */
  lemma ArmExactlyWhen(boot: nat, request: nat, requestDeadline: int, operationDeadline: int, intended: int,
                       target1: int, target2: int, now: int)
    ensures Arm(boot, request, requestDeadline, operationDeadline, intended, target1, target2, now).Some? <==>
              && TargetOk(intended) && TargetOk(target1) && target1 != intended && target2 == intended
              && 0 <= now < requestDeadline <= now + 60_000 && requestDeadline < operationDeadline <= now + 900_000
              && operationDeadline <= MAX_SAFE && now + 60_000 <= MAX_SAFE
  {
  }

  /* ---------- a proof ---------- */

  /** The proof the phase waits for: its purpose, its target, and a new physical or the dispatched command sequence. */
  predicate RightProof(r: Record, p: Proof)
    requires Active(r.phase)
  {
    && p.purpose == PurposeOf(r.phase) && p.target == TargetFor(r, p.purpose)
    && if Physical(p.purpose) then Uint16(p.sequence) && p.sequence !in r.used
       else r.expected.Some? && r.expected.value.sequence == Some(p.sequence)
  }

  /** A sequence for the next command. */
  predicate FreshFor(r: Record, next: Option<int>, p: Proof) {
    next.Some? && Generated(next.value) && next.value !in r.used && next.value != p.sequence
  }

  /** What the step after the proof needs: a generation, a window and, where a command follows, its sequence. */
  predicate MayGoOn(r: Record, p: Proof, now: int, next: Option<int>)
    requires Active(r.phase)
  {
    match r.phase
    case AwaitingTarget1 => r.generation < MAX_GENERATION && now + PHYSICAL_WINDOW <= MAX_SAFE
    case AwaitingTarget2 => r.generation < MAX_GENERATION && now + DIRECT_WINDOW <= MAX_SAFE && FreshFor(r, next, p)
    case AwaitingNoop => r.generation < MAX_GENERATION && now + DIRECT_WINDOW <= MAX_SAFE && FreshFor(r, next, p)
    case AwaitingChallenge =>
      r.generation < MAX_GENERATION && now + DIRECT_WINDOW <= r.operationDeadline && FreshFor(r, next, p)
    case AwaitingRestore => r.remediationAfterRestore || (MayEnd(r, now) && Purposes(r.proofs) != COMPLETE)
  }

  /** A result can be built: a generation, and settling ends within the operation. */
  predicate MayEnd(r: Record, now: int) {
    && r.generation < MAX_GENERATION && now + SETTLING_WINDOW < r.operationDeadline
    && r.operationDeadline + SETTLING_WINDOW <= MAX_SAFE
  }

  lemma PrefixIn<T>(a: seq<T>, b: seq<T>, x: T)
    requires a <= b && x in a
    ensures x in b
  {
  }

  /** One more proof in order, and more sequences, keep the collections sound. */
  lemma CollectionsAfter(r: Record, p: Proof, r': Record)
    requires CollectionsOk(r) && SameOperation(r, r') && r'.consumed == r.consumed
    requires r'.proofs == r.proofs + [p] && ProofOk(p) && p.target == TargetFor(r, p.purpose) && |r.proofs| < MAX_PROOFS
    requires r.proofs != [] ==> Order(r.proofs[|r.proofs| - 1].purpose) < Order(p.purpose)
    requires r.used <= r'.used && p.sequence in r'.used && NoRepeats(r'.used) && |r'.used| <= MAX_USED
    requires forall n :: n in r'.used ==> Uint16(n)
    requires r'.expected.Some? ==>
               && TargetOk(r'.expected.value.target) && ExpectedOk(r'.expected.value)
               && (r'.expected.value.sequence.Some? ==> r'.expected.value.sequence.value in r'.used)
    ensures CollectionsOk(r')
  {
    hide ProofOk, ExpectedOk, NoRepeats;
    forall i: nat | i < |r'.proofs| ensures ProofStored(r', i) {
      if i < |r.proofs| {
        assert ProofStored(r, i);
        PrefixIn(r.used, r'.used, r.proofs[i].sequence);
      }
    }
  }

  lemma OneMore(used: seq<int>, n: int)
    requires NoRepeats(used) && n !in used && Uint16(n) && forall u :: u in used ==> Uint16(u)
    ensures NoRepeats(used + [n]) && forall u :: u in used + [n] ==> Uint16(u)
  {
  }

  /** The purposes of the stored proofs and one more. */
  lemma PurposesOneMore(proofs: seq<Proof>, p: Proof)
    ensures Purposes(proofs + [p]) == Purposes(proofs) + [p.purpose]
  {
  }

  /** The last stored proof comes before what the phase waits for. */
  lemma InOrder(r: Record)
    requires Valid(r) && Active(r.phase) && Purposes(r.proofs) != COMPLETE
    ensures |r.proofs| < MAX_PROOFS
    ensures r.proofs != [] ==> Order(r.proofs[|r.proofs| - 1].purpose) < Order(PurposeOf(r.phase))
  {
    hide ScalarsOk, CollectionsOk;
    PurposesLength(r.proofs);
    if r.proofs != [] {
      assert Purposes(r.proofs)[|r.proofs| - 1] == r.proofs[|r.proofs| - 1].purpose;
    }
  }

  /** What the collections say before a proof is added: bounds, and the new sequence. */
  lemma Counts(r: Record, p: Proof)
    requires Valid(r) && Active(r.phase) && RightProof(r, p)
    ensures TargetOk(r.target1) && TargetOk(r.target2) && ProofOk(p) && p.sequence in UsedAfter(r, p)
    ensures NoRepeats(UsedAfter(r, p)) && forall u :: u in UsedAfter(r, p) ==> Uint16(u)
  {
    if Physical(p.purpose) {
      OneMore(r.used, p.sequence);
    }
  }

  lemma AcceptableExactlyWhen(r: Record, p: Proof, now: int)
    requires Valid(r) && Active(r.phase)
    ensures Acceptable(r, p, now) <==> RightProof(r, p) && 0 <= now < r.proofDeadline
  {
    hide NoRepeats, ProofStored, HistoryOk;
    if RightProof(r, p) {
      Counts(r, p);
    }
  }

  lemma Target1Accepted(r: Record, p: Proof, now: int, next: Option<int>)
    requires Valid(r) && r.phase == AwaitingTarget1 && RightProof(r, p) && 0 <= now < r.proofDeadline
    requires MayGoOn(r, p, now, next)
    ensures AcceptProof(r, p, now, next).Some?
  {
    hide CollectionsOk, Acceptable;
    var r' := r.(phase := AwaitingTarget2, proofs := r.proofs + [p], used := UsedAfter(r, p),
                 proofDeadline := Min(now + PHYSICAL_WINDOW, r.operationDeadline), generation := r.generation + 1,
                 expected := Some(Expected(PhysicalTarget2, None, r.target2)));
    AcceptableExactlyWhen(r, p, now);
    Counts(r, p);
    CollectionsAfter(r, p, r');
    PurposesOneMore(r.proofs, p);
    assert Valid(r');
  }

  /** The record after a proof that is followed by a command. */
  function Dispatched(r: Record, p: Proof, n: int, phase: Phase, purpose: Purpose, target: int, deadline: int): Record {
    r.(phase := phase, proofs := r.proofs + [p], used := UsedAfter(r, p) + [n], proofDeadline := deadline,
       generation := r.generation + 1, expected := Some(Expected(purpose, Some(n), target)),
       restoreRequired := purpose == Challenge || purpose == Restore,
       attempts := if purpose == Restore then r.attempts + 1 else r.attempts)
  }

  lemma TargetsOk(r: Record)
    requires Valid(r)
    ensures CollectionsOk(r) && |r.proofs| <= MAX_PROOFS
    ensures forall p: Purpose :: TargetOk(TargetFor(r, p))
    ensures forall n :: Generated(n) ==> Uint16(n)
  {
  }

  lemma DispatchedCollections(r: Record, p: Proof, n: int, phase: Phase, purpose: Purpose, deadline: int)
    requires Valid(r) && Active(r.phase) && RightProof(r, p) && FreshFor(r, Some(n), p)
    requires Purposes(r.proofs) != COMPLETE && !Physical(purpose) && |UsedAfter(r, p)| < MAX_USED
    ensures CollectionsOk(Dispatched(r, p, n, phase, purpose, TargetFor(r, purpose), deadline))
  {
    hide Valid, CollectionsOk, TargetFor, Order, ProofOk, NoRepeats, TargetOk, Uint16;
    Counts(r, p);
    InOrder(r);
    TargetsOk(r);
    OneMore(UsedAfter(r, p), n);
    CollectionsAfter(r, p, Dispatched(r, p, n, phase, purpose, TargetFor(r, purpose), deadline));
  }

  lemma Target2Accepted(r: Record, p: Proof, now: int, next: Option<int>)
    requires Valid(r) && r.phase == AwaitingTarget2 && RightProof(r, p) && 0 <= now < r.proofDeadline
    requires MayGoOn(r, p, now, next)
    ensures AcceptProof(r, p, now, next).Some?
  {
    hide CollectionsOk, Acceptable;
    var deadline := Min(now + DIRECT_WINDOW, r.operationDeadline);
    AcceptableExactlyWhen(r, p, now);
    DispatchedCollections(r, p, next.value, AwaitingNoop, Noop, deadline);
    PurposesOneMore(r.proofs, p);
    assert Valid(Dispatched(r, p, next.value, AwaitingNoop, Noop, r.intended, deadline));
  }

  lemma NoopAccepted(r: Record, p: Proof, now: int, next: Option<int>)
    requires Valid(r) && r.phase == AwaitingNoop && RightProof(r, p) && 0 <= now < r.proofDeadline
    requires MayGoOn(r, p, now, next)
    ensures AcceptProof(r, p, now, next).Some?
  {
    hide CollectionsOk, Acceptable;
    var deadline := Min(now + DIRECT_WINDOW, r.operationDeadline);
    AcceptableExactlyWhen(r, p, now);
    DispatchedCollections(r, p, next.value, AwaitingChallenge, Challenge, deadline);
    PurposesOneMore(r.proofs, p);
    assert Valid(Dispatched(r, p, next.value, AwaitingChallenge, Challenge, r.challenge, deadline));
  }

  lemma ChallengeAccepted(r: Record, p: Proof, now: int, next: Option<int>)
    requires Valid(r) && r.phase == AwaitingChallenge && RightProof(r, p) && 0 <= now < r.proofDeadline
    requires MayGoOn(r, p, now, next)
    ensures AcceptProof(r, p, now, next).Some?
  {
    hide CollectionsOk, Acceptable;
    AcceptableExactlyWhen(r, p, now);
    DispatchedCollections(r, p, next.value, AwaitingRestore, Restore, now + DIRECT_WINDOW);
    PurposesOneMore(r.proofs, p);
    assert Valid(Dispatched(r, p, next.value, AwaitingRestore, Restore, r.intended, now + DIRECT_WINDOW));
  }

  /** The record a result builds. */
  function Ended(r: Record, outcome: Outcome, proofs: seq<Proof>, failure: Option<string>, now: int): Record {
    r.(phase := ResultPendingAck, generation := r.generation + 1, proofDeadline := 0, restoreRequired := false,
       remediationAfterRestore := false, proofs := proofs, expected := None, outcome := Some(outcome),
       failure := failure, resultId := Some(ResultId(r.intended, r.challenge, proofs, Some(outcome), failure)),
       resultNotBefore := now + SETTLING_WINDOW, cleanupAllowed := false)
  }

  lemma RestoreAccepted(r: Record, p: Proof, now: int, next: Option<int>)
    requires Valid(r) && r.phase == AwaitingRestore && RightProof(r, p) && 0 <= now < r.proofDeadline
    requires MayGoOn(r, p, now, next)
    ensures AcceptProof(r, p, now, next).Some?
  {
    hide CollectionsOk, Acceptable;
    AcceptableExactlyWhen(r, p, now);
    if r.remediationAfterRestore {
      RemediationAlwaysLatches(r, if r.failure.Some? then r.failure.value else "restart_recovery", false);
    } else {
      var r' := Ended(r, if r.failure.Some? then FailedRestored else Verified, r.proofs + [p], r.failure, now);
      Counts(r, p);
      InOrder(r);
      SameUsed(r);
      CollectionsAfter(r, p, r');
      PurposesOneMore(r.proofs, p);
      assert Valid(r');
    }
  }

  lemma SameUsed(r: Record)
    requires CollectionsOk(r)
    ensures NoRepeats(r.used) && |r.used| <= MAX_USED && forall n :: n in r.used ==> Uint16(n)
  {
  }

  /** A restore proof after a result would be a sixth. */
  lemma RestoreRefused(r: Record, p: Proof, now: int, next: Option<int>)
    requires Valid(r) && r.phase == AwaitingRestore && Purposes(r.proofs) == COMPLETE && !r.remediationAfterRestore
    ensures AcceptProof(r, p, now, next) == None
  {
    PurposesLength(r.proofs);
  }

  /**
   * A proof is accepted exactly when it is the one the phase waits for, before the deadline, and the record
   * can go on.  In particular a restore begun after a result can no longer be proved, unless it ends in
   * remediation.
   */
  lemma ProofAcceptedExactlyWhen(r: Record, p: Proof, now: int, next: Option<int>)
    requires Valid(r)
    ensures AcceptProof(r, p, now, next).Some? <==>
              Active(r.phase) && RightProof(r, p) && 0 <= now < r.proofDeadline && MayGoOn(r, p, now, next)
  {
    hide ScalarsOk, CollectionsOk, Valid, Acceptable;
    if Active(r.phase) {
      AcceptableExactlyWhen(r, p, now);
      if Acceptable(r, p, now) {
        if MayGoOn(r, p, now, next) {
          match r.phase
          case AwaitingTarget1 => Target1Accepted(r, p, now, next);
          case AwaitingTarget2 => Target2Accepted(r, p, now, next);
          case AwaitingNoop => NoopAccepted(r, p, now, next);
          case AwaitingChallenge => ChallengeAccepted(r, p, now, next);
          case AwaitingRestore => RestoreAccepted(r, p, now, next);
        } else {
          ProofNeedsRoom(r, p, now, next);
        }
      }
    } else {
      NothingExpected(r, p, now, next);
    }
  }

  lemma NothingExpected(r: Record, p: Proof, now: int, next: Option<int>)
    requires Valid(r) && !Active(r.phase)
    ensures AcceptProof(r, p, now, next) == None
  {
  }

  lemma ProofNeedsRoom(r: Record, p: Proof, now: int, next: Option<int>)
    requires Valid(r) && Active(r.phase) && Acceptable(r, p, now) && RightProof(r, p)
    ensures AcceptProof(r, p, now, next).Some? ==> MayGoOn(r, p, now, next)
  {
    hide CollectionsOk;
    if r.phase == AwaitingRestore && Purposes(r.proofs) == COMPLETE && !r.remediationAfterRestore {
      RestoreRefused(r, p, now, next);
    }
  }

  /* ---------- the other transitions ---------- */

  /** A safe failure is available exactly before the challenge, on the bound boot, with an allowed code. */
  lemma FailSafeExactlyWhen(r: Record, code: string, now: int, boot: nat)
    requires Valid(r)
    ensures FailSafe(r, code, now, boot).Some? <==>
              && (r.phase == AwaitingTarget1 || r.phase == AwaitingTarget2 || r.phase == AwaitingNoop)
              && boot == r.boot && code in FAILURE_CODES && 0 <= now && MayEnd(r, now)
  {
    hide CollectionsOk;
    if Active(r.phase) && !r.restoreRequired && code in FAILURE_CODES && 0 <= now && MayEnd(r, now) {
      var r' := Ended(r, FailedSafe, r.proofs, Some(code), now);
      SameConsumed(r);
      SameCollections(r, r');
      assert Valid(r');
    }
  }

  /** Collections that stay, with nothing expected or the same. */
  lemma SameCollections(r: Record, r': Record)
    requires CollectionsOk(r) && SameOperation(r, r') && r'.proofs == r.proofs && r'.used == r.used
    requires r'.expected == None || r'.expected == r.expected
    requires 1 <= |r'.consumed| <= MAX_CONSUMED && NoRepeats(r'.consumed)
    ensures CollectionsOk(r')
  {
    forall i: nat | i < |r'.proofs| ensures ProofStored(r', i) {
      assert ProofStored(r, i);
    }
  }

  /**
   * After a restart a restore can be resumed exactly while one is under way and a full window is left.  It
   * keeps its sequence and spends no attempt, but from then on has a failure code.
   */
  lemma ReuseExactlyWhen(r: Record, boot: nat, now: int)
    requires Valid(r)
    ensures ReuseRestore(r, boot, now).Some? <==>
              && r.phase == AwaitingRestore && r.generation < MAX_GENERATION
              && 0 <= now && now + DIRECT_WINDOW <= r.operationDeadline
    ensures ReuseRestore(r, boot, now).Some? ==>
              var r' := ReuseRestore(r, boot, now).value;
              && r'.boot == boot && r'.phase == AwaitingRestore && r'.generation == r.generation + 1
              && r'.expected == r.expected && r'.used == r.used && r'.proofs == r.proofs && r'.attempts == r.attempts
              && r'.consumed == r.consumed && r'.proofDeadline == now + DIRECT_WINDOW
              && r'.remediationAfterRestore == r.remediationAfterRestore
              && r'.failure == Some(if r.failure.Some? then r.failure.value else "restart_recovery")
  {
    hide CollectionsOk;
    if r.phase == AwaitingRestore && r.generation < MAX_GENERATION
       && 0 <= now && now + DIRECT_WINDOW <= r.operationDeadline {
      var r' := r.(boot := boot, proofDeadline := now + DIRECT_WINDOW, generation := r.generation + 1,
                   failure := Some(if r.failure.Some? then r.failure.value else "restart_recovery"));
      SameConsumed(r);
      SameCollections(r, r');
      assert Valid(r');
    }
  }

  lemma SameConsumed(r: Record)
    requires CollectionsOk(r)
    ensures 1 <= |r.consumed| <= MAX_CONSUMED && NoRepeats(r.consumed)
  {
  }

  /** A request to bind: fresh, later than the last, and on the bound boot new and within its capacity. */
  predicate RightRequest(r: Record, boot: nat, request: nat, requestDeadline: int, now: int) {
    && 0 <= now < requestDeadline <= now + 60_000 && requestDeadline <= MAX_SAFE
    && requestDeadline > r.lastRequestDeadline
    && (boot == r.boot ==> request !in r.consumed && |r.consumed| < MAX_CONSUMED)
  }

  /** The command a resumed no-op sends again needs a new sequence with the later ones' slots left. */
  predicate MayResend(r: Record, next: Option<int>) {
    && next.Some? && Generated(next.value) && next.value !in r.used
    && |r.used| + 1 + POST_NOOP_RESERVE <= MAX_USED
  }

  function WindowOf(p: Phase): int {
    if p == AwaitingTarget1 || p == AwaitingTarget2 then PHYSICAL_WINDOW else DIRECT_WINDOW
  }

  /** The record a rebinding builds. */
  function Rebinding(r: Record, boot: nat, request: nat, requestDeadline: int, now: int, next: Option<int>): Record {
    var again := r.phase == AwaitingNoop && next.Some?;
    r.(boot := boot, consumed := if boot == r.boot then r.consumed + [request] else [request],
       lastRequestDeadline := requestDeadline, generation := r.generation + 1,
       used := if again then r.used + [next.value] else r.used,
       expected := if again then Some(Expected(Noop, next, r.intended)) else r.expected,
       proofDeadline := Min(now + WindowOf(r.phase), r.operationDeadline))
  }

  lemma BoundCollections(r: Record, boot: nat, request: nat, requestDeadline: int, now: int, next: Option<int>)
    requires Valid(r) && Active(r.phase) && RightRequest(r, boot, request, requestDeadline, now)
    requires r.phase == AwaitingNoop ==> MayResend(r, next)
    ensures CollectionsOk(Rebinding(r, boot, request, requestDeadline, now, next))
  {
    hide PhaseOk;
    var r' := Rebinding(r, boot, request, requestDeadline, now, next);
    forall i: nat | i < |r'.proofs| ensures ProofStored(r', i) {
      assert ProofStored(r, i);
    }
    assert NoRepeats(r'.consumed);
    if r.phase == AwaitingNoop {
      OneMore(r.used, next.value);
    }
  }

  /** An unfinished operation can be bound to a request exactly before the challenge, by a right one, in time. */
  lemma ResumeExactlyWhen(r: Record, boot: nat, request: nat, requestDeadline: int, now: int, next: Option<int>)
    requires Valid(r)
    ensures Resume(r, boot, request, requestDeadline, now, next).Some? <==>
              && (r.phase == AwaitingTarget1 || r.phase == AwaitingTarget2 || r.phase == AwaitingNoop)
              && r.generation < MAX_GENERATION && now < r.operationDeadline && now + WindowOf(r.phase) <= MAX_SAFE
              && RightRequest(r, boot, request, requestDeadline, now)
              && (r.phase == AwaitingNoop ==> MayResend(r, next))
    ensures Resume(r, boot, request, requestDeadline, now, next).Some? ==>
              Resume(r, boot, request, requestDeadline, now, next).value
              == Rebinding(r, boot, request, requestDeadline, now, next)
  {
    hide CollectionsOk;
    if r.phase == AwaitingTarget1 || r.phase == AwaitingTarget2 || r.phase == AwaitingNoop {
      if r.generation < MAX_GENERATION && now < r.operationDeadline && now + WindowOf(r.phase) <= MAX_SAFE
         && RightRequest(r, boot, request, requestDeadline, now) && (r.phase == AwaitingNoop ==> MayResend(r, next)) {
        BoundCollections(r, boot, request, requestDeadline, now, next);
        assert Valid(Rebinding(r, boot, request, requestDeadline, now, next));
      }
    }
  }

  /* ---------- runs: a resumed restore ---------- */

  /** Event `k` of the run yields a record. */
  predicate AcceptedAt(armed: Record, events: seq<Event>, k: nat)
    requires k < |events|
  {
    Next(Run(armed, events[..k]).record, events[k]).Some?
  }

  /** Event `k` of the run begins a restore attempt. */
  predicate BeginsAttempt(armed: Record, events: seq<Event>, k: nat)
    requires k < |events|
  {
    Run(armed, events[..k + 1]).record.attempts > Run(armed, events[..k]).record.attempts
  }

  lemma RunNext(armed: Record, events: seq<Event>, k: nat)
    requires k < |events|
    ensures Run(armed, events[..k + 1]) == Step(Run(armed, events[..k]), events[k])
  {
    assert events[..k + 1][..k] == events[..k];
  }

  /** Only a new attempt clears a failure code. */
  lemma FailureStays(r: Record, e: Event)
    requires Next(r, e).Some? && (r.failure.Some? || e.Reuse?) && Next(r, e).value.attempts <= r.attempts
    ensures Next(r, e).value.failure.Some?
  {
    hide Valid, NewSequence, BoundedDeadline, FullDeadline, Acceptable, BindingOk, CheckedAdd;
  }

  lemma {:induction false} ReusedHasFailed(armed: Record, events: seq<Event>, k: nat, n: nat)
    requires k < n <= |events| && events[k].Reuse? && AcceptedAt(armed, events, k)
    requires forall j: nat :: k < j < n ==> !BeginsAttempt(armed, events, j)
    ensures Run(armed, events[..n]).record.failure.Some?
    decreases n
  {
    hide Next, Run;
    var r, e := Run(armed, events[..n - 1]).record, events[n - 1];
    RunNext(armed, events, n - 1);
    if n - 1 > k {
      ReusedHasFailed(armed, events, k, n - 1);
      assert !BeginsAttempt(armed, events, n - 1);
    } else {
      ReuseKeepsAttempts(r, e);
    }
    if Next(r, e).Some? {
      FailureStays(r, e);
    }
  }

  lemma ReuseKeepsAttempts(r: Record, e: Event)
    requires e.Reuse? && Next(r, e).Some?
    ensures Next(r, e).value.attempts == r.attempts
  {
    hide Valid, FullDeadline;
  }

  /** A run ends verified only if since its last resumed restore a new restore attempt was begun. */
  lemma VerifiedIsNotResumed(armed: Record, events: seq<Event>, k: nat)
    requires Armed(armed) && Run(armed, events).record.outcome == Some(Verified)
    requires k < |events| && events[k].Reuse? && AcceptedAt(armed, events, k)
    ensures exists j: nat :: k < j < |events| && BeginsAttempt(armed, events, j)
  {
    hide Next, Run, Armed, FreshSequences;
    RunIsSound(armed, events);
    if forall j: nat :: k < j < |events| ==> !BeginsAttempt(armed, events, j) {
      ReusedHasFailed(armed, events, k, |events|);
      assert events[..|events|] == events;
      VerifiedHasNotFailed(Run(armed, events).record);
    }
  }

  lemma VerifiedHasNotFailed(r: Record)
    requires Valid(r)
    ensures r.outcome == Some(Verified) ==> r.failure == None
  {
  }

  /* ---------- runs: how long a proof may take ---------- */

  /** A record that one arm produced at this time. */
  ghost predicate ArmedAt(r: Record, now: int) {
    exists boot, request, requestDeadline, operationDeadline, intended, target1, target2 ::
      Arm(boot, request, requestDeadline, operationDeadline, intended, target1, target2, now) == Some(r)
  }

  /** The time an event that asks for a proof, anew or again, carries. */
  predicate Asks(e: Event) {
    e.Prove? || e.Begin? || e.Reuse? || e.Rebind?
  }

  /** When the expected proof was asked for last. */
  function AskedAt(armedAt: int, armed: Record, events: seq<Event>): int {
    if events == [] then armedAt
    else
      var e, front := events[|events| - 1], events[..|events| - 1];
      if Asks(e) && AcceptedAt(armed, events, |front|) then e.now else AskedAt(armedAt, armed, front)
  }

  /** A physical proof may take a minute, a command's ten seconds, both within the operation; a restore has them all. */
  predicate InWindow(r: Record, asked: int) {
    Active(r.phase) ==>
      && r.proofDeadline == Min(asked + WindowOf(r.phase), r.operationDeadline)
      && (r.phase == AwaitingRestore ==> asked + WindowOf(r.phase) <= r.operationDeadline)
  }

  lemma NextInWindow(r: Record, e: Event, asked: int)
    requires Valid(r) && InWindow(r, asked) && Next(r, e).Some?
    ensures InWindow(Next(r, e).value, if Asks(e) then e.now else asked)
  {
    hide Valid, NewSequence, Acceptable, BindingOk, Intent;
    if Active(r.phase) {
      RestorePhases(r);
    }
  }

  /** What tells the phases that may be resumed from those that may not. */
  lemma RestorePhases(r: Record)
    requires Valid(r) && Active(r.phase)
    ensures r.restoreRequired <==> r.phase == AwaitingChallenge || r.phase == AwaitingRestore
  {
  }

  lemma {:induction false} RunInWindow(armed: Record, armedAt: int, events: seq<Event>)
    requires ArmedAt(armed, armedAt)
    ensures InWindow(Run(armed, events).record, AskedAt(armedAt, armed, events))
  {
    hide Next, InWindow, ArmedAt, Armed, Valid, FreshSequences;
    ArmedAtIsArmed(armed, armedAt);
    if events == [] {
      ArmedInWindow(armed, armedAt);
    } else {
      var front := events[..|events| - 1];
      RunInWindow(armed, armedAt, front);
      RunIsSound(armed, front);
      if Next(Run(armed, front).record, events[|front|]).Some? {
        NextInWindow(Run(armed, front).record, events[|front|], AskedAt(armedAt, armed, front));
      }
    }
  }

  lemma ArmedInWindow(armed: Record, armedAt: int)
    requires ArmedAt(armed, armedAt)
    ensures InWindow(armed, armedAt)
  {
  }

  /** Every accepted proof came within its window since it was asked for last, and within the operation. */
  lemma ProofsAreTimely(armed: Record, armedAt: int, events: seq<Event>, k: nat)
    requires ArmedAt(armed, armedAt) && k < |events| && events[k].Prove? && AcceptedAt(armed, events, k)
    ensures var r := Run(armed, events[..k]).record;
            && Active(r.phase) && 0 <= events[k].now < AskedAt(armedAt, armed, events[..k]) + WindowOf(r.phase)
            && events[k].now < armed.operationDeadline
  {
    hide Run, AskedAt, Armed, ArmedAt, Valid, FreshSequences, RightProof, MayGoOn;
    RunInWindow(armed, armedAt, events[..k]);
    ArmedAtIsArmed(armed, armedAt);
    RunIsSound(armed, events[..k]);
    ProofAcceptedExactlyWhen(Run(armed, events[..k]).record, events[k].proof, events[k].now, events[k].next);
  }

  lemma ArmedAtIsArmed(armed: Record, armedAt: int)
    requires ArmedAt(armed, armedAt)
    ensures Armed(armed)
  {
  }

  /* ---------- runs: requests ---------- */

  predicate Requests(e: Event) {
    e.Rebind? || e.Ack?
  }

  /** An accepted request is later than the last and becomes it; nothing else touches it. */
  lemma NextRequest(r: Record, e: Event)
    requires Next(r, e).Some?
    ensures var r' := Next(r, e).value;
            if Requests(e) then
              && r.lastRequestDeadline < e.requestDeadline == r'.lastRequestDeadline
              && r'.boot == e.boot && e.request in r'.consumed
              && (e.boot == r.boot ==> e.request !in r.consumed && r.consumed <= r'.consumed)
            else r'.lastRequestDeadline == r.lastRequestDeadline && r'.consumed == r.consumed
  {
    hide Valid, NewSequence, BoundedDeadline, FullDeadline, Acceptable, CheckedAdd, FreshDeadline;
  }

  lemma {:induction false} LastRequestGrows(armed: Record, events: seq<Event>, i: nat, n: nat)
    requires i <= n <= |events|
    ensures Run(armed, events[..i]).record.lastRequestDeadline <= Run(armed, events[..n]).record.lastRequestDeadline
    decreases n
  {
    hide Next, Run;
    if i < n {
      LastRequestGrows(armed, events, i, n - 1);
      RunNext(armed, events, n - 1);
      if Next(Run(armed, events[..n - 1]).record, events[n - 1]).Some? {
        NextRequest(Run(armed, events[..n - 1]).record, events[n - 1]);
      }
    }
  }

  /** The deadlines of accepted requests climb, so that no request is ever accepted twice. */
  lemma RequestDeadlinesClimb(armed: Record, events: seq<Event>, i: nat, j: nat)
    requires i < j < |events| && Requests(events[i]) && Requests(events[j])
    requires AcceptedAt(armed, events, i) && AcceptedAt(armed, events, j)
    ensures events[i].requestDeadline < events[j].requestDeadline
  {
    hide Next, Run;
    RunNext(armed, events, i);
    NextRequest(Run(armed, events[..i]).record, events[i]);
    LastRequestGrows(armed, events, i + 1, j);
    NextRequest(Run(armed, events[..j]).record, events[j]);
  }

  /** From position `i` up to `n` the record is bound to one boot. */
  predicate OneBoot(armed: Record, events: seq<Event>, i: nat, n: nat, boot: nat)
    requires i <= n <= |events|
  {
    forall k: nat :: i <= k <= n ==> Run(armed, events[..k]).record.boot == boot
  }

  lemma {:induction false} ConsumedStays(armed: Record, events: seq<Event>, i: nat, n: nat, boot: nat, request: nat)
    requires i <= n <= |events| && OneBoot(armed, events, i, n, boot)
    requires request in Run(armed, events[..i]).record.consumed
    ensures request in Run(armed, events[..n]).record.consumed
    decreases n
  {
    hide Next, Run;
    if i < n {
      ConsumedStays(armed, events, i, n - 1, boot, request);
      RunNext(armed, events, n - 1);
      var r, e := Run(armed, events[..n - 1]).record, events[n - 1];
      if Next(r, e).Some? {
        NextRequest(r, e);
        assert r.boot == boot && Next(r, e).value.boot == boot;
      }
    }
  }

  /** While the record stays bound to one boot, no request ID is accepted twice. */
  lemma RequestIdsAreFresh(armed: Record, events: seq<Event>, i: nat, j: nat)
    requires i < j < |events| && Requests(events[i]) && Requests(events[j])
    requires AcceptedAt(armed, events, i) && AcceptedAt(armed, events, j)
    requires OneBoot(armed, events, i + 1, j, events[j].boot)
    ensures events[i].request != events[j].request
  {
    hide Next, Run;
    RunNext(armed, events, i);
    NextRequest(Run(armed, events[..i]).record, events[i]);
    ConsumedStays(armed, events, i + 1, j, events[j].boot, events[i].request);
    NextRequest(Run(armed, events[..j]).record, events[j]);
  }
}
