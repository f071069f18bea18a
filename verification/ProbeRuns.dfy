/**
 * Runs of one probe operation: the chain of records from one arm, and what holds of every record
 * in it beyond what the validator checks.
 */
module ProbeRuns {
  import opened Basics
  import opened ProbeRecord

  datatype Event =
    | Prove(proof: Proof, now: int, next: Option<int>)
    | Begin(sequence: Option<int>, failure: Option<string>, now: int, intent: Option<bool>)
    | Reuse(boot: nat, now: int)
    | Fail(code: string, now: int, boot: nat)
    | Remediate(code: string, restoreRequired: bool)
    | Rebind(boot: nat, request: nat, requestDeadline: int, now: int, next: Option<int>)
    | Ack(boot: nat, request: nat, requestDeadline: int, result: ResultId, now: int)

  /** The record an event yields, or None where the code raises. */
  function Next(r: Record, e: Event): Option<Record> {
    match e
    case Prove(proof, now, next) => AcceptProof(r, proof, now, next)
    case Begin(sequence, failure, now, intent) => BeginRestore(r, sequence, failure, now, intent)
    case Reuse(boot, now) => ReuseRestore(r, boot, now)
    case Fail(code, now, boot) => FailSafe(r, code, now, boot)
    case Remediate(code, restoreRequired) => ToRemediation(r, code, restoreRequired)
    case Rebind(boot, request, deadline, now, next) => Resume(r, boot, request, deadline, now, next)
    case Ack(boot, request, deadline, result, now) => Acknowledge(r, boot, request, deadline, result, now)
  }

  /** When a stored proof was accepted, and the deadline it met. */
  datatype Acceptance = Acceptance(proof: Proof, now: int, deadline: int)

  datatype History = History(record: Record, log: seq<Acceptance>)

  function Step(h: History, e: Event): History {
    var next := Next(h.record, e);
    if next == None then h
    else
      History(next.value,
              if e.Prove? && |next.value.proofs| > |h.record.proofs|
              then h.log + [Acceptance(e.proof, e.now, h.record.proofDeadline)] else h.log)
  }

  function Run(armed: Record, events: seq<Event>): History {
    if events == [] then History(armed, []) else Step(Run(armed, events[..|events| - 1]), events[|events| - 1])
  }

  /** A record that one arm produced. */
  ghost predicate Armed(r: Record) {
    exists boot, request, requestDeadline, operationDeadline, intended, target1, target2, now ::
      Arm(boot, request, requestDeadline, operationDeadline, intended, target1, target2, now) == Some(r)
  }

  /* ---------- the invariant ---------- */

  /** No two proofs share a sequence, and the expected command has one of its own. */
  ghost predicate FreshSequences(r: Record) {
    && (forall i: nat, j: nat :: i < j < |r.proofs| ==> r.proofs[i].sequence != r.proofs[j].sequence)
    && (r.expected.Some? && r.expected.value.sequence.Some? ==>
          forall i: nat :: i < |r.proofs| ==> r.proofs[i].sequence != r.expected.value.sequence.value)
  }

  /** Three slots always stay free, and each restore attempt has its own. */
  predicate Thrifty(r: Record) {
    |r.used| <= 10 + r.attempts
  }

  ghost predicate Sound(r: Record) {
    Valid(r) && FreshSequences(r) && Thrifty(r)
  }

  predicate SameOperation(r: Record, r': Record) {
    && r'.operationDeadline == r.operationDeadline && r'.intended == r.intended && r'.challenge == r.challenge
    && r'.target1 == r.target1 && r'.target2 == r.target2
  }

  ghost predicate Logged(h: History) {
    && |h.log| == |h.record.proofs|
    && forall i: nat :: i < |h.log| ==> LoggedAt(h, i)
  }

  ghost predicate LoggedAt(h: History, i: nat)
    requires i < |h.log| && i < |h.record.proofs|
  {
    && h.log[i].proof == h.record.proofs[i]
    && h.log[i].now < h.log[i].deadline <= h.record.operationDeadline
  }

  lemma NextIsValid(r: Record, e: Event)
    requires Next(r, e).Some?
    ensures Valid(Next(r, e).value) && SameOperation(r, Next(r, e).value)
  {
    hide Valid, NewSequence, BoundedDeadline, FullDeadline, Acceptable, BindingOk, CheckedAdd;
  }

  /** What a transition does to proofs and to the expected command's sequence. */
  predicate Extends(r: Record, e: Event, r': Record) {
    && (r'.proofs == r.proofs || (e.Prove? && Acceptable(r, e.proof, e.now) && r'.proofs == r.proofs + [e.proof]))
    && (r'.expected.Some? && r'.expected.value.sequence.Some? ==>
          if r'.proofs == r.proofs then r'.expected == r.expected || r'.expected.value.sequence.value !in r.used
          else r'.expected.value.sequence.value !in UsedAfter(r, e.proof))
  }

  lemma NextExtends(r: Record, e: Event)
    requires Valid(r) && Next(r, e).Some?
    ensures Extends(r, e, Next(r, e).value)
  {
    hide Valid, BoundedDeadline, FullDeadline, Acceptable, BindingOk, CheckedAdd;
  }

  lemma AcceptedIsFresh(r: Record, p: Proof, now: int)
    requires Sound(r) && Acceptable(r, p, now)
    ensures p.sequence in UsedAfter(r, p)
    ensures forall i: nat :: i < |r.proofs| ==>
              r.proofs[i].sequence != p.sequence && r.proofs[i].sequence in UsedAfter(r, p)
  {
    forall i: nat | i < |r.proofs|
      ensures r.proofs[i].sequence != p.sequence && r.proofs[i].sequence in UsedAfter(r, p)
    {
      assert ProofStored(r, i);
    }
  }

  lemma StoredInUsed(r: Record)
    requires Valid(r)
    ensures forall i: nat :: i < |r.proofs| ==> r.proofs[i].sequence in r.used
  {
    forall i: nat | i < |r.proofs| ensures r.proofs[i].sequence in r.used {
      assert ProofStored(r, i);
    }
  }

  lemma NextIsFresh(r: Record, e: Event, r': Record)
    requires Sound(r) && Extends(r, e, r')
    ensures FreshSequences(r')
  {
    hide ScalarsOk, CollectionsOk, PhaseOk, UsedAfter, Thrifty;
    StoredInUsed(r);
    if r'.proofs != r.proofs {
      AcceptedIsFresh(r, e.proof, e.now);
      forall i: nat, j: nat | i < j < |r'.proofs| ensures r'.proofs[i].sequence != r'.proofs[j].sequence {
        assert r'.proofs[i] == r.proofs[i];
      }
    }
  }

  lemma NextIsThrifty(r: Record, e: Event)
    requires Sound(r) && Next(r, e).Some?
    ensures Thrifty(Next(r, e).value)
  {
    hide ScalarsOk, CollectionsOk, BoundedDeadline, FullDeadline, BindingOk, CheckedAdd, ResultOk, RemediationOk,
      HistoryOk;
  }

  lemma NextIsSound(r: Record, e: Event)
    requires Sound(r) && Next(r, e).Some?
    ensures Sound(Next(r, e).value)
  {
    hide Valid, Next, FreshSequences, Thrifty, Extends;
    NextIsValid(r, e);
    NextExtends(r, e);
    NextIsFresh(r, e, Next(r, e).value);
    NextIsThrifty(r, e);
  }

  lemma StepIsLogged(h: History, e: Event)
    requires Sound(h.record) && Logged(h)
    ensures Logged(Step(h, e)) && SameOperation(h.record, Step(h, e).record) && Sound(Step(h, e).record)
  {
    hide Valid, Next, FreshSequences, Thrifty;
    if Next(h.record, e).Some? {
      var h' := Step(h, e);
      NextIsSound(h.record, e);
      NextIsValid(h.record, e);
      SoundIsValid(h.record);
      NextExtends(h.record, e);
      AcceptedInTime(h.record, e);
      forall i: nat | i < |h'.log| ensures i < |h'.record.proofs| && LoggedAt(h', i) {
        assert i < |h.log| ==> LoggedAt(h, i);
      }
    }
  }

  lemma SoundIsValid(r: Record)
    requires Sound(r)
    ensures Valid(r)
  {
  }

  /** An accepted proof came before its deadline, which is within the operation. */
  lemma AcceptedInTime(r: Record, e: Event)
    requires Valid(r)
    ensures e.Prove? && Acceptable(r, e.proof, e.now) ==> e.now < r.proofDeadline <= r.operationDeadline
  {
  }

  lemma {:induction false} RunIsSound(armed: Record, events: seq<Event>)
    requires Armed(armed)
    ensures Sound(Run(armed, events).record) && Logged(Run(armed, events))
            && SameOperation(armed, Run(armed, events).record)
  {
    hide Valid, FreshSequences, Thrifty, Step, Logged;
    if events == [] {
      ArmedIsSound(armed);
    } else {
      RunIsSound(armed, events[..|events| - 1]);
      StepIsLogged(Run(armed, events[..|events| - 1]), events[|events| - 1]);
    }
  }

  lemma ArmedIsSound(armed: Record)
    requires Armed(armed)
    ensures Sound(armed) && Logged(History(armed, []))
  {
  }

  /* ---------- capacity ---------- */

  /**
   * In every reachable record the used sequences number at most ten plus the restore attempts, so three
   * slots stay free.
   */
  lemma ThreeSlotsStayFree(armed: Record, events: seq<Event>)
    requires Armed(armed)
    ensures var r := Run(armed, events).record;
            |r.used| <= 10 + r.attempts && |r.used| + MAX_UNCLAIMED <= MAX_USED
  {
    hide Next, Armed;
    RunIsSound(armed, events);
  }

  /** What still decides whether a restore can begin, once attempts and a fresh sequence are at hand. */
  predicate MayRestore(r: Record, failure: Option<string>, now: int, intent: Option<bool>) {
    && RestorePhase(r.phase) && r.generation < MAX_GENERATION
    && FullDeadline(now, r.operationDeadline, DIRECT_WINDOW).Some?
    && (failure.Some? ==> failure.value in FAILURE_CODES)
    && (Purposes(r.proofs) == UP_TO_CHALLENGE
        || (failure.Some? && (Purposes(r.proofs) == UP_TO_NOOP || Purposes(r.proofs) == COMPLETE)))
    && (failure.Some? && failure.value in REMEDIATION_CODES ==> Intent(r, failure, intent))
  }

  /**
   * While attempts remain, a fresh sequence is never refused for capacity: whether a restore begins
   * depends on phase, code, history, generation and time alone.
   */
  lemma RestoreNeverLacksCapacity(armed: Record, events: seq<Event>, sequence: int, failure: Option<string>, now: int,
                                  intent: Option<bool>)
    requires Armed(armed) && Run(armed, events).record.attempts < MAX_ATTEMPTS
    requires Generated(sequence) && sequence !in Run(armed, events).record.used
    ensures var r := Run(armed, events).record;
            BeginRestore(r, Some(sequence), failure, now, intent).Some? <==> MayRestore(r, failure, now, intent)
  {
    hide Next, Armed, Valid, FreshSequences, Purposes;
    RunIsSound(armed, events);
    RestoreExactlyWhen(Run(armed, events).record, sequence, failure, now, intent);
  }

  lemma RestoreExactlyWhen(r: Record, sequence: int, failure: Option<string>, now: int, intent: Option<bool>)
    requires Valid(r) && Thrifty(r) && r.attempts < MAX_ATTEMPTS && Generated(sequence) && sequence !in r.used
    ensures BeginRestore(r, Some(sequence), failure, now, intent).Some? <==> MayRestore(r, failure, now, intent)
  {
    var deadline := FullDeadline(now, r.operationDeadline, DIRECT_WINDOW);
    if deadline.Some? && r.generation < MAX_GENERATION {
      var r' := Restoring(r, sequence, failure, deadline.value, Intent(r, failure, intent));
      forall i: nat | i < |r'.proofs| ensures ProofStored(r', i) {
        assert ProofStored(r, i);
      }
      assert NoRepeats(r'.used);
      assert CollectionsOk(r');
    }
  }

  /** The record a restore attempt builds. */
  function Restoring(r: Record, sequence: int, failure: Option<string>, deadline: int, remediate: bool): Record {
    r.(phase := AwaitingRestore, generation := r.generation + 1, proofDeadline := deadline,
       used := r.used + [sequence], expected := Some(Expected(Restore, Some(sequence), r.intended)),
       restoreRequired := true, remediationAfterRestore := remediate, attempts := r.attempts + 1, failure := failure,
       outcome := None, resultId := None, resultNotBefore := 0, cleanupAllowed := false)
  }

  /** From every valid record, at the generation cap too, remediation can be latched exactly with an allowed code. */
  lemma RemediationAlwaysLatches(r: Record, code: string, restoreRequired: bool)
    requires Valid(r)
    ensures ToRemediation(r, code, restoreRequired).Some? <==> code in FAILURE_CODES
  {
    if code in FAILURE_CODES {
      LatchedIsValid(r, code, restoreRequired, r.generation);
      if r.generation < MAX_GENERATION {
        LatchedIsValid(r, code, restoreRequired, r.generation + 1);
      }
    }
  }

  lemma LatchedIsValid(r: Record, code: string, restoreRequired: bool, generation: int)
    requires Valid(r) && code in FAILURE_CODES && 1 <= generation <= MAX_GENERATION
    ensures Valid(Latched(r, code, restoreRequired, generation))
  {
    var latched := Latched(r, code, restoreRequired, generation);
    forall i: nat | i < |latched.proofs| ensures ProofStored(latched, i) {
      assert ProofStored(r, i);
    }
  }

  /** The record a latch builds. */
  function Latched(r: Record, code: string, restoreRequired: bool, generation: int): Record {
    r.(phase := RemediationRequired, expected := None, proofDeadline := 0, restoreRequired := restoreRequired,
       remediationAfterRestore := false, outcome := None, failure := Some(code), resultId := None,
       resultNotBefore := 0, cleanupAllowed := false, generation := generation)
  }

  /* ---------- one result ---------- */

  /** What can follow a record that carried this result. */
  predicate Sealed(r: Record, id: ResultId) {
    match r.phase
    case ResultPendingAck => r.resultId == Some(id)
    case Quiescent => r.resultId == Some(id)
    case RemediationRequired => SettledHistory(r)
    case AwaitingRestore => Purposes(r.proofs) == COMPLETE
    case _ => false
  }

  /** The proofs a result can rest on. */
  predicate SettledHistory(r: Record) {
    || Purposes(r.proofs) == [] || Purposes(r.proofs) == UP_TO_1 || Purposes(r.proofs) == UP_TO_2
    || Purposes(r.proofs) == UNCHALLENGED || Purposes(r.proofs) == COMPLETE
  }

  lemma NextStaysSealed(r: Record, e: Event, id: ResultId)
    requires Valid(r) && Sealed(r, id) && Next(r, e).Some?
    ensures Sealed(Next(r, e).value, id)
  {
    hide ScalarsOk, BoundedDeadline, FullDeadline, BindingOk, CheckedAdd, NewSequence;
    NextIsValid(r, e);
    PurposesLength(r.proofs);
  }

  lemma PurposesLength(proofs: seq<Proof>)
    ensures |Purposes(proofs)| == |proofs|
  {
  }

  lemma ResultIsSealed(r: Record)
    requires Valid(r) && r.resultId.Some?
    ensures Sealed(r, r.resultId.value)
  {
  }

  lemma SealedHasNoOther(r: Record, id: ResultId)
    requires Valid(r) && Sealed(r, id)
    ensures r.resultId == None || r.resultId == Some(id)
  {
  }

  lemma {:induction false} SealedRun(armed: Record, events: seq<Event>, i: nat, id: ResultId)
    requires Armed(armed) && i <= |events| && Run(armed, events[..i]).record.resultId == Some(id)
    ensures Sealed(Run(armed, events).record, id)
    decreases |events|
  {
    hide Valid, Next, Sealed, Armed;
    RunIsSound(armed, events[..i]);
    if i == |events| {
      assert events[..i] == events;
      ResultIsSealed(Run(armed, events).record);
    } else {
      var front := events[..|events| - 1];
      assert front[..i] == events[..i];
      SealedRun(armed, front, i, id);
      RunIsSound(armed, front);
      StepStaysSealed(Run(armed, front), events[|events| - 1], id);
    }
  }

  lemma StepStaysSealed(h: History, e: Event, id: ResultId)
    requires Sound(h.record) && Sealed(h.record, id)
    ensures Sealed(Step(h, e).record, id)
  {
    hide Valid, Next, Sealed;
    if Next(h.record, e).Some? {
      NextStaysSealed(h.record, e, id);
    }
  }

  /** Once a record carries a result ID, no later record of the operation carries a different one. */
  lemma OneResultId(armed: Record, events: seq<Event>, i: nat, id: ResultId)
    requires Armed(armed) && i <= |events| && Run(armed, events[..i]).record.resultId == Some(id)
    ensures Run(armed, events).record.resultId == None || Run(armed, events).record.resultId == Some(id)
  {
    hide Valid, Next, Sealed, Armed;
    SealedRun(armed, events, i, id);
    RunIsSound(armed, events);
    SealedHasNoOther(Run(armed, events).record, id);
  }

  /* ---------- after remediation ---------- */

  /** In remediation, or in a restore that will end there. */
  predicate Bound(r: Record) {
    r.phase == RemediationRequired || (r.phase == AwaitingRestore && r.remediationAfterRestore)
  }

  lemma BoundClaimsNothing(r: Record)
    requires Valid(r) && Bound(r)
    ensures r.outcome == None && r.resultId == None && !r.cleanupAllowed
  {
  }

  /** Only a restore begun with the explicit intent not to end in remediation gets out of it. */
  lemma OnlyExplicitIntentUnbinds(r: Record, e: Event)
    requires Valid(r) && Bound(r) && Next(r, e).Some?
    ensures Bound(Next(r, e).value) <==> !(e.Begin? && e.intent == Some(false))
  {
    hide ScalarsOk, CollectionsOk, BoundedDeadline, FullDeadline, BindingOk, CheckedAdd, NewSequence, Accepts,
      HistoryOk;
    NextIsValid(r, e);
  }

  predicate KeepsIntent(events: seq<Event>, from: nat) {
    forall k: nat :: from <= k < |events| && events[k].Begin? ==> events[k].intent != Some(false)
  }

  lemma StepStaysBound(h: History, e: Event)
    requires Sound(h.record) && Bound(h.record) && (e.Begin? ==> e.intent != Some(false))
    ensures Bound(Step(h, e).record)
  {
    hide Valid, Next, Bound;
    if Next(h.record, e).Some? {
      OnlyExplicitIntentUnbinds(h.record, e);
    }
  }

  lemma {:induction false} BoundRun(armed: Record, events: seq<Event>, i: nat)
    requires Armed(armed) && i <= |events| && KeepsIntent(events, i)
    requires Run(armed, events[..i]).record.phase == RemediationRequired
    ensures Bound(Run(armed, events).record)
    decreases |events|
  {
    hide Valid, Next, Armed;
    if i == |events| {
      assert events[..i] == events;
    } else {
      var front := events[..|events| - 1];
      assert front[..i] == events[..i];
      assert KeepsIntent(front, i);
      BoundRun(armed, front, i);
      RunIsSound(armed, front);
      StepStaysBound(Run(armed, front), events[|events| - 1]);
    }
  }

  /**
   * With the restore intent left at its default, no record after a remediation record carries an
   * outcome, a result ID or permission to clean up.
   */
  lemma NothingClaimedAfterRemediation(armed: Record, events: seq<Event>, i: nat)
    requires Armed(armed) && i <= |events| && KeepsIntent(events, i)
    requires Run(armed, events[..i]).record.phase == RemediationRequired
    ensures var r := Run(armed, events).record; r.outcome == None && r.resultId == None && !r.cleanupAllowed
  {
    hide Valid, Next, Armed, Bound;
    BoundRun(armed, events, i);
    RunIsSound(armed, events);
    BoundClaimsNothing(Run(armed, events).record);
  }

  /* ---------- what verified means ---------- */

  /** The canonical target of each proof in order. */
  function CanonicalTargets(r: Record): seq<int> {
    [r.target1, r.target2, r.intended, r.challenge, r.intended]
  }

  /**
   * A reachable verified record rests on five proofs in protocol order, at the canonical targets,
   * with five different sequences, each accepted before a deadline within the operation deadline
   * set when the probe was armed; and settling ends before that deadline.  Whether the result can
   * still be acknowledged is another matter, decided below.
   */
  lemma VerifiedMeans(armed: Record, events: seq<Event>)
    requires Armed(armed) && Run(armed, events).record.outcome == Some(Verified)
    ensures var h := Run(armed, events);
            var r := h.record;
            && Purposes(r.proofs) == COMPLETE && |r.proofs| == 5 == |h.log|
            && (forall i: nat :: i < 5 ==> r.proofs[i].target == CanonicalTargets(armed)[i])
            && (forall i: nat, j: nat :: i < j < 5 ==> r.proofs[i].sequence != r.proofs[j].sequence)
            && (forall i: nat :: i < 5 ==>
                  h.log[i].proof == r.proofs[i] && h.log[i].now < h.log[i].deadline <= armed.operationDeadline)
            && r.operationDeadline == armed.operationDeadline
            && 0 < r.resultNotBefore < armed.operationDeadline
  {
    hide Next, Armed;
    RunIsSound(armed, events);
    var h := Run(armed, events);
    var r := h.record;
    assert !Active(r.phase) && ResultOk(r);
    PurposesLength(r.proofs);
    forall i: nat | i < 5
      ensures r.proofs[i].target == CanonicalTargets(armed)[i]
      ensures h.log[i].proof == r.proofs[i] && h.log[i].now < h.log[i].deadline <= armed.operationDeadline
    {
      assert Purposes(r.proofs)[i] == r.proofs[i].purpose;
      assert ProofStored(r, i) && LoggedAt(h, i);
    }
  }

  /* ---------- acknowledging a result ---------- */

  /** What an acknowledgement must meet: the right boot and result, a fresh request, a moment within the window. */
  predicate RightAcknowledgement(r: Record, boot: nat, request: nat, requestDeadline: int, result: ResultId, now: int) {
    && boot == r.boot && r.resultId == Some(result) && request !in r.consumed
    && SafeTime(now) && r.resultNotBefore <= now < r.operationDeadline
    && FreshDeadline(requestDeadline, now, MAX_REQUEST_WINDOW) && requestDeadline > r.lastRequestDeadline
  }

  /** What the record itself must leave: a generation, a request slot and a request deadline. */
  predicate Acknowledgeable(r: Record) {
    && r.phase == ResultPendingAck && r.generation < MAX_GENERATION && |r.consumed| < MAX_CONSUMED
    && r.lastRequestDeadline < Min(r.operationDeadline - 1 + MAX_REQUEST_WINDOW, MAX_SAFE)
  }

  /**
   * An acknowledgement is accepted exactly when it is right and the record has a generation and a
   * request slot left.
   */
  lemma AcknowledgeExactlyWhen(r: Record, boot: nat, request: nat, requestDeadline: int, result: ResultId, now: int)
    requires Valid(r)
    ensures Acknowledge(r, boot, request, requestDeadline, result, now).Some? <==>
              && r.phase == ResultPendingAck && r.generation < MAX_GENERATION && |r.consumed| < MAX_CONSUMED
              && RightAcknowledgement(r, boot, request, requestDeadline, result, now)
  {
    if r.phase == ResultPendingAck && r.generation < MAX_GENERATION && |r.consumed| < MAX_CONSUMED
         && request !in r.consumed {
      QuiescentIsValid(r, request, requestDeadline);
    }
  }

  /** The record an acknowledgement builds. */
  function Acknowledged(r: Record, request: nat, requestDeadline: int): Record {
    r.(phase := Quiescent, consumed := r.consumed + [request], lastRequestDeadline := requestDeadline,
       proofDeadline := 0, cleanupAllowed := true, generation := r.generation + 1)
  }

  lemma QuiescentIsValid(r: Record, request: nat, requestDeadline: int)
    requires Valid(r) && r.phase == ResultPendingAck && r.generation < MAX_GENERATION && |r.consumed| < MAX_CONSUMED
    requires request !in r.consumed
    ensures SafeTime(requestDeadline) ==> Valid(Acknowledged(r, request, requestDeadline))
  {
    var quiescent := Acknowledged(r, request, requestDeadline);
    forall i: nat | i < |quiescent.proofs| ensures ProofStored(quiescent, i) {
      assert ProofStored(r, i);
    }
    assert NoRepeats(quiescent.consumed);
  }

  /** Some acknowledgement is accepted. */
  ghost predicate SomeAcknowledgement(r: Record) {
    exists boot, request, requestDeadline, result, now ::
      Acknowledge(r, boot, request, requestDeadline, result, now).Some?
  }

  /**
   * A result can be acknowledged at all exactly when its record has a generation, a request slot and a
   * request deadline left.  Nothing in the verified outcome itself grants them.
   */
  lemma AcknowledgeableExactlyWhen(r: Record)
    requires Valid(r)
    ensures SomeAcknowledgement(r) <==> Acknowledgeable(r)
  {
    hide Acknowledge, Purposes;
    if Acknowledgeable(r) {
      var now := r.operationDeadline - 1;
      var request := FreshRequest(r.consumed);
      var deadline := Min(now + MAX_REQUEST_WINDOW, MAX_SAFE);
      AcknowledgeExactlyWhen(r, r.boot, request, deadline, r.resultId.value, now);
    }
    forall boot, request, requestDeadline, result, now
      ensures Acknowledge(r, boot, request, requestDeadline, result, now).Some? ==> Acknowledgeable(r)
    {
      AcknowledgeExactlyWhen(r, boot, request, requestDeadline, result, now);
    }
  }

  function FreshRequest(consumed: seq<nat>): (request: nat)
    ensures forall c :: c in consumed ==> c < request
  {
    if consumed == [] then 0
    else
      var rest := FreshRequest(consumed[..|consumed| - 1]);
      var last := consumed[|consumed| - 1];
      assert consumed == consumed[..|consumed| - 1] + [last];
      if last < rest then rest else last + 1
  }
}
