/**
 * The durable record of one physical probe operation: eight phases, ordered proofs, deadlines, a
 * budget of sequence numbers with reserves, and the validator every new record must pass.
 *
 * A transition yields a new record, or None where the code raises.  Identifiers stand for
 * well-formed ones, and a result ID for the fields its digest covers.
 */
module ProbeRecord {
  import opened Basics

  datatype Phase =
    | AwaitingTarget1 | AwaitingTarget2 | AwaitingNoop | AwaitingChallenge | AwaitingRestore
    | ResultPendingAck | Quiescent | RemediationRequired

  datatype Purpose = PhysicalTarget1 | PhysicalTarget2 | Noop | Challenge | Restore

  datatype Outcome = Verified | FailedSafe | FailedRestored

  datatype Proof = Proof(purpose: Purpose, sequence: int, target: int)

  datatype Expected = Expected(purpose: Purpose, sequence: Option<int>, target: int)

  /** The digest over targets, proofs, outcome and failure code, taken to be injective. */
  datatype ResultId = ResultId(intended: int, challenge: int, proofs: seq<Proof>, outcome: Option<Outcome>,
                               failure: Option<string>)

  datatype Record = Record(
    boot: nat,
    phase: Phase,
    generation: int,
    operationDeadline: int,
    lastRequestDeadline: int,
    proofDeadline: int,
    intended: int,
    challenge: int,
    target1: int,
    target2: int,
    restoreRequired: bool,
    remediationAfterRestore: bool,
    attempts: int,
    consumed: seq<nat>,
    used: seq<int>,
    proofs: seq<Proof>,
    expected: Option<Expected>,
    outcome: Option<Outcome>,
    failure: Option<string>,
    resultId: Option<ResultId>,
    resultNotBefore: int,
    cleanupAllowed: bool)

  const MAX_CONSUMED := 32
  const MAX_PROOFS := 5
  const MAX_USED := 16
  const MAX_GENERATION := 64
  const MAX_ATTEMPTS := 3
  const MAX_UNCLAIMED := 3
  const MAX_REQUEST_WINDOW := 60_000
  const MAX_OPERATION_WINDOW := 900_000
  const PHYSICAL_WINDOW := 60_000
  const DIRECT_WINDOW := 10_000
  const SETTLING_WINDOW := 2_000
  const MAX_SAFE := 9_007_199_254_740_991
  const MAX_TARGET := 35

  const POST_RESULT_RESERVE := MAX_UNCLAIMED
  const POST_CHALLENGE_RESERVE := MAX_ATTEMPTS + MAX_UNCLAIMED
  const POST_NOOP_RESERVE := 1 + POST_CHALLENGE_RESERVE

  const FAILURE_CODES: set<string> := {
    "competing_frame", "competing_write", "control_drift", "deadline_expired", "dispatch_failed",
    "dispatch_timeout", "identity_mismatch", "journal_uncertain", "proof_mismatch", "queue_overflow",
    "restart_recovery", "restore_exhausted"
  }

  /** After these a restore must end in remediation. */
  const REMEDIATION_CODES: set<string> := {"competing_frame", "competing_write", "control_drift", "queue_overflow"}

  /* ---------- small checks ---------- */

  predicate SafeTime(t: int) {
    0 <= t <= MAX_SAFE
  }

  predicate TargetOk(t: int) {
    0 <= t <= MAX_TARGET
  }

  predicate Uint16(n: int) {
    0 <= n <= 0xFFFF
  }

  /** Sequences the probe generates itself stop one short. */
  predicate Generated(n: int) {
    0 <= n <= 0xFFFE
  }

  predicate Physical(p: Purpose) {
    p.PhysicalTarget1? || p.PhysicalTarget2?
  }

  function ChallengeFor(intended: int): int {
    if intended + 1 <= MAX_TARGET then intended + 1 else intended - 1
  }

  function CheckedAdd(value: int, increment: int): Option<int> {
    if SafeTime(value) && value + increment <= MAX_SAFE then Some(value + increment) else None
  }

  /** A window clipped to the operation; some time must remain. */
  function BoundedDeadline(now: int, operationDeadline: int, window: int): Option<int> {
    var full := CheckedAdd(now, window);
    if full == None || Min(full.value, operationDeadline) <= now then None else Some(Min(full.value, operationDeadline))
  }

  /** A window that must fit into the operation whole. */
  function FullDeadline(now: int, operationDeadline: int, window: int): Option<int> {
    var full := CheckedAdd(now, window);
    if full == None || full.value > operationDeadline then None else full
  }

  predicate FreshDeadline(deadline: int, now: int, window: int) {
    SafeTime(deadline) && SafeTime(now) && now < deadline <= now + window
  }

  predicate NewSequence(sequence: Option<int>, used: seq<int>, reserve: int) {
    && sequence.Some? && Generated(sequence.value) && sequence.value !in used
    && |used| + 1 + reserve <= MAX_USED
  }

  predicate Accepts(e: Expected, p: Proof) {
    p.purpose == e.purpose && p.target == e.target && (e.sequence == None || p.sequence == e.sequence.value)
  }

  /** What a proof's own constructor checks. */
  predicate ProofOk(p: Proof) {
    TargetOk(p.target) && if Physical(p.purpose) then Uint16(p.sequence) else Generated(p.sequence)
  }

  /* ---------- the validator ---------- */

  function Order(p: Purpose): nat {
    match p
    case PhysicalTarget1 => 0
    case PhysicalTarget2 => 1
    case Noop => 2
    case Challenge => 3
    case Restore => 4
  }

  function TargetFor(r: Record, p: Purpose): int {
    match p
    case PhysicalTarget1 => r.target1
    case PhysicalTarget2 => r.target2
    case Noop => r.intended
    case Challenge => r.challenge
    case Restore => r.intended
  }

  predicate ScalarsOk(r: Record) {
    && 1 <= r.generation <= MAX_GENERATION
    && SafeTime(r.operationDeadline) && SafeTime(r.lastRequestDeadline)
    && SafeTime(r.proofDeadline) && SafeTime(r.resultNotBefore)
    && TargetOk(r.intended) && TargetOk(r.challenge) && r.challenge == ChallengeFor(r.intended)
    && 0 <= r.attempts <= MAX_ATTEMPTS
    && (r.failure.Some? ==> r.failure.value in FAILURE_CODES)
  }

  /** One stored proof: known sequence, canonical target, later in the order than the one before. */
  predicate ProofStored(r: Record, i: nat)
    requires i < |r.proofs|
  {
    && ProofOk(r.proofs[i]) && r.proofs[i].sequence in r.used
    && r.proofs[i].target == TargetFor(r, r.proofs[i].purpose)
    && (i > 0 ==> Order(r.proofs[i - 1].purpose) < Order(r.proofs[i].purpose))
  }

  predicate NoRepeats<T(==)>(s: seq<T>) {
    forall i: nat, j: nat :: i < j < |s| ==> s[i] != s[j]
  }

  predicate CollectionsOk(r: Record) {
    && TargetOk(r.target1) && TargetOk(r.target2) && r.target1 != r.target2 && r.target2 == r.intended
    && 1 <= |r.consumed| <= MAX_CONSUMED && NoRepeats(r.consumed)
    && |r.used| <= MAX_USED && (forall n :: n in r.used ==> Uint16(n)) && NoRepeats(r.used)
    && |r.proofs| <= MAX_PROOFS && (forall i: nat :: i < |r.proofs| ==> ProofStored(r, i))
    && (r.expected.Some? ==>
          TargetOk(r.expected.value.target) && ExpectedOk(r.expected.value)
          && (r.expected.value.sequence.Some? ==> r.expected.value.sequence.value in r.used))
  }

  /** A physical sequence cannot be predicted; a command sequence is one the probe generated. */
  predicate ExpectedOk(e: Expected) {
    if Physical(e.purpose) then e.sequence == None else e.sequence.Some? && Generated(e.sequence.value)
  }

  function Purposes(proofs: seq<Proof>): seq<Purpose> {
    seq(|proofs|, i requires 0 <= i < |proofs| => proofs[i].purpose)
  }

  const UP_TO_1: seq<Purpose> := [PhysicalTarget1]
  const UP_TO_2: seq<Purpose> := [PhysicalTarget1, PhysicalTarget2]
  const UP_TO_NOOP: seq<Purpose> := [PhysicalTarget1, PhysicalTarget2, Noop]
  const UP_TO_CHALLENGE: seq<Purpose> := [PhysicalTarget1, PhysicalTarget2, Noop, Challenge]
  const COMPLETE: seq<Purpose> := [PhysicalTarget1, PhysicalTarget2, Noop, Challenge, Restore]
  const UNCHALLENGED: seq<Purpose> := [PhysicalTarget1, PhysicalTarget2, Noop, Restore]

  function CalculatedId(r: Record): ResultId {
    ResultId(r.intended, r.challenge, r.proofs, r.outcome, r.failure)
  }

  predicate ResultOk(r: Record) {
    && !r.restoreRequired && r.outcome.Some? && r.resultId == Some(CalculatedId(r))
    && 0 < r.resultNotBefore < r.operationDeadline && !r.remediationAfterRestore
    && CheckedAdd(r.operationDeadline, SETTLING_WINDOW).Some?
    && r.resultNotBefore <= CheckedAdd(r.operationDeadline, SETTLING_WINDOW).value
    && (r.outcome.value == Verified <==> r.failure == None)
    && (r.cleanupAllowed <==> r.phase == Quiescent)
    && match r.outcome.value
       case Verified => Purposes(r.proofs) == COMPLETE && r.attempts >= 1
       case FailedRestored => (Purposes(r.proofs) == UNCHALLENGED || Purposes(r.proofs) == COMPLETE) && r.attempts >= 1
       case FailedSafe =>
         (r.proofs == [] || Purposes(r.proofs) == UP_TO_1 || Purposes(r.proofs) == UP_TO_2) && r.attempts == 0
  }

  predicate RemediationOk(r: Record) {
    && r.outcome == None && r.resultId == None && r.resultNotBefore == 0
    && !r.remediationAfterRestore && !r.cleanupAllowed && r.failure.Some?
  }

  predicate Active(p: Phase) {
    !p.ResultPendingAck? && !p.Quiescent? && !p.RemediationRequired?
  }

  function PurposeOf(p: Phase): Purpose
    requires Active(p)
  {
    match p
    case AwaitingTarget1 => PhysicalTarget1
    case AwaitingTarget2 => PhysicalTarget2
    case AwaitingNoop => Noop
    case AwaitingChallenge => Challenge
    case AwaitingRestore => Restore
  }

  predicate HistoryOk(r: Record)
    requires Active(r.phase)
  {
    match r.phase
    case AwaitingTarget1 => r.proofs == []
    case AwaitingTarget2 => Purposes(r.proofs) == UP_TO_1
    case AwaitingNoop => Purposes(r.proofs) == UP_TO_2
    case AwaitingChallenge => Purposes(r.proofs) == UP_TO_NOOP
    case AwaitingRestore =>
      Purposes(r.proofs) == UP_TO_NOOP || Purposes(r.proofs) == UP_TO_CHALLENGE || Purposes(r.proofs) == COMPLETE
  }

  predicate ActiveOk(r: Record)
    requires Active(r.phase)
  {
    && r.outcome == None && r.resultId == None && !r.cleanupAllowed && r.resultNotBefore == 0
    && (r.remediationAfterRestore ==> r.phase == AwaitingRestore)
    && r.expected.Some? && r.expected.value.purpose == PurposeOf(r.phase)
    && 0 < r.proofDeadline <= r.operationDeadline
    && r.expected.value.target == TargetFor(r, PurposeOf(r.phase))
    && (r.restoreRequired <==> r.phase == AwaitingChallenge || r.phase == AwaitingRestore)
    && HistoryOk(r)
    && if r.phase == AwaitingRestore then
         && 1 <= r.attempts
         && (r.failure.Some? && r.failure.value in REMEDIATION_CODES ==> r.remediationAfterRestore)
         && (Purposes(r.proofs) != UP_TO_CHALLENGE ==> r.failure.Some?)
       else r.attempts == 0 && r.failure == None
  }

  predicate PhaseOk(r: Record) {
    if Active(r.phase) then ActiveOk(r)
    else
      && r.expected == None && r.proofDeadline == 0
      && if r.phase == RemediationRequired then RemediationOk(r) else ResultOk(r)
  }

  /** Sequence slots the phase must still leave free. */
  function Reserved(r: Record): int {
    match r.phase
    case AwaitingTarget1 => 3 + POST_NOOP_RESERVE
    case AwaitingTarget2 => 2 + POST_NOOP_RESERVE
    case AwaitingNoop => POST_NOOP_RESERVE
    case AwaitingChallenge => POST_CHALLENGE_RESERVE
    case AwaitingRestore => MAX_ATTEMPTS - r.attempts + MAX_UNCLAIMED
    case _ => POST_RESULT_RESERVE
  }

  predicate Valid(r: Record) {
    ScalarsOk(r) && CollectionsOk(r) && PhaseOk(r) && |r.used| + Reserved(r) <= MAX_USED
  }

  /** The proof order check as it runs: one pass that remembers the last purpose seen. */
  method ValidateProofs(r: Record) returns (ok: bool)
    ensures ok <==> forall i: nat :: i < |r.proofs| ==> ProofStored(r, i)
  {
    hide ProofOk, TargetFor;
    var last: int := -1;
    var i: nat := 0;
    while i < |r.proofs|
      invariant i <= |r.proofs| && (i == 0 ==> last == -1) && (i > 0 ==> last == Order(r.proofs[i - 1].purpose))
      invariant forall k: nat :: k < i ==> ProofStored(r, k)
    {
      var p := r.proofs[i];
      if !ProofOk(p) || Order(p.purpose) <= last || p.sequence !in r.used || p.target != TargetFor(r, p.purpose) {
        assert !ProofStored(r, i);
        return false;
      }
      last := Order(p.purpose);
      i := i + 1;
    }
    return true;
  }

  /** Every record is validated when it is built. */
  function Built(r: Record): Option<Record> {
    if Valid(r) then Some(r) else None
  }

  /* ---------- transitions ---------- */

  function Transition(old': Record, r: Record): Option<Record> {
    if old'.generation >= MAX_GENERATION then None else Built(r.(generation := old'.generation + 1))
  }

  function Arm(boot: nat, request: nat, requestDeadline: int, operationDeadline: int, intended: int, target1: int,
               target2: int, now: int): Option<Record> {
    var deadline := BoundedDeadline(now, operationDeadline, PHYSICAL_WINDOW);
    if !FreshDeadline(requestDeadline, now, MAX_REQUEST_WINDOW)
         || !FreshDeadline(operationDeadline, now, MAX_OPERATION_WINDOW)
       || requestDeadline >= operationDeadline || !TargetOk(intended) || deadline == None then None
    else
      Built(Record(boot, AwaitingTarget1, 1, operationDeadline, requestDeadline, deadline.value, intended,
                   ChallengeFor(intended), target1, target2, false, false, 0, [request], [], [],
                   Some(Expected(PhysicalTarget1, None, target1)), None, None, None, 0, false))
  }

  /** The proof is the expected one, in time, with a sequence of the right kind. */
  predicate Acceptable(r: Record, p: Proof, now: int) {
    && ProofOk(p) && r.expected.Some? && Accepts(r.expected.value, p)
    && SafeTime(now) && now < r.proofDeadline
    && (if Physical(p.purpose) then p.sequence !in r.used else p.sequence in r.used)
  }

  function UsedAfter(r: Record, p: Proof): seq<int> {
    if Physical(p.purpose) then r.used + [p.sequence] else r.used
  }

  function AcceptTarget1(r: Record, p: Proof, now: int): Option<Record> {
    var deadline := BoundedDeadline(now, r.operationDeadline, PHYSICAL_WINDOW);
    if deadline == None then None
    else
      Transition(r, r.(phase := AwaitingTarget2, proofs := r.proofs + [p], used := UsedAfter(r, p),
                       proofDeadline := deadline.value, expected := Some(Expected(PhysicalTarget2, None, r.target2))))
  }

  /** The second physical proof dispatches the no-op, the no-op proof the challenge. */
  function AcceptAndDispatch(r: Record, p: Proof, now: int, next: Option<int>, reserve: int, phase: Phase,
                             purpose: Purpose, target: int): Option<Record> {
    var deadline := BoundedDeadline(now, r.operationDeadline, DIRECT_WINDOW);
    var used := UsedAfter(r, p);
    if !NewSequence(next, used, reserve) || deadline == None then None
    else
      Transition(r, r.(phase := phase, proofs := r.proofs + [p], used := used + [next.value],
                       proofDeadline := deadline.value, expected := Some(Expected(purpose, next, target)),
                       restoreRequired := purpose == Challenge))
  }

  function AcceptProof(r: Record, p: Proof, now: int, next: Option<int>): Option<Record> {
    if !Acceptable(r, p, now) then None
    else
      match r.phase
      case AwaitingTarget1 => AcceptTarget1(r, p, now)
      case AwaitingTarget2 => AcceptAndDispatch(r, p, now, next, POST_NOOP_RESERVE, AwaitingNoop, Noop, r.intended)
      case AwaitingNoop => AcceptAndDispatch(r, p, now, next, POST_CHALLENGE_RESERVE, AwaitingChallenge, Challenge,
                                             r.challenge)
      case AwaitingChallenge => RestoreWith(r, next, r.failure, now, r.proofs + [p], UsedAfter(r, p), None)
      case AwaitingRestore =>
        if r.remediationAfterRestore then
          ToRemediation(r, if r.failure.Some? then r.failure.value else "restart_recovery", false)
        else
          Terminal(r, if r.failure.Some? then FailedRestored else Verified, r.proofs + [p], r.failure, now)
      case _ => None
  }

  /** Whether a restore must end in remediation, unless the caller says so explicitly. */
  predicate Intent(r: Record, failure: Option<string>, intent: Option<bool>) {
    if intent.Some? then intent.value
    else
      || r.remediationAfterRestore || r.phase == RemediationRequired
      || (failure.Some? && failure.value in REMEDIATION_CODES)
  }

  predicate RestorePhase(p: Phase) {
    p == AwaitingChallenge || p == AwaitingRestore || p == ResultPendingAck || p == RemediationRequired
  }

  function RestoreWith(r: Record, sequence: Option<int>, failure: Option<string>, now: int, proofs: seq<Proof>,
                       used: seq<int>, intent: Option<bool>): Option<Record> {
    var attempts := r.attempts + 1;
    var deadline := FullDeadline(now, r.operationDeadline, DIRECT_WINDOW);
    if !RestorePhase(r.phase)
       || (failure.Some? && failure.value !in FAILURE_CODES) || attempts > MAX_ATTEMPTS
       || !NewSequence(sequence, used, MAX_ATTEMPTS - attempts + MAX_UNCLAIMED) || deadline == None then None
    else
      Transition(r, r.(phase := AwaitingRestore, proofDeadline := deadline.value, used := used + [sequence.value],
                       proofs := proofs, expected := Some(Expected(Restore, sequence, r.intended)),
                       restoreRequired := true, remediationAfterRestore := Intent(r, failure, intent),
                       attempts := attempts, failure := failure, outcome := None, resultId := None,
                       resultNotBefore := 0, cleanupAllowed := false))
  }

  /** `intent` is the explicit `remediation_after_restore` argument; None is its default. */
  function BeginRestore(r: Record, sequence: Option<int>, failure: Option<string>, now: int, intent: Option<bool>)
    : Option<Record> {
    RestoreWith(r, sequence, failure, now, r.proofs, r.used, intent)
  }

  function ReuseRestore(r: Record, boot: nat, now: int): Option<Record> {
    var deadline := FullDeadline(now, r.operationDeadline, DIRECT_WINDOW);
    if r.phase != AwaitingRestore || r.expected == None || r.attempts < 1 || deadline == None then None
    else
      Transition(r, r.(boot := boot, proofDeadline := deadline.value,
                       failure := if r.failure.Some? then r.failure else Some("restart_recovery")))
  }

  function FailSafe(r: Record, code: string, now: int, boot: nat): Option<Record> {
    if r.restoreRequired || !Active(r.phase) || boot != r.boot || code !in FAILURE_CODES then None
    else Terminal(r, FailedSafe, r.proofs, Some(code), now)
  }

  /** Latching remediation spends no generation once the cap is reached. */
  function ToRemediation(r: Record, code: string, restoreRequired: bool): Option<Record> {
    var latched := r.(phase := RemediationRequired, expected := None, proofDeadline := 0,
                      restoreRequired := restoreRequired, remediationAfterRestore := false, outcome := None,
                      failure := Some(code), resultId := None, resultNotBefore := 0, cleanupAllowed := false);
    if code !in FAILURE_CODES then None
    else if r.generation < MAX_GENERATION then Transition(r, latched)
    else Built(latched)
  }

  predicate BindingOk(r: Record, boot: nat, request: nat, requestDeadline: int, now: int) {
    && FreshDeadline(requestDeadline, now, MAX_REQUEST_WINDOW) && requestDeadline > r.lastRequestDeadline
    && (boot == r.boot ==> request !in r.consumed && |r.consumed| < MAX_CONSUMED)
  }

  function NextConsumed(r: Record, boot: nat, request: nat): seq<nat> {
    if boot == r.boot then r.consumed + [request] else [request]
  }

  function Resume(r: Record, boot: nat, request: nat, requestDeadline: int, now: int, next: Option<int>)
    : Option<Record> {
    var noop := r.phase == AwaitingNoop;
    var deadline := BoundedDeadline(now, r.operationDeadline, if noop then DIRECT_WINDOW else PHYSICAL_WINDOW);
    if r.restoreRequired || !Active(r.phase) || now >= r.operationDeadline
         || !BindingOk(r, boot, request, requestDeadline, now)
       || deadline == None || (noop && !NewSequence(next, r.used, POST_NOOP_RESERVE)) then None
    else
      Transition(r, r.(boot := boot, consumed := NextConsumed(r, boot, request), lastRequestDeadline := requestDeadline,
                       used := if noop then r.used + [next.value] else r.used,
                       expected := if noop then Some(Expected(Noop, next, r.intended)) else r.expected,
                       proofDeadline := deadline.value))
  }

  function Acknowledge(r: Record, boot: nat, request: nat, requestDeadline: int, result: ResultId, now: int)
    : Option<Record> {
    if r.phase != ResultPendingAck || r.resultId != Some(result) || !SafeTime(now) || boot != r.boot
         || now >= r.operationDeadline
       || now < r.resultNotBefore || !BindingOk(r, boot, request, requestDeadline, now) then None
    else
      Transition(r, r.(phase := Quiescent, boot := boot, consumed := NextConsumed(r, boot, request),
                       lastRequestDeadline := requestDeadline, proofDeadline := 0, cleanupAllowed := true))
  }

  function Terminal(r: Record, outcome: Outcome, proofs: seq<Proof>, failure: Option<string>, now: int)
    : Option<Record> {
    var settled := CheckedAdd(now, SETTLING_WINDOW);
    if settled == None || settled.value >= r.operationDeadline then None
    else
      Built(r.(phase := ResultPendingAck, generation := r.generation + 1, proofDeadline := 0,
               restoreRequired := false, remediationAfterRestore := false, proofs := proofs, expected := None,
               outcome := Some(outcome), failure := failure,
               resultId := Some(ResultId(r.intended, r.challenge, proofs, Some(outcome), failure)),
               resultNotBefore := settled.value, cleanupAllowed := false))
  }
}
