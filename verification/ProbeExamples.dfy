/**
 * Two concrete runs of one probe operation: an explicit restore intent that leads out of remediation
 * to a result, and a verified result that nothing can acknowledge.
 */
module ProbeExamples {
  import opened Basics
  import opened ProbeRecord
  import opened ProbeRuns

  const ARMED := Record(0, AwaitingTarget1, 1, 900_000, 1_000, 60_000, 20, 21, 19, 20, false, false, 0, [0], [], [],
                        Some(Expected(PhysicalTarget1, None, 19)), None, None, None, 0, false)

  const P1 := Proof(PhysicalTarget1, 100, 19)
  const P2 := Proof(PhysicalTarget2, 101, 20)
  const P3 := Proof(Noop, 1, 20)
  const P4 := Proof(Challenge, 2, 21)
  const P5 := Proof(Restore, 4, 20)

  const R1 := ARMED.(phase := AwaitingTarget2, generation := 2, proofDeadline := 60_001, used := [100], proofs := [P1],
                     expected := Some(Expected(PhysicalTarget2, None, 20)))

  const R2 := R1.(phase := AwaitingNoop, generation := 3, proofDeadline := 10_002, used := [100, 101, 1],
                  proofs := [P1, P2], expected := Some(Expected(Noop, Some(1), 20)))

  const R3 := R2.(phase := AwaitingChallenge, generation := 4, proofDeadline := 10_003, used := [100, 101, 1, 2],
                  proofs := [P1, P2, P3], expected := Some(Expected(Challenge, Some(2), 21)), restoreRequired := true)

  /** The record after `n` further boots were bound. */
  function After(n: nat, r: Record): Record {
    r.(boot := n, generation := r.generation + n, lastRequestDeadline := 1_000 + n)
  }

  lemma RunOneMore(events: seq<Event>, e: Event)
    ensures Run(ARMED, events + [e]) == Step(Run(ARMED, events), e)
  {
    assert (events + [e])[..|events|] == events;
  }

  lemma ArmedExample()
    ensures Armed(ARMED)
  {
    assert Arm(0, 0, 1_000, 900_000, 20, 19, 20, 0) == Some(ARMED);
  }

  /* ---------- the first three proofs ---------- */

  lemma Valid1(n: nat)
    requires n < 60
    ensures Valid(After(n, R1))
  {
    assert Purposes(R1.proofs) == UP_TO_1;
  }

  lemma Valid2(n: nat)
    requires n < 60
    ensures Valid(After(n, R2))
  {
    assert Purposes(R2.proofs) == UP_TO_2;
  }

  lemma Collections3(n: nat)
    ensures CollectionsOk(After(n, R3))
  {
    assert NoRepeats(R3.consumed) && NoRepeats(R3.used);
  }

  lemma Valid3(n: nat)
    requires n < 60
    ensures Valid(After(n, R3))
  {
    hide CollectionsOk;
    Collections3(n);
    assert Purposes(R3.proofs) == UP_TO_NOOP;
  }

  lemma Example1(n: nat)
    requires n < 60
    ensures Next(After(n, ARMED), Prove(P1, 1, None)) == Some(After(n, R1))
  {
    hide Valid;
    Valid1(n);
    assert ARMED.proofs + [P1] == R1.proofs && ARMED.used + [100] == R1.used;
  }

  lemma Example2(n: nat)
    requires n < 60
    ensures Next(After(n, R1), Prove(P2, 2, Some(1))) == Some(After(n, R2))
  {
    hide Valid;
    Valid2(n);
    assert R1.proofs + [P2] == R2.proofs && R1.used + [101] + [1] == R2.used;
  }

  lemma Example3(n: nat)
    requires n < 60
    ensures Next(After(n, R2), Prove(P3, 3, Some(2))) == Some(After(n, R3))
  {
    hide Valid;
    Valid3(n);
    assert R2.proofs + [P3] == R3.proofs && R2.used + [2] == R3.used;
  }

  /* ---------- an explicit intent claims a result after remediation ---------- */

  const R4 := R3.(phase := RemediationRequired, generation := 5, proofDeadline := 0, expected := None,
                  failure := Some("dispatch_failed"))

  const R5 := R4.(phase := AwaitingRestore, generation := 6, proofDeadline := 10_005, used := [100, 101, 1, 2, 4],
                  attempts := 1, expected := Some(Expected(Restore, Some(4), 20)))

  const TO_REMEDIATION: seq<Event> := [
    Prove(P1, 1, None), Prove(P2, 2, Some(1)), Prove(P3, 3, Some(2)), Remediate("dispatch_failed", true)]

  const TO_RESULT: seq<Event> :=
    TO_REMEDIATION + [Begin(Some(4), Some("dispatch_failed"), 5, Some(false))] + [Prove(P5, 6, None)]

  lemma Example4()
    ensures Next(R3, Remediate("dispatch_failed", true)) == Some(R4)
  {
  }

  lemma Example5()
    ensures Next(R4, Begin(Some(4), Some("dispatch_failed"), 5, Some(false))) == Some(R5)
  {
    hide Valid;
    Example4();
    NextIsValid(R3, Remediate("dispatch_failed", true));
    assert R4.used + [4] == R5.used;
    assert Purposes(R4.proofs) == UP_TO_NOOP;
    RestoreExactlyWhen(R4, 4, Some("dispatch_failed"), 5, Some(false));
  }

  const R6 := R5.(phase := ResultPendingAck, generation := 7, proofDeadline := 0, restoreRequired := false,
                  proofs := [P1, P2, P3, P5], expected := None, outcome := Some(FailedRestored),
                  resultId := Some(ResultId(20, 21, [P1, P2, P3, P5], Some(FailedRestored), Some("dispatch_failed"))),
                  resultNotBefore := 2_006)

  lemma Collections6()
    ensures CollectionsOk(R6)
  {
    assert NoRepeats(R6.consumed) && NoRepeats(R6.used);
  }

  lemma Valid6()
    ensures Valid(R6)
  {
    hide CollectionsOk;
    Collections6();
    assert Purposes(R6.proofs) == UNCHALLENGED;
  }

  lemma Example6()
    ensures Next(R5, Prove(P5, 6, None)) == Some(R6)
  {
    hide Valid;
    Valid6();
    assert R5.proofs + [P5] == R6.proofs;
  }

  /** Begun explicitly without remediation intent, a restore after remediation can still end in a result. */
  lemma ExplicitIntentCanClaim()
    ensures Armed(ARMED)
    ensures Run(ARMED, TO_REMEDIATION).record.phase == RemediationRequired
    ensures Run(ARMED, TO_RESULT).record.outcome == Some(FailedRestored)
    ensures Run(ARMED, TO_RESULT).record.resultId.Some?
  {
    hide Next, Armed;
    ArmedExample();
    ThreeProofs(0, []);
    assert [] + THREE == THREE && After(0, R3) == R3;
    Example4();
    RunOneMore(THREE, Remediate("dispatch_failed", true));
    assert THREE + [Remediate("dispatch_failed", true)] == TO_REMEDIATION;
    Example5();
    RunOneMore(TO_REMEDIATION, Begin(Some(4), Some("dispatch_failed"), 5, Some(false)));
    Example6();
    RunOneMore(TO_REMEDIATION + [Begin(Some(4), Some("dispatch_failed"), 5, Some(false))], Prove(P5, 6, None));
  }

  const THREE: seq<Event> := [Prove(P1, 1, None), Prove(P2, 2, Some(1)), Prove(P3, 3, Some(2))]

  lemma ThreeProofs(n: nat, before: seq<Event>)
    requires n < 60 && Run(ARMED, before) == History(After(n, ARMED), [])
    ensures Run(ARMED, before + THREE).record == After(n, R3)
  {
    hide Next;
    Example1(n);
    RunOneMore(before, THREE[0]);
    Example2(n);
    RunOneMore(before + THREE[..1], THREE[1]);
    assert before + THREE[..1] + [THREE[1]] == before + THREE[..2];
    Example3(n);
    RunOneMore(before + THREE[..2], THREE[2]);
    assert before + THREE[..2] + [THREE[2]] == before + THREE;
  }

  /* ---------- a verified result that nothing can acknowledge ---------- */

  /** The probe is bound to `n` fresh boots, one after the other. */
  function Rebinds(n: nat): seq<Event> {
    if n == 0 then [] else Rebinds(n - 1) + [Rebind(n, 0, 1_000 + n, 0, None)]
  }

  lemma Rebound(n: nat)
    requires 0 < n < 60
    ensures Next(After(n - 1, ARMED), Rebind(n, 0, 1_000 + n, 0, None)) == Some(After(n, ARMED))
  {
  }

  lemma {:induction false} RebindsRun(n: nat)
    requires n < 60
    ensures Run(ARMED, Rebinds(n)) == History(After(n, ARMED), [])
  {
    hide Next;
    if n == 0 {
    } else {
      RebindsRun(n - 1);
      Rebound(n);
      RunOneMore(Rebinds(n - 1), Rebind(n, 0, 1_000 + n, 0, None));
    }
  }

  const V4 := R3.(phase := AwaitingRestore, generation := 5, proofDeadline := 10_004, used := [100, 101, 1, 2, 4],
                  proofs := [P1, P2, P3, P4], attempts := 1, expected := Some(Expected(Restore, Some(4), 20)))

  lemma Collections4(n: nat)
    ensures CollectionsOk(After(n, V4))
  {
    assert NoRepeats(V4.consumed) && NoRepeats(V4.used);
  }

  lemma Valid4(n: nat)
    requires n < 60
    ensures Valid(After(n, V4))
  {
    hide CollectionsOk;
    Collections4(n);
    assert Purposes(V4.proofs) == UP_TO_CHALLENGE;
  }

  lemma Verified4(n: nat)
    requires n < 60
    ensures Next(After(n, R3), Prove(P4, 4, Some(4))) == Some(After(n, V4))
  {
    hide Valid;
    Valid4(n);
    assert R3.proofs + [P4] == V4.proofs && R3.used + [4] == V4.used;
  }

  const V5 := V4.(phase := ResultPendingAck, generation := 6, proofDeadline := 0, restoreRequired := false,
                  proofs := [P1, P2, P3, P4, P5], expected := None, outcome := Some(Verified),
                  resultId := Some(ResultId(20, 21, [P1, P2, P3, P4, P5], Some(Verified), None)),
                  resultNotBefore := 2_005)

  lemma Collections5(n: nat)
    ensures CollectionsOk(After(n, V5))
  {
    assert NoRepeats(V5.consumed) && NoRepeats(V5.used);
  }

  lemma Valid5(n: nat)
    requires n < 59
    ensures Valid(After(n, V5))
  {
    hide CollectionsOk;
    Collections5(n);
    assert Purposes(V5.proofs) == COMPLETE;
  }

  lemma Verified5(n: nat)
    requires n < 59
    ensures Next(After(n, V4), Prove(P5, 5, None)) == Some(After(n, V5))
  {
    hide Valid;
    Valid5(n);
    assert V4.proofs + [P5] == V5.proofs;
  }

  const TO_VERIFIED: seq<Event> := THREE + [Prove(P4, 4, Some(4))] + [Prove(P5, 5, None)]

  lemma VerifiedAfter(n: nat)
    requires n < 59
    ensures Run(ARMED, Rebinds(n) + TO_VERIFIED).record == After(n, V5)
  {
    hide Next;
    var before := Rebinds(n);
    RebindsRun(n);
    ThreeProofs(n, before);
    Verified4(n);
    RunOneMore(before + THREE, Prove(P4, 4, Some(4)));
    Verified5(n);
    RunOneMore(before + THREE + [Prove(P4, 4, Some(4))], Prove(P5, 5, None));
    assert before + TO_VERIFIED == before + THREE + [Prove(P4, 4, Some(4))] + [Prove(P5, 5, None)];
  }

  /**
   * Bound to 58 fresh boots first, a probe still collects its five proofs and reports itself verified, at the
   * generation cap, where no acknowledgement is accepted: clean-up stays forbidden for good.
   */
  lemma VerifiedAtTheCapCannotBeAcknowledged()
    ensures Armed(ARMED)
    ensures var r := Run(ARMED, Rebinds(58) + TO_VERIFIED).record;
            && r.outcome == Some(Verified) && r.generation == MAX_GENERATION
            && forall boot, request, requestDeadline, result, now ::
                 Acknowledge(r, boot, request, requestDeadline, result, now) == None
  {
    hide Armed, Valid, Run;
    ArmedExample();
    VerifiedAfter(58);
  }

  /** One boot fewer, and the same result can be acknowledged. */
  lemma VerifiedBelowTheCapCanBeAcknowledged()
    ensures var r := Run(ARMED, Rebinds(57) + TO_VERIFIED).record; r.outcome == Some(Verified) && SomeAcknowledgement(r)
  {
    hide Valid, Run;
    VerifiedAfter(57);
    Valid5(57);
    AcknowledgeableExactlyWhen(After(57, V5));
  }
}
