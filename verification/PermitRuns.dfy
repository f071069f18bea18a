/**
 * Runs of the permit-join client against a log of every bridge/state and bridge/info message, and
 * the client as an object.
 */
module PermitRuns {
  import opened Basics
  import opened PermitClient

  /**
   * An open that passed the baseline, or a close that was acknowledged and then proved.  Generations
   * start again with every subscription, so a mark says which one it belongs to.
   */
  datatype Mark = Opened(subscription: nat, generation: nat) | ClosedBy(subscription: nat, request: nat, proof: nat)

  /**
   * `log` lists all messages since the last shutdown, the one of generation g at g - 1; `marks` goes
   * back to the beginning.
   */
  datatype Sys = Sys(client: Client, log: seq<Message>, marks: seq<Mark>, subscription: nat)

  datatype Event =
    | Deliver(m: Message, mono: int)
    | Respond(r: Response, mono: int)
    | FinishSetup
    | StartOpen(transaction: Transaction, seconds: int, wall: int, mono: int)
    | PollOpen
    | StartClose(transaction: Transaction)
    | PollClose
    | Abort
    | Shutdown

  const INITIAL := Sys(FRESH, [], [], 0)

  function CloseMark(s: Sys): Mark
    requires s.client.op.Closing? && s.client.permit.Some?
  {
    ClosedBy(s.subscription, s.client.op.request, s.client.permit.value.generation)
  }

  function PollCloseStep(s: Sys): Sys {
    var c := s.client;
    if c.op.WaitingToClose? then s.(client := BeginClose(c.(op := Idle), c.op.transaction))
    else if !c.op.Closing? || !c.op.acked then s
    else
      match CloseVerdict(c)
      case Continue => s
      case Failure => s.(client := Failed(c))
      case Success =>
        if c.permit == None then s
        else s.(client := FinishClose(c), marks := s.marks + [CloseMark(s)])
  }

  function PollOpenStep(s: Sys): Sys {
    if s.client.op.Opening? && s.client.op.acked && !OpenVerdict(s.client).Continue?
    then s.(client := s.client.(op := Idle)) else s
  }

  /** One event; one that is not enabled changes nothing. */
  function Step(s: Sys, e: Event): Sys {
    match e
    case Deliver(m, mono) => s.(client := OnMessage(s.client, m, mono), log := s.log + [m])
    case Respond(r, mono) => s.(client := OnResponse(s.client, r, mono))
    case FinishSetup =>
      if s.client.subscribed then s
      else s.(client := s.client.(subscribed := true, setupGeneration := s.client.generation))
    case StartOpen(transaction, seconds, wall, mono) =>
      if MayOpen(s.client, seconds, mono)
      then s.(client := BeginOpen(s.client, transaction, seconds, wall, mono),
              marks := s.marks + [Opened(s.subscription, s.client.generation)])
      else s
    case PollOpen => PollOpenStep(s)
    case StartClose(transaction) =>
      if s.client.op == Idle && s.client.subscribed then s.(client := BeginClose(s.client, transaction)) else s
    case PollClose => PollCloseStep(s)
    case Abort => s.(client := Failed(s.client))
    case Shutdown => Sys(FRESH, [], s.marks, s.subscription + 1)
  }

  function Run(events: seq<Event>): Sys {
    if events == [] then INITIAL else Step(Run(events[..|events| - 1]), events[|events| - 1])
  }

  /* ---------- the invariant ---------- */

  /** A well-formed bridge/info that says closed and is not retained. */
  predicate SaysClosed(m: Message) {
    m.InfoMessage? && WellFormed(m) && !m.open.value && !m.retained
  }

  predicate LiveInfo(m: Message) {
    m.InfoMessage? && WellFormed(m) && !m.retained
  }

  /** From generation `from` on, that one included, the log holds nothing but closed states. */
  ghost predicate ClosedSince(log: seq<Message>, from: nat) {
    0 < from <= |log| && forall g: nat :: from <= g + 1 && g < |log| ==> SaysClosed(log[g])
  }

  /** After generation `from` the log holds nothing but live, well-formed bridge/info. */
  ghost predicate LiveAfter(log: seq<Message>, from: nat) {
    from <= |log| && forall g: nat :: from <= g < |log| ==> LiveInfo(log[g])
  }

  /** The permit repeats the message of its generation, the latest bridge/info in the log. */
  predicate PermitOf(log: seq<Message>, p: Permit) {
    && 0 < p.generation <= |log|
    && var m := log[p.generation - 1];
       m.InfoMessage? && WellFormed(m) && m.open.value == p.open && m.end == p.end && m.retained == p.retained
       && m.wall == p.wall
  }

  /** What is attributed to an open request arrived after it and fits it. */
  ghost predicate AttributionOk(log: seq<Message>, a: Attribution) {
    && a.request <= |log| && LiveAfter(log, a.request)
    && (a.provisional.Some? ==>
          PermitOf(log, a.provisional.value) && a.provisional.value.generation > a.request && a.provisional.value.open)
    && (a.infoGeneration > 0 ==>
         a.acknowledged && a.request < a.infoGeneration <= |log| && Attributable(a, log[a.infoGeneration - 1]))
  }

  /** An open state, live, observed after the request, that ends when the request said. */
  predicate Attributable(a: Attribution, m: Message) {
    && LiveInfo(m) && m.open.value && m.wall >= a.startedWall
    && m.end.Some? && -END_SKEW <= m.end.value - a.expectedEnd <= END_SKEW
  }

  ghost predicate MarksOk(marks: seq<Mark>) {
    forall j: nat :: j < |marks| && marks[j].Opened? ==> AfterClose(marks, j)
  }

  /** Right before this open there is a proved close of its subscription, requested after all its earlier opens. */
  ghost predicate AfterClose(marks: seq<Mark>, j: nat)
    requires j < |marks| && marks[j].Opened?
  {
    && j > 0 && marks[j - 1].ClosedBy? && marks[j - 1].subscription == marks[j].subscription
    && marks[j - 1].request < marks[j - 1].proof <= marks[j].generation
    && OpensBefore(marks[..j], marks[j].subscription, marks[j - 1].request)
  }

  ghost predicate OpensBefore(marks: seq<Mark>, subscription: nat, generation: nat) {
    forall i: nat :: i < |marks| && marks[i].Opened? && marks[i].subscription == subscription ==>
      marks[i].generation <= generation
  }

  ghost predicate TagsOk(marks: seq<Mark>, subscription: nat) {
    forall i: nat :: i < |marks| ==> marks[i].subscription <= subscription
  }

  ghost predicate ClosedOk(s: Sys) {
    var c := s.client;
    c.closedProof > 0 ==>
      && c.online == Some(true) && c.infoSeen && c.permit.Some? && ClosedSince(s.log, c.closedProof)
      && c.permit.value.generation == |s.log| && c.closedProof > c.setupGeneration && c.subscribed
      && s.marks != [] && var last := s.marks[|s.marks| - 1];
         && last.ClosedBy? && last.subscription == s.subscription && last.proof == c.closedProof
         && last.request < last.proof && OpensBefore(s.marks, s.subscription, last.request)
  }

  ghost predicate Counted(s: Sys) {
    var c := s.client;
    && |s.log| == c.generation
    && c.setupGeneration <= c.generation && c.unsafeGeneration <= c.generation
    && (c.permit.Some? ==> PermitOf(s.log, c.permit.value) && c.infoSeen)
  }

  ghost predicate OpenOk(s: Sys) {
    var c := s.client;
    c.open.Some? ==>
      c.online == Some(true) && c.infoSeen && c.closedProof == 0 && AttributionOk(s.log, c.open.value)
  }

  /**
   * While no message was unsafe since the close request, only live bridge/info came, the latest of which
   * is the permit.
   */
  ghost predicate ClosingOk(s: Sys) {
    var c := s.client;
    && (c.activeClose.Some? ==> c.op.Closing?)
    && (c.op.WaitingToClose? ==> c.subscribed)
    && (c.op.Closing? ==>
          && c.activeClose == Some(c.op.request) && c.setupGeneration <= c.op.request <= c.generation
          && c.subscribed && OpensBefore(s.marks, s.subscription, c.op.request)
          && (c.unsafeGeneration <= c.op.request ==>
                && c.online == Some(true) && LiveAfter(s.log, c.op.request)
                && (|s.log| > c.op.request ==> c.permit.Some? && c.permit.value.generation == |s.log|)))
  }

  ghost predicate OpeningOk(s: Sys) {
    var c := s.client;
    c.op.Opening? ==>
      && c.op.request <= c.generation
      && (c.open.Some? ==> c.open.value.request == c.op.request && c.open.value.transaction == c.op.transaction)
      && (c.open == None ==> c.unsafeGeneration > c.op.request)
  }

  ghost predicate Sound(s: Sys) {
    && Counted(s) && ClosedOk(s) && OpenOk(s) && ClosingOk(s) && OpeningOk(s)
    && MarksOk(s.marks) && TagsOk(s.marks, s.subscription) && OpensBefore(s.marks, s.subscription, s.client.generation)
  }

  /* ---------- what classifying changes ---------- */

  /** Only the attribution and the count of unattributed opens change. */
  predicate SameBut(c: Client, c': Client) {
    c' == c.(open := c'.open, unattributedGeneration := c'.unattributedGeneration)
  }

  /** The same request; its evidence is old, dropped, or the current permit. */
  predicate Evidence(a: Attribution, a': Attribution, p: Permit, mono: int) {
    && a' == a.(provisional := a'.provisional, infoGeneration := a'.infoGeneration)
    && (a'.provisional == None || a'.provisional == a.provisional
        || (a'.provisional == Some(p) && p.generation > a.request && p.open))
    && (a'.infoGeneration == a.infoGeneration
        || (a.acknowledged && a'.infoGeneration == p.generation && ValidCandidate(a, p, mono) && p.open))
  }

  lemma ClassifyEffect(c: Client, mono: int)
    ensures SameBut(c, Classify(c, mono))
    ensures c.open == None ==> Classify(c, mono).open == None
    ensures c.open.Some? ==>
              (Classify(c, mono).open.Some?
               && (c.permit == None ==> Classify(c, mono) == c)
               && (c.permit.Some? ==> Evidence(c.open.value, Classify(c, mono).open.value, c.permit.value, mono)))
  {
  }

  /** Evidence that repeats the log keeps the attribution sound. */
  lemma EvidenceOk(log: seq<Message>, a: Attribution, a': Attribution, p: Permit, mono: int)
    requires AttributionOk(log, a) && Evidence(a, a', p, mono) && PermitOf(log, p)
    ensures AttributionOk(log, a')
  {
  }

  lemma AttributionGrows(log: seq<Message>, a: Attribution, m: Message)
    requires AttributionOk(log, a) && LiveInfo(m)
    ensures AttributionOk(log + [m], a)
  {
  }

  lemma ClassifyKeepsSound(s: Sys, mono: int)
    requires Sound(s)
    ensures Sound(s.(client := Classify(s.client, mono)))
  {
    hide Classify, AttributionOk, MarksOk, OpensBefore, PermitOf, ClosedSince, LiveAfter;
    ClassifyEffect(s.client, mono);
    var c, c' := s.client, Classify(s.client, mono);
    if c.open.Some? && c.permit.Some? {
      EvidenceOk(s.log, c.open.value, c'.open.value, c.permit.value, mono);
    }
  }

  /* ---------- every step keeps it ---------- */

  lemma PermitStays(log: seq<Message>, p: Permit, m: Message)
    requires PermitOf(log, p)
    ensures PermitOf(log + [m], p)
  {
  }

  /** A message that was marked unsafe leaves no proof and no attribution. */
  lemma UnsafeKeepsSound(s: Sys, m: Message, c': Client)
    requires Sound(s) && c' == Unsafe(c') && c'.generation == s.client.generation + 1
    requires c'.setupGeneration == s.client.setupGeneration && c'.subscribed == s.client.subscribed
    requires c'.op == s.client.op && c'.activeClose == s.client.activeClose
    requires c'.permit.Some? ==> PermitOf(s.log + [m], c'.permit.value) && c'.infoSeen
    ensures Sound(Sys(c', s.log + [m], s.marks, s.subscription))
  {
    hide PermitOf, MarksOk, ClosedSince, LiveAfter;
  }

  lemma StateKeepsSound(s: Sys, online: Option<bool>, mono: int)
    requires Sound(s)
    ensures Sound(Step(s, Deliver(StateMessage(online), mono)))
  {
    hide PermitOf, MarksOk, OpensBefore, ClosedSince, LiveAfter, AttributionOk, Classify;
    var m := StateMessage(online);
    var c := s.client;
    var log := s.log + [m];
    if c.permit.Some? {
      PermitStays(s.log, c.permit.value, m);
    }
    var next := c.(generation := c.generation + 1);
    MarksWithin(s.marks, s.subscription, c.generation, c.generation + 1);
    if online == None {
      UnsafeKeepsSound(s, m, Unsafe(next.(online := None, stateInvalid := true)));
    } else {
      var seen := next.(online := online, stateInvalid := false);
      if online.value && c.online != Some(true) {
        assert c.closedProof == 0 && c.open == None;
        ClassifyKeepsSound(Sys(seen, log, s.marks, s.subscription), mono);
      } else {
        UnsafeKeepsSound(s, m, Unsafe(seen));
        ClassifyKeepsSound(Sys(Unsafe(seen), log, s.marks, s.subscription), mono);
      }
    }
  }

  lemma MarksWithin(marks: seq<Mark>, subscription: nat, g: nat, g': nat)
    requires OpensBefore(marks, subscription, g) && g <= g'
    ensures OpensBefore(marks, subscription, g')
  {
  }

  /** The client after a bridge/info that was not unsafe, before it is classified. */
  function Observed(c: Client, m: Message, mono: int): Client
    requires m.InfoMessage? && WellFormed(m)
  {
    c.(generation := c.generation + 1, infoSeen := true,
       permit := Some(Permit(m.open.value, m.end, m.retained, m.retained && !c.infoSeen, c.generation + 1, m.wall,
                             mono)),
       closedProof := if m.open.value then 0 else c.closedProof)
  }

  lemma ClosedGrows(log: seq<Message>, from: nat, m: Message)
    requires ClosedSince(log, from) && SaysClosed(m)
    ensures ClosedSince(log + [m], from)
  {
  }

  lemma LiveGrows(log: seq<Message>, from: nat, m: Message)
    requires LiveAfter(log, from) && LiveInfo(m)
    ensures LiveAfter(log + [m], from)
  {
  }

  lemma ObservedKeepsSound(s: Sys, m: Message, mono: int)
    requires Sound(s) && m.InfoMessage? && WellFormed(m)
    requires m.retained ==> !s.client.infoSeen && s.client.activeClose == None
    ensures Sound(Sys(Observed(s.client, m, mono), s.log + [m], s.marks, s.subscription))
  {
    hide MarksOk, OpensBefore, ClosedSince, LiveAfter, AttributionOk;
    var c := s.client;
    MarksWithin(s.marks, s.subscription, c.generation, c.generation + 1);
    if c.closedProof > 0 && !m.open.value {
      ClosedGrows(s.log, c.closedProof, m);
    }
    if c.open.Some? {
      AttributionGrows(s.log, c.open.value, m);
    }
    if c.op.Closing? && c.unsafeGeneration <= c.op.request {
      LiveGrows(s.log, c.op.request, m);
    }
  }

  lemma InfoKeepsSound(s: Sys, m: Message, mono: int)
    requires Sound(s) && m.InfoMessage?
    ensures Sound(Step(s, Deliver(m, mono)))
  {
    hide MarksOk, OpensBefore, ClosedSince, LiveAfter, AttributionOk, Classify, ClosedOk, OpenOk, ClosingOk, OpeningOk;
    var c := s.client;
    var next := c.(generation := c.generation + 1, infoSeen := true);
    if !WellFormed(m) {
      UnsafeKeepsSound(s, m, Unsafe(next.(permit := None)));
    } else if m.retained && (c.infoSeen || c.activeClose.Some?) {
      UnsafeKeepsSound(s, m, Unsafe(Observed(c, m, mono)));
    } else {
      ObservedKeepsSound(s, m, mono);
      ClassifyKeepsSound(Sys(Observed(c, m, mono), s.log + [m], s.marks, s.subscription), mono);
    }
  }

  lemma RejectedOk(log: seq<Message>, a: Attribution)
    requires AttributionOk(log, a)
    ensures AttributionOk(log, a.(provisional := None))
    ensures AttributionOk(log, a.(provisional := None, acknowledged := true))
            && AttributionOk(log, a.(acknowledged := true))
  {
  }

  lemma CommittedOk(log: seq<Message>, a: Attribution, mono: int)
    requires AttributionOk(log, a) && a.provisional.Some? && a.provisional.value.open
             && ValidCandidate(a, a.provisional.value, mono)
    ensures AttributionOk(log,
                          a.(acknowledged := true, provisional := None,
                             infoGeneration := a.provisional.value.generation))
  {
  }

  lemma RejectProvisionalKeepsSound(s: Sys)
    requires Sound(s)
    ensures Sound(s.(client := RejectProvisional(s.client)))
  {
    hide MarksOk, OpensBefore, PermitOf, ClosedSince, AttributionOk;
    if s.client.open.Some? {
      RejectedOk(s.log, s.client.open.value);
    }
  }

  lemma FailedKeepsSound(s: Sys)
    requires Sound(s)
    ensures Sound(s.(client := Failed(s.client)))
  {
    hide MarksOk, OpensBefore, PermitOf, ClosedSince, AttributionOk;
  }

  lemma CommitKeepsSound(s: Sys, mono: int)
    requires Sound(s) && s.client.open.Some?
    ensures Sound(s.(client := Commit(s.client, s.client.open.value, mono)))
  {
    hide MarksOk, OpensBefore, PermitOf, ClosedSince, AttributionOk, ValidCandidate;
    var a := s.client.open.value;
    RejectedOk(s.log, a);
    ProvisionalIsOpen(s.log, a);
    if a.provisional.Some? && ValidCandidate(a, a.provisional.value, mono) {
      CommittedOk(s.log, a, mono);
    }
  }

  lemma ProvisionalIsOpen(log: seq<Message>, a: Attribution)
    requires AttributionOk(log, a)
    ensures a.provisional.Some? ==> a.provisional.value.open
  {
  }

  lemma ResponseKeepsSound(s: Sys, r: Response, mono: int)
    requires Sound(s)
    ensures Sound(Step(s, Respond(r, mono)))
  {
    hide Counted, ClosedOk, OpenOk, MarksOk, OpensBefore, RejectProvisional, Commit;
    var c := s.client;
    RejectProvisionalKeepsSound(s);
    FailedKeepsSound(s);
    FailedKeepsSound(s.(client := RejectProvisional(c)));
    if c.op.Opening? && c.open.Some? {
      var acked := s.(client := c.(op := Opening(c.op.transaction, c.op.seconds, c.op.request, true)));
      AckKeepsSound(s, acked);
      CommitKeepsSound(acked, mono);
    } else if c.op.Closing? {
      AckKeepsSound(s, s.(client := c.(op := Closing(c.op.transaction, c.op.request, true))));
    }
  }

  lemma AckKeepsSound(s: Sys, s': Sys)
    requires Sound(s) && s' == s.(client := s.client.(op := s'.client.op))
    requires (s.client.op.Opening? && s'.client.op.Opening?) || (s.client.op.Closing? && s'.client.op.Closing?)
    requires s'.client.op.transaction == s.client.op.transaction && s'.client.op.request == s.client.op.request
    ensures Sound(s')
  {
    hide MarksOk, OpensBefore, PermitOf, ClosedSince, AttributionOk, LiveAfter;
  }

  lemma OpenKeepsSound(s: Sys, e: Event)
    requires Sound(s) && (e.StartOpen? || e.PollOpen?)
    ensures Sound(Step(s, e))
  {
  }

  lemma FinishKeepsSound(s: Sys)
    requires Sound(s) && s.client.op.Closing? && CloseVerdict(s.client) == Success
    ensures s.client.permit.Some? && Sound(PollCloseFinish(s))
  {
  }

  /** The proved close, recorded. */
  function PollCloseFinish(s: Sys): Sys
    requires s.client.op.Closing? && s.client.permit.Some?
  {
    s.(client := FinishClose(s.client), marks := s.marks + [CloseMark(s)])
  }

  lemma CloseKeepsSound(s: Sys, e: Event)
    requires Sound(s) && (e.StartClose? || e.PollClose?)
    ensures Sound(Step(s, e))
  {
    hide MarksOk, ClosedSince, PermitOf, OpenOk, ClosedOk;
    FailedKeepsSound(s);
    if e.PollClose? && s.client.op.Closing? {
      if CloseVerdict(s.client) == Success {
        FinishKeepsSound(s);
      }
    } else {
      BeginKeepsSound(s,
                      if e.StartClose? then e.transaction
                      else if s.client.op.WaitingToClose? then s.client.op.transaction else 0);
    }
  }

  lemma BeginKeepsSound(s: Sys, transaction: Transaction)
    requires Sound(s)
    ensures s.client.subscribed && (s.client.op.Idle? || s.client.op.WaitingToClose?) ==>
              Sound(s.(client := BeginClose(s.client.(op := Idle), transaction)))
  {
    hide MarksOk, ClosedSince, PermitOf;
  }

  lemma OtherKeepsSound(s: Sys, e: Event)
    requires Sound(s) && (e.FinishSetup? || e.Abort? || e.Shutdown?)
    ensures Sound(Step(s, e))
  {
  }

  lemma {:induction false} RunSound(events: seq<Event>)
    ensures Sound(Run(events))
  {
    hide Sound, Step;
    if events == [] {
      InitialSound();
    } else {
      var s, e := Run(events[..|events| - 1]), events[|events| - 1];
      RunSound(events[..|events| - 1]);
      match e
      case Deliver(StateMessage(online), mono) => StateKeepsSound(s, online, mono);
      case Deliver(InfoMessage(_, _, _, _), mono) => InfoKeepsSound(s, e.m, mono);
      case Respond(r, mono) => ResponseKeepsSound(s, r, mono);
      case StartOpen(_, _, _, _) => OpenKeepsSound(s, e);
      case PollOpen => OpenKeepsSound(s, e);
      case StartClose(_) => CloseKeepsSound(s, e);
      case PollClose => CloseKeepsSound(s, e);
      case _ => OtherKeepsSound(s, e);
    }
  }

  lemma InitialSound()
    ensures Sound(INITIAL)
  {
  }

  /* ---------- what every run guarantees ---------- */

  /**
   * While there is a closed proof, the bridge is online, and from the proof's message on there were
   * only well-formed, closed, unretained bridge/info messages, and no bridge/state at all.
   */
  lemma ProofMeansClosed(events: seq<Event>)
    requires Run(events).client.closedProof > 0
    ensures var s := Run(events);
            && s.client.online == Some(true) && s.client.closedProof <= |s.log|
            && forall g: nat :: s.client.closedProof <= g + 1 && g < |s.log| ==> SaysClosed(s.log[g])
  {
    hide Step;
    RunSound(events);
  }

  /** Of all the baseline's conditions only the proof and its age decide; the others follow. */
  lemma BaselineExactlyWhen(events: seq<Event>, mono: int)
    ensures var c := Run(events).client;
            Baseline(c, mono) <==> c.closedProof > 0 && c.permit.Some? && mono - c.permit.value.mono <= BASELINE_MAX_AGE
  {
    hide Step;
    RunSound(events);
    var s := Run(events);
    if s.client.closedProof > 0 {
      assert SaysClosed(s.log[|s.log| - 1]);
    }
  }

  /**
   * Every open that passed the baseline comes directly after a close of the same subscription that was
   * acknowledged, then proved by bridge/info newer than its request, before the open was requested: also
   * the first open, and the first after a shutdown.
   */
  lemma EveryOpenFollowsAClose(events: seq<Event>, j: nat)
    requires j < |Run(events).marks| && Run(events).marks[j].Opened?
    ensures var marks := Run(events).marks;
            && j > 0 && marks[j - 1].ClosedBy? && marks[j - 1].subscription == marks[j].subscription
            && marks[j - 1].request < marks[j - 1].proof <= marks[j].generation
  {
    hide Step;
    RunSound(events);
    assert AfterClose(Run(events).marks, j);
  }

  /**
   * Any two opens that passed the baseline are separated by a close that was acknowledged and then
   * proved by newer bridge/info; within one subscription it was requested no earlier than the first open.
   */
  lemma OpensAreSeparated(events: seq<Event>, i: nat, j: nat)
    requires var marks := Run(events).marks;
             i < j < |marks| && marks[i].Opened? && marks[j].Opened?
    ensures var marks := Run(events).marks;
            exists k: nat ::
              && i < k < j && marks[k].ClosedBy? && marks[k].subscription == marks[j].subscription
              && marks[k].request < marks[k].proof
              && (marks[i].subscription == marks[j].subscription ==> marks[i].generation <= marks[k].request)
  {
    hide Step;
    RunSound(events);
    assert AfterClose(Run(events).marks, j);
    assert Run(events).marks[..j][i] == Run(events).marks[i];
  }

  /** A close is only recorded once acknowledged, with the state that proves it newer than its request. */
  lemma CloseIsAcknowledged(events: seq<Event>, e: Event)
    requires var s, s' := Run(events), Step(Run(events), e);
             |s'.marks| > |s.marks| && s'.marks[|s.marks|].ClosedBy?
    ensures var s := Run(events);
            && e == PollClose && s.client.op.Closing? && s.client.op.acked
            && s.client.op.request < |s.log| && SaysClosed(s.log[|s.log| - 1]) && LiveAfter(s.log, s.client.op.request)
  {
    hide Sound, Step, CloseVerdict, LiveAfter;
    RunSound(events);
    OnlyPollCloses(Run(events), e);
    ClosedByMeans(Run(events));
  }

  lemma OnlyPollCloses(s: Sys, e: Event)
    requires |Step(s, e).marks| > |s.marks| && Step(s, e).marks[|s.marks|].ClosedBy?
    ensures e == PollClose && s.client.op.Closing? && s.client.op.acked && CloseVerdict(s.client) == Success
  {
  }

  lemma ClosedByMeans(s: Sys)
    requires Sound(s)
    ensures s.client.op.Closing? && CloseVerdict(s.client) == Success ==>
              (s.client.op.request < |s.log| && SaysClosed(s.log[|s.log| - 1]) && LiveAfter(s.log, s.client.op.request))
  {
    hide MarksOk, OpensBefore, ClosedSince, OpenOk, OpeningOk, ClosedOk;
  }

  /**
   * An open that succeeds was acknowledged, and a live bridge/info after its request says open,
   * ending when the request said; no bridge/state, malformed or retained message came since.
   */
  lemma OpenIsAttributed(events: seq<Event>)
    requires var c := Run(events).client;
             c.op.Opening? && c.op.acked && OpenVerdict(c) == Success
    ensures var s := Run(events);
            && s.client.open.Some? && var a := s.client.open.value;
               && a.transaction == s.client.op.transaction && a.acknowledged
               && a.request == s.client.op.request < a.infoGeneration <= |s.log|
               && Attributable(a, s.log[a.infoGeneration - 1]) && LiveAfter(s.log, a.request)
  {
    hide Step;
    RunSound(events);
  }
}
