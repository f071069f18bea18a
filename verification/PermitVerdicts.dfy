/**
 * What the verdicts of open and close requests mean in terms of the messages received since the
 * request: which messages make one fail, and that an undisturbed request succeeds.
 */
module PermitVerdicts {
  import opened Basics
  import opened PermitClient
  import opened PermitRuns

  /* ---------- one more invariant ---------- */

  /** The last unsafe message was a bridge/state, malformed or retained. */
  predicate UnsafeOk(s: Sys) {
    s.client.unsafeGeneration > 0 ==>
      s.client.unsafeGeneration <= |s.log| && !LiveInfo(s.log[s.client.unsafeGeneration - 1])
  }

  /** A bridge/info that says open. */
  predicate SaysOpen(m: Message) {
    m.InfoMessage? && WellFormed(m) && m.open.value
  }

  /** The open state is what is held provisionally, or was attributed to the request. */
  predicate Ours(log: seq<Message>, a: Attribution, g: nat)
    requires g < |log|
  {
    || (a.provisional.Some? && a.provisional.value.generation == g + 1)
    || (a.acknowledged && a.infoGeneration > a.request && Attributable(a, log[g]))
  }

  /** While nothing foreign was seen since the request, every open state since then is ours. */
  ghost predicate NoneForeign(log: seq<Message>, a: Attribution) {
    && (a.acknowledged ==> a.provisional == None)
    && forall g: nat :: a.request <= g < |log| && SaysOpen(log[g]) ==> Ours(log, a, g)
  }

  ghost predicate Attributed(s: Sys) {
    var c := s.client;
    c.open.Some? ==>
      && (c.open.value.acknowledged ==> c.open.value.provisional == None)
      && (c.op.Opening? && c.op.acked ==> c.open.value.acknowledged)
      && (c.unattributedGeneration <= c.open.value.request ==> NoneForeign(s.log, c.open.value))
  }

  ghost predicate Told(s: Sys) {
    UnsafeOk(s) && Attributed(s) && s.client.unattributedGeneration <= s.client.generation
  }

  /** An open state is attributed, held provisionally, or makes the count of foreign ones reach it. */
  lemma ClassifyTells(c: Client, mono: int)
    requires c.open.Some? && c.permit.Some? && c.permit.value.generation > c.open.value.request
    requires c.open.value.acknowledged ==> c.open.value.provisional == None
    ensures var c', p := Classify(c, mono), c.permit.value;
            && c'.open.Some? && c'.open.value.request == c.open.value.request
            && (c'.unattributedGeneration <= c.open.value.request ==>
                  && c.unattributedGeneration <= c.open.value.request
                  && Keeps(c.open.value, c'.open.value)
                  && (c.online == Some(true) && p.open ==> OursNow(c.open.value, c'.open.value, p, mono)))
            && (c'.open.value.acknowledged ==> c'.open.value.provisional == None)
            && c'.open.value.acknowledged == c.open.value.acknowledged
  {
  }

  /** What was held provisionally still is. */
  predicate Keeps(a: Attribution, a': Attribution) {
    && a' == a.(provisional := a'.provisional, infoGeneration := a'.infoGeneration)
    && (a.provisional.Some? ==> a'.provisional == a.provisional)
    && (a.infoGeneration > a.request ==> a'.infoGeneration > a.request)
  }

  predicate OursNow(a: Attribution, a': Attribution, p: Permit, mono: int) {
    || (a'.provisional.Some? && a'.provisional.value.generation == p.generation)
    || (a.acknowledged && a'.infoGeneration > a.request && ValidCandidate(a, p, mono))
  }

  lemma ClassifyIsLocal(c: Client, mono: int)
    ensures SameBut(c, Classify(c, mono))
    ensures c.open == None ==> Classify(c, mono).open == None
    ensures Classify(c, mono).unattributedGeneration == c.unattributedGeneration
            || (c.permit.Some? && Classify(c, mono).unattributedGeneration == c.permit.value.generation)
  {
  }

  /* ---------- every step keeps it ---------- */

  /** After a bridge/state no request is attributed any more. */
  lemma StateClears(s: Sys, online: Option<bool>, mono: int)
    requires Sound(s)
    ensures OnState(s.client, online, mono).open == None
    ensures OnState(s.client, online, mono).generation == s.client.generation + 1
    ensures OnState(s.client, online, mono).unsafeGeneration == s.client.unsafeGeneration
            || OnState(s.client, online, mono).unsafeGeneration == s.client.generation + 1
    ensures s.client.unattributedGeneration <= s.client.generation ==>
              OnState(s.client, online, mono).unattributedGeneration <= s.client.generation + 1
  {
    hide AttributionOk, ClosedOk, ClosingOk, OpeningOk, MarksOk, OpensBefore, PermitOf;
    PermitIsOlder(s);
  }

  lemma PermitIsOlder(s: Sys)
    requires Sound(s)
    ensures s.client.permit.Some? ==> s.client.permit.value.generation <= s.client.generation
    ensures s.client.open.Some? && s.client.open.value.provisional.Some? ==>
              s.client.open.value.provisional.value.generation <= s.client.generation
  {
    hide ClosedOk, ClosingOk, OpeningOk, MarksOk, OpensBefore, LiveAfter;
  }

  lemma UnsafeStays(s: Sys, m: Message, c': Client)
    requires Counted(s) && UnsafeOk(s)
    requires c'.unsafeGeneration == s.client.unsafeGeneration
             || (c'.unsafeGeneration == s.client.generation + 1 && !LiveInfo(m))
    ensures UnsafeOk(Sys(c', s.log + [m], s.marks, s.subscription))
  {
    hide PermitOf;
  }

  lemma StateKeepsTold(s: Sys, online: Option<bool>, mono: int)
    requires Sound(s) && Told(s)
    ensures Told(Step(s, Deliver(StateMessage(online), mono)))
  {
    hide Sound, OnState, NoneForeign;
    CountedOf(s);
    StateClears(s, online, mono);
    UnsafeStays(s, StateMessage(online), OnState(s.client, online, mono));
  }

  lemma CountedOf(s: Sys)
    requires Sound(s)
    ensures Counted(s)
  {
  }

  /** A permit that repeats the new message, classified. */
  lemma ObservedTells(s: Sys, m: Message, mono: int)
    requires Sound(s) && Told(s) && m.InfoMessage? && WellFormed(m) && !m.retained
    ensures Told(Sys(Classify(Observed(s.client, m, mono), mono), s.log + [m], s.marks, s.subscription))
  {
    hide Classify, ClosedOk, ClosingOk, OpeningOk, MarksOk, OpensBefore, PermitOf, NoneForeign, AttributionOk, Keeps,
      OursNow;
    var seen := Observed(s.client, m, mono);
    var c := Classify(seen, mono);
    ClassifyIsLocal(seen, mono);
    UnsafeStays(s, m, c);
    if s.client.open.Some? {
      RequestBefore(s.log, s.client.open.value);
      ClassifyTells(seen, mono);
      if c.unattributedGeneration <= s.client.open.value.request {
        OneMoreOurs(s.log, m, s.client.open.value, c.open.value, seen.permit.value, mono);
      }
    }
  }

  lemma RequestBefore(log: seq<Message>, a: Attribution)
    requires AttributionOk(log, a)
    ensures a.request <= |log|
  {
  }

  lemma OneMoreOurs(log: seq<Message>, m: Message, a: Attribution, a': Attribution, p: Permit, mono: int)
    requires NoneForeign(log, a) && Keeps(a, a') && a.request <= |log| && LiveInfo(m)
    requires a'.acknowledged ==> a'.provisional == None
    requires p.generation == |log| + 1 && p.open == m.open.value && p.end == m.end && p.wall == m.wall
    requires p.open ==> OursNow(a, a', p, mono)
    ensures NoneForeign(log + [m], a')
  {
    forall g: nat | a'.request <= g < |log + [m]| && SaysOpen((log + [m])[g]) ensures Ours(log + [m], a', g) {
      assert g < |log| ==> Ours(log, a, g);
    }
  }

  lemma InfoKeepsTold(s: Sys, m: Message, mono: int)
    requires Sound(s) && Told(s) && m.InfoMessage?
    ensures Told(Step(s, Deliver(m, mono)))
  {
    hide Sound, UnsafeOk, Attributed, Classify;
    InfoCases(s, m, mono);
    if WellFormed(m) && !m.retained {
      ObservedTells(s, m, mono);
    } else {
      UnheardKeepsTold(s, m, OnInfo(s.client, m, mono));
    }
  }

  /** A malformed or retained bridge/info leaves no attribution; any other is observed and classified. */
  lemma InfoCases(s: Sys, m: Message, mono: int)
    requires Sound(s) && m.InfoMessage?
    ensures var c, c' := s.client, OnInfo(s.client, m, mono);
            c'.generation == c.generation + 1 &&
            if WellFormed(m) && !m.retained then c' == Classify(Observed(c, m, mono), mono)
            else
              && c'.open == None && (c'.unattributedGeneration == c.unattributedGeneration
                                     || c'.unattributedGeneration == c.generation + 1)
              && (c'.unsafeGeneration == c.unsafeGeneration || c'.unsafeGeneration == c.generation + 1)
  {
    hide AttributionOk, ClosedOk, ClosingOk, OpeningOk, MarksOk, OpensBefore, PermitOf, Classify;
    if WellFormed(m) {
      ClassifyIsLocal(Observed(s.client, m, mono), mono);
    }
  }

  lemma UnheardKeepsTold(s: Sys, m: Message, c': Client)
    requires Sound(s) && Told(s) && !LiveInfo(m) && c'.open == None
    requires c'.unattributedGeneration <= s.client.generation + 1 == c'.generation
    requires c'.unsafeGeneration == s.client.unsafeGeneration || c'.unsafeGeneration == s.client.generation + 1
    ensures Told(Sys(c', s.log + [m], s.marks, s.subscription))
  {
    hide NoneForeign, PermitOf, LiveInfo, Counted;
    CountedOf(s);
    UnsafeStays(s, m, c');
  }

  /** Rejecting counts the rejected state as foreign. */
  lemma RejectKeepsTold(s: Sys)
    requires Sound(s) && Told(s)
    ensures Told(s.(client := RejectProvisional(s.client))) && Told(s.(client := Failed(s.client)))
    ensures Told(s.(client := Failed(RejectProvisional(s.client))))
  {
    hide NoneForeign, ClosedOk, ClosingOk, MarksOk, OpensBefore, PermitOf;
    PermitIsOlder(s);
    if s.client.open.Some? && s.client.open.value.provisional.Some? {
      ProvisionalIsLater(s.log, s.client.open.value);
    }
  }

  lemma ProvisionalIsLater(log: seq<Message>, a: Attribution)
    requires AttributionOk(log, a) && a.provisional.Some?
    ensures a.provisional.value.generation > a.request
  {
  }

  /** At the acknowledgement the provisional evidence becomes attributed, or counts as foreign. */
  lemma CommitKeepsTold(s: Sys, mono: int)
    requires Sound(s) && Told(s) && s.client.op.Opening? && s.client.open.Some?
    ensures Told(s.(client := Commit(s.client.(op := Opening(s.client.op.transaction, s.client.op.seconds,
                                                             s.client.op.request, true)),
                                     s.client.open.value, mono)))
  {
    hide NoneForeign, ClosedOk, ClosingOk, MarksOk, OpensBefore, PermitOf, ValidCandidate;
    var a := s.client.open.value;
    PermitIsOlder(s);
    if a.provisional.Some? {
      ProvisionalIsLater(s.log, a);
    }
    if s.client.unattributedGeneration <= a.request {
      CommitIsOurs(s.log, a, mono);
    }
  }

  lemma CommitIsOurs(log: seq<Message>, a: Attribution, mono: int)
    requires AttributionOk(log, a) && NoneForeign(log, a)
    ensures a.provisional == None ==> NoneForeign(log, a.(acknowledged := true))
    ensures a.provisional.Some? && ValidCandidate(a, a.provisional.value, mono) ==>
              NoneForeign(log, a.(acknowledged := true, provisional := None,
                                  infoGeneration := a.provisional.value.generation))
  {
    forall g: nat | a.request <= g < |log| && SaysOpen(log[g]) ensures Ours(log, a, g) {
    }
  }

  lemma ResponseKeepsTold(s: Sys, r: Response, mono: int)
    requires Sound(s) && Told(s)
    ensures Told(Step(s, Respond(r, mono)))
  {
    hide Sound, NoneForeign, Commit, RejectProvisional, LiveInfo;
    RejectKeepsTold(s);
    if s.client.op.Opening? && s.client.open.Some? {
      CommitKeepsTold(s, mono);
    }
  }

  lemma OtherKeepsTold(s: Sys, e: Event)
    requires Sound(s) && Told(s) && !e.Deliver? && !e.Respond?
    ensures Told(Step(s, e))
  {
    hide ClosedOk, ClosingOk, MarksOk, OpensBefore, PermitOf, LiveInfo, Ours;
  }

  lemma {:induction false} RunTold(events: seq<Event>)
    ensures Told(Run(events))
  {
    hide Sound, Step, Told;
    if events == [] {
      InitialTold();
    } else {
      var s, e := Run(events[..|events| - 1]), events[|events| - 1];
      RunTold(events[..|events| - 1]);
      RunSound(events[..|events| - 1]);
      match e
      case Deliver(StateMessage(online), mono) => StateKeepsTold(s, online, mono);
      case Deliver(InfoMessage(_, _, _, _), mono) => InfoKeepsTold(s, e.m, mono);
      case Respond(r, mono) => ResponseKeepsTold(s, r, mono);
      case _ => OtherKeepsTold(s, e);
    }
  }

  lemma InitialTold()
    ensures Told(INITIAL)
  {
  }

  /* ---------- what the verdicts mean ---------- */

  /** Some bridge/info after generation `from` says open. */
  ghost predicate OpenSeen(log: seq<Message>, from: nat) {
    exists g: nat :: from <= g < |log| && SaysOpen(log[g])
  }

  /** Every open state after the request fits it. */
  ghost predicate OnlyOurs(log: seq<Message>, a: Attribution) {
    forall g: nat :: a.request <= g < |log| && SaysOpen(log[g]) ==> Attributable(a, log[g])
  }

  /**
   * An acknowledged open fails as soon as any message since its request was not live, well-formed bridge/info, or
   * any open state among them does not fit it; without a failure it has succeeded exactly when one was seen.
   */
  lemma OpenVerdictMeans(events: seq<Event>)
    requires Run(events).client.op.Opening? && Run(events).client.op.acked
    ensures var s := Run(events);
            var c, request := s.client, s.client.op.request;
            && (!LiveAfter(s.log, request) ==> OpenVerdict(c) == Failure)
            && (OpenVerdict(c) != Failure ==>
                  && c.open.Some? && c.open.value.transaction == c.op.transaction && c.open.value.request == request
                  && OnlyOurs(s.log, c.open.value)
                  && (OpenVerdict(c) == Success <==> OpenSeen(s.log, request)))
  {
    hide Run, ClosedOk, ClosingOk, MarksOk, OpensBefore, PermitOf, LiveInfo;
    RunSound(events);
    RunTold(events);
    var s := Run(events);
    var c := s.client;
    if OpenVerdict(c) != Failure {
      var a := c.open.value;
      assert a.request == c.op.request && a.acknowledged && NoneForeign(s.log, a);
      SeenIsOurs(s.log, a);
      InfoIsSeen(s.log, a);
    }
  }

  lemma SeenIsOurs(log: seq<Message>, a: Attribution)
    requires NoneForeign(log, a) && a.acknowledged
    ensures OnlyOurs(log, a) && (OpenSeen(log, a.request) ==> a.infoGeneration > a.request)
  {
    forall g: nat | a.request <= g < |log| && SaysOpen(log[g]) ensures Ours(log, a, g) {
    }
  }

  lemma InfoIsSeen(log: seq<Message>, a: Attribution)
    requires AttributionOk(log, a)
    ensures a.infoGeneration > a.request ==> OpenSeen(log, a.request)
  {
    if a.infoGeneration > a.request {
      assert SaysOpen(log[a.infoGeneration - 1]);
    }
  }

  /**
   * An acknowledged or pending close fails exactly when some message since its request was not live, well-formed
   * bridge/info, and is proved exactly when all were, at least one came, and the last says closed.
   */
  lemma CloseVerdictExactlyWhen(events: seq<Event>)
    requires Run(events).client.op.Closing?
    ensures var s := Run(events);
            var c, request := s.client, s.client.op.request;
            && (CloseVerdict(c) == Failure <==> !LiveAfter(s.log, request))
            && (CloseVerdict(c) == Success <==>
                  && LiveAfter(s.log, request) && |s.log| > request && SaysClosed(s.log[|s.log| - 1]))
  {
    hide Run, ClosedOk, MarksOk, OpensBefore, Attributed, OpenOk;
    RunSound(events);
    RunTold(events);
  }

  /** An open is started exactly while idle on a recent closed proof, for 15 to 60 seconds. */
  lemma OpenStartsExactlyWhen(events: seq<Event>, transaction: Transaction, seconds: int, wall: int, mono: int)
    ensures var s := Run(events);
            var s' := Step(s, StartOpen(transaction, seconds, wall, mono));
            s'.client.op.Opening? && !s.client.op.Opening? <==>
              && s.client.op == Idle && 15 <= seconds <= 60
              && s.client.closedProof > 0 && s.client.permit.Some? && mono - s.client.permit.value.mono <= 15
  {
    hide Run, Baseline;
    BaselineExactlyWhen(events, mono);
  }

  /** What the last bridge/state said. */
  datatype Bridge = Unheard | Malformed | Says(online: bool)

  function BridgeOf(log: seq<Message>): Bridge {
    if log == [] then Unheard
    else
      match log[|log| - 1]
      case StateMessage(online) => if online == None then Malformed else Says(online.value)
      case InfoMessage(_, _, _, _) => BridgeOf(log[..|log| - 1])
  }

  /** The client's view of the bridge is the last bridge/state of its subscription. */
  ghost predicate Heard(s: Sys) {
    && s.client.online == (if BridgeOf(s.log).Says? then Some(BridgeOf(s.log).online) else None)
    && s.client.stateInvalid == BridgeOf(s.log).Malformed?
  }

  predicate SameBridge(c: Client, c': Client) {
    c'.online == c.online && c'.stateInvalid == c.stateInvalid
  }

  lemma ClassifyKeepsBridge(c: Client, mono: int)
    ensures SameBridge(c, Classify(c, mono))
  {
    hide ProvisionalCandidate, ValidCandidate;
  }

  lemma ResponseKeepsBridge(c: Client, r: Response, mono: int)
    ensures SameBridge(c, OnResponse(c, r, mono))
  {
    hide ValidCandidate;
  }

  lemma MessageIsHeard(s: Sys, m: Message, mono: int)
    requires Heard(s)
    ensures Heard(Step(s, Deliver(m, mono)))
  {
    hide Classify;
    assert (s.log + [m])[..|s.log|] == s.log;
    var c := s.client;
    match m
    case StateMessage(online) =>
      var seen := c.(generation := c.generation + 1, online := online, stateInvalid := false);
      if online.Some? {
        ClassifyKeepsBridge(if online.value then seen else Unsafe(seen), mono);
      }
    case InfoMessage(open, end, retained, wall) =>
      if WellFormed(m) {
        var next := c.(generation := c.generation + 1, infoSeen := true);
        var initial := retained && !c.infoSeen;
        ClassifyKeepsBridge(
          next.(permit := Some(Permit(open.value, end, retained, initial, next.generation, wall, mono)),
                closedProof := if open.value then 0 else c.closedProof), mono);
      }
  }

  lemma StepKeepsHeard(s: Sys, e: Event)
    requires Heard(s)
    ensures Heard(Step(s, e))
  {
    hide Baseline, MayOpen, CloseVerdict, OpenVerdict, OnMessage, OnResponse;
    match e
    case Deliver(m, mono) => MessageIsHeard(s, m, mono);
    case Respond(r, mono) => ResponseKeepsBridge(s.client, r, mono);
    case _ =>
  }

  lemma {:induction false} RunHeard(events: seq<Event>)
    ensures Heard(Run(events))
  {
    if events != [] {
      RunHeard(events[..|events| - 1]);
      StepKeepsHeard(Run(events[..|events| - 1]), events[|events| - 1]);
    }
  }

  /**
   * A close is published at once while the bridge last said online, waits while it was never heard, and fails
   * while it last said offline or something malformed.  A waiting close meets the same three cases at each look.
   */
  lemma CloseStartsExactlyWhen(events: seq<Event>, transaction: Transaction)
    requires Run(events).client.op == Idle && Run(events).client.subscribed
    ensures var s := Run(events);
            Step(s, StartClose(transaction)).client.op ==
              match BridgeOf(s.log)
              case Says(online) => if online then Closing(transaction, s.client.generation, false) else Idle
              case Unheard => WaitingToClose(transaction)
              case Malformed => Idle
  {
    hide Run;
    RunHeard(events);
  }

  lemma WaitingCloseExactlyWhen(events: seq<Event>)
    requires Run(events).client.op.WaitingToClose?
    ensures var s := Run(events);
            Step(s, PollClose).client.op ==
              match BridgeOf(s.log)
              case Says(online) => if online then Closing(s.client.op.transaction, s.client.generation, false) else Idle
              case Unheard => s.client.op
              case Malformed => Idle
  {
    hide Run;
    RunHeard(events);
  }

  /* ---------- undisturbed requests ---------- */

  /** The response a request asks for. */
  predicate Acknowledges(r: Response, transaction: Transaction, seconds: int) {
    r.transaction == Some(transaction) && r.ok && !r.retained && r.seconds == Some(seconds)
  }

  /** A request in progress is acknowledged exactly by its own response. */
  lemma AcknowledgedExactlyWhen(events: seq<Event>, r: Response, mono: int)
    requires var c := Run(events).client; (c.op.Opening? && c.open.Some?) || c.op.Closing?
    requires !Run(events).client.op.acked
    ensures var c, c' := Run(events).client, Step(Run(events), Respond(r, mono)).client;
            (c'.op.Opening? || c'.op.Closing?) && c'.op.acked <==>
              Acknowledges(r, c.op.transaction, if c.op.Opening? then c.op.seconds else 0)
  {
    hide Run, ClosedOk, MarksOk, OpensBefore, OpenOk, ClosingOk;
    RunSound(events);
  }

  /** A live bridge/info that fits an open of `seconds` requested at these times. */
  predicate FitsOpen(m: Message, seconds: int, wall: int) {
    && m.InfoMessage? && WellFormed(m) && !m.retained && m.open == Some(true) && m.wall >= wall
    && m.end.Some? && wall + seconds - 5 <= m.end.value <= wall + seconds + 5
  }

  predicate InTime(mono': int, seconds: int, mono: int) {
    mono' <= mono + 20 && mono' <= mono + seconds + 5
  }

  /** With its acknowledgement and a fitting state in time, in either order, and nothing else, an open succeeds. */
  lemma UndisturbedOpen(events: seq<Event>, transaction: Transaction, seconds: int, wall: int, mono: int, m: Message,
                        seen: int, r: Response, answered: int)
    requires MayOpen(Run(events).client, seconds, mono) && FitsOpen(m, seconds, wall)
    requires Acknowledges(r, transaction, seconds) && InTime(seen, seconds, mono) && InTime(answered, seconds, mono)
    ensures var s := Step(Run(events), StartOpen(transaction, seconds, wall, mono));
            var before := Step(Step(s, Deliver(m, seen)), Respond(r, answered)).client;
            var after := Step(Step(s, Respond(r, answered)), Deliver(m, seen)).client;
            && before.op.Opening? && before.op.acked && OpenVerdict(before) == Success
            && after.op.Opening? && after.op.acked && OpenVerdict(after) == Success
  {
    hide Run, ClosedOk, MarksOk, OpensBefore, OpenOk, ClosingOk;
    RunSound(events);
    RunTold(events);
  }

  /** A request of this many seconds was accepted at these times, and nothing is held provisionally for it. */
  predicate RequestedAt(a: Attribution, seconds: int, wall: int, mono: int) {
    && a.startedWall == wall && a.expectedEnd == wall + seconds && a.provisional == None
    && a.attributionDeadline == mono + 20 && a.windowDeadline == mono + seconds + 5
  }

  /** What the first message after an acknowledgement makes of an open, whatever it is and whenever it comes. */
  lemma FirstMessageDecides(events: seq<Event>, transaction: Transaction, seconds: int, wall: int, mono: int,
                            r: Response, answered: int, m: Message, seen: int)
    requires MayOpen(Run(events).client, seconds, mono) && Acknowledges(r, transaction, seconds)
    ensures var s := Step(Run(events), StartOpen(transaction, seconds, wall, mono));
            var c := Step(Step(s, Respond(r, answered)), Deliver(m, seen)).client;
            && c.op.Opening? && c.op.acked
            && (LiveInfo(m) ==> c.open.Some? && RequestedAt(c.open.value, seconds, wall, mono))
            && OpenVerdict(c) == if !LiveInfo(m) then Failure
                                 else if !m.open.value then Continue
                                 else if FitsOpen(m, seconds, wall) && InTime(seen, seconds, mono) then Success
                                 else Failure
  {
    hide Run, ClosedOk, MarksOk, OpensBefore, OpenOk, ClosingOk;
    RunSound(events);
    RunTold(events);
  }

  /** What each further message makes of an acknowledged open that has not failed. */
  lemma NextMessageDecides(events: seq<Event>, seconds: int, wall: int, mono: int, m: Message, seen: int)
    requires var c := Run(events).client;
             && c.op.Opening? && c.op.acked && OpenVerdict(c) != Failure
             && c.open.Some? && RequestedAt(c.open.value, seconds, wall, mono)
    ensures var c, c' := Run(events).client, Step(Run(events), Deliver(m, seen)).client;
            && c'.op == c.op
            && (LiveInfo(m) ==> c'.open.Some? && RequestedAt(c'.open.value, seconds, wall, mono))
            && OpenVerdict(c') == if !LiveInfo(m) then Failure
                                  else if !m.open.value then OpenVerdict(c)
                                  else if FitsOpen(m, seconds, wall) && InTime(seen, seconds, mono) then Success
                                  else Failure
  {
    hide Run, ClosedOk, MarksOk, OpensBefore, ClosingOk;
    RunSound(events);
    RunTold(events);
  }

  /** With its acknowledgement, then a closed state, and nothing else, a close is proved and restores the baseline. */
  lemma UndisturbedClose(events: seq<Event>, transaction: Transaction, m: Message, seen: int, r: Response,
                         answered: int)
    requires Run(events).client.op == Idle && Run(events).client.subscribed && Run(events).client.online == Some(true)
    requires SaysClosed(m) && Acknowledges(r, transaction, 0)
    ensures var s := Step(Run(events), StartClose(transaction));
            var s' := Step(Step(Step(s, Respond(r, answered)), Deliver(m, seen)), PollClose);
            && s'.client.op == Idle && s'.client.closedProof == |s'.log| == |Run(events).log| + 1
            && |s'.marks| == |Run(events).marks| + 1 && s'.marks[|Run(events).marks|].ClosedBy?
            && forall mono :: mono <= seen + 15 ==> Baseline(s'.client, mono)
  {
    hide Run, ClosedOk, MarksOk, OpensBefore, OpenOk;
    RunSound(events);
  }
}
