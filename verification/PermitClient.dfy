/**
 * The Zigbee2MQTT client's permit-join bookkeeping as value functions: what each bridge message and
 * each open or close request does to its generation counters, and when a request may go on.
 *
 * Every bridge/state and bridge/info message takes the next generation.  Wall and monotonic times
 * are in seconds and come with the messages.
 */
module PermitClient {
  import opened Basics

  type Transaction = nat

  /** `online` is None for a malformed bridge/state; `open` is None for a malformed bridge/info. */
  datatype Message =
    | StateMessage(online: Option<bool>)
    | InfoMessage(open: Option<bool>, end: Option<int>, retained: bool, wall: int)

  /** A permit-join response; malformed ones carry no transaction. */
  datatype Response = Response(transaction: Option<Transaction>, ok: bool, retained: bool, seconds: Option<int>)

  /** What the latest well-formed bridge/info said. */
  datatype Permit = Permit(open: bool, end: Option<int>, retained: bool, initialRetained: bool, generation: nat,
                           wall: int, mono: int)

  /** The open request that later bridge/info may be attributed to. */
  datatype Attribution = Attribution(
    transaction: Transaction,
    request: nat,
    startedWall: int,
    acknowledged: bool,
    expectedEnd: int,
    attributionDeadline: int,
    windowDeadline: int,
    infoGeneration: nat,
    provisional: Option<Permit>)

  /** The one request in progress; opens and closes are issued one at a time. */
  datatype Op =
    | Idle
    | Opening(transaction: Transaction, seconds: int, request: nat, acked: bool)
    | WaitingToClose(transaction: Transaction)
    | Closing(transaction: Transaction, request: nat, acked: bool)

  datatype Client = Client(
    subscribed: bool,
    generation: nat,
    setupGeneration: nat,
    unsafeGeneration: nat,
    unattributedGeneration: nat,
    online: Option<bool>,
    stateInvalid: bool,
    permit: Option<Permit>,
    infoSeen: bool,
    closedProof: nat,
    activeClose: Option<nat>,
    open: Option<Attribution>,
    op: Op)

  const RESPONSE_SECONDS := 10
  const OPEN_INFO_SECONDS := 10
  const BASELINE_MAX_AGE := 15
  const END_MAX := 254
  const END_SKEW := 5

  const FRESH := Client(false, 0, 0, 0, 0, None, false, None, false, 0, None, None, Idle)

  /* ---------- helpers ---------- */

  /** A bridge/info the parser accepts: an end only while open, and not too far from now. */
  predicate WellFormed(m: Message)
    requires m.InfoMessage?
  {
    && m.open.Some?
    && (m.end.Some? ==> m.open.value && -END_SKEW <= m.end.value - m.wall <= END_MAX + END_SKEW)
  }

  function Unsafe(c: Client): Client {
    c.(unsafeGeneration := c.generation, closedProof := 0, open := None)
  }

  /** The state both topics together establish, if they do. */
  predicate Known(c: Client) {
    c.online.Some? && c.permit.Some?
  }

  function MaxNat(a: nat, b: nat): nat {
    if a >= b then a else b
  }

  function RejectOpen(c: Client, permit: Permit): Client {
    c.(unattributedGeneration := MaxNat(c.unattributedGeneration, permit.generation),
       open := if c.open.Some? then Some(c.open.value.(provisional := None)) else None)
  }

  predicate ProvisionalCandidate(a: Attribution, p: Permit, mono: int) {
    && p.generation > a.request && !p.retained && p.wall >= a.startedWall
    && mono <= a.attributionDeadline && mono <= a.windowDeadline
  }

  predicate ValidCandidate(a: Attribution, p: Permit, mono: int) {
    && ProvisionalCandidate(a, p, mono)
    && p.end.Some? && -END_SKEW <= p.end.value - a.expectedEnd <= END_SKEW
  }

  /** Attribute an open state to the request in progress, or record that it is nobody's. */
  function Classify(c: Client, mono: int): Client {
    if !Known(c) then c
    else
      var p := c.permit.value;
      if !c.online.value || !p.open then
        if c.open.Some? && c.open.value.provisional.Some? && p.generation > c.open.value.provisional.value.generation
        then RejectOpen(c, p) else c
      else if c.open == None then c.(unattributedGeneration := MaxNat(c.unattributedGeneration, p.generation))
      else ClassifyOpen(c, c.open.value, p, mono)
  }

  function ClassifyOpen(c: Client, a: Attribution, p: Permit, mono: int): Client {
    if !a.acknowledged then
      if !ProvisionalCandidate(a, p, mono) then RejectOpen(c, p)
      else if a.provisional == None then c.(open := Some(a.(provisional := Some(p))))
      else if a.provisional.value.generation == p.generation then c
      else RejectOpen(c, p)
    else if !ValidCandidate(a, p, mono) then RejectOpen(c, p)
    else c.(open := Some(a.(infoGeneration := p.generation)))
  }

  /* ---------- messages ---------- */

  function OnState(c: Client, online: Option<bool>, mono: int): Client {
    var next := c.(generation := c.generation + 1);
    if online == None then Unsafe(next.(online := None, stateInvalid := true))
    else
      var seen := next.(online := online, stateInvalid := false);
      if online.value && c.online == Some(true) then Unsafe(seen)
      else Classify(if online.value then seen else Unsafe(seen), mono)
  }

  function OnInfo(c: Client, m: Message, mono: int): Client
    requires m.InfoMessage?
  {
    var next := c.(generation := c.generation + 1, infoSeen := true);
    if !WellFormed(m) then Unsafe(next.(permit := None))
    else
      var initial := m.retained && !c.infoSeen;
      var seen := next.(permit := Some(Permit(m.open.value, m.end, m.retained, initial, next.generation, m.wall, mono)),
                        closedProof := if m.open.value then 0 else c.closedProof);
      if m.retained && (!initial || c.activeClose.Some?) then Unsafe(seen) else Classify(seen, mono)
  }

  function OnMessage(c: Client, m: Message, mono: int): Client {
    match m
    case StateMessage(online) => OnState(c, online, mono)
    case InfoMessage(_, _, _, _) => OnInfo(c, m, mono)
  }

  /* ---------- responses ---------- */

  /** The request failed: its caller gets an exception. */
  function Failed(c: Client): Client {
    c.(op := Idle, activeClose := None)
  }

  predicate Pending(c: Client, transaction: Transaction) {
    (c.op.Opening? || c.op.Closing?) && c.op.transaction == transaction
  }

  function RejectProvisional(c: Client): Client {
    if c.open.Some? && c.open.value.provisional.Some? then RejectOpen(c, c.open.value.provisional.value) else c
  }

  /** A response that fits nothing also fails a pending open that had provisional evidence. */
  function OnStray(c: Client): Client {
    if c.open.Some? && c.open.value.provisional.Some? then
      var rejected := RejectProvisional(c);
      if c.op.Opening? && !c.op.acked then Failed(rejected) else rejected
    else c
  }

  function Commit(c: Client, a: Attribution, mono: int): Client {
    var acknowledged := a.(acknowledged := true);
    if a.provisional == None then c.(open := Some(acknowledged))
    else
      var p := a.provisional.value;
      var cleared := acknowledged.(provisional := None);
      if ValidCandidate(a, p, mono) then c.(open := Some(cleared.(infoGeneration := p.generation)))
      else RejectOpen(c.(open := Some(cleared)), p)
  }

  function OnResponse(c: Client, r: Response, mono: int): Client {
    if r.transaction == None || !Pending(c, r.transaction.value) then OnStray(c)
    else if c.op.acked then c
    else
      var expected := if c.op.Opening? then c.op.seconds else 0;
      if !r.ok || r.retained || r.seconds != Some(expected) then
        Failed(if c.op.Opening? then RejectProvisional(c) else c)
      else if c.op.Closing? then c.(op := Closing(c.op.transaction, c.op.request, true))
      else if c.open == None || c.open.value.transaction != c.op.transaction then Failed(RejectProvisional(c))
      else Commit(c.(op := Opening(c.op.transaction, c.op.seconds, c.op.request, true)), c.open.value, mono)
  }

  /* ---------- requests ---------- */

  /** The closed baseline an open may start from. */
  predicate Baseline(c: Client, mono: int) {
    && c.subscribed && c.closedProof > c.setupGeneration && Known(c)
    && c.online == Some(true) && !c.permit.value.open && !c.permit.value.retained
    && c.permit.value.generation >= c.closedProof && mono - c.permit.value.mono <= BASELINE_MAX_AGE
  }

  predicate MayOpen(c: Client, seconds: int, mono: int) {
    c.op == Idle && 15 <= seconds <= 60 && Baseline(c, mono)
  }

  function BeginOpen(c: Client, transaction: Transaction, seconds: int, wall: int, mono: int): Client {
    c.(closedProof := 0,
       open := Some(Attribution(transaction, c.generation, wall, false, wall + seconds,
                                mono + RESPONSE_SECONDS + OPEN_INFO_SECONDS, mono + seconds + END_SKEW, 0, None)),
       op := Opening(transaction, seconds, c.generation, false))
  }

  datatype Verdict = Continue | Success | Failure

  /** One look of an acknowledged open at the state. */
  function OpenVerdict(c: Client): Verdict
    requires c.op.Opening?
  {
    if c.unsafeGeneration > c.op.request || c.unattributedGeneration > c.op.request
       || c.online != Some(true) then Failure
    else if c.open.Some? && c.open.value.acknowledged && c.open.value.infoGeneration > c.op.request then Success
    else Continue
  }

  /** A close waits until the bridge state is known, then publishes. */
  function BeginClose(c: Client, transaction: Transaction): Client {
    if c.online == None then
      if c.stateInvalid then Failed(c) else c.(op := WaitingToClose(transaction))
    else if !c.online.value then Failed(c)
    else c.(op := Closing(transaction, c.generation, false), activeClose := Some(c.generation))
  }

  /** The global state proves the close: newer than the request, closed, and not retained. */
  predicate ProvesClosed(c: Client, request: nat) {
    Known(c) && c.permit.value.generation > request && !c.permit.value.open && !c.permit.value.retained
  }

  function CloseVerdict(c: Client): Verdict
    requires c.op.Closing?
  {
    if c.unsafeGeneration > c.op.request || c.online != Some(true) then Failure
    else if ProvesClosed(c, c.op.request) then Success
    else Continue
  }

  function FinishClose(c: Client): Client
    requires c.permit.Some?
  {
    c.(closedProof := c.permit.value.generation, open := None, op := Idle, activeClose := None)
  }

  /* ---------- the client as an object ---------- */

  /** The client's fields, updated in place by the subscription callbacks and the two requests. */
  class Zigbee2MqttClient {
    var subscribed: bool
    var generation: nat
    var setupGeneration: nat
    var unsafeGeneration: nat
    var unattributedGeneration: nat
    var online: Option<bool>
    var stateInvalid: bool
    var permit: Option<Permit>
    var infoSeen: bool
    var closedProof: nat
    var activeClose: Option<nat>
    var open: Option<Attribution>
    var op: Op

    constructor ()
      ensures State() == FRESH
    {
      subscribed, generation, setupGeneration, unsafeGeneration, unattributedGeneration := false, 0, 0, 0, 0;
      online, stateInvalid, permit, infoSeen, closedProof := None, false, None, false, 0;
      activeClose, open, op := None, None, Idle;
    }

    ghost function State(): Client
      reads this
    {
      Client(subscribed, generation, setupGeneration, unsafeGeneration, unattributedGeneration, online, stateInvalid,
             permit, infoSeen, closedProof, activeClose, open, op)
    }

    method MarkUnsafe()
      modifies this`unsafeGeneration, this`closedProof, this`open
      ensures State() == Unsafe(old(State()))
    {
      unsafeGeneration := generation;
      closedProof := 0;
      open := None;
    }

    method RejectOpenState(rejected: Permit)
      modifies this`unattributedGeneration, this`open
      ensures State() == RejectOpen(old(State()), rejected)
    {
      if unattributedGeneration < rejected.generation {
        unattributedGeneration := rejected.generation;
      }
      if open.Some? {
        open := Some(open.value.(provisional := None));
      }
    }

    method ClassifyOpenState(mono: int)
      modifies this`unattributedGeneration, this`open
      ensures State() == Classify(old(State()), mono)
    {
      if online == None || permit == None {
        return;
      }
      var p := permit.value;
      if !online.value || !p.open {
        if open.Some? && open.value.provisional.Some? && p.generation > open.value.provisional.value.generation {
          RejectOpenState(p);
        }
        return;
      }
      if open == None {
        if unattributedGeneration < p.generation {
          unattributedGeneration := p.generation;
        }
        return;
      }
      var a := open.value;
      if !a.acknowledged {
        if !ProvisionalCandidate(a, p, mono) {
          RejectOpenState(p);
        } else if a.provisional == None {
          open := Some(a.(provisional := Some(p)));
        } else if a.provisional.value.generation != p.generation {
          RejectOpenState(p);
        }
        return;
      }
      if !ValidCandidate(a, p, mono) {
        RejectOpenState(p);
        return;
      }
      open := Some(a.(infoGeneration := p.generation));
    }

    method BridgeStateReceived(parsed: Option<bool>, mono: int)
      modifies this
      ensures State() == OnState(old(State()), parsed, mono)
    {
      hide Classify, Unsafe;
      generation := generation + 1;
      if parsed == None {
        online := None;
        stateInvalid := true;
        MarkUnsafe();
        return;
      }
      var wasOnline := online == Some(true);
      online := parsed;
      stateInvalid := false;
      if parsed.value && wasOnline {
        MarkUnsafe();
        return;
      }
      if !parsed.value {
        MarkUnsafe();
      }
      ClassifyOpenState(mono);
    }

    method BridgeInfoReceived(m: Message, mono: int)
      requires m.InfoMessage?
      modifies this
      ensures State() == OnInfo(old(State()), m, mono)
    {
      hide Classify, Unsafe;
      generation := generation + 1;
      var initial := m.retained && !infoSeen;
      infoSeen := true;
      if !WellFormed(m) {
        permit := None;
        MarkUnsafe();
        return;
      }
      permit := Some(Permit(m.open.value, m.end, m.retained, initial, generation, m.wall, mono));
      if m.open.value {
        closedProof := 0;
      }
      if m.retained && (!initial || activeClose.Some?) {
        MarkUnsafe();
        return;
      }
      ClassifyOpenState(mono);
    }

    method RejectProvisionalOpen()
      modifies this`unattributedGeneration, this`open
      ensures State() == RejectProvisional(old(State()))
    {
      if open.Some? && open.value.provisional.Some? {
        RejectOpenState(open.value.provisional.value);
      }
    }

    method CommitProvisionalOpen(mono: int)
      requires open.Some?
      modifies this`unattributedGeneration, this`open
      ensures State() == Commit(old(State()), old(open).value, mono)
    {
      var provisional := open.value.provisional;
      open := Some(open.value.(acknowledged := true));
      if provisional == None {
        return;
      }
      open := Some(open.value.(provisional := None));
      if !ValidCandidate(open.value, provisional.value, mono) {
        RejectOpenState(provisional.value);
        return;
      }
      open := Some(open.value.(infoGeneration := provisional.value.generation));
    }

    method FailRequest()
      modifies this`op, this`activeClose
      ensures State() == Failed(old(State()))
    {
      op := Idle;
      activeClose := None;
    }

    method JoinResponseReceived(r: Response, mono: int)
      modifies this
      ensures State() == OnResponse(old(State()), r, mono)
    {
      if r.transaction == None || !(op.Opening? || op.Closing?) || op.transaction != r.transaction.value {
        if open.Some? && open.value.provisional.Some? {
          RejectProvisionalOpen();
          if op.Opening? && !op.acked {
            FailRequest();
          }
        }
        return;
      }
      if op.acked {
        return;
      }
      var expected := if op.Opening? then op.seconds else 0;
      if !r.ok || r.retained || r.seconds != Some(expected) {
        if op.Opening? {
          RejectProvisionalOpen();
        }
        FailRequest();
        return;
      }
      if op.Closing? {
        op := Closing(op.transaction, op.request, true);
        return;
      }
      if open == None || open.value.transaction != op.transaction {
        RejectProvisionalOpen();
        FailRequest();
        return;
      }
      op := Opening(op.transaction, op.seconds, op.request, true);
      CommitProvisionalOpen(mono);
    }

    /** Start an open, if the closed baseline allows it. */
    method OpenJoin(transaction: Transaction, seconds: int, wall: int, mono: int) returns (started: bool)
      requires op == Idle
      modifies this`closedProof, this`open, this`op
      ensures started <==> 15 <= seconds <= 60 && Baseline(old(State()), mono)
      ensures State() == if started then BeginOpen(old(State()), transaction, seconds, wall, mono) else old(State())
    {
      if seconds < 15 || seconds > 60 {
        return false;
      }
      if !subscribed || closedProof <= setupGeneration || online != Some(true) || permit == None || permit.value.open
         || permit.value.retained || permit.value.generation < closedProof
         || mono - permit.value.mono > BASELINE_MAX_AGE {
        return false;
      }
      closedProof := 0;
      open := Some(Attribution(transaction, generation, wall, false, wall + seconds,
                               mono + RESPONSE_SECONDS + OPEN_INFO_SECONDS, mono + seconds + END_SKEW, 0, None));
      op := Opening(transaction, seconds, generation, false);
      return true;
    }

    /** One look of a reconciling close at the state, once it is acknowledged. */
    method ReconcileJoinClosed() returns (verdict: Verdict)
      requires op.Closing? && op.acked
      modifies this`closedProof, this`open, this`op, this`activeClose
      ensures verdict == CloseVerdict(old(State()))
      ensures verdict == Continue ==> State() == old(State())
      ensures verdict == Failure ==> State() == Failed(old(State()))
      ensures verdict == Success ==> old(permit).Some? && State() == FinishClose(old(State()))
    {
      if unsafeGeneration > op.request || online != Some(true) {
        FailRequest();
        return Failure;
      }
      if permit.Some? && permit.value.generation > op.request && !permit.value.open && !permit.value.retained {
        closedProof := permit.value.generation;
        open := None;
        op := Idle;
        activeClose := None;
        return Success;
      }
      return Continue;
    }
  }
}
