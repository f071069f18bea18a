/**
 * The remote journal client: one serialized store object that loads, saves, replays and barriers.
 *
 * Every operation that contacts the App is two steps, up to the post and from the reply on; the
 * reply, or the way the post failed, is an input.
 */
module RemoteClient {
  import opened Basics
  import opened JournalDatabase

  /** A snapshot is the loaded root; the absent journal has none. */
  datatype Snapshot = Snapshot(root: Option<Root>) {
    function Generation(): int {
      if root.Some? then root.value.generation else -1
    }

    function Expected(): Option<Revision> {
      if root.Some? then Some(Revision(root.value)) else None
    }
  }

  datatype Commit = Commit(root: Root, token: Token)

  datatype Request = Request(id: RequestId, body: Body)

  datatype Pending = Pending(request: Request, candidate: Root)

  /** The classes of HTTP status a signed error response can carry. */
  datatype Status = Status409 | Status413 | OtherClientStatus | RetryableStatus

  datatype LoadedRow = LoadedRow(generation: nat, revision: Revision, root: Root)

  datatype Response =
    | LoadAnswer(row: Option<LoadedRow>)
    | SaveAnswer(response: SaveResponse)
    | BarrierAnswer(token: Token)
    | HelloAnswer(nonce: nat)
    | Refusal(status: Status)

  /** How a post ends at the client: a verified response, or one of the failures it distinguishes. */
  datatype Reply =
    | Answer(response: Response)
    | TransportFailure
    | Unauthenticated
    | Oversized
    | Malformed

  datatype Client = Client(
    id: ClientId,
    journal: JournalId,
    maxGeneration: nat,
    snapshot: Option<Snapshot>,
    saveReady: bool,
    commit: Option<Commit>,
    pending: Option<Pending>,
    poisoned: bool,
    ambiguous: bool,
    replayAllowed: bool,
    closed: bool)

  function Opened(id: ClientId, journal: JournalId, maxGeneration: nat): Client {
    Client(id, journal, maxGeneration, None, false, None, None, false, false, false, false)
  }

  function Poison(c: Client, ambiguous: bool, replayAllowed: bool): Client {
    c.(poisoned := true, ambiguous := ambiguous, replayAllowed := replayAllowed)
  }

  predicate Usable(c: Client) {
    !c.closed && !c.poisoned
  }

  /* ---------- load ---------- */

  predicate MayLoad(c: Client) {
    Usable(c) && c.commit == None
  }

  function LoadRequest(c: Client, serial: nat): Request {
    Request(RandomId(serial), LoadBody(c.id, c.journal))
  }

  predicate ValidReadback(c: Client, row: LoadedRow) {
    && row.root.journal == c.journal
    && row.generation <= c.maxGeneration
    && row.root.generation == row.generation
    && row.revision == Revision(row.root)
  }

  function FinishLoad(c: Client, reply: Reply): Client {
    if reply.Answer? && reply.response.LoadAnswer? then
      if reply.response.row == None then c.(snapshot := Some(Snapshot(None)), saveReady := true)
      else if ValidReadback(c, reply.response.row.value) then
        c.(snapshot := Some(Snapshot(Some(reply.response.row.value.root))), saveReady := true)
      else Poison(c, false, false)
    else Poison(c, false, false)
  }

  /* ---------- save ---------- */

  predicate MaySave(c: Client) {
    Usable(c) && c.commit == None && c.saveReady && c.snapshot.Some?
  }

  /** The checks made before anything is posted; `encodable` stands for the JSON and size bounds. */
  predicate SavePrepares(c: Client, root: Root, encodable: bool)
    requires c.snapshot.Some?
  {
    && encodable
    && c.snapshot.value.Generation() + 1 <= c.maxGeneration
    && root.journal == c.journal
    && root.generation == c.snapshot.value.Generation() + 1
  }

  function SaveRequest(c: Client, root: Root): Request
    requires c.snapshot.Some?
  {
    var body := SaveBody(c.id, c.snapshot.value.Expected(), c.journal, root);
    Request(IdOf(body), body)
  }

  /** Preparing a save either retains the request to post or fails closed with nothing posted. */
  function PrepareSave(c: Client, root: Root, encodable: bool): (Client, Option<Request>)
    requires MaySave(c)
  {
    if SavePrepares(c, root, encodable) then
      (c.(pending := Some(Pending(SaveRequest(c, root), root))), Some(SaveRequest(c, root)))
    else (Poison(c, false, false), None)
  }

  predicate ConfirmsPending(p: Pending, reply: Reply) {
    && reply.Answer? && reply.response.SaveAnswer?
    && reply.response.response.generation == p.candidate.generation
    && reply.response.response.revision == Revision(p.candidate)
    && reply.response.response.token == Token(p.request.id, Digest(p.request.body))
  }

  function AcceptSave(c: Client, p: Pending, token: Token): Client {
    c.(snapshot := Some(Snapshot(Some(p.candidate))), saveReady := false,
       commit := Some(Commit(p.candidate, token)),
       poisoned := false, ambiguous := false, replayAllowed := true)
  }

  /** A verified response that proves the request was not committed. */
  predicate DefinitelyRejected(reply: Reply) {
    reply.Answer? && reply.response.Refusal? && !reply.response.status.RetryableStatus?
  }

  function FinishSave(c: Client, reply: Reply): Client
    requires c.pending.Some?
  {
    if ConfirmsPending(c.pending.value, reply) then
      AcceptSave(c, c.pending.value, reply.response.response.token)
    else if DefinitelyRejected(reply) then Poison(c.(pending := None), false, false)
    else if reply.Unauthenticated? then Poison(c, true, false)
    else Poison(c, true, true)
  }

  /* ---------- explicit replay ---------- */

  predicate MayReplay(c: Client) {
    !c.closed && c.pending.Some? && c.replayAllowed && !(c.poisoned && !c.ambiguous)
  }

  function FinishReplay(c: Client, reply: Reply): Client
    requires c.pending.Some?
  {
    if ConfirmsPending(c.pending.value, reply) then
      AcceptSave(c, c.pending.value, reply.response.response.token)
    else Poison(c, true, true)
  }

  /* ---------- barrier ---------- */

  predicate MayBarrier(c: Client) {
    Usable(c) && c.commit.Some?
  }

  function BarrierRequest(c: Client, serial: nat): Request
    requires c.commit.Some?
  {
    Request(RandomId(serial), BarrierBody(c.id, c.commit.value.token, c.journal))
  }

  function FinishBarrier(c: Client, reply: Reply): Client
    requires c.commit.Some?
  {
    if reply == Answer(BarrierAnswer(c.commit.value.token)) then
      c.(commit := None, pending := None, replayAllowed := false)
    else Poison(c, true, false)
  }

  /* ---------- the store object ---------- */

  class RemoteReferenceJournalStore {
    const id: ClientId
    const journal: JournalId
    const maxGeneration: nat
    var snapshot: Option<Snapshot>
    var saveReady: bool
    var commit: Option<Commit>
    var pending: Option<Pending>
    var poisoned: bool
    var ambiguous: bool
    var replayAllowed: bool
    var closed: bool

    ghost function State(): Client
      reads this
    {
      Client(id, journal, maxGeneration, snapshot, saveReady, commit, pending, poisoned, ambiguous,
             replayAllowed, closed)
    }

    constructor (id: ClientId, journal: JournalId, maxGeneration: nat)
      ensures State() == Opened(id, journal, maxGeneration)
    {
      this.id, this.journal, this.maxGeneration := id, journal, maxGeneration;
      snapshot, saveReady, commit, pending := None, false, None, None;
      poisoned, ambiguous, replayAllowed, closed := false, false, false, false;
    }

    method MarkPoisoned(ambiguous: bool, replayAllowed: bool)
      modifies this
      ensures State() == Poison(old(State()), ambiguous, replayAllowed)
    {
      poisoned := true;
      this.ambiguous := ambiguous;
      this.replayAllowed := replayAllowed;
    }

    method StartLoad(serial: nat) returns (post: Option<Request>)
      ensures post == if MayLoad(State()) then Some(LoadRequest(State(), serial)) else None
    {
      if closed || poisoned {
        return None;
      }
      if commit.Some? {
        return None;
      }
      return Some(Request(RandomId(serial), LoadBody(id, journal)));
    }

    /** `loaded` is None when the load raises, and otherwise the root it returns, or absence. */
    method CompleteLoad(reply: Reply) returns (loaded: Option<Option<Root>>)
      modifies this
      ensures State() == FinishLoad(old(State()), reply)
      ensures reply == Answer(LoadAnswer(None)) ==> loaded == Some(None)
      ensures forall row :: reply == Answer(LoadAnswer(Some(row))) ==>
                loaded == if ValidReadback(old(State()), row) then Some(Some(row.root)) else None
      ensures !(reply.Answer? && reply.response.LoadAnswer?) ==> loaded == None
      ensures loaded.Some? ==> saveReady && snapshot == Some(Snapshot(loaded.value)) && poisoned == old(poisoned)
      ensures loaded == None ==> poisoned && !ambiguous && !replayAllowed
    {
      match reply
      case Answer(LoadAnswer(None)) =>
        snapshot, saveReady := Some(Snapshot(None)), true;
        return Some(None);
      case Answer(LoadAnswer(Some(row))) =>
        if row.generation > maxGeneration || row.root.journal != journal || row.root.generation != row.generation
           || row.revision != Revision(row.root) {
          MarkPoisoned(false, false);
          return None;
        }
        snapshot, saveReady := Some(Snapshot(Some(row.root))), true;
        return Some(Some(row.root));
      case _ =>
        MarkPoisoned(false, false);
        return None;
    }

    method StartSave(root: Root, encodable: bool) returns (post: Option<Request>)
      modifies this
      ensures !old(MaySave(State())) ==> post == None && State() == old(State())
      ensures old(MaySave(State())) ==> (State(), post) == old(PrepareSave(State(), root, encodable))
    {
      if closed || poisoned || commit.Some? || !saveReady || snapshot == None {
        return None;
      }
      var current := snapshot.value.root;
      var expectedGeneration := if current == None then 0 else current.value.generation + 1;
      if !encodable || expectedGeneration > maxGeneration || root.journal != journal
         || root.generation != expectedGeneration {
        MarkPoisoned(false, false);
        return None;
      }
      var expected := if current == None then None else Some(Revision(current.value));
      var body := SaveBody(id, expected, journal, root);
      var request := Request(IdOf(body), body);
      pending := Some(Pending(request, root));
      return Some(request);
    }

    method AcceptSaveResponse(p: Pending, token: Token)
      modifies this
      ensures State() == AcceptSave(old(State()), p, token)
    {
      snapshot, saveReady := Some(Snapshot(Some(p.candidate))), false;
      commit := Some(Commit(p.candidate, token));
      poisoned, ambiguous, replayAllowed := false, false, true;
    }

    method CompleteSave(reply: Reply)
      requires pending.Some?
      modifies this
      ensures State() == FinishSave(old(State()), reply)
    {
      match reply
      case Answer(SaveAnswer(response)) =>
        if ConfirmsPending(pending.value, reply) {
          AcceptSaveResponse(pending.value, response.token);
        } else {
          MarkPoisoned(true, true);
        }
      case Answer(Refusal(RetryableStatus)) =>
        MarkPoisoned(true, true);
      case Unauthenticated =>
        MarkPoisoned(true, false);
      case Answer(Refusal(_)) =>
        pending := None;
        MarkPoisoned(false, false);
      case _ =>
        MarkPoisoned(true, true);
    }

    method StartReplay() returns (post: Option<Request>)
      ensures post == if MayReplay(State()) then Some(pending.value.request) else None
    {
      if closed || pending == None || !replayAllowed || (poisoned && !ambiguous) {
        return None;
      }
      return Some(pending.value.request);
    }

    method CompleteReplay(reply: Reply)
      requires pending.Some?
      modifies this
      ensures State() == FinishReplay(old(State()), reply)
    {
      if ConfirmsPending(pending.value, reply) {
        AcceptSaveResponse(pending.value, reply.response.response.token);
      } else {
        MarkPoisoned(true, true);
      }
    }

    method StartBarrier(serial: nat) returns (post: Option<Request>)
      ensures post == if MayBarrier(State()) then Some(BarrierRequest(State(), serial)) else None
    {
      if closed || poisoned || commit == None {
        return None;
      }
      return Some(Request(RandomId(serial), BarrierBody(id, commit.value.token, journal)));
    }

    method CompleteBarrier(reply: Reply)
      requires commit.Some?
      modifies this
      ensures State() == FinishBarrier(old(State()), reply)
    {
      if reply.Answer? && reply.response.BarrierAnswer? && reply.response.token == commit.value.token {
        commit, pending, replayAllowed := None, None, false;
      } else {
        MarkPoisoned(true, false);
      }
    }

    method Close()
      modifies this
      ensures State() == old(State()).(closed := true)
    {
      closed := true;
    }
  }
}
