/**
 * The remote journal protocol as a whole: one server, any number of clients, and a network that
 * delivers each post at most once, late or never, and may lose any reply.
 *
 * A run is a sequence of events; an event that is not enabled changes nothing.
 */
module RemoteProtocol {
  import opened Basics
  import opened JournalDatabase
  import opened RemoteClient
  import JournalStore
  import Guards = ReplayGuards

  datatype Config = Config(limits: Limits, guardLimit: nat)

  datatype Op = LoadOp | SaveOp | ReplayOp | BarrierOp

  /** The one operation a client has in flight, and the post it waits for. */
  datatype Busy = Busy(op: Op, msg: nat, attempts: nat)

  /** A client with its endpoint boot identity; `floor` is the last generation it saw accepted. */
  datatype Party = Party(client: Client, boot: nat, busy: Option<Busy>, floor: int)

  datatype Post = Post(sender: ClientId, boot: nat, request: Request)

  datatype Sys = Sys(
    boot: nat,
    tables: Tables,
    guard: Guards.Guard<RequestId, Digest>,
    history: History,
    parties: map<ClientId, Party>,
    posts: seq<Post>,
    undelivered: set<nat>,
    replies: map<nat, Reply>,
    rejected: set<Body>)

  /** A storage failure may strike before or after the commit; the reply is a 5xx either way. */
  datatype Fault = NoFault | BeforeCommit | AfterCommit

  datatype Event =
    | Join(c: ClientId, journal: JournalId, boot: nat)
    | StartLoad(c: ClientId)
    | RetryLoad(c: ClientId)
    | StartSave(c: ClientId, root: Root, encodable: bool)
    | StartReplay(c: ClientId)
    | StartBarrier(c: ClientId)
    | Close(c: ClientId)
    | Receive(c: ClientId)
    | GiveUp(c: ClientId, failure: Reply)
    | Deliver(m: nat, fault: Fault)
    | Lose(m: nat)
    | Restart(boot: nat)

  const Initial := Sys(0, EmptyTables, Guards.Empty(), map[], map[], [], {}, map[], {})

  /* ---------- the server side ---------- */

  ghost function Dispatch(t: Tables, limits: Limits, b: Body): (Tables, Reply) {
    match b
    case HelloBody(_, nonce) => (t, Answer(HelloAnswer(nonce)))
    case LoadBody(_, j) =>
      if j in t.journals then
        var row := t.journals[j];
        (t, Answer(LoadAnswer(Some(LoadedRow(row.generation, row.revision, row.root)))))
      else (t, Answer(LoadAnswer(None)))
    case SaveBody(_, _, _, _) =>
      var (t', result) := JournalDatabase.Deliver(t, limits, b);
      (t', SaveReply(result))
    case BarrierBody(_, token, j) =>
      if JournalStore.KnownToken(t, j, token) then
        var id :| JournalStore.Names(t, j, token, id);
        (t, if JournalStore.BarrierVerdict(t, j, id).Replayed? then Answer(BarrierAnswer(token))
            else Answer(Refusal(RetryableStatus)))
      else (t, Answer(Refusal(Status409)))
  }

  function SaveReply(result: SaveResult): Reply {
    match result
    case Committed(r) => Answer(SaveAnswer(r))
    case Replayed(r) => Answer(SaveAnswer(r))
    case Conflict(_) => Answer(Refusal(Status409))
    case InvalidRoot => Answer(Refusal(OtherClientStatus))
    case Corrupt => Answer(Refusal(RetryableStatus))
  }

  function ClaimOf(r: Request): Guards.Claim<RequestId, Digest> {
    Guards.Claim(r.id, Digest(r.body), r.body.SaveBody? || r.body.BarrierBody?)
  }

  predicate WellAddressed(r: Request) {
    r.body.SaveBody? ==> r.id == IdOf(r.body)
  }

  /** The gates in order: authentication, save-ID check, replay claim, then dispatch. */
  ghost function Serve(cfg: Config, s: Sys, p: Post, fault: Fault): (Sys, Reply) {
    if p.boot != s.boot then (s, Unauthenticated)
    else if !WellAddressed(p.request) then (s, Answer(Refusal(OtherClientStatus)))
    else
      var claim := ClaimOf(p.request);
      if !Guards.Accepts(s.guard, claim) then (s, Answer(Refusal(Status409)))
      else
        var s1 := s.(guard := Guards.After(s.guard, cfg.guardLimit, claim));
        if fault == BeforeCommit then (s1, Answer(Refusal(RetryableStatus)))
        else
          var b := p.request.body;
          var (t', reply) := Dispatch(s.tables, cfg.limits, b);
          var h' := if b.SaveBody? then
                      HistoryAfter(s.history, b, JournalDatabase.Deliver(s.tables, cfg.limits, b).1)
                    else s.history;
          (s1.(tables := t', history := h'),
           if fault == AfterCommit then Answer(Refusal(RetryableStatus)) else reply)
  }

  ghost function DeliverPost(cfg: Config, s: Sys, m: nat, fault: Fault): Sys
    requires m < |s.posts|
  {
    var (s1, reply) := Serve(cfg, s, s.posts[m], fault);
    s1.(undelivered := s.undelivered - {m}, replies := s.replies[m := reply])
  }

  /* ---------- the client side ---------- */

  function Send(s: Sys, c: ClientId, p: Party, op: Op, attempts: nat, request: Request): Sys {
    var m := |s.posts|;
    s.(parties := s.parties[c := p.(busy := Some(Busy(op, m, attempts)))],
       posts := s.posts + [Post(c, p.boot, request)],
       undelivered := s.undelivered + {m})
  }

  function SetParty(s: Sys, c: ClientId, p: Party): Sys {
    s.(parties := s.parties[c := p])
  }

  function BeginSave(s: Sys, c: ClientId, root: Root, encodable: bool): Sys
    requires c in s.parties
  {
    var p := s.parties[c];
    if !MaySave(p.client) then s
    else
      var (client, post) := PrepareSave(p.client, root, encodable);
      if post == None then SetParty(s, c, p.(client := client))
      else Send(s, c, p.(client := client), SaveOp, 1, post.value)
  }

  function Begin(s: Sys, e: Event): Sys
    requires e.StartLoad? || e.StartSave? || e.StartReplay? || e.StartBarrier?
    requires e.c in s.parties
  {
    var p := s.parties[e.c];
    match e
    case StartLoad(c) =>
      if MayLoad(p.client) then Send(s, c, p, LoadOp, 1, LoadRequest(p.client, |s.posts|)) else s
    case StartSave(c, root, encodable) => BeginSave(s, c, root, encodable)
    case StartReplay(c) =>
      if MayReplay(p.client) then Send(s, c, p, ReplayOp, 1, p.client.pending.value.request) else s
    case StartBarrier(c) =>
      if MayBarrier(p.client) then Send(s, c, p, BarrierOp, 1, BarrierRequest(p.client, |s.posts|)) else s
  }

  function FinishClient(client: Client, op: Op, reply: Reply): Client {
    match op
    case LoadOp => FinishLoad(client, reply)
    case SaveOp => if client.pending.Some? then FinishSave(client, reply) else client
    case ReplayOp => if client.pending.Some? then FinishReplay(client, reply) else client
    case BarrierOp => if client.commit.Some? then FinishBarrier(client, reply) else client
  }

  /** The reply accepts the pending save. */
  predicate Accepted(client: Client, op: Op, reply: Reply) {
    (op == SaveOp || op == ReplayOp) && client.pending.Some? && ConfirmsPending(client.pending.value, reply)
  }

  /** The client now regards its pending save as rejected, with no ambiguity. */
  predicate RejectsPending(client: Client, op: Op, reply: Reply) {
    op == SaveOp && client.pending.Some? && !Accepted(client, op, reply) && DefinitelyRejected(reply)
  }

  function Finish(s: Sys, c: ClientId, reply: Reply): Sys
    requires c in s.parties && s.parties[c].busy.Some?
  {
    var p := s.parties[c];
    var op := p.busy.value.op;
    var p' := Party(FinishClient(p.client, op, reply), p.boot, None,
                    if Accepted(p.client, op, reply) then p.client.pending.value.candidate.generation else p.floor);
    SetParty(s, c, p').(rejected := if RejectsPending(p.client, op, reply)
                                    then s.rejected + {p.client.pending.value.request.body} else s.rejected)
  }

  predicate IsFailure(r: Reply) {
    !r.Answer?
  }

  predicate Idle(s: Sys, c: ClientId) {
    c in s.parties && s.parties[c].busy == None
  }

  predicate Waiting(s: Sys, c: ClientId) {
    c in s.parties && s.parties[c].busy.Some?
  }

  ghost function Step(cfg: Config, s: Sys, e: Event): Sys {
    match e
    case Join(c, j, boot) =>
      if c in s.parties then s
      else SetParty(s, c, Party(Opened(c, j, cfg.limits.maxGeneration), boot, None, -1))
    case StartLoad(c) => if Idle(s, c) then Begin(s, e) else s
    case StartSave(c, _, _) => if Idle(s, c) then Begin(s, e) else s
    case StartReplay(c) => if Idle(s, c) then Begin(s, e) else s
    case StartBarrier(c) => if Idle(s, c) then Begin(s, e) else s
    case RetryLoad(c) =>
      if Waiting(s, c) && s.parties[c].busy.value.op == LoadOp && s.parties[c].busy.value.attempts < 2 then
        Send(s, c, s.parties[c], LoadOp, 2, LoadRequest(s.parties[c].client, |s.posts|))
      else s
    case Close(c) =>
      if Idle(s, c) then SetParty(s, c, s.parties[c].(client := s.parties[c].client.(closed := true))) else s
    case Receive(c) =>
      if Waiting(s, c) && s.parties[c].busy.value.msg in s.replies then
        Finish(s, c, s.replies[s.parties[c].busy.value.msg])
      else s
    case GiveUp(c, failure) =>
      if Waiting(s, c) && IsFailure(failure) then Finish(s, c, failure) else s
    case Deliver(m, fault) => if m in s.undelivered && m < |s.posts| then DeliverPost(cfg, s, m, fault) else s
    case Lose(m) => s.(undelivered := s.undelivered - {m})
    case Restart(boot) => s.(boot := boot, guard := Guards.Empty())
  }

  ghost function Run(cfg: Config, events: seq<Event>): Sys {
    if events == [] then Initial else Step(cfg, Run(cfg, events[..|events| - 1]), events[|events| - 1])
  }

  /* ---------- the invariant ---------- */

  ghost predicate PendingShape(client: Client, p: Pending) {
    && p.request.body.SaveBody?
    && p.request == Request(IdOf(p.request.body), p.request.body)
    && p.request.body.client == client.id
    && p.request.body.journal == client.journal
    && p.request.body.root == p.candidate
    && p.candidate.journal == client.journal
    && p.candidate.generation <= client.maxGeneration
  }

  /** What the client's own fields always satisfy. */
  ghost predicate ClientSound(h: History, client: Client, floor: int) {
    && (client.replayAllowed ==> client.pending.Some? && (client.poisoned ==> client.ambiguous))
    && (client.pending.Some? ==>
          PendingShape(client, client.pending.value) && floor <= client.pending.value.candidate.generation)
    && (client.commit.Some? ==>
          && client.pending.Some?
          && floor == client.pending.value.candidate.generation
          && client.commit.value == Commit(client.pending.value.candidate, TokenOf(client.pending.value.request.body))
          && InHistory(h, client.pending.value.request.body))
    && (client.saveReady ==> client.snapshot.Some? && client.snapshot.value.Generation() >= floor)
    && (floor >= 0 ==> client.journal in h && floor < |h[client.journal]|)
    && (client.poisoned && !client.ambiguous ==> client.pending == None)
  }

  /** The first post of a save is the only post of its body until it is answered. */
  ghost predicate FirstPost(s: Sys, m: nat, b: Body) {
    && m < |s.posts|
    && (forall k: nat :: k < |s.posts| && k != m ==> s.posts[k].request.body != b)
    && (m in s.undelivered ==> !InHistory(s.history, b))
    && (m in s.replies && DefinitelyRejected(s.replies[m]) ==> !InHistory(s.history, b))
  }

  ghost predicate LoadReplyFresh(reply: Reply, floor: int) {
    reply.Answer? && reply.response.LoadAnswer? ==>
      if reply.response.row == None then floor < 0 else reply.response.row.value.generation >= floor
  }

  ghost predicate BusySound(s: Sys, c: ClientId, p: Party, busy: Busy) {
    && busy.msg < |s.posts|
    && s.posts[busy.msg].sender == c
    && match busy.op
       case LoadOp =>
         && p.client.commit == None && p.client.pending == None && !p.client.poisoned
         && s.posts[busy.msg].request.body == LoadBody(c, p.client.journal)
         && (busy.msg in s.replies ==> LoadReplyFresh(s.replies[busy.msg], p.floor))
       case SaveOp =>
         && p.client.commit == None && p.client.pending.Some? && !p.client.poisoned
         && s.posts[busy.msg].request == p.client.pending.value.request
         && p.floor < p.client.pending.value.candidate.generation
         && FirstPost(s, busy.msg, p.client.pending.value.request.body)
       case ReplayOp =>
         && p.client.pending.Some?
         && s.posts[busy.msg].request == p.client.pending.value.request
       case BarrierOp => p.client.commit.Some? && !p.client.poisoned
  }

  ghost predicate PartySound(cfg: Config, s: Sys, c: ClientId)
    requires c in s.parties
  {
    var p := s.parties[c];
    && p.client.id == c
    && p.client.maxGeneration == cfg.limits.maxGeneration
    && ClientSound(s.history, p.client, p.floor)
    && (p.busy.Some? ==> BusySound(s, c, p, p.busy.value))
    && (p.client.pending.Some? ==> WasPosted(s.posts, p.client.pending.value.request.body))
    && (p.busy == None && p.client.commit == None && !p.client.poisoned ==> p.client.pending == None)
  }

  ghost predicate ReplySound(h: History, b: Body, reply: Reply) {
    && (reply.Answer? && reply.response.SaveAnswer? ==>
          b.SaveBody? && InHistory(h, b) && reply.response.response == ResponseOf(b))
  }

  /** A save body that was ever posted is pending, settled below the floor, or rejected. */
  ghost predicate Accounted(s: Sys, p: Party, b: Body) {
    b.SaveBody? ==>
      || (p.client.pending.Some? && p.client.pending.value.request.body == b)
      || b.root.generation <= p.floor
      || b in s.rejected
  }

  ghost predicate PostSound(cfg: Config, s: Sys, m: nat)
    requires m < |s.posts|
  {
    var post := s.posts[m];
    && post.sender in s.parties
    && (post.request.body.SaveBody? ==>
          && post.request.id == IdOf(post.request.body)
          && post.request.body.client == post.sender
          && RootAdmitted(post.request.body, cfg.limits))
    && (!post.request.body.SaveBody? ==> post.request.id == RandomId(m))
    && (m in s.undelivered ==> m !in s.replies)
    && (m in s.replies ==> ReplySound(s.history, post.request.body, s.replies[m]))
    && Accounted(s, s.parties[post.sender], post.request.body)
  }

  ghost predicate GuardEntrySound(s: Sys, id: RequestId)
    requires id in s.guard.entries
  {
    match id
    case SaveId(d) => s.guard.entries[id] == d
    case RandomId(m) => m < |s.posts| && m !in s.undelivered
  }

  ghost predicate RejectedSound(s: Sys, b: Body) {
    && b.SaveBody?
    && !InHistory(s.history, b)
    && b.client in s.parties
    && s.parties[b.client].client.poisoned && !s.parties[b.client].client.ambiguous
    && s.parties[b.client].busy == None
    && (forall m: nat :: m in s.undelivered && m < |s.posts| ==> s.posts[m].request.body != b)
  }

  ghost predicate WasPosted(posts: seq<Post>, b: Body) {
    exists m: nat :: m < |posts| && posts[m].request.body == b
  }

  ghost predicate Sound(cfg: Config, s: Sys) {
    && Consistent(s.tables, cfg.limits, s.history)
    && Guards.WellFormed(s.guard)
    && (forall m :: m in s.undelivered ==> m < |s.posts|)
    && (forall m :: m in s.replies ==> m < |s.posts|)
    && (forall c :: c in s.parties ==> PartySound(cfg, s, c))
    && (forall m: nat :: m < |s.posts| ==> PostSound(cfg, s, m))
    && (forall id :: id in s.guard.entries ==> GuardEntrySound(s, id))
    && (forall b :: b in s.rejected ==> RejectedSound(s, b))
    && (forall b :: InHistory(s.history, b) ==> WasPosted(s.posts, b))
  }

  ghost predicate SaneConfig(cfg: Config) {
    Sane(cfg.limits) && cfg.guardLimit >= 1
  }

  /* ---------- client-side steps ---------- */

  ghost predicate Dead(client: Client) {
    client.poisoned && !client.ambiguous
  }

  /** What a request must be for its sender to post it. */
  ghost predicate Postable(cfg: Config, s: Sys, c: ClientId, r: Request) {
    && r.body.client == c
    && (r.body.SaveBody? ==> r.id == IdOf(r.body) && RootAdmitted(r.body, cfg.limits))
    && (!r.body.SaveBody? ==> r.id == RandomId(|s.posts|))
  }

  lemma StillPosted(posts: seq<Post>, more: seq<Post>, b: Body)
    requires WasPosted(posts, b)
    ensures WasPosted(posts + more, b)
  {
    var m: nat :| m < |posts| && posts[m].request.body == b;
    assert (posts + more)[m].request.body == b;
  }

  lemma OtherBusyAfterSend(cfg: Config, s: Sys, c: ClientId, p: Party, op: Op, n: nat, r: Request, other: ClientId)
    requires other in s.parties && other != c && Postable(cfg, s, c, r) && PartySound(cfg, s, other)
    requires forall k :: k in s.replies || k in s.undelivered ==> k < |s.posts|
    ensures var busy := s.parties[other].busy;
            busy.Some? ==> BusySound(Send(s, c, p, op, n, r), other, s.parties[other], busy.value)
  {
    hide InHistory, LoadReplyFresh, RootAdmitted, WasPosted;
  }

  lemma OtherPartyAfterSend(cfg: Config, s: Sys, c: ClientId, p: Party, op: Op, n: nat, r: Request, other: ClientId)
    requires Sound(cfg, s) && other in s.parties && other != c && Postable(cfg, s, c, r)
    ensures PartySound(cfg, Send(s, c, p, op, n, r), other)
  {
    hide Consistent, PostSound, RejectedSound, GuardEntrySound, LoadReplyFresh, InHistory, RootAdmitted, BusySound,
      ClientSound;
    assert PartySound(cfg, s, other);
    OtherBusyAfterSend(cfg, s, c, p, op, n, r, other);
    var pending := s.parties[other].client.pending;
    if pending.Some? {
      StillPosted(s.posts, [Post(c, p.boot, r)], pending.value.request.body);
    }
  }

  lemma PostAfterSend(cfg: Config, s: Sys, c: ClientId, p: Party, op: Op, n: nat, r: Request, m: nat)
    requires Sound(cfg, s) && c in s.parties && Postable(cfg, s, c, r)
    requires var s' := Send(s, c, p, op, n, r);
             && m < |s'.posts|
             && Accounted(s', s'.parties[c], r.body)
             && forall b :: Accounted(s, s.parties[c], b) ==> Accounted(s', s'.parties[c], b)
    ensures PostSound(cfg, Send(s, c, p, op, n, r), m)
  {
    if m < |s.posts| {
      assert PostSound(cfg, s, m);
    }
  }

  lemma EntryAfterSend(s: Sys, c: ClientId, p: Party, op: Op, n: nat, r: Request, id: RequestId)
    requires id in s.guard.entries && GuardEntrySound(s, id)
    ensures GuardEntrySound(Send(s, c, p, op, n, r), id)
  {
  }

  lemma RejectedAfterSend(cfg: Config, s: Sys, c: ClientId, p: Party, op: Op, n: nat, r: Request, b: Body)
    requires c in s.parties && !Dead(s.parties[c].client) && Postable(cfg, s, c, r) && RejectedSound(s, b)
    ensures RejectedSound(Send(s, c, p, op, n, r), b)
  {
  }

  lemma SendKeepsSound(cfg: Config, s: Sys, c: ClientId, p: Party, op: Op, n: nat, r: Request)
    requires Sound(cfg, s) && c in s.parties && !Dead(s.parties[c].client)
    requires Postable(cfg, s, c, r)
    requires var s' := Send(s, c, p, op, n, r);
             && PartySound(cfg, s', c)
             && Accounted(s', s'.parties[c], r.body)
             && forall b :: Accounted(s, s.parties[c], b) ==> Accounted(s', s'.parties[c], b)
    ensures Sound(cfg, Send(s, c, p, op, n, r))
  {
    hide PartySound, PostSound, RejectedSound, GuardEntrySound, Consistent, Accounted, Postable, Dead, WasPosted,
      InHistory;
    var s' := Send(s, c, p, op, n, r);
    forall other | other in s'.parties ensures PartySound(cfg, s', other) {
      if other != c {
        OtherPartyAfterSend(cfg, s, c, p, op, n, r, other);
      }
    }
    forall m: nat | m < |s'.posts| ensures PostSound(cfg, s', m) {
      PostAfterSend(cfg, s, c, p, op, n, r, m);
    }
    forall id | id in s'.guard.entries ensures GuardEntrySound(s', id) {
      EntryAfterSend(s, c, p, op, n, r, id);
    }
    forall b | b in s'.rejected ensures RejectedSound(s', b) {
      RejectedAfterSend(cfg, s, c, p, op, n, r, b);
    }
    forall b | InHistory(s'.history, b) ensures WasPosted(s'.posts, b) {
      StillPosted(s.posts, [Post(c, p.boot, r)], b);
    }
  }

  /** A step that changes one party, and possibly the rejected set, but posts nothing. */
  lemma PartyChangeKeepsSound(cfg: Config, s: Sys, c: ClientId, p: Party, rejected: set<Body>)
    requires Sound(cfg, s) && s.rejected <= rejected
    requires var s' := SetParty(s, c, p).(rejected := rejected);
             && PartySound(cfg, s', c)
             && (forall b :: b in rejected && (b !in s.rejected || b.client == c) ==> RejectedSound(s', b))
             && (forall m: nat :: m < |s.posts| && s.posts[m].sender == c ==> Accounted(s', p, s.posts[m].request.body))
    ensures Sound(cfg, SetParty(s, c, p).(rejected := rejected))
  {
    var s' := SetParty(s, c, p).(rejected := rejected);
    forall other | other in s'.parties ensures PartySound(cfg, s', other) {
      if other != c {
        assert PartySound(cfg, s, other);
      }
    }
    forall m: nat | m < |s'.posts| ensures PostSound(cfg, s', m) {
      assert PostSound(cfg, s, m);
    }
    forall id | id in s'.guard.entries ensures GuardEntrySound(s', id) {
      assert GuardEntrySound(s, id);
    }
    forall b | b in s'.rejected ensures RejectedSound(s', b) {
      if b in s.rejected && b.client != c {
        assert RejectedSound(s, b);
      }
    }
    forall b | InHistory(s'.history, b) ensures WasPosted(s'.posts, b) {
      assert WasPosted(s.posts, b);
    }
  }

  /** A save body about to be prepared was never posted before. */
  lemma NextSaveIsNew(cfg: Config, s: Sys, c: ClientId, root: Root)
    requires Sound(cfg, s) && Idle(s, c) && MaySave(s.parties[c].client)
    requires SavePrepares(s.parties[c].client, root, true)
    ensures var b := SaveRequest(s.parties[c].client, root).body;
            && !InHistory(s.history, b)
            && forall k: nat :: k < |s.posts| ==> s.posts[k].request.body != b
  {
    var p := s.parties[c];
    var b := SaveRequest(p.client, root).body;
    assert PartySound(cfg, s, c);
    assert b in s.rejected ==> RejectedSound(s, b);
    assert InHistory(s.history, b) ==> WasPosted(s.posts, b);
    forall k: nat | k < |s.posts| ensures s.posts[k].request.body != b {
      assert PostSound(cfg, s, k);
    }
  }

  lemma SaveStartKeepsSound(cfg: Config, s: Sys, c: ClientId, root: Root)
    requires Sound(cfg, s) && Idle(s, c) && MaySave(s.parties[c].client)
    requires SavePrepares(s.parties[c].client, root, true)
    ensures var (client, post) := PrepareSave(s.parties[c].client, root, true);
            post.Some? && Sound(cfg, Send(s, c, s.parties[c].(client := client), SaveOp, 1, post.value))
  {
    var p := s.parties[c];
    var (client, post) := PrepareSave(p.client, root, true);
    assert PartySound(cfg, s, c);
    NextSaveIsNew(cfg, s, c, root);
    var s' := Send(s, c, p.(client := client), SaveOp, 1, post.value);
    assert |s.posts| !in s.undelivered && |s.posts| !in s.replies;
    assert FirstPost(s', |s.posts|, post.value.body);
    assert s'.posts[|s.posts|].request.body == post.value.body;
    assert PartySound(cfg, s', c);
    SendKeepsSound(cfg, s, c, p.(client := client), SaveOp, 1, post.value);
  }

  /** Poisoning a client before anything is posted settles nothing and loses nothing. */
  lemma PrepareFailureKeepsSound(cfg: Config, s: Sys, c: ClientId)
    requires Sound(cfg, s) && Idle(s, c) && MaySave(s.parties[c].client)
    ensures Sound(cfg, SetParty(s, c, s.parties[c].(client := Poison(s.parties[c].client, false, false))))
  {
    var p := s.parties[c];
    var p' := p.(client := Poison(p.client, false, false));
    assert PartySound(cfg, s, c);
    var s' := SetParty(s, c, p');
    assert s' == s'.(rejected := s.rejected);
    forall m: nat | m < |s.posts| && s.posts[m].sender == c ensures Accounted(s', p', s.posts[m].request.body) {
      assert PostSound(cfg, s, m);
    }
    forall b | b in s.rejected ensures RejectedSound(s', b) {
      assert RejectedSound(s, b);
    }
    PartyChangeKeepsSound(cfg, s, c, p', s.rejected);
  }

  lemma LoadStartKeepsSound(cfg: Config, s: Sys, c: ClientId, attempts: nat)
    requires Sound(cfg, s) && c in s.parties && s.parties[c].client.commit == None && !s.parties[c].client.poisoned
    requires Idle(s, c) || s.parties[c].busy.value.op == LoadOp
    ensures Sound(cfg, Send(s, c, s.parties[c], LoadOp, attempts, LoadRequest(s.parties[c].client, |s.posts|)))
  {
    hide Consistent, PostSound, RejectedSound, GuardEntrySound, ClientSound;
    assert PartySound(cfg, s, c);
    assert |s.posts| !in s.undelivered && |s.posts| !in s.replies;
    SendKeepsSound(cfg, s, c, s.parties[c], LoadOp, attempts, LoadRequest(s.parties[c].client, |s.posts|));
  }

  lemma ReplayStartKeepsSound(cfg: Config, s: Sys, c: ClientId)
    requires Sound(cfg, s) && Idle(s, c) && MayReplay(s.parties[c].client)
    ensures Sound(cfg, Send(s, c, s.parties[c], ReplayOp, 1, s.parties[c].client.pending.value.request))
  {
    hide Consistent, RejectedSound, GuardEntrySound;
    var p := s.parties[c];
    var request := p.client.pending.value.request;
    assert PartySound(cfg, s, c);
    assert |s.posts| !in s.undelivered && |s.posts| !in s.replies;
    StillPosted(s.posts, [Post(c, p.boot, request)], request.body);
    RetainedIsPostable(cfg, s, c);
    SendKeepsSound(cfg, s, c, p, ReplayOp, 1, request);
  }

  lemma RetainedIsPostable(cfg: Config, s: Sys, c: ClientId)
    requires Sound(cfg, s) && c in s.parties && s.parties[c].client.pending.Some?
    ensures Postable(cfg, s, c, s.parties[c].client.pending.value.request)
  {
    hide Consistent, RejectedSound, GuardEntrySound, BusySound;
    assert PartySound(cfg, s, c);
    var body := s.parties[c].client.pending.value.request.body;
    var m: nat :| m < |s.posts| && s.posts[m].request.body == body;
    assert PostSound(cfg, s, m);
  }

  lemma BarrierStartKeepsSound(cfg: Config, s: Sys, c: ClientId)
    requires Sound(cfg, s) && Idle(s, c) && MayBarrier(s.parties[c].client)
    ensures Sound(cfg, Send(s, c, s.parties[c], BarrierOp, 1, BarrierRequest(s.parties[c].client, |s.posts|)))
  {
    hide Consistent, PostSound, RejectedSound, GuardEntrySound;
    var p := s.parties[c];
    assert PartySound(cfg, s, c);
    assert |s.posts| !in s.undelivered && |s.posts| !in s.replies;
    StillPosted(s.posts, [Post(c, p.boot, BarrierRequest(p.client, |s.posts|))], p.client.pending.value.request.body);
    SendKeepsSound(cfg, s, c, p, BarrierOp, 1, BarrierRequest(p.client, |s.posts|));
  }

  lemma StartKeepsSound(cfg: Config, s: Sys, e: Event)
    requires Sound(cfg, s)
    requires e.StartLoad? || e.StartSave? || e.StartReplay? || e.StartBarrier?
    requires Idle(s, e.c)
    ensures Sound(cfg, Begin(s, e))
  {
    hide Sound, Send, LoadRequest, BarrierRequest, PrepareSave;
    var client := s.parties[e.c].client;
    match e
    case StartLoad(c) => if MayLoad(client) { LoadStartKeepsSound(cfg, s, c, 1); }
    case StartSave(c, root, encodable) => if MaySave(client) { SaveBeginKeepsSound(cfg, s, c, root, encodable); }
    case StartReplay(c) => if MayReplay(client) { ReplayStartKeepsSound(cfg, s, c); }
    case StartBarrier(c) => if MayBarrier(client) { BarrierStartKeepsSound(cfg, s, c); }
  }

  lemma SaveBeginKeepsSound(cfg: Config, s: Sys, c: ClientId, root: Root, encodable: bool)
    requires Sound(cfg, s) && Idle(s, c) && MaySave(s.parties[c].client)
    ensures Sound(cfg, BeginSave(s, c, root, encodable))
  {
    hide Sound;
    if SavePrepares(s.parties[c].client, root, encodable) {
      SaveStartKeepsSound(cfg, s, c, root);
    } else {
      PrepareFailureKeepsSound(cfg, s, c);
    }
  }

  lemma RetryKeepsSound(cfg: Config, s: Sys, c: ClientId)
    requires Sound(cfg, s) && Waiting(s, c) && s.parties[c].busy.value.op == LoadOp
    ensures Sound(cfg, Send(s, c, s.parties[c], LoadOp, 2, LoadRequest(s.parties[c].client, |s.posts|)))
  {
    hide Consistent, PostSound, RejectedSound, GuardEntrySound, ClientSound;
    assert PartySound(cfg, s, c);
    LoadStartKeepsSound(cfg, s, c, 2);
  }

  /* ---------- replies reaching a client ---------- */

  /** The reply a waiting client acts on: the stored one, or a failure it observed. */
  ghost predicate Observes(s: Sys, c: ClientId, reply: Reply)
    requires Waiting(s, c)
  {
    IsFailure(reply) || (s.parties[c].busy.value.msg in s.replies && s.replies[s.parties[c].busy.value.msg] == reply)
  }

  lemma AcceptedClientSound(cfg: Config, s: Sys, c: ClientId, reply: Reply)
    requires Sound(cfg, s) && Waiting(s, c) && Observes(s, c, reply)
    requires Accepted(s.parties[c].client, s.parties[c].busy.value.op, reply)
    ensures PartySound(cfg, Finish(s, c, reply), c)
  {
    hide Consistent, RejectedSound, GuardEntrySound, LoadReplyFresh, WasPosted, Accounted;
    assert PartySound(cfg, s, c);
    var m := s.parties[c].busy.value.msg;
    assert PostSound(cfg, s, m);
    assert ReplySound(s.history, s.posts[m].request.body, reply);
  }

  lemma LoadedClientSound(h: History, client: Client, floor: int, reply: Reply)
    requires ClientSound(h, client, floor) && client.commit == None && client.pending == None && !client.poisoned
    requires LoadReplyFresh(reply, floor)
    ensures ClientSound(h, FinishLoad(client, reply), floor)
  {
    hide PendingShape, InHistory;
  }

  lemma LoadKeepsIdentity(client: Client, reply: Reply)
    ensures var client' := FinishLoad(client, reply);
            && client'.id == client.id && client'.maxGeneration == client.maxGeneration
            && client'.pending == client.pending
  {
  }

  lemma FinishedLoadSound(cfg: Config, s: Sys, c: ClientId, reply: Reply)
    requires Sound(cfg, s) && Waiting(s, c) && Observes(s, c, reply)
    requires s.parties[c].busy.value.op == LoadOp
    requires !Accepted(s.parties[c].client, LoadOp, reply)
    ensures PartySound(cfg, Finish(s, c, reply), c)
  {
    hide Consistent, PostSound, RejectedSound, GuardEntrySound, WasPosted, ClientSound, FinishLoad;
    assert PartySound(cfg, s, c);
    var p := s.parties[c];
    LoadedClientSound(s.history, p.client, p.floor, reply);
    LoadKeepsIdentity(p.client, reply);
  }

  lemma FinishedSaveSound(cfg: Config, s: Sys, c: ClientId, reply: Reply)
    requires Sound(cfg, s) && Waiting(s, c) && Observes(s, c, reply)
    requires s.parties[c].busy.value.op == SaveOp
    requires !Accepted(s.parties[c].client, SaveOp, reply)
    ensures PartySound(cfg, Finish(s, c, reply), c)
  {
    hide Consistent, PostSound, RejectedSound, GuardEntrySound, LoadReplyFresh, WasPosted;
    assert PartySound(cfg, s, c);
  }

  lemma FinishedReplaySound(cfg: Config, s: Sys, c: ClientId, reply: Reply)
    requires Sound(cfg, s) && Waiting(s, c) && Observes(s, c, reply)
    requires s.parties[c].busy.value.op == ReplayOp
    requires !Accepted(s.parties[c].client, ReplayOp, reply)
    ensures PartySound(cfg, Finish(s, c, reply), c)
  {
    hide Consistent, PostSound, RejectedSound, GuardEntrySound, LoadReplyFresh, WasPosted;
    assert PartySound(cfg, s, c);
  }

  lemma FinishedBarrierSound(cfg: Config, s: Sys, c: ClientId, reply: Reply)
    requires Sound(cfg, s) && Waiting(s, c) && Observes(s, c, reply)
    requires s.parties[c].busy.value.op == BarrierOp
    requires !Accepted(s.parties[c].client, BarrierOp, reply)
    ensures PartySound(cfg, Finish(s, c, reply), c)
  {
    hide Consistent, PostSound, RejectedSound, GuardEntrySound, LoadReplyFresh, WasPosted;
    assert PartySound(cfg, s, c);
  }

  lemma FinishedClientSound(cfg: Config, s: Sys, c: ClientId, reply: Reply)
    requires Sound(cfg, s) && Waiting(s, c) && Observes(s, c, reply)
    ensures PartySound(cfg, Finish(s, c, reply), c)
  {
    hide Sound, PartySound, Finish, Observes, Accepted;
    var op := s.parties[c].busy.value.op;
    if Accepted(s.parties[c].client, op, reply) {
      AcceptedClientSound(cfg, s, c, reply);
    } else {
      match op
      case LoadOp => FinishedLoadSound(cfg, s, c, reply);
      case SaveOp => FinishedSaveSound(cfg, s, c, reply);
      case ReplayOp => FinishedReplaySound(cfg, s, c, reply);
      case BarrierOp => FinishedBarrierSound(cfg, s, c, reply);
    }
  }

  lemma FinishedAccounts(cfg: Config, s: Sys, c: ClientId, reply: Reply, m: nat)
    requires Sound(cfg, s) && Waiting(s, c) && Observes(s, c, reply)
    requires m < |s.posts| && s.posts[m].sender == c
    ensures var s' := Finish(s, c, reply); Accounted(s', s'.parties[c], s.posts[m].request.body)
  {
    assert PartySound(cfg, s, c);
    assert PostSound(cfg, s, m);
  }

  lemma FinishedRejected(cfg: Config, s: Sys, c: ClientId, reply: Reply, b: Body)
    requires Sound(cfg, s) && Waiting(s, c) && Observes(s, c, reply)
    requires b in Finish(s, c, reply).rejected
    requires b !in s.rejected || b.client == c
    ensures RejectedSound(Finish(s, c, reply), b)
  {
    var p := s.parties[c];
    assert PartySound(cfg, s, c);
    assert b in s.rejected ==> RejectedSound(s, b);
    assert PostSound(cfg, s, p.busy.value.msg);
  }

  lemma FinishKeepsSound(cfg: Config, s: Sys, c: ClientId, reply: Reply)
    requires Sound(cfg, s) && Waiting(s, c) && Observes(s, c, reply)
    ensures Sound(cfg, Finish(s, c, reply))
  {
    var s' := Finish(s, c, reply);
    FinishedClientSound(cfg, s, c, reply);
    forall m: nat | m < |s.posts| && s.posts[m].sender == c
      ensures Accounted(s', s'.parties[c], s.posts[m].request.body)
    {
      FinishedAccounts(cfg, s, c, reply, m);
    }
    forall b | b in s'.rejected && (b !in s.rejected || b.client == c) ensures RejectedSound(s', b) {
      FinishedRejected(cfg, s, c, reply, b);
    }
    PartyChangeKeepsSound(cfg, s, c, s'.parties[c], s'.rejected);
  }

  lemma CloseKeepsSound(cfg: Config, s: Sys, c: ClientId)
    requires Sound(cfg, s) && Idle(s, c)
    ensures Sound(cfg, SetParty(s, c, s.parties[c].(client := s.parties[c].client.(closed := true))))
  {
    var p' := s.parties[c].(client := s.parties[c].client.(closed := true));
    var s' := SetParty(s, c, p');
    assert PartySound(cfg, s, c);
    assert s' == s'.(rejected := s.rejected);
    forall m: nat | m < |s.posts| && s.posts[m].sender == c ensures Accounted(s', p', s.posts[m].request.body) {
      assert PostSound(cfg, s, m);
    }
    forall b | b in s.rejected ensures RejectedSound(s', b) {
      assert RejectedSound(s, b);
    }
    PartyChangeKeepsSound(cfg, s, c, p', s.rejected);
  }

  lemma JoinKeepsSound(cfg: Config, s: Sys, c: ClientId, j: JournalId, boot: nat)
    requires Sound(cfg, s) && c !in s.parties
    ensures Sound(cfg, SetParty(s, c, Party(Opened(c, j, cfg.limits.maxGeneration), boot, None, -1)))
  {
    var p' := Party(Opened(c, j, cfg.limits.maxGeneration), boot, None, -1);
    var s' := SetParty(s, c, p');
    assert s' == s'.(rejected := s.rejected);
    forall m: nat | m < |s.posts| ensures s.posts[m].sender != c {
      assert PostSound(cfg, s, m);
    }
    forall b | b in s.rejected ensures RejectedSound(s', b) {
      assert RejectedSound(s, b);
    }
    PartyChangeKeepsSound(cfg, s, c, p', s.rejected);
  }

  /* ---------- server-side steps ---------- */

  /** A replay claim of an undelivered post is always accepted. */
  lemma GuardNeverRefuses(cfg: Config, s: Sys, m: nat)
    requires Sound(cfg, s) && m in s.undelivered && m < |s.posts|
    ensures WellAddressed(s.posts[m].request)
    ensures Guards.Accepts(s.guard, ClaimOf(s.posts[m].request))
  {
    assert PostSound(cfg, s, m);
    var id := s.posts[m].request.id;
    assert id in s.guard.entries ==> GuardEntrySound(s, id);
  }

  /** A server-side step leaves every client as it was and may only lengthen histories. */
  ghost predicate ServerStep(s: Sys, s': Sys) {
    && s'.parties == s.parties && s'.posts == s.posts && s'.rejected == s.rejected
    && s'.undelivered <= s.undelivered
    && NoShorter(s.history, s'.history)
    && (forall b :: InHistory(s.history, b) ==> InHistory(s'.history, b))
  }

  /** Only the delivered post `m` can change what is in the history or has a reply. */
  ghost predicate Delivers(s: Sys, s': Sys, m: nat) {
    && m in s.undelivered && m < |s.posts| && m !in s'.undelivered
    && (forall b :: InHistory(s'.history, b) ==> InHistory(s.history, b) || b == s.posts[m].request.body)
    && s'.replies.Keys == s.replies.Keys + {m}
    && (forall k :: k in s.replies && k != m ==> s'.replies[k] == s.replies[k])
    && ReplySound(s'.history, s.posts[m].request.body, s'.replies[m])
    && (DefinitelyRejected(s'.replies[m]) && !InHistory(s.history, s.posts[m].request.body) ==>
          !InHistory(s'.history, s.posts[m].request.body))
  }

  ghost predicate FreshForReader(s: Sys, s': Sys, m: nat, c: ClientId)
    requires c in s.parties && m in s'.replies
  {
    var p := s.parties[c];
    p.busy.Some? && p.busy.value.op == LoadOp && p.busy.value.msg == m ==> LoadReplyFresh(s'.replies[m], p.floor)
  }

  lemma PartyAfterDelivery(cfg: Config, s: Sys, s': Sys, m: nat, c: ClientId)
    requires Sound(cfg, s) && ServerStep(s, s') && Delivers(s, s', m) && c in s.parties
    requires FreshForReader(s, s', m, c)
    ensures PartySound(cfg, s', c)
  {
    hide Consistent, PostSound, RejectedSound, GuardEntrySound, WasPosted, LoadReplyFresh, PendingShape;
    assert PartySound(cfg, s, c);
  }

  lemma DeliveryKeepsSound(cfg: Config, s: Sys, s': Sys, m: nat)
    requires Sound(cfg, s) && ServerStep(s, s') && Delivers(s, s', m)
    requires Consistent(s'.tables, cfg.limits, s'.history) && Guards.WellFormed(s'.guard)
    requires forall id :: id in s'.guard.entries ==> GuardEntrySound(s', id)
    requires forall c :: c in s.parties ==> FreshForReader(s, s', m, c)
    ensures Sound(cfg, s')
  {
    hide PartySound, Consistent;
    forall c | c in s'.parties ensures PartySound(cfg, s', c) {
      assert FreshForReader(s, s', m, c);
      PartyAfterDelivery(cfg, s, s', m, c);
    }
    forall k: nat | k < |s'.posts| ensures PostSound(cfg, s', k) {
      assert PostSound(cfg, s, k);
    }
    forall b | b in s'.rejected ensures RejectedSound(s', b) {
      assert RejectedSound(s, b);
    }
    forall b | InHistory(s'.history, b) ensures WasPosted(s'.posts, b) {
      assert InHistory(s.history, b) ==> WasPosted(s.posts, b);
    }
  }

  lemma DeliveryAddsOnly(t: Tables, limits: Limits, h: History, b: Body, c: Body)
    requires Sane(limits) && Consistent(t, limits, h) && b.SaveBody?
    requires InHistory(HistoryAfter(h, b, JournalDatabase.Deliver(t, limits, b).1), c)
    ensures InHistory(h, c) || (c == b && JournalDatabase.Deliver(t, limits, b).1.Committed?)
  {
    if JournalDatabase.Deliver(t, limits, b).1.Committed? {
      ExtendsChain(t, limits, h, b);
    }
  }

  ghost predicate NoShorter(h: History, h': History) {
    forall j :: j in h ==> j in h' && |h[j]| <= |h'[j]|
  }

  lemma DeliveryEffect(t: Tables, limits: Limits, h: History, b: Body)
    requires Sane(limits) && Consistent(t, limits, h) && b.SaveBody?
    ensures var (t', result) := JournalDatabase.Deliver(t, limits, b);
            var h' := HistoryAfter(h, b, result);
            && Consistent(t', limits, h')
            && NoShorter(h, h')
            && ReplySound(h', b, SaveReply(result))
            && (DefinitelyRejected(SaveReply(result)) ==> !result.Committed?)
  {
    if RootAdmitted(b, limits) {
      SaveKeepsConsistent(t, limits, h, b);
      if Submit(t, limits, b).1.Committed? {
        ExtendsChain(t, limits, h, b);
        DeliveryKeepsHistory(t, limits, h, b, b);
      }
    }
  }

  /** A load post is answered from the tables, or not with a row at all. */
  lemma LoadServed(cfg: Config, s: Sys, m: nat, fault: Fault)
    requires m < |s.posts| && s.posts[m].request.body.LoadBody?
    ensures var reply := DeliverPost(cfg, s, m, fault).replies[m];
            || reply == Dispatch(s.tables, cfg.limits, s.posts[m].request.body).1
            || !(reply.Answer? && reply.response.LoadAnswer?)
  {
    hide Dispatch;
  }

  lemma LoadAnswerFresh(t: Tables, limits: Limits, h: History, b: Body, floor: int)
    requires Consistent(t, limits, h) && b.LoadBody? && (floor >= 0 ==> b.journal in h && floor < |h[b.journal]|)
    ensures LoadReplyFresh(Dispatch(t, limits, b).1, floor)
  {
    hide ShowsReceipt;
    if b.journal in h {
      assert ShowsNewest(t, h, b.journal);
    }
  }

  /** What the server answers to a load is at least as new as anything its reader saw accepted. */
  lemma LoadIsFresh(cfg: Config, s: Sys, m: nat, fault: Fault, c: ClientId)
    requires Sound(cfg, s) && m in s.undelivered && m < |s.posts| && c in s.parties
    ensures FreshForReader(s, DeliverPost(cfg, s, m, fault), m, c)
  {
    hide Consistent, PostSound, GuardEntrySound, RejectedSound, WasPosted, FirstPost, Serve, Dispatch, LoadReplyFresh;
    assert PartySound(cfg, s, c);
    var p := s.parties[c];
    if p.busy.Some? && p.busy.value.op == LoadOp && p.busy.value.msg == m {
      LoadServed(cfg, s, m, fault);
      LoadAnswerFresh(s.tables, cfg.limits, s.history, s.posts[m].request.body, p.floor);
      NoRowIsFresh(DeliverPost(cfg, s, m, fault).replies[m], p.floor);
    }
  }

  lemma NoRowIsFresh(reply: Reply, floor: int)
    ensures !(reply.Answer? && reply.response.LoadAnswer?) ==> LoadReplyFresh(reply, floor)
  {
  }

  lemma GuardAfterDelivery(cfg: Config, s: Sys, m: nat, fault: Fault)
    requires SaneConfig(cfg) && Sound(cfg, s) && m in s.undelivered && m < |s.posts|
    ensures var s' := DeliverPost(cfg, s, m, fault);
            && Guards.WellFormed(s'.guard)
            && forall id :: id in s'.guard.entries ==> GuardEntrySound(s', id)
  {
    hide Consistent, PartySound, RejectedSound, Dispatch, HistoryAfter, Accounted, ReplySound, WasPosted, RootAdmitted;
    var s' := DeliverPost(cfg, s, m, fault);
    var claim := ClaimOf(s.posts[m].request);
    assert PostSound(cfg, s, m);
    Guards.AfterWellFormed(s.guard, cfg.guardLimit, claim);
    forall id | id in s'.guard.entries ensures GuardEntrySound(s', id) {
      assert id in s.guard.entries ==> GuardEntrySound(s, id);
    }
  }

  /** Post `m` was delivered: every client and every other post is as before. */
  ghost predicate Delivered(s: Sys, s': Sys, m: nat) {
    && m < |s.posts| && m in s.undelivered
    && s'.parties == s.parties && s'.posts == s.posts && s'.rejected == s.rejected
    && s'.undelivered == s.undelivered - {m}
    && m in s'.replies && s'.replies == s.replies[m := s'.replies[m]]
  }

  /** The tables were only read, and the reply confirms no save. */
  ghost predicate StoreUntouched(s: Sys, s': Sys, m: nat)
    requires m in s'.replies
  {
    && s'.tables == s.tables && s'.history == s.history
    && !(s'.replies[m].Answer? && s'.replies[m].response.SaveAnswer?)
  }

  /** Exactly one save transaction was performed on the tables. */
  ghost predicate OneSave(cfg: Config, s: Sys, s': Sys, m: nat)
    requires m < |s.posts| && m in s'.replies
  {
    && s.posts[m].request.body.SaveBody?
    && var b := s.posts[m].request.body;
       var (t', result) := JournalDatabase.Deliver(s.tables, cfg.limits, b);
       && s'.tables == t' && s'.history == HistoryAfter(s.history, b, result)
       && (s'.replies[m] == SaveReply(result) || s'.replies[m] == Answer(Refusal(RetryableStatus)))
  }

  lemma ServedOnce(cfg: Config, s: Sys, m: nat, fault: Fault)
    requires m < |s.posts| && m in s.undelivered
    ensures var s' := DeliverPost(cfg, s, m, fault);
            Delivered(s, s', m) && (StoreUntouched(s, s', m) || OneSave(cfg, s, s', m))
  {
  }

  lemma UntouchedIsServerStep(cfg: Config, s: Sys, s': Sys, m: nat)
    requires Sound(cfg, s) && Delivered(s, s', m) && StoreUntouched(s, s', m)
    ensures ServerStep(s, s') && Delivers(s, s', m) && Consistent(s'.tables, cfg.limits, s'.history)
  {
    assert ReplySound(s'.history, s.posts[m].request.body, s'.replies[m]);
  }

  lemma SaveIsServerStep(cfg: Config, s: Sys, s': Sys, m: nat)
    requires SaneConfig(cfg) && Sound(cfg, s) && Delivered(s, s', m) && OneSave(cfg, s, s', m)
    ensures ServerStep(s, s') && Delivers(s, s', m) && Consistent(s'.tables, cfg.limits, s'.history)
  {
    hide PartySound, PostSound, GuardEntrySound, RejectedSound, WasPosted, Consistent, HistoryAfter, InHistory,
      JournalDatabase.Deliver;
    var b := s.posts[m].request.body;
    var result := JournalDatabase.Deliver(s.tables, cfg.limits, b).1;
    DeliveryEffect(s.tables, cfg.limits, s.history, b);
    forall c | InHistory(s.history, c) ensures InHistory(s'.history, c) {
      DeliveryKeepsHistory(s.tables, cfg.limits, s.history, b, c);
    }
    forall c | InHistory(s'.history, c)
      ensures InHistory(s.history, c) || (c == b && result.Committed?)
    {
      DeliveryAddsOnly(s.tables, cfg.limits, s.history, b, c);
    }
  }

  lemma DeliverIsServerStep(cfg: Config, s: Sys, m: nat, fault: Fault)
    requires SaneConfig(cfg) && Sound(cfg, s) && m in s.undelivered && m < |s.posts|
    ensures var s' := DeliverPost(cfg, s, m, fault);
            ServerStep(s, s') && Delivers(s, s', m) && Consistent(s'.tables, cfg.limits, s'.history)
  {
    hide Sound, DeliverPost, ServerStep, Delivers, StoreUntouched, OneSave, Delivered, Consistent;
    var s' := DeliverPost(cfg, s, m, fault);
    ServedOnce(cfg, s, m, fault);
    if StoreUntouched(s, s', m) {
      UntouchedIsServerStep(cfg, s, s', m);
    } else {
      SaveIsServerStep(cfg, s, s', m);
    }
  }

  lemma DeliverKeepsSound(cfg: Config, s: Sys, m: nat, fault: Fault)
    requires SaneConfig(cfg) && Sound(cfg, s) && m in s.undelivered && m < |s.posts|
    ensures Sound(cfg, DeliverPost(cfg, s, m, fault))
  {
    hide Sound, DeliverPost, ServerStep, FreshForReader, GuardEntrySound, Consistent;
    var s' := DeliverPost(cfg, s, m, fault);
    DeliverIsServerStep(cfg, s, m, fault);
    GuardAfterDelivery(cfg, s, m, fault);
    forall c | c in s.parties ensures FreshForReader(s, s', m, c) {
      LoadIsFresh(cfg, s, m, fault, c);
    }
    DeliveryKeepsSound(cfg, s, s', m);
  }

  /** Losing a post, or restarting with an empty replay guard, changes nothing that was promised. */
  lemma QuietStepKeepsSound(cfg: Config, s: Sys, s': Sys)
    requires Sound(cfg, s)
    requires s' == s.(boot := s'.boot, guard := s'.guard, undelivered := s'.undelivered)
    requires s'.undelivered <= s.undelivered
    requires s'.guard == s.guard || s'.guard == Guards.Empty()
    ensures Sound(cfg, s')
  {
    forall c | c in s'.parties ensures PartySound(cfg, s', c) {
      assert PartySound(cfg, s, c);
    }
    forall m: nat | m < |s'.posts| ensures PostSound(cfg, s', m) {
      assert PostSound(cfg, s, m);
    }
    forall id | id in s'.guard.entries ensures GuardEntrySound(s', id) {
      assert GuardEntrySound(s, id);
    }
    forall b | b in s'.rejected ensures RejectedSound(s', b) {
      assert RejectedSound(s, b);
    }
    forall b | InHistory(s'.history, b) ensures WasPosted(s'.posts, b) {
      assert WasPosted(s.posts, b);
    }
  }

  lemma StepKeepsSound(cfg: Config, s: Sys, e: Event)
    requires SaneConfig(cfg) && Sound(cfg, s)
    ensures Sound(cfg, Step(cfg, s, e))
  {
    hide Sound, Begin, Finish, DeliverPost, Send, Opened, SaneConfig;
    match e
    case Join(c, j, boot) =>
      if c !in s.parties {
        JoinKeepsSound(cfg, s, c, j, boot);
      }
    case RetryLoad(c) =>
      if Waiting(s, c) && s.parties[c].busy.value.op == LoadOp {
        RetryKeepsSound(cfg, s, c);
      }
    case Close(c) =>
      if Idle(s, c) {
        CloseKeepsSound(cfg, s, c);
      }
    case Receive(c) =>
      if Waiting(s, c) && s.parties[c].busy.value.msg in s.replies {
        FinishKeepsSound(cfg, s, c, s.replies[s.parties[c].busy.value.msg]);
      }
    case GiveUp(c, failure) =>
      if Waiting(s, c) && IsFailure(failure) {
        FinishKeepsSound(cfg, s, c, failure);
      }
    case Deliver(m, fault) =>
      if m in s.undelivered && m < |s.posts| {
        DeliverKeepsSound(cfg, s, m, fault);
      }
    case Lose(m) => QuietStepKeepsSound(cfg, s, s.(undelivered := s.undelivered - {m}));
    case Restart(boot) => QuietStepKeepsSound(cfg, s, s.(boot := boot, guard := Guards.Empty()));
    case _ =>
      if Idle(s, e.c) {
        StartKeepsSound(cfg, s, e);
      }
  }

  lemma {:induction false} RunSound(cfg: Config, events: seq<Event>)
    requires SaneConfig(cfg)
    ensures Sound(cfg, Run(cfg, events))
  {
    if events == [] {
      assert forall id :: ShowsReceipt(EmptyTables, cfg.limits, map[], id);
    } else {
      RunSound(cfg, events[..|events| - 1]);
      StepKeepsSound(cfg, Run(cfg, events[..|events| - 1]), events[|events| - 1]);
    }
  }

  /* ---------- what every run guarantees ---------- */

  /**
   * Whenever a client holds a commit, the append-only history of its journal at that generation is
   * exactly the body this client submitted, with the committed root and token.
   */
  lemma CommitIsInHistory(cfg: Config, events: seq<Event>, c: ClientId)
    requires SaneConfig(cfg)
    requires c in Run(cfg, events).parties && Run(cfg, events).parties[c].client.commit.Some?
    ensures var s := Run(cfg, events);
            var client := s.parties[c].client;
            var g := client.commit.value.root.generation;
            && client.journal in s.history && g < |s.history[client.journal]|
            && var b := s.history[client.journal][g];
               b.SaveBody? && b.client == c && b.root == client.commit.value.root
               && TokenOf(b) == client.commit.value.token
  {
    RunSound(cfg, events);
    assert PartySound(cfg, Run(cfg, events), c);
  }

  /** Which events post, and for whom. */
  lemma OnlyStartsPost(cfg: Config, s: Sys, e: Event)
    requires |Step(cfg, s, e).posts| > |s.posts|
    ensures e.StartLoad? || e.RetryLoad? || e.StartSave? || e.StartReplay? || e.StartBarrier?
    ensures e.c in s.parties && Step(cfg, s, e).posts[|s.posts|].sender == e.c
    ensures e.StartReplay? ==>
              (MayReplay(s.parties[e.c].client)
               && Step(cfg, s, e).posts[|s.posts|].request == s.parties[e.c].client.pending.value.request)
    ensures !e.StartReplay? && !e.RetryLoad? ==> !s.parties[e.c].client.poisoned
    ensures e.RetryLoad? ==> Waiting(s, e.c) && s.parties[e.c].busy.value.op == LoadOp
  {
  }

  /**
   * While a client is poisoned, the only request it can post is the retained save, identical to
   * one that was posted before.
   */
  lemma PoisonedPostsOnlyTheRetainedSave(cfg: Config, events: seq<Event>, e: Event)
    requires SaneConfig(cfg)
    requires var s, s' := Run(cfg, events), Step(cfg, Run(cfg, events), e);
             |s'.posts| > |s.posts| && s'.posts[|s.posts|].sender in s.parties
             && s.parties[s'.posts[|s.posts|].sender].client.poisoned
    ensures var s, s' := Run(cfg, events), Step(cfg, Run(cfg, events), e);
            var post := s'.posts[|s.posts|];
            var client := s.parties[post.sender].client;
            && e == StartReplay(post.sender)
            && client.pending.Some? && post.request == client.pending.value.request
            && exists m: nat :: m < |s.posts| && s.posts[m].request == post.request
  {
    RunSound(cfg, events);
    var s := Run(cfg, events);
    OnlyStartsPost(cfg, s, e);
    RetainedWasPosted(cfg, s, e.c);
  }

  lemma RetainedWasPosted(cfg: Config, s: Sys, c: ClientId)
    requires Sound(cfg, s) && c in s.parties
    ensures s.parties[c].client.pending.Some? ==>
              exists m: nat :: m < |s.posts| && s.posts[m].request == s.parties[c].client.pending.value.request
    ensures s.parties[c].busy.Some? && s.parties[c].busy.value.op == LoadOp ==> !s.parties[c].client.poisoned
  {
    assert PartySound(cfg, s, c);
    var pending := s.parties[c].client.pending;
    if pending.Some? {
      assert WasPosted(s.posts, pending.value.request.body);
      var m: nat :| m < |s.posts| && s.posts[m].request.body == pending.value.request.body;
      assert PostSound(cfg, s, m);
      assert s.posts[m].request == pending.value.request;
    }
  }

  /** Replay is possible exactly while it is allowed and the store is open; a save is then retained. */
  lemma ReplayExactlyWhenAllowed(cfg: Config, events: seq<Event>, c: ClientId)
    requires SaneConfig(cfg) && c in Run(cfg, events).parties
    ensures var client := Run(cfg, events).parties[c].client;
            && (MayReplay(client) <==> client.replayAllowed && !client.closed)
            && (client.replayAllowed ==> client.pending.Some?)
  {
    RunSound(cfg, events);
    assert PartySound(cfg, Run(cfg, events), c);
  }

  /** No step shortens what the server or the clients remember. */
  ghost predicate Grows(s: Sys, s': Sys) {
    && s.rejected <= s'.rejected
    && forall b :: InHistory(s.history, b) ==> InHistory(s'.history, b)
  }

  lemma ClientStepGrows(cfg: Config, s: Sys, e: Event)
    requires !e.Deliver?
    ensures Step(cfg, s, e).history == s.history && s.rejected <= Step(cfg, s, e).rejected
  {
  }

  lemma StepGrows(cfg: Config, s: Sys, e: Event)
    requires SaneConfig(cfg) && Sound(cfg, s)
    ensures Grows(s, Step(cfg, s, e))
  {
    hide Sound, DeliverPost, Delivers, Consistent, InHistory;
    if !e.Deliver? {
      ClientStepGrows(cfg, s, e);
    } else if e.m in s.undelivered && e.m < |s.posts| {
      DeliverIsServerStep(cfg, s, e.m, e.fault);
    }
  }

  lemma {:induction false} RunGrows(cfg: Config, events: seq<Event>, i: nat)
    requires SaneConfig(cfg) && i <= |events|
    ensures Grows(Run(cfg, events[..i]), Run(cfg, events))
  {
    if i == |events| {
      assert events[..i] == events;
    } else {
      var front := events[..|events| - 1];
      assert front[..i] == events[..i];
      RunGrows(cfg, front, i);
      RunSound(cfg, front);
      StepGrows(cfg, Run(cfg, front), events[|events| - 1]);
    }
  }

  /** A save the client saw rejected without ambiguity is in no later history of the run. */
  lemma RejectedNeverCommits(cfg: Config, events: seq<Event>, i: nat, b: Body)
    requires SaneConfig(cfg) && i <= |events| && b in Run(cfg, events[..i]).rejected
    ensures !InHistory(Run(cfg, events).history, b)
  {
    RunGrows(cfg, events, i);
    RunSound(cfg, events);
    assert RejectedSound(Run(cfg, events), b);
  }

  /** A commit a client once held stays in the history for the rest of the run. */
  lemma CommitStaysInHistory(cfg: Config, events: seq<Event>, i: nat, c: ClientId)
    requires SaneConfig(cfg) && i <= |events|
    requires var s := Run(cfg, events[..i]);
             c in s.parties && s.parties[c].client.commit.Some?
    ensures var s, s' := Run(cfg, events[..i]), Run(cfg, events);
            var client := s.parties[c].client;
            exists b :: InHistory(s'.history, b) && b.client == c && b.journal == client.journal
                        && b.root == client.commit.value.root && TokenOf(b) == client.commit.value.token
  {
    var s := Run(cfg, events[..i]);
    RunSound(cfg, events[..i]);
    assert PartySound(cfg, s, c);
    RunGrows(cfg, events, i);
    assert InHistory(Run(cfg, events).history, s.parties[c].client.pending.value.request.body);
  }

  /** At every point of every run the replay guard accepts every post that can still be delivered. */
  lemma EveryDeliverableClaimIsAccepted(cfg: Config, events: seq<Event>, m: nat)
    requires SaneConfig(cfg) && m in Run(cfg, events).undelivered
    ensures m < |Run(cfg, events).posts|
    ensures Guards.Accepts(Run(cfg, events).guard, ClaimOf(Run(cfg, events).posts[m].request))
  {
    RunSound(cfg, events);
    GuardNeverRefuses(cfg, Run(cfg, events), m);
  }

  /** Whenever the server restarts, its startup check accepts the tables. */
  lemma RestartFindsValidTables(cfg: Config, events: seq<Event>, scan: seq<RequestId>)
    requires SaneConfig(cfg)
    requires Distinct(scan) && Elements(scan) == Run(cfg, events).tables.receipts.Keys
    ensures JournalStore.RowsValid(Run(cfg, events).tables, cfg.limits, scan)
  {
    RunSound(cfg, events);
    JournalStore.ConsistentRowsAreValid(Run(cfg, events).tables, cfg.limits, Run(cfg, events).history, scan);
  }
}
