/**
 * What the remote protocol's answers mean: every reply a server ever gave is a function of the
 * history at the moment of delivery, snapshots are roots of the history, and an undisturbed
 * exchange of a load, save, replay or barrier ends exactly as the history says.
 */
module RemoteExchanges {
  import opened Basics
  import opened JournalDatabase
  import opened RemoteClient
  import opened RemoteProtocol
  import JournalStore
  import Guards = ReplayGuards

  /* ---------- replies as a function of the history ---------- */

  /** The last committed root of a journal. */
  function NewestRoot(h: History, j: JournalId): Option<Root> {
    if j in h && h[j] != [] && h[j][|h[j]| - 1].SaveBody? then Some(h[j][|h[j]| - 1].root) else None
  }

  function RowFor(root: Option<Root>): Option<LoadedRow> {
    if root == None then None else Some(LoadedRow(root.value.generation, Revision(root.value), root.value))
  }

  /** The token belongs to a retained commit of the journal. */
  predicate TokenRetained(h: History, limits: Limits, j: JournalId, token: Token) {
    var b := token.digest.body;
    b.SaveBody? && b.journal == j && token == TokenOf(b) && Retained(h, limits, b)
  }

  /** Reference: what a server that knows only the history answers. */
  function FromHistory(h: History, limits: Limits, b: Body): Reply {
    match b
    case HelloBody(_, nonce) => Answer(HelloAnswer(nonce))
    case LoadBody(_, j) => Answer(LoadAnswer(RowFor(NewestRoot(h, j))))
    case SaveBody(_, _, _, _) => SaveReply(Answered(h, limits, b))
    case BarrierBody(_, token, j) =>
      if TokenRetained(h, limits, j, token) then Answer(BarrierAnswer(token)) else Answer(Refusal(Status409))
  }

  lemma LoadIsFromHistory(t: Tables, limits: Limits, h: History, b: Body)
    requires Consistent(t, limits, h) && b.LoadBody?
    ensures Dispatch(t, limits, b).1 == FromHistory(h, limits, b)
  {
    hide ShowsReceipt;
    if b.journal in h {
      assert ShowsNewest(t, h, b.journal);
    }
  }

  lemma BarrierIsFromHistory(t: Tables, limits: Limits, h: History, b: Body)
    requires Consistent(t, limits, h) && b.BarrierBody?
    ensures Dispatch(t, limits, b).1 == FromHistory(h, limits, b)
  {
    hide ShowsNewest, IsChain, JournalStore.BarrierVerdict;
    var j, token := b.journal, b.token;
    forall id | JournalStore.Names(t, j, token, id) ensures TokenRetained(h, limits, j, token) {
      assert ShowsReceipt(t, limits, h, id);
    }
    if TokenRetained(h, limits, j, token) {
      JournalStore.BarrierMeansRetained(t, limits, h, token.digest.body);
    }
  }

  lemma DispatchIsFromHistory(t: Tables, limits: Limits, h: History, b: Body)
    requires Sane(limits) && Consistent(t, limits, h)
    ensures Dispatch(t, limits, b).1 == FromHistory(h, limits, b)
  {
    hide Consistent, Answered, JournalDatabase.Deliver;
    match b
    case HelloBody(_, _) =>
    case LoadBody(_, _) => LoadIsFromHistory(t, limits, h, b);
    case SaveBody(_, _, _, _) => DeliveryIsAnsweredFromHistory(t, limits, h, b);
    case BarrierBody(_, _, _) => BarrierIsFromHistory(t, limits, h, b);
  }

  /** The reply to post `m` when it is delivered now. */
  function ReplyNow(cfg: Config, s: Sys, m: nat, fault: Fault): Reply
    requires m < |s.posts|
  {
    if s.posts[m].boot != s.boot then Unauthenticated
    else if fault != NoFault then Answer(Refusal(RetryableStatus))
    else FromHistory(s.history, cfg.limits, s.posts[m].request.body)
  }

  /** The history after post `m` is delivered now: a save takes effect unless the failure came first. */
  function HistoryNow(cfg: Config, s: Sys, m: nat, fault: Fault): History
    requires m < |s.posts|
  {
    var b := s.posts[m].request.body;
    if s.posts[m].boot != s.boot || fault == BeforeCommit || !b.SaveBody? then s.history
    else HistoryAfter(s.history, b, Answered(s.history, cfg.limits, b))
  }

  /** The server gives exactly the reply, and makes exactly the change, that the history calls for. */
  lemma ServedFromHistory(cfg: Config, s: Sys, m: nat, fault: Fault)
    requires SaneConfig(cfg) && Sound(cfg, s) && m in s.undelivered && m < |s.posts|
    ensures DeliverPost(cfg, s, m, fault).replies[m] == ReplyNow(cfg, s, m, fault)
    ensures DeliverPost(cfg, s, m, fault).history == HistoryNow(cfg, s, m, fault)
  {
    hide Consistent, Dispatch, FromHistory, JournalDatabase.Deliver, Answered, PartySound, PostSound, WellAddressed,
      ClaimOf, RejectedSound, GuardEntrySound, WasPosted;
    var b := s.posts[m].request.body;
    GuardNeverRefuses(cfg, s, m);
    DispatchIsFromHistory(s.tables, cfg.limits, s.history, b);
    if b.SaveBody? {
      DeliveryIsAnsweredFromHistory(s.tables, cfg.limits, s.history, b);
    }
  }

  /** The reply to post `m` is the one that delivering it as event `k` of the run gave. */
  ghost predicate ServedAt(cfg: Config, events: seq<Event>, k: nat, m: nat, reply: Reply) {
    && k < |events| && events[k].Deliver? && events[k].m == m
    && var s := Run(cfg, events[..k]);
       m in s.undelivered && m < |s.posts| && reply == ReplyNow(cfg, s, m, events[k].fault)
  }

  lemma ServedAtStays(cfg: Config, events: seq<Event>, n: nat, k: nat, m: nat, reply: Reply)
    requires n <= |events| && ServedAt(cfg, events[..n], k, m, reply)
    ensures ServedAt(cfg, events, k, m, reply)
  {
    hide Run, ReplyNow;
    assert events[..n][..k] == events[..k];
  }

  lemma OldReplyStays(cfg: Config, s: Sys, e: Event, m: nat)
    requires m in Step(cfg, s, e).replies
    ensures !(e.Deliver? && e.m == m && m in s.undelivered && m < |s.posts|) ==>
              m in s.replies && Step(cfg, s, e).replies[m] == s.replies[m]
  {
    hide Dispatch;
  }

  /** Every reply of every run is what the history at its delivery calls for. */
  lemma {:induction false} EveryReplyIsFromHistory(cfg: Config, events: seq<Event>, m: nat)
    requires SaneConfig(cfg) && m in Run(cfg, events).replies
    ensures exists k: nat :: ServedAt(cfg, events, k, m, Run(cfg, events).replies[m])
  {
    hide Step, Sound, SaneConfig, ReplyNow, DeliverPost;
    if events != [] {
      var n := |events| - 1;
      var s, e := Run(cfg, events[..n]), events[n];
      RunSound(cfg, events[..n]);
      OldReplyStays(cfg, s, e, m);
      if e.Deliver? && e.m == m && m in s.undelivered && m < |s.posts| {
        ServedFromHistory(cfg, s, m, e.fault);
        DeliverIs(cfg, s, m, e.fault);
        assert ServedAt(cfg, events, n, m, Run(cfg, events).replies[m]);
      } else {
        EveryReplyIsFromHistory(cfg, events[..n], m);
        var k: nat :| ServedAt(cfg, events[..n], k, m, s.replies[m]);
        ServedAtStays(cfg, events, n, k, m, s.replies[m]);
      }
    }
  }

  lemma DeliverIs(cfg: Config, s: Sys, m: nat, fault: Fault)
    requires m in s.undelivered && m < |s.posts|
    ensures Step(cfg, s, Deliver(m, fault)) == DeliverPost(cfg, s, m, fault)
  {
  }

  /* ---------- snapshots are roots of the history ---------- */

  ghost predicate HoldsRoot(h: History, j: JournalId, root: Root) {
    exists b :: InHistory(h, b) && b.journal == j && b.root == root
  }

  /** What the client took for the journal's root is one of its history. */
  ghost predicate SnapshotHeld(h: History, client: Client) {
    client.snapshot.Some? && client.snapshot.value.root.Some? ==>
      HoldsRoot(h, client.journal, client.snapshot.value.root.value)
  }

  /** A row the server sent describes a root of the history. */
  ghost predicate RowHeld(h: History, limits: Limits, j: JournalId, row: LoadedRow) {
    && HoldsRoot(h, j, row.root) && row == LoadedRow(row.root.generation, Revision(row.root), row.root)
    && row.root.journal == j && row.root.generation <= limits.maxGeneration
  }

  ghost predicate ReplyHeld(cfg: Config, s: Sys, m: nat)
    requires m < |s.posts| && m in s.replies
  {
    var b, reply := s.posts[m].request.body, s.replies[m];
    reply.Answer? && reply.response.LoadAnswer? ==>
      b.LoadBody? && (reply.response.row.Some? ==> RowHeld(s.history, cfg.limits, b.journal, reply.response.row.value))
  }

  ghost predicate Held(cfg: Config, s: Sys) {
    && (forall c :: c in s.parties ==> SnapshotHeld(s.history, s.parties[c].client))
    && (forall m: nat :: m in s.replies && m < |s.posts| ==> ReplyHeld(cfg, s, m))
  }

  lemma HoldsRootStays(h: History, h': History, j: JournalId, root: Root)
    requires HoldsRoot(h, j, root) && forall b :: InHistory(h, b) ==> InHistory(h', b)
    ensures HoldsRoot(h', j, root)
  {
    var b :| InHistory(h, b) && b.journal == j && b.root == root;
    assert InHistory(h', b);
  }

  /** The newest root of a consistent history is held by it, and within the generation space. */
  lemma NewestIsHeld(cfg: Config, s: Sys, j: JournalId)
    requires Sound(cfg, s) && NewestRoot(s.history, j).Some?
    ensures RowHeld(s.history, cfg.limits, j, RowFor(NewestRoot(s.history, j)).value)
  {
    hide PartySound, RejectedSound, GuardEntrySound, Reflects;
    var last := s.history[j][|s.history[j]| - 1];
    assert Link(j, s.history[j], |s.history[j]| - 1);
    assert InHistory(s.history, last);
    var m: nat :| m < |s.posts| && s.posts[m].request.body == last;
    assert PostSound(cfg, s, m);
  }

  lemma ReplyStaysHeld(cfg: Config, s: Sys, s': Sys, m: nat)
    requires m < |s.posts| && m in s.replies && ReplyHeld(cfg, s, m) && s.posts <= s'.posts
    requires m in s'.replies && s'.replies[m] == s.replies[m]
    requires forall b :: InHistory(s.history, b) ==> InHistory(s'.history, b)
    ensures ReplyHeld(cfg, s', m)
  {
    hide HoldsRoot;
    var b, reply := s.posts[m].request.body, s.replies[m];
    assert s'.posts[m] == s.posts[m];
    if reply.Answer? && reply.response.LoadAnswer? && reply.response.row.Some? {
      HoldsRootStays(s.history, s'.history, b.journal, reply.response.row.value.root);
    }
  }

  /** A delivery keeps what was held, and the new reply holds too. */
  lemma DeliveryKeepsHeld(cfg: Config, s: Sys, m: nat, fault: Fault)
    requires SaneConfig(cfg) && Sound(cfg, s) && Held(cfg, s) && m in s.undelivered && m < |s.posts|
    ensures Held(cfg, DeliverPost(cfg, s, m, fault))
  {
    hide Sound, DeliverPost, ReplyHeld, Consistent, InHistory, HoldsRoot;
    var s' := DeliverPost(cfg, s, m, fault);
    DeliverIsServerStep(cfg, s, m, fault);
    forall c | c in s'.parties ensures SnapshotHeld(s'.history, s'.parties[c].client) {
      var client := s.parties[c].client;
      assert SnapshotHeld(s.history, client);
      if client.snapshot.Some? && client.snapshot.value.root.Some? {
        HoldsRootStays(s.history, s'.history, client.journal, client.snapshot.value.root.value);
      }
    }
    forall k: nat | k in s'.replies && k < |s'.posts| ensures ReplyHeld(cfg, s', k) {
      if k == m {
        NewReplyHeld(cfg, s, m, fault);
      } else {
        assert ReplyHeld(cfg, s, k);
        ReplyStaysHeld(cfg, s, s', k);
      }
    }
  }

  lemma NewReplyHeld(cfg: Config, s: Sys, m: nat, fault: Fault)
    requires SaneConfig(cfg) && Sound(cfg, s) && m in s.undelivered && m < |s.posts|
    ensures var s' := DeliverPost(cfg, s, m, fault);
            m < |s'.posts| && m in s'.replies && ReplyHeld(cfg, s', m)
  {
    hide Sound, DeliverPost, Consistent, InHistory, HoldsRoot, NewestRoot, Answered, SaneConfig;
    var s' := DeliverPost(cfg, s, m, fault);
    var b := s.posts[m].request.body;
    ServedFromHistory(cfg, s, m, fault);
    DeliverIsServerStep(cfg, s, m, fault);
    if b.LoadBody? && NewestRoot(s.history, b.journal).Some? {
      NewestIsHeld(cfg, s, b.journal);
    }
  }

  /** Where a snapshot comes from: it stays, it is the loaded row's root, or the accepted candidate. */
  predicate SnapshotFrom(client: Client, op: Op, reply: Reply, client': Client) {
    || client'.snapshot == client.snapshot
    || (op == LoadOp && reply.Answer? && reply.response.LoadAnswer?
        && client'.snapshot == Some(Snapshot(if reply.response.row == None then None
                                             else Some(reply.response.row.value.root))))
    || (client'.commit.Some? && client'.pending.Some?
        && client'.snapshot == Some(Snapshot(Some(client'.pending.value.candidate))))
  }

  lemma FinishSnapshot(client: Client, op: Op, reply: Reply)
    ensures FinishClient(client, op, reply).journal == client.journal
    ensures SnapshotFrom(client, op, reply, FinishClient(client, op, reply))
  {
  }

  /** What a load, save or replay leaves as the snapshot is a root of the history. */
  lemma FinishKeepsHeld(cfg: Config, s: Sys, c: ClientId, reply: Reply)
    requires Sound(cfg, s) && Held(cfg, s) && Waiting(s, c) && Observes(s, c, reply)
    ensures SnapshotHeld(s.history, Finish(s, c, reply).parties[c].client)
  {
    hide Sound, ReplyHeld, FinishClient, HoldsRoot, PartySound, Accepted, RejectsPending;
    var p := s.parties[c];
    var op, m := p.busy.value.op, p.busy.value.msg;
    FinishSnapshot(p.client, op, reply);
    assert SnapshotHeld(s.history, p.client);
    FinishedClientSound(cfg, s, c, reply);
    var client := Finish(s, c, reply).parties[c].client;
    if op == LoadOp && reply.Answer? && reply.response.LoadAnswer? && reply.response.row.Some? {
      ObservedRowHeld(cfg, s, c, reply);
    }
    CommitHeld(cfg, Finish(s, c, reply), c);
  }

  lemma ObservedRowHeld(cfg: Config, s: Sys, c: ClientId, reply: Reply)
    requires Sound(cfg, s) && Held(cfg, s) && Waiting(s, c) && Observes(s, c, reply)
    requires s.parties[c].busy.value.op == LoadOp && reply.Answer? && reply.response.LoadAnswer?
    ensures reply.response.row.Some? ==>
              RowHeld(s.history, cfg.limits, s.parties[c].client.journal, reply.response.row.value)
  {
    hide Consistent, RejectedSound, GuardEntrySound, PostSound, ClientSound, RowHeld, LoadReplyFresh;
    assert PartySound(cfg, s, c);
    assert ReplyHeld(cfg, s, s.parties[c].busy.value.msg);
  }

  lemma CommitHeld(cfg: Config, s: Sys, c: ClientId)
    requires c in s.parties && PartySound(cfg, s, c)
    ensures var client := s.parties[c].client;
            client.commit.Some? ==>
              client.pending.Some? && HoldsRoot(s.history, client.journal, client.pending.value.candidate)
  {
    hide BusySound, InHistory;
    var client := s.parties[c].client;
    if client.commit.Some? {
      PendingIsHeld(s.history, client);
    }
  }

  lemma PendingIsHeld(h: History, client: Client)
    requires client.pending.Some? && InHistory(h, client.pending.value.request.body)
    ensures HoldsRoot(h, client.pending.value.request.body.journal, client.pending.value.request.body.root)
  {
  }

  /** History and replies stay, posts are only added, and no snapshot is new. */
  ghost predicate Quiet(s: Sys, s': Sys) {
    && s'.history == s.history && s'.replies == s.replies && s.posts <= s'.posts
    && forall c :: c in s'.parties ==>
         || s'.parties[c].client.snapshot == None
         || (c in s.parties && s'.parties[c].client.snapshot == s.parties[c].client.snapshot
             && s'.parties[c].client.journal == s.parties[c].client.journal)
  }

  lemma BeginIsQuiet(s: Sys, e: Event)
    requires e.StartLoad? || e.StartSave? || e.StartReplay? || e.StartBarrier?
    requires e.c in s.parties
    ensures Quiet(s, Begin(s, e))
  {
    hide SaveRequest, SavePrepares, LoadRequest, BarrierRequest;
  }

  /** Every other client-side step leaves snapshots, replies, posts so far and the history alone. */
  lemma QuietStepSnapshots(cfg: Config, s: Sys, e: Event)
    requires !e.Deliver? && !e.Receive? && !e.GiveUp?
    ensures Quiet(s, Step(cfg, s, e))
  {
    hide Begin, LoadRequest;
    if (e.StartLoad? || e.StartSave? || e.StartReplay? || e.StartBarrier?) && Idle(s, e.c) {
      BeginIsQuiet(s, e);
    }
  }

  lemma QuietStepKeepsHeld(cfg: Config, s: Sys, e: Event)
    requires Sound(cfg, s) && Held(cfg, s) && !e.Deliver? && !e.Receive? && !e.GiveUp?
    ensures Held(cfg, Step(cfg, s, e))
  {
    hide Step, PartySound, PostSound, RejectedSound, GuardEntrySound, Consistent, HoldsRoot, ReplyHeld, InHistory;
    QuietStepSnapshots(cfg, s, e);
    var s' := Step(cfg, s, e);
    forall c | c in s'.parties ensures SnapshotHeld(s'.history, s'.parties[c].client) {
      assert c in s.parties ==> SnapshotHeld(s.history, s.parties[c].client);
    }
    forall m: nat | m in s'.replies && m < |s'.posts| ensures ReplyHeld(cfg, s', m) {
      assert ReplyHeld(cfg, s, m);
      ReplyStaysHeld(cfg, s, s', m);
    }
  }

  lemma FinishStepKeepsHeld(cfg: Config, s: Sys, c: ClientId, reply: Reply)
    requires Sound(cfg, s) && Held(cfg, s) && Waiting(s, c) && Observes(s, c, reply)
    ensures Held(cfg, Finish(s, c, reply))
  {
    hide Sound, SnapshotHeld, ReplyHeld, InHistory, FinishClient, Observes, Accepted, RejectsPending;
    FinishKeepsHeld(cfg, s, c, reply);
    var s' := Finish(s, c, reply);
    forall m: nat | m in s'.replies && m < |s'.posts| ensures ReplyHeld(cfg, s', m) {
      ReplyStaysHeld(cfg, s, s', m);
    }
  }

  lemma StepKeepsHeld(cfg: Config, s: Sys, e: Event)
    requires SaneConfig(cfg) && Sound(cfg, s) && Held(cfg, s)
    ensures Held(cfg, Step(cfg, s, e))
  {
    hide Sound, Held, Finish, DeliverPost, Begin, Send, SaneConfig;
    match e
    case Receive(c) =>
      if Waiting(s, c) && s.parties[c].busy.value.msg in s.replies {
        FinishStepKeepsHeld(cfg, s, c, s.replies[s.parties[c].busy.value.msg]);
      }
    case GiveUp(c, failure) =>
      if Waiting(s, c) && IsFailure(failure) {
        FinishStepKeepsHeld(cfg, s, c, failure);
      }
    case Deliver(m, fault) =>
      if m in s.undelivered && m < |s.posts| {
        DeliveryKeepsHeld(cfg, s, m, fault);
      }
    case _ => QuietStepKeepsHeld(cfg, s, e);
  }

  lemma {:induction false} RunHeld(cfg: Config, events: seq<Event>)
    requires SaneConfig(cfg)
    ensures Held(cfg, Run(cfg, events))
  {
    hide Sound, Step, SaneConfig, ReplyHeld, SnapshotHeld;
    if events != [] {
      RunHeld(cfg, events[..|events| - 1]);
      RunSound(cfg, events[..|events| - 1]);
      StepKeepsHeld(cfg, Run(cfg, events[..|events| - 1]), events[|events| - 1]);
    }
  }

  /**
   * In every run a root that a client loaded or saved last is, at its generation, exactly the root
   * the append-only history has there.
   */
  lemma SnapshotIsInHistory(cfg: Config, events: seq<Event>, c: ClientId)
    requires SaneConfig(cfg) && c in Run(cfg, events).parties
    requires var snapshot := Run(cfg, events).parties[c].client.snapshot; snapshot.Some? && snapshot.value.root.Some?
    ensures var s := Run(cfg, events);
            var client := s.parties[c].client;
            var root := client.snapshot.value.root.value;
            && client.journal in s.history && root.generation < |s.history[client.journal]|
            && s.history[client.journal][root.generation].SaveBody?
            && s.history[client.journal][root.generation].root == root
  {
    hide Run, ReplyHeld;
    RunHeld(cfg, events);
    assert SnapshotHeld(Run(cfg, events).history, Run(cfg, events).parties[c].client);
  }

  lemma {:induction false} PostsOnlyGrow(cfg: Config, events: seq<Event>, n: nat)
    requires n <= |events|
    ensures Run(cfg, events[..n]).posts <= Run(cfg, events).posts
  {
    hide Step;
    if n == |events| {
      assert events[..n] == events;
    } else {
      var front := events[..|events| - 1];
      assert front[..n] == events[..n];
      PostsOnlyGrow(cfg, front, n);
      StepKeepsPosts(cfg, Run(cfg, front), events[|events| - 1]);
    }
  }

  lemma StepKeepsPosts(cfg: Config, s: Sys, e: Event)
    ensures s.posts <= Step(cfg, s, e).posts
  {
    hide Dispatch;
  }

  lemma ServedAtMeans(cfg: Config, events: seq<Event>, k: nat, m: nat, reply: Reply)
    requires ServedAt(cfg, events, k, m, reply)
    ensures k < |events| && events[k].Deliver? && m < |Run(cfg, events[..k]).posts|
    ensures reply == ReplyNow(cfg, Run(cfg, events[..k]), m, events[k].fault)
  {
    hide Run, ReplyNow;
  }

  /** The client once a load returned this root, or absence. */
  function Loaded(client: Client, root: Option<Root>): Client {
    client.(snapshot := Some(Snapshot(root)), saveReady := true)
  }

  /** A waiting load that got the reply of an earlier state's server. */
  lemma ReceivedLoad(cfg: Config, s: Sys, then': Sys, fault: Fault, c: ClientId)
    requires Sound(cfg, s) && Held(cfg, s) && Waiting(s, c) && s.parties[c].busy.value.op == LoadOp
    requires var m := s.parties[c].busy.value.msg;
             && m in s.replies && m < |then'.posts| && then'.posts <= s.posts
             && s.replies[m] == ReplyNow(cfg, then', m, fault)
    ensures var client, m := s.parties[c].client, s.parties[c].busy.value.msg;
            Step(cfg, s, Receive(c)).parties[c].client ==
              if then'.posts[m].boot == then'.boot && fault == NoFault
              then Loaded(client, NewestRoot(then'.history, client.journal))
              else Poison(client, false, false)
  {
    hide Consistent, RejectedSound, GuardEntrySound, PostSound, ClientSound, LoadReplyFresh, ReplyHeld, NewestRoot,
      HoldsRoot, Answered, WasPosted;
    assert PartySound(cfg, s, c);
    var reply := s.replies[s.parties[c].busy.value.msg];
    if reply.Answer? && reply.response.LoadAnswer? {
      ObservedRowHeld(cfg, s, c, reply);
    }
  }

  /**
   * A load succeeds exactly when its post was answered with no failure by a server of the client's boot, and
   * then it returns the newest root of the journal at the moment its post was delivered, or absence.
   */
  lemma LoadReturnsTheNewest(cfg: Config, events: seq<Event>, c: ClientId)
    requires SaneConfig(cfg) && Waiting(Run(cfg, events), c)
    requires var busy := Run(cfg, events).parties[c].busy.value;
             busy.op == LoadOp && busy.msg in Run(cfg, events).replies
    ensures var s := Run(cfg, events);
            var client, m := s.parties[c].client, s.parties[c].busy.value.msg;
            var client' := Step(cfg, s, Receive(c)).parties[c].client;
            exists k: nat :: ServedAt(cfg, events, k, m, s.replies[m])
              && var then' := Run(cfg, events[..k]);
                 if then'.posts[m].boot == then'.boot && events[k].fault == NoFault
                 then client' == Loaded(client, NewestRoot(then'.history, client.journal))
                 else client' == Poison(client, false, false)
  {
    hide Run, Sound, Held, ServedAt, SaneConfig;
    var s := Run(cfg, events);
    var p := s.parties[c];
    var m := p.busy.value.msg;
    RunSound(cfg, events);
    RunHeld(cfg, events);
    EveryReplyIsFromHistory(cfg, events, m);
    var k: nat :| ServedAt(cfg, events, k, m, s.replies[m]);
    ServedAtMeans(cfg, events, k, m, s.replies[m]);
    PostsOnlyGrow(cfg, events, k);
    ReceivedLoad(cfg, s, Run(cfg, events[..k]), events[k].fault, c);
  }

  /* ---------- undisturbed exchanges ---------- */

  /** An operation starts, its post is delivered at once without a failure, and its reply is received. */
  ghost function Exchange(cfg: Config, s: Sys, e: Event): Sys
    requires e.StartLoad? || e.StartSave? || e.StartReplay? || e.StartBarrier?
  {
    Step(cfg, Step(cfg, Step(cfg, s, e), Deliver(|s.posts|, NoFault)), Receive(e.c))
  }

  /** The client finishes on the answer from the history, and a save takes effect as that answer says. */
  lemma Exchanged(cfg: Config, s: Sys, e: Event, p: Party, op: Op, request: Request)
    requires SaneConfig(cfg) && Sound(cfg, s)
    requires e.StartLoad? || e.StartSave? || e.StartReplay? || e.StartBarrier?
    requires p.boot == s.boot && Step(cfg, s, e) == Send(s, e.c, p, op, 1, request)
    ensures var reply := FromHistory(s.history, cfg.limits, request.body);
            var s' := Exchange(cfg, s, e);
            && e.c in s'.parties && s'.parties[e.c].client == FinishClient(p.client, op, reply)
            && s'.history == if request.body.SaveBody?
                             then HistoryAfter(s.history, request.body, Answered(s.history, cfg.limits, request.body))
                             else s.history
  {
    hide Sound, SaneConfig, FromHistory, Answered, FinishClient, Accepted, RejectsPending, Serve, Begin, HistoryAfter;
    StepKeepsSound(cfg, s, e);
    var s1 := Send(s, e.c, p, op, 1, request);
    ServedFromHistory(cfg, s1, |s.posts|, NoFault);
    ServedOnce(cfg, s1, |s.posts|, NoFault);
  }

  /** An undisturbed load returns the newest root of the journal, or absence, and readies the next save. */
  lemma UndisturbedLoad(cfg: Config, events: seq<Event>, c: ClientId)
    requires SaneConfig(cfg) && Idle(Run(cfg, events), c) && MayLoad(Run(cfg, events).parties[c].client)
    requires Run(cfg, events).parties[c].boot == Run(cfg, events).boot
    ensures var s := Run(cfg, events);
            var s' := Exchange(cfg, s, StartLoad(c));
            var client := s.parties[c].client;
            && s'.history == s.history && c in s'.parties
            && s'.parties[c].client == Loaded(client, NewestRoot(s.history, client.journal))
  {
    hide Run, Sound, SaneConfig, Exchange, NewestRoot, RowHeld;
    var s := Run(cfg, events);
    var p := s.parties[c];
    RunSound(cfg, events);
    Exchanged(cfg, s, StartLoad(c), p, LoadOp, LoadRequest(p.client, |s.posts|));
    NewestIsReadable(cfg, s, c);
  }

  lemma NewestIsReadable(cfg: Config, s: Sys, c: ClientId)
    requires Sound(cfg, s) && c in s.parties
    ensures var client := s.parties[c].client;
            var root := NewestRoot(s.history, client.journal);
            root.Some? ==> ValidReadback(client, RowFor(root).value)
  {
    hide Consistent, RejectedSound, GuardEntrySound, PostSound, ClientSound, BusySound, NewestRoot, HoldsRoot,
      WasPosted;
    assert PartySound(cfg, s, c);
    var root := NewestRoot(s.history, s.parties[c].client.journal);
    if root.Some? {
      NewestIsHeld(cfg, s, s.parties[c].client.journal);
    }
  }

  /**
   * An undisturbed save of the next generation commits exactly when the client's snapshot still is the newest root;
   * otherwise it changes no history and is rejected without ambiguity.
   */
  lemma UndisturbedSave(cfg: Config, events: seq<Event>, c: ClientId, root: Root)
    requires SaneConfig(cfg) && Idle(Run(cfg, events), c) && MaySave(Run(cfg, events).parties[c].client)
    requires SavePrepares(Run(cfg, events).parties[c].client, root, true)
    requires Run(cfg, events).parties[c].boot == Run(cfg, events).boot
    ensures var s := Run(cfg, events);
            var s' := Exchange(cfg, s, StartSave(c, root, true));
            var client := s.parties[c].client;
            var b := SaveRequest(client, root).body;
            && c in s'.parties && var client' := s'.parties[c].client;
               if client.snapshot.value.root == NewestRoot(s.history, client.journal)
               then && s'.history == Append(s.history, b) && client'.commit == Some(Commit(root, TokenOf(b)))
                    && !client'.poisoned && client'.replayAllowed && client'.snapshot == Some(Snapshot(Some(root)))
               else && s'.history == s.history && client'.commit == None && client'.pending == None
                    && client'.poisoned && !client'.ambiguous
  {
    hide Run, Sound, SaneConfig, Exchange, Answered, NewestRoot, HistoryAfter;
    var s := Run(cfg, events);
    var p := s.parties[c];
    RunSound(cfg, events);
    var (client, post) := PrepareSave(p.client, root, true);
    Exchanged(cfg, s, StartSave(c, root, true), p.(client := client), SaveOp, post.value);
    NextSaveIsNew(cfg, s, c, root);
    SaveIsAnswered(cfg, s, c, root);
    HistoryAfterAnswer(cfg, s.history, post.value.body);
  }

  lemma HistoryAfterAnswer(cfg: Config, h: History, b: Body)
    requires b.SaveBody?
    ensures var answer := Answered(h, cfg.limits, b);
            HistoryAfter(h, b, answer) == if answer.Committed? then Append(h, b) else h
  {
    hide Answered;
  }

  /** A new save is answered by comparing the client's snapshot with the newest root. */
  lemma SaveIsAnswered(cfg: Config, s: Sys, c: ClientId, root: Root)
    requires Sound(cfg, s) && c in s.parties && s.parties[c].client.snapshot.Some?
    requires SavePrepares(s.parties[c].client, root, true)
    requires !InHistory(s.history, SaveRequest(s.parties[c].client, root).body)
    ensures var client := s.parties[c].client;
            var b := SaveRequest(client, root).body;
            if client.snapshot.value.root == NewestRoot(s.history, client.journal)
            then Answered(s.history, cfg.limits, b) == Committed(ResponseOf(b))
            else Answered(s.history, cfg.limits, b).Conflict?
  {
    hide Reflects, RejectedSound, GuardEntrySound, PostSound, ClientSound, BusySound, WasPosted;
    assert PartySound(cfg, s, c);
    var j := s.parties[c].client.journal;
    if j in s.history {
      assert IsChain(j, s.history[j]) && Link(j, s.history[j], |s.history[j]| - 1);
    }
  }

  /**
   * An undisturbed replay resolves the retained save exactly when the server still holds its receipt, or it
   * never arrived and is still the next one; any other answer leaves it ambiguous and replayable.
   */
  lemma UndisturbedReplay(cfg: Config, events: seq<Event>, c: ClientId)
    requires SaneConfig(cfg) && Idle(Run(cfg, events), c) && MayReplay(Run(cfg, events).parties[c].client)
    requires Run(cfg, events).parties[c].boot == Run(cfg, events).boot
    ensures var s := Run(cfg, events);
            var s' := Exchange(cfg, s, StartReplay(c));
            var p := s.parties[c].client.pending.value;
            var b := p.request.body;
            b.SaveBody?
            && var answer := Answered(s.history, cfg.limits, b);
               && s'.history == HistoryAfter(s.history, b, answer)
               && c in s'.parties && var client' := s'.parties[c].client;
                  if answer.Committed? || answer.Replayed?
                  then client'.commit == Some(Commit(p.candidate, TokenOf(b))) && !client'.poisoned
                  else client' == Poison(s.parties[c].client, true, true)
  {
    hide Run, Sound, SaneConfig, Exchange, Answered, HistoryAfter;
    var s := Run(cfg, events);
    var p := s.parties[c];
    RunSound(cfg, events);
    PendingHasShape(cfg, s, c);
    Exchanged(cfg, s, StartReplay(c), p, ReplayOp, p.client.pending.value.request);
    AnswerForms(s.history, cfg.limits, p.client.pending.value.request.body);
  }

  lemma PendingHasShape(cfg: Config, s: Sys, c: ClientId)
    requires Sound(cfg, s) && c in s.parties && s.parties[c].client.pending.Some?
    ensures PendingShape(s.parties[c].client, s.parties[c].client.pending.value)
  {
    hide Consistent, RejectedSound, GuardEntrySound, PostSound, BusySound, WasPosted;
    assert PartySound(cfg, s, c);
  }

  lemma AnswerForms(h: History, limits: Limits, b: Body)
    requires b.SaveBody?
    ensures var answer := Answered(h, limits, b);
            answer.Committed? || answer.Replayed? ==> answer.response == ResponseOf(b)
  {
  }

  /** An undisturbed barrier succeeds exactly while the server holds the receipt of the commit. */
  lemma UndisturbedBarrier(cfg: Config, events: seq<Event>, c: ClientId)
    requires SaneConfig(cfg) && Idle(Run(cfg, events), c) && MayBarrier(Run(cfg, events).parties[c].client)
    requires Run(cfg, events).parties[c].boot == Run(cfg, events).boot
    ensures var s := Run(cfg, events);
            var s' := Exchange(cfg, s, StartBarrier(c));
            var client := s.parties[c].client;
            && s'.history == s.history && client.pending.Some? && c in s'.parties
            && s'.parties[c].client ==
               if Retained(s.history, cfg.limits, client.pending.value.request.body)
               then client.(commit := None, pending := None, replayAllowed := false)
               else Poison(client, true, false)
  {
    hide Run, Sound, SaneConfig, Exchange, Retained;
    var s := Run(cfg, events);
    var p := s.parties[c];
    RunSound(cfg, events);
    CommitHasToken(cfg, s, c);
    PendingHasShape(cfg, s, c);
    Exchanged(cfg, s, StartBarrier(c), p, BarrierOp, BarrierRequest(p.client, |s.posts|));
  }

  lemma CommitHasToken(cfg: Config, s: Sys, c: ClientId)
    requires Sound(cfg, s) && c in s.parties && s.parties[c].client.commit.Some?
    ensures var client := s.parties[c].client;
            client.pending.Some? && client.commit.value.token == TokenOf(client.pending.value.request.body)
  {
    hide Consistent, RejectedSound, GuardEntrySound, PostSound, BusySound, WasPosted;
    assert PartySound(cfg, s, c);
  }
}
