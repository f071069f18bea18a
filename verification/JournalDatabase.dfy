/**
 * The SQLite journal store: compare-and-swap saves with durable receipts.
 *
 * A transaction is one atomic step on the two tables.  SHA-256 over canonical bytes is modelled by
 * datatype constructors, which are injective.
 */
module JournalDatabase {
  import opened Basics

  type JournalId = nat
  type ClientId = nat

  datatype Root = Root(journal: JournalId, generation: nat, content: int)

  /** The digest of a canonical root. */
  datatype Revision = Revision(root: Root)

  /** The canonical bodies of the four authenticated posts. */
  datatype Body =
    | HelloBody(client: ClientId, nonce: nat)
    | LoadBody(client: ClientId, journal: JournalId)
    | SaveBody(client: ClientId, expected: Option<Revision>, journal: JournalId, root: Root)
    | BarrierBody(client: ClientId, token: Token, journal: JournalId)

  datatype Digest = Digest(body: Body)

  /** A save ID is derived from the body digest; every other request ID is a fresh random value. */
  datatype RequestId = SaveId(digest: Digest) | RandomId(serial: nat)

  datatype Token = Token(id: RequestId, digest: Digest)

  datatype SaveResponse = SaveResponse(token: Token, generation: nat, revision: Revision)

  datatype JournalRow = JournalRow(root: Root, generation: nat, revision: Revision, token: Token)

  datatype Receipt = Receipt(id: RequestId, digest: Digest, journal: JournalId, generation: nat,
                             revision: Revision, token: Token, response: SaveResponse)

  datatype Tables = Tables(journals: map<JournalId, JournalRow>, receipts: map<RequestId, Receipt>)

  datatype ConflictCode = RequestIdConflict | StaleGeneration | StaleRevision | CasConflict
                        | UnknownCommitToken

  datatype SaveResult =
    | Committed(response: SaveResponse)
    | Replayed(response: SaveResponse)
    | Conflict(code: ConflictCode)
    | InvalidRoot
    | Corrupt

  datatype Limits = Limits(maxGeneration: nat, maxReceipts: nat)

  /** The generation space and the retained receipts per journal; the App uses 2^63 - 1 and 4096. */
  ghost predicate Sane(limits: Limits) {
    limits.maxReceipts >= 1
  }

  const EmptyTables := Tables(map[], map[])

  /* ---------- decoding durable rows ---------- */

  predicate RowDecodes(journal: JournalId, row: JournalRow) {
    && row.root.journal == journal
    && row.root.generation == row.generation
    && row.revision == Revision(row.root)
  }

  predicate ReceiptDecodes(r: Receipt) {
    && r.token == Token(r.id, r.digest)
    && r.response == SaveResponse(r.token, r.generation, r.revision)
  }

  predicate RelationshipHolds(r: Receipt, row: JournalRow) {
    && r.generation <= row.generation
    && (r.generation == row.generation ==> r.revision == row.revision && r.token == row.token)
  }

  /** The oldest generation whose receipt is retained. */
  function FirstRetained(generation: nat, maxReceipts: nat): nat {
    Max(0, generation - maxReceipts + 1)
  }

  /* ---------- the save transaction ---------- */

  predicate IsSuperseded(r: Receipt, journal: JournalId, first: nat) {
    r.journal == journal && r.generation < first
  }

  /** The unique indexes over commit tokens and over (journal, generation). */
  predicate ViolatesUniqueness(t: Tables, journal: JournalId, generation: nat, token: Token) {
    || (exists j :: j in t.journals && j != journal && t.journals[j].token == token)
    || (exists id :: id in t.receipts && (t.receipts[id].token == token ||
                    (t.receipts[id].journal == journal && t.receipts[id].generation == generation)))
  }

  function Admission(t: Tables, limits: Limits, journal: JournalId, expected: Option<Revision>, generation: nat)
    : Option<ConflictCode>
  {
    if journal !in t.journals then
      if generation != 0 then Some(StaleGeneration)
      else if expected != None then Some(StaleRevision)
      else None
    else
      var row := t.journals[journal];
      if row.generation >= limits.maxGeneration || generation != row.generation + 1 then Some(StaleGeneration)
      else if expected != Some(row.revision) then Some(StaleRevision)
      else None
  }

  function ReplayOutcome(t: Tables, journal: JournalId, id: RequestId, digest: Digest): SaveResult
    requires id in t.receipts
  {
    var r := t.receipts[id];
    if !ReceiptDecodes(r) then Corrupt
    else if r.digest != digest then Conflict(RequestIdConflict)
    else if r.journal != journal || journal !in t.journals then Corrupt
    else if !RowDecodes(journal, t.journals[journal]) || !RelationshipHolds(r, t.journals[journal]) then Corrupt
    else Replayed(r.response)
  }

  /** The outcome of one save transaction and the tables it leaves. */
  function Save(t: Tables, limits: Limits, journal: JournalId, expected: Option<Revision>, root: Root,
                id: RequestId, digest: Digest): (Tables, SaveResult)
  {
    if id in t.receipts then (t, ReplayOutcome(t, journal, id, digest))
    else
      var refused := Admission(t, limits, journal, expected, root.generation);
      if refused.Some? then (t, Conflict(refused.value))
      else
        var revision, token := Revision(root), Token(id, digest);
        if ViolatesUniqueness(t, journal, root.generation, token) then (t, Conflict(CasConflict))
        else
          var response := SaveResponse(token, root.generation, revision);
          var receipt := Receipt(id, digest, journal, root.generation, revision, token, response);
          var receipts := t.receipts[id := receipt];
          var first := FirstRetained(root.generation, limits.maxReceipts);
          (Tables(t.journals[journal := JournalRow(root, root.generation, revision, token)],
                  map k | k in receipts && !IsSuperseded(receipts[k], journal, first) :: receipts[k]),
           Committed(response))
  }

  /* ---------- the append-only history ---------- */

  /** Per journal, the committed save bodies by generation. */
  type History = map<JournalId, seq<Body>>

  function IdOf(b: Body): RequestId {
    SaveId(Digest(b))
  }

  function TokenOf(b: Body): Token {
    Token(IdOf(b), Digest(b))
  }

  function ResponseOf(b: Body): SaveResponse
    requires b.SaveBody?
  {
    SaveResponse(TokenOf(b), b.root.generation, Revision(b.root))
  }

  function ReceiptOf(b: Body): Receipt
    requires b.SaveBody?
  {
    Receipt(IdOf(b), Digest(b), b.journal, b.root.generation, Revision(b.root), TokenOf(b), ResponseOf(b))
  }

  function RowOf(b: Body): JournalRow
    requires b.SaveBody?
  {
    JournalRow(b.root, b.root.generation, Revision(b.root), TokenOf(b))
  }

  /** Body `b` was committed: the history of its journal holds it at its own generation. */
  predicate InHistory(h: History, b: Body) {
    b.SaveBody? && b.journal in h && b.root.generation < |h[b.journal]| && h[b.journal][b.root.generation] == b
  }

  predicate Retained(h: History, limits: Limits, b: Body) {
    InHistory(h, b) && b.root.generation + limits.maxReceipts >= |h[b.journal]|
  }

  /** Body `g` of a chain sits at its generation and expects its predecessor. */
  predicate Link(j: JournalId, s: seq<Body>, g: nat)
    requires g < |s|
  {
    && s[g].SaveBody?
    && s[g].journal == j
    && s[g].root.journal == j
    && s[g].root.generation == g
    && (g == 0 ==> s[g].expected == None)
    && (g > 0 ==> s[g - 1].SaveBody? && s[g].expected == Some(Revision(s[g - 1].root)))
  }

  ghost predicate IsChain(j: JournalId, s: seq<Body>) {
    s != [] && forall g: nat :: g < |s| ==> Link(j, s, g)
  }

  /** Every journal of the history is a hash chain. */
  ghost predicate Chained(h: History) {
    forall j :: j in h ==> IsChain(j, h[j])
  }

  ghost predicate ShowsReceipt(t: Tables, limits: Limits, h: History, id: RequestId) {
    && (id in t.receipts <==> id.SaveId? && Retained(h, limits, id.digest.body))
    && (id in t.receipts && id.SaveId? && id.digest.body.SaveBody? ==>
          t.receipts[id] == ReceiptOf(id.digest.body))
  }

  ghost predicate ShowsNewest(t: Tables, h: History, j: JournalId)
    requires j in h && IsChain(j, h[j])
  {
    && j in t.journals
    && Link(j, h[j], |h[j]| - 1)
    && t.journals[j] == RowOf(h[j][|h[j]| - 1])
  }

  /** The tables show exactly the newest commit of each journal and the retained receipts. */
  ghost predicate Reflects(t: Tables, limits: Limits, h: History)
    requires Chained(h)
  {
    && t.journals.Keys == h.Keys
    && (forall j :: j in h ==> ShowsNewest(t, h, j))
    && (forall id :: ShowsReceipt(t, limits, h, id))
  }

  ghost predicate Consistent(t: Tables, limits: Limits, h: History) {
    Chained(h) && Reflects(t, limits, h)
  }

  function Append(h: History, b: Body): History
    requires b.SaveBody?
  {
    h[b.journal := (if b.journal in h then h[b.journal] else []) + [b]]
  }

  /** A delivered save body, after the root validation of the dispatcher. */
  predicate RootAdmitted(b: Body, limits: Limits) {
    b.SaveBody? && b.root.journal == b.journal && b.root.generation <= limits.maxGeneration
  }

  function Submit(t: Tables, limits: Limits, b: Body): (Tables, SaveResult)
    requires b.SaveBody?
  {
    Save(t, limits, b.journal, b.expected, b.root, IdOf(b), Digest(b))
  }

  function HistoryAfter(h: History, b: Body, result: SaveResult): History
    requires b.SaveBody?
  {
    if result.Committed? then Append(h, b) else h
  }

  /** On consistent tables no uniqueness index can refuse an admitted save. */
  lemma AdmittedIsUnique(t: Tables, limits: Limits, h: History, b: Body)
    requires Consistent(t, limits, h) && RootAdmitted(b, limits) && IdOf(b) !in t.receipts
    requires Admission(t, limits, b.journal, b.expected, b.root.generation) == None
    ensures !ViolatesUniqueness(t, b.journal, b.root.generation, TokenOf(b))
    ensures !InHistory(h, b)
  {
    if b.journal in h {
      assert ShowsNewest(t, h, b.journal);
    }
    forall id | id in t.receipts
      ensures t.receipts[id].token != TokenOf(b)
      ensures !(t.receipts[id].journal == b.journal && t.receipts[id].generation == b.root.generation)
    {
      assert ShowsReceipt(t, limits, h, id);
    }
    forall j | j in t.journals && j != b.journal ensures t.journals[j].token != TokenOf(b) {
      assert ShowsNewest(t, h, j);
    }
  }

  /** An admitted body is the next link of its chain. */
  lemma ExtendsChain(t: Tables, limits: Limits, h: History, b: Body)
    requires Consistent(t, limits, h) && RootAdmitted(b, limits)
    requires Admission(t, limits, b.journal, b.expected, b.root.generation) == None
    ensures b.journal in h ==> |h[b.journal]| == b.root.generation
    ensures b.journal !in h ==> b.root.generation == 0
    ensures Append(h, b)[b.journal][b.root.generation] == b
    ensures IsChain(b.journal, Append(h, b)[b.journal])
  {
    var j := b.journal;
    var before := if j in h then h[j] else [];
    var after := Append(h, b)[j];
    if j in h {
      assert ShowsNewest(t, h, j);
    }
    forall g: nat | g < |after| ensures Link(j, after, g) {
      if g < |before| {
        assert Link(j, before, g);
      }
    }
  }

  lemma AppendKeepsChained(t: Tables, limits: Limits, h: History, b: Body)
    requires Consistent(t, limits, h) && RootAdmitted(b, limits)
    requires Admission(t, limits, b.journal, b.expected, b.root.generation) == None
    ensures Chained(Append(h, b))
  {
    ExtendsChain(t, limits, h, b);
  }

  /** After a commit, exactly the receipts in the new window remain. */
  lemma AppendRetains(t: Tables, limits: Limits, h: History, b: Body, c: Body)
    requires Sane(limits) && Consistent(t, limits, h) && RootAdmitted(b, limits) && c.SaveBody?
    requires Admission(t, limits, b.journal, b.expected, b.root.generation) == None
    requires IdOf(b) !in t.receipts
    ensures Retained(Append(h, b), limits, c) <==>
            c == b || (Retained(h, limits, c) &&
                       !IsSuperseded(ReceiptOf(c), b.journal, FirstRetained(b.root.generation, limits.maxReceipts)))
  {
    ExtendsChain(t, limits, h, b);
  }

  lemma CommitShowsReceipt(t: Tables, limits: Limits, h: History, b: Body, id: RequestId)
    requires Sane(limits) && Consistent(t, limits, h) && RootAdmitted(b, limits)
    requires Submit(t, limits, b).1.Committed?
    ensures ShowsReceipt(Submit(t, limits, b).0, limits, Append(h, b), id)
  {
    assert ShowsReceipt(t, limits, h, id);
    if id.SaveId? && id.digest.body.SaveBody? {
      assert id == IdOf(id.digest.body);
      AppendRetains(t, limits, h, b, id.digest.body);
    }
  }

  lemma AdmittedWhenCommitted(t: Tables, limits: Limits, b: Body)
    requires b.SaveBody? && Submit(t, limits, b).1.Committed?
    ensures Admission(t, limits, b.journal, b.expected, b.root.generation) == None
  {
  }

  lemma JournalsAfterCommit(t: Tables, limits: Limits, h: History, b: Body)
    requires b.SaveBody? && Submit(t, limits, b).1.Committed? && t.journals.Keys == h.Keys
    ensures Submit(t, limits, b).0.journals.Keys == Append(h, b).Keys
  {
  }

  lemma CommitShowsNewest(t: Tables, limits: Limits, h: History, b: Body, j: JournalId)
    requires Consistent(t, limits, h) && RootAdmitted(b, limits)
    requires Submit(t, limits, b).1.Committed? && j in Append(h, b)
    ensures IsChain(j, Append(h, b)[j]) && ShowsNewest(Submit(t, limits, b).0, Append(h, b), j)
  {
    hide ShowsReceipt;
    ExtendsChain(t, limits, h, b);
    if j != b.journal {
      assert ShowsNewest(t, h, j);
    }
  }

  lemma CommitReflected(t: Tables, limits: Limits, h: History, b: Body)
    requires Sane(limits) && Consistent(t, limits, h) && RootAdmitted(b, limits)
    requires Submit(t, limits, b).1.Committed?
    ensures Consistent(Submit(t, limits, b).0, limits, Append(h, b))
  {
    hide ShowsReceipt, ShowsNewest, Submit, Append;
    var t', h' := Submit(t, limits, b).0, Append(h, b);
    AdmittedWhenCommitted(t, limits, b);
    AppendKeepsChained(t, limits, h, b);
    JournalsAfterCommit(t, limits, h, b);
    forall id ensures ShowsReceipt(t', limits, h', id) {
      CommitShowsReceipt(t, limits, h, b, id);
    }
    forall j | j in h' ensures ShowsNewest(t', h', j) {
      CommitShowsNewest(t, limits, h, b, j);
    }
  }

  /** A body of the history that is no longer retained is older than the next generation. */
  lemma EvictedIsStale(t: Tables, limits: Limits, h: History, b: Body)
    requires Consistent(t, limits, h) && InHistory(h, b)
    ensures Admission(t, limits, b.journal, b.expected, b.root.generation) == Some(StaleGeneration)
  {
    assert ShowsNewest(t, h, b.journal);
  }

  /**
   * One save transaction keeps the tables an exact image of the history, appends at most the
   * submitted body, and never ends in corruption or in a uniqueness conflict.
   */
  lemma SaveKeepsConsistent(t: Tables, limits: Limits, h: History, b: Body)
    requires Sane(limits) && Consistent(t, limits, h) && RootAdmitted(b, limits)
    ensures var (t', result) := Submit(t, limits, b);
            && Consistent(t', limits, HistoryAfter(h, b, result))
            && !result.Corrupt? && result != Conflict(CasConflict) && result != Conflict(RequestIdConflict)
            && (result.Committed? ==> !InHistory(h, b) && result.response == ResponseOf(b))
            && (result.Replayed? <==> Retained(h, limits, b))
            && (result.Replayed? ==> result.response == ResponseOf(b))
            && (InHistory(h, b) && !Retained(h, limits, b) ==> result == Conflict(StaleGeneration))
  {
    var result := Submit(t, limits, b).1;
    assert ShowsReceipt(t, limits, h, IdOf(b));
    if IdOf(b) in t.receipts {
      assert ShowsNewest(t, h, b.journal);
    } else {
      if InHistory(h, b) {
        EvictedIsStale(t, limits, h, b);
      }
      if Admission(t, limits, b.journal, b.expected, b.root.generation) == None {
        AdmittedIsUnique(t, limits, h, b);
        CommitReflected(t, limits, h, b);
      }
    }
  }

  /* ---------- deliveries ---------- */

  /** One delivered save body: root validation, then the transaction. */
  function Deliver(t: Tables, limits: Limits, b: Body): (Tables, SaveResult)
    requires b.SaveBody?
  {
    if RootAdmitted(b, limits) then Submit(t, limits, b) else (t, InvalidRoot)
  }

  /* ---------- the same answers from the history alone ---------- */

  /** The generation a journal takes next: its number of commits. */
  function NextGeneration(h: History, j: JournalId): nat {
    if j in h then |h[j]| else 0
  }

  /** The revision its next save must name: that of its last committed root, none for a new journal. */
  function LastRevision(h: History, j: JournalId): Option<Revision> {
    if j in h && h[j] != [] && h[j][|h[j]| - 1].SaveBody? then Some(Revision(h[j][|h[j]| - 1].root)) else None
  }

  /** Reference: the answer of a server that keeps every commit for ever and replays the last few. */
  function Answered(h: History, limits: Limits, b: Body): SaveResult
    requires b.SaveBody?
  {
    if !RootAdmitted(b, limits) then InvalidRoot
    else if Retained(h, limits, b) then Replayed(ResponseOf(b))
    else if b.root.generation != NextGeneration(h, b.journal) then Conflict(StaleGeneration)
    else if b.expected != LastRevision(h, b.journal) then Conflict(StaleRevision)
    else Committed(ResponseOf(b))
  }

  /** On consistent tables every delivery is answered, as the whole history would answer it. */
  lemma DeliveryIsAnsweredFromHistory(t: Tables, limits: Limits, h: History, b: Body)
    requires Sane(limits) && Consistent(t, limits, h) && b.SaveBody?
    ensures Deliver(t, limits, b).1 == Answered(h, limits, b)
  {
    if RootAdmitted(b, limits) {
      SaveKeepsConsistent(t, limits, h, b);
      if !Retained(h, limits, b) {
        assert ShowsReceipt(t, limits, h, IdOf(b));
        AdmissionFromHistory(t, limits, h, b);
        if Admission(t, limits, b.journal, b.expected, b.root.generation) == None {
          AdmittedIsUnique(t, limits, h, b);
        }
      }
    }
  }

  /** Admission compares with the number of commits and the last root, and with nothing else. */
  lemma AdmissionFromHistory(t: Tables, limits: Limits, h: History, b: Body)
    requires Consistent(t, limits, h) && RootAdmitted(b, limits)
    ensures Admission(t, limits, b.journal, b.expected, b.root.generation) ==
              if b.root.generation != NextGeneration(h, b.journal) then Some(StaleGeneration)
              else if b.expected != LastRevision(h, b.journal) then Some(StaleRevision)
              else None
  {
    if b.journal in h {
      assert ShowsNewest(t, h, b.journal);
    }
  }

  /**
   * A save of an admitted root that is not in the history commits exactly when it is the first of a new
   * journal and expects nothing, or has the generation after the last commit and names its revision.
   */
  lemma CommitsExactlyWhen(t: Tables, limits: Limits, h: History, b: Body)
    requires Sane(limits) && Consistent(t, limits, h) && RootAdmitted(b, limits) && !InHistory(h, b)
    ensures Deliver(t, limits, b).1.Committed? <==>
              || (b.journal !in h && b.root.generation == 0 && b.expected == None)
              || (b.journal in h && b.root.generation == |h[b.journal]|
                  && b.expected == Some(Revision(h[b.journal][|h[b.journal]| - 1].root)))
  {
    DeliveryIsAnsweredFromHistory(t, limits, h, b);
    if b.journal in h {
      assert Link(b.journal, h[b.journal], |h[b.journal]| - 1);
    }
  }

  /* ---------- runs ---------- */

  type SaveOnly = b: Body | b.SaveBody? witness SaveBody(0, None, 0, Root(0, 0, 0))

  /** The tables after a run of deliveries in any order, with any repetitions. */
  function TablesAfter(limits: Limits, bodies: seq<SaveOnly>): Tables {
    if bodies == [] then EmptyTables
    else Deliver(TablesAfter(limits, bodies[..|bodies| - 1]), limits, bodies[|bodies| - 1]).0
  }

  /** What the delivery at position `i` of a run was answered. */
  function OutcomeAt(limits: Limits, bodies: seq<SaveOnly>, i: nat): SaveResult
    requires i < |bodies|
  {
    Deliver(TablesAfter(limits, bodies[..i]), limits, bodies[i]).1
  }

  /** The append-only history of a run. */
  function HistoryOf(limits: Limits, bodies: seq<SaveOnly>): History {
    if bodies == [] then map[]
    else
      var n := |bodies| - 1;
      HistoryAfter(HistoryOf(limits, bodies[..n]), bodies[n], OutcomeAt(limits, bodies, n))
  }

  /** After every transaction of every run the tables are an exact image of the history. */
  lemma {:induction false} RunConsistent(limits: Limits, bodies: seq<SaveOnly>)
    requires Sane(limits)
    ensures Consistent(TablesAfter(limits, bodies), limits, HistoryOf(limits, bodies))
  {
    if bodies != [] {
      var n := |bodies| - 1;
      RunConsistent(limits, bodies[..n]);
      if RootAdmitted(bodies[n], limits) {
        SaveKeepsConsistent(TablesAfter(limits, bodies[..n]), limits, HistoryOf(limits, bodies[..n]), bodies[n]);
      }
    } else {
      assert forall id :: ShowsReceipt(EmptyTables, limits, map[], id);
    }
  }

  /** In every run each delivery is answered from the history of the deliveries before it. */
  lemma EveryOutcomeIsFromHistory(limits: Limits, bodies: seq<SaveOnly>, i: nat)
    requires Sane(limits) && i < |bodies|
    ensures OutcomeAt(limits, bodies, i) == Answered(HistoryOf(limits, bodies[..i]), limits, bodies[i])
  {
    RunConsistent(limits, bodies[..i]);
    DeliveryIsAnsweredFromHistory(TablesAfter(limits, bodies[..i]), limits, HistoryOf(limits, bodies[..i]), bodies[i]);
  }

  /** A delivery never removes a body from the history, and adds the one it commits. */
  lemma DeliveryKeepsHistory(t: Tables, limits: Limits, h: History, b: Body, c: Body)
    requires Sane(limits) && Consistent(t, limits, h) && b.SaveBody?
    requires InHistory(h, c) || (c == b && Deliver(t, limits, b).1.Committed?)
    ensures InHistory(HistoryAfter(h, b, Deliver(t, limits, b).1), c)
  {
    if Deliver(t, limits, b).1.Committed? {
      ExtendsChain(t, limits, h, b);
    }
  }

  /** Committed bodies stay in the history at their generation. */
  lemma {:induction false} HistoryKeeps(limits: Limits, bodies: seq<SaveOnly>, i: nat)
    requires Sane(limits) && i < |bodies| && OutcomeAt(limits, bodies, i).Committed?
    ensures InHistory(HistoryOf(limits, bodies), bodies[i])
  {
    var n := |bodies| - 1;
    RunConsistent(limits, bodies[..n]);
    if i < n {
      assert bodies[..n][..i] == bodies[..i];
      HistoryKeeps(limits, bodies[..n], i);
    }
    DeliveryKeepsHistory(TablesAfter(limits, bodies[..n]), limits, HistoryOf(limits, bodies[..n]), bodies[n],
                         bodies[i]);
  }

  /**
   * A save body commits at most once in a whole run.  Delivered again, it gets the identical
   * response while its receipt is retained, and `stale_generation` afterwards.
   */
  lemma RedeliveryNeverCommitsAgain(limits: Limits, bodies: seq<SaveOnly>, i: nat, j: nat)
    requires Sane(limits) && i < j < |bodies| && bodies[i] == bodies[j]
    requires OutcomeAt(limits, bodies, i).Committed?
    ensures var h := HistoryOf(limits, bodies[..j]);
            OutcomeAt(limits, bodies, j) ==
            if Retained(h, limits, bodies[i]) then Replayed(OutcomeAt(limits, bodies, i).response)
            else Conflict(StaleGeneration)
  {
    var before := bodies[..j];
    assert before[..i] == bodies[..i];
    HistoryKeeps(limits, before, i);
    RunConsistent(limits, before);
    RunConsistent(limits, bodies[..i]);
    SaveKeepsConsistent(TablesAfter(limits, before), limits, HistoryOf(limits, before), bodies[j]);
    SaveKeepsConsistent(TablesAfter(limits, bodies[..i]), limits, HistoryOf(limits, bodies[..i]), bodies[i]);
  }

  lemma EmptyHistory(limits: Limits, b: Body)
    ensures !InHistory(HistoryOf(limits, []), b)
  {
  }

  lemma SameOutcome(limits: Limits, bodies: seq<SaveOnly>, n: nat, i: nat)
    requires i < n <= |bodies|
    ensures OutcomeAt(limits, bodies[..n], i) == OutcomeAt(limits, bodies, i)
  {
    assert bodies[..n][..i] == bodies[..i];
  }

  /** A body that the last delivery brought into the history was committed by it. */
  lemma LastCommits(limits: Limits, bodies: seq<SaveOnly>, b: Body)
    requires Sane(limits) && bodies != [] && InHistory(HistoryOf(limits, bodies), b)
    requires !InHistory(HistoryOf(limits, bodies[..|bodies| - 1]), b)
    ensures bodies[|bodies| - 1] == b && OutcomeAt(limits, bodies, |bodies| - 1).Committed?
  {
    hide Consistent, TablesAfter;
    var n := |bodies| - 1;
    RunConsistent(limits, bodies[..n]);
    if OutcomeAt(limits, bodies, n).Committed? {
      ExtendsChain(TablesAfter(limits, bodies[..n]), limits, HistoryOf(limits, bodies[..n]), bodies[n]);
    }
  }

  /** Every body of the history was committed by exactly one delivery of the run. */
  lemma {:induction false} CommittedByOneDelivery(limits: Limits, bodies: seq<SaveOnly>, b: Body)
    returns (i: nat)
    requires Sane(limits) && InHistory(HistoryOf(limits, bodies), b)
    ensures i < |bodies| && bodies[i] == b && OutcomeAt(limits, bodies, i).Committed?
    ensures forall k: nat :: k < |bodies| && bodies[k] == b && OutcomeAt(limits, bodies, k).Committed? ==> k == i
  {
    EmptyHistory(limits, b);
    var n := |bodies| - 1;
    hide OutcomeAt, InHistory, Retained;
    if InHistory(HistoryOf(limits, bodies[..n]), b) {
      i := CommittedByOneDelivery(limits, bodies[..n], b);
      SameOutcome(limits, bodies, n, i);
    } else {
      LastCommits(limits, bodies, b);
      i := n;
    }
    forall k: nat | k < |bodies| && bodies[k] == b && OutcomeAt(limits, bodies, k).Committed? ensures k == i {
      if k < i {
        RedeliveryNeverCommitsAgain(limits, bodies, k, i);
      } else if i < k {
        RedeliveryNeverCommitsAgain(limits, bodies, i, k);
      }
    }
  }
}
