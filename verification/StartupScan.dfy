/**
 * What the startup check of the journal store is worth: which tables it accepts, what an accepted
 * table can still answer, and which damage to the tables of a run it finds.
 */
module StartupScan {
  import opened Basics
  import opened JournalDatabase
  import opened JournalStore

  /* ---------- which tables are accepted ---------- */

  /** A journal row describes one root of its journal. */
  predicate RowDescribes(j: JournalId, row: JournalRow) {
    row == JournalRow(Root(j, row.generation, row.root.content), row.generation, Revision(row.root), row.token)
  }

  /** A receipt holds its own token and response, and is of its journal's newest commit or an earlier one. */
  predicate ReceiptDescribes(t: Tables, r: Receipt) {
    && r.token == Token(r.id, r.digest) && r.response == SaveResponse(r.token, r.generation, r.revision)
    && r.journal in t.journals
    && var row := t.journals[r.journal];
       || r.generation < row.generation
       || (r.generation == row.generation && r.revision == row.revision && r.token == row.token)
  }

  /** Each journal has one receipt for each of its last `limits.maxReceipts` generations, and no other. */
  ghost predicate OnePerGeneration(t: Tables, limits: Limits, scan: seq<RequestId>, j: JournalId)
    requires j in t.journals
  {
    forall g: int :: |ReceiptsAt(t, scan, j, g)| ==
      if 0 <= g <= t.journals[j].generation < g + limits.maxReceipts then 1 else 0
  }

  /** The startup check accepts exactly these tables, whatever they came from and in any scan order. */
  lemma AcceptedExactlyWhen(t: Tables, limits: Limits, scan: seq<RequestId>)
    requires Sane(limits) && Distinct(scan) && Elements(scan) == t.receipts.Keys
    ensures RowsValid(t, limits, scan) <==>
              && (forall j :: j in t.journals ==> RowDescribes(j, t.journals[j]))
              && (forall id :: id in t.receipts ==> ReceiptDescribes(t, t.receipts[id]))
              && (forall j :: j in t.journals ==> OnePerGeneration(t, limits, scan, j))
  {
    hide SuffixExact, OnePerGeneration;
    forall j | j in t.journals ensures SuffixExact(t, limits, scan, j) <==> OnePerGeneration(t, limits, scan, j) {
      SuffixMeansOnePerGeneration(t, limits, scan, j);
    }
  }

  lemma SuffixMeansOnePerGeneration(t: Tables, limits: Limits, scan: seq<RequestId>, j: JournalId)
    requires Sane(limits) && Distinct(scan) && j in t.journals
    ensures SuffixExact(t, limits, scan, j) <==> OnePerGeneration(t, limits, scan, j)
  {
    hide SuffixExact, ReceiptsAt;
    SuffixExactMeansOnePerGeneration(t, limits, scan, j);
  }

  /* ---------- what accepted tables answer ---------- */

  /** On accepted tables a barrier finds its token or not, and never corruption. */
  lemma AcceptedBarrierAnswers(t: Tables, limits: Limits, scan: seq<RequestId>, j: JournalId, token: Token,
                               id: RequestId)
    requires RowsValid(t, limits, scan) && Names(t, j, token, id)
    ensures BarrierVerdict(t, j, id) ==
              Replayed(SaveResponse(token, t.receipts[id].generation, t.receipts[id].revision))
  {
    assert ReceiptSound(t, id);
  }

  /**
   * On accepted tables a known save ID is answered by its receipt if the request is the same one, as a
   * conflict if its body differs, and as corruption only for a receipt of another journal.
   */
  lemma AcceptedReplayAnswers(t: Tables, limits: Limits, scan: seq<RequestId>, j: JournalId, id: RequestId,
                              digest: Digest)
    requires RowsValid(t, limits, scan) && id in t.receipts
    ensures var r := t.receipts[id];
            ReplayOutcome(t, j, id, digest) ==
              if r.digest != digest then Conflict(RequestIdConflict)
              else if r.journal != j then Corrupt
              else Replayed(SaveResponse(Token(r.id, r.digest), r.generation, r.revision))
  {
    assert ReceiptSound(t, id);
  }

  /* ---------- which damage is found ---------- */

  ghost predicate Intact(t: Tables, limits: Limits, h: History, scan: seq<RequestId>) {
    Sane(limits) && Consistent(t, limits, h) && Distinct(scan) && Elements(scan) == t.receipts.Keys
  }

  /** The newest commit of a journal has its receipt, and the journal row repeats it. */
  lemma NewestHasReceipt(t: Tables, limits: Limits, h: History, scan: seq<RequestId>, j: JournalId)
    returns (id: RequestId)
    requires Intact(t, limits, h, scan) && j in t.journals
    ensures id in t.receipts && id in scan && t.receipts[id].journal == j
    ensures var r, row := t.receipts[id], t.journals[j];
            r.generation == row.generation && r.revision == row.revision && r.token == row.token
    ensures RowDecodes(j, t.journals[j])
  {
    var b := h[j][|h[j]| - 1];
    id := IdOf(b);
    assert ShowsNewest(t, h, j);
    assert ShowsReceipt(t, limits, h, id);
    assert id in Elements(scan);
  }

  lemma ReceiptsAreOld(t: Tables, limits: Limits, h: History, id: RequestId)
    requires Consistent(t, limits, h) && id in t.receipts
    ensures t.receipts[id].journal in t.journals
    ensures t.receipts[id].generation <= t.journals[t.receipts[id].journal].generation
    ensures t.receipts[id].id == id && ReceiptDecodes(t.receipts[id])
  {
    assert ShowsReceipt(t, limits, h, id);
    var b := id.digest.body;
    assert ShowsNewest(t, h, b.journal);
  }

  lemma NoLaterReceipt(t: Tables, limits: Limits, h: History, scan: seq<RequestId>, j: JournalId, g: int)
    requires Intact(t, limits, h, scan) && j in t.journals && g > t.journals[j].generation
    ensures |ReceiptsAt(t, scan, j, g)| == 0
  {
    hide Consistent;
    if id :| id in ReceiptsAt(t, scan, j, g) {
      ReceiptsAreOld(t, limits, h, id);
    }
  }

  /** Any change to one journal row is found. */
  lemma ChangedRowIsFound(t: Tables, limits: Limits, h: History, scan: seq<RequestId>, j: JournalId, row: JournalRow)
    requires Intact(t, limits, h, scan) && j in t.journals && row != t.journals[j]
    ensures !RowsValid(t.(journals := t.journals[j := row]), limits, scan)
  {
    hide SuffixExact, Consistent;
    var t' := t.(journals := t.journals[j := row]);
    assert ReceiptsAt(t', scan, j, row.generation) == ReceiptsAt(t, scan, j, row.generation);
    if RowsValid(t', limits, scan) {
      var id := NewestHasReceipt(t, limits, h, scan, j);
      assert ReceiptSound(t', id) && RowDecodes(j, row);
      assert row.generation > t.journals[j].generation;
      NoLaterReceipt(t, limits, h, scan, j, row.generation);
      SuffixMeansOnePerGeneration(t', limits, scan, j);
    }
  }

  /** A lost journal row is found. */
  lemma LostRowIsFound(t: Tables, limits: Limits, h: History, scan: seq<RequestId>, j: JournalId)
    requires Intact(t, limits, h, scan) && j in t.journals
    ensures !RowsValid(t.(journals := t.journals - {j}), limits, scan)
  {
    hide SuffixExact, Consistent;
    var t' := t.(journals := t.journals - {j});
    var id := NewestHasReceipt(t, limits, h, scan, j);
    assert RowsValid(t', limits, scan) ==> ReceiptSound(t', id);
  }

  /** `r` differs from `was` in exactly one of its fields. */
  predicate OneField(was: Receipt, r: Receipt) {
    && r != was
    && (|| r == was.(id := r.id) || r == was.(digest := r.digest) || r == was.(journal := r.journal)
        || r == was.(generation := r.generation) || r == was.(revision := r.revision)
        || r == was.(token := r.token) || r == was.(response := r.response))
  }

  /** The retained receipt of a generation is the only one. */
  lemma OnlyReceipt(t: Tables, limits: Limits, h: History, scan: seq<RequestId>, id: RequestId, j: JournalId, g: int)
    requires Intact(t, limits, h, scan) && id in t.receipts
    requires j == t.receipts[id].journal && g == t.receipts[id].generation && j in t.journals
    ensures ReceiptsAt(t, scan, j, g) == {id}
    ensures 0 <= g <= t.journals[j].generation < g + limits.maxReceipts
  {
    assert id in Elements(scan);
    assert ShowsReceipt(t, limits, h, id) && ShowsNewest(t, h, j);
    forall other | other in ReceiptsAt(t, scan, j, g) ensures other == id {
      assert ShowsReceipt(t, limits, h, other);
    }
    assert id in ReceiptsAt(t, scan, j, g);
  }

  /** Moved to another journal, a receipt is no longer among those of its own. */
  lemma WithoutOne(t: Tables, r: Receipt, scan: seq<RequestId>, id: RequestId, j: JournalId, g: int)
    requires r.journal != j
    ensures ReceiptsAt(t.(receipts := t.receipts[id := r]), scan, j, g) == ReceiptsAt(t, scan, j, g) - {id}
  {
  }

  /** A change to one field of one receipt is found. */
  lemma ChangedReceiptIsFound(t: Tables, limits: Limits, h: History, scan: seq<RequestId>, id: RequestId, r: Receipt)
    requires Intact(t, limits, h, scan) && id in t.receipts && OneField(t.receipts[id], r)
    ensures !RowsValid(t.(receipts := t.receipts[id := r]), limits, scan)
  {
    hide SuffixExact, Consistent;
    var t' := t.(receipts := t.receipts[id := r]);
    var j, g := t.receipts[id].journal, t.receipts[id].generation;
    ReceiptsAreOld(t, limits, h, id);
    OnlyReceipt(t, limits, h, scan, id, j, g);
    if r.journal != j {
      WithoutOne(t, r, scan, id, j, g);
      assert |ReceiptsAt(t', scan, j, g)| == 0;
    }
    if RowsValid(t', limits, scan) {
      assert ReceiptSound(t', id);
      SuffixMeansOnePerGeneration(t', limits, scan, j);
    }
  }

  /** A lost receipt is found, in any order the rest are scanned. */
  lemma LostReceiptIsFound(t: Tables, limits: Limits, h: History, scan: seq<RequestId>, id: RequestId,
                           rest: seq<RequestId>)
    requires Intact(t, limits, h, scan) && id in t.receipts
    requires Distinct(rest) && Elements(rest) == t.receipts.Keys - {id}
    ensures !RowsValid(t.(receipts := t.receipts - {id}), limits, rest)
  {
    hide SuffixExact, Consistent;
    var t' := t.(receipts := t.receipts - {id});
    var j, g := t.receipts[id].journal, t.receipts[id].generation;
    ReceiptsAreOld(t, limits, h, id);
    forall other | other in ReceiptsAt(t', rest, j, g) ensures other in ReceiptsAt(t, scan, j, g) - {id} {
      assert other in Elements(rest) && other in Elements(scan);
    }
    OnlyReceipt(t, limits, h, scan, id, j, g);
    assert ReceiptsAt(t', rest, j, g) == {};
    SuffixMeansOnePerGeneration(t', limits, rest, j);
    assert |ReceiptsAt(t', rest, j, g)| == 0;
  }
}
