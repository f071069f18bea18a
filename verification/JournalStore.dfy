/**
 * The journal store as the App runs it: the mutating save transaction, the barrier query and the
 * startup validation of the durable rows.
 */
module JournalStore {
  import opened Basics
  import opened JournalDatabase

  class SQLiteJournalStore {
    const limits: Limits
    var journals: map<JournalId, JournalRow>
    var receipts: map<RequestId, Receipt>

    ghost function State(): Tables
      reads this
    {
      Tables(journals, receipts)
    }

    constructor (limits: Limits)
      ensures this.limits == limits && State() == EmptyTables
    {
      this.limits := limits;
      journals, receipts := map[], map[];
    }

    method SaveSync(journal: JournalId, expected: Option<Revision>, root: Root, id: RequestId, digest: Digest)
      returns (result: SaveResult)
      modifies this
      ensures (State(), result) == old(Save(State(), limits, journal, expected, root, id, digest))
    {
      if id in receipts {
        var r := receipts[id];
        if !ReceiptDecodes(r) {
          return Corrupt;
        }
        if r.digest != digest {
          return Conflict(RequestIdConflict);
        }
        if r.journal != journal || journal !in journals {
          return Corrupt;
        }
        if !RowDecodes(journal, journals[journal]) || !RelationshipHolds(r, journals[journal]) {
          return Corrupt;
        }
        return Replayed(r.response);
      }
      if journal !in journals {
        if root.generation != 0 {
          return Conflict(StaleGeneration);
        }
        if expected.Some? {
          return Conflict(StaleRevision);
        }
      } else {
        var current := journals[journal];
        if current.generation >= limits.maxGeneration || root.generation != current.generation + 1 {
          return Conflict(StaleGeneration);
        }
        if expected != Some(current.revision) {
          return Conflict(StaleRevision);
        }
      }
      var revision, token := Revision(root), Token(id, digest);
      var response := SaveResponse(token, root.generation, revision);
      var savedJournals, savedReceipts := journals, receipts;
      journals := journals[journal := JournalRow(root, root.generation, revision, token)];
      receipts := receipts[id := Receipt(id, digest, journal, root.generation, revision, token, response)];
      if ViolatesUniqueness(Tables(savedJournals, savedReceipts), journal, root.generation, token) {
        journals, receipts := savedJournals, savedReceipts;
        return Conflict(CasConflict);
      }
      var first := FirstRetained(root.generation, limits.maxReceipts);
      receipts := map k | k in receipts && !IsSuperseded(receipts[k], journal, first) :: receipts[k];
      return Committed(response);
    }

    /** The barrier reads the receipt of a commit token back and checks it against the journal row. */
    method BarrierSync(journal: JournalId, token: Token) returns (result: SaveResult)
      ensures result == Conflict(UnknownCommitToken) <==> !KnownToken(State(), journal, token)
      ensures KnownToken(State(), journal, token) ==>
                exists id :: Names(State(), journal, token, id) && result == BarrierVerdict(State(), journal, id)
    {
      var matches := set id | id in receipts && receipts[id].journal == journal && receipts[id].token == token;
      if matches == {} {
        assert forall id :: Names(State(), journal, token, id) ==> id in matches;
        return Conflict(UnknownCommitToken);
      }
      var id :| id in matches;
      assert Names(State(), journal, token, id);
      var receipt := receipts[id];
      if !ReceiptDecodes(receipt) {
        return Corrupt;
      }
      if journal !in journals {
        return Corrupt;
      }
      if !RowDecodes(journal, journals[journal]) || !RelationshipHolds(receipt, journals[journal]) {
        return Corrupt;
      }
      return Replayed(receipt.response);
    }

    /**
     * The startup check: the two tables are scanned in any order, and each journal's receipts are
     * sorted by generation and compared with the expected suffix.
     */
    method ValidateDurableRows(journalScan: seq<JournalId>, receiptScan: seq<RequestId>) returns (accepted: bool)
      requires Elements(journalScan) == journals.Keys
      requires Elements(receiptScan) == receipts.Keys
      ensures accepted <==> RowsValid(State(), limits, receiptScan)
    {
      for i := 0 to |journalScan|
        invariant forall k :: 0 <= k < i ==>
                    journalScan[k] in journals && RowDecodes(journalScan[k], journals[journalScan[k]])
      {
        assert journalScan[i] in Elements(journalScan);
        if !RowDecodes(journalScan[i], journals[journalScan[i]]) {
          return false;
        }
      }
      assert forall j :: j in Elements(journalScan) ==> RowDecodes(j, journals[j]);
      var sound, byJournal := CollectGenerations(receiptScan);
      AllSoundMeans(State(), receiptScan);
      if !sound {
        return false;
      }
      accepted := ValidateSuffixes(journalScan, receiptScan, byJournal);
    }

    /** The receipt scan: every receipt must decode and agree with its journal. */
    method CollectGenerations(receiptScan: seq<RequestId>)
      returns (sound: bool, byJournal: map<JournalId, seq<int>>)
      requires Elements(receiptScan) == receipts.Keys
      ensures sound <==> AllSound(State(), receiptScan)
      ensures sound ==> Collected(byJournal, State(), receiptScan)
    {
      sound := true;
      byJournal := map j | j in journals :: [];
      for i := 0 to |receiptScan|
        invariant AllSound(State(), receiptScan[..i])
        invariant Collected(byJournal, State(), receiptScan[..i])
      {
        var id := receiptScan[i];
        assert id in Elements(receiptScan);
        var receipt := receipts[id];
        if !ReceiptDecodes(receipt) || receipt.journal !in journals
           || !RelationshipHolds(receipt, journals[receipt.journal]) {
          assert !AllSound(State(), receiptScan);
          return false, map[];
        }
        CollectOne(byJournal, State(), receiptScan[..i], id);
        assert receiptScan[..i + 1] == receiptScan[..i] + [id];
        byJournal := byJournal[receipt.journal := byJournal[receipt.journal] + [receipt.generation]];
      }
      assert receiptScan[..|receiptScan|] == receiptScan;
    }

    /** The per-journal comparison of the sorted receipts with the expected suffix. */
    method ValidateSuffixes(journalScan: seq<JournalId>, ghost receiptScan: seq<RequestId>,
                            byJournal: map<JournalId, seq<int>>) returns (accepted: bool)
      requires Elements(journalScan) == journals.Keys
      requires Collected(byJournal, State(), receiptScan)
      ensures accepted <==> forall j :: j in journals ==> SuffixExact(State(), limits, receiptScan, j)
    {
      for i := 0 to |journalScan|
        invariant forall k :: 0 <= k < i ==>
                    journalScan[k] in journals && SuffixExact(State(), limits, receiptScan, journalScan[k])
      {
        var j := journalScan[i];
        assert j in Elements(journalScan);
        var first := FirstRetained(journals[j].generation, limits.maxReceipts);
        var exact := IsWindow(Sorted(byJournal[j]), first, journals[j].generation - first + 1);
        assert exact <==> SuffixExact(State(), limits, receiptScan, j);
        if !exact {
          return false;
        }
      }
      assert forall j :: j in Elements(journalScan) ==> SuffixExact(State(), limits, receiptScan, j);
      return true;
    }

    /** The length comparison and the enumeration of the sorted receipts. */
    static method IsWindow(sorted: seq<int>, first: nat, count: int) returns (same: bool)
      ensures same <==> count >= 0 && sorted == Window(first, count)
    {
      if |sorted| != count {
        return false;
      }
      for k := 0 to |sorted|
        invariant forall m :: 0 <= m < k ==> sorted[m] == first + m
      {
        if sorted[k] != first + k {
          return false;
        }
      }
      return true;
    }
  }

  /* ---------- the barrier ---------- */

  ghost predicate Names(t: Tables, journal: JournalId, token: Token, id: RequestId) {
    id in t.receipts && t.receipts[id].journal == journal && t.receipts[id].token == token
  }

  ghost predicate KnownToken(t: Tables, journal: JournalId, token: Token) {
    exists id :: Names(t, journal, token, id)
  }

  function BarrierVerdict(t: Tables, journal: JournalId, id: RequestId): SaveResult
    requires id in t.receipts
  {
    if !ReceiptDecodes(t.receipts[id]) || journal !in t.journals then Corrupt
    else if !RowDecodes(journal, t.journals[journal]) || !RelationshipHolds(t.receipts[id], t.journals[journal])
    then Corrupt
    else Replayed(t.receipts[id].response)
  }

  /** On consistent tables the barrier succeeds exactly for the tokens of retained commits. */
  lemma BarrierMeansRetained(t: Tables, limits: Limits, h: History, b: Body)
    requires Consistent(t, limits, h) && b.SaveBody?
    ensures KnownToken(t, b.journal, TokenOf(b)) <==> Retained(h, limits, b)
    ensures Retained(h, limits, b) ==>
              IdOf(b) in t.receipts && BarrierVerdict(t, b.journal, IdOf(b)) == Replayed(ResponseOf(b))
    ensures forall id :: Names(t, b.journal, TokenOf(b), id) ==> id == IdOf(b)
  {
    assert ShowsReceipt(t, limits, h, IdOf(b));
    forall id | Names(t, b.journal, TokenOf(b), id) ensures id == IdOf(b) && Retained(h, limits, b) {
      assert ShowsReceipt(t, limits, h, id);
    }
    if Retained(h, limits, b) {
      assert ShowsNewest(t, h, b.journal);
      assert IsChain(b.journal, h[b.journal]);
      assert Names(t, b.journal, TokenOf(b), IdOf(b));
    }
  }

  /* ---------- the startup check ---------- */

  ghost predicate ReceiptSound(t: Tables, id: RequestId)
    requires id in t.receipts
  {
    && ReceiptDecodes(t.receipts[id])
    && t.receipts[id].journal in t.journals
    && RelationshipHolds(t.receipts[id], t.journals[t.receipts[id].journal])
  }

  ghost predicate AllSound(t: Tables, scan: seq<RequestId>) {
    forall k :: 0 <= k < |scan| ==> scan[k] in t.receipts && ReceiptSound(t, scan[k])
  }

  /** The generations of one journal's receipts, in scan order. */
  function GenerationsOf(t: Tables, scan: seq<RequestId>, j: JournalId): seq<int> {
    if scan == [] then []
    else
      var earlier, id := GenerationsOf(t, scan[..|scan| - 1], j), scan[|scan| - 1];
      if id in t.receipts && t.receipts[id].journal == j then earlier + [t.receipts[id].generation] else earlier
  }

  ghost predicate Collected(lists: map<JournalId, seq<int>>, t: Tables, scan: seq<RequestId>) {
    && lists.Keys == t.journals.Keys
    && forall j :: j in t.journals ==> lists[j] == GenerationsOf(t, scan, j)
  }

  lemma CollectOne(lists: map<JournalId, seq<int>>, t: Tables, scan: seq<RequestId>, id: RequestId)
    requires Collected(lists, t, scan) && id in t.receipts && t.receipts[id].journal in t.journals
    ensures var r := t.receipts[id];
            Collected(lists[r.journal := lists[r.journal] + [r.generation]], t, scan + [id])
  {
    assert (scan + [id])[..|scan|] == scan;
  }

  function Insert(s: seq<int>, x: int): seq<int> {
    if s == [] || x <= s[0] then [x] + s else [s[0]] + Insert(s[1..], x)
  }

  function Sorted(s: seq<int>): seq<int> {
    if s == [] then [] else Insert(Sorted(s[..|s| - 1]), s[|s| - 1])
  }

  function Window(first: nat, count: nat): seq<int> {
    seq(count, i requires 0 <= i => first + i)
  }

  ghost predicate SuffixExact(t: Tables, limits: Limits, scan: seq<RequestId>, j: JournalId)
    requires j in t.journals
  {
    var generation := t.journals[j].generation;
    var first := FirstRetained(generation, limits.maxReceipts);
    var count := generation - first + 1;
    count >= 0 && Sorted(GenerationsOf(t, scan, j)) == Window(first, count)
  }

  lemma AllSoundMeans(t: Tables, scan: seq<RequestId>)
    requires Elements(scan) == t.receipts.Keys
    ensures AllSound(t, scan) <==> forall id :: id in t.receipts ==> ReceiptSound(t, id)
  {
    forall k | 0 <= k < |scan| ensures scan[k] in t.receipts {
      assert scan[k] in Elements(scan);
    }
    forall id | AllSound(t, scan) && id in t.receipts ensures ReceiptSound(t, id) {
      assert id in Elements(scan);
    }
  }

  ghost predicate RowsValid(t: Tables, limits: Limits, scan: seq<RequestId>) {
    && (forall j :: j in t.journals ==> RowDecodes(j, t.journals[j]))
    && (forall id :: id in t.receipts ==> ReceiptSound(t, id))
    && (forall j :: j in t.journals ==> SuffixExact(t, limits, scan, j))
  }

  /** The elements are ascending and none is below `low`. */
  ghost predicate AscendingFrom(low: int, s: seq<int>)
    decreases s
  {
    s == [] || (low <= s[0] && AscendingFrom(s[0], s[1..]))
  }

  lemma {:induction false} InsertAscends(low: int, s: seq<int>, x: int)
    requires AscendingFrom(low, s) && low <= x
    ensures AscendingFrom(low, Insert(s, x))
    decreases s
  {
    if s == [] || x <= s[0] {
      assert ([x] + s)[1..] == s;
    } else {
      InsertAscends(s[0], s[1..], x);
      assert Insert(s, x)[1..] == Insert(s[1..], x);
    }
  }

  lemma {:induction false} InsertAdds(s: seq<int>, x: int)
    ensures multiset(Insert(s, x)) == multiset(s) + multiset{x}
  {
    if s != [] && x > s[0] {
      InsertAdds(s[1..], x);
      assert s == [s[0]] + s[1..];
    }
  }

  lemma {:induction false} SortedSorts(s: seq<int>)
    requires forall i :: 0 <= i < |s| ==> 0 <= s[i]
    ensures AscendingFrom(0, Sorted(s)) && multiset(Sorted(s)) == multiset(s)
  {
    if s != [] {
      var front := s[..|s| - 1];
      SortedSorts(front);
      InsertAscends(0, Sorted(front), s[|s| - 1]);
      InsertAdds(Sorted(front), s[|s| - 1]);
      assert s == front + [s[|s| - 1]];
    }
  }

  lemma {:induction false} AscendingBound(low: int, s: seq<int>, x: int)
    requires AscendingFrom(low, s) && x in s
    ensures low <= x
    decreases s
  {
    assert s == [s[0]] + s[1..];
    if x != s[0] {
      AscendingBound(s[0], s[1..], x);
    }
  }

  lemma TailMultiset(s: seq<int>)
    requires s != []
    ensures multiset(s[1..]) == multiset(s) - multiset{s[0]}
  {
    assert s == [s[0]] + s[1..];
  }

  lemma WindowSplits(first: nat, count: nat)
    requires count > 0
    ensures Window(first, count) == [first] + Window(first + 1, count - 1)
  {
  }

  lemma SameMembers(s: seq<int>, w: seq<int>)
    requires multiset(s) == multiset(w)
    ensures |s| == |w| && forall x :: x in s <==> x in w
  {
    assert |multiset(s)| == |s| && |multiset(w)| == |w|;
    forall x ensures x in s <==> x in w {
      assert x in s <==> x in multiset(s);
      assert x in w <==> x in multiset(w);
    }
  }

  /** Only one ascending sequence has the elements of a window. */
  lemma {:induction false} WindowUnique(low: int, s: seq<int>, first: nat, count: nat)
    requires AscendingFrom(low, s) && multiset(s) == multiset(Window(first, count))
    ensures s == Window(first, count)
    decreases count
  {
    var w := Window(first, count);
    SameMembers(s, w);
    if count > 0 {
      WindowSplits(first, count);
      assert w[0] == first && w[1..] == Window(first + 1, count - 1);
      assert s[0] in w && w[0] in s;
      AscendingBound(s[0], s, first);
      assert s[0] == first;
      TailMultiset(s);
      TailMultiset(w);
      WindowUnique(s[0], s[1..], first + 1, count - 1);
      assert s == [s[0]] + s[1..];
    }
  }

  lemma {:induction false} WindowCounts(first: nat, count: nat, g: int)
    ensures multiset(Window(first, count))[g] == if first <= g < first + count then 1 else 0
  {
    if count > 0 {
      WindowCounts(first, count - 1, g);
      assert Window(first, count) == Window(first, count - 1) + [first + count - 1];
    }
  }

  ghost predicate Scanned(h: History, scan: seq<RequestId>, j: JournalId, g: int) {
    j in h && 0 <= g < |h[j]| && IdOf(h[j][g]) in scan
  }

  /** A scan of the receipts meets each generation of a journal at most once. */
  lemma {:induction false} GenerationCounts(t: Tables, limits: Limits, h: History, scan: seq<RequestId>, j: JournalId,
                                            g: int)
    requires Consistent(t, limits, h) && Distinct(scan)
    requires forall id :: id in scan ==> id in t.receipts
    ensures multiset(GenerationsOf(t, scan, j))[g] == if Scanned(h, scan, j, g) then 1 else 0
  {
    if scan != [] {
      var front, id := scan[..|scan| - 1], scan[|scan| - 1];
      GenerationCounts(t, limits, h, front, j, g);
      assert scan == front + [id];
      assert ShowsReceipt(t, limits, h, id);
      assert id !in front;
      if j in h && 0 <= g < |h[j]| {
        assert IsChain(j, h[j]) && Link(j, h[j], g);
      }
    }
  }

  lemma ConsistentRow(t: Tables, limits: Limits, h: History, j: JournalId)
    requires Consistent(t, limits, h) && j in t.journals
    ensures RowDecodes(j, t.journals[j])
  {
    hide ShowsReceipt;
    assert ShowsNewest(t, h, j);
  }

  lemma ConsistentReceipt(t: Tables, limits: Limits, h: History, id: RequestId)
    requires Consistent(t, limits, h) && id in t.receipts
    ensures ReceiptSound(t, id)
  {
    assert ShowsReceipt(t, limits, h, id);
    assert ShowsNewest(t, h, id.digest.body.journal);
  }

  /** On consistent tables the startup check accepts, whatever order the rows are scanned in. */
  lemma ConsistentRowsAreValid(t: Tables, limits: Limits, h: History, scan: seq<RequestId>)
    requires Sane(limits) && Consistent(t, limits, h)
    requires Distinct(scan) && Elements(scan) == t.receipts.Keys
    ensures RowsValid(t, limits, scan)
  {
    hide SuffixExact, ReceiptSound, RowDecodes, ShowsReceipt, ShowsNewest, IsChain;
    forall j | j in t.journals ensures RowDecodes(j, t.journals[j]) && SuffixExact(t, limits, scan, j) {
      ConsistentRow(t, limits, h, j);
      ConsistentSuffix(t, limits, h, scan, j);
    }
    forall id | id in t.receipts ensures ReceiptSound(t, id) {
      ConsistentReceipt(t, limits, h, id);
    }
  }

  /** Which generations a full receipt scan shows for one journal. */
  lemma RetainedAreScanned(t: Tables, limits: Limits, h: History, scan: seq<RequestId>, j: JournalId, g: int)
    requires Sane(limits) && Consistent(t, limits, h) && j in t.journals
    requires Elements(scan) == t.receipts.Keys
    ensures Scanned(h, scan, j, g) <==>
            FirstRetained(t.journals[j].generation, limits.maxReceipts) <= g <= t.journals[j].generation
  {
    assert ShowsNewest(t, h, j);
    if 0 <= g < |h[j]| {
      assert IsChain(j, h[j]) && Link(j, h[j], g);
      assert ShowsReceipt(t, limits, h, IdOf(h[j][g]));
      assert Scanned(h, scan, j, g) <==> IdOf(h[j][g]) in Elements(scan);
    }
  }

  lemma ScanIsWindow(t: Tables, limits: Limits, h: History, scan: seq<RequestId>, j: JournalId, first: nat, count: nat)
    requires Sane(limits) && Consistent(t, limits, h) && j in t.journals
    requires Distinct(scan) && Elements(scan) == t.receipts.Keys
    requires first == FirstRetained(t.journals[j].generation, limits.maxReceipts)
    requires count == t.journals[j].generation - first + 1
    ensures multiset(GenerationsOf(t, scan, j)) == multiset(Window(first, count))
  {
    forall g: int ensures multiset(GenerationsOf(t, scan, j))[g] == multiset(Window(first, count))[g] {
      assert forall id :: id in scan ==> id in Elements(scan);
      GenerationCounts(t, limits, h, scan, j, g);
      WindowCounts(first, count, g);
      RetainedAreScanned(t, limits, h, scan, j, g);
    }
  }

  lemma ConsistentSuffix(t: Tables, limits: Limits, h: History, scan: seq<RequestId>, j: JournalId)
    requires Sane(limits) && Consistent(t, limits, h) && j in t.journals
    requires Distinct(scan) && Elements(scan) == t.receipts.Keys
    ensures SuffixExact(t, limits, scan, j)
  {
    var first := FirstRetained(t.journals[j].generation, limits.maxReceipts);
    var count := t.journals[j].generation - first + 1;
    var list := GenerationsOf(t, scan, j);
    ScanIsWindow(t, limits, h, scan, j, first, count);
    forall i | 0 <= i < |list| ensures 0 <= list[i] {
      assert list[i] in multiset(list);
    }
    SortedSorts(list);
    WindowUnique(0, Sorted(list), first, count);
  }

  /** The receipts of one journal at one generation. */
  ghost function ReceiptsAt(t: Tables, scan: seq<RequestId>, j: JournalId, g: int): set<RequestId> {
    set id | id in scan && id in t.receipts && t.receipts[id].journal == j && t.receipts[id].generation == g
  }

  lemma {:induction false} ListedCount(t: Tables, scan: seq<RequestId>, j: JournalId, g: int)
    requires Distinct(scan)
    ensures multiset(GenerationsOf(t, scan, j))[g] == |ReceiptsAt(t, scan, j, g)|
  {
    if scan != [] {
      var front, id := scan[..|scan| - 1], scan[|scan| - 1];
      ListedCount(t, front, j, g);
      assert scan == front + [id] && id !in front;
      if id in t.receipts && t.receipts[id].journal == j && t.receipts[id].generation == g {
        assert ReceiptsAt(t, scan, j, g) == ReceiptsAt(t, front, j, g) + {id};
      } else {
        assert ReceiptsAt(t, scan, j, g) == ReceiptsAt(t, front, j, g);
      }
    }
  }

  /**
   * The sort-and-enumerate comparison of the startup check holds exactly when the journal has one
   * receipt for each generation of the retained suffix and none elsewhere.
   */
  lemma SuffixExactMeansOnePerGeneration(t: Tables, limits: Limits, scan: seq<RequestId>, j: JournalId)
    requires Sane(limits) && j in t.journals && Distinct(scan)
    ensures SuffixExact(t, limits, scan, j) <==>
            forall g: int :: |ReceiptsAt(t, scan, j, g)| ==
              if FirstRetained(t.journals[j].generation, limits.maxReceipts) <= g <= t.journals[j].generation
              then 1 else 0
  {
    var first := FirstRetained(t.journals[j].generation, limits.maxReceipts);
    var count := t.journals[j].generation - first + 1;
    var list, w := GenerationsOf(t, scan, j), Window(first, count);
    forall g: int
      ensures multiset(list)[g] == |ReceiptsAt(t, scan, j, g)|
      ensures multiset(w)[g] == if first <= g < first + count then 1 else 0
    {
      ListedCount(t, scan, j, g);
      WindowCounts(first, count, g);
    }
    GenerationsNonNegative(t, scan, j);
    SortedSorts(list);
    if multiset(list) == multiset(w) {
      WindowUnique(0, Sorted(list), first, count);
    }
  }

  lemma {:induction false} GenerationsNonNegative(t: Tables, scan: seq<RequestId>, j: JournalId)
    ensures forall i :: 0 <= i < |GenerationsOf(t, scan, j)| ==> 0 <= GenerationsOf(t, scan, j)[i]
  {
    if scan != [] {
      GenerationsNonNegative(t, scan[..|scan| - 1], j);
    }
  }

  /** After every transaction of every run of deliveries, a restart finds acceptable tables. */
  lemma StartupAcceptsEveryRun(limits: Limits, bodies: seq<SaveOnly>, scan: seq<RequestId>)
    requires Sane(limits)
    requires Distinct(scan) && Elements(scan) == TablesAfter(limits, bodies).receipts.Keys
    ensures RowsValid(TablesAfter(limits, bodies), limits, scan)
  {
    RunConsistent(limits, bodies);
    ConsistentRowsAreValid(TablesAfter(limits, bodies), limits, HistoryOf(limits, bodies), scan);
  }
}
