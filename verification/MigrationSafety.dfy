/**
 * What the migration coordinator's steps keep: the journal's soundness, the recoverability of every
 * world a crash may leave, and the coordinator's own memory.
 */
module MigrationSafety {
  import opened Basics
  import opened Projection
  import opened MigrationPlan
  import opened MigrationWorld

  /* ---------- requests and planning ---------- */

  predicate HasPrefix(s: string, prefix: string) {
    |prefix| <= |s| && s[..|prefix|] == prefix
  }

  predicate IsClimate(s: string) {
    HasPrefix(s, "climate.") && Word(s[8..])
  }

  predicate IsLogicalValve(s: string) {
    HasPrefix(s, "logical_valve_") && Word(s[14..])
  }

  predicate ValidRequest(subject: Subject, required: set<string>) {
    && subject.room != "" && subject.roomRevision >= 0
    && required == MANIFEST && subject.targets.Keys == required
    && IsClimate(subject.oldId) && IsLogicalValve(subject.uniqueId)
    && forall p :: p in subject.targets ==> IsClimate(subject.targets[p]) && subject.targets[p] != subject.oldId
  }

  lemma RequestCovers(subject: Subject, required: set<string>)
    requires ValidRequest(subject, required)
    ensures subject.targets.Keys == MANIFEST
  {
  }

  lemma ClimateIsEntity(s: string)
    requires IsClimate(s)
    ensures IsEntity(s)
  {
    assert s[..7] == s[..8][..7] == "climate";
    assert s[7] == s[..8][7];
    assert EntityAt(s, 7);
  }

  /** For a valid request the postimage of a template-free document has nothing left to find. */
  lemma PostimageIsClean(inspect: Inspector, subject: Subject, required: set<string>, d: PlannedDocument)
    requires ValidRequest(subject, required) && SoundDocument(inspect, subject, d) && TemplateFree(d.fingerprint)
    ensures ScanRoot(QueryFor(inspect, subject.oldId, d.key.provider), d.post) == NOTHING
  {
    var q := QueryFor(inspect, subject.oldId, d.key.provider);
    ClimateIsEntity(subject.oldId);
    ClimateIsEntity(subject.targets[d.key.provider]);
    ReplaceIsRewriting(q, subject.targets[d.key.provider], d.fingerprint);
    RescanFindsNothing(q, subject.targets[d.key.provider], d.fingerprint);
  }

  ghost predicate SoundDocuments(inspect: Inspector, subject: Subject, ds: seq<PlannedDocument>) {
    DistinctKeys(ds) && forall i: nat :: i < |ds| ==> SoundDocument(inspect, subject, ds[i])
  }

  /** The planned document was taken from this one. */
  predicate Describes(d: PlannedDocument, doc: Document) {
    d.revision == doc.revision && d.fingerprint == doc.payload && d.writable == doc.writable
  }

  ghost predicate Within(a: map<Key, Document>, b: map<Key, Document>) {
    forall k :: k in a ==> k in b && a[k] == b[k]
  }

  ghost predicate AllDescribed(ds: seq<PlannedDocument>, docs: map<Key, Document>) {
    forall i: nat :: i < |ds| ==> ds[i].key in docs && Describes(ds[i], docs[ds[i].key])
  }

  lemma AppendDocument(inspect: Inspector, subject: Subject, ds: seq<PlannedDocument>, d: PlannedDocument)
    requires SoundDocuments(inspect, subject, ds) && SoundDocument(inspect, subject, d) && d.key !in KeysOf(ds)
    ensures SoundDocuments(inspect, subject, ds + [d]) && KeysOf(ds + [d]) == KeysOf(ds) + {d.key}
  {
    hide SoundDocument;
    forall i: nat | i < |ds| ensures ds[i].key in KeysOf(ds) && ds[i].key in KeysOf(ds + [d]) {
      assert (ds + [d])[i] == ds[i];
    }
    assert (ds + [d])[|ds|].key in KeysOf(ds + [d]);
  }

  /** A document a plan can include: valid, writable, and with no reference that cannot be replaced. */
  ghost predicate Plannable(inspect: Inspector, subject: Subject, key: Key, doc: Document) {
    && ValidPayload(doc.payload) && doc.writable
    && ScanRoot(QueryFor(inspect, subject.oldId, key.provider), doc.payload).blocked == []
  }

  ghost predicate AllPlannable(inspect: Inspector, subject: Subject, docs: map<Key, Document>, providers: set<string>) {
    forall k :: k in docs && k.provider in providers ==> Plannable(inspect, subject, k, docs[k])
  }

  /** Some document of the manifest's providers has a reference to replace. */
  ghost predicate HasReference(inspect: Inspector, subject: Subject, docs: map<Key, Document>) {
    exists k :: k in docs && k.provider in MANIFEST && Refers(inspect, subject, k, docs[k])
  }

  ghost predicate Refers(inspect: Inspector, subject: Subject, key: Key, doc: Document) {
    ScanRoot(QueryFor(inspect, subject.oldId, key.provider), doc.payload).paths != []
  }

  /** A plan counts a reference exactly when some document has one. */
  lemma CountsReferences(inspect: Inspector, subject: Subject, docs: map<Key, Document>, ds: seq<PlannedDocument>)
    requires SoundDocuments(inspect, subject, ds)
    ensures KeysOf(ds) == Restrict(docs, MANIFEST).Keys && AllDescribed(ds, docs) ==>
              (PathCount(ds) > 0 <==> HasReference(inspect, subject, docs))
  {
    hide ScanRoot, ValidPayload, Rewritten;
    PathCountPositive(ds);
    if KeysOf(ds) == Restrict(docs, MANIFEST).Keys && AllDescribed(ds, docs) {
      forall i: nat | i < |ds|
        ensures ds[i].key in docs && ds[i].key.provider in MANIFEST
        ensures ds[i].paths != [] <==> Refers(inspect, subject, ds[i].key, docs[ds[i].key])
      {
        assert SoundDocument(inspect, subject, ds[i]);
      }
      if HasReference(inspect, subject, docs) {
        var k :| k in docs && k.provider in MANIFEST && Refers(inspect, subject, k, docs[k]);
        assert k in KeysOf(ds);
        var i: nat :| i < |ds| && ds[i].key == k;
        assert ds[i].paths != [];
      }
    }
  }

  lemma {:induction false} PathCountPositive(ds: seq<PlannedDocument>)
    ensures PathCount(ds) > 0 <==> exists i: nat :: i < |ds| && ds[i].paths != []
  {
    if ds != [] {
      var n := |ds| - 1;
      PathCountPositive(ds[..n]);
      assert ds[..n] + [ds[n]] == ds;
      if exists i: nat :: i < |ds| && ds[i].paths != [] {
        var i: nat :| i < |ds| && ds[i].paths != [];
        assert i < n ==> ds[..n][i] == ds[i];
      }
      if exists i: nat :: i < n && ds[..n][i].paths != [] {
        var i: nat :| i < n && ds[..n][i].paths != [];
        assert ds[i].paths != [];
      }
    }
  }

  lemma DiscoveredIsSound(inspect: Inspector, plan: Plan)
    requires SoundDocuments(inspect, plan.content.subject, plan.content.documents)
    requires plan.content.subject.targets.Keys == MANIFEST && plan.replacements == PathCount(plan.content.documents)
    ensures SoundPlan(inspect, plan)
  {
  }

  lemma SoundPlanContent(inspect: Inspector, plan: Plan)
    requires SoundPlan(inspect, plan)
    ensures SoundContent(inspect, IdOf(plan).content)
  {
  }

  /* ---------- preflight ---------- */

  predicate Unchanged(d: PlannedDocument, inventory: map<Key, Document>) {
    && d.key in inventory
    && inventory[d.key].revision == d.revision && inventory[d.key].payload == d.fingerprint && inventory[d.key].writable
  }

  /** The fetched inventory is exactly what was planned, revision by revision. */
  predicate PreflightOk(plan: Plan, inventory: map<Key, Document>) {
    && inventory.Keys == KeysOf(plan.content.documents)
    && (forall i: nat :: i < |plan.content.documents| ==> Unchanged(plan.content.documents[i], inventory))
    && (plan.content.expected ==> PathCount(plan.content.documents) > 0)
  }

  /** The originals fetched are the planned fingerprints. */
  ghost predicate MatchMeansOriginal(id: PlanId, originals: map<Key, Document>) {
    forall i: nat :: i < |id.content.documents| ==> Unchanged(id.content.documents[i], originals)
  }

  lemma PreflightMeans(inspect: Inspector, plan: Plan, originals: map<Key, Document>)
    requires PreflightOk(plan, originals) && SoundPlan(inspect, plan)
    ensures MatchMeansOriginal(IdOf(plan), originals) && DistinctKeys(plan.content.documents)
  {
  }

  lemma FoundIsOriginal(plan: Plan, w: World, found: map<Key, Document>)
    requires PreflightOk(plan, found) && found == Restrict(w.docs, MANIFEST)
    ensures AtOriginals(w, IdOf(plan))
  {
    forall i: nat | i < |plan.content.documents| ensures AtOriginal(w, plan.content.documents[i]) {
      assert Unchanged(plan.content.documents[i], found);
    }
  }

  /* ---------- changes ---------- */

  datatype Change = Change(d: PlannedDocument, original: Document, payload: Json)

  /** A change of one planned document, from its fingerprint to its postimage. */
  ghost predicate ChangeFor(c: Content, ch: Change) {
    && (exists i: nat :: i < |c.documents| && c.documents[i] == ch.d)
    && ch.original.payload == ch.d.fingerprint && ch.original.writable && ch.payload == ch.d.post
    && ValidPayload(ch.original.payload) && ValidPayload(ch.payload)
  }

  ghost predicate Changes(id: PlanId, changes: seq<Change>) {
    forall i: nat :: i < |changes| ==> ChangeFor(id.content, changes[i])
  }

  ghost predicate ChangesOk(plan: Plan, inventory: map<Key, Document>, changes: seq<Change>) {
    && Changes(IdOf(plan), changes)
    && forall i: nat :: i < |changes| ==>
         changes[i].d.key in inventory && changes[i].original == inventory[changes[i].d.key]
  }

  /** One change per document with something to replace, in plan order. */
  function ChangesOf(ds: seq<PlannedDocument>, inventory: map<Key, Document>): seq<Change>
    requires forall i: nat :: i < |ds| ==> ds[i].key in inventory
  {
    if ds == [] then []
    else
      var d := ds[|ds| - 1];
      ChangesOf(ds[..|ds| - 1], inventory) + (if d.paths != [] then [Change(d, inventory[d.key], d.post)] else [])
  }

  ghost predicate DistinctChanges(changes: seq<Change>) {
    forall i: nat, j: nat :: i < j < |changes| ==> changes[i].d.key != changes[j].d.key
  }

  ghost predicate HasChange(changes: seq<Change>, key: Key) {
    exists k: nat :: k < |changes| && changes[k].d.key == key
  }

  /** The changes are exactly of the documents with paths, each from its fetched original. */
  lemma {:induction false} ChangesOfDocuments(ds: seq<PlannedDocument>, inventory: map<Key, Document>)
    requires DistinctKeys(ds) && forall i: nat :: i < |ds| ==> ds[i].key in inventory
    ensures var changes := ChangesOf(ds, inventory);
            && |changes| == ChangedCount(ds) && DistinctChanges(changes)
            && (forall k: nat :: k < |changes| ==>
                  changes[k].d in ds && changes[k].original == inventory[changes[k].d.key]
                  && changes[k].payload == changes[k].d.post)
            && (forall i: nat :: i < |ds| && ds[i].paths != [] ==> HasChange(changes, ds[i].key))
  {
    if ds != [] {
      var front, last := ds[..|ds| - 1], ds[|ds| - 1];
      ChangesOfDocuments(front, inventory);
      var before, changes := ChangesOf(front, inventory), ChangesOf(ds, inventory);
      forall key | HasChange(before, key) ensures HasChange(changes, key) {
        var k: nat :| k < |before| && before[k].d.key == key;
        assert changes[k].d.key == key;
      }
      if last.paths != [] {
        assert changes[|before|].d.key == last.key;
      }
      forall i: nat | i < |ds| && ds[i].paths != [] ensures HasChange(changes, ds[i].key) {
        assert i < |front| ==> front[i] == ds[i];
      }
    }
  }

  lemma PlannedChangesOk(inspect: Inspector, plan: Plan, inventory: map<Key, Document>)
    requires SoundPlan(inspect, plan) && PreflightOk(plan, inventory)
    ensures var changes := ChangesOf(plan.content.documents, inventory);
            ChangesOk(plan, inventory, changes) && |changes| == ChangedCount(plan.content.documents)
            && DistinctChanges(changes)
  {
    hide WellFormed, Shallow, PathCount, Rewritten, ValidPayload;
    var ds := plan.content.documents;
    var changes := ChangesOf(ds, inventory);
    ChangesOfDocuments(ds, inventory);
    forall k: nat | k < |changes| ensures ChangeFor(IdOf(plan).content, changes[k]) && changes[k].d.key in inventory {
      var i: nat :| i < |ds| && ds[i] == changes[k].d;
      assert SoundDocument(inspect, plan.content.subject, ds[i]) && Unchanged(ds[i], inventory);
      PlannedReplacement(inspect, plan.content.subject, ds[i]);
    }
  }

  lemma ChangeIsEntry(id: PlanId, ch: Change)
    requires ChangeFor(id.content, ch)
    ensures EntryOk(id.content, Entry(ch.d.key, ch.original, ch.d.post)) && ValidPayload(ch.original.payload)
  {
    var i: nat :| i < |id.content.documents| && id.content.documents[i] == ch.d;
    assert EntryFor(id.content.documents[i], Entry(ch.d.key, ch.original, ch.d.post));
  }

  lemma ChangeIsWritable(id: PlanId, c: Change)
    requires ChangeFor(id.content, c)
    ensures c.original.writable && ValidPayload(c.payload) && c.payload == c.d.post
  {
    hide ValidPayload;
  }

  /* ---------- what the journal keeps ---------- */

  predicate JournalComplete(w: World, id: PlanId) {
    id in w.states && w.states[id] == Complete
  }

  lemma CompletedPlans(inspect: Inspector, w: World)
    requires JournalOk(inspect, w)
    ensures forall id :: id in w.completions ==>
              IdOf(w.completions[id].plan) == id && SoundPlan(inspect, w.completions[id].plan)
  {
    hide SoundPlan, SoundContent;
  }

  lemma CompletedIsSound(inspect: Inspector, w: World, id: PlanId)
    requires JournalOk(inspect, w) && id in w.completions
    ensures SoundContent(inspect, id.content)
  {
    hide SoundContent;
    CompletedPlans(inspect, w);
    assert IdOf(w.completions[id].plan) == id;
  }

  /** Soundness of the journal depends on the journal alone. */
  lemma JournalFrame(inspect: Inspector, w: World, id: PlanId)
    requires JournalOk(inspect, w)
    ensures forall w': World :: SameJournal(w, w') ==> JournalOk(inspect, w')
    ensures id in w.states || SoundContent(inspect, id.content) ==>
              forall w': World, phase: Phase :: phase != Complete && SameJournal(w', WithState(w, id, phase)) ==>
                JournalOk(inspect, w')
  {
    hide SoundPlan, SoundContent, ValidCompletion, EntriesOk;
  }

  lemma JournalSame(inspect: Inspector, w: World)
    ensures forall w': World :: SameJournal(w', w) ==> (JournalOk(inspect, w') <==> JournalOk(inspect, w))
  {
    hide SoundPlan, SoundContent, ValidCompletion, EntriesOk;
  }

  lemma CompletionKeepsJournal(inspect: Inspector, w: World, id: PlanId, c: Completion)
    requires JournalOk(inspect, w) && ValidCompletion(c, id) && SoundPlan(inspect, c.plan)
    ensures forall w': World :: SameJournal(w', w) || SameJournal(w', WithCompletion(w, id, c)) ==>
              JournalOk(inspect, w')
  {
    hide SoundPlan, SoundContent, ValidCompletion, EntriesOk;
  }

  lemma CompleteKeepsJournal(inspect: Inspector, w: World, id: PlanId)
    requires JournalOk(inspect, w) && id in w.completions
    ensures forall w': World :: SameJournal(w', w) || SameJournal(w', WithState(w, id, Complete)) ==>
              JournalOk(inspect, w')
  {
    hide SoundPlan, SoundContent, ValidCompletion, EntriesOk;
    CompletedIsSound(inspect, w, id);
  }

  lemma RecordKeepsJournal(inspect: Inspector, w: World, id: PlanId, e: Entry)
    requires JournalOk(inspect, w) && SoundContent(inspect, id.content) && EntryOk(id.content, e)
    ensures !HasKey(OriginalsFor(w, id), e.key) ==>
              forall w': World :: SameJournal(w', WithOriginal(w, id, e)) ==> JournalOk(inspect, w')
  {
    hide SoundPlan, SoundContent, ValidCompletion;
    if !HasKey(OriginalsFor(w, id), e.key) {
      var es := OriginalsFor(w, id);
      assert EntriesOk(id.content, es + [e]);
    }
  }

  lemma KeysStay(w: World, w': World, id: PlanId, e: Entry)
    requires SameJournal(w', w) || SameJournal(w', WithOriginal(w, id, e))
    ensures forall key :: HasKey(OriginalsFor(w, id), key) ==> HasKey(OriginalsFor(w', id), key)
  {
    var es, es' := OriginalsFor(w, id), OriginalsFor(w', id);
    forall key | HasKey(es, key) ensures HasKey(es', key) {
      var i: nat :| i < |es| && es[i].key == key;
      assert es'[i].key == key;
    }
  }

  /** Only the first `n` changes have an entry. */
  ghost predicate KeysAmong(es: seq<Entry>, changes: seq<Change>, n: nat)
    requires n <= |changes|
  {
    forall i: nat :: i < |es| ==> EntryAmong(es[i], changes, n)
  }

  ghost predicate EntryAmong(e: Entry, changes: seq<Change>, n: nat)
    requires n <= |changes|
  {
    exists k: nat :: k < n && changes[k].d.key == e.key
  }

  lemma NoneAmong(es: seq<Entry>, changes: seq<Change>)
    ensures es == [] ==> KeysAmong(es, changes, 0)
  {
  }

  lemma FreshEntry(es: seq<Entry>, changes: seq<Change>, n: nat, e: Entry)
    requires n < |changes| && e.key == changes[n].d.key
    ensures KeysAmong(es, changes, n) && DistinctChanges(changes) ==> NoConflict(es, e)
  {
    if KeysAmong(es, changes, n) && DistinctChanges(changes) {
      forall i: nat | i < |es| ensures es[i].key != e.key {
        assert EntryAmong(es[i], changes, n);
      }
    }
  }

  lemma AmongOneMore(w: World, w': World, id: PlanId, e: Entry, changes: seq<Change>, n: nat)
    requires n < |changes| && e.key == changes[n].d.key
    requires SameJournal(w', w) || SameJournal(w', WithOriginal(w, id, e))
    ensures KeysAmong(OriginalsFor(w, id), changes, n) ==> KeysAmong(OriginalsFor(w', id), changes, n + 1)
  {
    if KeysAmong(OriginalsFor(w, id), changes, n) {
      var es, es' := OriginalsFor(w, id), OriginalsFor(w', id);
      forall i: nat | i < |es'| ensures EntryAmong(es'[i], changes, n + 1) {
        if i < |es| {
          assert EntryAmong(es[i], changes, n);
        } else {
          assert changes[n].d.key == es'[i].key;
        }
      }
    }
  }

  ghost predicate AllJournaled(w: World, id: PlanId, changes: seq<Change>) {
    forall i: nat :: i < |changes| ==> Journaled(w, id, changes[i].d)
  }

  lemma JournaledAt(w: World, id: PlanId, changes: seq<Change>, i: nat)
    requires i < |changes|
    ensures AllJournaled(w, id, changes) ==> Journaled(w, id, changes[i].d)
  {
  }

  /* ---------- what a crash may find ---------- */

  lemma OriginalsFrame(w: World, w': World, id: PlanId)
    ensures w'.docs == w.docs && AtOriginals(w, id) ==> AtOriginals(w', id)
  {
    if w'.docs == w.docs && AtOriginals(w, id) {
      forall i: nat | i < |id.content.documents| ensures AtOriginal(w', id.content.documents[i]) {
        assert AtOriginal(w, id.content.documents[i]);
      }
    }
  }

  /** Untouched documents are recoverable whatever the journal says, short of complete. */
  lemma OriginalsAreSafe(w: World, id: PlanId)
    ensures AtOriginals(w, id) && !JournalComplete(w, id) ==> Safe(w, id)
  {
    if AtOriginals(w, id) && !JournalComplete(w, id) {
      forall i: nat | i < |id.content.documents| ensures DocumentSafe(w, id, id.content.documents[i]) {
        assert AtOriginal(w, id.content.documents[i]);
      }
    }
  }

  lemma FailedIsSafe(w: World, id: PlanId)
    ensures AtOriginals(w, id) && !JournalComplete(w, id) ==> Safe(w, id) && Safe(WithState(w, id, Failed), id)
    ensures AtOriginals(w, id) ==>
              AtOriginals(WithState(w, id, Failed), id) && AtOriginals(WithState(w, id, Applying), id)
    ensures AtOriginals(w, id) ==> Safe(WithState(w, id, Applying), id)
  {
    OriginalsAreSafe(w, id);
    if AtOriginals(w, id) {
      forall i: nat | i < |id.content.documents|
        ensures AtOriginal(WithState(w, id, Failed), id.content.documents[i])
        ensures AtOriginal(WithState(w, id, Applying), id.content.documents[i])
      {
        assert AtOriginal(w, id.content.documents[i]);
      }
      OriginalsAreSafe(WithState(w, id, Failed), id);
      OriginalsAreSafe(WithState(w, id, Applying), id);
    }
  }

  /** Writing the postimage of a journaled document keeps a crash recoverable. */
  lemma PostKeepsSafe(w: World, id: PlanId, c: Change)
    requires DistinctKeys(id.content.documents) && ChangeFor(id.content, c)
    ensures Safe(w, id) && Incomplete(w, id) && Journaled(w, id, c.d) && c.d.key in w.docs ==>
              Safe(Written(w, c.d.key, c.payload), id)
  {
    if Safe(w, id) && Incomplete(w, id) && Journaled(w, id, c.d) && c.d.key in w.docs {
      var ds, w' := id.content.documents, Written(w, c.d.key, c.payload);
      var k: nat :| k < |ds| && ds[k] == c.d;
      assert OriginalsFor(w', id) == OriginalsFor(w, id);
      forall i: nat | i < |ds| ensures DocumentSafe(w', id, ds[i]) {
        assert DocumentSafe(w, id, ds[i]);
        assert Journaled(w, id, ds[i]) ==> Journaled(w', id, ds[i]);
      }
    }
  }

  /** Writing an original back keeps a crash recoverable. */
  lemma RestoreKeepsSafe(w: World, id: PlanId, e: Entry)
    requires Safe(w, id) && Incomplete(w, id) && DistinctKeys(id.content.documents)
    requires EntryOk(id.content, e) && e.key in w.docs
    ensures Safe(Written(w, e.key, e.document.payload), id)
  {
    var ds := id.content.documents;
    var k: nat :| k < |ds| && EntryFor(ds[k], e);
    var w' := Written(w, e.key, e.document.payload);
    assert OriginalsFor(w', id) == OriginalsFor(w, id);
    forall i: nat | i < |ds| ensures DocumentSafe(w', id, ds[i]) {
      assert DocumentSafe(w, id, ds[i]);
      assert Journaled(w, id, ds[i]) ==> Journaled(w', id, ds[i]);
    }
  }

  /** The document an entry is for is at its original or at its postimage, and writable. */
  lemma EntryIsAtEither(w: World, id: PlanId, e: Entry)
    requires Safe(w, id) && Incomplete(w, id) && EntryOk(id.content, e)
    ensures e.key in w.docs && w.docs[e.key].writable && e.document.writable
    ensures w.docs[e.key].payload == e.post || w.docs[e.key].payload == e.document.payload
  {
    var k: nat :| k < |id.content.documents| && EntryFor(id.content.documents[k], e);
    assert DocumentSafe(w, id, id.content.documents[k]);
  }

  lemma EitherIsThere(w: World, id: PlanId, e: Entry)
    requires EntryOk(id.content, e)
    ensures Safe(w, id) && Incomplete(w, id) ==>
              (&& e.key in w.docs && w.docs[e.key].writable
               && (w.docs[e.key].payload == e.post || w.docs[e.key].payload == e.document.payload))
  {
    if Safe(w, id) && Incomplete(w, id) {
      EntryIsAtEither(w, id, e);
    }
  }

  lemma RestoreSteps(w: World, id: PlanId, e: Entry)
    requires DistinctKeys(id.content.documents) && EntryOk(id.content, e) && e.key in w.docs
    ensures Safe(w, id) && Incomplete(w, id) ==>
              && Safe(Written(w, e.key, e.document.payload), id)
              && w.docs[e.key].writable
  {
    if Safe(w, id) && Incomplete(w, id) {
      RestoreKeepsSafe(w, id, e);
      EntryIsAtEither(w, id, e);
    }
  }

  lemma SafetyOf(w: World, w': World, id: PlanId)
    requires w'.docs == w.docs && w'.originals == w.originals
    ensures w'.states == w.states ==> (Safe(w', id) <==> Safe(w, id))
    ensures AtPostimages(w, id) && w'.states == w.states[id := Complete] ==> Safe(w', id) && AtPostimages(w', id)
    ensures Safe(w, id) && Incomplete(w, id) && w'.states == w.states[id := Phase.Blocked] ==> Safe(w', id)
  {
    var ds := id.content.documents;
    if w'.states == w.states {
      assert forall i: nat :: i < |ds| ==> (DocumentSafe(w, id, ds[i]) <==> DocumentSafe(w', id, ds[i]));
    }
    if AtPostimages(w, id) && w'.states == w.states[id := Complete] {
      forall i: nat | i < |ds| ensures DocumentSafe(w', id, ds[i]) && AtPostimage(w', ds[i]) {
        assert AtPostimage(w, ds[i]);
      }
    }
    if Safe(w, id) && Incomplete(w, id) && w'.states == w.states[id := Phase.Blocked] {
      forall i: nat | i < |ds| ensures DocumentSafe(w', id, ds[i]) {
        assert DocumentSafe(w, id, ds[i]);
      }
    }
  }

  /** What a crash may leave depends on documents, originals and states alone. */
  lemma SafetyFrame(w: World, id: PlanId)
    ensures forall w': World :: w'.docs == w.docs && w'.originals == w.originals && w'.states == w.states ==>
              (Safe(w', id) <==> Safe(w, id))
    ensures AtPostimages(w, id) ==>
              forall w': World :: w'.docs == w.docs && w'.originals == w.originals
                                  && w'.states == w.states[id := Complete] ==>
                Safe(w', id) && AtPostimages(w', id)
    ensures Safe(w, id) && Incomplete(w, id) ==>
              forall w': World :: w'.docs == w.docs && w'.originals == w.originals
                                  && w'.states == w.states[id := Phase.Blocked] ==>
                Safe(w', id)
  {
    forall w': World | w'.docs == w.docs && w'.originals == w.originals
      ensures w'.states == w.states ==> (Safe(w', id) <==> Safe(w, id))
      ensures AtPostimages(w, id) && w'.states == w.states[id := Complete] ==> Safe(w', id) && AtPostimages(w', id)
      ensures Safe(w, id) && Incomplete(w, id) && w'.states == w.states[id := Phase.Blocked] ==> Safe(w', id)
    {
      SafetyOf(w, w', id);
    }
  }

  lemma BlockedKeepsSafe(w: World, id: PlanId)
    requires Incomplete(w, id) && Safe(w, id)
    ensures Safe(WithState(w, id, Phase.Blocked), id)
  {
    var ds, w' := id.content.documents, WithState(w, id, Phase.Blocked);
    assert OriginalsFor(w', id) == OriginalsFor(w, id);
    forall i: nat | i < |ds| ensures DocumentSafe(w', id, ds[i]) {
      assert DocumentSafe(w, id, ds[i]);
      assert Journaled(w, id, ds[i]) ==> Journaled(w', id, ds[i]);
    }
  }

  /** The state changes of a failed plan keep a crash recoverable. */
  lemma StateSteps(inspect: Inspector, w: World, id: PlanId)
    requires JournalOk(inspect, w) && Incomplete(w, id)
    ensures JournalOk(inspect, WithState(w, id, Phase.Blocked)) && JournalOk(inspect, WithState(w, id, Failed))
    ensures Safe(w, id) ==> Safe(WithState(w, id, Phase.Blocked), id)
    ensures AtOriginals(w, id) ==>
              Safe(w, id) && Safe(WithState(w, id, Failed), id) && AtOriginals(WithState(w, id, Failed), id)
  {
    hide SoundPlan, SoundContent, ValidCompletion, EntriesOk;
    var ds := id.content.documents;
    JournalFrame(inspect, w, id);
    if Safe(w, id) {
      BlockedKeepsSafe(w, id);
    }
    if AtOriginals(w, id) {
      forall i: nat | i < |ds| ensures DocumentSafe(w, id, ds[i]) && DocumentSafe(WithState(w, id, Failed), id, ds[i]) {
        assert AtOriginal(w, ds[i]);
      }
    }
  }

  lemma SafeMeans(w: World, id: PlanId)
    requires Safe(w, id)
    ensures JournalComplete(w, id) ==> AtPostimages(w, id)
    ensures !JournalComplete(w, id) && !Incomplete(w, id) ==> AtOriginals(w, id)
  {
    var ds := id.content.documents;
    if JournalComplete(w, id) {
      forall i: nat | i < |ds| ensures AtPostimage(w, ds[i]) {
        assert DocumentSafe(w, id, ds[i]);
      }
    } else if !Incomplete(w, id) {
      forall i: nat | i < |ds| ensures AtOriginal(w, ds[i]) {
        assert DocumentSafe(w, id, ds[i]);
      }
    }
  }

  lemma PostedMeans(inspect: Inspector, plan: Plan, w: World, inventory: map<Key, Document>)
    requires PostApplied(inspect, plan, inventory) && inventory == Restrict(w.docs, MANIFEST)
    ensures AtPostimages(w, IdOf(plan))
  {
    forall i: nat | i < |plan.content.documents| ensures AtPostimage(w, plan.content.documents[i]) {
      assert DocumentPosted(inspect, plan, inventory, i);
    }
  }

  /* ---------- restoring ---------- */

  /** A document the plan may restore: the entry of one of its documents. */
  ghost predicate Restorable(id: PlanId, es: seq<Entry>) {
    && DistinctKeys(id.content.documents)
    && forall i: nat :: i < |es| ==> EntryOk(id.content, es[i]) && ValidPayload(es[i].document.payload)
  }

  ghost predicate DistinctEntries(es: seq<Entry>) {
    forall i: nat, j: nat :: i < j < |es| ==> es[i].key != es[j].key
  }

  ghost predicate HasEntry(es: seq<Entry>, k: Key) {
    exists i: nat :: i < |es| && es[i].key == k
  }

  /** Documents without an entry stay as they were. */
  ghost predicate KeepsOthers(w: World, w': World, es: seq<Entry>) {
    forall k :: k in w.docs && !HasEntry(es, k) ==> k in w'.docs && w'.docs[k] == w.docs[k]
  }

  ghost predicate Restored(w: World, e: Entry) {
    e.key in w.docs && w.docs[e.key].payload == e.document.payload && w.docs[e.key].writable
  }

  ghost predicate AllRestored(w: World, es: seq<Entry>, from: nat) {
    forall i: nat :: from <= i < |es| ==> Restored(w, es[i])
  }

  ghost predicate ByKey(originals: map<Key, Document>, es: seq<Entry>) {
    && (forall i: nat :: i < |es| ==> es[i].key in originals && originals[es[i].key] == es[i].document)
    && (forall k :: k in originals ==> HasEntry(es, k))
  }

  lemma JournaledEntries(inspect: Inspector, w: World, id: PlanId)
    requires JournalOk(inspect, w) && Incomplete(w, id)
    ensures Restorable(id, OriginalsFor(w, id)) && DistinctEntries(OriginalsFor(w, id))
  {
    var es := OriginalsFor(w, id);
    forall i: nat | i < |es| ensures EntryOk(id.content, es[i]) && ValidPayload(es[i].document.payload) {
      assert EntriesOk(id.content, es);
      var k: nat :| k < |id.content.documents| && EntryFor(id.content.documents[k], es[i]);
      assert SoundDocument(inspect, id.content.subject, id.content.documents[k]);
    }
  }

  function ProvidersOf(originals: map<Key, Document>): set<string> {
    set k | k in originals :: k.provider
  }

  ghost predicate Match(w: World, k: Key, original: Document) {
    k in w.docs && w.docs[k].payload == original.payload && w.docs[k].writable == original.writable
  }

  /** Every original is back, in content and writability. */
  ghost predicate Matches(w: World, originals: map<Key, Document>) {
    forall k :: k in originals ==> Match(w, k, originals[k])
  }

  lemma MatchesFrame(w: World, w': World, originals: map<Key, Document>)
    ensures w'.docs == w.docs && Matches(w, originals) ==> Matches(w', originals)
  {
    if w'.docs == w.docs && Matches(w, originals) {
      forall k | k in originals ensures Match(w', k, originals[k]) {
        assert Match(w, k, originals[k]);
      }
    }
  }

  /** The originals fetched are those of the planned documents, no more and no less. */
  ghost predicate PlannedOriginals(id: PlanId, originals: map<Key, Document>) {
    originals.Keys == KeysOf(id.content.documents) && MatchMeansOriginal(id, originals)
  }

  /** Only attempted documents have changed: restoring these restores all. */
  ghost predicate Covered(w: World, id: PlanId, attempted: seq<Entry>, originals: map<Key, Document>) {
    && Restrict(w.docs, ProvidersOf(originals)).Keys == originals.Keys
    && forall i: nat :: i < |id.content.documents| ==> CoveredAt(w, id.content.documents[i], attempted)
  }

  ghost predicate CoveredAt(w: World, d: PlannedDocument, attempted: seq<Entry>) {
    HasEntry(attempted, d.key) || (d.key in w.docs && w.docs[d.key].payload == d.fingerprint)
  }

  /**
   * Restoring the attempted documents of a recoverable world brings every original back exactly when they
   * cover what changed.
   */
  lemma CoveredMatches(w: World, w': World, id: PlanId, attempted: seq<Entry>, originals: map<Key, Document>)
    requires Restorable(id, attempted)
    ensures Safe(w, id) && Incomplete(w, id) && PlannedOriginals(id, originals) && w'.docs.Keys == w.docs.Keys
            && AllRestored(w', attempted, 0) && KeepsOthers(w, w', attempted) ==>
              (Covered(w, id, attempted, originals) <==>
                 && Matches(w', originals) && Restrict(w'.docs, ProvidersOf(originals)).Keys == originals.Keys)
  {
    if Safe(w, id) && Incomplete(w, id) && PlannedOriginals(id, originals) && w'.docs.Keys == w.docs.Keys
       && AllRestored(w', attempted, 0) && KeepsOthers(w, w', attempted) {
      assert Restrict(w'.docs, ProvidersOf(originals)).Keys == Restrict(w.docs, ProvidersOf(originals)).Keys;
      forall i: nat | i < |id.content.documents|
        ensures Match(w', id.content.documents[i].key, originals[id.content.documents[i].key])
                <==> CoveredAt(w, id.content.documents[i], attempted)
      {
        MatchedWhenCovered(w, w', id, attempted, originals, i);
      }
      forall k | k in originals
        ensures exists i: nat :: i < |id.content.documents| && id.content.documents[i].key == k
      {
      }
      assert Matches(w', originals) <==>
             forall i: nat :: i < |id.content.documents| ==> CoveredAt(w, id.content.documents[i], attempted) by {
        if Matches(w', originals) {
          forall i: nat | i < |id.content.documents| ensures CoveredAt(w, id.content.documents[i], attempted) {
            assert Match(w', id.content.documents[i].key, originals[id.content.documents[i].key]);
          }
        }
      }
    }
  }

  lemma MatchedWhenCovered(w: World, w': World, id: PlanId, attempted: seq<Entry>, originals: map<Key, Document>,
                           i: nat)
    requires Restorable(id, attempted) && Safe(w, id) && Incomplete(w, id) && PlannedOriginals(id, originals)
    requires w'.docs.Keys == w.docs.Keys && AllRestored(w', attempted, 0) && KeepsOthers(w, w', attempted)
    requires i < |id.content.documents|
    ensures var d := id.content.documents[i];
            d.key in originals && (Match(w', d.key, originals[d.key]) <==> CoveredAt(w, d, attempted))
  {
    var d := id.content.documents[i];
    assert DocumentSafe(w, id, d) && Unchanged(d, originals);
    if HasEntry(attempted, d.key) {
      var k: nat :| k < |attempted| && attempted[k].key == d.key;
      assert EntryOk(id.content, attempted[k]) && Restored(w', attempted[k]);
      var j: nat :| j < |id.content.documents| && EntryFor(id.content.documents[j], attempted[k]);
      assert j == i;
    }
  }

  lemma MatchedAreOriginal(w: World, id: PlanId, originals: map<Key, Document>)
    ensures MatchMeansOriginal(id, originals) && Matches(w, originals) ==> AtOriginals(w, id)
  {
    if MatchMeansOriginal(id, originals) && Matches(w, originals) {
      forall i: nat | i < |id.content.documents| ensures AtOriginal(w, id.content.documents[i]) {
        var d := id.content.documents[i];
        assert Unchanged(d, originals);
        assert Match(w, d.key, originals[d.key]);
      }
    }
  }

  lemma RestoredMatch(w: World, id: PlanId, es: seq<Entry>, originals: map<Key, Document>)
    requires ByKey(originals, es) && Restorable(id, es)
    ensures AllRestored(w, es, 0) ==> Matches(w, originals)
  {
    if AllRestored(w, es, 0) {
      forall k | k in originals ensures Match(w, k, originals[k]) {
        var i: nat :| i < |es| && es[i].key == k;
        assert Restored(w, es[i]) && EntryOk(id.content, es[i]);
      }
    }
  }

  /** Once every journaled original matches, nothing of the plan is left changed. */
  lemma BackAtOriginals(w: World, id: PlanId, es: seq<Entry>, originals: map<Key, Document>)
    requires es == OriginalsFor(w, id) && ByKey(originals, es) && Restorable(id, es)
    ensures Safe(w, id) && Incomplete(w, id) && Matches(w, originals) ==> AtOriginals(w, id)
  {
    if Safe(w, id) && Incomplete(w, id) && Matches(w, originals) {
      forall i: nat | i < |id.content.documents| ensures AtOriginal(w, id.content.documents[i]) {
        var d := id.content.documents[i];
        assert DocumentSafe(w, id, d);
        if Journaled(w, id, d) {
          var k: nat :| k < |es| && es[k].key == d.key;
          assert EntryOk(id.content, es[k]);
          assert Match(w, d.key, originals[d.key]);
        }
      }
    }
  }

  lemma FetchedAll(docs: map<Key, Document>, done: set<string>, p: string)
    ensures Restrict(docs, done) + Restrict(docs, {p}) == Restrict(docs, done + {p})
  {
  }

  /* ---------- applying without faults ---------- */

  predicate Authorized(w: World, plan: Plan) {
    plan.content.subject.room in w.authority && w.authority[plan.content.subject.room] == plan.content.subject
  }

  predicate CleanDocument(inspect: Inspector, plan: Plan, d: PlannedDocument) {
    ScanRoot(QueryFor(inspect, plan.content.subject.oldId, d.key.provider), d.post) == NOTHING
  }

  /** No postimage of the plan mentions the old entity any more. */
  predicate Clean(inspect: Inspector, plan: Plan) {
    forall i: nat :: i < |plan.content.documents| ==> CleanDocument(inspect, plan, plan.content.documents[i])
  }

  /** Nothing stands against applying the plan for the first time. */
  predicate Startable(inspect: Inspector, plan: Plan, w: World) {
    && PreflightOk(plan, Restrict(w.docs, MANIFEST)) && Authorized(w, plan) && Clean(inspect, plan)
    && IdOf(plan) !in w.completions && OriginalsFor(w, IdOf(plan)) == []
  }

  /** The changes of a startable plan, about to be written. */
  ghost predicate Ready(inspect: Inspector, plan: Plan, w: World, originals: map<Key, Document>, changes: seq<Change>) {
    && SoundPlan(inspect, plan) && PreflightOk(plan, originals) && originals == Restrict(w.docs, MANIFEST)
    && changes == ChangesOf(plan.content.documents, originals)
    && Authorized(w, plan) && Clean(inspect, plan) && IdOf(plan) !in w.completions
  }

  lemma StartableIsReady(inspect: Inspector, plan: Plan, w: World, originals: map<Key, Document>, changes: seq<Change>)
    requires SoundPlan(inspect, plan) && PreflightOk(plan, originals)
             && changes == ChangesOf(plan.content.documents, originals)
    ensures Startable(inspect, plan, w) && originals == Restrict(w.docs, MANIFEST) ==>
              Ready(inspect, plan, w, originals, changes) && OriginalsFor(w, IdOf(plan)) == []
  {
    hide SoundPlan, PreflightOk, Clean;
  }

  lemma StartableAtOriginals(inspect: Inspector, plan: Plan, w: World)
    ensures Startable(inspect, plan, w) ==> AtOriginals(w, IdOf(plan))
  {
    hide PreflightOk, Clean, Authorized, AtOriginals;
    if Startable(inspect, plan, w) {
      FoundIsOriginal(plan, w, Restrict(w.docs, MANIFEST));
    }
  }

  lemma ReadyFrame(inspect: Inspector, plan: Plan, w: World, w': World, originals: map<Key, Document>,
                   changes: seq<Change>)
    ensures w'.docs == w.docs && w'.authority == w.authority && w'.completions == w.completions ==>
              (Ready(inspect, plan, w, originals, changes) ==> Ready(inspect, plan, w', originals, changes))
  {
    hide SoundPlan, PreflightOk, Clean, ChangesOf;
  }

  ghost predicate StillOriginal(w: World, c: Change) {
    c.d.key in w.docs && w.docs[c.d.key] == c.original
  }

  ghost predicate NowPosted(w: World, c: Change) {
    c.d.key in w.docs && w.docs[c.d.key].payload == c.payload && w.docs[c.d.key].writable
  }

  /** The first `n` changes are written, the others still to come, and no other document changed. */
  ghost predicate WrittenUpTo(w: World, w': World, changes: seq<Change>, n: nat)
    requires n <= |changes|
  {
    && w'.docs.Keys == w.docs.Keys
    && (forall k: nat :: k < n ==> NowPosted(w', changes[k]))
    && (forall k: nat :: n <= k < |changes| ==> StillOriginal(w', changes[k]) && changes[k].original.writable)
    && (forall key :: key in w.docs && !HasChange(changes, key) ==> key in w'.docs && w'.docs[key] == w.docs[key])
  }

  /** The attempted entries are of different ones of the first `n` changes. */
  ghost predicate EntriesUpTo(attempted: seq<Entry>, changes: seq<Change>, n: nat)
    requires n <= |changes|
  {
    && (forall i: nat :: i < |attempted| ==> EntryAmong(attempted[i], changes, n))
    && (DistinctChanges(changes) ==> DistinctEntries(attempted))
    && (forall k: nat :: k < n ==> HasEntry(attempted, changes[k].d.key))
  }

  /** Every document whose change was tried and may have taken effect is among the attempted; the rest is as before. */
  ghost predicate AllAttempted(w: World, w': World, changes: seq<Change>, attempted: seq<Entry>) {
    && w'.docs.Keys == w.docs.Keys
    && (forall k: nat :: k < |changes| ==> StillOriginal(w', changes[k]) || HasEntry(attempted, changes[k].d.key))
    && (forall key :: key in w.docs && !HasChange(changes, key) ==> key in w'.docs && w'.docs[key] == w.docs[key])
  }

  lemma OneMoreEntry(attempted: seq<Entry>, attempted': seq<Entry>, changes: seq<Change>, n: nat)
    requires n < |changes| && EntriesUpTo(attempted, changes, n)
    requires attempted' == attempted
             || attempted' == attempted + [Entry(changes[n].d.key, changes[n].original, changes[n].d.post)]
    ensures DistinctChanges(changes) ==> DistinctEntries(attempted')
    ensures attempted' != attempted ==> EntriesUpTo(attempted', changes, n + 1)
  {
    forall i: nat | i < |attempted'| ensures EntryAmong(attempted'[i], changes, n + 1) {
      if i < |attempted| {
        assert EntryAmong(attempted[i], changes, n);
      } else {
        assert changes[n].d.key == attempted'[i].key;
      }
    }
    if DistinctChanges(changes) && attempted' != attempted {
      forall i: nat | i < |attempted| ensures attempted[i].key != changes[n].d.key {
        assert EntryAmong(attempted[i], changes, n);
      }
    }
    forall k: nat | k < n + 1 && attempted' != attempted ensures HasEntry(attempted', changes[k].d.key) {
      if k < n {
        assert HasEntry(attempted, changes[k].d.key);
        HasEntryStays(attempted, attempted', changes[k].d.key);
      } else {
        assert attempted'[|attempted|].key == changes[k].d.key;
      }
    }
  }

  lemma HasEntryStays(a: seq<Entry>, b: seq<Entry>, key: Key)
    requires a <= b && HasEntry(a, key)
    ensures HasEntry(b, key)
  {
    var i: nat :| i < |a| && a[i].key == key;
    assert b[i].key == key;
  }

  /** After a write that raised: what it may have changed is attempted, and nothing was before. */
  lemma FaultyWriteAttempted(w: World, before: World, after: World, changes: seq<Change>, n: nat, earlier: seq<Entry>,
                             attempted: seq<Entry>)
    requires n < |changes| && EntriesUpTo(earlier, changes, n) && earlier <= attempted
    ensures DistinctChanges(changes) && WrittenUpTo(w, before, changes, n)
            && (after == before
                || (changes[n].d.key in before.docs && after == Written(before, changes[n].d.key, changes[n].payload)))
            && (HasEntry(attempted, changes[n].d.key) || StillOriginal(after, changes[n])) ==>
              AllAttempted(w, after, changes, attempted)
  {
    if DistinctChanges(changes) && WrittenUpTo(w, before, changes, n)
       && (after == before
           || (changes[n].d.key in before.docs && after == Written(before, changes[n].d.key, changes[n].payload)))
       && (HasEntry(attempted, changes[n].d.key) || StillOriginal(after, changes[n])) {
      assert changes[n].d.key in before.docs by {
        assert StillOriginal(before, changes[n]);
      }
      assert HasChange(changes, changes[n].d.key);
      forall k: nat | k < |changes| ensures StillOriginal(after, changes[k]) || HasEntry(attempted, changes[k].d.key) {
        if k < n {
          HasEntryStays(earlier, attempted, changes[k].d.key);
        } else if k > n {
          assert StillOriginal(before, changes[k]);
        }
      }
    }
  }

  /** Some written document is not among the attempted ones. */
  ghost predicate Overlooked(w: World, changes: seq<Change>, attempted: seq<Entry>) {
    exists k: nat :: k < |changes| && NowPosted(w, changes[k]) && !HasEntry(attempted, changes[k].d.key)
  }

  /** A write that took effect but could not be read back is not counted as attempted. */
  lemma FaultyReadOverlooked(w: World, before: World, after: World, changes: seq<Change>, n: nat, attempted: seq<Entry>)
    requires n < |changes|
    ensures DistinctChanges(changes) && WrittenUpTo(w, before, changes, n) && EntriesUpTo(attempted, changes, n)
            && changes[n].d.key in before.docs && after == Written(before, changes[n].d.key, changes[n].payload) ==>
              Overlooked(after, changes, attempted)
  {
    if DistinctChanges(changes) && WrittenUpTo(w, before, changes, n) && EntriesUpTo(attempted, changes, n)
       && changes[n].d.key in before.docs && after == Written(before, changes[n].d.key, changes[n].payload) {
      assert StillOriginal(before, changes[n]) && NowPosted(after, changes[n]);
      forall i: nat | i < |attempted| ensures attempted[i].key != changes[n].d.key {
        assert EntryAmong(attempted[i], changes, n);
      }
    }
  }

  lemma WriteAdvances(w: World, w': World, changes: seq<Change>, n: nat)
    requires n < |changes|
    ensures DistinctChanges(changes) && WrittenUpTo(w, w', changes, n) ==>
              (&& StillOriginal(w', changes[n])
               && WrittenUpTo(w, Written(w', changes[n].d.key, changes[n].payload), changes, n + 1))
  {
    if DistinctChanges(changes) && WrittenUpTo(w, w', changes, n) {
      var w'' := Written(w', changes[n].d.key, changes[n].payload);
      assert HasChange(changes, changes[n].d.key);
      forall k: nat | k < n ensures NowPosted(w'', changes[k]) {
        assert NowPosted(w', changes[k]);
      }
      forall k: nat | n < k < |changes| ensures StillOriginal(w'', changes[k]) {
        assert StillOriginal(w', changes[k]);
      }
    }
  }

  lemma ReadyWrites(inspect: Inspector, plan: Plan, w: World, originals: map<Key, Document>, changes: seq<Change>)
    ensures Ready(inspect, plan, w, originals, changes) ==>
              && DistinctChanges(changes) && WrittenUpTo(w, w, changes, 0) && Authorized(w, plan)
              && IdOf(plan) !in w.completions
  {
    hide SoundPlan, PreflightOk, Clean, ValidPayload;
    if Ready(inspect, plan, w, originals, changes) {
      PlannedChangesOk(inspect, plan, originals);
      forall k: nat | k < |changes| ensures StillOriginal(w, changes[k]) && changes[k].original.writable {
        ChangeIsWritable(IdOf(plan), changes[k]);
      }
    }
  }

  lemma SameKeys(w: World, w': World, changes: seq<Change>)
    requires WrittenUpTo(w, w', changes, |changes|)
    ensures w'.docs.Keys == w.docs.Keys
  {
  }

  lemma UnreplacedIsPosted(inspect: Inspector, subject: Subject, d: PlannedDocument)
    requires SoundDocument(inspect, subject, d) && d.paths == []
    ensures d.post == d.fingerprint
  {
    NothingToRewrite(QueryFor(inspect, subject.oldId, d.key.provider), subject.targets[d.key.provider], d.fingerprint,
                     []);
  }

  lemma ReadyPostsOne(inspect: Inspector, plan: Plan, w: World, w': World, originals: map<Key, Document>,
                      changes: seq<Change>, i: nat)
    requires Ready(inspect, plan, w, originals, changes) && WrittenUpTo(w, w', changes, |changes|)
             && i < |plan.content.documents|
    ensures DocumentPosted(inspect, plan, Restrict(w'.docs, MANIFEST), i)
  {
    var ds := plan.content.documents;
    var d := ds[i];
    assert SoundDocument(inspect, plan.content.subject, d) && Unchanged(d, originals)
           && CleanDocument(inspect, plan, d);
    hide SoundDocument, Clean, SoundContent, PathCount, ScanRoot, ChangesOf, Authorized;
    ChangesOfDocuments(ds, originals);
    if HasChange(changes, d.key) {
      var k: nat :| k < |changes| && changes[k].d.key == d.key;
      assert NowPosted(w', changes[k]);
      var j: nat :| j < |ds| && ds[j] == changes[k].d;
      assert j == i;
    } else {
      assert d.paths == [];
      UnreplacedIsPosted(inspect, plan.content.subject, d);
    }
  }

  lemma ReadyOriginals(inspect: Inspector, plan: Plan, w: World, originals: map<Key, Document>, changes: seq<Change>)
    ensures Ready(inspect, plan, w, originals, changes) ==> PlannedOriginals(IdOf(plan), originals)
  {
    hide SoundPlan, Clean, ChangesOf, Authorized;
  }

  /** If all that may have changed was attempted, restoring the attempted restores the plan's documents. */
  lemma ReadyCovered(inspect: Inspector, plan: Plan, w: World, w': World, originals: map<Key, Document>,
                     changes: seq<Change>, attempted: seq<Entry>)
    ensures Ready(inspect, plan, w, originals, changes) && AllAttempted(w, w', changes, attempted) ==>
              Covered(w', IdOf(plan), attempted, originals)
  {
    if Ready(inspect, plan, w, originals, changes) && AllAttempted(w, w', changes, attempted) {
      forall i: nat | i < |plan.content.documents| ensures CoveredAt(w', plan.content.documents[i], attempted) {
        ReadyCoveredAt(inspect, plan, w, w', originals, changes, attempted, i);
      }
      assert Restrict(w'.docs, ProvidersOf(originals)).Keys == originals.Keys;
    }
  }

  /** A document at its postimage that was not attempted stays changed: the postimage differs from the original. */
  lemma OverlookedNotCovered(inspect: Inspector, plan: Plan, w: World, w': World, originals: map<Key, Document>,
                             changes: seq<Change>, attempted: seq<Entry>)
    ensures Ready(inspect, plan, w, originals, changes) && Overlooked(w', changes, attempted) ==>
              !Covered(w', IdOf(plan), attempted, originals)
  {
    if Ready(inspect, plan, w, originals, changes) && Overlooked(w', changes, attempted) {
      hide PathCount, Authorized, ScanRoot, PreflightOk, ValidPayload;
      var k: nat :| k < |changes| && NowPosted(w', changes[k]) && !HasEntry(attempted, changes[k].d.key);
      PlannedChangesOk(inspect, plan, originals);
      ChangedHavePaths(plan.content.documents, originals, k);
      var i: nat :| i < |plan.content.documents| && plan.content.documents[i] == changes[k].d;
      assert CleanDocument(inspect, plan, plan.content.documents[i]);
      PathsMeanOther(inspect, plan, plan.content.documents[i]);
      assert !CoveredAt(w', plan.content.documents[i], attempted);
    }
  }

  lemma PathsMeanOther(inspect: Inspector, plan: Plan, d: PlannedDocument)
    requires SoundDocument(inspect, plan.content.subject, d) && CleanDocument(inspect, plan, d) && d.paths != []
    ensures d.post != d.fingerprint
  {
  }

  /** Only documents with something to replace have changes. */
  lemma {:induction false} ChangedHavePaths(ds: seq<PlannedDocument>, inventory: map<Key, Document>, k: nat)
    requires (forall i: nat :: i < |ds| ==> ds[i].key in inventory) && k < |ChangesOf(ds, inventory)|
    ensures ChangesOf(ds, inventory)[k].d.paths != []
  {
    var before := ChangesOf(ds[..|ds| - 1], inventory);
    if k < |before| {
      ChangedHavePaths(ds[..|ds| - 1], inventory, k);
    }
  }

  lemma ReadyCoveredAt(inspect: Inspector, plan: Plan, w: World, w': World, originals: map<Key, Document>,
                       changes: seq<Change>, attempted: seq<Entry>, i: nat)
    requires Ready(inspect, plan, w, originals, changes) && AllAttempted(w, w', changes, attempted)
    requires i < |plan.content.documents|
    ensures CoveredAt(w', plan.content.documents[i], attempted)
  {
    hide Clean, PathCount, Authorized, SoundDocument;
    var d := plan.content.documents[i];
    assert Unchanged(d, originals);
    PlannedChangesOk(inspect, plan, originals);
    if HasChange(changes, d.key) {
      var k: nat :| k < |changes| && changes[k].d.key == d.key;
      assert changes[k].original == originals[d.key];
    }
  }

  /** Once all changes are written, every planned document is at its postimage. */
  lemma ReadyPosts(inspect: Inspector, plan: Plan, w: World, w': World, originals: map<Key, Document>,
                   changes: seq<Change>)
    ensures Ready(inspect, plan, w, originals, changes) && WrittenUpTo(w, w', changes, |changes|) ==>
              PostApplied(inspect, plan, Restrict(w'.docs, MANIFEST))
  {
    if Ready(inspect, plan, w, originals, changes) && WrittenUpTo(w, w', changes, |changes|) {
      hide SoundPlan, Clean, WrittenUpTo, ChangesOf;
      var ds := plan.content.documents;
      assert Restrict(w'.docs, MANIFEST).Keys == originals.Keys by {
        SameKeys(w, w', changes);
      }
      forall i: nat | i < |ds| ensures DocumentPosted(inspect, plan, Restrict(w'.docs, MANIFEST), i) {
        ReadyPostsOne(inspect, plan, w, w', originals, changes, i);
      }
    }
  }

  /* ---------- the coordinator's memory ---------- */

  /** Plans are sound and named by their content; what the journal calls complete is known here. */
  ghost predicate MemoryOk(inspect: Inspector, plans: map<PlanId, Plan>, states: map<PlanId, Phase>,
                           completed: map<PlanId, Completion>, journal: map<PlanId, Phase>) {
    && plans.Keys == states.Keys
    && (forall id :: id in plans ==> IdOf(plans[id]) == id && SoundPlan(inspect, plans[id]))
    && (forall id :: id in states && states[id] == Complete ==> id in completed)
    && (forall id :: id in journal && journal[id] == Complete ==>
          id in states && (states[id] == Complete || states[id] == Phase.Blocked))
  }

  /** Failing a plan, in memory and in the journal or in the journal alone, keeps the memory consistent. */
  lemma MemoryAfterFailure(inspect: Inspector, plans: map<PlanId, Plan>, states: map<PlanId, Phase>,
                           completed: map<PlanId, Completion>, journal: map<PlanId, Phase>, id: PlanId)
    requires MemoryOk(inspect, plans, states, completed, journal)
    ensures MemoryOk(inspect, plans, states, completed, journal[id := Failed])
    ensures MemoryOk(inspect, plans, states, completed, journal[id := Phase.Blocked])
    ensures MemoryOk(inspect, plans, if id in states then states[id := Failed] else states, completed - {id},
                     journal[id := Failed])
  {
    hide SoundPlan;
  }

  lemma MemoryAfter(inspect: Inspector, plans: map<PlanId, Plan>, states: map<PlanId, Phase>,
                    completed: map<PlanId, Completion>, journal: map<PlanId, Phase>, id: PlanId, phase: Phase,
                    completed': map<PlanId, Completion>, journal': map<PlanId, Phase>)
    requires MemoryOk(inspect, plans, states, completed, journal) && id in states
    requires completed.Keys <= completed'.Keys && (phase == Complete ==> id in completed')
    requires forall other :: other in journal' && other != id ==> other in journal && journal'[other] == journal[other]
    requires id in journal' && journal'[id] == Complete ==> phase == Phase.Blocked || phase == Complete
    ensures MemoryOk(inspect, plans, states[id := phase], completed', journal')
  {
    hide SoundPlan;
  }

  /** Whatever a completion leaves in the journal, the matching change of the memory keeps it consistent. */
  lemma MemoryWhenFinished(inspect: Inspector, plans: map<PlanId, Plan>, states: map<PlanId, Phase>,
                           completed: map<PlanId, Completion>, journal: map<PlanId, Phase>, id: PlanId, c: Completion)
    requires MemoryOk(inspect, plans, states, completed, journal) && id in states
    ensures MemoryOk(inspect, plans, states[id := Phase.Blocked], completed, journal)
    ensures MemoryOk(inspect, plans, states[id := Phase.Blocked], completed, journal[id := Complete])
    ensures MemoryOk(inspect, plans, states[id := Complete], completed[id := c], journal[id := Complete])
  {
    hide MemoryOk;
    MemoryAfter(inspect, plans, states, completed, journal, id, Phase.Blocked, completed, journal);
    MemoryAfter(inspect, plans, states, completed, journal, id, Phase.Blocked, completed, journal[id := Complete]);
    MemoryAfter(inspect, plans, states, completed, journal, id, Complete, completed[id := c], journal[id := Complete]);
  }

  lemma MemoryWithPlan(inspect: Inspector, plans: map<PlanId, Plan>, states: map<PlanId, Phase>,
                       completed: map<PlanId, Completion>, journal: map<PlanId, Phase>, plan: Plan)
    requires MemoryOk(inspect, plans, states, completed, journal) && SoundPlan(inspect, plan) && IdOf(plan) !in plans
    ensures MemoryOk(inspect, plans[IdOf(plan) := plan], states[IdOf(plan) := Planned], completed, journal)
    ensures MemoryOk(inspect, plans[IdOf(plan) := plan], states[IdOf(plan) := Planned], completed,
                     journal[IdOf(plan) := Planned])
  {
    hide SoundPlan;
  }

  lemma PlansAreKnown(inspect: Inspector, plans: map<PlanId, Plan>, states: map<PlanId, Phase>,
                      completed: map<PlanId, Completion>, journal: map<PlanId, Phase>, id: PlanId)
    requires MemoryOk(inspect, plans, states, completed, journal) && id in plans
    ensures id in states && IdOf(plans[id]) == id && SoundPlan(inspect, plans[id])
    ensures states[id] == Complete ==> id in completed
    ensures id in journal && journal[id] == Complete ==> states[id] == Complete || states[id] == Phase.Blocked
  {
    hide SoundPlan;
  }

  /** A sound plan's ID may appear in the journal. */
  lemma SoundIsJournalable(inspect: Inspector, plans: map<PlanId, Plan>, states: map<PlanId, Phase>,
                           completed: map<PlanId, Completion>, journal: map<PlanId, Phase>, id: PlanId)
    requires MemoryOk(inspect, plans, states, completed, journal) && id in states
    ensures SoundContent(inspect, id.content) && SoundPlan(inspect, plans[id]) && IdOf(plans[id]) == id
  {
    assert id in plans;
  }
}
