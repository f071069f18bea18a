/**
 * Reference migration plans: what a plan records about every document, what a journal records about
 * a plan, and when a recorded completion is accepted.
 *
 * A fingerprint is the payload it fingerprints and a plan ID the content it is computed from:
 * both hashes are taken to be injective.
 */
module MigrationPlan {
  import opened Basics
  import opened Projection

  datatype Key = Key(provider: string, objectId: string)

  datatype Document = Document(revision: int, payload: Json, writable: bool)

  /** The server-owned room identity a migration is for. */
  datatype Subject = Subject(room: string, roomRevision: int, oldId: string, uniqueId: string,
                             targets: map<string, string>)

  datatype PlannedDocument = PlannedDocument(
    key: Key, revision: int, writable: bool, fingerprint: Json, post: Json, paths: seq<Path>)

  /** Everything the digest covers. */
  datatype Content = Content(subject: Subject, expected: bool, documents: seq<PlannedDocument>)

  datatype PlanId = PlanId(content: Content)

  datatype Plan = Plan(content: Content, replacements: nat)

  datatype Phase = Planned | Applying | Complete | Failed | Blocked

  datatype Result = Result(id: PlanId, phase: Phase, changed: nat, replacements: nat, idempotent: bool)

  datatype Snapshot = Snapshot(revision: int, writable: bool, fingerprint: Json)

  datatype Completion = Completion(plan: Plan, result: Result, documents: map<Key, Snapshot>)

  /** A journaled original, with the postimage planned for it. */
  datatype Entry = Entry(key: Key, document: Document, post: Json)

  const MANIFEST: set<string> := {"active_yaml", "config_entry", "external_writers", "lovelace", "scheduler"}

  type Inspector = (string, string) -> Inspection

  function IdOf(plan: Plan): PlanId {
    PlanId(plan.content)
  }

  /* ---------- payloads ---------- */

  predicate Shallow(j: Json, depth: nat) {
    && depth <= 100
    && match j
       case Obj(fields) => forall i: nat :: i < |fields| ==> Shallow(fields[i].value, depth + 1)
       case Arr(items) => forall i: nat :: i < |items| ==> Shallow(items[i], depth + 1)
       case _ => true
  }

  /** The root is a mapping or a list, keys are distinct, and nesting is bounded. */
  predicate ValidPayload(j: Json) {
    (j.Obj? || j.Arr?) && WellFormed(j) && Shallow(j, 0)
  }

  lemma {:induction false} RewritingKeepsShallow(q: Query, target: string, j: Json, path: Path, depth: nat)
    requires Shallow(j, depth) && WellFormed(j)
    ensures Shallow(Rewritten(q, target, j, path), depth) && WellFormed(Rewritten(q, target, j, path))
  {
    hide Judge, ReplaceText;
    var r := Rewritten(q, target, j, path);
    match j
    case Obj(fields) =>
      forall i: nat | i < |fields| ensures Shallow(r.fields[i].value, depth + 1) && WellFormed(r.fields[i].value) {
        RewritingKeepsShallow(q, target, fields[i].value, path + [Part.Key(fields[i].key)], depth + 1);
      }
    case Arr(items) =>
      forall i: nat | i < |items| ensures Shallow(r.items[i], depth + 1) && WellFormed(r.items[i]) {
        RewritingKeepsShallow(q, target, items[i], path + [Index(i)], depth + 1);
      }
    case Str(_) =>
    case Scalar(_) =>
  }

  /* ---------- sound plans ---------- */

  function QueryFor(inspect: Inspector, oldId: string, provider: string): Query {
    Query(oldId, Some(provider), inspect)
  }

  /** What planning records about one document: its scan has nothing blocked, its postimage is the replacement. */
  ghost predicate SoundDocument(inspect: Inspector, subject: Subject, d: PlannedDocument) {
    && d.key.provider in MANIFEST && d.key.provider in subject.targets && d.writable
    && ValidPayload(d.fingerprint)
    && var q := QueryFor(inspect, subject.oldId, d.key.provider);
       && ScanRoot(q, d.fingerprint) == Scan(d.paths, [])
       && d.post == Rewritten(q, subject.targets[d.key.provider], d.fingerprint, [])
  }

  predicate DistinctKeys(ds: seq<PlannedDocument>) {
    forall i: nat, j: nat :: i < j < |ds| ==> ds[i].key != ds[j].key
  }

  function PathCount(ds: seq<PlannedDocument>): nat {
    if ds == [] then 0 else PathCount(ds[..|ds| - 1]) + |ds[|ds| - 1].paths|
  }

  function ChangedCount(ds: seq<PlannedDocument>): nat {
    if ds == [] then 0 else ChangedCount(ds[..|ds| - 1]) + if ds[|ds| - 1].paths != [] then 1 else 0
  }

  function KeysOf(ds: seq<PlannedDocument>): set<Key> {
    set i: nat | i < |ds| :: ds[i].key
  }

  ghost predicate SoundContent(inspect: Inspector, c: Content) {
    && c.subject.targets.Keys == MANIFEST
    && DistinctKeys(c.documents)
    && forall i: nat :: i < |c.documents| ==> SoundDocument(inspect, c.subject, c.documents[i])
  }

  ghost predicate SoundPlan(inspect: Inspector, plan: Plan) {
    SoundContent(inspect, plan.content) && plan.replacements == PathCount(plan.content.documents)
  }

  /* ---------- recorded completions ---------- */

  predicate SnapshotMatches(snapshots: map<Key, Snapshot>, d: PlannedDocument) {
    && d.key in snapshots
    && snapshots[d.key].fingerprint == d.post && snapshots[d.key].writable == d.writable
  }

  /** The check a fresh coordinator makes of every recorded completion. */
  predicate ValidCompletion(c: Completion, id: PlanId) {
    var ds := c.plan.content.documents;
    && IdOf(c.plan) == id && c.result.id == id
    && c.plan.content.subject.targets.Keys == MANIFEST
    && DistinctKeys(ds)
    && (forall i: nat :: i < |ds| ==> ds[i].key.provider in MANIFEST)
    && c.result.phase == Complete && c.result.changed == ChangedCount(ds)
    && c.result.replacements == c.plan.replacements == PathCount(ds) && !c.result.idempotent
    && c.documents.Keys == KeysOf(ds)
    && forall i: nat :: i < |ds| ==> SnapshotMatches(c.documents, ds[i])
  }

  function Snapshots(inventory: map<Key, Document>): map<Key, Snapshot> {
    map k | k in inventory :: Snapshot(inventory[k].revision, inventory[k].writable, inventory[k].payload)
  }

  /** The result an apply records. */
  function ResultOf(plan: Plan, changed: nat): Result {
    Result(IdOf(plan), Complete, changed, plan.replacements, false)
  }

  /** The final verification: every planned document, and no other, is at its postimage with nothing left to find. */
  predicate PostApplied(inspect: Inspector, plan: Plan, inventory: map<Key, Document>) {
    && inventory.Keys == KeysOf(plan.content.documents)
    && forall i: nat :: i < |plan.content.documents| ==> DocumentPosted(inspect, plan, inventory, i)
  }

  predicate DocumentPosted(inspect: Inspector, plan: Plan, inventory: map<Key, Document>, i: nat)
    requires i < |plan.content.documents|
  {
    var d := plan.content.documents[i];
    && d.key in inventory && inventory[d.key].writable && inventory[d.key].payload == d.post
    && ScanRoot(QueryFor(inspect, plan.content.subject.oldId, d.key.provider), inventory[d.key].payload) == NOTHING
  }

  /** Every completion an apply records passes the check a later coordinator makes. */
  lemma RecordedCompletionIsValid(inspect: Inspector, plan: Plan, inventory: map<Key, Document>)
    requires SoundPlan(inspect, plan) && PostApplied(inspect, plan, inventory)
    ensures ValidCompletion(Completion(plan, ResultOf(plan, ChangedCount(plan.content.documents)),
                                       Snapshots(inventory)),
                            IdOf(plan))
  {
    var ds := plan.content.documents;
    forall i: nat | i < |ds| ensures SnapshotMatches(Snapshots(inventory), ds[i]) && ds[i].key.provider in MANIFEST {
      assert DocumentPosted(inspect, plan, inventory, i);
      assert SoundDocument(inspect, plan.content.subject, ds[i]);
    }
  }

  /** Replacing in a planned document counts exactly the planned paths and gives the planned postimage. */
  lemma PlannedReplacement(inspect: Inspector, subject: Subject, d: PlannedDocument)
    requires SoundDocument(inspect, subject, d)
    ensures Replace(QueryFor(inspect, subject.oldId, d.key.provider), subject.targets[d.key.provider], d.fingerprint) ==
              Done(d.post, |d.paths|)
    ensures ValidPayload(d.post)
  {
    var q := QueryFor(inspect, subject.oldId, d.key.provider);
    ReplaceIsRewriting(q, subject.targets[d.key.provider], d.fingerprint);
    RewritingKeepsShallow(q, subject.targets[d.key.provider], d.fingerprint, [], 0);
  }

  /** As the ID is taken to determine the content, two plans of one ID are equal: the replacement count follows. */
  lemma PlanIdsDoNotCollide(inspect: Inspector, a: Plan, b: Plan)
    requires SoundPlan(inspect, a) && SoundPlan(inspect, b) && IdOf(a) == IdOf(b)
    ensures a == b
  {
  }
}
