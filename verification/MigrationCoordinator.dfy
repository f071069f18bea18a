/**
 * The reference migration coordinator: plan, check, journal originals, write, verify, and either
 * complete, restore, or block until recovery.
 */
module MigrationCoordinator {
  import opened Basics
  import opened Projection
  import opened MigrationPlan
  import opened MigrationSafety
  import opened MigrationWorld

  /**
   * How an apply ends.  `Applied`, `RolledBack` and `RestoreFailed` are the three ways once writing
   * may have started; the others come before any write.
   */
  datatype Outcome =
    | UnknownPlan | RefusedBlocked | InProgress | Superseded | StaleReplay | Replayed(result: Result)
    | Stale | JournalFault | NotJournaled
    | Applied(result: Result) | RolledBack | RestoreFailed

  predicate BeforeAnyWrite(outcome: Outcome) {
    !outcome.Applied? && !outcome.RolledBack? && !outcome.RestoreFailed?
  }

  /** `Manual` is a failed restoration; `JournalFailed` means the new state could not be recorded. */
  datatype Recovery = NotIncomplete | Recovered | Manual | JournalFailed

  class ReferenceMigrationCoordinator {
    const inspect: Inspector
    const world: Deployment
    var plans: map<PlanId, Plan>
    var states: map<PlanId, Phase>
    var completed: map<PlanId, Completion>
    var blocked: bool

    ghost predicate Valid()
      reads this, world
    {
      JournalOk(inspect, world.w) && MemoryOk(inspect, plans, states, completed, world.w.states)
    }

    /** A fresh coordinator: completed plans can be replayed, an incomplete one blocks everything. */
    constructor (inspect: Inspector, world: Deployment)
      requires JournalOk(inspect, world.w)
      ensures this.inspect == inspect && this.world == world && Valid()
      ensures blocked <==> exists id :: Incomplete(world.w, id)
      ensures plans.Keys == set id | id in world.w.states && world.w.states[id] == Complete
      ensures forall id :: id in plans ==> states[id] == Complete
      ensures completed.Keys == plans.Keys
      ensures forall id :: id in plans ==>
                id in world.w.completions && completed[id] == world.w.completions[id] && plans[id] == completed[id].plan
    {
      hide SoundPlan, SoundContent, ValidCompletion, EntriesOk;
      CompletedPlans(inspect, world.w);
      this.inspect, this.world := inspect, world;
      var done := set id | id in world.w.states && world.w.states[id] == Complete && id in world.w.completions;
      plans := map id | id in done :: world.w.completions[id].plan;
      states := map id | id in done :: Complete;
      completed := map id | id in done :: world.w.completions[id];
      blocked := exists id | id in world.w.states :: Incomplete(world.w, id);
    }

    /** List every provider's documents and fetch each again. */
    method FetchInventory(providers: set<string>) returns (inventory: Option<map<Key, Document>>)
      modifies world
      ensures SameJournal(world.w, old(world.w)) && world.calm == old(world.calm) && world.trace == old(world.trace)
              && world.writes == old(world.writes)
      ensures old(world.Undisturbed()) ==> world.Undisturbed() && world.w == old(world.w)
      ensures old(world.Alone()) ==> world.Alone()
      ensures old(world.Undisturbed()) && inventory.Some? ==> inventory.value == Restrict(world.w.docs, providers)
      ensures Unwritten(old(world.Luck()), world.Luck())
      ensures Spared(old(world.Luck()), world.Luck()) ==> inventory.Some?
    {
      hide Deployment.Luck;
      var found: map<Key, Document> := map[];
      var todo, done := providers, {};
      while todo != {}
        invariant todo + done == providers && todo !! done
        invariant SameJournal(world.w, old(world.w)) && world.calm == old(world.calm) && world.trace == old(world.trace)
                  && world.writes == old(world.writes)
        invariant old(world.Undisturbed()) ==> world.Undisturbed() && world.w == old(world.w)
        invariant old(world.Alone()) ==> world.Alone()
        invariant old(world.Undisturbed()) ==> found == Restrict(world.w.docs, done)
        invariant Unwritten(old(world.Luck()), world.Luck())
        decreases todo
      {
        var provider :| provider in todo;
        var listed := world.ListDocuments(provider);
        if listed == None {
          return None;
        }
        var fetched := FetchListed(listed.value);
        if fetched == None {
          return None;
        }
        FetchedAll(world.w.docs, done, provider);
        found := found + fetched.value;
        todo, done := todo - {provider}, done + {provider};
      }
      return Some(found);
    }

    method FetchListed(listed: map<Key, Document>) returns (fetched: Option<map<Key, Document>>)
      modifies world
      ensures SameJournal(world.w, old(world.w)) && world.calm == old(world.calm) && world.trace == old(world.trace)
              && world.writes == old(world.writes)
      ensures old(world.Undisturbed()) ==> world.Undisturbed() && world.w == old(world.w)
      ensures old(world.Alone()) ==> world.Alone()
      ensures old(world.Undisturbed()) && fetched.Some? && Within(listed, old(world.w.docs)) ==> fetched.value == listed
      ensures Unwritten(old(world.Luck()), world.Luck())
      ensures Spared(old(world.Luck()), world.Luck()) && Within(listed, old(world.w.docs)) ==> fetched.Some?
    {
      hide Deployment.Luck;
      var found: map<Key, Document> := map[];
      var todo := listed.Keys;
      while todo != {}
        invariant todo <= listed.Keys
        invariant SameJournal(world.w, old(world.w)) && world.calm == old(world.calm) && world.trace == old(world.trace)
                  && world.writes == old(world.writes)
        invariant old(world.Undisturbed()) ==> world.Undisturbed() && world.w == old(world.w)
        invariant old(world.Alone()) ==> world.Alone()
        invariant found.Keys == listed.Keys - todo
        invariant old(world.Undisturbed()) ==>
                    forall k :: k in found ==> k in world.w.docs && found[k] == world.w.docs[k]
        invariant Unwritten(old(world.Luck()), world.Luck())
        decreases todo
      {
        var key :| key in todo;
        var doc := world.GetDocument(key);
        if doc == None {
          return None;
        }
        found := found[key := doc.value];
        todo := todo - {key};
      }
      return Some(found);
    }

    /** Bring one document back to its original unless someone else changed it. */
    method WriteBack(id: PlanId, e: Entry) returns (ok: bool)
      requires DistinctKeys(id.content.documents) && EntryOk(id.content, e) && ValidPayload(e.document.payload)
      modifies world
      ensures SameJournal(world.w, old(world.w)) && world.calm == old(world.calm)
      ensures old(world.trace) == world.trace || old(world.trace) + [world.w] == world.trace
      ensures old(world.Guarded(id)) && Incomplete(world.w, id) ==> world.Guarded(id)
      ensures Later(old(world.Luck()), world.Luck())
      ensures old(world.Undisturbed()) ==> world.Undisturbed() && world.w.docs.Keys == old(world.w).docs.Keys
      ensures Spared(old(world.Luck()), world.Luck()) && old(world.Guarded(id)) && Incomplete(world.w, id) ==>
                && ok && Restored(world.w, e)
                && forall k :: k in old(world.w).docs && k != e.key ==>
                     k in world.w.docs && world.w.docs[k] == old(world.w).docs[k]
    {
      hide Safe, DistinctKeys, EntryOk, ValidPayload, Deployment.Luck;
      EitherIsThere(world.w, id, e);
      var current := world.GetDocument(e.key);
      if current == None {
        return false;
      }
      if current.value.payload == e.post {
        RestoreSteps(world.w, id, e);
        ok := world.WriteDocument(e.key, current.value.revision, e.document.payload);
      } else {
        ok := current.value.payload == e.document.payload;
      }
    }

    /** Restore one document: write its original back if it is at the postimage, then read it back. */
    method RestoreOne(id: PlanId, e: Entry) returns (ok: bool)
      requires DistinctKeys(id.content.documents) && EntryOk(id.content, e) && ValidPayload(e.document.payload)
      modifies world
      ensures SameJournal(world.w, old(world.w)) && world.calm == old(world.calm)
      ensures old(world.trace) <= world.trace
      ensures old(world.Guarded(id)) && Incomplete(world.w, id) ==>
                world.Guarded(id) && world.Guarding(|old(world.trace)|, id)
      ensures JournalOk(inspect, world.w) ==> world.Recorded(|old(world.trace)|, inspect)
      ensures Later(old(world.Luck()), world.Luck())
      ensures old(world.Undisturbed()) ==> world.Undisturbed() && world.w.docs.Keys == old(world.w).docs.Keys
      ensures Spared(old(world.Luck()), world.Luck()) && old(world.Guarded(id)) && Incomplete(world.w, id) ==>
                && ok && Restored(world.w, e)
                && forall k :: k in old(world.w).docs && k != e.key ==>
                     k in world.w.docs && world.w.docs[k] == old(world.w).docs[k]
    {
      hide Safe, DistinctKeys, EntryOk, ValidPayload, Deployment.Luck, JournalOk;
      JournalSame(inspect, world.w);
      ok := WriteBack(id, e);
      if ok {
        var restored := world.GetDocument(e.key);
        ok := restored.Some? && restored.value.payload == e.document.payload;
      }
    }

    /** Undo every attempted write, last first. */
    method RestoreAttempted(id: PlanId, attempted: seq<Entry>) returns (failed: bool)
      requires Restorable(id, attempted)
      modifies world
      ensures SameJournal(world.w, old(world.w)) && world.calm == old(world.calm)
      ensures old(world.trace) <= world.trace
      ensures old(world.Guarded(id)) && Incomplete(world.w, id) ==>
                world.Guarded(id) && world.Guarding(|old(world.trace)|, id)
      ensures JournalOk(inspect, world.w) ==> world.Recorded(|old(world.trace)|, inspect)
      ensures Later(old(world.Luck()), world.Luck())
      ensures old(world.Undisturbed()) ==> world.Undisturbed() && world.w.docs.Keys == old(world.w).docs.Keys
      ensures Spared(old(world.Luck()), world.Luck()) && old(world.Guarded(id)) && Incomplete(world.w, id)
              && DistinctEntries(attempted) ==>
                !failed && AllRestored(world.w, attempted, 0)
      ensures Spared(old(world.Luck()), world.Luck()) && old(world.Guarded(id)) && Incomplete(world.w, id) ==>
                KeepsOthers(old(world.w), world.w, attempted)
    {
      hide SoundPlan, SoundContent, ValidCompletion, EntriesOk, Safe, EntryOk, ValidPayload, Deployment.Luck, JournalOk;
      JournalSame(inspect, world.w);
      failed := false;
      var n: nat := |attempted|;
      while n > 0
        invariant n <= |attempted|
        invariant SameJournal(world.w, old(world.w)) && world.calm == old(world.calm)
        invariant old(world.trace) <= world.trace
        invariant old(world.Guarded(id)) && Incomplete(world.w, id) ==>
                    world.Guarded(id) && world.Guarding(|old(world.trace)|, id)
        invariant JournalOk(inspect, world.w) ==> world.Recorded(|old(world.trace)|, inspect)
        invariant Later(old(world.Luck()), world.Luck())
        invariant old(world.Undisturbed()) ==> world.Undisturbed() && world.w.docs.Keys == old(world.w).docs.Keys
        invariant Spared(old(world.Luck()), world.Luck()) && old(world.Guarded(id)) && Incomplete(world.w, id)
                  && DistinctEntries(attempted) ==>
                    !failed && AllRestored(world.w, attempted, n)
        invariant Spared(old(world.Luck()), world.Luck()) && old(world.Guarded(id)) && Incomplete(world.w, id) ==>
                    KeepsOthers(old(world.w), world.w, attempted)
      {
        n := n - 1;
        var ok := RestoreOne(id, attempted[n]);
        failed := failed || !ok;
      }
    }

    /** Fetch every original again and compare content and writability. */
    method VerifyEach(originals: map<Key, Document>) returns (failed: bool)
      modifies world
      ensures SameJournal(world.w, old(world.w)) && world.calm == old(world.calm) && world.trace == old(world.trace)
              && world.writes == old(world.writes)
      ensures old(world.Undisturbed()) ==> world.Undisturbed() && world.w == old(world.w)
      ensures old(world.Alone()) ==> world.Alone()
      ensures old(world.Undisturbed()) && !failed ==> Matches(world.w, originals)
      ensures Unwritten(old(world.Luck()), world.Luck())
      ensures Spared(old(world.Luck()), world.Luck()) && Matches(old(world.w), originals) ==> !failed
    {
      hide Deployment.Luck;
      failed := false;
      var todo := originals.Keys;
      while todo != {}
        invariant todo <= originals.Keys
        invariant SameJournal(world.w, old(world.w)) && world.calm == old(world.calm) && world.trace == old(world.trace)
                  && world.writes == old(world.writes)
        invariant old(world.Undisturbed()) ==> world.Undisturbed() && world.w == old(world.w)
        invariant old(world.Alone()) ==> world.Alone()
        invariant old(world.Undisturbed()) && !failed ==>
                    forall k :: k in originals && k !in todo ==> Match(world.w, k, originals[k])
        invariant Unwritten(old(world.Luck()), world.Luck())
        invariant Spared(old(world.Luck()), world.Luck()) ==>
                    world.w == old(world.w) && (Matches(old(world.w), originals) ==> !failed)
        decreases todo
      {
        var key :| key in todo;
        var current := world.GetDocument(key);
        if current == None || current.value.payload != originals[key].payload
           || current.value.writable != originals[key].writable {
          failed := true;
        }
        todo := todo - {key};
      }
    }

    /** The same over the whole inventory of the providers concerned: no document more or less. */
    method VerifyInventory(originals: map<Key, Document>) returns (failed: bool)
      modifies world
      ensures SameJournal(world.w, old(world.w)) && world.calm == old(world.calm) && world.trace == old(world.trace)
              && world.writes == old(world.writes)
      ensures old(world.Undisturbed()) ==> world.Undisturbed() && world.w == old(world.w)
      ensures old(world.Alone()) ==> world.Alone()
      ensures old(world.Undisturbed()) && !failed ==>
                Matches(world.w, originals) && Restrict(world.w.docs, ProvidersOf(originals)).Keys == originals.Keys
      ensures Unwritten(old(world.Luck()), world.Luck())
      ensures Spared(old(world.Luck()), world.Luck()) && Matches(old(world.w), originals)
              && Restrict(old(world.w).docs, ProvidersOf(originals)).Keys == originals.Keys ==>
                !failed
    {
      hide Deployment.Luck;
      var current := FetchInventory(ProvidersOf(originals));
      if current == None || current.value.Keys != originals.Keys {
        return true;
      }
      failed := exists k | k in originals :: current.value[k].payload != originals[k].payload
                                             || current.value[k].writable != originals[k].writable;
    }

    /** The journaled documents by key. */
    method CollectOriginals(id: PlanId, es: seq<Entry>) returns (originals: map<Key, Document>)
      requires DistinctEntries(es)
      ensures ByKey(originals, es)
    {
      originals := map[];
      var i := 0;
      while i < |es|
        invariant i <= |es| && ByKey(originals, es[..i])
      {
        assert es[..i + 1] == es[..i] + [es[i]];
        originals := originals[es[i].key := es[i].document];
        i := i + 1;
      }
      assert es[..i] == es;
    }

    /** Restore every journaled original and verify it. */
    method RestoreJournaled(id: PlanId) returns (failed: bool)
      requires JournalOk(inspect, world.w) && Incomplete(world.w, id)
      modifies world
      ensures SameJournal(world.w, old(world.w)) && old(world.trace) <= world.trace
      ensures JournalOk(inspect, world.w) && world.Recorded(|old(world.trace)|, inspect)
      ensures old(world.Guarded(id)) ==> world.Guarded(id) && world.Guarding(|old(world.trace)|, id)
      ensures old(world.Guarded(id)) && !failed ==> AtOriginals(world.w, id)
      ensures Later(old(world.Luck()), world.Luck())
      ensures Spared(old(world.Luck()), world.Luck()) && old(world.Guarded(id)) ==> !failed
    {
      hide SoundPlan, SoundContent, ValidCompletion, EntriesOk, Safe, AtOriginals, Matches, AllRestored, Restorable,
        Deployment.Luck;
      var es := OriginalsFor(world.w, id);
      JournaledEntries(inspect, world.w, id);
      var originals := CollectOriginals(id, es);
      var unrestored := RestoreAttempted(id, es);
      RestoredMatch(world.w, id, es, originals);
      world.EnterFinalPass();
      var unverified := VerifyEach(originals);
      world.LeaveFinalPass();
      BackAtOriginals(world.w, id, es, originals);
      failed := unrestored || unverified;
    }

    /** Record how a recovery went: in the journal first, then in memory. */
    method ConcludeRecovery(id: PlanId, failed: bool) returns (outcome: Recovery)
      requires Valid() && Incomplete(world.w, id)
      modifies this, world
      ensures Valid() && old(world.trace) <= world.trace && world.Recorded(|old(world.trace)|, inspect)
      ensures outcome != NotIncomplete && (outcome == Manual ==> blocked)
      ensures old(world.Guarded(id)) && (failed || old(AtOriginals(world.w, id))) ==>
                world.Guarded(id) && world.Guarding(|old(world.trace)|, id)
      ensures Later(old(world.Luck()), world.Luck())
      ensures Spared(old(world.Luck()), world.Luck()) && old(AtOriginals(world.w, id)) && !failed ==>
                && outcome == Recovered && AtOriginals(world.w, id)
                && world.w.states == old(world.w).states[id := Failed]
                && (blocked <==> exists other :: Incomplete(world.w, other))
    {
      hide JournalOk, MemoryOk, Safe, AtOriginals, Deployment.Luck, Deployment.Alone;
      StateSteps(inspect, world.w, id);
      JournalFrame(inspect, world.w, id);
      MemoryAfterFailure(inspect, plans, states, completed, world.w.states, id);
      if failed {
        var recorded := world.SetState(id, Phase.Blocked);
        if !recorded {
          return JournalFailed;
        }
        blocked := true;
        return Manual;
      }
      var ok := world.SetState(id, Failed);
      if !ok {
        return JournalFailed;
      }
      if id in states {
        states := states[id := Failed];
      }
      completed := completed - {id};
      blocked := exists other | other in world.w.states :: Incomplete(world.w, other);
      return Recovered;
    }

    /**
     * Explicit recovery of a plan a crash interrupted or a failed restoration blocked.  Without
     * faults and other writers it returns every planned document to its original payload.
     */
    method RecoverIncomplete(id: PlanId) returns (outcome: Recovery)
      requires Valid()
      modifies this, world
      ensures Valid() && old(world.trace) <= world.trace && world.Recorded(|old(world.trace)|, inspect)
      ensures outcome == NotIncomplete <==> !old(Incomplete(world.w, id))
      ensures outcome == NotIncomplete ==> world.w == old(world.w) && states == old(states) && blocked == old(blocked)
      ensures outcome == Manual ==> blocked
      ensures old(world.Guarded(id)) ==> world.Guarded(id) && world.Guarding(|old(world.trace)|, id)
      ensures Later(old(world.Luck()), world.Luck())
      ensures Spared(old(world.Luck()), world.Luck()) && old(world.Guarded(id) && Incomplete(world.w, id)) ==>
                && outcome == Recovered && AtOriginals(world.w, id)
                && world.w.states == old(world.w).states[id := Failed]
                && (blocked <==> exists other :: Incomplete(world.w, other))
    {
      hide JournalOk, MemoryOk, Safe, AtOriginals, Deployment.Luck;
      if !Incomplete(world.w, id) {
        return NotIncomplete;
      }
      JournalFrame(inspect, world.w, id);
      var failed := RestoreJournaled(id);
      outcome := ConcludeRecovery(id, failed);
    }

    /* ---------- apply ---------- */

    /** Move a plan on in memory, then in the journal. */
    method Settle(id: PlanId, memory: Phase, journal: Phase) returns (ok: bool)
      requires Valid() && id in states && memory != Complete && journal != Complete
      requires JournalComplete(world.w, id) ==> memory == Phase.Blocked
      modifies this`states, world
      ensures Valid() && states == old(states)[id := memory]
      ensures world.calm == old(world.calm) && world.trace == old(world.trace) + [world.w]
              && world.writes == old(world.writes)
      ensures world.Recorded(|old(world.trace)|, inspect)
      ensures SameJournal(world.w, old(world.w)) || SameJournal(world.w, WithState(old(world.w), id, journal))
      ensures ok ==> SameJournal(world.w, WithState(old(world.w), id, journal))
      ensures old(world.Undisturbed()) ==> world.w.docs == old(world.w.docs)
      ensures old(world.Alone()) ==>
                world.Alone() && (world.w == old(world.w) || world.w == WithState(old(world.w), id, journal))
      ensures Unwritten(old(world.Luck()), world.Luck())
      ensures Spared(old(world.Luck()), world.Luck()) ==> ok && world.w == WithState(old(world.w), id, journal)
    {
      hide SoundPlan, SoundContent, ValidCompletion, EntriesOk, MemoryOk, JournalOk, Deployment.Luck;
      SoundIsJournalable(inspect, plans, states, completed, world.w.states, id);
      JournalFrame(inspect, world.w, id);
      MemoryAfter(inspect, plans, states, completed, world.w.states, id, memory, completed, world.w.states);
      MemoryAfter(inspect, plans, states, completed, world.w.states, id, memory, completed,
                  world.w.states[id := journal]);
      states := states[id := memory];
      ok := world.SetState(id, journal);
    }

    /**
     * The replacement in one planned document.  The branch for a count that differs from the planned
     * paths cannot be taken.
     */
    method ReplacePlanned(subject: Subject, d: PlannedDocument, payload: Json) returns (replaced: Json)
      requires SoundDocument(inspect, subject, d) && payload == d.fingerprint
      ensures replaced == d.post
    {
      var q := QueryFor(inspect, subject.oldId, d.key.provider);
      var r, count := ReplaceSemanticReferences(q, subject.targets[d.key.provider], payload);
      assert count == |d.paths| && r == Some(d.post);
      return r.value;
    }

    /** The replacement of every document that has something to replace. */
    method BuildChanges(plan: Plan, inventory: map<Key, Document>) returns (changes: seq<Change>)
      requires SoundPlan(inspect, plan) && PreflightOk(plan, inventory)
      ensures changes == ChangesOf(plan.content.documents, inventory)
    {
      hide SoundDocument, PathCount;
      changes := [];
      var ds := plan.content.documents;
      var i := 0;
      while i < |ds|
        invariant i <= |ds| && changes == ChangesOf(ds[..i], inventory)
      {
        var d := ds[i];
        assert ds[..i + 1][..i] == ds[..i];
        assert SoundDocument(inspect, plan.content.subject, d) && Unchanged(d, inventory);
        if d.paths != [] {
          var payload := ReplacePlanned(plan.content.subject, d, inventory[d.key].payload);
          changes := changes + [Change(d, inventory[d.key], payload)];
        }
        i := i + 1;
      }
      assert ds[..i] == ds;
    }

    /** Journal one original. */
    method JournalOne(id: PlanId, changes: seq<Change>, i: nat) returns (ok: bool)
      requires JournalOk(inspect, world.w) && SoundContent(inspect, id.content) && i < |changes|
               && ChangeFor(id.content, changes[i])
      modifies world
      ensures JournalOk(inspect, world.w) && world.trace == old(world.trace) + [world.w]
      ensures world.w.states == old(world.w.states) && world.writes == old(world.writes)
              && world.calm == old(world.calm)
      ensures ok ==> HasKey(OriginalsFor(world.w, id), changes[i].d.key)
      ensures forall key :: HasKey(OriginalsFor(old(world.w), id), key) ==> HasKey(OriginalsFor(world.w, id), key)
      ensures old(world.Alone()) ==> world.Alone() && world.w.docs == old(world.w.docs)
      ensures KeysAmong(OriginalsFor(old(world.w), id), changes, i) ==>
                KeysAmong(OriginalsFor(world.w, id), changes, i + 1)
      ensures Unwritten(old(world.Luck()), world.Luck())
      ensures Spared(old(world.Luck()), world.Luck()) ==>
                && world.w.completions == old(world.w).completions && world.w.authority == old(world.w).authority
                && (KeysAmong(OriginalsFor(old(world.w), id), changes, i) && DistinctChanges(changes) ==> ok)
    {
      hide SoundPlan, ValidCompletion, JournalOk, EntriesOk, SoundContent, KeysAmong, NoConflict, DistinctChanges,
        Deployment.Luck;
      var c := changes[i];
      var e := Entry(c.d.key, c.original, c.d.post);
      ghost var before := world.w;
      ChangeIsEntry(id, c);
      RecordKeepsJournal(inspect, world.w, id, e);
      JournalFrame(inspect, world.w, id);
      FreshEntry(OriginalsFor(world.w, id), changes, i, e);
      ok := world.RecordOriginal(id, e);
      KeysStay(before, world.w, id, e);
      AmongOneMore(before, world.w, id, e, changes, i);
    }

    /** Journal every original before the first write. */
    method JournalOriginals(id: PlanId, changes: seq<Change>) returns (ok: bool)
      requires JournalOk(inspect, world.w) && SoundContent(inspect, id.content) && Changes(id, changes)
      modifies world
      ensures JournalOk(inspect, world.w) && old(world.trace) <= world.trace
              && world.Recorded(|old(world.trace)|, inspect)
      ensures world.w.states == old(world.w.states) && world.writes == old(world.writes)
              && world.calm == old(world.calm)
      ensures ok ==> forall i: nat :: i < |changes| ==> HasKey(OriginalsFor(world.w, id), changes[i].d.key)
      ensures old(world.Alone()) ==> world.Alone() && world.w.docs == old(world.w.docs)
      ensures old(world.Alone() && AtOriginals(world.w, id)) && !JournalComplete(world.w, id) ==>
                world.Guarding(|old(world.trace)|, id)
      ensures Unwritten(old(world.Luck()), world.Luck())
      ensures Spared(old(world.Luck()), world.Luck()) && OriginalsFor(old(world.w), id) == []
              && DistinctChanges(changes) ==>
                ok && world.w.completions == old(world.w).completions
                && world.w.authority == old(world.w).authority
    {
      hide JournalOk, SoundContent, ChangeFor, HasKey, Safe, AtOriginals, KeysAmong, DistinctChanges, Deployment.Luck;
      NoneAmong(OriginalsFor(world.w, id), changes);
      var i := 0;
      while i < |changes|
        invariant i <= |changes|
        invariant JournalOk(inspect, world.w) && old(world.trace) <= world.trace
                  && world.Recorded(|old(world.trace)|, inspect)
        invariant world.w.states == old(world.w.states) && world.writes == old(world.writes)
                  && world.calm == old(world.calm)
        invariant forall k: nat :: k < i ==> HasKey(OriginalsFor(world.w, id), changes[k].d.key)
        invariant old(world.Alone()) ==> world.Alone() && world.w.docs == old(world.w.docs)
        invariant old(world.Alone() && AtOriginals(world.w, id)) && !JournalComplete(world.w, id) ==>
                  world.Guarding(|old(world.trace)|, id)
        invariant Unwritten(old(world.Luck()), world.Luck())
        invariant Spared(old(world.Luck()), world.Luck()) ==>
                    world.w.completions == old(world.w).completions
                    && world.w.authority == old(world.w).authority
        invariant OriginalsFor(old(world.w), id) == [] ==> KeysAmong(OriginalsFor(world.w, id), changes, i)
      {
        ok := JournalOne(id, changes, i);
        OriginalsFrame(old(world.w), world.w, id);
        OriginalsAreSafe(world.w, id);
        if !ok {
          return;
        }
        i := i + 1;
      }
      return true;
    }

    /** The next change; `w` is the world the writes started from. */
    method WriteNext(id: PlanId, changes: seq<Change>, i: nat, earlier: seq<Entry>, ghost w: World)
      returns (ok: bool, attempted: seq<Entry>)
      requires DistinctKeys(id.content.documents) && Changes(id, changes) && JournalOk(inspect, world.w)
      requires i < |changes| && EntriesUpTo(earlier, changes, i) && Restorable(id, earlier)
      modifies world
      ensures SameJournal(world.w, old(world.w)) && world.calm == old(world.calm)
      ensures JournalOk(inspect, world.w) && old(world.trace) <= world.trace
              && world.Recorded(|old(world.trace)|, inspect)
      ensures Restorable(id, attempted) && (DistinctChanges(changes) ==> DistinctEntries(attempted))
      ensures ok ==> EntriesUpTo(attempted, changes, i + 1)
      ensures old(world.Guarded(id)) && Incomplete(world.w, id) && AllJournaled(world.w, id, changes) ==>
                world.Guarded(id) && world.Guarding(|old(world.trace)|, id)
      ensures Later(old(world.Luck()), world.Luck()) && (world.Luck().faults > old(world.Luck()).faults ==> !ok)
      ensures Spared(old(world.Luck()), world.Luck()) && DistinctChanges(changes)
              && WrittenUpTo(w, old(world.w), changes, i) ==>
                && ok && world.w.authority == old(world.w).authority
                && WrittenUpTo(w, world.w, changes, i + 1)
      ensures OneBadWrite(old(world.Luck()), world.Luck())
              && DistinctChanges(changes) && WrittenUpTo(w, old(world.w), changes, i) ==>
                AllAttempted(w, world.w, changes, attempted)
      ensures OneBadCall(old(world.Luck()), world.Luck())
              && DistinctChanges(changes) && WrittenUpTo(w, old(world.w), changes, i) ==>
                Overlooked(world.w, changes, attempted)
    {
      hide SoundPlan, ValidCompletion, EntriesOk, SoundContent, JournalOk, Safe, DistinctKeys, EntryOk, ValidPayload,
        ChangeFor, WrittenUpTo, DistinctChanges, Deployment.Luck, EntriesUpTo, AllAttempted, DistinctEntries,
        Overlooked;
      attempted := earlier;
      WriteAdvances(w, world.w, changes, i);
      JournaledAt(world.w, id, changes, i);
      var took;
      ok, took := WriteOne(id, changes[i]);
      if took {
        ChangeIsEntry(id, changes[i]);
        attempted := attempted + [Entry(changes[i].d.key, changes[i].original, changes[i].d.post)];
        assert attempted[|earlier|].key == changes[i].d.key;
      }
      OneMoreEntry(earlier, attempted, changes, i);
      FaultyWriteAttempted(w, old(world.w), world.w, changes, i, earlier, attempted);
      FaultyReadOverlooked(w, old(world.w), world.w, changes, i, attempted);
    }

    /** Write change after change, each read back; an uncertain write counts as attempted if it took effect. */
    method WriteChanges(id: PlanId, changes: seq<Change>) returns (ok: bool, attempted: seq<Entry>)
      requires DistinctKeys(id.content.documents) && Changes(id, changes) && JournalOk(inspect, world.w)
      modifies world
      ensures SameJournal(world.w, old(world.w)) && world.calm == old(world.calm)
      ensures JournalOk(inspect, world.w) && old(world.trace) <= world.trace
              && world.Recorded(|old(world.trace)|, inspect)
      ensures Restorable(id, attempted)
      ensures old(world.Guarded(id)) && Incomplete(world.w, id) && AllJournaled(world.w, id, changes) ==>
                world.Guarded(id) && world.Guarding(|old(world.trace)|, id)
      ensures Later(old(world.Luck()), world.Luck())
      ensures Spared(old(world.Luck()), world.Luck()) && DistinctChanges(changes)
              && WrittenUpTo(old(world.w), old(world.w), changes, 0) ==>
                ok && world.w.authority == old(world.w).authority
                && WrittenUpTo(old(world.w), world.w, changes, |changes|)
      ensures world.Luck().faults > old(world.Luck()).faults ==> !ok
      ensures DistinctChanges(changes) ==> DistinctEntries(attempted)
      ensures OneBadWrite(old(world.Luck()), world.Luck())
              && DistinctChanges(changes) && WrittenUpTo(old(world.w), old(world.w), changes, 0) ==>
                AllAttempted(old(world.w), world.w, changes, attempted)
      ensures OneBadCall(old(world.Luck()), world.Luck())
              && DistinctChanges(changes) && WrittenUpTo(old(world.w), old(world.w), changes, 0) ==>
                Overlooked(world.w, changes, attempted)
    {
      hide SoundPlan, ValidCompletion, EntriesOk, SoundContent, JournalOk, Safe, DistinctKeys, EntryOk, ValidPayload,
        ChangeFor, WrittenUpTo, DistinctChanges, Deployment.Luck;
      attempted := [];
      var i := 0;
      while i < |changes|
        invariant i <= |changes| && Restorable(id, attempted)
        invariant SameJournal(world.w, old(world.w)) && world.calm == old(world.calm)
        invariant JournalOk(inspect, world.w) && old(world.trace) <= world.trace
                  && world.Recorded(|old(world.trace)|, inspect)
        invariant old(world.Guarded(id)) && Incomplete(world.w, id) && AllJournaled(world.w, id, changes) ==>
                    world.Guarded(id) && world.Guarding(|old(world.trace)|, id)
        invariant Later(old(world.Luck()), world.Luck())
        invariant world.Luck().faults == old(world.Luck()).faults
        invariant EntriesUpTo(attempted, changes, i)
        invariant Spared(old(world.Luck()), world.Luck()) && DistinctChanges(changes)
                  && WrittenUpTo(old(world.w), old(world.w), changes, 0) ==>
                    world.w.authority == old(world.w).authority
                    && WrittenUpTo(old(world.w), world.w, changes, i)
      {
        ok, attempted := WriteNext(id, changes, i, attempted, old(world.w));
        if !ok {
          return;
        }
        i := i + 1;
      }
      ok := true;
    }

    /** One write and its verification; `took` tells whether the postimage is known to be there. */
    method WriteOne(id: PlanId, c: Change) returns (ok: bool, took: bool)
      requires DistinctKeys(id.content.documents) && ChangeFor(id.content, c) && JournalOk(inspect, world.w)
      modifies world
      ensures ok ==> took
      ensures Later(old(world.Luck()), world.Luck())
      ensures Spared(old(world.Luck()), world.Luck()) && old(StillOriginal(world.w, c)) ==>
                ok && world.w == Written(old(world.w), c.d.key, c.payload)
      ensures world.Luck().faults > old(world.Luck()).faults ==> !ok
      ensures old(world.Luck()).oneFault && old(StillOriginal(world.w, c))
              && world.Luck().badWrites > old(world.Luck()).badWrites ==>
                (world.w == old(world.w) || world.w == Written(old(world.w), c.d.key, c.payload))
                && (took || StillOriginal(world.w, c))
      ensures old(world.Luck()).oneFault && old(StillOriginal(world.w, c))
              && world.Luck().faults > old(world.Luck()).faults
              && world.Luck().badWrites == old(world.Luck()).badWrites ==>
                !took && world.w == Written(old(world.w), c.d.key, c.payload)
      ensures SameJournal(world.w, old(world.w)) && world.calm == old(world.calm)
      ensures JournalOk(inspect, world.w) && old(world.trace) <= world.trace
              && world.Recorded(|old(world.trace)|, inspect)
      ensures old(world.Guarded(id)) && Incomplete(world.w, id) && Journaled(world.w, id, c.d) ==>
                world.Guarded(id) && world.Guarding(|old(world.trace)|, id)
    {
      hide SoundPlan, ValidCompletion, EntriesOk, SoundContent, JournalOk, Safe, DistinctKeys, ChangeFor, ValidPayload;
      JournalFrame(inspect, world.w, id);
      PostKeepsSafe(world.w, id, c);
      ChangeIsWritable(id, c);
      var wrote := world.WriteDocument(c.d.key, c.original.revision, c.payload);
      var current := world.GetDocument(c.d.key);
      took := current.Some? && current.value.payload == c.d.post;
      ok := wrote && took;
    }

    /** Undo the attempted writes, then verify the whole inventory against what was fetched. */
    method RestoreOriginals(id: PlanId, attempted: seq<Entry>, originals: map<Key, Document>) returns (failed: bool)
      requires Restorable(id, attempted) && JournalOk(inspect, world.w)
      modifies world
      ensures SameJournal(world.w, old(world.w)) && !world.calm
      ensures JournalOk(inspect, world.w) && old(world.trace) <= world.trace
              && world.Recorded(|old(world.trace)|, inspect)
      ensures old(world.Guarded(id)) && Incomplete(world.w, id) ==>
                world.Guarded(id) && world.Guarding(|old(world.trace)|, id)
      ensures !failed ==>
                Matches(world.w, originals) && Restrict(world.w.docs, ProvidersOf(originals)).Keys == originals.Keys
      ensures Later(old(world.Luck()), world.Luck())
      ensures Spared(old(world.Luck()), world.Luck()) && old(world.Guarded(id) && Incomplete(world.w, id))
              && DistinctEntries(attempted)
              && PlannedOriginals(id, originals) ==>
                (failed <==> !old(Covered(world.w, id, attempted, originals)))
    {
      hide JournalOk, Safe, Restorable, Matches, Deployment.Luck;
      JournalFrame(inspect, world.w, id);
      world.LeaveFinalPass();
      ghost var before := world.w;
      var unrestored := RestoreAttempted(id, attempted);
      CoveredMatches(before, world.w, id, attempted, originals);
      world.EnterFinalPass();
      var unverified := VerifyInventory(originals);
      world.LeaveFinalPass();
      failed := unrestored || unverified;
    }

    /** The final pass: every document fetched again, at its postimage, with nothing left to find. */
    method VerifyApplied(plan: Plan) returns (inventory: Option<map<Key, Document>>)
      modifies world
      ensures SameJournal(world.w, old(world.w)) && world.calm && world.trace == old(world.trace)
              && world.writes == old(world.writes)
      ensures inventory.Some? ==> PostApplied(inspect, plan, inventory.value) && AtPostimages(world.w, IdOf(plan))
      ensures inventory.Some? ==> inventory.value == Restrict(world.w.docs, MANIFEST) && Authorized(world.w, plan)
      ensures Unwritten(old(world.Luck()), world.Luck())
      ensures Spared(old(world.Luck()), world.Luck()) && PostApplied(inspect, plan, Restrict(world.w.docs, MANIFEST))
              && Authorized(world.w, plan) ==>
                inventory.Some?
      ensures old(world.Alone()) ==> world.Alone() && world.w == old(world.w)
    {
      hide Deployment.Luck;
      world.EnterFinalPass();
      var found := FetchInventory(MANIFEST);
      if found == None || !PostApplied(inspect, plan, found.value) {
        return None;
      }
      PostedMeans(inspect, plan, world.w, found.value);
      var subject := world.ResolveSubject(plan.content.subject.room);
      if subject != Some(plan.content.subject) {
        return None;
      }
      return found;
    }

    /** Record the completion, then the complete state. */
    method RecordComplete(id: PlanId, c: Completion) returns (ok: bool)
      requires JournalOk(inspect, world.w) && ValidCompletion(c, id) && SoundPlan(inspect, c.plan)
      requires world.calm && AtPostimages(world.w, id)
      modifies world
      ensures JournalOk(inspect, world.w) && old(world.trace) <= world.trace
              && world.Recorded(|old(world.trace)|, inspect)
      ensures world.w.docs == old(world.w.docs) && world.w.originals == old(world.w.originals) && world.calm
      ensures world.w.authority == old(world.w.authority)
      ensures world.w.states == old(world.w.states) || world.w.states == old(world.w.states)[id := Complete]
      ensures ok ==> world.w.states == old(world.w.states)[id := Complete]
      ensures old(world.Alone()) ==> world.Alone()
      ensures old(world.Guarded(id)) ==> world.Guarded(id) && world.Guarding(|old(world.trace)|, id)
      ensures Unwritten(old(world.Luck()), world.Luck())
      ensures Spared(old(world.Luck()), world.Luck()) && id !in old(world.w.completions) ==> ok
    {
      hide SoundPlan, SoundContent, ValidCompletion, EntriesOk, JournalOk, AtPostimages, Safe, Deployment.Luck;
      CompletionKeepsJournal(inspect, world.w, id, c);
      SafetyFrame(world.w, id);
      ok := world.RecordCompletion(id, c);
      if ok {
        CompleteKeepsJournal(inspect, world.w, id);
        ok := world.SetState(id, Complete);
      }
    }

    /** Record the completion; if that fails the plan needs explicit recovery. */
    method Finish(plan: Plan, inventory: map<Key, Document>, changed: nat) returns (outcome: Outcome)
      requires Valid() && IdOf(plan) in states && IdOf(plan) in plans && plans[IdOf(plan)] == plan
      requires PostApplied(inspect, plan, inventory) && changed == ChangedCount(plan.content.documents)
      requires world.calm && AtPostimages(world.w, IdOf(plan)) && !JournalComplete(world.w, IdOf(plan))
      requires inventory == Restrict(world.w.docs, MANIFEST) && Authorized(world.w, plan)
      modifies this, world
      ensures Valid() && old(world.trace) <= world.trace && world.Recorded(|old(world.trace)|, inspect)
      ensures outcome == Applied(ResultOf(plan, changed)) || (outcome == RestoreFailed && blocked)
      ensures outcome.Applied? ==>
                && AtPostimages(world.w, IdOf(plan)) && JournalComplete(world.w, IdOf(plan))
                && states == old(states)[IdOf(plan) := Complete] && blocked == old(blocked) && Replayable(plan)
      ensures old(world.Guarded(IdOf(plan)) && Incomplete(world.w, IdOf(plan))) ==>
                world.Guarded(IdOf(plan)) && world.Guarding(|old(world.trace)|, IdOf(plan))
      ensures Unwritten(old(world.Luck()), world.Luck())
      ensures Spared(old(world.Luck()), world.Luck()) && IdOf(plan) !in old(world.w.completions) ==> outcome.Applied?
    {
      hide SoundPlan, SoundContent, ValidCompletion, EntriesOk, MemoryOk, JournalOk, PostApplied, AtPostimages, Safe,
        Deployment.Luck, Snapshots, ResultOf, ChangedCount, Deployment.Alone, Restrict;
      var id := IdOf(plan);
      var c := Completion(plan, ResultOf(plan, changed), Snapshots(inventory));
      SoundIsJournalable(inspect, plans, states, completed, world.w.states, id);
      RecordedCompletionIsValid(inspect, plan, inventory);
      ghost var before := world.w;
      SafetyFrame(before, id);
      MemoryWhenFinished(inspect, plans, states, completed, before.states, id, c);
      var ok := RecordComplete(id, c);
      if !ok {
        assert world.w.states[id := Phase.Blocked] == before.states[id := Phase.Blocked];
        BlockUnrecorded(id);
        return RestoreFailed;
      }
      completed := completed[id := c];
      states := states[id := Complete];
      return Applied(ResultOf(plan, changed));
    }

    /** The completion could not be persisted: block in memory, and in the journal if it still answers. */
    method BlockUnrecorded(id: PlanId)
      requires JournalOk(inspect, world.w) && id in states
      requires MemoryOk(inspect, plans, states[id := Phase.Blocked], completed, world.w.states)
      modifies this`states, this`blocked, world
      ensures Valid() && blocked && states == old(states)[id := Phase.Blocked]
      ensures world.trace == old(world.trace) + [world.w] && world.Recorded(|old(world.trace)|, inspect)
      ensures old(world.Alone()) ==>
                world.Alone() && (world.w == old(world.w) || world.w == WithState(old(world.w), id, Phase.Blocked))
      ensures Unwritten(old(world.Luck()), world.Luck())
    {
      hide MemoryOk, JournalOk;
      states := states[id := Phase.Blocked];
      blocked := true;
      var ignored := Settle(id, Phase.Blocked, Phase.Blocked);
    }

    /** Everything after a failed write or verification: restore, or block. */
    method RollBack(id: PlanId, attempted: seq<Entry>, originals: map<Key, Document>) returns (outcome: Outcome)
      requires Valid() && id in states && Restorable(id, attempted) && !JournalComplete(world.w, id)
      modifies this`states, this`blocked, world
      ensures Valid() && old(world.trace) <= world.trace && world.Recorded(|old(world.trace)|, inspect)
      ensures outcome == RolledBack || outcome == RestoreFailed
      ensures outcome == RolledBack ==>
                Restrict(world.w.docs, ProvidersOf(originals)).Keys == originals.Keys && Matches(world.w, originals)
                && states == old(states)[id := Failed]
      ensures outcome == RestoreFailed ==> blocked && states == old(states)[id := Phase.Blocked]
      ensures old(world.Guarded(id) && Incomplete(world.w, id)) && MatchMeansOriginal(id, originals) ==>
                world.Guarding(|old(world.trace)|, id)
      ensures Later(old(world.Luck()), world.Luck())
      ensures Spared(old(world.Luck()), world.Luck()) && old(world.Guarded(id) && Incomplete(world.w, id))
              && DistinctEntries(attempted)
              && PlannedOriginals(id, originals) ==>
                (outcome == RolledBack <==> old(Covered(world.w, id, attempted, originals)))
    {
      hide JournalOk, MemoryOk, Safe, Restorable, Matches, AtOriginals, MatchMeansOriginal, Covered, PlannedOriginals,
        DistinctEntries, ProvidersOf, Restrict, Deployment.Luck, Deployment.Alone;
      var failed := RestoreOriginals(id, attempted, originals);
      SafetyFrame(world.w, id);
      MatchedAreOriginal(world.w, id, originals);
      if failed {
        blocked := true;
        var ignored := Settle(id, Phase.Blocked, Phase.Blocked);
        return RestoreFailed;
      }
      FailedIsSafe(world.w, id);
      ghost var restored := world.w;
      world.EnterFinalPass();
      var ignored := Settle(id, Failed, Failed);
      world.LeaveFinalPass();
      MatchesFrame(restored, world.w, originals);
      return RolledBack;
    }

    /** The plan's preflight: authority, a full fetch, and equality with what was planned. */
    method Preflight(plan: Plan) returns (originals: Option<map<Key, Document>>)
      modifies world
      ensures SameJournal(world.w, old(world.w)) && world.trace == old(world.trace) && world.writes == old(world.writes)
      ensures originals.Some? ==> PreflightOk(plan, originals.value)
      ensures old(world.Alone()) ==>
                world.Alone() && world.w == old(world.w) && (originals.Some? ==> AtOriginals(world.w, IdOf(plan)))
      ensures Unwritten(old(world.Luck()), world.Luck())
      ensures Spared(old(world.Luck()), world.Luck()) ==>
                && (originals.Some? ==> originals.value == Restrict(old(world.w.docs), MANIFEST))
                && (old(Startable(inspect, plan, world.w)) ==> originals.Some?)
    {
      hide Deployment.Luck;
      world.LeaveFinalPass();
      var subject := world.ResolveSubject(plan.content.subject.room);
      if subject != Some(plan.content.subject) {
        return None;
      }
      var found := FetchInventory(MANIFEST);
      if found == None || !PreflightOk(plan, found.value) {
        return None;
      }
      assert old(world.Alone()) ==> found.value == Restrict(world.w.docs, MANIFEST);
      if found.value == Restrict(world.w.docs, MANIFEST) {
        FoundIsOriginal(plan, world.w, found.value);
      }
      return found;
    }

    /** From the preflight on. */
    method Execute(plan: Plan, originals: map<Key, Document>) returns (outcome: Outcome)
      requires Valid() && PreflightOk(plan, originals)
      requires IdOf(plan) in plans && plans[IdOf(plan)] == plan
      requires IdOf(plan) in states && !JournalComplete(world.w, IdOf(plan))
      modifies this, world
      ensures Valid() && old(world.trace) <= world.trace && world.Recorded(|old(world.trace)|, inspect)
      ensures Ended(plan, originals, outcome)
      ensures outcome.JournalFault? || outcome.NotJournaled? ==> world.writes == old(world.writes)
      ensures old(world.Alone() && AtOriginals(world.w, IdOf(plan))) ==> world.Guarding(|old(world.trace)|, IdOf(plan))
      ensures Later(old(world.Luck()), world.Luck())
      ensures Spared(old(world.Luck()), world.Luck()) && old(Startable(inspect, plan, world.w))
              && originals == Restrict(old(world.w.docs), MANIFEST) ==>
                outcome.Applied?
      ensures OneBadWrite(old(world.Luck()), world.Luck()) && old(Startable(inspect, plan, world.w))
              && originals == Restrict(old(world.w.docs), MANIFEST) ==>
                outcome == RolledBack
    {
      hide JournalOk, MemoryOk, Safe, PreflightOk, AtOriginals, AtPostimages, PostApplied, SoundPlan, SoundContent,
        MatchMeansOriginal, Startable, Ready, DistinctChanges, Changes, ProvidersOf, ChangesOf, ChangedCount, ResultOf,
        Matches, DistinctKeys, AllJournaled, Deployment.Luck;
      var id := IdOf(plan);
      SoundIsJournalable(inspect, plans, states, completed, world.w.states, id);
      PreflightMeans(inspect, plan, originals);
      var changes := BuildChanges(plan, originals);
      PlannedChangesOk(inspect, plan, originals);
      StartableIsReady(inspect, plan, world.w, originals, changes);
      var unready := Announce(id, changes);
      if unready.Some? {
        return unready.value;
      }
      OriginalsAreSafe(world.w, id);
      StartableAtOriginals(inspect, plan, old(world.w));
      ReadyFrame(inspect, plan, old(world.w), world.w, originals, changes);
      outcome := WriteAndVerify(plan, originals, changes);
    }

    /** The applying state and the originals, journaled before any write; or how that failed. */
    method Announce(id: PlanId, changes: seq<Change>) returns (outcome: Option<Outcome>)
      requires Valid() && id in states && !JournalComplete(world.w, id) && SoundContent(inspect, id.content)
               && Changes(id, changes)
      modifies this`states, world
      ensures Valid() && old(world.trace) <= world.trace && world.Recorded(|old(world.trace)|, inspect)
      ensures world.writes == old(world.writes) && id in states
      ensures outcome.Some? ==> outcome.value.JournalFault? || outcome.value.NotJournaled?
      ensures outcome == None ==>
                Incomplete(world.w, id) && !JournalComplete(world.w, id) && AllJournaled(world.w, id, changes)
      ensures old(world.Alone() && AtOriginals(world.w, id)) ==>
                && world.Alone() && AtOriginals(world.w, id) && world.Guarding(|old(world.trace)|, id)
      ensures Unwritten(old(world.Luck()), world.Luck())
      ensures Spared(old(world.Luck()), world.Luck()) && OriginalsFor(old(world.w), id) == []
              && DistinctChanges(changes) ==>
                && outcome == None && world.w.docs == old(world.w.docs)
                && world.w.completions == old(world.w).completions && world.w.authority == old(world.w).authority
    {
      hide JournalOk, MemoryOk, Safe, AtOriginals, SoundContent, DistinctChanges, Changes, AllJournaled,
        Deployment.Luck;
      OriginalsAreSafe(world.w, id);
      FailedIsSafe(world.w, id);
      var ok := Settle(id, Applying, Applying);
      if !ok {
        return Some(JournalFault);
      }
      ok := Journal(id, changes);
      return if ok then None else Some(NotJournaled);
    }

    method Journal(id: PlanId, changes: seq<Change>) returns (ok: bool)
      requires Valid() && id in states && !JournalComplete(world.w, id) && SoundContent(inspect, id.content)
               && Changes(id, changes)
      modifies this`states, world
      ensures Valid() && old(world.trace) <= world.trace && world.Recorded(|old(world.trace)|, inspect)
      ensures world.writes == old(world.writes) && states == if ok then old(states) else old(states)[id := Failed]
      ensures ok ==> world.w.states == old(world.w.states) && AllJournaled(world.w, id, changes)
      ensures old(world.Alone() && AtOriginals(world.w, id)) ==>
                && world.Alone() && AtOriginals(world.w, id) && world.Guarding(|old(world.trace)|, id)
      ensures Unwritten(old(world.Luck()), world.Luck())
      ensures Spared(old(world.Luck()), world.Luck()) && OriginalsFor(old(world.w), id) == []
              && DistinctChanges(changes) ==>
                && ok && world.w.docs == old(world.w.docs)
                && world.w.completions == old(world.w).completions && world.w.authority == old(world.w).authority
    {
      hide JournalOk, MemoryOk, Safe, AtOriginals, SoundContent, DistinctChanges, Deployment.Luck;
      ghost var before := world.w;
      ok := JournalOriginals(id, changes);
      OriginalsFrame(before, world.w, id);
      if !ok {
        FailedIsSafe(world.w, id);
        var ignored := Settle(id, Failed, Failed);
      }
    }

    /** The final pass and the completion; None when something is not at its postimage, with nothing changed. */
    method VerifyAndFinish(plan: Plan) returns (outcome: Option<Outcome>)
      requires Valid() && IdOf(plan) in plans && plans[IdOf(plan)] == plan
      requires IdOf(plan) in states && !JournalComplete(world.w, IdOf(plan))
      modifies this, world
      ensures Valid() && old(world.trace) <= world.trace && world.Recorded(|old(world.trace)|, inspect)
      ensures outcome == None ==>
                && SameJournal(world.w, old(world.w)) && world.trace == old(world.trace)
                && states == old(states) && plans == old(plans) && blocked == old(blocked)
      ensures outcome.Some? ==> outcome.value.Applied? || outcome.value.RestoreFailed?
      ensures outcome.Some? && outcome.value.Applied? ==>
                && outcome.value.result == ResultOf(plan, ChangedCount(plan.content.documents))
                && AtPostimages(world.w, IdOf(plan)) && JournalComplete(world.w, IdOf(plan))
                && IdOf(plan) in states && states[IdOf(plan)] == Complete && Replayable(plan)
      ensures outcome.Some? && outcome.value.RestoreFailed? ==> blocked
      ensures old(world.Guarded(IdOf(plan)) && Incomplete(world.w, IdOf(plan))) ==>
                && (outcome == None ==> world.Guarded(IdOf(plan)) && Incomplete(world.w, IdOf(plan)))
                && (outcome.Some? ==> world.Guarding(|old(world.trace)|, IdOf(plan)))
      ensures Unwritten(old(world.Luck()), world.Luck())
      ensures Spared(old(world.Luck()), world.Luck())
              && old(PostApplied(inspect, plan, Restrict(world.w.docs, MANIFEST))
                     && Authorized(world.w, plan) && IdOf(plan) !in world.w.completions) ==>
                outcome.Some? && outcome.value.Applied?
    {
      hide JournalOk, MemoryOk, Safe, AtPostimages, PostApplied, Restrict, Authorized, ChangedCount, ResultOf,
        Deployment.Luck;
      JournalFrame(inspect, world.w, IdOf(plan));
      var verified := VerifyApplied(plan);
      if verified == None {
        return None;
      }
      var finished := Finish(plan, verified.value, ChangedCount(plan.content.documents));
      world.LeaveFinalPass();
      return Some(finished);
    }

    /** The writes of a plan: if the plan was ready and nothing fails, every document is then at its postimage. */
    method WritePlanned(plan: Plan, originals: map<Key, Document>, changes: seq<Change>)
      returns (ok: bool, attempted: seq<Entry>)
      requires DistinctKeys(plan.content.documents) && Changes(IdOf(plan), changes) && JournalOk(inspect, world.w)
      modifies world
      ensures SameJournal(world.w, old(world.w)) && world.calm == old(world.calm)
      ensures JournalOk(inspect, world.w) && old(world.trace) <= world.trace
              && world.Recorded(|old(world.trace)|, inspect)
      ensures Restorable(IdOf(plan), attempted)
      ensures old(world.Guarded(IdOf(plan)) && Incomplete(world.w, IdOf(plan))
                  && AllJournaled(world.w, IdOf(plan), changes)) ==>
                && world.Guarded(IdOf(plan)) && world.Guarding(|old(world.trace)|, IdOf(plan))
                && Incomplete(world.w, IdOf(plan))
      ensures Later(old(world.Luck()), world.Luck())
      ensures Spared(old(world.Luck()), world.Luck()) && old(Ready(inspect, plan, world.w, originals, changes)) ==>
                && ok && PostApplied(inspect, plan, Restrict(world.w.docs, MANIFEST))
                && Authorized(world.w, plan) && IdOf(plan) !in world.w.completions
      ensures world.Luck().faults > old(world.Luck()).faults ==> !ok
      ensures old(Ready(inspect, plan, world.w, originals, changes)) ==> DistinctEntries(attempted)
      ensures OneBadWrite(old(world.Luck()), world.Luck()) && old(Ready(inspect, plan, world.w, originals, changes)) ==>
                Covered(world.w, IdOf(plan), attempted, originals)
      ensures OneBadCall(old(world.Luck()), world.Luck()) && old(Ready(inspect, plan, world.w, originals, changes)) ==>
                !Covered(world.w, IdOf(plan), attempted, originals)
    {
      hide JournalOk, Safe, PostApplied, Restorable, Changes, Ready, WrittenUpTo, DistinctChanges, DistinctKeys,
        Restrict, Deployment.Luck;
      ReadyWrites(inspect, plan, world.w, originals, changes);
      ok, attempted := WriteChanges(IdOf(plan), changes);
      ReadyPosts(inspect, plan, old(world.w), world.w, originals, changes);
      ReadyCovered(inspect, plan, old(world.w), world.w, originals, changes, attempted);
      OverlookedNotCovered(inspect, plan, old(world.w), world.w, originals, changes, attempted);
    }

    /** The writes, and then either the completion or the way back. */
    method WriteAndVerify(plan: Plan, originals: map<Key, Document>, changes: seq<Change>) returns (outcome: Outcome)
      requires Valid() && IdOf(plan) in plans && plans[IdOf(plan)] == plan
      requires IdOf(plan) in states && !JournalComplete(world.w, IdOf(plan))
      requires DistinctKeys(plan.content.documents) && Changes(IdOf(plan), changes)
      requires MatchMeansOriginal(IdOf(plan), originals)
      modifies this, world
      ensures Valid() && old(world.trace) <= world.trace && world.Recorded(|old(world.trace)|, inspect)
      ensures outcome.Applied? || outcome.RolledBack? || outcome.RestoreFailed?
      ensures Ended(plan, originals, outcome)
      ensures old(world.Guarded(IdOf(plan)) && Incomplete(world.w, IdOf(plan))
                  && AllJournaled(world.w, IdOf(plan), changes)) ==>
                world.Guarding(|old(world.trace)|, IdOf(plan))
      ensures Later(old(world.Luck()), world.Luck())
      ensures Spared(old(world.Luck()), world.Luck()) && old(Ready(inspect, plan, world.w, originals, changes)) ==>
                outcome.Applied?
      ensures OneBadWrite(old(world.Luck()), world.Luck())
              && old(Ready(inspect, plan, world.w, originals, changes) && world.Guarded(IdOf(plan))
                     && Incomplete(world.w, IdOf(plan))
                     && AllJournaled(world.w, IdOf(plan), changes)) ==>
                outcome == RolledBack
    {
      hide JournalOk, MemoryOk, Safe, AtOriginals, AtPostimages, PostApplied, MatchMeansOriginal, Restorable, Changes,
        Ready, DistinctKeys, ProvidersOf, Restrict, ResultOf, ChangedCount, Matches, Authorized, AllJournaled,
        Deployment.Luck, Covered, PlannedOriginals, DistinctEntries, Deployment.Alone,
        SoundPlan, SoundContent, Replayable;
      var id := IdOf(plan);
      JournalFrame(inspect, world.w, id);
      var ok, attempted := WritePlanned(plan, originals, changes);
      if ok {
        var finished := VerifyAndFinish(plan);
        if finished.Some? {
          return finished.value;
        }
      }
      ReadyOriginals(inspect, plan, old(world.w), originals, changes);
      outcome := RollBack(id, attempted, originals);
    }

    /** The three ways an apply ends once it may have written. */
    ghost predicate Ended(plan: Plan, originals: map<Key, Document>, outcome: Outcome)
      reads this, world
    {
      var id := IdOf(plan);
      match outcome
      case Applied(result) =>
        && result == ResultOf(plan, ChangedCount(plan.content.documents))
        && AtPostimages(world.w, id) && JournalComplete(world.w, id)
        && id in states && states[id] == Complete && Replayable(plan)
      case RolledBack =>
        && Matches(world.w, originals) && Restrict(world.w.docs, ProvidersOf(originals)).Keys == originals.Keys
        && id in states && states[id] == Failed
      case RestoreFailed => blocked
      case _ => outcome.JournalFault? || outcome.NotJournaled?
    }

    /** Preflight, and on its success the rest of the apply. */
    method Start(plan: Plan) returns (outcome: Outcome, ghost fetched: map<Key, Document>)
      requires Valid() && IdOf(plan) in plans && plans[IdOf(plan)] == plan
      requires IdOf(plan) in states && !JournalComplete(world.w, IdOf(plan))
      modifies this, world
      ensures Valid() && old(world.trace) <= world.trace && world.Recorded(|old(world.trace)|, inspect)
      ensures outcome.Stale? || Ended(plan, fetched, outcome)
      ensures BeforeAnyWrite(outcome) ==> world.writes == old(world.writes)
      ensures !BeforeAnyWrite(outcome) ==> PreflightOk(plan, fetched)
      ensures old(world.Alone() && AtOriginals(world.w, IdOf(plan))) ==> world.Guarding(|old(world.trace)|, IdOf(plan))
      ensures old(world.Alone() && !AtOriginals(world.w, IdOf(plan))) ==> BeforeAnyWrite(outcome)
      ensures Later(old(world.Luck()), world.Luck())
      ensures Spared(old(world.Luck()), world.Luck()) && old(Startable(inspect, plan, world.w)) ==> outcome.Applied?
      ensures OneBadWrite(old(world.Luck()), world.Luck()) && old(Startable(inspect, plan, world.w)) ==>
                outcome == RolledBack
    {
      hide JournalOk, MemoryOk, Safe, PreflightOk, AtOriginals, AtPostimages, PostApplied, Startable, ProvidersOf,
        Restrict, ChangedCount, ResultOf, Matches, Deployment.Luck;
      var id := IdOf(plan);
      fetched := map[];
      var originals := Preflight(plan);
      JournalFrame(inspect, old(world.w), id);
      if originals == None {
        FailedIsSafe(world.w, id);
        var ignored := Settle(id, Phase.Blocked, Failed);
        return Stale, fetched;
      }
      fetched := originals.value;
      outcome := Execute(plan, originals.value);
    }

    /** Apply a plan this coordinator issued; `fetched` is the inventory its preflight read. */
    method Apply(id: PlanId, digest: Content) returns (outcome: Outcome, ghost fetched: map<Key, Document>)
      requires Valid()
      modifies this, world
      ensures Valid() && old(world.trace) <= world.trace && world.Recorded(|old(world.trace)|, inspect)
      ensures outcome == UnknownPlan <==> id !in old(plans) || old(plans)[id].content != digest
      ensures outcome == RefusedBlocked <==> outcome != UnknownPlan && old(blocked)
      ensures outcome == UnknownPlan || outcome == RefusedBlocked ==>
                world.w == old(world.w) && states == old(states) && blocked == old(blocked)
      ensures BeforeAnyWrite(outcome) ==> world.writes == old(world.writes)
      ensures !BeforeAnyWrite(outcome) ==>
                PreflightOk(old(plans)[id], fetched) && Ended(old(plans)[id], fetched, outcome)
      ensures outcome == RestoreFailed ==> blocked
      ensures old(MayExecute(id) && world.Alone() && AtOriginals(world.w, id)) ==>
                world.Guarding(|old(world.trace)|, id)
      ensures old(MayExecute(id) && world.Alone() && !AtOriginals(world.w, id)) ==> BeforeAnyWrite(outcome)
      ensures outcome.Replayed? ==> AtPostimages(world.w, id)
      ensures Spared(old(world.Luck()), world.Luck())
              && old(MayExecute(id) && id in plans && plans[id].content == digest
                     && Startable(inspect, plans[id], world.w)) ==>
                outcome.Applied?
      ensures OneBadWrite(old(world.Luck()), world.Luck())
              && old(MayExecute(id) && id in plans && plans[id].content == digest
                     && Startable(inspect, plans[id], world.w)) ==>
                outcome == RolledBack
    {
      hide JournalOk, MemoryOk, Safe, PreflightOk, AtOriginals, AtPostimages, PostApplied, SoundPlan, SoundContent,
        Startable, ProvidersOf, ChangedCount, ResultOf, Matches, Deployment.Luck;
      fetched := map[];
      if id !in plans || plans[id].content != digest {
        return UnknownPlan, fetched;
      }
      if blocked {
        return RefusedBlocked, fetched;
      }
      var plan := plans[id];
      PlansAreKnown(inspect, plans, states, completed, world.w.states, id);
      match states[id] {
        case Applying => return InProgress, fetched;
        case Blocked => return Superseded, fetched;
        case Complete =>
          outcome := ReplayCompleted(plan);
          return;
        case _ =>
      }
      outcome, fetched := Start(plan);
    }

    /** A plan that an apply would act on. */
    ghost predicate MayExecute(id: PlanId)
      reads this
    {
      !blocked && id in states && (states[id] == Planned || states[id] == Failed)
    }

    /** Everything is as the recorded completion has it, and the subject still has its authority. */
    ghost predicate Replayable(plan: Plan)
      reads this, world
    {
      && IdOf(plan) in completed && Authorized(world.w, plan)
      && Snapshots(Restrict(world.w.docs, MANIFEST)) == completed[IdOf(plan)].documents
      && PostApplied(inspect, plan, Restrict(world.w.docs, MANIFEST))
    }

    /** An idempotent replay: everything must still be as recorded. */
    method ReplayCompleted(plan: Plan) returns (outcome: Outcome)
      requires Valid() && IdOf(plan) in states && IdOf(plan) in completed
      modifies this`states, world
      ensures Valid() && world.trace == old(world.trace) && world.writes == old(world.writes)
      ensures outcome == StaleReplay || outcome == Replayed(completed[IdOf(plan)].result.(idempotent := true))
      ensures outcome.Replayed? ==> AtPostimages(world.w, IdOf(plan)) && states == old(states)
      ensures outcome == StaleReplay ==> states == old(states)[IdOf(plan) := Phase.Blocked]
      ensures Unwritten(old(world.Luck()), world.Luck())
      ensures Spared(old(world.Luck()), world.Luck()) ==> (outcome.Replayed? <==> old(Replayable(plan)))
    {
      hide JournalOk, MemoryOk, PostApplied, AtPostimages, Deployment.Luck, Restrict, Snapshots;
      var id := IdOf(plan);
      JournalFrame(inspect, world.w, id);
      MemoryAfter(inspect, plans, states, completed, world.w.states, id, Phase.Blocked, completed, world.w.states);
      world.EnterFinalPass();
      var subject := world.ResolveSubject(plan.content.subject.room);
      var found := FetchInventory(MANIFEST);
      if subject != Some(plan.content.subject) || found == None || Snapshots(found.value) != completed[id].documents
         || !PostApplied(inspect, plan, found.value) {
        states := states[id := Phase.Blocked];
        return StaleReplay;
      }
      PostedMeans(inspect, plan, world.w, found.value);
      return Replayed(completed[id].result.(idempotent := true));
    }

    /* ---------- plan ---------- */

    /** One document's part of a plan: nothing blocked in it, and the postimage its replacement gives. */
    method PlanDocument(subject: Subject, key: Key, doc: Document) returns (d: Option<PlannedDocument>)
      requires key.provider in MANIFEST && subject.targets.Keys == MANIFEST
      ensures d.Some? <==> Plannable(inspect, subject, key, doc)
      ensures d.Some? ==> SoundDocument(inspect, subject, d.value) && d.value.key == key && Describes(d.value, doc)
    {
      if !ValidPayload(doc.payload) || !doc.writable {
        return None;
      }
      var q := QueryFor(inspect, subject.oldId, key.provider);
      var scan := ScanRoot(q, doc.payload);
      if scan.blocked != [] {
        return None;
      }
      var payload, count := ReplaceSemanticReferences(q, subject.targets[key.provider], doc.payload);
      return Some(PlannedDocument(key, doc.revision, doc.writable, doc.payload, payload.value, scan.paths));
    }

    /** The documents of one provider, appended to the plan. */
    method PlanProvider(subject: Subject, listed: map<Key, Document>, before: seq<PlannedDocument>)
      returns (ds: Option<seq<PlannedDocument>>)
      requires subject.targets.Keys == MANIFEST && forall k :: k in listed ==> k.provider in MANIFEST
      requires SoundDocuments(inspect, subject, before) && KeysOf(before) !! listed.Keys
      ensures ds.Some? ==>
                SoundDocuments(inspect, subject, ds.value) && KeysOf(ds.value) == KeysOf(before) + listed.Keys
      ensures ds.Some? ==>
                forall docs :: AllDescribed(before, docs) && Within(listed, docs) ==> AllDescribed(ds.value, docs)
      ensures ds.Some? <==> forall k :: k in listed ==> Plannable(inspect, subject, k, listed[k])
    {
      var planned, todo := before, listed.Keys;
      while todo != {}
        invariant todo <= listed.Keys && SoundDocuments(inspect, subject, planned)
        invariant KeysOf(planned) == KeysOf(before) + (listed.Keys - todo)
        invariant forall k :: k in listed && k !in todo ==> Plannable(inspect, subject, k, listed[k])
        invariant forall docs :: AllDescribed(before, docs) && Within(listed, docs) ==> AllDescribed(planned, docs)
        decreases todo
      {
        hide SoundDocument, PathCount, Plannable;
        var key :| key in todo;
        var d := PlanDocument(subject, key, listed[key]);
        if d == None {
          return None;
        }
        AppendDocument(inspect, subject, planned, d.value);
        planned := planned + [d.value];
        todo := todo - {key};
      }
      return Some(planned);
    }

    /** Discover every provider's documents and issue a plan, unless anything stands against it. */
    method CreatePlan(subject: Subject, expected: bool, required: set<string>) returns (plan: Option<Plan>)
      requires Valid()
      modifies this, world
      ensures Valid() && old(world.trace) <= world.trace && world.Recorded(|old(world.trace)|, inspect)
      ensures world.writes == old(world.writes) && blocked == old(blocked)
      ensures old(blocked) ==> plan == None && world.w == old(world.w) && plans == old(plans) && states == old(states)
      ensures plan.Some? ==>
                && SoundPlan(inspect, plan.value) && ValidRequest(subject, required)
                && plan.value.content.subject == subject && (expected ==> plan.value.replacements > 0)
                && IdOf(plan.value) in plans && plans[IdOf(plan.value)] == plan.value
      ensures plan.Some? && old(world.Alone()) ==>
                && KeysOf(plan.value.content.documents) == Restrict(old(world.w.docs), MANIFEST).Keys
                && AllDescribed(plan.value.content.documents, old(world.w.docs)) && world.w.docs == old(world.w.docs)
      ensures Unwritten(old(world.Luck()), world.Luck())
      ensures Spared(old(world.Luck()), world.Luck()) ==>
                (plan.Some? <==>
                   && !old(blocked) && ValidRequest(subject, required)
                   && subject.room in old(world.w).authority && old(world.w).authority[subject.room] == subject
                   && AllPlannable(inspect, subject, old(world.w).docs, MANIFEST)
                   && (expected ==> HasReference(inspect, subject, old(world.w).docs)))
    {
      hide JournalOk, MemoryOk, SoundDocument, PathCount, SoundContent, ValidRequest, Deployment.Luck, AllPlannable,
        HasReference, Restrict, KeysOf, AllDescribed, Deployment.Alone, IdOf;
      if blocked || !ValidRequest(subject, required) {
        return None;
      }
      RequestCovers(subject, required);
      JournalFrame(inspect, world.w, PlanId(Content(subject, expected, [])));
      world.LeaveFinalPass();
      var resolved := world.ResolveSubject(subject.room);
      if resolved != Some(subject) {
        return None;
      }
      var discovered := Discover(subject);
      if discovered.Some? {
        CountsReferences(inspect, subject, world.w.docs, discovered.value);
      }
      if discovered == None || (expected && PathCount(discovered.value) == 0) {
        return None;
      }
      var issued := Plan(Content(subject, expected, discovered.value), PathCount(discovered.value));
      DiscoveredIsSound(inspect, issued);
      var id := IdOf(issued);
      if id in plans {
        PlansAreKnown(inspect, plans, states, completed, world.w.states, id);
        PlanIdsDoNotCollide(inspect, issued, plans[id]);
        return Some(plans[id]);
      }
      MemoryWithPlan(inspect, plans, states, completed, world.w.states, issued);
      plans, states := plans[id := issued], states[id := Planned];
      JournalFrame(inspect, world.w, id);
      SoundPlanContent(inspect, issued);
      var ok := world.SetState(id, Planned);
      return if ok then Some(issued) else None;
    }

    method Discover(subject: Subject) returns (ds: Option<seq<PlannedDocument>>)
      requires subject.targets.Keys == MANIFEST
      modifies world
      ensures SameJournal(world.w, old(world.w)) && world.calm == old(world.calm) && world.trace == old(world.trace)
              && world.writes == old(world.writes)
      ensures ds.Some? ==> SoundDocuments(inspect, subject, ds.value)
      ensures old(world.Undisturbed()) ==> world.w == old(world.w)
      ensures old(world.Alone()) ==> world.Alone()
      ensures ds.Some? && old(world.Undisturbed()) ==>
                KeysOf(ds.value) == Restrict(world.w.docs, MANIFEST).Keys && AllDescribed(ds.value, world.w.docs)
      ensures Unwritten(old(world.Luck()), world.Luck())
      ensures Spared(old(world.Luck()), world.Luck()) ==>
                (ds.Some? <==> AllPlannable(inspect, subject, world.w.docs, MANIFEST))
    {
      hide SoundDocument, Deployment.Luck, Plannable;
      var planned: seq<PlannedDocument> := [];
      var todo := MANIFEST;
      while todo != {}
        invariant todo <= MANIFEST && SoundDocuments(inspect, subject, planned)
        invariant forall k :: k in KeysOf(planned) ==> k.provider !in todo
        invariant SameJournal(world.w, old(world.w)) && world.calm == old(world.calm) && world.trace == old(world.trace)
                  && world.writes == old(world.writes)
        invariant old(world.Undisturbed()) ==> world.Undisturbed() && world.w == old(world.w)
        invariant old(world.Alone()) ==> world.Alone()
        invariant old(world.Undisturbed()) ==>
                    KeysOf(planned) == Restrict(world.w.docs, MANIFEST - todo).Keys
                    && AllDescribed(planned, world.w.docs)
        invariant Unwritten(old(world.Luck()), world.Luck())
        invariant old(world.Undisturbed()) ==> AllPlannable(inspect, subject, world.w.docs, MANIFEST - todo)
        decreases todo
      {
        var provider :| provider in todo;
        var listed := world.ListDocuments(provider);
        if listed == None {
          return None;
        }
        var more := PlanProvider(subject, listed.value, planned);
        if more == None {
          return None;
        }
        assert Within(listed.value, world.w.docs);
        planned := more.value;
        todo := todo - {provider};
      }
      return Some(planned);
    }
  }

  /* ---------- a crash anywhere ---------- */

  /**
   * A crash left this world: a fresh coordinator finds it complete, or untouched, or recovers it.
   * Every world in the trace of an undisturbed apply, or of a recovery, is such a world.
   */
  method RecoverAfterCrash(inspect: Inspector, left: World, id: PlanId) returns (w: World)
    requires JournalOk(inspect, left) && Safe(left, id)
    ensures JournalOk(inspect, w)
    ensures JournalComplete(left, id) ==> w == left && AtPostimages(w, id)
    ensures !JournalComplete(left, id) ==> AtOriginals(w, id) && !Incomplete(w, id)
  {
    hide JournalOk, MemoryOk, AtOriginals, AtPostimages, Safe;
    var world := new Deployment(left, []);
    var coordinator := new ReferenceMigrationCoordinator(inspect, world);
    SafeMeans(left, id);
    var outcome := coordinator.RecoverIncomplete(id);
    w := world.w;
  }
}
