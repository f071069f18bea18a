/**
 * What outlives a coordinator: the providers' documents, the room authority, and the migration
 * journal.  Any call may raise before or after its effect, and other writers may act before it.
 */
module MigrationWorld {
  import opened Basics
  import opened Projection
  import opened MigrationPlan

  datatype World = World(
    docs: map<Key, Document>,
    authority: map<string, Subject>,
    states: map<PlanId, Phase>,
    originals: map<PlanId, seq<Entry>>,
    completions: map<PlanId, Completion>)

  datatype Raises = Never | BeforeEffect | AfterEffect

  datatype Others = Others(docs: map<Key, Document>, authority: map<string, Subject>)

  /** What befalls one call. */
  datatype Hazard = Hazard(raises: Raises, others: Option<Others>)

  const FINE := Hazard(Never, None)

  function Restrict(docs: map<Key, Document>, providers: set<string>): map<Key, Document> {
    map k | k in docs && k.provider in providers :: docs[k]
  }

  predicate Incomplete(w: World, id: PlanId) {
    id in w.states && (w.states[id] == Applying || w.states[id] == Phase.Blocked)
  }

  function OriginalsFor(w: World, id: PlanId): seq<Entry> {
    if id in w.originals then w.originals[id] else []
  }

  /* ---------- what the journal always satisfies ---------- */

  /** The entry journals one of the plan's documents as planned. */
  ghost predicate EntryOk(c: Content, e: Entry) {
    exists i: nat :: i < |c.documents| && EntryFor(c.documents[i], e)
  }

  predicate EntryFor(d: PlannedDocument, e: Entry) {
    e.key == d.key && e.document.payload == d.fingerprint && e.document.writable && e.post == d.post
  }

  ghost predicate EntriesOk(c: Content, es: seq<Entry>) {
    && (forall i: nat, j: nat :: i < j < |es| ==> es[i].key != es[j].key)
    && (forall i: nat :: i < |es| ==> EntryOk(c, es[i]))
  }

  ghost predicate JournalOk(inspect: Inspector, w: World) {
    && (forall id :: id in w.states || id in w.originals ==> SoundContent(inspect, id.content))
    && (forall id :: id in w.originals ==> EntriesOk(id.content, w.originals[id]))
    && (forall id :: id in w.completions ==>
          ValidCompletion(w.completions[id], id) && SoundPlan(inspect, w.completions[id].plan))
    && (forall id :: id in w.states && w.states[id] == Complete ==> id in w.completions)
  }

  /* ---------- what a crash must never leave ---------- */

  predicate HasKey(es: seq<Entry>, key: Key) {
    exists i: nat :: i < |es| && es[i].key == key
  }

  /** What is journaled for the document already is this very entry. */
  predicate NoConflict(es: seq<Entry>, e: Entry) {
    forall i: nat :: i < |es| && es[i].key == e.key ==> es[i] == e
  }

  ghost predicate Journaled(w: World, id: PlanId, d: PlannedDocument) {
    HasKey(OriginalsFor(w, id), d.key)
  }

  /**
   * The document is at its postimage if the journal says complete, at its original if the journal
   * says nothing happened, and otherwise at one of the two, the postimage only once journaled.
   */
  ghost predicate DocumentSafe(w: World, id: PlanId, d: PlannedDocument) {
    && d.key in w.docs && w.docs[d.key].writable
    && var now := w.docs[d.key].payload;
       if id in w.states && w.states[id] == Complete then now == d.post
       else if Incomplete(w, id) then now == d.fingerprint || (now == d.post && Journaled(w, id, d))
       else now == d.fingerprint
  }

  ghost predicate Safe(w: World, id: PlanId) {
    forall i: nat :: i < |id.content.documents| ==> DocumentSafe(w, id, id.content.documents[i])
  }

  /** Every planned document is back at its original payload. */
  ghost predicate AtOriginals(w: World, id: PlanId) {
    forall i: nat :: i < |id.content.documents| ==> AtOriginal(w, id.content.documents[i])
  }

  ghost predicate AtOriginal(w: World, d: PlannedDocument) {
    d.key in w.docs && w.docs[d.key].payload == d.fingerprint && w.docs[d.key].writable
  }

  ghost predicate AtPostimages(w: World, id: PlanId) {
    forall i: nat :: i < |id.content.documents| ==> AtPostimage(w, id.content.documents[i])
  }

  ghost predicate AtPostimage(w: World, d: PlannedDocument) {
    d.key in w.docs && w.docs[d.key].payload == d.post && w.docs[d.key].writable
  }

  ghost predicate SameJournal(a: World, b: World) {
    a.states == b.states && a.originals == b.originals && a.completions == b.completions
  }

  /* ---------- the calls ---------- */

  function Written(w: World, key: Key, payload: Json): World
    requires key in w.docs
  {
    w.(docs := w.docs[key := Document(w.docs[key].revision + 1, payload, w.docs[key].writable)])
  }

  function WithState(w: World, id: PlanId, phase: Phase): World {
    w.(states := w.states[id := phase])
  }

  function WithOriginal(w: World, id: PlanId, e: Entry): World {
    w.(originals := w.originals[id := OriginalsFor(w, id) + [e]])
  }

  function WithCompletion(w: World, id: PlanId, c: Completion): World {
    w.(completions := w.completions[id := c])
  }

  /** How lucky the calls still to come are, and how many calls, and writes among them, have raised so far. */
  datatype Luck = Fortune(oneFault: bool, faultFree: bool, faults: nat, badWrites: nat)

  /** Luck as it may develop: at most one fault stays at most one, and after that one there is none. */
  predicate Later(a: Luck, b: Luck) {
    && b.faults >= a.faults && b.badWrites >= a.badWrites && b.faults - a.faults >= b.badWrites - a.badWrites
    && (a.oneFault ==> b.oneFault && (b.faults > a.faults ==> b.faultFree))
    && (a.faultFree ==> b.faultFree && b.faults == a.faults)
  }

  /** The same, with no write that raised. */
  predicate Unwritten(a: Luck, b: Luck) {
    Later(a, b) && b.badWrites == a.badWrites
  }

  /** With at most one fault ahead, none struck. */
  predicate Spared(a: Luck, b: Luck) {
    a.oneFault && b.faults == a.faults
  }

  /** With at most one fault ahead, it struck, and it was a write that raised. */
  predicate OneBadWrite(a: Luck, b: Luck) {
    a.oneFault && b.badWrites > a.badWrites
  }

  /** With at most one fault ahead, it struck, and it was some other call. */
  predicate OneBadCall(a: Luck, b: Luck) {
    a.oneFault && b.faults > a.faults && b.badWrites == a.badWrites
  }

  /** The calls a coordinator makes.  The trace records every world a crash could find. */
  class Deployment {
    var w: World
    var script: seq<Hazard>
    var calm: bool
    ghost var trace: seq<World>
    ghost var writes: nat
    ghost var faults: nat
    ghost var badWrites: nat

    constructor (w: World, script: seq<Hazard>)
      ensures this.w == w && this.script == script && !calm && trace == [] && writes == faults == badWrites == 0
    {
      this.w, this.script, calm, trace, writes, faults, badWrites := w, script, false, [], 0, 0, 0;
    }

    /** No other writer from here on. */
    ghost predicate Undisturbed()
      reads this
    {
      calm || Alone()
    }

    /** No other writer at all. */
    ghost predicate Alone()
      reads this`script
    {
      forall i: nat :: i < |script| ==> script[i].others == None
    }

    ghost predicate FaultFree()
      reads this`script
    {
      forall i: nat :: i < |script| ==> script[i] == FINE
    }

    /** No other writer, and at most one call still to come raises. */
    ghost predicate OneFault()
      reads this`script
    {
      Alone() && forall i: nat, j: nat :: i < j < |script| && script[i].raises != Never ==> script[j].raises == Never
    }

    ghost function Luck(): (l: Luck)
      reads this`script, this`faults, this`badWrites
      ensures (l.faultFree ==> l.oneFault) && (l.oneFault ==> Alone())
    {
      Fortune(OneFault(), FaultFree(), faults, badWrites)
    }

    /** Nothing else writes, and a crash now would be recoverable. */
    ghost predicate Guarded(id: PlanId)
      reads this
    {
      Alone() && Safe(w, id)
    }

    /** Every world since `from` has a sound journal. */
    ghost predicate Recorded(from: nat, inspect: Inspector)
      reads this
    {
      from <= |trace| && forall k: nat :: from <= k < |trace| ==> JournalOk(inspect, trace[k])
    }

    /** A crash at any point since `from` would be recoverable. */
    ghost predicate Guarding(from: nat, id: PlanId)
      reads this
    {
      from <= |trace| && forall k: nat :: from <= k < |trace| ==> Safe(trace[k], id)
    }

    /** What befalls the next call; other writers act first. */
    method Next(ghost write: bool) returns (raises: Raises)
      modifies this
      ensures SameJournal(w, old(w)) && calm == old(calm) && trace == old(trace) && writes == old(writes)
      ensures old(Undisturbed()) ==> Undisturbed() && w == old(w)
      ensures old(Alone()) ==> Alone()
      ensures Later(old(Luck()), Luck())
      ensures faults == old(faults) + (if raises == Never then 0 else 1)
      ensures badWrites == old(badWrites) + (if raises != Never && write then 1 else 0)
    {
      if script == [] {
        return Never;
      }
      var h := script[0];
      script := script[1..];
      if h.others.Some? && !calm {
        w := w.(docs := h.others.value.docs, authority := h.others.value.authority);
      }
      if h.raises != Never {
        faults := faults + 1;
        badWrites := badWrites + if write then 1 else 0;
      }
      return h.raises;
    }

    /** The assumption of the final verification pass. */
    method EnterFinalPass()
      modifies this`calm
      ensures calm
    {
      calm := true;
    }

    method LeaveFinalPass()
      modifies this`calm
      ensures !calm
    {
      calm := false;
    }

    method ResolveSubject(room: string) returns (subject: Option<Subject>)
      modifies this
      ensures SameJournal(w, old(w)) && calm == old(calm) && trace == old(trace) && writes == old(writes)
      ensures old(Undisturbed()) ==> Undisturbed() && w == old(w)
      ensures old(Alone()) ==> Alone()
      ensures Unwritten(old(Luck()), Luck())
      ensures subject.Some? ==> room in w.authority && subject.value == w.authority[room]
      ensures Spared(old(Luck()), Luck()) && room in w.authority ==> subject == Some(w.authority[room])
    {
      var raises := Next(false);
      if raises != Never || room !in w.authority {
        return None;
      }
      return Some(w.authority[room]);
    }

    /** One provider's complete inventory. */
    method ListDocuments(provider: string) returns (listed: Option<map<Key, Document>>)
      modifies this
      ensures SameJournal(w, old(w)) && calm == old(calm) && trace == old(trace) && writes == old(writes)
      ensures old(Undisturbed()) ==> Undisturbed() && w == old(w)
      ensures old(Alone()) ==> Alone()
      ensures listed.Some? ==> listed.value == Restrict(w.docs, {provider})
      ensures Unwritten(old(Luck()), Luck())
      ensures Spared(old(Luck()), Luck()) ==> listed.Some?
    {
      var raises := Next(false);
      if raises != Never {
        return None;
      }
      return Some(Restrict(w.docs, {provider}));
    }

    method GetDocument(key: Key) returns (doc: Option<Document>)
      modifies this
      ensures SameJournal(w, old(w)) && calm == old(calm) && trace == old(trace) && writes == old(writes)
      ensures old(Undisturbed()) ==> Undisturbed() && w == old(w)
      ensures old(Alone()) ==> Alone()
      ensures doc.Some? ==> key in w.docs && doc.value == w.docs[key]
      ensures Unwritten(old(Luck()), Luck())
      ensures Spared(old(Luck()), Luck()) ==> w == old(w) && (key in w.docs ==> doc.Some?)
      ensures faults > old(faults) ==> doc == None
    {
      var raises := Next(false);
      if raises != Never || key !in w.docs {
        return None;
      }
      return Some(w.docs[key]);
    }

    /** Replace one payload if its revision is still current. */
    method WriteDocument(key: Key, expected: int, payload: Json) returns (ok: bool)
      modifies this
      ensures SameJournal(w, old(w)) && calm == old(calm) && trace == old(trace) + [w] && writes == old(writes) + 1
      ensures old(Alone()) ==> Alone()
      ensures old(Undisturbed()) ==>
                Undisturbed() && (w == old(w) || (key in old(w).docs && w == Written(old(w), key, payload)))
      ensures ok && old(Undisturbed()) ==> w != old(w)
      ensures Later(old(Luck()), Luck()) && badWrites - old(badWrites) == faults - old(faults)
      ensures Spared(old(Luck()), Luck()) && key in old(w).docs && old(w).docs[key].revision == expected
              && old(w).docs[key].writable && ValidPayload(payload) ==>
                ok && w == Written(old(w), key, payload)
      ensures faults > old(faults) ==> !ok
    {
      var raises := Next(true);
      writes := writes + 1;
      if raises == BeforeEffect || key !in w.docs || w.docs[key].revision != expected || !w.docs[key].writable
         || !ValidPayload(payload) {
        trace := trace + [w];
        return false;
      }
      w := Written(w, key, payload);
      trace := trace + [w];
      return raises == Never;
    }

    method SetState(id: PlanId, phase: Phase) returns (ok: bool)
      modifies this
      ensures calm == old(calm) && trace == old(trace) + [w] && writes == old(writes)
      ensures SameJournal(w, old(w)) || SameJournal(w, WithState(old(w), id, phase))
      ensures ok ==> SameJournal(w, WithState(old(w), id, phase))
      ensures old(Alone()) ==> Alone()
      ensures old(Undisturbed()) ==> Undisturbed() && (w == old(w) || w == WithState(old(w), id, phase))
      ensures Unwritten(old(Luck()), Luck())
      ensures Spared(old(Luck()), Luck()) ==> ok && w == WithState(old(w), id, phase)
      ensures faults > old(faults) ==> !ok
    {
      var raises := Next(false);
      if raises != BeforeEffect {
        w := WithState(w, id, phase);
      }
      trace := trace + [w];
      return raises == Never;
    }

    /** Journal an original; the same one again is accepted, a different one refused. */
    method RecordOriginal(id: PlanId, e: Entry) returns (ok: bool)
      modifies this
      ensures calm == old(calm) && trace == old(trace) + [w] && writes == old(writes)
      ensures SameJournal(w, old(w))
              || (SameJournal(w, WithOriginal(old(w), id, e)) && !HasKey(OriginalsFor(old(w), id), e.key))
      ensures ok ==> HasKey(OriginalsFor(w, id), e.key)
      ensures Unwritten(old(Luck()), Luck())
      ensures Spared(old(Luck()), Luck()) && NoConflict(OriginalsFor(old(w), id), e) ==> ok
      ensures faults > old(faults) ==> !ok
      ensures old(Alone()) ==> Alone()
      ensures old(Undisturbed()) ==> Undisturbed() && (w == old(w) || w == WithOriginal(old(w), id, e))
    {
      var raises := Next(false);
      var es := OriginalsFor(w, id);
      var i := 0;
      while i < |es|
        invariant i <= |es| && forall k: nat :: k < i ==> es[k].key != e.key
      {
        if es[i].key == e.key {
          trace := trace + [w];
          return es[i] == e && raises == Never;
        }
        i := i + 1;
      }
      if raises != BeforeEffect {
        w := WithOriginal(w, id, e);
        assert OriginalsFor(w, id)[|es|] == e;
      }
      trace := trace + [w];
      return raises == Never;
    }

    /** Record a valid completion; a different one for the same plan is refused. */
    method RecordCompletion(id: PlanId, c: Completion) returns (ok: bool)
      modifies this
      ensures calm == old(calm) && trace == old(trace) + [w] && writes == old(writes)
      ensures SameJournal(w, old(w)) || (ValidCompletion(c, id) && SameJournal(w, WithCompletion(old(w), id, c)))
      ensures ok ==> id in w.completions
      ensures Unwritten(old(Luck()), Luck())
      ensures Spared(old(Luck()), Luck()) ==>
                (ok <==> ValidCompletion(c, id) && (id in old(w).completions ==> old(w).completions[id] == c))
      ensures old(Alone()) ==> Alone()
      ensures old(Undisturbed()) ==> Undisturbed() && (w == old(w) || w == WithCompletion(old(w), id, c))
    {
      var raises := Next(false);
      if !ValidCompletion(c, id) || (id in w.completions && w.completions[id] != c) {
        trace := trace + [w];
        return false;
      }
      if raises != BeforeEffect {
        w := WithCompletion(w, id, c);
      }
      trace := trace + [w];
      return raises == Never;
    }
  }
}
