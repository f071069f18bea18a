/**
 * One migration that cannot be rolled back: the write of its only document took effect, but reading
 * it back raised, so the document was not counted as attempted.
 */
module MigrationExamples {
  import opened Basics
  import opened Projection
  import opened MigrationPlan
  import opened MigrationWorld
  import opened MigrationSafety

  const KEY := MigrationPlan.Key("scheduler", "evening")

  const BEFORE := Obj([Field("entity_id", Str("climate.x"))])
  const AFTER := Obj([Field("entity_id", Str("climate.y"))])

  const ORIGINAL := Document(5, BEFORE, true)

  const SUBJECT := Subject("room", 1, "climate.x", "unique", map k: string | k in MANIFEST :: "climate.y")

  const PLANNED := PlannedDocument(KEY, 5, true, BEFORE, AFTER, [[Part.Key("entity_id")]])

  const ID := PlanId(Content(SUBJECT, true, [PLANNED]))

  /** The journal as it is right after the write: applying, with the original recorded. */
  const WRITTEN := World(map[KEY := Document(6, AFTER, true)], map[], map[ID := Applying],
                         map[ID := [Entry(KEY, ORIGINAL, AFTER)]], map[])

  lemma MentionHasDot(text: string, id: string)
    requires ContainsEntity(text, id)
    ensures '.' in text
  {
    var d: nat :| d < |id| && EntityAt(id, d);
    var i: nat :| i < |text| && TokenAt(text, id, i);
    assert text[i + d] == text[i..i + |id|][d];
  }

  lemma KeyIsClean(q: Query)
    ensures ScanKey(q, "entity_id", []) == NOTHING
  {
    hide ContainsEntity;
    if ContainsEntity("entity_id", q.oldId) {
      MentionHasDot("entity_id", q.oldId);
    }
  }

  lemma ValueIsReplaced(inspect: Inspector, path: Path)
    requires path == [Part.Key("entity_id")]
    ensures var q := QueryFor(inspect, "climate.x", "scheduler");
            && ScanValue(q, Str("climate.x"), path) == Scan([path], [])
            && Rewritten(q, "climate.y", Str("climate.x"), path) == Str("climate.y")
  {
    assert IsScalarPath(path, Some("scheduler"));
  }

  lemma ContentIsSound(inspect: Inspector)
    ensures SoundContent(inspect, ID.content)
  {
    hide Judge, ReplaceText, ScanKey;
    var q := QueryFor(inspect, "climate.x", "scheduler");
    var path: Path := [Part.Key("entity_id")];
    assert [] + path == path;
    KeyIsClean(q);
    ValueIsReplaced(inspect, path);
    assert ScanFields(q, BEFORE.fields, 0, []) == NOTHING;
    assert ScanRoot(q, BEFORE) == Scan([path], []);
    assert Rewritten(q, "climate.y", BEFORE, []).fields == AFTER.fields;
    assert Shallow(BEFORE.fields[0].value, 1);
  }

  /** The world is a recoverable one of a sound plan, and what was attempted does not cover it. */
  lemma UnreadWriteIsNotCovered(inspect: Inspector)
    ensures JournalOk(inspect, WRITTEN) && Safe(WRITTEN, ID) && Incomplete(WRITTEN, ID)
    ensures PlannedOriginals(ID, map[KEY := ORIGINAL])
    ensures !Covered(WRITTEN, ID, [], map[KEY := ORIGINAL])
    ensures Covered(WRITTEN, ID, OriginalsFor(WRITTEN, ID), map[KEY := ORIGINAL])
  {
    hide SoundContent;
    ContentIsSound(inspect);
    assert ID.content.documents[0] == PLANNED;
    assert EntryFor(PLANNED, WRITTEN.originals[ID][0]);
    assert KeysOf(ID.content.documents) == {KEY};
    assert BEFORE.fields[0].value != AFTER.fields[0].value;
    assert !CoveredAt(WRITTEN, PLANNED, []);
    assert HasEntry(OriginalsFor(WRITTEN, ID), KEY);
    assert Restrict(WRITTEN.docs, ProvidersOf(map[KEY := ORIGINAL])).Keys == {KEY};
  }
}
