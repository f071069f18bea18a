/**
 * What a scan and a replacement mean, said about the places of the tree rather than about the walk:
 * which texts are found, which are blocked, what stands at each place afterwards, and when no
 * mention of the entity is left at all.
 */
module ReferenceMeaning {
  import opened Basics
  import opened Projection

  /* ---------- places ---------- */

  /** Going down from `j` along `p` leads to `leaf`. */
  ghost predicate Stands(j: Json, p: Path, leaf: Json)
    decreases |p|
  {
    if p == [] then j == leaf
    else
      || (j.Obj? && exists i: nat :: i < |j.fields| && p[0] == Key(j.fields[i].key)
                                     && Stands(j.fields[i].value, p[1..], leaf))
      || (j.Arr? && exists i: nat :: i < |j.items| && p[0] == Index(i) && Stands(j.items[i], p[1..], leaf))
  }

  /** `k` is the last mapping key on the path: only list positions follow it. */
  ghost predicate LastKey(path: Path, k: string) {
    exists i: nat :: i < |path| && path[i] == Key(k) && forall m: nat :: i < m < |path| ==> path[m].Index?
  }

  lemma {:induction false} NearestKeyIsLast(path: Path, k: string)
    ensures NearestKey(path) == Some(k) <==> LastKey(path, k)
  {
    if path != [] {
      var n := |path| - 1;
      NearestKeyIsLast(path[..n], k);
      if path[n].Index? {
        if LastKey(path[..n], k) {
          var i: nat :| i < n && path[..n][i] == Key(k) && forall m: nat :: i < m < n ==> path[..n][m].Index?;
          assert path[i] == Key(k);
          assert forall m: nat :: i < m < n ==> path[m] == path[..n][m];
        }
        if LastKey(path, k) {
          var i: nat :| i <= n && path[i] == Key(k) && forall m: nat :: i < m <= n ==> path[m].Index?;
          assert path[..n][i] == Key(k);
        }
      } else if NearestKey(path) == Some(k) {
        assert path[n] == Key(k);
      }
    }
  }

  /** The fields whose text may be an entity ID, provider by provider. */
  predicate FieldApproved(k: string, provider: Option<string>) {
    match provider
    case None => k in COMMON_FIELDS
    case Some(name) =>
      || (name in {"active_yaml", "config_entry", "lovelace"} && k in COMMON_FIELDS)
      || (name == "lovelace" && k == "camera_image")
      || (name in {"external_writers", "scheduler"} && k in TARGET_FIELDS)
  }

  ghost predicate AtScalarField(path: Path, provider: Option<string>) {
    exists k :: LastKey(path, k) && FieldApproved(k, provider)
  }

  lemma ScalarPathMeans(path: Path, provider: Option<string>)
    ensures IsScalarPath(path, provider) <==> AtScalarField(path, provider)
  {
    hide NearestKey, LastKey;
    if IsScalarPath(path, provider) {
      NearestKeyIsLast(path, NearestKey(path).value);
    }
    if AtScalarField(path, provider) {
      var k :| LastKey(path, k) && FieldApproved(k, provider);
      NearestKeyIsLast(path, k);
    }
  }

  /** A template may stand directly in a template field, of a provider that has templates. */
  predicate AtTemplateField(path: Path, provider: Option<string>) {
    && path != [] && path[|path| - 1].Key? && path[|path| - 1].name in TEMPLATE_FIELDS
    && (provider.Some? ==> provider.value in TEMPLATE_PROVIDERS)
  }

  /* ---------- which texts ---------- */

  /** The parser found one literal call, its literal in the source text, and nothing unsafe. */
  predicate OneSafeCall(q: Query, text: string) {
    var seen := q.inspect(text, q.oldId);
    seen.calls == 1 && !seen.isUnsafe && |seen.spans| == 1
  }

  predicate NoCall(q: Query, text: string) {
    var seen := q.inspect(text, q.oldId);
    seen.calls == 0 && !seen.isUnsafe
  }

  /** The whole text is the ID in a field for IDs, or it is a template with one safe call in a template field. */
  ghost predicate Approved(q: Query, text: string, path: Path) {
    if text == q.oldId then AtScalarField(path, q.provider)
    else
      && IsTemplate(text) && OneSafeCall(q, text)
      && AtTemplateField(path, q.provider) && !AtScalarField(path, q.provider)
  }

  /** Not the ID, and either plain text without it or a template that does not refer to it. */
  ghost predicate Harmless(q: Query, text: string, path: Path) {
    && text != q.oldId
    && (if IsTemplate(text) then NoCall(q, text) && !AtScalarField(path, q.provider)
        else !ContainsEntity(text, q.oldId))
  }

  lemma VerdictsMean(q: Query, text: string, path: Path)
    ensures Judge(q, text, path).Replaceable? <==> Approved(q, text, path)
    ensures Judge(q, text, path).Unrelated? <==> Harmless(q, text, path)
  {
    hide IsTemplate, ContainsEntity, IsScalarPath, AtScalarField;
    ScalarPathMeans(path, q.provider);
  }

  /* ---------- what the scan finds ---------- */

  lemma {:induction false} FoundPathStands(q: Query, j: Json, path: Path, p: Path) returns (text: string)
    requires p in ScanValue(q, j, path).paths
    ensures path <= p && Stands(j, p[|path|..], Str(text)) && Judge(q, text, p).Replaceable?
    decreases j
  {
    hide Judge;
    match j
    case Obj(fields) =>
      var i := FieldOfPath(q, fields, |fields|, path, p);
      text := FoundPathStands(q, fields[i].value, path + [Key(fields[i].key)], p);
      assert p[|path|..][1..] == p[|path| + 1..];
    case Arr(items) =>
      var i := ItemOfPath(q, items, |items|, path, p);
      text := FoundPathStands(q, items[i], path + [Index(i)], p);
      assert p[|path|..][1..] == p[|path| + 1..];
    case Str(t) => text := t;
    case Scalar(_) =>
  }

  lemma {:induction false} StandingTextIsFound(q: Query, j: Json, path: Path, rest: Path, text: string)
    requires Stands(j, rest, Str(text)) && Judge(q, text, path + rest).Replaceable?
    ensures path + rest in ScanValue(q, j, path).paths
    decreases |rest|
  {
    hide Judge;
    if rest == [] {
      assert path + rest == path;
    } else {
      assert path + [rest[0]] + rest[1..] == path + rest;
      match j
      case Obj(fields) =>
        var i: nat :| i < |fields| && rest[0] == Key(fields[i].key) && Stands(fields[i].value, rest[1..], Str(text));
        StandingTextIsFound(q, fields[i].value, path + [rest[0]], rest[1..], text);
        FieldIsScanned(q, fields, |fields|, path, i, path + rest);
      case Arr(items) =>
        var i: nat :| i < |items| && rest[0] == Index(i) && Stands(items[i], rest[1..], Str(text));
        StandingTextIsFound(q, items[i], path + [rest[0]], rest[1..], text);
        ItemIsScanned(q, items, |items|, path, i, path + rest);
      case _ => assert false;
    }
  }

  /** The scan approves exactly the places where an approved text stands. */
  lemma FoundExactlyWhere(q: Query, j: Json, p: Path)
    ensures p in ScanRoot(q, j).paths <==> exists text :: Stands(j, p, Str(text)) && Approved(q, text, p)
  {
    hide Judge, Approved, ScanValue, Stands;
    if p in ScanRoot(q, j).paths {
      var text := FoundPathStands(q, j, [], p);
      assert p[0..] == p;
      VerdictsMean(q, text, p);
    }
    if exists text :: Stands(j, p, Str(text)) && Approved(q, text, p) {
      var text :| Stands(j, p, Str(text)) && Approved(q, text, p);
      VerdictsMean(q, text, p);
      assert [] + p == p;
      StandingTextIsFound(q, j, [], p, text);
    }
  }

  /* ---------- what the scan blocks ---------- */

  /** What stands at `at` is the cause of `b`: a text that may not be replaced, or a mapping key with the ID in it. */
  ghost predicate Causes(q: Query, leaf: Json, at: Path, b: Blocked) {
    match leaf
    case Str(text) => b == Blocked(at, text, false) && Judge(q, text, at).Refused?
    case Obj(fields) =>
      && ContainsEntity(b.text, q.oldId) && b == Blocked(at + [Key(b.text)], b.text, true)
      && exists i: nat :: i < |fields| && fields[i].key == b.text
    case _ => false
  }

  lemma {:induction false} FieldOfBlocked(q: Query, fields: seq<Field>, n: nat, path: Path, b: Blocked) returns (i: nat)
    requires n <= |fields| && b in ScanFields(q, fields, n, path).blocked
    ensures i < n && (|| b in ScanKey(q, fields[i].key, path).blocked
                      || b in ScanValue(q, fields[i].value, path + [Key(fields[i].key)]).blocked)
    decreases n
  {
    hide Judge, ScanKey, ScanValue;
    if b in ScanFields(q, fields, n - 1, path).blocked {
      i := FieldOfBlocked(q, fields, n - 1, path, b);
    } else {
      i := n - 1;
    }
  }

  lemma {:induction false} FieldIsBlocked(q: Query, fields: seq<Field>, n: nat, path: Path, i: nat, b: Blocked)
    requires i < n <= |fields|
    requires || b in ScanKey(q, fields[i].key, path).blocked
             || b in ScanValue(q, fields[i].value, path + [Key(fields[i].key)]).blocked
    ensures b in ScanFields(q, fields, n, path).blocked
    decreases n
  {
    hide Judge, ScanKey, ScanValue;
    if i < n - 1 {
      FieldIsBlocked(q, fields, n - 1, path, i, b);
    }
  }

  lemma {:induction false} ItemOfBlocked(q: Query, items: seq<Json>, n: nat, path: Path, b: Blocked) returns (i: nat)
    requires n <= |items| && b in ScanItems(q, items, n, path).blocked
    ensures i < n && b in ScanValue(q, items[i], path + [Index(i)]).blocked
    decreases n
  {
    hide Judge, ScanValue;
    if b in ScanItems(q, items, n - 1, path).blocked {
      i := ItemOfBlocked(q, items, n - 1, path, b);
    } else {
      i := n - 1;
    }
  }

  lemma {:induction false} ItemIsBlocked(q: Query, items: seq<Json>, n: nat, path: Path, i: nat, b: Blocked)
    requires i < n <= |items| && b in ScanValue(q, items[i], path + [Index(i)]).blocked
    ensures b in ScanItems(q, items, n, path).blocked
    decreases n
  {
    hide Judge, ScanValue;
    if i < n - 1 {
      ItemIsBlocked(q, items, n - 1, path, i, b);
    }
  }

  lemma {:induction false} BlockedHasCause(q: Query, j: Json, path: Path, b: Blocked) returns (rest: Path, leaf: Json)
    requires b in ScanValue(q, j, path).blocked
    ensures Stands(j, rest, leaf) && Causes(q, leaf, path + rest, b)
    decreases j
  {
    hide Judge, ContainsEntity;
    match j
    case Obj(fields) =>
      var i := FieldOfBlocked(q, fields, |fields|, path, b);
      if b in ScanKey(q, fields[i].key, path).blocked {
        rest, leaf := [], j;
        assert path + [] == path;
      } else {
        var part := Key(fields[i].key);
        rest, leaf := BlockedHasCause(q, fields[i].value, path + [part], b);
        assert path + [part] + rest == path + ([part] + rest);
        rest := [part] + rest;
      }
    case Arr(items) =>
      var i := ItemOfBlocked(q, items, |items|, path, b);
      rest, leaf := BlockedHasCause(q, items[i], path + [Index(i)], b);
      assert path + [Index(i)] + rest == path + ([Index(i)] + rest);
      rest := [Index(i)] + rest;
    case Str(_) =>
      rest, leaf := [], j;
      assert path + [] == path;
    case Scalar(_) =>
  }

  lemma {:induction false} CauseIsBlocked(q: Query, j: Json, path: Path, rest: Path, leaf: Json, b: Blocked)
    requires Stands(j, rest, leaf) && Causes(q, leaf, path + rest, b)
    ensures b in ScanValue(q, j, path).blocked
    decreases |rest|
  {
    hide Judge, ContainsEntity;
    if rest == [] {
      assert path + rest == path;
      if j.Obj? {
        var i: nat :| i < |j.fields| && j.fields[i].key == b.text;
        FieldIsBlocked(q, j.fields, |j.fields|, path, i, b);
      }
    } else {
      assert path + [rest[0]] + rest[1..] == path + rest;
      match j
      case Obj(fields) =>
        var i: nat :| i < |fields| && rest[0] == Key(fields[i].key) && Stands(fields[i].value, rest[1..], leaf);
        CauseIsBlocked(q, fields[i].value, path + [rest[0]], rest[1..], leaf, b);
        FieldIsBlocked(q, fields, |fields|, path, i, b);
      case Arr(items) =>
        var i: nat :| i < |items| && rest[0] == Index(i) && Stands(items[i], rest[1..], leaf);
        CauseIsBlocked(q, items[i], path + [rest[0]], rest[1..], leaf, b);
        ItemIsBlocked(q, items, |items|, path, i, b);
      case _ => assert false;
    }
  }

  /** A key of some object holds the ID, or a text does that is neither approved nor harmless where it stands. */
  ghost predicate Blocking(q: Query, j: Json, b: Blocked) {
    if b.mappingKey then
      && ContainsEntity(b.text, q.oldId) && b.path != [] && b.path[|b.path| - 1] == Key(b.text)
      && exists fields: seq<Field>, i: nat ::
           i < |fields| && fields[i].key == b.text && Stands(j, b.path[..|b.path| - 1], Obj(fields))
    else
      Stands(j, b.path, Str(b.text)) && !Approved(q, b.text, b.path) && !Harmless(q, b.text, b.path)
  }

  lemma BlockedIsBlocking(q: Query, j: Json, b: Blocked)
    requires b in ScanRoot(q, j).blocked
    ensures Blocking(q, j, b)
  {
    hide Judge, Approved, Harmless, ScanValue, Stands, ContainsEntity;
    var rest, leaf := BlockedHasCause(q, j, [], b);
    assert [] + rest == rest;
    if leaf.Str? {
      VerdictsMean(q, leaf.text, rest);
    } else {
      assert (rest + [Key(b.text)])[..|rest|] == rest;
    }
  }

  lemma BlockingIsBlocked(q: Query, j: Json, b: Blocked)
    requires Blocking(q, j, b)
    ensures b in ScanRoot(q, j).blocked
  {
    hide Judge, Approved, Harmless, ScanValue, Stands, ContainsEntity;
    if b.mappingKey {
      var rest := b.path[..|b.path| - 1];
      var fields: seq<Field>, i: nat :| i < |fields| && fields[i].key == b.text && Stands(j, rest, Obj(fields));
      assert b.path == rest + [Key(b.text)] && [] + rest == rest;
      CauseIsBlocked(q, j, [], rest, Obj(fields), b);
    } else {
      VerdictsMean(q, b.text, b.path);
      assert [] + b.path == b.path;
      CauseIsBlocked(q, j, [], b.path, Str(b.text), b);
    }
  }

  /** The scan blocks exactly the keys that hold the ID, and the texts neither approved nor harmless. */
  lemma BlockedExactlyWhere(q: Query, j: Json, b: Blocked)
    ensures b in ScanRoot(q, j).blocked <==> Blocking(q, j, b)
  {
    hide Blocking, ScanRoot;
    if b in ScanRoot(q, j).blocked {
      BlockedIsBlocking(q, j, b);
    }
    if Blocking(q, j, b) {
      BlockingIsBlocked(q, j, b);
    }
  }

  /* ---------- what the replacement leaves ---------- */

  lemma {:induction false} RewrittenStands(q: Query, target: string, j: Json, path: Path, rest: Path, text: string)
    requires Stands(j, rest, Str(text))
    ensures Stands(Rewritten(q, target, j, path), rest, Rewritten(q, target, Str(text), path + rest))
    decreases |rest|
  {
    hide Judge, ReplaceText;
    if rest == [] {
      assert path + rest == path;
    } else {
      assert path + [rest[0]] + rest[1..] == path + rest;
      match j
      case Obj(fields) =>
        var i: nat :| i < |fields| && rest[0] == Key(fields[i].key) && Stands(fields[i].value, rest[1..], Str(text));
        RewrittenStands(q, target, fields[i].value, path + [rest[0]], rest[1..], text);
        assert Rewritten(q, target, j, path).fields[i].key == fields[i].key;
      case Arr(items) =>
        var i: nat :| i < |items| && rest[0] == Index(i) && Stands(items[i], rest[1..], Str(text));
        RewrittenStands(q, target, items[i], path + [rest[0]], rest[1..], text);
      case _ => assert false;
    }
  }

  /** The target for the whole ID, the spliced template for an approved template, and any other text as it was. */
  ghost function TextAfter(q: Query, target: string, text: string, path: Path): string {
    if !Approved(q, text, path) then text
    else if text == q.oldId then target
    else
      var span := q.inspect(text, q.oldId).spans[0];
      text[..Cut(text, span.0)] + target + text[Cut(text, span.1)..]
  }

  /** Where a text stood, its replacement stands afterwards. */
  lemma ReplacedStands(q: Query, target: string, j: Json, p: Path, text: string)
    requires WellFormed(j) && Stands(j, p, Str(text))
    ensures Replace(q, target, j).Done? && Stands(Replace(q, target, j).value, p, Str(TextAfter(q, target, text, p)))
  {
    hide Judge, Replace, Stands, AtScalarField, IsTemplate;
    ReplaceIsRewriting(q, target, j);
    RewrittenStands(q, target, j, [], p, text);
    assert [] + p == p;
    VerdictsMean(q, text, p);
  }

  /** No text and no mapping key mentions the entity. */
  predicate MentionFree(j: Json, id: string) {
    match j
    case Obj(fields) =>
      forall i: nat :: i < |fields| ==> !ContainsEntity(fields[i].key, id) && MentionFree(fields[i].value, id)
    case Arr(items) => forall i: nat :: i < |items| ==> MentionFree(items[i], id)
    case Str(text) => !Mentions(text, id)
    case Scalar(_) => true
  }

  predicate FieldsFree(fields: seq<Field>, n: nat, id: string)
    requires n <= |fields|
  {
    n == 0 || (FieldsFree(fields, n - 1, id) && !ContainsEntity(fields[n - 1].key, id)
               && MentionFree(fields[n - 1].value, id))
  }

  predicate ItemsFree(items: seq<Json>, n: nat, id: string)
    requires n <= |items|
  {
    n == 0 || (ItemsFree(items, n - 1, id) && MentionFree(items[n - 1], id))
  }

  lemma {:induction false} FieldsFreeMeans(fields: seq<Field>, n: nat, id: string)
    requires n <= |fields|
    ensures FieldsFree(fields, n, id) <==>
            forall i: nat :: i < n ==> !ContainsEntity(fields[i].key, id) && MentionFree(fields[i].value, id)
  {
    hide ContainsEntity, MentionFree;
    if n > 0 {
      FieldsFreeMeans(fields, n - 1, id);
    }
  }

  lemma {:induction false} ItemsFreeMeans(items: seq<Json>, n: nat, id: string)
    requires n <= |items|
    ensures ItemsFree(items, n, id) <==> forall i: nat :: i < n ==> MentionFree(items[i], id)
  {
    hide MentionFree;
    if n > 0 {
      ItemsFreeMeans(items, n - 1, id);
    }
  }

  lemma NothingJoined(a: seq<Blocked>, b: seq<Blocked>)
    ensures a + b == [] <==> a == [] && b == []
  {
  }

  lemma {:induction false} RewrittenIsFree(q: Query, target: string, j: Json, path: Path)
    requires TemplateFree(j) && !Mentions(target, q.oldId)
    ensures MentionFree(Rewritten(q, target, j, path), q.oldId) <==> ScanValue(q, j, path).blocked == []
    decreases j, 1, 0
  {
    match j
    case Obj(fields) =>
      RewrittenFieldsAreFree(q, target, fields, |fields|, path);
      FieldsFreeMeans(Rewritten(q, target, j, path).fields, |fields|, q.oldId);
    case Arr(items) =>
      RewrittenItemsAreFree(q, target, items, |items|, path);
      ItemsFreeMeans(Rewritten(q, target, j, path).items, |items|, q.oldId);
    case Str(text) =>
    case Scalar(_) =>
  }

  lemma {:induction false} RewrittenFieldsAreFree(q: Query, target: string, fields: seq<Field>, n: nat, path: Path)
    requires n <= |fields| && TemplateFree(Obj(fields)) && !Mentions(target, q.oldId)
    ensures FieldsFree(Rewritten(q, target, Obj(fields), path).fields, n, q.oldId) <==>
            ScanFields(q, fields, n, path).blocked == []
    decreases fields, 0, n
  {
    hide Judge, ReplaceText, Mentions, ContainsEntity;
    if n > 0 {
      var f := fields[n - 1];
      RewrittenFieldsAreFree(q, target, fields, n - 1, path);
      RewrittenIsFree(q, target, f.value, path + [Key(f.key)]);
      var after := Rewritten(q, target, Obj(fields), path).fields;
      assert after[n - 1] == Field(f.key, Rewritten(q, target, f.value, path + [Key(f.key)]));
      NothingJoined(ScanKey(q, f.key, path).blocked, ScanValue(q, f.value, path + [Key(f.key)]).blocked);
      NothingJoined(ScanFields(q, fields, n - 1, path).blocked,
                    ScanKey(q, f.key, path).blocked + ScanValue(q, f.value, path + [Key(f.key)]).blocked);
    }
  }

  lemma {:induction false} RewrittenItemsAreFree(q: Query, target: string, items: seq<Json>, n: nat, path: Path)
    requires n <= |items| && TemplateFree(Arr(items)) && !Mentions(target, q.oldId)
    ensures ItemsFree(Rewritten(q, target, Arr(items), path).items, n, q.oldId) <==>
            ScanItems(q, items, n, path).blocked == []
    decreases items, 0, n
  {
    hide Judge, ReplaceText, Mentions;
    if n > 0 {
      RewrittenItemsAreFree(q, target, items, n - 1, path);
      RewrittenIsFree(q, target, items[n - 1], path + [Index(n - 1)]);
      var after := Rewritten(q, target, Arr(items), path).items;
      assert after[n - 1] == Rewritten(q, target, items[n - 1], path + [Index(n - 1)]);
      NothingJoined(ScanItems(q, items, n - 1, path).blocked,
                    ScanValue(q, items[n - 1], path + [Index(n - 1)]).blocked);
    }
  }

  /** Without templates, no mention of the entity is left exactly when the scan blocked nothing. */
  lemma ReplacedIsFreeExactlyWhen(q: Query, target: string, j: Json)
    requires WellFormed(j) && TemplateFree(j) && IsEntity(q.oldId) && IsEntity(target) && target != q.oldId
    ensures Replace(q, target, j).Done?
    ensures MentionFree(Replace(q, target, j).value, q.oldId) <==> ScanRoot(q, j).blocked == []
  {
    hide Judge, Replace, MentionFree, ScanValue, Rewritten, WellFormed, TemplateFree;
    EntityMentionsOnlyItself(target, q.oldId);
    ReplaceIsRewriting(q, target, j);
    RewrittenIsFree(q, target, j, []);
  }
}
