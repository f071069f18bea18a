/**
 * Semantic replacement over JSON trees: scan for replaceable and blocked references to an entity,
 * replace at the approved paths, scan again.
 *
 * Objects list their fields in key order, the order both the scan and the fingerprint use.  What
 * the template parser finds in a text is a parameter.
 */
module Projection {
  import opened Basics

  /** `Scalar` stands for numbers, booleans and null. */
  datatype Json = Obj(fields: seq<Field>) | Arr(items: seq<Json>) | Str(text: string) | Scalar(value: int)

  datatype Field = Field(key: string, value: Json)

  datatype Part = Key(name: string) | Index(i: nat)

  type Path = seq<Part>

  datatype Blocked = Blocked(path: Path, text: string, mappingKey: bool)

  /** What the template parser reports: literal helper calls, anything unsafe, source literal spans. */
  datatype Inspection = Inspection(calls: nat, isUnsafe: bool, spans: seq<(nat, nat)>)

  /** One scan: the entity looked for, the provider if any, and the template parser. */
  datatype Query = Query(oldId: string, provider: Option<string>, inspect: (string, string) -> Inspection)

  const COMMON_FIELDS: set<string> := {
    "climate_entity", "entities", "entity", "entity_id", "heater", "source_entity", "target",
    "target_sensor", "temperature_sensor"
  }

  const TARGET_FIELDS: set<string> := {"entities", "entity_id", "target"}

  const TEMPLATE_PROVIDERS: set<string> := {"active_yaml", "config_entry", "lovelace"}

  const TEMPLATE_FIELDS: set<string> := {
    "availability_template", "condition", "entity_picture_template", "icon_template", "state",
    "state_template", "template", "value_template"
  }

  /* ---------- texts ---------- */

  predicate WordChar(c: char) {
    'a' <= c <= 'z' || '0' <= c <= '9' || c == '_'
  }

  predicate Word(s: string) {
    s != "" && forall c :: c in s ==> WordChar(c)
  }

  /** A complete entity ID: two words joined by a dot, which is at `dot`. */
  predicate EntityAt(s: string, dot: nat) {
    dot < |s| && s[dot] == '.' && Word(s[..dot]) && Word(s[dot + 1..])
  }

  predicate IsEntity(s: string) {
    exists dot: nat :: dot < |s| && EntityAt(s, dot)
  }

  /** `id` stands at `i` as a whole token: no word character touches it on either side. */
  predicate TokenAt(text: string, id: string, i: nat) {
    && i + |id| <= |text| && text[i..i + |id|] == id
    && (i > 0 ==> !WordChar(text[i - 1]))
    && (i + |id| < |text| ==> !WordChar(text[i + |id|]))
  }

  predicate ContainsEntity(text: string, id: string) {
    IsEntity(id) && exists i: nat :: i < |text| && TokenAt(text, id, i)
  }

  predicate HasAt(text: string, marker: string, i: nat) {
    i + |marker| <= |text| && text[i..i + |marker|] == marker
  }

  predicate IsTemplate(text: string) {
    exists i: nat :: i < |text| && (HasAt(text, "{{", i) || HasAt(text, "{%", i))
  }

  /* ---------- path classification ---------- */

  /** The nearest mapping key on the path, if any. */
  function NearestKey(path: Path): Option<string> {
    if path == [] then None
    else if path[|path| - 1].Key? then Some(path[|path| - 1].name)
    else NearestKey(path[..|path| - 1])
  }

  function ScalarFields(provider: Option<string>): set<string> {
    if provider == None then COMMON_FIELDS
    else if provider.value == "active_yaml" || provider.value == "config_entry" then COMMON_FIELDS
    else if provider.value == "lovelace" then COMMON_FIELDS + {"camera_image"}
    else if provider.value == "external_writers" || provider.value == "scheduler" then TARGET_FIELDS
    else {}
  }

  predicate IsScalarPath(path: Path, provider: Option<string>) {
    NearestKey(path).Some? && NearestKey(path).value in ScalarFields(provider)
  }

  predicate IsTemplatePath(path: Path) {
    path != [] && path[|path| - 1].Key? && path[|path| - 1].name in TEMPLATE_FIELDS
  }

  /* ---------- what one text is ---------- */

  datatype Verdict = Replaceable | Refused | Unrelated

  /** Calls whose literals cannot all be found in the source text make the template unsafe. */
  function Analyze(q: Query, text: string): (int, bool) {
    var seen := q.inspect(text, q.oldId);
    (seen.calls, seen.isUnsafe || (seen.calls > 0 && |seen.spans| != seen.calls))
  }

  function JudgeTemplate(q: Query, text: string, path: Path): Verdict {
    var (calls, isBlocked) := Analyze(q, text);
    if IsScalarPath(path, q.provider) then Refused
    else if !IsTemplatePath(path) || (q.provider.Some? && q.provider.value !in TEMPLATE_PROVIDERS) then
      if isBlocked || calls > 0 then Refused else Unrelated
    else if isBlocked || calls > 1 then Refused
    else if calls == 1 then Replaceable
    else Unrelated
  }

  function Judge(q: Query, text: string, path: Path): Verdict {
    if text == q.oldId then if IsScalarPath(path, q.provider) then Replaceable else Refused
    else if IsTemplate(text) then JudgeTemplate(q, text, path)
    else if ContainsEntity(text, q.oldId) then Refused
    else Unrelated
  }

  /* ---------- the scan ---------- */

  datatype Scan = Scan(paths: seq<Path>, blocked: seq<Blocked>)

  const NOTHING := Scan([], [])

  function Join(a: Scan, b: Scan): Scan {
    Scan(a.paths + b.paths, a.blocked + b.blocked)
  }

  function ScanText(q: Query, text: string, path: Path): Scan {
    match Judge(q, text, path)
    case Replaceable => Scan([path], [])
    case Refused => Scan([], [Blocked(path, text, false)])
    case Unrelated => NOTHING
  }

  function ScanKey(q: Query, key: string, path: Path): Scan {
    if ContainsEntity(key, q.oldId) then Scan([], [Blocked(path + [Key(key)], key, true)]) else NOTHING
  }

  function ScanValue(q: Query, j: Json, path: Path): Scan
    decreases j, 1, 0
  {
    match j
    case Obj(fields) => ScanFields(q, fields, |fields|, path)
    case Arr(items) => ScanItems(q, items, |items|, path)
    case Str(text) => ScanText(q, text, path)
    case Scalar(_) => NOTHING
  }

  function ScanFields(q: Query, fields: seq<Field>, n: nat, path: Path): Scan
    requires n <= |fields|
    decreases fields, 0, n
  {
    if n == 0 then NOTHING
    else
      var f := fields[n - 1];
      Join(ScanFields(q, fields, n - 1, path),
           Join(ScanKey(q, f.key, path), ScanValue(q, f.value, path + [Key(f.key)])))
  }

  function ScanItems(q: Query, items: seq<Json>, n: nat, path: Path): Scan
    requires n <= |items|
    decreases items, 0, n
  {
    if n == 0 then NOTHING
    else Join(ScanItems(q, items, n - 1, path), ScanValue(q, items[n - 1], path + [Index(n - 1)]))
  }

  function ScanRoot(q: Query, j: Json): Scan {
    ScanValue(q, j, [])
  }

  /* ---------- the replacement ---------- */

  function Cut(text: string, at: nat): nat {
    if at <= |text| then at else |text|
  }

  /** The literal call is rewritten only when exactly one span is found. */
  function ReplaceLiteral(q: Query, text: string, target: string): Option<string> {
    var spans := q.inspect(text, q.oldId).spans;
    if |spans| == 1 then Some(text[..Cut(text, spans[0].0)] + target + text[Cut(text, spans[0].1)..]) else None
  }

  /** None is the error that the reference changed under its path. */
  function ReplaceText(q: Query, text: string, target: string): Option<string> {
    if text == q.oldId then Some(target) else ReplaceLiteral(q, text, target)
  }

  /** The template parser found one literal, the old ID at position `at`. */
  predicate LiteralAt(q: Query, text: string, at: nat) {
    && q.inspect(text, q.oldId).spans == [(at, at + |q.oldId|)]
    && at + |q.oldId| <= |text| && text[at..at + |q.oldId|] == q.oldId
  }

  /** A replaced template has the target where the literal was, and every other character as before. */
  lemma TemplateIsSpliced(q: Query, text: string, target: string, at: nat)
    requires LiteralAt(q, text, at) && text != q.oldId
    ensures var r := ReplaceText(q, text, target);
            && r.Some? && |r.value| == |text| - |q.oldId| + |target|
            && (forall i :: 0 <= i < at ==> r.value[i] == text[i])
            && (forall i :: 0 <= i < |target| ==> r.value[at + i] == target[i])
            && (forall i :: at + |q.oldId| <= i < |text| ==> r.value[i - |q.oldId| + |target|] == text[i])
  {
  }

  /** Replacing the target by the old ID again, where the parser finds it, restores the template. */
  lemma TemplateRoundTrip(q: Query, back: Query, text: string, at: nat)
    requires LiteralAt(q, text, at) && text != q.oldId
    requires ReplaceText(q, text, back.oldId).Some? && ReplaceText(q, text, back.oldId).value != back.oldId
    requires LiteralAt(back, ReplaceText(q, text, back.oldId).value, at)
    ensures ReplaceText(back, ReplaceText(q, text, back.oldId).value, q.oldId) == Some(text)
  {
    var r := ReplaceText(q, text, back.oldId).value;
    assert r[..at] == text[..at] && r[at + |back.oldId|..] == text[at + |q.oldId|..];
    assert text == text[..at] + q.oldId + text[at + |q.oldId|..];
  }

  /** What a replacement yields: the new value, and how many references it replaced. */
  datatype Outcome<T> = Done(value: T, count: nat) | Changed

  function ReplaceValue(q: Query, target: string, paths: set<Path>, j: Json, path: Path): Outcome<Json>
    decreases j, 1, 0
  {
    match j
    case Obj(fields) =>
      (match ReplaceFields(q, target, paths, fields, |fields|, path)
       case Done(fs, n) => Done(Obj(fs), n)
       case Changed => Changed)
    case Arr(items) =>
      (match ReplaceItems(q, target, paths, items, |items|, path)
       case Done(js, n) => Done(Arr(js), n)
       case Changed => Changed)
    case Str(text) =>
      if path !in paths then Done(j, 0)
      else if ReplaceText(q, text, target) == None then Changed
      else Done(Str(ReplaceText(q, text, target).value), 1)
    case Scalar(_) => Done(j, 0)
  }

  function ReplaceFields(q: Query, target: string, paths: set<Path>, fields: seq<Field>, n: nat, path: Path)
    : Outcome<seq<Field>>
    requires n <= |fields|
    decreases fields, 0, n
  {
    if n == 0 then Done([], 0)
    else
      var f := fields[n - 1];
      var before := ReplaceFields(q, target, paths, fields, n - 1, path);
      var here := ReplaceValue(q, target, paths, f.value, path + [Key(f.key)]);
      if before.Done? && here.Done? then Done(before.value + [Field(f.key, here.value)], before.count + here.count)
      else Changed
  }

  function ReplaceItems(q: Query, target: string, paths: set<Path>, items: seq<Json>, n: nat, path: Path)
    : Outcome<seq<Json>>
    requires n <= |items|
    decreases items, 0, n
  {
    if n == 0 then Done([], 0)
    else
      var before := ReplaceItems(q, target, paths, items, n - 1, path);
      var here := ReplaceValue(q, target, paths, items[n - 1], path + [Index(n - 1)]);
      if before.Done? && here.Done? then Done(before.value + [here.value], before.count + here.count)
      else Changed
  }

  /** Scan, then replace at exactly the scanned paths. */
  ghost function Replace(q: Query, target: string, j: Json): Outcome<Json> {
    ReplaceValue(q, target, Elements(ScanRoot(q, j).paths), j, [])
  }

  /* ---------- what the replacement means ---------- */

  /** A mapping has each key once. */
  predicate WellFormed(j: Json) {
    match j
    case Obj(fields) =>
      && (forall a: nat, b: nat :: a < b < |fields| ==> fields[a].key != fields[b].key)
      && (forall i: nat :: i < |fields| ==> WellFormed(fields[i].value))
    case Arr(items) => forall i: nat :: i < |items| ==> WellFormed(items[i])
    case _ => true
  }

  /** Every text is rewritten on its own merits: replaced where it is approved, kept elsewhere. */
  function Rewritten(q: Query, target: string, j: Json, path: Path): Json {
    match j
    case Obj(fields) =>
      Obj(seq(|fields|, i requires 0 <= i < |fields| =>
                Field(fields[i].key, Rewritten(q, target, fields[i].value, path + [Key(fields[i].key)]))))
    case Arr(items) =>
      Arr(seq(|items|, i requires 0 <= i < |items| => Rewritten(q, target, items[i], path + [Index(i)])))
    case Str(text) =>
      if Judge(q, text, path).Replaceable? && ReplaceText(q, text, target).Some? then
        Str(ReplaceText(q, text, target).value)
      else j
    case Scalar(_) => j
  }

  /** The path set holds exactly the replaceable texts of the tree. */
  ghost predicate Agree(q: Query, paths: set<Path>, j: Json, path: Path) {
    match j
    case Obj(fields) => forall i: nat :: i < |fields| ==> Agree(q, paths, fields[i].value, path + [Key(fields[i].key)])
    case Arr(items) => forall i: nat :: i < |items| ==> Agree(q, paths, items[i], path + [Index(i)])
    case Str(text) => path in paths <==> Judge(q, text, path).Replaceable?
    case Scalar(_) => true
  }

  /* ---------- scanned paths ---------- */

  /** The path leads below `path` through `part`. */
  ghost predicate Through(p: Path, path: Path, part: Part) {
    |p| > |path| && path <= p && p[|path|] == part
  }

  lemma ThroughExtends(p: Path, path: Path, part: Part)
    ensures Through(p, path, part) <==> path + [part] <= p
  {
    if path + [part] <= p {
      assert p[..|path| + 1] == path + [part];
      assert p[..|path|] == path;
    }
    if Through(p, path, part) {
      assert p[..|path| + 1] == p[..|path|] + [p[|path|]];
    }
  }

  /** Every scanned path starts with the path of the value it was found in. */
  lemma {:induction false} PathsBelow(q: Query, j: Json, path: Path, p: Path)
    requires p in ScanValue(q, j, path).paths
    ensures path <= p
    decreases j, 1, 0
  {
    match j
    case Obj(fields) => var i := FieldOfPath(q, fields, |fields|, path, p);
    case Arr(items) => var i := ItemOfPath(q, items, |items|, path, p);
    case Str(text) =>
    case Scalar(_) =>
  }

  lemma {:induction false} FieldOfPath(q: Query, fields: seq<Field>, n: nat, path: Path, p: Path) returns (i: nat)
    requires n <= |fields| && p in ScanFields(q, fields, n, path).paths
    ensures i < n && p in ScanValue(q, fields[i].value, path + [Key(fields[i].key)]).paths
    ensures path <= p && Through(p, path, Key(fields[i].key))
    decreases fields, 0, n
  {
    hide Judge;
    var f := fields[n - 1];
    if p in ScanFields(q, fields, n - 1, path).paths {
      i := FieldOfPath(q, fields, n - 1, path, p);
    } else {
      i := n - 1;
      assert ScanKey(q, f.key, path).paths == [];
      PathsBelow(q, f.value, path + [Key(f.key)], p);
      ThroughExtends(p, path, Key(f.key));
    }
  }

  lemma {:induction false} ItemOfPath(q: Query, items: seq<Json>, n: nat, path: Path, p: Path) returns (i: nat)
    requires n <= |items| && p in ScanItems(q, items, n, path).paths
    ensures i < n && p in ScanValue(q, items[i], path + [Index(i)]).paths
    ensures path <= p && Through(p, path, Index(i))
    decreases items, 0, n
  {
    hide Judge;
    if p in ScanItems(q, items, n - 1, path).paths {
      i := ItemOfPath(q, items, n - 1, path, p);
    } else {
      i := n - 1;
      PathsBelow(q, items[n - 1], path + [Index(n - 1)], p);
      ThroughExtends(p, path, Index(n - 1));
    }
  }

  /** Conversely, what is found in one field or item is found by the whole scan. */
  lemma {:induction false} FieldIsScanned(q: Query, fields: seq<Field>, n: nat, path: Path, i: nat, p: Path)
    requires i < n <= |fields| && p in ScanValue(q, fields[i].value, path + [Key(fields[i].key)]).paths
    ensures p in ScanFields(q, fields, n, path).paths
    decreases n
  {
    hide Judge;
    if i < n - 1 {
      FieldIsScanned(q, fields, n - 1, path, i, p);
    }
  }

  lemma {:induction false} ItemIsScanned(q: Query, items: seq<Json>, n: nat, path: Path, i: nat, p: Path)
    requires i < n <= |items| && p in ScanValue(q, items[i], path + [Index(i)]).paths
    ensures p in ScanItems(q, items, n, path).paths
    decreases n
  {
    hide Judge;
    if i < n - 1 {
      ItemIsScanned(q, items, n - 1, path, i, p);
    }
  }

  /** At and below `path`, the set holds exactly what the scan of the value there finds. */
  ghost predicate HoldsScan(q: Query, paths: set<Path>, j: Json, path: Path) {
    forall p :: path <= p ==> (p in paths <==> p in ScanValue(q, j, path).paths)
  }

  lemma FieldHoldsScan(q: Query, paths: set<Path>, fields: seq<Field>, path: Path, i: nat)
    requires WellFormed(Obj(fields)) && i < |fields| && HoldsScan(q, paths, Obj(fields), path)
    ensures HoldsScan(q, paths, fields[i].value, path + [Key(fields[i].key)])
  {
    hide Judge;
    var part := Key(fields[i].key);
    forall p | path + [part] <= p
      ensures p in paths <==> p in ScanValue(q, fields[i].value, path + [part]).paths
    {
      ThroughExtends(p, path, part);
      if p in ScanFields(q, fields, |fields|, path).paths {
        var k := FieldOfPath(q, fields, |fields|, path, p);
        assert k == i;
      }
      if p in ScanValue(q, fields[i].value, path + [part]).paths {
        FieldIsScanned(q, fields, |fields|, path, i, p);
      }
    }
  }

  lemma ItemHoldsScan(q: Query, paths: set<Path>, items: seq<Json>, path: Path, i: nat)
    requires i < |items| && HoldsScan(q, paths, Arr(items), path)
    ensures HoldsScan(q, paths, items[i], path + [Index(i)])
  {
    hide Judge;
    forall p | path + [Index(i)] <= p
      ensures p in paths <==> p in ScanValue(q, items[i], path + [Index(i)]).paths
    {
      ThroughExtends(p, path, Index(i));
      if p in ScanItems(q, items, |items|, path).paths {
        var k := ItemOfPath(q, items, |items|, path, p);
        assert k == i;
      }
      if p in ScanValue(q, items[i], path + [Index(i)]).paths {
        ItemIsScanned(q, items, |items|, path, i, p);
      }
    }
  }

  /** Paths are unique in a tree, so a scanned path set tells every text apart. */
  lemma {:induction false} ScanAgrees(q: Query, paths: set<Path>, j: Json, path: Path)
    requires WellFormed(j) && HoldsScan(q, paths, j, path)
    ensures Agree(q, paths, j, path)
  {
    hide Judge, HoldsScan;
    match j
    case Obj(fields) =>
      forall i: nat | i < |fields| ensures Agree(q, paths, fields[i].value, path + [Key(fields[i].key)]) {
        FieldHoldsScan(q, paths, fields, path, i);
        ScanAgrees(q, paths, fields[i].value, path + [Key(fields[i].key)]);
      }
    case Arr(items) =>
      forall i: nat | i < |items| ensures Agree(q, paths, items[i], path + [Index(i)]) {
        ItemHoldsScan(q, paths, items, path, i);
        ScanAgrees(q, paths, items[i], path + [Index(i)]);
      }
    case Str(text) => TextHoldsScan(q, paths, text, path);
    case Scalar(_) =>
  }

  lemma TextHoldsScan(q: Query, paths: set<Path>, text: string, path: Path)
    requires HoldsScan(q, paths, Str(text), path)
    ensures path in paths <==> Judge(q, text, path).Replaceable?
  {
    hide Judge;
    assert path <= path;
  }

  /** A replaceable template has one call and one span, so its rewriting never fails. */
  lemma ReplaceableRewrites(q: Query, text: string, path: Path, target: string)
    requires Judge(q, text, path).Replaceable?
    ensures ReplaceText(q, text, target).Some?
  {
  }

  /* ---------- replacing is rewriting ---------- */

  lemma {:induction false} ReplaceRewrites(q: Query, target: string, paths: set<Path>, j: Json, path: Path)
    requires Agree(q, paths, j, path)
    ensures ReplaceValue(q, target, paths, j, path) ==
              Done(Rewritten(q, target, j, path), |ScanValue(q, j, path).paths|)
    decreases j, 1, 0
  {
    hide Judge, ReplaceText;
    match j
    case Obj(fields) =>
      ReplaceRewritesFields(q, target, paths, fields, |fields|, path);
      assert Rewritten(q, target, j, path).fields[..|fields|] == Rewritten(q, target, j, path).fields;
    case Arr(items) =>
      ReplaceRewritesItems(q, target, paths, items, |items|, path);
      assert Rewritten(q, target, j, path).items[..|items|] == Rewritten(q, target, j, path).items;
    case Str(text) =>
      if Judge(q, text, path).Replaceable? {
        ReplaceableRewrites(q, text, path, target);
      }
    case Scalar(_) =>
  }

  lemma {:induction false} ReplaceRewritesFields(q: Query, target: string, paths: set<Path>, fields: seq<Field>, n: nat,
                                                 path: Path)
    requires n <= |fields| && Agree(q, paths, Obj(fields), path)
    ensures ReplaceFields(q, target, paths, fields, n, path) ==
              Done(Rewritten(q, target, Obj(fields), path).fields[..n], |ScanFields(q, fields, n, path).paths|)
    decreases fields, 0, n
  {
    hide Judge, ReplaceText;
    if n > 0 {
      var f := fields[n - 1];
      ReplaceRewritesFields(q, target, paths, fields, n - 1, path);
      ReplaceRewrites(q, target, paths, f.value, path + [Key(f.key)]);
      var all := Rewritten(q, target, Obj(fields), path).fields;
      assert all[..n] == all[..n - 1] + [all[n - 1]];
      assert ScanKey(q, f.key, path).paths == [];
    }
  }

  lemma {:induction false} ReplaceRewritesItems(q: Query, target: string, paths: set<Path>, items: seq<Json>, n: nat,
                                                path: Path)
    requires n <= |items| && Agree(q, paths, Arr(items), path)
    ensures ReplaceItems(q, target, paths, items, n, path) ==
              Done(Rewritten(q, target, Arr(items), path).items[..n], |ScanItems(q, items, n, path).paths|)
    decreases items, 0, n
  {
    hide Judge, ReplaceText;
    if n > 0 {
      ReplaceRewritesItems(q, target, paths, items, n - 1, path);
      ReplaceRewrites(q, target, paths, items[n - 1], path + [Index(n - 1)]);
      var all := Rewritten(q, target, Arr(items), path).items;
      assert all[..n] == all[..n - 1] + [all[n - 1]];
    }
  }

  /**
   * Replacing by path set never fails, rewrites every text exactly on its own merits, and counts
   * one replacement per scanned path.
   */
  lemma ReplaceIsRewriting(q: Query, target: string, j: Json)
    requires WellFormed(j)
    ensures Replace(q, target, j) == Done(Rewritten(q, target, j, []), |ScanRoot(q, j).paths|)
  {
    hide Judge;
    ScanAgrees(q, Elements(ScanRoot(q, j).paths), j, []);
    ReplaceRewrites(q, target, Elements(ScanRoot(q, j).paths), j, []);
  }

  /* ---------- what replacement keeps ---------- */

  /** Same shape and same keys, and the same value wherever the path set says nothing. */
  ghost predicate KeepsElsewhere(paths: set<Path>, j: Json, r: Json, path: Path) {
    match j
    case Obj(fields) =>
      && r.Obj? && |r.fields| == |fields|
      && (forall i: nat :: i < |fields| ==> r.fields[i].key == fields[i].key)
      && (forall i: nat :: i < |fields| ==>
           KeepsElsewhere(paths, fields[i].value, r.fields[i].value, path + [Key(fields[i].key)]))
    case Arr(items) =>
      && r.Arr? && |r.items| == |items|
      && (forall i: nat :: i < |items| ==> KeepsElsewhere(paths, items[i], r.items[i], path + [Index(i)]))
    case Str(text) => r.Str? && (path !in paths ==> r == j)
    case Scalar(_) => r == j
  }

  lemma {:induction false} RewritingKeeps(q: Query, target: string, paths: set<Path>, j: Json, path: Path)
    requires Agree(q, paths, j, path)
    ensures KeepsElsewhere(paths, j, Rewritten(q, target, j, path), path)
  {
    hide Judge, ReplaceText;
    match j
    case Obj(fields) =>
      forall i: nat | i < |fields|
        ensures KeepsElsewhere(paths, fields[i].value, Rewritten(q, target, j, path).fields[i].value,
                               path + [Key(fields[i].key)])
      {
        RewritingKeeps(q, target, paths, fields[i].value, path + [Key(fields[i].key)]);
      }
    case Arr(items) =>
      forall i: nat | i < |items|
        ensures KeepsElsewhere(paths, items[i], Rewritten(q, target, j, path).items[i], path + [Index(i)])
      {
        RewritingKeeps(q, target, paths, items[i], path + [Index(i)]);
      }
    case Str(_) =>
    case Scalar(_) =>
  }

  /** Replacement keeps the shape, every key, and every value outside the approved paths. */
  lemma ReplaceKeepsElsewhere(q: Query, target: string, j: Json)
    requires WellFormed(j)
    ensures Replace(q, target, j).Done?
    ensures KeepsElsewhere(Elements(ScanRoot(q, j).paths), j, Replace(q, target, j).value, [])
  {
    hide Judge;
    ReplaceIsRewriting(q, target, j);
    ScanAgrees(q, Elements(ScanRoot(q, j).paths), j, []);
    RewritingKeeps(q, target, Elements(ScanRoot(q, j).paths), j, []);
  }

  /** A tree in which the scan finds nothing to replace is left as it is. */
  lemma {:induction false} NothingToRewrite(q: Query, target: string, j: Json, path: Path)
    requires ScanValue(q, j, path).paths == []
    ensures Rewritten(q, target, j, path) == j
  {
    hide Judge, ReplaceText;
    match j
    case Obj(fields) =>
      forall i: nat | i < |fields|
        ensures Rewritten(q, target, fields[i].value, path + [Key(fields[i].key)]) == fields[i].value
      {
        var found := ScanValue(q, fields[i].value, path + [Key(fields[i].key)]).paths;
        if found != [] {
          FieldIsScanned(q, fields, |fields|, path, i, found[0]);
        }
        NothingToRewrite(q, target, fields[i].value, path + [Key(fields[i].key)]);
      }
      assert Rewritten(q, target, j, path).fields == fields;
    case Arr(items) =>
      forall i: nat | i < |items| ensures Rewritten(q, target, items[i], path + [Index(i)]) == items[i] {
        var found := ScanValue(q, items[i], path + [Index(i)]).paths;
        if found != [] {
          ItemIsScanned(q, items, |items|, path, i, found[0]);
        }
        NothingToRewrite(q, target, items[i], path + [Index(i)]);
      }
      assert Rewritten(q, target, j, path).items == items;
    case Str(_) =>
    case Scalar(_) =>
  }

  /* ---------- scanning the result ---------- */

  predicate TemplateFree(j: Json) {
    match j
    case Obj(fields) => forall i: nat :: i < |fields| ==> TemplateFree(fields[i].value)
    case Arr(items) => forall i: nat :: i < |items| ==> TemplateFree(items[i])
    case Str(text) => !IsTemplate(text)
    case Scalar(_) => true
  }

  /** A text that no scan for `id` reports, wherever it stands. */
  predicate Mentions(text: string, id: string) {
    text == id || ContainsEntity(text, id)
  }

  /**
   * Without templates and blocked occurrences, a rescan reports exactly the replaced paths, if the
   * target mentions the entity.
   */
  lemma {:induction false} RescanFindsTargets(q: Query, target: string, j: Json, path: Path)
    requires TemplateFree(j) && !IsTemplate(target) && ScanValue(q, j, path).blocked == []
    ensures var s := ScanValue(q, Rewritten(q, target, j, path), path);
            (s == NOTHING <==> ScanValue(q, j, path).paths == [] || !Mentions(target, q.oldId))
    decreases j, 1, 0
  {
    match j
    case Obj(fields) => RescanFields(q, target, fields, |fields|, path);
    case Arr(items) => RescanItems(q, target, items, |items|, path);
    case Str(text) =>
    case Scalar(_) =>
  }

  lemma {:induction false} RescanFields(q: Query, target: string, fields: seq<Field>, n: nat, path: Path)
    requires n <= |fields| && TemplateFree(Obj(fields)) && !IsTemplate(target)
    requires ScanFields(q, fields, n, path).blocked == []
    ensures var s := ScanFields(q, Rewritten(q, target, Obj(fields), path).fields, n, path);
            (s == NOTHING <==> ScanFields(q, fields, n, path).paths == [] || !Mentions(target, q.oldId))
    decreases fields, 0, n
  {
    hide Judge, ReplaceText, Mentions;
    if n > 0 {
      var f := fields[n - 1];
      RescanFields(q, target, fields, n - 1, path);
      RescanFindsTargets(q, target, f.value, path + [Key(f.key)]);
    }
  }

  lemma {:induction false} RescanItems(q: Query, target: string, items: seq<Json>, n: nat, path: Path)
    requires n <= |items| && TemplateFree(Arr(items)) && !IsTemplate(target)
    requires ScanItems(q, items, n, path).blocked == []
    ensures var s := ScanItems(q, Rewritten(q, target, Arr(items), path).items, n, path);
            (s == NOTHING <==> ScanItems(q, items, n, path).paths == [] || !Mentions(target, q.oldId))
    decreases items, 0, n
  {
    hide Judge, ReplaceText, Mentions;
    if n > 0 {
      RescanItems(q, target, items, n - 1, path);
      RescanFindsTargets(q, target, items[n - 1], path + [Index(n - 1)]);
    }
  }

  lemma EntityChars(s: string, dot: nat)
    requires EntityAt(s, dot)
    ensures forall i: nat :: i < |s| && i != dot ==> WordChar(s[i])
    ensures !WordChar(s[dot])
  {
    forall i: nat | i < |s| && i != dot ensures WordChar(s[i]) {
      if i < dot {
        assert s[i] == s[..dot][i];
      } else {
        assert s[i] == s[dot + 1..][i - dot - 1];
      }
    }
  }

  /** Between entity IDs, containing one as a whole token is being it; and no entity ID is a template. */
  lemma EntityMentionsOnlyItself(target: string, id: string)
    requires IsEntity(target) && IsEntity(id)
    ensures Mentions(target, id) <==> target == id
    ensures !IsTemplate(target)
  {
    var d: nat :| d < |target| && EntityAt(target, d);
    var e: nat :| e < |id| && EntityAt(id, e);
    EntityChars(target, d);
    EntityChars(id, e);
    forall i: nat | i < |target| && TokenAt(target, id, i) ensures target == id {
      assert target[i + e] == target[i..i + |id|][e];
      assert i + e == d;
      assert i == 0;
      assert |id| == |target|;
      assert target[0..|target|] == target;
    }
    forall i: nat | i < |target| ensures !HasAt(target, "{{", i) && !HasAt(target, "{%", i) {
      MarkerNeedsItsStart(target, "{{", i);
      MarkerNeedsItsStart(target, "{%", i);
    }
  }

  lemma MarkerNeedsItsStart(text: string, marker: string, i: nat)
    requires i < |text| && marker != "" && text[i] != marker[0]
    ensures !HasAt(text, marker, i)
  {
    if i + |marker| <= |text| {
      assert text[i..i + |marker|][0] == text[i];
    }
  }

  /**
   * After replacing in a template-free tree without blocked occurrences, a rescan is clean exactly when
   * nothing was replaced or the target does not mention the entity.
   */
  lemma RescanIsCleanExactlyWhen(q: Query, target: string, j: Json)
    requires WellFormed(j) && TemplateFree(j) && !IsTemplate(target) && ScanRoot(q, j).blocked == []
    ensures Replace(q, target, j).Done?
    ensures ScanRoot(q, Replace(q, target, j).value) == NOTHING <==>
              ScanRoot(q, j).paths == [] || !Mentions(target, q.oldId)
  {
    ReplaceIsRewriting(q, target, j);
    RescanFindsTargets(q, target, j, []);
  }

  /** With two different entity IDs the rescan finds nothing. */
  lemma RescanFindsNothing(q: Query, target: string, j: Json)
    requires WellFormed(j) && TemplateFree(j) && ScanRoot(q, j).blocked == []
    requires IsEntity(q.oldId) && IsEntity(target) && target != q.oldId
    ensures Replace(q, target, j).Done? && ScanRoot(q, Replace(q, target, j).value) == NOTHING
  {
    EntityMentionsOnlyItself(target, q.oldId);
    RescanIsCleanExactlyWhen(q, target, j);
  }

  /* ---------- the walkers ---------- */

  /** The scan as it runs: a recursive walk that appends to two lists. */
  class Scanner {
    const query: Query
    var approved: seq<Path>
    var blocked: seq<Blocked>

    constructor (query: Query)
      ensures this.query == query && approved == [] && blocked == []
    {
      this.query := query;
      approved, blocked := [], [];
    }

    function Found(): Scan
      reads this
    {
      Scan(approved, blocked)
    }

    method Walk(value: Json, path: Path)
      modifies this
      ensures Found() == Join(old(Found()), ScanValue(query, value, path))
      decreases value, 1
    {
      match value {
        case Obj(fields) => WalkFields(fields, path);
        case Arr(items) => WalkItems(items, path);
        case Str(text) => WalkText(text, path);
        case Scalar(_) =>
      }
    }

    method WalkFields(fields: seq<Field>, path: Path)
      modifies this
      ensures Found() == Join(old(Found()), ScanFields(query, fields, |fields|, path))
      decreases fields, 0
    {
      hide ScanValue, ContainsEntity;
      var i := 0;
      while i < |fields|
        invariant i <= |fields| && Found() == Join(old(Found()), ScanFields(query, fields, i, path))
      {
        var f := fields[i];
        if ContainsEntity(f.key, query.oldId) {
          blocked := blocked + [Blocked(path + [Key(f.key)], f.key, true)];
        }
        Walk(f.value, path + [Key(f.key)]);
        i := i + 1;
      }
    }

    method WalkItems(items: seq<Json>, path: Path)
      modifies this
      ensures Found() == Join(old(Found()), ScanItems(query, items, |items|, path))
      decreases items, 0
    {
      hide ScanValue;
      var i := 0;
      while i < |items|
        invariant i <= |items| && Found() == Join(old(Found()), ScanItems(query, items, i, path))
      {
        Walk(items[i], path + [Index(i)]);
        i := i + 1;
      }
    }

    method WalkText(text: string, path: Path)
      modifies this
      ensures Found() == Join(old(Found()), ScanText(query, text, path))
    {
      var verdict := Judge(query, text, path);
      if verdict.Replaceable? {
        approved := approved + [path];
      } else if verdict.Refused? {
        blocked := blocked + [Blocked(path, text, false)];
      }
    }
  }

  /** The replacement as it runs: a recursive copy with a counter shared by all levels. */
  class Replacer {
    const query: Query
    const target: string
    const paths: set<Path>
    var count: nat

    constructor (query: Query, target: string, paths: set<Path>)
      ensures this.query == query && this.target == target && this.paths == paths && count == 0
    {
      this.query, this.target, this.paths := query, target, paths;
      count := 0;
    }

    method ReplaceAt(value: Json, path: Path) returns (r: Option<Json>)
      modifies this
      ensures var spec := ReplaceValue(query, target, paths, value, path);
              && (r.Some? <==> spec.Done?)
              && (r.Some? ==> r.value == spec.value && count == old(count) + spec.count)
      decreases value
    {
      hide ReplaceText;
      match value {
        case Obj(fields) =>
          var replaced, i := [], 0;
          while i < |fields|
            invariant i <= |fields|
            invariant var spec := ReplaceFields(query, target, paths, fields, i, path);
                      spec.Done? && replaced == spec.value && count == old(count) + spec.count
          {
            var item := ReplaceAt(fields[i].value, path + [Key(fields[i].key)]);
            if item == None {
              FieldsStayChanged(query, target, paths, fields, i + 1, |fields|, path);
              return None;
            }
            replaced := replaced + [Field(fields[i].key, item.value)];
            i := i + 1;
          }
          return Some(Obj(replaced));
        case Arr(items) =>
          var replaced, i := [], 0;
          while i < |items|
            invariant i <= |items|
            invariant var spec := ReplaceItems(query, target, paths, items, i, path);
                      spec.Done? && replaced == spec.value && count == old(count) + spec.count
          {
            var item := ReplaceAt(items[i], path + [Index(i)]);
            if item == None {
              ItemsStayChanged(query, target, paths, items, i + 1, |items|, path);
              return None;
            }
            replaced := replaced + [item.value];
            i := i + 1;
          }
          return Some(Arr(replaced));
        case Str(text) =>
          if path !in paths {
            return Some(value);
          }
          var text' := ReplaceText(query, text, target);
          if text' == None {
            return None;
          }
          count := count + 1;
          return Some(Str(text'.value));
        case Scalar(_) => return Some(value);
      }
    }
  }

  lemma {:induction false} FieldsStayChanged(q: Query, target: string, paths: set<Path>, fields: seq<Field>, m: nat,
                                             n: nat, path: Path)
    requires m <= n <= |fields| && ReplaceFields(q, target, paths, fields, m, path).Changed?
    ensures ReplaceFields(q, target, paths, fields, n, path).Changed?
  {
    if m < n {
      FieldsStayChanged(q, target, paths, fields, m, n - 1, path);
    }
  }

  lemma {:induction false} ItemsStayChanged(q: Query, target: string, paths: set<Path>, items: seq<Json>, m: nat,
                                            n: nat, path: Path)
    requires m <= n <= |items| && ReplaceItems(q, target, paths, items, m, path).Changed?
    ensures ReplaceItems(q, target, paths, items, n, path).Changed?
  {
    if m < n {
      ItemsStayChanged(q, target, paths, items, m, n - 1, path);
    }
  }

  /** The two walks together: scan, then replace at the paths found. */
  method ReplaceSemanticReferences(query: Query, target: string, payload: Json) returns (r: Option<Json>, count: nat)
    requires WellFormed(payload)
    ensures r == Some(Rewritten(query, target, payload, [])) && count == |ScanRoot(query, payload).paths|
  {
    var scanner := new Scanner(query);
    scanner.Walk(payload, []);
    var paths := set p | p in scanner.approved;
    assert scanner.Found() == ScanRoot(query, payload);
    assert paths == Elements(ScanRoot(query, payload).paths);
    ReplaceIsRewriting(query, target, payload);
    var replacer := new Replacer(query, target, paths);
    r := replacer.ReplaceAt(payload, []);
    count := replacer.count;
  }
}
