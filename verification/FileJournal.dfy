/**
 * The crash-durable file journal: one directory holding a final file and a temporary file, a
 * process that owns the lifetime lock, and a storage device that may lose whatever was not synced.
 *
 * A run is a sequence of events, one per boundary a crash can fall between; an event that is not
 * enabled changes nothing.  A process crash keeps what the kernel holds; a power cut keeps one of
 * the directory versions since the last directory sync and the bytes of synced files.
 */
module FileJournal {
  import opened Basics

  /** What the canonical JSON of a root decodes to; the encoding is injective. */
  datatype Root = Root(generation: nat, payload: int)

  /** The bytes of a file: the canonical encoding of a root, or bytes the decoder refuses. */
  datatype Content = Canonical(root: Root) | Junk(id: nat)

  datatype File = File(content: Content, synced: bool)

  /** The inodes the two names are bound to. */
  datatype Dir = Dir(final: Option<nat>, temp: Option<nat>)

  /** `dir` is what processes see; a power cut leaves some member of `durable`. */
  datatype Fs = Fs(files: seq<File>, dir: Dir, durable: set<Dir>)

  datatype Snapshot = Absent | Present(root: Root, inode: nat)

  datatype Stamp = Stamp(snapshot: Snapshot, sequence: nat)

  datatype Poison = Healthy | Plain | Ambiguous

  /** How far a save has come once its temporary file exists. */
  datatype SavePoint =
    | Created | Written | TempSynced | TempChecked
    | Replacing | Renamed | Verified | DirSynced | Reopened

  datatype Stage =
    | Locked | Flushed | Unlinked
    | Ready
    | Compared(root: Root)
    | Saving(root: Root, fd: nat, at: SavePoint)
    | BarrierRead | BarrierSynced

  datatype Store = Store(
    stage: Stage,
    snapshot: Option<Snapshot>,
    saveReady: bool,
    stamp: Option<Stamp>,
    sequence: nat,
    poison: Poison)

  /** `acks` lists, oldest first, what every load returned and every returned save wrote. */
  datatype Sys = Sys(fs: Fs, process: Option<Store>, acks: seq<Option<Root>>)

  datatype Event =
    | AcquireLock | FlushOpen | RemoveStaleTemp | FlushStaleTemp
    | Load | FailLoad
    | BeginSave(root: Root, encodable: bool)
    | CreateTemp | WriteSome(bytes: Content) | WriteAll | SyncTemp | CheckTemp
    | AttemptReplace | Rename | VerifyReplaced | SyncCommit | Reopen | Commit
    | BeginBarrier | SyncBarrier | FinishBarrier
    | Raise
    | Close | Crash | PowerCut(dir: Dir, torn: seq<Content>)

  /* ---------- the filesystem ---------- */

  function SyncDir(fs: Fs): Fs {
    fs.(durable := {fs.dir})
  }

  function Rebind(fs: Fs, dir: Dir): Fs {
    fs.(dir := dir, durable := fs.durable + {dir})
  }

  function NewTemp(fs: Fs): Fs {
    Rebind(fs.(files := fs.files + [File(Junk(0), false)]), fs.dir.(temp := Some(|fs.files|)))
  }

  function Store0(): Store {
    Store(Locked, None, false, None, 0, Healthy)
  }

  function WriteFile(fs: Fs, fd: nat, bytes: Content): Fs
    requires fd < |fs.files|
  {
    fs.(files := fs.files[fd := File(bytes, false)])
  }

  function SyncFile(fs: Fs, fd: nat): Fs
    requires fd < |fs.files|
  {
    fs.(files := fs.files[fd := fs.files[fd].(synced := true)])
  }

  /** Unsynced files come back with whatever bytes reached the device. */
  function AfterPowerCut(fs: Fs, dir: Dir, torn: seq<Content>): Fs {
    Fs(seq(|fs.files|, i requires 0 <= i < |fs.files| =>
             if fs.files[i].synced then fs.files[i]
             else File(if i < |torn| then torn[i] else Junk(0), true)),
       dir, {dir})
  }

  /** What reading the final name of `dir` finds; None when the bytes are refused. */
  function ReadAt(fs: Fs, dir: Dir): Option<Snapshot> {
    match dir.final
    case None => Some(Absent)
    case Some(i) =>
      if i < |fs.files| && fs.files[i].content.Canonical? then Some(Present(fs.files[i].content.root, i)) else None
  }

  function Read(fs: Fs): Option<Snapshot> {
    ReadAt(fs, fs.dir)
  }

  function RootOf(snapshot: Snapshot): Option<Root> {
    match snapshot
    case Absent => None
    case Present(root, _) => Some(root)
  }

  /** The generation a store expects next: one more than the snapshot, or zero. */
  function NextGeneration(root: Option<Root>): nat {
    match root
    case None => 0
    case Some(r) => r.generation + 1
  }

  /* ---------- the store ---------- */

  predicate Usable(p: Store) {
    p.stage == Ready && p.poison == Healthy
  }

  predicate MayLoad(p: Store) {
    Usable(p) && p.stamp == None
  }

  predicate MaySave(p: Store) {
    Usable(p) && p.stamp == None && p.saveReady && p.snapshot.Some?
  }

  predicate MayBarrier(p: Store) {
    Usable(p) && p.stamp.Some? && p.stamp.value.sequence == p.sequence
  }

  /** The error is reported as ambiguous once a replacement was attempted. */
  predicate ReplaceAttempted(at: SavePoint) {
    at.Replacing? || at.Renamed? || at.Verified? || at.DirSynced? || at.Reopened?
  }

  function Poisoned(p: Store): Store {
    match p.stage
    case Saving(_, _, at) => p.(stage := Ready, poison := if ReplaceAttempted(at) then Ambiguous else Plain)
    case BarrierRead => p.(stage := Ready, poison := Ambiguous)
    case BarrierSynced => p.(stage := Ready, poison := Ambiguous)
    case _ => p.(stage := Ready, poison := Plain)
  }

  predicate Opening(p: Store) {
    p.stage.Locked? || p.stage.Flushed? || p.stage.Unlinked?
  }

  function With(s: Sys, fs: Fs, p: Store): Sys {
    s.(fs := fs, process := Some(p))
  }

  /** An exception between two boundaries: an opener gives up the lock, an operation poisons. */
  function Raised(s: Sys, p: Store): Sys {
    if Opening(p) then s.(process := None)
    else if p.stage == Ready then s
    else s.(process := Some(Poisoned(p)))
  }

  function LoadStep(s: Sys, p: Store): Sys {
    if !MayLoad(p) then s
    else
      var loaded := Read(s.fs);
      if loaded == None then s.(process := Some(Poisoned(p)))
      else s.(process := Some(p.(sequence := p.sequence + 1, snapshot := loaded, saveReady := true)),
              acks := s.acks + [RootOf(loaded.value)])
  }

  function BeginSaveStep(s: Sys, p: Store, root: Root, encodable: bool): Sys {
    if !MaySave(p) then s
    else if encodable && root.generation == NextGeneration(RootOf(p.snapshot.value)) && Read(s.fs) == p.snapshot then
      s.(process := Some(p.(stage := Compared(root))))
    else s.(process := Some(Poisoned(p)))
  }

  function CreateTempStep(s: Sys, p: Store): Sys {
    if !p.stage.Compared? then s
    else if s.fs.dir.temp.Some? then s.(process := Some(Poisoned(p)))
    else With(s, NewTemp(s.fs), p.(stage := Saving(p.stage.root, |s.fs.files|, Created)))
  }

  function Reach(p: Store, at: SavePoint): Store
    requires p.stage.Saving?
  {
    p.(stage := p.stage.(at := at))
  }

  predicate AtPoint(s: Sys, p: Store, at: SavePoint) {
    p.stage.Saving? && p.stage.at == at && p.stage.fd < |s.fs.files|
  }

  /** The final name reads back as exactly the temporary inode with the candidate's bytes. */
  predicate ReadsCandidate(fs: Fs, root: Root, fd: nat) {
    Read(fs) == Some(Present(root, fd))
  }

  function CheckTempStep(s: Sys, p: Store): Sys
    requires AtPoint(s, p, TempSynced)
  {
    var fd := p.stage.fd;
    if s.fs.files[fd].content == Canonical(p.stage.root) && s.fs.dir.temp == Some(fd) then
      s.(process := Some(Reach(p, TempChecked)))
    else s.(process := Some(Poisoned(p)))
  }

  function RenameStep(s: Sys, p: Store): Sys
    requires AtPoint(s, p, Replacing)
  {
    if s.fs.dir.temp.Some? then With(s, Rebind(s.fs, Dir(s.fs.dir.temp, None)), Reach(p, Renamed))
    else s.(process := Some(Poisoned(p)))
  }

  function VerifyStep(s: Sys, p: Store, next: SavePoint): Sys
    requires p.stage.Saving?
  {
    if ReadsCandidate(s.fs, p.stage.root, p.stage.fd) then s.(process := Some(Reach(p, next)))
    else s.(process := Some(Poisoned(p)))
  }

  function CommitStep(s: Sys, p: Store): Sys
    requires p.stage.Saving?
  {
    var snapshot := Present(p.stage.root, p.stage.fd);
    var p' := Store(Ready, Some(snapshot), false, Some(Stamp(snapshot, p.sequence + 1)), p.sequence + 1, p.poison);
    s.(process := Some(p'), acks := s.acks + [Some(p.stage.root)])
  }

  function BarrierStep(s: Sys, p: Store, next: Store): Sys {
    if p.stamp.Some? && Read(s.fs) == Some(p.stamp.value.snapshot) then s.(process := Some(next))
    else s.(process := Some(p.(stage := Ready, poison := Ambiguous)))
  }

  function OpenStep(s: Sys, p: Store, e: Event): Sys {
    match e
    case FlushOpen => if p.stage == Locked then With(s, SyncDir(s.fs), p.(stage := Flushed)) else s
    case RemoveStaleTemp =>
      if p.stage != Flushed then s
      else if s.fs.dir.temp == None then s.(process := Some(p.(stage := Ready)))
      else With(s, Rebind(s.fs, s.fs.dir.(temp := None)), p.(stage := Unlinked))
    case FlushStaleTemp => if p.stage == Unlinked then With(s, SyncDir(s.fs), p.(stage := Ready)) else s
    case _ => s
  }

  function TempStep(s: Sys, p: Store, e: Event): Sys {
    match e
    case BeginSave(root, encodable) => BeginSaveStep(s, p, root, encodable)
    case CreateTemp => CreateTempStep(s, p)
    case WriteSome(bytes) => if AtPoint(s, p, Created) then s.(fs := WriteFile(s.fs, p.stage.fd, bytes)) else s
    case WriteAll =>
      if AtPoint(s, p, Created) then
        With(s, WriteFile(s.fs, p.stage.fd, Canonical(p.stage.root)), Reach(p, Written))
      else s
    case SyncTemp =>
      if AtPoint(s, p, Written) then With(s, SyncFile(s.fs, p.stage.fd), Reach(p, TempSynced)) else s
    case CheckTemp => if AtPoint(s, p, TempSynced) then CheckTempStep(s, p) else s
    case _ => s
  }

  function ReplaceStep(s: Sys, p: Store, e: Event): Sys {
    match e
    case AttemptReplace => if AtPoint(s, p, TempChecked) then s.(process := Some(Reach(p, Replacing))) else s
    case Rename => if AtPoint(s, p, Replacing) then RenameStep(s, p) else s
    case VerifyReplaced => if AtPoint(s, p, Renamed) then VerifyStep(s, p, Verified) else s
    case SyncCommit => if AtPoint(s, p, Verified) then With(s, SyncDir(s.fs), Reach(p, DirSynced)) else s
    case Reopen => if AtPoint(s, p, DirSynced) then VerifyStep(s, p, Reopened) else s
    case Commit => if AtPoint(s, p, Reopened) then CommitStep(s, p) else s
    case _ => s
  }

  /** The steps of a load, a barrier, an exception or a close. */
  function OtherStep(s: Sys, p: Store, e: Event): Sys {
    match e
    case Load => LoadStep(s, p)
    case FailLoad => if MayLoad(p) then s.(process := Some(Poisoned(p))) else s
    case BeginBarrier => if MayBarrier(p) then BarrierStep(s, p, p.(stage := BarrierRead)) else s
    case SyncBarrier =>
      if p.stage == BarrierRead then With(s, SyncDir(s.fs), p.(stage := BarrierSynced)) else s
    case FinishBarrier =>
      if p.stage == BarrierSynced then
        BarrierStep(s, p, p.(stage := Ready, sequence := p.sequence + 1, stamp := None))
      else s
    case Raise => Raised(s, p)
    case Close => if p.stage == Ready then s.(process := None) else s
    case _ => s
  }

  function StoreStep(s: Sys, p: Store, e: Event): Sys {
    match e
    case FlushOpen => OpenStep(s, p, e)
    case RemoveStaleTemp => OpenStep(s, p, e)
    case FlushStaleTemp => OpenStep(s, p, e)
    case BeginSave(_, _) => TempStep(s, p, e)
    case CreateTemp => TempStep(s, p, e)
    case WriteSome(_) => TempStep(s, p, e)
    case WriteAll => TempStep(s, p, e)
    case SyncTemp => TempStep(s, p, e)
    case CheckTemp => TempStep(s, p, e)
    case AttemptReplace => ReplaceStep(s, p, e)
    case Rename => ReplaceStep(s, p, e)
    case VerifyReplaced => ReplaceStep(s, p, e)
    case SyncCommit => ReplaceStep(s, p, e)
    case Reopen => ReplaceStep(s, p, e)
    case Commit => ReplaceStep(s, p, e)
    case _ => OtherStep(s, p, e)
  }

  /** One event; only the lock holder acts, and a second opener is turned away. */
  function Step(s: Sys, e: Event): Sys {
    match e
    case AcquireLock => if s.process == None then s.(process := Some(Store0())) else s
    case Crash => s.(process := None)
    case PowerCut(dir, torn) =>
      if dir in s.fs.durable then Sys(AfterPowerCut(s.fs, dir, torn), None, s.acks) else s
    case _ => if s.process.Some? then StoreStep(s, s.process.value, e) else s
  }

  function RunFrom(s: Sys, events: seq<Event>): Sys {
    if events == [] then s else Step(RunFrom(s, events[..|events| - 1]), events[|events| - 1])
  }

  /** The final and temporary files a deployment may start with; both are on the device. */
  function Initial(final: Option<Content>, temp: Option<Content>): Sys {
    var dir := Dir(if final.Some? then Some(0) else None, if temp.Some? then Some(1) else None);
    var files := [File(if final.Some? then final.value else Junk(0), true),
                  File(if temp.Some? then temp.value else Junk(0), true)];
    Sys(Fs(files, dir, {dir}), None, [])
  }

  /* ---------- the invariant ---------- */

  /** Whatever a power cut leaves names only synced final files. */
  ghost predicate DirOk(fs: Fs, d: Dir) {
    && (d.final.Some? ==> d.final.value < |fs.files| && fs.files[d.final.value].synced)
    && (d.temp.Some? ==> d.temp.value < |fs.files| && d.temp != d.final)
  }

  ghost predicate DiskOk(fs: Fs) {
    fs.dir in fs.durable && forall d :: d in fs.durable ==> DirOk(fs, d)
  }

  /** A power cut would leave the final name as it is now. */
  ghost predicate Settled(fs: Fs) {
    forall d :: d in fs.durable ==> d.final == fs.dir.final
  }

  /** The same root again, or a root of the next generation. */
  ghost predicate Successive(a: Option<Root>, b: Option<Root>) {
    b == a || (b.Some? && b.value.generation == NextGeneration(a))
  }

  ghost predicate Fits(fs: Fs, d: Dir, last: Option<Root>) {
    ReadAt(fs, d).Some? && Successive(last, RootOf(ReadAt(fs, d).value))
  }

  ghost predicate AcksOk(s: Sys) {
    && (forall i: nat :: i + 1 < |s.acks| ==> Successive(s.acks[i], s.acks[i + 1]))
    && (s.acks != [] ==> forall d :: d in s.fs.durable ==> Fits(s.fs, d, Last(s)))
  }

  ghost function Last(s: Sys): Option<Root>
    requires s.acks != []
  {
    s.acks[|s.acks| - 1]
  }

  /** The store's snapshot is what the final name holds, now and after any power cut. */
  ghost predicate Current(s: Sys, p: Store) {
    && p.snapshot.Some? && Settled(s.fs) && Read(s.fs) == p.snapshot
    && s.acks != [] && Last(s) == RootOf(p.snapshot.value)
  }

  ghost predicate Fresh(p: Store) {
    p.snapshot == None && !p.saveReady && p.stamp == None && p.poison == Healthy
  }

  ghost predicate ReadyOk(s: Sys, p: Store) {
    && (p.poison != Ambiguous ==> Settled(s.fs))
    && (p.poison == Healthy ==> s.fs.dir.temp == None)
    && (p.saveReady ==> p.stamp == None)
    && (p.saveReady && p.poison != Ambiguous ==> Current(s, p))
    && (p.stamp.Some? ==>
          Current(s, p) && p.stamp.value == Stamp(p.snapshot.value, p.sequence))
  }

  /** A save under way started from the snapshot, and its candidate is the next generation. */
  ghost predicate Attempting(s: Sys, p: Store, root: Root) {
    && p.poison == Healthy && p.stamp == None && p.saveReady && p.snapshot.Some?
    && s.acks != [] && Last(s) == RootOf(p.snapshot.value)
    && root.generation == NextGeneration(RootOf(p.snapshot.value))
  }

  ghost predicate BeforeRename(s: Sys, p: Store, root: Root, fd: nat, at: SavePoint) {
    && Current(s, p) && s.fs.dir.temp == Some(fd) && fd < |s.fs.files|
    && (at != Created ==> s.fs.files[fd].content == Canonical(root))
    && (at != Created && at != Written ==> s.fs.files[fd].synced)
  }

  /** The new final file is complete; a power cut leaves it or what was there before. */
  ghost predicate AfterRename(s: Sys, p: Store, root: Root, fd: nat, at: SavePoint) {
    && s.fs.dir == Dir(Some(fd), None) && fd < |s.fs.files|
    && s.fs.files[fd] == File(Canonical(root), true)
    && (forall d :: d in s.fs.durable ==> d.final == Some(fd) || ReadAt(s.fs, d) == p.snapshot)
    && (at == DirSynced || at == Reopened ==> s.fs.durable == {s.fs.dir})
  }

  predicate Renaming(at: SavePoint) {
    at.Renamed? || at.Verified? || at.DirSynced? || at.Reopened?
  }

  ghost predicate StoreOk(s: Sys, p: Store) {
    match p.stage
    case Locked => Fresh(p)
    case Flushed => Fresh(p) && Settled(s.fs)
    case Unlinked => Fresh(p) && Settled(s.fs) && s.fs.dir.temp == None
    case Ready => ReadyOk(s, p)
    case Compared(root) => Attempting(s, p, root) && Current(s, p) && s.fs.dir.temp == None
    case Saving(root, fd, at) =>
      && Attempting(s, p, root)
      && if Renaming(at) then AfterRename(s, p, root, fd, at) else BeforeRename(s, p, root, fd, at)
    case _ => p.stamp.Some? && p.poison == Healthy && ReadyOk(s, p)
  }

  ghost predicate Sound(s: Sys) {
    DiskOk(s.fs) && AcksOk(s) && (s.process.Some? ==> StoreOk(s, s.process.value))
  }

  /* ---------- every step keeps it ---------- */

  lemma FlushKeepsSound(s: Sys, p: Store, next: Stage)
    requires Sound(s) && s.process == Some(p)
    requires (p.stage == Locked && next == Flushed) || (p.stage == Unlinked && next == Ready)
    ensures Sound(With(s, SyncDir(s.fs), p.(stage := next)))
  {
  }

  lemma OpenKeepsSound(s: Sys, p: Store, e: Event)
    requires Sound(s) && s.process == Some(p)
    ensures Sound(OpenStep(s, p, e))
  {
    hide Settled, Fits, ReadyOk, SyncDir;
    match e
    case FlushOpen => if p.stage == Locked { FlushKeepsSound(s, p, Flushed); }
    case RemoveStaleTemp => if p.stage == Flushed { RemoveKeepsSound(s, p); }
    case FlushStaleTemp => if p.stage == Unlinked { FlushKeepsSound(s, p, Ready); }
    case _ =>
  }

  lemma RemoveKeepsSound(s: Sys, p: Store)
    requires Sound(s) && s.process == Some(p) && p.stage == Flushed
    ensures Sound(OpenStep(s, p, RemoveStaleTemp))
  {
  }

  lemma OtherKeepsSound(s: Sys, p: Store, e: Event)
    requires Sound(s) && s.process == Some(p)
    ensures Sound(OtherStep(s, p, e))
  {
    hide Sound, Raised, LoadStep, BarrierStep, Poisoned, SyncDir;
    match e
    case Load => LoadKeepsSound(s, p);
    case FailLoad => PoisonKeepsSound(s, p);
    case BeginBarrier => BarrierKeepsSound(s, p);
    case SyncBarrier => SyncBarrierKeepsSound(s, p);
    case FinishBarrier => BarrierKeepsSound(s, p);
    case Raise => RaiseKeepsSound(s, p);
    case Close => StopKeepsSound(s);
    case _ =>
  }

  lemma StopKeepsSound(s: Sys)
    requires Sound(s)
    ensures Sound(s.(process := None))
  {
  }

  lemma StartKeepsSound(s: Sys)
    requires Sound(s)
    ensures Sound(s.(process := Some(Store0())))
  {
  }

  lemma PoisonKeepsSound(s: Sys, p: Store)
    requires Sound(s) && s.process == Some(p)
    ensures MayLoad(p) ==> Sound(s.(process := Some(Poisoned(p))))
  {
  }

  lemma LoadKeepsSound(s: Sys, p: Store)
    requires Sound(s) && s.process == Some(p)
    ensures Sound(LoadStep(s, p))
  {
  }

  lemma BarrierKeepsSound(s: Sys, p: Store)
    requires Sound(s) && s.process == Some(p)
    ensures MayBarrier(p) ==> Sound(BarrierStep(s, p, p.(stage := BarrierRead)))
    ensures p.stage == BarrierSynced ==>
              Sound(BarrierStep(s, p, p.(stage := Ready, sequence := p.sequence + 1, stamp := None)))
  {
    hide Fits, Settled;
  }

  lemma SyncBarrierKeepsSound(s: Sys, p: Store)
    requires Sound(s) && s.process == Some(p)
    ensures p.stage == BarrierRead ==> Sound(With(s, SyncDir(s.fs), p.(stage := BarrierSynced)))
  {
  }

  lemma RaiseKeepsSound(s: Sys, p: Store)
    requires Sound(s) && s.process == Some(p)
    ensures Sound(Raised(s, p))
  {
  }

  lemma TempKeepsSound(s: Sys, p: Store, e: Event)
    requires Sound(s) && s.process == Some(p)
    ensures Sound(TempStep(s, p, e))
  {
    hide Sound, BeginSaveStep, CreateTempStep, CheckTempStep, WriteFile, SyncFile;
    match e
    case BeginSave(root, encodable) => BeginSaveKeepsSound(s, p, root, encodable);
    case CreateTemp => CreateKeepsSound(s, p);
    case WriteSome(bytes) => if AtPoint(s, p, Created) { WriteKeepsSound(s, p, bytes, false); }
    case WriteAll => if AtPoint(s, p, Created) { WriteKeepsSound(s, p, Canonical(p.stage.root), true); }
    case SyncTemp => if AtPoint(s, p, Written) { SyncTempKeepsSound(s, p); }
    case CheckTemp => if AtPoint(s, p, TempSynced) { CheckKeepsSound(s, p); }
    case _ =>
  }

  lemma BeginSaveKeepsSound(s: Sys, p: Store, root: Root, encodable: bool)
    requires Sound(s) && s.process == Some(p)
    ensures Sound(BeginSaveStep(s, p, root, encodable))
  {
  }

  lemma CreateKeepsSound(s: Sys, p: Store)
    requires Sound(s) && s.process == Some(p)
    ensures Sound(CreateTempStep(s, p))
  {
  }

  lemma WriteKeepsSound(s: Sys, p: Store, bytes: Content, last: bool)
    requires Sound(s) && s.process == Some(p) && AtPoint(s, p, Created)
    requires last ==> bytes == Canonical(p.stage.root)
    ensures Sound(With(s, WriteFile(s.fs, p.stage.fd, bytes), Reach(p, if last then Written else Created)))
  {
  }

  lemma SyncTempKeepsSound(s: Sys, p: Store)
    requires Sound(s) && s.process == Some(p) && AtPoint(s, p, Written)
    ensures Sound(With(s, SyncFile(s.fs, p.stage.fd), Reach(p, TempSynced)))
  {
  }

  lemma CheckKeepsSound(s: Sys, p: Store)
    requires Sound(s) && s.process == Some(p) && AtPoint(s, p, TempSynced)
    ensures Sound(CheckTempStep(s, p))
  {
  }

  lemma ReplaceKeepsSound(s: Sys, p: Store, e: Event)
    requires Sound(s) && s.process == Some(p)
    ensures Sound(ReplaceStep(s, p, e))
  {
    hide Sound, RenameStep, VerifyStep, SyncDir, CommitStep;
    match e
    case AttemptReplace => if AtPoint(s, p, TempChecked) { AttemptKeepsSound(s, p); }
    case Rename => if AtPoint(s, p, Replacing) { RenameKeepsSound(s, p); }
    case VerifyReplaced => if AtPoint(s, p, Renamed) { VerifyKeepsSound(s, p, Verified); }
    case SyncCommit => if AtPoint(s, p, Verified) { SyncCommitKeepsSound(s, p); }
    case Reopen => if AtPoint(s, p, DirSynced) { VerifyKeepsSound(s, p, Reopened); }
    case Commit => if AtPoint(s, p, Reopened) { CommitKeepsSound(s, p); }
    case _ =>
  }

  lemma AttemptKeepsSound(s: Sys, p: Store)
    requires Sound(s) && s.process == Some(p) && AtPoint(s, p, TempChecked)
    ensures Sound(s.(process := Some(Reach(p, Replacing))))
  {
  }

  lemma RenameKeepsSound(s: Sys, p: Store)
    requires Sound(s) && s.process == Some(p) && AtPoint(s, p, Replacing)
    ensures Sound(RenameStep(s, p))
  {
  }

  lemma VerifyKeepsSound(s: Sys, p: Store, next: SavePoint)
    requires Sound(s) && s.process == Some(p)
    requires (AtPoint(s, p, Renamed) && next == Verified) || (AtPoint(s, p, DirSynced) && next == Reopened)
    ensures Sound(VerifyStep(s, p, next))
  {
    hide Fits, Settled, DirOk;
  }

  lemma SyncCommitKeepsSound(s: Sys, p: Store)
    requires Sound(s) && s.process == Some(p) && AtPoint(s, p, Verified)
    ensures Sound(With(s, SyncDir(s.fs), Reach(p, DirSynced)))
  {
  }

  lemma CommitKeepsSound(s: Sys, p: Store)
    requires Sound(s) && s.process == Some(p) && AtPoint(s, p, Reopened)
    ensures Sound(CommitStep(s, p))
  {
  }

  lemma PowerCutKeepsSound(s: Sys, dir: Dir, torn: seq<Content>)
    requires Sound(s) && dir in s.fs.durable
    ensures Sound(Step(s, PowerCut(dir, torn)))
  {
  }

  lemma StoreStepKeepsSound(s: Sys, p: Store, e: Event)
    requires Sound(s) && s.process == Some(p)
    ensures Sound(StoreStep(s, p, e))
  {
    hide Sound, OpenStep, TempStep, ReplaceStep, OtherStep;
    OpenKeepsSound(s, p, e);
    TempKeepsSound(s, p, e);
    ReplaceKeepsSound(s, p, e);
    OtherKeepsSound(s, p, e);
  }

  lemma StepKeepsSound(s: Sys, e: Event)
    requires Sound(s)
    ensures Sound(Step(s, e))
  {
    hide Sound, StoreStep, Store0, AfterPowerCut;
    match e
    case AcquireLock => StartKeepsSound(s);
    case Crash => StopKeepsSound(s);
    case PowerCut(dir, torn) => if dir in s.fs.durable { PowerCutKeepsSound(s, dir, torn); }
    case _ => if s.process.Some? { StoreStepKeepsSound(s, s.process.value, e); }
  }

  lemma {:induction false} RunKeepsSound(s: Sys, events: seq<Event>)
    requires Sound(s)
    ensures Sound(RunFrom(s, events))
  {
    if events != [] {
      RunKeepsSound(s, events[..|events| - 1]);
      StepKeepsSound(RunFrom(s, events[..|events| - 1]), events[|events| - 1]);
    }
  }

  /** Where every run starts: some final and temporary file on the device, and no process. */
  function Run(final: Option<Content>, temp: Option<Content>, events: seq<Event>): Sys {
    RunFrom(Initial(final, temp), events)
  }

  lemma RunSound(final: Option<Content>, temp: Option<Content>, events: seq<Event>)
    ensures Sound(Run(final, temp, events))
  {
    RunKeepsSound(Initial(final, temp), events);
  }

  /* ---------- what every run guarantees ---------- */

  /** `b` is the same root as `a`, or one of a later generation. */
  ghost predicate NotBefore(a: Option<Root>, b: Option<Root>) {
    b == a || (b.Some? && (a.Some? ==> a.value.generation < b.value.generation))
  }

  lemma {:induction false} AcksClimb(s: Sys, i: nat, j: nat)
    requires AcksOk(s) && i <= j < |s.acks|
    ensures NotBefore(s.acks[i], s.acks[j])
    decreases j - i
  {
    if i < j {
      AcksClimb(s, i, j - 1);
      assert Successive(s.acks[j - 1], s.acks[j - 1 + 1]);
    }
  }

  /**
   * Over all opens, crashes and power cuts: what loads return and returned saves wrote never goes
   * back a generation, and one generation always has the same bytes.
   */
  lemma AcknowledgedNeverGoesBack(final: Option<Content>, temp: Option<Content>, events: seq<Event>, i: nat, j: nat)
    requires i <= j < |Run(final, temp, events).acks|
    ensures var acks := Run(final, temp, events).acks;
            && NotBefore(acks[i], acks[j])
            && (acks[i].Some? && acks[j].Some? && acks[i].value.generation == acks[j].value.generation ==>
                  acks[i] == acks[j])
  {
    RunSound(final, temp, events);
    AcksClimb(Run(final, temp, events), i, j);
  }

  /** What a load returned, or a returned save wrote, is what every power cut leaves. */
  lemma AcknowledgedIsDurable(final: Option<Content>, temp: Option<Content>, events: seq<Event>, e: Event, dir: Dir,
                              torn: seq<Content>)
    requires var s, s' := Run(final, temp, events), Step(Run(final, temp, events), e);
             |s'.acks| > |s.acks| && dir in s'.fs.durable
    ensures var s' := Step(Run(final, temp, events), e);
            var left := Read(AfterPowerCut(s'.fs, dir, torn));
            left.Some? && RootOf(left.value) == Last(s') && left == Read(s'.fs)
  {
    var s := Run(final, temp, events);
    RunSound(final, temp, events);
    StepKeepsSound(s, e);
    AckedIsCurrent(s, e);
    ReadSurvives(Step(s, e), dir, torn);
  }

  lemma OnlyLoadAndCommitAcknowledge(s: Sys, e: Event)
    requires |Step(s, e).acks| > |s.acks|
    ensures (e.Load? || e.Commit?) && s.process.Some?
    ensures e.Load? ==> MayLoad(s.process.value) && Read(s.fs).Some?
    ensures e.Commit? ==> AtPoint(s, s.process.value, Reopened)
  {
  }

  lemma AckedIsCurrent(s: Sys, e: Event)
    requires Sound(s) && |Step(s, e).acks| > |s.acks|
    ensures Step(s, e).process.Some? && Current(Step(s, e), Step(s, e).process.value)
  {
    OnlyLoadAndCommitAcknowledge(s, e);
    if e.Load? {
      LoadIsCurrent(s, s.process.value);
    } else {
      CommitIsCurrent(s, s.process.value);
    }
  }

  lemma LoadIsCurrent(s: Sys, p: Store)
    requires Sound(s) && s.process == Some(p) && MayLoad(p) && Read(s.fs).Some?
    ensures LoadStep(s, p).process.Some? && Current(LoadStep(s, p), LoadStep(s, p).process.value)
  {
  }

  lemma CommitIsCurrent(s: Sys, p: Store)
    requires Sound(s) && s.process == Some(p) && AtPoint(s, p, Reopened)
    ensures CommitStep(s, p).process.Some? && Current(CommitStep(s, p), CommitStep(s, p).process.value)
  {
  }

  /** A power cut changes no synced file, so a directory version reads as it did before. */
  lemma ReadSurvives(s: Sys, dir: Dir, torn: seq<Content>)
    requires Sound(s) && dir in s.fs.durable
    ensures Read(AfterPowerCut(s.fs, dir, torn)) == ReadAt(s.fs, dir)
  {
    assert DirOk(s.fs, dir);
  }

  lemma {:induction false} AcksOnlyGrow(s: Sys, events: seq<Event>, i: nat)
    requires i <= |events|
    ensures RunFrom(s, events[..i]).acks <= RunFrom(s, events).acks
  {
    if i == |events| {
      assert events[..i] == events;
    } else {
      var front := events[..|events| - 1];
      assert front[..i] == events[..i];
      AcksOnlyGrow(s, front, i);
    }
  }

  /** A root once acknowledged survives: whatever a later power cut leaves reads back, and is not before it. */
  lemma AcknowledgedSurvives(final: Option<Content>, temp: Option<Content>, events: seq<Event>, i: nat, dir: Dir,
                             torn: seq<Content>)
    requires i <= |events| && Run(final, temp, events[..i]).acks != []
    requires dir in Run(final, temp, events).fs.durable
    ensures var left := Read(AfterPowerCut(Run(final, temp, events).fs, dir, torn));
            left.Some? && NotBefore(Last(Run(final, temp, events[..i])), RootOf(left.value))
  {
    var s := Run(final, temp, events);
    RunSound(final, temp, events);
    AcksOnlyGrow(Initial(final, temp), events, i);
    AcksClimb(s, |Run(final, temp, events[..i]).acks| - 1, |s.acks| - 1);
    ReadSurvives(s, dir, torn);
    assert Fits(s.fs, dir, Last(s));
  }

  /**
   * At any point of a save, a crash or a power cut leaves the complete previous root or the
   * complete candidate: only the previous before the rename, only the candidate after the sync.
   */
  lemma SaveIsAtomic(final: Option<Content>, temp: Option<Content>, events: seq<Event>, dir: Dir, torn: seq<Content>)
    requires var s := Run(final, temp, events);
             s.process.Some? && (s.process.value.stage.Saving? || s.process.value.stage.Compared?)
    requires dir in Run(final, temp, events).fs.durable
    ensures var s := Run(final, temp, events);
            var p := s.process.value;
            var left := Read(AfterPowerCut(s.fs, dir, torn));
            && p.snapshot.Some?
            && p.stage.root.generation == NextGeneration(RootOf(p.snapshot.value))
            && left.Some? && (left == p.snapshot || RootOf(left.value) == Some(p.stage.root))
            && (p.stage.Compared? || !Renaming(p.stage.at) ==> left == p.snapshot == Read(s.fs))
            && (p.stage.Saving? && Renaming(p.stage.at) ==> Read(s.fs) == Some(Present(p.stage.root, p.stage.fd)))
            && (p.stage.Saving? && (p.stage.at.DirSynced? || p.stage.at.Reopened?) ==> left == Read(s.fs))
  {
    var s := Run(final, temp, events);
    RunSound(final, temp, events);
    ReadSurvives(s, dir, torn);
  }

  /** A store whose save failed without ambiguity still has its snapshot as the final file. */
  lemma PlainPoisonKeepsFinal(final: Option<Content>, temp: Option<Content>, events: seq<Event>, dir: Dir,
                              torn: seq<Content>)
    requires var s := Run(final, temp, events);
             s.process.Some? && s.process.value.poison == Plain && s.process.value.saveReady
    requires dir in Run(final, temp, events).fs.durable
    ensures var s := Run(final, temp, events);
            Read(s.fs) == s.process.value.snapshot == Read(AfterPowerCut(s.fs, dir, torn))
  {
    RunSound(final, temp, events);
    ReadSurvives(Run(final, temp, events), dir, torn);
  }

  /** What can poison a healthy store: an exception, bytes that do not decode, or a bad candidate. */
  predicate Fault(s: Sys, e: Event) {
    || e.Raise? || e.FailLoad?
    || (e.Load? && Read(s.fs) == None)
    || (e.BeginSave? && s.process.Some? && s.process.value.snapshot.Some?
        && (!e.encodable || e.root.generation != NextGeneration(RootOf(s.process.value.snapshot.value))))
  }

  /**
   * With only lock holders writing, none of the store's own checks fires: not the snapshot
   * comparison, the exclusive create, the read-back, the replacement check or the reopen check.
   */
  lemma OnlyFaultsPoison(final: Option<Content>, temp: Option<Content>, events: seq<Event>, e: Event)
    requires var s := Run(final, temp, events);
             var s' := Step(s, e);
             && s.process.Some? && s'.process.Some?
             && s.process.value.poison == Healthy && s'.process.value.poison != Healthy
    ensures Fault(Run(final, temp, events), e)
  {
    hide RunFrom, Sound, OpenStep, TempStep, ReplaceStep, OtherStep, Fault;
    var s := Run(final, temp, events);
    RunSound(final, temp, events);
    OpenNeverPoisons(s, s.process.value, e);
    TempPoisons(s, s.process.value, e);
    ReplaceNeverPoisons(s, s.process.value, e);
    OtherPoisons(s, s.process.value, e);
  }

  /** The step leaves a store that is not healthy. */
  predicate Unhealthy(s: Sys) {
    s.process.Some? && s.process.value.poison != Healthy
  }

  lemma OpenNeverPoisons(s: Sys, p: Store, e: Event)
    requires s.process == Some(p) && p.poison == Healthy
    ensures !Unhealthy(OpenStep(s, p, e))
  {
  }

  lemma TempPoisons(s: Sys, p: Store, e: Event)
    requires Sound(s) && s.process == Some(p) && p.poison == Healthy
    ensures Unhealthy(TempStep(s, p, e)) ==> Fault(s, e)
  {
    hide Fits, Settled, DirOk;
  }

  lemma ReplaceNeverPoisons(s: Sys, p: Store, e: Event)
    requires Sound(s) && s.process == Some(p) && p.poison == Healthy
    ensures !Unhealthy(ReplaceStep(s, p, e))
  {
    hide Fits, Settled, DirOk;
  }

  lemma OtherPoisons(s: Sys, p: Store, e: Event)
    requires Sound(s) && s.process == Some(p) && p.poison == Healthy
    ensures Unhealthy(OtherStep(s, p, e)) ==> Fault(s, e)
  {
    hide Fits, Settled, DirOk;
  }

  /** The sequence number of an unconsumed stamp is always the current one. */
  lemma StampIsAlwaysImmediate(final: Option<Content>, temp: Option<Content>, events: seq<Event>)
    requires Run(final, temp, events).process.Some?
    ensures var p := Run(final, temp, events).process.value;
            && (MayBarrier(p) <==> Usable(p) && p.stamp.Some?)
            && !(MayBarrier(p) && (MaySave(p) || MayLoad(p)))
  {
    RunSound(final, temp, events);
  }

  /** Opening and then loading, after the lock was released by a close, a crash or a power cut. */
  function OpenAndLoad(s: Sys): Sys {
    Step(Step(Step(Step(Step(s, AcquireLock), FlushOpen), RemoveStaleTemp), FlushStaleTemp), Load)
  }

  /** Once anything was acknowledged, reopening after a power cut always succeeds and returns what was left. */
  lemma ReopenReturnsWhatWasLeft(final: Option<Content>, temp: Option<Content>, events: seq<Event>, dir: Dir,
                                 torn: seq<Content>)
    requires Run(final, temp, events).acks != [] && dir in Run(final, temp, events).fs.durable
    ensures var s := Run(final, temp, events);
            var left := ReadAt(s.fs, dir);
            && left.Some?
            && OpenAndLoad(Step(s, PowerCut(dir, torn))).acks == s.acks + [RootOf(left.value)]
  {
    hide RunFrom, OpenAndLoad, StoreStep, ReadAt, AfterPowerCut;
    var s := Run(final, temp, events);
    RunSound(final, temp, events);
    ReadSurvives(s, dir, torn);
    assert Fits(s.fs, dir, Last(s));
    OpenAndLoadReturns(Step(s, PowerCut(dir, torn)));
  }

  /** With no process holding the lock, an open and a load return what the final name holds. */
  lemma OpenAndLoadReturns(s: Sys)
    requires s.process == None && Read(s.fs).Some?
    ensures OpenAndLoad(s).acks == s.acks + [RootOf(Read(s.fs).value)]
  {
    var ready := Step(Step(Step(Step(s, AcquireLock), FlushOpen), RemoveStaleTemp), FlushStaleTemp);
    assert ready.process.Some? && MayLoad(ready.process.value) && ready.acks == s.acks;
    assert ready.fs.dir.final == s.fs.dir.final && ready.fs.files == s.fs.files;
  }

  /** A caller sees each acknowledgement repeat the one before, start at generation zero, or go up by one. */
  lemma AcknowledgedOneByOne(final: Option<Content>, temp: Option<Content>, events: seq<Event>, i: nat)
    requires i + 1 < |Run(final, temp, events).acks|
    ensures var before, after := Run(final, temp, events).acks[i], Run(final, temp, events).acks[i + 1];
            || after == before
            || (after.Some? && after.value.generation == if before == None then 0 else before.value.generation + 1)
  {
    hide RunFrom;
    RunSound(final, temp, events);
    assert Successive(Run(final, temp, events).acks[i], Run(final, temp, events).acks[i + 1]);
  }

  /** One save with nothing in its way: the temporary file is created and filled, replaces the final one, and stays. */
  function CreateTemporary(s: Sys, root: Root): Sys {
    Step(Step(s, BeginSave(root, true)), CreateTemp)
  }

  function FillTemporary(s: Sys): Sys {
    Step(Step(Step(s, WriteAll), SyncTemp), CheckTemp)
  }

  function ReplaceFinal(s: Sys): Sys {
    Step(Step(Step(s, AttemptReplace), Rename), VerifyReplaced)
  }

  function SettleFinal(s: Sys): Sys {
    Step(Step(Step(s, SyncCommit), Reopen), Commit)
  }

  function WholeSave(s: Sys, root: Root): Sys {
    SettleFinal(ReplaceFinal(FillTemporary(CreateTemporary(s, root))))
  }

  function WholeBarrier(s: Sys): Sys {
    Step(Step(Step(s, BeginBarrier), SyncBarrier), FinishBarrier)
  }

  /** The store is open and idle, and accepts exactly these operations. */
  predicate Accepts(s: Sys, load: bool, save: bool, barrier: bool) {
    && s.process.Some? && s.process.value.stage == Ready
    && (MayLoad(s.process.value) <==> load) && (MaySave(s.process.value) <==> save)
    && (MayBarrier(s.process.value) <==> barrier)
  }

  /** A fresh opener accepts a load, and a loaded store a load or a save. */
  lemma OpenThenLoad(s: Sys)
    requires s.process == None && Read(s.fs).Some?
    ensures Accepts(Step(Step(Step(Step(s, AcquireLock), FlushOpen), RemoveStaleTemp), FlushStaleTemp),
                    true, false, false)
    ensures Accepts(OpenAndLoad(s), true, true, false) && Read(OpenAndLoad(s).fs) == Read(s.fs)
    ensures OpenAndLoad(s).acks == s.acks + [RootOf(Read(s.fs).value)]
  {
    var ready := Step(Step(Step(Step(s, AcquireLock), FlushOpen), RemoveStaleTemp), FlushStaleTemp);
    assert ready.fs.dir.final == s.fs.dir.final && ready.fs.files == s.fs.files;
  }

  /** The save of `root` that began in `before` has come to `at`, its bytes under the name for that point. */
  ghost predicate Reached(before: Sys, s: Sys, root: Root, at: SavePoint) {
    && s.process.Some? && AtPoint(s, s.process.value, at) && s.process.value.stage.root == root
    && s.process.value.poison == Healthy && s.acks == before.acks
    && (at == Created || at == TempChecked ==> s.fs.dir.temp == Some(s.process.value.stage.fd))
    && (at == TempChecked ==> s.fs.files[s.process.value.stage.fd].content == Canonical(root))
    && (at == Verified ==> ReadsCandidate(s.fs, root, s.process.value.stage.fd))
  }

  lemma TemporaryIsCreated(s: Sys, root: Root)
    requires Sound(s) && Accepts(s, true, true, false)
    requires root.generation == if Last(s) == None then 0 else Last(s).value.generation + 1
    ensures Reached(s, CreateTemporary(s, root), root, Created)
  {
    var p := s.process.value;
    assert Current(s, p) && s.fs.dir.temp == None;
    assert Step(s, BeginSave(root, true)).process == Some(p.(stage := Compared(root)));
  }

  lemma TemporaryIsFilled(before: Sys, s: Sys, root: Root)
    requires Reached(before, s, root, Created)
    ensures Reached(before, FillTemporary(s), root, TempChecked)
  {
  }

  lemma FinalIsReplaced(before: Sys, s: Sys, root: Root)
    requires Reached(before, s, root, TempChecked)
    ensures Reached(before, ReplaceFinal(s), root, Verified)
  {
  }

  /** Committed and not yet confirmed: the final file is the stamped one. */
  ghost predicate AwaitsBarrier(s: Sys) {
    && Accepts(s, false, false, true) && !s.process.value.saveReady
    && Read(s.fs) == Some(s.process.value.stamp.value.snapshot)
  }

  lemma SyncingReadsTheSame(fs: Fs)
    ensures Read(SyncDir(fs)) == Read(fs)
  {
  }

  lemma FinalIsSettled(before: Sys, s: Sys, root: Root)
    requires Reached(before, s, root, Verified)
    ensures AwaitsBarrier(SettleFinal(s)) && SettleFinal(s).acks == before.acks + [Some(root)]
    ensures RootOf(SettleFinal(s).process.value.stamp.value.snapshot) == Some(root)
  {
    hide Read;
    var p := s.process.value;
    var reopened := Step(Step(s, SyncCommit), Reopen);
    SyncingReadsTheSame(s.fs);
    assert Step(s, SyncCommit).process == Some(Reach(p, DirSynced)) && Read(Step(s, SyncCommit).fs) == Read(s.fs);
    assert reopened.process == Some(Reach(p, Reopened)) && Read(reopened.fs) == Read(s.fs);
  }

  lemma BarrierCompletes(s: Sys)
    requires AwaitsBarrier(s)
    ensures WholeBarrier(s).acks == s.acks && Accepts(WholeBarrier(s), true, false, false)
    ensures Read(WholeBarrier(s).fs) == Read(s.fs)
  {
  }

  /**
   * A save of the next generation with nothing in its way commits; then only the barrier is accepted,
   * and after it only a load.
   */
  lemma SaveThenBarrier(s: Sys, root: Root)
    requires Sound(s) && Accepts(s, true, true, false)
    requires root.generation == if Last(s) == None then 0 else Last(s).value.generation + 1
    ensures var saved := WholeSave(s, root);
            && saved.acks == s.acks + [Some(root)] && Accepts(saved, false, false, true)
            && WholeBarrier(saved).acks == saved.acks && Accepts(WholeBarrier(saved), true, false, false)
            && Read(WholeBarrier(saved).fs).Some? && RootOf(Read(WholeBarrier(saved).fs).value) == Some(root)
  {
    hide Sound, CreateTemporary, FillTemporary, ReplaceFinal, SettleFinal, WholeBarrier, Reached, Accepts;
    TemporaryIsCreated(s, root);
    TemporaryIsFilled(s, CreateTemporary(s, root), root);
    FinalIsReplaced(s, FillTemporary(CreateTemporary(s, root)), root);
    FinalIsSettled(s, ReplaceFinal(FillTemporary(CreateTemporary(s, root))), root);
    BarrierCompletes(WholeSave(s, root));
  }

  /* ---------- the store as an object ---------- */

  datatype SaveOutcome = Refused | Returned | Failed

  lemma Begin(s: Sys)
    ensures RunFrom(s, []) == s
  {
  }

  lemma Extend(start: Sys, trace: seq<Event>, e: Event)
    ensures RunFrom(start, trace + [e]) == Step(RunFrom(start, trace), e)
  {
    assert (trace + [e])[..|trace|] == trace;
  }

  lemma {:induction false} Append(s: Sys, a: seq<Event>, b: seq<Event>)
    ensures RunFrom(s, a + b) == RunFrom(RunFrom(s, a), b)
  {
    if b == [] {
      assert a + b == a;
    } else {
      Append(s, a, b[..|b| - 1]);
      assert (a + b)[..|a + b| - 1] == a + b[..|b| - 1];
    }
  }

  /** Every power cut would leave the final file with these contents. */
  ghost predicate Holds(fs: Fs, snapshot: Snapshot) {
    Read(fs) == Some(snapshot) && forall d :: d in fs.durable ==> ReadAt(fs, d) == Some(snapshot)
  }

  /** The exception strikes once the temporary file is checked. */
  predicate RaisesLate(raises: Option<SavePoint>) {
    raises.Some? && (raises.value == TempChecked || ReplaceAttempted(raises.value))
  }

  /** Every power cut leaves the snapshot or the candidate. */
  ghost predicate EitherHolds(fs: Fs, snapshot: Option<Snapshot>, root: Root) {
    forall d :: d in fs.durable ==>
      (ReadAt(fs, d) == snapshot || (ReadAt(fs, d).Some? && RootOf(ReadAt(fs, d).value) == Some(root)))
  }

  lemma SavingEitherHolds(s: Sys, p: Store)
    requires Sound(s) && s.process == Some(p) && p.stage.Saving?
    ensures EitherHolds(s.fs, p.snapshot, p.stage.root)
  {
  }

  lemma VerifyIs(s: Sys, p: Store, next: SavePoint)
    requires s.process == Some(p)
    requires (AtPoint(s, p, Renamed) && next == Verified) || (AtPoint(s, p, DirSynced) && next == Reopened)
    ensures Step(s, if next == Verified then VerifyReplaced else Reopen) == VerifyStep(s, p, next)
  {
  }

  lemma CommitIs(s: Sys, p: Store)
    requires s.process == Some(p) && AtPoint(s, p, Reopened)
    ensures Step(s, Commit) == CommitStep(s, p)
  {
  }

  lemma BarrierIs(s: Sys, p: Store)
    requires s.process == Some(p)
    ensures MayBarrier(p) ==> Step(s, BeginBarrier) == BarrierStep(s, p, p.(stage := BarrierRead))
    ensures p.stage == BarrierSynced ==>
              Step(s, FinishBarrier) == BarrierStep(s, p, p.(stage := Ready, sequence := p.sequence + 1, stamp := None))
  {
  }

  lemma HoldsEither(fs: Fs, snapshot: Option<Snapshot>, root: Root, fd: nat)
    requires Holds(fs, Present(root, fd))
    ensures EitherHolds(fs, snapshot, root)
  {
  }

  lemma NoTempYet(s: Sys, p: Store)
    requires Sound(s) && s.process == Some(p) && p.stage.Compared?
    ensures s.fs.dir.temp == None
  {
  }

  lemma SnapshotIsCurrent(s: Sys, p: Store)
    requires Sound(s) && s.process == Some(p) && MaySave(p)
    ensures Read(s.fs) == p.snapshot
  {
  }

  lemma PlainHolds(s: Sys, p: Store)
    requires Sound(s) && s.process == Some(p) && p.stage == Ready && p.saveReady && p.poison == Plain
    ensures p.snapshot.Some? && Holds(s.fs, p.snapshot.value)
  {
  }

  /**
   * The store together with the disk it writes.  Each operation may be cut short by an exception
   * at a chosen boundary; the trace it returns lists the boundaries it passed.
   */
  class CrashDurableReferenceJournalStore {
    var disk: Fs
    var running: bool
    var stage: Stage
    var snapshot: Option<Snapshot>
    var saveReady: bool
    var stamp: Option<Stamp>
    var sequence: nat
    var poison: Poison
    ghost var acks: seq<Option<Root>>

    ghost function Fields(): Store
      reads this
    {
      Store(stage, snapshot, saveReady, stamp, sequence, poison)
    }

    ghost function State(): Sys
      reads this
    {
      Sys(disk, if running then Some(Fields()) else None, acks)
    }

    ghost predicate At(point: SavePoint)
      reads this
    {
      running && stage.Saving? && stage.at == point && stage.fd < |disk.files|
    }

    constructor (final: Option<Content>, temp: Option<Content>)
      ensures State() == Initial(final, temp) && Sound(State())
    {
      disk := Initial(final, temp).fs;
      running, stage, snapshot, saveReady, stamp, sequence, poison := false, Locked, None, false, None, 0, Healthy;
      acks := [];
    }

    /** An exception at the given boundary, if that is where the store stands. */
    method Hit(raises: Option<SavePoint>) returns (raised: bool)
      requires running && stage.Saving?
      modifies this`stage, this`poison
      ensures raised <==> raises == Some(old(stage.at))
      ensures State() == if raised then Step(old(State()), Raise) else old(State())
      ensures raised ==> stage == Ready && poison == if ReplaceAttempted(raises.value) then Ambiguous else Plain
      ensures !raised ==> poison == old(poison) && stage == old(stage)
    {
      raised := raises == Some(stage.at);
      if raised {
        PoisonStore(ReplaceAttempted(stage.at));
      }
    }

    method PoisonStore(ambiguous: bool)
      modifies this`stage, this`poison
      ensures State() == old(State()).(process :=
                if running then Some(old(Fields()).(stage := Ready, poison := poison)) else None)
      ensures poison == (if ambiguous then Ambiguous else Plain) && stage == Ready && running == old(running)
    {
      stage := Ready;
      poison := if ambiguous then Ambiguous else Plain;
    }

    /** Give up the lock when an exception strikes at the given boundary. */
    method HitOpening(raises: Option<Stage>) returns (raised: bool)
      requires running && Opening(Fields())
      modifies this
      ensures raised <==> raises == Some(old(stage))
      ensures State() == if raised then Step(old(State()), Raise) else old(State())
      ensures disk == old(disk) && running == !raised
    {
      raised := raises == Some(stage);
      if raised {
        running := false;
      }
    }

    method AcquireLock()
      requires !running
      modifies this
      ensures State() == Step(old(State()), Event.AcquireLock) && running && stage == Locked && disk == old(disk)
      ensures Fresh(Fields())
    {
      running, stage, snapshot, saveReady, stamp, sequence, poison := true, Locked, None, false, None, 0, Healthy;
    }

    method FlushDirectory(next: Stage)
      requires running && ((stage == Locked && next == Flushed) || (stage == Unlinked && next == Ready))
      modifies this`disk, this`stage
      ensures State() == Step(old(State()), if next == Flushed then FlushOpen else FlushStaleTemp)
      ensures stage == next && disk == SyncDir(old(disk))
    {
      disk, stage := SyncDir(disk), next;
    }

    method RemoveStaleTemp()
      requires running && stage == Flushed
      modifies this`disk, this`stage
      ensures State() == Step(old(State()), Event.RemoveStaleTemp)
      ensures stage == if old(disk.dir.temp) == None then Ready else Unlinked
      ensures disk.files == old(disk.files) && disk.dir == Dir(old(disk.dir.final), None)
      ensures old(disk.dir.temp) == None ==> disk == old(disk)
    {
      if disk.dir.temp == None {
        stage := Ready;
      } else {
        disk, stage := Rebind(disk, disk.dir.(temp := None)), Unlinked;
      }
    }

    /** Take the lock, sync the directory, and remove what a crashed save left behind. */
    method Open(raises: Option<Stage>) returns (ok: bool, ghost trace: seq<Event>)
      requires !running
      modifies this
      ensures State() == RunFrom(old(State()), trace)
      ensures ok ==> running && MayLoad(Fields()) && !saveReady && Settled(disk)
      ensures ok ==> disk.files == old(disk.files) && disk.dir == Dir(old(disk.dir.final), None)
      ensures !ok ==> !running
      ensures raises == None ==> ok
    {
      hide Step, RunFrom;
      ghost var start := State();
      Begin(start);
      trace := [];
      AcquireLock();
      Extend(start, trace, Event.AcquireLock);
      trace := trace + [Event.AcquireLock];
      Extend(start, trace, Raise);
      var raised := HitOpening(raises);
      if raised {
        return false, trace + [Raise];
      }
      Extend(start, trace, FlushOpen);
      FlushDirectory(Flushed);
      trace := trace + [FlushOpen];
      Extend(start, trace, Raise);
      raised := HitOpening(raises);
      if raised {
        return false, trace + [Raise];
      }
      Extend(start, trace, Event.RemoveStaleTemp);
      RemoveStaleTemp();
      trace := trace + [Event.RemoveStaleTemp];
      if stage == Ready {
        return true, trace;
      }
      Extend(start, trace, Raise);
      raised := HitOpening(raises);
      if raised {
        return false, trace + [Raise];
      }
      Extend(start, trace, FlushStaleTemp);
      FlushDirectory(Ready);
      return true, trace + [FlushStaleTemp];
    }

    /** `raises`: an exception strikes while the final file is read. */
    method Load(raises: bool) returns (loaded: Option<Option<Root>>, ghost trace: seq<Event>)
      requires running && stage == Ready && Sound(State())
      modifies this
      ensures State() == RunFrom(old(State()), trace) && disk == old(disk)
      ensures !old(MayLoad(Fields())) ==> loaded == None && State() == old(State())
      ensures old(MayLoad(Fields())) && (raises || Read(disk) == None) ==>
                loaded == None && poison == Plain && Unacknowledged(old(State()))
      ensures old(MayLoad(Fields())) && !raises && Read(disk) != None ==>
                && loaded == Some(RootOf(Read(disk).value)) && acks == old(acks) + [loaded.value]
                && saveReady && snapshot == Read(disk) && Holds(disk, snapshot.value)
    {
      trace := [if raises then FailLoad else Event.Load];
      Extend(State(), [], if raises then FailLoad else Event.Load);
      if poison != Healthy || stamp != None {
        return None, trace;
      }
      var found := Read(disk);
      if raises || found == None {
        PoisonStore(false);
        return None, trace;
      }
      sequence, snapshot, saveReady := sequence + 1, found, true;
      acks := acks + [RootOf(found.value)];
      loaded := Some(RootOf(found.value));
    }

    /**
     * Encode the candidate and compare the final file, inode and bytes, with the snapshot.  `encodable` also
     * says that neither the state check before nor the read of the final file raises.
     */
    method CompareAndSwap(root: Root, encodable: bool) returns (ok: bool)
      requires running && MaySave(Fields())
      modifies this`stage, this`poison
      ensures State() == Step(old(State()), BeginSave(root, encodable))
      ensures ok <==> encodable && root.generation == NextGeneration(RootOf(snapshot.value)) && Read(disk) == snapshot
      ensures ok ==> stage == Compared(root)
      ensures ok ==> poison == old(poison)
      ensures !ok ==> stage == Ready && poison == Plain
    {
      ok := encodable && root.generation == NextGeneration(RootOf(snapshot.value)) && Read(disk) == snapshot;
      if ok {
        stage := Compared(root);
      } else {
        PoisonStore(false);
      }
    }

    /** Exclusive creation: an existing temporary name is an error. */
    method CreateTemp() returns (ok: bool)
      requires running && stage.Compared?
      modifies this`disk, this`stage, this`poison
      ensures State() == Step(old(State()), Event.CreateTemp)
      ensures ok <==> old(disk.dir.temp) == None
      ensures ok ==>
                && stage == Saving(old(stage).root, |old(disk).files|, Created) && At(Created)
                && disk.dir.temp == Some(stage.fd)
      ensures ok ==> poison == old(poison)
      ensures !ok ==> stage == Ready && poison == Plain
      ensures disk.dir.final == old(disk.dir.final)
    {
      ok := disk.dir.temp == None;
      if !ok {
        PoisonStore(false);
        return;
      }
      stage := Saving(stage.root, |disk.files|, Created);
      disk := NewTemp(disk);
    }

    method WriteChunk(bytes: Content, last: bool)
      requires At(Created) && (last ==> bytes == Canonical(stage.root))
      modifies this`disk, this`stage
      ensures State() == Step(old(State()), if last then Event.WriteAll else WriteSome(bytes))
      ensures stage == old(stage).(at := if last then Written else Created) && At(stage.at)
      ensures disk.files[stage.fd].content == bytes
      ensures disk.dir == old(disk.dir) && disk.durable == old(disk.durable)
    {
      disk := WriteFile(disk, stage.fd, bytes);
      stage := stage.(at := if last then Written else Created);
    }

    /** Chunk after chunk, short of the last: each intermediate content is one a crash could leave. */
    method WriteChunks(torn: seq<Content>) returns (ghost trace: seq<Event>)
      requires At(Created)
      modifies this`disk, this`stage
      ensures State() == RunFrom(old(State()), trace)
      ensures stage == old(stage) && At(Created)
      ensures disk.dir == old(disk.dir) && disk.durable == old(disk.durable)
    {
      hide Step, RunFrom;
      ghost var start := State();
      Begin(start);
      trace := [];
      var i := 0;
      while i < |torn|
        invariant i <= |torn| && At(Created)
        invariant State() == RunFrom(start, trace)
        invariant stage == old(stage) && disk.dir == old(disk.dir) && disk.durable == old(disk.durable)
      {
        Extend(start, trace, WriteSome(torn[i]));
        WriteChunk(torn[i], false);
        trace := trace + [WriteSome(torn[i])];
        i := i + 1;
      }
    }

    /** The chunks of the candidate; an exception at `Created` strikes once those in `torn` are written. */
    method WriteAll(torn: seq<Content>, raises: Option<SavePoint>) returns (ok: bool, ghost trace: seq<Event>)
      requires At(Created)
      modifies this`disk, this`stage, this`poison
      ensures State() == RunFrom(old(State()), trace)
      ensures ok <==> raises != Some(Created)
      ensures ok ==> stage == old(stage).(at := Written) && At(Written) && poison == old(poison)
      ensures ok ==> disk.files[stage.fd].content == Canonical(stage.root)
      ensures !ok ==> stage == Ready && poison == Plain
      ensures disk.dir == old(disk.dir) && disk.durable == old(disk.durable)
    {
      hide Step, RunFrom;
      ghost var start := State();
      trace := WriteChunks(torn);
      Extend(start, trace, Raise);
      var raised := Hit(raises);
      if raised {
        return false, trace + [Raise];
      }
      Extend(start, trace, Event.WriteAll);
      WriteChunk(Canonical(stage.root), true);
      return true, trace + [Event.WriteAll];
    }

    method FsyncTemp()
      requires At(Written)
      modifies this`disk, this`stage
      ensures State() == Step(old(State()), SyncTemp) && disk.dir == old(disk.dir)
      ensures stage == old(stage).(at := TempSynced) && At(TempSynced)
      ensures disk.files[stage.fd].content == old(disk.files[stage.fd].content)
    {
      disk, stage := SyncFile(disk, stage.fd), stage.(at := TempSynced);
    }

    /** Read the temporary file back and check that its name still binds this inode. */
    method CheckTemp() returns (ok: bool)
      requires At(TempSynced)
      modifies this`stage, this`poison
      ensures State() == Step(old(State()), Event.CheckTemp)
      ensures ok <==>
                && disk.files[old(stage).fd].content == Canonical(old(stage).root)
                && disk.dir.temp == Some(old(stage).fd)
      ensures ok ==> stage == old(stage).(at := TempChecked) && At(TempChecked)
      ensures ok ==> poison == old(poison)
      ensures !ok ==> stage == Ready && poison == Plain
    {
      ok := disk.files[stage.fd].content == Canonical(stage.root) && disk.dir.temp == Some(stage.fd);
      if ok {
        stage := stage.(at := TempChecked);
      } else {
        PoisonStore(false);
      }
    }

    /** The temporary file as `PrepareTemp` left it so far. */
    ghost predicate TempHolds(root: Root, final: Option<nat>)
      reads this
    {
      && stage.Saving? && stage.root == root && stage.fd < |disk.files|
      && disk.files[stage.fd].content == Canonical(root)
      && disk.dir == Dir(final, Some(stage.fd))
    }

    /** An exception before the temporary file exists. */
    method RaiseEarly()
      requires running && stage.Compared?
      modifies this`stage, this`poison
      ensures State() == Step(old(State()), Raise) && stage == Ready && poison == Plain
    {
      PoisonStore(false);
    }

    method CreateAndWrite(early: bool, torn: seq<Content>, raises: Option<SavePoint>)
      returns (ok: bool, ghost trace: seq<Event>)
      requires running && stage.Compared? && disk.dir.temp == None
      modifies this`disk, this`stage, this`poison
      ensures State() == RunFrom(old(State()), trace)
      ensures ok <==> !early && raises != Some(Created)
      ensures ok ==> At(Written) && TempHolds(old(stage).root, disk.dir.final)
      ensures ok ==> poison == old(poison)
      ensures !ok ==> stage == Ready && poison == Plain
      ensures disk.dir.final == old(disk.dir.final)
    {
      hide Step, RunFrom;
      ghost var start := State();
      Begin(start);
      trace := [];
      if early {
        Extend(start, trace, Raise);
        RaiseEarly();
        return false, trace + [Raise];
      }
      Extend(start, trace, Event.CreateTemp);
      ok := CreateTemp();
      trace := trace + [Event.CreateTemp];
      ghost var written;
      ok, written := WriteAll(torn, raises);
      Append(start, trace, written);
      trace := trace + written;
    }

    method SyncAndCheck(raises: Option<SavePoint>) returns (ok: bool, ghost trace: seq<Event>)
      requires At(Written) && TempHolds(stage.root, disk.dir.final)
      modifies this`disk, this`stage, this`poison
      ensures State() == RunFrom(old(State()), trace)
      ensures ok <==> raises != Some(Written) && raises != Some(TempSynced)
      ensures ok ==> At(TempChecked) && TempHolds(old(stage).root, disk.dir.final)
      ensures ok ==> poison == old(poison)
      ensures !ok ==> stage == Ready && poison == Plain
      ensures disk.dir.final == old(disk.dir.final)
    {
      hide Step, RunFrom;
      ghost var start := State();
      Begin(start);
      trace := [];
      Extend(start, trace, Raise);
      var raised := Hit(raises);
      if raised {
        return false, trace + [Raise];
      }
      Extend(start, trace, SyncTemp);
      FsyncTemp();
      trace := trace + [SyncTemp];
      Extend(start, trace, Raise);
      raised := Hit(raises);
      if raised {
        return false, trace + [Raise];
      }
      Extend(start, trace, Event.CheckTemp);
      ok := CheckTemp();
      trace := trace + [Event.CheckTemp];
    }

    /** From here on an exception is reported as ambiguous. */
    method AttemptReplace()
      requires At(TempChecked)
      modifies this`stage
      ensures State() == Step(old(State()), Event.AttemptReplace)
      ensures stage == old(stage).(at := Replacing) && At(Replacing)
    {
      stage := stage.(at := Replacing);
    }

    method Rename()
      requires At(Replacing) && disk.dir.temp.Some?
      modifies this`disk, this`stage
      ensures State() == Step(old(State()), Event.Rename)
      ensures stage == old(stage).(at := Renamed) && At(Renamed)
      ensures disk == Rebind(old(disk), Dir(old(disk.dir.temp), None))
    {
      disk, stage := Rebind(disk, Dir(disk.dir.temp, None)), stage.(at := Renamed);
    }

    /** Read the final file: it must be the temporary inode with the candidate's bytes. */
    method VerifyFinal(next: SavePoint) returns (ok: bool)
      requires (At(Renamed) && next == Verified) || (At(DirSynced) && next == Reopened)
      modifies this`stage, this`poison
      ensures State() == Step(old(State()), if next == Verified then VerifyReplaced else Reopen)
      ensures ok <==> ReadsCandidate(disk, old(stage).root, old(stage).fd)
      ensures ok ==> stage == old(stage).(at := next) && At(next)
      ensures ok ==> poison == old(poison)
      ensures !ok ==> stage == Ready && poison == Ambiguous
    {
      hide Step, Read;
      VerifyIs(State(), Fields(), next);
      ok := ReadsCandidate(disk, stage.root, stage.fd);
      if ok {
        stage := stage.(at := next);
      } else {
        PoisonStore(true);
      }
    }

    method FsyncDirectory()
      requires At(Verified)
      modifies this`disk, this`stage
      ensures State() == Step(old(State()), SyncCommit)
      ensures stage == old(stage).(at := DirSynced) && At(DirSynced) && disk == SyncDir(old(disk))
    {
      disk, stage := SyncDir(disk), stage.(at := DirSynced);
    }

    /** The save is durable: record the stamp the next barrier consumes. */
    method Commit()
      requires At(Reopened)
      modifies this
      ensures State() == Step(old(State()), Event.Commit)
      ensures running && stage == Ready && disk == old(disk) && poison == old(poison)
      ensures sequence == old(sequence) + 1 && !saveReady
      ensures snapshot == Some(Present(old(stage).root, old(stage).fd))
              && stamp == Some(Stamp(snapshot.value, sequence))
      ensures acks == old(acks) + [Some(old(stage).root)]
    {
      hide Step;
      CommitIs(State(), Fields());
      sequence := sequence + 1;
      snapshot := Some(Present(stage.root, stage.fd));
      saveReady := false;
      stamp := Some(Stamp(snapshot.value, sequence));
      acks := acks + [Some(stage.root)];
      stage := Ready;
    }

    /** Atomically replace the final file by the temporary one. */
    method ReplaceFinal(raises: Option<SavePoint>) returns (ok: bool, ghost trace: seq<Event>)
      requires At(TempChecked) && TempHolds(stage.root, disk.dir.final) && EitherHolds(disk, snapshot, stage.root)
      modifies this`disk, this`stage, this`poison
      ensures State() == RunFrom(old(State()), trace)
      ensures ok <==> raises != Some(TempChecked) && raises != Some(Replacing)
      ensures ok ==> At(Renamed) && stage == old(stage).(at := Renamed) && ReadsCandidate(disk, stage.root, stage.fd)
      ensures ok ==> poison == old(poison)
      ensures !ok ==> stage == Ready && poison == if raises == Some(TempChecked) then Plain else Ambiguous
      ensures !ok ==> disk == old(disk)
      ensures EitherHolds(disk, snapshot, old(stage).root)
    {
      hide Step, RunFrom;
      ghost var start := State();
      Begin(start);
      trace := [];
      Extend(start, trace, Raise);
      var raised := Hit(raises);
      if raised {
        return false, trace + [Raise];
      }
      Extend(start, trace, Event.AttemptReplace);
      AttemptReplace();
      trace := trace + [Event.AttemptReplace];
      Extend(start, trace, Raise);
      raised := Hit(raises);
      if raised {
        return false, trace + [Raise];
      }
      Extend(start, trace, Event.Rename);
      Rename();
      return true, trace + [Event.Rename];
    }

    /** Check what the final name now reads, then make the replacement durable. */
    method SettleFinal(raises: Option<SavePoint>) returns (ok: bool, ghost trace: seq<Event>)
      requires At(Renamed) && ReadsCandidate(disk, stage.root, stage.fd)
      modifies this`disk, this`stage, this`poison
      ensures State() == RunFrom(old(State()), trace)
      ensures ok <==> raises != Some(Renamed) && raises != Some(Verified)
      ensures ok ==> At(DirSynced) && stage == old(stage).(at := DirSynced)
      ensures ok ==> Holds(disk, Present(stage.root, stage.fd))
      ensures ok ==> poison == old(poison)
      ensures !ok ==> stage == Ready && poison == Ambiguous && disk == old(disk)
    {
      hide Step, RunFrom;
      ghost var start := State();
      Begin(start);
      trace := [];
      Extend(start, trace, Raise);
      var raised := Hit(raises);
      if raised {
        return false, trace + [Raise];
      }
      Extend(start, trace, VerifyReplaced);
      ok := VerifyFinal(Verified);
      trace := trace + [VerifyReplaced];
      Extend(start, trace, Raise);
      raised := Hit(raises);
      if raised {
        return false, trace + [Raise];
      }
      Extend(start, trace, SyncCommit);
      FsyncDirectory();
      trace := trace + [SyncCommit];
    }

    /** Reopen the final file and commit. */
    method ReopenAndCommit(raises: Option<SavePoint>) returns (ok: bool, ghost trace: seq<Event>)
      requires At(DirSynced) && Holds(disk, Present(stage.root, stage.fd))
      modifies this
      ensures State() == RunFrom(old(State()), trace) && running && stage == Ready && disk == old(disk)
      ensures ok <==> raises != Some(DirSynced) && raises != Some(Reopened)
      ensures ok ==> Committed(old(State()), old(stage).root, old(stage).fd)
      ensures !ok ==> poison == Ambiguous && Unacknowledged(old(State()))
    {
      hide Step, RunFrom;
      ghost var start := State();
      Begin(start);
      trace := [];
      Extend(start, trace, Raise);
      var raised := Hit(raises);
      if raised {
        return false, trace + [Raise];
      }
      Extend(start, trace, Reopen);
      ok := VerifyFinal(Reopened);
      trace := trace + [Reopen];
      Extend(start, trace, Raise);
      raised := Hit(raises);
      if raised {
        return false, trace + [Raise];
      }
      Extend(start, trace, Event.Commit);
      Commit();
      trace := trace + [Event.Commit];
    }

    /** A save returned: the new root is durable and the stamp waits for its barrier. */
    ghost predicate Committed(before: Sys, root: Root, fd: nat)
      requires before.process.Some?
      reads this
    {
      && poison == before.process.value.poison && acks == before.acks + [Some(root)]
      && snapshot == Some(Present(root, fd)) && Holds(disk, snapshot.value)
      && sequence == before.process.value.sequence + 1 && !saveReady && stamp == Some(Stamp(snapshot.value, sequence))
    }

    /** A failed save leaves the snapshot to compare with, and acknowledges nothing. */
    ghost predicate Unacknowledged(before: Sys)
      requires before.process.Some?
      reads this
    {
      acks == before.acks && snapshot == before.process.value.snapshot && saveReady == before.process.value.saveReady
    }

    method ReplaceAndCommit(raises: Option<SavePoint>) returns (ok: bool, ghost trace: seq<Event>)
      requires At(TempChecked) && TempHolds(stage.root, disk.dir.final) && EitherHolds(disk, snapshot, stage.root)
      modifies this
      ensures State() == RunFrom(old(State()), trace) && running && stage == Ready
      ensures ok <==> !RaisesLate(raises)
      ensures ok ==> Committed(old(State()), old(stage).root, old(stage).fd)
      ensures !ok ==> poison == (if raises == Some(TempChecked) then Plain else Ambiguous)
      ensures !ok ==> Unacknowledged(old(State())) && EitherHolds(disk, snapshot, old(stage).root)
      ensures !ok && poison == Plain ==> disk == old(disk)
    {
      hide Step, RunFrom, EitherHolds, Holds, TempHolds, ReadsCandidate;
      ghost var start := State();
      ok, trace := ReplaceFinal(raises);
      if !ok {
        return;
      }
      ghost var settled, committed;
      ok, settled := SettleFinal(raises);
      Append(start, trace, settled);
      trace := trace + settled;
      if !ok {
        return;
      }
      HoldsEither(disk, snapshot, stage.root, stage.fd);
      ok, committed := ReopenAndCommit(raises);
      Append(start, trace, committed);
      trace := trace + committed;
    }

    method PrepareTemp(early: bool, torn: seq<Content>, raises: Option<SavePoint>)
      returns (ok: bool, ghost trace: seq<Event>)
      requires running && stage.Compared? && disk.dir.temp == None
      modifies this`disk, this`stage, this`poison
      ensures State() == RunFrom(old(State()), trace)
      ensures ok <==> !early && (raises == None || RaisesLate(raises))
      ensures ok ==> At(TempChecked) && TempHolds(old(stage).root, disk.dir.final) && poison == old(poison)
      ensures !ok ==> stage == Ready && poison == Plain
      ensures disk.dir.final == old(disk.dir.final)
    {
      hide Step, RunFrom;
      ghost var start := State();
      ok, trace := CreateAndWrite(early, torn, raises);
      if ok {
        ghost var checked;
        ok, checked := SyncAndCheck(raises);
        Append(start, trace, checked);
        trace := trace + checked;
      }
    }

    /** The save once the comparison passed: create, write, sync, check, replace, sync, reopen. */
    method Attempt(early: bool, torn: seq<Content>, raises: Option<SavePoint>)
      returns (ok: bool, ghost trace: seq<Event>)
      requires running && stage.Compared? && Sound(State())
      modifies this
      ensures State() == RunFrom(old(State()), trace) && running && stage == Ready && Sound(State())
      ensures ok <==> !early && raises == None
      ensures ok ==>
                && snapshot.Some? && snapshot.value.Present?
                && Committed(old(State()), old(stage).root, snapshot.value.inode)
      ensures !ok ==> poison != Healthy && Unacknowledged(old(State()))
      ensures !ok && poison == Plain ==> disk.dir.final == old(disk.dir.final)
      ensures !ok && poison == Ambiguous ==> RaisesLate(raises) && EitherHolds(disk, snapshot, old(stage).root)
    {
      hide Step, RunFrom, Sound, EitherHolds;
      ghost var start := State();
      NoTempYet(start, Fields());
      ok, trace := PrepareTemp(early, torn, raises);
      RunKeepsSound(start, trace);
      if ok {
        SavingEitherHolds(State(), Fields());
        ghost var replaced;
        ok, replaced := ReplaceAndCommit(raises);
        Append(start, trace, replaced);
        trace := trace + replaced;
        RunKeepsSound(start, trace);
      }
    }

    /**
     * What one save does, whatever strikes it and wherever: while encoding and comparing (`encodable`), before
     * the temporary file exists (`early`), or at any boundary once it does (`raises`, after the chunks in
     * `torn` when it strikes while writing).
     */
    method Save(root: Root, encodable: bool, early: bool, torn: seq<Content>, raises: Option<SavePoint>)
      returns (outcome: SaveOutcome, ghost trace: seq<Event>)
      requires running && stage == Ready && Sound(State())
      modifies this
      ensures State() == RunFrom(old(State()), trace) && running && stage == Ready
      ensures outcome == Refused <==> !old(MaySave(Fields()))
      ensures outcome == Refused ==> State() == old(State())
      ensures outcome == Returned <==>
                (old(MaySave(Fields())) && encodable && !early && raises == None
                 && root.generation == NextGeneration(RootOf(old(snapshot).value)))
      ensures outcome == Returned ==> Saved(old(State()), root)
      ensures outcome == Failed ==> poison != Healthy && Unacknowledged(old(State()))
      ensures outcome == Failed && poison == Plain ==>
                disk.dir.final == old(disk.dir.final) && Holds(disk, snapshot.value)
      ensures outcome == Failed && poison == Ambiguous ==> RaisesLate(raises) && EitherHolds(disk, snapshot, root)
    {
      hide Step, RunFrom, Sound, EitherHolds, Holds, RaisesLate;
      ghost var start := State();
      Begin(start);
      trace := [];
      if poison != Healthy || stamp != None || !saveReady || snapshot == None {
        return Refused, trace;
      }
      SnapshotIsCurrent(start, Fields());
      Extend(start, trace, BeginSave(root, encodable));
      var ok := CompareAndSwap(root, encodable);
      trace := trace + [BeginSave(root, encodable)];
      RunKeepsSound(start, trace);
      if ok {
        ghost var attempted;
        ok, attempted := Attempt(early, torn, raises);
        Append(start, trace, attempted);
        trace := trace + attempted;
      }
      if poison == Plain {
        PlainHolds(State(), Fields());
      }
      outcome := if ok then Returned else Failed;
    }

    /** The new root is durable, and the next operation must be the barrier. */
    ghost predicate Saved(before: Sys, root: Root)
      requires before.process.Some?
      reads this
    {
      && snapshot.Some? && RootOf(snapshot.value) == Some(root) && Holds(disk, snapshot.value)
      && acks == before.acks + [Some(root)] && MayBarrier(Fields())
      && stamp == Some(Stamp(snapshot.value, before.process.value.sequence + 1)) && !saveReady
    }

    /** Verify and consume the stamp of the save just before, with the directory synced in between. */
    method Barrier(raises: Option<Stage>) returns (outcome: SaveOutcome, ghost trace: seq<Event>)
      requires running && stage == Ready && Sound(State())
      modifies this
      ensures State() == RunFrom(old(State()), trace) && running && stage == Ready
      ensures outcome == Refused <==> !old(Usable(Fields())) || old(stamp) == None
      ensures outcome == Refused ==> State() == old(State())
      ensures outcome == Failed ==>
                poison == Ambiguous && (raises == Some(BarrierRead) || raises == Some(BarrierSynced))
      ensures outcome == Returned ==> stamp == None && MayLoad(Fields()) && sequence == old(sequence) + 1
      ensures outcome != Refused ==> Holds(disk, old(stamp).value.snapshot) && acks == old(acks)
    {
      hide Step, RunFrom;
      ghost var start := State();
      Begin(start);
      trace := [];
      if poison != Healthy || stamp == None || stamp.value.sequence != sequence {
        return Refused, trace;
      }
      Extend(start, trace, BeginBarrier);
      ReadStamped(BarrierRead);
      trace := trace + [BeginBarrier];
      Extend(start, trace, Raise);
      var raised := HitBarrier(raises);
      if raised {
        return Failed, trace + [Raise];
      }
      Extend(start, trace, SyncBarrier);
      SyncDirectoryAgain();
      trace := trace + [SyncBarrier];
      Extend(start, trace, Raise);
      raised := HitBarrier(raises);
      if raised {
        return Failed, trace + [Raise];
      }
      Extend(start, trace, FinishBarrier);
      ReadStamped(Ready);
      return Returned, trace + [FinishBarrier];
    }

    method HitBarrier(raises: Option<Stage>) returns (raised: bool)
      requires running && (stage == BarrierRead || stage == BarrierSynced)
      modifies this`stage, this`poison
      ensures raised <==> raises == Some(old(stage))
      ensures State() == if raised then Step(old(State()), Raise) else old(State())
      ensures raised ==> stage == Ready && poison == Ambiguous
      ensures !raised ==> poison == old(poison) && stage == old(stage)
    {
      raised := raises == Some(stage);
      if raised {
        PoisonStore(true);
      }
    }

    /** One of the two reads of a barrier: the stamped snapshot must still be there. */
    method ReadStamped(next: Stage)
      requires running && stamp.Some? && Read(disk) == Some(stamp.value.snapshot)
      requires (next == BarrierRead && MayBarrier(Fields())) || (next == Ready && stage == BarrierSynced)
      modifies this`stage, this`sequence, this`stamp
      ensures State() == Step(old(State()), if next == Ready then FinishBarrier else BeginBarrier)
      ensures stage == next && (next == Ready ==> stamp == None && sequence == old(sequence) + 1)
      ensures next != Ready ==> stamp == old(stamp) && sequence == old(sequence)
    {
      hide Step, Read;
      BarrierIs(State(), Fields());
      stage := next;
      if next == Ready {
        sequence, stamp := sequence + 1, None;
      }
    }

    method SyncDirectoryAgain()
      requires running && stage == BarrierRead
      modifies this`disk, this`stage
      ensures State() == Step(old(State()), SyncBarrier)
      ensures stage == BarrierSynced && disk == SyncDir(old(disk))
    {
      disk, stage := SyncDir(disk), BarrierSynced;
    }

    /** Release the lock. */
    method Close()
      requires running && stage == Ready
      modifies this`running
      ensures State() == Step(old(State()), Event.Close) && !running
    {
      running := false;
    }
  }
}
