/** The durable v2 receiver (src/durable.rs) as a step system.  One step is what the code
    does between two await points; every I/O outcome it may meet is part of the step, so
    a step is a function of the state.  Sessions interleave freely; within one session
    the record mutex lets a single upload (the session's job) run, beside which only the
    cancellation token may fire. */
module Durable {
  import opened Wrappers
  import opened Manifests
  import opened Disks
  import Paths

  const MAX_SESSIONS: nat := 1024

  datatype Decision = Pending | Accepted | Rejected | NotFound

  datatype PendingTransfer = PendingTransfer(
    id: string,
    sourceIp: string,
    senderName: Option<string>,
    files: seq<FileInfo>,
    totalSize: u64)

  /** The journalled part of a session. */
  datatype Record = Record(
    manifest: Manifest,
    pending: PendingTransfer,
    owner: string,
    token: string,
    decision: Decision,
    cancelled: bool,
    complete: bool,
    published: map<string, Path>,
    targets: map<string, Path>)
  {
    function Files(): seq<FileInfo> {
      manifest.request.files
    }

    /** The transition at durable.rs:683-693: publish a file and recompute `complete`. */
    function Publish(id: string, target: Path): Record {
      var published' := published[id := target];
      this.(published := published', complete := |published'| == |Files()|)
    }
  }

  /** Where the upload holding a session's mutex stands. */
  datatype Job =
    | Idle
    | Receiving(file: FileInfo, fd: Inode, start: nat, baseline: nat, offset: nat)
    | Received(file: FileInfo)
    | Choosing(file: FileInfo, index: nat)
    | Journalled(file: FileInfo, index: nat, target: Path)
    | Linked(file: FileInfo, target: Path)
    | Published(file: FileInfo)
    | Committed(file: FileInfo)

  /** `fired` is the cancellation token, `finished` the lock-free completion flag. */
  datatype Session = Session(rec: Record, fired: bool, finished: bool, job: Job)

  /** Disk and journal survive a crash, sessions do not.  `completions` counts the
      completion events of each registered session and `links` the destination names an
      upload of (session, file id) has created; nothing reads either back. */
  datatype World = World(
    disk: Disk,
    journal: map<string, Record>,
    sessions: map<string, Session>,
    completions: map<string, nat>,
    links: set<(string, string, Path)>)

  /** Outcome of an atomic journal replacement.  A failed write may still have landed:
      only the sync of the directory after the rename failed. */
  datatype Persist = Stored | Failed(landed: bool)

  datatype Step =
    | Register(manifest: Manifest, owner: string, sourceIp: string, trusted: bool, token: string, io: Persist)
    | Accept(sid: string, io: Persist)
    | Reject(sid: string, io: Persist)
    | FireCancel(sid: string)
    | Cancel(sid: string, io: Persist, removed: set<string>)
    | ForgetParts(sid: string, removed: set<string>)
    | Forget(sid: string)
    | Begin(sid: string, file: FileInfo, offset: nat)
    | Chunk(sid: string, bytes: Bytes)
    | TornChunk(sid: string, bytes: Bytes)
    | Interrupt(sid: string)
    | Oversize(sid: string, bytes: Bytes, unlinked: bool)
    | EndBody(sid: string)
    | Verify(sid: string)
    | Discard(sid: string, unlinked: bool)
    | Abort(sid: string, unlinked: bool)
    | Choose(sid: string, io: Persist)
    | Link(sid: string, readable: bool)
    | SyncParent(sid: string)
    | Commit(sid: string, io: Persist)
    | Finish(sid: string, unlinked: bool)
    | Abandon(sid: string)
    | SaveFile(path: Path, bytes: Bytes, synced: nat)
    | Crash(keep: map<Inode, nat>, lost: set<Path>)

  // ---------------------------------------------------------------- reading the state

  /** durable.rs:288-314: the durable offset of one file. */
  function Offset(d: Disk, sid: string, r: Record, f: FileInfo): nat {
    if f.id in r.published then f.size
    else if Live(d, Part(sid, f.id)) then |At(d, Part(sid, f.id)).bytes|
    else 0
  }

  function OffsetSum(d: Disk, sid: string, r: Record, files: seq<FileInfo>): nat {
    if files == [] then 0
    else OffsetSum(d, sid, r, files[..|files| - 1]) + Offset(d, sid, r, files[|files| - 1])
  }

  /** The name holds exactly what the manifest declares for the file. */
  predicate Holds(d: Disk, p: Path, m: Manifest, f: FileInfo) {
    && Live(d, p)
    && |At(d, p).bytes| == f.size
    && f.id in m.sha256
    && Sha256(At(d, p).bytes) == m.sha256[f.id]
  }

  function Parts(sid: string, ids: set<string>): set<Path> {
    set id | id in ids :: Part(sid, id)
  }

  function TargetName(f: FileInfo, index: nat): Path {
    Dest(Paths.TargetDir(Place(f)), Paths.DurableCandidate(Paths.TargetBase(Place(f)), index))
  }

  /** The name tried next: a recorded target wins over the numbered candidate. */
  function NextTarget(r: Record, f: FileInfo, index: nat): Path {
    if f.id in r.targets then r.targets[f.id] else TargetName(f, index)
  }

  predicate Terminal(r: Record) {
    r.complete || r.cancelled || r.decision == Rejected
  }

  function Save(journal: map<string, Record>, sid: string, r: Record, io: Persist): map<string, Record> {
    if io == Failed(false) then journal else journal[sid := r]
  }

  function NewRecord(m: Manifest, owner: string, sourceIp: string, trusted: bool, token: string): Record {
    Record(m,
           PendingTransfer(m.request.transferId, sourceIp, m.request.senderName, m.request.files, m.request.totalSize),
           owner, token, if trusted then Accepted else Pending, false, false, map[], map[])
  }

  function Loaded(r: Record): Session {
    Session(r, r.cancelled, r.complete, Idle)
  }

  function LoadAll(journal: map<string, Record>): map<string, Session> {
    map sid | sid in journal :: Loaded(journal[sid])
  }

  // ---------------------------------------------------------------- steps

  function Put(w: World, sid: string, s: Session): World {
    w.(sessions := w.sessions[sid := s])
  }

  function Events(w: World, sid: string): nat {
    if sid in w.completions then w.completions[sid] else 0
  }

  /** Replace a session's record in memory and write it to the journal (persist). */
  function Persisted(w: World, sid: string, s: Session, io: Persist): World {
    Put(w.(journal := Save(w.journal, sid, s.rec, io)), sid, s)
  }

  /** Remove partial files of a session and leave it idle. */
  function Dropped(w: World, sid: string, s: Session, ids: set<string>): World {
    Put(w.(disk := Unlink(w.disk, Parts(sid, ids))), sid, s.(job := Idle))
  }

  /** Give an upload up with its partial file, which stays if it cannot be removed. */
  function DoDrop(w: World, sid: string, s: Session, unlinked: bool): World
    requires !s.job.Idle?
  {
    Dropped(w, sid, s, if unlinked then {s.job.file.id} else {})
  }

  function DoRegister(w: World, sid: string, r: Record, io: Persist): World {
    if io.Stored? then
      Persisted(w, sid, Session(r, false, false, Idle), io).(completions := w.completions[sid := 0])
    else
      w.(journal := Save(w.journal, sid, r, io))
  }

  function DoCancel(w: World, sid: string, s: Session, io: Persist, removed: set<string>): World {
    var s' := s.(rec := s.rec.(cancelled := true));
    if io.Stored? then Dropped(Persisted(w, sid, s', io), sid, s', removed) else Persisted(w, sid, s', io)
  }

  function DoForget(w: World, sid: string, ids: set<string>): World {
    World(Unlink(w.disk, Parts(sid, ids)), w.journal - {sid}, w.sessions - {sid},
          w.completions - {sid}, set l | l in w.links && l.0 != sid)
  }

  function DoBegin(w: World, sid: string, s: Session, f: FileInfo): World {
    var d := OpenAppend(w.disk, Part(sid, f.id));
    var start := Offset(w.disk, sid, s.rec, f);
    var baseline := OffsetSum(w.disk, sid, s.rec, s.rec.Files());
    Put(w.(disk := d), sid, s.(job := Receiving(f, d.names[Part(sid, f.id)], start, baseline, start)))
  }

  function DoAppend(w: World, sid: string, s: Session, bytes: Bytes, torn: bool): World
    requires s.job.Receiving? && s.job.fd in w.disk.files
  {
    Put(w.(disk := Append(w.disk, s.job.fd, bytes)), sid,
        s.(job := if torn then Idle else s.job.(offset := s.job.offset + |bytes|)))
  }

  function DoSync(w: World, sid: string, s: Session, atEnd: bool): World
    requires s.job.Receiving? && s.job.fd in w.disk.files
  {
    Put(w.(disk := Sync(w.disk, s.job.fd)), sid,
        s.(job := if atEnd && s.job.offset == s.job.file.size then Received(s.job.file) else Idle))
  }

  function DoChoose(w: World, sid: string, s: Session, io: Persist): World
    requires s.job.Choosing?
  {
    var f := s.job.file;
    var target := NextTarget(s.rec, f, s.job.index);
    var job' := if io.Stored? then Journalled(f, s.job.index, target) else Idle;
    Persisted(w, sid, s.(rec := s.rec.(targets := s.rec.targets[f.id := target]), job := job'), io)
  }

  function DoLink(w: World, sid: string, s: Session, readable: bool): World
    requires s.job.Journalled? && Live(w.disk, Part(sid, s.job.file.id))
  {
    var f, target := s.job.file, s.job.target;
    if target !in w.disk.names then
      Put(w.(disk := HardLink(w.disk, Part(sid, f.id), target), links := w.links + {(sid, f.id, target)}),
          sid, s.(job := Linked(f, target)))
    else if readable && Holds(w.disk, target, s.rec.manifest, f) then
      Put(w, sid, s.(job := Linked(f, target)))
    else
      Put(w, sid, s.(rec := s.rec.(targets := s.rec.targets - {f.id}), job := Choosing(f, s.job.index + 1)))
  }

  function DoSyncParent(w: World, sid: string, s: Session): World
    requires s.job.Linked?
  {
    Put(w.(disk := SyncDir(w.disk, Paths.TargetDir(Place(s.job.file)))), sid,
        s.(rec := s.rec.Publish(s.job.file.id, s.job.target), job := Published(s.job.file)))
  }

  function DoCommit(w: World, sid: string, s: Session, io: Persist): World
    requires s.job.Published?
  {
    Persisted(w, sid,
              if io.Stored? then s.(finished := s.rec.complete, job := Committed(s.job.file)) else s.(job := Idle),
              io)
  }

  function DoFinish(w: World, sid: string, s: Session, unlinked: bool): World
    requires s.job.Committed?
  {
    Dropped(w, sid, s, if unlinked then {s.job.file.id} else {})
    .(completions := if s.rec.complete then w.completions[sid := Events(w, sid) + 1] else w.completions)
  }

  predicate Enabled(w: World, step: Step) {
    match step
    case Register(m, _, _, _, _, _) =>
      ValidManifest(m) && m.request.transferId !in w.sessions && |w.sessions| < MAX_SESSIONS
    case SaveFile(p, bytes, synced) =>
      p.Dest? && p !in w.disk.names && Representable(p) && synced <= |bytes|
    case Crash(keep, lost) =>
      DiskOk(w.disk) && CutOk(w.disk, keep) && lost <= w.disk.volatile
    case _ =>
      step.sid in w.sessions && EnabledIn(w, step.sid, w.sessions[step.sid], step)
  }

  predicate EnabledIn(w: World, sid: string, s: Session, step: Step)
    requires !step.Register? && !step.SaveFile? && !step.Crash?
  {
    var r := s.rec;
    match step
    case Accept(_, _) => s.job.Idle? && !r.cancelled && !r.complete && r.decision != Rejected
    case Reject(_, _) => s.job.Idle? && r.decision == Pending
    case FireCancel(_) => !s.finished
    case Cancel(_, _, removed) => s.job.Idle? && s.fired && !r.complete && !r.cancelled && removed <= Ids(r.Files())
    case ForgetParts(_, removed) => s.job.Idle? && Terminal(r) && removed <= Ids(r.Files())
    case Forget(_) => s.job.Idle? && Terminal(r)
    case Begin(_, f, offset) =>
      && s.job.Idle? && !r.cancelled && !s.fired && r.decision == Accepted
      && f in r.Files() && f.id !in r.published && offset == Offset(w.disk, sid, r, f)
    case Chunk(_, bytes) => s.job.Receiving? && s.job.fd in w.disk.files && s.job.offset + |bytes| <= s.job.file.size
    case TornChunk(_, bytes) =>
      s.job.Receiving? && s.job.fd in w.disk.files && s.job.offset + |bytes| <= s.job.file.size
    case Interrupt(_) => s.job.Receiving? && s.job.fd in w.disk.files
    case Oversize(_, bytes, _) => s.job.Receiving? && s.job.offset + |bytes| > s.job.file.size
    case EndBody(_) => s.job.Receiving? && s.job.fd in w.disk.files
    case Verify(_) =>
      && s.job.Received? && !s.fired && Holds(w.disk, Part(sid, s.job.file.id), r.manifest, s.job.file)
      && !Paths.ReservedTarget(Render(TargetName(s.job.file, 0)))
    case Discard(_, _) => s.job.Received? && !Holds(w.disk, Part(sid, s.job.file.id), r.manifest, s.job.file)
    case Abort(_, _) => (s.job.Receiving? || s.job.Received?) && s.fired
    case Choose(_, _) => s.job.Choosing? && s.job.index < Paths.MAX_CANDIDATES
    case Link(_, _) => s.job.Journalled? && Live(w.disk, Part(sid, s.job.file.id))
    case SyncParent(_) => s.job.Linked?
    case Commit(_, _) => s.job.Published?
    case Finish(_, _) => s.job.Committed?
    case Abandon(_) => !s.job.Idle?
  }

  function Apply(w: World, step: Step): World
    requires Enabled(w, step)
  {
    match step
    case Register(m, owner, sourceIp, trusted, token, io) =>
      DoRegister(w, m.request.transferId, NewRecord(m, owner, sourceIp, trusted, token), io)
    case SaveFile(p, bytes, synced) =>
      w.(disk := CreateFile(w.disk, p, bytes, synced))
    case Crash(keep, lost) =>
      w.(disk := Cut(w.disk, keep, lost),
         sessions := LoadAll(w.journal),
         links := set l | l in w.links && l.2 !in lost)
    case _ => ApplyIn(w, step.sid, w.sessions[step.sid], step)
  }

  function ApplyIn(w: World, sid: string, s: Session, step: Step): World
    requires !step.Register? && !step.SaveFile? && !step.Crash?
    requires EnabledIn(w, sid, s, step)
  {
    match step
    case Accept(_, io) => Persisted(w, sid, s.(rec := s.rec.(decision := Accepted)), io)
    case Reject(_, io) => Persisted(w, sid, s.(rec := s.rec.(decision := Rejected)), io)
    case FireCancel(_) => Put(w, sid, s.(fired := true))
    case Cancel(_, io, removed) => DoCancel(w, sid, s, io, removed)
    case ForgetParts(_, removed) => Dropped(w, sid, s, removed)
    case Forget(_) => DoForget(w, sid, Ids(s.rec.Files()))
    case Begin(_, f, _) => DoBegin(w, sid, s, f)
    case Chunk(_, bytes) => DoAppend(w, sid, s, bytes, false)
    case TornChunk(_, bytes) => DoAppend(w, sid, s, bytes, true)
    case Interrupt(_) => DoSync(w, sid, s, false)
    case Oversize(_, _, unlinked) => DoDrop(w, sid, s, unlinked)
    case EndBody(_) => DoSync(w, sid, s, true)
    case Verify(_) => Put(w, sid, s.(job := Choosing(s.job.file, 0)))
    case Discard(_, unlinked) => DoDrop(w, sid, s, unlinked)
    case Abort(_, unlinked) => DoDrop(w, sid, s, unlinked)
    case Choose(_, io) => DoChoose(w, sid, s, io)
    case Link(_, readable) => DoLink(w, sid, s, readable)
    case SyncParent(_) => DoSyncParent(w, sid, s)
    case Commit(_, io) => DoCommit(w, sid, s, io)
    case Finish(_, unlinked) => DoFinish(w, sid, s, unlinked)
    case Abandon(_) => Put(w, sid, s.(job := Idle))
  }

  // ---------------------------------------------------------------- runs

  /** Before anything has been received: other programs' files only. */
  predicate Initial(w: World) {
    && DiskOk(w.disk)
    && (forall p :: p in w.disk.names ==> p.Dest? && Representable(p))
    && w.journal == map[] && w.sessions == map[] && w.completions == map[] && w.links == {}
  }

  predicate Taken(step: Step) {
    true
  }

  /** w' is the outcome of `step` in w.  The quantifier keeps the step relation folded in
      proofs about runs; naming Taken(step) opens it. */
  ghost predicate Next(w: World, step: Step, w': World) {
    forall s {:trigger Taken(s)} :: s == step ==> Enabled(w, s) && w' == Apply(w, s)
  }

  lemma NextMeans(w: World, step: Step, w': World)
    ensures Next(w, step, w') <==> Enabled(w, step) && w' == Apply(w, step)
  {
    assert Taken(step);
  }

  /** A finite run: states[k + 1] is the outcome of steps[k] in states[k]. */
  ghost predicate IsRun(states: seq<World>, steps: seq<Step>) {
    && |states| == |steps| + 1
    && forall k :: 0 <= k < |steps| ==> Next(states[k], steps[k], states[k + 1])
  }
}
