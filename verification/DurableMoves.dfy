/** When each step may be taken and what it makes of the world, one lemma a step, so that
    runs can be built without opening the whole step relation. */
module DurableMoves {
  import opened Wrappers
  import opened Manifests
  import opened Disks
  import opened Durable
  import Paths

  /** A step of a session. */
  lemma Acts(w: World, sid: string, step: Step)
    requires !step.Register? && !step.SaveFile? && !step.Crash? && step.sid == sid
    requires sid in w.sessions && EnabledIn(w, sid, w.sessions[sid], step)
    ensures Next(w, step, ApplyIn(w, sid, w.sessions[sid], step))
  {
    NextMeans(w, step, ApplyIn(w, sid, w.sessions[sid], step));
  }

  lemma TakesRegister(w: World, m: Manifest, owner: string, sourceIp: string, trusted: bool, token: string, io: Persist)
    requires ValidManifest(m) && m.request.transferId !in w.sessions && |w.sessions| < MAX_SESSIONS
    ensures Next(w, Step.Register(m, owner, sourceIp, trusted, token, io),
                 DoRegister(w, m.request.transferId, NewRecord(m, owner, sourceIp, trusted, token), io))
  {
    NextMeans(w, Step.Register(m, owner, sourceIp, trusted, token, io),
              DoRegister(w, m.request.transferId, NewRecord(m, owner, sourceIp, trusted, token), io));
  }

  lemma TakesCancel(w: World, sid: string, io: Persist, removed: set<string>)
    requires sid in w.sessions && removed <= Ids(w.sessions[sid].rec.Files())
    requires var s := w.sessions[sid]; s.job.Idle? && s.fired && !s.rec.complete && !s.rec.cancelled
    ensures Next(w, Cancel(sid, io, removed), DoCancel(w, sid, w.sessions[sid], io, removed))
  {
    Acts(w, sid, Cancel(sid, io, removed));
  }

  lemma TakesForget(w: World, sid: string)
    requires sid in w.sessions && w.sessions[sid].job.Idle? && Terminal(w.sessions[sid].rec)
    ensures Next(w, Forget(sid), DoForget(w, sid, Ids(w.sessions[sid].rec.Files())))
    ensures Next(w, ForgetParts(sid, Ids(w.sessions[sid].rec.Files())),
                 Dropped(w, sid, w.sessions[sid], Ids(w.sessions[sid].rec.Files())))
  {
    var ids := Ids(w.sessions[sid].rec.Files());
    Acts(w, sid, Forget(sid));
    Acts(w, sid, ForgetParts(sid, ids));
  }

  lemma TakesBegin(w: World, sid: string, f: FileInfo, offset: nat)
    requires sid in w.sessions && f in w.sessions[sid].rec.Files() && f.id !in w.sessions[sid].rec.published
    requires var s := w.sessions[sid]; s.job.Idle? && !s.rec.cancelled && !s.fired && s.rec.decision == Accepted
    requires offset == Offset(w.disk, sid, w.sessions[sid].rec, f)
    ensures Next(w, Begin(sid, f, offset), DoBegin(w, sid, w.sessions[sid], f))
  {
    Acts(w, sid, Begin(sid, f, offset));
  }

  lemma TakesAppend(w: World, sid: string, bytes: Bytes, torn: bool)
    requires sid in w.sessions && w.sessions[sid].job.Receiving? && w.sessions[sid].job.fd in w.disk.files
    requires w.sessions[sid].job.offset + |bytes| <= w.sessions[sid].job.file.size
    ensures Next(w, if torn then TornChunk(sid, bytes) else Chunk(sid, bytes),
                 DoAppend(w, sid, w.sessions[sid], bytes, torn))
  {
    Acts(w, sid, if torn then TornChunk(sid, bytes) else Chunk(sid, bytes));
  }

  lemma TakesSync(w: World, sid: string)
    requires sid in w.sessions && w.sessions[sid].job.Receiving? && w.sessions[sid].job.fd in w.disk.files
    ensures Next(w, Interrupt(sid), DoSync(w, sid, w.sessions[sid], false))
    ensures Next(w, EndBody(sid), DoSync(w, sid, w.sessions[sid], true))
  {
    Acts(w, sid, Interrupt(sid));
    Acts(w, sid, EndBody(sid));
  }

  lemma TakesAbort(w: World, sid: string, unlinked: bool)
    requires sid in w.sessions && (w.sessions[sid].job.Receiving? || w.sessions[sid].job.Received?)
    requires w.sessions[sid].fired
    ensures Next(w, Abort(sid, unlinked), DoDrop(w, sid, w.sessions[sid], unlinked))
  {
    Acts(w, sid, Abort(sid, unlinked));
  }

  lemma TakesDiscard(w: World, sid: string, unlinked: bool)
    requires sid in w.sessions && w.sessions[sid].job.Received?
    requires var s := w.sessions[sid]; !Holds(w.disk, Part(sid, s.job.file.id), s.rec.manifest, s.job.file)
    ensures Next(w, Discard(sid, unlinked), DoDrop(w, sid, w.sessions[sid], unlinked))
  {
    Acts(w, sid, Discard(sid, unlinked));
  }

  lemma TakesOversize(w: World, sid: string, bytes: Bytes, unlinked: bool)
    requires sid in w.sessions && w.sessions[sid].job.Receiving?
    requires w.sessions[sid].job.offset + |bytes| > w.sessions[sid].job.file.size
    ensures Next(w, Oversize(sid, bytes, unlinked), DoDrop(w, sid, w.sessions[sid], unlinked))
  {
    Acts(w, sid, Oversize(sid, bytes, unlinked));
  }

  /** The three ways an upload gives up its partial file. */
  lemma TakesDrop(w: World, sid: string, step: Step)
    requires step.Abort? || step.Discard? || step.Oversize?
    requires step.sid == sid && sid in w.sessions
    requires var s := w.sessions[sid];
             if step.Abort? then (s.job.Receiving? || s.job.Received?) && s.fired
             else if step.Discard? then
               s.job.Received? && !Holds(w.disk, Part(sid, s.job.file.id), s.rec.manifest, s.job.file)
             else s.job.Receiving? && s.job.offset + |step.bytes| > s.job.file.size
    ensures Next(w, step, DoDrop(w, sid, w.sessions[sid], step.unlinked))
  {
    match step
    case Abort(_, unlinked) => TakesAbort(w, sid, unlinked);
    case Discard(_, unlinked) => TakesDiscard(w, sid, unlinked);
    case Oversize(_, bytes, unlinked) => TakesOversize(w, sid, bytes, unlinked);
  }

  lemma TakesVerify(w: World, sid: string)
    requires sid in w.sessions && w.sessions[sid].job.Received? && !w.sessions[sid].fired
    requires var s := w.sessions[sid];
             && Holds(w.disk, Part(sid, s.job.file.id), s.rec.manifest, s.job.file)
             && !Paths.ReservedTarget(Render(TargetName(s.job.file, 0)))
    ensures Next(w, Verify(sid), Put(w, sid, w.sessions[sid].(job := Choosing(w.sessions[sid].job.file, 0))))
  {
    Acts(w, sid, Verify(sid));
  }

  lemma TakesAbandon(w: World, sid: string)
    requires sid in w.sessions && !w.sessions[sid].job.Idle?
    ensures Next(w, Abandon(sid), Put(w, sid, w.sessions[sid].(job := Idle)))
  {
    Acts(w, sid, Abandon(sid));
  }

  lemma TakesChoose(w: World, sid: string, io: Persist)
    requires sid in w.sessions && w.sessions[sid].job.Choosing? && w.sessions[sid].job.index < Paths.MAX_CANDIDATES
    ensures Next(w, Choose(sid, io), DoChoose(w, sid, w.sessions[sid], io))
  {
    Acts(w, sid, Choose(sid, io));
  }

  lemma TakesLink(w: World, sid: string, readable: bool)
    requires sid in w.sessions && w.sessions[sid].job.Journalled?
    requires Live(w.disk, Part(sid, w.sessions[sid].job.file.id))
    ensures Next(w, Link(sid, readable), DoLink(w, sid, w.sessions[sid], readable))
  {
    Acts(w, sid, Link(sid, readable));
  }

  lemma TakesSyncParent(w: World, sid: string)
    requires sid in w.sessions && w.sessions[sid].job.Linked?
    ensures Next(w, SyncParent(sid), DoSyncParent(w, sid, w.sessions[sid]))
  {
    Acts(w, sid, SyncParent(sid));
  }

  lemma TakesCommit(w: World, sid: string, io: Persist)
    requires sid in w.sessions && w.sessions[sid].job.Published?
    ensures Next(w, Commit(sid, io), DoCommit(w, sid, w.sessions[sid], io))
  {
    Acts(w, sid, Commit(sid, io));
  }

  lemma TakesFinish(w: World, sid: string, unlinked: bool)
    requires sid in w.sessions && w.sessions[sid].job.Committed?
    ensures Next(w, Finish(sid, unlinked), DoFinish(w, sid, w.sessions[sid], unlinked))
  {
    Acts(w, sid, Finish(sid, unlinked));
  }

  lemma CrashesTo(w: World, keep: map<Inode, nat>, lost: set<Path>) returns (w': World)
    requires DiskOk(w.disk) && CutOk(w.disk, keep) && lost <= w.disk.volatile
    ensures Next(w, Crash(keep, lost), w')
    ensures w' == World(Cut(w.disk, keep, lost), w.journal, LoadAll(w.journal), w.completions,
                        set l | l in w.links && l.2 !in lost)
  {
    w' := World(Cut(w.disk, keep, lost), w.journal, LoadAll(w.journal), w.completions,
                set l | l in w.links && l.2 !in lost);
    NextMeans(w, Crash(keep, lost), w');
  }

  /** Everything there is becomes durable. */
  function Flushed(d: Disk): Disk {
    d.(files := map i | i in d.files :: Content(d.files[i].bytes, |d.files[i].bytes|), volatile := {})
  }

  lemma KeptAll(d: Disk, keep: map<Inode, nat>)
    requires DiskOk(d) && CutOk(d, keep) && forall i :: i in d.files ==> keep[i] == |d.files[i].bytes|
    ensures Cut(d, keep, {}) == Flushed(d)
  {
    forall i | i in d.files ensures d.files[i].bytes[..keep[i]] == d.files[i].bytes {
    }
    assert d.names - {} == d.names;
  }

  /** A crash that loses no byte and no name. */
  lemma TakesRestart(w: World) returns (keep: map<Inode, nat>)
    requires DiskOk(w.disk)
    ensures Next(w, Crash(keep, {}), w.(disk := Flushed(w.disk), sessions := LoadAll(w.journal)))
  {
    keep := map i | i in w.disk.files :: |w.disk.files[i].bytes|;
    KeptAll(w.disk, keep);
    assert (set l | l in w.links && l.2 !in {}) == w.links;
    NextMeans(w, Crash(keep, {}), w.(disk := Cut(w.disk, keep, {}), sessions := LoadAll(w.journal)));
  }

  lemma FourSteps(w0: World, s1: Step, w1: World, s2: Step, w2: World, s3: Step, w3: World, s4: Step, w4: World)
    requires Next(w0, s1, w1) && Next(w1, s2, w2) && Next(w2, s3, w3) && Next(w3, s4, w4)
    ensures IsRun([w0, w1, w2, w3, w4], [s1, s2, s3, s4])
  {
  }
}
