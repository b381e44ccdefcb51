/** One lemma per step: the invariant survives it. */
module DurableSteps {
  import opened Wrappers
  import opened Manifests
  import opened Disks
  import opened Durable
  import opened DurableInvariant
  import Paths

  lemma LocalAt(w: World, sid: string)
    ensures Inv(w) ==> OwnsParts(w, sid)
    ensures Inv(w) && sid in w.sessions ==> Local(w, sid)
    ensures Inv(w) && sid !in w.sessions ==> Unregistered(w, sid)
  {
  }

  // ---------------------------------------------------------------- decisions and cancellation

  lemma SamePublished(d: Disk, r: Record, r': Record)
    ensures PublishedOk(d, r) && r'.manifest == r.manifest && r'.published == r.published ==> PublishedOk(d, r')
  {
  }

  lemma SameEntries(r: Record, r': Record)
    ensures RecordOk(r) && r'.manifest == r.manifest && r'.published == r.published && r'.targets == r.targets
            ==> EntriesOk(r'.Files(), r'.published) && EntriesOk(r'.Files(), r'.targets)
  {
  }

  lemma DecideSession(d: Disk, j: Record, s: Session, sid: string, events: nat, decision: Decision, stored: bool)
    requires SessionOk(d, j, s, sid, events) && s.job.Idle?
    requires decision == Accepted || (decision == Rejected && s.rec.decision == Pending)
    requires s.rec.decision != Rejected
    ensures var r' := s.rec.(decision := decision);
            SessionOk(d, if stored then r' else j, s.(rec := r'), sid, events)
  {
    var r' := s.rec.(decision := decision);
    assert RecordOk(r') by {
      assert RecordShape(r');
      SameEntries(s.rec, r');
    }
    SamePublished(d, s.rec, r');
    assert Behind(j, r');
  }

  /** Replacing one session, its journal entry and its event count leaves the rest alone. */
  lemma UpdateIsLocal(w: World, w': World, sid: string, s': Session, j': Record, n': nat)
    ensures w'.sessions == w.sessions[sid := s']
            && (w'.journal == w.journal || w'.journal == w.journal[sid := j'])
            && (w'.completions == w.completions || w'.completions == w.completions[sid := n'])
            ==> OthersSame(w, w', sid)
  {
  }

  /** A step that leaves the disk alone and persists (or only replaces) the session. */
  lemma KeepPersisted(w: World, sid: string, s': Session, io: Persist)
    requires sid in w.sessions && sid in w.journal
    ensures Inv(w) && s'.rec.Files() == w.sessions[sid].rec.Files()
            && SessionOk(w.disk, if io == Failed(false) then w.journal[sid] else s'.rec, s', sid, Events(w, sid))
            ==> Inv(Persisted(w, sid, s', io))
  {
    LocalAt(w, sid);
    KeepsSelf(w.disk, sid);
    UpdateIsLocal(w, Persisted(w, sid, s', io), sid, s', s'.rec, 0);
    assert Inv(w) && s'.rec.Files() == w.sessions[sid].rec.Files() ==> OwnsParts(Persisted(w, sid, s', io), sid);
    Carry(w, Persisted(w, sid, s', io), sid);
  }

  lemma KeepPut(w: World, sid: string, s': Session)
    requires sid in w.sessions && sid in w.journal
    ensures Inv(w) && s'.rec.Files() == w.sessions[sid].rec.Files()
            && SessionOk(w.disk, w.journal[sid], s', sid, Events(w, sid))
            ==> Inv(Put(w, sid, s'))
  {
    LocalAt(w, sid);
    KeepsSelf(w.disk, sid);
    UpdateIsLocal(w, Put(w, sid, s'), sid, s', s'.rec, 0);
    assert Inv(w) && s'.rec.Files() == w.sessions[sid].rec.Files() ==> OwnsParts(Put(w, sid, s'), sid);
    Carry(w, Put(w, sid, s'), sid);
  }

  lemma KeepDecide(w: World, sid: string, decision: Decision, io: Persist)
    requires Inv(w) && sid in w.sessions
    requires var s := w.sessions[sid];
             s.job.Idle? && s.rec.decision != Rejected
             && (decision == Accepted || (decision == Rejected && s.rec.decision == Pending))
    ensures Inv(Persisted(w, sid, w.sessions[sid].(rec := w.sessions[sid].rec.(decision := decision)), io))
  {
    LocalAt(w, sid);
    var s := w.sessions[sid];
    DecideSession(w.disk, w.journal[sid], s, sid, Events(w, sid), decision, io != Failed(false));
    KeepPersisted(w, sid, s.(rec := s.rec.(decision := decision)), io);
  }

  lemma FireSession(d: Disk, j: Record, s: Session, sid: string, events: nat)
    requires SessionOk(d, j, s, sid, events)
    ensures SessionOk(d, j, s.(fired := true), sid, events)
  {
  }

  lemma UnlinkFit(d: Disk, sid: string, files: seq<FileInfo>, gone: set<Path>)
    requires PartsFit(d, sid, files)
    ensures PartsFit(Unlink(d, gone), sid, files)
  {
  }

  /** Removing partial files of a session that no upload is using. */
  lemma UnlinkSession(d: Disk, j: Record, s: Session, sid: string, events: nat, gone: set<Path>)
    requires forall p :: p in gone ==> p.Part? && p.session == sid
    ensures SessionOk(d, j, s, sid, events) && DiskOk(d)
            ==> SessionOk(Unlink(d, gone), j, s.(job := Idle), sid, events)
  {
    if SessionOk(d, j, s, sid, events) && DiskOk(d) {
      UnlinkKeeps(d, sid, gone);
      PublishedFrame(d, Unlink(d, gone), s.rec, sid);
      UnlinkFit(d, sid, s.rec.Files(), gone);
    }
  }

  lemma KeepDropped(w: World, sid: string, s: Session, ids: set<string>)
    requires Inv(w) && sid in w.sessions && w.sessions[sid] == s
    ensures Inv(Dropped(w, sid, s, ids))
  {
    LocalAt(w, sid);
    var gone := Parts(sid, ids);
    UnlinkKeeps(w.disk, sid, gone);
    UnlinkSession(w.disk, w.journal[sid], s, sid, Events(w, sid), gone);
    UpdateIsLocal(w, Dropped(w, sid, s, ids), sid, s.(job := Idle), s.rec, 0);
    assert Local(Dropped(w, sid, s, ids), sid) && OwnsParts(Dropped(w, sid, s, ids), sid);
    Carry(w, Dropped(w, sid, s, ids), sid);
  }

  lemma CancelSession(d: Disk, j: Record, s: Session, sid: string, events: nat, stored: bool)
    requires SessionOk(d, j, s, sid, events) && s.job.Idle? && s.fired && !s.rec.complete
    ensures var r' := s.rec.(cancelled := true);
            SessionOk(d, if stored then r' else j, s.(rec := r'), sid, events)
  {
    var r' := s.rec.(cancelled := true);
    assert RecordOk(r') by {
      assert RecordShape(r');
      SameEntries(s.rec, r');
    }
    SamePublished(d, s.rec, r');
    assert Behind(j, r');
  }

  lemma KeepCancel(w: World, sid: string, s: Session, io: Persist, removed: set<string>)
    requires Inv(w) && sid in w.sessions && w.sessions[sid] == s
    requires s.job.Idle? && s.fired && !s.rec.complete
    ensures Inv(DoCancel(w, sid, s, io, removed))
  {
    LocalAt(w, sid);
    var s' := s.(rec := s.rec.(cancelled := true));
    CancelSession(w.disk, w.journal[sid], s, sid, Events(w, sid), io != Failed(false));
    KeepPersisted(w, sid, s', io);
    KeepDropped(Persisted(w, sid, s', io), sid, s', removed);
  }

  lemma ForgetIsLocal(w: World, sid: string, ids: set<string>)
    ensures OthersSame(w, DoForget(w, sid, ids), sid)
  {
  }

  lemma KeepForget(w: World, sid: string)
    requires Inv(w) && sid in w.sessions
    ensures Inv(DoForget(w, sid, Ids(w.sessions[sid].rec.Files())))
  {
    LocalAt(w, sid);
    var ids := Ids(w.sessions[sid].rec.Files());
    var w' := DoForget(w, sid, ids);
    var gone := Parts(sid, ids);
    UnlinkKeeps(w.disk, sid, gone);
    ForgetIsLocal(w, sid, ids);
    assert Unregistered(w', sid);
    CarrySessions(w, w', sid);
    CarryJournal(w, w', sid);
    assert OwnsParts(w', sid);
    CarryParts(w, w', sid);
  }

  lemma NewRecordOk(m: Manifest, owner: string, sourceIp: string, trusted: bool, token: string)
    requires ValidManifest(m)
    ensures OrphanOk(NewRecord(m, owner, sourceIp, trusted, token))
  {
    var r := NewRecord(m, owner, sourceIp, trusted, token);
    assert r.Files()[0].id in Ids(r.Files());
  }

  lemma NewSessionOk(d: Disk, r: Record, sid: string)
    requires OrphanOk(r) && forall id :: Part(sid, id) !in d.names
    ensures SessionOk(d, r, Session(r, false, false, Idle), sid, 0)
  {
  }

  lemma RegisterIsLocal(w: World, sid: string, r: Record, io: Persist)
    ensures OthersSame(w, DoRegister(w, sid, r, io), sid)
  {
  }

  lemma KeepRegister(w: World, sid: string, r: Record, io: Persist)
    requires Inv(w) && sid !in w.sessions && OrphanOk(r)
    ensures Inv(DoRegister(w, sid, r, io))
  {
    LocalAt(w, sid);
    var w' := DoRegister(w, sid, r, io);
    KeepsSelf(w.disk, sid);
    RegisterIsLocal(w, sid, r, io);
    assert forall id :: Part(sid, id) !in w'.disk.names;
    if io.Stored? {
      NewSessionOk(w.disk, r, sid);
      assert Local(w', sid) && OwnsParts(w', sid);
      Carry(w, w', sid);
    } else {
      assert Unregistered(w', sid) && OwnsParts(w', sid);
      CarrySessions(w, w', sid);
      CarryJournal(w, w', sid);
      CarryParts(w, w', sid);
    }
  }

  // ---------------------------------------------------------------- receiving bytes

  lemma OpenSession(d: Disk, j: Record, s: Session, sid: string, events: nat, f: FileInfo, start: nat, baseline: nat)
    requires SessionOk(d, j, s, sid, events) && DiskOk(d)
    requires s.job.Idle? && !s.rec.cancelled && s.rec.decision == Accepted && f in s.rec.Files()
    requires f.id !in s.rec.published
    requires start == Offset(d, sid, s.rec, f)
    ensures var d' := OpenAppend(d, Part(sid, f.id));
            SessionOk(d', j, s.(job := Receiving(f, d'.names[Part(sid, f.id)], start, baseline, start)), sid, events)
  {
    var d' := OpenAppend(d, Part(sid, f.id));
    OpenKeeps(d, sid, f.id);
    PublishedFrame(d, d', s.rec, sid);
    OpenFit(d, sid, s.rec.Files(), f);
  }

  lemma OpenFit(d: Disk, sid: string, files: seq<FileInfo>, f: FileInfo)
    requires PartsFit(d, sid, files) && DiskOk(d) && f in files && DistinctIds(files)
    ensures PartsFit(OpenAppend(d, Part(sid, f.id)), sid, files)
  {
    var d' := OpenAppend(d, Part(sid, f.id));
    if Part(sid, f.id) !in d.names {
      assert d.next !in d.files;
      forall g | g in files && Live(d', Part(sid, g.id))
        ensures |At(d', Part(sid, g.id)).bytes| <= g.size
      {
        if g.id != f.id {
          assert Live(d, Part(sid, g.id)) && At(d', Part(sid, g.id)) == At(d, Part(sid, g.id));
        }
      }
      forall g, q: Path | g in files && q.Dest? && Live(d', Part(sid, g.id)) && Aliased(d', Part(sid, g.id), q)
        ensures |At(d', Part(sid, g.id)).bytes| == g.size
      {
        assert q in d.names && d.names[q] != d.next;
        assert g.id != f.id && Aliased(d, Part(sid, g.id), q);
      }
    }
  }

  lemma KeepBegin(w: World, sid: string, s: Session, f: FileInfo)
    requires Inv(w) && sid in w.sessions && w.sessions[sid] == s
    requires s.job.Idle? && !s.rec.cancelled && s.rec.decision == Accepted && f in s.rec.Files()
    requires f.id !in s.rec.published
    ensures Inv(DoBegin(w, sid, s, f))
  {
    LocalAt(w, sid);
    var w' := DoBegin(w, sid, s, f);
    OpenKeeps(w.disk, sid, f.id);
    OpenKeepsOk(w.disk, sid, f.id);
    OpenSession(w.disk, w.journal[sid], s, sid, Events(w, sid), f,
                Offset(w.disk, sid, s.rec, f), OffsetSum(w.disk, sid, s.rec, s.rec.Files()));
    UpdateIsLocal(w, w', sid, w'.sessions[sid], s.rec, 0);
    assert f.id in Ids(s.rec.Files());
    assert Local(w', sid) && OwnsParts(w', sid);
    Carry(w, w', sid);
  }

  /** The size guard leaves room only while no destination shares the partial file. */
  lemma RoomMeansUnaliased(d: Disk, sid: string, files: seq<FileInfo>, f: FileInfo, more: nat)
    requires PartsFit(d, sid, files) && f in files && Live(d, Part(sid, f.id))
    requires |At(d, Part(sid, f.id)).bytes| + more <= f.size
    ensures more == 0 || forall q: Path :: q.Dest? ==> !Aliased(d, Part(sid, f.id), q)
  {
  }

  lemma AppendFit(d: Disk, sid: string, files: seq<FileInfo>, f: FileInfo, bytes: Bytes)
    requires PartsFit(d, sid, files) && DiskOk(d) && f in files && DistinctIds(files) && Live(d, Part(sid, f.id))
    requires |At(d, Part(sid, f.id)).bytes| + |bytes| <= f.size
    ensures PartsFit(Append(d, d.names[Part(sid, f.id)], bytes), sid, files)
  {
    var i := d.names[Part(sid, f.id)];
    var d' := Append(d, i, bytes);
    RoomMeansUnaliased(d, sid, files, f, |bytes|);
    forall g | g in files && Live(d', Part(sid, g.id))
      ensures |At(d', Part(sid, g.id)).bytes| <= g.size
      ensures At(d', Part(sid, g.id)).bytes == At(d, Part(sid, g.id)).bytes + if g.id == f.id then bytes else []
    {
      if g.id == f.id {
        SameFile(files, f, g);
      } else {
        assert d.names[Part(sid, g.id)] != i;
      }
    }
    forall g, q: Path | g in files && q.Dest? && Live(d', Part(sid, g.id)) && Aliased(d', Part(sid, g.id), q)
      ensures |At(d', Part(sid, g.id)).bytes| == g.size
    {
      assert Aliased(d, Part(sid, g.id), q);
      if g.id == f.id {
        SameFile(files, f, g);
        assert |bytes| == 0;
      }
    }
  }

  lemma AppendSession(d: Disk, j: Record, s: Session, sid: string, events: nat, bytes: Bytes, torn: bool)
    requires SessionOk(d, j, s, sid, events) && DiskOk(d)
    requires s.job.Receiving? && s.job.offset + |bytes| <= s.job.file.size
    requires s.job.fd in d.files
    ensures var d' := Append(d, s.job.fd, bytes);
            DiskOk(d') && Keeps(d, d', sid)
            && SessionOk(d', j, s.(job := if torn then Idle else s.job.(offset := s.job.offset + |bytes|)), sid, events)
  {
    var f := s.job.file;
    var d' := Append(d, s.job.fd, bytes);
    RoomMeansUnaliased(d, sid, s.rec.Files(), f, |bytes|);
    AppendKeeps(d, sid, f.id, bytes);
    PublishedFrame(d, d', s.rec, sid);
    AppendFit(d, sid, s.rec.Files(), f, bytes);
  }

  lemma KeepAppend(w: World, sid: string, s: Session, bytes: Bytes, torn: bool)
    requires Inv(w) && sid in w.sessions && w.sessions[sid] == s
    requires s.job.Receiving? && s.job.offset + |bytes| <= s.job.file.size && s.job.fd in w.disk.files
    ensures Inv(DoAppend(w, sid, s, bytes, torn))
  {
    LocalAt(w, sid);
    var w' := DoAppend(w, sid, s, bytes, torn);
    AppendSession(w.disk, w.journal[sid], s, sid, Events(w, sid), bytes, torn);
    UpdateIsLocal(w, w', sid, w'.sessions[sid], s.rec, 0);
    assert Local(w', sid) && OwnsParts(w', sid);
    Carry(w, w', sid);
  }

  lemma SyncFit(d: Disk, sid: string, files: seq<FileInfo>, i: Inode)
    requires PartsFit(d, sid, files) && i in d.files
    ensures PartsFit(Sync(d, i), sid, files)
  {
    var d' := Sync(d, i);
    forall g | g in files && Live(d', Part(sid, g.id))
      ensures At(d', Part(sid, g.id)).bytes == At(d, Part(sid, g.id)).bytes
    {
    }
    forall p: Path, q: Path ensures Aliased(d', p, q) == Aliased(d, p, q) {
    }
  }

  lemma SyncSession(d: Disk, j: Record, s: Session, sid: string, events: nat, atEnd: bool)
    requires SessionOk(d, j, s, sid, events) && DiskOk(d) && s.job.Receiving?
    requires s.job.fd in d.files
    ensures DiskOk(Sync(d, s.job.fd)) && Keeps(d, Sync(d, s.job.fd), sid)
    ensures SessionOk(Sync(d, s.job.fd), j,
                      s.(job := if atEnd && s.job.offset == s.job.file.size then Received(s.job.file) else Idle),
                      sid, events)
  {
    var d' := Sync(d, s.job.fd);
    SyncKeeps(d, sid, s.job.file.id);
    PublishedFrame(d, d', s.rec, sid);
    SyncFit(d, sid, s.rec.Files(), s.job.fd);
  }

  lemma KeepSync(w: World, sid: string, s: Session, atEnd: bool)
    requires Inv(w) && sid in w.sessions && w.sessions[sid] == s && s.job.Receiving? && s.job.fd in w.disk.files
    ensures Inv(DoSync(w, sid, s, atEnd))
  {
    LocalAt(w, sid);
    var w' := DoSync(w, sid, s, atEnd);
    SyncSession(w.disk, w.journal[sid], s, sid, Events(w, sid), atEnd);
    UpdateIsLocal(w, w', sid, w'.sessions[sid], s.rec, 0);
    assert Local(w', sid) && OwnsParts(w', sid);
    Carry(w, w', sid);
  }

  // ---------------------------------------------------------------- publishing

  /** One reserved-directory check covers every candidate the loop may try. */
  lemma CandidateOk(f: FileInfo, index: nat)
    requires Representable(TargetName(f, 0))
    ensures TargetOk(f, TargetName(f, index))
  {
    var dir, base := Paths.TargetDir(Place(f)), Paths.TargetBase(Place(f));
    Paths.TargetIsSafe(Place(f));
    Paths.CandidateIsSafe(base, index);
    Paths.ReservedCheckCoversCandidates(dir, base, index);
    if index > 0 {
      Paths.NumberingRulesAgree(base, index);
    }
    assert Paths.DurableCandidate(base, 0) == base;
    assert Paths.DurableCandidate(base, index) == Paths.LegacyCandidate(base, index);
  }

  lemma VerifySession(d: Disk, j: Record, s: Session, sid: string, events: nat)
    requires SessionOk(d, j, s, sid, events) && s.job.Received?
    requires Holds(d, Part(sid, s.job.file.id), s.rec.manifest, s.job.file) && Representable(TargetName(s.job.file, 0))
    ensures SessionOk(d, j, s.(job := Choosing(s.job.file, 0)), sid, events)
  {
  }

  lemma RetargetRecord(r: Record, f: FileInfo, target: Path)
    requires RecordOk(r) && f in r.Files() && TargetOk(f, target)
    ensures RecordOk(r.(targets := r.targets[f.id := target]))
  {
    var targets' := r.targets[f.id := target];
    AddEntry(r.Files(), r.targets, f, target);
    assert f.id in Ids(r.Files());
    assert RecordShape(r.(targets := targets'));
  }

  lemma AddEntry(files: seq<FileInfo>, entries: map<string, Path>, f: FileInfo, target: Path)
    requires DistinctIds(files) && EntriesOk(files, entries) && f in files && TargetOk(f, target)
    ensures EntriesOk(files, entries[f.id := target])
  {
    forall g | g in files && g.id in entries[f.id := target] ensures TargetOk(g, entries[f.id := target][g.id]) {
      if g.id == f.id {
        SameFile(files, f, g);
      }
    }
  }

  lemma DropTarget(r: Record, id: string)
    requires RecordOk(r)
    ensures RecordOk(r.(targets := r.targets - {id}))
  {
    assert RecordShape(r.(targets := r.targets - {id}));
    assert EntriesOk(r.Files(), r.targets - {id});
  }

  lemma ChooseSession(d: Disk, j: Record, s: Session, sid: string, events: nat, target: Path, io: Persist)
    requires SessionOk(d, j, s, sid, events) && s.job.Choosing? && TargetOk(s.job.file, target)
    ensures var f := s.job.file;
            var r' := s.rec.(targets := s.rec.targets[f.id := target]);
            SessionOk(d, if io == Failed(false) then j else r',
                      s.(rec := r', job := if io.Stored? then Journalled(f, s.job.index, target) else Idle),
                      sid, events)
  {
    var f := s.job.file;
    RetargetRecord(s.rec, f, target);
    SamePublished(d, s.rec, s.rec.(targets := s.rec.targets[f.id := target]));
  }

  lemma NextTargetOk(d: Disk, j: Record, s: Session, sid: string, events: nat)
    requires SessionOk(d, j, s, sid, events) && s.job.Choosing?
    ensures TargetOk(s.job.file, NextTarget(s.rec, s.job.file, s.job.index))
  {
    CandidateOk(s.job.file, s.job.index);
  }

  lemma KeepChoose(w: World, sid: string, s: Session, io: Persist)
    requires Inv(w) && sid in w.sessions && w.sessions[sid] == s && s.job.Choosing?
    ensures Inv(DoChoose(w, sid, s, io))
  {
    LocalAt(w, sid);
    var target := NextTarget(s.rec, s.job.file, s.job.index);
    NextTargetOk(w.disk, w.journal[sid], s, sid, Events(w, sid));
    ChooseSession(w.disk, w.journal[sid], s, sid, Events(w, sid), target, io);
    var s' := DoChoose(w, sid, s, io).sessions[sid];
    KeepPersisted(w, sid, s', io);
  }

  lemma LinkFit(d: Disk, sid: string, files: seq<FileInfo>, f: FileInfo, to: Path)
    requires PartsFit(d, sid, files) && DiskOk(d) && DistinctIds(files) && f in files && Live(d, Part(sid, f.id))
    requires |At(d, Part(sid, f.id)).bytes| == f.size && to.Dest? && to !in d.names
    ensures PartsFit(HardLink(d, Part(sid, f.id), to), sid, files)
  {
    var d' := HardLink(d, Part(sid, f.id), to);
    forall g, q: Path | g in files && q.Dest? && Live(d', Part(sid, g.id)) && Aliased(d', Part(sid, g.id), q)
      ensures |At(d', Part(sid, g.id)).bytes| == g.size
    {
      if q == to {
        assert d.names[Part(sid, g.id)] == d.names[Part(sid, f.id)];
        SameFile(files, f, g);
      } else {
        assert Aliased(d, Part(sid, g.id), q);
      }
    }
  }

  lemma LinkHolds(d: Disk, sid: string, m: Manifest, f: FileInfo, to: Path)
    requires PartVerified(d, sid, m, f) && to !in d.names
    ensures var d' := HardLink(d, Part(sid, f.id), to);
            PartVerified(d', sid, m, f) && Holds(d', to, m, f)
  {
  }

  lemma LinkSession(d: Disk, j: Record, s: Session, sid: string, events: nat)
    requires SessionOk(d, j, s, sid, events) && DiskOk(d) && s.job.Journalled? && s.job.target !in d.names
    ensures var d' := HardLink(d, Part(sid, s.job.file.id), s.job.target);
            DiskOk(d') && Keeps(d, d', sid)
            && SessionOk(d', j, s.(job := Linked(s.job.file, s.job.target)), sid, events)
  {
    var f := s.job.file;
    var d' := HardLink(d, Part(sid, f.id), s.job.target);
    LinkHolds(d, sid, s.rec.manifest, f, s.job.target);
    LinkKeeps(d, sid, f.id, s.job.target);
    PublishedFrame(d, d', s.rec, sid);
    LinkFit(d, sid, s.rec.Files(), f, s.job.target);
  }

  lemma AdoptSession(d: Disk, j: Record, s: Session, sid: string, events: nat)
    requires s.job.Journalled?
    ensures SessionOk(d, j, s, sid, events) && Holds(d, s.job.target, s.rec.manifest, s.job.file)
            ==> SessionOk(d, j, s.(job := Linked(s.job.file, s.job.target)), sid, events)
  {
  }

  lemma SkipSession(d: Disk, j: Record, s: Session, sid: string, events: nat)
    requires s.job.Journalled?
    ensures var r' := s.rec.(targets := s.rec.targets - {s.job.file.id});
            SessionOk(d, j, s, sid, events)
            ==> SessionOk(d, j, s.(rec := r', job := Choosing(s.job.file, s.job.index + 1)), sid, events)
  {
    if SessionOk(d, j, s, sid, events) {
      var s' := s.(rec := s.rec.(targets := s.rec.targets - {s.job.file.id}),
                   job := Choosing(s.job.file, s.job.index + 1));
      DropTarget(s.rec, s.job.file.id);
      SamePublished(d, s.rec, s'.rec);
      assert Behind(j, s'.rec);
      assert JobOk(d, j, s', sid, events);
    }
  }

  lemma KeepNewLink(w: World, sid: string, s: Session)
    requires Inv(w) && sid in w.sessions && w.sessions[sid] == s
    requires s.job.Journalled? && Live(w.disk, Part(sid, s.job.file.id)) && s.job.target !in w.disk.names
    ensures Inv(DoLink(w, sid, s, true))
    ensures forall readable :: DoLink(w, sid, s, readable) == DoLink(w, sid, s, true)
  {
    LocalAt(w, sid);
    var w' := DoLink(w, sid, s, true);
    LinkSession(w.disk, w.journal[sid], s, sid, Events(w, sid));
    UpdateIsLocal(w, w', sid, w'.sessions[sid], s.rec, 0);
    LinkNames(w, w', sid, s);
    assert Local(w', sid) && OwnsParts(w', sid);
    Carry(w, w', sid);
  }

  lemma LinkNames(w: World, w': World, sid: string, s: Session)
    requires s.job.Journalled? && Live(w.disk, Part(sid, s.job.file.id)) && s.job.target !in w.disk.names
    requires w' == DoLink(w, sid, s, true)
    ensures NamesOk(w) && TargetOk(s.job.file, s.job.target) ==> NamesOk(w')
  {
  }

  lemma KeepAdopt(w: World, sid: string, s: Session)
    requires Inv(w) && sid in w.sessions && w.sessions[sid] == s && s.job.Journalled?
    requires Holds(w.disk, s.job.target, s.rec.manifest, s.job.file)
    ensures Inv(Put(w, sid, s.(job := Linked(s.job.file, s.job.target))))
  {
    LocalAt(w, sid);
    AdoptSession(w.disk, w.journal[sid], s, sid, Events(w, sid));
    KeepPut(w, sid, s.(job := Linked(s.job.file, s.job.target)));
  }

  lemma KeepSkip(w: World, sid: string, s: Session)
    requires Inv(w) && sid in w.sessions && w.sessions[sid] == s && s.job.Journalled?
    ensures var r' := s.rec.(targets := s.rec.targets - {s.job.file.id});
            Inv(Put(w, sid, s.(rec := r', job := Choosing(s.job.file, s.job.index + 1))))
  {
    LocalAt(w, sid);
    var r' := s.rec.(targets := s.rec.targets - {s.job.file.id});
    SkipSession(w.disk, w.journal[sid], s, sid, Events(w, sid));
    KeepPut(w, sid, s.(rec := r', job := Choosing(s.job.file, s.job.index + 1)));
  }

  /** Counting published files decides completeness. */
  lemma PublishCount(files: seq<FileInfo>, published: map<string, Path>, id: string, target: Path)
    requires DistinctIds(files) && published.Keys <= Ids(files) && id in Ids(files)
    ensures var published' := published[id := target];
            && published'.Keys == published.Keys + {id}
            && (|published'| == |files| <==> published'.Keys == Ids(files))
  {
    var published' := published[id := target];
    assert |published'| == |published'.Keys|;
    CountDecidesAll(files, published'.Keys);
  }

  lemma PublishShape(r: Record, f: FileInfo, target: Path)
    requires RecordShape(r) && f in r.Files() && f.id !in r.published && r.decision == Accepted && !r.cancelled
    ensures RecordShape(r.Publish(f.id, target)) && !r.complete
  {
    assert f.id in Ids(r.Files());
    PublishCount(r.Files(), r.published, f.id, target);
  }

  lemma PublishRecord(r: Record, f: FileInfo, target: Path)
    requires RecordOk(r) && f in r.Files() && f.id !in r.published && r.decision == Accepted && !r.cancelled
    requires TargetOk(f, target)
    ensures RecordOk(r.Publish(f.id, target)) && !r.complete
  {
    PublishShape(r, f, target);
    AddEntry(r.Files(), r.published, f, target);
  }

  lemma SyncDirFit(d: Disk, sid: string, files: seq<FileInfo>, dir: seq<string>)
    ensures PartsFit(d, sid, files) ==> PartsFit(SyncDir(d, dir), sid, files)
  {
    forall p: Path, q: Path ensures Aliased(SyncDir(d, dir), p, q) == Aliased(d, p, q) {
    }
  }

  lemma PublishHolds(d: Disk, r: Record, f: FileInfo, target: Path)
    ensures PublishedOk(d, r) && DistinctIds(r.Files()) && f in r.Files()
            && TargetOk(f, target) && Holds(d, target, r.manifest, f)
            ==> PublishedOk(SyncDir(d, Paths.TargetDir(Place(f))), r.Publish(f.id, target))
  {
    var d' := SyncDir(d, Paths.TargetDir(Place(f)));
    var r' := r.Publish(f.id, target);
    if PublishedOk(d, r) && DistinctIds(r.Files()) && f in r.Files()
       && TargetOk(f, target) && Holds(d, target, r.manifest, f)
    {
      forall g | g in r'.Files() && g.id in r'.published
        ensures Anchored(d', r'.published[g.id])
      {
        if g.id != f.id {
          assert Anchored(d, r.published[g.id]);
        }
      }
    }
  }

  lemma BehindPublish(j: Record, r: Record, f: FileInfo, target: Path)
    ensures Behind(j, r) && f.id !in r.published && !r.complete && !r.cancelled ==> Behind(j, r.Publish(f.id, target))
  {
  }

  lemma PublishJob(d: Disk, j: Record, s: Session, sid: string, events: nat)
    requires s.job.Linked?
    ensures var d' := SyncDir(d, Paths.TargetDir(Place(s.job.file)));
            var s' := s.(rec := s.rec.Publish(s.job.file.id, s.job.target), job := Published(s.job.file));
            JobOk(d, j, s, sid, events) && events == 0 ==> JobOk(d', j, s', sid, events)
  {
  }

  lemma PublishSession(d: Disk, j: Record, s: Session, sid: string, events: nat)
    requires SessionOk(d, j, s, sid, events) && DiskOk(d) && s.job.Linked?
    ensures var d' := SyncDir(d, Paths.TargetDir(Place(s.job.file)));
            var s' := s.(rec := s.rec.Publish(s.job.file.id, s.job.target), job := Published(s.job.file));
            SessionOk(d', j, s', sid, events)
  {
    var f, target := s.job.file, s.job.target;
    PublishRecord(s.rec, f, target);
    SyncDirFit(d, sid, s.rec.Files(), Paths.TargetDir(Place(f)));
    PublishHolds(d, s.rec, f, target);
    BehindPublish(j, s.rec, f, target);
    PublishJob(d, j, s, sid, events);
  }

  lemma KeepSyncParent(w: World, sid: string, s: Session)
    requires Inv(w) && sid in w.sessions && w.sessions[sid] == s && s.job.Linked?
    ensures Inv(DoSyncParent(w, sid, s))
  {
    LocalAt(w, sid);
    var w' := DoSyncParent(w, sid, s);
    PublishSession(w.disk, w.journal[sid], s, sid, Events(w, sid));
    SyncDirKeeps(w.disk, sid, Paths.TargetDir(Place(s.job.file)));
    UpdateIsLocal(w, w', sid, w'.sessions[sid], s.rec, 0);
    assert Local(w', sid) && OwnsParts(w', sid);
    Carry(w, w', sid);
  }

  lemma CommitSession(d: Disk, j: Record, s: Session, sid: string, events: nat, io: Persist)
    requires SessionOk(d, j, s, sid, events) && s.job.Published?
    ensures SessionOk(d, if io == Failed(false) then j else s.rec,
                      if io.Stored? then s.(finished := s.rec.complete, job := Committed(s.job.file))
                      else s.(job := Idle),
                      sid, events)
  {
  }

  lemma KeepCommit(w: World, sid: string, s: Session, io: Persist)
    requires Inv(w) && sid in w.sessions && w.sessions[sid] == s && s.job.Published?
    ensures Inv(DoCommit(w, sid, s, io))
  {
    LocalAt(w, sid);
    CommitSession(w.disk, w.journal[sid], s, sid, Events(w, sid), io);
    KeepPersisted(w, sid, DoCommit(w, sid, s, io).sessions[sid], io);
  }

  lemma CountSession(d: Disk, j: Record, s: Session, sid: string, n: nat)
    ensures SessionOk(d, j, s, sid, 0) && n <= 1 && (n == 1 ==> j.complete)
            ==> SessionOk(d, j, s.(job := Idle), sid, n)
  {
  }

  /** After the commit: the partial file may go, and a complete session is counted. */
  lemma FinishSession(d: Disk, j: Record, s: Session, sid: string, gone: set<Path>)
    requires forall p :: p in gone ==> p.Part? && p.session == sid
    ensures SessionOk(d, j, s, sid, 0) && s.job.Committed? && DiskOk(d)
            ==> SessionOk(Unlink(d, gone), j, s.(job := Idle), sid, if s.rec.complete then 1 else 0)
  {
    var n := if s.rec.complete then 1 else 0;
    if SessionOk(d, j, s, sid, 0) && s.job.Committed? && DiskOk(d) {
      assert s.rec.complete ==> j.complete;
      CountSession(d, j, s, sid, n);
      UnlinkSession(d, j, s.(job := Idle), sid, n, gone);
    }
  }

  lemma KeepFinish(w: World, sid: string, s: Session, unlinked: bool)
    requires Inv(w) && sid in w.sessions && w.sessions[sid] == s && s.job.Committed?
    ensures Inv(DoFinish(w, sid, s, unlinked))
  {
    LocalAt(w, sid);
    var w' := DoFinish(w, sid, s, unlinked);
    var gone := Parts(sid, if unlinked then {s.job.file.id} else {});
    assert Events(w, sid) == 0;
    UnlinkKeeps(w.disk, sid, gone);
    FinishSession(w.disk, w.journal[sid], s, sid, gone);
    UpdateIsLocal(w, w', sid, s.(job := Idle), s.rec, 1);
    assert w'.disk == Unlink(w.disk, gone) && Events(w', sid) == (if s.rec.complete then 1 else 0);
    assert Local(w', sid) && OwnsParts(w', sid);
    Carry(w, w', sid);
  }

  lemma AbandonSession(d: Disk, j: Record, s: Session, sid: string, events: nat)
    requires SessionOk(d, j, s, sid, events)
    ensures SessionOk(d, j, s.(job := Idle), sid, events)
  {
  }

  lemma KeepFire(w: World, sid: string, s: Session)
    requires Inv(w) && sid in w.sessions && w.sessions[sid] == s
    ensures Inv(Put(w, sid, s.(fired := true)))
  {
    LocalAt(w, sid);
    FireSession(w.disk, w.journal[sid], s, sid, Events(w, sid));
    KeepPut(w, sid, s.(fired := true));
  }

  lemma KeepAbandon(w: World, sid: string, s: Session)
    requires Inv(w) && sid in w.sessions && w.sessions[sid] == s
    ensures Inv(Put(w, sid, s.(job := Idle)))
  {
    LocalAt(w, sid);
    AbandonSession(w.disk, w.journal[sid], s, sid, Events(w, sid));
    KeepPut(w, sid, s.(job := Idle));
  }

  lemma KeepVerify(w: World, sid: string, s: Session)
    requires Inv(w) && sid in w.sessions && w.sessions[sid] == s && s.job.Received?
    requires Holds(w.disk, Part(sid, s.job.file.id), s.rec.manifest, s.job.file)
    requires Representable(TargetName(s.job.file, 0))
    ensures Inv(Put(w, sid, s.(job := Choosing(s.job.file, 0))))
  {
    LocalAt(w, sid);
    VerifySession(w.disk, w.journal[sid], s, sid, Events(w, sid));
    KeepPut(w, sid, s.(job := Choosing(s.job.file, 0)));
  }

  // ---------------------------------------------------------------- other programs, crashes

  lemma CreateKeepsOk(d: Disk, p: Path, bytes: Bytes, synced: nat)
    requires DiskOk(d) && p.Dest? && p !in d.names && synced <= |bytes|
    ensures DiskOk(CreateFile(d, p, bytes, synced))
  {
    var d' := CreateFile(d, p, bytes, synced);
    assert d.next !in d.files;
    assert forall q :: q in d'.names && q != p ==> q in d.names && d'.names[q] == d.names[q] != d.next;
  }

  lemma CreateKeeps(d: Disk, p: Path, bytes: Bytes, synced: nat, sid: string)
    requires DiskOk(d) && p.Dest? && p !in d.names && synced <= |bytes|
    ensures Keeps(d, CreateFile(d, p, bytes, synced), sid)
  {
    var d' := CreateFile(d, p, bytes, synced);
    assert d.next !in d.files;
    assert forall q :: q in d'.names && q != p ==> q in d.names && d'.names[q] == d.names[q] != d.next;
  }

  lemma KeepSave(w: World, p: Path, bytes: Bytes, synced: nat)
    requires Inv(w) && p.Dest? && p !in w.disk.names && Representable(p) && synced <= |bytes|
    ensures Inv(w.(disk := CreateFile(w.disk, p, bytes, synced)))
  {
    var w' := w.(disk := CreateFile(w.disk, p, bytes, synced));
    CreateKeepsOk(w.disk, p, bytes, synced);
    forall sid ensures OwnsParts(w', sid) && (sid !in w'.sessions ==> Unregistered(w', sid)) {
      LocalAt(w, sid);
    }
    forall sid | sid in w'.sessions ensures Local(w', sid) {
      LocalAt(w, sid);
      CreateKeeps(w.disk, p, bytes, synced, sid + "x");
      SessionFrame(w.disk, w'.disk, w.journal[sid], w.sessions[sid], sid, Events(w, sid), sid + "x");
    }
  }

  lemma CutKeepsOk(d: Disk, keep: map<Inode, nat>, lost: set<Path>)
    requires DiskOk(d) && CutOk(d, keep)
    ensures DiskOk(Cut(d, keep, lost))
    ensures forall p :: Live(d, p) && p !in lost && Settled(At(d, p)) ==>
              Live(Cut(d, keep, lost), p) && At(Cut(d, keep, lost), p) == At(d, p)
  {
    var d' := Cut(d, keep, lost);
    forall i | i in d.files && Settled(d.files[i]) ensures d'.files[i] == d.files[i] {
      assert d.files[i].bytes[..keep[i]] == d.files[i].bytes;
    }
  }

  lemma CutFit(d: Disk, keep: map<Inode, nat>, lost: set<Path>, sid: string, files: seq<FileInfo>)
    requires DiskOk(d) && CutOk(d, keep) && PartsFit(d, sid, files)
    ensures PartsFit(Cut(d, keep, lost), sid, files)
  {
    var d' := Cut(d, keep, lost);
    CutKeepsOk(d, keep, lost);
    forall f | f in files && Live(d', Part(sid, f.id))
      ensures |At(d', Part(sid, f.id)).bytes| <= f.size
    {
      assert Live(d, Part(sid, f.id)) && |At(d', Part(sid, f.id)).bytes| <= |At(d, Part(sid, f.id)).bytes|;
    }
    forall f, q: Path | f in files && q.Dest? && Live(d', Part(sid, f.id)) && Aliased(d', Part(sid, f.id), q)
      ensures |At(d', Part(sid, f.id)).bytes| == f.size
    {
      assert Aliased(d, Part(sid, f.id), q) && Settled(At(d, q));
    }
  }

  /** A record survives a crash: no name it publishes can be dropped. */
  lemma CutPublished(d: Disk, keep: map<Inode, nat>, lost: set<Path>, sid: string, j: Record, r: Record)
    requires DiskOk(d) && CutOk(d, keep) && lost <= d.volatile
    requires RecordOk(r) && PublishedOk(d, r) && Behind(j, r)
    ensures PublishedOk(Cut(d, keep, lost), j)
  {
    CutKeepsOk(d, keep, lost);
    forall f | f in j.Files() && f.id in j.published
      ensures Anchored(Cut(d, keep, lost), j.published[f.id])
    {
      assert j.published[f.id] == r.published[f.id];
      assert Anchored(d, r.published[f.id]);
    }
  }

  lemma CutSession(d: Disk, keep: map<Inode, nat>, lost: set<Path>, j: Record, s: Session, sid: string, events: nat)
    requires DiskOk(d) && CutOk(d, keep) && lost <= d.volatile && SessionOk(d, j, s, sid, events)
    ensures SessionOk(Cut(d, keep, lost), j, Loaded(j), sid, events)
  {
    CutFit(d, keep, lost, sid, s.rec.Files());
    CutPublished(d, keep, lost, sid, j, s.rec);
  }

  lemma CutOrphan(d: Disk, j: Record, sid: string)
    requires OrphanOk(j) && forall id :: Part(sid, id) !in d.names
    ensures SessionOk(d, j, Loaded(j), sid, 0)
  {
    assert j.Files()[0].id in Ids(j.Files());
  }

  lemma KeepCrash(w: World, keep: map<Inode, nat>, lost: set<Path>, links: set<(string, string, Path)>)
    requires Inv(w) && CutOk(w.disk, keep) && lost <= w.disk.volatile
    ensures Inv(w.(disk := Cut(w.disk, keep, lost), sessions := LoadAll(w.journal), links := links))
  {
    var w' := w.(disk := Cut(w.disk, keep, lost), sessions := LoadAll(w.journal), links := links);
    CutKeepsOk(w.disk, keep, lost);
    CrashSessions(w, w', keep, lost);
    CrashParts(w, w', keep, lost);
  }

  lemma CrashSessions(w: World, w': World, keep: map<Inode, nat>, lost: set<Path>)
    requires Inv(w) && CutOk(w.disk, keep) && lost <= w.disk.volatile
    requires w'.disk == Cut(w.disk, keep, lost) && w'.journal == w.journal && w'.sessions == LoadAll(w.journal)
    requires w'.completions == w.completions
    ensures SessionsOk(w') && JournalOk(w')
  {
    forall sid | sid in w'.sessions ensures Local(w', sid) {
      LocalAt(w, sid);
      if sid in w.sessions {
        CutSession(w.disk, keep, lost, w.journal[sid], w.sessions[sid], sid, Events(w, sid));
      } else {
        CutOrphan(w'.disk, w.journal[sid], sid);
      }
    }
    forall sid | sid !in w'.sessions ensures Unregistered(w', sid) {
      LocalAt(w, sid);
    }
  }

  lemma CrashParts(w: World, w': World, keep: map<Inode, nat>, lost: set<Path>)
    requires Inv(w) && CutOk(w.disk, keep)
    requires w'.disk == Cut(w.disk, keep, lost) && w'.sessions == LoadAll(w.journal)
    ensures PartsOwned(w')
  {
    forall sid ensures OwnsParts(w', sid) {
      LocalAt(w, sid);
    }
  }
}
