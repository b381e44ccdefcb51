/** The invariant every step of the durable receiver keeps, crashes included. */
module DurableInvariant {
  import opened Wrappers
  import opened Manifests
  import opened Disks
  import opened Durable
  import Paths

  // ---------------------------------------------------------------- statement

  /** A destination the receiver may use for the file. */
  ghost predicate TargetOk(f: FileInfo, p: Path) {
    && p.Dest?
    && p.dir == Paths.TargetDir(Place(f))
    && Paths.SafeName(p.base)
    && Representable(p)
  }

  /** A record consistent with itself, whether held in memory or journalled. */
  ghost predicate RecordOk(r: Record) {
    && RecordShape(r)
    && EntriesOk(r.Files(), r.published)
    && EntriesOk(r.Files(), r.targets)
  }

  ghost predicate RecordShape(r: Record) {
    && DistinctIds(r.Files()) && r.Files() != []
    && r.manifest.sha256.Keys == Ids(r.Files())
    && r.decision != NotFound
    && r.published.Keys <= Ids(r.Files())
    && r.targets.Keys <= Ids(r.Files())
    && (r.complete <==> r.published.Keys == Ids(r.Files()))
    && !(r.complete && r.cancelled)
    && (r.published != map[] ==> r.decision == Accepted)
  }

  ghost predicate EntriesOk(files: seq<FileInfo>, entries: map<string, Path>) {
    forall f :: f in files && f.id in entries ==> TargetOk(f, entries[f.id])
  }

  /** The name leads to a file and no crash can drop it. */
  predicate Anchored(d: Disk, p: Path) {
    Live(d, p) && p !in d.volatile
  }

  /** Every published entry names a destination that no crash can drop. */
  ghost predicate PublishedOk(d: Disk, r: Record) {
    forall f :: f in r.Files() && f.id in r.published ==> Anchored(d, r.published[f.id])
  }

  /** What the journal holds may lag behind memory but never contradicts it. */
  ghost predicate Behind(j: Record, r: Record) {
    && j.manifest == r.manifest && j.pending == r.pending && j.owner == r.owner && j.token == r.token
    && (j.decision == Pending || j.decision == r.decision)
    && (j.cancelled ==> r.cancelled && r.published == j.published)
    && (j.complete ==> r.complete)
    && (forall id :: id in j.published ==> id in r.published && r.published[id] == j.published[id])
  }

  /** Two names of one inode. */
  ghost predicate Aliased(d: Disk, p: Path, q: Path) {
    p in d.names && q in d.names && d.names[p] == d.names[q]
  }

  /** A partial file never exceeds its declared size, and reaches it before it shares
      its inode with a destination. */
  ghost predicate PartsFit(d: Disk, sid: string, files: seq<FileInfo>) {
    && (forall f :: f in files && Live(d, Part(sid, f.id)) ==> |At(d, Part(sid, f.id)).bytes| <= f.size)
    && (forall f, q: Path :: f in files && q.Dest? && Live(d, Part(sid, f.id)) && Aliased(d, Part(sid, f.id), q) ==>
          |At(d, Part(sid, f.id)).bytes| == f.size)
  }

  /** A partial file that is complete, synced and verified. */
  ghost predicate PartVerified(d: Disk, sid: string, m: Manifest, f: FileInfo) {
    Holds(d, Part(sid, f.id), m, f) && Settled(At(d, Part(sid, f.id)))
  }

  ghost predicate JobOk(d: Disk, j: Record, s: Session, sid: string, events: nat) {
    var r := s.rec;
    && (!s.job.Idle? ==> r.decision == Accepted && !r.cancelled && s.job.file in r.Files())
    && match s.job
       case Idle => true
       case Receiving(f, fd, start, baseline, offset) =>
         && f.id !in r.published
         && Live(d, Part(sid, f.id)) && d.names[Part(sid, f.id)] == fd
         && |At(d, Part(sid, f.id)).bytes| == offset
         && start <= offset <= f.size
       case Received(f) =>
         && f.id !in r.published
         && Live(d, Part(sid, f.id)) && Settled(At(d, Part(sid, f.id)))
         && |At(d, Part(sid, f.id)).bytes| == f.size
       case Choosing(f, _) =>
         f.id !in r.published && PartVerified(d, sid, r.manifest, f) && Representable(TargetName(f, 0))
       case Journalled(f, _, target) =>
         && f.id !in r.published && PartVerified(d, sid, r.manifest, f) && Representable(TargetName(f, 0))
         && TargetOk(f, target)
         && f.id in r.targets && r.targets[f.id] == target
         && f.id in j.targets && j.targets[f.id] == target
       case Linked(f, target) =>
         && f.id !in r.published && PartVerified(d, sid, r.manifest, f)
         && TargetOk(f, target) && Holds(d, target, r.manifest, f)
         && f.id in r.targets && r.targets[f.id] == target
       case Published(f) =>
         f.id in r.published && PartVerified(d, sid, r.manifest, f) && events == 0
       case Committed(f) =>
         f.id in j.published && (r.complete ==> j.complete) && events == 0
  }

  ghost predicate SessionOk(d: Disk, j: Record, s: Session, sid: string, events: nat) {
    && RecordOk(s.rec)
    && RecordOk(j)
    && Behind(j, s.rec)
    && PublishedOk(d, s.rec)
    && PartsFit(d, sid, s.rec.Files())
    && (s.rec.cancelled ==> s.fired)
    && (s.finished ==> j.complete)
    && events <= 1
    && (events == 1 ==> j.complete)
    && JobOk(d, j, s, sid, events)
  }

  /** A journal entry without a session: a registration whose write failed after landing. */
  ghost predicate OrphanOk(j: Record) {
    RecordOk(j) && j.published == map[] && !j.cancelled
  }

  /** The invariant of one session in a world.  The quantifiers over sessions below are
      triggered by this predicate alone, so that a proof opens only the sessions it names. */
  ghost predicate Local(w: World, sid: string) {
    && sid in w.sessions && sid in w.journal
    && SessionOk(w.disk, w.journal[sid], w.sessions[sid], sid, Events(w, sid))
  }

  ghost predicate SessionsOk(w: World) {
    forall sid {:trigger Local(w, sid)} :: sid in w.sessions ==> Local(w, sid)
  }

  ghost predicate Unregistered(w: World, sid: string) {
    Events(w, sid) == 0 && (sid in w.journal ==> OrphanOk(w.journal[sid]))
  }

  ghost predicate JournalOk(w: World) {
    forall sid {:trigger Unregistered(w, sid)} :: sid !in w.sessions ==> Unregistered(w, sid)
  }

  /** Every partial file of the session belongs to a file of its manifest. */
  ghost predicate OwnsParts(w: World, sid: string) {
    forall id :: Part(sid, id) in w.disk.names ==>
      sid in w.sessions && id in Ids(w.sessions[sid].rec.Files())
  }

  /** Every journalled session carries a manifest that passed validation, under its own id. */
  ghost predicate EnvelopesOk(w: World) {
    forall sid :: sid in w.journal ==> EnvelopeOk(sid, w.journal[sid])
  }

  ghost predicate EnvelopeOk(sid: string, r: Record) {
    && ValidManifest(r.manifest)
    && r.manifest.request.transferId == sid
    && r.pending.id == sid
    && r.pending.totalSize == r.manifest.request.totalSize
  }

  ghost predicate PartsOwned(w: World) {
    forall sid {:trigger OwnsParts(w, sid)} :: OwnsParts(w, sid)
  }

  ghost predicate NamesOk(w: World) {
    forall p :: p in w.disk.names && p.Dest? ==> Representable(p)
  }

  /** Write-ahead intent: a link an upload created is live, holds the declared content, synced,
      and is the target recorded both in memory and in the journal. */
  ghost predicate LinkOk(w: World, l: (string, string, Path)) {
    && l.2.Dest? && l.0 in w.sessions && l.0 in w.journal
    && var r, j := w.sessions[l.0].rec, w.journal[l.0];
    && l.1 in r.targets && r.targets[l.1] == l.2
    && l.1 in j.targets && j.targets[l.1] == l.2
    && (forall f :: f in r.Files() && f.id == l.1 ==> Holds(w.disk, l.2, r.manifest, f))
    && Live(w.disk, l.2) && Settled(At(w.disk, l.2))
  }

  ghost predicate LinksOk(w: World) {
    forall l {:trigger LinkOk(w, l)} :: l in w.links ==> LinkOk(w, l)
  }

  ghost predicate Inv(w: World) {
    DiskOk(w.disk) && NamesOk(w) && PartsOwned(w) && SessionsOk(w) && JournalOk(w)
  }

  // ---------------------------------------------------------------- framing

  /** A disk change made on behalf of session `sid`: every other name keeps its inode and
      contents, new names are its own partial files or destinations, and a new destination
      never aliases another session's partial file. */
  ghost predicate Keeps(d: Disk, d': Disk, sid: string) {
    && (forall p :: p in d.names && !(p.Part? && p.session == sid) ==>
          p in d'.names && d'.names[p] == d.names[p] && Live(d', p) == Live(d, p)
          && (Live(d, p) ==> At(d', p) == At(d, p)))
    && (forall p :: p in d'.names && p !in d.names ==> p.Dest? || p.session == sid)
    && (forall p: Path, q: Path :: p.Part? && p.session != sid && q.Dest? && Aliased(d', p, q) ==> Aliased(d, p, q))
    && (forall p :: p in d'.volatile && p in d.names ==> p in d.volatile)
  }

  lemma SessionFrame(d: Disk, d': Disk, j: Record, s: Session, sid: string, events: nat, actor: string)
    requires Keeps(d, d', actor) && sid != actor
    requires SessionOk(d, j, s, sid, events)
    ensures SessionOk(d', j, s, sid, events)
  {
    PublishedFrame(d, d', s.rec, actor);
    PartsFrame(d, d', sid, s.rec.Files(), actor);
  }

  lemma PublishedFrame(d: Disk, d': Disk, r: Record, actor: string)
    ensures Keeps(d, d', actor) && RecordOk(r) && PublishedOk(d, r) ==> PublishedOk(d', r)
  {
    if Keeps(d, d', actor) && RecordOk(r) && PublishedOk(d, r) {
      forall f | f in r.Files() && f.id in r.published
        ensures Anchored(d', r.published[f.id])
      {
        assert TargetOk(f, r.published[f.id]);
        assert Anchored(d, r.published[f.id]);
      }
    }
  }

  lemma PartsFrame(d: Disk, d': Disk, sid: string, files: seq<FileInfo>, actor: string)
    requires Keeps(d, d', actor) && sid != actor && PartsFit(d, sid, files)
    ensures PartsFit(d', sid, files)
  {
    forall f | f in files && Live(d', Part(sid, f.id))
      ensures Live(d, Part(sid, f.id)) && At(d', Part(sid, f.id)) == At(d, Part(sid, f.id))
    {
    }
  }

  /** Nothing about any other session has changed. */
  ghost predicate OthersSame(w: World, w': World, sid: string) {
    && (forall t :: t != sid ==> (t in w'.sessions <==> t in w.sessions) && (t in w'.journal <==> t in w.journal))
    && (forall t :: t != sid && t in w.sessions ==> w'.sessions[t] == w.sessions[t])
    && (forall t :: t != sid && t in w.journal ==> w'.journal[t] == w.journal[t])
    && (forall t :: t != sid ==> Events(w', t) == Events(w, t))
  }

  lemma CarrySessions(w: World, w': World, sid: string)
    requires SessionsOk(w) && OthersSame(w, w', sid) && Keeps(w.disk, w'.disk, sid)
    requires sid in w'.sessions ==> Local(w', sid)
    ensures SessionsOk(w')
  {
    forall t | t in w'.sessions && t != sid
      ensures Local(w', t)
    {
      assert Local(w, t);
      SessionFrame(w.disk, w'.disk, w.journal[t], w.sessions[t], t, Events(w, t), sid);
    }
  }

  lemma CarryJournal(w: World, w': World, sid: string)
    requires JournalOk(w) && OthersSame(w, w', sid)
    requires sid !in w'.sessions ==> Unregistered(w', sid)
    ensures JournalOk(w')
  {
    forall t | t !in w'.sessions && t != sid
      ensures Unregistered(w', t)
    {
      assert Unregistered(w, t);
    }
  }

  lemma CarryParts(w: World, w': World, sid: string)
    requires PartsOwned(w) && OthersSame(w, w', sid) && Keeps(w.disk, w'.disk, sid)
    requires OwnsParts(w', sid)
    ensures PartsOwned(w')
  {
    forall t | t != sid
      ensures OwnsParts(w', t)
    {
      assert OwnsParts(w, t);
    }
  }

  /** The invariant follows from the acting session's own part of it. */
  lemma Carry(w: World, w': World, sid: string)
    ensures (
        && Inv(w) && OthersSame(w, w', sid)
        && Keeps(w.disk, w'.disk, sid) && DiskOk(w'.disk) && NamesOk(w')
        && Local(w', sid) && OwnsParts(w', sid)
      ) ==> Inv(w')
  {
    if && Inv(w) && OthersSame(w, w', sid)
       && Keeps(w.disk, w'.disk, sid) && DiskOk(w'.disk) && NamesOk(w')
       && Local(w', sid) && OwnsParts(w', sid)
    {
      CarrySessions(w, w', sid);
      CarryJournal(w, w', sid);
      CarryParts(w, w', sid);
    }
  }

  // ---------------------------------------------------------------- disk operations

  lemma KeepsSelf(d: Disk, sid: string)
    ensures Keeps(d, d, sid)
  {
  }

  lemma OpenKeepsOk(d: Disk, sid: string, id: string)
    requires DiskOk(d)
    ensures DiskOk(OpenAppend(d, Part(sid, id)))
  {
    var d' := OpenAppend(d, Part(sid, id));
    if Part(sid, id) !in d.names {
      assert d.next !in d.files;
      assert forall p :: p in d'.names && p != Part(sid, id) ==> p in d.names && d'.names[p] != d.next;
    }
  }

  lemma OpenKeeps(d: Disk, sid: string, id: string)
    requires DiskOk(d)
    ensures Keeps(d, OpenAppend(d, Part(sid, id)), sid)
  {
    var d' := OpenAppend(d, Part(sid, id));
    if Part(sid, id) !in d.names {
      assert d.next !in d.files;
      assert forall p :: p in d'.names && p != Part(sid, id) ==> p in d.names && d'.names[p] == d.names[p] != d.next;
    }
  }

  /** The alias argument: appending to a partial file cannot reach a destination, because
      a non-empty append only fits while no destination shares the inode. */
  lemma AppendKeeps(d: Disk, sid: string, id: string, bytes: Bytes)
    requires DiskOk(d) && Live(d, Part(sid, id))
    requires bytes == [] || forall q: Path :: q.Dest? ==> !Aliased(d, Part(sid, id), q)
    ensures DiskOk(Append(d, d.names[Part(sid, id)], bytes))
    ensures Keeps(d, Append(d, d.names[Part(sid, id)], bytes), sid)
  {
    var i := d.names[Part(sid, id)];
    var d' := Append(d, i, bytes);
    if bytes == [] {
      assert d.files[i].bytes + bytes == d.files[i].bytes;
      assert d'.files == d.files;
    } else {
      assert forall p :: p in d.names && p.Dest? ==> !Aliased(d, Part(sid, id), p) && d.names[p] != i;
    }
  }

  lemma SyncKeeps(d: Disk, sid: string, id: string)
    requires DiskOk(d) && Live(d, Part(sid, id))
    ensures DiskOk(Sync(d, d.names[Part(sid, id)])) && Keeps(d, Sync(d, d.names[Part(sid, id)]), sid)
  {
    var i := d.names[Part(sid, id)];
    var d' := Sync(d, i);
    forall p | p in d.names && !(p.Part? && p.session == sid)
      ensures d'.files[d'.names[p]] == d.files[d.names[p]]
    {
      if d.names[p] == i && p.Dest? {
        assert Settled(d.files[i]);
      }
    }
  }

  lemma UnlinkKeeps(d: Disk, sid: string, gone: set<Path>)
    requires DiskOk(d) && forall p :: p in gone ==> p.Part? && p.session == sid
    ensures DiskOk(Unlink(d, gone)) && Keeps(d, Unlink(d, gone), sid)
  {
  }

  lemma LinkKeeps(d: Disk, sid: string, id: string, to: Path)
    requires DiskOk(d) && Live(d, Part(sid, id)) && Settled(At(d, Part(sid, id))) && to.Dest? && to !in d.names
    ensures DiskOk(HardLink(d, Part(sid, id), to)) && Keeps(d, HardLink(d, Part(sid, id), to), sid)
  {
    var d' := HardLink(d, Part(sid, id), to);
    forall p: Path, q: Path | p.Part? && p.session != sid && q.Dest? && Aliased(d', p, q)
      ensures Aliased(d, p, q)
    {
      assert d'.names[p] == d.names[p] != d.names[Part(sid, id)];
    }
  }

  lemma SyncDirKeeps(d: Disk, sid: string, dir: seq<string>)
    requires DiskOk(d)
    ensures DiskOk(SyncDir(d, dir)) && Keeps(d, SyncDir(d, dir), sid)
  {
  }
}
