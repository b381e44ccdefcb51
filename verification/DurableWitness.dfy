/** Runs from the initial state that exhibit what the durable receiver does not promise. */
module DurableWitness {
  import opened Wrappers
  import opened Manifests
  import opened Disks
  import opened Durable
  import opened DurableInvariant
  import opened DurableLinks
  import opened DurableMoves
  import Paths

  /** A receiver holding a single session. */
  function Single(sid: string, d: Disk, j: Record, r: Record, job: Job, links: set<(string, string, Path)>): World {
    World(d, map[sid := j], map[sid := Session(r, false, false, job)], map[sid := 0], links)
  }

  const EMPTY: World := World(Disk(map[], map[], {}, 0), map[], map[], map[], {})

  /** One more step at the end of a run. */
  lemma Snoc(states: seq<World>, steps: seq<Step>, step: Step, w': World)
    requires IsRun(states, steps) && Next(states[|steps|], step, w')
    ensures IsRun(states + [w'], steps + [step])
  {
  }

  lemma Joined(a: seq<World>, s: seq<Step>, b: seq<World>, t: seq<Step>)
    returns (states: seq<World>, steps: seq<Step>)
    requires IsRun(a, s) && IsRun(b, t) && a[|s|] == b[0]
    ensures IsRun(states, steps) && steps == s + t
    ensures forall k :: 0 <= k <= |s| ==> states[k] == a[k]
    ensures states[|steps|] == b[|t|]
  {
    states, steps := a + b[1..], s + t;
    forall k | 0 <= k < |steps| ensures Next(states[k], steps[k], states[k + 1]) {
      if k < |s| {
        assert states[k] == a[k] && states[k + 1] == a[k + 1];
      } else {
        assert states[k] == b[k - |s|] && states[k + 1] == b[k - |s| + 1];
      }
    }
  }

  // ---------------------------------------------------------------- single-session steps

  lemma Puts(
    sid: string, d: Disk, j: Record, r: Record, job: Job, links: set<(string, string, Path)>, w: World, s: Session)
    requires w == Single(sid, d, j, r, job, links)
    ensures sid in w.sessions && w.sessions[sid] == Session(r, false, false, job)
    ensures s.Session? && !s.fired && !s.finished ==> Put(w, sid, s) == Single(sid, d, j, s.rec, s.job, links)
  {
  }

  lemma Registers(d: Disk, m: Manifest, owner: string, sourceIp: string, trusted: bool, token: string)
    requires ValidManifest(m)
    ensures var sid, r := m.request.transferId, NewRecord(m, owner, sourceIp, trusted, token);
            Next(EMPTY.(disk := d), Register(m, owner, sourceIp, trusted, token, Stored),
                 Single(sid, d, r, r, Idle, {}))
  {
    var sid, r := m.request.transferId, NewRecord(m, owner, sourceIp, trusted, token);
    TakesRegister(EMPTY.(disk := d), m, owner, sourceIp, trusted, token, Stored);
    assert DoRegister(EMPTY.(disk := d), sid, r, Stored) == Single(sid, d, r, r, Idle, {});
  }

  lemma Begins(sid: string, d: Disk, j: Record, r: Record, f: FileInfo, links: set<(string, string, Path)>)
    returns (job: Job)
    requires r.decision == Accepted && !r.cancelled && f in r.Files() && f.id !in r.published
    ensures Next(Single(sid, d, j, r, Idle, links), Begin(sid, f, Offset(d, sid, r, f)),
                 Single(sid, OpenAppend(d, Part(sid, f.id)), j, r, job, links))
    ensures job.Receiving? && job.file == f && job.fd == OpenAppend(d, Part(sid, f.id)).names[Part(sid, f.id)]
    ensures job.offset == Offset(d, sid, r, f)
  {
    var w := Single(sid, d, j, r, Idle, links);
    TakesBegin(w, sid, f, Offset(d, sid, r, f));
    var w' := DoBegin(w, sid, w.sessions[sid], f);
    job := w'.sessions[sid].job;
    assert w' == Single(sid, OpenAppend(d, Part(sid, f.id)), j, r, job, links);
  }

  lemma Appends(sid: string, d: Disk, j: Record, r: Record, job: Job, bytes: Bytes, links: set<(string, string, Path)>)
    requires job.Receiving? && job.fd in d.files && job.offset + |bytes| <= job.file.size
    ensures Next(Single(sid, d, j, r, job, links), Chunk(sid, bytes),
                 Single(sid, Append(d, job.fd, bytes), j, r, job.(offset := job.offset + |bytes|), links))
  {
    var w := Single(sid, d, j, r, job, links);
    TakesAppend(w, sid, bytes, false);
    assert DoAppend(w, sid, w.sessions[sid], bytes, false)
        == Single(sid, Append(d, job.fd, bytes), j, r, job.(offset := job.offset + |bytes|), links);
  }

  lemma Ends(sid: string, d: Disk, j: Record, r: Record, job: Job, links: set<(string, string, Path)>)
    requires job.Receiving? && job.fd in d.files && job.offset == job.file.size
    ensures Next(Single(sid, d, j, r, job, links), EndBody(sid),
                 Single(sid, Sync(d, job.fd), j, r, Received(job.file), links))
  {
    var w := Single(sid, d, j, r, job, links);
    TakesSync(w, sid);
    assert DoSync(w, sid, w.sessions[sid], true) == Single(sid, Sync(d, job.fd), j, r, Received(job.file), links);
  }

  lemma Verifies(sid: string, d: Disk, j: Record, r: Record, f: FileInfo, links: set<(string, string, Path)>)
    requires Holds(d, Part(sid, f.id), r.manifest, f) && !Paths.ReservedTarget(Render(TargetName(f, 0)))
    ensures Next(Single(sid, d, j, r, Received(f), links), Verify(sid), Single(sid, d, j, r, Choosing(f, 0), links))
  {
    var w := Single(sid, d, j, r, Received(f), links);
    Puts(sid, d, j, r, Received(f), links, w, Session(r, false, false, Choosing(f, 0)));
    TakesVerify(w, sid);
  }

  lemma Chosen(
    sid: string, d: Disk, j: Record, r: Record, f: FileInfo, index: nat, target: Path,
    links: set<(string, string, Path)>)
    requires target == NextTarget(r, f, index)
    ensures var w, r' := Single(sid, d, j, r, Choosing(f, index), links), r.(targets := r.targets[f.id := target]);
            DoChoose(w, sid, w.sessions[sid], Stored) == Single(sid, d, r', r', Journalled(f, index, target), links)
  {
    var w, r' := Single(sid, d, j, r, Choosing(f, index), links), r.(targets := r.targets[f.id := target]);
    assert Save(w.journal, sid, r', Stored) == map[sid := r'];
    Puts(sid, d, r', r, Choosing(f, index), links, w.(journal := map[sid := r']),
         Session(r', false, false, Journalled(f, index, target)));
  }

  lemma Chooses(
    sid: string, d: Disk, j: Record, r: Record, f: FileInfo, index: nat, target: Path,
    links: set<(string, string, Path)>)
    requires index < Paths.MAX_CANDIDATES && target == NextTarget(r, f, index)
    ensures var r' := r.(targets := r.targets[f.id := target]);
            Next(Single(sid, d, j, r, Choosing(f, index), links), Choose(sid, Stored),
                 Single(sid, d, r', r', Journalled(f, index, target), links))
  {
    TakesChoose(Single(sid, d, j, r, Choosing(f, index), links), sid, Stored);
    Chosen(sid, d, j, r, f, index, target, links);
  }

  lemma LinksFree(
    sid: string, d: Disk, j: Record, r: Record, f: FileInfo, index: nat, target: Path,
    links: set<(string, string, Path)>)
    requires Live(d, Part(sid, f.id)) && target !in d.names
    ensures Next(Single(sid, d, j, r, Journalled(f, index, target), links), Link(sid, true),
                 Single(sid, HardLink(d, Part(sid, f.id), target), j, r, Linked(f, target),
                        links + {(sid, f.id, target)}))
  {
    var w := Single(sid, d, j, r, Journalled(f, index, target), links);
    TakesLink(w, sid, true);
    assert DoLink(w, sid, w.sessions[sid], true)
        == Single(sid, HardLink(d, Part(sid, f.id), target), j, r, Linked(f, target), links + {(sid, f.id, target)});
  }

  lemma SkipsUnreadable(
    sid: string, d: Disk, j: Record, r: Record, f: FileInfo, index: nat, target: Path,
    links: set<(string, string, Path)>)
    requires Live(d, Part(sid, f.id)) && target in d.names
    ensures Next(Single(sid, d, j, r, Journalled(f, index, target), links), Link(sid, false),
                 Single(sid, d, j, r.(targets := r.targets - {f.id}), Choosing(f, index + 1), links))
  {
    var w := Single(sid, d, j, r, Journalled(f, index, target), links);
    TakesLink(w, sid, false);
    assert DoLink(w, sid, w.sessions[sid], false)
        == Single(sid, d, j, r.(targets := r.targets - {f.id}), Choosing(f, index + 1), links);
  }

  lemma Syncs(sid: string, d: Disk, j: Record, r: Record, f: FileInfo, target: Path, links: set<(string, string, Path)>)
    ensures Next(Single(sid, d, j, r, Linked(f, target), links), SyncParent(sid),
                 Single(sid, SyncDir(d, Paths.TargetDir(Place(f))), j, r.Publish(f.id, target), Published(f), links))
  {
    var w := Single(sid, d, j, r, Linked(f, target), links);
    Puts(sid, SyncDir(d, Paths.TargetDir(Place(f))), j, r, Linked(f, target), links,
         w.(disk := SyncDir(d, Paths.TargetDir(Place(f)))),
         Session(r.Publish(f.id, target), false, false, Published(f)));
    TakesSyncParent(w, sid);
  }

  lemma CommitFails(sid: string, d: Disk, j: Record, r: Record, f: FileInfo, links: set<(string, string, Path)>)
    ensures Next(Single(sid, d, j, r, Published(f), links), Commit(sid, Failed(false)),
                 Single(sid, d, j, r, Idle, links))
  {
    var w := Single(sid, d, j, r, Published(f), links);
    TakesCommit(w, sid, Failed(false));
    assert DoCommit(w, sid, w.sessions[sid], Failed(false)) == Single(sid, d, j, r, Idle, links);
  }

  /** A crash that loses no byte and no name. */
  lemma Restarts(sid: string, d: Disk, j: Record, r: Record, job: Job, links: set<(string, string, Path)>)
    returns (keep: map<Inode, nat>)
    requires DiskOk(d) && !j.cancelled && !j.complete
    ensures Next(Single(sid, d, j, r, job, links), Crash(keep, {}), Single(sid, Flushed(d), j, j, Idle, links))
  {
    var w := Single(sid, d, j, r, job, links);
    keep := TakesRestart(w);
    assert LoadAll(w.journal) == map[sid := Loaded(j)];
  }

  // ---------------------------------------------------------------- one upload, up to its link

  /** The manifest's file f has these bytes, and its destination is not reserved. */
  predicate Deliverable(m: Manifest, f: FileInfo, bytes: Bytes) {
    && ValidManifest(m) && f in m.request.files && f.id in m.sha256
    && |bytes| == f.size && m.sha256[f.id] == Sha256(bytes)
    && !Paths.ReservedTarget(Render(TargetName(f, 0)))
  }

  /** One complete, synced partial file, linked at `linked`. */
  function PartDisk(sid: string, id: string, bytes: Bytes, linked: set<Path>, volatile: set<Path>): Disk {
    Disk(map p | p in linked + {Part(sid, id)} :: 0, map[0 := Content(bytes, |bytes|)], volatile, 1)
  }

  lemma PartDiskOk(sid: string, id: string, bytes: Bytes, linked: set<Path>)
    requires forall p :: p in linked ==> p.Dest?
    ensures DiskOk(PartDisk(sid, id, bytes, linked, linked)) && DiskOk(PartDisk(sid, id, bytes, linked, {}))
    ensures Flushed(PartDisk(sid, id, bytes, linked, linked)) == PartDisk(sid, id, bytes, linked, {})
    ensures Live(PartDisk(sid, id, bytes, linked, linked), Part(sid, id))
    ensures At(PartDisk(sid, id, bytes, linked, linked), Part(sid, id)) == Content(bytes, |bytes|)
  {
  }

  lemma ReceivedDisk(sid: string, id: string, bytes: Bytes)
    ensures var d := OpenAppend(EMPTY.disk, Part(sid, id));
            && d.names[Part(sid, id)] == 0 && 0 in d.files && 0 in Append(d, 0, bytes).files
            && Sync(Append(d, 0, bytes), 0) == PartDisk(sid, id, bytes, {}, {})
  {
    var d := Sync(Append(OpenAppend(EMPTY.disk, Part(sid, id)), 0, bytes), 0);
    assert [] + bytes == bytes;
    assert d.names == PartDisk(sid, id, bytes, {}, {}).names;
    assert d.files == PartDisk(sid, id, bytes, {}, {}).files;
  }

  lemma LinkedDisk(sid: string, id: string, bytes: Bytes, linked: set<Path>, volatile: set<Path>, target: Path)
    requires target !in linked && target.Dest?
    ensures var d := PartDisk(sid, id, bytes, linked, volatile);
            && Part(sid, id) in d.names && target !in d.names
            && HardLink(d, Part(sid, id), target) == PartDisk(sid, id, bytes, linked + {target}, volatile + {target})
  {
    var d := PartDisk(sid, id, bytes, linked, volatile);
    assert HardLink(d, Part(sid, id), target).names
        == PartDisk(sid, id, bytes, linked + {target}, volatile + {target}).names;
  }

  /** One upload in a single chunk. */
  lemma UploadSteps(sid: string, r: Record, f: FileInfo, bytes: Bytes)
    returns (w1: World, w2: World)
    requires |bytes| == f.size && r.decision == Accepted && !r.cancelled && f in r.Files() && f.id !in r.published
    ensures Next(Single(sid, EMPTY.disk, r, r, Idle, {}), Begin(sid, f, 0), w1)
    ensures Next(w1, Chunk(sid, bytes), w2)
    ensures Next(w2, EndBody(sid), Single(sid, PartDisk(sid, f.id, bytes, {}, {}), r, r, Received(f), {}))
  {
    ReceivedDisk(sid, f.id, bytes);
    var d1 := OpenAppend(EMPTY.disk, Part(sid, f.id));
    var d2 := Append(d1, 0, bytes);
    var job := Begins(sid, EMPTY.disk, r, r, f, {});
    w1 := Single(sid, d1, r, r, job, {});
    Appends(sid, d1, r, r, job, bytes, {});
    var full := job.(offset := job.offset + |bytes|);
    w2 := Single(sid, d2, r, r, full, {});
    Ends(sid, d2, r, r, full, {});
  }

  /** Registration, the upload, verification. */
  lemma ReceiveRun(m: Manifest, owner: string, sourceIp: string, token: string, f: FileInfo, bytes: Bytes)
    returns (states: seq<World>, steps: seq<Step>)
    requires Deliverable(m, f, bytes)
    ensures IsRun(states, steps) && states[0] == EMPTY && |steps| == 5
    ensures forall k :: 0 <= k < |steps| ==> !steps[k].Crash? && !steps[k].Forget?
    ensures var sid, r := m.request.transferId, NewRecord(m, owner, sourceIp, true, token);
            states[5] == Single(sid, PartDisk(sid, f.id, bytes, {}, {}), r, r, Choosing(f, 0), {})
  {
    var sid, r := m.request.transferId, NewRecord(m, owner, sourceIp, true, token);
    var d := PartDisk(sid, f.id, bytes, {}, {});
    Registers(EMPTY.disk, m, owner, sourceIp, true, token);
    var first, w1 := Register(m, owner, sourceIp, true, token, Stored), Single(sid, EMPTY.disk, r, r, Idle, {});
    var w2, w3 := UploadSteps(sid, r, f, bytes);
    var w4, w5 := Single(sid, d, r, r, Received(f), {}), Single(sid, d, r, r, Choosing(f, 0), {});
    assert Holds(d, Part(sid, f.id), m, f);
    Verifies(sid, d, r, r, f, {});
    FourSteps(EMPTY, first, w1, Begin(sid, f, 0), w2, Chunk(sid, bytes), w3, EndBody(sid), w4);
    states, steps := [EMPTY, w1, w2, w3, w4], [first, Begin(sid, f, 0), Chunk(sid, bytes), EndBody(sid)];
    Snoc(states, steps, Verify(sid), w5);
    states, steps := states + [w5], steps + [Verify(sid)];
  }

  /** Choosing a free name and linking it. */
  lemma ChooseAndLink(
    sid: string, j: Record, r: Record, f: FileInfo, bytes: Bytes, index: nat, target: Path,
    linked: set<Path>, volatile: set<Path>, links: set<(string, string, Path)>)
    returns (w: World)
    requires index < Paths.MAX_CANDIDATES && target == NextTarget(r, f, index)
    requires target !in linked && target.Dest?
    ensures Next(Single(sid, PartDisk(sid, f.id, bytes, linked, volatile), j, r, Choosing(f, index), links),
                 Choose(sid, Stored), w)
    ensures var r' := r.(targets := r.targets[f.id := target]);
            Next(w, Link(sid, true),
                 Single(sid, PartDisk(sid, f.id, bytes, linked + {target}, volatile + {target}), r', r',
                        Linked(f, target), links + {(sid, f.id, target)}))
  {
    var d := PartDisk(sid, f.id, bytes, linked, volatile);
    var r' := r.(targets := r.targets[f.id := target]);
    Chooses(sid, d, j, r, f, index, target, links);
    w := Single(sid, d, r', r', Journalled(f, index, target), links);
    LinkedDisk(sid, f.id, bytes, linked, volatile, target);
    LinksFree(sid, d, r', r', f, index, target, links);
  }

  /** ... and the first link. */
  lemma LinkRun(m: Manifest, owner: string, sourceIp: string, token: string, f: FileInfo, bytes: Bytes)
    returns (states: seq<World>, steps: seq<Step>)
    requires Deliverable(m, f, bytes)
    ensures IsRun(states, steps) && states[0] == EMPTY && |steps| == 7
    ensures forall k :: 0 <= k < |steps| ==> !steps[k].Crash? && !steps[k].Forget?
    ensures var sid, target := m.request.transferId, TargetName(f, 0);
            var r := NewRecord(m, owner, sourceIp, true, token).(targets := map[f.id := target]);
            states[7] == Single(sid, PartDisk(sid, f.id, bytes, {target}, {target}), r, r, Linked(f, target),
                                {(sid, f.id, target)})
  {
    var sid, target := m.request.transferId, TargetName(f, 0);
    var r0 := NewRecord(m, owner, sourceIp, true, token);
    states, steps := ReceiveRun(m, owner, sourceIp, token, f, bytes);
    var w6 := ChooseAndLink(sid, r0, r0, f, bytes, 0, target, {}, {}, {});
    var r := r0.(targets := r0.targets[f.id := target]);
    assert r.targets == map[f.id := target];
    var w7 := Single(sid, PartDisk(sid, f.id, bytes, {} + {target}, {} + {target}), r, r, Linked(f, target),
                     {} + {(sid, f.id, target)});
    assert {} + {target} == {target} && {} + {(sid, f.id, target)} == {(sid, f.id, target)};
    Snoc(states, steps, Choose(sid, Stored), w6);
    Snoc(states + [w6], steps + [Choose(sid, Stored)], Link(sid, true), w7);
    states, steps := states + [w6] + [w7], steps + [Choose(sid, Stored)] + [Link(sid, true)];
  }

  // ---------------------------------------------------------------- what a crash takes back

  lemma SyncedDisk(sid: string, f: FileInfo, bytes: Bytes)
    ensures var target := TargetName(f, 0);
            SyncDir(PartDisk(sid, f.id, bytes, {target}, {target}), Paths.TargetDir(Place(f)))
            == PartDisk(sid, f.id, bytes, {target}, {})
  {
  }

  /** Syncing the directory makes the new name durable. */
  lemma SyncsName(sid: string, r: Record, f: FileInfo, bytes: Bytes, links: set<(string, string, Path)>)
    ensures var target := TargetName(f, 0);
            Next(Single(sid, PartDisk(sid, f.id, bytes, {target}, {target}), r, r, Linked(f, target), links),
                 SyncParent(sid),
                 Single(sid, PartDisk(sid, f.id, bytes, {target}, {}), r, r.Publish(f.id, target), Published(f), links))
  {
    var target := TargetName(f, 0);
    Syncs(sid, PartDisk(sid, f.id, bytes, {target}, {target}), r, r, f, target, links);
    SyncedDisk(sid, f, bytes);
  }

  /** A crash that loses nothing, with the one file linked at `target`. */
  lemma RestartStep(
    sid: string, r: Record, r': Record, job: Job, id: string, bytes: Bytes, target: Path, volatile: set<Path>,
    links: set<(string, string, Path)>)
    returns (keep: map<Inode, nat>)
    requires target.Dest? && (volatile == {} || volatile == {target}) && !r.cancelled && !r.complete
    ensures Next(Single(sid, PartDisk(sid, id, bytes, {target}, volatile), r, r', job, links), Crash(keep, {}),
                 Single(sid, PartDisk(sid, id, bytes, {target}, {}), r, r, Idle, links))
  {
    PartDiskOk(sid, id, bytes, {target});
    keep := Restarts(sid, PartDisk(sid, id, bytes, {target}, volatile), r, r', job, links);
    assert Flushed(PartDisk(sid, id, bytes, {target}, volatile)) == PartDisk(sid, id, bytes, {target}, {});
  }

  lemma FailedCommitSteps(sid: string, r: Record, f: FileInfo, bytes: Bytes, links: set<(string, string, Path)>)
    returns (w1: World, w2: World, keep: map<Inode, nat>, w3: World)
    requires !r.cancelled && !r.complete && f.id !in r.published
    ensures var target := TargetName(f, 0);
            Next(Single(sid, PartDisk(sid, f.id, bytes, {target}, {target}), r, r, Linked(f, target), links),
                 SyncParent(sid), w1)
    ensures Next(w1, Commit(sid, Failed(false)), w2) && Next(w2, Crash(keep, {}), w3)
    ensures w2.sessions.Keys == {sid} && w2.sessions[sid].job.Idle? && f.id in w2.sessions[sid].rec.published
    ensures w3.sessions.Keys == {sid} && f.id !in w3.sessions[sid].rec.published
  {
    var target := TargetName(f, 0);
    var d := PartDisk(sid, f.id, bytes, {target}, {});
    var r' := r.Publish(f.id, target);
    SyncsName(sid, r, f, bytes, links);
    w1 := Single(sid, d, r, r', Published(f), links);
    CommitFails(sid, d, r, r', f, links);
    w2 := Single(sid, d, r, r', Idle, links);
    keep := RestartStep(sid, r, r', Idle, f.id, bytes, target, {}, links);
    w3 := Single(sid, d, r, r, Idle, links);
  }

  /** The second answer from memory: for any valid manifest, an upload whose commit fails
      leaves its file published in memory, so that the next upload is answered Ok at once,
      and a crash takes the file back. */
  lemma FailedCommitIsUndone(m: Manifest, owner: string, sourceIp: string, token: string, f: FileInfo, bytes: Bytes)
    returns (states: seq<World>, steps: seq<Step>)
    requires Deliverable(m, f, bytes)
    ensures |steps| == 10 && IsRun(states, steps) && Initial(states[0])
    ensures var sid := m.request.transferId;
            && sid in states[9].sessions && states[9].sessions[sid].job.Idle?
            && f.id in states[9].sessions[sid].rec.published
            && steps[9].Crash? && sid in states[10].sessions && f.id !in states[10].sessions[sid].rec.published
  {
    var sid, target := m.request.transferId, TargetName(f, 0);
    var r := NewRecord(m, owner, sourceIp, true, token).(targets := map[f.id := target]);
    states, steps := LinkRun(m, owner, sourceIp, token, f, bytes);
    var w8, w9, keep, w10 := FailedCommitSteps(sid, r, f, bytes, {(sid, f.id, target)});
    Snoc(states, steps, SyncParent(sid), w8);
    Snoc(states + [w8], steps + [SyncParent(sid)], Commit(sid, Failed(false)), w9);
    Snoc(states + [w8] + [w9], steps + [SyncParent(sid)] + [Commit(sid, Failed(false))], Crash(keep, {}), w10);
    states := states + [w8] + [w9] + [w10];
    steps := steps + [SyncParent(sid)] + [Commit(sid, Failed(false))] + [Crash(keep, {})];
  }

  // ---------------------------------------------------------------- a second name

  lemma SameDisk(sid: string, id: string, bytes: Bytes, linked: set<Path>)
    ensures var d := PartDisk(sid, id, bytes, linked, {});
            && OpenAppend(d, Part(sid, id)) == d && d.names[Part(sid, id)] == 0 && 0 in d.files && Sync(d, 0) == d
  {
    var d := PartDisk(sid, id, bytes, linked, {});
    assert d.files[0 := d.files[0].(synced := |bytes|)] == d.files;
  }

  /** After the restart the sender resumes at the full offset, and the receiver verifies
      the partial file again. */
  lemma ResumeSteps(sid: string, r: Record, f: FileInfo, bytes: Bytes, target: Path, links: set<(string, string, Path)>)
    returns (w1: World, w2: World)
    requires Deliverable(r.manifest, f, bytes)
    requires r.decision == Accepted && !r.cancelled && f.id !in r.published
    ensures var d := PartDisk(sid, f.id, bytes, {target}, {});
            && Next(Single(sid, d, r, r, Idle, links), Begin(sid, f, f.size), w1)
            && Next(w1, EndBody(sid), w2)
            && Next(w2, Verify(sid), Single(sid, d, r, r, Choosing(f, 0), links))
  {
    var d := PartDisk(sid, f.id, bytes, {target}, {});
    SameDisk(sid, f.id, bytes, {target});
    var job := Begins(sid, d, r, r, f, links);
    assert job.offset == f.size;
    w1 := Single(sid, d, r, r, job, links);
    Ends(sid, d, r, r, job, links);
    w2 := Single(sid, d, r, r, Received(f), links);
    Verifies(sid, d, r, r, f, links);
  }

  /** The recorded target is there but cannot be read. */
  lemma SkipSteps(sid: string, d: Disk, r: Record, f: FileInfo, target: Path, links: set<(string, string, Path)>)
    returns (w: World)
    requires r.targets == map[f.id := target] && Live(d, Part(sid, f.id)) && target in d.names
    ensures Next(Single(sid, d, r, r, Choosing(f, 0), links), Choose(sid, Stored), w)
    ensures Next(w, Link(sid, false), Single(sid, d, r, r.(targets := map[]), Choosing(f, 1), links))
  {
    Chooses(sid, d, r, r, f, 0, target, links);
    var r1 := r.(targets := r.targets[f.id := target]);
    assert r1 == r && r.targets - {f.id} == map[];
    w := Single(sid, d, r, r, Journalled(f, 0, target), links);
    SkipsUnreadable(sid, d, r, r, f, 0, target, links);
  }

  lemma TwoNames(f: FileInfo)
    ensures TargetName(f, 0) != TargetName(f, 1)
  {
    Paths.TargetIsSafe(Place(f));
    Paths.DurableCandidatesAreDistinct(Paths.TargetBase(Place(f)), 0, 1);
  }

  /** From the crash right after the link to the choice of a name. */
  lemma ResumeRun(sid: string, r: Record, f: FileInfo, bytes: Bytes, target: Path)
    returns (states: seq<World>, steps: seq<Step>)
    requires Deliverable(r.manifest, f, bytes) && r.decision == Accepted && !r.cancelled && !r.complete
    requires f.id !in r.published
    requires target.Dest?
    ensures IsRun(states, steps) && |steps| == 4
    ensures var links := {(sid, f.id, target)};
            && states[0] == Single(sid, PartDisk(sid, f.id, bytes, {target}, {target}), r, r, Linked(f, target), links)
            && states[4] == Single(sid, PartDisk(sid, f.id, bytes, {target}, {}), r, r, Choosing(f, 0), links)
  {
    var links := {(sid, f.id, target)};
    var d0, d := PartDisk(sid, f.id, bytes, {target}, {target}), PartDisk(sid, f.id, bytes, {target}, {});
    var keep := RestartStep(sid, r, r, Linked(f, target), f.id, bytes, target, {target}, links);
    var w1, w2 := ResumeSteps(sid, r, f, bytes, target, links);
    states := [Single(sid, d0, r, r, Linked(f, target), links), Single(sid, d, r, r, Idle, links), w1, w2,
               Single(sid, d, r, r, Choosing(f, 0), links)];
    steps := [Crash(keep, {}), Begin(sid, f, f.size), EndBody(sid), Verify(sid)];
  }

  /** So the next name is chosen, and it is free. */
  lemma SkipRun(sid: string, r: Record, f: FileInfo, bytes: Bytes, target: Path)
    returns (states: seq<World>, steps: seq<Step>)
    requires r.targets == map[f.id := target] && target.Dest? && TargetName(f, 1) != target
    ensures IsRun(states, steps) && |steps| == 4
    ensures var links := {(sid, f.id, target)};
            && states[0] == Single(sid, PartDisk(sid, f.id, bytes, {target}, {}), r, r, Choosing(f, 0), links)
            && states[4].links == links + {(sid, f.id, TargetName(f, 1))}
  {
    var links, d, second := {(sid, f.id, target)}, PartDisk(sid, f.id, bytes, {target}, {}), TargetName(f, 1);
    var r' := r.(targets := map[]);
    var w1 := SkipSteps(sid, d, r, f, target, links);
    var w3 := ChooseAndLink(sid, r, r', f, bytes, 1, second, {target}, {}, links);
    var r3 := r'.(targets := r'.targets[f.id := second]);
    var w4 := Single(sid, PartDisk(sid, f.id, bytes, {target} + {second}, {} + {second}), r3, r3, Linked(f, second),
                     links + {(sid, f.id, second)});
    var w0, w2 := Single(sid, d, r, r, Choosing(f, 0), links), Single(sid, d, r, r', Choosing(f, 1), links);
    FourSteps(w0, Choose(sid, Stored), w1, Link(sid, false), w2, Choose(sid, Stored), w3, Link(sid, true), w4);
    states := [w0, w1, w2, w3, w4];
    steps := [Choose(sid, Stored), Link(sid, false), Choose(sid, Stored), Link(sid, true)];
  }

  /** A retry can create a second destination: for any valid manifest, a crash right after
      the link, and a target that exists but cannot be read when the sender resumes. */
  lemma UnreadableTargetDuplicates(
    m: Manifest, owner: string, sourceIp: string, token: string, f: FileInfo, bytes: Bytes)
    returns (states: seq<World>, steps: seq<Step>)
    requires Deliverable(m, f, bytes)
    ensures |steps| == 15 && IsRun(states, steps) && Initial(states[0])
    ensures !OneLinkEach(states[15])
    ensures var sid := m.request.transferId;
            (sid, f.id, TargetName(f, 0)) in states[15].links && (sid, f.id, TargetName(f, 1)) in states[15].links
  {
    var sid, target := m.request.transferId, TargetName(f, 0);
    var r := NewRecord(m, owner, sourceIp, true, token).(targets := map[f.id := target]);
    var a, s := LinkRun(m, owner, sourceIp, token, f, bytes);
    TwoNames(f);
    var b, t := ResumeRun(sid, r, f, bytes, target);
    states, steps := Joined(a, s, b, t);
    var c, u := SkipRun(sid, r, f, bytes, target);
    states, steps := Joined(states, steps, c, u);
    TwoLinks(states[15], sid, f.id, target, TargetName(f, 1));
  }

  lemma TwoLinks(w: World, sid: string, id: string, p: Path, q: Path)
    ensures p != q && (sid, id, p) in w.links && (sid, id, q) in w.links ==> !OneLinkEach(w)
  {
  }

  // ---------------------------------------------------------------- one id, two manifests

  lemma Rejects(sid: string, d: Disk, r: Record)
    requires r.decision == Pending
    ensures var r' := r.(decision := Rejected);
            Next(Single(sid, d, r, r, Idle, {}), Reject(sid, Stored), Single(sid, d, r', r', Idle, {}))
  {
    var w, r' := Single(sid, d, r, r, Idle, {}), r.(decision := Rejected);
    assert Persisted(w, sid, w.sessions[sid].(rec := r'), Stored) == Single(sid, d, r', r', Idle, {});
    NextMeans(w, Reject(sid, Stored), Single(sid, d, r', r', Idle, {}));
  }

  lemma Forgets(sid: string, r: Record)
    requires Terminal(r)
    ensures Next(Single(sid, EMPTY.disk, r, r, Idle, {}), Forget(sid), EMPTY)
  {
    var w := Single(sid, EMPTY.disk, r, r, Idle, {});
    TakesForget(w, sid);
    assert DoForget(w, sid, Ids(r.Files())) == EMPTY;
  }

  /** A session is announced, rejected and forgotten: nothing is left of it. */
  lemma RejectedRun(m: Manifest, owner: string, sourceIp: string, token: string)
    returns (states: seq<World>, steps: seq<Step>)
    requires ValidManifest(m)
    ensures IsRun(states, steps) && |steps| == 3 && states[0] == states[3] == EMPTY
    ensures forall k :: 0 <= k < |steps| ==> !steps[k].Crash?
    ensures m.request.transferId in states[1].sessions && states[1].sessions[m.request.transferId].rec.manifest == m
  {
    var sid, r := m.request.transferId, NewRecord(m, owner, sourceIp, false, token);
    var r' := r.(decision := Rejected);
    Registers(EMPTY.disk, m, owner, sourceIp, false, token);
    Rejects(sid, EMPTY.disk, r);
    Forgets(sid, r');
    states := [EMPTY, Single(sid, EMPTY.disk, r, r, Idle, {}), Single(sid, EMPTY.disk, r', r', Idle, {}), EMPTY];
    steps := [Register(m, owner, sourceIp, false, token, Stored), Reject(sid, Stored), Forget(sid)];
  }

  lemma CommitSteps(sid: string, r: Record, f: FileInfo, bytes: Bytes, links: set<(string, string, Path)>)
    returns (w1: World, w2: World)
    requires !r.complete && !r.cancelled && r.Files() == [f] && r.published == map[]
    ensures var target := TargetName(f, 0);
            Next(Single(sid, PartDisk(sid, f.id, bytes, {target}, {target}), r, r, Linked(f, target), links),
                 SyncParent(sid), w1)
    ensures Next(w1, Commit(sid, Stored), w2) && sid in w2.sessions
    ensures w2.sessions[sid].rec.complete && w2.sessions[sid].rec.manifest == r.manifest
  {
    var target := TargetName(f, 0);
    var r' := r.Publish(f.id, target);
    SyncsName(sid, r, f, bytes, links);
    w1 := Single(sid, PartDisk(sid, f.id, bytes, {target}, {}), r, r', Published(f), links);
    TakesCommit(w1, sid, Stored);
    w2 := DoCommit(w1, sid, w1.sessions[sid], Stored);
  }

  /** The id is announced with one manifest, forgotten, announced with another and completed:
      one run from the initial state to a complete session of the second. */
  lemma ReplacedRun(
    m: Manifest, m': Manifest, owner: string, sourceIp: string, token: string, f: FileInfo, bytes: Bytes)
    returns (states: seq<World>, steps: seq<Step>)
    requires ValidManifest(m) && Deliverable(m', f, bytes) && m'.request.files == [f]
    requires m.request.transferId == m'.request.transferId
    ensures IsRun(states, steps) && Initial(states[0]) && |steps| == 12
    ensures forall k :: 0 <= k < |steps| ==> !steps[k].Crash?
    ensures var sid := m.request.transferId;
            && sid in states[1].sessions && states[1].sessions[sid].rec.manifest == m
            && sid in states[12].sessions && states[12].sessions[sid].rec.complete
            && states[12].sessions[sid].rec.manifest == m'
  {
    var sid, target := m.request.transferId, TargetName(f, 0);
    var r := NewRecord(m', owner, sourceIp, true, token).(targets := map[f.id := target]);
    var a, s := RejectedRun(m, owner, sourceIp, token);
    var b, t := LinkRun(m', owner, sourceIp, token, f, bytes);
    states, steps := Joined(a, s, b, t);
    var w11, w12 := CommitSteps(sid, r, f, bytes, {(sid, f.id, target)});
    Snoc(states, steps, SyncParent(sid), w11);
    Snoc(states + [w11], steps + [SyncParent(sid)], Commit(sid, Stored), w12);
    states := states + [w11] + [w12];
    steps := steps + [SyncParent(sid)] + [Commit(sid, Stored)];
  }
}
