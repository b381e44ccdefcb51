/** Names that uploads share, and what retries create: an upload that finds its declared
    content under the target's name adopts the file there. */
module DurableAdoption {
  import opened Wrappers
  import opened Manifests
  import opened Disks
  import opened Durable
  import opened DurableInvariant
  import opened DurableSteps
  import opened DurableRuns
  import opened DurableLifecycle
  import opened DurableLinks
  import opened DurablePublication
  import opened DurableMoves
  import opened DurableWitness
  import Paths

  // ---------------------------------------------------------------- retries after publication

  /** A retry after a file has been published and journalled creates no other destination,
      whatever crashes and failures lie in between. */
  lemma NoLinkAfterPublication(
    states: seq<World>, steps: seq<Step>, i: nat, n: nat, l: (string, string, Path))
    requires IsRun(states, steps) && Initial(states[0]) && n < |steps| && Retained(states, steps, i, n, l.0)
    requires l.0 in states[i].journal && l.1 in states[i].journal[l.0].published
    ensures !CreatesLink(states[n], steps[n], l)
  {
    JournalMovesForward(states, steps, i, n, l.0);
    RunKeepsInv(states, steps, n);
    LocalAt(states[n], l.0);
  }

  // ---------------------------------------------------------------- shared destinations

  /** The entry names p as its destination, or is about to. */
  predicate Uses(w: World, e: (string, string), p: Path) {
    e.0 in w.sessions
    && var s := w.sessions[e.0];
       || (e.1 in s.rec.published && s.rec.published[e.1] == p)
       || (s.job.Linked? && s.job.file.id == e.1 && s.job.target == p)
  }

  /** The step links nothing new: it finds p there with the declared content. */
  predicate Adopts(w: World, step: Step, e: (string, string), p: Path) {
    && step.Link? && step.sid == e.0 && e.0 in w.sessions && p in w.disk.names
    && var job := w.sessions[e.0].job;
       job.Journalled? && job.file.id == e.1 && job.target == p
  }

  lemma UsedIsNamed(w: World, e: (string, string), p: Path)
    requires Inv(w) && Uses(w, e, p)
    ensures p in w.disk.names
  {
    LocalAt(w, e.0);
    if e.1 in w.sessions[e.0].rec.published {
      var f := EntryFile(w, e.0, e.1);
      EntryAnchored(w, e.0, f);
    }
  }

  /** An entry comes to use a name only by a link attempt. */
  lemma ComesToUse(w: World, step: Step, w': World, e: (string, string), p: Path)
    requires Inv(w) && Next(w, step, w') && Uses(w', e, p) && !Uses(w, e, p)
    ensures step.Link? && step.sid == e.0 && e.0 in w.sessions
    ensures var job := w.sessions[e.0].job; job.Journalled? && job.file.id == e.1 && job.target == p
  {
    if HasEntry(w', e.0, e.1) && Entry(w', e.0, e.1) == p {
      StepInherits(w, step, w', e.0, e.1);
    } else {
      LinkedBy(w, step, w', e.0);
    }
  }

  lemma LinkedBy(w: World, step: Step, w': World, sid: string)
    requires Next(w, step, w') && sid in w'.sessions && w'.sessions[sid].job.Linked?
    ensures sid in w.sessions
    ensures var s, s' := w.sessions[sid], w'.sessions[sid];
            || s.job == s'.job
            || (step.Link? && step.sid == sid && s.job.Journalled?
                && s'.job.file == s.job.file && s'.job.target == s.job.target)
  {
    if OfSession(step) {
      SessionCase(w, step, w');
      if step.Forget? {
        ForgetIsLocal(w, step.sid, Ids(w.sessions[step.sid].rec.Files()));
      } else {
        SessionStepShape(w, step.sid, w.sessions[step.sid], step);
      }
      if step.sid == sid {
        ActorLinked(w, sid, w.sessions[sid], step);
      }
    } else if step.Crash? {
      CrashCase(w, step, w');
    } else if step.SaveFile? {
      SaveCase(w, step, w');
    } else {
      RegisterElsewhere(w, step, w');
      RegisterCase(w, step, w');
    }
  }

  lemma LeavesNoLink(w: World, sid: string, s: Session, step: Step)
    requires (Decides(step) || Receives(step)) && sid in w.sessions && w.sessions[sid] == s
    requires EnabledIn(w, sid, s, step)
    ensures var w' := ApplyIn(w, sid, s, step);
            sid in w'.sessions && w'.sessions[sid].job.Linked? ==> w'.sessions[sid].job == s.job
  {
  }

  lemma ActorLinked(w: World, sid: string, s: Session, step: Step)
    requires OfSession(step) && step.sid == sid && sid in w.sessions && w.sessions[sid] == s
    requires EnabledIn(w, sid, s, step)
    ensures var w' := ApplyIn(w, sid, s, step);
            sid in w'.sessions && w'.sessions[sid].job.Linked? ==>
              || w'.sessions[sid].job == s.job
              || (step.Link? && s.job.Journalled?
                  && w'.sessions[sid].job.file == s.job.file && w'.sessions[sid].job.target == s.job.target)
  {
    if !Publishes(step) {
      LeavesNoLink(w, sid, s, step);
    }
  }

  /** The step adopts for one of the two entries a name that the other uses. */
  predicate AdoptsUsed(w: World, step: Step, a: (string, string), b: (string, string), p: Path) {
    (Adopts(w, step, a, p) && Uses(w, b, p)) || (Adopts(w, step, b, p) && Uses(w, a, p))
  }

  ghost predicate BothUse(w: World, a: (string, string), b: (string, string), p: Path) {
    Uses(w, a, p) && Uses(w, b, p)
  }

  /** Step n adopts for one of the two entries a name that the other uses, and both have used
      it since. */
  ghost predicate SharedAt(
    states: seq<World>, steps: seq<Step>, n: nat, k: nat, a: (string, string), b: (string, string), p: Path)
  {
    && n < k <= |steps| < |states|
    && AdoptsUsed(states[n], steps[n], a, b, p)
    && forall q :: n < q <= k ==> BothUse(states[q], a, b, p)
  }

  lemma SharingStep(w: World, step: Step, w': World, a: (string, string), b: (string, string), p: Path)
    requires Inv(w) && Next(w, step, w') && a != b && BothUse(w', a, b, p) && !BothUse(w, a, b, p)
    ensures AdoptsUsed(w, step, a, b, p)
  {
    if !Uses(w, a, p) {
      ComesToUse(w, step, w', a, p);
      if !Uses(w, b, p) {
        ComesToUse(w, step, w', b, p);
      }
      UsedIsNamed(w, b, p);
    } else {
      ComesToUse(w, step, w', b, p);
      UsedIsNamed(w, a, p);
    }
  }

  ghost predicate Shared(
    states: seq<World>, steps: seq<Step>, k: nat, a: (string, string), b: (string, string), p: Path)
  {
    exists n: nat :: SharedAt(states, steps, n, k, a, b, p)
  }

  lemma SharedOn(
    states: seq<World>, steps: seq<Step>, q: nat, k: nat, a: (string, string), b: (string, string), p: Path)
    requires k == q + 1 <= |steps| < |states| && BothUse(states[k], a, b, p)
    ensures Shared(states, steps, q, a, b, p) || AdoptsUsed(states[q], steps[q], a, b, p)
            ==> Shared(states, steps, k, a, b, p)
  {
    if n: nat :| SharedAt(states, steps, n, q, a, b, p) {
      assert SharedAt(states, steps, n, k, a, b, p);
    }
    if AdoptsUsed(states[q], steps[q], a, b, p) {
      assert SharedAt(states, steps, q, k, a, b, p);
    }
  }

  lemma {:induction false} SharedByAdopting(
    states: seq<World>, steps: seq<Step>, k: nat, a: (string, string), b: (string, string), p: Path)
    requires IsRun(states, steps) && Initial(states[0]) && k <= |steps| && a != b && BothUse(states[k], a, b, p)
    ensures Shared(states, steps, k, a, b, p)
  {
    assert k > 0;
    SharedOn(states, steps, k - 1, k, a, b, p);
    if BothUse(states[k - 1], a, b, p) {
      SharedByAdopting(states, steps, k - 1, a, b, p);
    } else {
      RunKeepsInv(states, steps, k - 1);
      SharingStep(states[k - 1], steps[k - 1], states[k], a, b, p);
    }
  }

  /** Two file ids, of one session or of two, share a destination if and only if an upload of
      one adopted the name while the other used it. */
  lemma SharedIff(
    states: seq<World>, steps: seq<Step>, k: nat, a: (string, string), b: (string, string), p: Path)
    requires IsRun(states, steps) && Initial(states[0]) && k <= |steps| && a != b
    ensures BothUse(states[k], a, b, p) <==> Shared(states, steps, k, a, b, p)
  {
    if BothUse(states[k], a, b, p) {
      SharedByAdopting(states, steps, k, a, b, p);
    }
  }

  /** Files that share a destination are of equal size and digest, as long as no crash has cut
      the file under it. */
  lemma SharedContent(states: seq<World>, steps: seq<Step>, k: nat, s: string, f: FileInfo, t: string, g: FileInfo)
    requires IsRun(states, steps) && Initial(states[0]) && k <= |steps|
    requires HasEntry(states[k], s, f.id) && f in states[k].sessions[s].rec.Files()
    requires HasEntry(states[k], t, g.id) && g in states[k].sessions[t].rec.Files()
    requires Entry(states[k], s, f.id) == Entry(states[k], t, g.id)
    requires !WasCut(states, steps, k, s, f.id) && !WasCut(states, steps, k, t, g.id)
    ensures f.size == g.size && f.id in states[k].sessions[s].rec.manifest.sha256
    ensures g.id in states[k].sessions[t].rec.manifest.sha256
    ensures states[k].sessions[s].rec.manifest.sha256[f.id] == states[k].sessions[t].rec.manifest.sha256[g.id]
  {
    EntryFate(states, steps, k, s, f);
    EntryFate(states, steps, k, t, g);
  }

  // ---------------------------------------------------------------- an adopted file, step by step

  /** A file is there already, of which `synced` bytes survive a crash. */
  function Found(target: Path, bytes: Bytes, synced: nat, volatile: set<Path>): Disk {
    Disk(map[target := 0], map[0 := Content(bytes, synced)], volatile, 1)
  }

  /** ... beside the same bytes in a partial file, all synced. */
  function Beside(sid: string, id: string, target: Path, bytes: Bytes, synced: nat, volatile: set<Path>): Disk {
    Disk(map[target := 0, Part(sid, id) := 1],
         map[0 := Content(bytes, synced), 1 := Content(bytes, |bytes|)],
         volatile, 2)
  }

  lemma PartBeside(sid: string, id: string, target: Path, bytes: Bytes, synced: nat, volatile: set<Path>)
    requires target.Dest?
    ensures var d := OpenAppend(Found(target, bytes, synced, volatile), Part(sid, id));
            && Part(sid, id) in d.names && d.names[Part(sid, id)] == 1 && 1 in d.files && 1 in Append(d, 1, bytes).files
            && Sync(Append(d, 1, bytes), 1) == Beside(sid, id, target, bytes, synced, volatile)
  {
    var d := OpenAppend(Found(target, bytes, synced, volatile), Part(sid, id));
    assert d.names == map[target := 0, Part(sid, id) := 1];
    assert [] + bytes == bytes;
    assert Sync(Append(d, 1, bytes), 1).files == map[0 := Content(bytes, synced), 1 := Content(bytes, |bytes|)];
  }

  /** The file arrives in its partial file, next to the name another program has taken. */
  lemma ArriveBeside(
    sid: string, r: Record, f: FileInfo, bytes: Bytes, target: Path, synced: nat, volatile: set<Path>,
    links: set<(string, string, Path)>)
    returns (w1: World, w2: World)
    requires target.Dest? && Deliverable(r.manifest, f, bytes)
    requires r.decision == Accepted && !r.cancelled && f.id !in r.published
    ensures Next(Single(sid, Found(target, bytes, synced, volatile), r, r, Idle, links), Begin(sid, f, 0), w1)
    ensures Next(w1, Chunk(sid, bytes), w2)
    ensures Next(w2, EndBody(sid),
                 Single(sid, Beside(sid, f.id, target, bytes, synced, volatile), r, r, Received(f), links))
  {
    var d0 := Found(target, bytes, synced, volatile);
    PartBeside(sid, f.id, target, bytes, synced, volatile);
    var d1 := OpenAppend(d0, Part(sid, f.id));
    var d2 := Append(d1, 1, bytes);
    var job := Begins(sid, d0, r, r, f, links);
    Appends(sid, d1, r, r, job, bytes, links);
    var full := job.(offset := job.offset + |bytes|);
    Ends(sid, d2, r, r, full, links);
    w1, w2 := Single(sid, d1, r, r, job, links), Single(sid, d2, r, r, full, links);
  }

  lemma VerifyBeside(
    sid: string, r: Record, f: FileInfo, bytes: Bytes, target: Path, synced: nat, volatile: set<Path>,
    links: set<(string, string, Path)>)
    requires target.Dest? && Deliverable(r.manifest, f, bytes)
    ensures var d := Beside(sid, f.id, target, bytes, synced, volatile);
            Next(Single(sid, d, r, r, Received(f), links), Verify(sid), Single(sid, d, r, r, Choosing(f, 0), links))
  {
    PartBeside(sid, f.id, target, bytes, synced, volatile);
    var d := Beside(sid, f.id, target, bytes, synced, volatile);
    assert Holds(d, Part(sid, f.id), r.manifest, f);
    Verifies(sid, d, r, r, f, links);
  }

  lemma ReceiveBeside(
    sid: string, r: Record, f: FileInfo, bytes: Bytes, target: Path, synced: nat, volatile: set<Path>,
    links: set<(string, string, Path)>)
    returns (states: seq<World>, steps: seq<Step>)
    requires target.Dest? && Deliverable(r.manifest, f, bytes)
    requires r.decision == Accepted && !r.cancelled && f.id !in r.published
    ensures IsRun(states, steps) && |steps| == 4 && forall k :: 0 <= k < 4 ==> !steps[k].Crash?
    ensures states[0] == Single(sid, Found(target, bytes, synced, volatile), r, r, Idle, links)
    ensures states[4] == Single(sid, Beside(sid, f.id, target, bytes, synced, volatile), r, r, Choosing(f, 0), links)
  {
    var d0, d3 := Found(target, bytes, synced, volatile), Beside(sid, f.id, target, bytes, synced, volatile);
    var w1, w2 := ArriveBeside(sid, r, f, bytes, target, synced, volatile, links);
    VerifyBeside(sid, r, f, bytes, target, synced, volatile, links);
    var w0, w4 := Single(sid, d0, r, r, Idle, links), Single(sid, d3, r, r, Choosing(f, 0), links);
    var w3 := Single(sid, d3, r, r, Received(f), links);
    FourSteps(w0, Begin(sid, f, 0), w1, Chunk(sid, bytes), w2, EndBody(sid), w3, Verify(sid), w4);
    states, steps := [w0, w1, w2, w3, w4], [Begin(sid, f, 0), Chunk(sid, bytes), EndBody(sid), Verify(sid)];
  }

  lemma LinksPresent(
    sid: string, d: Disk, j: Record, r: Record, f: FileInfo, index: nat, target: Path,
    links: set<(string, string, Path)>)
    requires Live(d, Part(sid, f.id)) && target in d.names && Holds(d, target, r.manifest, f)
    ensures Next(Single(sid, d, j, r, Journalled(f, index, target), links), Link(sid, true),
                 Single(sid, d, j, r, Linked(f, target), links))
  {
    var w := Single(sid, d, j, r, Journalled(f, index, target), links);
    Puts(sid, d, j, r, Journalled(f, index, target), links, w, Session(r, false, false, Linked(f, target)));
    TakesLink(w, sid, true);
  }

  /** A receiver of a single session that has just committed a file. */
  function AfterCommit(sid: string, d: Disk, r: Record, f: FileInfo, links: set<(string, string, Path)>): World {
    World(d, map[sid := r], map[sid := Session(r, false, r.complete, Committed(f))], map[sid := 0], links)
  }

  lemma Commits(sid: string, d: Disk, j: Record, r: Record, f: FileInfo, links: set<(string, string, Path)>)
    ensures Next(Single(sid, d, j, r, Published(f), links), Commit(sid, Stored), AfterCommit(sid, d, r, f, links))
  {
    var w := Single(sid, d, j, r, Published(f), links);
    TakesCommit(w, sid, Stored);
    assert DoCommit(w, sid, w.sessions[sid], Stored) == AfterCommit(sid, d, r, f, links);
  }

  /** The upload adopts the file that is there. */
  lemma AdoptSteps(
    sid: string, r: Record, f: FileInfo, d: Disk, links: set<(string, string, Path)>) returns (w1: World, w2: World)
    requires f.id !in r.targets && Live(d, Part(sid, f.id)) && Holds(d, TargetName(f, 0), r.manifest, f)
    ensures Next(Single(sid, d, r, r, Choosing(f, 0), links), Choose(sid, Stored), w1) && Next(w1, Link(sid, true), w2)
    ensures var target := TargetName(f, 0); var r1 := r.(targets := r.targets[f.id := target]);
            && w1 == Single(sid, d, r1, r1, Journalled(f, 0, target), links)
            && w2 == Single(sid, d, r1, r1, Linked(f, target), links)
  {
    var target := TargetName(f, 0);
    var r1 := r.(targets := r.targets[f.id := target]);
    Chooses(sid, d, r, r, f, 0, target, links);
    LinksPresent(sid, d, r1, r1, f, 0, target, links);
    w1, w2 := Single(sid, d, r1, r1, Journalled(f, 0, target), links), Single(sid, d, r1, r1, Linked(f, target), links);
  }

  /** ... publishes it and commits; nothing syncs it. */
  lemma CommitAdopted(
    sid: string, r: Record, f: FileInfo, bytes: Bytes, synced: nat, volatile: set<Path>,
    links: set<(string, string, Path)>)
    returns (w1: World, w2: World)
    requires volatile <= {TargetName(f, 0)}
    ensures var target := TargetName(f, 0);
            Next(Single(sid, Beside(sid, f.id, target, bytes, synced, volatile), r, r, Linked(f, target), links),
                 SyncParent(sid), w1)
    ensures Next(w1, Commit(sid, Stored), w2)
    ensures var target := TargetName(f, 0);
            w2 == AfterCommit(sid, Beside(sid, f.id, target, bytes, synced, {}), r.Publish(f.id, target), f, links)
  {
    var target := TargetName(f, 0);
    var d, d' := Beside(sid, f.id, target, bytes, synced, volatile), Beside(sid, f.id, target, bytes, synced, {});
    Syncs(sid, d, r, r, f, target, links);
    assert SyncDir(d, Paths.TargetDir(Place(f))) == d';
    Commits(sid, d', r, r.Publish(f.id, target), f, links);
    w1 := Single(sid, d', r, r.Publish(f.id, target), Published(f), links);
    w2 := AfterCommit(sid, d', r.Publish(f.id, target), f, links);
  }

  lemma AdoptAndCommit(
    sid: string, r: Record, f: FileInfo, bytes: Bytes, synced: nat, volatile: set<Path>,
    links: set<(string, string, Path)>)
    returns (states: seq<World>, steps: seq<Step>)
    requires Deliverable(r.manifest, f, bytes) && f.id !in r.targets && volatile <= {TargetName(f, 0)}
    ensures IsRun(states, steps) && |steps| == 4
    ensures var target := TargetName(f, 0); var r' := r.(targets := r.targets[f.id := target]).Publish(f.id, target);
            && states[0] == Single(sid, Beside(sid, f.id, target, bytes, synced, volatile), r, r, Choosing(f, 0), links)
            && states[4] == AfterCommit(sid, Beside(sid, f.id, target, bytes, synced, {}), r', f, links)
  {
    var target := TargetName(f, 0);
    var d := Beside(sid, f.id, target, bytes, synced, volatile);
    var w0 := Single(sid, d, r, r, Choosing(f, 0), links);
    var w1, w2 := AdoptSteps(sid, r, f, d, links);
    var w3, w4 := CommitAdopted(sid, r.(targets := r.targets[f.id := target]), f, bytes, synced, volatile, links);
    FourSteps(w0, Choose(sid, Stored), w1, Link(sid, true), w2, SyncParent(sid), w3, Commit(sid, Stored), w4);
    states, steps := [w0, w1, w2, w3, w4], [Choose(sid, Stored), Link(sid, true), SyncParent(sid), Commit(sid, Stored)];
  }

  /** The whole upload that adopts. */
  lemma AdoptRun(
    sid: string, r: Record, f: FileInfo, bytes: Bytes, synced: nat, volatile: set<Path>,
    links: set<(string, string, Path)>)
    returns (states: seq<World>, steps: seq<Step>)
    requires Deliverable(r.manifest, f, bytes) && f.id !in r.targets && volatile <= {TargetName(f, 0)}
    requires r.decision == Accepted && !r.cancelled && f.id !in r.published
    ensures IsRun(states, steps) && |steps| == 8
    ensures var target := TargetName(f, 0); var r' := r.(targets := r.targets[f.id := target]).Publish(f.id, target);
            && states[0] == Single(sid, Found(target, bytes, synced, volatile), r, r, Idle, links)
            && states[8] == AfterCommit(sid, Beside(sid, f.id, target, bytes, synced, {}), r', f, links)
  {
    var a, s := ReceiveBeside(sid, r, f, bytes, TargetName(f, 0), synced, volatile, links);
    var b, t := AdoptAndCommit(sid, r, f, bytes, synced, volatile, links);
    states, steps := Joined(a, s, b, t);
  }

  // ---------------------------------------------------------------- adopting an unsynced file

  lemma Saves(target: Path, bytes: Bytes)
    requires target.Dest? && Representable(target)
    ensures Next(EMPTY, SaveFile(target, bytes, 0), EMPTY.(disk := Found(target, bytes, 0, {target})))
  {
    assert CreateFile(EMPTY.disk, target, bytes, 0) == Found(target, bytes, 0, {target});
    NextMeans(EMPTY, SaveFile(target, bytes, 0), EMPTY.(disk := Found(target, bytes, 0, {target})));
  }

  lemma TwoSteps(w0: World, s1: Step, w1: World, s2: Step, w2: World)
    requires Next(w0, s1, w1) && Next(w1, s2, w2)
    ensures IsRun([w0, w1, w2], [s1, s2])
  {
  }

  /** Another program saves the very content without syncing it, and the file is announced. */
  lemma SavedRun(m: Manifest, owner: string, sourceIp: string, token: string, f: FileInfo, bytes: Bytes)
    returns (states: seq<World>, steps: seq<Step>)
    requires Deliverable(m, f, bytes)
    ensures IsRun(states, steps) && |steps| == 2 && states[0] == EMPTY
    ensures var sid, target, r := m.request.transferId, TargetName(f, 0), NewRecord(m, owner, sourceIp, true, token);
            && steps[0] == SaveFile(target, bytes, 0)
            && states[2] == Single(sid, Found(target, bytes, 0, {target}), r, r, Idle, {})
  {
    var sid, target, r := m.request.transferId, TargetName(f, 0), NewRecord(m, owner, sourceIp, true, token);
    var w1 := EMPTY.(disk := Found(target, bytes, 0, {target}));
    Saves(target, bytes);
    var w2 := Single(sid, w1.disk, r, r, Idle, {});
    Registers(w1.disk, m, owner, sourceIp, true, token);
    var step := Register(m, owner, sourceIp, true, token, Stored);
    TwoSteps(EMPTY, SaveFile(target, bytes, 0), w1, step, w2);
    states, steps := [EMPTY, w1, w2], [SaveFile(target, bytes, 0), step];
  }

  /** The partial file is removed. */
  lemma Finishes(sid: string, d: Disk, d': Disk, r: Record, f: FileInfo, links: set<(string, string, Path)>)
    returns (w: World)
    requires Unlink(d, {Part(sid, f.id)}) == d'
    ensures Next(AfterCommit(sid, d, r, f, links), Finish(sid, true), w)
    ensures w == World(d', map[sid := r], map[sid := Session(r, false, r.complete, Idle)],
                       map[sid := if r.complete then 1 else 0], links)
  {
    var w0 := AfterCommit(sid, d, r, f, links);
    assert Parts(sid, {f.id}) == {Part(sid, f.id)};
    TakesFinish(w0, sid, true);
    w := World(d', map[sid := r], map[sid := Session(r, false, r.complete, Idle)],
               map[sid := if r.complete then 1 else 0], links);
    assert DoFinish(w0, sid, w0.sessions[sid], true).sessions == w.sessions;
    assert DoFinish(w0, sid, w0.sessions[sid], true).completions == w.completions;
  }

  /** What is left beside the partial file once that is gone. */
  function Alone(target: Path, bytes: Bytes, synced: nat): Disk {
    Disk(map[target := 0], map[0 := Content(bytes, synced), 1 := Content(bytes, |bytes|)], {}, 2)
  }

  lemma AloneOnDisk(sid: string, id: string, target: Path, bytes: Bytes, synced: nat)
    requires target.Dest? && synced <= |bytes|
    ensures Unlink(Beside(sid, id, target, bytes, synced, {}), {Part(sid, id)}) == Alone(target, bytes, synced)
    ensures DiskOk(Alone(target, bytes, synced))
  {
    assert Unlink(Beside(sid, id, target, bytes, synced, {}), {Part(sid, id)}).names == map[target := 0];
  }

  /** Then a crash takes what was never synced. */
  lemma CutAdopted(w: World, sid: string, r: Record, id: string, target: Path, bytes: Bytes)
    returns (keep: map<Inode, nat>, w': World)
    requires target.Dest? && w.disk == Alone(target, bytes, 0) && w.journal == map[sid := r]
    ensures Next(w, Crash(keep, {}), w') && w'.journal == map[sid := r] && w'.sessions == LoadAll(w.journal)
    ensures Live(w'.disk, target) && At(w'.disk, target).bytes == [] && Part(sid, id) !in w'.disk.names
  {
    keep := CutAlone(target, bytes);
    w' := CrashesTo(w, keep, {});
  }

  lemma CutAlone(target: Path, bytes: Bytes) returns (keep: map<Inode, nat>)
    requires target.Dest?
    ensures DiskOk(Alone(target, bytes, 0)) && CutOk(Alone(target, bytes, 0), keep)
    ensures var d := Cut(Alone(target, bytes, 0), keep, {});
            && Live(d, target) && At(d, target).bytes == [] && forall p :: p in d.names ==> p == target
  {
    keep := map[0 := 0, 1 := |bytes|];
  }

  lemma LostSteps(sid: string, r: Record, f: FileInfo, bytes: Bytes)
    returns (w1: World, keep: map<Inode, nat>, w2: World)
    requires f.id in r.published && r.published[f.id] == TargetName(f, 0) && f.size > 0
    ensures Next(AfterCommit(sid, Beside(sid, f.id, TargetName(f, 0), bytes, 0, {}), r, f, {}), Finish(sid, true), w1)
    ensures Next(w1, Crash(keep, {}), w2) && w2.journal == map[sid := r]
    ensures HasEntry(w2, sid, f.id) && !Sound(w2, sid, f) && Part(sid, f.id) !in w2.disk.names
  {
    var target := TargetName(f, 0);
    AloneOnDisk(sid, f.id, target, bytes, 0);
    w1 := Finishes(sid, Beside(sid, f.id, target, bytes, 0, {}), Alone(target, bytes, 0), r, f, {});
    keep, w2 := CutAdopted(w1, sid, r, f.id, target, bytes);
  }

  /** What is published can be lost: for any valid manifest, a run in which another program
      has saved the declared content without syncing it, the upload adopts that file and
      removes its own synced copy, and a crash leaves the published name empty for good. */
  lemma UnsyncedAdoptionIsLost(m: Manifest, owner: string, sourceIp: string, token: string, f: FileInfo, bytes: Bytes)
    returns (states: seq<World>, steps: seq<Step>)
    requires Deliverable(m, f, bytes) && bytes != []
    ensures IsRun(states, steps) && Initial(states[0]) && |steps| == 12
    ensures var sid, w := m.request.transferId, states[12];
            && sid in w.journal && f.id in w.journal[sid].published && HasEntry(w, sid, f.id)
            && !Sound(w, sid, f) && Part(sid, f.id) !in w.disk.names
            && (m.request.files == [f] ==> w.journal[sid].complete)
  {
    var sid, target := m.request.transferId, TargetName(f, 0);
    var r0 := NewRecord(m, owner, sourceIp, true, token);
    var r := r0.(targets := r0.targets[f.id := target]).Publish(f.id, target);
    var a, s := SavedRun(m, owner, sourceIp, token, f, bytes);
    var b, t := AdoptRun(sid, r0, f, bytes, 0, {target}, {});
    states, steps := Joined(a, s, b, t);
    var w11, keep, w12 := LostSteps(sid, r, f, bytes);
    Snoc(states, steps, Finish(sid, true), w11);
    Snoc(states + [w11], steps + [Finish(sid, true)], Crash(keep, {}), w12);
    states, steps := states + [w11] + [w12], steps + [Finish(sid, true)] + [Crash(keep, {})];
  }

  // ---------------------------------------------------------------- two files, one destination

  /** The first upload is committed and its partial file removed. */
  lemma CommitFirst(sid: string, r: Record, f: FileInfo, bytes: Bytes, links: set<(string, string, Path)>)
    returns (w1: World, w2: World, w3: World)
    requires |r.Files()| > 1 && r.published == map[]
    ensures var target := TargetName(f, 0);
            Next(Single(sid, PartDisk(sid, f.id, bytes, {target}, {target}), r, r, Linked(f, target), links),
                 SyncParent(sid), w1)
    ensures Next(w1, Commit(sid, Stored), w2) && Next(w2, Finish(sid, true), w3)
    ensures var r' := r.Publish(f.id, TargetName(f, 0));
            w3 == Single(sid, Found(TargetName(f, 0), bytes, |bytes|, {}), r', r', Idle, links)
  {
    var target := TargetName(f, 0);
    var r' := r.Publish(f.id, target);
    var d := PartDisk(sid, f.id, bytes, {target}, {});
    SyncsName(sid, r, f, bytes, links);
    w1 := Single(sid, d, r, r', Published(f), links);
    Commits(sid, d, r, r', f, links);
    w2 := AfterCommit(sid, d, r', f, links);
    RemovesPart(sid, f, bytes);
    w3 := Finishes(sid, d, Found(target, bytes, |bytes|, {}), r', f, links);
  }

  lemma RemovesPart(sid: string, f: FileInfo, bytes: Bytes)
    ensures var target := TargetName(f, 0);
            Unlink(PartDisk(sid, f.id, bytes, {target}, {}), {Part(sid, f.id)}) == Found(target, bytes, |bytes|, {})
  {
  }

  /** Two files of one manifest can share a destination: for any valid manifest that declares
      two ids for the same name and content, a run that publishes both under one name. */
  lemma SharedDestination(
    m: Manifest, owner: string, sourceIp: string, token: string, f: FileInfo, g: FileInfo, bytes: Bytes)
    returns (states: seq<World>, steps: seq<Step>)
    requires Deliverable(m, f, bytes) && Deliverable(m, g, bytes) && f.id != g.id
    requires TargetName(f, 0) == TargetName(g, 0)
    ensures IsRun(states, steps) && Initial(states[0]) && |steps| == 18
    ensures var sid, target := m.request.transferId, TargetName(f, 0);
            BothUse(states[18], (sid, f.id), (sid, g.id), target)
    ensures var sid := m.request.transferId;
            && sid in states[18].journal && f.id in states[18].journal[sid].published
            && g.id in states[18].journal[sid].published
  {
    var sid, target := m.request.transferId, TargetName(f, 0);
    var links := {(sid, f.id, target)};
    var r := NewRecord(m, owner, sourceIp, true, token).(targets := map[f.id := target]);
    TwoFiles(m.request.files, f, g);
    var a, s := LinkRun(m, owner, sourceIp, token, f, bytes);
    var w8, w9, w10 := CommitFirst(sid, r, f, bytes, links);
    Snoc(a, s, SyncParent(sid), w8);
    Snoc(a + [w8], s + [SyncParent(sid)], Commit(sid, Stored), w9);
    Snoc(a + [w8] + [w9], s + [SyncParent(sid)] + [Commit(sid, Stored)], Finish(sid, true), w10);
    var b, t := AdoptRun(sid, r.Publish(f.id, target), g, bytes, |bytes|, {}, links);
    states, steps := Joined(a + [w8] + [w9] + [w10],
                            s + [SyncParent(sid)] + [Commit(sid, Stored)] + [Finish(sid, true)], b, t);
  }

  lemma TwoFiles(files: seq<FileInfo>, f: FileInfo, g: FileInfo)
    requires f in files && g in files && f.id != g.id
    ensures |files| > 1
  {
  }
}
