/** Safety of stored files over every run: destinations are never altered. */
module DurableSafety {
  import opened Wrappers
  import opened Manifests
  import opened Disks
  import opened Durable
  import opened DurableInvariant
  import opened DurableSteps
  import opened DurableRuns
  import Paths

  // ---------------------------------------------------------------- aliasing

  lemma AppendDisk(w: World, sid: string, s: Session, bytes: Bytes)
    requires Inv(w) && sid in w.sessions && w.sessions[sid] == s && s.job.Receiving? && s.job.fd in w.disk.files
    requires s.job.offset + |bytes| <= s.job.file.size
    ensures Keeps(w.disk, Append(w.disk, s.job.fd, bytes), sid)
  {
    LocalAt(w, sid);
    RoomMeansUnaliased(w.disk, sid, s.rec.Files(), s.job.file, |bytes|);
    AppendKeeps(w.disk, sid, s.job.file.id, bytes);
  }

  lemma SyncDisk(w: World, sid: string, s: Session)
    requires Inv(w) && sid in w.sessions && w.sessions[sid] == s && s.job.Receiving? && s.job.fd in w.disk.files
    ensures Keeps(w.disk, Sync(w.disk, s.job.fd), sid)
  {
    LocalAt(w, sid);
    SyncKeeps(w.disk, sid, s.job.file.id);
  }

  lemma LinkDisk(w: World, sid: string, s: Session)
    requires Inv(w) && sid in w.sessions && w.sessions[sid] == s && s.job.Journalled?
    requires Live(w.disk, Part(sid, s.job.file.id)) && s.job.target !in w.disk.names
    ensures Keeps(w.disk, HardLink(w.disk, Part(sid, s.job.file.id), s.job.target), sid)
  {
    LocalAt(w, sid);
    LinkKeeps(w.disk, sid, s.job.file.id, s.job.target);
  }

  lemma LinkTarget(w: World, sid: string, s: Session)
    requires Inv(w) && sid in w.sessions && w.sessions[sid] == s && s.job.Journalled?
    ensures s.job.target.Dest?
  {
    LocalAt(w, sid);
  }

  lemma DropDisk(w: World, sid: string, s: Session, unlinked: bool)
    requires DiskOk(w.disk) && !s.job.Idle?
    ensures Keeps(w.disk, DoDrop(w, sid, s, unlinked).disk, sid)
  {
    UnlinkKeeps(w.disk, sid, Parts(sid, if unlinked then {s.job.file.id} else {}));
  }

  lemma ReceptionDisk(w: World, sid: string, s: Session, step: Step)
    requires Inv(w) && sid in w.sessions && w.sessions[sid] == s && Receives(step) && EnabledIn(w, sid, s, step)
    ensures Keeps(w.disk, ApplyIn(w, sid, s, step).disk, sid)
  {
    if step.Begin? {
      OpenKeeps(w.disk, sid, step.file.id);
    } else if step.Chunk? || step.TornChunk? {
      AppendDisk(w, sid, s, step.bytes);
    } else if step.Interrupt? || step.EndBody? {
      SyncDisk(w, sid, s);
    } else if step.Abandon? {
      KeepsSelf(w.disk, sid);
    } else {
      DropDisk(w, sid, s, step.unlinked);
    }
  }

  lemma PublicationDisk(w: World, sid: string, s: Session, step: Step)
    requires Inv(w) && sid in w.sessions && w.sessions[sid] == s && Publishes(step) && EnabledIn(w, sid, s, step)
    ensures Keeps(w.disk, ApplyIn(w, sid, s, step).disk, sid)
  {
    KeepsSelf(w.disk, sid);
    if step.Link? {
      if s.job.target !in w.disk.names {
        LinkDisk(w, sid, s);
      }
    } else if step.SyncParent? {
      SyncDirKeeps(w.disk, sid, Paths.TargetDir(Place(s.job.file)));
    } else if step.Finish? {
      UnlinkKeeps(w.disk, sid, Parts(sid, if step.unlinked then {s.job.file.id} else {}));
    }
  }

  lemma DecisionDisk(w: World, sid: string, s: Session, step: Step)
    requires Inv(w) && sid in w.sessions && w.sessions[sid] == s && Decides(step) && EnabledIn(w, sid, s, step)
    ensures Keeps(w.disk, ApplyIn(w, sid, s, step).disk, sid)
  {
    KeepsSelf(w.disk, sid);
    if step.Cancel? || step.ForgetParts? {
      UnlinkKeeps(w.disk, sid, Parts(sid, step.removed));
    } else if step.Forget? {
      UnlinkKeeps(w.disk, sid, Parts(sid, Ids(s.rec.Files())));
    }
  }

  lemma SessionStepDisk(w: World, sid: string, s: Session, step: Step)
    requires !step.Register? && !step.SaveFile? && !step.Crash?
    requires Inv(w) && sid in w.sessions && w.sessions[sid] == s && EnabledIn(w, sid, s, step)
    ensures Keeps(w.disk, ApplyIn(w, sid, s, step).disk, sid)
  {
    if Decides(step) {
      DecisionDisk(w, sid, s, step);
    } else if Receives(step) {
      ReceptionDisk(w, sid, s, step);
    } else {
      PublicationDisk(w, sid, s, step);
    }
  }

  /** The destination is present under a name no crash can drop, and reads as `bytes`. */
  predicate Stands(d: Disk, p: Path, bytes: Bytes) {
    p.Dest? && Live(d, p) && p !in d.volatile && At(d, p).bytes == bytes
  }

  lemma ActDisk(w: World, step: Step, w': World)
    requires Inv(w) && OfSession(step) && Next(w, step, w')
    ensures Keeps(w.disk, w'.disk, step.sid)
  {
    SessionCase(w, step, w');
    SessionStepDisk(w, step.sid, w.sessions[step.sid], step);
  }

  /** What a crash leaves of the file under a name: some prefix with all that was synced. */
  predicate LeavesPrefix(step: Step, d: Disk, d': Disk, p: Path) {
    && step.Crash? && Live(d, p) && Live(d', p) && d.names[p] in step.keep
    && var n := step.keep[d.names[p]];
       At(d, p).synced <= n <= |At(d, p).bytes| && At(d', p) == Content(At(d, p).bytes[..n], n)
  }

  /** One step seen from a destination.  Only a crash can take its name away, and only while
      its directory was never synced, or bytes, and only such as were never synced. */
  ghost predicate Kept(w: World, step: Step, w': World, p: Path) {
    && (if p in w'.disk.names then
          && Live(w.disk, p) && Live(w'.disk, p)
          && (if step.Crash? then LeavesPrefix(step, w.disk, w'.disk, p) else At(w'.disk, p) == At(w.disk, p))
        else step.Crash? && p in step.lost && p in w.disk.volatile)
    && (p !in w.disk.volatile ==> p !in w'.disk.volatile)
  }

  lemma ActKeepsDestination(w: World, step: Step, w': World, p: Path)
    requires Inv(w) && OfSession(step) && Next(w, step, w') && p.Dest? && p in w.disk.names
    ensures Kept(w, step, w', p)
  {
    ActDisk(w, step, w');
  }

  lemma CrashKeepsDestination(w: World, step: Step, w': World, p: Path)
    requires Inv(w) && step.Crash? && Next(w, step, w') && p.Dest? && p in w.disk.names
    ensures Kept(w, step, w', p)
  {
    CrashCase(w, step, w');
    CutKeepsOk(w.disk, step.keep, step.lost);
  }

  lemma QuietKeepsDestination(w: World, step: Step, w': World, p: Path)
    requires Inv(w) && (step.Register? || step.SaveFile?) && Next(w, step, w') && p.Dest? && p in w.disk.names
    ensures Kept(w, step, w', p)
  {
    if step.Register? {
      RegisterElsewhere(w, step, w');
    } else {
      SaveCase(w, step, w');
      CreateKeeps(w.disk, step.path, step.bytes, step.synced, "");
    }
  }

  lemma StepKeepsDestinations(w: World, step: Step, w': World, p: Path)
    requires Inv(w) && Next(w, step, w') && p.Dest? && p in w.disk.names
    ensures Kept(w, step, w', p)
  {
    if step.Crash? {
      CrashKeepsDestination(w, step, w', p);
    } else if OfSession(step) {
      ActKeepsDestination(w, step, w', p);
    } else {
      QuietKeepsDestination(w, step, w', p);
    }
  }

  lemma DurableStays(states: seq<World>, steps: seq<Step>, q: nat, k: nat, p: Path, bytes: Bytes)
    requires IsRun(states, steps) && Initial(states[0]) && k == q + 1 <= |steps|
    requires Stands(states[q].disk, p, bytes) && Settled(At(states[q].disk, p))
    ensures Stands(states[k].disk, p, bytes) && Settled(At(states[k].disk, p))
  {
    RunKeepsInv(states, steps, q);
    StepKeepsDestinations(states[q], steps[q], states[k], p);
    assert bytes[..|bytes|] == bytes;
  }

  /** Aliasing safety over runs: once a destination is durable, name and contents, it stays,
      and no accepted write, publication, cancellation or crash ever changes a byte
      reachable through it, although partial files share its inode. */
  lemma {:induction false} DestinationsNeverChange(states: seq<World>, steps: seq<Step>, i: nat, k: nat, p: Path)
    requires IsRun(states, steps) && Initial(states[0]) && i <= k <= |steps|
    requires p.Dest? && Anchored(states[i].disk, p) && Settled(At(states[i].disk, p))
    ensures Stands(states[k].disk, p, At(states[i].disk, p).bytes) && Settled(At(states[k].disk, p))
    decreases k
  {
    if i < k {
      DestinationsNeverChange(states, steps, i, k - 1, p);
      DurableStays(states, steps, k - 1, k, p, At(states[i].disk, p).bytes);
    }
  }
}
