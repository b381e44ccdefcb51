/** Offsets a sender resumes from: they never go back while the session is left alone. */
module DurableOffsets {
  import opened Wrappers
  import opened Manifests
  import opened Disks
  import opened Durable
  import opened DurableInvariant
  import opened DurableSteps
  import opened DurableRuns
  import opened DurableSafety
  import opened DurableLifecycle
  import opened DurableResume

  /** Cancelling or forgetting the session. */
  predicate Removes(step: Step, sid: string) {
    (step.FireCancel? || step.Cancel? || step.ForgetParts? || step.Forget?) && step.sid == sid
  }

  /** A crash that loses no byte. */
  predicate Lossless(w: World, step: Step) {
    step.Crash? ==> forall i :: i in w.disk.files ==> i in step.keep && step.keep[i] == |w.disk.files[i].bytes|
  }

  /** The file is still there with at least its synced bytes, and (`whole`) all of them. */
  predicate Grown(d: Disk, d': Disk, p: Path, whole: bool) {
    Live(d, p) ==>
      && Live(d', p)
      && At(d, p).synced <= At(d', p).synced
      && (whole ==> At(d, p).bytes <= At(d', p).bytes)
  }

  /** What a file published in memory only still has: its full, synced partial file. */
  ghost predicate Unjournalled(d: Disk, sid: string, j: Record, r: Record) {
    forall f :: f in r.Files() && f.id in r.published && f.id !in j.published ==>
      Live(d, Part(sid, f.id)) && Settled(At(d, Part(sid, f.id))) && |At(d, Part(sid, f.id)).bytes| == f.size
  }

  ghost predicate Undisturbed(w: World, sid: string) {
    sid in w.sessions ==>
      && sid in w.journal
      && !w.sessions[sid].fired && !w.sessions[sid].rec.cancelled && !w.journal[sid].cancelled
      && Unjournalled(w.disk, sid, w.journal[sid], w.sessions[sid].rec)
  }

  // ---------------------------------------------------------------- partial files grow

  lemma ReceptionGrows(w: World, sid: string, s: Session, step: Step, id: string)
    requires DiskOk(w.disk) && Receives(step) && EnabledIn(w, sid, s, step)
    requires !step.Discard? && !step.Oversize? && !step.Abort?
    ensures Grown(w.disk, ApplyIn(w, sid, s, step).disk, Part(sid, id), true)
  {
  }

  lemma LinkGrows(w: World, sid: string, s: Session, readable: bool, id: string)
    requires Inv(w) && sid in w.sessions && w.sessions[sid] == s && s.job.Journalled?
    requires Live(w.disk, Part(sid, s.job.file.id))
    ensures Grown(w.disk, DoLink(w, sid, s, readable).disk, Part(sid, id), true)
  {
    LinkTarget(w, sid, s);
  }

  lemma OtherGrows(w: World, sid: string, s: Session, step: Step, id: string)
    requires step.Accept? || step.Reject? || (Publishes(step) && !step.Link?)
    requires EnabledIn(w, sid, s, step)
    requires step.Finish? ==> id != s.job.file.id
    ensures Grown(w.disk, ApplyIn(w, sid, s, step).disk, Part(sid, id), true)
  {
  }

  lemma FinishedIsJournalled(w: World, sid: string, s: Session)
    requires Inv(w) && sid in w.sessions && w.sessions[sid] == s && s.job.Committed?
    ensures sid in w.journal && s.job.file.id in w.journal[sid].published
  {
    LocalAt(w, sid);
  }

  lemma OthersGrow(d: Disk, d': Disk, actor: string, sid: string, id: string)
    requires Keeps(d, d', actor) && actor != sid
    ensures Grown(d, d', Part(sid, id), true)
  {
  }

  lemma ActGrows(w: World, step: Step, w': World, sid: string, src: map<string, Bytes>, id: string)
    requires Inv(w) && OfSession(step) && Next(w, step, w') && sid in w.sessions && sid in w.journal
    requires PrefixOk(w, sid, src) && Sends(w, step, sid, src)
    requires !Removes(step, sid) && !w.sessions[sid].fired
    requires id !in w.journal[sid].published
    ensures Grown(w.disk, w'.disk, Part(sid, id), true)
  {
    SessionCase(w, step, w');
    var s := w.sessions[step.sid];
    if step.sid != sid {
      SessionStepDisk(w, step.sid, s, step);
      OthersGrow(w.disk, w'.disk, step.sid, sid, id);
    } else if Receives(step) {
      HonestStepAccepted(w, step, w', sid, src);
      ReceptionGrows(w, sid, s, step, id);
    } else {
      if step.Finish? {
        FinishedIsJournalled(w, sid, s);
      }
      if step.Link? {
        LinkGrows(w, sid, s, step.readable, id);
      } else {
        OtherGrows(w, sid, s, step, id);
      }
    }
  }

  lemma CrashGrows(w: World, step: Step, w': World, p: Path)
    requires step.Crash? && Next(w, step, w') && p.Part?
    ensures Grown(w.disk, w'.disk, p, Lossless(w, step))
  {
    CrashCase(w, step, w');
    if Live(w.disk, p) {
      assert w.disk.names[p] in w'.disk.files;
    }
  }

  lemma QuietGrows(w: World, step: Step, w': World, p: Path)
    requires DiskOk(w.disk) && (step.Register? || step.SaveFile?) && Next(w, step, w') && p.Part?
    ensures Grown(w.disk, w'.disk, p, true)
  {
    if step.Register? {
      RegisterElsewhere(w, step, w');
    } else {
      SaveCase(w, step, w');
    }
  }

  lemma StepGrows(w: World, step: Step, w': World, sid: string, src: map<string, Bytes>, id: string)
    requires Inv(w) && Next(w, step, w') && sid in w.sessions && sid in w.journal
    requires PrefixOk(w, sid, src) && Sends(w, step, sid, src)
    requires !Removes(step, sid) && !w.sessions[sid].fired
    requires id !in w.journal[sid].published
    ensures Grown(w.disk, w'.disk, Part(sid, id), Lossless(w, step))
  {
    if OfSession(step) {
      ActGrows(w, step, w', sid, src, id);
    } else if step.Crash? {
      CrashGrows(w, step, w', Part(sid, id));
    } else {
      QuietGrows(w, step, w', Part(sid, id));
    }
  }

  // ---------------------------------------------------------------- the session is left alone

  /** Flags stay down, and only a parent sync publishes a file. */
  ghost predicate StaysQuiet(w: World, w': World, sid: string) {
    && sid in w.sessions && sid in w'.sessions && sid in w.journal && sid in w'.journal
    && w'.sessions[sid].fired == w.sessions[sid].fired
    && w'.sessions[sid].rec.cancelled == w.sessions[sid].rec.cancelled
    && (w'.journal[sid] == w.journal[sid] || w'.journal[sid] == w'.sessions[sid].rec)
    && forall id :: id in w'.sessions[sid].rec.published ==>
         id in w.sessions[sid].rec.published
         || (w.sessions[sid].job.Linked? && w.sessions[sid].job.file.id == id)
  }

  lemma ReceptionQuiet(w: World, sid: string, s: Session, step: Step)
    requires sid in w.sessions && sid in w.journal && w.sessions[sid] == s && Receives(step)
    requires EnabledIn(w, sid, s, step)
    ensures StaysQuiet(w, ApplyIn(w, sid, s, step), sid)
  {
  }

  lemma DecisionQuiet(w: World, sid: string, s: Session, step: Step)
    requires step.Accept? || step.Reject?
    requires sid in w.sessions && sid in w.journal && w.sessions[sid] == s && EnabledIn(w, sid, s, step)
    ensures StaysQuiet(w, ApplyIn(w, sid, s, step), sid)
  {
  }

  lemma PublicationFired(w: World, sid: string, s: Session, step: Step)
    requires Publishes(step) && sid in w.sessions && w.sessions[sid] == s && EnabledIn(w, sid, s, step)
    ensures sid in ApplyIn(w, sid, s, step).sessions && ApplyIn(w, sid, s, step).sessions[sid].fired == s.fired
  {
  }

  lemma PublicationQuiet(w: World, sid: string, s: Session, step: Step)
    requires Publishes(step)
    requires sid in w.sessions && sid in w.journal && w.sessions[sid] == s && EnabledIn(w, sid, s, step)
    ensures StaysQuiet(w, ApplyIn(w, sid, s, step), sid)
  {
    PublicationShape(w, sid, s, step);
    PublicationFired(w, sid, s, step);
  }

  lemma ElsewhereQuiet(w: World, actor: string, s: Session, step: Step, sid: string)
    requires OfSession(step) && step.sid == actor && actor != sid
    requires actor in w.sessions && w.sessions[actor] == s && EnabledIn(w, actor, s, step)
    requires sid in w.sessions && sid in w.journal
    ensures StaysQuiet(w, ApplyIn(w, actor, s, step), sid)
  {
    if step.Forget? {
      ForgetIsLocal(w, actor, Ids(s.rec.Files()));
    } else {
      SessionStepShape(w, actor, s, step);
    }
  }

  lemma StepQuiet(w: World, step: Step, w': World, sid: string)
    requires Next(w, step, w') && sid in w.sessions && sid in w.journal
    requires !Removes(step, sid) && !step.Crash?
    ensures StaysQuiet(w, w', sid)
  {
    if OfSession(step) {
      SessionCase(w, step, w');
      var s := w.sessions[step.sid];
      if step.sid != sid {
        ElsewhereQuiet(w, step.sid, s, step, sid);
      } else if Receives(step) {
        ReceptionQuiet(w, sid, s, step);
      } else if Publishes(step) {
        PublicationQuiet(w, sid, s, step);
      } else {
        DecisionQuiet(w, sid, s, step);
      }
    } else if step.Register? {
      RegisterElsewhere(w, step, w');
    } else {
      SaveCase(w, step, w');
    }
  }

  /** A part that was full and synced stays so: it can only grow, and it fits. */
  lemma FullStaysFull(d: Disk, d': Disk, sid: string, files: seq<FileInfo>, f: FileInfo)
    requires f in files && PartsFit(d', sid, files) && DiskOk(d')
    requires Live(d, Part(sid, f.id)) && Settled(At(d, Part(sid, f.id))) && |At(d, Part(sid, f.id)).bytes| == f.size
    requires Grown(d, d', Part(sid, f.id), false)
    ensures Live(d', Part(sid, f.id)) && Settled(At(d', Part(sid, f.id))) && |At(d', Part(sid, f.id)).bytes| == f.size
  {
  }

  /** A file about to be published has its full, synced partial file. */
  lemma LinkedIsFull(w: World, sid: string)
    requires Inv(w) && sid in w.sessions && w.sessions[sid].job.Linked?
    ensures var f := w.sessions[sid].job.file;
            && f in w.sessions[sid].rec.Files() && DistinctIds(w.sessions[sid].rec.Files())
            && Live(w.disk, Part(sid, f.id)) && Settled(At(w.disk, Part(sid, f.id)))
            && |At(w.disk, Part(sid, f.id)).bytes| == f.size
  {
    LocalAt(w, sid);
  }

  lemma FitsAt(w: World, sid: string)
    requires Inv(w) && sid in w.sessions
    ensures DiskOk(w.disk) && PartsFit(w.disk, sid, w.sessions[sid].rec.Files())
  {
    LocalAt(w, sid);
  }

  lemma StepUnjournalled(w: World, step: Step, w': World, sid: string, src: map<string, Bytes>)
    requires Inv(w) && Inv(w') && Next(w, step, w') && sid in w.sessions
    requires Undisturbed(w, sid) && !Removes(step, sid) && !step.Crash?
    requires PrefixOk(w, sid, src) && Sends(w, step, sid, src)
    ensures sid in w'.sessions && sid in w'.journal
    ensures Unjournalled(w'.disk, sid, w'.journal[sid], w'.sessions[sid].rec)
  {
    StepQuiet(w, step, w', sid);
    StepLater(w, step, w', sid);
    FitsAt(w', sid);
    var r, r', j, j' := w.sessions[sid].rec, w'.sessions[sid].rec, w.journal[sid], w'.journal[sid];
    forall f | f in r'.Files() && f.id in r'.published && f.id !in j'.published
      ensures Live(w'.disk, Part(sid, f.id)) && Settled(At(w'.disk, Part(sid, f.id)))
      ensures |At(w'.disk, Part(sid, f.id)).bytes| == f.size
    {
      if f.id !in r.published {
        LinkedIsFull(w, sid);
        SameFile(r.Files(), f, w.sessions[sid].job.file);
      }
      StepGrows(w, step, w', sid, src, f.id);
      FullStaysFull(w.disk, w'.disk, sid, r'.Files(), f);
    }
  }

  lemma NewcomerUndisturbed(w: World, step: Step, w': World, sid: string)
    requires Inv(w) && Next(w, step, w') && sid !in w.sessions && sid in w'.sessions
    ensures Undisturbed(w', sid)
  {
    LocalAt(w, sid);
    if OfSession(step) {
      SessionCase(w, step, w');
      if step.Forget? {
        ForgetIsLocal(w, step.sid, Ids(w.sessions[step.sid].rec.Files()));
      } else {
        SessionStepShape(w, step.sid, w.sessions[step.sid], step);
      }
      assert false;
    } else if step.Register? {
      RegisterElsewhere(w, step, w');
      RegisterCase(w, step, w');
    } else if step.SaveFile? {
      SaveCase(w, step, w');
    } else {
      CrashCase(w, step, w');
    }
  }

  lemma CrashUndisturbed(w: World, step: Step, w': World, sid: string)
    requires step.Crash? && Next(w, step, w') && Undisturbed(w, sid) && sid in w.sessions
    ensures Undisturbed(w', sid)
  {
    CrashCase(w, step, w');
  }

  lemma StepKeepsUndisturbed(w: World, step: Step, w': World, sid: string, src: map<string, Bytes>)
    requires Inv(w) && Inv(w') && Next(w, step, w') && Undisturbed(w, sid) && !Removes(step, sid)
    requires PrefixOk(w, sid, src) && Sends(w, step, sid, src)
    ensures Undisturbed(w', sid)
  {
    if sid !in w.sessions {
      if sid in w'.sessions {
        NewcomerUndisturbed(w, step, w', sid);
      }
    } else if step.Crash? {
      CrashUndisturbed(w, step, w', sid);
    } else {
      StepQuiet(w, step, w', sid);
      StepUnjournalled(w, step, w', sid, src);
    }
  }

  /** From i to k nobody cancels or forgets the session. */
  ghost predicate LeftAlone(steps: seq<Step>, i: nat, k: nat, sid: string) {
    i <= k <= |steps| && forall n :: i <= n < k ==> !Removes(steps[n], sid)
  }

  /** A session is undisturbed when it is registered, and as long as it is left alone. */
  lemma {:induction false} RunStaysUndisturbed(
    states: seq<World>, steps: seq<Step>, i: nat, k: nat, sid: string, src: map<string, Bytes>)
    requires IsRun(states, steps) && Initial(states[0]) && Honest(steps, sid, src) && LeftAlone(steps, i, k, sid)
    requires Undisturbed(states[i], sid)
    ensures Undisturbed(states[k], sid)
    decreases k
  {
    if i < k {
      RunStaysUndisturbed(states, steps, i, k - 1, sid, src);
      RunKeepsInv(states, steps, k - 1);
      RunKeepsInv(states, steps, k);
      PartsArePrefixes(states, steps, k - 1, sid, src);
      HonestSends(states, steps, k - 1, sid, src);
      StepKeepsUndisturbed(states[k - 1], steps[k - 1], states[k], sid, src);
    }
  }

  // ---------------------------------------------------------------- offsets

  /** The part of the offset that no crash can take back. */
  function SyncedOffset(d: Disk, sid: string, r: Record, f: FileInfo): nat {
    if f.id in r.published then f.size
    else if Live(d, Part(sid, f.id)) then At(d, Part(sid, f.id)).synced
    else 0
  }

  ghost predicate OffsetsHold(w: World, w': World, sid: string, whole: bool) {
    && sid in w.sessions && sid in w'.sessions
    && w'.sessions[sid].rec.manifest == w.sessions[sid].rec.manifest
    && forall f :: f in w.sessions[sid].rec.Files() ==>
         && SyncedOffset(w.disk, sid, w.sessions[sid].rec, f) <= SyncedOffset(w'.disk, sid, w'.sessions[sid].rec, f)
         && (whole ==> Offset(w.disk, sid, w.sessions[sid].rec, f) <= Offset(w'.disk, sid, w'.sessions[sid].rec, f))
  }

  lemma FileOffsets(d: Disk, d': Disk, sid: string, j: Record, r: Record, r': Record, f: FileInfo, whole: bool)
    requires DiskOk(d) && DiskOk(d') && f in r.Files() && PartsFit(d, sid, r.Files()) && Unjournalled(d, sid, j, r)
    requires if f.id in j.published then f.id in r'.published else Grown(d, d', Part(sid, f.id), whole)
    requires f.id in r.published ==> f.id in r'.published || f.id !in j.published
    ensures SyncedOffset(d, sid, r, f) <= SyncedOffset(d', sid, r', f)
    ensures whole ==> Offset(d, sid, r, f) <= Offset(d', sid, r', f)
  {
  }

  lemma StepOffsets(w: World, step: Step, w': World, sid: string, src: map<string, Bytes>)
    requires Inv(w) && Inv(w') && Next(w, step, w') && sid in w.sessions
    requires Undisturbed(w, sid) && !Removes(step, sid)
    requires PrefixOk(w, sid, src) && Sends(w, step, sid, src)
    ensures OffsetsHold(w, w', sid, Lossless(w, step))
  {
    StepLater(w, step, w', sid);
    FitsAt(w, sid);
    FitsAt(w', sid);
    ManifestStays(w, step, w', sid);
    var r, r' := w.sessions[sid].rec, w'.sessions[sid].rec;
    forall f | f in r.Files()
      ensures SyncedOffset(w.disk, sid, r, f) <= SyncedOffset(w'.disk, sid, r', f)
      ensures Lossless(w, step) ==> Offset(w.disk, sid, r, f) <= Offset(w'.disk, sid, r', f)
    {
      if f.id in w.journal[sid].published {
        JournalledStays(w, step, w', sid, f.id);
      } else {
        StepGrows(w, step, w', sid, src, f.id);
      }
      FileOffsets(w.disk, w'.disk, sid, w.journal[sid], r, r', f, Lossless(w, step));
    }
  }

  lemma JournalledStays(w: World, step: Step, w': World, sid: string, id: string)
    requires Inv(w) && Next(w, step, w') && sid in w.sessions && step != Forget(sid)
    requires sid in w.journal && id in w.journal[sid].published
    ensures sid in w'.sessions && id in w'.sessions[sid].rec.published
  {
    LocalAt(w, sid);
    StepLater(w, step, w', sid);
  }

  lemma ManifestStays(w: World, step: Step, w': World, sid: string)
    requires Inv(w) && Next(w, step, w') && sid in w.sessions && step != Forget(sid)
    ensures sid in w'.sessions && w'.sessions[sid].rec.manifest == w.sessions[sid].rec.manifest
  {
    LocalAt(w, sid);
    StepLater(w, step, w', sid);
  }

  lemma RunStepOffsets(states: seq<World>, steps: seq<Step>, k: nat, sid: string, src: map<string, Bytes>)
    requires IsRun(states, steps) && Initial(states[0]) && Honest(steps, sid, src)
    requires k < |steps| && sid in states[k].sessions && Undisturbed(states[k], sid) && !Removes(steps[k], sid)
    ensures OffsetsHold(states[k], states[k + 1], sid, Lossless(states[k], steps[k]))
  {
    RunKeepsInv(states, steps, k);
    RunKeepsInv(states, steps, k + 1);
    PartsArePrefixes(states, steps, k, sid, src);
    HonestSends(states, steps, k, sid, src);
    StepOffsets(states[k], steps[k], states[k + 1], sid, src);
  }

  ghost predicate AllLossless(states: seq<World>, steps: seq<Step>, i: nat, k: nat)
    requires |states| == |steps| + 1 && k <= |steps|
  {
    forall n :: i <= n < k ==> Lossless(states[n], steps[n])
  }

  /** From an undisturbed state on, and while nobody cancels or forgets the session, the
      synced offset of every file survives any crash, and the offset the receiver reports
      never decreases unless a crash takes unsynced bytes: torn appends are covered because
      it is re-read from file lengths. */
  lemma {:induction false} OffsetsNeverDecrease(
    states: seq<World>, steps: seq<Step>, i: nat, k: nat, sid: string, src: map<string, Bytes>)
    requires IsRun(states, steps) && Initial(states[0]) && Honest(steps, sid, src) && LeftAlone(steps, i, k, sid)
    requires sid in states[i].sessions && Undisturbed(states[i], sid)
    ensures OffsetsHold(states[i], states[k], sid, AllLossless(states, steps, i, k))
    decreases k
  {
    if i < k {
      OffsetsNeverDecrease(states, steps, i, k - 1, sid, src);
      RunStaysUndisturbed(states, steps, i, k - 1, sid, src);
      RunStepOffsets(states, steps, k - 1, sid, src);
      OffsetsChain(states[i], states[k - 1], states[k], sid, AllLossless(states, steps, i, k - 1),
                   Lossless(states[k - 1], steps[k - 1]), AllLossless(states, steps, i, k));
    }
  }

  lemma OffsetsChain(w: World, w': World, w'': World, sid: string, a: bool, b: bool, c: bool)
    requires OffsetsHold(w, w', sid, a) && OffsetsHold(w', w'', sid, b) && (c ==> a && b)
    ensures OffsetsHold(w, w'', sid, c)
  {
  }
}
