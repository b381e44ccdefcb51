/** Progress arithmetic of the v2 receiver: what its events report is the sum of the
    durable offsets, never more than the announced total. */
module DurableProgress {
  import opened Wrappers
  import opened Manifests
  import opened Disks
  import opened Durable
  import opened DurableInvariant
  import opened DurableSteps
  import opened DurableRuns
  import opened DurableSafety
  import opened DurableLifecycle

  // ---------------------------------------------------------------- sums of offsets

  lemma {:induction false} SumSame(d: Disk, d': Disk, sid: string, r: Record, r': Record, files: seq<FileInfo>)
    requires forall f :: f in files ==> Offset(d', sid, r', f) == Offset(d, sid, r, f)
    ensures OffsetSum(d', sid, r', files) == OffsetSum(d, sid, r, files)
  {
    if files != [] {
      SumSame(d, d', sid, r, r', files[..|files| - 1]);
    }
  }

  /** One file of the manifest gains n bytes, the others none. */
  lemma {:induction false} SumGains(
    d: Disk, d': Disk, sid: string, r: Record, files: seq<FileInfo>, f: FileInfo, n: nat)
    requires DistinctIds(files) && f in files
    requires Offset(d', sid, r, f) == Offset(d, sid, r, f) + n
    requires forall g :: g in files && g.id != f.id ==> Offset(d', sid, r, g) == Offset(d, sid, r, g)
    ensures OffsetSum(d', sid, r, files) == OffsetSum(d, sid, r, files) + n
  {
    var last := |files| - 1;
    assert files == files[..last] + [files[last]];
    if files[last] == f {
      forall g | g in files[..last] ensures Offset(d', sid, r, g) == Offset(d, sid, r, g) {
        var i :| 0 <= i < last && files[i] == g;
        assert files[i].id != files[last].id;
      }
      SumSame(d, d', sid, r, r, files[..last]);
    } else {
      assert f in files[..last];
      var i :| 0 <= i < last && files[i] == f;
      assert files[i].id != files[last].id;
      SumGains(d, d', sid, r, files[..last], f, n);
    }
  }

  lemma {:induction false} SumBounded(d: Disk, sid: string, r: Record, files: seq<FileInfo>)
    requires forall f :: f in files ==> Offset(d, sid, r, f) <= f.size
    ensures OffsetSum(d, sid, r, files) <= TotalSize(files)
    ensures OffsetSum(d, sid, r, files) == TotalSize(files)
            <==> forall f :: f in files ==> Offset(d, sid, r, f) == f.size
  {
    if files != [] {
      var last := |files| - 1;
      assert files == files[..last] + [files[last]];
      SumBounded(d, sid, r, files[..last]);
    }
  }

  lemma {:induction false} SizeWithinTotal(files: seq<FileInfo>, f: FileInfo)
    requires f in files
    ensures f.size <= TotalSize(files)
  {
    var last := |files| - 1;
    assert files == files[..last] + [files[last]];
    if f != files[last] {
      SizeWithinTotal(files[..last], f);
    }
  }

  // ---------------------------------------------------------------- the value reported

  /** durable.rs:583: baseline + offset - current, added from the left. */
  function Progress(job: Job): int
    requires job.Receiving?
  {
    job.baseline + job.offset - job.start
  }

  ghost predicate ProgressOk(w: World, sid: string) {
    sid in w.sessions && w.sessions[sid].job.Receiving? ==>
      Progress(w.sessions[sid].job) == OffsetSum(w.disk, sid, w.sessions[sid].rec, w.sessions[sid].rec.Files())
  }

  lemma KeepsOffsets(d: Disk, d': Disk, actor: string, sid: string, r: Record)
    requires Keeps(d, d', actor) && actor != sid
    ensures OffsetSum(d', sid, r, r.Files()) == OffsetSum(d, sid, r, r.Files())
  {
    forall f | f in r.Files() ensures Offset(d', sid, r, f) == Offset(d, sid, r, f) {
      assert Live(d', Part(sid, f.id)) == Live(d, Part(sid, f.id));
    }
    SumSame(d, d', sid, r, r, r.Files());
  }

  lemma BeginProgress(w: World, sid: string, s: Session, f: FileInfo)
    requires Inv(w) && sid in w.sessions && w.sessions[sid] == s
    ensures ProgressOk(DoBegin(w, sid, s, f), sid)
  {
    LocalAt(w, sid);
    var d' := OpenAppend(w.disk, Part(sid, f.id));
    forall g | g in s.rec.Files() ensures Offset(d', sid, s.rec, g) == Offset(w.disk, sid, s.rec, g) {
      if Part(sid, f.id) !in w.disk.names && g.id != f.id && Part(sid, g.id) in w.disk.names {
        assert w.disk.names[Part(sid, g.id)] != w.disk.next;
      }
    }
    SumSame(w.disk, d', sid, s.rec, s.rec, s.rec.Files());
  }

  lemma AppendProgress(w: World, sid: string, s: Session, bytes: Bytes)
    requires Inv(w) && sid in w.sessions && w.sessions[sid] == s && s.job.Receiving? && s.job.fd in w.disk.files
    requires ProgressOk(w, sid)
    ensures ProgressOk(DoAppend(w, sid, s, bytes, false), sid)
  {
    LocalAt(w, sid);
    var f := s.job.file;
    var d' := Append(w.disk, s.job.fd, bytes);
    forall g | g in s.rec.Files() && g.id != f.id ensures Offset(d', sid, s.rec, g) == Offset(w.disk, sid, s.rec, g) {
      if Live(w.disk, Part(sid, g.id)) {
        assert w.disk.names[Part(sid, g.id)] != s.job.fd;
      }
    }
    SumGains(w.disk, d', sid, s.rec, s.rec.Files(), f, |bytes|);
  }

  lemma ActorProgress(w: World, sid: string, s: Session, step: Step)
    requires OfSession(step) && step.sid == sid
    requires Inv(w) && sid in w.sessions && w.sessions[sid] == s && EnabledIn(w, sid, s, step)
    requires ProgressOk(w, sid)
    ensures ProgressOk(ApplyIn(w, sid, s, step), sid)
  {
    if step.Begin? {
      BeginProgress(w, sid, s, step.file);
    } else if step.Chunk? {
      AppendProgress(w, sid, s, step.bytes);
    } else if step.FireCancel? {
    } else {
      LeavesReceiving(w, sid, s, step);
    }
  }

  lemma LeavesReceiving(w: World, sid: string, s: Session, step: Step)
    requires OfSession(step) && step.sid == sid && !step.Begin? && !step.Chunk? && !step.FireCancel?
    requires sid in w.sessions && w.sessions[sid] == s && EnabledIn(w, sid, s, step)
    ensures sid in ApplyIn(w, sid, s, step).sessions ==> !ApplyIn(w, sid, s, step).sessions[sid].job.Receiving?
  {
  }

  lemma ElsewhereProgress(w: World, actor: string, s: Session, step: Step, sid: string)
    requires OfSession(step) && step.sid == actor && actor != sid
    requires Inv(w) && actor in w.sessions && w.sessions[actor] == s && EnabledIn(w, actor, s, step)
    ensures var w' := ApplyIn(w, actor, s, step);
            && (sid in w'.sessions <==> sid in w.sessions)
            && (sid in w.sessions ==>
                  && w'.sessions[sid] == w.sessions[sid]
                  && OffsetSum(w'.disk, sid, w.sessions[sid].rec, w.sessions[sid].rec.Files())
                     == OffsetSum(w.disk, sid, w.sessions[sid].rec, w.sessions[sid].rec.Files()))
  {
    SessionStepDisk(w, actor, s, step);
    if step.Forget? {
      ForgetIsLocal(w, actor, Ids(s.rec.Files()));
    } else {
      SessionStepShape(w, actor, s, step);
    }
    if sid in w.sessions {
      KeepsOffsets(w.disk, ApplyIn(w, actor, s, step).disk, actor, sid, w.sessions[sid].rec);
    }
  }

  lemma QuietProgress(w: World, step: Step, w': World, sid: string)
    requires Inv(w) && (step.Register? || step.SaveFile?) && Next(w, step, w') && sid in w.sessions
    ensures sid in w'.sessions && w'.sessions[sid] == w.sessions[sid]
    ensures OffsetSum(w'.disk, sid, w.sessions[sid].rec, w.sessions[sid].rec.Files())
            == OffsetSum(w.disk, sid, w.sessions[sid].rec, w.sessions[sid].rec.Files())
  {
    if step.Register? {
      RegisterElsewhere(w, step, w');
    } else {
      SaveCase(w, step, w');
      CreateKeeps(w.disk, step.path, step.bytes, step.synced, "");
      forall f | f in w.sessions[sid].rec.Files()
        ensures Offset(w'.disk, sid, w.sessions[sid].rec, f) == Offset(w.disk, sid, w.sessions[sid].rec, f)
      {
        assert Live(w'.disk, Part(sid, f.id)) == Live(w.disk, Part(sid, f.id));
      }
      SumSame(w.disk, w'.disk, sid, w.sessions[sid].rec, w.sessions[sid].rec, w.sessions[sid].rec.Files());
    }
  }

  lemma NewcomerIdle(w: World, step: Step, w': World, sid: string)
    requires Next(w, step, w') && sid in w'.sessions
    requires step.Crash? || (step.Register? && sid !in w.sessions)
    ensures w'.sessions[sid].job.Idle?
  {
    if step.Crash? {
      CrashCase(w, step, w');
    } else {
      RegisterElsewhere(w, step, w');
      RegisterCase(w, step, w');
    }
  }

  lemma StepKeepsProgress(w: World, step: Step, w': World, sid: string)
    requires Inv(w) && Next(w, step, w') && ProgressOk(w, sid)
    ensures ProgressOk(w', sid)
  {
    if OfSession(step) {
      SessionCase(w, step, w');
      if step.sid == sid {
        ActorProgress(w, sid, w.sessions[sid], step);
      } else {
        ElsewhereProgress(w, step.sid, w.sessions[step.sid], step, sid);
      }
    } else if sid in w'.sessions {
      if step.Crash? || (step.Register? && sid !in w.sessions) {
        NewcomerIdle(w, step, w', sid);
      } else {
        if step.SaveFile? { SaveCase(w, step, w'); }
        QuietProgress(w, step, w', sid);
      }
    }
  }

  lemma {:induction false} RunKeepsProgress(states: seq<World>, steps: seq<Step>, k: nat, sid: string)
    requires IsRun(states, steps) && Initial(states[0]) && k <= |steps|
    ensures ProgressOk(states[k], sid)
  {
    if k > 0 {
      RunKeepsProgress(states, steps, k - 1, sid);
      RunKeepsInv(states, steps, k - 1);
      StepKeepsProgress(states[k - 1], steps[k - 1], states[k], sid);
    }
  }

  lemma OffsetsFit(w: World, sid: string)
    requires Inv(w) && EnvelopesOk(w) && sid in w.sessions
    ensures var r := w.sessions[sid].rec;
            && r.pending.totalSize == TotalSize(r.Files())
            && (forall f :: f in r.Files() ==> Offset(w.disk, sid, r, f) <= f.size)
            && (w.sessions[sid].job.Receiving? ==>
                  w.sessions[sid].job.file in r.Files()
                  && w.sessions[sid].job.start <= w.sessions[sid].job.offset <= w.sessions[sid].job.file.size)
  {
    LocalAt(w, sid);
    assert EnvelopeOk(sid, w.journal[sid]);
  }

  const TWO_63: nat := 0x8000_0000_0000_0000
  const TWO_64: nat := 0x1_0000_0000_0000_0000

  /** In every reachable state of an upload the progress value equals the sum of the
      per-file offsets and is at most the announced total; file.size - offset does not
      underflow; below 2^63 the sum baseline + offset fits u64, and above it the
      subtraction undoes any wrap-around. */
  lemma ProgressIsOffsetSum(states: seq<World>, steps: seq<Step>, k: nat, sid: string)
    requires IsRun(states, steps) && Initial(states[0]) && k <= |steps|
    requires sid in states[k].sessions && states[k].sessions[sid].job.Receiving?
    ensures var r, job := states[k].sessions[sid].rec, states[k].sessions[sid].job;
            && Progress(job) == OffsetSum(states[k].disk, sid, r, r.Files())
            && 0 <= Progress(job) <= r.pending.totalSize
            && job.offset <= job.file.size
            && (r.pending.totalSize < TWO_63 ==> job.baseline + job.offset <= U64_MAX)
            && Progress(job) == ((job.baseline + job.offset) % TWO_64 - job.start) % TWO_64
  {
    RunKeepsInv(states, steps, k);
    RunKeepsEnvelopes(states, steps, k);
    RunKeepsProgress(states, steps, k, sid);
    OffsetsFit(states[k], sid);
    var r, job := states[k].sessions[sid].rec, states[k].sessions[sid].job;
    SumBounded(states[k].disk, sid, r, r.Files());
    SizeWithinTotal(r.Files(), job.file);
    Wraps(job.baseline + job.offset, job.start);
  }

  lemma Wraps(sum: nat, start: nat)
    requires start <= sum && sum - start <= U64_MAX
    ensures (sum % TWO_64 - start) % TWO_64 == sum - start
  {
    assert sum == sum / TWO_64 * TWO_64 + sum % TWO_64;
    var q := sum / TWO_64;
    assert sum % TWO_64 - start == (sum - start) - q * TWO_64;
    ModShift(sum - start, q);
  }

  lemma {:induction false} ModShift(x: nat, q: nat)
    requires x < TWO_64
    ensures (x - q * TWO_64) % TWO_64 == x
  {
    if q > 0 {
      ModShift(x, q - 1);
      assert x - q * TWO_64 == (x - (q - 1) * TWO_64) - TWO_64;
    }
  }

  // ---------------------------------------------------------------- within one upload

  lemma ReceivingAdvances(w: World, step: Step, w': World, sid: string)
    requires Next(w, step, w')
    requires sid in w.sessions && w.sessions[sid].job.Receiving?
    requires sid in w'.sessions && w'.sessions[sid].job.Receiving?
    ensures w'.sessions[sid].job.file == w.sessions[sid].job.file
    ensures Progress(w.sessions[sid].job) <= Progress(w'.sessions[sid].job)
  {
    if OfSession(step) {
      SessionCase(w, step, w');
      if step.sid != sid {
        if step.Forget? {
          ForgetIsLocal(w, step.sid, Ids(w.sessions[step.sid].rec.Files()));
        } else {
          SessionStepShape(w, step.sid, w.sessions[step.sid], step);
        }
      } else if !step.Chunk? && !step.FireCancel? && !step.Begin? {
        LeavesReceiving(w, sid, w.sessions[sid], step);
      }
    } else if step.Crash? {
      NewcomerIdle(w, step, w', sid);
    } else if step.SaveFile? {
      SaveCase(w, step, w');
    } else {
      RegisterElsewhere(w, step, w');
    }
  }

  ghost predicate SameUpload(states: seq<World>, i: nat, k: nat, sid: string) {
    i <= k < |states| && forall n :: i <= n <= k ==> sid in states[n].sessions && states[n].sessions[sid].job.Receiving?
  }

  /** Progress never goes back within one upload, whatever other sessions do meanwhile. */
  lemma {:induction false} ProgressNeverDecreases(states: seq<World>, steps: seq<Step>, i: nat, k: nat, sid: string)
    requires IsRun(states, steps) && SameUpload(states, i, k, sid)
    ensures states[k].sessions[sid].job.file == states[i].sessions[sid].job.file
    ensures Progress(states[i].sessions[sid].job) <= Progress(states[k].sessions[sid].job)
    decreases k
  {
    if i < k {
      ProgressNeverDecreases(states, steps, i, k - 1, sid);
      ReceivingAdvances(states[k - 1], steps[k - 1], states[k], sid);
    }
  }

  // ---------------------------------------------------------------- until the final event

  lemma PublicationFiles(w: World, sid: string, s: Session, step: Step)
    requires Publishes(step) && step.sid == sid
    requires sid in w.sessions && w.sessions[sid] == s && EnabledIn(w, sid, s, step)
    ensures var w' := ApplyIn(w, sid, s, step);
            sid in w'.sessions && w'.sessions[sid].rec.Files() == s.rec.Files()
  {
  }

  /** Publishing moves no offset: a verified part counts as much as its published file. */
  lemma PublicationOffsets(w: World, sid: string, s: Session, step: Step)
    requires Publishes(step) && step.sid == sid
    requires Inv(w) && sid in w.sessions && w.sessions[sid] == s && EnabledIn(w, sid, s, step)
    ensures var w' := ApplyIn(w, sid, s, step);
            && sid in w'.sessions && w'.sessions[sid].rec.Files() == s.rec.Files()
            && OffsetSum(w'.disk, sid, w'.sessions[sid].rec, s.rec.Files())
               == OffsetSum(w.disk, sid, s.rec, s.rec.Files())
  {
    var w' := ApplyIn(w, sid, s, step);
    PublicationFiles(w, sid, s, step);
    forall f | f in s.rec.Files()
      ensures Offset(w'.disk, sid, w'.sessions[sid].rec, f) == Offset(w.disk, sid, s.rec, f)
    {
      PublicationOffset(w, sid, s, step, f);
    }
    SumSame(w.disk, w'.disk, sid, s.rec, w'.sessions[sid].rec, s.rec.Files());
  }

  lemma LinkOffset(w: World, sid: string, s: Session, readable: bool, f: FileInfo)
    requires Inv(w) && sid in w.sessions && w.sessions[sid] == s && s.job.Journalled?
    requires Live(w.disk, Part(sid, s.job.file.id))
    ensures var w' := DoLink(w, sid, s, readable);
            Offset(w'.disk, sid, w'.sessions[sid].rec, f) == Offset(w.disk, sid, s.rec, f)
  {
    LinkTarget(w, sid, s);
  }

  lemma SyncParentOffset(w: World, sid: string, s: Session, f: FileInfo)
    requires Inv(w) && sid in w.sessions && w.sessions[sid] == s && s.job.Linked? && f in s.rec.Files()
    ensures var w' := DoSyncParent(w, sid, s);
            Offset(w'.disk, sid, w'.sessions[sid].rec, f) == Offset(w.disk, sid, s.rec, f)
  {
    LocalAt(w, sid);
    if f.id == s.job.file.id {
      SameFile(s.rec.Files(), f, s.job.file);
    }
  }

  lemma CommittedIsPublished(w: World, sid: string, s: Session)
    requires Inv(w) && sid in w.sessions && w.sessions[sid] == s && s.job.Committed?
    ensures s.job.file.id in s.rec.published
  {
    LocalAt(w, sid);
  }

  lemma FinishOffset(w: World, sid: string, s: Session, unlinked: bool, f: FileInfo)
    requires Inv(w) && sid in w.sessions && w.sessions[sid] == s && s.job.Committed?
    ensures var w' := DoFinish(w, sid, s, unlinked);
            Offset(w'.disk, sid, w'.sessions[sid].rec, f) == Offset(w.disk, sid, s.rec, f)
  {
    CommittedIsPublished(w, sid, s);
  }

  lemma PublicationOffset(w: World, sid: string, s: Session, step: Step, f: FileInfo)
    requires Publishes(step) && step.sid == sid && f in s.rec.Files()
    requires Inv(w) && sid in w.sessions && w.sessions[sid] == s && EnabledIn(w, sid, s, step)
    ensures var w' := ApplyIn(w, sid, s, step);
            sid in w'.sessions && Offset(w'.disk, sid, w'.sessions[sid].rec, f) == Offset(w.disk, sid, s.rec, f)
  {
    if step.Link? {
      LinkOffset(w, sid, s, step.readable, f);
    } else if step.SyncParent? {
      SyncParentOffset(w, sid, s, f);
    } else if step.Finish? {
      FinishOffset(w, sid, s, step.unlinked, f);
    }
  }

  predicate Publishing(job: Job) {
    !job.Idle? && !job.Receiving?
  }

  lemma PublishingStep(w: World, sid: string, s: Session, step: Step)
    requires OfSession(step) && step.sid == sid && !step.FireCancel?
    requires sid in w.sessions && w.sessions[sid] == s && Publishing(s.job) && EnabledIn(w, sid, s, step)
    requires sid in ApplyIn(w, sid, s, step).sessions && Publishing(ApplyIn(w, sid, s, step).sessions[sid].job)
    ensures Publishes(step)
  {
  }

  lemma PublishingOffsets(w: World, step: Step, w': World, sid: string)
    requires Inv(w) && Next(w, step, w')
    requires sid in w.sessions && Publishing(w.sessions[sid].job)
    requires sid in w'.sessions && Publishing(w'.sessions[sid].job)
    ensures w'.sessions[sid].rec.Files() == w.sessions[sid].rec.Files()
    ensures OffsetSum(w'.disk, sid, w'.sessions[sid].rec, w.sessions[sid].rec.Files())
            == OffsetSum(w.disk, sid, w.sessions[sid].rec, w.sessions[sid].rec.Files())
  {
    if OfSession(step) {
      SessionCase(w, step, w');
      if step.sid != sid {
        ElsewhereProgress(w, step.sid, w.sessions[step.sid], step, sid);
      } else if !step.FireCancel? {
        PublishingStep(w, sid, w.sessions[sid], step);
        PublicationOffsets(w, sid, w.sessions[sid], step);
      }
    } else if step.Crash? {
      NewcomerIdle(w, step, w', sid);
    } else {
      QuietProgress(w, step, w', sid);
    }
  }

  ghost predicate SamePublication(states: seq<World>, i: nat, k: nat, sid: string) {
    && i <= k < |states|
    && forall n :: i <= n <= k ==> sid in states[n].sessions && Publishing(states[n].sessions[sid].job)
  }

  /** From the end of the body to the final event the sum of offsets stands still, so the
      value computed from the body is still the sum when the last event reports it. */
  lemma {:induction false} PublicationKeepsOffsets(states: seq<World>, steps: seq<Step>, i: nat, k: nat, sid: string)
    requires IsRun(states, steps) && Initial(states[0]) && SamePublication(states, i, k, sid)
    ensures states[k].sessions[sid].rec.Files() == states[i].sessions[sid].rec.Files()
    ensures OffsetSum(states[k].disk, sid, states[k].sessions[sid].rec, states[k].sessions[sid].rec.Files())
            == OffsetSum(states[i].disk, sid, states[i].sessions[sid].rec, states[i].sessions[sid].rec.Files())
    decreases k
  {
    if i < k {
      PublicationKeepsOffsets(states, steps, i, k - 1, sid);
      RunKeepsInv(states, steps, k - 1);
      PublishingOffsets(states[k - 1], steps[k - 1], states[k], sid);
    }
  }

  /** The offsets add up to the announced total exactly when every file is wholly there;
      a complete session has reached it. */
  lemma CompleteMeansTotal(states: seq<World>, steps: seq<Step>, k: nat, sid: string)
    requires IsRun(states, steps) && Initial(states[0]) && k <= |steps| && sid in states[k].sessions
    ensures var r := states[k].sessions[sid].rec;
            && OffsetSum(states[k].disk, sid, r, r.Files()) <= r.pending.totalSize
            && (OffsetSum(states[k].disk, sid, r, r.Files()) == r.pending.totalSize
                <==> forall f :: f in r.Files() ==> Offset(states[k].disk, sid, r, f) == f.size)
            && (r.complete ==> OffsetSum(states[k].disk, sid, r, r.Files()) == r.pending.totalSize)
  {
    RunKeepsInv(states, steps, k);
    RunKeepsEnvelopes(states, steps, k);
    OffsetsFit(states[k], sid);
    var r := states[k].sessions[sid].rec;
    SumBounded(states[k].disk, sid, r, r.Files());
    LifecycleInvariant(states, steps, k, sid);
  }

  lemma EndOfBodyOffsets(w: World, step: Step, w': World, sid: string)
    requires Next(w, step, w') && step == EndBody(sid) && ProgressOk(w, sid)
    requires sid in w'.sessions && Publishing(w'.sessions[sid].job)
    ensures sid in w.sessions && w.sessions[sid].job.Receiving?
    ensures OffsetSum(w'.disk, sid, w'.sessions[sid].rec, w'.sessions[sid].rec.Files()) == Progress(w.sessions[sid].job)
  {
    SessionCase(w, step, w');
    var r := w.sessions[sid].rec;
    SumSame(w.disk, w'.disk, sid, r, r, r.Files());
  }

  lemma FinishOffsets(w: World, step: Step, w': World, sid: string, unlinked: bool)
    requires Inv(w) && Next(w, step, w') && step == Finish(sid, unlinked)
    ensures sid in w.sessions && sid in w'.sessions && w'.sessions[sid].rec == w.sessions[sid].rec
    ensures var r := w.sessions[sid].rec;
            OffsetSum(w'.disk, sid, r, r.Files()) == OffsetSum(w.disk, sid, r, r.Files())
  {
    SessionCase(w, step, w');
    PublicationOffsets(w, sid, w.sessions[sid], step);
  }

  /** The last event of an upload.  The handler computes its value from the numbers it held at
      the end of the body, step i; when the event goes out, after step k and whatever other
      sessions did in between, that is still the sum of the offsets, at most the announced
      total, and exactly the total with the last file. */
  lemma FinalEventIsOffsetSum(states: seq<World>, steps: seq<Step>, i: nat, k: nat, sid: string, unlinked: bool)
    requires IsRun(states, steps) && Initial(states[0]) && i < k < |steps|
    requires steps[i] == EndBody(sid) && steps[k] == Finish(sid, unlinked) && SamePublication(states, i + 1, k, sid)
    ensures sid in states[i].sessions && states[i].sessions[sid].job.Receiving? && sid in states[k + 1].sessions
    ensures var r, value := states[k + 1].sessions[sid].rec, Progress(states[i].sessions[sid].job);
            && value == OffsetSum(states[k + 1].disk, sid, r, r.Files())
            && value <= r.pending.totalSize
            && (r.complete ==> value == r.pending.totalSize)
  {
    RunKeepsProgress(states, steps, i, sid);
    EndOfBodyOffsets(states[i], steps[i], states[i + 1], sid);
    PublicationKeepsOffsets(states, steps, i + 1, k, sid);
    RunKeepsInv(states, steps, k);
    FinishOffsets(states[k], steps[k], states[k + 1], sid, unlinked);
    CompleteMeansTotal(states, steps, k + 1, sid);
  }
}
