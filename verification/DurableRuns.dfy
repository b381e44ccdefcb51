/** Every step keeps the invariant; theorems about every run of the receiver. */
module DurableRuns {
  import opened Wrappers
  import opened Manifests
  import opened Disks
  import opened Durable
  import opened DurableInvariant
  import opened DurableSteps

  // ---------------------------------------------------------------- the invariant is kept

  predicate Decides(step: Step) {
    step.Accept? || step.Reject? || step.FireCancel? || step.Cancel? || step.ForgetParts? || step.Forget?
  }

  predicate Receives(step: Step) {
    step.Begin? || step.Chunk? || step.TornChunk? || step.Interrupt? || step.Oversize? || step.EndBody?
    || step.Discard? || step.Abort? || step.Abandon?
  }

  predicate Publishes(step: Step) {
    step.Verify? || step.Choose? || step.Link? || step.SyncParent? || step.Commit? || step.Finish?
  }

  lemma DecisionKeeps(w: World, sid: string, s: Session, step: Step)
    requires Inv(w) && sid in w.sessions && w.sessions[sid] == s && Decides(step) && EnabledIn(w, sid, s, step)
    ensures Inv(ApplyIn(w, sid, s, step))
  {
    match step
    case Accept(_, io) => KeepDecide(w, sid, Accepted, io);
    case Reject(_, io) => KeepDecide(w, sid, Rejected, io);
    case FireCancel(_) => KeepFire(w, sid, s);
    case Cancel(_, io, removed) => KeepCancel(w, sid, s, io, removed);
    case ForgetParts(_, removed) => KeepDropped(w, sid, s, removed);
    case Forget(_) => KeepForget(w, sid);
  }

  lemma DropKeeps(w: World, sid: string, s: Session, unlinked: bool)
    requires Inv(w) && sid in w.sessions && w.sessions[sid] == s && !s.job.Idle?
    ensures Inv(DoDrop(w, sid, s, unlinked))
  {
    KeepDropped(w, sid, s, if unlinked then {s.job.file.id} else {});
  }

  lemma ReceptionKeeps(w: World, sid: string, s: Session, step: Step)
    requires Inv(w) && sid in w.sessions && w.sessions[sid] == s && Receives(step) && EnabledIn(w, sid, s, step)
    ensures Inv(ApplyIn(w, sid, s, step))
  {
    if step.Begin? {
      KeepBegin(w, sid, s, step.file);
    } else if step.Chunk? || step.TornChunk? {
      KeepAppend(w, sid, s, step.bytes, step.TornChunk?);
    } else if step.Interrupt? || step.EndBody? {
      KeepSync(w, sid, s, step.EndBody?);
    } else if step.Abandon? {
      KeepAbandon(w, sid, s);
    } else {
      DropKeeps(w, sid, s, step.unlinked);
    }
  }

  lemma LinkStepKeeps(w: World, sid: string, s: Session, readable: bool)
    requires Inv(w) && sid in w.sessions && w.sessions[sid] == s && s.job.Journalled?
    requires Live(w.disk, Part(sid, s.job.file.id))
    ensures Inv(DoLink(w, sid, s, readable))
  {
    if s.job.target !in w.disk.names {
      KeepNewLink(w, sid, s);
    } else if readable && Holds(w.disk, s.job.target, s.rec.manifest, s.job.file) {
      KeepAdopt(w, sid, s);
    } else {
      KeepSkip(w, sid, s);
    }
  }

  lemma PublicationKeeps(w: World, sid: string, s: Session, step: Step)
    requires Inv(w) && sid in w.sessions && w.sessions[sid] == s && Publishes(step) && EnabledIn(w, sid, s, step)
    ensures Inv(ApplyIn(w, sid, s, step))
  {
    match step
    case Verify(_) => KeepVerify(w, sid, s);
    case Choose(_, io) => KeepChoose(w, sid, s, io);
    case Link(_, readable) => LinkStepKeeps(w, sid, s, readable);
    case SyncParent(_) => KeepSyncParent(w, sid, s);
    case Commit(_, io) => KeepCommit(w, sid, s, io);
    case Finish(_, unlinked) => KeepFinish(w, sid, s, unlinked);
  }

  lemma SessionStepKeeps(w: World, sid: string, s: Session, step: Step)
    requires !step.Register? && !step.SaveFile? && !step.Crash?
    requires Inv(w) && sid in w.sessions && w.sessions[sid] == s && EnabledIn(w, sid, s, step)
    ensures Inv(ApplyIn(w, sid, s, step))
  {
    if Decides(step) {
      DecisionKeeps(w, sid, s, step);
    } else if Receives(step) {
      ReceptionKeeps(w, sid, s, step);
    } else {
      PublicationKeeps(w, sid, s, step);
    }
  }

  /** The four kinds of step, with what each one is. */
  lemma RegisterCase(w: World, step: Step, w': World)
    requires Next(w, step, w') && step.Register?
    ensures var m := step.manifest;
            && ValidManifest(m) && m.request.transferId !in w.sessions
            && w' == DoRegister(w, m.request.transferId,
                                NewRecord(m, step.owner, step.sourceIp, step.trusted, step.token), step.io)
  {
    NextMeans(w, step, w');
  }

  lemma RegisterElsewhere(w: World, step: Step, w': World)
    requires Next(w, step, w') && step.Register?
    ensures step.manifest.request.transferId !in w.sessions
    ensures OthersSame(w, w', step.manifest.request.transferId) && w'.disk == w.disk && w'.links == w.links
  {
    RegisterCase(w, step, w');
    var m := step.manifest;
    RegisterIsLocal(w, m.request.transferId,
                    NewRecord(m, step.owner, step.sourceIp, step.trusted, step.token), step.io);
  }

  lemma SaveCase(w: World, step: Step, w': World)
    requires Next(w, step, w') && step.SaveFile?
    ensures step.path.Dest? && step.path !in w.disk.names && Representable(step.path) && step.synced <= |step.bytes|
    ensures w' == w.(disk := CreateFile(w.disk, step.path, step.bytes, step.synced))
  {
    NextMeans(w, step, w');
  }

  lemma CrashCase(w: World, step: Step, w': World)
    requires Next(w, step, w') && step.Crash?
    ensures DiskOk(w.disk) && CutOk(w.disk, step.keep) && step.lost <= w.disk.volatile
    ensures w' == w.(disk := Cut(w.disk, step.keep, step.lost), sessions := LoadAll(w.journal),
                     links := set l | l in w.links && l.2 !in step.lost)
  {
    NextMeans(w, step, w');
  }

  predicate OfSession(step: Step) {
    !step.Register? && !step.SaveFile? && !step.Crash?
  }

  lemma SessionCase(w: World, step: Step, w': World)
    requires Next(w, step, w') && OfSession(step)
    ensures step.sid in w.sessions && EnabledIn(w, step.sid, w.sessions[step.sid], step)
    ensures w' == ApplyIn(w, step.sid, w.sessions[step.sid], step)
  {
    NextMeans(w, step, w');
  }

  lemma RegisterKeeps(w: World, step: Step, w': World)
    requires Inv(w) && step.Register? && Next(w, step, w')
    ensures Inv(w')
  {
    RegisterCase(w, step, w');
    var m := step.manifest;
    NewRecordOk(m, step.owner, step.sourceIp, step.trusted, step.token);
    KeepRegister(w, m.request.transferId, NewRecord(m, step.owner, step.sourceIp, step.trusted, step.token), step.io);
  }

  lemma SaveKeeps(w: World, step: Step, w': World)
    requires Inv(w) && step.SaveFile? && Next(w, step, w')
    ensures Inv(w')
  {
    SaveCase(w, step, w');
    KeepSave(w, step.path, step.bytes, step.synced);
  }

  lemma CrashKeeps(w: World, step: Step, w': World)
    requires Inv(w) && step.Crash? && Next(w, step, w')
    ensures Inv(w')
  {
    CrashCase(w, step, w');
    KeepCrash(w, step.keep, step.lost, w'.links);
  }

  lemma ActKeeps(w: World, step: Step, w': World)
    requires Inv(w) && OfSession(step) && Next(w, step, w')
    ensures Inv(w')
  {
    SessionCase(w, step, w');
    SessionStepKeeps(w, step.sid, w.sessions[step.sid], step);
  }

  /** Every step, a crash at any await point included, keeps the invariant. */
  lemma StepKeepsInv(w: World, step: Step, w': World)
    requires Inv(w) && Next(w, step, w')
    ensures Inv(w')
  {
    match step
    case Register(_, _, _, _, _, _) => RegisterKeeps(w, step, w');
    case SaveFile(_, _, _) => SaveKeeps(w, step, w');
    case Crash(_, _) => CrashKeeps(w, step, w');
    case _ => ActKeeps(w, step, w');
  }

  lemma InitialInv(w: World)
    requires Initial(w)
    ensures Inv(w)
  {
    assert forall sid :: OwnsParts(w, sid) && Unregistered(w, sid);
  }

  lemma {:induction false} RunKeepsInv(states: seq<World>, steps: seq<Step>, k: nat)
    requires IsRun(states, steps) && Initial(states[0]) && k <= |steps|
    ensures Inv(states[k])
  {
    if k == 0 {
      InitialInv(states[0]);
    } else {
      RunKeepsInv(states, steps, k - 1);
      StepKeepsInv(states[k - 1], steps[k - 1], states[k]);
    }
  }

  // ---------------------------------------------------------------- what one step does to records

  /** The step replaces one session and at most its journal entry, which then holds the
      record in memory. */
  ghost predicate Shaped(w: World, w': World, sid: string) {
    && sid in w'.sessions
    && w'.sessions == w.sessions[sid := w'.sessions[sid]]
    && (w'.journal == w.journal || w'.journal == w.journal[sid := w'.sessions[sid].rec])
    && (w'.completions == w.completions || w'.completions == w.completions[sid := Events(w, sid) + 1])
  }

  lemma ReceptionShape(w: World, sid: string, s: Session, step: Step)
    requires sid in w.sessions && w.sessions[sid] == s && Receives(step) && EnabledIn(w, sid, s, step)
    ensures Shaped(w, ApplyIn(w, sid, s, step), sid)
    ensures ApplyIn(w, sid, s, step).sessions[sid].rec == s.rec && ApplyIn(w, sid, s, step).links == w.links
  {
  }

  lemma PublicationShape(w: World, sid: string, s: Session, step: Step)
    requires sid in w.sessions && w.sessions[sid] == s && Publishes(step) && EnabledIn(w, sid, s, step)
    ensures Shaped(w, ApplyIn(w, sid, s, step), sid)
    ensures ApplyIn(w, sid, s, step).sessions[sid].rec
            == if step.Choose? then
                 s.rec.(targets := s.rec.targets[s.job.file.id := NextTarget(s.rec, s.job.file, s.job.index)])
               else if step.SyncParent? then s.rec.Publish(s.job.file.id, s.job.target)
               else if step.Link? then DoLink(w, sid, s, step.readable).sessions[sid].rec
               else s.rec
    ensures !step.Link? ==> ApplyIn(w, sid, s, step).links == w.links
  {
  }

  lemma DecisionShape(w: World, sid: string, s: Session, step: Step)
    requires sid in w.sessions && w.sessions[sid] == s && Decides(step) && !step.Forget? && EnabledIn(w, sid, s, step)
    ensures Shaped(w, ApplyIn(w, sid, s, step), sid)
    ensures ApplyIn(w, sid, s, step).sessions[sid].rec
            == if step.Accept? then s.rec.(decision := Accepted)
               else if step.Reject? then s.rec.(decision := Rejected)
               else if step.Cancel? then s.rec.(cancelled := true)
               else s.rec
    ensures ApplyIn(w, sid, s, step).links == w.links
  {
  }

  /** Unless it forgets its session, a session step has that shape. */
  lemma SessionStepShape(w: World, sid: string, s: Session, step: Step)
    requires !step.Register? && !step.SaveFile? && !step.Crash? && !step.Forget?
    requires sid in w.sessions && w.sessions[sid] == s && EnabledIn(w, sid, s, step)
    ensures Shaped(w, ApplyIn(w, sid, s, step), sid)
  {
    if Decides(step) {
      DecisionShape(w, sid, s, step);
    } else if Receives(step) {
      ReceptionShape(w, sid, s, step);
    } else {
      PublicationShape(w, sid, s, step);
    }
  }

  /** `b` is the same session later on: the decision leaves Pending once, cancellation and
      completion are permanent, published entries stay, and a cancelled session publishes
      nothing more. */
  ghost predicate Later(a: Record, b: Record) {
    && b.manifest == a.manifest && b.pending == a.pending && b.owner == a.owner && b.token == a.token
    && (a.decision != Pending ==> b.decision == a.decision)
    && (a.cancelled ==> b.cancelled && b.published == a.published)
    && (a.complete ==> b.complete)
    && (forall id :: id in a.published ==> id in b.published && b.published[id] == a.published[id])
  }

  lemma LaterTransitive(a: Record, b: Record, c: Record)
    requires Later(a, b) && Later(b, c)
    ensures Later(a, c)
  {
  }

  lemma LinkedLater(d: Disk, j: Record, s: Session, sid: string, events: nat)
    requires SessionOk(d, j, s, sid, events) && s.job.Linked?
    ensures Later(s.rec, s.rec.Publish(s.job.file.id, s.job.target))
  {
    PublishShape(s.rec, s.job.file, s.job.target);
  }

  lemma DecidedLater(d: Disk, j: Record, s: Session, sid: string, events: nat)
    requires SessionOk(d, j, s, sid, events)
    ensures s.rec.decision != Rejected ==> Later(s.rec, s.rec.(decision := Accepted))
    ensures s.rec.decision == Pending ==> Later(s.rec, s.rec.(decision := Rejected))
    ensures Later(s.rec, s.rec.(cancelled := true))
  {
  }

  lemma DecisionLater(w: World, sid: string, s: Session, step: Step)
    requires Inv(w) && sid in w.sessions && w.sessions[sid] == s
    requires Decides(step) && !step.Forget? && EnabledIn(w, sid, s, step)
    ensures Later(s.rec, ApplyIn(w, sid, s, step).sessions[sid].rec)
  {
    LocalAt(w, sid);
    DecisionShape(w, sid, s, step);
    DecidedLater(w.disk, w.journal[sid], s, sid, Events(w, sid));
  }

  lemma SyncedLater(w: World, sid: string, s: Session)
    requires Inv(w) && sid in w.sessions && w.sessions[sid] == s && s.job.Linked?
    ensures Later(s.rec, s.rec.Publish(s.job.file.id, s.job.target))
  {
    LocalAt(w, sid);
    LinkedLater(w.disk, w.journal[sid], s, sid, Events(w, sid));
  }

  lemma TargetsLater(r: Record, r': Record)
    requires r' == r.(targets := r'.targets)
    ensures Later(r, r')
  {
  }

  lemma LinkRecord(w: World, sid: string, s: Session, readable: bool)
    requires s.job.Journalled? && Live(w.disk, Part(sid, s.job.file.id))
    ensures sid in DoLink(w, sid, s, readable).sessions
    ensures var r' := DoLink(w, sid, s, readable).sessions[sid].rec; r' == s.rec.(targets := r'.targets)
  {
  }

  lemma PublicationLater(w: World, sid: string, s: Session, step: Step)
    requires Inv(w) && sid in w.sessions && w.sessions[sid] == s && Publishes(step) && EnabledIn(w, sid, s, step)
    ensures Later(s.rec, ApplyIn(w, sid, s, step).sessions[sid].rec)
  {
    PublicationShape(w, sid, s, step);
    if step.SyncParent? {
      SyncedLater(w, sid, s);
    } else {
      if step.Link? {
        LinkRecord(w, sid, s, step.readable);
      }
      TargetsLater(s.rec, ApplyIn(w, sid, s, step).sessions[sid].rec);
    }
  }

  /** No step but a crash moves a session's record in memory backwards. */
  lemma SessionStepLater(w: World, sid: string, s: Session, step: Step)
    requires !step.Register? && !step.SaveFile? && !step.Crash? && !step.Forget?
    requires Inv(w) && sid in w.sessions && w.sessions[sid] == s && EnabledIn(w, sid, s, step)
    ensures Later(s.rec, ApplyIn(w, sid, s, step).sessions[sid].rec)
  {
    if Decides(step) {
      DecisionLater(w, sid, s, step);
    } else if Receives(step) {
      ReceptionShape(w, sid, s, step);
    } else {
      PublicationLater(w, sid, s, step);
    }
  }

  lemma BehindLater(j: Record, r: Record, r': Record)
    requires Behind(j, r) && Later(r, r')
    ensures Later(j, r')
  {
  }
}
