/** Verified-only publication over every run, exactly: what the receiver publishes has the
    declared size and digest until a crash cuts a file that was never synced.  The receiver
    syncs every file it received; a file of another program that already has the declared
    content is adopted as it is (durable.rs:653-669). */
module DurablePublication {
  import opened Wrappers
  import opened Manifests
  import opened Disks
  import opened Durable
  import opened DurableInvariant
  import opened DurableSteps
  import opened DurableRuns
  import opened DurableSafety
  import opened DurableLinks
  import opened DurableMoves

  // ---------------------------------------------------------------- one step

  predicate HasEntry(w: World, sid: string, id: string) {
    sid in w.sessions && id in w.sessions[sid].rec.published
  }

  function Entry(w: World, sid: string, id: string): Path
    requires HasEntry(w, sid, id)
  {
    w.sessions[sid].rec.published[id]
  }

  /** The entry's file is there under a name no crash can drop. */
  lemma EntryAnchored(w: World, sid: string, f: FileInfo)
    requires Inv(w) && HasEntry(w, sid, f.id) && f in w.sessions[sid].rec.Files()
    ensures Entry(w, sid, f.id).Dest? && Anchored(w.disk, Entry(w, sid, f.id))
  {
    LocalAt(w, sid);
    assert TargetOk(f, Entry(w, sid, f.id));
  }

  lemma EntryFile(w: World, sid: string, id: string) returns (f: FileInfo)
    requires Inv(w) && HasEntry(w, sid, id)
    ensures f in w.sessions[sid].rec.Files() && f.id == id
  {
    LocalAt(w, sid);
    assert id in Ids(w.sessions[sid].rec.Files());
    f :| f in w.sessions[sid].rec.Files() && f.id == id;
  }

  /** The step is a crash that takes bytes off the file under the name. */
  predicate Cuts(w: World, step: Step, p: Path) {
    && step.Crash? && Live(w.disk, p) && w.disk.names[p] in step.keep
    && step.keep[w.disk.names[p]] < |At(w.disk, p).bytes|
  }

  /** An entry is inherited with its record, or published by this very step. */
  ghost predicate Inherits(w: World, step: Step, w': World, sid: string, id: string)
    requires HasEntry(w', sid, id)
  {
    if HasEntry(w, sid, id) then
      && Entry(w', sid, id) == Entry(w, sid, id)
      && w'.sessions[sid].rec.manifest == w.sessions[sid].rec.manifest
    else
      && step == SyncParent(sid) && sid in w.sessions && w.sessions[sid].job.Linked?
      && w.sessions[sid].job.file.id == id && Entry(w', sid, id) == w.sessions[sid].job.target
      && w'.sessions[sid].rec.manifest == w.sessions[sid].rec.manifest
  }

  lemma ActInherits(w: World, step: Step, w': World, sid: string, id: string)
    requires Inv(w) && OfSession(step) && Next(w, step, w') && HasEntry(w', sid, id)
    ensures Inherits(w, step, w', sid, id)
  {
    SessionCase(w, step, w');
    if step.Forget? {
      ForgetIsLocal(w, step.sid, Ids(w.sessions[step.sid].rec.Files()));
    } else {
      SessionStepShape(w, step.sid, w.sessions[step.sid], step);
      if step.sid == sid {
        ActorInherits(w, sid, w.sessions[sid], step, id);
      }
    }
  }

  lemma ActorInherits(w: World, sid: string, s: Session, step: Step, id: string)
    requires Inv(w) && OfSession(step) && !step.Forget? && step.sid == sid
    requires sid in w.sessions && w.sessions[sid] == s && EnabledIn(w, sid, s, step)
    requires HasEntry(ApplyIn(w, sid, s, step), sid, id)
    ensures Inherits(w, step, ApplyIn(w, sid, s, step), sid, id)
  {
    if Decides(step) {
      DecisionShape(w, sid, s, step);
    } else if Receives(step) {
      ReceptionShape(w, sid, s, step);
    } else {
      PublicationShape(w, sid, s, step);
      if step.Link? {
        LinkRecord(w, sid, s, step.readable);
      } else if step.SyncParent? {
        LinkedUnpublished(w, sid, s);
      }
    }
  }

  lemma LinkedUnpublished(w: World, sid: string, s: Session)
    requires Inv(w) && sid in w.sessions && w.sessions[sid] == s && s.job.Linked?
    ensures s.job.file.id !in s.rec.published && s.job.file in s.rec.Files()
    ensures s.job.target.Dest? && Holds(w.disk, s.job.target, s.rec.manifest, s.job.file)
  {
    LocalAt(w, sid);
  }

  lemma StepInherits(w: World, step: Step, w': World, sid: string, id: string)
    requires Inv(w) && Next(w, step, w') && HasEntry(w', sid, id)
    ensures Inherits(w, step, w', sid, id)
    ensures step.Crash? ==> HasEntry(w, sid, id) && sid in w.journal && id in w.journal[sid].published
  {
    if OfSession(step) {
      ActInherits(w, step, w', sid, id);
    } else if step.Crash? {
      CrashCase(w, step, w');
      LocalAt(w, sid);
    } else if step.SaveFile? {
      SaveCase(w, step, w');
    } else {
      RegisterElsewhere(w, step, w');
      RegisterCase(w, step, w');
    }
  }

  /** The entry's file has what the manifest declares for it. */
  predicate Sound(w: World, sid: string, f: FileInfo)
    requires HasEntry(w, sid, f.id)
  {
    Holds(w.disk, Entry(w, sid, f.id), w.sessions[sid].rec.manifest, f)
  }

  predicate Short(w: World, sid: string, f: FileInfo)
    requires HasEntry(w, sid, f.id)
  {
    Live(w.disk, Entry(w, sid, f.id)) && |At(w.disk, Entry(w, sid, f.id)).bytes| < f.size
  }

  lemma InheritedEntry(w: World, step: Step, w': World, sid: string, f: FileInfo)
    requires Inv(w) && Next(w, step, w') && HasEntry(w', sid, f.id) && HasEntry(w, sid, f.id)
    requires f in w'.sessions[sid].rec.Files()
    ensures Entry(w', sid, f.id) == Entry(w, sid, f.id) && f in w.sessions[sid].rec.Files()
    ensures Sound(w, sid, f) ==> if Cuts(w, step, Entry(w, sid, f.id)) then Short(w', sid, f) else Sound(w', sid, f)
    ensures Short(w, sid, f) ==> Short(w', sid, f)
  {
    StepInherits(w, step, w', sid, f.id);
    EntryAnchored(w, sid, f);
    StepKeepsDestinations(w, step, w', Entry(w, sid, f.id));
    if LeavesPrefix(step, w.disk, w'.disk, Entry(w, sid, f.id)) && !Cuts(w, step, Entry(w, sid, f.id)) {
      var c := At(w.disk, Entry(w, sid, f.id));
      assert c.bytes[..|c.bytes|] == c.bytes;
    }
  }

  lemma NewEntry(w: World, step: Step, w': World, sid: string, f: FileInfo)
    requires Inv(w) && Next(w, step, w') && HasEntry(w', sid, f.id) && !HasEntry(w, sid, f.id)
    requires f in w'.sessions[sid].rec.Files()
    ensures Sound(w', sid, f)
  {
    StepInherits(w, step, w', sid, f.id);
    var s := w.sessions[sid];
    LinkedUnpublished(w, sid, s);
    LocalAt(w, sid);
    SameFile(s.rec.Files(), f, s.job.file);
    StepKeepsDestinations(w, step, w', s.job.target);
  }

  // ---------------------------------------------------------------- over runs

  /** The entry has been there from state n to state k. */
  ghost predicate Stays(states: seq<World>, n: nat, k: nat, sid: string, id: string) {
    n <= k < |states| && forall q :: n <= q <= k ==> HasEntry(states[q], sid, id)
  }

  /** Step n cuts the published file of an entry that is still there in state k. */
  ghost predicate CutAt(states: seq<World>, steps: seq<Step>, n: nat, k: nat, sid: string, id: string) {
    && n < k && n < |steps| && Stays(states, n, k, sid, id)
    && Cuts(states[n], steps[n], Entry(states[n], sid, id))
  }

  ghost predicate WasCut(states: seq<World>, steps: seq<Step>, k: nat, sid: string, id: string) {
    exists n: nat :: CutAt(states, steps, n, k, sid, id)
  }

  lemma CutStep(states: seq<World>, steps: seq<Step>, p: nat, k: nat, sid: string, id: string)
    requires |states| == |steps| + 1 && k == p + 1 <= |steps| && HasEntry(states[k], sid, id)
    ensures WasCut(states, steps, k, sid, id)
            <==> HasEntry(states[p], sid, id)
                 && (WasCut(states, steps, p, sid, id) || Cuts(states[p], steps[p], Entry(states[p], sid, id)))
  {
    if n: nat :| CutAt(states, steps, n, k, sid, id) && n < p {
      assert CutAt(states, steps, n, p, sid, id);
    }
    if n: nat :| CutAt(states, steps, n, p, sid, id) {
      assert CutAt(states, steps, n, k, sid, id);
    }
    if HasEntry(states[p], sid, id) && Cuts(states[p], steps[p], Entry(states[p], sid, id)) {
      assert CutAt(states, steps, p, k, sid, id);
    }
  }

  /** What one step does to the fate of an entry. */
  lemma FateStep(states: seq<World>, steps: seq<Step>, q: nat, k: nat, sid: string, f: FileInfo)
    requires IsRun(states, steps) && Initial(states[0]) && k == q + 1 <= |steps|
    requires HasEntry(states[k], sid, f.id) && f in states[k].sessions[sid].rec.Files()
    ensures if HasEntry(states[q], sid, f.id) then
              && f in states[q].sessions[sid].rec.Files()
              && (Short(states[q], sid, f) ==> Short(states[k], sid, f))
              && (Sound(states[q], sid, f) ==>
                    if Cuts(states[q], steps[q], Entry(states[q], sid, f.id)) then Short(states[k], sid, f)
                    else Sound(states[k], sid, f))
            else Sound(states[k], sid, f)
  {
    RunKeepsInv(states, steps, q);
    if HasEntry(states[q], sid, f.id) {
      InheritedEntry(states[q], steps[q], states[k], sid, f);
    } else {
      NewEntry(states[q], steps[q], states[k], sid, f);
    }
  }

  /** Every published entry has its declared size and digest, unless a crash has cut the file
      since; then it is too short for good. */
  lemma {:induction false} EntryFate(states: seq<World>, steps: seq<Step>, k: nat, sid: string, f: FileInfo)
    requires IsRun(states, steps) && Initial(states[0]) && k <= |steps|
    requires HasEntry(states[k], sid, f.id) && f in states[k].sessions[sid].rec.Files()
    ensures if WasCut(states, steps, k, sid, f.id) then Short(states[k], sid, f) else Sound(states[k], sid, f)
  {
    if k > 0 {
      CutStep(states, steps, k - 1, k, sid, f.id);
      FateStep(states, steps, k - 1, k, sid, f);
      if HasEntry(states[k - 1], sid, f.id) {
        EntryFate(states, steps, k - 1, sid, f);
      }
    }
  }

  /** Every entry a record publishes names a file of the declared size and digest, under a
      name that no crash can drop. */
  ghost predicate Verified(d: Disk, r: Record) {
    forall f :: f in r.Files() && f.id in r.published ==>
      Anchored(d, r.published[f.id]) && Holds(d, r.published[f.id], r.manifest, f)
  }

  /** Some published file of the record has been cut by a crash since. */
  ghost predicate SomeCut(states: seq<World>, steps: seq<Step>, k: nat, sid: string, r: Record) {
    exists f :: f in r.Files() && f.id in r.published && WasCut(states, steps, k, sid, f.id)
  }

  lemma JournalEntries(w: World, sid: string, id: string)
    requires Inv(w) && sid in w.journal && id in w.journal[sid].published
    ensures HasEntry(w, sid, id) && Entry(w, sid, id) == w.journal[sid].published[id]
    ensures w.sessions[sid].rec.manifest == w.journal[sid].manifest
  {
    LocalAt(w, sid);
  }

  /** Verified-only publication, in memory and in the journal, in every reachable state. */
  lemma PublicationIsVerified(states: seq<World>, steps: seq<Step>, k: nat, sid: string)
    requires IsRun(states, steps) && Initial(states[0]) && k <= |steps|
    ensures sid in states[k].sessions ==>
              var r := states[k].sessions[sid].rec;
              Verified(states[k].disk, r) <==> !SomeCut(states, steps, k, sid, r)
    ensures sid in states[k].journal ==>
              var r := states[k].journal[sid];
              Verified(states[k].disk, r) <==> !SomeCut(states, steps, k, sid, r)
  {
    RunKeepsInv(states, steps, k);
    if sid in states[k].sessions {
      RecordIsVerified(states, steps, k, sid, states[k].sessions[sid].rec);
    }
    if sid in states[k].journal {
      forall id | id in states[k].journal[sid].published
        ensures HasEntry(states[k], sid, id) && Entry(states[k], sid, id) == states[k].journal[sid].published[id]
        ensures states[k].sessions[sid].rec.manifest == states[k].journal[sid].manifest
      {
        JournalEntries(states[k], sid, id);
      }
      RecordIsVerified(states, steps, k, sid, states[k].journal[sid]);
    }
  }

  lemma RecordIsVerified(states: seq<World>, steps: seq<Step>, k: nat, sid: string, r: Record)
    requires IsRun(states, steps) && Initial(states[0]) && k <= |steps|
    requires forall id :: id in r.published ==>
               && HasEntry(states[k], sid, id) && Entry(states[k], sid, id) == r.published[id]
               && states[k].sessions[sid].rec.manifest == r.manifest
    ensures Verified(states[k].disk, r) <==> !SomeCut(states, steps, k, sid, r)
  {
    RunKeepsInv(states, steps, k);
    forall f | f in r.Files() && f.id in r.published
      ensures Anchored(states[k].disk, r.published[f.id])
      ensures Holds(states[k].disk, r.published[f.id], r.manifest, f) <==> !WasCut(states, steps, k, sid, f.id)
    {
      EntryFate(states, steps, k, sid, f);
      EntryAnchored(states[k], sid, f);
    }
  }

  // ---------------------------------------------------------------- files that a crash may cut

  /** Another program leaves a file under the name that it has not fully synced. */
  predicate SavesLoose(step: Step, p: Path) {
    step.SaveFile? && step.path == p && step.synced < |step.bytes|
  }

  /** Only a link makes a destination's name. */
  lemma ReceptionNames(w: World, sid: string, s: Session, step: Step, p: Path)
    requires sid in w.sessions && w.sessions[sid] == s && Receives(step) && EnabledIn(w, sid, s, step)
    requires p.Dest? && p !in w.disk.names
    ensures p !in ApplyIn(w, sid, s, step).disk.names
  {
  }

  lemma DecisionNames(w: World, sid: string, s: Session, step: Step, p: Path)
    requires sid in w.sessions && w.sessions[sid] == s && Decides(step) && EnabledIn(w, sid, s, step)
    requires p.Dest? && p !in w.disk.names
    ensures p !in ApplyIn(w, sid, s, step).disk.names
  {
  }

  lemma PublicationNames(w: World, sid: string, s: Session, step: Step, p: Path)
    requires sid in w.sessions && w.sessions[sid] == s && Publishes(step) && EnabledIn(w, sid, s, step)
    requires p.Dest? && p !in w.disk.names
    ensures p in ApplyIn(w, sid, s, step).disk.names ==> step.Link? && p == s.job.target
  {
  }

  lemma LinkedSettled(w: World, sid: string, s: Session, p: Path)
    requires Inv(w) && sid in w.sessions && w.sessions[sid] == s && s.job.Journalled?
    requires Live(w.disk, Part(sid, s.job.file.id)) && p == s.job.target && p !in w.disk.names
    ensures var w' := DoLink(w, sid, s, true);
            Live(w'.disk, p) && Settled(At(w'.disk, p))
  {
    LocalAt(w, sid);
  }

  lemma ActNames(w: World, step: Step, w': World, p: Path)
    requires Inv(w) && OfSession(step) && Next(w, step, w')
    requires p.Dest? && p !in w.disk.names && p in w'.disk.names
    ensures Live(w'.disk, p) && Settled(At(w'.disk, p))
  {
    SessionCase(w, step, w');
    var s := w.sessions[step.sid];
    if Publishes(step) {
      PublicationNames(w, step.sid, s, step, p);
      LinkedSettled(w, step.sid, s, p);
    } else if Receives(step) {
      ReceptionNames(w, step.sid, s, step, p);
    } else {
      DecisionNames(w, step.sid, s, step, p);
    }
  }

  lemma NewFile(w: World, step: Step, w': World, p: Path)
    requires Inv(w) && Next(w, step, w') && p.Dest? && p !in w.disk.names && p in w'.disk.names
    ensures Live(w'.disk, p) && (Settled(At(w'.disk, p)) <==> !SavesLoose(step, p))
  {
    if OfSession(step) {
      ActNames(w, step, w', p);
    } else if step.SaveFile? {
      SaveCase(w, step, w');
    } else if step.Crash? {
      CrashCase(w, step, w');
    } else {
      RegisterElsewhere(w, step, w');
    }
  }

  lemma OldFile(w: World, step: Step, w': World, p: Path)
    requires Inv(w) && Next(w, step, w') && p.Dest? && p in w.disk.names
    ensures Live(w.disk, p) && !SavesLoose(step, p)
    ensures p !in w'.disk.names ==> step.Crash?
    ensures p in w'.disk.names ==>
              Live(w'.disk, p) && (Settled(At(w'.disk, p)) <==> Settled(At(w.disk, p)) || step.Crash?)
  {
    StepKeepsDestinations(w, step, w', p);
    if step.SaveFile? {
      SaveCase(w, step, w');
    }
  }

  /** State n found, or step n - 1 left, a file under p not fully synced, and no crash has
      happened from n to k. */
  ghost predicate LooseSince(states: seq<World>, steps: seq<Step>, n: nat, k: nat, p: Path) {
    && n <= k <= |steps| < |states|
    && (if n == 0 then Live(states[0].disk, p) && !Settled(At(states[0].disk, p)) else SavesLoose(steps[n - 1], p))
    && forall q :: n <= q < k ==> !steps[q].Crash?
  }

  ghost predicate IsLoose(states: seq<World>, steps: seq<Step>, k: nat, p: Path) {
    exists n: nat :: LooseSince(states, steps, n, k, p)
  }

  lemma IsLooseStep(states: seq<World>, steps: seq<Step>, p: nat, k: nat, path: Path)
    requires k == p + 1 <= |steps| < |states|
    ensures IsLoose(states, steps, k, path)
            <==> (IsLoose(states, steps, p, path) && !steps[p].Crash?) || SavesLoose(steps[p], path)
  {
    if n: nat :| LooseSince(states, steps, n, k, path) && n < k {
      assert LooseSince(states, steps, n, p, path);
    }
    if n: nat :| LooseSince(states, steps, n, p, path) && !steps[p].Crash? {
      assert LooseSince(states, steps, n, k, path);
    }
    if SavesLoose(steps[p], path) {
      assert LooseSince(states, steps, k, k, path);
    }
  }

  predicate Loose(d: Disk, p: Path) {
    Live(d, p) && !Settled(At(d, p))
  }

  lemma LooseAfter(states: seq<World>, steps: seq<Step>, q: nat, k: nat, p: Path)
    requires IsRun(states, steps) && Initial(states[0]) && k == q + 1 <= |steps| && p.Dest?
    ensures Loose(states[k].disk, p) <==> (Loose(states[q].disk, p) && !steps[q].Crash?) || SavesLoose(steps[q], p)
  {
    RunKeepsInv(states, steps, q);
    LooseStep(states[q], steps[q], states[k], p);
  }

  lemma LooseStep(w: World, step: Step, w': World, p: Path)
    requires Inv(w) && Next(w, step, w') && p.Dest?
    ensures Loose(w'.disk, p) <==> (Loose(w.disk, p) && !step.Crash?) || SavesLoose(step, p)
  {
    if p in w.disk.names {
      OldFile(w, step, w', p);
    } else if p in w'.disk.names {
      NewFile(w, step, w', p);
    } else if step.SaveFile? {
      SaveCase(w, step, w');
    }
  }

  /** The file under a destination's name can lose bytes in a crash if and only if another
      program saved it without syncing all of it and no crash has happened since. */
  lemma {:induction false} LooseIff(states: seq<World>, steps: seq<Step>, k: nat, p: Path)
    requires IsRun(states, steps) && Initial(states[0]) && k <= |steps| && p.Dest?
    ensures Loose(states[k].disk, p) <==> IsLoose(states, steps, k, p)
  {
    if k == 0 {
      assert Loose(states[0].disk, p) ==> LooseSince(states, steps, 0, 0, p);
    } else {
      LooseIff(states, steps, k - 1, p);
      IsLooseStep(states, steps, k - 1, k, p);
      LooseAfter(states, steps, k - 1, k, p);
    }
  }

  // ---------------------------------------------------------------- what survives every crash

  /** The hardest crash: nothing unsynced is kept. */
  lemma HardCrash(w: World) returns (keep: map<Inode, nat>, w': World)
    requires Inv(w)
    ensures Next(w, Crash(keep, {}), w')
    ensures forall p :: Loose(w.disk, p) ==> Cuts(w, Crash(keep, {}), p)
  {
    keep := map i | i in w.disk.files :: w.disk.files[i].synced;
    w' := CrashesTo(w, keep, {});
  }

  lemma CrashKeepsEntry(w: World, step: Step, w': World, sid: string, id: string)
    requires Inv(w) && Next(w, step, w') && step.Crash? && sid in w.journal && id in w.journal[sid].published
    ensures HasEntry(w', sid, id)
  {
    CrashCase(w, step, w');
  }

  /** A journalled entry with its declared content keeps it in every crash if and only if its
      file was not left unsynced by another program since the last crash. */
  lemma SurvivesEveryCrashIff(states: seq<World>, steps: seq<Step>, k: nat, sid: string, f: FileInfo)
    requires IsRun(states, steps) && Initial(states[0]) && k <= |steps|
    requires sid in states[k].journal && f.id in states[k].journal[sid].published
    requires HasEntry(states[k], sid, f.id) && f in states[k].sessions[sid].rec.Files() && Sound(states[k], sid, f)
    ensures (forall crash, w' :: Next(states[k], crash, w') && crash.Crash? ==>
               HasEntry(w', sid, f.id) && Sound(w', sid, f))
            <==> !IsLoose(states, steps, k, Entry(states[k], sid, f.id))
  {
    var w, p := states[k], Entry(states[k], sid, f.id);
    RunKeepsInv(states, steps, k);
    EntryAnchored(w, sid, f);
    LooseIff(states, steps, k, p);
    forall crash, w' | Next(w, crash, w') && crash.Crash?
      ensures HasEntry(w', sid, f.id) && (Sound(w', sid, f) <==> !Cuts(w, crash, p))
      ensures Cuts(w, crash, p) ==> Loose(w.disk, p)
    {
      CrashKeepsEntry(w, crash, w', sid, f.id);
      StepInherits(w, crash, w', sid, f.id);
      InheritedEntry(w, crash, w', sid, f);
      StepKeepsDestinations(w, crash, w', p);
    }
    if Loose(w.disk, p) {
      var keep, w' := HardCrash(w);
      assert !Sound(w', sid, f);
    }
  }

  /** A name that an upload linked is synced. */
  lemma {:induction false} OwnLinkIsSettled(states: seq<World>, steps: seq<Step>, k: nat, l: (string, string, Path))
    requires IsRun(states, steps) && Initial(states[0]) && k <= |steps| && l in states[k].links
    ensures l.2.Dest? && Live(states[k].disk, l.2) && !Loose(states[k].disk, l.2)
  {
    LinksAreNamed(states, steps, k, l);
    RunKeepsInv(states, steps, k);
    if k > 0 {
      RunKeepsInv(states, steps, k - 1);
      LinkComesAndGoes(states[k - 1], steps[k - 1], states[k], l);
      if l in states[k - 1].links {
        OwnLinkIsSettled(states, steps, k - 1, l);
      }
      LooseStep(states[k - 1], steps[k - 1], states[k], l.2);
      if SavesLoose(steps[k - 1], l.2) {
        SaveCase(states[k - 1], steps[k - 1], states[k]);
        assert false;
      }
    }
  }

  /** So whatever an upload linked itself, and published, keeps its content for good. */
  lemma OwnLinkIsNeverCut(states: seq<World>, steps: seq<Step>, k: nat, sid: string, id: string)
    requires IsRun(states, steps) && Initial(states[0]) && k <= |steps| && HasEntry(states[k], sid, id)
    requires (sid, id, Entry(states[k], sid, id)) in states[k].links
    ensures !WasCut(states, steps, k, sid, id)
  {
    var l := (sid, id, Entry(states[k], sid, id));
    var i := CreatedAt(states, steps, k, l);
    if n: nat :| CutAt(states, steps, n, k, sid, id) {
      SameEntry(states, steps, n, k, sid, id);
      if n > i {
        OwnLinkIsSettled(states, steps, n, l);
        CutsLoose(states, steps, n, l.2);
      } else {
        SameEntry(states, steps, i, k, sid, id);
        RunKeepsInv(states, steps, i);
        var f := EntryFile(states[i], sid, id);
        EntryAnchored(states[i], sid, f);
      }
      assert false;
    }
  }

  lemma CutsLoose(states: seq<World>, steps: seq<Step>, n: nat, p: Path)
    requires IsRun(states, steps) && Initial(states[0]) && n < |steps| && p.Dest? && Cuts(states[n], steps[n], p)
    ensures Loose(states[n].disk, p)
  {
    CrashCase(states[n], steps[n], states[n + 1]);
  }

  lemma EntryStays(states: seq<World>, steps: seq<Step>, q: nat, k: nat, sid: string, id: string)
    requires IsRun(states, steps) && Initial(states[0]) && k == q + 1 <= |steps|
    requires HasEntry(states[q], sid, id) && HasEntry(states[k], sid, id)
    ensures Entry(states[k], sid, id) == Entry(states[q], sid, id)
  {
    RunKeepsInv(states, steps, q);
    StepInherits(states[q], steps[q], states[k], sid, id);
  }

  lemma {:induction false} SameEntry(states: seq<World>, steps: seq<Step>, n: nat, k: nat, sid: string, id: string)
    requires IsRun(states, steps) && Initial(states[0]) && k <= |steps| && Stays(states, n, k, sid, id)
    ensures Entry(states[n], sid, id) == Entry(states[k], sid, id)
    decreases k
  {
    if n < k {
      SameEntry(states, steps, n, k - 1, sid, id);
      EntryStays(states, steps, k - 1, k, sid, id);
    }
  }

  // ---------------------------------------------------------------- bytes of one destination

  ghost predicate UncutFrom(states: seq<World>, steps: seq<Step>, i: nat, k: nat, p: Path) {
    k <= |steps| < |states| && forall n :: i <= n < k ==> !Cuts(states[n], steps[n], p)
  }

  lemma BytesStep(states: seq<World>, steps: seq<Step>, q: nat, k: nat, p: Path)
    requires IsRun(states, steps) && Initial(states[0]) && k == q + 1 <= |steps|
    requires p.Dest? && Anchored(states[q].disk, p)
    ensures Anchored(states[k].disk, p) && |At(states[k].disk, p).bytes| <= |At(states[q].disk, p).bytes|
    ensures if Cuts(states[q], steps[q], p) then |At(states[k].disk, p).bytes| < |At(states[q].disk, p).bytes|
            else At(states[k].disk, p).bytes == At(states[q].disk, p).bytes
  {
    RunKeepsInv(states, steps, q);
    StepKeepsDestinations(states[q], steps[q], states[k], p);
    var c := At(states[q].disk, p);
    assert c.bytes[..|c.bytes|] == c.bytes;
  }

  lemma UncutStep(states: seq<World>, steps: seq<Step>, i: nat, q: nat, k: nat, p: Path)
    requires i <= q && k == q + 1 <= |steps| < |states|
    ensures UncutFrom(states, steps, i, k, p)
            <==> UncutFrom(states, steps, i, q, p) && !Cuts(states[q], steps[q], p)
  {
  }

  /** A destination that no crash can drop reads the same later on if and only if no crash
      has cut it in between. */
  lemma {:induction false} BytesStayIff(states: seq<World>, steps: seq<Step>, i: nat, k: nat, p: Path)
    requires IsRun(states, steps) && Initial(states[0]) && i <= k <= |steps|
    requires p.Dest? && Anchored(states[i].disk, p)
    ensures Anchored(states[k].disk, p) && |At(states[k].disk, p).bytes| <= |At(states[i].disk, p).bytes|
    ensures At(states[k].disk, p).bytes == At(states[i].disk, p).bytes <==> UncutFrom(states, steps, i, k, p)
    decreases k
  {
    if i < k {
      BytesStayIff(states, steps, i, k - 1, p);
      BytesStep(states, steps, k - 1, k, p);
      UncutStep(states, steps, i, k - 1, k, p);
    }
  }

  /** No crash ever cuts a destination that is durable, name and contents. */
  lemma DurableIsUncut(states: seq<World>, steps: seq<Step>, i: nat, k: nat, p: Path)
    requires IsRun(states, steps) && Initial(states[0]) && i <= k <= |steps|
    requires p.Dest? && Anchored(states[i].disk, p) && !IsLoose(states, steps, i, p)
    ensures UncutFrom(states, steps, i, k, p)
  {
    LooseIff(states, steps, i, p);
    DestinationsNeverChange(states, steps, i, k, p);
    BytesStayIff(states, steps, i, k, p);
  }
}
