/** The life of a session over every run, and what a crash gives back. */
module DurableLifecycle {
  import opened Wrappers
  import opened Manifests
  import opened Disks
  import opened Durable
  import opened DurableInvariant
  import opened DurableSteps
  import opened DurableRuns
  import Paths

  // ---------------------------------------------------------------- lifecycle

  /** The session is registered at every state from i to k, and no step between forgets it. */
  ghost predicate Retained(states: seq<World>, steps: seq<Step>, i: nat, k: nat, sid: string) {
    && i <= k < |states| && |states| == |steps| + 1
    && sid in states[i].sessions
    && forall n :: i <= n < k ==> steps[n] != Forget(sid)
  }

  /** A journal entry never moves backwards, and the record in memory only by crashing, to
      what the journal holds. */
  ghost predicate Forward(w: World, w': World, sid: string, crashed: bool) {
    && sid in w.sessions && sid in w.journal && sid in w'.sessions && sid in w'.journal
    && Later(w.journal[sid], w'.journal[sid])
    && (!crashed ==> Later(w.sessions[sid].rec, w'.sessions[sid].rec))
    && (crashed ==> w'.sessions[sid].rec == w.journal[sid] == w'.journal[sid])
  }

  lemma QuietLater(w: World, step: Step, w': World, sid: string)
    requires Inv(w) && Next(w, step, w') && sid in w.sessions && (step.Register? || step.SaveFile?)
    ensures Forward(w, w', sid, false)
  {
    LocalAt(w, sid);
    if step.Register? {
      RegisterElsewhere(w, step, w');
    } else {
      SaveCase(w, step, w');
    }
  }

  lemma CrashLater(w: World, step: Step, w': World, sid: string)
    requires Inv(w) && Next(w, step, w') && sid in w.sessions && step.Crash?
    ensures Forward(w, w', sid, true)
  {
    LocalAt(w, sid);
    CrashCase(w, step, w');
  }

  lemma StepLater(w: World, step: Step, w': World, sid: string)
    requires Inv(w) && Next(w, step, w') && sid in w.sessions && step != Forget(sid)
    ensures Forward(w, w', sid, step.Crash?)
  {
    if step.Crash? {
      CrashLater(w, step, w', sid);
    } else if OfSession(step) {
      ActLater(w, step, w', sid);
    } else {
      QuietLater(w, step, w', sid);
    }
  }

  lemma ActLater(w: World, step: Step, w': World, sid: string)
    requires Inv(w) && OfSession(step) && Next(w, step, w') && sid in w.sessions && step != Forget(sid)
    ensures Forward(w, w', sid, false)
  {
    SessionCase(w, step, w');
    if sid == step.sid {
      ActorLater(w, sid, w.sessions[sid], step);
    } else {
      LocalAt(w, sid);
      OtherLater(w, step.sid, w.sessions[step.sid], step, sid);
    }
  }

  lemma OtherLater(w: World, actor: string, s: Session, step: Step, sid: string)
    requires OfSession(step) && step.sid == actor && sid != actor
    requires actor in w.sessions && w.sessions[actor] == s && EnabledIn(w, actor, s, step)
    requires Local(w, sid)
    ensures Forward(w, ApplyIn(w, actor, s, step), sid, false)
  {
    if step.Forget? {
      ForgetIsLocal(w, actor, Ids(s.rec.Files()));
    } else {
      SessionStepShape(w, actor, s, step);
    }
  }

  lemma ActorLater(w: World, actor: string, s: Session, step: Step)
    requires OfSession(step) && step.sid == actor && !step.Forget?
    requires Inv(w) && actor in w.sessions && w.sessions[actor] == s && EnabledIn(w, actor, s, step)
    ensures Forward(w, ApplyIn(w, actor, s, step), actor, false)
  {
    LocalAt(w, actor);
    SessionStepShape(w, actor, s, step);
    SessionStepLater(w, actor, s, step);
    BehindLater(w.journal[actor], s.rec, ApplyIn(w, actor, s, step).sessions[actor].rec);
  }

  /** The journal of a registered session only moves forward: through failed writes, lost
      requests and crashes, for as long as it is not forgotten. */
  lemma {:induction false} JournalMovesForward(states: seq<World>, steps: seq<Step>, i: nat, k: nat, sid: string)
    requires IsRun(states, steps) && Initial(states[0]) && Retained(states, steps, i, k, sid)
    ensures sid in states[k].sessions && sid in states[i].journal && sid in states[k].journal
    ensures Later(states[i].journal[sid], states[k].journal[sid])
    decreases k
  {
    RunKeepsInv(states, steps, i);
    LocalAt(states[i], sid);
    if i < k {
      JournalMovesForward(states, steps, i, k - 1, sid);
      RunKeepsInv(states, steps, k - 1);
      StepLater(states[k - 1], steps[k - 1], states[k], sid);
      LaterTransitive(states[i].journal[sid], states[k - 1].journal[sid], states[k].journal[sid]);
    }
  }

  /** Between crashes the record in memory only moves forward as well. */
  lemma {:induction false} MemoryMovesForward(states: seq<World>, steps: seq<Step>, i: nat, k: nat, sid: string)
    requires IsRun(states, steps) && Initial(states[0]) && Retained(states, steps, i, k, sid)
    requires forall n :: i <= n < k ==> !steps[n].Crash?
    ensures sid in states[k].sessions
    ensures Later(states[i].sessions[sid].rec, states[k].sessions[sid].rec)
    decreases k
  {
    if i < k {
      MemoryMovesForward(states, steps, i, k - 1, sid);
      RunKeepsInv(states, steps, k - 1);
      StepLater(states[k - 1], steps[k - 1], states[k], sid);
      LaterTransitive(states[i].sessions[sid].rec, states[k - 1].sessions[sid].rec, states[k].sessions[sid].rec);
    }
  }

  /** Complete holds exactly when every file is published, and never together with
      cancelled; a completion event has fired at most once since registration, restarts
      included, and only for a session whose completion is in the journal. */
  lemma LifecycleInvariant(states: seq<World>, steps: seq<Step>, k: nat, sid: string)
    requires IsRun(states, steps) && Initial(states[0]) && k <= |steps| && sid in states[k].sessions
    ensures sid in states[k].journal
    ensures var r, j := states[k].sessions[sid].rec, states[k].journal[sid];
            && (r.complete <==> forall f :: f in r.Files() ==> f.id in r.published)
            && (j.complete <==> forall f :: f in j.Files() ==> f.id in j.published)
            && !(r.complete && r.cancelled) && !(j.complete && j.cancelled)
            && Events(states[k], sid) <= 1
            && (Events(states[k], sid) == 1 ==> j.complete)
            && (states[k].sessions[sid].finished ==> j.complete)
  {
    RunKeepsInv(states, steps, k);
    LocalAt(states[k], sid);
    CompleteMeansAll(states[k].sessions[sid].rec);
    CompleteMeansAll(states[k].journal[sid]);
  }

  lemma CompleteMeansAll(r: Record)
    requires RecordShape(r)
    ensures r.complete <==> forall f :: f in r.Files() ==> f.id in r.published
  {
    if forall f :: f in r.Files() ==> f.id in r.published {
      assert forall id :: id in Ids(r.Files()) ==> id in r.published.Keys;
    } else {
      var f :| f in r.Files() && f.id !in r.published;
      assert f.id in Ids(r.Files());
    }
  }

  // ---------------------------------------------------------------- loading

  /** The checks of durable.rs:135-152 on one journal file. */
  ghost predicate Loadable(sid: string, r: Record) {
    && ValidManifest(r.manifest)
    && r.manifest.request.transferId == sid && r.pending.id == sid
    && (forall id :: id in r.targets ==> r.targets[id].Dest? && Paths.AllSafe(Render(r.targets[id])))
    && (forall id :: id in r.published ==> r.published[id].Dest? && Paths.AllSafe(Render(r.published[id])))
  }

  lemma TargetRendersSafe(f: FileInfo, p: Path)
    requires TargetOk(f, p)
    ensures Paths.AllSafe(Render(p))
  {
    Paths.TargetIsSafe(Place(f));
    assert Render(p) == Paths.TargetDir(Place(f)) + [p.base];
  }

  lemma EntriesRenderSafe(files: seq<FileInfo>, entries: map<string, Path>)
    requires EntriesOk(files, entries) && entries.Keys <= Ids(files)
    ensures forall id :: id in entries ==> entries[id].Dest? && Paths.AllSafe(Render(entries[id]))
  {
    forall id | id in entries ensures entries[id].Dest? && Paths.AllSafe(Render(entries[id])) {
      var f :| f in files && f.id == id;
      TargetRendersSafe(f, entries[id]);
    }
  }

  lemma StepKeepsEnvelopes(w: World, step: Step, w': World)
    requires Inv(w) && EnvelopesOk(w) && Next(w, step, w')
    ensures EnvelopesOk(w')
  {
    forall sid | sid in w'.journal
      ensures EnvelopeOk(sid, w'.journal[sid])
    {
      if sid in w.sessions && step != Forget(sid) {
        StepLater(w, step, w', sid);
        assert EnvelopeOk(sid, w.journal[sid]);
      } else {
        UnregisteredJournal(w, step, w', sid);
      }
    }
  }

  lemma ForgottenJournal(w: World, step: Step, w': World, sid: string)
    requires OfSession(step) && Next(w, step, w') && (sid !in w.sessions || step == Forget(sid))
    ensures sid in w'.journal ==> sid in w.journal && w'.journal[sid] == w.journal[sid]
  {
    SessionCase(w, step, w');
    OrphanUntouched(w, step.sid, w.sessions[step.sid], step, sid);
  }

  lemma RegisterEnvelope(w: World, step: Step, w': World, sid: string)
    requires Next(w, step, w') && step.Register? && sid in w'.journal
    ensures (sid in w.journal && w'.journal[sid] == w.journal[sid]) || EnvelopeOk(sid, w'.journal[sid])
  {
    RegisterCase(w, step, w');
  }

  lemma JournalUntouched(w: World, step: Step, w': World)
    requires Next(w, step, w') && (step.SaveFile? || step.Crash?)
    ensures w'.journal == w.journal
  {
    if step.SaveFile? {
      SaveCase(w, step, w');
    } else {
      CrashCase(w, step, w');
    }
  }

  lemma QuietEnvelope(w: World, step: Step, w': World, sid: string)
    requires EnvelopesOk(w) && Next(w, step, w') && !OfSession(step) && sid in w'.journal
    ensures EnvelopeOk(sid, w'.journal[sid])
  {
    assert sid in w.journal ==> EnvelopeOk(sid, w.journal[sid]);
    if step.Register? {
      RegisterEnvelope(w, step, w', sid);
    } else {
      JournalUntouched(w, step, w');
    }
  }

  /** The journal entry of a session that is not (or no longer) registered. */
  lemma UnregisteredJournal(w: World, step: Step, w': World, sid: string)
    requires EnvelopesOk(w) && Next(w, step, w') && sid in w'.journal
    requires sid !in w.sessions || step == Forget(sid)
    ensures EnvelopeOk(sid, w'.journal[sid])
  {
    if OfSession(step) {
      ForgottenJournal(w, step, w', sid);
      assert EnvelopeOk(sid, w.journal[sid]);
    } else {
      QuietEnvelope(w, step, w', sid);
    }
  }

  lemma OrphanUntouched(w: World, actor: string, s: Session, step: Step, sid: string)
    requires !step.Register? && !step.SaveFile? && !step.Crash?
    requires actor in w.sessions && w.sessions[actor] == s && EnabledIn(w, actor, s, step)
    requires sid !in w.sessions || step == Forget(sid)
    requires step.sid == actor
    ensures var w' := ApplyIn(w, actor, s, step);
            sid in w'.journal ==> sid in w.journal && w'.journal[sid] == w.journal[sid]
  {
    if step.Forget? {
      ForgetIsLocal(w, actor, Ids(s.rec.Files()));
    } else {
      SessionStepShape(w, actor, s, step);
    }
  }

  lemma {:induction false} RunKeepsEnvelopes(states: seq<World>, steps: seq<Step>, k: nat)
    requires IsRun(states, steps) && Initial(states[0]) && k <= |steps|
    ensures EnvelopesOk(states[k])
  {
    if k > 0 {
      RunKeepsEnvelopes(states, steps, k - 1);
      RunKeepsInv(states, steps, k - 1);
      StepKeepsEnvelopes(states[k - 1], steps[k - 1], states[k]);
    }
  }

  /** A restart always succeeds: every journal file any run can leave behind passes the
      checks of load. */
  lemma LoadSucceeds(states: seq<World>, steps: seq<Step>, k: nat, sid: string)
    requires IsRun(states, steps) && Initial(states[0]) && k <= |steps| && sid in states[k].journal
    ensures Loadable(sid, states[k].journal[sid])
  {
    var j := states[k].journal[sid];
    RunKeepsInv(states, steps, k);
    RunKeepsEnvelopes(states, steps, k);
    LocalAt(states[k], sid);
    assert EnvelopeOk(sid, j);
    EntriesRenderSafe(j.Files(), j.targets);
    EntriesRenderSafe(j.Files(), j.published);
  }
}
