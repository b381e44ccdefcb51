/** Whose session it is: over any run a session belongs to whoever made the registration that
    created it, and the receiver answers nobody else. */
module DurableOwners {
  import opened Wrappers
  import opened Manifests
  import opened Disks
  import opened Durable
  import opened DurableInvariant
  import opened DurableSteps
  import opened DurableRuns
  import opened DurableLifecycle
  import opened DurableStores
  import opened DurableUploads
  import opened Resumable

  /** The registration's journal file is there, whether or not it was reported as stored. */
  predicate Announces(step: Step, sid: string) {
    step.Register? && step.manifest.request.transferId == sid && step.io != Failed(false)
  }

  /** The record is of the session that this registration announced. */
  predicate IsOf(r: Record, step: Step)
    requires step.Register?
  {
    && r.owner == step.owner && r.token == step.token && r.manifest == step.manifest
    && r.pending.id == step.manifest.request.transferId && r.pending.sourceIp == step.sourceIp
    && r.pending.senderName == step.manifest.request.senderName
    && r.pending.files == step.manifest.request.files && r.pending.totalSize == step.manifest.request.totalSize
  }

  /** The last registration of the id before state k, if it was not forgotten since. */
  ghost predicate Announced(steps: seq<Step>, n: nat, k: nat, sid: string) {
    && n < k <= |steps| && Announces(steps[n], sid)
    && forall q :: n < q < k ==> steps[q] != Forget(sid) && !Announces(steps[q], sid)
  }

  lemma SameOwner(r: Record, r': Record, step: Step)
    requires step.Register? && IsOf(r, step)
    requires r'.manifest == r.manifest && r'.pending == r.pending && r'.owner == r.owner && r'.token == r.token
    ensures IsOf(r', step)
  {
  }

  lemma AnnouncingStep(w: World, step: Step, w': World, sid: string)
    requires Next(w, step, w') && Announces(step, sid)
    ensures sid in w'.journal && IsOf(w'.journal[sid], step)
  {
    RegisterCase(w, step, w');
  }

  /** Any other step leaves the registrant's part of a journal file alone. */
  lemma OtherStep(w: World, step: Step, w': World, sid: string)
    requires Inv(w) && Next(w, step, w') && !Announces(step, sid) && sid in w'.journal
    ensures step != Forget(sid) && sid in w.journal
    ensures var r, r' := w.journal[sid], w'.journal[sid];
            r'.manifest == r.manifest && r'.pending == r.pending && r'.owner == r.owner && r'.token == r.token
  {
    LocalAt(w, sid);
    if step == Forget(sid) {
      SessionCase(w, step, w');
    } else if sid in w.sessions {
      StepLater(w, step, w', sid);
    } else if OfSession(step) {
      ForgottenJournal(w, step, w', sid);
    } else if step.Register? {
      RegisterCase(w, step, w');
    } else {
      JournalUntouched(w, step, w');
    }
  }

  /** Every journal file is that of the last registration of its id. */
  lemma {:induction false} JournalIsRegistrants(states: seq<World>, steps: seq<Step>, k: nat, sid: string)
    returns (n: nat)
    requires IsRun(states, steps) && Initial(states[0]) && k <= |steps| && sid in states[k].journal
    ensures Announced(steps, n, k, sid) && IsOf(states[k].journal[sid], steps[n])
  {
    assert k > 0;
    if Announces(steps[k - 1], sid) {
      n := k - 1;
      AnnouncingStep(states[k - 1], steps[k - 1], states[k], sid);
    } else {
      RunKeepsInv(states, steps, k - 1);
      OtherStep(states[k - 1], steps[k - 1], states[k], sid);
      n := JournalIsRegistrants(states, steps, k - 1, sid);
      SameOwner(states[k - 1].journal[sid], states[k].journal[sid], steps[n]);
    }
  }

  /** Every session is that of the last registration of its id: owner, address, token and
      announcement, through decisions, uploads, failed writes, crashes and reloads. */
  lemma SessionIsRegistrants(states: seq<World>, steps: seq<Step>, k: nat, sid: string) returns (n: nat)
    requires IsRun(states, steps) && Initial(states[0]) && k <= |steps| && sid in states[k].sessions
    ensures Announced(steps, n, k, sid) && IsOf(states[k].sessions[sid].rec, steps[n])
  {
    RunKeepsInv(states, steps, k);
    LocalAt(states[k], sid);
    n := JournalIsRegistrants(states, steps, k, sid);
    SameOwner(states[k].journal[sid], states[k].sessions[sid].rec, steps[n]);
  }

  // ---------------------------------------------------------------- nothing is approved unasked

  predicate DecidesSo(step: Step, sid: string, decision: Decision) {
    || (step.Accept? && step.sid == sid && decision == Accepted)
    || (step.Reject? && step.sid == sid && decision == Rejected)
  }

  /** The decision is the user's, or was made by trusting the registrant. */
  ghost predicate Decided(steps: seq<Step>, k: nat, sid: string, decision: Decision) {
    k <= |steps|
    && exists n: nat :: n < k
         && (|| DecidesSo(steps[n], sid, decision)
             || (Announces(steps[n], sid) && decision == Accepted && steps[n].trusted))
         && forall q :: n < q < k ==> steps[q] != Forget(sid)
  }

  lemma DecidedOn(steps: seq<Step>, p: nat, k: nat, sid: string, decision: Decision)
    requires k == p + 1 <= |steps|
    ensures Decided(steps, p, sid, decision) && steps[p] != Forget(sid) ==> Decided(steps, k, sid, decision)
    ensures DecidesSo(steps[p], sid, decision) ==> Decided(steps, k, sid, decision)
    ensures Announces(steps[p], sid) && decision == Accepted && steps[p].trusted ==> Decided(steps, k, sid, decision)
  {
  }

  /** What one step does to the decision in memory and in the journal. */
  ghost predicate DecisionMoves(w: World, step: Step, w': World, sid: string, decision: Decision) {
    || (sid in w.sessions && w.sessions[sid].rec.decision == decision && step != Forget(sid))
    || (sid in w.journal && w.journal[sid].decision == decision && step != Forget(sid))
    || DecidesSo(step, sid, decision)
    || (Announces(step, sid) && decision == Accepted && step.trusted)
  }

  lemma ActDecision(w: World, step: Step, w': World, sid: string, decision: Decision)
    requires Inv(w) && OfSession(step) && Next(w, step, w') && decision != Pending
    ensures sid in w'.sessions && w'.sessions[sid].rec.decision == decision ==>
              DecisionMoves(w, step, w', sid, decision)
    ensures sid in w'.journal && w'.journal[sid].decision == decision ==> DecisionMoves(w, step, w', sid, decision)
  {
    SessionCase(w, step, w');
    var s := w.sessions[step.sid];
    if step.Forget? {
      ForgetIsLocal(w, step.sid, Ids(s.rec.Files()));
    } else {
      SessionStepShape(w, step.sid, s, step);
      RecordDecision(w, step.sid, s, step);
    }
  }

  lemma RecordDecision(w: World, sid: string, s: Session, step: Step)
    requires OfSession(step) && !step.Forget? && step.sid == sid
    requires sid in w.sessions && w.sessions[sid] == s && EnabledIn(w, sid, s, step)
    ensures sid in ApplyIn(w, sid, s, step).sessions
    ensures ApplyIn(w, sid, s, step).sessions[sid].rec.decision
            == if step.Accept? then Accepted else if step.Reject? then Rejected else s.rec.decision
  {
    if Decides(step) {
      DecisionShape(w, sid, s, step);
    } else if Receives(step) {
      ReceptionShape(w, sid, s, step);
    } else {
      PublicationShape(w, sid, s, step);
      if step.Link? {
        LinkRecord(w, sid, s, step.readable);
      }
    }
  }

  lemma RegisterDecision(w: World, step: Step, w': World, sid: string, decision: Decision)
    requires step.Register? && Next(w, step, w') && decision != Pending
    ensures sid in w'.sessions && w'.sessions[sid].rec.decision == decision ==>
              DecisionMoves(w, step, w', sid, decision)
    ensures sid in w'.journal && w'.journal[sid].decision == decision ==> DecisionMoves(w, step, w', sid, decision)
  {
    if step.manifest.request.transferId == sid {
      RegisterCase(w, step, w');
    } else {
      RegisterElsewhere(w, step, w');
    }
  }

  lemma QuietDecision(w: World, step: Step, w': World, sid: string, decision: Decision)
    requires !OfSession(step) && Next(w, step, w') && decision != Pending
    ensures sid in w'.sessions && w'.sessions[sid].rec.decision == decision ==>
              DecisionMoves(w, step, w', sid, decision)
    ensures sid in w'.journal && w'.journal[sid].decision == decision ==> DecisionMoves(w, step, w', sid, decision)
  {
    if step.Register? {
      RegisterDecision(w, step, w', sid, decision);
    } else if step.SaveFile? {
      SaveCase(w, step, w');
    } else {
      CrashCase(w, step, w');
    }
  }

  lemma DecisionMoved(w: World, step: Step, w': World, sid: string, decision: Decision)
    requires Inv(w) && Next(w, step, w') && decision != Pending
    ensures sid in w'.sessions && w'.sessions[sid].rec.decision == decision ==>
              DecisionMoves(w, step, w', sid, decision)
    ensures sid in w'.journal && w'.journal[sid].decision == decision ==> DecisionMoves(w, step, w', sid, decision)
  {
    if OfSession(step) {
      ActDecision(w, step, w', sid, decision);
    } else {
      QuietDecision(w, step, w', sid, decision);
    }
  }

  /** A session is accepted or rejected, in memory or in the journal, only by the user's own
      decision or because its registrant was trusted, and not from before it was forgotten. */
  lemma {:induction false} DecisionIsGiven(
    states: seq<World>, steps: seq<Step>, k: nat, sid: string, decision: Decision)
    requires IsRun(states, steps) && Initial(states[0]) && k <= |steps| && decision != Pending
    ensures sid in states[k].sessions && states[k].sessions[sid].rec.decision == decision ==>
              Decided(steps, k, sid, decision)
    ensures sid in states[k].journal && states[k].journal[sid].decision == decision ==> Decided(steps, k, sid, decision)
  {
    if k > 0 {
      DecisionIsGiven(states, steps, k - 1, sid, decision);
      RunKeepsInv(states, steps, k - 1);
      DecisionMoved(states[k - 1], steps[k - 1], states[k], sid, decision);
      DecidedOn(steps, k - 1, k, sid, decision);
    }
  }

  // ---------------------------------------------------------------- the object

  /** Whatever methods have been called, every session of the store is that of the last
      registration of its id; so Status, which answers the record's owner alone, answers that
      registrant alone until the session is forgotten. */
  lemma StoreAnswersRegistrant(store: DurableStore, sid: string) returns (n: nat)
    requires store.Valid() && sid in store.sessions
    ensures Announced(store.steps, n, |store.steps|, sid) && IsOf(store.sessions[sid].rec, store.steps[n])
  {
    n := SessionIsRegistrants(store.states, store.steps, |store.steps|, sid);
  }

  /** Register, then ask for the status as `who` and repeat the registration as `who` with m'.
      After a successful registration the status is for its owner alone, and a repeat succeeds
      for the same owner and manifest alone. */
  method RegisterAndAsk(
    store: DurableStore, m: Manifest, owner: string, sourceIp: string, trusted: bool, token: string, io: Persist,
    who: string, m': Manifest)
    returns (first: Result<ResumeStatus, Code>, asked: Result<ResumeStatus, Code>, again: Result<ResumeStatus, Code>)
    requires store.Valid() && store.Quiet() && m'.request.transferId == m.request.transferId && ValidManifest(m')
    modifies store
    ensures store.Valid() && store.Quiet()
    ensures first.Ok? ==> (asked.Ok? <==> who == owner) && (who != owner ==> asked == Err(404))
    ensures first.Ok? ==> (again.Ok? <==> who == owner && m' == m) && (again.Err? ==> again == Err(409))
    ensures first.Ok? && asked.Ok? ==> asked == first
  {
    first := store.Register(m, owner, sourceIp, trusted, token, false, io);
    asked := store.Status(m.request.transferId, who);
    again := store.Register(m', who, sourceIp, trusted, token, false, io);
  }
}
