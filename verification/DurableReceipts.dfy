/** What a success reply is worth: which acknowledged facts survive a crash. */
module DurableReceipts {
  import opened Wrappers
  import opened Manifests
  import opened Disks
  import opened Durable
  import opened DurableInvariant
  import opened DurableSteps
  import opened DurableRuns
  import opened DurableLifecycle
  import opened DurableMoves

  /** The journal shows what memory shows: everything a reply may have reported. */
  predicate Agree(j: Record, r: Record) {
    && j.manifest == r.manifest && j.owner == r.owner && j.token == r.token
    && j.decision == r.decision && j.cancelled == r.cancelled && j.complete == r.complete
    && j.published == r.published
  }

  /** The session's acknowledged state is journalled, or its commit is under way. */
  predicate Current(w: World, sid: string) {
    sid in w.sessions && sid in w.journal
    && (w.sessions[sid].job.Published? || Agree(w.journal[sid], w.sessions[sid].rec))
  }

  ghost predicate AllCurrent(w: World) {
    forall sid {:trigger Current(w, sid)} :: sid in w.sessions ==> Current(w, sid)
  }

  /** The step's journal write, if it makes one, succeeds; a commit is not dropped midway. */
  predicate WriteSucceeds(w: World, step: Step) {
    match step
    case Register(_, _, _, _, _, io) => io.Stored?
    case Accept(_, io) => io.Stored?
    case Reject(_, io) => io.Stored?
    case Cancel(_, io, _) => io.Stored?
    case Choose(_, io) => io.Stored?
    case Commit(_, io) => io.Stored?
    case Abandon(sid) => sid in w.sessions ==> !w.sessions[sid].job.Published?
    case _ => true
  }

  lemma ReceptionCurrent(w: World, sid: string, s: Session, step: Step)
    requires Receives(step) && WriteSucceeds(w, step) && step.sid == sid
    requires Current(w, sid) && w.sessions[sid] == s && EnabledIn(w, sid, s, step)
    ensures Current(ApplyIn(w, sid, s, step), sid)
  {
  }

  lemma DecisionCurrent(w: World, sid: string, s: Session, step: Step)
    requires Decides(step) && !step.Forget? && WriteSucceeds(w, step) && step.sid == sid
    requires Current(w, sid) && w.sessions[sid] == s && EnabledIn(w, sid, s, step)
    ensures Current(ApplyIn(w, sid, s, step), sid)
  {
  }

  lemma PublicationCurrent(w: World, sid: string, s: Session, step: Step)
    requires Publishes(step) && WriteSucceeds(w, step) && step.sid == sid
    requires Current(w, sid) && w.sessions[sid] == s && EnabledIn(w, sid, s, step)
    ensures Current(ApplyIn(w, sid, s, step), sid)
  {
  }

  lemma ActKeepsCurrent(w: World, step: Step, w': World)
    requires AllCurrent(w) && OfSession(step) && Next(w, step, w') && WriteSucceeds(w, step)
    ensures AllCurrent(w')
  {
    SessionCase(w, step, w');
    var actor := step.sid;
    var s := w.sessions[actor];
    assert Current(w, actor);
    if Decides(step) && !step.Forget? {
      DecisionCurrent(w, actor, s, step);
    } else if Receives(step) {
      ReceptionCurrent(w, actor, s, step);
    } else if Publishes(step) {
      PublicationCurrent(w, actor, s, step);
    }
    if step.Forget? {
      ForgetIsLocal(w, actor, Ids(s.rec.Files()));
    } else {
      SessionStepShape(w, actor, s, step);
    }
    forall sid | sid in w'.sessions && sid != actor ensures Current(w', sid) {
      assert Current(w, sid);
    }
  }

  lemma RegisterKeepsCurrent(w: World, step: Step, w': World)
    requires AllCurrent(w) && step.Register? && Next(w, step, w') && WriteSucceeds(w, step)
    ensures AllCurrent(w')
  {
    RegisterElsewhere(w, step, w');
    NewlyCurrent(w, step, w');
    forall sid | sid in w'.sessions && sid != step.manifest.request.transferId ensures Current(w', sid) {
      assert Current(w, sid);
    }
  }

  lemma NewlyCurrent(w: World, step: Step, w': World)
    requires step.Register? && Next(w, step, w') && WriteSucceeds(w, step)
    ensures Current(w', step.manifest.request.transferId)
  {
    RegisterCase(w, step, w');
  }

  lemma StepKeepsCurrent(w: World, step: Step, w': World)
    requires AllCurrent(w) && Next(w, step, w') && WriteSucceeds(w, step)
    ensures AllCurrent(w')
  {
    if step.Register? {
      RegisterKeepsCurrent(w, step, w');
    } else if OfSession(step) {
      ActKeepsCurrent(w, step, w');
    } else {
      forall sid | sid in w'.sessions ensures Current(w', sid) {
        if step.SaveFile? {
          SaveCase(w, step, w');
          assert Current(w, sid);
        } else {
          CrashCase(w, step, w');
        }
      }
    }
  }

  /** Fail-stop: a journal write that fails, or a commit that is dropped, before state k is
      followed at once by a crash. */
  predicate FailStop(states: seq<World>, steps: seq<Step>, k: nat) {
    |states| == |steps| + 1 && k <= |steps| && forall n: nat :: n < k ==> SucceedsOrStops(states, steps, n, k)
  }

  predicate SucceedsOrStops(states: seq<World>, steps: seq<Step>, n: nat, k: nat)
    requires |states| == |steps| + 1 && n < k <= |steps|
  {
    WriteSucceeds(states[n], steps[n]) || (n + 1 < k && steps[n + 1].Crash?)
  }

  lemma StopsBefore(states: seq<World>, steps: seq<Step>, p: nat, k: nat)
    requires FailStop(states, steps, k) && k == p + 1 && !steps[p].Crash?
    ensures FailStop(states, steps, p) && WriteSucceeds(states[p], steps[p])
  {
    assert SucceedsOrStops(states, steps, p, k);
    forall n: nat | n < p ensures SucceedsOrStops(states, steps, n, p) {
      assert SucceedsOrStops(states, steps, n, k);
    }
  }

  lemma CrashIsCurrent(w: World, step: Step, w': World)
    requires step.Crash? && Next(w, step, w')
    ensures AllCurrent(w')
  {
    CrashCase(w, step, w');
    forall sid | sid in w'.sessions ensures Current(w', sid) {
    }
  }

  lemma {:induction false} RunIsCurrent(states: seq<World>, steps: seq<Step>, k: nat)
    requires IsRun(states, steps) && Initial(states[0]) && FailStop(states, steps, k)
    ensures AllCurrent(states[k])
  {
    if k > 0 {
      if steps[k - 1].Crash? {
        CrashIsCurrent(states[k - 1], steps[k - 1], states[k]);
      } else {
        StopsBefore(states, steps, k - 1, k);
        RunIsCurrent(states, steps, k - 1);
        StepKeepsCurrent(states[k - 1], steps[k - 1], states[k]);
      }
    }
  }

  /** Durable success: with failed journal writes as fail-stop, whatever the receiver
      reports outside a pending commit (every reply is sent there) survives a crash at that
      very point: decision, cancelled, complete and the published map come back from load. */
  lemma AcknowledgedStateSurvives(states: seq<World>, steps: seq<Step>, k: nat, crash: Step, w': World, sid: string)
    requires IsRun(states, steps) && Initial(states[0]) && FailStop(states, steps, k)
    requires crash.Crash? && Next(states[k], crash, w')
    requires sid in states[k].sessions && !states[k].sessions[sid].job.Published?
    ensures sid in w'.sessions && Agree(w'.sessions[sid].rec, states[k].sessions[sid].rec)
    ensures w'.sessions[sid].fired == w'.sessions[sid].rec.cancelled
    ensures w'.sessions[sid].finished == w'.sessions[sid].rec.complete
  {
    RunIsCurrent(states, steps, k);
    assert Current(states[k], sid);
    CrashCase(states[k], crash, w');
  }

  // ---------------------------------------------------------------- acknowledged steps

  /** The step answers Ok for this session after writing its journal. */
  predicate Acknowledges(step: Step, sid: string) {
    match step
    case Register(m, _, _, _, _, io) => m.request.transferId == sid && io.Stored?
    case Accept(actor, io) => actor == sid && io.Stored?
    case Reject(actor, io) => actor == sid && io.Stored?
    case Cancel(actor, io, _) => actor == sid && io.Stored?
    case Commit(actor, io) => actor == sid && io.Stored?
    case _ => false
  }

  lemma AcknowledgedIsJournalled(w: World, step: Step, w': World, sid: string)
    requires Next(w, step, w') && Acknowledges(step, sid)
    ensures sid in w'.sessions && sid in w'.journal && w'.journal[sid] == w'.sessions[sid].rec
  {
    if step.Register? {
      RegisterCase(w, step, w');
    } else {
      SessionCase(w, step, w');
      if step.Commit? {
        CommitWrites(w, sid, w.sessions[sid], step.io);
      } else {
        DecisionWrites(w, sid, w.sessions[sid], step);
      }
    }
  }

  /** ... exactly as acknowledged, if the crash follows at once. */
  lemma StoredMeansDurable(w: World, step: Step, w': World, crash: Step, w'': World, sid: string)
    requires Next(w, step, w') && Acknowledges(step, sid)
    requires crash.Crash? && Next(w', crash, w'')
    ensures sid in w'.sessions && sid in w''.sessions
    ensures w''.sessions[sid].rec == w'.sessions[sid].rec
  {
    AcknowledgedIsJournalled(w, step, w', sid);
    CrashCase(w', crash, w'');
  }

  lemma CommitWrites(w: World, sid: string, s: Session, io: Persist)
    requires sid in w.sessions && w.sessions[sid] == s && s.job.Published? && io.Stored?
    ensures var w' := DoCommit(w, sid, s, io);
            sid in w'.sessions && sid in w'.journal && w'.journal[sid] == w'.sessions[sid].rec
  {
  }

  lemma DecisionWrites(w: World, sid: string, s: Session, step: Step)
    requires (step.Accept? || step.Reject? || step.Cancel?) && step.io.Stored?
    requires sid in w.sessions && w.sessions[sid] == s && EnabledIn(w, sid, s, step)
    ensures var w' := ApplyIn(w, sid, s, step);
            sid in w'.sessions && sid in w'.journal && w'.journal[sid] == w'.sessions[sid].rec
  {
  }

  /** Without any assumption on other writes: what a register, accept, reject, cancel or
      commit acknowledged stays true of the journal and of memory in every later state,
      through failed writes, dropped requests and crashes, until the session is forgotten. */
  lemma AcknowledgedForever(states: seq<World>, steps: seq<Step>, n: nat, k: nat, sid: string)
    requires IsRun(states, steps) && Initial(states[0]) && n < |steps| && Acknowledges(steps[n], sid)
    requires Retained(states, steps, n + 1, k, sid)
    ensures sid in states[k].sessions && sid in states[k].journal
    ensures Later(states[n + 1].sessions[sid].rec, states[k].journal[sid])
    ensures Later(states[n + 1].sessions[sid].rec, states[k].sessions[sid].rec)
  {
    AcknowledgedIsJournalled(states[n], steps[n], states[n + 1], sid);
    JournalMovesForward(states, steps, n + 1, k, sid);
    JournalBehind(states, steps, k, sid);
    LaterTransitive(states[n + 1].sessions[sid].rec, states[k].journal[sid], states[k].sessions[sid].rec);
  }

  lemma JournalBehind(states: seq<World>, steps: seq<Step>, k: nat, sid: string)
    requires IsRun(states, steps) && Initial(states[0]) && k <= |steps| && sid in states[k].sessions
    ensures sid in states[k].journal && Behind(states[k].journal[sid], states[k].sessions[sid].rec)
    ensures Later(states[k].journal[sid], states[k].sessions[sid].rec)
  {
    RunKeepsInv(states, steps, k);
    LocalAt(states[k], sid);
  }

  // ---------------------------------------------------------------- replies from memory alone

  /** What a reply may claim without a write of its own: a repeated cancel, an upload of a
      published file, a report of completion. */
  datatype Fact = IsCancelled | IsComplete | Has(id: string)

  predicate Says(r: Record, fact: Fact) {
    match fact
    case IsCancelled => r.cancelled
    case IsComplete => r.complete
    case Has(id) => id in r.published
  }

  /** The step writes the session's record, and the write reaches the journal, whether or
      not it is reported as failed. */
  predicate Lands(step: Step, sid: string) {
    match step
    case Register(m, _, _, _, _, io) => m.request.transferId == sid && io != Failed(false)
    case Accept(actor, io) => actor == sid && io != Failed(false)
    case Reject(actor, io) => actor == sid && io != Failed(false)
    case Cancel(actor, io, _) => actor == sid && io != Failed(false)
    case Choose(actor, io) => actor == sid && io != Failed(false)
    case Commit(actor, io) => actor == sid && io != Failed(false)
    case _ => false
  }

  lemma DecisionJournal(w: World, sid: string, s: Session, step: Step)
    requires Decides(step) && !step.Forget? && step.sid == sid
    requires sid in w.sessions && w.sessions[sid] == s && EnabledIn(w, sid, s, step)
    ensures var w' := ApplyIn(w, sid, s, step);
            && sid in w'.sessions
            && w'.journal == if Lands(step, sid) then w.journal[sid := w'.sessions[sid].rec] else w.journal
  {
  }

  lemma PublicationJournal(w: World, sid: string, s: Session, step: Step)
    requires Publishes(step) && step.sid == sid
    requires sid in w.sessions && w.sessions[sid] == s && EnabledIn(w, sid, s, step)
    ensures var w' := ApplyIn(w, sid, s, step);
            && sid in w'.sessions
            && w'.journal == if Lands(step, sid) then w.journal[sid := w'.sessions[sid].rec] else w.journal
  {
  }

  lemma ReceptionJournal(w: World, sid: string, s: Session, step: Step)
    requires Receives(step) && step.sid == sid
    requires sid in w.sessions && w.sessions[sid] == s && EnabledIn(w, sid, s, step)
    ensures ApplyIn(w, sid, s, step).journal == w.journal && !Lands(step, sid)
  {
  }

  /** The actor's journal entry is the record in memory if the step's write lands, and is
      left alone otherwise. */
  lemma ActorJournal(w: World, step: Step, w': World)
    requires OfSession(step) && !step.Forget? && Next(w, step, w')
    ensures step.sid in w'.sessions
    ensures w'.journal == if Lands(step, step.sid) then w.journal[step.sid := w'.sessions[step.sid].rec] else w.journal
  {
    SessionCase(w, step, w');
    var s := w.sessions[step.sid];
    if Decides(step) {
      DecisionJournal(w, step.sid, s, step);
    } else if Receives(step) {
      ReceptionJournal(w, step.sid, s, step);
      ReceptionShape(w, step.sid, s, step);
    } else {
      PublicationJournal(w, step.sid, s, step);
    }
  }

  /** How one step changes what the journal says of a session that is there afterwards. */
  ghost predicate Accounts(w: World, step: Step, w': World, sid: string, fact: Fact) {
    && sid in w'.sessions && sid in w'.journal
    && (Says(w'.journal[sid], fact) <==>
          || (sid in w.sessions && sid in w.journal && step != Forget(sid) && Says(w.journal[sid], fact))
          || (Lands(step, sid) && Says(w'.sessions[sid].rec, fact)))
  }

  lemma OtherJournal(w: World, step: Step, w': World, sid: string)
    requires OfSession(step) && Next(w, step, w') && step.sid != sid && sid in w'.sessions
    ensures sid in w.sessions && !Lands(step, sid)
    ensures (sid in w'.journal <==> sid in w.journal) && (sid in w.journal ==> w'.journal[sid] == w.journal[sid])
  {
    SessionCase(w, step, w');
    var s := w.sessions[step.sid];
    if step.Forget? {
      ForgetIsLocal(w, step.sid, Ids(s.rec.Files()));
    } else {
      SessionStepShape(w, step.sid, s, step);
    }
  }

  lemma OwnAccounts(w: World, step: Step, w': World, sid: string, fact: Fact)
    requires Inv(w) && OfSession(step) && step.sid == sid && Next(w, step, w') && sid in w'.sessions
    ensures Accounts(w, step, w', sid, fact)
  {
    SessionCase(w, step, w');
    ActorForgets(w, step, w');
    LocalAt(w, sid);
    ActorJournal(w, step, w');
    if !Lands(step, sid) {
      assert w'.journal == w.journal;
    } else if Says(w.journal[sid], fact) {
      StepLater(w, step, w', sid);
    }
  }

  lemma ActAccounts(w: World, step: Step, w': World, sid: string, fact: Fact)
    requires Inv(w) && OfSession(step) && Next(w, step, w') && sid in w'.sessions
    ensures Accounts(w, step, w', sid, fact)
  {
    if step.sid != sid {
      OtherJournal(w, step, w', sid);
      LocalAt(w, sid);
    } else {
      OwnAccounts(w, step, w', sid, fact);
    }
  }

  lemma ActorForgets(w: World, step: Step, w': World)
    requires OfSession(step) && Next(w, step, w')
    ensures step.Forget? ==> step.sid !in w'.sessions
  {
    SessionCase(w, step, w');
  }

  lemma RegisterAccounts(w: World, step: Step, w': World, sid: string, fact: Fact)
    requires Inv(w) && step.Register? && Next(w, step, w') && sid in w'.sessions
    ensures Accounts(w, step, w', sid, fact)
  {
    RegisterElsewhere(w, step, w');
    if step.manifest.request.transferId == sid {
      NewJournal(w, step, w', sid);
    } else {
      LocalAt(w, sid);
    }
  }

  lemma NewJournal(w: World, step: Step, w': World, sid: string)
    requires step.Register? && Next(w, step, w') && step.manifest.request.transferId == sid && sid in w'.sessions
    ensures sid !in w.sessions && Lands(step, sid) && sid in w'.journal && w'.journal[sid] == w'.sessions[sid].rec
  {
    RegisterCase(w, step, w');
  }

  lemma CrashAccounts(w: World, step: Step, w': World, sid: string, fact: Fact)
    requires Inv(w) && step.Crash? && Next(w, step, w') && sid in w'.sessions
    ensures Accounts(w, step, w', sid, fact)
  {
    LocalAt(w, sid);
    CrashCase(w, step, w');
    if sid !in w.sessions {
      OrphanSaysNothing(w.journal[sid], fact);
    }
  }

  lemma QuietAccounts(w: World, step: Step, w': World, sid: string, fact: Fact)
    requires Inv(w) && !OfSession(step) && Next(w, step, w') && sid in w'.sessions
    ensures Accounts(w, step, w', sid, fact)
  {
    if step.Register? {
      RegisterAccounts(w, step, w', sid, fact);
    } else if step.Crash? {
      CrashAccounts(w, step, w', sid, fact);
    } else {
      SaveCase(w, step, w');
      LocalAt(w, sid);
    }
  }

  lemma OrphanSaysNothing(j: Record, fact: Fact)
    requires OrphanOk(j)
    ensures !Says(j, fact)
  {
    assert j.Files()[0].id in Ids(j.Files());
  }

  /** Step n wrote the fact from memory to the journal, and the session is still there. */
  ghost predicate RecordedAt(states: seq<World>, steps: seq<Step>, n: nat, k: nat, sid: string, fact: Fact) {
    && n < k <= |steps| && |states| == |steps| + 1
    && Lands(steps[n], sid) && Retained(states, steps, n + 1, k, sid) && Says(states[n + 1].sessions[sid].rec, fact)
  }

  lemma {:induction false} JournalSaysIff(states: seq<World>, steps: seq<Step>, k: nat, sid: string, fact: Fact)
    requires IsRun(states, steps) && Initial(states[0]) && k <= |steps| && sid in states[k].sessions
    ensures sid in states[k].journal
    ensures Says(states[k].journal[sid], fact) <==> exists n: nat :: RecordedAt(states, steps, n, k, sid, fact)
  {
    JournalBehind(states, steps, k, sid);
    if k > 0 {
      RunKeepsInv(states, steps, k - 1);
      if OfSession(steps[k - 1]) {
        ActAccounts(states[k - 1], steps[k - 1], states[k], sid, fact);
      } else {
        QuietAccounts(states[k - 1], steps[k - 1], states[k], sid, fact);
      }
      if sid in states[k - 1].sessions && steps[k - 1] != Forget(sid) {
        JournalSaysIff(states, steps, k - 1, sid, fact);
      }
      if Says(states[k].journal[sid], fact) {
        RecordedSoFar(states, steps, k - 1, k, sid, fact);
      }
      if n: nat :| RecordedAt(states, steps, n, k, sid, fact) {
        RecordedBefore(states, steps, n, k, sid, fact);
      }
    }
  }

  lemma RecordedSoFar(states: seq<World>, steps: seq<Step>, p: nat, k: nat, sid: string, fact: Fact)
    requires k == p + 1 <= |steps| && |states| == |steps| + 1
    requires Accounts(states[p], steps[p], states[k], sid, fact) && Says(states[k].journal[sid], fact)
    requires (sid in states[p].sessions && sid in states[p].journal && steps[p] != Forget(sid)
              && Says(states[p].journal[sid], fact))
             ==> exists n: nat :: RecordedAt(states, steps, n, p, sid, fact)
    ensures exists n: nat :: RecordedAt(states, steps, n, k, sid, fact)
  {
    if Lands(steps[p], sid) && Says(states[k].sessions[sid].rec, fact) {
      assert RecordedAt(states, steps, p, k, sid, fact);
    } else {
      var n: nat :| RecordedAt(states, steps, n, p, sid, fact);
      assert RecordedAt(states, steps, n, k, sid, fact);
    }
  }

  lemma RecordedBefore(states: seq<World>, steps: seq<Step>, n: nat, k: nat, sid: string, fact: Fact)
    requires IsRun(states, steps) && Initial(states[0]) && RecordedAt(states, steps, n, k, sid, fact)
    ensures sid in states[k].journal && Says(states[k].journal[sid], fact)
  {
    LandedIsJournalled(states[n], steps[n], states[n + 1], sid);
    JournalMovesForward(states, steps, n + 1, k, sid);
  }

  lemma LandedIsJournalled(w: World, step: Step, w': World, sid: string)
    requires Next(w, step, w') && Lands(step, sid) && sid in w'.sessions
    ensures sid in w'.journal && w'.journal[sid] == w'.sessions[sid].rec
  {
    if step.Register? {
      RegisterCase(w, step, w');
    } else {
      ActorJournal(w, step, w');
    }
  }

  /** An answer from memory survives a crash if and only if some write of the session that
      reached the journal was made while memory said the same. */
  lemma MemoryReplyIsDurableIff(
    states: seq<World>, steps: seq<Step>, k: nat, crash: Step, w': World, sid: string, fact: Fact)
    requires IsRun(states, steps) && Initial(states[0]) && k <= |steps|
    requires crash.Crash? && Next(states[k], crash, w') && sid in states[k].sessions
    ensures sid in w'.sessions
    ensures Says(w'.sessions[sid].rec, fact) <==> exists n: nat :: RecordedAt(states, steps, n, k, sid, fact)
  {
    JournalSaysIff(states, steps, k, sid, fact);
    CrashCase(states[k], crash, w');
  }

  /** Between two crashes: a fact that step c made true in memory survives the next crash if
      and only if a write of the session from c on reached the journal. */
  lemma SurvivesIffSomeWriteLands(
    states: seq<World>, steps: seq<Step>, c: nat, k: nat, crash: Step, w': World, sid: string, fact: Fact)
    requires IsRun(states, steps) && Initial(states[0]) && c < k <= |steps|
    requires crash.Crash? && Next(states[k], crash, w')
    requires Retained(states, steps, c, k, sid) && forall n :: c <= n < k ==> !steps[n].Crash?
    requires !Says(states[c].sessions[sid].rec, fact)
    requires sid in states[c + 1].sessions && Says(states[c + 1].sessions[sid].rec, fact)
    ensures sid in w'.sessions
    ensures Says(w'.sessions[sid].rec, fact) <==> exists n: nat :: c <= n < k && Lands(steps[n], sid)
  {
    JournalMovesForward(states, steps, c, k, sid);
    MemoryReplyIsDurableIff(states, steps, k, crash, w', sid, fact);
    if n: nat :| RecordedAt(states, steps, n, k, sid, fact) {
      NotBefore(states, steps, c, n, k, sid, fact);
    }
    if n: nat :| c <= n < k && Lands(steps[n], sid) {
      SaidFrom(states, steps, c, n, k, sid, fact);
    }
  }

  lemma NotBefore(states: seq<World>, steps: seq<Step>, c: nat, n: nat, k: nat, sid: string, fact: Fact)
    requires IsRun(states, steps) && Initial(states[0]) && c < k && RecordedAt(states, steps, n, k, sid, fact)
    requires sid in states[c].sessions && !Says(states[c].sessions[sid].rec, fact)
    ensures c <= n
  {
    if n < c {
      assert RecordedAt(states, steps, n, c, sid, fact);
      RecordedBefore(states, steps, n, c, sid, fact);
      JournalBehind(states, steps, c, sid);
      assert false;
    }
  }

  lemma SaidFrom(states: seq<World>, steps: seq<Step>, c: nat, n: nat, k: nat, sid: string, fact: Fact)
    requires IsRun(states, steps) && Initial(states[0]) && c <= n < k <= |steps| && Lands(steps[n], sid)
    requires Retained(states, steps, c, k, sid) && forall q :: c <= q < k ==> !steps[q].Crash?
    requires sid in states[c + 1].sessions && Says(states[c + 1].sessions[sid].rec, fact)
    ensures RecordedAt(states, steps, n, k, sid, fact)
  {
    MemoryMovesForward(states, steps, c + 1, n + 1, sid);
    assert Retained(states, steps, n + 1, k, sid);
  }

  /** An idle session may be cancelled; the journal write fails without landing. */
  lemma FailedCancel(w: World, sid: string)
    returns (w1: World, w2: World)
    requires sid in w.sessions && sid in w.journal
    requires var s := w.sessions[sid]; s.job.Idle? && !s.rec.cancelled && !s.rec.complete && !s.finished
    ensures Next(w, FireCancel(sid), w1)
    ensures Next(w1, Cancel(sid, Failed(false), {}), w2)
    ensures w2.disk == w.disk && w2.journal == w.journal && w2.links == w.links
    ensures sid in w2.sessions && w2.sessions[sid].rec.cancelled
  {
    w1 := Put(w, sid, w.sessions[sid].(fired := true));
    NextMeans(w, FireCancel(sid), w1);
    w2 := DoCancel(w1, sid, w1.sessions[sid], Failed(false), {});
    NextMeans(w1, Cancel(sid, Failed(false), {}), w2);
  }

  lemma FirstRegistration(m: Manifest, owner: string, sourceIp: string, token: string)
    returns (w0: World, w1: World)
    requires ValidManifest(m)
    ensures Initial(w0) && Next(w0, Register(m, owner, sourceIp, true, token, Stored), w1)
    ensures w1.disk == Disk(map[], map[], {}, 0) && w1.links == {}
    ensures var sid, r := m.request.transferId, NewRecord(m, owner, sourceIp, true, token);
            && sid in w1.journal && w1.journal[sid] == r
            && sid in w1.sessions && w1.sessions[sid] == Session(r, false, false, Idle)
  {
    w0 := World(Disk(map[], map[], {}, 0), map[], map[], map[], {});
    w1 := DoRegister(w0, m.request.transferId, NewRecord(m, owner, sourceIp, true, token), Stored);
    NextMeans(w0, Register(m, owner, sourceIp, true, token, Stored), w1);
  }

  /** The two can differ: for any valid manifest, a cancellation whose journal write fails
      makes the next cancel answer Ok from memory, and a crash revives the session. */
  lemma FailedCancelIsUndone(m: Manifest, owner: string, sourceIp: string, token: string)
    returns (states: seq<World>, steps: seq<Step>)
    requires ValidManifest(m)
    ensures |steps| == 4 && IsRun(states, steps) && Initial(states[0])
    ensures var sid := m.request.transferId;
            && sid in states[3].sessions && states[3].sessions[sid].rec.cancelled
            && steps[3].Crash? && sid in states[4].sessions && !states[4].sessions[sid].rec.cancelled
  {
    var sid := m.request.transferId;
    var w0, w1 := FirstRegistration(m, owner, sourceIp, token);
    var w2, w3 := FailedCancel(w1, sid);
    var keep := TakesRestart(w3);
    var w4 := w3.(disk := Flushed(w3.disk), sessions := LoadAll(w3.journal));
    var first := Register(m, owner, sourceIp, true, token, Stored);
    FourSteps(w0, first, w1, FireCancel(sid), w2, Cancel(sid, Failed(false), {}), w3, Crash(keep, {}), w4);
    states := [w0, w1, w2, w3, w4];
    steps := [first, FireCancel(sid), Cancel(sid, Failed(false), {}), Crash(keep, {})];
  }
}
