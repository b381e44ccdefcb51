/** A sender's success joined to the receiver's safety. */
module EndToEnd {
  import opened Wrappers
  import opened Manifests
  import opened Disks
  import opened Durable
  import opened DurableInvariant
  import opened DurableSteps
  import opened DurableRuns
  import opened DurableSafety
  import opened DurableLifecycle
  import opened DurablePublication
  import opened DurableResume
  import opened Sender
  import opened DurableSnapshot
  import opened DurableStores
  import opened Resumable
  import DurableWitness

  /** The plan's file is published under a name that no crash can drop, and has the size and
      digest it was planned with. */
  ghost predicate Arrived(w: World, sid: string, file: PreparedFile) {
    && sid in w.sessions && file.info.id in w.sessions[sid].rec.published
    && var p := w.sessions[sid].rec.published[file.info.id];
    && Live(w.disk, p) && Stands(w.disk, p, At(w.disk, p).bytes)
    && |At(w.disk, p).bytes| == file.info.size
    && Sha256(At(w.disk, p).bytes) == file.sha256
  }

  ghost predicate CollisionFree() {
    forall a: Bytes, b: Bytes :: Sha256(a) == Sha256(b) ==> a == b
  }

  lemma SameManifest(states: seq<World>, steps: seq<Step>, i: nat, k: nat, sid: string)
    requires IsRun(states, steps) && Initial(states[0]) && Retained(states, steps, i, k, sid)
    ensures sid in states[k].sessions
    ensures states[k].sessions[sid].rec.manifest == states[i].sessions[sid].rec.manifest
  {
    JournalMovesForward(states, steps, i, k, sid);
    JournalManifest(states, steps, i, sid);
    JournalManifest(states, steps, k, sid);
  }

  lemma JournalManifest(states: seq<World>, steps: seq<Step>, k: nat, sid: string)
    requires IsRun(states, steps) && Initial(states[0]) && k <= |steps| && sid in states[k].sessions
    ensures sid in states[k].journal
    ensures states[k].journal[sid].manifest == states[k].sessions[sid].rec.manifest
  {
    RunKeepsInv(states, steps, k);
    LocalAt(states[k], sid);
  }

  /** The manifest declares the plan's file with its size and digest. */
  predicate Declares(m: Manifest, file: PreparedFile) {
    exists f :: f in m.request.files && f.id == file.info.id && f.size == file.info.size
                && f.id in m.sha256 && m.sha256[f.id] == file.sha256
  }

  /** What a session reported complete has received of a plan.  Unless a crash has cut the
      file since, a plan's file has arrived exactly if the manifest the session then holds
      declares it; and a declared file has arrived exactly if no crash has cut it. */
  lemma ArrivedIff(states: seq<World>, steps: seq<Step>, k: nat, sid: string, file: PreparedFile)
    requires IsRun(states, steps) && Initial(states[0]) && k <= |steps|
    requires sid in states[k].sessions && states[k].sessions[sid].rec.complete
    ensures !WasCut(states, steps, k, sid, file.info.id)
            ==> (Arrived(states[k], sid, file) <==> Declares(states[k].sessions[sid].rec.manifest, file))
    ensures Declares(states[k].sessions[sid].rec.manifest, file)
            ==> (Arrived(states[k], sid, file) <==> !WasCut(states, steps, k, sid, file.info.id))
  {
    var r := states[k].sessions[sid].rec;
    LifecycleInvariant(states, steps, k, sid);
    RunKeepsInv(states, steps, k);
    if Declares(r.manifest, file) {
      var f :| f in r.manifest.request.files && f.id == file.info.id && f.size == file.info.size
               && f.id in r.manifest.sha256 && r.manifest.sha256[f.id] == file.sha256;
      EntryAnchored(states[k], sid, f);
      EntryFate(states, steps, k, sid, f);
    }
    if Arrived(states[k], sid, file) {
      var f := EntryFile(states[k], sid, file.info.id);
      EntryFate(states, steps, k, sid, f);
    }
  }

  lemma PlanDeclares(plan: PreparedTransfer, m: Manifest, n: nat)
    requires PlanManifest(plan) == Some(m) && ValidManifest(m) && n < |plan.files|
    ensures Declares(m, plan.files[n])
  {
    PlanManifestIsValid(plan);
    assert m.request.files[n] == plan.files[n].info;
  }

  /** A complete session that still holds the plan's manifest has received all of the plan,
      but for adopted files that a crash has cut. */
  lemma CompleteMeansArrived(states: seq<World>, steps: seq<Step>, k: nat, sid: string, plan: PreparedTransfer, n: nat)
    requires IsRun(states, steps) && Initial(states[0]) && k <= |steps|
    requires sid in states[k].sessions && states[k].sessions[sid].rec.complete && n < |plan.files|
    requires PlanManifest(plan) == Some(states[k].sessions[sid].rec.manifest)
    requires ValidManifest(states[k].sessions[sid].rec.manifest)
    ensures Arrived(states[k], sid, plan.files[n]) <==> !WasCut(states, steps, k, sid, plan.files[n].info.id)
  {
    PlanDeclares(plan, states[k].sessions[sid].rec.manifest, n);
    ArrivedIff(states, steps, k, sid, plan.files[n]);
  }

  /** The file arrived as p reads as the source later on exactly if no crash cuts it, and none
      does unless another program left it unsynced. */
  ghost predicate StaysAsSent(states: seq<World>, steps: seq<Step>, k: nat, later: nat, p: Path, source: Bytes) {
    && k <= later <= |steps| < |states| && Live(states[later].disk, p)
    && (At(states[later].disk, p).bytes == source <==> UncutFrom(states, steps, k, later, p))
    && (!IsLoose(states, steps, k, p) ==> UncutFrom(states, steps, k, later, p))
  }

  /** End to end.  When SendPlan reports success, and the session was not forgotten between
      its registration and its final report, then every file of the plan is published with
      its declared size and digest, whatever disconnects, crashes, reloads, conflicts and
      retries the run held, unless a crash has cut a file that was adopted unsynced.  Without
      digest collisions its bytes are the source's bytes, and stay so. */
  lemma DeliveredMeansArrived(
    wire: Wire, steps: seq<Step>, plan: PreparedTransfer, sources: map<string, Bytes>,
    reg: nat, fin: nat, n: nat, later: nat)
    requires IsRun(wire.states, steps) && Initial(wire.states[0]) && wire.Ordered()
    requires PlanManifest(plan).Some? && ValidManifest(PlanManifest(plan).value)
    requires reg <= fin && Registers(wire, reg, PlanManifest(plan).value) && ReportsComplete(wire, fin)
    requires forall m :: wire.turns[reg].at <= m < wire.turns[fin].at ==> steps[m] != Forget(wire.sid)
    requires n < |plan.files| && SourceOk(plan.files[n], sources)
    requires wire.turns[fin].at <= later <= |steps|
    ensures var k := wire.turns[fin].at;
            Arrived(wire.states[k], wire.sid, plan.files[n])
            <==> !WasCut(wire.states, steps, k, wire.sid, plan.files[n].info.id)
    ensures var k := wire.turns[fin].at;
            Arrived(wire.states[k], wire.sid, plan.files[n]) && CollisionFree() ==>
              StaysAsSent(wire.states, steps, k, later, wire.Met(fin).published[plan.files[n].info.id],
                          sources[plan.files[n].path])
  {
    var i, k := wire.turns[reg].at, wire.turns[fin].at;
    SameManifest(wire.states, steps, i, k, wire.sid);
    CompleteMeansArrived(wire.states, steps, k, wire.sid, plan, n);
    if Arrived(wire.states[k], wire.sid, plan.files[n]) && CollisionFree() {
      ArrivedStays(wire.states, steps, k, later, wire.sid, plan.files[n], sources[plan.files[n].path]);
    }
  }

  lemma ArrivedStays(
    states: seq<World>, steps: seq<Step>, k: nat, later: nat, sid: string, file: PreparedFile, source: Bytes)
    requires IsRun(states, steps) && Initial(states[0]) && k <= later <= |steps|
    requires Arrived(states[k], sid, file) && CollisionFree() && Sha256(source) == file.sha256
    ensures StaysAsSent(states, steps, k, later, states[k].sessions[sid].rec.published[file.info.id], source)
  {
    var p := states[k].sessions[sid].rec.published[file.info.id];
    assert At(states[k].disk, p).bytes == source;
    BytesStayIff(states, steps, k, later, p);
    if !IsLoose(states, steps, k, p) {
      DurableIsUncut(states, steps, k, later, p);
    }
  }

  /** The sending engine against a receiver's run: when send_plan reports success, a file of
      the plan has arrived exactly if the session met by the final report still declares it,
      and all of them have if the session was not forgotten in between. */
  method SendAndArrive(
    engine: Engine, wire: Wire, steps: seq<Step>, plan: PreparedTransfer, sources: map<string, Bytes>, patience: nat)
    returns (r: Result<(), SendError>, ghost reg: nat, ghost fin: nat)
    requires engine.progress == 0
    requires IsRun(wire.states, steps) && Initial(wire.states[0]) && wire.Ordered()
    modifies wire`pos, wire`sent, engine`progress
    ensures r.Ok? ==> reg <= fin && wire.Meets(reg) && wire.Meets(fin)
    ensures r.Ok? ==> forall n :: 0 <= n < |plan.files| ==> ArrivedAsDeclared(wire, steps, fin, plan.files[n])
    ensures r.Ok? && (forall m :: wire.turns[reg].at <= m < wire.turns[fin].at ==> steps[m] != Forget(wire.sid)) ==>
              forall n :: 0 <= n < |plan.files| ==> ArrivedUnlessCut(wire, steps, fin, plan.files[n])
  {
    ghost var appr, news;
    r, reg, appr, fin, news := engine.SendPlan(wire, plan, sources, patience);
    if r.Ok? {
      var k := wire.turns[fin].at;
      forall n | 0 <= n < |plan.files| ensures ArrivedAsDeclared(wire, steps, fin, plan.files[n]) {
        ArrivedIff(wire.states, steps, k, wire.sid, plan.files[n]);
      }
      if forall m :: wire.turns[reg].at <= m < k ==> steps[m] != Forget(wire.sid) {
        forall n | 0 <= n < |plan.files| ensures ArrivedUnlessCut(wire, steps, fin, plan.files[n]) {
          DeliveredMeansArrived(wire, steps, plan, sources, reg, fin, n, k);
        }
      }
    }
  }

  /** Unless a crash has cut it, the file has arrived exactly if the session met declares it. */
  ghost predicate ArrivedAsDeclared(wire: Wire, steps: seq<Step>, p: nat, file: PreparedFile)
    requires wire.Meets(p)
  {
    !WasCut(wire.states, steps, wire.turns[p].at, wire.sid, file.info.id) ==>
      (Arrived(wire.states[wire.turns[p].at], wire.sid, file) <==> Declares(wire.Met(p).manifest, file))
  }

  ghost predicate ArrivedUnlessCut(wire: Wire, steps: seq<Step>, p: nat, file: PreparedFile)
    requires wire.Meets(p)
  {
    Arrived(wire.states[wire.turns[p].at], wire.sid, file)
    <==> !WasCut(wire.states, steps, wire.turns[p].at, wire.sid, file.info.id)
  }

  /** Why the session must not have been forgotten: two plans announce a file of the same id
      and size under the same transfer id.  The first is registered, rejected and forgotten,
      the second completes; the final report is one the first sender accepts, and nothing of
      its plan has arrived. */
  lemma ForgottenPlanIsLost(plan: PreparedTransfer, other: PreparedTransfer, owner: string, token: string, bytes: Bytes)
    returns (states: seq<World>, steps: seq<Step>)
    requires |plan.files| == 1 && other.transferId == plan.transferId && Infos(other.files) == Infos(plan.files)
    requires PlanManifest(plan).Some? && ValidManifest(PlanManifest(plan).value)
    requires PlanManifest(other).Some?
    requires DurableWitness.Deliverable(PlanManifest(other).value, plan.files[0].info, bytes)
    requires plan.files[0].sha256 != other.files[0].sha256
    ensures IsRun(states, steps) && Initial(states[0]) && |steps| == 12
    ensures var sid, w := plan.transferId, states[12];
            && sid in states[1].sessions && Some(states[1].sessions[sid].rec.manifest) == PlanManifest(plan)
            && sid in w.sessions && w.sessions[sid].rec.complete
            && StatusOk(Infos(plan.files), Snapshot(w.disk, sid, w.sessions[sid].rec))
            && !Arrived(w, sid, plan.files[0])
  {
    var m, m' := PlanManifest(plan).value, PlanManifest(other).value;
    assert m'.request.files == [plan.files[0].info];
    states, steps := DurableWitness.ReplacedRun(m, m', owner, "", token, plan.files[0].info, bytes);
    SnapshotIsAccepted(states, steps, 12, plan.transferId);
    assert !WasCut(states, steps, 12, plan.transferId, plan.files[0].info.id);
    ArrivedIff(states, steps, 12, plan.transferId, plan.files[0]);
    PlanManifestIsValid(other);
  }

  // ---------------------------------------------------------------- the sender is honest

  /** `src` gives the contents of the plan's files by id. */
  ghost predicate NamesSources(plan: PreparedTransfer, sources: map<string, Bytes>, src: map<string, Bytes>) {
    forall k :: 0 <= k < |plan.files| ==>
      && SourceOk(plan.files[k], sources)
      && plan.files[k].info.id in src && src[plan.files[k].info.id] == sources[plan.files[k].path]
  }

  /** What arrives of a body is the beginning of a body sent for the file and offset that the
      request named; the offset may come from a report that is out of date by now. */
  ghost predicate Carries(steps: seq<Step>, k: nat, sid: string, bytes: Bytes, sent: seq<Sent>)
    requires k <= |steps|
  {
    var u := LastUpload(steps, k, sid);
    u.Some? ==>
      exists j :: 0 <= j < |sent| && sent[j].fileId == u.value.id && sent[j].offset == u.value.offset
                  && u.value.bytes + bytes <= sent[j].body
  }

  ghost predicate Stems(steps: seq<Step>, k: nat, sid: string, m: Manifest, sent: seq<Sent>)
    requires k < |steps|
  {
    match steps[k]
    case Register(m', _, _, _, _, _) => m'.request.transferId == sid ==> m' == m
    case Chunk(actor, bytes) => actor == sid ==> Carries(steps, k, sid, bytes, sent)
    case TornChunk(actor, bytes) => actor == sid ==> Carries(steps, k, sid, bytes, sent)
    case Oversize(actor, bytes, _) => actor == sid ==> Carries(steps, k, sid, bytes, sent)
    case _ => true
  }

  /** Whatever the receiver gets for the session was sent by this sender. */
  ghost predicate OnlyFrom(steps: seq<Step>, sid: string, m: Manifest, sent: seq<Sent>) {
    forall k: nat :: k < |steps| ==> Stems(steps, k, sid, m, sent)
  }

  /** The body is the rest of one of the plan's sources. */
  ghost predicate RestOfPlan(plan: PreparedTransfer, sources: map<string, Bytes>, s: Sent) {
    exists k :: 0 <= k < |plan.files| && plan.files[k].info.id == s.fileId && Rest(plan.files[k], sources, s)
  }

  lemma SentAreRests(wire: Wire, plan: PreparedTransfer, sources: map<string, Bytes>)
    requires SentFrom(wire, plan, sources, [])
    ensures forall j :: 0 <= j < |wire.sent| ==> RestOfPlan(plan, sources, wire.sent[j])
  {
    forall j | 0 <= j < |wire.sent| ensures RestOfPlan(plan, sources, wire.sent[j]) {
      assert SentOk(wire, plan, sources, wire.sent[j]);
    }
  }

  lemma SentIsSegment(
    plan: PreparedTransfer, sources: map<string, Bytes>, src: map<string, Bytes>, s: Sent, before: Bytes, bytes: Bytes)
    requires RestOfPlan(plan, sources, s) && NamesSources(plan, sources, src) && before + bytes <= s.body
    ensures Segment(src, s.fileId, s.offset + |before|, bytes)
  {
    var k :| 0 <= k < |plan.files| && plan.files[k].info.id == s.fileId && Rest(plan.files[k], sources, s);
    var source := sources[plan.files[k].path];
    assert bytes == (before + bytes)[|before|..] == s.body[|before|..|before| + |bytes|];
    assert s.body == source[s.offset..];
  }

  lemma PlanDescribes(plan: PreparedTransfer, sources: map<string, Bytes>, src: map<string, Bytes>, m: Manifest)
    requires NamesSources(plan, sources, src) && PlanManifest(plan) == Some(m) && ValidManifest(m)
    ensures Describes(m, src)
  {
    PlanManifestIsValid(plan);
    forall f | f in m.request.files
      ensures f.id in src && |src[f.id]| == f.size && f.id in m.sha256 && m.sha256[f.id] == Sha256(src[f.id])
    {
      var k :| 0 <= k < |m.request.files| && m.request.files[k] == f;
      assert plan.files[k].info == f && SourceOk(plan.files[k], sources);
    }
  }

  lemma CarriedFollows(
    sent: seq<Sent>, steps: seq<Step>, plan: PreparedTransfer, sources: map<string, Bytes>, src: map<string, Bytes>,
    sid: string, k: nat, bytes: Bytes)
    requires forall j :: 0 <= j < |sent| ==> RestOfPlan(plan, sources, sent[j])
    requires NamesSources(plan, sources, src) && k <= |steps| && Carries(steps, k, sid, bytes, sent)
    ensures BodyFollows(steps, k, sid, bytes, src)
  {
    var u := LastUpload(steps, k, sid);
    if u.Some? {
      var j :| 0 <= j < |sent| && sent[j].fileId == u.value.id && sent[j].offset == u.value.offset
               && u.value.bytes + bytes <= sent[j].body;
      SentIsSegment(plan, sources, src, sent[j], u.value.bytes, bytes);
    }
  }

  /** The sending engine of this project is an honest sender, although it resumes from
      reports that may be out of date: the receiver checks the offset. */
  lemma SenderIsHonest(
    wire: Wire, steps: seq<Step>, plan: PreparedTransfer, sources: map<string, Bytes>, src: map<string, Bytes>)
    requires SentFrom(wire, plan, sources, []) && NamesSources(plan, sources, src)
    requires PlanManifest(plan).Some? && ValidManifest(PlanManifest(plan).value)
    requires OnlyFrom(steps, wire.sid, PlanManifest(plan).value, wire.sent)
    ensures Honest(steps, wire.sid, src)
  {
    PlanDescribes(plan, sources, src, PlanManifest(plan).value);
    SentAreRests(wire, plan, sources);
    forall k: nat | k < |steps| ensures HonestStep(steps, k, wire.sid, src) {
      assert Stems(steps, k, wire.sid, PlanManifest(plan).value, wire.sent);
      var step := steps[k];
      if (step.Chunk? || step.TornChunk? || step.Oversize?) && step.sid == wire.sid {
        CarriedFollows(wire.sent, steps, plan, sources, src, wire.sid, k, step.bytes);
      }
    }
  }

  /** So every partial file of its session is a prefix of its source at any time, and none of
      its uploads is answered with a checksum mismatch or as too large. */
  lemma SenderResumesSafely(
    wire: Wire, steps: seq<Step>, plan: PreparedTransfer, sources: map<string, Bytes>, src: map<string, Bytes>, k: nat)
    requires IsRun(wire.states, steps) && Initial(wire.states[0]) && k <= |steps|
    requires SentFrom(wire, plan, sources, []) && NamesSources(plan, sources, src)
    requires PlanManifest(plan).Some? && ValidManifest(PlanManifest(plan).value)
    requires OnlyFrom(steps, wire.sid, PlanManifest(plan).value, wire.sent)
    ensures Prefixes(wire.states[k].disk, wire.sid, src)
    ensures k < |steps| ==> !((steps[k].Discard? || steps[k].Oversize?) && steps[k].sid == wire.sid)
  {
    SenderIsHonest(wire, steps, plan, sources, src);
    PartsArePrefixes(wire.states, steps, k, wire.sid, src);
    if k < |steps| {
      HonestUploadsAreNeverDiscarded(wire.states, steps, k, wire.sid, src);
    }
  }

  // ---------------------------------------------------------------- the store as an object

  /** Whatever methods have been called, and whatever crashed, the store only publishes
      verified files, in memory and in its journal, except for files of other programs that a
      crash has cut since, and its books on a session agree. */
  lemma StoreIsSafe(store: DurableStore, sid: string)
    requires store.Valid() && sid in store.sessions
    ensures var r := store.sessions[sid].rec;
            Verified(store.disk, r) <==> !SomeCut(store.states, store.steps, |store.steps|, sid, r)
    ensures sid in store.journal
    ensures var j := store.journal[sid];
            Verified(store.disk, j) <==> !SomeCut(store.states, store.steps, |store.steps|, sid, j)
    ensures !(store.sessions[sid].rec.complete && store.sessions[sid].rec.cancelled)
    ensures store.sessions[sid].rec.complete <==>
            forall f :: f in store.sessions[sid].rec.Files() ==> f.id in store.sessions[sid].rec.published
  {
    var k := |store.steps|;
    PublicationIsVerified(store.states, store.steps, k, sid);
    LifecycleInvariant(store.states, store.steps, k, sid);
  }

  /** A durable destination survives any sequence of method calls byte for byte: `before`
      is the number of steps the store had taken when it was durable. */
  lemma StoreKeepsDestinations(store: DurableStore, before: nat, p: Path)
    requires store.Valid() && before <= |store.steps|
    requires p.Dest? && Anchored(store.states[before].disk, p) && Settled(At(store.states[before].disk, p))
    ensures Stands(store.disk, p, At(store.states[before].disk, p).bytes)
  {
    DestinationsNeverChange(store.states, store.steps, before, |store.steps|, p);
  }
}
