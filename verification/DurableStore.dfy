/** The receiver's store as the object it is (src/durable.rs): fields updated in place,
    every method logging the steps it takes, so that whatever is proved about runs holds of
    the object at any time. */
module DurableStores {
  import opened Wrappers
  import opened Manifests
  import opened Disks
  import opened Durable
  import opened DurableInvariant
  import opened DurableSteps
  import opened DurableRuns
  import opened DurableSnapshot
  import opened DurableProgress
  import opened DurableLifecycle
  import opened DurableMoves
  import opened DurableUploads
  import opened DurableSafety
  import opened DurablePublication
  import opened Resumable
  import Paths

  datatype Refusal = TransferNotFound | TransferCancelled | TransferRejected | InvalidConfig | Io

  /** Narrow consequences of the invariant, so that methods need not open it. */
  lemma ReceivingFacts(states: seq<World>, steps: seq<Step>, sid: string)
    requires IsRun(states, steps) && Initial(states[0])
    requires var w := states[|steps|]; sid in w.sessions && w.sessions[sid].job.Receiving?
    ensures var w := states[|steps|]; var job := w.sessions[sid].job;
            && job.fd in w.disk.files
            && Live(w.disk, Part(sid, job.file.id)) && w.disk.names[Part(sid, job.file.id)] == job.fd
            && |At(w.disk, Part(sid, job.file.id)).bytes| == job.offset <= job.file.size
  {
    RunKeepsInv(states, steps, |steps|);
    LocalAt(states[|steps|], sid);
  }

  lemma PublishingFacts(states: seq<World>, steps: seq<Step>, sid: string)
    requires IsRun(states, steps) && Initial(states[0])
    requires var w := states[|steps|];
             sid in w.sessions && (w.sessions[sid].job.Choosing? || w.sessions[sid].job.Journalled?)
    ensures var w := states[|steps|]; Live(w.disk, Part(sid, w.sessions[sid].job.file.id))
  {
    RunKeepsInv(states, steps, |steps|);
    LocalAt(states[|steps|], sid);
  }

  /** An upload never runs in a finished session. */
  lemma UploadingIsUnfinished(states: seq<World>, steps: seq<Step>, sid: string)
    requires IsRun(states, steps) && Initial(states[0])
    requires sid in states[|steps|].sessions
    requires var job := states[|steps|].sessions[sid].job; job.Receiving? || job.Received? || job.Choosing?
    ensures !states[|steps|].sessions[sid].finished
  {
    var w := states[|steps|];
    RunKeepsInv(states, steps, |steps|);
    LocalAt(w, sid);
    var s := w.sessions[sid];
    assert s.job.file.id in Ids(s.rec.Files());
  }

  lemma RegisteredFacts(states: seq<World>, steps: seq<Step>, k: nat, sid: string)
    requires IsRun(states, steps) && Initial(states[0]) && k <= |steps| && sid in states[k].sessions
    ensures sid in states[k].journal
    ensures var r := states[k].sessions[sid].rec;
            && StatusOk(r.Files(), Snapshot(states[k].disk, sid, r))
            && forall f :: f in r.Files() ==> Offset(states[k].disk, sid, r, f) <= f.size
  {
    SnapshotIsAccepted(states, steps, k, sid);
    LifecycleInvariant(states, steps, k, sid);
  }

  lemma IsJournalled(states: seq<World>, steps: seq<Step>, sid: string)
    requires IsRun(states, steps) && Initial(states[0]) && sid in states[|steps|].sessions
    ensures sid in states[|steps|].journal
  {
    LifecycleInvariant(states, steps, |steps|, sid);
  }

  lemma DistinctFiles(states: seq<World>, steps: seq<Step>, sid: string)
    requires IsRun(states, steps) && Initial(states[0]) && sid in states[|steps|].sessions
    ensures DistinctIds(states[|steps|].sessions[sid].rec.Files())
  {
    RunKeepsInv(states, steps, |steps|);
    LocalAt(states[|steps|], sid);
  }

  lemma UnlinkMore(d: Disk, sid: string, ids: set<string>, id: string)
    ensures Unlink(Unlink(d, Parts(sid, ids)), {Part(sid, id)}) == Unlink(d, Parts(sid, ids + {id}))
  {
    assert Parts(sid, ids + {id}) == Parts(sid, ids) + {Part(sid, id)};
  }

  lemma UnlinkNone(d: Disk, sid: string)
    ensures Unlink(d, Parts(sid, {})) == d
  {
    assert Parts(sid, {}) == {};
  }

  /** The state after a crash and reload. */
  lemma TakesCrash(states: seq<World>, steps: seq<Step>, keep: map<Inode, nat>, lost: set<Path>) returns (w': World)
    requires IsRun(states, steps) && Initial(states[0])
    requires CutOk(states[|steps|].disk, keep) && lost <= states[|steps|].disk.volatile
    ensures Next(states[|steps|], Crash(keep, lost), w') && DiskOk(states[|steps|].disk)
    ensures var w := states[|steps|];
            w' == World(Cut(w.disk, keep, lost), w.journal, LoadAll(w.journal), w.completions,
                        set l | l in w.links && l.2 !in lost)
  {
    RunKeepsInv(states, steps, |steps|);
    w' := CrashesTo(states[|steps|], keep, lost);
  }

  lemma JournalLoads(states: seq<World>, steps: seq<Step>, k: nat)
    requires IsRun(states, steps) && Initial(states[0]) && k <= |steps|
    ensures forall sid :: sid in states[k].journal ==> Loadable(sid, states[k].journal[sid])
  {
    forall sid | sid in states[k].journal ensures Loadable(sid, states[k].journal[sid]) {
      LoadSucceeds(states, steps, k, sid);
    }
  }

  predicate SameReception(a: Job, b: Job) {
    a.Receiving? && b.Receiving? && b == a.(offset := b.offset)
  }

  predicate SameReceipts(r: Record, r': Record) {
    r'.published == r.published && r'.complete == r.complete
  }

  /** The name was taken by something else: it is forgotten and the next one is due. */
  predicate Passed(was: World, w: World, sid: string) {
    && sid in was.sessions && was.sessions[sid].job.Choosing? && sid in w.sessions && w.disk == was.disk
    && var s, s' := was.sessions[sid], w.sessions[sid];
       && s'.rec == s.rec.(targets := s.rec.targets - {s.job.file.id})
       && s'.job == Choosing(s.job.file, s.job.index + 1)
  }

  /** The name due is the file's target, in memory and, if the write succeeds, for the upload. */
  ghost predicate Recorded(was: World, w: World, sid: string, io: Persist) {
    && sid in was.sessions && was.sessions[sid].job.Choosing? && sid in w.sessions && w.disk == was.disk
    && var r, job, s' := was.sessions[sid].rec, was.sessions[sid].job, w.sessions[sid];
       var target := if job.file.id in r.targets then r.targets[job.file.id] else TargetName(job.file, job.index);
       && s'.rec == r.(targets := r.targets[job.file.id := target])
       && s'.job == if io.Stored? then Journalled(job.file, job.index, target) else Idle
  }

  /** The target is linked or adopted; or it is taken, and the next one is due. */
  ghost predicate Met(was: World, w: World, sid: string, readable: bool, linked: bool) {
    && sid in was.sessions && was.sessions[sid].job.Journalled? && sid in w.sessions
    && var r, job, s' := was.sessions[sid].rec, was.sessions[sid].job, w.sessions[sid];
       && linked == Usable(was.disk, r, job.file, job.target, readable)
       && if linked then s'.rec == r && s'.job == Linked(job.file, job.target)
          else
            && w.disk == was.disk && s'.rec == r.(targets := r.targets - {job.file.id})
            && s'.job == Choosing(job.file, job.index + 1)
  }

  /** Whether one name is linked, or adopted, or found taken. */
  ghost predicate Claimed(was: World, w: World, sid: string, try: Try, res: Option<Code>, linked: bool) {
    && sid in was.sessions && was.sessions[sid].job.Choosing? && sid in w.sessions
    && var r, job, s' := was.sessions[sid].rec, was.sessions[sid].job, w.sessions[sid];
       var target := if job.file.id in r.targets then r.targets[job.file.id] else TargetName(job.file, job.index);
       && res == (if try.io.Failed? || try.linkFails then Some(500) else None)
       && linked == (res.None? && Usable(was.disk, r, job.file, target, try.readable))
       && SameReceipts(r, s'.rec)
       && if res.Some? then s'.job == Idle
          else if linked then s'.job == Linked(job.file, target)
          else Passed(was, w, sid)
  }

  /** What becomes of one name, with the I/O it meets: an error, the file under that name, or
      nothing, and the next name is due. */
  ghost predicate Tried(was: World, w: World, sid: string, try: Try, res: Option<Code>, placed: bool) {
    && sid in was.sessions && was.sessions[sid].job.Choosing? && sid in w.sessions
    && var r, job, s' := was.sessions[sid].rec, was.sessions[sid].job, w.sessions[sid];
       var target := if job.file.id in r.targets then r.targets[job.file.id] else TargetName(job.file, job.index);
       var free := Usable(was.disk, r, job.file, target, try.readable);
       && res == (if try.io.Failed? || try.linkFails || (free && try.syncFails) then Some(500) else None)
       && placed == (res.None? && free)
       && if res.Some? then s'.job == Idle && SameReceipts(r, s'.rec)
          else if free then s'.job == Published(job.file) && s'.rec.published == r.published[job.file.id := target]
          else Passed(was, w, sid)
  }

  lemma ClaimFails(was: World, b: World, w: World, sid: string, try: Try)
    requires Recorded(was, b, sid, try.io)
    requires if try.io.Failed? then w == b else try.linkFails && w == Put(b, sid, b.sessions[sid].(job := Idle))
    ensures Claimed(was, w, sid, try, Some(500), false)
  {
  }

  lemma ClaimMeets(was: World, b: World, w: World, sid: string, try: Try, linked: bool)
    requires Recorded(was, b, sid, try.io) && try.io.Stored? && !try.linkFails
    requires Met(b, w, sid, try.readable, linked)
    ensures Claimed(was, w, sid, try, None, linked)
  {
  }

  lemma FiredIsSame(was: World, b: World, w: World, sid: string, try: Try, res: Option<Code>, linked: bool)
    requires sid in was.sessions && sid in b.sessions && b.disk == was.disk
    requires b.sessions[sid] == was.sessions[sid].(fired := b.sessions[sid].fired)
    requires Claimed(b, w, sid, try, res, linked)
    ensures Claimed(was, w, sid, try, res, linked)
  {
  }

  lemma TakenOrFailed(was: World, w: World, sid: string, try: Try, res: Option<Code>)
    requires Claimed(was, w, sid, try, res, false)
    ensures Tried(was, w, sid, try, res, false)
  {
  }

  lemma ClaimedOrNot(was: World, c: World, w: World, sid: string, try: Try)
    requires Claimed(was, c, sid, try, None, true) && sid in w.sessions
    requires var s, s' := c.sessions[sid], w.sessions[sid];
             if try.syncFails then s' == s.(job := Idle)
             else s'.job == Published(s.job.file) && s'.rec.published == s.rec.published[s.job.file.id := s.job.target]
    ensures Tried(was, w, sid, try, if try.syncFails then Some(500) else None, !try.syncFails)
  {
  }

  /** The record after k names were found taken. */
  predicate AtTurn(r: Record, r': Record, id: string, k: nat) {
    r' == if k == 0 then r else r.(targets := r.targets - {id})
  }

  /** The search for a name has come to the k-th, all before it being taken. */
  ghost predicate Searching(was: World, w: World, sid: string, tries: seq<Try>, k: nat) {
    && Apart(was, w, sid) && sid in was.sessions && was.sessions[sid].job.Choosing? && sid in w.sessions
    && var s, s' := was.sessions[sid], w.sessions[sid];
       && w.disk == was.disk && AtTurn(s.rec, s'.rec, s.job.file.id, k)
       && s'.job == Choosing(s.job.file, k) && NoneStops(was.disk, s.rec, s.job.file, tries, k)
  }

  /** The search is over. */
  ghost predicate Found(was: World, w: World, sid: string, tries: seq<Try>, res: Option<Code>) {
    && Apart(was, w, sid) && sid in was.sessions && was.sessions[sid].job.Choosing? && sid in w.sessions
    && var s, s' := was.sessions[sid], w.sessions[sid];
       && s'.job == (if res.None? then Published(s.job.file) else Idle)
       && (res.Some? ==> SameReceipts(s.rec, s'.rec))
       && Placed(res) && PlacedAs(was.disk, s.rec, s.job.file, tries, res, s'.rec.published)
  }

  lemma SearchGoesOn(
    was: World, b: World, w: World, sid: string, tries: seq<Try>, k: nat, res: Option<Code>, placed: bool)
    requires Searching(was, b, sid, tries, k) && k < 1000
    requires Apart(b, w, sid) && Tried(b, w, sid, TryAt(tries, k), res, placed)
    ensures if res.Some? || placed then Found(was, w, sid, tries, res) else Searching(was, w, sid, tries, k + 1)
  {
    ApartChain(was, b, w, sid);
    var s := was.sessions[sid];
    var f, r' := s.job.file, b.sessions[sid].rec;
    assert (if f.id in r'.targets then r'.targets[f.id] else TargetName(f, k)) == NameAt(s.rec, f, k);
    assert Usable(was.disk, r', f, NameAt(s.rec, f, k), TryAt(tries, k).readable)
      == Usable(was.disk, s.rec, f, NameAt(s.rec, f, k), TryAt(tries, k).readable);
    if res.Some? || placed {
      PlacedAtFirst(was.disk, s.rec, f, tries, k, res, w.sessions[sid].rec.published);
    }
  }

  lemma SearchFails(was: World, b: World, w: World, sid: string, tries: seq<Try>)
    requires Searching(was, b, sid, tries, 1000) && Apart(b, w, sid)
    requires w == Put(b, sid, b.sessions[sid].(job := Idle))
    ensures Found(was, w, sid, tries, Some(409))
  {
    ApartChain(was, b, w, sid);
    NowherePlaced(was.disk, was.sessions[sid].rec, was.sessions[sid].job.file, tries);
  }

  predicate Named(sid: string) {
    true
  }

  /** Every other session is as it was, and this one keeps its manifest.  The quantifier
      keeps the statement folded in methods; naming the session opens it. */
  ghost predicate Apart(was: World, w: World, sid: string) {
    forall t {:trigger Named(t)} :: t == sid ==>
      && t in was.sessions && t in w.sessions
      && w.sessions[t].rec.manifest == was.sessions[t].rec.manifest
      && OthersSame(was, w, t)
  }

  lemma ApartMeans(was: World, w: World, sid: string)
    ensures Apart(was, w, sid) <==>
            && sid in was.sessions && sid in w.sessions
            && w.sessions[sid].rec.manifest == was.sessions[sid].rec.manifest
            && OthersSame(was, w, sid)
  {
    assert Named(sid);
  }

  lemma ApartChain(a: World, b: World, c: World, sid: string)
    ensures Apart(a, b, sid) && Apart(b, c, sid) ==> Apart(a, c, sid)
  {
    assert Named(sid);
  }

  lemma ApartBy(w: World, w': World, sid: string)
    requires sid in w.sessions && sid in w'.sessions && w'.sessions == w.sessions[sid := w'.sessions[sid]]
    requires w'.sessions[sid].rec.manifest == w.sessions[sid].rec.manifest
    requires w'.journal == w.journal || (sid in w'.journal && w'.journal == w.journal[sid := w'.journal[sid]])
    requires w'.completions == w.completions
             || (sid in w'.completions && w'.completions == w.completions[sid := w'.completions[sid]])
    ensures Apart(w, w', sid)
  {
    ApartMeans(w, w', sid);
  }

  predicate StaysAt(d: Disk, d': Disk, p: Path) {
    && (p in d'.names <==> p in d.names) && (Live(d', p) <==> Live(d, p))
    && (Live(d, p) ==> At(d', p) == At(d, p))
  }

  /** Every destination is as it was. */
  ghost predicate SameDests(d: Disk, d': Disk) {
    forall p: Path {:trigger StaysAt(d, d', p)} :: p.Dest? ==> StaysAt(d, d', p)
  }

  lemma SameDestsChain(a: Disk, b: Disk, c: Disk)
    ensures SameDests(a, b) && SameDests(b, c) ==> SameDests(a, c)
  {
    if SameDests(a, b) && SameDests(b, c) {
      forall p: Path | p.Dest? ensures StaysAt(a, c, p) {
        assert StaysAt(a, b, p) && StaysAt(b, c, p);
      }
    }
  }

  /** Nothing but a link changes what destinations there are. */
  lemma LastKeepsDests(states: seq<World>, steps: seq<Step>)
    requires IsRun(states, steps) && Initial(states[0]) && steps != []
    ensures Receives(steps[|steps| - 1]) ==> SameDests(states[|steps| - 1].disk, states[|steps|].disk)
  {
    if !Receives(steps[|steps| - 1]) {
      return;
    }
    var n := |steps| - 1;
    var w, step, w' := states[n], steps[n], states[n + 1];
    RunKeepsInv(states, steps, n);
    SessionCase(w, step, w');
    ActDisk(w, step, w');
    forall p: Path | p.Dest? ensures StaysAt(w.disk, w'.disk, p) {
      if p !in w.disk.names {
        ReceptionNames(w, step.sid, w.sessions[step.sid], step, p);
      }
    }
  }

  /** An upload under way has gone on: its partial file holds what it held, then `more`. */
  ghost predicate GoesOn(was: World, w: World, sid: string, more: Bytes) {
    && Apart(was, w, sid) && sid in was.sessions && sid in w.sessions
    && w.sessions[sid].rec == was.sessions[sid].rec && w.journal == was.journal
    && SameReception(was.sessions[sid].job, w.sessions[sid].job)
    && Holding(was.disk, w.disk, Part(sid, was.sessions[sid].job.file.id), more)
    && SameDests(was.disk, w.disk)
  }

  /** ... or has come to the job that follows its body, its partial file as above if `kept`. */
  ghost predicate EndsAs(was: World, w: World, sid: string, job: Job, kept: bool, more: Bytes) {
    && Apart(was, w, sid) && sid in was.sessions && sid in w.sessions
    && w.sessions[sid].rec == was.sessions[sid].rec && w.journal == was.journal
    && was.sessions[sid].job.Receiving? && w.sessions[sid].job == job
    && (kept ==> Holding(was.disk, w.disk, Part(sid, was.sessions[sid].job.file.id), more))
    && SameDests(was.disk, w.disk)
  }

  /** The partial file is open with what was kept, at the offset asked for. */
  ghost predicate Opened(was: World, w: World, sid: string, f: FileInfo, offset: nat) {
    && sid in was.sessions && sid in w.sessions && SameDests(was.disk, w.disk)
    && var s, s' := was.sessions[sid], w.sessions[sid];
       && s'.rec == s.rec && s'.fired == s.fired && s'.job.Receiving? && s'.job.file == f && s'.job.offset == offset
       && Live(w.disk, Part(sid, f.id)) && At(w.disk, Part(sid, f.id)).bytes == PartBytes(was.disk, sid, f)
       && |PartBytes(was.disk, sid, f)| == offset <= f.size
  }

  lemma BeginOpens(states: seq<World>, steps: seq<Step>, sid: string, f: FileInfo, w: World)
    requires IsRun(states, steps) && Initial(states[0]) && sid in states[|steps|].sessions
    requires var s := states[|steps|].sessions[sid]; f in s.rec.Files() && f.id !in s.rec.published
    requires w == DoBegin(states[|steps|], sid, states[|steps|].sessions[sid], f)
    requires SameDests(states[|steps|].disk, w.disk)
    ensures var was := states[|steps|]; Opened(was, w, sid, f, Offset(was.disk, sid, was.sessions[sid].rec, f))
  {
    RunKeepsInv(states, steps, |steps|);
    RegisteredFacts(states, steps, |steps|, sid);
  }

  /** The upload has been refused, or its name is looked for. */
  ghost predicate ReceivedAs(
    was: World, w: World, sid: string, f: FileInfo, offset: nat, body: seq<BodyEvent>, tail: Tail, res: Option<Code>)
  {
    && sid in was.sessions && sid in w.sessions && SameDests(was.disk, w.disk) && offset <= f.size
    && w.sessions[sid].rec == was.sessions[sid].rec
    && w.sessions[sid].job == (if res.None? then Choosing(f, 0) else Idle)
    && res == Reception(was.disk, sid, was.sessions[sid].rec, f, offset, body, tail)
  }

  /** A whole body leaves the partial file that it completes. */
  lemma BodyLeaves(
    was: World, b: World, c: World, sid: string, f: FileInfo, offset: nat, body: seq<BodyEvent>)
    requires Opened(was, b, sid, f, offset) && BodyReply(false, f.size - offset, body).None?
    requires EndsAs(b, c, sid, Received(f), true, Joined(body))
    ensures var m, bytes := was.sessions[sid].rec.manifest, PartBytes(was.disk, sid, f) + Joined(body);
            Holds(c.disk, Part(sid, f.id), m, f) <==> f.id in m.sha256 && Sha256(bytes) == m.sha256[f.id]
  {
    BodyPassesIff(false, f.size - offset, body);
  }

  /** The reply is the one the request deserves, and so is what is published then. */
  ghost predicate RepliedTo(
    was: World, w: World, sid: string, f: FileInfo, offset: nat, body: seq<BodyEvent>, tail: Tail, code: Code)
  {
    && sid in was.sessions && sid in w.sessions && offset <= f.size
    && RepliesAs(was.disk, sid, was.sessions[sid].rec, f, offset, body, tail, code, w.sessions[sid].rec.published)
  }

  lemma RefusalReplies(
    was: World, w: World, sid: string, f: FileInfo, offset: nat, body: seq<BodyEvent>, tail: Tail, res: Option<Code>)
    requires ReceivedAs(was, w, sid, f, offset, body, tail, res) && res.Some?
    ensures RepliedTo(was, w, sid, f, offset, body, tail, res.value) && res.value != 200
  {
    ReceptionCodes(was.disk, sid, was.sessions[sid].rec, f, offset, body, tail);
  }

  lemma ReplyTells(
    was: World, w: World, sid: string, f: FileInfo, offset: nat, body: seq<BodyEvent>, tail: Tail, code: Code)
    requires RepliedTo(was, w, sid, f, offset, body, tail, code)
    ensures code in {200, 400, 409, 410, 413, 422, 500}
    ensures code == 200 ==> f.id in w.sessions[sid].rec.published
    ensures code != 200 && code != 500 ==> w.sessions[sid].rec.published == was.sessions[sid].rec.published
    ensures Untroubled(tail) ==> AnsweredIff(was.disk, sid, was.sessions[sid].rec, f, offset, body, code)
  {
    var r, published := was.sessions[sid].rec, w.sessions[sid].rec.published;
    RepliesTell(was.disk, sid, r, f, offset, body, tail, code, published);
    if Untroubled(tail) {
      UploadSucceedsIff(was.disk, sid, r, f, offset, body, tail, code, published);
    }
  }

  /** The search depends on the destinations alone. */
  lemma SamePlacement(
    d: Disk, d': Disk, r: Record, f: FileInfo, tries: seq<Try>, res: Option<Code>, published: map<string, Path>)
    requires SameDests(d, d') && (f.id in r.targets ==> r.targets[f.id].Dest?)
    requires PlacedAs(d', r, f, tries, res, published)
    ensures PlacedAs(d, r, f, tries, res, published)
  {
    forall k: nat ensures Stops(d, r, f, tries, k) <==> Stops(d', r, f, tries, k) {
      assert StaysAt(d, d', NameAt(r, f, k));
    }
    assert forall k: nat :: StopsFirst(d, r, f, tries, k) ==> StopsFirst(d', r, f, tries, k);
  }

  lemma FoundPlaces(
    was: World, b: World, c: World, sid: string, f: FileInfo, offset: nat, body: seq<BodyEvent>, tail: Tail,
    res: Option<Code>)
    requires ReceivedAs(was, b, sid, f, offset, body, tail, None) && Found(b, c, sid, tail.tries, res)
    requires var r := was.sessions[sid].rec; f.id in r.targets ==> r.targets[f.id].Dest?
    ensures Placed(res)
    ensures PlacedAs(was.disk, was.sessions[sid].rec, f, tail.tries, res, c.sessions[sid].rec.published)
  {
    SamePlacement(was.disk, b.disk, was.sessions[sid].rec, f, tail.tries, res, c.sessions[sid].rec.published);
  }

  /** The reply once the search is over and, if it was successful, the receipt is journalled. */
  lemma SearchReplies(
    was: World, b: World, c: World, w: World, sid: string, f: FileInfo, offset: nat, body: seq<BodyEvent>, tail: Tail,
    res: Option<Code>)
    requires ReceivedAs(was, b, sid, f, offset, body, tail, None) && Found(b, c, sid, tail.tries, res)
    requires sid in w.sessions && w.sessions[sid].rec == c.sessions[sid].rec
    requires var r := was.sessions[sid].rec; f.id in r.targets ==> r.targets[f.id].Dest?
    ensures var code := if res.Some? then res.value else if tail.commit.Stored? then 200 else 500;
            RepliedTo(was, w, sid, f, offset, body, tail, code)
  {
    FoundPlaces(was, b, c, sid, f, offset, body, tail, res);
    RepliesWhenPlaced(was.disk, sid, was.sessions[sid].rec, f, offset, body, tail, res, w.sessions[sid].rec.published);
  }

  lemma TargetIsDest(states: seq<World>, steps: seq<Step>, sid: string, f: FileInfo)
    requires IsRun(states, steps) && Initial(states[0]) && sid in states[|steps|].sessions
    requires f in states[|steps|].sessions[sid].rec.Files()
    ensures var r := states[|steps|].sessions[sid].rec; f.id in r.targets ==> r.targets[f.id].Dest?
  {
    RunKeepsInv(states, steps, |steps|);
    LocalAt(states[|steps|], sid);
  }

  predicate Holding(d: Disk, d': Disk, p: Path, more: Bytes) {
    Live(d, p) && Live(d', p) && At(d', p).bytes == At(d, p).bytes + more
  }

  /** The reply the body will get when it goes on with `rest`. */
  function Outcome(s: Session, rest: seq<BodyEvent>): Option<Code>
  {
    if s.job.Receiving? && s.job.offset <= s.job.file.size
    then BodyReply(s.fired, s.job.file.size - s.job.offset, rest) else None
  }

  lemma GoesOnTwice(a: World, b: World, c: World, sid: string, x: Bytes, y: Bytes)
    ensures GoesOn(a, b, sid, x) && GoesOn(b, c, sid, y) ==> GoesOn(a, c, sid, x + y)
  {
    ApartChain(a, b, c, sid);
    SameDestsChain(a.disk, b.disk, c.disk);
    if GoesOn(a, b, sid, x) && GoesOn(b, c, sid, y) {
      var p := Part(sid, a.sessions[sid].job.file.id);
      assert At(a.disk, p).bytes + x + y == At(a.disk, p).bytes + (x + y);
    }
  }

  lemma GoesOnThenEnds(a: World, b: World, c: World, sid: string, x: Bytes, job: Job, kept: bool)
    ensures GoesOn(a, b, sid, x) && EndsAs(b, c, sid, job, kept, []) ==> EndsAs(a, c, sid, job, kept, x)
  {
    ApartChain(a, b, c, sid);
    SameDestsChain(a.disk, b.disk, c.disk);
    if GoesOn(a, b, sid, x) && EndsAs(b, c, sid, job, kept, []) && kept {
      var p := Part(sid, a.sessions[sid].job.file.id);
      assert At(a.disk, p).bytes + x + [] == At(a.disk, p).bytes + x;
    }
  }

  /** The record of a new session: the registrant owns it, the user is shown its address and
      announcement, it is approved only if the sender is trusted, and nothing has happened. */
  predicate IsFresh(r: Record, m: Manifest, owner: string, sourceIp: string, trusted: bool, token: string) {
    && r.owner == owner && r.token == token && r.manifest == m
    && r.pending.id == m.request.transferId && r.pending.sourceIp == sourceIp
    && r.pending.senderName == m.request.senderName && r.pending.files == m.request.files
    && r.pending.totalSize == m.request.totalSize
    && r.decision == (if trusted then Accepted else Pending)
    && !r.cancelled && !r.complete && r.published == map[] && r.targets == map[]
  }

  class DurableStore {
    var disk: Disk
    var journal: map<string, Record>
    var sessions: map<string, Session>
    var completions: map<string, nat>
    var links: set<(string, string, Path)>
    ghost var states: seq<World>
    ghost var steps: seq<Step>

    function Now(): World
      reads this
    {
      World(disk, journal, sessions, completions, links)
    }

    /** The fields are the last state of a run of the step system. */
    ghost predicate Valid()
      reads this
    {
      IsRun(states, steps) && Initial(states[0]) && states[|steps|] == Now()
    }

    /** No upload holds a session's mutex. */
    predicate Quiet()
      reads this
    {
      forall sid :: sid in sessions ==> sessions[sid].job.Idle?
    }

    constructor (found: Disk)
      requires DiskOk(found) && forall p :: p in found.names ==> p.Dest? && Representable(p)
      ensures Valid() && Quiet() && disk == found && journal == map[] && sessions == map[]
    {
      disk, journal, sessions, completions, links := found, map[], map[], map[], {};
      states, steps := [World(found, map[], map[], map[], {})], [];
    }

    ghost method Log(step: Step)
      requires IsRun(states, steps) && Initial(states[0]) && Next(states[|steps|], step, Now())
      modifies this`states, this`steps
      ensures Valid() && states == old(states) + [Now()] && steps == old(steps) + [step]
      ensures Receives(step) ==> SameDests(old(states[|steps|].disk), disk)
    {
      states, steps := states + [Now()], steps + [step];
      LastKeepsDests(states, steps);
    }

    // -------------------------------------------------------------- registration and status

    /** The handler's reply to a session that exists, or a snapshot of a new one. */
    method Report(sid: string) returns (res: Result<ResumeStatus, Code>)
      requires Valid() && sid in sessions
      ensures res == Ok(Snapshot(disk, sid, sessions[sid].rec))
      ensures StatusOk(sessions[sid].rec.Files(), res.value)
    {
      var r := sessions[sid].rec;
      RegisteredFacts(states, steps, |steps|, sid);
      var points := Checkpoints(disk, sid, r);
      if points.Err? {
        assert false;
        return Err(500);
      }
      return Ok(ResumeStatus(r.decision, if r.decision == Accepted && !r.cancelled then Some(r.token) else None,
                             r.cancelled, r.complete, points.value));
    }

    /** Idempotent: the same owner and manifest get the session's report, anything else
        conflicts; a new session exists in memory only once it is in the journal. */
    method Register(
      m: Manifest, owner: string, sourceIp: string, trusted: bool, token: string, legacy: bool, io: Persist)
      returns (res: Result<ResumeStatus, Code>)
      requires Valid() && Quiet()
      modifies this
      ensures Valid() && Quiet() && old(states) <= states && old(steps) <= steps
      ensures var sid, was := m.request.transferId, old(Now());
              if !ValidManifest(m) then res == Err(400) && Now() == was
              else if legacy then res == Err(409) && Now() == was
              else if sid in was.sessions then
                && Now() == was
                && if was.sessions[sid].rec.owner == owner && was.sessions[sid].rec.manifest == m
                   then res == Ok(Snapshot(disk, sid, was.sessions[sid].rec)) else res == Err(409)
              else if |was.sessions| >= MAX_SESSIONS then res == Err(503) && Now() == was
              else
                && Now() == DoRegister(was, sid, NewRecord(m, owner, sourceIp, trusted, token), io)
                && if io.Stored? then res == Ok(Snapshot(disk, sid, NewRecord(m, owner, sourceIp, trusted, token)))
                   else res == Err(500)
      ensures var sid := m.request.transferId;
              res.Ok? && sid !in old(sessions) ==>
                && sid in sessions && sid in journal && journal[sid] == sessions[sid].rec
                && sessions[sid].job == Idle && !sessions[sid].fired && !sessions[sid].finished
                && IsFresh(sessions[sid].rec, m, owner, sourceIp, trusted, token)
    {
      var ok := Validate(m);
      if !ok {
        return Err(400);
      }
      if legacy {
        return Err(409);
      }
      var sid := m.request.transferId;
      if sid in sessions {
        var r := sessions[sid].rec;
        if r.owner != owner || r.manifest != m {
          return Err(409);
        }
        res := Report(sid);
        return;
      }
      if |sessions| >= MAX_SESSIONS {
        return Err(503);
      }
      var record := NewRecord(m, owner, sourceIp, trusted, token);
      journal := Save(journal, sid, record, io);
      if io.Stored? {
        sessions := sessions[sid := Session(record, false, false, Idle)];
        completions := completions[sid := 0];
      }
      TakesRegister(states[|steps|], m, owner, sourceIp, trusted, token, io);
      Log(Step.Register(m, owner, sourceIp, trusted, token, io));
      if io.Failed? {
        return Err(500);
      }
      res := Report(sid);
    }

    method Status(sid: string, owner: string) returns (res: Result<ResumeStatus, Code>)
      requires Valid()
      ensures res == if sid in sessions && sessions[sid].rec.owner == owner
                     then Ok(Snapshot(disk, sid, sessions[sid].rec)) else Err(404)
      ensures res.Ok? ==> StatusOk(sessions[sid].rec.Files(), res.value)
    {
      if sid !in sessions || sessions[sid].rec.owner != owner {
        return Err(404);
      }
      res := Report(sid);
    }

    // -------------------------------------------------------------- decisions

    /** The error accept_transfer answers with, if any. */
    function AcceptRefusal(sid: string): Option<Refusal>
      reads this
    {
      if sid !in sessions then Some(TransferNotFound)
      else if sessions[sid].rec.cancelled then Some(TransferCancelled)
      else if sessions[sid].rec.complete then Some(TransferNotFound)
      else if sessions[sid].rec.decision == Rejected then Some(TransferRejected)
      else None
    }

    method AcceptTransfer(sid: string, io: Persist) returns (res: Result<string, Refusal>)
      requires Valid() && Quiet()
      modifies this
      ensures Valid() && Quiet() && old(states) <= states && old(steps) <= steps
      ensures if old(AcceptRefusal(sid)).Some? then res == Err(old(AcceptRefusal(sid)).value) && Now() == old(Now())
              else
                var s := old(Now()).sessions[sid];
                && Now() == Persisted(old(Now()), sid, s.(rec := s.rec.(decision := Accepted)), io)
                && res == if io.Stored? then Ok(s.rec.token) else Err(Io)
    {
      if sid !in sessions {
        return Err(TransferNotFound);
      }
      var r := sessions[sid].rec;
      if r.cancelled {
        return Err(TransferCancelled);
      }
      if r.complete {
        return Err(TransferNotFound);
      }
      if r.decision == Rejected {
        return Err(TransferRejected);
      }
      r := r.(decision := Accepted);
      sessions := sessions[sid := sessions[sid].(rec := r)];
      journal := Save(journal, sid, r, io);
      NextMeans(states[|steps|], Accept(sid, io), Now());
      Log(Accept(sid, io));
      return if io.Stored? then Ok(r.token) else Err(Io);
    }

    method RejectTransfer(sid: string, io: Persist) returns (res: Result<(), Refusal>)
      requires Valid() && Quiet()
      modifies this
      ensures Valid() && Quiet() && old(states) <= states && old(steps) <= steps
      ensures if sid !in old(sessions) then res == Err(TransferNotFound) && Now() == old(Now())
              else if old(sessions[sid]).rec.decision != Pending then res == Err(InvalidConfig) && Now() == old(Now())
              else
                var s := old(sessions[sid]);
                && Now() == Persisted(old(Now()), sid, s.(rec := s.rec.(decision := Rejected)), io)
                && res == if io.Stored? then Ok(()) else Err(Io)
    {
      if sid !in sessions {
        return Err(TransferNotFound);
      }
      var r := sessions[sid].rec;
      if r.decision != Pending {
        return Err(InvalidConfig);
      }
      r := r.(decision := Rejected);
      sessions := sessions[sid := sessions[sid].(rec := r)];
      journal := Save(journal, sid, r, io);
      NextMeans(states[|steps|], Reject(sid, io), Now());
      Log(Reject(sid, io));
      return if io.Stored? then Ok(()) else Err(Io);
    }

    // -------------------------------------------------------------- cancelling and forgetting

    /** remove_file over the manifest, ignoring failures (`stuck` ids stay). */
    method RemoveParts(sid: string, files: seq<FileInfo>, stuck: set<string>) returns (ghost removed: set<string>)
      modifies this`disk
      ensures removed == Ids(files) - stuck && disk == Unlink(old(disk), Parts(sid, removed))
    {
      removed := {};
      UnlinkNone(disk, sid);
      for k := 0 to |files|
        invariant removed == Ids(files[..k]) - stuck
        invariant disk == Unlink(old(disk), Parts(sid, removed))
      {
        assert files[..k + 1] == files[..k] + [files[k]];
        assert Ids(files[..k + 1]) == Ids(files[..k]) + {files[k].id};
        if files[k].id !in stuck {
          UnlinkMore(old(disk), sid, removed, files[k].id);
          disk := Unlink(disk, {Part(sid, files[k].id)});
          removed := removed + {files[k].id};
        }
      }
      assert files[..|files|] == files;
    }

    /** Fires the token before it waits for the record; Ok from memory when cancelled
        already, and never Ok for a finished session. */
    method CancelTransfer(sid: string, io: Persist, stuck: set<string>) returns (res: Result<(), Refusal>)
      requires Valid() && Quiet()
      modifies this
      ensures Valid() && Quiet() && old(states) <= states && old(steps) <= steps
      ensures sid !in old(sessions) || old(sessions[sid]).finished || old(sessions[sid]).rec.complete
              ==> res == Err(TransferNotFound)
      ensures sid !in old(sessions) || old(sessions[sid]).finished ==> Now() == old(Now())
      ensures sid in old(sessions) && !old(sessions[sid]).finished ==>
                var s := old(sessions[sid]).(fired := true);
                && (s.rec.complete ==> Now() == Put(old(Now()), sid, s))
                && (!s.rec.complete && s.rec.cancelled ==> res == Ok(()) && Now() == Put(old(Now()), sid, s))
                && (!s.rec.complete && !s.rec.cancelled ==>
                      && res == (if io.Stored? then Ok(()) else Err(Io))
                      && Now() == DoCancel(Put(old(Now()), sid, s), sid, s, io, Ids(s.rec.Files()) - stuck))
    {
      if sid !in sessions || sessions[sid].finished {
        return Err(TransferNotFound);
      }
      Fire(sid);
      if sessions[sid].rec.complete {
        return Err(TransferNotFound);
      }
      if sessions[sid].rec.cancelled {
        return Ok(());
      }
      MarkCancelled(sid, io, stuck);
      return if io.Stored? then Ok(()) else Err(Io);
    }

    method MarkCancelled(sid: string, io: Persist, stuck: set<string>)
      requires Valid() && Quiet() && sid in sessions
      requires sessions[sid].fired && !sessions[sid].rec.complete && !sessions[sid].rec.cancelled
      modifies this
      ensures Valid() && Quiet() && old(states) <= states && old(steps) <= steps
      ensures Now() == DoCancel(old(Now()), sid, old(sessions[sid]), io, Ids(old(sessions[sid]).rec.Files()) - stuck)
    {
      var r := sessions[sid].rec.(cancelled := true);
      ghost var removed := Ids(r.Files()) - stuck;
      TakesCancel(Now(), sid, io, removed);
      sessions := sessions[sid := sessions[sid].(rec := r)];
      journal := Save(journal, sid, r, io);
      if io.Stored? {
        removed := RemoveParts(sid, r.Files(), stuck);
      }
      assert Now().sessions == DoCancel(old(Now()), sid, old(sessions[sid]), io, removed).sessions;
      Log(Cancel(sid, io, removed));
    }

    /** The cancellation token fires; no lock is needed. */
    method Fire(sid: string)
      requires Valid() && sid in sessions && !sessions[sid].finished
      modifies this
      ensures Valid() && Now() == Put(old(Now()), sid, old(sessions[sid]).(fired := true))
      ensures states == old(states) + [Now()] && steps == old(steps) + [FireCancel(sid)]
      ensures Apart(old(Now()), Now(), sid)
    {
      sessions := sessions[sid := sessions[sid].(fired := true)];
      NextMeans(states[|steps|], FireCancel(sid), Now());
      ApartBy(old(Now()), Now(), sid);
      Log(FireCancel(sid));
    }

    /** Only a terminal session can be forgotten; then nothing of it is left. */
    method ForgetTransfer(sid: string, unlinked: bool) returns (res: Result<(), Refusal>)
      requires Valid() && Quiet()
      modifies this
      ensures Valid() && Quiet() && old(states) <= states && old(steps) <= steps
      ensures if sid !in old(sessions) then res == Err(TransferNotFound) && Now() == old(Now())
              else if !Terminal(old(sessions[sid]).rec) then res == Err(InvalidConfig) && Now() == old(Now())
              else if unlinked then
                res == Ok(()) && Now() == DoForget(old(Now()), sid, Ids(old(sessions[sid]).rec.Files()))
              else
                && res == Err(Io)
                && Now() == Dropped(old(Now()), sid, old(sessions[sid]), Ids(old(sessions[sid]).rec.Files()))
    {
      if sid !in sessions {
        return Err(TransferNotFound);
      }
      var r := sessions[sid].rec;
      if !r.complete && !r.cancelled && r.decision != Rejected {
        return Err(InvalidConfig);
      }
      if !unlinked {
        DropParts(sid);
        return Err(Io);
      }
      DropSession(sid);
      return Ok(());
    }

    /** The partial files go, the journal file stays. */
    method DropParts(sid: string)
      requires Valid() && Quiet() && sid in sessions && Terminal(sessions[sid].rec)
      modifies this
      ensures Valid() && Quiet() && old(states) <= states && old(steps) <= steps
      ensures Now() == Dropped(old(Now()), sid, old(sessions[sid]), Ids(old(sessions[sid]).rec.Files()))
    {
      TakesForget(Now(), sid);
      ghost var removed := RemoveParts(sid, sessions[sid].rec.Files(), {});
      assert removed == Ids(old(sessions[sid]).rec.Files());
      assert sessions[sid := sessions[sid].(job := Idle)] == sessions;
      Log(ForgetParts(sid, removed));
    }

    method DropSession(sid: string)
      requires Valid() && Quiet() && sid in sessions && Terminal(sessions[sid].rec)
      modifies this
      ensures Valid() && Quiet() && old(states) <= states && old(steps) <= steps
      ensures Now() == DoForget(old(Now()), sid, Ids(old(sessions[sid]).rec.Files()))
    {
      TakesForget(Now(), sid);
      ghost var removed := RemoveParts(sid, sessions[sid].rec.Files(), {});
      assert removed == Ids(old(sessions[sid]).rec.Files());
      journal := journal - {sid};
      sessions := sessions - {sid};
      completions := completions - {sid};
      links := set l | l in links && l.0 != sid;
      Log(Forget(sid));
    }

    /** A crash, then load: memory is what the journal says, unsynced tails and names whose
        directory was not synced may be gone. */
    method CrashAndLoad(keep: map<Inode, nat>, lost: set<Path>)
      requires Valid() && CutOk(disk, keep) && lost <= disk.volatile
      modifies this
      ensures Valid() && Quiet() && old(states) <= states && old(steps) <= steps
      ensures journal == old(journal) && sessions == LoadAll(journal) && sessions.Keys == journal.Keys
      ensures forall sid :: sid in sessions ==>
                sessions[sid] == Session(journal[sid], journal[sid].cancelled, journal[sid].complete, Idle)
      ensures forall sid :: sid in sessions ==> Loadable(sid, sessions[sid].rec)
    {
      ghost var w' := TakesCrash(states, steps, keep, lost);
      JournalLoads(states, steps, |steps|);
      disk := Cut(disk, keep, lost);
      sessions := LoadAll(journal);
      links := set l | l in links && l.2 !in lost;
      Log(Crash(keep, lost));
    }

    // -------------------------------------------------------------- uploads

    /** The reply sent before the body is read, if any. */
    function EarlyReply(sid: string, owner: string, token: string, fileId: string, offset: nat): Option<Code>
      reads this
    {
      if sid !in sessions || sessions[sid].rec.owner != owner then Some(404)
      else
        var s := sessions[sid];
        if s.rec.cancelled || s.fired then Some(410)
        else if s.rec.decision != Accepted || token != s.rec.token then Some(401)
        else
          match FindFile(s.rec.Files(), fileId)
          case None => Some(404)
          case Some(f) =>
            if f.id in s.rec.published then Some(200)
            else if offset != Offset(disk, sid, s.rec, f) then Some(409)
            else None
    }

    /** The upload's body is read: the owner of an approved, live session resumes one of its
        files, not published yet, with the session's token, where its partial file ends. */
    predicate LetIn(sid: string, owner: string, token: string, f: FileInfo, offset: nat)
      reads this
    {
      && sid in sessions
      && var s := sessions[sid];
         && s.rec.owner == owner && s.rec.token == token && s.rec.decision == Accepted
         && !s.rec.cancelled && !s.fired && f in s.rec.Files() && f.id !in s.rec.published
         && offset == |PartBytes(disk, sid, f)|
    }

    /** One turn of the body loop; None when the body may go on. */
    method TakeEvent(sid: string, event: BodyEvent, unlinked: bool) returns (res: Option<Code>)
      requires Valid() && sid in sessions && sessions[sid].job.Receiving?
      modifies this
      ensures Valid() && old(states) <= states && old(steps) <= steps
      ensures if res.None? then GoesOn(old(Now()), Now(), sid, if event.Arrives? then event.bytes else [])
              else EndsAs(old(Now()), Now(), sid, Idle, res == Some(400), [])
      ensures var s := old(sessions[sid]);
              var room := s.job.file.size - s.job.offset;
              && s.job.offset <= s.job.file.size && res == EventReply(s.fired, room, event)
              && (res.None? ==> sessions[sid].fired == event.Fires? && sessions[sid].job.Receiving?
                                && s.job.file.size - sessions[sid].job.offset == Left(room, event))
      ensures res == Some(410) ==> sessions[sid].fired
    {
      var job := sessions[sid].job;
      ReceivingFacts(states, steps, sid);
      if sessions[sid].fired {
        Drop(sid, Abort(sid, unlinked));
        return Some(410);
      }
      match event
      case Fires =>
        UploadingIsUnfinished(states, steps, sid);
        Fire(sid);
        return None;
      case Breaks =>
        EndReceiving(sid, Interrupt(sid));
        return Some(400);
      case Arrives(bytes) =>
        if |bytes| > job.file.size - job.offset {
          Drop(sid, Oversize(sid, bytes, unlinked));
          return Some(413);
        }
        Write(sid, bytes, false);
        return None;
      case Tears(bytes) =>
        if |bytes| > job.file.size - job.offset {
          Drop(sid, Oversize(sid, bytes, unlinked));
          return Some(413);
        }
        Write(sid, bytes, true);
        return Some(500);
    }

    /** The body loop.  None: the whole file is in its partial file, synced.  Whenever the
        sender is told to resume, exactly the chunks that arrived have been kept. */
    method ReceiveBody(sid: string, body: seq<BodyEvent>, unlinked: bool)
      returns (res: Option<Code>, ghost taken: nat)
      requires Valid() && sid in sessions && sessions[sid].job.Receiving?
      modifies this
      ensures Valid() && old(states) <= states && old(steps) <= steps
      ensures taken <= |body| && (res.None? ==> taken == |body|)
      ensures EndsAs(old(Now()), Now(), sid, if res.None? then Received(old(sessions[sid]).job.file) else Idle,
                     res.None? || res == Some(400), Joined(body[..taken]))
      ensures res == Some(410) ==> sessions[sid].fired
      ensures res.None? ==> !sessions[sid].fired
      ensures var s := old(sessions[sid]);
              s.job.offset <= s.job.file.size && res == BodyReply(s.fired, s.job.file.size - s.job.offset, body)
    {
      ghost var was := Now();
      ReceivingFacts(states, steps, sid);
      taken := 0;
      ApartBy(was, was, sid);
      for i := 0 to |body|
        invariant taken == i && Valid() && old(states) <= states && old(steps) <= steps
        invariant GoesOn(was, Now(), sid, Joined(body[..i]))
        invariant Outcome(sessions[sid], body[i..]) == Outcome(was.sessions[sid], body)
      {
        assert body[..i + 1] == body[..i] + [body[i]];
        ghost var before := Now();
        var one := TakeEvent(sid, body[i], unlinked);
        if one.Some? {
          GoesOnThenEnds(was, before, Now(), sid, Joined(body[..i]), Idle, one == Some(400));
          return one, taken;
        }
        GoesOnTwice(was, before, Now(), sid, Joined(body[..i]), if body[i].Arrives? then body[i].bytes else []);
        taken := taken + 1;
      }
      assert body[..|body|] == body;
      ghost var before := Now();
      res := EndOfBody(sid, unlinked);
      GoesOnThenEnds(was, before, Now(), sid, Joined(body),
                     if res.None? then Received(was.sessions[sid].job.file) else Idle, res.None? || res == Some(400));
    }

    method EndOfBody(sid: string, unlinked: bool) returns (res: Option<Code>)
      requires Valid() && sid in sessions && sessions[sid].job.Receiving?
      modifies this
      ensures Valid() && old(states) <= states && old(steps) <= steps
      ensures EndsAs(old(Now()), Now(), sid, if res.None? then Received(old(sessions[sid]).job.file) else Idle,
                     res.None? || res == Some(400), [])
      ensures var s := old(sessions[sid]);
              s.job.offset <= s.job.file.size && res == BodyReply(s.fired, s.job.file.size - s.job.offset, [])
      ensures sessions[sid].fired <==> res == Some(410)
    {
      var job := sessions[sid].job;
      ReceivingFacts(states, steps, sid);
      if sessions[sid].fired {
        Drop(sid, Abort(sid, unlinked));
        return Some(410);
      }
      EndReceiving(sid, EndBody(sid));
      return if job.offset == job.file.size then None else Some(400);
    }

    /** write_all of one chunk, whole or torn. */
    method Write(sid: string, bytes: Bytes, torn: bool)
      requires Valid() && sid in sessions && sessions[sid].job.Receiving? && sessions[sid].job.fd in disk.files
      requires sessions[sid].job.offset + |bytes| <= sessions[sid].job.file.size
      modifies this
      ensures Valid() && old(states) <= states && old(steps) <= steps
      ensures Now() == DoAppend(old(Now()), sid, old(sessions[sid]), bytes, torn)
      ensures Apart(old(Now()), Now(), sid) && SameDests(old(disk), disk)
    {
      var s := sessions[sid];
      TakesAppend(Now(), sid, bytes, torn);
      disk := Append(disk, s.job.fd, bytes);
      sessions := sessions[sid := s.(job := if torn then Idle else s.job.(offset := s.job.offset + |bytes|))];
      ApartBy(old(Now()), Now(), sid);
      Log(if torn then TornChunk(sid, bytes) else Chunk(sid, bytes));
    }

    /** Sync and close the partial file, at the end of the body or when it breaks. */
    method EndReceiving(sid: string, step: Step)
      requires Valid() && sid in sessions && sessions[sid].job.Receiving? && sessions[sid].job.fd in disk.files
      requires step == Interrupt(sid) || step == EndBody(sid)
      modifies this
      ensures Valid() && old(states) <= states && old(steps) <= steps
      ensures Now() == DoSync(old(Now()), sid, old(sessions[sid]), step.EndBody?)
      ensures Apart(old(Now()), Now(), sid) && SameDests(old(disk), disk)
    {
      var s := sessions[sid];
      TakesSync(Now(), sid);
      disk := Sync(disk, s.job.fd);
      var next := if step.EndBody? && s.job.offset == s.job.file.size then Received(s.job.file) else Idle;
      sessions := sessions[sid := s.(job := next)];
      ApartBy(old(Now()), Now(), sid);
      Log(step);
    }

    /** Remove the partial file, if that works, and end the upload. */
    method Drop(sid: string, step: Step)
      requires Valid() && sid in sessions && (step.Abort? || step.Discard? || step.Oversize?) && step.sid == sid
      requires var s := sessions[sid];
               if step.Abort? then (s.job.Receiving? || s.job.Received?) && s.fired
               else if step.Discard? then
                 s.job.Received? && !Holds(disk, Part(sid, s.job.file.id), s.rec.manifest, s.job.file)
               else s.job.Receiving? && s.job.offset + |step.bytes| > s.job.file.size
      modifies this
      ensures Valid() && old(states) <= states && old(steps) <= steps
      ensures Now() == DoDrop(old(Now()), sid, old(sessions[sid]), step.unlinked)
      ensures Apart(old(Now()), Now(), sid) && SameDests(old(disk), disk)
    {
      var s := sessions[sid];
      TakesDrop(Now(), sid, step);
      ghost var gone := if step.unlinked then {s.job.file.id} else {};
      assert Parts(sid, gone) == if step.unlinked then {Part(sid, s.job.file.id)} else {};
      disk := Unlink(disk, if step.unlinked then {Part(sid, s.job.file.id)} else {});
      sessions := sessions[sid := s.(job := Idle)];
      ApartBy(old(Now()), Now(), sid);
      Log(step);
    }

    /** An early return that keeps the partial file. */
    method GiveUp(sid: string)
      requires Valid() && sid in sessions && !sessions[sid].job.Idle?
      modifies this
      ensures Valid() && old(states) <= states && old(steps) <= steps
      ensures Now() == Put(old(Now()), sid, old(sessions[sid]).(job := Idle))
      ensures Apart(old(Now()), Now(), sid)
    {
      TakesAbandon(Now(), sid);
      sessions := sessions[sid := sessions[sid].(job := Idle)];
      ApartBy(old(Now()), Now(), sid);
      Log(Abandon(sid));
    }

    /** Check the digest, the token and the destination before anything is published. */
    method CheckReceived(sid: string, tail: Tail) returns (res: Option<Code>)
      requires Valid() && sid in sessions && sessions[sid].job.Received?
      modifies this
      ensures Valid() && old(states) <= states && old(steps) <= steps
      ensures Apart(old(Now()), Now(), sid) && sid in sessions && sessions[sid].rec == old(sessions[sid]).rec
      ensures journal == old(journal)
      ensures sessions[sid].job == if res.None? then Choosing(old(sessions[sid]).job.file, 0) else Idle
      ensures var s := old(sessions[sid]);
              res == if !Holds(old(disk), Part(sid, s.job.file.id), s.rec.manifest, s.job.file) then Some(422)
                     else if s.fired || tail.fires then Some(410)
                     else if Paths.ReservedTarget(Render(TargetName(s.job.file, 0))) then Some(400)
                     else if tail.parentFails then Some(500)
                     else None
      ensures res.None? ==> !sessions[sid].fired && disk == old(disk)
      ensures res == Some(410) ==> sessions[sid].fired
      ensures SameDests(old(disk), disk)
    {
      var s := sessions[sid];
      var f := s.job.file;
      if !Holds(disk, Part(sid, f.id), s.rec.manifest, f) {
        Drop(sid, Discard(sid, tail.unlinked));
        return Some(422);
      }
      ApartBy(Now(), Now(), sid);
      ghost var was := Now();
      if tail.fires {
        UploadingIsUnfinished(states, steps, sid);
        Fire(sid);
      }
      ghost var before := Now();
      if sessions[sid].fired {
        Drop(sid, Abort(sid, tail.unlinked));
        ApartChain(was, before, Now(), sid);
        return Some(410);
      }
      if Paths.ReservedTarget(Render(TargetName(f, 0))) || tail.parentFails {
        var code := if Paths.ReservedTarget(Render(TargetName(f, 0))) then 400 else 500;
        GiveUp(sid);
        ApartChain(was, before, Now(), sid);
        return Some(code);
      }
      TakesVerify(Now(), sid);
      sessions := sessions[sid := sessions[sid].(job := Choosing(f, 0))];
      ApartBy(before, Now(), sid);
      Log(Verify(sid));
      ApartChain(was, before, Now(), sid);
      return None;
    }

    /** Record the target in memory and in the journal before it is linked. */
    method RecordTarget(sid: string, io: Persist)
      requires Valid() && sid in sessions && sessions[sid].job.Choosing?
      requires sessions[sid].job.index < Paths.MAX_CANDIDATES
      modifies this
      ensures Valid() && old(states) <= states && steps == old(steps) + [Choose(sid, io)]
      ensures sid in sessions && (if io.Stored? then sessions[sid].job.Journalled? else sessions[sid].job == Idle)
      ensures Apart(old(Now()), Now(), sid)
      ensures Recorded(old(Now()), Now(), sid, io)
    {
      var s := sessions[sid];
      TakesChoose(Now(), sid, io);
      var target := NextTarget(s.rec, s.job.file, s.job.index);
      var r := s.rec.(targets := s.rec.targets[s.job.file.id := target]);
      var job := if io.Stored? then Journalled(s.job.file, s.job.index, target) else Idle;
      sessions := sessions[sid := s.(rec := r, job := job)];
      journal := Save(journal, sid, r, io);
      ApartBy(old(Now()), Now(), sid);
      Log(Choose(sid, io));
    }

    /** hard_link, adopting an occupied target that already holds the file. */
    method LinkTarget(sid: string, readable: bool) returns (linked: bool)
      requires Valid() && sid in sessions && sessions[sid].job.Journalled?
      modifies this
      ensures Valid() && old(states) <= states && steps == old(steps) + [Link(sid, readable)]
      ensures sid in sessions && Apart(old(Now()), Now(), sid)
      ensures Met(old(Now()), Now(), sid, readable, linked)
    {
      if sessions[sid].job.target !in disk.names {
        LinkFree(sid, readable);
        return true;
      }
      linked := MeetTarget(sid, readable);
    }

    /** link(2) to a free name. */
    method LinkFree(sid: string, readable: bool)
      requires Valid() && sid in sessions && sessions[sid].job.Journalled? && sessions[sid].job.target !in disk.names
      modifies this
      ensures Valid() && old(states) <= states && steps == old(steps) + [Link(sid, readable)]
      ensures sid in sessions && sessions[sid].rec == old(sessions[sid]).rec
      ensures sessions[sid].job == Linked(old(sessions[sid]).job.file, old(sessions[sid]).job.target)
      ensures Apart(old(Now()), Now(), sid)
    {
      var s := sessions[sid];
      var f, target := s.job.file, s.job.target;
      PublishingFacts(states, steps, sid);
      TakesLink(Now(), sid, readable);
      disk := HardLink(disk, Part(sid, f.id), target);
      links := links + {(sid, f.id, target)};
      sessions := sessions[sid := s.(job := Linked(f, target))];
      ApartBy(old(Now()), Now(), sid);
      Log(Link(sid, readable));
    }

    /** The name is taken: adopt the file there, or forget this target and try the next. */
    method MeetTarget(sid: string, readable: bool) returns (linked: bool)
      requires Valid() && sid in sessions && sessions[sid].job.Journalled? && sessions[sid].job.target in disk.names
      modifies this
      ensures Valid() && old(states) <= states && steps == old(steps) + [Link(sid, readable)]
      ensures sid in sessions && Apart(old(Now()), Now(), sid)
      ensures Met(old(Now()), Now(), sid, readable, linked)
    {
      var s := sessions[sid];
      var f, target := s.job.file, s.job.target;
      PublishingFacts(states, steps, sid);
      TakesLink(Now(), sid, readable);
      linked := readable && Holds(disk, target, s.rec.manifest, f);
      var next := if linked then s.(job := Linked(f, target))
                  else s.(rec := s.rec.(targets := s.rec.targets - {f.id}), job := Choosing(f, s.job.index + 1));
      sessions := sessions[sid := next];
      ApartBy(old(Now()), Now(), sid);
      Log(Link(sid, readable));
    }

    /** Sync the destination's directory, then publish in memory. */
    method PublishLinked(sid: string)
      requires Valid() && sid in sessions && sessions[sid].job.Linked?
      modifies this
      ensures Valid() && old(states) <= states && steps == old(steps) + [SyncParent(sid)]
      ensures sid in sessions && sessions[sid].job == Published(old(sessions[sid]).job.file)
      ensures var s := old(sessions[sid]);
              sessions[sid].rec.published == s.rec.published[s.job.file.id := s.job.target]
      ensures Apart(old(Now()), Now(), sid)
    {
      var s := sessions[sid];
      TakesSyncParent(Now(), sid);
      disk := SyncDir(disk, Paths.TargetDir(Place(s.job.file)));
      var published := s.rec.published[s.job.file.id := s.job.target];
      var r := s.rec.(published := published, complete := |published| == |s.rec.Files()|);
      sessions := sessions[sid := s.(rec := r, job := Published(s.job.file))];
      ApartBy(old(Now()), Now(), sid);
      Log(SyncParent(sid));
    }

    /** Record the next candidate and link it; `linked` may be false without an error. */
    method ClaimName(sid: string, try: Try) returns (res: Option<Code>, linked: bool)
      requires Valid() && sid in sessions && sessions[sid].job.Choosing?
      requires sessions[sid].job.index < Paths.MAX_CANDIDATES
      modifies this
      ensures Valid() && old(states) <= states && old(steps) <= steps
      ensures Apart(old(Now()), Now(), sid) && sid in sessions
      ensures Claimed(old(Now()), Now(), sid, try, res, linked)
    {
      ghost var was := Now();
      RecordTarget(sid, try.io);
      ghost var before := Now();
      if try.io.Failed? {
        ClaimFails(was, before, before, sid, try);
        return Some(500), false;
      }
      if try.linkFails {
        GiveUp(sid);
        ApartChain(was, before, Now(), sid);
        ClaimFails(was, before, Now(), sid, try);
        return Some(500), false;
      }
      linked := LinkTarget(sid, try.readable);
      ApartChain(was, before, Now(), sid);
      ClaimMeets(was, before, Now(), sid, try, linked);
      return None, linked;
    }

    /** The token may fire while the file is being published. */
    method MayFire(sid: string, fires: bool)
      requires Valid() && sid in sessions && sessions[sid].job.Choosing?
      modifies this
      ensures Valid() && old(states) <= states && old(steps) <= steps
      ensures Apart(old(Now()), Now(), sid) && sid in sessions
      ensures sessions[sid] == old(sessions[sid]).(fired := old(sessions[sid]).fired || fires) && disk == old(disk)
    {
      ApartBy(Now(), Now(), sid);
      if fires {
        UploadingIsUnfinished(states, steps, sid);
        Fire(sid);
      }
    }

    /** One turn of the loop over candidate names. */
    method TryName(sid: string, try: Try) returns (res: Option<Code>, placed: bool)
      requires Valid() && sid in sessions && sessions[sid].job.Choosing?
      requires sessions[sid].job.index < Paths.MAX_CANDIDATES
      modifies this
      ensures Valid() && old(states) <= states && old(steps) <= steps
      ensures Apart(old(Now()), Now(), sid) && sid in sessions
      ensures Tried(old(Now()), Now(), sid, try, res, placed)
    {
      ghost var was := Now();
      MayFire(sid, try.fires);
      ghost var before := Now();
      var linked;
      res, linked := ClaimName(sid, try);
      ghost var claimed := Now();
      ApartChain(was, before, claimed, sid);
      FiredIsSame(was, before, claimed, sid, try, res, linked);
      if !linked {
        TakenOrFailed(was, claimed, sid, try, res);
        return res, false;
      }
      if try.syncFails {
        GiveUp(sid);
        ApartChain(was, claimed, Now(), sid);
        ClaimedOrNot(was, claimed, Now(), sid, try);
        return Some(500), false;
      }
      PublishLinked(sid);
      ApartChain(was, claimed, Now(), sid);
      ClaimedOrNot(was, claimed, Now(), sid, try);
      return None, true;
    }

    /** The loop over a thousand candidate names. */
    method PublishFile(sid: string, tries: seq<Try>) returns (res: Option<Code>)
      requires Valid() && sid in sessions && sessions[sid].job.Choosing? && sessions[sid].job.index == 0
      modifies this
      ensures Valid() && old(states) <= states && old(steps) <= steps
      ensures Apart(old(Now()), Now(), sid) && sid in sessions
      ensures Found(old(Now()), Now(), sid, tries, res)
    {
      ghost var was := Now();
      ApartBy(was, was, sid);
      for index := 0 to Paths.MAX_CANDIDATES
        invariant Valid() && old(states) <= states && old(steps) <= steps
        invariant Searching(was, Now(), sid, tries, index)
      {
        ghost var before := Now();
        var one, placed := TryName(sid, TryAt(tries, index));
        SearchGoesOn(was, before, Now(), sid, tries, index, one, placed);
        if one.Some? || placed {
          return one;
        }
      }
      ghost var before := Now();
      GiveUp(sid);
      SearchFails(was, before, Now(), sid, tries);
      return Some(409);
    }

    /** The receipt: journal, completion flag, then the partial file goes. */
    method CommitFile(sid: string, io: Persist, unlinked: bool) returns (code: Code)
      requires Valid() && sid in sessions && sessions[sid].job.Published?
      modifies this
      ensures Valid() && old(states) <= states && old(steps) <= steps
      ensures Apart(old(Now()), Now(), sid) && sid in sessions && sid in journal
      ensures sessions[sid].job.Idle? && sessions[sid].rec == old(sessions[sid]).rec
      ensures code == if io.Stored? then 200 else 500
      ensures code == 200 ==> journal[sid] == sessions[sid].rec && sessions[sid].finished == sessions[sid].rec.complete
    {
      ghost var was := Now();
      var s := sessions[sid];
      IsJournalled(states, steps, sid);
      TakesCommit(Now(), sid, io);
      journal := Save(journal, sid, s.rec, io);
      if io.Failed? {
        sessions := sessions[sid := s.(job := Idle)];
        ApartBy(was, Now(), sid);
        Log(Commit(sid, io));
        return 500;
      }
      sessions := sessions[sid := s.(finished := s.rec.complete, job := Committed(s.job.file))];
      ApartBy(was, Now(), sid);
      Log(Commit(sid, io));
      ghost var before := Now();
      RemoveReceipted(sid, unlinked);
      ApartChain(was, before, Now(), sid);
      return 200;
    }

    method RemoveReceipted(sid: string, unlinked: bool)
      requires Valid() && sid in sessions && sessions[sid].job.Committed?
      modifies this
      ensures Valid() && old(states) <= states && old(steps) <= steps
      ensures Now() == DoFinish(old(Now()), sid, old(sessions[sid]), unlinked)
      ensures Apart(old(Now()), Now(), sid)
    {
      var s := sessions[sid];
      var f := s.job.file;
      TakesFinish(Now(), sid, unlinked);
      ghost var gone := if unlinked then {f.id} else {};
      assert Parts(sid, gone) == if unlinked then {Part(sid, f.id)} else {};
      disk := Unlink(disk, if unlinked then {Part(sid, f.id)} else {});
      sessions := sessions[sid := s.(job := Idle)];
      if s.rec.complete {
        completions := completions[sid := (if sid in completions then completions[sid] else 0) + 1];
      }
      ApartBy(old(Now()), Now(), sid);
      Log(Finish(sid, unlinked));
    }

    // -------------------------------------------------------------- the upload handler

    /** Open the partial file where the sender wants to resume. */
    method OpenPart(sid: string, f: FileInfo, offset: nat)
      requires Valid() && sid in sessions && f in sessions[sid].rec.Files() && f.id !in sessions[sid].rec.published
      requires var s := sessions[sid]; s.job.Idle? && !s.rec.cancelled && !s.fired && s.rec.decision == Accepted
      requires offset == Offset(disk, sid, sessions[sid].rec, f)
      modifies this
      ensures Valid() && old(states) <= states && steps == old(steps) + [Begin(sid, f, offset)]
      ensures Now() == DoBegin(old(Now()), sid, old(sessions[sid]), f)
      ensures Apart(old(Now()), Now(), sid) && Opened(old(Now()), Now(), sid, f, offset)
    {
      var s := sessions[sid];
      TakesBegin(Now(), sid, f, offset);
      RegisteredFacts(states, steps, |steps|, sid);
      var points := Checkpoints(disk, sid, s.rec);
      DistinctFiles(states, steps, sid);
      PointOfFile(disk, sid, s.rec, s.rec.Files(), f);
      PointSumIsOffsetSum(disk, sid, s.rec, s.rec.Files());
      var current := FindPoint(points.value, f.id).value.offset;
      var baseline := PointSum(points.value);
      disk := OpenAppend(disk, Part(sid, f.id));
      sessions := sessions[sid := s.(job := Receiving(f, disk.names[Part(sid, f.id)], current, baseline, current))];
      ApartBy(old(Now()), Now(), sid);
      Log(Begin(sid, f, offset));
      BeginOpens(old(states), old(steps), sid, f, Now());
    }

    /** From the request to a verified partial file. */
    method ReceiveFile(
      sid: string, f: FileInfo, offset: nat, body: seq<BodyEvent>, tail: Tail)
      returns (res: Option<Code>)
      requires Valid() && sid in sessions && f in sessions[sid].rec.Files() && f.id !in sessions[sid].rec.published
      requires var s := sessions[sid]; s.job.Idle? && !s.rec.cancelled && !s.fired && s.rec.decision == Accepted
      requires offset == Offset(disk, sid, sessions[sid].rec, f)
      modifies this
      ensures Valid() && old(states) <= states && old(steps) <= steps
      ensures Apart(old(Now()), Now(), sid) && sid in sessions && journal == old(journal)
      ensures ReceivedAs(old(Now()), Now(), sid, f, offset, body, tail, res)
    {
      ghost var was := Now();
      OpenPart(sid, f, offset);
      ghost var begun := Now();
      ghost var taken;
      res, taken := ReceiveBody(sid, body, tail.unlinked);
      ApartChain(was, begun, Now(), sid);
      SameDestsChain(was.disk, begun.disk, disk);
      if res.None? {
        assert body[..|body|] == body;
        ghost var read := Now();
        BodyLeaves(was, begun, read, sid, f, offset, body);
        res := CheckReceived(sid, tail);
        ApartChain(was, read, Now(), sid);
        SameDestsChain(was.disk, read.disk, disk);
      }
    }

    /** From a verified partial file to the receipt. */
    method PublishAndCommit(sid: string, tail: Tail) returns (code: Code, ghost found: World, ghost res: Option<Code>)
      requires Valid() && sid in sessions && sessions[sid].job.Choosing? && sessions[sid].job.index == 0
      modifies this
      ensures Valid() && old(states) <= states && old(steps) <= steps
      ensures Apart(old(Now()), Now(), sid) && sid in sessions && sid in journal && sessions[sid].job.Idle?
      ensures Found(old(Now()), found, sid, tail.tries, res) && sessions[sid].rec == found.sessions[sid].rec
      ensures code == if res.Some? then res.value else if tail.commit.Stored? then 200 else 500
      ensures code == 200 ==> journal[sid] == sessions[sid].rec && sessions[sid].finished == sessions[sid].rec.complete
    {
      ghost var was := Now();
      var refused := PublishFile(sid, tail.tries);
      found, res := Now(), refused;
      IsJournalled(states, steps, sid);
      if refused.Some? {
        return refused.value, found, res;
      }
      code := CommitFile(sid, tail.commit, tail.unlinked);
      ApartChain(was, found, Now(), sid);
    }

    /** Everything after the early replies. */
    method ReceiveAndPublish(
      sid: string, f: FileInfo, offset: nat, body: seq<BodyEvent>, tail: Tail)
      returns (code: Code)
      requires Valid() && sid in sessions && f in sessions[sid].rec.Files() && f.id !in sessions[sid].rec.published
      requires var s := sessions[sid]; s.job.Idle? && !s.rec.cancelled && !s.fired && s.rec.decision == Accepted
      requires offset == Offset(disk, sid, sessions[sid].rec, f)
      modifies this
      ensures Valid() && old(states) <= states && old(steps) <= steps
      ensures Apart(old(Now()), Now(), sid) && sid in sessions && sid in journal && sessions[sid].job.Idle?
      ensures code == 200 ==> journal[sid] == sessions[sid].rec && sessions[sid].finished == sessions[sid].rec.complete
      ensures code in {400, 410, 413, 422} ==> sessions[sid].rec == old(sessions[sid]).rec && journal == old(journal)
      ensures RepliedTo(old(Now()), Now(), sid, f, offset, body, tail, code)
    {
      ghost var was := Now();
      TargetIsDest(states, steps, sid, f);
      var res := ReceiveFile(sid, f, offset, body, tail);
      IsJournalled(states, steps, sid);
      ghost var received := Now();
      if res.Some? {
        RefusalReplies(was, received, sid, f, offset, body, tail, res);
        return res.value;
      }
      ghost var found, placed;
      code, found, placed := PublishAndCommit(sid, tail);
      ApartChain(was, received, Now(), sid);
      SearchReplies(was, received, found, Now(), sid, f, offset, body, tail, placed);
    }

    /** The upload handler.  Refused requests change nothing.  Ok after a body means the file is
        published in memory and in the journal; the early Ok for a file published before
        speaks for memory alone, which after a failed commit is ahead of the journal.  A
        reply that asks the sender to resume, or to give up, has published nothing. */
    method Upload(
      sid: string, owner: string, token: string, fileId: string, offset: nat, body: seq<BodyEvent>, tail: Tail)
      returns (code: Code)
      requires Valid() && Quiet()
      modifies this
      ensures Valid() && Quiet() && old(states) <= states && old(steps) <= steps
      ensures old(EarlyReply(sid, owner, token, fileId, offset)).Some? ==>
                code == old(EarlyReply(sid, owner, token, fileId, offset)).value && Now() == old(Now())
      ensures code == 200 ==> sid in sessions && fileId in sessions[sid].rec.published
      ensures old(EarlyReply(sid, owner, token, fileId, offset)).None? ==>
                && sid in sessions && sid in journal && OthersSame(old(Now()), Now(), sid)
                && (code == 200 ==> fileId in sessions[sid].rec.published && journal[sid] == sessions[sid].rec)
                && (code == 200 ==> sessions[sid].finished == sessions[sid].rec.complete)
                && (code != 200 && code != 500 ==> sessions[sid].rec.published == old(sessions[sid]).rec.published)
                && (code in {400, 410, 413, 422} ==>
                      sessions[sid].rec == old(sessions[sid]).rec && journal == old(journal))
                && code in {200, 400, 409, 410, 413, 422, 500}
      ensures forall f: FileInfo :: f.id == fileId && old(LetIn(sid, owner, token, f, offset)) ==>
                RepliedTo(old(Now()), Now(), sid, f, offset, body, tail, code)
      ensures forall f: FileInfo :: f.id == fileId && old(LetIn(sid, owner, token, f, offset)) && Untroubled(tail) ==>
                AnsweredIff(old(disk), sid, old(sessions[sid]).rec, f, offset, body, code)
    {
      if sid !in sessions || sessions[sid].rec.owner != owner {
        return 404;
      }
      var s := sessions[sid];
      if s.rec.cancelled || s.fired {
        return 410;
      }
      if s.rec.decision != Accepted || token != s.rec.token {
        return 401;
      }
      var file := FindFile(s.rec.Files(), fileId);
      if file.None? {
        return 404;
      }
      var f := file.value;
      if f.id in s.rec.published {
        return 200;
      }
      var current := CurrentOffset(sid, f);
      if offset != current {
        return 409;
      }
      DistinctFiles(states, steps, sid);
      code := ReceiveAndPublish(sid, f, offset, body, tail);
      ApartMeans(old(Now()), Now(), sid);
      ReplyTells(old(Now()), Now(), sid, f, offset, body, tail, code);
      forall g | g in s.rec.Files() && g.id == fileId ensures g == f {
        SameFile(s.rec.Files(), f, g);
      }
    }

    /** The offset of one file, read from the whole list of checkpoints. */
    method CurrentOffset(sid: string, f: FileInfo) returns (current: nat)
      requires Valid() && sid in sessions && f in sessions[sid].rec.Files()
      ensures current == Offset(disk, sid, sessions[sid].rec, f)
    {
      var r := sessions[sid].rec;
      RegisteredFacts(states, steps, |steps|, sid);
      var points := Checkpoints(disk, sid, r);
      DistinctFiles(states, steps, sid);
      PointOfFile(disk, sid, r, r.Files(), f);
      current := FindPoint(points.value, f.id).value.offset;
    }
  }
}
