/** Resuming against an honest sender: partial files are prefixes of the source, nothing
    received is thrown away, and durable offsets never go back. */
module DurableResume {
  import opened Wrappers
  import opened Manifests
  import opened Disks
  import opened Durable
  import opened DurableInvariant
  import opened DurableSteps
  import opened DurableRuns
  import opened DurableSafety
  import opened DurableLifecycle
  import opened DurableProgress

  // ---------------------------------------------------------------- honest senders

  /** The manifest declares the size and digest of these very bytes. */
  ghost predicate Describes(m: Manifest, src: map<string, Bytes>) {
    forall f :: f in m.request.files ==>
      f.id in src && |src[f.id]| == f.size && f.id in m.sha256 && m.sha256[f.id] == Sha256(src[f.id])
  }

  predicate Segment(src: map<string, Bytes>, id: string, offset: nat, bytes: Bytes) {
    id in src && offset + |bytes| <= |src[id]| && bytes == src[id][offset..offset + |bytes|]
  }

  /** An upload request: the file, the offset it asks for, and what has arrived of its body. */
  datatype Intake = Intake(id: string, offset: nat, bytes: Bytes)

  /** The session's last upload request before step k. */
  function LastUpload(steps: seq<Step>, k: nat, sid: string): Option<Intake>
    requires k <= |steps|
  {
    if k == 0 then None
    else
      var u := LastUpload(steps, k - 1, sid);
      match steps[k - 1]
      case Begin(actor, f, offset) => if actor == sid then Some(Intake(f.id, offset, [])) else u
      case Chunk(actor, bytes) => if actor == sid && u.Some? then Some(u.value.(bytes := u.value.bytes + bytes)) else u
      case _ => u
  }

  ghost predicate BodyFollows(steps: seq<Step>, k: nat, sid: string, bytes: Bytes, src: map<string, Bytes>)
    requires k <= |steps|
  {
    var u := LastUpload(steps, k, sid);
    u.Some? ==> Segment(src, u.value.id, u.value.offset + |u.value.bytes|, bytes)
  }

  ghost predicate HonestStep(steps: seq<Step>, k: nat, sid: string, src: map<string, Bytes>)
    requires k < |steps|
  {
    match steps[k]
    case Register(m, _, _, _, _, _) => m.request.transferId == sid ==> Describes(m, src)
    case Chunk(actor, bytes) => actor == sid ==> BodyFollows(steps, k, sid, bytes, src)
    case TornChunk(actor, bytes) => actor == sid ==> BodyFollows(steps, k, sid, bytes, src)
    case Oversize(actor, bytes, _) => actor == sid ==> BodyFollows(steps, k, sid, bytes, src)
    case _ => true
  }

  /** The session's sender described its sources truly and sends, in every upload, the bytes
      of the source from the offset on that its own request names, however stale the report
      which that offset was taken from. */
  ghost predicate Honest(steps: seq<Step>, sid: string, src: map<string, Bytes>) {
    forall k: nat :: k < |steps| ==> HonestStep(steps, k, sid, src)
  }

  /** What the step registers or receives for the session continues what the receiver has:
      it describes the sources truly, or is the next segment of the source. */
  ghost predicate Sends(w: World, step: Step, sid: string, src: map<string, Bytes>) {
    match step
    case Register(m, _, _, _, _, _) => m.request.transferId == sid ==> Describes(m, src)
    case Chunk(_, _) => SendsFrom(w, step.sid, step.bytes, sid, src)
    case TornChunk(_, _) => SendsFrom(w, step.sid, step.bytes, sid, src)
    case Oversize(_, _, _) => SendsFrom(w, step.sid, step.bytes, sid, src)
    case _ => true
  }

  ghost predicate SendsFrom(w: World, actor: string, bytes: Bytes, sid: string, src: map<string, Bytes>) {
    actor == sid && sid in w.sessions && w.sessions[sid].job.Receiving? ==>
      Segment(src, w.sessions[sid].job.file.id, w.sessions[sid].job.offset, bytes)
  }

  /** The offset check: an upload under way started where its request asked it to. */
  ghost predicate ServesLast(w: World, steps: seq<Step>, k: nat, sid: string)
    requires k <= |steps|
  {
    sid in w.sessions && w.sessions[sid].job.Receiving? ==>
      var u, job := LastUpload(steps, k, sid), w.sessions[sid].job;
      u.Some? && u.value.id == job.file.id && u.value.offset + |u.value.bytes| == job.offset
  }

  lemma ActorServes(w: World, sid: string, s: Session, step: Step)
    requires OfSession(step) && step.sid == sid && sid in w.sessions && w.sessions[sid] == s
    requires EnabledIn(w, sid, s, step)
    ensures var w' := ApplyIn(w, sid, s, step);
            sid in w'.sessions && w'.sessions[sid].job.Receiving? ==>
              var job := w'.sessions[sid].job;
              if step.Begin? then job.file == step.file && job.offset == step.offset
              else s.job.Receiving? && job.file == s.job.file
                   && job.offset == s.job.offset + if step.Chunk? then |step.bytes| else 0
  {
    if !step.Begin? && !step.Chunk? && !step.FireCancel? {
      LeavesReceiving(w, sid, s, step);
    }
  }

  lemma OthersServe(w: World, step: Step, w': World, sid: string)
    requires Next(w, step, w') && (OfSession(step) ==> step.sid != sid)
    requires sid in w'.sessions && w'.sessions[sid].job.Receiving?
    ensures sid in w.sessions && w'.sessions[sid] == w.sessions[sid]
  {
    if OfSession(step) {
      SessionCase(w, step, w');
      if step.Forget? {
        ForgetIsLocal(w, step.sid, Ids(w.sessions[step.sid].rec.Files()));
      } else {
        SessionStepShape(w, step.sid, w.sessions[step.sid], step);
      }
    } else if step.SaveFile? {
      SaveCase(w, step, w');
    } else if step.Crash? || sid !in w.sessions {
      if step.Register? {
        RegisterElsewhere(w, step, w');
      }
      NewcomerIdle(w, step, w', sid);
    } else {
      RegisterElsewhere(w, step, w');
    }
  }

  lemma StepServes(w: World, steps: seq<Step>, p: nat, k: nat, w': World, sid: string)
    requires k == p + 1 <= |steps| && Next(w, steps[p], w') && ServesLast(w, steps, p, sid)
    ensures ServesLast(w', steps, k, sid)
  {
    var step := steps[p];
    if sid in w'.sessions && w'.sessions[sid].job.Receiving? {
      if OfSession(step) && step.sid == sid {
        SessionCase(w, step, w');
        ActorServes(w, sid, w.sessions[sid], step);
      } else {
        OthersServe(w, step, w', sid);
      }
    }
  }

  lemma {:induction false} RunServesLast(states: seq<World>, steps: seq<Step>, k: nat, sid: string)
    requires IsRun(states, steps) && Initial(states[0]) && k <= |steps|
    ensures ServesLast(states[k], steps, k, sid)
  {
    if k > 0 {
      RunServesLast(states, steps, k - 1, sid);
      StepServes(states[k - 1], steps, k - 1, k, states[k], sid);
    }
  }

  /** So an honest body continues what the receiver has already. */
  lemma HonestSends(states: seq<World>, steps: seq<Step>, k: nat, sid: string, src: map<string, Bytes>)
    requires IsRun(states, steps) && Initial(states[0]) && Honest(steps, sid, src) && k < |steps|
    ensures Sends(states[k], steps[k], sid, src)
  {
    RunServesLast(states, steps, k, sid);
    assert HonestStep(steps, k, sid, src);
  }

  // ---------------------------------------------------------------- the prefix invariant

  ghost predicate Prefixes(d: Disk, sid: string, src: map<string, Bytes>) {
    forall id :: Live(d, Part(sid, id)) ==> id in src && At(d, Part(sid, id)).bytes <= src[id]
  }

  /** Every partial file of the session is a prefix of its source. */
  ghost predicate PrefixOk(w: World, sid: string, src: map<string, Bytes>) {
    && (sid in w.journal ==> Describes(w.journal[sid].manifest, src))
    && Prefixes(w.disk, sid, src)
  }

  lemma OthersKeepPrefixes(d: Disk, d': Disk, actor: string, sid: string, src: map<string, Bytes>)
    requires Keeps(d, d', actor) && actor != sid && Prefixes(d, sid, src)
    ensures Prefixes(d', sid, src)
  {
  }

  lemma OpenKeepsPrefixes(d: Disk, sid: string, id: string, src: map<string, Bytes>)
    requires DiskOk(d) && Prefixes(d, sid, src) && id in src
    ensures Prefixes(OpenAppend(d, Part(sid, id)), sid, src)
  {
    var d' := OpenAppend(d, Part(sid, id));
    if Part(sid, id) !in d.names {
      forall x | Live(d', Part(sid, x)) && x != id
        ensures Live(d, Part(sid, x)) && At(d', Part(sid, x)) == At(d, Part(sid, x))
      {
        assert d.names[Part(sid, x)] != d.next;
      }
    }
  }

  lemma AppendKeepsPrefixes(d: Disk, sid: string, id: string, bytes: Bytes, src: map<string, Bytes>)
    requires DiskOk(d) && Prefixes(d, sid, src) && Live(d, Part(sid, id))
    requires Segment(src, id, |At(d, Part(sid, id)).bytes|, bytes)
    ensures Prefixes(Append(d, d.names[Part(sid, id)], bytes), sid, src)
  {
    var d' := Append(d, d.names[Part(sid, id)], bytes);
    forall x | Live(d', Part(sid, x)) ensures x in src && At(d', Part(sid, x)).bytes <= src[x] {
      assert Live(d, Part(sid, x)) && At(d, Part(sid, x)).bytes <= src[x];
      if x != id {
        assert d.names[Part(sid, x)] != d.names[Part(sid, id)] && At(d', Part(sid, x)) == At(d, Part(sid, x));
      }
    }
  }

  lemma UnlinkKeepsPrefixes(d: Disk, sid: string, gone: set<Path>, src: map<string, Bytes>)
    requires Prefixes(d, sid, src)
    ensures Prefixes(Unlink(d, gone), sid, src)
  {
  }

  lemma CutKeepsPrefixes(d: Disk, keep: map<Inode, nat>, lost: set<Path>, sid: string, src: map<string, Bytes>)
    requires DiskOk(d) && CutOk(d, keep) && Prefixes(d, sid, src)
    ensures Prefixes(Cut(d, keep, lost), sid, src)
  {
    var d' := Cut(d, keep, lost);
    forall x | Live(d', Part(sid, x)) ensures x in src && At(d', Part(sid, x)).bytes <= src[x] {
      assert Live(d, Part(sid, x));
    }
  }

  lemma AppendPrefixes(w: World, sid: string, s: Session, bytes: Bytes, src: map<string, Bytes>)
    requires Inv(w) && sid in w.sessions && w.sessions[sid] == s && s.job.Receiving?
    requires Prefixes(w.disk, sid, src) && Segment(src, s.job.file.id, s.job.offset, bytes)
    ensures s.job.fd in w.disk.files && Prefixes(Append(w.disk, s.job.fd, bytes), sid, src)
  {
    LocalAt(w, sid);
    AppendKeepsPrefixes(w.disk, sid, s.job.file.id, bytes, src);
  }

  lemma BeginPrefixes(w: World, sid: string, f: FileInfo, src: map<string, Bytes>)
    requires Inv(w) && sid in w.sessions && f in w.sessions[sid].rec.Files() && PrefixOk(w, sid, src)
    ensures Prefixes(OpenAppend(w.disk, Part(sid, f.id)), sid, src)
  {
    LocalAt(w, sid);
    OpenKeepsPrefixes(w.disk, sid, f.id, src);
  }

  lemma ReceptionPrefixes(w: World, sid: string, s: Session, step: Step, src: map<string, Bytes>)
    requires Inv(w) && sid in w.sessions && w.sessions[sid] == s
    requires Receives(step) && step.sid == sid && EnabledIn(w, sid, s, step)
    requires PrefixOk(w, sid, src) && Sends(w, step, sid, src)
    ensures Prefixes(ApplyIn(w, sid, s, step).disk, sid, src)
  {
    if step.Begin? {
      BeginPrefixes(w, sid, step.file, src);
    } else if step.Chunk? || step.TornChunk? {
      AppendPrefixes(w, sid, s, step.bytes, src);
    } else if step.Oversize? || step.Discard? || step.Abort? {
      UnlinkKeepsPrefixes(w.disk, sid, Parts(sid, if step.unlinked then {s.job.file.id} else {}), src);
    }
  }

  lemma LinkPrefixes(w: World, sid: string, s: Session, readable: bool, src: map<string, Bytes>)
    requires Inv(w) && sid in w.sessions && w.sessions[sid] == s && s.job.Journalled?
    requires Live(w.disk, Part(sid, s.job.file.id)) && Prefixes(w.disk, sid, src)
    ensures Prefixes(DoLink(w, sid, s, readable).disk, sid, src)
  {
    LinkTarget(w, sid, s);
    var d' := DoLink(w, sid, s, readable).disk;
    assert forall id :: Live(d', Part(sid, id)) ==> Live(w.disk, Part(sid, id));
  }

  lemma OtherPrefixes(w: World, sid: string, s: Session, step: Step, src: map<string, Bytes>)
    requires Inv(w) && sid in w.sessions && w.sessions[sid] == s
    requires (Decides(step) || Publishes(step)) && step.sid == sid && EnabledIn(w, sid, s, step)
    requires Prefixes(w.disk, sid, src)
    ensures Prefixes(ApplyIn(w, sid, s, step).disk, sid, src)
  {
    if step.Cancel? || step.ForgetParts? {
      UnlinkKeepsPrefixes(w.disk, sid, Parts(sid, step.removed), src);
    } else if step.Forget? {
      UnlinkKeepsPrefixes(w.disk, sid, Parts(sid, Ids(s.rec.Files())), src);
    } else if step.Finish? {
      UnlinkKeepsPrefixes(w.disk, sid, Parts(sid, if step.unlinked then {s.job.file.id} else {}), src);
    } else if step.Link? {
      LinkPrefixes(w, sid, s, step.readable, src);
    }
  }

  lemma ActPrefixDisk(w: World, step: Step, w': World, sid: string, src: map<string, Bytes>)
    requires Inv(w) && OfSession(step) && Next(w, step, w')
    requires PrefixOk(w, sid, src) && Sends(w, step, sid, src)
    ensures Prefixes(w'.disk, sid, src)
  {
    SessionCase(w, step, w');
    var s := w.sessions[step.sid];
    if step.sid != sid {
      SessionStepDisk(w, step.sid, s, step);
      OthersKeepPrefixes(w.disk, w'.disk, step.sid, sid, src);
    } else if Receives(step) {
      ReceptionPrefixes(w, sid, s, step, src);
    } else {
      OtherPrefixes(w, sid, s, step, src);
    }
  }

  lemma ActDescribes(w: World, step: Step, w': World, sid: string, src: map<string, Bytes>)
    requires Inv(w) && OfSession(step) && Next(w, step, w') && PrefixOk(w, sid, src)
    ensures sid in w'.journal ==> Describes(w'.journal[sid].manifest, src)
  {
    if sid in w.sessions && step != Forget(sid) {
      StepLater(w, step, w', sid);
    } else {
      ForgottenJournal(w, step, w', sid);
    }
  }

  lemma RegisterPrefixOk(w: World, step: Step, w': World, sid: string, src: map<string, Bytes>)
    requires step.Register? && Next(w, step, w') && PrefixOk(w, sid, src) && Sends(w, step, sid, src)
    ensures PrefixOk(w', sid, src)
  {
    RegisterElsewhere(w, step, w');
    RegisterCase(w, step, w');
  }

  lemma StepKeepsPrefixOk(w: World, step: Step, w': World, sid: string, src: map<string, Bytes>)
    requires Inv(w) && Next(w, step, w') && PrefixOk(w, sid, src) && Sends(w, step, sid, src)
    ensures PrefixOk(w', sid, src)
  {
    if OfSession(step) {
      ActPrefixDisk(w, step, w', sid, src);
      ActDescribes(w, step, w', sid, src);
    } else if step.Register? {
      RegisterPrefixOk(w, step, w', sid, src);
    } else if step.SaveFile? {
      SaveCase(w, step, w');
    } else {
      CrashCase(w, step, w');
      CutKeepsPrefixes(w.disk, step.keep, step.lost, sid, src);
    }
  }

  /** Every partial file is a prefix of the source in every reachable state: after torn
      appends, interrupted bodies, cut tails and restarts alike. */
  lemma {:induction false} PartsArePrefixes(
    states: seq<World>, steps: seq<Step>, k: nat, sid: string, src: map<string, Bytes>)
    requires IsRun(states, steps) && Initial(states[0]) && Honest(steps, sid, src) && k <= |steps|
    ensures PrefixOk(states[k], sid, src)
  {
    if k > 0 {
      PartsArePrefixes(states, steps, k - 1, sid, src);
      RunKeepsInv(states, steps, k - 1);
      HonestSends(states, steps, k - 1, sid, src);
      StepKeepsPrefixOk(states[k - 1], steps[k - 1], states[k], sid, src);
    }
  }

  lemma FullPrefixHolds(w: World, sid: string, s: Session, src: map<string, Bytes>)
    requires Inv(w) && PrefixOk(w, sid, src) && sid in w.sessions && w.sessions[sid] == s && s.job.Received?
    ensures Holds(w.disk, Part(sid, s.job.file.id), s.rec.manifest, s.job.file)
  {
    LocalAt(w, sid);
    var p := Part(sid, s.job.file.id);
    assert At(w.disk, p).bytes == src[s.job.file.id];
  }

  lemma RoomForSegment(w: World, sid: string, s: Session, bytes: Bytes, src: map<string, Bytes>)
    requires Inv(w) && PrefixOk(w, sid, src) && sid in w.sessions && w.sessions[sid] == s && s.job.Receiving?
    requires Segment(src, s.job.file.id, s.job.offset, bytes)
    ensures s.job.offset + |bytes| <= s.job.file.size
  {
    LocalAt(w, sid);
  }

  lemma HonestStepAccepted(w: World, step: Step, w': World, sid: string, src: map<string, Bytes>)
    requires Inv(w) && Next(w, step, w') && PrefixOk(w, sid, src) && Sends(w, step, sid, src)
    ensures !((step.Discard? || step.Oversize?) && step.sid == sid)
  {
    if step.Discard? && step.sid == sid {
      SessionCase(w, step, w');
      FullPrefixHolds(w, sid, w.sessions[sid], src);
      assert false;
    }
    if step.Oversize? && step.sid == sid {
      SessionCase(w, step, w');
      RoomForSegment(w, sid, w.sessions[sid], step.bytes, src);
      assert false;
    }
  }

  /** An honest sender never sees the checksum-mismatch or payload-too-large replies. */
  lemma HonestUploadsAreNeverDiscarded(
    states: seq<World>, steps: seq<Step>, k: nat, sid: string, src: map<string, Bytes>)
    requires IsRun(states, steps) && Initial(states[0]) && Honest(steps, sid, src) && k < |steps|
    ensures !((steps[k].Discard? || steps[k].Oversize?) && steps[k].sid == sid)
  {
    PartsArePrefixes(states, steps, k, sid, src);
    RunKeepsInv(states, steps, k);
    HonestSends(states, steps, k, sid, src);
    HonestStepAccepted(states[k], steps[k], states[k + 1], sid, src);
  }

}
