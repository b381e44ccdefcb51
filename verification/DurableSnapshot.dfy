/** Protocol agreement: every report a reachable receiver can send is one its sender
    accepts (src/durable.rs, src/resumable.rs). */
module DurableSnapshot {
  import opened Wrappers
  import opened Manifests
  import opened Disks
  import opened Durable
  import opened DurableInvariant
  import opened DurableSteps
  import opened DurableRuns
  import opened DurableLifecycle
  import opened DurableProgress
  import opened Resumable

  function Point(d: Disk, sid: string, r: Record, f: FileInfo): FileCheckpoint {
    FileCheckpoint(f.id, Offset(d, sid, r, f), f.id in r.published)
  }

  function Points(d: Disk, sid: string, r: Record, files: seq<FileInfo>): (points: seq<FileCheckpoint>)
    ensures |points| == |files| && forall k :: 0 <= k < |files| ==> points[k] == Point(d, sid, r, files[k])
  {
    seq(|files|, k requires 0 <= k < |files| => Point(d, sid, r, files[k]))
  }

  function Snapshot(d: Disk, sid: string, r: Record): ResumeStatus {
    ResumeStatus(r.decision, if r.decision == Accepted && !r.cancelled then Some(r.token) else None,
                 r.cancelled, r.complete, Points(d, sid, r, r.Files()))
  }

  /** checkpoints: fails on the first partial file longer than its declared size. */
  method Checkpoints(d: Disk, sid: string, r: Record) returns (res: Result<seq<FileCheckpoint>, string>)
    ensures res.Ok? <==> forall f :: f in r.Files() ==> Offset(d, sid, r, f) <= f.size
    ensures res.Ok? ==> res.value == Points(d, sid, r, r.Files())
  {
    var files := r.Files();
    var points: seq<FileCheckpoint> := [];
    for k := 0 to |files|
      invariant points == Points(d, sid, r, files[..k])
      invariant forall i :: 0 <= i < k ==> Offset(d, sid, r, files[i]) <= files[i].size
    {
      var f := files[k];
      var complete := f.id in r.published;
      var offset := if complete then f.size
                    else if Live(d, Part(sid, f.id)) then |At(d, Part(sid, f.id)).bytes|
                    else 0;
      if offset > f.size {
        return Err("Partial file exceeds declared size");
      }
      points := points + [FileCheckpoint(f.id, offset, complete)];
    }
    assert files[..|files|] == files;
    return Ok(points);
  }

  lemma {:induction false} PointSumIsOffsetSum(d: Disk, sid: string, r: Record, files: seq<FileInfo>)
    ensures PointSum(Points(d, sid, r, files)) == OffsetSum(d, sid, r, files)
  {
    if files != [] {
      PointSumIsOffsetSum(d, sid, r, files[..|files| - 1]);
      assert Points(d, sid, r, files)[..|files| - 1] == Points(d, sid, r, files[..|files| - 1]);
    }
  }

  lemma PointOfFile(d: Disk, sid: string, r: Record, files: seq<FileInfo>, f: FileInfo)
    requires DistinctIds(files) && f in files
    ensures FindPoint(Points(d, sid, r, files), f.id) == Some(Point(d, sid, r, f))
  {
    var points := Points(d, sid, r, files);
    var k :| 0 <= k < |files| && files[k] == f;
    assert points[k] in points && points[k].fileId == f.id;
    assert f.id in PointIds(points);
    var p := FindPoint(points, f.id).value;
    var i :| 0 <= i < |points| && points[i] == p;
    assert files[i].id == f.id;
    assert i == k;
  }

  lemma SnapshotOk(d: Disk, sid: string, r: Record)
    requires DistinctIds(r.Files()) && (forall f :: f in r.Files() ==> Offset(d, sid, r, f) <= f.size)
    requires r.complete ==> forall f :: f in r.Files() ==> f.id in r.published
    ensures StatusOk(r.Files(), Snapshot(d, sid, r))
  {
    var files, st := r.Files(), Snapshot(d, sid, r);
    forall p | p in st.files ensures MatchesOne(files, p) && (st.complete ==> p.complete) {
      var k :| 0 <= k < |st.files| && st.files[k] == p;
      assert Matches(files[k], p);
    }
    assert DistinctPoints(st.files);
  }

  /** Every reachable report passes the sender's validation: partial files never exceed
      their declared size, ids are distinct, complete points are full, and `complete` is
      only claimed with every point complete. */
  lemma SnapshotIsAccepted(states: seq<World>, steps: seq<Step>, k: nat, sid: string)
    requires IsRun(states, steps) && Initial(states[0]) && k <= |steps| && sid in states[k].sessions
    ensures var w, r := states[k], states[k].sessions[sid].rec;
            && (forall f :: f in r.Files() ==> Offset(w.disk, sid, r, f) <= f.size)
            && DistinctIds(r.Files())
            && StatusOk(r.Files(), Snapshot(w.disk, sid, r))
  {
    RunKeepsInv(states, steps, k);
    RunKeepsEnvelopes(states, steps, k);
    OffsetsFit(states[k], sid);
    LifecycleInvariant(states, steps, k, sid);
    DistinctAt(states[k], sid);
    SnapshotOk(states[k].disk, sid, states[k].sessions[sid].rec);
  }

  lemma DistinctAt(w: World, sid: string)
    requires Inv(w) && sid in w.sessions
    ensures DistinctIds(w.sessions[sid].rec.Files())
  {
    LocalAt(w, sid);
  }

  /** A token is only handed out to an accepted session that is not cancelled, and then it
      is the one chosen at registration, for as long as the session lives. */
  lemma TokenNeverChanges(states: seq<World>, steps: seq<Step>, i: nat, k: nat, sid: string)
    requires IsRun(states, steps) && Initial(states[0]) && Retained(states, steps, i, k, sid)
    ensures sid in states[k].sessions && sid in states[i].journal
    ensures var t := Snapshot(states[k].disk, sid, states[k].sessions[sid].rec).token;
            t.Some? ==> t.value == states[i].journal[sid].token
  {
    JournalMovesForward(states, steps, i, k, sid);
    RunKeepsInv(states, steps, k);
    LocalAt(states[k], sid);
  }
}
