/** The checkpoint exchange (src/resumable.rs, src/durable.rs): what a receiver reports
    about a session and what a sender accepts as a report. */
module Resumable {
  import opened Wrappers
  import opened Manifests
  import opened Durable

  datatype FileCheckpoint = FileCheckpoint(fileId: string, offset: nat, complete: bool)

  datatype ResumeStatus = ResumeStatus(
    status: Decision,
    token: Option<string>,
    cancelled: bool,
    complete: bool,
    files: seq<FileCheckpoint>)

  // ---------------------------------------------------------------- the sender's check

  /** The checkpoint speaks of a planned file and stays within it. */
  predicate Matches(f: FileInfo, p: FileCheckpoint) {
    f.id == p.fileId && p.offset <= f.size && (p.complete ==> p.offset == f.size)
  }

  predicate MatchesOne(files: seq<FileInfo>, p: FileCheckpoint) {
    exists f :: f in files && Matches(f, p)
  }

  predicate DistinctPoints(points: seq<FileCheckpoint>) {
    forall i, j :: 0 <= i < j < |points| ==> points[i].fileId != points[j].fileId
  }

  function PointIds(points: seq<FileCheckpoint>): set<string> {
    set p | p in points :: p.fileId
  }

  predicate FlagsAgree(st: ResumeStatus) {
    st.complete ==> forall p :: p in st.files ==> p.complete
  }

  predicate StatusOk(files: seq<FileInfo>, st: ResumeStatus) {
    && FlagsAgree(st)
    && |st.files| == |files|
    && DistinctPoints(st.files)
    && forall p {:trigger MatchesOne(files, p)} :: p in st.files ==> MatchesOne(files, p)
  }

  method Matching(files: seq<FileInfo>, p: FileCheckpoint) returns (found: bool)
    ensures found <==> MatchesOne(files, p)
  {
    for k := 0 to |files|
      invariant forall i :: 0 <= i < k ==> !Matches(files[i], p)
    {
      if Matches(files[k], p) {
        return true;
      }
    }
    return false;
  }

  /** The validation in `checkpoint`: one pass over the points with a set of seen ids. */
  method CheckStatus(files: seq<FileInfo>, st: ResumeStatus) returns (ok: bool)
    ensures ok <==> StatusOk(files, st)
  {
    if st.complete {
      for k := 0 to |st.files|
        invariant forall i :: 0 <= i < k ==> st.files[i].complete
      {
        if !st.files[k].complete {
          return false;
        }
      }
    }
    if |st.files| != |files| {
      return false;
    }
    var ids: set<string> := {};
    for k := 0 to |st.files|
      invariant ids == PointIds(st.files[..k])
      invariant DistinctPoints(st.files[..k])
      invariant forall i :: 0 <= i < k ==> MatchesOne(files, st.files[i])
    {
      var p := st.files[k];
      assert st.files[..k + 1] == st.files[..k] + [p];
      if p.fileId in ids {
        var i :| 0 <= i < k && st.files[i].fileId == p.fileId;
        return false;
      }
      ids := ids + {p.fileId};
      var found := Matching(files, p);
      if !found {
        return false;
      }
    }
    assert st.files[..|st.files|] == st.files;
    return true;
  }

  // ---------------------------------------------------------------- what acceptance implies

  lemma SnocDistinct(points: seq<FileCheckpoint>)
    requires points != []
    ensures var front, last := points[..|points| - 1], points[|points| - 1];
            && PointIds(points) == PointIds(front) + {last.fileId}
            && (DistinctPoints(points) <==> DistinctPoints(front) && last.fileId !in PointIds(front))
  {
    var n := |points| - 1;
    var front, last := points[..n], points[n];
    assert points == front + [last];
    if last.fileId in PointIds(front) {
      var i :| 0 <= i < n && front[i].fileId == last.fileId;
      assert points[i].fileId == points[n].fileId;
    }
    if DistinctPoints(points) {
      assert forall i, j :: 0 <= i < j < n ==> front[i] == points[i] && front[j] == points[j];
    }
  }

  lemma {:induction false} DistinctPointCount(points: seq<FileCheckpoint>)
    ensures |PointIds(points)| <= |points|
    ensures |PointIds(points)| == |points| <==> DistinctPoints(points)
  {
    if points != [] {
      DistinctPointCount(points[..|points| - 1]);
      SnocDistinct(points);
    }
  }

  /** Some checkpoint speaks of the file. */
  predicate Covered(points: seq<FileCheckpoint>, f: FileInfo) {
    exists p :: p in points && Matches(f, p)
  }

  /** Pigeonhole: with distinct plan ids, a report passes exactly when it has as many
      points as the plan has files and covers every file, so points and files are in
      bijection. */
  lemma StatusIsBijection(files: seq<FileInfo>, st: ResumeStatus)
    requires DistinctIds(files)
    ensures StatusOk(files, st) <==>
            FlagsAgree(st) && |st.files| == |files| && forall f :: f in files ==> Covered(st.files, f)
  {
    IdCount(files);
    DistinctPointCount(st.files);
    if StatusOk(files, st) {
      AcceptedCovers(files, st);
    } else if FlagsAgree(st) && |st.files| == |files| && forall f :: f in files ==> Covered(st.files, f) {
      CoveringIsAccepted(files, st);
    }
  }

  lemma AcceptedCovers(files: seq<FileInfo>, st: ResumeStatus)
    requires DistinctIds(files) && StatusOk(files, st)
    ensures forall f :: f in files ==> Covered(st.files, f)
  {
    IdCount(files);
    DistinctPointCount(st.files);
    assert PointIds(st.files) <= Ids(files) by {
      forall p | p in st.files ensures p.fileId in Ids(files) {
        assert MatchesOne(files, p);
      }
    }
    CoverEqual(PointIds(st.files), Ids(files));
    forall f | f in files ensures Covered(st.files, f) {
      assert f.id in PointIds(st.files);
      var p :| p in st.files && p.fileId == f.id;
      assert MatchesOne(files, p);
      var g :| g in files && Matches(g, p);
      SameFile(files, f, g);
    }
  }

  lemma CoveringIsAccepted(files: seq<FileInfo>, st: ResumeStatus)
    requires DistinctIds(files) && FlagsAgree(st) && |st.files| == |files|
    requires forall f :: f in files ==> Covered(st.files, f)
    ensures StatusOk(files, st)
  {
    IdCount(files);
    DistinctPointCount(st.files);
    assert Ids(files) <= PointIds(st.files) by {
      forall f | f in files ensures f.id in PointIds(st.files) {
        assert Covered(st.files, f);
      }
    }
    SubsetSize(Ids(files), PointIds(st.files));
    CoverEqual(Ids(files), PointIds(st.files));
    forall p | p in st.files ensures MatchesOne(files, p) {
      assert p.fileId in Ids(files);
      var f :| f in files && f.id == p.fileId;
      assert Covered(st.files, f);
      var q :| q in st.files && Matches(f, q);
      SamePoint(st.files, p, q);
    }
  }

  lemma SamePoint(points: seq<FileCheckpoint>, p: FileCheckpoint, q: FileCheckpoint)
    requires DistinctPoints(points) && p in points && q in points && p.fileId == q.fileId
    ensures p == q
  {
    var i :| 0 <= i < |points| && points[i] == p;
    var j :| 0 <= j < |points| && points[j] == q;
    assert i == j;
  }

  /** Iterator::find by file id. */
  function FindPoint(points: seq<FileCheckpoint>, id: string): (r: Option<FileCheckpoint>)
    ensures r.Some? ==> r.value in points && r.value.fileId == id
    ensures r.None? ==> id !in PointIds(points)
  {
    if points == [] then None
    else if points[0].fileId == id then Some(points[0])
    else
      assert points == [points[0]] + points[1..];
      FindPoint(points[1..], id)
  }

  function PointSum(points: seq<FileCheckpoint>): nat {
    if points == [] then 0 else PointSum(points[..|points| - 1]) + points[|points| - 1].offset
  }

  /** The sender's missing-checkpoint and invalid-offset branches are dead code. */
  lemma CheckpointAlwaysFound(files: seq<FileInfo>, st: ResumeStatus, f: FileInfo)
    requires DistinctIds(files) && StatusOk(files, st) && f in files
    ensures FindPoint(st.files, f.id).Some? && Matches(f, FindPoint(st.files, f.id).value)
  {
    AcceptedCovers(files, st);
    assert Covered(st.files, f);
    var p :| p in st.files && Matches(f, p);
    assert f.id in PointIds(st.files);
    SamePoint(st.files, p, FindPoint(st.files, f.id).value);
  }

  // ---------------------------------------------------------------- backoff

  function SaturatingMul(a: nat, b: nat): u64 {
    Min(a * b, U64_MAX)
  }

  /** u64::saturating_pow. */
  function SaturatingPow(base: nat, exp: nat): u64 {
    if exp == 0 then 1 else SaturatingMul(SaturatingPow(base, exp - 1), base)
  }

  function Pow2(exp: nat): nat {
    if exp == 0 then 1 else 2 * Pow2(exp - 1)
  }

  /** Milliseconds before the next attempt. */
  function RetryDelay(base: u64, attempt: nat): u64 {
    Min(SaturatingMul(base, SaturatingPow(2, attempt)), 60000)
  }

  lemma {:induction false} SaturatingPowIsPow(exp: nat)
    ensures SaturatingPow(2, exp) == Min(Pow2(exp), U64_MAX)
    ensures Pow2(exp) >= 1
  {
    if exp > 0 {
      SaturatingPowIsPow(exp - 1);
    }
  }

  /** Saturation is invisible: the delay is the integer formula, capped at a minute. */
  lemma RetryDelayExact(base: u64, attempt: nat)
    ensures RetryDelay(base, attempt) == Min(base * Pow2(attempt), 60000)
  {
    SaturatingPowIsPow(attempt);
    if Pow2(attempt) > U64_MAX && base > 0 {
      MulAtLeast(base, Pow2(attempt));
      MulAtLeast(base, U64_MAX);
    }
  }

  lemma MulAtLeast(a: nat, b: nat)
    requires a > 0
    ensures a * b >= b
  {
    assert a * b == (a - 1) * b + b;
  }

  lemma Doubles(base: nat, exp: nat)
    ensures base * Pow2(exp + 1) == 2 * (base * Pow2(exp))
  {
    var p := Pow2(exp);
    assert base * (2 * p) == 2 * (base * p);
  }

  lemma {:induction false} PowMonotone(base: nat, a: nat, b: nat)
    requires a <= b
    ensures base * Pow2(a) <= base * Pow2(b)
    decreases b
  {
    if a < b {
      PowMonotone(base, a, b - 1);
      Doubles(base, b - 1);
    }
  }

  lemma RetryDelayMonotone(base: u64, a: nat, b: nat)
    requires a <= b
    ensures RetryDelay(base, a) <= RetryDelay(base, b)
  {
    RetryDelayExact(base, a);
    RetryDelayExact(base, b);
    PowMonotone(base, a, b);
  }
}
