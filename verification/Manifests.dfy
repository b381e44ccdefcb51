/** The v2 registration envelope: what a plan turns into and what a receiver accepts
    (src/resumable.rs, src/protocol.rs). */
module Manifests {
  import opened Wrappers
  import Paths

  type Bytes = seq<bv8>

  /** The SHA-256 digest in lower-case hexadecimal (section 6.2 of FIPS 180-4), left
      uninterpreted: no property of it is used unless a lemma says so. */
  const Sha256: Bytes -> string

  const U64_MAX: nat := 0xFFFF_FFFF_FFFF_FFFF
  type u64 = n: nat | n <= U64_MAX

  const MAX_FILES: nat := 10000

  datatype FileInfo = FileInfo(
    name: string,
    size: u64,
    mimeType: Option<string>,
    id: string,
    relativePath: Option<string>)

  datatype Request = Request(
    transferId: string,
    senderName: Option<string>,
    files: seq<FileInfo>,
    totalSize: u64)

  datatype Manifest = Manifest(request: Request, sha256: map<string, string>)

  function Place(f: FileInfo): Paths.Placement {
    Paths.Placement(f.name, f.id, f.relativePath)
  }

  // ---------------------------------------------------------------- identifiers

  predicate IsLowerHex(c: char) {
    '0' <= c <= '9' || 'a' <= c <= 'f'
  }

  /** Canonical lower-case hyphenated text of a UUID (section 4 of RFC 9562): the only
      strings that parse as a UUID and print back unchanged. */
  predicate CanonicalUuid(s: string) {
    && |s| == 36
    && forall i :: 0 <= i < 36 ==>
         if i == 8 || i == 13 || i == 18 || i == 23 then s[i] == '-' else IsLowerHex(s[i])
  }

  predicate AllHex(s: string) {
    forall i :: 0 <= i < |s| ==> IsLowerHex(s[i])
  }

  /** Hexadecimal groups joined by hyphens are canonical if and only if they have 8, 4, 4, 4
      and 12 digits. */
  lemma UuidIsGroups(a: string, b: string, c: string, d: string, e: string)
    requires AllHex(a) && AllHex(b) && AllHex(c) && AllHex(d) && AllHex(e)
    ensures CanonicalUuid(a + "-" + b + "-" + c + "-" + d + "-" + e)
            <==> |a| == 8 && |b| == 4 && |c| == 4 && |d| == 4 && |e| == 12
  {
    var s := a + "-" + b + "-" + c + "-" + d + "-" + e;
    var p, q, r, t := |a|, |a| + |b| + 1, |a| + |b| + |c| + 2, |a| + |b| + |c| + |d| + 3;
    assert s[p] == '-' && s[q] == '-' && s[r] == '-' && s[t] == '-';
    forall i | 0 <= i < |s| && i != p && i != q && i != r && i != t ensures IsLowerHex(s[i]) {
      assert s[i] == if i < p then a[i] else if i < q then b[i - p - 1] else if i < r then c[i - q - 1]
                     else if i < t then d[i - r - 1] else e[i - t - 1];
    }
  }

  predicate IsDigest(s: string) {
    |s| == 64 && forall i :: 0 <= i < |s| ==> IsLowerHex(s[i])
  }

  // ---------------------------------------------------------------- files of a manifest

  predicate DistinctIds(files: seq<FileInfo>) {
    forall i, j :: 0 <= i < j < |files| ==> files[i].id != files[j].id
  }

  function Ids(files: seq<FileInfo>): set<string> {
    set f | f in files :: f.id
  }

  /** Iterator::find by id. */
  function FindFile(files: seq<FileInfo>, id: string): (r: Option<FileInfo>)
    ensures r.Some? ==> r.value in files && r.value.id == id
    ensures r.None? ==> id !in Ids(files)
  {
    if files == [] then None
    else if files[0].id == id then Some(files[0])
    else
      assert files == [files[0]] + files[1..];
      FindFile(files[1..], id)
  }

  lemma SameFile(files: seq<FileInfo>, f: FileInfo, g: FileInfo)
    requires DistinctIds(files) && f in files && g in files && f.id == g.id
    ensures f == g
  {
    var i :| 0 <= i < |files| && files[i] == f;
    var j :| 0 <= j < |files| && files[j] == g;
    assert i == j;
  }

  lemma {:induction false} IdCount(files: seq<FileInfo>)
    requires DistinctIds(files)
    ensures |Ids(files)| == |files|
  {
    if files != [] {
      var n := |files| - 1;
      IdCount(files[..n]);
      assert files == files[..n] + [files[n]];
      assert Ids(files) == Ids(files[..n]) + {files[n].id};
      assert files[n].id !in Ids(files[..n]);
    }
  }

  /** A set of manifest ids is all of them exactly when it has as many members as the
      manifest has files: why counting `published` decides completeness. */
  lemma CountDecidesAll(files: seq<FileInfo>, some: set<string>)
    requires DistinctIds(files) && some <= Ids(files)
    ensures |some| == |files| <==> some == Ids(files)
  {
    IdCount(files);
    if some != Ids(files) {
      assert !(Ids(files) <= some);
      var x :| x in Ids(files) && x !in some;
      SubsetSize(some, Ids(files) - {x});
    }
  }

  lemma {:induction false} SubsetSize<T>(a: set<T>, b: set<T>)
    requires a <= b
    ensures |a| <= |b|
  {
    if a != {} {
      var x :| x in a;
      SubsetSize(a - {x}, b - {x});
    }
  }

  // ---------------------------------------------------------------- sizes

  function TotalSize(files: seq<FileInfo>): nat {
    if files == [] then 0 else TotalSize(files[..|files| - 1]) + files[|files| - 1].size
  }

  /** try_fold with checked_add. */
  function CheckedTotal(files: seq<FileInfo>): Option<u64> {
    if files == [] then Some(0)
    else
      var front := CheckedTotal(files[..|files| - 1]);
      if front.None? || front.value + files[|files| - 1].size > U64_MAX then None
      else Some(front.value + files[|files| - 1].size)
  }

  /** The checked fold fails exactly when the mathematical sum leaves u64. */
  lemma {:induction false} CheckedTotalIsTotal(files: seq<FileInfo>)
    ensures CheckedTotal(files) == if TotalSize(files) <= U64_MAX then Some(TotalSize(files)) else None
  {
    if files != [] {
      CheckedTotalIsTotal(files[..|files| - 1]);
    }
  }

  // ---------------------------------------------------------------- validation

  /** A file entry with a canonical id and a well-formed digest. */
  predicate EntryOk(sha256: map<string, string>, f: FileInfo) {
    CanonicalUuid(f.id) && f.id in sha256 && IsDigest(sha256[f.id])
  }

  predicate ValidManifest(m: Manifest) {
    var files := m.request.files;
    && CanonicalUuid(m.request.transferId)
    && 0 < |files| <= MAX_FILES
    && (forall k :: 0 <= k < |files| ==> EntryOk(m.sha256, files[k]))
    && DistinctIds(files)
    && m.sha256.Keys == Ids(files)
    && TotalSize(files) == m.request.totalSize
  }

  /** Extending a checked prefix by one file, as one turn of the validation loop does. */
  lemma PrefixStep(files: seq<FileInfo>, k: nat)
    requires k < |files| && DistinctIds(files[..k])
    ensures Ids(files[..k + 1]) == Ids(files[..k]) + {files[k].id}
    ensures DistinctIds(files[..k + 1]) <==> files[k].id !in Ids(files[..k])
  {
    var next := files[..k + 1];
    assert next == files[..k] + [files[k]];
    if files[k].id in Ids(files[..k]) {
      var g :| g in files[..k] && g.id == files[k].id;
      var i :| 0 <= i < k && files[..k][i] == g;
      assert next[i].id == next[k].id;
    }
  }

  lemma PrefixOfDistinct(files: seq<FileInfo>, k: nat)
    requires k <= |files| && DistinctIds(files)
    ensures DistinctIds(files[..k])
  {
  }

  method Validate(m: Manifest) returns (ok: bool)
    ensures ok <==> ValidManifest(m)
  {
    var files := m.request.files;
    if !CanonicalUuid(m.request.transferId) {
      return false;
    }
    if files == [] || |files| > MAX_FILES {
      return false;
    }
    var ids: set<string> := {};
    for k := 0 to |files|
      invariant ids == Ids(files[..k])
      invariant DistinctIds(files[..k])
      invariant forall i :: 0 <= i < k ==> EntryOk(m.sha256, files[i])
    {
      PrefixStep(files, k);
      var f := files[k];
      if !CanonicalUuid(f.id) {
        assert !EntryOk(m.sha256, files[k]);
        return false;
      }
      if f.id in ids {
        assert !DistinctIds(files) by {
          if DistinctIds(files) { PrefixOfDistinct(files, k + 1); }
        }
        return false;
      }
      ids := ids + {f.id};
      if f.id !in m.sha256 || !IsDigest(m.sha256[f.id]) {
        assert !EntryOk(m.sha256, files[k]);
        return false;
      }
    }
    assert files[..|files|] == files;
    CheckedTotalIsTotal(files);
    IdCount(files);
    if |m.sha256| != |ids| || CheckedTotal(files) != Some(m.request.totalSize) {
      assert m.sha256.Keys == ids ==> |m.sha256| == |ids|;
      return false;
    }
    assert ids <= m.sha256.Keys by {
      forall x | x in ids ensures x in m.sha256 {
        var f :| f in files && f.id == x;
        var i :| 0 <= i < |files| && files[i] == f;
        assert EntryOk(m.sha256, files[i]);
      }
    }
    CoverEqual(ids, m.sha256.Keys);
    return true;
  }

  lemma CoverEqual<T>(a: set<T>, b: set<T>)
    requires a <= b && |a| == |b|
    ensures a == b
  {
    if a != b {
      assert !(b <= a);
      var x :| x in b && x !in a;
      SubsetSize(a, b - {x});
    }
  }

  // ---------------------------------------------------------------- plans

  datatype PreparedFile = PreparedFile(path: string, info: FileInfo, sha256: string)

  datatype PreparedTransfer = PreparedTransfer(
    transferId: string,
    senderName: Option<string>,
    files: seq<PreparedFile>)

  function Infos(files: seq<PreparedFile>): (r: seq<FileInfo>)
    ensures |r| == |files| && forall k :: 0 <= k < |files| ==> r[k] == files[k].info
  {
    seq(|files|, k requires 0 <= k < |files| => files[k].info)
  }

  /** Collecting pairs into a hash map keeps the last value of a repeated key. */
  function Digests(files: seq<PreparedFile>): map<string, string> {
    if files == [] then map[]
    else Digests(files[..|files| - 1])[files[|files| - 1].info.id := files[|files| - 1].sha256]
  }

  function PlanManifest(plan: PreparedTransfer): Option<Manifest> {
    match CheckedTotal(Infos(plan.files))
    case None => None
    case Some(total) =>
      Some(Manifest(Request(plan.transferId, plan.senderName, Infos(plan.files), total),
                    Digests(plan.files)))
  }

  lemma {:induction false} DigestsByPosition(files: seq<PreparedFile>, k: nat)
    requires k < |files| && DistinctIds(Infos(files))
    ensures files[k].info.id in Digests(files) && Digests(files)[files[k].info.id] == files[k].sha256
  {
    var n := |files| - 1;
    if k < n {
      assert Infos(files[..n]) == Infos(files)[..n];
      DigestsByPosition(files[..n], k);
      assert Infos(files)[k].id != Infos(files)[n].id;
    }
  }

  lemma {:induction false} DigestKeys(files: seq<PreparedFile>)
    ensures Digests(files).Keys == Ids(Infos(files))
  {
    if files != [] {
      var n := |files| - 1;
      DigestKeys(files[..n]);
      assert Infos(files) == Infos(files[..n]) + [files[n].info];
    }
  }

  /** A plan's envelope passes the receiver's validation exactly when the plan itself is
      sound, and it then binds every file to the digest taken when it was prepared. */
  lemma PlanManifestIsValid(plan: PreparedTransfer)
    ensures (PlanManifest(plan).Some? && ValidManifest(PlanManifest(plan).value)) <==>
            && CanonicalUuid(plan.transferId)
            && 0 < |plan.files| <= MAX_FILES
            && DistinctIds(Infos(plan.files))
            && TotalSize(Infos(plan.files)) <= U64_MAX
            && forall k :: 0 <= k < |plan.files| ==>
                 CanonicalUuid(plan.files[k].info.id) && IsDigest(plan.files[k].sha256)
    ensures PlanManifest(plan).Some? && ValidManifest(PlanManifest(plan).value) ==>
            forall k :: 0 <= k < |plan.files| ==>
              PlanManifest(plan).value.sha256[plan.files[k].info.id] == plan.files[k].sha256
    ensures PlanManifest(plan).None? <==> TotalSize(Infos(plan.files)) > U64_MAX
    ensures PlanManifest(plan).Some? ==>
              var request := PlanManifest(plan).value.request;
              && request.transferId == plan.transferId && request.senderName == plan.senderName
              && |request.files| == |plan.files| && request.totalSize == TotalSize(Infos(plan.files))
              && forall k :: 0 <= k < |plan.files| ==> request.files[k] == plan.files[k].info
  {
    CheckedTotalIsTotal(Infos(plan.files));
    DigestKeys(plan.files);
    if DistinctIds(Infos(plan.files)) {
      forall k | 0 <= k < |plan.files|
        ensures plan.files[k].info.id in Digests(plan.files)
        ensures Digests(plan.files)[plan.files[k].info.id] == plan.files[k].sha256
      {
        DigestsByPosition(plan.files, k);
      }
      assert forall k :: 0 <= k < |plan.files| ==> Infos(plan.files)[k].id == plan.files[k].info.id;
      assert forall k :: 0 <= k < |plan.files| ==>
          (EntryOk(Digests(plan.files), Infos(plan.files)[k])
           <==> CanonicalUuid(plan.files[k].info.id) && IsDigest(plan.files[k].sha256));
    }
  }
}
