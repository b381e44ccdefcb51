/** The bounded in-memory transfer history (src/history.rs). */
module Histories {
  import opened Wrappers

  datatype TransferRecord = TransferRecord(id: string, startedAt: int, details: string)

  // ---------------------------------------------------------------- stable newest-first sort

  predicate NewestFirst(s: seq<TransferRecord>) {
    forall i, j :: 0 <= i <= j < |s| ==> s[i].startedAt >= s[j].startedAt
  }

  /** Behind everything at least as new. */
  function Insert(s: seq<TransferRecord>, r: TransferRecord): (t: seq<TransferRecord>)
    ensures |t| == |s| + 1
  {
    if s == [] || s[|s| - 1].startedAt >= r.startedAt then s + [r]
    else Insert(s[..|s| - 1], r) + [s[|s| - 1]]
  }

  /** sort_by_key with a reversed start time. */
  function Sorted(s: seq<TransferRecord>): (t: seq<TransferRecord>)
    ensures |t| == |s|
  {
    if s == [] then [] else Insert(Sorted(s[..|s| - 1]), s[|s| - 1])
  }

  /** The records that started at `key`, in order. */
  function StartedAt(s: seq<TransferRecord>, key: int): seq<TransferRecord> {
    if s == [] then []
    else StartedAt(s[..|s| - 1], key) + if s[|s| - 1].startedAt == key then [s[|s| - 1]] else []
  }

  lemma {:induction false} InsertSorts(s: seq<TransferRecord>, r: TransferRecord)
    requires NewestFirst(s)
    ensures NewestFirst(Insert(s, r)) && |Insert(s, r)| == |s| + 1
    ensures forall x :: x in Insert(s, r) ==> x in s || x == r
  {
    if !(s == [] || s[|s| - 1].startedAt >= r.startedAt) {
      var n := |s| - 1;
      InsertSorts(s[..n], r);
      var t := Insert(s[..n], r);
      forall i | 0 <= i < |t| ensures t[i].startedAt >= s[n].startedAt {
        assert t[i] in t;
      }
    }
  }

  lemma {:induction false} InsertKeepsOrder(s: seq<TransferRecord>, r: TransferRecord, key: int)
    requires NewestFirst(s)
    ensures StartedAt(Insert(s, r), key) == StartedAt(s + [r], key)
  {
    var n := |s| - 1;
    if !(s == [] || s[n].startedAt >= r.startedAt) {
      InsertKeepsOrder(s[..n], r, key);
      var t := Insert(s[..n], r);
      assert (t + [s[n]])[..|t|] == t;
      assert (s[..n] + [r])[..n] == s[..n];
      assert (s + [r])[..|s|] == s;
    }
  }

  /** Sorted is a stable newest-first arrangement: ordered, and records with equal start
      times keep their order. */
  lemma {:induction false} SortedIsStable(s: seq<TransferRecord>, key: int)
    ensures NewestFirst(Sorted(s)) && |Sorted(s)| == |s|
    ensures StartedAt(Sorted(s), key) == StartedAt(s, key)
  {
    if s != [] {
      var n := |s| - 1;
      SortedIsStable(s[..n], key);
      InsertSorts(Sorted(s[..n]), s[n]);
      InsertKeepsOrder(Sorted(s[..n]), s[n], key);
      assert (Sorted(s[..n]) + [s[n]])[..n] == Sorted(s[..n]);
    }
  }

  lemma {:induction false} InStartedAt(s: seq<TransferRecord>, key: int)
    ensures forall x :: x in StartedAt(s, key) <==> x in s && x.startedAt == key
  {
    if s != [] {
      InStartedAt(s[..|s| - 1], key);
      assert s == s[..|s| - 1] + [s[|s| - 1]];
    }
  }

  lemma FirstIsStarted(s: seq<TransferRecord>)
    requires s != []
    ensures StartedAt(s, s[0].startedAt) != []
  {
    InStartedAt(s, s[0].startedAt);
    assert s[0] in StartedAt(s, s[0].startedAt);
  }

  /** ... and it is the only one. */
  lemma {:induction false} StableSortIsUnique(a: seq<TransferRecord>, b: seq<TransferRecord>)
    requires NewestFirst(a) && NewestFirst(b) && forall key :: StartedAt(a, key) == StartedAt(b, key)
    ensures a == b
  {
    if a == [] || b == [] {
      if a != [] {
        FirstIsStarted(a);
      } else if b != [] {
        FirstIsStarted(b);
      }
    } else {
      var m, n := |a| - 1, |b| - 1;
      SameLast(a, b);
      forall key ensures StartedAt(a[..m], key) == StartedAt(b[..n], key) {
        assert StartedAt(a, key) == StartedAt(b, key);
        SameFront(StartedAt(a[..m], key), StartedAt(b[..n], key), if a[m].startedAt == key then [a[m]] else []);
      }
      StableSortIsUnique(a[..m], b[..n]);
      assert a == a[..m] + [a[m]] && b == b[..n] + [b[n]];
    }
  }

  lemma SameFront<T>(u: seq<T>, v: seq<T>, tail: seq<T>)
    requires u + tail == v + tail
    ensures u == v
  {
    assert |u| == |v|;
    assert u == (u + tail)[..|u|] && v == (v + tail)[..|v|];
  }

  lemma LastStarted(s: seq<TransferRecord>)
    requires s != []
    ensures var t := StartedAt(s, s[|s| - 1].startedAt); t != [] && t[|t| - 1] == s[|s| - 1]
  {
  }

  /** A record of one bucket of s is no older than the last record of s. */
  lemma LastIsOldest(s: seq<TransferRecord>, key: int)
    requires s != [] && NewestFirst(s) && StartedAt(s, key) != []
    ensures key >= s[|s| - 1].startedAt
  {
    InStartedAt(s, key);
    var x := StartedAt(s, key)[0];
    assert x in s && x.startedAt == key;
  }

  lemma SameLast(a: seq<TransferRecord>, b: seq<TransferRecord>)
    requires a != [] && b != [] && NewestFirst(a) && NewestFirst(b)
    requires forall key :: StartedAt(a, key) == StartedAt(b, key)
    ensures a[|a| - 1] == b[|b| - 1]
  {
    var x, y := a[|a| - 1], b[|b| - 1];
    LastStarted(a);
    LastStarted(b);
    assert StartedAt(b, x.startedAt) == StartedAt(a, x.startedAt);
    assert StartedAt(a, y.startedAt) == StartedAt(b, y.startedAt);
    LastIsOldest(b, x.startedAt);
    LastIsOldest(a, y.startedAt);
  }

  // ---------------------------------------------------------------- bounded adding

  /** One add: over the limit, sort and keep the newest. */
  function Added(s: seq<TransferRecord>, r: TransferRecord, limit: nat): seq<TransferRecord> {
    if limit > 0 && |s| + 1 > limit then Sorted(s + [r])[..limit] else s + [r]
  }

  function AddAll(rs: seq<TransferRecord>, limit: nat): seq<TransferRecord> {
    if rs == [] then [] else Added(AddAll(rs[..|rs| - 1], limit), rs[|rs| - 1], limit)
  }

  lemma {:induction false} SortedStays(s: seq<TransferRecord>)
    requires NewestFirst(s)
    ensures Sorted(s) == s
  {
    if s != [] {
      var n := |s| - 1;
      SortedStays(s[..n]);
      assert s == s[..n] + [s[n]];
    }
  }

  /** What falls off the end cannot come back: inserting commutes with truncating. */
  lemma {:induction false} InsertTruncated(s: seq<TransferRecord>, r: TransferRecord, k: nat)
    requires NewestFirst(s) && k <= |s|
    ensures |Insert(s, r)| == |s| + 1 && |Insert(s[..k], r)| == k + 1
    ensures Insert(s[..k], r)[..k] == Insert(s, r)[..k]
  {
    InsertSorts(s, r);
    InsertSorts(s[..k], r);
    var n := |s| - 1;
    if k == |s| {
      assert s[..k] == s;
    } else {
      InsertTruncated(s[..n], r, k);
      assert s[..n][..k] == s[..k];
      if s[n].startedAt >= r.startedAt {
        AllNewer(s[..k], r);
        assert Insert(s[..k], r) == s[..k] + [r];
        assert (s + [r])[..k] == s[..k];
      } else {
        InsertSorts(s[..n], r);
        assert Insert(s, r) == Insert(s[..n], r) + [s[n]];
      }
    }
  }

  lemma AllNewer(s: seq<TransferRecord>, r: TransferRecord)
    requires forall i :: 0 <= i < |s| ==> s[i].startedAt >= r.startedAt
    ensures Insert(s, r) == s + [r]
  {
  }

  lemma SortedAppend(s: seq<TransferRecord>, r: TransferRecord)
    ensures Sorted(s + [r]) == Insert(Sorted(s), r)
  {
    assert (s + [r])[..|s|] == s;
  }

  lemma TruncatedStays(t: seq<TransferRecord>, r: TransferRecord, limit: nat)
    requires NewestFirst(t) && limit <= |t|
    ensures Sorted(Insert(t[..limit], r)[..limit]) == Insert(t, r)[..limit]
  {
    InsertTruncated(t, r, limit);
    InsertSorts(t, r);
    SortedStays(Insert(t, r)[..limit]);
  }

  /** One add over the limit to a store that lists the newest of `all`. */
  lemma AddKeepsTop(all: seq<TransferRecord>, s: seq<TransferRecord>, r: TransferRecord, limit: nat)
    requires 0 < limit <= |all| && |s| == limit && Sorted(s) == Sorted(all)[..limit]
    ensures Sorted(Added(s, r, limit)) == Sorted(all + [r])[..limit]
  {
    var t := Sorted(all);
    assert NewestFirst(t) by { SortedIsStable(all, 0); }
    TruncatedStays(t, r, limit);
    SortedAppend(all, r);
    SortedAppend(s, r);
    assert Added(s, r, limit) == Insert(t[..limit], r)[..limit];
  }

  lemma AddAllSnoc(rs: seq<TransferRecord>, r: TransferRecord, limit: nat)
    ensures AddAll(rs + [r], limit) == Added(AddAll(rs, limit), r, limit)
  {
    assert (rs + [r])[..|rs|] == rs;
  }

  /** The listed store holds the newest `limit` of everything added. */
  predicate IsTop(s: seq<TransferRecord>, all: seq<TransferRecord>, limit: nat) {
    && |s| == Min(limit, |all|)
    && Sorted(s) == Sorted(all)[..Min(limit, |all|)]
    && (|all| <= limit ==> s == all)
  }

  lemma AddedIsTop(s: seq<TransferRecord>, all: seq<TransferRecord>, r: TransferRecord, limit: nat)
    requires limit > 0 && IsTop(s, all, limit)
    ensures IsTop(Added(s, r, limit), all + [r], limit)
  {
    if |all| >= limit {
      AddKeepsTop(all, s, r, limit);
    }
  }

  /** Incremental sort-and-truncate equals batch top-k: after any additions the listed
      store is the first `limit` records of a stable newest-first sort of all of them. */
  lemma {:induction false} IncrementalIsBatch(rs: seq<TransferRecord>, limit: nat)
    requires limit > 0
    ensures IsTop(AddAll(rs, limit), rs, limit)
  {
    if rs != [] {
      var front, r := rs[..|rs| - 1], rs[|rs| - 1];
      IncrementalIsBatch(front, limit);
      AddedIsTop(AddAll(front, limit), front, r, limit);
      AddAllSnoc(front, r, limit);
      assert rs == front + [r];
    }
  }

  // ---------------------------------------------------------------- the store

  function Skip<T>(s: seq<T>, n: nat): seq<T> {
    if n <= |s| then s[n..] else []
  }

  function Take<T>(s: seq<T>, n: nat): seq<T> {
    if n <= |s| then s[..n] else s
  }

  /** The first `count` pages of `limit` records each, joined. */
  function Pages<T>(s: seq<T>, limit: nat, count: nat): seq<T> {
    if count == 0 then [] else Pages(s, limit, count - 1) + Take(Skip(s, (count - 1) * limit), limit)
  }

  lemma {:induction false} PagesArePrefix<T>(s: seq<T>, limit: nat, count: nat)
    ensures Pages(s, limit, count) == Take(s, count * limit)
  {
    if count > 0 {
      PagesArePrefix(s, limit, count - 1);
      var from := (count - 1) * limit;
      assert count * limit == from + limit;
      PageExtends(s, from, limit);
    }
  }

  lemma PageExtends<T>(s: seq<T>, from: nat, limit: nat)
    ensures Take(s, from) + Take(Skip(s, from), limit) == Take(s, from + limit)
  {
  }

  /** Consecutive pages concatenate to the whole list. */
  lemma PagesJoin<T>(s: seq<T>, limit: nat, count: nat)
    requires count * limit >= |s|
    ensures Pages(s, limit, count) == s
  {
    PagesArePrefix(s, limit, count);
    assert Take(s, count * limit) == s;
  }

  /** retain: everything but the records with this id. */
  function Without(s: seq<TransferRecord>, id: string): seq<TransferRecord> {
    if s == [] then [] else Without(s[..|s| - 1], id) + if s[|s| - 1].id != id then [s[|s| - 1]] else []
  }

  lemma {:induction false} WithoutMembers(s: seq<TransferRecord>, id: string)
    ensures forall x :: x in Without(s, id) <==> x in s && x.id != id
  {
    if s != [] {
      var front, r := s[..|s| - 1], s[|s| - 1];
      WithoutMembers(front, id);
      assert s == front + [r];
    }
  }

  lemma {:induction false} WithoutShrinks(s: seq<TransferRecord>, id: string)
    ensures |Without(s, id)| <= |s|
    ensures |Without(s, id)| == |s| ==> Without(s, id) == s
  {
    if s != [] {
      var front, r := s[..|s| - 1], s[|s| - 1];
      WithoutShrinks(front, id);
      var kept := Without(front, id);
      if r.id != id {
        assert Without(s, id) == kept + [r];
        assert kept == front ==> kept + [r] == s;
      } else {
        assert Without(s, id) == kept;
      }
    }
  }

  lemma {:induction false} WithoutNothing(s: seq<TransferRecord>, id: string)
    requires forall i :: 0 <= i < |s| ==> s[i].id != id
    ensures Without(s, id) == s
  {
    if s != [] {
      WithoutNothing(s[..|s| - 1], id);
    }
  }

  /** The list gets shorter exactly when it had a record with the id. */
  lemma WithoutKeeps(s: seq<TransferRecord>, id: string)
    ensures |Without(s, id)| <= |s|
    ensures |Without(s, id)| == |s| <==> forall x :: x in s ==> x.id != id
    ensures |Without(s, id)| == |s| ==> Without(s, id) == s
  {
    WithoutMembers(s, id);
    WithoutShrinks(s, id);
    if forall x :: x in s ==> x.id != id {
      WithoutNothing(s, id);
    }
  }

  /** What is kept keeps its order: a list may be split anywhere. */
  lemma {:induction false} WithoutJoins(s: seq<TransferRecord>, t: seq<TransferRecord>, id: string)
    ensures Without(s + t, id) == Without(s, id) + Without(t, id)
  {
    if t == [] {
      assert s + t == s;
    } else {
      var n := |t| - 1;
      WithoutJoins(s, t[..n], id);
      assert (s + t)[..|s + t| - 1] == s + t[..n];
    }
  }

  lemma WithoutOne(r: TransferRecord, id: string)
    ensures Without([r], id) == if r.id == id then [] else [r]
  {
    assert [r][..0] == [];
  }

  function Find(s: seq<TransferRecord>, id: string): (r: Option<TransferRecord>)
    ensures r.Some? ==> exists k :: 0 <= k < |s| && IsFirst(s, id, k) && r.value == s[k]
    ensures r.None? ==> forall x :: x in s ==> x.id != id
  {
    if s == [] then None
    else if s[0].id == id then Some(s[0])
    else
      assert s == [s[0]] + s[1..];
      assert forall k :: 0 <= k < |s| - 1 && IsFirst(s[1..], id, k) ==> IsFirst(s, id, k + 1);
      Find(s[1..], id)
  }

  /** The k-th record is the first with this id. */
  predicate IsFirst(s: seq<TransferRecord>, id: string, k: nat) {
    k < |s| && s[k].id == id && forall j :: 0 <= j < k ==> s[j].id != id
  }

  class InMemoryHistory {
    const maxRecords: nat
    var records: seq<TransferRecord>
    /** Everything added since the store was last emptied, while nothing was deleted. */
    ghost var added: Option<seq<TransferRecord>>

    ghost predicate Valid()
      reads this
    {
      && (maxRecords > 0 ==> |records| <= maxRecords)
      && (added.Some? ==> records == AddAll(added.value, maxRecords))
    }

    constructor (maxRecords: nat)
      ensures Valid() && this.maxRecords == maxRecords && records == [] && added == Some([])
    {
      this.maxRecords, records, added := maxRecords, [], Some([]);
    }

    constructor WithRecords(records: seq<TransferRecord>)
      ensures Valid() && maxRecords == 0 && this.records == records
    {
      this.maxRecords, this.records, added := 0, records, None;
    }

    method Add(r: TransferRecord)
      requires Valid()
      modifies this
      ensures Valid() && records == Added(old(records), r, maxRecords)
      ensures added == if old(added).Some? then Some(old(added).value + [r]) else None
    {
      records := records + [r];
      if maxRecords > 0 && |records| > maxRecords {
        records := Sorted(records);
        records := records[..maxRecords];
      }
      if added.Some? {
        var all := added.value + [r];
        assert all[..|all| - 1] == added.value;
        added := Some(all);
      }
    }

    /** Newest first; of an add-only history exactly the newest of everything added. */
    method List() returns (all: seq<TransferRecord>)
      requires Valid()
      ensures all == Sorted(records)
      ensures added.Some? && maxRecords > 0 ==>
                all == Sorted(added.value)[..Min(maxRecords, |added.value|)]
    {
      all := Sorted(records);
      if added.Some? && maxRecords > 0 {
        IncrementalIsBatch(added.value, maxRecords);
      }
    }

    method ListPaginated(offset: nat, limit: nat) returns (page: seq<TransferRecord>)
      requires Valid()
      ensures page == Take(Skip(Sorted(records), offset), limit)
    {
      var all := List();
      page := Take(Skip(all, offset), limit);
    }

    method Get(id: string) returns (r: Option<TransferRecord>)
      ensures r.None? <==> forall x :: x in records ==> x.id != id
      ensures r.Some? ==> exists k :: 0 <= k < |records| && IsFirst(records, id, k) && r.value == records[k]
    {
      r := Find(records, id);
    }

    method Delete(id: string) returns (found: bool)
      requires Valid()
      modifies this
      ensures Valid() && records == Without(old(records), id)
      ensures found <==> exists x :: x in old(records) && x.id == id
      ensures !found ==> records == old(records)
    {
      var originalLen := |records|;
      WithoutKeeps(records, id);
      records := Without(records, id);
      found := |records| != originalLen;
      if found {
        added := None;
      }
    }

    method Clear()
      requires Valid()
      modifies this
      ensures Valid() && records == [] && added == Some([])
    {
      records := [];
      added := Some([]);
    }
  }
}
