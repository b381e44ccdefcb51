/** The v1 receiver (src/server.rs): maps and sets updated in place at the decision lock,
    and a byte counter with a rollback on every failure branch.  What happens to one
    transfer id is a sequence of actions; the server logs them in a ghost field, so that
    theorems about action sequences are theorems about the object. */
module Legacy {
  import opened Wrappers
  import opened Manifests

  const MAX_SESSIONS: nat := 1024
  const MAX_ID: nat := 128
  const PROGRESS_STEP: nat := 32768

  datatype Transfer = Transfer(source: string, sender: Option<string>, files: seq<FileInfo>, total: nat)

  datatype Proposal = Proposal(id: string, sender: Option<string>, files: seq<FileInfo>)

  /** An upload holding its transfer's upload lock.  `lost` are bytes of it whose count a
      cancellation took away; nothing reads them. */
  datatype Upload = Upload(file: FileInfo, transfer: Transfer, got: nat, reported: nat, lost: nat)

  /** `excess` are the bytes of dropped uploads in the value reported; nothing reads it. */
  datatype Event =
    | Progress(id: string, bytes: nat, total: nat, excess: nat)
    | Complete(id: string, bytes: nat, total: nat, excess: nat)

  datatype Refusal = TransferNotFound | TransferCancelled | InvalidConfig

  /** An HTTP status; 0 when the request is dropped and nothing is sent. */
  type Code = int

  // ---------------------------------------------------------------- sizes of received files

  function ReceivedSize(files: seq<FileInfo>, ids: set<string>): nat {
    if files == [] then 0
    else ReceivedSize(files[..|files| - 1], ids) + if files[|files| - 1].id in ids then files[|files| - 1].size else 0
  }

  lemma {:induction false} ReceivedSame(files: seq<FileInfo>, a: set<string>, b: set<string>)
    requires forall f :: f in files ==> (f.id in a <==> f.id in b)
    ensures ReceivedSize(files, a) == ReceivedSize(files, b)
  {
    if files != [] {
      assert files[|files| - 1] in files;
      ReceivedSame(files[..|files| - 1], a, b);
    }
  }

  /** One more file counts its size exactly once. */
  lemma {:induction false} ReceivedGrows(files: seq<FileInfo>, ids: set<string>, f: FileInfo)
    requires DistinctIds(files) && f in files && f.id !in ids
    ensures ReceivedSize(files, ids + {f.id}) == ReceivedSize(files, ids) + f.size
  {
    var n := |files| - 1;
    assert files == files[..n] + [files[n]];
    if files[n] == f {
      forall g | g in files[..n] ensures g.id != f.id {
        var i :| 0 <= i < n && files[i] == g;
        assert files[i].id != files[n].id;
      }
      ReceivedSame(files[..n], ids, ids + {f.id});
    } else {
      assert f in files[..n];
      var i :| 0 <= i < n && files[i] == f;
      assert files[i].id != files[n].id;
      ReceivedGrows(files[..n], ids, f);
    }
  }

  lemma {:induction false} ReceivedBounded(files: seq<FileInfo>, ids: set<string>)
    ensures ReceivedSize(files, ids) <= TotalSize(files)
    ensures Ids(files) <= ids ==> ReceivedSize(files, ids) == TotalSize(files)
  {
    if files != [] {
      var n := |files| - 1;
      assert files == files[..n] + [files[n]];
      ReceivedBounded(files[..n], ids);
    }
  }

  lemma {:induction false} NothingReceived(files: seq<FileInfo>)
    ensures ReceivedSize(files, {}) == 0
  {
    if files != [] {
      NothingReceived(files[..|files| - 1]);
    }
  }

  /** What is received, plus any part of a file that is not, stays within the total. */
  lemma CurrentFits(files: seq<FileInfo>, ids: set<string>, f: FileInfo, got: nat)
    requires DistinctIds(files) && f in files && f.id !in ids && got <= f.size
    ensures ReceivedSize(files, ids) + got <= TotalSize(files)
  {
    ReceivedGrows(files, ids, f);
    ReceivedBounded(files, ids + {f.id});
  }

  /** Counting receipts decides completeness, and the counter then stands at the total. */
  lemma AllReceived(files: seq<FileInfo>, ids: set<string>)
    requires DistinctIds(files) && ids <= Ids(files)
    ensures |ids| >= |files| <==> ids == Ids(files)
    ensures |ids| >= |files| ==> ReceivedSize(files, ids) == TotalSize(files)
  {
    IdCount(files);
    SubsetSize(ids, Ids(files));
    CountDecidesAll(files, ids);
    ReceivedBounded(files, ids);
  }

  // ---------------------------------------------------------------- one transfer id

  /** Everything the server holds about one transfer id.  `leaked` are the counted bytes of
      uploads whose request was dropped; nothing reads it. */
  datatype View = View(
    pending: Option<Transfer>,
    token: Option<string>,
    rejected: bool,
    cancelled: bool,
    receipts: Option<set<string>>,
    counter: Option<nat>,
    completed: bool,
    upload: Option<Upload>,
    leaked: nat)
  {
    function Receipts(): set<string> {
      if receipts.Some? then receipts.value else {}
    }

    function Counter(): nat {
      if counter.Some? then counter.value else 0
    }

    function InFlight(): nat {
      if upload.Some? then upload.value.got else 0
    }
  }

  const UNKNOWN: View := View(None, None, false, false, None, None, false, None, 0)

  /** What may happen to an id: registration, the three decisions, expiry, and an upload
      that starts, counts a chunk, fails and rolls back, is dropped, or finishes. */
  datatype Action =
    | Admit(transfer: Transfer, token: Option<string>)
    | Approve(issued: string)
    | Deny
    | Revoke
    | Lapse
    | Start(file: FileInfo)
    | Count(n: nat)
    | RollBack
    | Drop
    | Finish

  /** The guards of the handlers. */
  predicate Allowed(v: View, a: Action) {
    match a
    case Admit(t, _) =>
      && v.pending.None? && !v.rejected && !v.cancelled
      && DistinctIds(t.files) && t.files != [] && t.total == TotalSize(t.files)
    case Approve(_) => v.pending.Some? && v.token.None? && !v.completed && !v.cancelled
    case Deny => v.pending.Some? && v.token.None? && !v.completed && !v.cancelled
    case Revoke => v.pending.Some? && !v.completed
    case Lapse => v.upload.None?
    case Start(f) =>
      && v.upload.None? && !v.cancelled && v.token.Some? && v.pending.Some?
      && f in v.pending.value.files && f.id !in v.Receipts()
    case Count(n) => v.upload.Some? && v.upload.value.got + n <= v.upload.value.file.size
    case RollBack => v.upload.Some?
    case Drop => v.upload.Some?
    case Finish => v.upload.Some? && !v.cancelled && v.upload.value.got == v.upload.value.file.size
  }

  function Minus(a: nat, b: nat): nat {
    if a >= b then a - b else 0
  }

  /** Reported every 32 KiB and at the end of the file. */
  predicate Reports(u: Upload, n: nat) {
    u.got + n - u.reported >= PROGRESS_STEP || u.got + n == u.file.size
  }

  function Counted(u: Upload, n: nat): Upload {
    u.(got := u.got + n, reported := if Reports(u, n) then u.got + n else u.reported)
  }

  /** server.rs:383-389: take the upload's bytes off the counter, if there still is one. */
  function RolledBack(v: View): View
    requires v.upload.Some?
  {
    v.(counter := if v.counter.Some? then Some(Minus(v.counter.value, v.upload.value.got)) else None, upload := None)
  }

  /** server.rs:1274-1340: the receipts after a whole file, and completion with the last. */
  function Finished(v: View): View
    requires v.upload.Some?
  {
    var ids := v.Receipts() + {v.upload.value.file.id};
    if |ids| >= |v.upload.value.transfer.files| && !v.completed
    then v.(receipts := Some(ids), upload := None, completed := true, counter := None)
    else v.(receipts := Some(ids), upload := None)
  }

  /** The counter is taken away under an upload. */
  function Struck(upload: Option<Upload>): Option<Upload> {
    if upload.Some? then Some(upload.value.(lost := upload.value.got)) else None
  }

  function After(v: View, a: Action): View
    requires Allowed(v, a)
  {
    match a
    case Admit(t, token) => v.(pending := Some(t), token := token)
    case Approve(token) => v.(token := Some(token))
    case Deny => v.(pending := None, rejected := true)
    case Revoke =>
      v.(pending := None, token := None, cancelled := true, receipts := None, counter := None, leaked := 0,
         upload := Struck(v.upload))
    case Lapse => UNKNOWN
    case Start(f) => v.(upload := Some(Upload(f, v.pending.value, 0, 0, 0)))
    case Count(n) => v.(counter := Some(v.Counter() + n), upload := Some(Counted(v.upload.value, n)))
    case RollBack => RolledBack(v)
    case Drop => v.(upload := None, leaked := v.leaked + Minus(v.upload.value.got, v.upload.value.lost))
    case Finish => Finished(v)
  }

  function FinishEvents(id: string, v: View): seq<Event>
    requires v.upload.Some?
  {
    var u := v.upload.value;
    [Progress(id, if v.counter.Some? then v.counter.value else u.got, u.transfer.total, v.leaked)]
    + if Finished(v).completed && !v.completed
      then [Complete(id, if v.counter.Some? then v.counter.value else u.transfer.total, u.transfer.total, v.leaked)]
      else []
  }

  /** The progress and completion events of an action. */
  function Emits(id: string, v: View, a: Action): seq<Event>
    requires Allowed(v, a)
  {
    match a
    case Count(n) =>
      if Reports(v.upload.value, n) then [Progress(id, v.Counter() + n, v.upload.value.transfer.total, v.leaked)]
      else []
    case Finish => FinishEvents(id, v)
    case _ => []
  }

  // ---------------------------------------------------------------- what every action keeps

  /** A transfer waiting, approved or complete: until it is complete the counter is the
      size of the received files, the bytes of the current upload and what leaked. */
  ghost predicate PendingOk(v: View)
    requires v.pending.Some?
  {
    var t := v.pending.value;
    && DistinctIds(t.files) && t.files != [] && t.total == TotalSize(t.files)
    && v.Receipts() <= Ids(t.files)
    && (v.completed <==> v.Receipts() == Ids(t.files))
    && (if v.completed then v.counter.None? && v.upload.None?
        else v.Counter() == ReceivedSize(t.files, v.Receipts()) + v.InFlight() + v.leaked)
  }

  /** An upload, whose transfer may have been cancelled under it. */
  ghost predicate UploadOk(v: View)
    requires v.upload.Some?
  {
    var u := v.upload.value;
    && u.reported <= u.got <= u.file.size
    && u.got < u.reported + PROGRESS_STEP && (u.got == u.file.size ==> u.reported == u.got)
    && DistinctIds(u.transfer.files) && u.file in u.transfer.files && u.transfer.total == TotalSize(u.transfer.files)
    && (if v.cancelled then v.leaked == 0 && v.Counter() + u.lost == u.got && (v.counter.None? ==> u.lost == u.got)
        else u.lost == 0 && v.token.Some? && v.pending == Some(u.transfer) && u.file.id !in v.Receipts())
  }

  /** The sets of the server agree on one id. */
  ghost predicate Good(v: View) {
    && (v.token.Some? ==> v.pending.Some?)
    && (v.completed ==> v.token.Some?)
    && !(v.pending.Some? && v.rejected) && !(v.pending.Some? && v.cancelled) && !(v.rejected && v.cancelled)
    && (v.pending.Some? ==> PendingOk(v))
    && (v.upload.Some? ==> UploadOk(v))
    && (v.token.None? && !v.cancelled ==> v.receipts.None? && v.counter.None? && v.upload.None? && v.leaked == 0)
    && (v.cancelled ==> v.receipts.None?)
  }

  ghost predicate EventOk(e: Event) {
    e.bytes <= e.total + e.excess && (e.Complete? ==> e.bytes == e.total + e.excess)
  }

  ghost predicate EventsOk(events: seq<Event>) {
    forall e :: e in events ==> EventOk(e)
  }

  /** Byte conservation: a live, incomplete transfer's counter is the received files, the
      upload under way and what dropped uploads leaked; so it balances, and stays within
      the total announced to the user, if and only if nothing has leaked. */
  lemma BooksBalance(v: View)
    requires Good(v) && v.pending.Some? && !v.completed
    ensures v.Counter() == ReceivedSize(v.pending.value.files, v.Receipts()) + v.InFlight() + v.leaked
    ensures v.Counter() == ReceivedSize(v.pending.value.files, v.Receipts()) + v.InFlight() <==> v.leaked == 0
    ensures v.Counter() <= v.pending.value.total + v.leaked
    ensures v.Receipts() < Ids(v.pending.value.files)
  {
    var t := v.pending.value;
    if v.upload.Some? {
      CurrentFits(t.files, v.Receipts(), v.upload.value.file, v.upload.value.got);
    } else {
      ReceivedBounded(t.files, v.Receipts());
    }
  }

  lemma AdmitGood(v: View, t: Transfer, token: Option<string>)
    requires Good(v) && Allowed(v, Admit(t, token))
    ensures v == UNKNOWN && Good(After(v, Admit(t, token)))
  {
    NothingReceived(t.files);
    assert t.files[0].id in Ids(t.files);
  }

  lemma DecisionGood(v: View, a: Action)
    requires Good(v) && Allowed(v, a) && (a.Approve? || a.Deny? || a.Revoke? || a.Lapse?)
    ensures Good(After(v, a))
  {
    if v.pending.Some? && v.token.None? {
      NothingReceived(v.pending.value.files);
      assert v.pending.value.files[0].id in Ids(v.pending.value.files);
    }
  }

  lemma StartGood(v: View, f: FileInfo)
    requires Good(v) && Allowed(v, Start(f))
    ensures Good(After(v, Start(f)))
  {
    assert f.id in Ids(v.pending.value.files);
  }

  lemma CountGood(v: View, n: nat)
    requires Good(v) && Allowed(v, Count(n))
    ensures Good(After(v, Count(n)))
    ensures v.Counter() + n <= v.upload.value.transfer.total + v.leaked
  {
    var u := v.upload.value;
    if !v.cancelled {
      CurrentFits(u.transfer.files, v.Receipts(), u.file, u.got + n);
    } else {
      CurrentFits(u.transfer.files, {}, u.file, u.got + n);
    }
  }

  /** A counted chunk is reported exactly when 32 KiB have come in since the last report or the
      file is through; so less than that is ever unreported, and nothing of a whole file. */
  lemma ChunksAreReported(id: string, v: View, n: nat)
    requires Good(v) && Allowed(v, Count(n))
    ensures var u, u' := v.upload.value, After(v, Count(n)).upload.value;
            && u'.got == u.got + n
            && (Emits(id, v, Count(n)) != [] <==> u.got + n >= u.reported + 32768 || u.got + n == u.file.size)
            && u'.reported == (if Emits(id, v, Count(n)) != [] then u'.got else u.reported)
            && u'.got < u'.reported + 32768 && (u'.got == u.file.size ==> u'.reported == u'.got)
    ensures Emits(id, v, Count(n)) != [] ==>
              Emits(id, v, Count(n)) == [Progress(id, v.Counter() + n, v.upload.value.transfer.total, v.leaked)]
  {
    CountGood(v, n);
  }

  /** Unless the transfer was cancelled meanwhile, the saturating subtraction does not
      saturate and the counter is back where it was before the upload. */
  lemma RollbackGood(v: View)
    requires Good(v) && v.upload.Some?
    ensures Good(RolledBack(v))
    ensures !v.cancelled ==>
              && v.upload.value.got <= v.Counter()
              && RolledBack(v).Counter() == v.Counter() - v.upload.value.got
              && RolledBack(v).Counter() == ReceivedSize(v.upload.value.transfer.files, v.Receipts()) + v.leaked
  {
  }

  lemma DropGood(v: View)
    requires Good(v) && v.upload.Some?
    ensures Good(After(v, Drop))
  {
  }

  /** A whole file in flight: the counter already stands at the new receipts. */
  lemma WholeFile(v: View)
    requires Good(v) && Allowed(v, Finish)
    ensures var t, ids := v.upload.value.transfer, v.Receipts() + {v.upload.value.file.id};
            && v.pending == Some(t) && !v.completed && v.token.Some? && !v.rejected && t.files != []
            && DistinctIds(t.files) && t.total == TotalSize(t.files) && ids <= Ids(t.files)
            && v.Counter() == ReceivedSize(t.files, ids) + v.leaked <= t.total + v.leaked
            && (|ids| >= |t.files| <==> ids == Ids(t.files))
            && (ids == Ids(t.files) ==> v.Counter() == t.total + v.leaked)
            && (v.counter.None? ==> v.upload.value.got == 0 && v.leaked == 0)
  {
    var t, ids := v.upload.value.transfer, v.Receipts() + {v.upload.value.file.id};
    ReceivedGrows(t.files, v.Receipts(), v.upload.value.file);
    ReceivedBounded(t.files, ids);
    AllReceived(t.files, ids);
  }

  lemma FinishGood(v: View)
    requires Good(v) && Allowed(v, Finish)
    ensures Good(Finished(v))
  {
    WholeFile(v);
    var v' := Finished(v);
    assert PendingOk(v');
  }

  /** Every action keeps the sets and the counter of its id in order. */
  lemma ActionGood(v: View, a: Action)
    requires Good(v) && Allowed(v, a)
    ensures Good(After(v, a))
  {
    match a
    case Admit(t, token) => AdmitGood(v, t, token);
    case Approve(_) => DecisionGood(v, a);
    case Deny => DecisionGood(v, a);
    case Revoke => DecisionGood(v, a);
    case Lapse => DecisionGood(v, a);
    case Start(f) => StartGood(v, f);
    case Count(n) => CountGood(v, n);
    case RollBack => RollbackGood(v);
    case Drop => DropGood(v);
    case Finish => FinishGood(v);
  }

  /** A received file reports the received total.  Completion is reported exactly with the
      last file, for the first time, and with the announced total and what leaked. */
  lemma FinishReports(id: string, v: View)
    requires Good(v) && Allowed(v, Finish)
    ensures var t, ids := v.upload.value.transfer, v.Receipts() + {v.upload.value.file.id};
            var progress := Progress(id, ReceivedSize(t.files, ids) + v.leaked, t.total, v.leaked);
            && !v.completed
            && (Finished(v).completed <==> ids == Ids(t.files))
            && FinishEvents(id, v)
               == if ids == Ids(t.files) then [progress, Complete(id, t.total + v.leaked, t.total, v.leaked)]
                  else [progress]
  {
    WholeFile(v);
  }

  lemma EmitsOk(id: string, v: View, a: Action)
    requires Good(v) && Allowed(v, a)
    ensures EventsOk(Emits(id, v, a))
  {
    if a.Count? {
      CountGood(v, a.n);
    } else if a.Finish? {
      WholeFile(v);
      FinishReports(id, v);
    }
  }

  // ---------------------------------------------------------------- the rollback that saturates

  /** saturating_sub is reached and cuts the result off at zero. */
  predicate Saturates(v: View) {
    v.upload.Some? && v.counter.Some? && v.counter.value < v.upload.value.got
  }

  // ---------------------------------------------------------------- sequences of actions

  datatype Act = Act(id: string, action: Action)

  /** What the first k actions make of one id. */
  function ViewOf(trace: seq<Act>, k: nat, id: string): View
    requires k <= |trace|
  {
    if k == 0 then UNKNOWN
    else
      var v, last := ViewOf(trace, k - 1, id), trace[k - 1];
      if last.id == id && Allowed(v, last.action) then After(v, last.action) else v
  }

  /** The action at k was allowed when it happened. */
  predicate Lawful(trace: seq<Act>, k: nat)
    requires k < |trace|
  {
    Allowed(ViewOf(trace, k, trace[k].id), trace[k].action)
  }

  predicate WellTraced(trace: seq<Act>) {
    forall k: nat :: k < |trace| ==> Lawful(trace, k)
  }

  /** The events emitted by the first k actions. */
  function EventsOf(trace: seq<Act>, k: nat): seq<Event>
    requires k <= |trace|
  {
    if k == 0 then []
    else if Lawful(trace, k - 1) then
      EventsOf(trace, k - 1) + Emits(trace[k - 1].id, ViewOf(trace, k - 1, trace[k - 1].id), trace[k - 1].action)
    else EventsOf(trace, k - 1)
  }

  lemma {:induction false} ViewAppended(trace: seq<Act>, act: Act, k: nat, id: string)
    requires k <= |trace|
    ensures ViewOf(trace + [act], k, id) == ViewOf(trace, k, id)
  {
    if k > 0 {
      ViewAppended(trace, act, k - 1, id);
    }
  }

  lemma {:induction false} EventsAppended(trace: seq<Act>, act: Act, k: nat)
    requires k <= |trace|
    ensures EventsOf(trace + [act], k) == EventsOf(trace, k)
  {
    if k > 0 {
      ViewAppended(trace, act, k - 1, trace[k - 1].id);
      EventsAppended(trace, act, k - 1);
    }
  }

  lemma ViewAfter(trace: seq<Act>, act: Act, id: string)
    requires Allowed(ViewOf(trace, |trace|, act.id), act.action)
    ensures ViewOf(trace + [act], |trace| + 1, id)
            == if id == act.id then After(ViewOf(trace, |trace|, id), act.action) else ViewOf(trace, |trace|, id)
  {
    ViewAppended(trace, act, |trace|, id);
  }

  lemma TraceAppended(trace: seq<Act>, act: Act)
    requires WellTraced(trace) && Allowed(ViewOf(trace, |trace|, act.id), act.action)
    ensures WellTraced(trace + [act])
    ensures EventsOf(trace + [act], |trace| + 1)
            == EventsOf(trace, |trace|) + Emits(act.id, ViewOf(trace, |trace|, act.id), act.action)
  {
    forall k: nat | k < |trace| + 1 ensures Lawful(trace + [act], k) {
      ViewAppended(trace, act, k, (trace + [act])[k].id);
      assert k < |trace| ==> Lawful(trace, k);
    }
    EventsAppended(trace, act, |trace|);
    ViewAppended(trace, act, |trace|, act.id);
  }

  lemma {:induction false} TraceGood(trace: seq<Act>, k: nat, id: string)
    requires WellTraced(trace) && k <= |trace|
    ensures Good(ViewOf(trace, k, id))
  {
    if k > 0 {
      TraceGood(trace, k - 1, id);
      var v := ViewOf(trace, k - 1, id);
      if trace[k - 1].id == id && Allowed(v, trace[k - 1].action) {
        ActionGood(v, trace[k - 1].action);
      }
    }
  }

  lemma {:induction false} TraceEventsOk(trace: seq<Act>, k: nat)
    requires WellTraced(trace) && k <= |trace|
    ensures EventsOk(EventsOf(trace, k))
  {
    if k > 0 {
      TraceEventsOk(trace, k - 1);
      if Lawful(trace, k - 1) {
        var v := ViewOf(trace, k - 1, trace[k - 1].id);
        TraceGood(trace, k - 1, trace[k - 1].id);
        EmitsOk(trace[k - 1].id, v, trace[k - 1].action);
      }
    }
  }

  /** The action at p, and what it does to one id. */
  lemma Advances(trace: seq<Act>, p: nat, id: string)
    requires WellTraced(trace) && p < |trace|
    ensures Good(ViewOf(trace, p, id))
    ensures ViewOf(trace, p + 1, id)
            == if trace[p].id == id && Allowed(ViewOf(trace, p, id), trace[p].action)
               then After(ViewOf(trace, p, id), trace[p].action) else ViewOf(trace, p, id)
    ensures trace[p].id == id ==> Allowed(ViewOf(trace, p, id), trace[p].action)
  {
    TraceGood(trace, p, id);
    assert Lawful(trace, p);
  }

  /** Cancelled or expired. */
  predicate Ends(a: Act, id: string) {
    a.id == id && (a.action.Revoke? || a.action.Lapse?)
  }

  lemma TokenStays(v: View, a: Action)
    requires Good(v) && Allowed(v, a) && v.token.Some? && !a.Revoke? && !a.Lapse?
    ensures After(v, a).token == v.token
  {
  }

  lemma TokenStep(trace: seq<Act>, p: nat, id: string)
    requires WellTraced(trace) && p < |trace| && !Ends(trace[p], id) && ViewOf(trace, p, id).token.Some?
    ensures ViewOf(trace, p + 1, id).token == ViewOf(trace, p, id).token
  {
    Advances(trace, p, id);
    if trace[p].id == id {
      TokenStays(ViewOf(trace, p, id), trace[p].action);
    }
  }

  /** A token once handed out never changes until the transfer is cancelled or expires. */
  lemma {:induction false} TokenNeverChanges(trace: seq<Act>, i: nat, k: nat, id: string)
    requires WellTraced(trace) && i <= k <= |trace| && forall q :: i <= q < k ==> !Ends(trace[q], id)
    requires ViewOf(trace, i, id).token.Some?
    ensures ViewOf(trace, k, id).token == ViewOf(trace, i, id).token
    decreases k
  {
    if i < k {
      TokenNeverChanges(trace, i, k - 1, id);
      TokenStep(trace, k - 1, id);
    }
  }

  // ---------------------------------------------------------------- completion over traces

  /** Completion reports among the events. */
  function Completions(events: seq<Event>, id: string): nat {
    if events == [] then 0
    else Completions(events[..|events| - 1], id)
         + if events[|events| - 1].Complete? && events[|events| - 1].id == id then 1 else 0
  }

  lemma {:induction false} CompletionsAdd(a: seq<Event>, b: seq<Event>, id: string)
    ensures Completions(a + b, id) == Completions(a, id) + Completions(b, id)
  {
    if b == [] {
      assert a + b == a;
    } else {
      CompletionsAdd(a, b[..|b| - 1], id);
      assert (a + b)[..|a + b| - 1] == a + b[..|b| - 1];
    }
  }

  lemma FewCompletions(p: Event, c: Event, id: string)
    requires p.Progress?
    ensures Completions([p], id) == 0
    ensures Completions([p, c], id) == if c.Complete? && c.id == id then 1 else 0
  {
    assert [p][..0] == [] && [p, c][..1] == [p];
  }

  lemma ActionCompletions(actor: string, v: View, a: Action, id: string)
    requires Good(v) && Allowed(v, a)
    ensures Completions(Emits(actor, v, a), id)
            == if actor == id && !v.completed && After(v, a).completed then 1 else 0
  {
    if a.Finish? {
      FinishReports(actor, v);
      var t, ids := v.upload.value.transfer, v.Receipts() + {v.upload.value.file.id};
      FewCompletions(FinishEvents(actor, v)[0], Complete(actor, t.total + v.leaked, t.total, v.leaked), id);
    } else if a.Count? && Reports(v.upload.value, a.n) {
      FewCompletions(Emits(actor, v, a)[0], Emits(actor, v, a)[0], id);
    }
  }

  /** Only expiry ends completion. */
  lemma StaysCompleted(v: View, a: Action)
    requires Good(v) && Allowed(v, a) && !a.Lapse?
    ensures v.completed ==> After(v, a).completed
    ensures a.Admit? ==> !After(v, a).completed
  {
  }

  /** From the admission at index a on, the id has not expired. */
  predicate SinceAdmission(trace: seq<Act>, a: nat, k: nat, id: string) {
    && a < k <= |trace| && trace[a].id == id && trace[a].action.Admit?
    && forall q :: a < q < k ==> !(trace[q].id == id && trace[q].action.Lapse?)
  }

  /** How often the id has become complete. */
  function TimesDone(trace: seq<Act>, k: nat, id: string): nat
    requires k <= |trace|
  {
    if k == 0 then 0
    else TimesDone(trace, k - 1, id)
         + if !ViewOf(trace, k - 1, id).completed && ViewOf(trace, k, id).completed then 1 else 0
  }

  lemma CompletionStep(trace: seq<Act>, p: nat, id: string)
    requires WellTraced(trace) && p < |trace|
    ensures Completions(EventsOf(trace, p + 1), id)
            == Completions(EventsOf(trace, p), id)
               + (if !ViewOf(trace, p, id).completed && ViewOf(trace, p + 1, id).completed then 1 else 0)
  {
    Advances(trace, p, id);
    Advances(trace, p, trace[p].id);
    var v := ViewOf(trace, p, trace[p].id);
    CompletionsAdd(EventsOf(trace, p), Emits(trace[p].id, v, trace[p].action), id);
    ActionCompletions(trace[p].id, v, trace[p].action, id);
  }

  /** There is one completion event for each time the id has become complete. */
  lemma {:induction false} CompletionsAreTrue(trace: seq<Act>, k: nat, id: string)
    requires WellTraced(trace) && k <= |trace|
    ensures Completions(EventsOf(trace, k), id) == TimesDone(trace, k, id)
  {
    if k > 0 {
      CompletionStep(trace, k - 1, id);
      CompletionsAreTrue(trace, k - 1, id);
    }
  }

  lemma DoneStep(trace: seq<Act>, p: nat, id: string)
    requires WellTraced(trace) && p < |trace| && !(trace[p].id == id && trace[p].action.Lapse?)
    ensures ViewOf(trace, p, id).completed ==> ViewOf(trace, p + 1, id).completed
    ensures trace[p].id == id && trace[p].action.Admit? ==> !ViewOf(trace, p + 1, id).completed
  {
    Advances(trace, p, id);
    if trace[p].id == id {
      StaysCompleted(ViewOf(trace, p, id), trace[p].action);
    }
  }

  lemma {:induction false} DoneOnce(trace: seq<Act>, a: nat, k: nat, id: string)
    requires WellTraced(trace) && SinceAdmission(trace, a, k, id)
    ensures TimesDone(trace, k, id) == TimesDone(trace, a, id) + if ViewOf(trace, k, id).completed then 1 else 0
    decreases k
  {
    DoneStep(trace, k - 1, id);
    if k - 1 > a {
      DoneOnce(trace, a, k - 1, id);
    }
  }

  /** Completion is reported exactly once: since its admission as many completion events of
      a transfer have been emitted as it is complete, 0 or 1, whatever else was in between. */
  lemma CompletionReportedOnce(trace: seq<Act>, a: nat, k: nat, id: string)
    requires WellTraced(trace) && SinceAdmission(trace, a, k, id)
    ensures Completions(EventsOf(trace, k), id)
            == Completions(EventsOf(trace, a), id) + if ViewOf(trace, k, id).completed then 1 else 0
  {
    CompletionsAreTrue(trace, a, id);
    CompletionsAreTrue(trace, k, id);
    DoneOnce(trace, a, k, id);
  }

  // ---------------------------------------------------------------- what goes wrong in uploads

  /** The upload of the id that started at s is still under way. */
  predicate Underway(trace: seq<Act>, s: nat, k: nat, id: string) {
    && s < k <= |trace| && trace[s].id == id && trace[s].action.Start?
    && forall q :: s < q < k ==>
         trace[q].id == id ==> !trace[q].action.RollBack? && !trace[q].action.Drop? && !trace[q].action.Finish?
  }

  /** What can go wrong with an upload: it is dropped, or cancelled, with counted bytes, or
      a chunk of it is counted although the transfer is cancelled. */
  datatype Mishap = Leak | Strike | LateCount

  predicate Befalls(v: View, a: Action, m: Mishap) {
    match m
    case Leak => a.Drop? && v.InFlight() > 0
    case Strike => a.Revoke? && v.InFlight() > 0
    case LateCount => a.Count? && v.cancelled
  }

  predicate Happens(trace: seq<Act>, q: nat, id: string, m: Mishap)
    requires q < |trace|
  {
    trace[q].id == id && Befalls(ViewOf(trace, q, id), trace[q].action, m)
  }

  ghost predicate Happened(trace: seq<Act>, s: nat, k: nat, id: string, m: Mishap)
    requires k <= |trace|
  {
    exists q: nat :: s < q < k && Happens(trace, q, id, m)
  }

  lemma HappenedStep(trace: seq<Act>, s: nat, p: nat, id: string, m: Mishap)
    requires s < p < |trace|
    ensures Happened(trace, s, p + 1, id, m) <==> Happened(trace, s, p, id, m) || Happens(trace, p, id, m)
  {
  }

  lemma UploadStep(v: View, a: Action)
    requires Good(v) && Allowed(v, a) && v.upload.Some? && !a.RollBack? && !a.Drop? && !a.Finish?
    ensures var v' := After(v, a);
            && v'.upload.Some?
            && (v'.upload.value.lost > 0 <==> v.upload.value.lost > 0 || Befalls(v, a, Strike))
            && (v'.cancelled && v'.counter.Some? <==> (v.cancelled && v.counter.Some?) || Befalls(v, a, LateCount))
  {
  }

  lemma {:induction false} UploadHistory(trace: seq<Act>, s: nat, k: nat, id: string)
    requires WellTraced(trace) && Underway(trace, s, k, id)
    ensures var v := ViewOf(trace, k, id);
            && v.upload.Some?
            && (v.upload.value.lost > 0 <==> Happened(trace, s, k, id, Strike))
            && (v.cancelled && v.counter.Some? <==> Happened(trace, s, k, id, LateCount))
    decreases k
  {
    Advances(trace, k - 1, id);
    if k - 1 > s {
      UploadHistory(trace, s, k - 1, id);
      HappenedStep(trace, s, k - 1, id, Strike);
      HappenedStep(trace, s, k - 1, id, LateCount);
      if trace[k - 1].id == id {
        UploadStep(ViewOf(trace, k - 1, id), trace[k - 1].action);
      }
    }
  }

  /** A failing upload's rollback saturates if and only if a cancellation came after bytes of
      the upload had been counted, and a further chunk was counted before the handler saw it. */
  lemma SaturatesIff(trace: seq<Act>, s: nat, k: nat, id: string)
    requires WellTraced(trace) && Underway(trace, s, k, id)
    ensures Saturates(ViewOf(trace, k, id))
            <==> Happened(trace, s, k, id, Strike) && Happened(trace, s, k, id, LateCount)
  {
    UploadHistory(trace, s, k, id);
    TraceGood(trace, k, id);
  }

  lemma LiveStep(v: View, a: Action)
    requires Good(v) && Allowed(v, a) && !v.cancelled && !a.Revoke? && !a.Lapse?
    ensures !After(v, a).cancelled && (a.Admit? ==> After(v, a).leaked == 0)
    ensures After(v, a).leaked > 0 <==> v.leaked > 0 || Befalls(v, a, Leak)
  {
  }

  /** Something has leaked into a live transfer's counter if and only if an upload of it was
      dropped, since its admission, after bytes of it had been counted. */
  lemma {:induction false} LeakedIff(trace: seq<Act>, a: nat, k: nat, id: string)
    requires WellTraced(trace) && SinceAdmission(trace, a, k, id)
    requires forall q :: a < q < k ==> !Ends(trace[q], id)
    ensures !ViewOf(trace, k, id).cancelled
    ensures ViewOf(trace, k, id).leaked > 0 <==> Happened(trace, a, k, id, Leak)
    decreases k
  {
    Advances(trace, k - 1, id);
    if k - 1 > a {
      LeakedIff(trace, a, k - 1, id);
      HappenedStep(trace, a, k - 1, id, Leak);
    }
    if trace[k - 1].id == id {
      LiveStep(ViewOf(trace, k - 1, id), trace[k - 1].action);
    }
  }
}
