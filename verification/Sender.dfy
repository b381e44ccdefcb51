/** The resumable sender (src/resumable.rs): request retries, checkpoints, approval, the
    per-file resume loop. */
module Sender {
  import opened Wrappers
  import opened Manifests
  import opened Disks
  import opened Durable
  import opened DurableSnapshot
  import opened Resumable

  datatype SendError =
    | InvalidConfig | FileIo | Network | TransferCancelled | TransferRejected | TransferNotFound | TransferTimeout

  // ---------------------------------------------------------------- the network

  type Failure = code: nat | !Success(code) witness 500

  /** What becomes of one request: lost (either way), served by the receiver, or refused
      with a status that is not a success. */
  datatype Fate = Lost | Served | Refused(code: Failure)

  /** The request meets the receiver in state `at` of its run; of an upload body the
      first `streamed` bytes leave the sender. */
  datatype Turn = Turn(at: nat, fate: Fate, streamed: nat)

  datatype Request = PostManifest(manifest: Manifest) | GetStatus

  datatype Reply = NoReply | Reply(code: nat, body: Option<ResumeStatus>)

  /** An upload request; `seen` is the turn whose checkpoint it resumes from. */
  datatype Sent = Sent(fileId: string, offset: nat, token: string, body: Bytes, seen: nat)

  predicate Success(code: nat) {
    200 <= code < 300
  }

  /** Worth another attempt for a registration or status request. */
  predicate Transient(r: Reply) {
    r.NoReply? || r.code >= 500 || r.code == 408 || r.code == 429
  }

  predicate Delivered(r: Reply) {
    r.Reply? && Success(r.code)
  }

  function HttpError(code: nat): SendError {
    if code == 410 then TransferCancelled
    else if code == 422 then FileIo
    else if code == 401 || code == 403 then InvalidConfig
    else Network
  }

  /** A peer: some run of a receiver and what happens to each request in turn. */
  class Wire {
    const states: seq<World>
    const sid: string
    const turns: seq<Turn>
    var pos: nat
    var sent: seq<Sent>

    constructor (states: seq<World>, sid: string, turns: seq<Turn>)
      ensures this.states == states && this.sid == sid && this.turns == turns && pos == 0 && sent == []
    {
      this.states, this.sid, this.turns, this.pos, this.sent := states, sid, turns, 0, [];
    }

    /** Requests meet later and later states. */
    predicate Ordered() {
      forall p, q :: 0 <= p <= q < |turns| ==> turns[p].at <= turns[q].at
    }

    predicate Meets(p: nat) {
      p < |turns| && turns[p].fate.Served? && turns[p].at < |states| && sid in states[turns[p].at].sessions
    }

    /** The receiver's record met at turn p. */
    function Met(p: nat): Record
      requires Meets(p)
    {
      states[turns[p].at].sessions[sid].rec
    }

    function StatusAt(p: nat): ResumeStatus
      requires Meets(p)
    {
      Snapshot(states[turns[p].at].disk, sid, Met(p))
    }

    /** Registering succeeds when the session then exists with this very manifest and
        conflicts otherwise; a status request needs the session. */
    function ReplyAt(p: nat, req: Request): Reply {
      if p >= |turns| || turns[p].fate.Lost? then NoReply
      else if turns[p].fate.Refused? then Reply(turns[p].fate.code, None)
      else if !Meets(p) then Reply(404, None)
      else if req.GetStatus? then Reply(200, Some(StatusAt(p)))
      else if Met(p).manifest == req.manifest then Reply(200, None)
      else Reply(409, None)
    }

    /** An upload is answered with a status alone. */
    function UploadReply(p: nat): Reply {
      var met := ReplyAt(p, GetStatus);
      if met.Reply? then Reply(met.code, None) else NoReply
    }

    /** How much of a body leaves the sender at turn p. */
    function Streamed(p: nat, length: nat): nat {
      if p < |turns| then Min(turns[p].streamed, length) else 0
    }

    method Ask(req: Request) returns (reply: Reply)
      modifies this`pos
      ensures pos == old(pos) + 1 && reply == ReplyAt(old(pos), req)
    {
      reply := ReplyAt(pos, req);
      pos := pos + 1;
    }

    method Upload(s: Sent) returns (reply: Reply, streamed: nat)
      modifies this`pos, this`sent
      ensures pos == old(pos) + 1 && sent == old(sent) + [s]
      ensures reply == UploadReply(old(pos)) && streamed == Streamed(old(pos), |s.body|) <= |s.body|
    {
      var met := ReplyAt(pos, GetStatus);
      reply := if met.Reply? then Reply(met.code, None) else NoReply;
      streamed := if pos < |turns| then Min(turns[pos].streamed, |s.body|) else 0;
      pos := pos + 1;
      sent := sent + [s];
    }
  }

  /** The receiver's report at this turn is of a complete session. */
  predicate ReportsComplete(wire: Wire, p: nat) {
    wire.Meets(p) && wire.Met(p).complete
  }

  /** The receiver holds a session with this very manifest at this turn. */
  predicate Registers(wire: Wire, p: nat, m: Manifest) {
    wire.Meets(p) && wire.Met(p).manifest == m
  }

  // ---------------------------------------------------------------- progress of a report

  lemma {:induction false} RemoveFile(files: seq<FileInfo>, i: nat)
    requires i < |files|
    ensures TotalSize(files) == TotalSize(files[..i] + files[i + 1..]) + files[i].size
  {
    var n := |files| - 1;
    if i < n {
      RemoveFile(files[..n], i);
      var rest := files[..i] + files[i + 1..];
      assert rest[..n - 1] == files[..n][..i] + files[..n][i + 1..];
      assert rest[n - 1] == files[n];
    } else {
      assert files[..i] + files[i + 1..] == files[..n];
    }
  }

  /** The offsets of an accepted report never add up to more than the plan's total. */
  lemma {:induction false} PointSumBounded(files: seq<FileInfo>, points: seq<FileCheckpoint>)
    requires DistinctIds(files) && DistinctPoints(points) && forall p :: p in points ==> MatchesOne(files, p)
    ensures PointSum(points) <= TotalSize(files)
    decreases |points|
  {
    if points != [] {
      var n := |points| - 1;
      assert points[n] in points;
      var f :| f in files && Matches(f, points[n]);
      var i :| 0 <= i < |files| && files[i] == f;
      var rest := files[..i] + files[i + 1..];
      RemoveFile(files, i);
      forall p | p in points[..n] ensures MatchesOne(rest, p) {
        var k :| 0 <= k < n && points[..n][k] == p;
        assert p in points;
        var g :| g in files && Matches(g, p);
        assert points[k].fileId != points[n].fileId;
        var j :| 0 <= j < |files| && files[j] == g;
        assert j != i;
        assert g == if j < i then rest[j] else rest[j - 1];
      }
      assert DistinctIds(rest);
      PointSumBounded(rest, points[..n]);
    }
  }

  lemma {:induction false} RaisePoint(points: seq<FileCheckpoint>, i: nat, offset: nat)
    requires i < |points|
    ensures PointSum(points[i := points[i].(offset := offset)]) == PointSum(points) - points[i].offset + offset
  {
    var n := |points| - 1;
    var raised := points[i := points[i].(offset := offset)];
    if i < n {
      RaisePoint(points[..n], i, offset);
      assert raised[..n] == points[..n][i := points[i].(offset := offset)];
    } else {
      assert raised[..n] == points[..n];
    }
  }

  /** Sending the rest of one file on top of the report stays within the total. */
  lemma RestFits(files: seq<FileInfo>, points: seq<FileCheckpoint>, f: FileInfo, p: FileCheckpoint)
    requires DistinctIds(files) && DistinctPoints(points) && forall q :: q in points ==> MatchesOne(files, q)
    requires f in files && p in points && Matches(f, p)
    ensures PointSum(points) + (f.size - p.offset) <= TotalSize(files)
  {
    var i :| 0 <= i < |points| && points[i] == p;
    var raised := points[i := p.(offset := f.size)];
    RaisePoint(points, i, f.size);
    forall q | q in raised ensures MatchesOne(files, q) {
      if q == raised[i] {
        assert Matches(f, q);
      } else {
        assert q in points;
      }
    }
    PointSumBounded(files, raised);
  }

  // ---------------------------------------------------------------- the sender

  /** The upload resumes its file where the receiver's own report said, with the token and
      exactly the remaining source bytes. */
  predicate SentOk(wire: Wire, plan: PreparedTransfer, sources: map<string, Bytes>, s: Sent) {
    && wire.Meets(s.seen)
    && ResumesAt(plan, wire.StatusAt(s.seen), s)
    && exists k :: 0 <= k < |plan.files| && plan.files[k].info.id == s.fileId && Rest(plan.files[k], sources, s)
  }

  /** ... and its report was fetched between the two turns. */
  predicate Uploaded(
    wire: Wire, plan: PreparedTransfer, sources: map<string, Bytes>, token: string, lo: nat, hi: nat, s: Sent) {
    SentOk(wire, plan, sources, s) && s.token == token && lo <= s.seen < hi
  }

  predicate AllUploaded(
    wire: Wire, plan: PreparedTransfer, sources: map<string, Bytes>, token: string, lo: nat, hi: nat, sent: seq<Sent>)
  {
    forall n {:trigger Uploaded(wire, plan, sources, token, lo, hi, sent[n])} ::
      0 <= n < |sent| ==> Uploaded(wire, plan, sources, token, lo, hi, sent[n])
  }

  lemma MoreUploaded(
    wire: Wire, plan: PreparedTransfer, sources: map<string, Bytes>, token: string, lo: nat, mid: nat, hi: nat,
    before: seq<Sent>, news: seq<Sent>)
    requires AllUploaded(wire, plan, sources, token, lo, mid, before) && lo <= mid <= hi
    requires AllUploaded(wire, plan, sources, token, mid, hi, news)
    ensures AllUploaded(wire, plan, sources, token, lo, hi, before + news)
  {
    forall n | 0 <= n < |before + news| ensures Uploaded(wire, plan, sources, token, lo, hi, (before + news)[n]) {
      if n < |before| {
        assert Uploaded(wire, plan, sources, token, lo, mid, before[n]);
      } else {
        assert Uploaded(wire, plan, sources, token, mid, hi, news[n - |before|]);
      }
    }
  }

  lemma UploadedInOrder(
    wire: Wire, plan: PreparedTransfer, sources: map<string, Bytes>, token: string, lo: nat, hi: nat,
    before: seq<Sent>, news: seq<Sent>)
    requires AllUploaded(wire, plan, sources, token, lo, hi, news) && wire.sent == before + news
    ensures SentFrom(wire, plan, sources, before)
  {
    forall n | |before| <= n < |wire.sent| ensures SentOk(wire, plan, sources, wire.sent[n]) {
      assert Uploaded(wire, plan, sources, token, lo, hi, news[n - |before|]);
    }
  }

  /** Everything sent since is in order. */
  predicate SentFrom(wire: Wire, plan: PreparedTransfer, sources: map<string, Bytes>, before: seq<Sent>)
    reads wire`sent
  {
    before <= wire.sent
    && forall n :: |before| <= n < |wire.sent| ==> SentOk(wire, plan, sources, wire.sent[n])
  }

  // ---------------------------------------------------------------- why a request fails

  /** One request with up to n retries, made between the turns lo and hi: only transient
      replies are tried again, and such a reply is final only when no retry is left. */
  predicate Asked(wire: Wire, req: Request, lo: nat, hi: nat, n: nat) {
    && lo < hi <= lo + n + 1
    && (forall p :: lo <= p < hi - 1 ==> Transient(wire.ReplyAt(p, req)))
    && (Transient(wire.ReplyAt(hi - 1, req)) ==> hi == lo + n + 1)
  }

  /** The error a reply that is not a success is reported as. */
  predicate ErrorIs(r: Reply, e: SendError) {
    && (e == TransferCancelled <==> r.Reply? && r.code == 410)
    && (e == FileIo <==> r.Reply? && r.code == 422)
    && (e == InvalidConfig <==> r.Reply? && r.code in {401, 403})
    && (e == Network <==> (r.Reply? ==> r.code !in {401, 403, 410, 422}))
  }

  predicate RequestFails(wire: Wire, req: Request, lo: nat, hi: nat, n: nat, e: SendError) {
    Asked(wire, req, lo, hi, n) && !Delivered(wire.ReplyAt(hi - 1, req)) && ErrorIs(wire.ReplyAt(hi - 1, req), e)
  }

  /** The receiver's report at turn p is one the sender accepts. */
  predicate Reports(wire: Wire, plan: PreparedTransfer, p: nat) {
    wire.Meets(p) && StatusOk(Infos(plan.files), wire.StatusAt(p))
  }

  /** No report is had, or one that the sender does not accept. */
  predicate CheckFails(wire: Wire, plan: PreparedTransfer, lo: nat, hi: nat, n: nat, e: SendError) {
    || RequestFails(wire, GetStatus, lo, hi, n, e)
    || (Asked(wire, GetStatus, lo, hi, n) && wire.Meets(hi - 1) && !Reports(wire, plan, hi - 1) && e == Network)
  }

  /** ... as the last thing before hi. */
  ghost predicate EndsUnchecked(wire: Wire, plan: PreparedTransfer, lo: nat, hi: nat, n: nat, e: SendError) {
    exists from: nat :: lo <= from && CheckFails(wire, plan, from, hi, n, e)
  }

  predicate Cancelled(wire: Wire, plan: PreparedTransfer, p: nat) {
    Reports(wire, plan, p) && wire.StatusAt(p).cancelled
  }

  /** Reports of an undecided session, one after the other. */
  predicate Undecided(wire: Wire, plan: PreparedTransfer, polls: seq<nat>, lo: nat, hi: nat) {
    && (forall i :: 0 <= i < |polls| ==>
          && lo <= polls[i] < hi && Reports(wire, plan, polls[i])
          && !wire.StatusAt(polls[i]).cancelled && wire.StatusAt(polls[i]).status == Pending)
    && forall i, j :: 0 <= i < j < |polls| ==> polls[i] < polls[j]
  }

  /** Nobody decided in time, no report was had, or the report says no. */
  ghost predicate ApprovalFails(
    wire: Wire, plan: PreparedTransfer, lo: nat, hi: nat, n: nat, patience: nat, e: SendError)
  {
    || (e == TransferTimeout && exists polls :: |polls| == patience && Undecided(wire, plan, polls, lo, hi))
    || EndsUnchecked(wire, plan, lo, hi, n, e)
    || (lo < hi && Cancelled(wire, plan, hi - 1) && e == TransferCancelled)
    || (lo < hi && Reports(wire, plan, hi - 1) && !wire.StatusAt(hi - 1).cancelled
        && ((wire.StatusAt(hi - 1).status == Rejected && e == TransferRejected)
            || (wire.StatusAt(hi - 1).status == NotFound && e == TransferNotFound)))
  }

  /** The session is approved and going on. */
  predicate Approves(wire: Wire, plan: PreparedTransfer, p: nat) {
    && Reports(wire, plan, p) && wire.StatusAt(p).status == Accepted && !wire.StatusAt(p).cancelled
    && wire.StatusAt(p).token.Some?
  }

  // ---------------------------------------------------------------- what becomes of a file

  /** An upload worth another attempt. */
  predicate Retriable(r: Reply) {
    r.NoReply? || r.code >= 500 || r.code in {408, 409}
  }

  predicate HasFile(st: ResumeStatus, id: string) {
    exists p :: p in st.files && p.fileId == id && p.complete
  }

  /** The receiver reports at turn p that it has the file. */
  predicate SeenWhole(wire: Wire, plan: PreparedTransfer, p: nat, id: string) {
    Reports(wire, plan, p) && !wire.StatusAt(p).cancelled && HasFile(wire.StatusAt(p), id)
  }

  /** The upload of the file, made between lo and hi, was answered with success. */
  predicate SentWhole(wire: Wire, s: Sent, id: string, lo: nat, hi: nat) {
    s.fileId == id && lo <= s.seen && s.seen + 1 < hi && Delivered(wire.UploadReply(s.seen + 1))
  }

  /** The receiver has the file, by its own word or by the reply to an upload. */
  ghost predicate FileSent(wire: Wire, plan: PreparedTransfer, id: string, lo: nat, hi: nat, sent: seq<Sent>) {
    || (exists p :: lo <= p < hi && SeenWhole(wire, plan, p, id))
    || (exists s :: s in sent && SentWhole(wire, s, id, lo, hi))
  }

  lemma FileSentGrows(
    wire: Wire, plan: PreparedTransfer, id: string, lo: nat, hi: nat, sent: seq<Sent>,
    lo': nat, hi': nat, before: seq<Sent>, after: seq<Sent>)
    requires FileSent(wire, plan, id, lo, hi, sent) && lo' <= lo && hi <= hi'
    ensures FileSent(wire, plan, id, lo', hi', before + sent + after)
  {
    if s :| s in sent && SentWhole(wire, s, id, lo, hi) {
      assert s in before + sent + after && SentWhole(wire, s, id, lo', hi');
    } else {
      var p :| lo <= p < hi && SeenWhole(wire, plan, p, id);
      assert lo' <= p < hi' && SeenWhole(wire, plan, p, id);
    }
  }

  /** Uploads of one file that were all worth another attempt, one after the other. */
  predicate AllFailed(wire: Wire, id: string, sent: seq<Sent>, lo: nat, hi: nat) {
    && (forall i :: 0 <= i < |sent| ==>
          sent[i].fileId == id && lo <= sent[i].seen < hi - 1 && Retriable(wire.UploadReply(sent[i].seen + 1)))
    && forall i, j :: 0 <= i < j < |sent| ==> sent[i].seen < sent[j].seen
  }

  /** The file is given up between lo and hi: the report is not had, or cancelled; or its last
      upload was refused for good, or was the last of n + 1 that failed. */
  ghost predicate FileFails(
    wire: Wire, plan: PreparedTransfer, id: string, lo: nat, hi: nat, n: nat, sent: seq<Sent>, e: SendError)
  {
    || EndsUnchecked(wire, plan, lo, hi, n, e)
    || (lo < hi && Cancelled(wire, plan, hi - 1) && e == TransferCancelled)
    || (lo + 1 < hi && sent != [] && sent[|sent| - 1].fileId == id && sent[|sent| - 1].seen + 2 == hi
        && !Delivered(wire.UploadReply(hi - 1)) && ErrorIs(wire.UploadReply(hi - 1), e)
        && (Retriable(wire.UploadReply(hi - 1)) ==> |sent| == n + 1 && AllFailed(wire, id, sent, lo, hi)))
  }

  ghost predicate AllSent(wire: Wire, plan: PreparedTransfer, k: nat, lo: nat, hi: nat, sent: seq<Sent>)
    requires k <= |plan.files|
  {
    forall j {:trigger FileSent(wire, plan, plan.files[j].info.id, lo, hi, sent)} ::
      0 <= j < k ==> FileSent(wire, plan, plan.files[j].info.id, lo, hi, sent)
  }

  /** The k-th file is given up at turn hi, all before it having been sent. */
  ghost predicate FailsAt(
    wire: Wire, plan: PreparedTransfer, k: nat, lo: nat, mid: nat, hi: nat, n: nat,
    before: seq<Sent>, news: seq<Sent>, e: SendError)
  {
    && k < |plan.files| && lo <= mid && AllSent(wire, plan, k, lo, mid, before)
    && FileFails(wire, plan, plan.files[k].info.id, mid, hi, n, news, e)
  }

  ghost predicate FilesFail(
    wire: Wire, plan: PreparedTransfer, lo: nat, hi: nat, n: nat, sent: seq<Sent>, e: SendError)
  {
    exists k: nat, mid: nat, before, news ::
      sent == before + news && FailsAt(wire, plan, k, lo, mid, hi, n, before, news, e)
  }

  lemma FileEndsPlan(
    wire: Wire, plan: PreparedTransfer, k: nat, lo: nat, mid: nat, hi: nat, n: nat,
    before: seq<Sent>, news: seq<Sent>, e: SendError)
    requires FailsAt(wire, plan, k, lo, mid, hi, n, before, news, e)
    ensures FilesFail(wire, plan, lo, hi, n, before + news, e)
  {
  }

  lemma OneMoreSent(
    wire: Wire, plan: PreparedTransfer, k: nat, lo: nat, mid: nat, hi: nat, before: seq<Sent>, news: seq<Sent>)
    requires k < |plan.files| && lo <= mid <= hi && AllSent(wire, plan, k, lo, mid, before)
    requires FileSent(wire, plan, plan.files[k].info.id, mid, hi, news)
    ensures AllSent(wire, plan, k + 1, lo, hi, before + news)
  {
    forall j | 0 <= j <= k ensures FileSent(wire, plan, plan.files[j].info.id, lo, hi, before + news) {
      if j < k {
        FileSentGrows(wire, plan, plan.files[j].info.id, lo, mid, before, lo, hi, [], news);
        assert [] + before + news == before + news;
      } else {
        FileSentGrows(wire, plan, plan.files[k].info.id, mid, hi, news, lo, hi, before, []);
        assert before + news + [] == before + news;
      }
    }
  }

  lemma SentStays(wire: Wire, plan: PreparedTransfer, lo: nat, hi: nat, hi': nat, sent: seq<Sent>)
    requires AllSent(wire, plan, |plan.files|, lo, hi, sent) && hi <= hi'
    ensures AllSent(wire, plan, |plan.files|, lo, hi', sent)
  {
    forall j | 0 <= j < |plan.files| ensures FileSent(wire, plan, plan.files[j].info.id, lo, hi', sent) {
      FileSentGrows(wire, plan, plan.files[j].info.id, lo, hi, sent, lo, hi', [], []);
      assert [] + sent + [] == sent;
    }
  }

  // ---------------------------------------------------------------- why a plan fails

  /** No final report is had, or it is not one of a complete session. */
  predicate Unconfirmed(wire: Wire, plan: PreparedTransfer, lo: nat, hi: nat, n: nat, e: SendError) {
    || CheckFails(wire, plan, lo, hi, n, e)
    || (lo < hi && Reports(wire, plan, hi - 1) && !wire.StatusAt(hi - 1).complete && e == Network)
  }

  /** A file is given up, or the receiver does not confirm that all are there. */
  ghost predicate Undelivered(
    wire: Wire, plan: PreparedTransfer, lo: nat, hi: nat, n: nat, sent: seq<Sent>, e: SendError)
  {
    || FilesFail(wire, plan, lo, hi, n, sent, e)
    || exists mid: nat :: AllSent(wire, plan, |plan.files|, lo, mid, sent) && Unconfirmed(wire, plan, mid, hi, n, e)
  }

  /** The manifest is not registered, or not approved afterwards. */
  ghost predicate Unregistered(
    wire: Wire, plan: PreparedTransfer, m: Manifest, lo: nat, hi: nat, n: nat, patience: nat, e: SendError)
  {
    || RequestFails(wire, PostManifest(m), lo, hi, n, e)
    || exists mid: nat :: lo < mid && Registers(wire, mid - 1, m) && ApprovalFails(wire, plan, mid, hi, n, patience, e)
  }

  /** Every reason for which a prepared plan is not delivered; `appr` is the turn of the
      report that approves it, if there is one. */
  ghost predicate SendFails(
    wire: Wire, plan: PreparedTransfer, m: Manifest, lo: nat, appr: nat, hi: nat, n: nat, patience: nat,
    sent: seq<Sent>, e: SendError)
  {
    && lo < hi
    && ((sent == [] && Unregistered(wire, plan, m, lo, hi, n, patience, e))
        || (lo <= appr && Approves(wire, plan, appr) && !wire.StatusAt(appr).complete
            && Undelivered(wire, plan, appr + 1, hi, n, sent, e)))
  }

  /** Every request from turn lo on is served by a receiver that has approved this manifest
      and not cancelled it, with a report the sender accepts. */
  predicate Serves(wire: Wire, plan: PreparedTransfer, m: Manifest, lo: nat) {
    forall p {:trigger wire.Meets(p)} :: lo <= p < |wire.turns| ==>
      && Registers(wire, p, m) && Reports(wire, plan, p)
      && wire.StatusAt(p).status == Accepted && !wire.StatusAt(p).cancelled
  }

  lemma ServedAt(wire: Wire, plan: PreparedTransfer, m: Manifest, lo: nat, p: nat)
    requires Serves(wire, plan, m, lo) && lo <= p < |wire.turns|
    ensures Reports(wire, plan, p) && wire.StatusAt(p).status == Accepted && !wire.StatusAt(p).cancelled
    ensures Delivered(wire.ReplyAt(p, PostManifest(m))) && Delivered(wire.ReplyAt(p, GetStatus))
    ensures Delivered(wire.UploadReply(p))
  {
    assert wire.Meets(p);
  }

  lemma ServedIsRegistered(
    wire: Wire, plan: PreparedTransfer, m: Manifest, lo: nat, hi: nat, n: nat, patience: nat, e: SendError)
    requires Serves(wire, plan, m, lo) && lo < hi <= |wire.turns| && patience > 0
    ensures !Unregistered(wire, plan, m, lo, hi, n, patience, e)
  {
    ServedAt(wire, plan, m, lo, hi - 1);
    forall polls, mid: nat | lo < mid && |polls| == patience ensures !Undecided(wire, plan, polls, mid, hi) {
      if Undecided(wire, plan, polls, mid, hi) {
        ServedAt(wire, plan, m, lo, polls[0]);
        assert false;
      }
    }
  }

  /** A sound plan whose every request is served fails only if all its files have been sent and
      the receiver's last report is still not one of a complete session. */
  lemma ServedPlanIsSent(
    wire: Wire, plan: PreparedTransfer, m: Manifest, lo: nat, appr: nat, hi: nat, n: nat, patience: nat,
    sent: seq<Sent>, e: SendError)
    requires SendFails(wire, plan, m, lo, appr, hi, n, patience, sent, e)
    requires hi <= |wire.turns| && Serves(wire, plan, m, lo) && patience > 0
    ensures e == Network && wire.Meets(hi - 1) && !wire.StatusAt(hi - 1).complete
    ensures AllSent(wire, plan, |plan.files|, appr + 1, hi, sent)
  {
    ServedIsRegistered(wire, plan, m, lo, hi, n, patience, e);
    ServedAt(wire, plan, m, lo, hi - 1);
    assert !FilesFail(wire, plan, appr + 1, hi, n, sent, e);
    var mid: nat :| AllSent(wire, plan, |plan.files|, appr + 1, mid, sent) && Unconfirmed(wire, plan, mid, hi, n, e);
    SentStays(wire, plan, appr + 1, mid, hi, sent);
  }

  /** The manifest is registered at turn reg, approved at turn appr and reported complete at
      turn fin, and every file is sent in between, unless all are there already. */
  ghost predicate Delivers(
    wire: Wire, plan: PreparedTransfer, m: Manifest, lo: nat, reg: nat, appr: nat, fin: nat, hi: nat, sent: seq<Sent>)
  {
    && lo <= reg < appr <= fin && fin + 1 == hi
    && Registers(wire, reg, m) && Approves(wire, plan, appr) && ReportsComplete(wire, fin)
    && if wire.StatusAt(appr).complete then fin == appr && sent == []
       else appr < fin && AllSent(wire, plan, |plan.files|, appr + 1, fin, sent)
  }

  datatype Outcome = Done | Again(error: SendError) | GiveUp(error: SendError)

  /** What the reply to an upload makes of the attempt. */
  predicate Follows(reply: Reply, outcome: Outcome) {
    match outcome
    case Done => Delivered(reply)
    case Again(e) => !Delivered(reply) && Retriable(reply) && ErrorIs(reply, e)
    case GiveUp(e) => !Delivered(reply) && !Retriable(reply) && ErrorIs(reply, e)
  }

  /** The attempt ends without an upload: no report is had, or a cancelled one, or the file is there. */
  predicate EndsEarly(
    wire: Wire, plan: PreparedTransfer, id: string, lo: nat, hi: nat, n: nat, outcome: Outcome)
  {
    match outcome
    case GiveUp(e) =>
      CheckFails(wire, plan, lo, hi, n, e) || (lo < hi && Cancelled(wire, plan, hi - 1) && e == TransferCancelled)
    case Done => lo < hi && SeenWhole(wire, plan, hi - 1, id)
    case Again(_) => false
  }

  predicate Turned(p: nat) {
    true
  }

  /** The report of turn p asks for the file from `offset` on.  The quantifier keeps the
      statement folded in methods; naming the turn opens it. */
  ghost predicate Asks(wire: Wire, plan: PreparedTransfer, p: nat, id: string, offset: nat) {
    forall q {:trigger Turned(q)} :: q == p ==>
      && Reports(wire, plan, q) && !HasFile(wire.StatusAt(q), id)
      && ResumesAt(plan, wire.StatusAt(q), Sent(id, offset, "", [], 0))
  }

  /** What one attempt at a file does between lo and hi: `sent` is what it uploads. */
  ghost predicate Attempted(
    wire: Wire, plan: PreparedTransfer, id: string, lo: nat, hi: nat, n: nat, sent: seq<Sent>, outcome: Outcome)
  {
    if sent == [] then EndsEarly(wire, plan, id, lo, hi, n, outcome)
    else
      && |sent| == 1 && sent[0].fileId == id && lo <= sent[0].seen && sent[0].seen + 2 == hi
      && Asks(wire, plan, sent[0].seen, id, sent[0].offset) && Follows(wire.UploadReply(hi - 1), outcome)
  }

  /** What the progress counter shows after an attempt: the report's offsets, and what has
      left the sender since. */
  predicate Shows(wire: Wire, sent: seq<Sent>, p: nat, progress: nat) {
    wire.Meets(p) &&
    progress == PointSum(wire.StatusAt(p).files) + if sent == [] then 0 else wire.Streamed(p + 1, |sent[0].body|)
  }

  lemma AttemptTells(
    wire: Wire, plan: PreparedTransfer, id: string, lo: nat, mid: nat, hi: nat, n: nat,
    before: seq<Sent>, news: seq<Sent>, outcome: Outcome)
    requires lo <= mid < hi && |before| <= n && AllFailed(wire, id, before, lo, mid)
    requires Attempted(wire, plan, id, mid, hi, n, news, outcome)
    ensures outcome.Done? ==> FileSent(wire, plan, id, lo, hi, before + news)
    ensures outcome.Again? ==> |news| == 1 && AllFailed(wire, id, before + news, lo, hi)
    ensures outcome.GiveUp? || (outcome.Again? && |before| == n) ==>
              FileFails(wire, plan, id, lo, hi, n, before + news, outcome.error)
  {
    if news == [] {
      assert SeenWhole(wire, plan, hi - 1, id) || outcome.GiveUp?;
    } else {
      assert news[0] in before + news;
      assert SentWhole(wire, news[0], id, lo, hi) || !outcome.Done?;
    }
  }

  lemma PointIsFile(st: ResumeStatus, id: string)
    requires DistinctPoints(st.files) && FindPoint(st.files, id).Some?
    ensures HasFile(st, id) <==> FindPoint(st.files, id).value.complete
  {
    forall p | p in st.files && p.fileId == id ensures p == FindPoint(st.files, id).value {
      SamePoint(st.files, p, FindPoint(st.files, id).value);
    }
  }

  /** What an accepted report says of one file. */
  lemma ReportOfFile(wire: Wire, plan: PreparedTransfer, p: nat, k: nat)
    requires k < |plan.files| && DistinctIds(Infos(plan.files))
    requires Reports(wire, plan, p) && !wire.StatusAt(p).cancelled
    ensures var f, points := plan.files[k].info, wire.StatusAt(p).files;
            && FindPoint(points, f.id).Some?
            && var point := FindPoint(points, f.id).value;
               && point.offset <= f.size && PointSum(points) + (f.size - point.offset) <= TotalSize(Infos(plan.files))
               && if point.complete then SeenWhole(wire, plan, p, f.id) else Asks(wire, plan, p, f.id, point.offset)
  {
    var f, st := plan.files[k].info, wire.StatusAt(p);
    assert Infos(plan.files)[k] == f;
    CheckpointAlwaysFound(Infos(plan.files), st, f);
    PointIsFile(st, f.id);
    RestFits(Infos(plan.files), st.files, f, FindPoint(st.files, f.id).value);
    var offset := FindPoint(st.files, f.id).value.offset;
    if !HasFile(st, f.id) {
      assert ResumesAt(plan, wire.StatusAt(p), Sent(f.id, offset, "", [], 0));
    }
  }

  predicate ResumesAt(plan: PreparedTransfer, st: ResumeStatus, s: Sent) {
    && !st.cancelled && StatusOk(Infos(plan.files), st)
    && FindPoint(st.files, s.fileId).Some? && FindPoint(st.files, s.fileId).value.offset == s.offset
  }

  predicate Rest(file: PreparedFile, sources: map<string, Bytes>, s: Sent) {
    && file.path in sources && |sources[file.path]| == file.info.size
    && s.offset <= file.info.size && s.body == sources[file.path][s.offset..]
  }

  /** The source still has the size and digest taken when the plan was prepared. */
  predicate SourceOk(file: PreparedFile, sources: map<string, Bytes>) {
    && file.path in sources
    && Sha256(sources[file.path]) == file.sha256
    && |sources[file.path]| == file.info.size
  }

  predicate Intact(plan: PreparedTransfer, sources: map<string, Bytes>) {
    forall k :: 0 <= k < |plan.files| ==> SourceOk(plan.files[k], sources)
  }

  class Engine {
    const maxRetries: nat
    const receiveOnly: bool
    var progress: nat

    constructor (maxRetries: nat, receiveOnly: bool)
      ensures this.maxRetries == maxRetries && this.receiveOnly == receiveOnly && progress == 0
    {
      this.maxRetries, this.receiveOnly, this.progress := maxRetries, receiveOnly, 0;
    }

    /** At most maxRetries + 1 attempts; succeeds exactly when one of them is delivered and
        everything before it was transient.  The fall-through after the loop is dead. */
    method RetryRequest(wire: Wire, req: Request) returns (r: Result<Option<ResumeStatus>, SendError>)
      modifies wire`pos
      ensures Asked(wire, req, old(wire.pos), wire.pos, maxRetries)
      ensures if r.Ok?
              then Delivered(wire.ReplyAt(wire.pos - 1, req)) && r.value == wire.ReplyAt(wire.pos - 1, req).body
              else RequestFails(wire, req, old(wire.pos), wire.pos, maxRetries, r.error)
    {
      var attempt := 0;
      while attempt <= maxRetries
        invariant 0 <= attempt <= maxRetries + 1
        invariant wire.pos == old(wire.pos) + attempt
        invariant attempt <= maxRetries
        invariant forall p :: old(wire.pos) <= p < wire.pos ==> Transient(wire.ReplyAt(p, req))
        decreases maxRetries + 1 - attempt
      {
        var reply := wire.Ask(req);
        if reply.Reply? && 200 <= reply.code < 300 {
          return Ok(reply.body);
        }
        var transient := reply.NoReply? || reply.code >= 500 || reply.code == 408 || reply.code == 429;
        if !(transient && attempt < maxRetries) {
          return Err(if reply.NoReply? then Network else HttpError(reply.code));
        }
        attempt := attempt + 1;
      }
      assert false;
    }

    /** A validated checkpoint is the receiver's own report at the last turn. */
    method Checkpoint(wire: Wire, plan: PreparedTransfer) returns (r: Result<ResumeStatus, SendError>)
      modifies wire`pos
      ensures old(wire.pos) < wire.pos <= old(wire.pos) + maxRetries + 1
      ensures if r.Ok? then Reports(wire, plan, wire.pos - 1) && r.value == wire.StatusAt(wire.pos - 1)
              else CheckFails(wire, plan, old(wire.pos), wire.pos, maxRetries, r.error)
    {
      var got := RetryRequest(wire, GetStatus);
      if got.Err? {
        return Err(got.error);
      }
      var st := got.value.value;
      var ok := CheckStatus(Infos(plan.files), st);
      return if ok then Ok(st) else Err(Network);
    }

    /** Polls until the receiver decides; `patience` polls fit into the two minutes. */
    method AwaitApproval(wire: Wire, plan: PreparedTransfer, patience: nat) returns (r: Result<ResumeStatus, SendError>)
      modifies wire`pos
      ensures old(wire.pos) <= wire.pos
      ensures r.Ok? ==>
                old(wire.pos) < wire.pos && Approves(wire, plan, wire.pos - 1) && r.value == wire.StatusAt(wire.pos - 1)
      ensures r.Err? ==> ApprovalFails(wire, plan, old(wire.pos), wire.pos, maxRetries, patience, r.error)
    {
      ghost var polls: seq<nat> := [];
      for poll := 0 to patience
        invariant old(wire.pos) <= wire.pos
        invariant |polls| == poll && Undecided(wire, plan, polls, old(wire.pos), wire.pos)
      {
        var got := Checkpoint(wire, plan);
        if got.Err? {
          return got;
        }
        if got.value.cancelled {
          return Err(TransferCancelled);
        }
        match got.value.status
        case Accepted => return got;
        case Rejected => return Err(TransferRejected);
        case NotFound => return Err(TransferNotFound);
        case Pending =>
          polls := polls + [wire.pos - 1];
      }
      return Err(TransferTimeout);
    }

    /** One turn of the loop over attempts: a fresh checkpoint, then at most one upload.
        The missing-checkpoint and invalid-offset branches are dead. */
    method Attempt(wire: Wire, plan: PreparedTransfer, sources: map<string, Bytes>, k: nat, token: string)
      returns (outcome: Outcome, ghost news: seq<Sent>)
      requires k < |plan.files| && DistinctIds(Infos(plan.files)) && SourceOk(plan.files[k], sources)
      modifies wire`pos, wire`sent, this`progress
      ensures old(wire.pos) < wire.pos && wire.sent == old(wire.sent) + news
      ensures Attempted(wire, plan, plan.files[k].info.id, old(wire.pos), wire.pos, maxRetries, news, outcome)
      ensures AllUploaded(wire, plan, sources, token, old(wire.pos), wire.pos, news)
      ensures progress == old(progress) || progress <= TotalSize(Infos(plan.files))
      ensures if outcome.GiveUp? && news == [] then progress == old(progress)
              else Shows(wire, news, wire.pos - 1 - |news|, progress)
    {
      var end, offset := Locate(wire, plan, k);
      if end.Some? {
        return end.value, [];
      }
      outcome, news := UploadRest(wire, plan, sources, k, token, offset);
    }

    /** The fresh checkpoint: the offset to resume at, or how the attempt ends without an upload. */
    method Locate(wire: Wire, plan: PreparedTransfer, k: nat) returns (end: Option<Outcome>, offset: nat)
      requires k < |plan.files| && DistinctIds(Infos(plan.files))
      modifies wire`pos, this`progress
      ensures old(wire.pos) < wire.pos
      ensures end.Some? ==>
                EndsEarly(wire, plan, plan.files[k].info.id, old(wire.pos), wire.pos, maxRetries, end.value)
      ensures end.None? ==>
                && Asks(wire, plan, wire.pos - 1, plan.files[k].info.id, offset)
                && offset <= plan.files[k].info.size
                && progress + (plan.files[k].info.size - offset) <= TotalSize(Infos(plan.files))
      ensures if end.Some? && end.value.GiveUp? then progress == old(progress)
              else
                && Shows(wire, [], wire.pos - 1, progress) && progress <= TotalSize(Infos(plan.files))
    {
      var file := plan.files[k];
      offset := 0;
      var got := Checkpoint(wire, plan);
      if got.Err? {
        return Some(GiveUp(got.error)), offset;
      }
      var st := got.value;
      if st.cancelled {
        return Some(GiveUp(TransferCancelled)), offset;
      }
      ReportOfFile(wire, plan, wire.pos - 1, k);
      var point := FindPoint(st.files, file.info.id);
      if point.None? {
        assert false;
        return Some(GiveUp(Network)), offset;
      }
      progress := PointSum(st.files);
      if point.value.complete {
        return Some(Done), offset;
      }
      if point.value.offset > file.info.size {
        assert false;
        return Some(GiveUp(Network)), offset;
      }
      return None, point.value.offset;
    }

    /** The source from the reported offset on. */
    method UploadRest(
      wire: Wire, plan: PreparedTransfer, sources: map<string, Bytes>, k: nat, token: string, offset: nat)
      returns (outcome: Outcome, ghost news: seq<Sent>)
      requires k < |plan.files| && SourceOk(plan.files[k], sources) && offset <= plan.files[k].info.size
      requires wire.pos > 0 && Asks(wire, plan, wire.pos - 1, plan.files[k].info.id, offset)
      modifies wire`pos, wire`sent, this`progress
      ensures wire.pos == old(wire.pos) + 1 && wire.sent == old(wire.sent) + news
      ensures |news| == 1 && news[0].fileId == plan.files[k].info.id && news[0].seen == old(wire.pos) - 1
      ensures |news[0].body| == plan.files[k].info.size - offset && news[0].offset == offset
      ensures Uploaded(wire, plan, sources, token, old(wire.pos) - 1, wire.pos, news[0])
      ensures Follows(wire.UploadReply(old(wire.pos)), outcome)
      ensures progress == old(progress) + wire.Streamed(old(wire.pos), |news[0].body|)
    {
      var file := plan.files[k];
      var s := Sent(file.info.id, offset, token, sources[file.path][offset..], wire.pos - 1);
      assert Rest(file, sources, s) && Turned(s.seen);
      news := [s];
      var reply, streamed := wire.Upload(s);
      progress := progress + streamed;
      if reply.Reply? && 200 <= reply.code < 300 {
        return Done, news;
      }
      var error := if reply.NoReply? then Network else HttpError(reply.code);
      outcome := if reply.NoReply? || reply.code >= 500 || reply.code == 408 || reply.code == 409 then Again(error)
                 else GiveUp(error);
    }

    /** One file: at most maxRetries + 1 uploads, each resumed from a fresh checkpoint; the
        fall-through after the loop is dead. */
    method SendFile(wire: Wire, plan: PreparedTransfer, sources: map<string, Bytes>, k: nat, token: string)
      returns (r: Result<(), SendError>, ghost news: seq<Sent>)
      requires k < |plan.files| && DistinctIds(Infos(plan.files)) && SourceOk(plan.files[k], sources)
      modifies wire`pos, wire`sent, this`progress
      ensures old(wire.pos) < wire.pos && wire.sent == old(wire.sent) + news && |news| <= maxRetries + 1
      ensures if r.Ok? then FileSent(wire, plan, plan.files[k].info.id, old(wire.pos), wire.pos, news)
              else FileFails(wire, plan, plan.files[k].info.id, old(wire.pos), wire.pos, maxRetries, news, r.error)
      ensures AllUploaded(wire, plan, sources, token, old(wire.pos), wire.pos, news)
      ensures progress == old(progress) || progress <= TotalSize(Infos(plan.files))
    {
      var attempt := 0;
      news := [];
      while attempt <= maxRetries
        invariant 0 <= attempt <= maxRetries && |news| == attempt
        invariant old(wire.pos) <= wire.pos && wire.sent == old(wire.sent) + news
        invariant AllFailed(wire, plan.files[k].info.id, news, old(wire.pos), wire.pos)
        invariant AllUploaded(wire, plan, sources, token, old(wire.pos), wire.pos, news)
        invariant progress == old(progress) || progress <= TotalSize(Infos(plan.files))
        decreases maxRetries + 1 - attempt
      {
        ghost var before, mid := news, wire.pos;
        ghost var more;
        var outcome;
        outcome, more := Attempt(wire, plan, sources, k, token);
        AttemptTells(
          wire, plan, plan.files[k].info.id, old(wire.pos), mid, wire.pos, maxRetries, before, more, outcome);
        news := before + more;
        MoreUploaded(wire, plan, sources, token, old(wire.pos), mid, wire.pos, before, more);
        if outcome.Done? {
          return Ok(()), news;
        }
        if !(outcome.Again? && attempt < maxRetries) {
          return Err(outcome.error), news;
        }
        attempt := attempt + 1;
      }
      assert false;
    }

    /** hash_file over every source before anything is sent. */
    method CheckSources(plan: PreparedTransfer, sources: map<string, Bytes>) returns (ok: bool)
      ensures ok <==> Intact(plan, sources)
    {
      for k := 0 to |plan.files|
        invariant forall i :: 0 <= i < k ==> SourceOk(plan.files[i], sources)
      {
        if !SourceOk(plan.files[k], sources) {
          return false;
        }
      }
      return true;
    }

    /** The loop over the plan's files. */
    method SendFiles(wire: Wire, plan: PreparedTransfer, sources: map<string, Bytes>, token: string)
      returns (r: Result<(), SendError>, ghost news: seq<Sent>)
      requires DistinctIds(Infos(plan.files)) && progress <= TotalSize(Infos(plan.files)) && Intact(plan, sources)
      modifies wire`pos, wire`sent, this`progress
      ensures old(wire.pos) <= wire.pos && wire.sent == old(wire.sent) + news
      ensures if r.Ok? then AllSent(wire, plan, |plan.files|, old(wire.pos), wire.pos, news)
              else FilesFail(wire, plan, old(wire.pos), wire.pos, maxRetries, news, r.error)
      ensures AllUploaded(wire, plan, sources, token, old(wire.pos), wire.pos, news)
      ensures progress <= TotalSize(Infos(plan.files))
    {
      news := [];
      for k := 0 to |plan.files|
        invariant old(wire.pos) <= wire.pos && wire.sent == old(wire.sent) + news
        invariant AllSent(wire, plan, k, old(wire.pos), wire.pos, news)
        invariant AllUploaded(wire, plan, sources, token, old(wire.pos), wire.pos, news)
        invariant progress <= TotalSize(Infos(plan.files))
      {
        ghost var before, mid := news, wire.pos;
        ghost var more;
        var one;
        one, more := SendFile(wire, plan, sources, k, token);
        news := before + more;
        MoreUploaded(wire, plan, sources, token, old(wire.pos), mid, wire.pos, before, more);
        if one.Err? {
          FileEndsPlan(wire, plan, k, old(wire.pos), mid, wire.pos, maxRetries, before, more, one.error);
          return one, news;
        }
        OneMoreSent(wire, plan, k, old(wire.pos), mid, wire.pos, before, more);
      }
      return Ok(()), news;
    }

    /** Everything before the first request: the envelope and the sources are checked. */
    method Prepare(plan: PreparedTransfer, sources: map<string, Bytes>) returns (r: Result<Manifest, SendError>)
      ensures if Sendable(plan)
              then r == if Intact(plan, sources) then Ok(PlanManifest(plan).value) else Err(FileIo)
              else r == Err(InvalidConfig)
      ensures r.Ok? ==> DistinctIds(Infos(plan.files)) && r.value.request.totalSize == TotalSize(Infos(plan.files))
    {
      if receiveOnly {
        return Err(InvalidConfig);
      }
      var manifest := PlanManifest(plan);
      if manifest.None? {
        return Err(InvalidConfig);
      }
      CheckedTotalIsTotal(Infos(plan.files));
      var valid := Validate(manifest.value);
      if !valid {
        return Err(InvalidConfig);
      }
      var intact := CheckSources(plan, sources);
      return if intact then Ok(manifest.value) else Err(FileIo);
    }

    /** The plan has a valid envelope, and this engine may send. */
    predicate Sendable(plan: PreparedTransfer) {
      !receiveOnly && PlanManifest(plan).Some? && ValidManifest(PlanManifest(plan).value)
    }

    method Register(wire: Wire, m: Manifest) returns (r: Result<(), SendError>)
      modifies wire`pos
      ensures old(wire.pos) < wire.pos
      ensures if r.Ok? then Registers(wire, wire.pos - 1, m)
              else RequestFails(wire, PostManifest(m), old(wire.pos), wire.pos, maxRetries, r.error)
    {
      var got := RetryRequest(wire, PostManifest(m));
      return if got.Ok? then Ok(()) else Err(got.error);
    }

    method ConfirmComplete(wire: Wire, plan: PreparedTransfer) returns (r: Result<(), SendError>)
      modifies wire`pos
      ensures old(wire.pos) < wire.pos
      ensures if r.Ok? then ReportsComplete(wire, wire.pos - 1)
              else Unconfirmed(wire, plan, old(wire.pos), wire.pos, maxRetries, r.error)
    {
      var got := Checkpoint(wire, plan);
      if got.Err? {
        return Err(got.error);
      }
      return if got.value.complete then Ok(()) else Err(Network);
    }

    /** Registration and approval; `reg` is the turn that registered the manifest. */
    method Negotiate(wire: Wire, plan: PreparedTransfer, m: Manifest, patience: nat)
      returns (r: Result<ResumeStatus, SendError>, ghost reg: nat)
      modifies wire`pos
      ensures old(wire.pos) < wire.pos
      ensures r.Ok? ==>
                && old(wire.pos) <= reg < wire.pos - 1 && Registers(wire, reg, m)
                && Approves(wire, plan, wire.pos - 1) && r.value == wire.StatusAt(wire.pos - 1)
      ensures r.Err? ==> Unregistered(wire, plan, m, old(wire.pos), wire.pos, maxRetries, patience, r.error)
    {
      reg := 0;
      var registered := Register(wire, m);
      if registered.Err? {
        return Err(registered.error), reg;
      }
      reg := wire.pos - 1;
      r := AwaitApproval(wire, plan, patience);
    }

    /** Everything after approval: the files, then the receiver's word that all is there. */
    method Deliver(wire: Wire, plan: PreparedTransfer, sources: map<string, Bytes>, token: string)
      returns (r: Result<(), SendError>, ghost news: seq<Sent>)
      requires DistinctIds(Infos(plan.files)) && progress <= TotalSize(Infos(plan.files)) && Intact(plan, sources)
      modifies wire`pos, wire`sent, this`progress
      ensures old(wire.pos) <= wire.pos && wire.sent == old(wire.sent) + news
      ensures AllUploaded(wire, plan, sources, token, old(wire.pos), wire.pos, news)
      ensures progress <= TotalSize(Infos(plan.files))
      ensures if r.Ok? then
                && old(wire.pos) < wire.pos && ReportsComplete(wire, wire.pos - 1)
                && AllSent(wire, plan, |plan.files|, old(wire.pos), wire.pos - 1, news)
              else Undelivered(wire, plan, old(wire.pos), wire.pos, maxRetries, news, r.error)
    {
      r, news := SendFiles(wire, plan, sources, token);
      if r.Ok? {
        ghost var mid := wire.pos;
        r := ConfirmComplete(wire, plan);
        MoreUploaded(wire, plan, sources, token, old(wire.pos), mid, wire.pos, news, []);
        assert news + [] == news;
        SentStays(wire, plan, old(wire.pos), mid, wire.pos - 1, news);
        assert r.Err? ==> Unconfirmed(wire, plan, mid, wire.pos, maxRetries, r.error);
      }
    }

    /** What follows the report that approves the plan, fetched at the last turn. */
    method SendApproved(wire: Wire, plan: PreparedTransfer, sources: map<string, Bytes>, approved: ResumeStatus)
      returns (r: Result<(), SendError>, ghost fin: nat, ghost news: seq<Sent>)
      requires DistinctIds(Infos(plan.files)) && progress <= TotalSize(Infos(plan.files)) && Intact(plan, sources)
      requires wire.pos > 0 && Approves(wire, plan, wire.pos - 1) && wire.StatusAt(wire.pos - 1) == approved
      modifies wire`pos, wire`sent, this`progress
      ensures progress <= TotalSize(Infos(plan.files))
      ensures wire.sent == old(wire.sent) + news && old(wire.pos) <= wire.pos
      ensures r.Ok? ==> progress == TotalSize(Infos(plan.files)) && fin == wire.pos - 1 && ReportsComplete(wire, fin)
      ensures approved.complete ==> r.Ok? && wire.pos == old(wire.pos) && news == []
      ensures !approved.complete ==>
                if r.Ok? then old(wire.pos) <= fin && AllSent(wire, plan, |plan.files|, old(wire.pos), fin, news)
                else Undelivered(wire, plan, old(wire.pos), wire.pos, maxRetries, news, r.error)
      ensures AllUploaded(wire, plan, sources, approved.token.value, old(wire.pos), wire.pos, news)
      ensures SentFrom(wire, plan, sources, old(wire.sent))
    {
      fin, news := wire.pos - 1, [];
      if approved.complete {
        progress := TotalSize(Infos(plan.files));
        return Ok(()), fin, news;
      }
      if approved.token.None? {
        assert false;
        return Err(Network), fin, news;
      }
      r, news := Deliver(wire, plan, sources, approved.token.value);
      UploadedInOrder(wire, plan, sources, approved.token.value, old(wire.pos), wire.pos, old(wire.sent), news);
      if r.Ok? {
        fin := wire.pos - 1;
        progress := TotalSize(Infos(plan.files));
      }
    }

    /** The plan is registered, approved and delivered. */
    method SendPrepared(
      wire: Wire, plan: PreparedTransfer, sources: map<string, Bytes>, m: Manifest, patience: nat)
      returns (r: Result<(), SendError>, ghost reg: nat, ghost appr: nat, ghost fin: nat, ghost news: seq<Sent>)
      requires DistinctIds(Infos(plan.files)) && progress <= TotalSize(Infos(plan.files)) && Intact(plan, sources)
      modifies wire`pos, wire`sent, this`progress
      ensures progress <= TotalSize(Infos(plan.files)) && wire.sent == old(wire.sent) + news
      ensures if r.Ok? then
                && progress == TotalSize(Infos(plan.files))
                && Delivers(wire, plan, m, old(wire.pos), reg, appr, fin, wire.pos, news)
              else SendFails(wire, plan, m, old(wire.pos), appr, wire.pos, maxRetries, patience, news, r.error)
      ensures news != [] ==>
                && Approves(wire, plan, appr)
                && AllUploaded(wire, plan, sources, wire.StatusAt(appr).token.value, appr + 1, wire.pos, news)
      ensures SentFrom(wire, plan, sources, old(wire.sent))
    {
      reg, appr, fin, news := 0, 0, 0, [];
      var approved;
      approved, reg := Negotiate(wire, plan, m, patience);
      if approved.Err? {
        return Err(approved.error), reg, appr, fin, news;
      }
      appr := wire.pos - 1;
      r, fin, news := SendApproved(wire, plan, sources, approved.value);
    }

    /** send_plan.  Success is only reported after the receiver accepted this very manifest
        (turn `reg`), approved it (turn `appr`) and later reported the session complete (turn
        `fin`); every file is sent in between, unless all are there already.  A sound plan fails
        for no other reason than those of SendFails. */
    method SendPlan(wire: Wire, plan: PreparedTransfer, sources: map<string, Bytes>, patience: nat)
      returns (r: Result<(), SendError>, ghost reg: nat, ghost appr: nat, ghost fin: nat, ghost news: seq<Sent>)
      requires progress == 0
      modifies wire`pos, wire`sent, this`progress
      ensures progress <= TotalSize(Infos(plan.files)) && wire.sent == old(wire.sent) + news
      ensures !Sendable(plan) || !Intact(plan, sources) ==>
                && r == Err(if Sendable(plan) then FileIo else InvalidConfig)
                && wire.pos == old(wire.pos) && news == []
      ensures Sendable(plan) && Intact(plan, sources) ==>
                var m := PlanManifest(plan).value;
                if r.Ok? then
                  && progress == TotalSize(Infos(plan.files)) <= U64_MAX
                  && Delivers(wire, plan, m, old(wire.pos), reg, appr, fin, wire.pos, news)
                else SendFails(wire, plan, m, old(wire.pos), appr, wire.pos, maxRetries, patience, news, r.error)
      ensures news != [] ==>
                && Approves(wire, plan, appr)
                && AllUploaded(wire, plan, sources, wire.StatusAt(appr).token.value, appr + 1, wire.pos, news)
      ensures SentFrom(wire, plan, sources, old(wire.sent))
    {
      reg, appr, fin, news := 0, 0, 0, [];
      var manifest := Prepare(plan, sources);
      if manifest.Err? {
        return Err(manifest.error), reg, appr, fin, news;
      }
      r, reg, appr, fin, news := SendPrepared(wire, plan, sources, manifest.value, patience);
    }
  }
}
