/** The v1 server state as the object it is (src/server.rs): every handler updates the shared
    maps and sets in place and logs what it did to which id. */
module LegacyServers {
  import opened Wrappers
  import opened Manifests
  import opened Legacy
  import Paths

  /** What the body stream yields next, or happens meanwhile: a chunk, no chunk for 120 s, a
      broken body or failed write, another handler cancelling the transfer, the poll for
      cancellation coming round, the request being dropped. */
  datatype BodyEvent = Arrives(n: nat) | Stalls | Breaks | Cancels | Polls | Vanishes

  lemma RemovedKey<K, V>(m: map<K, V>, k: K)
    requires k in m
    ensures |m - {k}| == |m| - 1
  {
    assert (m - {k}).Keys == m.Keys - {k};
    assert |m.Keys - {k}| == |m.Keys| - 1;
  }

  lemma FewerLeft<K, V>(m: map<K, V>, a: set<K>, b: set<K>, gone: set<K>)
    ensures |m - gone| + |a - gone| + |b - gone| <= |m| + |a| + |b|
  {
    assert (m - gone).Keys == m.Keys - gone;
    SubsetSize(m.Keys - gone, m.Keys);
    SubsetSize(a - gone, a);
    SubsetSize(b - gone, b);
  }

  // ---------------------------------------------------------------- one request body

  /** What an event does to the upload's id, if anything. */
  function EventAction(v: View, event: BodyEvent): Option<Action>
    requires v.upload.Some?
  {
    match event
    case Arrives(n) => Some(if v.upload.value.got + n <= v.upload.value.file.size then Count(n) else RollBack)
    case Stalls => Some(RollBack)
    case Breaks => Some(RollBack)
    case Cancels => if v.pending.Some? && !v.completed then Some(Revoke) else None
    case Polls => if v.cancelled then Some(RollBack) else None
    case Vanishes => Some(Drop)
  }

  /** The reply with which an event ends the request, if it does. */
  function EventCode(v: View, event: BodyEvent): (r: Option<Code>)
    requires v.upload.Some?
    ensures r != Some(200)
  {
    match event
    case Arrives(n) => if v.upload.value.got + n <= v.upload.value.file.size then None else Some(413)
    case Stalls => Some(408)
    case Breaks => Some(500)
    case Cancels => None
    case Polls => if v.cancelled then Some(410) else None
    case Vanishes => Some(0)
  }

  function EventView(v: View, event: BodyEvent): View
    requires v.upload.Some?
  {
    var a := EventAction(v, event);
    if a.Some? then After(v, a.value) else v
  }

  /** What a body makes of the id, what it logs, and the reply. */
  datatype Reception = Reception(view: View, acts: seq<Act>, code: Code)

  function Ended(id: string, v: View): Reception
    requires v.upload.Some?
  {
    if v.upload.value.got != v.upload.value.file.size then Reception(RolledBack(v), [Act(id, RollBack)], 400)
    else if v.cancelled then Reception(RolledBack(v), [Act(id, RollBack)], 410)
    else Reception(Finished(v), [Act(id, Action.Finish)], 200)
  }

  function EventActs(id: string, v: View, event: BodyEvent): seq<Act>
    requires v.upload.Some?
  {
    var a := EventAction(v, event);
    if a.Some? then [Act(id, a.value)] else []
  }

  function Reads(id: string, v: View, body: seq<BodyEvent>): Reception
    requires v.upload.Some?
    decreases |body|
  {
    if body == [] then Ended(id, v)
    else
      var acts, code := EventActs(id, v, body[0]), EventCode(v, body[0]);
      if code.Some? then Reception(EventView(v, body[0]), acts, code.value)
      else
        var rest := Reads(id, EventView(v, body[0]), body[1..]);
        Reception(rest.view, acts + rest.acts, rest.code)
  }

  /** The bytes of the chunks of a body. */
  function Length(body: seq<BodyEvent>): nat {
    if body == [] then 0 else (if body[0].Arrives? then body[0].n else 0) + Length(body[1..])
  }

  lemma {:induction false} CancelledFails(id: string, v: View, body: seq<BodyEvent>)
    requires v.upload.Some? && v.cancelled
    ensures Reads(id, v, body).code != 200
    decreases |body|
  {
    if body != [] && EventCode(v, body[0]).None? {
      CancelledFails(id, EventView(v, body[0]), body[1..]);
    }
  }

  /** The body of an upload to a live transfer is answered 200 if and only if nothing comes but
      chunks, exactly as long together as what the file lacks. */
  lemma {:induction false} WholeBodyIff(id: string, v: View, body: seq<BodyEvent>)
    requires v.upload.Some? && v.pending.Some? && !v.cancelled && !v.completed
    requires v.upload.value.got <= v.upload.value.file.size
    ensures Reads(id, v, body).code == 200 <==>
            && (forall e :: e in body ==> e.Arrives? || e.Polls?)
            && v.upload.value.got + Length(body) == v.upload.value.file.size
    decreases |body|
  {
    if body != [] {
      assert body == [body[0]] + body[1..];
      if EventCode(v, body[0]).None? {
        if body[0].Cancels? {
          CancelledFails(id, EventView(v, body[0]), body[1..]);
        } else {
          WholeBodyIff(id, EventView(v, body[0]), body[1..]);
        }
      }
    }
  }

  lemma ReadsOn(id: string, v: View, body: seq<BodyEvent>)
    requires v.upload.Some? && body != [] && EventCode(v, body[0]).None?
    ensures EventView(v, body[0]).upload.Some?
    ensures var r, rest := Reads(id, v, body), Reads(id, EventView(v, body[0]), body[1..]);
            r.view == rest.view && r.code == rest.code && r.acts == EventActs(id, v, body[0]) + rest.acts
  {
  }

  /** What a body logs in all is what is logged so far and what the rest will log. */
  predicate Continues(whole: Reception, before: seq<Act>, trace: seq<Act>, rest: Reception) {
    whole.view == rest.view && whole.code == rest.code && before + whole.acts == trace + rest.acts
  }

  lemma ReadsFirst(id: string, v: View, body: seq<BodyEvent>, whole: Reception, before: seq<Act>, trace: seq<Act>)
    requires v.upload.Some? && body != [] && Continues(whole, before, trace, Reads(id, v, body))
    ensures var code, v' := EventCode(v, body[0]), EventView(v, body[0]);
            var trace' := trace + EventActs(id, v, body[0]);
            if code.Some? then Continues(whole, before, trace', Reception(v', [], code.value))
            else v'.upload.Some? && Continues(whole, before, trace', Reads(id, v', body[1..]))
  {
    if EventCode(v, body[0]).None? {
      ReadsOn(id, v, body);
    }
  }

  /** The same transfer, and the counter moved only by the bytes in flight and leaked. */
  predicate SameBooks(v: View, v': View) {
    && v'.pending == v.pending && v'.token == v.token && v'.receipts == v.receipts
    && v'.completed == v.completed && v'.rejected == v.rejected && v'.cancelled == v.cancelled
    && v'.Counter() - v'.InFlight() - v'.leaked == v.Counter() - v.InFlight() - v.leaked
  }

  lemma EventKeeps(v: View, event: BodyEvent)
    requires Good(v) && v.upload.Some?
    ensures var v' := EventView(v, event);
            && Good(v')
            && (v.cancelled ==> v'.cancelled)
            && (!v'.cancelled ==> SameBooks(v, v') && (EventCode(v, event) != Some(0) ==> v'.leaked == v.leaked))
            && (EventCode(v, event).Some? ==> v'.upload.None?)
            && (EventCode(v, event).None? ==> v'.upload.Some? && v'.upload.value.file == v.upload.value.file)
  {
    var a := EventAction(v, event);
    if a.Some? {
      ActionGood(v, a.value);
      if a.value.RollBack? {
        RollbackGood(v);
      }
    }
  }

  /** What a reply of the upload handler tells the client about its transfer: 200 that the
      file is received, the transfer otherwise as it was, and complete exactly with its last
      file; an error that nothing changed, unless the transfer is cancelled; no reply that
      only counted bytes may have leaked. */
  predicate Tells(v: View, r: Reception)
    requires v.upload.Some?
  {
    var u := v.upload.value;
    && r.view.upload.None? && r.code in {0, 200, 400, 408, 410, 413, 500}
    && (r.code == 200 ==>
          && !r.view.cancelled && r.view.pending == v.pending == Some(u.transfer) && r.view.token == v.token
          && r.view.receipts == Some(v.Receipts() + {u.file.id})
          && (r.view.completed <==> v.Receipts() + {u.file.id} == Ids(u.transfer.files)))
    && (r.code != 200 && !r.view.cancelled ==> SameBooks(v, r.view))
    && (r.code != 0 && !r.view.cancelled ==> r.view.leaked == v.leaked)
  }

  lemma EndTells(id: string, v: View)
    requires Good(v) && v.upload.Some?
    ensures Good(Ended(id, v).view) && Tells(v, Ended(id, v))
  {
    if v.upload.value.got == v.upload.value.file.size && !v.cancelled {
      WholeFile(v);
      FinishGood(v);
    } else {
      RollbackGood(v);
    }
  }

  lemma EventTells(id: string, v: View, event: BodyEvent, rest: Reception, acts: seq<Act>)
    requires Good(v) && v.upload.Some? && EventCode(v, event).None?
    ensures EventView(v, event).upload.Some? && Good(EventView(v, event))
    ensures Good(rest.view) && Tells(EventView(v, event), rest) ==> Tells(v, Reception(rest.view, acts, rest.code))
  {
    EventKeeps(v, event);
  }

  /** Whatever the body does, the reply tells the truth. */
  lemma {:induction false} ReplyTells(id: string, v: View, body: seq<BodyEvent>)
    requires Good(v) && v.upload.Some?
    ensures Good(Reads(id, v, body).view) && Tells(v, Reads(id, v, body))
    decreases |body|
  {
    if body == [] {
      EndTells(id, v);
    } else {
      var code, v' := EventCode(v, body[0]), EventView(v, body[0]);
      EventKeeps(v, body[0]);
      if code.None? {
        var rest := Reads(id, v', body[1..]);
        ReplyTells(id, v', body[1..]);
        EventTells(id, v, body[0], rest, EventActs(id, v, body[0]) + rest.acts);
      }
    }
  }

  /** The last events of a successful upload that leaves this view: progress with the received
      total and, with the last file, completion with the announced total. */
  function SuccessEvents(id: string, v: View): seq<Event> {
    match v.pending
    case None => []
    case Some(t) =>
      [Progress(id, ReceivedSize(t.files, v.Receipts()) + v.leaked, t.total, v.leaked)]
      + if v.completed then [Complete(id, t.total + v.leaked, t.total, v.leaked)] else []
  }

  lemma SuccessReports(id: string, v: View)
    requires Good(v) && Allowed(v, Action.Finish)
    ensures Finished(v).pending.Some? && FinishEvents(id, v) == SuccessEvents(id, Finished(v))
  {
    WholeFile(v);
    FinishReports(id, v);
  }

  predicate EndsWith(events: seq<Event>, last: seq<Event>) {
    |events| >= |last| && events[|events| - |last|..] == last
  }

  /** The destination would lie in the state directory. */
  predicate Reserved(f: FileInfo) {
    Paths.ReservedTarget(Paths.TargetDir(Place(f)) + [Paths.TargetBase(Place(f))])
  }

  function Get<V>(m: map<string, V>, id: string): Option<V> {
    if id in m then Some(m[id]) else None
  }

  class LegacyServer {
    var pending: map<string, Transfer>
    var approved: map<string, string>
    var rejected: set<string>
    var cancelled: set<string>
    var received: map<string, set<string>>
    var bytes: map<string, nat>
    var completed: set<string>
    var activity: set<string>
    var uploads: map<string, Upload>
    var leaked: map<string, nat>
    var events: seq<Event>
    ghost var trace: seq<Act>

    function At(id: string): View
      reads this`pending, this`approved, this`rejected, this`cancelled, this`received
      reads this`bytes, this`completed, this`uploads, this`leaked
    {
      View(Get(pending, id), Get(approved, id), id in rejected, id in cancelled,
           Get(received, id), Get(bytes, id), id in completed, Get(uploads, id),
           if id in leaked then leaked[id] else 0)
    }

    /** What the logged actions make of the id, and the events they emit. */
    ghost predicate AsLogged(id: string)
      reads this`pending, this`approved, this`rejected, this`cancelled, this`received, this`bytes
      reads this`completed, this`uploads, this`leaked, this`events, this`trace
    {
      WellTraced(trace) && At(id) == ViewOf(trace, |trace|, id) && events == EventsOf(trace, |trace|)
    }

    /** The fields are what the log says of every id. */
    ghost predicate Traced()
      reads this`pending, this`approved, this`rejected, this`cancelled, this`received, this`bytes
      reads this`completed, this`uploads, this`leaked, this`events, this`trace
    {
      forall id :: AsLogged(id)
    }

    ghost predicate Valid()
      reads this
    {
      Traced() && |pending| + |rejected| + |cancelled| <= MAX_SESSIONS
    }

    twostate predicate Elsewhere(id: string)
      reads this`pending, this`approved, this`rejected, this`cancelled, this`received
      reads this`bytes, this`completed, this`uploads, this`leaked
    {
      forall x :: x != id ==> At(x) == old(At(x))
    }

    /** The fields of this id, and of no other, have changed as the action says. */
    twostate predicate Did(act: Act)
      reads this`pending, this`approved, this`rejected, this`cancelled, this`received
      reads this`bytes, this`completed, this`uploads, this`leaked
    {
      Elsewhere(act.id) && Allowed(old(At(act.id)), act.action) && At(act.id) == After(old(At(act.id)), act.action)
    }

    /** The action is done, and logged with its events. */
    twostate predicate Logs(act: Act)
      reads this`pending, this`approved, this`rejected, this`cancelled, this`received, this`bytes
      reads this`completed, this`uploads, this`leaked, this`events, this`trace
    {
      && Did(act) && trace == old(trace) + [act]
      && events == old(events) + Emits(act.id, old(At(act.id)), act.action)
    }

    twostate lemma Carry(act: Act)
      ensures old(Traced()) && Logs(act) ==> Traced()
    {
      if old(Traced()) && Logs(act) {
        assert old(AsLogged(act.id));
        TraceAppended(old(trace), act);
        forall x ensures AsLogged(x) {
          assert old(AsLogged(x));
          ViewAfter(old(trace), act, x);
        }
      }
    }

    lemma GoodAt(id: string)
      requires Traced()
      ensures Good(At(id))
    {
      assert AsLogged(id);
      TraceGood(trace, |trace|, id);
    }

    constructor ()
      ensures Valid() && events == [] && trace == [] && pending == map[] && rejected == {} && cancelled == {}
    {
      pending, approved, rejected, cancelled := map[], map[], {}, {};
      received, bytes, completed, activity := map[], map[], {}, {};
      uploads, leaked, events, trace := map[], map[], [], [];
    }

    // -------------------------------------------------------------- expiry

    /** Forget the decision about an id. */
    method Undecide(id: string)
      modifies this`pending, this`approved, this`rejected, this`cancelled, this`activity
      ensures Elsewhere(id)
      ensures At(id) == old(At(id)).(pending := None, token := None, rejected := false, cancelled := false)
      ensures pending == old(pending) - {id} && rejected == old(rejected) - {id} && cancelled == old(cancelled) - {id}
    {
      pending := pending - {id};
      approved := approved - {id};
      rejected := rejected - {id};
      cancelled := cancelled - {id};
      activity := activity - {id};
    }

    /** Forget the books of an id. */
    method Unbook(id: string)
      modifies this`received, this`bytes, this`leaked
      ensures Elsewhere(id) && At(id) == old(At(id)).(receipts := None, counter := None, leaked := 0)
    {
      received := received - {id};
      bytes := bytes - {id};
      leaked := leaked - {id};
    }

    method Remove(id: string)
      requires id !in uploads
      modifies this`pending, this`approved, this`rejected, this`cancelled, this`received
      modifies this`bytes, this`completed, this`activity, this`leaked
      ensures Elsewhere(id) && At(id) == UNKNOWN
      ensures pending == old(pending) - {id} && rejected == old(rejected) - {id} && cancelled == old(cancelled) - {id}
    {
      Undecide(id);
      Unbook(id);
      completed := completed - {id};
    }

    method ExpireOne(id: string)
      requires Valid() && id !in uploads
      modifies this
      ensures Valid() && uploads == old(uploads) && events == old(events) && trace == old(trace) + [Act(id, Lapse)]
      ensures Elsewhere(id) && At(id) == UNKNOWN
    {
      Remove(id);
      trace := trace + [Act(id, Lapse)];
      assert Logs(Act(id, Lapse));
      Carry(Act(id, Lapse));
      FewerLeft(old(pending), old(rejected), old(cancelled), {id});
    }

    /** Prune sessions idle for an hour, never one with an active upload. */
    method Expire(idle: set<string>)
      requires Valid()
      modifies this
      ensures Valid() && uploads == old(uploads) && events == old(events) && old(trace) <= trace
      ensures forall id :: At(id) == if id in idle && id !in old(uploads) then UNKNOWN else old(At(id))
    {
      var rest := idle - uploads.Keys;
      while rest != {}
        invariant Valid() && uploads == old(uploads) && events == old(events) && old(trace) <= trace
        invariant rest <= idle - uploads.Keys
        invariant forall id :: At(id) == if id in idle && id !in uploads && id !in rest then UNKNOWN else old(At(id))
        decreases rest
      {
        var id :| id in rest;
        ExpireOne(id);
        rest := rest - {id};
      }
    }

    // -------------------------------------------------------------- registration

    predicate WellFormed(q: Proposal) {
      && 0 < |q.id| <= MAX_ID
      && (forall f :: f in q.files ==> 0 < |f.id| <= MAX_ID)
      && DistinctIds(q.files)
    }

    method Insert(id: string, t: Transfer, trusted: bool, token: string)
      requires At(id) == UNKNOWN
      modifies this`pending, this`approved, this`rejected, this`activity
      ensures Elsewhere(id) && At(id) == UNKNOWN.(pending := Some(t), token := if trusted then Some(token) else None)
      ensures pending == old(pending)[id := t] && rejected == old(rejected)
    {
      activity := activity + {id};
      pending := pending[id := t];
      rejected := rejected - {id};
      if trusted {
        approved := approved[id := token];
      }
    }

    /** A new session, while there is room. */
    method AdmitTransfer(id: string, t: Transfer, trusted: bool, token: string)
      requires Valid() && |pending| + |rejected| + |cancelled| < MAX_SESSIONS
      requires Allowed(At(id), Admit(t, if trusted then Some(token) else None))
      modifies this
      ensures Valid() && events == old(events) && Elsewhere(id)
      ensures trace == old(trace) + [Act(id, Admit(t, if trusted then Some(token) else None))]
      ensures At(id) == UNKNOWN.(pending := Some(t), token := if trusted then Some(token) else None)
    {
      ghost var a := Admit(t, if trusted then Some(token) else None);
      GoodAt(id);
      AdmitGood(At(id), t, a.token);
      Insert(id, t, trusted, token);
      trace := trace + [Act(id, a)];
      assert Logs(Act(id, a));
      Carry(Act(id, a));
    }

    /** A repeated request gets the same answer and changes nothing; an id that was ever
        rejected or cancelled stays refused; a new one is admitted while there is room. */
    method TransferRequest(q: Proposal, source: string, durable: bool, trusted: bool, token: string)
      returns (code: Code, answer: Option<string>)
      requires Valid()
      modifies this
      ensures Valid() && events == old(events) && Elsewhere(q.id)
      ensures var was := old(At(q.id));
              if durable then code == 409 && trace == old(trace) && At(q.id) == was
              else if |q.id| == 0 || |q.id| > 128 || (exists f :: f in q.files && (|f.id| == 0 || |f.id| > 128))
                      || !DistinctIds(q.files) || q.files == [] || TotalSize(q.files) > U64_MAX then
                code == 400 && trace == old(trace) && At(q.id) == was
              else if was.cancelled || was.rejected then code == 409 && trace == old(trace) && At(q.id) == was
              else if was.pending.Some? then
                && trace == old(trace) && At(q.id) == was
                && (if was.pending.value.source == source && was.pending.value.files == q.files
                       && was.pending.value.sender == q.sender
                    then code == 200 && answer == was.token else code == 409)
              else if old(|pending| + |rejected| + |cancelled|) >= MAX_SESSIONS then
                code == 503 && trace == old(trace) && At(q.id) == was
              else
                var t := Transfer(source, q.sender, q.files, TotalSize(q.files));
                && code == 200 && answer == (if trusted then Some(token) else None)
                && trace == old(trace) + [Act(q.id, Admit(t, answer))]
                && At(q.id) == UNKNOWN.(pending := Some(t), token := answer)
    {
      if durable {
        return 409, None;
      }
      if !WellFormed(q) || q.files == [] {
        return 400, None;
      }
      CheckedTotalIsTotal(q.files);
      var total := CheckedTotal(q.files);
      if total.None? {
        return 400, None;
      }
      if q.id in cancelled || q.id in rejected {
        return 409, None;
      }
      if q.id in pending {
        var t := pending[q.id];
        if t.source != source || t.files != q.files || t.sender != q.sender {
          return 409, None;
        }
        return 200, if q.id in approved then Some(approved[q.id]) else None;
      }
      if |pending| + |rejected| + |cancelled| >= MAX_SESSIONS {
        return 503, None;
      }
      AdmitTransfer(q.id, Transfer(source, q.sender, q.files, total.value), trusted, token);
      return 200, if trusted then Some(token) else None;
    }

    // -------------------------------------------------------------- decisions

    method Grant(id: string, token: string)
      requires Allowed(At(id), Approve(token)) && id !in rejected
      modifies this`approved, this`rejected
      ensures Did(Act(id, Approve(token))) && rejected == old(rejected)
    {
      approved := approved[id := token];
      rejected := rejected - {id};
    }

    /** Idempotent: accepting again hands out the same token. */
    method AcceptTransfer(id: string, token: string) returns (res: Result<string, Refusal>)
      requires Valid()
      modifies this`approved, this`rejected, this`trace
      ensures Valid() && Elsewhere(id)
      ensures var was := old(At(id));
              if was.completed then res == Err(TransferNotFound) && trace == old(trace) && At(id) == was
              else if was.cancelled then res == Err(TransferCancelled) && trace == old(trace) && At(id) == was
              else if was.token.Some? then res == Ok(was.token.value) && trace == old(trace) && At(id) == was
              else if was.pending.None? then res == Err(TransferNotFound) && trace == old(trace) && At(id) == was
              else
                && res == Ok(token) && trace == old(trace) + [Act(id, Approve(token))]
                && At(id) == was.(token := Some(token))
    {
      if id in completed {
        return Err(TransferNotFound);
      }
      if id in cancelled {
        return Err(TransferCancelled);
      }
      if id in approved {
        return Ok(approved[id]);
      }
      if id !in pending {
        return Err(TransferNotFound);
      }
      GoodAt(id);
      Grant(id, token);
      trace := trace + [Act(id, Approve(token))];
      assert Logs(Act(id, Approve(token)));
      Carry(Act(id, Approve(token)));
      return Ok(token);
    }

    method Bar(id: string)
      requires Allowed(At(id), Deny)
      modifies this`approved, this`rejected, this`pending
      ensures Did(Act(id, Deny))
      ensures pending == old(pending) - {id} && rejected == old(rejected) + {id}
    {
      rejected := rejected + {id};
      approved := approved - {id};
      pending := pending - {id};
    }

    method RejectTransfer(id: string) returns (res: Result<(), Refusal>)
      requires Valid()
      modifies this`approved, this`rejected, this`pending, this`trace
      ensures Valid() && Elsewhere(id)
      ensures var was := old(At(id));
              if was.completed then res == Err(TransferNotFound) && trace == old(trace) && At(id) == was
              else if was.cancelled then res == Err(TransferCancelled) && trace == old(trace) && At(id) == was
              else if was.token.Some? then res == Err(InvalidConfig) && trace == old(trace) && At(id) == was
              else if was.pending.None? then res == Err(TransferNotFound) && trace == old(trace) && At(id) == was
              else
                && res == Ok(()) && trace == old(trace) + [Act(id, Deny)]
                && At(id) == was.(pending := None, rejected := true)
    {
      if id in completed {
        return Err(TransferNotFound);
      }
      if id in cancelled {
        return Err(TransferCancelled);
      }
      if id in approved {
        return Err(InvalidConfig);
      }
      if id !in pending {
        return Err(TransferNotFound);
      }
      GoodAt(id);
      RemovedKey(pending, id);
      Bar(id);
      trace := trace + [Act(id, Deny)];
      assert Logs(Act(id, Deny));
      Carry(Act(id, Deny));
      return Ok(());
    }

    /** An upload under way loses its counted bytes with the counter. */
    method Uncount(id: string)
      modifies this`uploads
      ensures Elsewhere(id) && uploads.Keys == old(uploads).Keys
      ensures At(id) == old(At(id)).(upload := Struck(old(At(id)).upload))
    {
      if id in uploads {
        uploads := uploads[id := uploads[id].(lost := uploads[id].got)];
      }
    }

    method Erase(id: string)
      requires id in pending && id !in completed
      modifies this`pending, this`approved, this`cancelled, this`received, this`bytes, this`uploads, this`leaked
      ensures Did(Act(id, Revoke))
      ensures pending == old(pending) - {id} && cancelled == old(cancelled) + {id} && uploads.Keys == old(uploads).Keys
    {
      cancelled := cancelled + {id};
      pending := pending - {id};
      approved := approved - {id};
      Unbook(id);
      Uncount(id);
    }

    /** Cancelling is final: nothing of the transfer is left but its id, and the history
        records the counter. */
    method CancelTransfer(id: string) returns (res: Result<(), Refusal>, transferred: nat)
      requires Valid()
      modifies this
      ensures Valid() && events == old(events) && Elsewhere(id) && uploads.Keys == old(uploads).Keys
      ensures var was := old(At(id));
              if was.completed || was.pending.None? then
                res == Err(TransferNotFound) && trace == old(trace) && At(id) == was
              else
                && res == Ok(()) && trace == old(trace) + [Act(id, Revoke)]
                && At(id) == After(was, Revoke)
                && transferred == ReceivedSize(was.pending.value.files, was.Receipts()) + was.InFlight() + was.leaked
    {
      GoodAt(id);
      if id in completed || (id !in pending && id !in approved) {
        return Err(TransferNotFound), 0;
      }
      transferred := if id in bytes then bytes[id] else 0;
      RemovedKey(pending, id);
      Erase(id);
      trace := trace + [Act(id, Revoke)];
      assert Logs(Act(id, Revoke));
      Carry(Act(id, Revoke));
      return Ok(()), transferred;
    }

    // -------------------------------------------------------------- uploads

    method Open(id: string, f: FileInfo)
      requires Allowed(At(id), Start(f))
      modifies this`activity, this`uploads
      ensures id in uploads && Did(Act(id, Start(f)))
    {
      activity := activity + {id};
      uploads := uploads[id := Upload(f, pending[id], 0, 0, 0)];
    }

    /** The upload lock is held and the destination is open. */
    method BeginUpload(id: string, fileId: string)
      requires Valid() && id !in uploads && id in pending && FindFile(pending[id].files, fileId).Some?
      requires Allowed(At(id), Start(FindFile(pending[id].files, fileId).value))
      modifies this
      ensures Valid() && id in uploads && events == old(events)
      ensures Logs(Act(id, Start(FindFile(old(pending[id].files), fileId).value)))
    {
      var f := FindFile(pending[id].files, fileId).value;
      Open(id, f);
      trace := trace + [Act(id, Start(f))];
      assert Logs(Act(id, Start(f)));
      Carry(Act(id, Start(f)));
    }

    /** Add a chunk to the transfer's counter and to the upload. */
    method Add(id: string, n: nat)
      requires id in uploads && uploads[id].got + n <= uploads[id].file.size
      modifies this`bytes, this`uploads
      ensures Did(Act(id, Count(n)))
    {
      bytes := bytes[id := (if id in bytes then bytes[id] else 0) + n];
      uploads := uploads[id := Counted(uploads[id], n)];
    }

    /** Count a chunk, and report it every 32 KiB and at the end. */
    method CountChunk(id: string, n: nat)
      requires id in uploads && uploads[id].got + n <= uploads[id].file.size
      modifies this`bytes, this`uploads, this`events
      ensures Did(Act(id, Count(n))) && events == old(events) + Emits(id, old(At(id)), Count(n))
    {
      var u := uploads[id];
      var sum := (if id in bytes then bytes[id] else 0) + n;
      Add(id, n);
      if Reports(u, n) {
        events := events + [Progress(id, sum, u.transfer.total, if id in leaked then leaked[id] else 0)];
      }
    }

    /** One chunk that fits. */
    method Chunk(id: string, n: nat)
      requires Valid() && id in uploads && uploads[id].got + n <= uploads[id].file.size
      modifies this`bytes, this`uploads, this`events, this`trace
      ensures Valid() && Logs(Act(id, Count(n)))
    {
      CountChunk(id, n);
      trace := trace + [Act(id, Count(n))];
      assert Logs(Act(id, Count(n)));
      Carry(Act(id, Count(n)));
    }

    method Discount(id: string)
      requires id in uploads
      modifies this`bytes, this`uploads
      ensures Did(Act(id, RollBack))
    {
      if id in bytes {
        bytes := bytes[id := Minus(bytes[id], uploads[id].got)];
      }
      uploads := uploads - {id};
    }

    /** Any failure after the destination was opened: a stalled or broken body, too many or
        too few bytes, a write or flush error, a cancellation. */
    method FailUpload(id: string)
      requires Valid() && id in uploads
      modifies this`bytes, this`uploads, this`trace
      ensures Valid() && Logs(Act(id, RollBack)) && id !in uploads
    {
      Discount(id);
      trace := trace + [Act(id, RollBack)];
      assert Logs(Act(id, RollBack));
      Carry(Act(id, RollBack));
      assert At(id).upload.None?;
    }

    method Forsake(id: string)
      requires id in uploads
      modifies this`uploads, this`leaked
      ensures Did(Act(id, Drop))
    {
      leaked := leaked[id := (if id in leaked then leaked[id] else 0) + Minus(uploads[id].got, uploads[id].lost)];
      uploads := uploads - {id};
    }

    /** The request is dropped at an await: no branch of the handler runs any more. */
    method DropUpload(id: string)
      requires Valid() && id in uploads
      modifies this`uploads, this`leaked, this`trace
      ensures Valid() && Logs(Act(id, Drop)) && id !in uploads
    {
      Forsake(id);
      trace := trace + [Act(id, Drop)];
      assert Logs(Act(id, Drop));
      Carry(Act(id, Drop));
      assert At(id).upload.None?;
    }

    /** Move the upload's file to the receipts. */
    method Receive(id: string)
      requires id in uploads
      modifies this`received, this`uploads, this`activity
      ensures Elsewhere(id)
      ensures var was := old(At(id));
              At(id) == was.(receipts := Some(was.Receipts() + {old(uploads[id]).file.id}), upload := None)
    {
      activity := activity + {id};
      received := received[id := (if id in received then received[id] else {}) + {uploads[id].file.id}];
      uploads := uploads - {id};
    }

    /** Retain the token and the receipts, so that a lost final reply can be retried. */
    method MarkComplete(id: string)
      modifies this`completed, this`bytes
      ensures Elsewhere(id) && At(id) == old(At(id)).(completed := true, counter := None)
    {
      completed := completed + {id};
      bytes := bytes - {id};
    }

    /** Receipt and, with the last file, completion; and the events to emit. */
    method BookFile(id: string) returns (more: seq<Event>)
      requires id in uploads && Allowed(At(id), Action.Finish)
      modifies this`received, this`uploads, this`activity, this`completed, this`bytes
      ensures Did(Act(id, Action.Finish)) && more == FinishEvents(id, old(At(id)))
    {
      var u := uploads[id];
      var excess := if id in leaked then leaked[id] else 0;
      var cumulative := if id in bytes then bytes[id] else u.got;
      var total := if id in bytes then bytes[id] else u.transfer.total;
      var first := id !in completed;
      Receive(id);
      more := [Progress(id, cumulative, u.transfer.total, excess)];
      if |received[id]| >= |u.transfer.files| && first {
        MarkComplete(id);
        more := more + [Complete(id, total, u.transfer.total, excess)];
      }
    }

    /** The end of a whole body: receipt, progress and, with the last file, completion. */
    method FinishUpload(id: string)
      requires Valid() && id in uploads && id !in cancelled && uploads[id].got == uploads[id].file.size
      modifies this
      ensures Valid() && Logs(Act(id, Action.Finish)) && id !in uploads
    {
      var more := BookFile(id);
      events := events + more;
      trace := trace + [Act(id, Action.Finish)];
      assert Logs(Act(id, Action.Finish));
      Carry(Act(id, Action.Finish));
      assert At(id).upload.None?;
    }

    method TakeEvent(id: string, event: BodyEvent) returns (res: Option<Code>)
      requires Valid() && id in uploads
      modifies this
      ensures Valid() && Elsewhere(id) && old(events) <= events
      ensures At(id) == EventView(old(At(id)), event) && res == EventCode(old(At(id)), event)
      ensures trace == old(trace) + EventActs(id, old(At(id)), event)
    {
      match event {
        case Arrives(n) =>
          if uploads[id].got + n > uploads[id].file.size {
            FailUpload(id);
            return Some(413);
          }
          Chunk(id, n);
        case Stalls =>
          FailUpload(id);
          return Some(408);
        case Breaks =>
          FailUpload(id);
          return Some(500);
        case Cancels =>
          var _, _ := CancelTransfer(id);
        case Polls =>
          if id in cancelled {
            FailUpload(id);
            return Some(410);
          }
        case Vanishes =>
          DropUpload(id);
          return Some(0);
      }
      return None;
    }

    /** The body loop: the request ends in it, or the whole body is through. */
    method ReceiveBody(id: string, body: seq<BodyEvent>) returns (res: Option<Code>)
      requires Valid() && id in uploads
      modifies this
      ensures Valid() && Elsewhere(id) && old(events) <= events
      ensures (res.None? ==> id in uploads) && res != Some(200)
      ensures Continues(Reads(id, old(At(id)), body), old(trace), trace,
                        if res.Some? then Reception(At(id), [], res.value) else Ended(id, At(id)))
    {
      ghost var whole := Reads(id, At(id), body);
      for k := 0 to |body|
        invariant Valid() && Elsewhere(id) && old(events) <= events && id in uploads
        invariant Continues(whole, old(trace), trace, Reads(id, At(id), body[k..]))
      {
        assert body[k..][0] == body[k] && body[k..][1..] == body[k + 1..];
        ReadsFirst(id, At(id), body[k..], whole, old(trace), trace);
        var one := TakeEvent(id, body[k]);
        if one.Some? {
          return one;
        }
      }
      assert body[|body|..] == [];
      return None;
    }

    /** The end of the body, under the decision lock. */
    method EndOfBody(id: string) returns (code: Code)
      requires Valid() && id in uploads
      modifies this
      ensures Valid() && Elsewhere(id) && old(events) <= events
      ensures var r := Ended(id, old(At(id)));
              At(id) == r.view && code == r.code && trace == old(trace) + r.acts
      ensures code == 200 ==> At(id).pending.Some? && EndsWith(events, SuccessEvents(id, At(id)))
    {
      if uploads[id].got != uploads[id].file.size {
        FailUpload(id);
        return 400;
      }
      if id in cancelled {
        FailUpload(id);
        return 410;
      }
      GoodAt(id);
      SuccessReports(id, At(id));
      FinishUpload(id);
      return 200;
    }

    /** The whole body of an upload under way. */
    method TakeBody(id: string, body: seq<BodyEvent>) returns (code: Code)
      requires Valid() && id in uploads
      modifies this
      ensures Valid() && Elsewhere(id) && id !in uploads && old(events) <= events
      ensures var r := Reads(id, old(At(id)), body);
              code == r.code && At(id) == r.view && trace == old(trace) + r.acts && Tells(old(At(id)), r)
      ensures code == 200 ==> At(id).pending.Some? && EndsWith(events, SuccessEvents(id, At(id)))
    {
      GoodAt(id);
      ReplyTells(id, At(id), body);
      var res := ReceiveBody(id, body);
      if res.Some? {
        assert id !in uploads by { assert At(id).upload.None?; }
        return res.value;
      }
      code := EndOfBody(id);
      assert id !in uploads by { assert At(id).upload.None?; }
    }

    /** chunk_upload_handler.  Each refusal before the body has its one condition and changes
        nothing; otherwise the transfer becomes what the body makes of it, only this id is
        touched, and the reply tells the truth: 200 always means that the file is received.
        `ready` says whether the download directory is there or could be created, `opens`
        whether the destination could be opened. */
    method ChunkUpload(
      id: string, source: string, token: string, fileId: string, ready: bool, opens: bool, body: seq<BodyEvent>)
      returns (code: Code)
      requires Valid() && id !in uploads
      modifies this
      ensures Valid() && Elsewhere(id) && id !in uploads && old(events) <= events
      ensures code == 200 ==> fileId in At(id).Receipts()
      ensures trace != old(trace) ==>
                var was := old(At(id));
                && !was.cancelled && was.token == Some(token) && was.pending.Some? && was.pending.value.source == source
                && fileId in Ids(was.pending.value.files) && fileId !in was.Receipts()
      ensures trace == old(trace) ==> events == old(events) && At(id) == old(At(id))
      ensures var was := old(At(id));
              && (code == 401 <==> !was.cancelled && was.token != Some(token))
              && (was.cancelled ==> code == 410 && trace == old(trace))
              && (!was.cancelled && was.token == Some(token) && ready ==>
                    && was.pending.Some?
                    && (code == 403 <==> was.pending.value.source != source)
                    && (was.pending.value.source == source ==>
                          && (fileId in was.Receipts() ==> code == 200 && trace == old(trace))
                          && (code == 404 <==> fileId !in Ids(was.pending.value.files))))
              && (!was.cancelled && was.token == Some(token) && !ready ==> code == 500 && trace == old(trace))
      ensures var was := old(At(id));
              && !was.cancelled && was.token == Some(token) && ready
              && was.pending.Some? && was.pending.value.source == source && fileId !in was.Receipts()
              && fileId in Ids(was.pending.value.files)
              ==>
                var f := FindFile(old(pending[id].files), fileId).value;
                var v := was.(upload := Some(Upload(f, was.pending.value, 0, 0, 0)));
                var r := Reads(id, v, body);
                && f.id == fileId && f in was.pending.value.files
                && if Paths.ReservedTarget(Paths.TargetDir(Place(f)) + [Paths.TargetBase(Place(f))]) then
                     code == 400 && trace == old(trace)
                   else if !opens then code == 500 && trace == old(trace)
                   else
                     && code == r.code && At(id) == r.view && trace == old(trace) + [Act(id, Start(f))] + r.acts
                     && Tells(v, r)
                     && (code == 200 ==> At(id).pending.Some? && EndsWith(events, SuccessEvents(id, At(id))))
    {
      if id in cancelled {
        return 410;
      }
      if id !in approved || approved[id] != token {
        return 401;
      }
      if !ready {
        return 500;
      }
      GoodAt(id);
      if id !in pending {
        return 404;
      }
      if pending[id].source != source {
        return 403;
      }
      if id in received && fileId in received[id] {
        return 200;
      }
      var file := FindFile(pending[id].files, fileId);
      if file.None? {
        return 404;
      }
      if Reserved(file.value) {
        return 400;
      }
      if !opens {
        return 500;
      }
      FileNamed(pending[id].files, file.value);
      BeginUpload(id, fileId);
      code := TakeBody(id, body);
    }
  }

  lemma FileNamed(files: seq<FileInfo>, f: FileInfo)
    requires f in files
    ensures f.id in Ids(files)
  {
  }
}
