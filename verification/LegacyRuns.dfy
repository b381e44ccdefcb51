/** The v1 server over its whole life: theorems about logged actions are theorems about every
    server object, and two runs show what the v1 counter does not survive. */
module LegacyRuns {
  import opened Wrappers
  import opened Manifests
  import opened Legacy
  import opened LegacyServers

  /** The fields and the events are what the log says. */
  lemma LogIsRun(server: LegacyServer, id: string)
    requires server.Valid()
    ensures WellTraced(server.trace) && server.events == EventsOf(server.trace, |server.trace|)
    ensures server.At(id) == ViewOf(server.trace, |server.trace|, id) && Good(server.At(id))
  {
    assert server.AsLogged(id);
    TraceGood(server.trace, |server.trace|, id);
  }

  /** What validity says of the sets themselves: approved and completed ids are pending,
      pending, rejected and cancelled ids are disjoint and at most 1024 together, uploads
      of live transfers are approved, and receipts name files of their transfer. */
  lemma SetsAgree(server: LegacyServer)
    requires server.Valid()
    ensures server.approved.Keys <= server.pending.Keys
    ensures server.completed <= server.approved.Keys
    ensures server.pending.Keys !! server.rejected && server.pending.Keys !! server.cancelled
    ensures server.rejected !! server.cancelled
    ensures |server.pending| + |server.rejected| + |server.cancelled| <= MAX_SESSIONS
    ensures server.uploads.Keys <= server.approved.Keys + server.cancelled
    ensures forall id :: id in server.received ==>
              id in server.pending && server.received[id] <= Ids(server.pending[id].files)
  {
    forall id
      ensures id in server.approved || id in server.completed || id in server.received ==> id in server.pending
      ensures id in server.completed ==> id in server.approved
      ensures !(id in server.pending && id in server.rejected) && !(id in server.pending && id in server.cancelled)
      ensures !(id in server.rejected && id in server.cancelled)
      ensures id in server.uploads ==> id in server.approved || id in server.cancelled
      ensures id in server.received && id in server.pending ==> server.received[id] <= Ids(server.pending[id].files)
    {
      LogIsRun(server, id);
    }
  }

  /** A token handed out earlier is the one the server still knows, as long as the transfer
      has been neither cancelled nor expired. */
  lemma TokenStillValid(server: LegacyServer, i: nat, id: string, token: string)
    requires server.Valid() && i <= |server.trace| && ViewOf(server.trace, i, id).token == Some(token)
    requires forall q :: i <= q < |server.trace| ==> !Ends(server.trace[q], id)
    ensures id in server.approved && server.approved[id] == token
  {
    LogIsRun(server, id);
    TokenNeverChanges(server.trace, i, |server.trace|, id);
  }

  /** Among the events since the admission at a there is exactly one completion of the
      transfer if it is complete, and none if it is not. */
  lemma CompletionEvents(server: LegacyServer, a: nat, id: string)
    requires server.Valid() && SinceAdmission(server.trace, a, |server.trace|, id)
    ensures EventsOf(server.trace, a) <= server.events
    ensures Completions(server.events[|EventsOf(server.trace, a)|..], id) == if id in server.completed then 1 else 0
  {
    LogIsRun(server, id);
    CompletionReportedOnce(server.trace, a, |server.trace|, id);
    EventsGrow(server.trace, a, |server.trace|);
    CompletionsSince(EventsOf(server.trace, a), server.events, id);
  }

  lemma CompletionsSince(before: seq<Event>, events: seq<Event>, id: string)
    requires before <= events
    ensures Completions(events[|before|..], id) == Completions(events, id) - Completions(before, id)
  {
    CompletionsAdd(before, events[|before|..], id);
    assert before + events[|before|..] == events;
  }

  lemma {:induction false} EventsGrow(trace: seq<Act>, a: nat, k: nat)
    requires a <= k <= |trace|
    ensures EventsOf(trace, a) <= EventsOf(trace, k)
    decreases k
  {
    if a < k {
      EventsGrow(trace, a, k - 1);
    }
  }

  /** No progress report exceeds the announced total, and every completion reports exactly
      it, but for bytes of dropped uploads. */
  lemma ReportsAreTrue(server: LegacyServer, e: Event)
    requires server.Valid() && e in server.events
    ensures e.bytes <= e.total + e.excess
    ensures e.Complete? ==> e.bytes == e.total + e.excess
  {
    LogIsRun(server, e.id);
    TraceEventsOk(server.trace, |server.trace|);
    assert EventOk(e);
  }

  // ---------------------------------------------------------------- two runs

  /** Some file of two bytes that a sender may announce. */
  predicate TwoBytes(f: FileInfo) {
    f.size == 2 && 0 < |f.id| <= MAX_ID && !Reserved(f)
  }

  function OneFile(f: FileInfo): Transfer {
    Transfer("host", None, [f], 2)
  }

  lemma OneFileFacts(f: FileInfo)
    requires TwoBytes(f)
    ensures DistinctIds([f]) && TotalSize([f]) == 2 && FindFile([f], f.id) == Some(f)
  {
    assert [f][..0] == [];
  }

  /** A trusted sender has announced the file. */
  method Announced(f: FileInfo) returns (server: LegacyServer)
    requires TwoBytes(f)
    ensures fresh(server) && server.Valid() && "a" !in server.uploads
    ensures server.At("a") == UNKNOWN.(pending := Some(OneFile(f)), token := Some("k"))
  {
    server := new LegacyServer();
    LogIsRun(server, "a");
    OneFileFacts(f);
    var _, _ := server.TransferRequest(Proposal("a", None, [f]), "host", false, true, "k");
    assert server.At("a").upload.None?;
  }

  /** The file being uploaded. */
  function Uploading(f: FileInfo, counter: Option<nat>, leaked: nat): View {
    UNKNOWN.(pending := Some(OneFile(f)), token := Some("k"), counter := counter, leaked := leaked,
             upload := Some(Upload(f, OneFile(f), 0, 0, 0)))
  }

  /** An upload of the file, opened. */
  method Opened(f: FileInfo) returns (server: LegacyServer)
    requires TwoBytes(f)
    ensures fresh(server) && server.Valid() && "a" in server.uploads && server.At("a") == Uploading(f, None, 0)
  {
    server := Announced(f);
    OneFileFacts(f);
    server.BeginUpload("a", f.id);
  }

  lemma CountedTwice(f: FileInfo)
    requires TwoBytes(f)
    ensures var v1 := EventView(Uploading(f, None, 0), Arrives(1));
            && v1.upload.Some? && EventView(v1, Cancels).upload.Some?
            && var v3 := EventView(EventView(v1, Cancels), Arrives(1));
               v3.upload.Some? && v3.counter == Some(1) && v3.upload.value.got == 2
  {
  }

  /** One byte counted, the transfer cancelled, one more byte counted before the handler sees
      it: the broken body's rollback is two bytes off a counter of one. */
  method SaturatingRollback(f: FileInfo) returns (server: LegacyServer)
    requires TwoBytes(f)
    ensures server.Valid() && "a" in server.uploads && Saturates(server.At("a"))
    ensures server.At("a").counter == Some(1) && server.At("a").upload.value.got == 2
  {
    server := Opened(f);
    CountedTwice(f);
    Step(server, Arrives(1));
    Step(server, Cancels);
    Step(server, Arrives(1));
  }

  /** One event of an upload that goes on. */
  method Step(server: LegacyServer, event: BodyEvent)
    requires server.Valid() && "a" in server.uploads && EventView(server.At("a"), event).upload.Some?
    modifies server
    ensures server.Valid() && "a" in server.uploads && server.At("a") == EventView(old(server.At("a")), event)
  {
    var _ := server.TakeEvent("a", event);
    assert server.At("a").upload.Some?;
  }

  lemma DroppedBody(f: FileInfo)
    requires TwoBytes(f)
    ensures Reads("a", Uploading(f, None, 0), [Arrives(1), Vanishes]).code == 0
    ensures Reads("a", Uploading(f, None, 0), [Arrives(1), Vanishes]).view
            == Uploading(f, Some(1), 1).(upload := None)
  {
    var v := Uploading(f, None, 0);
    ReadsOn("a", v, [Arrives(1), Vanishes]);
    assert [Arrives(1), Vanishes][1..] == [Vanishes];
  }

  /** The transfer after a dropped byte and a whole retry. */
  function Inflated(f: FileInfo): View {
    UNKNOWN.(pending := Some(OneFile(f)), token := Some("k"), receipts := Some({f.id}), completed := true, leaked := 1)
  }

  lemma RetriedBody(f: FileInfo)
    requires TwoBytes(f)
    ensures Reads("a", Uploading(f, Some(1), 1), [Arrives(2)]).code == 200
    ensures Reads("a", Uploading(f, Some(1), 1), [Arrives(2)]).view == Inflated(f)
  {
    var v := Uploading(f, Some(1), 1);
    ReadsOn("a", v, [Arrives(2)]);
    assert [Arrives(2)][1..] == [];
  }

  lemma ReportsOfTwo(f: FileInfo)
    requires TwoBytes(f)
    ensures SuccessEvents("a", Inflated(f)) == [Progress("a", 3, 2, 1), Complete("a", 3, 2, 1)]
  {
    assert [f][..0] == [];
    assert ReceivedSize([f], {f.id}) == ReceivedSize([], {f.id}) + f.size;
  }

  /** A request dropped after one byte leaves it in the counter: the retry completes the
      transfer with three bytes reported of two. */
  method InflatedCompletion(f: FileInfo) returns (server: LegacyServer, first: Code, second: Code)
    requires TwoBytes(f)
    ensures server.Valid() && first == 0 && second == 200
    ensures EndsWith(server.events, [Progress("a", 3, 2, 1), Complete("a", 3, 2, 1)])
  {
    server := Announced(f);
    OneFileFacts(f);
    DroppedBody(f);
    RetriedBody(f);
    first := server.ChunkUpload("a", "host", "k", f.id, true, true, [Arrives(1), Vanishes]);
    assert server.At("a") == Uploading(f, Some(1), 1).(upload := None);
    second := server.ChunkUpload("a", "host", "k", f.id, true, true, [Arrives(2)]);
    ReportsOfTwo(f);
  }
}
