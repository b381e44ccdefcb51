/** The v1 sender's retry loops (src/client.rs). */
module LegacyClients {

  /** What one attempt meets: a success, a failure worth retrying, or a definitive one. */
  datatype Outcome = Delivered | Transient | Definitive

  /** One upload attempt; a failed one may have streamed part of the file. */
  datatype Attempt = Attempt(streamed: nat, outcome: Outcome)

  function OutcomeAt(script: seq<Outcome>, k: nat): Outcome {
    if k < |script| then script[k] else Transient
  }

  function AttemptAt(script: seq<Attempt>, k: nat): Attempt {
    if k < |script| then script[k] else Attempt(0, Transient)
  }

  function Outcomes(script: seq<Attempt>): (o: seq<Outcome>)
    ensures |o| == |script| && forall k :: 0 <= k < |o| ==> o[k] == script[k].outcome
  {
    seq(|script|, k requires 0 <= k < |script| => script[k].outcome)
  }

  /** Some attempt within the budget is delivered and everything before it was transient. */
  predicate Succeeds(script: seq<Outcome>, maxRetries: nat) {
    exists k :: 0 <= k <= maxRetries && DeliveredAt(script, k)
  }

  predicate DeliveredAt(script: seq<Outcome>, k: nat) {
    OutcomeAt(script, k).Delivered? && forall j :: 0 <= j < k ==> OutcomeAt(script, j).Transient?
  }

  lemma FailsAt(script: seq<Outcome>, maxRetries: nat, k: nat)
    requires k <= maxRetries && !OutcomeAt(script, k).Delivered?
    requires forall j :: 0 <= j < k ==> OutcomeAt(script, j).Transient?
    requires OutcomeAt(script, k).Definitive? || k == maxRetries
    ensures !Succeeds(script, maxRetries)
  {
    forall n | 0 <= n <= maxRetries ensures !DeliveredAt(script, n) {
      assert n > k ==> !OutcomeAt(script, k).Transient?;
    }
  }

  function Sum(sizes: seq<nat>): nat {
    if sizes == [] then 0 else Sum(sizes[..|sizes| - 1]) + sizes[|sizes| - 1]
  }

  /** Whether the k-th file gets through. */
  predicate Through(scripts: seq<seq<Attempt>>, maxRetries: nat, k: nat)
    requires k < |scripts|
  {
    Succeeds(Outcomes(scripts[k]), maxRetries)
  }

  class LegacyClient {
    const maxRetries: nat
    var bytesSent: nat

    constructor (maxRetries: nat)
      ensures this.maxRetries == maxRetries && bytesSent == 0
    {
      this.maxRetries, this.bytesSent := maxRetries, 0;
    }

    /** request_transfer: at most maxRetries + 1 requests; the error kept for after the
        loop is never returned. */
    method RequestTransfer(script: seq<Outcome>) returns (ok: bool, used: nat)
      ensures ok <==> Succeeds(script, maxRetries)
      ensures 1 <= used <= maxRetries + 1
      ensures forall j :: 0 <= j < used - 1 ==> OutcomeAt(script, j).Transient?
      ensures ok <==> OutcomeAt(script, used - 1).Delivered?
      ensures !ok && OutcomeAt(script, used - 1).Transient? ==> used == maxRetries + 1
    {
      var attempt := 0;
      while attempt <= maxRetries
        invariant 0 <= attempt <= maxRetries
        invariant forall j :: 0 <= j < attempt ==> OutcomeAt(script, j).Transient?
        decreases maxRetries + 1 - attempt
      {
        var outcome := OutcomeAt(script, attempt);
        if outcome.Delivered? {
          assert DeliveredAt(script, attempt);
          return true, attempt + 1;
        }
        if outcome.Definitive? || attempt == maxRetries {
          FailsAt(script, maxRetries, attempt);
          return false, attempt + 1;
        }
        attempt := attempt + 1;
      }
      assert false;
    }

    /** One upload: the counter advances with the stream and is set on success. */
    method SendFile(size: nat, a: Attempt) returns (ok: bool)
      modifies this
      ensures ok <==> a.outcome.Delivered?
      ensures bytesSent == old(bytesSent) + if ok || a.streamed > size then size else a.streamed
    {
      var baseline := bytesSent;
      bytesSent := bytesSent + if a.streamed <= size then a.streamed else size;
      if !a.outcome.Delivered? {
        return false;
      }
      bytesSent := baseline + size;
      return true;
    }

    /** Every attempt starts again from the counter's value before the file, so failed
        attempts leave no trace in a success. */
    method SendFileWithRetry(size: nat, script: seq<Attempt>) returns (ok: bool, used: nat)
      modifies this
      ensures ok <==> Succeeds(Outcomes(script), maxRetries)
      ensures 1 <= used <= maxRetries + 1
      ensures forall j :: 0 <= j < used - 1 ==> AttemptAt(script, j).outcome.Transient?
      ensures ok <==> AttemptAt(script, used - 1).outcome.Delivered?
      ensures !ok && AttemptAt(script, used - 1).outcome.Transient? ==> used == maxRetries + 1
      ensures var streamed := AttemptAt(script, used - 1).streamed;
              bytesSent == old(bytesSent) + if ok || streamed > size then size else streamed
    {
      var baseline := bytesSent;
      var outcomes := Outcomes(script);
      var attempt := 0;
      while attempt <= maxRetries
        invariant 0 <= attempt <= maxRetries
        invariant forall j :: 0 <= j < attempt ==> OutcomeAt(outcomes, j).Transient?
        invariant forall j :: 0 <= j < attempt ==> AttemptAt(script, j).outcome.Transient?
        decreases maxRetries + 1 - attempt
      {
        bytesSent := baseline;
        var a := AttemptAt(script, attempt);
        assert OutcomeAt(outcomes, attempt) == a.outcome;
        var sent := SendFile(size, a);
        if sent {
          assert DeliveredAt(outcomes, attempt);
          return true, attempt + 1;
        }
        if !(a.outcome.Transient? && attempt < maxRetries) {
          FailsAt(outcomes, maxRetries, attempt);
          return false, attempt + 1;
        }
        attempt := attempt + 1;
      }
      assert false;
    }

    /** The loop over files: after each the counter is the sum of the sizes delivered so
        far, whatever attempts failed on the way. */
    method SendFiles(sizes: seq<nat>, scripts: seq<seq<Attempt>>) returns (ok: bool, done: nat)
      requires |scripts| == |sizes| && bytesSent == 0
      modifies this
      ensures done <= |sizes| && forall k :: 0 <= k < done ==> Through(scripts, maxRetries, k)
      ensures ok ==> done == |sizes| && bytesSent == Sum(sizes)
      ensures !ok ==> done < |sizes| && !Through(scripts, maxRetries, done)
                      && Sum(sizes[..done]) <= bytesSent <= Sum(sizes[..done + 1])
    {
      done := 0;
      while done < |sizes|
        invariant done <= |sizes| && forall k :: 0 <= k < done ==> Through(scripts, maxRetries, k)
        invariant bytesSent == Sum(sizes[..done])
      {
        assert sizes[..done + 1][..done] == sizes[..done];
        var sent, used := SendFileWithRetry(sizes[done], scripts[done]);
        if !sent {
          return false, done;
        }
        done := done + 1;
      }
      assert sizes[..done] == sizes;
      return true, done;
    }
  }
}
