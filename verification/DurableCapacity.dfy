/** The documented limit of 1024 retained sessions, and when it holds. */
module DurableCapacity {
  import opened Wrappers
  import opened Manifests
  import opened Disks
  import opened Durable
  import opened DurableInvariant
  import opened DurableSteps
  import opened DurableRuns
  import opened DurableMoves
  import opened DurableWitness

  /** Every journalled session is in memory and the other way round, within the limit. */
  ghost predicate Bounded(w: World) {
    w.journal.Keys == w.sessions.Keys && |w.sessions| <= MAX_SESSIONS
  }

  /** The registration's journal write does not land after having been reported failed. */
  predicate NoGhostWrite(step: Step) {
    step.Register? ==> step.io != Failed(true)
  }

  lemma KeyCount<K, V, W>(m: map<K, V>, n: map<K, W>)
    requires m.Keys == n.Keys
    ensures |m| == |n|
  {
    assert |m| == |m.Keys| && |n| == |n.Keys|;
  }

  lemma Dropping<K, V>(m: map<K, V>, gone: set<K>)
    ensures |m - gone| <= |m|
  {
    assert (m - gone).Keys == m.Keys - gone;
    SubsetSize(m.Keys - gone, m.Keys);
  }

  lemma RegisterBounded(w: World, step: Step, w': World)
    requires Bounded(w) && step.Register? && NoGhostWrite(step) && Next(w, step, w')
    ensures Bounded(w')
  {
    RegisterCase(w, step, w');
    RoomLeft(w, step, w');
  }

  lemma RoomLeft(w: World, step: Step, w': World)
    requires step.Register? && Next(w, step, w')
    ensures |w.sessions| < MAX_SESSIONS
  {
    NextMeans(w, step, w');
  }

  lemma ForgetBounded(w: World, sid: string, ids: set<string>)
    requires Bounded(w)
    ensures Bounded(DoForget(w, sid, ids))
  {
    Dropping(w.sessions, {sid});
    assert (w.journal - {sid}).Keys == w.journal.Keys - {sid};
    assert (w.sessions - {sid}).Keys == w.sessions.Keys - {sid};
  }

  lemma ShapedBounded(w: World, w': World, sid: string)
    requires Bounded(w) && sid in w.sessions && Shaped(w, w', sid)
    ensures Bounded(w')
  {
    assert w'.sessions.Keys == w.sessions.Keys && w'.journal.Keys == w.journal.Keys;
    KeyCount(w.sessions, w'.sessions);
  }

  lemma ActBounded(w: World, step: Step, w': World)
    requires Bounded(w) && OfSession(step) && Next(w, step, w')
    ensures Bounded(w')
  {
    SessionCase(w, step, w');
    if step.Forget? {
      ForgetBounded(w, step.sid, Ids(w.sessions[step.sid].rec.Files()));
    } else {
      SessionStepShape(w, step.sid, w.sessions[step.sid], step);
      ShapedBounded(w, w', step.sid);
    }
  }

  lemma StepKeepsBounded(w: World, step: Step, w': World)
    requires Bounded(w) && NoGhostWrite(step) && Next(w, step, w')
    ensures Bounded(w')
  {
    if step.Register? {
      RegisterBounded(w, step, w');
    } else if OfSession(step) {
      ActBounded(w, step, w');
    } else if step.SaveFile? {
      SaveCase(w, step, w');
    } else {
      CrashCase(w, step, w');
      assert w'.sessions.Keys == w.journal.Keys;
      KeyCount(w.sessions, w'.sessions);
    }
  }

  /** At most 1024 sessions are retained over any run in which no registration reported as
      failed is found in the journal after all. */
  lemma {:induction false} AtMostMaxSessions(states: seq<World>, steps: seq<Step>, k: nat)
    requires IsRun(states, steps) && Initial(states[0]) && k <= |steps|
    requires forall n :: 0 <= n < k ==> NoGhostWrite(steps[n])
    ensures Bounded(states[k])
  {
    if k > 0 {
      AtMostMaxSessions(states, steps, k - 1);
      StepKeepsBounded(states[k - 1], steps[k - 1], states[k]);
    }
  }

  lemma GhostRegistration(w: World, m: Manifest, owner: string, sourceIp: string, token: string)
    returns (w': World)
    requires |w.sessions| < MAX_SESSIONS && m.request.transferId !in w.sessions
    ensures ValidManifest(m) ==> Next(w, Register(m, owner, sourceIp, true, token, Failed(true)), w')
    ensures w'.sessions == w.sessions && w'.disk == w.disk && w'.links == w.links
    ensures w'.journal.Keys == w.journal.Keys + {m.request.transferId}
  {
    w' := DoRegister(w, m.request.transferId, NewRecord(m, owner, sourceIp, true, token), Failed(true));
    if ValidManifest(m) {
      TakesRegister(w, m, owner, sourceIp, true, token, Failed(true));
    }
  }

  lemma Registered(w: World, sid: string, r: Record)
    requires sid !in w.sessions
    ensures var w' := DoRegister(w, sid, r, Stored);
            && w'.disk == w.disk && w'.journal.Keys == w.journal.Keys + {sid}
            && w'.sessions.Keys == w.sessions.Keys + {sid} && |w'.sessions| == |w.sessions| + 1
  {
    var w' := DoRegister(w, sid, r, Stored);
    assert w'.sessions.Keys == w.sessions.Keys + {sid};
    assert |w'.sessions| == |w'.sessions.Keys| && |w.sessions| == |w.sessions.Keys|;
  }

  lemma RealRegistration(w: World, m: Manifest, owner: string, sourceIp: string, token: string)
    returns (w': World)
    requires |w.sessions| < MAX_SESSIONS && m.request.transferId !in w.sessions
    ensures ValidManifest(m) ==> Next(w, Register(m, owner, sourceIp, true, token, Stored), w')
    ensures w'.disk == w.disk && w'.journal.Keys == w.journal.Keys + {m.request.transferId}
    ensures w'.sessions.Keys == w.sessions.Keys + {m.request.transferId} && |w'.sessions| == |w.sessions| + 1
  {
    var r := NewRecord(m, owner, sourceIp, true, token);
    Registered(w, m.request.transferId, r);
    w' := DoRegister(w, m.request.transferId, r, Stored);
    if ValidManifest(m) {
      TakesRegister(w, m, owner, sourceIp, true, token, Stored);
    }
  }

  lemma QuietCrash(w: World) returns (keep: map<Inode, nat>, w': World)
    requires DiskOk(w.disk)
    ensures Next(w, Crash(keep, {}), w') && w'.sessions.Keys == w.journal.Keys
  {
    keep := TakesRestart(w);
    w' := w.(disk := Flushed(w.disk), sessions := LoadAll(w.journal));
  }

  // ---------------------------------------------------------------- the exact condition

  lemma Counts(w: World, step: Step, w': World)
    requires Next(w, step, w')
    ensures step.Crash? ==> |w'.sessions| == |w.journal|
    ensures !step.Crash? && |w.sessions| <= MAX_SESSIONS ==> |w'.sessions| <= MAX_SESSIONS
  {
    if step.Register? {
      RegisterCase(w, step, w');
      RoomLeft(w, step, w');
    } else if OfSession(step) {
      ActCounts(w, step, w');
    } else if step.SaveFile? {
      SaveCase(w, step, w');
    } else {
      CrashCase(w, step, w');
      assert w'.sessions.Keys == w.journal.Keys;
      KeyCount(w.journal, w'.sessions);
    }
  }

  lemma ActCounts(w: World, step: Step, w': World)
    requires OfSession(step) && Next(w, step, w')
    ensures |w'.sessions| <= |w.sessions|
  {
    SessionCase(w, step, w');
    if step.Forget? {
      Dropping(w.sessions, {step.sid});
    } else {
      SessionStepShape(w, step.sid, w.sessions[step.sid], step);
      assert w'.sessions.Keys == w.sessions.Keys;
      KeyCount(w.sessions, w'.sessions);
    }
  }

  ghost predicate Within(states: seq<World>, k: nat) {
    k < |states| && forall n :: 0 <= n <= k ==> |states[n].sessions| <= MAX_SESSIONS
  }

  /** Every restart before state k finds room for what is in the journal. */
  ghost predicate RestartsFit(states: seq<World>, steps: seq<Step>, k: nat) {
    k <= |steps| < |states| && forall n :: 0 <= n < k && steps[n].Crash? ==> |states[n].journal| <= MAX_SESSIONS
  }

  lemma OneFurther(states: seq<World>, steps: seq<Step>, p: nat, k: nat)
    requires k == p + 1 <= |steps| < |states|
    ensures Within(states, k) <==> Within(states, p) && |states[k].sessions| <= MAX_SESSIONS
    ensures RestartsFit(states, steps, k)
            <==> RestartsFit(states, steps, p) && (steps[p].Crash? ==> |states[p].journal| <= MAX_SESSIONS)
  {
  }

  /** The documented limit holds over a run if and only if no restart finds more than 1024
      journal files: registrations alone can never exceed it. */
  lemma {:induction false} LimitHoldsIff(states: seq<World>, steps: seq<Step>, k: nat)
    requires IsRun(states, steps) && Initial(states[0]) && k <= |steps|
    ensures Within(states, k) <==> RestartsFit(states, steps, k)
  {
    if k > 0 {
      LimitHoldsIff(states, steps, k - 1);
      Counts(states[k - 1], steps[k - 1], states[k]);
      OneFurther(states, steps, k - 1, k);
    }
  }

  // ---------------------------------------------------------------- what the journal holds

  /** Journal files without a session in memory. */
  function Orphans(w: World): set<string> {
    w.journal.Keys - w.sessions.Keys
  }

  /** The registration is reported as failed, but its journal file is there. */
  predicate IsGhost(step: Step, sid: string) {
    step.Register? && step.manifest.request.transferId == sid && step.io == Failed(true)
  }

  /** The file gets its session: by a restart, or by registering again. */
  predicate Adopts(step: Step, sid: string) {
    step.Crash? || (step.Register? && step.manifest.request.transferId == sid && step.io.Stored?)
  }

  lemma RegisterOrphans(w: World, step: Step, w': World, sid: string)
    requires step.Register? && Next(w, step, w')
    ensures sid in Orphans(w') <==> (sid in Orphans(w) && !Adopts(step, sid)) || IsGhost(step, sid)
  {
    RegisterCase(w, step, w');
  }

  lemma ActOrphans(w: World, step: Step, w': World, sid: string)
    requires Inv(w) && OfSession(step) && Next(w, step, w')
    ensures sid in Orphans(w') <==> sid in Orphans(w)
  {
    SessionCase(w, step, w');
    LocalAt(w, step.sid);
    if step.Forget? {
      ForgetIsLocal(w, step.sid, Ids(w.sessions[step.sid].rec.Files()));
      assert step.sid !in w'.journal && step.sid !in w'.sessions;
    } else {
      SessionStepShape(w, step.sid, w.sessions[step.sid], step);
    }
  }

  lemma StepOrphans(w: World, step: Step, w': World, sid: string)
    requires Inv(w) && Next(w, step, w')
    ensures sid in Orphans(w') <==> (sid in Orphans(w) && !Adopts(step, sid)) || IsGhost(step, sid)
  {
    if step.Register? {
      RegisterOrphans(w, step, w', sid);
    } else if OfSession(step) {
      ActOrphans(w, step, w', sid);
    } else if step.SaveFile? {
      SaveCase(w, step, w');
    } else {
      CrashCase(w, step, w');
    }
  }

  /** Step n left a journal file behind that nothing has adopted since. */
  ghost predicate Unadopted(steps: seq<Step>, n: nat, k: nat, sid: string) {
    n < k <= |steps| && IsGhost(steps[n], sid) && forall q :: n < q < k ==> !Adopts(steps[q], sid)
  }

  /** The journal holds the sessions in memory and the ghost registrations not adopted yet:
      so many sessions the next restart brings back. */
  lemma {:induction false} OrphansAreGhosts(states: seq<World>, steps: seq<Step>, k: nat, sid: string)
    requires IsRun(states, steps) && Initial(states[0]) && k <= |steps|
    ensures sid in Orphans(states[k]) <==> exists n: nat :: Unadopted(steps, n, k, sid)
  {
    if k > 0 {
      OrphansAreGhosts(states, steps, k - 1, sid);
      RunKeepsInv(states, steps, k - 1);
      StepOrphans(states[k - 1], steps[k - 1], states[k], sid);
      GhostsGrow(steps, k - 1, k, sid);
    }
  }

  lemma GhostsGrow(steps: seq<Step>, p: nat, k: nat, sid: string)
    requires k == p + 1 <= |steps|
    ensures (exists n: nat :: Unadopted(steps, n, k, sid))
            <==> ((exists n: nat :: Unadopted(steps, n, p, sid)) && !Adopts(steps[p], sid)) || IsGhost(steps[p], sid)
  {
    if IsGhost(steps[p], sid) {
      assert Unadopted(steps, p, k, sid);
    } else {
      if n: nat :| Unadopted(steps, n, k, sid) {
        assert n < p && Unadopted(steps, n, p, sid);
      }
      if !Adopts(steps[p], sid) {
        if n: nat :| Unadopted(steps, n, p, sid) {
          assert Unadopted(steps, n, k, sid);
        }
      }
    }
  }

  lemma JournalCount(states: seq<World>, steps: seq<Step>, k: nat)
    requires IsRun(states, steps) && Initial(states[0]) && k <= |steps|
    ensures |states[k].journal| == |states[k].sessions| + |Orphans(states[k])|
  {
    var w := states[k];
    RunKeepsInv(states, steps, k);
    forall sid | sid in w.sessions ensures sid in w.journal {
      LocalAt(w, sid);
    }
    assert w.journal.Keys == w.sessions.Keys + Orphans(w);
    assert |w.journal| == |w.journal.Keys| && |w.sessions| == |w.sessions.Keys|;
  }

  // ---------------------------------------------------------------- beyond the limit

  function HexDigit(n: nat): char
    requires n < 16
  {
    if n < 10 then '0' + n as char else 'a' + (n - 10) as char
  }

  function Hex(n: nat, len: nat): (s: string)
    ensures |s| == len && forall i :: 0 <= i < len ==> IsLowerHex(s[i])
  {
    if len == 0 then "" else Hex(n / 16, len - 1) + [HexDigit(n % 16)]
  }

  function Pow16(len: nat): nat {
    if len == 0 then 1 else 16 * Pow16(len - 1)
  }

  lemma {:induction false} HexIsInjective(m: nat, n: nat, len: nat)
    requires m < Pow16(len) && n < Pow16(len) && Hex(m, len) == Hex(n, len)
    ensures m == n
  {
    if len > 0 {
      var a, b := Hex(m, len), Hex(n, len);
      assert a[..len - 1] == Hex(m / 16, len - 1) && b[..len - 1] == Hex(n / 16, len - 1);
      assert a[len - 1] == HexDigit(m % 16) && b[len - 1] == HexDigit(n % 16);
      HexIsInjective(m / 16, n / 16, len - 1);
    }
  }

  /** Canonical identifiers that differ in their last group. */
  function Uuid(n: nat): string {
    "00000000-0000-0000-0000-00000000" + Hex(n, 4)
  }

  lemma UuidsAreCanonical(m: nat, n: nat)
    requires m < 65536 && n < 65536 && m != n
    ensures CanonicalUuid(Uuid(m)) && Uuid(m) != Uuid(n)
  {
    assert Pow16(4) == 65536;
    assert Uuid(m)[32..] == Hex(m, 4) && Uuid(n)[32..] == Hex(n, 4);
    if Uuid(m) == Uuid(n) {
      HexIsInjective(m, n, 4);
    }
  }

  /** The manifest under another transfer id. */
  function Renamed(m: Manifest, id: string): Manifest {
    m.(request := m.request.(transferId := id))
  }

  lemma RenamedIsValid(m: Manifest, id: string)
    requires ValidManifest(m) && CanonicalUuid(id)
    ensures ValidManifest(Renamed(m, id)) && Renamed(m, id).request.transferId == id
  {
  }

  function Numbered(n: nat): set<string> {
    set i | 0 <= i < n :: Uuid(i)
  }

  lemma NextNumber(n: nat, k: nat)
    requires n <= k < 65535
    ensures CanonicalUuid(Uuid(k)) && Uuid(k) !in Numbered(n) && Uuid(k) != Uuid(k + 1)
    ensures Numbered(n + 1) == Numbered(n) + {Uuid(n)}
  {
    forall i | 0 <= i < n ensures Uuid(i) != Uuid(k) {
      UuidsAreCanonical(i, k);
    }
    UuidsAreCanonical(k, k + 1);
  }

  ghost predicate Filled(w: World, n: nat) {
    w.journal.Keys == w.sessions.Keys == Numbered(n) && |w.sessions| == n && w.disk == EMPTY.disk
  }

  lemma FillStep(w: World, n: nat, id: string, m: Manifest, owner: string, sourceIp: string, token: string)
    returns (w': World)
    requires Filled(w, n) && n < MAX_SESSIONS
    requires m.request.transferId == id && id !in Numbered(n) && Numbered(n + 1) == Numbered(n) + {id}
    ensures ValidManifest(m) ==> Next(w, Register(m, owner, sourceIp, true, token, Stored), w')
    ensures Filled(w', n + 1)
  {
    w' := RealRegistration(w, m, owner, sourceIp, token);
  }

  lemma FillNext(w: World, n: nat, m: Manifest, owner: string, sourceIp: string, token: string)
    returns (step: Step, w': World)
    requires Filled(w, n) && n < MAX_SESSIONS && ValidManifest(m)
    ensures Next(w, step, w') && Filled(w', n + 1)
  {
    NextNumber(n, n);
    RenamedIsValid(m, Uuid(n));
    step := Register(Renamed(m, Uuid(n)), owner, sourceIp, true, token, Stored);
    w' := FillStep(w, n, Uuid(n), Renamed(m, Uuid(n)), owner, sourceIp, token);
  }

  lemma {:induction false} FillRun(n: nat, m: Manifest, owner: string, sourceIp: string, token: string)
    returns (states: seq<World>, steps: seq<Step>)
    requires n <= MAX_SESSIONS && ValidManifest(m)
    ensures IsRun(states, steps) && states[0] == EMPTY && |steps| == n && Filled(states[n], n)
  {
    if n == 0 {
      states, steps := [EMPTY], [];
      assert Numbered(0) == {};
    } else {
      states, steps := FillRun(n - 1, m, owner, sourceIp, token);
      var step, w' := FillNext(states[n - 1], n - 1, m, owner, sourceIp, token);
      Snoc(states, steps, step, w');
      states, steps := states + [w'], steps + [step];
    }
  }

  /** Without that assumption the limit fails: one place short of it, a registration whose
      write lands although it is reported failed takes no place, another fills the last
      one, and the next restart brings back one session too many. */
  lemma LimitExceeded(w: World, m: Manifest, n: Manifest, owner: string, sourceIp: string, token: string)
    returns (states: seq<World>, steps: seq<Step>)
    requires Bounded(w) && |w.sessions| == MAX_SESSIONS - 1 && DiskOk(w.disk)
    requires ValidManifest(m) && ValidManifest(n) && m.request.transferId != n.request.transferId
    requires m.request.transferId !in w.sessions && n.request.transferId !in w.sessions
    ensures |steps| == 3 && IsRun(states, steps) && states[0] == w && |states[3].sessions| == MAX_SESSIONS + 1
  {
    var w1 := GhostRegistration(w, m, owner, sourceIp, token);
    var w2 := RealRegistration(w1, n, owner, sourceIp, token);
    var keep, w3 := QuietCrash(w2);
    TwoMore(w.sessions, w3.sessions, m.request.transferId, n.request.transferId);
    var s1 := Register(m, owner, sourceIp, true, token, Failed(true));
    var s2 := Register(n, owner, sourceIp, true, token, Stored);
    ThreeSteps(w, s1, w1, s2, w2, Crash(keep, {}), w3);
    states, steps := [w, w1, w2, w3], [s1, s2, Crash(keep, {})];
  }

  lemma ThreeSteps(w: World, s1: Step, w1: World, s2: Step, w2: World, s3: Step, w3: World)
    requires Next(w, s1, w1) && Next(w1, s2, w2) && Next(w2, s3, w3)
    ensures IsRun([w, w1, w2, w3], [s1, s2, s3])
  {
  }

  lemma TwoMore<K, V>(m: map<K, V>, n: map<K, V>, a: K, b: K)
    requires n.Keys == m.Keys + {a} + {b} && a !in m && b !in m && a != b
    ensures |n| == |m| + 2
  {
    assert |m| == |m.Keys| && |n| == |n.Keys|;
  }

  /** The limit is exceeded by a run: for any valid manifest, under 1025 identifiers. */
  lemma LimitExceededByRun(m: Manifest, owner: string, sourceIp: string, token: string)
    returns (states: seq<World>, steps: seq<Step>)
    requires ValidManifest(m)
    ensures IsRun(states, steps) && Initial(states[0]) && |steps| == MAX_SESSIONS + 2
    ensures |states[|steps|].sessions| == MAX_SESSIONS + 1
  {
    var n := MAX_SESSIONS - 1;
    var a, s := FillRun(n, m, owner, sourceIp, token);
    NextNumber(n, n);
    NextNumber(n, n + 1);
    RenamedIsValid(m, Uuid(n));
    RenamedIsValid(m, Uuid(n + 1));
    var b, t := LimitExceeded(a[n], Renamed(m, Uuid(n)), Renamed(m, Uuid(n + 1)), owner, sourceIp, token);
    states, steps := Joined(a, s, b, t);
  }
}
