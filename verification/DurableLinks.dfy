/** Write-ahead intent: a target is journalled before it is linked and a matching target
    is adopted, so each (session, file id) leaves at most one new destination name. */
module DurableLinks {
  import opened Wrappers
  import opened Manifests
  import opened Disks
  import opened Durable
  import opened DurableInvariant
  import opened DurableSteps
  import opened DurableRuns
  import opened DurableSafety
  import Paths

  /** At most one live destination name was created for each (session, file id). */
  predicate OneLinkEach(w: World) {
    forall l, m :: l in w.links && m in w.links && l.0 == m.0 && l.1 == m.1 ==> l == m
  }

  lemma LinksAreUnique(w: World)
    requires LinksOk(w)
    ensures OneLinkEach(w)
  {
    forall l, m | l in w.links && m in w.links && l.0 == m.0 && l.1 == m.1
      ensures l == m
    {
      assert LinkOk(w, l) && LinkOk(w, m);
    }
  }

  /** A recorded link stays good while its target stays recorded on both sides. */
  lemma LinkCarries(w: World, w': World, actor: string, l: (string, string, Path))
    requires LinkOk(w, l) && Keeps(w.disk, w'.disk, actor) && l.0 in w'.sessions && l.0 in w'.journal
    requires var r, r', j' := w.sessions[l.0].rec, w'.sessions[l.0].rec, w'.journal[l.0];
             && r'.manifest == r.manifest
             && l.1 in r'.targets && r'.targets[l.1] == l.2
             && (w'.journal[l.0] == w.journal[l.0] || w'.journal[l.0] == r')
    ensures LinkOk(w', l)
  {
    var r := w.sessions[l.0].rec;
    forall f | f in r.Files() && f.id == l.1 ensures Holds(w'.disk, l.2, r.manifest, f) {
      assert Holds(w.disk, l.2, r.manifest, f);
    }
  }

  lemma ChooseLinks(w: World, sid: string, s: Session, step: Step, l: (string, string, Path))
    requires Inv(w) && sid in w.sessions && w.sessions[sid] == s && step.Choose? && EnabledIn(w, sid, s, step)
    requires l.0 == sid && LinkOk(w, l)
    ensures LinkOk(ApplyIn(w, sid, s, step), l)
  {
    PublicationShape(w, sid, s, step);
    KeepsSelf(w.disk, sid);
    LinkCarries(w, ApplyIn(w, sid, s, step), sid, l);
  }

  /** Skipping a target removes its record: harmless unless this very upload linked it. */
  lemma SkippedIsForeign(w: World, sid: string, s: Session, l: (string, string, Path))
    requires Inv(w) && sid in w.sessions && w.sessions[sid] == s && s.job.Journalled?
    requires l.0 == sid && LinkOk(w, l) && l.1 == s.job.file.id
    ensures s.job.target == l.2 && l.2 in w.disk.names && Holds(w.disk, l.2, s.rec.manifest, s.job.file)
  {
    RecordedTarget(w, sid, s);
  }

  lemma RecordedTarget(w: World, sid: string, s: Session)
    requires Inv(w) && sid in w.sessions && w.sessions[sid] == s && s.job.Journalled?
    ensures s.job.file.id in s.rec.targets && s.rec.targets[s.job.file.id] == s.job.target
    ensures s.job.file in s.rec.Files()
  {
    LocalAt(w, sid);
  }

  lemma LinkLinks(w: World, sid: string, s: Session, step: Step, l: (string, string, Path))
    requires Inv(w) && sid in w.sessions && w.sessions[sid] == s && step.Link? && EnabledIn(w, sid, s, step)
    requires l.0 == sid && LinkOk(w, l) && (l.1 == s.job.file.id ==> step.readable)
    ensures LinkOk(ApplyIn(w, sid, s, step), l)
  {
    PublicationDisk(w, sid, s, step);
    if l.1 == s.job.file.id {
      SkippedIsForeign(w, sid, s, l);
    }
    LinkTargets(w, sid, s, step.readable, l.1);
    LinkCarries(w, ApplyIn(w, sid, s, step), sid, l);
  }

  /** A link attempt touches no recorded target but its own, and its own only when the
      occupied name could not be adopted. */
  lemma LinkTargets(w: World, sid: string, s: Session, readable: bool, id: string)
    requires sid in w.sessions && w.sessions[sid] == s && s.job.Journalled? && Live(w.disk, Part(sid, s.job.file.id))
    ensures var w' := DoLink(w, sid, s, readable);
            && sid in w'.sessions && w'.sessions[sid].rec.manifest == s.rec.manifest && w'.journal == w.journal
            && (!(id == s.job.file.id && s.job.target in w.disk.names
                  && !(readable && Holds(w.disk, s.job.target, s.rec.manifest, s.job.file)))
                ==> (id in w'.sessions[sid].rec.targets <==> id in s.rec.targets)
                    && (id in s.rec.targets ==> w'.sessions[sid].rec.targets[id] == s.rec.targets[id]))
  {
  }

  /** The link just created: its target was journalled first. */
  lemma NewLinkOk(w: World, sid: string, s: Session)
    requires Inv(w) && sid in w.sessions && w.sessions[sid] == s && s.job.Journalled?
    requires Live(w.disk, Part(sid, s.job.file.id)) && s.job.target !in w.disk.names
    ensures LinkOk(DoLink(w, sid, s, true), (sid, s.job.file.id, s.job.target))
  {
    LocalAt(w, sid);
    var f, target := s.job.file, s.job.target;
    LinkHolds(w.disk, sid, s.rec.manifest, f, target);
    var w' := DoLink(w, sid, s, true);
    forall g | g in s.rec.Files() && g.id == f.id ensures Holds(w'.disk, target, s.rec.manifest, g) {
      SameFile(s.rec.Files(), f, g);
    }
  }

  lemma OwnLink(w: World, sid: string, s: Session, step: Step, l: (string, string, Path))
    requires OfSession(step) && !step.Forget?
    requires Inv(w) && sid in w.sessions && w.sessions[sid] == s && EnabledIn(w, sid, s, step)
    requires l.0 == sid && LinkOk(w, l)
    requires step.Link? ==> step.readable || l.1 != s.job.file.id
    ensures LinkOk(ApplyIn(w, sid, s, step), l)
  {
    if step.Choose? {
      ChooseLinks(w, sid, s, step, l);
    } else if step.Link? {
      LinkLinks(w, sid, s, step, l);
    } else {
      SessionStepShape(w, sid, s, step);
      SessionStepDisk(w, sid, s, step);
      TargetsUntouched(w, sid, s, step);
      LinkCarries(w, ApplyIn(w, sid, s, step), sid, l);
    }
  }

  lemma TargetsUntouched(w: World, sid: string, s: Session, step: Step)
    requires OfSession(step) && !step.Forget? && !step.Choose? && !step.Link?
    requires sid in w.sessions && w.sessions[sid] == s && EnabledIn(w, sid, s, step)
    ensures sid in ApplyIn(w, sid, s, step).sessions
    ensures ApplyIn(w, sid, s, step).sessions[sid].rec.targets == s.rec.targets
    ensures ApplyIn(w, sid, s, step).sessions[sid].rec.manifest == s.rec.manifest
    ensures ApplyIn(w, sid, s, step).links == w.links
  {
    if Decides(step) {
      DecisionShape(w, sid, s, step);
    } else if Receives(step) {
      ReceptionShape(w, sid, s, step);
    } else {
      PublicationShape(w, sid, s, step);
    }
  }

  lemma OtherLink(w: World, actor: string, s: Session, step: Step, l: (string, string, Path))
    requires OfSession(step) && step.sid == actor
    requires Inv(w) && actor in w.sessions && w.sessions[actor] == s && EnabledIn(w, actor, s, step)
    requires l.0 != actor && LinkOk(w, l)
    ensures LinkOk(ApplyIn(w, actor, s, step), l)
  {
    SessionStepDisk(w, actor, s, step);
    if step.Forget? {
      ForgetIsLocal(w, actor, Ids(s.rec.Files()));
    } else {
      SessionStepShape(w, actor, s, step);
    }
    LinkCarries(w, ApplyIn(w, actor, s, step), actor, l);
  }

  /** The links after a session step: those of a forgotten session go, a created one comes. */
  lemma LinksAfter(w: World, sid: string, s: Session, step: Step)
    requires OfSession(step) && step.sid == sid
    requires sid in w.sessions && w.sessions[sid] == s && EnabledIn(w, sid, s, step)
    ensures forall l :: l in ApplyIn(w, sid, s, step).links ==>
              || (l in w.links && (step.Forget? ==> l.0 != sid))
              || (step.Link? && s.job.target !in w.disk.names && l == (sid, s.job.file.id, s.job.target))
  {
    if step.Forget? || step.Link? || step.Choose? {
    } else {
      TargetsUntouched(w, sid, s, step);
    }
  }

  /** The step cannot read back the target it met, and that target is the link l which
      this very upload created earlier. */
  predicate MeetsUnreadable(w: World, step: Step, l: (string, string, Path)) {
    && step.Link? && !step.readable && step.sid == l.0 && l.0 in w.sessions
    && var job := w.sessions[l.0].job;
    && job.Journalled? && job.file.id == l.1 && job.target == l.2 && l in w.links
  }

  /** The step links a free name. */
  predicate CreatesLink(w: World, step: Step, l: (string, string, Path)) {
    && step.Link? && step.sid == l.0 && l.0 in w.sessions
    && var job := w.sessions[l.0].job;
    && job.Journalled? && job.file.id == l.1 && job.target == l.2 && l.2 !in w.disk.names
  }

  lemma OldLink(w: World, sid: string, s: Session, step: Step, l: (string, string, Path))
    requires OfSession(step) && step.sid == sid && (step.Forget? ==> l.0 != sid)
    requires Inv(w) && sid in w.sessions && w.sessions[sid] == s && EnabledIn(w, sid, s, step)
    requires l in w.links && LinkOk(w, l) && !MeetsUnreadable(w, step, l)
    ensures LinkOk(ApplyIn(w, sid, s, step), l)
  {
    if l.0 != sid {
      OtherLink(w, sid, s, step, l);
    } else {
      if step.Link? && l.1 == s.job.file.id {
        SkippedIsForeign(w, sid, s, l);
      }
      OwnLink(w, sid, s, step, l);
    }
  }

  lemma FreshLink(w: World, sid: string, s: Session, step: Step, l: (string, string, Path))
    requires Inv(w) && step.Link? && step.sid == sid
    requires sid in w.sessions && w.sessions[sid] == s && EnabledIn(w, sid, s, step)
    requires CreatesLink(w, step, l)
    ensures LinkOk(ApplyIn(w, sid, s, step), l)
  {
    NewLinkOk(w, sid, s);
    assert ApplyIn(w, sid, s, step) == DoLink(w, sid, s, true);
  }

  lemma ActKeepsLink(w: World, step: Step, w': World, l: (string, string, Path))
    requires Inv(w) && OfSession(step) && Next(w, step, w') && l in w'.links
    requires l in w.links ==> LinkOk(w, l) && !MeetsUnreadable(w, step, l)
    ensures LinkOk(w', l)
  {
    SessionCase(w, step, w');
    var s := w.sessions[step.sid];
    LinksAfter(w, step.sid, s, step);
    if l in w.links && !(step.Link? && CreatesLink(w, step, l)) {
      OldLink(w, step.sid, s, step, l);
    } else {
      FreshLink(w, step.sid, s, step, l);
    }
  }

  lemma CrashKeepsLink(w: World, step: Step, w': World, l: (string, string, Path))
    requires Inv(w) && step.Crash? && Next(w, step, w') && l in w'.links && LinkOk(w, l)
    ensures LinkOk(w', l)
  {
    CrashCase(w, step, w');
    CutKeepsOk(w.disk, step.keep, step.lost);
    LocalAt(w, l.0);
    var r := w.sessions[l.0].rec;
    forall f | f in r.Files() && f.id == l.1 ensures Holds(w'.disk, l.2, r.manifest, f) {
      assert Holds(w.disk, l.2, r.manifest, f);
    }
  }

  lemma QuietKeepsLink(w: World, step: Step, w': World, l: (string, string, Path))
    requires Inv(w) && (step.Register? || step.SaveFile?) && Next(w, step, w') && LinkOk(w, l)
    ensures LinkOk(w', l)
  {
    if step.Register? {
      RegisterElsewhere(w, step, w');
      KeepsSelf(w.disk, "");
    } else {
      SaveCase(w, step, w');
      CreateKeeps(w.disk, step.path, step.bytes, step.synced, "");
    }
    LinkCarries(w, w', "", l);
  }

  lemma LinksElsewhere(w: World, step: Step, w': World)
    requires Next(w, step, w') && !OfSession(step)
    ensures w'.links == if step.Crash? then set l | l in w.links && l.2 !in step.lost else w.links
  {
    if step.Register? {
      RegisterElsewhere(w, step, w');
    } else if step.SaveFile? {
      SaveCase(w, step, w');
    } else {
      CrashCase(w, step, w');
    }
  }

  lemma StepKeepsLink(w: World, step: Step, w': World, l: (string, string, Path))
    requires Inv(w) && Next(w, step, w') && l in w'.links
    requires l in w.links ==> LinkOk(w, l) && !MeetsUnreadable(w, step, l)
    ensures LinkOk(w', l)
  {
    if OfSession(step) {
      ActKeepsLink(w, step, w', l);
    } else {
      LinksElsewhere(w, step, w');
      if step.Crash? {
        CrashKeepsLink(w, step, w', l);
      } else {
        QuietKeepsLink(w, step, w', l);
      }
    }
  }

  // ---------------------------------------------------------------- the life of a link

  /** The step takes the name away: the session is forgotten, or a crash loses it. */
  predicate Drops(step: Step, l: (string, string, Path)) {
    step == Forget(l.0) || (step.Crash? && l.2 in step.lost)
  }

  /** A link appears by being created and goes by being dropped. */
  lemma LinkComesAndGoes(w: World, step: Step, w': World, l: (string, string, Path))
    requires Next(w, step, w')
    ensures l in w'.links <==> (l in w.links && !Drops(step, l)) || CreatesLink(w, step, l)
  {
    if OfSession(step) {
      SessionCase(w, step, w');
      ActLinks(w, step.sid, w.sessions[step.sid], step, l);
    } else {
      LinksElsewhere(w, step, w');
    }
  }

  lemma ActLinks(w: World, sid: string, s: Session, step: Step, l: (string, string, Path))
    requires OfSession(step) && step.sid == sid
    requires sid in w.sessions && w.sessions[sid] == s && EnabledIn(w, sid, s, step)
    ensures l in ApplyIn(w, sid, s, step).links <==> (l in w.links && !Drops(step, l)) || CreatesLink(w, step, l)
  {
    if !step.Forget? && !step.Link? && !step.Choose? {
      TargetsUntouched(w, sid, s, step);
    }
  }

  ghost predicate Lives(states: seq<World>, i: nat, k: nat, l: (string, string, Path)) {
    i <= k < |states| && forall q :: i <= q <= k ==> l in states[q].links
  }

  /** Every link is recorded as it should be, or was met unreadable since it was created. */
  lemma {:induction false} LinkFate(states: seq<World>, steps: seq<Step>, k: nat, l: (string, string, Path))
    requires IsRun(states, steps) && Initial(states[0]) && k <= |steps| && l in states[k].links
    ensures LinkOk(states[k], l)
            || exists n: nat :: n < k && MeetsUnreadable(states[n], steps[n], l) && Lives(states, n, k, l)
  {
    if k > 0 {
      RunKeepsInv(states, steps, k - 1);
      LinkComesAndGoes(states[k - 1], steps[k - 1], states[k], l);
      if l in states[k - 1].links {
        LinkFate(states, steps, k - 1, l);
        if LinkOk(states[k - 1], l) {
          if MeetsUnreadable(states[k - 1], steps[k - 1], l) {
            assert Lives(states, k - 1, k, l);
          } else {
            StepKeepsLink(states[k - 1], steps[k - 1], states[k], l);
          }
        } else {
          var n: nat :| n < k - 1 && MeetsUnreadable(states[n], steps[n], l) && Lives(states, n, k - 1, l);
          assert Lives(states, n, k, l);
        }
      } else {
        StepKeepsLink(states[k - 1], steps[k - 1], states[k], l);
      }
    }
  }

  /** Some link attempt of the run could not read back a name its own upload had created. */
  ghost predicate ReadFails(states: seq<World>, steps: seq<Step>, n: nat) {
    n < |steps| && |states| == |steps| + 1 && exists l :: MeetsUnreadable(states[n], steps[n], l)
  }

  /** Unless an upload cannot read back a name it created itself, at most one destination
      name per (session, file id) exists, over any mix of crashes, failed writes, retries
      and unreadable foreign files. */
  lemma AtMostOneNewName(states: seq<World>, steps: seq<Step>, k: nat)
    requires IsRun(states, steps) && Initial(states[0]) && k <= |steps|
    requires forall n: nat :: n < k ==> !ReadFails(states, steps, n)
    ensures LinksOk(states[k]) && OneLinkEach(states[k])
  {
    forall l | l in states[k].links ensures LinkOk(states[k], l) {
      LinkFate(states, steps, k, l);
      if !LinkOk(states[k], l) {
        var n: nat :| n < k && MeetsUnreadable(states[n], steps[n], l);
        assert ReadFails(states, steps, n);
      }
    }
    LinksAreUnique(states[k]);
  }

  /** The step that created a link, which has lived ever since. */
  lemma {:induction false} CreatedAt(states: seq<World>, steps: seq<Step>, k: nat, l: (string, string, Path))
    returns (i: nat)
    requires IsRun(states, steps) && Initial(states[0]) && k <= |steps| && l in states[k].links
    ensures i < k && CreatesLink(states[i], steps[i], l) && Lives(states, i + 1, k, l)
  {
    LinkComesAndGoes(states[k - 1], steps[k - 1], states[k], l);
    if CreatesLink(states[k - 1], steps[k - 1], l) {
      i := k - 1;
    } else {
      i := CreatedAt(states, steps, k - 1, l);
    }
  }

  lemma {:induction false} LivesUnlessDropped(
    states: seq<World>, steps: seq<Step>, i: nat, k: nat, l: (string, string, Path))
    requires IsRun(states, steps) && i <= k <= |steps| && l in states[i].links
    requires forall q :: i <= q < k ==> !Drops(steps[q], l)
    ensures Lives(states, i, k, l)
    decreases k
  {
    if i < k {
      LivesUnlessDropped(states, steps, i, k - 1, l);
      LinkComesAndGoes(states[k - 1], steps[k - 1], states[k], l);
    }
  }

  /** A created name stays in its directory while the link lives. */
  lemma {:induction false} LinksAreNamed(states: seq<World>, steps: seq<Step>, k: nat, l: (string, string, Path))
    requires IsRun(states, steps) && Initial(states[0]) && k <= |steps| && l in states[k].links
    ensures l.2.Dest? && l.2 in states[k].disk.names
  {
    RunKeepsInv(states, steps, k - 1);
    LinkComesAndGoes(states[k - 1], steps[k - 1], states[k], l);
    if CreatesLink(states[k - 1], steps[k - 1], l) {
      FreshName(states[k - 1], steps[k - 1], states[k], l);
    } else {
      LinksAreNamed(states, steps, k - 1, l);
      StepKeepsDestinations(states[k - 1], steps[k - 1], states[k], l.2);
    }
  }

  lemma FreshName(w: World, step: Step, w': World, l: (string, string, Path))
    requires Inv(w) && Next(w, step, w') && CreatesLink(w, step, l)
    ensures l.2.Dest? && l.2 in w'.disk.names
  {
    SessionCase(w, step, w');
    LinkTarget(w, l.0, w.sessions[l.0]);
  }

  /** While a link is recorded, no further name is created for its file. */
  lemma NotRecorded(w: World, step: Step, l: (string, string, Path), l2: (string, string, Path))
    requires Inv(w) && LinkOk(w, l) && l.0 == l2.0 && l.1 == l2.1
    ensures !CreatesLink(w, step, l2)
  {
    if CreatesLink(w, step, l2) {
      SkippedIsForeign(w, l.0, w.sessions[l.0], l);
      assert false;
    }
  }

  /** Step n meets the link l unreadable, step m links a free name for the same file, and
      neither name is taken away before k. */
  ghost predicate SecondLinked(
    states: seq<World>, steps: seq<Step>, k: nat, n: nat, m: nat, l: (string, string, Path), l2: (string, string, Path))
  {
    && n < m < k <= |steps| && |states| == |steps| + 1
    && l.0 == l2.0 && l.1 == l2.1
    && MeetsUnreadable(states[n], steps[n], l) && CreatesLink(states[m], steps[m], l2)
    && (forall q :: n <= q < k ==> !Drops(steps[q], l))
    && (forall q :: m < q < k ==> !Drops(steps[q], l2))
  }

  lemma NeverDropped(states: seq<World>, steps: seq<Step>, i: nat, k: nat, l: (string, string, Path))
    requires IsRun(states, steps) && k <= |steps| && Lives(states, i, k, l)
    ensures forall q :: i <= q < k ==> !Drops(steps[q], l)
  {
    forall q | i <= q < k ensures !Drops(steps[q], l) {
      LinkComesAndGoes(states[q], steps[q], states[q + 1], l);
    }
  }

  lemma SecondFollows(
    states: seq<World>, steps: seq<Step>, k: nat, i: nat, j: nat, l: (string, string, Path), l2: (string, string, Path))
    returns (n: nat)
    requires IsRun(states, steps) && Initial(states[0]) && i < j < k <= |steps| && l.0 == l2.0 && l.1 == l2.1
    requires Lives(states, i + 1, k, l) && CreatesLink(states[j], steps[j], l2) && Lives(states, j + 1, k, l2)
    ensures SecondLinked(states, steps, k, n, j, l, l2)
  {
    LinkFate(states, steps, j, l);
    RunKeepsInv(states, steps, j);
    if LinkOk(states[j], l) {
      NotRecorded(states[j], steps[j], l, l2);
    }
    n :| n < j && MeetsUnreadable(states[n], steps[n], l) && Lives(states, n, j, l);
    assert Lives(states, n, k, l);
    NeverDropped(states, steps, n, k, l);
    NeverDropped(states, steps, j + 1, k, l2);
  }

  lemma BothLive(
    states: seq<World>, steps: seq<Step>, k: nat, n: nat, m: nat, l: (string, string, Path), l2: (string, string, Path))
    requires IsRun(states, steps) && Initial(states[0]) && SecondLinked(states, steps, k, n, m, l, l2)
    ensures l in states[k].links && l2 in states[k].links && l != l2
  {
    LivesUnlessDropped(states, steps, n, m, l);
    LinksAreNamed(states, steps, m, l);
    LivesUnlessDropped(states, steps, n, k, l);
    LinkComesAndGoes(states[m], steps[m], states[m + 1], l2);
    LivesUnlessDropped(states, steps, m + 1, k, l2);
  }

  /** A file has two created names if and only if a link attempt could not read back the
      first, a later one found another name free, and neither was dropped since. */
  lemma SecondNameIff(states: seq<World>, steps: seq<Step>, k: nat)
    requires IsRun(states, steps) && Initial(states[0]) && k <= |steps|
    ensures !OneLinkEach(states[k])
            <==> exists n: nat, m: nat, l, l2 :: SecondLinked(states, steps, k, n, m, l, l2)
  {
    if !OneLinkEach(states[k]) {
      var l, l2 :| l in states[k].links && l2 in states[k].links && l.0 == l2.0 && l.1 == l2.1 && l != l2;
      var i := CreatedAt(states, steps, k, l);
      var j := CreatedAt(states, steps, k, l2);
      assert i != j;
      if i < j {
        var n := SecondFollows(states, steps, k, i, j, l, l2);
      } else {
        var n := SecondFollows(states, steps, k, j, i, l2, l);
      }
    }
    if n: nat, m: nat, l, l2 :| SecondLinked(states, steps, k, n, m, l, l2) {
      BothLive(states, steps, k, n, m, l, l2);
    }
  }
}
