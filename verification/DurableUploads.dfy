/** What the upload handler answers (src/durable.rs:490-720), said of the request, of what the
    disk holds and of the I/O it meets, and not of how the handler goes about it. */
module DurableUploads {
  import opened Wrappers
  import opened Manifests
  import opened Disks
  import opened Durable
  import Paths
  import PathNames

  /** An HTTP status. */
  type Code = int

  // ---------------------------------------------------------------- what an upload may meet

  /** What the body stream yields next: a chunk (written whole or torn by an I/O error), a
      transport failure or timeout, or the cancellation token firing meanwhile. */
  datatype BodyEvent = Arrives(bytes: Bytes) | Tears(bytes: Bytes) | Breaks | Fires

  /** One candidate name: whether the token fires meanwhile, the journal write, whether an
      occupied target can be read back, and whether linking or the directory sync fails. */
  datatype Try = Try(fires: bool, io: Persist, readable: bool, linkFails: bool, syncFails: bool)

  /** The I/O an upload meets after its body. */
  datatype Tail = Tail(fires: bool, parentFails: bool, tries: seq<Try>, commit: Persist, unlinked: bool)

  function TryAt(tries: seq<Try>, index: nat): Try {
    if index < |tries| then tries[index] else Try(false, Stored, true, false, false)
  }

  /** The bytes of the chunks, in order. */
  function Joined(body: seq<BodyEvent>): Bytes {
    if body == [] then []
    else Joined(body[..|body| - 1]) + if body[|body| - 1].Arrives? then body[|body| - 1].bytes else []
  }

  // ---------------------------------------------------------------- the body

  /** The reply with which an event ends the body, if it does; `room` is what the file lacks. */
  function EventReply(fired: bool, room: nat, event: BodyEvent): Option<Code> {
    if fired then Some(410)
    else
      match event
      case Fires => None
      case Breaks => Some(400)
      case Arrives(bytes) => if |bytes| > room then Some(413) else None
      case Tears(bytes) => if |bytes| > room then Some(413) else Some(500)
  }

  function Left(room: nat, event: BodyEvent): nat {
    if event.Arrives? && |event.bytes| <= room then room - |event.bytes| else room
  }

  /** The reply to a body that does not complete its file. */
  function BodyReply(fired: bool, room: nat, body: seq<BodyEvent>): Option<Code>
    decreases |body|
  {
    if body == [] then (if fired then Some(410) else if room == 0 then None else Some(400))
    else
      var one := EventReply(fired, room, body[0]);
      if one.Some? then one else BodyReply(body[0].Fires?, Left(room, body[0]), body[1..])
  }

  lemma {:induction false} JoinedFirst(body: seq<BodyEvent>)
    requires body != []
    ensures Joined(body) == (if body[0].Arrives? then body[0].bytes else []) + Joined(body[1..])
  {
    var n := |body| - 1;
    var last := if body[n].Arrives? then body[n].bytes else [];
    assert Joined(body) == Joined(body[..n]) + last;
    if n == 0 {
      assert body[..0] == [] && body[1..] == [];
    } else {
      JoinedFirst(body[..n]);
      var rest := body[1..];
      assert rest[..|rest| - 1] == body[..n][1..] && rest[|rest| - 1] == body[n];
      assert Joined(rest) == Joined(body[..n][1..]) + last;
    }
  }

  /** A body is let through if and only if it is nothing but chunks written whole, and they
      are exactly as long as what the file lacks. */
  lemma {:induction false} BodyPassesIff(fired: bool, room: nat, body: seq<BodyEvent>)
    ensures BodyReply(fired, room, body).None?
            <==> !fired && (forall e :: e in body ==> e.Arrives?) && |Joined(body)| == room
    decreases |body|
  {
    if body != [] {
      JoinedFirst(body);
      assert body == [body[0]] + body[1..];
      BodyPassesIff(body[0].Fires?, Left(room, body[0]), body[1..]);
    }
  }

  /** Why a body is refused: the token fired, more came than fits, a write was torn, or it
      ended, broken or not, before the file was complete. */
  lemma {:induction false} BodyRefusals(fired: bool, room: nat, body: seq<BodyEvent>)
    ensures var res := BodyReply(fired, room, body);
            && (res.Some? ==> res.value in {400, 410, 413, 500})
            && (res == Some(410) ==> fired || Fires in body)
            && (res == Some(500) ==> exists e :: e in body && e.Tears?)
            && (res == Some(413) ==> exists e :: e in body && (e.Arrives? || e.Tears?) && |e.bytes| > 0)
            && (res == Some(400) ==> Breaks in body || |Joined(body)| < room)
    decreases |body|
  {
    if body != [] {
      JoinedFirst(body);
      assert body == [body[0]] + body[1..];
      BodyRefusals(body[0].Fires?, Left(room, body[0]), body[1..]);
    }
  }

  // ---------------------------------------------------------------- the names

  /** The k-th name tried: first the recorded target, if there is one, then the candidates. */
  function NameAt(r: Record, f: FileInfo, k: nat): Path {
    if k == 0 && f.id in r.targets then r.targets[f.id] else TargetName(f, k)
  }

  /** The peer asks for this place in ordinary names. */
  predicate AsksFor(f: FileInfo, names: seq<string>, seps: seq<char>) {
    && |names| == |seps| + 1 && (forall i :: 0 <= i < |names| ==> PathNames.PlainName(names[i]))
    && (forall i :: 0 <= i < |seps| ==> Paths.IsSeparator(seps[i]))
    && (f.relativePath == Some(PathNames.Path(names, seps)) || (f.relativePath.None? && names == [f.name]))
  }

  lemma PlaceOf(f: FileInfo, names: seq<string>, seps: seq<char>)
    requires AsksFor(f, names, seps)
    ensures Paths.TargetDir(Place(f)) == names[..|names| - 1] && Paths.TargetBase(Place(f)) == names[|names| - 1]
  {
    if f.relativePath.None? {
      PathNames.PlainFileIsKept([], f.name, f.id, None);
    } else {
      PathNames.PlainPathIsKept([], f.name, f.id, names, seps);
      assert [] + names[..|names| - 1] == names[..|names| - 1];
    }
  }

  /** The first name tried is the one the peer asks for, and the k-th differs from it by the
      number alone. */
  lemma NamesTried(f: FileInfo, names: seq<string>, seps: seq<char>, stem: string, ext: string, k: nat)
    requires AsksFor(f, names, seps)
    requires stem != "" && ext != "" && names[|names| - 1] == stem + "." + ext
    requires forall i :: 0 <= i < |ext| ==> ext[i] != '.'
    ensures TargetName(f, 0) == Dest(names[..|names| - 1], stem + "." + ext)
    ensures k > 0 ==> TargetName(f, k) == Dest(names[..|names| - 1], stem + " (" + Paths.Decimal(k) + ")." + ext)
  {
    var base := stem + "." + ext;
    PlaceOf(f, names, seps);
    PathNames.CandidateIs(stem, ext, k);
    if k > 0 {
      Paths.NumberingRulesAgree(base, k);
      assert base[|base| - 1] == ext[|ext| - 1];
    }
  }

  /** The name is free, or is found to hold the file. */
  predicate Usable(d: Disk, r: Record, f: FileInfo, p: Path, readable: bool) {
    p !in d.names || (readable && Holds(d, p, r.manifest, f))
  }

  /** The k-th attempt ends the search, with the file or with an error. */
  predicate Stops(d: Disk, r: Record, f: FileInfo, tries: seq<Try>, k: nat) {
    var t := TryAt(tries, k);
    t.io.Failed? || t.linkFails || Usable(d, r, f, NameAt(r, f, k), t.readable)
  }

  predicate StopsFirst(d: Disk, r: Record, f: FileInfo, tries: seq<Try>, k: nat) {
    k < 1000 && Stops(d, r, f, tries, k) && forall j: nat :: j < k ==> !Stops(d, r, f, tries, j)
  }

  predicate Fails(t: Try) {
    t.io.Failed? || t.linkFails || t.syncFails
  }

  /** What becomes of the search for a name: 409 if none of a thousand attempts ends it; an
      error if the first that does fails; otherwise its name is the file's. */
  ghost predicate PlacedAs(
    d: Disk, r: Record, f: FileInfo, tries: seq<Try>, res: Option<Code>, published: map<string, Path>)
  {
    && (res == Some(409) <==> forall k: nat :: k < 1000 ==> !Stops(d, r, f, tries, k))
    && (forall k: nat :: StopsFirst(d, r, f, tries, k) ==>
          if Fails(TryAt(tries, k)) then res == Some(500) && published == r.published
          else res.None? && published == r.published[f.id := NameAt(r, f, k)])
    && (res.Some? ==> published == r.published)
  }

  predicate NoneStops(d: Disk, r: Record, f: FileInfo, tries: seq<Try>, n: nat) {
    forall k: nat :: k < n ==> !Stops(d, r, f, tries, k)
  }

  lemma PlacedAtFirst(
    d: Disk, r: Record, f: FileInfo, tries: seq<Try>, k: nat, res: Option<Code>, published: map<string, Path>)
    requires k < 1000 && NoneStops(d, r, f, tries, k) && Stops(d, r, f, tries, k)
    requires if Fails(TryAt(tries, k)) then res == Some(500) && published == r.published
             else res.None? && published == r.published[f.id := NameAt(r, f, k)]
    ensures Placed(res) && PlacedAs(d, r, f, tries, res, published)
  {
    assert forall j: nat :: StopsFirst(d, r, f, tries, j) ==> j == k;
  }

  lemma NowherePlaced(d: Disk, r: Record, f: FileInfo, tries: seq<Try>)
    requires NoneStops(d, r, f, tries, 1000)
    ensures Placed(Some(409)) && PlacedAs(d, r, f, tries, Some(409), r.published)
  {
  }

  /** No I/O fails, and whatever is there can be read. */
  predicate Smooth(tries: seq<Try>) {
    forall k: nat :: k < 1000 ==> !Fails(TryAt(tries, k)) && TryAt(tries, k).readable
  }

  lemma {:induction false} FirstStop(d: Disk, r: Record, f: FileInfo, tries: seq<Try>, k: nat) returns (first: nat)
    requires k < 1000 && Stops(d, r, f, tries, k)
    ensures first <= k && StopsFirst(d, r, f, tries, first)
  {
    if j: nat :| j < k && Stops(d, r, f, tries, j) {
      first := FirstStop(d, r, f, tries, j);
    } else {
      first := k;
    }
  }

  predicate UsableAt(d: Disk, r: Record, f: FileInfo, k: nat) {
    k < 1000 && Usable(d, r, f, NameAt(r, f, k), true)
  }

  /** The first of the names tried that is free or holds the file. */
  predicate FirstUsable(d: Disk, r: Record, f: FileInfo, k: nat) {
    UsableAt(d, r, f, k) && forall j: nat :: j < k ==> !UsableAt(d, r, f, j)
  }

  lemma SmoothStops(d: Disk, r: Record, f: FileInfo, tries: seq<Try>, k: nat)
    requires Smooth(tries)
    ensures k < 1000 ==> !Fails(TryAt(tries, k)) && (Stops(d, r, f, tries, k) <==> UsableAt(d, r, f, k))
  {
    assert k < 1000 ==> !Fails(TryAt(tries, k)) && TryAt(tries, k).readable;
  }

  /** When no I/O fails the file is published if and only if one of the thousand names is
      free or holds it already, under the first such name; and otherwise the answer is 409. */
  lemma SmoothPlacement(
    d: Disk, r: Record, f: FileInfo, tries: seq<Try>, res: Option<Code>, published: map<string, Path>)
    requires PlacedAs(d, r, f, tries, res, published) && Smooth(tries)
    ensures res.None? <==> exists k: nat :: UsableAt(d, r, f, k)
    ensures res.Some? <==> res == Some(409)
    ensures forall k: nat :: FirstUsable(d, r, f, k) ==> published == r.published[f.id := NameAt(r, f, k)]
  {
    forall k: nat ensures k < 1000 ==> !Fails(TryAt(tries, k)) && (Stops(d, r, f, tries, k) <==> UsableAt(d, r, f, k)) {
      SmoothStops(d, r, f, tries, k);
    }
    if k: nat :| k < 1000 && Stops(d, r, f, tries, k) {
      var first := FirstStop(d, r, f, tries, k);
    }
    forall k: nat | FirstUsable(d, r, f, k) ensures published == r.published[f.id := NameAt(r, f, k)] {
      assert StopsFirst(d, r, f, tries, k);
    }
  }

  // ---------------------------------------------------------------- the reply

  /** What the receiver has of the file. */
  function PartBytes(d: Disk, sid: string, f: FileInfo): Bytes {
    if Live(d, Part(sid, f.id)) then At(d, Part(sid, f.id)).bytes else []
  }

  /** The reply to a body that completes its file, if it is refused before the names are tried. */
  function CheckReply(r: Record, f: FileInfo, bytes: Bytes, tail: Tail): Option<Code> {
    if f.id !in r.manifest.sha256 || Sha256(bytes) != r.manifest.sha256[f.id] then Some(422)
    else if tail.fires then Some(410)
    else if Paths.ReservedTarget(Render(TargetName(f, 0))) then Some(400)
    else if tail.parentFails then Some(500)
    else None
  }

  /** What the request gets before a name is looked for. */
  function Reception(
    d: Disk, sid: string, r: Record, f: FileInfo, offset: nat, body: seq<BodyEvent>, tail: Tail): Option<Code>
    requires offset <= f.size
  {
    var refused := BodyReply(false, f.size - offset, body);
    if refused.Some? then refused else CheckReply(r, f, PartBytes(d, sid, f) + Joined(body), tail)
  }

  lemma ReceptionCodes(d: Disk, sid: string, r: Record, f: FileInfo, offset: nat, body: seq<BodyEvent>, tail: Tail)
    requires offset <= f.size
    ensures var res := Reception(d, sid, r, f, offset, body, tail);
            res.Some? ==> res.value in {400, 410, 413, 422, 500}
  {
    BodyRefusals(false, f.size - offset, body);
  }

  /** The reply to an upload that was let in, and what is published then; d and r are disk and
      record before it, `offset` is where it resumes. */
  ghost predicate RepliesAs(
    d: Disk, sid: string, r: Record, f: FileInfo, offset: nat, body: seq<BodyEvent>, tail: Tail,
    code: Code, published: map<string, Path>)
    requires offset <= f.size
  {
    var refused := Reception(d, sid, r, f, offset, body, tail);
    if refused.Some? then code == refused.value && published == r.published
    else
      exists placed: Option<Code> {:trigger Placed(placed)} ::
        && Placed(placed) && PlacedAs(d, r, f, tail.tries, placed, published)
        && code == if placed.Some? then placed.value else if tail.commit.Stored? then 200 else 500
  }

  predicate Placed(res: Option<Code>) {
    res.None? || res.value == 409 || res.value == 500
  }

  /** The reply of an upload for which a name was looked for. */
  lemma RepliesWhenPlaced(
    d: Disk, sid: string, r: Record, f: FileInfo, offset: nat, body: seq<BodyEvent>, tail: Tail,
    placed: Option<Code>, published: map<string, Path>)
    requires offset <= f.size && Reception(d, sid, r, f, offset, body, tail).None?
    requires Placed(placed) && PlacedAs(d, r, f, tail.tries, placed, published)
    ensures var code := if placed.Some? then placed.value else if tail.commit.Stored? then 200 else 500;
            RepliesAs(d, sid, r, f, offset, body, tail, code, published)
  {
  }

  lemma PlacedTells(
    d: Disk, r: Record, f: FileInfo, tries: seq<Try>, res: Option<Code>, published: map<string, Path>)
    requires Placed(res) && PlacedAs(d, r, f, tries, res, published)
    ensures res.None? ==> f.id in published && published == r.published[f.id := published[f.id]]
    ensures res.Some? ==> published == r.published
  {
    if res.None? {
      var k: nat :| k < 1000 && Stops(d, r, f, tries, k);
      var first := FirstStop(d, r, f, tries, k);
    }
  }

  /** An upload answered 200 is published, one answered otherwise is not, unless only the
      journal write failed. */
  lemma RepliesTell(
    d: Disk, sid: string, r: Record, f: FileInfo, offset: nat, body: seq<BodyEvent>, tail: Tail,
    code: Code, published: map<string, Path>)
    requires offset <= f.size && RepliesAs(d, sid, r, f, offset, body, tail, code, published)
    ensures code in {200, 400, 409, 410, 413, 422, 500}
    ensures code == 200 ==> f.id in published && published == r.published[f.id := published[f.id]]
    ensures code != 200 && code != 500 ==> published == r.published
  {
    ReceptionCodes(d, sid, r, f, offset, body, tail);
    if Reception(d, sid, r, f, offset, body, tail).None? {
      var placed: Option<Code> :| Placed(placed) && PlacedAs(d, r, f, tail.tries, placed, published)
        && code == if placed.Some? then placed.value else if tail.commit.Stored? then 200 else 500;
      PlacedTells(d, r, f, tail.tries, placed, published);
    }
  }

  /** Nothing goes wrong around the upload. */
  predicate Untroubled(tail: Tail) {
    !tail.fires && !tail.parentFails && tail.commit.Stored? && Smooth(tail.tries)
  }

  /** The body is nothing but chunks that complete the file with the declared digest. */
  predicate Completes(d: Disk, sid: string, r: Record, f: FileInfo, offset: nat, body: seq<BodyEvent>)
    requires offset <= f.size
  {
    && (forall e :: e in body ==> e.Arrives?) && |Joined(body)| == f.size - offset
    && f.id in r.manifest.sha256 && Sha256(PartBytes(d, sid, f) + Joined(body)) == r.manifest.sha256[f.id]
  }

  lemma UntroubledBody(d: Disk, sid: string, r: Record, f: FileInfo, offset: nat, body: seq<BodyEvent>, tail: Tail)
    requires offset <= f.size && !tail.fires && !tail.parentFails
    ensures var refused := Reception(d, sid, r, f, offset, body, tail);
            && (refused.None?
                <==> Completes(d, sid, r, f, offset, body) && !Paths.ReservedTarget(Render(TargetName(f, 0))))
            && (refused.Some? ==> refused.value != 200 && refused.value != 409)
  {
    BodyPassesIff(false, f.size - offset, body);
    BodyRefusals(false, f.size - offset, body);
  }

  /** 200 if and only if the body completes the file with the declared digest, its place is
      not reserved, and one of a thousand names is free or holds the file; 409 if and only if
      all thousand are taken by other content. */
  ghost predicate AnsweredIff(
    d: Disk, sid: string, r: Record, f: FileInfo, offset: nat, body: seq<BodyEvent>, code: Code)
  {
    && offset <= f.size
    && var fits := Completes(d, sid, r, f, offset, body) && !Paths.ReservedTarget(Render(TargetName(f, 0)));
       && (code == 200 <==> fits && exists k: nat :: UsableAt(d, r, f, k))
       && (code == 409 <==> fits && forall k: nat :: !UsableAt(d, r, f, k))
  }

  /** So an untroubled upload of an approved file is answered, and the file is published under
      the first such name. */
  lemma UploadSucceedsIff(
    d: Disk, sid: string, r: Record, f: FileInfo, offset: nat, body: seq<BodyEvent>, tail: Tail,
    code: Code, published: map<string, Path>)
    requires offset <= f.size && RepliesAs(d, sid, r, f, offset, body, tail, code, published)
    requires Untroubled(tail)
    ensures AnsweredIff(d, sid, r, f, offset, body, code)
    ensures forall k: nat :: code == 200 && FirstUsable(d, r, f, k) ==>
              published == r.published[f.id := NameAt(r, f, k)]
  {
    UntroubledBody(d, sid, r, f, offset, body, tail);
    if Reception(d, sid, r, f, offset, body, tail).None? {
      var placed: Option<Code> :| Placed(placed) && PlacedAs(d, r, f, tail.tries, placed, published)
        && code == if placed.Some? then placed.value else if tail.commit.Stored? then 200 else 500;
      SmoothPlacement(d, r, f, tail.tries, placed, published);
    }
  }
}
