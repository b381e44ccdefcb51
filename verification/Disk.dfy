/** The receiver's view of the filesystem: directory entries, the inodes behind them and
    what a crash may take away.  Hard links make several names share one inode. */
module Disks {
  import Paths
  import opened Manifests

  /** A partial file in the state directory, or a destination below the download
      directory (relative to it). */
  datatype Path = Part(session: string, file: string) | Dest(dir: seq<string>, base: string)

  type Inode = nat

  /** Contents of an inode; the first `synced` bytes survive a crash. */
  datatype Content = Content(bytes: Bytes, synced: nat)

  /** `volatile` are destination names whose directory has not been synced since they
      were made: a crash may drop them. */
  datatype Disk = Disk(
    names: map<Path, Inode>,
    files: map<Inode, Content>,
    volatile: set<Path>,
    next: Inode)

  predicate Settled(c: Content) {
    c.synced == |c.bytes|
  }

  /** What every operation below keeps: names point at files, a partial file is the only
      partial name of its inode, and what it shares with a destination is fully synced. */
  predicate DiskOk(d: Disk) {
    && (forall p :: p in d.names ==> d.names[p] in d.files)
    && (forall i :: i in d.files ==> i < d.next && d.files[i].synced <= |d.files[i].bytes|)
    && (forall p, q :: p in d.names && q in d.names && p.Part? && q.Part? && d.names[p] == d.names[q] ==> p == q)
    && (forall p, q :: p in d.names && q in d.names && p.Part? && q.Dest? && d.names[p] == d.names[q]
          ==> Settled(d.files[d.names[q]]))
    && (forall p :: p in d.volatile ==> p in d.names && p.Dest?)
  }

  /** A name that leads to a file. */
  predicate Live(d: Disk, p: Path) {
    p in d.names && d.names[p] in d.files
  }

  function At(d: Disk, p: Path): Content
    requires Live(d, p)
  {
    d.files[d.names[p]]
  }

  // ---------------------------------------------------------------- operations

  /** Open for append, creating an empty file when the name is free. */
  function OpenAppend(d: Disk, p: Path): Disk {
    if p in d.names then d
    else d.(names := d.names[p := d.next], files := d.files[d.next := Content([], 0)], next := d.next + 1)
  }

  function Append(d: Disk, i: Inode, bytes: Bytes): Disk
    requires i in d.files
  {
    d.(files := d.files[i := d.files[i].(bytes := d.files[i].bytes + bytes)])
  }

  function Sync(d: Disk, i: Inode): Disk
    requires i in d.files
  {
    d.(files := d.files[i := d.files[i].(synced := |d.files[i].bytes|)])
  }

  function Unlink(d: Disk, gone: set<Path>): Disk {
    d.(names := d.names - gone, volatile := d.volatile - gone)
  }

  /** link(2): never replaces an existing name. */
  function HardLink(d: Disk, from: Path, to: Path): Disk
    requires from in d.names && to !in d.names
  {
    d.(names := d.names[to := d.names[from]], volatile := d.volatile + {to})
  }

  function SyncDir(d: Disk, dir: seq<string>): Disk {
    d.(volatile := set p | p in d.volatile && !(p.Dest? && p.dir == dir))
  }

  /** Another program saves a complete file under a free name, having synced some of it. */
  function CreateFile(d: Disk, p: Path, bytes: Bytes, synced: nat): Disk
    requires p !in d.names
  {
    Disk(d.names[p := d.next], d.files[d.next := Content(bytes, synced)], d.volatile + {p}, d.next + 1)
  }

  /** A cut keeps, of every file, some prefix no shorter than its synced part. */
  predicate CutOk(d: Disk, keep: map<Inode, nat>) {
    forall i :: i in d.files ==> i in keep && d.files[i].synced <= keep[i] <= |d.files[i].bytes|
  }

  function Cut(d: Disk, keep: map<Inode, nat>, lost: set<Path>): Disk
    requires DiskOk(d) && CutOk(d, keep)
  {
    Disk(
      d.names - lost,
      map i | i in d.files :: Content(d.files[i].bytes[..keep[i]], keep[i]),
      {},
      d.next)
  }

  // ---------------------------------------------------------------- real names

  /** The components of a path below the download directory. */
  function Render(p: Path): seq<string> {
    match p
    case Part(session, file) => [Paths.STATE_DIR, session + "-" + file + ".part"]
    case Dest(dir, base) => dir + [base]
  }

  /** Partial files carry canonical ids; destinations stay out of the state directory. */
  predicate Representable(p: Path) {
    match p
    case Part(session, file) => CanonicalUuid(session) && CanonicalUuid(file)
    case Dest(dir, base) => !Paths.ReservedTarget(dir + [base])
  }

  /** Distinct model paths are distinct real paths: the 36-character ids make partial
      names injective in (session, file), and the reserved directory keeps partial files
      and destinations apart. */
  lemma RenderIsInjective(p: Path, q: Path)
    requires Representable(p) && Representable(q) && Render(p) == Render(q)
    ensures p == q
  {
    if p.Part? && q.Part? {
      var a, b := p.session + "-" + p.file + ".part", q.session + "-" + q.file + ".part";
      assert Render(p)[1] == a && Render(q)[1] == b;
      assert a[..36] == p.session && b[..36] == q.session;
      assert a[37..73] == p.file && b[37..73] == q.file;
    } else if p.Dest? && q.Dest? {
      var a, b := Render(p), Render(q);
      assert p.dir == a[..|a| - 1] && q.dir == b[..|b| - 1];
      assert p.base == a[|a| - 1] && q.base == b[|b| - 1];
    }
  }
}
