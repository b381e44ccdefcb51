/** Where a received file is stored: name sanitising, the receive target below the
    download directory, and the numbering of colliding names (src/server.rs, repeated
    in src/durable.rs).  A directory is the sequence of its components. */
module Paths {
  import opened Wrappers

  /** The journal namespace inside the download directory. */
  const STATE_DIR := ".gosh-transfer"

  /** How many names are tried before a collision is reported. */
  const MAX_CANDIDATES: nat := 1000

  // ---------------------------------------------------------------- characters

  predicate IsSeparator(c: char) {
    c == '/' || c == '\\'
  }

  /** Unicode general category Cc. */
  predicate IsControl(c: char) {
    c as int < 0x20 || 0x7f <= c as int < 0xa0
  }

  /** The Unicode White_Space property, which str::trim removes. */
  predicate IsWhitespace(c: char) {
    var n := c as int;
    0x09 <= n <= 0x0d || n == 0x20 || n == 0x85 || n == 0xa0 || n == 0x1680
    || 0x2000 <= n <= 0x200a || n == 0x2028 || n == 0x2029 || n == 0x202f
    || n == 0x205f || n == 0x3000
  }

  predicate IsForbidden(c: char) {
    c == '<' || c == '>' || c == ':' || c == '\"' || c == '|' || c == '?' || c == '*'
  }

  predicate IsDotOrSpace(c: char) {
    c == '.' || c == ' '
  }

  function UpperAscii(s: string): (u: string)
    ensures |u| == |s|
    ensures forall i :: 0 <= i < |s| && 'a' <= s[i] <= 'z' ==> 'A' <= u[i] <= 'Z' && u[i] - 'A' == s[i] - 'a'
    ensures forall i :: 0 <= i < |s| && !('a' <= s[i] <= 'z') ==> u[i] == s[i]
  {
    seq(|s|, i requires 0 <= i < |s| => if 'a' <= s[i] <= 'z' then s[i] - 'a' + 'A' else s[i])
  }

  // ---------------------------------------------------------------- sanitising one name

  /** The text after the last separator. */
  function Leaf(s: string): string {
    if s == "" || IsSeparator(s[|s| - 1]) then "" else Leaf(s[..|s| - 1]) + [s[|s| - 1]]
  }

  /** Drops control characters and replaces the characters Windows forbids. */
  function Scrub(s: string): string {
    if s == "" then ""
    else if IsControl(s[0]) then Scrub(s[1..])
    else [if IsForbidden(s[0]) then '_' else s[0]] + Scrub(s[1..])
  }

  function TrimStart(s: string, drop: char -> bool): string {
    if s == "" || !drop(s[0]) then s else TrimStart(s[1..], drop)
  }

  function TrimEnd(s: string, drop: char -> bool): string {
    if s == "" || !drop(s[|s| - 1]) then s else TrimEnd(s[..|s| - 1], drop)
  }

  /** The text before the first dot. */
  function FirstStem(s: string): (r: string)
    ensures |r| <= |s| && r == s[..|r|]
    ensures forall i :: 0 <= i < |r| ==> r[i] != '.'
    ensures |r| < |s| ==> s[|r|] == '.'
  {
    if s == "" || s[0] == '.' then "" else [s[0]] + FirstStem(s[1..])
  }

  /** A name Windows reserves for a device, judged by its upper-cased first stem. */
  predicate IsDeviceStem(stem: string) {
    stem in {"CON", "PRN", "AUX", "NUL"}
    || (|stem| == 4 && (stem[..3] == "COM" || stem[..3] == "LPT") && '1' <= stem[3] <= '9')
  }

  predicate IsDeviceName(name: string) {
    IsDeviceStem(UpperAscii(FirstStem(name)))
  }

  /** What Clean keeps of a value before the device-name check. */
  function Trimmed(value: string): string {
    TrimEnd(TrimEnd(TrimStart(Scrub(Leaf(value)), IsWhitespace), IsWhitespace), IsDotOrSpace)
  }

  function Clean(value: string): Option<string> {
    var trimmed := Trimmed(value);
    if trimmed == "" then None
    else if IsDeviceName(trimmed) then Some("_" + trimmed)
    else Some(trimmed)
  }

  function SanitizeFileName(name: string, fallback: string): string {
    match Clean(name)
    case Some(n) => n
    case None =>
      match Clean(fallback)
      case Some(n) => n
      case None => "file"
  }

  /** A character a stored name may contain. */
  predicate SafeChar(c: char) {
    !IsSeparator(c) && !IsControl(c) && !IsForbidden(c)
  }

  predicate SafeChars(s: string) {
    forall i :: 0 <= i < |s| ==> SafeChar(s[i])
  }

  /** One ordinary path component: not empty, no separator, control or forbidden
      character, no trailing dot or space, and neither dot nor dot-dot. */
  predicate SafeName(n: string) {
    n != "" && SafeChars(n) && !IsDotOrSpace(n[|n| - 1]) && n != "." && n != ".."
  }

  lemma {:induction false} LeafHasNoSeparator(s: string)
    ensures forall i :: 0 <= i < |Leaf(s)| ==> !IsSeparator(Leaf(s)[i])
  {
    if s != "" && !IsSeparator(s[|s| - 1]) {
      LeafHasNoSeparator(s[..|s| - 1]);
    }
  }

  lemma {:induction false} ScrubIsSafe(s: string)
    requires forall i :: 0 <= i < |s| ==> !IsSeparator(s[i])
    ensures SafeChars(Scrub(s))
  {
    if s != "" {
      ScrubIsSafe(s[1..]);
    }
  }

  lemma {:induction false} TrimStartKeepsSafe(s: string, drop: char -> bool)
    requires SafeChars(s)
    ensures SafeChars(TrimStart(s, drop))
  {
    if s != "" && drop(s[0]) {
      TrimStartKeepsSafe(s[1..], drop);
    }
  }

  lemma {:induction false} TrimEndKeepsSafe(s: string, drop: char -> bool)
    requires SafeChars(s)
    ensures SafeChars(TrimEnd(s, drop))
    ensures TrimEnd(s, drop) != "" ==> !drop(TrimEnd(s, drop)[|TrimEnd(s, drop)| - 1])
  {
    if s != "" && drop(s[|s| - 1]) {
      TrimEndKeepsSafe(s[..|s| - 1], drop);
    }
  }

  lemma CleanIsSafe(value: string)
    ensures Clean(value).Some? ==> SafeName(Clean(value).value)
  {
    LeafHasNoSeparator(value);
    ScrubIsSafe(Leaf(value));
    var a := TrimStart(Scrub(Leaf(value)), IsWhitespace);
    TrimStartKeepsSafe(Scrub(Leaf(value)), IsWhitespace);
    TrimEndKeepsSafe(a, IsWhitespace);
    TrimEndKeepsSafe(TrimEnd(a, IsWhitespace), IsDotOrSpace);
    PrefixKeepsSafe(Trimmed(value));
  }

  lemma PrefixKeepsSafe(n: string)
    requires SafeChars(n) && (n != "" ==> !IsDotOrSpace(n[|n| - 1]))
    ensures n != "" ==> SafeName(n) && SafeName("_" + n)
  {
    assert "."[0] == '.' && ".."[1] == '.';
    assert ("_" + n)[0] == '_';
    assert forall i :: 0 < i < |n| + 1 ==> ("_" + n)[i] == n[i - 1];
  }

  /** Whatever name and id a peer sends, the stored name is one safe component: no separator,
      no character Windows forbids, no control character, no dot or space at its end. */
  lemma SanitizedNameIsSafe(name: string, fallback: string)
    ensures SafeName(SanitizeFileName(name, fallback))
    ensures forall c :: c in SanitizeFileName(name, fallback) ==>
              c !in "/\\<>:\"|?*" && c >= ' ' && !(0x7f <= c as int <= 0x9f)
    ensures var n := SanitizeFileName(name, fallback); n !in {"", ".", ".."} && n[|n| - 1] !in ". "
  {
    CleanIsSafe(name);
    CleanIsSafe(fallback);
    assert SafeName("file");
  }

  lemma StemStart(name: string)
    requires name != "" && name[0] != '.'
    ensures FirstStem(name) != "" && UpperAscii(FirstStem(name))[0] == UpperAscii(name)[0]
  {
  }

  lemma DeviceStemStart(stem: string)
    requires IsDeviceStem(stem)
    ensures stem != "" && stem[0] in {'C', 'P', 'A', 'N', 'L'}
  {
    if stem[..3] == "COM" || stem[..3] == "LPT" {
      assert stem[0] == stem[..3][0];
    }
  }

  lemma DeviceStems(stem: string)
    requires !IsDeviceStem(stem)
    ensures stem !in
              {"CON", "PRN", "AUX", "NUL", "COM1", "COM2", "COM3", "COM4", "COM5", "COM6", "COM7", "COM8", "COM9",
               "LPT1", "LPT2", "LPT3", "LPT4", "LPT5", "LPT6", "LPT7", "LPT8", "LPT9"}
  {
    if |stem| == 4 && '1' <= stem[3] <= '9' {
      assert stem[..3] != "COM" && stem[..3] != "LPT";
    }
  }

  /** No stored name is one Windows reserves for a device, in upper or lower case, with or
      without an extension. */
  lemma SanitizedNameIsNoDevice(name: string, fallback: string)
    ensures !IsDeviceName(SanitizeFileName(name, fallback))
    ensures UpperAscii(FirstStem(SanitizeFileName(name, fallback))) !in
              {"CON", "PRN", "AUX", "NUL", "COM1", "COM2", "COM3", "COM4", "COM5", "COM6", "COM7", "COM8", "COM9",
               "LPT1", "LPT2", "LPT3", "LPT4", "LPT5", "LPT6", "LPT7", "LPT8", "LPT9"}
  {
    StoredIsNoDevice(name, fallback);
    DeviceStems(UpperAscii(FirstStem(SanitizeFileName(name, fallback))));
  }

  lemma StoredIsNoDevice(name: string, fallback: string)
    ensures !IsDeviceName(SanitizeFileName(name, fallback))
  {
    CleanIsNoDevice(name);
    CleanIsNoDevice(fallback);
    StemStart("file");
    if IsDeviceName("file") {
      DeviceStemStart(UpperAscii(FirstStem("file")));
    }
  }

  lemma CleanIsNoDevice(value: string)
    ensures Clean(value).Some? ==> !IsDeviceName(Clean(value).value)
  {
    var trimmed := Trimmed(value);
    if trimmed != "" && IsDeviceName(trimmed) {
      StemStart("_" + trimmed);
      if IsDeviceName("_" + trimmed) {
        DeviceStemStart(UpperAscii(FirstStem("_" + trimmed)));
      }
    }
  }

  // ---------------------------------------------------------------- relative paths

  /** str::split over both separators: always at least one piece. */
  function Split(s: string): (r: seq<string>)
    ensures r != []
    ensures forall i, j :: 0 <= i < |r| && 0 <= j < |r[i]| ==> !IsSeparator(r[i][j])
  {
    if s == "" then [""]
    else
      var rest := Split(s[1..]);
      if IsSeparator(s[0]) then [""] + rest else [[s[0]] + rest[0]] + rest[1..]
  }

  /** Components a relative path may not contribute: empty, dot, dot-dot, drive prefix. */
  predicate Skipped(component: string) {
    || component == "" || component == "." || component == ".."
    || (|component| == 2 && component[0] as int < 0x80 && component[1] == ':')
  }

  function Kept(components: seq<string>): seq<string> {
    if components == [] then []
    else
      var front := Kept(components[..|components| - 1]);
      var last := components[|components| - 1];
      if Skipped(last) then front else front + [SanitizeFileName(last, "file")]
  }

  function RelativeComponents(path: string): seq<string> {
    Kept(Split(path))
  }

  method SanitizeRelativePath(path: string) returns (result: seq<string>)
    ensures result == RelativeComponents(path)
    ensures AllSafe(result)
  {
    var components := Split(path);
    result := [];
    for k := 0 to |components|
      invariant result == Kept(components[..k])
    {
      var component := components[k];
      assert components[..k + 1][..k] == components[..k];
      if component == "" || component == "." || component == ".." {
        continue;
      }
      if |component| == 2 && component[0] as int < 0x80 && component[1] == ':' {
        continue;
      }
      var safe := SanitizeFileName(component, "file");
      SanitizedNameIsSafe(component, "file");
      if safe != "." && safe != ".." && safe != "" {
        result := result + [safe];
      }
    }
    assert components[..|components|] == components;
    KeptAreSafe(components);
  }

  predicate AllSafe(components: seq<string>) {
    forall i :: 0 <= i < |components| ==> SafeName(components[i])
  }

  lemma {:induction false} KeptAreSafe(components: seq<string>)
    ensures AllSafe(Kept(components))
  {
    if components != [] {
      KeptAreSafe(components[..|components| - 1]);
      SanitizedNameIsSafe(components[|components| - 1], "file");
    }
  }

  // ---------------------------------------------------------------- receive target

  /** The part of a file description that decides where the file goes. */
  datatype Placement = Placement(name: string, id: string, relativePath: Option<string>)

  /** Splits `download` joined with `below`, unless that leaves the download directory. */
  function PlaceBelow(download: seq<string>, below: seq<string>, fallback: string): (seq<string>, string) {
    var target := download + below;
    if below != [] && download <= target && target != download && download <= target[..|target| - 1] then
      (target[..|target| - 1], target[|target| - 1])
    else
      (download, fallback)
  }

  function ReceiveTarget(download: seq<string>, file: Placement): (seq<string>, string) {
    var fallback := SanitizeFileName(file.name, file.id);
    match file.relativePath
    case Some(path) => PlaceBelow(download, RelativeComponents(path), fallback)
    case None => (download, fallback)
  }

  /** The same target, relative to the download directory. */
  function TargetDir(file: Placement): seq<string> {
    ReceiveTarget([], file).0
  }

  function TargetBase(file: Placement): string {
    ReceiveTarget([], file).1
  }

  /** Lexical resolution of a path: dot stays, dot-dot climbs. */
  function Resolve(components: seq<string>): seq<string> {
    if components == [] then []
    else
      var front := Resolve(components[..|components| - 1]);
      var last := components[|components| - 1];
      if last == "" || last == "." then front
      else if last == ".." then (if front == [] then [] else front[..|front| - 1])
      else front + [last]
  }

  lemma {:induction false} SafeComponentsResolveInside(root: seq<string>, below: seq<string>)
    requires Resolve(root) == root && AllSafe(below)
    ensures Resolve(root + below) == root + below
  {
    if below == [] {
      assert root + below == root;
    } else {
      var n := |below| - 1;
      SafeComponentsResolveInside(root, below[..n]);
      assert SafeName(below[n]);
      assert (root + below)[..|root + below| - 1] == root + below[..n];
      assert root + below == root + below[..n] + [below[n]];
    }
  }

  lemma PlaceBelowIsRelative(download: seq<string>, below: seq<string>, fallback: string)
    ensures PlaceBelow(download, below, fallback)
            == if below == [] then (download, fallback)
               else (download + below[..|below| - 1], below[|below| - 1])
  {
    if below != [] {
      var target := download + below;
      assert target[..|target| - 1] == download + below[..|below| - 1];
    }
  }

  /** The parent and base inside any download directory are the relative ones. */
  lemma TargetIsRelative(download: seq<string>, file: Placement)
    ensures ReceiveTarget(download, file) == (download + TargetDir(file), TargetBase(file))
  {
    var fallback := SanitizeFileName(file.name, file.id);
    if file.relativePath.Some? {
      var below := RelativeComponents(file.relativePath.value);
      PlaceBelowIsRelative(download, below, fallback);
      PlaceBelowIsRelative([], below, fallback);
      assert below != [] ==> [] + below[..|below| - 1] == below[..|below| - 1];
    }
    assert download + [] == download;
  }

  lemma TargetIsSafe(file: Placement)
    ensures AllSafe(TargetDir(file)) && SafeName(TargetBase(file))
  {
    SanitizedNameIsSafe(file.name, file.id);
    if file.relativePath.Some? {
      var below := RelativeComponents(file.relativePath.value);
      KeptAreSafe(Split(file.relativePath.value));
      PlaceBelowIsRelative([], below, SanitizeFileName(file.name, file.id));
      assert below != [] ==> [] + below[..|below| - 1] == below[..|below| - 1];
    }
  }

  lemma BelowResolves(download: seq<string>, dir: seq<string>, base: string)
    requires Resolve(download) == download && AllSafe(dir) && SafeName(base)
    ensures Resolve(download + dir + [base]) == download + dir + [base]
  {
    var all := dir + [base];
    SafeComponentsResolveInside(download, all);
    assert download + all == download + dir + [base];
  }

  /** Containment: for every name, id and relative path the parent is the download
      directory or lies below it, the base is one safe component, and resolving the
      target cannot climb out again. */
  lemma TargetStaysInside(download: seq<string>, file: Placement)
    requires Resolve(download) == download
    ensures download <= ReceiveTarget(download, file).0
    ensures SafeName(ReceiveTarget(download, file).1)
    ensures var (parent, base) := ReceiveTarget(download, file);
            Resolve(parent + [base]) == parent + [base]
  {
    TargetIsRelative(download, file);
    TargetIsSafe(file);
    BelowResolves(download, TargetDir(file), TargetBase(file));
  }

  // ---------------------------------------------------------------- numbering

  function Digit(n: nat): char
    requires n < 10
  {
    '0' + n as char
  }

  function Decimal(n: nat): (s: string)
    ensures s != ""
    ensures forall i :: 0 <= i < |s| ==> '0' <= s[i] <= '9'
  {
    if n < 10 then [Digit(n)] else Decimal(n / 10) + [Digit(n % 10)]
  }

  lemma {:induction false} DecimalIsInjective(m: nat, n: nat)
    requires Decimal(m) == Decimal(n)
    ensures m == n
  {
    var a, b := Decimal(m), Decimal(n);
    assert a[|a| - 1] == Digit(m % 10) && b[|b| - 1] == Digit(n % 10);
    if m >= 10 && n >= 10 {
      assert Decimal(m / 10) == a[..|a| - 1] && Decimal(n / 10) == b[..|b| - 1];
      DecimalIsInjective(m / 10, n / 10);
    } else {
      assert m < 10 <==> |a| == 1;
      assert n < 10 <==> |b| == 1;
    }
  }

  /** Position of the last dot, if any (str::rsplit_once). */
  function LastDot(s: string): (r: Option<nat>)
    ensures r.Some? ==> r.value < |s| && s[r.value] == '.'
    ensures r.Some? ==> forall i :: r.value < i < |s| ==> s[i] != '.'
    ensures r.None? ==> forall i :: 0 <= i < |s| ==> s[i] != '.'
  {
    if s == "" then None
    else if s[|s| - 1] == '.' then Some(|s| - 1)
    else LastDot(s[..|s| - 1])
  }

  function SplitFileName(name: string): (string, string) {
    match LastDot(name)
    case Some(k) => if k > 0 then (name[..k], name[k + 1..]) else (name, "")
    case None => (name, "")
  }

  /** The v1 rule. */
  function LegacyCandidate(base: string, index: nat): string {
    var (stem, ext) := SplitFileName(base);
    if index == 0 then base
    else if ext == "" then stem + " (" + Decimal(index) + ")"
    else stem + " (" + Decimal(index) + ")." + ext
  }

  /** Path::file_stem and Path::extension of a single component: dot, dot-dot and a
      leading dot alone give no extension. */
  function Extension(base: string): Option<string> {
    if base == "." || base == ".." then None
    else
      match LastDot(base)
      case Some(k) => if k > 0 then Some(base[k + 1..]) else None
      case None => None
  }

  function FileStem(base: string): string {
    if base == "." || base == ".." then ""
    else
      match LastDot(base)
      case Some(k) => if k > 0 then base[..k] else base
      case None => base
  }

  /** The v2 rule. */
  function DurableCandidate(base: string, index: nat): string {
    if index == 0 then base
    else
      match Extension(base)
      case Some(ext) => FileStem(base) + " (" + Decimal(index) + ")." + ext
      case None => base + " (" + Decimal(index) + ")"
  }

  /** The v1 and v2 rules agree on a component exactly when it is the lone dot or does
      not end in a dot; sanitised names never end in one. */
  lemma NumberingRulesAgree(base: string, index: nat)
    requires base != "" && index > 0
    ensures LegacyCandidate(base, index) == DurableCandidate(base, index)
            <==> base == "." || base[|base| - 1] != '.'
  {
    var dec := Decimal(index);
    match LastDot(base) {
      case None =>
      case Some(k) =>
        if k > 0 && k == |base| - 1 {
          assert base[k + 1..] == "";
          if base == ".." {
            assert LegacyCandidate(base, index) == "." + " (" + dec + ")";
            assert DurableCandidate(base, index) == ".." + " (" + dec + ")";
          } else {
            assert LegacyCandidate(base, index) == base[..k] + " (" + dec + ")";
            assert DurableCandidate(base, index) == base[..k] + " (" + dec + ")." + "";
          }
          assert |LegacyCandidate(base, index)| != |DurableCandidate(base, index)|;
        } else if k > 0 {
          assert base[k + 1..] != "";
          assert base != "." && base != "..";
        } else {
          assert base != "..";
        }
    }
  }


  lemma LegacyShape(base: string, index: nat) returns (prefix: string, suffix: string)
    requires index > 0
    ensures forall i :: i > 0 ==> LegacyCandidate(base, i) == prefix + Decimal(i) + suffix
    ensures |prefix| + |suffix| >= |base| + 2
  {
    var (stem, ext) := SplitFileName(base);
    prefix := stem + " (";
    suffix := if ext == "" then ")" else ")." + ext;
    forall i: nat | i > 0
      ensures LegacyCandidate(base, i) == prefix + Decimal(i) + suffix
    {
    }
  }

  /** The candidates of one base name are pairwise distinct. */
  lemma CandidatesAreDistinct(base: string, i: nat, j: nat)
    requires i != j
    ensures LegacyCandidate(base, i) != LegacyCandidate(base, j)
  {
    if i == 0 || j == 0 {
      var k := if i == 0 then j else i;
      var prefix, suffix := LegacyShape(base, k);
      assert |LegacyCandidate(base, k)| > |base|;
    } else {
      var prefix, suffix := LegacyShape(base, i);
      var a, b := prefix + Decimal(i) + suffix, prefix + Decimal(j) + suffix;
      assert Decimal(i) == a[|prefix|..|a| - |suffix|];
      assert Decimal(j) == b[|prefix|..|b| - |suffix|];
      if a == b {
        DecimalIsInjective(i, j);
      }
    }
  }

  /** The same holds of the v2 rule on sanitised base names. */
  lemma DurableCandidatesAreDistinct(base: string, i: nat, j: nat)
    requires SafeName(base) && i != j
    ensures DurableCandidate(base, i) != DurableCandidate(base, j)
  {
    if i > 0 {
      NumberingRulesAgree(base, i);
    }
    if j > 0 {
      NumberingRulesAgree(base, j);
    }
    CandidatesAreDistinct(base, i, j);
  }

  datatype OpenError = TooManyConflicts | Io(name: string)

  /** Probes the candidates in order with create_new; `taken` are the names already in
      the directory and `broken` those that fail for another reason. */
  method OpenUniqueFile(base: string, taken: set<string>, broken: set<string>)
    returns (r: Result<string, OpenError>)
    requires taken !! broken
    ensures r.Ok? ==> exists k: nat ::
              && k < MAX_CANDIDATES && r.value == LegacyCandidate(base, k)
              && r.value !in taken && r.value !in broken
              && forall j: nat :: j < k ==> LegacyCandidate(base, j) in taken
    ensures r == Err(TooManyConflicts)
            <==> forall j: nat :: j < 1000 ==> LegacyCandidate(base, j) in taken
    ensures r.Err? && r.error.Io? ==> exists k: nat ::
              && k < MAX_CANDIDATES && r.error.name == LegacyCandidate(base, k) && r.error.name in broken
              && forall j: nat :: j < k ==> LegacyCandidate(base, j) in taken
  {
    var index := 0;
    while index < MAX_CANDIDATES
      invariant index <= MAX_CANDIDATES
      invariant forall j: nat :: j < index ==> LegacyCandidate(base, j) in taken
    {
      var candidate := LegacyCandidate(base, index);
      if candidate in broken {
        return Err(Io(candidate));
      }
      if candidate !in taken {
        return Ok(candidate);
      }
      index := index + 1;
    }
    return Err(TooManyConflicts);
  }

  // ---------------------------------------------------------------- the reserved directory

  predicate EqIgnoreAsciiCase(a: string, b: string) {
    UpperAscii(a) == UpperAscii(b)
  }

  /** A target (relative to the download directory) inside the journal namespace. */
  predicate ReservedTarget(target: seq<string>) {
    target != [] && EqIgnoreAsciiCase(target[0], STATE_DIR)
  }

  lemma NumberedNameIsNotState(base: string, index: nat)
    requires index > 0
    ensures !EqIgnoreAsciiCase(LegacyCandidate(base, index), STATE_DIR)
  {
    var name := LegacyCandidate(base, index);
    var (stem, ext) := SplitFileName(base);
    var k := |stem| + 1;
    assert name[k] == '(';
    assert UpperAscii(name)[k] == '(';
    assert forall i :: 0 <= i < |STATE_DIR| ==> UpperAscii(STATE_DIR)[i] != '(';
  }

  /** The single check on the unnumbered target covers every numbered candidate. */
  lemma ReservedCheckCoversCandidates(dir: seq<string>, base: string, index: nat)
    requires !ReservedTarget(dir + [base])
    ensures !ReservedTarget(dir + [LegacyCandidate(base, index)])
  {
    if dir == [] {
      assert (dir + [base])[0] == base;
      assert (dir + [LegacyCandidate(base, index)])[0] == LegacyCandidate(base, index);
      if index > 0 {
        NumberedNameIsNotState(base, index);
      }
    } else {
      assert (dir + [base])[0] == dir[0] == (dir + [LegacyCandidate(base, index)])[0];
    }
  }

  lemma NumberedNameIsSafe(base: string, index: nat)
    requires SafeName(base) && index > 0
    ensures SafeChars(LegacyCandidate(base, index)) && |LegacyCandidate(base, index)| > 2
    ensures !IsDotOrSpace(LegacyCandidate(base, index)[|LegacyCandidate(base, index)| - 1])
  {
    var (stem, ext) := SplitFileName(base);
    var name := LegacyCandidate(base, index);
    var dec := Decimal(index);
    assert SafeChars(stem) && SafeChars(ext);
    assert SafeChars(dec);
    assert SafeChars(" (") && SafeChars(")") && SafeChars(").");
    if ext == "" {
      assert name == stem + " (" + dec + ")";
    } else {
      assert name == stem + " (" + dec + ")." + ext;
      assert ext[|ext| - 1] == base[|base| - 1];
    }
  }

  /** Every candidate, numbered or not, is one safe component. */
  lemma CandidateIsSafe(base: string, index: nat)
    requires SafeName(base)
    ensures SafeName(LegacyCandidate(base, index))
  {
    if index > 0 {
      NumberedNameIsSafe(base, index);
    }
  }
}
