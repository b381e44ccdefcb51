/** What sanitising keeps of a peer's names: an ordinary name is stored as it is, an ordinary
    relative path keeps its components, and a colliding name only gains its number. */
module PathNames {
  import opened Wrappers
  import opened Paths

  // ---------------------------------------------------------------- ordinary names

  /** One safe component that does not begin or end in white space and is no device name. */
  predicate PlainName(n: string) {
    SafeName(n) && !IsWhitespace(n[0]) && !IsWhitespace(n[|n| - 1]) && !IsDeviceName(n)
  }

  lemma {:induction false} LeafOfSafe(s: string)
    requires SafeChars(s)
    ensures Leaf(s) == s
  {
    if s != "" {
      LeafOfSafe(s[..|s| - 1]);
    }
  }

  lemma {:induction false} ScrubOfSafe(s: string)
    requires SafeChars(s)
    ensures Scrub(s) == s
  {
    if s != "" {
      ScrubOfSafe(s[1..]);
    }
  }

  /** A plain name is stored unchanged, whatever the id beside it. */
  lemma PlainNameIsKept(name: string, fallback: string)
    requires PlainName(name)
    ensures SanitizeFileName(name, fallback) == name
  {
    LeafOfSafe(name);
    ScrubOfSafe(name);
  }

  /** The fallback matters only when nothing is left of the name's last component; then the
      name does not matter. */
  lemma FallbackMattersIff(name: string, fallback: string)
    ensures var left := Trimmed(name);
            left != "" ==> SanitizeFileName(name, fallback) == if IsDeviceName(left) then "_" + left else left
    ensures Trimmed(name) == "" ==> SanitizeFileName(name, fallback) == SanitizeFileName(fallback, "file")
  {
    FileIsPlain();
    PlainNameIsKept("file", "");
  }

  lemma FileIsPlain()
    ensures PlainName("file")
  {
    StemStart("file");
    if IsDeviceName("file") {
      DeviceStemStart(UpperAscii(FirstStem("file")));
    }
  }

  // ---------------------------------------------------------------- sanitising again

  lemma {:induction false} TrimStartStops(s: string, drop: char -> bool)
    ensures TrimStart(s, drop) != "" ==> !drop(TrimStart(s, drop)[0])
  {
    if s != "" && drop(s[0]) {
      TrimStartStops(s[1..], drop);
    }
  }

  lemma {:induction false} TrimEndIsPrefix(s: string, drop: char -> bool)
    ensures TrimEnd(s, drop) <= s
    ensures s != "" && drop(s[|s| - 1]) ==> |TrimEnd(s, drop)| < |s|
  {
    if s != "" && drop(s[|s| - 1]) {
      TrimEndIsPrefix(s[..|s| - 1], drop);
    }
  }

  lemma TrimmedStart(value: string)
    ensures Trimmed(value) != "" ==> !IsWhitespace(Trimmed(value)[0])
  {
    var a := TrimStart(Scrub(Leaf(value)), IsWhitespace);
    TrimStartStops(Scrub(Leaf(value)), IsWhitespace);
    TrimEndIsPrefix(a, IsWhitespace);
    TrimEndIsPrefix(TrimEnd(a, IsWhitespace), IsDotOrSpace);
  }

  lemma StoredStart(name: string, fallback: string)
    ensures SanitizeFileName(name, fallback) != "" && !IsWhitespace(SanitizeFileName(name, fallback)[0])
  {
    TrimmedStart(name);
    TrimmedStart(fallback);
    SanitizedNameIsSafe(name, fallback);
    assert forall t: string :: ("_" + t)[0] == '_';
  }

  /** A stored name that ends in white space is cut when it is sanitised again. */
  lemma AgainIsCut(n: string)
    requires SafeName(n) && !IsWhitespace(n[0]) && IsWhitespace(n[|n| - 1])
    ensures Trimmed(n) != n && (Trimmed(n) != "" ==> Clean(n) != Some(n))
  {
    LeafOfSafe(n);
    ScrubOfSafe(n);
    var b := TrimEnd(n, IsWhitespace);
    TrimEndIsPrefix(n, IsWhitespace);
    TrimEndIsPrefix(b, IsDotOrSpace);
    var t := Trimmed(n);
    assert t <= n && |t| < |n|;
    if t != "" && IsDeviceName(t) {
      if t[0] != '.' {
        StemStart(t);
      }
      DeviceStemStart(UpperAscii(FirstStem(t)));
      assert "_" + t != n by {
        assert ("_" + t)[0] == '_' && t[0] == n[0];
      }
    }
  }

  /** Sanitising again changes nothing unless the stored name ends in a white space other than
      the plain space, which it can because trailing dots are taken off last; then it changes
      the name, except that a name of dots and white space alone may come back as fallback. */
  lemma IdempotentIff(name: string, fallback: string, other: string)
    ensures var n := SanitizeFileName(name, fallback);
            && n != ""
            && (SanitizeFileName(n, other) == n
                <==> !IsWhitespace(n[|n| - 1]) || (Trimmed(n) == "" && SanitizeFileName(other, "file") == n))
  {
    var n := SanitizeFileName(name, fallback);
    SanitizedNameIsSafe(name, fallback);
    SanitizedNameIsNoDevice(name, fallback);
    StoredStart(name, fallback);
    if IsWhitespace(n[|n| - 1]) {
      AgainIsCut(n);
      FallbackMattersIff(n, other);
    } else {
      PlainNameIsKept(n, other);
      LeafOfSafe(n);
      ScrubOfSafe(n);
    }
  }

  lemma TrimmedWithSpace(space: char)
    requires IsWhitespace(space) && SafeChar(space) && !IsDotOrSpace(space)
    ensures Trimmed(['a', space, '.']) == ['a', space]
  {
    var value := ['a', space, '.'];
    LeafOfSafe(value);
    ScrubOfSafe(value);
    assert value[..|value| - 1] == ['a', space];
    assert TrimStart(value, IsWhitespace) == value && TrimEnd(value, IsWhitespace) == value;
    assert TrimEnd(['a', space], IsDotOrSpace) == ['a', space];
  }

  lemma TrimmedOfSpace(space: char)
    requires IsWhitespace(space) && SafeChar(space)
    ensures Trimmed(['a', space]) == "a"
  {
    var value := ['a', space];
    LeafOfSafe(value);
    ScrubOfSafe(value);
    assert value[..1] == "a";
    assert TrimEnd("a", IsWhitespace) == "a" && TrimEnd("a", IsDotOrSpace) == "a";
  }

  /** The letter a, a no-break space and a dot: stored with the space, which a second pass
      would remove. */
  lemma NotIdempotent(fallback: string)
    ensures var n := SanitizeFileName(['a', 0xa0 as char, '.'], fallback);
            n == ['a', 0xa0 as char] && SanitizeFileName(n, fallback) == "a"
  {
    var space := 0xa0 as char;
    TrimmedWithSpace(space);
    TrimmedOfSpace(space);
    ShortIsNoDevice(['a', space]);
    ShortIsNoDevice("a");
    FallbackMattersIff(['a', space, '.'], fallback);
    FallbackMattersIff(['a', space], fallback);
  }

  lemma ShortIsNoDevice(n: string)
    requires |n| < 3
    ensures !IsDeviceName(n)
  {
    var stem := UpperAscii(FirstStem(n));
    assert |stem| < 3;
  }

  // ---------------------------------------------------------------- ordinary paths

  /** Names joined by separators, one of the two kinds at each place. */
  function Path(names: seq<string>, seps: seq<char>): string
    requires |names| == |seps| + 1
  {
    if seps == [] then names[0] else names[0] + [seps[0]] + Path(names[1..], seps[1..])
  }

  lemma {:induction false} SplitPlain(n: string)
    requires SafeChars(n)
    ensures Split(n) == [n]
  {
    if n != "" {
      SplitPlain(n[1..]);
      assert [n[0]] + n[1..] == n;
    }
  }

  lemma {:induction false} SplitFirst(n: string, c: char, rest: string)
    requires SafeChars(n) && IsSeparator(c)
    ensures Split(n + [c] + rest) == [n] + Split(rest)
  {
    var s := n + [c] + rest;
    if n == "" {
      assert s[0] == c && s[1..] == rest;
    } else {
      SplitFirst(n[1..], c, rest);
      assert s[0] == n[0] && s[1..] == n[1..] + [c] + rest;
      assert [n[0]] + n[1..] == n;
    }
  }

  lemma {:induction false} SplitPath(names: seq<string>, seps: seq<char>)
    requires |names| == |seps| + 1 && (forall i :: 0 <= i < |names| ==> SafeChars(names[i]))
    requires forall i :: 0 <= i < |seps| ==> IsSeparator(seps[i])
    ensures Split(Path(names, seps)) == names
  {
    if seps == [] {
      SplitPlain(names[0]);
      assert names == [names[0]];
    } else {
      SplitPath(names[1..], seps[1..]);
      SplitFirst(names[0], seps[0], Path(names[1..], seps[1..]));
      assert [names[0]] + names[1..] == names;
    }
  }

  lemma {:induction false} PlainAreKept(names: seq<string>)
    requires forall i :: 0 <= i < |names| ==> PlainName(names[i])
    ensures Kept(names) == names
  {
    if names != [] {
      var n := |names| - 1;
      PlainAreKept(names[..n]);
      PlainNameIsKept(names[n], "file");
      assert |names[n]| == 2 ==> names[n][1] != ':' by { assert SafeChars(names[n]); }
      assert names == names[..n] + [names[n]];
    }
  }

  /** A relative path of plain names is recreated below the download directory component by
      component, whichever separators it is written with and whatever name and id say. */
  lemma PlainPathIsKept(download: seq<string>, name: string, id: string, names: seq<string>, seps: seq<char>)
    requires |names| == |seps| + 1 && (forall i :: 0 <= i < |names| ==> PlainName(names[i]))
    requires forall i :: 0 <= i < |seps| ==> IsSeparator(seps[i])
    ensures RelativeComponents(Path(names, seps)) == names
    ensures ReceiveTarget(download, Placement(name, id, Some(Path(names, seps))))
            == (download + names[..|names| - 1], names[|names| - 1])
  {
    SplitPath(names, seps);
    PlainAreKept(names);
    PlaceBelowIsRelative(download, names, SanitizeFileName(name, id));
  }

  /** Without a relative path, or with one of which nothing is kept, a plain name is stored
      directly in the download directory. */
  lemma PlainFileIsKept(download: seq<string>, name: string, id: string, path: Option<string>)
    requires PlainName(name) && (path.Some? ==> RelativeComponents(path.value) == [])
    ensures ReceiveTarget(download, Placement(name, id, path)) == (download, name)
  {
    PlainNameIsKept(name, id);
  }

  /** A place is refused if and only if its first component is the name of the state
      directory, in upper or lower case or a mixture of both. */
  lemma ReservedIs(first: string, rest: seq<string>)
    ensures ReservedTarget([first] + rest) <==>
            && |first| == |".gosh-transfer"|
            && forall i :: 0 <= i < |first| ==>
                 var c := ".gosh-transfer"[i];
                 first[i] == c || ('a' <= c <= 'z' && first[i] as int == c as int - 32)
  {
    var u, v := UpperAscii(first), UpperAscii(".gosh-transfer");
    assert ReservedTarget([first] + rest) <==> u == v;
    if |first| == |".gosh-transfer"| {
      forall i | 0 <= i < |first|
        ensures u[i] == v[i] <==>
                first[i] == ".gosh-transfer"[i]
                || ('a' <= ".gosh-transfer"[i] <= 'z' && first[i] as int == ".gosh-transfer"[i] as int - 32)
      {
      }
    }
  }

  // ---------------------------------------------------------------- numbering

  /** The value of a decimal numeral. */
  function Value(s: string): nat
    requires forall i :: 0 <= i < |s| ==> '0' <= s[i] <= '9'
  {
    if s == "" then 0 else 10 * Value(s[..|s| - 1]) + (s[|s| - 1] - '0') as nat
  }

  /** The number in a numbered name is the attempt's, written without leading zeros. */
  lemma {:induction false} DecimalIsNumeral(n: nat)
    ensures Value(Decimal(n)) == n && (n > 0 ==> Decimal(n)[0] != '0')
  {
    if n >= 10 {
      DecimalIsNumeral(n / 10);
      assert Decimal(n)[..|Decimal(n)| - 1] == Decimal(n / 10);
      assert Decimal(n)[0] == Decimal(n / 10)[0];
    } else {
      assert Decimal(n)[..0] == "";
    }
  }

  lemma {:induction false} LastDotOf(stem: string, ext: string)
    requires forall i :: 0 <= i < |ext| ==> ext[i] != '.'
    ensures LastDot(stem + "." + ext) == Some(|stem|)
  {
    var s := stem + "." + ext;
    if ext == "" {
      assert s[|s| - 1] == '.';
    } else {
      LastDotOf(stem, ext[..|ext| - 1]);
      assert s[..|s| - 1] == stem + "." + ext[..|ext| - 1];
      assert s[|s| - 1] == ext[|ext| - 1];
    }
  }

  /** The first candidate is the name itself; the k-th has its number in brackets before the
      extension, or at the end when there is none. */
  lemma CandidateIs(stem: string, ext: string, k: nat)
    requires forall i :: 0 <= i < |ext| ==> ext[i] != '.'
    ensures LegacyCandidate(stem + "." + ext, 0) == stem + "." + ext
    ensures k > 0 && stem != "" && ext != "" ==>
              LegacyCandidate(stem + "." + ext, k) == stem + " (" + Decimal(k) + ")." + ext
    ensures k > 0 ==> LegacyCandidate(ext, k) == ext + " (" + Decimal(k) + ")"
    ensures k > 0 ==> LegacyCandidate("." + ext, k) == "." + ext + " (" + Decimal(k) + ")"
  {
    var s := stem + "." + ext;
    LastDotOf(stem, ext);
    LastDotOf("", ext);
    assert "" + "." + ext == "." + ext;
    assert s[..|stem|] == stem && s[|stem| + 1..] == ext;
  }
}
