/** File names of the snapshot directory: automatic snapshots, work-in-progress files and claim
    files, with the parsers that recognise them. The calendar behind a timestamp is a parameter:
    `valid` says which 15-character stamps are real local times. */
module Names {
  import opened Options

  const FILE_EXT := ".lognav"
  const WIP_SUFFIX := ".lognav.wip"
  const AUTO_PREFIX := "auto-"
  const INUSE_EXT := ".inuse"
  const INUSE_TMP_EXT := ".inuse.tmp"
  const ARCHIVE_EXT := ".lognav-archive"
  const MAX_UINT64 := 0xFFFF_FFFF_FFFF_FFFF
  const MAX_INT64 := 0x7FFF_FFFF_FFFF_FFFF

  // ---------------------------------------------------------------- decimals

  predicate IsDigit(c: char) {
    '0' <= c <= '9'
  }

  predicate AllDigits(s: string) {
    s == [] || (IsDigit(s[|s| - 1]) && AllDigits(s[..|s| - 1]))
  }

  function DigitChar(d: nat): (c: char)
    requires d < 10
    ensures IsDigit(c) && (c as int - '0' as int) == d
  {
    ('0' as int + d) as char
  }

  function Itoa(n: nat): (s: string)
    ensures |s| > 0
  {
    if n < 10 then [DigitChar(n)] else Itoa(n / 10) + [DigitChar(n % 10)]
  }

  /** The value of a digit string. */
  function Value(s: string): nat
    requires AllDigits(s)
  {
    if s == [] then 0 else 10 * Value(s[..|s| - 1]) + (s[|s| - 1] as int - '0' as int)
  }

  lemma {:induction false} ItoaParses(n: nat)
    ensures AllDigits(Itoa(n)) && Value(Itoa(n)) == n
  {
    var s := Itoa(n);
    if n < 10 {
      assert s[..|s| - 1] == [];
    } else {
      ItoaParses(n / 10);
      assert s[..|s| - 1] == Itoa(n / 10);
    }
  }

  lemma ItoaInjective(m: nat, n: nat)
    requires Itoa(m) == Itoa(n)
    ensures m == n
  {
    ItoaParses(m);
    ItoaParses(n);
  }

  lemma {:induction false} DigitsOnly(s: string, c: char)
    requires AllDigits(s) && !IsDigit(c)
    ensures c !in s
  {
    if s == [] {
    } else {
      DigitsOnly(s[..|s| - 1], c);
      assert s == s[..|s| - 1] + [s[|s| - 1]];
    }
  }

  /** An unsigned 64-bit decimal: digits only, leading zeros allowed. */
  function ParseUint(s: string): Option<nat> {
    if s != [] && AllDigits(s) && Value(s) <= MAX_UINT64 then Some(Value(s)) else None
  }

  /** A signed 64-bit decimal: an optional sign, then digits. */
  function Atoi(s: string): Option<int> {
    var negative := s != [] && s[0] == '-';
    var digits := if s != [] && (s[0] == '-' || s[0] == '+') then s[1..] else s;
    if digits == [] || !AllDigits(digits) then None
    else
      var v := if negative then -(Value(digits) as int) else Value(digits) as int;
      if -MAX_INT64 - 1 <= v <= MAX_INT64 then Some(v) else None
  }

  lemma {:induction false} FirstDigit(s: string)
    requires AllDigits(s) && s != []
    ensures IsDigit(s[0])
  {
    if |s| == 1 {
    } else {
      FirstDigit(s[..|s| - 1]);
    }
  }

  lemma AtoiOfItoa(n: nat)
    ensures Atoi(Itoa(n)) == if n <= 9223372036854775807 then Some(n) else None
  {
    ItoaParses(n);
    FirstDigit(Itoa(n));
  }

  // ---------------------------------------------------------------- affixes

  function CutSuffix(s: string, suffix: string): Option<string> {
    if |suffix| <= |s| && s[|s| - |suffix|..] == suffix then Some(s[..|s| - |suffix|]) else None
  }

  function CutPrefix(s: string, prefix: string): Option<string> {
    if prefix <= s then Some(s[|prefix|..]) else None
  }

  lemma CutSuffixIff(s: string, suffix: string, base: string)
    ensures CutSuffix(s, suffix) == Some(base) <==> s == base + suffix
  {
    if CutSuffix(s, suffix) == Some(base) {
      assert s == s[..|s| - |suffix|] + s[|s| - |suffix|..];
    }
    if s == base + suffix {
      assert s[..|base|] == base && s[|base|..] == suffix;
    }
  }

  lemma CutPrefixIff(s: string, prefix: string, rest: string)
    ensures CutPrefix(s, prefix) == Some(rest) <==> s == prefix + rest
  {
    if CutPrefix(s, prefix) == Some(rest) {
      assert s == s[..|prefix|] + s[|prefix|..];
    }
    if s == prefix + rest {
      assert s[|prefix|..] == rest;
    }
  }

  // ---------------------------------------------------------------- fields

  /** Index of the first `c` in `s`, or |s|. */
  function IndexOf(s: string, c: char): (i: nat)
    ensures i <= |s| && c !in s[..i]
    ensures i < |s| ==> s[i] == c
    ensures i == |s| ==> c !in s
  {
    if s == [] || s[0] == c then 0
    else
      var i := IndexOf(s[1..], c);
      assert s[..1 + i] == [s[0]] + s[1..][..i];
      assert s == [s[0]] + s[1..];
      1 + i
  }

  /** The fields of `s` between separators. */
  function Split(s: string, c: char): (r: seq<string>)
    ensures |r| > 0
    decreases |s|
  {
    var i := IndexOf(s, c);
    if i == |s| then [s] else [s[..i]] + Split(s[i + 1..], c)
  }

  function Join(parts: seq<string>, c: char): string
    requires |parts| > 0
  {
    if |parts| == 1 then parts[0] else parts[0] + [c] + Join(parts[1..], c)
  }

  lemma {:induction false} JoinSplit(s: string, c: char)
    ensures Join(Split(s, c), c) == s
    decreases |s|
  {
    var i := IndexOf(s, c);
    if i >= |s| {
    } else {
      JoinSplit(s[i + 1..], c);
      assert Split(s, c)[1..] == Split(s[i + 1..], c);
      assert s == s[..i] + [s[i]] + s[i + 1..];
    }
  }

  lemma SplitOne(a: string, c: char)
    requires c !in a
    ensures Split(a, c) == [a]
  {
    assert IndexOf(a, c) < |a| ==> c in a;
  }

  lemma SplitCons(a: string, rest: string, c: char)
    requires c !in a
    ensures Split(a + [c] + rest, c) == [a] + Split(rest, c)
  {
    var s := a + [c] + rest;
    var i := IndexOf(s, c);
    assert s[|a|] == c;
    forall j | 0 <= j < i ensures s[j] != c {
      assert s[j] in s[..i];
    }
    forall j | 0 <= j < |a| ensures s[j] != c {
      assert s[j] in a;
    }
    assert s[..|a|] == a && s[|a| + 1..] == rest;
  }

  lemma JoinTwo(a: string, b: string, c: char)
    ensures Join([a, b], c) == a + [c] + b
  {
    assert [a, b][1..] == [b];
  }

  lemma JoinThree(a: string, b: string, d: string, c: char)
    ensures Join([a, b, d], c) == (a + [c] + b) + ([c] + d)
  {
    assert [a, b, d][1..] == [b, d];
    JoinTwo(b, d, c);
  }

  // ---------------------------------------------------------------- automatic names

  /** A calendar: the stamps it accepts are eight characters, a dash and six characters. */
  ghost predicate Calendar(valid: string -> bool) {
    forall t :: valid(t) ==> |t| == 15 && t[8] == '-' && '-' !in t[..8] && '-' !in t[9..]
  }

  /** Candidate number `candidate` for an automatic snapshot stamped `stamp`. */
  function AutoSnapshotName(stamp: string, candidate: nat): string {
    AUTO_PREFIX + (stamp + if candidate > 1 then "-" + Itoa(candidate) else "") + FILE_EXT
  }

  /** Recognises a canonical finalized automatic snapshot name. */
  predicate IsAutoSnapshotName(valid: string -> bool, name: string) {
    match CutSuffix(name, FILE_EXT)
    case None => false
    case Some(stem) =>
      match CutPrefix(stem, AUTO_PREFIX)
      case None => false
      case Some(rest) => IsAutoRest(valid, Split(rest, '-'))
  }

  predicate IsAutoRest(valid: string -> bool, parts: seq<string>) {
    && (|parts| == 2 || |parts| == 3)
    && valid(parts[0] + "-" + parts[1])
    && (|parts| == 3 ==>
          match ParseUint(parts[2])
          case None => false
          case Some(n) => n >= 2 && Itoa(n) == parts[2])
  }

  /** The stamp and candidate that `name` is made of. */
  ghost predicate IsAuto(valid: string -> bool, name: string, stamp: string, candidate: nat) {
    valid(stamp) && 1 <= candidate <= MAX_UINT64 && name == AutoSnapshotName(stamp, candidate)
  }

  /** How the candidates of a stamp are written: the first without a number. */
  lemma AutoNameWritten(stamp: string, candidate: nat)
    ensures AutoSnapshotName(stamp, 1) == "auto-" + stamp + ".lognav"
    ensures candidate >= 2 ==>
              AutoSnapshotName(stamp, candidate) == "auto-" + stamp + "-" + Itoa(candidate) + ".lognav"
  {
    assert stamp + "" == stamp;
    assert "auto-" + (stamp + ("-" + Itoa(candidate))) == "auto-" + stamp + "-" + Itoa(candidate);
  }

  lemma SplitTwo(a: string, b: string, c: char)
    requires c !in a && c !in b
    ensures Split(a + [c] + b, c) == [a, b]
  {
    SplitCons(a, b, c);
    SplitOne(b, c);
  }

  lemma SplitThree(a: string, b: string, d: string, c: char)
    requires c !in a && c !in b && c !in d
    ensures Split(a + [c] + (b + [c] + d), c) == [a, b, d]
  {
    SplitCons(a, b + [c] + d, c);
    SplitTwo(b, d, c);
  }

  lemma {:induction false} SplitStamp(valid: string -> bool, stamp: string, candidate: nat)
    requires Calendar(valid) && valid(stamp)
    ensures var parts := Split(stamp + if candidate > 1 then "-" + Itoa(candidate) else "", '-');
            parts == [stamp[..8], stamp[9..]] + if candidate > 1 then [Itoa(candidate)] else []
  {
    hide Split, Itoa;
    var day, time := stamp[..8], stamp[9..];
    assert stamp == day + ['-'] + time;
    if candidate > 1 {
      var n := Itoa(candidate);
      ItoaParses(candidate);
      DigitsOnly(n, '-');
      assert stamp + ("-" + n) == day + ['-'] + (time + ['-'] + n);
      SplitThree(day, time, n, '-');
    } else {
      assert stamp + "" == stamp;
      SplitTwo(day, time, '-');
    }
  }

  lemma AutoAccepts(valid: string -> bool, stamp: string, candidate: nat)
    requires Calendar(valid) && valid(stamp) && 1 <= candidate <= MAX_UINT64
    ensures IsAutoSnapshotName(valid, AutoSnapshotName(stamp, candidate))
  {
    var rest := stamp + if candidate > 1 then "-" + Itoa(candidate) else "";
    CutSuffixIff(AUTO_PREFIX + rest + FILE_EXT, FILE_EXT, AUTO_PREFIX + rest);
    CutPrefixIff(AUTO_PREFIX + rest, AUTO_PREFIX, rest);
    SplitStamp(valid, stamp, candidate);
    assert stamp[..8] + "-" + stamp[9..] == stamp;
    ItoaParses(candidate);
  }

  lemma AutoParts(valid: string -> bool, name: string) returns (stamp: string, candidate: nat)
    requires IsAutoSnapshotName(valid, name)
    ensures IsAuto(valid, name, stamp, candidate)
  {
    var stem := CutSuffix(name, FILE_EXT).value;
    var rest := CutPrefix(stem, AUTO_PREFIX).value;
    CutSuffixIff(name, FILE_EXT, stem);
    CutPrefixIff(stem, AUTO_PREFIX, rest);
    var parts := Split(rest, '-');
    JoinSplit(rest, '-');
    stamp := parts[0] + "-" + parts[1];
    if |parts| == 2 {
      candidate := 1;
      assert parts == [parts[0], parts[1]];
      JoinTwo(parts[0], parts[1], '-');
      assert rest == stamp + "";
    } else {
      candidate := ParseUint(parts[2]).value;
      assert parts == [parts[0], parts[1], parts[2]];
      JoinThree(parts[0], parts[1], parts[2], '-');
    }
  }

  /** The automatic-name language: a name is accepted exactly when it is some valid stamp's
      candidate in 1..2^64-1. */
  lemma AutoNameLanguage(valid: string -> bool, name: string)
    requires Calendar(valid)
    ensures IsAutoSnapshotName(valid, name) <==> exists stamp, candidate :: IsAuto(valid, name, stamp, candidate)
  {
    if IsAutoSnapshotName(valid, name) {
      var stamp, candidate := AutoParts(valid, name);
    }
    if stamp, candidate :| IsAuto(valid, name, stamp, candidate) {
      AutoAccepts(valid, stamp, candidate);
    }
  }

  /** A candidate's name is accepted if and only if its number fits in 64 bits. */
  lemma AutoCandidateFits(valid: string -> bool, stamp: string, candidate: nat)
    requires Calendar(valid) && valid(stamp) && candidate >= 1
    ensures IsAutoSnapshotName(valid, AutoSnapshotName(stamp, candidate)) <==> candidate <= 18446744073709551615
  {
    var name := AutoSnapshotName(stamp, candidate);
    if candidate <= MAX_UINT64 {
      AutoAccepts(valid, stamp, candidate);
    } else {
      var rest := stamp + ("-" + Itoa(candidate));
      CutSuffixIff(AUTO_PREFIX + rest + FILE_EXT, FILE_EXT, AUTO_PREFIX + rest);
      CutPrefixIff(AUTO_PREFIX + rest, AUTO_PREFIX, rest);
      SplitStamp(valid, stamp, candidate);
      ItoaParses(candidate);
    }
  }

  /** That stamp and candidate are the only ones. */
  lemma AutoNameUnique(valid: string -> bool, name: string, s1: string, c1: nat, s2: string, c2: nat)
    requires Calendar(valid)
    requires IsAuto(valid, name, s1, c1) && IsAuto(valid, name, s2, c2)
    ensures s1 == s2 && c1 == c2
  {
    var t1 := if c1 > 1 then "-" + Itoa(c1) else "";
    var t2 := if c2 > 1 then "-" + Itoa(c2) else "";
    CutSuffixIff(name, FILE_EXT, AUTO_PREFIX + (s1 + t1));
    CutSuffixIff(name, FILE_EXT, AUTO_PREFIX + (s2 + t2));
    CutPrefixIff(AUTO_PREFIX + (s1 + t1), AUTO_PREFIX, s1 + t1);
    CutPrefixIff(AUTO_PREFIX + (s2 + t2), AUTO_PREFIX, s2 + t2);
    SplitTail(s1, t1, s2, t2);
    if c1 > 1 && c2 > 1 {
      assert Itoa(c1) == t1[1..] && Itoa(c2) == t2[1..];
      ItoaInjective(c1, c2);
    }
  }

  lemma SplitTail(a: string, x: string, b: string, y: string)
    requires a + x == b + y && |a| == |b|
    ensures a == b && x == y
  {
    assert a == (a + x)[..|a|] && b == (b + y)[..|b|];
    assert x == (a + x)[|a|..] && y == (b + y)[|b|..];
  }

  // ---------------------------------------------------------------- work in progress

  /** The name `CreateWip` gives a file: a hidden random token and the owner's PID. */
  function WipName(token: string, pid: nat): string {
    "." + token + ("_" + Itoa(pid)) + WIP_SUFFIX
  }

  /** Index of the last `c` in `s`, or -1. */
  function LastIndexOf(s: string, c: char): (i: int)
    ensures -1 <= i < |s|
    ensures i >= 0 ==> s[i] == c
  {
    if s == [] then -1 else if s[|s| - 1] == c then |s| - 1 else LastIndexOf(s[..|s| - 1], c)
  }

  lemma {:induction false} LastIndexIs(a: string, b: string, c: char)
    requires c !in b
    ensures LastIndexOf(a + [c] + b, c) == |a|
  {
    var s := a + [c] + b;
    if b == [] {
    } else {
      assert s[|s| - 1] == b[|b| - 1] && b[|b| - 1] in b;
      LastIndexIs(a, b[..|b| - 1], c);
      assert s[..|s| - 1] == a + [c] + b[..|b| - 1];
    }
  }

  /** The PID in the last underscore field, if it is canonical and positive. */
  function PidFromStampedName(name: string, suffix: string): Option<nat> {
    match CutSuffix(name, suffix)
    case None => None
    case Some(base) =>
      var i := LastIndexOf(base, '_');
      if i < 0 || i == |base| - 1 then None
      else
        match Atoi(base[i + 1..])
        case None => None
        case Some(pid) => if pid <= 0 || Itoa(pid) != base[i + 1..] then None else Some(pid)
  }

  function WipPid(name: string): Option<nat> {
    if !("." <= name) then None
    else
      match CutSuffix(name, WIP_SUFFIX)
      case None => None
      case Some(base) =>
        var i := LastIndexOf(base, '_');
        if i <= 1 || i == |base| - 1 then None else PidFromStampedName(name, WIP_SUFFIX)
  }

  /** How a work-in-progress file and a claim file are named. */
  lemma OwnNamesWritten(token: string, pid: nat)
    ensures WipName(token, pid) == "." + token + "_" + Itoa(pid) + ".lognav.wip"
    ensures OwnInUseName(pid) == Itoa(pid) + ".inuse"
  {
    assert "." + token + ("_" + Itoa(pid)) == "." + token + "_" + Itoa(pid);
  }

  lemma WipPidOfName(token: string, pid: nat)
    requires token != []
    ensures WipPid(WipName(token, pid)) == if 1 <= pid <= 9223372036854775807 then Some(pid) else None
  {
    var base, digits := "." + token + ("_" + Itoa(pid)), Itoa(pid);
    CutSuffixIff(WipName(token, pid), WIP_SUFFIX, base);
    ItoaParses(pid);
    DigitsOnly(digits, '_');
    assert base == ("." + token) + ['_'] + digits;
    LastIndexIs("." + token, digits, '_');
    assert base[|token| + 2..] == digits;
    AtoiOfItoa(pid);
  }

  /** A name carries PID `pid` exactly when it is a hidden WIP name some process with that PID
      could have created. */
  lemma WipPidLanguage(name: string, pid: nat)
    ensures WipPid(name) == Some(pid)
            <==> 1 <= pid <= MAX_INT64 && exists token :: token != [] && name == WipName(token, pid)
  {
    if WipPid(name) == Some(pid) {
      var base := CutSuffix(name, WIP_SUFFIX).value;
      CutSuffixIff(name, WIP_SUFFIX, base);
      var i := LastIndexOf(base, '_');
      var token := base[1..i];
      assert base == base[..1] + token + ([base[i]] + base[i + 1..]);
      assert base[..1] == name[..1] == ".";
      assert name == WipName(token, pid) && token != [];
      AtoiOfItoa(pid);
    }
    if 1 <= pid <= MAX_INT64 && exists token :: token != [] && name == WipName(token, pid) {
      var token :| token != [] && name == WipName(token, pid);
      WipPidOfName(token, pid);
    }
  }

  // ---------------------------------------------------------------- claims

  function OwnInUseName(pid: nat): string {
    Itoa(pid) + INUSE_EXT
  }

  function InUsePid(name: string): Option<int> {
    match CutSuffix(name, INUSE_TMP_EXT)
    case Some(base) => Atoi(base)
    case None =>
      match CutSuffix(name, INUSE_EXT)
      case Some(base) => Atoi(base)
      case None => None
  }

  lemma DifferentEnds(a: string, x: string, b: string, y: string)
    requires x != [] && y != [] && x[|x| - 1] != y[|y| - 1]
    ensures a + x != b + y
  {
    assert (a + x)[|a + x| - 1] == x[|x| - 1] && (b + y)[|b + y| - 1] == y[|y| - 1];
  }

  lemma NoSuffix(a: string, x: string, y: string)
    requires x != [] && y != [] && x[|x| - 1] != y[|y| - 1]
    ensures CutSuffix(a + x, y) == None
  {
    if CutSuffix(a + x, y).Some? {
      var b := CutSuffix(a + x, y).value;
      CutSuffixIff(a + x, y, b);
      DifferentEnds(a, x, b, y);
    }
  }

  /** A process reads its own PID back from its claim file and from the claim's temporary file. */
  lemma InUsePidOfOwn(pid: nat)
    ensures InUsePid(OwnInUseName(pid)) == if pid <= 9223372036854775807 then Some(pid) else None
    ensures InUsePid(OwnInUseName(pid) + ".tmp") == if pid <= 9223372036854775807 then Some(pid) else None
  {
    AtoiOfItoa(pid);
    CutSuffixIff(OwnInUseName(pid), INUSE_EXT, Itoa(pid));
    NoSuffix(Itoa(pid), INUSE_EXT, INUSE_TMP_EXT);
    assert OwnInUseName(pid) + ".tmp" == Itoa(pid) + INUSE_TMP_EXT;
    CutSuffixIff(OwnInUseName(pid) + ".tmp", INUSE_TMP_EXT, Itoa(pid));
  }

  /** A decimal as it is printed: no sign, and no leading zero unless it is zero itself. */
  predicate Canonical(s: string) {
    s != [] && AllDigits(s) && (|s| == 1 || s[0] != '0')
  }

  lemma {:induction false} ItoaCanonical(n: nat)
    ensures Canonical(Itoa(n)) && (n > 0 ==> Itoa(n)[0] != '0')
  {
    ItoaParses(n);
    if n < 10 {
    } else {
      ItoaCanonical(n / 10);
    }
  }

  lemma {:induction false} CanonicalPrinted(s: string)
    requires Canonical(s)
    ensures s == Itoa(Value(s)) && (s[0] != '0' ==> Value(s) > 0)
  {
    var front := s[..|s| - 1];
    if front != [] {
      CanonicalPrinted(front);
      assert s == front + [s[|s| - 1]];
    } else {
      assert Value(front) == 0;
    }
  }

  /** The claim parser reads padded and signed numbers too. A name that it reads as `pid` is the name
      that process `pid` writes if and only if its number is as it is printed: so a padded or signed
      name is read as another file's claim, for every pid. */
  lemma InUsePidCanonical(base: string, pid: int)
    ensures InUsePid(base + INUSE_EXT) == Some(pid) ==>
              (pid >= 0 && base + INUSE_EXT == OwnInUseName(pid) <==> Canonical(base))
    ensures InUsePid(base + INUSE_TMP_EXT) == Some(pid) ==>
              (pid >= 0 && base + INUSE_TMP_EXT == OwnInUseName(pid) + ".tmp" <==> Canonical(base))
  {
    CutSuffixIff(base + INUSE_EXT, INUSE_EXT, base);
    CutSuffixIff(base + INUSE_TMP_EXT, INUSE_TMP_EXT, base);
    NoSuffix(base, INUSE_EXT, INUSE_TMP_EXT);
    if Atoi(base) == Some(pid) {
      if Canonical(base) {
        CanonicalPrinted(base);
        FirstDigit(base);
      }
      if pid >= 0 {
        ItoaCanonical(pid);
        OwnNames(base, pid);
      }
    }
  }

  lemma OwnNames(base: string, pid: nat)
    ensures base + INUSE_EXT == OwnInUseName(pid) <==> base == Itoa(pid)
    ensures base + INUSE_TMP_EXT == OwnInUseName(pid) + ".tmp" <==> base == Itoa(pid)
  {
    assert OwnInUseName(pid) + ".tmp" == Itoa(pid) + INUSE_TMP_EXT;
    CutSuffixIff(OwnInUseName(pid), INUSE_EXT, base);
    CutSuffixIff(OwnInUseName(pid), INUSE_EXT, Itoa(pid));
    CutSuffixIff(Itoa(pid) + INUSE_TMP_EXT, INUSE_TMP_EXT, base);
    CutSuffixIff(Itoa(pid) + INUSE_TMP_EXT, INUSE_TMP_EXT, Itoa(pid));
  }

  /** Three names that are read as the same process's. */
  lemma InUsePidNotInjective()
    ensures InUsePid("7.inuse") == Some(7) && InUsePid("07.inuse") == Some(7) && InUsePid("+7.inuse") == Some(7)
  {
    forall base | base in ["7", "07", "+7"] ensures InUsePid(base + INUSE_EXT) == Atoi(base) {
      CutSuffixIff(base + INUSE_EXT, INUSE_EXT, base);
      NoSuffix(base, INUSE_EXT, INUSE_TMP_EXT);
    }
    assert "7" + INUSE_EXT == "7.inuse" && "07" + INUSE_EXT == "07.inuse" && "+7" + INUSE_EXT == "+7.inuse";
    assert "7"[..0] == "" && "07"[..1] == "0" && "0"[..0] == "" && "+7"[1..] == "7";
  }

  // ---------------------------------------------------------------- the directory's names

  /** A file name by what wrote it. */
  datatype FileName = Auto(stamp: string, candidate: nat) | Wip(token: string, pid: nat) | Claim(owner: nat)

  ghost predicate Proper(valid: string -> bool, f: FileName) {
    match f
    case Auto(stamp, candidate) => valid(stamp) && 1 <= candidate <= MAX_UINT64
    case Wip(token, pid) => token != [] && 1 <= pid <= MAX_INT64
    case Claim(owner) => owner <= MAX_INT64
  }

  function Render(f: FileName): string {
    match f
    case Auto(stamp, candidate) => AutoSnapshotName(stamp, candidate)
    case Wip(token, pid) => WipName(token, pid)
    case Claim(owner) => OwnInUseName(owner)
  }

  lemma WipNameInjective(t1: string, p1: nat, t2: string, p2: nat)
    requires t1 != [] && t2 != [] && 1 <= p1 <= MAX_INT64 && 1 <= p2 <= MAX_INT64
    requires WipName(t1, p1) == WipName(t2, p2)
    ensures t1 == t2 && p1 == p2
  {
    WipPidOfName(t1, p1);
    WipPidOfName(t2, p2);
    var tail := ("_" + Itoa(p1)) + WIP_SUFFIX;
    assert WipName(t1, p1) == ("." + t1) + tail && WipName(t2, p2) == ("." + t2) + tail;
    assert |t1| == |t2|;
    SplitTail("." + t1, tail, "." + t2, tail);
    assert t1 == ("." + t1)[1..] && t2 == ("." + t2)[1..];
  }

  /** No two files of the directory share a name: neither two of one kind nor two of different
      kinds. */
  lemma RenderInjective(valid: string -> bool, f: FileName, g: FileName)
    requires Calendar(valid) && Proper(valid, f) && Proper(valid, g) && Render(f) == Render(g)
    ensures f == g
  {
    match (f, g)
    case (Auto(s1, c1), Auto(s2, c2)) => AutoNameUnique(valid, Render(f), s1, c1, s2, c2);
    case (Wip(t1, p1), Wip(t2, p2)) => WipNameInjective(t1, p1, t2, p2);
    case (Claim(p1), Claim(p2)) =>
      InUsePidOfOwn(p1);
      InUsePidOfOwn(p2);
    case _ =>
      LastChar(f);
      LastChar(g);
  }

  lemma LastChar(f: FileName)
    ensures Render(f) != [] && Render(f)[|Render(f)| - 1]
            == match f case Auto(_, _) => 'v' case Wip(_, _) => 'p' case Claim(_) => 'e'
  {
  }
}
