/** Claim files: what a directory of `<pid>.inuse` files says about who holds which snapshot, and
    which of them a stale sweep removes. `Protocol` covers these steps beside others. */
module InUse {
  import opened Options
  import opened Names

  /** A directory entry; `content` is None when it cannot be read. */
  datatype Entry = Entry(name: string, content: Option<string>)

  /** `s` without white space at either end. */
  function Trim(s: string, space: char -> bool): string
    decreases |s|
  {
    if s == [] then s
    else if space(s[0]) then Trim(s[1..], space)
    else if space(s[|s| - 1]) then Trim(s[..|s| - 1], space)
    else s
  }

  /** A claim file of a live process: its pid. */
  function Owner(e: Entry, live: int -> bool): Option<int> {
    if CutSuffix(e.name, INUSE_EXT).None? || CutSuffix(e.name, INUSE_TMP_EXT).Some? then None
    else match InUsePid(e.name)
      case Some(pid) => if live(pid) && e.content.Some? then Some(pid) else None
      case None => None
  }

  predicate AllSpace(s: string, space: char -> bool) {
    forall i :: 0 <= i < |s| ==> space(s[i])
  }

  /** Trimming takes white space from the ends, and all of it. */
  lemma {:induction false} TrimMeans(s: string, space: char -> bool) returns (a: string, b: string)
    ensures s == a + Trim(s, space) + b && AllSpace(a, space) && AllSpace(b, space)
    ensures Trim(s, space) != [] ==> !space(Trim(s, space)[0]) && !space(Trim(s, space)[|Trim(s, space)| - 1])
    decreases |s|
  {
    if s != [] && space(s[0]) {
      a, b := TrimMeans(s[1..], space);
      a := [s[0]] + a;
    } else if s != [] && space(s[|s| - 1]) {
      a, b := TrimMeans(s[..|s| - 1], space);
      b := b + [s[|s| - 1]];
    } else {
      a, b := [], [];
    }
  }

  /** The names a claim file lists. */
  function Listed(e: Entry, space: char -> bool): seq<string>
    requires e.content.Some?
  {
    TrimAll(Split(e.content.value, '\n'), space)
  }

  function TrimAll(lines: seq<string>, space: char -> bool): (r: seq<string>)
    ensures |r| == |lines| && forall i :: 0 <= i < |lines| ==> r[i] == Trim(lines[i], space)
  {
    seq(|lines|, i requires 0 <= i < |lines| => Trim(lines[i], space))
  }

  predicate Claims(e: Entry, n: string, live: int -> bool, space: char -> bool) {
    n != [] && Owner(e, live).Some? && n in Listed(e, space)
  }

  /** The live holders of `n`, each once, in the order of the listing. */
  function Holders(dir: seq<Entry>, n: string, live: int -> bool, space: char -> bool): seq<int> {
    if dir == [] then []
    else
      var front, last := Holders(dir[..|dir| - 1], n, live, space), dir[|dir| - 1];
      if Claims(last, n, live, space) then AddOnce(front, Owner(last, live).value) else front
  }

  function AddOnce(pids: seq<int>, pid: int): seq<int> {
    if pid in pids then pids else pids + [pid]
  }

  type Index = map<string, seq<int>>

  function Lookup(ix: Index, n: string): seq<int> {
    if n in ix then ix[n] else []
  }

  /** HoldersIndex: one walk over the directory. */
  method HoldersIndex(dir: seq<Entry>, live: int -> bool, space: char -> bool) returns (ix: Index)
    ensures forall n :: Lookup(ix, n) == Holders(dir, n, live, space)
    ensures forall n, pid :: pid in Lookup(ix, n) <==> HeldBy(dir, n, live, space, pid)
  {
    ix := map[];
    for i := 0 to |dir|
      invariant forall n :: Lookup(ix, n) == Holders(dir[..i], n, live, space)
    {
      assert dir[..i + 1][..i] == dir[..i];
      ix := AddEntry(ix, dir[i], live, space);
    }
    assert dir[..|dir|] == dir;
    forall n, pid
      ensures pid in Lookup(ix, n) <==> HeldBy(dir, n, live, space, pid)
    {
      assert Lookup(ix, n) == Holders(dir, n, live, space);
      HoldersExactly(dir, n, live, space, pid);
    }
  }

  /** One entry of the directory. */
  method AddEntry(before: Index, e: Entry, live: int -> bool, space: char -> bool) returns (ix: Index)
    ensures forall n :: Lookup(ix, n)
                        == if Claims(e, n, live, space) then AddOnce(Lookup(before, n), Owner(e, live).value)
                           else Lookup(before, n)
  {
    ix := before;
    if CutSuffix(e.name, INUSE_EXT).Some? && CutSuffix(e.name, INUSE_TMP_EXT).None? {
      var pid := InUsePid(e.name);
      if pid.Some? && live(pid.value) && e.content.Some? {
        ix := AddLines(ix, Split(e.content.value, '\n'), pid.value, space);
      }
    }
  }

  /** The lines of one claim file. */
  method AddLines(before: Index, lines: seq<string>, pid: int, space: char -> bool) returns (ix: Index)
    ensures forall n :: Lookup(ix, n)
                        == if n != [] && n in TrimAll(lines, space) then AddOnce(Lookup(before, n), pid)
                           else Lookup(before, n)
  {
    ix := before;
    for i := 0 to |lines|
      invariant forall n :: Lookup(ix, n)
                            == if n != [] && n in TrimAll(lines[..i], space) then AddOnce(Lookup(before, n), pid)
                               else Lookup(before, n)
    {
      var ln := Trim(lines[i], space);
      assert TrimAll(lines[..i + 1], space) == TrimAll(lines[..i], space) + [ln];
      if ln != [] && pid !in Lookup(ix, ln) {
        ix := ix[ln := Lookup(ix, ln) + [pid]];
      }
    }
    assert lines[..|lines|] == lines;
  }

  // ---------------------------------------------------------------- who holds a name

  /** The name of a claim file of process `pid`: its number, and nothing else, before the extension. */
  ghost predicate ClaimFile(name: string, pid: int) {
    exists number :: name == number + ".inuse" && Atoi(number) == Some(pid)
  }

  /** A claim file of `pid` that can be read, and has a line that is `n` but for white space around it. */
  ghost predicate Says(e: Entry, n: string, pid: int, space: char -> bool) {
    && ClaimFile(e.name, pid) && e.content.Some?
    && exists line :: line in Split(e.content.value, '\n') && Trim(line, space) == n
  }

  /** `pid` is alive, and a claim file of it says `n`. */
  ghost predicate HeldBy(dir: seq<Entry>, n: string, live: int -> bool, space: char -> bool, pid: int) {
    n != [] && live(pid) && exists i :: 0 <= i < |dir| && Says(dir[i], n, pid, space)
  }

  lemma ClaimFileOwner(name: string, pid: int)
    ensures ClaimFile(name, pid)
            <==> CutSuffix(name, INUSE_EXT).Some? && CutSuffix(name, INUSE_TMP_EXT).None? && InUsePid(name) == Some(pid)
  {
    if CutSuffix(name, INUSE_EXT).Some? {
      var number := CutSuffix(name, INUSE_EXT).value;
      CutSuffixIff(name, INUSE_EXT, number);
      NoSuffix(number, INUSE_EXT, INUSE_TMP_EXT);
    }
    if ClaimFile(name, pid) {
      var number :| name == number + ".inuse" && Atoi(number) == Some(pid);
      CutSuffixIff(name, INUSE_EXT, number);
    }
  }

  lemma ListedIff(e: Entry, n: string, space: char -> bool)
    requires e.content.Some?
    ensures n in Listed(e, space) <==> exists line :: line in Split(e.content.value, '\n') && Trim(line, space) == n
  {
    var lines := Split(e.content.value, '\n');
    if line :| line in lines && Trim(line, space) == n {
      var k :| 0 <= k < |lines| && lines[k] == line;
      assert Listed(e, space)[k] == n;
    }
    if n in Listed(e, space) {
      var k :| 0 <= k < |lines| && Listed(e, space)[k] == n;
      assert lines[k] in lines && Trim(lines[k], space) == n;
    }
  }

  lemma ClaimsIff(e: Entry, n: string, live: int -> bool, space: char -> bool, pid: int)
    ensures Claims(e, n, live, space) && Owner(e, live) == Some(pid) <==> n != [] && live(pid) && Says(e, n, pid, space)
  {
    ClaimFileOwner(e.name, pid);
    if e.content.Some? {
      ListedIff(e, n, space);
    }
  }

  /** A process holds a name if and only if it is alive and one of its claim files, in whatever way its
      pid is written there, has a line with that name. */
  lemma {:induction false} HoldersExactly(dir: seq<Entry>, n: string, live: int -> bool, space: char -> bool, pid: int)
    ensures pid in Holders(dir, n, live, space)
            <==> n != [] && live(pid) && exists i :: 0 <= i < |dir| && Says(dir[i], n, pid, space)
  {
    if dir == [] {
    } else {
      var front, last := dir[..|dir| - 1], dir[|dir| - 1];
      HoldersExactly(front, n, live, space, pid);
      ClaimsIff(last, n, live, space, pid);
      if i :| 0 <= i < |front| && Says(front[i], n, pid, space) {
        assert Says(dir[i], n, pid, space);
      }
      if i :| 0 <= i < |dir| && Says(dir[i], n, pid, space) {
        assert i < |front| ==> Says(front[i], n, pid, space);
      }
    }
  }

  /** `p` lists `n` somewhere before any claim file of `q` does. */
  ghost predicate Before(dir: seq<Entry>, n: string, space: char -> bool, p: int, q: int) {
    exists i :: 0 <= i < |dir| && Says(dir[i], n, p, space) && forall j :: 0 <= j <= i ==> !Says(dir[j], n, q, space)
  }

  lemma BeforeMore(dir: seq<Entry>, e: Entry, n: string, space: char -> bool, p: int, q: int)
    requires Before(dir, n, space, p, q)
    ensures Before(dir + [e], n, space, p, q)
  {
    var i :| 0 <= i < |dir| && Says(dir[i], n, p, space) && forall j :: 0 <= j <= i ==> !Says(dir[j], n, q, space);
    assert Says((dir + [e])[i], n, p, space);
    assert forall j :: 0 <= j <= i ==> (dir + [e])[j] == dir[j];
  }

  /** The holders of a name are different processes, in the order in which the listing first has them. */
  lemma {:induction false} HoldersInOrder(dir: seq<Entry>, n: string, live: int -> bool, space: char -> bool, j: nat,
                                          k: nat)
    requires j < k < |Holders(dir, n, live, space)|
    ensures var hs := Holders(dir, n, live, space); hs[j] != hs[k] && Before(dir, n, space, hs[j], hs[k])
    decreases |dir|
  {
    var front, last := dir[..|dir| - 1], dir[|dir| - 1];
    var hs, earlier := Holders(dir, n, live, space), Holders(front, n, live, space);
    assert dir == front + [last];
    if k < |earlier| {
      HoldersInOrder(front, n, live, space, j, k);
      BeforeMore(front, last, n, space, hs[j], hs[k]);
    } else {
      Newcomer(front, last, n, live, space, hs[j], hs[k]);
    }
  }

  lemma Newcomer(front: seq<Entry>, last: Entry, n: string, live: int -> bool, space: char -> bool, p: int, q: int)
    requires p in Holders(front, n, live, space) && q !in Holders(front, n, live, space)
    requires Claims(last, n, live, space) && Owner(last, live) == Some(q)
    ensures p != q && Before(front + [last], n, space, p, q)
  {
    HoldersExactly(front, n, live, space, p);
    HoldersExactly(front, n, live, space, q);
    ClaimsIff(last, n, live, space, q);
    var i :| 0 <= i < |front| && Says(front[i], n, p, space);
    assert Before(front, n, space, p, q);
    BeforeMore(front, last, n, space, p, q);
  }

  /** A name that only dead processes' claim files list is free. */
  lemma DeadHoldNothing(dir: seq<Entry>, n: string, live: int -> bool, space: char -> bool)
    requires forall i, pid :: 0 <= i < |dir| && Says(dir[i], n, pid, space) ==> !live(pid)
    ensures Holders(dir, n, live, space) == []
  {
    var hs := Holders(dir, n, live, space);
    if hs != [] {
      HoldersExactly(dir, n, live, space, hs[0]);
    }
  }

  /** A scan finds a name again that has no line break and no white space at either end. */
  predicate Plain(base: string, space: char -> bool) {
    base != [] && '\n' !in base && Trim(base, space) == base
  }

  lemma {:induction false} TrimTakes(s: string, space: char -> bool, c: char)
    requires c in Trim(s, space)
    ensures c in s
  {
    if s != [] && space(s[0]) {
      TrimTakes(s[1..], space, c);
    } else if s != [] && space(s[|s| - 1]) {
      TrimTakes(s[..|s| - 1], space, c);
    }
  }

  lemma {:induction false} NoBreaks(s: string, line: string)
    requires line in Split(s, '\n')
    ensures '\n' !in line
    decreases |s|
  {
    var i := IndexOf(s, '\n');
    if i == |s| || line == s[..i] {
    } else {
      assert line in Split(s[i + 1..], '\n');
      NoBreaks(s[i + 1..], line);
    }
  }

  /** What SetOwnInUse writes: which names a scan reads in it. */
  lemma {:induction false} OwnLines(base: string, space: char -> bool, n: string)
    requires n != []
    ensures n in TrimAll(Split(base + ['\n'], '\n'), space) ==> '\n' !in n
    ensures '\n' !in base ==> (n in TrimAll(Split(base + ['\n'], '\n'), space) <==> n == Trim(base, space))
  {
    var lines := Split(base + ['\n'], '\n');
    if '\n' in n && n in TrimAll(lines, space) {
      var k :| 0 <= k < |lines| && TrimAll(lines, space)[k] == n;
      TrimTakes(lines[k], space, '\n');
      NoBreaks(base + ['\n'], lines[k]);
    }
    if '\n' !in base {
      assert base + ['\n'] == base + ['\n'] + [];
      SplitCons(base, [], '\n');
      assert lines == [base, []];
      assert TrimAll(lines, space) == [Trim(base, space), []];
    }
  }

  /** A live process that claims a plain name holds it, whatever else is in the directory; and if no
      other claim file is taken for its own, it holds the name it claims only if that is plain. */
  lemma OwnClaimFound(dir: seq<Entry>, i: nat, pid: nat, base: string, live: int -> bool,
                      space: char -> bool)
    requires i < |dir| && dir[i] == Entry(OwnInUseName(pid), Some(base + ['\n']))
    requires pid <= MAX_INT64 && live(pid)
    ensures Plain(base, space) ==> pid in Holders(dir, base, live, space)
    ensures (forall j :: 0 <= j < |dir| && j != i ==> !ClaimFile(dir[j].name, pid)) ==>
              (pid in Holders(dir, base, live, space) <==> Plain(base, space))
  {
    InUsePidOfOwn(pid);
    CutSuffixIff(OwnInUseName(pid), INUSE_EXT, Itoa(pid));
    NoSuffix(Itoa(pid), INUSE_EXT, INUSE_TMP_EXT);
    assert ClaimFile(dir[i].name, pid);
    if base != [] {
      OwnLines(base, space, base);
      ListedIff(dir[i], base, space);
      assert Says(dir[i], base, pid, space) <==> Plain(base, space);
    }
    HoldersExactly(dir, base, live, space, pid);
  }

  /** CleanStaleInUse: which names it removes. */
  method StaleClaims(dir: seq<Entry>, live: int -> bool) returns (removed: seq<string>)
    ensures forall n :: n in removed
                        <==> exists i :: 0 <= i < |dir| && dir[i].name == n && InUsePid(n).Some?
                                    && !live(InUsePid(n).value)
  {
    removed := [];
    for i := 0 to |dir|
      invariant forall n :: n in removed <==> exists j :: 0 <= j < i && dir[j].name == n && Stale(n, live)
    {
      var pid := InUsePid(dir[i].name);
      if pid.None? || live(pid.value) {
        continue;
      }
      removed := removed + [dir[i].name];
    }
  }

  predicate Stale(name: string, live: int -> bool) {
    InUsePid(name).Some? && !live(InUsePid(name).value)
  }

  /** A process's claim file, and its temporary one, are among them if and only if it is dead. */
  lemma OwnClaimSpared(pid: nat, live: int -> bool)
    requires pid <= MAX_INT64
    ensures Stale(OwnInUseName(pid), live) <==> !live(pid)
    ensures Stale(OwnInUseName(pid) + ".tmp", live) <==> !live(pid)
  {
    InUsePidOfOwn(pid);
  }
}
