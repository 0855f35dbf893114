/** No-clobber publication by hard link: `RenameNoClobber`, the candidate search of
    `PublishAutoSnapshot`, and the archive registry's `Create`, each run alone against a
    directory. `Protocol` covers concurrent runs. */
module Publish {
  import opened Options
  import opened Names

  datatype LinkOutcome = Linked | Exists | LinkFailed

  datatype RenameOutcome = Renamed | DestExists | RenameFailed | CleanupFailed

  datatype PublishOutcome = Published(name: string) | PublishedUncleaned(name: string)
                          | ClaimFailed | PublishFailed | SuffixOverflow

  datatype ArchiveOutcome = Saved(name: string) | SaveFailed

  /** What may go wrong while one archive candidate is saved, other than that its name is taken. */
  datatype SaveFault = NoFault | NotCreated | NotWritten | NotLinked

  /** The names and the file-system answers a search meets: `claim` is the outcome of the caller's
      step before each attempt, `linkFails` whether a link to that name fails though it is free. */
  datatype Calls = Calls(claim: string -> bool, linkFails: string -> bool, unlinkFails: bool)

  /** The attempt on `name` finds it taken, and the search goes on. */
  predicate Taken(bound: map<string, nat>, wip: string, calls: Calls, name: string) {
    calls.claim(name) && !calls.linkFails(name) && wip in bound && name in bound
  }

  /** The attempt on `name` binds it. */
  predicate Takes(bound: map<string, nat>, wip: string, calls: Calls, name: string) {
    calls.claim(name) && !calls.linkFails(name) && wip in bound && name !in bound
  }

  /** The outcome of a search that ends at `name`. */
  predicate Decides(bound: map<string, nat>, wip: string, calls: Calls, name: string, r: PublishOutcome) {
    && (r.ClaimFailed? <==> !calls.claim(name))
    && (r.PublishFailed? <==> calls.claim(name) && (calls.linkFails(name) || wip !in bound))
    && (r.Published? || r.PublishedUncleaned? <==> Takes(bound, wip, calls, name))
    && (r.Published? || r.PublishedUncleaned? ==> r.name == name && (r.PublishedUncleaned? <==> calls.unlinkFails))
    && (r.SuffixOverflow? <==> Taken(bound, wip, calls, name))
  }

  ghost predicate AllBound(bound: map<string, nat>, stamp: string) {
    forall k: nat :: 1 <= k <= MAX_UINT64 ==> AutoSnapshotName(stamp, k) in bound
  }

  /** A directory: each bound name refers to a file. */
  class Directory {
    var bound: map<string, nat>

    /** Binds `dst` to the file `src` names, unless `dst` is bound or the call fails otherwise. */
    method Link(src: string, dst: string, fails: bool) returns (r: LinkOutcome)
      modifies this
      ensures r == if fails || src !in old(bound) then LinkFailed else if dst in old(bound) then Exists else Linked
      ensures bound == if r.Linked? then old(bound)[dst := old(bound)[src]] else old(bound)
    {
      if fails || src !in bound {
        return LinkFailed;
      }
      if dst in bound {
        return Exists;
      }
      bound := bound[dst := bound[src]];
      r := Linked;
    }

    method Remove(name: string, fails: bool) returns (ok: bool)
      modifies this
      ensures ok == (!fails && name in old(bound))
      ensures bound == if ok then old(bound) - {name} else old(bound)
    {
      ok := !fails && name in bound;
      if ok {
        bound := bound - {name};
      }
    }

    /** Publishes `src` at `dst`, never over a bound name, and unbinds `src`. When unbinding fails
        the file stays published under both names. */
    method RenameNoClobber(src: string, dst: string, linkFails: bool, unlinkFails: bool) returns (r: RenameOutcome)
      modifies this
      ensures r.RenameFailed? <==> linkFails || src !in old(bound)
      ensures r.DestExists? <==> !linkFails && src in old(bound) && dst in old(bound)
      ensures r.CleanupFailed? <==> !linkFails && src in old(bound) && dst !in old(bound) && unlinkFails
      ensures r.Renamed? ==> bound == old(bound)[dst := old(bound)[src]] - {src}
      ensures r.CleanupFailed? ==> bound == old(bound)[dst := old(bound)[src]]
      ensures r.RenameFailed? || r.DestExists? ==> bound == old(bound)
    {
      var linked := Link(src, dst, linkFails);
      match linked
      case Exists => r := DestExists;
      case LinkFailed => r := RenameFailed;
      case Linked =>
        var removed := Remove(src, unlinkFails);
        r := if removed then Renamed else CleanupFailed;
    }

    /** The search for a free automatic name. It ends at the first candidate that is not merely
        taken, within (directory size + 1) attempts, and that candidate decides the outcome; it
        overflows only when all 2^64-1 names are bound. */
    method PublishAutoSnapshot(wip: string, stamp: string, calls: Calls)
        returns (r: PublishOutcome, ghost attempts: nat)
      modifies this
      ensures Ended(old(bound), wip, stamp, calls, r, attempts)
      ensures r.Published? ==> bound == old(bound)[r.name := old(bound)[wip]] - {wip}
      ensures r.PublishedUncleaned? ==> bound == old(bound)[r.name := old(bound)[wip]]
      ensures !(r.Published? || r.PublishedUncleaned?) ==> bound == old(bound)
    {
      var candidate: nat := 1;
      attempts := 1;
      while true
        invariant 1 <= candidate <= MAX_UINT64 && bound == old(bound) && attempts == candidate <= |old(bound)| + 1
        invariant forall k: nat :: 1 <= k < candidate ==> Taken(bound, wip, calls, AutoSnapshotName(stamp, k))
        decreases |old(bound)| + 1 - candidate
      {
        var finalPath := AutoSnapshotName(stamp, candidate);
        if !calls.claim(finalPath) {
          return ClaimFailed, attempts;
        }
        var renamed := RenameNoClobber(wip, finalPath, calls.linkFails(finalPath), calls.unlinkFails);
        match renamed {
          case Renamed => return Published(finalPath), attempts;
          case CleanupFailed => return PublishedUncleaned(finalPath), attempts;
          case RenameFailed => return PublishFailed, attempts;
          case DestExists =>
        }
        if candidate == MAX_UINT64 {
          return SuffixOverflow, attempts;
        }
        AutoCandidatesFit(stamp, old(bound).Keys, candidate);
        candidate := candidate + 1;
        attempts := candidate;
      }
    }

    /** Writes an archive to a temporary file of its own, links that to `path` unless it is bound, and
        removes the temporary file, or fails to and says nothing. */
    method SaveAt(path: string, file: nat, temp: string, fault: SaveFault, leaves: bool) returns (r: LinkOutcome)
      requires temp !in bound && temp != path
      modifies this
      ensures r == if !fault.NoFault? then LinkFailed else if path in old(bound) then Exists else Linked
      ensures var saved := if r.Linked? then old(bound)[path := file] else old(bound);
              bound == if leaves && fault != NotCreated then saved[temp := file] else saved
    {
      if fault.NotCreated? {
        return LinkFailed;
      }
      bound := bound[temp := file];
      r := LinkFailed;
      if !fault.NotWritten? {
        r := Link(temp, path, fault.NotLinked?);
      }
      var removed := Remove(temp, leaves);
    }

    /** The archive registry's `Create`: a search over `base`, `base_2`, `base_3`, ... that ends at the
        first candidate that is not merely taken. `temp` names the temporary file of each attempt. */
    method CreateArchive(base: string, file: nat, temp: nat -> string, fault: nat -> SaveFault, leaves: nat -> bool)
      returns (r: ArchiveOutcome, ghost attempts: nat)
      requires FreshTemps(bound, temp)
      modifies this
      ensures 1 <= attempts <= |old(bound)| + 1
      ensures forall k: nat :: 1 <= k < attempts ==> fault(k).NoFault? && ArchiveFileName(base, k) in old(bound)
      ensures r.SaveFailed? <==> !fault(attempts).NoFault?
      ensures r.Saved? ==> r.name == ArchiveName(base, attempts) && r.name + ARCHIVE_EXT !in old(bound)
      ensures bound == AllLeft(if r.Saved? then old(bound)[r.name + ARCHIVE_EXT := file] else old(bound),
                               file, temp, fault, leaves, attempts)
    {
      var n: nat := 1;
      attempts := 1;
      while true
        invariant n >= 1 && attempts == n <= |old(bound)| + 1
        invariant bound == AllLeft(old(bound), file, temp, fault, leaves, n - 1)
        invariant forall k: nat :: 1 <= k < n ==> fault(k).NoFault? && ArchiveFileName(base, k) in old(bound)
        decreases |old(bound)| + 1 - n
      {
        var path := ArchiveFileName(base, n);
        Attempt(old(bound), base, file, temp, fault, leaves, n);
        var linked := SaveAt(path, file, temp(n), fault(n), leaves(n));
        match linked {
          case Linked => return Saved(ArchiveName(base, n)), attempts;
          case LinkFailed => return SaveFailed, attempts;
          case Exists =>
        }
        ArchiveCandidatesFit(base, old(bound).Keys, n);
        n := n + 1;
        attempts := n;
      }
    }
  }

  /** What a search ended with and after how many attempts, as PublishAutoSnapshot ensures it. */
  ghost predicate Ended(bound: map<string, nat>, wip: string, stamp: string, calls: Calls, r: PublishOutcome,
                        attempts: nat) {
    && 1 <= attempts <= MAX_UINT64 && attempts <= |bound| + 1
    && (forall k: nat :: 1 <= k < attempts ==> Taken(bound, wip, calls, AutoSnapshotName(stamp, k)))
    && Decides(bound, wip, calls, AutoSnapshotName(stamp, attempts), r)
    && (r.SuffixOverflow? ==> attempts == MAX_UINT64)
  }

  ghost predicate Undisturbed(calls: Calls) {
    !calls.unlinkFails && forall name :: calls.claim(name) && !calls.linkFails(name)
  }

  /** A search in which nothing fails but for taken names publishes under the least free candidate, and
      overflows if and only if no candidate is free. */
  lemma LeastFree(bound: map<string, nat>, wip: string, stamp: string, calls: Calls,
                  r: PublishOutcome,
                  attempts: nat)
    requires Ended(bound, wip, stamp, calls, r, attempts) && Undisturbed(calls) && wip in bound
    ensures r.SuffixOverflow? <==> AllBound(bound, stamp)
    ensures !r.SuffixOverflow? ==>
              && r == Published(AutoSnapshotName(stamp, attempts)) && r.name !in bound
              && forall k: nat :: 1 <= k < attempts ==> AutoSnapshotName(stamp, k) in bound
  {
    var name := AutoSnapshotName(stamp, attempts);
    assert calls.claim(name) && !calls.linkFails(name);
    if name in bound {
      forall k: nat | 1 <= k <= MAX_UINT64
        ensures AutoSnapshotName(stamp, k) in bound
      {
        if k < attempts {
          assert Taken(bound, wip, calls, AutoSnapshotName(stamp, k));
        } else {
          assert k == attempts;
        }
      }
    }
  }

  // ---------------------------------------------------------------- temporary files

  const TEMP_EXT := ".tmp"

  /** Each attempt's temporary file has an unused name of its own. */
  ghost predicate FreshTemps(bound: map<string, nat>, temp: nat -> string) {
    && (forall k :: temp(k) !in bound && CutSuffix(temp(k), TEMP_EXT).Some?)
    && (forall j, k :: j < k ==> temp(j) != temp(k))
  }

  /** What one attempt leaves behind. */
  function Left(bound: map<string, nat>, file: nat, temp: string, fault: SaveFault, leaves: bool): map<string, nat> {
    if leaves && !fault.NotCreated? then bound[temp := file] else bound
  }

  /** What the attempts 1 to `n` leave behind. */
  function AllLeft(bound: map<string, nat>, file: nat, temp: nat -> string, fault: nat -> SaveFault,
                   leaves: nat -> bool, n: nat): map<string, nat> {
    if n == 0 then bound
    else Left(AllLeft(bound, file, temp, fault, leaves, n - 1), file, temp(n), fault(n), leaves(n))
  }

  /** After `n` attempts, exactly the temporary files are there, besides what was, that an attempt created
      and could not remove; and each holds the archive. */
  lemma {:induction false} LeftBehind(bound: map<string, nat>, file: nat, temp: nat -> string, fault: nat -> SaveFault,
                                      leaves: nat -> bool, n: nat, name: string)
    ensures var left := AllLeft(bound, file, temp, fault, leaves, n);
            && (name in left <==> name in bound || LeftBy(temp, fault, leaves, n, name))
            && (name in left ==> left[name] == if LeftBy(temp, fault, leaves, n, name) then file else bound[name])
  {
    if n == 0 {
    } else {
      LeftBehind(bound, file, temp, fault, leaves, n - 1, name);
    }
  }

  predicate LeftBy(temp: nat -> string, fault: nat -> SaveFault, leaves: nat -> bool, n: nat, name: string) {
    exists k :: 1 <= k <= n && temp(k) == name && leaves(k) && fault(k) != NotCreated
  }

  lemma NotTemp(base: string, n: nat, temp: string)
    requires CutSuffix(temp, TEMP_EXT).Some?
    ensures ArchiveFileName(base, n) != temp
  {
    assert temp[|temp| - 1] == TEMP_EXT[|TEMP_EXT| - 1] by {
      assert temp[|temp| - |TEMP_EXT|..] == TEMP_EXT;
    }
    assert ArchiveFileName(base, n)[|ArchiveFileName(base, n)| - 1] == ARCHIVE_EXT[|ARCHIVE_EXT| - 1];
  }

  lemma NoTemps(base: string, n: nat, temp: nat -> string)
    requires forall k :: CutSuffix(temp(k), TEMP_EXT).Some?
    ensures forall k :: temp(k) != ArchiveFileName(base, n)
  {
    forall k
      ensures temp(k) != ArchiveFileName(base, n)
    {
      NotTemp(base, n, temp(k));
    }
  }

  /** What attempt `n` of a search over `base` finds, and what it comes to if it saves its archive. */
  lemma Attempt(bound: map<string, nat>, base: string, file: nat, temp: nat -> string, fault: nat -> SaveFault,
                leaves: nat -> bool, n: nat)
    requires FreshTemps(bound, temp) && n >= 1
    ensures var left, path := AllLeft(bound, file, temp, fault, leaves, n - 1), ArchiveFileName(base, n);
            && temp(n) !in left && temp(n) != path && (path in left <==> path in bound)
            && Left(left[path := file], file, temp(n), fault(n), leaves(n))
               == AllLeft(bound[path := file], file, temp, fault, leaves, n)
  {
    var path := ArchiveFileName(base, n);
    NoTemps(base, n, temp);
    LeftNames(bound, file, temp, fault, leaves, n - 1, path);
    LeftTemps(bound, file, temp, fault, leaves, n - 1, n);
    LeftCommutes(bound, file, temp, fault, leaves, n - 1, path);
  }

  /** Attempts leave every name alone that is not one of their temporary files. */
  lemma {:induction false} LeftNames(bound: map<string, nat>, file: nat, temp: nat -> string, fault: nat -> SaveFault,
                                     leaves: nat -> bool, n: nat, path: string)
    requires forall k :: temp(k) != path
    ensures var left := AllLeft(bound, file, temp, fault, leaves, n);
            (path in left <==> path in bound) && (path in bound ==> left[path] == bound[path])
  {
    if n == 0 {
    } else {
      LeftNames(bound, file, temp, fault, leaves, n - 1, path);
    }
  }

  lemma {:induction false} LeftTemps(bound: map<string, nat>, file: nat, temp: nat -> string, fault: nat -> SaveFault,
                                     leaves: nat -> bool, n: nat, m: nat)
    requires FreshTemps(bound, temp) && n < m
    ensures temp(m) !in AllLeft(bound, file, temp, fault, leaves, n)
  {
    if n == 0 {
    } else {
      LeftTemps(bound, file, temp, fault, leaves, n - 1, m);
    }
  }

  lemma {:induction false} LeftCommutes(bound: map<string, nat>, file: nat, temp: nat -> string,
                                        fault: nat -> SaveFault,
                                        leaves: nat -> bool, n: nat, path: string)
    requires forall k :: temp(k) != path
    ensures AllLeft(bound, file, temp, fault, leaves, n)[path := file]
            == AllLeft(bound[path := file], file, temp, fault, leaves, n)
  {
    if n == 0 {
    } else {
      LeftCommutes(bound, file, temp, fault, leaves, n - 1, path);
      assert temp(n) != path;
    }
  }

  function ArchiveName(base: string, n: nat): string {
    if n > 1 then base + ("_" + Itoa(n)) else base
  }

  function ArchiveFileName(base: string, n: nat): string {
    ArchiveName(base, n) + ARCHIVE_EXT
  }

  /** How the candidates over a base name are written: the first without a number. */
  lemma ArchiveNameWritten(base: string, n: nat)
    ensures ArchiveFileName(base, 1) == base + ".lognav-archive"
    ensures n >= 2 ==> ArchiveFileName(base, n) == base + "_" + Itoa(n) + ".lognav-archive"
  {
    assert base + ("_" + Itoa(n)) == base + "_" + Itoa(n);
  }

  // ---------------------------------------------------------------- why the searches end

  /** `n` different names that are all in `keys` need |keys| >= n. */
  lemma {:induction false} Pigeonhole(name: nat -> string, keys: set<string>, n: nat)
    requires forall i, j: nat :: 1 <= i < j <= n ==> name(i) != name(j)
    requires forall i: nat :: 1 <= i <= n ==> name(i) in keys
    ensures n <= |keys|
  {
    if n == 0 {
    } else {
      Pigeonhole(name, keys - {name(n)}, n - 1);
    }
  }

  lemma AutoCandidatesDiffer(stamp: string, i: nat, j: nat)
    requires 1 <= i < j
    ensures AutoSnapshotName(stamp, i) != AutoSnapshotName(stamp, j)
  {
    var ti, tj := if i > 1 then "-" + Itoa(i) else "", "-" + Itoa(j);
    if AutoSnapshotName(stamp, i) == AutoSnapshotName(stamp, j) {
      assert |AUTO_PREFIX + (stamp + ti)| == |AUTO_PREFIX + (stamp + tj)|;
      SplitTail(AUTO_PREFIX + (stamp + ti), FILE_EXT, AUTO_PREFIX + (stamp + tj), FILE_EXT);
      SplitTail(AUTO_PREFIX, stamp + ti, AUTO_PREFIX, stamp + tj);
      SplitTail(stamp, ti, stamp, tj);
      SplitTail("-", ti[1..], "-", Itoa(j));
      ItoaInjective(i, j);
    }
  }

  lemma AutoCandidatesFit(stamp: string, keys: set<string>, n: nat)
    requires forall k: nat :: 1 <= k <= n ==> AutoSnapshotName(stamp, k) in keys
    ensures n <= |keys|
  {
    forall i, j: nat | 1 <= i < j <= n ensures AutoSnapshotName(stamp, i) != AutoSnapshotName(stamp, j) {
      AutoCandidatesDiffer(stamp, i, j);
    }
    Pigeonhole((k: nat) => AutoSnapshotName(stamp, k), keys, n);
  }

  lemma ArchiveCandidatesDiffer(base: string, i: nat, j: nat)
    requires 1 <= i < j
    ensures ArchiveFileName(base, i) != ArchiveFileName(base, j)
  {
    if ArchiveFileName(base, i) == ArchiveFileName(base, j) {
      assert |ArchiveName(base, i)| == |ArchiveName(base, j)|;
      SplitTail(ArchiveName(base, i), ARCHIVE_EXT, ArchiveName(base, j), ARCHIVE_EXT);
      if i > 1 {
        SplitTail(base, "_" + Itoa(i), base, "_" + Itoa(j));
        SplitTail("_", Itoa(i), "_", Itoa(j));
        ItoaInjective(i, j);
      }
    }
  }

  lemma ArchiveCandidatesFit(base: string, keys: set<string>, n: nat)
    requires forall k: nat :: 1 <= k <= n ==> ArchiveFileName(base, k) in keys
    ensures n <= |keys|
  {
    forall i, j: nat | 1 <= i < j <= n ensures ArchiveFileName(base, i) != ArchiveFileName(base, j) {
      ArchiveCandidatesDiffer(base, i, j);
    }
    Pigeonhole((k: nat) => ArchiveFileName(base, k), keys, n);
  }
}
