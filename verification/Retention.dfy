/** One isolated deletion pass over the snapshot directory: automatic retention and `prune`.
    `Protocol` covers passes that run beside publishers and other passes. */
module Retention {

  newtype uint8 = x: int | 0 <= x < 0x100

  /** One scanned snapshot file. `auto` says whether its name is an automatic one. */
  datatype Entry = Entry(name: string, auto: bool, modTime: int, size: nat)

  /** The directory a pass works on; a removal may fail. */
  class SnapshotDir {
    var files: set<string>

    method Remove(name: string, fails: bool) returns (ok: bool)
      modifies this
      ensures ok == (!fails && name in old(files))
      ensures files == if ok then old(files) - {name} else old(files)
    {
      ok := !fails && name in files;
      if ok {
        files := files - {name};
      }
    }

    /** Tries one doomed entry, and notes down what came of it. */
    method Attempt(entry: Entry, fails: bool, removed: seq<Entry>, failed: seq<Entry>,
                   ghost before: set<string>, ghost scanned: bool, ghost tried: seq<Entry>,
                   ghost faulty: string -> bool)
      returns (gone: seq<Entry>, left: seq<Entry>)
      requires fails == faulty(entry.name) && (scanned ==> entry.name in files)
      requires Progress(before, files, scanned, removed, failed, tried, faulty) && Interleaved(removed, failed, tried)
      modifies this
      ensures Progress(before, files, scanned, gone, left, tried + [entry], faulty)
      ensures Interleaved(gone, left, tried + [entry])
      ensures gone == removed || gone == removed + [entry]
    {
      InterleavedOneMore(removed, failed, tried, entry);
      OneMoreTried(before, files, scanned, removed, failed, tried, faulty, entry);
      gone, left := removed, failed;
      var ok := Remove(entry.name, fails);
      if ok {
        gone := gone + [entry];
      } else {
        left := left + [entry];
      }
    }

    /** Keeps the newest `limit` automatic snapshots of a newest-first scan and every held one, and
        removes every other automatic snapshot that can be removed, one failure not stopping the
        next. `faulty` says of which names the removal fails. */
    method RetainAutoSnapshots(entries: seq<Entry>, held: set<string>, limit: uint8, faulty: string -> bool)
      returns (removed: seq<Entry>, failed: seq<Entry>)
      modifies this
      ensures files == old(files) - Names(Part(Doomed(entries, held, limit as nat), faulty, false))
      ensures files == old(files) - Names(removed)
      ensures Interleaved(removed, failed, Doomed(entries, held, limit as nat))
      ensures Scanned(entries, old(files)) ==>
                && removed == Part(Doomed(entries, held, limit as nat), faulty, false)
                && failed == Part(Doomed(entries, held, limit as nat), faulty, true)
    {
      removed, failed := [], [];
      ghost var tried: seq<Entry>, left: nat := [], limit as nat;
      ghost var scanned := Scanned(entries, files);
      var kept: uint8 := 0;
      var i := 0;
      assert entries[0..] == entries;
      while i < |entries|
        invariant 0 <= i <= |entries| && kept <= limit && left == (limit - kept) as nat
        invariant Progress(old(files), files, scanned, removed, failed, tried, faulty)
        invariant Interleaved(removed, failed, tried)
        invariant forall e :: e in removed ==> e in entries[..i]
        invariant Doomed(entries, held, limit as nat) == tried + Doomed(entries[i..], held, left)
      {
        var entry := entries[i];
        DoomedStep(entries, i, held, left, tried);
        i := i + 1;
        if !entry.auto {
          continue;
        }
        if kept < limit {
          kept, left := kept + 1, left - 1;
          continue;
        }
        if entry.name in held {
          continue;
        }
        StillThere(entries, old(files), removed, i - 1);
        removed, failed := Attempt(entry, faulty(entry.name), removed, failed, old(files), scanned, tried, faulty);
        tried := tried + [entry];
      }
      assert tried + [] == tried;
    }
  }

  /** A scan of a directory: its entries are files of it, under different names. */
  ghost predicate Scanned(entries: seq<Entry>, files: set<string>) {
    && (forall i, j :: 0 <= i < j < |entries| ==> entries[i].name != entries[j].name)
    && Names(entries) <= files
  }

  /** Those of `es` whose removal fails, or does not. */
  function Part(es: seq<Entry>, faulty: string -> bool, fails: bool): seq<Entry> {
    if es == [] then []
    else
      var front, last := Part(es[..|es| - 1], faulty, fails), es[|es| - 1];
      if faulty(last.name) == fails then front + [last] else front
  }

  lemma PartOneMore(es: seq<Entry>, e: Entry, faulty: string -> bool)
    ensures forall fails ::
              Part(es + [e], faulty, fails)
              == if faulty(e.name) == fails then Part(es, faulty, fails) + [e] else Part(es, faulty, fails)
    ensures Names(Part(es + [e], faulty, false))
            == if faulty(e.name) then Names(Part(es, faulty, false)) else Names(Part(es, faulty, false)) + {e.name}
  {
    assert (es + [e])[..|es|] == es;
    NamesOne(Part(es, faulty, false), e);
  }

  /** How far a pass has come: it has gone for the entries `tried`, of which it removed `removed`. */
  ghost predicate Progress(before: set<string>, files: set<string>, scanned: bool, removed: seq<Entry>,
                           failed: seq<Entry>, tried: seq<Entry>, faulty: string -> bool) {
    && files == before - Names(removed)
    && files == before - Names(Part(tried, faulty, false))
    && (scanned ==> removed == Part(tried, faulty, false) && failed == Part(tried, faulty, true))
  }

  lemma OneMoreTried(before: set<string>, files: set<string>, scanned: bool, removed: seq<Entry>,
                     failed: seq<Entry>, tried: seq<Entry>, faulty: string -> bool, e: Entry)
    requires Progress(before, files, scanned, removed, failed, tried, faulty) && (scanned ==> e.name in files)
    ensures if !faulty(e.name) && e.name in files
            then Progress(before, files - {e.name}, scanned, removed + [e], failed, tried + [e], faulty)
            else Progress(before, files, scanned, removed, failed + [e], tried + [e], faulty)
  {
    PartOneMore(tried, e, faulty);
    NamesOne(removed, e);
  }

  /** No earlier removal of a pass has taken the entry it has come to. */
  lemma StillThere(entries: seq<Entry>, files: set<string>, removed: seq<Entry>, i: nat)
    requires i < |entries| && forall e :: e in removed ==> e in entries[..i]
    ensures Scanned(entries, files) ==> entries[i].name in files - Names(removed)
  {
    if Scanned(entries, files) {
      assert entries[i] in entries;
      forall e | e in removed
        ensures e.name != entries[i].name
      {
        var j :| 0 <= j < i && entries[..i][j] == e;
      }
    }
  }

  lemma DoomedStep(entries: seq<Entry>, i: nat, held: set<string>, limit: nat, tried: seq<Entry>)
    requires i < |entries|
    ensures var e, rest := entries[i], entries[i + 1..];
            tried + Doomed(entries[i..], held, limit)
            == if !e.auto then tried + Doomed(rest, held, limit)
               else if limit > 0 then tried + Doomed(rest, held, limit - 1)
               else if e.name in held then tried + Doomed(rest, held, 0)
               else tried + [e] + Doomed(rest, held, 0)
  {
    assert entries[i..][1..] == entries[i + 1..];
  }

  function Names(es: seq<Entry>): set<string> {
    set e | e in es :: e.name
  }

  lemma NamesOne(es: seq<Entry>, e: Entry)
    ensures Names(es + [e]) == Names(es) + {e.name}
  {
  }

  /** `whole` is an interleaving of `a` and `b`. */
  ghost predicate Interleaved(a: seq<Entry>, b: seq<Entry>, whole: seq<Entry>) {
    if whole == [] then a == [] && b == []
    else
      var front, last := whole[..|whole| - 1], whole[|whole| - 1];
      || (a != [] && a[|a| - 1] == last && Interleaved(a[..|a| - 1], b, front))
      || (b != [] && b[|b| - 1] == last && Interleaved(a, b[..|b| - 1], front))
  }

  lemma InterleavedOneMore(a: seq<Entry>, b: seq<Entry>, whole: seq<Entry>, e: Entry)
    requires Interleaved(a, b, whole)
    ensures Interleaved(a + [e], b, whole + [e]) && Interleaved(a, b + [e], whole + [e])
  {
    assert (whole + [e])[..|whole|] == whole && (a + [e])[..|a|] == a && (b + [e])[..|b|] == b;
  }

  /** The entries a pass tries to remove: automatic, past the first `limit` automatic ones, not held. */
  function Doomed(entries: seq<Entry>, held: set<string>, limit: nat): seq<Entry>
    decreases |entries|
  {
    if entries == [] then []
    else if !entries[0].auto then Doomed(entries[1..], held, limit)
    else if limit > 0 then Doomed(entries[1..], held, limit - 1)
    else if entries[0].name in held then Doomed(entries[1..], held, 0)
    else [entries[0]] + Doomed(entries[1..], held, 0)
  }

  // ---------------------------------------------------------------- what survives

  function CountAuto(entries: seq<Entry>): nat {
    if entries == [] then 0 else CountAuto(entries[..|entries| - 1]) + if entries[|entries| - 1].auto then 1 else 0
  }

  lemma {:induction false} CountAutoCons(e: Entry, rest: seq<Entry>)
    ensures CountAuto([e] + rest) == (if e.auto then 1 else 0) + CountAuto(rest)
  {
    var all := [e] + rest;
    if rest == [] {
      assert all[..0] == [];
    } else {
      CountAutoCons(e, rest[..|rest| - 1]);
      assert all[..|all| - 1] == [e] + rest[..|rest| - 1];
    }
  }

  /** Which entries a pass goes for, one by one: automatic, unheld, and with at least `limit`
      automatic entries before it in the scan. */
  lemma {:induction false} DoomedExactly(entries: seq<Entry>, held: set<string>, limit: nat, e: Entry)
    ensures e in Doomed(entries, held, limit)
            <==> exists i :: && 0 <= i < |entries| && entries[i] == e && e.auto && e.name !in held
                             && CountAuto(entries[..i]) >= limit
    decreases |entries|
  {
    if entries == [] {
    } else {
      var first, rest := entries[0], entries[1..];
      var left := if first.auto && limit > 0 then limit - 1 else limit;
      DoomedExactly(rest, held, left, e);
      forall i | 0 <= i < |rest|
        ensures CountAuto(entries[..i + 1]) == (if first.auto then 1 else 0) + CountAuto(rest[..i])
      {
        assert entries[..i + 1] == [first] + rest[..i];
        CountAutoCons(first, rest[..i]);
      }
      if e in Doomed(rest, held, left) {
        var i :| 0 <= i < |rest| && rest[i] == e && e.auto && e.name !in held && CountAuto(rest[..i]) >= left;
        assert entries[i + 1] == e && CountAuto(entries[..i + 1]) >= limit;
      }
      if i :| 0 <= i < |entries| && entries[i] == e && e.auto && e.name !in held && CountAuto(entries[..i]) >= limit {
        assert entries[..0] == [];
        if i > 0 {
          assert rest[i - 1] == e;
          assert CountAuto(entries[..i - 1 + 1]) == (if first.auto then 1 else 0) + CountAuto(rest[..i - 1]);
          assert CountAuto(rest[..i - 1]) >= left;
        }
      }
    }
  }

  ghost predicate NewestFirst(entries: seq<Entry>) {
    forall i, j :: 0 <= i < j < |entries| ==> entries[i].modTime >= entries[j].modTime
  }

  /** The first `limit` automatic entries of the scan. */
  function Kept(entries: seq<Entry>, limit: nat): seq<Entry>
    decreases |entries|
  {
    if entries == [] || limit == 0 then []
    else if entries[0].auto then [entries[0]] + Kept(entries[1..], limit - 1)
    else Kept(entries[1..], limit)
  }

  function HeldPast(entries: seq<Entry>, held: set<string>, limit: nat): seq<Entry>
    decreases |entries|
  {
    if entries == [] then []
    else if entries[0].auto && limit == 0 && entries[0].name in held then [entries[0]] + HeldPast(entries[1..], held, 0)
    else HeldPast(entries[1..], held, if entries[0].auto && limit > 0 then limit - 1 else limit)
  }

  /** Every automatic entry is kept, held or doomed, and there are at most `limit` kept ones. */
  lemma {:induction false} AutoPartition(entries: seq<Entry>, held: set<string>, limit: nat)
    ensures |Kept(entries, limit)| <= limit
    ensures CountAuto(entries)
            == |Kept(entries, limit)| + |HeldPast(entries, held, limit)| + |Doomed(entries, held, limit)|
    decreases |entries|
  {
    if entries == [] {
    } else {
      var first, rest := entries[0], entries[1..];
      AutoPartition(rest, held, if first.auto && limit > 0 then limit - 1 else limit);
      assert entries == [first] + rest;
      CountAutoCons(first, rest);
      if limit == 0 {
        assert Kept(rest, 0) == [];
      }
    }
  }

  /** How many automatic entries of a scan are left among `files`. */
  function AutoLeft(entries: seq<Entry>, files: set<string>): nat {
    if entries == [] then 0
    else (if entries[0].auto && entries[0].name in files then 1 else 0) + AutoLeft(entries[1..], files)
  }

  /** Every automatic entry that a pass leaves in the directory is kept, held, or failed. */
  lemma {:induction false} LeftPartition(entries: seq<Entry>, held: set<string>, limit: nat, faulty: string -> bool,
                                         after: set<string>)
    requires forall i, j :: 0 <= i < j < |entries| ==> entries[i].name != entries[j].name
    requires forall e :: e in entries ==> (e.name in after <==> e !in Doomed(entries, held, limit) || faulty(e.name))
    ensures AutoLeft(entries, after)
            == |Kept(entries, limit)| + |HeldPast(entries, held, limit)|
               + |Part(Doomed(entries, held, limit), faulty, true)|
    decreases |entries|
  {
    if entries == [] {
    } else {
      var first, rest := entries[0], entries[1..];
      var left := if first.auto && limit > 0 then limit - 1 else limit;
      DoomedFromEntries(rest, held, left);
      assert first !in rest;
      LeftPartition(rest, held, left, faulty, after);
      PartCons(first, Doomed(rest, held, left), faulty);
      if limit == 0 {
        assert Kept(rest, 0) == [];
      }
    }
  }

  lemma {:induction false} PartCons(e: Entry, es: seq<Entry>, faulty: string -> bool)
    ensures |Part([e] + es, faulty, true)| == |Part(es, faulty, true)| + if faulty(e.name) then 1 else 0
  {
    if es == [] {
      assert ([e] + es)[..0] == [];
    } else {
      assert ([e] + es)[..|es|] == [e] + es[..|es| - 1];
      PartCons(e, es[..|es| - 1], faulty);
    }
  }

  lemma {:induction false} PartMembers(es: seq<Entry>, faulty: string -> bool, e: Entry)
    ensures e in Part(es, faulty, false) <==> e in es && !faulty(e.name)
  {
    if es == [] {
    } else {
      PartMembers(es[..|es| - 1], faulty, e);
      assert es == es[..|es| - 1] + [es[|es| - 1]];
    }
  }

  /** What a pass leaves in the directory, file by file: a scanned file survives if and only if it is
      not automatic, is held, has fewer than `limit` automatic ones before it in the scan, or could
      not be removed; and so at most `limit` + held + failed automatic ones are left. */
  lemma RetentionResult(entries: seq<Entry>, held: set<string>, limit: nat, faulty: string -> bool,
                        before: set<string>, after: set<string>)
    requires Scanned(entries, before) && after == before - Names(Part(Doomed(entries, held, limit), faulty, false))
    ensures forall i :: 0 <= i < |entries| ==>
              (entries[i].name in after
               <==> !entries[i].auto || entries[i].name in held || CountAuto(entries[..i]) < limit
                    || faulty(entries[i].name))
    ensures forall n :: n in before && n !in Names(entries) ==> n in after
    ensures AutoLeft(entries, after)
            <= limit + |HeldPast(entries, held, limit)| + |Part(Doomed(entries, held, limit), faulty, true)|
  {
    var doomed := Doomed(entries, held, limit);
    DoomedFromEntries(entries, held, limit);
    forall e | e in entries
      ensures e.name in after <==> e !in doomed || faulty(e.name)
    {
      GoneExactly(entries, held, limit, faulty, before, e);
    }
    forall i | 0 <= i < |entries|
      ensures entries[i] in doomed
              <==> entries[i].auto && entries[i].name !in held && CountAuto(entries[..i]) >= limit
    {
      DoomedAt(entries, held, limit, i);
    }
    forall n | n in before && n !in Names(entries)
      ensures n in after
    {
      OthersStay(entries, doomed, faulty, n);
    }
    LeftPartition(entries, held, limit, faulty, after);
    AutoPartition(entries, held, limit);
  }

  lemma OthersStay(entries: seq<Entry>, doomed: seq<Entry>, faulty: string -> bool, n: string)
    requires n !in Names(entries) && forall d :: d in doomed ==> d in entries
    ensures n !in Names(Part(doomed, faulty, false))
  {
    forall e | e in Part(doomed, faulty, false)
      ensures e.name != n
    {
      PartMembers(doomed, faulty, e);
      assert e in entries;
    }
  }

  lemma GoneExactly(entries: seq<Entry>, held: set<string>, limit: nat, faulty: string -> bool,
                    before: set<string>, e: Entry)
    requires Scanned(entries, before) && e in entries
    ensures e.name in before - Names(Part(Doomed(entries, held, limit), faulty, false))
            <==> e !in Doomed(entries, held, limit) || faulty(e.name)
  {
    var doomed := Doomed(entries, held, limit);
    DoomedFromEntries(entries, held, limit);
    PartMembers(doomed, faulty, e);
    forall d | d in Part(doomed, faulty, false) && d.name == e.name
      ensures d == e
    {
      PartMembers(doomed, faulty, d);
      var i :| 0 <= i < |entries| && entries[i] == e;
      var j :| 0 <= j < |entries| && entries[j] == d;
    }
  }

  lemma DoomedAt(entries: seq<Entry>, held: set<string>, limit: nat, i: nat)
    requires i < |entries| && forall j, k :: 0 <= j < k < |entries| ==> entries[j].name != entries[k].name
    ensures entries[i] in Doomed(entries, held, limit)
            <==> entries[i].auto && entries[i].name !in held && CountAuto(entries[..i]) >= limit
  {
    DoomedExactly(entries, held, limit, entries[i]);
  }

  /** Nothing newer than a kept automatic snapshot is removed. */
  lemma {:induction false} KeptAreNewest(entries: seq<Entry>, held: set<string>, limit: nat, k: Entry, d: Entry)
    requires NewestFirst(entries) && k in Kept(entries, limit) && d in Doomed(entries, held, limit)
    ensures k.modTime >= d.modTime
    decreases |entries|
  {
    var first, rest := entries[0], entries[1..];
    DoomedFromEntries(rest, held, if first.auto && limit > 0 then limit - 1 else limit);
    if first.auto {
      if k != first {
        KeptAreNewest(rest, held, limit - 1, k, d);
      } else {
        var j :| 0 <= j < |rest| && rest[j] == d;
        assert entries[j + 1] == d;
      }
    } else {
      KeptAreNewest(rest, held, limit, k, d);
    }
  }

  lemma {:induction false} DoomedFromEntries(entries: seq<Entry>, held: set<string>, limit: nat)
    ensures forall d :: d in Doomed(entries, held, limit) ==> d in entries
    decreases |entries|
  {
    if entries == [] {
    } else {
      DoomedFromEntries(entries[1..], held, if entries[0].auto && limit > 0 then limit - 1 else limit);
    }
  }

  // ---------------------------------------------------------------- prune

  datatype RemoveOutcome = Gone | NotFound | RemoveError

  datatype Report = Report(deleted: seq<string>, skipped: seq<string>, freed: nat)

  /** `prune` over its targets. `unreadable` is a failed claim scan, which skips everything;
      `remove` is what the file system answers for each name. */
  method RunPrune(targets: seq<Entry>, held: set<string>, unreadable: bool, dryRun: bool,
                  remove: string -> RemoveOutcome)
    returns (r: Report, didDelete: bool, errors: nat)
    ensures r
            == PruneReport(targets, (t: Entry) => unreadable || t.name in held,
                           (t: Entry) => dryRun || remove(t.name) == Gone)
    ensures didDelete <==> !dryRun && r.deleted != []
    ensures errors
            == Count(targets, (t: Entry) => !unreadable && t.name !in held && !dryRun && remove(t.name).RemoveError?)
  {
    r, didDelete, errors := Report([], [], 0), false, 0;
    ghost var skip := (t: Entry) => unreadable || t.name in held;
    ghost var done := (t: Entry) => dryRun || remove(t.name) == Gone;
    ghost var failing := (t: Entry) => !unreadable && t.name !in held && !dryRun && remove(t.name).RemoveError?;
    var i := 0;
    while i < |targets|
      invariant 0 <= i <= |targets|
      invariant r == PruneReport(targets[..i], skip, done)
      invariant didDelete <==> !dryRun && r.deleted != []
      invariant errors == Count(targets[..i], failing)
    {
      var t := targets[i];
      assert targets[..i + 1][..i] == targets[..i];
      i := i + 1;
      if unreadable || t.name in held {
        r := r.(skipped := r.skipped + [t.name]);
        continue;
      }
      if !dryRun {
        match remove(t.name) {
          case NotFound => continue;
          case RemoveError =>
            errors := errors + 1;
            continue;
          case Gone => didDelete := true;
        }
      }
      r := r.(deleted := r.deleted + [t.name], freed := r.freed + t.size);
    }
    assert targets[..i] == targets;
  }

  function Count(es: seq<Entry>, p: Entry -> bool): nat {
    if es == [] then 0 else Count(es[..|es| - 1], p) + if p(es[|es| - 1]) then 1 else 0
  }

  function PruneReport(targets: seq<Entry>, skip: Entry -> bool, done: Entry -> bool): Report {
    if targets == [] then Report([], [], 0)
    else
      var front, t := PruneReport(targets[..|targets| - 1], skip, done), targets[|targets| - 1];
      if skip(t) then front.(skipped := front.skipped + [t.name])
      else if done(t) then front.(deleted := front.deleted + [t.name], freed := front.freed + t.size)
      else front
  }

  /** What the report says of one target: it is skipped, or deleted with its size freed, or neither. */
  lemma ReportOne(t: Entry, skip: Entry -> bool, done: Entry -> bool)
    ensures PruneReport([t], skip, done)
            == if skip(t) then Report([], [t.name], 0) else if done(t) then Report([t.name], [], t.size)
               else Report([], [], 0)
  {
    assert [t][..0] == [];
  }

  /** And of several, one after the other. */
  lemma {:induction false} ReportMore(ts: seq<Entry>, us: seq<Entry>, skip: Entry -> bool, done: Entry -> bool)
    ensures var a, b := PruneReport(ts, skip, done), PruneReport(us, skip, done);
            PruneReport(ts + us, skip, done) == Report(a.deleted + b.deleted, a.skipped + b.skipped, a.freed + b.freed)
    decreases |us|
  {
    if us == [] {
      assert ts + us == ts;
    } else {
      var front, u := us[..|us| - 1], us[|us| - 1];
      ReportMore(ts, front, skip, done);
      assert (ts + us)[..|ts + us| - 1] == ts + front;
    }
  }

  /** So many targets are counted as there are that fail. */
  lemma {:induction false} CountIs(ts: seq<Entry>, p: Entry -> bool)
    ensures Count(ts, p) == |set i | 0 <= i < |ts| && p(ts[i])|
  {
    var all := set i | 0 <= i < |ts| && p(ts[i]);
    if ts == [] {
      assert all == {};
    } else {
      var m := |ts| - 1;
      var front := ts[..m];
      CountIs(front, p);
      var most := set i | 0 <= i < |front| && p(front[i]);
      assert all == if p(ts[m]) then most + {m} else most;
    }
  }

  /** A dry run (`done` always true) reports what a real run does if and only if every target the
      real run gets to removing is really removed; what is skipped never differs. */
  lemma {:induction false} DryRunAgrees(targets: seq<Entry>, skip: Entry -> bool, done: Entry -> bool)
    ensures var dry, wet := PruneReport(targets, skip, (t: Entry) => true), PruneReport(targets, skip, done);
            && (dry == wet <==> forall t :: t in targets && !skip(t) ==> done(t))
            && (dry == wet <==> |dry.deleted| == |wet.deleted|) && |wet.deleted| <= |dry.deleted|
            && wet.skipped == dry.skipped
  {
    if targets == [] {
    } else {
      var front, t := targets[..|targets| - 1], targets[|targets| - 1];
      DryRunAgrees(front, skip, done);
      assert forall x :: x in targets <==> x in front || x == t by {
        assert targets == front + [t];
      }
    }
  }
}
