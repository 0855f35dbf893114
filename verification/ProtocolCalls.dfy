/** What the calls of the snapshot directory protocol bring about: a publication that finds the least free
    name, a pass that removes what nobody alive claims, sweeps, and the contents of the files. */
module ProtocolCalls {
  import opened Options
  import opened Names
  import opened Protocol

  lemma {:induction false} AfterBoth(s: State, a: seq<Action>, b: seq<Action>)
    ensures After(s, a + b) == After(After(s, a), b)
    decreases |b|
  {
    if b == [] {
      assert a + b == a;
    } else {
      assert (a + b)[..|a + b| - 1] == a + b[..|b| - 1];
      AfterBoth(s, a, b[..|b| - 1]);
    }
  }

  lemma AfterTwo(s: State, a: Action, b: Action)
    ensures After(s, [a, b]) == Next(Next(s, a), b)
  {
    assert [a, b][..1] == [a] && [a][..0] == [];
    assert After(s, [a]) == Next(s, a);
  }

  // ---------------------------------------------------------------- publishing

  /** A session's file is finished, and it is about to claim and link candidate `k`. */
  predicate Publishing(s: State, p: Pid, stamp: string, k: nat) {
    && p in s.procs && !s.procs[p].headless
    && s.procs[p].job.Trying? && s.procs[p].job.stamp == stamp && s.procs[p].job.k == k && !s.procs[p].job.claimed
    && Wip(s.procs[p].job.token, p) in s.dir && s.dir[Wip(s.procs[p].job.token, p)] in s.disk
  }

  /** Claiming and linking, so many times. */
  function Attempts(p: Pid, n: nat): seq<Action> {
    if n == 0 then [] else [Publish(p, Preclaim), Publish(p, Link)] + Attempts(p, n - 1)
  }

  /** The state in which candidate `k` has been found taken: it is claimed no longer, and the next one is up. */
  predicate Onward(s: State, t: State, p: Pid, k: nat)
    requires p in s.procs && s.procs[p].job.Trying?
  {
    var job := s.procs[p].job;
    && t.dir == s.dir && t.disk == s.disk && t.claims == s.claims[p := Auto(job.stamp, k)] && t.passes == s.passes
    && t.condemned == s.condemned
    && t.procs == s.procs[p := Proc(false, None, if k < 18446744073709551615
                                                 then Trying(job.token, job.ino, job.stamp, k + 1, false) else NoJob)]
  }

  lemma TakenCandidate(s: State, p: Pid, stamp: string, k: nat)
    requires Publishing(s, p, stamp, k) && Auto(stamp, k) in s.dir && k <= 18446744073709551615
    ensures Onward(s, Next(Next(s, Publish(p, Preclaim)), Publish(p, Link)), p, k)
  {
    var claimed := Next(s, Publish(p, Preclaim));
    assert MayPublish(claimed, p, Link);
    var last := Next(claimed, Publish(p, Link));
    assert claimed.procs[p := last.procs[p]] == s.procs[p := last.procs[p]];
  }

  /** The state in which candidate `k` has been linked: claimed, bound, and the file knows its name. */
  predicate Bound(s: State, t: State, p: Pid, k: nat)
    requires p in s.procs && s.procs[p].job.Trying?
  {
    var job := s.procs[p].job;
    var name := Auto(job.stamp, k);
    && Wip(job.token, p) in s.dir && s.dir[Wip(job.token, p)] in s.disk
    && var ino := s.dir[Wip(job.token, p)];
       && t.dir == s.dir[name := ino] && t.disk == s.disk[ino := s.disk[ino].(published := Some(name))]
       && t.claims == s.claims[p := name] && t.passes == s.passes && t.condemned == s.condemned
       && t.procs == s.procs[p := Proc(false, None, Linked(job.token, ino, name))]
  }

  lemma FreeCandidate(s: State, p: Pid, stamp: string, k: nat)
    requires Publishing(s, p, stamp, k) && Auto(stamp, k) !in s.dir
    ensures Bound(s, Next(Next(s, Publish(p, Preclaim)), Publish(p, Link)), p, k)
  {
    var claimed := Next(s, Publish(p, Preclaim));
    assert MayPublish(claimed, p, Link);
  }

  lemma AttemptsSplit(s: State, p: Pid, n: nat)
    requires n > 0
    ensures After(s, Attempts(p, n)) == After(Next(Next(s, Publish(p, Preclaim)), Publish(p, Link)), Attempts(p, n - 1))
  {
    AfterBoth(s, [Publish(p, Preclaim), Publish(p, Link)], Attempts(p, n - 1));
    AfterTwo(s, Publish(p, Preclaim), Publish(p, Link));
  }

  lemma NextCandidate(s: State, t: State, p: Pid, stamp: string, k: nat)
    requires Publishing(s, p, stamp, k) && Onward(s, t, p, k) && k < 18446744073709551615
    ensures Publishing(t, p, stamp, k + 1) && t.dir == s.dir
  {
  }

  lemma BoundLater(s: State, t: State, u: State, p: Pid, stamp: string, k: nat, m: nat)
    requires Publishing(s, p, stamp, k) && Onward(s, t, p, k) && k < 18446744073709551615 && Bound(t, u, p, m)
    ensures Bound(s, u, p, m)
  {
    assert t.claims[p := Auto(stamp, m)] == s.claims[p := Auto(stamp, m)];
    assert t.procs[p := u.procs[p]] == s.procs[p := u.procs[p]];
  }

  /** A session that nobody disturbs publishes under the least free candidate: it claims and tries one after
      the other, and ends with that name claimed, bound to its file and known to it. */
  lemma {:induction false} LinksLeastFree(s: State, p: Pid, stamp: string, k: nat, m: nat)
    requires Publishing(s, p, stamp, k) && k <= m <= 18446744073709551615
    requires (forall j :: k <= j < m ==> Auto(stamp, j) in s.dir) && Auto(stamp, m) !in s.dir
    ensures Bound(s, After(s, Attempts(p, m - k + 1)), p, m)
    decreases m - k
  {
    hide Next, After, Attempts, Publishing, Onward, Bound;
    AttemptsSplit(s, p, m - k + 1);
    var t := Next(Next(s, Publish(p, Preclaim)), Publish(p, Link));
    if k == m {
      FreeCandidate(s, p, stamp, k);
      NoAttempts(t, p);
    } else {
      TakenCandidate(s, p, stamp, k);
      NextCandidate(s, t, p, stamp, k);
      LinksLeastFree(t, p, stamp, k + 1, m);
      BoundLater(s, t, After(t, Attempts(p, m - k)), p, stamp, k, m);
    }
  }

  lemma NoAttempts(s: State, p: Pid)
    ensures After(s, Attempts(p, 0)) == s
  {
  }

  /** And with all names taken it gives up, with nothing bound. */
  lemma {:induction false} GivesUpAtLast(s: State, p: Pid, stamp: string, k: nat)
    requires Publishing(s, p, stamp, k) && k <= 18446744073709551615
    requires forall j :: k <= j <= 18446744073709551615 ==> Auto(stamp, j) in s.dir
    ensures var t := After(s, Attempts(p, 18446744073709551615 - k + 1));
            t.dir == s.dir && t.disk == s.disk && p in t.procs && t.procs[p].job == NoJob
    decreases 18446744073709551615 - k
  {
    hide Next, After;
    AttemptsSplit(s, p, 18446744073709551615 - k + 1);
    TakenCandidate(s, p, stamp, k);
    var t := Next(Next(s, Publish(p, Preclaim)), Publish(p, Link));
    if k < 18446744073709551615 {
      NextCandidate(s, t, p, stamp, k);
      GivesUpAtLast(t, p, stamp, k + 1);
    } else {
      NoAttempts(t, p);
    }
  }

  /** A file whose work-in-progress name is gone cannot be linked: the publication ends, with nothing bound. */
  lemma LinkFails(s: State, p: Pid)
    requires p in s.procs && s.procs[p].job.Trying? && (s.procs[p].headless || s.procs[p].job.claimed)
    requires var wip := Wip(s.procs[p].job.token, p); wip in s.dir ==> s.dir[wip] !in s.disk
    ensures Next(s, Publish(p, Link)) == s.(procs := s.procs[p := s.procs[p].(job := NoJob)])
  {
    assert MayPublish(s, p, Link);
  }

  /** Until its file is linked a process can give it up, leaving it or removing it. */
  lemma GivesUp(s: State, p: Pid)
    requires p in s.procs && (s.procs[p].job.Fetching? || s.procs[p].job.Trying?)
    ensures var gone := s.(procs := s.procs[p := s.procs[p].(job := NoJob)]);
            && Next(s, Publish(p, Abort)) == gone
            && Next(s, Publish(p, Discard)) == gone.(dir := s.dir - {Wip(s.procs[p].job.token, p)})
  {
    assert MayPublish(s, p, Abort) && MayPublish(s, p, Discard);
  }

  /** A session claims the file it shows, or none, while it is idle or fetches; another file than its own is
      no backing of its own. */
  lemma ClaimsShown(s: State, p: Pid, claim: Option<FileName>)
    requires p in s.procs && !s.procs[p].headless
    ensures var t, proc := Next(s, Publish(p, SetClaim(claim))), s.procs[p];
            if !proc.job.NoJob? && !proc.job.Fetching? then t == s
            else
              && t == s.(claims := t.claims, procs := t.procs)
              && t.claims == (if claim.Some? then s.claims[p := claim.value] else s.claims - {p})
              && t.procs == s.procs[p := if proc.backing.Some? && claim == Some(proc.backing.value.name) then proc
                                         else proc.(backing := None)]
  {
    if s.procs[p].job.NoJob? || s.procs[p].job.Fetching? {
      assert MayPublish(s, p, SetClaim(claim));
      assert s.procs[p := s.procs[p]] == s.procs;
    }
  }

  // ---------------------------------------------------------------- contents

  /** What an action appends to file `ino`. */
  function Appends(s: State, a: Action, ino: Inode): string {
    if a.Publish? && a.op.Append? && a.p in s.procs && s.procs[a.p].job.Fetching? && s.procs[a.p].job.ino == ino
    then a.op.data else ""
  }

  function Appended(s: State, run: seq<Action>, ino: Inode): string {
    if run == [] then ""
    else Appended(s, run[..|run| - 1], ino) + Appends(After(s, run[..|run| - 1]), run[|run| - 1], ino)
  }

  lemma ContentStep(s: State, a: Action, ino: Inode)
    requires ino in s.disk
    ensures ino in Next(s, a).disk && Next(s, a).disk[ino].content == s.disk[ino].content + Appends(s, a, ino)
  {
    if a.Publish? {
      if MayPublish(s, a.p, a.op) {
        PublishContent(s, a.p, a.op, ino);
      } else {
        assert a.op.Append? && a.p in s.procs && s.procs[a.p].job.Fetching? ==> s.procs[a.p].job.ino != ino;
      }
    } else {
      OtherContent(s, a);
    }
  }

  lemma PublishContent(s: State, p: Pid, op: PublishOp, ino: Inode)
    requires ino in s.disk && MayPublish(s, p, op)
    ensures var t := PublishStep(s, p, op);
            ino in t.disk && t.disk[ino].content == s.disk[ino].content + Appends(s, Publish(p, op), ino)
  {
    assert s.disk[ino].content + "" == s.disk[ino].content;
  }

  lemma OtherContent(s: State, a: Action)
    requires !a.Publish?
    ensures Next(s, a).disk == s.disk
  {
    if a.Delete? && MayPass(s, a.q, a.step) {
      PassContent(s, a.q, a.step);
    }
  }

  lemma PassContent(s: State, q: PassId, op: PassOp)
    requires MayPass(s, q, op)
    ensures PassStep(s, q, op).disk == s.disk
  {
  }

  /** In every run a file holds what it held, and after that exactly what its writer has appended, in order:
      no other process and no publication changes it. */
  lemma {:induction false} ContentsAppended(s: State, run: seq<Action>, ino: Inode)
    requires ino in s.disk
    ensures var t := After(s, run);
            ino in t.disk && t.disk[ino].content == s.disk[ino].content + Appended(s, run, ino)
    decreases |run|
  {
    if run == [] {
      assert s.disk[ino].content + "" == s.disk[ino].content;
    } else {
      var front, a := run[..|run| - 1], run[|run| - 1];
      ContentsAppended(s, front, ino);
      ContentStep(After(s, front), a, ino);
      Joins(s.disk[ino].content, Appended(s, front, ino), Appends(After(s, front), a, ino));
    }
  }

  lemma Joins(a: string, b: string, c: string)
    ensures (a + b) + c == a + (b + c)
  {
  }

  // ---------------------------------------------------------------- a pass by itself

  /** What a pass has found out once it has read the claims of `ps`. */
  ghost predicate Knows(s: State, t: State, q: PassId, n: FileName, ps: set<Pid>) {
    && n in s.dir && q in t.passes && t == s.(passes := s.passes[q := t.passes[q]])
    && var pass := t.passes[q];
       && !pass.scanning && pass.seen == map[n := s.dir[n]] && pass.pending == s.claims.Keys - ps && pass.unread == {}
       && forall m :: m in pass.held <==> exists p :: p in ps && p in s.procs && p in s.claims && s.claims[p] == m
  }

  function Reads(q: PassId, order: seq<Pid>): seq<Action> {
    if order == [] then [] else Reads(q, order[..|order| - 1]) + [Delete(q, ReadClaim(order[|order| - 1], true))]
  }

  lemma ReadsOne(s: State, t: State, q: PassId, n: FileName, ps: set<Pid>, p: Pid)
    requires Knows(s, t, q, n, ps) && p in s.claims && p !in ps
    ensures Knows(s, Next(t, Delete(q, ReadClaim(p, true))), q, n, ps + {p})
  {
    assert MayPass(t, q, ReadClaim(p, true));
    var u := Next(t, Delete(q, ReadClaim(p, true)));
    assert t.passes[q := u.passes[q]] == s.passes[q := u.passes[q]];
    assert s.claims.Keys - ps - {p} == s.claims.Keys - (ps + {p});
    forall m
      ensures m in u.passes[q].held
              <==> exists o :: o in ps + {p} && o in s.procs && o in s.claims && s.claims[o] == m
    {
      if p in s.procs && s.claims[p] == m {
        assert p in ps + {p};
      }
      if o :| o in ps && o in s.procs && o in s.claims && s.claims[o] == m {
        assert o in ps + {p};
      }
    }
  }

  predicate Once(order: seq<Pid>) {
    forall i, j :: 0 <= i < j < |order| ==> order[i] != order[j]
  }

  function Pids(order: seq<Pid>): set<Pid> {
    set p | p in order
  }

  lemma {:induction false} ReadsAll(s: State, t: State, q: PassId, n: FileName, order: seq<Pid>)
    requires Knows(s, t, q, n, {}) && Once(order) && Pids(order) <= s.claims.Keys
    ensures Knows(s, After(t, Reads(q, order)), q, n, Pids(order))
    decreases |order|
  {
    if order == [] {
    } else {
      var front, p := order[..|order| - 1], order[|order| - 1];
      assert order == front + [p];
      assert Pids(order) == Pids(front) + {p};
      ReadsAll(s, t, q, n, front);
      AfterBoth(t, Reads(q, front), [Delete(q, ReadClaim(p, true))]);
      assert [Delete(q, ReadClaim(p, true))][..0] == [];
      assert p in s.claims.Keys && p !in Pids(front);
      ReadsOne(s, After(t, Reads(q, front)), q, n, Pids(front), p);
    }
  }

  /** The scan of a pass that looks at one file. */
  lemma Scans(s: State, q: PassId, n: FileName)
    requires q !in s.passes && n in s.dir && n.Auto?
    ensures Knows(s, Next(Next(Next(s, Begin(q)), Delete(q, See(n))), Delete(q, ListClaims)), q, n, {})
  {
    var begun := Next(s, Begin(q));
    assert MayPass(begun, q, See(n));
    var seen := Next(begun, Delete(q, See(n)));
    assert MayPass(seen, q, ListClaims);
    var t := Next(seen, Delete(q, ListClaims));
    assert s.passes[q := begun.passes[q]][q := seen.passes[q]][q := t.passes[q]] == s.passes[q := t.passes[q]];
  }

  /** A live process claims the name. */
  predicate Claimed(s: State, n: FileName) {
    exists p :: p in s.procs && p in s.claims && s.claims[p] == n
  }

  lemma RemovesAndEnds(s: State, t: State, q: PassId, n: FileName)
    requires q !in s.passes && Knows(s, t, q, n, s.claims.Keys)
    ensures Next(Next(t, Delete(q, Remove(n))), Delete(q, End))
            == s.(dir := if Claimed(s, n) then s.dir else s.dir - {n})
  {
    assert n in t.passes[q].held <==> Claimed(s, n);
    var removed := Next(t, Delete(q, Remove(n)));
    assert t.passes[q].pending == {};
    assert MayPass(removed, q, End);
    assert removed.passes - {q} == s.passes;
  }

  /** A pass that runs by itself and reads every claim removes the automatic file it looks at if and only if
      no live process claims it, whatever dead ones claim, and changes nothing else. */
  lemma PassAlone(s: State, q: PassId, n: FileName, order: seq<Pid>)
    requires q !in s.passes && n in s.dir && n.Auto? && Once(order) && Pids(order) == s.claims.Keys
    ensures After(s, [Begin(q), Delete(q, See(n))] + [Delete(q, ListClaims)] + Reads(q, order)
                     + [Delete(q, Remove(n)), Delete(q, End)])
            == s.(dir := if Claimed(s, n) then s.dir else s.dir - {n})
  {
    var scan, list := [Begin(q), Delete(q, See(n))], [Delete(q, ListClaims)];
    AfterBoth(s, scan + list + Reads(q, order), [Delete(q, Remove(n)), Delete(q, End)]);
    AfterBoth(s, scan + list, Reads(q, order));
    AfterBoth(s, scan, list);
    AfterTwo(s, Begin(q), Delete(q, See(n)));
    assert list[..0] == [];
    Scans(s, q, n);
    var t := After(s, scan + list);
    ReadsAll(s, t, q, n, order);
    AfterTwo(After(t, Reads(q, order)), Delete(q, Remove(n)), Delete(q, End));
    RemovesAndEnds(s, After(t, Reads(q, order)), q, n);
  }

  /** A pass tries each file it saw once: to remove it again it would have to see it again, which it cannot
      once it has listed the claims. */
  lemma TriesOnce(s: State, q: PassId, n: FileName, op: PassOp)
    requires (op == Remove(n) || op == Sweep(n)) && MayPass(s, q, op)
    ensures var t := Next(s, Delete(q, op));
            && t == s.(dir := s.dir - {n}, passes := s.passes[q := s.passes[q].(seen := s.passes[q].seen - {n})])
            && !MayPass(t, q, Remove(n)) && !MayPass(t, q, Sweep(n))
            && (!s.passes[q].scanning ==> !MayPass(t, q, See(n)))
  {
  }

  // ---------------------------------------------------------------- sweeps and ends

  /** A sweep by itself removes a work-in-progress file if and only if its owner is dead. */
  lemma SweepAlone(s: State, q: PassId, n: FileName)
    requires q !in s.passes && n in s.dir && n.Wip?
    ensures Next(Next(Next(Next(s, Begin(q)), Delete(q, See(n))), Delete(q, Sweep(n))), Delete(q, End))
            == s.(dir := if n.pid in s.procs then s.dir else s.dir - {n})
  {
    var begun := Next(s, Begin(q));
    var seen := Next(begun, Delete(q, See(n)));
    assert MayPass(begun, q, See(n)) <==> n.pid !in s.procs;
    var swept := Next(seen, Delete(q, Sweep(n)));
    assert MayPass(seen, q, Sweep(n)) <==> n.pid !in s.procs;
    assert MayPass(swept, q, End);
    assert swept.passes - {q} == s.passes;
  }

  /** A claim sweep by itself removes a claim file if and only if its owner is dead, and may die before it
      does. */
  lemma ClaimSweepAlone(s: State, p: Pid)
    requires s.condemned[p] == 0
    ensures Next(Next(s, Condemn(p)), SweepClaim(p)) == if p in s.procs then s else s.(claims := s.claims - {p})
    ensures Next(Next(s, Condemn(p)), Spare(p)) == s
  {
    var condemned := Next(s, Condemn(p));
    assert condemned.condemned - multiset{p} == s.condemned;
  }

  /** A process that is killed leaves its files and its claim; and its pid may start again. */
  lemma KilledLeaves(s: State, p: Pid, headless: bool)
    requires p in s.procs
    ensures Next(s, Kill(p)) == s.(procs := s.procs - {p})
    ensures Next(Next(s, Kill(p)), Start(p, headless)) == s.(procs := s.procs[p := Proc(headless, None, NoJob)])
  {
    assert (s.procs - {p})[p := Proc(headless, None, NoJob)] == s.procs[p := Proc(headless, None, NoJob)];
  }
}
