/** What every run of the snapshot directory protocol keeps. */
module ClaimProtection {
  import opened Options
  import opened Names
  import opened Protocol

  // ---------------------------------------------------------------- runs

  /** An action rule that is obeyed at every step of a run. */
  ghost predicate Along(rule: (State, Action) -> bool, s: State, run: seq<Action>) {
    if run == [] then true
    else Along(rule, s, run[..|run| - 1]) && rule(After(s, run[..|run| - 1]), run[|run| - 1])
  }

  /** No process starts under a pid whose claim file a sweep is about to remove. */
  predicate SafeStart(s: State, a: Action) {
    a.Start? && a.p !in s.procs ==> s.condemned[a.p] == 0
  }

  predicate HasName(j: Job) {
    j.Linked? || j.Owned?
  }

  /** Besides, no name is bound again while a pass that saw an earlier file under it is running, nor
      while a headless query may still remove its own earlier file under it. */
  predicate Unreused(s: State, a: Action) {
    && SafeStart(s, a)
    && match a
       case Publish(p, Link) =>
         p in s.procs && s.procs[p].job.Trying? && Candidate(s.procs[p].job) !in s.dir ==>
           var n := Candidate(s.procs[p].job);
           && (forall q :: q in s.passes ==> n !in s.passes[q].seen)
           && (forall h :: h in s.procs && HasName(s.procs[h].job) ==> s.procs[h].job.name != n)
       case Publish(p, CreateWip(token, _)) => forall q :: q in s.passes ==> Wip(token, p) !in s.passes[q].seen
       case _ => true
  }

  // ---------------------------------------------------------------- invariants

  predicate Bears(file: File, n: FileName) {
    match n
    case Auto(_, _) => file.published == Some(n)
    case Wip(_, _) => file.wip == n
    case Claim(_) => true
  }

  /** Every name leads to a file that was given that name. */
  ghost predicate Known(disk: map<Inode, File>, m: map<FileName, Inode>) {
    forall n :: n in m ==> m[n] in disk && Bears(disk[m[n]], n)
  }

  ghost predicate AllKnown(s: State) {
    && Known(s.disk, s.dir)
    && forall q :: q in s.passes ==> Known(s.disk, s.passes[q].seen)
  }

  predicate FileOf(disk: map<Inode, File>, p: Pid, ino: Inode, published: Option<FileName>) {
    ino in disk && disk[ino].owner == p && disk[ino].published == published
  }

  predicate OwnWip(s: State, p: Pid, token: string, ino: Inode) {
    && ino in s.disk && s.disk[ino].wip == Wip(token, p)
    && (Wip(token, p) in s.dir ==> s.dir[Wip(token, p)] == ino)
  }

  /** A process's job and backing are about its own files: unpublished until linked, then
      published under the linked name. */
  predicate JobOk(s: State, p: Pid, proc: Proc) {
    && (match proc.job
        case NoJob => true
        case Fetching(token, ino) => FileOf(s.disk, p, ino, None) && OwnWip(s, p, token, ino)
        case Trying(token, ino, _, _, _) => FileOf(s.disk, p, ino, None) && OwnWip(s, p, token, ino)
        case Linked(token, ino, name) => name.Auto? && FileOf(s.disk, p, ino, Some(name)) && OwnWip(s, p, token, ino)
        case Owned(name, ino) => name.Auto? && proc.headless && FileOf(s.disk, p, ino, Some(name)))
    && (proc.backing.Some? ==>
          var b := proc.backing.value;
          !proc.headless && b.name.Auto? && FileOf(s.disk, p, b.ino, Some(b.name)))
  }

  /** The name a TUI session must have claimed. */
  function MustClaim(proc: Proc): Option<FileName> {
    if proc.headless then None
    else if proc.job.Trying? && proc.job.claimed then Some(Candidate(proc.job))
    else if proc.job.Linked? then Some(proc.job.name)
    else if proc.backing.Some? then Some(proc.backing.value.name)
    else None
  }

  predicate ClaimOk(s: State, p: Pid, proc: Proc) {
    && s.condemned[p] == 0
    && (MustClaim(proc).Some? ==> p in s.claims && s.claims[p] == MustClaim(proc).value)
    && (proc.job.Linked? || (proc.job.Trying? && proc.job.claimed) ==> proc.backing.None?)
  }

  ghost predicate AllJobsOk(s: State) {
    forall p :: p in s.procs ==> JobOk(s, p, s.procs[p])
  }

  ghost predicate AllClaimsOk(s: State) {
    forall p :: p in s.procs ==> ClaimOk(s, p, s.procs[p])
  }

  /** `ino`, under `n`, is what a live TUI session has published: linked already, or its backing. */
  predicate Live(proc: Proc, n: FileName, ino: Inode) {
    && !proc.headless
    && (proc.backing == Some(Backing(n, ino)) || (proc.job.Linked? && proc.job.name == n && proc.job.ino == ino))
  }

  predicate Protected(disk: map<Inode, File>, procs: map<Pid, Proc>, n: FileName, ino: Inode) {
    ino in disk && disk[ino].owner in procs && Live(procs[disk[ino].owner], n, ino)
  }

  /** A live session's file that a pass saw is still safe from it: it has not listed the claims, or
      has yet to read the session's claim, or knows that the name is held. Or it could not read the
      claim, and then it is not safe. */
  ghost predicate PassOk(disk: map<Inode, File>, procs: map<Pid, Proc>, pass: Pass) {
    forall n :: n in pass.seen && n.Auto? && Protected(disk, procs, n, pass.seen[n]) ==>
      || pass.scanning || disk[pass.seen[n]].owner in pass.pending || n in pass.held
      || disk[pass.seen[n]].owner in pass.unread
  }

  ghost predicate AllPassesOk(s: State) {
    forall q :: q in s.passes ==> PassOk(s.disk, s.procs, s.passes[q])
  }

  ghost predicate Inv(s: State) {
    AllKnown(s) && AllJobsOk(s) && AllClaimsOk(s) && AllPassesOk(s)
  }

  /** A directory of finished files, with no process or pass yet. */
  ghost predicate Init(s: State) {
    s.procs == map[] && s.passes == map[] && s.condemned == multiset{} && Known(s.disk, s.dir)
  }

  // ---------------------------------------------------------------- files only grow

  /** Files keep their owner and names, and once published, everything. */
  ghost predicate Grows(d: map<Inode, File>, e: map<Inode, File>) {
    forall i :: i in d ==>
      && i in e && e[i].owner == d[i].owner && e[i].wip == d[i].wip
      && (d[i].published.Some? ==> e[i] == d[i])
  }

  lemma KnownGrows(d: map<Inode, File>, e: map<Inode, File>, m: map<FileName, Inode>)
    requires Grows(d, e) && Known(d, m)
    ensures Known(e, m)
  {
  }

  lemma PublishGrows(s: State, p: Pid, op: PublishOp)
    requires MayPublish(s, p, op) && JobOk(s, p, s.procs[p])
    ensures Grows(s.disk, PublishStep(s, p, op).disk)
  {
    match op
    case Link =>
    case Append(_) =>
    case CreateWip(_, _) =>
    case _ => assert PublishStep(s, p, op).disk == s.disk;
  }

  /** No name is bound anew. */
  ghost predicate Shrinks(dir: map<FileName, Inode>, after: map<FileName, Inode>) {
    forall n :: n in after ==> n in dir && after[n] == dir[n]
  }

  lemma PublishShrinks(s: State, p: Pid, op: PublishOp)
    requires MayPublish(s, p, op) && !op.Link? && !op.CreateWip?
    ensures Shrinks(s.dir, PublishStep(s, p, op).dir)
  {
  }

  lemma LinkKnown(s: State, p: Pid)
    requires MayPublish(s, p, Link) && JobOk(s, p, s.procs[p])
    requires Known(s.disk, s.dir) && Known(LinkStep(s, p).disk, s.dir)
    ensures Known(LinkStep(s, p).disk, LinkStep(s, p).dir)
  {
  }

  lemma PublishKnown(s: State, p: Pid, op: PublishOp)
    requires MayPublish(s, p, op) && JobOk(s, p, s.procs[p]) && AllKnown(s)
    ensures AllKnown(PublishStep(s, p, op))
  {
    var t := PublishStep(s, p, op);
    PublishGrows(s, p, op);
    PublishAlone(s, p, op);
    KnownGrows(s.disk, t.disk, s.dir);
    forall q | q in s.passes ensures Known(t.disk, s.passes[q].seen) {
      KnownGrows(s.disk, t.disk, s.passes[q].seen);
    }
    PublishNames(s, p, op);
  }

  lemma PublishNames(s: State, p: Pid, op: PublishOp)
    requires MayPublish(s, p, op) && JobOk(s, p, s.procs[p])
    requires Known(s.disk, s.dir) && Known(PublishStep(s, p, op).disk, s.dir)
    ensures Known(PublishStep(s, p, op).disk, PublishStep(s, p, op).dir)
  {
    if op.Link? {
      LinkKnown(s, p);
    } else if !op.CreateWip? {
      PublishShrinks(s, p, op);
    }
  }

  lemma PassKnown(s: State, q: PassId, op: PassOp)
    requires MayPass(s, q, op) && AllKnown(s)
    ensures AllKnown(PassStep(s, q, op))
  {
  }

  lemma StepKnown(s: State, a: Action)
    requires AllKnown(s) && AllJobsOk(s)
    ensures AllKnown(Next(s, a)) && Grows(s.disk, Next(s, a).disk)
  {
    if Enabled(s, a) {
      match a
      case Publish(p, op) =>
        PublishKnown(s, p, op);
        PublishGrows(s, p, op);
      case Delete(q, op) => PassKnown(s, q, op);
      case Begin(_) =>
      case _ => assert Next(s, a).passes == s.passes && Next(s, a).dir == s.dir;
    }
  }

  // ---------------------------------------------------------------- processes

  /** From `s` to `t` nothing happened to `p`'s files, save that names may have been removed. */
  ghost predicate Untouched(s: State, t: State, p: Pid) {
    && (forall i :: i in s.disk && s.disk[i].owner == p ==> i in t.disk && t.disk[i] == s.disk[i])
    && (forall token :: Wip(token, p) in t.dir ==>
          Wip(token, p) in s.dir && t.dir[Wip(token, p)] == s.dir[Wip(token, p)])
  }

  lemma JobStable(s: State, t: State, p: Pid, proc: Proc)
    requires Untouched(s, t, p) && JobOk(s, p, proc)
    ensures JobOk(t, p, proc)
  {
  }

  lemma PublishOthers(s: State, p: Pid, op: PublishOp, other: Pid)
    requires MayPublish(s, p, op) && JobOk(s, p, s.procs[p]) && other != p
    ensures Untouched(s, PublishStep(s, p, op), other)
  {
    match op
    case Link =>
    case CreateWip(_, _) =>
    case Append(_) =>
    case Unlink(_) =>
    case Discard =>
    case RemoveOwn =>
    case _ => assert PublishStep(s, p, op).dir == s.dir && PublishStep(s, p, op).disk == s.disk;
  }

  lemma LinkOwn(s: State, p: Pid)
    requires MayPublish(s, p, Link) && JobOk(s, p, s.procs[p])
    ensures p in LinkStep(s, p).procs && JobOk(LinkStep(s, p), p, LinkStep(s, p).procs[p])
  {
    var job, u := s.procs[p].job, LinkStep(s, p);
    assert FileOf(s.disk, p, job.ino, None) && OwnWip(s, p, job.token, job.ino);
    if u.dir != s.dir {
      assert u.procs[p].job == Linked(job.token, job.ino, Candidate(job));
      assert FileOf(u.disk, p, job.ino, Some(Candidate(job))) && OwnWip(u, p, job.token, job.ino);
    } else {
      assert u.disk == s.disk;
    }
  }

  lemma PublishOwn(s: State, p: Pid, op: PublishOp)
    requires MayPublish(s, p, op) && JobOk(s, p, s.procs[p])
    ensures p in PublishStep(s, p, op).procs
    ensures JobOk(PublishStep(s, p, op), p, PublishStep(s, p, op).procs[p])
  {
    match op
    case Link => LinkOwn(s, p);
    case CreateWip(_, _) =>
    case Append(_) =>
    case Unlink(_) =>
    case Discard =>
    case RemoveOwn =>
    case _ => assert PublishStep(s, p, op).dir == s.dir && PublishStep(s, p, op).disk == s.disk;
  }

  /** A session's claim follows its candidate: it claims before it links, and goes on claiming
      what it linked for as long as that is its backing. */
  lemma PublishClaims(s: State, p: Pid, op: PublishOp)
    requires MayPublish(s, p, op) && JobOk(s, p, s.procs[p]) && ClaimOk(s, p, s.procs[p])
    ensures ClaimOk(PublishStep(s, p, op), p, PublishStep(s, p, op).procs[p])
  {
    if op.Link? {
      LinkClaims(s, p);
    } else if !op.SetClaim? && !op.Preclaim? {
      assert PublishStep(s, p, op).claims == s.claims;
    }
  }

  lemma LinkClaims(s: State, p: Pid)
    requires MayPublish(s, p, Link) && JobOk(s, p, s.procs[p]) && ClaimOk(s, p, s.procs[p])
    ensures p in LinkStep(s, p).procs && ClaimOk(LinkStep(s, p), p, LinkStep(s, p).procs[p])
  {
  }

  lemma PublishAlone(s: State, p: Pid, op: PublishOp)
    requires MayPublish(s, p, op)
    ensures var t := PublishStep(s, p, op);
            && t.procs.Keys == s.procs.Keys && t.passes == s.passes && t.condemned == s.condemned
            && (forall o :: o in s.procs && o != p ==> t.procs[o] == s.procs[o])
  {
  }

  lemma OthersClaim(s: State, p: Pid, op: PublishOp)
    requires MayPublish(s, p, op)
    ensures forall o :: o in s.claims && o != p ==>
              o in PublishStep(s, p, op).claims && PublishStep(s, p, op).claims[o] == s.claims[o]
  {
  }

  lemma PublishJobs(s: State, p: Pid, op: PublishOp)
    requires MayPublish(s, p, op) && AllJobsOk(s)
    ensures AllJobsOk(PublishStep(s, p, op))
  {
    var t := PublishStep(s, p, op);
    PublishOwn(s, p, op);
    PublishAlone(s, p, op);
    forall o | o in s.procs && o != p ensures JobOk(t, o, t.procs[o]) {
      PublishOthers(s, p, op, o);
      JobStable(s, t, o, s.procs[o]);
    }
  }

  /** Files are left alone, names may only be removed, and a new process has no file yet. */
  ghost predicate Quiet(s: State, a: Action, t: State) {
    && t.disk == s.disk && Shrinks(s.dir, t.dir)
    && forall p :: p in t.procs ==>
         if p in s.procs then t.procs[p] == s.procs[p]
         else a.Start? && a.p == p && t.procs[p] == Proc(a.headless, None, NoJob)
  }

  /** Processes keep their claims, and none is condemned. */
  ghost predicate Unclaimed(s: State, t: State) {
    && (forall p :: p in s.procs && p in s.claims ==> p in t.claims && t.claims[p] == s.claims[p])
    && (forall p :: p in t.procs ==> t.condemned[p] == 0)
  }

  ghost predicate NoneCondemned(s: State) {
    forall p :: p in s.procs ==> s.condemned[p] == 0
  }

  lemma StartQuiet(s: State, p: Pid, headless: bool)
    ensures Quiet(s, Start(p, headless), Next(s, Start(p, headless)))
    ensures NoneCondemned(s) && SafeStart(s, Start(p, headless)) ==> Unclaimed(s, Next(s, Start(p, headless)))
  {
  }

  lemma KillQuiet(s: State, p: Pid)
    ensures Quiet(s, Kill(p), Next(s, Kill(p)))
    ensures NoneCondemned(s) ==> Unclaimed(s, Next(s, Kill(p)))
  {
  }

  lemma BeginQuiet(s: State, q: PassId)
    ensures Quiet(s, Begin(q), Next(s, Begin(q)))
    ensures NoneCondemned(s) ==> Unclaimed(s, Next(s, Begin(q)))
  {
  }

  lemma DeleteQuiet(s: State, q: PassId, op: PassOp)
    ensures Quiet(s, Delete(q, op), Next(s, Delete(q, op)))
    ensures NoneCondemned(s) ==> Unclaimed(s, Next(s, Delete(q, op)))
  {
    if MayPass(s, q, op) {
      PassQuiet(s, q, op);
    }
  }

  lemma PassQuiet(s: State, q: PassId, op: PassOp)
    requires MayPass(s, q, op)
    ensures var t := PassStep(s, q, op);
            && t.disk == s.disk && t.procs == s.procs && t.claims == s.claims && t.condemned == s.condemned
            && Shrinks(s.dir, t.dir)
  {
  }

  lemma CondemnQuiet(s: State, p: Pid)
    ensures Quiet(s, Condemn(p), Next(s, Condemn(p)))
    ensures NoneCondemned(s) ==> Unclaimed(s, Next(s, Condemn(p)))
  {
  }

  lemma SweepQuiet(s: State, p: Pid)
    ensures Quiet(s, SweepClaim(p), Next(s, SweepClaim(p)))
    ensures NoneCondemned(s) ==> Unclaimed(s, Next(s, SweepClaim(p)))
  {
  }

  lemma SpareQuiet(s: State, p: Pid)
    ensures Quiet(s, Spare(p), Next(s, Spare(p)))
    ensures NoneCondemned(s) ==> Unclaimed(s, Next(s, Spare(p)))
  {
  }

  /** Everything but publishing is quiet, and while no condemned pid starts it takes no process's claim. */
  lemma QuietStep(s: State, a: Action)
    requires !a.Publish?
    ensures Quiet(s, a, Next(s, a))
    ensures NoneCondemned(s) && SafeStart(s, a) ==> Unclaimed(s, Next(s, a))
  {
    match a
    case Start(p, headless) => StartQuiet(s, p, headless);
    case Kill(p) => KillQuiet(s, p);
    case Begin(q) => BeginQuiet(s, q);
    case Delete(q, op) => DeleteQuiet(s, q, op);
    case Condemn(p) => CondemnQuiet(s, p);
    case SweepClaim(p) => SweepQuiet(s, p);
    case Spare(p) => SpareQuiet(s, p);
  }

  lemma ClaimsUncondemned(s: State)
    requires AllClaimsOk(s)
    ensures NoneCondemned(s)
  {
    forall p | p in s.procs
      ensures s.condemned[p] == 0
    {
      assert ClaimOk(s, p, s.procs[p]);
    }
  }

  lemma StepJobs(s: State, a: Action)
    requires AllJobsOk(s)
    ensures AllJobsOk(Next(s, a))
  {
    var t := Next(s, a);
    if a.Publish? {
      if Enabled(s, a) {
        PublishJobs(s, a.p, a.op);
      }
    } else {
      QuietStep(s, a);
      forall p | p in t.procs ensures JobOk(t, p, t.procs[p]) {
        if p in s.procs {
          JobStable(s, t, p, s.procs[p]);
        }
      }
    }
  }

  lemma StepClaims(s: State, a: Action)
    requires AllJobsOk(s) && AllClaimsOk(s) && SafeStart(s, a)
    ensures AllClaimsOk(Next(s, a))
  {
    if a.Publish? {
      if Enabled(s, a) {
        PublishClaims(s, a.p, a.op);
        PublishAlone(s, a.p, a.op);
        OthersClaim(s, a.p, a.op);
      }
    } else {
      ClaimsUncondemned(s);
      QuietStep(s, a);
    }
  }

  // ---------------------------------------------------------------- passes

  /** No publishing action makes a file live that a pass could already have seen under its name. */
  lemma PublishProtects(s: State, p: Pid, op: PublishOp, n: FileName, ino: Inode)
    requires MayPublish(s, p, op) && JobOk(s, p, s.procs[p])
    requires ino in s.disk && s.disk[ino].published == Some(n)
    ensures var t := PublishStep(s, p, op);
            ino in t.disk && t.disk[ino].owner == s.disk[ino].owner
            && (Protected(t.disk, t.procs, n, ino) ==> Protected(s.disk, s.procs, n, ino))
  {
    match op
    case Link =>
    case CreateWip(_, _) =>
    case Append(_) =>
    case Unlink(_) =>
    case SetClaim(_) =>
    case Preclaim =>
    case _ => assert PublishStep(s, p, op).disk == s.disk;
  }

  lemma PublishPass(s: State, p: Pid, op: PublishOp, pass: Pass)
    requires MayPublish(s, p, op) && JobOk(s, p, s.procs[p])
    requires Known(s.disk, pass.seen) && PassOk(s.disk, s.procs, pass)
    ensures PassOk(PublishStep(s, p, op).disk, PublishStep(s, p, op).procs, pass)
  {
    var t := PublishStep(s, p, op);
    forall n | n in pass.seen && n.Auto? && Protected(t.disk, t.procs, n, pass.seen[n])
      ensures || pass.scanning || t.disk[pass.seen[n]].owner in pass.pending || n in pass.held
              || t.disk[pass.seen[n]].owner in pass.unread
    {
      PublishProtects(s, p, op, n, pass.seen[n]);
    }
  }

  lemma PublishPasses(s: State, p: Pid, op: PublishOp)
    requires MayPublish(s, p, op) && Inv(s)
    ensures AllPassesOk(PublishStep(s, p, op))
  {
    PublishAlone(s, p, op);
    forall q | q in s.passes ensures PassOk(PublishStep(s, p, op).disk, PublishStep(s, p, op).procs, s.passes[q]) {
      PublishPass(s, p, op, s.passes[q]);
    }
  }

  /** A pass lists every live session's claim, and reads it, or fails to, before it removes anything. */
  lemma PassPasses(s: State, q: PassId, op: PassOp)
    requires MayPass(s, q, op) && Inv(s)
    ensures AllPassesOk(PassStep(s, q, op))
  {
    var t := PassStep(s, q, op);
    if q in t.passes {
      forall n | n in t.passes[q].seen && n.Auto? && Protected(s.disk, s.procs, n, t.passes[q].seen[n])
        ensures || t.passes[q].scanning || s.disk[t.passes[q].seen[n]].owner in t.passes[q].pending
                || n in t.passes[q].held
                || s.disk[t.passes[q].seen[n]].owner in t.passes[q].unread
      {
        var owner := s.disk[t.passes[q].seen[n]].owner;
        assert ClaimOk(s, owner, s.procs[owner]);
      }
    }
  }

  lemma StepPasses(s: State, a: Action)
    requires Inv(s) && SafeStart(s, a)
    ensures AllPassesOk(Next(s, a))
  {
    if Enabled(s, a) {
      match a
      case Publish(p, op) => PublishPasses(s, p, op);
      case Delete(q, op) => PassPasses(s, q, op);
      case Begin(_) =>
      case _ =>
        var t := Next(s, a);
        forall q | q in s.passes ensures PassOk(t.disk, t.procs, s.passes[q]) {
        }
    }
  }

  lemma StepKeepsInv(s: State, a: Action)
    requires Inv(s) && SafeStart(s, a)
    ensures Inv(Next(s, a))
  {
    StepKnown(s, a);
    StepJobs(s, a);
    StepClaims(s, a);
    StepPasses(s, a);
  }

  lemma {:induction false} RunKeepsInv(s: State, run: seq<Action>)
    requires Inv(s) && Along(SafeStart, s, run)
    ensures Inv(After(s, run))
    decreases |run|
  {
    if run == [] {
    } else {
      RunKeepsInv(s, run[..|run| - 1]);
      StepKeepsInv(After(s, run[..|run| - 1]), run[|run| - 1]);
    }
  }
}
