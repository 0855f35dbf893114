/** Claim protection and conservation over whole runs of the snapshot directory protocol, and the
    runs that show the re-use condition is needed. */
module SafeRuns {
  import opened Options
  import opened Names
  import opened Protocol
  import opened ClaimProtection

  // ---------------------------------------------------------------- invariants of unreused runs

  /** No name a pass saw has been bound again since. */
  ghost predicate Current(dir: map<FileName, Inode>, seen: map<FileName, Inode>) {
    forall n :: n in seen && n.Auto? && n in dir ==> dir[n] == seen[n]
  }

  /** No pass has a live process's work-in-progress file among its targets. */
  ghost predicate NoneLive(procs: map<Pid, Proc>, seen: map<FileName, Inode>) {
    forall p :: p in procs && HasWip(procs[p].job) ==> Wip(procs[p].job.token, p) !in seen
  }

  predicate Leads(dir: map<FileName, Inode>, n: FileName, ino: Inode) {
    n in dir && dir[n] == ino
  }

  /** What a live process works on is still there: its work-in-progress file, and for a TUI session
      what it published. What a headless query published is under its name or gone. */
  predicate BoundOk(dir: map<FileName, Inode>, p: Pid, proc: Proc) {
    var job := proc.job;
    && (HasWip(job) ==> Leads(dir, Wip(job.token, p), job.ino))
    && (!proc.headless && job.Linked? ==> Leads(dir, job.name, job.ino))
    && (proc.backing.Some? ==> Leads(dir, proc.backing.value.name, proc.backing.value.ino))
    && (HasName(job) && job.name in dir ==> dir[job.name] == job.ino)
  }

  ghost predicate Safe(s: State) {
    && (forall q :: q in s.passes ==> Current(s.dir, s.passes[q].seen) && NoneLive(s.procs, s.passes[q].seen))
    && (forall p :: p in s.procs ==> BoundOk(s.dir, p, s.procs[p]))
  }

  lemma PublishFresh(s: State, p: Pid, op: PublishOp, q: PassId)
    requires MayPublish(s, p, op) && Unreused(s, Publish(p, op)) && q in s.passes
    requires Current(s.dir, s.passes[q].seen) && NoneLive(s.procs, s.passes[q].seen)
    ensures var t := PublishStep(s, p, op); Current(t.dir, s.passes[q].seen) && NoneLive(t.procs, s.passes[q].seen)
  {
    FreshNames(s, p, op, s.passes[q].seen);
    FreshWips(s, p, op, s.passes[q].seen);
  }

  lemma FreshNames(s: State, p: Pid, op: PublishOp, seen: map<FileName, Inode>)
    requires MayPublish(s, p, op) && Current(s.dir, seen)
    requires op.Link? && Candidate(s.procs[p].job) !in s.dir ==> Candidate(s.procs[p].job) !in seen
    ensures Current(PublishStep(s, p, op).dir, seen)
  {
    if op.Link? {
      LinkNames(s, p, seen);
    } else if !op.CreateWip? {
      PublishShrinks(s, p, op);
    }
  }

  lemma LinkNames(s: State, p: Pid, seen: map<FileName, Inode>)
    requires MayPublish(s, p, Link) && Current(s.dir, seen)
    requires Candidate(s.procs[p].job) !in s.dir ==> Candidate(s.procs[p].job) !in seen
    ensures Current(LinkStep(s, p).dir, seen)
  {
  }

  lemma FreshWips(s: State, p: Pid, op: PublishOp, seen: map<FileName, Inode>)
    requires MayPublish(s, p, op) && NoneLive(s.procs, seen) && (op.CreateWip? ==> Wip(op.token, p) !in seen)
    ensures NoneLive(PublishStep(s, p, op).procs, seen)
  {
    var t := PublishStep(s, p, op);
    PublishAlone(s, p, op);
    WipTokens(s, p, op);
    forall o | o in t.procs && HasWip(t.procs[o].job)
      ensures Wip(t.procs[o].job.token, o) !in seen
    {
      assert o in s.procs && (o != p ==> t.procs[o] == s.procs[o]);
    }
  }

  /** A process has the work-in-progress name that it had, or has just created it. */
  lemma WipTokens(s: State, p: Pid, op: PublishOp)
    requires MayPublish(s, p, op)
    ensures p in PublishStep(s, p, op).procs
    ensures var job := PublishStep(s, p, op).procs[p].job;
            HasWip(job) ==> if op.CreateWip? then job.token == op.token
                            else HasWip(s.procs[p].job) && job.token == s.procs[p].job.token
  {
    if op.Link? {
      LinkToken(s, p);
    }
  }

  lemma LinkToken(s: State, p: Pid)
    requires MayPublish(s, p, Link)
    ensures p in LinkStep(s, p).procs
    ensures var job := LinkStep(s, p).procs[p].job; HasWip(job) ==> job.token == s.procs[p].job.token
  {
  }

  lemma PublishBoundOther(s: State, p: Pid, op: PublishOp, o: Pid)
    requires MayPublish(s, p, op) && Unreused(s, Publish(p, op)) && o in s.procs && o != p
    requires JobOk(s, p, s.procs[p]) && BoundOk(s.dir, p, s.procs[p])
    requires JobOk(s, o, s.procs[o]) && BoundOk(s.dir, o, s.procs[o])
    ensures BoundOk(PublishStep(s, p, op).dir, o, s.procs[o])
  {
    match op
    case Link =>
    case CreateWip(_, _) =>
    case Unlink(_) =>
    case Discard =>
    case RemoveOwn =>
    case _ => assert PublishStep(s, p, op).dir == s.dir;
  }

  lemma LinkBoundOwn(s: State, p: Pid)
    requires MayPublish(s, p, Link) && JobOk(s, p, s.procs[p]) && BoundOk(s.dir, p, s.procs[p])
    ensures p in LinkStep(s, p).procs && BoundOk(LinkStep(s, p).dir, p, LinkStep(s, p).procs[p])
  {
    var u := LinkStep(s, p);
    if u.dir == s.dir {
      assert !u.procs[p].job.Linked? && u.procs[p].backing == s.procs[p].backing;
    } else {
      assert u.procs[p].backing == s.procs[p].backing && u.procs[p].job.name !in s.dir;
    }
  }

  lemma PublishBoundOwn(s: State, p: Pid, op: PublishOp)
    requires MayPublish(s, p, op) && JobOk(s, p, s.procs[p]) && BoundOk(s.dir, p, s.procs[p])
    ensures p in PublishStep(s, p, op).procs && BoundOk(PublishStep(s, p, op).dir, p, PublishStep(s, p, op).procs[p])
  {
    match op
    case Link => LinkBoundOwn(s, p);
    case CreateWip(_, _) =>
    case Unlink(_) =>
    case Discard =>
    case RemoveOwn =>
    case _ => assert PublishStep(s, p, op).dir == s.dir;
  }

  lemma PublishSafe(s: State, p: Pid, op: PublishOp)
    requires MayPublish(s, p, op) && Unreused(s, Publish(p, op)) && Inv(s) && Safe(s)
    ensures Safe(PublishStep(s, p, op))
  {
    PublishAlone(s, p, op);
    PublishBoundOwn(s, p, op);
    forall o | o in s.procs && o != p ensures BoundOk(PublishStep(s, p, op).dir, o, s.procs[o]) {
      PublishBoundOther(s, p, op, o);
    }
    forall q | q in s.passes
      ensures var t := PublishStep(s, p, op); Current(t.dir, s.passes[q].seen) && NoneLive(t.procs, s.passes[q].seen)
    {
      PublishFresh(s, p, op, q);
    }
  }

  /** The heart of claim protection: a name that a pass may remove does not lead to a file a live
      session published, if the pass saw that very file and could read the session's claim. */
  lemma PassSpares(s: State, q: PassId, n: FileName, p: Pid)
    requires Inv(s) && MayPass(s, q, Remove(n)) && n.Auto?
    requires p in s.procs && Live(s.procs[p], n, s.dir[n])
    ensures s.disk[s.dir[n]].owner == p && (s.passes[q].seen[n] != s.dir[n] || p in s.passes[q].unread)
  {
    assert JobOk(s, p, s.procs[p]);
    assert Protected(s.disk, s.procs, n, s.dir[n]);
    assert PassOk(s.disk, s.procs, s.passes[q]);
  }

  /** A pass takes away what a live session published, having failed to read the session's claim. */
  ghost predicate BlindRemoval(s: State, a: Action) {
    && a.Delete? && a.step.Remove? && MayPass(s, a.q, a.step)
    && exists p :: p in s.procs && p in s.passes[a.q].unread && Live(s.procs[p], a.step.n, s.dir[a.step.n])
  }

  lemma PassBound(s: State, q: PassId, op: PassOp, p: Pid)
    requires MayPass(s, q, op) && Inv(s) && Safe(s) && p in s.procs && !BlindRemoval(s, Delete(q, op))
    ensures BoundOk(PassStep(s, q, op).dir, p, s.procs[p])
  {
    assert BoundOk(s.dir, p, s.procs[p]) && JobOk(s, p, s.procs[p]);
    assert Current(s.dir, s.passes[q].seen) && NoneLive(s.procs, s.passes[q].seen);
    match op
    case Remove(n) =>
      if n.Auto? && Live(s.procs[p], n, s.dir[n]) {
        PassSpares(s, q, n, p);
      }
    case Sweep(n) =>
    case _ => assert PassStep(s, q, op).dir == s.dir;
  }

  lemma PassSafe(s: State, q: PassId, op: PassOp)
    requires MayPass(s, q, op) && Inv(s) && Safe(s) && !BlindRemoval(s, Delete(q, op))
    ensures Safe(PassStep(s, q, op))
  {
    var t := PassStep(s, q, op);
    PassQuiet(s, q, op);
    forall p | p in s.procs ensures BoundOk(t.dir, p, s.procs[p]) {
      PassBound(s, q, op, p);
    }
    forall r | r in t.passes
      ensures Current(t.dir, t.passes[r].seen) && NoneLive(s.procs, t.passes[r].seen)
    {
      PassFresh(s, q, op, r);
    }
  }

  lemma PassFresh(s: State, q: PassId, op: PassOp, r: PassId)
    requires MayPass(s, q, op) && Safe(s) && r in PassStep(s, q, op).passes
    ensures Current(PassStep(s, q, op).dir, PassStep(s, q, op).passes[r].seen)
    ensures NoneLive(s.procs, PassStep(s, q, op).passes[r].seen)
  {
    PassQuiet(s, q, op);
    assert Current(s.dir, s.passes[r].seen) && NoneLive(s.procs, s.passes[r].seen);
  }

  lemma OtherSafe(s: State, a: Action)
    requires Enabled(s, a) && !a.Publish? && !a.Delete? && Safe(s)
    ensures Safe(Next(s, a))
  {
  }

  lemma StepSafe(s: State, a: Action)
    requires Inv(s) && Safe(s) && Unreused(s, a) && !BlindRemoval(s, a)
    ensures Inv(Next(s, a)) && Safe(Next(s, a))
  {
    StepKeepsInv(s, a);
    if !Enabled(s, a) {
      assert Next(s, a) == s;
    } else if a.Publish? {
      PublishSafe(s, a.p, a.op);
      assert Next(s, a) == PublishStep(s, a.p, a.op);
    } else if a.Delete? {
      PassSafe(s, a.q, a.step);
      assert Next(s, a) == PassStep(s, a.q, a.step);
    } else {
      OtherSafe(s, a);
    }
  }

  // ---------------------------------------------------------------- claim protection

  /** What a live session has published is bound under its name, and claimed. */
  predicate Held(s: State, p: Pid, n: FileName, ino: Inode) {
    Leads(s.dir, n, ino) && p in s.claims && s.claims[p] == n && FileOf(s.disk, p, ino, Some(n))
  }

  ghost predicate LiveHeld(s: State) {
    forall p, n, ino :: p in s.procs && Live(s.procs[p], n, ino) ==> Held(s, p, n, ino)
  }

  ghost predicate KeepsLive(s: State, a: Action) {
    LiveHeld(Next(s, a))
  }

  ghost predicate SeesClaims(s: State, a: Action) {
    !BlindRemoval(s, a)
  }

  lemma SafeHolds(s: State)
    requires Inv(s) && Safe(s)
    ensures LiveHeld(s)
  {
    forall p, n, ino | p in s.procs && Live(s.procs[p], n, ino)
      ensures Held(s, p, n, ino)
    {
      assert JobOk(s, p, s.procs[p]) && ClaimOk(s, p, s.procs[p]) && BoundOk(s.dir, p, s.procs[p]);
    }
  }

  lemma BlindLoses(s: State, a: Action)
    requires BlindRemoval(s, a)
    ensures !LiveHeld(Next(s, a))
  {
    var p :| p in s.procs && p in s.passes[a.q].unread && Live(s.procs[p], a.step.n, s.dir[a.step.n]);
    var t := Next(s, a);
    assert t.procs == s.procs && a.step.n !in t.dir;
    assert !Held(t, p, a.step.n, s.dir[a.step.n]);
  }

  /** In every run in which no seen name is bound again and no pid is used again under a sweep, every
      live session's published file is bound under its name, and claimed, from the link on, for as
      long as no pass takes one away whose claim it failed to read: and exactly so long. */
  lemma {:induction false} BackingsSurvive(s: State, run: seq<Action>)
    requires Init(s) && Along(Unreused, s, run)
    ensures Along(KeepsLive, s, run) <==> Along(SeesClaims, s, run)
    ensures Along(SeesClaims, s, run) ==> Inv(After(s, run)) && Safe(After(s, run))
    decreases |run|
  {
    if run == [] {
    } else {
      var front, a := run[..|run| - 1], run[|run| - 1];
      BackingsSurvive(s, front);
      if Along(SeesClaims, s, front) {
        SurvivesStep(After(s, front), a);
      }
    }
  }

  lemma SurvivesStep(s: State, a: Action)
    requires Inv(s) && Safe(s) && Unreused(s, a)
    ensures KeepsLive(s, a) <==> SeesClaims(s, a)
    ensures SeesClaims(s, a) ==> Inv(Next(s, a)) && Safe(Next(s, a))
  {
    if BlindRemoval(s, a) {
      BlindLoses(s, a);
    } else {
      StepSafe(s, a);
      SafeHolds(Next(s, a));
    }
  }

  // ---------------------------------------------------------------- work-in-progress files

  /** No process opens a work-in-progress file under a name that a running pass saw as a dead
      process's: that takes the pid and the token of that process. */
  predicate FreshWip(s: State, a: Action) {
    a.Publish? && a.op.CreateWip? && MayPublish(s, a.p, a.op) ==> UnseenWip(s, a.op.token, a.p)
  }

  predicate UnseenWip(s: State, token: string, p: Pid) {
    forall q :: q in s.passes ==> Wip(token, p) !in s.passes[q].seen
  }

  /** Every process's work-in-progress file is under its name, and no pass is about to remove it. */
  ghost predicate WipsSafe(s: State) {
    forall p :: p in s.procs && HasWip(s.procs[p].job) ==> WipSafe(s, p, s.procs[p].job)
  }

  predicate WipSafe(s: State, p: Pid, job: Job)
    requires HasWip(job)
  {
    Leads(s.dir, Wip(job.token, p), job.ino) && UnseenWip(s, job.token, p)
  }

  ghost predicate StaysWipsSafe(s: State, a: Action) {
    WipsSafe(Next(s, a))
  }

  /** Publishing touches no other process's work-in-progress name. */
  lemma OtherWipStays(s: State, p: Pid, op: PublishOp, o: Pid, token: string)
    requires MayPublish(s, p, op) && JobOk(s, p, s.procs[p]) && o != p && Wip(token, o) in s.dir
    ensures Leads(PublishStep(s, p, op).dir, Wip(token, o), s.dir[Wip(token, o)])
  {
  }

  /** Nor its own, while it works on the file. */
  lemma OwnWipStays(s: State, p: Pid, op: PublishOp)
    requires MayPublish(s, p, op) && JobOk(s, p, s.procs[p]) && !op.CreateWip?
    requires HasWip(s.procs[p].job) ==> Leads(s.dir, Wip(s.procs[p].job.token, p), s.procs[p].job.ino)
    requires p in PublishStep(s, p, op).procs && HasWip(PublishStep(s, p, op).procs[p].job)
    ensures var t := PublishStep(s, p, op); var job := t.procs[p].job;
            && HasWip(s.procs[p].job) && job.token == s.procs[p].job.token && job.ino == s.procs[p].job.ino
            && Leads(t.dir, Wip(job.token, p), job.ino)
  {
  }

  lemma PublishWips(s: State, p: Pid, op: PublishOp, o: Pid)
    requires MayPublish(s, p, op) && JobOk(s, p, s.procs[p]) && WipsSafe(s)
    requires o in s.procs && o in PublishStep(s, p, op).procs && HasWip(PublishStep(s, p, op).procs[o].job)
    ensures var t := PublishStep(s, p, op);
            WipSafe(t, o, t.procs[o].job) <==> (o == p && op.CreateWip? ==> UnseenWip(s, op.token, p))
  {
    if o != p {
      PublishAlone(s, p, op);
      assert WipSafe(s, o, s.procs[o].job);
      OtherWipStays(s, p, op, o, s.procs[o].job.token);
    } else if !op.CreateWip? {
      PublishAlone(s, p, op);
      OwnWipStays(s, p, op);
    }
  }

  lemma PublishKeepsWips(s: State, p: Pid, op: PublishOp)
    requires MayPublish(s, p, op) && AllJobsOk(s) && WipsSafe(s)
    ensures WipsSafe(PublishStep(s, p, op)) <==> FreshWip(s, Publish(p, op))
  {
    var t := PublishStep(s, p, op);
    PublishAlone(s, p, op);
    forall o | o in s.procs && HasWip(t.procs[o].job)
      ensures WipSafe(t, o, t.procs[o].job) <==> (o == p && op.CreateWip? ==> UnseenWip(s, op.token, p))
    {
      PublishWips(s, p, op, o);
    }
  }

  lemma PassKeepsWips(s: State, q: PassId, op: PassOp)
    requires MayPass(s, q, op) && WipsSafe(s)
    ensures WipsSafe(PassStep(s, q, op))
  {
    var t := PassStep(s, q, op);
    forall p | p in s.procs && HasWip(s.procs[p].job)
      ensures WipSafe(t, p, s.procs[p].job)
    {
      assert WipSafe(s, p, s.procs[p].job);
    }
  }

  lemma OtherKeepsWips(s: State, a: Action)
    requires !a.Publish? && !a.Delete? && WipsSafe(s)
    ensures WipsSafe(Next(s, a))
  {
    QuietStep(s, a);
    var t := Next(s, a);
    forall p | p in t.procs && HasWip(t.procs[p].job)
      ensures WipSafe(t, p, t.procs[p].job)
    {
      assert p in s.procs && WipSafe(s, p, s.procs[p].job);
    }
  }

  lemma WipsStep(s: State, a: Action)
    requires AllJobsOk(s) && WipsSafe(s)
    ensures StaysWipsSafe(s, a) <==> FreshWip(s, a)
  {
    if a.Publish? {
      if MayPublish(s, a.p, a.op) {
        PublishKeepsWips(s, a.p, a.op);
      }
    } else if a.Delete? {
      if MayPass(s, a.q, a.step) {
        PassKeepsWips(s, a.q, a.step);
      }
    } else {
      OtherKeepsWips(s, a);
    }
  }

  /** Over any run, every process's work-in-progress file stays under its name until the process
      unlinks it, with no pass about to remove it, if and only if none is opened under a name that a
      running pass saw as a dead process's. */
  lemma {:induction false} WipsSurvive(s: State, run: seq<Action>)
    requires Init(s)
    ensures Along(StaysWipsSafe, s, run) <==> Along(FreshWip, s, run)
    ensures Along(FreshWip, s, run) ==> WipsSafe(After(s, run))
    decreases |run|
  {
    if run == [] {
    } else {
      var front := run[..|run| - 1];
      WipsSurvive(s, front);
      if Along(FreshWip, s, front) {
        Conservation(s, front);
        WipsStep(After(s, front), run[|run| - 1]);
      }
    }
  }

  /** A removal of `n` by a pass that saw an earlier file under it or failed to read the claim of the
      file's owner, or by a headless query that published an earlier file there. */
  ghost predicate StaleRemoval(t: State, a: Action, n: FileName)
    requires n in t.dir
  {
    match a
    case Delete(q, Remove(m)) =>
      && m == n && MayPass(t, q, Remove(n))
      && (t.passes[q].seen[n] != t.dir[n] || (t.dir[n] in t.disk && t.disk[t.dir[n]].owner in t.passes[q].unread))
    case Publish(h, RemoveOwn) =>
      MayPublish(t, h, RemoveOwn) && t.procs[h].job.name == n && t.procs[h].job.ino != t.dir[n]
    case _ => false
  }

  /** Names go away only by a removal of that name. */
  lemma OnlyRemovals(t: State, a: Action, n: FileName)
    requires n.Auto? && n in t.dir && n !in Next(t, a).dir
    ensures (a.Delete? && a.step == Remove(n) && MayPass(t, a.q, a.step))
            || (a.Publish? && a.op.RemoveOwn? && MayPublish(t, a.p, a.op) && t.procs[a.p].job.name == n)
  {
    if a.Publish? {
      PublishRemoves(t, a.p, a.op, n);
    }
  }

  lemma PublishRemoves(t: State, p: Pid, op: PublishOp, n: FileName)
    requires n.Auto? && n in t.dir && MayPublish(t, p, op) && n !in PublishStep(t, p, op).dir
    ensures op.RemoveOwn? && t.procs[p].job.name == n
  {
  }

  /** With no condition on re-use, a step takes a live session's file away if and only if it is such
      a removal. */
  lemma OnlyStaleRemovals(s: State, run: seq<Action>, a: Action, p: Pid, n: FileName)
    requires Init(s) && Along(SafeStart, s, run)
    requires var t := After(s, run); p in t.procs && n.Auto? && n in t.dir && Live(t.procs[p], n, t.dir[n])
    ensures n !in Next(After(s, run), a).dir <==> StaleRemoval(After(s, run), a, n)
  {
    RunKeepsInv(s, run);
    var t := After(s, run);
    assert JobOk(t, p, t.procs[p]);
    if n !in Next(t, a).dir {
      OnlyRemovals(t, a, n);
      if a.Delete? {
        PassSpares(t, a.q, n, p);
      } else {
        assert JobOk(t, a.p, t.procs[a.p]);
      }
    }
  }

  /** No sweep is about to remove a live process's claim file. */
  ghost predicate Disarmed(s: State) {
    forall p :: p in s.procs ==> !Enabled(s, SweepClaim(p))
  }

  ghost predicate StaysDisarmed(s: State, a: Action) {
    Disarmed(Next(s, a))
  }

  lemma QuietDisarms(s: State, a: Action)
    requires Disarmed(s) && !a.Publish? && !a.Start?
    ensures Disarmed(Next(s, a))
  {
    QuietStep(s, a);
    match a
    case Kill(_) =>
    case Begin(_) =>
    case Delete(q, op) => assert Next(s, a).condemned == s.condemned;
    case Condemn(_) =>
    case SweepClaim(_) =>
    case Spare(_) =>
  }

  lemma StartDisarms(s: State, p: Pid, headless: bool)
    requires Disarmed(s)
    ensures Disarmed(Next(s, Start(p, headless))) <==> (p !in s.procs ==> s.condemned[p] == 0)
  {
    assert p in Next(s, Start(p, headless)).procs;
  }

  lemma DisarmedStep(s: State, a: Action)
    requires Disarmed(s)
    ensures Disarmed(Next(s, a)) <==> SafeStart(s, a)
  {
    if a.Start? {
      StartDisarms(s, a.p, a.headless);
    } else if a.Publish? {
      if MayPublish(s, a.p, a.op) {
        PublishAlone(s, a.p, a.op);
      }
    } else {
      QuietDisarms(s, a);
    }
  }

  /** At no point of a run is a sweep about to remove a live process's claim if and only if every
      process that starts, starts under a pid that no sweep has condemned. */
  lemma {:induction false} SweepsSpareLive(s: State, run: seq<Action>)
    requires Init(s)
    ensures Along(StaysDisarmed, s, run) <==> Along(SafeStart, s, run)
    ensures Along(SafeStart, s, run) ==> Disarmed(After(s, run))
    decreases |run|
  {
    if run == [] {
    } else {
      SweepsSpareLive(s, run[..|run| - 1]);
      if Along(SafeStart, s, run[..|run| - 1]) {
        DisarmedStep(After(s, run[..|run| - 1]), run[|run| - 1]);
      }
    }
  }

  // ---------------------------------------------------------------- conservation

  predicate NoRemoval(s: State, a: Action) {
    !(a.Delete? && a.step.Remove?) && !(a.Publish? && a.op.RemoveOwn?)
  }

  /** Every published file is bound under its name. */
  ghost predicate Kept(s: State) {
    forall i :: i in s.disk && s.disk[i].published.Some? ==>
      s.disk[i].published.value.Auto? && Leads(s.dir, s.disk[i].published.value, i)
  }

  lemma PublishKeeps(s: State, p: Pid, op: PublishOp)
    requires MayPublish(s, p, op) && JobOk(s, p, s.procs[p]) && Kept(s) && !op.RemoveOwn?
    ensures Kept(PublishStep(s, p, op))
  {
    if op.Link? {
      LinkKeeps(s, p);
    } else {
      PublishesNothing(s, p, op);
      AutoNamesStay(s, p, op);
    }
  }

  lemma LinkKeeps(s: State, p: Pid)
    requires MayPublish(s, p, Link) && JobOk(s, p, s.procs[p]) && Kept(s)
    ensures Kept(LinkStep(s, p))
  {
  }

  lemma PublishesNothing(s: State, p: Pid, op: PublishOp)
    requires MayPublish(s, p, op) && JobOk(s, p, s.procs[p]) && !op.Link?
    ensures forall i :: i in PublishStep(s, p, op).disk && PublishStep(s, p, op).disk[i].published.Some? ==>
              i in s.disk && s.disk[i].published == PublishStep(s, p, op).disk[i].published
  {
  }

  lemma AutoNamesStay(s: State, p: Pid, op: PublishOp)
    requires MayPublish(s, p, op) && !op.Link? && !op.RemoveOwn?
    ensures forall n: FileName, i: Inode :: n.Auto? && Leads(s.dir, n, i) ==> Leads(PublishStep(s, p, op).dir, n, i)
  {
  }

  lemma StepKeeps(s: State, a: Action)
    requires AllJobsOk(s) && Kept(s) && NoRemoval(s, a)
    ensures Kept(Next(s, a))
  {
    if a.Publish? {
      if Enabled(s, a) {
        PublishKeeps(s, a.p, a.op);
      }
    } else {
      QuietStep(s, a);
      forall n | n in s.dir && n.Auto? ensures n in Next(s, a).dir {
        if n !in Next(s, a).dir {
          OnlyRemovals(s, a, n);
        }
      }
    }
  }

  /** In any run, files that were published stay as they were; in any run without removals every
      published file, whoever published it and whether or not its work-in-progress name could be
      unlinked, is found under a name of its own. */
  lemma {:induction false} Conservation(s: State, run: seq<Action>)
    requires AllKnown(s) && AllJobsOk(s)
    ensures var t := After(s, run);
            && AllKnown(t) && AllJobsOk(t) && Grows(s.disk, t.disk)
            && (Kept(s) && Along(NoRemoval, s, run) ==> Kept(t))
    decreases |run|
  {
    if run == [] {
    } else {
      Conservation(s, run[..|run| - 1]);
      var t, a := After(s, run[..|run| - 1]), run[|run| - 1];
      StepKnown(t, a);
      StepJobs(t, a);
      if Kept(t) && NoRemoval(t, a) {
        StepKeeps(t, a);
      }
    }
  }

  /** Two publications that completed are under different names, with the contents they were
      published with. */
  lemma PublicationsDistinct(s: State, run: seq<Action>, more: seq<Action>,
                             i: Inode, m: FileName, j: Inode, n: FileName)
    requires AllKnown(s) && AllJobsOk(s) && Kept(s) && Along(NoRemoval, s, run) && Along(NoRemoval, After(s, run), more)
    requires var t := After(s, run);
             i in t.disk && t.disk[i].published == Some(m) && j in t.disk && t.disk[j].published == Some(n) && i != j
    ensures m != n
    ensures var t, u := After(s, run), After(After(s, run), more);
            && Leads(u.dir, m, i) && i in u.disk && u.disk[i] == t.disk[i]
            && Leads(u.dir, n, j) && j in u.disk && u.disk[j] == t.disk[j]
  {
    Conservation(s, run);
    Conservation(After(s, run), more);
  }

  /** No step binds a bound name to another file. */
  lemma NeverRebound(s: State, a: Action, n: FileName)
    requires n in s.dir && n in Next(s, a).dir
    ensures Next(s, a).dir[n] == s.dir[n]
  {
    if !a.Publish? {
      QuietStep(s, a);
    } else if MayPublish(s, a.p, a.op) {
      PublishRebindsNone(s, a.p, a.op);
    }
  }

  lemma PublishRebindsNone(s: State, p: Pid, op: PublishOp)
    requires MayPublish(s, p, op)
    ensures forall n :: n in s.dir && n in PublishStep(s, p, op).dir ==> PublishStep(s, p, op).dir[n] == s.dir[n]
  {
  }

  // ---------------------------------------------------------------- why the condition is there

  ghost predicate Reachable(rule: (State, Action) -> bool, s: State, t: State) {
    exists run :: Along(rule, s, run) && After(s, run) == t
  }

  lemma ReachMore(rule: (State, Action) -> bool, s: State, t: State, a: Action, u: State)
    requires Reachable(rule, s, t) && rule(t, a) && Next(t, a) == u
    ensures Reachable(rule, s, u)
  {
    var run :| Along(rule, s, run) && After(s, run) == t;
    assert (run + [a])[..|run|] == run;
    assert Along(rule, s, run + [a]) && After(s, run + [a]) == u;
  }

  function Empty(claims: map<Pid, FileName>): State {
    State(map[], map[], claims, map[], map[], multiset{})
  }

  function Published(t: State, p: Pid, headless: bool, token: string, ino: Inode, n: FileName): State {
    t.(dir := t.dir[n := ino],
       disk := t.disk[ino := File(p, Wip(token, p), "", Some(n))],
       claims := if headless then t.claims else t.claims[p := n],
       procs := t.procs[p := if headless then Proc(true, None, Owned(n, ino))
                        else Proc(false, Some(Backing(n, ino)), NoJob)])
  }

  /** The same process about to link its first candidate. */
  function Ready(t: State, p: Pid, headless: bool, token: string, ino: Inode, stamp: string): State {
    t.(dir := t.dir[Wip(token, p) := ino],
       disk := t.disk[ino := File(p, Wip(token, p), "", None)],
       claims := if headless then t.claims else t.claims[p := Auto(stamp, 1)],
       procs := t.procs[p := Proc(headless, None, Trying(token, ino, stamp, 1, !headless))])
  }

  /** The same process with its work-in-progress file open. */
  function Downloading(t: State, p: Pid, headless: bool, token: string, ino: Inode): State {
    t.(dir := t.dir[Wip(token, p) := ino],
       disk := t.disk[ino := File(p, Wip(token, p), "", None)],
       procs := t.procs[p := Proc(headless, None, Fetching(token, ino))])
  }

  lemma FirstSteps(t: State, p: Pid, headless: bool, token: string, ino: Inode)
    requires p !in t.procs && Wip(token, p) !in t.dir && ino !in t.disk
    ensures var t1 := SetProc(t, p, Proc(headless, None, NoJob));
            && Next(t, Start(p, headless)) == t1
            && Next(t1, Publish(p, CreateWip(token, ino))) == Downloading(t, p, headless, token, ino)
  {
    var t1, t2 := SetProc(t, p, Proc(headless, None, NoJob)), Downloading(t, p, headless, token, ino);
    assert MayPublish(t1, p, CreateWip(token, ino));
    assert t1.procs[p := t2.procs[p]] == t2.procs;
  }

  lemma CloseStep(t: State, p: Pid, stamp: string)
    requires p in t.procs && t.procs[p].job.Fetching?
    ensures var proc := t.procs[p];
            Next(t, Publish(p, CloseWip(stamp)))
            == t.(procs := t.procs[p := proc.(job := Trying(proc.job.token, proc.job.ino, stamp, 1, false))])
  {
    assert MayPublish(t, p, CloseWip(stamp));
  }

  lemma PreclaimStep(t: State, p: Pid)
    requires p in t.procs && t.procs[p].job.Trying? && !t.procs[p].job.claimed && !t.procs[p].headless
    ensures var proc := t.procs[p];
            Next(t, Publish(p, Preclaim))
            == t.(claims := t.claims[p := Candidate(proc.job)],
                  procs := t.procs[p := proc.(backing := None, job := proc.job.(claimed := true))])
  {
    assert MayPublish(t, p, Preclaim);
  }

  /** The same process with its file closed, before it claims its first candidate. */
  function Closed(t: State, p: Pid, headless: bool, token: string, ino: Inode, stamp: string): State {
    var trying := Trying(token, ino, stamp, 1, false);
    Downloading(t, p, headless, token, ino).(procs := t.procs[p := Proc(headless, None, trying)])
  }

  /** The rule lets the process take each step of a publication that nobody disturbs. */
  predicate Lets(rule: (State, Action) -> bool, t: State, p: Pid, headless: bool, token: string, ino: Inode,
                 stamp: string) {
    && rule(t, Start(p, headless))
    && rule(SetProc(t, p, Proc(headless, None, NoJob)), Publish(p, CreateWip(token, ino)))
    && rule(Downloading(t, p, headless, token, ino), Publish(p, CloseWip(stamp)))
    && rule(Closed(t, p, headless, token, ino, stamp), Publish(p, Preclaim))
    && rule(Ready(t, p, headless, token, ino, stamp), Publish(p, Link))
    && rule(JustLinked(t, p, headless, token, ino, stamp), Publish(p, Unlink(true)))
  }

  lemma GetsFetching(rule: (State, Action) -> bool, s: State, t: State, p: Pid, headless: bool,
                     token: string, ino: Inode)
    requires Reachable(rule, s, t) && p !in t.procs && Wip(token, p) !in t.dir && ino !in t.disk
    requires rule(t, Start(p, headless))
    requires rule(SetProc(t, p, Proc(headless, None, NoJob)), Publish(p, CreateWip(token, ino)))
    ensures Reachable(rule, s, Downloading(t, p, headless, token, ino))
  {
    FirstSteps(t, p, headless, token, ino);
    var t1 := SetProc(t, p, Proc(headless, None, NoJob));
    ReachMore(rule, s, t, Start(p, headless), t1);
    ReachMore(rule, s, t1, Publish(p, CreateWip(token, ino)), Downloading(t, p, headless, token, ino));
  }

  lemma ClosesFile(t: State, p: Pid, headless: bool, token: string, ino: Inode, stamp: string)
    ensures Next(Downloading(t, p, headless, token, ino), Publish(p, CloseWip(stamp)))
            == Closed(t, p, headless, token, ino, stamp)
  {
    var d := Downloading(t, p, headless, token, ino);
    CloseStep(d, p, stamp);
    assert d.procs[p := Proc(headless, None, Trying(token, ino, stamp, 1, false))]
           == Closed(t, p, headless, token, ino, stamp).procs;
  }

  lemma ClaimsCandidate(t: State, p: Pid, token: string, ino: Inode, stamp: string)
    ensures Next(Closed(t, p, false, token, ino, stamp), Publish(p, Preclaim)) == Ready(t, p, false, token, ino, stamp)
  {
    var c, r := Closed(t, p, false, token, ino, stamp), Ready(t, p, false, token, ino, stamp);
    PreclaimStep(c, p);
    assert c.procs[p := r.procs[p]] == r.procs;
  }

  lemma GetsReady(rule: (State, Action) -> bool, s: State, t: State, p: Pid, headless: bool,
                  token: string, ino: Inode, stamp: string)
    requires Reachable(rule, s, t) && p !in t.procs && Wip(token, p) !in t.dir && ino !in t.disk
    requires Lets(rule, t, p, headless, token, ino, stamp)
    ensures Reachable(rule, s, Ready(t, p, headless, token, ino, stamp))
  {
    GetsFetching(rule, s, t, p, headless, token, ino);
    ClosesFile(t, p, headless, token, ino, stamp);
    var closed := Closed(t, p, headless, token, ino, stamp);
    ReachMore(rule, s, Downloading(t, p, headless, token, ino), Publish(p, CloseWip(stamp)), closed);
    if headless {
      assert closed == Ready(t, p, headless, token, ino, stamp);
    } else {
      ClaimsCandidate(t, p, token, ino, stamp);
      ReachMore(rule, s, closed, Publish(p, Preclaim), Ready(t, p, headless, token, ino, stamp));
    }
  }

  lemma LinkFree(t: State, p: Pid)
    requires MayPublish(t, p, Link)
    requires var job := t.procs[p].job;
             Leads(t.dir, Wip(job.token, p), job.ino) && job.ino in t.disk && Candidate(job) !in t.dir
    ensures var proc, job := t.procs[p], t.procs[p].job;
            var n := Candidate(job);
            Next(t, Publish(p, Link))
            == t.(dir := t.dir[n := job.ino],
                  disk := t.disk[job.ino := t.disk[job.ino].(published := Some(n))],
                  procs := t.procs[p := proc.(job := Linked(job.token, job.ino, n))])
  {
  }

  lemma UnlinkStep(t: State, p: Pid)
    requires p in t.procs && t.procs[p].job.Linked?
    ensures var proc, job := t.procs[p], t.procs[p].job;
            Next(t, Publish(p, Unlink(true)))
            == t.(dir := t.dir - {Wip(job.token, p)},
                  procs := t.procs[p := if proc.headless then proc.(job := Owned(job.name, job.ino))
                     else proc.(backing := Some(Backing(job.name, job.ino)), job := NoJob)])
  {
    assert MayPublish(t, p, Unlink(true));
  }

  function JustLinked(t: State, p: Pid, headless: bool, token: string, ino: Inode, stamp: string): State {
    var n, r := Auto(stamp, 1), Ready(t, p, headless, token, ino, stamp);
    r.(dir := r.dir[n := ino],
       disk := t.disk[ino := File(p, Wip(token, p), "", Some(n))],
       procs := t.procs[p := Proc(headless, None, Linked(token, ino, n))])
  }

  lemma LinkReady(t: State, p: Pid, headless: bool, token: string, ino: Inode, stamp: string)
    requires Auto(stamp, 1) !in t.dir
    ensures Next(Ready(t, p, headless, token, ino, stamp), Publish(p, Link))
            == JustLinked(t, p, headless, token, ino, stamp)
  {
    var r, l := Ready(t, p, headless, token, ino, stamp), JustLinked(t, p, headless, token, ino, stamp);
    LinkFree(r, p);
    assert r.procs[p := l.procs[p]] == l.procs;
    assert r.disk[ino := l.disk[ino]] == l.disk;
  }

  lemma UnlinkLinked(t: State, p: Pid, headless: bool, token: string, ino: Inode, stamp: string)
    requires Wip(token, p) !in t.dir
    ensures Next(JustLinked(t, p, headless, token, ino, stamp), Publish(p, Unlink(true)))
            == Published(t, p, headless, token, ino, Auto(stamp, 1))
  {
    var l, d := JustLinked(t, p, headless, token, ino, stamp), Published(t, p, headless, token, ino, Auto(stamp, 1));
    UnlinkStep(l, p);
    assert l.procs[p := d.procs[p]] == d.procs;
    assert l.dir - {Wip(token, p)} == d.dir;
  }

  /** A process that runs by itself publishes under the first candidate if that is free. */
  lemma RunAlone(rule: (State, Action) -> bool, s: State, t: State, p: Pid, headless: bool,
                 token: string, ino: Inode, stamp: string)
    requires Reachable(rule, s, t) && p !in t.procs && Wip(token, p) !in t.dir && ino !in t.disk
             && Auto(stamp, 1) !in t.dir
    requires Lets(rule, t, p, headless, token, ino, stamp)
    ensures Reachable(rule, s, Published(t, p, headless, token, ino, Auto(stamp, 1)))
  {
    GetsReady(rule, s, t, p, headless, token, ino, stamp);
    LinkReady(t, p, headless, token, ino, stamp);
    UnlinkLinked(t, p, headless, token, ino, stamp);
    var linked := JustLinked(t, p, headless, token, ino, stamp);
    ReachMore(rule, s, Ready(t, p, headless, token, ino, stamp), Publish(p, Link), linked);
    ReachMore(rule, s, linked, Publish(p, Unlink(true)), Published(t, p, headless, token, ino, Auto(stamp, 1)));
  }

  function WithPass(t: State, q: PassId, pass: Pass): State {
    t.(passes := t.passes[q := pass])
  }

  /** The rule says nothing of what passes do. */
  ghost predicate FreePasses(rule: (State, Action) -> bool) {
    forall x: State, a: Action :: a.Begin? || a.Delete? ==> rule(x, a)
  }

  lemma PassesAreFree()
    ensures FreePasses(SafeStart) && FreePasses(Unreused)
  {
  }

  /** A pass sees `n`. */
  lemma Sees(rule: (State, Action) -> bool, s: State, t: State, q: PassId, n: FileName)
    requires Reachable(rule, s, t) && q !in t.passes && n in t.dir && n.Auto?
    requires FreePasses(rule)
    ensures Reachable(rule, s, WithPass(t, q, Pass(true, map[n := t.dir[n]], {}, {}, {})))
  {
    var t1 := WithPass(t, q, Pass(true, map[], {}, {}, {}));
    ReachMore(rule, s, t, Begin(q), t1);
    assert MayPass(t1, q, See(n));
    var t2 := WithPass(t, q, Pass(true, map[n := t.dir[n]], {}, {}, {}));
    assert t1.passes[q := t2.passes[q]] == t2.passes;
    ReachMore(rule, s, t1, Delete(q, See(n)), t2);
  }

  /** When there are no claims, a pass that saw `n` may go on to remove it. */
  lemma Lists(rule: (State, Action) -> bool, s: State, t: State, q: PassId, seen: map<FileName,
              Inode>)
    requires Reachable(rule, s, WithPass(t, q, Pass(true, seen, {}, {}, {}))) && t.claims == map[]
    requires FreePasses(rule)
    ensures Reachable(rule, s, WithPass(t, q, Pass(false, seen, {}, {}, {})))
  {
    var t1, t2 := WithPass(t, q, Pass(true, seen, {}, {}, {})), WithPass(t, q, Pass(false, seen, {}, {}, {}));
    assert MayPass(t1, q, ListClaims) && t1.claims.Keys == {};
    assert t1.passes[q := t2.passes[q]] == t2.passes;
    ReachMore(rule, s, t1, Delete(q, ListClaims), t2);
  }

  lemma Removes(rule: (State, Action) -> bool, s: State, t: State, q: PassId, n: FileName,
                ino: Inode)
    requires Reachable(rule, s, WithPass(t, q, Pass(false, map[n := ino], {}, {}, {}))) && n in t.dir
    requires FreePasses(rule)
    ensures Reachable(rule, s, WithPass(t.(dir := t.dir - {n}), q, Pass(false, map[], {}, {}, {})))
  {
    var t1, t2 := WithPass(t, q, Pass(false, map[n := ino], {}, {}, {})),
                  WithPass(t.(dir := t.dir - {n}), q, Pass(false, map[], {}, {}, {}));
    assert MayPass(t1, q, Remove(n));
    assert map[n := ino] - {n} == map[];
    assert t1.passes[q := t2.passes[q]] == t2.passes;
    ReachMore(rule, s, t1, Delete(q, Remove(n)), t2);
  }

  function OneFile(n: FileName): State {
    State(map[n := 0], map[0 := File(0, Wip("a", 0), "", Some(n))], map[], map[], map[], multiset{})
  }

  /** Pass 1 saw the file that pass 2 has removed, and listed the claims. */
  function Stale(n: FileName): State {
    var t := OneFile(n);
    t.(dir := map[], passes := map[1 := Pass(false, map[n := 0], {}, {}, {}), 2 := Pass(false, map[], {}, {}, {})])
  }

  lemma StaleReachable(n: FileName)
    requires n.Auto?
    ensures Reachable(SafeStart, OneFile(n), Stale(n))
  {
    var s, scan, armed := OneFile(n), Pass(true, map[n := 0], {}, {}, {}), Pass(false, map[n := 0], {}, {}, {});
    PassesAreFree();
    assert Along(SafeStart, s, []) && After(s, []) == s;
    Sees(SafeStart, s, s, 1, n);
    var one := WithPass(s, 1, scan);
    Lists(SafeStart, s, s, 1, scan.seen);
    var ready := WithPass(s, 1, armed);
    Sees(SafeStart, s, ready, 2, n);
    Lists(SafeStart, s, ready, 2, scan.seen);
    Removes(SafeStart, s, ready, 2, n, 0);
    assert s.dir - {n} == map[];
    assert WithPass(ready.(dir := ready.dir - {n}), 2, Pass(false, map[], {}, {}, {})).passes == Stale(n).passes;
  }

  /** Two passes see an old snapshot before either removes it; the second does; a session then
      publishes under the name that became free, and claims it; the first pass removes the
      session's backing. Nothing but the re-use of the name is at fault. */
  lemma ReuseLosesBacking(stamp: string)
    ensures var n := Auto(stamp, 1);
            var t := Published(Stale(n), 5, false, "b", 1, n);
            && Init(OneFile(n)) && Reachable(SafeStart, OneFile(n), t)
            && Live(t.procs[5], n, 1) && Leads(t.dir, n, 1) && 5 in t.claims && t.claims[5] == n
            && n !in Next(t, Delete(1, Remove(n))).dir
  {
    var n := Auto(stamp, 1);
    StaleReachable(n);
    RunAlone(SafeStart, OneFile(n), Stale(n), 5, false, "b", 1, stamp);
    var t := Published(Stale(n), 5, false, "b", 1, n);
    assert MayPass(t, 1, Remove(n));
  }

  /** The state after a headless query published over `s` and removed its file again. */
  function OwnRemoved(s: State, n: FileName): State {
    Published(s, 3, true, "h", 1, n).(dir := s.dir)
  }

  lemma OwnRemovedReachable(s: State, stamp: string)
    requires s.procs == map[] && s.condemned == multiset{} && Wip("h", 3) !in s.dir && 1 !in s.disk
             && Auto(stamp, 1) !in s.dir
    ensures Reachable(SafeStart, s, OwnRemoved(s, Auto(stamp, 1)))
  {
    var n := Auto(stamp, 1);
    assert Along(SafeStart, s, []) && After(s, []) == s;
    RunAlone(SafeStart, s, s, 3, true, "h", 1, stamp);
    RemovesOwn(s, n);
    ReachMore(SafeStart, s, Published(s, 3, true, "h", 1, n), Publish(3, RemoveOwn), OwnRemoved(s, n));
  }

  lemma RemovesOwn(s: State, n: FileName)
    requires n !in s.dir
    ensures Next(Published(s, 3, true, "h", 1, n), Publish(3, RemoveOwn)) == OwnRemoved(s, n)
  {
    var h := Published(s, 3, true, "h", 1, n);
    assert MayPublish(h, 3, RemoveOwn);
    assert h.dir - {n} == s.dir;
  }

  /** A cancelled headless query removes its snapshot twice; between the two, a session that
      publishes under the same name loses its backing. */
  lemma SecondCleanupLosesBacking(stamp: string)
    ensures var s, n := Empty(map[]), Auto(stamp, 1);
            var t := Published(OwnRemoved(s, n), 5, false, "b", 2, n);
            && Init(s) && Reachable(SafeStart, s, t)
            && Live(t.procs[5], n, 2) && Leads(t.dir, n, 2) && 5 in t.claims && t.claims[5] == n
            && n !in Next(t, Publish(3, RemoveOwn)).dir
  {
    var s, n := Empty(map[]), Auto(stamp, 1);
    OwnRemovedReachable(s, stamp);
    RunAlone(SafeStart, s, OwnRemoved(s, n), 5, false, "b", 2, stamp);
    var t := Published(OwnRemoved(s, n), 5, false, "b", 2, n);
    assert MayPublish(t, 3, RemoveOwn);
  }

  /** A session's snapshot, and a pass that saw it but could not read the session's claim. */
  function Unreadable(stamp: string): State {
    WithPass(Published(Empty(map[]), 5, false, "b", 1, Auto(stamp, 1)), 1,
             Pass(false, map[Auto(stamp, 1) := 1], {}, {}, {5}))
  }

  lemma FailsToRead(rule: (State, Action) -> bool, s: State, t: State, seen: map<FileName, Inode>)
    requires Reachable(rule, s, WithPass(t, 1, Pass(true, seen, {}, {}, {}))) && t.claims.Keys == {5}
    requires FreePasses(rule)
    ensures Reachable(rule, s, WithPass(t, 1, Pass(false, seen, {}, {}, {5})))
  {
    var t1, t2 := WithPass(t, 1, Pass(true, seen, {}, {}, {})), WithPass(t, 1, Pass(false, seen, {5}, {}, {}));
    assert MayPass(t1, 1, ListClaims) && t1.claims.Keys == {5};
    assert t1.passes[1 := t2.passes[1]] == t2.passes;
    ReachMore(rule, s, t1, Delete(1, ListClaims), t2);
    ReadsNothing(t, seen);
    ReachMore(rule, s, t2, Delete(1, ReadClaim(5, false)), WithPass(t, 1, Pass(false, seen, {}, {}, {5})));
  }

  lemma ReadsNothing(t: State, seen: map<FileName, Inode>)
    ensures Next(WithPass(t, 1, Pass(false, seen, {5}, {}, {})), Delete(1, ReadClaim(5, false)))
            == WithPass(t, 1, Pass(false, seen, {}, {}, {5}))
  {
    var t2, t3 := WithPass(t, 1, Pass(false, seen, {5}, {}, {})), WithPass(t, 1, Pass(false, seen, {}, {}, {5}));
    var none, pending: set<Pid> := {}, {5};
    assert MayPass(t2, 1, ReadClaim(5, false));
    assert pending - {5} == none && none + {5} == pending;
    assert t2.passes[1 := t3.passes[1]] == t3.passes;
  }

  lemma LetsAlone(p: Pid, token: string, ino: Inode, stamp: string)
    ensures Lets(Unreused, Empty(map[]), p, false, token, ino, stamp)
  {
  }

  /** A session that runs by itself from an empty directory publishes, under the strictest rule. */
  lemma FirstSession(stamp: string)
    ensures Reachable(Unreused, Empty(map[]), Published(Empty(map[]), 5, false, "b", 1, Auto(stamp, 1)))
  {
    var s := Empty(map[]);
    assert Along(Unreused, s, []) && After(s, []) == s;
    LetsAlone(5, "b", 1, stamp);
    RunAlone(Unreused, s, s, 5, false, "b", 1, stamp);
  }

  /** A pass sees the only file of a session, and cannot read the session's claim. */
  lemma SeesBlindly(rule: (State, Action) -> bool, s: State, t: State, n: FileName)
    requires Reachable(rule, s, t) && FreePasses(rule) && n in t.dir && n.Auto? && 1 !in t.passes
             && t.claims.Keys == {5}
    ensures Reachable(rule, s, WithPass(t, 1, Pass(false, map[n := t.dir[n]], {}, {}, {5})))
  {
    Sees(rule, s, t, 1, n);
    FailsToRead(rule, s, t, map[n := t.dir[n]]);
  }

  lemma UnreadableReachable(stamp: string)
    ensures Reachable(Unreused, Empty(map[]), Unreadable(stamp))
  {
    var t := Published(Empty(map[]), 5, false, "b", 1, Auto(stamp, 1));
    FirstSession(stamp);
    PassesAreFree();
    assert t.claims.Keys == {5};
    SeesBlindly(Unreused, Empty(map[]), t, Auto(stamp, 1));
  }

  /** A pass that cannot read a live session's claim takes the name as free, and removes the very file
      it saw: with no name bound again, and no pid used again. */
  lemma UnreadLosesBacking(stamp: string)
    ensures Init(Empty(map[])) && Reachable(Unreused, Empty(map[]), Unreadable(stamp))
    ensures var n, t := Auto(stamp, 1), Unreadable(stamp);
            && Live(t.procs[5], n, 1) && Leads(t.dir, n, 1) && 5 in t.claims && t.claims[5] == n
            && t.passes[1].seen[n] == t.dir[n] && n !in Next(t, Delete(1, Remove(n))).dir
  {
    UnreadableReachable(stamp);
    assert MayPass(Unreadable(stamp), 1, Remove(Auto(stamp, 1)));
  }

  predicate Anything(s: State, a: Action) {
    true
  }

  lemma Condemned(s: State, p: Pid)
    requires p !in s.procs && s.condemned == multiset{}
    ensures Reachable(Anything, s, s.(condemned := multiset{p}))
  {
    assert Along(Anything, s, []) && After(s, []) == s;
    assert multiset{} + multiset{p} == multiset{p};
    ReachMore(Anything, s, s, Condemn(p), s.(condemned := multiset{p}));
  }

  /** A sweep that found a claim's owner dead removes the claim of a session that has started
      under the same pid since. */
  lemma PidReuseLosesClaim(p: Pid, stale: FileName, stamp: string)
    ensures var s, n := Empty(map[p := stale]), Auto(stamp, 1);
            var t := Published(s.(condemned := multiset{p}), p, false, "b", 1, n);
            && Init(s) && Reachable(Anything, s, t)
            && Live(t.procs[p], n, 1) && p in t.claims && t.claims[p] == n
            && Enabled(t, SweepClaim(p)) && p !in Next(t, SweepClaim(p)).claims
  {
    var s := Empty(map[p := stale]);
    Condemned(s, p);
    RunAlone(Anything, s, s.(condemned := multiset{p}), p, false, "b", 1, stamp);
  }
}
