/** The snapshot directory shared by any number of processes: publishers that claim, link and
    unlink, and passes that scan, read the claims and only then remove. One action is one
    file-system call of one process; a run is any sequence of actions. */
module Protocol {
  import opened Options
  import opened Names

  type Pid = nat
  type Inode = nat
  type PassId = nat

  /** A file's history: who wrote it, under which work-in-progress name, what it holds, and the
      automatic name it was published under. */
  datatype File = File(owner: Pid, wip: FileName, content: string, published: Option<FileName>)

  datatype Backing = Backing(name: FileName, ino: Inode)

  /** What a process is doing with its own file. `Trying` is about to link candidate `k`;
      `Owned` is a headless query that may still remove what it published. */
  datatype Job =
    | NoJob
    | Fetching(token: string, ino: Inode)
    | Trying(token: string, ino: Inode, stamp: string, k: nat, claimed: bool)
    | Linked(token: string, ino: Inode, name: FileName)
    | Owned(name: FileName, ino: Inode)

  /** A live process: a TUI session, which claims its backing, or a headless query, which never
      claims. */
  datatype Proc = Proc(headless: bool, backing: Option<Backing>, job: Job)

  /** A deletion pass: what its scans saw, and once it turned to the claim files, which it still
      has to read, which names they held, and which of them it could not read. */
  datatype Pass = Pass(scanning: bool, seen: map<FileName, Inode>, pending: set<Pid>, held: set<FileName>,
                       unread: set<Pid>)

  datatype State = State(dir: map<FileName, Inode>,
                         disk: map<Inode, File>,
                         claims: map<Pid, FileName>,
                         procs: map<Pid, Proc>,
                         passes: map<PassId, Pass>,
                         condemned: multiset<Pid>)

  /** The calls of a publisher on its own files. */
  datatype PublishOp =
    | SetClaim(claim: Option<FileName>)
    | CreateWip(token: string, ino: Inode)
    | Append(data: string)
    | CloseWip(stamp: string)
    | Preclaim
    | Link
    | Unlink(ok: bool)
    | Abort
    | Discard
    | RemoveOwn

  /** The calls of a retention, prune or rm pass, or of a stale work-in-progress sweep. */
  datatype PassOp =
    | See(n: FileName)
    | ListClaims
    | ReadClaim(p: Pid, ok: bool)
    | Remove(n: FileName)
    | Sweep(n: FileName)
    | End

  /** A stale claim sweep checks that a claim's owner is dead (`Condemn`) and then removes the
      claim file, or dies itself first (`Spare`). */
  datatype Action =
    | Start(p: Pid, headless: bool)
    | Kill(p: Pid)
    | Publish(p: Pid, op: PublishOp)
    | Begin(q: PassId)
    | Delete(q: PassId, step: PassOp)
    | Condemn(p: Pid)
    | SweepClaim(p: Pid)
    | Spare(p: Pid)

  function Candidate(j: Job): FileName
    requires j.Trying?
  {
    Auto(j.stamp, j.k)
  }

  predicate HasWip(j: Job) {
    j.Fetching? || j.Trying? || j.Linked?
  }

  /** A TUI session claims a candidate before it links it; a headless query claims nothing. */
  predicate MayPublish(s: State, p: Pid, op: PublishOp) {
    && p in s.procs
    && var proc := s.procs[p];
       var job := proc.job;
       match op
       case SetClaim(_) => !proc.headless && (job.NoJob? || job.Fetching?)
       case CreateWip(token, ino) => job.NoJob? && Wip(token, p) !in s.dir && ino !in s.disk
       case Append(_) => job.Fetching? && job.ino in s.disk
       case CloseWip(_) => job.Fetching?
       case Preclaim => !proc.headless && job.Trying? && !job.claimed
       case Link => job.Trying? && (proc.headless || job.claimed)
       case Unlink(_) => job.Linked?
       case Abort => job.Fetching? || job.Trying?
       case Discard => job.Fetching? || job.Trying?
       case RemoveOwn => job.Owned?
  }

  /** A pass scans first, then lists the claims, reads each of them and removes only what none of
      those it could read held. A work-in-progress file is a target only while its owner is dead. */
  predicate MayPass(s: State, q: PassId, op: PassOp) {
    && q in s.passes
    && var pass := s.passes[q];
       match op
       case See(n) => pass.scanning && n in s.dir && !n.Claim? && (n.Wip? ==> n.pid !in s.procs)
       case ListClaims => pass.scanning
       case ReadClaim(p, _) => p in pass.pending
       case Remove(n) => !pass.scanning && pass.pending == {} && n in pass.seen && n !in pass.held && n in s.dir
       case Sweep(n) => n in pass.seen && n.Wip? && n in s.dir
       case End => true
  }

  predicate Enabled(s: State, a: Action) {
    match a
    case Start(p, _) => p !in s.procs
    case Kill(p) => p in s.procs
    case Publish(p, op) => MayPublish(s, p, op)
    case Begin(q) => q !in s.passes
    case Delete(q, op) => MayPass(s, q, op)
    case Condemn(p) => p !in s.procs
    case SweepClaim(p) => s.condemned[p] > 0
    case Spare(p) => s.condemned[p] > 0
  }

  function SetProc(s: State, p: Pid, proc: Proc): State {
    s.(procs := s.procs[p := proc])
  }

  function SetPass(s: State, q: PassId, pass: Pass): State {
    s.(passes := s.passes[q := pass])
  }

  /** Links the work-in-progress file to its candidate name: refused when the name is bound, in
      which case the next candidate is tried; failing when the file is gone. */
  function LinkStep(s: State, p: Pid): State
    requires MayPublish(s, p, Link)
  {
    var proc := s.procs[p];
    var job := proc.job;
    var wip, name := Wip(job.token, p), Candidate(job);
    if wip !in s.dir || s.dir[wip] !in s.disk then SetProc(s, p, proc.(job := NoJob))
    else if name in s.dir then
      SetProc(s, p, proc.(job := if job.k == MAX_UINT64 then NoJob else job.(k := job.k + 1, claimed := false)))
    else
      var ino := s.dir[wip];
      s.(dir := s.dir[name := ino],
         disk := s.disk[ino := s.disk[ino].(published := Some(name))],
         procs := s.procs[p := proc.(job := Linked(job.token, ino, name))])
  }

  /** What publishing actions do; they touch no pass. */
  function PublishStep(s: State, p: Pid, op: PublishOp): State
    requires MayPublish(s, p, op)
  {
    var proc := s.procs[p];
    var job := proc.job;
    match op
    case SetClaim(claim) =>
      var keeps := proc.backing.Some? && claim == Some(proc.backing.value.name);
      s.(claims := if claim.Some? then s.claims[p := claim.value] else s.claims - {p},
         procs := s.procs[p := if keeps then proc else proc.(backing := None)])
    case CreateWip(token, ino) =>
      s.(dir := s.dir[Wip(token, p) := ino],
         disk := s.disk[ino := File(p, Wip(token, p), "", None)],
         procs := s.procs[p := proc.(job := Fetching(token, ino))])
    case Append(data) =>
      s.(disk := s.disk[job.ino := s.disk[job.ino].(content := s.disk[job.ino].content + data)])
    case CloseWip(stamp) => SetProc(s, p, proc.(job := Trying(job.token, job.ino, stamp, 1, false)))
    case Preclaim =>
      s.(claims := s.claims[p := Candidate(job)],
         procs := s.procs[p := proc.(backing := None, job := job.(claimed := true))])
    case Link => LinkStep(s, p)
    case Unlink(ok) =>
      var done := if proc.headless then proc.(job := Owned(job.name, job.ino))
                  else proc.(backing := Some(Backing(job.name, job.ino)), job := NoJob);
      s.(dir := if ok then s.dir - {Wip(job.token, p)} else s.dir, procs := s.procs[p := done])
    case Abort => SetProc(s, p, proc.(job := NoJob))
    case Discard => SetProc(s.(dir := s.dir - {Wip(job.token, p)}), p, proc.(job := NoJob))
    case RemoveOwn => s.(dir := s.dir - {job.name})
  }

  function PassStep(s: State, q: PassId, op: PassOp): State
    requires MayPass(s, q, op)
  {
    var pass := s.passes[q];
    match op
    case See(n) => SetPass(s, q, pass.(seen := pass.seen[n := s.dir[n]]))
    case ListClaims => SetPass(s, q, pass.(scanning := false, pending := s.claims.Keys))
    case ReadClaim(p, ok) =>
      var held := if ok && p in s.procs && p in s.claims then pass.held + {s.claims[p]} else pass.held;
      var unread := if ok then pass.unread else pass.unread + {p};
      SetPass(s, q, Pass(pass.scanning, pass.seen, pass.pending - {p}, held, unread))
    case Remove(n) => SetPass(s.(dir := s.dir - {n}), q, pass.(seen := pass.seen - {n}))
    case Sweep(n) => SetPass(s.(dir := s.dir - {n}), q, pass.(seen := pass.seen - {n}))
    case End => s.(passes := s.passes - {q})
  }

  function Next(s: State, a: Action): State {
    if !Enabled(s, a) then s
    else match a
      case Start(p, headless) => SetProc(s, p, Proc(headless, None, NoJob))
      case Kill(p) => s.(procs := s.procs - {p})
      case Publish(p, op) => PublishStep(s, p, op)
      case Begin(q) => SetPass(s, q, Pass(true, map[], {}, {}, {}))
      case Delete(q, op) => PassStep(s, q, op)
      case Condemn(p) => s.(condemned := s.condemned + multiset{p})
      case SweepClaim(p) => s.(claims := s.claims - {p}, condemned := s.condemned - multiset{p})
      case Spare(p) => s.(condemned := s.condemned - multiset{p})
  }

  function After(s: State, run: seq<Action>): State {
    if run == [] then s else Next(After(s, run[..|run| - 1]), run[|run| - 1])
  }
}
