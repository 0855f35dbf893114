/** A process signal against the final outcome of a headless query: the run's own steps from
    publication to its last line, the signal watcher, and the gate both pass through, in every
    interleaving, while other processes may remove the published file. */
module SignalGate {
  import opened Options

  datatype Signal = Interrupt | Terminate

  function ExitCode(sig: Signal): int {
    if sig.Terminate? then 143 else 130
  }

  /** What finalizeQuerySnapshot handed back: `Cleanup` is a published snapshot whose
      work-in-progress file could not be removed. */
  datatype Failure = NoFailure | Cleanup | Other
  datatype Result = Result(failure: Failure, retained: bool)

  /** The run's program counter. `failure` is NoFailure or Cleanup until the finalizer fails. */
  datatype Pc =
    | Working                                  // everything up to the checkpoint before publication
    | Publishing                               // the publication attempt
    | Renamed                                  // published; the checkpoint right after it
    | BeforeRetention(failure: Failure)        // from here the deferred removal is installed
    | Retention(failure: Failure)
    | Notification(failure: Failure)
    | Resolution(failure: Failure)
    | BeforeOutcome(failure: Failure, retained: bool)
    | Deferred                                 // the finalizer failed: its deferred removal
    | Tail(result: Result)                     // is the context cancelled?
    | Judged(result: Result)                   // errors, then retention
    | Committing(failure: Failure)
    | Removing                                 // cancelled: the tail's own removal
    | Reporting(failure: Failure)              // committed: selector or tee line
    | Returned(exit: int)
    | Exited(exit: int)

  datatype Watcher = Waiting | Received(sig: Signal) | Won(sig: Signal) | Stopped(sent: Option<Signal>)

  /** `present` is whether this run's snapshot is bound at its final path; `removals` counts the
      run's own attempts to remove it. */
  datatype State = State(pc: Pc, watcher: Watcher, cancelled: bool, committed: bool,
                         published: bool, present: bool, removals: nat, removeFailed: bool,
                         tee: bool, selector: bool)

  /** `ok` and `exit` are what the calls of a step answer. */
  datatype Action =
    | Run(ok: bool, cleanup: bool, exit: int)
    | Arrive(sig: Signal)
    | CancelForSignal
    | Send
    | Stop
    | Exit
    | OtherRemoves

  predicate Init(s: State) {
    && s.pc == Working && s.watcher == Waiting
    && !s.cancelled && !s.committed && !s.published && !s.present && s.removals == 0 && !s.removeFailed && !s.selector
  }

  predicate Finalizing(pc: Pc) {
    pc.Working? || pc.Publishing? || pc.Renamed? || pc.BeforeRetention? || pc.Retention? || pc.Notification?
    || pc.Resolution? || pc.BeforeOutcome? || pc.Deferred?
  }

  /** Where a step of the finalizer leads. Its checkpoints fail once the context is cancelled. */
  function FinalizePc(s: State, ok: bool, cleanup: bool, exit: int): Pc
    requires Finalizing(s.pc)
  {
    match s.pc
    case Working => if !ok || s.cancelled then Returned(exit) else Publishing
    case Publishing => if !ok then Returned(exit) else if cleanup then BeforeRetention(Cleanup) else Renamed
    case Renamed => if s.cancelled then Tail(Result(Other, false)) else BeforeRetention(NoFailure)
    case BeforeRetention(f) => if s.cancelled then Deferred else Retention(f)
    case Retention(f) => if s.cancelled then Deferred else Notification(f)
    case Notification(f) => if s.cancelled then Deferred else Resolution(f)
    case Resolution(f) => if !ok then Deferred else BeforeOutcome(f, s.present)
    case BeforeOutcome(f, retained) => if s.cancelled then Deferred else Tail(Result(f, retained))
    case Deferred => Tail(Result(Other, false))
  }

  /** Where a step of the run after the finalizer leads. */
  function TailPc(s: State, exit: int): Pc
    requires !Finalizing(s.pc)
  {
    match s.pc
    case Tail(result) => if s.cancelled then Removing else Judged(result)
    case Judged(result) =>
      if result.failure.Other? || !result.retained then Returned(exit) else Committing(result.failure)
    case Committing(f) => if s.cancelled then Removing else Reporting(f)
    case Removing => Returned(exit)
    case Reporting(_) => Returned(exit)
    case Returned(_) => s.pc
    case Exited(_) => s.pc
  }

  predicate RemovesNow(pc: Pc) {
    pc.Deferred? || pc.Removing?
  }

  /** One step of the run. `commit` and the selector come after the finalizer, and only there. */
  function RunStep(s: State, ok: bool, cleanup: bool, exit: int): State {
    var publishes := s.pc.Publishing? && ok;
    s.(pc := if Finalizing(s.pc) then FinalizePc(s, ok, cleanup, exit) else TailPc(s, exit),
       committed := s.committed || (s.pc.Committing? && !s.cancelled),
       published := s.published || publishes,
       present := publishes || (s.present && !(RemovesNow(s.pc) && ok)),
       removals := s.removals + if RemovesNow(s.pc) then 1 else 0,
       removeFailed := s.removeFailed || (RemovesNow(s.pc) && !ok),
       selector := s.selector || (s.pc.Reporting? && !s.tee && ok))
  }

  /** cancelForSignal, under the gate's lock. */
  function SignalStep(s: State, sig: Signal): State {
    if s.committed then s.(watcher := Stopped(None)) else s.(cancelled := true, watcher := Won(sig))
  }

  function Next(s: State, a: Action): State {
    match a
    case Run(ok, cleanup, exit) => RunStep(s, ok, cleanup, exit)
    case Arrive(sig) => if s.watcher.Waiting? then s.(watcher := Received(sig)) else s
    case CancelForSignal => if s.watcher.Received? then SignalStep(s, s.watcher.sig) else s
    case Send => if s.watcher.Won? then s.(watcher := Stopped(Some(s.watcher.sig))) else s
    case Stop => if s.pc.Returned? && s.watcher.Waiting? then s.(watcher := Stopped(None)) else s
    case Exit =>
      if s.pc.Returned? && s.watcher.Stopped? then
        s.(pc := Exited(if s.watcher.sent.Some? then ExitCode(s.watcher.sent.value) else s.pc.exit))
      else s
    case OtherRemoves => s.(present := false)
  }

  function After(s: State, run: seq<Action>): State {
    if run == [] then s else Next(After(s, run[..|run| - 1]), run[|run| - 1])
  }

  // ---------------------------------------------------------------- invariant

  /** This run's snapshot is gone, unless removing it failed. */
  predicate Gone(s: State) {
    s.present ==> s.removeFailed
  }

  predicate SignalWon(w: Watcher) {
    w.Won? || (w.Stopped? && w.sent.Some?)
  }

  predicate Finished(pc: Pc) {
    pc.Reporting? || pc.Returned? || pc.Exited?
  }

  /** Up to the commit the run has not tried to remove anything. */
  predicate Unremoved(s: State, f: Failure) {
    !f.Other? && s.removals == 0
  }

  /** What is known where the run is. */
  predicate PcOk(s: State) {
    match s.pc
    case Working => !s.published && s.removals == 0
    case Publishing => !s.published && s.removals == 0
    case Renamed => s.published && s.removals == 0
    case BeforeRetention(f) => s.published && Unremoved(s, f)
    case Retention(f) => s.published && Unremoved(s, f)
    case Notification(f) => s.published && Unremoved(s, f)
    case Resolution(f) => s.published && Unremoved(s, f)
    case BeforeOutcome(f, retained) => s.published && Unremoved(s, f) && (retained || !s.present)
    case Deferred => s.published
    case Tail(r) =>
      && s.published
      && if r.failure.Other? then s.cancelled || Gone(s)
         else Unremoved(s, r.failure) && (r.retained || !s.present)
    case Judged(r) =>
      && s.published
      && if r.failure.Other? then Gone(s) else Unremoved(s, r.failure) && (r.retained || !s.present)
    case Committing(f) => s.published && Unremoved(s, f)
    case Removing => s.cancelled
    case Reporting(_) => s.committed
    case Returned(_) => s.committed || Gone(s)
    case Exited(exit) =>
      && (s.committed || Gone(s))
      && s.watcher.Stopped?
      && (s.watcher.sent.Some? ==> exit == ExitCode(s.watcher.sent.value))
  }

  predicate Inv(s: State) {
    && (s.cancelled <==> SignalWon(s.watcher))
    && !(s.cancelled && s.committed)
    && (s.selector ==> s.committed)
    && (s.committed ==> s.published && s.removals == 0 && Finished(s.pc))
    && (s.present ==> s.published)
    && PcOk(s)
  }

  lemma RunStepKeeps(s: State, ok: bool, cleanup: bool, exit: int)
    requires Inv(s)
    ensures Inv(RunStep(s, ok, cleanup, exit))
  {
    if Finalizing(s.pc) {
      assert PcOk(RunStep(s, ok, cleanup, exit));
    } else {
      assert PcOk(RunStep(s, ok, cleanup, exit));
    }
  }

  lemma StepKeeps(s: State, a: Action)
    requires Inv(s)
    ensures Inv(Next(s, a))
  {
    if a.Run? {
      RunStepKeeps(s, a.ok, a.cleanup, a.exit);
    }
  }

  lemma {:induction false} RunKeeps(s: State, run: seq<Action>)
    requires Inv(s)
    ensures Inv(After(s, run))
    decreases |run|
  {
    if run == [] {
    } else {
      RunKeeps(s, run[..|run| - 1]);
      StepKeeps(After(s, run[..|run| - 1]), run[|run| - 1]);
    }
  }

  // ---------------------------------------------------------------- signal against commit

  /** At exit exactly one of three things has happened. The signal won: no selector was written,
      the snapshot is gone unless its removal failed, and the exit code is 130 or 143. The commit
      won: the run never tried to remove its snapshot. Or neither: the run failed or kept nothing,
      and leaves no snapshot and no selector. */
  lemma SignalOrCommit(s: State, run: seq<Action>)
    requires Init(s) && After(s, run).pc.Exited?
    ensures var t := After(s, run);
            && t.watcher.Stopped?
            && (t.watcher.sent.Some? ==>
                  && t.cancelled && !t.committed && !t.selector && Gone(t)
                  && t.pc.exit == if t.watcher.sent.value == Interrupt then 130 else 143)
            && (t.committed ==> t.published && !t.cancelled && t.watcher.sent.None? && t.removals == 0)
            && (!t.committed ==> !t.selector && Gone(t))
  {
    RunKeeps(s, run);
  }

  lemma CommittedStep(s: State, a: Action)
    requires Inv(s) && s.committed
    ensures var t := Next(s, a);
            && t.committed && (s.selector ==> t.selector)
            && (s.pc.Returned? ==> t.pc == s.pc || t.pc == Exited(s.pc.exit))
            && (s.pc.Exited? ==> t.pc == s.pc)
  {
  }

  /** A commit is final: whatever happens after it, the run removes nothing, no signal cancels it,
      and the exit code is the one the run returned. */
  lemma {:induction false} CommitIsFinal(s: State, run: seq<Action>)
    requires Inv(s) && s.committed
    ensures var t := After(s, run);
            && Inv(t) && t.committed && !t.cancelled && t.removals == 0
            && (s.pc.Returned? ==> t.pc == s.pc || t.pc == Exited(s.pc.exit))
            && (s.selector ==> t.selector)
    decreases |run|
  {
    if run == [] {
    } else {
      CommitIsFinal(s, run[..|run| - 1]);
      var t, a := After(s, run[..|run| - 1]), run[|run| - 1];
      StepKeeps(t, a);
      CommittedStep(t, a);
    }
  }

  lemma CancelledStep(s: State, a: Action)
    requires s.cancelled
    ensures Next(s, a).cancelled
  {
  }

  /** A signal that wins is final too: nothing is committed and no selector is written after it. */
  lemma {:induction false} CancelIsFinal(s: State, run: seq<Action>)
    requires Inv(s) && s.cancelled
    ensures var t := After(s, run); t.cancelled && !t.committed && !t.selector
    decreases |run|
  {
    RunKeeps(s, run);
    if run == [] {
    } else {
      CancelIsFinal(s, run[..|run| - 1]);
      CancelledStep(After(s, run[..|run| - 1]), run[|run| - 1]);
    }
  }

  // ---------------------------------------------------------------- who wins

  /** A signal that arrives while the watcher waits, and gets to the gate before the commit, cancels the
      run: if it ever exits, it does so with the signal's code, nothing is committed, no selector is
      written, and the snapshot is gone unless removing it failed. */
  lemma SignalWins(s: State, sig: Signal, between: seq<Action>, run: seq<Action>)
    requires Inv(s) && s.watcher.Waiting? && CancelForSignal !in between
    requires !After(Next(s, Arrive(sig)), between).committed
    ensures var t := After(Next(After(Next(s, Arrive(sig)), between), CancelForSignal), run);
            && t.cancelled && !t.committed && !t.selector
            && (t.pc.Exited? ==> t.pc.exit == (if sig == Interrupt then 130 else 143) && Gone(t))
  {
    StepKeeps(s, Arrive(sig));
    RunKeeps(Next(s, Arrive(sig)), between);
    ReceivedStays(Next(s, Arrive(sig)), between);
    GateCancels(After(Next(s, Arrive(sig)), between), sig, run);
  }

  lemma {:induction false} ReceivedStays(s: State, run: seq<Action>)
    requires s.watcher.Received? && CancelForSignal !in run
    ensures After(s, run).watcher == s.watcher
    decreases |run|
  {
    if run == [] {
    } else {
      ReceivedStays(s, run[..|run| - 1]);
    }
  }

  lemma GateCancels(s: State, sig: Signal, run: seq<Action>)
    requires Inv(s) && s.watcher == Received(sig) && !s.committed
    ensures var t := After(Next(s, CancelForSignal), run);
            && t.cancelled && !t.committed && !t.selector
            && (t.pc.Exited? ==> t.pc.exit == (if sig == Interrupt then 130 else 143) && Gone(t))
  {
    var won := Next(s, CancelForSignal);
    StepKeeps(s, CancelForSignal);
    CancelIsFinal(won, run);
    WonStays(won, sig, run);
    RunKeeps(won, run);
  }

  /** The winning signal is the one that is sent. */
  predicate WonBy(w: Watcher, sig: Signal) {
    w == Won(sig) || w == Stopped(Some(sig))
  }

  lemma {:induction false} WonStays(s: State, sig: Signal, run: seq<Action>)
    requires WonBy(s.watcher, sig)
    ensures WonBy(After(s, run).watcher, sig)
    decreases |run|
  {
    if run == [] {
    } else {
      WonStays(s, sig, run[..|run| - 1]);
      WonStep(After(s, run[..|run| - 1]), sig, run[|run| - 1]);
    }
  }

  lemma WonStep(s: State, sig: Signal, a: Action)
    requires WonBy(s.watcher, sig)
    ensures WonBy(Next(s, a).watcher, sig)
  {
    if a.Run? {
      hide FinalizePc, TailPc;
    }
  }

  // ---------------------------------------------------------------- every run ends

  function Steps(run: seq<Action>): nat {
    if run == [] then 0 else Steps(run[..|run| - 1]) + if run[|run| - 1].Run? then 1 else 0
  }

  /** How many more steps a run makes at most before it returns. */
  function Left(pc: Pc): nat {
    match pc
    case Deferred => 5
    case Removing => 1
    case Returned(_) => 0
    case Exited(_) => 0
    case Working => 13
    case Publishing => 12
    case Renamed => 11
    case BeforeRetention(_) => 10
    case Retention(_) => 9
    case Notification(_) => 8
    case Resolution(_) => 7
    case BeforeOutcome(_, _) => 6
    case Tail(_) => 4
    case Judged(_) => 3
    case Committing(_) => 2
    case Reporting(_) => 1
  }

  lemma StepEnds(s: State, a: Action)
    ensures Left(Next(s, a).pc) <= Left(s.pc)
    ensures a.Run? && Left(s.pc) > 0 ==> Left(Next(s, a).pc) < Left(s.pc)
  {
    if a.Run? {
      RunStepEnds(s, a.ok, a.cleanup, a.exit);
    } else {
      assert Next(s, a).pc == s.pc || (s.pc.Returned? && Next(s, a).pc.Exited?);
    }
  }

  lemma RunStepEnds(s: State, ok: bool, cleanup: bool, exit: int)
    ensures Left(RunStep(s, ok, cleanup, exit).pc) < Left(s.pc)
            || Left(RunStep(s, ok, cleanup, exit).pc) == Left(s.pc) == 0
  {
    if Finalizing(s.pc) {
      FinalizeEnds(s, ok, cleanup, exit);
    } else {
      TailEnds(s, exit);
    }
  }

  lemma FinalizeEnds(s: State, ok: bool, cleanup: bool, exit: int)
    requires Finalizing(s.pc)
    ensures Left(FinalizePc(s, ok, cleanup, exit)) < Left(s.pc)
  {
  }

  lemma TailEnds(s: State, exit: int)
    requires !Finalizing(s.pc)
    ensures Left(TailPc(s, exit)) < Left(s.pc) || Left(TailPc(s, exit)) == Left(s.pc) == 0
  {
  }

  /** A run returns, or has exited, after thirteen steps at the latest, whatever its calls answer and
      whatever others do; and its code, if no signal was sent, is its own. */
  lemma {:induction false} RunEnds(s: State, run: seq<Action>)
    ensures Left(After(s, run).pc) + Steps(run) <= Left(s.pc) || Left(After(s, run).pc) == 0
    decreases |run|
  {
    if run == [] {
    } else {
      RunEnds(s, run[..|run| - 1]);
      StepEnds(After(s, run[..|run| - 1]), run[|run| - 1]);
    }
  }

  lemma {:induction false} OwnCode(s: State, run: seq<Action>, exit: int)
    requires Init(s) && forall i :: 0 <= i < |run| && run[i].Run? ==> run[i].exit == exit
    ensures var t := After(s, run);
            && (t.pc.Returned? ==> t.pc.exit == exit)
            && (t.pc.Exited? && t.watcher == Stopped(None) ==> t.pc.exit == exit)
    decreases |run|
  {
    if run == [] {
    } else {
      OwnCode(s, run[..|run| - 1], exit);
      RunKeeps(s, run[..|run| - 1]);
      CodeStep(After(s, run[..|run| - 1]), run[|run| - 1], exit);
    }
  }

  lemma CodeStep(s: State, a: Action, exit: int)
    requires Inv(s)
    requires s.pc.Returned? ==> s.pc.exit == exit
    requires s.pc.Exited? && s.watcher == Stopped(None) ==> s.pc.exit == exit
    requires a.Run? ==> a.exit == exit
    ensures var t := Next(s, a);
            && (t.pc.Returned? ==> t.pc.exit == exit)
            && (t.pc.Exited? && t.watcher == Stopped(None) ==> t.pc.exit == exit)
  {
    if a.Run? {
      RunCode(s, a.ok, a.cleanup, a.exit);
    } else {
      hide RunStep;
    }
  }

  lemma RunCode(s: State, ok: bool, cleanup: bool, exit: int)
    ensures var t := RunStep(s, ok, cleanup, exit);
            && t.watcher == s.watcher && (t.pc.Exited? ==> t.pc == s.pc)
            && (t.pc.Returned? ==> t.pc == s.pc || t.pc.exit == exit)
  {
  }

  // ---------------------------------------------------------------- a run that nobody disturbs

  /** The run's calls all succeed, but for the removal of the work-in-progress file if there is `cleanup`
      to do; nobody else removes its snapshot, and no signal gets to the gate. */
  predicate Undisturbed(a: Action, cleanup: bool, exit: int) {
    (a.Run? ==> a.ok && a.cleanup == cleanup && a.exit == exit) && !a.OtherRemoves? && !a.CancelForSignal?
  }

  /** The stations of a run on its way through publication and commit. */
  function Stage(pc: Pc): nat {
    match pc
    case Working => 0
    case Publishing => 1
    case Renamed => 2
    case BeforeRetention(_) => 3
    case Retention(_) => 4
    case Notification(_) => 5
    case Resolution(_) => 6
    case BeforeOutcome(_, _) => 7
    case Tail(_) => 8
    case Judged(_) => 9
    case Committing(_) => 10
    case Reporting(_) => 11
    case _ => 12
  }

  /** The failure that the run carries with it. */
  function Carried(pc: Pc): Failure {
    match pc
    case BeforeRetention(f) => f
    case Retention(f) => f
    case Notification(f) => f
    case Resolution(f) => f
    case BeforeOutcome(f, retained) => if retained then f else Other
    case Tail(r) => if r.retained then r.failure else Other
    case Judged(r) => if r.retained then r.failure else Other
    case Committing(f) => f
    case Reporting(f) => f
    case _ => NoFailure
  }

  /** The station an undisturbed run has come to after so many steps: it passes all of them one by one,
      except that a snapshot with its work-in-progress file left goes on behind the first checkpoint. */
  function StageAfter(steps: nat, cleanup: bool): nat {
    if steps < 2 then steps
    else
      var stage := if cleanup then steps + 1 else steps;
      if stage < 12 then stage else 12
  }

  /** An undisturbed run on its way. */
  predicate Going(s: State, steps: nat, cleanup: bool, exit: int) {
    && Stage(s.pc) == StageAfter(steps, cleanup) && !s.pc.Deferred? && !s.pc.Removing?
    && !s.cancelled && !SignalWon(s.watcher) && s.removals == 0
    && (s.present <==> Stage(s.pc) >= 2) && (s.published <==> Stage(s.pc) >= 2)
    && (s.committed <==> Stage(s.pc) >= 11)
    && (s.selector <==> Stage(s.pc) == 12 && !s.tee)
    && (3 <= Stage(s.pc) <= 11 ==> Carried(s.pc) == if cleanup then Cleanup else NoFailure)
    && (s.pc.Returned? || s.pc.Exited? ==> s.pc.exit == exit)
  }

  lemma GoesOn(s: State, a: Action, steps: nat, cleanup: bool, exit: int)
    requires Going(s, steps, cleanup, exit) && Undisturbed(a, cleanup, exit)
    ensures Going(Next(s, a), steps + if a.Run? then 1 else 0, cleanup, exit)
  {
    if a.Run? {
      RunGoesOn(s, steps, cleanup, exit);
    }
  }

  lemma RunGoesOn(s: State, steps: nat, cleanup: bool, exit: int)
    requires Going(s, steps, cleanup, exit)
    ensures Going(RunStep(s, true, cleanup, exit), steps + 1, cleanup, exit)
  {
    if Finalizing(s.pc) {
      FinalizeGoesOn(s, steps, cleanup, exit);
    } else {
      TailGoesOn(s, steps, cleanup, exit);
    }
  }

  lemma FinalizeGoesOn(s: State, steps: nat, cleanup: bool, exit: int)
    requires Going(s, steps, cleanup, exit) && Finalizing(s.pc)
    ensures Going(RunStep(s, true, cleanup, exit), steps + 1, cleanup, exit)
  {
  }

  lemma TailGoesOn(s: State, steps: nat, cleanup: bool, exit: int)
    requires Going(s, steps, cleanup, exit) && !Finalizing(s.pc)
    ensures Going(RunStep(s, true, cleanup, exit), steps + 1, cleanup, exit)
  {
  }

  /** A run that nobody disturbs passes station after station, whatever else happens in between, and carries
      along whether its work-in-progress file is left. */
  lemma {:induction false} KeepsGoing(s: State, run: seq<Action>, cleanup: bool, exit: int)
    requires Init(s) && forall i :: 0 <= i < |run| ==> Undisturbed(run[i], cleanup, exit)
    ensures Going(After(s, run), Steps(run), cleanup, exit) && After(s, run).tee == s.tee
    decreases |run|
  {
    if run == [] {
    } else {
      var front, a := run[..|run| - 1], run[|run| - 1];
      KeepsGoing(s, front, cleanup, exit);
      GoesOn(After(s, front), a, Steps(front), cleanup, exit);
      SameTee(After(s, front), a);
    }
  }

  lemma SameTee(s: State, a: Action)
    ensures Next(s, a).tee == s.tee
  {
  }

  /** A run that nobody disturbs ends well: once it has made its twelve steps it has committed with its
      snapshot in place, has printed its selector unless it tees, and has returned with its own code; and
      then it exits with that code. */
  lemma UndisturbedCommits(s: State, run: seq<Action>, cleanup: bool, exit: int)
    requires Init(s) && (forall i :: 0 <= i < |run| ==> Undisturbed(run[i], cleanup, exit)) && Steps(run) >= 12
    ensures var t := After(s, run);
            && t.committed && t.present && t.removals == 0 && (t.selector <==> !s.tee)
            && (t.pc == Returned(exit) || t.pc == Exited(exit))
            && After(t, [CancelForSignal, Send, Stop, Exit]).pc == Exited(exit)
  {
    KeepsGoing(s, run, cleanup, exit);
    RunKeeps(s, run);
    WaysOut(After(s, run));
  }

  /** The code a run that has returned will exit with: the signal's if one has won or comes to an open gate,
      else its own. */
  function CodeOf(s: State): int
    requires s.pc.Returned? || s.pc.Exited?
  {
    match s.watcher
    case Won(sig) => if sig == Interrupt then 130 else 143
    case Stopped(Some(sig)) => if sig == Interrupt then 130 else 143
    case Received(sig) => if s.committed then s.pc.exit else if sig == Interrupt then 130 else 143
    case _ => s.pc.exit
  }

  lemma Four(s: State, a: Action, b: Action, c: Action, d: Action)
    ensures After(s, [a, b, c, d]) == Next(Next(Next(Next(s, a), b), c), d)
  {
    assert [a, b, c, d][..3] == [a, b, c] && [a, b, c][..2] == [a, b] && [a, b][..1] == [a] && [a][..0] == [];
    assert After(s, [a]) == Next(s, a);
    assert After(s, [a, b]) == Next(Next(s, a), b);
    assert After(s, [a, b, c]) == Next(Next(Next(s, a), b), c);
  }

  /** Nothing keeps a run that has returned from exiting: the steps of its watcher, and its own, are there. */
  lemma WaysOut(s: State)
    requires Inv(s) && (s.pc.Returned? || s.pc.Exited?)
    ensures After(s, [CancelForSignal, Send, Stop, Exit]).pc == Exited(CodeOf(s))
  {
    Four(s, CancelForSignal, Send, Stop, Exit);
    WatcherStops(s);
  }

  lemma WatcherStops(s: State)
    requires Inv(s) && (s.pc.Returned? || s.pc.Exited?)
    ensures Next(Next(Next(Next(s, CancelForSignal), Send), Stop), Exit).pc == Exited(CodeOf(s))
  {
    var gated := Next(s, CancelForSignal);
    var sent := Next(gated, Send);
    GateStep(s);
    SendStep(gated);
    if s.pc.Returned? {
      StopStep(sent);
    } else {
      ExitedStays(sent);
    }
  }

  lemma ExitedStays(s: State)
    requires s.pc.Exited?
    ensures Next(Next(s, Stop), Exit).pc == s.pc
  {
  }

  lemma GateStep(s: State)
    ensures Next(s, CancelForSignal).pc == s.pc && !Next(s, CancelForSignal).watcher.Received?
    ensures Next(s, CancelForSignal).watcher
            == match s.watcher
               case Received(sig) => if s.committed then Stopped(None) else Won(sig)
               case _ => s.watcher
  {
  }

  lemma SendStep(s: State)
    ensures Next(s, Send).pc == s.pc
    ensures Next(s, Send).watcher == match s.watcher case Won(sig) => Stopped(Some(sig)) case _ => s.watcher
  {
  }

  lemma StopStep(s: State)
    requires s.pc.Returned? && (s.watcher.Waiting? || s.watcher.Stopped?)
    ensures Next(Next(s, Stop), Exit).pc
            == Exited(match s.watcher
                      case Stopped(Some(sig)) => if sig == Interrupt then 130 else 143
                      case _ => s.pc.exit)
  {
  }

  // ---------------------------------------------------------------- what the flags of a run record

  ghost predicate Did(q: (State, Action) -> bool, s: State, run: seq<Action>) {
    exists n :: 0 <= n < |run| && q(After(s, run[..n]), run[n])
  }

  lemma DidFront(q: (State, Action) -> bool, s: State, run: seq<Action>)
    requires run != []
    ensures Did(q, s, run) <==> Did(q, s, run[..|run| - 1]) || q(After(s, run[..|run| - 1]), run[|run| - 1])
  {
    hide After;
    var m := |run| - 1;
    var front := run[..m];
    assert forall n :: 0 <= n < m ==> front[..n] == run[..n] && front[n] == run[n];
    if Did(q, s, front) {
      var n :| 0 <= n < m && q(After(s, front[..n]), front[n]);
      assert q(After(s, run[..n]), run[n]);
    }
    if Did(q, s, run) {
      var n :| 0 <= n < |run| && q(After(s, run[..n]), run[n]);
      assert n < m ==> q(After(s, front[..n]), front[n]);
    }
  }

  predicate Publishes(s: State, a: Action) {
    a.Run? && s.pc.Publishing? && a.ok
  }

  predicate Commits(s: State, a: Action) {
    a.Run? && s.pc.Committing? && !s.cancelled
  }

  predicate Prints(s: State, a: Action) {
    a.Run? && s.pc.Reporting? && !s.tee && a.ok
  }

  predicate FailsToRemove(s: State, a: Action) {
    a.Run? && (s.pc.Deferred? || s.pc.Removing?) && !a.ok
  }

  predicate Cancels(s: State, a: Action) {
    a.CancelForSignal? && s.watcher.Received? && !s.committed
  }

  /** In every run: it has published, committed, printed its selector, failed to remove its snapshot, or
      been cancelled exactly if one of its steps did so. */
  lemma {:induction false} FlagsRecord(s: State, run: seq<Action>)
    requires Init(s)
    ensures var t := After(s, run);
            && (t.published <==> Did(Publishes, s, run))
            && (t.committed <==> Did(Commits, s, run))
            && (t.selector <==> Did(Prints, s, run))
            && (t.removeFailed <==> Did(FailsToRemove, s, run))
            && (t.cancelled <==> Did(Cancels, s, run))
    decreases |run|
  {
    if run == [] {
    } else {
      FlagsRecord(s, run[..|run| - 1]);
      FlagStep(After(s, run[..|run| - 1]), run[|run| - 1]);
      DidFront(Publishes, s, run);
      DidFront(Commits, s, run);
      DidFront(Prints, s, run);
      DidFront(FailsToRemove, s, run);
      DidFront(Cancels, s, run);
    }
  }

  lemma FlagStep(s: State, a: Action)
    ensures var t := Next(s, a);
            && (t.published <==> s.published || Publishes(s, a))
            && (t.committed <==> s.committed || Commits(s, a))
            && (t.selector <==> s.selector || Prints(s, a))
            && (t.removeFailed <==> s.removeFailed || FailsToRemove(s, a))
            && (t.cancelled <==> s.cancelled || Cancels(s, a))
  {
    if a.Run? {
      RunFlags(s, a.ok, a.cleanup, a.exit);
    } else {
      OtherFlags(s, a);
    }
  }

  lemma RunFlags(s: State, ok: bool, cleanup: bool, exit: int)
    ensures var t, a := RunStep(s, ok, cleanup, exit), Run(ok, cleanup, exit);
            && (t.published <==> s.published || Publishes(s, a))
            && (t.committed <==> s.committed || Commits(s, a))
            && (t.selector <==> s.selector || Prints(s, a))
            && (t.removeFailed <==> s.removeFailed || FailsToRemove(s, a))
            && t.cancelled == s.cancelled
  {
  }

  lemma OtherFlags(s: State, a: Action)
    requires !a.Run?
    ensures var t := Next(s, a);
            && t.published == s.published && t.committed == s.committed && t.selector == s.selector
            && t.removeFailed == s.removeFailed && (t.cancelled <==> s.cancelled || Cancels(s, a))
  {
    match a
    case Arrive(_) =>
    case CancelForSignal => GateFlags(s);
    case Send =>
    case Stop =>
    case Exit =>
    case OtherRemoves =>
  }

  lemma GateFlags(s: State)
    ensures var t := Next(s, CancelForSignal);
            && t.published == s.published && t.committed == s.committed && t.selector == s.selector
            && t.removeFailed == s.removeFailed && (t.cancelled <==> s.cancelled || Cancels(s, CancelForSignal))
  {
  }

  /** The snapshot is there as long as it is published and neither the run nor another process has removed
      it since. */
  lemma PresentStep(s: State, a: Action)
    ensures Next(s, a).present
            <==> Publishes(s, a)
                 || (s.present && a != OtherRemoves && !(a.Run? && (s.pc.Deferred? || s.pc.Removing?) && a.ok))
    ensures Next(s, a).removals == s.removals + if a.Run? && (s.pc.Deferred? || s.pc.Removing?) then 1 else 0
  {
  }

  /** A snapshot that is gone before the run has resolved it is never committed: the run ends without one. */
  lemma {:induction false} GoneUncommitted(s: State, run: seq<Action>)
    requires Inv(s) && !s.present && !Kept(s.pc) && s.published && !s.committed
    ensures var t := After(s, run); !t.present && !Kept(t.pc) && t.published && !t.committed
    decreases |run|
  {
    if run == [] {
    } else {
      RunKeeps(s, run[..|run| - 1]);
      GoneUncommitted(s, run[..|run| - 1]);
      GoneStep(After(s, run[..|run| - 1]), run[|run| - 1]);
    }
  }

  /** The run has resolved its snapshot, and found it. */
  predicate Kept(pc: Pc) {
    match pc
    case BeforeOutcome(_, retained) => retained
    case Tail(r) => !r.failure.Other? && r.retained
    case Judged(r) => !r.failure.Other? && r.retained
    case Committing(_) => true
    case Reporting(_) => true
    case _ => false
  }

  lemma GoneStep(s: State, a: Action)
    requires Inv(s) && !s.present && !Kept(s.pc) && s.published && !s.committed
    ensures var t := Next(s, a); !t.present && !Kept(t.pc) && t.published && !t.committed
  {
  }

  /** A run that is cancelled before it publishes never does. */
  lemma {:induction false} CancelledEarly(s: State, run: seq<Action>)
    requires s.cancelled && !s.published && (s.pc.Working? || s.pc.Returned? || s.pc.Exited?)
    ensures var t := After(s, run);
            t.cancelled && !t.published && (t.pc.Working? || t.pc.Returned? || t.pc.Exited?)
    decreases |run|
  {
    if run == [] {
    } else {
      CancelledEarly(s, run[..|run| - 1]);
      EarlyStep(After(s, run[..|run| - 1]), run[|run| - 1]);
    }
  }

  lemma EarlyStep(s: State, a: Action)
    requires s.cancelled && !s.published && (s.pc.Working? || s.pc.Returned? || s.pc.Exited?)
    ensures var t := Next(s, a);
            t.cancelled && !t.published && (t.pc.Working? || t.pc.Returned? || t.pc.Exited?)
  {
    if a.Run? {
      assert Next(s, a).pc.Working? || Next(s, a).pc.Returned? || Next(s, a).pc.Exited?;
    }
  }
}
