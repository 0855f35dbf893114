/** What a member of the first-response race reports in the end: its warnings and errors are those of
    the batches and failures that were let through, its phase follows from them, and every callback
    comes to its end. */
module RaceOutcomes {
  import opened Options
  import opened FirstRace
  import opened RaceElection

  // ---------------------------------------------------------------- warnings and errors

  /** A batch with warnings is let through for member `i`. */
  predicate Warns(s: State, a: Action, i: nat) {
    LetsThrough(s, a, i) && s.members[i].pc.item.warns
  }

  /** Member `i` fails: its authentication does, or a batch with errors or a stream error of its is let
      through. */
  predicate Fails(s: State, a: Action, i: nat) {
    && a.i == i && i < |s.members|
    && var m := s.members[i];
       || (a.AuthFail? && m.auth == Resolving)
       || (LetsThrough(s, a, i) && m.pc.item.errs)
       || (a.Advance? && m.pc.Failing? && (s.winner == None || s.winner == Some(i)))
  }

  predicate EverWarns(s: State, run: seq<Action>, i: nat) {
    run != [] && (EverWarns(s, run[..|run| - 1], i) || Warns(After(s, run[..|run| - 1]), run[|run| - 1], i))
  }

  predicate EverFails(s: State, run: seq<Action>, i: nat) {
    run != [] && (EverFails(s, run[..|run| - 1], i) || Fails(After(s, run[..|run| - 1]), run[|run| - 1], i))
  }

  /** The batch that a callback has passed its check with and not stored yet has warnings. */
  predicate WarnsUnder(pc: Pc) {
    match pc
    case Elected(item, _) => item.warns
    case Settling(item, _, _, _) => item.warns
    case Emitting(item, _) => item.warns
    case _ => false
  }

  /** It has errors, or a stream error has passed its check and is not recorded yet. */
  predicate FailsUnder(pc: Pc) {
    match pc
    case Elected(item, _) => item.errs
    case Settling(item, _, _, _) => item.errs
    case Emitting(item, _) => item.errs
    case FailAccepted => true
    case _ => false
  }

  /** A flag of a member against the history that raises it: a failed tee write may drop what is under
      way, and nothing else does. */
  predicate Flag(raised: bool, under: bool, ever: bool, teeFailed: bool) {
    if teeFailed then raised || under ==> ever else (raised || under) == ever
  }

  /** One step raises a flag if what was under way raises it, and puts under way what it lets through. */
  predicate Carries(raised: bool, under: bool, now: bool, raisedNow: bool, underNow: bool, teeFailed: bool) {
    && (raised ==> raisedNow)
    && (raisedNow || underNow ==> raised || under || now)
    && (!teeFailed && (under || now) ==> raisedNow || underNow)
  }

  predicate FlagStep(m: Member, n: Member, warns: bool, fails: bool, teeFailed: bool) {
    && Carries(m.warned, WarnsUnder(m.pc), warns, n.warned, WarnsUnder(n.pc), teeFailed)
    && Carries(m.failed, FailsUnder(m.pc), fails, n.failed, FailsUnder(n.pc), teeFailed)
  }

  lemma FlagsOf(s: State, a: Action, i: nat)
    requires Inv(s) && i < |s.members| == |Next(s, a).members|
    ensures FlagStep(s.members[i], Next(s, a).members[i], Warns(s, a, i), Fails(s, a, i), Next(s, a).teeFailed)
  {
    if a.i != i {
      OthersUntouched(s, a, i);
    } else if a.Advance? {
      if Enabled(s, a) {
        AdvanceFlags(s, i, a.writeOk);
      }
    } else {
      OwnFlags(s, a);
    }
  }

  /** A step of a member that is none of a callback. */
  lemma OwnFlags(s: State, a: Action)
    requires a.i < |s.members| == |Next(s, a).members| && !a.Advance?
    requires MemberOk(s.winner, a.i, s.members[a.i])
    ensures FlagStep(s.members[a.i], Next(s, a).members[a.i], Warns(s, a, a.i), Fails(s, a, a.i), false)
  {
  }

  lemma AdvanceFlags(s: State, i: nat, writeOk: bool)
    requires Inv(s) && Enabled(s, Advance(i, writeOk)) && i < |AdvanceStep(s, i, writeOk).members|
    ensures var a := Advance(i, writeOk);
            FlagStep(s.members[i], AdvanceStep(s, i, writeOk).members[i], Warns(s, a, i), Fails(s, a, i),
                     AdvanceStep(s, i, writeOk).teeFailed)
  {
    var m := s.members[i];
    if m.pc.GotData? || m.pc.Elected? || m.pc.Settling? || m.pc.Emitting? {
      BatchFlags(s, i, writeOk);
    } else {
      CallbackAt(s, i, writeOk);
      CallbackFlags(m, Accepts(s, i));
    }
  }

  lemma BatchFlags(s: State, i: nat, writeOk: bool)
    requires Enabled(s, Advance(i, writeOk)) && i < |AdvanceStep(s, i, writeOk).members|
    requires var pc := s.members[i].pc; pc.GotData? || pc.Elected? || pc.Settling? || pc.Emitting?
    ensures var a := Advance(i, writeOk);
            FlagStep(s.members[i], AdvanceStep(s, i, writeOk).members[i], Warns(s, a, i), Fails(s, a, i),
                     AdvanceStep(s, i, writeOk).teeFailed)
  {
    var m := s.members[i];
    if m.pc.GotData? {
      CheckFlags(s, i);
    } else if m.pc.Emitting? {
      EmitFlags(s, i, writeOk);
    } else if m.pc.Settling? {
      LoopFlags(s, i);
    }
  }

  /** A callback that passes its check, or is turned away. */
  lemma PassFlags(m: Member, pc: Pc, item: Item, passes: bool)
    requires m.pc == GotData(item)
    requires if passes then pc == Emitting(item, 0) || (pc.Elected? && pc.item == item) else pc == Idle
    ensures FlagStep(m, m.(pc := pc), passes && item.warns, passes && item.errs, false)
  {
  }

  lemma CheckFlags(s: State, i: nat)
    requires i < |s.members| && s.members[i].pc.GotData? && i < |AcceptData(s, i).members|
    ensures var passes, item := s.winner == None || s.winner == Some(i), s.members[i].pc.item;
            FlagStep(s.members[i], AcceptData(s, i).members[i], passes && item.warns, passes && item.errs, false)
  {
    var pc := CheckMember(s, i);
    PassFlags(s.members[i], pc, s.members[i].pc.item, s.winner == None || s.winner == Some(i));
  }

  lemma LoopFlags(s: State, i: nat)
    requires i < |s.members| && s.members[i].pc.Settling? && i < |SettleStep(s, i).members|
    ensures FlagStep(s.members[i], SettleStep(s, i).members[i], false, false, false)
  {
  }

  lemma EmitFlags(s: State, i: nat, writeOk: bool)
    requires i < |s.members| && s.members[i].pc.Emitting? && i < |EmitStep(s, i, writeOk).members|
    ensures FlagStep(s.members[i], EmitStep(s, i, writeOk).members[i], false, false, EmitStep(s, i, writeOk).teeFailed)
  {
  }

  lemma CallbackFlags(m: Member, accepts: bool)
    requires !m.pc.GotData? && !m.pc.Emitting? && !m.pc.Settling? && !m.pc.Elected?
    ensures FlagStep(m, CallbackStep(m, accepts), false, m.pc.Failing? && accepts, false)
  {
  }

  /** In every run, with no tee or one whose writes all succeed, a member has warned if and only if a batch
      with warnings was let through for it, and has failed if and only if its authentication has failed, or
      a batch with errors or a stream error was let through, the one under way aside; and once a tee write
      has failed it has warned or failed only if that is so. */
  lemma {:induction false} FlagsHistory(s: State, run: seq<Action>, i: nat)
    requires Init(s) && i < |s.members|
    ensures var t := After(s, run);
            && |t.members| == |s.members|
            && Flag(t.members[i].warned, WarnsUnder(t.members[i].pc), EverWarns(s, run, i), t.teeFailed)
            && Flag(t.members[i].failed, FailsUnder(t.members[i].pc), EverFails(s, run, i), t.teeFailed)
    decreases |run|
  {
    if run == [] {
    } else {
      var front, a := run[..|run| - 1], run[|run| - 1];
      FlagsHistory(s, front, i);
      InitInv(s);
      RunKeeps(s, front);
      SameMembers(After(s, front), a);
      TeeStays(After(s, front), a);
      FlagsOf(After(s, front), a, i);
    }
  }

  // ---------------------------------------------------------------- phases

  /** A member that is stopped without having won: the winner's loop marks the losers that run. */
  predicate Marks(s: State, a: Action, i: nat) {
    && a.Advance? && a.i != i && a.i < |s.members|
    && var pc := s.members[a.i].pc; pc.Settling? && pc.next == i && i < |pc.cancels| && !pc.marked
  }

  /** The phase of member `i` after a step. A phase changes when a member starts, its authentication or
      its stream fails, a stored batch carries warnings or errors, its stream closes, or it loses while it
      runs; and the close says what the stream has brought. */
  predicate PhaseStep(s: State, a: Action, i: nat, phase: Phase)
    requires i < |s.members|
  {
    var m := s.members[i];
    if a.i != i then
      phase == if Marks(s, a, i) && (m.phase == AuthInProgress || m.phase == InProgress) then Cancelled else m.phase
    else match a
      case StreamContext(_) => phase == if m.auth.Resolving? && s.winner.None? then InProgress else m.phase
      case AuthBadge(_) => phase == if m.auth.AuthFailing? then Error else m.phase
      case Advance(_, _) =>
        if m.pc.Badging? then
          phase == if m.pc.item.errs then Error else if m.pc.item.warns then Warning else m.phase
        else if m.pc.CloseAccepted? then
          phase == if m.failed then Error else if m.warned then Warning else Success
        else phase == if m.pc.FailRecorded? then Error else m.phase
      case _ => phase == m.phase
  }

  lemma PhaseOf(s: State, a: Action, i: nat)
    requires Inv(s) && i < |s.members| == |Next(s, a).members|
    ensures PhaseStep(s, a, i, Next(s, a).members[i].phase)
  {
    if a.Advance? {
      if Enabled(s, a) {
        AdvancePhase(s, a.i, a.writeOk, i);
      } else {
        assert a.i < |s.members| ==> s.members[a.i].pc.Idle? || s.members[a.i].pc.Ended?;
      }
    }
  }

  lemma AdvancePhase(s: State, i: nat, writeOk: bool, j: nat)
    requires Enabled(s, Advance(i, writeOk)) && j < |s.members| == |AdvanceStep(s, i, writeOk).members|
    ensures PhaseStep(s, Advance(i, writeOk), j, AdvanceStep(s, i, writeOk).members[j].phase)
  {
    var m := s.members[i];
    if m.pc.Settling? {
      LoopPhase(s, i, j);
    } else {
      PutOne(s, i, writeOk);
      if m.pc.GotData? || m.pc.Elected? || m.pc.Emitting? {
        BatchPhase(s, i, writeOk);
      } else {
        CallbackPhase(m, Accepts(s, i));
      }
    }
  }

  /** A batch leaves the phase alone until it is stored. */
  lemma BatchPhase(s: State, i: nat, writeOk: bool)
    requires Enabled(s, Advance(i, writeOk)) && i < |AdvanceStep(s, i, writeOk).members|
    requires s.members[i].pc.GotData? || s.members[i].pc.Elected? || s.members[i].pc.Emitting?
    ensures AdvanceStep(s, i, writeOk).members[i].phase == s.members[i].phase
  {
    if s.members[i].pc.GotData? {
      var pc := CheckMember(s, i);
    }
  }

  lemma LoopPhase(s: State, i: nat, j: nat)
    requires i < |s.members| && s.members[i].pc.Settling? && j < |s.members| == |SettleStep(s, i).members|
    ensures var pc := s.members[i].pc;
            SettleStep(s, i).members[j].phase
            == if Marks(s, Advance(i, true), j)
                  && (s.members[j].phase == AuthInProgress || s.members[j].phase == InProgress)
               then Cancelled else s.members[j].phase
  {
  }

  lemma CallbackPhase(m: Member, accepts: bool)
    requires !m.pc.GotData? && !m.pc.Emitting? && !m.pc.Settling? && !m.pc.Elected?
    ensures CallbackStep(m, accepts).phase
            == if m.pc.Badging? then (if m.pc.item.errs then Error else if m.pc.item.warns then Warning else m.phase)
               else if m.pc.CloseAccepted? then (if m.failed then Error else if m.warned then Warning else Success)
               else if m.pc.FailRecorded? then Error else m.phase
  {
  }

  /** With no failed tee write, the close of a stream that is let through reports what the run has brought:
      an error if anything failed, a warning if anything warned, and success otherwise. */
  lemma CloseSays(s: State, run: seq<Action>, i: nat, writeOk: bool)
    requires Init(s) && i < |s.members| == |After(s, run).members|
    requires After(s, run).members[i].pc == CloseAccepted && !After(s, run).teeFailed
    ensures var t := Next(After(s, run), Advance(i, writeOk));
            && i < |t.members| && t.members[i].pc == Ended
            && t.members[i].phase
               == if EverFails(s, run, i) then Error else if EverWarns(s, run, i) then Warning else Success
  {
    FlagsHistory(s, run, i);
  }

  /** A step of a callback that holds no batch, with its member at `m`. */
  lemma Onward(s: State, i: nat, m: Member, n: Member, writeOk: bool)
    requires i < |s.members| && n == CallbackStep(m, Accepts(s, i))
    requires !m.pc.GotData? && !m.pc.Settling? && !m.pc.Elected? && !m.pc.Emitting? && !m.pc.Idle? && !m.pc.Ended?
    ensures Next(Put(s, i, m), Advance(i, writeOk)) == Put(s, i, n)
  {
    CallbackAt(Put(s, i, m), i, writeOk);
    assert s.members[i := m][i := n] == s.members[i := n];
  }

  lemma Nothing(s: State, i: nat, m: Member, writeOk: bool)
    requires i < |s.members| && m.pc.Ended?
    ensures Next(Put(s, i, m), Advance(i, writeOk)) == Put(s, i, m)
  {
  }

  /** A batch that arrives between callbacks comes before its check. */
  lemma DataArrives(s: State, i: nat, item: Item)
    requires i < |s.members| && s.members[i].registered && (s.members[i].pc.Idle? || s.members[i].pc.Ended?)
    ensures Next(s, Arrive(i, Data(item))) == s.(members := s.members[i := s.members[i].(pc := GotData(item))])
  {
  }

  /** The close of a stream, taken by itself. */
  lemma CloseRuns(s: State, i: nat, writeOk: bool)
    requires i < |s.members| && s.members[i].registered && (s.members[i].pc.Idle? || s.members[i].pc.Ended?)
    ensures var m := s.members[i];
            Next(Next(Next(s, Arrive(i, Close)), Advance(i, writeOk)), Advance(i, writeOk))
            == s.(members := s.members[i := if s.winner == None || s.winner == Some(i)
                                            then m.(pc := Ended,
                                                    phase := if m.failed then Error else if m.warned then Warning
                                                             else Success)
                                            else m.(pc := Ended)])
  {
    var m, accepts := s.members[i], Accepts(s, i);
    assert Next(s, Arrive(i, Close)) == Put(s, i, m.(pc := Closing));
    var n := m.(pc := if accepts then CloseAccepted else Ended);
    Onward(s, i, m.(pc := Closing), n, writeOk);
    if accepts {
      Onward(s, i, n, CallbackStep(n, true), writeOk);
    } else {
      Nothing(s, i, n, writeOk);
    }
  }

  /** A stream error, taken by itself. */
  lemma FailureRuns(s: State, i: nat, writeOk: bool)
    requires i < |s.members| && s.members[i].registered && (s.members[i].pc.Idle? || s.members[i].pc.Ended?)
    ensures var m := s.members[i];
            Next(Next(Next(Next(s, Arrive(i, Failure)), Advance(i, writeOk)), Advance(i, writeOk)), Advance(i, writeOk))
            == s.(members := s.members[i := if s.winner == None || s.winner == Some(i)
                                            then m.(pc := Ended, failed := true, phase := Error)
                                            else m.(pc := Ended)])
  {
    var m, accepts := s.members[i], Accepts(s, i);
    assert Next(s, Arrive(i, Failure)) == Put(s, i, m.(pc := Failing));
    var n := m.(pc := if accepts then FailAccepted else Ended);
    Onward(s, i, m.(pc := Failing), n, writeOk);
    if accepts {
      var recorded := n.(failed := true, pc := FailRecorded);
      Onward(s, i, n, recorded, writeOk);
      Onward(s, i, recorded, recorded.(phase := Error, pc := Ended), writeOk);
    } else {
      Nothing(s, i, n, writeOk);
    }
  }

  /** Tee writes the logs of a batch that is let through one by one, as long as no write has failed. */
  predicate TeeWrites(s: State, a: Action) {
    && a.Advance? && a.i < |s.members| && s.tee && a.writeOk && !s.teeFailed
    && var pc := s.members[a.i].pc; pc.Emitting? && pc.sent < |pc.item.logs|
  }

  lemma Emits(s: State, a: Action)
    ensures var t := Next(s, a);
            if TeeWrites(s, a)
            then var pc := s.members[a.i].pc;
                 && t.emitted == s.emitted + [pc.item.logs[pc.sent]]
                 && t.members == s.members[a.i := s.members[a.i].(pc := pc.(sent := pc.sent + 1))]
            else t.emitted == s.emitted
  {
    if Enabled(s, a) && a.Advance? {
      var pc := s.members[a.i].pc;
      if pc.Emitting? {
      } else if pc.GotData? || pc.Elected? || pc.Settling? {
      } else {
        CallbackAt(s, a.i, a.writeOk);
      }
    }
  }

  // ---------------------------------------------------------------- authentication

  /** An authentication ends in one of three ways: it fails, which its member reports as an error; its
      context is cancelled, which nothing shows; or it gets a token, which starts the stream unless
      somebody has won. */
  lemma AuthEnds(s: State, i: nat)
    requires i < |s.members| && s.members[i].auth == Resolving
    ensures var m := s.members[i];
            && Next(Next(s, AuthFail(i)), AuthBadge(i))
               == s.(members := s.members[i := m.(auth := AuthOver, failed := true, phase := Error)])
            && Next(s, AuthStop(i)) == s.(members := s.members[i := m.(auth := AuthOver)])
            && Next(s, StreamContext(i))
               == s.(members := s.members[i := if s.winner.Some? then m.(auth := AuthOver)
                                               else m.(auth := AuthOver, phase := InProgress, registered := true)])
  {
    var failing := Next(s, AuthFail(i));
    assert failing.members[i] == s.members[i].(auth := AuthFailing, failed := true);
    assert s.members[i := failing.members[i]][i := s.members[i].(auth := AuthOver, failed := true, phase := Error)]
        == s.members[i := s.members[i].(auth := AuthOver, failed := true, phase := Error)];
  }

  /** And it ends once. */
  lemma AuthOnce(s: State, a: Action)
    requires a.i < |s.members| && s.members[a.i].auth == AuthOver && !a.Arrive? && !a.Advance?
    ensures Next(s, a) == s
  {
  }

  /** The election cancels the authentications that are still going on, in its second step. */
  predicate CancelsAuth(s: State) {
    s.authCancelled
    <==> s.winner.Some? && s.winner.value < |s.members| && !s.members[s.winner.value].pc.Elected?
  }

  lemma {:induction false} AuthCancelled(s: State, run: seq<Action>)
    requires Init(s)
    ensures CancelsAuth(After(s, run))
    decreases |run|
  {
    if run == [] {
    } else {
      var front := run[..|run| - 1];
      AuthCancelled(s, front);
      InitInv(s);
      RunKeeps(s, front);
      CancelsStep(After(s, front), run[|run| - 1]);
    }
  }

  lemma CancelsStep(s: State, a: Action)
    requires Inv(s) && CancelsAuth(s)
    ensures CancelsAuth(Next(s, a))
  {
    ElectsAt(s, a);
    SameMembers(s, a);
    if Enabled(s, a) && a.Advance? {
      CancelsAdvance(s, a.i, a.writeOk);
    }
  }

  lemma CancelsAdvance(s: State, i: nat, writeOk: bool)
    requires Inv(s) && CancelsAuth(s) && Enabled(s, Advance(i, writeOk))
    ensures CancelsAuth(AdvanceStep(s, i, writeOk))
  {
    assert MemberOk(s.winner, i, s.members[i]);
    var m := s.members[i];
    if m.pc.GotData? {
      var pc := CheckMember(s, i);
    } else if m.pc.Settling? {
      LoopElected(s, i);
    } else if !m.pc.Elected? {
      PutOne(s, i, writeOk);
      NotElected(s, i, writeOk);
    }
  }

  lemma LoopElected(s: State, i: nat)
    requires i < |s.members| && s.members[i].pc.Settling?
    ensures var t := SettleStep(s, i);
            && |t.members| == |s.members| && t.winner == s.winner && t.authCancelled == s.authCancelled
            && forall j :: 0 <= j < |s.members| ==> (t.members[j].pc.Elected? <==> s.members[j].pc.Elected?)
  {
  }

  lemma NotElected(s: State, i: nat, writeOk: bool)
    requires Enabled(s, Advance(i, writeOk))
    requires var pc := s.members[i].pc; !pc.GotData? && !pc.Settling? && !pc.Elected?
    ensures var t := AdvanceStep(s, i, writeOk);
            && i < |t.members| && !t.members[i].pc.Elected?
            && t.winner == s.winner && t.authCancelled == s.authCancelled
  {
    if s.members[i].pc.Emitting? {
      EmitOnward(s.members[i], s.tee, writeOk && !s.teeFailed);
    } else {
      CallbackAt(s, i, writeOk);
      CallbackOnward(s.members[i], Accepts(s, i), 0);
    }
  }

  /** A bound on the steps a callback still has to take, with `n` members. */
  function Work(pc: Pc, n: nat): nat {
    match pc
    case Idle => 0
    case GotData(item) => |item.logs| + 2 * n + 6
    case Elected(item, _) => |item.logs| + 2 * n + 5
    case Settling(item, next, marked, _) =>
      |item.logs| + 3 + if next < n then 2 * (n - next) + (if marked then 0 else 1) else 0
    case Emitting(item, sent) => 2 + if sent < |item.logs| then |item.logs| - sent else 0
    case Badging(_) => 1
    case Closing => 2
    case CloseAccepted => 1
    case Failing => 3
    case FailAccepted => 2
    case FailRecorded => 1
    case Ended => 0
  }

  lemma EmitOnward(m: Member, tee: bool, writeOk: bool)
    requires m.pc.Emitting?
    ensures var pc := EmitMember(m, tee, writeOk).pc;
            pc.Idle? || pc.Badging? || (pc.Emitting? && pc.item == m.pc.item && m.pc.sent < pc.sent <= |pc.item.logs|)
  {
  }

  lemma CallbackOnward(m: Member, accepts: bool, n: nat)
    requires !m.pc.GotData? && !m.pc.Emitting? && !m.pc.Settling? && !m.pc.Elected? && !m.pc.Idle? && !m.pc.Ended?
    ensures var pc := CallbackStep(m, accepts).pc; !pc.Elected? && Work(pc, n) < Work(m.pc, n)
  {
  }

  // ---------------------------------------------------------------- callbacks end

  lemma Advances(s: State, i: nat, writeOk: bool)
    requires Enabled(s, Advance(i, writeOk)) && i < |AdvanceStep(s, i, writeOk).members|
    ensures Work(AdvanceStep(s, i, writeOk).members[i].pc, |s.members|) < Work(s.members[i].pc, |s.members|)
  {
    var m := s.members[i];
    if m.pc.GotData? || m.pc.Elected? || m.pc.Settling? || m.pc.Emitting? {
      BatchAdvances(s, i, writeOk);
    } else {
      CallbackAt(s, i, writeOk);
      CallbackOnward(m, Accepts(s, i), |s.members|);
    }
  }

  lemma BatchAdvances(s: State, i: nat, writeOk: bool)
    requires Enabled(s, Advance(i, writeOk)) && i < |AdvanceStep(s, i, writeOk).members|
    requires var pc := s.members[i].pc; pc.GotData? || pc.Elected? || pc.Settling? || pc.Emitting?
    ensures Work(AdvanceStep(s, i, writeOk).members[i].pc, |s.members|) < Work(s.members[i].pc, |s.members|)
  {
    var m := s.members[i];
    if m.pc.GotData? {
      var pc := CheckMember(s, i);
    } else if m.pc.Settling? {
      LoopAdvances(s, i);
    } else if m.pc.Emitting? {
      EmitOnward(m, s.tee, writeOk && !s.teeFailed);
    }
  }

  lemma LoopAdvances(s: State, i: nat)
    requires i < |s.members| && s.members[i].pc.Settling? && i < |SettleStep(s, i).members|
    ensures Work(SettleStep(s, i).members[i].pc, |s.members|) < Work(s.members[i].pc, |s.members|)
  {
    assert SettleStep(s, i).members[i].pc == LoopPc(s.members[i].pc, i, |s.members|);
  }

  /** How often a run lets member `i` take a step of its callback. */
  function Turns(run: seq<Action>, i: nat): nat {
    if run == [] then 0
    else Turns(run[..|run| - 1], i) + if run[|run| - 1].Advance? && run[|run| - 1].i == i then 1 else 0
  }

  /** A step that is none of the callback of member `i`. */
  lemma KeepsPlace(s: State, a: Action, i: nat)
    requires i < |s.members| == |Next(s, a).members| && !(a.i == i && (a.Arrive? || a.Advance?))
    ensures Next(s, a).members[i].pc == s.members[i].pc
  {
    if a.i != i {
      OthersUntouched(s, a, i);
    }
  }

  /** Whatever the others do in between, a callback is over once its member has had so many turns. */
  lemma {:induction false} CallbackEnds(s: State, run: seq<Action>, i: nat)
    requires i < |s.members| && forall k :: 0 <= k < |run| ==> !(run[k].Arrive? && run[k].i == i)
    ensures |After(s, run).members| == |s.members|
    ensures var pc, n := After(s, run).members[i].pc, |s.members|;
            pc == Idle || pc == Ended || Work(pc, n) + Turns(run, i) <= Work(s.members[i].pc, n)
    decreases |run|
  {
    if run == [] {
    } else {
      var front, a := run[..|run| - 1], run[|run| - 1];
      var t := After(s, front);
      CallbackEnds(s, front, i);
      SameMembers(t, a);
      assert a == run[|run| - 1];
      if a.Advance? && a.i == i {
        if Enabled(t, a) {
          Advances(t, i, a.writeOk);
        }
      } else {
        KeepsPlace(t, a, i);
      }
    }
  }
}
