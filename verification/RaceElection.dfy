/** Who wins the first-response race, and what of the batches that are let through is stored. */
module RaceElection {
  import opened Options
  import opened FirstRace

  // ---------------------------------------------------------------- the election

  /** A batch with logs comes to its check. */
  predicate Checks(s: State, a: Action) {
    && a.Advance? && a.i < |s.members| && s.members[a.i].pc.GotData?
    && s.members[a.i].pc.item.logs != []
  }

  /** The step at the check of such a batch elects its member, unless somebody has won; no other step
      elects anybody. */
  lemma ElectsAt(s: State, a: Action)
    ensures Next(s, a).winner == if s.winner.None? && Checks(s, a) then Some(a.i) else s.winner
  {
  }

  ghost predicate ChecksAt(s: State, run: seq<Action>, n: nat)
    requires n < |run|
  {
    Checks(After(s, run[..n]), run[n])
  }

  lemma FrontChecks(s: State, run: seq<Action>, n: nat)
    requires n < |run| - 1
    ensures ChecksAt(s, run[..|run| - 1], n) == ChecksAt(s, run, n)
  {
    assert run[..|run| - 1][..n] == run[..n];
  }

  lemma {:induction false} NobodyYet(s: State, run: seq<Action>)
    requires Init(s) && forall n :: 0 <= n < |run| ==> !ChecksAt(s, run, n)
    ensures After(s, run).winner.None?
    decreases |run|
  {
    if run == [] {
    } else {
      var front := run[..|run| - 1];
      forall n | 0 <= n < |front|
        ensures !ChecksAt(s, front, n)
      {
        FrontChecks(s, run, n);
      }
      NobodyYet(s, front);
      assert !ChecksAt(s, run, |run| - 1);
      ElectsAt(After(s, front), run[|run| - 1]);
    }
  }

  lemma {:induction false} SomebodyWins(s: State, run: seq<Action>, n: nat)
    requires n < |run| && ChecksAt(s, run, n)
    ensures After(s, run).winner.Some?
    decreases |run|
  {
    var front := run[..|run| - 1];
    if n < |front| {
      FrontChecks(s, run, n);
      SomebodyWins(s, front, n);
    }
    ElectsAt(After(s, front), run[|run| - 1]);
  }

  /** In every run there is a winner if and only if some batch with logs has come to its check. */
  lemma WinnerIff(s: State, run: seq<Action>)
    requires Init(s)
    ensures After(s, run).winner.Some? <==> exists n :: 0 <= n < |run| && ChecksAt(s, run, n)
  {
    if n :| 0 <= n < |run| && ChecksAt(s, run, n) {
      SomebodyWins(s, run, n);
    } else {
      NobodyYet(s, run);
    }
  }

  /** And it is the member whose batch was the first to do so. */
  lemma {:induction false} FirstBatchWins(s: State, run: seq<Action>, n: nat)
    requires Init(s) && n < |run| && ChecksAt(s, run, n) && forall j :: 0 <= j < n ==> !ChecksAt(s, run, j)
    ensures After(s, run).winner == Some(run[n].i)
    decreases |run|
  {
    var front := run[..|run| - 1];
    forall j | 0 <= j < n && j < |front|
      ensures !ChecksAt(s, front, j)
    {
      FrontChecks(s, run, j);
    }
    if n < |front| {
      FrontChecks(s, run, n);
      FirstBatchWins(s, front, n);
    } else {
      NobodyYet(s, front);
    }
    ElectsAt(After(s, front), run[|run| - 1]);
  }

  // ---------------------------------------------------------------- what is stored

  /** A batch comes to its check, and is let through: nobody has won, or its own member has. */
  predicate LetsThrough(s: State, a: Action, i: nat) {
    && a.Advance? && a.i == i && i < |s.members| && s.members[i].pc.GotData?
    && (s.winner == None || s.winner == Some(i))
  }

  /** The logs of all batches of member `i` that were let through, in the order of their checks. */
  function Accepted(s: State, run: seq<Action>, i: nat): seq<Log> {
    if run == [] then []
    else
      var t, a := After(s, run[..|run| - 1]), run[|run| - 1];
      Accepted(s, run[..|run| - 1], i) + if LetsThrough(t, a, i) then t.members[i].pc.item.logs else []
  }

  /** The logs of the batch that member `i` has been let through with and has not stored yet. */
  function Pending(pc: Pc): seq<Log> {
    match pc
    case Elected(item, _) => item.logs
    case Settling(item, _, _, _) => item.logs
    case Emitting(item, _) => item.logs
    case _ => []
  }

  /** What member `i` has stored, of the batches that were let through: all but the one under way, or,
      once a tee write has failed, no more than some first ones. */
  predicate Stored(s: State, i: nat, accepted: seq<Log>)
    requires i < |s.members|
  {
    var m := s.members[i];
    if s.teeFailed then m.logs <= accepted else m.logs + Pending(m.pc) == accepted
  }

  lemma SameMembers(s: State, a: Action)
    ensures |Next(s, a).members| == |s.members|
  {
  }

  /** Tee fails only if there is one. */
  lemma TeeFails(s: State, a: Action)
    requires s.teeFailed ==> s.tee
    ensures Next(s, a).tee == s.tee && (Next(s, a).teeFailed ==> s.tee)
  {
  }

  /** What a step of another member changes of a member. */
  predicate Untouched(m: Member, n: Member) {
    n.logs == m.logs && n.pc == m.pc && n.warned == m.warned && n.failed == m.failed && n.auth == m.auth
  }

  lemma OthersUntouched(s: State, a: Action, i: nat)
    requires i < |s.members| == |Next(s, a).members| && a.i != i
    ensures Untouched(s.members[i], Next(s, a).members[i])
  {
    if a.Advance? {
      if Enabled(s, a) {
        AdvanceUntouched(s, a.i, a.writeOk, i);
      }
    } else {
      assert a.i < |s.members| ==>
        Next(s, a).members == s.members || Next(s, a) == Put(s, a.i, Next(s, a).members[a.i]);
    }
  }

  lemma AdvanceUntouched(s: State, i: nat, writeOk: bool, j: nat)
    requires Enabled(s, Advance(i, writeOk)) && i != j && j < |s.members|
    ensures j < |AdvanceStep(s, i, writeOk).members| && Untouched(s.members[j], AdvanceStep(s, i, writeOk).members[j])
  {
    if s.members[i].pc.Settling? {
      LoopUntouched(s, i, j);
    } else {
      PutOne(s, i, writeOk);
    }
  }

  /** Every step of a callback but those of the winner's loop touches its own member only. */
  lemma PutOne(s: State, i: nat, writeOk: bool)
    requires Enabled(s, Advance(i, writeOk)) && !s.members[i].pc.Settling?
    ensures i < |AdvanceStep(s, i, writeOk).members|
    ensures AdvanceStep(s, i, writeOk).members == s.members[i := AdvanceStep(s, i, writeOk).members[i]]
  {
  }

  lemma LoopUntouched(s: State, i: nat, j: nat)
    requires i < |s.members| && s.members[i].pc.Settling? && i != j && j < |s.members|
    ensures j < |SettleStep(s, i).members| && Untouched(s.members[j], SettleStep(s, i).members[j])
  {
  }

  /** Another member that writes to tee has won. */
  lemma OthersFail(s: State, a: Action, i: nat)
    requires Inv(s) && a.i != i && Next(s, a).teeFailed && !s.teeFailed
    ensures s.winner != Some(i)
  {
    assert MemberOk(s.winner, a.i, s.members[a.i]);
  }

  lemma OthersStored(s: State, a: Action, i: nat, accepted: seq<Log>)
    requires Inv(s) && i < |s.members| == |Next(s, a).members| && a.i != i && Stored(s, i, accepted)
    ensures Stored(Next(s, a), i, accepted)
  {
    OthersUntouched(s, a, i);
    TeeStays(s, a);
    if Next(s, a).teeFailed && !s.teeFailed {
      OthersFail(s, a, i);
      NothingYet(s, i);
    }
  }

  lemma TeeStays(s: State, a: Action)
    ensures s.teeFailed ==> Next(s, a).teeFailed
  {
  }

  /** A member that has not won has stored nothing, and is let through with nothing. */
  lemma NothingYet(s: State, i: nat)
    requires Inv(s) && i < |s.members| && s.winner != Some(i)
    ensures s.members[i].logs == [] && Pending(s.members[i].pc) == []
  {
    assert MemberOk(s.winner, i, s.members[i]);
  }

  /** What the step of a member leaves of its logs and of its batch under way. */
  lemma OwnStored(s: State, a: Action, accepted: seq<Log>)
    requires Inv(s) && (s.teeFailed ==> s.tee) && a.i < |s.members| == |Next(s, a).members| && Stored(s, a.i, accepted)
    ensures Stored(Next(s, a), a.i,
                   accepted + if LetsThrough(s, a, a.i) then s.members[a.i].pc.item.logs else [])
  {
    assert accepted + [] == accepted;
    if a.Advance? {
      if Enabled(s, a) {
        AdvanceStored(s, a.i, a.writeOk, accepted);
      }
    } else {
      assert MemberOk(s.winner, a.i, s.members[a.i]);
      OtherStepStored(s, a);
    }
  }

  /** A step that is none of a callback touches no log, and no batch but one that arrives. */
  lemma OtherStepStored(s: State, a: Action)
    requires a.i < |s.members| == |Next(s, a).members| && !a.Advance?
    ensures var m, n := s.members[a.i], Next(s, a).members[a.i];
            && n.logs == m.logs && (n.pc == m.pc || (Pending(n.pc) == [] && (m.pc.Idle? || m.pc.Ended?)))
            && Next(s, a).teeFailed == s.teeFailed
  {
    hide AdvanceStep;
  }

  lemma AdvanceStored(s: State, i: nat, writeOk: bool, accepted: seq<Log>)
    requires Inv(s) && (s.teeFailed ==> s.tee) && Enabled(s, Advance(i, writeOk)) && Stored(s, i, accepted)
    ensures i < |AdvanceStep(s, i, writeOk).members|
    ensures Stored(AdvanceStep(s, i, writeOk), i,
                   accepted + if s.members[i].pc.GotData? && Accepts(s, i) then s.members[i].pc.item.logs else [])
  {
    var m := s.members[i];
    if m.pc.GotData? {
      CheckStored(s, i, accepted);
    } else {
      assert accepted + [] == accepted;
      if m.pc.Elected? || m.pc.Settling? || m.pc.Emitting? {
        BatchStored(s, i, writeOk, accepted);
      } else {
        CallbackAt(s, i, writeOk);
        CallbackStored(m, Accepts(s, i));
      }
    }
  }

  lemma BatchStored(s: State, i: nat, writeOk: bool, accepted: seq<Log>)
    requires Inv(s) && (s.teeFailed ==> s.tee) && Enabled(s, Advance(i, writeOk)) && Stored(s, i, accepted)
    requires s.members[i].pc.Elected? || s.members[i].pc.Settling? || s.members[i].pc.Emitting?
    ensures i < |AdvanceStep(s, i, writeOk).members| && Stored(AdvanceStep(s, i, writeOk), i, accepted)
  {
    if s.members[i].pc.Settling? {
      LoopStored(s, i, accepted);
    } else if s.members[i].pc.Emitting? {
      EmitStored(s, i, writeOk, accepted);
    }
  }

  /** A step of a callback that holds no batch. */
  lemma CallbackAt(s: State, i: nat, writeOk: bool)
    requires Enabled(s, Advance(i, writeOk))
    requires var pc := s.members[i].pc; !pc.GotData? && !pc.Settling? && !pc.Elected? && !pc.Emitting?
    ensures AdvanceStep(s, i, writeOk) == Put(s, i, CallbackStep(s.members[i], Accepts(s, i)))
  {
  }

  /** Where the check leaves a member. */
  lemma CheckMember(s: State, i: nat) returns (pc: Pc)
    requires i < |s.members| && s.members[i].pc.GotData?
    ensures i < |AcceptData(s, i).members| && AcceptData(s, i).members[i] == s.members[i].(pc := pc)
    ensures var item := s.members[i].pc.item;
            if s.winner == None || s.winner == Some(i)
            then pc == Emitting(item, 0) || (pc.Elected? && pc.item == item) else pc == Idle
  {
    var item := s.members[i].pc.item;
    if s.winner.Some? {
      pc := if s.winner.value == i then Emitting(item, 0) else Idle;
    } else if item.logs == [] {
      pc := Emitting(item, 0);
    } else {
      pc := Elected(item, Registered(s.members));
    }
  }

  lemma CheckStored(s: State, i: nat, accepted: seq<Log>)
    requires Inv(s) && i < |s.members| && s.members[i].pc.GotData? && Stored(s, i, accepted)
    ensures i < |AcceptData(s, i).members|
    ensures Stored(AcceptData(s, i), i, accepted + if Accepts(s, i) then s.members[i].pc.item.logs else [])
  {
    var m := s.members[i];
    assert m.logs + [] == m.logs && accepted + [] == accepted;
    assert MemberOk(s.winner, i, m);
    var pc := CheckMember(s, i);
  }

  lemma LoopStored(s: State, i: nat, accepted: seq<Log>)
    requires i < |s.members| && s.members[i].pc.Settling? && Stored(s, i, accepted)
    ensures i < |SettleStep(s, i).members| && Stored(SettleStep(s, i), i, accepted)
  {
  }

  lemma CallbackStored(m: Member, accepts: bool)
    requires Pending(m.pc) == []
    ensures CallbackStep(m, accepts).logs == m.logs && (!m.pc.GotData? ==> Pending(CallbackStep(m, accepts).pc) == [])
  {
  }

  lemma EmitStored(s: State, i: nat, writeOk: bool, accepted: seq<Log>)
    requires Inv(s) && (s.teeFailed ==> s.tee) && i < |s.members| && s.members[i].pc.Emitting? && Stored(s, i, accepted)
    ensures i < |EmitStep(s, i, writeOk).members| && Stored(EmitStep(s, i, writeOk), i, accepted)
  {
    var m, t := s.members[i], EmitStep(s, i, writeOk);
    assert MemberOk(s.winner, i, m);
    assert t.members[i].logs + [] == t.members[i].logs && m.logs + [] == m.logs;
    if s.winner == Some(i) && s.tee {
      assert TeeOk(s, m);
    } else if s.winner != Some(i) {
      assert m.logs + m.pc.item.logs == [];
    }
  }

  /** In every run, with no tee or one whose writes all succeed, the logs of every member are those of the
      batches that it was let through with, whole and in order, but for the one under way; and once a
      write has failed they are those of some first ones of them. */
  lemma {:induction false} StoresAccepted(s: State, run: seq<Action>, i: nat)
    requires Init(s) && i < |s.members|
    ensures var t := After(s, run);
            |t.members| == |s.members| && Stored(t, i, Accepted(s, run, i)) && (t.teeFailed ==> t.tee)
    decreases |run|
  {
    if run == [] {
    } else {
      var front, a := run[..|run| - 1], run[|run| - 1];
      StoresAccepted(s, front, i);
      InitInv(s);
      RunKeeps(s, front);
      StoresStep(After(s, front), a, i, Accepted(s, front, i));
    }
  }

  lemma StoresStep(s: State, a: Action, i: nat, accepted: seq<Log>)
    requires Inv(s) && (s.teeFailed ==> s.tee) && i < |s.members| && Stored(s, i, accepted)
    ensures var t := Next(s, a);
            && |t.members| == |s.members| && (t.teeFailed ==> t.tee)
            && Stored(t, i, accepted + if LetsThrough(s, a, i) then s.members[i].pc.item.logs else [])
  {
    SameMembers(s, a);
    TeeFails(s, a);
    if a.i == i {
      OwnStored(s, a, accepted);
    } else {
      OthersStored(s, a, i, accepted);
      assert accepted + [] == accepted;
    }
  }
}
