/** The first-response race of the headless query. Each member has an authentication attempt and a
    stream whose callbacks run one after another; a callback is split at every lock it takes, and
    every interleaving of all members' steps is a run. */
module FirstRace {
  import opened Options

  datatype Phase = AuthInProgress | InProgress | Success | Warning | Error | Cancelled

  predicate Running(p: Phase) {
    p.AuthInProgress? || p.InProgress?
  }

  type Log = nat

  /** A decoded stream item: its logs, and whether it carries warnings or errors. */
  datatype Item = Item(logs: seq<Log>, warns: bool, errs: bool)

  /** Where a member's current stream callback is. */
  datatype Pc =
    | Idle                                                      // between callbacks
    | GotData(item: Item)                                       // OnData before acceptData
    | Elected(item: Item, cancels: seq<bool>)                   // won; authCancel() is next
    | Settling(item: Item, next: nat, marked: bool, cancels: seq<bool>) // marking, cancelling loser `next`
    | Emitting(item: Item, sent: nat)                           // accepted; tee records
    | Badging(item: Item)                                       // stored; setStreamPhase is next
    | Closing                                                   // OnClose before its check
    | CloseAccepted                                             // OnClose after its check
    | Failing                                                   // a stream error before its check
    | FailAccepted                                              // a stream error about to be recorded
    | FailRecorded                                              // a stream error about to set the phase
    | Ended

  /** Where a member's authentication is: `AuthFailing` has recorded its error. */
  datatype Auth = Resolving | AuthFailing | AuthOver

  datatype Member = Member(phase: Phase, auth: Auth, registered: bool, cancelled: bool, pc: Pc,
                           logs: seq<Log>, warned: bool, failed: bool)

  /** `emitted` is what tee wrote; once a write fails none succeeds. */
  datatype State = State(members: seq<Member>, winner: Option<nat>, authCancelled: bool,
                         tee: bool, teeFailed: bool, emitted: seq<Log>)

  datatype Event = Data(item: Item) | Close | Failure

  datatype Action =
    | StreamContext(i: nat)       // streamContext: register and start, unless someone has won
    | AuthFail(i: nat)            // authFailed records the error
    | AuthBadge(i: nat)           // authFailed sets the phase
    | AuthStop(i: nat)            // authentication gave up: its context was cancelled
    | Arrive(i: nat, event: Event)
    | Advance(i: nat, writeOk: bool)

  function FreshMember(): Member {
    Member(AuthInProgress, Resolving, false, false, Idle, [], false, false)
  }

  predicate Init(s: State) {
    && s.winner == None && !s.authCancelled && !s.teeFailed && s.emitted == []
    && forall i :: 0 <= i < |s.members| ==> s.members[i] == FreshMember()
  }

  predicate Enabled(s: State, a: Action) {
    && a.i < |s.members|
    && var m := s.members[a.i];
       match a
       case StreamContext(_) => m.auth.Resolving?
       case AuthFail(_) => m.auth.Resolving?
       case AuthBadge(_) => m.auth.AuthFailing?
       case AuthStop(_) => m.auth.Resolving?
       case Arrive(_, _) => m.registered && (m.pc.Idle? || m.pc.Ended?)
       case Advance(_, _) => !m.pc.Idle? && !m.pc.Ended?
  }

  function Put(s: State, i: nat, m: Member): State
    requires i < |s.members|
  {
    s.(members := s.members[i := m])
  }

  predicate Accepts(s: State, i: nat) {
    s.winner.None? || s.winner.value == i
  }

  /** `queryMember.cancelled`. */
  function MarkCancelled(m: Member): Member {
    if Running(m.phase) then m.(phase := Cancelled) else m
  }

  /** acceptData, under the race's lock: losers' data is dropped, data without logs is let through,
      and the first data with logs wins and takes a copy of the registered streams. */
  function AcceptData(s: State, i: nat): State
    requires i < |s.members| && s.members[i].pc.GotData?
  {
    var m := s.members[i];
    if s.winner.Some? then Put(s, i, m.(pc := if s.winner.value == i then Emitting(m.pc.item, 0) else Idle))
    else if m.pc.item.logs == [] then Put(s, i, m.(pc := Emitting(m.pc.item, 0)))
    else Put(s, i, m.(pc := Elected(m.pc.item, Registered(s.members)))).(winner := Some(i))
  }

  function Registered(ms: seq<Member>): (r: seq<bool>)
    ensures |r| == |ms| && forall j :: 0 <= j < |ms| ==> r[j] == ms[j].registered
  {
    seq(|ms|, j requires 0 <= j < |ms| => ms[j].registered)
  }

  /** What one step of the winner's loop does to the loser it has reached: mark it, then cancel its
      stream if it had one at the election. */
  function TreatLoser(pc: Pc, loser: Member): Member
    requires pc.Settling? && pc.next < |pc.cancels|
  {
    if !pc.marked then MarkCancelled(loser)
    else if pc.cancels[pc.next] then loser.(cancelled := true)
    else loser
  }

  /** Where that step leaves the winner `i` of `n` members. */
  function LoopPc(pc: Pc, i: nat, n: nat): Pc
    requires pc.Settling?
  {
    if pc.next >= n then Emitting(pc.item, 0)
    else if pc.next == i || pc.marked then pc.(next := pc.next + 1, marked := false)
    else pc.(marked := true)
  }

  function SettleStep(s: State, i: nat): State
    requires i < |s.members| && s.members[i].pc.Settling?
  {
    var m := s.members[i];
    var pc := m.pc;
    var losers := if pc.next < |s.members| && pc.next < |pc.cancels| && pc.next != i
                  then Put(s, pc.next, TreatLoser(pc, s.members[pc.next])) else s;
    Put(losers, i, m.(pc := LoopPc(pc, i, |s.members|)))
  }

  /** One tee record, or, with all of them out, addData. A failed write drops the item. */
  function EmitMember(m: Member, tee: bool, writeOk: bool): Member
    requires m.pc.Emitting?
  {
    var pc := m.pc;
    if tee && pc.sent < |pc.item.logs| then m.(pc := if writeOk then pc.(sent := pc.sent + 1) else Idle)
    else
      m.(logs := m.logs + pc.item.logs, warned := m.warned || pc.item.warns,
         failed := m.failed || pc.item.errs, pc := Badging(pc.item))
  }

  function EmitStep(s: State, i: nat, writeOk: bool): State
    requires i < |s.members| && s.members[i].pc.Emitting?
  {
    var m := s.members[i];
    var writing, ok := s.tee && m.pc.sent < |m.pc.item.logs|, writeOk && !s.teeFailed;
    Put(s, i, EmitMember(m, s.tee, ok))
      .(emitted := if writing && ok then s.emitted + [m.pc.item.logs[m.pc.sent]] else s.emitted,
        teeFailed := s.teeFailed || (writing && !ok))
  }

  /** The steps of a callback that concern its own member only; `accepts` is what the race's check
      answers. */
  function CallbackStep(m: Member, accepts: bool): Member {
    match m.pc
    case Badging(item) =>
      m.(phase := if item.errs then Error else if item.warns then Warning else m.phase, pc := Idle)
    case Closing => m.(pc := if accepts then CloseAccepted else Ended)
    case CloseAccepted => m.(phase := if m.failed then Error else if m.warned then Warning else Success, pc := Ended)
    case Failing => m.(pc := if accepts then FailAccepted else Ended)
    case FailAccepted => m.(failed := true, pc := FailRecorded)
    case FailRecorded => m.(phase := Error, pc := Ended)
    case _ => m
  }

  function AdvanceStep(s: State, i: nat, writeOk: bool): State
    requires Enabled(s, Advance(i, writeOk))
  {
    var m := s.members[i];
    match m.pc
    case GotData(_) => AcceptData(s, i)
    case Elected(item, cancels) => Put(s, i, m.(pc := Settling(item, 0, false, cancels))).(authCancelled := true)
    case Settling(_, _, _, _) => SettleStep(s, i)
    case Emitting(_, _) => EmitStep(s, i, writeOk)
    case _ => Put(s, i, CallbackStep(m, Accepts(s, i)))
  }

  function Next(s: State, a: Action): State {
    if !Enabled(s, a) then s
    else
      var m := s.members[a.i];
      match a
      case StreamContext(i) =>
        if s.winner.Some? then Put(s, i, m.(auth := AuthOver))
        else Put(s, i, m.(auth := AuthOver, registered := true, phase := InProgress))
      case AuthFail(i) => Put(s, i, m.(auth := AuthFailing, failed := true))
      case AuthBadge(i) => Put(s, i, m.(auth := AuthOver, phase := Error))
      case AuthStop(i) => Put(s, i, m.(auth := AuthOver))
      case Arrive(i, event) =>
        Put(s, i, m.(pc := match event case Data(item) => GotData(item) case Close => Closing case Failure => Failing))
      case Advance(i, writeOk) => AdvanceStep(s, i, writeOk)
  }

  function After(s: State, run: seq<Action>): State {
    if run == [] then s else Next(After(s, run[..|run| - 1]), run[|run| - 1])
  }

  // ---------------------------------------------------------------- invariant

  /** The winner's loop has passed member `j`: it is out of the race. */
  predicate Out(m: Member) {
    !Running(m.phase) && (m.registered ==> m.cancelled)
  }

  predicate Undecided(pc: Pc) {
    pc.Elected? || pc.Settling?
  }

  /** A member that has not won holds no log and is not about to store or write one; only a loser's
      stream is ever cancelled. */
  predicate MemberOk(winner: Option<nat>, i: nat, m: Member) {
    && (winner != Some(i) ==> m.logs == [] && !Undecided(m.pc) && (m.pc.Emitting? ==> m.pc.item.logs == []))
    && (m.cancelled ==> winner.Some? && winner.value != i)
    && (!m.registered ==> m.pc.Idle?)
    && (m.registered ==> m.auth.AuthOver?)
  }

  ghost predicate AllOk(s: State) {
    forall i :: 0 <= i < |s.members| ==> MemberOk(s.winner, i, s.members[i])
  }

  /** What tee wrote is what the winner stored, plus what it has written of its current item. */
  predicate TeeOk(s: State, w: Member) {
    && (!s.teeFailed ==> s.emitted == w.logs + if w.pc.Emitting? then Written(w.pc) else [])
    && (s.teeFailed && w.pc.Emitting? ==> w.pc.sent == 0)
    && w.logs <= s.emitted
  }

  function Written(pc: Pc): seq<Log>
    requires pc.Emitting?
  {
    if pc.sent <= |pc.item.logs| then pc.item.logs[..pc.sent] else pc.item.logs
  }

  /** Every member before `upTo` but the winner is out. */
  ghost predicate LosersOut(ms: seq<Member>, w: nat, upTo: nat) {
    forall j :: 0 <= j < |ms| && j < upTo && j != w ==> Out(ms[j])
  }

  /** How far the winner has got with the losers. */
  ghost predicate Settled(s: State, w: nat)
    requires w < |s.members|
  {
    match s.members[w].pc
    case Elected(_, cancels) => cancels == Registered(s.members)
    case Settling(_, next, marked, cancels) =>
      && s.authCancelled && cancels == Registered(s.members)
      && LosersOut(s.members, w, next)
      && (marked && next < |s.members| && next != w ==> !Running(s.members[next].phase))
    case _ => s.authCancelled && LosersOut(s.members, w, |s.members|)
  }

  ghost predicate Inv(s: State) {
    && AllOk(s)
    && (s.winner.None? ==> s.emitted == [])
    && (s.winner.Some? ==>
          && s.winner.value < |s.members|
          && Settled(s, s.winner.value)
          && (s.tee ==> TeeOk(s, s.members[s.winner.value])))
  }

  lemma InitInv(s: State)
    requires Init(s)
    ensures Inv(s)
  {
  }

  // ---------------------------------------------------------------- one member's step

  /** A member that is out stays out, and one that does not run does not start. */
  predicate NoRevival(m: Member, n: Member) {
    n.registered == m.registered && (m.cancelled ==> n.cancelled) && (Running(n.phase) ==> Running(m.phase))
  }

  lemma SameRegistered(ms: seq<Member>, i: nat, m: Member)
    requires i < |ms| && m.registered == ms[i].registered
    ensures Registered(ms[i := m]) == Registered(ms)
  {
  }

  lemma OthersOut(ms: seq<Member>, w: nat, upTo: nat, i: nat, m: Member)
    requires i < |ms| && LosersOut(ms, w, upTo) && (i == w || NoRevival(ms[i], m))
    ensures LosersOut(ms[i := m], w, upTo)
  {
  }

  lemma PutOk(s: State, i: nat, m: Member)
    requires i < |s.members| && AllOk(s) && MemberOk(s.winner, i, m)
    ensures AllOk(Put(s, i, m))
  {
  }

  /** A step of a member that has not won, once somebody has. */
  lemma LoserKeeps(s: State, i: nat, m: Member)
    requires Inv(s) && i < |s.members| && MemberOk(s.winner, i, m)
    requires s.winner.Some? && s.winner.value != i && NoRevival(s.members[i], m)
    ensures Inv(Put(s, i, m))
  {
    PutOk(s, i, m);
    SameRegistered(s.members, i, m);
    var w := s.winner.value;
    match s.members[w].pc
    case Elected(_, _) =>
    case Settling(_, next, _, _) => OthersOut(s.members, w, next, i, m);
    case _ => OthersOut(s.members, w, |s.members|, i, m);
  }

  /** A step of the winner that is done with the losers. */
  lemma WinnerKeeps(s: State, i: nat, m: Member, t: State)
    requires Inv(s) && i < |s.members| && s.winner == Some(i) && MemberOk(s.winner, i, m)
    requires !Undecided(s.members[i].pc) && !Undecided(m.pc)
    requires t == Put(s, i, m).(emitted := t.emitted, teeFailed := t.teeFailed) && (s.tee ==> TeeOk(t, m))
    ensures Inv(t)
  {
    PutOk(s, i, m);
    assert LosersOut(s.members, i, |s.members|);
    OthersOut(s.members, i, |s.members|, i, m);
    assert Settled(t, i);
  }

  /** A step of any member before the election. */
  lemma EarlyKeeps(s: State, i: nat, m: Member)
    requires Inv(s) && i < |s.members| && s.winner.None? && MemberOk(None, i, m)
    ensures Inv(Put(s, i, m))
  {
    PutOk(s, i, m);
  }

  /** A step that touches no log, no tee record and no election. */
  lemma PlainKeeps(s: State, i: nat, m: Member)
    requires Inv(s) && i < |s.members| && MemberOk(s.winner, i, m)
    requires s.winner.Some? && s.winner.value != i ==> NoRevival(s.members[i], m)
    requires s.winner == Some(i) ==>
               !Undecided(s.members[i].pc) && !Undecided(m.pc) && (s.tee ==> TeeOk(Put(s, i, m), m))
    ensures Inv(Put(s, i, m))
  {
    if s.winner.None? {
      EarlyKeeps(s, i, m);
    } else if s.winner.value != i {
      LoserKeeps(s, i, m);
    } else {
      WinnerKeeps(s, i, m, Put(s, i, m));
    }
  }

  lemma ElectKeeps(s: State, i: nat, m: Member)
    requires Inv(s) && i < |s.members| && s.winner.None? && m == s.members[i].(pc := m.pc)
    requires m.pc.Elected? && m.pc.cancels == Registered(s.members) && s.members[i].pc.GotData?
    ensures Inv(Put(s, i, m).(winner := Some(i)))
  {
    var t := Put(s, i, m).(winner := Some(i));
    SameRegistered(s.members, i, m);
    forall j | 0 <= j < |t.members| ensures MemberOk(Some(i), j, t.members[j]) {
      assert MemberOk(None, j, s.members[j]);
    }
  }

  lemma AcceptKeeps(s: State, i: nat)
    requires i < |s.members| && s.members[i].pc.GotData? && Inv(s)
    ensures Inv(AcceptData(s, i))
  {
    var m := s.members[i];
    assert MemberOk(s.winner, i, m);
    if s.winner.Some? {
      PlainKeeps(s, i, m.(pc := if s.winner.value == i then Emitting(m.pc.item, 0) else Idle));
    } else if m.pc.item.logs == [] {
      EarlyKeeps(s, i, m.(pc := Emitting(m.pc.item, 0)));
    } else {
      ElectKeeps(s, i, m.(pc := Elected(m.pc.item, Registered(s.members))));
    }
  }

  lemma EmitTee(s: State, i: nat, writeOk: bool)
    requires i < |s.members| && s.members[i].pc.Emitting? && s.tee && TeeOk(s, s.members[i])
    ensures TeeOk(EmitStep(s, i, writeOk), EmitStep(s, i, writeOk).members[i])
  {
    var m := s.members[i];
    var logs, sent := m.pc.item.logs, m.pc.sent;
    if sent < |logs| {
      assert logs[..sent + 1] == logs[..sent] + [logs[sent]];
      Assoc(m.logs, logs[..sent], [logs[sent]]);
      if writeOk && !s.teeFailed {
        assert m.logs <= m.logs + logs[..sent + 1];
      }
    } else {
      assert Written(m.pc) == logs;
      assert m.logs + logs + [] == m.logs + logs;
      if s.teeFailed {
        assert m.logs + logs == m.logs;
      }
    }
  }

  lemma Assoc(a: seq<Log>, b: seq<Log>, c: seq<Log>)
    ensures a + (b + c) == (a + b) + c
  {
  }

  lemma EmitKeeps(s: State, i: nat, writeOk: bool)
    requires i < |s.members| && s.members[i].pc.Emitting? && Inv(s)
    ensures Inv(EmitStep(s, i, writeOk))
  {
    var m, t := s.members[i], EmitStep(s, i, writeOk);
    assert MemberOk(s.winner, i, m);
    if s.winner == Some(i) {
      if s.tee {
        EmitTee(s, i, writeOk);
      }
      WinnerKeeps(s, i, t.members[i], t);
    } else {
      assert m.logs + m.pc.item.logs == [];
      PlainKeeps(s, i, t.members[i]);
    }
  }

  /** The winner's own part of a step of its loop, with the losers in `ms` by now. */
  lemma LoopStep(s: State, i: nat, ms: seq<Member>, m: Member)
    requires Inv(s) && i < |s.members| && s.winner == Some(i) && s.members[i].pc.Settling?
    requires |ms| == |s.members| && ms[i] == s.members[i] && AllOk(s.(members := ms))
             && Registered(ms) == Registered(s.members)
    requires m == s.members[i].(pc := m.pc)
    requires match m.pc
             case Settling(_, next, marked, cancels) =>
               && cancels == s.members[i].pc.cancels && LosersOut(ms, i, next)
               && (marked && next < |ms| && next != i ==> !Running(ms[next].phase))
             case Emitting(_, sent) => sent == 0 && LosersOut(ms, i, |ms|)
             case _ => false
    ensures Inv(s.(members := ms[i := m]))
  {
    var u, t := s.(members := ms), s.(members := ms[i := m]);
    assert MemberOk(s.winner, i, s.members[i]);
    PutOk(u, i, m);
    SameRegistered(ms, i, m);
    OthersOut(ms, i, if m.pc.Settling? then m.pc.next else |ms|, i, m);
    assert Settled(t, i);
    if s.tee && m.pc.Emitting? {
      assert m.pc.item.logs[..0] == [] && s.members[i].logs + [] == s.members[i].logs;
    }
  }

  /** The loop's work on one loser: mark it or cancel its stream. */
  lemma LoserStep(s: State, i: nat, n: Member)
    requires Inv(s) && i < |s.members| && s.winner == Some(i) && s.members[i].pc.Settling?
    requires var pc := s.members[i].pc;
             && pc.next < |s.members| == |pc.cancels| && pc.next != i
             && n == TreatLoser(pc, s.members[pc.next])
    ensures var pc, ms := s.members[i].pc, s.members[s.members[i].pc.next := n];
            && AllOk(s.(members := ms)) && Registered(ms) == Registered(s.members)
            && LosersOut(ms, i, pc.next)
            && !Running(n.phase)
            && (pc.marked ==> LosersOut(ms, i, pc.next + 1))
  {
    var next := s.members[i].pc.next;
    assert MemberOk(s.winner, next, s.members[next]);
    PutOk(s, next, n);
    SameRegistered(s.members, next, n);
    OthersOut(s.members, i, next, next, n);
  }

  /** One step of the loop over the losers: what it passes is out. */
  lemma SettleKeeps(s: State, i: nat)
    requires i < |s.members| && s.members[i].pc.Settling? && Inv(s)
    ensures Inv(SettleStep(s, i))
  {
    var m := s.members[i];
    var next := m.pc.next;
    assert MemberOk(s.winner, i, m);
    assert Settled(s, i);
    if next < |s.members| && next != i {
      PassesLoser(s, i);
    } else {
      LoopStep(s, i, s.members, m.(pc := LoopPc(m.pc, i, |s.members|)));
    }
  }

  lemma PassesLoser(s: State, i: nat)
    requires i < |s.members| && s.members[i].pc.Settling? && Inv(s) && s.winner == Some(i) && Settled(s, i)
    requires s.members[i].pc.next < |s.members| == |s.members[i].pc.cancels| && s.members[i].pc.next != i
    ensures Inv(SettleStep(s, i))
  {
    var m := s.members[i];
    var next := m.pc.next;
    var n := TreatLoser(m.pc, s.members[next]);
    LoserStep(s, i, n);
    LoopStep(s, i, s.members[next := n], m.(pc := LoopPc(m.pc, i, |s.members|)));
  }

  predicate Quiet(pc: Pc) {
    !Undecided(pc) && !pc.Emitting?
  }

  /** A step that leaves a member's logs alone and revives nobody. */
  lemma QuietKeeps(s: State, i: nat, n: Member)
    requires Inv(s) && i < |s.members|
    requires var m := s.members[i];
             && n.logs == m.logs && n.cancelled == m.cancelled && n.registered == m.registered && n.auth == m.auth
             && m.registered && NoRevival(m, n) && Quiet(m.pc) && Quiet(n.pc)
    ensures Inv(Put(s, i, n))
  {
    var m := s.members[i];
    assert MemberOk(s.winner, i, m);
    if s.winner == Some(i) && s.tee {
      assert TeeOk(s, m);
      assert TeeOk(Put(s, i, n), n);
    }
    PlainKeeps(s, i, n);
  }

  lemma CallbackKeeps(s: State, i: nat)
    requires i < |s.members| && Inv(s) && !s.members[i].pc.Idle?
    requires !s.members[i].pc.GotData? && Quiet(s.members[i].pc)
    ensures Inv(Put(s, i, CallbackStep(s.members[i], Accepts(s, i))))
  {
    assert MemberOk(s.winner, i, s.members[i]);
    QuietKeeps(s, i, CallbackStep(s.members[i], Accepts(s, i)));
  }

  lemma AdvanceKeeps(s: State, i: nat, writeOk: bool)
    requires Enabled(s, Advance(i, writeOk)) && Inv(s)
    ensures Inv(AdvanceStep(s, i, writeOk))
  {
    match s.members[i].pc
    case GotData(_) => AcceptKeeps(s, i);
    case Elected(_, _) => StopsAuth(s, i);
    case Settling(_, _, _, _) => SettleKeeps(s, i);
    case Emitting(_, _) => EmitKeeps(s, i, writeOk);
    case _ => CallbackKeeps(s, i);
  }

  lemma StopsAuth(s: State, i: nat)
    requires i < |s.members| && s.members[i].pc.Elected? && Inv(s)
    ensures Inv(AdvanceStep(s, i, true))
  {
    var m, t := s.members[i], AdvanceStep(s, i, true);
    assert MemberOk(s.winner, i, m);
    PutOk(s, i, t.members[i]);
    SameRegistered(s.members, i, t.members[i]);
  }

  lemma StepKeeps(s: State, a: Action)
    requires Inv(s)
    ensures Inv(Next(s, a))
  {
    if Enabled(s, a) {
      var m, t := s.members[a.i], Next(s, a);
      if a.Advance? {
        AdvanceKeeps(s, a.i, a.writeOk);
      } else {
        assert MemberOk(s.winner, a.i, m);
        PlainKeeps(s, a.i, t.members[a.i]);
      }
    }
  }

  lemma {:induction false} RunKeeps(s: State, run: seq<Action>)
    requires Inv(s)
    ensures Inv(After(s, run))
    decreases |run|
  {
    if run == [] {
    } else {
      RunKeeps(s, run[..|run| - 1]);
      StepKeeps(After(s, run[..|run| - 1]), run[|run| - 1]);
    }
  }

  // ---------------------------------------------------------------- what every run keeps

  /** A callback that has not reached its check, or has none to pass any more. */
  predicate Unchecked(m: Member) {
    m.auth.AuthOver? && (m.pc.Idle? || m.pc.GotData? || m.pc.Closing? || m.pc.Failing? || m.pc.Ended?)
  }

  /** How a member may change after the election. Nobody is registered, started, revived or elected
      any more; and a loser whose callback has not passed its check keeps its logs, warnings, errors
      and phase, except that the winner marks it cancelled if it is running. */
  predicate Later(m: Member, n: Member, loser: bool) {
    && NoRevival(m, n)
    && (!Undecided(m.pc) ==> !Undecided(n.pc))
    && (loser && Unchecked(m) ==>
          && Unchecked(n) && n.logs == m.logs && n.warned == m.warned && n.failed == m.failed
          && (n.phase == m.phase || (Running(m.phase) && n.phase == Cancelled)))
  }

  ghost predicate AllLater(s: State, t: State, w: nat) {
    && t.winner == s.winner && |t.members| == |s.members|
    && forall j :: 0 <= j < |s.members| ==> Later(s.members[j], t.members[j], j != w)
  }

  lemma CallbackLater(m: Member, accepts: bool)
    requires m.registered
    ensures Later(m, CallbackStep(m, accepts), !accepts)
  {
    match m.pc
    case Badging(_) =>
    case Closing =>
    case CloseAccepted =>
    case Failing =>
    case FailAccepted =>
    case FailRecorded =>
    case _ => assert CallbackStep(m, accepts) == m;
  }

  lemma PutLater(s: State, i: nat, m: Member, w: nat)
    requires i < |s.members| && Later(s.members[i], m, i != w)
    ensures AllLater(s, Put(s, i, m), w)
  {
  }

  lemma SettleLater(s: State, i: nat)
    requires i < |s.members| && s.winner == Some(i) && s.members[i].pc.Settling?
    ensures AllLater(s, SettleStep(s, i), i)
  {
    var m := s.members[i];
    var n := m.(pc := LoopPc(m.pc, i, |s.members|));
    if m.pc.next < |s.members| && m.pc.next < |m.pc.cancels| && m.pc.next != i {
      var loser := TreatLoser(m.pc, s.members[m.pc.next]);
      PutLater(s, m.pc.next, loser, i);
      PutLater(Put(s, m.pc.next, loser), i, n, i);
      LaterTwice(s, Put(s, m.pc.next, loser), SettleStep(s, i), i);
    } else {
      PutLater(s, i, n, i);
    }
  }

  lemma EmitLater(s: State, i: nat, writeOk: bool)
    requires i < |s.members| && s.winner.Some? && s.members[i].pc.Emitting?
    ensures AllLater(s, EmitStep(s, i, writeOk), s.winner.value)
  {
    PutLater(s, i, EmitMember(s.members[i], s.tee, writeOk && !s.teeFailed), s.winner.value);
  }

  lemma AdvanceLater(s: State, i: nat, writeOk: bool)
    requires Inv(s) && s.winner.Some? && Enabled(s, Advance(i, writeOk))
    ensures AllLater(s, AdvanceStep(s, i, writeOk), s.winner.value)
  {
    var m, w := s.members[i], s.winner.value;
    assert MemberOk(s.winner, i, m);
    match m.pc
    case GotData(item) => PutLater(s, i, m.(pc := if w == i then Emitting(item, 0) else Idle), w);
    case Elected(item, cancels) => PutLater(s, i, m.(pc := Settling(item, 0, false, cancels)), w);
    case Settling(_, _, _, _) => SettleLater(s, i);
    case Emitting(_, _) => EmitLater(s, i, writeOk);
    case _ =>
      CallbackLater(m, Accepts(s, i));
      PutLater(s, i, CallbackStep(m, Accepts(s, i)), w);
  }

  lemma StepLater(s: State, a: Action)
    requires Inv(s) && s.winner.Some?
    ensures AllLater(s, Next(s, a), s.winner.value)
  {
    if Enabled(s, a) {
      var w := s.winner.value;
      if a.Advance? {
        AdvanceLater(s, a.i, a.writeOk);
      } else {
        assert MemberOk(s.winner, a.i, s.members[a.i]);
        PutLater(s, a.i, Next(s, a).members[a.i], w);
      }
    }
  }

  /** The winner is set at most once, and from the election on every member changes only as above. */
  lemma {:induction false} WinnerOnce(s: State, run: seq<Action>)
    requires Inv(s) && s.winner.Some?
    ensures Inv(After(s, run)) && AllLater(s, After(s, run), s.winner.value)
    decreases |run|
  {
    if run == [] {
    } else {
      WinnerOnce(s, run[..|run| - 1]);
      var t, a := After(s, run[..|run| - 1]), run[|run| - 1];
      StepKeeps(t, a);
      StepLater(t, a);
      LaterTwice(s, t, Next(t, a), s.winner.value);
    }
  }

  lemma LaterTwice(s: State, t: State, u: State, w: nat)
    requires AllLater(s, t, w) && AllLater(t, u, w)
    ensures AllLater(s, u, w)
  {
    forall j | 0 <= j < |s.members| ensures Later(s.members[j], u.members[j], j != w) {
      assert Later(s.members[j], t.members[j], j != w) && Later(t.members[j], u.members[j], j != w);
    }
  }

  /** In every reachable state: only the winner holds logs, so there is a winner as soon as anyone
      holds a log; with tee, what was written is what the winner stored, give or take its current
      item or a failed write; and when the electing callback has got past the losers, each of them
      has stopped, and its stream, if it ever had one, is cancelled, but never the winner's. */
  lemma RaceOutcome(s: State, run: seq<Action>)
    requires Init(s)
    ensures var t := After(s, run);
            && (forall i :: 0 <= i < |t.members| && t.members[i].logs != [] ==> t.winner == Some(i))
            && (t.emitted != [] ==> t.winner.Some?)
            && (t.winner.Some? ==>
                  var w := t.winner.value;
                  && w < |t.members| && !t.members[w].cancelled
                  && (t.tee ==> t.members[w].logs <= t.emitted)
                  && (t.tee && !t.teeFailed && !t.members[w].pc.Emitting? ==> t.emitted == t.members[w].logs)
                  && (!Undecided(t.members[w].pc) ==>
                        && t.authCancelled
                        && forall j :: 0 <= j < |t.members| && j != w ==>
                             && t.members[j].phase != AuthInProgress && t.members[j].phase != InProgress
                             && (t.members[j].registered ==> t.members[j].cancelled)))
  {
    InitInv(s);
    RunKeeps(s, run);
    var t := After(s, run);
    assert forall i :: 0 <= i < |t.members| ==> MemberOk(t.winner, i, t.members[i]);
    if t.winner.Some? {
      var w := t.winner.value;
      if t.tee {
        assert TeeOk(t, t.members[w]);
        assert t.members[w].logs + [] == t.members[w].logs;
      }
      if !Undecided(t.members[w].pc) {
        assert LosersOut(t.members, w, |t.members|);
      }
    }
  }
}
