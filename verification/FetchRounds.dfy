/** What a fetch, a watch round and an authentication message do to the rows and to the loads that
    wait for them. */
module FetchRounds {
  import opened Options
  import opened FetchState
  import opened FetchBooks
  import opened FetchPublications

  // ---------------------------------------------------------------- the start of a fetch

  /** The rows that wait for a token. */
  function AuthingCrns(rows: seq<Instance>): set<Crn> {
    set i | i in rows && i.phase.AuthInProgress? :: i.crn
  }

  /** A fetch begins: no row shows a log or declares a size, no query runs, and the members of its
      snapshot are the rows that wait for their tokens. */
  ghost predicate Begun(s: State) {
    && !AnyLogs(s.rows) && (forall i :: i in s.rows ==> i.size == 0)
    && s.members == Only(AuthingCrns(s.rows), []) && s.loads == {}
    && forall i :: i in s.rows && Running(i.phase) ==> i.phase.AuthInProgress?
  }

  lemma FetchingRow(i: Instance)
    requires !i.readOnly
    ensures var f := ForFetch(i);
            && f.crn == i.crn && DisplayLogCount(f) == f.size == 0 && (f.phase.AuthInProgress? <==> IsEnabled(i))
            && (Running(f.phase) ==> f.phase.AuthInProgress?)
  {
  }

  lemma FetchingRows(rows: seq<Instance>)
    requires forall k :: 0 <= k < |rows| ==> !rows[k].readOnly
    ensures var fetching := Map(rows, Fetching());
            && !AnyLogs(fetching) && (forall i :: i in fetching ==> i.size == 0)
            && AuthingCrns(fetching) == EnabledCrns(rows)
            && forall i :: i in fetching && Running(i.phase) ==> i.phase.AuthInProgress?
  {
    var fetching := Map(rows, Fetching());
    forall k | 0 <= k < |rows|
      ensures fetching[k] == ForFetch(rows[k]) && rows[k] in rows && fetching[k] in fetching
    {
    }
    forall k | 0 <= k < |rows|
      ensures fetching[k].crn == rows[k].crn && DisplayLogCount(fetching[k]) == fetching[k].size == 0
      ensures fetching[k].phase.AuthInProgress? <==> IsEnabled(rows[k])
      ensures Running(fetching[k].phase) ==> fetching[k].phase.AuthInProgress?
    {
      FetchingRow(rows[k]);
    }
    assert AuthingCrns(fetching) == EnabledCrns(rows) by {
      forall c
        ensures c in AuthingCrns(fetching) <==> c in EnabledCrns(rows)
      {
        if c in AuthingCrns(fetching) {
          var k :| 0 <= k < |rows| && fetching[k].phase.AuthInProgress? && fetching[k].crn == c;
          assert rows[k] in rows;
        }
        if c in EnabledCrns(rows) {
          var k :| 0 <= k < |rows| && IsEnabled(rows[k]) && rows[k].crn == c;
          assert fetching[k] in fetching;
        }
      }
    }
  }

  lemma FetchBegins(s: State)
    ensures Begun(StartFetch(s, true))
  {
    FetchingRows(Configured(s.rows));
  }

  lemma CollectBegins(s: State, crns: set<Crn>)
    requires AllConfigured(s.rows, crns)
    ensures Begun(StartFetchWithSources(ForCollect(s, crns), true))
  {
    var rows := ForCollect(s, crns).rows;
    FetchingRows(rows);
    EnabledByArchive(s.rows, crns);
  }

  lemma EnabledByArchive(rows: seq<Instance>, crns: set<Crn>)
    requires AllConfigured(rows, crns)
    ensures EnabledCrns(Map(Configured(rows), EnablingOnly(crns))) == crns
  {
    var configured := Configured(rows);
    var enabled := Map(configured, EnablingOnly(crns));
    forall c
      ensures c in EnabledCrns(enabled) <==> c in crns
    {
      if c in crns {
        var j :| 0 <= j < |rows| && rows[j].crn == c && !rows[j].readOnly;
        assert rows[j] in configured;
        var k :| 0 <= k < |configured| && configured[k] == rows[j];
        assert enabled[k] in enabled && IsEnabled(enabled[k]);
      }
      if c in EnabledCrns(enabled) {
        var k :| 0 <= k < |enabled| && IsEnabled(enabled[k]) && enabled[k].crn == c;
        assert enabled[k] == EnablingOnly(crns)(configured[k]);
      }
    }
  }

  /** Whatever starts a fetch, it begins with empty rows, and with the rows that wait for a token as the
      members of its snapshot. */
  lemma StartsBegin(s: State, t: Step)
    requires Starts(s, t) && Opens(t)
    ensures Begun(Next(s, t))
  {
    match t.event {
      case Pressed(key) =>
        if key.FirstFetchKey? {
          SomeWilling(s);
          FetchBegins(Racing(Willing(s)));
        } else if key.WatchKey? {
          FetchBegins(ForWatch(s));
        } else {
          FetchBegins(s);
        }
      case Received(message) => CollectBegins(s, message.crns);
    }
  }

  lemma SomeWilling(s: State)
    requires AnyConfigured(s.rows)
    ensures AnyEnabled(Willing(s).rows)
  {
    if !AnyEnabled(s.rows) {
      var k :| 0 <= k < |s.rows| && !s.rows[k].readOnly;
      assert IsEnabled(Willing(s).rows[k]);
    }
  }

  // ---------------------------------------------------------------- watch rounds

  /** A round that has ended, the cooldown, and the tick that is due: exactly the enabled members that
      have no logs and no error are fetched again, into the same container. */
  lemma NextRound(s: State, ok: bool, later: bool)
    requires s.mode.watching && Idle(s) && AnyEmpty(s.rows, s.members)
    ensures var u := OnWatchTick(Settle(s, false, ok), s.mode.watchEpoch, false, later);
            && u.books == s.books && u.mode.watching && u.mode.rounds == s.mode.rounds + 1 && |u.rows| == |s.rows|
            && forall k :: 0 <= k < |s.rows| ==>
                 u.rows[k] == if StillEmpty(s.rows[k], s.members) then ClearStore(s.rows[k]).(phase := AuthInProgress)
           else s.rows[k]
  {
    var rested := Rested(s);
    RoundEnds(s, ok);
    RoundBegins(s, later);
    assert OnWatchTick(rested, s.mode.watchEpoch, false, later)
           == rested.(rows := Map(rested.rows, Resuming(s.members)));
    forall k | 0 <= k < |s.rows|
      ensures Resuming(s.members)(Resting(s.members)(s.rows[k]))
              == if StillEmpty(s.rows[k], s.members) then ClearStore(s.rows[k]).(phase := AuthInProgress) else s.rows[k]
    {
      AllRest(s, k);
    }
  }

  /** The round has ended, and the empty members wait. */
  function Rested(s: State): State {
    CountRound(s).(rows := Map(s.rows, Resting(s.members)))
  }

  lemma RoundEnds(s: State, ok: bool)
    requires s.mode.watching && Idle(s) && AnyEmpty(s.rows, s.members)
    ensures Settle(s, false, ok) == Rested(s)
  {
  }

  lemma RoundBegins(s: State, later: bool)
    requires s.mode.watching && AnyEmpty(s.rows, s.members)
    ensures StartWatchRound(Rested(s), later) == Rested(s).(rows := Map(Rested(s).rows, Resuming(s.members)))
  {
    var e :| 0 <= e < |s.rows| && StillEmpty(s.rows[e], s.members);
    assert Waiting(Rested(s).rows[e], s.members);
  }

  /** No row waits yet when a round ends. */
  lemma AllRest(s: State, k: nat)
    requires Idle(s) && k < |s.rows|
    ensures !s.rows[k].phase.Watching?
  {
    assert !Running(s.rows[k].phase);
  }

  /** When no member is empty, or a cap is hit, the round is the last one. */
  lemma LastRound(s: State, capHit: bool, ok: bool)
    requires s.mode.watching && Idle(s)
    ensures Settle(s, capHit, ok).mode.watching <==> AnyEmpty(s.rows, s.members) && !capHit
    ensures !Settle(s, capHit, ok).mode.watching ==> Settle(s, capHit, ok).books.container.None?
  {
  }

  // ---------------------------------------------------------------- environments

  /** A message about one environment moves its waiting rows and nothing else, while the fetch is not
      over by it. */
  lemma EnvironmentsApart(s: State, env: Environment, to: Phase, capHit: bool, ok: bool)
    requires !Idle(s.(rows := Map(s.rows, Authing(Some(env), to))))
    ensures var u := SettleEnv(s, env, to, capHit, ok);
            && u.books == s.books && u.mode == s.mode && u.race == s.race && |u.rows| == |s.rows|
            && forall k :: 0 <= k < |s.rows| ==>
                 u.rows[k] == if s.rows[k].env == env && s.rows[k].phase.AuthInProgress?
                              then s.rows[k].(phase := to) else s.rows[k]
  {
  }

  // ---------------------------------------------------------------- loads

  /** A load that waits goes on waiting unless the flush it waits for comes, or a new fetch answers all
      of them. */
  predicate Answers(s: State, t: Step, crn: Crn) {
    || Starts(s, t)
    || (t.event.Received? && Delivers(s, t.event.message) && s.books.messages[t.event.message.at].crn == crn)
  }

  lemma SettleKeepsLoads(s: State, capHit: bool, ok: bool)
    ensures Settle(s, capHit, ok).loads == s.loads
  {
  }

  lemma FirstFetchLoads(s: State, opens: bool)
    ensures StartFirstFetch(s, opens).loads == if AnyConfigured(s.rows) then {} else s.loads
  {
    if AnyConfigured(s.rows) {
      SomeWilling(s);
    }
  }

  lemma KeyLoads(s: State, key: Key, capHit: bool, ok: bool)
    ensures OnKey(s, key, capHit, ok).loads == if KeyStarts(s, key) then {} else s.loads
  {
    match key {
      case FetchKey(_) =>
      case FirstFetchKey(opens) => FirstFetchLoads(s, opens);
      case WatchKey(_) => SettleKeepsLoads(StopWatch(s), capHit, ok);
      case CancelKey => SettleKeepsLoads(Silenced(s), capHit, ok);
      case ToggleKey(_) =>
      case SelectAllKey(_) =>
      case RetryKey(_) =>
      case DispatchKey =>
    }
  }

  lemma AuthLoads(s: State, auth: Auth, capHit: bool, ok: bool)
    ensures OnAuth(s, auth, capHit, ok).loads == s.loads
  {
    match auth {
      case Token(_, _) =>
      case TokenFailed(crn, _) => SettleKeepsLoads(Failed(s, crn), capHit, ok);
      case EnvFailed(env, _) => SettleKeepsLoads(s.(rows := Map(s.rows, Authing(Some(env), Error))), capHit, ok);
      case EnvCancelled(env, _) => SettleKeepsLoads(s.(rows := Map(s.rows, Authing(Some(env), Cancelled))), capHit, ok);
      case PasscodeFailed(env) => SettleKeepsLoads(s.(rows := Map(s.rows, Authing(Some(env), Error))), capHit, ok);
      case PasscodeCancelled(env) => SettleKeepsLoads(s.(rows := Map(s.rows, Authing(Some(env), Enabled))), capHit, ok);
      case PasscodeAccepted(_) => SettleKeepsLoads(s, capHit, ok);
    }
  }

  lemma FlushedLoads(s: State, message: Message, capHit: bool, ok: bool)
    requires message.Flushed? && message.at < |s.books.messages|
    ensures var u := OnInstanceFlushed(s, message.at, message.compressed, message.bytes, message.io, message.backed,
                                       capHit, ok);
            forall crn :: crn in s.loads && crn !in u.loads ==>
              Delivers(s, message) && s.books.messages[message.at].crn == crn
  {
    if s.books.messages[message.at].epoch == s.books.epoch {
      var delivered := Delivered(s, message.at, message.compressed, message.bytes, message.io, message.backed);
      SettleKeepsLoads(delivered, capHit, ok);
    }
  }

  lemma StreamEndLoads(s: State, crn: Crn, errs: bool, capHit: bool, ok: bool)
    ensures OnLogStreamDone(s, crn, errs, capHit, ok).loads == s.loads
  {
    SettleKeepsLoads(Ended(s, crn, errs), capHit, ok);
  }

  lemma TickLoads(s: State, epoch: nat, capHit: bool, ok: bool)
    ensures OnWatchTick(s, epoch, capHit, ok).loads == s.loads
  {
  }

  lemma MessageLoads(s: State, message: Message, capHit: bool, ok: bool, crn: Crn)
    requires crn in s.loads && crn !in OnMessage(s, message, capHit, ok).loads
    ensures || (message.Collect? && !s.mode.fetching && !s.mode.watching && AllConfigured(s.rows, message.crns))
            || (Delivers(s, message) && s.books.messages[message.at].crn == crn)
  {
    match message {
      case Flushed(k, _, _, _, _) =>
        if k < |s.books.messages| {
          FlushedLoads(s, message, capHit, ok);
        }
      case StreamEnd(other, errs) => StreamEndLoads(s, other, errs, capHit, ok);
      case Tick(epoch) => TickLoads(s, epoch, capHit, ok);
      case Collect(_, _) =>
      case Stream(_, _, _, _, _, _) =>
      case Load(_, _) =>
      case Loaded(_, _, _) =>
      case DispatchDone(_, _) =>
      case ViewInContext(_) =>
      case Restore(_) =>
      case Evict =>
    }
  }

  /** No load is dropped: it leaves the queue only when its own flush is delivered, or when a new fetch
      answers every load that waits. */
  lemma LoadsAnswered(s: State, t: Step, crn: Crn)
    requires crn in s.loads && crn !in Next(s, t).loads
    ensures Answers(s, t, crn)
  {
    match t.event {
      case Pressed(key) => KeyLoads(s, key, t.capHit, t.ok);
      case Authed(auth) => AuthLoads(s, auth, t.capHit, t.ok);
      case Received(message) => MessageLoads(s, message, t.capHit, t.ok, crn);
    }
  }
}
