/** What each event makes of the flags that admit or refuse the next one: whether a fetch is on, whether
    a watch is on, and under which watch its ticks count. */
module FetchModes {
  import opened Options
  import opened FetchState
  import opened FetchBooks
  import opened FetchPublications
  import opened FetchRounds

  // ---------------------------------------------------------------- whether a fetch is on

  /** The container that was open is gone. */
  predicate Gone(s: State, u: State) {
    s.books.container.Some? && u.books.container.None?
  }

  /** An archive is dispatched: the flag is set without a container. */
  predicate Dispatches(s: State, t: Step) {
    t.event == Pressed(DispatchKey) && !s.mode.fetching && !s.mode.watching && AnyEnabled(s.rows)
  }

  /** A dispatched instance of a known row is done, and with it the last query. */
  predicate Dispatched(s: State, t: Step) {
    && t.event.Received? && t.event.message.DispatchDone? && First(s.rows, t.event.message.crn).Some?
    && AllDone(Next(s, t).rows)
  }

  /** The event ends whatever is on: its container goes, everything is cancelled, a fetch fails to open
      its container, or a dispatch is done. */
  predicate Frees(s: State, t: Step) {
    Gone(s, Next(s, t)) || t.event == Pressed(CancelKey) || (Starts(s, t) && !Opens(t)) || Dispatched(s, t)
  }

  lemma SettleFetching(s: State, capHit: bool, ok: bool)
    ensures Settle(s, capHit, ok).mode.fetching <==> s.mode.fetching && !Gone(s, Settle(s, capHit, ok))
  {
  }

  lemma WatchKeyFetching(s: State, opens: bool, capHit: bool, ok: bool)
    ensures var u := ToggleWatch(s, opens, capHit, ok);
            if AllDone(s.rows) && !s.mode.watching then u.mode.fetching == opens
            else u.mode.fetching <==> s.mode.fetching && !Gone(s, u)
  {
    SettleFetching(StopWatch(s), capHit, ok);
  }

  lemma KeyFetching(s: State, key: Key, capHit: bool, ok: bool)
    ensures var u := OnKey(s, key, capHit, ok);
            u.mode.fetching
            <==> || (KeyStarts(s, key) && key.opens)
                 || (key.DispatchKey? && !s.mode.fetching && !s.mode.watching && AnyEnabled(s.rows))
                 || (s.mode.fetching && !Gone(s, u) && !key.CancelKey? && !KeyStarts(s, key))
  {
    match key {
      case FetchKey(_) =>
      case FirstFetchKey(opens) => FirstFetching(s, opens);
      case WatchKey(opens) => WatchKeyFetching(s, opens, capHit, ok);
      case CancelKey =>
      case ToggleKey(_) =>
      case SelectAllKey(_) =>
      case RetryKey(_) =>
      case DispatchKey =>
    }
  }

  lemma FirstFetching(s: State, opens: bool)
    ensures var u := StartFirstFetch(s, opens);
            if AnyConfigured(s.rows) then u.mode.fetching == opens else u.mode == s.mode && u.books == s.books
  {
    if AnyConfigured(s.rows) {
      SomeWilling(s);
    }
  }

  lemma AuthFetching(s: State, auth: Auth, capHit: bool, ok: bool)
    ensures var u := OnAuth(s, auth, capHit, ok); u.mode.fetching <==> s.mode.fetching && !Gone(s, u)
  {
    match auth {
      case Token(_, _) =>
      case TokenFailed(crn, _) => SettleFetching(Failed(s, crn), capHit, ok);
      case EnvFailed(env, _) => SettleFetching(s.(rows := Map(s.rows, Authing(Some(env), Error))), capHit, ok);
      case EnvCancelled(env, _) => SettleFetching(s.(rows := Map(s.rows, Authing(Some(env), Cancelled))), capHit, ok);
      case PasscodeFailed(env) => SettleFetching(s.(rows := Map(s.rows, Authing(Some(env), Error))), capHit, ok);
      case PasscodeCancelled(env) => SettleFetching(s.(rows := Map(s.rows, Authing(Some(env), Enabled))), capHit, ok);
      case PasscodeAccepted(_) => SettleFetching(s, capHit, ok);
    }
  }

  lemma StreamEndFetching(s: State, crn: Crn, errs: bool, capHit: bool, ok: bool)
    ensures var u := OnLogStreamDone(s, crn, errs, capHit, ok); u.mode.fetching <==> s.mode.fetching && !Gone(s, u)
  {
    SettleFetching(Ended(s, crn, errs), capHit, ok);
  }

  lemma FlushedFetching(s: State, k: nat, compressed: bool, bytes: Bytes, io: bool, backed: bool, capHit: bool,
                        ok: bool)
    requires k < |s.books.messages|
    ensures var u := OnInstanceFlushed(s, k, compressed, bytes, io, backed, capHit, ok);
            u.mode.fetching <==> s.mode.fetching && !Gone(s, u)
  {
    SettleFetching(Delivered(s, k, compressed, bytes, io, backed), capHit, ok);
  }

  lemma TickFetching(s: State, epoch: nat, capHit: bool, ok: bool)
    ensures var u := OnWatchTick(s, epoch, capHit, ok); u.mode.fetching <==> s.mode.fetching && !Gone(s, u)
  {
  }

  lemma CollectFetching(s: State, crns: set<Crn>, opens: bool)
    ensures var u := StartCollect(s, crns, opens);
            if !s.mode.fetching && !s.mode.watching && AllConfigured(s.rows, crns) then u.mode.fetching == opens
            else u == s
  {
  }

  lemma DispatchDoneFetching(s: State, crn: Crn, submitted: bool)
    ensures var u := OnDispatchInstanceDone(s, crn, submitted);
            && u.books == s.books
            && (u.mode.fetching <==> s.mode.fetching && !(First(s.rows, crn).Some? && AllDone(u.rows)))
  {
  }

  lemma MessageFetching(s: State, message: Message, capHit: bool, ok: bool)
    ensures var u, t := OnMessage(s, message, capHit, ok), Step(Received(message), capHit, ok);
            u.mode.fetching <==> (Starts(s, t) && Opens(t))
                                 || (s.mode.fetching && !Gone(s, u) && !Starts(s, t) && !Dispatched(s, t))
  {
    match message {
      case Collect(crns, opens) => CollectFetching(s, crns, opens);
      case Stream(_, _, _, _, _, _) =>
      case StreamEnd(crn, errs) => StreamEndFetching(s, crn, errs, capHit, ok);
      case Flushed(k, compressed, bytes, io, backed) =>
        if k < |s.books.messages| {
          FlushedFetching(s, k, compressed, bytes, io, backed, capHit, ok);
        }
      case Load(_, _) =>
      case Loaded(_, _, _) =>
      case Tick(epoch) => TickFetching(s, epoch, capHit, ok);
      case DispatchDone(crn, submitted) => DispatchDoneFetching(s, crn, submitted);
      case ViewInContext(_) =>
      case Restore(_) =>
      case Evict =>
    }
  }

  /** After an event a fetch or a dispatch is on exactly if the event starts one, or one was on and the
      event does not end it. */
  lemma NextFetching(s: State, t: Step)
    ensures Next(s, t).mode.fetching
            <==> (Starts(s, t) && Opens(t)) || Dispatches(s, t) || (s.mode.fetching && !Frees(s, t))
  {
    match t.event {
      case Pressed(key) =>
        KeyFetching(s, key, t.capHit, t.ok);
        if Starts(s, t) {
          NextContinues(s, t);
        }
      case Authed(auth) => AuthFetching(s, auth, t.capHit, t.ok);
      case Received(message) => MessageFetching(s, message, t.capHit, t.ok);
    }
  }

  ghost function Dispatching(s: State): (seq<Step>, Step) -> bool {
    (run: seq<Step>, t: Step) => Dispatches(After(s, run), t)
  }

  /** In a run without a dispatch the flag is never set while no container is open, so that nothing is
      refused for a fetch that is over. */
  lemma {:induction false} FlaggedOpen(configured: seq<(Crn, Environment)>, steps: seq<Step>)
    requires Never(Dispatching(Init(configured)), steps)
    ensures var s := After(Init(configured), steps); s.mode.fetching ==> s.books.container.Some?
  {
    if steps == [] {
    } else {
      var m := |steps| - 1;
      NeverFront(Dispatching(Init(configured)), steps);
      FlaggedOpen(configured, steps[..m]);
      FlaggedStep(After(Init(configured), steps[..m]), steps[m]);
    }
  }

  lemma FlaggedStep(s: State, t: Step)
    requires (s.mode.fetching ==> s.books.container.Some?) && !Dispatches(s, t)
    ensures Next(s, t).mode.fetching ==> Next(s, t).books.container.Some?
  {
    NextFetching(s, t);
    if Starts(s, t) {
      StartOpens(s, t);
    }
  }

  lemma StartOpens(s: State, t: Step)
    requires Starts(s, t)
    ensures Next(s, t).books.container.Some? <==> Opens(t)
  {
    NextContinues(s, t);
  }

  // ---------------------------------------------------------------- a publication ends everything

  /** Nothing is on: no fetch, no watch, no collect and no race. */
  predicate Unoccupied(s: State) {
    !s.mode.fetching && !s.mode.watching && !s.mode.collecting && s.race.candidates.None?
  }

  lemma SettlePublishes(s: State, capHit: bool, ok: bool)
    requires Gone(s, Settle(s, capHit, ok))
    ensures Unoccupied(Settle(s, capHit, ok))
  {
  }

  lemma EndWatchPublishes(s: State, ok: bool)
    requires Gone(s, EndWatch(s, ok))
    ensures Unoccupied(EndWatch(s, ok))
  {
  }

  lemma KeyCloses(s: State, key: Key, capHit: bool, ok: bool)
    requires Gone(s, OnKey(s, key, capHit, ok)) && !KeyStarts(s, key)
    ensures Unoccupied(OnKey(s, key, capHit, ok))
  {
    match key {
      case FirstFetchKey(opens) => FirstFetching(s, opens);
      case WatchKey(_) => SettlePublishes(StopWatch(s), capHit, ok);
      case CancelKey => SettlePublishes(Silenced(s), capHit, ok);
      case FetchKey(_) =>
      case ToggleKey(_) =>
      case SelectAllKey(_) =>
      case RetryKey(_) =>
      case DispatchKey =>
    }
  }

  lemma AuthCloses(s: State, auth: Auth, capHit: bool, ok: bool)
    requires Gone(s, OnAuth(s, auth, capHit, ok))
    ensures Unoccupied(OnAuth(s, auth, capHit, ok))
  {
    match auth {
      case Token(_, _) =>
      case TokenFailed(crn, _) => SettlePublishes(Failed(s, crn), capHit, ok);
      case EnvFailed(env, _) => SettlePublishes(s.(rows := Map(s.rows, Authing(Some(env), Error))), capHit, ok);
      case EnvCancelled(env, _) => SettlePublishes(s.(rows := Map(s.rows, Authing(Some(env), Cancelled))), capHit, ok);
      case PasscodeFailed(env) => SettlePublishes(s.(rows := Map(s.rows, Authing(Some(env), Error))), capHit, ok);
      case PasscodeCancelled(env) => SettlePublishes(s.(rows := Map(s.rows, Authing(Some(env), Enabled))), capHit, ok);
      case PasscodeAccepted(_) => SettlePublishes(s, capHit, ok);
    }
  }

  lemma StreamEndCloses(s: State, crn: Crn, errs: bool, capHit: bool, ok: bool)
    requires Gone(s, OnLogStreamDone(s, crn, errs, capHit, ok))
    ensures Unoccupied(OnLogStreamDone(s, crn, errs, capHit, ok))
  {
    SettlePublishes(Ended(s, crn, errs), capHit, ok);
  }

  lemma FlushedCloses(s: State, k: nat, compressed: bool, bytes: Bytes, io: bool, backed: bool, capHit: bool, ok: bool)
    requires k < |s.books.messages|
    requires Gone(s, OnInstanceFlushed(s, k, compressed, bytes, io, backed, capHit, ok))
    ensures Unoccupied(OnInstanceFlushed(s, k, compressed, bytes, io, backed, capHit, ok))
  {
    SettlePublishes(Delivered(s, k, compressed, bytes, io, backed), capHit, ok);
  }

  lemma TickCloses(s: State, epoch: nat, capHit: bool, ok: bool)
    requires Gone(s, OnWatchTick(s, epoch, capHit, ok))
    ensures Unoccupied(OnWatchTick(s, epoch, capHit, ok))
  {
    EndWatchPublishes(s, ok);
  }

  lemma MessageCloses(s: State, message: Message, capHit: bool, ok: bool)
    requires Gone(s, OnMessage(s, message, capHit, ok)) && !Starts(s, Step(Received(message), capHit, ok))
    ensures Unoccupied(OnMessage(s, message, capHit, ok))
  {
    match message {
      case StreamEnd(crn, errs) => StreamEndCloses(s, crn, errs, capHit, ok);
      case Flushed(k, compressed, bytes, io, backed) =>
        if k < |s.books.messages| {
          FlushedCloses(s, k, compressed, bytes, io, backed, capHit, ok);
        }
      case Tick(epoch) => TickCloses(s, epoch, capHit, ok);
      case Collect(_, _) =>
      case Stream(_, _, _, _, _, _) =>
      case Load(_, _) =>
      case Loaded(_, _, _) =>
      case DispatchDone(_, _) =>
      case ViewInContext(_) =>
      case Restore(_) =>
      case Evict =>
    }
  }

  /** The event that closes a container, published or not, ends the fetch, the watch, the collect and the
      race with it. */
  lemma ClosedUnoccupied(s: State, t: Step)
    requires Gone(s, Next(s, t)) && !Starts(s, t)
    ensures Unoccupied(Next(s, t))
  {
    match t.event {
      case Pressed(key) => KeyCloses(s, key, t.capHit, t.ok);
      case Authed(auth) => AuthCloses(s, auth, t.capHit, t.ok);
      case Received(message) => MessageCloses(s, message, t.capHit, t.ok);
    }
  }

  lemma PublishesGone(s: State, t: Step)
    requires Next(s, t).books.journal != s.books.journal
    ensures Gone(s, Next(s, t)) && !Starts(s, t)
  {
    NextContinues(s, t);
    CarriedCounts(s, t);
  }

  /** A collect opens a container here, and waits for the tokens of exactly its instances. */
  ghost predicate TakesCollect(s: State, crns: set<Crn>) {
    forall capHit, ok :: CollectOn(Next(s, Step(Received(Collect(crns, true)), capHit, ok)), crns, s.books.epoch + 1)
  }

  ghost predicate CollectOn(u: State, crns: set<Crn>, epoch: nat) {
    && Begun(u) && AuthingCrns(u.rows) == crns && u.mode.fetching && u.mode.collecting
    && u.books.container == Some(Container(epoch, true, []))
  }

  /** So a collect is admitted right after a publication, if its instances are configured. */
  lemma CollectAfterPublication(s: State, t: Step, crns: set<Crn>)
    requires Next(s, t).books.journal != s.books.journal && AllConfigured(Next(s, t).rows, crns)
    ensures TakesCollect(Next(s, t), crns)
  {
    PublishesGone(s, t);
    ClosedUnoccupied(s, t);
    CollectAdmitted(Next(s, t), crns);
  }

  lemma CollectAdmitted(s: State, crns: set<Crn>)
    requires Unoccupied(s) && AllConfigured(s.rows, crns)
    ensures TakesCollect(s, crns)
  {
    forall capHit, ok
      ensures CollectOn(Next(s, Step(Received(Collect(crns, true)), capHit, ok)), crns, s.books.epoch + 1)
    {
      StartsBegin(s, Step(Received(Collect(crns, true)), capHit, ok));
      Collected(s, crns);
    }
  }

  lemma Collected(s: State, crns: set<Crn>)
    requires !s.mode.fetching && !s.mode.watching && AllConfigured(s.rows, crns)
    ensures var u := StartCollect(s, crns, true);
            && u.members == Only(crns, []) && u.mode.fetching && u.mode.collecting
            && u.books.container == Some(Container(s.books.epoch + 1, true, []))
  {
  }

  /** And so is a dispatch: every enabled row goes out for its token, while no container is open. */
  lemma DispatchAfterPublication(s: State, t: Step)
    requires Next(s, t).books.journal != s.books.journal && AnyEnabled(Next(s, t).rows)
    ensures var before := Next(s, t);
            var u := Next(before, Step(Pressed(DispatchKey), t.capHit, t.ok));
            && u.mode.fetching && u.books == before.books && |u.rows| == |before.rows|
            && forall k :: 0 <= k < |u.rows| ==>
                 u.rows[k] == if IsEnabled(before.rows[k]) then before.rows[k].(phase := AuthInProgress)
                              else before.rows[k]
  {
    PublishesGone(s, t);
    ClosedUnoccupied(s, t);
  }

  // ---------------------------------------------------------------- whether a watch is on

  predicate StartsWatch(s: State, t: Step) {
    t.event.Pressed? && t.event.key.WatchKey? && !s.mode.watching && AllDone(s.rows)
  }

  /** The handlers that end in a settle, when their message counts. */
  predicate Settles(s: State, t: Step) {
    match t.event
    case Pressed(_) => false
    case Authed(auth) =>
      (match auth
       case Token(_, _) => false
       case TokenFailed(_, generation) => generation == s.mode.generation
       case EnvFailed(_, generation) => generation == s.mode.generation
       case EnvCancelled(_, generation) => generation == s.mode.generation
       case PasscodeFailed(_) => true
       case PasscodeCancelled(_) => true
       case PasscodeAccepted(env) => !AnyAuthing(s.rows, env))
    case Received(message) => message.StreamEnd? || Delivers(s, message)
  }

  /** A watch ends at its key, when everything is cancelled, when a snapshot is restored, at a tick that
      finds a cap hit or nobody waiting, and at a settle that leaves nothing to wait for. */
  predicate EndsWatch(s: State, t: Step) {
    || t.event == Pressed(CancelKey)
    || (t.event.Pressed? && t.event.key.WatchKey?)
    || (t.event.Received? && t.event.message.Restore?)
    || (t.event.Received? && t.event.message.Tick? && t.event.message.watchEpoch == s.mode.watchEpoch
        && (t.capHit || !AnyWaiting(s.rows, s.members)))
    || (Settles(s, t) && Idle(Next(s, t)))
  }

  lemma SettleWatching(s: State, capHit: bool, ok: bool)
    ensures var u := Settle(s, capHit, ok);
            && (u.mode.watching <==> s.mode.watching && !Idle(u))
            && u.mode.watchEpoch == s.mode.watchEpoch + if s.mode.watching && !u.mode.watching then 1 else 0
  {
    if s.mode.watching {
      SettleRests(s, capHit, ok);
    }
  }

  /** A round that is not the last leaves a row waiting. */
  lemma SettleRests(s: State, capHit: bool, ok: bool)
    requires s.mode.watching
    ensures Idle(s) && AnyEmpty(s.rows, s.members) && !capHit ==> !Idle(Settle(s, capHit, ok))
    ensures Idle(s) && !(AnyEmpty(s.rows, s.members) && !capHit) ==> Idle(Settle(s, capHit, ok))
    ensures !Idle(s) ==> Settle(s, capHit, ok) == s
  {
    if Idle(s) && AnyEmpty(s.rows, s.members) && !capHit {
      var k :| 0 <= k < |s.rows| && StillEmpty(s.rows[k], s.members);
      assert Running(Map(s.rows, Resting(s.members))[k].phase);
    }
  }

  lemma KeyWatching(s: State, key: Key, capHit: bool, ok: bool)
    ensures var u := OnKey(s, key, capHit, ok);
            && (u.mode.watching <==> if key.WatchKey? then !s.mode.watching && AllDone(s.rows) && key.opens
                                     else s.mode.watching && !key.CancelKey?)
            && u.mode.watchEpoch == s.mode.watchEpoch
               + if (key.WatchKey? && (s.mode.watching || AllDone(s.rows))) || (key.CancelKey? && s.mode.watching)
                 then 1 else 0
  {
    match key {
      case FetchKey(_) =>
      case FirstFetchKey(opens) => FirstWatching(s, opens);
      case WatchKey(opens) => WatchKeyWatching(s, opens, capHit, ok);
      case CancelKey => SettleWatching(Silenced(s), capHit, ok);
      case ToggleKey(_) =>
      case SelectAllKey(_) =>
      case RetryKey(_) =>
      case DispatchKey =>
    }
  }

  lemma FirstWatching(s: State, opens: bool)
    ensures var u := StartFirstFetch(s, opens);
            u.mode.watching == s.mode.watching && u.mode.watchEpoch == s.mode.watchEpoch
  {
  }

  lemma WatchKeyWatching(s: State, opens: bool, capHit: bool, ok: bool)
    ensures var u := ToggleWatch(s, opens, capHit, ok);
            && (u.mode.watching <==> !s.mode.watching && AllDone(s.rows) && opens)
            && u.mode.watchEpoch == s.mode.watchEpoch + if s.mode.watching || AllDone(s.rows) then 1 else 0
  {
    if s.mode.watching {
      SettleWatching(StopWatch(s), capHit, ok);
    }
  }

  /** What a handler that settles makes of a watch. */
  ghost predicate WatchSettled(s: State, u: State) {
    && (u.mode.watching <==> s.mode.watching && !Idle(u))
    && u.mode.watchEpoch == s.mode.watchEpoch + if s.mode.watching && !u.mode.watching then 1 else 0
  }

  lemma SettledWatching(s: State, before: State, capHit: bool, ok: bool)
    requires s.mode == before.mode
    ensures WatchSettled(before, Settle(s, capHit, ok))
  {
    SettleWatching(s, capHit, ok);
  }

  lemma AuthWatching(s: State, auth: Auth, capHit: bool, ok: bool)
    ensures var u := OnAuth(s, auth, capHit, ok);
            if Settles(s, Step(Authed(auth), capHit, ok)) then WatchSettled(s, u) else u.mode == s.mode
  {
    match auth {
      case Token(_, _) =>
      case TokenFailed(crn, _) => SettledWatching(Failed(s, crn), s, capHit, ok);
      case EnvFailed(env, _) => SettledWatching(s.(rows := Map(s.rows, Authing(Some(env), Error))), s, capHit, ok);
      case EnvCancelled(env, _) =>
        SettledWatching(s.(rows := Map(s.rows, Authing(Some(env), Cancelled))), s, capHit, ok);
      case PasscodeFailed(env) => SettledWatching(s.(rows := Map(s.rows, Authing(Some(env), Error))), s, capHit, ok);
      case PasscodeCancelled(env) =>
        SettledWatching(s.(rows := Map(s.rows, Authing(Some(env), Enabled))), s, capHit, ok);
      case PasscodeAccepted(_) => SettledWatching(s, s, capHit, ok);
    }
  }

  lemma StreamEndWatching(s: State, crn: Crn, errs: bool, capHit: bool, ok: bool)
    ensures WatchSettled(s, OnLogStreamDone(s, crn, errs, capHit, ok))
  {
    SettledWatching(Ended(s, crn, errs), s, capHit, ok);
  }

  lemma FlushedWatching(s: State, k: nat, compressed: bool, bytes: Bytes, io: bool, backed: bool, capHit: bool,
                        ok: bool)
    requires k < |s.books.messages|
    ensures var u := OnInstanceFlushed(s, k, compressed, bytes, io, backed, capHit, ok);
            if s.books.messages[k].epoch == s.books.epoch then WatchSettled(s, u) else u.mode == s.mode
  {
    SettledWatching(Delivered(s, k, compressed, bytes, io, backed), s, capHit, ok);
  }

  lemma TickWatching(s: State, epoch: nat, capHit: bool, ok: bool)
    ensures var u := OnWatchTick(s, epoch, capHit, ok);
            var ends := epoch == s.mode.watchEpoch && (capHit || !AnyWaiting(s.rows, s.members));
            && (u.mode.watching <==> s.mode.watching && !ends)
            && u.mode.watchEpoch == s.mode.watchEpoch + if s.mode.watching && ends then 1 else 0
  {
  }

  /** What any message but those that settle makes of a watch. */
  ghost predicate WatchStopped(s: State, u: State, stops: bool) {
    && (u.mode.watching <==> s.mode.watching && !stops)
    && u.mode.watchEpoch == s.mode.watchEpoch + if s.mode.watching && stops then 1 else 0
  }

  lemma MessageWatching(s: State, message: Message, capHit: bool, ok: bool)
    ensures var u, t := OnMessage(s, message, capHit, ok), Step(Received(message), capHit, ok);
            if Settles(s, t) then WatchSettled(s, u)
            else WatchStopped(s, u, message.Restore?
                                    || (message.Tick? && message.watchEpoch == s.mode.watchEpoch
                                        && (capHit || !AnyWaiting(s.rows, s.members))))
  {
    match message {
      case Collect(crns, opens) => CollectWatching(s, crns, opens);
      case Stream(_, _, _, _, _, _) =>
      case StreamEnd(crn, errs) => StreamEndWatching(s, crn, errs, capHit, ok);
      case Flushed(k, compressed, bytes, io, backed) =>
        if k < |s.books.messages| {
          FlushedWatching(s, k, compressed, bytes, io, backed, capHit, ok);
        }
      case Load(_, _) =>
      case Loaded(_, _, _) =>
      case Tick(epoch) => TickWatching(s, epoch, capHit, ok);
      case DispatchDone(_, _) =>
      case ViewInContext(_) =>
      case Restore(_) =>
      case Evict =>
    }
  }

  lemma CollectWatching(s: State, crns: set<Crn>, opens: bool)
    ensures var u := StartCollect(s, crns, opens);
            u.mode.watching == s.mode.watching && u.mode.watchEpoch == s.mode.watchEpoch
  {
  }

  /** After an event a watch is on exactly if the event starts one whose container opens, or one was on and
      the event does not end it; and its epoch moves on exactly when a watch starts or ends. */
  lemma NextWatching(s: State, t: Step)
    ensures Next(s, t).mode.watching <==> (StartsWatch(s, t) && Opens(t)) || (s.mode.watching && !EndsWatch(s, t))
    ensures Next(s, t).mode.watchEpoch
            == s.mode.watchEpoch + if StartsWatch(s, t) || (s.mode.watching && EndsWatch(s, t)) then 1 else 0
  {
    match t.event {
      case Pressed(key) => KeyWatching(s, key, t.capHit, t.ok);
      case Authed(auth) => AuthWatching(s, auth, t.capHit, t.ok);
      case Received(message) => MessageWatching(s, message, t.capHit, t.ok);
    }
  }

  lemma {:induction false} WatchEpochsGrow(s: State, steps: seq<Step>)
    ensures s.mode.watchEpoch <= After(s, steps).mode.watchEpoch
  {
    if steps == [] {
    } else {
      WatchEpochsGrow(s, steps[..|steps| - 1]);
      NextWatching(After(s, steps[..|steps| - 1]), steps[|steps| - 1]);
    }
  }

  /** A tick of a watch that has ended, or has been replaced, never does anything again. */
  lemma LateTicks(s: State, t: Step, steps: seq<Step>, late: Step)
    requires StartsWatch(s, t) || (s.mode.watching && EndsWatch(s, t))
    requires late.event.Received? && late.event.message.Tick? && late.event.message.watchEpoch <= s.mode.watchEpoch
    ensures Next(After(Next(s, t), steps), late) == After(Next(s, t), steps)
  {
    NextWatching(s, t);
    WatchEpochsGrow(Next(s, t), steps);
    StaleTick(After(Next(s, t), steps), late);
  }

  lemma StaleTick(s: State, t: Step)
    requires t.event.Received? && t.event.message.Tick? && t.event.message.watchEpoch != s.mode.watchEpoch
    ensures Next(s, t) == s
  {
  }

  // ---------------------------------------------------------------- cancelling, and the start of a race

  lemma SettleCancelled(s: State, capHit: bool, ok: bool)
    ensures Settle(s, capHit, ok).mode.fetchCancelled == s.mode.fetchCancelled
  {
  }

  lemma FirstCancelled(s: State, opens: bool)
    ensures StartFirstFetch(s, opens).mode.fetchCancelled
            == if AnyConfigured(s.rows) && opens then false else s.mode.fetchCancelled
  {
    if AnyConfigured(s.rows) {
      SomeWilling(s);
    }
  }

  lemma WatchKeyCancelled(s: State, opens: bool, capHit: bool, ok: bool)
    ensures ToggleWatch(s, opens, capHit, ok).mode.fetchCancelled
            == if AllDone(s.rows) && !s.mode.watching && opens then false else s.mode.fetchCancelled
  {
    SettleCancelled(StopWatch(s), capHit, ok);
  }

  lemma KeyCancelled(s: State, key: Key, capHit: bool, ok: bool)
    ensures OnKey(s, key, capHit, ok).mode.fetchCancelled
            == if KeyStarts(s, key) && key.opens then false else s.mode.fetchCancelled || key.CancelKey?
  {
    hide Settle, StartFirstFetch, ToggleWatch;
    match key {
      case FetchKey(_) =>
      case FirstFetchKey(opens) => FirstCancelled(s, opens);
      case WatchKey(opens) => WatchKeyCancelled(s, opens, capHit, ok);
      case CancelKey => SettleCancelled(Silenced(s), capHit, ok);
      case ToggleKey(_) =>
      case SelectAllKey(_) =>
      case RetryKey(_) =>
      case DispatchKey =>
    }
  }

  lemma AuthCancelled(s: State, auth: Auth, capHit: bool, ok: bool)
    ensures OnAuth(s, auth, capHit, ok).mode.fetchCancelled == s.mode.fetchCancelled
  {
    match auth {
      case Token(_, _) =>
      case TokenFailed(crn, _) => SettleCancelled(Failed(s, crn), capHit, ok);
      case EnvFailed(env, _) => SettleCancelled(s.(rows := Map(s.rows, Authing(Some(env), Error))), capHit, ok);
      case EnvCancelled(env, _) => SettleCancelled(s.(rows := Map(s.rows, Authing(Some(env), Cancelled))), capHit, ok);
      case PasscodeFailed(env) => SettleCancelled(s.(rows := Map(s.rows, Authing(Some(env), Error))), capHit, ok);
      case PasscodeCancelled(env) => SettleCancelled(s.(rows := Map(s.rows, Authing(Some(env), Enabled))), capHit, ok);
      case PasscodeAccepted(_) => SettleCancelled(s, capHit, ok);
    }
  }

  lemma EndCancelled(s: State, crn: Crn, errs: bool, capHit: bool, ok: bool)
    ensures OnLogStreamDone(s, crn, errs, capHit, ok).mode.fetchCancelled == s.mode.fetchCancelled
  {
    SettleCancelled(Ended(s, crn, errs), capHit, ok);
  }

  lemma FlushedCancelled(s: State, k: nat, compressed: bool, bytes: Bytes, io: bool, backed: bool, capHit: bool,
                         ok: bool)
    requires k < |s.books.messages|
    ensures OnInstanceFlushed(s, k, compressed, bytes, io, backed, capHit, ok).mode.fetchCancelled
            == s.mode.fetchCancelled
  {
    SettleCancelled(Delivered(s, k, compressed, bytes, io, backed), capHit, ok);
  }

  lemma StreamCancelled(s: State, crn: Crn, id: nat, count: nat, room: nat, warns: bool, errs: bool)
    ensures OnLogStream(s, crn, id, count, room, warns, errs).mode.fetchCancelled == s.mode.fetchCancelled
  {
  }

  lemma TickCancelled(s: State, epoch: nat, capHit: bool, ok: bool)
    ensures OnWatchTick(s, epoch, capHit, ok).mode.fetchCancelled == s.mode.fetchCancelled
  {
  }

  lemma MessageCancelled(s: State, message: Message, capHit: bool, ok: bool)
    ensures var t := Step(Received(message), capHit, ok);
            OnMessage(s, message, capHit, ok).mode.fetchCancelled
            == if Starts(s, t) && Opens(t) then false else s.mode.fetchCancelled
  {
    hide OnLogStreamDone, OnInstanceFlushed, OnWatchTick, OnLogStream;
    match message {
      case StreamEnd(crn, errs) => EndCancelled(s, crn, errs, capHit, ok);
      case Flushed(k, compressed, bytes, io, backed) =>
        if k < |s.books.messages| {
          FlushedCancelled(s, k, compressed, bytes, io, backed, capHit, ok);
        }
      case Collect(_, _) =>
      case Stream(crn, id, count, room, warns, errs) => StreamCancelled(s, crn, id, count, room, warns, errs);
      case Tick(epoch) => TickCancelled(s, epoch, capHit, ok);
      case Load(_, _) =>
      case Loaded(_, _, _) =>
      case DispatchDone(_, _) =>
      case ViewInContext(_) =>
      case Restore(_) =>
      case Evict =>
    }
  }

  /** Whether the user has cancelled: from cancelling everything until the next fetch that opens. */
  lemma NextCancelled(s: State, t: Step)
    ensures Next(s, t).mode.fetchCancelled
            <==> !(Starts(s, t) && Opens(t)) && (s.mode.fetchCancelled || t.event == Pressed(CancelKey))
  {
    match t.event {
      case Pressed(key) => KeyCancelled(s, key, t.capHit, t.ok);
      case Authed(auth) => AuthCancelled(s, auth, t.capHit, t.ok);
      case Received(message) => MessageCancelled(s, message, t.capHit, t.ok);
    }
  }
}
