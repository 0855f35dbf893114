/** Over whole runs, cancelling everything stops every query. */
module FetchCancels {
  import opened Options
  import opened FetchState
  import opened FetchRows

  /** A row that shows a running query has one to cancel. */
  predicate Cancellable(i: Instance) {
    i.phase == InProgress ==> i.streaming
  }

  predicate AllCancellable(rows: seq<Instance>) {
    forall k :: 0 <= k < |rows| ==> Cancellable(rows[k])
  }

  ghost predicate Keeps(f: Instance -> Instance) {
    forall i :: Cancellable(i) ==> Cancellable(f(i))
  }

  lemma MapKeeps(rows: seq<Instance>, f: Instance -> Instance)
    requires AllCancellable(rows) && Keeps(f)
    ensures AllCancellable(Map(rows, f))
  {
  }

  lemma AtKeeps(rows: seq<Instance>, crn: Crn, f: Instance -> Instance)
    requires AllCancellable(rows) && Keeps(f)
    ensures AllCancellable(At(rows, crn, f))
  {
  }

  lemma ConfiguredKeeps(rows: seq<Instance>)
    requires AllCancellable(rows)
    ensures AllCancellable(Configured(rows))
  {
    forall k | 0 <= k < |Configured(rows)|
      ensures Cancellable(Configured(rows)[k])
    {
      assert Configured(rows)[k] in rows;
    }
  }

  lemma {:induction false} AppendKeepsAll(rows: seq<Instance>, snaps: seq<Saved>)
    requires AllCancellable(rows)
    ensures AllCancellable(AppendReadOnly(rows, snaps))
    decreases |snaps|
  {
    if snaps == [] {
    } else if First(rows, snaps[0].crn).Some? {
      AppendKeepsAll(rows, snaps[1..]);
    } else if snaps[0].parsable {
      AppendKeepsAll(rows + [SavedRow(snaps[0])], snaps[1..]);
    }
  }

  lemma SettleKeeps(s: State, capHit: bool, ok: bool)
    requires AllCancellable(s.rows)
    ensures AllCancellable(Settle(s, capHit, ok).rows)
  {
    SettleRows(s, capHit, ok);
  }

  lemma EndWatchKeeps(s: State, ok: bool)
    requires AllCancellable(s.rows)
    ensures AllCancellable(EndWatch(s, ok).rows)
  {
    WatchEnds(s, false, ok);
    SettleKeeps(s.(mode := s.mode.(watching := false, watchEpoch := s.mode.watchEpoch + 1)), false, ok);
  }

  lemma StartKeeps(s: State, opens: bool)
    requires AllCancellable(s.rows)
    ensures AllCancellable(StartFetch(s, opens).rows)
  {
    ConfiguredKeeps(s.rows);
  }

  lemma RaceKeeps(s: State, opens: bool)
    requires AllCancellable(s.rows)
    ensures AllCancellable(StartFirstFetch(s, opens).rows)
  {
    MapKeeps(s.rows, EnablingAll());
    StartKeeps(Racing(Willing(s)), opens);
  }

  lemma WatchKeyKeeps(s: State, opens: bool, capHit: bool, ok: bool)
    requires AllCancellable(s.rows)
    ensures AllCancellable(ToggleWatch(s, opens, capHit, ok).rows)
  {
    if s.mode.watching {
      SettleKeeps(StopWatch(s), capHit, ok);
    } else if AllDone(s.rows) {
      StartKeeps(ForWatch(s), opens);
    }
  }

  lemma KeyKeeps(s: State, key: Key, capHit: bool, ok: bool)
    requires AllCancellable(s.rows)
    ensures AllCancellable(OnKey(s, key, capHit, ok).rows)
  {
    hide StartFetch, StartFirstFetch, ToggleWatch, Settle;
    match key {
      case FetchKey(opens) => StartKeeps(s, opens);
      case FirstFetchKey(opens) => RaceKeeps(s, opens);
      case WatchKey(opens) => WatchKeyKeeps(s, opens, capHit, ok);
      case CancelKey => SettleKeeps(Silenced(s), capHit, ok);
      case ToggleKey(_) =>
      case SelectAllKey(visible) =>
      case RetryKey(_) =>
      case DispatchKey =>
    }
  }

  lemma EnvKeeps(s: State, env: Environment, to: Phase, capHit: bool, ok: bool)
    requires AllCancellable(s.rows) && to != InProgress
    ensures AllCancellable(SettleEnv(s, env, to, capHit, ok).rows)
  {
    SettleKeeps(s.(rows := Map(s.rows, Authing(Some(env), to))), capHit, ok);
  }

  lemma AuthKeeps(s: State, auth: Auth, capHit: bool, ok: bool)
    requires AllCancellable(s.rows)
    ensures AllCancellable(OnAuth(s, auth, capHit, ok).rows)
  {
    match auth {
      case Token(_, _) =>
      case TokenFailed(crn, _) => SettleKeeps(Failed(s, crn), capHit, ok);
      case EnvFailed(env, _) => EnvKeeps(s, env, Error, capHit, ok);
      case EnvCancelled(env, _) => EnvKeeps(s, env, Cancelled, capHit, ok);
      case PasscodeFailed(env) => EnvKeeps(s, env, Error, capHit, ok);
      case PasscodeCancelled(env) => EnvKeeps(s, env, Enabled, capHit, ok);
      case PasscodeAccepted(_) => SettleKeeps(s, capHit, ok);
    }
  }

  lemma StreamKeeps(s: State, crn: Crn, id: nat, count: nat, room: nat, warns: bool, errs: bool)
    requires AllCancellable(s.rows)
    ensures AllCancellable(OnLogStream(s, crn, id, count, room, warns, errs).rows)
  {
    if Elects(s, count) {
      MapKeeps(s.rows, Losing(s.race.candidates.value, crn));
      AtKeeps(Elect(s, crn).rows, crn, Taking(id, count, room, warns, errs));
    } else {
      AtKeeps(s.rows, crn, Taking(id, count, room, warns, errs));
    }
  }

  lemma EndKeeps(s: State, crn: Crn, errs: bool, capHit: bool, ok: bool)
    requires AllCancellable(s.rows)
    ensures AllCancellable(OnLogStreamDone(s, crn, errs, capHit, ok).rows)
  {
    SettleKeeps(Ended(s, crn, errs), capHit, ok);
  }

  lemma FlushedKeeps(s: State, k: nat, compressed: bool, bytes: Bytes, io: bool, backed: bool, capHit: bool, ok: bool)
    requires AllCancellable(s.rows) && k < |s.books.messages|
    ensures AllCancellable(OnInstanceFlushed(s, k, compressed, bytes, io, backed, capHit, ok).rows)
  {
    AtKeeps(s.rows, s.books.messages[k].crn, Sizing(bytes));
    SettleKeeps(Delivered(s, k, compressed, bytes, io, backed), capHit, ok);
  }

  lemma TickKeeps(s: State, epoch: nat, capHit: bool, ok: bool)
    requires AllCancellable(s.rows)
    ensures AllCancellable(OnWatchTick(s, epoch, capHit, ok).rows)
  {
    EndWatchKeeps(s, ok);
    MapKeeps(s.rows, Resuming(s.members));
  }

  lemma CollectKeeps(s: State, crns: set<Crn>, opens: bool)
    requires AllCancellable(s.rows)
    ensures AllCancellable(StartCollect(s, crns, opens).rows)
  {
    ConfiguredKeeps(s.rows);
  }

  lemma RestoreKeeps(s: State, snaps: seq<Saved>)
    requires AllCancellable(s.rows)
    ensures AllCancellable(OnSnapshotRestore(s, snaps).rows)
  {
    var stopped := StopWatch(s);
    ConfiguredKeeps(stopped.rows);
    MapKeeps(Configured(stopped.rows), Restoring(snaps));
    AppendKeepsAll(Map(Configured(stopped.rows), Restoring(snaps)), snaps);
  }

  lemma EvictKeeps(s: State)
    requires AllCancellable(s.rows)
    ensures AllCancellable(OnEvict(s).rows)
  {
    ConfiguredKeeps(s.rows);
  }

  lemma LoadedKeeps(s: State, crn: Crn, count: nat, evicted: Option<Crn>)
    requires AllCancellable(s.rows)
    ensures AllCancellable(OnLoadReady(s, crn, count, evicted).rows)
  {
    forall k | 0 <= k < |s.rows|
      ensures Cancellable(OnLoadReady(s, crn, count, evicted).rows[k])
    {
      LoadedRows(s, crn, count, evicted, k);
    }
  }

  lemma MessageKeeps(s: State, message: Message, capHit: bool, ok: bool)
    requires AllCancellable(s.rows)
    ensures AllCancellable(OnMessage(s, message, capHit, ok).rows)
  {
    hide StartCollect, OnLogStream, OnLogStreamDone, OnInstanceFlushed, OnLoadReady, OnWatchTick, OnSnapshotRestore,
      OnEvict;
    match message {
      case Collect(crns, opens) => CollectKeeps(s, crns, opens);
      case Stream(crn, id, count, room, warns, errs) => StreamKeeps(s, crn, id, count, room, warns, errs);
      case StreamEnd(crn, errs) => EndKeeps(s, crn, errs, capHit, ok);
      case Flushed(k, compressed, bytes, io, backed) =>
        if k < |s.books.messages| {
          FlushedKeeps(s, k, compressed, bytes, io, backed, capHit, ok);
        }
      case Load(_, _) =>
      case Loaded(crn, count, evicted) => LoadedKeeps(s, crn, count, evicted);
      case Tick(epoch) => TickKeeps(s, epoch, capHit, ok);
      case DispatchDone(crn, submitted) => AtKeeps(s.rows, crn, FinishDispatch(submitted));
      case ViewInContext(crn) => MapKeeps(s.rows, EnablingOnly({crn}));
      case Restore(snaps) => RestoreKeeps(s, snaps);
      case Evict => EvictKeeps(s);
    }
  }

  lemma NextKeeps(s: State, t: Step)
    requires AllCancellable(s.rows)
    ensures AllCancellable(Next(s, t).rows)
  {
    match t.event {
      case Pressed(key) => KeyKeeps(s, key, t.capHit, t.ok);
      case Authed(auth) => AuthKeeps(s, auth, t.capHit, t.ok);
      case Received(message) => MessageKeeps(s, message, t.capHit, t.ok);
    }
  }

  /** In every reachable state a running query can be cancelled. */
  lemma {:induction false} RunsCancellable(configured: seq<(Crn, Environment)>, steps: seq<Step>)
    ensures AllCancellable(After(Init(configured), steps).rows)
    decreases |steps|
  {
    if steps == [] {
    } else {
      RunsCancellable(configured, steps[..|steps| - 1]);
      NextKeeps(After(Init(configured), steps[..|steps| - 1]), steps[|steps| - 1]);
    }
  }

  /** So cancelling everything stops every row, but for those that a cap has left waiting for a round of a
      watch that is over: no query runs, no token is waited for, and nothing streams. */
  lemma CancelStops(configured: seq<(Crn, Environment)>, steps: seq<Step>, s: State, capHit: bool, ok: bool, k: nat)
    requires s == After(Init(configured), steps) && k < |s.rows|
    ensures var u := OnKey(s, CancelKey, capHit, ok);
            && |u.rows| == |s.rows| && !u.rows[k].streaming
            && u.rows[k].phase != AuthInProgress && u.rows[k].phase != InProgress
            && (u.rows[k].phase == Watching <==> s.rows[k].phase == Watching && !s.mode.watching)
  {
    RunsCancellable(configured, steps);
    assert Cancellable(s.rows[k]);
    var after := Silenced(s).rows;
    assert Cancels(s.rows, after, s.mode.watching);
    hide Settle, After;
    SettleRows(Silenced(s), capHit, ok);
  }
}
