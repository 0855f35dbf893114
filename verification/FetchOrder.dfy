/** A fetch that is over has its container closed: which events keep this, exactly, and what the
    others leave behind. */
module FetchOrder {
  import opened Options
  import opened FetchState

  /** Only a row with a query to cancel is in progress. */
  predicate RowsOk(rows: seq<Instance>) {
    forall k :: 0 <= k < |rows| && rows[k].phase.InProgress? ==> rows[k].streaming
  }

  /** Rows wait for a next round only while a watch is on, and a fetch that is over, and is not a
      watch, has its container closed. */
  predicate Orderly(s: State) {
    Watched(s) && (Idle(s) && !s.mode.watching ==> s.books.container.None?)
  }

  predicate Watched(s: State) {
    AnyWatching(s.rows) ==> s.mode.watching
  }

  // ---------------------------------------------------------------- the events that break it

  /** Nothing but a running query keeps this open container from being one of a fetch that is over. */
  predicate Exposed(s: State) {
    s.books.container.Some? && s.books.pending == 0 && !s.mode.watching
  }

  predicate OnlyRunning(rows: seq<Instance>, k: nat) {
    k < |rows| && Running(rows[k].phase) && forall j :: 0 <= j < |rows| && Running(rows[j].phase) ==> j == k
  }

  /** The running rows are all configured ones, and visible. */
  predicate AllRunningIn(rows: seq<Instance>, visible: set<Crn>) {
    forall k :: 0 <= k < |rows| && Running(rows[k].phase) ==> !rows[k].readOnly && rows[k].crn in visible
  }

  predicate NoReadOnlyRunning(rows: seq<Instance>) {
    forall k :: 0 <= k < |rows| && Running(rows[k].phase) ==> !rows[k].readOnly
  }

  /** A fetch of no row, and the deselection of the last running rows. */
  predicate KeyUnsettles(s: State, key: Key) {
    match key
    case FetchKey(opens) => AllDone(s.rows) && opens && !s.mode.watching && !AnyEnabled(s.rows)
    case ToggleKey(k) => Exposed(s) && OnlyRunning(s.rows, k) && !s.rows[k].readOnly
    case SelectAllKey(visible) => Exposed(s) && AllVisibleEnabled(s.rows, visible) && AllRunningIn(s.rows, visible)
    case _ => false
  }

  /** Every running row loses the election, or is the one that a warning or an error takes out of
      the running phases. */
  predicate BatchEndsAll(s: State, crn: Crn, count: nat, troubled: bool) {
    forall k :: 0 <= k < |s.rows| && Running(s.rows[k].phase) ==>
      || (Elects(s, count) && s.rows[k].crn in s.race.candidates.value && s.rows[k].crn != crn)
      || (troubled && First(s.rows, crn) == Some(k))
  }

  /** A collect of no instance, a batch that ends the last running rows, a cap or an exhausted watch
      that leaves rows waiting, a dispatch that ends the last running row, and the three handlers
      that rewrite the rows of a running fetch. */
  predicate MessageUnsettles(s: State, message: Message, capHit: bool) {
    match message
    case Collect(crns, opens) =>
      !s.mode.fetching && !s.mode.watching && AllConfigured(s.rows, crns) && opens && crns == {}
    case Stream(crn, id, count, _, warns, errs) =>
      Exposed(s) && Accepts(s, crn, id) && BatchEndsAll(s, crn, count, warns || errs)
    case Tick(epoch) =>
      s.mode.watching && epoch == s.mode.watchEpoch && (capHit || !AnyWaiting(s.rows, s.members)) && AnyWatching(s.rows)
    case DispatchDone(crn, _) =>
      Exposed(s) && First(s.rows, crn).Some? && OnlyRunning(s.rows, First(s.rows, crn).value)
    case ViewInContext(_) => Exposed(s) && NoReadOnlyRunning(s.rows)
    case Restore(_) => s.books.container.Some? && s.books.pending == 0
    case Evict => Exposed(s)
    case _ => false
  }

  predicate Unsettles(s: State, t: Step) {
    match t.event
    case Pressed(key) => KeyUnsettles(s, key)
    case Authed(_) => false
    case Received(message) => MessageUnsettles(s, message, t.capHit)
  }

  // ---------------------------------------------------------------- rows

  lemma ConfiguredRows(rows: seq<Instance>)
    ensures RowsOk(rows) ==> RowsOk(Configured(rows))
    ensures AllDone(rows) ==> AllDone(Configured(rows))
    ensures AnyEnabled(Configured(rows)) <==> AnyEnabled(rows)
  {
    var cs := Configured(rows);
    if AnyEnabled(rows) {
      var k :| 0 <= k < |rows| && IsEnabled(rows[k]);
      assert rows[k] in cs;
    }
  }

  lemma {:induction false} AppendedRows(rows: seq<Instance>, snaps: seq<Saved>)
    requires RowsOk(rows) && AllDone(rows)
    ensures RowsOk(AppendReadOnly(rows, snaps)) && AllDone(AppendReadOnly(rows, snaps))
    decreases |snaps|
  {
    if snaps == [] {
    } else {
      AppendedRows(rows, snaps[1..]);
      AppendedRows(rows + [SavedRow(snaps[0])], snaps[1..]);
    }
  }

  // ---------------------------------------------------------------- settling

  /** A settle leaves an orderly state behind, whatever came before it. */
  lemma SettleOrders(s: State, capHit: bool, ok: bool)
    requires Watched(s)
    ensures Orderly(Settle(s, capHit, ok))
  {
  }

  lemma SettleRows(s: State, capHit: bool, ok: bool)
    requires RowsOk(s.rows)
    ensures RowsOk(Settle(s, capHit, ok).rows)
  {
  }

  /** Cancelling everything leaves no row running, unless one waits for a watch that is off. */
  lemma SilencedRows(s: State)
    requires RowsOk(s.rows) && Watched(s)
    ensures var rows := Silenced(s).rows; RowsOk(rows) && AllDone(rows)
  {
    var stopped := StopWatch(s).rows;
    var rows := Silenced(s).rows;
    forall k | 0 <= k < |rows|
      ensures !Running(rows[k].phase)
    {
      assert stopped[k] == if s.mode.watching then StopWatching(s.rows[k]) else s.rows[k];
      assert rows[k] == CancelQuery(TransitionAuthing(stopped[k], None, Cancelled));
    }
  }

  lemma StartRows(s: State, opens: bool)
    requires RowsOk(s.rows)
    ensures RowsOk(StartFetch(s, opens).rows)
    ensures RowsOk(StartFetchWithSources(s, opens).rows)
  {
    ConfiguredRows(s.rows);
  }

  lemma RaceRows(s: State, opens: bool)
    requires RowsOk(s.rows)
    ensures RowsOk(StartFirstFetch(s, opens).rows)
  {
    assert RowsOk(Willing(s).rows);
    StartRows(Racing(Willing(s)), opens);
  }

  lemma WatchRows(s: State, opens: bool, capHit: bool, ok: bool)
    requires RowsOk(s.rows)
    ensures RowsOk(ToggleWatch(s, opens, capHit, ok).rows)
  {
    StartRows(ForWatch(s), opens);
    SettleRows(StopWatch(s), capHit, ok);
  }

  lemma CancelRows(s: State, capHit: bool, ok: bool)
    requires RowsOk(s.rows) && Watched(s)
    ensures RowsOk(CancelAllFetches(s, capHit, ok).rows)
  {
    SilencedRows(s);
    SettleRows(Silenced(s), capHit, ok);
  }

  lemma RowKeyRows(s: State, k: nat, visible: set<Crn>)
    requires RowsOk(s.rows)
    ensures k < |s.rows| ==> RowsOk(s.rows[k := ToggleRow(s.rows[k])]) && RowsOk(s.rows[k := RetryRow(s.rows[k])])
    ensures RowsOk(ToggleAllVisible(s, visible).rows) && RowsOk(Dispatch(s).rows)
  {
  }

  lemma KeyRows(s: State, key: Key, capHit: bool, ok: bool)
    requires RowsOk(s.rows) && Watched(s)
    ensures RowsOk(OnKey(s, key, capHit, ok).rows)
  {
    match key {
      case FetchKey(opens) => StartRows(s, opens);
      case FirstFetchKey(opens) => RaceRows(s, opens);
      case WatchKey(opens) => WatchRows(s, opens, capHit, ok);
      case CancelKey => CancelRows(s, capHit, ok);
      case ToggleKey(k) => RowKeyRows(s, k, {});
      case SelectAllKey(visible) => RowKeyRows(s, 0, visible);
      case RetryKey(k) => RowKeyRows(s, k, {});
      case DispatchKey => RowKeyRows(s, 0, {});
    }
  }

  lemma AuthRows(s: State, auth: Auth, capHit: bool, ok: bool)
    requires RowsOk(s.rows)
    ensures RowsOk(OnAuth(s, auth, capHit, ok).rows)
  {
    match auth {
      case Token(_, _) =>
      case TokenFailed(crn, _) => SettleRows(Failed(s, crn), capHit, ok);
      case EnvFailed(env, _) => SettleRows(s.(rows := Map(s.rows, Authing(Some(env), Error))), capHit, ok);
      case EnvCancelled(env, _) => SettleRows(s.(rows := Map(s.rows, Authing(Some(env), Cancelled))), capHit, ok);
      case PasscodeFailed(env) => SettleRows(s.(rows := Map(s.rows, Authing(Some(env), Error))), capHit, ok);
      case PasscodeCancelled(env) => SettleRows(s.(rows := Map(s.rows, Authing(Some(env), Enabled))), capHit, ok);
      case PasscodeAccepted(_) => SettleRows(s, capHit, ok);
    }
  }

  /** A restored row, like a reset one, is not running. */
  lemma RestoredRows(s: State, snaps: seq<Saved>)
    ensures var rows := OnSnapshotRestore(s, snaps).rows; RowsOk(rows) && AllDone(rows)
  {
    RestoringRows(StopWatch(s).rows, snaps);
    AppendedRows(Map(Configured(StopWatch(s).rows), Restoring(snaps)), snaps);
  }

  lemma RestoringRows(rows: seq<Instance>, snaps: seq<Saved>)
    ensures var restored := Map(Configured(rows), Restoring(snaps)); RowsOk(restored) && AllDone(restored)
  {
    var restored := Map(Configured(rows), Restoring(snaps));
    forall k | 0 <= k < |restored|
      ensures !Running(restored[k].phase)
    {
      RestoredRow(Configured(rows)[k], snaps);
    }
  }

  lemma RestoredRow(i: Instance, snaps: seq<Saved>)
    requires !i.readOnly
    ensures !Running(RestoreRow(i, snaps).phase)
  {
  }

  lemma EvictedRows(s: State)
    ensures var rows := OnEvict(s).rows; RowsOk(rows) && AllDone(rows)
  {
  }

  lemma EndedRows(s: State, crn: Crn, errs: bool)
    requires RowsOk(s.rows)
    ensures RowsOk(Ended(s, crn, errs).rows)
    ensures Watched(s) ==> Watched(Ended(s, crn, errs))
  {
  }

  /** A delivery changes no phase. */
  lemma DeliveredRows(s: State, k: nat, compressed: bool, bytes: Bytes, io: bool, backed: bool)
    requires k < |s.books.messages|
    ensures SamePhases(s.rows, Delivered(s, k, compressed, bytes, io, backed).rows)
  {
  }

  lemma LoadedRows(s: State, crn: Crn, count: nat, evicted: Option<Crn>)
    ensures SamePhases(s.rows, OnLoadReady(s, crn, count, evicted).rows)
  {
  }

  predicate SamePhases(rows: seq<Instance>, after: seq<Instance>) {
    |rows| == |after| && forall k :: 0 <= k < |rows| ==>
      rows[k].phase == after[k].phase && rows[k].streaming == after[k].streaming
  }

  lemma StreamRows(s: State, crn: Crn, id: nat, count: nat, room: nat, warns: bool, errs: bool)
    requires RowsOk(s.rows)
    ensures RowsOk(OnLogStream(s, crn, id, count, room, warns, errs).rows)
  {
  }

  lemma TickRows(s: State, epoch: nat, capHit: bool, ok: bool)
    requires RowsOk(s.rows)
    ensures RowsOk(OnWatchTick(s, epoch, capHit, ok).rows)
  {
  }

  lemma DispatchDoneRows(s: State, crn: Crn, submitted: bool)
    requires RowsOk(s.rows)
    ensures RowsOk(OnDispatchInstanceDone(s, crn, submitted).rows)
  {
  }

  lemma SameRowsOk(rows: seq<Instance>, after: seq<Instance>)
    requires RowsOk(rows) && SamePhases(rows, after)
    ensures RowsOk(after)
  {
  }

  lemma CollectRows(s: State, crns: set<Crn>, opens: bool)
    requires RowsOk(s.rows)
    ensures RowsOk(StartCollect(s, crns, opens).rows)
  {
    ConfiguredRows(s.rows);
    ViewRows(Configured(s.rows), crns);
    StartRows(ForCollect(s, crns), opens);
  }

  lemma ViewRows(rows: seq<Instance>, crns: set<Crn>)
    requires RowsOk(rows)
    ensures RowsOk(Map(rows, EnablingOnly(crns)))
  {
  }

  lemma StreamEndRows(s: State, crn: Crn, errs: bool, capHit: bool, ok: bool)
    requires RowsOk(s.rows)
    ensures RowsOk(OnLogStreamDone(s, crn, errs, capHit, ok).rows)
  {
    EndedRows(s, crn, errs);
    SettleRows(Ended(s, crn, errs), capHit, ok);
  }

  lemma FlushedRows(s: State, k: nat, compressed: bool, bytes: Bytes, io: bool, backed: bool, capHit: bool, ok: bool)
    requires RowsOk(s.rows) && k < |s.books.messages|
    ensures RowsOk(OnInstanceFlushed(s, k, compressed, bytes, io, backed, capHit, ok).rows)
  {
    DeliveredRows(s, k, compressed, bytes, io, backed);
    SameRowsOk(s.rows, Delivered(s, k, compressed, bytes, io, backed).rows);
    SettleRows(Delivered(s, k, compressed, bytes, io, backed), capHit, ok);
  }

  lemma MessageRows(s: State, message: Message, capHit: bool, ok: bool)
    requires RowsOk(s.rows)
    ensures RowsOk(OnMessage(s, message, capHit, ok).rows)
  {
    match message {
      case Collect(crns, opens) => CollectRows(s, crns, opens);
      case StreamEnd(crn, errs) => StreamEndRows(s, crn, errs, capHit, ok);
      case Flushed(k, compressed, bytes, io, backed) =>
        if k < |s.books.messages| {
          FlushedRows(s, k, compressed, bytes, io, backed, capHit, ok);
        }
      case Loaded(crn, count, evicted) =>
        LoadedRows(s, crn, count, evicted);
        SameRowsOk(s.rows, OnLoadReady(s, crn, count, evicted).rows);
      case Restore(snaps) => RestoredRows(s, snaps);
      case Evict => EvictedRows(s);
      case Stream(crn, id, count, room, warns, errs) => StreamRows(s, crn, id, count, room, warns, errs);
      case Tick(epoch) => TickRows(s, epoch, capHit, ok);
      case DispatchDone(crn, submitted) => DispatchDoneRows(s, crn, submitted);
      case Load(_, _) =>
      case ViewInContext(crn) => ViewRows(s.rows, {crn});
    }
  }

  // ---------------------------------------------------------------- the events, one by one

  /** A fetch that has just started is orderly unless its container opened with nothing to wait for. */
  lemma StartOrders(s: State, opens: bool)
    requires RowsOk(s.rows) && Watched(s)
    ensures var u := StartFetchWithSources(s, opens);
            Orderly(u) <==> (opens && !s.mode.watching ==> !AllDone(u.rows))
  {
  }

  lemma FetchKeyOrders(s: State, opens: bool)
    requires RowsOk(s.rows) && Watched(s) && AllDone(s.rows)
    ensures Orderly(StartFetch(s, opens)) <==> !(opens && !s.mode.watching && !AnyEnabled(s.rows))
  {
    var rows := Configured(s.rows);
    ConfiguredRows(s.rows);
    var base := s.(rows := rows, members := Only(EnabledCrns(rows), []));
    StartOrders(base, opens);
    var u := StartFetchWithSources(base, opens);
    if opens && AnyEnabled(rows) {
      var k :| 0 <= k < |rows| && IsEnabled(rows[k]);
      assert Running(u.rows[k].phase);
    }
  }

  lemma FirstFetchKeyOrders(s: State, opens: bool)
    requires RowsOk(s.rows) && Orderly(s) && AllDone(s.rows)
    ensures Orderly(StartFirstFetch(s, opens))
  {
    assert AllDone(Willing(s).rows);
    if AnyEnabled(Willing(s).rows) {
      FetchKeyOrders(Racing(Willing(s)), opens);
    }
  }

  lemma StartWatchOrders(s: State, opens: bool)
    requires RowsOk(s.rows) && Orderly(s) && AllDone(s.rows)
    ensures Orderly(StartWatch(s, opens))
  {
    FetchKeyOrders(ForWatch(s), opens);
    ConfiguredRows(s.rows);
  }

  lemma WatchKeyOrders(s: State, opens: bool, capHit: bool, ok: bool)
    requires RowsOk(s.rows) && Orderly(s)
    ensures Orderly(ToggleWatch(s, opens, capHit, ok))
  {
    if s.mode.watching {
      SettleOrders(StopWatch(s), capHit, ok);
    } else if AllDone(s.rows) {
      StartWatchOrders(s, opens);
    }
  }

  lemma CancelKeyOrders(s: State, capHit: bool, ok: bool)
    requires RowsOk(s.rows) && Orderly(s)
    ensures Orderly(CancelAllFetches(s, capHit, ok))
  {
    SilencedRows(s);
    SettleOrders(Silenced(s), capHit, ok);
  }

  /** Rewriting rows in place, without settling, is orderly unless it ends the last query of an
      exposed container. */
  lemma RewriteOrders(s: State, rows: seq<Instance>)
    requires Orderly(s) && (AnyWatching(rows) ==> s.mode.watching)
    ensures Orderly(s.(rows := rows)) <==> !(Exposed(s) && AllDone(rows))
  {
  }

  lemma ToggleKeyOrders(s: State, k: nat)
    requires RowsOk(s.rows) && Orderly(s) && k < |s.rows|
    ensures Orderly(s.(rows := s.rows[k := ToggleRow(s.rows[k])])) <==> !KeyUnsettles(s, ToggleKey(k))
  {
    var rows := s.rows[k := ToggleRow(s.rows[k])];
    RewriteOrders(s, rows);
    if Exposed(s) {
      ExposedRuns(s);
      assert AllDone(rows) <==> OnlyRunning(s.rows, k) && !s.rows[k].readOnly by {
        assert !Running(ToggleRow(s.rows[k]).phase) || s.rows[k].readOnly;
        if AllDone(rows) {
          assert !Running(rows[k].phase);
          assert forall j :: 0 <= j < |s.rows| && j != k ==> rows[j] == s.rows[j];
        }
      }
    }
  }

  /** In an orderly state an open container that is exposed has a query running for it. */
  lemma ExposedRuns(s: State)
    requires Orderly(s) && Exposed(s)
    ensures !AllDone(s.rows)
  {
  }

  lemma SelectAllKeyOrders(s: State, visible: set<Crn>)
    requires Orderly(s)
    ensures Orderly(ToggleAllVisible(s, visible)) <==> !KeyUnsettles(s, SelectAllKey(visible))
  {
    var on := !AllVisibleEnabled(s.rows, visible);
    var rows := Map(s.rows, Selecting(visible, on));
    RewriteOrders(s, rows);
    if Exposed(s) {
      ExposedRuns(s);
      if !on && AllRunningIn(s.rows, visible) {
        assert AllDone(rows);
      } else {
        var k :| 0 <= k < |s.rows| && Running(s.rows[k].phase)
            && (on || s.rows[k].readOnly || s.rows[k].crn !in visible);
        assert rows[k] == s.rows[k];
      }
    }
  }

  lemma KeyOrders(s: State, key: Key, capHit: bool, ok: bool)
    requires RowsOk(s.rows) && Orderly(s)
    ensures Orderly(OnKey(s, key, capHit, ok)) <==> !KeyUnsettles(s, key)
  {
    match key {
      case FetchKey(opens) =>
        if AllDone(s.rows) {
          FetchKeyOrders(s, opens);
        }
      case FirstFetchKey(opens) =>
        if AllDone(s.rows) {
          FirstFetchKeyOrders(s, opens);
        }
      case WatchKey(opens) => WatchKeyOrders(s, opens, capHit, ok);
      case CancelKey => CancelKeyOrders(s, capHit, ok);
      case ToggleKey(k) =>
        if k < |s.rows| {
          ToggleKeyOrders(s, k);
        }
      case SelectAllKey(visible) => SelectAllKeyOrders(s, visible);
      case RetryKey(k) =>
        if k < |s.rows| {
          RetryKeyOrders(s, k);
        }
      case DispatchKey => DispatchKeyOrders(s);
    }
  }

  lemma RetryKeyOrders(s: State, k: nat)
    requires Orderly(s) && k < |s.rows|
    ensures Orderly(s.(rows := s.rows[k := RetryRow(s.rows[k])]))
  {
    var rows := s.rows[k := RetryRow(s.rows[k])];
    RewriteOrders(s, rows);
    if Exposed(s) {
      ExposedRuns(s);
      var j :| 0 <= j < |s.rows| && Running(s.rows[j].phase);
      assert Running(rows[j].phase);
    }
  }

  lemma DispatchKeyOrders(s: State)
    requires Orderly(s)
    ensures Orderly(Dispatch(s))
  {
    if !s.mode.fetching && !s.mode.watching && AnyEnabled(s.rows) {
      var k :| 0 <= k < |s.rows| && IsEnabled(s.rows[k]);
      assert Running(Dispatch(s).rows[k].phase);
    }
  }

  lemma AuthOrders(s: State, auth: Auth, capHit: bool, ok: bool)
    requires RowsOk(s.rows) && Orderly(s)
    ensures Orderly(OnAuth(s, auth, capHit, ok))
  {
    match auth {
      case Token(crn, generation) => TokenOrders(s, crn, generation);
      case TokenFailed(crn, _) => SettleOrders(Failed(s, crn), capHit, ok);
      case EnvFailed(env, _) => EnvOrders(s, env, Error, capHit, ok);
      case EnvCancelled(env, _) => EnvOrders(s, env, Cancelled, capHit, ok);
      case PasscodeFailed(env) => EnvOrders(s, env, Error, capHit, ok);
      case PasscodeCancelled(env) => EnvOrders(s, env, Enabled, capHit, ok);
      case PasscodeAccepted(_) => SettleOrders(s, capHit, ok);
    }
  }

  lemma TokenOrders(s: State, crn: Crn, generation: nat)
    requires Orderly(s)
    ensures Orderly(OnMemberAuthResolved(s, crn, generation))
  {
    var at := First(s.rows, crn);
    if generation == s.mode.generation && at.Some? && IsEnabled(s.rows[at.value]) {
      var rows := s.rows[at.value := StartQuery(s.rows[at.value])];
      RewriteOrders(s, rows);
      assert Running(rows[at.value].phase);
    }
  }

  lemma EnvOrders(s: State, env: Environment, to: Phase, capHit: bool, ok: bool)
    requires Orderly(s) && !to.Watching?
    ensures Orderly(SettleEnv(s, env, to, capHit, ok))
  {
    SettleOrders(s.(rows := Map(s.rows, Authing(Some(env), to))), capHit, ok);
  }

  lemma CollectOrders(s: State, crns: set<Crn>, opens: bool)
    requires RowsOk(s.rows) && Orderly(s)
    ensures Orderly(StartCollect(s, crns, opens)) <==> !MessageUnsettles(s, Collect(crns, opens), false)
  {
    if !s.mode.fetching && !s.mode.watching && AllConfigured(s.rows, crns) {
      EnabledByCollect(s.rows, crns);
      FetchedRows(ForCollect(s, crns).rows);
      StartOrders(ForCollect(s, crns), opens);
    }
  }

  /** A fetch of configured rows has something to wait for exactly when one of them is enabled. */
  lemma FetchedRows(rows: seq<Instance>)
    requires forall k :: 0 <= k < |rows| ==> !rows[k].readOnly
    ensures AllDone(Map(rows, Fetching())) <==> !AnyEnabled(rows)
  {
    if AnyEnabled(rows) {
      var k :| 0 <= k < |rows| && IsEnabled(rows[k]);
      assert Running(Map(rows, Fetching())[k].phase);
    }
  }

  /** Exactly the archive's rows are enabled, and there are some if the archive has any. */
  lemma {:induction false} EnabledByCollect(rows: seq<Instance>, crns: set<Crn>)
    requires AllConfigured(rows, crns)
    ensures var enabled := Map(Configured(rows), EnablingOnly(crns));
            && RowsOk(enabled) && !AnyWatching(enabled)
            && forall k :: 0 <= k < |enabled| ==> !enabled[k].readOnly
    ensures AnyEnabled(Map(Configured(rows), EnablingOnly(crns))) <==> crns != {}
  {
    if crns != {} {
      var c :| c in crns;
      CollectedRow(rows, crns, c);
    }
  }

  lemma CollectedRow(rows: seq<Instance>, crns: set<Crn>, c: Crn)
    requires AllConfigured(rows, crns) && c in crns
    ensures AnyEnabled(Map(Configured(rows), EnablingOnly(crns)))
  {
    var configured := Configured(rows);
    var j :| 0 <= j < |rows| && rows[j].crn == c && !rows[j].readOnly;
    assert rows[j] in configured;
    var k :| 0 <= k < |configured| && configured[k] == rows[j];
    assert IsEnabled(Map(configured, EnablingOnly(crns))[k]);
  }

  lemma StreamOrders(s: State, crn: Crn, id: nat, count: nat, room: nat, warns: bool, errs: bool)
    requires RowsOk(s.rows) && Orderly(s)
    ensures Orderly(OnLogStream(s, crn, id, count, room, warns, errs))
            <==> !(Exposed(s) && Accepts(s, crn, id) && BatchEndsAll(s, crn, count, warns || errs))
  {
    if Accepts(s, crn, id) {
      var u := OnLogStream(s, crn, id, count, room, warns, errs);
      forall k | 0 <= k < |s.rows|
        ensures StreamRow(s, crn, count, warns || errs, s.rows[k], k, u.rows[k])
      {
        StreamRowEnds(s, crn, id, count, room, warns, errs, k);
      }
    }
  }

  /** A row runs after the batch if it ran before, lost no election, and saw no trouble. */
  predicate StreamRow(s: State, crn: Crn, count: nat, troubled: bool, i: Instance, k: nat, after: Instance) {
    && (after.phase.Watching? ==> i.phase.Watching?)
    && (!i.phase.Watching? ==>
          (Running(after.phase)
           <==> Running(i.phase)
                && !(Elects(s, count) && i.crn in s.race.candidates.value && i.crn != crn)
                && !(troubled && First(s.rows, crn) == Some(k))))
  }

  lemma StreamRowEnds(s: State, crn: Crn, id: nat, count: nat, room: nat, warns: bool, errs: bool, k: nat)
    requires RowsOk(s.rows) && Accepts(s, crn, id) && k < |s.rows|
    ensures |OnLogStream(s, crn, id, count, room, warns, errs).rows| == |s.rows|
    ensures StreamRow(s, crn, count, warns || errs, s.rows[k], k,
                      OnLogStream(s, crn, id, count, room, warns, errs).rows[k])
  {
    var elected := if Elects(s, count) then Elect(s, crn) else s;
    var loses := Elects(s, count) && s.rows[k].crn in s.race.candidates.value && s.rows[k].crn != crn;
    SameFirst(s.rows, elected.rows, crn);
    assert elected.rows[k] == if loses then LoseRace(s.rows[k]) else s.rows[k];
    LoserEnds(s.rows[k]);
    BatchEnds(elected.rows[k], id, count, room, warns, errs);
  }

  lemma LoserEnds(i: Instance)
    requires i.phase.InProgress? ==> i.streaming
    ensures LoseRace(i).phase.Watching? <==> i.phase.Watching?
    ensures !i.phase.Watching? ==> !Running(LoseRace(i).phase)
  {
  }

  lemma BatchEnds(i: Instance, id: nat, count: nat, room: nat, warns: bool, errs: bool)
    ensures var after := StreamBatch(i, id, count, room, warns, errs);
            && (after.phase.Watching? ==> i.phase.Watching?)
            && (Running(after.phase) <==> Running(i.phase) && !warns && !errs)
  {
  }

  lemma TickOrders(s: State, epoch: nat, capHit: bool, ok: bool)
    requires Orderly(s)
    ensures Orderly(OnWatchTick(s, epoch, capHit, ok)) <==> !MessageUnsettles(s, Tick(epoch), capHit)
  {
    if s.mode.watching && epoch == s.mode.watchEpoch && (capHit || !AnyWaiting(s.rows, s.members)) {
      EndWatchOrders(s, ok);
    }
  }

  /** Ending a watch is orderly unless rows still wait for its next round. */
  lemma EndWatchOrders(s: State, ok: bool)
    ensures Orderly(EndWatch(s, ok)) <==> !AnyWatching(s.rows)
  {
    var u := EndWatch(s, ok);
    if AnyWatching(s.rows) {
      var k :| 0 <= k < |s.rows| && s.rows[k].phase.Watching?;
      assert Running(s.rows[k].phase);
    }
  }

  lemma DispatchDoneOrders(s: State, crn: Crn, submitted: bool)
    requires Orderly(s)
    ensures Orderly(OnDispatchInstanceDone(s, crn, submitted))
            <==> !MessageUnsettles(s, DispatchDone(crn, submitted), false)
  {
    var at := First(s.rows, crn);
    if at.Some? {
      var k := at.value;
      var rows := At(s.rows, crn, FinishDispatch(submitted));
      assert rows == s.rows[k := FinishDispatch(submitted)(s.rows[k])];
      RewriteOrders(s, rows);
      if Exposed(s) {
        ExposedRuns(s);
        assert AllDone(rows) <==> OnlyRunning(s.rows, k) by {
          assert !Running(rows[k].phase);
          assert forall j :: 0 <= j < |s.rows| && j != k ==> rows[j] == s.rows[j];
        }
      }
    }
  }

  lemma ViewInContextOrders(s: State, crn: Crn)
    requires Orderly(s)
    ensures Orderly(s.(rows := Map(s.rows, EnablingOnly({crn})))) <==> !MessageUnsettles(s, ViewInContext(crn), false)
  {
    var rows := Map(s.rows, EnablingOnly({crn}));
    RewriteOrders(s, rows);
    if Exposed(s) && !NoReadOnlyRunning(s.rows) {
      var k :| 0 <= k < |s.rows| && Running(s.rows[k].phase) && s.rows[k].readOnly;
      assert rows[k] == s.rows[k];
    }
  }

  lemma RestoreOrders(s: State, snaps: seq<Saved>)
    ensures Orderly(OnSnapshotRestore(s, snaps)) <==> !(s.books.container.Some? && s.books.pending == 0)
  {
    RestoredRows(s, snaps);
  }

  lemma EvictOrders(s: State)
    ensures Orderly(OnEvict(s)) <==> !Exposed(s)
  {
    EvictedRows(s);
  }

  lemma FlushedOrders(s: State, k: nat, compressed: bool, bytes: Bytes, io: bool, backed: bool, capHit: bool, ok: bool)
    requires Orderly(s) && k < |s.books.messages|
    ensures Orderly(OnInstanceFlushed(s, k, compressed, bytes, io, backed, capHit, ok))
  {
    if s.books.messages[k].epoch == s.books.epoch {
      DeliveredRows(s, k, compressed, bytes, io, backed);
      SettleOrders(Delivered(s, k, compressed, bytes, io, backed), capHit, ok);
    }
  }

  lemma StreamEndOrders(s: State, crn: Crn, errs: bool, capHit: bool, ok: bool)
    requires RowsOk(s.rows) && Orderly(s)
    ensures Orderly(OnLogStreamDone(s, crn, errs, capHit, ok))
  {
    EndedRows(s, crn, errs);
    SettleOrders(Ended(s, crn, errs), capHit, ok);
  }

  lemma MessageOrders(s: State, message: Message, capHit: bool, ok: bool)
    requires RowsOk(s.rows) && Orderly(s)
    ensures Orderly(OnMessage(s, message, capHit, ok)) <==> !MessageUnsettles(s, message, capHit)
  {
    match message {
      case Collect(crns, opens) => CollectOrders(s, crns, opens);
      case Stream(crn, id, count, room, warns, errs) => StreamOrders(s, crn, id, count, room, warns, errs);
      case StreamEnd(crn, errs) => StreamEndOrders(s, crn, errs, capHit, ok);
      case Flushed(k, compressed, bytes, io, backed) =>
        if k < |s.books.messages| {
          FlushedOrders(s, k, compressed, bytes, io, backed, capHit, ok);
        }
      case Tick(epoch) => TickOrders(s, epoch, capHit, ok);
      case DispatchDone(crn, submitted) => DispatchDoneOrders(s, crn, submitted);
      case ViewInContext(crn) => ViewInContextOrders(s, crn);
      case Restore(snaps) => RestoreOrders(s, snaps);
      case Evict => EvictOrders(s);
      case Load(_, _) =>
      case Loaded(crn, count, evicted) =>
        LoadedRows(s, crn, count, evicted);
        RewriteOrders(s, OnLoadReady(s, crn, count, evicted).rows);
    }
  }

  /** One event keeps the order unless it is one of those that unsettle. */
  lemma NextOrders(s: State, t: Step)
    requires RowsOk(s.rows) && Orderly(s)
    ensures Orderly(Next(s, t)) <==> !Unsettles(s, t)
  {
    match t.event {
      case Pressed(key) => KeyOrders(s, key, t.capHit, t.ok);
      case Authed(auth) => AuthOrders(s, auth, t.capHit, t.ok);
      case Received(message) => MessageOrders(s, message, t.capHit, t.ok);
    }
  }

  lemma NextRows(s: State, t: Step)
    requires RowsOk(s.rows) && Watched(s)
    ensures RowsOk(Next(s, t).rows)
  {
    match t.event {
      case Pressed(key) => KeyRows(s, key, t.capHit, t.ok);
      case Authed(auth) => AuthRows(s, auth, t.capHit, t.ok);
      case Received(message) => MessageRows(s, message, t.capHit, t.ok);
    }
  }

  // ---------------------------------------------------------------- whole runs

  ghost function Ordering(s: State): seq<Step> -> bool {
    (run: seq<Step>) => Orderly(After(s, run))
  }

  ghost function Unsettling(s: State): (seq<Step>, Step) -> bool {
    (run: seq<Step>, t: Step) => Unsettles(After(s, run), t)
  }

  /** A whole run keeps every finished fetch closed if and only if none of its events unsettles. */
  lemma OrderlyRuns(configured: seq<(Crn, Environment)>, steps: seq<Step>)
    ensures Always(Ordering(Init(configured)), steps) <==> Never(Unsettling(Init(configured)), steps)
  {
    OrderlyTo(Init(configured), steps);
  }

  lemma {:induction false} OrderlyTo(s: State, steps: seq<Step>)
    requires RowsOk(s.rows) && Orderly(s)
    ensures Always(Ordering(s), steps) <==> Never(Unsettling(s), steps)
    ensures Always(Ordering(s), steps) ==> RowsOk(After(s, steps).rows)
  {
    AlwaysFront(Ordering(s), steps);
    if steps == [] {
    } else {
      var m := |steps| - 1;
      OrderlyTo(s, steps[..m]);
      NeverFront(Unsettling(s), steps);
      if Always(Ordering(s), steps[..m]) {
        AlwaysFront(Ordering(s), steps[..m]);
        NextOrders(After(s, steps[..m]), steps[m]);
        NextRows(After(s, steps[..m]), steps[m]);
      }
    }
  }
}
