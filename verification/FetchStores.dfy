/** Over whole runs, the configured rows stay the ones the picker was built with, and a row whose store has
    been emptied takes no more logs of the streams it had before. */
module FetchStores {
  import opened Options
  import opened FetchState
  import opened FetchRows

  /** The same instance later: its queries have only been added to, and under one query its store has only
      grown. */
  predicate Onward(i: Instance, j: Instance) {
    && j.crn == i.crn && j.env == i.env && j.readOnly == i.readOnly
    && i.query <= j.query && (i.query == j.query ==> i.live <= j.live)
  }

  predicate AllOnward(rows: seq<Instance>, after: seq<Instance>) {
    |after| == |rows| && forall k :: 0 <= k < |rows| ==> Onward(rows[k], after[k])
  }

  ghost predicate Advances(f: Instance -> Instance) {
    forall i :: Onward(i, f(i))
  }

  /** The configured rows stay, in order. */
  predicate Follow(rows: seq<Instance>, after: seq<Instance>) {
    AllOnward(Configured(rows), Configured(after))
  }

  lemma {:induction false} OnwardFollows(rows: seq<Instance>, after: seq<Instance>)
    requires AllOnward(rows, after)
    ensures Follow(rows, after)
    decreases |rows|
  {
    if rows == [] {
    } else {
      OnwardFollows(rows[1..], after[1..]);
      assert Onward(rows[0], after[0]);
    }
  }

  lemma SameFollows(rows: seq<Instance>)
    ensures Follow(rows, rows)
  {
    OnwardFollows(rows, rows);
  }

  lemma FollowTwice(a: seq<Instance>, b: seq<Instance>, c: seq<Instance>)
    requires Follow(a, b) && Follow(b, c)
    ensures Follow(a, c)
  {
    var x, y, z := Configured(a), Configured(b), Configured(c);
    forall k | 0 <= k < |x|
      ensures Onward(x[k], z[k])
    {
      assert Onward(x[k], y[k]) && Onward(y[k], z[k]);
    }
  }

  lemma {:induction false} ConfiguredAgain(rows: seq<Instance>)
    ensures Configured(Configured(rows)) == Configured(rows)
  {
    if rows == [] {
    } else {
      var rest := Configured(rows[1..]);
      ConfiguredAgain(rows[1..]);
      if rows[0].readOnly {
        assert Configured(rows) == rest;
      } else {
        assert Configured(rows) == [rows[0]] + rest;
        ConfiguredParts(rest, rows[0]);
      }
    }
  }

  lemma ConfiguredFollows(rows: seq<Instance>)
    ensures Follow(rows, Configured(rows))
  {
    ConfiguredAgain(rows);
  }

  lemma {:induction false} ConfiguredAppend(rows: seq<Instance>, row: Instance)
    requires row.readOnly
    ensures Configured(rows + [row]) == Configured(rows)
  {
    if rows == [] {
      assert [] + [row] == [row] && [row][1..] == [];
    } else {
      ConfiguredAppend(rows[1..], row);
      assert (rows + [row])[1..] == rows[1..] + [row];
    }
  }

  lemma {:induction false} AppendFollows(rows: seq<Instance>, snaps: seq<Saved>)
    ensures Configured(AppendReadOnly(rows, snaps)) == Configured(rows)
    decreases |snaps|
  {
    if snaps == [] {
    } else if First(rows, snaps[0].crn).Some? {
      AppendFollows(rows, snaps[1..]);
    } else if snaps[0].parsable {
      AppendFollows(rows + [SavedRow(snaps[0])], snaps[1..]);
      ConfiguredAppend(rows, SavedRow(snaps[0]));
    }
  }

  lemma MapFollows(rows: seq<Instance>, f: Instance -> Instance)
    requires Advances(f)
    ensures AllOnward(rows, Map(rows, f)) && Follow(rows, Map(rows, f))
  {
    OnwardFollows(rows, Map(rows, f));
  }

  lemma UpdateFollows(rows: seq<Instance>, k: nat, j: Instance)
    requires k < |rows| && Onward(rows[k], j)
    ensures Follow(rows, rows[k := j])
  {
    OnwardFollows(rows, rows[k := j]);
  }

  lemma AtFollows(rows: seq<Instance>, crn: Crn, f: Instance -> Instance)
    requires Advances(f)
    ensures Follow(rows, At(rows, crn, f))
  {
    OnwardFollows(rows, At(rows, crn, f));
  }

  lemma SettleFollows(s: State, capHit: bool, ok: bool)
    ensures Follow(s.rows, Settle(s, capHit, ok).rows)
  {
    SettleRows(s, capHit, ok);
    OnwardFollows(s.rows, Settle(s, capHit, ok).rows);
  }

  /** What settles after the rows have moved on. */
  lemma ThenSettles(rows: seq<Instance>, s: State, capHit: bool, ok: bool)
    requires Follow(rows, s.rows)
    ensures Follow(rows, Settle(s, capHit, ok).rows)
  {
    SettleFollows(s, capHit, ok);
    FollowTwice(rows, s.rows, Settle(s, capHit, ok).rows);
  }

  lemma SourcesFollow(rows: seq<Instance>, s: State, opens: bool)
    requires Follow(rows, s.rows)
    ensures Follow(rows, StartFetchWithSources(s, opens).rows)
  {
    MapFollows(s.rows, Fetching());
    FollowTwice(rows, s.rows, Map(s.rows, Fetching()));
  }

  lemma StartFollows(rows: seq<Instance>, s: State, opens: bool)
    requires Follow(rows, s.rows)
    ensures Follow(rows, StartFetch(s, opens).rows)
  {
    ConfiguredFollows(s.rows);
    FollowTwice(rows, s.rows, Configured(s.rows));
    SourcesFollow(rows, s.(rows := Configured(s.rows), members := Only(EnabledCrns(Configured(s.rows)), [])), opens);
  }

  lemma RaceFollows(s: State, opens: bool)
    ensures Follow(s.rows, StartFirstFetch(s, opens).rows)
  {
    SameFollows(s.rows);
    MapFollows(s.rows, EnablingAll());
    StartFollows(s.rows, Racing(Willing(s)), opens);
  }

  lemma WatchKeyFollows(s: State, opens: bool, capHit: bool, ok: bool)
    ensures Follow(s.rows, ToggleWatch(s, opens, capHit, ok).rows)
  {
    SameFollows(s.rows);
    if s.mode.watching {
      MapFollows(s.rows, Stopping());
      ThenSettles(s.rows, StopWatch(s), capHit, ok);
    } else if AllDone(s.rows) {
      StartFollows(s.rows, ForWatch(s), opens);
    }
  }

  lemma CancelFollows(s: State, capHit: bool, ok: bool)
    ensures Follow(s.rows, CancelAllFetches(s, capHit, ok).rows)
  {
    var after := Silenced(s).rows;
    assert Cancels(s.rows, after, s.mode.watching);
    OnwardFollows(s.rows, after);
    ThenSettles(s.rows, Silenced(s), capHit, ok);
  }

  lemma RowKeyFollows(s: State, k: nat)
    requires k < |s.rows|
    ensures Follow(s.rows, s.rows[k := ToggleRow(s.rows[k])]) && Follow(s.rows, s.rows[k := RetryRow(s.rows[k])])
  {
    UpdateFollows(s.rows, k, ToggleRow(s.rows[k]));
    UpdateFollows(s.rows, k, RetryRow(s.rows[k]));
  }

  lemma RowsKeyFollows(s: State, visible: set<Crn>)
    ensures Follow(s.rows, ToggleAllVisible(s, visible).rows) && Follow(s.rows, Dispatch(s).rows)
  {
    SameFollows(s.rows);
    MapFollows(s.rows, Selecting(visible, !AllVisibleEnabled(s.rows, visible)));
    MapFollows(s.rows, Dispatching());
  }

  lemma KeyFollows(s: State, key: Key, capHit: bool, ok: bool)
    ensures Follow(s.rows, OnKey(s, key, capHit, ok).rows)
  {
    hide Follow, StartFetch, StartFirstFetch, ToggleWatch, CancelAllFetches, ToggleAllVisible, Dispatch;
    SameFollows(s.rows);
    match key {
      case FetchKey(opens) => StartFollows(s.rows, s, opens);
      case FirstFetchKey(opens) => RaceFollows(s, opens);
      case WatchKey(opens) => WatchKeyFollows(s, opens, capHit, ok);
      case CancelKey => CancelFollows(s, capHit, ok);
      case ToggleKey(k) =>
        if k < |s.rows| {
          RowKeyFollows(s, k);
        }
      case SelectAllKey(visible) => RowsKeyFollows(s, visible);
      case RetryKey(k) =>
        if k < |s.rows| {
          RowKeyFollows(s, k);
        }
      case DispatchKey => RowsKeyFollows(s, {});
    }
  }

  lemma EnvFollows(s: State, env: Environment, to: Phase, capHit: bool, ok: bool)
    ensures Follow(s.rows, SettleEnv(s, env, to, capHit, ok).rows)
  {
    MapFollows(s.rows, Authing(Some(env), to));
    ThenSettles(s.rows, s.(rows := Map(s.rows, Authing(Some(env), to))), capHit, ok);
  }

  lemma TokenFollows(s: State, crn: Crn, generation: nat)
    ensures Follow(s.rows, OnMemberAuthResolved(s, crn, generation).rows)
  {
    SameFollows(s.rows);
    var at := First(s.rows, crn);
    if at.Some? {
      UpdateFollows(s.rows, at.value, StartQuery(s.rows[at.value]));
    }
  }

  lemma FailureFollows(s: State, crn: Crn, generation: nat, capHit: bool, ok: bool)
    ensures Follow(s.rows, OnMemberAuthFailed(s, crn, generation, capHit, ok).rows)
  {
    SameFollows(s.rows);
    AtFollows(s.rows, crn, Failing());
    ThenSettles(s.rows, Failed(s, crn), capHit, ok);
  }

  lemma AuthFollows(s: State, auth: Auth, capHit: bool, ok: bool)
    ensures Follow(s.rows, OnAuth(s, auth, capHit, ok).rows)
  {
    hide Follow, Settle, SettleEnv, OnMemberAuthResolved, OnMemberAuthFailed;
    SameFollows(s.rows);
    match auth {
      case Token(crn, generation) => TokenFollows(s, crn, generation);
      case TokenFailed(crn, generation) => FailureFollows(s, crn, generation, capHit, ok);
      case EnvFailed(env, _) => EnvFollows(s, env, Error, capHit, ok);
      case EnvCancelled(env, _) => EnvFollows(s, env, Cancelled, capHit, ok);
      case PasscodeFailed(env) => EnvFollows(s, env, Error, capHit, ok);
      case PasscodeCancelled(env) => EnvFollows(s, env, Enabled, capHit, ok);
      case PasscodeAccepted(_) => SettleFollows(s, capHit, ok);
    }
  }

  lemma ElectFollows(s: State, crn: Crn)
    requires s.race.candidates.Some?
    ensures Follow(s.rows, Elect(s, crn).rows)
  {
    MapFollows(s.rows, Losing(s.race.candidates.value, crn));
  }

  lemma TakingFollows(rows: seq<Instance>, crn: Crn, id: nat, count: nat, room: nat, warns: bool, errs: bool)
    ensures Follow(rows, At(rows, crn, Taking(id, count, room, warns, errs)))
  {
    AtFollows(rows, crn, Taking(id, count, room, warns, errs));
  }

  lemma StreamFollows(s: State, crn: Crn, id: nat, count: nat, room: nat, warns: bool, errs: bool)
    ensures Follow(s.rows, OnLogStream(s, crn, id, count, room, warns, errs).rows)
  {
    SameFollows(s.rows);
    if Accepts(s, crn, id) {
      if Elects(s, count) {
        var elected := Elect(s, crn);
        ElectFollows(s, crn);
        TakingFollows(elected.rows, crn, id, count, room, warns, errs);
        FollowTwice(s.rows, elected.rows, At(elected.rows, crn, Taking(id, count, room, warns, errs)));
      } else {
        TakingFollows(s.rows, crn, id, count, room, warns, errs);
      }
    }
  }

  lemma HandOverFollows(s: State, k: nat)
    requires k < |s.rows|
    ensures Follow(s.rows, HandOver(s, k).rows)
  {
    SameFollows(s.rows);
    UpdateFollows(s.rows, k, ClearStore(s.rows[k]).(flushed := s.rows[k].live));
  }

  lemma EndFollows(s: State, crn: Crn, errs: bool, capHit: bool, ok: bool)
    ensures Follow(s.rows, OnLogStreamDone(s, crn, errs, capHit, ok).rows)
  {
    SameFollows(s.rows);
    var at := First(s.rows, crn);
    if at.Some? {
      var done := s.(rows := s.rows[at.value := StreamDone(s.rows[at.value], errs)]);
      UpdateFollows(s.rows, at.value, StreamDone(s.rows[at.value], errs));
      HandOverFollows(done, at.value);
      FollowTwice(s.rows, done.rows, HandOver(done, at.value).rows);
    }
    ThenSettles(s.rows, Ended(s, crn, errs), capHit, ok);
  }

  lemma FlushedFollows(s: State, k: nat, compressed: bool, bytes: Bytes, io: bool, backed: bool, capHit: bool, ok: bool)
    requires k < |s.books.messages|
    ensures Follow(s.rows, OnInstanceFlushed(s, k, compressed, bytes, io, backed, capHit, ok).rows)
  {
    SameFollows(s.rows);
    AtFollows(s.rows, s.books.messages[k].crn, Sizing(bytes));
    ThenSettles(s.rows, Delivered(s, k, compressed, bytes, io, backed), capHit, ok);
  }

  lemma TickFollows(s: State, epoch: nat, capHit: bool, ok: bool)
    ensures Follow(s.rows, OnWatchTick(s, epoch, capHit, ok).rows)
  {
    SameFollows(s.rows);
    WatchEnds(s, false, ok);
    ThenSettles(s.rows, s.(mode := s.mode.(watching := false, watchEpoch := s.mode.watchEpoch + 1)), false, ok);
    MapFollows(s.rows, Resuming(s.members));
  }

  lemma CollectFollows(s: State, crns: set<Crn>, opens: bool)
    ensures Follow(s.rows, StartCollect(s, crns, opens).rows)
  {
    SameFollows(s.rows);
    ConfiguredFollows(s.rows);
    MapFollows(Configured(s.rows), EnablingOnly(crns));
    FollowTwice(s.rows, Configured(s.rows), Map(Configured(s.rows), EnablingOnly(crns)));
    SourcesFollow(s.rows, ForCollect(s, crns), opens);
  }

  lemma RestoreFollows(s: State, snaps: seq<Saved>)
    ensures Follow(s.rows, OnSnapshotRestore(s, snaps).rows)
  {
    var rows := Configured(s.rows);
    RestoredSame(s.rows, snaps);
    ConfiguredFollows(s.rows);
    MapFollows(rows, Restoring(snaps));
    FollowTwice(s.rows, rows, Map(rows, Restoring(snaps)));
    AppendFollows(Map(rows, Restoring(snaps)), snaps);
    RestoreRows(s, snaps, Map(rows, Restoring(snaps)));
  }

  lemma EvictFollows(s: State)
    ensures Follow(s.rows, OnEvict(s).rows)
  {
    ConfiguredFollows(s.rows);
    MapFollows(Configured(s.rows), Resetting());
    FollowTwice(s.rows, Configured(s.rows), Map(Configured(s.rows), Resetting()));
  }

  lemma LoadedFollows(s: State, crn: Crn, count: nat, evicted: Option<Crn>)
    ensures Follow(s.rows, OnLoadReady(s, crn, count, evicted).rows)
  {
    forall k | 0 <= k < |s.rows|
      ensures Onward(s.rows[k], OnLoadReady(s, crn, count, evicted).rows[k])
    {
      LoadedRows(s, crn, count, evicted, k);
    }
    OnwardFollows(s.rows, OnLoadReady(s, crn, count, evicted).rows);
  }

  lemma LoadFollows(s: State, crn: Crn, backed: bool)
    ensures Follow(s.rows, OpenRow(s, crn, backed).rows)
  {
    SameFollows(s.rows);
  }

  lemma DispatchDoneFollows(s: State, crn: Crn, submitted: bool)
    ensures Follow(s.rows, OnDispatchInstanceDone(s, crn, submitted).rows)
  {
    SameFollows(s.rows);
    AtFollows(s.rows, crn, FinishDispatch(submitted));
  }

  lemma ViewFollows(s: State, crn: Crn)
    ensures Follow(s.rows, Map(s.rows, EnablingOnly({crn})))
  {
    MapFollows(s.rows, EnablingOnly({crn}));
  }

  lemma StreamMessageFollows(s: State, message: Message, capHit: bool, ok: bool)
    requires message.Collect? || message.Stream? || message.StreamEnd? || message.Flushed?
    ensures Follow(s.rows, OnMessage(s, message, capHit, ok).rows)
  {
    hide Follow, StartCollect, OnLogStream, OnLogStreamDone, OnInstanceFlushed;
    SameFollows(s.rows);
    if message.Collect? {
      CollectFollows(s, message.crns, message.opens);
    } else if message.Stream? {
      StreamFollows(s, message.crn, message.id, message.count, message.room, message.warns, message.errs);
    } else if message.StreamEnd? {
      EndFollows(s, message.crn, message.errs, capHit, ok);
    } else if message.at < |s.books.messages| {
      FlushedFollows(s, message.at, message.compressed, message.bytes, message.io, message.backed, capHit, ok);
    }
  }

  lemma MessageFollows(s: State, message: Message, capHit: bool, ok: bool)
    ensures Follow(s.rows, OnMessage(s, message, capHit, ok).rows)
  {
    hide Follow, OpenRow, OnLoadReady, OnWatchTick, OnSnapshotRestore, OnEvict, OnDispatchInstanceDone;
    match message {
      case Collect(_, _) => StreamMessageFollows(s, message, capHit, ok);
      case Stream(_, _, _, _, _, _) => StreamMessageFollows(s, message, capHit, ok);
      case StreamEnd(_, _) => StreamMessageFollows(s, message, capHit, ok);
      case Flushed(_, _, _, _, _) => StreamMessageFollows(s, message, capHit, ok);
      case Load(crn, backed) => LoadFollows(s, crn, backed);
      case Loaded(crn, count, evicted) => LoadedFollows(s, crn, count, evicted);
      case Tick(epoch) => TickFollows(s, epoch, capHit, ok);
      case DispatchDone(crn, submitted) => DispatchDoneFollows(s, crn, submitted);
      case ViewInContext(crn) => ViewFollows(s, crn);
      case Restore(snaps) => RestoreFollows(s, snaps);
      case Evict => EvictFollows(s);
    }
  }

  lemma NextFollows(s: State, t: Step)
    ensures Follow(s.rows, Next(s, t).rows)
  {
    hide Follow, OnKey, OnAuth, OnMessage;
    match t.event {
      case Pressed(key) => KeyFollows(s, key, t.capHit, t.ok);
      case Authed(auth) => AuthFollows(s, auth, t.capHit, t.ok);
      case Received(message) => MessageFollows(s, message, t.capHit, t.ok);
    }
  }

  /** In every run the configured rows stay, in order and each the same instance of the same environment;
      the queries of a row are only ever added to, and its store is emptied only together with the query
      that filled it, so that a batch of an earlier one adds nothing any more. */
  lemma {:induction false} RowsStay(s: State, steps: seq<Step>)
    ensures Follow(s.rows, After(s, steps).rows)
    decreases |steps|
  {
    if steps == [] {
      SameFollows(s.rows);
    } else {
      var front := After(s, steps[..|steps| - 1]);
      RowsStay(s, steps[..|steps| - 1]);
      NextFollows(front, steps[|steps| - 1]);
      FollowTwice(s.rows, front.rows, Next(front, steps[|steps| - 1]).rows);
    }
  }
}
