/** Where a row's logs, and the size it declares of them, come from. */
module FetchLogs {
  import opened Options
  import opened FetchState

  // ---------------------------------------------------------------- what a row has of something

  function Logs(): Instance -> nat {
    (i: Instance) => i.live
  }

  function Sizes(): Instance -> nat {
    (i: Instance) => i.size
  }

  ghost predicate Measure(m: Instance -> nat) {
    m == Logs() || m == Sizes()
  }

  /** Every row that has some of it was there before, and had no less. */
  ghost predicate NoGain(m: Instance -> nat, rows: seq<Instance>, after: seq<Instance>) {
    forall i :: i in after && m(i) > 0 ==> Had(m, rows, i)
  }

  ghost predicate Had(m: Instance -> nat, rows: seq<Instance>, i: Instance) {
    exists j :: j in rows && j.crn == i.crn && m(j) >= m(i)
  }

  lemma NoGainTransitive(m: Instance -> nat, a: seq<Instance>, b: seq<Instance>, c: seq<Instance>)
    requires NoGain(m, a, b) && NoGain(m, b, c)
    ensures NoGain(m, a, c)
  {
    forall i | i in c && m(i) > 0
      ensures Had(m, a, i)
    {
      assert Had(m, b, i);
      var j :| j in b && j.crn == i.crn && m(j) >= m(i);
      assert Had(m, a, j);
    }
  }

  /** A rewrite of one row that adds none of it. */
  ghost predicate Sparing(m: Instance -> nat, f: Instance -> Instance) {
    forall i :: f(i).crn == i.crn && m(f(i)) <= m(i)
  }

  lemma MapGainsNone(m: Instance -> nat, rows: seq<Instance>, f: Instance -> Instance)
    requires Sparing(m, f)
    ensures NoGain(m, rows, Map(rows, f))
  {
    forall i | i in Map(rows, f) && m(i) > 0
      ensures Had(m, rows, i)
    {
      var k :| 0 <= k < |rows| && Map(rows, f)[k] == i;
      assert rows[k] in rows && f(rows[k]) == i;
    }
  }

  lemma UpdateGainsNone(m: Instance -> nat, rows: seq<Instance>, k: nat, row: Instance)
    requires k < |rows| && row.crn == rows[k].crn && m(row) <= m(rows[k])
    ensures NoGain(m, rows, rows[k := row])
  {
    forall i | i in rows[k := row] && m(i) > 0
      ensures Had(m, rows, i)
    {
      var n :| 0 <= n < |rows| && rows[k := row][n] == i;
      assert rows[n] in rows;
    }
  }

  lemma AtGainsNone(m: Instance -> nat, rows: seq<Instance>, crn: Crn, f: Instance -> Instance)
    requires Sparing(m, f)
    ensures NoGain(m, rows, At(rows, crn, f))
  {
    var at := First(rows, crn);
    if at.Some? {
      UpdateGainsNone(m, rows, at.value, f(rows[at.value]));
    }
  }

  lemma SubsetGainsNone(m: Instance -> nat, rows: seq<Instance>, after: seq<Instance>)
    requires forall i :: i in after ==> i in rows
    ensures NoGain(m, rows, after)
  {
    forall i | i in after
      ensures Had(m, rows, i)
    {
      assert i in rows;
    }
  }

  // ---------------------------------------------------------------- rewrites that spare

  lemma SparingPhases(m: Instance -> nat, env: Option<Environment>, to: Phase, race: Race)
    requires Measure(m)
    ensures Sparing(m, Authing(env, to)) && Sparing(m, Cancelling()) && Sparing(m, Stopping())
            && Sparing(m, Demoting(race))
  {
  }

  lemma SparingRounds(m: Instance -> nat, members: Members)
    requires Measure(m)
    ensures Sparing(m, Fetching()) && Sparing(m, Resting(members)) && Sparing(m, Resuming(members))
            && Sparing(m, Resetting())
  {
  }

  lemma SparingChoices(m: Instance -> nat, crns: set<Crn>, on: bool)
    requires Measure(m)
    ensures Sparing(m, EnablingAll()) && Sparing(m, EnablingOnly(crns)) && Sparing(m, Selecting(crns, on))
            && Sparing(m, Dispatching())
  {
  }

  lemma SparingMarks(m: Instance -> nat, submitted: bool, crns: set<Crn>, winner: Crn)
    requires Measure(m)
    ensures Sparing(m, Failing()) && Sparing(m, FinishDispatch(submitted)) && Sparing(m, Losing(crns, winner))
  {
  }

  // ---------------------------------------------------------------- settling and starting

  lemma SettleGainsNone(m: Instance -> nat, s: State, capHit: bool, ok: bool)
    requires Measure(m)
    ensures NoGain(m, s.rows, Settle(s, capHit, ok).rows)
  {
    SparingPhases(m, None, Error, s.race);
    SparingRounds(m, s.members);
    MapGainsNone(m, s.rows, Demoting(s.race));
    MapGainsNone(m, s.rows, Resting(s.members));
    SubsetGainsNone(m, s.rows, s.rows);
  }

  lemma SettlingGainsNone(m: Instance -> nat, s: State, before: seq<Instance>, capHit: bool, ok: bool)
    requires Measure(m) && NoGain(m, before, s.rows)
    ensures NoGain(m, before, Settle(s, capHit, ok).rows)
  {
    SettleGainsNone(m, s, capHit, ok);
    NoGainTransitive(m, before, s.rows, Settle(s, capHit, ok).rows);
  }

  lemma EndWatchGainsNone(m: Instance -> nat, s: State, ok: bool)
    requires Measure(m)
    ensures NoGain(m, s.rows, EndWatch(s, ok).rows)
  {
    SparingPhases(m, None, Error, s.race);
    MapGainsNone(m, s.rows, Demoting(s.race));
    SubsetGainsNone(m, s.rows, s.rows);
  }

  lemma StopGainsNone(m: Instance -> nat, s: State)
    requires Measure(m)
    ensures NoGain(m, s.rows, StopWatch(s).rows)
  {
    SparingPhases(m, None, Error, s.race);
    MapGainsNone(m, s.rows, Stopping());
    SubsetGainsNone(m, s.rows, s.rows);
  }

  lemma SilenceGainsNone(m: Instance -> nat, s: State)
    requires Measure(m)
    ensures NoGain(m, s.rows, Silenced(s).rows)
  {
    var stopped := StopWatch(s).rows;
    var authed := Map(stopped, Authing(None, Cancelled));
    SparingPhases(m, None, Cancelled, s.race);
    StopGainsNone(m, s);
    MapGainsNone(m, stopped, Authing(None, Cancelled));
    MapGainsNone(m, authed, Cancelling());
    NoGainTransitive(m, s.rows, stopped, authed);
    NoGainTransitive(m, s.rows, authed, Silenced(s).rows);
  }

  lemma SourcesGainNone(m: Instance -> nat, s: State, before: seq<Instance>, opens: bool)
    requires Measure(m) && NoGain(m, before, s.rows)
    ensures NoGain(m, before, StartFetchWithSources(s, opens).rows)
  {
    if opens {
      SparingRounds(m, s.members);
      MapGainsNone(m, s.rows, Fetching());
      NoGainTransitive(m, before, s.rows, Map(s.rows, Fetching()));
    }
  }

  lemma StartGainsNone(m: Instance -> nat, s: State, before: seq<Instance>, opens: bool)
    requires Measure(m) && NoGain(m, before, s.rows)
    ensures NoGain(m, before, StartFetch(s, opens).rows)
  {
    var rows := Configured(s.rows);
    SubsetGainsNone(m, s.rows, rows);
    NoGainTransitive(m, before, s.rows, rows);
    SourcesGainNone(m, s.(rows := rows, members := Only(EnabledCrns(rows), [])), before, opens);
  }

  // ---------------------------------------------------------------- keys

  lemma RaceGainsNone(m: Instance -> nat, s: State, opens: bool)
    requires Measure(m)
    ensures NoGain(m, s.rows, StartFirstFetch(s, opens).rows)
  {
    SparingChoices(m, {}, false);
    MapGainsNone(m, s.rows, EnablingAll());
    SubsetGainsNone(m, s.rows, s.rows);
    StartGainsNone(m, Racing(Willing(s)), s.rows, opens);
  }

  lemma WatchGainsNone(m: Instance -> nat, s: State, opens: bool, capHit: bool, ok: bool)
    requires Measure(m)
    ensures NoGain(m, s.rows, ToggleWatch(s, opens, capHit, ok).rows)
  {
    SubsetGainsNone(m, s.rows, s.rows);
    if s.mode.watching {
      StopGainsNone(m, s);
      SettlingGainsNone(m, StopWatch(s), s.rows, capHit, ok);
    } else if AllDone(s.rows) {
      StartGainsNone(m, ForWatch(s), s.rows, opens);
    }
  }

  lemma CancelGainsNone(m: Instance -> nat, s: State, capHit: bool, ok: bool)
    requires Measure(m)
    ensures NoGain(m, s.rows, CancelAllFetches(s, capHit, ok).rows)
  {
    SilenceGainsNone(m, s);
    SettlingGainsNone(m, Silenced(s), s.rows, capHit, ok);
  }

  lemma RowGainsNone(m: Instance -> nat, s: State, k: nat)
    requires Measure(m) && k < |s.rows|
    ensures NoGain(m, s.rows, s.rows[k := ToggleRow(s.rows[k])]) && NoGain(m, s.rows, s.rows[k := RetryRow(s.rows[k])])
  {
    UpdateGainsNone(m, s.rows, k, ToggleRow(s.rows[k]));
    UpdateGainsNone(m, s.rows, k, RetryRow(s.rows[k]));
  }

  lemma RowsGainNone(m: Instance -> nat, s: State, visible: set<Crn>)
    requires Measure(m)
    ensures NoGain(m, s.rows, ToggleAllVisible(s, visible).rows) && NoGain(m, s.rows, Dispatch(s).rows)
  {
    var on := !AllVisibleEnabled(s.rows, visible);
    SparingChoices(m, visible, on);
    MapGainsNone(m, s.rows, Selecting(visible, on));
    MapGainsNone(m, s.rows, Dispatching());
    SubsetGainsNone(m, s.rows, s.rows);
  }

  lemma KeyGainsNone(m: Instance -> nat, s: State, key: Key, capHit: bool, ok: bool)
    requires Measure(m)
    ensures NoGain(m, s.rows, OnKey(s, key, capHit, ok).rows)
  {
    SubsetGainsNone(m, s.rows, s.rows);
    match key {
      case FetchKey(opens) => StartGainsNone(m, s, s.rows, opens);
      case FirstFetchKey(opens) => RaceGainsNone(m, s, opens);
      case WatchKey(opens) => WatchGainsNone(m, s, opens, capHit, ok);
      case CancelKey => CancelGainsNone(m, s, capHit, ok);
      case ToggleKey(k) =>
        if k < |s.rows| {
          RowGainsNone(m, s, k);
        }
      case SelectAllKey(visible) => RowsGainNone(m, s, visible);
      case RetryKey(k) =>
        if k < |s.rows| {
          RowGainsNone(m, s, k);
        }
      case DispatchKey => RowsGainNone(m, s, {});
    }
  }

  // ---------------------------------------------------------------- authentication

  lemma EnvGainsNone(m: Instance -> nat, s: State, env: Environment, to: Phase, capHit: bool, ok: bool)
    requires Measure(m)
    ensures NoGain(m, s.rows, SettleEnv(s, env, to, capHit, ok).rows)
  {
    SparingPhases(m, Some(env), to, s.race);
    MapGainsNone(m, s.rows, Authing(Some(env), to));
    SettlingGainsNone(m, s.(rows := Map(s.rows, Authing(Some(env), to))), s.rows, capHit, ok);
  }

  lemma TokenGainsNone(m: Instance -> nat, s: State, crn: Crn, generation: nat)
    requires Measure(m)
    ensures NoGain(m, s.rows, OnMemberAuthResolved(s, crn, generation).rows)
  {
    var at := First(s.rows, crn);
    SubsetGainsNone(m, s.rows, s.rows);
    if at.Some? {
      UpdateGainsNone(m, s.rows, at.value, StartQuery(s.rows[at.value]));
    }
  }

  lemma FailureGainsNone(m: Instance -> nat, s: State, crn: Crn, generation: nat, capHit: bool, ok: bool)
    requires Measure(m)
    ensures NoGain(m, s.rows, OnMemberAuthFailed(s, crn, generation, capHit, ok).rows)
  {
    SubsetGainsNone(m, s.rows, s.rows);
    SparingMarks(m, false, {}, 0);
    AtGainsNone(m, s.rows, crn, Failing());
    SettlingGainsNone(m, Failed(s, crn), s.rows, capHit, ok);
  }

  lemma AuthGainsNone(m: Instance -> nat, s: State, auth: Auth, capHit: bool, ok: bool)
    requires Measure(m)
    ensures NoGain(m, s.rows, OnAuth(s, auth, capHit, ok).rows)
  {
    SubsetGainsNone(m, s.rows, s.rows);
    match auth {
      case Token(crn, generation) => TokenGainsNone(m, s, crn, generation);
      case TokenFailed(crn, generation) => FailureGainsNone(m, s, crn, generation, capHit, ok);
      case EnvFailed(env, _) => EnvGainsNone(m, s, env, Error, capHit, ok);
      case EnvCancelled(env, _) => EnvGainsNone(m, s, env, Cancelled, capHit, ok);
      case PasscodeFailed(env) => EnvGainsNone(m, s, env, Error, capHit, ok);
      case PasscodeCancelled(env) => EnvGainsNone(m, s, env, Enabled, capHit, ok);
      case PasscodeAccepted(_) => SettleGainsNone(m, s, capHit, ok);
    }
  }

  // ---------------------------------------------------------------- other messages

  lemma HandOverGainsNone(m: Instance -> nat, s: State, k: nat)
    requires Measure(m) && k < |s.rows|
    ensures NoGain(m, s.rows, HandOver(s, k).rows)
  {
    var row := s.rows[k];
    SubsetGainsNone(m, s.rows, s.rows);
    UpdateGainsNone(m, s.rows, k, ClearStore(row).(flushed := row.live));
  }

  lemma DoneGainsNone(m: Instance -> nat, rows: seq<Instance>, k: nat, errs: bool)
    requires Measure(m) && k < |rows|
    ensures NoGain(m, rows, rows[k := StreamDone(rows[k], errs)])
  {
    UpdateGainsNone(m, rows, k, StreamDone(rows[k], errs));
  }

  lemma EndedGainsNone(m: Instance -> nat, s: State, crn: Crn, errs: bool)
    requires Measure(m)
    ensures NoGain(m, s.rows, Ended(s, crn, errs).rows)
  {
    var at := First(s.rows, crn);
    if at.None? {
      SubsetGainsNone(m, s.rows, s.rows);
    } else {
      var done := s.rows[at.value := StreamDone(s.rows[at.value], errs)];
      DoneGainsNone(m, s.rows, at.value, errs);
      HandOverGainsNone(m, s.(rows := done), at.value);
      NoGainTransitive(m, s.rows, done, Ended(s, crn, errs).rows);
    }
  }

  lemma StreamEndGainsNone(m: Instance -> nat, s: State, crn: Crn, errs: bool, capHit: bool, ok: bool)
    requires Measure(m)
    ensures NoGain(m, s.rows, OnLogStreamDone(s, crn, errs, capHit, ok).rows)
  {
    EndedGainsNone(m, s, crn, errs);
    SettlingGainsNone(m, Ended(s, crn, errs), s.rows, capHit, ok);
  }

  lemma TickGainsNone(m: Instance -> nat, s: State, epoch: nat, capHit: bool, ok: bool)
    requires Measure(m)
    ensures NoGain(m, s.rows, OnWatchTick(s, epoch, capHit, ok).rows)
  {
    SubsetGainsNone(m, s.rows, s.rows);
    SparingRounds(m, s.members);
    EndWatchGainsNone(m, s, ok);
    MapGainsNone(m, s.rows, Resuming(s.members));
  }

  lemma CollectGainsNone(m: Instance -> nat, s: State, crns: set<Crn>, opens: bool)
    requires Measure(m)
    ensures NoGain(m, s.rows, StartCollect(s, crns, opens).rows)
  {
    SubsetGainsNone(m, s.rows, s.rows);
    ChosenGainNone(m, s.rows, crns);
    SourcesGainNone(m, ForCollect(s, crns), s.rows, opens);
  }

  lemma ChosenGainNone(m: Instance -> nat, rows: seq<Instance>, crns: set<Crn>)
    requires Measure(m)
    ensures NoGain(m, rows, Map(Configured(rows), EnablingOnly(crns)))
  {
    SparingChoices(m, crns, false);
    SubsetGainsNone(m, rows, Configured(rows));
    MapGainsNone(m, Configured(rows), EnablingOnly(crns));
    NoGainTransitive(m, rows, Configured(rows), Map(Configured(rows), EnablingOnly(crns)));
  }

  lemma EvictGainsNone(m: Instance -> nat, s: State)
    requires Measure(m)
    ensures NoGain(m, s.rows, OnEvict(s).rows)
  {
    SparingRounds(m, s.members);
    SubsetGainsNone(m, s.rows, Configured(s.rows));
    MapGainsNone(m, Configured(s.rows), Resetting());
    NoGainTransitive(m, s.rows, Configured(s.rows), OnEvict(s).rows);
  }

  lemma DispatchDoneGainsNone(m: Instance -> nat, s: State, crn: Crn, submitted: bool)
    requires Measure(m)
    ensures NoGain(m, s.rows, OnDispatchInstanceDone(s, crn, submitted).rows)
  {
    SubsetGainsNone(m, s.rows, s.rows);
    SparingMarks(m, submitted, {}, 0);
    AtGainsNone(m, s.rows, crn, FinishDispatch(submitted));
  }

  lemma ViewGainsNone(m: Instance -> nat, s: State, crn: Crn)
    requires Measure(m)
    ensures NoGain(m, s.rows, Map(s.rows, EnablingOnly({crn})))
  {
    SparingChoices(m, {crn}, false);
    MapGainsNone(m, s.rows, EnablingOnly({crn}));
  }

  /** The messages that add neither logs nor sizes. */
  predicate Plain(message: Message) {
    !message.Stream? && !message.Loaded? && !message.Flushed? && !message.Restore?
  }

  lemma MessageGainsNone(m: Instance -> nat, s: State, message: Message, capHit: bool, ok: bool)
    requires Measure(m) && Plain(message)
    ensures NoGain(m, s.rows, OnMessage(s, message, capHit, ok).rows)
  {
    match message {
      case Collect(crns, opens) => CollectGainsNone(m, s, crns, opens);
      case StreamEnd(crn, errs) => StreamEndGainsNone(m, s, crn, errs, capHit, ok);
      case Load(_, _) => SubsetGainsNone(m, s.rows, s.rows);
      case Tick(epoch) => TickGainsNone(m, s, epoch, capHit, ok);
      case DispatchDone(crn, submitted) => DispatchDoneGainsNone(m, s, crn, submitted);
      case ViewInContext(crn) => ViewGainsNone(m, s, crn);
      case Evict => EvictGainsNone(m, s);
    }
  }

  // ---------------------------------------------------------------- logs

  lemma {:induction false} AppendedGainsNone(rows: seq<Instance>, snaps: seq<Saved>)
    ensures NoGain(Logs(), rows, AppendReadOnly(rows, snaps))
    decreases |snaps|
  {
    if snaps == [] {
      SubsetGainsNone(Logs(), rows, rows);
    } else {
      var more := rows + [SavedRow(snaps[0])];
      SubsetGainsNone(Logs(), rows, rows);
      AppendedGainsNone(rows, snaps[1..]);
      AppendedGainsNone(more, snaps[1..]);
      SavedRowEmpty(rows, snaps[0]);
      NoGainTransitive(Logs(), rows, more, AppendReadOnly(more, snaps[1..]));
    }
  }

  lemma SavedRowEmpty(rows: seq<Instance>, saved: Saved)
    ensures NoGain(Logs(), rows, rows + [SavedRow(saved)])
  {
    forall i | i in rows + [SavedRow(saved)] && Logs()(i) > 0
      ensures Had(Logs(), rows, i)
    {
      assert i in rows;
    }
  }

  lemma RestoreGainsNone(s: State, snaps: seq<Saved>)
    ensures NoGain(Logs(), s.rows, OnSnapshotRestore(s, snaps).rows)
  {
    var stopped := StopWatch(s).rows;
    var restored := Map(Configured(stopped), Restoring(snaps));
    StopGainsNone(Logs(), s);
    SubsetGainsNone(Logs(), stopped, Configured(stopped));
    RestoringSpares(snaps);
    MapGainsNone(Logs(), Configured(stopped), Restoring(snaps));
    AppendedGainsNone(restored, snaps);
    NoGainTransitive(Logs(), s.rows, stopped, Configured(stopped));
    NoGainTransitive(Logs(), s.rows, Configured(stopped), restored);
    NoGainTransitive(Logs(), s.rows, restored, AppendReadOnly(restored, snaps));
  }

  lemma RestoringSpares(snaps: seq<Saved>)
    ensures Sparing(Logs(), Restoring(snaps))
  {
  }

  lemma SizingSpares(bytes: Bytes)
    ensures Sparing(Logs(), Sizing(bytes))
  {
  }

  lemma FlushedGainsNone(s: State, k: nat, compressed: bool, bytes: Bytes, io: bool, backed: bool, capHit: bool,
                         ok: bool)
    requires k < |s.books.messages|
    ensures NoGain(Logs(), s.rows, OnInstanceFlushed(s, k, compressed, bytes, io, backed, capHit, ok).rows)
  {
    SubsetGainsNone(Logs(), s.rows, s.rows);
    SizingSpares(bytes);
    AtGainsNone(Logs(), s.rows, s.books.messages[k].crn, Sizing(bytes));
    SettlingGainsNone(Logs(), Delivered(s, k, compressed, bytes, io, backed), s.rows, capHit, ok);
  }

  lemma MessageAddsNone(s: State, message: Message, capHit: bool, ok: bool)
    requires !message.Stream? && !message.Loaded?
    ensures NoGain(Logs(), s.rows, OnMessage(s, message, capHit, ok).rows)
  {
    if Plain(message) {
      MessageGainsNone(Logs(), s, message, capHit, ok);
    } else if message.Restore? {
      RestoreGainsNone(s, message.snaps);
    } else if message.at < |s.books.messages| {
      FlushedGainsNone(s, message.at, message.compressed, message.bytes, message.io, message.backed, capHit, ok);
    } else {
      SubsetGainsNone(Logs(), s.rows, s.rows);
    }
  }

  /** Logs come from batches and from loads alone: no other event leaves any row with more than it had. */
  lemma OnlyBatchesAdd(s: State, t: Step)
    requires t.event.Received? ==> !t.event.message.Stream? && !t.event.message.Loaded?
    ensures NoGain(Logs(), s.rows, Next(s, t).rows)
  {
    match t.event {
      case Pressed(key) => KeyGainsNone(Logs(), s, key, t.capHit, t.ok);
      case Authed(auth) => AuthGainsNone(Logs(), s, auth, t.capHit, t.ok);
      case Received(message) => MessageAddsNone(s, message, t.capHit, t.ok);
    }
  }

  /** The row that takes a batch, if any does: the first one of its CRN, streaming under that query and
      not cancelled; in a race also an enabled candidate, and the winner if there is one. */
  predicate TakesBatch(s: State, crn: Crn, id: nat, k: nat) {
    && First(s.rows, crn) == Some(k) && Accepts(s, crn, id)
    && id == s.rows[k].query && !s.rows[k].phase.Cancelled?
  }

  /** A batch adds its logs, as many as there is room for, to the row that takes it, and to no other. */
  lemma BatchAdds(s: State, crn: Crn, id: nat, count: nat, room: nat, warns: bool, errs: bool, k: nat)
    requires k < |s.rows|
    ensures var rows := OnLogStream(s, crn, id, count, room, warns, errs).rows;
            && |rows| == |s.rows|
            && rows[k].live == s.rows[k].live + if TakesBatch(s, crn, id, k) then Min(count, room) else 0
  {
    if Accepts(s, crn, id) && Elects(s, count) {
      ElectionKeeps(s, crn);
    }
  }

  /** An election takes no logs, and leaves the elected row alone. */
  lemma ElectionKeeps(s: State, crn: Crn)
    requires s.race.candidates.Some?
    ensures var rows := Elect(s, crn).rows;
            && |rows| == |s.rows| && First(rows, crn) == First(s.rows, crn)
            && forall k :: 0 <= k < |rows| ==>
                 rows[k].live == s.rows[k].live && (s.rows[k].crn == crn ==> rows[k] == s.rows[k])
  {
    SameFirst(s.rows, Elect(s, crn).rows, crn);
  }

  /** A load that is ready leaves its row with what was loaded, empties the row that was loaded before
      it, logs it had not handed over included, and touches no other. */
  lemma LoadReplaces(s: State, crn: Crn, count: nat, evicted: Option<Crn>, k: nat)
    requires k < |s.rows|
    ensures var rows := OnLoadReady(s, crn, count, evicted).rows;
            && |rows| == |s.rows|
            && rows[k].live == if First(s.rows, crn) == Some(k) then count
            else if evicted.Some? && First(s.rows, evicted.value) == Some(k) then 0
            else s.rows[k].live
  {
    if evicted.Some? && evicted.value != crn {
      SameFirst(s.rows, At(s.rows, evicted.value, Clearing()), crn);
    }
  }

  // ---------------------------------------------------------------- sizes

  lemma StreamSizes(s: State, crn: Crn, id: nat, count: nat, room: nat, warns: bool, errs: bool)
    ensures NoGain(Sizes(), s.rows, OnLogStream(s, crn, id, count, room, warns, errs).rows)
  {
    var elected := if Elects(s, count) then Elect(s, crn) else s;
    SubsetGainsNone(Sizes(), s.rows, s.rows);
    if Elects(s, count) {
      SparingMarks(Sizes(), false, s.race.candidates.value, crn);
      MapGainsNone(Sizes(), s.rows, Losing(s.race.candidates.value, crn));
    }
    TakingSpares(id, count, room, warns, errs);
    AtGainsNone(Sizes(), elected.rows, crn, Taking(id, count, room, warns, errs));
    NoGainTransitive(Sizes(), s.rows, elected.rows, At(elected.rows, crn, Taking(id, count, room, warns, errs)));
  }

  lemma TakingSpares(id: nat, count: nat, room: nat, warns: bool, errs: bool)
    ensures Sparing(Sizes(), Taking(id, count, room, warns, errs))
  {
  }

  lemma LoadedSizes(s: State, crn: Crn, count: nat, evicted: Option<Crn>)
    ensures NoGain(Sizes(), s.rows, OnLoadReady(s, crn, count, evicted).rows)
  {
    var rows := if evicted.Some? && evicted.value != crn then At(s.rows, evicted.value, Clearing()) else s.rows;
    FillingSpares(count);
    SubsetGainsNone(Sizes(), s.rows, s.rows);
    if evicted.Some? {
      AtGainsNone(Sizes(), s.rows, evicted.value, Clearing());
    }
    AtGainsNone(Sizes(), rows, crn, Filling(count));
    NoGainTransitive(Sizes(), s.rows, rows, At(rows, crn, Filling(count)));
  }

  lemma FillingSpares(count: nat)
    ensures Sparing(Sizes(), Filling(count)) && Sparing(Sizes(), Clearing())
  {
  }

  lemma MessageSizesNone(s: State, message: Message, capHit: bool, ok: bool)
    requires !message.Flushed? && !message.Restore?
    ensures NoGain(Sizes(), s.rows, OnMessage(s, message, capHit, ok).rows)
  {
    if Plain(message) {
      MessageGainsNone(Sizes(), s, message, capHit, ok);
    } else if message.Stream? {
      StreamSizes(s, message.crn, message.id, message.count, message.room, message.warns, message.errs);
    } else {
      LoadedSizes(s, message.crn, message.count, message.evicted);
    }
  }

  /** Only a delivered flush, or a restored snapshot, gives a row a size. */
  lemma OnlyFlushesSize(s: State, t: Step)
    requires t.event.Received? ==> !t.event.message.Flushed? && !t.event.message.Restore?
    ensures NoGain(Sizes(), s.rows, Next(s, t).rows)
  {
    match t.event {
      case Pressed(key) => KeyGainsNone(Sizes(), s, key, t.capHit, t.ok);
      case Authed(auth) => AuthGainsNone(Sizes(), s, auth, t.capHit, t.ok);
      case Received(message) => MessageSizesNone(s, message, t.capHit, t.ok);
    }
  }
}
