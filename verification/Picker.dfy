/** The picker's event loop, its handlers updating the fields of one object in place: each of them
    takes the state to the one that the state machine of FetchState prescribes. */
module Picker {
  import opened Options
  import opened FetchState
  import opened FetchBooks

  class Model {
    var instances: seq<Instance>
    var container: Option<Container>
    var pendingFlushes: int
    var fetchEpoch: nat
    var fetching: bool
    var fetchCancelled: bool
    var collecting: bool
    var watching: bool
    var watchEpoch: nat
    var roundCount: nat
    var authGeneration: nat
    var candidates: Option<set<Crn>>
    var winner: Option<Crn>
    var members: Members
    var pendingLoads: set<Crn>

    /** The flush messages posted and not yet delivered. */
    var messages: seq<Flush>
    /** What became of the current container's flushes, and the snapshots published so far. */
    ghost var started: nat
    ghost var lost: nat
    ghost var journal: seq<Published>

    ghost function Accounting(): Books
      reads `container, `pendingFlushes, `fetchEpoch, `messages, `started, `lost, `journal
    {
      Books(container, pendingFlushes, fetchEpoch, messages, started, lost, journal)
    }

    function Flags(): Mode
      reads `fetching, `fetchCancelled, `collecting, `watching, `watchEpoch, `roundCount, `authGeneration
    {
      Mode(fetching, fetchCancelled, collecting, watching, watchEpoch, roundCount, authGeneration)
    }

    /** The state of the state machine that this object is in. */
    ghost function Abs(): State
      reads this
    {
      State(instances, Accounting(), Flags(), Race(candidates, winner), members, pendingLoads)
    }

    constructor (configured: seq<(Crn, Environment)>)
      ensures Abs() == Init(configured)
    {
      instances := seq(|configured|, k requires 0 <= k < |configured| =>
        Instance(configured[k].0, configured[k].1, Disabled, 0, 0, 0, false, 0, false));
      container, pendingFlushes, fetchEpoch := None, 0, 0;
      fetching, fetchCancelled, collecting, watching := false, false, false, false;
      watchEpoch, roundCount, authGeneration := 0, 0, 0;
      candidates, winner, members, pendingLoads := None, None, Everyone, {};
      messages, started, lost, journal := [], 0, 0, [];
    }

    // -------------------------------------------------------------- loops over the rows

    method Find(crn: Crn) returns (r: Option<nat>)
      ensures r == First(instances, crn)
    {
      for k := 0 to |instances|
        invariant forall j :: 0 <= j < k ==> instances[j].crn != crn
      {
        if instances[k].crn == crn {
          return Some(k);
        }
      }
      r := None;
    }

    method UpdateAll(f: Instance -> Instance)
      modifies `instances
      ensures instances == Map(old(instances), f)
    {
      var n := |instances|;
      for k := 0 to n
        invariant |instances| == n == |old(instances)|
        invariant forall j :: 0 <= j < n ==> instances[j] == if j < k then f(old(instances)[j]) else old(instances)[j]
      {
        instances := instances[k := f(instances[k])];
      }
    }

    /** A rewrite of the first row of `crn`. */
    method UpdateAt(crn: Crn, f: Instance -> Instance)
      modifies `instances
      ensures instances == At(old(instances), crn, f)
    {
      var at := Find(crn);
      if at.Some? {
        instances := instances[at.value := f(instances[at.value])];
      }
    }

    method RemoveReadOnly()
      modifies `instances
      ensures instances == Configured(old(instances))
    {
      var kept, k := [], |instances|;
      while k > 0
        invariant 0 <= k <= |instances| && instances == old(instances)
        invariant kept == Configured(instances[k..])
      {
        k := k - 1;
        assert instances[k..][1..] == instances[k + 1..];
        if !instances[k].readOnly {
          kept := [instances[k]] + kept;
        }
      }
      assert instances[0..] == instances;
      instances := kept;
    }

    method EnabledRows() returns (crns: set<Crn>)
      ensures crns == EnabledCrns(instances)
    {
      crns := {};
      for k := 0 to |instances|
        invariant crns == EnabledCrns(instances[..k])
      {
        assert instances[..k + 1] == instances[..k] + [instances[k]];
        if IsEnabled(instances[k]) {
          crns := crns + {instances[k].crn};
        }
      }
      assert instances[..|instances|] == instances;
    }

    // -------------------------------------------------------------- finalization

    method CloseContainer(publishes: bool, logs: bool)
      requires container.Some?
      modifies `container, `fetching, `journal
      ensures Accounting() == Close(old(Accounting()), publishes, logs) && !fetching
    {
      if publishes {
        journal := journal + [Published(fetchEpoch, container.value.frames, logs, started, lost)];
      }
      container, fetching := None, false;
    }

    method FinishFirstFetch()
      modifies `instances, `candidates, `winner
      ensures instances == Map(old(instances), Demoting(Race(old(candidates), old(winner))))
      ensures candidates.None? && winner == if old(candidates).None? then old(winner) else None
    {
      ghost var rows := instances;
      if candidates.None? {
        assert rows == Map(rows, Demoting(Race(candidates, winner)));
        return;
      }
      UpdateAll(Demoting(Race(candidates, winner)));
      candidates, winner := None, None;
    }

    /** The container, if one is open, is closed: published if the fetch has logs or is a collect, and
        the state frame is accepted. */
    method FinalizeContainer(ok: bool)
      modifies `container, `fetching, `journal
      ensures Accounting() == Close(old(Accounting()), old(Publishes(Abs(), ok)), AnyLogs(instances))
      ensures fetching == (old(fetching) && old(container).None?)
    {
      if container.Some? {
        var hasLogs := AnyLogs(instances);
        CloseContainer((hasLogs || collecting) && Sound(instances, members) && container.value.writable && ok, hasLogs);
      }
    }

    method MaybeFinalizeFetch(ok: bool)
      modifies `instances, `container, `fetching, `collecting, `candidates, `winner, `journal
      ensures Abs() == MaybeFinalize(old(Abs()), ok)
    {
      if !AllDone(instances) || pendingFlushes != 0 {
        return;
      }
      FinalizeContainer(ok);
      collecting := false;
      FinishFirstFetch();
    }

    // -------------------------------------------------------------- watch rounds

    method EndWatch(ok: bool)
      modifies `instances, `container, `fetching, `collecting, `candidates, `winner, `journal,
               `watching, `watchEpoch
      ensures Abs() == FetchState.EndWatch(old(Abs()), ok)
    {
      watching, watchEpoch := false, watchEpoch + 1;
      MaybeFinalizeFetch(ok);
    }

    method EvaluateWatchRound(capHit: bool, ok: bool)
      modifies `instances, `container, `fetching, `collecting, `candidates, `winner, `journal,
               `watching, `watchEpoch, `roundCount
      ensures Abs() == FetchState.EvaluateWatchRound(old(Abs()), capHit, ok)
    {
      roundCount := roundCount + 1;
      assert Abs() == CountRound(old(Abs()));
      if !AnyEmpty(instances, members) || capHit {
        EndWatch(ok);
      } else {
        UpdateAll(Resting(members));
      }
    }

    /** The gate at the end of every handler that may end a fetch. */
    method Settle(capHit: bool, ok: bool)
      modifies `instances, `container, `fetching, `collecting, `candidates, `winner, `journal,
               `watching, `watchEpoch, `roundCount
      ensures Abs() == FetchState.Settle(old(Abs()), capHit, ok)
    {
      if !AllDone(instances) {
        return;
      }
      if watching {
        if pendingFlushes == 0 {
          EvaluateWatchRound(capHit, ok);
        }
        return;
      }
      MaybeFinalizeFetch(ok);
    }

    method StopWatch()
      modifies `instances, `watching, `watchEpoch
      ensures Abs() == FetchState.StopWatch(old(Abs()))
    {
      if watching {
        watching, watchEpoch := false, watchEpoch + 1;
        UpdateAll(Stopping());
        assert Flags() == WatchEnded(old(Flags()));
      }
    }

    method StartWatchRound(ok: bool)
      modifies `instances, `container, `fetching, `collecting, `candidates, `winner, `journal,
               `watching, `watchEpoch
      ensures Abs() == FetchState.StartWatchRound(old(Abs()), ok)
    {
      if AnyWaiting(instances, members) {
        UpdateAll(Resuming(members));
      } else {
        EndWatch(ok);
      }
    }

    method OnWatchTick(epoch: nat, capHit: bool, ok: bool)
      modifies `instances, `container, `fetching, `collecting, `candidates, `winner, `journal,
               `watching, `watchEpoch
      ensures Abs() == FetchState.OnWatchTick(old(Abs()), epoch, capHit, ok)
    {
      if !watching || epoch != watchEpoch {
        return;
      }
      if capHit {
        EndWatch(ok);
      } else {
        StartWatchRound(ok);
      }
    }

    // -------------------------------------------------------------- starting fetches

    method Abandon()
      modifies `container, `pendingFlushes, `fetchEpoch, `fetching, `pendingLoads, `started, `lost
      ensures Accounting() == Reopen(old(Accounting()), false) && !fetching && pendingLoads == {}
    {
      pendingLoads := {};
      container, fetching := None, false;
      fetchEpoch, pendingFlushes := fetchEpoch + 1, 0;
      started, lost := 0, 0;
    }

    method StartFetchWithSources(opens: bool) returns (ok: bool)
      modifies `instances, `container, `pendingFlushes, `fetchEpoch, `fetching, `fetchCancelled,
               `authGeneration, `pendingLoads, `started, `lost
      ensures ok == opens && Abs() == FetchState.StartFetchWithSources(old(Abs()), opens)
    {
      Abandon();
      if !opens {
        assert Flags() == old(Flags()).(fetching := false);
        return false;
      }
      container := Some(Container(fetchEpoch, true, []));
      fetching, fetchCancelled, authGeneration := true, false, authGeneration + 1;
      UpdateAll(Fetching());
      assert Accounting() == Reopen(old(Accounting()), true);
      ok := true;
    }

    method StartFetch(opens: bool) returns (ok: bool)
      modifies `instances, `container, `pendingFlushes, `fetchEpoch, `fetching, `fetchCancelled,
               `authGeneration, `pendingLoads, `started, `lost, `members
      ensures ok == opens && Abs() == FetchState.StartFetch(old(Abs()), opens)
    {
      RemoveReadOnly();
      var crns := EnabledRows();
      members := Only(crns, []);
      ok := StartFetchWithSources(opens);
    }

    method StartFirstFetch(opens: bool)
      modifies `instances, `container, `pendingFlushes, `fetchEpoch, `fetching, `fetchCancelled,
               `authGeneration, `pendingLoads, `started, `lost, `members, `candidates, `winner
      ensures Abs() == FetchState.StartFirstFetch(old(Abs()), opens)
    {
      if !AnyEnabled(instances) {
        UpdateAll(EnablingAll());
      }
      assert Abs() == Willing(old(Abs()));
      if !AnyEnabled(instances) {
        return;
      }
      var crns := EnabledRows();
      candidates, winner := Some(crns), None;
      assert Abs() == Racing(Willing(old(Abs())));
      var ok := StartFetch(opens);
      if !ok {
        candidates := None;
      }
    }

    method EnableForArchive(crns: set<Crn>)
      modifies `instances, `members
      ensures Abs() == ForArchive(old(Abs()), crns)
    {
      RemoveReadOnly();
      UpdateAll(EnablingOnly(crns));
      members := Only(crns, []);
    }

    method StartCollect(crns: set<Crn>, opens: bool)
      modifies `instances, `container, `pendingFlushes, `fetchEpoch, `fetching, `fetchCancelled,
               `authGeneration, `pendingLoads, `started, `lost, `members, `collecting
      ensures Abs() == FetchState.StartCollect(old(Abs()), crns, opens)
    {
      if fetching || watching || !AllConfigured(instances, crns) {
        return;
      }
      EnableForArchive(crns);
      collecting := true;
      assert Abs() == ForCollect(old(Abs()), crns);
      var ok := StartFetchWithSources(opens);
      if !ok {
        collecting := false;
      }
    }

    method StartWatch(opens: bool)
      modifies `instances, `container, `pendingFlushes, `fetchEpoch, `fetching, `fetchCancelled,
               `authGeneration, `pendingLoads, `started, `lost, `members, `watching, `watchEpoch, `roundCount
      ensures Abs() == FetchState.StartWatch(old(Abs()), opens)
    {
      watching, watchEpoch, roundCount := true, watchEpoch + 1, 0;
      assert Abs() == ForWatch(old(Abs()));
      var ok := StartFetch(opens);
      if !ok {
        watching := false;
      }
    }

    method ToggleWatch(opens: bool, capHit: bool, ok: bool)
      modifies this
      ensures Abs() == FetchState.ToggleWatch(old(Abs()), opens, capHit, ok)
    {
      if watching {
        StopWatch();
        Settle(capHit, ok);
        return;
      }
      if AllDone(instances) {
        StartWatch(opens);
      }
    }

    // -------------------------------------------------------------- streams and flushes

    method Elect(crn: Crn)
      requires candidates.Some?
      modifies `instances, `winner, `authGeneration
      ensures Abs() == FetchState.Elect(old(Abs()), crn)
    {
      winner, authGeneration := Some(crn), authGeneration + 1;
      UpdateAll(Losing(candidates.value, crn));
    }

    method OnLogStream(crn: Crn, id: nat, count: nat, room: nat, warns: bool, errs: bool)
      modifies `instances, `winner, `authGeneration
      ensures Abs() == FetchState.OnLogStream(old(Abs()), crn, id, count, room, warns, errs)
    {
      if candidates.Some? {
        var at := Find(crn);
        if crn !in candidates.value || at.None? || !IsEnabled(instances[at.value]) || id != instances[at.value].query
           || (winner.Some? && winner != Some(crn)) {
          return;
        }
        if winner.None? && count > 0 {
          Elect(crn);
        }
      }
      UpdateAt(crn, Taking(id, count, room, warns, errs));
    }

    method HandOver(at: nat)
      requires at < |instances|
      modifies `instances, `pendingFlushes, `messages, `started
      ensures Abs() == FetchState.HandOver(old(Abs()), at)
    {
      var row := instances[at];
      if container.Some? && row.live > 0 {
        instances := instances[at := ClearStore(row).(flushed := row.live)];
        PostFlush(row.crn);
      }
    }

    /** A flush is started, stamped with this fetch's epoch. */
    method PostFlush(crn: Crn)
      modifies `pendingFlushes, `messages, `started
      ensures Accounting() == Post(old(Accounting()), crn)
    {
      pendingFlushes := pendingFlushes + 1;
      messages := messages + [Flush(crn, fetchEpoch)];
      started := started + 1;
    }

    method OnLogStreamDone(crn: Crn, errs: bool, capHit: bool, ok: bool)
      modifies `instances, `container, `fetching, `collecting, `candidates, `winner, `journal,
               `watching, `watchEpoch, `roundCount, `pendingFlushes, `messages, `started
      ensures Abs() == FetchState.OnLogStreamDone(old(Abs()), crn, errs, capHit, ok)
    {
      var at := Find(crn);
      if at.Some? {
        instances := instances[at.value := StreamDone(instances[at.value], errs)];
        HandOver(at.value);
      }
      assert Abs() == Ended(old(Abs()), crn, errs);
      Settle(capHit, ok);
    }

    /** The write of a flushed frame into the open container. */
    method WriteFrame(k: nat, compressed: bool, io: bool) returns (written: bool)
      requires k < |messages| && container.Some?
      modifies `container, `pendingFlushes, `messages, `lost
      ensures Accounting() == Deliver(old(Accounting()), k, compressed, First(instances, old(messages)[k].crn).Some?,
                                      io)
      ensures written == (lost == old(lost))
    {
      var msg := messages[k];
      var at := Find(msg.crn);
      written := compressed && at.Some? && container.value.writable && !Holds(container.value.frames, msg.crn) && io;
      if written {
        container := Some(Container(container.value.epoch, true, container.value.frames + [msg]));
      } else {
        if compressed && at.Some? && !Holds(container.value.frames, msg.crn) {
          container := Some(container.value.(writable := false));
        }
        lost := lost + 1;
      }
      pendingFlushes := pendingFlushes - 1;
      messages := Without(messages, k);
    }

    method OpenInstance(crn: Crn, backed: bool)
      modifies `pendingLoads
      ensures Abs() == OpenRow(old(Abs()), crn, backed)
    {
      var at := Find(crn);
      if !backed || at.None? {
        return;
      }
      var row := instances[at.value];
      if row.readOnly || row.flushed > 0 || row.phase.Error? || row.phase.Disabled? || row.phase.Cancelled?
         || row.live > 0 {
        return;
      }
      pendingLoads := pendingLoads + {crn};
    }

    method AnswerLoad(crn: Crn, written: bool, backed: bool)
      modifies `pendingLoads
      ensures Abs() == Answer(old(Abs()), crn, written, backed)
    {
      var queued := crn in pendingLoads;
      pendingLoads := pendingLoads - {crn};
      if queued && written {
        OpenInstance(crn, backed);
      }
    }

    /** The delivery itself: the frame, the row's size, and the load that waits. */
    method DeliverFlush(k: nat, compressed: bool, bytes: Bytes, io: bool, backed: bool)
      requires k < |messages| && container.Some?
      modifies `instances, `container, `pendingFlushes, `messages, `lost, `pendingLoads
      ensures Abs() == Delivered(old(Abs()), k, compressed, bytes, io, backed)
    {
      var crn := messages[k].crn;
      var written := WriteFrame(k, compressed, io);
      if written {
        UpdateAt(crn, Sizing(bytes));
      }
      AnswerLoad(crn, written, backed);
    }

    /** Delivers a message of the current fetch: its container is open, as Accounts has it. */
    method OnInstanceFlushed(k: nat, compressed: bool, bytes: Bytes, io: bool, backed: bool, capHit: bool, ok: bool)
      requires k < |messages| && Accounts(Accounting())
      modifies `instances, `container, `fetching, `collecting, `candidates, `winner, `journal,
               `watching, `watchEpoch, `roundCount, `pendingFlushes, `messages, `lost, `pendingLoads
      ensures Abs() == FetchState.OnInstanceFlushed(old(Abs()), k, compressed, bytes, io, backed, capHit, ok)
    {
      if messages[k].epoch != fetchEpoch {
        messages := Without(messages, k);
        return;
      }
      DeliverAccounts(Accounting(), k, compressed, true, io);
      DeliverFlush(k, compressed, bytes, io, backed);
      Settle(capHit, ok);
    }

    /** A load fills its row's store, and empties the one that was loaded before. */
    method OnLoadReady(crn: Crn, count: nat, evicted: Option<Crn>)
      modifies `instances
      ensures Abs() == FetchState.OnLoadReady(old(Abs()), crn, count, evicted)
    {
      if evicted.Some? && evicted.value != crn {
        UpdateAt(evicted.value, Clearing());
      }
      UpdateAt(crn, Filling(count));
    }

    // -------------------------------------------------------------- cancelling, snapshots, selection

    method Silence()
      modifies `instances, `watching, `watchEpoch, `authGeneration, `fetchCancelled
      ensures Abs() == Silenced(old(Abs()))
    {
      fetchCancelled := true;
      StopWatch();
      authGeneration := authGeneration + 1;
      UpdateAll(Authing(None, Cancelled));
      UpdateAll(Cancelling());
    }

    method CancelAllFetches(capHit: bool, ok: bool)
      modifies `instances, `container, `fetching, `collecting, `candidates, `winner, `journal,
               `watching, `watchEpoch, `roundCount, `authGeneration, `fetchCancelled
      ensures Abs() == FetchState.CancelAllFetches(old(Abs()), capHit, ok)
    {
      Silence();
      Settle(capHit, ok);
      collecting, fetching := false, false;
    }

    /** One read-only row for each record of a CRN that has no row yet. */
    method AppendReadOnlyRows(snaps: seq<Saved>)
      modifies `instances
      ensures instances == AppendReadOnly(old(instances), snaps)
    {
      for k := 0 to |snaps|
        invariant AppendReadOnly(instances, snaps[k..]) == AppendReadOnly(old(instances), snaps)
      {
        assert snaps[k..][1..] == snaps[k + 1..];
        var at := Find(snaps[k].crn);
        if at.None? {
          if !snaps[k].parsable {
            return;
          }
          instances := instances + [SavedRow(snaps[k])];
        }
      }
    }

    method OnSnapshotRestore(snaps: seq<Saved>)
      modifies `instances, `watching, `watchEpoch, `members
      ensures Abs() == FetchState.OnSnapshotRestore(old(Abs()), snaps)
    {
      StopWatch();
      assert Abs() == FetchState.StopWatch(old(Abs()));
      RemoveReadOnly();
      UpdateAll(Restoring(snaps));
      AppendReadOnlyRows(snaps);
      members := Only(set m | m in snaps :: m.crn, snaps);
    }

    method EvictCurrentBacking()
      modifies `instances, `members
      ensures Abs() == OnEvict(old(Abs()))
    {
      RemoveReadOnly();
      members := Everyone;
      UpdateAll(Resetting());
    }

    method ToggleAt(k: nat)
      modifies `instances
      ensures Abs() == OnKey(old(Abs()), ToggleKey(k), false, true)
    {
      if k < |instances| {
        instances := instances[k := ToggleRow(instances[k])];
      }
    }

    method RetryAt(k: nat)
      modifies `instances
      ensures Abs() == OnKey(old(Abs()), RetryKey(k), false, true)
    {
      if k < |instances| {
        instances := instances[k := RetryRow(instances[k])];
      }
    }

    method ViewInContext(crn: Crn)
      modifies `instances
      ensures Abs() == old(Abs()).(rows := Map(old(instances), EnablingOnly({crn})))
    {
      UpdateAll(EnablingOnly({crn}));
    }

    method ToggleAllVisible(visible: set<Crn>)
      modifies `instances
      ensures Abs() == FetchState.ToggleAllVisible(old(Abs()), visible)
    {
      UpdateAll(Selecting(visible, !AllVisibleEnabled(instances, visible)));
    }

    // -------------------------------------------------------------- authentication and dispatch

    method OnMemberAuthResolved(crn: Crn, generation: nat)
      modifies `instances
      ensures Abs() == FetchState.OnMemberAuthResolved(old(Abs()), crn, generation)
    {
      if generation != authGeneration {
        return;
      }
      var at := Find(crn);
      if at.Some? && IsEnabled(instances[at.value]) {
        instances := instances[at.value := StartQuery(instances[at.value])];
      }
    }

    method OnMemberAuthFailed(crn: Crn, generation: nat, capHit: bool, ok: bool)
      modifies `instances, `container, `fetching, `collecting, `candidates, `winner, `journal,
               `watching, `watchEpoch, `roundCount
      ensures Abs() == FetchState.OnMemberAuthFailed(old(Abs()), crn, generation, capHit, ok)
    {
      if generation != authGeneration {
        return;
      }
      if !Loser(Race(candidates, winner), crn) {
        UpdateAt(crn, Failing());
      }
      assert Abs() == Failed(old(Abs()), crn);
      Settle(capHit, ok);
    }

    method SettleEnv(env: Environment, to: Phase, capHit: bool, ok: bool)
      modifies `instances, `container, `fetching, `collecting, `candidates, `winner, `journal,
               `watching, `watchEpoch, `roundCount
      ensures Abs() == FetchState.SettleEnv(old(Abs()), env, to, capHit, ok)
    {
      UpdateAll(Authing(Some(env), to));
      assert Abs() == old(Abs()).(rows := instances);
      Settle(capHit, ok);
    }

    method DispatchArchive()
      modifies `instances, `fetching
      ensures Abs() == Dispatch(old(Abs()))
    {
      if fetching || watching || !AnyEnabled(instances) {
        return;
      }
      fetching := true;
      UpdateAll(Dispatching());
    }

    method OnDispatchInstanceDone(crn: Crn, submitted: bool)
      modifies `instances, `fetching
      ensures Abs() == FetchState.OnDispatchInstanceDone(old(Abs()), crn, submitted)
    {
      var at := Find(crn);
      if at.None? {
        return;
      }
      UpdateAt(crn, FinishDispatch(submitted));
      if AllDone(instances) {
        fetching := false;
      }
    }

    // -------------------------------------------------------------- the event loop

    method HandleKey(key: Key, capHit: bool, ok: bool)
      modifies this
      ensures Abs() == OnKey(old(Abs()), key, capHit, ok)
    {
      match key {
        case FetchKey(opens) =>
          if AllDone(instances) {
            var open := StartFetch(opens);
          }
        case FirstFetchKey(opens) =>
          if AllDone(instances) {
            StartFirstFetch(opens);
          }
        case WatchKey(opens) => ToggleWatch(opens, capHit, ok);
        case CancelKey => CancelAllFetches(capHit, ok);
        case ToggleKey(row) => ToggleAt(row);
        case SelectAllKey(visible) => ToggleAllVisible(visible);
        case RetryKey(row) => RetryAt(row);
        case DispatchKey => DispatchArchive();
      }
    }

    method HandleAuth(auth: Auth, capHit: bool, ok: bool)
      modifies this
      ensures Abs() == OnAuth(old(Abs()), auth, capHit, ok)
    {
      match auth {
        case Token(crn, generation) => OnMemberAuthResolved(crn, generation);
        case TokenFailed(crn, generation) => OnMemberAuthFailed(crn, generation, capHit, ok);
        case EnvFailed(env, generation) =>
          if generation == authGeneration {
            SettleEnv(env, Error, capHit, ok);
          }
        case EnvCancelled(env, generation) =>
          if generation == authGeneration {
            SettleEnv(env, Cancelled, capHit, ok);
          }
        case PasscodeFailed(env) => SettleEnv(env, Error, capHit, ok);
        case PasscodeCancelled(env) => SettleEnv(env, Enabled, capHit, ok);
        case PasscodeAccepted(env) =>
          if !AnyAuthing(instances, env) {
            Settle(capHit, ok);
          }
      }
    }

    /** The messages that carry a fetch on. */
    method HandleFetch(message: Message, capHit: bool, ok: bool)
      requires Accounts(Accounting())
      requires message.Collect? || message.Stream? || message.StreamEnd? || message.Flushed? || message.Tick?
      modifies this
      ensures Abs() == OnMessage(old(Abs()), message, capHit, ok)
    {
      match message {
        case Collect(crns, opens) => StartCollect(crns, opens);
        case Stream(crn, id, count, room, warns, errs) => OnLogStream(crn, id, count, room, warns, errs);
        case StreamEnd(crn, errs) => OnLogStreamDone(crn, errs, capHit, ok);
        case Flushed(k, compressed, bytes, io, backed) =>
          if k < |messages| {
            OnInstanceFlushed(k, compressed, bytes, io, backed, capHit, ok);
          }
        case Tick(epoch) => OnWatchTick(epoch, capHit, ok);
      }
    }

    method HandleMessage(message: Message, capHit: bool, ok: bool)
      requires Accounts(Accounting())
      modifies this
      ensures Abs() == OnMessage(old(Abs()), message, capHit, ok)
    {
      match message {
        case Collect(_, _) => HandleFetch(message, capHit, ok);
        case Stream(_, _, _, _, _, _) => HandleFetch(message, capHit, ok);
        case StreamEnd(_, _) => HandleFetch(message, capHit, ok);
        case Flushed(_, _, _, _, _) => HandleFetch(message, capHit, ok);
        case Tick(_) => HandleFetch(message, capHit, ok);
        case Load(crn, backed) => OpenInstance(crn, backed);
        case Loaded(crn, count, evicted) => OnLoadReady(crn, count, evicted);
        case DispatchDone(crn, submitted) => OnDispatchInstanceDone(crn, submitted);
        case ViewInContext(crn) => ViewInContext(crn);
        case Restore(snaps) => OnSnapshotRestore(snaps);
        case Evict => EvictCurrentBacking();
      }
    }

    /** One turn of the event loop. */
    method Handle(t: Step)
      requires Accounts(Accounting())
      modifies this
      ensures Abs() == Next(old(Abs()), t)
    {
      match t.event {
        case Pressed(key) => HandleKey(key, t.capHit, t.ok);
        case Authed(auth) => HandleAuth(auth, t.capHit, t.ok);
        case Received(message) => HandleMessage(message, t.capHit, t.ok);
      }
    }
  }

  /** The event loop from a freshly built picker on: it is in the state of the state machine after
      each of the events, and so has every property that is proved of its runs. */
  method Run(configured: seq<(Crn, Environment)>, steps: seq<Step>) returns (m: Model)
    ensures fresh(m) && m.Abs() == After(Init(configured), steps) && Accounts(m.Accounting())
  {
    m := new Model(configured);
    for i := 0 to |steps|
      invariant fresh(m) && m.Abs() == After(Init(configured), steps[..i]) && Accounts(m.Accounting())
    {
      m.Handle(steps[i]);
      NextAccounts(After(Init(configured), steps[..i]), steps[i]);
      AfterSnoc(Init(configured), steps, i);
    }
    assert steps[..|steps|] == steps;
  }

  lemma AfterSnoc(s: State, steps: seq<Step>, i: nat)
    requires i < |steps|
    ensures After(s, steps[..i + 1]) == Next(After(s, steps[..i]), steps[i])
  {
    assert steps[..i + 1][..i] == steps[..i];
  }
}
