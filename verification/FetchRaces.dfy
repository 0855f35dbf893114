/** Who may start a query, whose logs are taken, and what the stamps of late messages are worth. */
module FetchRaces {
  import opened Options
  import opened FetchState
  import opened FetchBooks
  import opened FetchPublications

  // ---------------------------------------------------------------- tokens

  predicate InProgressAt(rows: seq<Instance>, k: nat) {
    k < |rows| && rows[k].phase.InProgress?
  }

  /** No row starts a query. */
  ghost predicate NoneStarts(rows: seq<Instance>, after: seq<Instance>) {
    forall k :: InProgressAt(after, k) ==> InProgressAt(rows, k)
  }

  /** The event is a token of the current generation for the enabled row `k`. */
  predicate Admits(s: State, auth: Auth, k: nat) {
    && auth.Token? && auth.generation == s.mode.generation && First(s.rows, auth.crn) == Some(k) && IsEnabled(s.rows[k])
  }

  lemma NoneStartsTransitive(a: seq<Instance>, b: seq<Instance>, c: seq<Instance>)
    requires NoneStarts(a, b) && NoneStarts(b, c)
    ensures NoneStarts(a, c)
  {
  }

  lemma SettleStartsNone(s: State, capHit: bool, ok: bool)
    ensures NoneStarts(s.rows, Settle(s, capHit, ok).rows)
  {
  }

  lemma FetchStartsNone(s: State, opens: bool)
    requires AllDone(s.rows)
    ensures NoneStarts(s.rows, StartFetch(s, opens).rows)
  {
    var rows := Configured(s.rows);
    assert AllDone(rows);
  }

  lemma RaceStartsNone(s: State, opens: bool)
    requires AllDone(s.rows)
    ensures NoneStarts(s.rows, StartFirstFetch(s, opens).rows)
  {
    FetchStartsNone(Racing(Willing(s)), opens);
  }

  lemma WatchStartsNone(s: State, opens: bool, capHit: bool, ok: bool)
    ensures NoneStarts(s.rows, ToggleWatch(s, opens, capHit, ok).rows)
  {
    if s.mode.watching {
      StoppedStartsNone(s);
      SettleStartsNone(StopWatch(s), capHit, ok);
      NoneStartsTransitive(s.rows, StopWatch(s).rows, Settle(StopWatch(s), capHit, ok).rows);
    } else if AllDone(s.rows) {
      FetchStartsNone(ForWatch(s), opens);
    }
  }

  lemma StoppedStartsNone(s: State)
    ensures NoneStarts(s.rows, StopWatch(s).rows)
  {
  }

  lemma CancelStartsNone(s: State, capHit: bool, ok: bool)
    ensures NoneStarts(s.rows, CancelAllFetches(s, capHit, ok).rows)
  {
    SilencedStartsNone(s);
    SettleStartsNone(Silenced(s), capHit, ok);
    NoneStartsTransitive(s.rows, Silenced(s).rows, Settle(Silenced(s), capHit, ok).rows);
  }

  lemma RowKeysStartNone(s: State, k: nat, visible: set<Crn>)
    ensures k < |s.rows| ==> NoneStarts(s.rows, s.rows[k := ToggleRow(s.rows[k])])
    ensures k < |s.rows| ==> NoneStarts(s.rows, s.rows[k := RetryRow(s.rows[k])])
    ensures NoneStarts(s.rows, ToggleAllVisible(s, visible).rows) && NoneStarts(s.rows, Dispatch(s).rows)
  {
  }

  lemma KeyStartsNone(s: State, key: Key, capHit: bool, ok: bool)
    ensures NoneStarts(s.rows, OnKey(s, key, capHit, ok).rows)
  {
    match key {
      case FetchKey(opens) =>
        if AllDone(s.rows) {
          FetchStartsNone(s, opens);
        }
      case FirstFetchKey(opens) =>
        if AllDone(s.rows) {
          RaceStartsNone(s, opens);
        }
      case WatchKey(opens) => WatchStartsNone(s, opens, capHit, ok);
      case CancelKey => CancelStartsNone(s, capHit, ok);
      case ToggleKey(k) => RowKeysStartNone(s, k, {});
      case SelectAllKey(visible) => RowKeysStartNone(s, 0, visible);
      case RetryKey(k) => RowKeysStartNone(s, k, {});
      case DispatchKey => RowKeysStartNone(s, 0, {});
    }
  }

  lemma SilencedStartsNone(s: State)
    ensures NoneStarts(s.rows, Silenced(s).rows)
  {
  }

  lemma AuthStarts(s: State, auth: Auth, capHit: bool, ok: bool, k: nat)
    ensures InProgressAt(OnAuth(s, auth, capHit, ok).rows, k) && !InProgressAt(s.rows, k)
            <==> Admits(s, auth, k) && !InProgressAt(s.rows, k)
  {
    match auth {
      case Token(_, _) =>
      case TokenFailed(crn, _) => SettleStartsNone(Failed(s, crn), capHit, ok);
      case EnvFailed(env, _) => SettleStartsNone(s.(rows := Map(s.rows, Authing(Some(env), Error))), capHit, ok);
      case EnvCancelled(env, _) => SettleStartsNone(s.(rows := Map(s.rows, Authing(Some(env), Cancelled))), capHit, ok);
      case PasscodeFailed(env) => SettleStartsNone(s.(rows := Map(s.rows, Authing(Some(env), Error))), capHit, ok);
      case PasscodeCancelled(env) => SettleStartsNone(s.(rows := Map(s.rows, Authing(Some(env), Enabled))), capHit, ok);
      case PasscodeAccepted(_) => SettleStartsNone(s, capHit, ok);
    }
  }

  lemma {:induction false} AppendedStartNone(rows: seq<Instance>, snaps: seq<Saved>)
    requires forall k :: 0 <= k < |rows| ==> !rows[k].phase.InProgress?
    ensures forall k :: 0 <= k < |AppendReadOnly(rows, snaps)| ==> !AppendReadOnly(rows, snaps)[k].phase.InProgress?
    decreases |snaps|
  {
    if snaps == [] {
    } else {
      AppendedStartNone(rows, snaps[1..]);
      AppendedStartNone(rows + [SavedRow(snaps[0])], snaps[1..]);
    }
  }

  lemma RestoreStartsNone(s: State, snaps: seq<Saved>)
    ensures NoneStarts(s.rows, OnSnapshotRestore(s, snaps).rows)
  {
    var restored := Map(Configured(StopWatch(s).rows), Restoring(snaps));
    forall k | 0 <= k < |restored|
      ensures !restored[k].phase.InProgress?
    {
      assert !Configured(StopWatch(s).rows)[k].readOnly;
    }
    AppendedStartNone(restored, snaps);
  }

  lemma CollectStartsNone(s: State, crns: set<Crn>, opens: bool)
    ensures NoneStarts(s.rows, StartCollect(s, crns, opens).rows)
  {
  }

  lemma StreamStartsNone(s: State, crn: Crn, id: nat, count: nat, room: nat, warns: bool, errs: bool)
    ensures NoneStarts(s.rows, OnLogStream(s, crn, id, count, room, warns, errs).rows)
  {
    var elected := if Elects(s, count) then Elect(s, crn) else s;
    assert NoneStarts(s.rows, elected.rows);
    TakingStartsNone(elected.rows, crn, id, count, room, warns, errs);
    NoneStartsTransitive(s.rows, elected.rows, At(elected.rows, crn, Taking(id, count, room, warns, errs)));
  }

  lemma TakingStartsNone(rows: seq<Instance>, crn: Crn, id: nat, count: nat, room: nat,
                         warns: bool, errs: bool)
    ensures NoneStarts(rows, At(rows, crn, Taking(id, count, room, warns, errs)))
  {
  }

  lemma EndedStartsNone(s: State, crn: Crn, errs: bool)
    ensures NoneStarts(s.rows, Ended(s, crn, errs).rows)
  {
  }

  lemma StreamEndStartsNone(s: State, crn: Crn, errs: bool, capHit: bool, ok: bool)
    ensures NoneStarts(s.rows, OnLogStreamDone(s, crn, errs, capHit, ok).rows)
  {
    var ended := Ended(s, crn, errs);
    EndedStartsNone(s, crn, errs);
    SettleStartsNone(ended, capHit, ok);
    NoneStartsTransitive(s.rows, ended.rows, Settle(ended, capHit, ok).rows);
  }

  lemma FlushedStartsNone(s: State, k: nat, compressed: bool, bytes: Bytes, io: bool, backed: bool,
                          capHit: bool, ok: bool)
    requires k < |s.books.messages|
    ensures NoneStarts(s.rows, OnInstanceFlushed(s, k, compressed, bytes, io, backed, capHit, ok).rows)
  {
    var delivered := Delivered(s, k, compressed, bytes, io, backed);
    assert NoneStarts(s.rows, delivered.rows);
    SettleStartsNone(delivered, capHit, ok);
    NoneStartsTransitive(s.rows, delivered.rows, Settle(delivered, capHit, ok).rows);
  }

  lemma LoadedStartsNone(s: State, crn: Crn, count: nat, evicted: Option<Crn>)
    ensures NoneStarts(s.rows, OnLoadReady(s, crn, count, evicted).rows)
  {
  }

  lemma TickStartsNone(s: State, epoch: nat, capHit: bool, ok: bool)
    ensures NoneStarts(s.rows, OnWatchTick(s, epoch, capHit, ok).rows)
  {
  }

  lemma DispatchDoneStartsNone(s: State, crn: Crn, submitted: bool)
    ensures NoneStarts(s.rows, OnDispatchInstanceDone(s, crn, submitted).rows)
  {
  }

  lemma ViewStartsNone(s: State, crn: Crn)
    ensures NoneStarts(s.rows, Map(s.rows, EnablingOnly({crn})))
  {
  }

  lemma EvictStartsNone(s: State)
    ensures NoneStarts(s.rows, OnEvict(s).rows)
  {
  }

  /** The messages that settle what may be the end of a fetch. */
  predicate Settles(message: Message) {
    message.StreamEnd? || message.Flushed? || message.Tick?
  }

  lemma SettlesStartsNone(s: State, message: Message, capHit: bool, ok: bool)
    requires Settles(message)
    ensures NoneStarts(s.rows, OnMessage(s, message, capHit, ok).rows)
  {
    match message {
      case StreamEnd(crn, errs) => StreamEndStartsNone(s, crn, errs, capHit, ok);
      case Flushed(k, compressed, bytes, io, backed) =>
        if k < |s.books.messages| {
          FlushedStartsNone(s, k, compressed, bytes, io, backed, capHit, ok);
        }
      case Tick(epoch) => TickStartsNone(s, epoch, capHit, ok);
    }
  }

  lemma MessageStartsNone(s: State, message: Message, capHit: bool, ok: bool)
    ensures NoneStarts(s.rows, OnMessage(s, message, capHit, ok).rows)
  {
    match message {
      case Collect(crns, opens) => CollectStartsNone(s, crns, opens);
      case Stream(crn, id, count, room, warns, errs) => StreamStartsNone(s, crn, id, count, room, warns, errs);
      case StreamEnd(_, _) => SettlesStartsNone(s, message, capHit, ok);
      case Flushed(_, _, _, _, _) => SettlesStartsNone(s, message, capHit, ok);
      case Tick(_) => SettlesStartsNone(s, message, capHit, ok);
      case Restore(snaps) => RestoreStartsNone(s, snaps);
      case DispatchDone(crn, submitted) => DispatchDoneStartsNone(s, crn, submitted);
      case ViewInContext(crn) => ViewStartsNone(s, crn);
      case Evict => EvictStartsNone(s);
      case Load(_, _) =>
      case Loaded(crn, count, evicted) => LoadedStartsNone(s, crn, count, evicted);
    }
  }

  /** A row's query starts exactly when a token of the current generation comes for it while it is
      enabled: no key, no stream, no flush and no late token starts one. */
  lemma QueriesStart(s: State, t: Step, k: nat)
    requires !InProgressAt(s.rows, k)
    ensures InProgressAt(Next(s, t).rows, k) <==> t.event.Authed? && Admits(s, t.event.auth, k)
  {
    match t.event {
      case Pressed(key) => KeyStartsNone(s, key, t.capHit, t.ok);
      case Authed(auth) => AuthStarts(s, auth, t.capHit, t.ok, k);
      case Received(message) => MessageStartsNone(s, message, t.capHit, t.ok);
    }
  }

  /** The events that outdate the tokens that were asked for: cancelling everything, a fetch that gets
      its container, and the election of a race's winner. */
  predicate KeyOutdates(s: State, key: Key) {
    key.CancelKey? || (KeyStarts(s, key) && key.opens)
  }

  predicate MessageOutdates(s: State, message: Message) {
    match message
    case Collect(crns, opens) => !s.mode.fetching && !s.mode.watching && AllConfigured(s.rows, crns) && opens
    case Stream(crn, id, count, _, _, _) => Accepts(s, crn, id) && Elects(s, count)
    case _ => false
  }

  predicate Outdates(s: State, t: Step) {
    match t.event
    case Pressed(key) => KeyOutdates(s, key)
    case Authed(_) => false
    case Received(message) => MessageOutdates(s, message)
  }

  function Stamp(s: State, outdates: bool): nat {
    s.mode.generation + if outdates then 1 else 0
  }

  /** A race keeps its winner until it is over. */
  predicate WinnerKept(s: State, u: State) {
    s.race.winner.Some? && u.race.candidates.Some? ==> u.race == s.race
  }

  lemma SettleOnward(s: State, capHit: bool, ok: bool)
    ensures Settle(s, capHit, ok).mode.generation == s.mode.generation
    ensures WinnerKept(s, Settle(s, capHit, ok))
  {
  }

  lemma FirstFetchOnward(s: State, opens: bool)
    ensures StartFirstFetch(s, opens).mode.generation == Stamp(s, AnyConfigured(s.rows) && opens)
  {
    var willing := Willing(s);
    if AnyConfigured(s.rows) && !AnyEnabled(s.rows) {
      var k :| 0 <= k < |s.rows| && !s.rows[k].readOnly;
      assert IsEnabled(willing.rows[k]);
    }
  }

  lemma KeyOnward(s: State, key: Key, capHit: bool, ok: bool)
    ensures OnKey(s, key, capHit, ok).mode.generation == Stamp(s, KeyOutdates(s, key))
    ensures !key.FirstFetchKey? ==> WinnerKept(s, OnKey(s, key, capHit, ok))
  {
    match key {
      case FetchKey(_) =>
      case FirstFetchKey(opens) => FirstFetchOnward(s, opens);
      case WatchKey(_) => SettleOnward(StopWatch(s), capHit, ok);
      case CancelKey => SettleOnward(Silenced(s), capHit, ok);
      case ToggleKey(_) =>
      case SelectAllKey(_) =>
      case RetryKey(_) =>
      case DispatchKey =>
    }
  }

  lemma AuthOnward(s: State, auth: Auth, capHit: bool, ok: bool)
    ensures OnAuth(s, auth, capHit, ok).mode.generation == s.mode.generation
    ensures WinnerKept(s, OnAuth(s, auth, capHit, ok))
  {
    match auth {
      case Token(_, _) =>
      case TokenFailed(crn, _) => SettleOnward(Failed(s, crn), capHit, ok);
      case EnvFailed(env, _) => SettleOnward(s.(rows := Map(s.rows, Authing(Some(env), Error))), capHit, ok);
      case EnvCancelled(env, _) => SettleOnward(s.(rows := Map(s.rows, Authing(Some(env), Cancelled))), capHit, ok);
      case PasscodeFailed(env) => SettleOnward(s.(rows := Map(s.rows, Authing(Some(env), Error))), capHit, ok);
      case PasscodeCancelled(env) => SettleOnward(s.(rows := Map(s.rows, Authing(Some(env), Enabled))), capHit, ok);
      case PasscodeAccepted(_) => SettleOnward(s, capHit, ok);
    }
  }

  lemma EndedOnward(s: State, crn: Crn, errs: bool, capHit: bool, ok: bool)
    ensures OnLogStreamDone(s, crn, errs, capHit, ok).mode.generation == s.mode.generation
    ensures WinnerKept(s, OnLogStreamDone(s, crn, errs, capHit, ok))
  {
    SettleOnward(Ended(s, crn, errs), capHit, ok);
  }

  lemma TickOnward(s: State, epoch: nat, capHit: bool, ok: bool)
    ensures OnWatchTick(s, epoch, capHit, ok).mode.generation == s.mode.generation
    ensures WinnerKept(s, OnWatchTick(s, epoch, capHit, ok))
  {
  }

  lemma CollectOnward(s: State, crns: set<Crn>, opens: bool)
    ensures StartCollect(s, crns, opens).mode.generation == Stamp(s, MessageOutdates(s, Collect(crns, opens)))
    ensures WinnerKept(s, StartCollect(s, crns, opens))
  {
  }

  lemma StreamOnward(s: State, crn: Crn, id: nat, count: nat, room: nat, warns: bool, errs: bool)
    ensures var u := OnLogStream(s, crn, id, count, room, warns, errs);
            u.mode.generation == Stamp(s, Accepts(s, crn, id) && Elects(s, count)) && WinnerKept(s, u)
  {
  }

  lemma FlushedOnward(s: State, k: nat, compressed: bool, bytes: Bytes, io: bool, backed: bool, capHit: bool, ok: bool)
    requires k < |s.books.messages|
    ensures var u := OnInstanceFlushed(s, k, compressed, bytes, io, backed, capHit, ok);
            u.mode.generation == s.mode.generation && WinnerKept(s, u)
  {
    SettleOnward(Delivered(s, k, compressed, bytes, io, backed), capHit, ok);
  }

  lemma MessageOnward(s: State, message: Message, capHit: bool, ok: bool)
    ensures OnMessage(s, message, capHit, ok).mode.generation == Stamp(s, MessageOutdates(s, message))
    ensures WinnerKept(s, OnMessage(s, message, capHit, ok))
  {
    match message {
      case StreamEnd(crn, errs) => EndedOnward(s, crn, errs, capHit, ok);
      case Flushed(k, compressed, bytes, io, backed) =>
        if k < |s.books.messages| {
          FlushedOnward(s, k, compressed, bytes, io, backed, capHit, ok);
        }
      case Tick(epoch) => TickOnward(s, epoch, capHit, ok);
      case Collect(crns, opens) => CollectOnward(s, crns, opens);
      case Stream(crn, id, count, room, warns, errs) => StreamOnward(s, crn, id, count, room, warns, errs);
      case Load(_, _) =>
      case Loaded(_, _, _) =>
      case DispatchDone(_, _) =>
      case ViewInContext(_) =>
      case Restore(_) =>
      case Evict =>
    }
  }

  /** The generation moves on exactly at the events that outdate tokens, and a race keeps its winner
      until it is over or a new one starts. */
  lemma NextOnward(s: State, t: Step)
    ensures Next(s, t).mode.generation == Stamp(s, Outdates(s, t))
    ensures !(t.event.Pressed? && t.event.key.FirstFetchKey?) ==> WinnerKept(s, Next(s, t))
  {
    match t.event {
      case Pressed(key) => KeyOnward(s, key, t.capHit, t.ok);
      case Authed(auth) => AuthOnward(s, auth, t.capHit, t.ok);
      case Received(message) => MessageOnward(s, message, t.capHit, t.ok);
    }
  }

  /** A message of authentication that is stamped with a generation. */
  predicate Stamped(auth: Auth) {
    auth.Token? || auth.TokenFailed? || auth.EnvFailed? || auth.EnvCancelled?
  }

  /** A token that was asked for before a fetch was cancelled, replaced or decided never counts again,
      whatever happens in between. */
  lemma LateTokens(s: State, t: Step, steps: seq<Step>, late: Step)
    requires Outdates(s, t)
    requires late.event.Authed? && Stamped(late.event.auth) && late.event.auth.generation <= s.mode.generation
    ensures Next(After(Next(s, t), steps), late) == After(Next(s, t), steps)
  {
    NextOnward(s, t);
    GenerationsGrow(Next(s, t), steps);
    StaleIgnored(After(Next(s, t), steps), late);
  }

  lemma StaleIgnored(s: State, t: Step)
    requires t.event.Authed? && Stamped(t.event.auth) && t.event.auth.generation < s.mode.generation
    ensures Next(s, t) == s
  {
  }

  lemma {:induction false} GenerationsGrow(s: State, steps: seq<Step>)
    ensures s.mode.generation <= After(s, steps).mode.generation
  {
    if steps == [] {
    } else {
      GenerationsGrow(s, steps[..|steps| - 1]);
      NextOnward(After(s, steps[..|steps| - 1]), steps[|steps| - 1]);
    }
  }

  // ---------------------------------------------------------------- the race

  ghost function RaceOn(s: State): seq<Step> -> bool {
    (run: seq<Step>) => After(s, run).race.candidates.Some?
  }

  /** The race goes on throughout: it is over at no point, and no new one is started. */
  ghost predicate RacesOn(s: State, steps: seq<Step>) {
    Always(RaceOn(s), steps) && Never(NewRace(), steps)
  }

  function NewRace(): (seq<Step>, Step) -> bool {
    (run: seq<Step>, t: Step) => t.event.Pressed? && t.event.key.FirstFetchKey?
  }

  /** Once a race is decided it stays decided, and until it is over no batch of any other row does
      anything at all. */
  lemma {:induction false} Decided(s: State, steps: seq<Step>, crn: Crn)
    requires s.race.winner.Some? && RacesOn(s, steps) && s.race.winner != Some(crn)
    ensures After(s, steps).race == s.race
    ensures forall id, count, room, warns, errs ::
              OnLogStream(After(s, steps), crn, id, count, room, warns, errs) == After(s, steps)
  {
    AlwaysFront(RaceOn(s), steps);
    if steps == [] {
    } else {
      var m := |steps| - 1;
      NeverFront(NewRace(), steps);
      Decided(s, steps[..m], crn);
      NextOnward(After(s, steps[..m]), steps[m]);
    }
  }
}
