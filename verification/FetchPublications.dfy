/** What becomes of a fetch's container, over whole runs: when it is published, what an empty fetch
    is, and what a published snapshot has lost. */
module FetchPublications {
  import opened Options
  import opened FetchState
  import opened FetchBooks

  // ---------------------------------------------------------------- which events start a fetch

  predicate AnyConfigured(rows: seq<Instance>) {
    exists k :: 0 <= k < |rows| && !rows[k].readOnly
  }

  predicate KeyStarts(s: State, key: Key) {
    match key
    case FetchKey(_) => AllDone(s.rows)
    case FirstFetchKey(_) => AllDone(s.rows) && AnyConfigured(s.rows)
    case WatchKey(_) => AllDone(s.rows) && !s.mode.watching
    case _ => false
  }

  predicate Starts(s: State, t: Step) {
    match t.event
    case Pressed(key) => KeyStarts(s, key)
    case Authed(_) => false
    case Received(message) =>
      message.Collect? && !s.mode.fetching && !s.mode.watching && AllConfigured(s.rows, message.crns)
  }

  // ---------------------------------------------------------------- which events deliver a flush

  predicate Delivers(s: State, message: Message) {
    && message.Flushed? && message.at < |s.books.messages|
    && s.books.messages[message.at].epoch == s.books.epoch
  }

  /** A row's stream ends with logs in its store while a container is open to take them. */
  predicate HandsOver(s: State, message: Message) {
    && message.StreamEnd? && s.books.container.Some? && First(s.rows, message.crn).Some?
    && s.rows[First(s.rows, message.crn).value].live > 0
  }

  /** The books when the handler of a message comes to settle. */
  function Carried(s: State, message: Message): Books {
    if HandsOver(s, message) then Post(s.books, message.crn)
    else if Delivers(s, message) then
      Deliver(s.books, message.at, message.compressed, First(s.rows, s.books.messages[message.at].crn).Some?,
              message.io)
    else if message.Flushed? && message.at < |s.books.messages| then Drop(s.books, message.at)
    else s.books
  }

  function CarriedBy(s: State, t: Step): Books {
    if t.event.Received? then Carried(s, t.event.message) else s.books
  }

  /** The books stay as they are, or their container is closed: published if `after` has logs to show or
      the fetch is a collect, no member's log count contradicts its size, the container has its writer,
      and the rest works. */
  predicate Continues(b: Books, collecting: bool, after: State, ok: bool) {
    || after.books == b
    || (b.container.Some? && after.books == b.(container := None, journal := Filed(b, collecting, after, ok)))
  }

  function Filed(b: Books, collecting: bool, after: State, ok: bool): seq<Published>
    requires b.container.Some?
  {
    if (AnyLogs(after.rows) || collecting) && Sound(after.rows, after.members) && b.container.value.writable && ok
    then b.journal + [Entry(b, AnyLogs(after.rows))] else b.journal
  }

  /** Row for row, the same instances with the same logs and sizes. */
  predicate SameLogs(rows: seq<Instance>, others: seq<Instance>) {
    && |rows| == |others|
    && forall k :: 0 <= k < |rows| ==> SameLog(rows[k], others[k])
  }

  predicate SameLog(i: Instance, j: Instance) {
    i.crn == j.crn && i.readOnly == j.readOnly && i.live == j.live && i.flushed == j.flushed && i.size == j.size
  }

  lemma SameLogsShown(rows: seq<Instance>, others: seq<Instance>)
    requires SameLogs(rows, others)
    ensures AnyLogs(rows) <==> AnyLogs(others)
  {
    assert forall k :: 0 <= k < |rows| ==>
      SameLog(rows[k], others[k]) && DisplayLogCount(rows[k]) == DisplayLogCount(others[k]);
  }

  /** Whether a snapshot's sizes are consistent depends on logs and sizes alone. */
  lemma SameLogsSound(rows: seq<Instance>, others: seq<Instance>, members: Members)
    requires SameLogs(rows, others)
    ensures Sound(rows, members) <==> Sound(others, members)
  {
    assert forall k :: 0 <= k < |rows| ==>
      && SameLog(rows[k], others[k]) && IsMember(rows[k], members) == IsMember(others[k], members)
      && DeclaredCount(rows[k]) == DeclaredCount(others[k]) && rows[k].size == others[k].size;
    if members.Only? {
      forall m | m in members.records
        ensures First(rows, m.crn) == First(others, m.crn)
      {
        SameFirst(rows, others, m.crn);
      }
    }
  }

  lemma DemotedLogs(rows: seq<Instance>, race: Race)
    ensures SameLogs(rows, Map(rows, Demoting(race)))
  {
  }

  lemma SettleContinues(s: State, capHit: bool, ok: bool)
    ensures Continues(s.books, s.mode.collecting, Settle(s, capHit, ok), ok)
  {
    SettleBooks(s, capHit, ok);
    DemotedLogs(s.rows, s.race);
    SameLogsShown(s.rows, Map(s.rows, Demoting(s.race)));
    SameLogsSound(s.rows, Map(s.rows, Demoting(s.race)), s.members);
    if Closes(s, capHit) {
      SettledRows(s, capHit, ok);
    }
  }

  lemma SettledRows(s: State, capHit: bool, ok: bool)
    requires Closes(s, capHit)
    ensures Settle(s, capHit, ok).rows == Map(s.rows, Demoting(s.race)) && Settle(s, capHit, ok).members == s.members
  {
  }

  lemma EndWatchContinues(s: State, ok: bool)
    ensures Continues(s.books, s.mode.collecting, EndWatch(s, ok), ok)
  {
    DemotedLogs(s.rows, s.race);
    SameLogsShown(s.rows, Map(s.rows, Demoting(s.race)));
    SameLogsSound(s.rows, Map(s.rows, Demoting(s.race)), s.members);
  }

  lemma FirstFetchStarts(s: State, opens: bool)
    ensures AnyConfigured(s.rows) ==> StartFirstFetch(s, opens).books == Reopen(s.books, opens)
    ensures !AnyConfigured(s.rows) ==> StartFirstFetch(s, opens).books == s.books
  {
    var rows := Map(s.rows, EnablingAll());
    if AnyConfigured(s.rows) && !AnyEnabled(s.rows) {
      var k :| 0 <= k < |s.rows| && !s.rows[k].readOnly;
      assert IsEnabled(rows[k]);
    }
  }

  lemma KeyContinues(s: State, key: Key, capHit: bool, ok: bool)
    ensures var u := OnKey(s, key, capHit, ok);
            if KeyStarts(s, key) then u.books == Reopen(s.books, key.opens)
            else Continues(s.books, s.mode.collecting, u, ok)
  {
    match key {
      case FetchKey(opens) =>
      case FirstFetchKey(opens) => FirstFetchStarts(s, opens);
      case WatchKey(opens) => SettleContinues(StopWatch(s), capHit, ok);
      case CancelKey => SettleContinues(Silenced(s), capHit, ok);
      case ToggleKey(_) =>
      case SelectAllKey(_) =>
      case RetryKey(_) =>
      case DispatchKey =>
    }
  }

  lemma AuthContinues(s: State, auth: Auth, capHit: bool, ok: bool)
    ensures var u := OnAuth(s, auth, capHit, ok); Continues(s.books, s.mode.collecting, u, ok)
  {
    match auth {
      case Token(_, _) =>
      case TokenFailed(crn, _) => SettleContinues(Failed(s, crn), capHit, ok);
      case EnvFailed(env, _) => SettleContinues(s.(rows := Map(s.rows, Authing(Some(env), Error))), capHit, ok);
      case EnvCancelled(env, _) => SettleContinues(s.(rows := Map(s.rows, Authing(Some(env), Cancelled))), capHit, ok);
      case PasscodeFailed(env) => SettleContinues(s.(rows := Map(s.rows, Authing(Some(env), Error))), capHit, ok);
      case PasscodeCancelled(env) => SettleContinues(s.(rows := Map(s.rows, Authing(Some(env), Enabled))), capHit, ok);
      case PasscodeAccepted(_) => SettleContinues(s, capHit, ok);
    }
  }

  lemma FlushedContinues(s: State, message: Message, capHit: bool, ok: bool)
    requires message.Flushed? && message.at < |s.books.messages|
    ensures var u := OnInstanceFlushed(s, message.at, message.compressed, message.bytes, message.io, message.backed,
                                       capHit, ok);
            Continues(Carried(s, message), s.mode.collecting, u, ok)
  {
    if s.books.messages[message.at].epoch == s.books.epoch {
      var delivered := Delivered(s, message.at, message.compressed, message.bytes, message.io, message.backed);
      SettleContinues(delivered, capHit, ok);
    }
  }

  lemma EndedCarried(s: State, message: Message)
    requires message.StreamEnd?
    ensures Ended(s, message.crn, message.errs).books == Carried(s, message)
  {
  }

  lemma StreamEndContinues(s: State, message: Message, capHit: bool, ok: bool)
    requires message.StreamEnd?
    ensures var u := OnLogStreamDone(s, message.crn, message.errs, capHit, ok);
            Continues(Carried(s, message), s.mode.collecting, u, ok)
  {
    EndedCarried(s, message);
    SettleContinues(Ended(s, message.crn, message.errs), capHit, ok);
  }

  lemma TickContinues(s: State, epoch: nat, capHit: bool, ok: bool)
    ensures var u := OnWatchTick(s, epoch, capHit, ok);
            Continues(s.books, s.mode.collecting, u, ok)
  {
    EndWatchContinues(s, ok);
  }

  lemma MessageContinues(s: State, message: Message, capHit: bool, ok: bool)
    ensures var u := OnMessage(s, message, capHit, ok);
            if message.Collect? && !s.mode.fetching && !s.mode.watching && AllConfigured(s.rows, message.crns)
            then u.books == Reopen(s.books, message.opens)
            else Continues(Carried(s, message), s.mode.collecting, u, ok)
  {
    match message {
      case Collect(_, _) =>
      case StreamEnd(_, _) => StreamEndContinues(s, message, capHit, ok);
      case Flushed(k, _, _, _, _) =>
        if k < |s.books.messages| {
          FlushedContinues(s, message, capHit, ok);
        }
      case Tick(epoch) => TickContinues(s, epoch, capHit, ok);
      case Stream(_, _, _, _, _, _) =>
      case Load(_, _) =>
      case Loaded(_, _, _) =>
      case DispatchDone(_, _) =>
      case ViewInContext(_) =>
      case Restore(_) =>
      case Evict =>
    }
  }

  function Opens(t: Step): bool {
    match t.event
    case Pressed(key) => (key.FetchKey? || key.FirstFetchKey? || key.WatchKey?) && key.opens
    case Authed(_) => false
    case Received(message) => message.Collect? && message.opens
  }

  /** An event starts a fetch, and then the old container is gone whatever it held; or else the old
      one goes on, takes the delivered flush, or is closed. */
  lemma NextContinues(s: State, t: Step)
    ensures Starts(s, t) ==> Next(s, t).books == Reopen(s.books, Opens(t))
    ensures !Starts(s, t) ==>
              Continues(CarriedBy(s, t), s.mode.collecting, Next(s, t), t.ok)
  {
    match t.event {
      case Pressed(key) => KeyContinues(s, key, t.capHit, t.ok);
      case Authed(auth) => AuthContinues(s, auth, t.capHit, t.ok);
      case Received(message) => MessageContinues(s, message, t.capHit, t.ok);
    }
  }

  // ---------------------------------------------------------------- cancelling everything

  /** Cancelling everything stops a row: unless it is in progress without a query to cancel, or waits
      for a round of a watch that is over. */
  predicate Stops(i: Instance, watching: bool) {
    && (i.phase.InProgress? ==> i.streaming)
    && (i.phase.Watching? ==> watching)
  }

  lemma SilencedRows(s: State)
    ensures SameLogs(s.rows, Silenced(s).rows)
    ensures AllDone(Silenced(s).rows) <==> forall k :: 0 <= k < |s.rows| ==> Stops(s.rows[k], s.mode.watching)
  {
    var rows := Silenced(s).rows;
    assert forall k :: 0 <= k < |s.rows| ==>
      SameLog(s.rows[k], rows[k]) && (Running(rows[k].phase) <==> !Stops(s.rows[k], s.mode.watching));
  }

  /** Cancelling everything closes the container if and only if every row stops and no flush is undelivered;
      and what it closes is published if and only if there are logs to show or the fetch is a collect, and
      no member holds logs that were never written, besides what may fail in any publication. */
  lemma CancelPublishes(s: State, capHit: bool, ok: bool)
    requires s.books.container.Some?
    ensures var u := OnKey(s, CancelKey, capHit, ok);
            && (u.books.container.None?
                <==> (forall k :: 0 <= k < |s.rows| ==> Stops(s.rows[k], s.mode.watching)) && s.books.pending == 0)
            && (u.books.journal != s.books.journal
                <==> u.books.container.None? && (AnyLogs(s.rows) || s.mode.collecting) && Sound(s.rows, s.members)
                     && s.books.container.value.writable && ok)
  {
    var silenced := Silenced(s);
    SilencedRows(s);
    SameLogsShown(s.rows, silenced.rows);
    SameLogsSound(s.rows, silenced.rows, s.members);
    SettleBooks(silenced, capHit, ok);
  }

  // ---------------------------------------------------------------- what a snapshot has lost

  /** A flush of the current fetch is delivered and no frame of it is written: it could not be
      compressed, its row is gone, the container has lost its writer or holds a frame of the
      instance already, or the write fails. */
  predicate Refuses(s: State, t: Step) {
    && t.event.Received? && Delivers(s, t.event.message)
    && (s.books.container.Some? ==>
          var m, crn := t.event.message, s.books.messages[t.event.message.at].crn;
          !Takes(s.books.container.value, crn, m.compressed, First(s.rows, crn).Some?, m.io))
  }

  /** A stream ends with logs to hand over. */
  predicate HandsOverBy(s: State, t: Step) {
    t.event.Received? && HandsOver(s, t.event.message)
  }

  /** How often in a run, while fetch `epoch` was on, an event has found `q`. */
  ghost function Happened(q: (State, Step) -> bool, s: State, steps: seq<Step>, epoch: nat): nat {
    if steps == [] then 0
    else
      var m := |steps| - 1;
      Happened(q, s, steps[..m], epoch) + if HappensIn(q, epoch, After(s, steps[..m]), steps[m]) then 1 else 0
  }

  ghost predicate HappensIn(q: (State, Step) -> bool, epoch: nat, s: State, t: Step) {
    s.books.epoch == epoch && q(s, t)
  }

  /** How many flushes of fetch `epoch` a run has started, and refused. */
  ghost function HandOvers(s: State, steps: seq<Step>, epoch: nat): nat {
    Happened(HandsOverBy, s, steps, epoch)
  }

  ghost function Refusals(s: State, steps: seq<Step>, epoch: nat): nat {
    Happened(Refuses, s, steps, epoch)
  }

  lemma CarriedCounts(s: State, t: Step)
    ensures CarriedBy(s, t).lost == s.books.lost + if Refuses(s, t) then 1 else 0
    ensures CarriedBy(s, t).started == s.books.started + if HandsOverBy(s, t) then 1 else 0
    ensures CarriedBy(s, t).journal == s.books.journal && CarriedBy(s, t).epoch == s.books.epoch
    ensures Refuses(s, t) || HandsOverBy(s, t) ==> !Starts(s, t)
  {
  }

  /** By the counts, each snapshot of the journal has started and lost what was started and refused in
      its fetch, and the books have counted what was in this one. */
  ghost predicate Ledger(begun: nat -> nat, refused: nat -> nat, b: Books) {
    && b.started == begun(b.epoch) && begun(b.epoch + 1) == 0
    && b.lost == refused(b.epoch) && refused(b.epoch + 1) == 0
    && forall k :: 0 <= k < |b.journal| ==>
         b.journal[k].started == begun(b.journal[k].epoch) && b.journal[k].lost == refused(b.journal[k].epoch)
  }

  /** One more for fetch `epoch`, if it happened. */
  ghost predicate OneMore(count: nat -> nat, next: nat -> nat, epoch: nat, happens: bool) {
    forall e :: next(e) == count(e) + if happens && e == epoch then 1 else 0
  }

  lemma LedgerReopened(begun: nat -> nat, refused: nat -> nat, b: Books, opens: bool)
    requires Ledger(begun, refused, b) && begun(b.epoch + 2) == 0 && refused(b.epoch + 2) == 0
    ensures Ledger(begun, refused, Reopen(b, opens))
  {
  }

  lemma LedgerContinues(begun: nat -> nat, refused: nat -> nat, begun': nat -> nat, refused': nat -> nat,
                        b: Books, carried: Books, after: State, hands: bool, refuses: bool,
                        collecting: bool, ok: bool)
    requires Ledger(begun, refused, b) && Journaled(b) && (hands || refuses ==> b.container.Some?)
    requires OneMore(begun, begun', b.epoch, hands) && OneMore(refused, refused', b.epoch, refuses)
    requires carried.started == b.started + if hands then 1 else 0
    requires carried.lost == b.lost + if refuses then 1 else 0
    requires carried.journal == b.journal && carried.epoch == b.epoch && Continues(carried, collecting, after, ok)
    ensures Ledger(begun', refused', after.books)
  {
  }

  ghost function Tally(q: (State, Step) -> bool, s: State, steps: seq<Step>): nat -> nat {
    (e: nat) => Happened(q, s, steps, e)
  }

  /** Nothing has happened in a fetch that has not started. */
  lemma {:induction false} NoneBefore(q: (State, Step) -> bool, s: State, steps: seq<Step>, epoch: nat)
    requires After(s, steps).books.epoch < epoch
    ensures Happened(q, s, steps, epoch) == 0
  {
    if steps == [] {
    } else {
      EpochsGrow(s, steps);
      NoneBefore(q, s, steps[..|steps| - 1], epoch);
    }
  }

  lemma EpochsGrow(s: State, steps: seq<Step>)
    requires steps != []
    ensures After(s, steps[..|steps| - 1]).books.epoch <= After(s, steps).books.epoch
  {
    NextContinues(After(s, steps[..|steps| - 1]), steps[|steps| - 1]);
    CarriedCounts(After(s, steps[..|steps| - 1]), steps[|steps| - 1]);
  }

  /** Each event keeps count of what its fetch has started and lost. */
  lemma LedgerNext(begun: nat -> nat, refused: nat -> nat, begun': nat -> nat, refused': nat -> nat,
                   s: State, t: Step)
    requires Ledger(begun, refused, s.books) && Accounts(s.books)
    requires begun(s.books.epoch + 2) == 0 && refused(s.books.epoch + 2) == 0
    requires OneMore(begun, begun', s.books.epoch, HandsOverBy(s, t))
             && OneMore(refused, refused', s.books.epoch, Refuses(s, t))
    ensures Ledger(begun', refused', Next(s, t).books)
  {
    CarriedCounts(s, t);
    NextContinues(s, t);
    var b := s.books;
    if Starts(s, t) {
      LedgerReopened(begun', refused', b, Opens(t));
    } else {
      if Refuses(s, t) {
        RefusesOpen(s, t);
      }
      LedgerContinues(begun, refused, begun', refused', b, CarriedBy(s, t), Next(s, t), HandsOverBy(s, t),
                      Refuses(s, t), s.mode.collecting, t.ok);
    }
  }

  lemma RefusesOpen(s: State, t: Step)
    requires Accounts(s.books) && Refuses(s, t)
    ensures s.books.container.Some?
  {
    var m := t.event.message;
    DeliverAccounts(s.books, m.at, m.compressed, true, m.io);
  }

  lemma {:induction false} RunLedger(configured: seq<(Crn, Environment)>, steps: seq<Step>)
    ensures Ledger(Tally(HandsOverBy, Init(configured), steps), Tally(Refuses, Init(configured), steps),
                   After(Init(configured), steps).books)
  {
    var s := Init(configured);
    if steps == [] {
    } else {
      var front := steps[..|steps| - 1];
      var before := After(s, front);
      RunLedger(configured, front);
      RunKeepsAccounts(configured, front);
      NoneBefore(HandsOverBy, s, front, before.books.epoch + 2);
      NoneBefore(Refuses, s, front, before.books.epoch + 2);
      LedgerNext(Tally(HandsOverBy, s, front), Tally(Refuses, s, front), Tally(HandsOverBy, s, steps),
                 Tally(Refuses, s, steps), before, steps[|steps| - 1]);
    }
  }

  /** Of every published snapshot, in any run: the flushes that were started in its fetch are its frames
      and what was refused; and it has a frame of each if and only if none was refused while its fetch
      was on. */
  lemma PublishedLosses(configured: seq<(Crn, Environment)>, steps: seq<Step>, k: nat)
    requires k < |After(Init(configured), steps).books.journal|
    ensures var p := After(Init(configured), steps).books.journal[k];
            && p.started == HandOvers(Init(configured), steps, p.epoch)
            && p.lost == Refusals(Init(configured), steps, p.epoch)
            && |p.frames| + p.lost == p.started
            && (|p.frames| == p.started <==> Never(Refusing(Init(configured), p.epoch), steps))
  {
    var s := Init(configured);
    var p := After(s, steps).books.journal[k];
    RunLedger(configured, steps);
    RunKeepsAccounts(configured, steps);
    assert p.started == Tally(HandsOverBy, s, steps)(p.epoch) && p.lost == Tally(Refuses, s, steps)(p.epoch);
    RefusalsNone(s, steps, p.epoch);
  }

  ghost function Refusing(s: State, epoch: nat): (seq<Step>, Step) -> bool {
    (run: seq<Step>, t: Step) => HappensIn(Refuses, epoch, After(s, run), t)
  }

  lemma {:induction false} RefusalsNone(s: State, steps: seq<Step>, epoch: nat)
    ensures Refusals(s, steps, epoch) == 0 <==> Never(Refusing(s, epoch), steps)
  {
    if steps == [] {
    } else {
      RefusalsNone(s, steps[..|steps| - 1], epoch);
      NeverFront(Refusing(s, epoch), steps);
    }
  }

  // ---------------------------------------------------------------- collects and empty fetches

  /** A settle does not touch whether the fetch is a collect, unless it ends it. */
  lemma SettleCollecting(s: State, capHit: bool, ok: bool)
    ensures var u := Settle(s, capHit, ok);
            s.books.container.Some? && u.books.container.Some? ==> u.mode.collecting == s.mode.collecting
  {
  }

  lemma KeyCollecting(s: State, key: Key, capHit: bool, ok: bool)
    requires s.books.container.Some? && OnKey(s, key, capHit, ok).books.container.Some? && !KeyStarts(s, key)
    ensures OnKey(s, key, capHit, ok).mode.collecting <==> s.mode.collecting && !key.CancelKey?
  {
    match key {
      case FetchKey(_) =>
      case FirstFetchKey(opens) =>
        if AllDone(s.rows) {
          UnstartedRace(s, opens);
        }
      case WatchKey(_) => SettleCollecting(StopWatch(s), capHit, ok);
      case CancelKey => SettleCollecting(Silenced(s), capHit, ok);
      case ToggleKey(_) =>
      case SelectAllKey(_) =>
      case RetryKey(_) =>
      case DispatchKey =>
    }
  }

  lemma UnstartedRace(s: State, opens: bool)
    requires !AnyConfigured(s.rows)
    ensures StartFirstFetch(s, opens).mode == s.mode
  {
  }

  lemma AuthCollecting(s: State, auth: Auth, capHit: bool, ok: bool)
    requires s.books.container.Some? && OnAuth(s, auth, capHit, ok).books.container.Some?
    ensures OnAuth(s, auth, capHit, ok).mode.collecting <==> s.mode.collecting
  {
    match auth {
      case Token(_, _) =>
      case TokenFailed(crn, _) => SettleCollecting(Failed(s, crn), capHit, ok);
      case EnvFailed(env, _) => SettleCollecting(s.(rows := Map(s.rows, Authing(Some(env), Error))), capHit, ok);
      case EnvCancelled(env, _) => SettleCollecting(s.(rows := Map(s.rows, Authing(Some(env), Cancelled))), capHit, ok);
      case PasscodeFailed(env) => SettleCollecting(s.(rows := Map(s.rows, Authing(Some(env), Error))), capHit, ok);
      case PasscodeCancelled(env) => SettleCollecting(s.(rows := Map(s.rows, Authing(Some(env), Enabled))), capHit, ok);
      case PasscodeAccepted(_) => SettleCollecting(s, capHit, ok);
    }
  }

  lemma StreamCollecting(s: State, crn: Crn, id: nat, count: nat, room: nat, warns: bool,
                         errs: bool, capHit: bool, ok: bool)
    ensures OnLogStream(s, crn, id, count, room, warns, errs).mode.collecting == s.mode.collecting
    ensures var u := OnLogStreamDone(s, crn, errs, capHit, ok);
            s.books.container.Some? && u.books.container.Some? ==> u.mode.collecting == s.mode.collecting
  {
    SettleCollecting(Ended(s, crn, errs), capHit, ok);
  }

  lemma TickCollecting(s: State, epoch: nat, capHit: bool, ok: bool)
    ensures var u := OnWatchTick(s, epoch, capHit, ok);
            s.books.container.Some? && u.books.container.Some? ==> u.mode.collecting == s.mode.collecting
  {
  }

  lemma MessageCollecting(s: State, message: Message, capHit: bool, ok: bool)
    requires s.books.container.Some? && OnMessage(s, message, capHit, ok).books.container.Some?
    requires message.Collect? ==> s.mode.fetching || s.mode.watching || !AllConfigured(s.rows, message.crns)
    ensures OnMessage(s, message, capHit, ok).mode.collecting <==> s.mode.collecting
  {
    match message {
      case Collect(_, _) =>
      case Stream(crn, id, count, room, warns, errs) =>
        StreamCollecting(s, crn, id, count, room, warns, errs, capHit, ok);
      case StreamEnd(crn, errs) => StreamCollecting(s, crn, 0, 0, 0, false, errs, capHit, ok);
      case Flushed(k, compressed, bytes, io, backed) =>
        if k < |s.books.messages| {
          SettleCollecting(Delivered(s, k, compressed, bytes, io, backed), capHit, ok);
        }
      case Load(_, _) =>
      case Loaded(_, _, _) =>
      case Tick(epoch) => TickCollecting(s, epoch, capHit, ok);
      case DispatchDone(_, _) =>
      case ViewInContext(_) =>
      case Restore(_) =>
      case Evict =>
    }
  }

  /** While a fetch's container is open, only cancelling everything takes back that it is a collect. */
  lemma CollectingKept(s: State, t: Step)
    requires s.books.container.Some? && Next(s, t).books.container.Some? && !Starts(s, t)
    ensures Next(s, t).mode.collecting <==> s.mode.collecting && t.event != Pressed(CancelKey)
  {
    match t.event {
      case Pressed(key) => KeyCollecting(s, key, t.capHit, t.ok);
      case Authed(auth) => AuthCollecting(s, auth, t.capHit, t.ok);
      case Received(message) => MessageCollecting(s, message, t.capHit, t.ok);
    }
  }

  /** The container of fetch `epoch` is open. */
  predicate OpenAt(s: State, epoch: nat) {
    s.books.container.Some? && s.books.epoch == epoch
  }

  ghost function Staying(s: State, epoch: nat): seq<Step> -> bool {
    (run: seq<Step>) => OpenAt(After(s, run), epoch)
  }

  /** The container of the fetch that is on stays open throughout. */
  ghost predicate StaysOpen(s: State, steps: seq<Step>) {
    Always(Staying(s, s.books.epoch), steps)
  }

  predicate NoCancel(steps: seq<Step>) {
    forall n :: 0 <= n < |steps| ==> steps[n].event != Pressed(CancelKey)
  }

  lemma CollectingOne(s: State, t: Step, epoch: nat)
    requires OpenAt(s, epoch) && OpenAt(Next(s, t), epoch)
    ensures Next(s, t).mode.collecting <==> s.mode.collecting && t.event != Pressed(CancelKey)
  {
    NextContinues(s, t);
    CollectingKept(s, t);
  }

  lemma {:induction false} CollectingThroughout(s: State, steps: seq<Step>)
    requires StaysOpen(s, steps)
    ensures After(s, steps).mode.collecting <==> s.mode.collecting && NoCancel(steps)
  {
    AlwaysFront(Staying(s, s.books.epoch), steps);
    if steps == [] {
    } else {
      var m := |steps| - 1;
      AlwaysFront(Staying(s, s.books.epoch), steps[..m]);
      CollectingThroughout(s, steps[..m]);
      CollectingOne(After(s, steps[..m]), steps[m], s.books.epoch);
      NoCancelFront(steps);
    }
  }

  lemma NoCancelFront(steps: seq<Step>)
    requires steps != []
    ensures NoCancel(steps) <==> NoCancel(steps[..|steps| - 1]) && steps[|steps| - 1].event != Pressed(CancelKey)
  {
    assert forall n :: 0 <= n < |steps| - 1 ==> steps[..|steps| - 1][n] == steps[n];
  }

  /** The container has its writer when the event comes to settle, no member's log count contradicts its
      size, and the rest of publishing works. */
  predicate CanPublish(s: State, t: Step) {
    && CarriedBy(s, t).container.Some? && CarriedBy(s, t).container.value.writable
    && Sound(Next(s, t).rows, Next(s, t).members) && t.ok
  }

  /** The event closes the container of fetch `epoch`, and no row shows a log. */
  ghost predicate EndsEmpty(s: State, t: Step, epoch: nat) {
    Next(s, t).books.container.None? && Next(s, t).books.epoch == epoch && !AnyLogs(Next(s, t).rows)
  }

  lemma EmptyClose(s: State, t: Step, epoch: nat)
    requires OpenAt(s, epoch) && EndsEmpty(s, t, epoch)
    ensures Next(s, t).books.journal != s.books.journal <==> s.mode.collecting && CanPublish(s, t)
  {
    NextContinues(s, t);
    CarriedCounts(s, t);
  }

  /** A plain fetch whose container an event closes with no logs to show is published if and only if
      the picker was still collecting at the fetch key, nobody has cancelled since, and the snapshot
      can be published. */
  lemma EmptyFetch(s: State, fetch: State, steps: seq<Step>, t: Step)
    requires fetch == StartFetch(s, true) && StaysOpen(fetch, steps)
    requires EndsEmpty(After(fetch, steps), t, fetch.books.epoch)
    ensures Next(After(fetch, steps), t).books.journal != After(fetch, steps).books.journal
            <==> s.mode.collecting && NoCancel(steps) && CanPublish(After(fetch, steps), t)
  {
    CollectingThroughout(fetch, steps);
    AlwaysFront(Staying(fetch, fetch.books.epoch), steps);
    EmptyClose(After(fetch, steps), t, fetch.books.epoch);
  }
}
