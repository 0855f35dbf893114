/** What each event makes of the rows: of their badges, their queries and what they show. */
module FetchRows {
  import opened Options
  import opened FetchState

  /** A row that takes part in a fetch. */
  predicate Chosen(i: Instance) {
    !i.readOnly && i.phase != Disabled && i.phase != Cancelled
  }

  // ---------------------------------------------------------------- settling

  /** No query runs, and no flush is undelivered. */
  predicate Over(s: State) {
    && s.books.pending == 0
    && forall j :: 0 <= j < |s.rows| ==>
         s.rows[j].phase != AuthInProgress && s.rows[j].phase != InProgress && s.rows[j].phase != Watching
  }

  /** A member of the watched fetch that still has no logs, and has not failed. */
  predicate Empty(s: State, i: Instance) {
    (s.members.Only? ==> i.crn in s.members.crns) && Chosen(i) && i.phase != Error && i.live == 0 && i.flushed == 0
  }

  /** The watch goes on with another round. */
  predicate Rests(s: State, capHit: bool) {
    s.mode.watching && !capHit && exists j :: 0 <= j < |s.rows| && Empty(s, s.rows[j])
  }

  /** A candidate that a decided or abandoned race leaves behind. */
  predicate LeftBehind(race: Race, crn: Crn) {
    race.candidates.Some? && crn in race.candidates.value && race.winner != Some(crn)
  }

  /** How a handler that comes to `s` leaves the rows and the race. */
  predicate Settled(s: State, capHit: bool, u: State) {
    && |u.rows| == |s.rows|
    && u.mode.rounds == s.mode.rounds + (if Over(s) && s.mode.watching then 1 else 0)
    && u.race == (if Over(s) && !Rests(s, capHit) && s.race.candidates.Some? then Race(None, None) else s.race)
    && forall k :: 0 <= k < |s.rows| ==>
         u.rows[k]
         == if !Over(s) then s.rows[k]
            else if Rests(s, capHit) then (if Empty(s, s.rows[k]) then s.rows[k].(phase := Watching) else s.rows[k])
            else if LeftBehind(s.race, s.rows[k].crn) then s.rows[k].(phase := Cancelled)
            else s.rows[k]
  }

  /** Nothing happens to a row while a query runs or a flush is undelivered. Then a watch lets its empty
      members wait for another round, if it has any and no cap is hit; and otherwise the fetch is over,
      and cancels what its race leaves behind. */
  lemma SettleRows(s: State, capHit: bool, ok: bool)
    ensures Settled(s, capHit, Settle(s, capHit, ok))
  {
    assert Over(s) <==> Idle(s);
    assert Rests(s, capHit) <==> s.mode.watching && !capHit && AnyEmpty(s.rows, s.members);
  }

  /** The log count that the snapshot declares of a row. */
  function Declared(i: Instance): nat {
    if !i.readOnly && i.live > 0 then i.live else i.flushed
  }

  /** Nothing the snapshot declares has logs without bytes or bytes without logs: no member's row, and no
      record that has no row. */
  predicate SizesAgree(s: State) {
    && (forall k :: 0 <= k < |s.rows| && (s.members.Only? ==> s.rows[k].crn in s.members.crns) ==>
          (Declared(s.rows[k]) > 0 <==> s.rows[k].size > 0))
    && (s.members.Only? ==>
          forall m :: m in s.members.records && !HasRow(s.rows, m.crn) ==> (m.count > 0 <==> m.size > 0))
  }

  predicate Shows(rows: seq<Instance>) {
    exists k :: 0 <= k < |rows| && (rows[k].live > 0 || rows[k].flushed > 0)
  }

  /** What the books make of a container that is closed. */
  function ClosedBooks(s: State, ok: bool): Books
    requires s.books.container.Some?
  {
    var b := s.books;
    var publishes := (Shows(s.rows) || s.mode.collecting) && SizesAgree(s) && b.container.value.writable && ok;
    b.(container := None,
       journal := b.journal + if publishes
                              then [Published(b.epoch, b.container.value.frames, Shows(s.rows), b.started, b.lost)]
                              else [])
  }

  /** And with the fetch its container is over: published if it has logs to show or is a collect, its sizes
      agree, it has its writer and the rest works, and closed in any case; and so is the watch. */
  lemma SettleBooksAndMode(s: State, capHit: bool, ok: bool)
    ensures var u, ends := Settle(s, capHit, ok), Over(s) && !Rests(s, capHit);
            && u.books == (if ends && s.books.container.Some? then ClosedBooks(s, ok) else s.books)
            && u.mode.collecting == (s.mode.collecting && !ends)
            && u.mode.fetching == (s.mode.fetching && !(ends && s.books.container.Some?))
            && u.mode.watching == (s.mode.watching && !ends)
            && u.mode.watchEpoch == s.mode.watchEpoch + (if ends && s.mode.watching then 1 else 0)
            && u.members == s.members && u.loads == s.loads
  {
    assert Over(s) <==> Idle(s);
    assert Rests(s, capHit) <==> s.mode.watching && !capHit && AnyEmpty(s.rows, s.members);
    PublishesMeans(s);
  }

  lemma PublishesMeans(s: State)
    ensures AnyLogs(s.rows) <==> Shows(s.rows)
    ensures Sound(s.rows, s.members) <==> SizesAgree(s)
  {
    assert forall k :: 0 <= k < |s.rows| ==>
      (DisplayLogCount(s.rows[k]) > 0 <==> s.rows[k].live > 0 || s.rows[k].flushed > 0);
    assert forall k :: 0 <= k < |s.rows| ==> Declared(s.rows[k]) == DeclaredCount(s.rows[k]);
    if s.members.Only? {
      forall m | m in s.members.records
        ensures First(s.rows, m.crn).None? <==> !HasRow(s.rows, m.crn)
      {
        FirstHas(s.rows, m.crn);
      }
    }
  }

  predicate HasRow(rows: seq<Instance>, crn: Crn) {
    exists k :: 0 <= k < |rows| && rows[k].crn == crn
  }

  lemma FirstHas(rows: seq<Instance>, crn: Crn)
    ensures First(rows, crn).Some? <==> HasRow(rows, crn)
  {
  }

  // ---------------------------------------------------------------- batches

  /** A batch counts for row `k`: in a race only if the row is an enabled candidate, under its current
      query, and nobody else has won. */
  predicate Counts(s: State, crn: Crn, id: nat, k: nat) {
    && First(s.rows, crn) == Some(k) && s.rows[k].phase != Cancelled
    && (s.race.candidates.Some? ==>
          && crn in s.race.candidates.value && Chosen(s.rows[k]) && id == s.rows[k].query
          && (s.race.winner == None || s.race.winner == Some(crn)))
  }

  /** The batch that decides the race. */
  predicate Decides(s: State, count: nat) {
    s.race.candidates.Some? && s.race.winner == None && count > 0
  }

  /** What the decision makes of another candidate: it stops, and shows it, unless it has ended or failed. */
  predicate Stopped(i: Instance, j: Instance) {
    && j == i.(phase := j.phase, streaming := j.streaming)
    && j.phase == (if i.phase == AuthInProgress || i.phase == Warning || (i.phase == InProgress && i.streaming)
                   then Cancelled else i.phase)
    && j.streaming == (i.streaming && i.phase != InProgress && i.phase != Warning && i.phase != Error)
  }

  /** What a batch that counts for row `w` makes of row `k`. */
  predicate BatchOn(s: State, w: nat, k: nat, j: Instance, count: nat, warns: bool, errs: bool)
    requires w < |s.rows| && k < |s.rows|
  {
    var i := s.rows[k];
    if k == w then j.phase == if errs then Error else if warns && i.phase != Error then Warning else i.phase
    else if Decides(s, count) && i.crn in s.race.candidates.value && i.crn != s.rows[w].crn then Stopped(i, j)
    else j == i
  }

  /** What a batch makes of the badges: an error stays, a warning stays unless an error comes, and the
      first logs of a race stop the other candidates. A batch that does not count changes nothing. */
  lemma BatchRows(s: State, crn: Crn, id: nat, count: nat, room: nat, warns: bool, errs: bool, w: nat, k: nat)
    requires Counts(s, crn, id, w) && k < |s.rows|
    ensures var u := OnLogStream(s, crn, id, count, room, warns, errs);
            && |u.rows| == |s.rows| && BatchOn(s, w, k, u.rows[k], count, warns, errs)
            && u.race == (if Decides(s, count) then Race(s.race.candidates, Some(crn)) else s.race)
  {
    if Decides(s, count) {
      SameFirst(s.rows, Elect(s, crn).rows, crn);
      Loses(s, crn, w, k);
    }
  }

  lemma Loses(s: State, crn: Crn, w: nat, k: nat)
    requires First(s.rows, crn) == Some(w) && k < |s.rows| && s.race.candidates.Some?
    ensures var u, i := Elect(s, crn), s.rows[k];
            && |u.rows| == |s.rows|
            && if i.crn in s.race.candidates.value && i.crn != crn then Stopped(i, u.rows[k]) else u.rows[k] == i
  {
  }

  lemma BatchIgnored(s: State, crn: Crn, id: nat, count: nat, room: nat, warns: bool, errs: bool)
    requires forall w :: 0 <= w < |s.rows| ==> !Counts(s, crn, id, w)
    ensures OnLogStream(s, crn, id, count, room, warns, errs) == s
  {
    var at := First(s.rows, crn);
    if at.Some? {
      assert !Counts(s, crn, id, at.value);
      assert s.rows[at.value := s.rows[at.value]] == s.rows;
    }
  }

  // ---------------------------------------------------------------- what settles

  /** The end of a stream that hands nothing over: its row shows an error if it ends with one, and success
      if it has still been running. */
  lemma EndSettles(s: State, crn: Crn, errs: bool, w: nat, capHit: bool, ok: bool)
    requires First(s.rows, crn) == Some(w) && (s.rows[w].live == 0 || s.books.container == None)
    ensures OnLogStreamDone(s, crn, errs, capHit, ok)
            == Settle(s.(rows := s.rows[w := s.rows[w].(phase := if s.rows[w].phase == Cancelled then Cancelled
                                                                 else if errs then Error
                                                                 else if s.rows[w].phase == InProgress then Success
                                                                 else s.rows[w].phase)]), capHit, ok)
  {
  }

  /** A token that has failed: its row shows an error, unless it has lost the race. */
  lemma FailureSettles(s: State, crn: Crn, w: nat, capHit: bool, ok: bool)
    requires First(s.rows, crn) == Some(w)
    ensures OnMemberAuthFailed(s, crn, s.mode.generation, capHit, ok)
            == Settle(if s.race.winner.Some? && LeftBehind(s.race, crn) then s
                      else s.(rows := s.rows[w := s.rows[w].(phase := Error)]), capHit, ok)
  {
  }

  /** Rows that differ in the phase of those which wait for a token of `env`. */
  predicate Moves(rows: seq<Instance>, after: seq<Instance>, env: Environment, to: Phase) {
    && |after| == |rows|
    && forall k :: 0 <= k < |rows| ==>
         after[k] == if rows[k].env == env && rows[k].phase == AuthInProgress then rows[k].(phase := to) else rows[k]
  }

  /** What a message about an environment makes of its waiting rows: a failed credential or passcode is an
      error, a cancelled resolution cancels them, and a cancelled dialog sets them back to enabled. */
  lemma EnvironmentSettles(s: State, auth: Auth, capHit: bool, ok: bool, after: seq<Instance>)
    requires !auth.Token? && !auth.TokenFailed? && !auth.PasscodeAccepted?
    requires auth.EnvFailed? || auth.EnvCancelled? ==> auth.generation == s.mode.generation
    requires Moves(s.rows, after, auth.env, if auth.EnvCancelled? then Cancelled
                                            else if auth.PasscodeCancelled? then Enabled else Error)
    ensures OnAuth(s, auth, capHit, ok) == Settle(s.(rows := after), capHit, ok)
  {
    var to := if auth.EnvCancelled? then Cancelled else if auth.PasscodeCancelled? then Enabled else Error;
    assert Map(s.rows, Authing(Some(auth.env), to)) == after;
  }

  /** An accepted passcode settles only if it leaves no row of its environment waiting. */
  lemma PasscodeSettles(s: State, env: Environment, capHit: bool, ok: bool)
    ensures OnAuth(s, PasscodeAccepted(env), capHit, ok)
            == if exists k :: 0 <= k < |s.rows| && s.rows[k].env == env && s.rows[k].phase == AuthInProgress then s
               else Settle(s, capHit, ok)
  {
  }

  // ---------------------------------------------------------------- cancelling

  /** Rows of which every query is stopped: those that ran, waited for a token, or waited for the next
      round of a watch are cancelled. */
  predicate Cancels(rows: seq<Instance>, after: seq<Instance>, watching: bool) {
    && |after| == |rows|
    && forall k :: 0 <= k < |rows| ==>
         after[k] == rows[k].(streaming := false,
                              phase := if || rows[k].phase == AuthInProgress
                                          || (rows[k].phase == InProgress && rows[k].streaming)
                                          || (rows[k].phase == Watching && watching)
                                       then Cancelled else rows[k].phase)
  }

  /** Cancelling everything stops the rows and the watch, outdates the tokens that are on their way, and
      settles; nothing is on any more. */
  lemma CancelSettles(s: State, capHit: bool, ok: bool, after: seq<Instance>)
    requires Cancels(s.rows, after, s.mode.watching)
    ensures var m := s.mode;
            var u := Settle(s.(rows := after,
                               mode := m.(watching := false, fetchCancelled := true, generation := m.generation + 1,
                                          watchEpoch := m.watchEpoch + if m.watching then 1 else 0)), capHit, ok);
            CancelAllFetches(s, capHit, ok) == u.(mode := u.mode.(collecting := false, fetching := false))
  {
    hide Settle;
    var stopped := StopWatch(s);
    assert Map(Map(stopped.rows, Authing(None, Cancelled)), Cancelling()) == after;
  }

  // ---------------------------------------------------------------- choosing rows

  /** Toggling a row flips whether it is chosen, and touches no other. A row that is turned on is enabled; one
      that is turned off while it waits or runs is cancelled, with its query, and else disabled. A row
      that runs without a query would stay; no run has one. */
  lemma ToggleFlips(s: State, k: nat, capHit: bool, ok: bool)
    requires k < |s.rows|
    ensures var u, i := OnKey(s, ToggleKey(k), capHit, ok), s.rows[k];
            && u == s.(rows := u.rows) && |u.rows| == |s.rows| && u.rows == s.rows[k := u.rows[k]]
            && if i.readOnly || (i.phase == InProgress && !i.streaming) then u.rows[k] == i
               else
                 && (Chosen(u.rows[k]) <==> !Chosen(i))
                 && u.rows[k] == i.(streaming := i.streaming && i.phase != InProgress,
                                    phase := if !Chosen(i) then Enabled
                                             else if i.phase == AuthInProgress || i.phase == InProgress then Cancelled
                                             else Disabled)
  {
  }

  predicate AllChosen(rows: seq<Instance>, visible: set<Crn>) {
    forall k :: 0 <= k < |rows| && rows[k].crn in visible && !rows[k].readOnly ==> Chosen(rows[k])
  }

  /** The all-selector disables the visible rows if all of them are chosen, and else enables those that are
      not. */
  lemma SelectAllRows(s: State, visible: set<Crn>, k: nat, capHit: bool, ok: bool)
    requires k < |s.rows|
    ensures var u, i := OnKey(s, SelectAllKey(visible), capHit, ok), s.rows[k];
            && |u.rows| == |s.rows| && u == s.(rows := u.rows)
            && u.rows[k] == (if i.crn !in visible || i.readOnly then i
                             else if AllChosen(s.rows, visible) then i.(phase := Disabled)
                             else if Chosen(i) then i else i.(phase := Enabled))
  {
    assert AllChosen(s.rows, visible) <==> AllVisibleEnabled(s.rows, visible);
  }

  /** Viewing one instance in context chooses it and no other. */
  lemma ViewRows(s: State, crn: Crn, k: nat, capHit: bool, ok: bool)
    requires k < |s.rows|
    ensures var u, i := OnMessage(s, ViewInContext(crn), capHit, ok), s.rows[k];
            && |u.rows| == |s.rows| && u == s.(rows := u.rows)
            && u.rows[k] == (if i.readOnly then i else i.(phase := if i.crn == crn then Enabled else Disabled))
  {
  }

  /** A row that has failed is tried again, with an empty store; any other row is left alone. */
  lemma RetryRows(s: State, k: nat, capHit: bool, ok: bool)
    requires k < |s.rows|
    ensures OnKey(s, RetryKey(k), capHit, ok)
            == if s.rows[k].phase != Error then s
               else s.(rows := s.rows[k := s.rows[k].(phase := AuthInProgress, live := 0,
                                                      query := s.rows[k].query + 1)])
  {
    assert s.rows[k := s.rows[k]] == s.rows;
  }

  // ---------------------------------------------------------------- archive dispatch

  /** An archive is dispatched to every row that is chosen, unless a fetch or a watch is on or none is. */
  lemma DispatchRows(s: State, k: nat, capHit: bool, ok: bool)
    requires k < |s.rows|
    ensures var u := OnKey(s, DispatchKey, capHit, ok);
            if s.mode.fetching || s.mode.watching || (forall j :: 0 <= j < |s.rows| ==> !Chosen(s.rows[j])) then u == s
            else
              && |u.rows| == |s.rows| && u == s.(rows := u.rows, mode := s.mode.(fetching := true))
              && u.rows[k] == (if Chosen(s.rows[k]) then s.rows[k].(phase := AuthInProgress) else s.rows[k])
  {
    assert AnyEnabled(s.rows) <==> exists j :: 0 <= j < |s.rows| && Chosen(s.rows[j]);
  }

  /** A dispatched instance that is done shows whether it was submitted, unless it was cancelled. */
  lemma DispatchDoneRows(s: State, crn: Crn, submitted: bool, w: nat)
    requires First(s.rows, crn) == Some(w)
    ensures var u := OnDispatchInstanceDone(s, crn, submitted);
            && u.rows == (if s.rows[w].phase == Cancelled then s.rows
                          else s.rows[w := s.rows[w].(phase := if submitted then Success else Error)])
            && u == s.(rows := u.rows, mode := s.mode.(fetching := u.mode.fetching))
  {
  }

  // ---------------------------------------------------------------- starting

  /** The rows with which a fetch starts, of the configured ones: each has forgotten its logs and outdated
      its stream, and waits for its token if it was chosen. */
  predicate Begins(rows: seq<Instance>, after: seq<Instance>) {
    && |after| == |rows|
    && forall k :: 0 <= k < |rows| ==>
         after[k] == rows[k].(live := 0, flushed := 0, size := 0, query := rows[k].query + 1,
                              phase := if Chosen(rows[k]) then AuthInProgress else Disabled)
  }

  lemma ConfiguredParts(rows: seq<Instance>, row: Instance)
    ensures Configured([]) == [] && Configured([row] + rows) == (if row.readOnly then [] else [row]) + Configured(rows)
  {
    assert ([row] + rows)[1..] == rows;
  }

  /** Whatever fetch was on is abandoned, with its container, its flushes and its waiting loads; and then a
      new one is on, under a new epoch and generation, if its container can be opened. */
  predicate Reopened(s: State, u: State, opens: bool) {
    && u.books == Books(if opens then Some(Container(s.books.epoch + 1, true, [])) else None, 0, s.books.epoch + 1,
                        s.books.messages, 0, 0, s.books.journal)
    && u.loads == {} && u.mode.fetching == opens
    && u.mode.fetchCancelled == (!opens && s.mode.fetchCancelled)
    && u.mode.generation == s.mode.generation + (if opens then 1 else 0)
  }

  lemma SourcesStart(s: State, opens: bool)
    ensures var u := StartFetchWithSources(s, opens);
            && Reopened(s, u, opens) && u.members == s.members && u.race == s.race
            && u.mode == s.mode.(fetching := u.mode.fetching, fetchCancelled := u.mode.fetchCancelled,
                                 generation := u.mode.generation)
            && (!opens ==> u.rows == s.rows) && (opens && AllConfigurable(s.rows) ==> Begins(s.rows, u.rows))
  {
  }

  predicate AllConfigurable(rows: seq<Instance>) {
    forall k :: 0 <= k < |rows| ==> !rows[k].readOnly
  }

  lemma FetchStarts(s: State, opens: bool)
    ensures var u := StartFetch(s, opens);
            && Reopened(s, u, opens) && u.members == Only(ChosenCrns(Configured(s.rows)), []) && u.race == s.race
            && u.mode == s.mode.(fetching := u.mode.fetching, fetchCancelled := u.mode.fetchCancelled,
                                 generation := u.mode.generation)
            && (!opens ==> u.rows == Configured(s.rows))
  {
    ChosenEnabled(Configured(s.rows));
  }

  lemma FetchRowsBegin(s: State)
    ensures Begins(Configured(s.rows), StartFetch(s, true).rows)
  {
    var rows := Configured(s.rows);
    forall k | 0 <= k < |rows|
      ensures !rows[k].readOnly
    {
      assert rows[k] in rows;
    }
  }

  /** The CRNs of the chosen rows. */
  function ChosenCrns(rows: seq<Instance>): set<Crn> {
    set i | i in rows && Chosen(i) :: i.crn
  }

  /** The rows between which a first fetch races: those that are chosen, and all configured ones if none is. */
  predicate Eager(rows: seq<Instance>, willing: seq<Instance>) {
    && |willing| == |rows|
    && forall k :: 0 <= k < |rows| ==>
         willing[k] == if ChosenCrns(rows) != {} || rows[k].readOnly then rows[k] else rows[k].(phase := Enabled)
  }

  /** A race is on between the chosen rows of `willing`, or none is if no container could be opened. */
  predicate RaceOn(s: State, u: State, opens: bool, willing: seq<Instance>) {
    && Reopened(s, u, opens) && u.race == Race(if opens then Some(ChosenCrns(willing)) else None, None)
    && u.members == Only(ChosenCrns(Configured(willing)), [])
    && (if opens then Begins(Configured(willing), u.rows) else u.rows == Configured(willing))
    && u.mode == s.mode.(fetching := u.mode.fetching, fetchCancelled := u.mode.fetchCancelled,
                         generation := u.mode.generation)
  }

  lemma RaceStarts(s: State, opens: bool, willing: seq<Instance>, racing: State)
    requires racing == s.(rows := willing, race := Race(Some(ChosenCrns(willing)), None))
    ensures var started := StartFetch(racing, opens);
            RaceOn(s, if opens then started else started.(race := Race(None, None)), opens, willing)
  {
    hide Begins, Configured, ChosenCrns;
    FetchStarts(racing, opens);
    FetchRowsBegin(racing);
    hide StartFetch;
  }

  /** The first-fetch key starts a race between these; with nothing configured it does nothing. */
  lemma RaceBegins(s: State, opens: bool, willing: seq<Instance>)
    requires Eager(s.rows, willing)
    ensures var u := StartFirstFetch(s, opens);
            if ChosenCrns(willing) == {} then u == s.(rows := willing) else RaceOn(s, u, opens, willing)
  {
    WillingIs(s, willing);
    RaceIs(s, opens, willing);
    hide StartFirstFetch, StartFetch, Eager, RaceOn, ChosenCrns;
    RaceStarts(s, opens, willing, s.(rows := willing, race := Race(Some(ChosenCrns(willing)), None)));
  }

  lemma WillingIs(s: State, willing: seq<Instance>)
    requires Eager(s.rows, willing)
    ensures Willing(s).rows == willing
  {
    ChosenEnabled(s.rows);
    if !AnyEnabled(s.rows) {
      assert Map(s.rows, EnablingAll()) == willing;
    }
  }

  lemma RaceIs(s: State, opens: bool, willing: seq<Instance>)
    requires Willing(s).rows == willing
    ensures StartFirstFetch(s, opens)
            == if ChosenCrns(willing) == {} then s.(rows := willing)
               else
                 var started := StartFetch(s.(rows := willing, race := Race(Some(ChosenCrns(willing)), None)), opens);
                 if opens then started else started.(race := Race(None, None))
  {
    ChosenEnabled(willing);
    assert Racing(Willing(s)) == s.(rows := willing, race := Race(Some(EnabledCrns(willing)), None));
  }

  lemma ChosenEnabled(rows: seq<Instance>)
    ensures ChosenCrns(rows) == EnabledCrns(rows) && (ChosenCrns(rows) != {} <==> AnyEnabled(rows))
  {
    if AnyEnabled(rows) {
      var k :| 0 <= k < |rows| && IsEnabled(rows[k]);
      assert rows[k].crn in ChosenCrns(rows);
    }
    if c :| c in ChosenCrns(rows) {
      var i :| i in rows && Chosen(i) && i.crn == c;
    }
  }

  /** The archive's instances are all configured. */
  predicate Collectable(s: State, crns: set<Crn>) {
    && !s.mode.fetching && !s.mode.watching
    && forall c :: c in crns ==> HasRow(Configured(s.rows), c)
  }

  lemma CollectableMeans(s: State, crns: set<Crn>)
    ensures Collectable(s, crns) <==> !s.mode.fetching && !s.mode.watching && AllConfigured(s.rows, crns)
  {
    forall c | c in crns
      ensures HasRow(Configured(s.rows), c)
              <==> exists k :: 0 <= k < |s.rows| && s.rows[k].crn == c && !s.rows[k].readOnly
    {
      var rows := Configured(s.rows);
      if k :| 0 <= k < |rows| && rows[k].crn == c {
        assert rows[k] in rows && rows[k] in s.rows;
      }
      if k :| 0 <= k < |s.rows| && s.rows[k].crn == c && !s.rows[k].readOnly {
        assert s.rows[k] in rows;
      }
    }
  }

  /** Exactly the rows of the archive are chosen, of the configured ones. */
  predicate Chooses(rows: seq<Instance>, crns: set<Crn>, chosen: seq<Instance>) {
    && |chosen| == |Configured(rows)|
    && forall k :: 0 <= k < |chosen| ==>
         chosen[k] == Configured(rows)[k].(phase := if Configured(rows)[k].crn in crns then Enabled else Disabled)
  }

  /** A collect is on with those rows; or, if its container cannot be opened, neither a fetch nor a collect. */
  predicate CollectOn(s: State, u: State, crns: set<Crn>, opens: bool, chosen: seq<Instance>) {
    && Reopened(s, u, opens) && u.members == Only(crns, []) && u.race == s.race
    && (if opens then Begins(chosen, u.rows) else u.rows == chosen)
    && u.mode == s.mode.(collecting := opens, fetching := u.mode.fetching, generation := u.mode.generation,
                         fetchCancelled := u.mode.fetchCancelled)
  }

  /** A collect is taken if and only if neither a fetch nor a watch is on and all its instances are
      configured. */
  lemma CollectStarts(s: State, crns: set<Crn>, opens: bool, chosen: seq<Instance>)
    requires Chooses(s.rows, crns, chosen)
    ensures var u := StartCollect(s, crns, opens);
            if Collectable(s, crns) then CollectOn(s, u, crns, opens, chosen) else u == s
  {
    CollectIs(s, crns, opens, chosen);
    hide StartCollect, StartFetchWithSources, Collectable, CollectOn, Chooses;
    CollectOpens(s, crns, opens, chosen);
  }

  lemma CollectIs(s: State, crns: set<Crn>, opens: bool, chosen: seq<Instance>)
    requires Chooses(s.rows, crns, chosen)
    ensures StartCollect(s, crns, opens)
            == if !Collectable(s, crns) then s
               else
                 var started := StartFetchWithSources(s.(rows := chosen, members := Only(crns, []),
                                                         mode := s.mode.(collecting := true)), opens);
                 if opens then started else started.(mode := started.mode.(collecting := false))
  {
    CollectableMeans(s, crns);
    hide StartFetchWithSources, Collectable, ForCollect, AllConfigured;
    ArchiveChooses(s, crns, chosen);
  }

  lemma CollectOpens(s: State, crns: set<Crn>, opens: bool, chosen: seq<Instance>)
    requires Chooses(s.rows, crns, chosen)
    ensures var started := StartFetchWithSources(s.(rows := chosen, members := Only(crns, []),
                                                    mode := s.mode.(collecting := true)), opens);
            CollectOn(s, if opens then started else started.(mode := started.mode.(collecting := false)), crns, opens,
                      chosen)
  {
    ArchiveChooses(s, crns, chosen);
    hide StartFetchWithSources, Begins, AllConfigurable, Chooses;
    SourcesStart(s.(rows := chosen, members := Only(crns, []), mode := s.mode.(collecting := true)), opens);
  }

  lemma ArchiveChooses(s: State, crns: set<Crn>, chosen: seq<Instance>)
    requires Chooses(s.rows, crns, chosen)
    ensures ForCollect(s, crns) == s.(rows := chosen, members := Only(crns, []), mode := s.mode.(collecting := true))
    ensures AllConfigurable(chosen)
  {
    var rows := Configured(s.rows);
    forall k | 0 <= k < |rows|
      ensures !rows[k].readOnly
    {
      assert rows[k] in rows;
    }
    assert Map(rows, EnablingOnly(crns)) == chosen;
  }

  // ---------------------------------------------------------------- watching

  /** The watch key starts a watched fetch like any other, counting rounds from none; or stops a watch, which
      cancels the rows that wait for its next round. */
  lemma WatchKeyRows(s: State, opens: bool, capHit: bool, ok: bool, after: seq<Instance>)
    requires |after| == |s.rows|
    requires forall k :: 0 <= k < |s.rows| ==>
               after[k] == if s.rows[k].phase == Watching then s.rows[k].(phase := Cancelled) else s.rows[k]
    ensures var u, m := OnKey(s, WatchKey(opens), capHit, ok), s.mode;
            if m.watching then
              u == Settle(s.(rows := after, mode := m.(watching := false, watchEpoch := m.watchEpoch + 1)), capHit, ok)
            else if !AllDone(s.rows) then u == s
            else
              && Reopened(s, u, opens) && u.members == Only(ChosenCrns(Configured(s.rows)), []) && u.race == s.race
              && (if opens then Begins(Configured(s.rows), u.rows) else u.rows == Configured(s.rows))
              && u.mode == m.(watching := opens, watchEpoch := m.watchEpoch + 1, rounds := 0,
                              fetching := u.mode.fetching, generation := u.mode.generation,
                              fetchCancelled := u.mode.fetchCancelled)
  {
    if s.mode.watching {
      hide Settle;
      assert StopWatch(s).rows == after;
    } else if AllDone(s.rows) {
      hide StartFetch, Configured, Begins, ChosenCrns, AllDone;
      FetchStarts(ForWatch(s), opens);
      FetchRowsBegin(ForWatch(s));
    }
  }

  /** The tick of the watch that is on starts its next round, in which the rows that wait are fetched again;
      with none of them, or at a cap, it ends the watch. */
  lemma TickRows(s: State, capHit: bool, ok: bool, after: seq<Instance>)
    requires s.mode.watching && |after| == |s.rows|
    requires forall k :: 0 <= k < |s.rows| ==>
               after[k] == if (s.members.Only? ==> s.rows[k].crn in s.members.crns) && s.rows[k].phase == Watching
                           then s.rows[k].(phase := AuthInProgress, live := 0, query := s.rows[k].query + 1)
                           else s.rows[k]
    ensures OnWatchTick(s, s.mode.watchEpoch, capHit, ok)
            == if !capHit && after != s.rows then s.(rows := after)
               else Settle(s.(mode := s.mode.(watching := false, watchEpoch := s.mode.watchEpoch + 1)), capHit, ok)
  {
    WaitingRows(s, after);
    if capHit || after == s.rows {
      WatchEnds(s, capHit, ok);
    }
  }

  /** A tick of another watch, or with none on, does nothing. */
  lemma StaleTick(s: State, epoch: nat, capHit: bool, ok: bool)
    requires !s.mode.watching || epoch != s.mode.watchEpoch
    ensures OnWatchTick(s, epoch, capHit, ok) == s
  {
  }

  lemma WaitingRows(s: State, after: seq<Instance>)
    requires |after| == |s.rows|
    requires forall k :: 0 <= k < |s.rows| ==>
               after[k] == if (s.members.Only? ==> s.rows[k].crn in s.members.crns) && s.rows[k].phase == Watching
                           then s.rows[k].(phase := AuthInProgress, live := 0, query := s.rows[k].query + 1)
                           else s.rows[k]
    ensures AnyWaiting(s.rows, s.members) <==> after != s.rows
    ensures Map(s.rows, Resuming(s.members)) == after
  {
    if AnyWaiting(s.rows, s.members) {
      var k :| 0 <= k < |s.rows| && Waiting(s.rows[k], s.members);
      assert after[k] != s.rows[k];
    } else {
      assert forall k :: 0 <= k < |s.rows| ==> !Waiting(s.rows[k], s.members);
    }
  }

  lemma WatchEnds(s: State, capHit: bool, ok: bool)
    ensures EndWatch(s, ok)
            == Settle(s.(mode := s.mode.(watching := false, watchEpoch := s.mode.watchEpoch + 1)), capHit, ok)
  {
  }

  // ---------------------------------------------------------------- snapshots

  /** The last record of `crn` in a restored snapshot. */
  predicate Recorded(snaps: seq<Saved>, crn: Crn, m: Saved) {
    exists k :: 0 <= k < |snaps| && snaps[k] == m && m.crn == crn && forall j :: k < j < |snaps| ==> snaps[j].crn != crn
  }

  lemma {:induction false} LastRecorded(snaps: seq<Saved>, crn: Crn)
    ensures match LastSaved(snaps, crn)
            case Some(m) => Recorded(snaps, crn, m)
            case None => forall k :: 0 <= k < |snaps| ==> snaps[k].crn != crn
  {
    if snaps == [] {
    } else if snaps[|snaps| - 1].crn == crn {
    } else {
      LastRecorded(snaps[..|snaps| - 1], crn);
      var last := LastSaved(snaps, crn);
      if last.Some? {
        var front := snaps[..|snaps| - 1];
        var k :| 0 <= k < |front| && front[k] == last.value && last.value.crn == crn
                 && forall j :: k < j < |front| ==> front[j].crn != crn;
        assert snaps[k] == last.value;
      }
    }
  }

  /** A configured row of a restored snapshot shows its last record, with a badge that says nothing is
      running; a row without a record is emptied and disabled. In both cases its stream is outdated. */
  lemma RestoredRow(i: Instance, snaps: seq<Saved>, m: Saved)
    requires !i.readOnly && (Recorded(snaps, i.crn, m) || forall k :: 0 <= k < |snaps| ==> snaps[k].crn != i.crn)
    ensures RestoreRow(i, snaps)
            == if Recorded(snaps, i.crn, m)
               then i.(live := 0, query := i.query + 2, streaming := false, flushed := m.count, size := m.size,
                       phase := if m.phase == AuthInProgress || m.phase == InProgress || m.phase == Watching
                                then Enabled else m.phase)
               else i.(live := 0, query := i.query + 1, streaming := false, flushed := 0, size := 0, phase := Disabled)
  {
    LastRecorded(snaps, i.crn);
    assert forall k, n :: 0 <= k < |snaps| && 0 <= n < |snaps| && snaps[k].crn == snaps[n].crn == i.crn ==>
      k == n || k < n || n < k;
  }

  /** Every record has a row. */
  predicate AllHaveRows(rows: seq<Instance>, snaps: seq<Saved>) {
    forall n :: 0 <= n < |snaps| ==> HasRow(rows, snaps[n].crn)
  }

  /** The rows that a restore appends, record by record: a record whose CRN has no row yet gets a read-only
      one that shows it, unless it is malformed; and after a malformed one none does. */
  lemma {:induction false} AppendedOne(rows: seq<Instance>, snaps: seq<Saved>, m: Saved)
    ensures AppendReadOnly(rows, []) == rows
    ensures var r := AppendReadOnly(rows, snaps);
            AppendReadOnly(rows, snaps + [m])
            == if !AllHaveRows(r, snaps) || HasRow(r, m.crn) || !m.parsable then r
               else r + [Instance(m.crn, m.env, ReadOnly, 0, m.count, m.size, false, 0, true)]
    decreases |snaps|
  {
    if snaps == [] {
      assert [m][0] == m && [m][1..] == [] && snaps + [m] == [m];
      FirstHas(rows, m.crn);
    } else {
      var first, rest := snaps[0], snaps[1..];
      assert (snaps + [m])[0] == first && (snaps + [m])[1..] == rest + [m];
      FirstHas(rows, first.crn);
      if HasRow(rows, first.crn) {
        AppendedOne(rows, rest, m);
        AppendKeeps(rows, rest, first.crn);
        AllHave(AppendReadOnly(rows, rest), snaps);
      } else if first.parsable {
        var more := rows + [SavedRow(first)];
        assert more[|rows|].crn == first.crn && HasRow(more, first.crn);
        AppendedOne(more, rest, m);
        AppendKeeps(more, rest, first.crn);
        AllHave(AppendReadOnly(more, rest), snaps);
      } else {
        assert !AllHaveRows(rows, snaps);
      }
    }
  }

  lemma AllHave(rows: seq<Instance>, snaps: seq<Saved>)
    requires snaps != [] && HasRow(rows, snaps[0].crn)
    ensures AllHaveRows(rows, snaps) <==> AllHaveRows(rows, snaps[1..])
  {
    if AllHaveRows(rows, snaps) {
      assert forall n :: 0 <= n < |snaps[1..]| ==> snaps[1..][n] == snaps[n + 1];
    }
    if AllHaveRows(rows, snaps[1..]) {
      forall n | 0 <= n < |snaps|
        ensures HasRow(rows, snaps[n].crn)
      {
        assert n > 0 ==> snaps[1..][n - 1] == snaps[n];
      }
    }
  }

  lemma {:induction false} AppendKeeps(rows: seq<Instance>, snaps: seq<Saved>, crn: Crn)
    requires HasRow(rows, crn)
    ensures HasRow(AppendReadOnly(rows, snaps), crn)
    decreases |snaps|
  {
    if snaps == [] {
    } else if First(rows, snaps[0].crn).Some? {
      AppendKeeps(rows, snaps[1..], crn);
    } else if snaps[0].parsable {
      var k :| 0 <= k < |rows| && rows[k].crn == crn;
      assert (rows + [SavedRow(snaps[0])])[k].crn == crn;
      AppendKeeps(rows + [SavedRow(snaps[0])], snaps[1..], crn);
    }
  }

  /** A restore stops a watch, replaces every row, drops the read-only ones of the last restore, declares the
      records, and touches nothing else: a fetch that is on goes on. */
  lemma RestoreRows(s: State, snaps: seq<Saved>, after: seq<Instance>)
    requires |after| == |Configured(s.rows)|
    requires forall k :: 0 <= k < |after| ==> after[k] == RestoreRow(Configured(s.rows)[k], snaps)
    ensures OnSnapshotRestore(s, snaps)
            == s.(rows := AppendReadOnly(after, snaps), members := Only(set m | m in snaps :: m.crn, snaps),
                  mode := s.mode.(watching := false,
                                  watchEpoch := s.mode.watchEpoch + if s.mode.watching then 1 else 0))
  {
    RestoredSame(s.rows, snaps);
    assert Map(Configured(s.rows), Restoring(snaps)) == after;
  }

  /** A restore makes the same of a row whether its watch has been stopped or not. */
  lemma RestoredSame(rows: seq<Instance>, snaps: seq<Saved>)
    ensures Map(Configured(Map(rows, Stopping())), Restoring(snaps)) == Map(Configured(rows), Restoring(snaps))
  {
    StoppedConfigured(rows);
    var stopped := Configured(Map(rows, Stopping()));
    forall k | 0 <= k < |stopped|
      ensures RestoreRow(stopped[k], snaps) == RestoreRow(Configured(rows)[k], snaps)
    {
      assert Configured(rows)[k] in Configured(rows);
      RestoredStopped(Configured(rows)[k], snaps);
    }
  }

  lemma RestoredStopped(i: Instance, snaps: seq<Saved>)
    requires !i.readOnly
    ensures RestoreRow(StopWatching(i), snaps) == RestoreRow(i, snaps)
  {
  }

  lemma {:induction false} StoppedConfigured(rows: seq<Instance>)
    ensures var stopped := Configured(Map(rows, Stopping()));
            && |stopped| == |Configured(rows)|
            && forall k :: 0 <= k < |stopped| ==> stopped[k] == StopWatching(Configured(rows)[k])
    decreases |rows|
  {
    if rows == [] {
    } else {
      StoppedConfigured(rows[1..]);
      assert Map(rows, Stopping())[1..] == Map(rows[1..], Stopping());
    }
  }

  /** When the session's file is deleted every configured row is emptied and back to its choice, and the next
      snapshot declares every row. */
  lemma EvictRows(s: State, after: seq<Instance>)
    requires |after| == |Configured(s.rows)|
    requires forall k :: 0 <= k < |after| ==>
               after[k] == Configured(s.rows)[k].(live := 0, flushed := 0, size := 0,
                                                  query := Configured(s.rows)[k].query + 1,
                                                  phase := if Chosen(Configured(s.rows)[k]) then Enabled else Disabled)
    ensures OnEvict(s) == s.(rows := after, members := Everyone)
  {
    assert Map(Configured(s.rows), Resetting()) == after;
  }

  // ---------------------------------------------------------------- loads

  /** A row whose logs are wanted and are neither in its store nor in the file is loaded later, unless it is
      read-only, has failed, or takes no part. */
  lemma LoadQueues(s: State, crn: Crn, backed: bool)
    ensures var at := First(s.rows, crn);
            OpenRow(s, crn, backed)
            == s.(loads := s.loads + if && backed && at.Some? && Chosen(s.rows[at.value])
                                        && s.rows[at.value].phase != Error
                                        && s.rows[at.value].live == 0 && s.rows[at.value].flushed == 0
                                     then {crn} else {})
  {
    assert s.loads + {} == s.loads;
  }

  /** A load that is ready is a new content of its row's store, and takes the store of the row loaded before. */
  lemma LoadedRows(s: State, crn: Crn, count: nat, evicted: Option<Crn>, k: nat)
    requires k < |s.rows|
    ensures var u, i := OnLoadReady(s, crn, count, evicted), s.rows[k];
            && |u.rows| == |s.rows| && u == s.(rows := u.rows)
            && u.rows[k] == (if First(s.rows, crn) == Some(k) then i.(live := count, query := i.query + 1)
                             else if evicted.Some? && First(s.rows, evicted.value) == Some(k)
                             then i.(live := 0, query := i.query + 1) else i)
  {
    if evicted.Some? && evicted.value != crn {
      SameFirst(s.rows, At(s.rows, evicted.value, Clearing()), crn);
    }
  }

  // ---------------------------------------------------------------- flushes

  /** The container takes the frame: the flush is compressed, its instance has a row and no frame yet, the
      container has its writer, and the write works. */
  predicate Fits(s: State, crn: Crn, compressed: bool, io: bool) {
    && s.books.container.Some? && compressed && HasRow(s.rows, crn) && s.books.container.value.writable && io
    && forall j :: 0 <= j < |s.books.container.value.frames| ==> s.books.container.value.frames[j].crn != crn
  }

  /** The container after a flush: one more frame; or no writer, if the write was tried and failed; or no
      change. */
  function Flushing(s: State, crn: Crn, compressed: bool, io: bool): Container
    requires s.books.container.Some?
  {
    var c := s.books.container.value;
    if Fits(s, crn, compressed, io) then Container(c.epoch, true, c.frames + [Flush(crn, s.books.epoch)])
    else if compressed && HasRow(s.rows, crn) && !(exists j :: 0 <= j < |c.frames| && c.frames[j].crn == crn)
    then Container(c.epoch, false, c.frames)
    else c
  }

  /** A flush of the fetch that is on: it becomes a frame and its row knows its size, or it is lost; and a
      load that waits for it is answered, and tried again if the frame is there. */
  lemma FlushDelivered(s: State, k: nat, compressed: bool, bytes: Bytes, io: bool, backed: bool, w: nat)
    requires k < |s.books.messages| && s.books.messages[k].epoch == s.books.epoch && s.books.container.Some?
    requires First(s.rows, s.books.messages[k].crn) == Some(w)
    ensures var crn, b := s.books.messages[k].crn, s.books;
            var fits := Fits(s, crn, compressed, io);
            var u := s.(rows := if fits then s.rows[w := s.rows[w].(size := bytes)] else s.rows,
                        books := b.(container := Some(Flushing(s, crn, compressed, io)), pending := b.pending - 1,
                                    messages := b.messages[..k] + b.messages[k + 1..],
                                    lost := b.lost + if fits then 0 else 1),
                        loads := s.loads - {crn});
            Delivered(s, k, compressed, bytes, io, backed)
            == if crn in s.loads && fits then OpenRow(u, crn, backed) else u
  {
    var crn, b := s.books.messages[k].crn, s.books;
    FirstHas(s.rows, crn);
    assert Fits(s, crn, compressed, io) <==> Takes(b.container.value, crn, compressed, true, io);
  }

  /** One whose instance has no row any more is lost, and leaves the container as it is. */
  lemma FlushUnknown(s: State, k: nat, compressed: bool, bytes: Bytes, io: bool, backed: bool)
    requires k < |s.books.messages| && s.books.messages[k].epoch == s.books.epoch && s.books.container.Some?
    requires !HasRow(s.rows, s.books.messages[k].crn)
    ensures var b := s.books;
            Delivered(s, k, compressed, bytes, io, backed)
            == s.(books := b.(pending := b.pending - 1, messages := b.messages[..k] + b.messages[k + 1..],
                              lost := b.lost + 1),
                  loads := s.loads - {b.messages[k].crn})
  {
    FirstHas(s.rows, s.books.messages[k].crn);
  }

  /** A flush of an earlier fetch is dropped, and changes nothing else. */
  lemma StaleFlush(s: State, k: nat, compressed: bool, bytes: Bytes, io: bool, backed: bool, capHit: bool, ok: bool)
    requires k < |s.books.messages| && s.books.messages[k].epoch != s.books.epoch
    ensures OnInstanceFlushed(s, k, compressed, bytes, io, backed, capHit, ok)
            == s.(books := s.books.(messages := s.books.messages[..k] + s.books.messages[k + 1..]))
  {
  }
}
