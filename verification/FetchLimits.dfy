/** Runs from a freshly built picker in which a finished fetch is left open, with its frames, or an
    empty fetch is published: one witness for each way the event loop falls short. */
module FetchLimits {
  import opened Options
  import opened FetchState

  function Press(key: Key): Step {
    Step(Pressed(key), false, true)
  }

  function Receive(message: Message): Step {
    Step(Received(message), false, true)
  }

  function Arrive(auth: Auth): Step {
    Step(Authed(auth), false, true)
  }

  /** `steps` lead from a freshly built picker to `s`. */
  ghost predicate Reached(configured: seq<(Crn, Environment)>, steps: seq<Step>, s: State) {
    After(Init(configured), steps) == s
  }

  lemma Onward(configured: seq<(Crn, Environment)>, steps: seq<Step>, s: State, t: Step, u: State)
    requires Reached(configured, steps, s) && Next(s, t) == u
    ensures Reached(configured, steps + [t], u)
  {
    assert (steps + [t])[..|steps|] == steps;
  }

  lemma NextRestore(s: State, snaps: seq<Saved>)
    ensures Next(s, Receive(Restore(snaps))) == OnSnapshotRestore(s, snaps)
  {
  }

  lemma OnwardRestore(configured: seq<(Crn, Environment)>, steps: seq<Step>, s: State, snaps: seq<Saved>, u: State)
    requires Reached(configured, steps, s) && OnSnapshotRestore(s, snaps) == u
    ensures Reached(configured, steps + [Receive(Restore(snaps))], u)
  {
    NextRestore(s, snaps);
    Onward(configured, steps, s, Receive(Restore(snaps)), u);
  }

  // ---------------------------------------------------------------- two rows, one of them fetched

  function Row(crn: Crn, phase: Phase, live: nat, flushed: nat, streaming: bool, query: nat): Instance {
    Instance(crn, 0, phase, live, flushed, 0, streaming, query, false)
  }

  /** The bytes of a single log. */
  const BYTES: Bytes := 64

  /** A row whose flushed log is in the container. */
  function Kept(row: Instance): Instance {
    row.(size := BYTES)
  }

  function Off(): Books {
    Books(None, 0, 0, [], 0, 0, [])
  }

  function Chosen(first: Instance, second: Instance): State {
    State([first, second], Off(), Mode(false, false, false, false, 0, 0, 0), Race(None, None), Everyone, {})
  }

  /** The first fetch of both rows. */
  function Under(first: Instance, second: Instance, books: Books): State {
    State([first, second], books, Mode(true, false, false, false, 0, 0, 1), Race(None, None), Only({0, 1}, []), {})
  }

  function Opened(frames: seq<Flush>, pending: int, messages: seq<Flush>, started: nat): Books {
    Books(Some(Container(1, true, frames)), pending, 1, messages, started, 0, [])
  }

  const PAIR: seq<(Crn, Environment)> := [(0, 0), (1, 0)]

  lemma Choose()
    ensures Init(PAIR) == Chosen(Row(0, Disabled, 0, 0, false, 0), Row(1, Disabled, 0, 0, false, 0))
  {
  }

  lemma ConfiguredPair(i: Instance, j: Instance)
    requires !i.readOnly && !j.readOnly
    ensures Configured([i, j]) == [i, j]
  {
    assert [j][1..] == [];
    assert Configured([j]) == [j];
    assert [i, j][1..] == [j];
  }

  lemma Fetch()
    ensures StartFetch(Chosen(Row(0, Enabled, 0, 0, false, 0), Row(1, Enabled, 0, 0, false, 0)), true)
            == Under(Row(0, AuthInProgress, 0, 0, false, 1), Row(1, AuthInProgress, 0, 0, false, 1),
                     Opened([], 0, [], 0))
  {
    var first, second := Row(0, Enabled, 0, 0, false, 0), Row(1, Enabled, 0, 0, false, 0);
    ConfiguredPair(first, second);
    assert first in [first, second] && second in [first, second];
    assert EnabledCrns([first, second]) == {0, 1};
    assert Map([first, second], Fetching()) == [Row(0, AuthInProgress, 0, 0, false, 1),
                                                Row(1, AuthInProgress, 0, 0, false, 1)];
  }

  lemma FirstOfPair(i: Instance, j: Instance)
    requires i.crn == 0 && j.crn == 1
    ensures First([i, j], 0) == Some(0) && First([i, j], 1) == Some(1)
  {
  }

  lemma TokenFirst(second: Instance, b: Books)
    requires second.crn == 1
    ensures OnMemberAuthResolved(Under(Row(0, AuthInProgress, 0, 0, false, 1), second, b), 0, 1)
            == Under(Row(0, InProgress, 0, 0, true, 2), second, b)
  {
    FirstOfPair(Row(0, AuthInProgress, 0, 0, false, 1), second);
  }

  lemma LogOfFirst(second: Instance, b: Books)
    requires second.crn == 1
    ensures OnLogStream(Under(Row(0, InProgress, 0, 0, true, 2), second, b), 0, 2, 1, 1, false, false)
            == Under(Row(0, InProgress, 1, 0, true, 2), second, b)
  {
    FirstOfPair(Row(0, InProgress, 0, 0, true, 2), second);
  }

  lemma FirstEnds(second: Instance)
    requires second.crn == 1 && second.phase.AuthInProgress?
    ensures OnLogStreamDone(Under(Row(0, InProgress, 1, 0, true, 2), second, Opened([], 0, [], 0)), 0, false,
                            false, true)
            == Under(Row(0, Success, 0, 1, true, 3), second, Opened([], 1, [Flush(0, 1)], 1))
  {
    FirstOfPair(Row(0, InProgress, 1, 0, true, 2), second);
    var u := Under(Row(0, Success, 0, 1, true, 3), second, Opened([], 1, [Flush(0, 1)], 1));
    assert Running(u.rows[1].phase);
  }

  lemma DeliverFirst(second: Instance)
    ensures Delivered(Under(Row(0, Success, 0, 1, true, 3), second, Opened([], 1, [Flush(0, 1)], 1)), 0, true, BYTES,
                      true, true)
            == Under(Kept(Row(0, Success, 0, 1, true, 3)), second, Opened([Flush(0, 1)], 0, [], 1))
  {
    var none: set<Crn> := {};
    var frames: seq<Flush> := [];
    assert Without([Flush(0, 1)], 0) == [];
    assert none - {0} == none && frames + [Flush(0, 1)] == [Flush(0, 1)] && !Holds(frames, 0);
  }

  lemma FirstFlushed(second: Instance)
    requires second.crn == 1 && second.phase.AuthInProgress?
    ensures OnInstanceFlushed(Under(Row(0, Success, 0, 1, true, 3), second, Opened([], 1, [Flush(0, 1)], 1)),
           0, true, BYTES, true, true, false, true)
            == Under(Kept(Row(0, Success, 0, 1, true, 3)), second, Opened([Flush(0, 1)], 0, [], 1))
  {
    FirstOfPair(Row(0, Success, 0, 1, true, 3), second);
    var u := Under(Kept(Row(0, Success, 0, 1, true, 3)), second, Opened([Flush(0, 1)], 0, [], 1));
    assert Running(u.rows[1].phase);
    DeliverFirst(second);
  }

  /** The first row's logs are in the container, and the second row still waits for its token. */
  function Half(): State {
    Under(Kept(Row(0, Success, 0, 1, true, 3)), Row(1, AuthInProgress, 0, 0, false, 1), Opened([Flush(0, 1)], 0, [], 1))
  }

  lemma BothChosen() returns (steps: seq<Step>)
    ensures Reached(PAIR, steps, Chosen(Row(0, Enabled, 0, 0, false, 0), Row(1, Enabled, 0, 0, false, 0)))
  {
    var s1 := Chosen(Row(0, Enabled, 0, 0, false, 0), Row(1, Disabled, 0, 0, false, 0));
    Choose();
    Onward(PAIR, [], Init(PAIR), Press(ToggleKey(0)), s1);
    steps := [] + [Press(ToggleKey(0))];
    Onward(PAIR, steps, s1, Press(ToggleKey(1)),
           Chosen(Row(0, Enabled, 0, 0, false, 0), Row(1, Enabled, 0, 0, false, 0)));
    steps := steps + [Press(ToggleKey(1))];
  }

  lemma FetchStarted() returns (steps: seq<Step>)
    ensures Reached(PAIR, steps, Under(Row(0, AuthInProgress, 0, 0, false, 1), Row(1, AuthInProgress, 0, 0, false, 1),
                                       Opened([], 0, [], 0)))
  {
    var chosen := Chosen(Row(0, Enabled, 0, 0, false, 0), Row(1, Enabled, 0, 0, false, 0));
    steps := BothChosen();
    Fetch();
    assert AllDone(chosen.rows);
    Onward(PAIR, steps, chosen, Press(FetchKey(true)), StartFetch(chosen, true));
    steps := steps + [Press(FetchKey(true))];
  }

  lemma FirstFetched() returns (steps: seq<Step>)
    ensures Reached(PAIR, steps, Under(Row(0, InProgress, 1, 0, true, 2), Row(1, AuthInProgress, 0, 0, false, 1),
                                       Opened([], 0, [], 0)))
  {
    var second, books := Row(1, AuthInProgress, 0, 0, false, 1), Opened([], 0, [], 0);
    var s1, s2 := Under(Row(0, AuthInProgress, 0, 0, false, 1), second, books),
                  Under(Row(0, InProgress, 0, 0, true, 2), second, books);
    steps := FetchStarted();
    TokenFirst(second, books);
    Onward(PAIR, steps, s1, Arrive(Token(0, 1)), s2);
    steps := steps + [Arrive(Token(0, 1))];
    LogOfFirst(second, books);
    Onward(PAIR, steps, s2, Receive(Stream(0, 2, 1, 1, false, false)),
           Under(Row(0, InProgress, 1, 0, true, 2), second, books));
    steps := steps + [Receive(Stream(0, 2, 1, 1, false, false))];
  }

  /** The first row's log has been handed over, and its flush is undelivered. */
  function Handed(): State {
    Under(Row(0, Success, 0, 1, true, 3), Row(1, AuthInProgress, 0, 0, false, 1), Opened([], 1, [Flush(0, 1)], 1))
  }

  lemma FirstHanded() returns (steps: seq<Step>)
    ensures Reached(PAIR, steps, Handed())
  {
    var second := Row(1, AuthInProgress, 0, 0, false, 1);
    steps := FirstFetched();
    FirstEnds(second);
    Onward(PAIR, steps, Under(Row(0, InProgress, 1, 0, true, 2), second, Opened([], 0, [], 0)),
           Receive(StreamEnd(0, false)), Handed());
    steps := steps + [Receive(StreamEnd(0, false))];
  }

  lemma HalfFetched() returns (steps: seq<Step>)
    ensures Reached(PAIR, steps, Half())
  {
    steps := FirstHanded();
    FirstFlushed(Row(1, AuthInProgress, 0, 0, false, 1));
    Onward(PAIR, steps, Handed(), Receive(Flushed(0, true, BYTES, true, true)), Half());
    steps := steps + [Receive(Flushed(0, true, BYTES, true, true))];
  }

  /** The fetch is over, its container is open with a frame in it, and the next fetch throws the
      frame away. */
  predicate LeftOpen(s: State) {
    && Idle(s) && !s.mode.watching
    && s.books.container == Some(Container(1, true, [Flush(0, 1)])) && s.books.journal == []
    && OnKey(s, FetchKey(true), false, true).books == Books(Some(Container(2, true, [])), 0, 2, [], 0, 0, [])
  }

  lemma LeavesOpen(s: State)
    requires AllDone(s.rows) && !s.mode.watching && s.books == Opened([Flush(0, 1)], 0, [], 1)
    ensures LeftOpen(s)
  {
  }

  /** Deselecting the last row that waits for a token ends the fetch without closing it. */
  lemma ToggleLeavesOpen() returns (steps: seq<Step>, s: State)
    ensures Reached(PAIR, steps, s) && LeftOpen(s)
  {
    steps := HalfFetched();
    s := Under(Kept(Row(0, Success, 0, 1, true, 3)), Row(1, Cancelled, 0, 0, false, 1),
               Opened([Flush(0, 1)], 0, [], 1));
    Onward(PAIR, steps, Half(), Press(ToggleKey(1)), s);
    steps := steps + [Press(ToggleKey(1))];
    LeavesOpen(s);
  }

  /** So does restoring a snapshot under a running fetch. */
  lemma RestoreLeavesOpen() returns (steps: seq<Step>, s: State)
    ensures Reached(PAIR, steps, s) && LeftOpen(s)
  {
    steps := HalfFetched();
    s := OnSnapshotRestore(Half(), []);
    OnwardRestore(PAIR, steps, Half(), [], s);
    steps := steps + [Receive(Restore([]))];
    RestorePair();
    LeavesOpen(s);
  }

  lemma RestorePair()
    ensures OnSnapshotRestore(Half(), []).rows == [Row(0, Disabled, 0, 0, false, 4), Row(1, Disabled, 0, 0, false, 2)]
  {
    ConfiguredPair(Half().rows[0], Half().rows[1]);
    assert Map(Half().rows, Restoring([])) == [Row(0, Disabled, 0, 0, false, 4), Row(1, Disabled, 0, 0, false, 2)];
  }

  // ---------------------------------------------------------------- two rows, one of them cut off

  /** The first row's logs are in the container, and the second row streams. */
  function Streaming(live: nat): State {
    Under(Kept(Row(0, Success, 0, 1, true, 3)), Row(1, InProgress, live, 0, true, 2), Opened([Flush(0, 1)], 0, [], 1))
  }

  lemma TokenOfSecond(i: Instance, j: Instance, b: Books)
    requires i.crn == 0 && j.crn == 1 && IsEnabled(j)
    ensures OnMemberAuthResolved(Under(i, j, b), 1, 1) == Under(i, StartQuery(j), b)
  {
    FirstOfPair(i, j);
    assert [i, j][1 := StartQuery(j)] == [i, StartQuery(j)];
  }

  lemma LogOfSecond(i: Instance, j: Instance, b: Books)
    requires i.crn == 0 && j.crn == 1 && j.phase.InProgress?
    ensures OnLogStream(Under(i, j, b), 1, j.query, 1, 1, false, false) == Under(i, j.(live := j.live + 1), b)
  {
    FirstOfPair(i, j);
    assert [i, j][1 := j.(live := j.live + 1)] == [i, j.(live := j.live + 1)];
  }

  /** The rows after cancelling everything: the second one's log is in its store alone. */
  function CutOff(): seq<Instance> {
    [Kept(Row(0, Success, 0, 1, false, 3)), Row(1, Cancelled, 1, 0, false, 2)]
  }

  lemma SilencedStreaming()
    ensures Silenced(Streaming(1)).rows == CutOff()
  {
    var rows := Streaming(1).rows;
    assert Map(Map(rows, Authing(None, Cancelled)), Cancelling()) == CutOff();
  }

  lemma CutOffUnsound()
    ensures AllDone(CutOff()) && AnyLogs(CutOff()) && !Sound(CutOff(), Only({0, 1}, []))
  {
    var second := CutOff()[1];
    assert DisplayLogCount(second) == 1 && IsMember(second, Only({0, 1}, []));
  }

  lemma CancelStreaming()
    ensures OnKey(Streaming(1), CancelKey, false, true).books == Books(None, 0, 1, [], 1, 0, [])
  {
    SilencedStreaming();
    CutOffUnsound();
  }

  lemma SecondStreams() returns (steps: seq<Step>)
    ensures Reached(PAIR, steps, Streaming(0))
  {
    steps := HalfFetched();
    TokenOfSecond(Half().rows[0], Half().rows[1], Half().books);
    Onward(PAIR, steps, Half(), Arrive(Token(1, 1)), Streaming(0));
    steps := steps + [Arrive(Token(1, 1))];
  }

  /** Cancelling everything while a row holds logs that have not been handed over throws away the
      frames of the others: the state frame is refused, and nothing is published. */
  lemma CancelDiscardsFrames() returns (steps: seq<Step>, s: State)
    ensures Reached(PAIR, steps, s) && s.books == Opened([Flush(0, 1)], 0, [], 1)
    ensures Next(s, Press(CancelKey)).books == Books(None, 0, 1, [], 1, 0, [])
  {
    steps := SecondStreams();
    s := Streaming(1);
    LogOfSecond(Streaming(0).rows[0], Streaming(0).rows[1], Streaming(0).books);
    Onward(PAIR, steps, Streaming(0), Receive(Stream(1, 2, 1, 1, false, false)), s);
    steps := steps + [Receive(Stream(1, 2, 1, 1, false, false))];
    CancelStreaming();
  }

  // ---------------------------------------------------------------- two rows, one of them restored

  /** A record of five logs of the second instance. */
  function Recorded(): Saved {
    Saved(1, 0, Success, 5, BYTES, true)
  }

  /** The rows after the record has been restored under the fetch: the first has none. */
  function Restored(phase: Phase): seq<Instance> {
    [Row(0, Disabled, 0, 0, false, 4), Kept(Row(1, phase, 0, 5, false, 3))]
  }

  /** The fetch goes on over the restored rows. */
  function Overlaid(phase: Phase): State {
    Half().(rows := Restored(phase), members := Only({1}, [Recorded()]))
  }

  lemma RecordedLast()
    ensures LastSaved([Recorded()], 1) == Some(Recorded()) && LastSaved([Recorded()], 0) == None
  {
    assert LastSaved([Recorded()][..0], 0) == None;
  }

  lemma RestoredRows()
    ensures Map(Half().rows, Restoring([Recorded()])) == Restored(Success)
  {
    RecordedLast();
    assert RestoreRow(Half().rows[0], [Recorded()]) == Restored(Success)[0];
    assert RestoreRow(Half().rows[1], [Recorded()]) == Restored(Success)[1];
  }

  lemma NothingAppended(i: Instance, j: Instance, m: Saved)
    requires i.crn == 0 && j.crn == m.crn == 1
    ensures AppendReadOnly([i, j], [m]) == [i, j]
  {
    FirstOfPair(i, j);
    assert [m][1..] == [];
  }

  lemma RestoreSecond()
    ensures OnSnapshotRestore(Half(), [Recorded()]) == Overlaid(Success)
  {
    var snaps := [Recorded()];
    ConfiguredPair(Half().rows[0], Half().rows[1]);
    RestoredRows();
    NothingAppended(Restored(Success)[0], Restored(Success)[1], Recorded());
    assert (set m | m in snaps :: m.crn) == {1} by {
      assert snaps[0] in snaps;
    }
  }

  lemma SecondFails(i: Instance, j: Instance)
    requires i.crn == 0 && j.crn == 1
    ensures At([i, j], 1, Failing()) == [i, j.(phase := Error)]
  {
    FirstOfPair(i, j);
  }

  lemma OneDeclared(i: Instance, j: Instance, m: Saved)
    requires i.crn == 0 && j.crn == m.crn == 1 && !j.readOnly && DisplayLogCount(j) > 0 && j.size > 0
    ensures AnyLogs([i, j]) && Sound([i, j], Only({1}, [m]))
  {
    FirstOfPair(i, j);
    assert [i, j][1] == j;
  }

  lemma OverlaidFails()
    ensures Failed(Overlaid(Success), 1) == Overlaid(Error)
  {
    SecondFails(Restored(Success)[0], Restored(Success)[1]);
  }

  lemma OverlaidCloses()
    ensures var u := Settle(Overlaid(Error), false, true);
            u.rows == Restored(Error) && u.members == Only({1}, [Recorded()])
            && u.books.journal == [Published(1, [Flush(0, 1)], true, 1, 0)]
  {
    OneDeclared(Restored(Error)[0], Restored(Error)[1], Recorded());
    assert Map(Restored(Error), Demoting(Race(None, None))) == Restored(Error);
  }

  lemma OverlaidEnds()
    ensures var u := OnAuth(Overlaid(Success), TokenFailed(1, 1), false, true);
            && u.rows == Restored(Error) && u.members == Only({1}, [Recorded()])
            && u.books.journal == [Published(1, [Flush(0, 1)], true, 1, 0)]
  {
    OverlaidFails();
    OverlaidCloses();
  }

  lemma SecondRestored() returns (steps: seq<Step>)
    ensures Reached(PAIR, steps, Overlaid(Success))
  {
    steps := HalfFetched();
    RestoreSecond();
    OnwardRestore(PAIR, steps, Half(), [Recorded()], Overlaid(Success));
    steps := steps + [Receive(Restore([Recorded()]))];
  }

  /** A snapshot restored under a running fetch declares its logs in that fetch's snapshot, which has
      no frame of them. */
  lemma RestoreDeclaresLogs() returns (steps: seq<Step>, s: State)
    ensures Reached(PAIR, steps, s)
    ensures var u := Next(s, Arrive(TokenFailed(1, 1)));
            && u.rows == Restored(Error) && u.members == Only({1}, [Recorded()])
            && u.books.journal == [Published(1, [Flush(0, 1)], true, 1, 0)]
  {
    steps := SecondRestored();
    s := Overlaid(Success);
    OverlaidEnds();
  }

  // ---------------------------------------------------------------- one row, watched

  const ONE: seq<(Crn, Environment)> := [(0, 0)]

  function Single(row: Instance): State {
    State([row], Off(), Mode(false, false, false, false, 0, 0, 0), Race(None, None), Everyone, {})
  }

  function Watched(row: Instance, rounds: nat): State {
    State([row], Opened([], 0, [], 0), Mode(true, false, false, true, 1, rounds, 1), Race(None, None),
          Only({0}, []), {})
  }

  /** The watch has ended at a cap, with its row waiting for a round that will not come. */
  function Capped(cancelled: bool): State {
    State([Row(0, Watching, 0, 0, !cancelled, 2)], Opened([], 0, [], 0),
          if cancelled then Mode(false, true, false, false, 2, 1, 2) else Mode(true, false, false, false, 2, 1, 1),
          Race(None, None), Only({0}, []), {})
  }

  lemma ConfiguredOne(i: Instance)
    requires !i.readOnly
    ensures Configured([i]) == [i]
  {
    assert [i][1..] == [];
  }

  lemma EnabledOne(i: Instance)
    requires IsEnabled(i)
    ensures EnabledCrns([i]) == {i.crn}
  {
    assert i in [i];
  }

  lemma WatchOne()
    ensures ToggleWatch(Single(Row(0, Enabled, 0, 0, false, 0)), true, false, true)
            == Watched(Row(0, AuthInProgress, 0, 0, false, 1), 0)
  {
    var row := Row(0, Enabled, 0, 0, false, 0);
    ConfiguredOne(row);
    EnabledOne(row);
    assert Map([row], Fetching()) == [Row(0, AuthInProgress, 0, 0, false, 1)];
    assert AllDone([row]);
  }

  lemma TokenOne()
    ensures OnMemberAuthResolved(Watched(Row(0, AuthInProgress, 0, 0, false, 1), 0), 0, 1)
            == Watched(Row(0, InProgress, 0, 0, true, 2), 0)
  {
  }

  lemma EmptyRound()
    ensures OnLogStreamDone(Watched(Row(0, InProgress, 0, 0, true, 2), 0), 0, false, false, true)
            == Watched(Row(0, Watching, 0, 0, true, 2), 1)
  {
    var done := Row(0, Success, 0, 0, true, 2);
    var u := Watched(done, 0);
    assert Ended(Watched(Row(0, InProgress, 0, 0, true, 2), 0), 0, false) == u;
    assert AllDone(u.rows) && StillEmpty(u.rows[0], u.members);
    assert Map(u.rows, Resting(u.members)) == [Row(0, Watching, 0, 0, true, 2)];
  }

  lemma CapTick()
    ensures OnWatchTick(Watched(Row(0, Watching, 0, 0, true, 2), 1), 1, true, true) == Capped(false)
  {
    assert Running(Capped(false).rows[0].phase);
  }

  lemma CancelCapped()
    ensures CancelAllFetches(Capped(false), false, true) == Capped(true)
  {
    var rows := Capped(false).rows;
    assert Map(Map(rows, Authing(None, Cancelled)), Cancelling()) == Capped(true).rows;
    assert Running(Capped(true).rows[0].phase);
  }

  /** A cap that is crossed during a cooldown ends the watch without closing its container: its row
      goes on waiting, and cancelling everything does not close the container either. */
  lemma CapLeavesOpen() returns (steps: seq<Step>, s: State)
    ensures Reached(ONE, steps, s)
    ensures !s.mode.watching && AnyWatching(s.rows) && s.books.container.Some? && s.books.journal == []
    ensures var u := Next(s, Press(CancelKey));
            !u.mode.watching && AnyWatching(u.rows) && u.books == s.books
  {
    steps := WatchWaits();
    CapTick();
    s := Capped(false);
    Onward(ONE, steps, Watched(Row(0, Watching, 0, 0, true, 2), 1), Step(Received(Tick(1)), true, true), s);
    steps := steps + [Step(Received(Tick(1)), true, true)];
    CancelCapped();
    assert Capped(false).rows[0].phase.Watching? && Capped(true).rows[0].phase.Watching?;
  }

  lemma OneChosen() returns (steps: seq<Step>)
    ensures Reached(ONE, steps, Single(Row(0, Enabled, 0, 0, false, 0)))
  {
    assert Init(ONE) == Single(Row(0, Disabled, 0, 0, false, 0));
    Onward(ONE, [], Init(ONE), Press(ToggleKey(0)), Single(Row(0, Enabled, 0, 0, false, 0)));
    steps := [] + [Press(ToggleKey(0))];
  }

  lemma WatchWaits() returns (steps: seq<Step>)
    ensures Reached(ONE, steps, Watched(Row(0, Watching, 0, 0, true, 2), 1))
  {
    var s1, s2 := Watched(Row(0, AuthInProgress, 0, 0, false, 1), 0), Watched(Row(0, InProgress, 0, 0, true, 2), 0);
    steps := OneChosen();
    WatchOne();
    Onward(ONE, steps, Single(Row(0, Enabled, 0, 0, false, 0)), Press(WatchKey(true)), s1);
    steps := steps + [Press(WatchKey(true))];
    TokenOne();
    Onward(ONE, steps, s1, Arrive(Token(0, 1)), s2);
    steps := steps + [Arrive(Token(0, 1))];
    EmptyRound();
    Onward(ONE, steps, s2, Receive(StreamEnd(0, false)), Watched(Row(0, Watching, 0, 0, true, 2), 1));
    steps := steps + [Receive(StreamEnd(0, false))];
  }

  // ---------------------------------------------------------------- one row, collected

  /** A collect, or with `plain` the fetch started while its last flush is undelivered. */
  function Gathering(row: Instance, plain: bool): State {
    State([row], if plain then Books(Some(Container(2, true, [])), 0, 2, [Flush(0, 1)], 0, 0, [])
                 else if row.phase.Success? then Opened([], 1, [Flush(0, 1)], 1) else Opened([], 0, [], 0),
          Mode(true, false, true, false, 0, 0, if plain then 2 else 1), Race(None, None), Only({0}, []), {})
  }

  lemma CollectOne()
    ensures StartCollect(Single(Row(0, Disabled, 0, 0, false, 0)), {0}, true)
            == Gathering(Row(0, AuthInProgress, 0, 0, false, 1), false)
  {
    var row := Row(0, Disabled, 0, 0, false, 0);
    ConfiguredOne(row);
    assert AllConfigured([row], {0}) by {
      assert [row][0].crn == 0;
    }
    assert Map([row], EnablingOnly({0})) == [Row(0, Enabled, 0, 0, false, 0)];
    assert Map([Row(0, Enabled, 0, 0, false, 0)], Fetching()) == [Row(0, AuthInProgress, 0, 0, false, 1)];
  }

  lemma CollectedLog()
    ensures OnMemberAuthResolved(Gathering(Row(0, AuthInProgress, 0, 0, false, 1), false), 0, 1)
            == Gathering(Row(0, InProgress, 0, 0, true, 2), false)
    ensures OnLogStream(Gathering(Row(0, InProgress, 0, 0, true, 2), false), 0, 2, 1, 1, false, false)
            == Gathering(Row(0, InProgress, 1, 0, true, 2), false)
  {
  }

  lemma CollectedEnd()
    ensures OnLogStreamDone(Gathering(Row(0, InProgress, 1, 0, true, 2), false), 0, false, false, true)
            == Gathering(Row(0, Success, 0, 1, true, 3), false)
  {
    var u := Gathering(Row(0, Success, 0, 1, true, 3), false);
    assert Ended(Gathering(Row(0, InProgress, 1, 0, true, 2), false), 0, false) == u;
  }

  lemma PlainFetch()
    ensures StartFetch(Gathering(Row(0, Success, 0, 1, true, 3), false), true)
            == Gathering(Row(0, AuthInProgress, 0, 0, true, 4), true)
  {
    var row := Row(0, Success, 0, 1, true, 3);
    ConfiguredOne(row);
    EnabledOne(row);
    assert Map([row], Fetching()) == [Row(0, AuthInProgress, 0, 0, true, 4)];
  }

  lemma PlainFails()
    ensures OnMemberAuthFailed(Gathering(Row(0, AuthInProgress, 0, 0, true, 4), true), 0, 2, false, true).books
            == Books(None, 0, 2, [Flush(0, 1)], 0, 0, [Published(2, [], false, 0, 0)])
  {
    var failed := Failed(Gathering(Row(0, AuthInProgress, 0, 0, true, 4), true), 0);
    assert failed.rows == [Row(0, Error, 0, 0, true, 4)];
    assert !AnyLogs(failed.rows);
    assert AllDone(failed.rows);
  }

  lemma CollectStarted() returns (steps: seq<Step>)
    ensures Reached(ONE, steps, Gathering(Row(0, InProgress, 1, 0, true, 2), false))
  {
    var s1, s2 := Gathering(Row(0, AuthInProgress, 0, 0, false, 1), false),
                  Gathering(Row(0, InProgress, 0, 0, true, 2), false);
    assert Init(ONE) == Single(Row(0, Disabled, 0, 0, false, 0));
    CollectOne();
    Onward(ONE, [], Init(ONE), Receive(Collect({0}, true)), s1);
    steps := [] + [Receive(Collect({0}, true))];
    CollectedLog();
    Onward(ONE, steps, s1, Arrive(Token(0, 1)), s2);
    steps := steps + [Arrive(Token(0, 1))];
    Onward(ONE, steps, s2, Receive(Stream(0, 2, 1, 1, false, false)),
           Gathering(Row(0, InProgress, 1, 0, true, 2), false));
    steps := steps + [Receive(Stream(0, 2, 1, 1, false, false))];
  }

  lemma CollectEnded() returns (steps: seq<Step>)
    ensures Reached(ONE, steps, Gathering(Row(0, Success, 0, 1, true, 3), false))
  {
    steps := CollectStarted();
    CollectedEnd();
    Onward(ONE, steps, Gathering(Row(0, InProgress, 1, 0, true, 2), false), Receive(StreamEnd(0, false)),
           Gathering(Row(0, Success, 0, 1, true, 3), false));
    steps := steps + [Receive(StreamEnd(0, false))];
  }

  /** A plain fetch that brings nothing is published, when it was started while a collect still
      waited for its last flush. */
  lemma EmptyFetchPublished() returns (steps: seq<Step>, s: State)
    ensures Reached(ONE, steps, s) && AllDone(s.rows) && s.mode.collecting
    ensures Reached(ONE, steps + [Press(FetchKey(true))], StartFetch(s, true))
    ensures Next(StartFetch(s, true), Arrive(TokenFailed(0, 2))).books.journal == [Published(2, [], false, 0, 0)]
  {
    steps := CollectEnded();
    s := Gathering(Row(0, Success, 0, 1, true, 3), false);
    assert AllDone(s.rows);
    PlainFetch();
    Onward(ONE, steps, s, Press(FetchKey(true)), StartFetch(s, true));
    PlainFails();
  }

  // ---------------------------------------------------------------- one row, retried

  /** The only fetch of a single row. */
  function Plain(row: Instance, books: Books): State {
    State([row], books, Mode(true, false, false, false, 0, 0, 1), Race(None, None), Only({0}, []), {})
  }

  lemma FetchOne()
    ensures StartFetch(Single(Row(0, Enabled, 0, 0, false, 0)), true)
            == Plain(Row(0, AuthInProgress, 0, 0, false, 1), Opened([], 0, [], 0))
  {
    var row := Row(0, Enabled, 0, 0, false, 0);
    ConfiguredOne(row);
    EnabledOne(row);
    assert Map([row], Fetching()) == [Row(0, AuthInProgress, 0, 0, false, 1)];
  }

  lemma PlainToken(row: Instance, b: Books)
    requires row.crn == 0 && IsEnabled(row)
    ensures OnMemberAuthResolved(Plain(row, b), 0, 1) == Plain(StartQuery(row), b)
  {
  }

  lemma PlainBatch(row: Instance, b: Books, errs: bool)
    requires row.crn == 0 && !row.phase.Cancelled?
    ensures OnLogStream(Plain(row, b), 0, row.query, 1, 1, false, errs)
            == Plain(row.(live := row.live + 1, phase := if errs then Error else row.phase), b)
  {
  }

  /** The stream of a row with a log ends: the log is handed over, and the fetch goes on. */
  lemma PlainEnd(row: Instance, b: Books, capHit: bool, ok: bool)
    requires row.crn == 0 && row.live > 0 && (row.phase.Error? || row.phase.InProgress?)
    requires b.container.Some? && b.pending >= 0
    ensures OnLogStreamDone(Plain(row, b), 0, false, capHit, ok)
            == Plain(ClearStore(row).(flushed := row.live, phase := if row.phase.Error? then Error else Success),
                     Post(b, 0))
  {
    var done := row.(phase := if row.phase.Error? then Error else Success);
    assert StreamDone(row, false) == done;
    assert Ended(Plain(row, b), 0, false) == Plain(ClearStore(done).(flushed := done.live), Post(b, 0));
  }

  lemma PlainFlushed(row: Instance, b: Books, capHit: bool, ok: bool)
    requires row.crn == 0 && row.phase.AuthInProgress? && |b.messages| == 1 && b.messages[0] == Flush(0, b.epoch)
    requires b.container.Some? && Takes(b.container.value, 0, true, true, true)
    ensures OnInstanceFlushed(Plain(row, b), 0, true, BYTES, true, true, capHit, ok)
            == Plain(Kept(row), Deliver(b, 0, true, true, true))
  {
    var none: set<Crn> := {};
    assert none - {0} == none;
    assert Running(Plain(Kept(row), b).rows[0].phase);
  }

  /** The refusal of the second frame, and the publication without it. */
  lemma SecondFlushRefused()
    ensures OnInstanceFlushed(Plain(Kept(Row(0, Success, 0, 1, true, 6)), Opened([Flush(0, 1)], 1, [Flush(0, 1)], 2)),
           0, true, BYTES, true, true, false, true).books
            == Books(None, 0, 1, [], 2, 1, [Published(1, [Flush(0, 1)], true, 2, 1)])
  {
    var none: set<Crn> := {};
    var row := Kept(Row(0, Success, 0, 1, true, 6));
    var books := Books(Some(Container(1, true, [Flush(0, 1)])), 0, 1, [], 2, 1, []);
    assert none - {0} == none && Without([Flush(0, 1)], 0) == [] && Holds([Flush(0, 1)], 0) by {
      assert [Flush(0, 1)][0].crn == 0;
    }
    var u := Plain(row, books);
    assert Delivered(Plain(row, Opened([Flush(0, 1)], 1, [Flush(0, 1)], 2)), 0, true, BYTES, true, true) == u;
    assert AllDone(u.rows) && DisplayLogCount(u.rows[0]) > 0;
  }

  lemma PlainStarted() returns (steps: seq<Step>)
    ensures Reached(ONE, steps, Plain(Row(0, InProgress, 0, 0, true, 2), Opened([], 0, [], 0)))
  {
    var first := Single(Row(0, Enabled, 0, 0, false, 0));
    var row, books := Row(0, AuthInProgress, 0, 0, false, 1), Opened([], 0, [], 0);
    steps := OneChosen();
    FetchOne();
    assert AllDone(first.rows);
    Onward(ONE, steps, first, Press(FetchKey(true)), Plain(row, books));
    steps := steps + [Press(FetchKey(true))];
    PlainToken(row, books);
    Onward(ONE, steps, Plain(row, books), Arrive(Token(0, 1)), Plain(StartQuery(row), books));
    steps := steps + [Arrive(Token(0, 1))];
  }

  /** A batch with a log reaches the row, and then its stream ends. */
  lemma BatchAndEnd(before: seq<Step>, row: Instance, b: Books,
                    errs: bool) returns (steps: seq<Step>)
    requires Reached(ONE, before, Plain(row, b)) && row.crn == 0 && row.phase.InProgress? && row.live == 0
    requires b.container.Some? && b.pending >= 0
    ensures Reached(ONE, steps, Plain(ClearStore(row).(flushed := 1, phase := if errs then Error else Success),
                                      Post(b, 0)))
  {
    var logged := row.(live := 1, phase := if errs then Error else InProgress);
    PlainBatch(row, b, errs);
    Onward(ONE, before, Plain(row, b), Receive(Stream(0, row.query, 1, 1, false, errs)), Plain(logged, b));
    steps := before + [Receive(Stream(0, row.query, 1, 1, false, errs))];
    PlainEnd(logged, b, false, true);
    Onward(ONE, steps, Plain(logged, b), Receive(StreamEnd(0, false)),
           Plain(ClearStore(row).(flushed := 1, phase := if errs then Error else Success), Post(b, 0)));
    steps := steps + [Receive(StreamEnd(0, false))];
  }

  lemma PlainAgain() returns (steps: seq<Step>)
    ensures Reached(ONE, steps, Plain(Row(0, AuthInProgress, 0, 1, true, 4), Opened([], 1, [Flush(0, 1)], 1)))
  {
    var books := Opened([], 1, [Flush(0, 1)], 1);
    steps := PlainStarted();
    steps := BatchAndEnd(steps, Row(0, InProgress, 0, 0, true, 2), Opened([], 0, [], 0), true);
    Onward(ONE, steps, Plain(Row(0, Error, 0, 1, true, 3), books), Press(RetryKey(0)),
           Plain(Row(0, AuthInProgress, 0, 1, true, 4), books));
    steps := steps + [Press(RetryKey(0))];
  }

  /** The row has failed, its log has been flushed, and it asks for a token again. */
  lemma PlainRetried() returns (steps: seq<Step>)
    ensures Reached(ONE, steps, Plain(Kept(Row(0, AuthInProgress, 0, 1, true, 4)), Opened([Flush(0, 1)], 0, [], 1)))
  {
    var row, books := Row(0, AuthInProgress, 0, 1, true, 4), Opened([], 1, [Flush(0, 1)], 1);
    steps := PlainAgain();
    PlainFlushed(row, books, false, true);
    FirstFrame();
    Onward(ONE, steps, Plain(row, books), Receive(Flushed(0, true, BYTES, true, true)),
           Plain(Kept(row), Opened([Flush(0, 1)], 0, [], 1)));
    steps := steps + [Receive(Flushed(0, true, BYTES, true, true))];
  }

  lemma FirstFrame()
    ensures Deliver(Opened([], 1, [Flush(0, 1)], 1), 0, true, true, true) == Opened([Flush(0, 1)], 0, [], 1)
  {
    var frames: seq<Flush> := [];
    assert Without([Flush(0, 1)], 0) == [] && !Holds(frames, 0) && frames + [Flush(0, 1)] == [Flush(0, 1)];
  }

  /** The second flush of a retried row is refused, and its snapshot is published without it. */
  lemma RetryLosesFlush() returns (steps: seq<Step>, s: State)
    ensures Reached(ONE, steps, s) && s.books.journal == []
    ensures Next(s, Receive(Flushed(0, true, BYTES, true, true))).books.journal
            == [Published(1, [Flush(0, 1)], true, 2, 1)]
  {
    var row, books := Kept(Row(0, AuthInProgress, 0, 1, true, 4)), Opened([Flush(0, 1)], 0, [], 1);
    steps := PlainRetried();
    PlainToken(row, books);
    Onward(ONE, steps, Plain(row, books), Arrive(Token(0, 1)), Plain(StartQuery(row), books));
    steps := BatchAndEnd(steps + [Arrive(Token(0, 1))], StartQuery(row), books, false);
    s := Plain(Kept(Row(0, Success, 0, 1, true, 6)), Opened([Flush(0, 1)], 1, [Flush(0, 1)], 2));
    SecondFlushRefused();
  }
}
