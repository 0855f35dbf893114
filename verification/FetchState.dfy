/** The picker's fetch lifecycle as a state machine: one event loop that handles keys, log streams,
    flushes stamped with the epoch of their fetch, authentications stamped with a generation, watch
    rounds over one open container, and snapshots restored or deleted under a running fetch. */
module FetchState {
  import opened Options

  type Crn = nat
  type Environment = nat

  datatype Phase = Disabled | Enabled | AuthInProgress | InProgress | Watching
                 | Success | Warning | Error | Cancelled | ReadOnly

  predicate Running(p: Phase) {
    p.AuthInProgress? || p.InProgress? || p.Watching?
  }

  /** A row: `live` logs in its store, `flushed` logs handed to the backing container and `size` bytes
      of them known to be in it; `streaming` is whether it has a query to cancel, `query` the store's
      current query id. */
  datatype Instance = Instance(crn: Crn, env: Environment, phase: Phase, live: nat, flushed: nat, size: nat,
                               streaming: bool, query: nat, readOnly: bool)

  /** One flush: whose logs, and the fetch epoch in which it was started. */
  datatype Flush = Flush(crn: Crn, epoch: nat)

  /** The open backing container and the flushes whose frames it holds, in order. */
  datatype Container = Container(epoch: nat, writable: bool, frames: seq<Flush>)

  /** A published snapshot: whether any row showed logs when it was closed, how many flushes of its
      fetch were started, and how many of those it has no frame of. */
  datatype Published = Published(epoch: nat, frames: seq<Flush>, logs: bool, started: nat, lost: nat)

  /** The flush accounting. `messages` are the flushes posted and not yet delivered; `started` and
      `lost` count the current container's flushes, and `journal` lists what has been published. */
  datatype Books = Books(container: Option<Container>, pending: int, epoch: nat, messages: seq<Flush>,
                         started: nat, lost: nat, journal: seq<Published>)

  datatype Mode = Mode(fetching: bool, fetchCancelled: bool, collecting: bool, watching: bool,
                       watchEpoch: nat, rounds: nat, generation: nat)

  /** The first-fetch race. */
  datatype Race = Race(candidates: Option<set<Crn>>, winner: Option<Crn>)

  /** What a snapshot's state frame records of one instance; `parsable` is whether its CRN is one. */
  datatype Saved = Saved(crn: Crn, env: Environment, phase: Phase, count: nat, size: nat, parsable: bool)

  /** Whom the current snapshot declares: every row, or the instances of a fetch or of a restored
      snapshot. `records` are a restored snapshot's own; a fetch needs none, as its members have rows. */
  datatype Members = Everyone | Only(crns: set<Crn>, records: seq<Saved>)

  datatype State = State(rows: seq<Instance>, books: Books, mode: Mode, race: Race, members: Members, loads: set<Crn>)

  /** The bytes of a flush: it has a log, and every log ends its line. */
  type Bytes = n: nat | n > 0 witness 1

  // ---------------------------------------------------------------- rows

  function Min(a: nat, b: nat): nat {
    if a < b then a else b
  }

  function Map(rows: seq<Instance>, f: Instance -> Instance): (r: seq<Instance>)
    ensures |r| == |rows| && forall k :: 0 <= k < |r| ==> r[k] == f(rows[k])
  {
    seq(|rows|, k requires 0 <= k < |rows| => f(rows[k]))
  }

  /** FindByCRN: the first row of `crn`. */
  function First(rows: seq<Instance>, crn: Crn): (r: Option<nat>)
    ensures match r
            case Some(k) => k < |rows| && rows[k].crn == crn && forall j :: 0 <= j < k ==> rows[j].crn != crn
            case None => forall j :: 0 <= j < |rows| ==> rows[j].crn != crn
  {
    if rows == [] then None
    else if rows[0].crn == crn then Some(0)
    else match First(rows[1..], crn)
      case None => None
      case Some(k) => Some(k + 1)
  }

  lemma SameFirst(rows: seq<Instance>, others: seq<Instance>, crn: Crn)
    requires |rows| == |others| && forall k :: 0 <= k < |rows| ==> rows[k].crn == others[k].crn
    ensures First(rows, crn) == First(others, crn)
  {
    assert forall k :: 0 <= k < |rows| ==> (rows[k].crn == crn <==> others[k].crn == crn);
  }

  function DisplayLogCount(i: Instance): nat {
    if i.live > 0 then i.live else i.flushed
  }

  predicate IsEnabled(i: Instance) {
    !i.readOnly && !i.phase.Disabled? && !i.phase.Cancelled?
  }

  predicate AllDone(rows: seq<Instance>) {
    forall k :: 0 <= k < |rows| ==> !Running(rows[k].phase)
  }

  predicate AnyLogs(rows: seq<Instance>) {
    exists k :: 0 <= k < |rows| && DisplayLogCount(rows[k]) > 0
  }

  /** The rows that are not left over from a restored snapshot. */
  function Configured(rows: seq<Instance>): (r: seq<Instance>)
    ensures forall k :: 0 <= k < |r| ==> r[k] in rows && !r[k].readOnly
    ensures forall i :: i in rows && !i.readOnly ==> i in r
  {
    if rows == [] then []
    else (if rows[0].readOnly then [] else [rows[0]]) + Configured(rows[1..])
  }

  function EnabledCrns(rows: seq<Instance>): set<Crn> {
    set i | i in rows && IsEnabled(i) :: i.crn
  }

  function ClearStore(i: Instance): Instance {
    i.(live := 0, query := i.query + 1)
  }

  function CancelQuery(i: Instance): Instance {
    if !i.streaming then i
    else i.(streaming := false, phase := if i.phase.InProgress? then Cancelled else i.phase)
  }

  function Enable(i: Instance): Instance {
    if i.readOnly then i else i.(phase := Enabled)
  }

  function Disable(i: Instance): Instance {
    if i.readOnly then i else i.(phase := Disabled)
  }

  function TransitionAuthing(i: Instance, env: Option<Environment>, to: Phase): Instance {
    if i.phase.AuthInProgress? && (env.None? || env.value == i.env) then i.(phase := to) else i
  }

  /** ResolveTokens's prologue for one row: it forgets its logs, and waits for a token if enabled. */
  function ForFetch(i: Instance): Instance {
    if i.readOnly then i
    else ClearStore(i).(flushed := 0, size := 0, phase := if IsEnabled(i) then AuthInProgress else Disabled)
  }

  function StopWatching(i: Instance): Instance {
    if i.phase.Watching? then i.(phase := Cancelled) else i
  }

  function ToggleRow(i: Instance): Instance {
    if i.readOnly then i
    else match i.phase
      case Disabled => i.(phase := Enabled)
      case Cancelled => i.(phase := Enabled)
      case AuthInProgress => i.(phase := Cancelled)
      case InProgress => CancelQuery(i)
      case _ => i.(phase := Disabled)
  }

  function RetryRow(i: Instance): Instance {
    if i.phase.Error? then ClearStore(i).(phase := AuthInProgress) else i
  }

  /** A loser of the first-fetch race at the election. */
  function LoseRace(i: Instance): Instance {
    match i.phase
    case AuthInProgress => i.(phase := Cancelled)
    case InProgress => CancelQuery(i)
    case Warning => CancelQuery(i).(phase := Cancelled)
    case Error => CancelQuery(i)
    case _ => i
  }

  /** What finishing the race does to a row: every candidate but the winner is demoted. */
  function Demote(i: Instance, race: Race): Instance {
    if race.candidates.Some? && i.crn in race.candidates.value && race.winner != Some(i.crn) then i.(phase := Cancelled)
    else i
  }

  /** A batch of `count` logs of the stream with query id `id`; the store has room for `room`. */
  function StreamBatch(i: Instance, id: nat, count: nat, room: nat, warns: bool, errs: bool): Instance {
    if i.phase.Cancelled? then i
    else i.(phase := if errs then Error else if warns && !i.phase.Error? then Warning else i.phase,
            live := if id == i.query then i.live + Min(count, room) else i.live)
  }

  function StreamDone(i: Instance, errs: bool): Instance {
    if i.phase.Cancelled? then i
    else i.(phase := if errs then Error else if i.phase.InProgress? then Success else i.phase)
  }

  function StartQuery(i: Instance): Instance {
    i.(streaming := true, query := i.query + 1, phase := InProgress)
  }

  /** A row whose snapshot has been deleted: its logs are gone, and so is its badge. */
  function ResetDisplay(i: Instance): Instance {
    ClearStore(i).(flushed := 0, size := 0, phase := if IsEnabled(i) then Enabled else Disabled)
  }

  /** The last record of `crn`, which is the one a restore goes by. */
  function LastSaved(snaps: seq<Saved>, crn: Crn): Option<Saved> {
    if snaps == [] then None
    else if snaps[|snaps| - 1].crn == crn then Some(snaps[|snaps| - 1])
    else LastSaved(snaps[..|snaps| - 1], crn)
  }

  function RestoreRow(i: Instance, snaps: seq<Saved>): Instance {
    if i.readOnly then i
    else match LastSaved(snaps, i.crn)
      case None => ClearStore(i).(streaming := false, flushed := 0, size := 0, phase := Disabled)
      case Some(m) =>
        ClearStore(ClearStore(i)).(streaming := false, flushed := m.count, size := m.size,
                                   phase := if Running(m.phase) then Enabled else m.phase)
  }

  /** One read-only row for each recorded CRN that has none yet, up to the first that is not one. */
  function AppendReadOnly(rows: seq<Instance>, snaps: seq<Saved>): seq<Instance>
    decreases |snaps|
  {
    if snaps == [] then rows
    else if First(rows, snaps[0].crn).Some? then AppendReadOnly(rows, snaps[1..])
    else if !snaps[0].parsable then rows
    else AppendReadOnly(rows + [SavedRow(snaps[0])], snaps[1..])
  }

  function SavedRow(m: Saved): Instance {
    Instance(m.crn, m.env, ReadOnly, 0, m.count, m.size, false, 0, true)
  }

  /** A row's store is filled from a snapshot, or from itself. */
  function LoadLogs(i: Instance, count: nat): Instance {
    ClearStore(i).(live := count)
  }

  // ---------------------------------------------------------------- the rewriting of all rows

  function Fetching(): Instance -> Instance {
    (i: Instance) => ForFetch(i)
  }

  function Authing(env: Option<Environment>, to: Phase): Instance -> Instance {
    (i: Instance) => TransitionAuthing(i, env, to)
  }

  function Cancelling(): Instance -> Instance {
    (i: Instance) => CancelQuery(i)
  }

  function Stopping(): Instance -> Instance {
    (i: Instance) => StopWatching(i)
  }

  function Demoting(race: Race): Instance -> Instance {
    (i: Instance) => Demote(i, race)
  }

  predicate IsMember(i: Instance, members: Members) {
    members.Only? ==> i.crn in members.crns
  }

  /** A member of the watched fetch that still has no logs waits for the next round. */
  predicate StillEmpty(i: Instance, members: Members) {
    IsMember(i, members) && IsEnabled(i) && !i.phase.Error? && DisplayLogCount(i) == 0
  }

  function Resting(members: Members): Instance -> Instance {
    (i: Instance) => if StillEmpty(i, members) then i.(phase := Watching) else i
  }

  predicate Waiting(i: Instance, members: Members) {
    IsMember(i, members) && i.phase.Watching?
  }

  function Resuming(members: Members): Instance -> Instance {
    (i: Instance) => if Waiting(i, members) then ClearStore(i).(phase := AuthInProgress) else i
  }

  function EnablingAll(): Instance -> Instance {
    (i: Instance) => if IsEnabled(i) then i else Enable(i)
  }

  function EnablingOnly(crns: set<Crn>): Instance -> Instance {
    (i: Instance) => if i.crn in crns then Enable(i) else Disable(i)
  }

  /** The all-selector over the visible rows: `on` says which way it goes. */
  function Selecting(visible: set<Crn>, on: bool): Instance -> Instance {
    (i: Instance) =>
      if i.crn !in visible || i.readOnly then i
      else if !on && IsEnabled(i) then Disable(i)
      else if on && !IsEnabled(i) then Enable(i)
      else i
  }

  function Losing(candidates: set<Crn>, winner: Crn): Instance -> Instance {
    (i: Instance) => if i.crn in candidates && i.crn != winner then LoseRace(i) else i
  }

  function Dispatching(): Instance -> Instance {
    (i: Instance) => if IsEnabled(i) then i.(phase := AuthInProgress) else i
  }

  function Restoring(snaps: seq<Saved>): Instance -> Instance {
    (i: Instance) => RestoreRow(i, snaps)
  }

  function Resetting(): Instance -> Instance {
    (i: Instance) => ResetDisplay(i)
  }

  predicate AnyEmpty(rows: seq<Instance>, members: Members) {
    exists k :: 0 <= k < |rows| && StillEmpty(rows[k], members)
  }

  predicate AnyWaiting(rows: seq<Instance>, members: Members) {
    exists k :: 0 <= k < |rows| && Waiting(rows[k], members)
  }

  predicate AnyWatching(rows: seq<Instance>) {
    exists k :: 0 <= k < |rows| && rows[k].phase.Watching?
  }

  predicate AnyEnabled(rows: seq<Instance>) {
    exists k :: 0 <= k < |rows| && IsEnabled(rows[k])
  }

  // ---------------------------------------------------------------- flush accounting

  function Without<T>(s: seq<T>, k: nat): seq<T>
    requires k < |s|
  {
    s[..k] + s[k + 1..]
  }

  predicate Holds(frames: seq<Flush>, crn: Crn) {
    exists k :: 0 <= k < |frames| && frames[k].crn == crn
  }

  /** Whatever fetch was under way is abandoned, with its epoch; then a container may be opened. */
  function Reopen(b: Books, opens: bool): Books {
    Books(if opens then Some(Container(b.epoch + 1, true, [])) else None, 0, b.epoch + 1, b.messages, 0, 0, b.journal)
  }

  /** The container is closed in any case, and published if `publishes`. */
  function Close(b: Books, publishes: bool, logs: bool): Books
    requires publishes ==> b.container.Some?
  {
    Books(None, b.pending, b.epoch, b.messages, b.started, b.lost,
          if publishes then b.journal + [Entry(b, logs)] else b.journal)
  }

  function Entry(b: Books, logs: bool): Published
    requires b.container.Some?
  {
    Published(b.epoch, b.container.value.frames, logs, b.started, b.lost)
  }

  function Post(b: Books, crn: Crn): Books {
    Books(b.container, b.pending + 1, b.epoch, b.messages + [Flush(crn, b.epoch)], b.started + 1, b.lost, b.journal)
  }

  function Drop(b: Books, k: nat): Books
    requires k < |b.messages|
  {
    b.(messages := Without(b.messages, k))
  }

  /** The container takes a frame: it has its writer, no frame of the instance yet, and the write works. */
  predicate Takes(c: Container, crn: Crn, compressed: bool, known: bool, io: bool) {
    compressed && known && c.writable && !Holds(c.frames, crn) && io
  }

  /** A write that fails costs the container its writer; a refused frame does not. */
  function Written(c: Container, f: Flush, compressed: bool, known: bool, io: bool): Container {
    if Takes(c, f.crn, compressed, known, io) then Container(c.epoch, true, c.frames + [f])
    else Container(c.epoch, c.writable && (!compressed || !known || Holds(c.frames, f.crn)), c.frames)
  }

  /** A current message is delivered: its frame is written, or lost. A counter that stands while no
      container is open never happens: see Accounts. */
  function Deliver(b: Books, k: nat, compressed: bool, known: bool, io: bool): Books
    requires k < |b.messages|
  {
    var taken := b.container.Some? && Takes(b.container.value, b.messages[k].crn, compressed, known, io);
    Books(if b.container.None? then None else Some(Written(b.container.value, b.messages[k], compressed, known, io)),
          b.pending - 1, b.epoch, Without(b.messages, k), b.started, if taken then b.lost else b.lost + 1, b.journal)
  }

  // ---------------------------------------------------------------- finalization

  /** A fetch is over: no query runs and no flush is undelivered. */
  predicate Idle(s: State) {
    AllDone(s.rows) && s.books.pending == 0
  }

  /** The log count that a snapshot declares of a row: a read-only one's is its own record's. */
  function DeclaredCount(i: Instance): nat {
    if i.readOnly then i.flushed else DisplayLogCount(i)
  }

  /** The state frame is refused that declares logs without bytes, or bytes without logs: of a member,
      as its row shows it, or as its record says if it has no row. */
  predicate Sound(rows: seq<Instance>, members: Members) {
    && (forall k :: 0 <= k < |rows| && IsMember(rows[k], members) ==>
          (DeclaredCount(rows[k]) == 0 <==> rows[k].size == 0))
    && (members.Only? ==>
          forall m :: m in members.records && First(rows, m.crn).None? ==> (m.count == 0 <==> m.size == 0))
  }

  /** `ok` is whether everything fits and closing and publishing the file works. */
  predicate Publishes(s: State, ok: bool) {
    && s.books.container.Some? && (AnyLogs(s.rows) || s.mode.collecting)
    && Sound(s.rows, s.members) && s.books.container.value.writable && ok
  }

  /** maybeFinalizeFetch: nothing while a query runs or a flush is undelivered; otherwise the
      container is closed, published if the fetch has logs or is a collect and nothing stops that,
      and the collect and the race end with it. */
  function MaybeFinalize(s: State, ok: bool): State {
    if !Idle(s) then s
    else State(Map(s.rows, Demoting(s.race)), Close(s.books, Publishes(s, ok), AnyLogs(s.rows)),
               s.mode.(fetching := s.mode.fetching && s.books.container.None?, collecting := false),
               Race(None, if s.race.candidates.None? then s.race.winner else None), s.members, s.loads)
  }

  function WatchEnded(m: Mode): Mode {
    m.(watching := false, watchEpoch := m.watchEpoch + 1)
  }

  function EndWatch(s: State, ok: bool): State {
    MaybeFinalize(s.(mode := WatchEnded(s.mode)), ok)
  }

  function CountRound(s: State): State {
    s.(mode := s.mode.(rounds := s.mode.rounds + 1))
  }

  /** evaluateWatchRound: the watch ends when no enabled member is still empty or a cap is hit;
      otherwise the empty ones wait for the next round. */
  function EvaluateWatchRound(s: State, capHit: bool, ok: bool): State {
    var counted := CountRound(s);
    if !AnyEmpty(s.rows, s.members) || capHit then EndWatch(counted, ok)
    else counted.(rows := Map(s.rows, Resting(s.members)))
  }

  /** settle, the gate at the end of every handler. */
  function Settle(s: State, capHit: bool, ok: bool): State {
    if !AllDone(s.rows) then s
    else if !s.mode.watching then MaybeFinalize(s, ok)
    else if s.books.pending != 0 then s
    else EvaluateWatchRound(s, capHit, ok)
  }

  function StopWatch(s: State): State {
    if !s.mode.watching then s else s.(rows := Map(s.rows, Stopping()), mode := WatchEnded(s.mode))
  }

  /** The start of a watch round: the waiting members are fetched again into the open container. */
  function StartWatchRound(s: State, ok: bool): State {
    if !AnyWaiting(s.rows, s.members) then EndWatch(s, ok)
    else s.(rows := Map(s.rows, Resuming(s.members)))
  }

  function OnWatchTick(s: State, epoch: nat, capHit: bool, ok: bool): State {
    if !s.mode.watching || epoch != s.mode.watchEpoch then s
    else if capHit then EndWatch(s, ok)
    else StartWatchRound(s, ok)
  }

  // ---------------------------------------------------------------- starting fetches

  /** startFetchWithSources: the old fetch is abandoned before anything can fail; then a fresh
      container is opened and every enabled row waits for its token. */
  function StartFetchWithSources(s: State, opens: bool): State {
    State(if opens then Map(s.rows, Fetching()) else s.rows, Reopen(s.books, opens),
          if opens then s.mode.(fetching := true, fetchCancelled := false, generation := s.mode.generation + 1)
          else s.mode.(fetching := false),
          s.race, s.members, {})
  }

  function StartFetch(s: State, opens: bool): State {
    var rows := Configured(s.rows);
    StartFetchWithSources(s.(rows := rows, members := Only(EnabledCrns(rows), [])), opens)
  }

  function Willing(s: State): State {
    if AnyEnabled(s.rows) then s else s.(rows := Map(s.rows, EnablingAll()))
  }

  function Racing(s: State): State {
    s.(race := Race(Some(EnabledCrns(s.rows)), None))
  }

  /** startFirstFetch: a race among the enabled rows, or among all if none is enabled. */
  function StartFirstFetch(s: State, opens: bool): State {
    var willing := Willing(s);
    if !AnyEnabled(willing.rows) then willing
    else
      var started := StartFetch(Racing(willing), opens);
      if opens then started else started.(race := Race(None, None))
  }

  predicate AllConfigured(rows: seq<Instance>, crns: set<Crn>) {
    forall c :: c in crns ==> exists k :: 0 <= k < |rows| && rows[k].crn == c && !rows[k].readOnly
  }

  /** Exactly the rows of the archive are enabled, and become the members of its snapshot. */
  function ForArchive(s: State, crns: set<Crn>): State {
    s.(rows := Map(Configured(s.rows), EnablingOnly(crns)), members := Only(crns, []))
  }

  function ForCollect(s: State, crns: set<Crn>): State {
    var chosen := ForArchive(s, crns);
    chosen.(mode := chosen.mode.(collecting := true))
  }

  /** startCollect, refused while a fetch or watch runs or an archive instance is not configured;
      exactly the archive's rows are enabled. */
  function StartCollect(s: State, crns: set<Crn>, opens: bool): State {
    if s.mode.fetching || s.mode.watching || !AllConfigured(s.rows, crns) then s
    else
      var started := StartFetchWithSources(ForCollect(s, crns), opens);
      if opens then started else started.(mode := started.mode.(collecting := false))
  }

  function ForWatch(s: State): State {
    s.(mode := s.mode.(watching := true, watchEpoch := s.mode.watchEpoch + 1, rounds := 0))
  }

  function StartWatch(s: State, opens: bool): State {
    var started := StartFetch(ForWatch(s), opens);
    if opens then started else started.(mode := started.mode.(watching := false))
  }

  /** The watch key: stops and settles a watch, or starts one when no query runs. */
  function ToggleWatch(s: State, opens: bool, capHit: bool, ok: bool): State {
    if s.mode.watching then Settle(StopWatch(s), capHit, ok)
    else if !AllDone(s.rows) then s
    else StartWatch(s, opens)
  }

  // ---------------------------------------------------------------- streams and flushes

  /** In a first-fetch race only an enabled candidate's current stream counts, and after the
      election only the winner's. */
  predicate Accepts(s: State, crn: Crn, id: nat) {
    s.race.candidates.Some? ==>
      var at := First(s.rows, crn);
      && crn in s.race.candidates.value && at.Some? && IsEnabled(s.rows[at.value]) && id == s.rows[at.value].query
      && (s.race.winner.None? || s.race.winner == Some(crn))
  }

  predicate Elects(s: State, count: nat) {
    s.race.candidates.Some? && s.race.winner.None? && count > 0
  }

  function Elect(s: State, crn: Crn): State
    requires s.race.candidates.Some?
  {
    s.(rows := Map(s.rows, Losing(s.race.candidates.value, crn)), race := Race(s.race.candidates, Some(crn)),
       mode := s.mode.(generation := s.mode.generation + 1))
  }

  /** Rewrites the first row of `crn`, if there is one. */
  function At(rows: seq<Instance>, crn: Crn, f: Instance -> Instance): seq<Instance> {
    var at := First(rows, crn);
    if at.None? then rows else rows[at.value := f(rows[at.value])]
  }

  function Taking(id: nat, count: nat, room: nat, warns: bool, errs: bool): Instance -> Instance {
    (i: Instance) => StreamBatch(i, id, count, room, warns, errs)
  }

  function OnLogStream(s: State, crn: Crn, id: nat, count: nat, room: nat, warns: bool, errs: bool): State {
    if !Accepts(s, crn, id) then s
    else
      var elected := if Elects(s, count) then Elect(s, crn) else s;
      elected.(rows := At(elected.rows, crn, Taking(id, count, room, warns, errs)))
  }

  /** Hands the logs of a row to an asynchronous flush stamped with this fetch's epoch, if there are
      any and a container is open to take them. */
  function HandOver(s: State, at: nat): State
    requires at < |s.rows|
  {
    var row := s.rows[at];
    if s.books.container.None? || row.live == 0 then s
    else s.(rows := s.rows[at := ClearStore(row).(flushed := row.live)], books := Post(s.books, row.crn))
  }

  function Ended(s: State, crn: Crn, errs: bool): State {
    var at := First(s.rows, crn);
    if at.None? then s
    else HandOver(s.(rows := s.rows[at.value := StreamDone(s.rows[at.value], errs)]), at.value)
  }

  /** A stream has ended: its row settles, its logs are handed over, and the fetch may be over. */
  function OnLogStreamDone(s: State, crn: Crn, errs: bool, capHit: bool, ok: bool): State {
    Settle(Ended(s, crn, errs), capHit, ok)
  }

  /** OpenInstance queues a load when the row's logs are neither live nor durable yet. */
  predicate Queues(s: State, crn: Crn, backed: bool) {
    var at := First(s.rows, crn);
    && backed && at.Some?
    && var row := s.rows[at.value];
       && !row.readOnly && row.flushed == 0 && row.live == 0
       && !row.phase.Error? && !row.phase.Disabled? && !row.phase.Cancelled?
  }

  function OpenRow(s: State, crn: Crn, backed: bool): State {
    if Queues(s, crn, backed) then s.(loads := s.loads + {crn}) else s
  }

  /** A load that waited for the flush is answered, by trying again if the frame was written. */
  function Answer(s: State, crn: Crn, taken: bool, backed: bool): State {
    var rest := s.(loads := s.loads - {crn});
    if crn in s.loads && taken then OpenRow(rest, crn, backed) else rest
  }

  function Sizing(bytes: Bytes): Instance -> Instance {
    (i: Instance) => i.(size := bytes)
  }

  function Delivered(s: State, k: nat, compressed: bool, bytes: Bytes, io: bool, backed: bool): State
    requires k < |s.books.messages|
  {
    var crn := s.books.messages[k].crn;
    var books := Deliver(s.books, k, compressed, First(s.rows, crn).Some?, io);
    var taken := books.lost == s.books.lost;
    var rows := if taken then At(s.rows, crn, Sizing(bytes)) else s.rows;
    Answer(s.(rows := rows, books := books), crn, taken, backed)
  }

  /** A flush has been compressed. A message of an earlier epoch is dropped whole. */
  function OnInstanceFlushed(s: State, k: nat, compressed: bool, bytes: Bytes, io: bool, backed: bool, capHit: bool,
                             ok: bool)
    : State
    requires k < |s.books.messages|
  {
    if s.books.messages[k].epoch != s.books.epoch then s.(books := Drop(s.books, k))
    else Settle(Delivered(s, k, compressed, bytes, io, backed), capHit, ok)
  }

  function Clearing(): Instance -> Instance {
    (i: Instance) => ClearStore(i)
  }

  function Filling(count: nat): Instance -> Instance {
    (i: Instance) => LoadLogs(i, count)
  }

  /** A load that the user still waits for is ready: it fills its row's store, and the row whose logs
      were loaded before it loses them. */
  function OnLoadReady(s: State, crn: Crn, count: nat, evicted: Option<Crn>): State {
    var rows := if evicted.Some? && evicted.value != crn then At(s.rows, evicted.value, Clearing()) else s.rows;
    s.(rows := At(rows, crn, Filling(count)))
  }

  // ---------------------------------------------------------------- cancelling, snapshots, selection

  function Silenced(s: State): State {
    var stopped := StopWatch(s);
    stopped.(rows := Map(Map(stopped.rows, Authing(None, Cancelled)), Cancelling()),
             mode := stopped.mode.(fetchCancelled := true, generation := stopped.mode.generation + 1))
  }

  /** cancelAllFetches: no token and no batch of the cancelled fetch counts any more, and the fetch
      settles. */
  function CancelAllFetches(s: State, capHit: bool, ok: bool): State {
    var settled := Settle(Silenced(s), capHit, ok);
    settled.(mode := settled.mode.(collecting := false, fetching := false))
  }

  /** Restoring a snapshot stops a watch and replaces what the rows show; the flush accounting of a
      fetch under way is not touched. */
  function OnSnapshotRestore(s: State, snaps: seq<Saved>): State {
    var stopped := StopWatch(s);
    stopped.(rows := AppendReadOnly(Map(Configured(stopped.rows), Restoring(snaps)), snaps),
             members := Only(set m | m in snaps :: m.crn, snaps))
  }

  /** The file behind the session has been deleted. */
  function OnEvict(s: State): State {
    s.(rows := Map(Configured(s.rows), Resetting()), members := Everyone)
  }

  predicate AllVisibleEnabled(rows: seq<Instance>, visible: set<Crn>) {
    forall k :: 0 <= k < |rows| && rows[k].crn in visible && !rows[k].readOnly ==> IsEnabled(rows[k])
  }

  function ToggleAllVisible(s: State, visible: set<Crn>): State {
    s.(rows := Map(s.rows, Selecting(visible, !AllVisibleEnabled(s.rows, visible))))
  }

  // ---------------------------------------------------------------- authentication

  /** A token has come: unless it belongs to an earlier generation, or its row has been deselected,
      the row's query starts. */
  function OnMemberAuthResolved(s: State, crn: Crn, generation: nat): State {
    var at := First(s.rows, crn);
    if generation != s.mode.generation || at.None? || !IsEnabled(s.rows[at.value]) then s
    else s.(rows := s.rows[at.value := StartQuery(s.rows[at.value])])
  }

  predicate Loser(race: Race, crn: Crn) {
    race.candidates.Some? && race.winner.Some? && crn in race.candidates.value && race.winner != Some(crn)
  }

  function Failing(): Instance -> Instance {
    (i: Instance) => i.(phase := Error)
  }

  function Failed(s: State, crn: Crn): State {
    if Loser(s.race, crn) then s else s.(rows := At(s.rows, crn, Failing()))
  }

  /** A token has failed for one row. A loser of the race keeps its state. */
  function OnMemberAuthFailed(s: State, crn: Crn, generation: nat, capHit: bool, ok: bool): State {
    if generation != s.mode.generation then s else Settle(Failed(s, crn), capHit, ok)
  }

  /** An environment's credential failed (`to` is Error), its resolution was cancelled (Cancelled),
      or its passcode dialog was cancelled (Enabled): its waiting rows all go to `to`. */
  function SettleEnv(s: State, env: Environment, to: Phase, capHit: bool, ok: bool): State {
    Settle(s.(rows := Map(s.rows, Authing(Some(env), to))), capHit, ok)
  }

  predicate AnyAuthing(rows: seq<Instance>, env: Environment) {
    exists k :: 0 <= k < |rows| && rows[k].env == env && rows[k].phase.AuthInProgress?
  }

  // ---------------------------------------------------------------- archive dispatch

  function Dispatch(s: State): State {
    if s.mode.fetching || s.mode.watching || !AnyEnabled(s.rows) then s
    else s.(rows := Map(s.rows, Dispatching()), mode := s.mode.(fetching := true))
  }

  function FinishDispatch(submitted: bool): Instance -> Instance {
    (i: Instance) => if i.phase.Cancelled? then i else i.(phase := if submitted then Success else Error)
  }

  function OnDispatchInstanceDone(s: State, crn: Crn, submitted: bool): State {
    if First(s.rows, crn).None? then s
    else
      var rows := At(s.rows, crn, FinishDispatch(submitted));
      s.(rows := rows, mode := s.mode.(fetching := s.mode.fetching && !AllDone(rows)))
  }

  // ---------------------------------------------------------------- events

  /** Everything the event loop may be handed: `opens` is whether a container can be created,
      `backed` whether the session has a backing file. A delivered flush is any of those posted. */
  datatype Key =
    | FetchKey(opens: bool)
    | FirstFetchKey(opens: bool)
    | WatchKey(opens: bool)
    | CancelKey
    | ToggleKey(row: nat)
    | SelectAllKey(visible: set<Crn>)
    | RetryKey(row: nat)
    | DispatchKey

  datatype Auth =
    | Token(crn: Crn, generation: nat)
    | TokenFailed(crn: Crn, generation: nat)
    | EnvFailed(env: Environment, generation: nat)
    | EnvCancelled(env: Environment, generation: nat)
    | PasscodeFailed(env: Environment)
    | PasscodeCancelled(env: Environment)
    | PasscodeAccepted(env: Environment)

  datatype Message =
    | Collect(crns: set<Crn>, opens: bool)
    | Stream(crn: Crn, id: nat, count: nat, room: nat, warns: bool, errs: bool)
    | StreamEnd(crn: Crn, errs: bool)
    | Flushed(at: nat, compressed: bool, bytes: Bytes, io: bool, backed: bool)
    | Load(crn: Crn, backed: bool)
    | Loaded(crn: Crn, count: nat, evicted: Option<Crn>)
    | Tick(watchEpoch: nat)
    | DispatchDone(crn: Crn, submitted: bool)
    | ViewInContext(crn: Crn)
    | Restore(snaps: seq<Saved>)
    | Evict

  datatype Event = Pressed(key: Key) | Authed(auth: Auth) | Received(message: Message)

  /** An event, and what the clock and the file system answer while it is handled. */
  datatype Step = Step(event: Event, capHit: bool, ok: bool)

  function OnKey(s: State, key: Key, capHit: bool, ok: bool): State {
    match key
    case FetchKey(opens) => if AllDone(s.rows) then StartFetch(s, opens) else s
    case FirstFetchKey(opens) => if AllDone(s.rows) then StartFirstFetch(s, opens) else s
    case WatchKey(opens) => ToggleWatch(s, opens, capHit, ok)
    case CancelKey => CancelAllFetches(s, capHit, ok)
    case ToggleKey(k) => if k < |s.rows| then s.(rows := s.rows[k := ToggleRow(s.rows[k])]) else s
    case SelectAllKey(visible) => ToggleAllVisible(s, visible)
    case RetryKey(k) => if k < |s.rows| then s.(rows := s.rows[k := RetryRow(s.rows[k])]) else s
    case DispatchKey => Dispatch(s)
  }

  /** A passcode message carries no generation and always counts. */
  function OnAuth(s: State, auth: Auth, capHit: bool, ok: bool): State {
    match auth
    case Token(crn, generation) => OnMemberAuthResolved(s, crn, generation)
    case TokenFailed(crn, generation) => OnMemberAuthFailed(s, crn, generation, capHit, ok)
    case EnvFailed(env, generation) =>
      if generation == s.mode.generation then SettleEnv(s, env, Error, capHit, ok) else s
    case EnvCancelled(env, generation) =>
      if generation == s.mode.generation then SettleEnv(s, env, Cancelled, capHit, ok) else s
    case PasscodeFailed(env) => SettleEnv(s, env, Error, capHit, ok)
    case PasscodeCancelled(env) => SettleEnv(s, env, Enabled, capHit, ok)
    case PasscodeAccepted(env) => if AnyAuthing(s.rows, env) then s else Settle(s, capHit, ok)
  }

  function OnMessage(s: State, message: Message, capHit: bool, ok: bool): State {
    match message
    case Collect(crns, opens) => StartCollect(s, crns, opens)
    case Stream(crn, id, count, room, warns, errs) => OnLogStream(s, crn, id, count, room, warns, errs)
    case StreamEnd(crn, errs) => OnLogStreamDone(s, crn, errs, capHit, ok)
    case Flushed(k, compressed, bytes, io, backed) =>
      if k < |s.books.messages| then OnInstanceFlushed(s, k, compressed, bytes, io, backed, capHit, ok) else s
    case Load(crn, backed) => OpenRow(s, crn, backed)
    case Loaded(crn, count, evicted) => OnLoadReady(s, crn, count, evicted)
    case Tick(epoch) => OnWatchTick(s, epoch, capHit, ok)
    case DispatchDone(crn, submitted) => OnDispatchInstanceDone(s, crn, submitted)
    case ViewInContext(crn) => s.(rows := Map(s.rows, EnablingOnly({crn})))
    case Restore(snaps) => OnSnapshotRestore(s, snaps)
    case Evict => OnEvict(s)
  }

  function Next(s: State, t: Step): State {
    match t.event
    case Pressed(key) => OnKey(s, key, t.capHit, t.ok)
    case Authed(auth) => OnAuth(s, auth, t.capHit, t.ok)
    case Received(message) => OnMessage(s, message, t.capHit, t.ok)
  }

  function After(s: State, steps: seq<Step>): State {
    if steps == [] then s else Next(After(s, steps[..|steps| - 1]), steps[|steps| - 1])
  }

  /** A picker as it is built: one disabled row, without logs, for every configured instance. */
  function Init(configured: seq<(Crn, Environment)>): State {
    State(seq(|configured|, k requires 0 <= k < |configured| =>
                Instance(configured[k].0, configured[k].1, Disabled, 0, 0, 0, false, 0, false)),
          Books(None, 0, 0, [], 0, 0, []), Mode(false, false, false, false, 0, 0, 0), Race(None, None), Everyone, {})
  }

  // ---------------------------------------------------------------- whole runs

  /** `p` holds at the start of a run and after each of its events. */
  ghost predicate Always(p: seq<Step> -> bool, steps: seq<Step>) {
    forall n :: 0 <= n <= |steps| ==> p(steps[..n])
  }

  /** No event of a run finds it so that `q` holds. */
  ghost predicate Never(q: (seq<Step>, Step) -> bool, steps: seq<Step>) {
    forall n :: 0 <= n < |steps| ==> !q(steps[..n], steps[n])
  }

  lemma AlwaysFront(p: seq<Step> -> bool, steps: seq<Step>)
    ensures Always(p, steps) <==> p(steps) && (steps != [] ==> Always(p, steps[..|steps| - 1]))
  {
    assert steps[..|steps|] == steps;
    if steps == [] {
      assert Always(p, steps) ==> p(steps[..0]);
    } else {
      var front := steps[..|steps| - 1];
      assert forall n :: 0 <= n < |steps| ==> front[..n] == steps[..n];
      if Always(p, steps) {
        assert p(steps[..|steps|]) && Always(p, front);
      }
      if p(steps) && Always(p, front) {
        forall n | 0 <= n <= |steps|
          ensures p(steps[..n])
        {
          assert n < |steps| ==> p(front[..n]);
        }
      }
    }
  }

  lemma NeverFront(q: (seq<Step>, Step) -> bool, steps: seq<Step>)
    requires steps != []
    ensures var m := |steps| - 1; Never(q, steps) <==> Never(q, steps[..m]) && !q(steps[..m], steps[m])
  {
    var m := |steps| - 1;
    assert forall n :: 0 <= n < m ==> steps[..m][..n] == steps[..n] && steps[..m][n] == steps[n];
  }
}
