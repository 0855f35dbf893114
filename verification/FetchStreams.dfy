/** One instance's part of a fetch, from its token to its published frame. */
module FetchStreams {
  import opened Options
  import opened FetchState

  // ---------------------------------------------------------------- batches

  /** A batch of `count` logs, of which the store has room for `room`. */
  datatype Batch = Batch(count: nat, room: nat, warns: bool, errs: bool)

  /** The logs that batches bring. */
  function Brought(bs: seq<Batch>): nat {
    if bs == [] then 0
    else
      var b := bs[|bs| - 1];
      Brought(bs[..|bs| - 1]) + if b.count < b.room then b.count else b.room
  }

  predicate AnyErrs(bs: seq<Batch>) {
    exists k :: 0 <= k < |bs| && bs[k].errs
  }

  predicate AnyWarns(bs: seq<Batch>) {
    exists k :: 0 <= k < |bs| && bs[k].warns
  }

  /** The batches as events of the stream `id` of `crn`. */
  function Events(crn: Crn, id: nat, bs: seq<Batch>, capHit: bool, ok: bool): (r: seq<Step>)
    ensures |r| == |bs|
  {
    seq(|bs|, k requires 0 <= k < |bs| =>
      Step(Received(Stream(crn, id, bs[k].count, bs[k].room, bs[k].warns, bs[k].errs)), capHit, ok))
  }

  /** The badge of a row that runs after its stream has brought these batches. */
  function Badge(bs: seq<Batch>): Phase {
    if AnyErrs(bs) then Error else if AnyWarns(bs) then Warning else InProgress
  }

  /** Row `k` is the instance's, its query runs, and its batches count. */
  predicate Streams(s: State, crn: Crn, k: nat) {
    First(s.rows, crn) == Some(k) && s.rows[k].phase == InProgress && s.race.candidates == None
  }

  /** A state whose row `k` has taken the batches: all their logs that there was room for, and the worst
      that any of them brought for a badge. */
  function Fed(s: State, k: nat, bs: seq<Batch>): State
    requires k < |s.rows|
  {
    s.(rows := s.rows[k := s.rows[k].(live := s.rows[k].live + Brought(bs), phase := Badge(bs))])
  }

  /** What the batches of a query make of its row, and that nothing else changes. */
  lemma {:induction false} BatchesCount(s: State, crn: Crn, k: nat, bs: seq<Batch>, capHit: bool, ok: bool)
    requires Streams(s, crn, k)
    ensures After(s, Events(crn, s.rows[k].query, bs, capHit, ok)) == Fed(s, k, bs)
    decreases |bs|
  {
    var events := Events(crn, s.rows[k].query, bs, capHit, ok);
    if bs == [] {
      assert s.rows[k := s.rows[k].(live := s.rows[k].live + 0, phase := InProgress)] == s.rows;
    } else {
      var front := bs[..|bs| - 1];
      BatchesCount(s, crn, k, front, capHit, ok);
      assert events[..|bs| - 1] == Events(crn, s.rows[k].query, front, capHit, ok);
      OneMore(s, crn, k, bs, capHit, ok);
    }
  }

  lemma OneMore(s: State, crn: Crn, k: nat, bs: seq<Batch>, capHit: bool, ok: bool)
    requires Streams(s, crn, k) && bs != []
    ensures Next(Fed(s, k, bs[..|bs| - 1]), Events(crn, s.rows[k].query, bs, capHit, ok)[|bs| - 1]) == Fed(s, k, bs)
  {
    hide Next;
    var front, b := bs[..|bs| - 1], bs[|bs| - 1];
    var row := s.rows[k].(live := s.rows[k].live + Brought(front), phase := Badge(front));
    OneBatch(s, crn, k, row, b, capHit, ok);
    BadgeMore(bs);
  }

  lemma BadgeMore(bs: seq<Batch>)
    requires bs != []
    ensures var front, b := bs[..|bs| - 1], bs[|bs| - 1];
            && (AnyErrs(bs) <==> AnyErrs(front) || b.errs)
            && (AnyWarns(bs) <==> AnyWarns(front) || b.warns)
  {
    var front := bs[..|bs| - 1];
    assert forall k :: 0 <= k < |front| ==> front[k] == bs[k];
  }

  lemma OneBatch(s: State, crn: Crn, k: nat, row: Instance, b: Batch, capHit: bool, ok: bool)
    requires First(s.rows, crn) == Some(k) && s.race.candidates == None
    requires row.crn == crn && row.query == s.rows[k].query
    requires row.phase == InProgress || row.phase == Warning || row.phase == Error
    ensures Next(s.(rows := s.rows[k := row]),
                 Step(Received(Stream(crn, row.query, b.count, b.room, b.warns, b.errs)), capHit, ok))
            == s.(rows := s.rows[k := row.(live := row.live + if b.count < b.room then b.count else b.room,
                                           phase := if b.errs then Error
                                                    else if b.warns && row.phase != Error then Warning
                                                    else row.phase)])
  {
    SameFirst(s.rows, s.rows[k := row], crn);
  }

  // ---------------------------------------------------------------- the end of a stream

  function EndBadge(phase: Phase, errs: bool): Phase {
    if phase == Cancelled then Cancelled else if errs then Error else if phase == InProgress then Success else phase
  }

  lemma Pending(s: State, capHit: bool, ok: bool)
    requires s.books.pending > 0
    ensures Settle(s, capHit, ok) == s
  {
  }

  /** A stream that ends with logs in its row's store, while a container is open: all of them are handed
      over, in one flush of the fetch that is on, and the fetch is not over yet. */
  lemma EndHandsOver(s: State, crn: Crn, k: nat, errs: bool, capHit: bool, ok: bool)
    requires First(s.rows, crn) == Some(k) && s.rows[k].live > 0
    requires s.books.container.Some? && s.books.pending >= 0
    ensures OnLogStreamDone(s, crn, errs, capHit, ok)
            == s.(rows := s.rows[k := s.rows[k].(live := 0, flushed := s.rows[k].live, query := s.rows[k].query + 1,
                                                 phase := EndBadge(s.rows[k].phase, errs))],
                  books := s.books.(pending := s.books.pending + 1, started := s.books.started + 1,
                                    messages := s.books.messages + [Flush(crn, s.books.epoch)]))
  {
    var row := s.rows[k];
    var done := StreamDone(row, errs);
    var cleared := ClearStore(done).(flushed := row.live);
    assert s.rows[k := done][k := cleared] == s.rows[k := cleared];
    Pending(Ended(s, crn, errs), capHit, ok);
  }

  // ---------------------------------------------------------------- one instance

  /** An instance's part of a fetch: what its stream brings, how it ends, and the bytes of its flush. */
  datatype Part = Part(crn: Crn, bs: seq<Batch>, errs: bool, bytes: Bytes)

  /** How the row of an instance ends up. */
  function Finished(row: Instance, part: Part): Instance {
    row.(streaming := true, query := row.query + 2, flushed := row.live + Brought(part.bs), live := 0,
         size := part.bytes,
         phase := EndBadge(Badge(part.bs), part.errs))
  }

  /** A fetch is on, row `k` waits for its token, and the container has no frame of it. */
  predicate Waits(s: State, crn: Crn, k: nat) {
    && First(s.rows, crn) == Some(k) && s.rows[k].phase == AuthInProgress && !s.rows[k].readOnly
    && s.race.candidates == None && s.books.pending == 0
    && s.books.container.Some? && s.books.container.value.writable
    && forall j :: 0 <= j < |s.books.container.value.frames| ==> s.books.container.value.frames[j].crn != crn
  }

  /** The row's logs have been handed over. */
  function HandedOver(s: State, k: nat, part: Part): State
    requires k < |s.rows|
  {
    s.(rows := s.rows[k := Finished(s.rows[k], part).(size := s.rows[k].size)],
       books := s.books.(pending := s.books.pending + 1, started := s.books.started + 1,
                         messages := s.books.messages + [Flush(part.crn, s.books.epoch)]))
  }

  /** The events of a stream from its token to its end; the row's queries have come to `query`. */
  function Streaming(part: Part, generation: nat, query: nat, capHit: bool, ok: bool): seq<Step> {
    [TokenOf(part.crn, generation, capHit, ok)] + Events(part.crn, query + 1, part.bs, capHit, ok)
    + [EndOf(part, capHit, ok)]
  }

  function TokenOf(crn: Crn, generation: nat, capHit: bool, ok: bool): Step {
    Step(Authed(Token(crn, generation)), capHit, ok)
  }

  function EndOf(part: Part, capHit: bool, ok: bool): Step {
    Step(Received(StreamEnd(part.crn, part.errs)), capHit, ok)
  }

  lemma {:induction false} AfterBoth(s: State, a: seq<Step>, b: seq<Step>)
    ensures After(s, a + b) == After(After(s, a), b)
    decreases |b|
  {
    if b == [] {
      assert a + b == a;
    } else {
      assert (a + b)[..|a + b| - 1] == a + b[..|b| - 1];
      AfterBoth(s, a, b[..|b| - 1]);
    }
  }

  lemma AfterOne(s: State, t: Step)
    ensures After(s, [t]) == Next(s, t)
  {
    assert [t][..0] == [];
  }

  /** The token has come, and the query runs. */
  function Started(s: State, k: nat): State
    requires k < |s.rows|
  {
    s.(rows := s.rows[k := s.rows[k].(streaming := true, query := s.rows[k].query + 1, phase := InProgress)])
  }

  lemma TokenStarts(s: State, crn: Crn, k: nat)
    requires Waits(s, crn, k)
    ensures OnMemberAuthResolved(s, crn, s.mode.generation) == Started(s, k)
  {
  }

  lemma FedEnds(s: State, k: nat, part: Part, capHit: bool, ok: bool)
    requires Waits(s, part.crn, k) && s.rows[k].live + Brought(part.bs) > 0
    ensures OnLogStreamDone(Fed(Started(s, k), k, part.bs), part.crn, part.errs, capHit, ok) == HandedOver(s, k, part)
  {
    hide OnLogStreamDone;
    var fed := Fed(Started(s, k), k, part.bs);
    var row := s.rows[k];
    var last := Finished(row, part).(size := row.size);
    SameFirst(s.rows, fed.rows, part.crn);
    EndHandsOver(fed, part.crn, k, part.errs, capHit, ok);
    assert fed.rows[k] == row.(streaming := true, query := row.query + 1, live := row.live + Brought(part.bs),
                               phase := Badge(part.bs));
    assert fed.rows[k := last] == s.rows[k := last];
  }

  lemma Chained(s: State, first: Step, more: seq<Step>, last: Step, s1: State, s2: State, s3: State)
    requires Next(s, first) == s1 && After(s1, more) == s2 && Next(s2, last) == s3
    ensures After(s, [first] + more + [last]) == s3
  {
    AfterBoth(s, [first] + more, [last]);
    AfterBoth(s, [first], more);
    AfterOne(s, first);
    AfterOne(s2, last);
  }

  lemma TokenHandled(s: State, k: nat, part: Part, capHit: bool, ok: bool)
    requires Waits(s, part.crn, k)
    ensures Next(s, TokenOf(part.crn, s.mode.generation, capHit, ok)) == Started(s, k)
  {
    TokenStarts(s, part.crn, k);
  }

  lemma EndHandled(s: State, part: Part, capHit: bool, ok: bool)
    ensures Next(s, EndOf(part, capHit, ok)) == OnLogStreamDone(s, part.crn, part.errs, capHit, ok)
  {
  }

  /** An instance that waits for its token gets it, its stream brings batches with at least one log, and
      ends: the logs are on their way to the container. */
  lemma StreamsThrough(s: State, k: nat, part: Part, capHit: bool, ok: bool)
    requires Waits(s, part.crn, k) && s.rows[k].live + Brought(part.bs) > 0
    ensures After(s, Streaming(part, s.mode.generation, s.rows[k].query, capHit, ok)) == HandedOver(s, k, part)
  {
    hide Next, After, Fed, HandedOver, Events;
    var started, generation, query := Started(s, k), s.mode.generation, s.rows[k].query;
    var first, more := TokenOf(part.crn, generation, capHit, ok), Events(part.crn, query + 1, part.bs, capHit, ok);
    var last, fed, done := EndOf(part, capHit, ok), Fed(started, k, part.bs), HandedOver(s, k, part);
    assert Next(s, first) == started by {
      TokenHandled(s, k, part, capHit, ok);
    }
    assert After(started, more) == fed by {
      Streamed(s, k, part, started, capHit, ok);
    }
    assert Next(fed, last) == done by {
      FedEnds(s, k, part, capHit, ok);
      EndHandled(fed, part, capHit, ok);
    }
    Chained(s, first, more, last, started, fed, done);
  }

  lemma Streamed(s: State, k: nat, part: Part, started: State, capHit: bool, ok: bool)
    requires Waits(s, part.crn, k) && started == Started(s, k)
    ensures k < |started.rows|
    ensures After(started, Events(part.crn, s.rows[k].query + 1, part.bs, capHit, ok)) == Fed(started, k, part.bs)
  {
    SameFirst(s.rows, started.rows, part.crn);
    assert started.rows[k].query == s.rows[k].query + 1;
    BatchesCount(started, part.crn, k, part.bs, capHit, ok);
  }

  // ---------------------------------------------------------------- the flush

  /** The logs of row `k` are on their way to the container, as the last of the undelivered flushes. */
  predicate OnTheirWay(s: State, crn: Crn, k: nat) {
    && First(s.rows, crn) == Some(k) && s.rows[k].flushed > 0
    && s.books.container.Some? && s.books.container.value.writable
    && (forall j :: 0 <= j < |s.books.container.value.frames| ==> s.books.container.value.frames[j].crn != crn)
    && s.books.messages != [] && s.books.messages[|s.books.messages| - 1] == Flush(crn, s.books.epoch)
  }

  /** The container has taken the frame, and the row knows its size. */
  function Written(s: State, crn: Crn, k: nat, bytes: Bytes): State
    requires OnTheirWay(s, crn, k)
  {
    var c := s.books.container.value;
    s.(rows := s.rows[k := s.rows[k].(size := bytes)],
       books := s.books.(container := Some(Container(c.epoch, true, c.frames + [Flush(crn, s.books.epoch)])),
                         pending := s.books.pending - 1, messages := s.books.messages[..|s.books.messages| - 1]),
       loads := s.loads - {crn})
  }

  /** A flush that is delivered, compressed and written without failing becomes the next frame. */
  lemma FlushTaken(s: State, crn: Crn, k: nat, bytes: Bytes, backed: bool)
    requires OnTheirWay(s, crn, k)
    ensures Delivered(s, |s.books.messages| - 1, true, bytes, true, backed) == Written(s, crn, k, bytes)
  {
    var m := |s.books.messages| - 1;
    assert !Holds(s.books.container.value.frames, crn);
    assert Without(s.books.messages, m) == s.books.messages[..m];
    SameFirst(s.rows, s.rows[k := s.rows[k].(size := bytes)], crn);
  }

  /** While another query runs, the fetch goes on. */
  lemma GoesOn(s: State, j: nat, capHit: bool, ok: bool)
    requires j < |s.rows| && s.rows[j].phase == AuthInProgress
    ensures Settle(s, capHit, ok) == s
  {
    assert Running(s.rows[j].phase);
  }

  /** The fetch is over: nothing runs, nothing is undelivered, and the container is fit to be published. */
  predicate Ready(s: State) {
    && (forall j :: 0 <= j < |s.rows| ==>
          s.rows[j].phase != AuthInProgress && s.rows[j].phase != InProgress && s.rows[j].phase != Watching)
    && s.books.pending == 0 && !s.mode.watching && s.race.candidates == None
    && s.books.container.Some? && s.books.container.value.writable
    && (forall j :: 0 <= j < |s.rows| ==> Consistent(s.rows[j]))
    && s.members.Only? && s.members.records == []
    && exists j :: 0 <= j < |s.rows| && s.rows[j].flushed > 0
  }

  /** A row whose logs have all been handed over, with bytes if it had any. */
  predicate Consistent(i: Instance) {
    i.live == 0 && (i.flushed == 0 <==> i.size == 0)
  }

  /** The container is closed and its snapshot published, whole, and the next fetch may start. */
  function Closed(s: State): State
    requires s.books.container.Some?
  {
    s.(books := s.books.(container := None,
                         journal := s.books.journal
                                    + [Published(s.books.epoch, s.books.container.value.frames, true, s.books.started,
                                                 s.books.lost)]),
       mode := s.mode.(fetching := false, collecting := false))
  }

  lemma PublishesReady(s: State, capHit: bool)
    requires Ready(s)
    ensures Settle(s, capHit, true) == Closed(s)
  {
    assert AllDone(s.rows);
    var j :| 0 <= j < |s.rows| && s.rows[j].flushed > 0;
    assert DisplayLogCount(s.rows[j]) > 0;
    assert AnyLogs(s.rows);
    assert Sound(s.rows, s.members);
    assert Map(s.rows, Demoting(s.race)) == s.rows;
    assert Race(None, s.race.winner) == s.race;
  }

  // ---------------------------------------------------------------- a whole fetch

  /** The events of an instance from its token to its frame. `at` messages of earlier fetches are still
      undelivered. */
  function Serving(part: Part, generation: nat, query: nat, at: nat, backed: bool, capHit: bool): seq<Step> {
    Streaming(part, generation, query, capHit, true) + [FlushOf(part, at, backed, capHit)]
  }

  function FlushOf(part: Part, at: nat, backed: bool, capHit: bool): Step {
    Step(Received(Flushed(at, true, part.bytes, true, backed)), capHit, true)
  }

  /** The instance of row `k` has its frame. */
  function Served(s: State, k: nat, part: Part): State
    requires k < |s.rows| && s.books.container.Some?
  {
    var c := s.books.container.value;
    s.(rows := s.rows[k := Finished(s.rows[k], part)],
       books := s.books.(container := Some(Container(c.epoch, true, c.frames + [Flush(part.crn, s.books.epoch)])),
                         started := s.books.started + 1),
       loads := s.loads - {part.crn})
  }

  lemma HandedOverThenWritten(s: State, k: nat, part: Part)
    requires Waits(s, part.crn, k) && s.rows[k].live + Brought(part.bs) > 0
    ensures OnTheirWay(HandedOver(s, k, part), part.crn, k)
    ensures Written(HandedOver(s, k, part), part.crn, k, part.bytes) == Served(s, k, part)
  {
    var h := HandedOver(s, k, part);
    SameFirst(s.rows, h.rows, part.crn);
    assert h.books.messages[..|h.books.messages| - 1] == s.books.messages;
    assert h.rows[k := Finished(s.rows[k], part)] == s.rows[k := Finished(s.rows[k], part)];
  }

  lemma FlushHandled(s: State, part: Part, k: nat, backed: bool, capHit: bool)
    requires OnTheirWay(s, part.crn, k)
    ensures Next(s, FlushOf(part, |s.books.messages| - 1, backed, capHit))
            == Settle(Written(s, part.crn, k, part.bytes), capHit, true)
  {
    FlushTaken(s, part.crn, k, part.bytes, backed);
  }

  /** One instance's part: when its frame is written, the fetch settles. */
  lemma PartServed(s: State, k: nat, part: Part, backed: bool, capHit: bool)
    requires Waits(s, part.crn, k) && s.rows[k].live + Brought(part.bs) > 0
    ensures After(s, Serving(part, s.mode.generation, s.rows[k].query, |s.books.messages|, backed, capHit))
            == Settle(Served(s, k, part), capHit, true)
  {
    var streaming := Streaming(part, s.mode.generation, s.rows[k].query, capHit, true);
    var flush, h := FlushOf(part, |s.books.messages|, backed, capHit), HandedOver(s, k, part);
    AfterBoth(s, streaming, [flush]);
    AfterOne(h, flush);
    assert After(s, streaming) == h by {
      StreamsThrough(s, k, part, capHit, true);
    }
    HandedOverThenWritten(s, k, part);
    FlushHandled(h, part, k, backed, capHit);
  }

  /** The events of instances that are served one after the other. */
  function Plan(parts: seq<Part>, generation: nat, query: Crn -> nat, at: nat, backed: bool, capHit: bool): seq<Step> {
    if parts == [] then []
    else
      Serving(parts[0], generation, query(parts[0].crn), at, backed, capHit)
      + Plan(parts[1..], generation, query, at, backed, capHit)
  }

  function Frames(parts: seq<Part>, epoch: nat): (r: seq<Flush>)
    ensures |r| == |parts|
  {
    seq(|parts|, k requires 0 <= k < |parts| => Flush(parts[k].crn, epoch))
  }

  predicate Distinct(parts: seq<Part>) {
    forall p, q :: 0 <= p < q < |parts| ==> parts[p].crn != parts[q].crn
  }

  /** A fetch is on whose running rows all wait for their tokens, and the parts are theirs: each brings a
      log or more. */
  predicate Underway(s: State, parts: seq<Part>, query: Crn -> nat) {
    FetchOn(s) && RowsWait(s.rows) && Distinct(parts) && AllExpected(s, parts, query) && AllServed(s.rows, parts)
  }

  predicate FetchOn(s: State) {
    && s.books.container.Some? && s.books.container.value.writable && s.books.pending == 0
    && !s.mode.watching && s.race.candidates == None && s.members.Only? && s.members.records == []
  }

  predicate RowsWait(rows: seq<Instance>) {
    forall j :: 0 <= j < |rows| ==> Consistent(rows[j]) && !rows[j].phase.InProgress? && !rows[j].phase.Watching?
  }

  predicate AllExpected(s: State, parts: seq<Part>, query: Crn -> nat) {
    forall p :: 0 <= p < |parts| ==> Brought(parts[p].bs) > 0 && Expected(s, parts[p], query)
  }

  predicate AllServed(rows: seq<Instance>, parts: seq<Part>) {
    forall j :: 0 <= j < |rows| && rows[j].phase.AuthInProgress? ==> Serves(rows, parts, j)
  }

  predicate Serves(rows: seq<Instance>, parts: seq<Part>, j: nat) {
    exists p :: 0 <= p < |parts| && First(rows, parts[p].crn) == Some(j)
  }

  predicate Expected(s: State, part: Part, query: Crn -> nat) {
    var k := First(s.rows, part.crn);
    k.Some? && Waits(s, part.crn, k.value) && s.rows[k.value].query == query(part.crn)
  }

  /** Serving one instance leaves another as it was. */
  lemma ExpectedLater(s: State, k: nat, part: Part, other: Part, query: Crn -> nat)
    requires First(s.rows, part.crn) == Some(k) && s.books.container.Some?
    requires part.crn != other.crn && Expected(s, other, query)
    ensures Expected(Served(s, k, part), other, query)
  {
    SameFirst(s.rows, Served(s, k, part).rows, other.crn);
  }

  lemma StillWaits(s: State, k: nat, parts: seq<Part>)
    requires parts != [] && First(s.rows, parts[0].crn) == Some(k) && s.books.container.Some?
    requires AllServed(s.rows, parts)
    ensures AllServed(Served(s, k, parts[0]).rows, parts[1..])
  {
    var rows := Served(s, k, parts[0]).rows;
    forall j | 0 <= j < |rows| && rows[j].phase.AuthInProgress?
      ensures Serves(rows, parts[1..], j)
    {
      assert j != k && Serves(s.rows, parts, j);
      var q :| 0 <= q < |parts| && First(s.rows, parts[q].crn) == Some(j);
      SameFirst(s.rows, rows, parts[q].crn);
      assert q > 0 && parts[1..][q - 1] == parts[q];
    }
  }

  lemma OthersExpected(s: State, k: nat, parts: seq<Part>, query: Crn -> nat)
    requires parts != [] && First(s.rows, parts[0].crn) == Some(k) && s.books.container.Some?
    requires Distinct(parts) && AllExpected(s, parts, query)
    ensures AllExpected(Served(s, k, parts[0]), parts[1..], query)
  {
    forall p | 0 <= p < |parts[1..]|
      ensures Brought(parts[1..][p].bs) > 0 && Expected(Served(s, k, parts[0]), parts[1..][p], query)
    {
      assert parts[1..][p] == parts[p + 1] && Expected(s, parts[p + 1], query);
      ExpectedLater(s, k, parts[0], parts[p + 1], query);
    }
  }

  lemma ServedUnderway(s: State, k: nat, parts: seq<Part>, query: Crn -> nat)
    requires Underway(s, parts, query) && parts != [] && First(s.rows, parts[0].crn) == Some(k)
    ensures Underway(Served(s, k, parts[0]), parts[1..], query)
  {
    StillWaits(s, k, parts);
    OthersExpected(s, k, parts, query);
    assert Brought(parts[0].bs) > 0 && Consistent(Finished(s.rows[k], parts[0]));
    assert RowsWait(s.rows[k := Finished(s.rows[k], parts[0])]);
  }

  /** What the parts make of the rows: each row that waited ends as its part says, and no other changes. */
  predicate Filled(rows: seq<Instance>, after: seq<Instance>, parts: seq<Part>) {
    && |after| == |rows|
    && (forall j :: 0 <= j < |rows| && !rows[j].phase.AuthInProgress? ==> after[j] == rows[j])
    && forall j, p :: 0 <= j < |rows| && 0 <= p < |parts| && First(rows, parts[p].crn) == Some(j) ==>
         after[j] == Finished(rows[j], parts[p])
  }

  /** How a fetch ends whose parts are all served. */
  predicate PublishedWhole(s: State, u: State, parts: seq<Part>)
    requires s.books.container.Some?
  {
    && Filled(s.rows, u.rows, parts)
    && u.books == s.books.(container := None, started := s.books.started + |parts|,
                           journal := s.books.journal
                                      + [Published(s.books.epoch,
                                                              s.books.container.value.frames
                                                   + Frames(parts, s.books.epoch),
                                                              true, s.books.started + |parts|, s.books.lost)])
    && u.mode == s.mode.(fetching := false, collecting := false)
    && u.race == s.race && u.members == s.members
  }

  lemma LastPart(s: State, k: nat, parts: seq<Part>, query: Crn -> nat, capHit: bool)
    requires Underway(s, parts, query) && |parts| == 1 && First(s.rows, parts[0].crn) == Some(k)
    ensures PublishedWhole(s, Settle(Served(s, k, parts[0]), capHit, true), parts)
  {
    var t := Served(s, k, parts[0]);
    ServedUnderway(s, k, parts, query);
    assert parts[1..] == [] && AllServed(t.rows, []);
    forall j: nat | j < |t.rows|
      ensures t.rows[j].phase != AuthInProgress && Consistent(t.rows[j])
    {
      assert t.rows[j].phase.AuthInProgress? ==> Serves(t.rows, [], j);
    }
    assert Brought(parts[0].bs) > 0 && t.rows[k].flushed > 0;
    PublishesReady(t, capHit);
    assert Frames(parts, s.books.epoch) == [Flush(parts[0].crn, s.books.epoch)];
  }

  lemma FilledMore(s: State, k: nat, parts: seq<Part>, after: seq<Instance>)
    requires parts != [] && First(s.rows, parts[0].crn) == Some(k) && s.rows[k].phase.AuthInProgress?
    requires s.books.container.Some? && Distinct(parts)
    requires Filled(Served(s, k, parts[0]).rows, after, parts[1..])
    ensures Filled(s.rows, after, parts)
  {
    var t := Served(s, k, parts[0]);
    forall j, p | 0 <= j < |s.rows| && 0 <= p < |parts| && First(s.rows, parts[p].crn) == Some(j)
      ensures after[j] == Finished(s.rows[j], parts[p])
    {
      SameFirst(s.rows, t.rows, parts[p].crn);
      if p > 0 {
        assert parts[1..][p - 1] == parts[p];
      }
    }
  }

  lemma MoreParts(s: State, k: nat, parts: seq<Part>, u: State)
    requires |parts| > 1 && First(s.rows, parts[0].crn) == Some(k) && s.rows[k].phase.AuthInProgress?
    requires s.books.container.Some? && s.books.container.value.epoch == s.books.epoch && Distinct(parts)
    requires PublishedWhole(Served(s, k, parts[0]), u, parts[1..])
    ensures PublishedWhole(s, u, parts)
  {
    var epoch, frames := s.books.epoch, s.books.container.value.frames;
    FilledMore(s, k, parts, u.rows);
    assert frames + [Flush(parts[0].crn, epoch)] + Frames(parts[1..], epoch) == frames + Frames(parts, epoch);
  }

  lemma WaitsForNext(s: State, k: nat, parts: seq<Part>, query: Crn -> nat, capHit: bool)
    requires |parts| > 1 && First(s.rows, parts[0].crn) == Some(k) && s.books.container.Some?
    requires Underway(Served(s, k, parts[0]), parts[1..], query)
    ensures Settle(Served(s, k, parts[0]), capHit, true) == Served(s, k, parts[0])
  {
    var t := Served(s, k, parts[0]);
    assert Expected(t, parts[1..][0], query);
    GoesOn(t, First(t.rows, parts[1..][0].crn).value, capHit, true);
  }

  /** The events of all parts are those of the first and then those of the rest. */
  lemma FirstServed(s: State, k: nat, parts: seq<Part>, query: Crn -> nat, backed: bool, capHit: bool, t: State)
    requires Underway(s, parts, query) && parts != [] && First(s.rows, parts[0].crn) == Some(k)
    requires t == Settle(Served(s, k, parts[0]), capHit, true)
    ensures var at := |s.books.messages|;
            After(s, Plan(parts, s.mode.generation, query, at, backed, capHit))
            == After(t, Plan(parts[1..], s.mode.generation, query, at, backed, capHit))
  {
    var at := |s.books.messages|;
    assert Expected(s, parts[0], query);
    PartServed(s, k, parts[0], backed, capHit);
    AfterBoth(s, Serving(parts[0], s.mode.generation, query(parts[0].crn), at, backed, capHit),
              Plan(parts[1..], s.mode.generation, query, at, backed, capHit));
  }

  lemma {:induction false} AllPublished(s: State, parts: seq<Part>, query: Crn -> nat, backed: bool, capHit: bool)
    requires Underway(s, parts, query) && parts != [] && s.books.container.value.epoch == s.books.epoch
    ensures PublishedWhole(s, After(s, Plan(parts, s.mode.generation, query, |s.books.messages|, backed, capHit)),
                           parts)
    decreases |parts|
  {
    assert Expected(s, parts[0], query);
    var k := First(s.rows, parts[0].crn).value;
    var t := Served(s, k, parts[0]);
    if |parts| == 1 {
      LastPart(s, k, parts, query, capHit);
      FirstServed(s, k, parts, query, backed, capHit, Settle(t, capHit, true));
    } else {
      ServedUnderway(s, k, parts, query);
      WaitsForNext(s, k, parts, query, capHit);
      FirstServed(s, k, parts, query, backed, capHit, t);
      AllPublished(t, parts[1..], query, backed, capHit);
      MoreParts(s, k, parts, After(s, Plan(parts, s.mode.generation, query, |s.books.messages|, backed, capHit)));
    }
  }

  /** No query runs, and the parts are those of the enabled rows, distinct ones that each bring a log. */
  predicate Starts(s: State, parts: seq<Part>, query: Crn -> nat) {
    && AllDone(s.rows) && !s.mode.watching && s.race.candidates == None && Distinct(parts) && parts != []
    && (forall p :: 0 <= p < |parts| ==> Brought(parts[p].bs) > 0 && Enables(Configured(s.rows), parts[p], query))
    && forall j :: 0 <= j < |Configured(s.rows)| && IsEnabled(Configured(s.rows)[j]) ==>
         Serves(Configured(s.rows), parts, j)
  }

  predicate Enables(rows: seq<Instance>, part: Part, query: Crn -> nat) {
    var k := First(rows, part.crn);
    k.Some? && IsEnabled(rows[k.value]) && query(part.crn) == rows[k.value].query + 1
  }

  lemma StartedRows(rows: seq<Instance>, j: nat)
    requires j < |rows| && !rows[j].readOnly
    ensures var i := Map(rows, Fetching())[j];
            && i.crn == rows[j].crn && !i.readOnly && i.query == rows[j].query + 1 && Consistent(i) && i.live == 0
            && i.phase == if IsEnabled(rows[j]) then AuthInProgress else Disabled
  {
  }

  predicate StartedAs(i: Instance, j: Instance) {
    && j.crn == i.crn && !j.readOnly && j.query == i.query + 1 && Consistent(j) && j.live == 0
    && j.phase == if IsEnabled(i) then AuthInProgress else Disabled
  }

  predicate AllStarted(rows: seq<Instance>, after: seq<Instance>) {
    |after| == |rows| && forall j :: 0 <= j < |rows| ==> StartedAs(rows[j], after[j])
  }

  lemma StartsAll(s: State)
    ensures AllStarted(Configured(s.rows), StartFetch(s, true).rows)
  {
    var rows := Configured(s.rows);
    forall j | 0 <= j < |rows|
      ensures StartedAs(rows[j], Map(rows, Fetching())[j])
    {
      assert rows[j] in rows;
      StartedRows(rows, j);
    }
  }

  lemma SameCrns(rows: seq<Instance>, after: seq<Instance>, crn: Crn)
    requires AllStarted(rows, after)
    ensures First(after, crn) == First(rows, crn)
  {
    assert forall j :: 0 <= j < |rows| ==> StartedAs(rows[j], after[j]);
    SameFirst(rows, after, crn);
  }

  lemma ExpectsPart(s: State, part: Part, query: Crn -> nat)
    requires s.race.candidates == None && Enables(Configured(s.rows), part, query)
    ensures Expected(StartFetch(s, true), part, query)
  {
    var rows, t := Configured(s.rows), StartFetch(s, true);
    StartsAll(s);
    SameCrns(rows, t.rows, part.crn);
    var k := First(rows, part.crn).value;
    assert StartedAs(rows[k], t.rows[k]);
  }

  lemma ServesAll(rows: seq<Instance>, after: seq<Instance>, parts: seq<Part>)
    requires AllStarted(rows, after)
    requires forall j :: 0 <= j < |rows| && IsEnabled(rows[j]) ==> Serves(rows, parts, j)
    ensures AllServed(after, parts) && RowsWait(after)
  {
    assert forall j :: 0 <= j < |rows| ==> StartedAs(rows[j], after[j]);
    forall j | 0 <= j < |after| && after[j].phase.AuthInProgress?
      ensures Serves(after, parts, j)
    {
      assert Serves(rows, parts, j);
      var p :| 0 <= p < |parts| && First(rows, parts[p].crn) == Some(j);
      SameCrns(rows, after, parts[p].crn);
    }
  }

  lemma StartUnderway(s: State, parts: seq<Part>, query: Crn -> nat)
    requires Starts(s, parts, query)
    ensures Underway(StartFetch(s, true), parts, query)
  {
    StartsAll(s);
    ServesAll(Configured(s.rows), StartFetch(s, true).rows, parts);
    forall p | 0 <= p < |parts|
      ensures Brought(parts[p].bs) > 0 && Expected(StartFetch(s, true), parts[p], query)
    {
      ExpectsPart(s, parts[p], query);
    }
    hide AllServed, RowsWait, Expected, Enables, Serves;
  }

  lemma KeyHandled(s: State, capHit: bool)
    requires AllDone(s.rows)
    ensures Next(s, Step(Pressed(FetchKey(true)), capHit, true)) == StartFetch(s, true)
  {
  }

  /** What a fetch has come to that went well. */
  predicate Fetched(s: State, t: State, u: State, parts: seq<Part>) {
    && u.books.container == None && !u.mode.fetching && Filled(t.rows, u.rows, parts)
    && u.books.journal == s.books.journal
                          + [Published(s.books.epoch + 1, Frames(parts, s.books.epoch + 1), true, |parts|, 0)]
  }

  lemma FetchedWhole(s: State, u: State, parts: seq<Part>)
    requires PublishedWhole(StartFetch(s, true), u, parts)
    ensures Fetched(s, StartFetch(s, true), u, parts)
  {
    assert [] + Frames(parts, s.books.epoch + 1) == Frames(parts, s.books.epoch + 1);
  }

  lemma FetchRuns(s: State, t: State, u: State, parts: seq<Part>, query: Crn -> nat, backed: bool, capHit: bool)
    requires Starts(s, parts, query) && t == StartFetch(s, true)
    requires u == After(t, Plan(parts, t.mode.generation, query, |t.books.messages|, backed, capHit))
    ensures Fetched(s, t, u, parts)
  {
    StartUnderway(s, parts, query);
    AllPublished(t, parts, query, backed, capHit);
    FetchedWhole(s, u, parts);
  }

  /** A fetch that goes well, from the key to the file: every enabled instance gets its token, streams its
      logs and has them written, one after the other, whatever warnings and errors its batches carry. Then
      one snapshot is published, with exactly their frames in that order and none lost; each row has all
      its logs flushed and the worst badge its stream has brought; and the next fetch may start. */
  lemma WholeFetch(s: State, t: State, u: State, parts: seq<Part>, query: Crn -> nat, backed: bool, capHit: bool)
    requires Starts(s, parts, query) && t == Next(s, Step(Pressed(FetchKey(true)), capHit, true))
    requires u == After(t, Plan(parts, s.mode.generation + 1, query, |s.books.messages|, backed, capHit))
    ensures Fetched(s, t, u, parts)
  {
    hide Next, After, Plan;
    KeyHandled(s, capHit);
    FetchRuns(s, t, u, parts, query, backed, capHit);
  }
}
