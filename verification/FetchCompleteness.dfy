/** What a fetch publishes is complete: whatever its snapshot declares logs of has a frame in it. */
module FetchCompleteness {
  import opened Options
  import opened FetchState
  import opened FetchBooks
  import opened FetchPublications
  import opened FetchLogs
  import opened FetchRounds

  /** Every size that a snapshot may declare is that of a frame: of a row, or of a restored record. */
  ghost predicate Framed(rows: seq<Instance>, members: Members, frames: seq<Flush>) {
    && (forall i :: i in rows && i.size > 0 ==> Holds(frames, i.crn))
    && (members.Only? ==> RecordsFramed(members.records, frames))
  }

  ghost predicate RecordsFramed(records: seq<Saved>, frames: seq<Flush>) {
    forall m :: m in records && m.size > 0 ==> Holds(frames, m.crn)
  }

  /** A snapshot is restored under the fetch, with the size of logs that its container has no frame of. */
  ghost predicate Overlays(s: State, t: Step) {
    && t.event.Received? && t.event.message.Restore? && s.books.container.Some?
    && !RecordsFramed(t.event.message.snaps, s.books.container.value.frames)
  }

  // ---------------------------------------------------------------- who the members are

  lemma SettleKeepsMembers(s: State, capHit: bool, ok: bool)
    ensures Settle(s, capHit, ok).members == s.members
  {
  }

  lemma FirstFetchMembers(s: State, opens: bool)
    ensures !AnyConfigured(s.rows) ==> StartFirstFetch(s, opens).members == s.members
  {
  }

  lemma KeyMembers(s: State, key: Key, capHit: bool, ok: bool)
    requires !KeyStarts(s, key)
    ensures OnKey(s, key, capHit, ok).members == s.members
  {
    match key {
      case FetchKey(_) =>
      case FirstFetchKey(opens) => FirstFetchMembers(s, opens);
      case WatchKey(_) => SettleKeepsMembers(StopWatch(s), capHit, ok);
      case CancelKey => SettleKeepsMembers(Silenced(s), capHit, ok);
      case ToggleKey(_) =>
      case SelectAllKey(_) =>
      case RetryKey(_) =>
      case DispatchKey =>
    }
  }

  lemma AuthMembers(s: State, auth: Auth, capHit: bool, ok: bool)
    ensures OnAuth(s, auth, capHit, ok).members == s.members
  {
    match auth {
      case Token(_, _) =>
      case TokenFailed(crn, _) => SettleKeepsMembers(Failed(s, crn), capHit, ok);
      case EnvFailed(env, _) =>
        SettleKeepsMembers(s.(rows := Map(s.rows, Authing(Some(env), Error))), capHit, ok);
      case EnvCancelled(env, _) =>
        SettleKeepsMembers(s.(rows := Map(s.rows, Authing(Some(env), Cancelled))), capHit, ok);
      case PasscodeFailed(env) =>
        SettleKeepsMembers(s.(rows := Map(s.rows, Authing(Some(env), Error))), capHit, ok);
      case PasscodeCancelled(env) =>
        SettleKeepsMembers(s.(rows := Map(s.rows, Authing(Some(env), Enabled))), capHit, ok);
      case PasscodeAccepted(_) => SettleKeepsMembers(s, capHit, ok);
    }
  }

  lemma StreamEndMembers(s: State, crn: Crn, errs: bool, capHit: bool, ok: bool)
    ensures OnLogStreamDone(s, crn, errs, capHit, ok).members == s.members
  {
    SettleKeepsMembers(Ended(s, crn, errs), capHit, ok);
  }

  lemma FlushedMembers(s: State, k: nat, compressed: bool, bytes: Bytes, io: bool, backed: bool, capHit: bool, ok: bool)
    requires k < |s.books.messages|
    ensures OnInstanceFlushed(s, k, compressed, bytes, io, backed, capHit, ok).members == s.members
  {
    SettleKeepsMembers(Delivered(s, k, compressed, bytes, io, backed), capHit, ok);
  }

  /** Only a restored or a deleted snapshot replaces the members of a fetch that is on. */
  lemma MessageMembers(s: State, message: Message, capHit: bool, ok: bool)
    requires !Starts(s, Step(Received(message), capHit, ok)) && !message.Restore? && !message.Evict?
    ensures OnMessage(s, message, capHit, ok).members == s.members
  {
    match message {
      case Collect(_, _) =>
      case Stream(_, _, _, _, _, _) =>
      case StreamEnd(crn, errs) => StreamEndMembers(s, crn, errs, capHit, ok);
      case Flushed(k, compressed, bytes, io, backed) =>
        if k < |s.books.messages| {
          FlushedMembers(s, k, compressed, bytes, io, backed, capHit, ok);
        }
      case Load(_, _) =>
      case Loaded(_, _, _) =>
      case Tick(_) =>
      case DispatchDone(_, _) =>
      case ViewInContext(_) =>
    }
  }

  // ---------------------------------------------------------------- one event

  lemma GainlessFramed(rows: seq<Instance>, after: seq<Instance>, frames: seq<Flush>)
    requires NoGain(Sizes(), rows, after) && forall i :: i in rows && i.size > 0 ==> Holds(frames, i.crn)
    ensures forall i :: i in after && i.size > 0 ==> Holds(frames, i.crn)
  {
    forall i | i in after && i.size > 0
      ensures Holds(frames, i.crn)
    {
      assert Sizes()(i) == i.size && Had(Sizes(), rows, i);
      var j :| j in rows && j.crn == i.crn && Sizes()(j) >= Sizes()(i);
    }
  }

  lemma HoldsMore(frames: seq<Flush>, f: Flush, crn: Crn)
    requires Holds(frames, crn) || f.crn == crn
    ensures Holds(frames + [f], crn)
  {
    if f.crn == crn {
      assert (frames + [f])[|frames|] == f;
    } else {
      var k :| 0 <= k < |frames| && frames[k].crn == crn;
      assert (frames + [f])[k] == frames[k];
    }
  }

  /** The frames of the container after a delivery. */
  lemma DeliveredFrames(s: State, k: nat, compressed: bool, bytes: Bytes, io: bool, backed: bool)
    requires k < |s.books.messages| && s.books.container.Some?
    requires forall i :: i in s.rows && i.size > 0 ==> Holds(s.books.container.value.frames, i.crn)
    ensures var u := Delivered(s, k, compressed, bytes, io, backed);
            && u.books.container.Some? && u.members == s.members
            && (forall i :: i in u.rows && i.size > 0 ==> Holds(u.books.container.value.frames, i.crn))
            && forall crn :: Holds(s.books.container.value.frames, crn) ==> Holds(u.books.container.value.frames, crn)
  {
    var frames, f := s.books.container.value.frames, s.books.messages[k];
    var at := First(s.rows, f.crn);
    if Takes(s.books.container.value, f.crn, compressed, at.Some?, io) {
      forall crn | Holds(frames, crn) || f.crn == crn
        ensures Holds(frames + [f], crn)
      {
        HoldsMore(frames, f, crn);
      }
      forall i | i in At(s.rows, f.crn, Sizing(bytes))
        ensures i in s.rows || i.crn == f.crn
      {
        var n :| 0 <= n < |s.rows| && At(s.rows, f.crn, Sizing(bytes))[n] == i;
        assert n != at.value ==> s.rows[n] in s.rows;
      }
    }
  }

  lemma SettledFramed(s: State, capHit: bool, ok: bool, frames: seq<Flush>)
    requires Framed(s.rows, s.members, frames)
    ensures Framed(Settle(s, capHit, ok).rows, Settle(s, capHit, ok).members, frames)
  {
    SettleGainsNone(Sizes(), s, capHit, ok);
    SettleKeepsMembers(s, capHit, ok);
    GainlessFramed(s.rows, Settle(s, capHit, ok).rows, frames);
  }

  lemma FlushedFramed(s: State, message: Message, capHit: bool, ok: bool)
    requires message.Flushed? && message.at < |s.books.messages| && s.books.container.Some?
    requires Framed(s.rows, s.members, s.books.container.value.frames)
    ensures var u := OnInstanceFlushed(s, message.at, message.compressed, message.bytes, message.io, message.backed,
                                       capHit, ok);
            Framed(u.rows, u.members, Carried(s, message).container.value.frames)
  {
    if s.books.messages[message.at].epoch == s.books.epoch {
      var delivered := Delivered(s, message.at, message.compressed, message.bytes, message.io, message.backed);
      DeliveredFrames(s, message.at, message.compressed, message.bytes, message.io, message.backed);
      SettledFramed(delivered, capHit, ok, delivered.books.container.value.frames);
    }
  }

  lemma {:induction false} LastSavedIn(snaps: seq<Saved>, crn: Crn)
    ensures LastSaved(snaps, crn).Some? ==>
              LastSaved(snaps, crn).value in snaps && LastSaved(snaps, crn).value.crn == crn
  {
    if snaps == [] {
    } else {
      LastSavedIn(snaps[..|snaps| - 1], crn);
    }
  }

  lemma RestoredFramed(rows: seq<Instance>, snaps: seq<Saved>, frames: seq<Flush>)
    requires RecordsFramed(snaps, frames) && forall k :: 0 <= k < |rows| ==> !rows[k].readOnly
    ensures forall i :: i in Map(rows, Restoring(snaps)) && i.size > 0 ==> Holds(frames, i.crn)
  {
    forall i | i in Map(rows, Restoring(snaps)) && i.size > 0
      ensures Holds(frames, i.crn)
    {
      var k :| 0 <= k < |rows| && RestoreRow(rows[k], snaps) == i;
      LastSavedIn(snaps, rows[k].crn);
    }
  }

  lemma {:induction false} AppendedFramed(rows: seq<Instance>, snaps: seq<Saved>, frames: seq<Flush>)
    requires RecordsFramed(snaps, frames) && forall i :: i in rows && i.size > 0 ==> Holds(frames, i.crn)
    ensures forall i :: i in AppendReadOnly(rows, snaps) && i.size > 0 ==> Holds(frames, i.crn)
    decreases |snaps|
  {
    if snaps == [] {
    } else {
      assert snaps[0] in snaps;
      AppendedFramed(rows, snaps[1..], frames);
      AppendedFramed(rows + [SavedRow(snaps[0])], snaps[1..], frames);
    }
  }

  lemma RestoreFramed(s: State, snaps: seq<Saved>, frames: seq<Flush>)
    requires RecordsFramed(snaps, frames)
    ensures Framed(OnSnapshotRestore(s, snaps).rows, OnSnapshotRestore(s, snaps).members, frames)
  {
    var rows := Configured(StopWatch(s).rows);
    assert forall k :: 0 <= k < |rows| ==> rows[k] in rows;
    RestoredFramed(rows, snaps, frames);
    AppendedFramed(Map(rows, Restoring(snaps)), snaps, frames);
  }

  /** The sizes that an event leaves are those of the frames it comes to settle with, if and only if it
      does not overlay the fetch. */
  lemma NextFramed(s: State, t: Step)
    requires s.books.container.Some? && Framed(s.rows, s.members, s.books.container.value.frames) && !Starts(s, t)
    ensures CarriedBy(s, t).container.Some?
    ensures Framed(Next(s, t).rows, Next(s, t).members, CarriedBy(s, t).container.value.frames) <==> !Overlays(s, t)
  {
    match t.event {
      case Pressed(key) => KeyMembers(s, key, t.capHit, t.ok); QuietFramed(s, t);
      case Authed(auth) => AuthMembers(s, auth, t.capHit, t.ok); QuietFramed(s, t);
      case Received(message) => MessageFramed(s, message, t);
    }
  }

  lemma MessageFramed(s: State, message: Message, t: Step)
    requires s.books.container.Some? && Framed(s.rows, s.members, s.books.container.value.frames)
    requires t.event == Received(message) && !Starts(s, t)
    ensures CarriedBy(s, t).container.Some?
    ensures Framed(Next(s, t).rows, Next(s, t).members, CarriedBy(s, t).container.value.frames) <==> !Overlays(s, t)
  {
    if message.Restore? {
      if !Overlays(s, t) {
        RestoreFramed(s, message.snaps, s.books.container.value.frames);
      }
    } else if message.Flushed? {
      if message.at < |s.books.messages| {
        FlushedFramed(s, message, t.capHit, t.ok);
      }
    } else {
      if !message.Evict? {
        MessageMembers(s, message, t.capHit, t.ok);
      }
      QuietFramed(s, t);
    }
  }

  lemma QuietFramed(s: State, t: Step)
    requires s.books.container.Some? && Framed(s.rows, s.members, s.books.container.value.frames)
    requires t.event.Received? ==> !t.event.message.Flushed? && !t.event.message.Restore?
    requires Next(s, t).members == s.members || Next(s, t).members == Everyone
    ensures CarriedBy(s, t).container == s.books.container
    ensures Framed(Next(s, t).rows, Next(s, t).members, s.books.container.value.frames)
  {
    OnlyFlushesSize(s, t);
    GainlessFramed(s.rows, Next(s, t).rows, s.books.container.value.frames);
  }

  // ---------------------------------------------------------------- whole fetches

  ghost function Overlaying(s: State): (seq<Step>, Step) -> bool {
    (run: seq<Step>, t: Step) => Overlays(After(s, run), t)
  }

  ghost predicate FramedAt(s: State) {
    s.books.container.Some? && Framed(s.rows, s.members, s.books.container.value.frames)
  }

  ghost function StayingFramed(s: State): seq<Step> -> bool {
    (run: seq<Step>) => FramedAt(After(s, run))
  }

  /** While the container of a fetch that began empty stays open, no size is ever declared without a frame
      if and only if no snapshot is laid over the fetch. */
  lemma {:induction false} FramedThroughout(fetch: State, steps: seq<Step>)
    requires Begun(fetch) && StaysOpen(fetch, steps)
    ensures Always(StayingFramed(fetch), steps) <==> Never(Overlaying(fetch), steps)
    ensures Never(Overlaying(fetch), steps) ==> FramedAt(After(fetch, steps))
  {
    AlwaysFront(Staying(fetch, fetch.books.epoch), steps);
    AlwaysFront(StayingFramed(fetch), steps);
    if steps == [] {
    } else {
      var m := |steps| - 1;
      AlwaysFront(Staying(fetch, fetch.books.epoch), steps[..m]);
      NeverFront(Overlaying(fetch), steps);
      FramedThroughout(fetch, steps[..m]);
      if Never(Overlaying(fetch), steps[..m]) {
        FramedStep(After(fetch, steps[..m]), steps[m], fetch.books.epoch);
      }
    }
  }

  lemma FramedStep(s: State, t: Step, epoch: nat)
    requires FramedAt(s) && OpenAt(s, epoch) && OpenAt(Next(s, t), epoch)
    ensures FramedAt(Next(s, t)) <==> !Overlays(s, t)
  {
    NextContinues(s, t);
    CarriedCounts(s, t);
    NextFramed(s, t);
  }

  /** What a snapshot declares logs of: a member with a row, or a restored one without. */
  ghost predicate Declares(rows: seq<Instance>, members: Members, crn: Crn) {
    || (exists i :: i in rows && i.crn == crn && IsMember(i, members) && DeclaredCount(i) > 0)
    || (members.Only? && First(rows, crn).None? && exists m :: m in members.records && m.crn == crn && m.count > 0)
  }

  lemma DeclaredFramed(rows: seq<Instance>, members: Members, frames: seq<Flush>, crn: Crn)
    requires Framed(rows, members, frames) && Sound(rows, members) && Declares(rows, members, crn)
    ensures Holds(frames, crn)
  {
    if i :| i in rows && i.crn == crn && IsMember(i, members) && DeclaredCount(i) > 0 {
      var k :| 0 <= k < |rows| && rows[k] == i;
    }
  }

  /** A fetch begins; its container stays open until an event publishes it, and no snapshot with logs of
      its own is restored meanwhile: then there is a frame of everything its snapshot declares logs of. */
  lemma FetchComplete(fetch: State, steps: seq<Step>, t: Step, crn: Crn)
    requires Begun(fetch) && StaysOpen(fetch, steps) && Never(Overlaying(fetch), steps)
    requires var s := After(fetch, steps); Next(s, t).books.journal != s.books.journal
    requires Declares(Next(After(fetch, steps), t).rows, Next(After(fetch, steps), t).members, crn)
    ensures var s := After(fetch, steps); var u := Next(s, t);
            && |u.books.journal| == |s.books.journal| + 1
            && Holds(u.books.journal[|s.books.journal|].frames, crn)
  {
    var s := After(fetch, steps);
    AlwaysFront(Staying(fetch, fetch.books.epoch), steps);
    FramedThroughout(fetch, steps);
    NextContinues(s, t);
    CarriedCounts(s, t);
    PublishesAt(s, t);
    NextFramed(s, t);
    DeclaredFramed(Next(s, t).rows, Next(s, t).members, CarriedBy(s, t).container.value.frames, crn);
  }

  /** Neither the start of another fetch nor a restored snapshot publishes. */
  lemma PublishesAt(s: State, t: Step)
    requires s.books.container.Some? && Next(s, t).books.journal != s.books.journal
    ensures !Starts(s, t) && !Overlays(s, t)
  {
    NextContinues(s, t);
  }
}
