/** What a published snapshot contains: one frame per declared member and the state frame last.
    The two publishers are the picker's finalizer, which tops up a container that already holds
    some members' frames, and the headless query's writer, which writes a fresh one. */
module SnapshotFrames {
  import opened Framing
  import opened ContainerFormat
  import opened ContainerWriter

  const INSTANCE_PREFIX: seq<byte> := [105, 95]
  const STATE_NAME: seq<byte> := [115, 116, 97, 116, 101]

  /** One declared member of a snapshot, as the state frame records it. */
  datatype Member = Member(crn: seq<byte>, logCount: nat, logsSizeBytes: nat)

  function FrameName(crn: seq<byte>): seq<byte> {
    INSTANCE_PREFIX + crn
  }

  lemma FrameNameInjective(a: seq<byte>, b: seq<byte>)
    ensures FrameName(a) == [105, 95] + a && STATE_NAME == [115, 116, 97, 116, 101]
    ensures FrameName(a) == FrameName(b) ==> a == b
    ensures FrameName(a) != STATE_NAME
  {
    assert FrameName(a)[0] == 105;
    assert a == FrameName(a)[2..] && b == FrameName(b)[2..];
  }

  /** The version 1 state contract: no logs exactly when no bytes. */
  predicate ValidSizes(members: seq<Member>) {
    forall m :: m in members ==> (m.logCount == 0 <==> m.logsSizeBytes == 0)
  }

  function NameSet(fs: seq<Frame>): set<seq<byte>> {
    set n | n in FrameNames(fs)
  }

  /** Declared members in order, once each, that have no frame among `names` yet. */
  function Missing(names: set<seq<byte>>, members: seq<Member>, empty: seq<byte>): seq<Frame>
    decreases |members|
  {
    if members == [] then []
    else
      var n := FrameName(members[0].crn);
      if n in names then Missing(names, members[1..], empty)
      else [Frame(n, empty)] + Missing(names + {n}, members[1..], empty)
  }

  /** `fs` is a complete snapshot of `members`. */
  ghost predicate Complete(fs: seq<Frame>, members: seq<Member>) {
    && DistinctNames(fs)
    && fs != [] && fs[|fs| - 1].name == STATE_NAME
    && forall m :: m in members ==> exists i :: 0 <= i < |fs| - 1 && fs[i].name == FrameName(m.crn)
  }

  lemma {:induction false} MissingCovers(names: set<seq<byte>>, members: seq<Member>, empty: seq<byte>, m: Member)
    requires m in members
    ensures FrameName(m.crn) in names || FrameName(m.crn) in FrameNames(Missing(names, members, empty))
    decreases |members|
  {
    var n := FrameName(members[0].crn);
    var rest := Missing(if n in names then names else names + {n}, members[1..], empty);
    if n !in names {
      assert FrameNames([Frame(n, empty)] + rest) == [n] + FrameNames(rest);
    }
    if m == members[0] {
    } else {
      MissingCovers(if n in names then names else names + {n}, members[1..], empty, m);
    }
  }

  /** Writes one empty frame for each declared member that has none, in declaration order. It stops
      only at a frame that does not fit or cannot be written. */
  method EnsureInstanceFrames(c: Container, members: seq<Member>, empty: seq<byte>) returns (ok: bool)
    requires c.Valid()
    modifies c, c.sink
    ensures c.Valid() && (c.writable ==> old(c.writable))
    ensures var missing := Missing(NameSet(old(c.acked)), members, empty);
            ok <==> missing == [] || (AllEncodable(missing) && c.writable)
    ensures ok ==> c.acked == old(c.acked) + Missing(NameSet(old(c.acked)), members, empty)
    ensures old(c.acked) <= c.acked
  {
    var existing := NamesWritten(c);
    ghost var written: seq<Frame> := [];
    assert c.acked + [] == c.acked;
    var i := 0;
    while i < |members|
      invariant 0 <= i <= |members|
      invariant c.Valid() && (c.writable ==> old(c.writable))
      invariant c.acked == old(c.acked) + written
      invariant Topped(existing, written, old(c.acked), members, i, empty)
      invariant AllEncodable(written) && (written != [] ==> c.writable)
    {
      var name := FrameName(members[i].crn);
      MissingStep(existing, written, old(c.acked), members, i, empty);
      if name !in existing {
        var filled := Fill(c, name, empty, old(c.acked), written);
        if !filled {
          MissingHere(existing, written, old(c.acked), members, i, empty);
          return false;
        }
        written := written + [Frame(name, empty)];
        existing := existing + {name};
      }
      i := i + 1;
    }
    assert written + [] == written;
    ok := true;
  }

  /** One empty frame. */
  method Fill(c: Container, name: seq<byte>, empty: seq<byte>, ghost before: seq<Frame>, ghost written: seq<Frame>)
    returns (ok: bool)
    requires c.Valid() && c.acked == before + written && name !in FrameNames(c.acked)
    modifies c, c.sink
    ensures c.Valid() && (c.writable ==> old(c.writable))
    ensures ok <==> Encodable(Frame(name, empty)) && c.writable
    ensures c.acked == before + if ok then written + [Frame(name, empty)] else written
  {
    Associative(before, written, [Frame(name, empty)]);
    var r := c.AppendFrame(name, empty);
    ok := r.Appended?;
  }

  method NamesWritten(c: Container) returns (names: set<seq<byte>>)
    requires c.Valid()
    ensures names == NameSet(c.acked)
  {
    ListingNames(EncodeFrame, HEADER_BYTES, c.acked);
    names := set n | n in c.orderedNames;
  }

  /** Half way: `written` covers the first `i` members, and what is still missing is what the rest
      of the loop will write. */
  ghost predicate Topped(names: set<seq<byte>>, written: seq<Frame>, before: seq<Frame>, members: seq<Member>, i: nat,
                         empty: seq<byte>)
    requires i <= |members|
  {
    && names == NameSet(before + written)
    && Missing(NameSet(before), members, empty) == written + Missing(names, members[i..], empty)
  }

  lemma MissingStep(names: set<seq<byte>>, written: seq<Frame>, before: seq<Frame>,
                    members: seq<Member>, i: nat, empty: seq<byte>)
    requires i < |members| && Topped(names, written, before, members, i, empty)
    ensures var n := FrameName(members[i].crn);
            if n in names then Topped(names, written, before, members, i + 1, empty)
            else Topped(names + {n}, written + [Frame(n, empty)], before, members, i + 1, empty)
  {
    var n := FrameName(members[i].crn);
    assert members[i..][1..] == members[i + 1..];
    if n !in names {
      Associative(written, [Frame(n, empty)], Missing(names + {n}, members[i + 1..], empty));
      Associative(before, written, [Frame(n, empty)]);
      assert FrameNames(before + written + [Frame(n, empty)]) == FrameNames(before + written) + [n];
    }
  }

  /** The frame the loop is about to write is one of those that were missing. */
  lemma MissingHere(names: set<seq<byte>>, written: seq<Frame>, before: seq<Frame>, members: seq<Member>,
                    i: nat, empty: seq<byte>)
    requires i < |members| && Topped(names, written, before, members, i, empty) && FrameName(members[i].crn) !in names
    ensures Frame(FrameName(members[i].crn), empty) in Missing(NameSet(before), members, empty)
  {
    var f := Frame(FrameName(members[i].crn), empty);
    assert f in [f];
    assert f in Missing(names, members[i..], empty);
  }

  /** The state frame is written unless it is refused or does not fit, its name is taken, or the
      writer is gone. */
  method SaveStateFrame(c: Container, members: seq<Member>, state: seq<byte>) returns (ok: bool)
    requires c.Valid()
    modifies c, c.sink
    ensures c.Valid() && (c.writable ==> old(c.writable))
    ensures ok <==> && ValidSizes(members) && STATE_NAME !in FrameNames(old(c.acked))
                    && |state| <= MAX_FRAME_BYTES && c.writable
    ensures ok ==> c.sink.data == EncodeFile(c.acked)
    ensures c.acked == if ok then old(c.acked) + [Frame(STATE_NAME, state)] else old(c.acked)
  {
    if !ValidSizes(members) {
      return false;
    }
    var r := c.AppendFrame(STATE_NAME, state);
    ok := r == Appended;
  }

  /** The picker's finalizer up to publication. `closed` is whether closing and syncing the file
      succeeded. A container is published exactly when that did, all the frames it lacked fit, its
      state is consistent, and it still has its writer; and then it is complete and whole on disk. */
  method FinalizeBacking(c: Container, members: seq<Member>, empty: seq<byte>, state: seq<byte>, closed: bool)
    returns (published: bool)
    requires c.Valid()
    modifies c, c.sink
    ensures c.Valid()
    ensures !old(c.writable) ==> !published
    ensures published <==>
              && closed && ValidSizes(members) && STATE_NAME !in FrameNames(old(c.acked)) && |state| <= MAX_FRAME_BYTES
              && AllEncodable(Missing(NameSet(old(c.acked)), members, empty)) && c.writable
    ensures published ==> Complete(c.acked, members)
    ensures published ==> c.acked == old(c.acked) + Missing(NameSet(old(c.acked)), members, empty)
                                     + [Frame(STATE_NAME, state)]
    ensures published ==> Parse(c.sink.data, false).Ok? && Holds(Parse(c.sink.data, false).value, c.acked, c.sink.data)
  {
    var ensured := EnsureInstanceFrames(c, members, empty);
    if !ensured {
      return false;
    }
    ghost var log := c.acked;
    NoStateMissing(NameSet(old(c.acked)), members, empty);
    assert FrameNames(log) == FrameNames(old(c.acked)) + FrameNames(Missing(NameSet(old(c.acked)), members, empty));
    var saved := SaveStateFrame(c, members, state);
    published := saved && closed;
    if published {
      WritableMeans(c.acked);
      WriteParseInversion(c.acked);
      CompleteWithState(log, NameSet(old(c.acked)), old(c.acked), members, empty, Frame(STATE_NAME, state));
    }
  }

  lemma {:induction false} NoStateMissing(names: set<seq<byte>>, members: seq<Member>, empty: seq<byte>)
    ensures STATE_NAME !in FrameNames(Missing(names, members, empty))
    decreases |members|
  {
    if members == [] {
    } else {
      var n := FrameName(members[0].crn);
      FrameNameInjective(members[0].crn, members[0].crn);
      var rest := Missing(if n in names then names else names + {n}, members[1..], empty);
      NoStateMissing(if n in names then names else names + {n}, members[1..], empty);
      assert FrameNames([Frame(n, empty)] + rest) == [n] + FrameNames(rest);
    }
  }

  lemma CompleteWithState(log: seq<Frame>, names: set<seq<byte>>, before: seq<Frame>,
                          members: seq<Member>, empty: seq<byte>, state: Frame)
    requires names == NameSet(before)
    requires log == before + Missing(names, members, empty)
    requires DistinctNames(log + [state]) && state.name == STATE_NAME
    ensures Complete(log + [state], members)
  {
    forall m | m in members ensures exists i :: 0 <= i < |log| && (log + [state])[i].name == FrameName(m.crn) {
      MissingCovers(names, members, empty, m);
      assert FrameNames(log) == FrameNames(before) + FrameNames(Missing(names, members, empty));
      assert FrameName(m.crn) in FrameNames(log);
      var i :| 0 <= i < |FrameNames(log)| && FrameNames(log)[i] == FrameName(m.crn);
      assert (log + [state])[i].name == FrameName(m.crn);
    }
  }

  // ---------------------------------------------------------------- headless query

  predicate DistinctCrns(members: seq<Member>) {
    forall i, j :: 0 <= i < j < |members| ==> members[i].crn != members[j].crn
  }

  function MemberFrames(members: seq<Member>, logs: seq<seq<byte>>): (r: seq<Frame>)
    requires |members| == |logs|
    ensures |r| == |members|
  {
    seq(|members|, i requires 0 <= i < |members| => Frame(FrameName(members[i].crn), logs[i]))
  }

  /** No frame of a snapshot is refused for its size, nor its state for its counts. */
  predicate Fits(members: seq<Member>, logs: seq<seq<byte>>, state: seq<byte>)
    requires |members| == |logs|
  {
    ValidSizes(members) && |state| <= MAX_FRAME_BYTES && AllEncodable(MemberFrames(members, logs))
  }

  /** What that asks of the members: each has bytes exactly if it has logs, a CRN that leaves room for the
      prefix, and no more than 2^30 bytes. */
  lemma FitsMeans(members: seq<Member>, logs: seq<seq<byte>>, state: seq<byte>)
    requires |members| == |logs|
    ensures ValidSizes(members) <==> forall m :: m in members ==> (m.logCount > 0 <==> m.logsSizeBytes > 0)
    ensures Fits(members, logs, state)
            <==> && ValidSizes(members) && |state| <= 1073741824
                 && forall i :: 0 <= i < |members| ==> |members[i].crn| <= 65533 && |logs[i]| <= 1073741824
  {
    var all := MemberFrames(members, logs);
    assert forall i :: 0 <= i < |members| ==> all[i] in all && |all[i].name| == 2 + |members[i].crn|;
  }

  /** The headless writer: every member's frame in selector order, then the state frame, into a
      fresh file. With distinct members no append is refused as a duplicate; the file is published
      exactly when they are distinct, every frame fits, the state is consistent, no write failed and
      it got closed (`closed`: no checkpoint stopped it and closing worked), and then it holds exactly
      these frames. */
  method WriteQuerySnapshot(sink: Sink, members: seq<Member>, logs: seq<seq<byte>>, state: seq<byte>, closed: bool)
    returns (published: bool, duplicate: bool)
    requires sink.data == [] && !sink.faulted && |members| == |logs|
    modifies sink
    ensures DistinctCrns(members) ==> !duplicate
    ensures published <==> DistinctCrns(members) && Fits(members, logs, state) && closed && !sink.faulted
    ensures published ==> sink.data == EncodeFile(MemberFrames(members, logs) + [Frame(STATE_NAME, state)])
    ensures published ==> Complete(MemberFrames(members, logs) + [Frame(STATE_NAME, state)], members)
  {
    published := false;
    var c := new Container(sink);
    var written;
    written, duplicate := WriteMembers(c, members, logs);
    if !written {
      return;
    }
    NoStateMember(members, logs);
    var saved := SaveStateFrame(c, members, state);
    published := saved && closed;
    if DistinctCrns(members) {
      QueryComplete(members, logs, Frame(STATE_NAME, state));
    }
  }

  /** The members' frames, one by one, into an empty container. */
  method WriteMembers(c: Container, members: seq<Member>, logs: seq<seq<byte>>) returns (ok: bool, duplicate: bool)
    requires c.Valid() && c.acked == [] && c.writable && |members| == |logs|
    modifies c, c.sink
    ensures c.Valid() && (DistinctCrns(members) ==> !duplicate)
    ensures ok <==> DistinctCrns(members) && AllEncodable(MemberFrames(members, logs)) && c.writable
    ensures ok ==> c.acked == MemberFrames(members, logs)
  {
    duplicate := false;
    ghost var all := MemberFrames(members, logs);
    var i := 0;
    while i < |members|
      invariant 0 <= i <= |members| && c.Valid() && c.writable
      invariant c.acked == all[..i]
    {
      var name := FrameName(members[i].crn);
      var r := c.AppendFrame(name, logs[i]);
      if r != Appended {
        duplicate := r == AlreadyExists;
        assert all[i] == Frame(name, logs[i]) && all[i] in all;
        if duplicate {
          DuplicateMember(members, logs, i);
        }
        return false, duplicate;
      }
      assert all[..i] + [all[i]] == all[..i + 1];
      i := i + 1;
    }
    assert all[..i] == all;
    WritableMeans(all);
    MembersDistinct(members, logs);
    ok := true;
  }

  lemma DuplicateMember(members: seq<Member>, logs: seq<seq<byte>>, i: nat)
    requires |members| == |logs| && i < |members|
    requires FrameName(members[i].crn) in FrameNames(MemberFrames(members, logs)[..i])
    ensures !DistinctCrns(members)
  {
    var before := MemberFrames(members, logs)[..i];
    var j :| 0 <= j < |before| && FrameNames(before)[j] == FrameName(members[i].crn);
    assert before[j].name == FrameName(members[j].crn);
    FrameNameInjective(members[j].crn, members[i].crn);
  }

  lemma NoStateMember(members: seq<Member>, logs: seq<seq<byte>>)
    requires |members| == |logs|
    ensures STATE_NAME !in FrameNames(MemberFrames(members, logs))
  {
    forall i | 0 <= i < |members| ensures MemberFrames(members, logs)[i].name != STATE_NAME {
      FrameNameInjective(members[i].crn, members[i].crn);
    }
  }

  lemma MembersDistinct(members: seq<Member>, logs: seq<seq<byte>>)
    requires |members| == |logs|
    ensures DistinctNames(MemberFrames(members, logs)) <==> DistinctCrns(members)
  {
    var all := MemberFrames(members, logs);
    forall i, j | 0 <= i < j < |members| ensures all[i].name == all[j].name <==> members[i].crn == members[j].crn {
      FrameNameInjective(members[i].crn, members[j].crn);
    }
  }

  lemma QueryComplete(members: seq<Member>, logs: seq<seq<byte>>, state: Frame)
    requires |members| == |logs| && DistinctCrns(members) && state.name == STATE_NAME
    ensures Complete(MemberFrames(members, logs) + [state], members)
  {
    MembersDistinct(members, logs);
    var all := MemberFrames(members, logs);
    forall i | 0 <= i < |members|
      ensures all[i].name != STATE_NAME && (all + [state])[i].name == FrameName(members[i].crn)
    {
      FrameNameInjective(members[i].crn, members[i].crn);
    }
  }
}
