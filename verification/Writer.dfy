/** The writable container: a buffered header, one write and flush per frame, and bookkeeping
    that moves only after a flush succeeded.  The sink may accept any part of a write before it
    fails. */
module ContainerWriter {
  import opened Framing
  import opened ContainerFormat

  /** The file behind the buffered writer. A failed write may leave any part of its bytes, even
      all of them. */
  class Sink {
    var data: seq<byte>
    /** Whether a write has failed. */
    var faulted: bool

    constructor ()
      ensures data == [] && !faulted
    {
      data, faulted := [], false;
    }

    method Write(p: seq<byte>) returns (ok: bool)
      modifies this
      ensures Accepted(p, old(data), data, ok)
      ensures faulted == (old(faulted) || !ok)
    {
      var accepted: nat :| accepted <= |p|;
      var reported: bool := *;
      data := data + p[..accepted];
      ok := accepted == |p| && reported;
      faulted := faulted || !ok;
      assert accepted == |p| ==> p[..accepted] == p;
    }
  }

  /** Frames a writer can have appended one by one: each fits, and its name is new. */
  predicate Writable(fs: seq<Frame>) {
    match |fs|
    case 0 => true
    case _ =>
      var front, last := fs[..|fs| - 1], fs[|fs| - 1];
      Writable(front) && Encodable(last) && last.name !in FrameNames(front)
  }

  lemma WritableLast(fs: seq<Frame>, f: Frame)
    ensures Writable(fs + [f]) <==> Writable(fs) && Encodable(f) && f.name !in FrameNames(fs)
  {
    assert (fs + [f])[..|fs|] == fs;
  }

  /** The writer's condition is the reader's: every frame fits and no name occurs twice. */
  lemma {:induction false} WritableMeans(fs: seq<Frame>)
    ensures Writable(fs) <==> AllEncodable(fs) && DistinctNames(fs)
    ensures AllEncodable(fs) <==> forall f :: f in fs ==> |f.name| <= 65535 && |f.content| <= 1073741824
  {
    if fs == [] {
    } else {
      var front, last := fs[..|fs| - 1], fs[|fs| - 1];
      WritableMeans(front);
      assert fs == front + [last];
      assert AllEncodable(fs) <==> AllEncodable(front) && Encodable(last) by {
        assert forall f :: f in fs <==> f in front || f == last;
      }
      assert forall i :: 0 <= i < |front| ==> FrameNames(front)[i] == fs[i].name;
    }
  }

  /** The writer's own index, name order and end offset describe the frames `acked`. */
  ghost predicate Bookkeeping(acked: seq<Frame>, frames: map<seq<byte>, FrameRef>, orderedNames: seq<seq<byte>>,
                              offset: nat) {
    && Writable(acked)
    && offset == |EncodeFile(acked)|
    && Parsed(CURRENT_VERSION, frames, orderedNames, offset) == Listing(acked, offset)
  }

  /** What is on disk: with a writer, the acknowledged frames and nothing else, save what is still
      buffered; without one, some part of the one frame whose write failed as well. */
  ghost predicate Durable(acked: seq<Frame>, torn: seq<Frame>, writable: bool, buffered: seq<byte>, data: seq<byte>) {
    match writable
    case true =>
      && torn == []
      && data + buffered == EncodeFile(acked)
      && (acked != [] ==> buffered == [])
    case false => |torn| == 1 && TornWrite(acked, torn[0], data)
  }

  /** What a failed write of `f` leaves behind. */
  ghost predicate TornWrite(acked: seq<Frame>, f: Frame, data: seq<byte>) {
    && Encodable(f) && f.name !in FrameNames(acked)
    && (acked != [] ==> EncodeFile(acked) <= data)
    && data <= EncodeFile(acked + [f])
  }

  /** Of the write of `p` to a file holding `before`, some part got there; all of it if `ok`. */
  ghost predicate Accepted(p: seq<byte>, before: seq<byte>, data: seq<byte>, ok: bool) {
    && (exists n: nat :: n <= |p| && data == before + p[..n])
    && (ok ==> data == before + p)
  }

  /** One write of the buffered header and a whole frame leaves the file as it should be. */
  lemma WriteOutcome(acked: seq<Frame>, f: Frame, buffered: seq<byte>, before: seq<byte>,
                     data: seq<byte>, ok: bool)
    requires Durable(acked, [], true, buffered, before)
    requires Encodable(f) && f.name !in FrameNames(acked)
    requires Accepted(buffered + EncodeFrame(f), before, data, ok)
    ensures Durable(acked, [f], false, [], data)
    ensures ok ==> data == EncodeFile(acked + [f]) && Durable(acked + [f], [], true, [], data)
  {
    var whole := buffered + EncodeFrame(f);
    var n: nat :| n <= |whole| && data == before + whole[..n];
    EncodeFileLast(acked, f);
    Associative(before, buffered, EncodeFrame(f));
    assert before + whole == EncodeFile(acked + [f]);
    PrefixOfJoin(before, whole, n);
    assert data + [] == data;
    if acked != [] {
      assert before + [] == before;
    }
  }

  lemma PrefixOfJoin(a: seq<byte>, b: seq<byte>, n: nat)
    requires n <= |b|
    ensures a <= a + b[..n] <= a + b
    ensures n == |b| ==> a + b[..n] == a + b
  {
    assert b == b[..n] + b[n..];
    assert a + b == (a + b[..n]) + b[n..];
  }

  lemma Booked(acked: seq<Frame>, f: Frame, frames: map<seq<byte>, FrameRef>,
               orderedNames: seq<seq<byte>>, offset: nat)
    requires Bookkeeping(acked, frames, orderedNames, offset) && Encodable(f) && f.name !in FrameNames(acked)
    ensures Bookkeeping(acked + [f], frames[f.name := FrameRef(offset + 6 + |f.name|, |f.content|)],
                        orderedNames + [f.name], offset + |EncodeFrame(f)|)
  {
    AppendListing(acked, f);
    WritableLast(acked, f);
    EncodeFileLast(acked, f);
  }

  datatype Outcome = Appended | NotWritable | AlreadyExists | NameTooLong | TooLarge | WriteFailed

  class Container {
    const sink: Sink
    var writable: bool
    var buffered: seq<byte>
    var frames: map<seq<byte>, FrameRef>
    var orderedNames: seq<seq<byte>>
    var offset: nat

    /** The frames whose append succeeded, in order. */
    ghost var acked: seq<Frame>
    /** The frame whose write failed and dropped the writer, if any. */
    ghost var torn: seq<Frame>

    /** The disk and the bookkeeping agree with the acknowledged frames, and the writer is there
        until a write fails. */
    ghost predicate Valid()
      reads this, sink
    {
      && (writable <==> !sink.faulted)
      && Bookkeeping(acked, frames, orderedNames, offset)
      && Durable(acked, torn, writable, buffered, sink.data)
    }

    constructor (sink: Sink)
      requires sink.data == [] && !sink.faulted
      ensures Valid() && this.sink == sink && writable && acked == []
    {
      this.sink := sink;
      writable, buffered := true, FileHeader();
      frames, orderedNames, offset := map[], [], HEADER_BYTES;
      acked, torn := [], [];
      new;
      assert FileHeader() + [] == FileHeader();
    }

    /** Bookkeeping moves with the disk: on success the frame is the last acknowledged one and is
        on disk; on a refusal nothing changes; on a write failure the acknowledged frames stay as
        they were and no later append can succeed. */
    method AppendFrame(name: seq<byte>, content: seq<byte>) returns (r: Outcome)
      requires Valid()
      modifies this, sink
      ensures Valid()
      ensures r == (if !old(writable) then NotWritable
                    else if name in FrameNames(old(acked)) then AlreadyExists
                    else if |name| > MAX_NAME_BYTES then NameTooLong
                    else if |content| > MAX_FRAME_BYTES then TooLarge
                    else if writable then Appended else WriteFailed)
      ensures acked == if r.Appended? then old(acked) + [Frame(name, content)] else old(acked)
      ensures r.Appended? ==> sink.data == EncodeFile(acked)
      ensures r.WriteFailed? ==> torn == [Frame(name, content)]
      ensures !r.Appended? && !r.WriteFailed? ==> sink.data == old(sink.data) && writable == old(writable)
      ensures writable ==> old(writable)
    {
      assert name in frames <==> name in FrameNames(acked) by {
        IndexKeys(acked);
      }
      if !writable {
        return NotWritable;
      }
      if name in frames {
        return AlreadyExists;
      }
      if |name| > MAX_NAME_BYTES {
        return NameTooLong;
      }
      if |content| > MAX_FRAME_BYTES {
        return TooLarge;
      }
      var ok := WriteFrame(name, content);
      r := if ok then Appended else WriteFailed;
    }

    /** The one write and flush of an accepted frame. */
    method WriteFrame(name: seq<byte>, content: seq<byte>) returns (ok: bool)
      requires Valid() && writable && Encodable(Frame(name, content)) && name !in FrameNames(acked)
      modifies this, sink
      ensures Valid() && writable == ok
      ensures acked == if ok then old(acked) + [Frame(name, content)] else old(acked)
      ensures if ok then sink.data == EncodeFile(acked) else torn == [Frame(name, content)]
    {
      ghost var f := Frame(name, content);
      var buf := EncodeFrame(Frame(name, content));
      ghost var before := sink.data;
      ok := sink.Write(buffered + buf);
      WriteOutcome(acked, f, buffered, before, sink.data, ok);
      buffered := [];
      if ok {
        Commit(name, content, |buf|);
      } else {
        writable := false;
        torn := [f];
      }
    }

    /** The bookkeeping after a frame of `length` bytes got to the disk. */
    method Commit(name: seq<byte>, content: seq<byte>, length: nat)
      requires writable && !sink.faulted && torn == [] && length == |EncodeFrame(Frame(name, content))|
      requires Bookkeeping(acked, frames, orderedNames, offset)
      requires Encodable(Frame(name, content)) && name !in FrameNames(acked)
      requires Durable(acked + [Frame(name, content)], [], true, buffered, sink.data)
      modifies this`frames, this`orderedNames, this`offset, this`acked
      ensures Valid() && acked == old(acked) + [Frame(name, content)]
    {
      Booked(acked, Frame(name, content), frames, orderedNames, offset);
      frames := frames[name := FrameRef(offset + 6 + |name|, |content|)];
      orderedNames := orderedNames + [name];
      offset := offset + length;
      acked := acked + [Frame(name, content)];
    }

    /** Crash recovery of this container's file, at every moment. A lenient parse returns every
        acknowledged frame in order and with its content, and the one frame whose write failed
        exactly when all of it got there; while less than the header is down, none is acknowledged. */
    lemma Recoverable()
      requires Valid()
      ensures |sink.data| < HEADER_BYTES ==> acked == []
      ensures |sink.data| >= HEADER_BYTES ==>
                && Parse(sink.data, true).Ok?
                && Holds(Parse(sink.data, true).value,
                         if sink.data == EncodeFile(acked + torn) then acked + torn else acked, sink.data)
    {
      assert |EncodeFile(acked)| >= HEADER_BYTES;
      if writable && acked != [] {
        assert sink.data + [] == sink.data;
      }
      if |sink.data| >= HEADER_BYTES {
        RecoverableFile();
      }
    }

    lemma RecoverableFile()
      requires Valid() && |sink.data| >= HEADER_BYTES
      ensures Parse(sink.data, true).Ok?
      ensures Holds(Parse(sink.data, true).value,
                    if sink.data == EncodeFile(acked + torn) then acked + torn else acked, sink.data)
    {
      if writable {
        assert acked + torn == acked && buffered == [] && sink.data + [] == sink.data;
        WritableMeans(acked);
        RecoverAll(acked);
        ListingHolds(acked, sink.data);
      } else {
        assert torn == [torn[0]];
        WritableLast(acked, torn[0]);
        WritableMeans(acked + torn);
        WritableMeans(acked);
        EncodeFileLast(acked, torn[0]);
        assert acked == [] ==> EncodeFile(acked) == FileHeader() == EncodeFile(acked + torn)[..HEADER_BYTES];
        CrashRecovery(acked, torn[0], sink.data);
      }
    }

    /** While no write failed, the writer's own index, name order and offset are those a strict
        parse of the flushed file returns. */
    lemma IndexAgrees()
      requires Valid() && writable && buffered == []
      ensures Parse(sink.data, false) == Ok(Parsed(CURRENT_VERSION, frames, orderedNames, offset))
      ensures Holds(Parse(sink.data, false).value, acked, sink.data)
    {
      assert sink.data + [] == sink.data;
      WritableMeans(acked);
      WriteParseInversion(acked);
    }
  }

  lemma IndexKeys(fs: seq<Frame>)
    ensures forall n :: n in Listing(fs, 0).index <==> n in FrameNames(fs)
  {
    ListingNames(EncodeFrame, HEADER_BYTES, fs);
    var refs := RefsAt(EncodeFrame, HEADER_BYTES, fs);
    forall n ensures n in IndexOf(refs) <==> n in NamesOf(refs) {
      KeysOfIndex(refs, n);
    }
  }

  lemma {:induction false} KeysOfIndex(refs: seq<NamedRef>, n: seq<byte>)
    ensures n in IndexOf(refs) <==> n in NamesOf(refs)
  {
    if refs == [] {
    } else {
      var front, last := refs[..|refs| - 1], refs[|refs| - 1];
      KeysOfIndex(front, n);
      assert refs == front + [last];
      assert NamesOf(refs) == NamesOf(front) + [last.name];
    }
  }

  /** The listing of one more frame is the bookkeeping `AppendFrame` does. */
  lemma AppendListing(fs: seq<Frame>, f: Frame)
    ensures var before := Listing(fs, |EncodeFile(fs)|);
            Listing(fs + [f], |EncodeFile(fs)| + |EncodeFrame(f)|)
            == Parsed(CURRENT_VERSION,
                      before.index[f.name := RefOf(|EncodeFile(fs)|, f).ref],
                      before.names + [f.name],
                      |EncodeFile(fs)| + |EncodeFrame(f)|)
  {
    RefsAtLast(EncodeFrame, HEADER_BYTES, fs, f);
    PrependOne(RefsAt(EncodeFrame, HEADER_BYTES, fs), RefOf(|EncodeFile(fs)|, f), Refs([]));
  }

  lemma {:induction false} RefsAtLast(enc: Encoder, at: nat, fs: seq<Frame>, f: Frame)
    ensures RefsAt(enc, at, fs + [f]) == RefsAt(enc, at, fs) + [RefOf(at + |EncodeAll(enc, fs)|, f)]
    decreases |fs|
  {
    if fs == [] {
      assert [f][1..] == [];
    } else {
      var first, next := RefOf(at, fs[0]), at + |enc(fs[0])|;
      calc {
        RefsAt(enc, at, fs + [f]);
        { assert (fs + [f])[1..] == fs[1..] + [f] && (fs + [f])[0] == fs[0]; }
        [first] + RefsAt(enc, next, fs[1..] + [f]);
        { RefsAtLast(enc, next, fs[1..], f); }
        [first] + (RefsAt(enc, next, fs[1..]) + [RefOf(next + |EncodeAll(enc, fs[1..])|, f)]);
        { SnocOfCons(first, RefsAt(enc, next, fs[1..]), RefOf(next + |EncodeAll(enc, fs[1..])|, f)); }
        RefsAt(enc, at, fs) + [RefOf(at + |EncodeAll(enc, fs)|, f)];
      }
    }
  }

  lemma SnocOfCons<T>(first: T, middle: seq<T>, last: T)
    ensures [first] + (middle + [last]) == ([first] + middle) + [last]
  {
  }
}
