/** A file of named frames, for any header encoding.

    A scan walks frame headers from a start offset and records where each frame's content lies.
    Strict scans reject a file that ends inside a frame; lenient ones return the frames before
    it.  Everything here holds for any frame encoder and header reader that fit together as
    `Codec` says; `ContainerFormat` supplies the real ones. */
module Framing {

  newtype byte = b: int | 0 <= b < 0x100

  const MAX_FRAME_BYTES := 0x4000_0000
  const MAX_NAME_BYTES := 0xFFFF

  /** One frame as a writer sees it. */
  datatype Frame = Frame(name: seq<byte>, content: seq<byte>)

  /** Where a reader finds one frame's content. */
  datatype FrameRef = FrameRef(offset: nat, size: nat)

  datatype NamedRef = NamedRef(name: seq<byte>, ref: FrameRef)

  datatype Error = InvalidMagic | UnexpectedEof | UnsupportedVersion | FrameTooLarge | PastEnd | FrameDoesNotExist

  datatype Scan = Refs(refs: seq<NamedRef>) | Failed(error: Error)

  /** Outcome of reading one frame header. `AtEnd` is the clean end of file. */
  datatype Header = AtEnd | Bad(error: Error) | Head(name: seq<byte>, size: nat)

  type Encoder = Frame -> seq<byte>

  type HeaderReader = seq<byte> -> Header

  predicate Encodable(f: Frame) {
    |f.name| <= MAX_NAME_BYTES && |f.content| <= MAX_FRAME_BYTES
  }

  predicate AllEncodable(fs: seq<Frame>) {
    forall f :: f in fs ==> Encodable(f)
  }

  function EncodeAll(enc: Encoder, fs: seq<Frame>): seq<byte> {
    if fs == [] then [] else enc(fs[0]) + EncodeAll(enc, fs[1..])
  }

  function RefOf(at: nat, f: Frame): NamedRef {
    NamedRef(f.name, FrameRef(at + 6 + |f.name|, |f.content|))
  }

  /** The references of `fs` when its encoding starts at byte `at`. */
  function RefsAt(enc: Encoder, at: nat, fs: seq<Frame>): seq<NamedRef>
    decreases |fs|
  {
    if fs == [] then [] else [RefOf(at, fs[0])] + RefsAt(enc, at + |enc(fs[0])|, fs[1..])
  }

  function Prepend(done: seq<NamedRef>, r: Scan): Scan {
    match r case Refs(refs) => Refs(done + refs) case Failed(e) => Failed(e)
  }

  /** All frame references in `rest`, which starts at byte `at` of the file. */
  function ScanWith(read: HeaderReader, rest: seq<byte>, at: nat, lenient: bool): Scan
    decreases |rest|
  {
    match read(rest)
    case AtEnd => Refs([])
    case Bad(e) => if lenient then Refs([]) else Failed(e)
    case Head(name, size) =>
      var used := 6 + |name| + size;
      if used > |rest| then if lenient then Refs([]) else Failed(PastEnd)
      else
        Prepend([NamedRef(name, FrameRef(at + 6 + |name|, size))], ScanWith(read, rest[used..], at + used, lenient))
  }

  /** What a scan needs: every whole frame's header is read back, and a frame cut short reads as
      the end of the file, as a failure, or as its own header. */
  ghost predicate Codec(enc: Encoder, read: HeaderReader) {
    && (forall f :: |enc(f)| == 6 + |f.name| + |f.content|)
    && (forall f, tail :: Encodable(f) ==> read(enc(f) + tail) == Head(f.name, |f.content|))
    && (forall f, m: nat :: Encodable(f) && m < |enc(f)| ==>
          match read(enc(f)[..m])
          case AtEnd => m == 0
          case Bad(_) => m > 0
          case Head(name, size) => m > 0 && name == f.name && size == |f.content|)
  }

  // ---------------------------------------------------------------- sequences

  lemma Associative<T>(a: seq<T>, b: seq<T>, c: seq<T>)
    ensures a + b + c == a + (b + c)
  {
  }

  lemma CutOfConcat<T>(a: seq<T>, b: seq<T>, c: seq<T>, m: nat)
    requires |a| <= m <= |a| + |b|
    ensures (a + (b + c))[..m] == a + b[..m - |a|]
  {
  }

  lemma CutAfter<T>(a: seq<T>, b: seq<T>, m: nat)
    requires |a| <= m <= |a| + |b|
    ensures (a + b)[..m] == a + b[..m - |a|]
  {
  }

  lemma SliceOfCut<T>(e: seq<T>, m: nat, i: nat, j: nat)
    requires i <= j <= m <= |e|
    ensures e[..m][i..j] == e[i..j]
  {
  }

  lemma SliceOfMiddle<T>(pre: seq<T>, mid: seq<T>, post: seq<T>, b: seq<T>, from: nat)
    requires pre + (mid + post) <= b && from <= |mid|
    ensures |pre| + |mid| <= |b| && b[|pre| + from..|pre| + |mid|] == mid[from..]
  {
    assert b[..|pre + (mid + post)|] == pre + (mid + post);
    forall k | from <= k < |mid| ensures b[|pre| + k] == mid[k] {
      assert b[..|pre + (mid + post)|][|pre| + k] == b[|pre| + k];
    }
  }

  lemma PrependNothing(r: Scan)
    ensures Prepend([], r) == r
  {
    if r.Refs? {
      assert [] + r.refs == r.refs;
    }
  }

  lemma PrependEnd(done: seq<NamedRef>)
    ensures Prepend(done, Refs([])) == Refs(done)
  {
    assert done + [] == done;
  }

  lemma PrependTwice(xs: seq<NamedRef>, ys: seq<NamedRef>, r: Scan)
    ensures Prepend(xs, Prepend(ys, r)) == Prepend(xs + ys, r)
  {
    if r.Refs? {
      Associative(xs, ys, r.refs);
    }
  }

  // ---------------------------------------------------------------- encodings

  lemma {:induction false} EncodeAppend(enc: Encoder, xs: seq<Frame>, ys: seq<Frame>)
    ensures EncodeAll(enc, xs + ys) == EncodeAll(enc, xs) + EncodeAll(enc, ys)
  {
    if xs == [] {
      assert xs + ys == ys;
    } else {
      EncodeAppend(enc, xs[1..], ys);
      assert (xs + ys)[1..] == xs[1..] + ys;
      Associative(enc(xs[0]), EncodeAll(enc, xs[1..]), EncodeAll(enc, ys));
    }
  }

  lemma EncodeOne(enc: Encoder, f: Frame)
    ensures EncodeAll(enc, [f]) == enc(f)
  {
    assert [f][1..] == [];
    assert enc(f) + [] == enc(f);
  }

  lemma EncodeLast(enc: Encoder, fs: seq<Frame>, k: nat)
    requires k < |fs|
    ensures EncodeAll(enc, fs[..k + 1]) == EncodeAll(enc, fs[..k]) + enc(fs[k])
  {
    assert fs[..k + 1] == fs[..k] + [fs[k]];
    EncodeAppend(enc, fs[..k], [fs[k]]);
    EncodeOne(enc, fs[k]);
  }

  lemma {:induction false} RefsAtLookup(enc: Encoder, at: nat, fs: seq<Frame>, i: nat)
    requires i < |fs|
    ensures |RefsAt(enc, at, fs)| == |fs|
    ensures RefsAt(enc, at, fs)[i] == RefOf(at + |EncodeAll(enc, fs[..i])|, fs[i])
    decreases |fs|
  {
    if |fs| == 1 {
    } else {
      RefsAtLookup(enc, at + |enc(fs[0])|, fs[1..], if i == 0 then 0 else i - 1);
    }
    if i > 0 {
      assert fs[..i][1..] == fs[1..][..i - 1];
    }
  }

  // ---------------------------------------------------------------- cuts

  /** How many leading frames of `fs` fit in `room` bytes. */
  function FramesWithin(enc: Encoder, fs: seq<Frame>, room: nat): (n: nat)
    ensures n <= |fs|
  {
    if fs == [] || |enc(fs[0])| > room then 0 else 1 + FramesWithin(enc, fs[1..], room - |enc(fs[0])|)
  }

  /** The leading frames of `fs` that fit in `room` bytes. */
  function Whole(enc: Encoder, fs: seq<Frame>, room: nat): seq<Frame> {
    fs[..FramesWithin(enc, fs, room)]
  }

  /** `FramesWithin` is the largest number of whole frames that fit. */
  lemma {:induction false} FramesWithinIsLargest(enc: Encoder, fs: seq<Frame>, room: nat)
    ensures |EncodeAll(enc, Whole(enc, fs, room))| <= room
    ensures var k := FramesWithin(enc, fs, room);
            k < |fs| ==> room < |EncodeAll(enc, fs[..k])| + |enc(fs[k])|
  {
    if fs == [] || |enc(fs[0])| > room {
    } else {
      var k := FramesWithin(enc, fs[1..], room - |enc(fs[0])|);
      FramesWithinIsLargest(enc, fs[1..], room - |enc(fs[0])|);
      assert fs[..k + 1][1..] == fs[1..][..k];
    }
  }

  /** The first `m` bytes of an encoding are its whole frames and `torn` bytes of the next one. */
  lemma CutLayout(enc: Encoder, fs: seq<Frame>, m: nat)
    requires m <= |EncodeAll(enc, fs)|
    ensures var k, torn := FramesWithin(enc, fs, m), m - |EncodeAll(enc, Whole(enc, fs, m))|;
            if k == |fs| then torn == 0 && EncodeAll(enc, fs)[..m] == EncodeAll(enc, fs[..k])
            else 0 <= torn < |enc(fs[k])| && EncodeAll(enc, fs)[..m] == EncodeAll(enc, fs[..k]) + enc(fs[k])[..torn]
  {
    var k := FramesWithin(enc, fs, m);
    FramesWithinIsLargest(enc, fs, m);
    assert fs == fs[..k] + fs[k..];
    EncodeAppend(enc, fs[..k], fs[k..]);
    if k < |fs| {
      CutOfConcat(EncodeAll(enc, fs[..k]), enc(fs[k]), EncodeAll(enc, fs[k..][1..]), m);
    }
  }

  // ---------------------------------------------------------------- scans

  /** A scan goes past whole frames and returns their references in front of what follows. */
  lemma {:induction false} ScanPast(enc: Encoder, read: HeaderReader, fs: seq<Frame>, tail: seq<byte>, at: nat,
                                    lenient: bool)
    requires Codec(enc, read) && AllEncodable(fs)
    ensures ScanWith(read, EncodeAll(enc, fs) + tail, at, lenient)
            == Prepend(RefsAt(enc, at, fs), ScanWith(read, tail, at + |EncodeAll(enc, fs)|, lenient))
    decreases |fs|
  {
    if fs == [] {
      assert EncodeAll(enc, fs) + tail == tail;
      PrependNothing(ScanWith(read, tail, at, lenient));
    } else {
      var more, next := EncodeAll(enc, fs[1..]), at + |enc(fs[0])|;
      var last := ScanWith(read, tail, at + |EncodeAll(enc, fs)|, lenient);
      ScanFirst(enc, read, fs, tail, at, lenient);
      ScanPast(enc, read, fs[1..], tail, next, lenient);
      assert next + |more| == at + |EncodeAll(enc, fs)|;
      PrependTwice([RefOf(at, fs[0])], RefsAt(enc, next, fs[1..]), last);
    }
  }

  lemma ScanFirst(enc: Encoder, read: HeaderReader, fs: seq<Frame>, tail: seq<byte>, at: nat, lenient: bool)
    requires Codec(enc, read) && AllEncodable(fs) && fs != []
    ensures ScanWith(read, EncodeAll(enc, fs) + tail, at, lenient)
            == Prepend([RefOf(at, fs[0])],
                       ScanWith(read, EncodeAll(enc, fs[1..]) + tail, at + |enc(fs[0])|, lenient))
  {
    var more := EncodeAll(enc, fs[1..]);
    Associative(enc(fs[0]), more, tail);
    ScanOne(enc, read, fs[0], more + tail, at, lenient);
  }

  lemma ScanOne(enc: Encoder, read: HeaderReader, f: Frame, tail: seq<byte>, at: nat, lenient: bool)
    requires Codec(enc, read) && Encodable(f)
    ensures ScanWith(read, enc(f) + tail, at, lenient)
            == Prepend([RefOf(at, f)], ScanWith(read, tail, at + |enc(f)|, lenient))
  {
    assert (enc(f) + tail)[|enc(f)|..] == tail;
  }

  /** At the end of the file, and inside a torn frame. */
  lemma ScanOfTorn(enc: Encoder, read: HeaderReader, f: Frame, m: nat, at: nat)
    requires Codec(enc, read) && Encodable(f) && m < |enc(f)|
    ensures ScanWith(read, enc(f)[..m], at, true) == Refs([])
    ensures if m == 0 then ScanWith(read, enc(f)[..m], at, false) == Refs([])
            else ScanWith(read, enc(f)[..m], at, false).Failed?
  {
  }

  /** What the two kinds of scan return when they see the frames `refs`; `exact` says whether
      the file ends where the last of them does. */
  ghost predicate Sees(read: HeaderReader, b: seq<byte>, at: nat, refs: seq<NamedRef>, exact: bool) {
    && ScanWith(read, b, at, true) == Refs(refs)
    && if exact then ScanWith(read, b, at, false) == Refs(refs) else ScanWith(read, b, at, false).Failed?
  }

  lemma ScanWholeThenTorn(enc: Encoder, read: HeaderReader, fs: seq<Frame>, f: Frame, m: nat, at: nat)
    requires Codec(enc, read) && AllEncodable(fs) && Encodable(f) && m < |enc(f)|
    ensures Sees(read, EncodeAll(enc, fs) + enc(f)[..m], at, RefsAt(enc, at, fs), m == 0)
  {
    ScanPast(enc, read, fs, enc(f)[..m], at, true);
    ScanPast(enc, read, fs, enc(f)[..m], at, false);
    ScanOfTorn(enc, read, f, m, at + |EncodeAll(enc, fs)|);
    PrependEnd(RefsAt(enc, at, fs));
  }

  lemma ScanWhole(enc: Encoder, read: HeaderReader, fs: seq<Frame>, at: nat)
    requires Codec(enc, read) && AllEncodable(fs)
    ensures Sees(read, EncodeAll(enc, fs), at, RefsAt(enc, at, fs), true)
  {
    var none := Frame([], []);
    assert EncodeAll(enc, fs) + enc(none)[..0] == EncodeAll(enc, fs);
    ScanWholeThenTorn(enc, read, fs, none, 0, at);
  }

  /** The first `m` bytes of an encoded frame sequence: lenient scans return exactly the whole
      frames, strict scans succeed exactly at a frame boundary. */
  lemma ScanOfCut(enc: Encoder, read: HeaderReader, fs: seq<Frame>, m: nat, at: nat)
    requires Codec(enc, read) && AllEncodable(fs) && m <= |EncodeAll(enc, fs)|
    ensures var whole := Whole(enc, fs, m);
            Sees(read, EncodeAll(enc, fs)[..m], at, RefsAt(enc, at, whole), m == |EncodeAll(enc, whole)|)
  {
    CutLayout(enc, fs, m);
    var k := FramesWithin(enc, fs, m);
    var whole := fs[..k];
    assert AllEncodable(whole);
    if k == |fs| {
      ScanWhole(enc, read, whole, at);
    } else {
      ScanWholeThenTorn(enc, read, whole, fs[k], m - |EncodeAll(enc, whole)|, at);
    }
  }
}
