/** The `.lognav` container: a magic header, a version and named frames back to back.

    `ReadFramePointers` and `ParseContainer` are the reader's loop, proved against `Framing.ScanWith`
    and `Parse`.  The lemmas say what a parse of an encoded file, of any byte prefix of it and of
    a torn write returns. */
module ContainerFormat {
  import opened Framing

  const MAGIC: seq<byte> := [176, 76, 79, 71, 78, 65, 86, 233]
  const CURRENT_VERSION := 1
  const HEADER_BYTES := 12

  datatype Result<T> = Ok(value: T) | Err(error: Error)

  datatype FrameTable = FrameTable(index: map<seq<byte>, FrameRef>, names: seq<seq<byte>>)

  datatype Parsed = Parsed(version: nat, index: map<seq<byte>, FrameRef>, names: seq<seq<byte>>, end: nat)

  // ---------------------------------------------------------------- integers

  /** The number of values a field of `width` bytes can hold. */
  function Range(width: nat): (r: nat)
    ensures r > 0
  {
    if width == 0 then 1 else 0x100 * Range(width - 1)
  }

  /** Byte number `k` of `n`, counted from the least significant. */
  function ByteOf(n: nat, k: nat): byte {
    if k == 0 then (n % 0x100) as byte else ByteOf(n / 0x100, k - 1)
  }

  /** Big-endian encoding in `width` bytes; higher bytes of `n` are dropped. */
  function PutUint(n: nat, width: nat): (r: seq<byte>)
    ensures |r| == width
  {
    seq(width, i requires 0 <= i < width => ByteOf(n, width - 1 - i))
  }

  function GetUint(s: seq<byte>): nat {
    if s == [] then 0 else 0x100 * GetUint(s[..|s| - 1]) + s[|s| - 1] as nat
  }

  lemma {:induction false} UintRoundTrip(n: nat, width: nat)
    requires n < Range(width)
    ensures GetUint(PutUint(n, width)) == n
  {
    if width == 0 {
    } else {
      UintRoundTrip(n / 0x100, width - 1);
      var all, high := PutUint(n, width), PutUint(n / 0x100, width - 1);
      forall i | 0 <= i < width - 1 ensures all[i] == high[i] {
        assert ByteOf(n, width - 1 - i) == ByteOf(n / 0x100, width - 2 - i);
      }
      assert all[..width - 1] == high && all[width - 1] == ByteOf(n, 0);
    }
  }

  lemma FieldsRoundTrip(f: Frame)
    requires Encodable(f)
    ensures GetUint(PutUint(|f.name|, 2)) == |f.name| && GetUint(PutUint(|f.content|, 4)) == |f.content|
  {
    assert Range(1) == 0x100 && Range(2) == 0x1_0000 && Range(3) == 0x100_0000;
    UintRoundTrip(|f.name|, 2);
    UintRoundTrip(|f.content|, 4);
  }

  // ---------------------------------------------------------------- frames

  /** Name length, name, content length, content. */
  function EncodeFrame(f: Frame): (r: seq<byte>)
    ensures |r| == 6 + |f.name| + |f.content|
  {
    (PutUint(|f.name|, 2) + f.name) + (PutUint(|f.content|, 4) + f.content)
  }

  lemma FrameLayout(f: Frame)
    ensures EncodeFrame(f)[..2] == PutUint(|f.name|, 2)
    ensures EncodeFrame(f)[2..2 + |f.name|] == f.name
    ensures EncodeFrame(f)[2 + |f.name|..6 + |f.name|] == PutUint(|f.content|, 4)
    ensures EncodeFrame(f)[6 + |f.name|..] == f.content
  {
  }

  /** One frame's name length, name and declared content length, read off the front of `rest`. */
  function ReadFrameHeader(rest: seq<byte>): (h: Header)
    ensures h.Head? ==> 6 + |h.name| <= |rest| && h.size <= MAX_FRAME_BYTES
  {
    if |rest| == 0 then AtEnd
    else if |rest| < 2 then Bad(UnexpectedEof)
    else
      var n := GetUint(rest[..2]);
      if |rest| < 6 + n then Bad(UnexpectedEof)
      else
        var size := GetUint(rest[2 + n..6 + n]);
        if size > MAX_FRAME_BYTES then Bad(FrameTooLarge) else Head(rest[2..2 + n], size)
  }

  lemma HeaderOfWhole(f: Frame, tail: seq<byte>)
    requires Encodable(f)
    ensures ReadFrameHeader(EncodeFrame(f) + tail) == Head(f.name, |f.content|)
  {
    FrameLayout(f);
    FieldsRoundTrip(f);
    var e, all, n := EncodeFrame(f), EncodeFrame(f) + tail, |f.name|;
    assert all[..2] == e[..2] && all[2..2 + n] == e[2..2 + n] && all[2 + n..6 + n] == e[2 + n..6 + n];
  }

  /** The header of a frame that the file cuts short is the frame's own header, when that is all
      there, and an end of file otherwise. */
  lemma HeaderOfTorn(f: Frame, m: nat)
    requires Encodable(f) && m < |EncodeFrame(f)|
    ensures ReadFrameHeader(EncodeFrame(f)[..m])
            == if m == 0 then AtEnd else if m < 6 + |f.name| then Bad(UnexpectedEof) else Head(f.name, |f.content|)
  {
    FrameLayout(f);
    FieldsRoundTrip(f);
    var e, n := EncodeFrame(f), |f.name|;
    if m >= 2 {
      SliceOfCut(e, m, 0, 2);
    }
    if m >= 6 + n {
      SliceOfCut(e, m, 2, 2 + n);
      SliceOfCut(e, m, 2 + n, 6 + n);
    }
  }

  /** A header that declares more than 2^30 bytes of content is refused, whatever follows. */
  lemma HeaderOfTooLarge(name: seq<byte>, size: nat, tail: seq<byte>)
    requires |name| <= 65535 && size < 0x1_0000_0000
    ensures ReadFrameHeader(PutUint(|name|, 2) + name + PutUint(size, 4) + tail)
            == if size > 1073741824 then Bad(FrameTooLarge) else Head(name, size)
  {
    var all, n := PutUint(|name|, 2) + name + PutUint(size, 4) + tail, |name|;
    assert Range(1) == 0x100 && Range(2) == 0x1_0000 && Range(3) == 0x100_0000 && Range(4) == 0x1_0000_0000;
    UintRoundTrip(n, 2);
    UintRoundTrip(size, 4);
    assert all[..2] == PutUint(n, 2) && all[2..2 + n] == name && all[2 + n..6 + n] == PutUint(size, 4);
  }

  lemma FrameCodec()
    ensures Codec(EncodeFrame, ReadFrameHeader)
  {
    forall f, tail | Encodable(f) ensures ReadFrameHeader(EncodeFrame(f) + tail) == Head(f.name, |f.content|) {
      HeaderOfWhole(f, tail);
    }
    forall f, m: nat | Encodable(f) && m < |EncodeFrame(f)|
      ensures ReadFrameHeader(EncodeFrame(f)[..m])
              == if m == 0 then AtEnd else if m < 6 + |f.name| then Bad(UnexpectedEof) else Head(f.name, |f.content|)
    {
      HeaderOfTorn(f, m);
    }
  }

  function FileHeader(): (r: seq<byte>)
    ensures |r| == HEADER_BYTES
  {
    MAGIC + PutUint(CURRENT_VERSION, 4)
  }

  /** The bytes of a file's header. */
  lemma HeaderWritten()
    ensures FileHeader() == [0xB0, 0x4C, 0x4F, 0x47, 0x4E, 0x41, 0x56, 0xE9, 0, 0, 0, 1]
  {
    Bytes(CURRENT_VERSION);
  }

  /** The bytes of a frame. */
  lemma Written(f: Frame)
    requires Encodable(f)
    ensures var n, size := |f.name|, |f.content|;
            EncodeFrame(f)
            == [(n / 256) as byte, (n % 256) as byte] + f.name
               + [(size / 16777216) as byte, (size / 65536 % 256) as byte, (size / 256 % 256) as byte,
                  (size % 256) as byte] + f.content
  {
    var n, size := |f.name|, |f.content|;
    TwoBytes(n);
    FourBytes(size);
    hide PutUint;
  }

  lemma TwoBytes(n: nat)
    requires n <= 65535
    ensures PutUint(n, 2) == [(n / 256) as byte, (n % 256) as byte]
  {
    Bytes(n);
  }

  lemma FourBytes(n: nat)
    requires n <= 1073741824
    ensures PutUint(n, 4)
            == [(n / 16777216) as byte, (n / 65536 % 256) as byte, (n / 256 % 256) as byte, (n % 256) as byte]
  {
    hide ByteOf;
    Bytes(n);
    var s := PutUint(n, 4);
    assert s[0] == ByteOf(n, 3) && s[1] == ByteOf(n, 2) && s[2] == ByteOf(n, 1) && s[3] == ByteOf(n, 0);
  }

  lemma Bytes(n: nat)
    ensures ByteOf(n, 0) as int == n % 256 && ByteOf(n, 1) as int == n / 256 % 256
    ensures ByteOf(n, 2) as int == n / 65536 % 256 && ByteOf(n, 3) as int == n / 16777216 % 256
  {
    assert n / 256 / 256 == n / 65536 && n / 65536 / 256 == n / 16777216;
    assert ByteOf(n, 2) == ByteOf(n / 256, 1) == ByteOf(n / 65536, 0);
    assert ByteOf(n, 3) == ByteOf(n / 256, 2) == ByteOf(n / 65536, 1) == ByteOf(n / 16777216, 0);
  }

  function EncodeFrames(fs: seq<Frame>): seq<byte> {
    EncodeAll(EncodeFrame, fs)
  }

  function EncodeFile(fs: seq<Frame>): seq<byte> {
    FileHeader() + EncodeFrames(fs)
  }

  // ---------------------------------------------------------------- the reader

  function NamesOf(refs: seq<NamedRef>): (r: seq<seq<byte>>)
    ensures |r| == |refs|
  {
    seq(|refs|, i requires 0 <= i < |refs| => refs[i].name)
  }

  /** Name to reference; a later frame of the same name replaces an earlier one. */
  function IndexOf(refs: seq<NamedRef>): map<seq<byte>, FrameRef> {
    if refs == [] then map[]
    else IndexOf(refs[..|refs| - 1])[refs[|refs| - 1].name := refs[|refs| - 1].ref]
  }

  function Tabulate(r: Scan): Result<FrameTable> {
    match r case Refs(refs) => Ok(FrameTable(IndexOf(refs), NamesOf(refs))) case Failed(e) => Err(e)
  }

  lemma PrependOne(done: seq<NamedRef>, ref: NamedRef, rest: Scan)
    ensures Prepend(done + [ref], rest) == Prepend(done, Prepend([ref], rest))
  {
    PrependTwice(done, [ref], rest);
  }

  lemma TableMore(done: seq<NamedRef>, ref: NamedRef)
    ensures IndexOf(done + [ref]) == IndexOf(done)[ref.name := ref.ref]
    ensures NamesOf(done + [ref]) == NamesOf(done) + [ref.name]
  {
    assert (done + [ref])[..|done|] == done;
  }

  /** What a scan of `b` returns that has come to `pos` and listed `done`. */
  function Onward(read: HeaderReader, b: seq<byte>, pos: nat, lenient: bool, done: seq<NamedRef>): Scan
    requires pos <= |b|
  {
    Prepend(done, ScanWith(read, b[pos..], pos, lenient))
  }

  predicate Fits(h: Header, b: seq<byte>, pos: nat) {
    h.Head? && pos + 6 + |h.name| + h.size <= |b|
  }

  /** The scan of a whole frame at `pos` goes on behind it. */
  lemma ScanMore(read: HeaderReader, b: seq<byte>, pos: nat, lenient: bool, done: seq<NamedRef>)
    requires pos <= |b| && Fits(read(b[pos..]), b, pos)
    ensures var h := read(b[pos..]);
            var at := pos + 6 + |h.name|;
            Onward(read, b, pos, lenient, done)
            == Onward(read, b, at + h.size, lenient, done + [NamedRef(h.name, FrameRef(at, h.size))])
  {
    var h := read(b[pos..]);
    var at := pos + 6 + |h.name|;
    assert b[pos..][at + h.size - pos..] == b[at + h.size..];
    PrependOne(done, NamedRef(h.name, FrameRef(at, h.size)), ScanWith(read, b[at + h.size..], at + h.size, lenient));
  }

  /** Anywhere else it ends. */
  lemma ScanEnds(read: HeaderReader, b: seq<byte>, pos: nat, lenient: bool, done: seq<NamedRef>)
    requires pos <= |b| && !Fits(read(b[pos..]), b, pos)
    ensures var h := read(b[pos..]);
            Onward(read, b, pos, lenient, done)
            == if h.AtEnd? || lenient then Refs(done) else if h.Bad? then Failed(h.error) else Failed(PastEnd)
  {
    PrependEnd(done);
  }

  /** What is read at one offset: a whole frame, or the end of the scan, or the error it ends with. */
  datatype Reading = Listed(name: seq<byte>, ref: FrameRef) | Over | Refused(error: Error)

  method ReadNext(read: HeaderReader, b: seq<byte>, pos: nat, lenient: bool, ghost done: seq<NamedRef>)
    returns (r: Reading)
    requires pos <= |b|
    ensures match r
            case Over => Onward(read, b, pos, lenient, done) == Refs(done)
            case Refused(e) => Onward(read, b, pos, lenient, done) == Failed(e)
            case Listed(name, ref) =>
              && pos < ref.offset + ref.size <= |b|
              && Onward(read, b, pos, lenient, done)
                 == Onward(read, b, ref.offset + ref.size, lenient, done + [NamedRef(name, ref)])
  {
    var h := read(b[pos..]);
    if Fits(h, b, pos) {
      ScanMore(read, b, pos, lenient, done);
      return Listed(h.name, FrameRef(pos + 6 + |h.name|, h.size));
    }
    ScanEnds(read, b, pos, lenient, done);
    if h.AtEnd? || lenient {
      return Over;
    }
    r := Refused(if h.Bad? then h.error else PastEnd);
  }

  /** The reader's loop: a moving offset, a growing map and the names in file order. */
  method ReadFramePointers(read: HeaderReader, b: seq<byte>, start: nat, lenient: bool) returns (r: Result<FrameTable>)
    requires start <= |b|
    ensures r == Tabulate(ScanWith(read, b[start..], start, lenient))
  {
    var index: map<seq<byte>, FrameRef>, names: seq<seq<byte>> := map[], [];
    var pos := start;
    ghost var all := ScanWith(read, b[start..], start, lenient);
    ghost var done: seq<NamedRef> := [];
    PrependNothing(all);
    while true
      invariant start <= pos <= |b|
      invariant index == IndexOf(done) && names == NamesOf(done)
      invariant all == Onward(read, b, pos, lenient, done)
      decreases |b| - pos
    {
      var next := ReadNext(read, b, pos, lenient, done);
      match next {
        case Over => break;
        case Refused(e) => return Err(e);
        case Listed(name, ref) =>
          TableMore(done, NamedRef(name, ref));
          index := index[name := ref];
          names := names + [name];
          done := done + [NamedRef(name, ref)];
          pos := ref.offset + ref.size;
      }
    }
    return Ok(FrameTable(index, names));
  }

  function ParseWith(read: HeaderReader, b: seq<byte>, lenient: bool): Result<Parsed> {
    if |b| < 8 || b[..8] != MAGIC then Err(InvalidMagic)
    else if |b| < HEADER_BYTES then Err(UnexpectedEof)
    else if GetUint(b[8..12]) != CURRENT_VERSION then Err(UnsupportedVersion)
    else
      match Tabulate(ScanWith(read, b[HEADER_BYTES..], HEADER_BYTES, lenient))
      case Err(e) => Err(e)
      case Ok(t) => Ok(Parsed(CURRENT_VERSION, t.index, t.names, |b|))
  }

  /** What a parse of the whole file returns. */
  function Parse(b: seq<byte>, lenient: bool): Result<Parsed> {
    ParseWith(ReadFrameHeader, b, lenient)
  }

  method ParseContainer(b: seq<byte>, lenient: bool) returns (r: Result<Parsed>)
    ensures r == Parse(b, lenient)
  {
    if |b| < 8 || b[..8] != MAGIC {
      return Err(InvalidMagic);
    }
    if |b| < HEADER_BYTES {
      return Err(UnexpectedEof);
    }
    if GetUint(b[8..12]) != CURRENT_VERSION {
      return Err(UnsupportedVersion);
    }
    var table := ReadFramePointers(ReadFrameHeader, b, HEADER_BYTES, lenient);
    if table.Err? {
      return Err(table.error);
    }
    r := Ok(Parsed(CURRENT_VERSION, table.value.index, table.value.names, |b|));
  }

  /** The content of the named frame, read at its indexed place. */
  function ReadFrame(b: seq<byte>, index: map<seq<byte>, FrameRef>, name: seq<byte>): Result<seq<byte>> {
    if name !in index then Err(FrameDoesNotExist)
    else if index[name].offset + index[name].size > |b| then Err(UnexpectedEof)
    else Ok(b[index[name].offset..index[name].offset + index[name].size])
  }

  // ---------------------------------------------------------------- truncation

  /** What a parse returns for a file of `size` bytes whose frames are `fs`. */
  function Listing(fs: seq<Frame>, size: nat): Parsed {
    var refs := RefsAt(EncodeFrame, HEADER_BYTES, fs);
    Parsed(CURRENT_VERSION, IndexOf(refs), NamesOf(refs), size)
  }

  /** Any file that starts with the writer's header parses as its frames do. */
  lemma HeaderParses(read: HeaderReader, rest: seq<byte>, fs: seq<Frame>, exact: bool)
    requires Sees(read, rest, HEADER_BYTES, RefsAt(EncodeFrame, HEADER_BYTES, fs), exact)
    ensures ParseWith(read, FileHeader() + rest, true) == Ok(Listing(fs, HEADER_BYTES + |rest|))
    ensures if exact then ParseWith(read, FileHeader() + rest, false) == Ok(Listing(fs, HEADER_BYTES + |rest|))
            else ParseWith(read, FileHeader() + rest, false).Err?
  {
    var b := FileHeader() + rest;
    assert b[..8] == MAGIC && b[8..12] == PutUint(CURRENT_VERSION, 4) && b[HEADER_BYTES..] == rest;
    assert Range(1) == 0x100 && Range(2) == 0x1_0000;
    UintRoundTrip(CURRENT_VERSION, 4);
  }

  /** The frames of `fs` that lie wholly in the first `cut` bytes of its file. */
  function WholeIn(fs: seq<Frame>, cut: nat): seq<Frame>
    requires HEADER_BYTES <= cut
  {
    Whole(EncodeFrame, fs, cut - HEADER_BYTES)
  }

  /** Exact truncation behaviour. Cut a well-formed file anywhere at or after its 12-byte header:
      a lenient parse returns exactly the frames wholly inside the cut, and a strict parse succeeds
      exactly when the cut is a frame boundary, with the same answer. */
  lemma Truncation(fs: seq<Frame>, cut: nat)
    requires AllEncodable(fs) && HEADER_BYTES <= cut <= |EncodeFile(fs)|
    ensures Parse(EncodeFile(fs)[..cut], true) == Ok(Listing(WholeIn(fs, cut), cut))
    ensures if cut == |EncodeFile(WholeIn(fs, cut))|
            then Parse(EncodeFile(fs)[..cut], false) == Ok(Listing(WholeIn(fs, cut), cut))
            else Parse(EncodeFile(fs)[..cut], false).Err?
  {
    CutAfter(FileHeader(), EncodeFrames(fs), cut);
    CutParses(fs, cut - HEADER_BYTES);
  }

  lemma CutParses(fs: seq<Frame>, m: nat)
    requires AllEncodable(fs) && m <= |EncodeFrames(fs)|
    ensures var b, whole := FileHeader() + EncodeFrames(fs)[..m], Whole(EncodeFrame, fs, m);
            && Parse(b, true) == Ok(Listing(whole, HEADER_BYTES + m))
            && if m == |EncodeFrames(whole)| then Parse(b, false) == Ok(Listing(whole, HEADER_BYTES + m))
               else Parse(b, false).Err?
  {
    FrameCodec();
    ScanOfCut(EncodeFrame, ReadFrameHeader, fs, m, HEADER_BYTES);
    var whole := Whole(EncodeFrame, fs, m);
    HeaderParses(ReadFrameHeader, EncodeFrames(fs)[..m], whole, m == |EncodeFrames(whole)|);
  }

  /** The frames in `WholeIn` are the longest run of leading frames that fits in the cut. */
  lemma WholeInIsLargest(fs: seq<Frame>, cut: nat)
    requires HEADER_BYTES <= cut
    ensures |EncodeFile(WholeIn(fs, cut))| <= cut
    ensures WholeIn(fs, cut) <= fs
    ensures forall longer: seq<Frame> :: WholeIn(fs, cut) < longer <= fs ==> |EncodeFile(longer)| > cut
  {
    var k := FramesWithin(EncodeFrame, fs, cut - HEADER_BYTES);
    FramesWithinIsLargest(EncodeFrame, fs, cut - HEADER_BYTES);
    forall longer: seq<Frame> | WholeIn(fs, cut) < longer <= fs ensures |EncodeFile(longer)| > cut {
      assert longer == longer[..k + 1] + longer[k + 1..];
      EncodeAppend(EncodeFrame, longer[..k + 1], longer[k + 1..]);
      assert longer[..k + 1] == fs[..k + 1];
      EncodeLast(EncodeFrame, fs, k);
    }
  }

  /** Inside the header no parse succeeds, in either mode. */
  lemma HeaderTruncation(fs: seq<Frame>, cut: nat, lenient: bool)
    requires cut < HEADER_BYTES
    ensures Parse(EncodeFile(fs)[..cut], lenient) == Err(if cut < 8 then InvalidMagic else UnexpectedEof)
  {
    if cut >= 8 {
      assert EncodeFile(fs)[..cut][..8] == FileHeader()[..8] == MAGIC;
    }
  }

  /** What a parse makes of a file's first 12 bytes, in either mode: it goes on if and only if they are the
      header that a writer writes. */
  lemma HeaderChecks(b: seq<byte>, lenient: bool)
    ensures !(MagicBytes() <= b) <==> Parse(b, lenient) == Err(InvalidMagic)
    ensures MagicBytes() <= b && |b| < 12 ==> Parse(b, lenient) == Err(UnexpectedEof)
    ensures MagicBytes() <= b && |b| >= 12 && b[8..12] != [0, 0, 0, 1] <==> Parse(b, lenient) == Err(UnsupportedVersion)
  {
    if |b| >= 12 {
      VersionBytes(b[8..12]);
      ScanErrors(b[12..], 12, lenient);
    }
  }

  function MagicBytes(): seq<byte> {
    [0xB0, 0x4C, 0x4F, 0x47, 0x4E, 0x41, 0x56, 0xE9]
  }

  lemma VersionBytes(v: seq<byte>)
    requires |v| == 4
    ensures GetUint(v) == 1 <==> v == [0, 0, 0, 1]
  {
    assert GetUint(v) == 0x100 * GetUint(v[..3]) + v[3] as nat;
    assert v[..3][..2] == v[..2] && v[..2][..1] == v[..1] && v[..1][..0] == [];
    assert GetUint(v[..3]) == 0x100 * GetUint(v[..2]) + v[2] as nat;
    assert GetUint(v[..2]) == 0x100 * GetUint(v[..1]) + v[1] as nat;
    assert GetUint(v[..1]) == v[0] as nat;
  }

  lemma {:induction false} ScanErrors(rest: seq<byte>, at: nat, lenient: bool)
    ensures ScanWith(ReadFrameHeader, rest, at, lenient) != Failed(InvalidMagic)
    ensures ScanWith(ReadFrameHeader, rest, at, lenient) != Failed(UnsupportedVersion)
    decreases |rest|
  {
    match ReadFrameHeader(rest)
    case AtEnd =>
    case Bad(_) =>
    case Head(name, size) =>
      if 6 + |name| + size <= |rest| {
        ScanErrors(rest[6 + |name| + size..], at + 6 + |name| + size, lenient);
      }
  }

  /** Whole frames and then something that is not one: a lenient parse lists the frames, and a strict parse
      says what is wrong with the rest. */
  lemma Damaged(fs: seq<Frame>, tail: seq<byte>)
    requires AllEncodable(fs)
    requires match ReadFrameHeader(tail)
             case AtEnd => false
             case Bad(_) => true
             case Head(name, size) => 6 + |name| + size > |tail|
    ensures var b := EncodeFile(fs) + tail;
            && Parse(b, true) == Ok(Listing(fs, |b|))
            && Parse(b, false) == Err(match ReadFrameHeader(tail) case Bad(e) => e case _ => PastEnd)
  {
    var refs := RefsAt(EncodeFrame, HEADER_BYTES, fs);
    FrameCodec();
    Associative(FileHeader(), EncodeFrames(fs), tail);
    DamagedScan(fs, tail, true);
    DamagedScan(fs, tail, false);
    PrependEnd(refs);
    BehindHeader(EncodeFrames(fs) + tail, true);
    BehindHeader(EncodeFrames(fs) + tail, false);
    hide ScanWith, Parse, EncodeFrames, ReadFrameHeader, Codec;
  }

  lemma DamagedScan(fs: seq<Frame>, tail: seq<byte>, lenient: bool)
    requires AllEncodable(fs)
    requires match ReadFrameHeader(tail)
             case AtEnd => false
             case Bad(_) => true
             case Head(name, size) => 6 + |name| + size > |tail|
    ensures ScanWith(ReadFrameHeader, EncodeFrames(fs) + tail, HEADER_BYTES, lenient)
            == if lenient then Prepend(RefsAt(EncodeFrame, HEADER_BYTES, fs), Refs([]))
               else Failed(match ReadFrameHeader(tail) case Bad(e) => e case _ => PastEnd)
  {
    FrameCodec();
    ScanPast(EncodeFrame, ReadFrameHeader, fs, tail, HEADER_BYTES, lenient);
  }

  /** What a parse makes of what follows a good header. */
  lemma BehindHeader(rest: seq<byte>, lenient: bool)
    ensures Parse(FileHeader() + rest, lenient)
            == match Tabulate(ScanWith(ReadFrameHeader, rest, HEADER_BYTES, lenient))
               case Err(e) => Err(e)
               case Ok(t) => Ok(Parsed(CURRENT_VERSION, t.index, t.names, HEADER_BYTES + |rest|))
  {
    var b := FileHeader() + rest;
    assert b[..8] == MAGIC && b[8..12] == PutUint(CURRENT_VERSION, 4) && b[HEADER_BYTES..] == rest;
    assert Range(1) == 0x100 && Range(2) == 0x1_0000;
    UintRoundTrip(CURRENT_VERSION, 4);
  }

  /** So a strict parse of a file that ends inside a frame says where it ends: inside the frame's header, or
      inside its content. */
  lemma TornError(fs: seq<Frame>, f: Frame, m: nat)
    requires AllEncodable(fs) && Encodable(f) && 0 < m < |EncodeFrame(f)|
    ensures Parse(EncodeFile(fs) + EncodeFrame(f)[..m], false)
            == Err(if m < 6 + |f.name| then UnexpectedEof else PastEnd)
  {
    HeaderOfTorn(f, m);
    Damaged(fs, EncodeFrame(f)[..m]);
  }

  // ---------------------------------------------------------------- contents

  predicate DistinctNames(fs: seq<Frame>) {
    forall i, j :: 0 <= i < j < |fs| ==> fs[i].name != fs[j].name
  }

  function FrameNames(fs: seq<Frame>): (r: seq<seq<byte>>)
    ensures |r| == |fs|
  {
    seq(|fs|, i requires 0 <= i < |fs| => fs[i].name)
  }

  /** The index has the last frame of a name. */
  lemma {:induction false} IndexOfLast(refs: seq<NamedRef>, i: nat)
    requires i < |refs| && forall j :: i < j < |refs| ==> refs[j].name != refs[i].name
    ensures refs[i].name in IndexOf(refs) && IndexOf(refs)[refs[i].name] == refs[i].ref
  {
    if i == |refs| - 1 {
    } else {
      IndexOfLast(refs[..|refs| - 1], i);
    }
  }

  lemma ListingNames(enc: Encoder, at: nat, fs: seq<Frame>)
    ensures |RefsAt(enc, at, fs)| == |fs| && NamesOf(RefsAt(enc, at, fs)) == FrameNames(fs)
    ensures forall i :: 0 <= i < |fs| ==> RefsAt(enc, at, fs)[i].name == fs[i].name
  {
    forall i | 0 <= i < |fs| ensures |RefsAt(enc, at, fs)| == |fs| && RefsAt(enc, at, fs)[i].name == fs[i].name {
      RefsAtLookup(enc, at, fs, i);
    }
  }

  /** Where frame `i` lies in a file that begins with the encoding of `fs`. */
  lemma ContentAt(fs: seq<Frame>, b: seq<byte>, i: nat)
    requires i < |fs| && EncodeFile(fs) <= b
    ensures var ref := RefOf(HEADER_BYTES + |EncodeFrames(fs[..i])|, fs[i]).ref;
            ref.offset + ref.size <= |b| && b[ref.offset..ref.offset + ref.size] == fs[i].content
  {
    var pre, e, post := EncodeFrames(fs[..i]), EncodeFrame(fs[i]), EncodeFrames(fs[i..][1..]);
    assert fs == fs[..i] + fs[i..];
    EncodeAppend(EncodeFrame, fs[..i], fs[i..]);
    Associative(FileHeader(), pre, e + post);
    FrameLayout(fs[i]);
    SliceOfMiddle(FileHeader() + pre, e, post, b, 6 + |fs[i].name|);
  }

  /** A reader's view of `fs` in file `b`: the names in order, the index, and every content. */
  ghost predicate Holds(p: Parsed, fs: seq<Frame>, b: seq<byte>) {
    && p == Listing(fs, |b|)
    && p.names == FrameNames(fs)
    && forall i :: 0 <= i < |fs| ==> ReadFrame(b, p.index, fs[i].name) == Ok(fs[i].content)
  }

  lemma FrameReadsBack(fs: seq<Frame>, b: seq<byte>, i: nat)
    requires DistinctNames(fs) && EncodeFile(fs) <= b && i < |fs|
    ensures ReadFrame(b, Listing(fs, |b|).index, fs[i].name) == Ok(fs[i].content)
  {
    ListingNames(EncodeFrame, HEADER_BYTES, fs);
    RefsAtLookup(EncodeFrame, HEADER_BYTES, fs, i);
    IndexOfLast(RefsAt(EncodeFrame, HEADER_BYTES, fs), i);
    ContentAt(fs, b, i);
  }

  lemma {:induction false} IndexOfNames(refs: seq<NamedRef>, name: seq<byte>)
    ensures name in IndexOf(refs) <==> name in NamesOf(refs)
  {
    if refs == [] {
    } else {
      var front := refs[..|refs| - 1];
      IndexOfNames(front, name);
      assert NamesOf(refs) == NamesOf(front) + [refs[|refs| - 1].name];
    }
  }

  /** A frame is not found if and only if there is none of the name, and cannot be read if the file has been
      cut short since. */
  lemma ReadMisses(fs: seq<Frame>, b: seq<byte>, i: nat, name: seq<byte>)
    requires DistinctNames(fs)
    ensures var index := Listing(fs, |b|).index;
            && (ReadFrame(b, index, name) == Err(FrameDoesNotExist) <==> name !in FrameNames(fs))
            && (i < |fs| && |b| < |EncodeFile(fs[..i])| + |EncodeFrame(fs[i])| ==>
                  ReadFrame(b, index, fs[i].name) == Err(UnexpectedEof))
  {
    ListingNames(EncodeFrame, HEADER_BYTES, fs);
    IndexOfNames(RefsAt(EncodeFrame, HEADER_BYTES, fs), name);
    if i < |fs| {
      RefsAtLookup(EncodeFrame, HEADER_BYTES, fs, i);
      IndexOfLast(RefsAt(EncodeFrame, HEADER_BYTES, fs), i);
    }
  }

  lemma ListingHolds(fs: seq<Frame>, b: seq<byte>)
    requires DistinctNames(fs) && EncodeFile(fs) <= b
    ensures Holds(Listing(fs, |b|), fs, b)
  {
    ListingNames(EncodeFrame, HEADER_BYTES, fs);
    forall i | 0 <= i < |fs| ensures ReadFrame(b, Listing(fs, |b|).index, fs[i].name) == Ok(fs[i].content) {
      FrameReadsBack(fs, b, i);
    }
  }

  /** Print/parse inversion: a strict parse of what was written returns the same frames. */
  lemma WriteParseInversion(fs: seq<Frame>)
    requires AllEncodable(fs) && DistinctNames(fs)
    ensures Parse(EncodeFile(fs), false).Ok?
    ensures Holds(Parse(EncodeFile(fs), false).value, fs, EncodeFile(fs))
  {
    FrameCodec();
    ScanWhole(EncodeFrame, ReadFrameHeader, fs, HEADER_BYTES);
    HeaderParses(ReadFrameHeader, EncodeFrames(fs), fs, true);
    ListingHolds(fs, EncodeFile(fs));
  }

  /** The extra frame is all there. */
  lemma RecoverAll(fs: seq<Frame>)
    requires AllEncodable(fs) && DistinctNames(fs)
    ensures Parse(EncodeFile(fs), true) == Ok(Listing(fs, |EncodeFile(fs)|))
  {
    FrameCodec();
    ScanWhole(EncodeFrame, ReadFrameHeader, fs, HEADER_BYTES);
    HeaderParses(ReadFrameHeader, EncodeFrames(fs), fs, true);
  }

  /** Only `m` bytes of the extra frame are there. */
  lemma RecoverTorn(acked: seq<Frame>, extra: Frame, m: nat)
    requires AllEncodable(acked) && Encodable(extra) && m < |EncodeFrame(extra)|
    ensures var disk := EncodeFile(acked) + EncodeFrame(extra)[..m];
            Parse(disk, true) == Ok(Listing(acked, |disk|))
  {
    FrameCodec();
    ScanWholeThenTorn(EncodeFrame, ReadFrameHeader, acked, extra, m, HEADER_BYTES);
    HeaderParses(ReadFrameHeader, EncodeFrames(acked) + EncodeFrame(extra)[..m], acked, m == 0);
    Associative(FileHeader(), EncodeFrames(acked), EncodeFrame(extra)[..m]);
  }

  lemma EncodeFileLast(acked: seq<Frame>, extra: Frame)
    ensures EncodeFile(acked + [extra]) == EncodeFile(acked) + EncodeFrame(extra)
  {
    EncodeAppend(EncodeFrame, acked, [extra]);
    EncodeOne(EncodeFrame, extra);
    Associative(FileHeader(), EncodeFrames(acked), EncodeFrame(extra));
  }

  /** Crash recovery. The disk holds the whole encoding of the acknowledged frames and any part
      of one more: a lenient parse returns every acknowledged frame, in order and with its exact
      content, and the extra frame exactly when all its bytes are there. */
  lemma CrashRecovery(acked: seq<Frame>, extra: Frame, disk: seq<byte>)
    requires AllEncodable(acked) && Encodable(extra) && DistinctNames(acked + [extra])
    requires EncodeFile(acked) <= disk <= EncodeFile(acked + [extra])
    ensures Parse(disk, true).Ok?
    ensures Holds(Parse(disk, true).value,
                  if disk == EncodeFile(acked + [extra]) then acked + [extra] else acked, disk)
  {
    EncodeFileLast(acked, extra);
    TornDisk(EncodeFile(acked), EncodeFrame(extra), disk);
    if |disk| == |EncodeFile(acked + [extra])| {
      assert forall f :: f in acked + [extra] ==> f in acked || f == extra;
      RecoverAll(acked + [extra]);
      ListingHolds(acked + [extra], disk);
    } else {
      RecoverTorn(acked, extra, |disk| - |EncodeFile(acked)|);
      assert forall i :: 0 <= i < |acked| ==> (acked + [extra])[i] == acked[i];
      ListingHolds(acked, disk);
    }
  }

  lemma TornDisk<T>(before: seq<T>, e: seq<T>, disk: seq<T>)
    requires before <= disk <= before + e
    ensures disk == before + e[..|disk| - |before|]
    ensures disk == before + e <==> |disk| == |before + e|
  {
    assert disk == (before + e)[..|disk|];
  }
}
