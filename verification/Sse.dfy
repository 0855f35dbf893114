/** The reader of the query service's event stream: comments, `data: ` lines that accumulate, and
    blank lines that deliver what has accumulated. A subset of server-sent events as in sections
    9.2.5 and 9.2.6 of the WHATWG HTML Living Standard: any other line is an error here, only LF ends
    a line, and a payload keeps the LF of its last line. */
module Sse {
  import opened Framing

  const LF: byte := 10
  const COLON: byte := 58
  const DATA_PREFIX: seq<byte> := [100, 97, 116, 97, 58, 32]

  datatype Event = Payload(data: seq<byte>) | KeepAlive

  /** What onData answers. */
  datatype Verdict = Continue | Stop | Fail

  /** Why the reader returned; the last three are errors. */
  datatype End = Finished | Stopped | Cancelled | ReadFailed | HandlerFailed | UnknownLine

  /** What surrounds a read: onData's answer to the events so far, whether the context is done after
      so many lines, and whether the input ends in a read error. */
  datatype Env = Env(verdict: seq<Event> -> Verdict, done: nat -> bool, broken: bool)

  predicate IsPrefix(p: seq<byte>, s: seq<byte>) {
    |p| <= |s| && s[..|p|] == p
  }

  /** Position of the first LF, or |s|. */
  function LineEnd(s: seq<byte>): (i: nat)
    ensures i <= |s| && LF !in s[..i] && (i < |s| ==> s[i] == LF)
  {
    if s == [] || s[0] == LF then 0
    else
      var i := LineEnd(s[1..]);
      assert s[..i + 1] == [s[0]] + s[1..][..i];
      i + 1
  }

  /** What one complete line leads to. */
  datatype Step = More(buf: seq<byte>, events: seq<Event>) | Over(events: seq<Event>, end: End)

  function ReadLine(line: seq<byte>, buf: seq<byte>, events: seq<Event>, verdict: seq<Event> -> Verdict): Step {
    if IsPrefix([COLON], line) then More(buf, events)
    else if IsPrefix(DATA_PREFIX, line) then More(buf + line[|DATA_PREFIX|..], events)
    else if line != [LF] then Over(events, UnknownLine)
    else if buf == [] then More(buf, events + [KeepAlive])
    else
      var delivered := events + [Payload(buf)];
      match verdict(delivered)
      case Fail => Over(delivered, HandlerFailed)
      case Stop => Over(delivered, Stopped)
      case Continue => More([], delivered)
  }

  /** What the reader delivers from `s`, with `buf` accumulated, `lines` lines read and `events`
      delivered already. */
  function Read(s: seq<byte>, buf: seq<byte>, lines: nat, events: seq<Event>, env: Env): (seq<Event>, End)
    decreases |s|
  {
    var i := LineEnd(s);
    if env.done(lines) then (events, Cancelled)
    else if i == |s| then (events, if env.broken then ReadFailed else Finished)
    else match ReadLine(s[..i + 1], buf, events, env.verdict)
      case Over(es, end) => (es, end)
      case More(b, es) => Read(s[i + 1..], b, lines + 1, es, env)
  }

  /** readSSEEvents. */
  method ReadEvents(input: seq<byte>, env: Env) returns (events: seq<Event>, end: End)
    ensures (events, end) == Read(input, [], 0, [], env)
  {
    var rest, buf, lines := input, [], 0;
    events := [];
    while true
      invariant Read(input, [], 0, [], env) == Read(rest, buf, lines, events, env)
      decreases |rest|
    {
      if env.done(lines) {
        return events, Cancelled;
      }
      var i := LineEnd(rest);
      if i == |rest| {
        return events, if env.broken then ReadFailed else Finished;
      }
      var line := rest[..i + 1];
      ghost var step := ReadLine(line, buf, events, env.verdict);
      rest, lines := rest[i + 1..], lines + 1;
      if IsPrefix([COLON], line) {
      } else if IsPrefix(DATA_PREFIX, line) {
        buf := buf + line[|DATA_PREFIX|..];
      } else if line == [LF] {
        if buf == [] {
          events := events + [KeepAlive];
          assert step == More(buf, events);
          continue;
        }
        events := events + [Payload(buf)];
        match env.verdict(events) {
          case Fail => return events, HandlerFailed;
          case Stop => return events, Stopped;
          case Continue => buf := [];
        }
      } else {
        return events, UnknownLine;
      }
      assert step == More(buf, events);
    }
  }

  // ---------------------------------------------------------------- prefixes

  lemma {:induction false} EventsGrow(s: seq<byte>, buf: seq<byte>, lines: nat, events: seq<Event>, env: Env)
    ensures events <= Read(s, buf, lines, events, env).0
    decreases |s|
  {
    var i := LineEnd(s);
    if env.done(lines) || i >= |s| {
    } else {
      var step := ReadLine(s[..i + 1], buf, events, env.verdict);
      assert events <= step.events;
      if step.More? {
        EventsGrow(s[i + 1..], step.buf, lines + 1, step.events, env);
      }
    }
  }

  lemma {:induction false} LineEndOfCut(s: seq<byte>, cut: nat)
    requires cut <= |s|
    ensures LineEnd(s[..cut]) == if cut <= LineEnd(s) then cut else LineEnd(s)
    ensures LF !in s[cut..] ==> cut > LineEnd(s) || LineEnd(s) == |s|
  {
    var i, j := LineEnd(s), LineEnd(s[..cut]);
    assert j < cut ==> s[j] == LF;
    forall k | 0 <= k < i ensures s[k] != LF {
      assert s[k] in s[..i];
    }
    forall k | 0 <= k < j ensures s[k] != LF {
      assert s[k] in s[..cut][..j];
    }
    assert cut <= i < |s| ==> s[cut..][i - cut] == LF;
  }

  lemma SliceOfSlice<T>(s: seq<T>, i: nat, cut: nat)
    requires i <= cut <= |s|
    ensures s[..cut][..i] == s[..i] && s[..cut][i..] == s[i..][..cut - i] && s[cut..] == s[i..][cut - i..]
  {
  }

  /** Cutting a stream anywhere cuts the deliveries: they are a prefix of those of the whole
      stream. */
  lemma {:induction false} CutDeliversPrefix(s: seq<byte>, cut: nat, buf: seq<byte>, lines: nat, events: seq<Event>,
                                             env: Env)
    requires cut <= |s|
    ensures Read(s[..cut], buf, lines, events, env).0 <= Read(s, buf, lines, events, env).0
    decreases |s|
  {
    var i := LineEnd(s);
    LineEndOfCut(s, cut);
    if env.done(lines) || cut <= i {
      EventsGrow(s, buf, lines, events, env);
    } else {
      FirstLineOfCut(s, cut, buf, lines, events, env);
      var step := ReadLine(s[..i + 1], buf, events, env.verdict);
      if step.More? {
        CutDeliversPrefix(s[i + 1..], cut - i - 1, step.buf, lines + 1, step.events, env);
      }
    }
  }

  /** A cut behind the first line leaves that line's step alone. */
  lemma FirstLineOfCut(s: seq<byte>, cut: nat, buf: seq<byte>, lines: nat, events: seq<Event>,
                       env: Env)
    requires LineEnd(s) < cut <= |s| && !env.done(lines)
    ensures var i := LineEnd(s);
            var step := ReadLine(s[..i + 1], buf, events, env.verdict);
            && Read(s, buf, lines, events, env)
               == (match step
                   case Over(es, end) => (es, end)
                   case More(b, es) => Read(s[i + 1..], b, lines + 1, es, env))
            && Read(s[..cut], buf, lines, events, env)
               == (match step
                   case Over(es, end) => (es, end)
                   case More(b, es) => Read(s[i + 1..][..cut - i - 1], b, lines + 1, es, env))
  {
    LineEndOfCut(s, cut);
    SliceOfSlice(s, LineEnd(s) + 1, cut);
  }

  /** An unfinished last line changes nothing. */
  lemma {:induction false} UnfinishedLine(s: seq<byte>, cut: nat, buf: seq<byte>, lines: nat, events: seq<Event>,
                                          env: Env)
    requires cut <= |s| && LF !in s[cut..]
    ensures Read(s[..cut], buf, lines, events, env) == Read(s, buf, lines, events, env)
    decreases |s|
  {
    var i := LineEnd(s);
    LineEndOfCut(s, cut);
    if env.done(lines) || i >= cut {
    } else {
      var step := ReadLine(s[..i + 1], buf, events, env.verdict);
      FirstLineOfCut(s, cut, buf, lines, events, env);
      SliceOfSlice(s, i + 1, cut);
      if step.More? {
        UnfinishedLine(s[i + 1..], cut - i - 1, step.buf, lines + 1, step.events, env);
      }
    }
  }

  // ---------------------------------------------------------------- payloads there and back

  /** A line of a well-formed stream, without its LF and, for data, without its prefix: a colon starts a
      comment, and `data`, a colon and a space start a line of a payload. */
  datatype Token = Comment(text: seq<byte>) | Data(text: seq<byte>) | Blank

  function LineOf(t: Token): seq<byte> {
    match t
    case Comment(text) => [58] + text + [10]
    case Data(text) => [100, 97, 116, 97, 58, 32] + text + [10]
    case Blank => [10]
  }

  function Wire(ts: seq<Token>): seq<byte> {
    if ts == [] then [] else LineOf(ts[0]) + Wire(ts[1..])
  }

  predicate OneLine(t: Token) {
    t.Blank? || LF !in t.text
  }

  /** A handler that always goes on, in a context that is never done. */
  ghost predicate Steady(env: Env) {
    (forall es :: env.verdict(es) == Continue) && (forall n :: !env.done(n)) && !env.broken
  }

  /** The deliveries of a stream of lines. */
  function Delivered(ts: seq<Token>, buf: seq<byte>, events: seq<Event>): seq<Event>
    decreases |ts|
  {
    if ts == [] then events
    else match ts[0]
      case Comment(_) => Delivered(ts[1..], buf, events)
      case Data(text) => Delivered(ts[1..], buf + (text + [LF]), events)
      case Blank => Delivered(ts[1..], [], events + [if buf == [] then KeepAlive else Payload(buf)])
  }

  lemma LineEndOfToken(t: Token, rest: seq<byte>)
    requires OneLine(t)
    ensures var s := LineOf(t) + rest;
            LineEnd(s) + 1 == |LineOf(t)| && s[..LineEnd(s) + 1] == LineOf(t) && s[LineEnd(s) + 1..] == rest
  {
    var line := LineOf(t);
    var s, n := line + rest, |line| - 1;
    var i := LineEnd(s);
    assert s[n] == LF;
    forall k | 0 <= k < n ensures s[k] != LF {
      assert s[k] == line[k];
      if k >= n - |(if t.Blank? then [] else t.text)| {
        assert line[k] in t.text;
      }
    }
    forall k | 0 <= k < i ensures s[k] != LF {
      assert s[k] in s[..i];
    }
  }

  lemma TokenStep(t: Token, buf: seq<byte>, events: seq<Event>, verdict: seq<Event> -> Verdict)
    requires forall es :: verdict(es) == Continue
    ensures ReadLine(LineOf(t), buf, events, verdict)
            == match t
               case Comment(_) => More(buf, events)
               case Data(text) => More(buf + (text + [LF]), events)
               case Blank => More([], events + [if buf == [] then KeepAlive else Payload(buf)])
  {
    match t
    case Comment(text) => assert LineOf(t)[..1] == [COLON];
    case Data(text) => assert LineOf(t)[..6] == DATA_PREFIX && LineOf(t)[6..] == text + [LF] && LineOf(t)[..1] == [100];
    case Blank => assert LineOf(t)[..1] == [LF];
  }

  /** The reader delivers exactly what the lines say. */
  lemma {:induction false} ReadsTokens(ts: seq<Token>, buf: seq<byte>, lines: nat, events: seq<Event>, env: Env)
    requires Steady(env) && forall i :: 0 <= i < |ts| ==> OneLine(ts[i])
    ensures Read(Wire(ts), buf, lines, events, env) == (Delivered(ts, buf, events), Finished)
    decreases |ts|
  {
    if ts == [] {
    } else {
      LineEndOfToken(ts[0], Wire(ts[1..]));
      TokenStep(ts[0], buf, events, env.verdict);
      var step := ReadLine(LineOf(ts[0]), buf, events, env.verdict);
      ReadsTokens(ts[1..], step.buf, lines + 1, step.events, env);
    }
  }

  function WithoutComments(ts: seq<Token>): seq<Token> {
    if ts == [] then []
    else if ts[0].Comment? then WithoutComments(ts[1..])
    else [ts[0]] + WithoutComments(ts[1..])
  }

  lemma {:induction false} CommentsIgnored(ts: seq<Token>, buf: seq<byte>, events: seq<Event>)
    ensures Delivered(ts, buf, events) == Delivered(WithoutComments(ts), buf, events)
    decreases |ts|
  {
    if ts == [] {
    } else {
      match ts[0]
      case Comment(_) => CommentsIgnored(ts[1..], buf, events);
      case Data(text) => CommentsIgnored(ts[1..], buf + (text + [LF]), events);
      case Blank => CommentsIgnored(ts[1..], [], events + [if buf == [] then KeepAlive else Payload(buf)]);
    }
  }

  predicate Terminated(p: seq<byte>) {
    p != [] && p[|p| - 1] == LF
  }

  /** A data line for each line of the payload. */
  function Encode(p: seq<byte>): (ts: seq<Token>)
    requires p == [] || Terminated(p)
    ensures forall i :: 0 <= i < |ts| ==> OneLine(ts[i])
    decreases |p|
  {
    if p == [] then []
    else
      var i := LineEnd(p);
      assert LF in p;
      [Data(p[..i])] + Encode(p[i + 1..])
  }

  function EncodeMessages(ps: seq<seq<byte>>): seq<Token>
    requires forall i :: 0 <= i < |ps| ==> Terminated(ps[i])
  {
    if ps == [] then [] else Encode(ps[0]) + [Blank] + EncodeMessages(ps[1..])
  }

  function Payloads(ps: seq<seq<byte>>): seq<Event> {
    if ps == [] then [] else [Payload(ps[0])] + Payloads(ps[1..])
  }

  lemma FirstOfThree<T>(x: T, a: seq<T>, b: seq<T>, c: seq<T>)
    ensures ([x] + a + b + c)[0] == x && ([x] + a + b + c)[1..] == a + b + c
  {
  }

  lemma {:induction false} FirstLine(p: seq<byte>)
    requires Terminated(p)
    ensures var i := LineEnd(p);
            && i < |p| && p == (p[..i] + [LF]) + p[i + 1..] && (p[i + 1..] == [] || Terminated(p[i + 1..]))
            && Encode(p) == [Data(p[..i])] + Encode(p[i + 1..])
  {
    assert LF in p;
  }

  lemma {:induction false} DeliversOne(p: seq<byte>, rest: seq<Token>, buf: seq<byte>, events: seq<Event>)
    requires (p == [] || Terminated(p)) && buf + p != []
    ensures Delivered(Encode(p) + [Blank] + rest, buf, events) == Delivered(rest, [], events + [Payload(buf + p)])
    decreases |p|
  {
    if p == [] {
      FirstOfThree(Blank, [], [], rest);
      assert Encode(p) + [Blank] + rest == [Blank] + [] + [] + rest && [] + [] + rest == rest && buf + p == buf;
    } else {
      var i := LineEnd(p);
      FirstLine(p);
      var more := p[i + 1..];
      calc {
        Delivered(Encode(p) + [Blank] + rest, buf, events);
        { FirstOfThree(Data(p[..i]), Encode(more), [Blank], rest); }
        Delivered(Encode(more) + [Blank] + rest, buf + (p[..i] + [LF]), events);
        { DeliversOne(more, rest, buf + (p[..i] + [LF]), events); }
        Delivered(rest, [], events + [Payload(buf + (p[..i] + [LF]) + more)]);
        { Associative(buf, p[..i] + [LF], more); }
        Delivered(rest, [], events + [Payload(buf + p)]);
      }
    }
  }

  lemma DeliversFirst(ps: seq<seq<byte>>, events: seq<Event>)
    requires ps != [] && forall i :: 0 <= i < |ps| ==> Terminated(ps[i])
    ensures Delivered(EncodeMessages(ps), [], events)
            == Delivered(EncodeMessages(ps[1..]), [], events + [Payload(ps[0])])
  {
    hide Delivered, Encode;
    assert [] + ps[0] == ps[0];
    DeliversOne(ps[0], EncodeMessages(ps[1..]), [], events);
  }

  lemma PayloadsMore(ps: seq<seq<byte>>, events: seq<Event>)
    requires ps != []
    ensures events + [Payload(ps[0])] + Payloads(ps[1..]) == events + Payloads(ps)
  {
  }

  lemma {:induction false} DeliversAll(ps: seq<seq<byte>>, events: seq<Event>)
    requires forall i :: 0 <= i < |ps| ==> Terminated(ps[i])
    ensures Delivered(EncodeMessages(ps), [], events) == events + Payloads(ps)
    decreases |ps|
  {
    if ps == [] {
      assert events + [] == events;
    } else {
      DeliversFirst(ps, events);
      DeliversAll(ps[1..], events + [Payload(ps[0])]);
      PayloadsMore(ps, events);
      hide Delivered, EncodeMessages, Payloads;
    }
  }

  /** Any list of LF-terminated payloads, sent with any comments anywhere between the lines, is
      delivered exactly, in order, with nothing else. */
  lemma RoundTrip(ts: seq<Token>, ps: seq<seq<byte>>, buf: seq<byte>, lines: nat,
                  events: seq<Event>, env: Env)
    requires Steady(env) && buf == []
    requires forall i :: 0 <= i < |ps| ==> Terminated(ps[i])
    requires WithoutComments(ts) == EncodeMessages(ps) && forall i :: 0 <= i < |ts| ==> OneLine(ts[i])
    ensures Read(Wire(ts), buf, lines, events, env) == (events + Payloads(ps), Finished)
  {
    ReadsTokens(ts, buf, lines, events, env);
    CommentsIgnored(ts, buf, events);
    DeliversAll(ps, events);
  }

  predicate WellFormed(es: seq<Event>) {
    forall i :: 0 <= i < |es| && es[i].Payload? ==> Terminated(es[i].data)
  }

  lemma LineKeepsTerminated(line: seq<byte>, buf: seq<byte>, events: seq<Event>,
                            verdict: seq<Event> -> Verdict)
    requires Terminated(line) && (buf == [] || Terminated(buf)) && WellFormed(events)
    ensures var step := ReadLine(line, buf, events, verdict);
            WellFormed(step.events) && (step.More? ==> step.buf == [] || Terminated(step.buf))
  {
    if IsPrefix(DATA_PREFIX, line) {
      assert line[..6][5] == 32;
    }
  }

  /** Only such payloads are ever delivered, whatever the stream. */
  lemma {:induction false} OnlyTerminated(s: seq<byte>, buf: seq<byte>, lines: nat, events: seq<Event>, env: Env)
    requires (buf == [] || Terminated(buf)) && WellFormed(events)
    ensures WellFormed(Read(s, buf, lines, events, env).0)
    decreases |s|
  {
    var i := LineEnd(s);
    if env.done(lines) || i >= |s| {
    } else {
      var step := ReadLine(s[..i + 1], buf, events, env.verdict);
      LineKeepsTerminated(s[..i + 1], buf, events, env.verdict);
      if step.More? {
        OnlyTerminated(s[i + 1..], step.buf, lines + 1, step.events, env);
      }
    }
  }

  // ---------------------------------------------------------------- how a reading ends

  /** What has accumulated after a stream of lines. */
  function Accumulated(ts: seq<Token>, buf: seq<byte>): seq<byte>
    decreases |ts|
  {
    if ts == [] then buf
    else match ts[0]
      case Comment(_) => Accumulated(ts[1..], buf)
      case Data(text) => Accumulated(ts[1..], buf + (text + [LF]))
      case Blank => Accumulated(ts[1..], [])
  }

  /** The handler lets the reader go on after each event of `es` from the `n`th on that it is asked about. */
  ghost predicate GoesOn(env: Env, es: seq<Event>, n: nat) {
    forall k :: n < k <= |es| && es[k - 1].Payload? ==> env.verdict(es[..k]) == Continue
  }

  lemma {:induction false} DeliveredGrows(ts: seq<Token>, buf: seq<byte>, events: seq<Event>)
    ensures events <= Delivered(ts, buf, events)
    decreases |ts|
  {
    if ts == [] {
    } else {
      match ts[0]
      case Comment(_) => DeliveredGrows(ts[1..], buf, events);
      case Data(text) => DeliveredGrows(ts[1..], buf + (text + [LF]), events);
      case Blank => DeliveredGrows(ts[1..], [], events + [if buf == [] then KeepAlive else Payload(buf)]);
    }
  }

  /** Where the reader is: what is left, and what it has gathered. */
  datatype Place = At(rest: seq<byte>, buf: seq<byte>, lines: nat, events: seq<Event>)

  type Reading = Place -> (seq<Event>, End)

  function Reader(env: Env): Reading {
    (p: Place) => Read(p.rest, p.buf, p.lines, p.events, env)
  }

  /** A reading that takes a line at a time. */
  ghost predicate LineByLine(read: Reading, env: Env) {
    forall t, tail, buf, lines, events :: Passes(t, buf, lines, events, env) ==>
      read(At(LineOf(t) + tail, buf, lines, events)) == read(AfterLine(t, tail, buf, lines, events))
  }

  /** The reader goes on behind the line. */
  predicate Passes(t: Token, buf: seq<byte>, lines: nat, events: seq<Event>, env: Env) {
    && OneLine(t) && !env.done(lines)
    && (t.Blank? && buf != [] ==> env.verdict(events + [Payload(buf)]) == Continue)
  }

  function AfterLine(t: Token, tail: seq<byte>, buf: seq<byte>, lines: nat, events: seq<Event>): Place {
    At(tail, BufAfter(t, buf), lines + 1, EventsAfter(t, buf, events))
  }

  /** While the handler lets it go on and the context is not done, the reader goes through a stream of lines
      and comes to what follows it, whatever that is. */
  lemma {:induction false} ReadsThrough(read: Reading, ts: seq<Token>, rest: seq<byte>, buf: seq<byte>, lines: nat,
                                        events: seq<Event>, env: Env)
    requires LineByLine(read, env)
    requires forall t :: t in ts ==> OneLine(t)
    requires forall n :: lines <= n < lines + |ts| ==> !env.done(n)
    requires GoesOn(env, Delivered(ts, buf, events), |events|)
    ensures read(At(Wire(ts) + rest, buf, lines, events))
            == read(At(rest, Accumulated(ts, buf), lines + |ts|, Delivered(ts, buf, events)))
    decreases |ts|
  {
    if ts == [] {
      assert Wire(ts) + rest == rest;
    } else {
      var tail := Wire(ts[1..]) + rest;
      assert Wire(ts) + rest == LineOf(ts[0]) + tail;
      Asked(ts, buf, events, env);
      ReadsThrough(read, ts[1..], rest, BufAfter(ts[0], buf), lines + 1, EventsAfter(ts[0], buf, events), env);
      assert Passes(ts[0], buf, lines, events, env);
    }
  }

  /** If the handler lets the reader go on throughout, it does so at the first line. */
  lemma Asked(ts: seq<Token>, buf: seq<byte>, events: seq<Event>, env: Env)
    requires ts != [] && GoesOn(env, Delivered(ts, buf, events), |events|)
    ensures ts[0].Blank? && buf != [] ==> env.verdict(events + [Payload(buf)]) == Continue
    ensures Delivered(ts, buf, events) == Delivered(ts[1..], BufAfter(ts[0], buf), EventsAfter(ts[0], buf, events))
    ensures Accumulated(ts, buf) == Accumulated(ts[1..], BufAfter(ts[0], buf))
    ensures |events| <= |EventsAfter(ts[0], buf, events)|
  {
    var asked := events + [Payload(buf)];
    if ts[0].Blank? && buf != [] {
      DeliveredGrows(ts[1..], [], asked);
      assert Delivered(ts, buf, events)[..|asked|] == asked;
    }
  }

  function BufAfter(t: Token, buf: seq<byte>): seq<byte> {
    match t case Comment(_) => buf case Data(text) => buf + (text + [LF]) case Blank => []
  }

  function EventsAfter(t: Token, buf: seq<byte>, events: seq<Event>): seq<Event> {
    if t.Blank? then events + [if buf == [] then KeepAlive else Payload(buf)] else events
  }

  lemma ReaderLineByLine(env: Env)
    ensures LineByLine(Reader(env), env)
  {
    forall t, tail, buf, lines, events | Passes(t, buf, lines, events, env)
      ensures Reader(env)(At(LineOf(t) + tail, buf, lines, events))
              == Reader(env)(AfterLine(t, tail, buf, lines, events))
    {
      ReadsOneLine(t, tail, buf, lines, events, env);
      hide Read, LineOf, Passes;
    }
  }

  lemma ReadsOneLine(t: Token, tail: seq<byte>, buf: seq<byte>, lines: nat, events: seq<Event>, env: Env)
    requires Passes(t, buf, lines, events, env)
    ensures Read(LineOf(t) + tail, buf, lines, events, env)
            == Read(tail, BufAfter(t, buf), lines + 1, EventsAfter(t, buf, events), env)
  {
    LineEndOfToken(t, tail);
    OneTokenStep(t, buf, events, env.verdict);
    hide ReadLine, LineOf;
  }

  lemma OneTokenStep(t: Token, buf: seq<byte>, events: seq<Event>, verdict: seq<Event> -> Verdict)
    requires t.Blank? && buf != [] ==> verdict(events + [Payload(buf)]) == Continue
    ensures ReadLine(LineOf(t), buf, events, verdict)
            == match t
               case Comment(_) => More(buf, events)
               case Data(text) => More(buf + (text + [LF]), events)
               case Blank => More([], events + [if buf == [] then KeepAlive else Payload(buf)])
  {
    match t
    case Comment(text) => assert LineOf(t)[..1] == [COLON];
    case Data(text) => assert LineOf(t)[..6] == DATA_PREFIX && LineOf(t)[6..] == text + [LF] && LineOf(t)[..1] == [100];
    case Blank => assert LineOf(t)[..1] == [LF];
  }

  /** A line that is no comment, no data and not blank. */
  predicate Foreign(line: seq<byte>) {
    && line != [] && line[|line| - 1] == LF && LF !in line[..|line| - 1] && line != [LF]
    && line[0] != 58 && !(6 <= |line| && line[..6] == [100, 97, 116, 97, 58, 32])
  }

  /** Every way for the reading to end, behind any stream of lines: with nothing more than what these
      deliver, unless the handler is asked about one more payload. */
  lemma ReadingEnds(ts: seq<Token>, rest: seq<byte>, env: Env)
    requires (forall t :: t in ts ==> OneLine(t)) && forall n :: 0 <= n < |ts| ==> !env.done(n)
    requires GoesOn(env, Delivered(ts, [], []), 0)
    ensures EndsAt(Read(Wire(ts) + rest, [], 0, [], env), rest, Accumulated(ts, []), |ts|, Delivered(ts, [], []), env)
  {
    ReaderLineByLine(env);
    ReadsThrough(Reader(env), ts, rest, [], 0, [], env);
    EndsHere(rest, Accumulated(ts, []), |ts|, Delivered(ts, [], []), env);
  }

  /** The context is done, or the input ends without another line, or a line is none of the known ones, or a
      blank line has the handler asked, which fails or stops the reading. */
  ghost predicate EndsAt(read: (seq<Event>, End), rest: seq<byte>, buf: seq<byte>, lines: nat, events: seq<Event>,
                         env: Env) {
    var asked := events + [Payload(buf)];
    && (env.done(lines) ==> read == (events, Cancelled))
    && (!env.done(lines) && LF !in rest ==> read == (events, if env.broken then ReadFailed else Finished))
    && (!env.done(lines) && (exists n :: 0 < n <= |rest| && Foreign(rest[..n])) ==> read == (events, UnknownLine))
    && (!env.done(lines) && rest != [] && rest[0] == LF && buf != [] ==>
          && (env.verdict(asked) == Fail ==> read == (asked, HandlerFailed))
          && (env.verdict(asked) == Stop ==> read == (asked, Stopped)))
  }

  lemma EndsHere(rest: seq<byte>, buf: seq<byte>, lines: nat, events: seq<Event>, env: Env)
    ensures EndsAt(Read(rest, buf, lines, events, env), rest, buf, lines, events, env)
  {
    if n :| 0 < n <= |rest| && Foreign(rest[..n]) {
      ForeignLine(rest, n);
    }
    if rest != [] && rest[0] == LF {
      assert LineEnd(rest) == 0 && rest[..1] == [LF];
      assert !IsPrefix([COLON], [LF]) && !IsPrefix(DATA_PREFIX, [LF]) by {
        assert [LF][..1][0] == 10;
      }
    }
  }

  lemma ForeignLine(s: seq<byte>, n: nat)
    requires 0 < n <= |s| && Foreign(s[..n])
    ensures LineEnd(s) == n - 1 && LF in s
    ensures !IsPrefix([COLON], s[..n]) && !IsPrefix(DATA_PREFIX, s[..n])
  {
    var i := LineEnd(s);
    assert s[n - 1] == s[..n][n - 1] == LF;
    forall k | 0 <= k < n - 1 ensures s[k] != LF {
      assert s[..n][..n - 1][k] == s[k];
    }
    forall k | 0 <= k < i ensures s[k] != LF {
      assert s[..i][k] == s[k];
    }
    assert s[..n][..1] == [s[0]] && [COLON][0] == 58;
  }
}
