/** The bounded error ledger of one headless query member, the message bound, and the exit code of
    all members together. */
module ErrorLedger {
  import opened Framing
  import opened Options

  const MAX_DISTINCT: nat := 8
  const MAX_MESSAGE_BYTES: nat := 2048
  const ELLIPSIS: seq<byte> := [46, 46, 46]

  type Message = seq<byte>

  datatype Failure = NoFailure | Data | Unavailable | General

  datatype Issue = Issue(message: Message, count: nat)

  datatype Recorded = Recorded(message: Message, failure: Failure)

  // ---------------------------------------------------------------- the message bound

  /** Not a UTF-8 continuation byte. */
  predicate RuneStart(b: byte) {
    b < 0x80 || b >= 0xC0
  }

  /** The last position up to `limit` at which a rune starts, or 0. */
  function CutPoint(m: Message, limit: nat): (end: nat)
    requires limit < |m|
    ensures end <= limit && (end == 0 || RuneStart(m[end]))
    ensures forall k :: end < k <= limit ==> !RuneStart(m[k])
  {
    if limit == 0 || RuneStart(m[limit]) then limit else CutPoint(m, limit - 1)
  }

  function Bounded(m: Message): (r: Message)
    ensures |r| <= MAX_MESSAGE_BYTES
  {
    if |m| <= MAX_MESSAGE_BYTES then m
    else m[..CutPoint(m, MAX_MESSAGE_BYTES - |ELLIPSIS|)] + ELLIPSIS
  }

  method Bound(m: Message) returns (r: Message)
    ensures r == Bounded(m)
  {
    if |m| <= MAX_MESSAGE_BYTES {
      return m;
    }
    var end := MAX_MESSAGE_BYTES - |ELLIPSIS|;
    while end > 0 && !RuneStart(m[end])
      invariant 0 <= end < |m| && CutPoint(m, end) == CutPoint(m, MAX_MESSAGE_BYTES - |ELLIPSIS|)
    {
      end := end - 1;
    }
    r := m[..end] + ELLIPSIS;
  }

  /** A text as its runes: a first byte and continuation bytes. */
  predicate Rune(r: seq<byte>) {
    r != [] && RuneStart(r[0]) && forall k :: 1 <= k < |r| ==> !RuneStart(r[k])
  }

  function Text(runes: seq<seq<byte>>): Message {
    if runes == [] then [] else runes[0] + Text(runes[1..])
  }

  /** A cut of well-formed text at a cut point keeps whole runes. */
  lemma {:induction false} CutKeepsRunes(runes: seq<seq<byte>>, end: nat) returns (k: nat)
    requires forall i :: 0 <= i < |runes| ==> Rune(runes[i])
    requires end < |Text(runes)| && (end == 0 || RuneStart(Text(runes)[end]))
    ensures k <= |runes| && Text(runes)[..end] == Text(runes[..k])
    decreases |runes|
  {
    if end == 0 {
      return 0;
    }
    var first, rest := runes[0], runes[1..];
    assert Text(runes) == first + Text(rest);
    assert forall i :: 1 <= i < |first| ==> Text(runes)[i] == first[i] && !RuneStart(first[i]);
    var j := CutKeepsRunes(rest, end - |first|);
    k := j + 1;
    assert Text(runes)[..end] == first + Text(rest)[..end - |first|];
    assert runes[..k][1..] == rest[..j] && runes[..k][0] == first;
  }

  /** A Unicode code point, and its encoding: section 3 of RFC 3629. */
  type CodePoint = n: nat | n <= 0x10FFFF

  function Utf8(c: CodePoint): seq<byte> {
    if c < 0x80 then [c as byte]
    else if c < 0x800 then [(0xC0 + c / 64) as byte, (0x80 + c % 64) as byte]
    else if c < 0x10000 then [(0xE0 + c / 4096) as byte, (0x80 + c / 64 % 64) as byte, (0x80 + c % 64) as byte]
    else [(0xF0 + c / 262144) as byte, (0x80 + c / 4096 % 64) as byte, (0x80 + c / 64 % 64) as byte,
          (0x80 + c % 64) as byte]
  }

  function Encoded(points: seq<CodePoint>): seq<seq<byte>> {
    seq(|points|, i requires 0 <= i < |points| => Utf8(points[i]))
  }

  function Utf8Text(points: seq<CodePoint>): Message {
    Text(Encoded(points))
  }

  lemma Utf8Runes(points: seq<CodePoint>)
    ensures forall i :: 0 <= i < |points| ==> Rune(Encoded(points)[i])
  {
  }

  lemma {:induction false} TextMore(runes: seq<seq<byte>>, k: nat)
    requires k < |runes|
    ensures Text(runes[..k + 1]) == Text(runes[..k]) + runes[k]
    ensures |Text(runes[..k + 1])| <= |Text(runes)| && Text(runes)[..|Text(runes[..k + 1])|] == Text(runes[..k + 1])
  {
    if k == 0 {
      assert runes[..1][1..] == [] && Text(runes[..1]) == runes[0] + [];
    } else {
      TextMore(runes[1..], k - 1);
      assert runes[..k + 1][1..] == runes[1..][..k] && runes[..k][1..] == runes[1..][..k - 1];
    }
  }

  /** A UTF-8 message that is too long is cut down to as many whole characters as fit in front of the three
      dots, and any other is left alone. */
  lemma BoundedUtf8(points: seq<CodePoint>) returns (k: nat)
    ensures if |Utf8Text(points)| <= 2048 then Bounded(Utf8Text(points)) == Utf8Text(points)
            else
              && k < |points| && |Utf8Text(points[..k])| <= 2045 < |Utf8Text(points[..k + 1])|
              && Bounded(Utf8Text(points)) == Utf8Text(points[..k]) + [46, 46, 46]
  {
    var runes, m := Encoded(points), Utf8Text(points);
    k := 0;
    if |m| > 2048 {
      var end := CutPoint(m, 2045);
      Utf8Runes(points);
      k := CutKeepsRunes(runes, end);
      assert Encoded(points[..k]) == runes[..k];
      WholeRune(runes, k, end);
      assert Encoded(points[..k + 1]) == runes[..k + 1];
    }
  }

  /** Behind a rune the next one starts, if there is one. */
  lemma NextStarts(runes: seq<seq<byte>>, k: nat)
    requires (forall i :: 0 <= i < |runes| ==> Rune(runes[i])) && k < |runes|
    ensures var next := |Text(runes[..k + 1])|;
            |Text(runes[..k])| < next
            && (next == |Text(runes)| || (next < |Text(runes)| && RuneStart(Text(runes)[next])))
  {
    TextMore(runes, k);
    if k + 1 < |runes| {
      TextMore(runes, k + 1);
      assert Text(runes[..k + 2])[|Text(runes[..k + 1])|] == runes[k + 1][0];
    } else {
      assert runes[..k + 1] == runes;
    }
  }

  /** The rune behind the cut does not fit. */
  lemma WholeRune(runes: seq<seq<byte>>, k: nat, end: nat)
    requires forall i :: 0 <= i < |runes| ==> Rune(runes[i])
    requires |Text(runes)| > 2048 && end == CutPoint(Text(runes), 2045)
    requires k <= |runes| && Text(runes)[..end] == Text(runes[..k])
    ensures k < |runes| && |Text(runes[..k + 1])| > 2045
  {
    assert runes[..|runes|] == runes;
    NextStarts(runes, k);
  }

  // ---------------------------------------------------------------- the ledger

  /** The different messages in first-seen order. */
  function Firsts(ms: seq<Message>): seq<Message> {
    if ms == [] then []
    else
      var front, last := Firsts(ms[..|ms| - 1]), ms[|ms| - 1];
      if last in front then front else front + [last]
  }

  /** The ones the ledger has room for. */
  function Kept(ms: seq<Message>): seq<Message> {
    if |Firsts(ms)| <= MAX_DISTINCT then Firsts(ms) else Firsts(ms)[..MAX_DISTINCT]
  }

  function Count(ms: seq<Message>, m: Message): nat {
    if ms == [] then 0 else Count(ms[..|ms| - 1], m) + if ms[|ms| - 1] == m then 1 else 0
  }

  /** How many of `ms` are not among `kept`. */
  function Outside(ms: seq<Message>, kept: seq<Message>): nat {
    if ms == [] then 0 else Outside(ms[..|ms| - 1], kept) + if ms[|ms| - 1] in kept then 0 else 1
  }

  function Issues(ms: seq<Message>, kept: seq<Message>): (r: seq<Issue>)
    ensures |r| == |kept|
  {
    seq(|kept|, i requires 0 <= i < |kept| => Issue(kept[i], Count(ms, kept[i])))
  }

  function Messages(history: seq<Recorded>): seq<Message> {
    if history == [] then []
    else Messages(history[..|history| - 1]) + [Bounded(history[|history| - 1].message)]
  }

  /** Data as soon as any failure was Data, otherwise the class of the last one. */
  function Class(history: seq<Recorded>): Failure {
    if history == [] then NoFailure
    else if exists i :: 0 <= i < |history| && history[i].failure.Data? then Data
    else history[|history| - 1].failure
  }

  ghost predicate Distinct(ms: seq<Message>) {
    forall i, j :: 0 <= i < j < |ms| ==> ms[i] != ms[j]
  }

  lemma {:induction false} FirstsDistinct(ms: seq<Message>)
    ensures Distinct(Firsts(ms)) && forall m :: m in Firsts(ms) <==> m in ms
  {
    if ms == [] {
    } else {
      var front, last := ms[..|ms| - 1], ms[|ms| - 1];
      FirstsDistinct(front);
      assert ms == front + [last];
    }
  }

  /** Where `m` was seen first. */
  function FirstIndex(ms: seq<Message>, m: Message): (i: nat)
    requires m in ms
    ensures i < |ms| && ms[i] == m && m !in ms[..i]
  {
    var front := ms[..|ms| - 1];
    if m in front then
      var i := FirstIndex(front, m);
      assert front[..i] == ms[..i];
      i
    else |ms| - 1
  }

  lemma {:induction false} FirstSeenOrder(ms: seq<Message>, i: nat, j: nat)
    requires i < j < |Firsts(ms)| && Firsts(ms)[i] in ms && Firsts(ms)[j] in ms
    ensures FirstIndex(ms, Firsts(ms)[i]) < FirstIndex(ms, Firsts(ms)[j])
    decreases |ms|
  {
    var front := ms[..|ms| - 1];
    FirstsDistinct(front);
    if j == |Firsts(front)| {
    } else {
      FirstSeenOrder(front, i, j);
    }
  }

  lemma {:induction false} CountOfAbsent(ms: seq<Message>, m: Message)
    requires m !in ms
    ensures Count(ms, m) == 0
  {
    if ms == [] {
    } else {
      CountOfAbsent(ms[..|ms| - 1], m);
    }
  }

  lemma {:induction false} OutsideNone(ms: seq<Message>, kept: seq<Message>)
    requires forall m :: m in ms ==> m in kept
    ensures Outside(ms, kept) == 0
  {
    if ms == [] {
    } else {
      OutsideNone(ms[..|ms| - 1], kept);
    }
  }

  /** What one more message does to the ledger. */
  lemma LedgerStep(ms: seq<Message>, m: Message)
    ensures var kept, more := Kept(ms), ms + [m];
            if m in kept then Kept(more) == kept && Outside(more, kept) == Outside(ms, kept)
            else if |kept| == MAX_DISTINCT then Kept(more) == kept && Outside(more, kept) == Outside(ms, kept) + 1
            else Kept(more) == kept + [m] && Outside(more, Kept(more)) == Outside(ms, kept) == 0 && m !in ms
  {
    var kept, more := Kept(ms), ms + [m];
    FirstsDistinct(ms);
    assert more[..|more| - 1] == ms;
    if m !in kept && |kept| < MAX_DISTINCT {
      assert kept == Firsts(ms);
      OutsideNone(ms, kept);
      OutsideNone(more, kept + [m]);
    } else if m !in Firsts(ms) {
      assert (Firsts(ms) + [m])[..MAX_DISTINCT] == Firsts(ms)[..MAX_DISTINCT];
    }
  }

  lemma CountStep(ms: seq<Message>, m: Message, x: Message)
    ensures Count(ms + [m], x) == Count(ms, x) + if m == x then 1 else 0
  {
    assert (ms + [m])[..|ms|] == ms;
  }

  function Total(list: seq<Issue>): nat {
    if list == [] then 0 else Total(list[..|list| - 1]) + list[|list| - 1].count
  }

  /** Nothing is lost: the counts of the ledger's issues and the omitted failures add up to the
      number of failures. */
  lemma {:induction false} NothingLost(ms: seq<Message>, kept: seq<Message>)
    requires Distinct(kept)
    ensures Total(Issues(ms, kept)) + Outside(ms, kept) == |ms|
    decreases |ms|
  {
    if ms == [] {
      TotalZero(kept);
    } else {
      var front, last := ms[..|ms| - 1], ms[|ms| - 1];
      NothingLost(front, kept);
      TotalStep(front, kept, last);
      assert ms == front + [last];
    }
  }

  lemma {:induction false} TotalZero(kept: seq<Message>)
    ensures Total(Issues([], kept)) == 0
  {
    if kept == [] {
    } else {
      TotalZero(kept[..|kept| - 1]);
      assert Issues([], kept)[..|kept| - 1] == Issues([], kept[..|kept| - 1]);
    }
  }

  lemma TotalLast(ms: seq<Message>, kept: seq<Message>)
    requires kept != []
    ensures Total(Issues(ms, kept)) == Total(Issues(ms, kept[..|kept| - 1])) + Count(ms, kept[|kept| - 1])
  {
    assert Issues(ms, kept)[..|kept| - 1] == Issues(ms, kept[..|kept| - 1]);
  }

  lemma {:induction false} TotalStep(ms: seq<Message>, kept: seq<Message>, m: Message)
    requires Distinct(kept)
    ensures Total(Issues(ms + [m], kept)) == Total(Issues(ms, kept)) + if m in kept then 1 else 0
    decreases |kept|
  {
    if kept == [] {
    } else {
      var front, last := kept[..|kept| - 1], kept[|kept| - 1];
      TotalStep(ms, front, m);
      CountStep(ms, m, last);
      TotalLast(ms + [m], kept);
      TotalLast(ms, kept);
      assert kept == front + [last];
      assert m in kept <==> m in front || m == last;
      assert last !in front;
    }
  }

  /** The ledger of a list of messages: its issues and how many failures it left out. */
  function Ledger(ms: seq<Message>): (seq<Issue>, nat) {
    (Issues(ms, Kept(ms)), Outside(ms, Kept(ms)))
  }

  lemma IssuesStep(ms: seq<Message>, kept: seq<Message>, m: Message)
    requires Distinct(kept)
    ensures m !in kept ==> Issues(ms + [m], kept) == Issues(ms, kept)
    ensures forall i :: 0 <= i < |kept| && kept[i] == m ==>
              Issues(ms + [m], kept) == Issues(ms, kept)[i := Issue(m, Count(ms, m) + 1)]
  {
    forall i | 0 <= i < |kept| ensures Count(ms + [m], kept[i]) == Count(ms, kept[i]) + if m == kept[i] then 1 else 0 {
      CountStep(ms, m, kept[i]);
    }
  }

  /** What one more message does: count it where it is, leave it out of a full ledger, or open an
      issue for it. */
  lemma LedgerAdds(ms: seq<Message>, m: Message)
    ensures var (issues, omitted) := Ledger(ms);
            if m in Kept(ms) then
              forall i :: 0 <= i < |issues| && issues[i].message == m ==>
                Ledger(ms + [m]) == (issues[i := Issue(m, issues[i].count + 1)], omitted)
            else if |issues| == MAX_DISTINCT then Ledger(ms + [m]) == (issues, omitted + 1)
            else Ledger(ms + [m]) == (issues + [Issue(m, 1)], omitted)
  {
    var kept := Kept(ms);
    FirstsDistinct(ms);
    LedgerStep(ms, m);
    IssuesStep(ms, kept, m);
    if m !in kept && |kept| < MAX_DISTINCT {
      CountOfAbsent(ms, m);
      CountStep(ms, m, m);
      assert Issues(ms + [m], kept + [m]) == Issues(ms + [m], kept) + [Issue(m, 1)];
    }
  }

  lemma HistoryStep(history: seq<Recorded>, r: Recorded)
    ensures Messages(history + [r]) == Messages(history) + [Bounded(r.message)]
    ensures Class(history + [r]) == if history != [] && Class(history).Data? then Data else r.failure
  {
    var more := history + [r];
    assert more[..|more| - 1] == history;
    assert forall i :: 0 <= i < |history| ==> more[i] == history[i];
    if history != [] && Class(history).Data? {
      assert exists i :: 0 <= i < |history| && history[i].failure.Data?;
    }
  }

  lemma {:induction false} MessagesLength(history: seq<Recorded>)
    ensures |Messages(history)| == |history|
  {
    if history == [] {
    } else {
      MessagesLength(history[..|history| - 1]);
    }
  }

  lemma FirstFailure(history: seq<Recorded>)
    ensures Kept(Messages(history)) == [] <==> history == []
  {
    if history != [] {
      FirstsDistinct(Messages(history));
      assert Messages(history)[|Messages(history)| - 1] in Firsts(Messages(history));
    }
  }

  /** queryResult's failure state. */
  class QueryResult {
    var issues: seq<Issue>
    var omitted: nat
    var failure: Failure
    ghost var history: seq<Recorded>

    /** The ledger holds the first eight different messages of the history in first-seen order with
        their counts, and counts every other failure as omitted. */
    ghost predicate Valid()
      reads this
    {
      (issues, omitted) == Ledger(Messages(history)) && failure == Class(history)
    }

    /** Every recorded failure is counted once, by an issue or as omitted. */
    lemma Accounts()
      requires Valid()
      ensures Total(issues) + omitted == |history| && |issues| <= 8 && (omitted > 0 ==> |issues| == 8)
      ensures failure.Data? <==> exists i :: 0 <= i < |history| && history[i].failure.Data?
    {
      FirstsDistinct(Messages(history));
      NothingLost(Messages(history), Kept(Messages(history)));
      if |issues| < 8 {
        OutsideNone(Messages(history), Kept(Messages(history)));
      }
      MessagesLength(history);
    }

    constructor ()
      ensures Valid() && history == []
    {
      issues, omitted, failure, history := [], 0, NoFailure, [];
    }

    /** failedLocked: one more failure. */
    method Failed(message: Message, kind: Failure)
      requires Valid()
      modifies this
      ensures Valid() && history == old(history) + [Recorded(message, kind)]
    {
      FirstFailure(history);
      HistoryStep(history, Recorded(message, kind));
      var first := |issues| == 0;
      Add(message);
      if first {
        failure := kind;
      } else if failure != Data {
        failure := kind;
      }
      history := history + [Recorded(message, kind)];
    }

    /** queryErrors.add. */
    method Add(message: Message)
      requires Valid()
      modifies this`issues, this`omitted
      ensures (issues, omitted) == Ledger(Messages(history) + [Bounded(message)])
    {
      var bounded := Bound(message);
      LedgerAdds(Messages(history), bounded);
      var at := Find(bounded);
      if at.Some? {
        issues := issues[at.value := issues[at.value].(count := issues[at.value].count + 1)];
      } else if |issues| == MAX_DISTINCT {
        omitted := omitted + 1;
      } else {
        issues := issues + [Issue(bounded, 1)];
      }
    }

    /** The search of the ledger: where the issue of `message` is, if it has one. */
    method Find(message: Message) returns (at: Option<nat>)
      requires Valid()
      ensures at.Some? <==> message in Kept(Messages(history))
      ensures at.Some? ==> at.value < |issues| && issues[at.value].message == message
    {
      ghost var kept := Kept(Messages(history));
      for i := 0 to |issues|
        invariant message !in kept[..i]
      {
        if issues[i].message == message {
          return Some(i);
        }
        assert kept[..i + 1] == kept[..i] + [kept[i]];
      }
      assert kept[..|issues|] == kept;
      at := None;
    }
  }

  // ---------------------------------------------------------------- every member's outcome

  const EXIT_GENERAL := 1
  const EXIT_DATA := 65
  const EXIT_UNAVAILABLE := 69

  predicate AllAre(failures: seq<Failure>, f: Failure) {
    forall i :: 0 <= i < |failures| ==> failures[i] == f
  }

  lemma AllAreStep(failures: seq<Failure>, i: nat, f: Failure)
    requires i < |failures|
    ensures AllAre(failures[..i + 1], f) <==> AllAre(failures[..i], f) && failures[i] == f
  {
  }

  /** queryMembersError: no error when nobody failed; the special codes only when every member
      failed in that class. */
  method MembersExit(failures: seq<Failure>) returns (code: int)
    ensures code == 0 <==> AllAre(failures, NoFailure)
    ensures code == 65 <==> failures != [] && AllAre(failures, Data)
    ensures code == 69 <==> failures != [] && AllAre(failures, Unavailable)
    ensures code in {0, 1, 65, 69}
  {
    var allData, allUnavailable, anyFailure := true, true, false;
    for i := 0 to |failures|
      invariant allData <==> AllAre(failures[..i], Data)
      invariant allUnavailable <==> AllAre(failures[..i], Unavailable)
      invariant anyFailure <==> !AllAre(failures[..i], NoFailure)
    {
      AllAreStep(failures, i, NoFailure);
      AllAreStep(failures, i, Data);
      AllAreStep(failures, i, Unavailable);
      match failures[i] {
        case NoFailure => allData, allUnavailable := false, false;
        case Data => anyFailure, allUnavailable := true, false;
        case Unavailable => anyFailure, allData := true, false;
        case General => anyFailure, allData, allUnavailable := true, false, false;
      }
    }
    assert failures[..|failures|] == failures;
    assert forall f :: failures != [] && AllAre(failures, f) ==> failures[0] == f;
    if !anyFailure {
      return 0;
    }
    code := if allData then EXIT_DATA else if allUnavailable then EXIT_UNAVAILABLE else EXIT_GENERAL;
  }
}
