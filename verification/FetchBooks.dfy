/** What every run of the picker keeps: the flush accounting, the epochs of frames and publications,
    and what each publication has lost. */
module FetchBooks {
  import opened Options
  import opened FetchState

  /** How many messages are stamped with `epoch`. */
  function Undelivered(messages: seq<Flush>, epoch: nat): nat {
    if messages == [] then 0
    else Undelivered(messages[..|messages| - 1], epoch) + if messages[|messages| - 1].epoch == epoch then 1 else 0
  }

  predicate AllFrom(frames: seq<Flush>, epoch: nat) {
    forall k :: 0 <= k < |frames| ==> frames[k].epoch == epoch
  }

  predicate NoneAfter(messages: seq<Flush>, epoch: nat) {
    forall k :: 0 <= k < |messages| ==> messages[k].epoch <= epoch
  }

  /** The counter is the number of undelivered messages of the current epoch, and zero when no
      container is open; the container's frames are of the current epoch; and every flush started
      for it is a frame, lost, or still to be delivered. */
  ghost predicate Counted(b: Books) {
    && b.pending == Undelivered(b.messages, b.epoch) && NoneAfter(b.messages, b.epoch)
    && match b.container
       case None => b.pending == 0
       case Some(c) => c.epoch == b.epoch && AllFrom(c.frames, b.epoch) && b.started == |c.frames| + b.lost + b.pending
  }

  /** Snapshots are published at most once an epoch, with frames of that epoch only, and with every flush
      that was started for them written or lost. */
  ghost predicate Journaled(b: Books) {
    && (forall j, k :: 0 <= j < k < |b.journal| ==> b.journal[j].epoch < b.journal[k].epoch)
    && (forall k :: 0 <= k < |b.journal| ==> AllFrom(b.journal[k].frames, b.journal[k].epoch))
    && (forall k :: 0 <= k < |b.journal| ==> b.journal[k].started == |b.journal[k].frames| + b.journal[k].lost)
    && (forall k :: 0 <= k < |b.journal| ==>
          b.journal[k].epoch <= b.epoch && (b.container.Some? ==> b.journal[k].epoch < b.epoch))
  }

  ghost predicate Accounts(b: Books) {
    Counted(b) && Journaled(b)
  }

  // ---------------------------------------------------------------- counting messages

  lemma UndeliveredAdd(messages: seq<Flush>, f: Flush, epoch: nat)
    ensures Undelivered(messages + [f], epoch) == Undelivered(messages, epoch) + if f.epoch == epoch then 1 else 0
  {
    assert (messages + [f])[..|messages|] == messages;
  }

  lemma WithoutSnoc<T>(front: seq<T>, last: T, k: nat)
    requires k <= |front|
    ensures Without(front + [last], k) == if k == |front| then front else Without(front, k) + [last]
  {
  }

  /** Delivery lowers the count of the message's own epoch, and of no other. */
  lemma {:induction false} UndeliveredRemove(messages: seq<Flush>, k: nat, epoch: nat)
    requires k < |messages|
    ensures Undelivered(messages, epoch)
            == Undelivered(Without(messages, k), epoch) + if messages[k].epoch == epoch then 1 else 0
    decreases |messages|
  {
    var front, last := messages[..|messages| - 1], messages[|messages| - 1];
    assert messages == front + [last];
    WithoutSnoc(front, last, k);
    UndeliveredAdd(front, last, epoch);
    if k == |front| {
    } else {
      UndeliveredRemove(front, k, epoch);
      UndeliveredAdd(Without(front, k), last, epoch);
    }
  }

  lemma {:induction false} NoneYet(messages: seq<Flush>, epoch: nat)
    requires forall k :: 0 <= k < |messages| ==> messages[k].epoch < epoch
    ensures Undelivered(messages, epoch) == 0
  {
    if messages == [] {
    } else {
      NoneYet(messages[..|messages| - 1], epoch);
    }
  }

  // ---------------------------------------------------------------- the operations on the books

  /** A new epoch starts with nothing undelivered, whatever the old one left behind. */
  lemma ReopenAccounts(b: Books, opens: bool)
    requires Accounts(b)
    ensures Accounts(Reopen(b, opens))
  {
    NoneYet(b.messages, b.epoch + 1);
  }

  lemma CloseAccounts(b: Books, publishes: bool, logs: bool)
    requires Accounts(b) && b.pending == 0 && (publishes ==> b.container.Some?)
    ensures Accounts(Close(b, publishes, logs))
  {
  }

  lemma PostAccounts(b: Books, crn: Crn)
    requires Accounts(b) && b.container.Some?
    ensures Accounts(Post(b, crn))
  {
    UndeliveredAdd(b.messages, Flush(crn, b.epoch), b.epoch);
  }

  lemma DropAccounts(b: Books, k: nat)
    requires Accounts(b) && k < |b.messages| && b.messages[k].epoch != b.epoch
    ensures Accounts(Drop(b, k))
  {
    UndeliveredRemove(b.messages, k, b.epoch);
  }

  /** A message of the current epoch finds the container open, and its flush becomes a frame or a loss. */
  lemma DeliverAccounts(b: Books, k: nat, compressed: bool, known: bool, io: bool)
    requires Accounts(b) && k < |b.messages| && b.messages[k].epoch == b.epoch
    ensures b.container.Some? && Accounts(Deliver(b, k, compressed, known, io))
  {
    UndeliveredRemove(b.messages, k, b.epoch);
  }

  // ---------------------------------------------------------------- what a step does to the books

  /** When a settle closes the container: the fetch is idle, and no watch goes on with it. */
  predicate Closes(s: State, capHit: bool) {
    Idle(s) && (s.mode.watching ==> !AnyEmpty(s.rows, s.members) || capHit)
  }

  function Settled(s: State, capHit: bool, ok: bool): Books {
    if Closes(s, capHit) then Close(s.books, Publishes(s, ok), AnyLogs(s.rows)) else s.books
  }

  lemma SettleBooks(s: State, capHit: bool, ok: bool)
    ensures Settle(s, capHit, ok).books == Settled(s, capHit, ok)
  {
  }

  lemma SettleAccounts(s: State, capHit: bool, ok: bool)
    requires Accounts(s.books)
    ensures Accounts(Settle(s, capHit, ok).books)
  {
    SettleBooks(s, capHit, ok);
    if Closes(s, capHit) {
      CloseAccounts(s.books, Publishes(s, ok), AnyLogs(s.rows));
    }
  }

  lemma EndWatchAccounts(s: State, ok: bool)
    requires Accounts(s.books)
    ensures Accounts(EndWatch(s, ok).books)
  {
    var m := s.(mode := WatchEnded(s.mode));
    if Idle(m) {
      CloseAccounts(m.books, Publishes(m, ok), AnyLogs(m.rows));
    }
  }

  lemma PostIfOpen(b: Books, crn: Crn)
    requires Accounts(b)
    ensures b.container.Some? ==> Accounts(Post(b, crn))
  {
    if b.container.Some? {
      PostAccounts(b, crn);
    }
  }

  lemma EndedAccounts(s: State, crn: Crn, errs: bool)
    requires Accounts(s.books)
    ensures Accounts(Ended(s, crn, errs).books)
  {
    EndedBooks(s, crn, errs);
    PostIfOpen(s.books, crn);
  }

  lemma EndedBooks(s: State, crn: Crn, errs: bool)
    ensures var b := Ended(s, crn, errs).books; b == s.books || (s.books.container.Some? && b == Post(s.books, crn))
  {
  }

  lemma FlushedAccounts(s: State, k: nat, compressed: bool, bytes: Bytes, io: bool, backed: bool, capHit: bool,
                        ok: bool)
    requires Accounts(s.books) && k < |s.books.messages|
    ensures Accounts(OnInstanceFlushed(s, k, compressed, bytes, io, backed, capHit, ok).books)
  {
    if s.books.messages[k].epoch != s.books.epoch {
      DropAccounts(s.books, k);
    } else {
      DeliverAccounts(s.books, k, compressed, First(s.rows, s.books.messages[k].crn).Some?, io);
      SettleAccounts(Delivered(s, k, compressed, bytes, io, backed), capHit, ok);
    }
  }

  lemma WatchAccounts(s: State, opens: bool, capHit: bool, ok: bool)
    requires Accounts(s.books)
    ensures Accounts(ToggleWatch(s, opens, capHit, ok).books)
  {
    ReopenAccounts(s.books, opens);
    SettleAccounts(StopWatch(s), capHit, ok);
  }

  lemma StreamEndAccounts(s: State, crn: Crn, errs: bool, capHit: bool, ok: bool)
    requires Accounts(s.books)
    ensures Accounts(OnLogStreamDone(s, crn, errs, capHit, ok).books)
  {
    EndedAccounts(s, crn, errs);
    SettleAccounts(Ended(s, crn, errs), capHit, ok);
  }

  lemma KeyAccounts(s: State, key: Key, capHit: bool, ok: bool)
    requires Accounts(s.books)
    ensures Accounts(OnKey(s, key, capHit, ok).books)
  {
    match key {
      case FetchKey(opens) => ReopenAccounts(s.books, opens);
      case FirstFetchKey(opens) => ReopenAccounts(s.books, opens);
      case WatchKey(opens) => WatchAccounts(s, opens, capHit, ok);
      case CancelKey => SettleAccounts(Silenced(s), capHit, ok);
      case ToggleKey(_) =>
      case SelectAllKey(_) =>
      case RetryKey(_) =>
      case DispatchKey =>
    }
  }

  lemma AuthAccounts(s: State, auth: Auth, capHit: bool, ok: bool)
    requires Accounts(s.books)
    ensures Accounts(OnAuth(s, auth, capHit, ok).books)
  {
    match auth {
      case Token(_, _) =>
      case TokenFailed(crn, _) => SettleAccounts(Failed(s, crn), capHit, ok);
      case EnvFailed(env, _) => SettleAccounts(s.(rows := Map(s.rows, Authing(Some(env), Error))), capHit, ok);
      case EnvCancelled(env, _) => SettleAccounts(s.(rows := Map(s.rows, Authing(Some(env), Cancelled))), capHit, ok);
      case PasscodeFailed(env) => SettleAccounts(s.(rows := Map(s.rows, Authing(Some(env), Error))), capHit, ok);
      case PasscodeCancelled(env) => SettleAccounts(s.(rows := Map(s.rows, Authing(Some(env), Enabled))), capHit, ok);
      case PasscodeAccepted(_) => SettleAccounts(s, capHit, ok);
    }
  }

  lemma CollectAccounts(s: State, crns: set<Crn>, opens: bool)
    requires Accounts(s.books)
    ensures Accounts(StartCollect(s, crns, opens).books)
  {
    ReopenAccounts(s.books, opens);
  }

  lemma TickAccounts(s: State, epoch: nat, capHit: bool, ok: bool)
    requires Accounts(s.books)
    ensures Accounts(OnWatchTick(s, epoch, capHit, ok).books)
  {
    EndWatchAccounts(s, ok);
  }

  lemma MessageAccounts(s: State, message: Message, capHit: bool, ok: bool)
    requires Accounts(s.books)
    ensures Accounts(OnMessage(s, message, capHit, ok).books)
  {
    match message {
      case Collect(crns, opens) => CollectAccounts(s, crns, opens);
      case StreamEnd(crn, errs) => StreamEndAccounts(s, crn, errs, capHit, ok);
      case Flushed(k, compressed, bytes, io, backed) =>
        if k < |s.books.messages| {
          FlushedAccounts(s, k, compressed, bytes, io, backed, capHit, ok);
        }
      case Tick(epoch) => TickAccounts(s, epoch, capHit, ok);
      case Stream(_, _, _, _, _, _) =>
      case Load(_, _) =>
      case Loaded(_, _, _) =>
      case DispatchDone(_, _) =>
      case ViewInContext(_) =>
      case Restore(_) =>
      case Evict =>
    }
  }

  /** Every event keeps the accounting. */
  lemma NextAccounts(s: State, t: Step)
    requires Accounts(s.books)
    ensures Accounts(Next(s, t).books)
  {
    match t.event {
      case Pressed(key) => KeyAccounts(s, key, t.capHit, t.ok);
      case Authed(auth) => AuthAccounts(s, auth, t.capHit, t.ok);
      case Received(message) => MessageAccounts(s, message, t.capHit, t.ok);
    }
  }

  /** After any events whatever, from the first on. */
  lemma RunAccounts(configured: seq<(Crn, Environment)>, steps: seq<Step>)
    ensures var b := After(Init(configured), steps).books;
            && b.pending == Undelivered(b.messages, b.epoch)
            && (b.pending > 0 ==> b.container.Some?)
            && (b.container.Some? ==>
                  && b.container.value.epoch == b.epoch && AllFrom(b.container.value.frames, b.epoch)
                  && b.started == |b.container.value.frames| + b.lost + b.pending)
            && (forall j, k :: 0 <= j < k < |b.journal| ==> b.journal[j].epoch < b.journal[k].epoch)
            && (forall k :: 0 <= k < |b.journal| ==> AllFrom(b.journal[k].frames, b.journal[k].epoch))
            && (forall k :: 0 <= k < |b.journal| ==> b.journal[k].started == |b.journal[k].frames| + b.journal[k].lost)
  {
    RunKeepsAccounts(configured, steps);
  }

  lemma {:induction false} RunKeepsAccounts(configured: seq<(Crn, Environment)>, steps: seq<Step>)
    ensures Accounts(After(Init(configured), steps).books)
  {
    if steps == [] {
    } else {
      RunKeepsAccounts(configured, steps[..|steps| - 1]);
      NextAccounts(After(Init(configured), steps[..|steps| - 1]), steps[|steps| - 1]);
    }
  }
}
