/**
The durable agent inbox (agent/inbox.go): two live pending-message lists that are a projection of
the splices in the session log.
 */
module Inbox {
  import opened SessionLog
  import opened Surface

  // ----- Splices as values -----

  datatype Lists = Lists(nextTurn: seq<Message>, nextStep: seq<Message>)

  function List(l: Lists, target: Target): seq<Message> {
    if target == NextTurn then l.nextTurn else l.nextStep
  }

  function WithList(l: Lists, target: Target, list: seq<Message>): Lists {
    if target == NextTurn then l.(nextTurn := list) else l.(nextStep := list)
  }

  function Ids(messages: seq<Message>): (r: seq<string>)
    ensures |r| == |messages| && forall i :: 0 <= i < |messages| ==> r[i] == messages[i].id
  {
    seq(|messages|, i requires 0 <= i < |messages| => messages[i].id)
  }

  /** No id is pending twice across both lists. */
  predicate UniqueIds(l: Lists) {
    Distinct(Ids(l.nextTurn + l.nextStep))
  }

  function RemovedCount(s: Splice): int {
    if s.removedCount.Some? then s.removedCount.value else 0
  }

  predicate InRange(l: Lists, s: Splice) {
    s.start >= 0 && RemovedCount(s) >= 0 && s.start + RemovedCount(s) <= |List(l, s.target)|
  }

  function Applied(l: Lists, s: Splice): Lists
    requires InRange(l, s)
  {
    var list := List(l, s.target);
    WithList(l, s.target, list[..s.start] + s.inserted + list[s.start + RemovedCount(s)..])
  }

  function Removed(l: Lists, s: Splice): seq<Message>
    requires InRange(l, s)
  {
    List(l, s.target)[s.start..s.start + RemovedCount(s)]
  }

  predicate Accepts(l: Lists, s: Splice) {
    InRange(l, s) && UniqueIds(Applied(l, s))
  }

  /** The lists a log's splices describe, or None when one of them is malformed. */
  function Replay(log: Log): Option<Lists> {
    if log == [] then Some(Lists([], []))
    else
      var before := Replay(log[..|log| - 1]);
      match log[|log| - 1]
      case InboxSpliced(s) =>
        if before.Some? && Accepts(before.value, s) then Some(Applied(before.value, s)) else None
      case _ => before
  }

  lemma {:induction false} ReplayedIdsAreUnique(log: Log)
    ensures Replay(log).Some? ==> UniqueIds(Replay(log).value)
  {
    if log != [] { ReplayedIdsAreUnique(log[..|log| - 1]); }
  }

  /** A malformed splice is never repaired by what follows it. */
  lemma {:induction false} MalformedStays(log: Log, k: nat)
    requires k <= |log| && Replay(log[..k]).None?
    ensures Replay(log).None?
    decreases |log|
  {
    if k == |log| {
      assert log[..k] == log;
    } else {
      assert log[..|log| - 1][..k] == log[..k];
      MalformedStays(log[..|log| - 1], k);
    }
  }

  lemma ReplayOneMore(log: Log, e: Event)
    ensures (log + [e])[..|log|] == log
    ensures !e.InboxSpliced? ==> Replay(log + [e]) == Replay(log)
    ensures e.InboxSpliced? && Replay(log).Some? ==>
      Replay(log + [e]) == if Accepts(Replay(log).value, e.splice) then Some(Applied(Replay(log).value, e.splice)) else None
  {
    assert (log + [e])[..|log|] == log;
  }

  // ----- Conservation -----

  /** Everything a log ever inserted, claimed and discarded. */
  datatype Ledger = Ledger(inserted: multiset<Message>, claimed: multiset<Message>, discarded: multiset<Message>)

  function Posted(books: Ledger, l: Lists, s: Splice): Ledger
    requires InRange(l, s)
  {
    var removed := multiset(Removed(l, s));
    if s.canceled then Ledger(books.inserted + multiset(s.inserted), books.claimed, books.discarded + removed)
    else Ledger(books.inserted + multiset(s.inserted), books.claimed + removed, books.discarded)
  }

  function Books(log: Log): Ledger
    requires Replay(log).Some?
  {
    if log == [] then Ledger(multiset{}, multiset{}, multiset{})
    else
      var init := log[..|log| - 1];
      match log[|log| - 1]
      case InboxSpliced(s) => Posted(Books(init), Replay(init).value, s)
      case _ => Books(init)
  }

  function Pending(l: Lists): multiset<Message> {
    multiset(l.nextTurn) + multiset(l.nextStep)
  }

  lemma Regroup(a: multiset<Message>, b: multiset<Message>, c: multiset<Message>, inserted: multiset<Message>, other: multiset<Message>)
    ensures a + b + c + other + inserted == a + inserted + c + other + b
    ensures other + (a + b + c) + inserted == other + (a + inserted + c) + b
  {
  }

  lemma Parts(a: seq<Message>, b: seq<Message>, c: seq<Message>)
    ensures multiset(a + b + c) == multiset(a) + multiset(b) + multiset(c)
  {
  }

  lemma SpliceConserves(l: Lists, s: Splice)
    requires InRange(l, s)
    ensures Pending(l) + multiset(s.inserted) == Pending(Applied(l, s)) + multiset(Removed(l, s))
  {
    var list, end := List(l, s.target), s.start + RemovedCount(s);
    var head, removed, tail := list[..s.start], list[s.start..end], list[end..];
    assert list == head + removed + tail;
    Parts(head, removed, tail);
    Parts(head, s.inserted, tail);
    Regroup(multiset(head), multiset(removed), multiset(tail), multiset(s.inserted), multiset(if s.target == NextTurn then l.nextStep else l.nextTurn));
  }

  ghost predicate Balanced(books: Ledger, pending: multiset<Message>) {
    books.inserted == pending + books.claimed + books.discarded
  }

  lemma PostingBalances(books: Ledger, l: Lists, s: Splice)
    requires InRange(l, s) && Balanced(books, Pending(l))
    ensures Balanced(Posted(books, l, s), Pending(Applied(l, s)))
  {
    SpliceConserves(l, s);
    hide Applied, Pending, Removed, InRange;
    Carry(Pending(l), Pending(Applied(l, s)), multiset(s.inserted), multiset(Removed(l, s)), books.claimed, books.discarded);
  }

  lemma Carry(before: multiset<Message>, after: multiset<Message>, inserted: multiset<Message>, removed: multiset<Message>, c: multiset<Message>, d: multiset<Message>)
    requires before + inserted == after + removed
    ensures before + c + d + inserted == after + (c + removed) + d
    ensures before + c + d + inserted == after + c + (d + removed)
  {
    calc {
      before + c + d + inserted;
      (before + inserted) + c + d;
      (after + removed) + c + d;
    }
  }

  /** Everything inserted is pending, claimed or discarded, exactly once. */
  lemma {:induction false} BooksBalance(log: Log)
    requires Replay(log).Some?
    ensures Balanced(Books(log), Pending(Replay(log).value))
  {
    hide Posted, Pending, Applied, Balanced;
    if log != [] {
      var init := log[..|log| - 1];
      BooksBalance(init);
      match log[|log| - 1]
      case InboxSpliced(s) => PostingBalances(Books(init), Replay(init).value, s);
      case _ =>
    } else {
      NothingIsBalanced();
    }
  }

  lemma NothingIsBalanced()
    ensures Balanced(Ledger(multiset{}, multiset{}, multiset{}), Pending(Lists([], [])))
  {
  }

  lemma BooksOneMore(log: Log, e: Event)
    requires Replay(log).Some? && Replay(log + [e]).Some?
    ensures !e.InboxSpliced? ==> Books(log + [e]) == Books(log)
    ensures e.InboxSpliced? ==> InRange(Replay(log).value, e.splice) && Books(log + [e]) == Posted(Books(log), Replay(log).value, e.splice)
  {
    assert (log + [e])[..|log|] == log;
  }

  // ----- Normalization -----

  /** Start and delete count as section 23.1.3.31 of ECMA-262 clamps them for a list of this length. */
  function EcmaStart(length: nat, start: int): (s: int)
    ensures 0 <= s <= length
  {
    if start < 0 then Max(length + start, 0) else Min(start, length)
  }

  function EcmaDeleteCount(length: nat, start: int, deleteCount: int): (d: int)
    ensures 0 <= d <= length - EcmaStart(length, start)
  {
    Min(Max(deleteCount, 0), length - EcmaStart(length, start))
  }

  method Normalize(length: nat, start: int, deleteCount: int) returns (actualStart: nat, actualDeleteCount: nat)
    ensures actualStart == EcmaStart(length, start) && actualDeleteCount == EcmaDeleteCount(length, start, deleteCount)
    ensures actualStart + actualDeleteCount <= length
  {
    var s := start;
    if s < 0 {
      var fromEnd := length + s;
      if fromEnd > 0 { s := fromEnd; } else { s := 0; }
    } else if s > length {
      s := length;
    }
    var d := deleteCount;
    if d < 0 { d := 0; }
    if d > length - s { d := length - s; }
    return s, d;
  }

  /** The durable form of a splice call. */
  function Normalized(l: Lists, target: Target, start: int, deleteCount: int, inserted: seq<Message>, discard: bool): Splice {
    var n := |List(l, target)|;
    var d := EcmaDeleteCount(n, start, deleteCount);
    Splice(target, EcmaStart(n, start), if d > 0 then Some(d) else None, inserted, discard && d > 0)
  }

  lemma NormalizedIsInRange(l: Lists, target: Target, start: int, deleteCount: int, inserted: seq<Message>, discard: bool)
    ensures InRange(l, Normalized(l, target, start, deleteCount, inserted, discard))
    ensures RemovedCount(Normalized(l, target, start, deleteCount, inserted, discard)) == EcmaDeleteCount(|List(l, target)|, start, deleteCount)
  {
  }

  /** What the clamping means, case by case. */
  lemma ClampedCases(length: nat, start: int, deleteCount: int)
    // A negative start counts from the end; one outside the list is taken to its nearer end.
    ensures 0 <= start <= length ==> EcmaStart(length, start) == start
    ensures start > length ==> EcmaStart(length, start) == length
    ensures start < 0 <= start + length ==> length - EcmaStart(length, start) == 0 - start
    ensures start + length < 0 ==> EcmaStart(length, start) == 0
    // As much as asked for is deleted, up to the end of the list.
    ensures deleteCount <= 0 ==> EcmaDeleteCount(length, start, deleteCount) == 0
    ensures 0 < deleteCount <= length - EcmaStart(length, start) ==> EcmaDeleteCount(length, start, deleteCount) == deleteCount
    ensures deleteCount > length - EcmaStart(length, start) ==> EcmaStart(length, start) + EcmaDeleteCount(length, start, deleteCount) == length
  {
  }

  /** Start -k addresses the k-th message from the end. */
  lemma NegativeStartCountsFromTheEnd(l: Lists, target: Target, k: nat, discard: bool)
    requires 1 <= k <= |List(l, target)|
    ensures var s := Normalized(l, target, 0 - k, 1, [], discard);
            var list := List(l, target);
            && InRange(l, s) && Removed(l, s) == [list[|list| - k]]
            && List(Applied(l, s), target) == list[..|list| - k] + list[|list| - k + 1..]
  {
    var list, at := List(l, target), |List(l, target)| - k;
    assert list[at..at + 1] == [list[at]] && list[..at] + [] == list[..at];
  }

  // ----- The live inbox -----

  datatype Error = AlreadyPending | Malformed | Refused

  /** One live notification, dispatched after the lock is released. */
  datatype Note = Inserted(message: Message) | Discarded(message: Message) | Claimed(message: Message, turn: nat)

  function Discards(messages: seq<Message>): (r: seq<Note>)
    ensures |r| == |messages| && forall i :: 0 <= i < |messages| ==> r[i] == Discarded(messages[i])
  {
    seq(|messages|, i requires 0 <= i < |messages| => Discarded(messages[i]))
  }

  function Inserts(messages: seq<Message>): (r: seq<Note>)
    ensures |r| == |messages| && forall i :: 0 <= i < |messages| ==> r[i] == Inserted(messages[i])
  {
    seq(|messages|, i requires 0 <= i < |messages| => Inserted(messages[i]))
  }

  function Claims(messages: seq<Message>, turn: nat): (r: seq<Note>)
    ensures |r| == |messages| && forall i :: 0 <= i < |messages| ==> r[i] == Claimed(messages[i], turn)
  {
    seq(|messages|, i requires 0 <= i < |messages| => Claimed(messages[i], turn))
  }

  /** What the notifications say was inserted, claimed and discarded. */
  function Told(notes: seq<Note>): Ledger {
    if notes == [] then Ledger(multiset{}, multiset{}, multiset{})
    else
      Tell(Told(notes[..|notes| - 1]), notes[|notes| - 1])
  }

  function Sum(a: Ledger, b: Ledger): Ledger {
    Ledger(a.inserted + b.inserted, a.claimed + b.claimed, a.discarded + b.discarded)
  }

  function Tell(books: Ledger, note: Note): Ledger {
    match note
    case Inserted(m) => books.(inserted := books.inserted + multiset{m})
    case Claimed(m, _) => books.(claimed := books.claimed + multiset{m})
    case Discarded(m) => books.(discarded := books.discarded + multiset{m})
  }

  lemma TellSum(a: Ledger, b: Ledger, note: Note)
    ensures Tell(Sum(a, b), note) == Sum(a, Tell(b, note))
  {
  }

  lemma ToldOneMore(notes: seq<Note>, note: Note)
    ensures Told(notes + [note]) == Tell(Told(notes), note)
  {
    assert (notes + [note])[..|notes|] == notes;
  }

  lemma SumNothing(a: Ledger)
    ensures Sum(a, Ledger(multiset{}, multiset{}, multiset{})) == a
  {
  }

  lemma Snoc(a: seq<Note>, b: seq<Note>, note: Note)
    ensures a + (b + [note]) == (a + b) + [note]
  {
  }

  lemma ToldConcatOneMore(a: seq<Note>, b: seq<Note>, note: Note)
    requires Told(a + b) == Sum(Told(a), Told(b))
    ensures Told(a + (b + [note])) == Sum(Told(a), Told(b + [note]))
  {
    hide Tell, Sum, Told;
    Snoc(a, b, note);
    ToldOneMore(a + b, note);
    ToldOneMore(b, note);
    TellSum(Told(a), Told(b), note);
  }

  lemma {:induction false} ToldConcat(a: seq<Note>, b: seq<Note>)
    ensures Told(a + b) == Sum(Told(a), Told(b))
  {
    if b == [] {
      assert a + b == a;
      SumNothing(Told(a));
    } else {
      hide Sum, Told;
      var init, note := b[..|b| - 1], b[|b| - 1];
      assert b == init + [note];
      ToldConcat(a, init);
      ToldConcatOneMore(a, init, note);
    }
  }

  lemma {:induction false} ToldUniform(messages: seq<Message>, turn: nat)
    ensures Told(Discards(messages)) == Ledger(multiset{}, multiset{}, multiset(messages))
    ensures Told(Inserts(messages)) == Ledger(multiset(messages), multiset{}, multiset{})
    ensures Told(Claims(messages, turn)) == Ledger(multiset{}, multiset(messages), multiset{})
  {
    if messages != [] {
      var init := messages[..|messages| - 1];
      ToldUniform(init, turn);
      assert messages == init + [messages[|messages| - 1]];
      assert Discards(messages)[..|init|] == Discards(init);
      assert Inserts(messages)[..|init|] == Inserts(init);
      assert Claims(messages, turn)[..|init|] == Claims(init, turn);
    }
  }

  /** The inbox with its session log; `unclaimed` were removed without being published. */
  datatype State = State(lists: Lists, log: Log, published: seq<Note>, queue: seq<Note>, unclaimed: multiset<Message>)

  ghost predicate Accounted(opening: Ledger, books: Ledger, notes: seq<Note>, unclaimed: multiset<Message>) {
    books == Sum(Sum(opening, Told(notes)), Ledger(multiset{}, unclaimed, multiset{}))
  }

  /** The live lists are the replay of the owned log, and every logged insertion and removal was
      published, is queued, or is held as unclaimed. */
  ghost predicate Sound(inherited: nat, opening: Ledger, st: State) {
    && ValidLog(st.log) && inherited <= |st.log|
    && Replay(st.log[inherited..]) == Some(st.lists)
    && Accounted(opening, Books(st.log[inherited..]), st.published + st.queue, st.unclaimed)
  }

  /** Ids are unique and what was ever inserted is pending, claimed, discarded or unclaimed. */
  lemma SoundInboxConserves(inherited: nat, opening: Ledger, st: State)
    requires Sound(inherited, opening, st)
    ensures UniqueIds(st.lists)
    ensures var told := Told(st.published + st.queue);
            Balanced(Sum(Sum(opening, told), Ledger(multiset{}, st.unclaimed, multiset{})), Pending(st.lists))
  {
    ReplayedIdsAreUnique(st.log[inherited..]);
    BooksBalance(st.log[inherited..]);
  }

  function Notes(removed: seq<Message>, inserted: seq<Message>, discard: bool): seq<Note> {
    (if discard then Discards(removed) else []) + Inserts(inserted)
  }

  /** The state after one committed splice. */
  ghost function After(st: State, s: Splice, discard: bool): State
    requires InRange(st.lists, s)
  {
    var removed := Removed(st.lists, s);
    State(Applied(st.lists, s), st.log + [InboxSpliced(s)], st.published, st.queue + Notes(removed, s.inserted, discard),
          st.unclaimed + if discard then multiset{} else multiset(removed))
  }

  lemma SumApart(inserted: multiset<Message>, removed: multiset<Message>)
    ensures Sum(Ledger(multiset{}, multiset{}, removed), Ledger(inserted, multiset{}, multiset{})) == Ledger(inserted, multiset{}, removed)
  {
  }

  lemma ToldNotes(removed: seq<Message>, inserted: seq<Message>, discard: bool)
    ensures Told(Notes(removed, inserted, discard)) == Ledger(multiset(inserted), multiset{}, if discard then multiset(removed) else multiset{})
  {
    var head := if discard then Discards(removed) else [];
    var cut := if discard then multiset(removed) else multiset{};
    assert Told(head) == Ledger(multiset{}, multiset{}, cut) by { ToldUniform(removed, 0); }
    assert Told(Inserts(inserted)) == Ledger(multiset(inserted), multiset{}, multiset{}) by { ToldUniform(inserted, 0); }
    hide Told, Discards, Inserts, Sum;
    ToldConcat(head, Inserts(inserted));
    SumApart(multiset(inserted), cut);
  }

  lemma PostedIsTold(opening: Ledger, books: Ledger, l: Lists, s: Splice, notes: seq<Note>, unclaimed: multiset<Message>, discard: bool)
    requires InRange(l, s) && Accounted(opening, books, notes, unclaimed)
    requires s.canceled == (discard && RemovedCount(s) > 0)
    ensures Accounted(opening, Posted(books, l, s), notes + Notes(Removed(l, s), s.inserted, discard),
                      unclaimed + if discard then multiset{} else multiset(Removed(l, s)))
  {
    hide Told, Notes, Sum;
    var removed := Removed(l, s);
    assert RemovedCount(s) == 0 ==> multiset(removed) == multiset{};
    hide Removed, InRange;
    ToldConcat(notes, Notes(removed, s.inserted, discard));
    ToldNotes(removed, s.inserted, discard);
    AddUp(opening, Told(notes), unclaimed, multiset(s.inserted), multiset(removed));
    AddNothing(opening, Told(notes), unclaimed, multiset(s.inserted));
    assert unclaimed + multiset{} == unclaimed;
    assert RemovedCount(s) == 0 ==> books.claimed + multiset(removed) == books.claimed;
  }

  lemma AddNothing(a: Ledger, b: Ledger, unclaimed: multiset<Message>, inserted: multiset<Message>)
    ensures var books := Sum(Sum(a, b), Ledger(multiset{}, unclaimed, multiset{}));
            Ledger(books.inserted + inserted, books.claimed, books.discarded)
            == Sum(Sum(a, Sum(b, Ledger(inserted, multiset{}, multiset{}))), Ledger(multiset{}, unclaimed, multiset{}))
  {
  }

  lemma AddUp(a: Ledger, b: Ledger, unclaimed: multiset<Message>, inserted: multiset<Message>, removed: multiset<Message>)
    ensures var books := Sum(Sum(a, b), Ledger(multiset{}, unclaimed, multiset{}));
            && Ledger(books.inserted + inserted, books.claimed, books.discarded + removed)
               == Sum(Sum(a, Sum(b, Ledger(inserted, multiset{}, removed))), Ledger(multiset{}, unclaimed, multiset{}))
            && Ledger(books.inserted + inserted, books.claimed + removed, books.discarded)
               == Sum(Sum(a, Sum(b, Ledger(inserted, multiset{}, multiset{}))), Ledger(multiset{}, unclaimed + removed, multiset{}))
  {
  }

  lemma SplicedReplay(owned: Log, l: Lists, s: Splice)
    requires Replay(owned) == Some(l) && Accepts(l, s)
    ensures Replay(owned + [InboxSpliced(s)]) == Some(Applied(l, s))
    ensures Books(owned + [InboxSpliced(s)]) == Posted(Books(owned), l, s)
  {
    hide Posted, Applied, UniqueIds;
    ReplayOneMore(owned, InboxSpliced(s));
    BooksOneMore(owned, InboxSpliced(s));
  }

  lemma OwnedOneMore(log: Log, e: Event, inherited: nat)
    requires inherited <= |log|
    ensures (log + [e])[inherited..] == log[inherited..] + [e]
  {
  }

  lemma SplicedIsValid(log: Log, s: Splice)
    requires ValidLog(log)
    ensures ValidLog(log + [InboxSpliced(s)])
  {
    OneMore(log, InboxSpliced(s));
  }

  lemma AfterIsSound(inherited: nat, opening: Ledger, st: State, s: Splice, discard: bool)
    requires Sound(inherited, opening, st) && Accepts(st.lists, s) && s.canceled == (discard && RemovedCount(s) > 0)
    ensures Sound(inherited, opening, After(st, s, discard))
  {
    hide Accounted, Told, UniqueIds, Posted, Applied, Removed, Notes, Replay, Books, Fold;
    var owned := st.log[inherited..];
    SplicedIsValid(st.log, s);
    OwnedOneMore(st.log, InboxSpliced(s), inherited);
    SplicedReplay(owned, st.lists, s);
    PostedIsTold(opening, Books(owned), st.lists, s, st.published + st.queue, st.unclaimed, discard);
    QueueMore(st.published, st.queue, Notes(Removed(st.lists, s), s.inserted, discard));
  }

  lemma QueueMore(published: seq<Note>, queue: seq<Note>, more: seq<Note>)
    ensures published + (queue + more) == published + queue + more
  {
  }

  /** Publishing the queue changes nothing else. */
  ghost function Drained(st: State): State {
    st.(published := st.published + st.queue, queue := [])
  }

  lemma DrainedIsSound(inherited: nat, opening: Ledger, st: State)
    requires Sound(inherited, opening, st)
    ensures Sound(inherited, opening, Drained(st))
  {
    assert st.published + st.queue + [] == st.published + st.queue;
  }

  /** Whatever else the session logs leaves the inbox sound. */
  lemma OthersKeepSound(inherited: nat, opening: Ledger, st: State, e: Event)
    requires Sound(inherited, opening, st) && !e.InboxSpliced? && ValidLog(st.log + [e])
    ensures Sound(inherited, opening, st.(log := st.log + [e]))
  {
    hide Accounted, Fold;
    var owned := st.log[inherited..];
    assert (st.log + [e])[inherited..] == owned + [e];
    ReplayOneMore(owned, e);
    BooksOneMore(owned, e);
  }

  lemma DistinctWithoutSlice(all: seq<string>, from: nat, to: nat)
    requires Distinct(all) && from <= to <= |all|
    ensures Distinct(all[..from] + all[to..])
  {
    var kept := all[..from] + all[to..];
    forall i, j | 0 <= i < j < |kept| ensures kept[i] != kept[j] {
      var i', j' := if i < from then i else i + to - from, if j < from then j else j + to - from;
      assert kept[i] == all[i'] && kept[j] == all[j'];
    }
  }

  lemma DeletedFrom(a: seq<Message>, b: seq<Message>, from: nat, to: nat)
    requires from <= to <= |b|
    ensures a + (b[..from] + b[to..]) == (a + b)[..|a| + from] + (a + b)[|a| + to..]
  {
  }

  lemma DeletedBefore(a: seq<Message>, b: seq<Message>, from: nat, to: nat)
    requires from <= to <= |a|
    ensures (a[..from] + a[to..]) + b == (a + b)[..from] + (a + b)[to..]
  {
  }

  /** Both lists after a deletion, one after the other, are both lists without one slice. */
  lemma DeletedSlice(l: Lists, s: Splice)
    requires InRange(l, s) && s.inserted == []
    ensures var from := if s.target == NextTurn then s.start else |l.nextTurn| + s.start;
            var to, all, rest := from + RemovedCount(s), l.nextTurn + l.nextStep, Applied(l, s);
            0 <= from <= to <= |all| && rest.nextTurn + rest.nextStep == all[..from] + all[to..]
  {
    var list, end := List(l, s.target), s.start + RemovedCount(s);
    assert list[..s.start] + [] + list[end..] == list[..s.start] + list[end..];
    if s.target == NextTurn {
      DeletedBefore(l.nextTurn, l.nextStep, s.start, end);
    } else {
      DeletedFrom(l.nextTurn, l.nextStep, s.start, end);
    }
  }

  /** A pure deletion cannot make an id pending twice. */
  lemma DeletionIsAccepted(l: Lists, s: Splice)
    requires UniqueIds(l) && InRange(l, s) && s.inserted == []
    ensures Accepts(l, s)
  {
    hide Distinct, Applied, InRange;
    DeletedSlice(l, s);
    var all := l.nextTurn + l.nextStep;
    var from := if s.target == NextTurn then s.start else |l.nextTurn| + s.start;
    var to := from + RemovedCount(s);
    IdsWithoutSlice(all, from, to);
    DistinctWithoutSlice(Ids(all), from, to);
  }

  lemma IdsWithoutSlice(all: seq<Message>, from: nat, to: nat)
    requires from <= to <= |all|
    ensures Ids(all[..from] + all[to..]) == Ids(all)[..from] + Ids(all)[to..]
  {
  }

  class Inbox {
    const session: Session
    const inherited: nat
    var nextTurn: seq<Message>
    var nextStep: seq<Message>
    var pendingNotifications: seq<Note>
    var published: seq<Note>
    ghost const opening: Ledger
    ghost var unclaimed: multiset<Message>

    ghost function Snapshot(): State
      reads this, session
    {
      State(Lists(nextTurn, nextStep), session.log, published, pendingNotifications, unclaimed)
    }

    ghost predicate Valid()
      reads this, session
    {
      Sound(inherited, opening, Snapshot())
    }

    function ListOf(target: Target): seq<Message>
      reads this
    {
      if target == NextTurn then nextTurn else nextStep
    }

    /** An inbox over an owned log whose splices replay cleanly. */
    constructor (session: Session, inherited: nat, nextTurn: seq<Message>, nextStep: seq<Message>)
      requires ValidLog(session.log) && inherited <= |session.log|
      requires Replay(session.log[inherited..]) == Some(Lists(nextTurn, nextStep))
      ensures Valid() && pendingNotifications == published == [] && unclaimed == multiset{}
      ensures this.session == session && this.inherited == inherited && this.nextTurn == nextTurn && this.nextStep == nextStep
    {
      this.session, this.inherited, this.nextTurn, this.nextStep := session, inherited, nextTurn, nextStep;
      pendingNotifications, published, unclaimed := [], [], multiset{};
      opening := Books(session.log[inherited..]);
      new;
      assert Told([] + []) == Ledger(multiset{}, multiset{}, multiset{});
      SumNothing(opening);
    }

    /** Accumulates ids and stops at the first one seen before. */
    static method CheckIds(messages: seq<Message>, seen: set<string>) returns (ok: bool, ids: set<string>)
      ensures ok <==> Distinct(Ids(messages)) && forall i :: 0 <= i < |messages| ==> messages[i].id !in seen
      ensures ok ==> ids == seen + set i | 0 <= i < |messages| :: messages[i].id
    {
      ids := seen;
      for n := 0 to |messages|
        invariant ids == seen + set i | 0 <= i < n :: messages[i].id
        invariant forall i, j :: 0 <= i < j < n ==> messages[i].id != messages[j].id
        invariant forall i :: 0 <= i < n ==> messages[i].id !in seen
      {
        if messages[n].id in ids {
          if messages[n].id !in seen {
            var i :| 0 <= i < n && messages[i].id == messages[n].id;
            assert Ids(messages)[i] == Ids(messages)[n];
          }
          return false, ids;
        }
        ids := ids + {messages[n].id};
      }
      ok := true;
    }

    /** Coordinates in range and no id pending twice across both lists. */
    static method Validate(l: Lists, s: Splice) returns (ok: bool)
      ensures ok <==> Accepts(l, s)
    {
      var inbox := List(l, s.target);
      var removedCount := RemovedCount(s);
      if s.start < 0 || s.start > |inbox| || removedCount < 0 || s.start + removedCount > |inbox| { return false; }
      var candidate := inbox[..s.start] + s.inserted + inbox[s.start + removedCount..];
      var first := if s.target == NextTurn then candidate else l.nextTurn;
      var second := if s.target == NextTurn then l.nextStep else candidate;
      assert Applied(l, s) == Lists(first, second);
      ok := CheckBoth(first, second);
    }

    static method CheckBoth(first: seq<Message>, second: seq<Message>) returns (ok: bool)
      ensures ok <==> Distinct(Ids(first + second))
    {
      IdsApart(first, second);
      var ids;
      ok, ids := CheckIds(first, {});
      if ok { ok, ids := CheckIds(second, ids); }
    }

    /** Replays the owned log; a malformed splice fails loud. */
    static method NewInbox(session: Session, inherited: nat) returns (r: Option<Inbox>)
      requires ValidLog(session.log) && inherited <= |session.log|
      ensures r.Some? <==> Replay(session.log[inherited..]).Some?
      ensures r.Some? ==>
        && fresh(r.value) && r.value.Valid() && r.value.session == session && r.value.inherited == inherited
        && Some(Lists(r.value.nextTurn, r.value.nextStep)) == Replay(session.log[inherited..])
    {
      hide Replay, Sound, Fold;
      var replayed := ReplayOwned(session.log[inherited..]);
      match replayed
      case None => return None;
      case Some(l) =>
      var inbox := new Inbox(session, inherited, l.nextTurn, l.nextStep);
      return Some(inbox);
    }

    static method ReplayOwned(owned: Log) returns (r: Option<Lists>)
      ensures r == Replay(owned)
    {
      hide Accepts, Applied;
      var l := Lists([], []);
      for i := 0 to |owned|
        invariant Replay(owned[..i]) == Some(l)
      {
        assert owned[..i + 1] == owned[..i] + [owned[i]];
        ReplayOneMore(owned[..i], owned[i]);
        if owned[i].InboxSpliced? {
          var s := owned[i].splice;
          var ok := Validate(l, s);
          if !ok {
            MalformedStays(owned, i + 1);
            return None;
          }
          AcceptedIsInRange(l, s);
          l := Applied(l, s);
        }
      }
      assert owned[..|owned|] == owned;
      return Some(l);
    }

    /** Publishes the queued notifications after the lock was released. */
    method Drain()
      requires Valid()
      modifies this
      ensures Valid() && Snapshot() == Drained(old(Snapshot()))
    {
      hide Sound;
      DrainedIsSound(inherited, opening, Snapshot());
      published, pendingNotifications := published + pendingNotifications, [];
    }

    /** Replaces the spliced list and queues the notifications of the change. */
    method Apply(s: Splice, discard: bool) returns (removed: seq<Message>)
      requires InRange(Lists(nextTurn, nextStep), s)
      modifies this
      ensures removed == Removed(old(Lists(nextTurn, nextStep)), s)
      ensures Lists(nextTurn, nextStep) == Applied(old(Lists(nextTurn, nextStep)), s)
      ensures pendingNotifications == old(pendingNotifications) + Notes(removed, s.inserted, discard) && published == old(published)
      ensures unclaimed == old(unclaimed) + if discard then multiset{} else multiset(removed)
    {
      hide Notes;
      var inbox, count := ListOf(s.target), RemovedCount(s);
      removed := inbox[s.start..s.start + count];
      var updated := inbox[..s.start] + s.inserted + inbox[s.start + count..];
      if s.target == NextTurn { nextTurn := updated; } else { nextStep := updated; }
      pendingNotifications := pendingNotifications + Notes(removed, s.inserted, discard);
      unclaimed := unclaimed + if discard then multiset{} else multiset(removed);
    }

    /** Validates one normalized splice, logs it and applies it. */
    method Commit(s: Splice, discard: bool) returns (r: Result<seq<Message>, Error>)
      requires Valid() && InRange(Snapshot().lists, s) && s.canceled == (discard && RemovedCount(s) > 0)
      modifies this, session
      ensures Valid()
      ensures r.Err? ==> Snapshot() == old(Snapshot()) && r.error in {AlreadyPending, Refused}
      ensures r == Err(AlreadyPending) <==> !Accepts(old(Snapshot()).lists, s)
      ensures r == Err(Refused) <==> session.refusals != old(session.refusals)
      ensures r.Ok? ==> r.value == Removed(old(Snapshot()).lists, s) && Snapshot() == After(old(Snapshot()), s, discard)
    {
      hide Sound, UniqueIds, Notes, Accepts, Fold, InRange, Removed, Applied;
      ghost var was := Snapshot();
      SoundLog(inherited, opening, was);
      var ok := Validate(Lists(nextTurn, nextStep), s);
      if !ok { return Err(AlreadyPending); }
      ok := session.Append(InboxSpliced(s));
      if !ok { return Err(Refused); }
      AfterIsSound(inherited, opening, was, s, discard);
      var removed := Apply(s, discard);
      return Ok(removed);
    }

    /** Commits one mutation in normalized form: refused ones change nothing, and the durable event
        is exactly what a replay applies. */
    method MutateLocked(target: Target, start: int, deleteCount: int, inserted: seq<Message>, discardRemoved: bool)
      returns (r: Result<seq<Message>, Error>)
      requires Valid()
      modifies this, session
      ensures r == Err(Refused) <==> session.refusals != old(session.refusals)
      ensures Valid()
      ensures var was := old(Snapshot());
              var s := Normalized(was.lists, target, start, deleteCount, inserted, discardRemoved);
              InRange(was.lists, s) && Outcome(was, s, discardRemoved, r, Snapshot())
    {
      hide Sound, UniqueIds, Accepts, After, InRange;
      ghost var was := Snapshot();
      var actualStart, actualDeleteCount := Normalize(|ListOf(target)|, start, deleteCount);
      NormalizedIsInRange(was.lists, target, start, deleteCount, inserted, discardRemoved);
      if actualDeleteCount == 0 && inserted == [] { return Ok([]); }
      var s := SessionLog.Splice(target, actualStart, if actualDeleteCount > 0 then Some(actualDeleteCount) else None, inserted,
                      discardRemoved && actualDeleteCount > 0);
      r := Commit(s, discardRemoved);
    }
  
    /** Standard splice semantics; the removed messages are published as discarded. */
    method Splice(target: Target, start: int, deleteCount: int, inserted: seq<Message>) returns (r: Result<seq<Message>, Error>)
      requires Valid()
      modifies this, session
      ensures r == Err(Refused) <==> session.refusals != old(session.refusals)
      ensures Valid() && pendingNotifications == []
      ensures Effected(old(Snapshot()), target, start, deleteCount, inserted, r, Snapshot())
      // What precedes and what follows the deleted messages keeps its order.
      ensures var list := old(ListOf(target));
              var i := EcmaStart(|list|, start);
              var j := i + EcmaDeleteCount(|list|, start, deleteCount);
              r.Ok? ==> r.value == list[i..j] && ListOf(target) == list[..i] + inserted + list[j..]
      ensures target == NextTurn || r.Err? ==> nextStep == old(nextStep)
      ensures target == NextStep || r.Err? ==> nextTurn == old(nextTurn)
    {
      hide Sound, Accepts, After;
      r := MutateLocked(target, start, deleteCount, inserted, true);
      Drain();
      EffectOnLists(old(Snapshot()), target, start, deleteCount, inserted, r, Snapshot());
    }

    method Append(target: Target, message: Message) returns (r: Result<seq<Message>, Error>)
      requires Valid()
      modifies this, session
      ensures r == Err(Refused) <==> session.refusals != old(session.refusals)
      ensures Valid() && pendingNotifications == []
      ensures Effected(old(Snapshot()), target, |old(ListOf(target))|, 0, [message], r, Snapshot())
      ensures r.Ok? ==> ListOf(target) == old(ListOf(target)) + [message]
      ensures target == NextTurn || r.Err? ==> nextStep == old(nextStep)
      ensures target == NextStep || r.Err? ==> nextTurn == old(nextTurn)
    {
      hide Sound, Accepts, After;
      r := MutateLocked(target, |ListOf(target)|, 0, [message], true);
      Drain();
      EffectOnLists(old(Snapshot()), target, |old(ListOf(target))|, 0, [message], r, Snapshot());
    }

    method Prepend(target: Target, message: Message) returns (r: Result<seq<Message>, Error>)
      requires Valid()
      modifies this, session
      ensures r == Err(Refused) <==> session.refusals != old(session.refusals)
      ensures Valid() && pendingNotifications == []
      ensures Effected(old(Snapshot()), target, 0, 0, [message], r, Snapshot())
      ensures r.Ok? ==> ListOf(target) == [message] + old(ListOf(target))
      ensures target == NextTurn || r.Err? ==> nextStep == old(nextStep)
      ensures target == NextStep || r.Err? ==> nextTurn == old(nextTurn)
    {
      hide Sound, Effected;
      r := Splice(target, 0, 0, [message]);
      EffectOnLists(old(Snapshot()), target, 0, 0, [message], r, Snapshot());
    }

    /** Finds one pending identity, next-turn first. */
    method Locate(id: string) returns (r: Option<(Target, nat)>)
      ensures r.None? <==> !IsPending(Lists(nextTurn, nextStep), id)
      ensures r.Some? ==> r.value.1 < |ListOf(r.value.0)| && ListOf(r.value.0)[r.value.1].id == id
    {
      for i := 0 to |nextTurn|
        invariant forall k :: 0 <= k < i ==> nextTurn[k].id != id
      {
        if nextTurn[i].id == id { return Some((NextTurn, i)); }
      }
      for i := 0 to |nextStep|
        invariant forall k :: 0 <= k < i ==> nextStep[k].id != id
      {
        if nextStep[i].id == id { return Some((NextStep, i)); }
      }
      return None;
    }

    /** Puts `replacement` in the place of the one pending message with the id, or removes it when
        there is none. */
    method Substitute(id: string, replacement: Option<Message>) returns (r: Result<bool, Error>)
      requires Valid() && pendingNotifications == []
      modifies this, session
      ensures r == Err(Refused) <==> session.refusals != old(session.refusals)
      ensures Valid() && pendingNotifications == []
      ensures r == Ok(false) <==> !IsPending(old(Lists(nextTurn, nextStep)), id)
      ensures r != Ok(true) ==> Snapshot() == old(Snapshot())
      ensures r == Ok(true) ==> Substituted(old(Snapshot()), id, replacement, Snapshot())
      ensures r.Err? ==> r.error == Refused || (r.error == AlreadyPending && replacement.Some?)
    {
      hide Sound, Accepts, UniqueIds, After;
      ghost var was := Snapshot();
      var place := Locate(id);
      if place.None? { return Ok(false); }
      var (target, index) := place.value;
      var inserted := if replacement.Some? then [replacement.value] else [];
      OneDeleted(was.lists, target, index, inserted);
      SoundInboxConserves(inherited, opening, was);
      var done := MutateLocked(target, index, 1, inserted, true);
      ghost var mid := Snapshot();
      Drain();
      match done
      case Err(e) =>
        assert was.published + [] == was.published;
        if replacement.None? { DeletionIsAccepted(was.lists, SessionLog.Splice(target, index, Some(1), inserted, true)); }
        return Err(e);
      case Ok(_) =>
        SubstitutedAfter(was, id, replacement, target, index);
        return Ok(true);
    }

    method Replace(id: string, message: Message) returns (r: Result<bool, Error>)
      requires Valid() && pendingNotifications == []
      modifies this, session
      ensures r == Err(Refused) <==> session.refusals != old(session.refusals)
      ensures Valid() && pendingNotifications == []
      ensures r == Ok(false) <==> !IsPending(old(Lists(nextTurn, nextStep)), id)
      ensures r != Ok(true) ==> Snapshot() == old(Snapshot())
      ensures r == Ok(true) ==> Substituted(old(Snapshot()), id, Some(message), Snapshot())
    {
      hide Sound, Substituted, IsPending;
      r := Substitute(id, Some(message));
    }

    method Remove(id: string) returns (r: Result<bool, Error>)
      requires Valid() && pendingNotifications == []
      modifies this, session
      ensures r == Err(Refused) <==> session.refusals != old(session.refusals)
      ensures Valid() && pendingNotifications == []
      ensures r == Ok(false) <==> !IsPending(old(Lists(nextTurn, nextStep)), id)
      ensures r != Ok(true) ==> Snapshot() == old(Snapshot())
      ensures r.Err? ==> r.error == Refused
      ensures r == Ok(true) ==> Substituted(old(Snapshot()), id, None, Snapshot())
    {
      hide Sound, Substituted, IsPending;
      r := Substitute(id, None);
    }

    /** Removes the first `count` messages of a list: only the session can refuse that. */
    method RemoveFirst(target: Target, count: nat, discard: bool) returns (r: Result<seq<Message>, Error>)
      requires Valid() && count <= |ListOf(target)|
      modifies this, session
      ensures r == Err(Refused) <==> session.refusals != old(session.refusals)
      ensures Valid()
      ensures r.Err? ==> r.error == Refused && count > 0 && Snapshot() == old(Snapshot())
      ensures r.Ok? ==> r.value == old(ListOf(target))[..count] && Snapshot() == Shortened(old(Snapshot()), target, count, discard)
    {
      hide Sound, Accepts, UniqueIds;
      ghost var was := Snapshot();
      SoundInboxConserves(inherited, opening, was);
      NormalizedIsInRange(was.lists, target, 0, count, [], discard);
      DeletionIsAccepted(was.lists, Normalized(was.lists, target, 0, count, [], discard));
      ShortenedAfter(was, target, count, discard);
      r := MutateLocked(target, 0, count, [], discard);
    }

    /** Durably cancels all pending input, next-step first.  A refused second splice leaves the
        first in force. */
    method Clear() returns (r: Result<(), Error>)
      requires Valid() && pendingNotifications == []
      modifies this, session
      ensures r == Err(Refused) <==> session.refusals != old(session.refusals)
      ensures Valid() && pendingNotifications == [] && unclaimed == old(unclaimed)
      ensures r.Ok? ==> nextTurn == nextStep == [] && published == old(published) + (Discards(old(nextStep)) + Discards(old(nextTurn)))
      ensures r.Err? ==>
        && nextTurn == old(nextTurn) && nextTurn + old(nextStep) != []
        && if nextStep == old(nextStep) then published == old(published)
           else nextStep == [] && published == old(published) + Discards(old(nextStep))
    {
      hide Sound, Shortened;
      ghost var was := Snapshot();
      EmptiedList(was, NextStep);
      var first := RemoveFirst(NextStep, |nextStep|, true);
      if first.Err? { return Err(Refused); }
      ghost var half := Snapshot();
      EmptiedList(half, NextTurn);
      var second := RemoveFirst(NextTurn, |nextTurn|, true);
      Drain();
      assert [] + Discards(was.lists.nextStep) == Discards(was.lists.nextStep);
      return if second.Err? then Err(Refused) else Ok(());
    }

    /** The deletions of one claim; their messages are not published yet. */
    method TakeBatch(target: Target) returns (r: Result<seq<Message>, Error>)
      requires Valid() && pendingNotifications == []
      modifies this, session
      ensures r == Err(Refused) <==> session.refusals != old(session.refusals)
      ensures Valid() && pendingNotifications == [] && published == old(published)
      ensures var queued := if target == NextTurn && old(nextTurn) != [] then 1 else 0;
              && (r.Ok? ==>
                    && r.value == old(nextStep) + old(nextTurn)[..queued] && nextStep == [] && nextTurn == old(nextTurn)[queued..]
                    && unclaimed == old(unclaimed) + multiset(r.value))
              && (r.Err? ==>
                    && r.error == Refused && nextTurn == old(nextTurn)
                    && if nextStep == old(nextStep) then unclaimed == old(unclaimed)
                       else queued == 1 && nextStep == [] && unclaimed == old(unclaimed) + multiset(old(nextStep)))
    {
      hide Sound;
      ghost var step := nextStep;
      assert step[..|step|] == step && step[|step|..] == [];
      r := RemoveFirst(NextStep, |nextStep|, false);
      if r.Err? { return; }
      assert unclaimed == old(unclaimed) + multiset(step);
      if target == NextTurn && nextTurn != [] {
        var batch, all, before := r.value, nextTurn, unclaimed;
        r := RemoveFirst(NextTurn, 1, false);
        if r.Err? { return; }
        assert unclaimed == before + multiset(all[..1]);
        assert multiset(batch + all[..1]) == multiset(batch) + multiset(all[..1]);
        r := Ok(batch + r.value);
      }
    }

    /** Takes the batch of one step, and with `NextTurn` also one queued turn.  When the session
        refuses the second splice the first stays in force and its messages are never published. */
    method Claim(target: Target, turn: nat) returns (r: Result<seq<Message>, Error>)
      requires Valid() && pendingNotifications == []
      modifies this, session
      ensures r == Err(Refused) <==> session.refusals != old(session.refusals)
      ensures Valid() && pendingNotifications == []
      ensures var queued := if target == NextTurn && old(nextTurn) != [] then 1 else 0;
              && (r.Ok? ==>
                    && r.value == old(nextStep) + old(nextTurn)[..queued]
                    && nextStep == [] && nextTurn == old(nextTurn)[queued..]
                    && published == old(published) + Claims(r.value, turn) && unclaimed == old(unclaimed))
              && (r.Err? ==>
                    && r.error == Refused && published == old(published) && nextTurn == old(nextTurn)
                    && if nextStep == old(nextStep) then unclaimed == old(unclaimed)
                       else queued == 1 && nextStep == [] && unclaimed == old(unclaimed) + multiset(old(nextStep)))
    {
      hide Sound;
      r := TakeBatch(target);
      match r
      case Err(_) =>
      case Ok(batch) =>
        ClaimsSettle(inherited, opening, Snapshot(), old(unclaimed), batch, turn);
        published := published + Claims(batch, turn);
        unclaimed := old(unclaimed);
    }
  }

  /** A splice without effect is not logged; any other is applied whole or changes nothing. */
  ghost predicate Outcome(was: State, s: Splice, discard: bool, r: Result<seq<Message>, Error>, now: State)
    requires InRange(was.lists, s)
  {
    var effect := s.removedCount.Some? || s.inserted != [];
    && (r.Err? ==> effect && now == was && r.error in {AlreadyPending, Refused})
    && (r == Err(AlreadyPending) <==> effect && !Accepts(was.lists, s))
    && (r.Ok? ==> r.value == Removed(was.lists, s) && now == if effect then After(was, s, discard) else was)
  }

  lemma AcceptedIsInRange(l: Lists, s: Splice)
    requires Accepts(l, s)
    ensures InRange(l, s)
  {
  }

  lemma SoundLog(inherited: nat, opening: Ledger, st: State)
    requires Sound(inherited, opening, st)
    ensures ValidLog(st.log)
  {
  }

  lemma IdsApart(a: seq<Message>, b: seq<Message>)
    ensures Distinct(Ids(a + b)) <==>
      && Distinct(Ids(a)) && Distinct(Ids(b))
      && forall j :: 0 <= j < |b| ==> b[j].id !in (set i | 0 <= i < |a| :: a[i].id)
  {
    var all := a + b;
    forall i, j | 0 <= i < |a| && 0 <= j < |b| && Distinct(Ids(all)) ensures a[i].id != b[j].id {
      assert Ids(all)[i] != Ids(all)[|a| + j];
    }
    forall i, j | 0 <= i < j < |b| && Distinct(Ids(all)) ensures b[i].id != b[j].id {
      assert Ids(all)[|a| + i] != Ids(all)[|a| + j];
    }
    forall i, j | 0 <= i < j < |a| && Distinct(Ids(all)) ensures a[i].id != a[j].id {
      assert Ids(all)[i] != Ids(all)[j];
    }
    if Distinct(Ids(a)) && Distinct(Ids(b)) && forall j :: 0 <= j < |b| ==> b[j].id !in (set i | 0 <= i < |a| :: a[i].id) {
      forall i, j | 0 <= i < j < |all| ensures all[i].id != all[j].id {
        if j < |a| {
          assert Ids(a)[i] != Ids(a)[j];
        } else if i >= |a| {
          assert Ids(b)[i - |a|] != Ids(b)[j - |a|];
        } else {
          assert all[j] == b[j - |a|] && all[i] == a[i];
        }
      }
    }
  }

  predicate IsPending(l: Lists, id: string) {
    (exists k :: 0 <= k < |l.nextTurn| && l.nextTurn[k].id == id) || (exists k :: 0 <= k < |l.nextStep| && l.nextStep[k].id == id)
  }

  /** What one public splice did: `Outcome`, then the published queue. */
  ghost predicate Effected(was: State, target: Target, start: int, deleteCount: int, inserted: seq<Message>, r: Result<seq<Message>, Error>, now: State) {
    var s := Normalized(was.lists, target, start, deleteCount, inserted, true);
    var effect := s.removedCount.Some? || s.inserted != [];
    && InRange(was.lists, s)
    && (r.Err? ==> effect && r.error in {AlreadyPending, Refused} && now == Drained(was))
    && (r == Err(AlreadyPending) <==> effect && !Accepts(was.lists, s))
    && (r.Ok? ==> r.value == Removed(was.lists, s) && now == Drained(if effect then After(was, s, true) else was))
  }

  /** What that means for the two lists. */
  lemma EffectOnLists(was: State, target: Target, start: int, deleteCount: int, inserted: seq<Message>, r: Result<seq<Message>, Error>, now: State)
    requires Effected(was, target, start, deleteCount, inserted, r, now)
    ensures var list := List(was.lists, target);
            var i := EcmaStart(|list|, start);
            var j := i + EcmaDeleteCount(|list|, start, deleteCount);
            r.Ok? ==> r.value == list[i..j] && List(now.lists, target) == list[..i] + inserted + list[j..]
    ensures target == NextTurn || r.Err? ==> now.lists.nextStep == was.lists.nextStep
    ensures target == NextStep || r.Err? ==> now.lists.nextTurn == was.lists.nextTurn
    ensures start == 0 && deleteCount == 0 && r.Ok? ==> List(now.lists, target) == inserted + List(was.lists, target)
    ensures start == |List(was.lists, target)| && deleteCount == 0 && r.Ok? ==> List(now.lists, target) == List(was.lists, target) + inserted
  {
    hide Accepts;
    var s, list := Normalized(was.lists, target, start, deleteCount, inserted, true), List(was.lists, target);
    if r.Ok? && !s.removedCount.Some? && inserted == [] {
      var i := EcmaStart(|list|, start);
      assert list[..i] + [] + list[i..] == list;
    }
    assert list[..0] + inserted + list[0..] == inserted + list;
    assert list[..|list|] + inserted + list[|list|..] == list + inserted;
  }

  /** The one message with the id is gone from its place or replaced there, and both facts published. */
  ghost predicate Substituted(was: State, id: string, replacement: Option<Message>, now: State) {
    var inserted := if replacement.Some? then [replacement.value] else [];
    exists target: Target, index: nat :: index < |List(was.lists, target)| &&
      var list := List(was.lists, target);
      && list[index].id == id
      && now.lists == WithList(was.lists, target, list[..index] + inserted + list[index + 1..])
      && now.published == was.published + (Discards([list[index]]) + Inserts(inserted))
      && now.log == was.log + [InboxSpliced(SessionLog.Splice(target, index, Some(1), inserted, true))]
      && now.unclaimed == was.unclaimed
  }

  lemma OneDeleted(l: Lists, target: Target, index: nat, inserted: seq<Message>)
    requires index < |List(l, target)|
    ensures Normalized(l, target, index, 1, inserted, true) == SessionLog.Splice(target, index, Some(1), inserted, true)
  {
  }

  lemma SubstitutedAfter(was: State, id: string, replacement: Option<Message>, target: Target, index: nat)
    requires index < |List(was.lists, target)| && List(was.lists, target)[index].id == id && was.queue == []
    ensures var inserted := if replacement.Some? then [replacement.value] else [];
            var s := SessionLog.Splice(target, index, Some(1), inserted, true);
            InRange(was.lists, s) && Substituted(was, id, replacement, Drained(After(was, s, true)))
  {
    hide Discards, Inserts;
    var list := List(was.lists, target);
    assert list[index..index + 1] == [list[index]];
    assert was.unclaimed + multiset{} == was.unclaimed;
  }

  /** The first `count` messages of a list removed. */
  ghost function Shortened(st: State, target: Target, count: nat, discard: bool): State
    requires count <= |List(st.lists, target)|
  {
    if count == 0 then st
    else
      var list := List(st.lists, target);
      State(WithList(st.lists, target, list[count..]),
            st.log + [InboxSpliced(SessionLog.Splice(target, 0, Some(count), [], discard))], st.published,
            st.queue + if discard then Discards(list[..count]) else [],
            st.unclaimed + if discard then multiset{} else multiset(list[..count]))
  }

  /** The normalized form of removing the first `count` messages. */
  lemma FirstDeleted(l: Lists, target: Target, count: nat, discard: bool)
    requires count <= |List(l, target)|
    ensures Normalized(l, target, 0, count, [], discard) ==
            SessionLog.Splice(target, 0, if count > 0 then Some(count) else None, [], discard && count > 0)
  {
  }

  lemma FirstApplied(l: Lists, s: Splice, count: nat)
    requires count <= |List(l, s.target)| && s.start == 0 && RemovedCount(s) == count && s.inserted == []
    ensures InRange(l, s) && Removed(l, s) == List(l, s.target)[..count] && Applied(l, s) == WithList(l, s.target, List(l, s.target)[count..])
  {
    var list := List(l, s.target);
    assert list[..0] + [] + list[count..] == list[count..];
  }

  lemma NotesOfDeletion(removed: seq<Message>, discard: bool)
    ensures Notes(removed, [], discard) == if discard then Discards(removed) else []
  {
    assert Inserts([]) == [];
    var head := if discard then Discards(removed) else [];
    assert head + [] == head;
  }

  lemma ShortenedAfter(st: State, target: Target, count: nat, discard: bool)
    requires count <= |List(st.lists, target)|
    ensures var s := Normalized(st.lists, target, 0, count, [], discard);
            && InRange(st.lists, s) && Removed(st.lists, s) == List(st.lists, target)[..count]
            && (count == 0 <==> s.removedCount.None?)
            && (count > 0 ==> After(st, s, discard) == Shortened(st, target, count, discard))
  {
    hide Discards, Notes, Applied, Removed, InRange, WithList, Normalized;
    var s := Normalized(st.lists, target, 0, count, [], discard);
    FirstDeleted(st.lists, target, count, discard);
    FirstApplied(st.lists, s, count);
    NotesOfDeletion(List(st.lists, target)[..count], discard);
  }

  /** A list emptied as discarded: the other list stays, and all its messages are queued as discarded. */
  lemma EmptiedList(st: State, target: Target)
    ensures var list := List(st.lists, target);
            var after := Shortened(st, target, |list|, true);
            && after.lists == WithList(st.lists, target, []) && after.published == st.published
            && after.queue == st.queue + Discards(list) && after.unclaimed == st.unclaimed
  {
    var list := List(st.lists, target);
    assert list[..|list|] == list && list[|list|..] == [];
    assert list == [] ==> Discards(list) == [] && st.queue + [] == st.queue && WithList(st.lists, target, []) == st.lists;
    assert st.unclaimed + multiset{} == st.unclaimed;
  }

  /** Publishing removed messages as claimed settles them. */
  lemma ClaimsSettle(inherited: nat, opening: Ledger, st: State, unclaimed: multiset<Message>, batch: seq<Message>, turn: nat)
    requires Sound(inherited, opening, st) && st.queue == [] && st.unclaimed == unclaimed + multiset(batch)
    ensures Sound(inherited, opening, st.(published := st.published + Claims(batch, turn), unclaimed := unclaimed))
  {
    hide Told, Fold, Replay, Books, Claims;
    var notes := Claims(batch, turn);
    assert st.published + [] == st.published && st.published + notes + [] == st.published + notes;
    ToldConcat(st.published, notes);
    ToldUniform(batch, turn);
    MoveClaimed(opening, Told(st.published), unclaimed, multiset(batch));
  }

  lemma MoveClaimed(a: Ledger, b: Ledger, unclaimed: multiset<Message>, batch: multiset<Message>)
    ensures Sum(Sum(a, b), Ledger(multiset{}, unclaimed + batch, multiset{}))
            == Sum(Sum(a, Sum(b, Ledger(multiset{}, batch, multiset{}))), Ledger(multiset{}, unclaimed, multiset{}))
  {
  }
}
