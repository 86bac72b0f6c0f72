/**
 The activity watcher: a relay of confirmed blocks to a chat channel through a
 transactional outbox. Every answer of the node, every post and every commit is
 an input, indexed by the number of the call, so that a cycle may break off at
 any call: a crash between two calls leaves what the failing call would leave.

 The rendering of a transaction into messages is not part of this model: it is a
 parameter, an arbitrary partial function.
 */
module ActivityWatch {
  import opened Wrappers

  const CONFIRMATIONS: int := 5
  const MAX_BLOCKS: nat := 50
  const MAX_DELIVERIES: nat := 20
  const DAY: int := 86400

  datatype Block = Block(hash: nat, parent: nat, txs: seq<nat>)

  datatype Results = Results(height: int, receipts: seq<nat>)

  datatype Post = Accepted | Rejected | RateLimited(delay: int)

  /** A commit that took effect, that did not, or that did but reported an error. */
  datatype Commit = Done | Failed | Unsure

  /** Everything outside the process, by the number of the call. */
  datatype World = World(
    now: nat -> int,
    head: nat -> Option<int>,
    block: (nat, int) -> Option<Block>,
    results: (nat, int) -> Option<Results>,
    post: nat -> Post,
    commit: nat -> Commit,
    resumed: nat -> bool)

  datatype Message = Message(height: int, hash: nat, content: string)

  datatype Row = Row(id: nat, message: Message)

  datatype Cursor = Cursor(height: int, hash: nat, heartbeat: int)

  type Render = (int, nat, nat) -> Option<seq<string>>

  // ----- what was enqueued, and why

  /** A block with its receipts, and what each of its transactions is rendered to. */
  datatype Fetched = Fetched(block: Block, receipts: seq<nat>, parts: seq<seq<string>>)

  predicate RenderedAt(render: Render, height: int, f: Fetched, i: int) {
    0 <= i < |f.parts| && |f.parts| <= |f.block.txs| && |f.parts| <= |f.receipts| ==>
      render(height, f.block.txs[i], f.receipts[i]) == Some(f.parts[i])
  }

  /** It continues the chain of `hash`, has a receipt for every transaction, and is rendered in full. */
  ghost predicate Continues(render: Render, height: int, hash: nat, f: Fetched) {
    && f.block.parent == hash && |f.receipts| == |f.block.txs| == |f.parts|
    && forall i :: RenderedAt(render, height, f, i)
  }

  /** All parts, in order. */
  function Concat(parts: seq<seq<string>>): seq<string> {
    if parts == [] then [] else Concat(parts[..|parts| - 1]) + parts[|parts| - 1]
  }

  predicate Readable(render: Render, height: int, txs: seq<nat>, receipts: seq<nat>, i: int)
    requires |txs| == |receipts|
  {
    0 <= i < |txs| ==> render(height, txs[i], receipts[i]).Some?
  }

  /** The loop over a block's transactions; one that cannot be read ends it. */
  method RenderAll(render: Render, height: int, b: Block, receipts: seq<nat>) returns (r: Option<seq<seq<string>>>)
    requires |b.txs| == |receipts|
    ensures r.Some? ==> |r.value| == |b.txs| && forall i :: RenderedAt(render, height, Fetched(b, receipts, r.value), i)
    ensures r.Some? <==> forall i :: Readable(render, height, b.txs, receipts, i)
  {
    var parts: seq<seq<string>> := [];
    for i := 0 to |b.txs|
      invariant |parts| == i
      invariant forall k :: RenderedAt(render, height, Fetched(b, receipts, parts), k)
      invariant forall k | 0 <= k < i :: Readable(render, height, b.txs, receipts, k)
    {
      var m := render(height, b.txs[i], receipts[i]);
      if m.None? {
        assert !Readable(render, height, b.txs, receipts, i);
        return None;
      }
      ghost var was := Fetched(b, receipts, parts);
      parts := parts + [m.value];
      ghost var now := Fetched(b, receipts, parts);
      forall k ensures RenderedAt(render, height, now, k) {
        assert RenderedAt(render, height, was, k);
      }
    }
    r := Some(parts);
  }

  function Tagged(height: int, hash: nat, contents: seq<string>): (ms: seq<Message>)
    ensures |ms| == |contents| && forall i | 0 <= i < |ms| :: ms[i] == Message(height, hash, contents[i])
  {
    seq(|contents|, i requires 0 <= i < |contents| => Message(height, hash, contents[i]))
  }

  /**
   How many heartbeats there were, and of the last: its height, the time from which it counted the day, the clock
   when it was found due, and the time stored with it. Before the first, `at` is the time stored at first boot.
   */
  datatype Beats = Beats(count: nat, height: int, since: int, due: int, at: int)

  const NO_BEATS := Beats(0, 0, 0, 0, 0)

  /**
   One committed transaction: where it leaves the cursor, what it enqueues, how much was delivered before it, and
   the heartbeats up to it.
   */
  datatype Entry =
    | Notice(height: int, hash: nat, delivered: nat, content: string, beats: Beats)
    | Saved(height: int, hash: nat, delivered: nat, fetched: Fetched, beats: Beats)
    | Heartbeat(height: int, hash: nat, delivered: nat, content: string, beats: Beats)

  function ContentsOf(e: Entry): seq<string> {
    if e.Saved? then Concat(e.fetched.parts) else [e.content]
  }

  function MessagesOf(e: Entry): seq<Message> {
    Tagged(e.height, e.hash, ContentsOf(e))
  }

  /** One more heartbeat, a day after the last one, if there was one. */
  predicate Timely(a: Beats, b: Beats) {
    b.count == a.count + 1 && b.due - b.since >= DAY && (a.count > 0 ==> b.since == a.at)
  }

  /** `b` follows `a`: blocks form a hash chain, and everything before was delivered already. */
  ghost predicate Follows(render: Render, a: Entry, b: Entry) {
    && b.delivered == a.delivered + |MessagesOf(a)|
    && match b
       case Notice(_, _, _, _, _) => false
       case Saved(_, _, _, f, beats) => b.height == a.height + 1 && b.hash == f.block.hash && beats == a.beats
         && Continues(render, b.height, a.hash, f)
       case Heartbeat(_, _, _, _, beats) =>
         b.height == a.height && b.hash == a.hash && beats.height == b.height && Timely(a.beats, beats)
  }

  ghost predicate FollowsAt(render: Render, journal: seq<Entry>, i: int) {
    0 < i < |journal| ==> Follows(render, journal[i - 1], journal[i])
  }

  /** The messages of the `i`-th entry are in their place. */
  predicate RecordedAt(journal: seq<Entry>, all: seq<Message>, i: int) {
    0 <= i < |journal| ==>
      var ms := MessagesOf(journal[i]);
      journal[i].delivered + |ms| <= |all| && all[journal[i].delivered..journal[i].delivered + |ms|] == ms
  }

  /** One unbroken relay from the first notice on. */
  ghost predicate Linked(render: Render, journal: seq<Entry>) {
    && (forall i :: FollowsAt(render, journal, i))
    && (journal != [] ==> journal[0].Notice? && journal[0].delivered == 0 && journal[0].beats.count == 0)
  }

  /** The journal is one unbroken relay from the first notice on, and `all` is what it enqueued. */
  ghost predicate Chain(render: Render, journal: seq<Entry>, all: seq<Message>) {
    && Linked(render, journal)
    && (forall i :: RecordedAt(journal, all, i))
    && if journal == [] then all == []
       else
         var last := journal[|journal| - 1];
         |all| == last.delivered + |MessagesOf(last)|
  }

  /** `e` can come next. */
  ghost predicate Next(render: Render, journal: seq<Entry>, e: Entry) {
    if journal == [] then e.Notice? && e.delivered == 0 && e.beats.count == 0
    else Follows(render, journal[|journal| - 1], e)
  }

  lemma Appended(render: Render, journal: seq<Entry>, all: seq<Message>, e: Entry)
    requires Chain(render, journal, all) && Next(render, journal, e)
    ensures Chain(render, journal + [e], all + MessagesOf(e))
  {
    forall i ensures FollowsAt(render, journal + [e], i) {
      assert FollowsAt(render, journal, i);
    }
    forall i ensures RecordedAt(journal + [e], all + MessagesOf(e), i) {
      RecordedLater(render, journal, all, e, i);
    }
  }

  lemma RecordedLater(render: Render, journal: seq<Entry>, all: seq<Message>, e: Entry, i: int)
    requires Chain(render, journal, all) && Next(render, journal, e)
    ensures RecordedAt(journal + [e], all + MessagesOf(e), i)
  {
    assert RecordedAt(journal, all, i);
    if 0 <= i < |journal| {
      var from := journal[i].delivered;
      SamePart(all, MessagesOf(e), from, from + |MessagesOf(journal[i])|);
    }
  }

  /** Everything the entries enqueued, in order. */
  function Flatten(journal: seq<Entry>): seq<Message> {
    if journal == [] then [] else Flatten(journal[..|journal| - 1]) + MessagesOf(journal[|journal| - 1])
  }

  lemma FlattenStep(journal: seq<Entry>, i: nat)
    requires 0 < i <= |journal|
    ensures Flatten(journal[..i]) == Flatten(journal[..i - 1]) + MessagesOf(journal[i - 1])
  {
    assert journal[..i][..i - 1] == journal[..i - 1];
  }

  lemma Joined<T>(s: seq<T>, from: nat, to: nat)
    requires from <= to <= |s|
    ensures s[..to] == s[..from] + s[from..to]
  {
  }

  /** The messages of the entry before the `i`-th end where the `i`-th starts. */
  lemma EntryPart(render: Render, journal: seq<Entry>, all: seq<Message>, i: nat)
    requires Chain(render, journal, all) && 0 < i < |journal|
    ensures journal[i - 1].delivered <= journal[i].delivered <= |all|
    ensures all[journal[i - 1].delivered..journal[i].delivered] == MessagesOf(journal[i - 1])
  {
    assert RecordedAt(journal, all, i) && FollowsAt(render, journal, i) && RecordedAt(journal, all, i - 1);
  }

  lemma {:induction false} FlattenUpTo(render: Render, journal: seq<Entry>, all: seq<Message>, i: nat)
    requires Chain(render, journal, all) && i < |journal|
    ensures journal[i].delivered <= |all| && all[..journal[i].delivered] == Flatten(journal[..i])
    decreases i
  {
    if i == 0 {
      assert RecordedAt(journal, all, 0);
    } else {
      FlattenUpTo(render, journal, all, i - 1);
      EntryPart(render, journal, all, i);
      Joined(all, journal[i - 1].delivered, journal[i].delivered);
      FlattenStep(journal, i);
    }
  }

  /** The last entry's messages end the log. */
  lemma LastPart(render: Render, journal: seq<Entry>, all: seq<Message>)
    requires Chain(render, journal, all) && journal != []
    ensures var last := journal[|journal| - 1];
      last.delivered <= |all| && all[last.delivered..] == MessagesOf(last)
  {
    assert RecordedAt(journal, all, |journal| - 1);
  }

  lemma Glue<T>(s: seq<T>, from: nat, a: seq<T>, b: seq<T>)
    requires from <= |s| && s[..from] == a && s[from..] == b
    ensures s == a + b
  {
  }

  lemma FlattenLast(journal: seq<Entry>, a: seq<Message>, b: seq<Message>)
    requires journal != []
    requires a == Flatten(journal[..|journal| - 1]) && b == MessagesOf(journal[|journal| - 1])
    ensures Flatten(journal) == a + b
  {
  }

  /** The log is exactly what the notice, the blocks up to the cursor and the daily messages enqueued. */
  lemma EverythingEnqueued(render: Render, journal: seq<Entry>, all: seq<Message>)
    requires Chain(render, journal, all)
    ensures all == Flatten(journal)
  {
    if journal != [] {
      var k := |journal| - 1;
      FlattenUpTo(render, journal, all, k);
      LastPart(render, journal, all);
      var from := journal[k].delivered;
      Glue(all, from, all[..from], all[from..]);
      FlattenLast(journal, all[..from], all[from..]);
    }
  }

  // ----- the heartbeats

  predicate Silent(journal: seq<Entry>, i: int) {
    0 <= i < |journal| ==> !journal[i].Heartbeat?
  }

  /** The clock went back between finding the heartbeat due and storing its time. */
  predicate ClockFellAt(journal: seq<Entry>, i: int) {
    0 <= i < |journal| && journal[i].Heartbeat? && journal[i].beats.at < journal[i].beats.due
  }

  /** From a heartbeat on, the last one is that one or a day later. */
  lemma {:induction false} BeatsSince(render: Render, journal: seq<Entry>, i: nat, k: nat)
    requires Linked(render, journal) && i <= k < |journal| && journal[i].Heartbeat?
    requires forall j | i < j <= k :: !ClockFellAt(journal, j)
    ensures journal[k].beats.count > 0 && journal[k].beats.at >= journal[i].beats.at
    ensures i < k && journal[k].Heartbeat? ==> journal[k].beats.at >= journal[i].beats.at + DAY
    decreases k
  {
    assert FollowsAt(render, journal, k);
    if i < k {
      BeatsSince(render, journal, i, k - 1);
      assert !ClockFellAt(journal, k);
    }
  }

  /** Two heartbeats are a day apart. */
  lemma HeartbeatsApart(render: Render, journal: seq<Entry>, i: nat, j: nat)
    requires Linked(render, journal) && i < j < |journal| && journal[i].Heartbeat? && journal[j].Heartbeat?
    requires forall k | i < k <= j :: !ClockFellAt(journal, k)
    ensures journal[j].beats.at >= journal[i].beats.at + DAY
  {
    BeatsSince(render, journal, i, j);
  }

  /** With none between them, and whatever the clock does, the second counts its day from the first. */
  lemma {:induction false} NextHeartbeat(render: Render, journal: seq<Entry>, i: nat, j: nat)
    requires Linked(render, journal) && i < j < |journal| && journal[i].Heartbeat?
    requires forall k | i < k < j :: Silent(journal, k)
    ensures journal[j].Heartbeat? ==>
      journal[j].beats.since == journal[i].beats.at && journal[j].beats.due >= journal[i].beats.at + DAY
    ensures journal[j].Saved? ==> journal[j].beats == journal[i].beats && journal[j].beats.count > 0
    decreases j
  {
    assert FollowsAt(render, journal, j) && FollowsAt(render, journal, i);
    if i + 1 < j {
      assert Silent(journal, j - 1) && FollowsAt(render, journal, j - 1);
      NextHeartbeat(render, journal, i, j - 1);
    }
  }

  function BeatsOf(journal: seq<Entry>): Beats {
    if journal == [] then NO_BEATS else journal[|journal| - 1].beats
  }

  /** The count counts them: it is the same exactly if there is no heartbeat in between. */
  lemma {:induction false} BeatsCount(render: Render, journal: seq<Entry>, from: nat, n: nat)
    requires Linked(render, journal) && from <= n <= |journal|
    ensures BeatsOf(journal[..from]).count <= BeatsOf(journal[..n]).count
    ensures BeatsOf(journal[..from]).count == BeatsOf(journal[..n]).count
      <==> forall i | from <= i < n :: Silent(journal, i)
    decreases n
  {
    if from < n {
      BeatsCount(render, journal, from, n - 1);
      assert FollowsAt(render, journal, n - 1);
      assert Silent(journal, n - 1) <==> BeatsOf(journal[..n]).count == BeatsOf(journal[..n - 1]).count;
    }
  }

  /** The last heartbeat is at the height of an entry only if the entry is that heartbeat. */
  lemma {:induction false} BeatsBelow(render: Render, journal: seq<Entry>, i: nat)
    requires Linked(render, journal) && i < |journal| && journal[i].beats.count > 0
    ensures journal[i].beats.height <= journal[i].height
    ensures journal[i].beats.height == journal[i].height <==> journal[i].Heartbeat?
    decreases i
  {
    assert FollowsAt(render, journal, i);
    if i > 0 && !journal[i].Heartbeat? { BeatsBelow(render, journal, i - 1); }
  }

  // ----- the heartbeat of a cycle

  /** A heartbeat that counts its day from `since` counts it from the last one. */
  predicate CountsFrom(b: Beats, since: int) {
    b.count > 0 ==> since == b.at
  }

  /** At the confirmed end, a day after `since`, by the clock of the call `asked`. */
  predicate Due(io: World, since: int, asked: nat, atEnd: bool) {
    atEnd && io.now(asked) - since >= DAY
  }

  /** One more heartbeat, which is stored with the time of the next call. */
  predicate Beaten(io: World, b: Beats, b': Beats, since: int, asked: nat, height: int) {
    b' == Beats(b.count + 1, height, since, io.now(asked), io.now(asked + 1))
  }

  /**
   What a cycle that gets to `height`, and ends well or not, makes of the heartbeats `b`: there is one more only if
   it is due, and if it is due, unless the cycle fails.
   */
  predicate Regular(io: World, b: Beats, b': Beats, since: int, asked: nat, height: int, end: int, ok: bool) {
    && (b' != b ==> Due(io, since, asked, height == end) && Beaten(io, b, b', since, asked, height))
    && (ok && Due(io, since, asked, height == end) ==> Beaten(io, b, b', since, asked, height))
  }

  /** The heartbeats that a cycle starts with; the first boot reads the block of the tip, and stores the time. */
  function BeatsFrom(io: World, was: Option<Cursor>, b: Beats, calls: nat): Beats {
    if was.Some? then b else b.(at := io.now(calls + 1))
  }

  /** The time from which a cycle counts the day; the first boot reads the clock again after its commit. */
  function CountedFrom(io: World, was: Option<Cursor>, calls: nat): int {
    if was.Some? then was.value.heartbeat else io.now(calls + 3)
  }

  lemma SamePart<T>(s: seq<T>, more: seq<T>, from: nat, to: nat)
    requires from <= to <= |s|
    ensures (s + more)[from..to] == s[from..to]
  {
  }

  // ----- the outbox and what was posted

  /** An attempt to post the message at position `at` of everything enqueued: the call made, and its answer. */
  datatype Try = Try(at: nat, message: Message, call: nat, answer: Post)

  /** Only the oldest undelivered message is posted, and posts go in order. */
  predicate TryAt(tries: seq<Try>, all: seq<Message>, gone: nat, i: int) {
    0 <= i < |tries| ==>
      && tries[i].at <= gone && tries[i].at < |all| && tries[i].message == all[tries[i].at]
      && (i > 0 ==> tries[i - 1].at <= tries[i].at)
  }

  /** From the `n`-th try on, one was of the message at `p`, and the channel accepted it. */
  ghost predicate AcceptedSince(tries: seq<Try>, n: nat, p: int) {
    exists i :: n <= i < |tries| && tries[i].at == p && tries[i].answer.Accepted?
  }

  /** The outbox holds the messages from `gone` on, in order, under increasing identifiers. */
  predicate RowAt(outbox: seq<Row>, last: nat, all: seq<Message>, gone: nat, i: int) {
    0 <= i < |outbox| && gone + i < |all| ==>
      && outbox[i].message == all[gone + i]
      && outbox[i].id <= last
      && (i > 0 ==> outbox[i - 1].id < outbox[i].id)
  }

  predicate DeletedAt(deleted: seq<Message>, all: seq<Message>, i: int) {
    0 <= i < |deleted| && i < |all| ==> deleted[i] == all[i]
  }

  /** Everything ever enqueued, the outbox and its last identifier, the messages deleted from it, and every try. */
  datatype Queue = Queue(all: seq<Message>, outbox: seq<Row>, last: nat, deleted: seq<Message>, tries: seq<Try>)

  /** The deleted messages, each accepted before, then the outbox, are everything enqueued. */
  ghost predicate Intact(q: Queue) {
    && |q.deleted| + |q.outbox| == |q.all|
    && (forall i :: DeletedAt(q.deleted, q.all, i))
    && (forall p | 0 <= p < |q.deleted| :: AcceptedSince(q.tries, 0, p))
    && (forall i :: RowAt(q.outbox, q.last, q.all, |q.deleted|, i))
    && (forall i :: TryAt(q.tries, q.all, |q.deleted|, i))
  }

  function Contents(outbox: seq<Row>): seq<Message> {
    if outbox == [] then [] else [outbox[0].message] + Contents(outbox[1..])
  }

  lemma {:induction false} ContentsAt(outbox: seq<Row>, all: seq<Message>)
    requires |outbox| == |all| && forall i | 0 <= i < |outbox| :: outbox[i].message == all[i]
    ensures Contents(outbox) == all
  {
    if outbox != [] {
      ContentsAt(outbox[1..], all[1..]);
      assert [all[0]] + all[1..] == all;
    }
  }

  /** Nothing enqueued is ever lost, repeated or reordered on its way through the outbox. */
  lemma NothingLost(q: Queue)
    requires Intact(q)
    ensures q.deleted + Contents(q.outbox) == q.all
  {
    var gone := |q.deleted|;
    forall i | 0 <= i < gone ensures q.deleted[i] == q.all[i] {
      assert DeletedAt(q.deleted, q.all, i);
    }
    forall i | 0 <= i < |q.outbox| ensures q.outbox[i].message == q.all[gone..][i] {
      assert RowAt(q.outbox, q.last, q.all, gone, i);
    }
    ContentsAt(q.outbox, q.all[gone..]);
  }

  /** The posts, read in order, go through the messages one by one: none is passed over, none comes back. */
  lemma PostsInOrder(q: Queue, i: nat)
    requires Intact(q) && i + 1 < |q.tries|
    ensures q.tries[i].at <= q.tries[i + 1].at
    ensures forall p: nat | p < q.tries[i + 1].at :: AcceptedSince(q.tries, 0, p)
    ensures q.tries[i].at < |q.all| && q.tries[i].message == q.all[q.tries[i].at]
  {
    assert TryAt(q.tries, q.all, |q.deleted|, i) && TryAt(q.tries, q.all, |q.deleted|, i + 1);
  }

  /** Posting the head. */
  lemma QueueTry(q: Queue, call: nat, answer: Post)
    requires Intact(q) && q.outbox != []
    ensures var tries := q.tries + [Try(|q.deleted|, q.outbox[0].message, call, answer)];
      Intact(q.(tries := tries)) && (answer.Accepted? ==> AcceptedSince(tries, |q.tries|, |q.deleted|))
  {
    var gone, n := |q.deleted|, |q.tries|;
    var tries := q.tries + [Try(gone, q.outbox[0].message, call, answer)];
    assert RowAt(q.outbox, q.last, q.all, gone, 0);
    forall i ensures TryAt(tries, q.all, gone, i) {
      assert TryAt(q.tries, q.all, gone, i) && TryAt(q.tries, q.all, gone, i - 1);
    }
    forall p | 0 <= p < gone ensures AcceptedSince(tries, 0, p) {
      AcceptedStays(q.tries, tries, 0, p);
    }
    assert tries[n].at == gone;
  }

  lemma AcceptedStays(tries: seq<Try>, tries': seq<Try>, n: nat, p: int)
    requires AcceptedSince(tries, n, p) && tries <= tries'
    ensures AcceptedSince(tries', n, p)
  {
    var i :| n <= i < |tries| && tries[i].at == p && tries[i].answer.Accepted?;
    assert tries'[i] == tries[i];
  }

  function Without(outbox: seq<Row>, id: nat): seq<Row> {
    if outbox == [] then []
    else (if outbox[0].id == id then [] else [outbox[0]]) + Without(outbox[1..], id)
  }

  lemma {:induction false} WithoutOther(outbox: seq<Row>, id: nat)
    requires forall i | 0 <= i < |outbox| :: outbox[i].id != id
    ensures Without(outbox, id) == outbox
  {
    if outbox != [] { WithoutOther(outbox[1..], id); }
  }

  lemma {:induction false} HeadIsLeast(outbox: seq<Row>, last: nat, all: seq<Message>, gone: nat, i: nat)
    requires forall k :: RowAt(outbox, last, all, gone, k)
    requires 0 < i < |outbox| && gone + |outbox| == |all|
    ensures outbox[0].id < outbox[i].id
    decreases i
  {
    assert RowAt(outbox, last, all, gone, i);
    if i > 1 { HeadIsLeast(outbox, last, all, gone, i - 1); }
  }

  /** Deleting the head's identifier deletes the head only. */
  lemma WithoutHead(outbox: seq<Row>, last: nat, all: seq<Message>, gone: nat)
    requires outbox != [] && gone + |outbox| == |all| && forall k :: RowAt(outbox, last, all, gone, k)
    ensures Without(outbox, outbox[0].id) == outbox[1..]
  {
    var rest, id := outbox[1..], outbox[0].id;
    forall i | 0 <= i < |rest| ensures rest[i].id != id {
      HeadIsLeast(outbox, last, all, gone, i + 1);
    }
    WithoutOther(rest, id);
    assert Without(outbox, id) == [] + Without(rest, id);
  }

  /** Deleting the head once it was accepted. */
  lemma QueueDrop(q: Queue)
    requires Intact(q) && q.outbox != [] && AcceptedSince(q.tries, 0, |q.deleted|)
    ensures Intact(q.(outbox := Without(q.outbox, q.outbox[0].id), deleted := q.deleted + [q.outbox[0].message]))
    ensures Without(q.outbox, q.outbox[0].id) == q.outbox[1..]
  {
    var gone, rest, deleted := |q.deleted|, q.outbox[1..], q.deleted + [q.outbox[0].message];
    WithoutHead(q.outbox, q.last, q.all, gone);
    assert RowAt(q.outbox, q.last, q.all, gone, 0);
    forall i ensures RowAt(rest, q.last, q.all, |deleted|, i) {
      assert RowAt(q.outbox, q.last, q.all, gone, i + 1);
    }
    forall i ensures TryAt(q.tries, q.all, |deleted|, i) {
      assert TryAt(q.tries, q.all, gone, i);
    }
    forall i ensures DeletedAt(deleted, q.all, i) {
      assert DeletedAt(q.deleted, q.all, i);
    }
    forall p | 0 <= p < |deleted| ensures AcceptedSince(q.tries, 0, p) {
    }
  }

  /** New rows get the next identifiers. */
  function Rows(last: nat, ms: seq<Message>): (rows: seq<Row>)
    ensures |rows| == |ms|
    ensures forall i | 0 <= i < |rows| :: rows[i] == Row(last + 1 + i, ms[i])
  {
    seq(|ms|, i requires 0 <= i < |ms| => Row(last + 1 + i, ms[i]))
  }

  lemma AppendToEmpty<T>(a: seq<T>, b: seq<T>)
    requires a == []
    ensures a + b == b
  {
  }

  lemma NewRows(all: seq<Message>, last: nat, gone: nat, ms: seq<Message>)
    requires gone == |all|
    ensures var rows, last', all' := Rows(last, ms), last + |ms|, all + ms;
      forall i :: RowAt(rows, last', all', gone, i)
  {
  }

  /** Enqueueing on an empty outbox. */
  lemma QueueGrows(q: Queue, ms: seq<Message>)
    requires Intact(q) && q.outbox == []
    ensures Intact(q.(all := q.all + ms, outbox := q.outbox + Rows(q.last, ms), last := q.last + |ms|))
  {
    var gone := |q.deleted|;
    forall i ensures TryAt(q.tries, q.all + ms, gone, i) {
      assert TryAt(q.tries, q.all, gone, i);
    }
    forall i ensures DeletedAt(q.deleted, q.all + ms, i) {
      assert DeletedAt(q.deleted, q.all, i);
    }
    NewRows(q.all, q.last, gone, ms);
    AppendToEmpty(q.outbox, Rows(q.last, ms));
  }

  /** The cursor is the tip of an unbroken journal; the outbox holds messages of its last entry only. */
  ghost predicate Sound(render: Render, cursor: Option<Cursor>, beats: Beats, journal: seq<Entry>, q: Queue) {
    && Chain(render, journal, q.all)
    && Intact(q)
    && beats == BeatsOf(journal)
    && cursor == Tip(journal)
    && (journal != [] ==> |q.outbox| <= |MessagesOf(journal[|journal| - 1])|)
  }

  /** Where the last entry leaves the cursor. */
  function Tip(journal: seq<Entry>): Option<Cursor> {
    if journal == [] then None
    else
      var e := journal[|journal| - 1];
      Some(Cursor(e.height, e.hash, e.beats.at))
  }

  /** Deliveries leave the cursor and the journal alone. */
  lemma DeliveriesKeep(render: Render, cursor: Option<Cursor>, beats: Beats, journal: seq<Entry>, q: Queue, q': Queue)
    requires Sound(render, cursor, beats, journal, q) && Intact(q')
    requires q'.all == q.all && |q'.outbox| <= |q.outbox|
    ensures Sound(render, cursor, beats, journal, q')
  {
  }

  /** With an empty outbox everything is delivered, and the next entry may record it. */
  lemma CaughtUp(render: Render, cursor: Option<Cursor>, beats: Beats, journal: seq<Entry>, q: Queue)
    requires Sound(render, cursor, beats, journal, q) && (q.outbox == [] || cursor.None?)
    ensures q.outbox == [] && |q.deleted| == |q.all|
    ensures if journal == [] then cursor.None? && |q.deleted| == 0
            else
              var e := journal[|journal| - 1];
              && cursor.Some? && cursor.value.height == e.height && cursor.value.hash == e.hash
              && |q.deleted| == e.delivered + |MessagesOf(e)|
  {
  }

  /** `e` continues from the cursor, after the heartbeats `b`. */
  ghost predicate Extends(render: Render, cursor: Option<Cursor>, b: Beats, e: Entry) {
    match e
    case Notice(_, _, _, _, beats) => cursor.None? && beats.count == 0
    case Saved(height, hash, _, f, beats) =>
      && cursor.Some? && height == cursor.value.height + 1 && hash == f.block.hash && beats == b
      && Continues(render, height, cursor.value.hash, f)
    case Heartbeat(height, hash, _, _, beats) =>
      && cursor.Some? && height == cursor.value.height && hash == cursor.value.hash
      && beats.height == height && Timely(b, beats)
  }

  lemma SavedExtends(render: Render, cursor: Option<Cursor>, e: Entry)
    requires e.Saved? && cursor.Some? && e.height == cursor.value.height + 1 && e.hash == e.fetched.block.hash
    requires Continues(render, e.height, cursor.value.hash, e.fetched)
    ensures Extends(render, cursor, e.beats, e) && ContentsOf(e) == Concat(e.fetched.parts)
  {
  }

  lemma ExtendsIsNext(render: Render, cursor: Option<Cursor>, beats: Beats, journal: seq<Entry>, q: Queue, e: Entry)
    requires Sound(render, cursor, beats, journal, q) && (q.outbox == [] || cursor.None?)
    requires Extends(render, cursor, beats, e) && e.delivered == |q.deleted|
    ensures q.outbox == [] && Next(render, journal, e)
  {
    CaughtUp(render, cursor, beats, journal, q);
  }

  /** A transaction that enqueues the messages of one more entry and moves the cursor to it. */
  lemma EnqueueSound(render: Render, cursor: Option<Cursor>, beats: Beats, journal: seq<Entry>, q: Queue, e: Entry,
                     ms: seq<Message>, c: Cursor)
    requires Sound(render, cursor, beats, journal, q) && (q.outbox == [] || cursor.None?)
    requires Extends(render, cursor, beats, e) && e.delivered == |q.deleted|
    requires ms == MessagesOf(e) && c == Cursor(e.height, e.hash, e.beats.at)
    ensures q.outbox == []
    ensures Sound(render, Some(c), e.beats, journal + [e],
                  q.(all := q.all + ms, outbox := q.outbox + Rows(q.last, ms), last := q.last + |ms|))
  {
    ExtendsIsNext(render, cursor, beats, journal, q, e);
    Appended(render, journal, q.all, e);
    QueueGrows(q, ms);
    var q' := q.(all := q.all + ms, outbox := q.outbox + Rows(q.last, ms), last := q.last + |ms|);
    AtTip(render, journal + [e], q', e, c);
  }

  lemma AtTip(render: Render, journal: seq<Entry>, q: Queue, e: Entry, c: Cursor)
    requires Chain(render, journal, q.all) && Intact(q)
    requires journal != [] && journal[|journal| - 1] == e && |q.outbox| == |MessagesOf(e)|
    requires c == Cursor(e.height, e.hash, e.beats.at)
    ensures Sound(render, Some(c), e.beats, journal, q)
  {
  }

  // ----- what the channel was told, and what it said

  /** The tries so far, the calls so far, the messages deleted so far, and the time before which nothing is posted. */
  datatype Standing = Standing(tries: seq<Try>, calls: nat, deleted: seq<Message>, retryAt: int)

  /** The `i`-th try is a post of its own between two states, with the channel's answer. */
  predicate AnsweredAt(io: World, was: Standing, now: Standing, i: int) {
    |was.tries| <= i < |now.tries| ==>
      && was.calls <= now.tries[i].call < now.calls && now.tries[i].answer == io.post(now.tries[i].call)
      && (i > |was.tries| ==> now.tries[i - 1].call < now.tries[i].call)
  }

  /** The `i`-th try went well. */
  predicate WentAt(tries: seq<Try>, i: int) {
    0 <= i < |tries| ==> tries[i].answer.Accepted?
  }

  /** The wait that the channel asks for, at least a cycle and at most a day. */
  function Delay(asked: int): (d: int)
    ensures 15 <= d <= 86400
    ensures 15 <= asked <= 86400 ==> d == asked
  {
    if asked < 15 then 15 else if asked > DAY then DAY else asked
  }

  /** A rate limit on the last of the tries after the first `n` sets the time to wait for; nothing else does. */
  function RetryAfter(io: World, n: nat, tries: seq<Try>, retryAt: int): int {
    if |tries| > n && tries[|tries| - 1].answer.RateLimited?
    then io.now(tries[|tries| - 1].call + 1) + Delay(tries[|tries| - 1].answer.delay)
    else retryAt
  }

  /**
   Every new try records what the channel answered, all but the last went well, and the last too if `ok`; every
   message deleted was accepted by one of them.
   */
  ghost predicate Delivered(io: World, was: Standing, now: Standing, ok: bool) {
    && was.tries <= now.tries && was.calls <= now.calls && was.deleted <= now.deleted
    && now.retryAt == RetryAfter(io, |was.tries|, now.tries, was.retryAt)
    && (forall i :: AnsweredAt(io, was, now, i))
    && (forall i | |was.tries| <= i < |now.tries| - (if ok then 0 else 1) :: WentAt(now.tries, i))
    && forall p | |was.deleted| <= p < |now.deleted| :: AcceptedSince(now.tries, |was.tries|, p)
  }

  predicate NotBefore(io: World, k: nat, retryAt: int) {
    io.now(k) >= retryAt
  }

  /** Anything is posted only after the clock showed that the wait is over. */
  ghost predicate Patient(io: World, was: Standing, now: Standing) {
    |was.tries| < |now.tries| ==>
      exists k: nat :: was.calls <= k <= now.tries[|was.tries|].call && NotBefore(io, k, was.retryAt)
  }

  ghost predicate Posted(io: World, was: Standing, now: Standing, ok: bool) {
    Delivered(io, was, now, ok) && Patient(io, was, now)
  }

  /** Calls that are not posts. */
  lemma Waited(io: World, was: Standing, now: Standing)
    requires now.tries == was.tries && now.deleted == was.deleted && now.retryAt == was.retryAt
    requires was.calls <= now.calls
    ensures Posted(io, was, now, true) && Posted(io, was, now, false)
  {
  }

  lemma DeliveredThrough(io: World, a: Standing, b: Standing, c: Standing, ok: bool)
    requires Delivered(io, a, b, true) && Delivered(io, b, c, ok)
    ensures Delivered(io, a, c, ok)
  {
    forall i ensures AnsweredAt(io, a, c, i) {
      assert AnsweredAt(io, a, b, i) && AnsweredAt(io, b, c, i) && AnsweredAt(io, a, b, i - 1);
    }
    assert |a.tries| < |b.tries| ==> WentAt(b.tries, |b.tries| - 1);
    forall i | |a.tries| <= i < |c.tries| - (if ok then 0 else 1) ensures WentAt(c.tries, i) {
      if i < |b.tries| { assert WentAt(b.tries, i); }
    }
    forall p | |a.deleted| <= p < |c.deleted| ensures AcceptedSince(c.tries, |a.tries|, p) {
      if p < |b.deleted| {
        AcceptedStays(b.tries, c.tries, |a.tries|, p);
      } else {
        AcceptedEarlier(c.tries, |b.tries|, |a.tries|, p);
      }
    }
  }

  /** One post, and what its answer makes of the wait. */
  lemma DeliveredOnce(io: World, was: Standing, now: Standing, t: Try)
    requires now.tries == was.tries + [t] && now.deleted == was.deleted
    requires t.answer == io.post(t.call) && was.calls <= t.call < now.calls
    requires now.retryAt == if t.answer.RateLimited? then io.now(t.call + 1) + Delay(t.answer.delay) else was.retryAt
    ensures Delivered(io, was, now, t.answer.Accepted?)
  {
  }

  /** The clock was read first. */
  lemma PostedAfter(io: World, was: Standing, now: Standing, ok: bool)
    requires Delivered(io, was, now, ok) && NotBefore(io, was.calls, was.retryAt)
    ensures Posted(io, was, now, ok)
  {
    assert AnsweredAt(io, was, now, |was.tries|);
  }

  /** Nothing was tried since it went well. */
  lemma DeliveredPart(io: World, was: Standing, now: Standing)
    requires Delivered(io, was, now, true)
    ensures Delivered(io, was, now, false)
  {
  }

  lemma PostedThrough(io: World, a: Standing, b: Standing, c: Standing, ok: bool)
    requires Posted(io, a, b, true) && Posted(io, b, c, ok)
    ensures Posted(io, a, c, ok)
  {
    DeliveredThrough(io, a, b, c, ok);
    if |a.tries| < |b.tries| {
      var k: nat :| a.calls <= k <= b.tries[|a.tries|].call && NotBefore(io, k, a.retryAt);
      assert c.tries[|a.tries|] == b.tries[|a.tries|];
    }
  }

  lemma AcceptedEarlier(tries: seq<Try>, n: nat, m: nat, p: int)
    requires AcceptedSince(tries, n, p) && m <= n
    ensures AcceptedSince(tries, m, p)
  {
  }

  /** The deletion of a message that was accepted since. */
  lemma DeletedAfter(io: World, was: Standing, now: Standing, calls: nat, m: Message)
    requires Delivered(io, was, now, true) && now.calls <= calls && AcceptedSince(now.tries, |was.tries|, |now.deleted|)
    ensures Delivered(io, was, Standing(now.tries, calls, now.deleted + [m], now.retryAt), true)
    ensures Delivered(io, was, Standing(now.tries, calls, now.deleted + [m], now.retryAt), false)
  {
    var after := Standing(now.tries, calls, now.deleted + [m], now.retryAt);
    forall i ensures AnsweredAt(io, was, after, i) {
      assert AnsweredAt(io, was, now, i);
    }
    forall p | |was.deleted| <= p < |after.deleted| ensures AcceptedSince(after.tries, |was.tries|, p) {
      if p < |now.deleted| { assert AcceptedSince(now.tries, |was.tries|, p); }
    }
  }

  // ----- when nothing goes wrong

  /** The chain as every honest answer shows it. */
  type History = int -> Block

  /** The answers to the `k`-th call, about the height `h`, are good. */
  ghost predicate GoodAt(io: World, render: Render, chain: History, tip: int, k: nat, h: int) {
    && io.head(k) == Some(tip)
    && io.block(k, h) == Some(chain(h)) && chain(h + 1).parent == chain(h).hash
    && io.results(k, h).Some?
    && var r := io.results(k, h).value;
       r.height == h && |r.receipts| == |chain(h).txs| && forall i :: Readable(render, h, chain(h).txs, r.receipts, i)
  }

  predicate GoodCall(io: World, wait: int, k: nat) {
    io.now(k) >= wait && io.post(k).Accepted? && io.commit(k).Done? && io.resumed(k)
  }

  /** The node answers for one chain, every post is accepted, every commit succeeds, and no wait is pending. */
  ghost predicate Calm(io: World, render: Render, chain: History, tip: int, wait: int) {
    && (forall k: nat, h: int :: GoodAt(io, render, chain, tip, k, h))
    && (forall k: nat :: GoodCall(io, wait, k))
  }

  predicate RowOnChain(chain: History, outbox: seq<Row>, i: int) {
    0 <= i < |outbox| ==> outbox[i].message.hash == chain(outbox[i].message.height).hash
  }

  /** The cursor and the outbox are of that chain. */
  ghost predicate OnChain(chain: History, cursor: Option<Cursor>, outbox: seq<Row>) {
    && (cursor.Some? ==> cursor.value.hash == chain(cursor.value.height).hash)
    && forall i :: RowOnChain(chain, outbox, i)
  }

  lemma RowsOnChain(outbox: seq<Row>, last: nat, ms: seq<Message>, e: Entry, chain: History)
    requires ms == MessagesOf(e) && outbox == []
    ensures var rows := outbox + Rows(last, ms);
      e.hash == chain(e.height).hash ==> forall i :: RowOnChain(chain, rows, i)
  {
    AppendToEmpty(outbox, Rows(last, ms));
  }

  predicate HasHash(b: Option<Block>, hash: nat) {
    b.Some? && b.value.hash == hash
  }

  /** The node shows another block at the cursor, or none. */
  predicate Halts(io: World, k: nat, c: Option<Cursor>) {
    c.Some? && !HasHash(io.block(k, c.value.height), c.value.hash)
  }

  /** The block is the node's, and its receipts were read while it was. */
  predicate ReadFrom(io: World, k: nat, height: int, f: Fetched) {
    && io.block(k, height) == Some(f.block)
    && (f.block.txs != [] ==>
          && io.results(k + 1, height) == Some(Results(height, f.receipts))
          && HasHash(io.block(k + 2, height), f.block.hash))
  }

  /** The node still has the block that the message was queued for. */
  predicate Current(b: Option<Block>, row: Row) {
    b.Some? && b.value.hash == row.message.hash
  }

  /** The chat channel; it remembers each post, with its answer and the position it was meant for. */
  class Channel {
    ghost var tries: seq<Try>

    constructor ()
      ensures tries == []
    {
      tries := [];
    }

    method Send(io: World, call: nat, m: Message, ghost at: nat) returns (answer: Post)
      modifies this`tries
      ensures answer == io.post(call) && tries == old(tries) + [Try(at, m, call, answer)]
    {
      answer := io.post(call);
      tries := tries + [Try(at, m, call, answer)];
    }
  }

  /** The state between two cycles: of the database, the process, and the channel. */
  datatype Snap = Snap(cursor: Option<Cursor>, outbox: seq<Row>, journal: seq<Entry>, stands: Standing)

  class Watcher {
    var cursor: Option<Cursor>
    var outbox: seq<Row>
    var lastId: nat
    var retryAt: int // in memory only
    var calls: nat // calls to the outside made so far
    const render: Render
    const channel: Channel
    ghost var beats: Beats
    ghost var journal: seq<Entry>
    ghost var all: seq<Message> // everything ever enqueued, in order
    ghost var deleted: seq<Message>

    ghost predicate Valid()
      reads this`cursor, this`outbox, this`lastId, this`beats, this`journal, this`all, this`deleted, channel`tries
    {
      Sound(render, cursor, beats, journal, Held())
    }

    ghost function Held(): Queue
      reads this`outbox, this`lastId, this`all, this`deleted, channel`tries
    {
      Queue(all, outbox, lastId, deleted, channel.tries)
    }

    ghost function Stands(): Standing
      reads channel`tries, this`calls, this`deleted, this`retryAt
    {
      Standing(channel.tries, calls, deleted, retryAt)
    }

    /** Nothing is wrong, and nothing goes wrong. */
    ghost predicate Smooth(io: World, chain: History, tip: int)
      reads this`cursor, this`outbox, this`retryAt
    {
      Calm(io, render, chain, tip, retryAt) && OnChain(chain, cursor, outbox)
    }

    ghost function Look(): Snap
      reads this, channel`tries
    {
      Snap(cursor, outbox, journal, Stands())
    }

    constructor (r: Render, ch: Channel)
      requires ch.tries == []
      ensures Valid() && render == r && channel == ch && Look() == Snap(None, [], [], Standing([], 0, [], 0))
    {
      render, channel := r, ch;
      cursor, outbox, lastId, retryAt, calls := None, [], 0, 0, 0;
      beats, journal, all, deleted := NO_BEATS, [], [], [];
    }

    lemma BeatsKnown()
      requires Valid()
      ensures beats == BeatsOf(Look().journal) && Recorded(render, Look().cursor, Look().journal)
    {
    }

    /** A new process on the same database. */
    method Restart()
      requires Valid()
      modifies this`retryAt
      ensures Valid() && Look() == Restarted(old(Look()), true)
    {
      retryAt := 0;
    }

    /** The effect of a transaction that enqueues messages on an empty outbox and moves the cursor. */
    method Enqueue(ghost e: Entry, contents: seq<string>, c: Cursor, ghost chain: History)
      requires Valid() && (outbox == [] || cursor.None?)
      requires Extends(render, cursor, beats, e) && e.delivered == |deleted|
      requires contents == ContentsOf(e) && c == Cursor(e.height, e.hash, e.beats.at)
      modifies this`cursor, this`outbox, this`lastId, this`beats, this`journal, this`all
      ensures Valid() && cursor == Some(c) && beats == e.beats && journal == old(journal) + [e]
      ensures c.hash == chain(c.height).hash ==> OnChain(chain, cursor, outbox)
    {
      var ms := Tagged(c.height, c.hash, contents);
      EnqueueSound(render, cursor, beats, journal, Held(), e, ms, c);
      RowsOnChain(outbox, lastId, ms, e, chain);
      outbox, lastId := outbox + Rows(lastId, ms), lastId + |ms|;
      cursor := Some(c);
      beats, journal, all := e.beats, journal + [e], all + ms;
    }

    /** The first cursor, at the confirmed tip, with its notice. */
    method Initialize(io: World, height: int, hash: nat, notice: string, ghost chain: History, ghost tip: int)
      returns (ok: bool)
      requires Valid() && cursor.None?
      modifies this`cursor, this`outbox, this`lastId, this`beats, this`journal, this`all, this`calls
      ensures Valid()
      ensures ok ==> cursor.Some?
      ensures journal == if cursor.Some? then [Notice(height, hash, 0, notice, beats)] else []
      ensures beats == if cursor.Some? then old(beats).(at := io.now(old(calls))) else old(beats)
      ensures cursor.Some? ==> cursor.value == Cursor(height, hash, io.now(old(calls)))
      ensures calls == old(calls) + 2
      ensures old(Smooth(io, chain, tip)) && hash == chain(height).hash ==> ok && Smooth(io, chain, tip)
    {
      if Smooth(io, chain, tip) { assert GoodCall(io, retryAt, calls + 1); }
      var now := io.now(calls);
      var c := io.commit(calls + 1);
      calls := calls + 2;
      if !c.Failed? {
        ghost var e := Notice(height, hash, 0, notice, beats.(at := now));
        Enqueue(e, [notice], Cursor(height, hash, now), chain);
      }
      ok := c.Done?;
    }

    /** The next block, with its messages. */
    method SaveBlock(io: World, f: Fetched, ghost chain: History, ghost tip: int) returns (ok: bool)
      requires Valid() && cursor.Some? && outbox == []
      requires Continues(render, cursor.value.height + 1, cursor.value.hash, f)
      modifies this`cursor, this`outbox, this`lastId, this`beats, this`journal, this`all, this`calls
      ensures Valid() && cursor.Some? && calls >= old(calls)
      ensures ok <==> io.commit(old(calls)).Done?
      ensures cursor == if io.commit(old(calls)).Failed? then old(cursor)
                        else Some(Cursor(old(cursor.value.height) + 1, f.block.hash, old(cursor.value.heartbeat)))
      ensures beats == old(beats)
      ensures var e := Saved(old(cursor.value.height) + 1, f.block.hash, |deleted|, f, beats);
        journal == if io.commit(old(calls)).Failed? then old(journal) else old(journal) + [e]
      ensures old(Smooth(io, chain, tip)) && f.block == chain(old(cursor.value.height) + 1) ==>
        ok && Smooth(io, chain, tip)
    {
      if Smooth(io, chain, tip) { assert GoodCall(io, retryAt, calls); }
      var c := io.commit(calls);
      calls := calls + 1;
      if c.Failed? {
        return false;
      }
      var next := Cursor(cursor.value.height + 1, f.block.hash, cursor.value.heartbeat);
      ghost var e := Saved(next.height, next.hash, |deleted|, f, beats);
      SavedExtends(render, cursor, e);
      Enqueue(e, Concat(f.parts), next, chain);
      ok := c.Done?;
    }

    /** The daily message that the queue is caught up: it is. `b` is the heartbeat, with the time stored. */
    method Beat(io: World, content: string, ghost b: Beats, ghost chain: History, ghost tip: int) returns (ok: bool)
      requires Valid() && cursor.Some? && outbox == []
      requires Timely(beats, b) && b.height == cursor.value.height && b.at == io.now(calls)
      modifies this`cursor, this`outbox, this`lastId, this`beats, this`journal, this`all, this`calls
      ensures Valid() && cursor.Some? && calls >= old(calls)
      ensures ok <==> io.commit(old(calls) + 1).Done?
      ensures beats == if io.commit(old(calls) + 1).Failed? then old(beats) else b
      ensures cursor == if io.commit(old(calls) + 1).Failed? then old(cursor)
                        else Some(old(cursor.value).(heartbeat := b.at))
      ensures var e := Heartbeat(b.height, old(cursor.value.hash), |deleted|, content, b);
        journal == if io.commit(old(calls) + 1).Failed? then old(journal) else old(journal) + [e]
      ensures old(Smooth(io, chain, tip)) ==> ok && Smooth(io, chain, tip)
    {
      if Smooth(io, chain, tip) { assert GoodCall(io, retryAt, calls + 1); }
      var now := io.now(calls);
      var c := io.commit(calls + 1);
      calls := calls + 2;
      if !c.Failed? {
        ghost var e := Heartbeat(b.height, cursor.value.hash, |deleted|, content, b);
        Enqueue(e, [content], cursor.value.(heartbeat := now), chain);
      }
      ok := c.Done?;
    }

    /** Posts the head of the outbox, if its block is still the one it was queued for. */
    method PostHead(io: World, ghost chain: History, ghost tip: int) returns (ok: bool)
      requires Intact(Held()) && outbox != []
      modifies this`retryAt, this`calls, channel`tries
      ensures Intact(Held())
      ensures Delivered(io, old(Stands()), Stands(), ok)
      ensures ok ==>
        AcceptedSince(channel.tries, |old(channel.tries)|, |deleted|) && |channel.tries| == |old(channel.tries)| + 1
      ensures |channel.tries| ==
        |old(channel.tries)| + if Current(io.block(old(calls), outbox[0].message.height), outbox[0]) then 1 else 0
      ensures old(Smooth(io, chain, tip)) ==> ok && retryAt == old(retryAt)
    {
      var row := outbox[0];
      ghost var was := Stands();
      if Smooth(io, chain, tip) { HeadSmooth(io, chain, tip, calls); }
      var b := io.block(calls, row.message.height);
      calls := calls + 1;
      if !Current(b, row) {
        return false;
      }
      QueueTry(Held(), calls, io.post(calls));
      var post := channel.Send(io, calls, row.message, |deleted|);
      calls := calls + 1;
      if post.RateLimited? {
        retryAt := io.now(calls) + Delay(post.delay);
        calls := calls + 1;
      }
      ok := post.Accepted?;
      DeliveredOnce(io, was, Stands(), channel.tries[|was.tries|]);
    }

    /** Deletes the head, which the channel accepted. */
    method DeleteHead(io: World) returns (c: Commit)
      requires Intact(Held()) && outbox != [] && AcceptedSince(channel.tries, 0, |deleted|)
      modifies this`outbox, this`calls, this`deleted
      ensures Intact(Held()) && c == io.commit(old(calls)) && calls == old(calls) + 1
      ensures outbox == if c.Failed? then old(outbox) else old(outbox)[1..]
      ensures deleted == if c.Failed? then old(deleted) else old(deleted) + [old(outbox)[0].message]
    {
      c := io.commit(calls);
      calls := calls + 1;
      if !c.Failed? {
        QueueDrop(Held());
        deleted, outbox := deleted + [outbox[0].message], Without(outbox, outbox[0].id);
      }
    }

    /** Posts the head of the outbox, and deletes it if it was accepted: one round of `drain`. */
    method DeliverHead(io: World, ghost chain: History, ghost tip: int) returns (ok: bool)
      requires Intact(Held()) && outbox != []
      modifies this`outbox, this`retryAt, this`calls, this`deleted, channel`tries
      ensures Intact(Held())
      ensures ok ==> outbox == old(outbox[1..])
      ensures |outbox| <= |old(outbox)| && Delivered(io, old(Stands()), Stands(), ok)
      ensures |channel.tries| <= |old(channel.tries)| + 1 && (ok ==> |channel.tries| == |old(channel.tries)| + 1)
      ensures old(Smooth(io, chain, tip)) ==> ok && Smooth(io, chain, tip)
    {
      ghost var was, head := Stands(), outbox[0].message;
      ok := PostHead(io, chain, tip);
      if !ok {
        return;
      }
      if Smooth(io, chain, tip) { HeadSmooth(io, chain, tip, calls); }
      ghost var posted := Stands();
      AcceptedEarlier(channel.tries, |was.tries|, 0, |deleted|);
      var c := DeleteHead(io);
      ok := c.Done? && io.resumed(calls);
      if c.Done? { calls := calls + 1; }
      if c.Failed? {
        Waited(io, posted, Stands());
        DeliveredThrough(io, was, posted, Stands(), ok);
      } else {
        DeletedAfter(io, was, posted, calls, head);
      }
    }

    /** Posting the head goes well. */
    lemma HeadSmooth(io: World, chain: History, tip: int, k: nat)
      requires Smooth(io, chain, tip) && outbox != []
      ensures io.block(k, outbox[0].message.height).Some?
      ensures io.block(k, outbox[0].message.height).value.hash == outbox[0].message.hash
      ensures GoodCall(io, retryAt, k) && GoodCall(io, retryAt, k + 1)
      ensures OnChain(chain, cursor, outbox[1..])
    {
      assert RowOnChain(chain, outbox, 0) && GoodAt(io, render, chain, tip, k, outbox[0].message.height);
      ghost var rest := outbox[1..];
      forall i ensures RowOnChain(chain, rest, i) {
        assert RowOnChain(chain, outbox, i + 1);
      }
    }

    /** Posts the outbox from its head on, within the budget. */
    method Drain(io: World, budget: nat, ghost chain: History, ghost tip: int) returns (ok: bool, left: nat)
      requires Valid()
      modifies this`outbox, this`retryAt, this`calls, this`deleted, channel`tries
      ensures Valid()
      ensures ok ==> outbox == [] && |channel.tries| - |old(channel.tries)| == budget - left
      ensures |channel.tries| - |old(channel.tries)| <= budget
      ensures left <= budget && Posted(io, old(Stands()), Stands(), ok) && calls > old(calls)
      ensures old(Smooth(io, chain, tip)) ==>
        Smooth(io, chain, tip) && (ok || |channel.tries| - |old(channel.tries)| == budget)
    {
      left := budget;
      ghost var was, smooth := Stands(), Smooth(io, chain, tip);
      assert smooth ==> GoodCall(io, retryAt, calls);
      var now := io.now(calls);
      calls := calls + 1;
      Waited(io, was, Stands());
      if now < retryAt {
        return false, left;
      }
      ok := true;
      while ok && outbox != [] && left > 0
        invariant Valid()
        invariant left <= budget && |channel.tries| - |old(channel.tries)| <= budget
        invariant ok ==> |channel.tries| - |old(channel.tries)| == budget - left
        invariant Delivered(io, was, Stands(), ok) && calls > old(calls)
        invariant smooth ==> ok && Smooth(io, chain, tip)
        decreases ok, |outbox|
      {
        ghost var before, held := Stands(), Held();
        ok := DeliverHead(io, chain, tip);
        DeliveredThrough(io, was, before, Stands(), ok);
        DeliveriesKeep(render, cursor, beats, journal, held, Held());
        if ok {
          left := left - 1;
        }
      }
      if ok && outbox != [] {
        DeliveredPart(io, was, Stands());
        ok := false;
      }
      PostedAfter(io, was, Stands(), ok);
    }

    /** Reads the next block with its results, and renders it; nothing changes but the call count. */
    method ReadNext(io: World, height: int, hash: nat, ghost chain: History, ghost tip: int)
      returns (r: Option<Fetched>)
      modifies this`calls
      ensures calls >= old(calls)
      ensures r.Some? ==> Continues(render, height, hash, r.value)
      ensures r.Some? ==> ReadFrom(io, old(calls), height, r.value)
      ensures Smooth(io, chain, tip) && hash == chain(height - 1).hash ==> r.Some? && r.value.block == chain(height)
    {
      r := None;
      if Smooth(io, chain, tip) {
        assert GoodAt(io, render, chain, tip, calls, height) && GoodAt(io, render, chain, tip, calls, height - 1);
        assert GoodAt(io, render, chain, tip, calls + 1, height) && GoodAt(io, render, chain, tip, calls + 2, height);
      }
      var b := io.block(calls, height);
      calls := calls + 1;
      if b.None? || b.value.parent != hash {
        return;
      }
      if b.value.txs == [] {
        return Some(Fetched(b.value, [], []));
      }
      var results := io.results(calls, height);
      calls := calls + 1;
      if results.None? || results.value.height != height || |results.value.receipts| != |b.value.txs| {
        return;
      }
      var parts := RenderAll(render, height, b.value, results.value.receipts);
      if parts.None? {
        return;
      }
      var again := io.block(calls, height);
      calls := calls + 1;
      if again.None? || again.value.hash != b.value.hash {
        return;
      }
      r := Some(Fetched(b.value, results.value.receipts, parts.value));
    }

    /** The first boot starts at the confirmed tip; later ones go on from the cursor. */
    method Resume(io: World, end: int, notice: string, ghost chain: History, ghost tip: int) returns (r: Option<int>)
      requires Valid()
      modifies this`cursor, this`outbox, this`lastId, this`beats, this`journal, this`all, this`calls
      ensures Valid() && calls >= old(calls) && old(journal) <= journal
      ensures r.Some? ==> r.value == CountedFrom(io, old(cursor), old(calls)) && CountsFrom(beats, r.value)
      ensures cursor.Some? ==> beats == BeatsFrom(io, old(cursor), old(beats), old(calls))
      ensures HeightOr(cursor, end) == HeightOr(old(cursor), end)
      ensures r.Some? ==> cursor.Some?
      ensures old(cursor).Some? ==>
        cursor == old(cursor) && journal == old(journal) && outbox == old(outbox) && calls == old(calls)
      ensures cursor.None? ==> journal == old(journal)
      ensures old(Smooth(io, chain, tip)) ==> Smooth(io, chain, tip) && r.Some?
    {
      if Smooth(io, chain, tip) {
        assert GoodAt(io, render, chain, tip, calls, end);
      }
      if cursor.Some? {
        return Some(cursor.value.heartbeat);
      }
      var b := io.block(calls, end);
      calls := calls + 1;
      if b.None? {
        return None;
      }
      var started := Initialize(io, end, b.value.hash, notice, chain, tip);
      if !started {
        return None;
      }
      r := Some(io.now(calls));
      calls := calls + 1;
    }

    /** One more block, and its messages. */
    method Advance(io: World, budget: nat, ghost chain: History, ghost tip: int) returns (ok: bool, left: nat)
      requires Valid() && cursor.Some? && outbox == []
      modifies this, channel
      ensures Valid() && cursor.Some? && calls >= old(calls)
      ensures old(journal) <= journal && beats == old(beats)
      ensures old(cursor.value.height) <= cursor.value.height <= old(cursor.value.height) + 1
      ensures ok ==> cursor.value.height == old(cursor.value.height) + 1 && outbox == []
      ensures left <= budget && Posted(io, old(Stands()), Stands(), ok)
      ensures |channel.tries| - |old(channel.tries)| <= budget
      ensures ok ==> |channel.tries| - |old(channel.tries)| == budget - left
      ensures old(Smooth(io, chain, tip)) ==>
        Smooth(io, chain, tip) && (ok || |channel.tries| - |old(channel.tries)| == budget)
    {
      left := budget;
      ghost var was, smooth := Stands(), Smooth(io, chain, tip);
      var next := ReadNext(io, cursor.value.height + 1, cursor.value.hash, chain, tip);
      ok := false;
      if next.Some? {
        ok := SaveBlock(io, next.value, chain, tip);
      }
      assert smooth ==> ok && Smooth(io, chain, tip);
      ghost var saved := Stands();
      Waited(io, was, saved);
      if ok {
        ok, left := Drain(io, left, chain, tip);
        PostedThrough(io, was, saved, Stands(), ok);
      }
    }

    /** The loop over the blocks up to the confirmed tip. */
    method CatchUp(io: World, end: int, budget: nat, ghost chain: History, ghost tip: int) returns (ok: bool, left: nat)
      requires Valid() && cursor.Some? && cursor.value.height <= end && outbox == []
      modifies this, channel
      ensures Valid() && cursor.Some? && calls >= old(calls)
      ensures old(journal) <= journal && beats == old(beats)
      ensures old(cursor.value.height) <= cursor.value.height <= old(cursor.value.height) + MAX_BLOCKS
      ensures cursor.value.height <= end
      ensures ok ==> outbox == []
      ensures ok ==> cursor.value.height == end || cursor.value.height == old(cursor.value.height) + MAX_BLOCKS
      ensures left <= budget && Posted(io, old(Stands()), Stands(), ok)
      ensures |channel.tries| - |old(channel.tries)| <= budget
      ensures ok ==> |channel.tries| - |old(channel.tries)| == budget - left
      ensures old(Smooth(io, chain, tip)) ==>
        Smooth(io, chain, tip) && (ok || |channel.tries| - |old(channel.tries)| == budget)
    {
      left, ok := budget, true;
      ghost var was := Stands();
      var n := 0;
      while cursor.value.height < end && n < MAX_BLOCKS
        invariant Valid() && cursor.Some? && outbox == [] && calls >= old(calls)
        invariant old(journal) <= journal && beats == old(beats)
        invariant cursor.value.height == old(cursor.value.height) + n && n <= MAX_BLOCKS && cursor.value.height <= end
        invariant left <= budget && Posted(io, old(Stands()), Stands(), ok)
        invariant |channel.tries| - |old(channel.tries)| == budget - left
        invariant old(Smooth(io, chain, tip)) ==> Smooth(io, chain, tip)
        decreases MAX_BLOCKS - n
      {
        ghost var before := Stands();
        ok, left := Advance(io, left, chain, tip);
        PostedThrough(io, was, before, Stands(), ok);
        if !ok {
          return;
        }
        n := n + 1;
      }
    }

    /** The daily message, which the last call found due, and its delivery. */
    method Report(io: World, heartbeat: int, budget: nat, beat: string, ghost chain: History, ghost tip: int)
      returns (ok: bool)
      requires Valid() && cursor.Some? && outbox == [] && CountsFrom(beats, heartbeat)
      requires calls > 0 && io.now(calls - 1) - heartbeat >= DAY
      modifies this, channel
      ensures Valid() && cursor.Some? && cursor.value.height == old(cursor.value.height) && calls >= old(calls)
      ensures ok ==> outbox == []
      ensures Posted(io, old(Stands()), Stands(), ok) && |channel.tries| - |old(channel.tries)| <= budget
      ensures old(journal) <= journal
      ensures Regular(io, old(beats), beats, heartbeat, old(calls) - 1, cursor.value.height, cursor.value.height, ok)
      ensures old(Smooth(io, chain, tip)) ==>
        Smooth(io, chain, tip) && (ok || |channel.tries| - |old(channel.tries)| == budget)
    {
      ghost var was := Stands();
      ghost var b := Beats(beats.count + 1, cursor.value.height, heartbeat, io.now(calls - 1), io.now(calls));
      ok := Beat(io, beat, b, chain, tip);
      ghost var saved := Stands();
      Waited(io, was, saved);
      if ok {
        var left;
        ok, left := Drain(io, budget, chain, tip);
        PostedThrough(io, was, saved, Stands(), ok);
      }
    }

    /** The daily message at the confirmed end, when it is due. */
    method BeatIfDue(io: World, heartbeat: int, budget: nat, beat: string, ghost chain: History, ghost tip: int)
      returns (ok: bool)
      requires Valid() && cursor.Some? && outbox == [] && CountsFrom(beats, heartbeat)
      modifies this, channel
      ensures Valid() && cursor.Some? && cursor.value.height == old(cursor.value.height) && calls > old(calls)
      ensures ok ==> outbox == []
      ensures Posted(io, old(Stands()), Stands(), ok) && |channel.tries| - |old(channel.tries)| <= budget
      ensures old(journal) <= journal
      ensures Regular(io, old(beats), beats, heartbeat, old(calls), cursor.value.height, cursor.value.height, ok)
      ensures old(Smooth(io, chain, tip)) ==>
        Smooth(io, chain, tip) && (ok || |channel.tries| - |old(channel.tries)| == budget)
    {
      ghost var was := Stands();
      var now := io.now(calls);
      calls := calls + 1;
      ghost var asked := Stands();
      Waited(io, was, asked);
      ok := true;
      if now - heartbeat >= DAY {
        ok := Report(io, heartbeat, budget, beat, chain, tip);
        PostedThrough(io, was, asked, Stands(), ok);
      }
    }

    /** Delivers what is queued, then relays blocks up to `end`. */
    method DrainAndCatchUp(io: World, end: int, ghost chain: History, ghost tip: int) returns (ok: bool, left: nat)
      requires Valid() && cursor.Some? && cursor.value.height <= end
      modifies this, channel
      ensures Valid() && cursor.Some? && calls > old(calls)
      ensures old(journal) <= journal && beats == old(beats)
      ensures old(cursor.value.height) <= cursor.value.height <= old(cursor.value.height) + MAX_BLOCKS
      ensures cursor.value.height <= end
      ensures ok ==> outbox == []
      ensures ok ==> cursor.value.height == end || cursor.value.height == old(cursor.value.height) + MAX_BLOCKS
      ensures left <= MAX_DELIVERIES && Posted(io, old(Stands()), Stands(), ok)
      ensures |channel.tries| - |old(channel.tries)| <= MAX_DELIVERIES
      ensures ok ==> |channel.tries| - |old(channel.tries)| == MAX_DELIVERIES - left
      ensures old(Smooth(io, chain, tip)) ==>
        Smooth(io, chain, tip) && (ok || |channel.tries| - |old(channel.tries)| == MAX_DELIVERIES)
    {
      ghost var was := Stands();
      ok, left := Drain(io, MAX_DELIVERIES, chain, tip);
      ghost var drained := Stands();
      if ok {
        ok, left := CatchUp(io, end, left, chain, tip);
        PostedThrough(io, was, drained, Stands(), ok);
      }
    }

    /** Relays blocks up to `end`, then reports; the clock for that is call `asked`. */
    method Relay(io: World, end: int, heartbeat: int, beat: string, ghost chain: History, ghost tip: int)
      returns (ok: bool, ghost asked: nat)
      requires Valid() && cursor.Some? && cursor.value.height <= end && CountsFrom(beats, heartbeat)
      modifies this, channel
      ensures Valid() && cursor.Some?
      ensures old(cursor.value.height) <= cursor.value.height <= old(cursor.value.height) + MAX_BLOCKS
      ensures cursor.value.height <= end
      ensures ok ==> outbox == []
      ensures ok ==> cursor.value.height == end || cursor.value.height == old(cursor.value.height) + MAX_BLOCKS
      ensures Posted(io, old(Stands()), Stands(), ok) && |channel.tries| - |old(channel.tries)| <= MAX_DELIVERIES
      ensures old(calls) <= asked < calls
      ensures old(journal) <= journal
      ensures Regular(io, old(beats), beats, heartbeat, asked, cursor.value.height, end, ok)
      ensures old(Smooth(io, chain, tip)) ==>
        Smooth(io, chain, tip) && (ok || |channel.tries| - |old(channel.tries)| == MAX_DELIVERIES)
    {
      var left;
      ghost var was := Stands();
      asked := calls;
      ok, left := DrainAndCatchUp(io, end, chain, tip);
      ghost var caughtUp := Stands();
      if ok && cursor.value.height == end {
        asked := calls;
        ok := BeatIfDue(io, heartbeat, left, beat, chain, tip);
        PostedThrough(io, was, caughtUp, Stands(), ok);
      }
    }

    /** Goes on from the cursor if its block is still the node's. */
    method GoOn(io: World, end: int, heartbeat: int, beat: string, ghost chain: History, ghost tip: int)
      returns (ok: bool, ghost asked: nat)
      requires Valid() && cursor.Some? && cursor.value.height <= end && CountsFrom(beats, heartbeat)
      modifies this, channel
      ensures Valid() && cursor.Some?
      ensures old(cursor.value.height) <= cursor.value.height <= old(cursor.value.height) + MAX_BLOCKS
      ensures cursor.value.height <= end
      ensures ok ==> outbox == []
      ensures Halts(io, old(calls), old(cursor)) ==>
        !ok && journal == old(journal) && outbox == old(outbox) && channel.tries == old(channel.tries)
      ensures ok ==> cursor.value.height == end || cursor.value.height == old(cursor.value.height) + MAX_BLOCKS
      ensures Posted(io, old(Stands()), Stands(), ok) && |channel.tries| - |old(channel.tries)| <= MAX_DELIVERIES
      ensures old(calls) <= asked < calls
      ensures old(journal) <= journal
      ensures Regular(io, old(beats), beats, heartbeat, asked, cursor.value.height, end, ok)
      ensures old(Smooth(io, chain, tip)) ==>
        Smooth(io, chain, tip) && (ok || |channel.tries| - |old(channel.tries)| == MAX_DELIVERIES)
    {
      ghost var was := Stands();
      asked := calls;
      if Smooth(io, chain, tip) { assert GoodAt(io, render, chain, tip, calls, cursor.value.height); }
      var prev := io.block(calls, cursor.value.height);
      calls := calls + 1;
      ghost var ready := Stands();
      Waited(io, was, ready);
      if prev.None? || prev.value.hash != cursor.value.hash {
        return false, asked;
      }
      ok, asked := Relay(io, end, heartbeat, beat, chain, tip);
      PostedThrough(io, was, ready, Stands(), ok);
    }

    /** A cycle that knows the confirmed end. */
    method CycleTo(io: World, end: int, notice: string, beat: string, ghost chain: History, ghost tip: int)
      returns (ok: bool, ghost asked: nat)
      requires Valid() && calls > 0
      modifies this, channel
      ensures Valid()
      ensures Posted(io, old(Stands()), Stands(), ok) && |channel.tries| - |old(channel.tries)| <= MAX_DELIVERIES
      ensures old(journal) <= journal && (old(cursor).Some? ==> cursor.Some?)
      ensures journal == old(journal) || (cursor.Some? && cursor.value.height <= end)
      ensures old(calls) - 1 <= asked < calls && (cursor.None? ==> journal == old(journal))
      ensures cursor.Some? ==>
        Regular(io, BeatsFrom(io, old(cursor), old(beats), old(calls)), beats, CountedFrom(io, old(cursor), old(calls)),
                asked, cursor.value.height, end, ok)
      ensures ok ==> cursor.Some? && outbox == []
      ensures Halts(io, old(calls), old(cursor)) ==>
        !ok && journal == old(journal) && outbox == old(outbox) && channel.tries == old(channel.tries)
      ensures Moved(old(cursor), cursor, end, ok)
      ensures old(Smooth(io, chain, tip)) && HeightOr(old(cursor), end) <= end ==>
        Smooth(io, chain, tip) && (ok || |channel.tries| - |old(channel.tries)| == MAX_DELIVERIES)
    {
      ok, asked := false, calls - 1;
      ghost var was := Stands();
      var heartbeat := Resume(io, end, notice, chain, tip);
      ghost var ready := Stands();
      Waited(io, was, ready);
      if heartbeat.None? || cursor.value.height > end {
        return;
      }
      ok, asked := GoOn(io, end, heartbeat.value, beat, chain, tip);
      PostedThrough(io, was, ready, Stands(), ok);
    }

    /** One cycle, up to its first failure. If nothing goes wrong, only the delivery budget ends it early. */
    method Cycle(io: World, notice: string, beat: string, ghost chain: History, ghost tip: int)
      returns (ok: bool, ghost asked: nat)
      requires Valid()
      modifies this, channel
      ensures Valid()
      ensures Posted(io, old(Stands()), Stands(), ok) && |channel.tries| - |old(channel.tries)| <= MAX_DELIVERIES
      ensures old(journal) <= journal && (old(cursor).Some? ==> cursor.Some?)
      ensures journal == old(journal) || Deep(io.head(old(calls)), cursor)
      ensures ok ==> cursor.Some? && outbox == []
      ensures Halts(io, old(calls) + 1, old(cursor)) ==>
        !ok && journal == old(journal) && outbox == old(outbox) && channel.tries == old(channel.tries)
      ensures Moved(old(cursor), cursor, Confirmed(io.head(old(calls))), ok)
      ensures old(calls) <= asked < calls && (cursor.None? ==> journal == old(journal))
      ensures cursor.Some? ==>
        Regular(io, BeatsFrom(io, old(cursor), old(beats), old(calls) + 1), beats,
                CountedFrom(io, old(cursor), old(calls) + 1), asked, cursor.value.height,
                Confirmed(io.head(old(calls))), ok)
      ensures old(Smooth(io, chain, tip)) && tip > CONFIRMATIONS
        && HeightOr(old(cursor), tip - CONFIRMATIONS) <= tip - CONFIRMATIONS
        ==> Smooth(io, chain, tip) && (ok || |channel.tries| - |old(channel.tries)| == MAX_DELIVERIES)
    {
      ok, asked := false, calls;
      ghost var was := Stands();
      if Smooth(io, chain, tip) { assert GoodAt(io, render, chain, tip, calls, 0); }
      var head := io.head(calls);
      calls := calls + 1;
      ghost var ready := Stands();
      Waited(io, was, ready);
      if head.None? || head.value <= CONFIRMATIONS {
        return;
      }
      ok, asked := CycleTo(io, head.value - CONFIRMATIONS, notice, beat, chain, tip);
      PostedThrough(io, was, ready, Stands(), ok);
    }
  }

  /** The height below the tip by the required confirmations, if the node knows its tip. */
  function Confirmed(head: Option<int>): int {
    if head.Some? then head.value - CONFIRMATIONS else 0
  }

  /** The `i`-th try was a call of its own, answered in one of the cycles. */
  predicate AnsweredBy(runs: seq<Run>, tries: seq<Try>, calls: nat, i: int) {
    0 <= i < |tries| ==>
      && tries[i].call < calls && (i > 0 ==> tries[i - 1].call < tries[i].call)
      && exists c :: 0 <= c < |runs| && tries[i].answer == runs[c].io.post(tries[i].call)
  }

  lemma AnsweredStep(runs: seq<Run>, was: Standing, now: Standing, c: nat, ok: bool)
    requires c < |runs| && Delivered(runs[c].io, was, now, ok)
    requires forall i :: AnsweredBy(runs, was.tries, was.calls, i)
    ensures forall i :: AnsweredBy(runs, now.tries, now.calls, i)
  {
    forall i ensures AnsweredBy(runs, now.tries, now.calls, i) {
      assert AnsweredBy(runs, was.tries, was.calls, i) && AnsweredBy(runs, was.tries, was.calls, i - 1);
      assert AnsweredAt(runs[c].io, was, now, i);
    }
  }

  /** Nothing goes wrong from the state on, and the node is not behind the cursor. */
  ghost predicate CalmFrom(io: World, render: Render, chain: History, tip: int, was: Snap) {
    && Calm(io, render, chain, tip, was.stands.retryAt) && OnChain(chain, was.cursor, was.outbox)
    && tip > CONFIRMATIONS && HeightOr(was.cursor, tip - CONFIRMATIONS) <= tip - CONFIRMATIONS
  }

  /** The heartbeat of a cycle, which asked for the time in one of its calls. */
  ghost predicate TimedBy(io: World, was: Snap, now: Snap, end: int, ok: bool, asked: nat) {
    var calls, before, after := was.stands.calls, BeatsOf(was.journal), BeatsOf(now.journal);
    && calls <= asked < now.stands.calls
    && if now.cursor.None? then now.journal == was.journal
       else
         Regular(io, BeatsFrom(io, was.cursor, before, calls + 1), after, CountedFrom(io, was.cursor, calls + 1),
                 asked, now.cursor.value.height, end, ok)
  }

  lemma TimedCycle(io: World, was: Snap, now: Snap, b: Beats, b': Beats, end: int, ok: bool, asked: nat)
    requires b == BeatsOf(was.journal) && b' == BeatsOf(now.journal)
    requires was.stands.calls <= asked < now.stands.calls && (now.cursor.None? ==> now.journal == was.journal)
    requires now.cursor.Some? ==>
      Regular(io, BeatsFrom(io, was.cursor, b, was.stands.calls + 1), b',
              CountedFrom(io, was.cursor, was.stands.calls + 1), asked, now.cursor.value.height, end, ok)
    ensures Timed(io, was, now, end, ok)
  {
    assert TimedBy(io, was, now, end, ok, asked);
  }

  /** The journal is unbroken up to the cursor. */
  ghost predicate Recorded(render: Render, cursor: Option<Cursor>, journal: seq<Entry>) {
    Linked(render, journal) && cursor == Tip(journal)
  }

  ghost predicate Timed(io: World, was: Snap, now: Snap, end: int, ok: bool) {
    exists asked: nat :: TimedBy(io, was, now, end, ok, asked)
  }

  /** If the node shows another block at the cursor, the cycle halts: nothing is enqueued, posted or deleted. */
  predicate Halted(io: World, was: Snap, now: Snap, ok: bool) {
    Halts(io, was.stands.calls + 1, was.cursor) ==>
      !ok && now.journal == was.journal && now.outbox == was.outbox && now.stands.tries == was.stands.tries
  }

  /** The cursor's block has five blocks after it. */
  predicate Deep(head: Option<int>, cursor: Option<Cursor>) {
    head.Some? && cursor.Some? && cursor.value.height + 5 <= head.value
  }

  /** What a cycle posts and enqueues, and where it leaves the cursor. */
  ghost predicate Relayed(io: World, was: Snap, now: Snap, ok: bool) {
    && Posted(io, was.stands, now.stands, ok) && |now.stands.tries| - |was.stands.tries| <= 20
    && was.journal <= now.journal && (was.cursor.Some? ==> now.cursor.Some?)
    && (now.journal == was.journal || Deep(io.head(was.stands.calls), now.cursor))
    && (ok ==> now.cursor.Some? && now.outbox == []) && Halted(io, was, now, ok)
    && Moved(was.cursor, now.cursor, Confirmed(io.head(was.stands.calls)), ok)
  }

  /** Only the delivery budget ends a cycle early if nothing goes wrong. */
  ghost predicate Undisturbed(io: World, render: Render, chain: History, tip: int, was: Snap, now: Snap, ok: bool) {
    CalmFrom(io, render, chain, tip, was) ==>
      OnChain(chain, now.cursor, now.outbox) && (ok || |now.stands.tries| - |was.stands.tries| == 20)
  }

  /** One cycle between two states. */
  ghost predicate CycleDone(io: World, render: Render, chain: History, tip: int, was: Snap, now: Snap, ok: bool) {
    && Relayed(io, was, now, ok) && Undisturbed(io, render, chain, tip, was, now, ok)
    && Recorded(render, was.cursor, was.journal) && Recorded(render, now.cursor, now.journal)
    && Timed(io, was, now, Confirmed(io.head(was.stands.calls)), ok)
  }

  /** A new process forgets when it may post again. */
  function Restarted(s: Snap, again: bool): Snap {
    if again then s.(stands := s.stands.(retryAt := 0)) else s
  }

  /** What a cycle meets: the world, a process started anew or not, and the tip that an honest node would know. */
  datatype Run = Run(io: World, again: bool, tip: int)

  /** The `i`-th cycle, between the `i`-th state and the next. */
  ghost predicate DoneAt(render: Render, runs: seq<Run>, chain: History, states: seq<Snap>, oks: seq<bool>, i: nat) {
    i < |runs| && i + 1 < |states| && i < |oks| ==>
      CycleDone(runs[i].io, render, chain, runs[i].tip, Restarted(states[i], runs[i].again), states[i + 1], oks[i])
  }

  lemma DoneNext(render: Render, runs: seq<Run>, chain: History, states: seq<Snap>, oks: seq<bool>, now: Snap, ok: bool)
    requires |states| == |oks| + 1 && |oks| < |runs|
    requires forall i: nat :: DoneAt(render, runs, chain, states, oks, i)
    requires var r := runs[|oks|];
      CycleDone(r.io, render, chain, r.tip, Restarted(states[|oks|], r.again), now, ok)
    ensures forall i: nat :: DoneAt(render, runs, chain, states + [now], oks + [ok], i)
  {
    var states', oks' := states + [now], oks + [ok];
    forall i: nat ensures DoneAt(render, runs, chain, states', oks', i) {
      assert DoneAt(render, runs, chain, states, oks, i);
    }
  }

  // ----- what the cycles make of the daily message

  /** What is new in the journal is silent, but perhaps for the last entry, with the clock of the cycle. */
  predicate NewAt(was: seq<Entry>, now: seq<Entry>, due: int, at: int, i: int) {
    |was| <= i < |now| ==> Silent(now, i) || (i == |now| - 1 && now[i].beats.due == due && now[i].beats.at == at)
  }

  /** A cycle that leaves the count of the heartbeats as it is brings none; one that adds to it brings it last. */
  lemma NewHeartbeats(io: World, render: Render, was: Snap, now: Snap, end: int, ok: bool, asked: nat, due: int,
                      at: int)
    requires Recorded(render, was.cursor, was.journal) && Recorded(render, now.cursor, now.journal)
    requires was.journal <= now.journal && TimedBy(io, was, now, end, ok, asked)
    requires due == io.now(asked) && at == io.now(asked + 1)
    ensures forall i :: NewAt(was.journal, now.journal, due, at, i)
    ensures BeatsOf(now.journal).count == BeatsOf(was.journal).count ==>
      forall i | |was.journal| <= i :: Silent(now.journal, i)
    ensures BeatsOf(now.journal).count > BeatsOf(was.journal).count ==>
      |was.journal| < |now.journal| && !Silent(now.journal, |now.journal| - 1)
  {
    var a, b := |was.journal|, |now.journal|;
    assert now.journal[..a] == was.journal && now.journal[..b] == now.journal;
    BeatsCount(render, now.journal, a, b);
    if BeatsOf(now.journal).count > BeatsOf(was.journal).count {
      BeatsBelow(render, now.journal, b - 1);
      BeatsCount(render, now.journal, a, b - 1);
      BeatsCount(render, now.journal, b - 1, b);
      assert !Silent(now.journal, b - 1);
      assert BeatsOf(now.journal[..b - 1]).count == BeatsOf(was.journal).count;
    }
    forall i ensures NewAt(was.journal, now.journal, due, at, i) {
      assert i == b - 1 || Silent(now.journal, i) || i < a;
    }
  }

  /**
   A cycle that ends well at the confirmed end, and by whose clock a day has passed since the stored heartbeat,
   enqueues one more, after everything else it enqueues, and stores its time.
   */
  lemma HeartbeatWhenDue(io: World, render: Render, chain: History, tip: int, was: Snap, now: Snap)
    requires CycleDone(io, render, chain, tip, was, now, true) && was.cursor.Some?
    requires now.cursor.value.height == Confirmed(io.head(was.stands.calls))
    requires forall k: nat | was.stands.calls <= k < now.stands.calls :: io.now(k) - was.cursor.value.heartbeat >= DAY
    ensures |was.journal| < |now.journal| && now.journal[|now.journal| - 1].Heartbeat?
    ensures forall i | |was.journal| <= i < |now.journal| - 1 :: Silent(now.journal, i)
    ensures exists k: nat :: was.stands.calls < k && io.now(k) == now.cursor.value.heartbeat
  {
    var end := Confirmed(io.head(was.stands.calls));
    var asked: nat :| TimedBy(io, was, now, end, true, asked);
    var due, at := io.now(asked), io.now(asked + 1);
    NewHeartbeats(io, render, was, now, end, true, asked, due, at);
    assert io.now(asked + 1) == now.cursor.value.heartbeat;
    forall i | |was.journal| <= i < |now.journal| - 1 ensures Silent(now.journal, i) {
      assert NewAt(was.journal, now.journal, due, at, i);
    }
  }

  /** A cycle that ends below the confirmed end, or within a day of the stored heartbeat, enqueues none. */
  lemma NoHeartbeatBefore(io: World, render: Render, chain: History, tip: int, was: Snap, now: Snap, ok: bool)
    requires CycleDone(io, render, chain, tip, was, now, ok) && was.cursor.Some?
    requires now.cursor.value.height != Confirmed(io.head(was.stands.calls))
      || forall k: nat | was.stands.calls <= k < now.stands.calls :: io.now(k) - was.cursor.value.heartbeat < DAY
    ensures forall i | |was.journal| <= i :: Silent(now.journal, i)
    ensures now.cursor.value.heartbeat == was.cursor.value.heartbeat
  {
    var end := Confirmed(io.head(was.stands.calls));
    var asked: nat :| TimedBy(io, was, now, end, ok, asked);
    NewHeartbeats(io, render, was, now, end, ok, asked, io.now(asked), io.now(asked + 1));
  }

  /** The clock does not go back from one reading to the next. */
  ghost predicate Steady(io: World) {
    forall k: nat :: Ticks(io, k)
  }

  predicate Ticks(io: World, k: nat) {
    io.now(k) <= io.now(k + 1)
  }

  lemma {:induction false} ClockKept(render: Render, runs: seq<Run>, chain: History, states: seq<Snap>, oks: seq<bool>,
                                     n: nat)
    requires |states| == |runs| + 1 && |oks| == |runs| && n <= |runs| && states[0].journal == []
    requires forall c | 0 <= c < |runs| :: Steady(runs[c].io)
    requires forall i: nat :: DoneAt(render, runs, chain, states, oks, i)
    ensures forall j :: !ClockFellAt(states[n].journal, j)
    decreases n
  {
    if n > 0 {
      ClockKept(render, runs, chain, states, oks, n - 1);
      assert DoneAt(render, runs, chain, states, oks, n - 1);
      var io, was, now := runs[n - 1].io, Restarted(states[n - 1], runs[n - 1].again), states[n];
      var end := Confirmed(io.head(was.stands.calls));
      var asked: nat :| TimedBy(io, was, now, end, oks[n - 1], asked);
      var due, at := io.now(asked), io.now(asked + 1);
      NewHeartbeats(io, render, was, now, end, oks[n - 1], asked, due, at);
      assert Ticks(io, asked);
      forall j ensures !ClockFellAt(now.journal, j) {
        assert !ClockFellAt(was.journal, j) && NewAt(was.journal, now.journal, due, at, j);
      }
    }
  }

  /** Over any cycles whose clocks do not go back, two heartbeats are a day apart. */
  lemma DailyAtMost(render: Render, runs: seq<Run>, chain: History, states: seq<Snap>, oks: seq<bool>, n: nat, i: nat,
                    j: nat)
    requires |states| == |runs| + 1 && |oks| == |runs| && 0 < n <= |runs| && states[0].journal == []
    requires forall c | 0 <= c < |runs| :: Steady(runs[c].io)
    requires forall i: nat :: DoneAt(render, runs, chain, states, oks, i)
    requires var journal := states[n].journal;
      i < j < |journal| && journal[i].Heartbeat? && journal[j].Heartbeat?
    ensures states[n].journal[j].beats.at >= states[n].journal[i].beats.at + DAY
  {
    ClockKept(render, runs, chain, states, oks, n);
    assert DoneAt(render, runs, chain, states, oks, n - 1);
    HeartbeatsApart(render, states[n].journal, i, j);
  }

  /** One cycle; the clock of its heartbeat is call `asked`. */
  method CycleOnce(w: Watcher, run: Run, notice: string, beat: string, ghost chain: History)
    returns (ok: bool, ghost asked: nat)
    requires w.Valid()
    modifies w, w.channel
    ensures w.Valid() && Relayed(run.io, old(w.Look()), w.Look(), ok)
    ensures Undisturbed(run.io, w.render, chain, run.tip, old(w.Look()), w.Look(), ok)
    ensures old(w.calls) <= asked < w.calls && (w.cursor.None? ==> w.journal == old(w.journal))
    ensures w.cursor.Some? ==>
      Regular(run.io, BeatsFrom(run.io, old(w.cursor), old(w.beats), old(w.calls) + 1), w.beats,
              CountedFrom(run.io, old(w.cursor), old(w.calls) + 1), asked, w.cursor.value.height,
              Confirmed(run.io.head(old(w.calls))), ok)
  {
    ok, asked := w.Cycle(run.io, notice, beat, chain, run.tip);
  }

  /** One cycle, of a new process or the same. */
  method RunOnce(w: Watcher, run: Run, notice: string, beat: string, ghost chain: History) returns (ok: bool)
    requires w.Valid()
    modifies w, w.channel
    ensures w.Valid() && CycleDone(run.io, w.render, chain, run.tip, Restarted(old(w.Look()), run.again), w.Look(), ok)
  {
    if run.again {
      w.Restart();
    }
    ghost var asked, was, b := 0, w.Look(), w.beats;
    assert was == Restarted(old(w.Look()), run.again);
    w.BeatsKnown();
    ok, asked := CycleOnce(w, run, notice, beat, chain);
    w.BeatsKnown();
    TimedCycle(run.io, was, w.Look(), b, w.beats, Confirmed(run.io.head(was.stands.calls)), ok, asked);
  }

  /**
   Any number of cycles, with a new process before some of them. What was deleted was accepted by the channel, in
   an answer to a post of that message; with the outbox it is everything the journal enqueued.
   */
  method Live(render: Render, channel: Channel, runs: seq<Run>, notice: string, beat: string, ghost chain: History)
    returns (w: Watcher, ghost states: seq<Snap>, oks: seq<bool>)
    requires channel.tries == []
    modifies channel
    ensures w.Valid() && w.render == render && w.channel == channel
    ensures |states| == |runs| + 1 && |oks| == |runs|
    ensures states[0] == Snap(None, [], [], Standing([], 0, [], 0)) && states[|runs|] == w.Look()
    ensures forall i: nat :: DoneAt(render, runs, chain, states, oks, i)
    ensures w.deleted + Contents(w.outbox) == Flatten(w.journal)
    ensures forall i :: AnsweredBy(runs, channel.tries, w.calls, i)
    ensures forall p | 0 <= p < |w.deleted| :: AcceptedSince(channel.tries, 0, p)
  {
    w := new Watcher(render, channel);
    states, oks := [w.Look()], [];
    for i := 0 to |runs|
      invariant fresh(w) && w.Valid() && w.render == render && w.channel == channel
      invariant |states| == i + 1 && |oks| == i && states[i] == w.Look()
      invariant states[0] == Snap(None, [], [], Standing([], 0, [], 0))
      invariant forall k: nat :: DoneAt(render, runs, chain, states, oks, k)
      invariant forall k :: AnsweredBy(runs, channel.tries, w.calls, k)
    {
      var ok := RunOnce(w, runs[i], notice, beat, chain);
      AnsweredStep(runs, Restarted(states[i], runs[i].again).stands, w.Stands(), i, ok);
      DoneNext(render, runs, chain, states, oks, w.Look(), ok);
      states, oks := states + [w.Look()], oks + [ok];
    }
    EverythingEnqueued(render, w.journal, w.all);
    NothingLost(w.Held());
  }

  /** Where the cursor stands, or where it would start. */
  function HeightOr(cursor: Option<Cursor>, tip: int): int {
    if cursor.Some? then cursor.value.height else tip
  }

  /**
   The cursor only moves on, by at most 50 blocks and never past `end`; a full cycle stops short for no other
   reason.
   */
  predicate Moved(was: Option<Cursor>, cursor: Option<Cursor>, end: int, ok: bool) {
    var from, to := HeightOr(was, end), HeightOr(cursor, end);
    && from <= to <= from + 50
    && (to > from ==> to <= end)
    && (ok ==> to == end || to == from + 50)
  }
}
