/** The relay data plane as a state machine: upstream callbacks write the cache and publish to the fanout
    hub, streaming clients join a topic, read the cached snapshot and drain their channel, and removals come
    from clients, from the slow-consumer rule and from the zombie sweep.  Every atomic operation and every
    action under a lock is one step; steps of all threads interleave freely. */
module Relay {

  datatype Option<+T> = None | Some(value: T) {
    function GetOr(other: T): T { match this case Some(v) => v case None => other }
  }

  datatype PriceLevel = PriceLevel(price: real, size: real)

  datatype Book = Book(symbol: string, asks: seq<PriceLevel>, bids: seq<PriceLevel>)

  /** A message handed to the data callback for `symbol`; `owner` is the thread that runs the callback. */
  datatype Update = Update(symbol: string, book: Option<Book>, owner: nat)

  /** What the upstream side has produced.  An update is named by its place in `updates`; the cache holds the
      update whose book is cached for a symbol.  History: `writes` lists the updates in the order they were
      written to the cache, `copied` holds the updates whose Publish has passed the copy of the members. */
  datatype Feed = Feed(updates: seq<Update>, cache: map<string, nat>, writes: seq<nat>, copied: set<nat>)

  /** One attempt of Publish to put an update into a subscriber's channel. */
  datatype Offer = Offer(update: nat, accepted: bool)

  /** History of a subscriber: what its reader received, every attempt to send to it, how often it was put into
      a topic and the last one, the updates whose members had been copied when it joined, the number of cache
      writes when its snapshot was read, the update whose book that was, the books that were sent to the client, and
      whether a send to the client failed. */
  datatype Past = Past(taken: seq<nat>, offers: seq<Offer>, joins: nat, topic: Option<string>, before: set<nat>,
                       snapAt: Option<nat>, snap: Option<nat>, sent: seq<Book>, broken: bool)

  /** A subscriber: `flag` is its closed flag, `closed` the state of its channel, `queue` the channel's buffer;
      `stream` is the thread that serves it when it belongs to StreamOrderBook. */
  datatype Sub = Sub(id: string, stream: Option<nat>, flag: bool, closed: bool, dropped: nat, queue: seq<nat>,
                     past: Past)

  datatype Key = Key(symbol: string, id: string)

  /** The hub.  `members` joins the subscriber maps of all topics; `overwrites` counts the joins that displaced
      a member, for history. */
  datatype Hub = Hub(topics: set<string>, members: map<Key, nat>, active: int, dropped: nat, overwrites: nat)

  /** What a thread does after an Unsubscribe: end, or go on publishing to the rest of the copied members. */
  datatype Next = End | Resume(update: nat, rest: seq<nat>)

  /** The next step of a thread. */
  datatype Thread =
    | Done
    | Write(update: nat)                                   // onData: write the cache
    | Lookup(update: nat)                                  // Publish: find the topic
    | Copy(update: nat)                                    // Publish: copy the members
    | Visit(update: nat, rest: seq<nat>)                   // Publish: test the closed flag
    | Send(update: nat, rest: seq<nat>)                    // Publish: send without blocking
    | Drop(update: nat, rest: seq<nat>)                    // Publish: count the drop on the subscriber
    | Tally(update: nat, rest: seq<nat>)                   // Publish: count the drop on the hub
    | Check(update: nat, rest: seq<nat>)                   // Publish: compare with the threshold
    | Leave(key: Key, next: Next)                          // Unsubscribe: find the topic
    | Mark(key: Key, next: Next)                           // Unsubscribe: lock the topic, set the closed flag
    | Close(key: Key, sub: nat, next: Next)                // Unsubscribe: close the channel, delete, unlock
    | Join(symbol: string, sub: nat)                       // Subscribe: find or create the topic
    | Insert(symbol: string, sub: nat)                     // Subscribe: put the subscriber into the topic
    | Enroll(symbol: string, sub: nat)                     // Subscribe: count it
    | Snapshot(symbol: string, sub: nat)                   // StreamOrderBook: send the cached book
    | Drain(symbol: string, sub: nat)                      // StreamOrderBook: receive and send on

  /** A panic ends the process. */
  datatype Status = Running | SentOnClosed | ClosedTwice

  datatype Config = Config(bufferSize: nat, slowThreshold: nat, maxDepth: nat)

  datatype State = State(feed: Feed, hub: Hub, subs: seq<Sub>, threads: seq<Thread>, status: Status)

  const Init := State(Feed([], map[], [], {}), Hub({}, map[], 0, 0, 0), [], [], Running)

  function NewSub(id: string, stream: Option<nat>): Sub {
    Sub(id, stream, false, false, 0, [], Past([], [], 0, None, {}, None, None, [], false))
  }

  // ---------------------------------------------------------------- the steps of a thread

  function Goto(s: State, t: nat, pc: Thread): State
    requires t < |s.threads|
  {
    s.(threads := s.threads[t := pc])
  }

  /** Replaces one subscriber and moves the thread on. */
  function Put(s: State, r: nat, sub: Sub, t: nat, pc: Thread): State
    requires r < |s.subs| && t < |s.threads|
  {
    s.(subs := s.subs[r := sub], threads := s.threads[t := pc])
  }

  function After(next: Next): Thread {
    match next case End => Done case Resume(u, rest) => Visit(u, rest)
  }

  function Trim(b: Book, maxDepth: nat): Book {
    b.(asks := if |b.asks| > maxDepth then b.asks[..maxDepth] else b.asks,
       bids := if |b.bids| > maxDepth then b.bids[..maxDepth] else b.bids)
  }

  /** The cache keeps the book that it trims in place, so the message carries the trimmed book from then on. */
  function DoWrite(c: Config, s: State, t: nat, u: nat): State
    requires t < |s.threads| && u < |s.feed.updates|
  {
    var m := s.feed.updates[u];
    if m.book.None? then Goto(s, t, Lookup(u))
    else
      var b := Trim(m.book.value, c.maxDepth);
      Goto(s.(feed := Feed(s.feed.updates[u := m.(book := Some(b))], s.feed.cache[b.symbol := u], s.feed.writes + [u],
                           s.feed.copied)),
           t, Lookup(u))
  }

  function DoLookup(s: State, t: nat, u: nat): State
    requires t < |s.threads| && u < |s.feed.updates|
  {
    if s.feed.updates[u].symbol in s.hub.topics then Goto(s, t, Copy(u))
    else Goto(s.(feed := s.feed.(copied := s.feed.copied + {u})), t, Done)
  }

  function DoCopy(s: State, t: nat, u: nat, order: seq<nat>): State
    requires t < |s.threads|
  {
    Goto(s.(feed := s.feed.(copied := s.feed.copied + {u})), t, Visit(u, order))
  }

  function DoVisit(s: State, t: nat, u: nat, rest: seq<nat>): State
    requires t < |s.threads| && (rest != [] ==> rest[0] < |s.subs|)
  {
    if rest == [] then Goto(s, t, Done)
    else if s.subs[rest[0]].flag then Goto(s, t, Visit(u, rest[1..]))
    else Goto(s, t, Send(u, rest))
  }

  /** Sending on a closed channel panics. */
  function DoSend(c: Config, s: State, t: nat, u: nat, rest: seq<nat>): State
    requires t < |s.threads| && rest != [] && rest[0] < |s.subs|
  {
    var sub := s.subs[rest[0]];
    if sub.closed then s.(status := SentOnClosed)
    else if |sub.queue| < c.bufferSize then
      Put(s, rest[0], sub.(queue := sub.queue + [u], past := sub.past.(offers := sub.past.offers + [Offer(u, true)])),
          t, Visit(u, rest[1..]))
    else
      Put(s, rest[0], sub.(past := sub.past.(offers := sub.past.offers + [Offer(u, false)])), t, Drop(u, rest))
  }

  function DoDrop(s: State, t: nat, u: nat, rest: seq<nat>): State
    requires t < |s.threads| && rest != [] && rest[0] < |s.subs|
  {
    Put(s, rest[0], s.subs[rest[0]].(dropped := s.subs[rest[0]].dropped + 1), t, Tally(u, rest))
  }

  function DoTally(s: State, t: nat, u: nat, rest: seq<nat>): State
    requires t < |s.threads|
  {
    Goto(s.(hub := s.hub.(dropped := s.hub.dropped + 1)), t, Check(u, rest))
  }

  function DoCheck(c: Config, s: State, t: nat, u: nat, rest: seq<nat>): State
    requires t < |s.threads| && u < |s.feed.updates| && rest != [] && rest[0] < |s.subs|
  {
    if s.subs[rest[0]].dropped > c.slowThreshold
    then Goto(s, t, Leave(Key(s.feed.updates[u].symbol, s.subs[rest[0]].id), Resume(u, rest[1..])))
    else Goto(s, t, Visit(u, rest[1..]))
  }

  function DoLeave(s: State, t: nat, key: Key, next: Next): State
    requires t < |s.threads|
  {
    Goto(s, t, if key.symbol in s.hub.topics then Mark(key, next) else After(next))
  }

  function DoMark(s: State, t: nat, key: Key, next: Next): State
    requires t < |s.threads| && (key in s.hub.members ==> s.hub.members[key] < |s.subs|)
  {
    if key in s.hub.members then
      var r := s.hub.members[key];
      Put(s, r, s.subs[r].(flag := true), t, Close(key, r, next))
    else Goto(s, t, After(next))
  }

  /** Closing a closed channel panics. */
  function DoClose(s: State, t: nat, key: Key, r: nat, next: Next): State
    requires t < |s.threads| && r < |s.subs|
  {
    if s.subs[r].closed then s.(status := ClosedTwice)
    else
      Put(s.(hub := s.hub.(members := s.hub.members - {key}, active := s.hub.active - 1)),
          r, s.subs[r].(closed := true), t, After(next))
  }

  function DoJoin(s: State, t: nat, symbol: string, r: nat): State
    requires t < |s.threads|
  {
    Goto(s.(hub := s.hub.(topics := s.hub.topics + {symbol})), t, Insert(symbol, r))
  }

  function DoInsert(s: State, t: nat, symbol: string, r: nat): State
    requires t < |s.threads| && r < |s.subs|
  {
    var sub, key := s.subs[r], Key(symbol, s.subs[r].id);
    Put(s.(hub := s.hub.(members := s.hub.members[key := r],
                         overwrites := s.hub.overwrites + if key in s.hub.members then 1 else 0)),
        r, sub.(past := sub.past.(joins := sub.past.joins + 1, topic := Some(symbol), before := s.feed.copied)),
        t, Enroll(symbol, r))
  }

  function DoEnroll(s: State, t: nat, symbol: string, r: nat): State
    requires t < |s.threads| && r < |s.subs|
  {
    Goto(s.(hub := s.hub.(active := s.hub.active + 1)), t, if s.subs[r].stream.Some? then Snapshot(symbol, r) else Done)
  }

  /** A book is sent to the client, or the send fails. */
  function Showed(past: Past, book: Book, ok: bool): Past {
    if ok then past.(sent := past.sent + [book]) else past.(broken := true)
  }

  /** `ok` is false when the client's send function fails; then the deferred Unsubscribe runs. */
  function DoSnapshot(s: State, t: nat, symbol: string, r: nat, ok: bool): State
    requires t < |s.threads| && r < |s.subs|
    requires symbol in s.feed.cache ==>
               s.feed.cache[symbol] < |s.feed.updates| &&
               s.feed.updates[s.feed.cache[symbol]].book.Some?
  {
    var sub := s.subs[r];
    var past := sub.past.(snapAt := Some(|s.feed.writes|));
    if symbol in s.feed.cache then
      var u := s.feed.cache[symbol];
      Put(s, r, sub.(past := Showed(past.(snap := Some(u)), s.feed.updates[u].book.value, ok)),
          t, if ok then Drain(symbol, r) else Leave(Key(symbol, sub.id), End))
    else Put(s, r, sub.(past := past), t, Drain(symbol, r))
  }

  /** The reader receives the oldest message of the buffer. */
  function Take(sub: Sub): Sub
    requires sub.queue != []
  {
    sub.(queue := sub.queue[1..], past := sub.past.(taken := sub.past.taken + [sub.queue[0]]))
  }

  /** A closed channel still yields what is buffered, and then ends the stream. */
  function DoDrain(s: State, t: nat, symbol: string, r: nat, ok: bool): State
    requires t < |s.threads| && r < |s.subs| && (s.subs[r].queue != [] ==> s.subs[r].queue[0] < |s.feed.updates|)
  {
    var sub := s.subs[r];
    if sub.queue == [] then Goto(s, t, Leave(Key(symbol, sub.id), End))
    else
      var book := s.feed.updates[sub.queue[0]].book;
      if book.None? then Put(s, r, Take(sub), t, Drain(symbol, r))
      else
        Put(s, r, Take(sub).(past := Showed(Take(sub).past, book.value, ok)),
            t, if ok then Drain(symbol, r) else Leave(Key(symbol, sub.id), End))
  }

  // ---------------------------------------------------------------- events and runs

  datatype Event =
    | OnData(symbol: string, book: Option<Book>)           // the upstream stream of a symbol calls back
    | Create(id: string)                                   // CreateSubscriber
    | Subscribe(symbol: string, sub: nat)                  // a call of Subscribe
    | Stream(symbol: string, id: string)                   // a call of StreamOrderBook
    | Unsubscribe(key: Key)                                // a call of Unsubscribe
    | Sweep(key: Key)                                      // CleanupZombies finds an idle member
    | Receive(sub: nat)                                    // a reader of its own channel receives
    | EvictBook(symbol: string)                            // the cache's Cleanup drops a stale book
    | Run(thread: nat, order: seq<nat>, ok: bool)          // a thread takes its next step

  /** A topic is locked by the thread that is about to close one of its members. */
  ghost predicate Unlocked(threads: seq<Thread>, symbol: string) {
    forall t :: 0 <= t < |threads| && threads[t].Close? ==> threads[t].key.symbol != symbol
  }

  ghost predicate Distinct(a: seq<nat>) { forall i, j :: 0 <= i < j < |a| ==> a[i] != a[j] }

  /** `order` lists the members of a topic, each once. */
  ghost predicate ListsMembers(members: map<Key, nat>, symbol: string, order: seq<nat>) {
    && Distinct(order)
    && (forall k :: k in members && k.symbol == symbol ==> members[k] in order)
    && (forall i :: 0 <= i < |order| ==> IsMember(members, symbol, order[i]))
  }

  ghost predicate IsMember(members: map<Key, nat>, symbol: string, r: nat) {
    exists k :: k in members && k.symbol == symbol && members[k] == r
  }

  ghost predicate Runnable(s: State, pc: Thread, order: seq<nat>) {
    match pc
    case Done => false
    case Copy(u) =>
      u < |s.feed.updates| && Unlocked(s.threads, s.feed.updates[u].symbol) &&
        ListsMembers(s.hub.members, s.feed.updates[u].symbol, order)
    case Mark(key, next) => Unlocked(s.threads, key.symbol)
    case Insert(symbol, r) => Unlocked(s.threads, symbol)
    case Drain(symbol, r) => r < |s.subs| && (s.subs[r].queue != [] || s.subs[r].closed)
    case _ => true
  }

  ghost predicate Enabled(s: State, e: Event) {
    && s.status.Running?
    && match e
       case Subscribe(symbol, r) => r < |s.subs| && s.subs[r].stream.None?
       case Sweep(key) =>
         && Unlocked(s.threads, key.symbol) && key in s.hub.members
         && s.hub.members[key] < |s.subs| && !s.subs[s.hub.members[key]].flag
       case Receive(r) => r < |s.subs| && s.subs[r].stream.None? && s.subs[r].queue != []
       case Run(t, order, ok) => t < |s.threads| && Runnable(s, s.threads[t], order)
       case _ => true
  }

  /** References point into the state. */
  ghost predicate InRange(updates: nat, subs: nat, pc: Thread) {
    && (pc.Write? || pc.Lookup? || pc.Copy? || pc.Visit? || pc.Send? || pc.Drop? || pc.Tally? || pc.Check? ==>
        pc.update < updates)
    && (pc.Visit? || pc.Send? || pc.Drop? || pc.Tally? || pc.Check? ==> AllBelow(pc.rest, subs))
    && (pc.Send? || pc.Drop? || pc.Tally? || pc.Check? ==> pc.rest != [])
    && (pc.Leave? || pc.Mark? || pc.Close? ==> pc.next.Resume? ==>
        pc.next.update < updates && AllBelow(pc.next.rest, subs))
    && (pc.Close? || pc.Join? || pc.Insert? || pc.Enroll? || pc.Snapshot? || pc.Drain? ==> pc.sub < subs)
  }

  ghost predicate AllBelow(a: seq<nat>, n: nat) { forall i :: 0 <= i < |a| ==> a[i] < n }

  ghost predicate WellFormed(s: State) {
    && (forall t :: 0 <= t < |s.threads| ==> InRange(|s.feed.updates|, |s.subs|, s.threads[t]))
    && (forall k :: k in s.hub.members ==>
          s.hub.members[k] < |s.subs| && s.subs[s.hub.members[k]].id == k.id &&
          k.symbol in s.hub.topics)
    && CacheOk(s.feed)
    && (forall r :: 0 <= r < |s.subs| ==> AllBelow(s.subs[r].queue, |s.feed.updates|))
  }

  ghost predicate CacheOk(f: Feed) {
    forall x :: x in f.cache ==> f.cache[x] < |f.updates| && f.updates[f.cache[x]].book.Some?
  }

  function RunThread(c: Config, s: State, t: nat, order: seq<nat>, ok: bool): State
    requires WellFormed(s) && t < |s.threads|
  {
    assert InRange(|s.feed.updates|, |s.subs|, s.threads[t]);
    match s.threads[t]
    case Done => s
    case Write(u) => DoWrite(c, s, t, u)
    case Lookup(u) => DoLookup(s, t, u)
    case Copy(u) => DoCopy(s, t, u, order)
    case Visit(u, rest) => DoVisit(s, t, u, rest)
    case Send(u, rest) => DoSend(c, s, t, u, rest)
    case Drop(u, rest) => DoDrop(s, t, u, rest)
    case Tally(u, rest) => DoTally(s, t, u, rest)
    case Check(u, rest) => DoCheck(c, s, t, u, rest)
    case Leave(key, next) => DoLeave(s, t, key, next)
    case Mark(key, next) => DoMark(s, t, key, next)
    case Close(key, r, next) => DoClose(s, t, key, r, next)
    case Join(symbol, r) => DoJoin(s, t, symbol, r)
    case Insert(symbol, r) => DoInsert(s, t, symbol, r)
    case Enroll(symbol, r) => DoEnroll(s, t, symbol, r)
    case Snapshot(symbol, r) => DoSnapshot(s, t, symbol, r, ok)
    case Drain(symbol, r) => assert AllBelow(s.subs[r].queue, |s.feed.updates|); DoDrain(s, t, symbol, r, ok)
  }

  function Spawn(s: State, pc: Thread): State { s.(threads := s.threads + [pc]) }

  function Step(c: Config, s: State, e: Event): State
    requires WellFormed(s) && Enabled(s, e)
  {
    match e
    case OnData(symbol, book) =>
      Spawn(s.(feed := s.feed.(updates := s.feed.updates + [Update(symbol, book, |s.threads|)])),
            Write(|s.feed.updates|))
    case Create(id) => s.(subs := s.subs + [NewSub(id, None)])
    case Subscribe(symbol, r) => Spawn(s, Join(symbol, r))
    case Stream(symbol, id) => Spawn(s.(subs := s.subs + [NewSub(id, Some(|s.threads|))]), Join(symbol, |s.subs|))
    case Unsubscribe(key) => Spawn(s, Leave(key, End))
    case Sweep(key) =>
      var r := s.hub.members[key];
      Spawn(s.(subs := s.subs[r := s.subs[r].(flag := true)]), Close(key, r, End))
    case Receive(r) => s.(subs := s.subs[r := Take(s.subs[r])])
    case EvictBook(symbol) => s.(feed := s.feed.(cache := s.feed.cache - {symbol}))
    case Run(t, order, ok) => RunThread(c, s, t, order, ok)
  }
}
