/** The fanout hub as its callers use it one call at a time: topics with members, whose channels it fills and
    closes.  What concurrent calls do is the subject of module Relay. */
module Fanout {

  /** A message, named by its place in what was published. */
  type Message = nat

  /** What changes of a subscriber: its channel's buffer, its drop counter, the time of the last send, the closed
      flag, and whether the channel itself is open. */
  datatype Contents = Contents(queue: seq<Message>, dropped: nat, lastSend: int, closed: bool, open: bool)

  /** What one publish does to a member: its queue grows, or a drop is counted, and a member over the threshold is
      closed. */
  function Served(c: Contents, capacity: nat, threshold: nat, message: Message, now: int): Contents {
    if c.closed then c
    else if |c.queue| < capacity then c.(queue := c.queue + [message], lastSend := now)
    else c.(dropped := c.dropped + 1, closed := c.dropped + 1 > threshold, open := c.dropped + 1 <= threshold)
  }

  /** What the hub does to a member, in the member's fields: the message goes to the end of the queue if it fits; if
      not,
      a drop is counted, and the member leaves when that puts it over the threshold. */
  lemma ServedFields(c: Contents, capacity: nat, threshold: nat, message: Message, now: int)
    requires c.open && !c.closed
    ensures var c' := Served(c, capacity, threshold, message, now);
            if |c.queue| < capacity then c' == Contents(c.queue + [message], c.dropped, now, false, true)
            else
              var over := c.dropped + 1 > threshold;
              c' == Contents(c.queue, c.dropped + 1, c.lastSend, over, !over)
    ensures Leaves(c, capacity, threshold) <==> |c.queue| >= capacity && c.dropped + 1 > threshold
    ensures Overflows(c, capacity) <==> |c.queue| >= capacity
  {
  }

  lemma SweptAll(was: map<string, map<string, Contents>>, timeout: nat, now: int)
    requires forall x, i :: x in was && i in was[x] ==> was[x][i].open && !was[x][i].closed
    ensures forall x, i :: x in was && i in was[x] ==>
              var c := was[x][i];
              && Swept(c, timeout, now) ==
                 (if now - c.lastSend > timeout then Contents(c.queue, c.dropped, c.lastSend, true, false) else c)
              && (i in IdleOf(was[x], timeout, now) <==> now - c.lastSend > timeout)
  {
  }

  /** The member's buffer is full, ... */
  predicate Overflows(c: Contents, capacity: nat) { |c.queue| >= capacity }

  /** ... and one more drop puts it over the threshold. */
  predicate Leaves(c: Contents, capacity: nat, threshold: nat) { Overflows(c, capacity) && c.dropped >= threshold }

  /** Nothing was sent to the member for too long. */
  predicate IsIdle(c: Contents, timeout: nat, now: int) { now - c.lastSend > timeout && !c.closed }

  /** What the sweep of the zombies does to a member. */
  function Swept(c: Contents, timeout: nat, now: int): Contents {
    if IsIdle(c, timeout, now) then c.(closed := true, open := false) else c
  }

  ghost function IdleOf(was: map<string, Contents>, timeout: nat, now: int): set<string> {
    set i | i in was && IsIdle(was[i], timeout, now)
  }

  function ServedAll(c: Contents, capacity: nat, threshold: nat, messages: seq<Message>, now: int): Contents {
    if messages == [] then c
    else Served(ServedAll(c, capacity, threshold, messages[..|messages| - 1], now), capacity, threshold,
                messages[|messages| - 1], now)
  }

  /** A member that reads nothing keeps the first messages that fit, in order, drops the rest, and is closed exactly
      when it has dropped more than the threshold. */
  lemma {:induction false} UnreadMember(c: Contents, capacity: nat, threshold: nat, messages: seq<Message>, now: int)
    requires c.open && !c.closed && |c.queue| <= capacity && c.dropped <= threshold
    ensures var c', free, spare := ServedAll(c, capacity, threshold, messages, now), capacity - |c.queue|,
              threshold - c.dropped;
            && c'.queue == c.queue + messages[..if |messages| < free then |messages| else free]
            && c'.dropped == c.dropped + (if |messages| <= free then 0
                                          else if |messages| - free <= spare then |messages| - free else spare + 1)
            && (c'.closed <==> |messages| > free + spare) && c'.open == !c'.closed
            && c'.lastSend == if messages != [] && free > 0 then now else c.lastSend
  {
    if messages != [] {
      var n, free := |messages| - 1, capacity - |c.queue|;
      UnreadMember(c, capacity, threshold, messages[..n], now);
      if n < free {
        assert messages[..n][..n] + [messages[n]] == messages[..n + 1];
      } else {
        assert messages[..n][..free] == messages[..free];
      }
    }
  }

  class Subscriber {
    const id: string
    const capacity: nat
    var queue: seq<Message>
    var dropped: nat
    var lastSend: int
    var closed: bool
    /** Whether the channel itself is still open. */
    var open: bool

    function Now(): Contents
      reads this
    {
      Contents(queue, dropped, lastSend, closed, open)
    }

    constructor (id: string, capacity: nat, now: int)
      ensures this.id == id && this.capacity == capacity && Now() == Contents([], 0, now, false, true)
    {
      this.id, this.capacity, queue, dropped, lastSend, closed, open := id, capacity, [], 0, now, false, true;
    }

    /** Closing a closed channel would panic. */
    method Close()
      requires open
      modifies this`closed, this`open
      ensures Now() == old(Now()).(closed := true, open := false)
    {
      closed := true;
      open := false;
    }
  }

  type Members = map<string, Subscriber>

  ghost predicate Filed(topics: map<string, Members>) {
    forall x, i :: x in topics && i in topics[x] ==> topics[x][i].id == i
  }

  ghost predicate HeldOnce(topics: map<string, Members>) {
    forall x, y, i, j :: x in topics && y in topics && i in topics[x] && j in topics[y] ==>
      topics[x][i] == topics[y][j] ==> x == y && i == j
  }

  /** The topics with one more member of one topic, or one replaced. */
  ghost function With(topics: map<string, Members>, symbol: string, sub: Subscriber): map<string, Members> {
    var members: Members := if symbol in topics then topics[symbol] else map[];
    topics[symbol := members[sub.id := sub]]
  }

  /** A subscriber may join a topic when it is open and held by no other topic. */
  ghost predicate MayJoin(topics: map<string, Members>, symbol: string, sub: Subscriber)
    reads sub
  {
    sub.open && !sub.closed && forall x, i :: x in topics && i in topics[x] && topics[x][i] == sub ==> x == symbol
  }

  lemma WithAt(topics: map<string, Members>, symbol: string, sub: Subscriber)
    ensures var topics' := With(topics, symbol, sub);
            && symbol in topics' && sub.id in topics'[symbol] && topics'[symbol][sub.id] == sub
            && forall x, i :: x in topics' && i in topics'[x] && !(x == symbol && i == sub.id) ==>
                 x in topics && i in topics[x] && topics'[x][i] == topics[x][i]
    ensures forall x, i :: x in topics && i in topics[x] && !(x == symbol && i == sub.id) ==>
              x in With(topics, symbol, sub) && i in With(topics, symbol, sub)[x] &&
                With(topics, symbol, sub)[x][i] == topics[x][i]
  {
  }

  lemma WithFiled(topics: map<string, Members>, symbol: string, sub: Subscriber)
    requires Filed(topics)
    ensures Filed(With(topics, symbol, sub))
  {
    hide With;
    WithAt(topics, symbol, sub);
  }

  lemma WithHeldOnceIff(topics: map<string, Members>, symbol: string, sub: Subscriber)
    requires Filed(topics) && HeldOnce(topics) && sub.open && !sub.closed
    ensures HeldOnce(With(topics, symbol, sub)) <==> MayJoin(topics, symbol, sub)
  {
    hide With;
    var topics' := With(topics, symbol, sub);
    WithAt(topics, symbol, sub);
    if MayJoin(topics, symbol, sub) {
      assert HeldOnce(topics');
    } else {
      var x, i :| x in topics && i in topics[x] && topics[x][i] == sub && x != symbol;
      assert topics'[x][i] == topics'[symbol][sub.id];
      assert !HeldOnce(topics');
    }
  }

  ghost predicate AllOpen(topics: map<string, Members>)
    reads set x, i | x in topics && i in topics[x] :: topics[x][i]
  {
    forall x, i :: x in topics && i in topics[x] ==> topics[x][i].open && !topics[x][i].closed
  }

  lemma WithOpenIff(topics: map<string, Members>, symbol: string, sub: Subscriber)
    requires AllOpen(topics)
    ensures AllOpen(With(topics, symbol, sub)) <==> sub.open && !sub.closed
  {
    hide With;
    WithAt(topics, symbol, sub);
  }

  /** The topics without some members of one topic. */
  ghost function Without(topics: map<string, Members>, symbol: string, gone: set<string>): map<string, Members> {
    if symbol in topics then topics[symbol := topics[symbol] - gone] else topics
  }

  /** The places of all members. */
  ghost function Keys(topics: map<string, Members>): set<(string, string)> {
    set x, i | x in topics && i in topics[x] :: (x, i)
  }

  ghost function KeysIn(symbol: string, ids: set<string>): set<(string, string)> { set i | i in ids :: (symbol, i) }

  lemma {:induction false} KeysInSize(symbol: string, ids: set<string>)
    ensures |KeysIn(symbol, ids)| == |ids|
  {
    if ids != {} {
      var i :| i in ids;
      KeysInSize(symbol, ids - {i});
      assert KeysIn(symbol, ids) == KeysIn(symbol, ids - {i}) + {(symbol, i)};
    }
  }

  lemma KeysWithout(topics: map<string, Members>, symbol: string, gone: set<string>)
    requires symbol in topics && gone <= topics[symbol].Keys
    ensures |Keys(Without(topics, symbol, gone))| == |Keys(topics)| - |gone|
  {
    KeysInSize(symbol, gone);
    assert KeysIn(symbol, gone) <= Keys(topics);
    assert Keys(Without(topics, symbol, gone)) == Keys(topics) - KeysIn(symbol, gone);
  }

  lemma IdleAreMembers(was: map<string, Contents>, timeout: nat, now: int)
    ensures IdleOf(was, timeout, now) <= was.Keys
  {
  }

  lemma WithoutParts(topics: map<string, Members>, symbol: string, gone: set<string>)
    requires symbol in topics
    ensures Without(topics, symbol, gone).Keys == topics.Keys
    ensures Without(topics, symbol, gone)[symbol] == topics[symbol] - gone
    ensures forall x :: x in topics && x != symbol ==> Without(topics, symbol, gone)[x] == topics[x]
  {
  }

  lemma WithoutNone(topics: map<string, Members>, symbol: string)
    ensures Without(topics, symbol, {}) == topics
  {
    if symbol in topics {
      assert topics[symbol] - {} == topics[symbol];
    }
  }

  lemma WithoutMore(topics: map<string, Members>, symbol: string, gone: set<string>, more: set<string>)
    ensures Without(Without(topics, symbol, gone), symbol, more) == Without(topics, symbol, gone + more)
  {
    if symbol in topics {
      assert (topics[symbol] - gone) - more == topics[symbol] - (gone + more);
    }
  }

  lemma WithoutKeeps(topics: map<string, Members>, symbol: string, gone: set<string>, i: string)
    requires symbol in topics && i in topics[symbol] && i !in gone
    ensures symbol in Without(topics, symbol, gone)
    ensures i in Without(topics, symbol, gone)[symbol] && Without(topics, symbol, gone)[symbol][i] == topics[symbol][i]
  {
  }

  /** Of `all`, those that are done when `todo` is left. */
  ghost function Done(all: set<string>, todo: set<string>): set<string> { all - todo }

  lemma OneMoreDone(all: set<string>, todo: set<string>, i: string)
    requires i in todo
    ensures Done(all, todo - {i}) == Done(all, todo) + if i in all then {i} else {}
    ensures |Done(all, todo - {i})| == |Done(all, todo)| + if i in all then 1 else 0
    ensures i !in Done(all, todo)
  {
    assert all - (todo - {i}) == (all - todo) + if i in all then {i} else {};
  }

  /** One more member is done, and gone if it is one of `all`. */
  lemma NextDone(topics: map<string, Members>, symbol: string, all: set<string>, todo: set<string>, i: string)
    requires symbol in topics && i in topics[symbol] && i in todo
    ensures var rest := Without(topics, symbol, Done(all, todo));
            && symbol in rest && i in rest[symbol] && rest[symbol][i] == topics[symbol][i]
            && Without(rest, symbol, if i in all then {i} else {}) == Without(topics, symbol, Done(all, todo - {i}))
    ensures |Done(all, todo - {i})| == |Done(all, todo)| + if i in all then 1 else 0
  {
    OneMoreDone(all, todo, i);
    WithoutKeeps(topics, symbol, Done(all, todo), i);
    WithoutMore(topics, symbol, Done(all, todo), if i in all then {i} else {});
  }

  lemma NoneDone(all: set<string>, todo: set<string>)
    requires all <= todo
    ensures Done(all, todo) == {}
  {
  }

  lemma AllDone(all: set<string>)
    ensures Done(all, {}) == all
  {
  }

  /** Where the sweep of the topics has got to: those still to do are whole, the others lack their idle members. */
  ghost predicate TopicsSwept(topics: map<string, Members>, all: map<string, Members>, todo: set<string>,
                              timeout: nat, now: int, was: map<string, map<string, Contents>>)
  {
    && todo <= topics.Keys == all.Keys == was.Keys
    && (forall x :: x in todo ==> topics[x] == all[x])
    && (forall x :: x in all && x !in todo ==> topics[x] == all[x] - IdleOf(was[x], timeout, now))
  }

  lemma StillToDo(topics: map<string, Members>, all: map<string, Members>, todo: set<string>, x: string,
                  timeout: nat, now: int, was: map<string, map<string, Contents>>)
    requires TopicsSwept(topics, all, todo, timeout, now, was) && x in todo
    ensures x in topics && x in all && topics[x] == all[x]
  {
  }

  lemma NoTopicSwept(all: map<string, Members>, timeout: nat, now: int, was: map<string, map<string, Contents>>)
    requires was.Keys == all.Keys
    ensures TopicsSwept(all, all, all.Keys, timeout, now, was)
  {
  }

  lemma AllTopicsSwept(topics: map<string, Members>, all: map<string, Members>, timeout: nat, now: int,
                       was: map<string, map<string, Contents>>)
    requires TopicsSwept(topics, all, {}, timeout, now, was)
    ensures topics.Keys == all.Keys && forall x :: x in all ==> topics[x] == all[x] - IdleOf(was[x], timeout, now)
  {
  }

  lemma OneMoreTopic(topics: map<string, Members>, all: map<string, Members>, todo: set<string>, x: string,
                     timeout: nat, now: int, was: map<string, map<string, Contents>>)
    requires TopicsSwept(topics, all, todo, timeout, now, was) && x in todo && was[x].Keys == all[x].Keys
    ensures var idle := IdleOf(was[x], timeout, now);
            && TopicsSwept(Without(topics, x, idle), all, todo - {x}, timeout, now, was)
            && |Keys(Without(topics, x, idle))| == |Keys(topics)| - |idle|
  {
    hide IdleOf, Without, Keys;
    IdleAreMembers(was[x], timeout, now);
    KeysWithout(topics, x, IdleOf(was[x], timeout, now));
    WithoutParts(topics, x, IdleOf(was[x], timeout, now));
  }

  class Hub {
    var topics: map<string, Members>
    const bufferSize: nat
    const slowThreshold: nat
    const zombieTimeout: nat
    var activeSubscribers: int
    var droppedMessages: nat

    ghost function Held(): set<Subscriber>
      reads this
    {
      set x, i | x in topics && i in topics[x] :: topics[x][i]
    }

    ghost function MembersOf(symbol: string): Members
      reads this
    {
      if symbol in topics then topics[symbol] else map[]
    }

    /** Every member is filed under its id, no subscriber is held twice, and every member is open. */
    ghost predicate Valid()
      reads this, Held()
    {
      Filed(topics) && HeldOnce(topics) && AllOpen(topics)
    }

    constructor (bufferSize: nat, slowThreshold: nat, zombieTimeout: nat)
      ensures Valid() && topics == map[] && activeSubscribers == 0 && droppedMessages == 0
      ensures this.bufferSize == bufferSize && this.slowThreshold == slowThreshold
      ensures this.zombieTimeout == zombieTimeout
    {
      this.bufferSize, this.slowThreshold, this.zombieTimeout := bufferSize, slowThreshold, zombieTimeout;
      topics, activeSubscribers, droppedMessages := map[], 0, 0;
    }

    method CreateSubscriber(id: string, now: int) returns (sub: Subscriber)
      ensures fresh(sub) && sub.id == id && sub.capacity == bufferSize && sub.Now() == Contents([], 0, now, false, true)
    {
      sub := new Subscriber(id, bufferSize, now);
    }

    /** The hub takes any subscriber, and the gauge counts the call even when a member of the same id is displaced.
        A sound hub stays sound exactly when the subscriber is open and held by no other topic. */
    method Subscribe(symbol: string, sub: Subscriber)
      modifies this`topics, this`activeSubscribers
      ensures topics == With(old(topics), symbol, sub)
      ensures symbol in topics && sub.id in topics[symbol] && topics[symbol][sub.id] == sub
      ensures forall x, i :: !(x == symbol && i == sub.id) ==>
                (x in topics && i in topics[x] <==> x in old(topics) && i in old(topics)[x])
                && (x in topics && i in topics[x] ==> topics[x][i] == old(topics)[x][i])
      ensures activeSubscribers == old(activeSubscribers) + 1
      ensures old(Valid()) ==> (Valid() <==> MayJoin(old(topics), symbol, sub))
    {
      hide HeldOnce, Filed, MembersOf, AllOpen;
      if Valid() {
        WithFiled(topics, symbol, sub);
        WithOpenIff(topics, symbol, sub);
        if sub.open && !sub.closed {
          WithHeldOnceIff(topics, symbol, sub);
        }
      }
      if symbol !in topics {
        topics := topics[symbol := map[]];
      }
      topics := topics[symbol := topics[symbol][sub.id := sub]];
      activeSubscribers := activeSubscribers + 1;
      assert topics == With(old(topics), symbol, sub);
      WithAt(old(topics), symbol, sub);
    }

    method Unsubscribe(symbol: string, subID: string)
      requires Valid()
      modifies this`topics, this`activeSubscribers
      modifies if subID in MembersOf(symbol) then {MembersOf(symbol)[subID]} else {}
      ensures Valid()
      ensures topics == Without(old(topics), symbol, {subID})
      ensures forall x, i :: x in topics && i in topics[x] <==>
                x in old(topics) && i in old(topics)[x] && !(x == symbol && i == subID)
      ensures forall x, i :: x in topics && i in topics[x] ==> topics[x][i] == old(topics)[x][i]
      ensures activeSubscribers == old(activeSubscribers) - if subID in old(MembersOf(symbol)) then 1 else 0
      ensures subID in old(MembersOf(symbol)) ==>
                old(topics)[symbol][subID].Now() == old(topics[symbol][subID].Now()).(closed := true, open := false)
    {
      if symbol !in topics {
        return;
      }
      if subID in topics[symbol] {
        topics[symbol][subID].Close();
        topics := topics[symbol := topics[symbol] - {subID}];
        activeSubscribers := activeSubscribers - 1;
      } else {
        assert topics[symbol] - {subID} == topics[symbol];
      }
    }

    /** Offers a message to one member, and removes the member when it is over the threshold. */
    method Offer(symbol: string, sub: Subscriber, message: Message, now: int)
      requires Valid() && symbol in topics && sub.id in topics[symbol] && topics[symbol][sub.id] == sub
      modifies this`topics, this`activeSubscribers, this`droppedMessages, sub
      ensures Valid() && sub.Now() == Served(old(sub.Now()), sub.capacity, slowThreshold, message, now)
      ensures topics == Without(old(topics), symbol,
                                if Leaves(old(sub.Now()), sub.capacity, slowThreshold) then {sub.id} else {})
      ensures droppedMessages == old(droppedMessages) + if Overflows(old(sub.Now()), sub.capacity) then 1 else 0
      ensures activeSubscribers == old(activeSubscribers) -
                if Leaves(old(sub.Now()), sub.capacity, slowThreshold) then 1 else 0
    {
      if sub.closed {
        return;
      }
      WithoutNone(topics, symbol);
      if |sub.queue| < sub.capacity {
        sub.queue := sub.queue + [message];
        sub.lastSend := now;
      } else {
        sub.dropped := sub.dropped + 1;
        droppedMessages := droppedMessages + 1;
        if sub.dropped > slowThreshold {
          Unsubscribe(symbol, sub.id);
        }
      }
    }

    /** The ids of the members whose queues are full, and of those whom one more drop puts over the threshold. */
    ghost function Full(symbol: string): set<string>
      reads this, Held()
    {
      set i | i in MembersOf(symbol) && Overflows(MembersOf(symbol)[i].Now(), MembersOf(symbol)[i].capacity)
    }

    ghost function TooSlow(symbol: string): set<string>
      reads this, Held()
    {
      set i | i in MembersOf(symbol) && Leaves(MembersOf(symbol)[i].Now(), MembersOf(symbol)[i].capacity, slowThreshold)
    }

    /** One round of Publish: the other members stay as they are. */
    method OfferNext(symbol: string, subscribers: Members, i: string, message: Message, now: int)
      requires Valid() && i in subscribers && forall j :: j in subscribers ==> subscribers[j].id == j
      requires symbol in topics && i in topics[symbol] && topics[symbol][i] == subscribers[i]
      modifies this`topics, this`activeSubscribers, this`droppedMessages, subscribers[i]
      ensures Valid()
      ensures subscribers[i].Now() ==
              Served(old(subscribers[i].Now()), subscribers[i].capacity, slowThreshold, message, now)
      ensures forall j :: j in subscribers && j != i ==> subscribers[j].Now() == old(subscribers[j].Now())
      ensures topics == Without(old(topics), symbol,
                                if Leaves(old(subscribers[i].Now()), subscribers[i].capacity, slowThreshold)
                                then {i} else {})
      ensures droppedMessages == old(droppedMessages) +
                if Overflows(old(subscribers[i].Now()), subscribers[i].capacity) then 1 else 0
      ensures activeSubscribers == old(activeSubscribers) -
                if Leaves(old(subscribers[i].Now()), subscribers[i].capacity, slowThreshold) then 1 else 0
    {
      hide *;
      Offer(symbol, subscribers[i], message, now);
      forall j | j in subscribers && j != i
        ensures subscribers[j].Now() == old(subscribers[j].Now())
      {
        assert subscribers[j].id != subscribers[i].id;
      }
    }

    /** The members still to do are as they were, the others have been served. */
    ghost predicate MembersServed(subscribers: Members, todo: set<string>, was: map<string, Contents>,
                                  message: Message, now: int)
      reads this, subscribers.Values
      requires was.Keys == subscribers.Keys
    {
      forall i :: i in subscribers ==>
        subscribers[i].Now() ==
          if i in todo then was[i] else Served(was[i], subscribers[i].capacity, slowThreshold, message, now)
    }

    lemma NoneServed(subscribers: Members, was: map<string, Contents>, message: Message, now: int)
      requires was.Keys == subscribers.Keys && forall i :: i in subscribers ==> subscribers[i].Now() == was[i]
      ensures MembersServed(subscribers, subscribers.Keys, was, message, now)
    {
    }

    lemma AllServed(subscribers: Members, was: map<string, Contents>, message: Message, now: int)
      requires was.Keys == subscribers.Keys && MembersServed(subscribers, {}, was, message, now)
      ensures forall i :: i in subscribers ==>
                subscribers[i].Now() == Served(was[i], subscribers[i].capacity, slowThreshold, message, now)
    {
    }

    method ServeStep(symbol: string, subscribers: Members, ghost todo: set<string>, i: string, message: Message,
                     now: int, ghost was: map<string, Contents>)
      requires Valid() && symbol in topics && i in topics[symbol] && i in subscribers
      requires topics[symbol][i] == subscribers[i]
      requires i in todo && was.Keys == subscribers.Keys && forall j :: j in subscribers ==> subscribers[j].id == j
      requires MembersServed(subscribers, todo, was, message, now)
      modifies this`topics, this`activeSubscribers, this`droppedMessages, subscribers[i]
      ensures Valid() && MembersServed(subscribers, todo - {i}, was, message, now)
      ensures topics == Without(old(topics), symbol,
                                if Leaves(was[i], subscribers[i].capacity, slowThreshold) then {i} else {})
      ensures droppedMessages == old(droppedMessages) + if Overflows(was[i], subscribers[i].capacity) then 1 else 0
      ensures activeSubscribers ==
              old(activeSubscribers) - if Leaves(was[i], subscribers[i].capacity, slowThreshold) then 1 else 0
    {
      hide Valid, Held, MembersOf, Served, Without, Leaves, Overflows;
      OfferNext(symbol, subscribers, i, message, now);
    }

    /** The loop of Publish over the members it has copied: `full` and `slow` are those that it drops for and
        removes. */
    method ServeMembers(symbol: string, subscribers: Members, message: Message, now: int,
                        ghost full: set<string>, ghost slow: set<string>, ghost was: map<string, Contents>)
      requires Valid() && symbol in topics && topics[symbol] == subscribers && full <= subscribers.Keys
      requires slow <= subscribers.Keys && was.Keys == subscribers.Keys
      requires forall i :: i in subscribers ==> subscribers[i].id == i && subscribers[i].Now() == was[i]
      requires forall i :: i in subscribers ==> (i in full <==> Overflows(was[i], subscribers[i].capacity))
      requires forall i :: i in subscribers ==> (i in slow <==> Leaves(was[i], subscribers[i].capacity, slowThreshold))
      modifies this`topics, this`activeSubscribers, this`droppedMessages, subscribers.Values
      ensures Valid() && topics == Without(old(topics), symbol, slow)
      ensures forall i :: i in subscribers ==>
                subscribers[i].Now() == Served(was[i], subscribers[i].capacity, slowThreshold, message, now)
      ensures droppedMessages == old(droppedMessages) + |full| && activeSubscribers == old(activeSubscribers) - |slow|
    {
      hide *;
      var todo := subscribers.Keys;
      NoneDone(slow, todo);
      NoneDone(full, todo);
      WithoutNone(topics, symbol);
      NoneServed(subscribers, was, message, now);
      while todo != {}
        invariant Valid() && todo <= subscribers.Keys && MembersServed(subscribers, todo, was, message, now)
        invariant topics == Without(old(topics), symbol, Done(slow, todo))
        invariant droppedMessages == old(droppedMessages) + |Done(full, todo)|
        invariant activeSubscribers == old(activeSubscribers) - |Done(slow, todo)|
        decreases |todo|
      {
        var i :| i in todo;
        NextDone(old(topics), symbol, full, todo, i);
        NextDone(old(topics), symbol, slow, todo, i);
        ServeStep(symbol, subscribers, todo, i, message, now, was);
        todo := todo - {i};
      }
      AllDone(slow);
      AllDone(full);
      AllServed(subscribers, was, message, now);
    }

    /** Every member is served once, whatever members are removed on the way; exactly the members over the
        threshold leave, and the counters change by the drops and by the removals. */
    method Publish(symbol: string, message: Message, now: int)
      requires Valid()
      modifies this`topics, this`activeSubscribers, this`droppedMessages, MembersOf(symbol).Values
      ensures Valid()
      ensures forall i :: i in old(MembersOf(symbol)) ==>
                var sub := old(MembersOf(symbol))[i];
                sub.Now() == Served(old(MembersOf(symbol)[i].Now()), sub.capacity, slowThreshold, message, now)
      ensures forall i :: i in old(MembersOf(symbol)) ==>
                var sub, was := old(MembersOf(symbol))[i], old(MembersOf(symbol)[i].Now());
                if |was.queue| < sub.capacity
                then sub.Now() == Contents(was.queue + [message], was.dropped, now, false, true)
                else
                  var over := was.dropped + 1 > slowThreshold;
                  sub.Now() == Contents(was.queue, was.dropped + 1, was.lastSend, over, !over)
      ensures forall i :: i in old(MembersOf(symbol)) ==>
                var sub, was := old(MembersOf(symbol))[i], old(MembersOf(symbol)[i].Now());
                i in old(TooSlow(symbol)) <==> |was.queue| >= sub.capacity && was.dropped + 1 > slowThreshold
      ensures topics == Without(old(topics), symbol, old(TooSlow(symbol)))
      ensures droppedMessages == old(droppedMessages) + |old(Full(symbol))|
      ensures activeSubscribers == old(activeSubscribers) - |old(TooSlow(symbol))|
    {
      if symbol !in topics {
        return;
      }
      var subscribers := topics[symbol];
      forall i | i in subscribers
        ensures subscribers[i].open && !subscribers[i].closed
      {
      }
      forall c: Contents, capacity: nat | c.open && !c.closed
        ensures var c' := Served(c, capacity, slowThreshold, message, now);
                if |c.queue| < capacity then c' == Contents(c.queue + [message], c.dropped, now, false, true)
                else
                  var over := c.dropped + 1 > slowThreshold;
                  c' == Contents(c.queue, c.dropped + 1, c.lastSend, over, !over)
        ensures Leaves(c, capacity, slowThreshold) <==> |c.queue| >= capacity && c.dropped + 1 > slowThreshold
      {
        ServedFields(c, capacity, slowThreshold, message, now);
      }
      hide Served, Leaves, Overflows;
      ServeMembers(symbol, subscribers, message, now, Full(symbol), TooSlow(symbol),
                   map i | i in subscribers :: subscribers[i].Now());
    }

    /** One round of the sweep: the other members stay as they are. */
    method SweepNext(symbol: string, subscribers: Members, i: string, now: int)
      requires Valid() && i in subscribers && forall j :: j in subscribers ==> subscribers[j].id == j
      requires symbol in topics && i in topics[symbol] && topics[symbol][i] == subscribers[i]
      modifies this`topics, this`activeSubscribers, subscribers[i]
      ensures Valid() && subscribers[i].Now() == Swept(old(subscribers[i].Now()), zombieTimeout, now)
      ensures forall j :: j in subscribers && j != i ==> subscribers[j].Now() == old(subscribers[j].Now())
      ensures topics == Without(old(topics), symbol,
                                if IsIdle(old(subscribers[i].Now()), zombieTimeout, now) then {i} else {})
      ensures activeSubscribers == old(activeSubscribers) -
                if IsIdle(old(subscribers[i].Now()), zombieTimeout, now) then 1 else 0
    {
      WithoutNone(topics, symbol);
      if now - subscribers[i].lastSend > zombieTimeout && !subscribers[i].closed {
        Unsubscribe(symbol, i);
        hide Valid;
        forall j | j in subscribers && j != i
          ensures subscribers[j].Now() == old(subscribers[j].Now())
        {
          assert subscribers[j].id != subscribers[i].id;
        }
      }
    }

    /** The members still to do are as they were, the others have been looked at. */
    ghost predicate Visited(subscribers: Members, todo: set<string>, was: map<string, Contents>, now: int)
      reads this, subscribers.Values
      requires was.Keys == subscribers.Keys
    {
      forall i :: i in subscribers ==>
        subscribers[i].Now() == if i in todo then was[i] else Swept(was[i], zombieTimeout, now)
    }

    lemma NoneVisited(subscribers: Members, was: map<string, Contents>, now: int)
      requires was.Keys == subscribers.Keys && forall i :: i in subscribers ==> subscribers[i].Now() == was[i]
      ensures Visited(subscribers, subscribers.Keys, was, now)
    {
    }

    lemma AllVisited(subscribers: Members, was: map<string, Contents>, now: int)
      requires was.Keys == subscribers.Keys && Visited(subscribers, {}, was, now)
      ensures forall i :: i in subscribers ==> subscribers[i].Now() == Swept(was[i], zombieTimeout, now)
    {
    }

    method VisitNext(symbol: string, subscribers: Members, ghost todo: set<string>, i: string, now: int,
                     ghost was: map<string, Contents>)
      requires Valid() && symbol in topics && i in topics[symbol] && i in subscribers
      requires topics[symbol][i] == subscribers[i]
      requires i in todo && was.Keys == subscribers.Keys && forall j :: j in subscribers ==> subscribers[j].id == j
      requires Visited(subscribers, todo, was, now)
      modifies this`topics, this`activeSubscribers, subscribers[i]
      ensures Valid() && Visited(subscribers, todo - {i}, was, now)
      ensures topics == Without(old(topics), symbol, if IsIdle(was[i], zombieTimeout, now) then {i} else {})
      ensures activeSubscribers == old(activeSubscribers) - if IsIdle(was[i], zombieTimeout, now) then 1 else 0
    {
      hide Valid, Held, MembersOf, Swept, Without, IsIdle;
      SweepNext(symbol, subscribers, i, now);
    }

    /** The part of CleanupZombies for one topic: exactly the idle members are closed and leave. */
    method SweepTopic(symbol: string, subscribers: Members, now: int, ghost idle: set<string>,
                      ghost was: map<string, Contents>)
      requires Valid() && symbol in topics && topics[symbol] == subscribers && idle <= subscribers.Keys
      requires was.Keys == subscribers.Keys
      requires forall i :: i in subscribers ==> subscribers[i].id == i && subscribers[i].Now() == was[i]
      requires forall i :: i in subscribers ==> (i in idle <==> IsIdle(was[i], zombieTimeout, now))
      modifies this`topics, this`activeSubscribers, subscribers.Values
      ensures Valid() && topics == Without(old(topics), symbol, idle)
      ensures activeSubscribers == old(activeSubscribers) - |idle|
      ensures forall i :: i in subscribers ==> subscribers[i].Now() == Swept(was[i], zombieTimeout, now)
    {
      hide *;
      var todo := subscribers.Keys;
      NoneDone(idle, todo);
      WithoutNone(topics, symbol);
      NoneVisited(subscribers, was, now);
      while todo != {}
        invariant Valid() && todo <= subscribers.Keys && Visited(subscribers, todo, was, now)
        invariant topics == Without(old(topics), symbol, Done(idle, todo))
        invariant activeSubscribers == old(activeSubscribers) - |Done(idle, todo)|
        decreases |todo|
      {
        var i :| i in todo;
        NextDone(old(topics), symbol, idle, todo, i);
        VisitNext(symbol, subscribers, todo, i, now, was);
        todo := todo - {i};
      }
      AllDone(idle);
      AllVisited(subscribers, was, now);
    }

    /** One topic of the sweep: the members of the other topics stay as they are. */
    method SweepNextTopic(all: map<string, Members>, x: string, now: int, ghost was: map<string, Contents>)
      requires Valid() && x in topics && x in all && topics[x] == all[x] && HeldOnce(all) && was.Keys == all[x].Keys
      requires forall i :: i in was ==> all[x][i].id == i && all[x][i].Now() == was[i]
      modifies this`topics, this`activeSubscribers, all[x].Values
      ensures Valid() && topics == Without(old(topics), x, IdleOf(was, zombieTimeout, now))
      ensures activeSubscribers == old(activeSubscribers) - |IdleOf(was, zombieTimeout, now)|
      ensures forall i :: i in was ==> all[x][i].Now() == Swept(was[i], zombieTimeout, now)
      ensures forall y, j :: y in all && y != x && j in all[y] ==> all[y][j].Now() == old(all[y][j].Now())
    {
      hide Valid, Held, MembersOf, Without, Swept, IsIdle, Filed;
      SweepTopic(x, all[x], now, IdleOf(was, zombieTimeout, now), was);
      forall y, j | y in all && y != x && j in all[y]
        ensures all[y][j].Now() == old(all[y][j].Now())
      {
        assert forall i :: i in all[x] ==> all[x][i] != all[y][j];
        assert all[y][j] !in all[x].Values;
      }
    }

    /** The members of the topics still to do are as they were, the others are swept. */
    ghost predicate MembersSwept(all: map<string, Members>, todo: set<string>, now: int,
                                 was: map<string, map<string, Contents>>)
      reads this, set x, i | x in all && i in all[x] :: all[x][i]
      requires was.Keys == all.Keys
      requires forall x :: x in all ==> was[x].Keys == all[x].Keys
    {
      forall x, i :: x in all && i in all[x] ==>
        all[x][i].Now() == if x in todo then was[x][i] else Swept(was[x][i], zombieTimeout, now)
    }

    lemma MembersSweptOf(all: map<string, Members>, todo: set<string>, now: int,
                         was: map<string, map<string, Contents>>)
      requires was.Keys == all.Keys && forall x :: x in all ==> was[x].Keys == all[x].Keys
      requires MembersSwept(all, todo, now, was)
      ensures forall x, i :: x in all && i in all[x] ==>
                all[x][i].Now() == if x in todo then was[x][i] else Swept(was[x][i], zombieTimeout, now)
    {
    }

    lemma AreSwept(all: map<string, Members>, todo: set<string>, now: int, was: map<string, map<string, Contents>>)
      requires was.Keys == all.Keys && forall x :: x in all ==> was[x].Keys == all[x].Keys
      requires forall x, i :: x in all && i in all[x] ==>
                 all[x][i].Now() == if x in todo then was[x][i] else Swept(was[x][i], zombieTimeout, now)
      ensures MembersSwept(all, todo, now, was)
    {
    }

    lemma ValidParts()
      requires Valid()
      ensures HeldOnce(topics) && forall x, i :: x in topics && i in topics[x] ==> topics[x][i].id == i
    {
    }

    method SweepStep(all: map<string, Members>, ghost todo: set<string>, x: string, now: int,
                     ghost was: map<string, map<string, Contents>>)
      requires Valid() && HeldOnce(all) && was.Keys == all.Keys && x in todo
      requires forall y :: y in all ==> was[y].Keys == all[y].Keys
      requires forall y, i :: y in all && i in all[y] ==> all[y][i].id == i
      requires TopicsSwept(topics, all, todo, zombieTimeout, now, was) && MembersSwept(all, todo, now, was)
      modifies this`topics, this`activeSubscribers, if x in all then all[x].Values else {}
      ensures Valid()
      ensures TopicsSwept(topics, all, todo - {x}, zombieTimeout, now, was) && MembersSwept(all, todo - {x}, now, was)
      ensures activeSubscribers - |Keys(topics)| == old(activeSubscribers) - |Keys(old(topics))|
    {
      hide *;
      StillToDo(topics, all, todo, x, zombieTimeout, now, was);
      MembersSweptOf(all, todo, now, was);
      OneMoreTopic(topics, all, todo, x, zombieTimeout, now, was);
      SweepNextTopic(all, x, now, was[x]);
      AreSwept(all, todo - {x}, now, was);
    }

    method SweepAll(all: map<string, Members>, ghost was: map<string, map<string, Contents>>, now: int)
      requires Valid() && all == topics && was.Keys == all.Keys
      requires forall x :: x in all ==> was[x].Keys == all[x].Keys
      requires forall x, i :: x in all && i in all[x] ==> all[x][i].Now() == was[x][i]
      modifies this`topics, this`activeSubscribers, set x, i | x in all && i in all[x] :: all[x][i]
      ensures Valid() && topics.Keys == all.Keys
      ensures forall x, i :: x in all && i in all[x] ==> all[x][i].Now() == Swept(was[x][i], zombieTimeout, now)
      ensures forall x :: x in all ==> topics[x] == all[x] - IdleOf(was[x], zombieTimeout, now)
      ensures activeSubscribers - |Keys(topics)| == old(activeSubscribers) - |Keys(all)|
    {
      hide *;
      var todo := all.Keys;
      ValidParts();
      AreSwept(all, todo, now, was);
      NoTopicSwept(all, zombieTimeout, now, was);
      while todo != {}
        invariant Valid() && todo <= all.Keys
        invariant TopicsSwept(topics, all, todo, zombieTimeout, now, was) && MembersSwept(all, todo, now, was)
        invariant activeSubscribers - |Keys(topics)| == old(activeSubscribers) - |Keys(all)|
        decreases |todo|
      {
        var x :| x in todo;
        SweepStep(all, todo, x, now, was);
        todo := todo - {x};
      }
      AllTopicsSwept(topics, all, zombieTimeout, now, was);
      MembersSweptOf(all, {}, now, was);
    }

    /** Every idle member of every topic is closed and leaves, and no other; the gauge goes down by as many. */
    method CleanupZombies(now: int)
      requires Valid()
      modifies this`topics, this`activeSubscribers, Held()
      ensures Valid() && topics.Keys == old(topics).Keys
      ensures forall x, i :: x in old(topics) && i in old(topics)[x] ==>
                var was := old(topics[x][i].Now());
                old(topics)[x][i].Now() ==
                if now - was.lastSend > zombieTimeout
                then Contents(was.queue, was.dropped, was.lastSend, true, false) else was
      ensures forall x, i :: x in topics && i in topics[x] ==> i in old(topics)[x] && topics[x][i] == old(topics)[x][i]
      ensures forall x, i :: x in topics && i in old(topics)[x] ==>
                (i in topics[x] <==> now - old(topics[x][i].lastSend) <= zombieTimeout)
      ensures activeSubscribers - |Keys(topics)| == old(activeSubscribers) - |Keys(old(topics))|
    {
      ghost var was: map<string, map<string, Contents>> :=
        map x | x in topics :: map i | i in topics[x] :: topics[x][i].Now();
      assert forall x, i :: x in was && i in was[x] ==> was[x][i].open && !was[x][i].closed;
      SweptAll(was, zombieTimeout, now);
      hide Valid, MembersOf, Swept, IsIdle, IdleOf, Filed, HeldOnce, AllOpen, Keys;
      SweepAll(topics, was, now);
    }
  }
}
