/** A streaming client and the publishers that serve it, one running alone after the other. */
module RelayClient {
  import opened Relay
  import opened RelayInvariant
  import opened RelaySteps
  import opened RelayRuns
  import opened RelayEffects
  import opened RelayRules
  import opened RelayLifecycle
  import opened RelayOnce
  import opened RelayNames
  import opened RelayFresh
  import opened RelayAlone

  /** Thread `d` serves a streaming client whose member `r` the topic holds; the client has missed nothing. */
  ghost predicate Served(s: State, k: Key, r: nat, d: nat) {
    && s.status.Running? && k in s.hub.members && s.hub.members[k] == r && r < |s.subs|
    && d < |s.threads| && s.threads[d] == Drain(k.symbol, r) && Untouched(s.subs[r])
  }

  /** Such a client, in a relay that can go on: the members of its topic are open. */
  ghost predicate Client(s: State, k: Key, r: nat, d: nat) {
    Inv(s) && NamesInv(s) && TopicOpen(s, k.symbol) && Served(s, k, r, d)
  }

  /** The subscriber is open, was refused nothing and no send to its client failed. */
  ghost predicate Untouched(sub: Sub) {
    && !sub.flag && !sub.past.broken && sub.stream.Some? && sub.past.snapAt.Some?
    && forall i :: 0 <= i < |sub.past.offers| ==> sub.past.offers[i].accepted
  }

  lemma ClientRange(s: State, k: Key, r: nat, d: nat)
    requires Client(s, k, r, d)
    ensures r < |s.subs| && d < |s.threads| && s.threads[d] == Drain(k.symbol, r) && s.status.Running?
    ensures Inv(s) && NamesInv(s) && k in s.hub.members && s.hub.members[k] == r && TopicOpen(s, k.symbol)
    ensures !s.subs[r].flag && Untouched(s.subs[r])
  {
    hide Inv, NamesInv, TopicOpen;
  }

  lemma ClientOf(s: State, k: Key, r: nat, d: nat)
    requires Inv(s) && NamesInv(s) && s.status.Running? && k in s.hub.members && s.hub.members[k] == r && r < |s.subs|
    requires TopicOpen(s, k.symbol) && d < |s.threads| && s.threads[d] == Drain(k.symbol, r) && Untouched(s.subs[r])
    ensures Client(s, k, r, d)
  {
    hide Inv, NamesInv, TopicOpen, Untouched;
  }

  // ---------------------------------------------------------------- the client receives

  /** Between two states the client has received, and nothing else has happened. */
  ghost predicate Received(s: State, s': State, r: nat)
    requires r < |s.subs|
  {
    && |s'.subs| == |s.subs| && s' == s.(subs := s.subs[r := s'.subs[r]])
    && s'.subs[r] == s.subs[r].(queue := s'.subs[r].queue,
                                past := s.subs[r].past.(taken := s'.subs[r].past.taken, sent := s'.subs[r].past.sent))
  }

  lemma ReceivedClient(s: State, s': State, k: Key, r: nat, d: nat)
    requires Client(s, k, r, d) && r < |s.subs| && Received(s, s', r) && Inv(s') && NamesInv(s')
    ensures Client(s', k, r, d)
  {
    hide Inv, NamesInv;
  }

  lemma ReceiveOne(c: Config, s: State, k: Key, r: nat, d: nat) returns (es: seq<Event>, s': State)
    requires Client(s, k, r, d) && r < |s.subs| && s.subs[r].queue != []
    ensures Exec(c, s, es) == Some(s') && RunsOf(es, d) && Client(s', k, r, d) && Received(s, s', r)
    ensures r < |s'.subs| && s'.subs[r].queue == s.subs[r].queue[1..]
    ensures HasBook(s.feed, s.subs[r].queue[0]) ==>
              s.subs[r].queue[0] < |s.feed.updates| && s.feed.updates[s.subs[r].queue[0]].book.Some?
    ensures HasBook(s.feed, s.subs[r].queue[0]) ==>
              s'.subs[r].past.sent == s.subs[r].past.sent + [s.feed.updates[s.subs[r].queue[0]].book.value]
  {
    hide *;
    ClientRange(s, k, r, d);
    CanDrain(s, k.symbol, r, d);
    RunGoes(c, s, d, []);
    DrainRuns(c, s, k.symbol, r, d);
    s' := DoDrain(s, d, k.symbol, r, true);
    es := OneRun(c, s, d, [], s');
    DrainReceives(s, d, k.symbol, r);
    ReceivedClient(s, s', k, r, d);
  }

  lemma CanDrain(s: State, x: string, r: nat, d: nat)
    requires d < |s.threads| && s.threads[d] == Drain(x, r) && r < |s.subs| && s.subs[r].queue != []
    ensures Runnable(s, s.threads[d], [])
  {
  }

  lemma DrainReceives(s: State, d: nat, x: string, r: nat)
    requires d < |s.threads| && s.threads[d] == Drain(x, r) && r < |s.subs| && s.subs[r].queue != []
    requires s.subs[r].queue[0] < |s.feed.updates|
    ensures var s' := DoDrain(s, d, x, r, true);
            && Received(s, s', r) && s'.subs[r].queue == s.subs[r].queue[1..]
            && (HasBook(s.feed, s.subs[r].queue[0]) ==> s.feed.updates[s.subs[r].queue[0]].book.Some?)
            && (HasBook(s.feed, s.subs[r].queue[0]) ==>
                  s'.subs[r].past.sent == s.subs[r].past.sent + [s.feed.updates[s.subs[r].queue[0]].book.value])
  {
    assert s.threads[d := Drain(x, r)] == s.threads;
  }

  lemma DrainRuns(c: Config, s: State, x: string, r: nat, d: nat)
    requires WellFormed(s) && d < |s.threads| && s.threads[d] == Drain(x, r) && r < |s.subs|
    ensures s.subs[r].queue != [] ==> s.subs[r].queue[0] < |s.feed.updates|
    ensures RunThread(c, s, d, [], true) == DoDrain(s, d, x, r, true)
  {
    assert AllBelow(s.subs[r].queue, |s.feed.updates|);
    hide DoDrain;
  }

  lemma ReceivedTwice(s: State, s': State, s'': State, r: nat)
    requires r < |s.subs| && Received(s, s', r) && r < |s'.subs| && Received(s', s'', r)
    ensures Received(s, s'', r)
  {
  }

  lemma ReceivedNothing(c: Config, s: State, r: nat, d: nat)
    requires r < |s.subs|
    ensures Received(s, s, r) && Exec(c, s, []) == Some(s) && RunsOf([], d)
  {
  }

  /** The client receives all that is queued. */
  lemma ReceiveAll(c: Config, s: State, k: Key, r: nat, d: nat) returns (es: seq<Event>, s': State)
    requires Client(s, k, r, d) && r < |s.subs|
    ensures Exec(c, s, es) == Some(s') && RunsOf(es, d) && Client(s', k, r, d) && Received(s, s', r)
    ensures r < |s'.subs| && s'.subs[r].queue == []
    decreases |s.subs[r].queue|
  {
    hide *;
    if s.subs[r].queue == [] {
      es, s' := [], s;
      ReceivedNothing(c, s, r, d);
    } else {
      var fs, s1 := ReceiveOne(c, s, k, r, d);
      var gs;
      gs, s' := ReceiveAll(c, s1, k, r, d);
      es := fs + gs;
      ExecAppend(c, s, fs, gs);
      BothRunsOf(fs, gs, d);
      ReceivedTwice(s, s1, s', r);
    }
  }

  // ---------------------------------------------------------------- a publisher serves the client

  lemma SparedClient(s: State, s': State, k: Key, r: nat, d: nat, t: nat)
    requires Client(s, k, r, d) && r < |s.subs| && Spares(s, s', t, r, k.symbol) && t != d && Inv(s') && NamesInv(s')
    ensures Client(s', k, r, d)
  {
    OfMember(s, k);
    hide Inv, NamesInv, TopicOpen, Untouched;
  }

  lemma SendsToClient(c: Config, s: State, r: nat, t: nat, u: nat)
    requires t < |s.threads| && AtMember(s.threads[t], u, r) && InRange(|s.feed.updates|, |s.subs|, s.threads[t])
    requires r < |s.subs| && !s.subs[r].flag && !s.subs[r].closed && |s.subs[r].queue| < c.bufferSize
    ensures s.threads[t].Visit? ==> StateAfter(c, s, t) == Goto(s, t, Send(u, s.threads[t].rest))
    ensures s.threads[t].Send? ==>
              StateAfter(c, s, t) ==
              Put(s, r, AfterOffer(s.subs[r], u, true), t, Visit(u, s.threads[t].rest[1..]))
  {
  }

  lemma SendReady(s: State, t: nat, u: nat, x: string, s': State, r: nat)
    requires Ready(s, t, u, x) && AtMember(s.threads[t], u, r) && r < |s.subs| && !s.subs[r].closed
    requires Inv(s') && NamesInv(s') && s' == Goto(s, t, Send(u, s.threads[t].rest))
    ensures Ready(s', t, u, x)
  {
    hide Inv, NamesInv;
  }

  lemma SendToClient(c: Config, s: State, k: Key, r: nat, d: nat, t: nat, u: nat) returns (es: seq<Event>, s': State)
    requires Client(s, k, r, d) && Ready(s, t, u, k.symbol) && t < |s.threads| && AtMember(s.threads[t], u, r)
    requires s.threads[t].Send?
    requires r < |s.subs| && |s.subs[r].queue| < c.bufferSize
    ensures Exec(c, s, es) == Some(s') && RunsOf(es, t) && Inv(s') && NamesInv(s')
    ensures AtOffer(s.threads[t])
    ensures s' == Put(s, r, AfterOffer(s.subs[r], u, true), t, Visit(u, s.threads[t].rest[1..]))
  {
    assert AtOffer(s.threads[t]);
    hide *;
    ClientRange(s, k, r, d);
    OpenOrFlagged(s, r);
    ReadyRunnable(s, t, u, k.symbol);
    ReadyGoes(c, s, t, u, k.symbol);
    SendsToClient(c, s, r, t, u);
    s' := StateAfter(c, s, t);
    es := OneRun(c, s, t, [], s');
  }

  predicate AtOffer(pc: Thread) { (pc.Visit? || pc.Send?) && pc.rest != [] }

  lemma OfferToClient(c: Config, s: State, k: Key, r: nat, d: nat, t: nat, u: nat) returns (es: seq<Event>, s': State)
    requires Client(s, k, r, d) && Ready(s, t, u, k.symbol) && t < |s.threads| && AtMember(s.threads[t], u, r)
    requires r < |s.subs| && |s.subs[r].queue| < c.bufferSize
    ensures Exec(c, s, es) == Some(s') && RunsOf(es, t) && Inv(s') && NamesInv(s')
    ensures AtOffer(s.threads[t])
    ensures s' == Put(s, r, AfterOffer(s.subs[r], u, true), t, Visit(u, s.threads[t].rest[1..]))
  {
    if s.threads[t].Send? {
      es, s' := SendToClient(c, s, k, r, d, t, u);
    } else {
      assert AtOffer(s.threads[t]);
      hide *;
      ClientRange(s, k, r, d);
      OpenOrFlagged(s, r);
      ReadyRunnable(s, t, u, k.symbol);
      ReadyGoes(c, s, t, u, k.symbol);
      SendsToClient(c, s, r, t, u);
      var s1 := Goto(s, t, Send(u, s.threads[t].rest));
      SendReady(s, t, u, k.symbol, s1, r);
      SendClient(s, s1, k, r, d, t, u);
      var fs := OneRun(c, s, t, [], s1);
      var gs;
      gs, s' := SendToClient(c, s1, k, r, d, t, u);
      es := fs + gs;
      ExecAppend(c, s, fs, gs);
      BothRunsOf(fs, gs, t);
      PutLast(s, s1, r, t, u);
    }
  }

  lemma PutLast(s: State, s1: State, r: nat, t: nat, u: nat)
    requires t < |s.threads| && AtOffer(s.threads[t]) && s1 == Goto(s, t, Send(u, s.threads[t].rest)) && r < |s.subs|
    ensures var pc := Visit(u, s.threads[t].rest[1..]);
            Put(s1, r, AfterOffer(s1.subs[r], u, true), t, pc) == Put(s, r, AfterOffer(s.subs[r], u, true), t, pc)
  {
  }

  lemma SendClient(s: State, s1: State, k: Key, r: nat, d: nat, t: nat, u: nat)
    requires Client(s, k, r, d) && t < |s.threads| && AtOffer(s.threads[t])
    requires s1 == Goto(s, t, Send(u, s.threads[t].rest))
    requires Inv(s1) && NamesInv(s1) && AtMember(s.threads[t], u, r)
    ensures Client(s1, k, r, d) && AtMember(s1.threads[t], u, r)
  {
    hide Inv, NamesInv, Untouched;
  }

  /** After the offer the publisher has nothing left for the client. */
  lemma OfferedClient(s: State, s': State, k: Key, r: nat, d: nat, t: nat, u: nat)
    requires Client(s, k, r, d) && t < |s.threads| && AtOffer(s.threads[t]) && r < |s.subs| && Inv(s') && NamesInv(s')
    requires s' == Put(s, r, AfterOffer(s.subs[r], u, true), t, Visit(u, s.threads[t].rest[1..]))
    ensures Client(s', k, r, d)
  {
    hide Inv, NamesInv;
  }

  lemma OfferedReady(s: State, s': State, r: nat, t: nat, u: nat, x: string)
    requires Ready(s, t, u, x) && AtOffer(s.threads[t]) && r < |s.subs| && Inv(s') && NamesInv(s')
    requires s' == Put(s, r, AfterOffer(s.subs[r], u, true), t, Visit(u, s.threads[t].rest[1..]))
    ensures Ready(s', t, u, x)
  {
    hide Inv, NamesInv;
  }

  lemma OfferedClear(s: State, s': State, r: nat, t: nat, u: nat, x: string)
    requires NamesInv(s) && t < |s.threads| && AtMember(s.threads[t], u, r) && r < |s.subs|
    requires AtOffer(s.threads[t])
    requires s' == Put(s, r, AfterOffer(s.subs[r], u, true), t, Visit(u, s.threads[t].rest[1..]))
    ensures Clear(s', s'.threads[t], r, x) && r !in Pending(s'.threads[t])
  {
    assert NamesApart(s.feed, s.subs, s.threads[t]);
    hide NamesInv;
    var rest := s.threads[t].rest;
    assert forall i :: 0 <= i < |rest| - 1 ==> rest[1..][i] == rest[i + 1];
  }

  /** What a publisher does to the client: one more update in its channel; the rest of the state that matters stays. */
  ghost predicate Handed(s: State, s': State, k: Key, r: nat, d: nat, t: nat, u: nat)
    requires r < |s.subs|
  {
    && Client(s', k, r, d) && s'.feed == s.feed && s'.hub.topics == s.hub.topics
    && |s'.threads| == |s.threads| && t < |s.threads| && s'.threads[t] == Done
    && (forall i :: 0 <= i < |s.threads| && i != t ==> s'.threads[i] == s.threads[i])
    && s'.subs[r] == AfterOffer(s.subs[r], u, true)
  }

  /** A publisher whose next member is the client hands it the update and ends. */
  lemma Deliver(c: Config, s: State, k: Key, r: nat, d: nat, t: nat, u: nat) returns (es: seq<Event>, s': State)
    requires Client(s, k, r, d) && Ready(s, t, u, k.symbol) && t < |s.threads| && AtMember(s.threads[t], u, r)
    requires r < |s.subs| && |s.subs[r].queue| < c.bufferSize
    ensures Exec(c, s, es) == Some(s') && RunsOf(es, t) && Handed(s, s', k, r, d, t, u)
  {
    hide *;
    var fs, s1 := OfferToClient(c, s, k, r, d, t, u);
    ClientRange(s, k, r, d);
    OfferedClient(s, s1, k, r, d, t, u);
    OfferedReady(s, s1, r, t, u, k.symbol);
    OfferedClear(s, s1, r, t, u, k.symbol);
    ClientRange(s1, k, r, d);
    var gs;
    gs, s' := Finish(c, s1, t, u, k.symbol, r);
    es := fs + gs;
    ExecAppend(c, s, fs, gs);
    BothRunsOf(fs, gs, t);
    HandedBy(s, s1, s', k, r, d, t, u);
  }

  lemma HandedBy(s: State, s1: State, s': State, k: Key, r: nat, d: nat, t: nat, u: nat)
    requires t < |s.threads| && AtOffer(s.threads[t]) && r < |s.subs|
    requires s1 == Put(s, r, AfterOffer(s.subs[r], u, true), t, Visit(u, s.threads[t].rest[1..]))
    requires Client(s1, k, r, d) && r < |s1.subs| && Spares(s1, s', t, r, k.symbol) && Inv(s') && NamesInv(s')
    requires t < |s'.threads| && s'.threads[t] == Done
    ensures Handed(s, s', k, r, d, t, u)
  {
    hide *;
    ClientRange(s1, k, r, d);
    NotDraining(s, s1, r, k.symbol, d, t, u);
    SparedClient(s1, s', k, r, d, t);
    HandedParts(s, s1, s', k, r, d, t, u);
  }

  lemma NotDraining(s: State, s1: State, r: nat, x: string, d: nat, t: nat, u: nat)
    requires t < |s.threads| && AtOffer(s.threads[t]) && r < |s.subs|
    requires s1 == Put(s, r, AfterOffer(s.subs[r], u, true), t, Visit(u, s.threads[t].rest[1..]))
    requires d < |s1.threads| && s1.threads[d] == Drain(x, r)
    ensures t != d
  {
  }

  lemma HandedParts(s: State, s1: State, s': State, k: Key, r: nat, d: nat, t: nat, u: nat)
    requires t < |s.threads| && AtOffer(s.threads[t]) && r < |s.subs|
    requires s1 == Put(s, r, AfterOffer(s.subs[r], u, true), t, Visit(u, s.threads[t].rest[1..]))
    requires Client(s', k, r, d) && r < |s1.subs| && Spares(s1, s', t, r, k.symbol)
    requires t < |s'.threads| && s'.threads[t] == Done
    ensures Handed(s, s', k, r, d, t, u)
  {
    hide Client, TopicOpen;
  }

  // ---------------------------------------------------------------- a whole publish

  /** Every event is a step of a thread. */
  predicate OnlyRuns(es: seq<Event>) { forall i :: 0 <= i < |es| ==> es[i].Run? }

  lemma RunsOnly(es: seq<Event>, t: nat)
    requires RunsOf(es, t)
    ensures OnlyRuns(es)
  {
  }

  lemma OnlyBoth(es: seq<Event>, fs: seq<Event>)
    requires OnlyRuns(es) && OnlyRuns(fs)
    ensures OnlyRuns(es + fs)
  {
  }

  /** Two runs, one after the other. */
  lemma Joined2(c: Config, s: State, es: seq<Event>, s1: State, fs: seq<Event>, s': State)
    requires Exec(c, s, es) == Some(s1) && Exec(c, s1, fs) == Some(s') && OnlyRuns(es) && OnlyRuns(fs)
    ensures Exec(c, s, es + fs) == Some(s') && OnlyRuns(es + fs)
  {
    hide *;
    ExecAppend(c, s, es, fs);
    OnlyBoth(es, fs);
  }

  /** A publisher that has yet to offer its update to the client comes to it. */
  lemma Approach(c: Config, s: State, k: Key, r: nat, d: nat, t: nat, u: nat) returns (es: seq<Event>, s': State)
    requires Client(s, k, r, d) && Ready(s, t, u, k.symbol) && t < |s.threads| && r in Pending(s.threads[t])
    requires r < |s.subs|
    ensures Exec(c, s, es) == Some(s') && OnlyRuns(es) && Client(s', k, r, d) && Ready(s', t, u, k.symbol)
    ensures Spares(s, s', t, r, k.symbol) && t < |s'.threads| && AtMember(s'.threads[t], u, r)
  {
    ReadyNames(s, t, u, k.symbol);
    PendingClear(s, t, u, r, k.symbol);
    if AtMember(s.threads[t], u, r) {
      es, s' := [], s;
      ExecNothing(c, s);
      SparesNothing(s, t, r, k.symbol);
    } else {
      ReadyNotDrain(s, t, u, k.symbol);
      hide *;
      es, s' := Advance(c, s, t, u, k.symbol, r);
      RunsOnly(es, t);
      ClientRange(s, k, r, d);
      ReadyNames(s', t, u, k.symbol);
      SparedClient(s, s', k, r, d, t);
      AtClientOf(s'.threads[t], u, r);
    }
  }

  lemma AtClientOf(pc: Thread, u: nat, r: nat)
    requires pc.Visit? && pc.update == u && pc.rest != [] && pc.rest[0] == r
    ensures AtMember(pc, u, r)
  {
  }

  lemma ReadyNotDrain(s: State, t: nat, u: nat, x: string)
    requires Ready(s, t, u, x)
    ensures t < |s.threads| && !s.threads[t].Drain?
  {
    hide Inv, NamesInv, TopicOpen, OthersUnlocked, Doomed;
  }

  /** Thread `t` has published: the client was sent the book of update `u`, and what it relies on stays. */
  ghost predicate Shown(s: State, s': State, k: Key, r: nat, d: nat, t: nat, u: nat)
    requires r < |s.subs| && HasBook(s.feed, u)
  {
    && Client(s', k, r, d) && s'.subs[r].queue == [] &&
      s'.subs[r].past.sent == s.subs[r].past.sent + [s.feed.updates[u].book.value]
    && s'.feed.updates == s.feed.updates && s'.feed.cache == s.feed.cache
    && |s'.threads| == |s.threads| && t < |s.threads| && s'.threads[t] == Done
    && (forall i :: 0 <= i < |s.threads| && i != t ==> s'.threads[i] == s.threads[i])
  }

  /** A publisher at the client hands it the update, and the client receives it. */
  lemma Show(c: Config, s: State, k: Key, r: nat, d: nat, t: nat, u: nat) returns (es: seq<Event>, s': State)
    requires Client(s, k, r, d) && r < |s.subs| && s.subs[r].queue == [] && c.bufferSize > 0 && HasBook(s.feed, u)
    requires Ready(s, t, u, k.symbol) && t < |s.threads| && AtMember(s.threads[t], u, r)
    ensures Exec(c, s, es) == Some(s') && OnlyRuns(es) && Shown(s, s', k, r, d, t, u)
  {
    hide *;
    var fs, s1 := Deliver(c, s, k, r, d, t, u);
    HandedQueue(s, s1, k, r, d, t, u);
    var gs;
    gs, s' := ReceiveOne(c, s1, k, r, d);
    es := fs + gs;
    RunsOnly(fs, t);
    RunsOnly(gs, d);
    Joined2(c, s, fs, s1, gs, s');
    ShownBy(s, s1, s', k, r, d, t, u);
  }

  lemma HandedQueue(s: State, s': State, k: Key, r: nat, d: nat, t: nat, u: nat)
    requires r < |s.subs| && s.subs[r].queue == [] && Handed(s, s', k, r, d, t, u)
    ensures Client(s', k, r, d) && r < |s'.subs| && s'.subs[r].queue == [u] && s'.feed == s.feed
    ensures s'.subs[r].past.sent == s.subs[r].past.sent
  {
    ClientRange(s', k, r, d);
    hide Client;
    assert [] + [u] == [u];
  }

  lemma ShownBy(s: State, s1: State, s': State, k: Key, r: nat, d: nat, t: nat, u: nat)
    requires r < |s.subs| && HasBook(s.feed, u) && Handed(s, s1, k, r, d, t, u)
    requires r < |s1.subs| && s1.subs[r].past.sent == s.subs[r].past.sent
    requires Received(s1, s', r) && Client(s', k, r, d) && r < |s'.subs| && s'.subs[r].queue == []
    requires s'.subs[r].past.sent == s1.subs[r].past.sent + [s.feed.updates[u].book.value]
    ensures Shown(s, s', k, r, d, t, u)
  {
    hide Client;
  }

  /** A publisher that has written its book copies the members, hands the client the update and ends. */
  lemma Publish(c: Config, s: State, k: Key, r: nat, d: nat, t: nat, u: nat) returns (es: seq<Event>, s': State)
    requires Client(s, k, r, d) && r < |s.subs| && s.subs[r].queue == [] && c.bufferSize > 0 && HasBook(s.feed, u)
    requires t < |s.threads| && Copying(s, t, u, k.symbol)
    ensures Exec(c, s, es) == Some(s') && OnlyRuns(es) && Shown(s, s', k, r, d, t, u)
  {
    hide *;
    ClientRange(s, k, r, d);
    CopyingNotDrain(s, t, u, k.symbol);
    var fs, s1, order := CopyMembers(c, s, t, u, k.symbol);
    CopiedClient(s, s1, k, r, d, t, u, order);
    var gs, s2 := Approach(c, s1, k, r, d, t, u);
    ApproachedSame(s1, s2, t, r, k.symbol);
    var hs;
    hs, s' := Show(c, s2, k, r, d, t, u);
    RunsOnly(fs, t);
    Joined2(c, s, fs, s1, gs, s2);
    Joined2(c, s, fs + gs, s2, hs, s');
    es := (fs + gs) + hs;
    PublishedShows(s, s1, s2, s', k, r, d, t, u, order);
  }

  lemma CopyingNotDrain(s: State, t: nat, u: nat, x: string)
    requires Copying(s, t, u, x)
    ensures t < |s.threads| && !s.threads[t].Drain?
  {
    hide Inv, NamesInv, TopicOpen, OthersUnlocked;
  }

  lemma CopiedClient(s: State, s': State, k: Key, r: nat, d: nat, t: nat, u: nat, order: seq<nat>)
    requires Client(s, k, r, d) && t < |s.threads| && !s.threads[t].Drain?
    requires ListsMembers(s.hub.members, k.symbol, order)
    requires s' == Goto(s.(feed := s.feed.(copied := s.feed.copied + {u})), t, Visit(u, order))
    requires Ready(s', t, u, k.symbol)
    ensures Client(s', k, r, d) && r < |s'.subs| && t < |s'.threads| && r in Pending(s'.threads[t])
    ensures s'.subs == s.subs && (HasBook(s.feed, u) ==> HasBook(s'.feed, u))
  {
    hide *;
    ClientRange(s, k, r, d);
    ReadyNames(s', t, u, k.symbol);
    CopiedClear(s, k, r, u, order);
    CopiedSame(s, t, u, order, d, k.symbol);
    VisitPends(u, order);
    ClientOf(s', k, r, d);
  }

  lemma VisitPends(u: nat, order: seq<nat>)
    ensures Pending(Visit(u, order)) == order
  {
  }

  lemma CopiedSame(s: State, t: nat, u: nat, order: seq<nat>, d: nat, x: string)
    requires t < |s.threads| && d < |s.threads| && s.threads[d].Drain? && !s.threads[t].Drain? && TopicOpen(s, x)
    ensures var s' := Goto(s.(feed := s.feed.(copied := s.feed.copied + {u})), t, Visit(u, order));
            && s'.hub == s.hub && s'.subs == s.subs && s'.status == s.status && |s'.threads| == |s.threads|
            && s'.threads[d] == s.threads[d] && s'.threads[t] == Visit(u, order) && TopicOpen(s', x)
            && (HasBook(s.feed, u) ==> HasBook(s'.feed, u))
  {
  }

  lemma ApproachedSame(s: State, s': State, t: nat, r: nat, x: string)
    requires r < |s.subs| && Spares(s, s', t, r, x)
    ensures r < |s'.subs| && s'.subs[r] == s.subs[r] && s'.feed == s.feed
  {
    hide TopicOpen;
  }

  lemma PublishedShows(s: State, s1: State, s2: State, s': State, k: Key, r: nat, d: nat, t: nat, u: nat,
                       order: seq<nat>)
    requires r < |s.subs| && HasBook(s.feed, u) && t < |s.threads|
    requires s1 == Goto(s.(feed := s.feed.(copied := s.feed.copied + {u})), t, Visit(u, order))
    requires r < |s1.subs| && Spares(s1, s2, t, r, k.symbol) && r < |s2.subs| && HasBook(s2.feed, u)
    requires Shown(s2, s', k, r, d, t, u)
    ensures Shown(s, s', k, r, d, t, u)
  {
    hide Client, TopicOpen;
  }

  // ---------------------------------------------------------------- a write

  lemma WriteBook(c: Config, s: State, k: Key, r: nat, d: nat, t: nat, u: nat) returns (es: seq<Event>, s': State)
    requires Client(s, k, r, d) && t < |s.threads| && s.threads[t] == Write(u) && HasBook(s.feed, u)
    requires s.feed.updates[u].symbol == k.symbol
    requires OthersUnlocked(s, t, k.symbol)
    ensures Exec(c, s, es) == Some(s') && OnlyRuns(es) && Client(s', k, r, d) && Copying(s', t, u, k.symbol)
    ensures s' == Wrote(c, s, t, u)
  {
    assert u < |s.feed.updates| && s.feed.updates[u].book.Some?;
    WriteSteps(c, s, t, u);
    ClientRange(s, k, r, d);
    hide *;
    RunGoes(c, s, t, []);
    s' := Wrote(c, s, t, u);
    es := OneRun(c, s, t, [], s');
    RunsOnly(es, t);
    WroteClient(c, s, k, r, d, t, u);
  }

  /** The relay after thread `t` has written its book to the cache. */
  ghost function Wrote(c: Config, s: State, t: nat, u: nat): State
    requires t < |s.threads| && HasBook(s.feed, u)
  {
    var b := Trim(s.feed.updates[u].book.value, c.maxDepth);
    Goto(s.(feed := Feed(s.feed.updates[u := s.feed.updates[u].(book := Some(b))], s.feed.cache[b.symbol := u],
                         s.feed.writes + [u], s.feed.copied)), t, Lookup(u))
  }

  lemma WriteSteps(c: Config, s: State, t: nat, u: nat)
    requires t < |s.threads| && s.threads[t] == Write(u) && HasBook(s.feed, u)
    ensures Runnable(s, s.threads[t], [])
    ensures WellFormed(s) ==> RunThread(c, s, t, [], true) == Wrote(c, s, t, u)
  {
    hide WellFormed;
  }

  lemma WroteClient(c: Config, s: State, k: Key, r: nat, d: nat, t: nat, u: nat)
    requires Client(s, k, r, d) && t < |s.threads| && s.threads[t] == Write(u) && HasBook(s.feed, u)
    requires s.feed.updates[u].symbol == k.symbol
    requires OthersUnlocked(s, t, k.symbol) && Inv(Wrote(c, s, t, u)) && NamesInv(Wrote(c, s, t, u))
    ensures Client(Wrote(c, s, t, u), k, r, d) && Copying(Wrote(c, s, t, u), t, u, k.symbol)
  {
    hide *;
    ClientRange(s, k, r, d);
    OfMember(s, k);
    WroteOpen(c, s, t, u, k.symbol);
    WroteSame(c, s, t, u, k, r, d);
    ClientOf(Wrote(c, s, t, u), k, r, d);
    CopyingOf(Wrote(c, s, t, u), t, u, k.symbol);
  }

  lemma WroteOpen(c: Config, s: State, t: nat, u: nat, x: string)
    requires t < |s.threads| && HasBook(s.feed, u) && TopicOpen(s, x) && OthersUnlocked(s, t, x)
    ensures TopicOpen(Wrote(c, s, t, u), x) && OthersUnlocked(Wrote(c, s, t, u), t, x)
  {
  }

  lemma WroteSame(c: Config, s: State, t: nat, u: nat, k: Key, r: nat, d: nat)
    requires t < |s.threads| && s.threads[t] == Write(u) && HasBook(s.feed, u) && d < |s.threads|
    requires s.threads[d] == Drain(k.symbol, r)
    ensures var s' := Wrote(c, s, t, u);
            && s'.hub == s.hub && s'.subs == s.subs && s'.status == s.status && |s'.threads| == |s.threads|
            && s'.threads[d] == s.threads[d] && s'.threads[t] == Lookup(u)
            && u < |s'.feed.updates| && s'.feed.updates[u].symbol == s.feed.updates[u].symbol
  {
  }

  lemma CopyingOf(s: State, t: nat, u: nat, x: string)
    requires Inv(s) && NamesInv(s) && s.status.Running? && t < |s.threads|
    requires (s.threads[t] == Lookup(u) || s.threads[t] == Copy(u))
    requires u < |s.feed.updates| && s.feed.updates[u].symbol == x && x in s.hub.topics
    requires TopicOpen(s, x) && OthersUnlocked(s, t, x)
    ensures Copying(s, t, u, x)
  {
    hide Inv, NamesInv, TopicOpen, OthersUnlocked;
  }
}
