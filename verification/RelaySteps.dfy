/** Each step of the relay keeps the invariant. */
module RelaySteps {
  import opened Relay
  import opened RelayInvariant

  /** Thread `t` moves to `pc`; the hub's counters may change with it. */
  function MoveTo(s: State, hub: Hub, t: nat, pc: Thread): State
    requires t < |s.threads|
  {
    s.(hub := hub, threads := s.threads[t := pc])
  }

  /** The counters change by what the thread has counted or still has to count. */
  ghost predicate CountersFollow(s: State, hub: Hub, before: Thread, after: Thread, dropped: int) {
    && hub.dropped + One(after.Tally?) == s.hub.dropped + One(before.Tally?) + dropped
    && hub.active - |hub.members| - hub.overwrites + One(after.Enroll?)
       == s.hub.active - |s.hub.members| - s.hub.overwrites + One(before.Enroll?)
  }

  lemma CountsFollow(s: State, hub: Hub, t: nat, pc: Thread, subs: seq<Sub>)
    requires t < |s.threads| && CountsOk(s)
    requires CountersFollow(s, hub, s.threads[t], pc, TotalDropped(subs) - TotalDropped(s.subs))
    ensures CountsOk(s.(hub := hub, subs := subs, threads := s.threads[t := pc]))
  {
    CountMoved(s.threads, t, pc, Tallying);
    CountMoved(s.threads, t, pc, Enrolling);
  }

  lemma LocksStillOk(threads: seq<Thread>, t: nat, pc: Thread)
    requires LocksOk(threads) && t < |threads|
    requires pc.Close? ==> Unlocked(threads, pc.key.symbol)
    ensures LocksOk(threads[t := pc])
  {
  }

  lemma MoveKeepsInv(s: State, hub: Hub, t: nat, pc: Thread)
    requires Inv(s) && t < |s.threads|
    requires ThreadCore(s, t, pc) && TopicExists(hub.topics, pc) && !pc.Close?
    requires hub.members == s.hub.members && s.hub.topics <= hub.topics && CountersFollow(s, hub, s.threads[t], pc, 0)
    requires BeforeCopy(s.threads[t]) ==> BeforeCopy(pc) && pc.update == s.threads[t].update
    requires !s.threads[t].Drop? && !pc.Drop?
    requires forall q :: q in Pending(s.threads[t]) && q < |s.subs| ==>
               s.subs[q].flag || (q in Pending(pc) && Current(pc) == Current(s.threads[t]))
    ensures Inv(MoveTo(s, hub, t, pc))
  {
    hide Inv, CountsOk, LocksOk, FeedOk, MemberOk, CountersFollow;
    var s' := MoveTo(s, hub, t, pc);
    OfAll(s);
    CountsFollow(s, hub, t, pc, s.subs);
    LocksStillOk(s.threads, t, pc);
    MovesKeepInv(s, s', t, |s.subs|);
  }

  /** Thread `t` moves to `pc` and replaces subscriber `r`; the hub may change with it. */
  function PutTo(s: State, hub: Hub, r: nat, sub: Sub, t: nat, pc: Thread): State
    requires t < |s.threads| && r < |s.subs|
  {
    s.(hub := hub, subs := s.subs[r := sub], threads := s.threads[t := pc])
  }

  ghost predicate LockedMembersStay(s: State, hub: Hub, t: nat) {
    forall i :: 0 <= i < |s.threads| && i != t && s.threads[i].Close? && s.threads[i].key in s.hub.members ==>
      s.threads[i].key in hub.members && hub.members[s.threads[i].key] == s.hub.members[s.threads[i].key]
  }

  /** What a thread that replaces a subscriber has to see to: its own next step, */
  ghost predicate PutThreadOk(s: State, hub: Hub, r: nat, sub: Sub, t: nat, pc: Thread)
    requires t < |s.threads| && r < |s.subs|
  {
    && ThreadOk(PutTo(s, hub, r, sub, t, pc), t, pc)
    && (pc.Close? ==> Unlocked(s.threads, pc.key.symbol))
    && (forall q :: q != r ==> (Is(s.threads[t], Dropping(q)) <==> Is(pc, Dropping(q))))
    && !BeforeCopy(s.threads[t])
    && Hands(s, PutTo(s, hub, r, sub, t, pc), t)
  }

  /** the subscriber's history, */
  ghost predicate PutSubOk(s: State, r: nat, sub: Sub, t: nat, pc: Thread)
    requires t < |s.threads| && r < |s.subs|
  {
    && SubOk(s.feed, sub) && SameSub(s.subs[r], sub, Current(s.threads[t])) && s.subs[r].past.before <= sub.past.before
    && Rejected(sub.past.offers) + s.subs[r].dropped + One(Is(s.threads[t], Dropping(r)))
       == Rejected(s.subs[r].past.offers) + sub.dropped + One(Is(pc, Dropping(r)))
    && (sub.past.snapAt != s.subs[r].past.snapAt ==> s.subs[r].stream == Some(t))
    && (sub.past.joins != s.subs[r].past.joins ==> s.subs[r].stream.None? || s.subs[r].stream == Some(t))
  }

  /** and the hub. */
  ghost predicate PutHubOk(s: State, hub: Hub, r: nat, sub: Sub, t: nat, pc: Thread)
    requires t < |s.threads| && r < |s.subs|
  {
    && s.hub.topics <= hub.topics && CountersFollow(s, hub, s.threads[t], pc, sub.dropped - s.subs[r].dropped)
    && LockedMembersStay(s, hub, t) && MembersKept(s, PutTo(s, hub, r, sub, t, pc))
  }

  lemma PutKeepsInv(s: State, hub: Hub, r: nat, sub: Sub, t: nat, pc: Thread)
    requires Inv(s) && t < |s.threads| && r < |s.subs|
    requires PutThreadOk(s, hub, r, sub, t, pc) && PutSubOk(s, r, sub, t, pc) && PutHubOk(s, hub, r, sub, t, pc)
    ensures Inv(PutTo(s, hub, r, sub, t, pc))
  {
    hide Inv, ThreadOk, SubOk, MembersKept, Hands, CountsOk, LocksOk;
    var s' := PutTo(s, hub, r, sub, t, pc);
    OfAll(s);
    OfSub(s, r);
    TotalDroppedUpdate(s.subs, r, sub);
    CountsFollow(s, hub, t, pc, s'.subs);
    LocksStillOk(s.threads, t, pc);
    CountMoved(s.threads, t, pc, Dropping(r));
    MovesKeepInv(s, s', t, r);
  }

  /** A thread that replaces a subscriber but leaves the hub and the offers alone. */
  lemma PutSubKeepsInv(s: State, hub: Hub, r: nat, sub: Sub, t: nat, pc: Thread)
    requires Inv(s) && t < |s.threads| && r < |s.subs|
    requires ThreadOk(PutTo(s, hub, r, sub, t, pc), t, pc)
    requires pc.Close? ==> Unlocked(s.threads, pc.key.symbol)
    requires SubOk(s.feed, sub) && sub.past.offers == s.subs[r].past.offers && s.subs[r].past.before <= sub.past.before
    requires sub.id == s.subs[r].id && sub.stream == s.subs[r].stream && (s.subs[r].flag ==> sub.flag)
    requires s.subs[r].dropped + One(Is(s.threads[t], Dropping(r))) == sub.dropped + One(Is(pc, Dropping(r)))
    requires forall q :: q != r ==> (Is(s.threads[t], Dropping(q)) <==> Is(pc, Dropping(q)))
    requires sub.past.snapAt != s.subs[r].past.snapAt ==> s.subs[r].stream == Some(t)
    requires sub.past.joins == s.subs[r].past.joins
    requires hub.members == s.hub.members && s.hub.topics <= hub.topics
    requires CountersFollow(s, hub, s.threads[t], pc, sub.dropped - s.subs[r].dropped)
    requires !BeforeCopy(s.threads[t])
    requires Pending(pc) == Pending(s.threads[t]) && Current(pc) == Current(s.threads[t])
    ensures Inv(PutTo(s, hub, r, sub, t, pc))
  {
    hide Inv, ThreadOk, SubOk, CountersFollow;
    PutKeepsInv(s, hub, r, sub, t, pc);
  }

  // ---------------------------------------------------------------- Publish

  /** What a publisher that has copied the members relies on, for the next of them. */
  lemma VisitorOk(s: State, t: nat, u: nat, rest: seq<nat>, pc: Thread)
    requires ThreadOk(s, t, Visit(u, rest))
    requires pc == Done || pc == Send(u, rest) || (rest != [] && pc == Visit(u, rest[1..]))
    requires pc.Send? ==> rest != []
    ensures ThreadCore(s, t, pc) && TopicExists(s.hub.topics, pc) && (rest != [] ==> rest[0] < |s.subs|)
  {
    if pc.Visit? {
      assert forall i :: 0 <= i < |pc.rest| ==> pc.rest[i] == rest[i + 1];
    }
    hide Offered;
  }

  lemma VisitKeepsInv(s: State, t: nat, u: nat, rest: seq<nat>)
    requires Inv(s) && t < |s.threads| && s.threads[t] == Visit(u, rest)
    ensures ThreadOk(s, t, s.threads[t]) && Inv(DoVisit(s, t, u, rest))
  {
    hide Inv, ThreadOk, ThreadCore;
    OfThread(s, t);
    if rest == [] {
      VisitorOk(s, t, u, rest, Done);
      MoveKeepsInv(s, s.hub, t, Done);
    } else {
      VisitorOk(s, t, u, rest, Send(u, rest));
      VisitorOk(s, t, u, rest, Visit(u, rest[1..]));
      if s.subs[rest[0]].flag {
        assert rest == [rest[0]] + rest[1..];
        MoveKeepsInv(s, s.hub, t, Visit(u, rest[1..]));
      } else {
        MoveKeepsInv(s, s.hub, t, Send(u, rest));
      }
    }
  }

  /** A publisher that goes on with the same members still to come. */
  lemma SameWorkOk(s: State, t: nat, pc: Thread, pc': Thread)
    requires ThreadOk(s, t, pc) && Current(pc) == Current(pc') && Pending(pc) == Pending(pc') && !BeforeCopy(pc)
    requires !BeforeCopy(pc')
    requires pc'.Visit? || pc'.Check? || (pc'.Leave? && pc'.next.Resume?)
    requires pc.Tally? || pc.Check?
    requires pc'.Check? ==> pc'.rest == pc.rest
    ensures ThreadCore(s, t, pc') && TopicExists(s.hub.topics, pc')
  {
    assert forall i :: 0 <= i < |Pending(pc)| ==> Pending(pc)[i] == pc.rest[i + 1];
    hide Offered;
  }

  lemma TallyKeepsInv(s: State, t: nat, u: nat, rest: seq<nat>)
    requires Inv(s) && t < |s.threads| && s.threads[t] == Tally(u, rest)
    ensures ThreadOk(s, t, s.threads[t]) && Inv(DoTally(s, t, u, rest))
  {
    hide Inv, ThreadOk, ThreadCore;
    OfThread(s, t);
    SameWorkOk(s, t, Tally(u, rest), Check(u, rest));
    MoveKeepsInv(s, s.hub.(dropped := s.hub.dropped + 1), t, Check(u, rest));
  }

  lemma CheckKeepsInv(c: Config, s: State, t: nat, u: nat, rest: seq<nat>)
    requires Inv(s) && t < |s.threads| && s.threads[t] == Check(u, rest)
    ensures ThreadOk(s, t, s.threads[t]) && Inv(DoCheck(c, s, t, u, rest))
  {
    hide Inv, ThreadCore;
    OfThread(s, t);
    InRangeOf(s, t, Check(u, rest));
    hide ThreadOk;
    SameWorkOk(s, t, Check(u, rest), DoCheck(c, s, t, u, rest).threads[t]);
    MoveKeepsInv(s, s.hub, t, DoCheck(c, s, t, u, rest).threads[t]);
  }

  lemma InRangeOf(s: State, t: nat, pc: Thread)
    requires ThreadOk(s, t, pc) && pc.Check?
    ensures pc.rest != [] && pc.rest[0] < |s.subs| && pc.update < |s.feed.updates|
  {
    hide FeedThreadOk, PublisherOk, CloserOk, StreamerOk;
  }

  lemma DropKeepsInv(s: State, t: nat, u: nat, rest: seq<nat>)
    requires Inv(s) && t < |s.threads| && s.threads[t] == Drop(u, rest)
    ensures ThreadOk(s, t, s.threads[t]) && Inv(DoDrop(s, t, u, rest))
  {
    hide Inv;
    OfThread(s, t);
    OfSub(s, rest[0]);
    var sub := s.subs[rest[0]].(dropped := s.subs[rest[0]].dropped + 1);
    SameHistory(s.feed, s.subs, rest[0], sub, Drop(u, rest));
    PublisherSame(s.subs[rest[0] := sub], Drop(u, rest), Tally(u, rest));
    hide SubOk, PublisherOk;
    PutSubKeepsInv(s, s.hub, rest[0], sub, t, Tally(u, rest));
  }

  /** Changing a subscriber's counter or setting its flag leaves its history alone. */
  lemma SameHistory(f: Feed, subs: seq<Sub>, r: nat, sub: Sub, pc: Thread)
    requires r < |subs| && sub.past == subs[r].past && sub.queue == subs[r].queue && sub.stream == subs[r].stream
    requires (sub.closed ==> sub.flag) && SubOk(f, subs[r])
    ensures SubOk(f, sub)
    ensures PublisherOk(subs, pc) ==> PublisherOk(subs[r := sub], pc)
  {
  }

  lemma PublisherSame(subs: seq<Sub>, pc: Thread, pc': Thread)
    requires PublisherOk(subs, pc) && Pending(pc') == Pending(pc) && Current(pc') == Current(pc)
    ensures PublisherOk(subs, pc')
  {
  }

  /** Offering a new update to a subscriber: accepted at the end of the queue, or only recorded. */
  function AfterOffer(sub: Sub, u: nat, ok: bool): Sub {
    sub.(queue := if ok then sub.queue + [u] else sub.queue, past :=
         sub.past.(offers := sub.past.offers + [Offer(u, ok)]))
  }

  lemma OfferKeepsSubOk(f: Feed, sub: Sub, u: nat, ok: bool)
    requires SubOk(f, sub) && u in f.copied && u < |f.updates| && !Offered(sub, u)
    ensures SubOk(f, AfterOffer(sub, u, ok)) && SameSub(sub, AfterOffer(sub, u, ok), Some(u))
    ensures Offered(AfterOffer(sub, u, ok), u)
    ensures Rejected(AfterOffer(sub, u, ok).past.offers) == Rejected(sub.past.offers) + One(!ok)
    ensures AfterOffer(sub, u, ok).dropped == sub.dropped && AfterOffer(sub, u, ok).past.before == sub.past.before
    ensures AfterOffer(sub, u, ok).past.snapAt == sub.past.snapAt && AfterOffer(sub, u, ok).past.joins == sub.past.joins
  {
    hide Accepted, Rejected, Books;
    var sub' := AfterOffer(sub, u, ok);
    OfferMade(sub.past.offers, Offer(u, ok));
    if ok {
      assert sub.past.taken + (sub.queue + [u]) == (sub.past.taken + sub.queue) + [u];
    }
    assert sub'.past.offers[|sub.past.offers|].update == u;
  }

  /** The members that are still to come do not change by an offer to the first of them. */
  lemma RestStillPending(s: State, s': State, u: nat, rest: seq<nat>, pc: Thread)
    requires PublisherOk(s.subs, Send(u, rest)) && rest != []
    requires Pending(pc) == rest[1..] && Current(pc) == Some(u)
    requires |s'.subs| == |s.subs| && forall q :: 0 <= q < |s.subs| && q != rest[0] ==> s'.subs[q] == s.subs[q]
    ensures PublisherOk(s'.subs, pc)
  {
    assert Pending(Send(u, rest)) == rest;
    assert forall i :: 0 <= i < |rest| - 1 ==> rest[1..][i] == rest[i + 1];
  }

  lemma SendHands(s: State, s': State, t: nat, u: nat, rest: seq<nat>, pc: Thread)
    requires t < |s.threads| && s.threads[t] == Send(u, rest) && rest != [] && rest[0] < |s'.subs|
    requires s'.threads == s.threads[t := pc] && Pending(pc) == rest[1..] && Current(pc) == Some(u)
    requires Offered(s'.subs[rest[0]], u)
    ensures Hands(s, s', t)
  {
    assert Pending(s.threads[t]) == rest && rest == [rest[0]] + rest[1..];
  }

  lemma OfferThreadOk(s: State, t: nat, u: nat, rest: seq<nat>, ok: bool, pc: Thread)
    requires Inv(s) && t < |s.threads| && s.threads[t] == Send(u, rest) && rest != [] && rest[0] < |s.subs|
    requires pc == if ok then Visit(u, rest[1..]) else Drop(u, rest)
    ensures PutThreadOk(s, s.hub, rest[0], AfterOffer(s.subs[rest[0]], u, ok), t, pc)
  {
    hide Inv, Offered;
    var s' := PutTo(s, s.hub, rest[0], AfterOffer(s.subs[rest[0]], u, ok), t, pc);
    OfThread(s, t);
    OfferIsOffered(s.subs[rest[0]], u, ok);
    RestStillPending(s, s', u, rest, pc);
    hide PublisherOk;
    SendHands(s, s', t, u, rest, pc);
    hide Hands;
  }

  lemma OfferIsOffered(sub: Sub, u: nat, ok: bool)
    ensures Offered(AfterOffer(sub, u, ok), u)
  {
    assert AfterOffer(sub, u, ok).past.offers[|sub.past.offers|].update == u;
  }

  lemma OfferSubOk(s: State, t: nat, u: nat, rest: seq<nat>, ok: bool, pc: Thread)
    requires Inv(s) && t < |s.threads| && s.threads[t] == Send(u, rest) && rest != [] && rest[0] < |s.subs|
    requires pc == if ok then Visit(u, rest[1..]) else Drop(u, rest)
    ensures PutSubOk(s, rest[0], AfterOffer(s.subs[rest[0]], u, ok), t, pc)
  {
    hide Inv, SubOk, SameSub, Rejected, Offered;
    OfThread(s, t);
    OfSub(s, rest[0]);
    assert Pending(s.threads[t])[0] == rest[0];
    OfferKeepsSubOk(s.feed, s.subs[rest[0]], u, ok);
  }

  lemma OfferKeepsInv(s: State, t: nat, u: nat, rest: seq<nat>, ok: bool, pc: Thread)
    requires Inv(s) && t < |s.threads| && s.threads[t] == Send(u, rest) && rest != [] && rest[0] < |s.subs|
    requires pc == if ok then Visit(u, rest[1..]) else Drop(u, rest)
    ensures Inv(PutTo(s, s.hub, rest[0], AfterOffer(s.subs[rest[0]], u, ok), t, pc))
  {
    hide Inv, PutThreadOk, PutSubOk;
    OfferThreadOk(s, t, u, rest, ok, pc);
    OfferSubOk(s, t, u, rest, ok, pc);
    PutKeepsInv(s, s.hub, rest[0], AfterOffer(s.subs[rest[0]], u, ok), t, pc);
  }

  lemma SendKeepsInv(c: Config, s: State, t: nat, u: nat, rest: seq<nat>)
    requires Inv(s) && t < |s.threads| && s.threads[t] == Send(u, rest)
    ensures ThreadOk(s, t, s.threads[t])
    ensures !s.subs[rest[0]].closed ==> Inv(DoSend(c, s, t, u, rest))
  {
    hide Inv;
    OfThread(s, t);
    if !s.subs[rest[0]].closed {
      var ok := |s.subs[rest[0]].queue| < c.bufferSize;
      OfferKeepsInv(s, t, u, rest, ok, if ok then Visit(u, rest[1..]) else Drop(u, rest));
    }
  }

  // ---------------------------------------------------------------- Unsubscribe

  lemma LeaveKeepsInv(s: State, t: nat, key: Key, next: Next)
    requires Inv(s) && t < |s.threads| && s.threads[t] == Leave(key, next)
    ensures ThreadOk(s, t, s.threads[t]) && Inv(DoLeave(s, t, key, next))
  {
    hide Inv;
    OfThread(s, t);
    MoveKeepsInv(s, s.hub, t, DoLeave(s, t, key, next).threads[t]);
  }

  lemma OfMember(s: State, key: Key)
    requires Inv(s) && key in s.hub.members
    ensures s.hub.members[key] < |s.subs| && s.subs[s.hub.members[key]].id == key.id && key.symbol in s.hub.topics
  {
    assert MemberOk(s, key);
  }

  lemma FlagThreadOk(s: State, t: nat, key: Key, next: Next, r: nat)
    requires ThreadOk(s, t, Mark(key, next)) && t < |s.threads| && key in s.hub.members && s.hub.members[key] == r
    requires r < |s.subs|
    ensures ThreadOk(PutTo(s, s.hub, r, s.subs[r].(flag := true), t, Close(key, r, next)), t, Close(key, r, next))
  {
    var sub := s.subs[r].(flag := true);
    assert PublisherOk(s.subs[r := sub], Mark(key, next)) by {
      hide SubOk, InRange, FeedThreadOk, CloserOk, StreamerOk;
      PublisherKept(s.subs, r, sub, Mark(key, next));
    }
    PublisherSame(s.subs[r := sub], Mark(key, next), Close(key, r, next));
    hide PublisherOk;
  }

  lemma PublisherKept(subs: seq<Sub>, r: nat, sub: Sub, pc: Thread)
    requires PublisherOk(subs, pc) && r < |subs| && sub.past == subs[r].past
    ensures PublisherOk(subs[r := sub], pc)
  {
  }

  lemma FlagKeepsInv(s: State, t: nat, key: Key, next: Next, r: nat)
    requires Inv(s) && t < |s.threads| && s.threads[t] == Mark(key, next) && Unlocked(s.threads, key.symbol)
    requires key in s.hub.members && s.hub.members[key] == r && r < |s.subs|
    ensures Inv(PutTo(s, s.hub, r, s.subs[r].(flag := true), t, Close(key, r, next)))
  {
    hide Inv, ThreadOk, SubOk, PublisherOk, Unlocked;
    var sub := s.subs[r].(flag := true);
    OfThread(s, t);
    OfSub(s, r);
    FlagThreadOk(s, t, key, next, r);
    FlaggedSubOk(s.feed, s.subs[r]);
    PutSubKeepsInv(s, s.hub, r, sub, t, Close(key, r, next));
  }

  lemma FlaggedSubOk(f: Feed, sub: Sub)
    requires SubOk(f, sub)
    ensures SubOk(f, sub.(flag := true))
  {
  }

  lemma MarkKeepsInv(s: State, t: nat, key: Key, next: Next)
    requires Inv(s) && t < |s.threads| && s.threads[t] == Mark(key, next) && Unlocked(s.threads, key.symbol)
    ensures ThreadOk(s, t, s.threads[t]) && (key in s.hub.members ==> s.hub.members[key] < |s.subs|)
    ensures Inv(DoMark(s, t, key, next))
  {
    hide Inv;
    OfThread(s, t);
    if key in s.hub.members {
      OfMember(s, key);
      hide ThreadOk;
      FlagKeepsInv(s, t, key, next, s.hub.members[key]);
    } else {
      MoveKeepsInv(s, s.hub, t, After(next));
    }
  }

  lemma CloseHubOk(s: State, t: nat, key: Key, r: nat, next: Next)
    requires Inv(s) && t < |s.threads| && s.threads[t] == Close(key, r, next) && r < |s.subs|
    ensures PutHubOk(s, s.hub.(members := s.hub.members - {key}, active := s.hub.active - 1), r,
                     s.subs[r].(closed := true), t, After(next))
  {
    hide Inv, MemberOk, CountsOk, FeedOk;
    OfThread(s, t);
    OfAll(s);
    assert key in s.hub.members;
    hide ThreadOk;
    var members := s.hub.members - {key};
    assert members.Keys == s.hub.members.Keys - {key};
    assert |members| == |s.hub.members| - 1;
  }

  /** After an Unsubscribe the thread goes on with the same update and the same members. */
  lemma ContinuesOk(s: State, t: nat, key: Key, r: nat, next: Next, subs: seq<Sub>)
    requires ThreadCore(s, t, Close(key, r, next)) && |subs| == |s.subs|
    ensures InRange(|s.feed.updates|, |subs|, After(next)) && FeedThreadOk(s.feed, t, After(next))
    ensures Pending(After(next)) == Pending(Close(key, r, next)) && Current(After(next)) == Current(Close(key, r, next))
  {
    hide PublisherOk, CloserOk, StreamerOk;
  }

  lemma SameHands(s: State, s': State, t: nat)
    requires t < |s.threads| && t < |s'.threads|
    requires Pending(s'.threads[t]) == Pending(s.threads[t]) && Current(s'.threads[t]) == Current(s.threads[t])
    ensures Hands(s, s', t)
  {
    hide Pending, Current, Offered;
  }

  lemma CloseThreadOk(s: State, t: nat, key: Key, r: nat, next: Next, hub: Hub)
    requires Inv(s) && t < |s.threads| && s.threads[t] == Close(key, r, next) && r < |s.subs|
    ensures PutThreadOk(s, hub, r, s.subs[r].(closed := true), t, After(next))
  {
    hide Inv, SubOk, PublisherOk, InRange, FeedThreadOk, Hands, Pending, Current;
    var sub := s.subs[r].(closed := true);
    OfThread(s, t);
    OfSub(s, r);
    ContinuesOk(s, t, key, r, next, s.subs[r := sub]);
    SameHistory(s.feed, s.subs, r, sub, Close(key, r, next));
    PublisherSame(s.subs[r := sub], Close(key, r, next), After(next));
    SameHands(s, PutTo(s, hub, r, sub, t, After(next)), t);
  }

  lemma CloseSubOk(s: State, t: nat, key: Key, r: nat, next: Next)
    requires Inv(s) && t < |s.threads| && s.threads[t] == Close(key, r, next) && r < |s.subs|
    ensures PutSubOk(s, r, s.subs[r].(closed := true), t, After(next))
  {
    hide Inv, SubOk, PublisherOk;
    OfThread(s, t);
    OfSub(s, r);
    SameHistory(s.feed, s.subs, r, s.subs[r].(closed := true), Close(key, r, next));
  }

  lemma CloseKeepsInv(s: State, t: nat, key: Key, r: nat, next: Next)
    requires Inv(s) && t < |s.threads| && s.threads[t] == Close(key, r, next)
    ensures ThreadOk(s, t, s.threads[t])
    ensures !s.subs[r].closed ==> Inv(DoClose(s, t, key, r, next))
  {
    hide Inv, PutHubOk, PutThreadOk, PutSubOk;
    OfThread(s, t);
    if !s.subs[r].closed {
      var hub := s.hub.(members := s.hub.members - {key}, active := s.hub.active - 1);
      CloseHubOk(s, t, key, r, next);
      CloseThreadOk(s, t, key, r, next, hub);
      CloseSubOk(s, t, key, r, next);
      hide ThreadOk;
      PutKeepsInv(s, hub, r, s.subs[r].(closed := true), t, After(next));
    }
  }

  // ---------------------------------------------------------------- Subscribe and StreamOrderBook

  lemma JoinKeepsInv(s: State, t: nat, symbol: string, r: nat)
    requires Inv(s) && t < |s.threads| && s.threads[t] == Join(symbol, r)
    ensures ThreadOk(s, t, s.threads[t]) && Inv(DoJoin(s, t, symbol, r))
  {
    hide Inv;
    OfThread(s, t);
    MoveKeepsInv(s, s.hub.(topics := s.hub.topics + {symbol}), t, Insert(symbol, r));
  }

  lemma InsertHubOk(s: State, t: nat, symbol: string, r: nat, hub: Hub, sub: Sub)
    requires Inv(s) && t < |s.threads| && s.threads[t] == Insert(symbol, r) && r < |s.subs|
    requires Unlocked(s.threads, symbol)
    requires symbol in s.hub.topics
    requires var key := Key(symbol, s.subs[r].id);
             hub == s.hub.(members := s.hub.members[key := r], overwrites :=
                           s.hub.overwrites + if key in s.hub.members then 1 else 0)
    requires sub.id == s.subs[r].id && sub.dropped == s.subs[r].dropped && sub.past.before == s.feed.copied
    ensures PutHubOk(s, hub, r, sub, t, Enroll(symbol, r))
  {
    hide Inv;
    var key := Key(symbol, s.subs[r].id);
    assert hub.members.Keys == s.hub.members.Keys + {key};
    assert |hub.members| == |s.hub.members| + One(key !in s.hub.members);
    assert MemberOk(PutTo(s, hub, r, sub, t, Enroll(symbol, r)), key);
    hide MemberOk;
  }

  lemma InsertSubOk(s: State, t: nat, symbol: string, r: nat, sub: Sub)
    requires Inv(s) && t < |s.threads| && s.threads[t] == Insert(symbol, r) && r < |s.subs|
    requires sub == s.subs[r].(past := s.subs[r].past.(joins := s.subs[r].past.joins + 1, topic :=
                                                       Some(symbol), before := s.feed.copied))
    ensures PutSubOk(s, r, sub, t, Enroll(symbol, r))
  {
    hide Inv;
    OfThread(s, t);
    OfSub(s, r);
  }

  lemma InsertThreadOk(s: State, t: nat, symbol: string, r: nat, hub: Hub, sub: Sub)
    requires Inv(s) && t < |s.threads| && s.threads[t] == Insert(symbol, r) && r < |s.subs|
    requires sub == s.subs[r].(past := s.subs[r].past.(joins := s.subs[r].past.joins + 1, topic :=
                                                       Some(symbol), before := s.feed.copied))
    ensures PutThreadOk(s, hub, r, sub, t, Enroll(symbol, r))
  {
    hide Inv;
    OfThread(s, t);
  }

  lemma InsertKeepsInv(s: State, t: nat, symbol: string, r: nat)
    requires Inv(s) && t < |s.threads| && s.threads[t] == Insert(symbol, r) && Unlocked(s.threads, symbol)
    ensures ThreadOk(s, t, s.threads[t]) && Inv(DoInsert(s, t, symbol, r))
  {
    hide Inv, PutHubOk, PutThreadOk, PutSubOk;
    OfThread(s, t);
    var s' := DoInsert(s, t, symbol, r);
    InsertHubOk(s, t, symbol, r, s'.hub, s'.subs[r]);
    InsertSubOk(s, t, symbol, r, s'.subs[r]);
    InsertThreadOk(s, t, symbol, r, s'.hub, s'.subs[r]);
    hide ThreadOk;
    PutKeepsInv(s, s'.hub, r, s'.subs[r], t, Enroll(symbol, r));
  }

  lemma EnrollKeepsInv(s: State, t: nat, symbol: string, r: nat)
    requires Inv(s) && t < |s.threads| && s.threads[t] == Enroll(symbol, r)
    ensures ThreadOk(s, t, s.threads[t]) && Inv(DoEnroll(s, t, symbol, r))
  {
    hide Inv;
    OfThread(s, t);
    MoveKeepsInv(s, s.hub.(active := s.hub.active + 1), t, DoEnroll(s, t, symbol, r).threads[t]);
  }

  lemma TakeKeepsSubOk(f: Feed, sub: Sub, sub': Sub, ok: bool)
    requires SubOk(f, sub) && sub.queue != [] && sub.queue[0] < |f.updates|
    requires sub.stream.Some? ==> sub.past.snapAt.Some?
    requires var book := f.updates[sub.queue[0]].book;
             sub' == if sub.stream.Some? && book.Some? then Take(sub).(past := Showed(Take(sub).past, book.value, ok))
               else Take(sub)
    ensures SubOk(f, sub')
  {
    hide Accepted, Books;
    var taken, u := sub.past.taken, sub.queue[0];
    assert (taken + [u]) + sub.queue[1..] == taken + sub.queue;
    if sub.stream.Some? {
      BooksTaken(f.updates, taken, u);
    }
  }

  lemma BooksTaken(updates: seq<Update>, us: seq<nat>, u: nat)
    requires AllBelow(us, |updates|) && u < |updates|
    ensures AllBelow(us + [u], |updates|)
    ensures Books(updates, us + [u]) == Books(updates, us) + if updates[u].book.Some? then [updates[u].book.value]
              else []
  {
    assert (us + [u])[..|us|] == us;
  }

  /** A client thread works on its own subscriber's history. */
  lemma HistoryKeepsInv(s: State, t: nat, r: nat, sub: Sub, pc: Thread)
    requires Inv(s) && t < |s.threads| && r < |s.subs|
    requires (s.threads[t].Snapshot? || s.threads[t].Drain?) && s.threads[t].sub == r
    requires pc == Drain(s.threads[t].symbol, r) || (pc.Leave? && pc.next.End?)
    requires SubOk(s.feed, sub) && sub == s.subs[r].(queue := sub.queue, past := sub.past)
    requires sub.past.offers == s.subs[r].past.offers && sub.past.before == s.subs[r].past.before
    requires sub.past.snapAt.Some?
    requires sub.past.joins == s.subs[r].past.joins
    ensures Inv(PutTo(s, s.hub, r, sub, t, pc))
  {
    hide Inv, SubOk;
    OfThread(s, t);
    PutSubKeepsInv(s, s.hub, r, sub, t, pc);
  }

  lemma DrainKeepsInv(s: State, t: nat, symbol: string, r: nat, ok: bool)
    requires Inv(s) && t < |s.threads| && s.threads[t] == Drain(symbol, r)
    ensures ThreadOk(s, t, s.threads[t]) && (s.subs[r].queue != [] ==> s.subs[r].queue[0] < |s.feed.updates|)
    ensures Inv(DoDrain(s, t, symbol, r, ok))
  {
    hide Inv;
    OfThread(s, t);
    OfSub(s, r);
    if s.subs[r].queue == [] {
      MoveKeepsInv(s, s.hub, t, Leave(Key(symbol, s.subs[r].id), End));
    } else {
      var s' := DoDrain(s, t, symbol, r, ok);
      TakeKeepsSubOk(s.feed, s.subs[r], s'.subs[r], ok);
      hide SubOk;
      HistoryKeepsInv(s, t, r, s'.subs[r], s'.threads[t]);
    }
  }

  lemma SnapshotKeepsInv(s: State, t: nat, symbol: string, r: nat, ok: bool)
    requires Inv(s) && t < |s.threads| && s.threads[t] == Snapshot(symbol, r)
    ensures ThreadOk(s, t, s.threads[t])
    ensures symbol in s.feed.cache ==>
              s.feed.cache[symbol] < |s.feed.updates| &&
              s.feed.updates[s.feed.cache[symbol]].book.Some?
    ensures Inv(DoSnapshot(s, t, symbol, r, ok))
  {
    hide Inv;
    OfThread(s, t);
    OfSub(s, r);
    OfAll(s);
    var s' := DoSnapshot(s, t, symbol, r, ok);
    SnapshotKeepsSubOk(s.feed, s.threads, s.subs[r], s'.subs[r], ok);
    hide SubOk, FeedOk;
    HistoryKeepsInv(s, t, r, s'.subs[r], s'.threads[t]);
  }

  lemma SnapshotKeepsSubOk(f: Feed, threads: seq<Thread>, sub: Sub, sub': Sub, ok: bool)
    requires SubOk(f, sub) && FeedOk(f, threads) && sub.stream.Some? && sub.past.snapAt.None?
    requires sub'.past.snapAt == Some(|f.writes|)
    requires sub' == sub.(past := sub'.past)
    requires var past := sub.past.(snapAt := Some(|f.writes|));
             if sub'.past.snap.None? then sub'.past == past && sub.past.snap.None?
             else && sub'.past.snap.value in f.cache.Values && sub'.past.snap.value < |f.updates|
                  && f.updates[sub'.past.snap.value].book.Some?
                  && sub'.past == Showed(past.(snap := sub'.past.snap), f.updates[sub'.past.snap.value].book.value, ok)
    ensures SubOk(f, sub')
  {
    assert Books(f.updates, []) == [];
    assert f.writes[..|f.writes|] == f.writes;
    forall u | u in sub.past.before && u < |f.updates| && f.updates[u].book.Some?
      ensures u in f.writes
    {
      assert UpdateOk(f, threads, u);
    }
  }

  // ---------------------------------------------------------------- the feed

  lemma {:induction false} AcceptedWereOffered(offers: seq<Offer>, u: nat)
    requires u in Accepted(offers)
    ensures exists i :: 0 <= i < |offers| && offers[i].update == u
  {
    var n := |offers| - 1;
    if u in Accepted(offers[..n]) {
      AcceptedWereOffered(offers[..n], u);
      var i :| 0 <= i < n && offers[..n][i].update == u;
      assert offers[i].update == u;
    } else {
      assert offers[n].update == u;
    }
  }

  /** Writing a book that was not offered to anybody yet changes no subscriber's history. */
  lemma WriteKeepsSubOk(f: Feed, f': Feed, u: nat, sub: Sub)
    requires SubOk(f, sub) && u < |f.updates| && u !in f.copied && u !in f.writes
    requires |f'.updates| == |f.updates| && f'.copied == f.copied && f'.writes == f.writes + [u]
    requires forall v :: 0 <= v < |f.updates| && v != u ==> f'.updates[v] == f.updates[v]
    requires f'.updates[u].book.Some? <==> f.updates[u].book.Some?
    ensures SubOk(f', sub)
  {
    if sub.stream.Some? {
      forall i | 0 <= i < |sub.past.taken|
        ensures f'.updates[sub.past.taken[i]].book == f.updates[sub.past.taken[i]].book
      {
        assert sub.past.taken[i] == Accepted(sub.past.offers)[i];
        AcceptedWereOffered(sub.past.offers, sub.past.taken[i]);
      }
      BooksUnchanged(f.updates, f'.updates, sub.past.taken);
    }
    if sub.past.snapAt.Some? {
      assert f'.writes[..sub.past.snapAt.value] == f.writes[..sub.past.snapAt.value];
    }
  }

  /** A step of a publishing thread that changes the feed and nothing else. */
  ghost predicate FeedMoves(s: State, s': State, t: nat, u: nat) {
    && t < |s.threads| && u < |s.feed.updates| && |s'.threads| == |s.threads| &&
      s'.threads == s.threads[t := s'.threads[t]]
    && Current(s.threads[t]) == Some(u) && Pending(s.threads[t]) == []
    && s'.hub == s.hub && s'.subs == s.subs
    && |s'.feed.updates| == |s.feed.updates|
    && (forall v :: 0 <= v < |s.feed.updates| && v != u ==> s'.feed.updates[v] == s.feed.updates[v])
    && s'.feed.updates[u].symbol == s.feed.updates[u].symbol && s'.feed.updates[u].owner == s.feed.updates[u].owner
    && (forall v :: v != u ==> (v in s'.feed.copied <==> v in s.feed.copied))
    && (forall v :: v != u ==> (v in s'.feed.writes <==> v in s.feed.writes))
    && !s.threads[t].Drop? && !s.threads[t].Tally? && !s.threads[t].Enroll?
    && !s'.threads[t].Drop? && !s'.threads[t].Tally? && !s'.threads[t].Enroll? && !s'.threads[t].Close?
  }

  lemma FeedMovesKeepThreads(s: State, s': State, t: nat, u: nat, i: nat)
    requires FeedMoves(s, s', t, u) && i < |s.threads| && i != t
    requires ThreadOk(s, i, s.threads[i]) && ThreadOk(s, t, s.threads[t])
    ensures ThreadOk(s', i, s'.threads[i])
  {
  }

  lemma FeedMovesKeepMember(s: State, s': State, t: nat, u: nat, key: Key)
    requires FeedMoves(s, s', t, u) && MemberOk(s, key)
    requires forall k :: k in s.hub.members && k.symbol == s.feed.updates[u].symbol && s.hub.members[k] < |s.subs| ==>
               Reached(s'.feed, s'.threads, s.subs[s.hub.members[k]], s.hub.members[k], u)
    ensures MemberOk(s', key)
  {
    if key in s.hub.members {
      var r := s.hub.members[key];
      forall v | 0 <= v < |s.feed.updates| && s.feed.updates[v].symbol == key.symbol
        ensures Reached(s'.feed, s'.threads, s'.subs[r], r, v)
      {
        assert Reached(s.feed, s.threads, s.subs[r], r, v);
      }
    }
  }

  lemma FeedMovesKeepInv(s: State, s': State, t: nat, u: nat)
    requires Inv(s) && FeedMoves(s, s', t, u)
    requires ThreadOk(s', t, s'.threads[t]) && FeedOk(s'.feed, s'.threads)
    requires forall r :: 0 <= r < |s.subs| && SubOk(s.feed, s.subs[r]) ==> SubOk(s'.feed, s.subs[r])
    requires forall key ::
               key in s.hub.members && key.symbol == s.feed.updates[u].symbol &&
               s.hub.members[key] < |s.subs| ==>
               Reached(s'.feed, s'.threads, s.subs[s.hub.members[key]], s.hub.members[key], u)
    ensures Inv(s')
  {
    hide ThreadOk, SubOk, MemberOk, FeedOk, Reached;
    forall i | 0 <= i < |s'.threads|
      ensures ThreadOk(s', i, s'.threads[i])
    {
      if i != t {
        FeedMovesKeepThreads(s, s', t, u, i);
      }
    }
    forall r | 0 <= r < |s'.subs|
      ensures SubOk(s'.feed, s'.subs[r]) && DropsOk(s'.threads, s'.subs[r], r)
    {
      CountMoved(s.threads, t, s'.threads[t], Dropping(r));
    }
    LocksStillOk(s.threads, t, s'.threads[t]);
    CountMoved(s.threads, t, s'.threads[t], Tallying);
    CountMoved(s.threads, t, s'.threads[t], Enrolling);
    forall key
      ensures MemberOk(s', key)
    {
      FeedMovesKeepMember(s, s', t, u, key);
    }
  }

  lemma WriteKeepsInv(c: Config, s: State, t: nat, u: nat)
    requires Inv(s) && t < |s.threads| && s.threads[t] == Write(u)
    ensures ThreadOk(s, t, s.threads[t]) && Inv(DoWrite(c, s, t, u))
  {
    hide Inv;
    OfThread(s, t);
    OfAll(s);
    var s' := DoWrite(c, s, t, u);
    if s.feed.updates[u].book.None? {
      MoveKeepsInv(s, s.hub, t, Lookup(u));
    } else {
      forall r | 0 <= r < |s.subs| && SubOk(s.feed, s.subs[r])
        ensures SubOk(s'.feed, s.subs[r])
      {
        WriteKeepsSubOk(s.feed, s'.feed, u, s.subs[r]);
      }
      hide SubOk;
      WriteKeepsFeedOk(s.feed, s'.feed, s.threads, t, u, Trim(s.feed.updates[u].book.value, c.maxDepth).symbol);
      hide FeedOk;
      FeedMovesKeepInv(s, s', t, u);
    }
  }

  lemma WriteKeepsFeedOk(f: Feed, f': Feed, threads: seq<Thread>, t: nat, u: nat, symbol: string)
    requires FeedOk(f, threads) && t < |threads| && u < |f.updates| && u !in f.writes && threads[t] == Write(u)
    requires f.updates[u].owner == t
    requires |f'.updates| == |f.updates| && f'.updates == f.updates[u := f'.updates[u]] && f'.updates[u].owner == t
    requires f'.updates[u].book.Some?
    requires f'.copied == f.copied && f'.writes == f.writes + [u] && u !in f.copied && f'.cache == f.cache[symbol := u]
    ensures FeedOk(f', threads[t := Lookup(u)])
  {
    var threads' := threads[t := Lookup(u)];
    forall v | 0 <= v < |f'.updates|
      ensures UpdateOk(f', threads', v)
    {
      assert UpdateOk(f, threads, v);
    }
  }

  /** The feed and the threads after Publish has passed the copy of the members. */
  function AfterCopy(s: State, t: nat, u: nat, pc: Thread): State
    requires t < |s.threads|
  {
    Goto(s.(feed := s.feed.(copied := s.feed.copied + {u})), t, pc)
  }

  /** Publish passes the copy of the members. */
  lemma CopiedKeepsInv(s: State, t: nat, u: nat, pc: Thread)
    requires Inv(s) && t < |s.threads| && (s.threads[t] == Lookup(u) || s.threads[t] == Copy(u))
    requires (pc == Done && u < |s.feed.updates| && s.feed.updates[u].symbol !in s.hub.topics)
          || (pc.Visit? && pc.update == u && u < |s.feed.updates| &&
              ListsMembers(s.hub.members, s.feed.updates[u].symbol, pc.rest))
    ensures Inv(AfterCopy(s, t, u, pc))
  {
    hide *;
    var s' := AfterCopy(s, t, u, pc);
    OfThread(s, t);
    OfAll(s);
    CopierParts(s, t, u);
    CopiedMoves(s, t, u, pc);
    CopiedKeepsFeedOk(s.feed, s.threads, t, u, pc);
    forall key | key in s.hub.members && key.symbol == s.feed.updates[u].symbol && s.hub.members[key] < |s.subs|
      ensures Reached(s'.feed, s'.threads, s.subs[s.hub.members[key]], s.hub.members[key], u)
    {
      OfMember(s, key);
      CopiedReached(s, t, u, pc, key);
    }
    CopiedThreadOk(s, t, u, pc);
    forall r | 0 <= r < |s.subs| && SubOk(s.feed, s.subs[r])
      ensures SubOk(s'.feed, s.subs[r])
    {
      CopiedSubOk(s.feed, s.subs[r], u);
    }
    FeedMovesKeepInv(s, s', t, u);
  }

  lemma CopierParts(s: State, t: nat, u: nat)
    requires t < |s.threads| && (s.threads[t] == Lookup(u) || s.threads[t] == Copy(u)) && ThreadOk(s, t, s.threads[t])
    ensures u < |s.feed.updates| && s.feed.updates[u].owner == t
    ensures (s.feed.updates[u].book.Some? ==> u in s.feed.writes)
  {
    hide InRange, PublisherOk, CloserOk, StreamerOk;
  }

  lemma CopiedMoves(s: State, t: nat, u: nat, pc: Thread)
    requires t < |s.threads| && u < |s.feed.updates| && (s.threads[t] == Lookup(u) || s.threads[t] == Copy(u))
    requires (pc.Done? || pc.Visit?)
    ensures var s' := AfterCopy(s, t, u, pc);
            && FeedMoves(s, s', t, u) && s'.feed == s.feed.(copied := s.feed.copied + {u}) &&
              s'.threads == s.threads[t := pc]
            && s'.hub == s.hub && s'.subs == s.subs
  {
  }

  lemma CopiedReached(s: State, t: nat, u: nat, pc: Thread, key: Key)
    requires t < |s.threads| && u < |s.feed.updates| && s.feed.updates[u].owner == t
    requires key in s.hub.members && key.symbol == s.feed.updates[u].symbol && s.hub.members[key] < |s.subs|
    requires key.symbol in s.hub.topics
    requires (pc == Done && s.feed.updates[u].symbol !in s.hub.topics)
          || (pc.Visit? && pc.update == u && ListsMembers(s.hub.members, s.feed.updates[u].symbol, pc.rest))
    ensures var s' := AfterCopy(s, t, u, pc);
            u < |s'.feed.updates| && Reached(s'.feed, s'.threads, s.subs[s.hub.members[key]], s.hub.members[key], u)
  {
  }

  lemma CopiedSubOk(f: Feed, sub: Sub, u: nat)
    requires SubOk(f, sub)
    ensures SubOk(f.(copied := f.copied + {u}), sub)
  {
  }

  lemma CopiedKeepsFeedOk(f: Feed, threads: seq<Thread>, t: nat, u: nat, pc: Thread)
    requires FeedOk(f, threads) && t < |threads| && u < |f.updates| && f.updates[u].owner == t
    requires (threads[t] == Lookup(u) || threads[t] == Copy(u)) && (f.updates[u].book.Some? ==> u in f.writes)
    ensures FeedOk(f.(copied := f.copied + {u}), threads[t := pc])
  {
    var f', threads' := f.(copied := f.copied + {u}), threads[t := pc];
    forall v | 0 <= v < |f'.updates|
      ensures UpdateOk(f', threads', v)
    {
      assert UpdateOk(f, threads, v);
    }
  }

  /** No member was offered an update whose members are only now copied. */
  lemma MembersNotOffered(s: State, symbol: string, rest: seq<nat>, u: nat)
    requires Inv(s) && ListsMembers(s.hub.members, symbol, rest) && u !in s.feed.copied
    ensures AllBelow(rest, |s.subs|)
    ensures forall i :: 0 <= i < |rest| ==> !Offered(s.subs[rest[i]], u)
  {
    hide Inv;
    forall i | 0 <= i < |rest|
      ensures rest[i] < |s.subs| && !Offered(s.subs[rest[i]], u)
    {
      assert IsMember(s.hub.members, symbol, rest[i]);
      var k :| k in s.hub.members && s.hub.members[k] == rest[i];
      OfMember(s, k);
      OfSub(s, rest[i]);
    }
  }

  lemma CopiedThreadOk(s: State, t: nat, u: nat, pc: Thread)
    requires Inv(s) && t < |s.threads| && (s.threads[t] == Lookup(u) || s.threads[t] == Copy(u))
    requires pc == Done || (pc.Visit? && pc.update == u && u < |s.feed.updates| &&
                            ListsMembers(s.hub.members, s.feed.updates[u].symbol, pc.rest))
    ensures ThreadOk(AfterCopy(s, t, u, pc), t, pc)
  {
    hide Inv, Offered;
    OfThread(s, t);
    if pc.Visit? {
      MembersNotOffered(s, s.feed.updates[u].symbol, pc.rest, u);
    }
  }

  lemma LookupKeepsInv(s: State, t: nat, u: nat)
    requires Inv(s) && t < |s.threads| && s.threads[t] == Lookup(u)
    ensures ThreadOk(s, t, s.threads[t]) && Inv(DoLookup(s, t, u))
  {
    hide Inv;
    OfThread(s, t);
    if s.feed.updates[u].symbol in s.hub.topics {
      MoveKeepsInv(s, s.hub, t, Copy(u));
    } else {
      CopiedKeepsInv(s, t, u, Done);
    }
  }

  lemma CopyKeepsInv(s: State, t: nat, u: nat, order: seq<nat>)
    requires Inv(s) && t < |s.threads| && s.threads[t] == Copy(u) && Runnable(s, s.threads[t], order)
    ensures ThreadOk(s, t, s.threads[t]) && Inv(DoCopy(s, t, u, order))
  {
    hide Inv;
    OfThread(s, t);
    CopiedKeepsInv(s, t, u, Visit(u, order));
  }

  // ---------------------------------------------------------------- calls begin

  /** Between two states the feed and the threads only grow at the end, the membership stays, and subscribers
      keep what the other parts rely on. */
  ghost predicate Grows(s: State, s': State) {
    && |s.feed.updates| <= |s'.feed.updates| &&
      (forall u :: 0 <= u < |s.feed.updates| ==> s'.feed.updates[u] == s.feed.updates[u])
    && s'.feed.writes == s.feed.writes && s'.feed.copied == s.feed.copied
    && s'.hub == s.hub
    && |s.threads| <= |s'.threads| && (forall i :: 0 <= i < |s.threads| ==> s'.threads[i] == s.threads[i])
    && |s.subs| <= |s'.subs| && (forall r :: 0 <= r < |s.subs| ==> KeepsSub(s.subs[r], s'.subs[r]))
  }

  ghost predicate KeepsSub(a: Sub, b: Sub) {
    && b.id == a.id && b.stream == a.stream && (a.flag ==> b.flag)
    && b.past.offers == a.past.offers && b.past.before == a.past.before && b.past.snapAt == a.past.snapAt &&
      b.past.joins == a.past.joins
  }

  lemma GrowthKeepsThread(s: State, s': State, i: nat)
    requires Grows(s, s') && i < |s.threads| && ThreadOk(s, i, s.threads[i])
    ensures ThreadOk(s', i, s'.threads[i])
  {
    assert s'.threads[i] == s.threads[i];
    if Current(s.threads[i]).Some? {
      assert s'.feed.updates[Current(s.threads[i]).value] == s.feed.updates[Current(s.threads[i]).value];
    }
    forall r, u | 0 <= r < |s.subs| && Offered(s'.subs[r], u)
      ensures Offered(s.subs[r], u)
    {
      assert KeepsSub(s.subs[r], s'.subs[r]);
    }
  }

  lemma GrowthKeepsSub(f: Feed, f': Feed, sub: Sub)
    requires SubOk(f, sub) && |f.updates| <= |f'.updates| && f'.writes == f.writes && f'.copied == f.copied
    requires forall u :: 0 <= u < |f.updates| ==> f'.updates[u] == f.updates[u]
    requires forall u :: u in f.copied ==> u < |f.updates|
    ensures SubOk(f', sub)
  {
    if sub.stream.Some? {
      BooksUnchanged(f.updates, f'.updates, sub.past.taken);
    }
  }

  lemma GrowthKeepsMember(s: State, s': State, key: Key)
    requires MemberOk(s, key) && Grows(s, s') && forall u :: u in s.feed.copied ==> u < |s.feed.updates|
    ensures MemberOk(s', key)
  {
    if key in s.hub.members {
      var r := s.hub.members[key];
      assert KeepsSub(s.subs[r], s'.subs[r]);
      forall u | 0 <= u < |s'.feed.updates| && s'.feed.updates[u].symbol == key.symbol
        ensures Reached(s'.feed, s'.threads, s'.subs[r], r, u)
      {
        if u < |s.feed.updates| {
          assert s'.feed.updates[u] == s.feed.updates[u];
          assert Reached(s.feed, s.threads, s.subs[r], r, u);
          if s.feed.updates[u].owner < |s.threads| {
            assert s'.threads[s.feed.updates[u].owner] == s.threads[s.feed.updates[u].owner];
          }
        }
      }
    }
  }

  /** A new thread begins in order, with nothing to count. */
  ghost predicate Arrives(s: State, s': State) {
    && |s'.threads| <= |s.threads| + 1
    && (|s'.threads| > |s.threads| ==>
          var pc := s'.threads[|s.threads|];
          && ThreadOk(s', |s.threads|, pc) && !pc.Enroll? && !pc.Drop? && !pc.Tally?
          && (pc.Close? ==> Unlocked(s.threads, pc.key.symbol)))
  }

  /** A subscriber is as before, or new, or its history is in order. */
  ghost predicate SubArrives(s: State, s': State, r: nat)
    requires r < |s'.subs|
  {
    && ((r < |s.subs| && s'.subs[r] == s.subs[r]) || SubOk(s'.feed, s'.subs[r]))
    && (r < |s.subs| ==> s'.subs[r].dropped == s.subs[r].dropped)
    && (r >= |s.subs| ==> s'.subs[r].dropped == 0 && s'.subs[r].past.offers == [])
  }

  lemma GrowthKeepsInv(s: State, s': State)
    requires Inv(s) && Grows(s, s') && Arrives(s, s') && |s'.subs| <= |s.subs| + 1
    requires FeedOk(s'.feed, s'.threads)
    requires forall r :: 0 <= r < |s'.subs| ==> SubArrives(s, s', r)
    ensures Inv(s')
  {
    hide ThreadOk, CountsOk, LocksOk, SubOk, DropsOk, SubArrives;
    OfAll(s);
    CountsAfterGrowth(s, s');
    LocksAfterGrowth(s, s');
    forall i | 0 <= i < |s'.threads|
      ensures ThreadOk(s', i, s'.threads[i])
    {
      if i < |s.threads| {
        GrowthKeepsThread(s, s', i);
      }
    }
    forall r | 0 <= r < |s'.subs|
      ensures SubOk(s'.feed, s'.subs[r]) && DropsOk(s'.threads, s'.subs[r], r)
    {
      SubAfterGrowth(s, s', r);
    }
    forall key
      ensures MemberOk(s', key)
    {
      GrowthKeepsMember(s, s', key);
    }
  }

  lemma TotalAfterGrowth(s: State, s': State)
    requires |s.subs| <= |s'.subs| <= |s.subs| + 1
    requires forall r :: 0 <= r < |s'.subs| ==> SubArrives(s, s', r)
    ensures TotalDropped(s'.subs) == TotalDropped(s.subs)
  {
    hide SubOk;
    forall r | 0 <= r < |s'.subs|
      ensures s'.subs[r].dropped == if r < |s.subs| then s.subs[r].dropped else 0
    {
      assert SubArrives(s, s', r);
    }
    hide SubArrives;
    SameTotal(s.subs, s'.subs);
  }

  lemma CountsAfterGrowth(s: State, s': State)
    requires CountsOk(s) && Grows(s, s') && Arrives(s, s') && |s'.subs| <= |s.subs| + 1
    requires forall r :: 0 <= r < |s'.subs| ==> SubArrives(s, s', r)
    ensures CountsOk(s')
  {
    hide ThreadOk, SubArrives, Count, TotalDropped;
    CountGrown(s.threads, s'.threads, Tallying);
    CountGrown(s.threads, s'.threads, Enrolling);
    TotalAfterGrowth(s, s');
  }

  lemma LocksAfterGrowth(s: State, s': State)
    requires LocksOk(s.threads) && Grows(s, s') && Arrives(s, s')
    ensures LocksOk(s'.threads)
  {
    hide ThreadOk;
    assert forall i :: 0 <= i < |s.threads| ==> s'.threads[i] == s.threads[i];
  }

  /** At most one thread is new, and it has nothing to count. */
  lemma CountGrown(threads: seq<Thread>, threads': seq<Thread>, kind: Kind)
    requires |threads| <= |threads'| <= |threads| + 1
    requires forall i :: 0 <= i < |threads| ==> threads'[i] == threads[i]
    requires |threads'| > |threads| ==> !Is(threads'[|threads|], kind)
    ensures Count(threads', kind) == Count(threads, kind)
  {
    if |threads'| > |threads| {
      assert threads' == threads + [threads'[|threads|]];
      CountSpawned(threads, threads'[|threads|], kind);
    } else {
      assert threads' == threads;
    }
  }

  lemma SubAfterGrowth(s: State, s': State, r: nat)
    requires Inv(s) && Grows(s, s') && Arrives(s, s') && r < |s'.subs| && SubArrives(s, s', r)
    ensures SubOk(s'.feed, s'.subs[r]) && DropsOk(s'.threads, s'.subs[r], r)
  {
    hide Inv, ThreadOk, SubOk, LocksOk, CountsOk, Count;
    OfAll(s);
    CountGrown(s.threads, s'.threads, Dropping(r));
    if r < |s.subs| {
      OfSub(s, r);
      assert KeepsSub(s.subs[r], s'.subs[r]);
      if s'.subs[r] == s.subs[r] {
        GrowthKeepsSub(s.feed, s'.feed, s.subs[r]);
      }
    } else {
      NobodyDropping(s, r);
    }
  }

  /** No thread is dropping for a subscriber that does not exist yet. */
  lemma NobodyDropping(s: State, r: nat)
    requires Inv(s) && r >= |s.subs|
    ensures Count(s.threads, Dropping(r)) == 0
  {
    forall i | 0 <= i < |s.threads|
      ensures !Is(s.threads[i], Dropping(r))
    {
      OfThread(s, i);
    }
    CountNone(s.threads, Dropping(r));
  }

  lemma {:induction false} CountNone(threads: seq<Thread>, kind: Kind)
    requires forall i :: 0 <= i < |threads| ==> !Is(threads[i], kind)
    ensures Count(threads, kind) == 0
  {
    if threads != [] {
      CountNone(threads[..|threads| - 1], kind);
    }
  }

  lemma {:induction false} SameTotal(subs: seq<Sub>, subs': seq<Sub>)
    requires |subs| <= |subs'| <= |subs| + 1
    requires forall r :: 0 <= r < |subs| ==> subs'[r].dropped == subs[r].dropped
    requires |subs'| > |subs| ==> subs'[|subs|].dropped == 0
    ensures TotalDropped(subs') == TotalDropped(subs)
  {
    if |subs'| > |subs| {
      SameTotal(subs, subs'[..|subs|]);
    } else if subs != [] {
      SameTotal(subs[..|subs| - 1], subs'[..|subs| - 1]);
    }
  }

  lemma FeedKeptByCall(f: Feed, f': Feed, threads: seq<Thread>, pc: Thread)
    requires FeedOk(f, threads) && f'.updates == f.updates && f'.writes == f.writes && f'.copied == f.copied
    requires f'.cache.Keys <= f.cache.Keys && forall x :: x in f'.cache ==> f'.cache[x] == f.cache[x]
    ensures FeedOk(f', threads) && FeedOk(f', threads + [pc])
  {
    var threads' := threads + [pc];
    forall u | 0 <= u < |f.updates|
      ensures UpdateOk(f', threads, u) && UpdateOk(f', threads', u)
    {
      assert UpdateOk(f, threads, u);
    }
  }

  lemma NewSubOk(f: Feed, id: string, stream: Option<nat>)
    ensures SubOk(f, NewSub(id, stream))
  {
    assert Books(f.updates, []) == [];
  }

  /** A new subscriber, a new thread, or both. */
  lemma CallKeepsInv(s: State, s': State)
    requires Inv(s) && s' == s.(subs := s'.subs, threads := s'.threads)
    requires s'.subs == s.subs || exists id, stream :: s'.subs == s.subs + [NewSub(id, stream)]
    requires s'.threads == s.threads || |s'.threads| == |s.threads| + 1
    requires Grows(s, s') && Arrives(s, s')
    ensures Inv(s')
  {
    hide Inv, FeedOk, ThreadOk;
    OfAll(s);
    FeedKeptByCall(s.feed, s.feed, s.threads, Done);
    if |s'.threads| > |s.threads| {
      FeedKeptByCall(s.feed, s.feed, s.threads, s'.threads[|s.threads|]);
      assert s'.threads == s.threads + [s'.threads[|s.threads|]];
    }
    if s'.subs != s.subs {
      var id, stream :| s'.subs == s.subs + [NewSub(id, stream)];
      NewSubOk(s.feed, id, stream);
    }
    GrowthKeepsInv(s, s');
  }

  lemma OnDataFeedOk(f: Feed, threads: seq<Thread>, m: Update)
    requires FeedOk(f, threads) && m.owner == |threads|
    ensures FeedOk(f.(updates := f.updates + [m]), threads + [Write(|f.updates|)])
  {
    var f', threads' := f.(updates := f.updates + [m]), threads + [Write(|f.updates|)];
    forall u | 0 <= u < |f'.updates|
      ensures UpdateOk(f', threads', u)
    {
      if u < |f.updates| {
        assert UpdateOk(f, threads, u);
      }
    }
  }

  lemma OnDataKeepsInv(s: State, s': State, symbol: string, book: Option<Book>)
    requires Inv(s)
    requires s' == Spawn(s.(feed := s.feed.(updates := s.feed.updates + [Update(symbol, book, |s.threads|)])),
                         Write(|s.feed.updates|))
    ensures Inv(s')
  {
    hide Inv;
    OfAll(s);
    OnDataFeedOk(s.feed, s.threads, Update(symbol, book, |s.threads|));
    assert ThreadOk(s', |s.threads|, Write(|s.feed.updates|));
    hide FeedOk, ThreadOk;
    GrowthKeepsInv(s, s');
  }

  lemma EvictKeepsInv(s: State, symbol: string)
    requires Inv(s)
    ensures Inv(s.(feed := s.feed.(cache := s.feed.cache - {symbol})))
  {
    hide Inv, FeedOk, ThreadOk;
    OfAll(s);
    var s' := s.(feed := s.feed.(cache := s.feed.cache - {symbol}));
    FeedKeptByCall(s.feed, s'.feed, s.threads, Done);
    GrowthKeepsInv(s, s');
  }

  lemma ReceiveKeepsInv(s: State, r: nat)
    requires Inv(s) && r < |s.subs| && s.subs[r].stream.None? && s.subs[r].queue != []
    ensures Inv(s.(subs := s.subs[r := Take(s.subs[r])]))
  {
    hide Inv, FeedOk, ThreadOk;
    OfAll(s);
    OfSub(s, r);
    TakeKeepsSubOk(s.feed, s.subs[r], Take(s.subs[r]), true);
    hide SubOk;
    GrowthKeepsInv(s, s.(subs := s.subs[r := Take(s.subs[r])]));
  }

  lemma FlagSubKeepsInv(s: State, r: nat)
    requires Inv(s) && r < |s.subs|
    ensures Inv(s.(subs := s.subs[r := s.subs[r].(flag := true)]))
  {
    hide Inv, FeedOk, ThreadOk, PublisherOk, SubOk;
    OfAll(s);
    OfSub(s, r);
    SameHistory(s.feed, s.subs, r, s.subs[r].(flag := true), Done);
    GrowthKeepsInv(s, s.(subs := s.subs[r := s.subs[r].(flag := true)]));
  }

  lemma SweepKeepsInv(s: State, key: Key)
    requires Inv(s) && Unlocked(s.threads, key.symbol) && key in s.hub.members
    ensures s.hub.members[key] < |s.subs|
    ensures Inv(Spawn(s.(subs := s.subs[s.hub.members[key] := s.subs[s.hub.members[key]].(flag := true)]),
                      Close(key, s.hub.members[key], End)))
  {
    hide Inv;
    OfMember(s, key);
    var r := s.hub.members[key];
    var s1 := s.(subs := s.subs[r := s.subs[r].(flag := true)]);
    FlagSubKeepsInv(s, r);
    assert ThreadOk(Spawn(s1, Close(key, r, End)), |s.threads|, Close(key, r, End));
    hide ThreadOk;
    CallKeepsInv(s1, Spawn(s1, Close(key, r, End)));
  }

  lemma EventKeepsInv(c: Config, s: State, e: Event)
    requires Inv(s) && WellFormed(s) && Enabled(s, e) && !e.Run?
    ensures Inv(Step(c, s, e))
  {
    hide Inv, WellFormed;
    var s' := Step(c, s, e);
    match e
    case OnData(symbol, book) => OnDataKeepsInv(s, s', symbol, book);
    case Create(id) => CallKeepsInv(s, s');
    case Subscribe(symbol, r) => CallKeepsInv(s, s');
    case Stream(symbol, id) => CallKeepsInv(s, s');
    case Unsubscribe(key) => CallKeepsInv(s, s');
    case Sweep(key) => SweepKeepsInv(s, key);
    case Receive(r) => ReceiveKeepsInv(s, r);
    case EvictBook(symbol) => EvictKeepsInv(s, symbol);
  }

  /** One step of a thread; a panic stops the process and changes nothing else. */
  lemma ThreadKeepsInv(c: Config, s: State, t: nat, order: seq<nat>, ok: bool)
    requires Inv(s) && WellFormed(s) && t < |s.threads| && Runnable(s, s.threads[t], order)
    ensures RunThread(c, s, t, order, ok).status == s.status ==> Inv(RunThread(c, s, t, order, ok))
  {
    hide Inv, WellFormed, ThreadOk;
    match s.threads[t]
    case Done =>
    case Write(u) => WriteKeepsInv(c, s, t, u);
    case Lookup(u) => LookupKeepsInv(s, t, u);
    case Copy(u) => CopyKeepsInv(s, t, u, order);
    case Visit(u, rest) => VisitKeepsInv(s, t, u, rest);
    case Send(u, rest) => SendKeepsInv(c, s, t, u, rest);
    case Drop(u, rest) => DropKeepsInv(s, t, u, rest);
    case Tally(u, rest) => TallyKeepsInv(s, t, u, rest);
    case Check(u, rest) => CheckKeepsInv(c, s, t, u, rest);
    case Leave(key, next) => LeaveKeepsInv(s, t, key, next);
    case Mark(key, next) => MarkKeepsInv(s, t, key, next);
    case Close(key, r, next) => CloseKeepsInv(s, t, key, r, next);
    case Join(symbol, r) => JoinKeepsInv(s, t, symbol, r);
    case Insert(symbol, r) => InsertKeepsInv(s, t, symbol, r);
    case Enroll(symbol, r) => EnrollKeepsInv(s, t, symbol, r);
    case Snapshot(symbol, r) => SnapshotKeepsInv(s, t, symbol, r, ok);
    case Drain(symbol, r) => DrainKeepsInv(s, t, symbol, r, ok);
  }
}
