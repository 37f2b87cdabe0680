/** Subscribers that join once: their channels are never closed twice, and none that is too slow stays. */
module RelayOnce {
  import opened Relay
  import opened RelayInvariant
  import opened RelaySteps
  import opened RelayRuns
  import opened RelayEffects
  import opened RelayRules
  import opened RelayLifecycle

  // ---------------------------------------------------------------- what joining once gives, in every run

  /** A member has joined; if only once, then the topic that holds it. */
  ghost predicate OnceMember(members: map<Key, nat>, subs: seq<Sub>, k: Key) {
    k in members ==>
      && members[k] < |subs| && subs[members[k]].past.joins >= 1
      && (subs[members[k]].past.joins == 1 ==> subs[members[k]].past.topic == Some(k.symbol))
  }

  /** A publisher deals with subscribers that joined its topic, and offers only what was copied after they joined. */
  ghost predicate OnceNamed(f: Feed, pc: Thread, q: nat, sub: Sub) {
    Current(pc).Some? && Current(pc).value < |f.updates| && q in Named(pc) ==>
      && sub.past.joins >= 1
      && (sub.past.joins == 1 ==>
            && sub.past.topic == Some(f.updates[Current(pc).value].symbol)
            && (q in Pending(pc) ==> Current(pc).value !in sub.past.before))
  }

  /** A client thread serves the topic that its subscriber joined. */
  ghost predicate OnceClient(subs: seq<Sub>, pc: Thread) {
    (pc.Enroll? || pc.Snapshot? || pc.Drain?) && pc.sub < |subs| && subs[pc.sub].stream.Some? ==>
      subs[pc.sub].past.joins == 1 && subs[pc.sub].past.topic == Some(pc.symbol)
  }

  ghost predicate OnceSub(f: Feed, sub: Sub) {
    && (sub.past.joins == 0 ==> sub.past.offers == [] && sub.dropped == 0 && !sub.flag)
    && (sub.past.joins == 1 ==> forall i :: 0 <= i < |sub.past.offers| && sub.past.offers[i].update < |f.updates| ==>
          sub.past.topic == Some(f.updates[sub.past.offers[i].update].symbol))
  }

  ghost predicate OnceInv(s: State) {
    && (forall k :: OnceMember(s.hub.members, s.subs, k))
    && (forall t, q :: 0 <= t < |s.threads| && 0 <= q < |s.subs| ==> OnceNamed(s.feed, s.threads[t], q, s.subs[q]))
    && (forall t :: 0 <= t < |s.threads| ==> OnceClient(s.subs, s.threads[t]))
    && (forall r :: 0 <= r < |s.subs| ==> OnceSub(s.feed, s.subs[r]))
  }

  lemma OnceMemberAfter(s: State, e: Event, s': State, k: Key)
    requires Inv(s) && Effect(s, e, s') && OnceInv(s)
    ensures OnceMember(s'.hub.members, s'.subs, k)
  {
    hide Inv, FeedEffect, ThreadsEffect, SnapEffect, Held, OnceNamed, OnceClient;
    var pc := Acting(s, e);
    if e.Run? && e.thread < |s.threads| {
      OfThread(s, e.thread);
    }
    hide FeedThreadOk, PublisherOk, StreamerOk, CloserOk;
    assert OnceMember(s.hub.members, s.subs, k);
    if k in s'.hub.members && s'.hub.members[k] < |s.subs| {
      var r := s'.hub.members[k];
      assert SubEffect(s, pc, r, s.subs[r], s'.subs[r]);
      assert OnceSub(s.feed, s.subs[r]);
    }
  }

  /** Publish copies members that joined once before the update is copied. */
  lemma CopiedMembers(s: State, u: nat, t: nat, q: nat)
    requires Inv(s) && OnceInv(s) && t < |s.threads| && s.threads[t] == Copy(u) && u < |s.feed.updates| && q < |s.subs|
    requires IsMember(s.hub.members, s.feed.updates[u].symbol, q)
    ensures s.subs[q].past.joins >= 1 && u !in s.subs[q].past.before
    ensures s.subs[q].past.joins == 1 ==> s.subs[q].past.topic == Some(s.feed.updates[u].symbol)
  {
    hide Inv, OnceNamed, OnceClient, OnceSub;
    var k :| k in s.hub.members && k.symbol == s.feed.updates[u].symbol && s.hub.members[k] == q;
    assert OnceMember(s.hub.members, s.subs, k);
    OfThread(s, t);
    OfSub(s, q);
  }

  /** A thread that moves on names subscribers that it named before, or has just copied. */
  lemma OnceNamedMoved(s: State, t: nat, pc': Thread, q: nat)
    requires Inv(s) && OnceInv(s) && t < |s.threads| && GoesOn(s, s.threads[t], pc') && q < |s.subs|
    ensures OnceNamed(s.feed, pc', q, s.subs[q])
  {
    hide Inv, OnceMember, OnceClient, OnceSub;
    assert OnceNamed(s.feed, s.threads[t], q, s.subs[q]);
    if !s.threads[t].Copy? {
      ShortensMembers(Named(s.threads[t]), Named(pc'));
      ShortensMembers(Pending(s.threads[t]), Pending(pc'));
    } else if q in Named(pc') {
      hide OnceInv;
      CopiedMembers(s, s.threads[t].update, t, q);
    }
  }

  lemma OnceNamedAfter(s: State, e: Event, s': State, t: nat, q: nat)
    requires Inv(s) && Effect(s, e, s') && OnceInv(s) && t < |s'.threads| && q < |s'.subs|
    ensures OnceNamed(s'.feed, s'.threads[t], q, s'.subs[q])
  {
    hide Inv, MembersEffect, OnceInv, GoesOn;
    if t < |s.threads| && q < |s.subs| {
      var pc := Acting(s, e);
      if e.Run? && e.thread == t {
        OnceNamedMoved(s, t, s'.threads[t], q);
      } else {
        OnceNamedOf(s, t, q);
      }
      assert SubEffect(s, pc, q, s.subs[q], s'.subs[q]);
      hide SubEffect, SubsEffect, FeedEffect, ThreadsEffect, OnceNamed;
      CurrentInRange(s, t);
      OnceNamedFrame(s, e, s', t, q);
    } else if t < |s.threads| {
      NamedExists(s, e, s', t, q);
    }
  }

  lemma OnceNamedOf(s: State, t: nat, q: nat)
    requires OnceInv(s) && t < |s.threads| && q < |s.subs|
    ensures OnceNamed(s.feed, s.threads[t], q, s.subs[q])
  {
  }

  lemma CurrentInRange(s: State, t: nat)
    requires Inv(s) && t < |s.threads|
    ensures Current(s.threads[t]).Some? ==> Current(s.threads[t]).value < |s.feed.updates|
    ensures forall q :: q in Named(s.threads[t]) ==> q < |s.subs|
  {
    hide Inv;
    OfThread(s, t);
  }

  lemma OnceNamedFrame(s: State, e: Event, s': State, t: nat, q: nat)
    requires Effect(s, e, s') && t < |s.threads| && q < |s.subs|
    requires OnceNamed(s.feed, s'.threads[t], q, s.subs[q])
    requires Current(s.threads[t]).Some? ==> Current(s.threads[t]).value < |s.feed.updates|
    ensures OnceNamed(s'.feed, s'.threads[t], q, s'.subs[q])
  {
    hide MembersEffect, SnapEffect, Held;
    var pc := Acting(s, e);
    assert SubEffect(s, pc, q, s.subs[q], s'.subs[q]);
  }

  /** A subscriber that is only now created is named by no thread. */
  lemma NamedExists(s: State, e: Event, s': State, t: nat, q: nat)
    requires Inv(s) && Effect(s, e, s') && t < |s.threads| && q >= |s.subs|
    ensures q !in Named(s'.threads[t])
  {
    hide Inv, SubsEffect, MembersEffect, FeedEffect;
    CurrentInRange(s, t);
    if e.Run? && e.thread == t && !s.threads[t].Copy? {
      ShortensMembers(Named(s.threads[t]), Named(s'.threads[t]));
    }
    if e.Run? && e.thread == t && s.threads[t].Copy? && q in Named(s'.threads[t]) {
      assert IsMember(s.hub.members, s.feed.updates[s.threads[t].update].symbol, q);
      var k :| k in s.hub.members && s.hub.members[k] == q;
      OfMember(s, k);
    }
  }

  lemma OnceClientAfter(s: State, e: Event, s': State, t: nat)
    requires Inv(s) && Effect(s, e, s') && OnceInv(s) && t < |s'.threads|
    ensures OnceClient(s'.subs, s'.threads[t])
  {
    hide Inv, MembersEffect, FeedEffect, SnapEffect, Held, OnceNamed, OnceMember, OnceSub;
    if t < |s.threads| {
      OfThread(s, t);
      hide FeedThreadOk, PublisherOk, CloserOk;
      assert OnceClient(s.subs, s.threads[t]);
      var pc, pc' := s.threads[t], s'.threads[t];
      if (pc'.Enroll? || pc'.Snapshot? || pc'.Drain?) && pc'.sub < |s.subs| {
        assert SubEffect(s, Acting(s, e), pc'.sub, s.subs[pc'.sub], s'.subs[pc'.sub]);
        if e.Run? && e.thread < |s.threads| {
          OfThread(s, e.thread);
        }
      }
    }
  }

  lemma UnjoinedNotHeld(s: State, r: nat)
    requires OnceInv(s) && Held(s.hub.members, r) && r < |s.subs|
    ensures s.subs[r].past.joins > 0
  {
    hide OnceNamed, OnceClient, OnceSub;
    var k :| k in s.hub.members && s.hub.members[k] == r;
    assert OnceMember(s.hub.members, s.subs, k);
  }

  /** A subscriber that has not joined was offered nothing and is not flagged. */
  lemma UnjoinedAfter(s: State, e: Event, s': State, r: nat)
    requires Inv(s) && SubsEffect(s, Acting(s, e), s'.subs) && OnceInv(s) && r < |s.subs| && s'.subs[r].past.joins == 0
    ensures s'.subs[r].past.offers == [] && s'.subs[r].dropped == 0 && !s'.subs[r].flag
  {
    hide Inv, SnapEffect, OnceClient, OnceNamed;
    var pc, a, b := Acting(s, e), s.subs[r], s'.subs[r];
    assert SubEffect(s, pc, r, a, b);
    assert OnceSub(s.feed, a);
    if Held(s.hub.members, r) {
      UnjoinedNotHeld(s, r);
    }
    if Head(pc) == Some(r) {
      CurrentInRange(s, e.thread);
      OnceNamedOf(s, e.thread, r);
      hide OnceInv;
    }
  }

  /** What a subscriber that joined once is offered belongs to its topic. */
  lemma OffersAfter(s: State, e: Event, s': State, r: nat, i: nat)
    requires Inv(s) && SubsEffect(s, Acting(s, e), s'.subs) && OnceInv(s) && r < |s.subs| && s'.subs[r].past.joins == 1
    requires i < |s'.subs[r].past.offers| && s'.subs[r].past.offers[i].update < |s.feed.updates|
    ensures s'.subs[r].past.topic == Some(s.feed.updates[s'.subs[r].past.offers[i].update].symbol)
  {
    hide Inv, SnapEffect, OnceClient, OnceMember, Held;
    var pc, a, b := Acting(s, e), s.subs[r], s'.subs[r];
    assert SubEffect(s, pc, r, a, b);
    assert OnceSub(s.feed, a);
    if Head(pc) == Some(r) {
      OnceNamedOf(s, e.thread, r);
    }
    hide OnceInv, SubsEffect, OnceNamed;
  }

  lemma OnceSubAfter(s: State, e: Event, s': State, r: nat)
    requires Inv(s) && Effect(s, e, s') && OnceInv(s) && r < |s'.subs|
    ensures OnceSub(s'.feed, s'.subs[r])
  {
    hide Inv, OnceInv, MembersEffect, ThreadsEffect, SubEffect;
    if r < |s.subs| {
      var b := s'.subs[r];
      if b.past.joins == 0 {
        UnjoinedAfter(s, e, s', r);
      }
      if b.past.joins == 1 {
        forall i | 0 <= i < |b.past.offers| && b.past.offers[i].update < |s'.feed.updates|
          ensures b.past.topic == Some(s'.feed.updates[b.past.offers[i].update].symbol)
        {
          OfferExists(s, e, s', r, i);
          OffersAfter(s, e, s', r, i);
        }
      }
    }
  }

  /** Only updates that have arrived are offered. */
  lemma OfferExists(s: State, e: Event, s': State, r: nat, i: nat)
    requires Inv(s) && SubsEffect(s, Acting(s, e), s'.subs) && r < |s.subs| && i < |s'.subs[r].past.offers|
    ensures s'.subs[r].past.offers[i].update < |s.feed.updates|
  {
    hide Inv, SnapEffect, JoinEffect, Held;
    var pc, a, b := Acting(s, e), s.subs[r], s'.subs[r];
    assert SubEffect(s, pc, r, a, b);
    if i < |a.past.offers| {
      OfSub(s, r);
      OfAll(s);
    } else {
      CurrentInRange(s, e.thread);
    }
    hide SubOk, FeedOk, SubsEffect;
  }

  lemma OnceStep(c: Config, s: State, e: Event)
    requires Inv(s) && OnceInv(s) && WellFormed(s) && Enabled(s, e)
    ensures OnceInv(Step(c, s, e))
  {
    hide *;
    var s' := Step(c, s, e);
    if s'.status == s.status {
      StepEffects(c, s, e);
      OnceAfter(s, e, s');
    } else {
      CallsDoNotPanic(c, s, e);
      PanicKeepsState(c, s, e.thread, e.order, e.ok);
      OnceIgnoresStatus(s, s');
    }
  }

  lemma OnceIgnoresStatus(s: State, s': State)
    requires OnceInv(s) && s' == s.(status := s'.status)
    ensures OnceInv(s')
  {
    hide OnceMember, OnceNamed, OnceClient, OnceSub;
  }

  lemma OnceAfter(s: State, e: Event, s': State)
    requires Inv(s) && Effect(s, e, s') && OnceInv(s)
    ensures OnceInv(s')
  {
    hide Inv, Effect, OnceMember, OnceNamed, OnceClient, OnceSub;
    forall k
      ensures OnceMember(s'.hub.members, s'.subs, k)
    {
      OnceMemberAfter(s, e, s', k);
    }
    forall t, q | 0 <= t < |s'.threads| && 0 <= q < |s'.subs|
      ensures OnceNamed(s'.feed, s'.threads[t], q, s'.subs[q])
    {
      OnceNamedAfter(s, e, s', t, q);
    }
    forall t | 0 <= t < |s'.threads|
      ensures OnceClient(s'.subs, s'.threads[t])
    {
      OnceClientAfter(s, e, s', t);
    }
    forall r | 0 <= r < |s'.subs|
      ensures OnceSub(s'.feed, s'.subs[r])
    {
      OnceSubAfter(s, e, s', r);
    }
  }

  lemma {:induction false} OnceRun(c: Config, s: State, es: seq<Event>)
    requires Inv(s) && OnceInv(s) && Exec(c, s, es).Some?
    ensures OnceInv(Exec(c, s, es).value)
    decreases |es|
  {
    hide Inv, OnceInv, WellFormed, Enabled, Step;
    if es != [] {
      StepKeepsInv(c, s, es[0]);
      OnceStep(c, s, es[0]);
      OnceRun(c, Step(c, s, es[0]), es[1..]);
    }
  }

  // ---------------------------------------------------------------- joining once is joining open

  lemma OnceMayJoin(s: State, symbol: string, r: nat)
    requires Inv(s) && OnceInv(s) && r < |s.subs| && s.subs[r].past.joins == 0
    ensures MayJoin(s, symbol, r)
  {
    hide Inv, OnceNamed, OnceClient;
    OfSub(s, r);
    assert OnceSub(s.feed, s.subs[r]);
    forall k | k in s.hub.members
      ensures s.hub.members[k] != r
    {
      assert OnceMember(s.hub.members, s.subs, k);
    }
  }

  /** A run in which every subscriber joins once keeps the join rule. */
  lemma {:induction false} OnceIsOpen(c: Config, s: State, es: seq<Event>)
    requires Inv(s) && OnceInv(s) && Obeys(c, JoinsOnce, s, es)
    ensures Obeys(c, JoinsOpen, s, es)
    decreases |es|
  {
    hide Inv, OnceInv, WellFormed, Enabled, Step, MayJoin;
    if es != [] && WellFormed(s) && Enabled(s, es[0]) {
      var pc := Acting(s, es[0]);
      if pc.Insert? {
        InsertsExisting(s, es[0]);
        OnceMayJoin(s, pc.symbol, pc.sub);
      }
      StepKeepsInv(c, s, es[0]);
      OnceStep(c, s, es[0]);
      OnceIsOpen(c, Step(c, s, es[0]), es[1..]);
    }
  }

  lemma InsertsExisting(s: State, e: Event)
    requires Inv(s) && Acting(s, e).Insert?
    ensures Acting(s, e).sub < |s.subs|
    ensures s.subs[Acting(s, e).sub].stream.Some? ==> s.subs[Acting(s, e).sub].past.joins == 0
  {
    hide Inv;
    OfThread(s, e.thread);
  }

  /** Every thread that joins serves StreamOrderBook. */
  ghost predicate StreamsJoin(s: State) {
    forall t :: 0 <= t < |s.threads| && (s.threads[t].Join? || s.threads[t].Insert?) ==>
      s.threads[t].sub < |s.subs| && s.subs[s.threads[t].sub].stream.Some?
  }

  lemma StreamsJoinAfter(s: State, e: Event, s': State)
    requires Effect(s, e, s') && StreamsJoin(s) && !e.Subscribe?
    ensures StreamsJoin(s')
  {
    hide MembersEffect, FeedEffect, JoinEffect, SnapEffect, Held;
    forall t | 0 <= t < |s'.threads| && (s'.threads[t].Join? || s'.threads[t].Insert?)
      ensures s'.threads[t].sub < |s'.subs| && s'.subs[s'.threads[t].sub].stream.Some?
    {
      if t < |s.threads| {
        var r := s.threads[t].sub;
        assert SubEffect(s, Acting(s, e), r, s.subs[r], s'.subs[r]);
      }
    }
  }

  lemma {:induction false} StreamsObey(c: Config, s: State, es: seq<Event>)
    requires Inv(s) && StreamsJoin(s) && Obeys(c, OnlyStreams, s, es)
    ensures Obeys(c, JoinsOnce, s, es)
    decreases |es|
  {
    hide Inv, WellFormed, Enabled, Step, StreamsJoin;
    if es != [] && WellFormed(s) && Enabled(s, es[0]) {
      var e, s' := es[0], Step(c, s, es[0]);
      if Acting(s, e).Insert? {
        InsertsExisting(s, e);
        StreamsJoinAt(s, e.thread);
      }
      StepKeepsInv(c, s, e);
      if s'.status == s.status {
        StepEffects(c, s, e);
        hide Effect;
        StreamsJoinAfter(s, e, s');
      } else {
        CallsDoNotPanic(c, s, e);
        PanicKeepsState(c, s, e.thread, e.order, e.ok);
        StreamsJoinStatus(s, s');
      }
      StreamsObey(c, s', es[1..]);
    }
  }

  lemma StreamsJoinAt(s: State, t: nat)
    requires StreamsJoin(s) && t < |s.threads| && s.threads[t].Insert?
    ensures s.threads[t].sub < |s.subs| && s.subs[s.threads[t].sub].stream.Some?
  {
  }

  lemma StreamsJoinStatus(s: State, s': State)
    requires StreamsJoin(s) && s' == s.(status := s'.status)
    ensures StreamsJoin(s')
  {
  }

  /** The streaming server alone never closes a channel twice, whatever ids its subscribers carry. */
  lemma StreamsNeverCloseTwice(c: Config, es: seq<Event>, s: State)
    requires Reaches(c, es, s) && Obeys(c, OnlyStreams, Init, es)
    ensures !s.status.ClosedTwice?
  {
    InitInv();
    hide Inv;
    StreamsObey(c, Init, es);
    OnceIsOpen(c, Init, es);
    NeverClosedTwice(c, es, s);
  }

  // ---------------------------------------------------------------- slow consumers

  /** Thread `pc` is on its way to remove member `k`, subscriber `r`, for being slow. */
  ghost predicate Evicts(f: Feed, pc: Thread, k: Key, r: nat) {
    || ((pc.Tally? || pc.Check?) && Head(pc) == Some(r))
    || ((pc.Leave? || pc.Mark?) && pc.key == k && pc.next.Resume? && pc.next.update < |f.updates| &&
        f.updates[pc.next.update].symbol == k.symbol)
  }

  ghost predicate SlowOk(c: Config, s: State, k: Key) {
    k in s.hub.members && s.hub.members[k] < |s.subs| ==>
      var sub := s.subs[s.hub.members[k]];
      sub.past.joins == 1 && sub.dropped > c.slowThreshold && !sub.flag ==>
        exists t :: 0 <= t < |s.threads| && Evicts(s.feed, s.threads[t], k, s.hub.members[k])
  }

  ghost predicate SlowInv(c: Config, s: State) { forall k :: SlowOk(c, s, k) }

  /** The publisher that finds a member over the threshold removes it under the key that holds it. */
  lemma CheckEvicts(c: Config, s: State, t: nat, k: Key)
    requires Inv(s) && OnceInv(s) && t < |s.threads| && s.threads[t].Check?
    requires k in s.hub.members && s.hub.members[k] < |s.subs| && Head(s.threads[t]) == Some(s.hub.members[k])
    requires s.subs[s.hub.members[k]].past.joins == 1 && s.subs[s.hub.members[k]].dropped > c.slowThreshold
    ensures var pc := s.threads[t];
            && pc.update < |s.feed.updates| && pc.rest != [] && pc.rest[0] < |s.subs|
            && DoCheck(c, s, t, pc.update, pc.rest) == Goto(s, t, Leave(k, Resume(pc.update, pc.rest[1..])))
            && s.feed.updates[pc.update].symbol == k.symbol
  {
    var r := s.hub.members[k];
    assert OnceMember(s.hub.members, s.subs, k);
    OnceNamedOf(s, t, r);
    hide Inv, OnceInv;
    OfThread(s, t);
    OfMember(s, k);
    hide FeedThreadOk, PublisherOk, CloserOk, StreamerOk;
  }

  /** A thread on its way to remove a member does so, or is still on its way. */
  lemma EvictorGoesOn(c: Config, s: State, e: Event, k: Key)
    requires e.Run? && e.thread < |s.threads| && k in s.hub.members && s.hub.members[k] < |s.subs|
    requires Evicts(s.feed, s.threads[e.thread], k, s.hub.members[k])
    requires s.subs[s.hub.members[k]].past.joins == 1 && s.subs[s.hub.members[k]].dropped > c.slowThreshold
    requires Inv(s) && OnceInv(s) && WellFormed(s) && Enabled(s, e)
    ensures var s', r := Step(c, s, e), s.hub.members[k];
            e.thread < |s'.threads| && r < |s'.subs| && (Evicts(s'.feed, s'.threads[e.thread], k, r) || s'.subs[r].flag)
  {
    hide Inv, OnceInv, WellFormed, Enabled, Step, DoCheck;
    RemovalStep(c, s, e);
    OfMember(s, k);
    if s.threads[e.thread].Check? {
      CheckEvicts(c, s, e.thread, k);
    }
  }

  /** A member that joined once and is over the threshold was a member before. */
  lemma SlowWasMember(c: Config, s: State, e: Event, s': State, k: Key)
    requires Inv(s) && OnceInv(s) && Effect(s, e, s') && k in s'.hub.members && s'.hub.members[k] < |s'.subs|
    requires s'.subs[s'.hub.members[k]].past.joins == 1 && s'.subs[s'.hub.members[k]].dropped > c.slowThreshold
    requires !s'.subs[s'.hub.members[k]].flag
    ensures k in s.hub.members && s.hub.members[k] == s'.hub.members[k] && s.hub.members[k] < |s.subs|
    ensures var a, b := s.subs[s.hub.members[k]], s'.subs[s.hub.members[k]];
            a.past.joins == 1 && !a.flag && (b.dropped == a.dropped ||
                                             (Acting(s, e).Drop? && Head(Acting(s, e)) == Some(s.hub.members[k])))
  {
    hide Inv, FeedEffect, ThreadsEffect, SnapEffect, OnceNamed, OnceClient;
    var pc, r := Acting(s, e), s'.hub.members[k];
    if e.Run? && e.thread < |s.threads| {
      OfThread(s, e.thread);
    }
    hide FeedThreadOk, PublisherOk, StreamerOk, CloserOk;
    if r < |s.subs| {
      assert SubEffect(s, pc, r, s.subs[r], s'.subs[r]);
      assert OnceSub(s.feed, s.subs[r]);
    }
  }

  /** The thread that counts a drop is on its way to check it. */
  lemma DropEvicts(c: Config, s: State, e: Event, k: Key, r: nat)
    requires e.Run? && e.thread < |s.threads| && s.threads[e.thread].Drop? && Head(s.threads[e.thread]) == Some(r)
    requires Inv(s) && WellFormed(s) && Enabled(s, e)
    ensures var s' := Step(c, s, e); e.thread < |s'.threads| && Evicts(s'.feed, s'.threads[e.thread], k, r)
  {
    hide Inv, WellFormed, Enabled, Step;
    RemovalStep(c, s, e);
  }

  lemma EvictorStays(s: State, e: Event, s': State, t: nat, k: Key, r: nat)
    requires Effect(s, e, s') && t < |s.threads| && !(e.Run? && e.thread == t) && Evicts(s.feed, s.threads[t], k, r)
    ensures t < |s'.threads| && Evicts(s'.feed, s'.threads[t], k, r)
  {
    hide SubsEffect, MembersEffect, GoesOn;
  }

  lemma SlowAfter(c: Config, s: State, e: Event, k: Key)
    requires Inv(s) && OnceInv(s) && WellFormed(s) && Enabled(s, e) && SlowInv(c, s) && Step(c, s, e).status == s.status
    ensures SlowOk(c, Step(c, s, e), k)
  {
    hide Inv, OnceInv, WellFormed, Enabled, Step, Effect, Evicts, Head;
    var s' := Step(c, s, e);
    StepEffects(c, s, e);
    if !SlowOk(c, s', k) {
      var r := s'.hub.members[k];
      SlowWasMember(c, s, e, s', k);
      if s'.subs[r].dropped != s.subs[r].dropped {
        DropEvicts(c, s, e, k, r);
      } else {
        assert SlowOk(c, s, k);
        var t :| 0 <= t < |s.threads| && Evicts(s.feed, s.threads[t], k, r);
        if e.Run? && e.thread == t {
          EvictorGoesOn(c, s, e, k);
        } else {
          EvictorStays(s, e, s', t, k, r);
        }
      }
    }
  }

  lemma SlowStep(c: Config, s: State, e: Event)
    requires Inv(s) && OnceInv(s) && WellFormed(s) && Enabled(s, e) && SlowInv(c, s)
    ensures SlowInv(c, Step(c, s, e))
  {
    hide Inv, OnceInv, WellFormed, Enabled, Step, SlowOk;
    var s' := Step(c, s, e);
    if s'.status == s.status {
      forall k
        ensures SlowOk(c, s', k)
      {
        SlowAfter(c, s, e, k);
      }
    } else {
      CallsDoNotPanic(c, s, e);
      PanicKeepsState(c, s, e.thread, e.order, e.ok);
      SlowIgnoresStatus(c, s, s');
    }
  }

  lemma SlowIgnoresStatus(c: Config, s: State, s': State)
    requires SlowInv(c, s) && s' == s.(status := s'.status)
    ensures SlowInv(c, s')
  {
    hide Evicts;
    forall k
      ensures SlowOk(c, s', k)
    {
      assert SlowOk(c, s, k);
    }
  }

  lemma {:induction false} SlowRun(c: Config, s: State, es: seq<Event>)
    requires Inv(s) && OnceInv(s) && SlowInv(c, s) && Exec(c, s, es).Some?
    ensures SlowInv(c, Exec(c, s, es).value)
    decreases |es|
  {
    hide Inv, OnceInv, SlowInv, WellFormed, Enabled, Step;
    if es != [] {
      StepKeepsInv(c, s, es[0]);
      OnceStep(c, s, es[0]);
      SlowStep(c, s, es[0]);
      SlowRun(c, Step(c, s, es[0]), es[1..]);
    }
  }

  /** No callback of the symbol is under way. */
  ghost predicate Quiet(s: State, symbol: string) {
    forall t :: 0 <= t < |s.threads| ==> !Publishing(s, t, symbol)
  }

  /** In every run: when no publish of a topic is under way, every member that joined once has dropped at most the
      threshold, or is being removed. */
  lemma NoSlowMember(c: Config, es: seq<Event>, s: State, k: Key)
    requires Reaches(c, es, s) && Quiet(s, k.symbol) && k in s.hub.members
    ensures s.hub.members[k] < |s.subs|
    ensures var sub := s.subs[s.hub.members[k]]; sub.past.joins == 1 && !sub.flag ==> sub.dropped <= c.slowThreshold
  {
    InitInv();
    ReachedInv(c, es, s);
    assert SlowInv(c, Init) && OnceInv(Init);
    hide Inv, OnceInv, SlowInv, Reaches, Quiet;
    assert Exec(c, Init, es) == Some(s) by { hide *; ReachesExec(c, es, s); }
    OnceRun(c, Init, es);
    SlowRun(c, Init, es);
    OfMember(s, k);
    QuietMember(c, s, k);
  }

  lemma ReachesExec(c: Config, es: seq<Event>, s: State)
    requires Reaches(c, es, s)
    ensures Exec(c, Init, es) == Some(s)
  {
  }

  lemma EvictorPublishes(s: State, k: Key, t: nat)
    requires Inv(s) && OnceInv(s) && k in s.hub.members && s.hub.members[k] < |s.subs|
    requires s.subs[s.hub.members[k]].past.joins == 1
    requires t < |s.threads| && Evicts(s.feed, s.threads[t], k, s.hub.members[k])
    ensures Publishing(s, t, k.symbol)
  {
    hide Inv, OnceClient, OnceSub;
    assert OnceMember(s.hub.members, s.subs, k);
    OnceNamedOf(s, t, s.hub.members[k]);
    CurrentInRange(s, t);
  }

  lemma QuietMember(c: Config, s: State, k: Key)
    requires Inv(s) && OnceInv(s) && SlowInv(c, s) && Quiet(s, k.symbol) && k in s.hub.members
    requires s.hub.members[k] < |s.subs|
    ensures var sub := s.subs[s.hub.members[k]]; sub.past.joins == 1 && !sub.flag ==> sub.dropped <= c.slowThreshold
  {
    hide Inv, OnceInv, Evicts, Publishing;
    var r := s.hub.members[k];
    assert SlowOk(c, s, k);
    forall t | 0 <= t < |s.threads| && s.subs[r].past.joins == 1
      ensures !Evicts(s.feed, s.threads[t], k, r)
    {
      if Evicts(s.feed, s.threads[t], k, r) {
        EvictorPublishes(s, k, t);
      }
    }
  }
}
