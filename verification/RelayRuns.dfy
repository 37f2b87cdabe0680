/** Runs of the relay from any state, and what one step can change. */
module RelayRuns {
  import opened Relay
  import opened RelayInvariant
  import opened RelaySteps

  /** The state after a list of events; none when an event is not possible where it comes. */
  ghost function Exec(c: Config, s: State, es: seq<Event>): Option<State>
    decreases |es|
  {
    if es == [] then Some(s)
    else if WellFormed(s) && Enabled(s, es[0]) then Exec(c, Step(c, s, es[0]), es[1..])
    else None
  }

  /** A panic changes nothing but the status. */
  lemma StepKeepsInv(c: Config, s: State, e: Event)
    requires Inv(s) && WellFormed(s) && Enabled(s, e)
    ensures Inv(Step(c, s, e))
  {
    hide *;
    if e.Run? {
      RunIs(c, s, e);
      ThreadKeepsInv(c, s, e.thread, e.order, e.ok);
      var s' := Step(c, s, e);
      if s'.status != s.status {
        PanicKeepsState(c, s, e.thread, e.order, e.ok);
        InvIgnoresStatus(s, s');
      }
    } else {
      EventKeepsInv(c, s, e);
    }
  }

  lemma RunIs(c: Config, s: State, e: Event)
    requires WellFormed(s) && Enabled(s, e) && e.Run?
    ensures e.thread < |s.threads| && Runnable(s, s.threads[e.thread], e.order)
    ensures Step(c, s, e) == RunThread(c, s, e.thread, e.order, e.ok)
  {
    hide WellFormed, RunThread, Runnable;
  }

  lemma PanicKeepsState(c: Config, s: State, t: nat, order: seq<nat>, ok: bool)
    requires WellFormed(s) && t < |s.threads| && RunThread(c, s, t, order, ok).status != s.status
    ensures RunThread(c, s, t, order, ok) == s.(status := RunThread(c, s, t, order, ok).status)
  {
    hide WellFormed;
  }

  lemma InvIgnoresStatus(s: State, s': State)
    requires Inv(s) && s' == s.(status := s'.status)
    ensures Inv(s')
  {
    hide FeedThreadOk, PublisherOk, CloserOk, StreamerOk, InRange, Reached, SubOk, DropsOk, FeedOk, LocksOk,
    TotalDropped, Count;
    forall t | 0 <= t < |s'.threads|
      ensures ThreadOk(s', t, s'.threads[t])
    {
      assert ThreadOk(s, t, s.threads[t]);
    }
    forall key
      ensures MemberOk(s', key)
    {
      assert MemberOk(s, key);
    }
  }

  /** The invariant holds after every run from the empty relay, whatever the callers do. */
  lemma {:induction false} RunKeepsInv(c: Config, s: State, es: seq<Event>)
    requires Inv(s) && Exec(c, s, es).Some?
    ensures Inv(Exec(c, s, es).value)
    decreases |es|
  {
    hide Inv, WellFormed, Enabled, Step;
    if es != [] {
      StepKeepsInv(c, s, es[0]);
      RunKeepsInv(c, Step(c, s, es[0]), es[1..]);
    }
  }

  lemma InitInv()
    ensures Inv(Init)
  {
    assert Count([], Tallying) == 0 && Count([], Enrolling) == 0 && TotalDropped([]) == 0;
  }

  ghost predicate Reaches(c: Config, es: seq<Event>, s: State) { Exec(c, Init, es) == Some(s) }

  lemma ReachedInv(c: Config, es: seq<Event>, s: State)
    requires Reaches(c, es, s)
    ensures Inv(s)
  {
    InitInv();
    hide Inv;
    RunKeepsInv(c, Init, es);
  }

  // ---------------------------------------------------------------- accounting

  lemma {:induction false} EveryOfferCounts(offers: seq<Offer>)
    ensures |Accepted(offers)| + Rejected(offers) == |offers|
  {
    if offers != [] {
      EveryOfferCounts(offers[..|offers| - 1]);
    }
  }

  lemma {:induction false} CountZero(threads: seq<Thread>, kind: Kind)
    requires forall t :: 0 <= t < |threads| ==> threads[t].Done?
    ensures Count(threads, kind) == 0
  {
    if threads != [] {
      CountZero(threads[..|threads| - 1], kind);
    }
  }

  /** After every run: what a reader has received and what is still queued are exactly the accepted offers, in
      the order in which they were made; every offer is accepted, counted as dropped, or about to be counted. */
  lemma SubscriberAccounting(c: Config, es: seq<Event>, s: State, r: nat)
    requires Reaches(c, es, s) && r < |s.subs|
    ensures s.subs[r].past.taken + s.subs[r].queue == Accepted(s.subs[r].past.offers)
    ensures |s.subs[r].past.taken| + |s.subs[r].queue| + s.subs[r].dropped + Count(s.threads, Dropping(r)) ==
              |s.subs[r].past.offers|
    ensures forall i, j :: 0 <= i < j < |s.subs[r].past.offers| ==>
              s.subs[r].past.offers[i].update != s.subs[r].past.offers[j].update
  {
    ReachedInv(c, es, s);
    hide Inv, Count;
    OfSub(s, r);
    EveryOfferCounts(s.subs[r].past.offers);
  }

  /** After every run the hub's drop counter lags the subscribers' counters by the drops that a publisher has yet
      to count, and its gauge lags the membership by the joins yet to be counted; joins that displaced a member
      of the same id are counted and never taken back. */
  lemma HubAccounting(c: Config, es: seq<Event>, s: State)
    requires Reaches(c, es, s)
    ensures s.hub.dropped + Count(s.threads, Tallying) == TotalDropped(s.subs)
    ensures s.hub.active + Count(s.threads, Enrolling) == |s.hub.members| + s.hub.overwrites
  {
    ReachedInv(c, es, s);
    hide Inv, Count;
    OfAll(s);
  }

  /** When every call has returned the counters are exact. */
  lemma CountersAtRest(c: Config, es: seq<Event>, s: State)
    requires Reaches(c, es, s) && forall t :: 0 <= t < |s.threads| ==> s.threads[t].Done?
    ensures s.hub.dropped == TotalDropped(s.subs)
    ensures s.hub.active == |s.hub.members| + s.hub.overwrites
    ensures forall r :: 0 <= r < |s.subs| ==>
              |s.subs[r].past.taken| + |s.subs[r].queue| + s.subs[r].dropped == |s.subs[r].past.offers|
  {
    hide Reaches;
    HubAccounting(c, es, s);
    CountZero(s.threads, Tallying);
    CountZero(s.threads, Enrolling);
    forall r | 0 <= r < |s.subs|
      ensures |s.subs[r].past.taken| + |s.subs[r].queue| + s.subs[r].dropped == |s.subs[r].past.offers|
    {
      SubscriberAccounting(c, es, s, r);
      CountZero(s.threads, Dropping(r));
    }
  }

  // ---------------------------------------------------------------- no gap between snapshot and stream

  predicate Dropped(sub: Sub, u: nat) { Offer(u, false) in sub.past.offers }

  lemma {:induction false} AcceptedIff(offers: seq<Offer>, u: nat)
    ensures u in Accepted(offers) <==> Offer(u, true) in offers
  {
    if offers != [] {
      var n := |offers| - 1;
      AcceptedIff(offers[..n], u);
      assert offers == offers[..n] + [offers[n]];
    }
  }

  /** The callback that brought the update has returned. */
  ghost predicate Returned(s: State, u: nat)
    requires u < |s.feed.updates|
  {
    s.feed.updates[u].owner < |s.threads| && Current(s.threads[s.feed.updates[u].owner]) != Some(u)
  }

  /** No gap, in every run: a book of the topic that was written after a member read its snapshot, and whose
      callback has returned, was handed to that member or recorded as dropped, unless the member is being
      removed; so was every update that was published after the member joined, snapshot or not. */
  lemma NoGap(c: Config, es: seq<Event>, s: State, key: Key, r: nat, u: nat)
    requires Reaches(c, es, s) && key in s.hub.members && s.hub.members[key] == r && r < |s.subs|
    requires u < |s.feed.updates| && s.feed.updates[u].symbol == key.symbol && Returned(s, u)
    ensures u in s.subs[r].past.before || u in s.subs[r].past.taken + s.subs[r].queue || Dropped(s.subs[r], u) ||
              s.subs[r].flag
    ensures s.subs[r].past.snapAt.Some? ==> s.subs[r].past.snapAt.value <= |s.feed.writes|
    ensures s.subs[r].past.snapAt.Some? && s.feed.updates[u].book.Some? &&
              u !in s.feed.writes[..s.subs[r].past.snapAt.value] ==>
              u in s.subs[r].past.taken + s.subs[r].queue || Dropped(s.subs[r], u) || s.subs[r].flag
  {
    ReachedInv(c, es, s);
    assert MemberOk(s, key);
    hide Inv;
    OfSub(s, r);
    OfAll(s);
    var sub := s.subs[r];
    assert UpdateOk(s.feed, s.threads, u);
    assert Reached(s.feed, s.threads, sub, r, u);
    if Offered(sub, u) {
      var i :| 0 <= i < |sub.past.offers| && sub.past.offers[i].update == u;
      assert sub.past.offers[i] == Offer(u, sub.past.offers[i].accepted);
      AcceptedIff(sub.past.offers, u);
    }
  }
}
