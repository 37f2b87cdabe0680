/** A streaming client that has caught up shows the cached book, if no book of its topic comes while an earlier one
    is yet to be offered to it. */
module RelayFresh {
  import opened Relay
  import opened RelayInvariant
  import opened RelaySteps
  import opened RelayRuns
  import opened RelayEffects
  import opened RelayRules
  import opened RelayLifecycle
  import opened RelayOnce

  // ---------------------------------------------------------------- what keeps the order

  ghost predicate HasBook(f: Feed, u: nat) { u < |f.updates| && f.updates[u].book.Some? }

  /** No later update of the topic has a book. */
  ghost predicate NewestBook(f: Feed, x: string, u: nat) {
    forall v :: 0 <= v < |f.updates| && HasBook(f, v) && f.updates[v].symbol == x ==> v <= u
  }

  /** What may still be offered to the client is the newest book of the topic. */
  ghost predicate BehindNewest(s: State, t: nat, r: nat, x: string)
    requires t < |s.threads|
  {
    Behind(s, t, r, x) ==> NewestBook(s.feed, x, Current(s.threads[t]).value)
  }

  /** The cached update is the newest that was written for the topic. */
  ghost predicate CachesNewest(f: Feed, x: string) {
    x in f.cache ==>
      && f.cache[x] < |f.updates| && f.updates[f.cache[x]].symbol == x
      && forall w :: w in f.writes && w < |f.updates| && f.updates[w].symbol == x ==> w <= f.cache[x]
  }

  ghost predicate BooksMatch(f: Feed, x: string) {
    forall u :: 0 <= u < |f.updates| && f.updates[u].book.Some? ==>
      (f.updates[u].book.value.symbol == x <==> f.updates[u].symbol == x)
  }

  /** Books are offered in order, and after those whose members were copied before the subscriber joined. */
  ghost predicate BooksOrdered(f: Feed, past: Past, x: string) {
    past.joins == 1 && past.topic == Some(x) ==>
      && (forall i, j ::
          0 <= i < j < |past.offers| && HasBook(f, past.offers[i].update) &&
          HasBook(f, past.offers[j].update) ==>
            past.offers[i].update < past.offers[j].update)
      && (forall v, i ::
          v in past.before && BookOfTopic(f, v, x) && 0 <= i < |past.offers| &&
          HasBook(f, past.offers[i].update) ==>
            v < past.offers[i].update)
  }

  ghost predicate BookOfTopic(f: Feed, u: nat, x: string) { HasBook(f, u) && f.updates[u].symbol == x }

  /** When the cached update was written before the snapshot was read, it is the snapshot. */
  ghost predicate SnapCurrent(f: Feed, past: Past, x: string) {
    past.joins == 1 && past.topic == Some(x) && past.snapAt.Some? && past.snapAt.value <= |f.writes| && x in f.cache
    && f.cache[x] in f.writes[..past.snapAt.value] ==>
      past.snap == Some(f.cache[x])
  }

  ghost predicate FreshSub(f: Feed, sub: Sub, x: string) {
    BooksOrdered(f, sub.past, x) && (sub.stream.Some? ==> sub.past.joins <= 1 && SnapCurrent(f, sub.past, x))
  }

  ghost predicate FreshInv(s: State, r: nat, x: string) {
    && (forall t :: 0 <= t < |s.threads| ==> BehindNewest(s, t, r, x))
    && CachesNewest(s.feed, x)
    && BooksMatch(s.feed, x)
    && (r < |s.subs| ==> FreshSub(s.feed, s.subs[r], x))
  }

  lemma PartsFresh(s: State, r: nat, x: string)
    requires forall t :: 0 <= t < |s.threads| ==> BehindNewest(s, t, r, x)
    requires CachesNewest(s.feed, x) && BooksMatch(s.feed, x) && (r < |s.subs| ==> FreshSub(s.feed, s.subs[r], x))
    ensures FreshInv(s, r, x)
  {
    hide BehindNewest, CachesNewest, BooksMatch, FreshSub;
  }

  lemma FreshParts(s: State, r: nat, x: string)
    requires FreshInv(s, r, x)
    ensures CachesNewest(s.feed, x) && BooksMatch(s.feed, x) && (r < |s.subs| ==> FreshSub(s.feed, s.subs[r], x))
  {
    hide BehindNewest, CachesNewest, BooksMatch, FreshSub;
  }

  lemma OfBehind(s: State, t: nat, r: nat, x: string)
    requires FreshInv(s, r, x) && t < |s.threads|
    ensures BehindNewest(s, t, r, x)
  {
    hide BehindNewest, CachesNewest, BooksMatch, FreshSub;
  }

  // ---------------------------------------------------------------- every step

  /** Who may still offer a book could do so before. */
  lemma BehindBefore(s: State, e: Event, s': State, t: nat, r: nat, x: string)
    requires Inv(s) && Effect(s, e, s') && t < |s.threads| && t < |s'.threads| && Behind(s', t, r, x)
    ensures Behind(s, t, r, x) && Current(s.threads[t]).Some? && Current(s.threads[t]) == Current(s'.threads[t])
  {
    hide Inv, SubsEffect, MembersEffect;
    CurrentInRange(s, t);
    if e.Run? && e.thread == t && !s.threads[t].Copy? {
      ShortensMembers(Pending(s.threads[t]), Pending(s'.threads[t]));
    }
  }

  /** A step that brings no book of the topic leaves the newest book the newest. */
  lemma NewestStays(s: State, e: Event, s': State, x: string, u: nat)
    requires Effect(s, e, s') && NewestBook(s.feed, x, u)
    requires e.OnData? && e.symbol == x ==> e.book.None?
    ensures NewestBook(s'.feed, x, u)
  {
    hide SubsEffect, MembersEffect, GoesOn;
    forall v | 0 <= v < |s'.feed.updates| && HasBook(s'.feed, v) && s'.feed.updates[v].symbol == x
      ensures v <= u
    {
      if v < |s.feed.updates| {
        assert HasBook(s.feed, v);
      }
    }
  }

  lemma NewestAfter(s: State, e: Event, s': State, t: nat, r: nat, x: string)
    requires Inv(s) && FreshInv(s, r, x) && Effect(s, e, s') && Allows(InTurn(r, x), s, e) && t < |s'.threads|
    ensures BehindNewest(s', t, r, x)
  {
    hide Inv, FreshInv, Effect, Behind, NewestBook;
    if Behind(s', t, r, x) {
      if t < |s.threads| {
        BehindBefore(s, e, s', t, r, x);
        OfBehind(s, t, r, x);
        NewestStays(s, e, s', x, Current(s.threads[t]).value);
      } else {
        LastIsNewest(s, e, s', t, r, x);
      }
    }
  }

  lemma LastIsNewest(s: State, e: Event, s': State, t: nat, r: nat, x: string)
    requires Effect(s, e, s') && |s.threads| <= t < |s'.threads| && Behind(s', t, r, x)
    ensures NewestBook(s'.feed, x, Current(s'.threads[t]).value)
  {
    hide SubsEffect, MembersEffect, GoesOn;
  }

  lemma WritesInRange(s: State)
    requires FeedOk(s.feed, s.threads)
    ensures forall w :: w in s.feed.writes ==> HasBook(s.feed, w)
  {
    forall w | w in s.feed.writes
      ensures HasBook(s.feed, w)
    {
      var i :| 0 <= i < |s.feed.writes| && s.feed.writes[i] == w;
    }
  }

  /** The thread that is about to write a book of the topic has the newest. */
  lemma WriterNewest(s: State, e: Event, r: nat, x: string)
    requires Inv(s) && FreshInv(s, r, x) && Acting(s, e).Write? && Acting(s, e).update < |s.feed.updates|
    requires HasBook(s.feed, Acting(s, e).update) && s.feed.updates[Acting(s, e).update].symbol == x
    ensures NewestBook(s.feed, x, Acting(s, e).update)
  {
    OfBehind(s, e.thread, r, x);
    hide Inv, FreshInv, NewestBook;
  }

  lemma CachesNewestAfter(s: State, e: Event, s': State, r: nat, x: string)
    requires Inv(s) && FreshInv(s, r, x) && Effect(s, e, s')
    ensures CachesNewest(s'.feed, x)
  {
    FreshParts(s, r, x);
    OfAll(s);
    hide Inv, FreshInv, FeedOk, CountsOk, LocksOk, Acting, FeedEffect, CachesNewest, BooksMatch;
    assert FeedEffect(s.feed, Acting(s, e), s'.feed) by { hide SubsEffect, MembersEffect, ThreadsEffect; }
    WritesInRange(s);
    var pc := Acting(s, e);
    if pc.Write? && HasBook(s.feed, pc.update) && s.feed.updates[pc.update].symbol == x {
      WriterNewest(s, e, r, x);
    }
    hide Effect;
    FeedKeepsNewest(s.feed, pc, s'.feed, x);
  }

  lemma FeedKeepsNewest(f: Feed, pc: Thread, f': Feed, x: string)
    requires FeedEffect(f, pc, f') && CachesNewest(f, x) && BooksMatch(f, x)
    requires forall w :: w in f.writes ==> HasBook(f, w)
    requires pc.Write? && HasBook(f, pc.update) && f.updates[pc.update].symbol == x ==> NewestBook(f, x, pc.update)
    ensures CachesNewest(f', x)
  {
  }

  lemma BooksMatchAfter(s: State, e: Event, s': State, r: nat, x: string)
    requires FreshInv(s, r, x) && Effect(s, e, s') && Allows(InTurn(r, x), s, e)
    ensures BooksMatch(s'.feed, x)
  {
    FreshParts(s, r, x);
    hide FreshInv, SubsEffect, MembersEffect, FreshSub, CachesNewest, GoesOn, Behind, BehindNewest;
  }

  /** The first of its members was not offered the update that a thread is about to send. */
  lemma SendNotOffered(s: State, t: nat, r: nat, i: nat)
    requires Inv(s) && t < |s.threads| && s.threads[t].Send? && Head(s.threads[t]) == Some(r) && r < |s.subs|
    requires i < |s.subs[r].past.offers|
    ensures s.subs[r].past.offers[i].update != s.threads[t].update && s.subs[r].past.offers[i].update < |s.feed.updates|
  {
    hide Inv;
    OfThread(s, t);
    OfferInRange(s, r, i);
    hide FeedThreadOk, CloserOk, StreamerOk, Offered;
    assert Pending(s.threads[t])[0] == r;
    assert !Offered(s.subs[r], s.threads[t].update);
    OfferedAt(s.subs[r], i);
  }

  lemma OfferedAt(sub: Sub, i: nat)
    requires i < |sub.past.offers|
    ensures Offered(sub, sub.past.offers[i].update)
  {
  }

  lemma OfferInRange(s: State, r: nat, i: nat)
    requires Inv(s) && r < |s.subs| && i < |s.subs[r].past.offers|
    ensures s.subs[r].past.offers[i].update < |s.feed.updates|
  {
    hide Inv;
    OfSub(s, r);
    OfAll(s);
  }

  lemma SendInRange(s: State, t: nat, r: nat)
    requires Inv(s) && t < |s.threads| && s.threads[t].Send? && Head(s.threads[t]) == Some(r)
    ensures s.threads[t].update < |s.feed.updates| && r in Named(s.threads[t]) && r in Pending(s.threads[t])
  {
    hide Inv;
    OfThread(s, t);
    hide FeedThreadOk, CloserOk, StreamerOk, PublisherOk;
    assert Pending(s.threads[t])[0] == r;
  }

  /** The book that a thread is about to send to the client is the newest, and was not copied before the client
      joined. */
  lemma SendsNewest(s: State, t: nat, r: nat, x: string)
    requires Inv(s) && OnceInv(s) && FreshInv(s, r, x) && t < |s.threads| && s.threads[t].Send?
    requires Head(s.threads[t]) == Some(r) && r < |s.subs| && HasBook(s.feed, s.threads[t].update)
    requires s.subs[r].past.joins == 1 && s.subs[r].past.topic == Some(x)
    ensures NewestBook(s.feed, x, s.threads[t].update) && s.threads[t].update !in s.subs[r].past.before
  {
    OnceNamedOf(s, t, r);
    SendInRange(s, t, r);
    OfBehind(s, t, r, x);
    hide Inv, OnceInv, FreshInv, NewestBook;
  }

  /** What a subscriber of the topic was offered is of the topic. */
  lemma OfferOfTopic(s: State, r: nat, x: string, i: nat)
    requires Inv(s) && OnceInv(s) && r < |s.subs| && s.subs[r].past.joins == 1 && s.subs[r].past.topic == Some(x)
    requires i < |s.subs[r].past.offers|
    ensures s.subs[r].past.offers[i].update < |s.feed.updates|
    ensures s.feed.updates[s.subs[r].past.offers[i].update].symbol == x
  {
    assert OnceSub(s.feed, s.subs[r]);
    hide OnceInv;
    OfferInRange(s, r, i);
  }

  /** The subscriber's history grows by one offer at most, or it joins. */
  lemma PastAfter(s: State, e: Event, s': State, r: nat)
    requires Inv(s) && OnceInv(s) && Effect(s, e, s') && r < |s.subs| && s'.subs[r].past.joins == 1
    ensures var pc, a, b := Acting(s, e), s.subs[r].past, s'.subs[r].past;
            if a.joins != 1 then b.offers == []
            else && b.topic == a.topic && b.before == a.before
                 && (b.offers == a.offers
                     || (pc.Send? && Head(pc) == Some(r) && |b.offers| == |a.offers| + 1 &&
                         b.offers[..|a.offers|] == a.offers
                         && b.offers[|a.offers|].update == pc.update))
  {
    hide Inv, MembersEffect, ThreadsEffect, OnceMember, OnceNamed, OnceClient, SnapEffect, Held, FeedEffect;
    var pc, a, b := Acting(s, e), s.subs[r], s'.subs[r];
    assert SubEffect(s, pc, r, a, b);
    assert OnceSub(s.feed, a);
    if pc.Send? && b.past.offers != a.past.offers {
      var ok :| b.past.offers == a.past.offers + [Offer(pc.update, ok)];
    }
  }

  lemma BooksStay(s: State, e: Event, s': State)
    requires Effect(s, e, s')
    ensures SameFeed(s.feed, s'.feed)
  {
    hide SubsEffect, MembersEffect, ThreadsEffect;
  }

  lemma BooksOrderedAfter(s: State, e: Event, s': State, r: nat, x: string)
    requires Inv(s) && OnceInv(s) && FreshInv(s, r, x) && Effect(s, e, s') && r < |s.subs| && r < |s'.subs|
    ensures BooksOrdered(s'.feed, s'.subs[r].past, x)
  {
    var pc, a, b := Acting(s, e), s.subs[r].past, s'.subs[r].past;
    if b.joins == 1 && b.topic == Some(x) {
      hide *;
      PastAfter(s, e, s', r);
      if a.joins != 1 {
        NothingOffered(s'.feed, b, x);
      } else {
        BooksStay(s, e, s');
        BeforeInRange(s, r);
        OrderedBefore(s, r, x);
        forall i | 0 <= i < |a.offers|
          ensures a.offers[i].update < |s.feed.updates| && s.feed.updates[a.offers[i].update].symbol == x
        {
          OfferOfTopic(s, r, x, i);
        }
        if b.offers != a.offers {
          SendAddsBook(s, e, s', r, x);
        } else {
          SameBooks(s.feed, s'.feed, a, b, x);
        }
      }
    } else {
      hide Inv, OnceInv, FreshInv, Effect;
    }
  }

  lemma NothingOffered(f: Feed, past: Past, x: string)
    requires past.offers == []
    ensures BooksOrdered(f, past, x)
  {
  }

  lemma OrderedBefore(s: State, r: nat, x: string)
    requires FreshInv(s, r, x) && r < |s.subs|
    ensures BooksOrdered(s.feed, s.subs[r].past, x)
  {
    hide BooksOrdered, CachesNewest, BooksMatch, BehindNewest, SnapCurrent;
  }

  lemma SendAddsBook(s: State, e: Event, s': State, r: nat, x: string)
    requires Inv(s) && OnceInv(s) && FreshInv(s, r, x) && r < |s.subs| && r < |s'.subs| && SameFeed(s.feed, s'.feed)
    requires var pc, a, b := Acting(s, e), s.subs[r].past, s'.subs[r].past;
             && a.joins == 1 && a.topic == Some(x) && b.before == a.before && BooksOrdered(s.feed, a, x)
             && pc.Send? && Head(pc) == Some(r) && |b.offers| == |a.offers| + 1 && b.offers[..|a.offers|] == a.offers
             && b.offers[|a.offers|].update == pc.update
             && (forall v :: v in a.before ==> v < |s.feed.updates|)
             && (forall i :: 0 <= i < |a.offers| ==>
                 a.offers[i].update < |s.feed.updates| && s.feed.updates[a.offers[i].update].symbol == x)
    ensures BooksOrdered(s'.feed, s'.subs[r].past, x)
  {
    hide *;
    var pc, a, b := Acting(s, e), s.subs[r].past, s'.subs[r].past;
    ActsAs(s, e);
    SendInRange(s, e.thread, r);
    if HasBook(s.feed, pc.update) {
      SendsNewest(s, e.thread, r, x);
      forall i | 0 <= i < |a.offers|
        ensures a.offers[i].update != pc.update
      {
        SendNotOffered(s, e.thread, r, i);
      }
    }
    OneMoreBook(s.feed, s'.feed, a, b, x, pc.update);
  }

  lemma ActsAs(s: State, e: Event)
    requires Acting(s, e) != Done
    ensures e.Run? && e.thread < |s.threads| && Acting(s, e) == s.threads[e.thread]
  {
  }

  /** The symbols of what was copied and offered, and which of it has a book, do not change. */
  ghost predicate SameFeed(f: Feed, f': Feed) {
    forall u :: 0 <= u < |f.updates| ==>
      (HasBook(f', u) <==> HasBook(f, u)) && u < |f'.updates| && f'.updates[u].symbol == f.updates[u].symbol
  }

  lemma SameBooks(f: Feed, f': Feed, a: Past, b: Past, x: string)
    requires BooksOrdered(f, a, x) && a.joins == 1 && a.topic == Some(x) && SameFeed(f, f')
    requires b.offers == a.offers && b.before == a.before
    requires forall i :: 0 <= i < |a.offers| ==> a.offers[i].update < |f.updates|
    requires forall v :: v in a.before ==> v < |f.updates|
    ensures BooksOrdered(f', b, x)
  {
    hide HasBook;
  }

  lemma OneMoreBook(f: Feed, f': Feed, a: Past, b: Past, x: string, u: nat)
    requires BooksOrdered(f, a, x) && a.joins == 1 && a.topic == Some(x) && SameFeed(f, f') && u < |f.updates|
    requires |b.offers| == |a.offers| + 1 && b.offers[..|a.offers|] == a.offers && b.offers[|a.offers|].update == u
    requires b.before == a.before
    requires forall i :: 0 <= i < |a.offers| ==>
               a.offers[i].update < |f.updates| && f.updates[a.offers[i].update].symbol == x
    requires forall v :: v in a.before ==> v < |f.updates|
    requires HasBook(f, u) ==> NewestBook(f, x, u) && u !in a.before && forall i ::
               0 <= i < |a.offers| ==> a.offers[i].update != u
    ensures BooksOrdered(f', b, x)
  {
    hide HasBook;
    assert forall i :: 0 <= i < |a.offers| ==> b.offers[i] == a.offers[i];
  }

  lemma BeforeInRange(s: State, r: nat)
    requires Inv(s) && r < |s.subs|
    ensures forall v :: v in s.subs[r].past.before ==> v < |s.feed.updates|
  {
    hide Inv;
    OfSub(s, r);
    OfAll(s);
  }

  lemma SnapCurrentAfter(s: State, e: Event, s': State, r: nat, x: string)
    requires Inv(s) && OnceInv(s) && FreshInv(s, r, x) && Effect(s, e, s') && r < |s.subs| && r < |s'.subs|
    requires s.subs[r].stream.Some?
    ensures s'.subs[r].past.joins <= 1 && SnapCurrent(s'.feed, s'.subs[r].past, x)
  {
    hide *;
    FreshParts(s, r, x);
    SnapBefore(s, r, x);
    PastEffects(s, e, s', r);
    SnapInRange(s, r);
    StreamActs(s, e, r);
    WritesNew(s, e);
    SnapKept(s.feed, Acting(s, e), r, s'.feed, s.subs[r].past, s'.subs[r].past, x);
  }

  lemma SnapBefore(s: State, r: nat, x: string)
    requires FreshInv(s, r, x) && r < |s.subs| && s.subs[r].stream.Some?
    ensures s.subs[r].past.joins <= 1 && SnapCurrent(s.feed, s.subs[r].past, x)
  {
    hide BooksOrdered, CachesNewest, BooksMatch, BehindNewest, SnapCurrent;
  }

  lemma PastEffects(s: State, e: Event, s': State, r: nat)
    requires Effect(s, e, s') && r < |s.subs|
    ensures r < |s'.subs| && FeedEffect(s.feed, Acting(s, e), s'.feed)
    ensures JoinEffect(s.feed.copied, Acting(s, e), r, s.subs[r].past, s'.subs[r].past)
    ensures SnapEffect(s.feed, Acting(s, e), r, s.subs[r].past, s'.subs[r].past)
  {
    hide FeedEffect, MembersEffect, ThreadsEffect, JoinEffect, SnapEffect, Held;
    assert SubEffect(s, Acting(s, e), r, s.subs[r], s'.subs[r]);
  }

  /** A streaming subscriber joins once, and reads the snapshot of the topic that it joined. */
  lemma StreamActs(s: State, e: Event, r: nat)
    requires Inv(s) && OnceInv(s) && r < |s.subs| && s.subs[r].stream.Some?
    ensures var pc := Acting(s, e);
            && (pc.Insert? && pc.sub == r ==> s.subs[r].past.joins == 0 && s.subs[r].past.snapAt.None?)
            && (pc.Snapshot? && pc.sub == r ==> s.subs[r].past.joins == 1 && s.subs[r].past.topic == Some(pc.symbol))
  {
    hide Inv, OnceMember, OnceNamed, OnceSub;
    if e.Run? && e.thread < |s.threads| {
      assert OnceClient(s.subs, s.threads[e.thread]);
      OfThread(s, e.thread);
    }
    hide InRange, FeedThreadOk, PublisherOk, CloserOk, OnceInv;
  }

  lemma SnapKept(f: Feed, pc: Thread, r: nat, f': Feed, a: Past, b: Past, x: string)
    requires FeedEffect(f, pc, f') && JoinEffect(f.copied, pc, r, a, b) && SnapEffect(f, pc, r, a, b)
    requires a.joins <= 1 && SnapCurrent(f, a, x) && (a.snapAt.Some? ==> a.snapAt.value <= |f.writes|)
    requires forall y :: y in f.cache ==> f.cache[y] in f.writes
    requires pc.Write? && pc.update < |f.updates| && f.updates[pc.update].book.Some? ==> pc.update !in f.writes
    requires pc.Insert? && pc.sub == r ==> a.joins == 0 && a.snapAt.None?
    requires pc.Snapshot? && pc.sub == r ==> a.joins == 1 && a.topic == Some(pc.symbol)
    ensures b.joins <= 1 && SnapCurrent(f', b, x)
  {
    if b.snapAt.Some? && b.snapAt.value <= |f.writes| {
      assert f'.writes[..b.snapAt.value] == f.writes[..b.snapAt.value];
    }
  }

  /** A book is written once. */
  lemma WritesNew(s: State, e: Event)
    requires Inv(s)
    ensures Acting(s, e).Write? ==> Acting(s, e).update !in s.feed.writes
  {
    hide Inv;
    if e.Run? && e.thread < |s.threads| {
      OfThread(s, e.thread);
    }
    hide InRange, PublisherOk, CloserOk, StreamerOk;
  }

  lemma SnapInRange(s: State, r: nat)
    requires Inv(s) && r < |s.subs|
    ensures s.subs[r].past.snapAt.Some? ==> s.subs[r].past.snapAt.value <= |s.feed.writes|
    ensures forall x :: x in s.feed.cache ==> s.feed.cache[x] in s.feed.writes
  {
    hide Inv;
    OfSub(s, r);
    OfAll(s);
  }

  lemma FreshSubAfter(s: State, e: Event, s': State, r: nat, x: string)
    requires Inv(s) && OnceInv(s) && FreshInv(s, r, x) && Effect(s, e, s') && r < |s'.subs|
    ensures FreshSub(s'.feed, s'.subs[r], x)
  {
    if r >= |s.subs| {
      hide Inv, OnceInv, FreshInv, MembersEffect, FeedEffect, ThreadsEffect, SubEffect;
    } else {
      hide Inv, OnceInv, FreshInv, Effect, BooksOrdered, SnapCurrent;
      BooksOrderedAfter(s, e, s', r, x);
      EffectKeepsStream(s, e, s', r);
      if s.subs[r].stream.Some? {
        SnapCurrentAfter(s, e, s', r, x);
      }
    }
  }

  lemma EffectKeepsStream(s: State, e: Event, s': State, r: nat)
    requires Effect(s, e, s') && r < |s.subs|
    ensures r < |s'.subs| && s'.subs[r].stream == s.subs[r].stream
  {
    hide FeedEffect, MembersEffect, ThreadsEffect, JoinEffect, SnapEffect, Held;
    assert SubEffect(s, Acting(s, e), r, s.subs[r], s'.subs[r]);
  }

  lemma FreshAfter(s: State, e: Event, s': State, r: nat, x: string)
    requires Inv(s) && OnceInv(s) && FreshInv(s, r, x) && Effect(s, e, s') && Allows(InTurn(r, x), s, e)
    ensures FreshInv(s', r, x)
  {
    hide *;
    forall t | 0 <= t < |s'.threads|
      ensures BehindNewest(s', t, r, x)
    {
      NewestAfter(s, e, s', t, r, x);
    }
    CachesNewestAfter(s, e, s', r, x);
    BooksMatchAfter(s, e, s', r, x);
    if r < |s'.subs| {
      FreshSubAfter(s, e, s', r, x);
    }
    PartsFresh(s', r, x);
  }

  lemma FreshStep(c: Config, s: State, e: Event, r: nat, x: string)
    requires Inv(s) && OnceInv(s) && FreshInv(s, r, x) && WellFormed(s) && Enabled(s, e) && Allows(InTurn(r, x), s, e)
    ensures FreshInv(Step(c, s, e), r, x)
  {
    hide *;
    var s' := Step(c, s, e);
    if s'.status == s.status {
      StepEffects(c, s, e);
      FreshAfter(s, e, s', r, x);
    } else {
      CallsDoNotPanic(c, s, e);
      PanicKeepsState(c, s, e.thread, e.order, e.ok);
      FreshIgnoresStatus(s, s', r, x);
    }
  }

  lemma FreshIgnoresStatus(s: State, s': State, r: nat, x: string)
    requires FreshInv(s, r, x) && s' == s.(status := s'.status)
    ensures FreshInv(s', r, x)
  {
    hide CachesNewest, BooksMatch, FreshSub, NewestBook;
    forall t | 0 <= t < |s'.threads|
      ensures BehindNewest(s', t, r, x)
    {
      assert BehindNewest(s, t, r, x);
    }
  }

  lemma {:induction false} FreshRun(c: Config, s: State, es: seq<Event>, r: nat, x: string)
    requires Inv(s) && OnceInv(s) && FreshInv(s, r, x) && Obeys(c, InTurn(r, x), s, es) && Exec(c, s, es).Some?
    ensures FreshInv(Exec(c, s, es).value, r, x) && OnceInv(Exec(c, s, es).value)
    decreases |es|
  {
    hide Inv, OnceInv, FreshInv, WellFormed, Enabled, Step, Allows;
    if es != [] {
      StepKeepsInv(c, s, es[0]);
      OnceStep(c, s, es[0]);
      FreshStep(c, s, es[0], r, x);
      FreshRun(c, Step(c, s, es[0]), es[1..], r, x);
    }
  }

  // ---------------------------------------------------------------- the client shows the cached book

  /** A streaming client whose member `r` the topic holds has read its snapshot, missed no update and drained its
      channel, and nothing that was sent to it failed. */
  ghost predicate CaughtUp(s: State, k: Key, r: nat) {
    && k in s.hub.members && s.hub.members[k] == r && r < |s.subs|
    && s.subs[r].stream.Some? && s.subs[r].past.snapAt.Some? && !s.subs[r].flag && !s.subs[r].past.broken
    && s.subs[r].queue == [] && (forall i :: 0 <= i < |s.subs[r].past.offers| ==> s.subs[r].past.offers[i].accepted)
  }

  /** The last book sent to the client is the cached one. */
  ghost predicate ShowsCached(s: State, x: string, r: nat)
    requires r < |s.subs|
  {
    && x in s.feed.cache && s.feed.cache[x] < |s.feed.updates| && s.subs[r].past.sent != []
    && Some(s.subs[r].past.sent[|s.subs[r].past.sent| - 1]) == s.feed.updates[s.feed.cache[x]].book
  }

  lemma {:induction false} AllAccepted(offers: seq<Offer>)
    requires forall i :: 0 <= i < |offers| ==> offers[i].accepted
    ensures |Accepted(offers)| == |offers|
    ensures forall i :: 0 <= i < |offers| ==> Accepted(offers)[i] == offers[i].update
  {
    if offers != [] {
      AllAccepted(offers[..|offers| - 1]);
    }
  }

  /** In a list whose books are in order and go no further than `m`, the last book is that of `m`. */
  lemma {:induction false} LastBook(f: Feed, us: seq<nat>, m: nat)
    requires AllBelow(us, |f.updates|) && m in us && HasBook(f, m)
    requires forall i, j :: 0 <= i < j < |us| && HasBook(f, us[i]) && HasBook(f, us[j]) ==> us[i] < us[j]
    requires forall i :: 0 <= i < |us| && HasBook(f, us[i]) ==> us[i] <= m
    ensures Books(f.updates, us) != [] && Books(f.updates, us)[|Books(f.updates, us)| - 1] == f.updates[m].book.value
  {
    var n := |us| - 1;
    if us[n] != m {
      var i :| 0 <= i < |us| && us[i] == m;
      assert us[..n][i] == m;
      assert !HasBook(f, us[n]);
      LastBook(f, us[..n], m);
      assert Books(f.updates, us) == Books(f.updates, us[..n]) + [];
    } else {
      assert Books(f.updates, us) == Books(f.updates, us[..n]) + [f.updates[m].book.value];
    }
  }

  lemma {:induction false} NoBooks(f: Feed, us: seq<nat>)
    requires AllBelow(us, |f.updates|) && forall i :: 0 <= i < |us| ==> !HasBook(f, us[i])
    ensures Books(f.updates, us) == []
  {
    if us != [] {
      NoBooks(f, us[..|us| - 1]);
    }
  }

  /** A client that has caught up received exactly what was offered to it, in order. */
  lemma TakenIsOffered(s: State, k: Key, r: nat)
    requires Inv(s) && CaughtUp(s, k, r)
    ensures |s.subs[r].past.taken| == |s.subs[r].past.offers|
    ensures forall i :: 0 <= i < |s.subs[r].past.offers| ==> s.subs[r].past.taken[i] == s.subs[r].past.offers[i].update
  {
    hide Inv;
    OfSub(s, r);
    AllAccepted(s.subs[r].past.offers);
    assert s.subs[r].past.taken + [] == s.subs[r].past.taken;
  }

  /** Once no thread may still offer a book, the cached update has passed the copy of its members. */
  lemma CachedCopied(s: State, r: nat, x: string)
    requires Inv(s) && FreshInv(s, r, x) && x in s.feed.cache
    requires forall t :: 0 <= t < |s.threads| ==> !Behind(s, t, r, x)
    ensures var m := s.feed.cache[x];
            HasBook(s.feed, m) && s.feed.updates[m].symbol == x && m in s.feed.copied &&
            m in s.feed.writes
  {
    FreshParts(s, r, x);
    OfAll(s);
    hide Inv, FreshInv;
    WritesInRange(s);
    var m := s.feed.cache[x];
    assert UpdateOk(s.feed, s.threads, m);
    assert !Behind(s, s.feed.updates[m].owner, r, x);
  }

  /** The member was offered the cached update, or its members were copied before it joined. */
  lemma CachedReached(s: State, k: Key, r: nat)
    requires Inv(s) && CaughtUp(s, k, r) && FreshInv(s, r, k.symbol) && k.symbol in s.feed.cache
    requires forall t :: 0 <= t < |s.threads| ==> !Behind(s, t, r, k.symbol)
    ensures s.feed.cache[k.symbol] in s.subs[r].past.before || Offered(s.subs[r], s.feed.cache[k.symbol])
  {
    hide *;
    CachedCopied(s, r, k.symbol);
    OfKey(s, k);
    MemberReached(s, k, r, s.feed.cache[k.symbol]);
  }

  lemma MemberReached(s: State, k: Key, r: nat, m: nat)
    requires MemberOk(s, k) && CaughtUp(s, k, r) && HasBook(s.feed, m) && s.feed.updates[m].symbol == k.symbol
    requires m in s.feed.copied
    requires forall t :: 0 <= t < |s.threads| ==> !Behind(s, t, r, k.symbol)
    ensures m in s.subs[r].past.before || Offered(s.subs[r], m)
  {
    assert Reached(s.feed, s.threads, s.subs[r], r, m);
    var w := s.feed.updates[m].owner;
    assert w < |s.threads| ==> !Behind(s, w, r, k.symbol);
    hide Offered, MemberOk;
  }

  lemma JoinedTopic(s: State, k: Key, r: nat)
    requires OnceInv(s) && FreshInv(s, r, k.symbol) && CaughtUp(s, k, r)
    ensures s.subs[r].past.joins == 1 && s.subs[r].past.topic == Some(k.symbol)
  {
    FreshParts(s, r, k.symbol);
    hide FreshInv, OnceNamed, OnceClient, OnceSub;
    assert OnceMember(s.hub.members, s.subs, k);
  }

  /** What the client was offered with a book is no later than the cached update. */
  lemma OfferedUpToCached(s: State, k: Key, r: nat, i: nat)
    requires Inv(s) && OnceInv(s) && FreshInv(s, r, k.symbol) && CaughtUp(s, k, r) && k.symbol in s.feed.cache
    requires i < |s.subs[r].past.offers| && HasBook(s.feed, s.subs[r].past.offers[i].update)
    ensures s.subs[r].past.offers[i].update <= s.feed.cache[k.symbol]
  {
    FreshParts(s, r, k.symbol);
    JoinedTopic(s, k, r);
    OfferOfTopic(s, r, k.symbol, i);
    hide FreshInv, OnceInv;
    OfSub(s, r);
    OfAll(s);
    hide Inv;
    var u := s.subs[r].past.offers[i].update;
    assert UpdateOk(s.feed, s.threads, u);
  }

  lemma CaughtUpShows(s: State, k: Key, r: nat)
    requires Inv(s) && OnceInv(s) && FreshInv(s, r, k.symbol) && CaughtUp(s, k, r) && k.symbol in s.feed.cache
    requires forall t :: 0 <= t < |s.threads| ==> !Behind(s, t, r, k.symbol)
    ensures ShowsCached(s, k.symbol, r)
  {
    JoinedTopic(s, k, r);
    CachedCopied(s, r, k.symbol);
    CachedReached(s, k, r);
    TakenIsOffered(s, k, r);
    FreshParts(s, r, k.symbol);
    forall i | 0 <= i < |s.subs[r].past.taken| && HasBook(s.feed, s.subs[r].past.taken[i])
      ensures s.subs[r].past.taken[i] <= s.feed.cache[k.symbol]
    {
      OfferedUpToCached(s, k, r, i);
    }
    OfSub(s, r);
    hide Inv, OnceInv, FreshInv, SubOk, FreshSub, CachesNewest, BooksMatch, Behind, Offered, HasBook;
    LastSent(s, k, r);
  }

  /** The last of what was sent is the book of `m`: it was received last, or it was the snapshot and no book came
      after it. */
  lemma LastSent(s: State, k: Key, r: nat)
    requires CaughtUp(s, k, r) && k.symbol in s.feed.cache && SubOk(s.feed, s.subs[r])
    requires FreshSub(s.feed, s.subs[r], k.symbol)
    requires s.subs[r].past.joins == 1 && s.subs[r].past.topic == Some(k.symbol)
    requires var m, past := s.feed.cache[k.symbol], s.subs[r].past;
             && HasBook(s.feed, m) && s.feed.updates[m].symbol == k.symbol
             && (m in past.before || Offered(s.subs[r], m))
             && |past.taken| == |past.offers| &&
               (forall i :: 0 <= i < |past.offers| ==> past.taken[i] == past.offers[i].update)
             && (forall i :: 0 <= i < |past.taken| && HasBook(s.feed, past.taken[i]) ==> past.taken[i] <= m)
    ensures ShowsCached(s, k.symbol, r)
  {
    var m, past := s.feed.cache[k.symbol], s.subs[r].past;
    BookOf(s.feed, m);
    SentAll(s.feed, s.subs[r]);
    hide SubOk, HasBook;
    if Offered(s.subs[r], m) {
      hide FreshSub;
      var i :| 0 <= i < |past.offers| && past.offers[i].update == m;
      assert past.taken[i] == m;
      OfferedInOrder(s.feed, s.subs[r], k.symbol);
      LastBook(s.feed, past.taken, m);
    } else {
      hide Offered, BooksOrdered;
      SnapIsCached(s.feed, s.subs[r], k.symbol);
      NoneAfterSnap(s.feed, s.subs[r], k.symbol);
      NoBooks(s.feed, past.taken);
    }
  }

  lemma SentAll(f: Feed, sub: Sub)
    requires SubOk(f, sub) && sub.stream.Some? && !sub.past.broken
    ensures AllBelow(sub.past.taken, |f.updates|)
    ensures (sub.past.snap.Some? ==> sub.past.snap.value < |f.updates| && f.updates[sub.past.snap.value].book.Some?)
    ensures sub.past.sent == (if sub.past.snap.Some? then [f.updates[sub.past.snap.value].book.value] else []) +
              Books(f.updates, sub.past.taken)
  {
    hide Accepted, OffersOk, SnapshotOk, Books;
  }

  lemma OfferedInOrder(f: Feed, sub: Sub, x: string)
    requires FreshSub(f, sub, x) && sub.past.joins == 1 && sub.past.topic == Some(x)
    requires |sub.past.taken| == |sub.past.offers|
    requires forall i :: 0 <= i < |sub.past.offers| ==> sub.past.taken[i] == sub.past.offers[i].update
    ensures forall i, j ::
              0 <= i < j < |sub.past.taken| && HasBook(f, sub.past.taken[i]) &&
              HasBook(f, sub.past.taken[j]) ==>
              sub.past.taken[i] < sub.past.taken[j]
  {
    hide HasBook, SnapCurrent, BookOfTopic;
  }

  /** A cached update that was copied before the client joined is its snapshot. */
  lemma SnapIsCached(f: Feed, sub: Sub, x: string)
    requires FreshSub(f, sub, x) && sub.past.joins == 1 && sub.past.topic == Some(x) && sub.stream.Some?
    requires sub.past.snapAt.Some?
    requires SubOk(f, sub) && x in f.cache && f.cache[x] in sub.past.before && HasBook(f, f.cache[x])
    ensures sub.past.snap == Some(f.cache[x])
  {
    hide BooksOrdered, Accepted, OffersOk, SentOk;
  }

  lemma NoneAfterSnap(f: Feed, sub: Sub, x: string)
    requires FreshSub(f, sub, x) && sub.past.joins == 1 && sub.past.topic == Some(x) && x in f.cache
    requires f.cache[x] in sub.past.before && HasBook(f, f.cache[x]) && f.updates[f.cache[x]].symbol == x
    requires |sub.past.taken| == |sub.past.offers| && forall i ::
               0 <= i < |sub.past.offers| ==> sub.past.taken[i] == sub.past.offers[i].update
    requires forall i :: 0 <= i < |sub.past.taken| && HasBook(f, sub.past.taken[i]) ==> sub.past.taken[i] <= f.cache[x]
    ensures forall i :: 0 <= i < |sub.past.taken| ==> !HasBook(f, sub.past.taken[i])
  {
    hide SnapCurrent;
  }

  lemma BookOf(f: Feed, u: nat)
    requires HasBook(f, u)
    ensures u < |f.updates| && f.updates[u].book.Some?
  {
  }

  /** When no book of the topic comes while an earlier one may still be offered to the client: a client that has
      caught up, with no book left that may be offered to it, was last sent the cached book. */
  lemma DrainedShowsCache(c: Config, es: seq<Event>, s: State, k: Key, r: nat)
    requires Reaches(c, es, s) && Obeys(c, InTurn(r, k.symbol), Init, es)
    requires CaughtUp(s, k, r) && k.symbol in s.feed.cache
    requires forall t :: 0 <= t < |s.threads| ==> !Behind(s, t, r, k.symbol)
    ensures ShowsCached(s, k.symbol, r)
  {
    hide *;
    ReachedInTurn(c, es, s, r, k.symbol);
    CaughtUpShows(s, k, r);
  }

  lemma ReachedInTurn(c: Config, es: seq<Event>, s: State, r: nat, x: string)
    requires Reaches(c, es, s) && Obeys(c, InTurn(r, x), Init, es)
    ensures Inv(s) && OnceInv(s) && FreshInv(s, r, x)
  {
    InitInv();
    InitFresh(r, x);
    hide *;
    ReachesExec(c, es, s);
    ReachedInv(c, es, s);
    FreshRun(c, Init, es, r, x);
  }

  lemma InitFresh(r: nat, x: string)
    ensures OnceInv(Init) && FreshInv(Init, r, x)
  {
  }

  /** Callbacks of a symbol that come one after the other, with books of that symbol, come in turn for every client
      of every topic. */
  lemma {:induction false} OneFeedInTurn(c: Config, s: State, es: seq<Event>, r: nat, x: string)
    requires Obeys(c, OneFeed, s, es)
    ensures Obeys(c, InTurn(r, x), s, es)
    decreases |es|
  {
    hide WellFormed, Enabled, Step;
    if es != [] && WellFormed(s) && Enabled(s, es[0]) {
      OneFeedInTurn(c, Step(c, s, es[0]), es[1..], r, x);
    }
  }
}
