/** Which levels of a book the relay keeps and streams: in every run the best of those that it was given. */
module RelayBooks {
  import opened Relay
  import opened RelayInvariant
  import opened RelaySteps
  import opened RelayRuns

  /** The calls of the data callback, in order: call number `u` brings update `u`. */
  function Given(es: seq<Event>): seq<Event> {
    if es == [] then [] else (if es[0].OnData? then [es[0]] else []) + Given(es[1..])
  }

  /** As many of the levels as the depth allows, from the best on. */
  ghost predicate Best(kept: seq<PriceLevel>, levels: seq<PriceLevel>, depth: nat) {
    && |kept| == (if |levels| < depth then |levels| else depth)
    && forall i :: 0 <= i < |kept| ==> kept[i] == levels[i]
  }

  ghost predicate BestOf(b: Book, given: Book, depth: nat) {
    b.symbol == given.symbol && Best(b.asks, given.asks, depth) && Best(b.bids, given.bids, depth)
  }

  lemma TrimIsBest(b: Book, depth: nat)
    ensures BestOf(Trim(b, depth), b, depth)
  {
  }

  ghost predicate FromGiven(given: seq<Event>, b: Book, depth: nat) {
    exists u :: 0 <= u < |given| && given[u].OnData? && given[u].book.Some? && BestOf(b, given[u].book.value, depth)
  }

  /** An update carries the book that it was given, and the best of it once that was written to the cache. */
  ghost predicate UpdateKept(c: Config, f: Feed, given: seq<Event>, u: nat)
    requires u < |f.updates|
  {
    && u < |given| && given[u].OnData? && f.updates[u].symbol == given[u].symbol
    && f.updates[u].book.Some? == given[u].book.Some?
    && (f.updates[u].book.Some? ==>
          if u in f.writes then BestOf(f.updates[u].book.value, given[u].book.value, c.maxDepth)
          else f.updates[u].book == given[u].book)
  }

  ghost predicate SentKept(c: Config, given: seq<Event>, sent: seq<Book>) {
    forall i :: 0 <= i < |sent| ==> FromGiven(given, sent[i], c.maxDepth)
  }

  ghost predicate CacheKept(f: Feed, x: string) {
    x in f.cache ==>
      f.cache[x] < |f.updates| && f.updates[f.cache[x]].book.Some? && f.updates[f.cache[x]].book.value.symbol == x
  }

  ghost predicate BooksInv(c: Config, given: seq<Event>, s: State) {
    && |given| == |s.feed.updates|
    && (forall u :: 0 <= u < |s.feed.updates| ==> UpdateKept(c, s.feed, given, u))
    && (forall x :: CacheKept(s.feed, x))
    && (forall r :: 0 <= r < |s.subs| ==> SentKept(c, given, s.subs[r].past.sent))
  }

  lemma PartsBooks(c: Config, given: seq<Event>, s: State)
    requires |given| == |s.feed.updates|
    requires forall u :: 0 <= u < |s.feed.updates| ==> UpdateKept(c, s.feed, given, u)
    requires forall x :: CacheKept(s.feed, x)
    requires forall r :: 0 <= r < |s.subs| ==> SentKept(c, given, s.subs[r].past.sent)
    ensures BooksInv(c, given, s)
  {
    hide UpdateKept, CacheKept, SentKept;
  }

  lemma BooksParts(c: Config, given: seq<Event>, s: State)
    requires BooksInv(c, given, s)
    ensures |given| == |s.feed.updates|
    ensures forall u :: 0 <= u < |s.feed.updates| ==> UpdateKept(c, s.feed, given, u)
    ensures forall x :: CacheKept(s.feed, x)
    ensures forall r :: 0 <= r < |s.subs| ==> SentKept(c, given, s.subs[r].past.sent)
  {
    hide UpdateKept, CacheKept, SentKept;
  }

  /** A step sends nothing to a client, or the book of an update. */
  ghost predicate Sends(updates: seq<Update>, a: seq<Book>, b: seq<Book>, u: nat) {
    b == a || (u < |updates| && updates[u].book.Some? && b == a + [updates[u].book.value])
  }

  // ---------------------------------------------------------------- steps that write nothing

  /** A step that writes no book; what it sends to client `r` is the book of an update that was written. */
  lemma QuietKept(c: Config, given: seq<Event>, s: State, s': State, r: nat, u: nat)
    requires BooksInv(c, given, s) && s'.feed.updates == s.feed.updates && s'.feed.writes == s.feed.writes
    requires forall x :: x in s'.feed.cache ==> x in s.feed.cache && s'.feed.cache[x] == s.feed.cache[x]
    requires |s.subs| <= |s'.subs| && forall q :: |s.subs| <= q < |s'.subs| ==> s'.subs[q].past.sent == []
    requires forall q :: 0 <= q < |s.subs| && q != r ==> s'.subs[q].past.sent == s.subs[q].past.sent
    requires r < |s.subs| && s'.subs[r].past.sent != s.subs[r].past.sent ==>
               u in s.feed.writes && Sends(s.feed.updates, s.subs[r].past.sent, s'.subs[r].past.sent, u)
    ensures BooksInv(c, given, s')
  {
    BooksParts(c, given, s);
    hide BooksInv, BestOf;
    forall v | 0 <= v < |s'.feed.updates|
      ensures UpdateKept(c, s'.feed, given, v)
    {
      assert UpdateKept(c, s.feed, given, v);
    }
    forall x
      ensures CacheKept(s'.feed, x)
    {
      assert CacheKept(s.feed, x);
    }
    forall q | 0 <= q < |s'.subs|
      ensures SentKept(c, given, s'.subs[q].past.sent)
    {
      if q < |s.subs| {
        assert SentKept(c, given, s.subs[q].past.sent);
        if s'.subs[q].past.sent != s.subs[q].past.sent {
          assert UpdateKept(c, s.feed, given, u);
          assert FromGiven(given, s.feed.updates[u].book.value, c.maxDepth);
        }
      }
    }
    PartsBooks(c, given, s');
  }

  /** What a thread other than a writer changes. */
  lemma ThreadSends(c: Config, s: State, t: nat, order: seq<nat>, ok: bool)
    requires WellFormed(s) && t < |s.threads| && !s.threads[t].Write? && !s.threads[t].Snapshot? && !s.threads[t].Drain?
    ensures var s' := RunThread(c, s, t, order, ok);
            && s'.feed == s.feed.(copied := s'.feed.copied) && |s'.subs| == |s.subs|
            && forall q :: 0 <= q < |s.subs| ==> s'.subs[q].past.sent == s.subs[q].past.sent
  {
    assert InRange(|s.feed.updates|, |s.subs|, s.threads[t]);
    hide WellFormed;
  }

  lemma SnapshotSends(c: Config, s: State, t: nat, order: seq<nat>, ok: bool)
    requires Inv(s) && WellFormed(s) && t < |s.threads| && s.threads[t].Snapshot?
    ensures var s', r, x := RunThread(c, s, t, order, ok), s.threads[t].sub, s.threads[t].symbol;
            && s'.feed == s.feed && |s'.subs| == |s.subs| && r < |s.subs|
            && (forall q :: 0 <= q < |s.subs| && q != r ==> s'.subs[q].past.sent == s.subs[q].past.sent)
            && (s'.subs[r].past.sent != s.subs[r].past.sent ==>
                  && x in s.feed.cache && s.feed.cache[x] in s.feed.writes
                  && Sends(s.feed.updates, s.subs[r].past.sent, s'.subs[r].past.sent, s.feed.cache[x]))
  {
    assert InRange(|s.feed.updates|, |s.subs|, s.threads[t]);
    var x := s.threads[t].symbol;
    if x in s.feed.cache {
      CachedIsWritten(s, x);
    }
    hide Inv, WellFormed;
  }

  lemma CachedIsWritten(s: State, x: string)
    requires Inv(s) && x in s.feed.cache
    ensures s.feed.cache[x] < |s.feed.updates| && s.feed.updates[s.feed.cache[x]].book.Some?
    ensures s.feed.cache[x] in s.feed.writes
  {
    OfAll(s);
    hide Inv, LocksOk, CountsOk, UpdateOk;
  }

  lemma DrainSends(c: Config, s: State, t: nat, order: seq<nat>, ok: bool)
    requires Inv(s) && WellFormed(s) && t < |s.threads| && s.threads[t].Drain?
    ensures var s', r := RunThread(c, s, t, order, ok), s.threads[t].sub;
            && s'.feed == s.feed && |s'.subs| == |s.subs| && r < |s.subs|
            && (forall q :: 0 <= q < |s.subs| && q != r ==> s'.subs[q].past.sent == s.subs[q].past.sent)
            && (s'.subs[r].past.sent != s.subs[r].past.sent ==>
                  && s.subs[r].queue != [] && s.subs[r].queue[0] in s.feed.writes
                  && Sends(s.feed.updates, s.subs[r].past.sent, s'.subs[r].past.sent, s.subs[r].queue[0]))
  {
    assert InRange(|s.feed.updates|, |s.subs|, s.threads[t]);
    var r := s.threads[t].sub;
    if s.subs[r].queue != [] {
      QueuedIsWritten(s, r, 0);
    }
    assert AllBelow(s.subs[r].queue, |s.feed.updates|);
    assert RunThread(c, s, t, order, ok) == DoDrain(s, t, s.threads[t].symbol, r, ok);
    hide Inv, WellFormed, RunThread;
  }

  /** A book that waits for a client was written to the cache before it was offered. */
  lemma QueuedIsWritten(s: State, r: nat, i: nat)
    requires Inv(s) && r < |s.subs| && i < |s.subs[r].queue|
    ensures s.subs[r].queue[i] < |s.feed.updates|
    ensures s.feed.updates[s.subs[r].queue[i]].book.Some? ==> s.subs[r].queue[i] in s.feed.writes
  {
    hide *;
    OfSub(s, r);
    QueuedIsCopied(s.feed, s.subs[r], i);
    CopiedIsWritten(s, s.subs[r].queue[i]);
  }

  lemma QueuedIsCopied(f: Feed, sub: Sub, i: nat)
    requires SubOk(f, sub) && i < |sub.queue|
    ensures sub.queue[i] in f.copied
  {
    var u := sub.queue[i];
    hide SnapshotOk, SentOk;
    assert u in sub.past.taken + sub.queue by {
      assert (sub.past.taken + sub.queue)[|sub.past.taken| + i] == u;
    }
    AcceptedOffered(sub.past.offers, u);
  }

  lemma CopiedIsWritten(s: State, u: nat)
    requires Inv(s) && u in s.feed.copied
    ensures u < |s.feed.updates| && (s.feed.updates[u].book.Some? ==> u in s.feed.writes)
  {
    OfAll(s);
    hide Inv, LocksOk, CountsOk, CacheOk;
    assert UpdateOk(s.feed, s.threads, u);
  }

  lemma {:induction false} AcceptedOffered(offers: seq<Offer>, u: nat)
    requires u in Accepted(offers)
    ensures exists i :: 0 <= i < |offers| && offers[i].update == u
  {
    var n := |offers| - 1;
    if u in Accepted(offers[..n]) {
      AcceptedOffered(offers[..n], u);
      var i :| 0 <= i < n && offers[..n][i].update == u;
      assert offers[i] == offers[..n][i];
    } else {
      assert offers[n].update == u;
    }
  }

  // ---------------------------------------------------------------- writing

  lemma WriteKept(c: Config, given: seq<Event>, s: State, t: nat, order: seq<nat>, ok: bool)
    requires Inv(s) && WellFormed(s) && BooksInv(c, given, s) && t < |s.threads| && s.threads[t].Write?
    ensures BooksInv(c, given, RunThread(c, s, t, order, ok))
  {
    hide *;
    var u, s' := s.threads[t].update, RunThread(c, s, t, order, ok);
    BooksParts(c, given, s);
    WriteRuns(c, s, t, order, ok);
    forall v | 0 <= v < |s'.feed.updates|
      ensures UpdateKept(c, s'.feed, given, v)
    {
      if s.feed.updates[u].book.Some? {
        WrittenKept(c, s.feed, s'.feed, given, u, v);
      }
    }
    forall x
      ensures CacheKept(s'.feed, x)
    {
      if s.feed.updates[u].book.Some? {
        WrittenCache(c, s.feed, s'.feed, u, x);
      }
    }
    PartsBooks(c, given, s');
  }

  lemma WriteRuns(c: Config, s: State, t: nat, order: seq<nat>, ok: bool)
    requires Inv(s) && WellFormed(s) && t < |s.threads| && s.threads[t].Write?
    ensures var u, s' := s.threads[t].update, RunThread(c, s, t, order, ok);
            && u < |s.feed.updates| && u !in s.feed.writes && s'.subs == s.subs
            && (s.feed.updates[u].book.None? ==> s'.feed == s.feed)
            && (s.feed.updates[u].book.Some? ==>
                  var b := Trim(s.feed.updates[u].book.value, c.maxDepth);
                  s'.feed == Feed(s.feed.updates[u := s.feed.updates[u].(book := Some(b))],
                                  s.feed.cache[b.symbol := u], s.feed.writes + [u], s.feed.copied))
  {
    OfThread(s, t);
    assert FeedThreadOk(s.feed, t, s.threads[t]);
    hide Inv, WellFormed, Trim, InRange, ThreadOk;
  }

  lemma WrittenKept(c: Config, f: Feed, f': Feed, given: seq<Event>, u: nat, v: nat)
    requires u < |f.updates| && u !in f.writes && f.updates[u].book.Some? && v < |f.updates|
    requires UpdateKept(c, f, given, u) && UpdateKept(c, f, given, v)
    requires var b := Trim(f.updates[u].book.value, c.maxDepth);
             f'.updates == f.updates[u := f.updates[u].(book := Some(b))] && f'.writes == f.writes + [u]
    ensures UpdateKept(c, f', given, v)
  {
    TrimIsBest(f.updates[u].book.value, c.maxDepth);
    hide BestOf, Trim;
    assert v in f'.writes <==> v in f.writes || v == u;
  }

  lemma WrittenCache(c: Config, f: Feed, f': Feed, u: nat, x: string)
    requires u < |f.updates| && f.updates[u].book.Some? && CacheKept(f, x)
    requires var b := Trim(f.updates[u].book.value, c.maxDepth);
             f'.updates == f.updates[u := f.updates[u].(book := Some(b))] && f'.cache == f.cache[b.symbol := u]
    ensures CacheKept(f', x)
  {
    TrimSymbol(f.updates[u].book.value, c.maxDepth);
    hide Trim;
  }

  lemma TrimSymbol(b: Book, depth: nat)
    ensures Trim(b, depth).symbol == b.symbol
  {
  }

  /** A call of the data callback brings its update. */
  lemma DataKept(c: Config, given: seq<Event>, s: State, e: Event, s': State)
    requires Inv(s) && BooksInv(c, given, s) && e.OnData? && s'.subs == s.subs
    requires s'.feed == s.feed.(updates := s'.feed.updates) && |s'.feed.updates| == |s.feed.updates| + 1
    requires s'.feed.updates[..|s.feed.updates|] == s.feed.updates
    requires s'.feed.updates[|s.feed.updates|] == Update(e.symbol, e.book, |s.threads|)
    ensures BooksInv(c, given + [e], s')
  {
    hide *;
    BooksParts(c, given, s);
    AllWrittenBelow(s);
    forall v | 0 <= v < |s'.feed.updates|
      ensures UpdateKept(c, s'.feed, given + [e], v)
    {
      GrownKept(c, s.feed, s'.feed, given, e, v);
    }
    forall x
      ensures CacheKept(s'.feed, x)
    {
      GrownCache(s.feed, s'.feed, x);
    }
    forall r | 0 <= r < |s'.subs|
      ensures SentKept(c, given + [e], s'.subs[r].past.sent)
    {
      SentStays(c, given, e, s.subs[r].past.sent);
    }
    PartsBooks(c, given + [e], s');
  }

  lemma AllWrittenBelow(s: State)
    requires Inv(s)
    ensures |s.feed.updates| !in s.feed.writes
  {
    OfAll(s);
    hide Inv, LocksOk, CountsOk, UpdateOk, CacheOk;
  }

  lemma GrownKept(c: Config, f: Feed, f': Feed, given: seq<Event>, e: Event, v: nat)
    requires |given| == |f.updates| && |f'.updates| == |f.updates| + 1 && f'.updates[..|f.updates|] == f.updates
    requires e.OnData? && f'.updates[|f.updates|].symbol == e.symbol && f'.updates[|f.updates|].book == e.book
    requires f'.writes == f.writes && |f.updates| !in f.writes && v < |f'.updates|
    requires v < |f.updates| ==> UpdateKept(c, f, given, v)
    ensures UpdateKept(c, f', given + [e], v)
  {
    hide BestOf;
    if v < |f.updates| {
      assert f'.updates[..|f.updates|][v] == f.updates[v] && (given + [e])[v] == given[v];
    }
  }

  lemma GrownCache(f: Feed, f': Feed, x: string)
    requires |f'.updates| == |f.updates| + 1 && f'.updates[..|f.updates|] == f.updates && f'.cache == f.cache
    requires CacheKept(f, x)
    ensures CacheKept(f', x)
  {
    if x in f.cache {
      assert f'.updates[..|f.updates|][f.cache[x]] == f.updates[f.cache[x]];
    }
  }

  lemma SentStays(c: Config, given: seq<Event>, e: Event, sent: seq<Book>)
    requires SentKept(c, given, sent)
    ensures SentKept(c, given + [e], sent)
  {
    hide BestOf;
    forall i | 0 <= i < |sent|
      ensures FromGiven(given + [e], sent[i], c.maxDepth)
    {
      var u :| 0 <= u < |given| && given[u].OnData? && given[u].book.Some? &&
        BestOf(sent[i], given[u].book.value, c.maxDepth);
      assert (given + [e])[u] == given[u];
    }
  }

  // ---------------------------------------------------------------- runs

  lemma ThreadKept(c: Config, given: seq<Event>, s: State, t: nat, order: seq<nat>, ok: bool)
    requires Inv(s) && WellFormed(s) && BooksInv(c, given, s) && t < |s.threads|
    ensures BooksInv(c, given, RunThread(c, s, t, order, ok))
  {
    hide *;
    var pc, s' := s.threads[t], RunThread(c, s, t, order, ok);
    if pc.Write? {
      WriteKept(c, given, s, t, order, ok);
    } else if pc.Snapshot? {
      SnapshotSends(c, s, t, order, ok);
      QuietKept(c, given, s, s', pc.sub, if pc.symbol in s.feed.cache then s.feed.cache[pc.symbol] else 0);
    } else if pc.Drain? {
      DrainSends(c, s, t, order, ok);
      QuietKept(c, given, s, s', pc.sub, if s.subs[pc.sub].queue != [] then s.subs[pc.sub].queue[0] else 0);
    } else {
      ThreadSends(c, s, t, order, ok);
      QuietKept(c, given, s, s', |s.subs|, 0);
    }
  }

  lemma CallKept(c: Config, given: seq<Event>, s: State, e: Event)
    requires Inv(s) && WellFormed(s) && Enabled(s, e) && BooksInv(c, given, s) && !e.Run?
    ensures BooksInv(c, if e.OnData? then given + [e] else given, Step(c, s, e))
  {
    hide Inv, WellFormed, BooksInv;
    if e.OnData? {
      DataKept(c, given, s, e, Step(c, s, e));
    } else {
      assert e.Sweep? ==> s.hub.members[e.key] < |s.subs|;
      hide Enabled, Unlocked;
      CallSends(c, s, e);
      QuietKept(c, given, s, Step(c, s, e), |s.subs|, 0);
    }
  }

  lemma CallSends(c: Config, s: State, e: Event)
    requires WellFormed(s) && Enabled(s, e) && !e.Run? && !e.OnData?
    ensures var s' := Step(c, s, e);
            && s'.feed.updates == s.feed.updates && s'.feed.writes == s.feed.writes
            && (forall x :: x in s'.feed.cache ==> x in s.feed.cache && s'.feed.cache[x] == s.feed.cache[x])
            && |s.subs| <= |s'.subs| && (forall q :: |s.subs| <= q < |s'.subs| ==> s'.subs[q].past.sent == [])
            && (forall q :: 0 <= q < |s.subs| ==> s'.subs[q].past.sent == s.subs[q].past.sent)
  {
    hide WellFormed, Unlocked;
  }

  lemma {:induction false} RunKept(c: Config, given: seq<Event>, s: State, es: seq<Event>)
    requires Inv(s) && BooksInv(c, given, s) && Exec(c, s, es).Some?
    ensures BooksInv(c, given + Given(es), Exec(c, s, es).value)
    decreases |es|
  {
    hide Inv, BooksInv, WellFormed, Enabled, Step;
    if es == [] {
      assert given + Given(es) == given;
    } else {
      var e := es[0];
      var given' := if e.OnData? then given + [e] else given;
      StepKeepsInv(c, s, e);
      OneStepKept(c, given, s, e);
      RunKept(c, given', Step(c, s, e), es[1..]);
      assert given' + Given(es[1..]) == given + Given(es);
    }
  }

  lemma OneStepKept(c: Config, given: seq<Event>, s: State, e: Event)
    requires Inv(s) && WellFormed(s) && Enabled(s, e) && BooksInv(c, given, s)
    ensures BooksInv(c, if e.OnData? then given + [e] else given, Step(c, s, e))
  {
    hide Inv, WellFormed, BooksInv, RunThread;
    if e.Run? {
      ThreadKept(c, given, s, e.thread, e.order, e.ok);
    } else {
      CallKept(c, given, s, e);
    }
  }

  lemma ReachedKept(c: Config, es: seq<Event>, s: State)
    requires Reaches(c, es, s)
    ensures Inv(s) && BooksInv(c, Given(es), s)
  {
    InitInv();
    hide Inv;
    RunKeepsInv(c, Init, es);
    RunKept(c, [], Init, es);
    assert [] + Given(es) == Given(es);
  }

  /** In every run: the cached book of a symbol is of that symbol, and keeps the best levels of the book that the
      callback brought, as many as there were up to the depth. */
  lemma CachedIsBest(c: Config, es: seq<Event>, s: State, x: string)
    requires Reaches(c, es, s) && x in s.feed.cache
    ensures var u := s.feed.cache[x];
            && u < |s.feed.updates| == |Given(es)| && Given(es)[u].OnData? && Given(es)[u].book.Some?
            && s.feed.updates[u].book.Some? && s.feed.updates[u].book.value.symbol == x
            && BestOf(s.feed.updates[u].book.value, Given(es)[u].book.value, c.maxDepth)
  {
    ReachedKept(c, es, s);
    OfAll(s);
    BooksParts(c, Given(es), s);
    hide Inv, BooksInv, BestOf;
    assert CacheKept(s.feed, x);
    assert UpdateKept(c, s.feed, Given(es), s.feed.cache[x]);
  }

  /** In every run: every book that was sent to a client is some book that a callback brought, with its best levels up
      to the depth; so is every book that waits for a client, in its callback's place. */
  lemma SentIsBest(c: Config, es: seq<Event>, s: State, r: nat)
    requires Reaches(c, es, s) && r < |s.subs|
    ensures forall i :: 0 <= i < |s.subs[r].past.sent| ==> FromGiven(Given(es), s.subs[r].past.sent[i], c.maxDepth)
    ensures forall i :: 0 <= i < |s.subs[r].queue| ==>
              var u := s.subs[r].queue[i];
              && u < |s.feed.updates| == |Given(es)| && Given(es)[u].OnData?
              && (s.feed.updates[u].book.Some? ==>
                    && Given(es)[u].book.Some?
                    && BestOf(s.feed.updates[u].book.value, Given(es)[u].book.value, c.maxDepth))
  {
    ReachedKept(c, es, s);
    BooksParts(c, Given(es), s);
    hide BooksInv, BestOf, FromGiven;
    assert SentKept(c, Given(es), s.subs[r].past.sent);
    forall i | 0 <= i < |s.subs[r].queue|
      ensures s.subs[r].queue[i] < |s.feed.updates| && UpdateKept(c, s.feed, Given(es), s.subs[r].queue[i])
      ensures s.feed.updates[s.subs[r].queue[i]].book.Some? ==> s.subs[r].queue[i] in s.feed.writes
    {
      QueuedIsWritten(s, r, i);
    }
  }

  /** After an eviction the symbol has no cached book, whatever was written before, until one is written again; the
      other symbols keep theirs. */
  lemma EvictedUntilWritten(c: Config, s: State, x: string, es: seq<Event>)
    requires Inv(s) && WellFormed(s) && Enabled(s, EvictBook(x)) && Exec(c, Step(c, s, EvictBook(x)), es).Some?
    requires Exec(c, Step(c, s, EvictBook(x)), es).value.feed.writes == s.feed.writes
    ensures x !in Exec(c, Step(c, s, EvictBook(x)), es).value.feed.cache
    ensures forall y :: y in s.feed.cache && y != x ==> y in Step(c, s, EvictBook(x)).feed.cache
  {
    var s1 := Step(c, s, EvictBook(x));
    StepKeepsInv(c, s, EvictBook(x));
    StaysOut(c, s1, x, es);
  }

  /** Without a write the cache gains nothing. */
  lemma {:induction false} StaysOut(c: Config, s: State, x: string, es: seq<Event>)
    requires Inv(s) && x !in s.feed.cache && Exec(c, s, es).Some?
    ensures s.feed.writes <= Exec(c, s, es).value.feed.writes
    ensures Exec(c, s, es).value.feed.writes == s.feed.writes ==> x !in Exec(c, s, es).value.feed.cache
    decreases |es|
  {
    hide Inv, WellFormed, Enabled, Step;
    if es != [] {
      var s1 := Step(c, s, es[0]);
      StepKeepsInv(c, s, es[0]);
      WritesGrow(c, s, es[0]);
      if s1.feed.writes == s.feed.writes {
        StaysOut(c, s1, x, es[1..]);
      } else {
        OnlyGrows(c, s1, es[1..]);
      }
    }
  }

  lemma {:induction false} OnlyGrows(c: Config, s: State, es: seq<Event>)
    requires Inv(s) && Exec(c, s, es).Some?
    ensures s.feed.writes <= Exec(c, s, es).value.feed.writes
    decreases |es|
  {
    hide Inv, WellFormed, Enabled, Step;
    if es != [] {
      StepKeepsInv(c, s, es[0]);
      WritesGrow(c, s, es[0]);
      OnlyGrows(c, Step(c, s, es[0]), es[1..]);
    }
  }

  lemma WritesGrow(c: Config, s: State, e: Event)
    requires Inv(s) && WellFormed(s) && Enabled(s, e)
    ensures s.feed.writes <= Step(c, s, e).feed.writes
    ensures Step(c, s, e).feed.writes == s.feed.writes ==> Step(c, s, e).feed.cache.Keys <= s.feed.cache.Keys
  {
    hide Inv, WellFormed, RunThread, Unlocked;
    if e.Run? {
      var t := e.thread;
      if s.threads[t].Write? {
        WriteRuns(c, s, t, e.order, e.ok);
      } else if s.threads[t].Snapshot? {
        SnapshotSends(c, s, t, e.order, e.ok);
      } else if s.threads[t].Drain? {
        DrainSends(c, s, t, e.order, e.ok);
      } else {
        ThreadSends(c, s, t, e.order, e.ok);
      }
    }
  }
}
