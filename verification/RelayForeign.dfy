/** Why a callback must bring a book of its own symbol: a lone callback that does not can leave a client of either
    topic with an old book. */
module RelayForeign {
  import opened Relay
  import opened RelayInvariant
  import opened RelaySteps
  import opened RelayRuns
  import opened RelayEffects
  import opened RelayRules
  import opened RelayLifecycle
  import opened RelayOnce
  import opened RelayNames
  import opened RelayFresh
  import opened RelayAlone
  import opened RelayClient
  import opened RelayOverlap

  /** The last book that was sent to the client is another one, or none was. */
  predicate LastDiffers(past: Past, b: Book) { past.sent == [] || past.sent[|past.sent| - 1] != b }

  /** The end of a lone callback. */
  lemma LoneEndsOld(s: State, s': State, k: Key, r: nat, n: nat, cached: nat, b: Book)
    requires Quiet(s, k.symbol) && Inv(s) && |s'.threads| == |s.threads| + 1 && n == |s.threads|
    requires s'.threads[n] == Done
    requires forall i :: 0 <= i < |s.threads| ==> s'.threads[i] == s.threads[i]
    requires |s.feed.updates| <= |s'.feed.updates|
    requires forall v :: 0 <= v < |s.feed.updates| ==> s'.feed.updates[v].symbol == s.feed.updates[v].symbol
    requires CaughtUp(s', k, r) && r < |s'.subs| && k.symbol in s'.feed.cache && s'.feed.cache[k.symbol] == cached
    requires cached < |s'.feed.updates| && s'.feed.updates[cached].book == Some(b) && LastDiffers(s'.subs[r].past, b)
    ensures ShowsOld(s', k, r)
  {
    hide CaughtUp, Inv;
    forall i | 0 <= i < |s'.threads|
      ensures !Publishing(s', i, k.symbol)
    {
      if i < |s.threads| {
        assert !Publishing(s, i, k.symbol);
        CurrentInRange(s, i);
      } else {
        DoneIsQuiet(s', i, k.symbol);
      }
    }
    hide Publishing;
  }

  // ---------------------------------------------------------------- a callback of the topic with a book of another

  /** The client is sent a book that is not of its topic. */
  lemma OwnTopicOtherBook(c: Config, s: State, k: Key, r: nat, d: nat, b: Book, cached: Book)
    returns (es: seq<Event>, s': State)
    requires c.bufferSize > 0 && Client(s, k, r, d) && r < |s.subs| && s.subs[r].queue == []
    requires Quiet(s, k.symbol) && Unlocked(s.threads, k.symbol) && b.symbol != k.symbol
    requires k.symbol in s.feed.cache && s.feed.cache[k.symbol] < |s.feed.updates|
    requires s.feed.updates[s.feed.cache[k.symbol]].book == Some(cached) && cached != Trim(b, c.maxDepth)
    ensures Exec(c, Begun(s, k.symbol, b), es) == Some(s') && OnlyRuns(es) && ShowsOld(s', k, r)
  {
    var x, n, m, s1 := k.symbol, |s.threads|, |s.feed.updates|, Begun(s, k.symbol, b);
    hide Client, Inv, NamesInv, Exec, OnlyRuns, HasBook, Trim, Wrote, Shown, Copying, Unlocked, OthersUnlocked, Waits,
    Begun, Quiet,
      CaughtUp, ShowsOld;
    ClientRange(s, k, r, d);
    BegunClient(c, s, k, r, d, x, b);
    BegunParts(s, x, b, x);
    BegunUnlocked(s, x, b, x);
    UnlockedForAll(s1, n, x);
    var fs, s2 := WriteBook(c, s1, k, r, d, n, m);
    WroteParts(c, s1, n, m, x);
    WaitsNext(s2.threads[n], m, r);
    var gs;
    gs, s' := PublishWaiting(c, s2, k, r, d, n, m);
    ShownParts(s2, s', k, r, d, n, m);
    Joined2(c, s1, fs, s2, gs, s');
    es := fs + gs;
    ClientCaughtUp(s', k, r, d);
    LoneEndsOld(s, s', k, r, n, s.feed.cache[x], cached);
  }

  lemma BegunUnlocked(s: State, x: string, b: Book, y: string)
    requires Unlocked(s.threads, y)
    ensures Unlocked(Begun(s, x, b).threads, y)
  {
  }

  // ---------------------------------------------------------------- a callback of another topic with a book of the
  // topic

  lemma WriteElsewhere(c: Config, s: State, k: Key, r: nat, d: nat, z: string, b: Book)
    returns (es: seq<Event>, s': State)
    requires Client(s, k, r, d)
    ensures Exec(c, Begun(s, z, b), es) == Some(s') && OnlyRuns(es) && Inv(s') && NamesInv(s')
    ensures HasBook(Begun(s, z, b).feed, |s.feed.updates|) && |s.threads| < |Begun(s, z, b).threads|
    ensures s' == Wrote(c, Begun(s, z, b), |s.threads|, |s.feed.updates|)
  {
    hide *;
    var n, m, s1 := |s.threads|, |s.feed.updates|, Begun(s, z, b);
    BegunClient(c, s, k, r, d, z, b);
    ClientRange(s1, k, r, d);
    BegunParts(s, z, b, z);
    WriteSteps(c, s1, n, m);
    RunGoes(c, s1, n, []);
    s' := Wrote(c, s1, n, m);
    es := OneRun(c, s1, n, [], s');
    RunsOnly(es, n);
  }

  /** A topic that does not hold the client: its publisher ends without touching the client or its topic. */
  ghost predicate Elsewhere(s: State, s': State, k: Key, r: nat, t: nat)
    requires r < |s.subs|
  {
    && |s'.threads| == |s.threads| && t < |s.threads| && s'.threads[t] == Done
    && (forall i :: 0 <= i < |s.threads| && i != t ==> s'.threads[i] == s.threads[i])
    && s'.feed.updates == s.feed.updates && s'.feed.cache == s.feed.cache
    && r < |s'.subs| && s'.subs[r] == s.subs[r]
    && (k in s.hub.members ==> k in s'.hub.members && s'.hub.members[k] == s.hub.members[k])
  }

  lemma NotListed(s: State, r: nat, z: string, order: seq<nat>, u: nat)
    requires Inv(s) && r < |s.subs| && !HeldAt(s.hub.members, Key(z, s.subs[r].id), r)
    requires ListsMembers(s.hub.members, z, order)
    ensures r !in order && Clear(s, Visit(u, order), r, z)
  {
    hide Inv;
    if r in order {
      ListedKey(s, z, order, r);
    }
    hide ListsMembers;
  }

  lemma HeldOfTopic(s: State, k: Key, r: nat, z: string)
    requires OnceInv(s) && FreshInv(s, r, k.symbol) && k in s.hub.members && s.hub.members[k] == r && r < |s.subs|
    requires s.subs[r].stream.Some? && z != k.symbol
    ensures !HeldAt(s.hub.members, Key(z, s.subs[r].id), r)
  {
    FreshParts(s, r, k.symbol);
    hide FreshInv, OnceNamed, OnceClient, OnceSub;
    assert OnceMember(s.hub.members, s.subs, k);
    assert OnceMember(s.hub.members, s.subs, Key(z, s.subs[r].id));
  }

  lemma PublishElsewhere(c: Config, s: State, k: Key, r: nat, t: nat, u: nat, z: string)
    returns (es: seq<Event>, s': State)
    requires Inv(s) && NamesInv(s) && s.status.Running? && t < |s.threads| && s.threads[t] == Lookup(u)
    requires u < |s.feed.updates| && s.feed.updates[u].symbol == z && TopicOpen(s, z) && OthersUnlocked(s, t, z)
    requires r < |s.subs| && !HeldAt(s.hub.members, Key(z, s.subs[r].id), r) && z != k.symbol
    ensures Exec(c, s, es) == Some(s') && OnlyRuns(es) && Elsewhere(s, s', k, r, t)
  {
    hide *;
    if z in s.hub.topics {
      CopyingOf(s, t, u, z);
      var fs, s1, order := CopyMembers(c, s, t, u, z);
      NotListed(s, r, z, order, u);
      CopiedElsewhere(s, t, u, order, r, z);
      VisitPends(u, order);
      var gs;
      gs, s' := Finish(c, s1, t, u, z, r);
      RunsOnly(fs, t);
      RunsOnly(gs, t);
      Joined2(c, s, fs, s1, gs, s');
      es := fs + gs;
      FinishedElsewhere(s, s1, s', k, r, t, u, order, z);
    } else {
      RunGoes1(c, s, t, u);
      s' := DoLookup(s, t, u);
      es := OneRun(c, s, t, [], s');
      RunsOnly(es, t);
      LookedElsewhere(s, k, r, t, u);
    }
  }

  lemma CopiedElsewhere(s: State, t: nat, u: nat, order: seq<nat>, r: nat, z: string)
    requires t < |s.threads| && r < |s.subs| && Clear(s, Visit(u, order), r, z)
    ensures var s' := Goto(s.(feed := s.feed.(copied := s.feed.copied + {u})), t, Visit(u, order));
            t < |s'.threads| && s'.threads[t] == Visit(u, order) && r < |s'.subs| && Clear(s', s'.threads[t], r, z)
  {
  }

  lemma FinishedElsewhere(s: State, s1: State, s': State, k: Key, r: nat, t: nat, u: nat, order: seq<nat>, z: string)
    requires t < |s.threads| && r < |s.subs| && z != k.symbol
    requires s1 == Goto(s.(feed := s.feed.(copied := s.feed.copied + {u})), t, Visit(u, order))
    requires r < |s1.subs| && Spares(s1, s', t, r, z) && t < |s'.threads| && s'.threads[t] == Done
    ensures Elsewhere(s, s', k, r, t)
  {
    hide TopicOpen;
  }

  lemma RunGoes1(c: Config, s: State, t: nat, u: nat)
    requires Inv(s) && s.status.Running? && t < |s.threads| && s.threads[t] == Lookup(u) && u < |s.feed.updates|
    ensures WellFormed(s) && Enabled(s, Run(t, [], true)) && Step(c, s, Run(t, [], true)) == DoLookup(s, t, u)
  {
    hide Inv, WellFormed, Enabled, Step, NamesInv, DoLookup;
    RunGoes(c, s, t, []);
  }

  lemma LookedElsewhere(s: State, k: Key, r: nat, t: nat, u: nat)
    requires t < |s.threads| && s.threads[t] == Lookup(u) && u < |s.feed.updates| && r < |s.subs|
    requires s.feed.updates[u].symbol !in s.hub.topics
    ensures Elsewhere(s, DoLookup(s, t, u), k, r, t)
  {
  }

  /** The cache gets a book of the client's topic that the client is not sent. */
  lemma OtherTopicOwnBook(c: Config, s: State, k: Key, r: nat, d: nat, z: string, b: Book)
    returns (es: seq<Event>, s': State)
    requires Client(s, k, r, d) && r < |s.subs| && s.subs[r].queue == [] && OnceInv(s) && FreshInv(s, r, k.symbol)
    requires Quiet(s, k.symbol) && Unlocked(s.threads, z) && TopicOpen(s, z) && z != k.symbol && b.symbol == k.symbol
    requires LastDiffers(s.subs[r].past, Trim(b, c.maxDepth))
    ensures Exec(c, Begun(s, z, b), es) == Some(s') && OnlyRuns(es) && ShowsOld(s', k, r)
  {
    hide *;
    var n, m, s1 := |s.threads|, |s.feed.updates|, Begun(s, z, b);
    ClientCaughtUp(s, k, r, d);
    ClientRange(s, k, r, d);
    StreamsTo(s, k, r);
    HeldOfTopic(s, k, r, z);
    var fs, s2 := WriteElsewhere(c, s, k, r, d, z, b);
    WroteElsewhere(c, s, z, b);
    var gs;
    gs, s' := PublishElsewhere(c, s2, k, r, n, m, z);
    Joined2(c, s1, fs, s2, gs, s');
    es := fs + gs;
    ElsewhereCaughtUp(s, s2, s', k, r, n);
    ElsewhereParts(s2, s', k, r, n);
    LoneEndsOld(s, s', k, r, n, m, Trim(b, c.maxDepth));
  }

  lemma StreamsTo(s: State, k: Key, r: nat)
    requires CaughtUp(s, k, r)
    ensures r < |s.subs| && s.subs[r].stream.Some? && k in s.hub.members && s.hub.members[k] == r
  {
  }

  lemma WroteElsewhere(c: Config, s: State, z: string, b: Book)
    requires HasBook(Begun(s, z, b).feed, |s.feed.updates|) && |s.threads| < |Begun(s, z, b).threads|
    requires TopicOpen(s, z) && Unlocked(s.threads, z)
    ensures var n, m, s' := |s.threads|, |s.feed.updates|, Wrote(c, Begun(s, z, b), |s.threads|, |s.feed.updates|);
            && s'.hub == s.hub && s'.subs == s.subs && s'.status == s.status
            && |s'.threads| == n + 1 && s'.threads[n] == Lookup(m) &&
              (forall i :: 0 <= i < n ==> s'.threads[i] == s.threads[i])
            && |s'.feed.updates| == m + 1 && s'.feed.updates[m].symbol == z &&
              s'.feed.updates[m].book == Some(Trim(b, c.maxDepth))
            && (forall v :: 0 <= v < m ==> s'.feed.updates[v].symbol == s.feed.updates[v].symbol)
            && b.symbol in s'.feed.cache && s'.feed.cache[b.symbol] == m
            && TopicOpen(s', z) && OthersUnlocked(s', n, z)
  {
  }

  lemma ElsewhereCaughtUp(s: State, s1: State, s': State, k: Key, r: nat, t: nat)
    requires CaughtUp(s, k, r) && r < |s1.subs| && s1.hub == s.hub && s1.subs == s.subs && Elsewhere(s1, s', k, r, t)
    ensures CaughtUp(s', k, r)
  {
  }

  lemma ElsewhereParts(s: State, s': State, k: Key, r: nat, t: nat)
    requires r < |s.subs| && Elsewhere(s, s', k, r, t)
    ensures |s'.threads| == |s.threads| && t < |s.threads| && s'.threads[t] == Done && r < |s'.subs|
    ensures s'.subs[r] == s.subs[r]
    ensures forall i :: 0 <= i < |s.threads| && i != t ==> s'.threads[i] == s.threads[i]
    ensures s'.feed.updates == s.feed.updates && s'.feed.cache == s.feed.cache
  {
  }

  // ---------------------------------------------------------------- exactly which lone callbacks

  /** When nothing of its topic is being published, a callback that names the topic or brings a book of it can leave a
      client with an old book if and only if it does not do both. */
  lemma ForeignIff(c: Config, es: seq<Event>, s: State, k: Key, r: nat, d: nat, z: string, b: Book)
    requires Reaches(c, es, s) && Obeys(c, InTurn(r, k.symbol), Init, es)
    requires c.bufferSize > 0 && Served(s, k, r, d) && r < |s.subs| && s.subs[r].queue == [] && Quiet(s, k.symbol)
    requires TopicOpen(s, k.symbol) && TopicOpen(s, z) && Unlocked(s.threads, z)
    requires k.symbol in s.feed.cache && LastDiffers(s.subs[r].past, Trim(b, c.maxDepth))
    ensures CanShowOld(c, s, z, b, k, r) <==> (z == k.symbol) != (b.symbol == k.symbol)
  {
    hide *;
    ReachedClient(c, es, s, k, r, d);
    ReachedInTurn(c, es, s, r, k.symbol);
    if (z == k.symbol) == (b.symbol == k.symbol) {
      QuietInTurn(s, z, b, k.symbol, r);
      InTurnCannot(c, s, z, b, k, r);
    } else {
      BegunClient(c, s, k, r, d, z, b);
      ClientRange(s, k, r, d);
      var fs: seq<Event>, s' : State;
      if z == k.symbol {
        CachedOfTopic(s, r, z, b, c.maxDepth);
        fs, s' := OwnTopicOtherBook(c, s, k, r, d, b, s.feed.updates[s.feed.cache[z]].book.value);
      } else {
        fs, s' := OtherTopicOwnBook(c, s, k, r, d, z, b);
      }
      RunsInTurn(c, Begun(s, z, b), fs, r, k.symbol);
      CanLeaveOld(c, s, z, b, k, r, fs, s');
    }
  }

  /** The cached book is of its topic. */
  lemma CachedOfTopic(s: State, r: nat, x: string, b: Book, depth: nat)
    requires Inv(s) && FreshInv(s, r, x) && x in s.feed.cache
    ensures var m := s.feed.cache[x];
            m < |s.feed.updates| && s.feed.updates[m].book.Some? &&
              (b.symbol != x ==> s.feed.updates[m].book.value != Trim(b, depth))
  {
    FreshParts(s, r, x);
    OfAll(s);
    hide Inv, FreshInv;
    WritesInRange(s);
  }
}
