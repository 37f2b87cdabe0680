/** Why a book must not come while an earlier one is yet to be offered to a client: exactly then the client can be
    left with a book other than the cached one. */
module RelayOverlap {
  import opened Relay
  import opened RelayInvariant
  import opened RelaySteps
  import opened RelayRuns
  import opened RelayEffects
  import opened RelayRules
  import opened RelayLifecycle
  import opened RelayOnce
  import opened RelayNames
  import opened RelayFresh
  import opened RelayAlone
  import opened RelayClient

  // ---------------------------------------------------------------- two publishers

  /** The thread is about to look up the topic, to copy its members, or to come to the client. */
  ghost predicate Waits(pc: Thread, u: nat, r: nat) { pc == Lookup(u) || pc == Copy(u) || AtMember(pc, u, r) }

  lemma WaitsForClient(s: State, k: Key, r: nat, d: nat, t: nat, u: nat)
    requires Client(s, k, r, d) && t < |s.threads| && Waits(s.threads[t], u, r) && Unlocked(s.threads, k.symbol)
    requires u < |s.feed.updates| && s.feed.updates[u].symbol == k.symbol
    ensures if AtMember(s.threads[t], u, r) then Ready(s, t, u, k.symbol) else Copying(s, t, u, k.symbol)
  {
    hide *;
    ClientRange(s, k, r, d);
    OfMember(s, k);
    OpenOrFlagged(s, r);
    UnlockedForAll(s, t, k.symbol);
    if AtMember(s.threads[t], u, r) {
      ReadyOf(s, t, u, k.symbol, r);
    } else {
      WaitsToCopy(s.threads[t], u, r);
      CopyingOf(s, t, u, k.symbol);
    }
  }

  lemma WaitsToCopy(pc: Thread, u: nat, r: nat)
    requires Waits(pc, u, r) && !AtMember(pc, u, r)
    ensures pc == Lookup(u) || pc == Copy(u)
  {
  }

  lemma ReadyOf(s: State, t: nat, u: nat, x: string, r: nat)
    requires Inv(s) && NamesInv(s) && s.status.Running? && t < |s.threads| && AtMember(s.threads[t], u, r)
    requires u < |s.feed.updates| && s.feed.updates[u].symbol == x && r < |s.subs| && !s.subs[r].closed
    requires TopicOpen(s, x) && OthersUnlocked(s, t, x)
    ensures Ready(s, t, u, x)
  {
    hide Inv, NamesInv, TopicOpen, OthersUnlocked;
  }

  lemma PublishWaiting(c: Config, s: State, k: Key, r: nat, d: nat, t: nat, u: nat) returns (es: seq<Event>, s': State)
    requires Client(s, k, r, d) && r < |s.subs| && s.subs[r].queue == [] && c.bufferSize > 0 && HasBook(s.feed, u)
    requires u < |s.feed.updates| && s.feed.updates[u].symbol == k.symbol
    requires t < |s.threads| && Waits(s.threads[t], u, r) && Unlocked(s.threads, k.symbol)
    ensures Exec(c, s, es) == Some(s') && OnlyRuns(es) && Shown(s, s', k, r, d, t, u) && Unlocked(s'.threads, k.symbol)
  {
    hide *;
    WaitsForClient(s, k, r, d, t, u);
    if AtMember(s.threads[t], u, r) {
      es, s' := Show(c, s, k, r, d, t, u);
    } else {
      es, s' := Publish(c, s, k, r, d, t, u);
    }
    ShownUnlocked(s, s', k, r, d, t, u);
  }

  lemma ShownUnlocked(s: State, s': State, k: Key, r: nat, d: nat, t: nat, u: nat)
    requires r < |s.subs| && HasBook(s.feed, u) && Shown(s, s', k, r, d, t, u) && Unlocked(s.threads, k.symbol)
    ensures Unlocked(s'.threads, k.symbol)
  {
    hide Client;
  }

  /** Two callbacks have begun: thread `t` with update `u`, thread `n` with update `m` that is not yet written. */
  ghost predicate Both(s: State, k: Key, r: nat, d: nat, t: nat, u: nat, n: nat, m: nat) {
    && Client(s, k, r, d) && r < |s.subs| && s.subs[r].queue == [] && Unlocked(s.threads, k.symbol)
    && t < |s.threads| && n < |s.threads| && t != n && s.threads[n] == Write(m) && u != m
    && HasBook(s.feed, u) && s.feed.updates[u].symbol == k.symbol
    && HasBook(s.feed, m) && s.feed.updates[m].symbol == k.symbol && s.feed.updates[m].book.value.symbol == k.symbol
  }

  /** The end of both: `cached` is the cached book, `last` the book that the client was sent last. */
  ghost predicate BothEnded(s: State, s': State, k: Key, r: nat, d: nat, t: nat, n: nat, cached: Book, last: Book) {
    && Client(s', k, r, d) && r < |s'.subs| && s'.subs[r].queue == []
    && s'.subs[r].past.sent != [] && s'.subs[r].past.sent[|s'.subs[r].past.sent| - 1] == last
    && k.symbol in s'.feed.cache && s'.feed.cache[k.symbol] < |s'.feed.updates|
    && s'.feed.updates[s'.feed.cache[k.symbol]].book == Some(cached)
    && |s'.threads| == |s.threads| && t < |s.threads| && n < |s.threads| && s'.threads[t] == Done &&
      s'.threads[n] == Done
    && (forall i :: 0 <= i < |s.threads| && i != t && i != n ==> s'.threads[i] == s.threads[i])
    && |s'.feed.updates| == |s.feed.updates| &&
      (forall v :: 0 <= v < |s.feed.updates| ==> s'.feed.updates[v].symbol == s.feed.updates[v].symbol)
  }

  lemma BothRange(s: State, k: Key, r: nat, d: nat, t: nat, u: nat, n: nat, m: nat)
    requires Both(s, k, r, d, t, u, n, m)
    ensures Client(s, k, r, d) && r < |s.subs| && s.subs[r].queue == [] && Unlocked(s.threads, k.symbol)
    ensures t < |s.threads| && n < |s.threads| && t != n && s.threads[n] == Write(m) && u != m
    ensures HasBook(s.feed, u) && u < |s.feed.updates| && s.feed.updates[u].book.Some?
    ensures s.feed.updates[u].symbol == k.symbol
    ensures HasBook(s.feed, m) && m < |s.feed.updates| && s.feed.updates[m].book.Some?
    ensures s.feed.updates[m].symbol == k.symbol && s.feed.updates[m].book.value.symbol == k.symbol
  {
    hide Client, Unlocked;
  }

  lemma UnlockedForAll(s: State, t: nat, x: string)
    requires Unlocked(s.threads, x)
    ensures OthersUnlocked(s, t, x)
  {
  }

  /** What the write of update `m` leaves as it was. */
  lemma WroteParts(c: Config, s: State, t: nat, m: nat, x: string)
    requires t < |s.threads| && HasBook(s.feed, m)
    ensures var s', b := Wrote(c, s, t, m), Trim(s.feed.updates[m].book.value, c.maxDepth);
            && s'.subs == s.subs && s'.threads == s.threads[t := Lookup(m)] &&
              s'.feed.cache == s.feed.cache[s.feed.updates[m].book.value.symbol := m]
            && |s'.feed.updates| == |s.feed.updates| && HasBook(s'.feed, m) && s'.feed.updates[m].book == Some(b)
            && (forall v :: 0 <= v < |s.feed.updates| ==> s'.feed.updates[v].symbol == s.feed.updates[v].symbol)
            && (forall v :: 0 <= v < |s.feed.updates| && v != m ==> s'.feed.updates[v] == s.feed.updates[v])
            && (forall v :: HasBook(s'.feed, v) <==> HasBook(s.feed, v))
            && (Unlocked(s.threads, x) ==> Unlocked(s'.threads, x))
  {
  }

  /** The earlier callback has written but has yet to come to the client: the later one overtakes it. */
  lemma LaterFirst(c: Config, s: State, k: Key, r: nat, d: nat, t: nat, u: nat, n: nat, m: nat)
    returns (es: seq<Event>, s': State)
    requires c.bufferSize > 0 && Both(s, k, r, d, t, u, n, m) && t < |s.threads| && Waits(s.threads[t], u, r)
    requires HasBook(s.feed, u) && HasBook(s.feed, m)
    ensures Exec(c, s, es) == Some(s') && OnlyRuns(es)
    ensures BothEnded(s, s', k, r, d, t, n, Trim(s.feed.updates[m].book.value, c.maxDepth),
                      s.feed.updates[u].book.value)
  {
    hide Client, Both, Waits, Exec, OnlyRuns, HasBook, Trim, Wrote, Shown, Copying, Unlocked, OthersUnlocked;
    BothRange(s, k, r, d, t, u, n, m);
    UnlockedForAll(s, n, k.symbol);
    var fs, s1 := WriteBook(c, s, k, r, d, n, m);
    WroteParts(c, s, n, m, k.symbol);
    WaitsNext(s1.threads[n], m, r);
    var gs, s2 := PublishWaiting(c, s1, k, r, d, n, m);
    ShownParts(s1, s2, k, r, d, n, m);
    var hs;
    hs, s' := PublishWaiting(c, s2, k, r, d, t, u);
    ShownParts(s2, s', k, r, d, t, u);
    Joined2(c, s, fs, s1, gs, s2);
    Joined2(c, s, fs + gs, s2, hs, s');
    es := (fs + gs) + hs;
  }

  /** The earlier callback has yet to write: it writes last and is offered first. */
  lemma EarlierLast(c: Config, s: State, k: Key, r: nat, d: nat, t: nat, u: nat, n: nat,
                    m: nat) returns (es: seq<Event>, s': State)
    requires c.bufferSize > 0 && Both(s, k, r, d, t, u, n, m) && t < |s.threads| && s.threads[t] == Write(u)
    requires HasBook(s.feed, u) && HasBook(s.feed, m) && s.feed.updates[u].book.value.symbol == k.symbol
    ensures Exec(c, s, es) == Some(s') && OnlyRuns(es)
    ensures BothEnded(s, s', k, r, d, t, n, Trim(s.feed.updates[u].book.value, c.maxDepth),
                      Trim(s.feed.updates[m].book.value, c.maxDepth))
  {
    hide Client, Both, Waits, Exec, OnlyRuns, HasBook, Trim, Wrote, Shown, Copying, Unlocked, OthersUnlocked;
    BothRange(s, k, r, d, t, u, n, m);
    UnlockedForAll(s, n, k.symbol);
    var fs, s1 := WriteBook(c, s, k, r, d, n, m);
    WroteParts(c, s, n, m, k.symbol);
    UnlockedForAll(s1, t, k.symbol);
    var gs, s2 := WriteBook(c, s1, k, r, d, t, u);
    WroteParts(c, s1, t, u, k.symbol);
    WaitsNext(s2.threads[t], u, r);
    WaitsNext(s2.threads[n], m, r);
    var hs, s3 := PublishWaiting(c, s2, k, r, d, t, u);
    ShownParts(s2, s3, k, r, d, t, u);
    var ks;
    ks, s' := PublishWaiting(c, s3, k, r, d, n, m);
    ShownParts(s3, s', k, r, d, n, m);
    Joined2(c, s, fs, s1, gs, s2);
    Joined2(c, s, fs + gs, s2, hs, s3);
    Joined2(c, s, (fs + gs) + hs, s3, ks, s');
    es := ((fs + gs) + hs) + ks;
  }

  lemma WaitsNext(pc: Thread, u: nat, r: nat)
    requires pc == Lookup(u)
    ensures Waits(pc, u, r)
  {
  }

  lemma ShownParts(s: State, s': State, k: Key, r: nat, d: nat, t: nat, u: nat)
    requires r < |s.subs| && HasBook(s.feed, u) && Shown(s, s', k, r, d, t, u)
    ensures Client(s', k, r, d) && r < |s'.subs| && s'.subs[r].queue == [] && u < |s.feed.updates|
    ensures s.feed.updates[u].book.Some?
    ensures s'.subs[r].past.sent != []
    ensures s'.subs[r].past.sent[|s'.subs[r].past.sent| - 1] == s.feed.updates[u].book.value
    ensures s'.feed.updates == s.feed.updates && s'.feed.cache == s.feed.cache && t < |s.threads|
    ensures |s'.threads| == |s.threads| && s'.threads[t] == Done && forall i ::
              0 <= i < |s.threads| && i != t ==> s'.threads[i] == s.threads[i]
    ensures forall v :: HasBook(s'.feed, v) <==> HasBook(s.feed, v)
  {
    ClientRange(s', k, r, d);
    hide Client;
  }

  // ---------------------------------------------------------------- a further callback

  /** The relay after a callback for topic `x` with a book has begun. */
  ghost function Begun(s: State, x: string, b: Book): State {
    Spawn(s.(feed := s.feed.(updates := s.feed.updates + [Update(x, Some(b), |s.threads|)])), Write(|s.feed.updates|))
  }

  lemma BeginSteps(c: Config, s: State, x: string, b: Book)
    requires Inv(s) && NamesInv(s) && s.status.Running?
    ensures WellFormed(s) && Enabled(s, OnData(x, Some(b))) && Step(c, s, OnData(x, Some(b))) == Begun(s, x, b)
    ensures Inv(Begun(s, x, b)) && NamesInv(Begun(s, x, b))
  {
    hide Inv, NamesInv, WellFormed;
    InvImpliesWellFormed(s);
    InvStep(c, s, OnData(x, Some(b)));
    NamesStep(c, s, OnData(x, Some(b)));
  }

  lemma BegunParts(s: State, x: string, b: Book, y: string)
    ensures var s', n, m := Begun(s, x, b), |s.threads|, |s.feed.updates|;
            && s'.hub == s.hub && s'.subs == s.subs && s'.status == s.status && s'.feed.cache == s.feed.cache
            && |s'.threads| == n + 1 && s'.threads[n] == Write(m) &&
              (forall i :: 0 <= i < n ==> s'.threads[i] == s.threads[i])
            && |s'.feed.updates| == m + 1 && s'.feed.updates[m] == Update(x, Some(b), n)
            && (forall v :: 0 <= v < m ==> s'.feed.updates[v] == s.feed.updates[v])
            && HasBook(s'.feed, m) && (forall v :: HasBook(s.feed, v) ==> HasBook(s'.feed, v))
            && (TopicOpen(s, y) ==> TopicOpen(s', y))
  {
  }

  lemma BegunClient(c: Config, s: State, k: Key, r: nat, d: nat, x: string, b: Book)
    requires Client(s, k, r, d)
    ensures WellFormed(s) && Enabled(s, OnData(x, Some(b))) && Step(c, s, OnData(x, Some(b))) == Begun(s, x, b)
    ensures Client(Begun(s, x, b), k, r, d)
  {
    hide *;
    ClientRange(s, k, r, d);
    BeginSteps(c, s, x, b);
    BegunParts(s, x, b, k.symbol);
    ClientOf(Begun(s, x, b), k, r, d);
  }

  // ---------------------------------------------------------------- until both can go on

  /** Only threads `t` and `n` are in a callback of the topic. */
  ghost predicate OnlyTwo(s: State, t: nat, n: nat, x: string) {
    forall i :: 0 <= i < |s.threads| && i != t && i != n ==> !Publishing(s, i, x)
  }

  /** Callback `t` has a book that it has yet to offer to the client, and callback `n` has just begun. */
  ghost predicate Overlapped(s: State, k: Key, r: nat, d: nat, t: nat, u: nat, n: nat, m: nat) {
    && Client(s, k, r, d) && t < |s.threads| && Current(s.threads[t]) == Some(u) && HasBook(s.feed, u)
    && s.feed.updates[u].symbol == k.symbol && (BeforeCopy(s.threads[t]) || r in Pending(s.threads[t])) && !Doomed(s, t)
    && n < |s.threads| && t != n && s.threads[n] == Write(m) && u != m
    && HasBook(s.feed, m) && s.feed.updates[m].symbol == k.symbol && s.feed.updates[m].book.value.symbol == k.symbol
    && OnlyTwo(s, t, n, k.symbol)
  }

  lemma OverlapParts(s: State, k: Key, r: nat, d: nat, t: nat, u: nat, n: nat, m: nat)
    requires Overlapped(s, k, r, d, t, u, n, m)
    ensures Client(s, k, r, d) && t < |s.threads| && Current(s.threads[t]) == Some(u) && HasBook(s.feed, u)
    ensures u < |s.feed.updates|
    ensures s.feed.updates[u].symbol == k.symbol && (BeforeCopy(s.threads[t]) || r in Pending(s.threads[t]))
    ensures !Doomed(s, t)
    ensures n < |s.threads| && t != n && s.threads[n] == Write(m) && u != m && HasBook(s.feed, m)
    ensures m < |s.feed.updates|
    ensures s.feed.updates[m].symbol == k.symbol && s.feed.updates[m].book.Some?
    ensures s.feed.updates[m].book.value.symbol == k.symbol
    ensures OnlyTwo(s, t, n, k.symbol)
  {
    hide Client, OnlyTwo, Doomed, Pending, BeforeCopy;
  }

  lemma OnlyTwoStays(s: State, s': State, t: nat, n: nat, x: string)
    requires OnlyTwo(s, t, n, x) && s'.feed == s.feed && |s'.threads| == |s.threads|
    requires forall i :: 0 <= i < |s.threads| && i != t && i != n ==>
               s'.threads[i] == s.threads[i] || s'.threads[i] == Done
    ensures OnlyTwo(s', t, n, x)
  {
    forall i | 0 <= i < |s'.threads| && i != t && i != n
      ensures !Publishing(s', i, x)
    {
      assert !Publishing(s, i, x);
    }
  }

  /** The two callbacks stay where they matter, or thread `t` goes on to other members. */
  lemma StillOverlapped(s: State, s': State, k: Key, r: nat, d: nat, t: nat, u: nat, n: nat, m: nat)
    requires Overlapped(s, k, r, d, t, u, n, m) && Client(s', k, r, d) && s'.feed == s.feed && t < |s'.threads|
    requires Current(s'.threads[t]) == Some(u) && (BeforeCopy(s'.threads[t]) || r in Pending(s'.threads[t]))
    requires !Doomed(s', t)
    requires |s'.threads| == |s.threads|
    requires forall i :: 0 <= i < |s.threads| && i != t ==> s'.threads[i] == s.threads[i] || s'.threads[i] == Done
    requires n < |s'.threads| && s'.threads[n] == Write(m)
    ensures Overlapped(s', k, r, d, t, u, n, m)
  {
    OverlapParts(s, k, r, d, t, u, n, m);
    OnlyTwoStays(s, s', t, n, k.symbol);
    hide Client, Doomed, Pending, BeforeCopy, OnlyTwo;
  }

  // ---------------------------------------------------------------- a removal of another member is finished first

  /** A thread that removes another member of the topic, in a call of Unsubscribe or a sweep. */
  lemma LockHolder(s: State, k: Key, r: nat, d: nat, t: nat, u: nat, n: nat, m: nat, w: nat)
    requires Overlapped(s, k, r, d, t, u, n, m) && w < |s.threads| && w != t && s.threads[w].Close?
    requires s.threads[w].key.symbol == k.symbol
    ensures var pc := s.threads[w];
            && pc.next.End? && HeldAt(s.hub.members, pc.key, pc.sub) && pc.sub < |s.subs| && pc.sub != r
            && s.subs[pc.sub].flag && !s.subs[pc.sub].closed && s.subs[pc.sub].id == pc.key.id
  {
    OverlapParts(s, k, r, d, t, u, n, m);
    ClientRange(s, k, r, d);
    OfThread(s, w);
    OfMember(s, s.threads[w].key);
    assert NamesApart(s.feed, s.subs, s.threads[w]);
    assert !Publishing(s, w, k.symbol);
    hide Inv, Client, Overlapped, OnlyTwo, FeedThreadOk, PublisherOk, StreamerOk, InRange, Doomed, Untouched;
  }

  /** One step of a thread that is about to send to another member. */
  lemma SendOn(c: Config, s: State, k: Key, r: nat, d: nat, t: nat, u: nat, n: nat, m: nat)
    returns (es: seq<Event>, s': State)
    requires Overlapped(s, k, r, d, t, u, n, m) && t < |s.threads| && s.threads[t].Send? && r < |s.subs|
    requires Head(s.threads[t]) != Some(r)
    ensures Exec(c, s, es) == Some(s') && OnlyRuns(es) && Overlapped(s', k, r, d, t, u, n, m)
    ensures t < |s'.threads| && !s'.threads[t].Send? && !s'.threads[t].Close? && s'.feed == s.feed
    ensures |s'.threads| == |s.threads| && forall i :: 0 <= i < |s.threads| && i != t ==> s'.threads[i] == s.threads[i]
  {
    hide *;
    OverlapParts(s, k, r, d, t, u, n, m);
    ClientRange(s, k, r, d);
    SendsOn(c, s, t, u, k.symbol, r);
    s' := RunThread(c, s, t, [], true);
    es := OneRun(c, s, t, [], s');
    RunsOnly(es, t);
    SparedSame(s, s', t, r, k.symbol);
    NotDrainer(s, t, d, k.symbol, r);
    SparedClient(s, s', k, r, d, t);
    StillOverlapped(s, s', k, r, d, t, u, n, m);
  }

  lemma NotDrainer(s: State, t: nat, d: nat, x: string, r: nat)
    requires t < |s.threads| && !s.threads[t].Drain? && d < |s.threads| && s.threads[d] == Drain(x, r)
    ensures t != d
  {
  }

  lemma SendsOn(c: Config, s: State, t: nat, u: nat, x: string, r: nat)
    requires Inv(s) && NamesInv(s) && s.status.Running? && t < |s.threads| && s.threads[t].Send?
    requires Current(s.threads[t]) == Some(u)
    requires u < |s.feed.updates| && s.feed.updates[u].symbol == x && r < |s.subs| && Head(s.threads[t]) != Some(r)
    requires (BeforeCopy(s.threads[t]) || r in Pending(s.threads[t])) && !Doomed(s, t)
    ensures var e := Run(t, [], true); WellFormed(s) && Enabled(s, e) && Step(c, s, e) == RunThread(c, s, t, [], true)
    ensures var s' := RunThread(c, s, t, [], true);
            && Inv(s') && NamesInv(s') && Spares(s, s', t, r, x) && t < |s'.threads| &&
              (s'.threads[t].Visit? || s'.threads[t].Drop?)
            && Current(s'.threads[t]) == Some(u) && r in Pending(s'.threads[t]) && !Doomed(s', t)
  {
    hide *;
    AboutToSend(s, t, u, r);
    NamesOf(s, t);
    PendingClear(s, t, u, r, x);
    SendInRange2(s, t);
    ServingOf(s, t, u, x, r);
    RunGoes(c, s, t, []);
    SendSpares(c, s, t, u, x, r);
    SendRuns(c, s, t, u);
    OnwardParts(s, DoSend(c, s, t, u, s.threads[t].rest), t, u, x, r);
  }

  lemma AboutToSend(s: State, t: nat, u: nat, r: nat)
    requires t < |s.threads| && s.threads[t].Send? && Head(s.threads[t]) != Some(r)
    requires BeforeCopy(s.threads[t]) || r in Pending(s.threads[t])
    ensures !BeforeCopy(s.threads[t]) && r in Pending(s.threads[t]) && !AtMember(s.threads[t], u, r)
    ensures Runnable(s, s.threads[t], [])
  {
  }

  lemma NamesOf(s: State, t: nat)
    requires NamesInv(s) && t < |s.threads|
    ensures NamesApart(s.feed, s.subs, s.threads[t])
  {
    hide NamesApart;
  }

  lemma SendInRange2(s: State, t: nat)
    requires Inv(s) && t < |s.threads| && s.threads[t].Send? && !Doomed(s, t)
    ensures InRange(|s.feed.updates|, |s.subs|, s.threads[t])
    ensures s.threads[t].rest != [] && s.threads[t].rest[0] < |s.subs| && !s.subs[s.threads[t].rest[0]].closed
  {
    hide Inv;
    OfThread(s, t);
    hide FeedThreadOk, PublisherOk, CloserOk, StreamerOk;
  }

  lemma ServingOf(s: State, t: nat, u: nat, x: string, r: nat)
    requires t < |s.threads| && r < |s.subs| && s.status.Running? && Clear(s, s.threads[t], r, x)
    requires Current(s.threads[t]) == Some(u) && u < |s.feed.updates| && s.feed.updates[u].symbol == x
    requires InRange(|s.feed.updates|, |s.subs|, s.threads[t]) && NamesApart(s.feed, s.subs, s.threads[t])
    ensures Serving(s, t, u, x, r)
  {
    hide Clear, Current, InRange, NamesApart;
  }

  lemma OnwardParts(s: State, s': State, t: nat, u: nat, x: string, r: nat)
    requires r < |s.subs| && t < |s.threads| && Onward(s, s', t, u, x, r) && r in Pending(s.threads[t])
    ensures Spares(s, s', t, r, x) && t < |s'.threads| && Current(s'.threads[t]) == Some(u)
    ensures r in Pending(s'.threads[t])
    ensures !Doomed(s', t)
  {
    hide Pending, Doomed, Clear, TopicOpen;
  }

  lemma SendRuns(c: Config, s: State, t: nat, u: nat)
    requires WellFormed(s) && t < |s.threads| && s.threads[t].Send? && Current(s.threads[t]) == Some(u)
    requires s.threads[t].rest != [] && s.threads[t].rest[0] < |s.subs| && !s.subs[s.threads[t].rest[0]].closed
    ensures RunThread(c, s, t, [], true) == DoSend(c, s, t, u, s.threads[t].rest)
    ensures var pc := DoSend(c, s, t, u, s.threads[t].rest).threads[t]; pc.Visit? || pc.Drop?
  {
    hide WellFormed;
  }

  /** The thread that holds the lock closes its member and ends. */
  lemma CloseOther(c: Config, s: State, k: Key, r: nat, d: nat, t: nat, u: nat, n: nat, m: nat, w: nat)
    returns (es: seq<Event>, s': State)
    requires Overlapped(s, k, r, d, t, u, n, m) && w < |s.threads| && w != t && s.threads[w].Close? && t < |s.threads|
    requires s.threads[w].key.symbol == k.symbol && (s.threads[t].Send? ==> Head(s.threads[t]) == Some(r))
    ensures Exec(c, s, es) == Some(s') && OnlyRuns(es) && Overlapped(s', k, r, d, t, u, n, m)
    ensures OthersUnlocked(s', t, k.symbol)
    ensures s'.feed == s.feed && t < |s'.threads| && s'.threads[t] == s.threads[t]
  {
    hide *;
    LockHolder(s, k, r, d, t, u, n, m, w);
    OverlapParts(s, k, r, d, t, u, n, m);
    ClientRange(s, k, r, d);
    var pc := s.threads[w];
    CloseRuns(c, s, w);
    s' := DoClose(s, w, pc.key, pc.sub, End);
    es := OneRun(c, s, w, [], s');
    RunsOnly(es, w);
    ClosedOther(s, k, r, d, t, w);
    OpenOrFlagged(s, r);
    ClosedClient(s, k, r, d, w);
    NotDoomedBy(s, s', r, t);
    StillOverlapped(s, s', k, r, d, t, u, n, m);
  }

  lemma CloseRuns(c: Config, s: State, w: nat)
    requires Inv(s) && NamesInv(s) && s.status.Running? && w < |s.threads| && s.threads[w].Close?
    requires s.threads[w].next.End?
    requires s.threads[w].sub < |s.subs|
    ensures var e, s' := Run(w, [], true), DoClose(s, w, s.threads[w].key, s.threads[w].sub, End);
            WellFormed(s) && Enabled(s, e) && Step(c, s, e) == s' && Inv(s') && NamesInv(s')
  {
    hide Inv, NamesInv, WellFormed, Enabled, Step, DoClose;
    RunGoes(c, s, w, []);
  }

  /** At most one thread holds the lock of a topic. */
  lemma OneLock(s: State, w: nat, x: string)
    requires LocksOk(s.threads) && w < |s.threads| && s.threads[w].Close? && s.threads[w].key.symbol == x
    ensures forall i :: 0 <= i < |s.threads| && i != w && s.threads[i].Close? ==> s.threads[i].key.symbol != x
  {
  }

  lemma ClosedOther(s: State, k: Key, r: nat, d: nat, t: nat, w: nat)
    requires Inv(s) && w < |s.threads| && w != t && s.threads[w].Close? && s.threads[w].key.symbol == k.symbol
    requires s.threads[w].sub < |s.subs| && s.threads[w].sub != r && !s.subs[s.threads[w].sub].closed && r < |s.subs|
    requires s.threads[w].next.End?
    ensures var s' := DoClose(s, w, s.threads[w].key, s.threads[w].sub, End);
            && s'.feed == s.feed && s'.status == s.status && |s'.threads| == |s.threads| && s'.threads[w] == Done
            && (forall i :: 0 <= i < |s.threads| && i != w ==> s'.threads[i] == s.threads[i])
            && |s'.subs| == |s.subs| && s'.subs[r] == s.subs[r] && OthersUnlocked(s', t, k.symbol)
  {
    hide *;
    OfAll(s);
    OneLock(s, w, k.symbol);
    ClosedParts(s, w, r);
    UnlockedBy(s, DoClose(s, w, s.threads[w].key, s.threads[w].sub, End), w, t, k.symbol);
  }

  lemma UnlockedBy(s: State, s': State, w: nat, t: nat, x: string)
    requires |s'.threads| == |s.threads| && w < |s.threads| && s'.threads[w] == Done
    requires forall i :: 0 <= i < |s.threads| && i != w ==> s'.threads[i] == s.threads[i]
    requires forall i :: 0 <= i < |s.threads| && i != w && s.threads[i].Close? ==> s.threads[i].key.symbol != x
    ensures OthersUnlocked(s', t, x)
  {
  }

  /** What a thread that closes its member and ends changes. */
  lemma ClosedParts(s: State, w: nat, r: nat)
    requires w < |s.threads| && s.threads[w].Close? && s.threads[w].sub < |s.subs| && s.threads[w].sub != r
    requires r < |s.subs|
    requires !s.subs[s.threads[w].sub].closed
    ensures var key, q := s.threads[w].key, s.threads[w].sub;
            var s' := DoClose(s, w, key, q, End);
            && s'.feed == s.feed && s'.status == s.status && |s'.threads| == |s.threads| && s'.threads[w] == Done
            && (forall i :: 0 <= i < |s.threads| && i != w ==> s'.threads[i] == s.threads[i])
            && |s'.subs| == |s.subs| && s'.subs[r] == s.subs[r] &&
              (forall p :: 0 <= p < |s.subs| && p != q ==> s'.subs[p] == s.subs[p])
            && s'.hub.members == s.hub.members - {key}
  {
  }

  lemma ClosedClient(s: State, k: Key, r: nat, d: nat, w: nat)
    requires Client(s, k, r, d) && w < |s.threads| && s.threads[w].Close? && s.threads[w].key.symbol == k.symbol
    requires s.threads[w].sub < |s.subs| && s.threads[w].sub != r
    requires HeldAt(s.hub.members, s.threads[w].key, s.threads[w].sub)
    requires !s.subs[s.threads[w].sub].closed && s.subs[s.threads[w].sub].id == s.threads[w].key.id
    requires var s' := DoClose(s, w, s.threads[w].key, s.threads[w].sub, End); Inv(s') && NamesInv(s')
    ensures Client(DoClose(s, w, s.threads[w].key, s.threads[w].sub, End), k, r, d)
  {
    hide *;
    ClientRange(s, k, r, d);
    ClosedParts(s, w, r);
    NotDrainer(s, w, d, k.symbol, r);
    ClosedOpen(s, w, k.symbol, r);
    ClosedKey(s, k, r, s.threads[w].key, s.threads[w].sub);
    ClientOf(DoClose(s, w, s.threads[w].key, s.threads[w].sub, End), k, r, d);
  }

  lemma ClosedKey(s: State, k: Key, r: nat, key: Key, q: nat)
    requires HeldAt(s.hub.members, key, q) && k in s.hub.members && s.hub.members[k] == r && q != r
    ensures k in s.hub.members - {key} && (s.hub.members - {key})[k] == r
  {
  }

  /** The topic's other members stay open. */
  lemma ClosedOpen(s: State, w: nat, x: string, r: nat)
    requires Inv(s) && TopicOpen(s, x) && w < |s.threads| && s.threads[w].Close? && s.threads[w].key.symbol == x
    requires s.threads[w].sub < |s.subs| && s.threads[w].sub != r && r < |s.subs| && !s.subs[s.threads[w].sub].closed
    requires s.subs[s.threads[w].sub].id == s.threads[w].key.id
    ensures TopicOpen(DoClose(s, w, s.threads[w].key, s.threads[w].sub, End), x)
  {
    hide Inv, DoClose;
    ClosedParts(s, w, r);
    var s' := DoClose(s, w, s.threads[w].key, s.threads[w].sub, End);
    forall l | l in s'.hub.members && l.symbol == x && s'.hub.members[l] < |s'.subs|
      ensures !s'.subs[s'.hub.members[l]].closed
    {
      OfMember(s, l);
    }
  }

  lemma NotDoomedBy(s: State, s': State, r: nat, t: nat)
    requires t < |s.threads| && |s'.threads| == |s.threads| && s'.threads[t] == s.threads[t]
    requires s.threads[t].Send? ==> Head(s.threads[t]) == Some(r)
    requires r < |s.subs| && |s'.subs| == |s.subs| && s'.subs[r] == s.subs[r] && !s.subs[r].closed
    ensures !Doomed(s', t)
  {
  }

  /** A removal of another member that is under way is finished, so that the lock of the topic is free. */
  lemma Unlock(c: Config, s: State, k: Key, r: nat, d: nat, t: nat, u: nat, n: nat, m: nat)
    returns (es: seq<Event>, s': State)
    requires Overlapped(s, k, r, d, t, u, n, m) && t < |s.threads|
    ensures Exec(c, s, es) == Some(s') && OnlyRuns(es) && Overlapped(s', k, r, d, t, u, n, m)
    ensures OthersUnlocked(s', t, k.symbol)
    ensures s'.feed == s.feed && t < |s'.threads| && (s.threads[t].Write? <==> s'.threads[t].Write?)
  {
    OverlapParts(s, k, r, d, t, u, n, m);
    ClientRange(s, k, r, d);
    hide Client, Overlapped, Inv, NamesInv, Exec, OnlyTwo, Doomed, Pending, Head, HasBook;
    if OthersUnlocked(s, t, k.symbol) {
      es, s' := [], s;
      ExecNothing(c, s);
    } else {
      var w :| 0 <= w < |s.threads| && w != t && s.threads[w].Close? && s.threads[w].key.symbol == k.symbol;
      if s.threads[t].Send? && Head(s.threads[t]) != Some(r) {
        var fs, s1 := SendOn(c, s, k, r, d, t, u, n, m);
        var gs;
        gs, s' := CloseOther(c, s1, k, r, d, t, u, n, m, w);
        Joined2(c, s, fs, s1, gs, s');
        es := fs + gs;
      } else {
        es, s' := CloseOther(c, s, k, r, d, t, u, n, m, w);
      }
    }
  }

  // ---------------------------------------------------------------- the earlier one comes to the client

  /** The earlier callback comes to the client, if it has copied the members, and the client receives all. */
  lemma BothReady(c: Config, s: State, k: Key, r: nat, d: nat, t: nat, u: nat, n: nat, m: nat)
    returns (es: seq<Event>, s': State)
    requires Overlapped(s, k, r, d, t, u, n, m) && t < |s.threads| && OthersUnlocked(s, t, k.symbol)
    ensures Exec(c, s, es) == Some(s') && OnlyRuns(es)
    ensures Both(s', k, r, d, t, u, n, m) && OnlyTwo(s', t, n, k.symbol) && t < |s'.threads| && s'.feed == s.feed
    ensures if s.threads[t].Write? then s'.threads[t] == Write(u) else Waits(s'.threads[t], u, r)
  {
    hide *;
    OverlapParts(s, k, r, d, t, u, n, m);
    ClientRange(s, k, r, d);
    if BeforeCopy(s.threads[t]) {
      WaitsBefore(s.threads[t], u, r);
      es, s' := ReceiveAll(c, s, k, r, d);
      RunsOnly(es, d);
      ReceivedSame(s, s', r);
      ClientRange(s', k, r, d);
    } else {
      ReadyToGo(s, t, u, k.symbol);
      var fs, s1 := Approach(c, s, k, r, d, t, u);
      SparedSame(s, s1, t, r, k.symbol);
      var gs;
      gs, s' := ReceiveAll(c, s1, k, r, d);
      RunsOnly(gs, d);
      ReceivedSame(s1, s', r);
      ClientRange(s', k, r, d);
      Joined2(c, s, fs, s1, gs, s');
      es := fs + gs;
      AtClientWaits(s'.threads[t], u, r);
    }
    BothOf(s, s', k, r, d, t, u, n, m);
  }

  lemma WaitsBefore(pc: Thread, u: nat, r: nat)
    requires BeforeCopy(pc) && Current(pc) == Some(u)
    ensures (if pc.Write? then pc == Write(u) else Waits(pc, u, r)) && !pc.Close?
  {
  }

  lemma AtClientWaits(pc: Thread, u: nat, r: nat)
    requires AtMember(pc, u, r)
    ensures Waits(pc, u, r) && !pc.Close?
  {
  }

  lemma ReceivedSame(s: State, s': State, r: nat)
    requires r < |s.subs| && Received(s, s', r)
    ensures s'.feed == s.feed && s'.threads == s.threads
  {
  }

  lemma SparedSame(s: State, s': State, t: nat, r: nat, x: string)
    requires r < |s.subs| && Spares(s, s', t, r, x)
    ensures s'.feed == s.feed && |s'.threads| == |s.threads| && r < |s'.subs|
    ensures forall i :: 0 <= i < |s.threads| && i != t ==> s'.threads[i] == s.threads[i]
  {
    hide TopicOpen;
  }

  lemma StaysUnlocked(s: State, s': State, t: nat, x: string)
    requires OthersUnlocked(s, t, x) && |s'.threads| == |s.threads| && t < |s.threads| && !s'.threads[t].Close?
    requires forall i :: 0 <= i < |s.threads| && i != t ==> s'.threads[i] == s.threads[i]
    ensures Unlocked(s'.threads, x)
  {
  }

  lemma BothOf(s: State, s': State, k: Key, r: nat, d: nat, t: nat, u: nat, n: nat, m: nat)
    requires Overlapped(s, k, r, d, t, u, n, m) && OthersUnlocked(s, t, k.symbol)
    requires Client(s', k, r, d) && r < |s'.subs| && s'.subs[r].queue == [] && s'.feed == s.feed
    requires |s'.threads| == |s.threads| && t < |s.threads|
    requires !s'.threads[t].Close? && forall i :: 0 <= i < |s.threads| && i != t ==> s'.threads[i] == s.threads[i]
    ensures Both(s', k, r, d, t, u, n, m) && OnlyTwo(s', t, n, k.symbol)
  {
    hide Client, Doomed, Pending, BeforeCopy, Overlapped, OnlyTwo, HasBook, Unlocked, OthersUnlocked, Current;
    OverlapParts(s, k, r, d, t, u, n, m);
    OnlyTwoStays(s, s', t, n, k.symbol);
    StaysUnlocked(s, s', t, k.symbol);
  }

  // ---------------------------------------------------------------- the client is left with an old book

  /** The client has caught up and nothing of its topic is being published, but the book that it was sent last is not
      the cached one. */
  ghost predicate ShowsOld(s: State, k: Key, r: nat) {
    CaughtUp(s, k, r) && Quiet(s, k.symbol) && k.symbol in s.feed.cache && !ShowsCached(s, k.symbol, r)
  }

  /** With a further callback for topic `x` now, and from then on only callbacks that come in turn, the client can be
      left with an old book. */
  ghost predicate CanShowOld(c: Config, s: State, x: string, b: Book, k: Key, r: nat) {
    exists es: seq<Event> :: LeavesOld(c, s, x, b, k, r, es)
  }

  ghost predicate LeavesOld(c: Config, s: State, x: string, b: Book, k: Key, r: nat, es: seq<Event>) {
    && WellFormed(s) && Enabled(s, OnData(x, Some(b)))
    && Obeys(c, InTurn(r, k.symbol), Step(c, s, OnData(x, Some(b))), es)
    && Exec(c, Step(c, s, OnData(x, Some(b))), es).Some?
    && ShowsOld(Exec(c, Step(c, s, OnData(x, Some(b))), es).value, k, r)
  }

  lemma {:induction false} RunsInTurn(c: Config, s: State, es: seq<Event>, r: nat, x: string)
    requires OnlyRuns(es)
    ensures Obeys(c, InTurn(r, x), s, es)
    decreases |es|
  {
    hide WellFormed, Enabled, Step;
    if es != [] && WellFormed(s) && Enabled(s, es[0]) {
      RunsInTurn(c, Step(c, s, es[0]), es[1..], r, x);
    }
  }

  lemma TrimTwice(b: Book, n: nat)
    ensures Trim(Trim(b, n), n) == Trim(b, n)
  {
  }

  /** No thread but `t` is in a callback of the topic. */
  ghost predicate OnlyPublisher(s: State, t: nat, x: string) {
    forall i :: 0 <= i < |s.threads| && i != t ==> !Publishing(s, i, x)
  }

  lemma EndsQuiet(s: State, s': State, k: Key, r: nat, d: nat, t: nat, n: nat, cached: Book, last: Book)
    requires Inv(s) && OnlyTwo(s, t, n, k.symbol) && BothEnded(s, s', k, r, d, t, n, cached, last) && cached != last
    ensures ShowsOld(s', k, r)
  {
    hide *;
    EndedThreads(s, s', k, r, d, t, n, cached, last);
    forall i | 0 <= i < |s'.threads|
      ensures !Publishing(s', i, k.symbol)
    {
      if i != t && i != n {
        OtherQuiet(s, t, n, k.symbol, i);
        CurrentInRange(s, i);
        StillQuiet(s, s', k.symbol, i);
      } else {
        DoneIsQuiet(s', i, k.symbol);
      }
    }
    EndedOld(s, s', k, r, d, t, n, cached, last);
    OldOf(s', k, r);
  }

  lemma OldOf(s: State, k: Key, r: nat)
    requires forall i :: 0 <= i < |s.threads| ==> !Publishing(s, i, k.symbol)
    requires CaughtUp(s, k, r) && r < |s.subs| && k.symbol in s.feed.cache && !ShowsCached(s, k.symbol, r)
    ensures ShowsOld(s, k, r)
  {
    hide Publishing, CaughtUp, ShowsCached;
  }

  lemma OtherQuiet(s: State, t: nat, n: nat, x: string, i: nat)
    requires OnlyTwo(s, t, n, x) && i < |s.threads| && i != t && i != n
    ensures !Publishing(s, i, x)
  {
    hide Publishing;
  }

  lemma EndedThreads(s: State, s': State, k: Key, r: nat, d: nat, t: nat, n: nat, cached: Book, last: Book)
    requires BothEnded(s, s', k, r, d, t, n, cached, last)
    ensures |s'.threads| == |s.threads| && t < |s.threads| && n < |s.threads| && s'.threads[t] == Done
    ensures s'.threads[n] == Done
    ensures forall i :: 0 <= i < |s.threads| && i != t && i != n ==> s'.threads[i] == s.threads[i]
    ensures |s'.feed.updates| == |s.feed.updates|
    ensures forall v :: 0 <= v < |s.feed.updates| ==> s'.feed.updates[v].symbol == s.feed.updates[v].symbol
  {
    hide Client;
  }

  lemma EndedOld(s: State, s': State, k: Key, r: nat, d: nat, t: nat, n: nat, cached: Book, last: Book)
    requires BothEnded(s, s', k, r, d, t, n, cached, last) && cached != last
    ensures CaughtUp(s', k, r) && r < |s'.subs| && k.symbol in s'.feed.cache && !ShowsCached(s', k.symbol, r)
  {
    hide Client, CaughtUp;
    assert k.symbol in s'.feed.cache && !ShowsCached(s', k.symbol, r);
    hide ShowsCached;
    ClientCaughtUp(s', k, r, d);
  }

  lemma ClientCaughtUp(s: State, k: Key, r: nat, d: nat)
    requires Client(s, k, r, d) && r < |s.subs| && s.subs[r].queue == []
    ensures CaughtUp(s, k, r)
  {
    hide Inv, NamesInv, TopicOpen;
  }

  lemma DoneIsQuiet(s: State, i: nat, x: string)
    requires i < |s.threads| && s.threads[i] == Done
    ensures !Publishing(s, i, x)
  {
  }

  lemma StillQuiet(s: State, s': State, x: string, i: nat)
    requires i < |s.threads| && i < |s'.threads| && s'.threads[i] == s.threads[i] && !Publishing(s, i, x)
    requires Current(s.threads[i]).Some? ==> Current(s.threads[i]).value < |s.feed.updates|
    requires |s'.feed.updates| == |s.feed.updates|
    requires forall v :: 0 <= v < |s.feed.updates| ==> s'.feed.updates[v].symbol == s.feed.updates[v].symbol
    ensures !Publishing(s', i, x)
  {
  }

  /** A callback that has yet to offer its book to the client, and a further one with another book: the client can be
      left with an old book. */
  lemma OvertakingLeavesOld(c: Config, s: State, k: Key, r: nat, d: nat, t: nat, u: nat, n: nat, m: nat)
    returns (es: seq<Event>, s': State)
    requires c.bufferSize > 0 && Overlapped(s, k, r, d, t, u, n, m) && HasBook(s.feed, u) && HasBook(s.feed, m)
    requires s.feed.updates[u].book.value.symbol == k.symbol
    requires Trim(s.feed.updates[u].book.value, c.maxDepth) != Trim(s.feed.updates[m].book.value, c.maxDepth)
    ensures Exec(c, s, es) == Some(s') && OnlyRuns(es) && ShowsOld(s', k, r)
  {
    var mine, later := s.feed.updates[u].book.value, s.feed.updates[m].book.value;
    TrimTwice(later, c.maxDepth);
    hide *;
    OverlapParts(s, k, r, d, t, u, n, m);
    var fs, s1 := Unlock(c, s, k, r, d, t, u, n, m);
    var gs, s2 := BothReady(c, s1, k, r, d, t, u, n, m);
    BothRange(s2, k, r, d, t, u, n, m);
    ClientRange(s2, k, r, d);
    var hs;
    if s1.threads[t].Write? {
      hs, s' := EarlierLast(c, s2, k, r, d, t, u, n, m);
      EndsQuiet(s2, s', k, r, d, t, n, Trim(mine, c.maxDepth), Trim(later, c.maxDepth));
    } else {
      hs, s' := LaterFirst(c, s2, k, r, d, t, u, n, m);
      EndsQuiet(s2, s', k, r, d, t, n, Trim(later, c.maxDepth), mine);
    }
    Joined2(c, s, fs, s1, gs, s2);
    Joined2(c, s, fs + gs, s2, hs, s');
    es := (fs + gs) + hs;
  }

  /** When nobody is behind, a further callback with a book of the topic comes in turn. */
  lemma InTurnNotOld(c: Config, s: State, x: string, b: Book, k: Key, r: nat, es: seq<Event>)
    requires Inv(s) && OnceInv(s) && FreshInv(s, r, k.symbol)
    requires WellFormed(s) && Enabled(s, OnData(x, Some(b))) && Allows(InTurn(r, k.symbol), s, OnData(x, Some(b)))
    ensures !LeavesOld(c, s, x, b, k, r, es)
  {
    if LeavesOld(c, s, x, b, k, r, es) {
      var e := OnData(x, Some(b));
      LeavesOldParts(c, s, x, b, k, r, es);
      hide *;
      StepKeepsInv(c, s, e);
      OnceStep(c, s, e);
      FreshStep(c, s, e, r, k.symbol);
      RunKeepsInv(c, Step(c, s, e), es);
      FreshRun(c, Step(c, s, e), es, r, k.symbol);
      NotOldOf(Exec(c, Step(c, s, e), es).value, k, r);
    }
  }

  lemma LeavesOldParts(c: Config, s: State, x: string, b: Book, k: Key, r: nat, es: seq<Event>)
    requires LeavesOld(c, s, x, b, k, r, es)
    ensures WellFormed(s) && Enabled(s, OnData(x, Some(b)))
    ensures var s1 := Step(c, s, OnData(x, Some(b)));
            Obeys(c, InTurn(r, k.symbol), s1, es) && Exec(c, s1, es).Some? && ShowsOld(Exec(c, s1, es).value, k, r)
  {
    hide WellFormed, Enabled, Step, Obeys, Exec, ShowsOld;
  }

  lemma NotOldOf(s: State, k: Key, r: nat)
    requires Inv(s) && OnceInv(s) && FreshInv(s, r, k.symbol)
    ensures !ShowsOld(s, k, r)
  {
    if CaughtUp(s, k, r) && Quiet(s, k.symbol) && k.symbol in s.feed.cache {
      forall t | 0 <= t < |s.threads|
        ensures !Behind(s, t, r, k.symbol)
      {
        assert !Publishing(s, t, k.symbol);
      }
      hide Inv, OnceInv, FreshInv, CaughtUp, Quiet, Behind, ShowsCached;
      CaughtUpShows(s, k, r);
    }
  }

  lemma ReachedClient(c: Config, es: seq<Event>, s: State, k: Key, r: nat, d: nat)
    requires Reaches(c, es, s) && Served(s, k, r, d) && TopicOpen(s, k.symbol)
    ensures Client(s, k, r, d)
  {
    InitInv();
    assert NamesInv(Init);
    hide *;
    ReachedInv(c, es, s);
    ReachesExec(c, es, s);
    NamesRun(c, Init, es);
    ServedClient(s, k, r, d);
  }

  lemma ServedClient(s: State, k: Key, r: nat, d: nat)
    requires Inv(s) && NamesInv(s) && TopicOpen(s, k.symbol) && Served(s, k, r, d)
    ensures Client(s, k, r, d)
  {
    hide Inv, NamesInv, TopicOpen, Served;
  }

  /** Exactly when a further callback can leave a client with an old book: when the earlier callback of the topic has
      yet to offer its book to the client. */
  lemma OverlapIff(c: Config, es: seq<Event>, s: State, k: Key, r: nat, d: nat, t: nat, b: Book)
    requires Reaches(c, es, s) && Obeys(c, InTurn(r, k.symbol), Init, es)
    requires c.bufferSize > 0 && Served(s, k, r, d) && TopicOpen(s, k.symbol)
    requires t < |s.threads| && Publishing(s, t, k.symbol) && OnlyPublisher(s, t, k.symbol) && !Doomed(s, t)
    requires b.symbol == k.symbol
    requires var mine := s.feed.updates[Current(s.threads[t]).value].book;
             mine.Some? ==> Trim(mine.value, c.maxDepth) != Trim(b, c.maxDepth)
    ensures CanShowOld(c, s, k.symbol, b, k, r) <==> Behind(s, t, r, k.symbol)
  {
    PublishingOf(s, t, k.symbol);
    hide *;
    ReachedClient(c, es, s, k, r, d);
    ReachedInTurn(c, es, s, r, k.symbol);
    if Behind(s, t, r, k.symbol) {
      BehindCanShowOld(c, s, k, r, d, t, b);
    } else {
      NobodyBehind(s, k.symbol, r, t, b);
      InTurnCannot(c, s, k.symbol, b, k, r);
    }
  }

  lemma PublishingOf(s: State, t: nat, x: string)
    requires t < |s.threads| && Publishing(s, t, x)
    ensures Current(s.threads[t]).Some? && Current(s.threads[t]).value < |s.feed.updates|
  {
  }

  lemma NobodyBehind(s: State, x: string, r: nat, t: nat, b: Book)
    requires t < |s.threads| && OnlyPublisher(s, t, x) && !Behind(s, t, r, x) && b.symbol == x
    ensures Allows(InTurn(r, x), s, OnData(x, Some(b)))
  {
    forall i | 0 <= i < |s.threads|
      ensures !Behind(s, i, r, x)
    {
      assert i != t ==> !Publishing(s, i, x);
    }
    hide Publishing, Behind;
  }

  lemma InTurnCannot(c: Config, s: State, x: string, b: Book, k: Key, r: nat)
    requires Inv(s) && OnceInv(s) && FreshInv(s, r, k.symbol)
    requires Allows(InTurn(r, k.symbol), s, OnData(x, Some(b)))
    ensures !CanShowOld(c, s, x, b, k, r)
  {
    hide Inv, OnceInv, FreshInv, LeavesOld, Allows, WellFormed, Enabled;
    forall es: seq<Event> | LeavesOld(c, s, x, b, k, r, es)
      ensures false
    {
      LeavesOldParts(c, s, x, b, k, r, es);
      InTurnNotOld(c, s, x, b, k, r, es);
    }
  }

  /** The books of the topic name it. */
  lemma BehindBook(s: State, t: nat, r: nat, x: string)
    requires t < |s.threads| && FreshInv(s, r, x) && Behind(s, t, r, x)
    ensures Current(s.threads[t]).Some?
    ensures var u := Current(s.threads[t]).value;
            && HasBook(s.feed, u) && u < |s.feed.updates| && s.feed.updates[u].book.Some?
            && s.feed.updates[u].symbol == x && s.feed.updates[u].book.value.symbol == x
    ensures BeforeCopy(s.threads[t]) || r in Pending(s.threads[t])
  {
    FreshParts(s, r, x);
    hide FreshInv, FreshSub, CachesNewest, Pending, BeforeCopy;
  }

  lemma BegunOnlyTwo(s: State, t: nat, x: string, b: Book)
    requires Inv(s) && OnlyPublisher(s, t, x)
    ensures OnlyTwo(Begun(s, x, b), t, |s.threads|, x)
  {
    forall i | 0 <= i < |s.threads| && i != t
      ensures !Publishing(Begun(s, x, b), i, x)
    {
      assert !Publishing(s, i, x);
      CurrentInRange(s, i);
    }
    hide Inv, Publishing;
  }

  lemma BegunDoomed(s: State, t: nat, x: string, b: Book)
    requires t < |s.threads| && !Doomed(s, t)
    ensures !Doomed(Begun(s, x, b), t)
  {
  }

  lemma BegunOverlaps(s: State, k: Key, r: nat, d: nat, t: nat, u: nat, b: Book)
    requires Client(s, k, r, d) && Client(Begun(s, k.symbol, b), k, r, d) && t < |s.threads|
    requires Current(s.threads[t]) == Some(u)
    requires HasBook(s.feed, u) && s.feed.updates[u].symbol == k.symbol && b.symbol == k.symbol
    requires (BeforeCopy(s.threads[t]) || r in Pending(s.threads[t])) && !Doomed(s, t) && OnlyPublisher(s, t, k.symbol)
    ensures Overlapped(Begun(s, k.symbol, b), k, r, d, t, u, |s.threads|, |s.feed.updates|)
  {
    ClientRange(s, k, r, d);
    BegunOnlyTwo(s, t, k.symbol, b);
    BegunDoomed(s, t, k.symbol, b);
    BegunParts(s, k.symbol, b, k.symbol);
    hide Client, Inv, NamesInv, Pending, BeforeCopy, TopicOpen, Untouched, OnlyTwo, OnlyPublisher, Doomed, Begun;
  }

  lemma TrimmedDiffers(s: State, x: string, b: Book, u: nat, depth: nat)
    requires HasBook(s.feed, u) && Trim(s.feed.updates[u].book.value, depth) != Trim(b, depth)
    ensures var f, m := Begun(s, x, b).feed, |s.feed.updates|;
            HasBook(f, u) && HasBook(f, m) && f.updates[u] == s.feed.updates[u] && f.updates[m].book.value == b
  {
  }

  lemma BehindCanShowOld(c: Config, s: State, k: Key, r: nat, d: nat, t: nat, b: Book)
    requires c.bufferSize > 0 && Client(s, k, r, d) && FreshInv(s, r, k.symbol) && b.symbol == k.symbol
    requires t < |s.threads| && Behind(s, t, r, k.symbol) && !Doomed(s, t) && OnlyPublisher(s, t, k.symbol)
    requires Current(s.threads[t]).Some?
    requires var u := Current(s.threads[t]).value;
             u < |s.feed.updates| && (s.feed.updates[u].book.Some? ==>
                                      Trim(s.feed.updates[u].book.value, c.maxDepth) != Trim(b, c.maxDepth))
    ensures CanShowOld(c, s, k.symbol, b, k, r)
  {
    hide *;
    var u, s1 := Current(s.threads[t]).value, Begun(s, k.symbol, b);
    BehindBook(s, t, r, k.symbol);
    BegunClient(c, s, k, r, d, k.symbol, b);
    BegunParts(s, k.symbol, b, k.symbol);
    BegunOverlaps(s, k, r, d, t, u, b);
    TrimmedDiffers(s, k.symbol, b, u, c.maxDepth);
    var es, s' := OvertakingLeavesOld(c, s1, k, r, d, t, u, |s.threads|, |s.feed.updates|);
    RunsInTurn(c, s1, es, r, k.symbol);
    CanLeaveOld(c, s, k.symbol, b, k, r, es, s');
  }

  lemma CanLeaveOld(c: Config, s: State, z: string, b: Book, k: Key, r: nat, es: seq<Event>, s': State)
    requires WellFormed(s) && Enabled(s, OnData(z, Some(b))) && Step(c, s, OnData(z, Some(b))) == Begun(s, z, b)
    requires Obeys(c, InTurn(r, k.symbol), Begun(s, z, b), es) && Exec(c, Begun(s, z, b), es) == Some(s')
    requires ShowsOld(s', k, r)
    ensures CanShowOld(c, s, z, b, k, r)
  {
    hide WellFormed, Enabled, Step, Obeys, Exec, Begun, ShowsOld;
    assert LeavesOld(c, s, z, b, k, r, es);
  }

  /** From every relay in which nothing of the client's topic is being published, two callbacks with any two books
      that differ after trimming can leave the client with the older one. */
  lemma OverlapShowsOldBook(c: Config, es: seq<Event>, s: State, k: Key, r: nat, d: nat, first: Book, second: Book)
    requires Reaches(c, es, s) && Obeys(c, InTurn(r, k.symbol), Init, es)
    requires c.bufferSize > 0 && Served(s, k, r, d) && TopicOpen(s, k.symbol) && Quiet(s, k.symbol)
    requires first.symbol == k.symbol && second.symbol == k.symbol
    requires Trim(first, c.maxDepth) != Trim(second, c.maxDepth)
    ensures WellFormed(s) && Enabled(s, OnData(k.symbol, Some(first)))
    ensures CanShowOld(c, Step(c, s, OnData(k.symbol, Some(first))), k.symbol, second, k, r)
  {
    hide *;
    var e, s1 := OnData(k.symbol, Some(first)), Begun(s, k.symbol, first);
    ReachedClient(c, es, s, k, r, d);
    ReachedInTurn(c, es, s, r, k.symbol);
    ClientRange(s, k, r, d);
    BegunClient(c, s, k, r, d, k.symbol, first);
    QuietInTurn(s, k.symbol, first, k.symbol, r);
    FreshStep(c, s, e, r, k.symbol);
    BegunParts(s, k.symbol, first, k.symbol);
    FirstIsBehind(s, k.symbol, first, r);
    BehindCanShowOld(c, s1, k, r, d, |s.threads|, second);
  }

  lemma FirstIsBehind(s: State, x: string, b: Book, r: nat)
    requires Inv(s) && Quiet(s, x)
    ensures var s', n := Begun(s, x, b), |s.threads|;
            && n < |s'.threads| && Behind(s', n, r, x) && !Doomed(s', n) && OnlyPublisher(s', n, x)
            && Current(s'.threads[n]) == Some(|s.feed.updates|)
  {
    forall i | 0 <= i < |s.threads|
      ensures Current(s.threads[i]).Some? ==> Current(s.threads[i]).value < |s.feed.updates|
      ensures !Publishing(s, i, x)
    {
      CurrentInRange(s, i);
    }
    hide Inv;
  }

  lemma QuietInTurn(s: State, z: string, b: Book, x: string, r: nat)
    requires Quiet(s, x) && (z == x <==> b.symbol == x)
    ensures Allows(InTurn(r, x), s, OnData(z, Some(b)))
  {
    forall i | 0 <= i < |s.threads|
      ensures !Behind(s, i, r, x)
    {
      assert !Publishing(s, i, x);
    }
    hide Publishing, Behind;
  }
}
