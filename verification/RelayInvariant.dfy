/** What every step of the relay keeps, in every run and whatever its callers do. */
module RelayInvariant {
  import opened Relay

  // ---------------------------------------------------------------- counting

  datatype Kind = Dropping(sub: nat) | Tallying | Enrolling

  predicate Is(pc: Thread, kind: Kind) {
    match kind
    case Dropping(r) => pc.Drop? && pc.rest != [] && pc.rest[0] == r
    case Tallying => pc.Tally?
    case Enrolling => pc.Enroll?
  }

  function One(b: bool): nat { if b then 1 else 0 }

  function Count(threads: seq<Thread>, kind: Kind): nat {
    if threads == [] then 0 else Count(threads[..|threads| - 1], kind) + One(Is(threads[|threads| - 1], kind))
  }

  lemma {:induction false} CountMoved(threads: seq<Thread>, t: nat, pc: Thread, kind: Kind)
    requires t < |threads|
    ensures Count(threads[t := pc], kind) + One(Is(threads[t], kind)) == Count(threads, kind) + One(Is(pc, kind))
  {
    var n := |threads| - 1;
    if t == n {
      assert threads[t := pc][..n] == threads[..n];
    } else {
      CountMoved(threads[..n], t, pc, kind);
      assert threads[t := pc][..n] == threads[..n][t := pc];
    }
  }

  lemma CountSpawned(threads: seq<Thread>, pc: Thread, kind: Kind)
    ensures Count(threads + [pc], kind) == Count(threads, kind) + One(Is(pc, kind))
  {
    assert (threads + [pc])[..|threads|] == threads;
  }

  function TotalDropped(subs: seq<Sub>): nat {
    if subs == [] then 0 else TotalDropped(subs[..|subs| - 1]) + subs[|subs| - 1].dropped
  }

  lemma {:induction false} TotalDroppedUpdate(subs: seq<Sub>, r: nat, sub: Sub)
    requires r < |subs|
    ensures TotalDropped(subs[r := sub]) + subs[r].dropped == TotalDropped(subs) + sub.dropped
  {
    var n := |subs| - 1;
    if r == n {
      assert subs[r := sub][..n] == subs[..n];
    } else {
      TotalDroppedUpdate(subs[..n], r, sub);
      assert subs[r := sub][..n] == subs[..n][r := sub];
    }
  }

  /** The updates that were put into the channel, in order. */
  function Accepted(offers: seq<Offer>): seq<nat> {
    if offers == [] then []
    else
      var o := offers[|offers| - 1];
      Accepted(offers[..|offers| - 1]) + if o.accepted then [o.update] else []
  }

  function Rejected(offers: seq<Offer>): nat {
    if offers == [] then 0 else Rejected(offers[..|offers| - 1]) + One(!offers[|offers| - 1].accepted)
  }

  lemma OfferMade(offers: seq<Offer>, o: Offer)
    ensures Accepted(offers + [o]) == Accepted(offers) + if o.accepted then [o.update] else []
    ensures Rejected(offers + [o]) == Rejected(offers) + One(!o.accepted)
  {
    assert (offers + [o])[..|offers|] == offers;
  }

  /** The books among a list of updates, in order. */
  function Books(updates: seq<Update>, us: seq<nat>): seq<Book>
    requires AllBelow(us, |updates|)
  {
    if us == [] then []
    else
      var book := updates[us[|us| - 1]].book;
      Books(updates, us[..|us| - 1]) + if book.Some? then [book.value] else []
  }

  lemma {:induction false} BooksUnchanged(updates: seq<Update>, updates': seq<Update>, us: seq<nat>)
    requires AllBelow(us, |updates|) && |updates| <= |updates'|
    requires forall i :: 0 <= i < |us| ==> updates'[us[i]].book == updates[us[i]].book
    ensures Books(updates', us) == Books(updates, us)
  {
    if us != [] {
      BooksUnchanged(updates, updates', us[..|us| - 1]);
    }
  }

  // ---------------------------------------------------------------- threads

  /** The update a thread is publishing. */
  function Current(pc: Thread): Option<nat> {
    if pc.Write? || pc.Lookup? || pc.Copy? || pc.Visit? || pc.Send? || pc.Drop? || pc.Tally? ||
      pc.Check? then Some(pc.update)
    else if (pc.Leave? || pc.Mark? || pc.Close?) && pc.next.Resume? then Some(pc.next.update)
    else None
  }

  /** The copied members to whom a thread will still offer its update. */
  function Pending(pc: Thread): seq<nat> {
    if pc.Visit? || pc.Send? then pc.rest
    else if (pc.Drop? || pc.Tally? || pc.Check?) && pc.rest != [] then pc.rest[1..]
    else if (pc.Leave? || pc.Mark? || pc.Close?) && pc.next.Resume? then pc.next.rest
    else []
  }

  predicate BeforeCopy(pc: Thread) { pc.Write? || pc.Lookup? || pc.Copy? }

  ghost predicate Offered(sub: Sub, u: nat) { exists i :: 0 <= i < |sub.past.offers| && sub.past.offers[i].update == u }

  /** A thread publishes its own updates: it writes an update to the cache once, before it copies the members. */
  ghost predicate FeedThreadOk(f: Feed, t: nat, pc: Thread) {
    Current(pc).Some? ==>
      var u := Current(pc).value;
      && u < |f.updates| && f.updates[u].owner == t
      && (pc.Write? ==> u !in f.writes)
      && (pc.Lookup? || pc.Copy? ==> f.updates[u].book.Some? ==> u in f.writes)
      && (BeforeCopy(pc) <==> u !in f.copied)
  }

  /** A thread offers its update at most once to each subscriber. */
  ghost predicate PublisherOk(subs: seq<Sub>, pc: Thread) {
    && Distinct(Pending(pc)) && AllBelow(Pending(pc), |subs|)
    && (Pending(pc) != [] ==> Current(pc).Some?)
    && (forall i :: 0 <= i < |Pending(pc)| ==> !Offered(subs[Pending(pc)[i]], Current(pc).value))
  }

  /** A thread that is about to close a member holds the lock, so the member is still there, and it is flagged. */
  ghost predicate CloserOk(members: map<Key, nat>, subs: seq<Sub>, pc: Thread) {
    pc.Close? ==> pc.key in members && members[pc.key] == pc.sub && pc.sub < |subs| && subs[pc.sub].flag
  }

  /** A streaming subscriber is joined, snapshotted and drained by its own thread alone, in that order. */
  ghost predicate StreamerOk(subs: seq<Sub>, t: nat, pc: Thread) {
    pc.Join? || pc.Insert? || pc.Enroll? || pc.Snapshot? || pc.Drain? ==>
      && pc.sub < |subs|
      && (subs[pc.sub].stream.Some? ==> subs[pc.sub].stream.value == t)
      && (pc.Snapshot? || pc.Drain? ==> subs[pc.sub].stream.Some?)
      && (subs[pc.sub].stream.Some? ==> (pc.Drain? <==> subs[pc.sub].past.snapAt.Some?))
      && (subs[pc.sub].stream.Some? && (pc.Join? || pc.Insert?) ==> subs[pc.sub].past.joins == 0)
  }

  ghost predicate ThreadCore(s: State, t: nat, pc: Thread) {
    && InRange(|s.feed.updates|, |s.subs|, pc)
    && FeedThreadOk(s.feed, t, pc)
    && PublisherOk(s.subs, pc)
    && CloserOk(s.hub.members, s.subs, pc)
    && StreamerOk(s.subs, t, pc)
  }

  ghost predicate TopicExists(topics: set<string>, pc: Thread) { pc.Insert? ==> pc.symbol in topics }

  ghost predicate ThreadOk(s: State, t: nat, pc: Thread) { ThreadCore(s, t, pc) && TopicExists(s.hub.topics, pc) }

  /** At most one thread holds the lock of a topic. */
  ghost predicate LocksOk(threads: seq<Thread>) {
    forall t, u :: 0 <= t < u < |threads| && threads[t].Close? && threads[u].Close? ==>
      threads[t].key.symbol != threads[u].key.symbol
  }

  // ---------------------------------------------------------------- the feed

  ghost predicate UpdateOk(f: Feed, threads: seq<Thread>, u: nat)
    requires u < |f.updates|
  {
    && f.updates[u].owner < |threads|
    && (u !in f.copied ==> BeforeCopy(threads[f.updates[u].owner]) && threads[f.updates[u].owner].update == u)
    && (u in f.copied && f.updates[u].book.Some? ==> u in f.writes)
  }

  ghost predicate FeedOk(f: Feed, threads: seq<Thread>) {
    && CacheOk(f)
    && (forall u :: 0 <= u < |f.updates| ==> UpdateOk(f, threads, u))
    && (forall u :: u in f.copied ==> u < |f.updates|)
    && Distinct(f.writes) && AllBelow(f.writes, |f.updates|)
    && (forall i :: 0 <= i < |f.writes| ==> f.updates[f.writes[i]].book.Some?)
    && (forall x :: x in f.cache ==> f.cache[x] in f.writes)
  }

  // ---------------------------------------------------------------- subscribers and members

  ghost predicate OffersOk(f: Feed, offers: seq<Offer>) {
    && (forall i, j :: 0 <= i < j < |offers| ==> offers[i].update != offers[j].update)
    && (forall i :: 0 <= i < |offers| ==> offers[i].update in f.copied)
  }

  /** What the snapshot reflects: every update whose members were copied before the subscriber joined. */
  ghost predicate SnapshotOk(f: Feed, past: Past) {
    && (forall u :: u in past.before ==> u in f.copied)
    && (past.snapAt.Some? ==> past.snapAt.value <= |f.writes|)
    && (past.snapAt.Some? ==> forall u :: u in past.before && u < |f.updates| && f.updates[u].book.Some? ==>
        u in f.writes[..past.snapAt.value])
  }

  /** What was sent to a streaming client, unless a send failed: the snapshot, then the books it received. */
  ghost predicate SentOk(f: Feed, past: Past) {
    && AllBelow(past.taken, |f.updates|)
    && (past.snap.Some? ==>
          past.snapAt.Some? && past.snap.value in f.writes && past.snap.value < |f.updates| &&
          f.updates[past.snap.value].book.Some?)
    && (past.snapAt.None? ==> past.taken == [])
    && (past.broken || past.sent == (if past.snap.Some? then [f.updates[past.snap.value].book.value] else []) +
        Books(f.updates, past.taken))
  }

  ghost predicate SubOk(f: Feed, sub: Sub) {
    && AllBelow(sub.queue, |f.updates|)
    && sub.past.taken + sub.queue == Accepted(sub.past.offers)
    && OffersOk(f, sub.past.offers)
    && (sub.closed ==> sub.flag)
    && SnapshotOk(f, sub.past)
    && (sub.stream.Some? ==> SentOk(f, sub.past))
    && (sub.stream.None? ==> sub.past.snapAt.None?)
  }

  ghost predicate DropsOk(threads: seq<Thread>, sub: Sub, r: nat) {
    sub.dropped + Count(threads, Dropping(r)) == Rejected(sub.past.offers)
  }

  /** Every update that a member has to see was offered to it, or will be by the thread that publishes it. */
  ghost predicate Reached(f: Feed, threads: seq<Thread>, sub: Sub, r: nat, u: nat)
    requires u < |f.updates|
  {
    || u !in f.copied || u in sub.past.before || Offered(sub, u) || sub.flag
    || (f.updates[u].owner < |threads| && Current(threads[f.updates[u].owner]) == Some(u) &&
        r in Pending(threads[f.updates[u].owner]))
  }

  ghost predicate MemberOk(s: State, key: Key) {
    key in s.hub.members ==>
      var r := s.hub.members[key];
      && r < |s.subs| && s.subs[r].id == key.id && key.symbol in s.hub.topics
      && forall u :: 0 <= u < |s.feed.updates| && s.feed.updates[u].symbol == key.symbol ==>
        Reached(s.feed, s.threads, s.subs[r], r, u)
  }

  ghost predicate CountsOk(s: State) {
    && s.hub.dropped + Count(s.threads, Tallying) == TotalDropped(s.subs)
    && s.hub.active + Count(s.threads, Enrolling) == |s.hub.members| + s.hub.overwrites
  }

  ghost predicate Inv(s: State) {
    && (forall t :: 0 <= t < |s.threads| ==> ThreadOk(s, t, s.threads[t]))
    && LocksOk(s.threads)
    && FeedOk(s.feed, s.threads)
    && (forall r :: 0 <= r < |s.subs| ==> SubOk(s.feed, s.subs[r]) && DropsOk(s.threads, s.subs[r], r))
    && (forall key :: MemberOk(s, key))
    && CountsOk(s)
  }

  lemma InvImpliesWellFormed(s: State)
    requires Inv(s)
    ensures WellFormed(s)
  {
    forall t | 0 <= t < |s.threads|
      ensures InRange(|s.feed.updates|, |s.subs|, s.threads[t])
    {
      assert ThreadOk(s, t, s.threads[t]);
    }
    forall k | k in s.hub.members
      ensures s.hub.members[k] < |s.subs| && s.subs[s.hub.members[k]].id == k.id && k.symbol in s.hub.topics
    {
      assert MemberOk(s, k);
    }
    forall r | 0 <= r < |s.subs|
      ensures AllBelow(s.subs[r].queue, |s.feed.updates|)
    {
      assert SubOk(s.feed, s.subs[r]);
    }
  }

  // ---------------------------------------------------------------- one thread moves on

  /** A thread moves on without touching the feed: it may change one subscriber's record and the membership. */
  ghost predicate Moves(s: State, s': State, t: nat, r: nat) {
    && t < |s.threads| && |s'.threads| == |s.threads| && s'.threads == s.threads[t := s'.threads[t]]
    && s'.feed == s.feed && s.hub.topics <= s'.hub.topics
    && |s'.subs| == |s.subs| && (forall q :: 0 <= q < |s.subs| && q != r ==> s'.subs[q] == s.subs[q])
    && (r < |s.subs| ==> SameSub(s.subs[r], s'.subs[r], Current(s.threads[t])))
  }

  /** A subscriber keeps its identity and its history; only the update being published is newly offered. */
  ghost predicate SameSub(a: Sub, b: Sub, current: Option<nat>) {
    && b.id == a.id && b.stream == a.stream && (a.flag ==> b.flag)
    && (b.past.offers == a.past.offers || (current.Some? && exists ok ::
                                           b.past.offers == a.past.offers + [Offer(current.value, ok)]))
  }

  lemma SameSubOffered(a: Sub, b: Sub, current: Option<nat>, u: nat)
    requires SameSub(a, b, current)
    ensures Offered(a, u) ==> Offered(b, u)
    ensures Offered(b, u) ==> Offered(a, u) || current == Some(u)
  {
    if Offered(a, u) {
      var i :| 0 <= i < |a.past.offers| && a.past.offers[i].update == u;
      assert b.past.offers[i].update == u;
    }
  }

  /** What the other threads rely on: locked members stay, and a streaming subscriber's snapshot is taken by
      its own thread only. */
  ghost predicate Respects(s: State, s': State, t: nat, r: nat, i: nat)
    requires i < |s.threads|
  {
    && (s.threads[i].Close? && s.threads[i].key in s.hub.members ==>
          s.threads[i].key in s'.hub.members && s'.hub.members[s.threads[i].key] == s.hub.members[s.threads[i].key])
    && (r < |s.subs| && r < |s'.subs| && s'.subs[r].past.snapAt != s.subs[r].past.snapAt ==>
        s.subs[r].stream == Some(t))
    && (r < |s.subs| && r < |s'.subs| && s'.subs[r].past.joins != s.subs[r].past.joins ==>
        s.subs[r].stream.None? || s.subs[r].stream == Some(t))
  }

  lemma OtherThreadOk(s: State, s': State, t: nat, r: nat, i: nat)
    requires Moves(s, s', t, r) && i < |s.threads| && i != t
    requires ThreadOk(s, i, s.threads[i]) && ThreadOk(s, t, s.threads[t])
    requires Respects(s, s', t, r, i)
    ensures ThreadOk(s', i, s'.threads[i])
  {
    var pc := s.threads[i];
    if Current(pc).Some? && r < |s.subs| {
      SameSubOffered(s.subs[r], s'.subs[r], Current(s.threads[t]), Current(pc).value);
    }
  }

  /** An update that a member has to see stays covered when a thread moves on: members that drop out of the
      thread's list were offered the update or are flagged. */
  lemma StillReached(s: State, s': State, t: nat, r: nat, q: nat, u: nat)
    requires Moves(s, s', t, r) && q < |s.subs| && u < |s.feed.updates|
    requires Reached(s.feed, s.threads, s.subs[q], q, u)
    requires s.subs[q].past.before <= s'.subs[q].past.before
    requires Current(s.threads[t]) == Some(u) && q in Pending(s.threads[t]) ==>
               || (Current(s'.threads[t]) == Some(u) && q in Pending(s'.threads[t]))
               || Offered(s'.subs[q], u) || s'.subs[q].flag
    ensures Reached(s'.feed, s'.threads, s'.subs[q], q, u)
  {
    if q == r {
      SameSubOffered(s.subs[q], s'.subs[q], Current(s.threads[t]), u);
    }
  }

  lemma FeedStillOk(f: Feed, threads: seq<Thread>, t: nat, pc: Thread)
    requires t < |threads| && FeedOk(f, threads)
    requires BeforeCopy(threads[t]) ==> BeforeCopy(pc) && pc.update == threads[t].update
    ensures FeedOk(f, threads[t := pc])
  {
    var threads' := threads[t := pc];
    forall u | 0 <= u < |f.updates|
      ensures UpdateOk(f, threads', u)
    {
      assert UpdateOk(f, threads, u);
    }
  }

  /** What the moving thread owes to the members it drops from its list. */
  ghost predicate Hands(s: State, s': State, t: nat)
    requires t < |s.threads| && t < |s'.threads|
  {
    forall q :: q in Pending(s.threads[t]) && q < |s'.subs| ==>
      || (Current(s'.threads[t]) == Current(s.threads[t]) && q in Pending(s'.threads[t]))
      || Offered(s'.subs[q], Current(s.threads[t]).GetOr(0)) || s'.subs[q].flag
  }

  /** The membership changes only by deletions, or by an insertion that is accounted for. */
  ghost predicate MembersKept(s: State, s': State) {
    forall key :: key in s'.hub.members ==>
      (key in s.hub.members && s'.hub.members[key] == s.hub.members[key]) || MemberOk(s', key)
  }

  lemma OfThread(s: State, t: nat)
    requires Inv(s) && t < |s.threads|
    ensures ThreadOk(s, t, s.threads[t])
  {
  }

  lemma OfSub(s: State, r: nat)
    requires Inv(s) && r < |s.subs|
    ensures SubOk(s.feed, s.subs[r]) && DropsOk(s.threads, s.subs[r], r)
  {
  }

  lemma OfAll(s: State)
    requires Inv(s)
    ensures LocksOk(s.threads) && FeedOk(s.feed, s.threads) && CountsOk(s)
  {
  }

  lemma OfKey(s: State, key: Key)
    requires Inv(s)
    ensures MemberOk(s, key)
  {
  }

  lemma PartsInv(s: State)
    requires forall t :: 0 <= t < |s.threads| ==> ThreadOk(s, t, s.threads[t])
    requires LocksOk(s.threads) && FeedOk(s.feed, s.threads) && CountsOk(s)
    requires forall r :: 0 <= r < |s.subs| ==> SubOk(s.feed, s.subs[r]) && DropsOk(s.threads, s.subs[r], r)
    requires forall key :: MemberOk(s, key)
    ensures Inv(s)
  {
    hide ThreadOk, LocksOk, FeedOk, CountsOk, SubOk, DropsOk, MemberOk;
  }

  lemma MovesKeepInv(s: State, s': State, t: nat, r: nat)
    requires Inv(s) && Moves(s, s', t, r)
    requires ThreadOk(s', t, s'.threads[t]) && LocksOk(s'.threads) && CountsOk(s')
    requires forall i :: 0 <= i < |s.threads| && i != t ==> Respects(s, s', t, r, i)
    requires BeforeCopy(s.threads[t]) ==> BeforeCopy(s'.threads[t]) && s'.threads[t].update == s.threads[t].update
    requires r < |s.subs| ==>
               SubOk(s.feed, s'.subs[r]) && DropsOk(s'.threads, s'.subs[r], r) &&
               s.subs[r].past.before <= s'.subs[r].past.before
    requires forall q :: 0 <= q < |s.subs| && q != r ==>
               (Is(s.threads[t], Dropping(q)) <==> Is(s'.threads[t], Dropping(q)))
    requires Hands(s, s', t) && MembersKept(s, s')
    ensures Inv(s')
  {
    hide Inv, ThreadOk, FeedOk, LocksOk, CountsOk, SubOk, MemberOk, Respects, Hands, MembersKept, SameSub, Count, Is;
    OfThread(s, t);
    OfAll(s);
    forall i | 0 <= i < |s'.threads|
      ensures ThreadOk(s', i, s'.threads[i])
    {
      if i != t {
        OfThread(s, i);
        OtherThreadOk(s, s', t, r, i);
      }
    }
    FeedStillOk(s.feed, s.threads, t, s'.threads[t]);
    forall q | 0 <= q < |s'.subs|
      ensures SubOk(s'.feed, s'.subs[q]) && DropsOk(s'.threads, s'.subs[q], q)
    {
      if q != r {
        OfSub(s, q);
        CountMoved(s.threads, t, s'.threads[t], Dropping(q));
      }
    }
    forall key
      ensures MemberOk(s', key)
    {
      KeptMemberOk(s, s', t, r, key);
    }
    PartsInv(s');
  }

  lemma KeptMemberOk(s: State, s': State, t: nat, r: nat, key: Key)
    requires Inv(s) && Moves(s, s', t, r) && Hands(s, s', t) && MembersKept(s, s')
    requires r < |s.subs| ==> s.subs[r].past.before <= s'.subs[r].past.before
    ensures MemberOk(s', key)
  {
    OfKey(s, key);
    if key in s'.hub.members && key in s.hub.members && s'.hub.members[key] == s.hub.members[key] {
      hide Inv, MembersKept;
      MemberStillOk(s, s', t, r, key);
    } else {
      hide Inv, Moves, Hands, Reached;
    }
  }

  lemma MemberStillOk(s: State, s': State, t: nat, r: nat, key: Key)
    requires Moves(s, s', t, r) && Hands(s, s', t)
    requires key in s.hub.members && key in s'.hub.members && s'.hub.members[key] == s.hub.members[key]
    requires MemberOk(s, key)
    requires r < |s.subs| ==> s.subs[r].past.before <= s'.subs[r].past.before
    ensures MemberOk(s', key)
  {
    var q := s.hub.members[key];
    forall u | 0 <= u < |s'.feed.updates| && s'.feed.updates[u].symbol == key.symbol
      ensures Reached(s'.feed, s'.threads, s'.subs[q], q, u)
    {
      StillReached(s, s', t, r, q, u);
    }
  }
}
