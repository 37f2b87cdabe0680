/** Why a join must not displace a subscriber that a publisher still owes an update: exactly then the subscriber can
    stay over the threshold, open, with nobody to remove it. */
module RelayDisplaced {
  import opened Relay
  import opened RelayInvariant
  import opened RelaySteps
  import opened RelayRuns
  import opened RelayEffects
  import opened RelayRules
  import opened RelayLifecycle
  import opened RelayOnce
  import opened RelayNames
  import opened RelaySlow
  import opened RelayAlone

  // ---------------------------------------------------------------- a drop on a displaced subscriber

  /** The publisher is dealing with subscriber `r`, whose channel is full and which is at its limit: it has dropped as
      many updates as it may, or with the drop of this one, one more. */
  ghost predicate AtLimit(c: Config, s: State, t: nat, u: nat, r: nat, rest: seq<nat>) {
    && t < |s.threads| && r < |s.subs| && rest != [] && rest[0] == r && !s.subs[r].flag
    && match s.threads[t]
       case Visit(v, ms) => v == u && ms == rest && s.subs[r].dropped == c.slowThreshold &&
         |s.subs[r].queue| >= c.bufferSize
       case Send(v, ms) => v == u && ms == rest && s.subs[r].dropped == c.slowThreshold &&
         |s.subs[r].queue| >= c.bufferSize
       case Drop(v, ms) => v == u && ms == rest && s.subs[r].dropped == c.slowThreshold
       case Tally(v, ms) => v == u && ms == rest && s.subs[r].dropped == c.slowThreshold + 1
       case Check(v, ms) => v == u && ms == rest && s.subs[r].dropped == c.slowThreshold + 1
       case Leave(key, next) =>
         && u < |s.feed.updates| && key == Key(s.feed.updates[u].symbol, s.subs[r].id) && next == Resume(u, rest[1..])
         && s.subs[r].dropped == c.slowThreshold + 1
       case _ => false
  }

  /** Between two states only thread `t`, the history and the counters of `r` and the hub's counters have changed. */
  ghost predicate OnlyDrops(s: State, s': State, t: nat, r: nat) {
    && s'.status == s.status && s'.feed == s.feed && s'.hub.topics == s.hub.topics && s'.hub.members == s.hub.members
    && |s'.threads| == |s.threads| && (forall i :: 0 <= i < |s.threads| && i != t ==> s'.threads[i] == s.threads[i])
    && |s'.subs| == |s.subs| && (forall q :: 0 <= q < |s.subs| && q != r ==> s'.subs[q] == s.subs[q])
    && (r < |s.subs| ==>
          s'.subs[r].id == s.subs[r].id && s'.subs[r].flag == s.subs[r].flag &&
          s'.subs[r].closed == s.subs[r].closed)
  }

  lemma LimitStep(c: Config, s: State, t: nat, u: nat, r: nat, rest: seq<nat>)
    requires AtLimit(c, s, t, u, r, rest) && !s.threads[t].Leave? && !s.subs[r].closed && u < |s.feed.updates|
    requires InRange(|s.feed.updates|, |s.subs|, s.threads[t])
    requires s.threads[t].Mark? && s.threads[t].key in s.hub.members ==> s.hub.members[s.threads[t].key] < |s.subs|
    ensures AtLimit(c, StateAfter(c, s, t), t, u, r, rest) && OnlyDrops(s, StateAfter(c, s, t), t, r)
    ensures Left(StateAfter(c, s, t).threads[t]) < Left(s.threads[t])
  {
    assert |rest[1..]| == |rest| - 1;
  }

  lemma DroppedReady(s: State, s': State, t: nat, u: nat, x: string, r: nat, c: Config, rest: seq<nat>)
    requires Ready(s, t, u, x) && OnlyDrops(s, s', t, r) && Inv(s') && NamesInv(s') && AtLimit(c, s', t, u, r, rest)
    requires r < |s.subs|
    requires !s.subs[r].closed
    ensures Ready(s', t, u, x)
  {
    hide Inv, NamesInv;
  }

  lemma DropsBoth(s: State, s': State, s'': State, t: nat, r: nat)
    requires OnlyDrops(s, s', t, r) && OnlyDrops(s', s'', t, r)
    ensures OnlyDrops(s, s'', t, r)
  {
  }

  /** The publisher drops the update on `r` and goes to remove the member of its id. */
  lemma DropOn(c: Config, s: State, t: nat, u: nat, x: string, r: nat, rest: seq<nat>)
    returns (es: seq<Event>, s': State)
    requires Ready(s, t, u, x) && AtLimit(c, s, t, u, r, rest) && t < |s.threads| && r < |s.subs|
    requires u < |s.feed.updates|
    ensures Exec(c, s, es) == Some(s') && RunsOf(es, t) && Ready(s', t, u, x) && OnlyDrops(s, s', t, r)
    ensures AtLimit(c, s', t, u, r, rest) && t < |s'.threads| && s'.threads[t].Leave?
    decreases Left(s.threads[t])
  {
    if s.threads[t].Leave? {
      es, s' := [], s;
      ExecNothing(c, s);
    } else {
      ReadyNames(s, t, u, x);
      hide *;
      LimitOpen(c, s, t, u, r, rest);
      OpenOrFlagged(s, r);
      ReadyRunnable(s, t, u, x);
      ReadyGoes(c, s, t, u, x);
      LimitStep(c, s, t, u, r, rest);
      var s1 := StateAfter(c, s, t);
      DroppedReady(s, s1, t, u, x, r, c, rest);
      DropsRange(s, s1, t, r);
      var fs := OneRun(c, s, t, [], s1);
      var gs;
      gs, s' := DropOn(c, s1, t, u, x, r, rest);
      es := fs + gs;
      ExecAppend(c, s, fs, gs);
      BothRunsOf(fs, gs, t);
      DropsBoth(s, s1, s', t, r);
    }
  }

  lemma LimitOpen(c: Config, s: State, t: nat, u: nat, r: nat, rest: seq<nat>)
    requires AtLimit(c, s, t, u, r, rest)
    ensures r < |s.subs| && !s.subs[r].flag
  {
  }

  lemma DropsRange(s: State, s': State, t: nat, r: nat)
    requires OnlyDrops(s, s', t, r)
    ensures |s'.threads| == |s.threads| && |s'.subs| == |s.subs| && s'.feed == s.feed
  {
  }


  // ---------------------------------------------------------------- the displaced subscriber stays

  /** Subscriber `r` is open and at its limit, and a publisher deals with it, or has yet to. */
  ghost predicate AboutToDrop(c: Config, s: State, t: nat, r: nat) {
    && t < |s.threads| && r < |s.subs| && Owes(s.threads[t], r) && !s.subs[r].flag
    && s.subs[r].dropped == c.slowThreshold && |s.subs[r].queue| >= c.bufferSize
  }

  /** Thread `t` has ended; `r` is open and over the threshold, and other topics hold it as before. */
  ghost predicate Stranded(c: Config, s: State, s': State, t: nat, r: nat, x: string) {
    && s'.status.Running? && |s'.threads| == |s.threads| && t < |s'.threads| && s'.threads[t] == Done
    && (forall i :: 0 <= i < |s.threads| && i != t ==> s'.threads[i] == s.threads[i])
    && r < |s'.subs| && !s'.subs[r].flag && s'.subs[r].dropped == c.slowThreshold + 1
    && (forall k :: k in s.hub.members && k.symbol != x ==>
        k in s'.hub.members && s'.hub.members[k] == s.hub.members[k])
  }

  lemma ReachLimit(c: Config, s: State, t: nat, u: nat, x: string, r: nat)
    returns (es: seq<Event>, s': State, rest: seq<nat>)
    requires Ready(s, t, u, x) && AboutToDrop(c, s, t, r) && t < |s.threads| && r < |s.subs|
    requires !HeldAt(s.hub.members, Key(x, s.subs[r].id), r)
    ensures Exec(c, s, es) == Some(s') && RunsOf(es, t) && Ready(s', t, u, x) && Spares(s, s', t, r, x)
    ensures AtLimit(c, s', t, u, r, rest)
  {
    hide *;
    ReadyNames(s, t, u, x);
    AboutToDropParts(c, s, t, r);
    if Head(s.threads[t]) == Some(r) {
      OwesHead(s, t, u, r);
      HeadAtLimit(c, s, t, u, r);
      es, s', rest := [], s, s.threads[t].rest;
      NoRun(c, s, t);
      SparesNothing(s, t, r, x);
    } else {
      OwesPends(s.threads[t], r);
      UnheldClear(s, s.threads[t], r, x);
      es, s' := Advance(c, s, t, u, x, r);
      ReadyNames(s', t, u, x);
      rest := s'.threads[t].rest;
      SparesSub(s, s', t, r, x);
      VisitsAtLimit(c, s', t, u, r);
    }
  }

  lemma NoRun(c: Config, s: State, t: nat)
    ensures Exec(c, s, []) == Some(s) && RunsOf([], t)
  {
  }

  lemma HeadAtLimit(c: Config, s: State, t: nat, u: nat, r: nat)
    requires AboutToDrop(c, s, t, r) && t < |s.threads| && Head(s.threads[t]) == Some(r)
    requires (s.threads[t].Send? || s.threads[t].Drop?) && s.threads[t].update == u
    ensures AtLimit(c, s, t, u, r, s.threads[t].rest)
  {
    hide Owes;
  }

  lemma AboutToDropParts(c: Config, s: State, t: nat, r: nat)
    requires AboutToDrop(c, s, t, r)
    ensures t < |s.threads| && r < |s.subs| && Owes(s.threads[t], r) && !s.subs[r].flag
    ensures s.subs[r].dropped == c.slowThreshold && |s.subs[r].queue| >= c.bufferSize
  {
    hide Owes;
  }

  lemma OwesHead(s: State, t: nat, u: nat, r: nat)
    requires t < |s.threads| && NamesApart(s.feed, s.subs, s.threads[t]) && Owes(s.threads[t], r)
    requires Head(s.threads[t]) == Some(r)
    requires Current(s.threads[t]) == Some(u)
    ensures (s.threads[t].Send? || s.threads[t].Drop?) && s.threads[t].update == u
  {
    if r in Pending(s.threads[t]) {
      PendingIsNamed(s, s.threads[t], r);
    }
  }

  lemma OwesPends(pc: Thread, r: nat)
    requires Owes(pc, r) && Head(pc) != Some(r)
    ensures r in Pending(pc)
  {
  }

  lemma UnheldClear(s: State, pc: Thread, r: nat, x: string)
    requires r < |s.subs| && !HeldAt(s.hub.members, Key(x, s.subs[r].id), r) && Head(pc) != Some(r)
    ensures Clear(s, pc, r, x)
  {
  }

  lemma SparesSub(s: State, s': State, t: nat, r: nat, x: string)
    requires r < |s.subs| && Spares(s, s', t, r, x)
    ensures r < |s'.subs| && s'.subs[r] == s.subs[r]
  {
    hide TopicOpen;
  }

  lemma VisitsAtLimit(c: Config, s: State, t: nat, u: nat, r: nat)
    requires t < |s.threads| && s.threads[t].Visit? && s.threads[t].update == u && s.threads[t].rest != []
    requires s.threads[t].rest[0] == r
    requires r < |s.subs| && !s.subs[r].flag && s.subs[r].dropped == c.slowThreshold
    requires |s.subs[r].queue| >= c.bufferSize
    ensures AtLimit(c, s, t, u, r, s.threads[t].rest)
  {
  }

  /** A publisher that owes an update to a subscriber that its topic no longer holds, and that is at its limit, leaves
      it over the threshold and open. */
  lemma Strand(c: Config, s: State, t: nat, u: nat, x: string, r: nat) returns (es: seq<Event>, s': State)
    requires Ready(s, t, u, x) && AboutToDrop(c, s, t, r) && t < |s.threads| && r < |s.subs|
    requires !HeldAt(s.hub.members, Key(x, s.subs[r].id), r)
    ensures Exec(c, s, es) == Some(s') && RunsOf(es, t) && Inv(s') && NamesInv(s') && Stranded(c, s, s', t, r, x)
    ensures |s'.subs| == |s.subs| && s'.feed == s.feed
  {
    hide *;
    var fs, s1, rest := ReachLimit(c, s, t, u, x, r);
    ReadyNames(s1, t, u, x);
    SparesSub(s, s1, t, r, x);
    ReadyRange(s1, t, u, x);
    var gs, s2 := DropOn(c, s1, t, u, x, r, rest);
    StillUnheld(s, s1, s2, t, r, x);
    LeavesWithout(c, s2, t, u, x, r, rest);
    var hs;
    hs, s' := Finish(c, s2, t, u, x, r);
    ExecAppend(c, s, fs, gs);
    ExecAppend(c, s, fs + gs, hs);
    BothRunsOf(fs, gs, t);
    BothRunsOf(fs + gs, hs, t);
    es := (fs + gs) + hs;
    ReadyRange(s, t, u, x);
    StrandedBy(c, s, s1, s2, s', t, u, r, x, rest);
  }

  lemma ReadyRange(s: State, t: nat, u: nat, x: string)
    requires Ready(s, t, u, x)
    ensures t < |s.threads| && u < |s.feed.updates| && s.status.Running?
  {
    hide Inv, NamesInv, TopicOpen, OthersUnlocked, Doomed;
  }

  lemma StillUnheld(s: State, s1: State, s2: State, t: nat, r: nat, x: string)
    requires r < |s.subs| && Spares(s, s1, t, r, x) && OnlyDrops(s1, s2, t, r)
    requires !HeldAt(s.hub.members, Key(x, s.subs[r].id), r)
    ensures r < |s2.subs| && !HeldAt(s2.hub.members, Key(x, s2.subs[r].id), r)
  {
    hide TopicOpen;
  }

  lemma LeavesWithout(c: Config, s: State, t: nat, u: nat, x: string, r: nat, rest: seq<nat>)
    requires Ready(s, t, u, x) && AtLimit(c, s, t, u, r, rest) && t < |s.threads| && s.threads[t].Leave? && r < |s.subs|
    requires !HeldAt(s.hub.members, Key(x, s.subs[r].id), r)
    ensures Clear(s, s.threads[t], r, x) && r !in Pending(s.threads[t])
  {
    ReadyNames(s, t, u, x);
    hide Ready, Inv, NamesInv;
    if r in Pending(s.threads[t]) {
      PendingIsNamed(s, s.threads[t], r);
      KeyApart(s, s.threads[t], r);
    }
  }

  lemma StrandedBy(c: Config, s: State, s1: State, s2: State, s': State, t: nat, u: nat, r: nat, x: string,
                   rest: seq<nat>)
    requires r < |s.subs| && t < |s.threads| && s.status.Running? && Spares(s, s1, t, r, x) && OnlyDrops(s1, s2, t, r)
    requires r < |s2.subs| && Spares(s2, s', t, r, x) && t < |s'.threads| && s'.threads[t] == Done
    requires AtLimit(c, s2, t, u, r, rest) && t < |s2.threads| && s2.threads[t].Leave?
    ensures Stranded(c, s, s', t, r, x) && |s'.subs| == |s.subs| && s'.feed == s.feed
  {
    hide TopicOpen;
  }

  // ---------------------------------------------------------------- exactly which joins

  /** From here on, with joins that displace nobody who is owed an update, the relay can come to rest with an open
      subscriber over the threshold. */
  ghost predicate CanStaySlow(c: Config, s: State) { exists es: seq<Event> :: StaysSlow(c, s, es) }

  ghost predicate StaysSlow(c: Config, s: State, es: seq<Event>) {
    && Obeys(c, TakesUnowed(c), s, es) && Exec(c, s, es).Some?
    && NonePublishing(Exec(c, s, es).value) && !WithinThreshold(c, Exec(c, s, es).value)
  }

  lemma TrackedCannotStaySlow(c: Config, s: State)
    requires Inv(s) && Tracked(c, s)
    ensures !CanStaySlow(c, s)
  {
    hide Inv, Tracked, StaysSlow;
    forall es: seq<Event>
      ensures !StaysSlow(c, s, es)
    {
      TrackedNotSlow(c, s, es);
    }
  }

  lemma TrackedNotSlow(c: Config, s: State, es: seq<Event>)
    requires Inv(s) && Tracked(c, s)
    ensures !StaysSlow(c, s, es)
  {
    hide Inv, Tracked, Obeys, Exec, NonePublishing, WithinThreshold;
    if Obeys(c, TakesUnowed(c), s, es) && Exec(c, s, es).Some? && NonePublishing(Exec(c, s, es).value) {
      TrackedRun(c, s, es);
      TrackedAtRest(c, Exec(c, s, es).value);
    }
  }

  /** The steps of a thread that does not join keep the rule. */
  lemma {:induction false} PublisherObeys(c: Config, s: State, es: seq<Event>, t: nat)
    requires Inv(s) && RunsOf(es, t) && (t < |s.threads| ==> !s.threads[t].Insert? && !s.threads[t].Join?)
    ensures Obeys(c, TakesUnowed(c), s, es)
    decreases |es|
  {
    hide Inv, WellFormed, Step, MayTake;
    if es != [] && WellFormed(s) && Enabled(s, es[0]) {
      var s' := Step(c, s, es[0]);
      StepKeepsInv(c, s, es[0]);
      if s'.status == s.status {
        StepEffects(c, s, es[0]);
        hide Enabled, SubsEffect, MembersEffect, FeedEffect;
      } else {
        CallsDoNotPanic(c, s, es[0]);
        PanicKeepsState(c, s, es[0].thread, es[0].order, es[0].ok);
        hide Enabled;
      }
      PublisherObeys(c, s', es[1..], t);
    }
  }

  /** Thread `t` is the only publisher, of topic `x`; it is not about to send to a closed channel. */
  ghost predicate OnePublisher(s: State, t: nat, x: string) {
    && t < |s.threads| && Publishing(s, t, x) && !Doomed(s, t)
    && forall i :: 0 <= i < |s.threads| && i != t ==> Current(s.threads[i]).None?
  }

  /** The join of `p` takes the place of `r`, which is open and has a full channel and as many drops as it may have. */
  ghost predicate TakesFull(c: Config, s: State, x: string, p: nat, r: nat) {
    && p < |s.subs| && Displaced(s, x, p) == Some(r) && r < |s.subs|
    && !s.subs[r].flag && s.subs[r].dropped == c.slowThreshold && |s.subs[r].queue| >= c.bufferSize
    && TopicOpen(s, x) && !s.subs[p].closed
  }

  lemma UnowedMayTake(c: Config, s: State, x: string, p: nat, r: nat, t: nat)
    requires TakesFull(c, s, x, p, r) && OnePublisher(s, t, x) && !Owes(s.threads[t], r)
    ensures p < |s.subs| && MayTake(c, s, x, p)
  {
    hide TopicOpen, Doomed, Owes;
  }

  /** What the insertion leaves for the publisher. */
  lemma InsertedReady(s: State, j: nat, x: string, p: nat, r: nat, t: nat, c: Config)
    requires Inv(s) && TakesFull(c, s, x, p, r) && OnePublisher(s, t, x) && t < |s.threads| && Owes(s.threads[t], r)
    requires j < |s.threads| && p < |s.subs| && s.threads[j] == Insert(x, p)
    requires Unlocked(s.threads, x) && Inv(DoInsert(s, j, x, p)) && NamesInv(DoInsert(s, j, x, p)) && s.status.Running?
    ensures var s' := DoInsert(s, j, x, p);
            && Current(s.threads[t]).Some? && Ready(s', t, Current(s.threads[t]).value, x) && AboutToDrop(c, s', t, r)
            && t < |s'.threads| && r < |s'.subs| && !HeldAt(s'.hub.members, Key(x, s'.subs[r].id), r)
            && (forall i :: 0 <= i < |s'.threads| && i != t ==> Current(s'.threads[i]).None?)
  {
    hide *;
    var s' := DoInsert(s, j, x, p);
    InsertedParts(s, j, x, p);
    TakesFullParts(c, s, x, p, r);
    OnePublisherParts(s, t, x);
    InsertedOpen(s, j, x, p);
    PublisherNotJoining(s, t, j, x, p, r);
    InsertedDoomed(s, s', t, x);
    InsertedUnlocked(s, j, t, x, p);
    ReadyToGo(s', t, Current(s.threads[t]).value, x);
    AboutToDropOf(c, s', t, r);
    DisplacedKey(s, x, p, r);
    OfMember(s, Key(x, s.subs[p].id));
    Unheld(s, x, p, r);
    EnrollIsNoPublish(x, p);
  }

  lemma TakesFullParts(c: Config, s: State, x: string, p: nat, r: nat)
    requires TakesFull(c, s, x, p, r)
    ensures p < |s.subs| && Displaced(s, x, p) == Some(r) && r < |s.subs|
    ensures !s.subs[r].flag && s.subs[r].dropped == c.slowThreshold && |s.subs[r].queue| >= c.bufferSize
    ensures TopicOpen(s, x) && !s.subs[p].closed
  {
    hide TopicOpen, Displaced;
  }

  lemma OnePublisherParts(s: State, t: nat, x: string)
    requires OnePublisher(s, t, x)
    ensures t < |s.threads| && Current(s.threads[t]).Some? && Current(s.threads[t]).value < |s.feed.updates|
    ensures s.feed.updates[Current(s.threads[t]).value].symbol == x && !Doomed(s, t)
    ensures forall i :: 0 <= i < |s.threads| && i != t ==> Current(s.threads[i]).None?
  {
    hide Doomed, Current;
  }

  lemma InsertedUnlocked(s: State, j: nat, t: nat, x: string, p: nat)
    requires j < |s.threads| && p < |s.subs| && Unlocked(s.threads, x)
    ensures OthersUnlocked(DoInsert(s, j, x, p), t, x)
  {
  }

  lemma AboutToDropOf(c: Config, s: State, t: nat, r: nat)
    requires t < |s.threads| && r < |s.subs| && Owes(s.threads[t], r) && !s.subs[r].flag
    requires s.subs[r].dropped == c.slowThreshold && |s.subs[r].queue| >= c.bufferSize
    ensures AboutToDrop(c, s, t, r)
  {
    hide Owes;
  }

  lemma DisplacedKey(s: State, x: string, p: nat, r: nat)
    requires p < |s.subs| && Displaced(s, x, p) == Some(r)
    ensures Key(x, s.subs[p].id) in s.hub.members && s.hub.members[Key(x, s.subs[p].id)] == r && p != r
  {
  }

  lemma Unheld(s: State, x: string, p: nat, r: nat)
    requires p < |s.subs| && r < |s.subs| && p != r && s.subs[r].id == s.subs[p].id
    ensures !HeldAt(s.hub.members[Key(x, s.subs[p].id) := p], Key(x, s.subs[r].id), r)
  {
  }

  lemma EnrollIsNoPublish(x: string, p: nat)
    ensures Current(Enroll(x, p)).None?
  {
  }

  lemma PublisherNotJoining(s: State, t: nat, j: nat, x: string, p: nat, r: nat)
    requires t < |s.threads| && Owes(s.threads[t], r) && j < |s.threads| && s.threads[j] == Insert(x, p)
    ensures t != j && !BeforeCopy(s.threads[t])
  {
  }

  lemma InsertedParts(s: State, j: nat, x: string, p: nat)
    requires j < |s.threads| && p < |s.subs|
    ensures var s', key := DoInsert(s, j, x, p), Key(x, s.subs[p].id);
            && s'.feed == s.feed && s'.status == s.status && s'.hub.members == s.hub.members[key := p]
            && |s'.threads| == |s.threads| && s'.threads[j] == Enroll(x, p)
            && (forall i :: 0 <= i < |s.threads| && i != j ==> s'.threads[i] == s.threads[i])
            && |s'.subs| == |s.subs|
            && (forall q :: 0 <= q < |s.subs| ==> s'.subs[q] == s.subs[q].(past := s'.subs[q].past))
  {
  }

  lemma InsertedOpen(s: State, j: nat, x: string, p: nat)
    requires j < |s.threads| && p < |s.subs| && TopicOpen(s, x) && !s.subs[p].closed
    ensures TopicOpen(DoInsert(s, j, x, p), x)
  {
  }

  lemma InsertedDoomed(s: State, s': State, t: nat, x: string)
    requires t < |s.threads| && |s'.threads| == |s.threads| && s'.threads[t] == s.threads[t] && !Doomed(s, t)
    requires |s'.subs| == |s.subs| && forall q :: 0 <= q < |s.subs| ==> s'.subs[q].closed == s.subs[q].closed
    ensures !Doomed(s', t)
  {
  }

  lemma StrandedIsSlow(c: Config, s: State, s': State, t: nat, r: nat, x: string)
    requires Stranded(c, s, s', t, r, x) && forall i :: 0 <= i < |s.threads| && i != t ==> Current(s.threads[i]).None?
    ensures NonePublishing(s') && !WithinThreshold(c, s')
  {
  }

  lemma OwedStaysSlow(c: Config, s: State, t: nat, u: nat, x: string, r: nat)
    requires Ready(s, t, u, x) && AboutToDrop(c, s, t, r) && t < |s.threads| && r < |s.subs|
    requires !HeldAt(s.hub.members, Key(x, s.subs[r].id), r)
    requires forall i :: 0 <= i < |s.threads| && i != t ==> Current(s.threads[i]).None?
    ensures CanStaySlow(c, s)
  {
    ReadyNames(s, t, u, x);
    PublisherJoinsNothing(s.threads[t], u);
    hide Ready, AboutToDrop, HeldAt, Inv, NamesInv, Stranded, Exec, Obeys, RunsOf, NonePublishing, WithinThreshold,
    NamesApart, Current, BeforeCopy;
    var es, s' := Strand(c, s, t, u, x, r);
    PublisherObeys(c, s, es, t);
    StrandedIsSlow(c, s, s', t, r, x);
    assert StaysSlow(c, s, es);
  }

  lemma PublisherJoinsNothing(pc: Thread, u: nat)
    requires Current(pc) == Some(u)
    ensures !pc.Insert? && !pc.Join?
  {
  }

  lemma StepInserts(c: Config, s: State, e: Event)
    requires Inv(s) && NamesInv(s) && WellFormed(s) && Enabled(s, e) && e.Run? && Acting(s, e).Insert?
    ensures e.thread < |s.threads| && Acting(s, e).sub < |s.subs| && s.threads[e.thread] == Acting(s, e)
    ensures Unlocked(s.threads, Acting(s, e).symbol) && s.status.Running?
    ensures Step(c, s, e) == DoInsert(s, e.thread, Acting(s, e).symbol, Acting(s, e).sub) && Inv(Step(c, s, e))
    ensures NamesInv(Step(c, s, e))
  {
    hide Inv, NamesInv, DoInsert, Unlocked;
    StepKeepsInv(c, s, e);
    NamesStep(c, s, e);
    OfThread(s, e.thread);
    hide WellFormed, FeedThreadOk, PublisherOk, CloserOk, StreamerOk;
  }

  /** One publish is under way, and a join displaces an open subscriber that is at its limit: the relay can then come
      to rest with an open subscriber over the threshold if and only if the publisher owes the displaced one its
      update. */
  lemma DisplacedIff(c: Config, es: seq<Event>, s: State, e: Event, r: nat, t: nat)
    requires Reaches(c, es, s) && Obeys(c, TakesUnowed(c), Init, es)
    requires WellFormed(s) && Enabled(s, e) && e.Run? && Acting(s, e).Insert?
    requires TakesFull(c, s, Acting(s, e).symbol, Acting(s, e).sub, r) && OnePublisher(s, t, Acting(s, e).symbol)
    ensures t < |s.threads| && (CanStaySlow(c, Step(c, s, e)) <==> Owes(s.threads[t], r))
  {
    var x, p := Acting(s, e).symbol, Acting(s, e).sub;
    assert t < |s.threads|;
    hide *;
    ReachedTracked(c, es, s);
    StepInserts(c, s, e);
    if Owes(s.threads[t], r) {
      InsertedReady(s, e.thread, x, p, r, t, c);
      OwedStaysSlow(c, Step(c, s, e), t, Current(s.threads[t]).value, x, r);
    } else {
      UnowedMayTake(c, s, x, p, r, t);
      JoinKeepsTrackedIff(c, s, e);
      TrackedCannotStaySlow(c, Step(c, s, e));
    }
  }

  lemma ReachedTracked(c: Config, es: seq<Event>, s: State)
    requires Reaches(c, es, s) && Obeys(c, TakesUnowed(c), Init, es)
    ensures Inv(s) && NamesInv(s) && Tracked(c, s)
  {
    InitInv();
    assert NamesInv(Init) && Tracked(c, Init);
    hide *;
    ReachesExec(c, es, s);
    ReachedInv(c, es, s);
    NamesRun(c, Init, es);
    TrackedRun(c, Init, es);
  }

  // ---------------------------------------------------------------- from every relay at rest

  /** A callback without a book that runs until it has copied the members. */
  lemma CallbackAtVisit(c: Config, s: State, x: string) returns (es: seq<Event>, s': State, order: seq<nat>)
    requires Inv(s) && s.status.Running? && NoLocks(s) && x in s.hub.topics
    ensures Exec(c, s, es) == Some(s') && ListsMembers(s.hub.members, x, order)
    ensures s' == Carrying(s, x, true, Visit(|s.feed.updates|, order)) && Inv(s')
  {
    hide *;
    order := MembersListed(s.hub.members, x);
    var n, run, copy := |s.feed.updates|, Run(|s.threads|, [], true), Run(|s.threads|, order, true);
    var s1, s2, s3 := Carrying(s, x, false, Write(n)), Carrying(s, x, false, Lookup(n)), Carrying(s, x, false, Copy(n));
    s' := Carrying(s, x, true, Visit(n, order));
    CallbackBegins(c, s, x);
    CallbackLooksUp(c, s, x, Write(n), Lookup(n));
    CallbackLooksUp(c, s, x, Lookup(n), Copy(n));
    CallbackCopies(c, s, x, order);
    ExecNothing(c, s');
    ExecStep(c, s3, copy, s', []);
    ExecStep(c, s2, run, s3, [copy] + []);
    ExecStep(c, s1, run, s2, [run] + ([copy] + []));
    ExecStep(c, s, OnData(x, None), s1, [run] + ([run] + ([copy] + [])));
    es := [OnData(x, None)] + ([run] + ([run] + ([copy] + [])));
  }

  /** What the callback and the join leave: the publisher has `r` to come, and its place is taken. */
  lemma JoinedReady(c: Config, s: State, k: Key, r: nat, p: nat, order: seq<nat>, s2: State)
    requires Inv(s) && NonePublishing(s) && NoLocks(s) && k in s.hub.members && s.hub.members[k] == r && r < |s.subs|
    requires p < |s.subs| && p != r && s.subs[p].id == k.id && s.subs[r].id == k.id && TopicOpen(s, k.symbol)
    requires !s.subs[p].closed
    requires !s.subs[r].flag && s.subs[r].dropped == c.slowThreshold && |s.subs[r].queue| >= c.bufferSize && r in order
    requires var s1 := Carrying(s, k.symbol, true, Visit(|s.feed.updates|, order));
               p < |s1.subs| && Joined(s1, k.symbol, p, s2)
    requires Inv(s2) && NamesInv(s2)
    ensures var t, u := |s.threads|, |s.feed.updates|;
            && Ready(s2, t, u, k.symbol) && AboutToDrop(c, s2, t, r) && t < |s2.threads| && r < |s2.subs|
            && !HeldAt(s2.hub.members, Key(k.symbol, s2.subs[r].id), r)
            && (forall i :: 0 <= i < |s2.threads| && i != t ==> Current(s2.threads[i]).None?)
            && (forall l :: l in s.hub.members && l.symbol != k.symbol ==>
                l in s2.hub.members && s2.hub.members[l] == s.hub.members[l])
  {
    hide Inv, NamesInv;
  }

  /** From every relay at rest: when a subscriber that a topic holds is open and at its limit, a callback of the topic
      and a join under the same id can leave it open and over the threshold, still held by every other topic that
      holds it, with nobody to remove it. */
  lemma DisplacementStrands(c: Config, fs: seq<Event>, s: State, k: Key, r: nat, p: nat)
    returns (es: seq<Event>, s': State)
    requires Reaches(c, fs, s) && s.status.Running? && NonePublishing(s) && NoLocks(s)
    requires k in s.hub.members && s.hub.members[k] == r && r < |s.subs|
    requires !s.subs[r].flag && s.subs[r].dropped == c.slowThreshold && |s.subs[r].queue| >= c.bufferSize
    requires p < |s.subs| && p != r && s.subs[p].id == k.id && s.subs[p].stream.None? && !s.subs[p].closed
    requires TopicOpen(s, k.symbol)
    ensures Exec(c, s, es) == Some(s') && s'.status.Running? && NonePublishing(s')
    ensures r < |s'.subs| && !s'.subs[r].flag && s'.subs[r].dropped > c.slowThreshold
    ensures forall l :: l in s.hub.members && l.symbol != k.symbol ==>
              l in s'.hub.members && s'.hub.members[l] == s.hub.members[l]
  {
    hide *;
    var x, t, u := k.symbol, |s.threads|, |s.feed.updates|;
    ReachedInv(c, fs, s);
    ReachedNames(c, fs, s);
    OfMember(s, k);
    var es1, s1, order := CallbackAtVisit(c, s, x);
    ListedMember(s.hub.members, k, order);
    CarryingParts(s, x, Visit(u, order));
    JoiningRuns(c, s1, x, p);
    var es2 := Joining(x, p, |s1.threads|);
    var s2 := Exec(c, s1, es2).value;
    ExecAppend(c, s, es1, es2);
    RunKeepsInv(c, s1, es2);
    ReachesExec(c, fs, s);
    ExecAppend(c, Init, fs, es1 + es2);
    ReachesBy(c, fs + (es1 + es2), s2);
    ReachedNames(c, fs + (es1 + es2), s2);
    JoinedReady(c, s, k, r, p, order, s2);
    var es3;
    es3, s' := Strand(c, s2, t, u, x, r);
    ExecAppend(c, s, es1 + es2, es3);
    es := (es1 + es2) + es3;
    StrandedIsSlow(c, s2, s', t, r, x);
    StrandedParts(c, s2, s', t, r, x);
  }

  lemma ReachedNames(c: Config, es: seq<Event>, s: State)
    requires Reaches(c, es, s)
    ensures NamesInv(s)
  {
    InitInv();
    assert NamesInv(Init);
    hide *;
    ReachesExec(c, es, s);
    NamesRun(c, Init, es);
  }

  lemma ReachesBy(c: Config, es: seq<Event>, s: State)
    requires Exec(c, Init, es) == Some(s)
    ensures Reaches(c, es, s)
  {
  }

  lemma StrandedParts(c: Config, s: State, s': State, t: nat, r: nat, x: string)
    requires Stranded(c, s, s', t, r, x)
    ensures s'.status.Running? && r < |s'.subs| && !s'.subs[r].flag && s'.subs[r].dropped > c.slowThreshold
    ensures forall l :: l in s.hub.members && l.symbol != x ==>
              l in s'.hub.members && s'.hub.members[l] == s.hub.members[l]
  {
  }
}
