/** No open subscriber stays over the threshold, in however many topics it is, unless a join displaces it while a
    publisher still owes it an update. */
module RelaySlow {
  import opened Relay
  import opened RelayInvariant
  import opened RelaySteps
  import opened RelayRuns
  import opened RelayEffects
  import opened RelayRules
  import opened RelayLifecycle
  import opened RelayOnce
  import opened RelayNames

  /** Whom a publisher owes its update, the topic holds, as long as it is open. */
  ghost predicate OwedHeld(s: State, pc: Thread, q: nat) {
    q < |s.subs| && !s.subs[q].flag && Owes(pc, q) && Current(pc).Some? && Current(pc).value < |s.feed.updates| ==>
      HeldAt(s.hub.members, Key(s.feed.updates[Current(pc).value].symbol, s.subs[q].id), q)
  }

  /** An open subscriber over the threshold is about to be removed. */
  ghost predicate SlowLeaves(c: Config, s: State, q: nat)
    requires q < |s.subs|
  {
    !s.subs[q].flag && s.subs[q].dropped > c.slowThreshold ==> exists t ::
      0 <= t < |s.threads| && Removing(s, s.threads[t], q)
  }

  ghost predicate Tracked(c: Config, s: State) {
    && (forall t, q :: 0 <= t < |s.threads| && 0 <= q < |s.subs| ==> OwedHeld(s, s.threads[t], q))
    && (forall q :: 0 <= q < |s.subs| ==> SlowLeaves(c, s, q))
  }

  // ---------------------------------------------------------------- every step

  /** A key goes on holding a subscriber, or the subscriber is flagged. */
  lemma StillHeld(s: State, e: Event, s': State, k: Key, q: nat)
    requires Inv(s) && Effect(s, e, s') && !Acting(s, e).Insert? && HeldAt(s.hub.members, k, q) && q < |s.subs|
    ensures q < |s'.subs| && (s'.subs[q].flag || HeldAt(s'.hub.members, k, q))
  {
    hide Inv, FeedEffect, ThreadsEffect, JoinEffect, SnapEffect, Held;
    var pc := Acting(s, e);
    assert SubEffect(s, pc, q, s.subs[q], s'.subs[q]);
    if e.Run? && e.thread < |s.threads| {
      OfThread(s, e.thread);
    }
    hide FeedThreadOk, PublisherOk, StreamerOk, InRange;
  }

  lemma PendingNamed(pc: Thread, q: nat)
    requires Owes(pc, q)
    ensures q in Named(pc)
  {
  }

  /** A publisher that moves on owes what it owed before, or has copied the members just now. */
  lemma OwedBefore(s: State, pc: Thread, pc': Thread, q: nat)
    requires Inv(s) && GoesOn(s, pc, pc') && Owes(pc', q) && Current(pc').Some?
    ensures Current(pc) == Current(pc')
    ensures Owes(pc, q) || (pc.Copy? && pc.update < |s.feed.updates| && q < |s.subs|
                            && HeldAt(s.hub.members, Key(s.feed.updates[pc.update].symbol, s.subs[q].id), q))
  {
    hide Inv;
    if pc.Copy? {
      assert q in Named(pc');
      MemberKey(s, s.feed.updates[pc.update].symbol, q);
    } else {
      ShortensMembers(Pending(pc), Pending(pc'));
    }
  }

  /** A thread moves on, or stays where it is; symbols and identities never change. */
  lemma EffectParts(s: State, e: Event, s': State, t: nat, q: nat, u: nat)
    requires Effect(s, e, s')
    ensures t < |s.threads| ==>
              t < |s'.threads| &&
              (s'.threads[t] == s.threads[t] || (e.Run? && e.thread == t && GoesOn(s, s.threads[t], s'.threads[t])))
    ensures u < |s.feed.updates| ==> u < |s'.feed.updates| && s'.feed.updates[u].symbol == s.feed.updates[u].symbol
    ensures q < |s.subs| ==> q < |s'.subs| && s'.subs[q].id == s.subs[q].id && (s.subs[q].flag ==> s'.subs[q].flag)
    ensures q < |s.subs| ==>
              s'.subs[q].dropped == s.subs[q].dropped ||
              (Acting(s, e).Drop? && Head(Acting(s, e)) == Some(q))
  {
    hide MembersEffect, Held, JoinEffect, SnapEffect, GoesOn;
    if q < |s.subs| {
      assert SubEffect(s, Acting(s, e), q, s.subs[q], s'.subs[q]);
    }
  }

  lemma OwedHolds(s: State, e: Event, s': State, t: nat, q: nat)
    requires Inv(s) && Effect(s, e, s') && t < |s.threads| && q < |s.subs| && t < |s'.threads|
    requires OwedHeld(s, s.threads[t], q) && !s.subs[q].flag && Owes(s'.threads[t], q) && Current(s'.threads[t]).Some?
    ensures Current(s.threads[t]) == Current(s'.threads[t]) && Current(s.threads[t]).value < |s.feed.updates|
    ensures HeldAt(s.hub.members, Key(s.feed.updates[Current(s.threads[t]).value].symbol, s.subs[q].id), q)
  {
    hide Inv, Effect, GoesOn, Pending, Head, HeldAt;
    EffectParts(s, e, s', t, q, 0);
    CurrentInRange(s, t);
    if s'.threads[t] != s.threads[t] {
      OwedBefore(s, s.threads[t], s'.threads[t], q);
    }
  }

  lemma OwedAfter(s: State, e: Event, s': State, t: nat, q: nat)
    requires Inv(s) && Effect(s, e, s') && !Acting(s, e).Insert? && t < |s'.threads| && q < |s'.subs|
    requires t < |s.threads| && q < |s.subs| ==> OwedHeld(s, s.threads[t], q)
    ensures OwedHeld(s', s'.threads[t], q)
  {
    hide Inv, Effect, OwedHeld, Pending, Head, Allows;
    var pc' := s'.threads[t];
    if Owes(pc', q) && !s'.subs[q].flag && Current(pc').Some? {
      if t >= |s.threads| {
        NewOwesNobody(s, e, s', t, q);
      } else if q >= |s.subs| {
        PendingNamed(pc', q);
        NamedExists(s, e, s', t, q);
      } else {
        EffectParts(s, e, s', t, q, Current(pc').value);
        OwedHolds(s, e, s', t, q);
        StillHeld(s, e, s', Key(s.feed.updates[Current(pc').value].symbol, s.subs[q].id), q);
      }
    }
    OwedByParts(s', pc', q);
  }

  lemma OwedByParts(s: State, pc: Thread, q: nat)
    requires q < |s.subs| && !s.subs[q].flag && Owes(pc, q) && Current(pc).Some? &&
               Current(pc).value < |s.feed.updates| ==>
               HeldAt(s.hub.members, Key(s.feed.updates[Current(pc).value].symbol, s.subs[q].id), q)
    ensures OwedHeld(s, pc, q)
  {
  }

  lemma NewOwesNobody(s: State, e: Event, s': State, t: nat, q: nat)
    requires Effect(s, e, s') && |s.threads| <= t < |s'.threads|
    ensures !Owes(s'.threads[t], q) && !(s'.threads[t].Tally? || s'.threads[t].Check?)
  {
    hide SubsEffect, MembersEffect, FeedEffect;
  }

  lemma RemovingStays(s: State, e: Event, s': State, t: nat, q: nat)
    requires Inv(s) && Effect(s, e, s') && !Acting(s, e).Insert? && t < |s.threads| && !(e.Run? && e.thread == t)
    requires q < |s.subs| && Removing(s, s.threads[t], q)
    ensures t < |s'.threads| && q < |s'.subs| && (s'.subs[q].flag || Removing(s', s'.threads[t], q))
  {
    hide Inv, Effect, Head, Allows, HeldAt;
    EffectParts(s, e, s', t, q, if s.threads[t].Tally? || s.threads[t].Check? then s.threads[t].update else 0);
    StillHeld(s, e, s', RemovalKey(s, s.threads[t], q).value, q);
  }

  /** A publisher on its way to remove a subscriber over the threshold does so, or is still on its way. */
  lemma RemovingMoves(c: Config, s: State, e: Event, q: nat)
    requires e.Run? && e.thread < |s.threads| && q < |s.subs| && Removing(s, s.threads[e.thread], q)
    requires s.subs[q].dropped > c.slowThreshold && Inv(s) && WellFormed(s) && Enabled(s, e)
    ensures var s' := Step(c, s, e);
            e.thread < |s'.threads| && q < |s'.subs| && (s'.subs[q].flag || Removing(s', s'.threads[e.thread], q))
  {
    hide *;
    var t, pc := e.thread, s.threads[e.thread];
    OfRemoval(s, pc, q);
    RemovalInRange(s, t, q);
    RemovalStep(c, s, e);
    if pc.Check? {
      CheckMoves(c, s, t, q);
    } else if pc.Tally? {
      TallyMoves(s, t, q);
    } else if pc.Leave? {
      LeaveMoves(s, t, q);
    } else {
      MarkMoves(s, t, q);
    }
  }

  lemma OfRemoval(s: State, pc: Thread, q: nat)
    requires Inv(s) && q < |s.subs| && Removing(s, pc, q)
    ensures pc.Tally? || pc.Check? || pc.Leave? || pc.Mark?
    ensures RemovalKey(s, pc, q).Some? && (pc.Leave? ==> pc.key.symbol in s.hub.topics)
  {
    OfMember(s, RemovalKey(s, pc, q).value);
  }

  lemma RemovalInRange(s: State, t: nat, q: nat)
    requires Inv(s) && t < |s.threads| && q < |s.subs| && Removing(s, s.threads[t], q)
    ensures var pc := s.threads[t]; (pc.Check? || pc.Tally?) ==>
              pc.update < |s.feed.updates| && pc.rest != [] && pc.rest[0] == q
  {
    hide Inv;
    OfThread(s, t);
    hide FeedThreadOk, PublisherOk, CloserOk, StreamerOk;
  }

  lemma CheckMoves(c: Config, s: State, t: nat, q: nat)
    requires t < |s.threads| && s.threads[t].Check? && q < |s.subs| && Removing(s, s.threads[t], q)
    requires s.threads[t].update < |s.feed.updates| && s.threads[t].rest != [] && s.threads[t].rest[0] == q
    requires s.subs[q].dropped > c.slowThreshold
    ensures var s' := DoCheck(c, s, t, s.threads[t].update, s.threads[t].rest);
            t < |s'.threads| && q < |s'.subs| && Removing(s', s'.threads[t], q)
  {
  }

  lemma TallyMoves(s: State, t: nat, q: nat)
    requires t < |s.threads| && s.threads[t].Tally? && q < |s.subs| && Removing(s, s.threads[t], q)
    ensures var s' := DoTally(s, t, s.threads[t].update, s.threads[t].rest);
            t < |s'.threads| && q < |s'.subs| && Removing(s', s'.threads[t], q)
  {
  }

  lemma LeaveMoves(s: State, t: nat, q: nat)
    requires t < |s.threads| && s.threads[t].Leave? && q < |s.subs| && Removing(s, s.threads[t], q)
    requires s.threads[t].key.symbol in s.hub.topics
    ensures var s' := DoLeave(s, t, s.threads[t].key, s.threads[t].next);
            t < |s'.threads| && q < |s'.subs| && Removing(s', s'.threads[t], q)
  {
  }

  lemma MarkMoves(s: State, t: nat, q: nat)
    requires t < |s.threads| && s.threads[t].Mark? && q < |s.subs| && Removing(s, s.threads[t], q)
    ensures var s' := DoMark(s, t, s.threads[t].key, s.threads[t].next);
            t < |s'.threads| && q < |s'.subs| && s'.subs[q].flag
  {
  }

  /** The publisher that counts a drop on an open subscriber is on its way to check and to remove it. */
  lemma DropRemoves(c: Config, s: State, e: Event, q: nat)
    requires e.Run? && e.thread < |s.threads| && s.threads[e.thread].Drop?
    requires Inv(s) && WellFormed(s) && Enabled(s, e)
    requires q < |s.subs| && !s.subs[q].flag && Head(s.threads[e.thread]) == Some(q)
    requires OwedHeld(s, s.threads[e.thread], q)
    ensures var s' := Step(c, s, e); e.thread < |s'.threads| && q < |s'.subs| && Removing(s', s'.threads[e.thread], q)
  {
    hide Inv, WellFormed, Enabled, Step;
    RemovalStep(c, s, e);
    hide Pending;
  }

  /** A subscriber that is only now created has dropped nothing. */
  lemma NewHasDroppedNothing(s: State, e: Event, s': State, q: nat)
    requires Effect(s, e, s') && |s.subs| <= q < |s'.subs|
    ensures s'.subs[q].dropped == 0
  {
    hide SubEffect, MembersEffect, ThreadsEffect, FeedEffect;
  }

  lemma SlowLeavesAfter(c: Config, s: State, e: Event, q: nat)
    requires Inv(s) && WellFormed(s) && Enabled(s, e) && Tracked(c, s) && !Acting(s, e).Insert?
    requires Step(c, s, e).status == s.status && q < |Step(c, s, e).subs|
    ensures SlowLeaves(c, Step(c, s, e), q)
  {
    hide Inv, WellFormed, Enabled, Step, Effect, Allows, Removing, OwedHeld, Head;
    var s' := Step(c, s, e);
    StepEffects(c, s, e);
    if !s'.subs[q].flag && s'.subs[q].dropped > c.slowThreshold {
      if q >= |s.subs| {
        NewHasDroppedNothing(s, e, s', q);
      } else {
        EffectParts(s, e, s', 0, q, 0);
        if s'.subs[q].dropped != s.subs[q].dropped {
          ActsAsThread(s, e);
          assert OwedHeld(s, s.threads[e.thread], q);
          DropRemoves(c, s, e, q);
        } else {
          assert SlowLeaves(c, s, q);
          var t :| 0 <= t < |s.threads| && Removing(s, s.threads[t], q);
          if e.Run? && e.thread == t {
            RemovingMoves(c, s, e, q);
          } else {
            RemovingStays(s, e, s', t, q);
          }
        }
      }
    }
  }

  lemma ActsAsThread(s: State, e: Event)
    requires Acting(s, e) != Done
    ensures e.Run? && e.thread < |s.threads| && Acting(s, e) == s.threads[e.thread]
  {
  }

  lemma TrackedAfter(c: Config, s: State, e: Event)
    requires Inv(s) && WellFormed(s) && Enabled(s, e) && Tracked(c, s) && !Acting(s, e).Insert?
    requires Step(c, s, e).status == s.status
    ensures Tracked(c, Step(c, s, e))
  {
    hide Inv, WellFormed, Enabled, Step, Effect, Allows, OwedHeld, SlowLeaves;
    var s' := Step(c, s, e);
    StepEffects(c, s, e);
    forall t, q | 0 <= t < |s'.threads| && 0 <= q < |s'.subs|
      ensures OwedHeld(s', s'.threads[t], q)
    {
      OwedAfter(s, e, s', t, q);
    }
    forall q | 0 <= q < |s'.subs|
      ensures SlowLeaves(c, s', q)
    {
      SlowLeavesAfter(c, s, e, q);
    }
  }

  // ---------------------------------------------------------------- which joins keep it so

  /** The state after the insertion of `p`, as far as tracking goes. */
  ghost predicate Took(s: State, t: nat, symbol: string, p: nat, s': State) {
    && t < |s.threads| && s.threads[t].Insert? && p < |s.subs|
    && s'.threads == s.threads[t := Enroll(symbol, p)] && s'.feed == s.feed
    && s'.hub.members == s.hub.members[Key(symbol, s.subs[p].id) := p]
    && |s'.subs| == |s.subs|
    && forall q :: 0 <= q < |s.subs| ==>
         s'.subs[q].id == s.subs[q].id && s'.subs[q].flag == s.subs[q].flag &&
         s'.subs[q].dropped == s.subs[q].dropped
  }

  /** Who is not displaced stays where it is held. */
  lemma TakenHeld(s: State, t: nat, symbol: string, p: nat, s': State, k: Key, q: nat)
    requires Took(s, t, symbol, p, s') && q < |s.subs|
    ensures HeldAt(s.hub.members, k, q) && (k != Key(symbol, s.subs[p].id) || Displaced(s, symbol, p) != Some(q)) ==>
              HeldAt(s'.hub.members, k, q)
    ensures HeldAt(s'.hub.members, k, q) ==> HeldAt(s.hub.members, k, q) || (k == Key(symbol, s.subs[p].id) && q == p)
    ensures HeldAt(s'.hub.members, k, q) && Displaced(s, symbol, p) == Some(q) ==>
              k != Key(symbol, s.subs[p].id) && HeldAt(s.hub.members, k, q)
  {
  }

  lemma TakenOwed(c: Config, s: State, t: nat, symbol: string, p: nat, s': State, i: nat, q: nat)
    requires Took(s, t, symbol, p, s') && MayTake(c, s, symbol, p) && i < |s.threads| && q < |s.subs|
    requires OwedHeld(s, s.threads[i], q)
    ensures OwedHeld(s', s'.threads[i], q)
  {
    hide HeldAt, Pending, Head;
    if i != t && Current(s.threads[i]).Some? && Current(s.threads[i]).value < |s.feed.updates| {
      TakenHeld(s, t, symbol, p, s', Key(s.feed.updates[Current(s.threads[i]).value].symbol, s.subs[q].id), q);
    } else if i == t {
      assert !Owes(s'.threads[t], q) by { OnlyPublishersOwe(s'.threads[t], q); }
    }
  }

  lemma OnlyPublishersOwe(pc: Thread, q: nat)
    ensures pc.Enroll? || pc.Insert? ==> !Owes(pc, q)
  {
  }

  lemma TakenRemoving(s: State, t: nat, symbol: string, p: nat, s': State, i: nat, q: nat)
    requires Took(s, t, symbol, p, s') && i < |s.threads| && q < |s.subs|
    ensures Removing(s, s.threads[i], q) && Displaced(s, symbol, p) != Some(q) ==> Removing(s', s'.threads[i], q)
    ensures Displaced(s, symbol, p) == Some(q) ==>
              (Removing(s', s'.threads[i], q) <==> RemovingElsewhere(s, s.threads[i], q, Key(symbol, s.subs[p].id)))
  {
    if RemovalKey(s, s.threads[i], q).Some? {
      TakenHeld(s, t, symbol, p, s', RemovalKey(s, s.threads[i], q).value, q);
    }
  }

  lemma TakenLeaves(c: Config, s: State, t: nat, symbol: string, p: nat, s': State, q: nat)
    requires Took(s, t, symbol, p, s') && MayTake(c, s, symbol, p) && q < |s.subs| && SlowLeaves(c, s, q)
    ensures SlowLeaves(c, s', q)
  {
    hide Removing, RemovingElsewhere, Owes;
    if !s.subs[q].flag && s.subs[q].dropped > c.slowThreshold {
      if Displaced(s, symbol, p) == Some(q) {
        var i :| 0 <= i < |s.threads| && RemovingElsewhere(s, s.threads[i], q, Key(symbol, s.subs[p].id));
        TakenRemoving(s, t, symbol, p, s', i, q);
      } else {
        var i :| 0 <= i < |s.threads| && Removing(s, s.threads[i], q);
        TakenRemoving(s, t, symbol, p, s', i, q);
      }
    }
  }

  lemma TakenKeeps(c: Config, s: State, t: nat, symbol: string, p: nat, s': State)
    requires Took(s, t, symbol, p, s') && MayTake(c, s, symbol, p) && Tracked(c, s)
    ensures Tracked(c, s')
  {
    hide OwedHeld, SlowLeaves, MayTake;
    forall i, q | 0 <= i < |s'.threads| && 0 <= q < |s'.subs|
      ensures OwedHeld(s', s'.threads[i], q)
    {
      TakenOwed(c, s, t, symbol, p, s', i, q);
    }
    forall q | 0 <= q < |s'.subs|
      ensures SlowLeaves(c, s', q)
    {
      TakenLeaves(c, s, t, symbol, p, s', q);
    }
  }

  lemma TakenBreaks(c: Config, s: State, t: nat, symbol: string, p: nat, s': State)
    requires Inv(s) && Took(s, t, symbol, p, s') && !MayTake(c, s, symbol, p)
    ensures !Tracked(c, s')
  {
    hide Inv, Removing, RemovingElsewhere, Pending, Head;
    var r, key := Displaced(s, symbol, p).value, Key(symbol, s.subs[p].id);
    OfMember(s, key);
    if i :| 0 <= i < |s.threads| && Publishing(s, i, symbol) && Owes(s.threads[i], r) {
      OnlyPublishersOwe(s.threads[i], r);
      assert !OwedHeld(s', s'.threads[i], r);
    } else {
      forall i | 0 <= i < |s'.threads|
        ensures !Removing(s', s'.threads[i], r)
      {
        TakenRemoving(s, t, symbol, p, s', i, r);
      }
      assert !SlowLeaves(c, s', r);
    }
  }

  lemma InsertTakes(c: Config, s: State, e: Event)
    requires Inv(s) && WellFormed(s) && Enabled(s, e) && e.Run? && Acting(s, e).Insert?
    ensures Took(s, e.thread, Acting(s, e).symbol, Acting(s, e).sub, Step(c, s, e))
  {
    hide Inv;
    OfThread(s, e.thread);
    hide FeedThreadOk, PublisherOk, CloserOk, StreamerOk;
    assert Step(c, s, e) == DoInsert(s, e.thread, Acting(s, e).symbol, Acting(s, e).sub);
    hide Step, Enabled, WellFormed;
  }

  /** Exactly which joins keep every open subscriber tracked. */
  lemma JoinKeepsTrackedIff(c: Config, s: State, e: Event)
    requires Inv(s) && WellFormed(s) && Enabled(s, e) && Tracked(c, s) && e.Run? && Acting(s, e).Insert?
    ensures Acting(s, e).sub < |s.subs|
    ensures Tracked(c, Step(c, s, e)) <==> MayTake(c, s, Acting(s, e).symbol, Acting(s, e).sub)
  {
    hide *;
    InsertTakes(c, s, e);
    assert Acting(s, e).sub < |s.subs| by { TookInRange(s, e.thread, Acting(s, e).symbol, Acting(s, e).sub,
                                                        Step(c, s, e)); }
    if MayTake(c, s, Acting(s, e).symbol, Acting(s, e).sub) {
      TakenKeeps(c, s, e.thread, Acting(s, e).symbol, Acting(s, e).sub, Step(c, s, e));
    } else {
      TakenBreaks(c, s, e.thread, Acting(s, e).symbol, Acting(s, e).sub, Step(c, s, e));
    }
  }

  lemma TookInRange(s: State, t: nat, symbol: string, p: nat, s': State)
    requires Took(s, t, symbol, p, s')
    ensures p < |s.subs|
  {
  }

  // ---------------------------------------------------------------- every run

  /** A step that is no join, or an allowed one, keeps every open subscriber tracked. */
  lemma TrackedStep(c: Config, s: State, e: Event)
    requires Inv(s) && WellFormed(s) && Enabled(s, e) && Tracked(c, s) && Allows(TakesUnowed(c), s, e)
    ensures Tracked(c, Step(c, s, e))
  {
    hide *;
    var s' := Step(c, s, e);
    if Acting(s, e).Insert? {
      InsertActs(s, e);
      JoinKeepsTrackedIff(c, s, e);
      AllowsTake(c, s, e);
    } else if s'.status == s.status {
      TrackedAfter(c, s, e);
    } else {
      CallsDoNotPanic(c, s, e);
      PanicKeepsState(c, s, e.thread, e.order, e.ok);
      TrackedIgnoresStatus(c, s, s');
    }
  }

  lemma InsertActs(s: State, e: Event)
    requires Acting(s, e).Insert?
    ensures e.Run? && e.thread < |s.threads|
  {
  }

  lemma AllowsTake(c: Config, s: State, e: Event)
    requires Allows(TakesUnowed(c), s, e) && Acting(s, e).Insert? && Acting(s, e).sub < |s.subs|
    ensures MayTake(c, s, Acting(s, e).symbol, Acting(s, e).sub)
  {
    hide MayTake;
  }

  lemma TrackedIgnoresStatus(c: Config, s: State, s': State)
    requires Tracked(c, s) && s' == s.(status := s'.status)
    ensures Tracked(c, s')
  {
    forall t, q | 0 <= t < |s'.threads| && 0 <= q < |s'.subs|
      ensures OwedHeld(s', s'.threads[t], q)
    {
      assert OwedHeld(s, s.threads[t], q);
    }
    forall q | 0 <= q < |s'.subs|
      ensures SlowLeaves(c, s', q)
    {
      assert SlowLeaves(c, s, q);
      if !s.subs[q].flag && s.subs[q].dropped > c.slowThreshold {
        var t :| 0 <= t < |s.threads| && Removing(s, s.threads[t], q);
        assert Removing(s', s'.threads[t], q);
      }
    }
  }

  lemma {:induction false} TrackedRun(c: Config, s: State, es: seq<Event>)
    requires Inv(s) && Tracked(c, s) && Obeys(c, TakesUnowed(c), s, es) && Exec(c, s, es).Some?
    ensures Tracked(c, Exec(c, s, es).value)
    decreases |es|
  {
    hide Inv, Tracked, WellFormed, Enabled, Step, Allows;
    if es != [] {
      StepKeepsInv(c, s, es[0]);
      TrackedStep(c, s, es[0]);
      TrackedRun(c, Step(c, s, es[0]), es[1..]);
    }
  }

  // ---------------------------------------------------------------- within the threshold

  /** No publish is under way. */
  ghost predicate NonePublishing(s: State) { forall t :: 0 <= t < |s.threads| ==> Current(s.threads[t]).None? }

  /** Every subscriber has dropped at most the threshold, or is being removed. */
  ghost predicate WithinThreshold(c: Config, s: State) {
    forall q :: 0 <= q < |s.subs| ==> s.subs[q].flag || s.subs[q].dropped <= c.slowThreshold
  }

  lemma TrackedAtRest(c: Config, s: State)
    requires Tracked(c, s) && NonePublishing(s)
    ensures WithinThreshold(c, s)
  {
    forall q | 0 <= q < |s.subs|
      ensures s.subs[q].flag || s.subs[q].dropped <= c.slowThreshold
    {
      assert SlowLeaves(c, s, q);
      forall t | 0 <= t < |s.threads|
        ensures !Removing(s, s.threads[t], q)
      {
        assert Current(s.threads[t]).None?;
      }
    }
  }

  /** In every run whose joins displace no open subscriber that a publisher still owes an update: when no publish
      is under way, every subscriber, in however many topics it is, has dropped at most the threshold or is being
      removed. */
  lemma NoneSlow(c: Config, es: seq<Event>, s: State)
    requires Reaches(c, es, s) && Obeys(c, TakesUnowed(c), Init, es) && NonePublishing(s)
    ensures WithinThreshold(c, s)
  {
    InitInv();
    assert Tracked(c, Init);
    hide *;
    ReachesExec(c, es, s);
    TrackedRun(c, Init, es);
    TrackedAtRest(c, s);
  }

  ghost predicate DistinctIds(s: State) { forall p, q :: 0 <= p < q < |s.subs| ==> s.subs[p].id != s.subs[q].id }

  lemma DistinctBefore(c: Config, s: State, e: Event)
    requires Inv(s) && WellFormed(s) && Enabled(s, e) && DistinctIds(Step(c, s, e))
    ensures DistinctIds(s)
  {
    hide Inv, WellFormed, Enabled, Step, Effect;
    var s' := Step(c, s, e);
    if s'.status == s.status {
      StepEffects(c, s, e);
      forall p, q | 0 <= p < q < |s.subs|
        ensures s.subs[p].id != s.subs[q].id
      {
        EffectParts(s, e, s', 0, p, 0);
        EffectParts(s, e, s', 0, q, 0);
      }
    } else {
      CallsDoNotPanic(c, s, e);
      PanicKeepsState(c, s, e.thread, e.order, e.ok);
    }
  }

  lemma {:induction false} DistinctEarlier(c: Config, s: State, es: seq<Event>)
    requires Inv(s) && Exec(c, s, es).Some? && DistinctIds(Exec(c, s, es).value)
    ensures DistinctIds(s) && Obeys(c, TakesUnowed(c), s, es)
    decreases |es|
  {
    hide Inv, WellFormed, Enabled, Step, DistinctIds, Allows;
    if es != [] {
      StepKeepsInv(c, s, es[0]);
      DistinctEarlier(c, Step(c, s, es[0]), es[1..]);
      DistinctBefore(c, s, es[0]);
      DistinctDisplacesNobody(c, s, es[0]);
    }
  }

  lemma DistinctDisplacesNobody(c: Config, s: State, e: Event)
    requires Inv(s) && DistinctIds(s)
    ensures Allows(TakesUnowed(c), s, e)
  {
    hide Inv;
    var pc := Acting(s, e);
    if pc.Insert? && pc.sub < |s.subs| {
      var key := Key(pc.symbol, s.subs[pc.sub].id);
      if key in s.hub.members {
        OfMember(s, key);
      }
    }
  }

  /** In every run of a relay whose subscribers carry different ids: when no publish is under way, every subscriber
      has dropped at most the threshold or is being removed. */
  lemma DistinctNoneSlow(c: Config, es: seq<Event>, s: State)
    requires Reaches(c, es, s) && DistinctIds(s) && NonePublishing(s)
    ensures WithinThreshold(c, s)
  {
    InitInv();
    hide *;
    ReachesExec(c, es, s);
    DistinctEarlier(c, Init, es);
    NoneSlow(c, es, s);
  }
}
