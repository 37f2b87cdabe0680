/** When a subscriber's channel is closed twice, and when it is sent to after closing. */
module RelayLifecycle {
  import opened Relay
  import opened RelayInvariant
  import opened RelaySteps
  import opened RelayRuns
  import opened RelayEffects
  import opened RelayRules

  // ---------------------------------------------------------------- closing twice

  /** No subscriber is held under two keys, and none is held with a closed channel. */
  ghost predicate Safe(s: State) { HeldOnce(s.hub.members) && HeldOpen(s.hub.members, s.subs) }

  ghost predicate HeldOnce(members: map<Key, nat>) {
    forall k, l :: k in members && l in members && members[k] == members[l] ==> k == l
  }

  ghost predicate HeldOpen(members: map<Key, nat>, subs: seq<Sub>) {
    forall k :: k in members && members[k] < |subs| ==> !subs[members[k]].closed
  }

  lemma HeldOnceAfter(s: State, pc: Thread, members: map<Key, nat>)
    requires HeldOnce(s.hub.members) && MembersEffect(s, pc, members)
    requires pc.Insert? ==> MayJoin(s, pc.symbol, pc.sub)
    ensures HeldOnce(members)
  {
  }

  lemma HeldOpenAfter(s: State, e: Event, s': State, k: Key)
    requires Inv(s) && Safe(s) && SubsEffect(s, Acting(s, e), s'.subs) && MembersEffect(s, Acting(s, e), s'.hub.members)
    requires Acting(s, e).Insert? ==> MayJoin(s, Acting(s, e).symbol, Acting(s, e).sub)
    requires k in s'.hub.members && s'.hub.members[k] < |s'.subs|
    ensures !s'.subs[s'.hub.members[k]].closed
  {
    hide Inv, JoinEffect, SnapEffect, Held;
    var pc, r := Acting(s, e), s'.hub.members[k];
    if e.Run? && e.thread < |s.threads| {
      OfThread(s, e.thread);
    }
    hide FeedThreadOk, PublisherOk, StreamerOk, InRange;
    if k in s.hub.members {
      OfMember(s, k);
    }
    assert SubEffect(s, pc, r, s.subs[r], s'.subs[r]);
  }

  lemma SafeAfterEffect(s: State, e: Event, s': State)
    requires Inv(s) && Safe(s) && SubsEffect(s, Acting(s, e), s'.subs) && MembersEffect(s, Acting(s, e), s'.hub.members)
    requires Acting(s, e).Insert? ==> MayJoin(s, Acting(s, e).symbol, Acting(s, e).sub)
    ensures Safe(s')
  {
    HeldOnceAfter(s, Acting(s, e), s'.hub.members);
    hide Inv, HeldOnce, MayJoin, SubsEffect, MembersEffect;
    forall k | k in s'.hub.members && s'.hub.members[k] < |s'.subs|
      ensures !s'.subs[s'.hub.members[k]].closed
    {
      HeldOpenAfter(s, e, s', k);
    }
  }

  /** A step that does not join keeps the relay safe, and so does an allowed join; no channel is closed twice. */
  lemma SafeStep(c: Config, s: State, e: Event)
    requires Inv(s) && WellFormed(s) && Enabled(s, e) && Safe(s) && Allows(JoinsOpen, s, e)
    ensures !Step(c, s, e).status.ClosedTwice? && Safe(Step(c, s, e))
  {
    hide Inv, Safe;
    var s' := Step(c, s, e);
    if s'.status == s.status {
      StepEffects(c, s, e);
      hide WellFormed, Enabled, Step;
      SafeAfterEffect(s, e, s');
    } else {
      OfThread(s, e.thread);
      PanicKeepsState(c, s, e.thread, e.order, e.ok);
      PanicStep(c, s, e);
    }
  }

  lemma PanicStep(c: Config, s: State, e: Event)
    requires Inv(s) && WellFormed(s) && Enabled(s, e) && Safe(s) && e.Run? && Step(c, s, e).status != s.status
    ensures Step(c, s, e).status.SentOnClosed? && Safe(s.(status := Step(c, s, e).status))
  {
    PanicIs(c, s, e);
    var pc := s.threads[e.thread];
    OfThread(s, e.thread);
    hide Inv, WellFormed, Enabled, Step;
    if pc.Close? {
      assert CloserOk(s.hub.members, s.subs, pc);
    }
    hide ThreadOk;
  }

  /** A panic is a send on a closed channel, or the close of a closed one. */
  lemma PanicIs(c: Config, s: State, e: Event)
    requires WellFormed(s) && Enabled(s, e) && e.Run? && Step(c, s, e).status != s.status
    ensures e.thread < |s.threads|
    ensures var pc := s.threads[e.thread];
            Step(c, s, e).status.SentOnClosed? || (pc.Close? && pc.sub < |s.subs| && s.subs[pc.sub].closed)
  {
    RunIs(c, s, e);
    assert InRange(|s.feed.updates|, |s.subs|, s.threads[e.thread]);
    hide WellFormed, Enabled, Step, Runnable;
  }

  /** For a safe relay the join rule is exact: the join keeps it safe if and only if the subscriber is open and
      held under no other key. */
  lemma SafeIffMayJoin(c: Config, s: State, e: Event)
    requires Inv(s) && WellFormed(s) && Enabled(s, e) && Safe(s) && Acting(s, e).Insert?
    ensures Safe(Step(c, s, e)) <==> MayJoin(s, Acting(s, e).symbol, Acting(s, e).sub)
  {
    hide Inv;
    OfThread(s, e.thread);
    var pc, s', key := Acting(s, e), Step(c, s, e), Key(Acting(s, e).symbol, s.subs[Acting(s, e).sub].id);
    if MayJoin(s, pc.symbol, pc.sub) {
      hide Step;
      SafeStep(c, s, e);
    } else {
      hide FeedThreadOk, PublisherOk, StreamerOk;
      assert s'.hub.members == s.hub.members[key := pc.sub] && s'.subs[pc.sub].closed == s.subs[pc.sub].closed;
      hide Step, WellFormed;
      if !s.subs[pc.sub].closed {
        var k :| k in s.hub.members && s.hub.members[k] == pc.sub && k != key;
        assert k in s'.hub.members && key in s'.hub.members;
      } else {
        assert s'.hub.members[key] == pc.sub;
      }
    }
  }

  /** In a run whose joins are allowed no channel is closed twice. */
  lemma {:induction false} SafeRun(c: Config, s: State, es: seq<Event>)
    requires Inv(s) && Safe(s) && !s.status.ClosedTwice? && Obeys(c, JoinsOpen, s, es) && Exec(c, s, es).Some?
    ensures Safe(Exec(c, s, es).value) && !Exec(c, s, es).value.status.ClosedTwice?
    decreases |es|
  {
    hide Inv, Safe, Step, WellFormed, Enabled, Allows;
    if es != [] {
      StepKeepsInv(c, s, es[0]);
      SafeStep(c, s, es[0]);
      SafeRun(c, Step(c, s, es[0]), es[1..]);
    }
  }

  lemma NeverClosedTwice(c: Config, es: seq<Event>, s: State)
    requires Reaches(c, es, s) && Obeys(c, JoinsOpen, Init, es)
    ensures !s.status.ClosedTwice?
  {
    InitInv();
    hide Inv;
    SafeRun(c, Init, es);
  }

  // ---------------------------------------------------------------- an unsafe relay does close twice

  ghost predicate NoLocks(s: State) { forall t :: 0 <= t < |s.threads| ==> !s.threads[t].Close? }

  /** The events of one call of Unsubscribe that runs alone. */
  function Removal(key: Key, t: nat): seq<Event> {
    [Unsubscribe(key), Run(t, [], true), Run(t, [], true), Run(t, [], true)]
  }

  lemma ExecFour(c: Config, s0: State, s1: State, s2: State, s3: State, es: seq<Event>)
    requires |es| == 4
    requires WellFormed(s0) && Enabled(s0, es[0]) && s1 == Step(c, s0, es[0])
    requires WellFormed(s1) && Enabled(s1, es[1]) && s2 == Step(c, s1, es[1])
    requires WellFormed(s2) && Enabled(s2, es[2]) && s3 == Step(c, s2, es[2])
    requires WellFormed(s3) && Enabled(s3, es[3])
    ensures Exec(c, s0, es) == Some(Step(c, s3, es[3]))
  {
    hide WellFormed, Enabled, Step;
    assert Exec(c, s3, es[3..]) == Exec(c, Step(c, s3, es[3]), es[3..][1..]);
    assert es[3..][1..] == [];
    assert es[2..][1..] == es[3..] && es[1..][1..] == es[2..];
    assert Exec(c, s2, es[2..]) == Exec(c, s3, es[3..]);
    assert Exec(c, s1, es[1..]) == Exec(c, s2, es[2..]);
  }

  lemma InvStep(c: Config, s: State, e: Event)
    requires Inv(s) && Enabled(s, e)
    ensures WellFormed(s) && Inv(Step(c, s, e)) && WellFormed(Step(c, s, e))
  {
    hide Inv, Enabled, Step;
    InvImpliesWellFormed(s);
    StepKeepsInv(c, s, e);
    InvImpliesWellFormed(Step(c, s, e));
  }

  function With(s: State, pc: Thread): State { s.(threads := s.threads + [pc]) }

  function Flagged(s: State, r: nat): State
    requires r < |s.subs|
  {
    s.(subs := s.subs[r := s.subs[r].(flag := true)])
  }

  lemma CallStep(c: Config, s: State, key: Key)
    requires Inv(s) && s.status.Running?
    ensures WellFormed(s) && Enabled(s, Unsubscribe(key)) && Step(c, s, Unsubscribe(key)) == With(s, Leave(key, End))
    ensures Inv(With(s, Leave(key, End)))
  {
    hide Inv, WellFormed;
    InvImpliesWellFormed(s);
    InvStep(c, s, Unsubscribe(key));
  }

  lemma LeaveStep(c: Config, s: State, key: Key)
    requires Inv(With(s, Leave(key, End))) && s.status.Running? && key.symbol in s.hub.topics
    ensures var s1, e := With(s, Leave(key, End)), Run(|s.threads|, [], true);
            WellFormed(s1) && Enabled(s1, e) && Step(c, s1, e) == With(s, Mark(key, End)) &&
              Inv(With(s, Mark(key, End)))
  {
    hide Inv, WellFormed;
    InvImpliesWellFormed(With(s, Leave(key, End)));
    InvStep(c, With(s, Leave(key, End)), Run(|s.threads|, [], true));
  }

  lemma MarkStep(c: Config, s: State, key: Key, r: nat)
    requires Inv(With(s, Mark(key, End))) && s.status.Running? && NoLocks(s)
    requires key in s.hub.members && s.hub.members[key] == r && r < |s.subs|
    ensures var s1, e, s2 := With(s, Mark(key, End)), Run(|s.threads|, [], true),
              With(Flagged(s, r), Close(key, r, End));
            WellFormed(s1) && Enabled(s1, e) && Step(c, s1, e) == s2 && Inv(s2)
  {
    hide Inv, WellFormed;
    var s1 := With(s, Mark(key, End));
    InvImpliesWellFormed(s1);
    assert Unlocked(s1.threads, key.symbol);
    InvStep(c, s1, Run(|s.threads|, [], true));
    assert Step(c, s1, Run(|s.threads|, [], true)) == DoMark(s1, |s.threads|, key, End);
    hide Step, Enabled;
    assert s1.threads[|s.threads| := Close(key, r, End)] == s.threads + [Close(key, r, End)];
  }

  lemma CloseStep(c: Config, s: State, t: nat, key: Key, r: nat)
    requires Inv(s) && s.status.Running? && t < |s.threads| && s.threads[t] == Close(key, r, End) && r < |s.subs|
    ensures WellFormed(s) && Enabled(s, Run(t, [], true)) && Step(c, s, Run(t, [], true)) == DoClose(s, t, key, r, End)
  {
    hide Inv, WellFormed, DoClose;
    InvImpliesWellFormed(s);
  }

  /** What one Unsubscribe that runs alone does: it panics when the channel is closed already, and else closes it. */
  ghost predicate Removed(s: State, key: Key, r: nat, s': State)
    requires r < |s.subs|
  {
    && |s'.subs| == |s.subs| && |s'.threads| == |s.threads| + 1
    && if s.subs[r].closed then s'.status.ClosedTwice?
       else && s'.status.Running? && s'.subs[r].closed && NoLocks(s') && s'.hub.members == s.hub.members - {key}
            && s'.threads == s.threads + [Done]
  }

  lemma CloseRemoves(s: State, key: Key, r: nat)
    requires r < |s.subs| && NoLocks(s) && s.status.Running?
    ensures Removed(s, key, r, DoClose(With(Flagged(s, r), Close(key, r, End)), |s.threads|, key, r, End))
  {
  }

  lemma RemovalEvents(key: Key, t: nat)
    ensures var es, e := Removal(key, t), Run(t, [], true);
            |es| == 4 && es[0] == Unsubscribe(key) && es[1] == e && es[2] == e && es[3] == e
  {
  }

  lemma AboutToClose(s: State, key: Key, r: nat)
    requires r < |s.subs| && s.status.Running?
    ensures var s3 := With(Flagged(s, r), Close(key, r, End));
            && s3.status.Running? && |s.threads| < |s3.threads| && s3.threads[|s.threads|] == Close(key, r, End)
            && r < |s3.subs|
  {
  }

  lemma RemovalRuns(c: Config, s: State, key: Key, r: nat)
    requires Inv(s) && s.status.Running? && NoLocks(s) && key in s.hub.members && s.hub.members[key] == r
    requires r < |s.subs|
    ensures Exec(c, s, Removal(key, |s.threads|)).Some?
    ensures Removed(s, key, r, Exec(c, s, Removal(key, |s.threads|)).value)
  {
    hide *;
    OfMember(s, key);
    CallStep(c, s, key);
    LeaveStep(c, s, key);
    MarkStep(c, s, key, r);
    RemovalEvents(key, |s.threads|);
    AboutToClose(s, key, r);
    var s3 := With(Flagged(s, r), Close(key, r, End));
    CloseStep(c, s3, |s.threads|, key, r);
    ExecFour(c, s, With(s, Leave(key, End)), With(s, Mark(key, End)), s3, Removal(key, |s.threads|));
    CloseRemoves(s, key, r);
  }

  lemma {:induction false} ExecAppend(c: Config, s: State, es: seq<Event>, fs: seq<Event>)
    requires Exec(c, s, es).Some?
    ensures Exec(c, s, es + fs) == Exec(c, Exec(c, s, es).value, fs)
    decreases |es|
  {
    hide WellFormed, Enabled, Step;
    if es == [] {
      assert es + fs == fs;
    } else {
      ExecAppend(c, Step(c, s, es[0]), es[1..], fs);
      assert (es + fs)[0] == es[0] && (es + fs)[1..] == es[1..] + fs;
    }
  }

  lemma HeldTwiceClosesTwice(c: Config, s: State, k: Key, l: Key)
    requires Inv(s) && s.status.Running? && NoLocks(s) && k in s.hub.members && l in s.hub.members && k != l
    requires s.hub.members[k] == s.hub.members[l] && s.hub.members[k] < |s.subs| && !s.subs[s.hub.members[k]].closed
    ensures var es := Removal(k, |s.threads|) + Removal(l, |s.threads| + 1);
            Exec(c, s, es).Some? && Exec(c, s, es).value.status.ClosedTwice?
  {
    hide Inv, NoLocks, Exec, Removal;
    var r := s.hub.members[k];
    RemovalRuns(c, s, k, r);
    var s1 := Exec(c, s, Removal(k, |s.threads|)).value;
    RunKeepsInv(c, s, Removal(k, |s.threads|));
    RemovalRuns(c, s1, l, r);
    ExecAppend(c, s, Removal(k, |s.threads|), Removal(l, |s1.threads|));
  }

  lemma UnsafeClosesTwice(c: Config, s: State) returns (es: seq<Event>)
    requires Inv(s) && s.status.Running? && NoLocks(s) && !Safe(s)
    ensures Exec(c, s, es).Some? && Exec(c, s, es).value.status.ClosedTwice?
    ensures forall i :: 0 <= i < |es| ==> es[i].Unsubscribe? || (es[i].Run? && es[i].thread >= |s.threads|)
  {
    hide Inv, NoLocks, Exec;
    if !HeldOpen(s.hub.members, s.subs) {
      var k :| k in s.hub.members && s.hub.members[k] < |s.subs| && s.subs[s.hub.members[k]].closed;
      RemovalRuns(c, s, k, s.hub.members[k]);
      es := Removal(k, |s.threads|);
    } else {
      var k, l :| k in s.hub.members && l in s.hub.members && s.hub.members[k] == s.hub.members[l] && k != l;
      OfMember(s, k);
      HeldTwiceClosesTwice(c, s, k, l);
      es := Removal(k, |s.threads|) + Removal(l, |s.threads| + 1);
    }
  }

  /** Some run that joins as allowed closes a channel twice. */
  ghost predicate CanCloseTwice(c: Config, s: State) {
    exists es: seq<Event> :: Obeys(c, JoinsOpen, s, es) && Exec(c, s, es).Some? &&
      Exec(c, s, es).value.status.ClosedTwice?
  }

  /** What a thread that holds a lock is about to do. */
  lemma CloserRuns(c: Config, s: State, w: nat)
    requires Inv(s) && s.status.Running? && w < |s.threads| && s.threads[w].Close?
    ensures var pc, e := s.threads[w], Run(w, [], true);
            && pc.sub < |s.subs| && pc.key in s.hub.members && s.hub.members[pc.key] == pc.sub
            && WellFormed(s) && Enabled(s, e) && Step(c, s, e) == DoClose(s, w, pc.key, pc.sub, pc.next) &&
              Allows(JoinsOpen, s, e)
  {
    hide Inv;
    InvImpliesWellFormed(s);
    OfThread(s, w);
    hide WellFormed, FeedThreadOk, PublisherOk, StreamerOk, InRange, DoClose;
  }

  /** A thread that is about to close a member of an unsafe relay panics, or leaves the relay unsafe. */
  lemma ClosingStaysUnsafe(c: Config, s: State, w: nat)
    requires Inv(s) && s.status.Running? && !Safe(s) && w < |s.threads| && s.threads[w].Close?
    ensures var e := Run(w, [], true);
            && WellFormed(s) && Enabled(s, e) && Inv(Step(c, s, e)) && Allows(JoinsOpen, s, e)
            && (Step(c, s, e).status.ClosedTwice?
                || (Step(c, s, e).status.Running? && !Safe(Step(c, s, e)) &&
                    |Step(c, s, e).hub.members| < |s.hub.members|))
  {
    hide *;
    var pc := s.threads[w];
    CloserRuns(c, s, w);
    InvStep(c, s, Run(w, [], true));
    CloseStatus(s, w, pc.key, pc.sub, pc.next);
    if !s.subs[pc.sub].closed {
      CloseLeavesUnsafe(s, w, pc.key, pc.sub, pc.next);
    }
  }

  lemma CloseStatus(s: State, w: nat, key: Key, q: nat, next: Next)
    requires w < |s.threads| && q < |s.subs|
    ensures DoClose(s, w, key, q, next).status == if s.subs[q].closed then ClosedTwice else s.status
  {
  }

  lemma CloseLeavesUnsafe(s: State, w: nat, key: Key, q: nat, next: Next)
    requires w < |s.threads| && q < |s.subs| && !s.subs[q].closed && key in s.hub.members && s.hub.members[key] == q
    requires !Safe(s)
    ensures !Safe(DoClose(s, w, key, q, next))
    ensures |DoClose(s, w, key, q, next).hub.members| < |s.hub.members|
  {
    var s' := DoClose(s, w, key, q, next);
    assert s'.hub.members.Keys == s.hub.members.Keys - {key};
    if !HeldOpen(s.hub.members, s.subs) {
      var k :| k in s.hub.members && s.hub.members[k] < |s.subs| && s.subs[s.hub.members[k]].closed;
      assert k in s'.hub.members && s'.subs[s'.hub.members[k]].closed;
    } else {
      var k, l :| k in s.hub.members && l in s.hub.members && s.hub.members[k] == s.hub.members[l] && k != l;
      var other := if k == key then l else k;
      assert other in s'.hub.members && s'.hub.members[other] == s.hub.members[k];
      if s.hub.members[k] == q {
        assert s'.subs[s'.hub.members[other]].closed;
      } else {
        assert k in s'.hub.members && l in s'.hub.members;
      }
    }
  }

  /** From every unsafe relay: the threads that are about to close do so, and then two removals close twice. */
  lemma UnsafeCanCloseTwice(c: Config, s: State) returns (es: seq<Event>)
    requires Inv(s) && s.status.Running? && !Safe(s)
    ensures Obeys(c, JoinsOpen, s, es) && Exec(c, s, es).Some? && Exec(c, s, es).value.status.ClosedTwice?
    decreases |s.hub.members|
  {
    hide Inv, Safe, WellFormed, Enabled, Step, Exec, Allows;
    if NoLocks(s) {
      es := UnsafeClosesTwice(c, s);
      RemovalsObey(c, s, es, |s.threads|);
    } else {
      var w :| 0 <= w < |s.threads| && s.threads[w].Close?;
      ClosingStaysUnsafe(c, s, w);
      var e := Run(w, [], true);
      var s' := Step(c, s, e);
      var fs := [];
      if s'.status.ClosedTwice? {
        ExecNothing(c, s');
      } else {
        fs := UnsafeCanCloseTwice(c, s');
      }
      es := [e] + fs;
      ExecStep(c, s, e, s', fs);
      assert es[0] == e && es[1..] == fs;
    }
  }

  /** Exactly when a reachable relay can still close a channel twice although every join from now on is allowed:
      when some subscriber is held under two keys or held closed. */
  lemma CanCloseTwiceIff(c: Config, s: State)
    requires Inv(s) && s.status.Running?
    ensures CanCloseTwice(c, s) <==> !Safe(s)
  {
    hide Inv, Safe;
    if Safe(s) && CanCloseTwice(c, s) {
      var es: seq<Event> :| Obeys(c, JoinsOpen, s, es) && Exec(c, s, es).Some? &&
        Exec(c, s, es).value.status.ClosedTwice?;
      SafeRun(c, s, es);
    }
    if !Safe(s) {
      var es := UnsafeCanCloseTwice(c, s);
    }
  }

  /** Events that only call Unsubscribe, and run the threads of these calls, never join. */
  lemma {:induction false} RemovalsObey(c: Config, s: State, es: seq<Event>, n: nat)
    requires Inv(s) && n <= |s.threads|
    requires forall i :: 0 <= i < |es| ==> es[i].Unsubscribe? || (es[i].Run? && es[i].thread >= n)
    requires forall t :: n <= t < |s.threads| ==> !s.threads[t].Insert? && !s.threads[t].Join?
    ensures Obeys(c, JoinsOpen, s, es)
    decreases |es|
  {
    hide Inv, WellFormed, Step;
    if es != [] && WellFormed(s) && Enabled(s, es[0]) {
      var e, s' := es[0], Step(c, s, es[0]);
      assert e.Unsubscribe? || (e.Run? && e.thread >= n);
      StepKeepsInv(c, s, e);
      if s'.status == s.status {
        StepEffects(c, s, e);
        hide Enabled, SubsEffect, MembersEffect, FeedEffect;
      } else {
        CallsDoNotPanic(c, s, e);
        PanicKeepsState(c, s, e.thread, e.order, e.ok);
        hide Enabled;
      }
      RemovalsObey(c, s', es[1..], n);
    }
  }

  lemma CallsDoNotPanic(c: Config, s: State, e: Event)
    requires WellFormed(s) && Enabled(s, e) && Step(c, s, e).status != s.status
    ensures e.Run? && e.thread < |s.threads| && Step(c, s, e) == RunThread(c, s, e.thread, e.order, e.ok)
  {
    hide WellFormed, RunThread;
  }

  // ---------------------------------------------------------------- one subscriber in two topics

  /** The events of one call of Subscribe that runs alone. */
  function Joining(symbol: string, r: nat, t: nat): seq<Event> {
    [Subscribe(symbol, r), Run(t, [], true), Run(t, [], true), Run(t, [], true)]
  }

  ghost predicate Joined(s: State, symbol: string, r: nat, s': State)
    requires r < |s.subs|
  {
    && s'.status.Running? && NoLocks(s') && s'.feed == s.feed
    && |s'.threads| == |s.threads| + 1 && s'.threads[|s.threads|] == Done
    && (forall t :: 0 <= t < |s.threads| ==> s'.threads[t] == s.threads[t])
    && s'.hub.members == s.hub.members[Key(symbol, s.subs[r].id) := r]
    && |s'.subs| == |s.subs| && forall q :: 0 <= q < |s.subs| ==> s'.subs[q] == s.subs[q].(past := s'.subs[q].past)
  }

  lemma JoiningStarts(c: Config, s: State, symbol: string, r: nat)
    requires Inv(s) && s.status.Running? && NoLocks(s) && r < |s.subs| && s.subs[r].stream.None?
    ensures WellFormed(s) && Enabled(s, Subscribe(symbol, r))
    ensures Step(c, s, Subscribe(symbol, r)) == With(s, Join(symbol, r))
    ensures Inv(With(s, Join(symbol, r)))
  {
    hide Inv, WellFormed;
    InvImpliesWellFormed(s);
    InvStep(c, s, Subscribe(symbol, r));
  }

  /** Thread `t`, at `pc`, runs one step that is possible. */
  lemma OneStep(c: Config, s: State, t: nat, pc: Thread, s': State)
    requires Inv(s) && s.status.Running? && t < |s.threads| && s.threads[t] == pc
    requires (pc.Join? || pc.Insert? || pc.Enroll?)
    requires pc.Insert? ==> Unlocked(s.threads, pc.symbol)
    requires pc.sub < |s.subs|
    requires s' == if pc.Join? then DoJoin(s, t, pc.symbol, pc.sub)
               else if pc.Insert? then DoInsert(s, t, pc.symbol, pc.sub) else DoEnroll(s, t, pc.symbol, pc.sub)
    ensures WellFormed(s) && Enabled(s, Run(t, [], true)) && Step(c, s, Run(t, [], true)) == s' && Inv(s')
  {
    hide Inv, WellFormed, DoJoin, DoInsert, DoEnroll;
    InvImpliesWellFormed(s);
    InvStep(c, s, Run(t, [], true));
  }

  lemma JoiningRuns(c: Config, s: State, symbol: string, r: nat)
    requires Inv(s) && s.status.Running? && NoLocks(s) && r < |s.subs| && s.subs[r].stream.None?
    ensures Exec(c, s, Joining(symbol, r, |s.threads|)).Some?
    ensures Joined(s, symbol, r, Exec(c, s, Joining(symbol, r, |s.threads|)).value)
  {
    hide Inv, WellFormed, Enabled, Exec, Step;
    var t := |s.threads|;
    JoiningStarts(c, s, symbol, r);
    var s1 := With(s, Join(symbol, r));
    var s2 := DoJoin(s1, t, symbol, r);
    OneStep(c, s1, t, Join(symbol, r), s2);
    var s3 := DoInsert(s2, t, symbol, r);
    OneStep(c, s2, t, Insert(symbol, r), s3);
    var s4 := DoEnroll(s3, t, symbol, r);
    OneStep(c, s3, t, Enroll(symbol, r), s4);
    ExecFour(c, s, s1, s2, s3, Joining(symbol, r, t));
  }

  /** In every relay at rest, a subscriber that is put into two topics makes it unsafe, and two calls of
      Unsubscribe then close its channel twice. */
  lemma TwoTopicsCloseTwice(c: Config, s: State, r: nat, x: string, y: string)
    requires Inv(s) && s.status.Running? && NoLocks(s) && r < |s.subs| && s.subs[r].stream.None? && !s.subs[r].closed
    requires x != y
    ensures var n, id := |s.threads|, s.subs[r].id;
            var es := Joining(x, r, n) + Joining(y, r, n + 1) +
              (Removal(Key(x, id), n + 2) + Removal(Key(y, id), n + 3));
            Exec(c, s, es).Some? && Exec(c, s, es).value.status.ClosedTwice?
  {
    hide Inv, NoLocks, Exec, Joining, Removal;
    var n, id := |s.threads|, s.subs[r].id;
    JoiningRuns(c, s, x, r);
    RunKeepsInv(c, s, Joining(x, r, n));
    var s1 := Exec(c, s, Joining(x, r, n)).value;
    JoiningRuns(c, s1, y, r);
    RunKeepsInv(c, s1, Joining(y, r, n + 1));
    var s2 := Exec(c, s1, Joining(y, r, n + 1)).value;
    ExecAppend(c, s, Joining(x, r, n), Joining(y, r, n + 1));
    HeldTwiceClosesTwice(c, s2, Key(x, id), Key(y, id));
    ExecAppend(c, s, Joining(x, r, n) + Joining(y, r, n + 1), Removal(Key(x, id), n + 2) + Removal(Key(y, id), n + 3));
  }

  // ---------------------------------------------------------------- sending after closing

  /** Thread `t` has tested the flag of a subscriber that was closed since: its next step panics. */
  ghost predicate Doomed(s: State, t: nat)
    requires t < |s.threads|
  {
    s.threads[t].Send? && Head(s.threads[t]).Some? && Head(s.threads[t]).value < |s.subs| &&
      s.subs[Head(s.threads[t]).value].closed
  }

  ghost predicate NoneDoomed(s: State) { forall t :: 0 <= t < |s.threads| ==> !Doomed(s, t) }

  /** The event closes the channel of a subscriber to whom some thread is about to send. */
  ghost predicate ClosesUnderSend(s: State, e: Event) {
    var pc := Acting(s, e);
    pc.Close? && exists t :: 0 <= t < |s.threads| && s.threads[t].Send? && Head(s.threads[t]) == Some(pc.sub)
  }

  lemma DoomedAfterEffect(s: State, e: Event, s': State, t: nat)
    requires Inv(s) && Effect(s, e, s') && NoneDoomed(s) && t < |s'.threads| && Doomed(s', t)
    ensures ClosesUnderSend(s, e)
  {
    hide Inv, MembersEffect, FeedEffect;
    var pc, r := Acting(s, e), Head(s'.threads[t]).value;
    if t >= |s.threads| {
      assert false;
    } else if e.Run? && e.thread == t {
      assert !s.subs[r].flag && SubEffect(s, pc, r, s.subs[r], s'.subs[r]);
      OfSub(s, r);
      assert false;
    } else {
      OfThread(s, t);
      assert !Doomed(s, t);
      assert r < |s.subs| && SubEffect(s, pc, r, s.subs[r], s'.subs[r]);
    }
  }

  /** Exactly the closes that fall between a test of the flag and the send make a thread doomed, ... */
  lemma DoomedIff(c: Config, s: State, e: Event)
    requires Inv(s) && WellFormed(s) && Enabled(s, e) && NoneDoomed(s) && Step(c, s, e).status == s.status
    ensures !NoneDoomed(Step(c, s, e)) <==> ClosesUnderSend(s, e)
  {
    hide Inv, Effect, WellFormed, Step, Enabled;
    StepEffects(c, s, e);
    var s' := Step(c, s, e);
    if !NoneDoomed(s') {
      var t :| 0 <= t < |s'.threads| && Doomed(s', t);
      DoomedAfterEffect(s, e, s', t);
    }
    if ClosesUnderSend(s, e) {
      ClosingDooms(c, s, e);
    }
  }

  lemma ClosingDooms(c: Config, s: State, e: Event)
    requires Inv(s) && WellFormed(s) && Enabled(s, e) && Step(c, s, e).status == s.status && ClosesUnderSend(s, e)
    ensures !NoneDoomed(Step(c, s, e))
  {
    hide Inv;
    OfThread(s, e.thread);
    hide WellFormed, FeedThreadOk, PublisherOk, StreamerOk;
    var pc := s.threads[e.thread];
    var t :| 0 <= t < |s.threads| && s.threads[t].Send? && Head(s.threads[t]) == Some(pc.sub);
    assert Step(c, s, e) == DoClose(s, e.thread, pc.key, pc.sub, pc.next);
    assert Doomed(Step(c, s, e), t);
  }

  lemma OwnStepPanics(c: Config, s: State, e: Event)
    requires WellFormed(s) && Enabled(s, e) && e.Run? && s.status.Running?
    ensures e.thread < |s.threads| && (Step(c, s, e).status.SentOnClosed? <==> Doomed(s, e.thread))
  {
    RunIs(c, s, e);
    assert InRange(|s.feed.updates|, |s.subs|, s.threads[e.thread]);
    hide WellFormed, Enabled, Step, Runnable;
  }

  /** ... a doomed thread stays doomed until it runs, and then the relay panics; no other send panics. */
  lemma DoomedPanics(c: Config, s: State, e: Event, t: nat)
    requires Inv(s) && WellFormed(s) && Enabled(s, e) && t < |s.threads| && s.status.Running?
    ensures e.Run? && e.thread == t ==> (Step(c, s, e).status.SentOnClosed? <==> Doomed(s, t))
    ensures !e.Run? ==> Step(c, s, e).status == s.status
    ensures (!e.Run? || e.thread != t) && Doomed(s, t) ==> t < |Step(c, s, e).threads| && Doomed(Step(c, s, e), t)
  {
    hide Inv;
    if e.Run? && e.thread == t {
      hide *;
      OwnStepPanics(c, s, e);
    } else if Step(c, s, e).status == s.status {
      StepEffects(c, s, e);
      hide WellFormed, Enabled, Step, MembersEffect, FeedEffect;
      if Doomed(s, t) {
        var r := Head(s.threads[t]).value;
        assert SubEffect(s, Acting(s, e), r, s.subs[r], Step(c, s, e).subs[r]);
      }
    } else {
      CallsDoNotPanic(c, s, e);
      PanicKeepsState(c, s, e.thread, e.order, e.ok);
    }
  }

  /** When no channel is closed between the test of the flag and the send, nothing is sent to a closed channel. */
  lemma {:induction false} WholeSendsRun(c: Config, s: State, es: seq<Event>)
    requires Inv(s) && NoneDoomed(s) && !s.status.SentOnClosed? && Obeys(c, WholeSends, s, es) && Exec(c, s, es).Some?
    ensures !Exec(c, s, es).value.status.SentOnClosed?
    decreases |es|
  {
    hide Inv, WellFormed, Step, NoneDoomed;
    if es != [] {
      var e, s' := es[0], Step(c, s, es[0]);
      StepKeepsInv(c, s, e);
      if s'.status == s.status {
        DoomedIff(c, s, e);
        WholeSendsRun(c, s', es[1..]);
      } else {
        CallsDoNotPanic(c, s, e);
        PanicKeepsState(c, s, e.thread, e.order, e.ok);
        hide Step;
        DoomedPanics(c, s, e, e.thread);
        assert !Doomed(s, e.thread) by { assert NoneDoomed(s); NoneDoomedAt(s, e.thread); }
        NoneDoomedStatus(s, s');
        WholeSendsRun(c, s', es[1..]);
      }
    }
  }

  lemma NoneDoomedAt(s: State, t: nat)
    requires NoneDoomed(s) && t < |s.threads|
    ensures !Doomed(s, t)
  {
  }

  lemma NoneDoomedStatus(s: State, s': State)
    requires NoneDoomed(s) && s' == s.(status := s'.status)
    ensures NoneDoomed(s')
  {
    forall t | 0 <= t < |s'.threads|
      ensures !Doomed(s', t)
    {
      assert !Doomed(s, t);
    }
  }

  lemma NeverSentOnClosed(c: Config, es: seq<Event>, s: State)
    requires Reaches(c, es, s) && Obeys(c, WholeSends, Init, es)
    ensures !s.status.SentOnClosed?
  {
    InitInv();
    hide Inv;
    WholeSendsRun(c, Init, es);
  }

  /** The events of a callback that runs up to its first send. */
  function PublishingTo(symbol: string, order: seq<nat>, t: nat): seq<Event> {
    [OnData(symbol, None), Run(t, [], true), Run(t, [], true), Run(t, order, true), Run(t, [], true)]
  }

  /** The relay with a callback of an update without a book, whose thread is at `pc`. */
  function Carrying(s: State, symbol: string, copied: bool, pc: Thread): State {
    var n := |s.feed.updates|;
    s.(feed := Feed(s.feed.updates + [Update(symbol, None, |s.threads|)], s.feed.cache, s.feed.writes, if copied then
                    s.feed.copied + {n} else s.feed.copied),
       threads := s.threads + [pc])
  }

  lemma CallbackBegins(c: Config, s: State, symbol: string)
    requires Inv(s) && s.status.Running?
    ensures var e, s1 := OnData(symbol, None), Carrying(s, symbol, false, Write(|s.feed.updates|));
            WellFormed(s) && Enabled(s, e) && Step(c, s, e) == s1 && Inv(s1)
  {
    hide Inv, WellFormed;
    InvImpliesWellFormed(s);
    InvStep(c, s, OnData(symbol, None));
  }

  lemma CallbackLooksUp(c: Config, s: State, symbol: string, pc: Thread, pc': Thread)
    requires Inv(Carrying(s, symbol, false, pc)) && s.status.Running? && symbol in s.hub.topics
    requires var n := |s.feed.updates|; (pc == Write(n) && pc' == Lookup(n)) || (pc == Lookup(n) && pc' == Copy(n))
    ensures var e, s1, s2 := Run(|s.threads|, [], true), Carrying(s, symbol, false, pc),
              Carrying(s, symbol, false, pc');
            WellFormed(s1) && Enabled(s1, e) && Step(c, s1, e) == s2 && Inv(s2)
  {
    hide Inv, WellFormed;
    var e, s1 := Run(|s.threads|, [], true), Carrying(s, symbol, false, pc);
    InvImpliesWellFormed(s1);
    InvStep(c, s1, e);
    assert Step(c, s1, e) == if pc.Write? then DoWrite(c, s1, |s.threads|, pc.update)
      else DoLookup(s1, |s.threads|, pc.update);
    hide Step, Enabled;
    assert s1.threads[|s.threads| := pc'] == s.threads + [pc'];
  }

  lemma CallbackCopies(c: Config, s: State, symbol: string, order: seq<nat>)
    requires var n := |s.feed.updates|; Inv(Carrying(s, symbol, false, Copy(n))) && s.status.Running?
    requires NoLocks(s) && ListsMembers(s.hub.members, symbol, order)
    ensures var n := |s.feed.updates|;
            var e, s1, s2 := Run(|s.threads|, order, true), Carrying(s, symbol, false, Copy(n)),
              Carrying(s, symbol, true, Visit(n, order));
            WellFormed(s1) && Enabled(s1, e) && Step(c, s1, e) == s2 && Inv(s2)
  {
    hide Inv, WellFormed, ListsMembers;
    var n := |s.feed.updates|;
    var e, s1 := Run(|s.threads|, order, true), Carrying(s, symbol, false, Copy(n));
    InvImpliesWellFormed(s1);
    assert Unlocked(s1.threads, symbol);
    InvStep(c, s1, e);
    assert Step(c, s1, e) == DoCopy(s1, |s.threads|, n, order);
    hide Step, Enabled;
    assert s1.threads[|s.threads| := Visit(n, order)] == s.threads + [Visit(n, order)];
  }

  lemma CallbackVisits(c: Config, s: State, symbol: string, order: seq<nat>)
    requires var n := |s.feed.updates|; Inv(Carrying(s, symbol, true, Visit(n, order))) && s.status.Running?
    requires order != [] && order[0] < |s.subs| && !s.subs[order[0]].flag
    ensures var n := |s.feed.updates|;
            var e, s1, s2 := Run(|s.threads|, [], true), Carrying(s, symbol, true, Visit(n, order)),
              Carrying(s, symbol, true, Send(n, order));
            WellFormed(s1) && Enabled(s1, e) && Step(c, s1, e) == s2 && Inv(s2)
  {
    hide Inv, WellFormed;
    var n := |s.feed.updates|;
    var e, s1 := Run(|s.threads|, [], true), Carrying(s, symbol, true, Visit(n, order));
    InvImpliesWellFormed(s1);
    InvStep(c, s1, e);
    assert Step(c, s1, e) == DoVisit(s1, |s.threads|, n, order);
    hide Step, Enabled;
    assert s1.threads[|s.threads| := Send(n, order)] == s.threads + [Send(n, order)];
  }

  /** One step, then the rest of a run. */
  lemma ExecStep(c: Config, s: State, e: Event, s': State, es: seq<Event>)
    requires WellFormed(s) && Enabled(s, e) && Step(c, s, e) == s'
    ensures Exec(c, s, [e] + es) == Exec(c, s', es)
  {
    hide WellFormed, Enabled, Step;
    assert ([e] + es)[0] == e && ([e] + es)[1..] == es;
  }

  lemma CallbackRuns(c: Config, s: State, symbol: string, order: seq<nat>)
    requires Inv(s) && s.status.Running? && NoLocks(s) && symbol in s.hub.topics
    requires ListsMembers(s.hub.members, symbol, order) && order != [] && order[0] < |s.subs| && !s.subs[order[0]].flag
    ensures var s' := Carrying(s, symbol, true, Send(|s.feed.updates|, order));
            Exec(c, s, PublishingTo(symbol, order, |s.threads|)) == Some(s') && Inv(s')
  {
    hide *;
    var n, run, copy := |s.feed.updates|, Run(|s.threads|, [], true), Run(|s.threads|, order, true);
    var s1, s2, s3 := Carrying(s, symbol, false, Write(n)), Carrying(s, symbol, false, Lookup(n)),
      Carrying(s, symbol, false, Copy(n));
    var s4, s5 := Carrying(s, symbol, true, Visit(n, order)), Carrying(s, symbol, true, Send(n, order));
    CallbackBegins(c, s, symbol);
    CallbackLooksUp(c, s, symbol, Write(n), Lookup(n));
    CallbackLooksUp(c, s, symbol, Lookup(n), Copy(n));
    CallbackCopies(c, s, symbol, order);
    CallbackVisits(c, s, symbol, order);
    ExecNothing(c, s5);
    ExecStep(c, s4, run, s5, []);
    ExecStep(c, s3, copy, s4, [run] + []);
    ExecStep(c, s2, run, s3, [copy] + ([run] + []));
    ExecStep(c, s1, run, s2, [run] + ([copy] + ([run] + [])));
    ExecStep(c, s, OnData(symbol, None), s1, [run] + ([run] + ([copy] + ([run] + []))));
    PublishingToParts(symbol, order, |s.threads|);
  }

  lemma ExecNothing(c: Config, s: State)
    ensures Exec(c, s, []) == Some(s)
  {
  }

  lemma PublishingToParts(symbol: string, order: seq<nat>, t: nat)
    ensures var run, copy := Run(t, [], true), Run(t, order, true);
            PublishingTo(symbol, order, t) == [OnData(symbol, None)] + ([run] + ([run] + ([copy] + ([run] + []))))
  {
  }

  lemma DoomedRuns(c: Config, s: State, t: nat)
    requires Inv(s) && s.status.Running? && t < |s.threads| && Doomed(s, t)
    ensures Exec(c, s, [Run(t, [], true)]).Some? && Exec(c, s, [Run(t, [], true)]).value.status.SentOnClosed?
  {
    hide *;
    DoomedStep(c, s, t);
    var e := Run(t, [], true);
    ExecStep(c, s, e, Step(c, s, e), []);
    ExecNothing(c, Step(c, s, e));
    assert [e] + [] == [e];
  }

  lemma SendStep(c: Config, s: State, t: nat)
    requires WellFormed(s) && s.status.Running? && t < |s.threads| && s.threads[t].Send? && s.threads[t].rest != []
    requires s.threads[t].rest[0] < |s.subs|
    ensures var e := Run(t, [], true);
            Enabled(s, e) &&
            Step(c, s, e) == DoSend(c, s, t, s.threads[t].update, s.threads[t].rest)
  {
    hide WellFormed, DoSend;
  }

  lemma DoomedStep(c: Config, s: State, t: nat)
    requires Inv(s) && s.status.Running? && t < |s.threads| && Doomed(s, t)
    ensures var e := Run(t, [], true); WellFormed(s) && Enabled(s, e) && Step(c, s, e).status.SentOnClosed?
  {
    hide Inv, WellFormed, Enabled, Step;
    InvImpliesWellFormed(s);
    SendStep(c, s, t);
  }

  lemma RemovalDooms(c: Config, s: State, t: nat, key: Key, r: nat)
    requires Inv(s) && s.status.Running? && NoLocks(s) && t < |s.threads| && s.threads[t].Send?
    requires Head(s.threads[t]) == Some(r)
    requires r < |s.subs| && !s.subs[r].closed && key in s.hub.members && s.hub.members[key] == r
    ensures var es := Removal(key, |s.threads|) + [Run(t, [], true)];
            Exec(c, s, es).Some? && Exec(c, s, es).value.status.SentOnClosed?
  {
    hide Inv, Exec, Removal, NoLocks;
    var es := Removal(key, |s.threads|);
    RemovalRuns(c, s, key, r);
    RunKeepsInv(c, s, es);
    DoomedRuns(c, Exec(c, s, es).value, t);
    ExecAppend(c, s, es, [Run(t, [], true)]);
  }

  /** In every relay at rest, a member that is unsubscribed between the test of its flag and the send panics the
      relay; the copied list of members does not protect it. */
  lemma StaleCopyPanics(c: Config, s: State, key: Key, order: seq<nat>)
    requires Inv(s) && s.status.Running? && NoLocks(s) && key in s.hub.members
    requires ListsMembers(s.hub.members, key.symbol, order) && order != [] && s.hub.members[key] == order[0]
    requires order[0] < |s.subs| && !s.subs[order[0]].flag && !s.subs[order[0]].closed
    ensures var n := |s.threads|;
            var es := PublishingTo(key.symbol, order, n) + (Removal(key, n + 1) + [Run(n, [], true)]);
            Exec(c, s, es).Some? && Exec(c, s, es).value.status.SentOnClosed?
  {
    hide *;
    OfMember(s, key);
    var s1 := Carrying(s, key.symbol, true, Send(|s.feed.updates|, order));
    CarryingParts(s, key.symbol, Send(|s.feed.updates|, order));
    HeadOfSend(|s.feed.updates|, order);
    CallbackRuns(c, s, key.symbol, order);
    RemovalDooms(c, s1, |s.threads|, key, order[0]);
    ExecAppend(c, s, PublishingTo(key.symbol, order, |s.threads|),
               Removal(key, |s.threads| + 1) + [Run(|s.threads|, [], true)]);
  }

  lemma HeadOfSend(u: nat, order: seq<nat>)
    requires order != []
    ensures Head(Send(u, order)) == Some(order[0])
  {
  }

  lemma CarryingParts(s: State, x: string, pc: Thread)
    requires !pc.Close?
    ensures var s' := Carrying(s, x, true, pc);
            && s'.hub == s.hub && s'.subs == s.subs && s'.status == s.status
            && s'.threads == s.threads + [pc] && |s'.threads| == |s.threads| + 1 && s'.threads[|s.threads|] == pc
            && (NoLocks(s) ==> NoLocks(s'))
  {
  }
}
