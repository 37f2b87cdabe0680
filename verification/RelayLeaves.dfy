/** Who leaves: nobody whose channel had room, and, when only the hub removes members, exactly the slow ones. */
module RelayLeaves {
  import opened Relay
  import opened RelayInvariant
  import opened RelaySteps
  import opened RelayRuns
  import opened RelaySlow

  // ---------------------------------------------------------------- channels

  ghost predicate QueuesFit(c: Config, s: State) { forall r :: 0 <= r < |s.subs| ==> |s.subs[r].queue| <= c.bufferSize }

  lemma ThreadFits(c: Config, s: State, t: nat, order: seq<nat>, ok: bool)
    requires WellFormed(s) && t < |s.threads|
    ensures var s' := RunThread(c, s, t, order, ok);
            && |s'.subs| == |s.subs| && forall q :: 0 <= q < |s.subs| ==>
                 |s'.subs[q].queue| <= |s.subs[q].queue| || |s'.subs[q].queue| <= c.bufferSize
  {
    assert InRange(|s.feed.updates|, |s.subs|, s.threads[t]);
    hide WellFormed;
  }

  lemma CallFits(c: Config, s: State, e: Event)
    requires WellFormed(s) && Enabled(s, e) && !e.Run?
    ensures var s' := Step(c, s, e);
            && |s.subs| <= |s'.subs| && (forall q :: |s.subs| <= q < |s'.subs| ==> s'.subs[q].queue == [])
            && forall q :: 0 <= q < |s.subs| ==> |s'.subs[q].queue| <= |s.subs[q].queue|
  {
    hide WellFormed, Unlocked;
  }

  lemma StepFits(c: Config, s: State, e: Event)
    requires WellFormed(s) && Enabled(s, e) && QueuesFit(c, s)
    ensures QueuesFit(c, Step(c, s, e))
  {
    hide WellFormed, RunThread;
    if e.Run? {
      ThreadFits(c, s, e.thread, e.order, e.ok);
    } else {
      CallFits(c, s, e);
    }
  }

  lemma {:induction false} RunFits(c: Config, s: State, es: seq<Event>)
    requires Inv(s) && QueuesFit(c, s) && Exec(c, s, es).Some?
    ensures QueuesFit(c, Exec(c, s, es).value)
    decreases |es|
  {
    hide Inv, WellFormed, Enabled, Step, QueuesFit;
    if es != [] {
      StepKeepsInv(c, s, es[0]);
      StepFits(c, s, es[0]);
      RunFits(c, Step(c, s, es[0]), es[1..]);
    }
  }

  /** In every run: no channel holds more than its buffer. */
  lemma ChannelsFit(c: Config, es: seq<Event>, s: State, r: nat)
    requires Reaches(c, es, s) && r < |s.subs|
    ensures |s.subs[r].queue| <= c.bufferSize
  {
    InitInv();
    hide Inv;
    RunFits(c, Init, es);
  }

  // ---------------------------------------------------------------- who is removed

  /** No caller removes a member: no client goes, and no idle member is swept. */
  predicate OnlyPublishes(es: seq<Event>) {
    forall i :: 0 <= i < |es| ==> !es[i].Unsubscribe? && !es[i].Sweep? && !es[i].Stream?
  }

  /** A subscriber with this id has dropped more than the threshold. */
  ghost predicate Over(c: Config, s: State, id: string) {
    exists r :: 0 <= r < |s.subs| && s.subs[r].id == id && s.subs[r].dropped > c.slowThreshold
  }

  predicate Removes(pc: Thread) { pc.Leave? || pc.Mark? || pc.Close? }

  ghost predicate LeaverOk(c: Config, s: State, pc: Thread) {
    && (Removes(pc) ==> pc.next.Resume? && Over(c, s, pc.key.id)) && !pc.Snapshot? && !pc.Drain?
  }

  /** Threads remove only slow members, and only those are flagged. */
  ghost predicate LeaversOk(c: Config, s: State) {
    && (forall t :: 0 <= t < |s.threads| ==> LeaverOk(c, s, s.threads[t]))
    && (forall r :: 0 <= r < |s.subs| ==> s.subs[r].stream.None?)
    && (forall r :: 0 <= r < |s.subs| && s.subs[r].flag ==> s.subs[r].dropped > c.slowThreshold)
  }

  /** What a step of a thread changes of the subscribers, and where it goes. */
  lemma ThreadLeaves(c: Config, s: State, t: nat, order: seq<nat>, ok: bool)
    requires WellFormed(s) && t < |s.threads| && !s.threads[t].Snapshot? && !s.threads[t].Drain?
    ensures var s', pc := RunThread(c, s, t, order, ok), s.threads[t];
            && |s'.subs| == |s.subs| && |s'.threads| == |s.threads| && s'.threads == s.threads[t := s'.threads[t]]
            && (forall q :: 0 <= q < |s.subs| ==>
                s'.subs[q].id == s.subs[q].id && s'.subs[q].stream == s.subs[q].stream)
            && (forall q :: 0 <= q < |s.subs| ==> s.subs[q].dropped <= s'.subs[q].dropped)
            && (forall q :: 0 <= q < |s.subs| && s'.subs[q].flag && !s.subs[q].flag ==>
                  pc.Mark? && pc.key in s.hub.members && s.hub.members[pc.key] == q)
  {
    assert InRange(|s.feed.updates|, |s.subs|, s.threads[t]);
    hide WellFormed;
  }

  lemma ThreadGoes(c: Config, s: State, t: nat, order: seq<nat>, ok: bool)
    requires WellFormed(s) && t < |s.threads| && !s.threads[t].Snapshot? && !s.threads[t].Drain?
    requires s.threads[t].Enroll? && s.threads[t].sub < |s.subs| ==> s.subs[s.threads[t].sub].stream.None?
    ensures var s', pc := RunThread(c, s, t, order, ok), s.threads[t];
            && t < |s'.threads| && !s'.threads[t].Snapshot? && !s'.threads[t].Drain?
            && (Removes(s'.threads[t]) && !Removes(pc) ==>
                  && s'.threads[t].next.Resume? && pc.Check? && pc.rest != [] && pc.rest[0] < |s.subs|
                  && s.subs[pc.rest[0]].dropped > c.slowThreshold && s'.threads[t].key.id == s.subs[pc.rest[0]].id)
            && (Removes(s'.threads[t]) && Removes(pc) ==>
                  s'.threads[t].key == pc.key && s'.threads[t].next == pc.next)
  {
    assert InRange(|s.feed.updates|, |s.subs|, s.threads[t]);
    hide WellFormed;
  }

  lemma OverStays(c: Config, s: State, s': State, id: string)
    requires Over(c, s, id) && |s.subs| <= |s'.subs|
    requires forall q :: 0 <= q < |s.subs| ==>
               s'.subs[q].id == s.subs[q].id && s.subs[q].dropped <= s'.subs[q].dropped
    ensures Over(c, s', id)
  {
    var r :| 0 <= r < |s.subs| && s.subs[r].id == id && s.subs[r].dropped > c.slowThreshold;
    assert s'.subs[r].id == id;
  }

  lemma RunLeaves(c: Config, s: State, t: nat, order: seq<nat>, ok: bool)
    requires Inv(s) && WellFormed(s) && DistinctIds(s) && LeaversOk(c, s) && t < |s.threads|
    ensures LeaversOk(c, RunThread(c, s, t, order, ok))
  {
    hide *;
    var s' := RunThread(c, s, t, order, ok);
    LeaversParts(c, s);
    LeaverParts(c, s, s.threads[t]);
    ThreadLeaves(c, s, t, order, ok);
    ThreadGoes(c, s, t, order, ok);
    forall u | 0 <= u < |s'.threads|
      ensures LeaverOk(c, s', s'.threads[u])
    {
      if u != t {
        LeaverStays(c, s, s', s.threads[u]);
      } else {
        GoesLeaving(c, s, s', s.threads[t], s'.threads[t]);
      }
    }
    forall r | 0 <= r < |s'.subs| && s'.subs[r].flag
      ensures s'.subs[r].dropped > c.slowThreshold
    {
      if !s.subs[r].flag {
        MarkedIsOver(c, s, s.threads[t].key);
      }
    }
    PartsLeavers(c, s');
  }

  lemma LeaversParts(c: Config, s: State)
    requires LeaversOk(c, s)
    ensures forall t :: 0 <= t < |s.threads| ==> LeaverOk(c, s, s.threads[t])
    ensures forall r :: 0 <= r < |s.subs| ==> s.subs[r].stream.None?
    ensures forall r :: 0 <= r < |s.subs| && s.subs[r].flag ==> s.subs[r].dropped > c.slowThreshold
  {
    hide LeaverOk;
  }

  lemma PartsLeavers(c: Config, s: State)
    requires forall t :: 0 <= t < |s.threads| ==> LeaverOk(c, s, s.threads[t])
    requires forall r :: 0 <= r < |s.subs| ==> s.subs[r].stream.None?
    requires forall r :: 0 <= r < |s.subs| && s.subs[r].flag ==> s.subs[r].dropped > c.slowThreshold
    ensures LeaversOk(c, s)
  {
    hide LeaverOk;
  }

  lemma LeaverParts(c: Config, s: State, pc: Thread)
    requires LeaverOk(c, s, pc)
    ensures !pc.Snapshot? && !pc.Drain? && (pc.Leave? || pc.Mark? || pc.Close? ==> Over(c, s, pc.key.id))
  {
    hide Over;
  }

  lemma LeaverStays(c: Config, s: State, s': State, pc: Thread)
    requires LeaverOk(c, s, pc) && |s.subs| <= |s'.subs|
    requires forall q :: 0 <= q < |s.subs| ==>
               s'.subs[q].id == s.subs[q].id && s.subs[q].dropped <= s'.subs[q].dropped
    ensures LeaverOk(c, s', pc)
  {
    hide Over;
    if Removes(pc) {
      OverStays(c, s, s', pc.key.id);
    }
  }

  lemma GoesLeaving(c: Config, s: State, s': State, pc: Thread, pc': Thread)
    requires LeaverOk(c, s, pc) && |s.subs| <= |s'.subs| && !pc'.Snapshot? && !pc'.Drain?
    requires forall q :: 0 <= q < |s.subs| ==>
               s'.subs[q].id == s.subs[q].id && s.subs[q].dropped <= s'.subs[q].dropped
    requires Removes(pc') && !Removes(pc) ==>
               && pc'.next.Resume? && pc.Check? && pc.rest != [] && pc.rest[0] < |s.subs|
               && s.subs[pc.rest[0]].dropped > c.slowThreshold && pc'.key.id == s.subs[pc.rest[0]].id
    requires Removes(pc') && Removes(pc) ==> pc'.key == pc.key && pc'.next == pc.next
    ensures LeaverOk(c, s', pc')
  {
    if Removes(pc') {
      assert Over(c, s, pc'.key.id);
      hide Over;
      OverStays(c, s, s', pc'.key.id);
    }
  }

  /** The member that is found under a slow id is the slow one. */
  lemma MarkedIsOver(c: Config, s: State, key: Key)
    requires WellFormed(s) && DistinctIds(s) && Over(c, s, key.id) && key in s.hub.members
    ensures s.hub.members[key] < |s.subs| && s.subs[s.hub.members[key]].dropped > c.slowThreshold
  {
    var q :| 0 <= q < |s.subs| && s.subs[q].id == key.id && s.subs[q].dropped > c.slowThreshold;
    assert s.subs[s.hub.members[key]].id == key.id;
    hide WellFormed;
    assert q == s.hub.members[key];
  }

  lemma CallLeaves(c: Config, s: State, e: Event)
    requires WellFormed(s) && Enabled(s, e) && LeaversOk(c, s) && !e.Run?
    requires !e.Unsubscribe? && !e.Sweep? && !e.Stream?
    ensures LeaversOk(c, Step(c, s, e))
  {
    hide WellFormed, Over;
    var s' := Step(c, s, e);
    forall u | 0 <= u < |s'.threads|
      ensures LeaverOk(c, s', s'.threads[u])
    {
      if u < |s.threads| {
        assert LeaverOk(c, s, s.threads[u]);
        if Removes(s.threads[u]) {
          OverStays(c, s, s', s.threads[u].key.id);
        }
      }
    }
  }

  lemma StepLeaves(c: Config, s: State, e: Event)
    requires Inv(s) && WellFormed(s) && Enabled(s, e) && DistinctIds(s) && LeaversOk(c, s)
    requires !e.Unsubscribe? && !e.Sweep? && !e.Stream?
    ensures LeaversOk(c, Step(c, s, e))
  {
    hide Inv, WellFormed, RunThread, LeaversOk;
    if e.Run? {
      RunLeaves(c, s, e.thread, e.order, e.ok);
    } else {
      CallLeaves(c, s, e);
    }
  }

  lemma {:induction false} ExecLeaves(c: Config, s: State, es: seq<Event>)
    requires Inv(s) && LeaversOk(c, s) && OnlyPublishes(es) && Exec(c, s, es).Some?
    requires DistinctIds(Exec(c, s, es).value)
    ensures DistinctIds(s) && LeaversOk(c, Exec(c, s, es).value)
    decreases |es|
  {
    hide Inv, WellFormed, Enabled, Step, LeaversOk, DistinctIds;
    DistinctEarlier(c, s, es);
    if es != [] {
      StepKeepsInv(c, s, es[0]);
      StepLeaves(c, s, es[0]);
      ExecLeaves(c, Step(c, s, es[0]), es[1..]);
    }
  }

  /** In every run in which only the hub removes members and the ids are different: a subscriber that is being removed,
      or
      was, has dropped more than the threshold; when no publish is under way these are all such subscribers. */
  lemma SlowLeaveIff(c: Config, es: seq<Event>, s: State, r: nat)
    requires Reaches(c, es, s) && DistinctIds(s) && OnlyPublishes(es) && r < |s.subs|
    ensures s.subs[r].flag ==> s.subs[r].dropped > c.slowThreshold
    ensures NonePublishing(s) ==> (s.subs[r].flag <==> s.subs[r].dropped > c.slowThreshold)
  {
    InitInv();
    hide Inv;
    ExecLeaves(c, Init, es);
    if NonePublishing(s) {
      DistinctNoneSlow(c, es, s);
    }
  }
}
