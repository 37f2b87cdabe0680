/** What a publisher does when it runs alone: it serves its members one by one and reaches nobody else. */
module RelayAlone {
  import opened Relay
  import opened RelayInvariant
  import opened RelaySteps
  import opened RelayRuns
  import opened RelayEffects
  import opened RelayRules
  import opened RelayLifecycle
  import opened RelayNames

  /** The members of the topic are open. */
  ghost predicate TopicOpen(s: State, x: string) {
    forall k :: k in s.hub.members && k.symbol == x && s.hub.members[k] < |s.subs| ==> !s.subs[s.hub.members[k]].closed
  }

  /** No other thread holds the lock of the topic. */
  ghost predicate OthersUnlocked(s: State, t: nat, x: string) {
    forall i :: 0 <= i < |s.threads| && i != t && s.threads[i].Close? ==> s.threads[i].key.symbol != x
  }

  /** Thread `t` has copied the members of topic `x` for update `u` and can go on. */
  ghost predicate Ready(s: State, t: nat, u: nat, x: string) {
    && Inv(s) && NamesInv(s) && s.status.Running? && t < |s.threads|
    && Current(s.threads[t]) == Some(u) && !BeforeCopy(s.threads[t])
    && u < |s.feed.updates| && s.feed.updates[u].symbol == x
    && TopicOpen(s, x) && OthersUnlocked(s, t, x) && !Doomed(s, t)
  }

  /** The thread is not dealing with subscriber `r` now; if topic `x` holds `r`, it does not deal with another of
      its id either. */
  ghost predicate Clear(s: State, pc: Thread, r: nat, x: string)
    requires r < |s.subs|
  {
    && Head(pc) != Some(r)
    && (HeldAt(s.hub.members, Key(x, s.subs[r].id), r) ==>
          && (forall q :: q in Named(pc) && q < |s.subs| && q != r ==> s.subs[q].id != s.subs[r].id)
          && ((pc.Leave? || pc.Mark? || pc.Close?) && pc.next.Resume? ==> pc.key.id != s.subs[r].id))
  }

  /** Between two states thread `t` has worked on topic `x`, and has not touched `r`. */
  ghost predicate Spares(s: State, s': State, t: nat, r: nat, x: string)
    requires r < |s.subs|
  {
    && s'.status == s.status && s'.feed == s.feed && s'.hub.topics == s.hub.topics
    && |s'.threads| == |s.threads| && (forall i :: 0 <= i < |s.threads| && i != t ==> s'.threads[i] == s.threads[i])
    && |s'.subs| == |s.subs| && s'.subs[r] == s.subs[r]
    && (forall q :: 0 <= q < |s.subs| ==> s'.subs[q].id == s.subs[q].id && s'.subs[q].stream == s.subs[q].stream)
    && (forall k :: k in s'.hub.members ==> k in s.hub.members && s'.hub.members[k] == s.hub.members[k])
    && (forall k :: k in s.hub.members && (k.symbol != x || s.hub.members[k] == r) ==> k in s'.hub.members)
    && (TopicOpen(s, x) ==> TopicOpen(s', x))
  }

  lemma SparesBoth(s: State, s': State, s'': State, t: nat, r: nat, x: string)
    requires r < |s.subs| && Spares(s, s', t, r, x) && r < |s'.subs| && Spares(s', s'', t, r, x)
    ensures Spares(s, s'', t, r, x)
  {
    hide TopicOpen;
  }

  lemma SparesNothing(s: State, t: nat, r: nat, x: string)
    requires r < |s.subs|
    ensures Spares(s, s, t, r, x)
  {
    hide TopicOpen;
  }

  // ---------------------------------------------------------------- one step

  lemma RunGoes(c: Config, s: State, t: nat, order: seq<nat>)
    requires Inv(s) && s.status.Running? && t < |s.threads| && Runnable(s, s.threads[t], order)
    ensures WellFormed(s) && Enabled(s, Run(t, order, true))
    ensures Step(c, s, Run(t, order, true)) == RunThread(c, s, t, order, true)
    ensures Inv(RunThread(c, s, t, order, true)) && (NamesInv(s) ==> NamesInv(RunThread(c, s, t, order, true)))
  {
    hide Inv, WellFormed, Runnable, RunThread, NamesInv;
    InvImpliesWellFormed(s);
    InvStep(c, s, Run(t, order, true));
    if NamesInv(s) {
      NamesStep(c, s, Run(t, order, true));
    }
  }

  /** The state after the next step of a publisher that is past the copy of the members. */
  ghost function StateAfter(c: Config, s: State, t: nat): State
    requires t < |s.threads| && InRange(|s.feed.updates|, |s.subs|, s.threads[t])
    requires s.threads[t].Mark? && s.threads[t].key in s.hub.members ==> s.hub.members[s.threads[t].key] < |s.subs|
  {
    match s.threads[t]
    case Visit(u, rest) => DoVisit(s, t, u, rest)
    case Send(u, rest) => DoSend(c, s, t, u, rest)
    case Drop(u, rest) => DoDrop(s, t, u, rest)
    case Tally(u, rest) => DoTally(s, t, u, rest)
    case Check(u, rest) => DoCheck(c, s, t, u, rest)
    case Leave(key, next) => DoLeave(s, t, key, next)
    case Mark(key, next) => DoMark(s, t, key, next)
    case Close(key, r, next) => DoClose(s, t, key, r, next)
    case _ => s
  }

  lemma ReadyRunnable(s: State, t: nat, u: nat, x: string)
    requires Ready(s, t, u, x)
    ensures InRange(|s.feed.updates|, |s.subs|, s.threads[t]) && Runnable(s, s.threads[t], [])
    ensures s.threads[t].Mark? && s.threads[t].key in s.hub.members ==> s.hub.members[s.threads[t].key] < |s.subs|
    ensures (s.threads[t].Leave? || s.threads[t].Mark? || s.threads[t].Close?) ==>
              s.threads[t].next.Resume? && s.threads[t].key.symbol == x
  {
    assert NamesApart(s.feed, s.subs, s.threads[t]);
    hide NamesInv, TopicOpen;
    OfThread(s, t);
    if s.threads[t].Mark? && s.threads[t].key in s.hub.members {
      OfMember(s, s.threads[t].key);
    }
    hide Inv, FeedThreadOk, PublisherOk, CloserOk, StreamerOk;
  }

  lemma RunIsNext(c: Config, s: State, t: nat, u: nat)
    requires WellFormed(s) && t < |s.threads| && Current(s.threads[t]) == Some(u) && !BeforeCopy(s.threads[t])
    requires InRange(|s.feed.updates|, |s.subs|, s.threads[t])
    requires s.threads[t].Mark? && s.threads[t].key in s.hub.members ==> s.hub.members[s.threads[t].key] < |s.subs|
    ensures RunThread(c, s, t, [], true) == StateAfter(c, s, t)
  {
    hide WellFormed, InRange, DoVisit, DoSend, DoDrop, DoTally, DoCheck, DoLeave, DoMark, DoClose;
  }

  lemma ReadyGoes(c: Config, s: State, t: nat, u: nat, x: string)
    requires Ready(s, t, u, x)
    requires InRange(|s.feed.updates|, |s.subs|, s.threads[t])
    requires s.threads[t].Mark? && s.threads[t].key in s.hub.members ==> s.hub.members[s.threads[t].key] < |s.subs|
    ensures WellFormed(s) && Enabled(s, Run(t, [], true)) && Step(c, s, Run(t, [], true)) == StateAfter(c, s, t)
    ensures Inv(StateAfter(c, s, t)) && NamesInv(StateAfter(c, s, t))
  {
    ReadyRunnable(s, t, u, x);
    hide Inv, NamesInv, TopicOpen, OthersUnlocked, Runnable, WellFormed, InRange, Enabled, Step, RunThread, StateAfter,
    Doomed;
    RunGoes(c, s, t, []);
    RunIsNext(c, s, t, u);
  }

  /** How much a publisher has still to do. */
  function Left(pc: Thread): nat {
    var n := 9 * |Pending(pc)|;
    match pc
    case Visit(_, _) => n
    case Send(_, _) => if n == 0 then 0 else n - 1
    case Drop(_, _) => n + 7
    case Tally(_, _) => n + 6
    case Check(_, _) => n + 5
    case Leave(_, _) => n + 4
    case Mark(_, _) => n + 3
    case Close(_, _, _) => n + 2
    case _ => 0
  }

  /** One step towards the end of the list, without a touch on `r`. */
  ghost predicate Onward(s: State, s': State, t: nat, u: nat, x: string, r: nat)
    requires r < |s.subs| && t < |s.threads|
  {
    && Spares(s, s', t, r, x)
    && Current(s'.threads[t]) == Some(u) && !BeforeCopy(s'.threads[t]) && Clear(s', s'.threads[t], r, x) &&
      !Doomed(s', t)
    && (r in Pending(s.threads[t]) <==> r in Pending(s'.threads[t]))
    && Left(s'.threads[t]) < Left(s.threads[t])
  }

  /** What the steps below rely on. */
  ghost predicate Serving(s: State, t: nat, u: nat, x: string, r: nat) {
    && t < |s.threads| && r < |s.subs| && s.status.Running? && Clear(s, s.threads[t], r, x)
    && Current(s.threads[t]) == Some(u) && u < |s.feed.updates| && s.feed.updates[u].symbol == x
    && InRange(|s.feed.updates|, |s.subs|, s.threads[t]) && NamesApart(s.feed, s.subs, s.threads[t])
  }

  lemma RestMembers(rest: seq<nat>, r: nat)
    requires rest != []
    ensures forall q :: q in rest[1..] ==> q in rest
    ensures r != rest[0] ==> (r in rest <==> r in rest[1..])
  {
    assert rest == [rest[0]] + rest[1..];
  }

  lemma VisitSpares(s: State, t: nat, u: nat, x: string, r: nat)
    requires Serving(s, t, u, x, r) && s.threads[t].Visit? && s.threads[t].rest != [] && s.threads[t].rest[0] != r
    requires s.threads[t].rest[0] < |s.subs|
    requires (s.subs[s.threads[t].rest[0]].closed ==> s.subs[s.threads[t].rest[0]].flag)
    ensures Onward(s, DoVisit(s, t, u, s.threads[t].rest), t, u, x, r)
  {
    hide NamesApart;
    RestMembers(s.threads[t].rest, r);
  }

  lemma SendSpares(c: Config, s: State, t: nat, u: nat, x: string, r: nat)
    requires Serving(s, t, u, x, r) && s.threads[t].Send? && s.threads[t].rest != []
    requires s.threads[t].rest[0] < |s.subs| && !s.subs[s.threads[t].rest[0]].closed
    ensures Onward(s, DoSend(c, s, t, u, s.threads[t].rest), t, u, x, r)
  {
    hide NamesApart;
    RestMembers(s.threads[t].rest, r);
  }

  lemma DropSpares(s: State, t: nat, u: nat, x: string, r: nat)
    requires Serving(s, t, u, x, r) && s.threads[t].Drop? && s.threads[t].rest != [] && s.threads[t].rest[0] < |s.subs|
    ensures Onward(s, DoDrop(s, t, u, s.threads[t].rest), t, u, x, r)
  {
    hide NamesApart;
  }

  lemma TallySpares(s: State, t: nat, u: nat, x: string, r: nat)
    requires Serving(s, t, u, x, r) && s.threads[t].Tally?
    ensures Onward(s, DoTally(s, t, u, s.threads[t].rest), t, u, x, r)
  {
    hide NamesApart;
  }

  lemma CheckSpares(c: Config, s: State, t: nat, u: nat, x: string, r: nat)
    requires Serving(s, t, u, x, r) && s.threads[t].Check? && s.threads[t].rest != [] && s.threads[t].rest[0] < |s.subs|
    ensures Onward(s, DoCheck(c, s, t, u, s.threads[t].rest), t, u, x, r)
  {
    hide NamesApart;
    RestMembers(s.threads[t].rest, r);
  }

  lemma LeaveSpares(s: State, t: nat, u: nat, x: string, r: nat)
    requires Serving(s, t, u, x, r) && s.threads[t].Leave?
    ensures Onward(s, DoLeave(s, t, s.threads[t].key, s.threads[t].next), t, u, x, r)
  {
    hide NamesApart;
  }

  lemma MarkSpares(s: State, t: nat, u: nat, x: string, r: nat)
    requires Serving(s, t, u, x, r) && s.threads[t].Mark?
    requires var key := s.threads[t].key;
             key.symbol == x && (key in s.hub.members ==>
                                 s.hub.members[key] < |s.subs| && s.subs[s.hub.members[key]].id == key.id)
    ensures Onward(s, DoMark(s, t, s.threads[t].key, s.threads[t].next), t, u, x, r)
  {
    hide NamesApart;
  }

  lemma CloseSpares(s: State, t: nat, u: nat, x: string, r: nat)
    requires Serving(s, t, u, x, r) && s.threads[t].Close? && s.threads[t].key.symbol == x
    requires var key, q := s.threads[t].key, s.threads[t].sub;
             && HeldAt(s.hub.members, key, q) && q < |s.subs| && !s.subs[q].closed && s.subs[q].id == key.id
             && forall k :: k in s.hub.members && s.hub.members[k] == q ==> k.id == key.id
    ensures Onward(s, DoClose(s, t, s.threads[t].key, s.threads[t].sub, s.threads[t].next), t, u, x, r)
  {
    hide NamesApart;
  }

  lemma ReadyServing(s: State, t: nat, u: nat, x: string, r: nat)
    requires Ready(s, t, u, x) && r < |s.subs| && Clear(s, s.threads[t], r, x)
    ensures Serving(s, t, u, x, r)
  {
    ReadyRunnable(s, t, u, x);
    hide Inv, Clear, NamesApart, InRange, TopicOpen, OthersUnlocked;
  }

  lemma OpenOrFlagged(s: State, q: nat)
    requires Inv(s) && q < |s.subs|
    ensures s.subs[q].closed ==> s.subs[q].flag
  {
    hide Inv;
    OfSub(s, q);
  }

  lemma LockedMember(s: State, t: nat, u: nat, x: string)
    requires Ready(s, t, u, x) && s.threads[t].Close?
    ensures var key, q := s.threads[t].key, s.threads[t].sub;
            && key.symbol == x && HeldAt(s.hub.members, key, q) && q < |s.subs| && !s.subs[q].closed &&
              s.subs[q].id == key.id
            && forall k :: k in s.hub.members && s.hub.members[k] == q ==> k.id == key.id
  {
    ReadyRunnable(s, t, u, x);
    hide NamesInv, OthersUnlocked;
    OfThread(s, t);
    OfMember(s, s.threads[t].key);
    forall k | k in s.hub.members && s.hub.members[k] == s.threads[t].sub
      ensures k.id == s.threads[t].key.id
    {
      OfMember(s, k);
    }
    hide Inv, FeedThreadOk, PublisherOk, StreamerOk, InRange;
  }

  lemma NextIsOnward(c: Config, s: State, t: nat, u: nat, x: string, r: nat)
    requires Ready(s, t, u, x) && r < |s.subs| && Clear(s, s.threads[t], r, x)
    requires !(s.threads[t].Visit? && (s.threads[t].rest == [] || s.threads[t].rest[0] == r))
    ensures InRange(|s.feed.updates|, |s.subs|, s.threads[t])
    ensures s.threads[t].Mark? && s.threads[t].key in s.hub.members ==> s.hub.members[s.threads[t].key] < |s.subs|
    ensures Onward(s, StateAfter(c, s, t), t, u, x, r)
  {
    ReadyRunnable(s, t, u, x);
    ReadyServing(s, t, u, x, r);
    if s.threads[t].Close? {
      LockedMember(s, t, u, x);
    }
    ReadyInv(s, t, u, x);
    hide *;
    StepIsOnward(c, s, t, u, x, r);
  }

  lemma ReadyInv(s: State, t: nat, u: nat, x: string)
    requires Ready(s, t, u, x)
    ensures Inv(s) && !Doomed(s, t)
  {
    hide Inv;
  }

  lemma StepIsOnward(c: Config, s: State, t: nat, u: nat, x: string, r: nat)
    requires Serving(s, t, u, x, r) && Inv(s) && !Doomed(s, t) && !BeforeCopy(s.threads[t])
    requires !(s.threads[t].Visit? && (s.threads[t].rest == [] || s.threads[t].rest[0] == r))
    requires s.threads[t].Mark? ==> s.threads[t].key.symbol == x
    requires s.threads[t].Mark? && s.threads[t].key in s.hub.members ==> s.hub.members[s.threads[t].key] < |s.subs|
    requires s.threads[t].Close? ==>
               var key, q := s.threads[t].key, s.threads[t].sub;
               && key.symbol == x && HeldAt(s.hub.members, key, q) && q < |s.subs| && !s.subs[q].closed &&
                 s.subs[q].id == key.id
               && forall k :: k in s.hub.members && s.hub.members[k] == q ==> k.id == key.id
    ensures Onward(s, StateAfter(c, s, t), t, u, x, r)
  {
    hide Inv, Onward, NamesApart, Clear;
    match s.threads[t]
    case Visit(_, rest) =>
      OpenOrFlagged(s, rest[0]);
      VisitSpares(s, t, u, x, r);
    case Send(_, _) => SendSpares(c, s, t, u, x, r);
    case Drop(_, _) => DropSpares(s, t, u, x, r);
    case Tally(_, _) => TallySpares(s, t, u, x, r);
    case Check(_, _) => CheckSpares(c, s, t, u, x, r);
    case Leave(_, _) => LeaveSpares(s, t, u, x, r);
    case Mark(key, _) =>
      if key in s.hub.members {
        OfMember(s, key);
      }
      MarkSpares(s, t, u, x, r);
    case Close(_, _, _) => CloseSpares(s, t, u, x, r);
    case _ =>
  }

  lemma StaysReady(s: State, s': State, t: nat, u: nat, x: string, r: nat)
    requires Ready(s, t, u, x) && r < |s.subs| && Onward(s, s', t, u, x, r) && Inv(s') && NamesInv(s')
    ensures Ready(s', t, u, x)
  {
    hide Inv, NamesInv, TopicOpen, Clear, Doomed, Pending;
  }

  lemma ReadyToGo(s: State, t: nat, u: nat, x: string)
    requires Inv(s) && NamesInv(s) && s.status.Running? && t < |s.threads| && Current(s.threads[t]) == Some(u)
    requires !BeforeCopy(s.threads[t]) && u < |s.feed.updates| && s.feed.updates[u].symbol == x
    requires TopicOpen(s, x) && OthersUnlocked(s, t, x) && !Doomed(s, t)
    ensures Ready(s, t, u, x) && !s.threads[t].Write?
  {
    hide Inv, NamesInv, TopicOpen, OthersUnlocked, Doomed;
  }

  lemma ReadyNames(s: State, t: nat, u: nat, x: string)
    requires Ready(s, t, u, x)
    ensures t < |s.threads| && NamesApart(s.feed, s.subs, s.threads[t]) && Inv(s) && NamesInv(s)
    ensures Current(s.threads[t]) == Some(u) && !BeforeCopy(s.threads[t])
  {
    hide Inv, NamesApart, TopicOpen, OthersUnlocked, Doomed;
  }

  /** The thread is about to test the flag of subscriber `r`, or to send to it. */
  ghost predicate AtMember(pc: Thread, u: nat, r: nat) {
    (pc.Visit? || pc.Send?) && pc.update == u && pc.rest != [] && pc.rest[0] == r
  }

  /** A publisher with `r` among those to come is about to serve it, or deals with another of another id. */
  lemma PendingClear(s: State, t: nat, u: nat, r: nat, x: string)
    requires t < |s.threads| && NamesApart(s.feed, s.subs, s.threads[t]) && r in Pending(s.threads[t]) && r < |s.subs|
    requires Current(s.threads[t]) == Some(u) && !BeforeCopy(s.threads[t])
    ensures AtMember(s.threads[t], u, r) || Clear(s, s.threads[t], r, x)
  {
    var pc := s.threads[t];
    PendingIsNamed(s, pc, r);
    forall q | q in Named(pc) && q < |s.subs| && q != r
      ensures s.subs[q].id != s.subs[r].id
    {
      IdsApart(s, pc, q, r);
    }
    if (pc.Leave? || pc.Mark? || pc.Close?) && pc.next.Resume? {
      KeyApart(s, pc, r);
    }
  }

  // ---------------------------------------------------------------- many steps

  /** The events are steps of one thread. */
  ghost predicate RunsOf(es: seq<Event>, t: nat) { forall i :: 0 <= i < |es| ==> es[i].Run? && es[i].thread == t }

  lemma BothRunsOf(es: seq<Event>, fs: seq<Event>, t: nat)
    requires RunsOf(es, t) && RunsOf(fs, t)
    ensures RunsOf(es + fs, t)
  {
  }

  /** Run alone, a publisher comes to the end of its list, or to `r` if it has yet to offer it the update; nothing
      else happens to `r` and to other topics. */
  lemma Advance(c: Config, s: State, t: nat, u: nat, x: string, r: nat) returns (es: seq<Event>, s': State)
    requires Ready(s, t, u, x) && r < |s.subs| && Clear(s, s.threads[t], r, x)
    ensures Exec(c, s, es) == Some(s') && RunsOf(es, t) && Ready(s', t, u, x) && Spares(s, s', t, r, x)
    ensures r < |s'.subs| && Clear(s', s'.threads[t], r, x)
    ensures s'.threads[t].Visit? && s'.threads[t].update == u
    ensures r in Pending(s.threads[t]) ==> s'.threads[t].rest != [] && s'.threads[t].rest[0] == r
    ensures r !in Pending(s.threads[t]) ==> s'.threads[t].rest == []
    decreases Left(s.threads[t])
  {
    hide Inv, NamesInv, TopicOpen, OthersUnlocked, Clear, Doomed, Spares, Exec, WellFormed, Enabled, Step,
    StateAfter, Left, InRange;
    if s.threads[t].Visit? && (s.threads[t].rest == [] || s.threads[t].rest[0] == r) {
      es, s' := [], s;
      ExecNothing(c, s);
      SparesNothing(s, t, r, x);
    } else {
      var s1 := AdvanceOnce(c, s, t, u, x, r);
      var fs;
      fs, s' := Advance(c, s1, t, u, x, r);
      es := [Run(t, [], true)] + fs;
      ExecStep(c, s, Run(t, [], true), s1, fs);
      SparesBoth(s, s1, s', t, r, x);
    }
  }

  lemma AdvanceOnce(c: Config, s: State, t: nat, u: nat, x: string, r: nat) returns (s': State)
    requires Ready(s, t, u, x) && r < |s.subs| && Clear(s, s.threads[t], r, x)
    requires !(s.threads[t].Visit? && (s.threads[t].rest == [] || s.threads[t].rest[0] == r))
    ensures WellFormed(s) && Enabled(s, Run(t, [], true)) && Step(c, s, Run(t, [], true)) == s'
    ensures Ready(s', t, u, x) && Spares(s, s', t, r, x) && r < |s'.subs| && Clear(s', s'.threads[t], r, x)
    ensures r in Pending(s.threads[t]) <==> r in Pending(s'.threads[t])
    ensures Left(s'.threads[t]) < Left(s.threads[t])
  {
    NextIsOnward(c, s, t, u, x, r);
    hide Inv, NamesInv, TopicOpen, OthersUnlocked, Clear, Doomed, WellFormed, Enabled, Step, StateAfter, Left, Pending,
    InRange;
    ReadyGoes(c, s, t, u, x);
    s' := StateAfter(c, s, t);
    StaysReady(s, s', t, u, x, r);
  }

  lemma NextRetires(c: Config, s: State, t: nat, u: nat, x: string)
    requires Ready(s, t, u, x) && s.threads[t] == Visit(u, [])
    ensures InRange(|s.feed.updates|, |s.subs|, s.threads[t])
    ensures StateAfter(c, s, t) == Goto(s, t, Done)
  {
    hide Inv, NamesInv, TopicOpen, OthersUnlocked, Doomed;
  }

  /** A publisher at the end of its list ends. */
  lemma Retire(c: Config, s: State, t: nat, u: nat, x: string) returns (es: seq<Event>, s': State)
    requires t < |s.threads| && Ready(s, t, u, x) && s.threads[t] == Visit(u, [])
    ensures Exec(c, s, es) == Some(s') && RunsOf(es, t) && Inv(s') && NamesInv(s')
    ensures s' == Goto(s, t, Done)
  {
    hide *;
    NextRetires(c, s, t, u, x);
    ReadyGoes(c, s, t, u, x);
    s' := StateAfter(c, s, t);
    es := OneRun(c, s, t, [], s');
  }

  /** A single step of a thread, as a run. */
  lemma OneRun(c: Config, s: State, t: nat, order: seq<nat>, s': State) returns (es: seq<Event>)
    requires WellFormed(s) && Enabled(s, Run(t, order, true)) && Step(c, s, Run(t, order, true)) == s'
    ensures es == [Run(t, order, true)] && Exec(c, s, es) == Some(s') && RunsOf(es, t)
  {
    hide WellFormed, Enabled, Step, Exec;
    es := [Run(t, order, true)];
    ExecNothing(c, s');
    ExecStep(c, s, Run(t, order, true), s', []);
    assert es == [Run(t, order, true)] + [];
  }

  /** Run alone, a publisher that owes `r` nothing ends without touching it. */
  lemma Finish(c: Config, s: State, t: nat, u: nat, x: string, r: nat) returns (es: seq<Event>, s': State)
    requires Ready(s, t, u, x) && r < |s.subs| && Clear(s, s.threads[t], r, x) && r !in Pending(s.threads[t])
    ensures Exec(c, s, es) == Some(s') && RunsOf(es, t) && Inv(s') && NamesInv(s') && Spares(s, s', t, r, x)
    ensures t < |s'.threads| && s'.threads[t] == Done
  {
    hide Inv, NamesInv, TopicOpen, OthersUnlocked, Clear, Doomed, Spares, Exec;
    var fs, s1 := Advance(c, s, t, u, x, r);
    var gs;
    gs, s' := Retire(c, s1, t, u, x);
    es := fs + gs;
    ExecAppend(c, s, fs, gs);
    RetiredSpares(s, s1, s', t, r, x);
  }

  lemma RetiredSpares(s: State, s': State, s'': State, t: nat, r: nat, x: string)
    requires r < |s.subs| && Spares(s, s', t, r, x) && t < |s'.threads| && s'' == Goto(s', t, Done)
    ensures Spares(s, s'', t, r, x)
  {
  }

  // ---------------------------------------------------------------- the copy of the members

  lemma {:induction false} Listed(rs: set<nat>) returns (order: seq<nat>)
    ensures Distinct(order) && forall q :: q in order <==> q in rs
    decreases |rs|
  {
    if rs == {} {
      order := [];
    } else {
      var q :| q in rs;
      var others := Listed(rs - {q});
      order := [q] + others;
      assert forall i :: 0 < i < |order| ==> order[i] == others[i - 1];
      assert forall i :: 0 <= i < |others| ==> others[i] in others;
    }
  }

  lemma MembersListed(members: map<Key, nat>, symbol: string) returns (order: seq<nat>)
    ensures ListsMembers(members, symbol, order)
  {
    var keys := set k | k in members && k.symbol == symbol;
    order := Listed(set k | k in keys :: members[k]);
    forall i | 0 <= i < |order|
      ensures IsMember(members, symbol, order[i])
    {
      assert order[i] in order;
    }
  }

  /** Thread `t` is about to look up topic `x`, or to copy its members. */
  ghost predicate Copying(s: State, t: nat, u: nat, x: string) {
    && Inv(s) && NamesInv(s) && s.status.Running? && t < |s.threads| &&
      (s.threads[t] == Lookup(u) || s.threads[t] == Copy(u))
    && u < |s.feed.updates| && s.feed.updates[u].symbol == x && x in s.hub.topics
    && TopicOpen(s, x) && OthersUnlocked(s, t, x)
  }

  /** Run alone, it copies them all, and nothing else changes. */
  lemma CopyMembers(c: Config, s: State, t: nat, u: nat, x: string) returns (es: seq<Event>, s': State, order: seq<nat>)
    requires Copying(s, t, u, x)
    ensures Exec(c, s, es) == Some(s') && RunsOf(es, t) && Ready(s', t, u, x)
    ensures ListsMembers(s.hub.members, x, order)
    ensures s' == Goto(s.(feed := s.feed.(copied := s.feed.copied + {u})), t, Visit(u, order))
    decreases if t < |s.threads| && s.threads[t].Lookup? then 1 else 0
  {
    hide Inv, NamesInv, WellFormed, Enabled, Step, Exec, ListsMembers;
    if s.threads[t].Lookup? {
      RunGoes(c, s, t, []);
      var s1 := DoLookup(s, t, u);
      var fs;
      fs, s', order := CopyMembers(c, s1, t, u, x);
      es := [Run(t, [], true)] + fs;
      ExecStep(c, s, Run(t, [], true), s1, fs);
    } else {
      order := MembersListed(s.hub.members, x);
      assert Unlocked(s.threads, x);
      RunGoes(c, s, t, order);
      s' := DoCopy(s, t, u, order);
      es := OneRun(c, s, t, order, s');
    }
  }

  /** A member is among those that are copied, and nobody else of its id is. */
  lemma CopiedClear(s: State, k: Key, r: nat, u: nat, order: seq<nat>)
    requires Inv(s) && k in s.hub.members && s.hub.members[k] == r && ListsMembers(s.hub.members, k.symbol, order)
    ensures r < |s.subs| && r in order && Clear(s, Visit(u, order), r, k.symbol)
  {
    hide *;
    OfMember(s, k);
    ListedMember(s.hub.members, k, order);
    forall q | q in order && q < |s.subs| && q != r
      ensures s.subs[q].id != s.subs[r].id
    {
      ListedKey(s, k.symbol, order, q);
    }
    ClearOf(s, u, order, r, k.symbol);
  }

  lemma ListedMember(members: map<Key, nat>, k: Key, order: seq<nat>)
    requires ListsMembers(members, k.symbol, order) && k in members
    ensures members[k] in order
  {
  }

  lemma ClearOf(s: State, u: nat, order: seq<nat>, r: nat, x: string)
    requires r < |s.subs| && forall q :: q in order && q < |s.subs| && q != r ==> s.subs[q].id != s.subs[r].id
    ensures Clear(s, Visit(u, order), r, x)
  {
  }

  lemma ListedKey(s: State, symbol: string, order: seq<nat>, q: nat)
    requires Inv(s) && ListsMembers(s.hub.members, symbol, order) && q in order
    ensures q < |s.subs| && Key(symbol, s.subs[q].id) in s.hub.members && s.hub.members[Key(symbol, s.subs[q].id)] == q
  {
    hide Inv;
    var i :| 0 <= i < |order| && order[i] == q;
    assert IsMember(s.hub.members, symbol, order[i]);
    MemberKey(s, symbol, q);
  }
}
