/** What one step of the relay can change, seen part by part. */
module RelayEffects {
  import opened Relay
  import opened RelayInvariant
  import opened RelaySteps

  /** The action that an event performs: the next step of a thread, or none. */
  function Acting(s: State, e: Event): Thread {
    if e.Run? && e.thread < |s.threads| then s.threads[e.thread] else Done
  }

  /** The copied members that a publishing thread has not finished with. */
  function Named(pc: Thread): seq<nat> {
    if pc.Visit? || pc.Send? || pc.Drop? || pc.Tally? || pc.Check? then pc.rest
    else if (pc.Leave? || pc.Mark? || pc.Close?) && pc.next.Resume? then pc.next.rest
    else []
  }

  ghost predicate Held(members: map<Key, nat>, r: nat) { exists k :: k in members && members[k] == r }

  function Head(pc: Thread): Option<nat> {
    if (pc.Send? || pc.Drop? || pc.Tally? || pc.Check?) && pc.rest != [] then Some(pc.rest[0]) else None
  }

  /** What action `pc` can change of subscriber `r`. */
  ghost predicate SubEffect(s: State, pc: Thread, r: nat, a: Sub, b: Sub) {
    && b.id == a.id && b.stream == a.stream
    && JoinEffect(s.feed.copied, pc, r, a.past, b.past)
    && SnapEffect(s.feed, pc, r, a.past, b.past)
    && (b.past.offers == a.past.offers || (pc.Send? && Head(pc) == Some(r) && exists ok ::
                                           b.past.offers == a.past.offers + [Offer(pc.update, ok)]))
    && (b.dropped == a.dropped || (pc.Drop? && Head(pc) == Some(r)))
    && (a.flag ==> b.flag) && (b.flag ==> a.flag || Held(s.hub.members, r))
    && (pc.Mark? && pc.key in s.hub.members && s.hub.members[pc.key] == r ==> b.flag)
    && (a.closed ==> b.closed) && (b.closed ==> a.closed || (pc.Close? && pc.sub == r))
  }

  ghost predicate JoinEffect(copied: set<nat>, pc: Thread, r: nat, a: Past, b: Past) {
    if pc.Insert? && pc.sub == r then b.joins == a.joins + 1 && b.topic == Some(pc.symbol) && b.before == copied
    else b.joins == a.joins && b.topic == a.topic && b.before == a.before
  }

  ghost predicate SnapEffect(f: Feed, pc: Thread, r: nat, a: Past, b: Past) {
    if pc.Snapshot? && pc.sub == r then b.snapAt == Some(|f.writes|) &&
      (pc.symbol in f.cache ==> b.snap == Some(f.cache[pc.symbol]))
    else b.snapAt == a.snapAt && b.snap == a.snap
  }

  ghost predicate SubsEffect(s: State, pc: Thread, subs: seq<Sub>) {
    && |s.subs| <= |subs|
    && (forall r :: 0 <= r < |s.subs| ==> SubEffect(s, pc, r, s.subs[r], subs[r]))
    && (forall r :: |s.subs| <= r < |subs| ==> subs[r] == NewSub(subs[r].id, subs[r].stream))
  }

  ghost predicate MembersEffect(s: State, pc: Thread, members: map<Key, nat>) {
    if pc.Insert? && pc.sub < |s.subs| then members == s.hub.members[Key(pc.symbol, s.subs[pc.sub].id) := pc.sub]
    else if pc.Close? then members == s.hub.members - {pc.key}
    else members == s.hub.members
  }

  ghost predicate FeedEffect(f: Feed, pc: Thread, f': Feed) {
    && |f.updates| <= |f'.updates|
    && (forall u :: 0 <= u < |f.updates| ==>
          f'.updates[u].symbol == f.updates[u].symbol &&
          f'.updates[u].owner == f.updates[u].owner)
    && (forall u :: 0 <= u < |f.updates| ==> f.updates[u].book.Some? == f'.updates[u].book.Some?)
    && (forall u :: 0 <= u < |f.updates| && f.updates[u].book.Some? ==>
        f'.updates[u].book.value.symbol == f.updates[u].book.value.symbol)
    && f.copied <= f'.copied && (forall u :: u in f'.copied && u !in f.copied ==> Current(pc) == Some(u))
    && (if pc.Write? && pc.update < |f.updates| && f.updates[pc.update].book.Some?
        then f'.writes == f.writes + [pc.update] &&
          f'.cache == f.cache[f.updates[pc.update].book.value.symbol := pc.update]
        else f'.writes == f.writes && f'.cache.Keys <= f.cache.Keys && forall x ::
          x in f'.cache ==> f'.cache[x] == f.cache[x])
  }

  /** A thread goes on with its update and with members it already has, except that Publish copies them. */
  ghost predicate GoesOn(s: State, pc: Thread, pc': Thread) {
    && (Current(pc') == None || Current(pc') == Current(pc))
    && (pc.Copy? ==> pc'.Visit? && pc.update < |s.feed.updates| && Distinct(pc'.rest))
    && (pc.Copy? ==> forall q :: q in Named(pc') ==> IsMember(s.hub.members, s.feed.updates[pc.update].symbol, q))
    && (!pc.Copy? ==> Shortens(Named(pc), Named(pc')) && Shortens(Pending(pc), Pending(pc')))
    && (BeforeCopy(pc') ==> BeforeCopy(pc))
    && (pc'.Enroll? || pc'.Snapshot? || pc'.Drain? ==>
          (pc.Insert? || pc.Enroll? || pc.Snapshot? || pc.Drain?) && pc.symbol == pc'.symbol && pc.sub == pc'.sub &&
            (pc.Insert? ==> pc'.Enroll?))
    && (pc.Insert? ==> pc' == Enroll(pc.symbol, pc.sub))
    && (pc'.Send? && Head(pc').Some? ==>
          pc == Visit(pc'.update, pc'.rest) && Head(pc').value < |s.subs| &&
          !s.subs[Head(pc').value].flag)
    && (pc'.Insert? || pc'.Join? ==> pc.Join? && pc.symbol == pc'.symbol && pc.sub == pc'.sub)
    && (pc.Close? ==> !pc'.Close?)
    && (pc'.Drop? ==> pc == Send(pc'.update, pc'.rest))
    && (pc'.Mark? ==> pc == Leave(pc'.key, pc'.next))
    && (pc'.Close? ==> pc == Mark(pc'.key, pc'.next))
    && (pc'.Leave? && pc'.next.Resume? ==> Removes(s, pc, pc'.key, pc'.next))
  }

  /** A publisher that has counted a drop goes to remove the first of its members, under the topic and its id. */
  ghost predicate Removes(s: State, pc: Thread, key: Key, next: Next) {
    && pc.Check? && pc.rest != [] && next == Resume(pc.update, pc.rest[1..])
    && pc.update < |s.feed.updates| && pc.rest[0] < |s.subs|
    && key == Key(s.feed.updates[pc.update].symbol, s.subs[pc.rest[0]].id)
  }

  /** Nothing is left of a list, or all of it, or all but its first. */
  ghost predicate Shortens(a: seq<nat>, b: seq<nat>) {
    b == [] || b == a || (a != [] && b == a[1..])
  }

  lemma ShortensMembers(a: seq<nat>, b: seq<nat>)
    requires Shortens(a, b)
    ensures forall q :: q in b ==> q in a
    ensures Distinct(a) ==> Distinct(b)
  {
    if a != [] && b == a[1..] {
      assert forall i :: 0 <= i < |b| ==> b[i] == a[i + 1];
    }
  }

  ghost predicate ThreadsEffect(s: State, e: Event, s': State) {
    && |s.threads| <= |s'.threads| <= |s.threads| + 1
    && (forall t :: 0 <= t < |s.threads| && !(e.Run? && e.thread == t) ==> s'.threads[t] == s.threads[t])
    && (e.Run? && e.thread < |s.threads| ==>
          |s'.threads| == |s.threads| &&
          GoesOn(s, s.threads[e.thread], s'.threads[e.thread]))
    && (|s'.threads| > |s.threads| ==>
          var pc := s'.threads[|s.threads|];
          && (pc.Write? || pc.Join? || pc.Close? || (pc.Leave? && pc.next.End?))
          && (pc.Write? <==> e.OnData?) && (pc.Write? ==>
                                            pc.update == |s.feed.updates| && |s'.feed.updates| == |s.feed.updates| + 1)
          && (pc.Write? ==> s'.feed.updates[pc.update].symbol == e.symbol && s'.feed.updates[pc.update].book == e.book)
          && (pc.Join? ==> e.Subscribe? || (e.Stream? && pc.sub == |s.subs| && |s'.subs| == |s.subs| + 1 &&
                                            s'.subs[pc.sub].stream.Some?))
          && (pc.Close? ==>
                e.Sweep? && pc.next.End? && pc.key == e.key && e.key in s.hub.members &&
                pc.sub == s.hub.members[e.key]))
    && (e.OnData? ==> |s'.threads| == |s.threads| + 1) && (!e.OnData? ==> |s'.feed.updates| == |s.feed.updates|)
  }

  ghost predicate Effect(s: State, e: Event, s': State) {
    && SubsEffect(s, Acting(s, e), s'.subs)
    && MembersEffect(s, Acting(s, e), s'.hub.members)
    && FeedEffect(s.feed, Acting(s, e), s'.feed)
    && ThreadsEffect(s, e, s')
  }

  // ---------------------------------------------------------------- every step has these effects

  /** One subscriber is replaced, by a step that touches nothing but it, the hub and the thread. */
  lemma OneSubEffect(s: State, pc: Thread, r: nat, sub: Sub)
    requires r < |s.subs| && SubEffect(s, pc, r, s.subs[r], sub)
    requires forall q :: 0 <= q < |s.subs| && q != r ==> SubEffect(s, pc, q, s.subs[q], s.subs[q])
    ensures SubsEffect(s, pc, s.subs[r := sub])
  {
    hide SubEffect;
  }

  ghost predicate NoSpecial(pc: Thread) { !pc.Insert? && !pc.Snapshot? && !pc.Mark? && !pc.Close? && !pc.Write? }

  /** A step that moves a thread on and changes counters or topics at most. */
  lemma MoveEffect(s: State, e: Event, s': State)
    requires e.Run? && e.thread < |s.threads| && NoSpecial(s.threads[e.thread])
    requires s'.feed == s.feed && s'.subs == s.subs && s'.hub.members == s.hub.members
    requires |s'.threads| == |s.threads| && s'.threads == s.threads[e.thread := s'.threads[e.thread]]
    requires GoesOn(s, s.threads[e.thread], s'.threads[e.thread])
    ensures Effect(s, e, s')
  {
    hide GoesOn, Held;
  }

  /** A step that also replaces one subscriber. */
  lemma PutEffect(s: State, e: Event, s': State, r: nat)
    requires e.Run? && e.thread < |s.threads| && r < |s.subs| && |s'.subs| == |s.subs|
    requires s'.feed == s.feed && MembersEffect(s, s.threads[e.thread], s'.hub.members)
    requires !s.threads[e.thread].Write?
    requires s'.subs == s.subs[r := s'.subs[r]] && SubEffect(s, s.threads[e.thread], r, s.subs[r], s'.subs[r])
    requires forall q :: 0 <= q < |s.subs| && q != r ==> SubEffect(s, s.threads[e.thread], q, s.subs[q], s.subs[q])
    requires |s'.threads| == |s.threads| && s'.threads == s.threads[e.thread := s'.threads[e.thread]]
    requires GoesOn(s, s.threads[e.thread], s'.threads[e.thread])
    ensures Effect(s, e, s')
  {
    hide GoesOn, SubEffect, MembersEffect;
    OneSubEffect(s, s.threads[e.thread], r, s'.subs[r]);
  }

  /** A thread that stays with its update and with part of its members. */
  lemma GoesOnPublishing(s: State, pc: Thread, pc': Thread)
    requires !pc.Copy? && !pc.Insert? && (pc.Close? ==> !pc'.Close?)
    requires pc'.Drop? ==> pc == Send(pc'.update, pc'.rest)
    requires (pc'.Mark? ==> pc == Leave(pc'.key, pc'.next)) && (pc'.Close? ==> pc == Mark(pc'.key, pc'.next))
    requires pc'.Leave? && pc'.next.Resume? ==> Removes(s, pc, pc'.key, pc'.next)
    requires pc'.Done? || pc'.Visit? || pc'.Drop? || pc'.Tally? || pc'.Check? || pc'.Leave? || pc'.Mark? || pc'.Close?
    requires Current(pc') == None || Current(pc') == Current(pc)
    requires Shortens(Named(pc), Named(pc')) && Shortens(Pending(pc), Pending(pc'))
    ensures GoesOn(s, pc, pc')
  {
  }

  /** A step of a thread, in terms of the thread. */
  lemma OfRun(c: Config, s: State, e: Event)
    requires e.Run? && e.thread < |s.threads| && Inv(s) && WellFormed(s) && Enabled(s, e)
    ensures Step(c, s, e) == RunThread(c, s, e.thread, e.order, e.ok)
    ensures InRange(|s.feed.updates|, |s.subs|, s.threads[e.thread]) && Runnable(s, s.threads[e.thread], e.order)
  {
    hide Inv, RunThread, InRange, Runnable;
    OfThread(s, e.thread);
  }

  /** The steps of a publisher that has counted a drop, or is about to. */
  lemma RemovalStep(c: Config, s: State, e: Event)
    requires e.Run? && e.thread < |s.threads| && Inv(s) && WellFormed(s) && Enabled(s, e)
    ensures InRange(|s.feed.updates|, |s.subs|, s.threads[e.thread])
    ensures var t, pc := e.thread, s.threads[e.thread];
            && (pc.Drop? ==>
                  pc.rest != [] && pc.rest[0] < |s.subs| &&
                  Step(c, s, e) == DoDrop(s, t, pc.update, pc.rest))
            && (pc.Tally? ==> Step(c, s, e) == DoTally(s, t, pc.update, pc.rest))
            && (pc.Check? ==> pc.rest != [] && pc.rest[0] < |s.subs| && pc.update < |s.feed.updates|
                              && Step(c, s, e) == DoCheck(c, s, t, pc.update, pc.rest))
            && (pc.Leave? ==> Step(c, s, e) == DoLeave(s, t, pc.key, pc.next))
            && (pc.Mark? ==>
                  (pc.key in s.hub.members ==> s.hub.members[pc.key] < |s.subs|) &&
                  Step(c, s, e) == DoMark(s, t, pc.key, pc.next))
  {
    hide Inv, WellFormed, Enabled, Step, Runnable, DoDrop, DoTally, DoCheck, DoLeave, DoMark;
    OfRun(c, s, e);
    if s.threads[e.thread].Mark? && s.threads[e.thread].key in s.hub.members {
      OfMember(s, s.threads[e.thread].key);
    }
  }

  lemma VisitEffect(s: State, e: Event)
    requires e.Run? && e.thread < |s.threads| && s.threads[e.thread].Visit?
    requires InRange(|s.feed.updates|, |s.subs|, s.threads[e.thread])
    ensures s.threads[e.thread].rest != [] ==> s.threads[e.thread].rest[0] < |s.subs|
    ensures Effect(s, e, DoVisit(s, e.thread, s.threads[e.thread].update, s.threads[e.thread].rest))
  {
    hide Effect, GoesOn;
    var pc, s' := s.threads[e.thread], DoVisit(s, e.thread, s.threads[e.thread].update, s.threads[e.thread].rest);
    if s'.threads[e.thread].Send? {
      SendGoesOn(s, pc, s'.threads[e.thread]);
    } else {
      GoesOnPublishing(s, pc, s'.threads[e.thread]);
    }
    MoveEffect(s, e, s');
  }

  lemma TallyEffect(s: State, e: Event)
    requires e.Run? && e.thread < |s.threads| && s.threads[e.thread].Tally?
    ensures Effect(s, e, DoTally(s, e.thread, s.threads[e.thread].update, s.threads[e.thread].rest))
  {
    hide Effect, GoesOn;
    var pc, s' := s.threads[e.thread], DoTally(s, e.thread, s.threads[e.thread].update, s.threads[e.thread].rest);
    GoesOnPublishing(s, pc, s'.threads[e.thread]);
    MoveEffect(s, e, s');
  }

  lemma CheckEffect(c: Config, s: State, e: Event)
    requires e.Run? && e.thread < |s.threads| && s.threads[e.thread].Check?
    requires InRange(|s.feed.updates|, |s.subs|, s.threads[e.thread])
    ensures s.threads[e.thread].rest != [] && s.threads[e.thread].rest[0] < |s.subs|
    ensures Effect(s, e, DoCheck(c, s, e.thread, s.threads[e.thread].update, s.threads[e.thread].rest))
  {
    hide Effect, GoesOn;
    var pc, s' := s.threads[e.thread], DoCheck(c, s, e.thread, s.threads[e.thread].update, s.threads[e.thread].rest);
    GoesOnPublishing(s, pc, s'.threads[e.thread]);
    MoveEffect(s, e, s');
  }

  lemma LeaveEffect(s: State, e: Event)
    requires e.Run? && e.thread < |s.threads| && s.threads[e.thread].Leave?
    ensures Effect(s, e, DoLeave(s, e.thread, s.threads[e.thread].key, s.threads[e.thread].next))
  {
    hide Effect, GoesOn;
    var pc, s' := s.threads[e.thread], DoLeave(s, e.thread, s.threads[e.thread].key, s.threads[e.thread].next);
    GoesOnPublishing(s, pc, s'.threads[e.thread]);
    MoveEffect(s, e, s');
  }

  lemma PublishEffects(c: Config, s: State, e: Event)
    requires e.Run? && e.thread < |s.threads|
    requires var pc := s.threads[e.thread]; pc.Visit? || pc.Tally? || pc.Check? || pc.Leave?
    requires Inv(s) && WellFormed(s) && Enabled(s, e)
    ensures Effect(s, e, Step(c, s, e))
  {
    hide Inv, WellFormed, Enabled, Step, Effect, DoVisit, DoTally, DoCheck, DoLeave, Runnable;
    OfRun(c, s, e);
    match s.threads[e.thread]
    case Visit(_, _) => VisitEffect(s, e);
    case Tally(_, _) => TallyEffect(s, e);
    case Check(_, _) => CheckEffect(c, s, e);
    case Leave(_, _) => LeaveEffect(s, e);
    case _ =>
  }

  lemma SendGoesOn(s: State, pc: Thread, pc': Thread)
    requires pc.Visit? && pc' == Send(pc.update, pc.rest)
    requires Head(pc').Some? ==> Head(pc').value < |s.subs| && !s.subs[Head(pc').value].flag
    ensures GoesOn(s, pc, pc')
  {
  }

  lemma OfferEffect(s: State, pc: Thread, r: nat, a: Sub, b: Sub)
    requires pc.Send? && Head(pc) == Some(r)
    requires exists ok :: b == AfterOffer(a, pc.update, ok)
    ensures SubEffect(s, pc, r, a, b)
  {
    var ok :| b == AfterOffer(a, pc.update, ok);
    assert b.past.offers == a.past.offers + [Offer(pc.update, ok)];
  }

  lemma NoEffect(s: State, pc: Thread, r: nat, a: Sub)
    requires !(pc.Insert? && pc.sub == r) && !(pc.Snapshot? && pc.sub == r)
    requires pc.Mark? && pc.key in s.hub.members && s.hub.members[pc.key] == r ==> a.flag
    ensures SubEffect(s, pc, r, a, a)
  {
  }

  lemma SendEffects(c: Config, s: State, e: Event)
    requires e.Run? && e.thread < |s.threads| && s.threads[e.thread].Send?
    requires Inv(s) && WellFormed(s) && Enabled(s, e) && Step(c, s, e).status == s.status
    ensures Effect(s, e, Step(c, s, e))
  {
    hide Inv, Effect, SubEffect;
    OfThread(s, e.thread);
    var pc, s' := s.threads[e.thread], Step(c, s, e);
    hide WellFormed, FeedThreadOk, PublisherOk, GoesOn;
    var r := pc.rest[0];
    assert s'.subs[r] == AfterOffer(s.subs[r], pc.update, |s.subs[r].queue| < c.bufferSize);
    OfferEffect(s, pc, r, s.subs[r], s'.subs[r]);
    GoesOnPublishing(s, pc, s'.threads[e.thread]);
    forall q | 0 <= q < |s.subs| && q != r
      ensures SubEffect(s, pc, q, s.subs[q], s.subs[q])
    {
      NoEffect(s, pc, q, s.subs[q]);
    }
    PutEffect(s, e, s', r);
  }

  lemma DropEffects(c: Config, s: State, e: Event)
    requires e.Run? && e.thread < |s.threads| && s.threads[e.thread].Drop?
    requires Inv(s) && WellFormed(s) && Enabled(s, e) && Step(c, s, e).status == s.status
    ensures Effect(s, e, Step(c, s, e))
  {
    hide Inv, Effect;
    OfThread(s, e.thread);
    var pc, s' := s.threads[e.thread], Step(c, s, e);
    hide WellFormed, FeedThreadOk, PublisherOk, GoesOn, Held;
    var r := pc.rest[0];
    assert SubEffect(s, pc, r, s.subs[r], s'.subs[r]);
    hide SubEffect;
    GoesOnPublishing(s, pc, s'.threads[e.thread]);
    forall q | 0 <= q < |s.subs| && q != r
      ensures SubEffect(s, pc, q, s.subs[q], s.subs[q])
    {
      NoEffect(s, pc, q, s.subs[q]);
    }
    PutEffect(s, e, s', r);
  }

  lemma WriteEffects(c: Config, s: State, e: Event)
    requires e.Run? && e.thread < |s.threads| && s.threads[e.thread].Write?
    requires Inv(s) && WellFormed(s) && Enabled(s, e)
    ensures Effect(s, e, Step(c, s, e))
  {
    hide Inv, WellFormed, Enabled, Step, Effect, DoWrite, Runnable;
    OfRun(c, s, e);
    WriteEffect(c, s, e);
  }

  lemma WriteEffect(c: Config, s: State, e: Event)
    requires e.Run? && e.thread < |s.threads| && s.threads[e.thread].Write?
    requires s.threads[e.thread].update < |s.feed.updates|
    ensures Effect(s, e, DoWrite(c, s, e.thread, s.threads[e.thread].update))
  {
    hide Held;
    GoesOnToLookup(s, s.threads[e.thread].update);
    hide GoesOn;
  }

  lemma GoesOnToLookup(s: State, u: nat)
    ensures GoesOn(s, Write(u), Lookup(u))
  {
  }

  lemma CopyEffects(c: Config, s: State, e: Event)
    requires e.Run? && e.thread < |s.threads| && (s.threads[e.thread].Copy? || s.threads[e.thread].Lookup?)
    requires Inv(s) && WellFormed(s) && Enabled(s, e)
    ensures Effect(s, e, Step(c, s, e))
  {
    hide Inv, WellFormed, Enabled, Step, Effect, DoLookup, DoCopy, Runnable;
    OfRun(c, s, e);
    CopyEffect(s, e);
  }

  lemma CopyEffect(s: State, e: Event)
    requires e.Run? && e.thread < |s.threads| && Runnable(s, s.threads[e.thread], e.order)
    requires (s.threads[e.thread].Copy? || s.threads[e.thread].Lookup?) && s.threads[e.thread].update < |s.feed.updates|
    ensures var t, pc := e.thread, s.threads[e.thread];
            Effect(s, e, if pc.Copy? then DoCopy(s, t, pc.update, e.order) else DoLookup(s, t, pc.update))
  {
    hide Held, IsMember;
    var t, pc := e.thread, s.threads[e.thread];
    var s' := if pc.Copy? then DoCopy(s, t, pc.update, e.order) else DoLookup(s, t, pc.update);
    CopyGoesOn(s, pc, e.order, s'.threads[t]);
    hide GoesOn, Runnable;
  }

  lemma CopyGoesOn(s: State, pc: Thread, order: seq<nat>, pc': Thread)
    requires Runnable(s, pc, order)
    requires (pc.Lookup? && (pc' == Copy(pc.update) || pc'.Done?)) || (pc.Copy? && pc' == Visit(pc.update, order))
    ensures GoesOn(s, pc, pc')
  {
    if pc.Copy? {
      forall q | q in order
        ensures IsMember(s.hub.members, s.feed.updates[pc.update].symbol, q)
      {
        var i :| 0 <= i < |order| && order[i] == q;
        assert IsMember(s.hub.members, s.feed.updates[pc.update].symbol, order[i]);
      }
    }
  }

  lemma MarkEffects(c: Config, s: State, e: Event)
    requires e.Run? && e.thread < |s.threads| && s.threads[e.thread].Mark?
    requires Inv(s) && WellFormed(s) && Enabled(s, e) && Step(c, s, e).status == s.status
    ensures Effect(s, e, Step(c, s, e))
  {
    hide Inv, Effect, SubEffect;
    OfThread(s, e.thread);
    var pc, s' := s.threads[e.thread], Step(c, s, e);
    forall q | 0 <= q < |s.subs| && (pc.key in s.hub.members ==> q != s.hub.members[pc.key])
      ensures SubEffect(s, pc, q, s.subs[q], s.subs[q])
    {
      NoEffect(s, pc, q, s.subs[q]);
    }
    if pc.key in s.hub.members {
      OfMember(s, pc.key);
      MarkGoesOn(s, pc, s'.threads[e.thread]);
      FlagEffect(s, pc, s.hub.members[pc.key]);
      hide WellFormed, FeedThreadOk, PublisherOk, GoesOn;
      PutEffect(s, e, s', s.hub.members[pc.key]);
    } else {
      MarkGoesOn(s, pc, s'.threads[e.thread]);
      hide WellFormed, FeedThreadOk, PublisherOk, GoesOn;
      UnmarkedEffect(s, e, s');
    }
  }

  lemma MarkGoesOn(s: State, pc: Thread, pc': Thread)
    requires pc.Mark? && (pc' == After(pc.next) || (pc'.Close? && pc'.key == pc.key && pc'.next == pc.next))
    ensures GoesOn(s, pc, pc')
  {
    GoesOnPublishing(s, pc, pc');
  }

  lemma FlagEffect(s: State, pc: Thread, r: nat)
    requires pc.Mark? && pc.key in s.hub.members && s.hub.members[pc.key] == r && r < |s.subs|
    ensures SubEffect(s, pc, r, s.subs[r], s.subs[r].(flag := true))
  {
  }

  lemma UnmarkedEffect(s: State, e: Event, s': State)
    requires e.Run? && e.thread < |s.threads| && s.threads[e.thread].Mark? && s.threads[e.thread].key !in s.hub.members
    requires s'.feed == s.feed && s'.subs == s.subs && s'.hub == s.hub
    requires |s'.threads| == |s.threads| && s'.threads == s.threads[e.thread := s'.threads[e.thread]]
    requires GoesOn(s, s.threads[e.thread], s'.threads[e.thread])
    ensures Effect(s, e, s')
  {
    hide GoesOn, Held;
  }

  lemma CloseEffects(c: Config, s: State, e: Event)
    requires e.Run? && e.thread < |s.threads| && s.threads[e.thread].Close?
    requires Inv(s) && WellFormed(s) && Enabled(s, e) && Step(c, s, e).status == s.status
    ensures Effect(s, e, Step(c, s, e))
  {
    hide Inv, Effect;
    OfThread(s, e.thread);
    var pc, s' := s.threads[e.thread], Step(c, s, e);
    hide WellFormed, FeedThreadOk, PublisherOk, GoesOn, Held;
    assert SubEffect(s, pc, pc.sub, s.subs[pc.sub], s'.subs[pc.sub]);
    hide SubEffect;
    GoesOnPublishing(s, pc, s'.threads[e.thread]);
    forall q | 0 <= q < |s.subs| && q != pc.sub
      ensures SubEffect(s, pc, q, s.subs[q], s.subs[q])
    {
      NoEffect(s, pc, q, s.subs[q]);
    }
    PutEffect(s, e, s', pc.sub);
  }

  lemma JoinEffects(c: Config, s: State, e: Event)
    requires e.Run? && e.thread < |s.threads| && (s.threads[e.thread].Join? || s.threads[e.thread].Enroll?)
    requires Inv(s) && WellFormed(s) && Enabled(s, e) && Step(c, s, e).status == s.status
    ensures Effect(s, e, Step(c, s, e))
  {
    hide Inv, Effect;
    OfThread(s, e.thread);
    hide WellFormed, Held;
    assert GoesOn(s, s.threads[e.thread], Step(c, s, e).threads[e.thread]);
    hide GoesOn;
    MoveEffect(s, e, Step(c, s, e));
  }

  lemma InsertEffects(c: Config, s: State, e: Event)
    requires e.Run? && e.thread < |s.threads| && s.threads[e.thread].Insert?
    requires Inv(s) && WellFormed(s) && Enabled(s, e) && Step(c, s, e).status == s.status
    ensures Effect(s, e, Step(c, s, e))
  {
    hide Inv, Effect;
    OfThread(s, e.thread);
    var pc, s' := s.threads[e.thread], Step(c, s, e);
    hide WellFormed, FeedThreadOk, PublisherOk, Held;
    assert GoesOn(s, pc, s'.threads[e.thread]);
    hide GoesOn;
    assert SubEffect(s, pc, pc.sub, s.subs[pc.sub], s'.subs[pc.sub]);
    hide SubEffect;
    forall q | 0 <= q < |s.subs| && q != pc.sub
      ensures SubEffect(s, pc, q, s.subs[q], s.subs[q])
    {
      NoEffect(s, pc, q, s.subs[q]);
    }
    PutEffect(s, e, s', pc.sub);
  }

  lemma ClientGoesOn(s: State, pc: Thread, pc': Thread)
    requires pc.Snapshot? || pc.Drain?
    requires pc' == Drain(pc.symbol, pc.sub) || (pc'.Leave? && pc'.next.End?)
    ensures GoesOn(s, pc, pc')
  {
  }

  lemma SnapshotEffects(c: Config, s: State, e: Event)
    requires e.Run? && e.thread < |s.threads| && s.threads[e.thread].Snapshot?
    requires Inv(s) && WellFormed(s) && Enabled(s, e) && Step(c, s, e).status == s.status
    ensures Effect(s, e, Step(c, s, e))
  {
    hide Inv, Effect;
    OfThread(s, e.thread);
    var pc, s' := s.threads[e.thread], Step(c, s, e);
    ClientGoesOn(s, pc, s'.threads[e.thread]);
    hide FeedThreadOk, PublisherOk, Held, GoesOn;
    ClientPut(s, e, s');
  }

  /** A client thread replaces its subscriber and leaves the subscriber's counters and flags alone. */
  lemma ClientPut(s: State, e: Event, s': State)
    requires e.Run? && e.thread < |s.threads| && (s.threads[e.thread].Snapshot? || s.threads[e.thread].Drain?)
    requires var r := s.threads[e.thread].sub;
             && r < |s.subs| && |s'.subs| == |s.subs| && s'.subs == s.subs[r := s'.subs[r]]
             && s'.subs[r] == s.subs[r].(queue := s'.subs[r].queue, past := s'.subs[r].past)
             && s'.subs[r].past.offers == s.subs[r].past.offers
             && JoinEffect(s.feed.copied, s.threads[e.thread], r, s.subs[r].past, s'.subs[r].past)
             && SnapEffect(s.feed, s.threads[e.thread], r, s.subs[r].past, s'.subs[r].past)
    requires s'.feed == s.feed && s'.hub == s.hub
    requires |s'.threads| == |s.threads| && s'.threads == s.threads[e.thread := s'.threads[e.thread]]
    requires GoesOn(s, s.threads[e.thread], s'.threads[e.thread])
    ensures Effect(s, e, s')
  {
    hide GoesOn, Effect, Held;
    var pc := s.threads[e.thread];
    assert SubEffect(s, pc, pc.sub, s.subs[pc.sub], s'.subs[pc.sub]);
    hide SubEffect;
    forall q | 0 <= q < |s.subs| && q != pc.sub
      ensures SubEffect(s, pc, q, s.subs[q], s.subs[q])
    {
      NoEffect(s, pc, q, s.subs[q]);
    }
    PutEffect(s, e, s', pc.sub);
  }

  lemma DrainEffects(c: Config, s: State, e: Event)
    requires e.Run? && e.thread < |s.threads| && s.threads[e.thread].Drain?
    requires Inv(s) && WellFormed(s) && Enabled(s, e) && Step(c, s, e).status == s.status
    ensures Effect(s, e, Step(c, s, e))
  {
    hide Inv, Effect;
    OfThread(s, e.thread);
    var pc, s' := s.threads[e.thread], Step(c, s, e);
    ClientGoesOn(s, pc, s'.threads[e.thread]);
    hide FeedThreadOk, PublisherOk, Held, GoesOn;
    if s.subs[pc.sub].queue == [] {
      MoveEffect(s, e, s');
    } else {
      OfSub(s, pc.sub);
      hide SubOk;
      ClientPut(s, e, s');
    }
  }

  lemma CallEffects(c: Config, s: State, e: Event)
    requires !e.Run? && Inv(s) && WellFormed(s) && Enabled(s, e)
    ensures Effect(s, e, Step(c, s, e))
  {
    hide Inv, WellFormed, Effect;
    if e.Sweep? {
      OfMember(s, e.key);
      SweepEffect(s, e);
    } else if e.Receive? {
      ReceiveEffect(s, e);
    } else if e.OnData? {
      OnDataEffect(s, e);
    } else {
      assert Unchanging(s, e, Step(c, s, e));
      hide Step;
      BeginEffect(s, e, Step(c, s, e));
    }
  }

  lemma SweepEffect(s: State, e: Event)
    requires e.Sweep? && e.key in s.hub.members && s.hub.members[e.key] < |s.subs|
    ensures var r := s.hub.members[e.key];
            Effect(s, e, Spawn(s.(subs := s.subs[r := s.subs[r].(flag := true)]), Close(e.key, r, End)))
  {
  }

  lemma ReceiveEffect(s: State, e: Event)
    requires e.Receive? && e.sub < |s.subs| && s.subs[e.sub].queue != []
    ensures Effect(s, e, s.(subs := s.subs[e.sub := Take(s.subs[e.sub])]))
  {
    hide Held;
  }

  lemma OnDataEffect(s: State, e: Event)
    requires e.OnData?
    ensures Effect(s, e, Spawn(s.(feed := s.feed.(updates := s.feed.updates + [Update(e.symbol, e.book, |s.threads|)])),
                               Write(|s.feed.updates|)))
  {
    hide Held;
  }

  /** A call that begins adds a thread or a subscriber, or takes a book from the cache. */
  ghost predicate Unchanging(s: State, e: Event, s': State) {
    && s'.hub == s.hub && s'.feed.updates == s.feed.updates && s'.feed.writes == s.feed.writes &&
      s'.feed.copied == s.feed.copied
    && s'.feed.cache.Keys <= s.feed.cache.Keys &&
      (forall x :: x in s'.feed.cache ==> s'.feed.cache[x] == s.feed.cache[x])
    && (s'.subs == s.subs || exists id, stream :: s'.subs == s.subs + [NewSub(id, stream)])
    && (s'.threads == s.threads || (|s'.threads| == |s.threads| + 1 &&
                                    s'.threads == s.threads + [s'.threads[|s.threads|]]))
    && (|s'.threads| > |s.threads| ==> Begins(s, e, s', s'.threads[|s.threads|]))
  }

  ghost predicate Begins(s: State, e: Event, s': State, pc: Thread) {
    || (e.Subscribe? && pc.Join?) || (e.Unsubscribe? && pc == Leave(e.key, End))
    || (e.Stream? && pc == Join(e.symbol, |s.subs|) && |s'.subs| == |s.subs| + 1 && s'.subs[|s.subs|].stream.Some?)
  }

  lemma BeginEffect(s: State, e: Event, s': State)
    requires !e.Run? && !e.OnData? && Unchanging(s, e, s')
    ensures Effect(s, e, s')
  {
    hide Held;
  }

  lemma StepEffects(c: Config, s: State, e: Event)
    requires Inv(s) && WellFormed(s) && Enabled(s, e) && Step(c, s, e).status == s.status
    ensures Effect(s, e, Step(c, s, e))
  {
    hide Inv, WellFormed, Effect, Step;
    if !e.Run? {
      CallEffects(c, s, e);
    } else {
      match s.threads[e.thread] {
        case Write(_) => WriteEffects(c, s, e);
        case Lookup(_) => CopyEffects(c, s, e);
        case Copy(_) => CopyEffects(c, s, e);
        case Send(_, _) => SendEffects(c, s, e);
        case Drop(_, _) => DropEffects(c, s, e);
        case Mark(_, _) => MarkEffects(c, s, e);
        case Close(_, _, _) => CloseEffects(c, s, e);
        case Join(_, _) => JoinEffects(c, s, e);
        case Insert(_, _) => InsertEffects(c, s, e);
        case Enroll(_, _) => JoinEffects(c, s, e);
        case Snapshot(_, _) => SnapshotEffects(c, s, e);
        case Drain(_, _) => DrainEffects(c, s, e);
        case Done =>
        case _ => PublishEffects(c, s, e);
      }
    }
  }
}
