/** The members that a publisher has copied carry different ids, so the removal of one never reaches another. */
module RelayNames {
  import opened Relay
  import opened RelayInvariant
  import opened RelaySteps
  import opened RelayRuns
  import opened RelayEffects
  import opened RelayLifecycle
  import opened RelayOnce

  /** The members that a thread names carry different ids; a member that it removes is none of those to come. */
  ghost predicate NamesApart(f: Feed, subs: seq<Sub>, pc: Thread) {
    && Distinct(Named(pc)) && AllBelow(Named(pc), |subs|)
    && (forall i, j :: 0 <= i < j < |Named(pc)| ==> subs[Named(pc)[i]].id != subs[Named(pc)[j]].id)
    && ((pc.Leave? || pc.Mark? || pc.Close?) && pc.next.Resume? ==>
          && pc.next.update < |f.updates| && pc.key.symbol == f.updates[pc.next.update].symbol
          && forall i :: 0 <= i < |Named(pc)| ==> subs[Named(pc)[i]].id != pc.key.id)
  }

  ghost predicate NamesInv(s: State) {
    forall t :: 0 <= t < |s.threads| ==> NamesApart(s.feed, s.subs, s.threads[t])
  }

  /** Ids and symbols never change. */
  lemma NamesFrame(s: State, e: Event, s': State, pc: Thread)
    requires Effect(s, e, s') && NamesApart(s.feed, s.subs, pc)
    ensures NamesApart(s'.feed, s'.subs, pc)
  {
    hide MembersEffect, ThreadsEffect, Held, JoinEffect, SnapEffect;
    assert forall r :: 0 <= r < |s.subs| ==> SubEffect(s, Acting(s, e), r, s.subs[r], s'.subs[r]);
  }

  /** Two members of one topic have two ids. */
  lemma CopiedApart(s: State, symbol: string, order: seq<nat>)
    requires Inv(s) && Distinct(order) && forall q :: q in order ==> IsMember(s.hub.members, symbol, q)
    ensures AllBelow(order, |s.subs|)
    ensures forall i, j :: 0 <= i < j < |order| ==> s.subs[order[i]].id != s.subs[order[j]].id
  {
    hide Inv;
    forall i | 0 <= i < |order|
      ensures order[i] < |s.subs|
    {
      MemberKey(s, symbol, order[i]);
    }
    forall i, j | 0 <= i < j < |order|
      ensures s.subs[order[i]].id != s.subs[order[j]].id
    {
      MemberKey(s, symbol, order[i]);
      MemberKey(s, symbol, order[j]);
    }
  }

  /** A member of a topic lies under its own id. */
  lemma MemberKey(s: State, symbol: string, q: nat)
    requires Inv(s) && IsMember(s.hub.members, symbol, q)
    ensures q < |s.subs| && Key(symbol, s.subs[q].id) in s.hub.members && s.hub.members[Key(symbol, s.subs[q].id)] == q
  {
    hide Inv;
    var k :| k in s.hub.members && k.symbol == symbol && s.hub.members[k] == q;
    OfMember(s, k);
  }

  lemma NamesMove(s: State, pc: Thread, pc': Thread)
    requires Inv(s) && NamesApart(s.feed, s.subs, pc) && GoesOn(s, pc, pc')
    ensures NamesApart(s.feed, s.subs, pc')
  {
    if pc.Copy? {
      hide Inv;
      CopiedApart(s, s.feed.updates[pc.update].symbol, pc'.rest);
      hide GoesOn;
    } else {
      hide Inv;
      ShortensMembers(Named(pc), Named(pc'));
      ShorterApart(s.subs, Named(pc), Named(pc'));
    }
  }

  lemma ShorterApart(subs: seq<Sub>, a: seq<nat>, b: seq<nat>)
    requires Shortens(a, b) && AllBelow(a, |subs|) && forall i, j :: 0 <= i < j < |a| ==> subs[a[i]].id != subs[a[j]].id
    ensures AllBelow(b, |subs|) && forall i, j :: 0 <= i < j < |b| ==> subs[b[i]].id != subs[b[j]].id
  {
    assert forall i :: 0 <= i < |b| && b != a ==> b[i] == a[i + 1];
  }

  lemma NamesAfter(s: State, e: Event, s': State, t: nat)
    requires Inv(s) && NamesInv(s) && Effect(s, e, s') && t < |s'.threads|
    ensures NamesApart(s'.feed, s'.subs, s'.threads[t])
  {
    hide Inv, NamesApart, SubsEffect, MembersEffect, FeedEffect, GoesOn;
    if t < |s.threads| {
      assert NamesApart(s.feed, s.subs, s.threads[t]);
      if e.Run? && e.thread == t {
        NamesMove(s, s.threads[t], s'.threads[t]);
      }
      NamesFrame(s, e, s', s'.threads[t]);
    } else {
      NamesNone(s'.feed, s'.subs, s'.threads[t]);
    }
  }

  lemma NamesNone(f: Feed, subs: seq<Sub>, pc: Thread)
    requires pc.Write? || pc.Join? || ((pc.Close? || pc.Leave?) && pc.next.End?)
    ensures NamesApart(f, subs, pc)
  {
  }

  lemma NamesStep(c: Config, s: State, e: Event)
    requires Inv(s) && NamesInv(s) && WellFormed(s) && Enabled(s, e)
    ensures NamesInv(Step(c, s, e))
  {
    hide *;
    var s' := Step(c, s, e);
    if s'.status == s.status {
      StepEffects(c, s, e);
      forall t | 0 <= t < |s'.threads|
        ensures NamesApart(s'.feed, s'.subs, s'.threads[t])
      {
        NamesAfter(s, e, s', t);
      }
      NamesParts(s');
    } else {
      CallsDoNotPanic(c, s, e);
      PanicKeepsState(c, s, e.thread, e.order, e.ok);
      NamesIgnoreStatus(s, s');
    }
  }

  lemma NamesParts(s: State)
    requires forall t :: 0 <= t < |s.threads| ==> NamesApart(s.feed, s.subs, s.threads[t])
    ensures NamesInv(s)
  {
    hide NamesApart;
  }

  lemma NamesIgnoreStatus(s: State, s': State)
    requires NamesInv(s) && s' == s.(status := s'.status)
    ensures NamesInv(s')
  {
    hide NamesApart;
  }

  lemma {:induction false} NamesRun(c: Config, s: State, es: seq<Event>)
    requires Inv(s) && NamesInv(s) && Exec(c, s, es).Some?
    ensures NamesInv(Exec(c, s, es).value)
    decreases |es|
  {
    hide Inv, NamesInv, WellFormed, Enabled, Step;
    if es != [] {
      StepKeepsInv(c, s, es[0]);
      NamesStep(c, s, es[0]);
      NamesRun(c, Step(c, s, es[0]), es[1..]);
    }
  }

  lemma PendingIsNamed(s: State, pc: Thread, r: nat)
    requires NamesApart(s.feed, s.subs, pc) && r in Pending(pc)
    ensures r in Named(pc)
    ensures (pc.Drop? || pc.Tally? || pc.Check?) && pc.rest != [] ==> pc.rest[0] != r
  {
    if (pc.Drop? || pc.Tally? || pc.Check?) && pc.rest != [] {
      var i :| 0 <= i < |pc.rest[1..]| && pc.rest[1..][i] == r;
      assert pc.rest[i + 1] == r;
    }
  }

  lemma KeyApart(s: State, pc: Thread, r: nat)
    requires NamesApart(s.feed, s.subs, pc) && r in Named(pc) && (pc.Leave? || pc.Mark? || pc.Close?) && pc.next.Resume?
    ensures r < |s.subs| && pc.key.id != s.subs[r].id
  {
    var i :| 0 <= i < |Named(pc)| && Named(pc)[i] == r;
  }

  lemma IdsApart(s: State, pc: Thread, q: nat, r: nat)
    requires NamesApart(s.feed, s.subs, pc) && q in Named(pc) && r in Named(pc) && q != r
    ensures q < |s.subs| && r < |s.subs| && s.subs[q].id != s.subs[r].id
  {
    var i :| 0 <= i < |Named(pc)| && Named(pc)[i] == q;
    var j :| 0 <= j < |Named(pc)| && Named(pc)[j] == r;
  }
}
