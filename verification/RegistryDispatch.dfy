/** Dispatching a message while subscriptions are removed: exactly which removals make a dispatch send to a closed
    channel, which panics. */
module RegistryDispatch {
  import opened SubscriptionKeys
  import opened Registry
  import opened RegistryRuns

  // ---------------------------------------------------------------- which dispatches panic

  /** A place that the dispatch has yet to load holds a closed subscription that matches. */
  ghost predicate ClosedAhead(s: State, m: Message, list: List, i: nat)
    requires ListOk(s.arrays, list)
  {
    exists j :: i <= j < list.len && ClosedFit(s, m, s.arrays[list.base].places[j])
  }

  predicate ClosedFit(s: State, m: Message, q: nat) { q < |s.subs| && !s.subs[q].open && Fits(s, q, m) }

  /** The dispatch is about to send to a closed channel, or will come to one. */
  ghost predicate InDanger(s: State, t: nat)
    requires WellFormed(s) && t < |s.threads|
  {
    assert ThreadOk(s, s.threads[t]);
    match s.threads[t]
    case Load(m, list, i) => ClosedAhead(s, m, list, i)
    case Send(m, list, i, q) => !s.subs[q].open || ClosedAhead(s, m, list, i + 1)
    case _ => false
  }

  /** Steps of thread `t` alone. */
  function Alone(t: nat, n: nat): seq<Event> { if n == 0 then [] else [Run(t, 0)] + Alone(t, n - 1) }

  /** Run alone, the thread sends on a closed channel. */
  ghost predicate PanicsAlone(s: State, t: nat) {
    exists n: nat :: Exec(s, Alone(t, n)).Some? && Exec(s, Alone(t, n)).value.status == SentOnClosed
  }

  /** How many places a dispatch has yet to load, twice, plus its send. */
  function Left(pc: Thread): nat {
    match pc
    case Load(m, list, i) => if i <= list.len then 2 * (list.len - i) + 1 else 1
    case Send(m, list, i, q) => if i < list.len then 2 * (list.len - i) else 2
    case _ => 0
  }

  predicate Dispatching(pc: Thread) { pc.Load? || pc.Send? }

  /** One step of a dispatch: it panics exactly when it sends to a closed channel; otherwise its danger stays. */
  lemma DispatchStep(s: State, t: nat, spare: nat)
    requires Inv(s) && WellFormed(s) && s.status.Running? && t < |s.threads| && Dispatching(s.threads[t])
    ensures var s', pc := RunThread(s, t, spare), s.threads[t];
            && Inv(s') && WellFormed(s')
            && (s'.status == SentOnClosed <==> pc.Send? && pc.sub < |s.subs| && !s.subs[pc.sub].open)
            && (s'.status != SentOnClosed ==>
                s'.status.Running? && |s'.threads| == |s.threads| &&
                  (s'.threads[t].Done? || Dispatching(s'.threads[t])))
            && (s'.status != SentOnClosed && !s'.threads[t].Done? ==> Left(s'.threads[t]) < Left(pc))
            && (s'.status != SentOnClosed ==> (InDanger(s, t) <==> InDanger(s', t)))
  {
    RunKeepsInv(s, t, spare);
    OfInv(RunThread(s, t, spare));
    WellFormedParts(s);
    assert ThreadOk(s, s.threads[t]);
    hide Inv, WellFormed, InDanger, DoLoad, DoSend;
    match s.threads[t]
    case Load(m, list, i) =>
      LoadDanger(s, t, m, list, i);
      LoadGoesOn(s, t, m, list, i);
    case Send(m, list, i, q) =>
      if s.subs[q].open {
        SendDanger(s, t, m, list, i, q);
      }
      SendGoesOn(s, t, m, list, i, q);
    case _ =>
  }

  lemma LoadGoesOn(s: State, t: nat, m: Message, list: List, i: nat)
    requires t < |s.threads| && s.threads[t] == Load(m, list, i) && ListOk(s.arrays, list)
    ensures var s' := DoLoad(s, t, m, list, i);
            && s'.status == s.status && |s'.threads| == |s.threads| &&
              (s'.threads[t].Done? || Dispatching(s'.threads[t]))
            && (!s'.threads[t].Done? ==> Left(s'.threads[t]) < Left(s.threads[t]))
  {
    hide Fits;
  }

  lemma SendGoesOn(s: State, t: nat, m: Message, list: List, i: nat, q: nat)
    requires t < |s.threads| && s.threads[t] == Send(m, list, i, q) && q < |s.subs|
    ensures var s' := DoSend(s, t, m, list, i, q);
            if !s.subs[q].open then s'.status == SentOnClosed
            else s'.status == s.status && |s'.threads| == |s.threads| && s'.threads[t] == Load(m, list, i + 1)
                 && Left(s'.threads[t]) < Left(s.threads[t])
  {
  }

  lemma LoadDanger(s: State, t: nat, m: Message, list: List, i: nat)
    requires WellFormed(s) && t < |s.threads| && s.threads[t] == Load(m, list, i) && ListOk(s.arrays, list)
    requires WellFormed(DoLoad(s, t, m, list, i))
    ensures InDanger(s, t) <==> InDanger(DoLoad(s, t, m, list, i), t)
  {
    hide Matches, Fits;
    if i < list.len {
      LoadInRange(s, list, i);
      hide WellFormed;
      var q, s' := s.arrays[list.base].places[i], DoLoad(s, t, m, list, i);
      assert forall j :: ClosedFit(s', m, j) <==> ClosedFit(s, m, j) by { SameFits(s, s', m); }
      assert ClosedAhead(s, m, list, i) <==> ClosedFit(s, m, q) || ClosedAhead(s, m, list, i + 1);
      assert ClosedAhead(s', m, list, i + 1) <==> ClosedAhead(s, m, list, i + 1);
    } else {
      hide WellFormed;
    }
  }

  lemma SameFits(s: State, s': State, m: Message)
    requires OnlyQueues(s, s')
    ensures forall q :: ClosedFit(s', m, q) <==> ClosedFit(s, m, q)
    ensures forall q :: Fits(s', q, m) <==> Fits(s, q, m)
  {
    hide Matches;
  }

  lemma SendDanger(s: State, t: nat, m: Message, list: List, i: nat, q: nat)
    requires WellFormed(s) && t < |s.threads| && s.threads[t] == Send(m, list, i, q) && ListOk(s.arrays, list)
    requires q < |s.subs|
    requires s.subs[q].open && WellFormed(DoSend(s, t, m, list, i, q))
    ensures InDanger(s, t) <==> InDanger(DoSend(s, t, m, list, i, q), t)
  {
    hide WellFormed, Matches, Fits;
    var s' := DoSend(s, t, m, list, i, q);
    SameFits(s, s', m);
  }

  /** A dispatch in danger, run alone, panics ... */
  lemma {:induction false} DangerPanics(s: State, t: nat) returns (n: nat)
    requires Inv(s) && WellFormed(s) && s.status.Running? && t < |s.threads| && InDanger(s, t)
    ensures Exec(s, Alone(t, n)).Some? && Exec(s, Alone(t, n)).value.status == SentOnClosed
    decreases Left(s.threads[t])
  {
    DangerDispatches(s, t);
    hide Inv, WellFormed, InDanger, Exec, RunThread, Left;
    DispatchStep(s, t, 0);
    var s' := RunThread(s, t, 0);
    if s'.status == SentOnClosed {
      n := 1;
      ExecAlone(s, t, 0);
      ExecNone(s', t);
    } else {
      DoneSafe(s', t);
      var k := DangerPanics(s', t);
      n := k + 1;
      ExecAlone(s, t, k);
    }
  }

  lemma DangerDispatches(s: State, t: nat)
    requires WellFormed(s) && t < |s.threads| && InDanger(s, t)
    ensures Dispatching(s.threads[t])
  {
    hide WellFormed;
  }

  lemma DoneSafe(s: State, t: nat)
    requires WellFormed(s) && t < |s.threads|
    ensures s.threads[t].Done? ==> !InDanger(s, t)
  {
    hide WellFormed;
  }

  lemma ExecNone(s: State, t: nat)
    ensures Exec(s, Alone(t, 0)) == Some(s)
  {
  }

  lemma ExecAlone(s: State, t: nat, n: nat)
    requires WellFormed(s) && s.status.Running? && t < |s.threads| && !s.threads[t].Done?
    ensures Exec(s, Alone(t, n + 1)) == Exec(RunThread(s, t, 0), Alone(t, n))
  {
    hide WellFormed, RunThread;
    assert Alone(t, n + 1)[0] == Run(t, 0) && Alone(t, n + 1)[1..] == Alone(t, n);
  }

  /** ... and one that is not does not. */
  lemma {:induction false} SafeEnds(s: State, t: nat, n: nat)
    requires Inv(s) && WellFormed(s) && s.status.Running? && t < |s.threads| && Dispatching(s.threads[t])
    requires !InDanger(s, t)
    ensures Exec(s, Alone(t, n)).Some? ==> Exec(s, Alone(t, n)).value.status.Running?
    decreases n
  {
    NotClosedNow(s, t);
    hide Inv, WellFormed, InDanger, Exec, RunThread, Left;
    if n == 0 {
      ExecNone(s, t);
    } else {
      DispatchStep(s, t, 0);
      ExecAlone(s, t, n - 1);
      var s' := RunThread(s, t, 0);
      if s'.threads[t].Done? {
        DoneStays(s', t, n - 1);
      } else {
        SafeEnds(s', t, n - 1);
      }
    }
  }

  lemma NotClosedNow(s: State, t: nat)
    requires WellFormed(s) && t < |s.threads| && !InDanger(s, t)
    ensures s.threads[t].Send? ==> s.threads[t].sub < |s.subs| && s.subs[s.threads[t].sub].open
  {
    assert ThreadOk(s, s.threads[t]);
    hide WellFormed;
  }

  lemma DoneStays(s: State, t: nat, n: nat)
    requires s.status.Running? && t < |s.threads| && s.threads[t].Done?
    ensures Exec(s, Alone(t, n)).Some? ==> Exec(s, Alone(t, n)).value.status.Running?
  {
    hide WellFormed, Step;
    if n > 0 {
      assert Alone(t, n)[0] == Run(t, 0);
    }
  }

  /** Exactly which dispatches will panic when nothing else happens: those in danger. */
  lemma PanicsAloneIff(s: State, t: nat)
    requires Inv(s) && WellFormed(s) && s.status.Running? && t < |s.threads| && Dispatching(s.threads[t])
    ensures PanicsAlone(s, t) <==> InDanger(s, t)
  {
    hide Inv, WellFormed, InDanger, Exec;
    if InDanger(s, t) {
      var n := DangerPanics(s, t);
    } else if n: nat :| Exec(s, Alone(t, n)).Some? && Exec(s, Alone(t, n)).value.status == SentOnClosed {
      SafeEnds(s, t, n);
      assert false;
    }
  }

  // ---------------------------------------------------------------- exactly what endangers a dispatch

  ghost predicate Closes(s: State, e: Event, q: nat) {
    (e.Unsubscribe? && e.key in s.entries && s.entries[e.key] == q) || (e.Disconnect? && Entry(s, q))
  }

  /** The dispatch is about to send to the subscription, or finds it in a place that it has yet to load. */
  ghost predicate Meets(s: State, pc: Thread, q: nat)
    requires ThreadOk(s, pc)
  {
    match pc
    case Load(m, list, i) => Fits(s, q, m) && exists j :: i <= j < list.len && s.arrays[list.base].places[j] == q
    case Send(m, list, i, p) =>
      p == q || (Fits(s, q, m) && exists j :: i + 1 <= j < list.len && s.arrays[list.base].places[j] == q)
    case _ => false
  }

  /** What an event does to the subscriptions: it closes some, and changes no other's state. */
  ghost predicate SubsAfter(s: State, e: Event, s': State) {
    && |s.subs| <= |s'.subs|
    && (forall q :: 0 <= q < |s.subs| ==>
          s'.subs[q].subType == s.subs[q].subType &&
          s'.subs[q].params == s.subs[q].params)
    && (forall q :: 0 <= q < |s.subs| ==> s'.subs[q].open == (s.subs[q].open && !Closes(s, e, q)))
    && (forall q :: |s.subs| <= q < |s'.subs| ==> s'.subs[q].open)
  }

  /** And to the places of the arrays: a place keeps what it holds, or holds an open subscription. */
  ghost predicate PlacesAfter(s: State, s': State) {
    && |s.arrays| <= |s'.arrays|
    && forall a, j :: 0 <= a < |s.arrays| && 0 <= j < |s.arrays[a].places| ==> PlaceKept(s, s', a, j)
  }

  ghost predicate PlaceKept(s: State, s': State, a: nat, j: nat)
    requires a < |s.arrays| && j < |s.arrays[a].places| && a < |s'.arrays|
  {
    && j < |s'.arrays[a].places|
    && var q := s'.arrays[a].places[j];
       q == s.arrays[a].places[j] || q == |s.subs| || (q < |s.subs| && s.subs[q].open)
  }

  /** A place keeps what it holds, or holds the subscription that is now filed. */
  ghost predicate PlaceSame(s: State, s': State, a: nat, j: nat)
    requires a < |s.arrays| && j < |s.arrays[a].places| && a < |s'.arrays|
  {
    && j < |s'.arrays[a].places|
    && (s'.arrays[a].places[j] == s.arrays[a].places[j] || s'.arrays[a].places[j] == |s.subs|)
  }

  lemma AppendPlaces(s: State, c: string, spare: nat)
    requires WellFormed(s)
    ensures var s' := Append(s, c, |s.subs|, spare);
            && |s.arrays| <= |s'.arrays|
            && forall a, j :: 0 <= a < |s.arrays| && 0 <= j < |s.arrays[a].places| ==> PlaceSame(s, s', a, j)
  {
    WellFormedParts(s);
    hide WellFormed, ThreadOk, PlacesOk, Live;
  }

  lemma InsertAfter(s: State, e: Event, t: nat, key: string, subType: SubType, p: Params, spare: nat)
    requires WellFormed(s) && t < |s.threads| && e.Run?
    ensures SubsAfter(s, e, DoInsert(s, t, key, subType, p, spare))
    ensures PlacesAfter(s, DoInsert(s, t, key, subType, p, spare))
  {
    hide WellFormed, Append, ChannelName;
    var s', s1 := DoInsert(s, t, key, subType, p, spare), Append(s, ChannelName(subType), |s.subs|, spare);
    AppendPlaces(s, ChannelName(subType), spare);
    forall a, j | 0 <= a < |s.arrays| && 0 <= j < |s.arrays[a].places|
      ensures PlaceKept(s, s', a, j)
    {
      assert PlaceSame(s, s1, a, j);
    }
  }

  lemma UnindexPlaces(s: State, c: string, q: nat)
    requires Inv(s) && WellFormed(s) && c in s.index && q in Live(s, c)
    ensures PlacesAfter(s, Unindex(s, c, q))
  {
    hide *;
    OfInv(s);
    UnindexIs(s, c, q);
    LiveIs(s, c);
    var s', l, j := Unindex(s, c, q), s.index[c], Position(Live(s, c), q);
    forall a, i | 0 <= a < |s.arrays| && 0 <= i < |s.arrays[a].places|
      ensures PlaceKept(s, s', a, i)
    {
      if a == l.base {
        ShiftedAt(s.arrays[a].places, l.len, j, i);
        if j <= i < l.len - 1 {
          LiveAt(s, c, i + 1);
        }
      }
      KeptPlace(s, s', a, i);
    }
    PlacesAfterOf(s, s');
  }

  lemma ShiftedAt(places: seq<nat>, n: nat, j: nat, i: nat)
    requires j < n <= |places| && i < |places|
    ensures i < |Shifted(places, n, j)| && Shifted(places, n, j)[i] ==
            if j <= i < n - 1 then places[i + 1] else places[i]
  {
  }

  lemma LiveAt(s: State, c: string, i: nat)
    requires Inv(s) && WellFormed(s) && i < |Live(s, c)|
    ensures Live(s, c)[i] < |s.subs| && s.subs[Live(s, c)[i]].open
  {
    OfInv(s);
    assert LiveOk(s, c);
    hide Inv, WellFormed, Live, ChannelName;
    assert LiveSub(s.subs, c, Live(s, c)[i]);
  }

  lemma KeptPlace(s: State, s': State, a: nat, i: nat)
    requires a < |s.arrays| && i < |s.arrays[a].places| && a < |s'.arrays| && i < |s'.arrays[a].places|
    requires var q := s'.arrays[a].places[i];
             q == s.arrays[a].places[i] || (q < |s.subs| && s.subs[q].open)
    ensures PlaceKept(s, s', a, i)
  {
  }

  lemma PlacesAfterOf(s: State, s': State)
    requires |s.arrays| <= |s'.arrays|
    requires forall a, j :: 0 <= a < |s.arrays| && 0 <= j < |s.arrays[a].places| ==> PlaceKept(s, s', a, j)
    ensures PlacesAfter(s, s')
  {
    hide PlaceKept;
  }

  lemma RemoveAfter(s: State, e: Event)
    requires Inv(s) && WellFormed(s) && e.Unsubscribe?
    ensures SubsAfter(s, e, DoRemove(s, e.key)) && PlacesAfter(s, DoRemove(s, e.key))
  {
    hide Inv, WellFormed, Unindex, Live, ChannelName, DoRemove;
    if e.key in s.entries {
      EntriesInRange(s);
      RemoveIs(s, e.key);
      var q := s.entries[e.key];
      var c := ChannelName(s.subs[q].subType);
      LiveIs(s, c);
      UnindexPlaces(s, c, q);
      PlacesSame(s, Unindex(s, c, q), DoRemove(s, e.key));
    } else {
      RemoveNothing(s, e.key);
    }
  }

  lemma PlacesSame(s: State, s1: State, s': State)
    requires PlacesAfter(s, s1) && s'.arrays == s1.arrays
    ensures PlacesAfter(s, s')
  {
    forall a, j | 0 <= a < |s.arrays| && 0 <= j < |s.arrays[a].places|
      ensures PlaceKept(s, s', a, j)
    {
      assert PlaceKept(s, s1, a, j);
    }
  }

  lemma DisconnectAfter(s: State, e: Event)
    requires Inv(s) && WellFormed(s) && e.Disconnect?
    ensures SubsAfter(s, e, DoDisconnect(s)) && PlacesAfter(s, DoDisconnect(s))
  {
    DisconnectIs(s);
    hide Inv, WellFormed, DoDisconnect, Entry;
  }

  lemma QueuesAfter(s: State, e: Event, s': State)
    requires OnlyQueues(s, s') && !e.Unsubscribe? && !e.Disconnect?
    ensures SubsAfter(s, e, s') && PlacesAfter(s, s')
  {
    PlacesSame(s, s, s');
  }

  lemma EventAfter(s: State, e: Event)
    requires Inv(s) && WellFormed(s) && Enabled(s, e)
    ensures SubsAfter(s, e, Step(s, e)) && PlacesAfter(s, Step(s, e))
  {
    hide Inv, WellFormed, DoRemove, DoDisconnect, DoInsert, RunThread, SubsAfter, PlacesAfter;
    match e {
      case Run(t, spare) =>
        if s.threads[t].Insert? {
          InsertRuns(s, t, spare);
          InsertAfter(s, e, t, s.threads[t].key, s.threads[t].subType, s.threads[t].params, spare);
        } else {
          RunOnlyQueues(s, t, spare);
          QueuesAfter(s, e, Step(s, e));
        }
      case Unsubscribe(key) => RemoveAfter(s, e);
      case Disconnect => DisconnectAfter(s, e);
      case _ => QueuesAfter(s, e, Step(s, e));
    }
  }

  /** A closed subscription in a place after the event was there before, or was closed by the event. */
  lemma ClosedAfter(s: State, e: Event, s': State, m: Message, list: List, j: nat)
    requires WellFormed(s) && SubsAfter(s, e, s') && PlacesAfter(s, s') && ListOk(s.arrays, list) && j < list.len
    requires ListOk(s'.arrays, list) && ClosedFit(s', m, s'.arrays[list.base].places[j])
    ensures ClosedFit(s, m, s.arrays[list.base].places[j])
         || (Closes(s, e, s'.arrays[list.base].places[j]) && Fits(s', s'.arrays[list.base].places[j], m))
  {
    LoadInRange(s, list, j);
    assert PlaceKept(s, s', list.base, j);
    hide WellFormed, Matches, Closes;
  }

  lemma ClosesSubs(s: State, e: Event, s': State, q: nat)
    requires WellFormed(s) && SubsAfter(s, e, s') && Closes(s, e, q)
    ensures q < |s.subs| && !s'.subs[q].open
  {
    EntriesInRange(s);
    hide WellFormed;
  }

  lemma AheadIff(s: State, e: Event, s': State, m: Message, list: List, i: nat)
    requires WellFormed(s) && SubsAfter(s, e, s') && PlacesAfter(s, s') && ListOk(s.arrays, list)
    requires ListOk(s'.arrays, list)
    requires !ClosedAhead(s, m, list, i)
    ensures ClosedAhead(s', m, list, i) <==>
              exists q :: Closes(s, e, q) && Fits(s', q, m) && exists j ::
                i <= j < list.len && s'.arrays[list.base].places[j] == q
  {
    hide WellFormed, SubsAfter, PlacesAfter, Closes, Fits;
    if ClosedAhead(s', m, list, i) {
      var j :| i <= j < list.len && ClosedFit(s', m, s'.arrays[list.base].places[j]);
      ClosedAfter(s, e, s', m, list, j);
    }
    if q :| Closes(s, e, q) && Fits(s', q, m) && exists j :: i <= j < list.len && s'.arrays[list.base].places[j] == q {
      ClosesSubs(s, e, s', q);
      LengthsGrow(s, e, s');
    }
  }

  lemma LengthsGrow(s: State, e: Event, s': State)
    requires SubsAfter(s, e, s')
    ensures |s.subs| <= |s'.subs|
  {
  }

  /** A dispatch that is in no danger comes into danger by another's step if and only if that step closes a subscription
      to which the dispatch is about to send, or which matches and is still in a place that it has yet to load. */
  lemma EndangersIff(s: State, e: Event, t: nat)
    requires Inv(s) && WellFormed(s) && Enabled(s, e) && t < |s.threads| && Dispatching(s.threads[t]) && !InDanger(s, t)
    requires !(e.Run? && e.thread == t)
    ensures var s' := Step(s, e);
            && WellFormed(s') && t < |s'.threads| && s'.threads[t] == s.threads[t] && ThreadOk(s', s.threads[t])
            && (InDanger(s', t) <==> exists q :: Closes(s, e, q) && Meets(s', s.threads[t], q))
  {
    StepKeepsInv(s, e);
    OfInv(Step(s, e));
    EventAfter(s, e);
    OthersStay(s, e, t);
    WellFormedParts(s);
    WellFormedParts(Step(s, e));
    assert ThreadOk(s, s.threads[t]);
    var s' := Step(s, e);
    assert ThreadOk(s', s'.threads[t]);
    hide Inv, WellFormed, Enabled, Step, SubsAfter, PlacesAfter, Closes, Fits, ClosedAhead;
    match s.threads[t]
    case Load(m, list, i) => AheadIff(s, e, s', m, list, i);
    case Send(m, list, i, p) =>
      AheadIff(s, e, s', m, list, i + 1);
      SendTarget(s, e, s', p);
    case _ =>
  }

  lemma SendTarget(s: State, e: Event, s': State, p: nat)
    requires SubsAfter(s, e, s') && p < |s.subs| && s.subs[p].open
    ensures p < |s'.subs| && (!s'.subs[p].open <==> Closes(s, e, p))
  {
  }

  lemma OthersStay(s: State, e: Event, t: nat)
    requires Inv(s) && WellFormed(s) && Enabled(s, e) && t < |s.threads| && !(e.Run? && e.thread == t)
    ensures t < |Step(s, e).threads| && Step(s, e).threads[t] == s.threads[t]
  {
    hide Inv, WellFormed, DoInsert, DoDisconnect, DoRemove, RunThread;
    match e {
      case Run(u, spare) =>
        if s.threads[u].Insert? {
          InsertRuns(s, u, spare);
          InsertThreads(s, u, s.threads[u].key, s.threads[u].subType, s.threads[u].params, spare);
        } else {
          RunOnlyQueues(s, u, spare);
        }
      case Unsubscribe(key) =>
        if key in s.entries {
          EntriesInRange(s);
          RemoveIs(s, key);
          RemovedStatusParts(s, key);
        } else {
          RemoveNothing(s, key);
        }
      case Disconnect => DisconnectIs(s);
      case _ =>
    }
  }

  // ---------------------------------------------------------------- when no dispatch panics

  /** The event closes a subscription to which a dispatch under way will come. */
  ghost predicate MeetsDispatch(s: State, e: Event, s': State) {
    WellFormed(s') && exists t, q :: 0 <= t < |s.threads| && t < |s'.threads| && MeetsThread(s, e, s', t, q)
  }

  ghost predicate MeetsThread(s: State, e: Event, s': State, t: nat, q: nat)
    requires WellFormed(s') && t < |s.threads| && t < |s'.threads|
  {
    s'.threads[t] == s.threads[t] && Dispatching(s.threads[t]) && Closes(s, e, q) && MeetsIn(s', t, q)
  }

  ghost predicate MeetsIn(s: State, t: nat, q: nat)
    requires WellFormed(s) && t < |s.threads|
  {
    assert ThreadOk(s, s.threads[t]);
    Meets(s, s.threads[t], q)
  }

  ghost predicate NoMeeting(s: State, es: seq<Event>)
    decreases |es|
  {
    es != [] && WellFormed(s) && Enabled(s, es[0]) ==>
      !MeetsDispatch(s, es[0], Step(s, es[0])) && NoMeeting(Step(s, es[0]), es[1..])
  }

  ghost predicate NoneInDanger(s: State)
    requires WellFormed(s)
  {
    forall t :: 0 <= t < |s.threads| ==> !InDanger(s, t)
  }

  lemma DangerOf(s: State, t: nat)
    requires WellFormed(s) && NoneInDanger(s) && t < |s.threads|
    ensures !InDanger(s, t)
  {
    hide WellFormed, InDanger;
  }

  lemma NoneInDangerOf(s: State)
    requires WellFormed(s) && forall t :: 0 <= t < |s.threads| ==> !InDanger(s, t)
    ensures NoneInDanger(s)
  {
    hide WellFormed, InDanger;
  }

  lemma NoDispatchNoDanger(s: State, t: nat)
    requires WellFormed(s) && t < |s.threads| && !Dispatching(s.threads[t])
    ensures !InDanger(s, t)
  {
    hide WellFormed;
  }

  lemma NotMet(s: State, e: Event, t: nat)
    requires Inv(s) && WellFormed(s) && Enabled(s, e) && t < |s.threads| && Dispatching(s.threads[t]) && !InDanger(s, t)
    requires !(e.Run? && e.thread == t) && WellFormed(Step(s, e)) && !MeetsDispatch(s, e, Step(s, e))
    ensures t < |Step(s, e).threads| && !InDanger(Step(s, e), t)
  {
    hide Inv, WellFormed, Enabled, Step, InDanger, Meets, Closes, Dispatching;
    EndangersIff(s, e, t);
    var s' := Step(s, e);
    forall q | Closes(s, e, q)
      ensures !Meets(s', s.threads[t], q)
    {
      assert !MeetsThread(s, e, s', t, q);
    }
  }

  /** A list that was just read holds open subscriptions. */
  lemma ReadIsSafe(s: State, t: nat, spare: nat)
    requires Inv(s) && WellFormed(s) && t < |s.threads| && s.threads[t].Read? && WellFormed(RunThread(s, t, spare))
    ensures RunThread(s, t, spare).status == s.status && t < |RunThread(s, t, spare).threads|
    ensures !InDanger(RunThread(s, t, spare), t)
  {
    OfInv(s);
    var m := s.threads[t].message;
    assert LiveOk(s, m.channel);
    LiveIs(s, m.channel);
    hide Inv, WellFormed, Matches, ChannelName;
    if m.channel in s.index {
      var l := s.index[m.channel];
      forall j | 0 <= j < l.len
        ensures !ClosedFit(s, m, s.arrays[l.base].places[j])
      {
        assert Live(s, m.channel)[j] == s.arrays[l.base].places[j];
        assert LiveSub(s.subs, m.channel, Live(s, m.channel)[j]);
      }
      SameFits(s, RunThread(s, t, spare), m);
    }
  }

  lemma ActorSafe(s: State, t: nat, spare: nat)
    requires Inv(s) && WellFormed(s) && s.status.Running? && t < |s.threads| && !s.threads[t].Done? && !InDanger(s, t)
    requires WellFormed(RunThread(s, t, spare))
    ensures var s' := RunThread(s, t, spare); s'.status.Running? && t < |s'.threads| && !InDanger(s', t)
  {
    NotClosedNow(s, t);
    hide Inv, WellFormed, InDanger, RunThread, Left;
    if Dispatching(s.threads[t]) {
      DispatchStep(s, t, spare);
    } else if s.threads[t].Read? {
      ReadIsSafe(s, t, spare);
    } else {
      FilingIsSafe(s, t, spare);
      NoDispatchNoDanger(RunThread(s, t, spare), t);
    }
  }

  lemma FilingIsSafe(s: State, t: nat, spare: nat)
    requires WellFormed(s) && t < |s.threads| && (s.threads[t].Check? || s.threads[t].Insert?)
    ensures var s' := RunThread(s, t, spare); s'.status == s.status && t < |s'.threads| && !Dispatching(s'.threads[t])
  {
    hide WellFormed, UserOn, DoInsert;
    if s.threads[t].Insert? {
      InsertStatus(s, t, s.threads[t].key, s.threads[t].subType, s.threads[t].params, spare);
      InsertThreads(s, t, s.threads[t].key, s.threads[t].subType, s.threads[t].params, spare);
    }
  }

  lemma SafeStep(s: State, e: Event)
    requires Inv(s) && WellFormed(s) && Enabled(s, e) && NoneInDanger(s)
    requires WellFormed(Step(s, e)) && !MeetsDispatch(s, e, Step(s, e))
    ensures Step(s, e).status.Running? && NoneInDanger(Step(s, e))
  {
    var s' := Step(s, e);
    StatusAfter(s, e);
    forall t | 0 <= t < |s'.threads|
      ensures !InDanger(s', t)
    {
      OneSafe(s, e, t);
    }
    hide *;
    NoneInDangerOf(s');
  }

  lemma OneSafe(s: State, e: Event, t: nat)
    requires Inv(s) && WellFormed(s) && Enabled(s, e) && NoneInDanger(s)
    requires WellFormed(Step(s, e)) && !MeetsDispatch(s, e, Step(s, e)) && t < |Step(s, e).threads|
    ensures !InDanger(Step(s, e), t)
  {
    var s' := Step(s, e);
    if t < |s.threads| {
      DangerOf(s, t);
      if e.Run? && e.thread == t {
        hide Inv, WellFormed, InDanger, NoneInDanger, RunThread;
        ActorSafe(s, t, e.spare);
      } else {
        hide Inv, WellFormed, InDanger, NoneInDanger, Step, Enabled, Closes, MeetsDispatch;
        OthersStay(s, e, t);
        if Dispatching(s.threads[t]) {
          NotMet(s, e, t);
        } else {
          NoDispatchNoDanger(s', t);
        }
      }
    } else {
      NewThreads(s, e, t);
      hide Inv, WellFormed, InDanger, NoneInDanger, Step, Enabled, Closes, MeetsDispatch;
      NoDispatchNoDanger(s', t);
    }
  }

  lemma NewThreads(s: State, e: Event, t: nat)
    requires Inv(s) && WellFormed(s) && Enabled(s, e) && |s.threads| <= t < |Step(s, e).threads|
    ensures !Dispatching(Step(s, e).threads[t])
  {
    hide Inv, WellFormed, DoInsert, DoDisconnect, DoRemove, RunThread;
    match e {
      case Run(u, spare) =>
        if s.threads[u].Insert? {
          InsertRuns(s, u, spare);
          InsertThreads(s, u, s.threads[u].key, s.threads[u].subType, s.threads[u].params, spare);
        } else {
          RunOnlyQueues(s, u, spare);
        }
      case Unsubscribe(key) =>
        if key in s.entries {
          EntriesInRange(s);
          RemoveIs(s, key);
          RemovedStatusParts(s, key);
        } else {
          RemoveNothing(s, key);
        }
      case Disconnect => DisconnectIs(s);
      case _ =>
    }
  }

  /** Only a send can panic. */
  lemma StatusAfter(s: State, e: Event)
    requires Inv(s) && WellFormed(s) && Enabled(s, e) && NoneInDanger(s)
    ensures Step(s, e).status.Running?
  {
    hide Inv, DoRemove, DoDisconnect, RunThread, InDanger, NoneInDanger;
    match e {
      case Run(t, spare) =>
        DangerOf(s, t);
        RunWellFormed(s, t, spare);
        hide WellFormed;
        ActorSafe(s, t, spare);
      case Unsubscribe(key) => RemoveStatus(s, key);
      case Disconnect => DisconnectIs(s);
      case _ =>
    }
  }

  lemma RunWellFormed(s: State, t: nat, spare: nat)
    requires Inv(s) && WellFormed(s) && t < |s.threads| && s.status.Running?
    ensures WellFormed(RunThread(s, t, spare))
  {
    hide *;
    RunningIs(s);
    RunKeepsInv(s, t, spare);
    OfInv(RunThread(s, t, spare));
  }

  lemma RunningIs(s: State)
    requires s.status.Running?
    ensures s.status != ClosedTwice
  {
  }

  lemma {:induction false} NoMeetingRun(s: State, es: seq<Event>)
    requires Inv(s) && WellFormed(s) && s.status.Running? && NoneInDanger(s) && NoMeeting(s, es) && Exec(s, es).Some?
    ensures Exec(s, es).value.status.Running?
    decreases |es|
  {
    hide Inv, WellFormed, Enabled, Step, NoneInDanger, MeetsDispatch;
    if es != [] {
      StepKeepsInv(s, es[0]);
      OfInv(Step(s, es[0]));
      SafeStep(s, es[0]);
      NoMeetingRun(Step(s, es[0]), es[1..]);
    }
  }

  /** If no step closes a subscription to which a dispatch under way will come, nothing ever panics. */
  lemma NeverPanics(es: seq<Event>, s: State)
    requires Reaches(es, s) && NoMeeting(Init, es)
    ensures s.status.Running?
  {
    InitInv();
    hide Inv;
    assert WellFormed(Init) && NoneInDanger(Init);
    NoMeetingRun(Init, es);
  }

  // ---------------------------------------------------------------- a removal that meets a dispatch

  /** The dispatch has yet to load place `j`, which holds `q`; all that it loads until then is open. */
  ghost predicate OnItsWay(s: State, t: nat, m: Message, list: List, i: nat, j: nat, q: nat) {
    && s.status.Running? && t < |s.threads| && ListOk(s.arrays, list) && i <= j < list.len
    && s.arrays[list.base].places[j] == q && Fits(s, q, m)
    && forall p :: i <= p <= j && s.arrays[list.base].places[p] < |s.subs| ==>
      s.subs[s.arrays[list.base].places[p]].open
  }

  /** Run alone, it comes to send to `q`. */
  lemma {:induction false} ReachSend(s: State, t: nat, m: Message, list: List, i: nat, j: nat, q: nat)
    returns (es: seq<Event>, s': State)
    requires Inv(s) && OnItsWay(s, t, m, list, i, j, q) && t < |s.threads| && s.threads[t] == Load(m, list, i)
    ensures Exec(s, es) == Some(s') && Inv(s') && s'.status.Running? && OnlyQueues(s, s')
    ensures |s'.threads| == |s.threads| && s'.threads[t] == Send(m, list, j, q)
    decreases j - i
  {
    hide *;
    OfInv(s);
    var s1 := LoadOnWay(s, t, m, list, i, j, q);
    if i == j {
      es, s' := [Run(t, 0)], s1;
      ExecNothing(s');
      ExecStep(s, Run(t, 0), s', []);
      assert [Run(t, 0)] + [] == [Run(t, 0)];
    } else {
      var fs, s2 := [], s1;
      ExecNothing(s1);
      OnlyQueuesSelf(s1);
      if s1.threads[t].Send? {
        fs, s2 := SendOnWay(s1, t, m, list, i, j, q);
      }
      var gs;
      gs, s' := ReachSend(s2, t, m, list, i + 1, j, q);
      ExecAppend(s1, fs, gs);
      ExecStep(s, Run(t, 0), s1, fs + gs);
      es := [Run(t, 0)] + (fs + gs);
      OnlyQueuesBoth(s, s1, s2);
      OnlyQueuesBoth(s, s2, s');
    }
  }

  lemma StillOnItsWay(s: State, s': State, t: nat, m: Message, list: List, i: nat, i': nat, j: nat, q: nat)
    requires OnItsWay(s, t, m, list, i, j, q) && OnlyQueues(s, s') && s'.status == s.status
    requires |s'.threads| == |s.threads| && i <= i' <= j
    ensures OnItsWay(s', t, m, list, i', j, q)
  {
    hide Matches;
  }

  lemma LoadOnWay(s: State, t: nat, m: Message, list: List, i: nat, j: nat, q: nat) returns (s': State)
    requires Inv(s) && WellFormed(s) && OnItsWay(s, t, m, list, i, j, q) && t < |s.threads|
    requires s.threads[t] == Load(m, list, i)
    ensures Enabled(s, Run(t, 0)) && Step(s, Run(t, 0)) == s' && Inv(s') && OnlyQueues(s, s') && s'.status.Running?
    ensures |s'.threads| == |s.threads| && i <= j
    ensures i == j ==> s'.threads[t] == Send(m, list, j, q)
    ensures i < j ==> && (s'.threads[t] == Load(m, list, i + 1) ||
                          (s'.threads[t].Send? && s'.threads[t].message == m && s'.threads[t].list == list &&
                           s'.threads[t].next == i))
                      && OnItsWay(s', t, m, list, i + 1, j, q)
                      && (s'.threads[t].Send? ==> s'.threads[t].sub < |s'.subs| && s'.subs[s'.threads[t].sub].open)
  {
    s' := DoLoad(s, t, m, list, i);
    assert ListOk(s.arrays, list) && s.status.Running?;
    LoadInRange(s, list, i);
    assert OnlyQueues(s, s');
    assert s.status != ClosedTwice && RunThread(s, t, 0) == s';
    if i < j {
      StillOnItsWay(s, s', t, m, list, i, i + 1, j, q);
    }
    hide Inv, WellFormed, Matches;
    RunKeepsInv(s, t, 0);
  }

  lemma SendOnWay(s: State, t: nat, m: Message, list: List, i: nat, j: nat, q: nat) returns (es: seq<Event>, s': State)
    requires Inv(s) && i < j && OnItsWay(s, t, m, list, i + 1, j, q) && t < |s.threads| && s.threads[t].Send?
    requires s.threads[t].message == m && s.threads[t].list == list && s.threads[t].next == i
    requires s.threads[t].sub < |s.subs| && s.subs[s.threads[t].sub].open
    ensures Exec(s, es) == Some(s') && Inv(s') && OnlyQueues(s, s') && |s'.threads| == |s.threads|
    ensures s'.threads[t] == Load(m, list, i + 1)
    ensures OnItsWay(s', t, m, list, i + 1, j, q)
  {
    OfInv(s);
    s' := DoSend(s, t, m, list, i, s.threads[t].sub);
    assert ListOk(s.arrays, list) && s.status.Running? && s.status != ClosedTwice;
    assert RunThread(s, t, 0) == s' && OnlyQueues(s, s') && s'.status == s.status;
    StillOnItsWay(s, s', t, m, list, i + 1, i + 1, j, q);
    hide Inv, WellFormed, Matches, RunThread, OnlyQueues, OnItsWay, DoSend;
    RunKeepsInv(s, t, 0);
    es := [Run(t, 0)];
    ExecNothing(s');
    ExecStep(s, Run(t, 0), s', []);
    assert [Run(t, 0)] + [] == [Run(t, 0)];
  }

  /** A message arrives and its dispatch reads the list. */
  lemma ArriveAndRead(s: State, m: Message) returns (es: seq<Event>, s': State)
    requires Inv(s) && s.status.Running? && m.channel in s.index
    ensures Exec(s, es) == Some(s') && Inv(s') && OnlyQueues(s, s') && s'.status == s.status
    ensures |s'.threads| == |s.threads| + 1 && s'.threads[|s.threads|] == Load(m, s.index[m.channel], 0)
  {
    OfInv(s);
    var n := |s.threads|;
    var s1 := s.(threads := s.threads + [Read(m)]);
    s' := DoRead(s1, n, m);
    StepKeepsInv(s, Arrive(m));
    OfInv(s1);
    assert RunThread(s1, n, 0) == s' && OnlyQueues(s, s') && s'.threads[n] == Load(m, s.index[m.channel], 0) &&
      s'.status == s.status;
    assert s1.status != ClosedTwice && WellFormed(s) && Enabled(s, Arrive(m)) && Step(s, Arrive(m)) == s1;
    assert WellFormed(s1) && Enabled(s1, Run(n, 0)) && Step(s1, Run(n, 0)) == s';
    hide Inv, WellFormed, RunThread, DoRead, Step, Enabled, OnlyQueues;
    RunKeepsInv(s1, n, 0);
    ExecNothing(s');
    ExecStep(s1, Run(n, 0), s', []);
    ExecStep(s, Arrive(m), s1, [Run(n, 0)] + []);
    es := [Arrive(m)] + ([Run(n, 0)] + []);
  }

  /** An entry lies in its channel's list, which holds open subscriptions. */
  lemma EntryPlace(s: State, key: string, m: Message) returns (j: nat)
    requires Inv(s) && WellFormed(s) && key in s.entries && s.entries[key] < |s.subs|
    requires m.channel == ChannelName(s.subs[s.entries[key]].subType)
    ensures m.channel in s.index && ListOk(s.arrays, s.index[m.channel]) && j < s.index[m.channel].len
    ensures s.arrays[s.index[m.channel].base].places[j] == s.entries[key]
    ensures forall p :: 0 <= p < s.index[m.channel].len && s.arrays[s.index[m.channel].base].places[p] < |s.subs| ==>
              s.subs[s.arrays[s.index[m.channel].base].places[p]].open
  {
    OfInv(s);
    assert EntryOk(s, key) && LiveOk(s, m.channel);
    LiveIs(s, m.channel);
    hide Inv, WellFormed, ChannelName;
    j :| 0 <= j < |Live(s, m.channel)| && Live(s, m.channel)[j] == s.entries[key];
    forall p | 0 <= p < s.index[m.channel].len && s.arrays[s.index[m.channel].base].places[p] < |s.subs|
      ensures s.subs[s.arrays[s.index[m.channel].base].places[p]].open
    {
      assert Live(s, m.channel)[p] == s.arrays[s.index[m.channel].base].places[p];
      assert LiveSub(s.subs, m.channel, Live(s, m.channel)[p]);
    }
    hide Live;
  }

  /** From every state: when a message that matches an entry arrives, and the entry is removed between the match and
      the send, the client panics. */
  lemma RemovalPanics(s: State, key: string, m: Message) returns (es: seq<Event>, s': State)
    requires Inv(s) && s.status.Running? && key in s.entries && s.entries[key] < |s.subs|
    requires m.channel == ChannelName(s.subs[s.entries[key]].subType) && Fits(s, s.entries[key], m)
    ensures Exec(s, es) == Some(s') && s'.status == SentOnClosed
  {
    hide *;
    OfInv(s);
    var n, q := |s.threads|, s.entries[key];
    var j := EntryPlace(s, key, m);
    var fs, s1 := ArriveAndRead(s, m);
    BeginsWay(s, s1, n, m, j, q);
    var gs, s2 := ReachSend(s1, n, m, s.index[m.channel], 0, j, q);
    OnlyQueuesBoth(s, s1, s2);
    var hs;
    hs, s' := RemoveThenSend(s2, n, key, q);
    ExecAppend(s, fs, gs);
    ExecAppend(s, fs + gs, hs);
    es := (fs + gs) + hs;
  }

  lemma BeginsWay(s: State, s1: State, n: nat, m: Message, j: nat, q: nat)
    requires OnlyQueues(s, s1) && s1.status == s.status && s.status.Running? && n < |s1.threads| && m.channel in s.index
    requires ListOk(s.arrays, s.index[m.channel]) && j < s.index[m.channel].len
    requires s.arrays[s.index[m.channel].base].places[j] == q && Fits(s, q, m)
    requires forall p :: 0 <= p < s.index[m.channel].len && s.arrays[s.index[m.channel].base].places[p] < |s.subs| ==>
               s.subs[s.arrays[s.index[m.channel].base].places[p]].open
    ensures OnItsWay(s1, n, m, s.index[m.channel], 0, j, q)
  {
    hide Matches;
  }

  lemma RemoveThenSend(s: State, t: nat, key: string, q: nat) returns (es: seq<Event>, s': State)
    requires Inv(s) && s.status.Running? && t < |s.threads| && s.threads[t].Send? && s.threads[t].sub == q
    requires key in s.entries && s.entries[key] == q
    ensures Exec(s, es) == Some(s') && s'.status == SentOnClosed
  {
    hide *;
    OfInv(s);
    EntriesInRange(s);
    RemoveIs(s, key);
    RemovedStatusParts(s, key);
    var s1 := DoRemove(s, key);
    RemoveSteps(s, key);
    StepKeepsInv(s, Unsubscribe(key));
    OfInv(s1);
    s' := s1.(status := SentOnClosed);
    SendPanics(s, s1, t, q);
    ExecNothing(s');
    ExecStep(s1, Run(t, 0), s', []);
    ExecStep(s, Unsubscribe(key), s1, [Run(t, 0)] + []);
    es := [Unsubscribe(key)] + ([Run(t, 0)] + []);
  }

  lemma RemoveSteps(s: State, key: string)
    requires WellFormed(s) && s.status.Running?
    ensures Enabled(s, Unsubscribe(key)) && Step(s, Unsubscribe(key)) == DoRemove(s, key)
  {
    hide WellFormed, DoRemove;
  }

  lemma SendPanics(s: State, s1: State, t: nat, q: nat)
    requires WellFormed(s1) && q < |s.subs| && s1.subs == Closed(s.subs, q) && s1.status.Running?
    requires s1.threads == s.threads
    requires t < |s.threads| && s.threads[t].Send? && s.threads[t].sub == q
    ensures Enabled(s1, Run(t, 0)) && Step(s1, Run(t, 0)) == s1.(status := SentOnClosed)
  {
    hide WellFormed;
  }

  /** Shifting the list in place leaves the removed subscription behind exactly when it was the last: a dispatch that
      read the list before and has not come to it yet still finds it. */
  lemma StaysBehindIff(places: seq<nat>, n: nat, j: nat)
    requires j < n <= |places| && Different(places[..n])
    ensures n <= |Shifted(places, n, j)|
    ensures places[j] in Shifted(places, n, j)[..n] <==> j == n - 1
  {
    ShiftedTakes(places, n, j);
    hide Shifted;
    var a, b := places[..n], Shifted(places, n, j)[..n];
    if places[j] in b {
      var i :| 0 <= i < n && b[i] == places[j];
      assert a[if j <= i < n - 1 then i + 1 else i] == a[j];
    }
    if j == n - 1 {
      assert b[j] == places[j];
    }
  }
}
