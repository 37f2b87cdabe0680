/** What reaches the handlers: in every run only messages that arrived on their channel and match, and from a dispatch
    that runs alone every such message that fits. */
module RegistryDelivery {
  import opened SubscriptionKeys
  import opened Registry
  import opened RegistryRuns

  // ---------------------------------------------------------------- nothing else is delivered

  function Messages(es: seq<Event>): set<Message> { set e | e in es && e.Arrive? :: e.message }

  /** The data came with a message that matches the subscription, on its channel. */
  ghost predicate Meant(ms: set<Message>, sub: Sub, data: Json) {
    exists m :: m in ms && m.data == data && m.channel == ChannelName(sub.subType) &&
      Matches(sub.subType, sub.params, m)
  }

  ghost predicate QueueOk(ms: set<Message>, sub: Sub) {
    forall i :: 0 <= i < |sub.queue| ==> Meant(ms, sub, sub.queue[i])
  }

  /** An array that was made for a channel: all its places, also those beyond the list, hold subscriptions of it. */
  ghost predicate ArrayOf(s: State, a: nat, c: string) {
    && a < |s.arrays| && s.arrays[a].places != []
    && forall i :: 0 <= i < |s.arrays[a].places| ==> OfChannel(s.subs, s.arrays[a].places[i], c)
  }

  predicate OfChannel(subs: seq<Sub>, q: nat, c: string) { q < |subs| && ChannelName(subs[q].subType) == c }

  ghost predicate Carries(ms: set<Message>, s: State, pc: Thread) {
    && (pc.Read? || pc.Load? || pc.Send? ==> pc.message in ms)
    && (pc.Load? || pc.Send? ==> ArrayOf(s, pc.list.base, pc.message.channel))
    && (pc.Send? ==> OfChannel(s.subs, pc.sub, pc.message.channel) && Fits(s, pc.sub, pc.message))
  }

  ghost predicate DeliveryInv(ms: set<Message>, s: State) {
    && (forall q :: 0 <= q < |s.subs| ==> QueueOk(ms, s.subs[q]))
    && (forall t :: 0 <= t < |s.threads| ==> Carries(ms, s, s.threads[t]))
    && (forall c :: c in s.index ==> ArrayOf(s, s.index[c].base, c))
  }

  /** No subscription changes what it is for, and no array its channel. */
  ghost predicate Keeps(s: State, s': State) {
    && |s.subs| <= |s'.subs|
    && (forall q :: 0 <= q < |s.subs| ==>
          s'.subs[q].subType == s.subs[q].subType &&
          s'.subs[q].params == s.subs[q].params)
    && forall a: nat, c :: ArrayOf(s, a, c) ==> ArrayOf(s', a, c)
  }

  lemma CarriesStays(ms: set<Message>, s: State, s': State, pc: Thread)
    requires Carries(ms, s, pc) && Keeps(s, s')
    ensures Carries(ms, s', pc)
  {
    hide Matches, ChannelName, ArrayOf;
  }

  lemma QueueStays(ms: set<Message>, more: set<Message>, sub: Sub, sub': Sub)
    requires QueueOk(ms, sub) && ms <= more && sub'.subType == sub.subType && sub'.params == sub.params
    requires sub'.queue == sub.queue || (sub.queue != [] && sub'.queue == sub.queue[1..])
    ensures QueueOk(more, sub')
  {
    hide Matches, ChannelName, Meant;
    forall i | 0 <= i < |sub'.queue|
      ensures Meant(more, sub', sub'.queue[i])
    {
      var k := if sub'.queue == sub.queue then i else i + 1;
      assert Meant(ms, sub, sub.queue[k]);
      MeantStays(ms, more, sub, sub', sub.queue[k]);
    }
  }

  lemma MeantStays(ms: set<Message>, more: set<Message>, sub: Sub, sub': Sub, data: Json)
    requires Meant(ms, sub, data) && ms <= more && sub'.subType == sub.subType && sub'.params == sub.params
    ensures Meant(more, sub', data)
  {
    hide Matches, ChannelName;
  }

  lemma QueueGrows(ms: set<Message>, sub: Sub, sub': Sub, m: Message)
    requires QueueOk(ms, sub) && m in ms && m.channel == ChannelName(sub.subType)
    requires Matches(sub.subType, sub.params, m)
    requires sub' == sub.(queue := sub.queue + [m.data])
    ensures QueueOk(ms, sub')
  {
    hide Matches, ChannelName;
    assert Meant(ms, sub', m.data);
    forall i | 0 <= i < |sub'.queue|
      ensures Meant(ms, sub', sub'.queue[i])
    {
      if i < |sub.queue| {
        assert Meant(ms, sub, sub.queue[i]);
        MeantStays(ms, ms, sub, sub', sub.queue[i]);
      }
    }
  }

  /** Neither lists nor what subscriptions are for change. */
  lemma SameArraysKeep(s: State, s': State)
    requires s'.arrays == s.arrays && |s.subs| <= |s'.subs|
    requires forall q :: 0 <= q < |s.subs| ==>
               s'.subs[q].subType == s.subs[q].subType &&
               s'.subs[q].params == s.subs[q].params
    ensures Keeps(s, s')
  {
    hide ChannelName;
  }

  lemma AppendKeeps(s: State, s': State, c: string, q: nat, spare: nat)
    requires c in s.index ==> ArrayOf(s, s.index[c].base, c)
    requires WellFormed(s) && q == |s.subs| && s'.arrays == Append(s, c, q, spare).arrays
    requires |s'.subs| == q + 1 && s'.subs[..q] == s.subs && ChannelName(s'.subs[q].subType) == c
    ensures Keeps(s, s') && ArrayOf(s', Append(s, c, q, spare).index[c].base, c)
  {
    hide ChannelName;
    assert forall r :: 0 <= r < |s.subs| ==> s'.subs[r] == s'.subs[..q][r];
    LiveIs(s, c);
    forall a: nat, d | ArrayOf(s, a, d)
      ensures ArrayOf(s', a, d)
    {
      if c in s.index && s.index[c].base == a && s'.arrays[a] != s.arrays[a] {
        assert OfChannel(s.subs, s.arrays[a].places[0], c) && OfChannel(s.subs, s.arrays[a].places[0], d);
      }
    }
    hide WellFormed;
    NewList(s, s', c, q, spare);
  }

  lemma NewList(s: State, s': State, c: string, q: nat, spare: nat)
    requires WellFormed(s) && q == |s.subs| && s'.arrays == Append(s, c, q, spare).arrays
    requires c in s.index ==> ArrayOf(s, s.index[c].base, c)
    requires |s'.subs| == q + 1 && (forall r :: 0 <= r < q ==> s'.subs[r] == s.subs[r])
    requires ChannelName(s'.subs[q].subType) == c
    ensures ArrayOf(s', Append(s, c, q, spare).index[c].base, c)
  {
    LiveIs(s, c);
    hide ChannelName, WellFormed, Live;
  }

  lemma UnindexKeeps(s: State, c: string, q: nat)
    requires WellFormed(s)
    ensures Keeps(s, Unindex(s, c, q))
    ensures forall d :: d in Unindex(s, c, q).index ==>
              d in s.index && Unindex(s, c, q).index[d].base == s.index[d].base
  {
    if c in s.index && q in Live(s, c) {
      var l, s' := s.index[c], Unindex(s, c, q);
      UnindexIs(s, c, q);
      hide *;
      ShiftedKeeps(s, s', l.base, l.len, Position(Live(s, c), q));
    } else {
      SameArraysKeep(s, s);
    }
  }

  lemma ShiftedKeeps(s: State, s': State, b: nat, n: nat, j: nat)
    requires b < |s.arrays| && j < n <= |s.arrays[b].places| && s'.subs == s.subs
    requires s'.arrays == s.arrays[b := s.arrays[b].(places := Shifted(s.arrays[b].places, n, j))]
    ensures Keeps(s, s')
  {
    hide ChannelName, OfChannel;
    ShiftedTakes(s.arrays[b].places, n, j);
    var places, places' := s.arrays[b].places, s'.arrays[b].places;
    assert places' == Shifted(places, n, j) && |places'| == |places|;
    forall a: nat, d | ArrayOf(s, a, d)
      ensures ArrayOf(s', a, d)
    {
      forall i | 0 <= i < |s'.arrays[a].places|
        ensures OfChannel(s'.subs, s'.arrays[a].places[i], d)
      {
        assert OfChannel(s.subs, s.arrays[a].places[i], d);
        if a == b {
          assert Shifted(places, n, j)[i] == if j <= i < n - 1 then places[i + 1] else places[i];
          if j <= i < n - 1 {
            assert OfChannel(s.subs, places[i + 1], d);
          }
        } else {
          assert s'.arrays[a] == s.arrays[a];
        }
      }
    }
  }

  lemma KeepsTwice(s: State, s1: State, s2: State)
    requires Keeps(s, s1) && Keeps(s1, s2)
    ensures Keeps(s, s2)
  {
    hide ArrayOf;
  }

  lemma RemoveKeeps(s: State, key: string)
    requires Inv(s) && WellFormed(s)
    ensures var s' := DoRemove(s, key);
            && Keeps(s, s') && s'.threads == s.threads && |s'.subs| == |s.subs|
            && (forall q :: 0 <= q < |s.subs| ==> s'.subs[q].queue == s.subs[q].queue)
            && (forall d :: d in s'.index ==> d in s.index && s'.index[d].base == s.index[d].base)
  {
    hide *;
    if key in s.entries {
      EntriesInRange(s);
      RemoveIs(s, key);
      RemovedStatusParts(s, key);
      RemovedKeeps(s, key);
    } else {
      RemoveNothing(s, key);
      SameArraysKeep(s, s);
    }
  }

  lemma RemovedKeeps(s: State, key: string)
    requires WellFormed(s) && key in s.entries && s.entries[key] < |s.subs|
    requires var q := s.entries[key]; var c := ChannelName(s.subs[q].subType);
             DoRemove(s, key) == Unindex(s, c, q).(subs := Closed(s.subs, q), entries := s.entries - {key})
    ensures var s' := DoRemove(s, key);
            && Keeps(s, s') && |s'.subs| == |s.subs|
            && (forall q :: 0 <= q < |s.subs| ==> s'.subs[q].queue == s.subs[q].queue)
            && (forall d :: d in s'.index ==> d in s.index && s'.index[d].base == s.index[d].base)
  {
    hide WellFormed, ChannelName, DoRemove, Unindex, Keeps;
    var q, s' := s.entries[key], DoRemove(s, key);
    var s1 := Unindex(s, ChannelName(s.subs[q].subType), q);
    UnindexKeeps(s, ChannelName(s.subs[q].subType), q);
    UnindexRest(s, ChannelName(s.subs[q].subType), q);
    SameArraysKeep(s1, s');
    KeepsTwice(s, s1, s');
  }

  lemma PartsDelivery(ms: set<Message>, s: State)
    requires forall q :: 0 <= q < |s.subs| ==> QueueOk(ms, s.subs[q])
    requires forall t :: 0 <= t < |s.threads| ==> Carries(ms, s, s.threads[t])
    requires forall c :: c in s.index ==> ArrayOf(s, s.index[c].base, c)
    ensures DeliveryInv(ms, s)
  {
    hide QueueOk, Carries, ArrayOf;
  }

  /** A step that removes or closes, or in which a handler receives. */
  lemma QuietStep(ms: set<Message>, s: State, s': State)
    requires DeliveryInv(ms, s) && Keeps(s, s') && |s'.subs| == |s.subs| && s'.threads == s.threads
    requires forall q :: 0 <= q < |s.subs| ==>
               s'.subs[q].queue == s.subs[q].queue ||
                 (s.subs[q].queue != [] && s'.subs[q].queue == s.subs[q].queue[1..])
    requires forall d :: d in s'.index ==> d in s.index && s'.index[d].base == s.index[d].base
    ensures DeliveryInv(ms, s')
  {
    hide QueueOk, Carries, ArrayOf;
    forall q | 0 <= q < |s'.subs|
      ensures QueueOk(ms, s'.subs[q])
    {
      QueueStays(ms, ms, s.subs[q], s'.subs[q]);
    }
    forall t | 0 <= t < |s'.threads|
      ensures Carries(ms, s', s'.threads[t])
    {
      CarriesStays(ms, s, s', s.threads[t]);
    }
    PartsDelivery(ms, s');
  }

  /** A step of a thread, which may add to one queue. */
  lemma ThreadStep(ms: set<Message>, s: State, s': State, t: nat, q: nat)
    requires DeliveryInv(ms, s) && Keeps(s, s') && |s'.threads| == |s.threads| && t < |s.threads|
    requires forall u :: 0 <= u < |s.threads| && u != t ==> s'.threads[u] == s.threads[u]
    requires Carries(ms, s', s'.threads[t])
    requires forall r :: 0 <= r < |s.subs| && r != q ==> s'.subs[r] == s.subs[r]
    requires forall r :: |s.subs| <= r < |s'.subs| ==> s'.subs[r].queue == []
    requires q < |s.subs| ==> s'.subs[q] == s.subs[q] || QueueOk(ms, s'.subs[q])
    requires forall d :: d in s'.index ==>
               (d in s.index && s'.index[d].base == s.index[d].base) || ArrayOf(s', s'.index[d].base, d)
    ensures DeliveryInv(ms, s')
  {
    hide Carries, ArrayOf, Meant;
    forall u | 0 <= u < |s'.threads|
      ensures Carries(ms, s', s'.threads[u])
    {
      if u != t {
        CarriesStays(ms, s, s', s.threads[u]);
      }
    }
    forall r | 0 <= r < |s'.subs|
      ensures QueueOk(ms, s'.subs[r])
    {
    }
    PartsDelivery(ms, s');
  }

  lemma AppendIndex(s: State, c: string, q: nat, spare: nat)
    requires WellFormed(s)
    ensures var s1 := Append(s, c, q, spare);
            && s1.subs == s.subs && s1.threads == s.threads && s1.status == s.status && s1.entries == s.entries
            && c in s1.index && forall d :: d in s1.index && d != c ==> d in s.index && s1.index[d] == s.index[d]
  {
    hide WellFormed, Live;
    LiveIs(s, c);
  }

  lemma InsertDelivers(ms: set<Message>, s: State, t: nat, spare: nat)
    requires WellFormed(s) && DeliveryInv(ms, s) && t < |s.threads| && s.threads[t].Insert?
    ensures DeliveryInv(ms, RunThread(s, t, spare))
  {
    hide WellFormed, Carries, ArrayOf, Append, ChannelName, QueueOk;
    var pc, s' := s.threads[t], RunThread(s, t, spare);
    var c := ChannelName(pc.subType);
    AppendIndex(s, c, |s.subs|, spare);
    AppendKeeps(s, s', c, |s.subs|, spare);
    DoneCarries(ms, s');
    ThreadStep(ms, s, s', t, |s.subs|);
  }

  lemma DoneCarries(ms: set<Message>, s: State)
    ensures Carries(ms, s, Done)
  {
  }

  lemma DispatchDelivers(ms: set<Message>, s: State, t: nat, spare: nat)
    requires WellFormed(s) && DeliveryInv(ms, s) && t < |s.threads|
    requires s.threads[t].Read? || s.threads[t].Load? || s.threads[t].Send?
    ensures DeliveryInv(ms, RunThread(s, t, spare))
  {
    var pc, s' := s.threads[t], RunThread(s, t, spare);
    assert ThreadOk(s, pc) && Carries(ms, s, pc);
    hide WellFormed, ChannelName, Matches, QueueOk, Meant;
    if pc.Send? {
      assert Matches(s.subs[pc.sub].subType, s.subs[pc.sub].params, pc.message);
      if s.subs[pc.sub].open && |s.subs[pc.sub].queue| < Capacity(s.subs[pc.sub].subType) {
        QueueGrows(ms, s.subs[pc.sub], s'.subs[pc.sub], pc.message);
      }
    }
    hide ArrayOf;
    SameArraysKeep(s, s');
    CarriesOn(ms, s, s', t, spare);
    ThreadStep(ms, s, s', t, if pc.Send? then pc.sub else |s.subs|);
  }

  lemma CarriesOn(ms: set<Message>, s: State, s': State, t: nat, spare: nat)
    requires WellFormed(s) && DeliveryInv(ms, s) && t < |s.threads| && ThreadOk(s, s.threads[t])
    requires s.threads[t].Read? || s.threads[t].Load? || s.threads[t].Send?
    requires s' == RunThread(s, t, spare) && Keeps(s, s')
    ensures Carries(ms, s', s'.threads[t])
  {
    var pc := s.threads[t];
    assert Carries(ms, s, pc);
    CarriesStays(ms, s, s', pc);
    hide WellFormed, ChannelName, Matches, QueueOk, Keeps;
    if pc.Load? && pc.next < pc.list.len {
      assert OfChannel(s'.subs, s'.arrays[pc.list.base].places[pc.next], pc.message.channel);
    }
  }

  lemma StepDelivers(ms: set<Message>, s: State, e: Event)
    requires Inv(s) && WellFormed(s) && Enabled(s, e) && DeliveryInv(ms, s)
    ensures DeliveryInv(if e.Arrive? then ms + {e.message} else ms, Step(s, e))
  {
    hide Inv, WellFormed, Carries, ArrayOf, QueueOk, DoRemove, DoDisconnect, Keeps, DeliveryInv;
    var s' := Step(s, e);
    match e {
      case Subscribe(key, subType, p) => CallDelivers(ms, ms, s, s');
      case Arrive(m) => CallDelivers(ms, ms + {m}, s, s');
      case Unsubscribe(key) =>
        RemoveKeeps(s, key);
        QuietStep(ms, s, s');
      case Disconnect =>
        DisconnectIs(s);
        SameArraysKeep(s, s');
        QuietStep(ms, s, s');
      case Take(q) =>
        SameArraysKeep(s, s');
        QuietStep(ms, s, s');
      case Run(t, spare) =>
        if s.threads[t].Insert? {
          InsertDelivers(ms, s, t, spare);
        } else if s.threads[t].Check? {
          CheckDelivers(ms, s, t, spare);
        } else {
          DispatchDelivers(ms, s, t, spare);
        }
    }
  }

  lemma CheckDelivers(ms: set<Message>, s: State, t: nat, spare: nat)
    requires WellFormed(s) && DeliveryInv(ms, s) && t < |s.threads| && s.threads[t].Check?
    ensures DeliveryInv(ms, RunThread(s, t, spare))
  {
    hide WellFormed, ArrayOf, UserOn, QueueOk;
    var s' := RunThread(s, t, spare);
    SameArraysKeep(s, s');
    ThreadStep(ms, s, s', t, |s.subs|);
  }

  lemma CallDelivers(ms: set<Message>, more: set<Message>, s: State, s': State)
    requires DeliveryInv(ms, s) && ms <= more && s' == s.(threads := s'.threads)
    requires |s'.threads| == |s.threads| + 1 && s'.threads[..|s.threads|] == s.threads
    requires s'.threads[|s.threads|].Check? ||
               (s'.threads[|s.threads|].Read? && s'.threads[|s.threads|].message in more)
    ensures DeliveryInv(more, s')
  {
    hide ArrayOf, Matches, ChannelName, Meant;
    forall t | 0 <= t < |s.threads|
      ensures s'.threads[t] == s.threads[t] && Carries(ms, s, s.threads[t])
    {
      assert s'.threads[..|s.threads|][t] == s.threads[t];
    }
    forall q | 0 <= q < |s'.subs|
      ensures QueueOk(more, s'.subs[q])
    {
      QueueStays(ms, more, s.subs[q], s'.subs[q]);
    }
    forall a: nat, c | ArrayOf(s, a, c)
      ensures ArrayOf(s', a, c)
    {
      SameArraysKeep(s, s');
    }
    PartsDelivery(more, s');
  }

  lemma {:induction false} RunDelivers(ms: set<Message>, s: State, es: seq<Event>)
    requires Inv(s) && s.status != ClosedTwice && DeliveryInv(ms, s) && Exec(s, es).Some?
    ensures DeliveryInv(ms + Messages(es), Exec(s, es).value)
    decreases |es|
  {
    hide Inv, WellFormed, Enabled, Step, DeliveryInv;
    if es != [] {
      var e, rest := es[0], es[1..];
      StepKeepsInv(s, e);
      StepDelivers(ms, s, e);
      RunDelivers(if e.Arrive? then ms + {e.message} else ms, Step(s, e), rest);
      assert es == [e] + rest;
      assert ms + Messages(es) == (if e.Arrive? then ms + {e.message} else ms) + Messages(rest);
    } else {
      assert ms + Messages([]) == ms;
    }
  }

  /** In every run: all that waits in the channel of a subscription came with a message that had arrived on the
      subscription's channel and that matches it. */
  lemma DeliveredIsMeant(es: seq<Event>, s: State, q: nat, i: nat)
    requires Reaches(es, s) && q < |s.subs| && i < |s.subs[q].queue|
    ensures Meant(Messages(es), s.subs[q], s.subs[q].queue[i])
  {
    InitInv();
    RunDelivers({}, Init, es);
    assert QueueOk({} + Messages(es), s.subs[q]);
    assert {} + Messages(es) == Messages(es);
  }

  /** In every run: a subscription for the books, best offers or context of a coin holds nothing that does not name the
      coin, one for trades nothing without a trade of it, and a user's nothing that does not name the user. */
  lemma DeliveredIsOwn(es: seq<Event>, s: State, q: nat, i: nat)
    requires Reaches(es, s) && q < |s.subs| && i < |s.subs[q].queue|
    ensures var t, p, data := s.subs[q].subType, s.subs[q].params, s.subs[q].queue[i];
            && (ByCoin(t) || t.Trades? ==> OfCoin(t, data, p.coin))
            && (t.Candle? ==> Says(data, "i", p.interval) && !SaysOther(data, "s", p.coin))
            && (ByUser(t) && t != OrderUpdates ==> !SaysOther(data, "user", p.user))
            && (ByUser(t) && t != OrderUpdates && t != ActiveAssetData ==> Says(data, "user", p.user))
            && (t == ActiveAssetData ==> Says(data, "coin", p.coin))
  {
    DeliveredIsMeant(es, s, q, i);
    var t, p := s.subs[q].subType, s.subs[q].params;
    var m :| m in Messages(es) && m.data == s.subs[q].queue[i] && Matches(t, p, m);
    if ByCoin(t) {
      CoinMatchesIff(t, p, m);
    } else if t.Trades? {
      TradesMatchIff(p, m);
    } else if t.Candle? {
      CandleMatchesIff(p, m);
    } else if ByUser(t) {
      UserMatchesIff(t, p, m);
    }
  }

  // ---------------------------------------------------------------- a dispatch that runs alone

  /** What one offer does to a subscription. */
  function WithOffer(sub: Sub, m: Message): Sub {
    sub.(queue := Offered((sub.queue, sub.open), Capacity(sub.subType), sub.subType, sub.params, m).0)
  }

  /** The subscriptions after some of them were offered a message. */
  ghost function Served(subs: seq<Sub>, places: seq<nat>, m: Message): seq<Sub> {
    seq(|subs|, q requires 0 <= q < |subs| => if q in places then WithOffer(subs[q], m) else subs[q])
  }

  lemma ServedOne(subs: seq<Sub>, q: nat, places: seq<nat>, m: Message)
    requires q < |subs| && q !in places
    ensures Served(subs[q := WithOffer(subs[q], m)], places, m) == Served(subs, [q] + places, m)
  {
    var a, b := Served(subs[q := WithOffer(subs[q], m)], places, m), Served(subs, [q] + places, m);
    hide WithOffer;
    forall r | 0 <= r < |subs|
      ensures a[r] == b[r]
    {
      assert r in [q] + places <==> r == q || r in places;
    }
  }

  lemma ExecStep(s: State, e: Event, es: seq<Event>)
    requires WellFormed(s) && Enabled(s, e)
    ensures Exec(s, [e] + es) == Exec(Step(s, e), es)
  {
    hide WellFormed, Enabled, Step;
    assert ([e] + es)[1..] == es;
  }

  /** The open subscriptions in the places from `i` on, each once. */
  ghost predicate Awaits(s: State, list: List, i: nat) {
    && ListOk(s.arrays, list) && i <= list.len && Different(s.arrays[list.base].places[i..list.len])
    && forall j :: i <= j < list.len ==> PlaceOpen(s, s.arrays[list.base].places[j])
  }

  predicate PlaceOpen(s: State, q: nat) { q < |s.subs| && s.subs[q].open }

  lemma {:induction false} ServeAlone(s: State, t: nat, m: Message, list: List, i: nat)
    returns (es: seq<Event>, s': State)
    requires WellFormed(s) && s.status.Running? && t < |s.threads| && s.threads[t] == Load(m, list, i)
    requires Awaits(s, list, i)
    ensures Exec(s, es) == Some(s')
    ensures s' == s.(subs := Served(s.subs, s.arrays[list.base].places[i..list.len], m), threads :=
                     s.threads[t := Done])
    decreases list.len - i
  {
    hide WellFormed, Matches, Exec;
    if i == list.len {
      es, s' := [Run(t, 0)] + [], RunThread(s, t, 0);
      ExecStep(s, Run(t, 0), []);
      ExecNone(s');
      assert Served(s.subs, [], m) == s.subs;
    } else {
      var places := s.arrays[list.base].places;
      var q, rest := places[i], places[i + 1..list.len];
      assert places[i..list.len] == [q] + rest;
      assert PlaceOpen(s, q);
      assert q !in rest by { NotAgain(q, rest); }
      var s1 := s.(subs := s.subs[q := WithOffer(s.subs[q], m)], threads := s.threads[t := Load(m, list, i + 1)]);
      var first := OfferAlone(s, t, m, list, i, q, s1);
      AwaitsOn(s, s1, list, i, q);
      var more;
      more, s' := ServeAlone(s1, t, m, list, i + 1);
      es := first + more;
      ExecJoins(s, first, s1, more);
      ServedOne(s.subs, q, rest, m);
    }
  }

  lemma NotAgain(q: nat, rest: seq<nat>)
    requires Different([q] + rest)
    ensures q !in rest
  {
    forall i | 0 <= i < |rest|
      ensures rest[i] != q
    {
      assert ([q] + rest)[i + 1] == rest[i] && ([q] + rest)[0] == q;
    }
  }

  lemma ExecNone(s: State)
    ensures Exec(s, []) == Some(s)
  {
  }

  lemma {:induction false} ExecJoins(s: State, es: seq<Event>, s1: State, more: seq<Event>)
    requires Exec(s, es) == Some(s1)
    ensures Exec(s, es + more) == Exec(s1, more)
    decreases |es|
  {
    hide WellFormed, Enabled, Step;
    if es == [] {
      assert es + more == more;
    } else {
      ExecJoins(Step(s, es[0]), es[1..], s1, more);
      assert (es + more)[1..] == es[1..] + more;
    }
  }

  lemma AwaitsOn(s: State, s1: State, list: List, i: nat, q: nat)
    requires Awaits(s, list, i) && i < list.len && s1.arrays == s.arrays && q < |s.subs|
    requires |s1.subs| == |s.subs| && forall r :: 0 <= r < |s.subs| ==> s1.subs[r].open == s.subs[r].open
    ensures Awaits(s1, list, i + 1)
  {
    var a, b := s.arrays[list.base].places[i..list.len], s.arrays[list.base].places[i + 1..list.len];
    assert b == a[1..];
    forall j | i + 1 <= j < list.len
      ensures PlaceOpen(s1, s1.arrays[list.base].places[j])
    {
      assert PlaceOpen(s, s.arrays[list.base].places[j]);
    }
  }

  /** One round of the dispatch: the place is loaded, and if the subscription matches, the message is offered. */
  lemma OfferAlone(s: State, t: nat, m: Message, list: List, i: nat, q: nat, s1: State) returns (es: seq<Event>)
    requires WellFormed(s) && s.status.Running? && t < |s.threads| && s.threads[t] == Load(m, list, i)
    requires ListOk(s.arrays, list) && i < list.len && s.arrays[list.base].places[i] == q
    requires PlaceOpen(s, q)
    requires s1 == s.(subs := s.subs[q := WithOffer(s.subs[q], m)], threads := s.threads[t := Load(m, list, i + 1)])
    ensures Exec(s, es) == Some(s1) && WellFormed(s1)
  {
    hide Matches, Exec, Capacity, WellFormed;
    var sub := s.subs[q];
    assert RunThread(s, t, 0) == DoLoad(s, t, m, list, i);
    MovesWellFormed(s, s1, t);
    if Fits(s, q, m) {
      var s2 := Goto(s, t, Send(m, list, i, q));
      MovesWellFormed(s, s2, t);
      assert RunThread(s2, t, 0) == DoSend(s2, t, m, list, i, q) == s1 by {
        SentOnce(s, s2, t, m, list, i, q, s1);
      }
      es := [Run(t, 0)] + ([Run(t, 0)] + []);
      ExecStep(s2, Run(t, 0), []);
      ExecStep(s, Run(t, 0), [Run(t, 0)] + []);
      ExecNone(s1);
    } else {
      assert s1.subs == s.subs;
      es := [Run(t, 0)] + [];
      ExecStep(s, Run(t, 0), []);
      ExecNone(s1);
    }
  }

  lemma SentOnce(s: State, s2: State, t: nat, m: Message, list: List, i: nat, q: nat, s1: State)
    requires t < |s.threads| && PlaceOpen(s, q) && Fits(s, q, m) && s2 == Goto(s, t, Send(m, list, i, q))
    requires s1 == s.(subs := s.subs[q := WithOffer(s.subs[q], m)], threads := s.threads[t := Load(m, list, i + 1)])
    ensures DoSend(s2, t, m, list, i, q) == s1
  {
    hide Matches, Capacity;
    var sub := s.subs[q];
    if |sub.queue| >= Capacity(sub.subType) {
      assert WithOffer(sub, m) == sub;
    }
  }

  lemma MovesWellFormed(s: State, s': State, t: nat)
    requires WellFormed(s) && t < |s.threads| == |s'.threads| && |s'.subs| == |s.subs|
    requires s' == s.(subs := s'.subs, threads := s.threads[t := s'.threads[t]]) && ThreadOk(s', s'.threads[t])
    ensures WellFormed(s')
  {
    WellFormedParts(s);
    hide WellFormed, ThreadOk;
    forall u | 0 <= u < |s'.threads|
      ensures ThreadOk(s', s'.threads[u])
    {
      if u != t {
        ThreadStaysOk(s, s', s.threads[u]);
      }
    }
    PartsWellFormed(s');
  }

  /** From every state, a dispatch that runs alone offers the message once to every subscription in its channel's list
      and changes nothing else. */
  lemma LoneDispatch(s: State, m: Message) returns (es: seq<Event>, s': State)
    requires Inv(s) && WellFormed(s) && s.status.Running?
    ensures Exec(s, [Arrive(m)] + es) == Some(s')
    ensures s' == s.(subs := Served(s.subs, Live(s, m.channel), m), threads := s.threads + [Done])
  {
    hide Exec, Matches, WellFormed;
    OfInv(s);
    LiveIs(s, m.channel);
    var n, s1 := |s.threads|, Step(s, Arrive(m));
    CalledWellFormed(s, s1);
    var c := m.channel;
    if c in s.index {
      var list := s.index[c];
      assert LiveOk(s, c);
      hide Inv, Live, ChannelName;
      var places := s.arrays[list.base].places;
      assert places[0..list.len] == places[..list.len];
      assert Awaits(s, list, 0) by {
        forall j | 0 <= j < list.len
          ensures PlaceOpen(s, places[j])
        {
          assert LiveSub(s.subs, c, Live(s, c)[j]);
        }
      }
      var s2 := RunThread(s1, n, 0);
      assert s2 == Goto(s1, n, Load(m, list, 0));
      MovesWellFormed(s1, s2, n);
      AwaitsSame(s, s2, list);
      var rest;
      rest, s' := ServeAlone(s2, n, m, list, 0);
      es := [Run(n, 0)] + rest;
      ExecStep(s1, Run(n, 0), rest);
      ExecStep(s, Arrive(m), es);
      assert s'.threads == s.threads + [Done];
    } else {
      es, s' := [Run(n, 0)] + [], RunThread(s1, n, 0);
      ExecNone(s');
      ExecStep(s1, Run(n, 0), []);
      ExecStep(s, Arrive(m), es);
      assert s'.threads == s.threads + [Done];
      assert Served(s.subs, [], m) == s.subs;
    }
  }

  lemma AwaitsSame(s: State, s': State, list: List)
    requires Awaits(s, list, 0) && s'.arrays == s.arrays && s'.subs == s.subs
    ensures Awaits(s', list, 0)
  {
    forall j | 0 <= j < list.len
      ensures PlaceOpen(s', s'.arrays[list.base].places[j])
    {
      assert PlaceOpen(s, s.arrays[list.base].places[j]);
    }
  }

  lemma CalledWellFormed(s: State, s1: State)
    requires WellFormed(s) && s1 == s.(threads := s1.threads) && |s1.threads| == |s.threads| + 1
    requires s1.threads == s.threads + [s1.threads[|s.threads|]] && ThreadOk(s1, s1.threads[|s.threads|])
    ensures WellFormed(s1)
  {
    WellFormedParts(s);
    hide WellFormed, ThreadOk;
    forall u | 0 <= u < |s1.threads|
      ensures ThreadOk(s1, s1.threads[u])
    {
      if u < |s.threads| {
        ThreadStaysOk(s, s1, s.threads[u]);
      }
    }
    PartsWellFormed(s1);
  }

  /** From every state, a subscribing call that runs alone does nothing if it names a user who has a subscription on
      the channel; otherwise the new subscription is filed under the key, and is the last in its channel's list. */
  lemma LoneSubscribe(s: State, key: string, subType: SubType, p: Params, spare: nat) returns (es: seq<Event>,
      s': State)
    requires Inv(s) && WellFormed(s) && s.status.Running?
    ensures Exec(s, [Subscribe(key, subType, p)] + es) == Some(s') && s'.threads == s.threads + [Done]
    ensures if p.user != "" && UserOn(s, ChannelName(subType), p.user) then s' == s.(threads := s'.threads)
            else
              && s'.subs == s.subs + [Sub(subType, p, [], true)] && s'.entries == s.entries[key := |s.subs|]
              && s'.status == s.status && WellFormed(s')
              && forall c :: Live(s', c) == Live(s, c) + if c == ChannelName(subType) then [|s.subs|] else []
  {
    hide Exec, WellFormed, UserOn, ChannelName, Live, Append, DoInsert;
    OfInv(s);
    hide Inv;
    var n, s1 := |s.threads|, Step(s, Subscribe(key, subType, p));
    CalledWellFormed(s, s1);
    LooksTheSame(s, s1, ChannelName(subType), p.user);
    var s2 := RunThread(s1, n, spare);
    MovesWellFormed(s1, s2, n);
    if p.user != "" && UserOn(s, ChannelName(subType), p.user) {
      es, s' := [Run(n, spare)] + [], s2;
      ExecNone(s');
      ExecStep(s1, Run(n, spare), []);
      ExecStep(s, Subscribe(key, subType, p), es);
    } else {
      s' := RunThread(s2, n, spare);
      InsertWellFormed(s2, n, key, subType, p, spare);
      InsertStatus(s2, n, key, subType, p, spare);
      forall c
        ensures Live(s', c) == Live(s, c) + if c == ChannelName(subType) then [|s.subs|] else []
      {
        InsertLive(s2, n, key, subType, p, spare, c);
        SameLive(s, s2, c);
      }
      es := [Run(n, spare)] + ([Run(n, spare)] + []);
      ExecNone(s');
      ExecStep(s2, Run(n, spare), []);
      ExecStep(s1, Run(n, spare), [Run(n, spare)] + []);
      ExecStep(s, Subscribe(key, subType, p), es);
      InsertIs(s2, n, key, subType, p, spare);
    }
  }

  lemma InsertIs(s: State, t: nat, key: string, subType: SubType, p: Params, spare: nat)
    requires WellFormed(s) && t < |s.threads|
    ensures var s' := DoInsert(s, t, key, subType, p, spare);
            && s'.subs == s.subs + [Sub(subType, p, [], true)] && s'.entries == s.entries[key := |s.subs|]
            && s'.threads == s.threads[t := Done]
  {
    hide WellFormed, Append;
  }

  lemma LooksTheSame(s: State, s1: State, c: string, user: string)
    requires WellFormed(s) && WellFormed(s1) && s1.index == s.index && s1.arrays == s.arrays && s1.subs == s.subs
    ensures UserOn(s1, c, user) <==> UserOn(s, c, user)
  {
    SameLive(s, s1, c);
    hide WellFormed, Live;
  }
}
