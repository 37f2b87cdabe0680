/** The WebSocket client's registry under concurrent calls: subscribing looks for the user and files the subscription
    under two separate locks, and dispatching a message reads the list of its channel under the lock and the places of
    the list without it, while a removal shifts the list in place. */
module RegistryRuns {
  import opened SubscriptionKeys
  import opened Registry

  datatype Option<+T> = None | Some(value: T)

  /** A subscription and its channel. */
  datatype Sub = Sub(subType: SubType, params: Params, queue: seq<Json>, open: bool)

  /** The memory behind a list: the places ever written, and how many there are. */
  datatype Array = Array(places: seq<nat>, capacity: nat)

  /** A list as Go passes it around: its array and its length. */
  datatype List = List(base: nat, len: nat)

  datatype Thread =
    | Done
    | Check(key: string, subType: SubType, params: Params)     // addSubscription: look for the user
    | Insert(key: string, subType: SubType, params: Params)    // addSubscription: file and index
    | Read(message: Message)                                   // dispatch: read the list under the lock
    | Load(message: Message, list: List, next: nat)            // dispatch: load the next place, match
    | Send(message: Message, list: List, next: nat, sub: nat)  // dispatch: send without blocking

  datatype Status = Running | SentOnClosed | ClosedTwice

  datatype State = State(subs: seq<Sub>, entries: map<string, nat>, index: map<string, List>, arrays: seq<Array>,
                         threads: seq<Thread>, status: Status)

  const Init := State([], map[], map[], [], [], Running)

  datatype Event =
    | Subscribe(key: string, subType: SubType, params: Params)
    | Arrive(message: Message)
    | Unsubscribe(key: string)                                 // removeSubscription, under one lock
    | Disconnect                                               // under one lock
    | Take(sub: nat)                                           // a handler receives
    | Run(thread: nat, spare: nat)                             // `spare` places are added when a list is moved

  // ---------------------------------------------------------------- the steps

  predicate ListOk(arrays: seq<Array>, list: List) { list.base < |arrays| && list.len <= |arrays[list.base].places| }

  predicate WellFormed(s: State) {
    && (forall k :: k in s.entries ==> s.entries[k] < |s.subs|)
    && (forall c :: c in s.index ==> ListOk(s.arrays, s.index[c]))
    && (forall a :: 0 <= a < |s.arrays| ==> PlacesOk(s.arrays[a], |s.subs|))
    && (forall t :: 0 <= t < |s.threads| ==> ThreadOk(s, s.threads[t]))
  }

  predicate PlacesOk(a: Array, subs: nat) {
    |a.places| <= a.capacity && forall i :: 0 <= i < |a.places| ==> a.places[i] < subs
  }

  predicate ThreadOk(s: State, pc: Thread) {
    (pc.Load? || pc.Send? ==> ListOk(s.arrays, pc.list)) && (pc.Send? ==> pc.sub < |s.subs|)
  }

  /** What a channel's list holds. */
  function Live(s: State, c: string): seq<nat>
    requires WellFormed(s)
  {
    if c in s.index then assert ListOk(s.arrays, s.index[c]); s.arrays[s.index[c].base].places[..s.index[c].len] else []
  }

  function Goto(s: State, t: nat, pc: Thread): State
    requires t < |s.threads|
  {
    s.(threads := s.threads[t := pc])
  }

  /** The user has a subscription on the channel. */
  predicate UserOn(s: State, c: string, user: string)
    requires WellFormed(s)
  {
    exists i :: 0 <= i < |Live(s, c)| && Live(s, c)[i] < |s.subs| && s.subs[Live(s, c)[i]].params.user == user
  }

  function DoCheck(s: State, t: nat, key: string, subType: SubType, p: Params): State
    requires WellFormed(s) && t < |s.threads|
  {
    Goto(s, t, if p.user != "" && UserOn(s, ChannelName(subType), p.user) then Done else Insert(key, subType, p))
  }

  /** Appends in place while there is room; otherwise the list moves to a new array. */
  function Append(s: State, c: string, q: nat, spare: nat): State
    requires WellFormed(s)
  {
    if c in s.index && s.index[c].len < s.arrays[s.index[c].base].capacity then
      assert ListOk(s.arrays, s.index[c]);
      var l, a := s.index[c], s.arrays[s.index[c].base];
      var places := if l.len < |a.places| then a.places[l.len := q] else a.places + [q];
      s.(arrays := s.arrays[l.base := a.(places := places)], index := s.index[c := List(l.base, l.len + 1)])
    else
      var places := Live(s, c) + [q];
      s.(arrays := s.arrays + [Array(places, |places| + spare)], index := s.index[c := List(|s.arrays|, |places|)])
  }

  function DoInsert(s: State, t: nat, key: string, subType: SubType, p: Params, spare: nat): State
    requires WellFormed(s) && t < |s.threads|
  {
    var q := |s.subs|;
    var s1 := Append(s, ChannelName(subType), q, spare);
    s1.(subs := s.subs + [Sub(subType, p, [], true)], entries := s.entries[key := q], threads := s.threads[t := Done])
  }

  function DoRead(s: State, t: nat, m: Message): State
    requires t < |s.threads|
  {
    Goto(s, t, if m.channel in s.index then Load(m, s.index[m.channel], 0) else Done)
  }

  predicate Fits(s: State, q: nat, m: Message) { q < |s.subs| && Matches(s.subs[q].subType, s.subs[q].params, m) }

  function DoLoad(s: State, t: nat, m: Message, list: List, i: nat): State
    requires t < |s.threads| && ListOk(s.arrays, list)
  {
    if i >= list.len then Goto(s, t, Done)
    else
      var q := s.arrays[list.base].places[i];
      Goto(s, t, if Fits(s, q, m) then Send(m, list, i, q) else Load(m, list, i + 1))
  }

  /** Sending on a closed channel panics; a full channel is skipped. */
  function DoSend(s: State, t: nat, m: Message, list: List, i: nat, q: nat): State
    requires t < |s.threads| && q < |s.subs|
  {
    var sub := s.subs[q];
    if !sub.open then s.(status := SentOnClosed)
    else if |sub.queue| < Capacity(sub.subType) then
      Goto(s.(subs := s.subs[q := sub.(queue := sub.queue + [m.data])]), t, Load(m, list, i + 1))
    else Goto(s, t, Load(m, list, i + 1))
  }

  function Position(a: seq<nat>, q: nat): (i: nat)
    ensures i <= |a| && (i < |a| <==> q in a) && (i < |a| ==> a[i] == q) && forall j :: 0 <= j < i ==> a[j] != q
  {
    if a == [] || a[0] == q then 0 else 1 + Position(a[1..], q)
  }

  /** The places after one was taken out of the first `n`: those behind it move up by one, the last of them stays. */
  function Shifted(places: seq<nat>, n: nat, j: nat): seq<nat>
    requires j < n <= |places|
  {
    places[..j] + places[j + 1..n] + places[n - 1..]
  }

  function Unindex(s: State, c: string, q: nat): State
    requires WellFormed(s)
  {
    if c in s.index && q in Live(s, c) then
      assert ListOk(s.arrays, s.index[c]);
      var l, a := s.index[c], s.arrays[s.index[c].base];
      s.(arrays := s.arrays[l.base := a.(places := Shifted(a.places, l.len, Position(Live(s, c), q)))],
         index := s.index[c := List(l.base, l.len - 1)])
    else s
  }

  /** Closing a closed channel panics. */
  function DoRemove(s: State, key: string): State
    requires WellFormed(s)
  {
    if key !in s.entries then s
    else
      var q := s.entries[key];
      if !s.subs[q].open then s.(status := ClosedTwice)
      else
        Unindex(s, ChannelName(s.subs[q].subType), q).(subs := s.subs[q := s.subs[q].(open := false)],
                                                       entries := s.entries - {key})
  }

  ghost predicate Entry(s: State, q: nat) { exists k :: k in s.entries && s.entries[k] == q }

  ghost function DoDisconnect(s: State): State
    requires WellFormed(s)
  {
    if (exists k :: k in s.entries && !s.subs[s.entries[k]].open)
       || (exists k, l :: k in s.entries && l in s.entries && k != l && s.entries[k] == s.entries[l])
    then s.(status := ClosedTwice)
    else
      s.(subs := seq(|s.subs|, q requires 0 <= q < |s.subs| =>
                       if Entry(s, q) then s.subs[q].(open := false) else s.subs[q]),
         entries := map[], index := map[])
  }

  ghost predicate Enabled(s: State, e: Event) {
    && s.status.Running?
    && match e
       case Take(q) => q < |s.subs| && s.subs[q].queue != []
       case Run(t, spare) => t < |s.threads| && !s.threads[t].Done?
       case _ => true
  }

  function RunThread(s: State, t: nat, spare: nat): State
    requires WellFormed(s) && t < |s.threads|
  {
    assert ThreadOk(s, s.threads[t]);
    match s.threads[t]
    case Done => s
    case Check(key, subType, p) => DoCheck(s, t, key, subType, p)
    case Insert(key, subType, p) => DoInsert(s, t, key, subType, p, spare)
    case Read(m) => DoRead(s, t, m)
    case Load(m, list, i) => DoLoad(s, t, m, list, i)
    case Send(m, list, i, q) => DoSend(s, t, m, list, i, q)
  }

  ghost function Step(s: State, e: Event): State
    requires WellFormed(s) && Enabled(s, e)
  {
    match e
    case Subscribe(key, subType, p) => s.(threads := s.threads + [Check(key, subType, p)])
    case Arrive(m) => s.(threads := s.threads + [Read(m)])
    case Unsubscribe(key) => DoRemove(s, key)
    case Disconnect => DoDisconnect(s)
    case Take(q) => s.(subs := s.subs[q := s.subs[q].(queue := s.subs[q].queue[1..])])
    case Run(t, spare) => RunThread(s, t, spare)
  }

  ghost function Exec(s: State, es: seq<Event>): Option<State>
    decreases |es|
  {
    if es == [] then Some(s)
    else if WellFormed(s) && Enabled(s, es[0]) then Exec(Step(s, es[0]), es[1..])
    else None
  }

  ghost predicate Reaches(es: seq<Event>, s: State) { Exec(Init, es) == Some(s) }

  // ---------------------------------------------------------------- what every step keeps

  predicate Different(a: seq<nat>) { forall i, j :: 0 <= i < j < |a| ==> a[i] != a[j] }

  /** A channel's list holds open subscriptions of the channel, each once. */
  ghost predicate LiveOk(s: State, c: string)
    requires WellFormed(s)
  {
    Different(Live(s, c)) && forall i :: 0 <= i < |Live(s, c)| ==> LiveSub(s.subs, c, Live(s, c)[i])
  }

  predicate LiveSub(subs: seq<Sub>, c: string, q: nat) {
    q < |subs| && subs[q].open && ChannelName(subs[q].subType) == c
  }

  /** An entry is open and indexed. */
  ghost predicate EntryOk(s: State, k: string)
    requires WellFormed(s)
  {
    k in s.entries ==> s.subs[s.entries[k]].open && s.entries[k] in Live(s, ChannelName(s.subs[s.entries[k]].subType))
  }

  ghost predicate FiledOnce(entries: map<string, nat>) {
    forall k, l :: k in entries && l in entries && entries[k] == entries[l] ==> k == l
  }

  /** No two channels share an array. */
  ghost predicate Apart(index: map<string, List>) {
    forall c, d :: c in index && d in index && c != d ==> index[c].base != index[d].base
  }

  ghost predicate Inv(s: State) {
    WellFormed(s) && (forall c :: LiveOk(s, c)) && (forall k :: EntryOk(s, k)) && FiledOnce(s.entries) && Apart(s.index)
  }

  lemma PartsInv(s: State)
    requires WellFormed(s) && (forall c :: LiveOk(s, c)) && (forall k :: EntryOk(s, k)) && FiledOnce(s.entries)
    requires Apart(s.index)
    ensures Inv(s)
  {
    hide WellFormed, LiveOk, EntryOk, FiledOnce, Apart;
  }

  lemma OfInv(s: State)
    requires Inv(s)
    ensures WellFormed(s) && FiledOnce(s.entries) && Apart(s.index)
    ensures forall c :: LiveOk(s, c)
    ensures forall k :: EntryOk(s, k)
  {
    hide WellFormed, LiveOk, EntryOk, FiledOnce, Apart;
  }

  lemma PartsWellFormed(s: State)
    requires forall k :: k in s.entries ==> s.entries[k] < |s.subs|
    requires forall c :: c in s.index ==> ListOk(s.arrays, s.index[c])
    requires forall a :: 0 <= a < |s.arrays| ==> PlacesOk(s.arrays[a], |s.subs|)
    requires forall t :: 0 <= t < |s.threads| ==> ThreadOk(s, s.threads[t])
    ensures WellFormed(s)
  {
    hide ListOk, PlacesOk, ThreadOk;
  }

  lemma WellFormedParts(s: State)
    requires WellFormed(s)
    ensures forall k :: k in s.entries ==> s.entries[k] < |s.subs|
    ensures forall c :: c in s.index ==> ListOk(s.arrays, s.index[c])
    ensures forall a :: 0 <= a < |s.arrays| ==> PlacesOk(s.arrays[a], |s.subs|)
    ensures forall t :: 0 <= t < |s.threads| ==> ThreadOk(s, s.threads[t])
  {
    hide ListOk, PlacesOk, ThreadOk;
  }

  lemma LiveIs(s: State, c: string)
    requires WellFormed(s)
    ensures c in s.index ==>
              ListOk(s.arrays, s.index[c]) &&
              Live(s, c) == s.arrays[s.index[c].base].places[..s.index[c].len]
    ensures c !in s.index ==> Live(s, c) == []
  {
    WellFormedParts(s);
    hide WellFormed;
  }

  /** Arrays are only added, and their places are overwritten or added. */
  ghost predicate Grows(s: State, s': State) {
    && |s.subs| <= |s'.subs| && |s.arrays| <= |s'.arrays|
    && (forall a :: 0 <= a < |s.arrays| ==> |s.arrays[a].places| <= |s'.arrays[a].places|)
  }

  lemma ThreadStaysOk(s: State, s': State, pc: Thread)
    requires Grows(s, s') && ThreadOk(s, pc)
    ensures ThreadOk(s', pc)
  {
  }

  // A step that touches neither lists nor entries nor whether a channel is open

  ghost predicate OnlyQueues(s: State, s': State) {
    && s'.entries == s.entries && s'.index == s.index && s'.arrays == s.arrays && |s'.subs| == |s.subs|
    && forall q :: 0 <= q < |s.subs| ==> s'.subs[q] == s.subs[q].(queue := s'.subs[q].queue)
  }

  lemma QueuesKeepInv(s: State, s': State)
    requires Inv(s) && OnlyQueues(s, s') && forall t :: 0 <= t < |s'.threads| ==> ThreadOk(s', s'.threads[t])
    ensures Inv(s')
  {
    OfInv(s);
    assert WellFormed(s');
    hide Inv, WellFormed, ThreadOk, ChannelName;
    forall c
      ensures LiveOk(s', c)
    {
      assert LiveOk(s, c) && Live(s', c) == Live(s, c);
    }
    forall k
      ensures EntryOk(s', k)
    {
      assert EntryOk(s, k);
      if k in s.entries {
        SameLive(s, s', ChannelName(s.subs[s.entries[k]].subType));
      }
    }
    PartsInv(s');
  }

  lemma SameLive(s: State, s': State, c: string)
    requires WellFormed(s) && WellFormed(s') && s'.index == s.index && s'.arrays == s.arrays
    ensures Live(s', c) == Live(s, c)
  {
    hide WellFormed;
  }

  // ---------------------------------------------------------------- filing

  lemma AppendArrays(s: State, c: string, spare: nat)
    requires WellFormed(s)
    ensures var s' := Append(s, c, |s.subs|, spare);
            && |s.arrays| <= |s'.arrays|
            && (forall a :: 0 <= a < |s.arrays| ==> |s.arrays[a].places| <= |s'.arrays[a].places|)
            && (forall a :: 0 <= a < |s'.arrays| ==> PlacesOk(s'.arrays[a], |s.subs| + 1))
            && (forall d :: d in s'.index ==> ListOk(s'.arrays, s'.index[d]))
            && s'.subs == s.subs && s'.entries == s.entries && s'.threads == s.threads && s'.status == s.status
  {
    WellFormedParts(s);
    LiveIs(s, c);
    hide WellFormed, ThreadOk;
  }

  lemma InsertWellFormed(s: State, t: nat, key: string, subType: SubType, p: Params, spare: nat)
    requires WellFormed(s) && t < |s.threads|
    ensures WellFormed(DoInsert(s, t, key, subType, p, spare)) && Grows(s, DoInsert(s, t, key, subType, p, spare))
  {
    hide ChannelName, WellFormed, Append, PlacesOk, ListOk, ThreadOk;
    var s' := DoInsert(s, t, key, subType, p, spare);
    WellFormedParts(s);
    AppendArrays(s, ChannelName(subType), spare);
    assert ThreadOk(s', Done) by { DoneOk(s'); }
    forall u | 0 <= u < |s'.threads|
      ensures ThreadOk(s', s'.threads[u])
    {
      if u != t {
        ThreadStaysOk(s, s', s.threads[u]);
      }
    }
    PartsWellFormed(s');
  }

  lemma DoneOk(s: State)
    ensures ThreadOk(s, Done)
  {
  }

  /** The new subscription is the last of its channel's list; the other lists stay. */
  lemma InsertLive(s: State, t: nat, key: string, subType: SubType, p: Params, spare: nat, c: string)
    requires WellFormed(s) && Apart(s.index) && t < |s.threads| && WellFormed(DoInsert(s, t, key, subType, p, spare))
    ensures var s' := DoInsert(s, t, key, subType, p, spare);
            Live(s', c) == Live(s, c) + if c == ChannelName(subType) then [|s.subs|] else []
  {
    hide ChannelName, ThreadOk;
  }

  lemma InsertApart(s: State, t: nat, key: string, subType: SubType, p: Params, spare: nat)
    requires WellFormed(s) && Apart(s.index) && t < |s.threads|
    ensures Apart(DoInsert(s, t, key, subType, p, spare).index)
  {
    hide ChannelName, ThreadOk;
    forall c | c in s.index
      ensures s.index[c].base < |s.arrays|
    {
      assert ListOk(s.arrays, s.index[c]);
    }
    hide WellFormed;
  }

  lemma LiveGrown(s: State, s': State, c: string, d: string, sub: Sub)
    requires WellFormed(s) && WellFormed(s') && LiveOk(s, c) && s'.subs == s.subs + [sub] && sub.open
    requires ChannelName(sub.subType) == d
    requires Live(s', c) == Live(s, c) + if c == d then [|s.subs|] else []
    ensures LiveOk(s', c)
  {
    hide WellFormed, ChannelName, Live;
  }

  lemma EntryGrown(s: State, s': State, key: string, k: string, sub: Sub)
    requires WellFormed(s) && WellFormed(s') && EntryOk(s, k) && s'.subs == s.subs + [sub] && sub.open
    requires s'.entries == s.entries[key := |s.subs|]
    requires forall c :: Live(s', c) == Live(s, c) + if c == ChannelName(sub.subType) then [|s.subs|] else []
    ensures EntryOk(s', k)
  {
    EntriesInRange(s);
    hide WellFormed, ChannelName, Live;
  }

  lemma InsertKeepsInv(s: State, t: nat, key: string, subType: SubType, p: Params, spare: nat)
    requires Inv(s) && WellFormed(s) && t < |s.threads|
    ensures Inv(DoInsert(s, t, key, subType, p, spare))
  {
    var s', sub := DoInsert(s, t, key, subType, p, spare), Sub(subType, p, [], true);
    assert s'.subs == s.subs + [sub] && s'.entries == s.entries[key := |s.subs|];
    hide *;
    OfInv(s);
    InsertWellFormed(s, t, key, subType, p, spare);
    InsertApart(s, t, key, subType, p, spare);
    forall c
      ensures Live(s', c) == Live(s, c) + if c == ChannelName(subType) then [|s.subs|] else []
      ensures LiveOk(s', c)
    {
      InsertLive(s, t, key, subType, p, spare, c);
      LiveGrown(s, s', c, ChannelName(subType), sub);
    }
    forall k
      ensures EntryOk(s', k)
    {
      EntryGrown(s, s', key, k, sub);
    }
    FiledGrown(s, key);
    PartsInv(s');
  }

  lemma FiledGrown(s: State, key: string)
    requires WellFormed(s) && FiledOnce(s.entries)
    ensures FiledOnce(s.entries[key := |s.subs|])
  {
    EntriesInRange(s);
    hide WellFormed;
  }

  lemma EntriesInRange(s: State)
    requires WellFormed(s)
    ensures forall k :: k in s.entries ==> s.entries[k] < |s.subs|
  {
  }

  // ---------------------------------------------------------------- removing

  lemma {:induction false} ShiftedTakes(places: seq<nat>, n: nat, j: nat)
    requires j < n <= |places|
    ensures |Shifted(places, n, j)| == |places|
    ensures Shifted(places, n, j)[..n - 1] == places[..j] + places[j + 1..n]
    ensures forall i :: 0 <= i < |places| ==>
              Shifted(places, n, j)[i] == if j <= i < n - 1 then places[i + 1] else places[i]
  {
  }

  /** A list without the one element that was taken out. */
  lemma TakenOut(a: seq<nat>, q: nat)
    requires Different(a) && q in a
    ensures var j := Position(a, q); var b := a[..j] + a[j + 1..];
            Different(b) && forall x :: x in b <==> x in a && x != q
  {
    var j := Position(a, q);
    var b := a[..j] + a[j + 1..];
    forall x | x in a && x != q
      ensures x in b
    {
      var i :| 0 <= i < |a| && a[i] == x;
      assert b[if i < j then i else i - 1] == x;
    }
  }

  /** What taking a subscription out of its channel's list changes. */
  lemma UnindexIs(s: State, c: string, q: nat)
    requires WellFormed(s) && c in s.index && q in Live(s, c)
    ensures var l, s', j := s.index[c], Unindex(s, c, q), Position(Live(s, c), q);
            && l.base < |s.arrays| && j < l.len <= |s.arrays[l.base].places|
            && s' == s.(arrays := s.arrays[l.base :=
                                           s.arrays[l.base].(places := Shifted(s.arrays[l.base].places, l.len, j))],
                        index := s.index[c := List(l.base, l.len - 1)])
  {
    WellFormedParts(s);
    hide WellFormed, PlacesOk, ThreadOk, Shifted;
  }

  lemma UnindexArrays(s: State, c: string, q: nat)
    requires WellFormed(s)
    ensures var s' := Unindex(s, c, q);
            && |s'.arrays| == |s.arrays|
            && (forall a :: 0 <= a < |s.arrays| ==>
                |s'.arrays[a].places| == |s.arrays[a].places| && PlacesOk(s'.arrays[a], |s.subs|))
            && (forall d :: d in s'.index ==> ListOk(s'.arrays, s'.index[d]))
  {
    WellFormedParts(s);
    if c in s.index && q in Live(s, c) {
      var l := s.index[c];
      UnindexIs(s, c, q);
      hide *;
      ShiftedFits(s.arrays[l.base], l.len, Position(Live(s, c), q), |s.subs|);
      forall d | d in Unindex(s, c, q).index
        ensures ListOk(Unindex(s, c, q).arrays, Unindex(s, c, q).index[d])
      {
        ListStays(s.arrays, Unindex(s, c, q).arrays, s.index[d], Unindex(s, c, q).index[d]);
      }
    }
  }

  lemma ShiftedFits(a: Array, n: nat, j: nat, subs: nat)
    requires PlacesOk(a, subs) && j < n <= |a.places|
    ensures |Shifted(a.places, n, j)| == |a.places| && PlacesOk(a.(places := Shifted(a.places, n, j)), subs)
  {
    ShiftedTakes(a.places, n, j);
  }

  lemma ListStays(arrays: seq<Array>, arrays': seq<Array>, list: List, list': List)
    requires ListOk(arrays, list) && |arrays'| == |arrays| && list'.base == list.base && list'.len <= list.len
    requires |arrays'[list.base].places| == |arrays[list.base].places|
    ensures ListOk(arrays', list')
  {
  }

  lemma UnindexWellFormed(s: State, c: string, q: nat)
    requires WellFormed(s)
    ensures WellFormed(Unindex(s, c, q)) && Grows(s, Unindex(s, c, q))
  {
    var s' := Unindex(s, c, q);
    hide WellFormed, Unindex, Live, PlacesOk, ThreadOk, ListOk;
    WellFormedParts(s);
    UnindexRest(s, c, q);
    UnindexArrays(s, c, q);
    forall u | 0 <= u < |s'.threads|
      ensures ThreadOk(s', s'.threads[u])
    {
      ThreadStaysOk(s, s', s.threads[u]);
    }
    PartsWellFormed(s');
  }

  lemma UnindexLive(s: State, c: string, q: nat, d: string)
    requires WellFormed(s) && Apart(s.index) && q in Live(s, c)
    requires WellFormed(Unindex(s, c, q))
    ensures Live(Unindex(s, c, q), d) ==
              if d == c then Live(s, c)[..Position(Live(s, c), q)] + Live(s, c)[Position(Live(s, c), q) + 1..]
                else Live(s, d)
  {
    var s', j := Unindex(s, c, q), Position(Live(s, c), q);
    assert c in s.index;
    UnindexIs(s, c, q);
    LiveIs(s, c);
    LiveIs(s, d);
    LiveIs(s', d);
    hide WellFormed, Unindex, Live, PlacesOk, ThreadOk, Shifted, Position;
    if d == c {
      ShiftedLive(s.arrays[s.index[c].base].places, s.index[c].len, j);
    } else if d in s.index {
      assert s'.index[d] == s.index[d] && s'.arrays[s.index[d].base] == s.arrays[s.index[d].base];
    }
  }

  lemma ShiftedLive(places: seq<nat>, n: nat, j: nat)
    requires j < n <= |places|
    ensures n - 1 <= |Shifted(places, n, j)|
    ensures Shifted(places, n, j)[..n - 1] == places[..n][..j] + places[..n][j + 1..]
  {
    ShiftedTakes(places, n, j);
    assert places[..n][j + 1..] == places[j + 1..n];
  }

  /** Closes a subscription. */
  function Closed(subs: seq<Sub>, q: nat): seq<Sub>
    requires q < |subs|
  {
    subs[q := subs[q].(open := false)]
  }

  /** The removal of an entry, which is open: */
  lemma RemoveIs(s: State, key: string)
    requires Inv(s) && WellFormed(s) && key in s.entries
    ensures var q := s.entries[key]; var c := ChannelName(s.subs[q].subType);
            && q in Live(s, c) && s.subs[q].open
            && DoRemove(s, key) == Unindex(s, c, q).(subs := Closed(s.subs, q), entries := s.entries - {key})
            && Apart(Unindex(s, c, q).index)
  {
    OfInv(s);
    hide Inv, WellFormed, LiveOk, Live, ChannelName;
    assert EntryOk(s, key);
  }

  lemma RemoveKeepsInv(s: State, key: string)
    requires Inv(s) && WellFormed(s)
    ensures Inv(DoRemove(s, key))
  {
    hide *;
    OfInv(s);
    if key in s.entries {
      EntriesInRange(s);
      RemoveIs(s, key);
      RemovedWellFormed(s, key);
      var s', q := DoRemove(s, key), s.entries[key];
      RemovedStatusParts(s, key);
      forall c
        ensures LiveOk(s', c)
      {
        RemovedLive(s, key, c);
      }
      forall k
        ensures EntryOk(s', k)
      {
        RemovedEntry(s, key, k);
      }
      FiledLess(s.entries, key);
      PartsInv(s');
    } else {
      RemoveNothing(s, key);
    }
  }

  lemma RemoveNothing(s: State, key: string)
    requires WellFormed(s) && key !in s.entries
    ensures DoRemove(s, key) == s
  {
    hide WellFormed;
  }

  lemma FiledLess(entries: map<string, nat>, key: string)
    requires FiledOnce(entries)
    ensures FiledOnce(entries - {key})
  {
  }

  lemma RemovedWellFormed(s: State, key: string)
    requires WellFormed(s) && key in s.entries && s.entries[key] < |s.subs|
    requires var q := s.entries[key];
             DoRemove(s, key) ==
             Unindex(s, ChannelName(s.subs[q].subType), q).(subs := Closed(s.subs, q), entries := s.entries - {key})
    ensures WellFormed(DoRemove(s, key)) && Grows(s, DoRemove(s, key))
  {
    var q := s.entries[key];
    var c := ChannelName(s.subs[q].subType);
    hide ChannelName, DoRemove, Live, Unindex, WellFormed, ThreadOk, ListOk, PlacesOk;
    UnindexWellFormed(s, c, q);
    var s1, s' := Unindex(s, c, q), DoRemove(s, key);
    UnindexRest(s, c, q);
    WellFormedParts(s1);
    forall u | 0 <= u < |s'.threads|
      ensures ThreadOk(s', s'.threads[u])
    {
      ThreadStaysOk(s1, s', s.threads[u]);
    }
    PartsWellFormed(s');
  }

  lemma UnindexRest(s: State, c: string, q: nat)
    requires WellFormed(s)
    ensures var s' := Unindex(s, c, q);
            s'.subs == s.subs && s'.entries == s.entries && s'.threads == s.threads && s'.status == s.status &&
              s'.index.Keys == s.index.Keys
  {
    hide WellFormed, Live, Shifted;
  }

  lemma RemovedStatusParts(s: State, key: string)
    requires WellFormed(s) && key in s.entries && s.entries[key] < |s.subs|
    requires var q := s.entries[key]; var c := ChannelName(s.subs[q].subType);
             && DoRemove(s, key) == Unindex(s, c, q).(subs := Closed(s.subs, q), entries := s.entries - {key})
             && Apart(Unindex(s, c, q).index)
    ensures var s' := DoRemove(s, key);
            && s'.status == s.status && s'.subs == Closed(s.subs, s.entries[key]) && s'.entries == s.entries - {key}
            && s'.threads == s.threads && Apart(s'.index)
  {
    var q := s.entries[key];
    hide WellFormed, ChannelName, DoRemove, Apart, Closed, Unindex;
    UnindexRest(s, ChannelName(s.subs[q].subType), q);
  }

  lemma RemovedLists(s: State, key: string, d: string)
    requires Inv(s) && WellFormed(s) && key in s.entries && s.entries[key] < |s.subs| && WellFormed(DoRemove(s, key))
    ensures var q := s.entries[key]; var c := ChannelName(s.subs[q].subType);
            && q in Live(s, c) && s.subs[q].open
            && Live(DoRemove(s, key), d) ==
               if d == c then Live(s, c)[..Position(Live(s, c), q)] + Live(s, c)[Position(Live(s, c), q) + 1..]
                 else Live(s, d)
  {
    hide *;
    var q := s.entries[key];
    var c := ChannelName(s.subs[q].subType);
    OfInv(s);
    RemoveIs(s, key);
    UnindexWellFormed(s, c, q);
    UnindexLive(s, c, q, d);
    LiveOnly(Unindex(s, c, q), DoRemove(s, key), d);
  }

  lemma LiveOnly(s: State, s': State, d: string)
    requires WellFormed(s) && WellFormed(s') && s'.arrays == s.arrays && s'.index == s.index
    ensures Live(s', d) == Live(s, d)
  {
    hide WellFormed;
  }

  lemma RemovedLive(s: State, key: string, d: string)
    requires Inv(s) && WellFormed(s) && key in s.entries && s.entries[key] < |s.subs| && WellFormed(DoRemove(s, key))
    requires DoRemove(s, key).subs == Closed(s.subs, s.entries[key])
    ensures LiveOk(DoRemove(s, key), d)
  {
    hide *;
    OfInv(s);
    RemovedLists(s, key, d);
    var s', q := DoRemove(s, key), s.entries[key];
    var c := ChannelName(s.subs[q].subType);
    LiveMembers(s, d);
    LiveMembers(s, c);
    if d == c {
      TakenOut(Live(s, c), q);
    }
    forall r | r in Live(s', d)
      ensures LiveSub(s'.subs, d, r)
    {
      LiveInRange(s.subs, d, r);
      if d != c {
        OneChannel(s.subs, c, d, q, r);
      }
      ClosedOthers(s.subs, q, d, r);
    }
    LiveOkOf(s', d);
  }

  lemma LiveInRange(subs: seq<Sub>, d: string, r: nat)
    requires LiveSub(subs, d, r)
    ensures r < |subs|
  {
    hide ChannelName;
  }

  lemma OneChannel(subs: seq<Sub>, c: string, d: string, q: nat, r: nat)
    requires q < |subs| && c == ChannelName(subs[q].subType) && LiveSub(subs, d, r) && c != d
    ensures q != r
  {
    hide ChannelName;
  }

  lemma ClosedOthers(subs: seq<Sub>, q: nat, d: string, r: nat)
    requires q < |subs| && LiveSub(subs, d, r) && q != r
    ensures LiveSub(Closed(subs, q), d, r)
  {
    hide ChannelName;
  }

  lemma LiveMembers(s: State, c: string)
    requires WellFormed(s) && LiveOk(s, c)
    ensures Different(Live(s, c)) && forall q :: q in Live(s, c) ==> LiveSub(s.subs, c, q)
  {
    hide WellFormed, Live, Different, LiveSub;
  }

  lemma LiveOkOf(s: State, c: string)
    requires WellFormed(s) && Different(Live(s, c)) && forall q :: q in Live(s, c) ==> LiveSub(s.subs, c, q)
    ensures LiveOk(s, c)
  {
    hide WellFormed, Live, Different, LiveSub;
  }

  lemma RemovedEntry(s: State, key: string, k: string)
    requires Inv(s) && WellFormed(s) && key in s.entries && s.entries[key] < |s.subs| && WellFormed(DoRemove(s, key))
    requires DoRemove(s, key).subs == Closed(s.subs, s.entries[key]) && DoRemove(s, key).entries == s.entries - {key}
    ensures EntryOk(DoRemove(s, key), k)
  {
    OfInv(s);
    assert EntryOk(s, k);
    var q := s.entries[key];
    var c := ChannelName(s.subs[q].subType);
    if k in s.entries && k != key {
      EntriesInRange(s);
      var d := ChannelName(s.subs[s.entries[k]].subType);
      RemovedLists(s, key, d);
      assert LiveOk(s, c);
      hide Inv, WellFormed, DoRemove, Live, ChannelName, LiveSub;
      if d == c {
        TakenOut(Live(s, c), q);
      }
      hide LiveOk, Position;
    } else {
      hide Inv, WellFormed, DoRemove, Live, ChannelName;
    }
  }

  // ---------------------------------------------------------------- disconnecting, and every step

  lemma DisconnectIs(s: State)
    requires Inv(s) && WellFormed(s)
    ensures var s' := DoDisconnect(s);
            && s'.status == s.status && s'.entries == map[] && s'.index == map[] && s'.arrays == s.arrays &&
              s'.threads == s.threads
            && |s'.subs| == |s.subs|
            && (forall q :: 0 <= q < |s.subs| ==>
                s'.subs[q] == if Entry(s, q) then s.subs[q].(open := false) else s.subs[q])
  {
    OfInv(s);
    forall k | k in s.entries
      ensures s.entries[k] < |s.subs| && s.subs[s.entries[k]].open
    {
      assert EntryOk(s, k);
      EntriesInRange(s);
    }
    hide Inv, WellFormed, LiveOk, EntryOk, Live, Entry;
  }

  lemma DisconnectKeepsInv(s: State)
    requires Inv(s) && WellFormed(s)
    ensures Inv(DoDisconnect(s))
  {
    DisconnectIs(s);
    WellFormedParts(s);
    var s' := DoDisconnect(s);
    hide Inv, DoDisconnect, Entry, PlacesOk, ThreadOk, ListOk, WellFormed;
    forall u | 0 <= u < |s'.threads|
      ensures ThreadOk(s', s'.threads[u])
    {
      ThreadStaysOk(s, s', s.threads[u]);
    }
    PartsWellFormed(s');
    forall c
      ensures LiveOk(s', c)
    {
      LiveIs(s', c);
    }
    PartsInv(s');
  }

  lemma InvIgnoresStatus(s: State, s': State)
    requires Inv(s) && s' == s.(status := s'.status)
    ensures Inv(s')
  {
    WellFormedParts(s);
    forall u | 0 <= u < |s'.threads|
      ensures ThreadOk(s', s'.threads[u])
    {
      ThreadStaysOk(s, s', s.threads[u]);
    }
    PartsWellFormed(s');
    hide WellFormed;
    QueuesKeepInv(s, s');
  }

  /** A step that moves a thread on, and at most adds to a channel's queue. */
  lemma ThreadMoves(s: State, s': State, t: nat)
    requires Inv(s) && WellFormed(s) && OnlyQueues(s, s') && t < |s.threads|
    requires |s'.threads| == |s.threads| && s'.threads == s.threads[t := s'.threads[t]] && ThreadOk(s', s'.threads[t])
    ensures Inv(s')
  {
    WellFormedParts(s);
    hide Inv, WellFormed, ThreadOk;
    forall u | 0 <= u < |s'.threads|
      ensures ThreadOk(s', s'.threads[u])
    {
      if u != t {
        ThreadStaysOk(s, s', s.threads[u]);
      }
    }
    QueuesKeepInv(s, s');
  }

  lemma LoadInRange(s: State, list: List, i: nat)
    requires WellFormed(s) && ListOk(s.arrays, list) && i < list.len
    ensures s.arrays[list.base].places[i] < |s.subs|
  {
    assert PlacesOk(s.arrays[list.base], |s.subs|);
  }

  lemma RunKeepsInv(s: State, t: nat, spare: nat)
    requires Inv(s) && WellFormed(s) && t < |s.threads| && s.status != ClosedTwice
    ensures Inv(RunThread(s, t, spare)) && RunThread(s, t, spare).status != ClosedTwice
  {
    WellFormedParts(s);
    assert ThreadOk(s, s.threads[t]);
    hide Inv, WellFormed, UserOn, Append, DoInsert;
    match s.threads[t]
    case Done =>
    case Check(key, subType, p) => ThreadMoves(s, RunThread(s, t, spare), t);
    case Insert(key, subType, p) =>
      InsertKeepsInv(s, t, key, subType, p, spare);
      InsertStatus(s, t, key, subType, p, spare);
    case Read(m) => ThreadMoves(s, RunThread(s, t, spare), t);
    case Load(m, list, i) =>
      if i < list.len {
        LoadInRange(s, list, i);
      }
      ThreadMoves(s, RunThread(s, t, spare), t);
    case Send(m, list, i, q) =>
      if s.subs[q].open {
        ThreadMoves(s, RunThread(s, t, spare), t);
      } else {
        InvIgnoresStatus(s, RunThread(s, t, spare));
      }
  }

  lemma InsertStatus(s: State, t: nat, key: string, subType: SubType, p: Params, spare: nat)
    requires WellFormed(s) && t < |s.threads|
    ensures DoInsert(s, t, key, subType, p, spare).status == s.status
  {
    hide WellFormed, Append;
    AppendArrays(s, ChannelName(subType), spare);
  }

  /** Every step keeps the invariant, and none closes a channel twice. */
  lemma StepKeepsInv(s: State, e: Event)
    requires Inv(s) && WellFormed(s) && Enabled(s, e)
    ensures Inv(Step(s, e)) && Step(s, e).status != ClosedTwice
  {
    hide Inv, RunThread, DoRemove, DoDisconnect;
    match e {
      case Run(t, spare) =>
        hide WellFormed;
        RunKeepsInv(s, t, spare);
      case Unsubscribe(key) =>
        RemoveKeepsInv(s, key);
        RemoveStatus(s, key);
      case Disconnect =>
        DisconnectKeepsInv(s);
        DisconnectIs(s);
      case _ =>
        CallThreads(s, Step(s, e));
        hide WellFormed;
        QueuesKeepInv(s, Step(s, e));
    }
  }

  lemma CallThreads(s: State, s': State)
    requires WellFormed(s) && Grows(s, s') && |s.threads| <= |s'.threads|
    requires forall t :: 0 <= t < |s.threads| ==> s'.threads[t] == s.threads[t]
    requires forall t :: |s.threads| <= t < |s'.threads| ==> s'.threads[t].Check? || s'.threads[t].Read?
    ensures forall t :: 0 <= t < |s'.threads| ==> ThreadOk(s', s'.threads[t])
  {
    forall t | 0 <= t < |s'.threads|
      ensures ThreadOk(s', s'.threads[t])
    {
      if t < |s.threads| {
        ThreadStaysOk(s, s', s.threads[t]);
      }
    }
  }

  lemma RemoveStatus(s: State, key: string)
    requires Inv(s) && WellFormed(s)
    ensures DoRemove(s, key).status == s.status
  {
    hide *;
    if key in s.entries {
      EntriesInRange(s);
      RemoveIs(s, key);
      RemovedStatusParts(s, key);
    } else {
      RemoveNothing(s, key);
    }
  }

  lemma {:induction false} ExecKeepsInv(s: State, es: seq<Event>)
    requires Inv(s) && s.status != ClosedTwice && Exec(s, es).Some?
    ensures Inv(Exec(s, es).value) && Exec(s, es).value.status != ClosedTwice
    decreases |es|
  {
    hide Inv, WellFormed, Enabled, Step;
    if es != [] {
      StepKeepsInv(s, es[0]);
      ExecKeepsInv(Step(s, es[0]), es[1..]);
    }
  }

  lemma InitInv()
    ensures Inv(Init)
  {
  }

  /** In every interleaving of subscribing, dispatching, unsubscribing and disconnecting: no channel is closed twice,
      every entry is open and in its channel's list, and a list holds open subscriptions of its channel, each once. */
  lemma NeverClosedTwice(es: seq<Event>, s: State)
    requires Reaches(es, s)
    ensures s.status != ClosedTwice && WellFormed(s)
    ensures forall k :: k in s.entries ==>
              s.subs[s.entries[k]].open &&
              s.entries[k] in Live(s, ChannelName(s.subs[s.entries[k]].subType))
    ensures forall c :: Different(Live(s, c)) && forall i :: 0 <= i < |Live(s, c)| ==> LiveSub(s.subs, c, Live(s, c)[i])
  {
    InitInv();
    hide Inv, ChannelName;
    ExecKeepsInv(Init, es);
    OfInv(s);
    hide Live, WellFormed;
    forall k | k in s.entries
      ensures s.subs[s.entries[k]].open && s.entries[k] in Live(s, ChannelName(s.subs[s.entries[k]].subType))
    {
      assert EntryOk(s, k);
    }
    forall c
      ensures Different(Live(s, c)) && forall i :: 0 <= i < |Live(s, c)| ==> LiveSub(s.subs, c, Live(s, c)[i])
    {
      assert LiveOk(s, c);
    }
  }

  lemma ExecStep(s: State, e: Event, s': State, es: seq<Event>)
    requires WellFormed(s) && Enabled(s, e) && Step(s, e) == s'
    ensures Exec(s, [e] + es) == Exec(s', es)
  {
    hide WellFormed, Enabled, Step;
    assert ([e] + es)[0] == e && ([e] + es)[1..] == es;
  }

  lemma ExecNothing(s: State)
    ensures Exec(s, []) == Some(s)
  {
  }

  lemma {:induction false} ExecAppend(s: State, es: seq<Event>, fs: seq<Event>)
    requires Exec(s, es).Some?
    ensures Exec(s, es + fs) == Exec(Exec(s, es).value, fs)
    decreases |es|
  {
    hide WellFormed, Enabled, Step;
    if es == [] {
      assert es + fs == fs;
    } else {
      ExecAppend(Step(s, es[0]), es[1..], fs);
      assert (es + fs)[0] == es[0] && (es + fs)[1..] == es[1..] + fs;
    }
  }

  lemma OnlyQueuesSelf(s: State)
    ensures OnlyQueues(s, s)
  {
  }

  lemma OnlyQueuesBoth(s: State, s': State, s'': State)
    requires OnlyQueues(s, s') && OnlyQueues(s', s'')
    ensures OnlyQueues(s, s'')
  {
  }

  /** Threads that do not file a subscription add to queues at most. */
  lemma RunOnlyQueues(s: State, t: nat, spare: nat)
    requires WellFormed(s) && t < |s.threads| && !s.threads[t].Insert?
    ensures OnlyQueues(s, RunThread(s, t, spare))
    ensures |RunThread(s, t, spare).threads| == |s.threads|
    ensures forall u :: 0 <= u < |s.threads| && u != t ==> RunThread(s, t, spare).threads[u] == s.threads[u]
  {
    assert ThreadOk(s, s.threads[t]);
    hide WellFormed, UserOn, Fits;
  }

  lemma InsertRuns(s: State, t: nat, spare: nat)
    requires WellFormed(s) && t < |s.threads| && s.threads[t].Insert?
    ensures var pc := s.threads[t]; RunThread(s, t, spare) == DoInsert(s, t, pc.key, pc.subType, pc.params, spare)
  {
    hide WellFormed, DoInsert;
  }

  // ---------------------------------------------------------------- looking and filing are two steps

  /** No user has two subscriptions on the channel. */
  ghost predicate UserOnce(s: State, c: string)
    requires WellFormed(s)
  {
    forall i, j :: 0 <= i < j < |Live(s, c)| ==> SameUser(s, Live(s, c)[i], Live(s, c)[j]) ==>
      UserOf(s, Live(s, c)[i]) == ""
  }

  function UserOf(s: State, q: nat): string { if q < |s.subs| then s.subs[q].params.user else "" }

  predicate SameUser(s: State, q: nat, r: nat) { UserOf(s, q) == UserOf(s, r) }

  /** Filing a subscription of a user leaves the user one on the channel if and only if it has none at that time; that
      it had none when addSubscription looked is not enough. */
  lemma InsertOnceIff(s: State, t: nat, key: string, subType: SubType, p: Params, spare: nat)
    requires Inv(s) && WellFormed(s) && t < |s.threads| && p.user != "" && UserOnce(s, ChannelName(subType))
    ensures WellFormed(DoInsert(s, t, key, subType, p, spare))
    ensures UserOnce(DoInsert(s, t, key, subType, p, spare), ChannelName(subType)) <==>
              !UserOn(s, ChannelName(subType), p.user)
  {
    var c, s' := ChannelName(subType), DoInsert(s, t, key, subType, p, spare);
    assert s'.subs == s.subs + [Sub(subType, p, [], true)];
    OfInv(s);
    InsertWellFormed(s, t, key, subType, p, spare);
    InsertLive(s, t, key, subType, p, spare, c);
    assert LiveOk(s, c);
    LiveMembers(s, c);
    hide Inv, WellFormed, ChannelName, DoInsert, Live, LiveOk, Different;
    var n := |Live(s, c)|;
    assert UserOf(s', |s.subs|) == p.user;
    forall i | 0 <= i < n
      ensures UserOf(s', Live(s, c)[i]) == UserOf(s, Live(s, c)[i]) && Live(s, c)[i] < |s.subs|
    {
      assert LiveSub(s.subs, c, Live(s, c)[i]);
    }
    hide UserOf;
    if UserOn(s, c, p.user) {
      var i :| 0 <= i < n && Live(s, c)[i] < |s.subs| && s.subs[Live(s, c)[i]].params.user == p.user;
      UserIs(s, Live(s, c)[i]);
      assert SameUser(s', Live(s', c)[i], Live(s', c)[n]);
    } else {
      forall i, j | 0 <= i < j < |Live(s', c)| && SameUser(s', Live(s', c)[i], Live(s', c)[j])
        ensures UserOf(s', Live(s', c)[i]) == ""
      {
        UserIs(s, Live(s, c)[i]);
        if j < n {
          assert SameUser(s, Live(s, c)[i], Live(s, c)[j]);
        }
      }
    }
  }

  lemma UserIs(s: State, q: nat)
    requires q < |s.subs|
    ensures UserOf(s, q) == s.subs[q].params.user
  {
  }

  lemma InsertThreads(s: State, t: nat, key: string, subType: SubType, p: Params, spare: nat)
    requires WellFormed(s) && t < |s.threads|
    ensures DoInsert(s, t, key, subType, p, spare).threads == s.threads[t := Done]
  {
    hide WellFormed, Append;
  }

  lemma FiledIsOn(s: State, t: nat, key: string, subType: SubType, p: Params, spare: nat)
    requires Inv(s) && WellFormed(s) && t < |s.threads| && WellFormed(DoInsert(s, t, key, subType, p, spare))
    ensures UserOn(DoInsert(s, t, key, subType, p, spare), ChannelName(subType), p.user)
  {
    var c, s' := ChannelName(subType), DoInsert(s, t, key, subType, p, spare);
    assert s'.subs == s.subs + [Sub(subType, p, [], true)];
    OfInv(s);
    InsertLive(s, t, key, subType, p, spare, c);
    hide Inv, WellFormed, ChannelName, DoInsert, Live;
    assert Live(s', c)[|Live(s, c)|] == |s.subs|;
  }

  /** From every state in which a user has no subscription on a channel: two calls that both look before either files
      leave the user two. */
  lemma OverlappingAddsFileTwo(s: State, k: string, l: string, subType: SubType, p: Params)
    returns (es: seq<Event>, s': State)
    requires Inv(s) && WellFormed(s) && s.status.Running? && p.user != ""
    requires UserOnce(s, ChannelName(subType)) && !UserOn(s, ChannelName(subType), p.user)
    ensures Exec(s, es) == Some(s') && Inv(s') && WellFormed(s') && !UserOnce(s', ChannelName(subType))
  {
    var n, c := |s.threads|, ChannelName(subType);
    var s1 := s.(threads := s.threads + [Check(k, subType, p)]);
    var s2 := s1.(threads := s1.threads + [Check(l, subType, p)]);
    var s3 := Goto(s2, n, Insert(k, subType, p));
    var s4 := Goto(s3, n + 1, Insert(l, subType, p));
    CallChecks(s, k, subType, p, c);
    CallChecks(s1, l, subType, p, c);
    CheckPasses(s2, n, k, subType, p);
    CheckPasses(s3, n + 1, l, subType, p);
    assert s4.threads[n] == Insert(k, subType, p) && n + 1 < |s4.threads|;
    Files(s4, n, k, subType, p);
    var s5 := DoInsert(s4, n, k, subType, p, 0);
    InsertOnceIff(s4, n, k, subType, p, 0);
    FiledIsOn(s4, n, k, subType, p, 0);
    InsertThreads(s4, n, k, subType, p, 0);
    assert s5.threads[n + 1] == Insert(l, subType, p);
    hide *;
    Files(s5, n + 1, l, subType, p);
    s' := DoInsert(s5, n + 1, l, subType, p, 0);
    InsertOnceIff(s5, n + 1, l, subType, p, 0);
    ExecNothing(s');
    ExecStep(s5, Run(n + 1, 0), s', []);
    ExecStep(s4, Run(n, 0), s5, [Run(n + 1, 0)] + []);
    ExecStep(s3, Run(n + 1, 0), s4, [Run(n, 0)] + ([Run(n + 1, 0)] + []));
    ExecStep(s2, Run(n, 0), s3, [Run(n + 1, 0)] + ([Run(n, 0)] + ([Run(n + 1, 0)] + [])));
    ExecStep(s1, Subscribe(l, subType, p), s2,
             [Run(n, 0)] + ([Run(n + 1, 0)] + ([Run(n, 0)] + ([Run(n + 1, 0)] + []))));
    es := [Subscribe(l, subType, p)] + ([Run(n, 0)] + ([Run(n + 1, 0)] + ([Run(n, 0)] + ([Run(n + 1, 0)] + []))));
    ExecStep(s, Subscribe(k, subType, p), s1, es);
    es := [Subscribe(k, subType, p)] + es;
  }

  lemma CallChecks(s: State, k: string, subType: SubType, p: Params, c: string)
    requires Inv(s) && WellFormed(s) && s.status.Running?
    ensures var s', e := s.(threads := s.threads + [Check(k, subType, p)]), Subscribe(k, subType, p);
            && Enabled(s, e) && Step(s, e) == s' && Inv(s') && WellFormed(s') && Live(s', c) == Live(s, c)
            && (UserOnce(s, c) ==> UserOnce(s', c)) && (UserOn(s', c, p.user) ==> UserOn(s, c, p.user))
  {
    var s', e := s.(threads := s.threads + [Check(k, subType, p)]), Subscribe(k, subType, p);
    StepKeepsInv(s, e);
    OfInv(s');
    hide Inv, WellFormed;
    SameLive(s, s', c);
    SameOnce(s, s', c);
  }

  lemma SameOnce(s: State, s': State, c: string)
    requires WellFormed(s) && WellFormed(s') && Live(s', c) == Live(s, c) && s'.subs == s.subs
    ensures UserOnce(s, c) ==> UserOnce(s', c)
  {
    hide WellFormed, Live;
    forall i, j | 0 <= i < j < |Live(s', c)| && UserOnce(s, c)
      ensures SameUser(s', Live(s', c)[i], Live(s', c)[j]) ==> UserOf(s', Live(s', c)[i]) == ""
    {
      assert SameUser(s, Live(s, c)[i], Live(s, c)[j]) ==> UserOf(s, Live(s, c)[i]) == "";
    }
  }

  lemma CheckPasses(s: State, t: nat, k: string, subType: SubType, p: Params)
    requires Inv(s) && WellFormed(s) && s.status.Running? && t < |s.threads| && s.threads[t] == Check(k, subType, p)
    requires UserOnce(s, ChannelName(subType)) && !UserOn(s, ChannelName(subType), p.user)
    ensures var s', e := Goto(s, t, Insert(k, subType, p)), Run(t, 0);
            && Enabled(s, e) && Step(s, e) == s' && Inv(s') && WellFormed(s')
            && UserOnce(s', ChannelName(subType)) && !UserOn(s', ChannelName(subType), p.user)
  {
    var s', c := Goto(s, t, Insert(k, subType, p)), ChannelName(subType);
    assert s.status != ClosedTwice && RunThread(s, t, 0) == s';
    hide Inv, WellFormed, ChannelName, RunThread, Live;
    RunKeepsInv(s, t, 0);
    OfInv(s');
    SameLive(s, s', c);
    SameOnce(s, s', c);
    hide UserOnce;
    assert Step(s, Run(t, 0)) == RunThread(s, t, 0);
  }

  lemma Files(s: State, t: nat, k: string, subType: SubType, p: Params)
    requires Inv(s) && WellFormed(s) && s.status.Running? && t < |s.threads| && s.threads[t] == Insert(k, subType, p)
    ensures var s', e := DoInsert(s, t, k, subType, p, 0), Run(t, 0);
            Enabled(s, e) && Step(s, e) == s' && Inv(s') && WellFormed(s') && s'.status.Running?
  {
    hide Inv, WellFormed, DoInsert;
    InsertStatus(s, t, k, subType, p, 0);
    InsertKeepsInv(s, t, k, subType, p, 0);
    OfInv(DoInsert(s, t, k, subType, p, 0));
  }
}
