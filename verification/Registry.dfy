/** The WebSocket client's subscriptions, filed by key and indexed by channel. */
module Registry {
  import opened SubscriptionKeys

  // ---------------------------------------------------------------- messages

  datatype Json = JString(text: string) | JObject(fields: map<string, Json>) | JArray(items: seq<Json>) | JOther

  datatype Message = Message(channel: string, data: Json)

  /** The text of a field, if the data is an object with that field and it holds text. */
  function TextOf(data: Json, field: string): seq<string> {
    if data.JObject? && field in data.fields && data.fields[field].JString? then [data.fields[field].text] else []
  }

  predicate FieldIs(data: Json, field: string, text: string) { TextOf(data, field) == [text] }

  predicate Matches(t: SubType, p: Params, m: Message) {
    match t
    case L2Book => FieldIs(m.data, "coin", p.coin)
    case Trades => m.data.JArray? && exists i :: 0 <= i < |m.data.items| && FieldIs(m.data.items[i], "coin", p.coin)
    case OrderUpdates => m.channel == "orderUpdates"
    case ActiveAssetCtx => FieldIs(m.data, "coin", p.coin)
    case Bbo => FieldIs(m.data, "coin", p.coin)
    case ActiveAssetData => (TextOf(m.data, "user") == [] || FieldIs(m.data, "user", p.user)) &&
      FieldIs(m.data, "coin", p.coin)
    case Candle => (TextOf(m.data, "s") == [] || FieldIs(m.data, "s", p.coin)) && FieldIs(m.data, "i", p.interval)
    case AllMids => true
    case _ => FieldIs(m.data, "user", p.user)
  }

  predicate ByUser(t: SubType) {
    !(t.L2Book? || t.Trades? || t.ActiveAssetCtx? || t.Bbo? || t.Candle? || t.AllMids?)
  }

  // What a message must carry to match, in terms of its JSON fields.

  predicate Says(data: Json, field: string, text: string) {
    data.JObject? && field in data.fields && data.fields[field] == JString(text)
  }

  predicate SaysOther(data: Json, field: string, text: string) {
    data.JObject? && field in data.fields && data.fields[field].JString? && data.fields[field].text != text
  }

  predicate ByCoin(t: SubType) { t.L2Book? || t.Bbo? || t.ActiveAssetCtx? }

  /** Order books, best offers and asset contexts go to the subscriptions of their coin and to no others. */
  lemma CoinMatchesIff(t: SubType, p: Params, m: Message)
    requires ByCoin(t)
    ensures Matches(t, p, m) <==> Says(m.data, "coin", p.coin)
    ensures SaysOther(m.data, "coin", p.coin) ==> !Matches(t, p, m)
  {
  }

  /** Trades go to a subscription when one of them is of its coin. */
  lemma TradesMatchIff(p: Params, m: Message)
    ensures Matches(Trades, p, m) <==>
              m.data.JArray? && exists i :: 0 <= i < |m.data.items| && Says(m.data.items[i], "coin", p.coin)
    ensures m.data.JArray? && (forall i :: 0 <= i < |m.data.items| ==> SaysOther(m.data.items[i], "coin", p.coin)) ==>
              !Matches(Trades, p, m)
  {
    assert m.data.JArray? ==> forall i :: 0 <= i < |m.data.items| ==>
      (FieldIs(m.data.items[i], "coin", p.coin) <==> Says(m.data.items[i], "coin", p.coin));
    assert m.data.JArray? ==> forall i :: 0 <= i < |m.data.items| ==>
      (SaysOther(m.data.items[i], "coin", p.coin) ==> !Says(m.data.items[i], "coin", p.coin));
  }

  /** Mid prices go to all. */
  lemma MidsMatchAll(p: Params, m: Message)
    ensures Matches(AllMids, p, m)
  {
  }

  /** Candles need the interval, and must not name another coin. */
  lemma CandleMatchesIff(p: Params, m: Message)
    ensures Matches(Candle, p, m) <==> Says(m.data, "i", p.interval) && !SaysOther(m.data, "s", p.coin)
  {
  }

  /** A user's own messages reach the user's subscriptions; but for order updates, which all get, no others do, and
      asset data must be of the coin besides. */
  lemma UserMatchesIff(t: SubType, p: Params, m: Message)
    requires ByUser(t)
    ensures t != OrderUpdates && t != ActiveAssetData ==> (Matches(t, p, m) <==> Says(m.data, "user", p.user))
    ensures t == ActiveAssetData ==>
              (Matches(t, p, m) <==> Says(m.data, "coin", p.coin) && !SaysOther(m.data, "user", p.user))
    ensures t == OrderUpdates ==> (Matches(t, p, m) <==> m.channel == "orderUpdates")
  {
  }

  /** A message on its channel that names another user is kept from a user's subscription, with one exception: order
      updates reach every subscriber of the channel. */
  lemma OtherUserMatchesIff(t: SubType, p: Params, m: Message)
    requires ByUser(t) && m.channel == ChannelName(t) && TextOf(m.data, "user") != []
    requires TextOf(m.data, "user") != [p.user]
    ensures Matches(t, p, m) <==> t == OrderUpdates
  {
  }

  // ---------------------------------------------------------------- subscriptions and their index

  class Subscription {
    const subType: SubType
    const params: Params
    const capacity: nat
    var queue: seq<Json>
    var open: bool

    constructor (subType: SubType, params: Params)
      ensures this.subType == subType && this.params == params && queue == [] && open
      ensures capacity == if subType.L2Book? || subType.Trades? then 100
                          else if subType.UserFills? || subType.OrderUpdates? then 50 else 10
    {
      this.subType, this.params, capacity, queue, open := subType, params, Capacity(subType), [], true;
    }

    /** What its channel holds, and whether it is open. */
    function Now(): (seq<Json>, bool)
      reads this
    {
      (queue, open)
    }

    /** Closing a closed channel would panic. */
    method Close()
      requires open
      modifies this`open
      ensures Now() == (old(queue), false)
    {
      open := false;
    }

    /** Sends without blocking: a message that does not fit is skipped. */
    method Offer(m: Message)
      requires open
      modifies this`queue
      ensures Now() == Offered(old(Now()), capacity, subType, params, m)
    {
      if Matches(subType, params, m) && |queue| < capacity {
        queue := queue + [m.data];
      }
    }
  }

  /** A message reaches the channel of a subscription if it matches and fits. */
  function Offered(c: (seq<Json>, bool), capacity: nat, t: SubType, p: Params, m: Message): (seq<Json>, bool) {
    if Matches(t, p, m) && |c.0| < capacity then (c.0 + [m.data], c.1) else c
  }

  /** Data of a coin, on the channels that go by coin: it names the coin, or a trade in it does. */
  predicate OfCoin(t: SubType, data: Json, coin: string) {
    if t.Trades? then data.JArray? && exists i :: 0 <= i < |data.items| && Says(data.items[i], "coin", coin)
    else Says(data, "coin", coin)
  }

  /** A queue with one more message, if it is wanted and fits. */
  function With(queue: seq<Json>, capacity: nat, data: Json, wanted: bool): seq<Json> {
    if wanted && |queue| < capacity then queue + [data] else queue
  }

  lemma OfferedAsMeant(m: Message)
    ensures forall c: (seq<Json>, bool), capacity: nat, t: SubType, p: Params | ByCoin(t) || t.Trades? ::
              Offered(c, capacity, t, p, m).0 == With(c.0, capacity, m.data, OfCoin(t, m.data, p.coin))
    ensures forall c: (seq<Json>, bool), capacity: nat, t: SubType, p: Params |
              ByUser(t) && t != OrderUpdates && t != ActiveAssetData ::
              Offered(c, capacity, t, p, m).0 == With(c.0, capacity, m.data, Says(m.data, "user", p.user))
  {
    forall c: (seq<Json>, bool), capacity: nat, t: SubType, p: Params
      ensures ByCoin(t) || t.Trades? ==>
                Offered(c, capacity, t, p, m).0 == With(c.0, capacity, m.data, OfCoin(t, m.data, p.coin))
      ensures ByUser(t) && t != OrderUpdates && t != ActiveAssetData ==>
                Offered(c, capacity, t, p, m).0 == With(c.0, capacity, m.data, Says(m.data, "user", p.user))
    {
      if ByCoin(t) {
        CoinMatchesIff(t, p, m);
      } else if t.Trades? {
        TradesMatchIff(p, m);
      } else if ByUser(t) {
        UserMatchesIff(t, p, m);
      }
    }
  }

  function Capacity(t: SubType): nat {
    match t
    case L2Book => 100
    case Trades => 100
    case UserFills => 50
    case OrderUpdates => 50
    case _ => 10
  }

  type Subs = map<string, Subscription>

  type Index = map<string, seq<Subscription>>

  function Handlers(index: Index, channel: string): seq<Subscription> {
    if channel in index then index[channel] else []
  }

  ghost predicate Indexed(index: Index, sub: Subscription) { sub in Handlers(index, ChannelName(sub.subType)) }

  ghost predicate Filed(subs: Subs, sub: Subscription) { exists k :: k in subs && subs[k] == sub }

  predicate Distinct(a: seq<Subscription>) { forall i, j :: 0 <= i < j < |a| ==> a[i] != a[j] }

  /** Every entry is indexed once, under its own channel, and under one key. */
  ghost predicate InStep(subs: Subs, index: Index) {
    && (forall k :: k in subs ==> Indexed(index, subs[k]))
    && (forall k, l :: k in subs && l in subs && subs[k] == subs[l] ==> k == l)
    && IndexOk(index)
  }

  ghost predicate IndexOk(index: Index) {
    forall c :: c in index ==> Distinct(index[c]) && forall i ::
      0 <= i < |index[c]| ==> ChannelName(index[c][i].subType) == c
  }

  /** Nothing else is indexed. */
  ghost predicate Exact(subs: Subs, index: Index) {
    forall c, i :: c in index && 0 <= i < |index[c]| ==> Filed(subs, index[c][i])
  }

  /** The open subscriptions of a channel whose parameters match a message, found in the index ... */
  ghost predicate FoundInIndex(index: Index, m: Message, sub: Subscription) {
    sub in Handlers(index, m.channel) && Matches(sub.subType, sub.params, m)
  }

  /** ... and found by scanning all entries. */
  ghost predicate FoundByScan(subs: Subs, m: Message, sub: Subscription) {
    Filed(subs, sub) && ChannelName(sub.subType) == m.channel && Matches(sub.subType, sub.params, m)
  }

  /** Looking into the index finds what a scan of all entries finds, for every message, exactly when nothing else is
      indexed that would match some message. */
  lemma IndexFindsWhatScanFinds(subs: Subs, index: Index, m: Message, sub: Subscription)
    requires InStep(subs, index)
    ensures FoundByScan(subs, m, sub) ==> FoundInIndex(index, m, sub)
    ensures Exact(subs, index) ==> (FoundInIndex(index, m, sub) <==> FoundByScan(subs, m, sub))
  {
    if FoundByScan(subs, m, sub) {
      var k :| k in subs && subs[k] == sub;
      assert Indexed(index, subs[k]);
    }
    if Exact(subs, index) && FoundInIndex(index, m, sub) {
      var i :| 0 <= i < |index[m.channel]| && index[m.channel][i] == sub;
      assert Filed(subs, index[m.channel][i]);
    }
  }

  // ---------------------------------------------------------------- adding

  function Appended(index: Index, sub: Subscription): Index {
    var c := ChannelName(sub.subType);
    index[c := Handlers(index, c) + [sub]]
  }

  lemma AppendKeepsIndex(index: Index, sub: Subscription)
    requires IndexOk(index) && forall c, i :: c in index && 0 <= i < |index[c]| ==> index[c][i] != sub
    ensures IndexOk(Appended(index, sub))
  {
    hide ChannelName;
  }

  lemma AddKeepsInStep(subs: Subs, index: Index, key: string, sub: Subscription)
    requires InStep(subs, index) && forall c, i :: c in index && 0 <= i < |index[c]| ==> index[c][i] != sub
    ensures InStep(subs[key := sub], Appended(index, sub))
  {
    hide ChannelName;
    AppendKeepsIndex(index, sub);
    hide IndexOk;
    var index', subs' := Appended(index, sub), subs[key := sub];
    forall k | k in subs'
      ensures Indexed(index', subs'[k])
    {
      if k != key {
        assert Indexed(index, subs[k]);
      }
    }
    NotIndexedNotFiled(subs, index, sub);
  }

  lemma NotIndexedNotFiled(subs: Subs, index: Index, sub: Subscription)
    requires (forall k :: k in subs ==> Indexed(index, subs[k])) && forall c, i ::
               c in index && 0 <= i < |index[c]| ==> index[c][i] != sub
    ensures forall k :: k in subs ==> subs[k] != sub
  {
    hide ChannelName;
    forall k | k in subs
      ensures subs[k] != sub
    {
      assert Indexed(index, subs[k]);
    }
  }

  /** Adding under a live key is what leaves a displaced subscription in the index. */
  lemma AddExactIff(subs: Subs, index: Index, key: string, sub: Subscription)
    requires InStep(subs, index) && forall c, i :: c in index && 0 <= i < |index[c]| ==> index[c][i] != sub
    ensures Exact(subs[key := sub], Appended(index, sub)) <==> Exact(subs, index) && key !in subs
  {
    hide ChannelName, IndexOk;
    var subs', index' := subs[key := sub], Appended(index, sub);
    NotIndexedNotFiled(subs, index, sub);
    assert subs'[key] == sub;
    assert Filed(subs', sub);
    if Exact(subs, index) && key !in subs {
      forall c, i | c in index' && 0 <= i < |index'[c]|
        ensures Filed(subs', index'[c][i])
      {
        if index'[c][i] != sub {
          assert Filed(subs, index[c][i]);
          var k :| k in subs && subs[k] == index[c][i];
          assert subs'[k] == index'[c][i];
        }
      }
    }
    if Exact(subs', index') {
      forall c, i | c in index && 0 <= i < |index[c]|
        ensures Filed(subs, index[c][i])
      {
        assert index'[c][i] == index[c][i];
        assert Filed(subs', index'[c][i]);
        var k :| k in subs' && subs'[k] == index[c][i];
        assert subs[k] == index[c][i];
      }
      if key in subs {
        DisplacedStays(subs, index, key, sub);
      }
    }
  }

  lemma DisplacedStays(subs: Subs, index: Index, key: string, sub: Subscription)
    requires InStep(subs, index) && key in subs && subs[key] != sub
    ensures !Exact(subs[key := sub], Appended(index, sub))
  {
    hide ChannelName, IndexOk;
    var gone, index' := subs[key], Appended(index, sub);
    var c := ChannelName(gone.subType);
    assert Indexed(index, subs[key]);
    var i :| 0 <= i < |index[c]| && index[c][i] == gone;
    assert index'[c][i] == gone;
    var subs' := subs[key := sub];
    forall k | k in subs'
      ensures subs'[k] != gone
    {
      assert k != key ==> subs[k] != subs[key];
    }
    assert !Filed(subs', index'[c][i]);
  }

  // ---------------------------------------------------------------- removing

  /** A list without the first place that holds an element. */
  function Removed(a: seq<Subscription>, sub: Subscription): seq<Subscription> {
    if a == [] then [] else if a[0] == sub then a[1..] else [a[0]] + Removed(a[1..], sub)
  }

  lemma Splice(a: seq<Subscription>, i: nat)
    requires 0 < i < |a|
    ensures [a[0]] + (a[1..][..i - 1] + a[1..][i..]) == a[..i] + a[i + 1..]
  {
    assert a[1..][..i - 1] == a[1..i] && a[1..][i..] == a[i + 1..];
    assert a[..i] == [a[0]] + a[1..i];
  }

  lemma {:induction false} RemovedAt(a: seq<Subscription>, i: nat)
    requires i < |a| && forall j :: 0 <= j < i ==> a[j] != a[i]
    ensures Removed(a, a[i]) == a[..i] + a[i + 1..]
  {
    if i > 0 {
      RemovedAt(a[1..], i - 1);
      Splice(a, i);
    } else {
      assert a[..0] + a[1..] == a[1..];
    }
  }

  lemma {:induction false} RemovedNone(a: seq<Subscription>, sub: Subscription)
    requires forall j :: 0 <= j < |a| ==> a[j] != sub
    ensures Removed(a, sub) == a
  {
    if a != [] {
      RemovedNone(a[1..], sub);
    }
  }

  lemma {:induction false} RemovedDistinct(a: seq<Subscription>, sub: Subscription)
    requires Distinct(a)
    ensures Distinct(Removed(a, sub))
    ensures forall i :: 0 <= i < |Removed(a, sub)| ==> Removed(a, sub)[i] in a && Removed(a, sub)[i] != sub
    ensures forall i :: 0 <= i < |a| && a[i] != sub ==> a[i] in Removed(a, sub)
  {
    if a != [] {
      var rest := a[1..];
      assert forall i :: 0 <= i < |rest| ==> rest[i] == a[i + 1] && rest[i] != a[0];
      assert forall i :: 1 <= i < |a| ==> a[i] == rest[i - 1];
      if a[0] != sub {
        RemovedDistinct(rest, sub);
        var r := Removed(rest, sub);
        forall i | 0 <= i < |r|
          ensures r[i] in a && r[i] != a[0]
        {
          assert r[i] in rest;
        }
        assert Removed(a, sub) == [a[0]] + r;
      }
    }
  }

  function Dropped(index: Index, sub: Subscription): Index {
    var c := ChannelName(sub.subType);
    if c in index then index[c := Removed(index[c], sub)] else index
  }

  lemma DropKeepsIndex(index: Index, sub: Subscription)
    requires IndexOk(index)
    ensures IndexOk(Dropped(index, sub)) && Dropped(index, sub).Keys == index.Keys
    ensures forall c, i :: c in index && 0 <= i < |Dropped(index, sub)[c]| ==>
              Dropped(index, sub)[c][i] in index[c] && Dropped(index, sub)[c][i] != sub
  {
    hide ChannelName;
    var c := ChannelName(sub.subType);
    if c in index {
      RemovedDistinct(index[c], sub);
      forall i | 0 <= i < |Removed(index[c], sub)|
        ensures ChannelName(Removed(index[c], sub)[i].subType) == c
      {
        var j :| 0 <= j < |index[c]| && index[c][j] == Removed(index[c], sub)[i];
      }
    }
  }

  /** The other subscriptions stay indexed. */
  lemma StaysIndexed(index: Index, sub: Subscription, other: Subscription)
    requires IndexOk(index) && Indexed(index, other) && other != sub
    ensures Indexed(Dropped(index, sub), other)
  {
    hide ChannelName;
    var c := ChannelName(other.subType);
    if c == ChannelName(sub.subType) && c in index {
      RemovedDistinct(index[c], sub);
      var j :| 0 <= j < |index[c]| && index[c][j] == other;
    }
  }

  /** A subscription is gone from every list, and every other one stays in its list. */
  lemma DroppedMembers(index: Index, sub: Subscription)
    requires IndexOk(index)
    ensures forall c, q :: q in Handlers(Dropped(index, sub), c) <==> q in Handlers(index, c) && q != sub
  {
    hide ChannelName;
    var d := ChannelName(sub.subType);
    if d in index {
      RemovedDistinct(index[d], sub);
    }
    hide Removed;
  }

  lemma RemoveKeepsInStep(subs: Subs, index: Index, key: string)
    requires InStep(subs, index) && key in subs
    ensures InStep(subs - {key}, Dropped(index, subs[key]))
    ensures Exact(subs, index) ==> Exact(subs - {key}, Dropped(index, subs[key]))
  {
    var sub, subs', index' := subs[key], subs - {key}, Dropped(index, subs[key]);
    DropKeepsIndex(index, sub);
    hide ChannelName, IndexOk, Dropped, Indexed;
    forall k | k in subs'
      ensures Indexed(index', subs'[k])
    {
      assert Indexed(index, subs[k]);
      StaysIndexed(index, sub, subs[k]);
    }
    if Exact(subs, index) {
      forall d, i | d in index' && 0 <= i < |index'[d]|
        ensures Filed(subs', index'[d][i])
      {
        RemainsFiled(subs, index, key, d, index'[d][i]);
      }
    }
  }

  lemma RemainsFiled(subs: Subs, index: Index, key: string, d: string, s: Subscription)
    requires InStep(subs, index) && Exact(subs, index) && key in subs && d in index && s in index[d] && s != subs[key]
    ensures Filed(subs - {key}, s)
  {
    hide ChannelName, IndexOk;
    var i :| 0 <= i < |index[d]| && index[d][i] == s;
    assert Filed(subs, index[d][i]);
    var k :| k in subs && subs[k] == s;
    assert k in subs - {key} && (subs - {key})[k] == s;
  }

  // ---------------------------------------------------------------- the client

  /** A user's second subscription to a channel is taken for the first. */
  predicate Skips(index: Index, t: SubType, p: Params) {
    p.user != "" && exists i ::
      0 <= i < |Handlers(index, ChannelName(t))| &&
      Handlers(index, ChannelName(t))[i].params.user == p.user
  }

  /** Every entry lies under the key that a reconnect rebuilds for it. */
  predicate Keyed(subs: Subs) { forall k :: k in subs ==> k == RebuiltKey(subs[k].subType, subs[k].params) }

  /** What a reconnect saves of a subscription. */
  datatype Saved = Saved(subType: SubType, params: Params)

  /** Every saved subscription is one of the entries. */
  ghost predicate SavedFrom(subs: Subs, saved: seq<Saved>) { forall i :: 0 <= i < |saved| ==> SavedOf(subs, saved[i]) }

  ghost predicate SavedOf(subs: Subs, saved: Saved) {
    exists k :: k in subs && subs[k].subType == saved.subType && subs[k].params == saved.params
  }

  /** When every entry lies under its rebuilt key, a reconnect finds all saved keys in use. */
  lemma ReconnectFindsAll(subs: Subs, saved: seq<Saved>, i: nat)
    requires Keyed(subs) && SavedFrom(subs, saved) && i < |saved|
    ensures RebuiltKey(saved[i].subType, saved[i].params) in subs
  {
    hide RebuiltKey;
    assert SavedOf(subs, saved[i]);
    var k :| k in subs && subs[k].subType == saved[i].subType && subs[k].params == saved[i].params;
  }

  ghost predicate AllOpen(index: Index)
    reads set c, i | c in index && 0 <= i < |index[c]| :: index[c][i]
  {
    forall c, i :: c in index && 0 <= i < |index[c]| ==> index[c][i].open
  }

  class Client {
    var subscriptions: Subs
    var channelHandlers: Index

    ghost function Handlings(): set<Subscription>
      reads this
    {
      set c, i | c in channelHandlers && 0 <= i < |channelHandlers[c]| :: channelHandlers[c][i]
    }

    /** The two stores agree, and every indexed subscription is open. */
    ghost predicate Valid()
      reads this, Handlings()
    {
      InStep(subscriptions, channelHandlers) && AllOpen(channelHandlers)
    }

    constructor ()
      ensures Valid() && subscriptions == map[] && channelHandlers == map[]
    {
      subscriptions, channelHandlers := map[], map[];
    }

    /** Looks for a subscription of the same user to the channel. */
    method HasUser(t: SubType, p: Params) returns (found: bool)
      ensures found == Skips(channelHandlers, t, p)
    {
      found := false;
      if p.user != "" {
        var handlers := Handlers(channelHandlers, ChannelName(t));
        for i := 0 to |handlers|
          invariant forall j :: 0 <= j < i ==> handlers[j].params.user != p.user
        {
          if handlers[i].params.user == p.user {
            return true;
          }
        }
      }
    }

    /** Adds a subscription, unless the user has one on the channel; the index stays exact if and only if the key was
        not in use. */
    method AddSubscription(key: string, t: SubType, p: Params)
      requires Valid()
      modifies this
      ensures Valid()
      ensures Exact(subscriptions, channelHandlers) <==>
                old(Exact(subscriptions, channelHandlers)) &&
                  (old(Skips(channelHandlers, t, p)) || key !in old(subscriptions))
      ensures old(Skips(channelHandlers, t, p)) <==>
                p.user != "" && exists q ::
                  q in old(Handlers(channelHandlers, ChannelName(t))) &&
                  q.params.user == p.user
      ensures old(Skips(channelHandlers, t, p)) ==>
                subscriptions == old(subscriptions) && channelHandlers == old(channelHandlers)
      ensures !old(Skips(channelHandlers, t, p)) ==>
                && key in subscriptions && fresh(subscriptions[key]) &&
                  subscriptions == old(subscriptions)[key := subscriptions[key]]
                && subscriptions[key].subType == t && subscriptions[key].params == p &&
                  subscriptions[key].Now() == ([], true)
                && forall c :: Handlers(channelHandlers, c) ==
                     old(Handlers(channelHandlers, c)) + if c == ChannelName(t) then [subscriptions[key]] else []
    {
      var found := HasUser(t, p);
      if !found {
        hide ChannelName, InStep, IndexOk, Exact;
        File(key, t, p);
      }
    }

    /** Makes a subscription and puts it into both stores. */
    method File(key: string, t: SubType, p: Params)
      requires Valid()
      modifies this
      ensures Valid()
      ensures Exact(subscriptions, channelHandlers) <==>
                old(Exact(subscriptions, channelHandlers)) && key !in old(subscriptions)
      ensures key in subscriptions && fresh(subscriptions[key])
      ensures subscriptions == old(subscriptions)[key := subscriptions[key]]
      ensures channelHandlers == Appended(old(channelHandlers), subscriptions[key])
      ensures subscriptions[key].subType == t && subscriptions[key].params == p
      ensures subscriptions[key].Now() == ([], true)
    {
      var sub := new Subscription(t, p);
      hide InStep, IndexOk, Exact, Skips, ChannelName;
      AddKeepsInStep(subscriptions, channelHandlers, key, sub);
      AddExactIff(subscriptions, channelHandlers, key, sub);
      subscriptions := subscriptions[key := sub];
      channelHandlers := Appended(channelHandlers, sub);
    }

    /** A call of one of the Subscribe methods, up to the message that it sends. */
    method Subscribe(r: Request)
      requires Valid()
      modifies this
      ensures Valid() && (old(Keyed(subscriptions)) ==> Keyed(subscriptions))
      ensures StoredKey(r) in subscriptions <==>
                StoredKey(r) in old(subscriptions) || !old(Skips(channelHandlers, TypeOf(r), ParamsOf(r)))
      ensures Exact(subscriptions, channelHandlers) <==>
                old(Exact(subscriptions, channelHandlers)) &&
                  (old(Skips(channelHandlers, TypeOf(r), ParamsOf(r))) || StoredKey(r) !in old(subscriptions))
    {
      RebuiltIsStored(r);
      hide StoredKey, RebuiltKey, Valid, Exact, Skips, ParamsOf, TypeOf, Appended;
      AddSubscription(StoredKey(r), TypeOf(r), ParamsOf(r));
    }

    /** Removes the entry and its place in the index, and closes its channel. */
    method RemoveSubscription(key: string)
      requires Valid()
      modifies this, if key in subscriptions then {subscriptions[key]} else {}
      ensures Valid() && (old(Keyed(subscriptions)) ==> Keyed(subscriptions))
      ensures old(Exact(subscriptions, channelHandlers)) ==> Exact(subscriptions, channelHandlers)
      ensures key !in old(subscriptions) ==>
                subscriptions == old(subscriptions) &&
                channelHandlers == old(channelHandlers)
      ensures key in old(subscriptions) ==>
                && subscriptions == old(subscriptions) - {key} &&
                  channelHandlers == Dropped(old(channelHandlers), old(subscriptions)[key])
                && old(subscriptions)[key].Now() == (old(subscriptions[key].queue), false)
                && forall c, q :: q in Handlers(channelHandlers, c) <==>
                     q in old(Handlers(channelHandlers, c)) && q != old(subscriptions)[key]
    {
      if key in subscriptions {
        var sub := subscriptions[key];
        ghost var was: Index := channelHandlers;
        assert Indexed(channelHandlers, subscriptions[key]);
        assert sub.open by { IndexedIsOpen(sub); }
        RemoveKeepsInStep(subscriptions, channelHandlers, key);
        RemainingOpen(was, sub);
        assert IndexOk(was);
        hide InStep, IndexOk, Exact, ChannelName, Dropped, Indexed, Handlers;
        CloseOne(sub, Dropped(was, sub));
        subscriptions := subscriptions - {key};
        Unindex(sub);
        DroppedMembers(was, sub);
      }
    }

    /** Closes a channel; those of the others stay open. */
    method CloseOne(sub: Subscription, ghost others: Index)
      requires sub.open && forall c, i :: c in others && 0 <= i < |others[c]| ==>
                 others[c][i] != sub && others[c][i].open
      modifies sub`open
      ensures sub.Now() == (old(sub.queue), false)
      ensures AllOpen(others)
    {
      sub.Close();
    }

    lemma IndexedIsOpen(sub: Subscription)
      requires Valid() && Indexed(channelHandlers, sub)
      ensures sub.open
    {
      hide InStep, ChannelName;
      var c := ChannelName(sub.subType);
      var i :| 0 <= i < |channelHandlers[c]| && channelHandlers[c][i] == sub;
    }

    /** What stays indexed is open and is not the removed one. */
    lemma RemainingOpen(index: Index, sub: Subscription)
      requires Valid() && index == channelHandlers
      ensures forall c, i :: c in Dropped(index, sub) && 0 <= i < |Dropped(index, sub)[c]| ==>
                Dropped(index, sub)[c][i] != sub && Dropped(index, sub)[c][i].open
    {
      DropKeepsIndex(index, sub);
      hide InStep, IndexOk, ChannelName, Dropped;
      forall c, i | c in Dropped(index, sub) && 0 <= i < |Dropped(index, sub)[c]|
        ensures Dropped(index, sub)[c][i] != sub && Dropped(index, sub)[c][i].open
      {
        var j :| 0 <= j < |index[c]| && index[c][j] == Dropped(index, sub)[c][i];
      }
    }

    /** Takes a subscription out of its channel's list. */
    method Unindex(sub: Subscription)
      requires AllOpen(Dropped(channelHandlers, sub))
      modifies this`channelHandlers
      ensures channelHandlers == Dropped(old(channelHandlers), sub) && AllOpen(channelHandlers)
    {
      var c := ChannelName(sub.subType);
      hide ChannelName;
      if c in channelHandlers {
        var handlers := channelHandlers[c];
        for i := 0 to |handlers|
          invariant forall j :: 0 <= j < i ==> handlers[j] != sub
          invariant channelHandlers == old(channelHandlers)
        {
          if handlers[i] == sub {
            RemovedAt(handlers, i);
            channelHandlers := channelHandlers[c := handlers[..i] + handlers[i + 1..]];
            return;
          }
        }
        RemovedNone(handlers, sub);
        assert channelHandlers[c := handlers] == channelHandlers;
      }
    }

    /** Closes one entry's channel; the other entries stay as they are. */
    method CloseNext(entries: Subs, key: string)
      requires key in entries && entries[key].open && forall k ::
                 k in entries && entries[k] == entries[key] ==> k == key
      modifies entries[key]
      ensures entries[key].Now() == (old(entries[key].queue), false)
      ensures forall k :: k in entries && k != key ==> entries[k].Now() == old(entries[k].Now())
    {
      entries[key].Close();
    }

    /** Closes the channel of every entry and empties both stores.  A displaced subscription is no entry: its channel
        is never closed. */
    method Disconnect()
      requires Valid()
      modifies this, subscriptions.Values
      ensures Valid() && Keyed(subscriptions) && subscriptions == map[] && channelHandlers == map[]
      ensures forall k :: k in old(subscriptions) ==>
                old(subscriptions)[k].Now() == (old(subscriptions[k].queue), false)
    {
      ghost var was := map k | k in subscriptions :: subscriptions[k].queue;
      var entries: Subs := subscriptions;
      forall k: string | k in entries
        ensures entries[k].Now() == (was[k], true)
      {
        assert Indexed(channelHandlers, entries[k]);
        IndexedIsOpen(entries[k]);
      }
      assert forall k, l :: k in entries && l in entries && entries[k] == entries[l] ==> k == l;
      CloseAll(entries, was);
      subscriptions, channelHandlers := map[], map[];
    }

    method CloseAll(entries: Subs, ghost was: map<string, seq<Json>>)
      requires forall k, l :: k in entries && l in entries && entries[k] == entries[l] ==> k == l
      requires was.Keys == entries.Keys && forall k :: k in entries ==> entries[k].Now() == (was[k], true)
      modifies entries.Values
      ensures forall k :: k in entries ==> entries[k].Now() == (was[k], false)
    {
      var todo := entries.Keys;
      while todo != {}
        invariant todo <= entries.Keys
        invariant forall k :: k in entries ==> entries[k].Now() == (was[k], k in todo)
        decreases |todo|
      {
        var k :| k in todo;
        assert entries[k].Now() == (was[k], true);
        CloseNext(entries, k);
        todo := todo - {k};
      }
    }

    /** Offers a message to one handler; the others stay as they are. */
    method OfferNext(handlers: seq<Subscription>, i: nat, m: Message)
      requires i < |handlers| && Distinct(handlers) && handlers[i].open
      modifies handlers[i]
      ensures handlers[i].Now() == Offered(old(handlers[i].Now()), handlers[i].capacity, handlers[i].subType,
                                           handlers[i].params, m)
      ensures forall j :: 0 <= j < |handlers| && j != i ==> handlers[j].Now() == old(handlers[j].Now())
      ensures handlers[i].open
    {
      handlers[i].Offer(m);
    }

    /** Every matching subscription of the message's channel gets the message once, as far as it fits, and no other. */
    method Dispatch(m: Message)
      requires Valid()
      modifies Handlers(channelHandlers, m.channel)
      ensures forall j :: 0 <= j < |Handlers(channelHandlers, m.channel)| ==>
                var sub := Handlers(channelHandlers, m.channel)[j];
                sub.Now() == Offered(old(Handlers(channelHandlers, m.channel)[j].Now()), sub.capacity, sub.subType,
                                     sub.params, m)
      ensures forall j :: 0 <= j < |Handlers(channelHandlers, m.channel)| ==>
                var sub := Handlers(channelHandlers, m.channel)[j];
                ByCoin(sub.subType) || sub.subType.Trades? ==>
                  sub.queue == With(old(Handlers(channelHandlers, m.channel)[j].queue), sub.capacity, m.data,
                                    OfCoin(sub.subType, m.data, sub.params.coin))
      ensures forall j :: 0 <= j < |Handlers(channelHandlers, m.channel)| ==>
                var sub := Handlers(channelHandlers, m.channel)[j];
                ByUser(sub.subType) && sub.subType != OrderUpdates && sub.subType != ActiveAssetData ==>
                  sub.queue == With(old(Handlers(channelHandlers, m.channel)[j].queue), sub.capacity, m.data,
                                    Says(m.data, "user", sub.params.user))
    {
      OfferedAsMeant(m);
      if m.channel !in channelHandlers {
        return;
      }
      var handlers: seq<Subscription> := channelHandlers[m.channel];
      ghost var was := seq(|handlers|, j requires 0 <= j < |handlers| reads handlers => handlers[j].Now());
      assert forall j :: 0 <= j < |handlers| ==> was[j].1;
      OfferAll(handlers, m, was);
    }

    method OfferAll(handlers: seq<Subscription>, m: Message, ghost was: seq<(seq<Json>, bool)>)
      requires Distinct(handlers) && |was| == |handlers| && forall j ::
                 0 <= j < |handlers| ==> handlers[j].Now() == was[j] && was[j].1
      modifies handlers
      ensures forall j :: 0 <= j < |handlers| ==>
                handlers[j].Now() == Offered(was[j], handlers[j].capacity, handlers[j].subType, handlers[j].params, m)
    {
      hide Distinct, Offered;
      for i := 0 to |handlers|
        invariant forall j :: 0 <= j < |handlers| ==>
                    handlers[j].Now() == if j < i then
                      Offered(was[j], handlers[j].capacity, handlers[j].subType, handlers[j].params, m) else was[j]
      {
        assert handlers[i].Now() == was[i];
        OfferNext(handlers, i, m);
      }
    }

    /** The part of a reconnect that files the saved subscriptions again: one whose key is in use is skipped, the others
        are added if their message can be sent. */
    method Resubscribe(saved: seq<Saved>, sent: seq<bool>)
      requires Valid() && |sent| == |saved|
      modifies this
      ensures Valid()
      ensures (forall i :: 0 <= i < |saved| ==> RebuiltKey(saved[i].subType, saved[i].params) in old(subscriptions)) ==>
                subscriptions == old(subscriptions) && channelHandlers == old(channelHandlers)
    {
      for i := 0 to |saved|
        invariant Valid()
        invariant (forall j :: 0 <= j < |saved| ==>
                   RebuiltKey(saved[j].subType, saved[j].params) in old(subscriptions)) ==>
                    subscriptions == old(subscriptions) && channelHandlers == old(channelHandlers)
      {
        var key := RebuiltKey(saved[i].subType, saved[i].params);
        if key !in subscriptions && sent[i] {
          AddSubscription(key, saved[i].subType, saved[i].params);
        }
      }
    }

    /** Saves the type and the parameters of every entry, in some order. */
    method Save() returns (saved: seq<Saved>)
      ensures |saved| == |subscriptions| && SavedFrom(subscriptions, saved)
      ensures forall k :: k in subscriptions ==> Saved(subscriptions[k].subType, subscriptions[k].params) in saved
    {
      saved := [];
      var todo := subscriptions.Keys;
      while todo != {}
        invariant todo <= subscriptions.Keys && |saved| + |todo| == |subscriptions|
        invariant SavedFrom(subscriptions, saved)
        invariant forall k :: k in subscriptions && k !in todo ==>
                    Saved(subscriptions[k].subType, subscriptions[k].params) in saved
        decreases |todo|
      {
        var k :| k in todo;
        assert SavedOf(subscriptions, Saved(subscriptions[k].subType, subscriptions[k].params));
        saved := saved + [Saved(subscriptions[k].subType, subscriptions[k].params)];
        todo := todo - {k};
      }
    }

    /** A reconnect, between the two connections: what is saved is filed again.  Entries that lie under their rebuilt
        keys are all still there, so nothing changes; `sent` says which messages could be sent. */
    method Reconnect(sent: seq<bool>)
      requires Valid() && |sent| == |subscriptions|
      modifies this
      ensures Valid()
      ensures old(Keyed(subscriptions)) ==>
                subscriptions == old(subscriptions) &&
                channelHandlers == old(channelHandlers)
    {
      var saved := Save();
      forall i | 0 <= i < |saved| && Keyed(subscriptions)
        ensures RebuiltKey(saved[i].subType, saved[i].params) in subscriptions
      {
        ReconnectFindsAll(subscriptions, saved, i);
      }
      hide Keyed, SavedFrom, RebuiltKey, Valid;
      Resubscribe(saved, sent);
    }
  }

  /** A live key that names a user is never re-subscribed: the user's first subscription is found.  So only keys without
      a user can displace an entry. */
  lemma LiveUserKeyIsSkipped(subs: Subs, index: Index, r: Request)
    requires InStep(subs, index) && Keyed(subs) && StoredKey(r) in subs && ParamsOf(r).user != ""
    requires ColonFree(r) && NoColon(subs[StoredKey(r)].params.user) && NoColon(subs[StoredKey(r)].params.coin)
    ensures Skips(index, TypeOf(r), ParamsOf(r))
  {
    var sub, t, p := subs[StoredKey(r)], TypeOf(r), ParamsOf(r);
    RebuiltIsStored(r);
    assert Indexed(index, subs[StoredKey(r)]);
    assert RebuiltKey(sub.subType, sub.params) == RebuiltKey(t, p);
    SameRebuilt(sub.subType, sub.params, t, p);
    assert sub.params.user == p.user by { UserIsPart(r, sub.params); }
    hide StoredKey, RebuiltKey, ChannelName, InStep;
    var i :| 0 <= i < |Handlers(index, ChannelName(t))| && Handlers(index, ChannelName(t))[i] == sub;
  }

  lemma SameRebuilt(t: SubType, p: Params, u: SubType, s: Params)
    requires RebuiltKey(t, p) == RebuiltKey(u, s) && NoColon(p.user) && NoColon(p.coin) && NoColon(s.user)
    requires NoColon(s.coin)
    ensures t == u && Parts(t, p) == Parts(u, s)
  {
    hide RebuiltKey, Tail, ChannelName, Parts;
    KeyIsNameAndTail(t, p);
    KeyIsNameAndTail(u, s);
    NameHasNoColon(t);
    NameHasNoColon(u);
    CutAtColon(ChannelName(t), Tail(t, p), ChannelName(u), Tail(u, s));
    NamesDiffer(t, u);
    TailDetermines(t, p, s);
  }

  lemma UserIsPart(r: Request, s: Params)
    requires ParamsOf(r).user != "" && Parts(TypeOf(r), ParamsOf(r)) == Parts(TypeOf(r), s)
    ensures s.user == ParamsOf(r).user
  {
  }

  /** A user's second coin on the active-asset channel is not filed, although its key is free. */
  lemma SecondCoinIsSkipped(index: Index, first: Subscription, user: string, coin: string)
    requires user != "" && Indexed(index, first) && first.subType == ActiveAssetData && first.params.user == user
    ensures Skips(index, ActiveAssetData, Params(user, coin, ""))
  {
    hide ChannelName;
    var i :| 0 <= i < |Handlers(index, ChannelName(ActiveAssetData))| &&
      Handlers(index, ChannelName(ActiveAssetData))[i] == first;
  }
}
