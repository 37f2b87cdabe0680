/** The keys under which the WebSocket client files its subscriptions, and how a reconnect rebuilds them. */
module SubscriptionKeys {

  datatype SubType =
    | UserFills | L2Book | Trades | OrderUpdates | UserEvents | UserFundings | UserNonFundingLedgerUpdates |
    UserTwapSliceFills
    | UserTwapHistory | ActiveAssetCtx | ActiveAssetData | Bbo | Candle | Notification | WebData2 | AllMids

  function ChannelName(t: SubType): string {
    match t
    case UserFills => "userFills"
    case L2Book => "l2Book"
    case Trades => "trades"
    case OrderUpdates => "orderUpdates"
    case UserEvents => "userEvents"
    case UserFundings => "userFundings"
    case UserNonFundingLedgerUpdates => "userNonFundingLedgerUpdates"
    case UserTwapSliceFills => "userTwapSliceFills"
    case UserTwapHistory => "userTwapHistory"
    case ActiveAssetCtx => "activeAssetCtx"
    case ActiveAssetData => "activeAssetData"
    case Bbo => "bbo"
    case Candle => "candle"
    case Notification => "notification"
    case WebData2 => "webData2"
    case AllMids => "allMids"
  }

  datatype Params = Params(user: string, coin: string, interval: string)

  /** A call of one of the Subscribe methods. */
  datatype Request =
    | SubscribeOrderbook(coin: string)
    | SubscribeTrades(coin: string)
    | SubscribeUserFills(user: string)
    | SubscribeAllMids
    | SubscribeUserEvents(user: string)
    | SubscribeUserFundings(user: string)
    | SubscribeUserNonFundingLedgerUpdates(user: string)
    | SubscribeUserTwapSliceFills(user: string)
    | SubscribeUserTwapHistory(user: string)
    | SubscribeActiveAssetCtx(coin: string)
    | SubscribeActiveAssetData(user: string, coin: string)
    | SubscribeBbo(coin: string)
    | SubscribeCandle(coin: string, interval: string)
    | SubscribeOrderUpdates(user: string)
    | SubscribeNotification(user: string)
    | SubscribeWebData2(user: string)

  function TypeOf(r: Request): SubType {
    match r
    case SubscribeOrderbook(_) => L2Book
    case SubscribeTrades(_) => Trades
    case SubscribeUserFills(_) => UserFills
    case SubscribeAllMids => AllMids
    case SubscribeUserEvents(_) => UserEvents
    case SubscribeUserFundings(_) => UserFundings
    case SubscribeUserNonFundingLedgerUpdates(_) => UserNonFundingLedgerUpdates
    case SubscribeUserTwapSliceFills(_) => UserTwapSliceFills
    case SubscribeUserTwapHistory(_) => UserTwapHistory
    case SubscribeActiveAssetCtx(_) => ActiveAssetCtx
    case SubscribeActiveAssetData(_, _) => ActiveAssetData
    case SubscribeBbo(_) => Bbo
    case SubscribeCandle(_, _) => Candle
    case SubscribeOrderUpdates(_) => OrderUpdates
    case SubscribeNotification(_) => Notification
    case SubscribeWebData2(_) => WebData2
  }

  function ParamsOf(r: Request): Params {
    match r
    case SubscribeAllMids => Params("", "", "")
    case SubscribeOrderbook(coin) => Params("", coin, "")
    case SubscribeTrades(coin) => Params("", coin, "")
    case SubscribeActiveAssetCtx(coin) => Params("", coin, "")
    case SubscribeBbo(coin) => Params("", coin, "")
    case SubscribeActiveAssetData(user, coin) => Params(user, coin, "")
    case SubscribeCandle(coin, interval) => Params("", coin, interval)
    case _ => Params(r.user, "", "")
  }

  /** The key that the method stores the subscription under, as each method writes it. */
  function StoredKey(r: Request): string {
    match r
    case SubscribeOrderbook(coin) => "l2Book:" + coin
    case SubscribeTrades(coin) => "trades:" + coin
    case SubscribeUserFills(user) => "userFills:" + user
    case SubscribeAllMids => "allMids"
    case SubscribeUserEvents(user) => "userEvents:" + user
    case SubscribeUserFundings(user) => "userFundings:" + user
    case SubscribeUserNonFundingLedgerUpdates(user) => "userNonFundingLedgerUpdates:" + user
    case SubscribeUserTwapSliceFills(user) => "userTwapSliceFills:" + user
    case SubscribeUserTwapHistory(user) => "userTwapHistory:" + user
    case SubscribeActiveAssetCtx(coin) => "activeAssetCtx:" + coin
    case SubscribeActiveAssetData(user, coin) => "activeAssetData:" + user + ":" + coin
    case SubscribeBbo(coin) => "bbo:" + coin
    case SubscribeCandle(coin, interval) => "candle:" + coin + ":" + interval
    case SubscribeOrderUpdates(user) => "orderUpdates:" + user
    case SubscribeNotification(user) => "notification:" + user
    case SubscribeWebData2(user) => "webData2:" + user
  }

  /** The key that a reconnect makes of a stored subscription. */
  function RebuiltKey(t: SubType, p: Params): string {
    match t
    case Trades => ChannelName(t) + ":" + p.coin
    case L2Book => ChannelName(t) + ":" + p.coin
    case Bbo => ChannelName(t) + ":" + p.coin
    case ActiveAssetCtx => ChannelName(t) + ":" + p.coin
    case ActiveAssetData => ChannelName(t) + ":" + p.user + ":" + p.coin
    case Candle => ChannelName(t) + ":" + p.coin + ":" + p.interval
    case AllMids => ChannelName(t)
    case _ => ChannelName(t) + ":" + p.user
  }

  lemma RebuiltByCoin(r: Request)
    requires r.SubscribeOrderbook? || r.SubscribeTrades? || r.SubscribeActiveAssetCtx? || r.SubscribeBbo?
    ensures RebuiltKey(TypeOf(r), ParamsOf(r)) == StoredKey(r)
  {
    assert "l2Book" + ":" == "l2Book:";
    assert "trades" + ":" == "trades:";
    assert "activeAssetCtx" + ":" == "activeAssetCtx:";
    assert "bbo" + ":" == "bbo:";
  }

  lemma RebuiltByUser(r: Request)
    requires r.SubscribeUserFills? || r.SubscribeUserEvents? || r.SubscribeUserFundings? ||
    r.SubscribeUserNonFundingLedgerUpdates?
    ensures RebuiltKey(TypeOf(r), ParamsOf(r)) == StoredKey(r)
  {
    assert "userFills" + ":" == "userFills:";
    assert "userEvents" + ":" == "userEvents:";
    assert "userFundings" + ":" == "userFundings:";
    assert "userNonFundingLedgerUpdates" + ":" == "userNonFundingLedgerUpdates:";
  }

  lemma RebuiltByUserToo(r: Request)
    requires r.SubscribeUserTwapSliceFills? || r.SubscribeUserTwapHistory? || r.SubscribeOrderUpdates?
    ensures RebuiltKey(TypeOf(r), ParamsOf(r)) == StoredKey(r)
  {
    assert "userTwapSliceFills" + ":" == "userTwapSliceFills:";
    assert "userTwapHistory" + ":" == "userTwapHistory:";
    assert "orderUpdates" + ":" == "orderUpdates:";
  }

  lemma RebuiltByUserAlso(r: Request)
    requires r.SubscribeNotification? || r.SubscribeWebData2?
    ensures RebuiltKey(TypeOf(r), ParamsOf(r)) == StoredKey(r)
  {
    assert "notification" + ":" == "notification:";
    assert "webData2" + ":" == "webData2:";
  }

  lemma RebuiltByTwo(r: Request)
    requires r.SubscribeActiveAssetData? || r.SubscribeCandle? || r.SubscribeAllMids?
    ensures RebuiltKey(TypeOf(r), ParamsOf(r)) == StoredKey(r)
  {
    assert "activeAssetData" + ":" == "activeAssetData:";
    assert "candle" + ":" == "candle:";
  }

  /** For every Subscribe method the reconnect rebuilds exactly the stored key. */
  lemma RebuiltIsStored(r: Request)
    ensures RebuiltKey(TypeOf(r), ParamsOf(r)) == StoredKey(r)
  {
    hide *;
    match r {
      case SubscribeOrderbook(_) => RebuiltByCoin(r);
      case SubscribeTrades(_) => RebuiltByCoin(r);
      case SubscribeActiveAssetCtx(_) => RebuiltByCoin(r);
      case SubscribeBbo(_) => RebuiltByCoin(r);
      case SubscribeUserFills(_) => RebuiltByUser(r);
      case SubscribeUserEvents(_) => RebuiltByUser(r);
      case SubscribeUserFundings(_) => RebuiltByUser(r);
      case SubscribeUserNonFundingLedgerUpdates(_) => RebuiltByUser(r);
      case SubscribeAllMids => RebuiltByTwo(r);
      case SubscribeActiveAssetData(_, _) => RebuiltByTwo(r);
      case SubscribeCandle(_, _) => RebuiltByTwo(r);
      case SubscribeNotification(_) => RebuiltByUserAlso(r);
      case SubscribeWebData2(_) => RebuiltByUserAlso(r);
      case _ => RebuiltByUserToo(r);
    }
  }

  predicate NoColon(s: string) { forall i :: 0 <= i < |s| ==> s[i] != ':' }

  /** A length and a first letter tell the channels apart. */
  function Mark(t: SubType): (nat, char) {
    match t
    case UserFills => (9, 'u')
    case L2Book => (6, 'l')
    case Trades => (6, 't')
    case OrderUpdates => (12, 'o')
    case UserEvents => (10, 'u')
    case UserFundings => (12, 'u')
    case UserNonFundingLedgerUpdates => (27, 'u')
    case UserTwapSliceFills => (18, 'u')
    case UserTwapHistory => (15, 'u')
    case ActiveAssetCtx => (14, 'a')
    case ActiveAssetData => (15, 'a')
    case Bbo => (3, 'b')
    case Candle => (6, 'c')
    case Notification => (12, 'n')
    case WebData2 => (8, 'w')
    case AllMids => (7, 'a')
  }

  lemma MarkIsRight(t: SubType)
    ensures |ChannelName(t)| == Mark(t).0 > 0 && ChannelName(t)[0] == Mark(t).1
  {
  }

  lemma NamesDiffer(t: SubType, u: SubType)
    ensures ChannelName(t) == ChannelName(u) ==> t == u
  {
    MarkIsRight(t);
    MarkIsRight(u);
    hide ChannelName;
  }

  /** What follows the channel name in a key: the parameters, with a colon before each. */
  function Tail(t: SubType, p: Params): string {
    match t
    case Trades => ":" + p.coin
    case L2Book => ":" + p.coin
    case Bbo => ":" + p.coin
    case ActiveAssetCtx => ":" + p.coin
    case ActiveAssetData => ":" + p.user + ":" + p.coin
    case Candle => ":" + p.coin + ":" + p.interval
    case AllMids => ""
    case _ => ":" + p.user
  }

  lemma KeyIsNameAndTail(t: SubType, p: Params)
    ensures RebuiltKey(t, p) == ChannelName(t) + Tail(t, p)
    ensures Tail(t, p) == "" || Tail(t, p)[0] == ':'
  {
    hide ChannelName;
    if t == ActiveAssetData {
      assert ChannelName(t) + ":" + p.user + ":" + p.coin == ChannelName(t) + (":" + p.user + ":" + p.coin);
    } else if t == Candle {
      assert ChannelName(t) + ":" + p.coin + ":" + p.interval == ChannelName(t) + (":" + p.coin + ":" + p.interval);
    } else if t == AllMids {
      assert ChannelName(t) + "" == ChannelName(t);
    } else {
      var s := if t.Trades? || t.L2Book? || t.Bbo? || t.ActiveAssetCtx? then p.coin else p.user;
      assert ChannelName(t) + ":" + s == ChannelName(t) + (":" + s);
    }
  }

  /** Where a shorter part ends, a longer one has a colon. */
  lemma ColonInside(a: string, x: string, b: string, y: string)
    requires a + x == b + y && |a| < |b| && (x == "" || x[0] == ':')
    ensures b[|a|] == ':'
  {
    assert (a + x)[|a|] == (b + y)[|a|] == b[|a|];
  }

  /** A text is cut at its first colon in one way only. */
  lemma CutAtColon(a: string, x: string, b: string, y: string)
    requires a + x == b + y && NoColon(a) && NoColon(b) && (x == "" || x[0] == ':') && (y == "" || y[0] == ':')
    ensures a == b && x == y
  {
    if |a| < |b| {
      ColonInside(a, x, b, y);
    } else if |b| < |a| {
      ColonInside(b, y, a, x);
    } else {
      assert a == (a + x)[..|a|] == (b + y)[..|b|] == b;
      assert x == (a + x)[|a|..] == (b + y)[|b|..] == y;
    }
  }

  /** Two calls share a key exactly when they are calls of the same method whose parameters read the same when joined
      by colons. */
  lemma SameKeyIff(q: Request, r: Request)
    ensures StoredKey(q) == StoredKey(r) <==>
              TypeOf(q) == TypeOf(r) && Tail(TypeOf(q), ParamsOf(q)) == Tail(TypeOf(r), ParamsOf(r))
  {
    RebuiltIsStored(q);
    RebuiltIsStored(r);
    hide StoredKey, RebuiltKey, Tail, ChannelName, ParamsOf;
    var t, u := TypeOf(q), TypeOf(r);
    KeyIsNameAndTail(t, ParamsOf(q));
    KeyIsNameAndTail(u, ParamsOf(r));
    NameHasNoColon(t);
    NameHasNoColon(u);
    hide TypeOf;
    if RebuiltKey(t, ParamsOf(q)) == RebuiltKey(u, ParamsOf(r)) {
      CutAtColon(ChannelName(t), Tail(t, ParamsOf(q)), ChannelName(u), Tail(u, ParamsOf(r)));
      NamesDiffer(t, u);
    }
  }

  lemma UserNamesHaveNoColon()
    ensures NoColon("userFills") && NoColon("userEvents") && NoColon("userFundings") && NoColon("userTwapHistory")
  {
  }

  lemma LongNamesHaveNoColon()
    ensures NoColon("userNonFundingLedgerUpdates") && NoColon("userTwapSliceFills")
  {
  }

  lemma AssetNamesHaveNoColon()
    ensures NoColon("activeAssetCtx") && NoColon("activeAssetData") && NoColon("notification")
    ensures NoColon("orderUpdates")
  {
  }

  lemma ShortNamesHaveNoColon()
    ensures NoColon("l2Book") && NoColon("trades") && NoColon("bbo") && NoColon("candle") && NoColon("webData2")
    ensures NoColon("allMids")
  {
  }

  lemma NameHasNoColon(t: SubType)
    ensures NoColon(ChannelName(t))
  {
    hide NoColon;
    UserNamesHaveNoColon();
    LongNamesHaveNoColon();
    AssetNamesHaveNoColon();
    ShortNamesHaveNoColon();
  }

  predicate ColonFree(r: Request) {
    var p := ParamsOf(r);
    NoColon(p.user) && NoColon(p.coin) && NoColon(p.interval)
  }

  /** Calls whose parameters hold no colon have different keys unless they are the same. */
  lemma KeysDiffer(q: Request, r: Request)
    requires ColonFree(q) && ColonFree(r) && StoredKey(q) == StoredKey(r)
    ensures q == r
  {
    SameKeyIff(q, r);
    hide StoredKey, ChannelName, RebuiltKey;
    var t, p, s := TypeOf(q), ParamsOf(q), ParamsOf(r);
    assert Tail(t, p) == Tail(t, s);
    hide TypeOf;
    TailDetermines(t, p, s);
    SameParams(q, r);
  }

  /** The parameters that a key of the type is made of. */
  function Parts(t: SubType, p: Params): (string, string) {
    match t
    case Trades => (p.coin, "")
    case L2Book => (p.coin, "")
    case Bbo => (p.coin, "")
    case ActiveAssetCtx => (p.coin, "")
    case ActiveAssetData => (p.user, p.coin)
    case Candle => (p.coin, p.interval)
    case AllMids => ("", "")
    case _ => (p.user, "")
  }

  lemma TailDetermines(t: SubType, p: Params, s: Params)
    requires Tail(t, p) == Tail(t, s) && NoColon(p.user) && NoColon(p.coin) && NoColon(s.user) && NoColon(s.coin)
    ensures Parts(t, p) == Parts(t, s)
  {
    if t == ActiveAssetData {
      TwoParts(p.user, p.coin, s.user, s.coin);
    } else if t == Candle {
      TwoParts(p.coin, p.interval, s.coin, s.interval);
    } else if t != AllMids {
      assert Tail(t, p)[1..] == Parts(t, p).0 && Tail(t, s)[1..] == Parts(t, s).0;
    }
  }

  lemma TwoParts(a: string, b: string, c: string, d: string)
    requires ":" + a + ":" + b == ":" + c + ":" + d && NoColon(a) && NoColon(c)
    ensures a == c && b == d
  {
    assert (":" + a + ":" + b)[1..] == a + (":" + b) && (":" + c + ":" + d)[1..] == c + (":" + d);
    CutAtColon(a, ":" + b, c, ":" + d);
    assert (":" + b)[1..] == b && (":" + d)[1..] == d;
  }

  lemma SameParams(q: Request, r: Request)
    requires TypeOf(q) == TypeOf(r) && Parts(TypeOf(q), ParamsOf(q)) == Parts(TypeOf(r), ParamsOf(r))
    ensures q == r
  {
  }

  /** With colons, two different calls can share a key. */
  lemma ColonsCollide()
    ensures StoredKey(SubscribeActiveAssetData("a:b", "c")) == StoredKey(SubscribeActiveAssetData("a", "b:c"))
  {
  }
}
