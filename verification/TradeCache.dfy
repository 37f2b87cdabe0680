/** The relay's cache of recent trades and order books. */
module TradeCache {

  datatype Side = Buy | Sell

  datatype Trade = Trade(symbol: string, id: string, price: real, size: real, side: Side, timestamp: int)

  /** The last `n` trades of a history, or all of them. */
  function Last(history: seq<Trade>, n: nat): seq<Trade> {
    if n >= |history| then history else history[|history| - n..]
  }

  /** The most recent of the most recent are the most recent. */
  lemma LastOfLast(history: seq<Trade>, n: nat, m: nat)
    requires m <= n
    ensures Last(Last(history, n), m) == Last(history, m)
  {
  }

  lemma ModWraps(k: int, n: int)
    requires 0 < n && 0 <= k < 2 * n
    ensures k % n == if k < n then k else k - n
  {
    if k >= n {
      assert k == 1 * n + (k - n);
      assert k / n == 1;
    }
  }

  /** The ring index `k` places before or after the start, for `k` of either sign within one lap. */
  function Wrap(k: int, n: int): int { if k < 0 then k + n else if k < n then k else k - n }

  /** Where a ring of size `n`, whose next free slot is `head`, keeps the trade that was added `back` places ago. */
  function Slot(head: nat, back: nat, n: nat): int { Wrap(head - back, n) }

  /** A ring with `count` trades before `head` holds the last trades of a history. */
  ghost predicate Ring(slots: seq<Trade>, head: nat, count: nat, history: seq<Trade>) {
    && 0 < |slots| && head < |slots|
    && count == (if |history| < |slots| then |history| else |slots|)
    && (count < |slots| ==> head == count)
    && forall k :: |history| - count <= k < |history| ==> slots[Slot(head, |history| - k, |slots|)] == history[k]
  }

  /** Overwriting the slot at `head` forgets the oldest trade of a full ring and no other. */
  lemma AddedToRing(slots: seq<Trade>, head: nat, count: nat, history: seq<Trade>, trade: Trade)
    requires Ring(slots, head, count, history)
    ensures Ring(slots[head := trade], Wrap(head + 1, |slots|), if count < |slots| then count + 1
                 else count, history + [trade])
  {
    var n, h, head', count' := |slots|, history + [trade], Wrap(head + 1, |slots|), if count < |slots| then count + 1
      else count;
    forall k | |h| - count' <= k < |h|
      ensures slots[head := trade][Slot(head', |h| - k, n)] == h[k]
    {
      if k < |history| {
        assert slots[Slot(head, |history| - k, n)] == history[k];
        assert Slot(head', |h| - k, n) == Slot(head, |history| - k, n) != head;
      } else {
        assert Slot(head', 1, n) == head;
      }
    }
  }

  /** The slot is where a step back around the ring arrives. */
  lemma SlotIs(head: nat, back: nat, n: nat)
    requires head < n && back <= n
    ensures Slot(head, back, n) == (head - back + n) % n
  {
    ModWraps(head - back + n, n);
  }

  lemma RingAt(slots: seq<Trade>, head: nat, count: nat, history: seq<Trade>, back: nat)
    requires Ring(slots, head, count, history) && 1 <= back <= count
    ensures 0 <= Slot(head, back, |slots|) < |slots| && slots[Slot(head, back, |slots|)] == history[|history| - back]
  {
  }

  class TradeRingBuffer {
    const trades: array<Trade>
    var head: nat
    var count: nat
    /** All trades ever added. */
    ghost var history: seq<Trade>

    ghost predicate Valid()
      reads this, trades
    {
      Ring(trades[..], head, count, history)
    }

    constructor (size: nat)
      requires size > 0
      ensures Valid() && fresh(trades) && trades.Length == size && history == []
    {
      trades := new Trade[size];
      head, count, history := 0, 0, [];
    }

    method Add(trade: Trade)
      requires Valid()
      modifies this`head, this`count, this`history, trades
      ensures Valid() && history == old(history) + [trade]
    {
      AddedToRing(trades[..], head, count, history, trade);
      assert head < trades.Length;
      hide Ring;
      ModWraps(head + 1, trades.Length);
      ghost var was, at := trades[..], head;
      trades[head] := trade;
      assert trades[..] == was[at := trade];
      head := (head + 1) % trades.Length;
      if count < trades.Length {
        count := count + 1;
      }
      history := history + [trade];
    }

    /** All trades in the buffer, oldest first: the last ones added, as many as fit. */
    method GetAll() returns (result: array<Trade>)
      requires Valid()
      ensures fresh(result) && result[..] == Last(history, trades.Length)
    {
      result := new Trade[count];
      ghost var slots, first := trades[..], |history| - count;
      assert head < |slots| && count <= |slots| && (count < |slots| ==> head == count) && 0 <= first;
      assert count == |slots| || count == |history|;
      hide Last;
      if count < trades.Length {
        forall i | 0 <= i < count {
          result[i] := trades[i];
        }
        forall i | 0 <= i < count
          ensures result[i] == history[first + i]
        {
          RingAt(slots, head, count, history, count - i);
        }
      } else {
        hide Ring, Slot;
        var start, i := head, 0;
        while i < count
          invariant 0 <= i <= count
          invariant forall j :: 0 <= j < i ==> result[j] == history[first + j]
        {
          RingAt(slots, head, count, history, count - i);
          SlotIs(head, count - i, trades.Length);
          assert start + i == head - (count - i) + trades.Length;
          result[i] := trades[(start + i) % trades.Length];
          i := i + 1;
        }
      }
      LastFrom(history, trades.Length, trades.Length, count, result[..]);
      LastTwice(history, trades.Length);
    }

    /** The `n` most recent trades, oldest first; fewer when the buffer holds fewer. */
    method GetRecent(n: nat) returns (result: array<Trade>)
      requires Valid()
      ensures fresh(result) && result[..] == Last(Last(history, trades.Length), n)
    {
      var m := if n > count then count else n;
      result := new Trade[m];
      assert count == (if |history| < trades.Length then |history| else trades.Length) && head < trades.Length;
      hide Ring, Last, Slot;
      ghost var first := |history| - m;
      var i := 0;
      while i < m
        invariant 0 <= i <= m
        invariant forall j :: 0 <= j < i ==> result[j] == history[first + j]
      {
        RingAt(trades[..], head, count, history, m - i);
        SlotIs(head, m - i, trades.Length);
        var idx := (head - m + i + trades.Length) % trades.Length;
        assert idx == Slot(head, m - i, trades.Length);
        result[i] := trades[idx];
        i := i + 1;
      }
      LastFrom(history, trades.Length, n, m, result[..]);
    }
  }

  /** The last trades of a history: as many as asked for or as there are, from the end. */
  lemma LastIs(history: seq<Trade>, n: nat)
    ensures |Last(history, n)| == if n < |history| then n else |history|
    ensures forall i :: 0 <= i < |Last(history, n)| ==>
              Last(history, n)[i] == history[|history| - |Last(history, n)| + i]
  {
  }

  /** What the most recent of the most recent are: as many as both allow, from the end. */
  lemma LastForm(history: seq<Trade>, size: nat, n: nat)
    ensures var r := Last(Last(history, size), n);
            && |r| <= n && |r| <= size && |r| <= |history| && (|r| == n || |r| == size || |r| == |history|)
            && forall i :: 0 <= i < |r| ==> r[i] == history[|history| - |r| + i]
  {
    LastIs(history, size);
    LastIs(Last(history, size), n);
    hide Last;
  }

  lemma LastTwice(history: seq<Trade>, n: nat)
    ensures Last(Last(history, n), n) == Last(history, n)
  {
  }

  lemma LastFrom(history: seq<Trade>, size: nat, n: nat, m: nat, result: seq<Trade>)
    requires |result| == m <= |history| && forall j :: 0 <= j < m ==> result[j] == history[|history| - m + j]
    requires m <= size && m <= n && (m == n || m == size || m == |history|)
    ensures result == Last(Last(history, size), n)
  {
  }

  // ---------------------------------------------------------------- the layer

  datatype PriceLevel = PriceLevel(price: real, size: real)

  class OrderbookSnapshot {
    var symbol: string
    var timestamp: int
    var sequence: int
    var asks: seq<PriceLevel>
    var bids: seq<PriceLevel>

    constructor (symbol: string, timestamp: int, sequence: int, asks: seq<PriceLevel>, bids: seq<PriceLevel>)
      ensures this.symbol == symbol && this.timestamp == timestamp && this.sequence == sequence && this.asks == asks
      ensures this.bids == bids
    {
      this.symbol, this.timestamp, this.sequence, this.asks, this.bids := symbol, timestamp, sequence, asks, bids;
    }
  }

  /** What happened to the trades of the layer. */
  datatype Event = Added(trade: Trade) | Evicted(symbol: string)

  /** The trades of a symbol since its last eviction. */
  function Since(log: seq<Event>, symbol: string): seq<Trade> {
    if log == [] then []
    else
      match log[|log| - 1]
      case Added(trade) => Since(log[..|log| - 1], symbol) + if trade.symbol == symbol then [trade] else []
      case Evicted(x) => if x == symbol then [] else Since(log[..|log| - 1], symbol)
  }

  lemma SinceNext(log: seq<Event>, e: Event, symbol: string)
    ensures Since(log + [e], symbol) ==
              match e
              case Added(trade) => Since(log, symbol) + if trade.symbol == symbol then [trade] else []
              case Evicted(x) => if x == symbol then [] else Since(log, symbol)
  {
    assert (log + [e])[..|log|] == log;
  }

  lemma SinceEvicted(log: seq<Event>, symbol: string)
    ensures forall x :: Since(log + [Evicted(symbol)], x) == if x == symbol then [] else Since(log, x)
  {
    hide Since;
    forall x
      ensures Since(log + [Evicted(symbol)], x) == if x == symbol then [] else Since(log, x)
    {
      SinceNext(log, Evicted(symbol), x);
    }
  }

  /** The trades of a symbol come in the order in which they were added, and only they: those of the events after
      its last eviction. */
  lemma {:induction false} SinceIsFiltered(log: seq<Event>, symbol: string, from: nat)
    requires from <= |log|
    requires from == 0 || log[from - 1] == Evicted(symbol)
    requires forall i :: from <= i < |log| ==> log[i] != Evicted(symbol)
    ensures Since(log, symbol) == TradesOf(log[from..], symbol)
  {
    if from == |log| {
    } else {
      var n := |log| - 1;
      SinceIsFiltered(log[..n], symbol, from);
      assert log[from..][..n - from] == log[..n][from..];
    }
  }

  function TradesOf(events: seq<Event>, symbol: string): seq<Trade> {
    if events == [] then []
    else
      var e := events[|events| - 1];
      TradesOf(events[..|events| - 1], symbol) + if e.Added? && e.trade.symbol == symbol then [e.trade] else []
  }

  class Layer {
    var orderbooks: map<string, OrderbookSnapshot>
    var trades: map<string, TradeRingBuffer>
    const maxDepth: nat
    const tradeSize: nat
    ghost var log: seq<Event>
    /** The buffers and their arrays. */
    ghost var Repr: set<object>

    ghost predicate Valid()
      reads this, Repr
    {
      Owned() && (forall x :: x in trades ==> Holds(trades[x], Since(log, x))) && forall x ::
        x !in trades ==> Since(log, x) == []
    }

    /** The buffers and their arrays are the layer's own, and no two symbols share one. */
    ghost predicate Owned()
      reads this
    {
      && 0 < tradeSize && this !in Repr
      && (forall x :: x in trades ==> trades[x] in Repr && trades[x].trades in Repr)
      && forall x, y :: x in trades && y in trades && x != y ==>
        trades[x] != trades[y] && trades[x].trades != trades[y].trades
    }

    /** A buffer of the layer's size that holds what is left of some trades. */
    ghost predicate Holds(rb: TradeRingBuffer, recent: seq<Trade>)
      reads rb, rb.trades
    {
      rb.Valid() && rb.trades.Length == tradeSize && rb.history == recent
    }

    lemma IsHeld(rb: TradeRingBuffer, recent: seq<Trade>)
      requires rb.Valid() && rb.trades.Length == tradeSize && rb.history == recent
      ensures Holds(rb, recent)
    {
    }

    lemma HeldParts(rb: TradeRingBuffer, recent: seq<Trade>)
      requires Holds(rb, recent)
      ensures rb.Valid() && rb.trades.Length == tradeSize && rb.history == recent
    {
    }

    constructor (maxDepth: nat, tradeSize: nat)
      requires tradeSize > 0
      ensures Valid() && fresh(Repr) && log == [] && this.maxDepth == maxDepth && this.tradeSize == tradeSize
      ensures orderbooks == map[]
    {
      this.maxDepth, this.tradeSize := maxDepth, tradeSize;
      orderbooks, trades, log, Repr := map[], map[], [], {};
    }

    /** Keeps the given snapshot itself, trimmed to the depth of the layer. */
    method UpdateOrderbook(snapshot: OrderbookSnapshot)
      modifies this`orderbooks, snapshot`asks, snapshot`bids
      ensures |snapshot.asks| == (if old(|snapshot.asks|) < maxDepth then old(|snapshot.asks|) else maxDepth)
      ensures |snapshot.bids| == (if old(|snapshot.bids|) < maxDepth then old(|snapshot.bids|) else maxDepth)
      ensures forall i :: 0 <= i < |snapshot.asks| ==> snapshot.asks[i] == old(snapshot.asks[i])
      ensures forall i :: 0 <= i < |snapshot.bids| ==> snapshot.bids[i] == old(snapshot.bids[i])
      ensures orderbooks == old(orderbooks)[snapshot.symbol := snapshot]
    {
      if |snapshot.asks| > maxDepth {
        snapshot.asks := snapshot.asks[..maxDepth];
      }
      if |snapshot.bids| > maxDepth {
        snapshot.bids := snapshot.bids[..maxDepth];
      }
      orderbooks := orderbooks[snapshot.symbol := snapshot];
    }

    /** A new copy of the cached snapshot: later changes to either do not show in the other. */
    method GetOrderbook(symbol: string) returns (book: OrderbookSnapshot?)
      ensures book == null <==> symbol !in orderbooks
      ensures book != null ==>
                && fresh(book) && book.symbol == orderbooks[symbol].symbol &&
                  book.timestamp == orderbooks[symbol].timestamp
                && book.sequence == orderbooks[symbol].sequence && book.asks == orderbooks[symbol].asks &&
                  book.bids == orderbooks[symbol].bids
    {
      if symbol !in orderbooks {
        return null;
      }
      var src := orderbooks[symbol];
      book := new OrderbookSnapshot(src.symbol, src.timestamp, src.sequence, src.asks, src.bids);
    }

    /** Finds the buffer of a symbol or creates it. */
    method BufferOf(symbol: string) returns (rb: TradeRingBuffer)
      requires Valid()
      modifies this`trades, this`Repr
      ensures Valid() && fresh(Repr - old(Repr)) && old(Repr) <= Repr && symbol in trades && trades[symbol] == rb
    {
      hide Since, Ring, Holds;
      if symbol in trades {
        rb := trades[symbol];
      } else {
        rb := new TradeRingBuffer(tradeSize);
        trades := trades[symbol := rb];
        Repr := Repr + {rb, rb.trades};
        IsHeld(rb, []);
      }
    }

    method AddTrade(trade: Trade)
      requires Valid()
      modifies this`trades, this`log, this`Repr, Repr
      ensures Valid() && fresh(Repr - old(Repr)) && log == old(log) + [Added(trade)]
    {
      hide Since, Ring;
      var rb := BufferOf(trade.symbol);
      AddTo(rb, trade);
    }

    method AddTo(rb: TradeRingBuffer, trade: Trade)
      requires Valid() && trade.symbol in trades && trades[trade.symbol] == rb
      modifies this`log, rb`head, rb`count, rb`history, rb.trades
      ensures Valid() && log == old(log) + [Added(trade)]
    {
      hide Since, Ring;
      assert Holds(rb, Since(log, trade.symbol));
      hide Holds;
      HeldParts(rb, Since(log, trade.symbol));
      rb.Add(trade);
      log := log + [Added(trade)];
      forall x
        ensures if x in trades then Holds(trades[x], Since(log, x)) else Since(log, x) == []
      {
        SinceNext(old(log), Added(trade), x);
        if x in trades {
          if x == trade.symbol {
            IsHeld(rb, Since(log, x));
          } else {
            assert old(Holds(trades[x], Since(log, x)));
          }
        }
      }
    }

    /** The most recent trades of a symbol since its last eviction, at most `tradeSize` of them. */
    method GetRecentTrades(symbol: string, count: nat) returns (result: seq<Trade>)
      requires Valid()
      ensures result == Last(Last(Since(log, symbol), tradeSize), count)
    {
      if symbol !in trades {
        return [];
      }
      assert Holds(trades[symbol], Since(log, symbol));
      var recent := trades[symbol].GetRecent(count);
      result := recent[..];
    }

    /** Drops the order book of a symbol and its trades. */
    method Evict(symbol: string)
      requires Valid()
      modifies this`orderbooks, this`trades, this`log
      ensures Valid() && orderbooks == old(orderbooks) - {symbol}
      ensures forall x :: Since(log, x) == if x == symbol then [] else Since(old(log), x)
    {
      hide Since, Ring, Holds;
      SinceEvicted(log, symbol);
      orderbooks := orderbooks - {symbol};
      trades := trades - {symbol};
      log := log + [Evicted(symbol)];
      forall x | x in trades
        ensures Holds(trades[x], Since(log, x))
      {
        assert old(Holds(trades[x], Since(log, x)));
      }
    }

    /** Drops every symbol whose order book is too old, with its trades. */
    method Cleanup(now: int, staleThreshold: int)
      requires Valid()
      modifies this`orderbooks, this`trades, this`log
      ensures Valid()
      ensures orderbooks == map x | x in old(orderbooks) && now - old(orderbooks)[x].timestamp <= staleThreshold ::
                old(orderbooks)[x]
      ensures forall x :: Since(log, x) == if x in old(orderbooks) && x !in orderbooks then [] else Since(old(log), x)
    {
      hide Since, Ring, Valid;
      var symbols := orderbooks.Keys;
      ghost var books := orderbooks;
      while symbols != {}
        invariant Valid() && symbols <= orderbooks.Keys <= books.Keys
        invariant forall x :: x in books ==> (x in orderbooks <==>
                                              x in symbols || now - books[x].timestamp <= staleThreshold)
        invariant forall x :: x in orderbooks ==> orderbooks[x] == books[x]
        invariant forall x :: Since(log, x) == if x in books && x !in orderbooks then [] else Since(old(log), x)
        decreases |symbols|
      {
        var symbol :| symbol in symbols;
        symbols := symbols - {symbol};
        if now - orderbooks[symbol].timestamp > staleThreshold {
          Evict(symbol);
        }
      }
    }
  }
}
