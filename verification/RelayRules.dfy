/** Rules that the callers of the relay may keep, as conditions on each event of a run. */
module RelayRules {
  import opened Relay
  import opened RelayInvariant
  import opened RelayEffects

  datatype Rule =
    | JoinsOpen      // a subscriber joins only while its channel is open, and never a second topic
    | JoinsOnce      // a subscriber joins once
    | TakesUnowed(config: Config) // a join displaces no open subscriber that a publisher owes an update
    | OnlyStreams    // nobody calls Subscribe but StreamOrderBook
    | WholeSends     // no channel is closed between the test of the flag and the send
    | InTurn(client: nat,
             topic: string) // a book of the topic comes when no earlier one is yet to be offered to the client
    | OneFeed        // callbacks of one symbol come one after the other, with books of that symbol

  /** The joining subscriber is open, and no other key holds it. */
  ghost predicate MayJoin(s: State, symbol: string, r: nat) {
    && r < |s.subs| && !s.subs[r].closed
    && forall k :: k in s.hub.members && s.hub.members[k] == r ==> k == Key(symbol, s.subs[r].id)
  }

  /** The subscriber of the same id whose place in the topic a join of `r` takes. */
  function Displaced(s: State, symbol: string, r: nat): Option<nat>
    requires r < |s.subs|
  {
    var key := Key(symbol, s.subs[r].id);
    if key in s.hub.members && s.hub.members[key] != r then Some(s.hub.members[key]) else None
  }

  /** Thread `t` is in a callback for `symbol`. */
  ghost predicate Publishing(s: State, t: nat, symbol: string)
    requires t < |s.threads|
  {
    Current(s.threads[t]).Some? && Current(s.threads[t]).value < |s.feed.updates| &&
      s.feed.updates[Current(s.threads[t]).value].symbol == symbol
  }

  /** Thread `t` has a book of the topic that it may still offer to subscriber `r`. */
  ghost predicate Behind(s: State, t: nat, r: nat, symbol: string)
    requires t < |s.threads|
  {
    && Publishing(s, t, symbol) && s.feed.updates[Current(s.threads[t]).value].book.Some?
    && (BeforeCopy(s.threads[t]) || r in Pending(s.threads[t]))
  }

  ghost predicate HeldAt(members: map<Key, nat>, k: Key, q: nat) { k in members && members[k] == q }

  /** A publisher that still has to offer its update to a subscriber, or to count a drop on it. */
  predicate Owes(pc: Thread, q: nat) { q in Pending(pc) || (pc.Drop? && Head(pc) == Some(q)) }

  /** The key under which a publisher that has counted a drop on `q` will remove it if it is too slow. */
  function RemovalKey(s: State, pc: Thread, q: nat): Option<Key>
    requires q < |s.subs|
  {
    if (pc.Tally? || pc.Check?) && Head(pc) == Some(q) && pc.update < |s.feed.updates|
    then Some(Key(s.feed.updates[pc.update].symbol, s.subs[q].id))
    else if (pc.Leave? || pc.Mark?) && pc.next.Resume? then Some(pc.key)
    else None
  }

  /** The publisher is on its way to remove the subscriber, under a key that holds it. */
  ghost predicate Removing(s: State, pc: Thread, q: nat)
    requires q < |s.subs|
  {
    RemovalKey(s, pc, q).Some? && HeldAt(s.hub.members, RemovalKey(s, pc, q).value, q)
  }

  /** The publisher removes the subscriber under another key. */
  ghost predicate RemovingElsewhere(s: State, pc: Thread, q: nat, key: Key)
    requires q < |s.subs|
  {
    Removing(s, pc, q) && RemovalKey(s, pc, q) != Some(key)
  }

  /** The join displaces nobody, or one that is flagged, or one that no publisher of the topic owes anything and
      that is within the threshold or about to be removed from another topic. */
  ghost predicate MayTake(c: Config, s: State, symbol: string, p: nat)
    requires p < |s.subs|
  {
    Displaced(s, symbol, p).Some? && Displaced(s, symbol, p).value < |s.subs| ==>
      var r := Displaced(s, symbol, p).value;
      s.subs[r].flag ||
      ((forall t :: 0 <= t < |s.threads| && Publishing(s, t, symbol) ==> !Owes(s.threads[t], r))
       && (s.subs[r].dropped <= c.slowThreshold
           || exists t :: 0 <= t < |s.threads| && RemovingElsewhere(s, s.threads[t], r, Key(symbol, s.subs[p].id))))
  }

  ghost predicate Allows(rule: Rule, s: State, e: Event) {
    var pc := Acting(s, e);
    match rule
    case JoinsOpen => pc.Insert? ==> MayJoin(s, pc.symbol, pc.sub)
    case JoinsOnce => pc.Insert? && pc.sub < |s.subs| ==> s.subs[pc.sub].past.joins == 0
    case TakesUnowed(c) => pc.Insert? && pc.sub < |s.subs| ==> MayTake(c, s, pc.symbol, pc.sub)
    case OnlyStreams => !e.Subscribe?
    case WholeSends => pc.Close? ==> forall t ::
      0 <= t < |s.threads| && s.threads[t].Send? ==> Head(s.threads[t]) != Some(pc.sub)
    case InTurn(r, x) => e.OnData? && e.book.Some? ==>
        && (e.book.value.symbol == x <==> e.symbol == x)
        && (e.symbol == x ==> forall t :: 0 <= t < |s.threads| ==> !Behind(s, t, r, x))
    case OneFeed => e.OnData? ==>
        && (e.book.Some? ==> e.book.value.symbol == e.symbol)
        && forall t :: 0 <= t < |s.threads| ==> !Publishing(s, t, e.symbol)
  }

  ghost predicate Obeys(c: Config, rule: Rule, s: State, es: seq<Event>)
    decreases |es|
  {
    es != [] && WellFormed(s) && Enabled(s, es[0]) ==>
      Allows(rule, s, es[0]) && Obeys(c, rule, Step(c, s, es[0]), es[1..])
  }
}
