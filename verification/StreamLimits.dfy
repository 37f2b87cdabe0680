/** The stream slots of the rate limiter: per key, how many streams are open and how many may be. */
module StreamLimits {

  datatype Option<+T> = None | Some(value: T)

  // ---------------------------------------------------------------- what the operations mean

  /** A key's limiter: the maximum fixed when it was made, the open streams, and the time of the last access. */
  datatype Slot = Slot(max: int, active: nat, lastAccess: int)

  type Slots = map<string, Slot>

  function Touched(m: Slots, key: string, max: int, now: int): Slots {
    m[key := if key in m then m[key].(lastAccess := now) else Slot(max, 0, now)]
  }

  predicate Grants(m: Slots, key: string, max: int) {
    if key in m then m[key].active < m[key].max else 0 < max
  }

  function Acquired(m: Slots, key: string, max: int, now: int): Slots {
    var t := Touched(m, key, max, now);
    if t[key].active < t[key].max then t[key := t[key].(active := t[key].active + 1)] else t
  }

  function Released(m: Slots, key: string): Slots {
    if key in m && m[key].active > 0 then m[key := m[key].(active := m[key].active - 1)] else m
  }

  function Limited(m: Slots, key: string, max: int, now: int): Slots {
    m[key := Slot(max, 0, if key in m then m[key].lastAccess else now)]
  }

  function Cleaned(m: Slots, threshold: int): Slots {
    map key | key in m && (m[key].lastAccess >= threshold || m[key].active != 0) :: m[key]
  }

  lemma CleanedIff(m: Slots, now: int, interval: nat)
    ensures forall k :: k in m ==>
              (k in Cleaned(m, now - 2 * interval) <==> now - m[k].lastAccess <= 2 * interval || m[k].active > 0)
  {
  }

  // ---------------------------------------------------------------- the objects

  class StreamLimiter {
    const maxStreams: int
    var activeStreams: nat

    constructor (maxStreams: int)
      ensures this.maxStreams == maxStreams && activeStreams == 0
    {
      this.maxStreams, activeStreams := maxStreams, 0;
    }

    method Acquire() returns (granted: bool)
      modifies this
      ensures granted == (old(activeStreams) < maxStreams)
      ensures activeStreams == old(activeStreams) + if granted then 1 else 0
    {
      if activeStreams >= maxStreams {
        return false;
      }
      activeStreams := activeStreams + 1;
      return true;
    }

    method Release()
      modifies this
      ensures activeStreams == if old(activeStreams) > 0 then old(activeStreams) - 1 else 0
    {
      if activeStreams > 0 {
        activeStreams := activeStreams - 1;
      }
    }
  }

  class ClientLimiter {
    var streams: StreamLimiter
    var lastAccess: int

    constructor (maxStreams: int, now: int)
      ensures fresh(streams) && streams.maxStreams == maxStreams && streams.activeStreams == 0 && lastAccess == now
    {
      streams := new StreamLimiter(maxStreams);
      lastAccess := now;
    }
  }

  class Limiter {
    var limiters: map<string, ClientLimiter>
    const defaultRPS: int
    const cleanupInterval: nat
    ghost var Repr: set<object>

    ghost predicate Valid()
      reads this, Repr
    {
      && this !in Repr
      && (forall k :: k in limiters ==> limiters[k] in Repr && limiters[k].streams in Repr)
      && (forall k, l :: k in limiters && l in limiters && k != l ==>
          limiters[k] != limiters[l] && limiters[k].streams != limiters[l].streams)
    }

    ghost function Model(): Slots
      requires Valid()
      reads this, Repr
    {
      map k | k in limiters :: Slot(limiters[k].streams.maxStreams, limiters[k].streams.activeStreams,
                                    limiters[k].lastAccess)
    }

    constructor (defaultRPS: int, cleanupInterval: nat)
      ensures Valid() && fresh(Repr) && Model() == map[] && this.defaultRPS == defaultRPS
      ensures this.cleanupInterval == cleanupInterval
    {
      this.defaultRPS, this.cleanupInterval := defaultRPS, cleanupInterval;
      limiters, Repr := map[], {};
    }

    /** Finds the limiter of a key or makes it, and notes the access. */
    method Access(key: string, maxStreams: int, now: int) returns (limiter: ClientLimiter)
      requires Valid()
      modifies this, Repr
      ensures Valid() && fresh(Repr - old(Repr)) && Model() == Touched(old(Model()), key, maxStreams, now)
      ensures key in limiters && limiters[key] == limiter
    {
      if key in limiters {
        limiter := limiters[key];
      } else {
        Make(key, maxStreams, now);
        limiter := limiters[key];
      }
      limiter.lastAccess := now;
    }

    /** The part of Allow, AllowN and Wait that concerns streams: a key seen here first gets the default request
        rate as its stream limit. */
    method Allow(key: string, now: int)
      requires Valid()
      modifies this, Repr
      ensures Valid() && fresh(Repr - old(Repr)) && Model() == Touched(old(Model()), key, defaultRPS, now)
    {
      var limiter := Access(key, defaultRPS, now);
    }

    /** Takes a slot of a key that has a limiter. */
    method TakeSlot(key: string) returns (granted: bool)
      requires Valid() && key in Model()
      modifies Repr
      ensures Valid() && granted == (old(Model())[key].active < old(Model())[key].max)
      ensures Model() == if granted then old(Model())[key := old(Model())[key].(active := old(Model())[key].active + 1)]
                else old(Model())
    {
      granted := limiters[key].streams.Acquire();
    }

    method AcquireStream(key: string, maxStreams: int, now: int) returns (granted: bool)
      requires Valid()
      modifies this, Repr
      ensures Valid() && fresh(Repr - old(Repr)) && Model() == Acquired(old(Model()), key, maxStreams, now)
      ensures granted == Grants(old(Model()), key, maxStreams)
    {
      hide Valid, Model;
      var limiter := Access(key, maxStreams, now);
      granted := TakeSlot(key);
    }

    method ReleaseStream(key: string)
      requires Valid()
      modifies Repr
      ensures Valid() && Model() == Released(old(Model()), key)
    {
      if key in limiters {
        limiters[key].streams.Release();
      }
    }

    /** Replaces the stream limiter of a key: its open streams are forgotten. */
    method Renew(key: string, maxStreams: int)
      requires Valid() && key in limiters
      modifies this`Repr, limiters[key]
      ensures Valid() && fresh(Repr - old(Repr))
      ensures Model() == old(Model())[key := Slot(maxStreams, 0, old(Model())[key].lastAccess)]
    {
      var streams := new StreamLimiter(maxStreams);
      limiters[key].streams := streams;
      Repr := Repr + {streams};
    }

    /** Makes the limiter of a key. */
    method Make(key: string, maxStreams: int, now: int)
      requires Valid() && key !in limiters
      modifies this`limiters, this`Repr
      ensures Valid() && fresh(Repr - old(Repr)) && Model() == old(Model())[key := Slot(maxStreams, 0, now)]
      ensures key in limiters
    {
      var limiter := new ClientLimiter(maxStreams, now);
      limiters := limiters[key := limiter];
      Repr := Repr + {limiter, limiter.streams};
    }

    method SetLimit(key: string, maxStreams: int, now: int)
      requires Valid()
      modifies this, Repr
      ensures Valid() && fresh(Repr - old(Repr)) && Model() == Limited(old(Model()), key, maxStreams, now)
    {
      if key in limiters {
        Renew(key, maxStreams);
      } else {
        Make(key, maxStreams, now);
      }
    }

    /** The loop of the cleanup. */
    method Prune(threshold: int)
      requires Valid()
      modifies this`limiters
      ensures Valid() && Repr == old(Repr)
      ensures limiters.Keys <= old(limiters).Keys && forall k :: k in limiters ==> limiters[k] == old(limiters)[k]
      ensures forall k :: k in old(limiters) ==>
                (k in limiters <==>
                   old(limiters)[k].lastAccess >= threshold ||
                   old(limiters)[k].streams.activeStreams != 0)
    {
      var todo := limiters.Keys;
      ghost var all := limiters;
      hide Model;
      while todo != {}
        invariant todo <= limiters.Keys <= all.Keys
        invariant forall k :: k in limiters ==> limiters[k] == all[k]
        invariant forall k :: k in all ==> (k in limiters <==>
                                            k in todo || all[k].lastAccess >= threshold ||
                                              all[k].streams.activeStreams != 0)
        decreases |todo|
      {
        var key :| key in todo;
        todo := todo - {key};
        if limiters[key].lastAccess < threshold && limiters[key].streams.activeStreams == 0 {
          limiters := limiters - {key};
        }
      }
    }

    method Cleanup(now: int)
      requires Valid()
      modifies this`limiters
      ensures Valid() && Repr == old(Repr) && Model() == Cleaned(old(Model()), now - 2 * cleanupInterval)
      ensures forall k :: k in old(Model()) ==>
                (k in Model() <==>
                   now - old(Model())[k].lastAccess <= 2 * cleanupInterval ||
                   old(Model())[k].active > 0)
    {
      CleanedIff(Model(), now, cleanupInterval);
      Sweep(now - cleanupInterval * 2);
      hide Cleaned, Model, Valid;
    }

    method Sweep(threshold: int)
      requires Valid()
      modifies this`limiters
      ensures Valid() && Repr == old(Repr) && Model() == Cleaned(old(Model()), threshold)
    {
      Prune(threshold);
    }
  }

  // ---------------------------------------------------------------- runs

  datatype Call =
    | Request(key: string, max: int, now: int)     // Allow, AllowN or Wait
    | Acquire(key: string, max: int, now: int)
    | Release(key: string)
    | SetLimit(key: string, max: int, now: int)
    | Cleanup(threshold: int)

  function Do(m: Slots, c: Call): Slots {
    match c
    case Request(key, max, now) => Touched(m, key, max, now)
    case Acquire(key, max, now) => Acquired(m, key, max, now)
    case Release(key) => Released(m, key)
    case SetLimit(key, max, now) => Limited(m, key, max, now)
    case Cleanup(threshold) => Cleaned(m, threshold)
  }

  function Run(calls: seq<Call>): Slots {
    if calls == [] then map[] else Do(Run(calls[..|calls| - 1]), calls[|calls| - 1])
  }

  /** The acquires of a key that were granted, less its releases. */
  function Balance(calls: seq<Call>, key: string): int {
    if calls == [] then 0
    else
      var before, c := calls[..|calls| - 1], calls[|calls| - 1];
      Balance(before, key) + if c == Release(key) then -1
        else if c.Acquire? && c.key == key && Grants(Run(before), key, c.max) then 1 else 0
  }

  /** Every release follows a granted acquire. */
  ghost predicate Matched(calls: seq<Call>, key: string) {
    forall n :: 0 <= n <= |calls| ==> Balance(calls[..n], key) >= 0
  }

  ghost predicate NoSetLimit(calls: seq<Call>, key: string) {
    forall i :: 0 <= i < |calls| ==> !(calls[i].SetLimit? && calls[i].key == key)
  }

  /** The limit given to the call that made the limiter which the key has now. */
  function MadeWith(calls: seq<Call>, key: string): Option<int> {
    if calls == [] then None
    else
      var before, c := calls[..|calls| - 1], calls[|calls| - 1];
      if key !in Run(calls) then None
      else if key !in Run(before) && (c.Request? || c.Acquire? || c.SetLimit?) then Some(c.max)
      else if c.SetLimit? && c.key == key then Some(c.max)
      else MadeWith(before, key)
  }

  function Active(m: Slots, key: string): nat { if key in m then m[key].active else 0 }

  /** What one call other than SetLimit on the key does to the key. */
  lemma OneCall(m: Slots, c: Call, key: string)
    requires !(c.SetLimit? && c.key == key)
    ensures Active(Do(m, c), key) == Active(m, key) +
              if c == Release(key) && Active(m, key) > 0 then -1
                else if c.Acquire? && c.key == key && Grants(m, key, c.max) then 1 else 0
    ensures key in m && key in Do(m, c) ==> Do(m, c)[key].max == m[key].max
    ensures key !in m && key in Do(m, c) ==> (c.Request? || c.Acquire?) && c.key == key && Do(m, c)[key].max == c.max
    ensures key in m && Active(m, key) > 0 ==> key in Do(m, c)
    ensures c.Acquire? && c.key == key && Grants(m, key, c.max) ==>
              key in Do(m, c) && Do(m, c)[key].active <= Do(m, c)[key].max
  {
  }

  /** What a call does to the time of a key's last access, and when it removes the key: a request or an acquire of the
      key
      sets the time, and only a cleanup removes it, exactly when it is older than the threshold and has no stream. */
  lemma OneAccess(m: Slots, c: Call, key: string)
    ensures (c.Request? || c.Acquire?) && c.key == key ==> key in Do(m, c) && Do(m, c)[key].lastAccess == c.now
    ensures key in m && key in Do(m, c) && !((c.Request? || c.Acquire?) && c.key == key) ==>
              Do(m, c)[key].lastAccess == m[key].lastAccess
    ensures key in m ==>
              (key !in Do(m, c) <==> c.Cleanup? && m[key].lastAccess < c.threshold && m[key].active == 0)
    ensures key !in m && key in Do(m, c) ==> (c.Request? || c.Acquire? || c.SetLimit?) && c.key == key
    ensures c.SetLimit? && c.key == key ==> key in Do(m, c) && Do(m, c)[key].max == c.max && Do(m, c)[key].active == 0
  {
  }

  /** Sequentially, without SetLimit on the key and with every release after a granted acquire: the granted acquires
      less the releases are the open streams, never above the limit with which the limiter was made; so while any
      is open the key keeps its limiter, and a release finds the one whose slot it returns. */
  lemma {:induction false} SlotsAreExact(calls: seq<Call>, key: string)
    requires NoSetLimit(calls, key) && Matched(calls, key)
    ensures Active(Run(calls), key) == Balance(calls, key)
    ensures key in Run(calls) ==> MadeWith(calls, key) == Some(Run(calls)[key].max)
    ensures Balance(calls, key) > 0 ==> key in Run(calls) && Balance(calls, key) <= Run(calls)[key].max
  {
    if calls == [] {
    } else {
      hide Do, Grants;
      var n := |calls| - 1;
      assert forall i :: 0 <= i <= n ==> calls[..n][..i] == calls[..i];
      assert calls[..n + 1] == calls;
      SlotsAreExact(calls[..n], key);
      OneCall(Run(calls[..n]), calls[n], key);
    }
  }

  /** While streams are open, no later call but SetLimit on the key replaces its limiter. */
  lemma HeldLimiterStays(m: Slots, c: Call, key: string)
    requires Active(m, key) > 0 && !(c.SetLimit? && c.key == key)
    ensures key in Do(m, c) && Do(m, c)[key].max == m[key].max
  {
  }

  lemma {:induction false} BalanceOf(calls: seq<Call>, c: Call, key: string)
    ensures Run(calls + [c]) == Do(Run(calls), c)
    ensures Balance(calls + [c], key) == Balance(calls, key) +
              if c == Release(key) then -1 else if c.Acquire? && c.key == key && Grants(Run(calls), key, c.max) then 1
                else 0
  {
    assert (calls + [c])[..|calls|] == calls;
  }

  /** SetLimit keeps the count exact if and only if no stream of the key is open. */
  lemma SetLimitExactIff(calls: seq<Call>, key: string, max: int, now: int)
    requires NoSetLimit(calls, key) && Matched(calls, key)
    ensures var after := calls + [SetLimit(key, max, now)];
            Active(Run(after), key) == Balance(after, key) <==> Active(Run(calls), key) == 0
  {
    SlotsAreExact(calls, key);
    BalanceOf(calls, SetLimit(key, max, now), key);
  }

  /** After SetLimit while `held` streams are open, the key can have that many open streams too many. */
  lemma SetLimitOverflows(calls: seq<Call>, key: string, max: nat, now: int)
    requires NoSetLimit(calls, key) && Matched(calls, key) && max > 0
    ensures var after := calls + [SetLimit(key, max, now)] + seq(max, i => Acquire(key, max, now));
            Balance(after, key) == Active(Run(calls), key) + max
  {
    SlotsAreExact(calls, key);
    BalanceOf(calls, SetLimit(key, max, now), key);
    FillUp(calls + [SetLimit(key, max, now)], key, max, max, now);
  }

  lemma AcquireOne(calls: seq<Call>, key: string, max: nat, now: int)
    requires key in Run(calls) && Run(calls)[key].max == max && Run(calls)[key].active < max
    ensures var after := calls + [Acquire(key, max, now)];
            && key in Run(after) && Run(after)[key].max == max && Run(after)[key].active == Run(calls)[key].active + 1
            && Balance(after, key) == Balance(calls, key) + 1
  {
    BalanceOf(calls, Acquire(key, max, now), key);
    hide Run, Balance;
  }

  lemma {:induction false} FillUp(calls: seq<Call>, key: string, max: nat, n: nat, now: int)
    requires key in Run(calls) && Run(calls)[key].max == max && Run(calls)[key].active == 0 && n <= max
    ensures var after := calls + seq(n, i => Acquire(key, max, now));
            key in Run(after) && Run(after)[key].max == max && Run(after)[key].active == n &&
              Balance(after, key) == Balance(calls, key) + n
  {
    hide Run, Balance;
    if n == 0 {
      assert calls + seq(0, i => Acquire(key, max, now)) == calls;
    } else {
      FillUp(calls, key, max, n - 1, now);
      AcquireOne(calls + seq(n - 1, i => Acquire(key, max, now)), key, max, now);
      assert calls + seq(n, i => Acquire(key, max, now)) ==
        calls + seq(n - 1, i => Acquire(key, max, now)) + [Acquire(key, max, now)];
    }
  }
}
