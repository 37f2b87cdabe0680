/** GetNonce: any number of calls race on one counter with atomic loads and compare-and-swaps. */
module Nonce {

  const TWO_TO_THE_63 := 0x8000_0000_0000_0000
  const TWO_TO_THE_64 := 0x1_0000_0000_0000_0000

  function ToInt64(x: int): int { (x + TWO_TO_THE_63) % TWO_TO_THE_64 - TWO_TO_THE_63 }

  function ToUint64(x: int): nat { x % TWO_TO_THE_64 }

  /** One call.  `now` is the time it sampled, `start` the number of nonces issued before it began.
      `seen` is the number of nonces issued when it loaded `current`, `index` its own place among the issued ones. */
  datatype Call =
    | Loading(now: int, start: nat)
    | Swapping(now: int, start: nat, current: int, seen: nat)
    | Returned(now: int, start: nat, nonce: int, index: nat)

  /** `issued` lists the values that successful swaps stored, in order; it is history only. */
  datatype State = State(counter: int, calls: seq<Call>, issued: seq<int>)

  datatype Event = Begin(now: int) | Load(t: nat) | CompareAndSwap(t: nat)

  predicate Enabled(s: State, e: Event) {
    match e
    case Begin(now) => true
    case Load(t) => t < |s.calls| && s.calls[t].Loading?
    case CompareAndSwap(t) => t < |s.calls| && s.calls[t].Swapping?
  }

  /** The value a call tries to store after loading `current`. */
  function Candidate(now: int, current: int): int {
    if current < now then now else ToInt64(current + 1)
  }

  function Step(s: State, e: Event): State
    requires Enabled(s, e)
  {
    match e
    case Begin(now) => s.(calls := s.calls + [Loading(now, |s.issued|)])
    case Load(t) =>
      var c := s.calls[t];
      s.(calls := s.calls[t := Swapping(c.now, c.start, s.counter, |s.issued|)])
    case CompareAndSwap(t) =>
      var c := s.calls[t];
      if s.counter == c.current then
        var n := Candidate(c.now, c.current);
        State(n, s.calls[t := Returned(c.now, c.start, ToUint64(n), |s.issued|)], s.issued + [n])
      else s.(calls := s.calls[t := Loading(c.now, c.start)])
  }

  function Exec(init: int, es: seq<Event>): (r: seq<State>)
    ensures |r| <= 1
  {
    if es == [] then [State(init, [], [])]
    else
      var before := Exec(init, es[..|es| - 1]);
      if before != [] && Enabled(before[0], es[|es| - 1]) then [Step(before[0], es[|es| - 1])] else []
  }

  ghost predicate Reaches(init: int, es: seq<Event>, s: State) { Exec(init, es) == [s] }

  /** Every sampled time lies between zero and `latest`, and so does the initial counter. */
  ghost predicate TimesUpTo(init: int, es: seq<Event>, latest: int) {
    0 <= init <= latest && forall i :: 0 <= i < |es| && es[i].Begin? ==> 0 <= es[i].now <= latest
  }

  /** The counter after the first `i` nonces. */
  function ValueAt(init: int, issued: seq<int>, i: nat): int
    requires i <= |issued|
  {
    if i == 0 then init else issued[i - 1]
  }

  /** The nonce is the time that the call sampled, or one more than the one before it, whichever is more. */
  ghost predicate LeastAbove(init: int, s: State, c: Call)
    requires c.Returned? && c.index < |s.issued|
  {
    var before := ValueAt(init, s.issued, c.index);
    c.now <= c.nonce && before < c.nonce && (c.nonce == c.now || c.nonce == before + 1)
  }

  ghost predicate CallOk(init: int, latest: int, s: State, c: Call) {
    && c.start <= |s.issued| && 0 <= c.now <= latest
    && (c.Swapping? ==> c.start <= c.seen <= |s.issued| && c.current == ValueAt(init, s.issued, c.seen))
    && (c.Returned? ==> c.start <= c.index < |s.issued| && c.nonce == s.issued[c.index] && LeastAbove(init, s, c))
  }

  ghost predicate Growing(init: int, issued: seq<int>) {
    forall i, j :: 0 <= i < j <= |issued| ==> ValueAt(init, issued, i) < ValueAt(init, issued, j)
  }

  ghost predicate OwnIndices(calls: seq<Call>) {
    forall t, u :: 0 <= t < u < |calls| && calls[t].Returned? && calls[u].Returned? ==> calls[t].index != calls[u].index
  }

  ghost predicate Inv(init: int, latest: int, s: State) {
    && 0 <= init <= s.counter <= latest + |s.issued|
    && s.counter == ValueAt(init, s.issued, |s.issued|)
    && Growing(init, s.issued)
    && (forall t :: 0 <= t < |s.calls| ==> CallOk(init, latest, s, s.calls[t]))
    && OwnIndices(s.calls)
  }

  lemma IssueGrows(init: int, issued: seq<int>, n: int)
    requires Growing(init, issued) && ValueAt(init, issued, |issued|) < n
    ensures Growing(init, issued + [n])
    ensures forall i :: 0 <= i <= |issued| ==> ValueAt(init, issued + [n], i) == ValueAt(init, issued, i)
  {
    assert forall i :: 0 <= i <= |issued| ==> ValueAt(init, issued + [n], i) == ValueAt(init, issued, i);
    forall i, j | 0 <= i < j <= |issued + [n]|
      ensures ValueAt(init, issued + [n], i) < ValueAt(init, issued + [n], j)
    {
      if j == |issued| + 1 && i < |issued| {
        assert ValueAt(init, issued, i) < ValueAt(init, issued, |issued|);
      }
    }
  }

  lemma StepKeepsInv(init: int, latest: int, s: State, e: Event)
    requires Inv(init, latest, s) && Enabled(s, e) && latest + |s.issued| + 1 < TWO_TO_THE_63
    requires e.Begin? ==> 0 <= e.now <= latest
    requires init <= latest
    ensures Inv(init, latest, Step(s, e)) && |Step(s, e).issued| <= |s.issued| + 1
  {
    if e.CompareAndSwap? {
      var c := s.calls[e.t];
      assert CallOk(init, latest, s, c);
      if s.counter == c.current {
        SwapKeepsInv(init, latest, s, e.t, Candidate(c.now, c.current));
      }
    } else {
      var s' := Step(s, e);
      assert forall t :: 0 <= t < |s.calls| ==> CallOk(init, latest, s, s.calls[t]);
      assert s'.issued == s.issued;
    }
  }

  lemma SwapKeepsInv(init: int, latest: int, s: State, t: nat, n: int)
    requires Inv(init, latest, s) && t < |s.calls| && s.calls[t].Swapping?
    requires s.calls[t].now <= n && s.counter < n <= latest + |s.issued| + 1 && n < TWO_TO_THE_63
    requires n == s.calls[t].now || n == s.counter + 1
    ensures Inv(init, latest,
                State(n, s.calls[t := Returned(s.calls[t].now, s.calls[t].start, ToUint64(n), |s.issued|)],
                      s.issued + [n]))
  {
    var c := s.calls[t];
    var s' := State(n, s.calls[t := Returned(c.now, c.start, ToUint64(n), |s.issued|)], s.issued + [n]);
    IssueGrows(init, s.issued, n);
    forall u | 0 <= u < |s'.calls|
      ensures CallOk(init, latest, s', s'.calls[u])
      ensures u != t && s'.calls[u].Returned? ==> s'.calls[u].index < |s.issued|
    {
      assert CallOk(init, latest, s, s.calls[u]);
    }
  }

  /** Every run whose times and length stay clear of 2^63 keeps the invariant. */
  lemma {:induction false} RunKeepsInv(init: int, latest: int, es: seq<Event>, s: State)
    requires TimesUpTo(init, es, latest) && latest + |es| < TWO_TO_THE_63
    requires Reaches(init, es, s)
    ensures Inv(init, latest, s) && |s.issued| <= |es|
  {
    if es != [] {
      var before := Exec(init, es[..|es| - 1])[0];
      RunKeepsInv(init, latest, es[..|es| - 1], before);
      StepKeepsInv(init, latest, before, es[|es| - 1]);
    }
  }

  /** In every run, for any number of calls and any interleaving: nonces are pairwise distinct and at least
      the time their call sampled; a call that began after another returned gets a larger nonce; and the
      counter stays within the number of issued nonces of the latest time. */
  lemma NonceGuarantees(init: int, latest: int, es: seq<Event>, s: State)
    requires TimesUpTo(init, es, latest) && latest + |es| < TWO_TO_THE_63
    requires Reaches(init, es, s)
    ensures forall t :: 0 <= t < |s.calls| && s.calls[t].Returned? ==> s.calls[t].now <= s.calls[t].nonce
    ensures forall t, u | 0 <= t < |s.calls| && 0 <= u < |s.calls| && t != u && s.calls[t].Returned? &&
              s.calls[u].Returned? ::
              && s.calls[t].nonce != s.calls[u].nonce
              && (s.calls[t].index < s.calls[u].start ==> s.calls[t].nonce < s.calls[u].nonce)
    ensures s.counter <= latest + |s.issued|
  {
    RunKeepsInv(init, latest, es, s);
    forall t, u | 0 <= t < |s.calls| && 0 <= u < |s.calls| && t != u && s.calls[t].Returned? && s.calls[u].Returned?
      ensures s.calls[t].nonce != s.calls[u].nonce
      ensures s.calls[t].index < s.calls[u].start ==> s.calls[t].nonce < s.calls[u].nonce
    {
      assert CallOk(init, latest, s, s.calls[t]) && CallOk(init, latest, s, s.calls[u]);
      var i, j := s.calls[t].index, s.calls[u].index;
      assert s.calls[t].nonce == ValueAt(init, s.issued, i + 1) && s.calls[u].nonce == ValueAt(init, s.issued, j + 1);
    }
  }

  /** In every run a nonce is no larger than it has to be: the least number that is at least the sampled time and above
      every nonce issued before it and the counter at the start. */
  lemma NonceIsLeast(init: int, latest: int, es: seq<Event>, s: State, t: nat)
    requires TimesUpTo(init, es, latest) && latest + |es| < TWO_TO_THE_63
    requires Reaches(init, es, s) && t < |s.calls| && s.calls[t].Returned?
    ensures var c := s.calls[t];
            && c.index < |s.issued| && c.now <= c.nonce && init < c.nonce
            && (forall i :: 0 <= i < c.index ==> s.issued[i] < c.nonce)
            && (c.nonce > c.now ==> c.nonce == (if c.index == 0 then init else s.issued[c.index - 1]) + 1)
  {
    RunKeepsInv(init, latest, es, s);
    var c := s.calls[t];
    assert CallOk(init, latest, s, c);
    assert ValueAt(init, s.issued, 0) < ValueAt(init, s.issued, c.index + 1);
    forall i | 0 <= i < c.index
      ensures s.issued[i] < c.nonce
    {
      assert ValueAt(init, s.issued, i + 1) < ValueAt(init, s.issued, c.index + 1);
    }
  }

  /** What `start` records: a call that begins now starts after exactly the nonces issued so far, and so
      after every call that has returned. */
  lemma BeginFollowsReturned(init: int, latest: int, es: seq<Event>, s: State, now: int)
    requires TimesUpTo(init, es, latest) && latest + |es| < TWO_TO_THE_63
    requires Reaches(init, es, s)
    ensures var s' := Step(s, Begin(now));
            && s'.calls[|s.calls|].Loading?
            && forall t :: 0 <= t < |s.calls| && s.calls[t].Returned? ==> s.calls[t].index < s'.calls[|s.calls|].start
  {
    RunKeepsInv(init, latest, es, s);
    forall t | 0 <= t < |s.calls| && s.calls[t].Returned?
      ensures s.calls[t].index < |s.issued|
    {
      assert CallOk(init, latest, s, s.calls[t]);
    }
  }

  /** A swap fails exactly when another call has succeeded since the load: some call always makes progress. */
  lemma FailedSwapMeansProgress(init: int, latest: int, es: seq<Event>, s: State, t: nat)
    requires TimesUpTo(init, es, latest) && latest + |es| < TWO_TO_THE_63
    requires Reaches(init, es, s) && Enabled(s, CompareAndSwap(t))
    ensures Step(s, CompareAndSwap(t)).calls[t].Loading? <==> s.calls[t].seen < |s.issued|
  {
    RunKeepsInv(init, latest, es, s);
    assert CallOk(init, latest, s, s.calls[t]);
  }
}
