/** Concurrent post requests over one connection: each waits for the response that carries its id. */
module PostRequests {

  datatype Option<+T> = None | Some(value: T)

  datatype Response = Response(id: int, body: string)

  /** How a request ends; a closed channel yields an empty response. */
  datatype Outcome = Answered(response: Response) | Emptied | TimedOut | NotSent

  datatype Stage = Allocate | Register | Send | Wait | Clean | Returned

  /** One request.  `slot` is the buffer of its channel, which holds one response.  History: how many responses the
      wire had delivered when it was registered, and when its channel was closed. */
  datatype Call = Call(stage: Stage, id: int, slot: Option<Response>, closed: bool, since: nat, until: Option<nat>,
                       outcome: Option<Outcome>)

  datatype Status = Running | SentOnClosed | ClosedTwice

  /** `pending` maps ids to requests; `wire` lists all responses that arrived. */
  datatype State = State(lastId: int, pending: map<int, nat>, calls: seq<Call>, wire: seq<Response>, status: Status)

  const Init := State(1, map[], [], [], Running)

  datatype Event =
    | Begin                                      // a call of PostRequest
    | Run(call: nat, ok: bool)                   // its next step; `ok` tells whether the write succeeds
    | Timeout(call: nat)                         // its timer fires before it receives
    | Deliver(response: Response)                // the wire delivers a response
    | Disconnect

  function Put(s: State, t: nat, c: Call): State
    requires t < |s.calls|
  {
    s.(calls := s.calls[t := c])
  }

  predicate Enabled(s: State, e: Event) {
    && s.status.Running?
    && match e
       case Run(t, ok) =>
         && t < |s.calls| && !s.calls[t].stage.Returned?
         && (s.calls[t].stage.Wait? ==> s.calls[t].slot.Some? || s.calls[t].closed)
       case Timeout(t) => t < |s.calls| && s.calls[t].stage.Wait?
       case _ => true
  }

  function RunCall(s: State, t: nat, ok: bool): State
    requires t < |s.calls|
  {
    var c := s.calls[t];
    match c.stage
    case Allocate => Put(s.(lastId := s.lastId + 1), t, c.(stage := Register, id := s.lastId + 1))
    case Register => Put(s.(pending := s.pending[c.id := t]), t, c.(stage := Send, since := |s.wire|))
    case Send => Put(s, t, if ok then c.(stage := Wait) else c.(stage := Clean, outcome := Some(NotSent)))
    case Wait =>
      Put(s, t, c.(stage := Clean, slot := None,
                   outcome := Some(if c.slot.Some? then Answered(c.slot.value) else Emptied)))
    case Clean => Put(s.(pending := s.pending - {c.id}), t, c.(stage := Returned))
    case Returned => s
  }

  /** A response goes into the channel of the request with its id, if there is one and its buffer is empty. */
  function Delivered(s: State, r: Response): State {
    var s1 := s.(wire := s.wire + [r]);
    if r.id in s.pending && s.pending[r.id] < |s.calls| then
      var c := s.calls[s.pending[r.id]];
      if c.closed then s1.(status := SentOnClosed)
      else if c.slot.None? then Put(s1, s.pending[r.id], c.(slot := Some(r)))
      else s1
    else s1
  }

  function Hung(c: Call, now: nat): Call { c.(closed := true, until := Some(now)) }

  predicate IsPending(pending: map<int, nat>, t: nat) { exists id :: id in pending && pending[id] == t }

  /** Every channel in the map is closed, and the map is emptied. */
  function Disconnected(s: State): State {
    if exists id :: id in s.pending && s.pending[id] < |s.calls| && s.calls[s.pending[id]].closed
    then s.(status := ClosedTwice)
    else s.(pending := map[],
            calls := seq(|s.calls|, t requires 0 <= t < |s.calls| =>
                           if IsPending(s.pending, t) then Hung(s.calls[t], |s.wire|) else s.calls[t]))
  }

  function Step(s: State, e: Event): State
    requires Enabled(s, e)
  {
    match e
    case Begin => s.(calls := s.calls + [Call(Allocate, 0, None, false, 0, None, None)])
    case Run(t, ok) => RunCall(s, t, ok)
    case Timeout(t) => Put(s, t, s.calls[t].(stage := Clean, outcome := Some(TimedOut)))
    case Deliver(r) => Delivered(s, r)
    case Disconnect => Disconnected(s)
  }

  function Exec(es: seq<Event>): Option<State> {
    if es == [] then Some(Init)
    else
      var before := Exec(es[..|es| - 1]);
      if before.Some? && Enabled(before.value, es[|es| - 1]) then Some(Step(before.value, es[|es| - 1])) else None
  }

  // ---------------------------------------------------------------- the invariant

  /** Where responses for the call are looked for: from its registration until its channel was closed. */
  function End(c: Call, wire: seq<Response>): nat { if c.until.Some? then c.until.value else |wire| }

  /** The first response on the wire with the id, from one place to another. */
  ghost predicate First(wire: seq<Response>, from: nat, to: nat, id: int, r: Response) {
    r.id == id && exists i :: from <= i < to <= |wire| && wire[i] == r && NoneFor(wire, from, i, id)
  }

  predicate NoneFor(wire: seq<Response>, from: nat, to: nat, id: int) {
    to <= |wire| && forall j :: from <= j < to ==> wire[j].id != id
  }

  predicate HasId(c: Call) { !c.stage.Allocate? }

  predicate IsRegistered(c: Call) { c.stage.Send? || c.stage.Wait? || c.stage.Clean? }

  ghost predicate CallOk(s: State, t: nat, c: Call) {
    && (HasId(c) ==> 1 < c.id <= s.lastId)
    && (c.stage.Allocate? || c.stage.Register? ==> c.slot.None? && !c.closed && c.outcome.None?)
    && (c.stage.Send? || c.stage.Wait? ==> c.outcome.None?)
    && (c.stage.Clean? || c.stage.Returned? ==> c.outcome.Some?)
    && (c.closed <==> c.until.Some?)
    && c.since <= End(c, s.wire) <= |s.wire|
    && (IsRegistered(c) ==> (c.closed <==> c.id !in s.pending) && (c.id in s.pending ==> s.pending[c.id] == t))
    && (c.stage.Send? || c.stage.Wait? ==> SlotOk(s.wire, c))
    && (c.slot.Some? ==> HasId(c) && c.slot.value.id == c.id)
    && (c.outcome.Some? ==> OutcomeOk(s.wire, c, c.outcome.value))
  }

  /** The buffer holds the first response that came, and is empty while none came. */
  ghost predicate SlotOk(wire: seq<Response>, c: Call) {
    match c.slot
    case Some(r) => First(wire, c.since, End(c, wire), c.id, r)
    case None => NoneFor(wire, c.since, End(c, wire), c.id)
  }

  ghost predicate OutcomeOk(wire: seq<Response>, c: Call, o: Outcome) {
    match o
    case Answered(r) => First(wire, c.since, End(c, wire), c.id, r)
    case Emptied => c.closed && NoneFor(wire, c.since, End(c, wire), c.id)
    case _ => true
  }

  ghost predicate Inv(s: State) {
    && s.status.Running? && s.lastId >= 1
    && (forall t :: 0 <= t < |s.calls| ==> CallOk(s, t, s.calls[t]))
    && (forall t, u :: 0 <= t < u < |s.calls| && HasId(s.calls[t]) && HasId(s.calls[u]) ==>
        s.calls[t].id != s.calls[u].id)
    && (forall id :: id in s.pending ==>
          s.pending[id] < |s.calls| && s.calls[s.pending[id]].id == id &&
          IsRegistered(s.calls[s.pending[id]]))
  }

  lemma FirstGrows(wire: seq<Response>, more: seq<Response>, from: nat, to: nat, id: int, r: Response)
    requires First(wire, from, to, id, r) && to <= |wire|
    ensures forall to' :: to <= to' <= |wire + more| ==> First(wire + more, from, to', id, r)
  {
    var i :| from <= i < to <= |wire| && wire[i] == r && NoneFor(wire, from, i, id);
    assert (wire + more)[i] == r && NoneFor(wire + more, from, i, id);
  }

  /** A step of one call leaves the others in order, when it changes the map only under the call's own id. */
  lemma OtherCallOk(s: State, s': State, t: nat, u: nat)
    requires Inv(s) && t < |s.calls| && u < |s.calls| && u != t && s'.wire == s.wire && s'.lastId >= s.lastId
    requires forall id :: id != s.calls[t].id || !HasId(s.calls[t]) ==>
               (id in s'.pending <==> id in s.pending) && (id in s.pending ==> s'.pending[id] == s.pending[id])
    ensures CallOk(s', u, s.calls[u])
  {
    assert CallOk(s, u, s.calls[u]);
    hide SlotOk, OutcomeOk;
  }

  /** A call that takes a step. */
  lemma OwnCallOk(s: State, t: nat, ok: bool)
    requires Inv(s) && Enabled(s, Run(t, ok))
    ensures CallOk(RunCall(s, t, ok), t, RunCall(s, t, ok).calls[t])
  {
    assert CallOk(s, t, s.calls[t]);
  }

  lemma RunKeepsInv(s: State, t: nat, ok: bool)
    requires Inv(s) && Enabled(s, Run(t, ok))
    ensures Inv(RunCall(s, t, ok))
  {
    var s' := RunCall(s, t, ok);
    assert CallOk(s, t, s.calls[t]);
    OwnCallOk(s, t, ok);
    forall u | 0 <= u < |s'.calls|
      ensures CallOk(s', u, s'.calls[u])
    {
      if u != t {
        OtherCallOk(s, s', t, u);
      }
    }
    IdsStayApart(s, t, ok);
    PendingStaysOk(s, t, ok);
    hide CallOk;
  }

  lemma IdsStayApart(s: State, t: nat, ok: bool)
    requires Inv(s) && Enabled(s, Run(t, ok))
    ensures var calls := RunCall(s, t, ok).calls;
            forall u, v :: 0 <= u < v < |calls| && HasId(calls[u]) && HasId(calls[v]) ==> calls[u].id != calls[v].id
  {
    forall u | 0 <= u < |s.calls|
      ensures HasId(s.calls[u]) ==> s.calls[u].id <= s.lastId
    {
      assert CallOk(s, u, s.calls[u]);
    }
    hide CallOk;
  }

  lemma PendingStaysOk(s: State, t: nat, ok: bool)
    requires Inv(s) && Enabled(s, Run(t, ok))
    ensures var s' := RunCall(s, t, ok);
            forall id :: id in s'.pending ==>
              s'.pending[id] < |s'.calls| && s'.calls[s'.pending[id]].id == id && IsRegistered(s'.calls[s'.pending[id]])
  {
    var s', c := RunCall(s, t, ok), s.calls[t];
    assert CallOk(s, t, c);
    assert c.stage.Allocate? || c.stage.Register? ==> forall id :: id in s.pending ==> s.pending[id] != t;
    assert s'.calls == s.calls[t := s'.calls[t]];
    assert HasId(c) ==> s'.calls[t].id == c.id;
    assert IsRegistered(c) && !c.stage.Clean? ==> IsRegistered(s'.calls[t]);
    hide Inv, CallOk;
    forall id | id in s'.pending
      ensures s'.pending[id] < |s'.calls| && s'.calls[s'.pending[id]].id == id && IsRegistered(s'.calls[s'.pending[id]])
    {
    }
  }

  lemma TimeoutKeepsInv(s: State, t: nat)
    requires Inv(s) && Enabled(s, Timeout(t))
    ensures Inv(Step(s, Timeout(t)))
  {
    assert CallOk(s, t, s.calls[t]);
  }

  lemma DeliverKeepsCall(s: State, r: Response, t: nat)
    requires Inv(s) && t < |s.calls| && !(r.id in s.pending && s.pending[r.id] == t && s.calls[t].slot.None?)
    ensures CallOk(s.(wire := s.wire + [r]), t, s.calls[t])
  {
    var c, wire' := s.calls[t], s.wire + [r];
    assert CallOk(s, t, c);
    if c.slot.Some? && First(s.wire, c.since, End(c, s.wire), c.id, c.slot.value) {
      FirstGrows(s.wire, [r], c.since, End(c, s.wire), c.id, c.slot.value);
    }
    if c.outcome.Some? && c.outcome.value.Answered? {
      FirstGrows(s.wire, [r], c.since, End(c, s.wire), c.id, c.outcome.value.response);
    }
  }

  lemma DeliverKeepsInv(s: State, r: Response)
    requires Inv(s)
    ensures Inv(Delivered(s, r))
  {
    var s' := Delivered(s, r);
    if r.id in s.pending {
      var u := s.pending[r.id];
      assert CallOk(s, u, s.calls[u]);
      if s.calls[u].slot.None? {
        SlotFills(s, r, u);
      }
    }
    forall t | 0 <= t < |s'.calls|
      ensures CallOk(s', t, s'.calls[t])
    {
      if !(r.id in s.pending && s.pending[r.id] == t && s.calls[t].slot.None?) {
        DeliverKeepsCall(s, r, t);
      }
    }
  }

  lemma SlotFills(s: State, r: Response, u: nat)
    requires Inv(s) && r.id in s.pending && s.pending[r.id] == u && s.calls[u].slot.None? && !s.calls[u].closed
    ensures CallOk(s.(wire := s.wire + [r]), u, s.calls[u].(slot := Some(r)))
  {
    var c, wire' := s.calls[u], s.wire + [r];
    assert CallOk(s, u, c);
    if c.outcome.Some? && c.outcome.value.Answered? {
      FirstGrows(s.wire, [r], c.since, End(c, s.wire), c.id, c.outcome.value.response);
    }
    if c.stage.Send? || c.stage.Wait? {
      assert NoneFor(wire', c.since, |s.wire|, c.id) && wire'[|s.wire|] == r;
    }
  }

  lemma HungOk(s: State, t: nat)
    requires Inv(s) && t < |s.calls|
    ensures !(exists id :: id in s.pending && s.pending[id] < |s.calls| && s.calls[s.pending[id]].closed)
    ensures CallOk(Disconnected(s), t, Disconnected(s).calls[t])
  {
    forall id | id in s.pending
      ensures s.pending[id] < |s.calls| && !s.calls[s.pending[id]].closed
    {
      assert CallOk(s, s.pending[id], s.calls[s.pending[id]]);
    }
    var c := s.calls[t];
    assert CallOk(s, t, c);
    if IsPending(s.pending, t) {
      var id :| id in s.pending && s.pending[id] == t;
      assert c.id == id && IsRegistered(c);
    }
  }

  lemma DisconnectKeepsInv(s: State)
    requires Inv(s)
    ensures Inv(Disconnected(s))
  {
    if s.calls != [] {
      HungOk(s, 0);
    }
    forall t | 0 <= t < |s.calls|
      ensures CallOk(Disconnected(s), t, Disconnected(s).calls[t])
    {
      HungOk(s, t);
    }
    hide CallOk;
  }

  lemma StepKeepsInv(s: State, e: Event)
    requires Inv(s) && Enabled(s, e)
    ensures Inv(Step(s, e))
  {
    match e
    case Begin => BeginKeepsInv(s);
    case Run(t, ok) => RunKeepsInv(s, t, ok);
    case Timeout(t) => TimeoutKeepsInv(s, t);
    case Deliver(r) => DeliverKeepsInv(s, r);
    case Disconnect => DisconnectKeepsInv(s);
  }

  lemma BeginKeepsInv(s: State)
    requires Inv(s)
    ensures Inv(Step(s, Begin))
  {
  }

  lemma {:induction false} ExecKeepsInv(es: seq<Event>)
    requires Exec(es).Some?
    ensures Inv(Exec(es).value)
  {
    hide Inv, Step, Enabled;
    if es == [] {
      InitInv();
    } else {
      ExecKeepsInv(es[..|es| - 1]);
      StepKeepsInv(Exec(es[..|es| - 1]).value, es[|es| - 1]);
    }
  }

  lemma InitInv()
    ensures Inv(Init)
  {
  }

  // ---------------------------------------------------------------- what every run guarantees

  /** Nothing is sent to a closed channel and no channel is closed twice, whatever arrives whenever. */
  lemma NeverPanics(es: seq<Event>)
    requires Exec(es).Some?
    ensures Exec(es).value.status.Running?
  {
    ExecKeepsInv(es);
  }

  /** Requests have different ids. */
  lemma IdsDiffer(es: seq<Event>, t: nat, u: nat)
    requires Exec(es).Some? && t < u < |Exec(es).value.calls|
    ensures var s := Exec(es).value; HasId(s.calls[t]) && HasId(s.calls[u]) ==> s.calls[t].id != s.calls[u].id
  {
    ExecKeepsInv(es);
  }

  /** A request that got a response got the first one that the wire delivered with its id since it was registered; a
      request that got an empty one was disconnected before any came. */
  lemma AnsweredByTheFirst(es: seq<Event>, t: nat)
    requires Exec(es).Some? && t < |Exec(es).value.calls| && Exec(es).value.calls[t].outcome.Some?
    ensures var s := Exec(es).value;
            var c := s.calls[t];
            match c.outcome.value
            case Answered(r) => First(s.wire, c.since, |s.wire|, c.id, r)
            case Emptied => c.until.Some? && NoneFor(s.wire, c.since, c.until.value, c.id)
            case _ => true
  {
    ExecKeepsInv(es);
    var s := Exec(es).value;
    assert CallOk(s, t, s.calls[t]);
    var c := s.calls[t];
    if c.outcome.value.Answered? {
      FirstGrows(s.wire, [], c.since, End(c, s.wire), c.id, c.outcome.value.response);
      assert s.wire + [] == s.wire;
    }
  }

  /** A response is returned to the request with its id and to no other. */
  lemma NotAnsweredTwice(es: seq<Event>, t: nat, u: nat)
    requires Exec(es).Some? && t < u < |Exec(es).value.calls|
    ensures var s := Exec(es).value;
            var a, b := s.calls[t].outcome, s.calls[u].outcome;
            a.Some? && a.value.Answered? && b.Some? && b.value.Answered? ==> a.value.response != b.value.response
  {
    ExecKeepsInv(es);
    var s := Exec(es).value;
    assert CallOk(s, t, s.calls[t]) && CallOk(s, u, s.calls[u]);
  }

  /** A request that still waits although its response has come can receive it: the response is in its buffer. */
  lemma ResponseIsWaiting(es: seq<Event>, t: nat, i: nat)
    requires Exec(es).Some? && t < |Exec(es).value.calls|
    requires var s := Exec(es).value;
             var c := s.calls[t];
             c.stage.Wait? && c.since <= i < End(c, s.wire) <= |s.wire| && s.wire[i].id == c.id
    ensures var s := Exec(es).value; s.calls[t].slot.Some? && Enabled(s, Run(t, true))
  {
    ExecKeepsInv(es);
    var s := Exec(es).value;
    assert CallOk(s, t, s.calls[t]);
  }

  /** A request begins and takes its id. */
  lemma Opens(es: seq<Event>)
    requires Exec(es).Some? && Exec(es).value.status.Running?
    ensures var s, n := Exec(es).value, |Exec(es).value.calls|;
            Exec(es + [Begin, Run(n, true)]) ==
            Some(s.(lastId := s.lastId + 1,
                    calls := s.calls + [Call(Register, s.lastId + 1, None, false, 0, None, None)]))
  {
    var s, n := Exec(es).value, |Exec(es).value.calls|;
    hide Exec, Disconnected, Delivered;
    var s1 := ExecNext(es, Begin);
    var s2 := ExecNext(es + [Begin], Run(n, true));
    assert es + [Begin, Run(n, true)] == es + [Begin] + [Run(n, true)];
    assert s2.calls == s.calls + [Call(Register, s.lastId + 1, None, false, 0, None, None)];
  }

  /** A request with an id registers and is sent. */
  lemma Sends(es: seq<Event>, n: nat)
    requires Exec(es).Some? && Exec(es).value.status.Running?
    requires n < |Exec(es).value.calls| && Exec(es).value.calls[n].stage.Register?
    ensures var s, c := Exec(es).value, Exec(es).value.calls[n];
            Exec(es + [Run(n, true), Run(n, true)]) ==
            Some(s.(pending := s.pending[c.id := n], calls := s.calls[n := c.(stage := Wait, since := |s.wire|)]))
  {
    var s := Exec(es).value;
    hide Exec, Disconnected, Delivered;
    var s1 := ExecNext(es, Run(n, true));
    var s2 := ExecNext(es + [Run(n, true)], Run(n, true));
    assert es + [Run(n, true), Run(n, true)] == es + [Run(n, true)] + [Run(n, true)];
    assert s2.calls == s.calls[n := s.calls[n].(stage := Wait, since := |s.wire|)];
  }

  /** A request that runs alone until it waits. */
  lemma Asks(es: seq<Event>)
    requires Exec(es).Some?
    ensures var s, n := Exec(es).value, |Exec(es).value.calls|;
            var id, more := s.lastId + 1, [Begin, Run(n, true), Run(n, true), Run(n, true)];
            Exec(es + more) == Some(s.(lastId := id, pending := s.pending[id := n],
                                       calls := s.calls + [Call(Wait, id, None, false, |s.wire|, None, None)]))
  {
    hide *;
    NeverPanics(es);
    var s, n := Exec(es).value, |Exec(es).value.calls|;
    Opens(es);
    Sends(es + [Begin, Run(n, true)], n);
    var asked, waiting := Call(Register, s.lastId + 1, None, false, 0, None, None),
                          Call(Wait, s.lastId + 1, None, false, |s.wire|, None, None);
    assert (s.calls + [asked])[n := waiting] == s.calls + [waiting];
    assert es + [Begin, Run(n, true)] + [Run(n, true), Run(n, true)] ==
      es + [Begin, Run(n, true), Run(n, true), Run(n, true)];
  }

  /** A request that waits and gets its response. */
  lemma Receives(es: seq<Event>, n: nat, r: Response)
    requires Exec(es).Some? && n < |Exec(es).value.calls|
    requires var s, c := Exec(es).value, Exec(es).value.calls[n];
             && c.stage.Wait? && c.slot.None? && !c.closed && c.id == r.id && s.status.Running?
             && r.id in s.pending && s.pending[r.id] == n
    ensures var s, more := Exec(es).value, [Deliver(r), Run(n, true), Run(n, true)];
            Exec(es + more) == Some(s.(wire := s.wire + [r], pending := s.pending - {r.id},
                                       calls := s.calls[n := s.calls[n].(stage := Returned,
                                                                         outcome := Some(Answered(r)))]))
  {
    var s := Exec(es).value;
    hide Exec, Disconnected;
    var s1 := ExecNext(es, Deliver(r));
    var s2 := ExecNext(es + [Deliver(r)], Run(n, true));
    var s3 := ExecNext(es + [Deliver(r)] + [Run(n, true)], Run(n, true));
    assert es + [Deliver(r), Run(n, true), Run(n, true)] == es + [Deliver(r)] + [Run(n, true)] + [Run(n, true)];
    assert s3.calls == s.calls[n := s.calls[n].(stage := Returned, outcome := Some(Answered(r)))];
  }

  /** From every state: a request whose response comes while it waits, and that runs alone besides, returns that
      response, and leaves the map of pending requests as it was. */
  lemma RoundTrip(es: seq<Event>, r: Response)
    requires Exec(es).Some? && r.id == Exec(es).value.lastId + 1
    ensures var s, n := Exec(es).value, |Exec(es).value.calls|;
            var more := [Begin, Run(n, true), Run(n, true), Run(n, true), Deliver(r), Run(n, true), Run(n, true)];
            && Exec(es + more).Some?
            && var s' := Exec(es + more).value;
               && |s'.calls| == n + 1 && s'.calls[..n] == s.calls && s'.calls[n].outcome == Some(Answered(r))
               && s'.calls[n].stage.Returned? && s'.pending == s.pending && s'.wire == s.wire + [r]
  {
    ExecKeepsInv(es);
    var s, n := Exec(es).value, |Exec(es).value.calls|;
    NotPendingYet(s);
    assert s.status.Running?;
    hide Inv, Exec;
    var first := [Begin, Run(n, true), Run(n, true), Run(n, true)];
    var last := [Deliver(r), Run(n, true), Run(n, true)];
    Asks(es);
    Receives(es + first, n, r);
    assert es + first + last ==
      es + [Begin, Run(n, true), Run(n, true), Run(n, true), Deliver(r), Run(n, true), Run(n, true)];
  }

  lemma ExecNext(es: seq<Event>, e: Event) returns (s': State)
    requires Exec(es).Some? && Enabled(Exec(es).value, e)
    ensures Exec(es + [e]) == Some(s') && s' == Step(Exec(es).value, e)
  {
    assert (es + [e])[..|es|] == es;
    s' := Step(Exec(es).value, e);
  }

  lemma NotPendingYet(s: State)
    requires Inv(s)
    ensures s.lastId + 1 !in s.pending
  {
    forall id | id in s.pending
      ensures id <= s.lastId
    {
      assert CallOk(s, s.pending[id], s.calls[s.pending[id]]);
    }
  }

  /** After a disconnect every request that waits can go on, and none is pending. */
  lemma DisconnectWakesAll(es: seq<Event>, t: nat)
    requires Exec(es).Some? && t < |Exec(es).value.calls| && Exec(es).value.calls[t].stage.Wait?
    ensures Exec(es).value.status.Running?
    ensures var s' := Step(Exec(es).value, Disconnect);
            s'.pending == map[] && |s'.calls| == |Exec(es).value.calls| && Enabled(s', Run(t, true))
  {
    ExecKeepsInv(es);
    var s := Exec(es).value;
    DisconnectKeepsInv(s);
    assert CallOk(s, t, s.calls[t]);
    assert CallOk(Step(s, Disconnect), t, Step(s, Disconnect).calls[t]);
  }

  lemma PendingMeansBusy(s: State)
    requires Inv(s)
    ensures (forall id :: id !in s.pending) || exists t :: 0 <= t < |s.calls| && IsRegistered(s.calls[t])
  {
    if id :| id in s.pending {
      assert IsRegistered(s.calls[s.pending[id]]);
    }
  }

  /** When all requests have returned, the map of pending requests is empty. */
  lemma NothingPending(es: seq<Event>)
    requires Exec(es).Some? && forall t :: 0 <= t < |Exec(es).value.calls| ==> Exec(es).value.calls[t].stage.Returned?
    ensures forall id :: id !in Exec(es).value.pending
  {
    ExecKeepsInv(es);
    PendingMeansBusy(Exec(es).value);
  }
}
