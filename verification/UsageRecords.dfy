/** Every finished Record call is one addition for its own caller, if all ids are valid. */
module UsageRecords {
  import opened Usage

  /** The calls among the events, in order: call number `t` is run by thread `t`. */
  function Calls(es: seq<Event>): seq<Event> {
    if es == [] then [] else (if es[0].Run? then [] else [es[0]]) + Calls(es[1..])
  }

  predicate ValidCall(e: Event) { (e.Record? || e.UpdatePeakStreams?) ==> ValidId(e.id) }

  predicate ValidCalls(es: seq<Event>) { forall i :: 0 <= i < |es| ==> ValidCall(es[i]) }

  function One(b: bool): nat { if b then 1 else 0 }

  /** How many calls of Record with this id and counter have finished. */
  function Finished(calls: seq<Event>, threads: seq<Thread>, id: Id, k: Counter): nat
    requires |calls| == |threads|
  {
    if calls == [] then 0
    else
      var n := |calls| - 1;
      Finished(calls[..n], threads[..n], id, k) + One(calls[n] == Record(id, k) && threads[n].Done?)
  }

  /** A thread does what its call is for: a recorder adds to a buffer of its own id, or reports its stream count there,
      and a flush writes under its date the buffers that it listed. */
  ghost predicate Serves(buffers: seq<Buffer>, e: Event, pc: Thread) {
    match e
    case Record(id, k) =>
      pc.Done? || pc == Find(id, Count(k)) || pc == Make(id, Count(k))
      || (pc.Add? && pc.counter == k && pc.buffer < |buffers| && buffers[pc.buffer].id == id)
    case UpdatePeakStreams(id, n) =>
      pc.Done? || pc == Find(id, Peak(n)) || pc == Make(id, Peak(n))
      || ((pc.LoadPeak? || pc.SwapPeak?) && pc.streams == n && pc.buffer < |buffers| && buffers[pc.buffer].id == id)
    case Flush(order, date) => pc.Done? || ((pc.Next? || Carries(pc)) && pc.date == date && |pc.rest| <= |order|)
    case Run(t) => false
  }

  ghost predicate Tallied(s: State, calls: seq<Event>, id: Id, k: Counter) {
    |calls| == |s.threads| && Finished(calls, s.threads, id, k) == InBuffers(s.buffers, id, k, Made)
  }

  ghost predicate RecordsInv(s: State, calls: seq<Event>) {
    && |calls| == |s.threads| && ValidCalls(calls)
    && (forall t :: 0 <= t < |calls| ==> Serves(s.buffers, calls[t], s.threads[t]))
    && (forall b :: 0 <= b < |s.buffers| ==> ValidId(s.buffers[b].id))
    && (forall id, k :: Tallied(s, calls, id, k))
  }

  lemma PartsRecords(s: State, calls: seq<Event>)
    requires |calls| == |s.threads| && ValidCalls(calls)
    requires forall t :: 0 <= t < |calls| ==> Serves(s.buffers, calls[t], s.threads[t])
    requires forall b :: 0 <= b < |s.buffers| ==> ValidId(s.buffers[b].id)
    requires forall id, k :: Tallied(s, calls, id, k)
    ensures RecordsInv(s, calls)
  {
    hide Serves, ValidId, Tallied, ValidCalls;
  }

  lemma RecordsParts(s: State, calls: seq<Event>)
    requires RecordsInv(s, calls)
    ensures |calls| == |s.threads| && ValidCalls(calls)
    ensures forall t :: 0 <= t < |calls| ==> Serves(s.buffers, calls[t], s.threads[t])
    ensures forall b :: 0 <= b < |s.buffers| ==> ValidId(s.buffers[b].id)
    ensures forall id, k :: Tallied(s, calls, id, k)
  {
    hide Serves, ValidId, Tallied, ValidCalls;
  }

  lemma {:induction false} FinishedMoved(calls: seq<Event>, threads: seq<Thread>, t: nat, pc: Thread, id: Id,
                                         k: Counter)
    requires |calls| == |threads| && t < |threads|
    ensures Finished(calls, threads[t := pc], id, k) + One(calls[t] == Record(id, k) && threads[t].Done?)
         == Finished(calls, threads, id, k) + One(calls[t] == Record(id, k) && pc.Done?)
  {
    var n := |calls| - 1;
    if t == n {
      assert threads[t := pc][..n] == threads[..n];
    } else {
      FinishedMoved(calls[..n], threads[..n], t, pc, id, k);
      assert threads[t := pc][..n] == threads[..n][t := pc];
    }
  }

  lemma FinishedBegun(calls: seq<Event>, threads: seq<Thread>, e: Event, pc: Thread, id: Id, k: Counter)
    requires |calls| == |threads| && !pc.Done?
    ensures Finished(calls + [e], threads + [pc], id, k) == Finished(calls, threads, id, k)
  {
    assert (calls + [e])[..|calls|] == calls && (threads + [pc])[..|threads|] == threads;
  }

  // ---------------------------------------------------------------- calls

  /** Additions and ids stay as they are. */
  ghost predicate SameMade(buffers: seq<Buffer>, buffers': seq<Buffer>) {
    |buffers'| == |buffers| && forall b :: 0 <= b < |buffers| ==>
      buffers'[b].id == buffers[b].id && buffers'[b].added == buffers[b].added
  }

  lemma MadeStays(buffers: seq<Buffer>, buffers': seq<Buffer>, id: Id, k: Counter)
    requires SameMade(buffers, buffers')
    ensures InBuffers(buffers', id, k, Made) == InBuffers(buffers, id, k, Made)
  {
    BuffersAlike(buffers, buffers', id, k, Made);
  }

  lemma ServesStays(buffers: seq<Buffer>, buffers': seq<Buffer>, e: Event, pc: Thread)
    requires Serves(buffers, e, pc) && |buffers| <= |buffers'|
    requires forall b :: 0 <= b < |buffers| ==> buffers'[b].id == buffers[b].id
    ensures Serves(buffers', e, pc)
  {
  }

  lemma CallRecords(s: State, calls: seq<Event>, e: Event, s': State)
    requires RecordsInv(s, calls) && !e.Run? && ValidCall(e) && SameMade(s.buffers, s'.buffers)
    requires |s'.threads| == |s.threads| + 1 && s'.threads == s.threads + [s'.threads[|s.threads|]]
    requires !s'.threads[|s.threads|].Done? && Serves(s'.buffers, e, s'.threads[|s.threads|])
    ensures RecordsInv(s', calls + [e])
  {
    hide RecordsInv, Serves, ValidId, Finished, InBuffers;
    RecordsParts(s, calls);
    forall t | 0 <= t < |calls + [e]|
      ensures Serves(s'.buffers, (calls + [e])[t], s'.threads[t])
    {
      if t < |calls| {
        ServesStays(s.buffers, s'.buffers, calls[t], s.threads[t]);
      }
    }
    forall id, k
      ensures Tallied(s', calls + [e], id, k)
    {
      assert Tallied(s, calls, id, k);
      FinishedBegun(calls, s.threads, e, s'.threads[|s.threads|], id, k);
      MadeStays(s.buffers, s'.buffers, id, k);
    }
    PartsRecords(s', calls + [e]);
  }

  // ---------------------------------------------------------------- steps

  /** Thread `t` moves on; what it adds is counted as finished. */
  lemma MoveRecords(s: State, calls: seq<Event>, t: nat, s': State)
    requires RecordsInv(s, calls) && t < |s.threads| && |s'.threads| == |s.threads|
    requires s'.threads == s.threads[t := s'.threads[t]]
    requires |s.buffers| <= |s'.buffers| && (forall b :: 0 <= b < |s.buffers| ==> s'.buffers[b].id == s.buffers[b].id)
    requires forall b :: |s.buffers| <= b < |s'.buffers| ==> ValidId(s'.buffers[b].id)
    requires |calls| == |s.threads| && Serves(s'.buffers, calls[t], s'.threads[t])
    requires forall id, k :: InBuffers(s'.buffers, id, k, Made) + One(calls[t] == Record(id, k) && s.threads[t].Done?)
                             == InBuffers(s.buffers, id, k, Made) +
                               One(calls[t] == Record(id, k) && s'.threads[t].Done?)
    ensures RecordsInv(s', calls)
  {
    hide RecordsInv, Serves, ValidId, Finished, InBuffers, ValidCalls;
    RecordsParts(s, calls);
    forall u | 0 <= u < |calls|
      ensures Serves(s'.buffers, calls[u], s'.threads[u])
    {
      if u != t {
        ServesStays(s.buffers, s'.buffers, calls[u], s.threads[u]);
      }
    }
    forall b | 0 <= b < |s'.buffers|
      ensures ValidId(s'.buffers[b].id)
    {
      if b < |s.buffers| {
        assert ValidId(s.buffers[b].id);
      }
    }
    forall id, k
      ensures Tallied(s', calls, id, k)
    {
      assert Tallied(s, calls, id, k);
      FinishedMoved(calls, s.threads, t, s'.threads[t], id, k);
    }
    PartsRecords(s', calls);
  }

  /** The buffer that a recorder finds is its own. */
  lemma FoundOwn(s: State, id: Id)
    requires Inv(s) && BufferKey(id) in s.current && ValidId(id) && forall b ::
               0 <= b < |s.buffers| ==> ValidId(s.buffers[b].id)
    ensures s.current[BufferKey(id)] < |s.buffers| && s.buffers[s.current[BufferKey(id)]].id == id
  {
    hide Inv;
    OfTable(s);
    hide RowOk, UpsertsOk, BufferKey;
    SameKeyIff(s.buffers[s.current[BufferKey(id)]].id, id);
  }

  lemma LookRecords(s: State, calls: seq<Event>, t: nat)
    requires Inv(s) && WellFormed(s) && RecordsInv(s, calls) && t < |s.threads|
    requires (s.threads[t].Find? || s.threads[t].Make?)
    ensures RecordsInv(RunThread(s, t), calls)
  {
    RecordsParts(s, calls);
    hide Inv, RecordsInv, InBuffers, BufferKey, ValidId, Tallied;
    assert Serves(s.buffers, calls[t], s.threads[t]) && ValidCall(calls[t]);
    var id := s.threads[t].id;
    if BufferKey(id) in s.current {
      FoundOwn(s, id);
    } else if s.threads[t].Make? {
      forall jd, k
        ensures InBuffers(s.buffers + [NewBuffer(id)], jd, k, Made) == InBuffers(s.buffers, jd, k, Made)
      {
        BufferMade(s.buffers, id, jd, k, Made);
      }
    }
    MoveRecords(s, calls, t, RunThread(s, t));
  }

  lemma AddRecords(s: State, calls: seq<Event>, t: nat)
    requires Inv(s) && WellFormed(s) && RecordsInv(s, calls) && t < |s.threads| && s.threads[t].Add?
    ensures RecordsInv(RunThread(s, t), calls)
  {
    RecordsParts(s, calls);
    hide *;
    var b, j := s.threads[t].buffer, s.threads[t].counter;
    AddRuns(s, t);
    var buf := Added(s.buffers[b], j);
    var s' := Put(s, b, buf, t, Done);
    AddedOne(s.buffers[b], j);
    PutParts(s, b, buf, t, Done);
    AddServes(s.buffers, calls[t], s.threads[t]);
    forall id, k
      ensures InBuffers(s'.buffers, id, k, Made) == InBuffers(s.buffers, id, k, Made) + One(calls[t] == Record(id, k))
    {
      BufferChanged(s.buffers, b, buf, id, k, Made);
      AddedMade(s.buffers[b], j, id, k);
    }
    DoneServes(s'.buffers, calls[t]);
    FinishCounts();
    MoveRecords(s, calls, t, s');
  }

  lemma FinishCounts()
    ensures One(true) == 1 && One(false) == 0
  {
  }

  lemma PutParts(s: State, b: nat, buf: Buffer, t: nat, pc: Thread)
    requires b < |s.buffers| && t < |s.threads|
    ensures Put(s, b, buf, t, pc).buffers == s.buffers[b := buf] && Put(s, b, buf, t, pc).threads == s.threads[t := pc]
  {
  }

  /** A recorder that adds does so for its caller. */
  lemma AddServes(buffers: seq<Buffer>, e: Event, pc: Thread)
    requires Serves(buffers, e, pc) && pc.Add?
    ensures pc.buffer < |buffers| && e.Record?
    ensures forall id, k :: e == Record(id, k) <==> buffers[pc.buffer].id == id && pc.counter == k
  {
  }

  lemma DoneServes(buffers: seq<Buffer>, e: Event)
    requires !e.Run?
    ensures Serves(buffers, e, Done)
  {
  }

  lemma AddRuns(s: State, t: nat)
    requires WellFormed(s) && t < |s.threads| && s.threads[t].Add?
    ensures s.threads[t].buffer < |s.buffers|
    ensures RunThread(s, t) == Put(s, s.threads[t].buffer, Added(s.buffers[s.threads[t].buffer], s.threads[t].counter),
                                   t, Done)
  {
    assert InRange(|s.buffers|, s.threads[t]);
    hide Added;
  }

  lemma AddedOne(buf: Buffer, j: Counter)
    ensures Added(buf, j).id == buf.id
  {
  }

  lemma AddedMade(buf: Buffer, j: Counter, id: Id, k: Counter)
    ensures InBuffer(Added(buf, j), id, k, Made) == InBuffer(buf, id, k, Made) + One(buf.id == id && j == k)
  {
  }

  /** A thread that reports a peak or flushes serves its call on, and that is no Record. */
  lemma ServesOn(buffers: seq<Buffer>, buffers': seq<Buffer>, e: Event, pc: Thread, pc': Thread)
    requires Serves(buffers, e, pc) && |buffers'| == |buffers|
    requires forall b :: 0 <= b < |buffers| ==> buffers'[b].id == buffers[b].id
    requires pc.LoadPeak? || pc.SwapPeak? || pc.Next? || Carries(pc)
    requires pc.LoadPeak? || pc.SwapPeak? ==>
               pc'.Done? || ((pc'.LoadPeak? || pc'.SwapPeak?) && pc'.streams == pc.streams && pc'.buffer == pc.buffer)
    requires pc.Next? || Carries(pc) ==>
               pc'.Done? || ((pc'.Next? || Carries(pc')) && pc'.date == pc.date && |pc'.rest| <= |pc.rest|)
    ensures Serves(buffers', e, pc') && !e.Record?
  {
  }

  /** Reporting a peak and flushing add nothing. */
  lemma OtherRecords(s: State, calls: seq<Event>, t: nat)
    requires Inv(s) && WellFormed(s) && RecordsInv(s, calls) && t < |s.threads|
    requires var pc := s.threads[t]; pc.LoadPeak? || pc.SwapPeak? || pc.Next? || Carries(pc)
    ensures RecordsInv(RunThread(s, t), calls)
  {
    hide *;
    var s' := RunThread(s, t);
    RecordsParts(s, calls);
    OtherSame(s, t);
    SameIds(s.buffers, s'.buffers);
    ServesOn(s.buffers, s'.buffers, calls[t], s.threads[t], s'.threads[t]);
    FinishCounts();
    forall id, k
      ensures InBuffers(s'.buffers, id, k, Made) == InBuffers(s.buffers, id, k, Made)
    {
      MadeStays(s.buffers, s'.buffers, id, k);
    }
    MoveRecords(s, calls, t, s');
  }

  lemma SameIds(buffers: seq<Buffer>, buffers': seq<Buffer>)
    requires SameMade(buffers, buffers')
    ensures |buffers'| == |buffers| && forall b :: 0 <= b < |buffers| ==> buffers'[b].id == buffers[b].id
  {
  }

  /** Such a step changes no addition and stays with its call. */
  lemma OtherSame(s: State, t: nat)
    requires WellFormed(s) && t < |s.threads|
    requires var pc := s.threads[t]; pc.LoadPeak? || pc.SwapPeak? || pc.Next? || Carries(pc)
    ensures var pc, s' := s.threads[t], RunThread(s, t);
            && SameMade(s.buffers, s'.buffers) && |s'.threads| == |s.threads| &&
              s'.threads == s.threads[t := s'.threads[t]]
            && (pc.LoadPeak? || pc.SwapPeak? ==>
                  s'.threads[t].Done? ||
                  ((s'.threads[t].LoadPeak? || s'.threads[t].SwapPeak?)
                   && s'.threads[t].streams == pc.streams && s'.threads[t].buffer == pc.buffer))
            && (pc.Next? || Carries(pc) ==>
                  s'.threads[t].Done? ||
                  ((s'.threads[t].Next? || Carries(s'.threads[t]))
                   && s'.threads[t].date == pc.date && |s'.threads[t].rest| <= |pc.rest|))
  {
    assert InRange(|s.buffers|, s.threads[t]);
    hide WellFormed, Upserted;
  }

  lemma ThreadRecords(s: State, calls: seq<Event>, t: nat)
    requires Inv(s) && WellFormed(s) && RecordsInv(s, calls) && t < |s.threads| && !s.threads[t].Done?
    ensures RecordsInv(RunThread(s, t), calls)
  {
    hide Inv, WellFormed, RecordsInv, RunThread;
    match s.threads[t]
    case Find(_, _) => LookRecords(s, calls, t);
    case Make(_, _) => LookRecords(s, calls, t);
    case Add(_, _) => AddRecords(s, calls, t);
    case _ => OtherRecords(s, calls, t);
  }

  lemma StepRecords(s: State, calls: seq<Event>, e: Event)
    requires Inv(s) && WellFormed(s) && Enabled(s, e) && RecordsInv(s, calls) && ValidCall(e)
    ensures RecordsInv(Step(s, e), if e.Run? then calls else calls + [e])
  {
    hide Inv, WellFormed, RecordsInv, RunThread, Lists, ValidId;
    if e.Run? {
      ThreadRecords(s, calls, e.thread);
    } else {
      CallRecords(s, calls, e, Step(s, e));
    }
  }

  lemma {:induction false} RunRecords(s: State, calls: seq<Event>, es: seq<Event>)
    requires Inv(s) && RecordsInv(s, calls) && ValidCalls(es) && Exec(s, es).Some?
    ensures RecordsInv(Exec(s, es).value, calls + Calls(es))
    decreases |es|
  {
    hide Inv, RecordsInv, WellFormed, Enabled, Step, ValidCall;
    if es == [] {
      assert calls + Calls(es) == calls;
    } else {
      var calls' := if es[0].Run? then calls else calls + [es[0]];
      StepKeepsInv(s, es[0]);
      StepRecords(s, calls, es[0]);
      RunRecords(Step(s, es[0]), calls', es[1..]);
      assert calls' + Calls(es[1..]) == calls + Calls(es);
    }
  }

  lemma InitRecords()
    ensures RecordsInv(Init, [])
  {
  }

  /** In every run whose ids are all valid: the additions in the buffers of an id are exactly the finished calls of
      Record with that id, counter by counter. */
  lemma RecordedIsMade(es: seq<Event>, s: State, id: Id, k: Counter)
    requires Reaches(es, s) && ValidCalls(es)
    ensures |Calls(es)| == |s.threads|
    ensures Finished(Calls(es), s.threads, id, k) == InBuffers(s.buffers, id, k, Made)
  {
    InitInv();
    InitRecords();
    hide RecordsInv, Inv, Finished, InBuffers;
    RunRecords(Init, [], es);
    assert [] + Calls(es) == Calls(es);
    RecordsParts(s, Calls(es));
    assert Tallied(s, Calls(es), id, k);
  }

  /** End to end: what finished calls of Record have counted for an id is in its rows, in the hands of flushes, or
      left in its buffers; without a flush between a lookup and its addition, after a last flush it is all in its
      rows. */
  lemma RecordedIsKept(es: seq<Event>, s: State, id: Id, k: Counter)
    requires Reaches(es, s) && ValidCalls(es)
    ensures |Calls(es)| == |s.threads|
    ensures Finished(Calls(es), s.threads, id, k)
         == Written(s.written, id, k) + InHand(s.threads, id, k) + InBuffers(s.buffers, id, k, Residue)
    ensures NoFlushBetween(Init, es) && AtRest(s) && s.current == map[] ==>
              Finished(Calls(es), s.threads, id, k) == Written(s.written, id, k)
  {
    hide *;
    RecordedIsMade(es, s, id, k);
    Conservation(es, s, id, k);
    if NoFlushBetween(Init, es) && AtRest(s) && s.current == map[] {
      ExactWithoutRace(es, s, id, k);
    }
  }
}
