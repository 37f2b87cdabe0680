/** Every finished call of UpdatePeakStreams has its stream count reported to a buffer of its own id, if all ids are
    valid, and flushes carry what was reported to the rows of their date. */
module UsagePeaks {
  import opened Usage
  import opened UsageRecords

  // ---------------------------------------------------------------- what was reported

  /** How often a value was reported. */
  function Times(reported: seq<int>, n: int): nat { multiset(reported)[n] }

  lemma TimesNext(reported: seq<int>, m: int, n: int)
    ensures Times(reported + [m], n) == Times(reported, n) + One(m == n)
  {
  }

  function Reports(buf: Buffer, id: Id, n: int): nat { if buf.id == id then Times(buf.reported, n) else 0 }

  /** How often a stream count was reported to the buffers of an id since their peaks were last swapped. */
  function InAll(buffers: seq<Buffer>, id: Id, n: int): nat {
    if buffers == [] then 0 else InAll(buffers[..|buffers| - 1], id, n) + Reports(buffers[|buffers| - 1], id, n)
  }

  function Carried(pc: Thread, id: Id, n: int): nat {
    if pc.Write? && pc.load.id == id then Times(pc.load.reported, n) else 0
  }

  /** What flushes have swapped out and not yet written. */
  function CarriedAll(threads: seq<Thread>, id: Id, n: int): nat {
    if threads == [] then 0
    else CarriedAll(threads[..|threads| - 1], id, n) + Carried(threads[|threads| - 1], id, n)
  }

  function UpsertOf(u: Upsert, id: Id, n: int): nat { if u.id == id then Times(u.reported, n) else 0 }

  function WrittenAll(written: seq<Upsert>, id: Id, n: int): nat {
    if written == [] then 0
    else WrittenAll(written[..|written| - 1], id, n) + UpsertOf(written[|written| - 1], id, n)
  }

  /** How many calls of UpdatePeakStreams with this id and stream count have finished. */
  function FinishedPeaks(calls: seq<Event>, threads: seq<Thread>, id: Id, n: int): nat
    requires |calls| == |threads|
  {
    if calls == [] then 0
    else
      var k := |calls| - 1;
      FinishedPeaks(calls[..k], threads[..k], id, n) + Reporting(calls[k], threads[k], id, n)
  }

  function Reporting(e: Event, pc: Thread, id: Id, n: int): nat { One(e == UpdatePeakStreams(id, n) && pc.Done?) }

  lemma {:induction false} InAllChanged(buffers: seq<Buffer>, b: nat, buf: Buffer, id: Id, n: int)
    requires b < |buffers|
    ensures InAll(buffers[b := buf], id, n) + Reports(buffers[b], id, n) == InAll(buffers, id, n) + Reports(buf, id, n)
  {
    hide Reports;
    var k := |buffers| - 1;
    if b == k {
      assert buffers[b := buf][..k] == buffers[..k];
    } else {
      InAllChanged(buffers[..k], b, buf, id, n);
      assert buffers[b := buf][..k] == buffers[..k][b := buf];
    }
  }

  lemma {:induction false} CarriedChanged(threads: seq<Thread>, t: nat, pc: Thread, id: Id, n: int)
    requires t < |threads|
    ensures CarriedAll(threads[t := pc], id, n) + Carried(threads[t], id, n) ==
              CarriedAll(threads, id, n) + Carried(pc, id, n)
  {
    hide Carried;
    var k := |threads| - 1;
    if t == k {
      assert threads[t := pc][..k] == threads[..k];
    } else {
      CarriedChanged(threads[..k], t, pc, id, n);
      assert threads[t := pc][..k] == threads[..k][t := pc];
    }
  }

  lemma {:induction false} FinishedChanged(calls: seq<Event>, threads: seq<Thread>, t: nat, pc: Thread, id: Id, n: int)
    requires |calls| == |threads| && t < |threads|
    ensures FinishedPeaks(calls, threads[t := pc], id, n) + Reporting(calls[t], threads[t], id, n)
         == FinishedPeaks(calls, threads, id, n) + Reporting(calls[t], pc, id, n)
  {
    hide Reporting;
    var k := |calls| - 1;
    if t == k {
      assert threads[t := pc][..k] == threads[..k];
    } else {
      FinishedChanged(calls[..k], threads[..k], t, pc, id, n);
      assert threads[t := pc][..k] == threads[..k][t := pc];
    }
  }

  lemma {:induction false} InAllAlike(buffers: seq<Buffer>, buffers': seq<Buffer>, id: Id, n: int)
    requires |buffers'| == |buffers| && forall b :: 0 <= b < |buffers| ==>
               buffers'[b].id == buffers[b].id && buffers'[b].reported == buffers[b].reported
    ensures InAll(buffers', id, n) == InAll(buffers, id, n)
  {
    if buffers != [] {
      InAllAlike(buffers[..|buffers| - 1], buffers'[..|buffers| - 1], id, n);
    }
  }

  lemma UpsertAdds(written: seq<Upsert>, u: Upsert, id: Id, n: int)
    ensures WrittenAll(written + [u], id, n) == WrittenAll(written, id, n) + UpsertOf(u, id, n)
  {
    assert (written + [u])[..|written|] == written;
  }

  // ---------------------------------------------------------------- nothing is lost or made up

  /** Reports made are written, carried by a flush, or in a buffer. */
  ghost predicate PeaksTallied(s: State, calls: seq<Event>, id: Id, n: int) {
    && |calls| == |s.threads|
    && FinishedPeaks(calls, s.threads, id, n) ==
      WrittenAll(s.written, id, n) + CarriedAll(s.threads, id, n) + InAll(s.buffers, id, n)
  }

  lemma CallTallies(s: State, calls: seq<Event>, e: Event, s': State, id: Id, n: int)
    requires PeaksTallied(s, calls, id, n) && s'.written == s.written
    requires |s'.threads| == |s.threads| + 1 && s'.threads == s.threads + [s'.threads[|s.threads|]]
    requires !s'.threads[|s.threads|].Done? && !s'.threads[|s.threads|].Write?
    requires |s'.buffers| == |s.buffers| && forall b :: 0 <= b < |s.buffers| ==>
               s'.buffers[b].id == s.buffers[b].id && s'.buffers[b].reported == s.buffers[b].reported
    ensures PeaksTallied(s', calls + [e], id, n)
  {
    InAllAlike(s.buffers, s'.buffers, id, n);
    assert s'.threads[..|s.threads|] == s.threads && (calls + [e])[..|calls|] == calls;
  }

  /** What one step of thread `t` takes from buffer `b` or adds to it, takes over, or writes. */
  lemma StepTallies(s: State, calls: seq<Event>, s': State, t: nat, b: nat, id: Id, n: int)
    requires PeaksTallied(s, calls, id, n) && t < |s.threads| && b < |s.buffers| == |s'.buffers|
    requires |s'.threads| == |s.threads| && s'.threads == s.threads[t := s'.threads[t]]
    requires s'.buffers == s.buffers[b := s'.buffers[b]]
    requires s'.written == s.written || (|s'.written| == |s.written| + 1 && s.written == s'.written[..|s.written|])
    requires |calls| == |s.threads|
    requires var more := if s'.written == s.written then 0 else UpsertOf(s'.written[|s.written|], id, n);
             Reports(s'.buffers[b], id, n) + Carried(s'.threads[t], id, n) + more +
               Reporting(calls[t], s.threads[t], id, n)
             == Reports(s.buffers[b], id, n) + Carried(s.threads[t], id, n) + Reporting(calls[t], s'.threads[t], id, n)
    ensures PeaksTallied(s', calls, id, n)
  {
    InAllChanged(s.buffers, b, s'.buffers[b], id, n);
    CarriedChanged(s.threads, t, s'.threads[t], id, n);
    FinishedChanged(calls, s.threads, t, s'.threads[t], id, n);
    if s'.written != s.written {
      var u := s'.written[|s.written|];
      UpsertAdds(s.written, u, id, n);
      assert s'.written == s.written + [u];
    }
    hide InAll, CarriedAll, FinishedPeaks, Reports, Carried, Reporting, UpsertOf, WrittenAll;
  }

  lemma LookTallies(s: State, calls: seq<Event>, t: nat, id: Id, n: int)
    requires WellFormed(s) && PeaksTallied(s, calls, id, n) && t < |s.threads|
    requires (s.threads[t].Find? || s.threads[t].Make?)
    ensures PeaksTallied(RunThread(s, t), calls, id, n)
  {
    hide WellFormed, BufferKey;
    var s' := RunThread(s, t);
    CarriedChanged(s.threads, t, s'.threads[t], id, n);
    FinishedChanged(calls, s.threads, t, s'.threads[t], id, n);
    if s'.buffers != s.buffers {
      assert s'.buffers[..|s.buffers|] == s.buffers;
    }
  }

  /** A step of a recorder in its buffer. */
  lemma ReportTallies(s: State, calls: seq<Event>, t: nat, id: Id, n: int)
    requires WellFormed(s) && PeaksTallied(s, calls, id, n) && t < |s.threads| == |calls|
    requires s.threads[t].LoadPeak? || s.threads[t].SwapPeak?
    requires Serves(s.buffers, calls[t], s.threads[t])
    ensures PeaksTallied(RunThread(s, t), calls, id, n)
  {
    assert InRange(|s.buffers|, s.threads[t]);
    ServesWhom(s.buffers, calls[t], s.threads[t]);
    hide WellFormed, PeaksTallied, Serves, Times;
    var b, m, s' := s.threads[t].buffer, s.threads[t].streams, RunThread(s, t);
    TimesNext(s.buffers[b].reported, m, n);
    StepTallies(s, calls, s', t, b, id, n);
  }

  lemma AddTallies(s: State, calls: seq<Event>, t: nat, id: Id, n: int)
    requires WellFormed(s) && PeaksTallied(s, calls, id, n) && t < |s.threads| == |calls| && s.threads[t].Add?
    requires Serves(s.buffers, calls[t], s.threads[t])
    ensures PeaksTallied(RunThread(s, t), calls, id, n)
  {
    AddRuns(s, t);
    hide WellFormed, PeaksTallied;
    StepTallies(s, calls, RunThread(s, t), t, s.threads[t].buffer, id, n);
  }

  /** Which threads serve which calls. */
  lemma ServesWhom(buffers: seq<Buffer>, e: Event, pc: Thread)
    requires Serves(buffers, e, pc) && !pc.Done?
    ensures e.Flush? <==> pc.Next? || Carries(pc)
    ensures e.Flush? ==> pc.date == e.date && |pc.rest| <= |e.order|
    ensures pc.LoadPeak? || pc.SwapPeak? ==>
              e == UpdatePeakStreams(e.id, pc.streams) && pc.buffer < |buffers| && buffers[pc.buffer].id == e.id
    ensures pc.Add? ==> e.Record?
  {
  }

  lemma NoneReported(n: int)
    ensures Times([], n) == 0
  {
  }

  /** What a step of a flush on its first buffer does. */
  lemma FlushRuns(s: State, t: nat)
    requires WellFormed(s) && t < |s.threads| && Carries(s.threads[t])
    ensures var pc, s' := s.threads[t], RunThread(s, t);
            && pc.rest != [] && pc.rest[0] < |s.buffers| == |s'.buffers|
            && |s'.threads| == |s.threads| && s'.threads == s.threads[t := s'.threads[t]] && !s'.threads[t].Done?
            && var b, buf := pc.rest[0], s.buffers[pc.rest[0]];
               && s'.buffers == s.buffers[b := s'.buffers[b]] && s'.buffers[b].id == buf.id
               && (pc.Take? ==>
                     s'.written == s.written && s'.buffers[b].reported == buf.reported && !s'.threads[t].Write?)
               && (pc.TakePeak? ==>
                     && s'.written == s.written && s'.buffers[b].reported == [] && s'.threads[t].Write?
                     && s'.threads[t].load.id == pc.load.id && s'.threads[t].load.reported == buf.reported)
               && (pc.Write? ==>
                     && |s'.written| == |s.written| + 1 && s'.written[..|s.written|] == s.written
                     && s'.written[|s.written|].id == pc.load.id && s'.written[|s.written|].reported == pc.load.reported
                     && s'.buffers[b].reported == buf.reported && s'.threads[t].Next?)
  {
    assert InRange(|s.buffers|, s.threads[t]);
    hide WellFormed, Upserted;
  }

  /** A step of a flush: the reports move from the buffer to the flush, and from the flush to what is written. */
  lemma FlushTallies(s: State, calls: seq<Event>, t: nat, id: Id, n: int)
    requires WellFormed(s) && Inv(s) && PeaksTallied(s, calls, id, n)
    requires t < |s.threads| == |calls| && Carries(s.threads[t]) && Serves(s.buffers, calls[t], s.threads[t])
    ensures PeaksTallied(RunThread(s, t), calls, id, n)
  {
    FlushRuns(s, t);
    OfThread(s, t);
    assert StageOk(s.buffers[s.threads[t].rest[0]], s.threads[t]);
    ServesWhom(s.buffers, calls[t], s.threads[t]);
    NoneReported(n);
    hide WellFormed, PeaksTallied, Inv, ThreadOk, RunThread, Serves, Times, StageOk;
    StepTallies(s, calls, RunThread(s, t), t, s.threads[t].rest[0], id, n);
  }

  lemma NextTallies(s: State, calls: seq<Event>, t: nat, id: Id, n: int)
    requires WellFormed(s) && PeaksTallied(s, calls, id, n) && t < |s.threads| == |calls| && s.threads[t].Next?
    requires Serves(s.buffers, calls[t], s.threads[t])
    ensures PeaksTallied(RunThread(s, t), calls, id, n)
  {
    hide WellFormed;
    var s' := RunThread(s, t);
    CarriedChanged(s.threads, t, s'.threads[t], id, n);
    FinishedChanged(calls, s.threads, t, s'.threads[t], id, n);
  }

  lemma ThreadTallies(s: State, calls: seq<Event>, t: nat, id: Id, n: int)
    requires WellFormed(s) && Inv(s) && PeaksTallied(s, calls, id, n) && t < |s.threads| == |calls|
    requires !s.threads[t].Done?
    requires Serves(s.buffers, calls[t], s.threads[t])
    ensures PeaksTallied(RunThread(s, t), calls, id, n)
  {
    hide *;
    match s.threads[t]
    case Find(_, _) => LookTallies(s, calls, t, id, n);
    case Make(_, _) => LookTallies(s, calls, t, id, n);
    case Add(_, _) => AddTallies(s, calls, t, id, n);
    case LoadPeak(_, _) => ReportTallies(s, calls, t, id, n);
    case SwapPeak(_, _, _) => ReportTallies(s, calls, t, id, n);
    case Next(_, _) => NextTallies(s, calls, t, id, n);
    case Take(_, _, _, _) => CarriesOn(s.threads[t]); FlushTallies(s, calls, t, id, n);
    case TakePeak(_, _, _) => CarriesOn(s.threads[t]); FlushTallies(s, calls, t, id, n);
    case Write(_, _, _) => CarriesOn(s.threads[t]); FlushTallies(s, calls, t, id, n);
  }

  lemma CarriesOn(pc: Thread)
    requires pc.Take? || pc.TakePeak? || pc.Write?
    ensures Carries(pc)
  {
  }

  lemma {:induction false} RunTallies(s: State, calls: seq<Event>, es: seq<Event>, id: Id, n: int)
    requires Inv(s) && RecordsInv(s, calls) && PeaksTallied(s, calls, id, n) && ValidCalls(es) && Exec(s, es).Some?
    ensures PeaksTallied(Exec(s, es).value, calls + Calls(es), id, n)
    decreases |es|
  {
    hide Inv, RecordsInv, WellFormed, Step, ValidCall, PeaksTallied;
    if es == [] {
      assert calls + Calls(es) == calls;
    } else {
      var e := es[0];
      var calls' := if e.Run? then calls else calls + [e];
      hide Enabled;
      StepKeepsInv(s, e);
      StepRecords(s, calls, e);
      OneStepTallies(s, calls, e, id, n);
      RunTallies(Step(s, e), calls', es[1..], id, n);
      assert calls' + Calls(es[1..]) == calls + Calls(es);
    }
  }

  /** What the beginning of a call does. */
  lemma CallRuns(s: State, e: Event)
    requires WellFormed(s) && Enabled(s, e) && !e.Run?
    ensures var s' := Step(s, e);
            && |s'.threads| == |s.threads| + 1 && s'.threads == s.threads + [s'.threads[|s.threads|]]
            && !s'.threads[|s.threads|].Done? && !s'.threads[|s.threads|].Write? && s'.written == s.written
            && |s'.buffers| == |s.buffers| && forall b :: 0 <= b < |s.buffers| ==>
                 s'.buffers[b].id == s.buffers[b].id && s'.buffers[b].reported == s.buffers[b].reported
  {
    hide WellFormed, Lists;
  }

  lemma OneStepTallies(s: State, calls: seq<Event>, e: Event, id: Id, n: int)
    requires Inv(s) && WellFormed(s) && Enabled(s, e) && RecordsInv(s, calls) && PeaksTallied(s, calls, id, n)
    ensures PeaksTallied(Step(s, e), if e.Run? then calls else calls + [e], id, n)
  {
    RecordsParts(s, calls);
    if e.Run? {
      hide Inv, RecordsInv, WellFormed, PeaksTallied, RunThread, Serves, Lists, Tallied, ValidId, ValidCalls;
      ThreadTallies(s, calls, e.thread, id, n);
    } else {
      hide *;
      CallRuns(s, e);
      CallTallies(s, calls, e, Step(s, e), id, n);
    }
  }

  /** In every run whose ids are all valid: the stream counts reported to the buffers of an id, those still there, those
      in the hands of flushes and those written, are exactly the arguments of its finished calls, each as often. */
  lemma ReportedIsFinished(es: seq<Event>, s: State, id: Id, n: int)
    requires Reaches(es, s) && ValidCalls(es)
    ensures |Calls(es)| == |s.threads|
    ensures FinishedPeaks(Calls(es), s.threads, id, n) ==
            WrittenAll(s.written, id, n) + CarriedAll(s.threads, id, n) + InAll(s.buffers, id, n)
  {
    InitInv();
    InitRecords();
    hide RecordsInv, Inv;
    RunTallies(Init, [], es, id, n);
    assert [] + Calls(es) == Calls(es);
  }

  // ---------------------------------------------------------------- nothing is late

  /** No flush swaps the map between the lookup of a reported peak and its comparison or swap. */
  ghost predicate NoFlushAtPeaks(s: State, es: seq<Event>)
    decreases |es|
  {
    es != [] && WellFormed(s) && Enabled(s, es[0]) ==>
      && (es[0].Flush? ==> forall t :: 0 <= t < |s.threads| ==> !s.threads[t].LoadPeak? && !s.threads[t].SwapPeak?)
      && NoFlushAtPeaks(Step(s, es[0]), es[1..])
  }

  predicate ReportsInMap(buffers: seq<Buffer>, pc: Thread) {
    (pc.LoadPeak? || pc.SwapPeak?) && pc.buffer < |buffers| ==> buffers[pc.buffer].place == InMap
  }

  /** Once a flush has swapped the peak of a buffer, nothing more is reported to it. */
  predicate Quiet(buffers: seq<Buffer>, pc: Thread) {
    pc.Write? && pc.rest != [] && pc.rest[0] < |buffers| ==> buffers[pc.rest[0]].reported == []
  }

  predicate Writes(pc: Thread, b: nat) { pc.Write? && pc.rest != [] && pc.rest[0] == b }

  ghost predicate PeaksPrompt(s: State) {
    && (forall t :: 0 <= t < |s.threads| ==> ReportsInMap(s.buffers, s.threads[t]) && Quiet(s.buffers, s.threads[t]))
    && (forall b :: 0 <= b < |s.buffers| && s.buffers[b].place == Flushed ==> s.buffers[b].reported == [])
  }

  lemma CallPrompt(s: State, e: Event)
    requires WellFormed(s) && Enabled(s, e) && !e.Run? && PeaksPrompt(s)
    requires e.Flush? ==> forall t :: 0 <= t < |s.threads| ==> !s.threads[t].LoadPeak? && !s.threads[t].SwapPeak?
    ensures PeaksPrompt(Step(s, e))
  {
    hide WellFormed, Lists;
    var s' := Step(s, e);
    forall t | 0 <= t < |s'.threads|
      ensures ReportsInMap(s'.buffers, s'.threads[t]) && Quiet(s'.buffers, s'.threads[t])
    {
      if t < |s.threads| {
        assert ReportsInMap(s.buffers, s.threads[t]) && Quiet(s.buffers, s.threads[t]);
      }
    }
  }

  /** A step of thread `t` in buffer `b`: threads that report to `b` find it in the map, flushes that are to write `b`
      find nothing new there. */
  lemma StepPrompt(s: State, s': State, t: nat, b: nat)
    requires PeaksPrompt(s) && t < |s.threads| && |s.buffers| <= |s'.buffers|
    requires |s'.threads| == |s.threads| && s'.threads == s.threads[t := s'.threads[t]]
    requires forall c :: 0 <= c < |s.buffers| && c != b ==> s'.buffers[c] == s.buffers[c]
    requires forall c :: |s.buffers| <= c < |s'.buffers| ==> s'.buffers[c].reported == []
    requires forall u :: 0 <= u < |s.threads| ==> InRange(|s.buffers|, s.threads[u])
    requires ReportsInMap(s'.buffers, s'.threads[t]) && Quiet(s'.buffers, s'.threads[t])
    requires b < |s.buffers| ==>
               && (s.buffers[b].place == InMap ==> s'.buffers[b].place == InMap)
               && (s'.buffers[b].place == Flushed ==> s'.buffers[b].reported == [])
               && forall u :: 0 <= u < |s.threads| && u != t && Writes(s.threads[u], b) ==>
                    s'.buffers[b].reported == []
    ensures PeaksPrompt(s')
  {
    forall u | 0 <= u < |s'.threads|
      ensures ReportsInMap(s'.buffers, s'.threads[u]) && Quiet(s'.buffers, s'.threads[u])
    {
      if u != t {
        assert ReportsInMap(s.buffers, s.threads[u]) && Quiet(s.buffers, s.threads[u]);
        assert InRange(|s.buffers|, s.threads[u]);
      }
    }
  }

  lemma AllInRange(s: State)
    requires WellFormed(s)
    ensures forall u :: 0 <= u < |s.threads| ==> InRange(|s.buffers|, s.threads[u])
  {
    hide InRange;
  }

  lemma LookPrompt(s: State, t: nat)
    requires Inv(s) && WellFormed(s) && PeaksPrompt(s) && t < |s.threads| && (s.threads[t].Find? || s.threads[t].Make?)
    ensures PeaksPrompt(RunThread(s, t))
  {
    AllInRange(s);
    OfTable(s);
    hide Inv, WellFormed, PeaksPrompt, BufferKey, RowOk, UpsertsOk;
    var s' := RunThread(s, t);
    if BufferKey(s.threads[t].id) in s.current {
      assert s.buffers[s.current[BufferKey(s.threads[t].id)]].place == InMap;
    }
    hide InRange;
    StepPrompt(s, s', t, |s.buffers|);
  }

  /** A buffer in the map is with no flush. */
  lemma NotWritten(s: State, b: nat)
    requires Inv(s) && b < |s.buffers| && s.buffers[b].place == InMap
    ensures forall u :: 0 <= u < |s.threads| ==> !Writes(s.threads[u], b)
  {
    forall u | 0 <= u < |s.threads|
      ensures !Writes(s.threads[u], b)
    {
      OfThread(s, u);
      hide Inv;
      if s.threads[u].Write? && s.threads[u].rest != [] {
        assert s.buffers[RestOf(s.threads[u])[0]].place == With(u);
      }
    }
  }

  lemma RecorderPrompt(s: State, t: nat)
    requires Inv(s) && WellFormed(s) && PeaksPrompt(s) && t < |s.threads|
    requires s.threads[t].LoadPeak? || s.threads[t].SwapPeak?
    ensures PeaksPrompt(RunThread(s, t))
  {
    AllInRange(s);
    var b, s' := s.threads[t].buffer, RunThread(s, t);
    assert InRange(|s.buffers|, s.threads[t]) && ReportsInMap(s.buffers, s.threads[t]);
    NotWritten(s, b);
    hide Inv, WellFormed, PeaksPrompt, InRange;
    StepPrompt(s, s', t, b);
  }

  lemma AddPrompt(s: State, t: nat)
    requires Inv(s) && WellFormed(s) && PeaksPrompt(s) && t < |s.threads| && s.threads[t].Add?
    ensures PeaksPrompt(RunThread(s, t))
  {
    AllInRange(s);
    AddRuns(s, t);
    var b, s' := s.threads[t].buffer, RunThread(s, t);
    AddedElse(s.buffers[b], s.threads[t].counter);
    forall u | 0 <= u < |s.threads| && Writes(s.threads[u], b)
      ensures s.buffers[b].reported == []
    {
      assert Quiet(s.buffers, s.threads[u]);
    }
    assert s.buffers[b].place == Flushed ==> s.buffers[b].reported == [];
    hide Inv, WellFormed, PeaksPrompt, InRange, RunThread, Added;
    StepPrompt(s, s', t, b);
  }

  lemma AddedElse(buf: Buffer, k: Counter)
    ensures Added(buf, k).place == buf.place && Added(buf, k).reported == buf.reported
  {
  }

  /** A buffer that a flush holds is with no other. */
  lemma HeldByOne(s: State, t: nat)
    requires Inv(s) && t < |s.threads| && Carries(s.threads[t]) && s.threads[t].rest != []
    ensures s.threads[t].rest[0] < |s.buffers| && s.buffers[s.threads[t].rest[0]].place == With(t)
    ensures forall u :: 0 <= u < |s.threads| && u != t ==> !Writes(s.threads[u], s.threads[t].rest[0])
  {
    OfThread(s, t);
    assert s.buffers[RestOf(s.threads[t])[0]].place == With(t);
    forall u | 0 <= u < |s.threads| && u != t
      ensures !Writes(s.threads[u], s.threads[t].rest[0])
    {
      OfThread(s, u);
      hide Inv;
      if s.threads[u].Write? && s.threads[u].rest != [] {
        assert s.buffers[RestOf(s.threads[u])[0]].place == With(u);
      }
    }
  }

  lemma FlushPrompt(s: State, t: nat)
    requires Inv(s) && WellFormed(s) && PeaksPrompt(s) && t < |s.threads| && Carries(s.threads[t])
    ensures PeaksPrompt(RunThread(s, t))
  {
    AllInRange(s);
    FlushRuns(s, t);
    HeldByOne(s, t);
    FlushKeepsPlace(s, t);
    assert Quiet(s.buffers, s.threads[t]);
    hide Inv, WellFormed, PeaksPrompt, InRange, RunThread;
    StepPrompt(s, RunThread(s, t), t, s.threads[t].rest[0]);
  }

  lemma FlushKeepsPlace(s: State, t: nat)
    requires WellFormed(s) && t < |s.threads| && Carries(s.threads[t])
    ensures var pc, s' := s.threads[t], RunThread(s, t);
            && pc.rest != [] && pc.rest[0] < |s.buffers| == |s'.buffers| && t < |s'.threads|
            && (!pc.Write? ==> s'.buffers[pc.rest[0]].place == s.buffers[pc.rest[0]].place)
            && (pc.TakePeak? ==> s'.threads[t].rest == pc.rest)
            && !s'.threads[t].LoadPeak? && !s'.threads[t].SwapPeak?
  {
    assert InRange(|s.buffers|, s.threads[t]);
    hide WellFormed, Upserted, Swapped;
    if s.threads[t].Take? {
      SwappedKeepsPlace(s.buffers[s.threads[t].rest[0]], s.threads[t].counter);
    }
  }

  lemma SwappedKeepsPlace(buf: Buffer, k: Counter)
    ensures Swapped(buf, k).place == buf.place
  {
  }

  lemma NextPrompt(s: State, t: nat)
    requires WellFormed(s) && PeaksPrompt(s) && t < |s.threads| && s.threads[t].Next?
    ensures PeaksPrompt(RunThread(s, t))
  {
    AllInRange(s);
    hide WellFormed, PeaksPrompt, InRange;
    StepPrompt(s, RunThread(s, t), t, |s.buffers|);
  }

  lemma OneStepPrompt(s: State, e: Event)
    requires Inv(s) && WellFormed(s) && Enabled(s, e) && PeaksPrompt(s)
    requires e.Flush? ==> forall t :: 0 <= t < |s.threads| ==> !s.threads[t].LoadPeak? && !s.threads[t].SwapPeak?
    ensures PeaksPrompt(Step(s, e))
  {
    hide Inv, WellFormed, PeaksPrompt, RunThread, Lists;
    if e.Run? {
      var pc := s.threads[e.thread];
      if pc.Find? || pc.Make? {
        LookPrompt(s, e.thread);
      } else if pc.LoadPeak? || pc.SwapPeak? {
        RecorderPrompt(s, e.thread);
      } else if pc.Add? {
        AddPrompt(s, e.thread);
      } else if pc.Next? {
        NextPrompt(s, e.thread);
      } else {
        FlushPrompt(s, e.thread);
      }
    } else {
      CallPrompt(s, e);
    }
  }

  lemma {:induction false} RunPrompt(s: State, es: seq<Event>)
    requires Inv(s) && PeaksPrompt(s) && NoFlushAtPeaks(s, es) && Exec(s, es).Some?
    ensures PeaksPrompt(Exec(s, es).value)
    decreases |es|
  {
    hide Inv, PeaksPrompt, WellFormed, Enabled, Step;
    if es != [] {
      StepKeepsInv(s, es[0]);
      OneStepPrompt(s, es[0]);
      RunPrompt(Step(s, es[0]), es[1..]);
    }
  }

  // ---------------------------------------------------------------- the rows

  lemma {:induction false} NothingLeft(buffers: seq<Buffer>, id: Id, n: int)
    requires forall b :: 0 <= b < |buffers| ==> buffers[b].reported == []
    ensures InAll(buffers, id, n) == 0
  {
    if buffers != [] {
      NothingLeft(buffers[..|buffers| - 1], id, n);
    }
  }

  lemma {:induction false} NothingCarried(threads: seq<Thread>, id: Id, n: int)
    requires forall t :: 0 <= t < |threads| ==> threads[t].Done?
    ensures CarriedAll(threads, id, n) == 0
  {
    if threads != [] {
      NothingCarried(threads[..|threads| - 1], id, n);
    }
  }

  lemma {:induction false} WrittenHas(written: seq<Upsert>, id: Id, n: int)
    ensures WrittenAll(written, id, n) > 0 <==>
              exists i :: 0 <= i < |written| && written[i].id == id && n in written[i].reported
  {
    if written != [] {
      var k := |written| - 1;
      assert Times(written[k].reported, n) > 0 <==> n in written[k].reported;
      WrittenHas(written[..k], id, n);
      assert forall i :: 0 <= i < k ==> written[i] == written[..k][i];
    }
  }

  lemma AllFlushed(s: State)
    requires Inv(s) && AtRest(s) && s.current == map[]
    ensures forall b :: 0 <= b < |s.buffers| ==> s.buffers[b].place == Flushed
  {
    forall b | 0 <= b < |s.buffers|
      ensures s.buffers[b].place == Flushed
    {
      OfBuffer(s, b);
    }
  }

  /** What was written for an id is in a row of the id. */
  lemma WrittenRow(s: State, i: nat)
    requires Inv(s) && i < |s.written|
    ensures forall n :: n in s.written[i].reported ==>
              && (n > 0 ==> RowKey(s.written[i].id, s.written[i].date) in s.table)
              && (RowKey(s.written[i].id, s.written[i].date) in s.table ==>
                    n <= s.table[RowKey(s.written[i].id, s.written[i].date)].peak)
  {
    OfTable(s);
    hide Inv;
    var key := RowKey(s.written[i].id, s.written[i].date);
    assert RowOk(s.table, s.written, key, Requests);
    PeakIsHighest(s.written, key);
  }

  /** End to end, when no flush falls between the lookup of a peak and its swap: after a last flush the peaks in the
      rows of an id are among the stream counts that its finished calls reported, or 0, and each of these counts that is
      above 0 is at most the peak of some row.  So the highest peak is the highest count, or 0. */
  lemma PeaksAreKept(es: seq<Event>, s: State, id: Id)
    requires Reaches(es, s) && ValidCalls(es) && NoFlushAtPeaks(Init, es) && AtRest(s) && s.current == map[]
    ensures |Calls(es)| == |s.threads|
    ensures forall key :: key in s.table && key.id == id ==>
              s.table[key].peak == 0 || FinishedPeaks(Calls(es), s.threads, id, s.table[key].peak) > 0
    ensures forall n :: n > 0 && FinishedPeaks(Calls(es), s.threads, id, n) > 0 ==>
              exists key :: key in s.table && key.id == id && n <= s.table[key].peak
  {
    ReportedIsFinished(es, s, id, 0);
    forall n
      ensures FinishedPeaks(Calls(es), s.threads, id, n) == WrittenAll(s.written, id, n)
    {
      FinishedIsWritten(es, s, id, n);
    }
    hide *;
    forall key | key in s.table && key.id == id
      ensures s.table[key].peak == 0 || FinishedPeaks(Calls(es), s.threads, id, s.table[key].peak) > 0
    {
      RowPeak(es, s, key);
      WrittenHas(s.written, id, s.table[key].peak);
    }
    forall n | n > 0 && FinishedPeaks(Calls(es), s.threads, id, n) > 0
      ensures exists key :: key in s.table && key.id == id && n <= s.table[key].peak
    {
      WrittenHas(s.written, id, n);
      var i :| 0 <= i < |s.written| && s.written[i].id == id && n in s.written[i].reported;
      ReachedInv(es, s);
      WrittenRow(s, i);
      assert RowKey(id, s.written[i].date) in s.table;
    }
  }

  lemma FinishedIsWritten(es: seq<Event>, s: State, id: Id, n: int)
    requires Reaches(es, s) && ValidCalls(es) && NoFlushAtPeaks(Init, es) && AtRest(s) && s.current == map[]
    ensures |Calls(es)| == |s.threads|
    ensures FinishedPeaks(Calls(es), s.threads, id, n) == WrittenAll(s.written, id, n)
  {
    ReportedIsFinished(es, s, id, n);
    ReachedInv(es, s);
    InitInv();
    hide Inv, FinishedPeaks, InAll, CarriedAll;
    RunPrompt(Init, es);
    AllFlushed(s);
    NothingLeft(s.buffers, id, n);
    NothingCarried(s.threads, id, n);
  }

  /** The highest peak in the rows of an id is the highest count reported for it. */
  lemma HighestPeak(es: seq<Event>, s: State, id: Id, m: int)
    requires Reaches(es, s) && ValidCalls(es) && NoFlushAtPeaks(Init, es) && AtRest(s) && s.current == map[]
    requires |Calls(es)| == |s.threads| && m > 0 && FinishedPeaks(Calls(es), s.threads, id, m) > 0
    requires forall n :: FinishedPeaks(Calls(es), s.threads, id, n) > 0 ==> n <= m
    ensures exists key :: key in s.table && key.id == id && s.table[key].peak == m
    ensures forall key :: key in s.table && key.id == id ==> s.table[key].peak <= m
  {
    PeaksAreKept(es, s, id);
    var key :| key in s.table && key.id == id && m <= s.table[key].peak;
    assert FinishedPeaks(Calls(es), s.threads, id, s.table[key].peak) > 0;
  }

  // ---------------------------------------------------------------- dates

  /** How many buffers a flush for a date has written: those that it listed less those that are left. */
  function WroteFor(e: Event, pc: Thread, date: int): int {
    if e.Flush? && e.date == date then |e.order| - |RestOf(pc)| else 0
  }

  function WroteAll(calls: seq<Event>, threads: seq<Thread>, date: int): int
    requires |calls| == |threads|
  {
    if calls == [] then 0
    else
      var n := |calls| - 1;
      WroteAll(calls[..n], threads[..n], date) + WroteFor(calls[n], threads[n], date)
  }

  function RowsOf(written: seq<Upsert>, date: int): nat {
    if written == [] then 0
    else RowsOf(written[..|written| - 1], date) + if written[|written| - 1].date == date then 1 else 0
  }

  lemma {:induction false} WroteChanged(calls: seq<Event>, threads: seq<Thread>, t: nat, pc: Thread, date: int)
    requires |calls| == |threads| && t < |threads|
    ensures WroteAll(calls, threads[t := pc], date) + WroteFor(calls[t], threads[t], date)
         == WroteAll(calls, threads, date) + WroteFor(calls[t], pc, date)
  {
    hide WroteFor;
    var n := |calls| - 1;
    if t == n {
      assert threads[t := pc][..n] == threads[..n];
    } else {
      WroteChanged(calls[..n], threads[..n], t, pc, date);
      assert threads[t := pc][..n] == threads[..n][t := pc];
    }
  }

  ghost predicate Dated(s: State, calls: seq<Event>, date: int) {
    |calls| == |s.threads| && RowsOf(s.written, date) == WroteAll(calls, s.threads, date)
  }

  /** What a step does to the list of a flush and to what is written. */
  lemma ListRuns(s: State, t: nat)
    requires WellFormed(s) && t < |s.threads|
    ensures var pc, s' := s.threads[t], RunThread(s, t);
            && |s'.threads| == |s.threads| && s'.threads == s.threads[t := s'.threads[t]]
            && (pc.Write? ==>
                  && |s'.written| == |s.written| + 1 && s'.written[..|s.written|] == s.written
                  && s'.written[|s.written|].date == pc.date && |RestOf(s'.threads[t])| == |RestOf(pc)| - 1)
            && (!pc.Write? ==> s'.written == s.written && |RestOf(s'.threads[t])| == |RestOf(pc)|)
  {
    assert InRange(|s.buffers|, s.threads[t]);
    hide WellFormed, BufferKey, Upserted, Swapped, Added;
  }

  lemma ThreadDates(s: State, calls: seq<Event>, t: nat, date: int)
    requires WellFormed(s) && Dated(s, calls, date) && t < |s.threads| == |calls| && !s.threads[t].Done?
    requires Serves(s.buffers, calls[t], s.threads[t])
    ensures Dated(RunThread(s, t), calls, date)
  {
    ListRuns(s, t);
    ServesWhom(s.buffers, calls[t], s.threads[t]);
    hide WellFormed, RunThread, Dated, WroteAll, Serves, RestOf;
    DatedNext(s, calls, RunThread(s, t), t, date);
  }

  lemma DatedNext(s: State, calls: seq<Event>, s': State, t: nat, date: int)
    requires Dated(s, calls, date) && t < |s.threads| == |s'.threads| && |calls| == |s.threads|
    requires s'.threads == s.threads[t := s'.threads[t]]
    requires RowsOf(s'.written, date) + WroteFor(calls[t], s.threads[t], date)
          == RowsOf(s.written, date) + WroteFor(calls[t], s'.threads[t], date)
    ensures Dated(s', calls, date)
  {
    WroteChanged(calls, s.threads, t, s'.threads[t], date);
    hide WroteAll, RowsOf, WroteFor;
  }

  lemma CallDates(s: State, calls: seq<Event>, e: Event, date: int)
    requires WellFormed(s) && Enabled(s, e) && !e.Run? && Dated(s, calls, date)
    ensures Dated(Step(s, e), calls + [e], date)
  {
    hide WellFormed, Lists;
    var s' := Step(s, e);
    assert s'.threads[..|s.threads|] == s.threads && (calls + [e])[..|calls|] == calls;
  }

  lemma {:induction false} RunDates(s: State, calls: seq<Event>, es: seq<Event>, date: int)
    requires Inv(s) && RecordsInv(s, calls) && Dated(s, calls, date) && ValidCalls(es) && Exec(s, es).Some?
    ensures Dated(Exec(s, es).value, calls + Calls(es), date)
    decreases |es|
  {
    hide Inv, RecordsInv, WellFormed, Step, ValidCall, Dated;
    if es == [] {
      assert calls + Calls(es) == calls;
    } else {
      var e := es[0];
      var calls' := if e.Run? then calls else calls + [e];
      StepKeepsInv(s, e);
      StepRecords(s, calls, e);
      OneStepDates(s, calls, e, date);
      hide Enabled;
      RunDates(Step(s, e), calls', es[1..], date);
      assert calls' + Calls(es[1..]) == calls + Calls(es);
    }
  }

  lemma OneStepDates(s: State, calls: seq<Event>, e: Event, date: int)
    requires Inv(s) && WellFormed(s) && Enabled(s, e) && RecordsInv(s, calls) && Dated(s, calls, date)
    ensures Dated(Step(s, e), if e.Run? then calls else calls + [e], date)
  {
    RecordsParts(s, calls);
    hide Inv, RecordsInv, WellFormed, Dated, RunThread, Serves, Lists, Tallied;
    if e.Run? {
      DatedLength(s, calls, date);
      ThreadDates(s, calls, e.thread, date);
    } else {
      CallDates(s, calls, e, date);
    }
  }

  lemma DatedLength(s: State, calls: seq<Event>, date: int)
    requires Dated(s, calls, date)
    ensures |calls| == |s.threads|
  {
  }

  /** In every run whose ids are all valid: what was written for a date is one upsert for each buffer that the flushes
      of that date have finished. */
  lemma WrittenUnderItsDate(es: seq<Event>, s: State, date: int)
    requires Reaches(es, s) && ValidCalls(es)
    ensures |Calls(es)| == |s.threads|
    ensures RowsOf(s.written, date) == WroteAll(Calls(es), s.threads, date)
  {
    InitInv();
    InitRecords();
    hide RecordsInv, Inv;
    RunDates(Init, [], es, date);
    assert [] + Calls(es) == Calls(es);
  }
}
