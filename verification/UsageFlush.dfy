/** A flush that runs alone: it writes every buffer that it listed, with what was in it, under its date. */
module UsageFlush {
  import opened Usage

  /** What a flush writes for a buffer. */
  function UpsertFor(buf: Buffer, date: int): Upsert { Upsert(buf.id, date, buf.counts, buf.peak, buf.reported) }

  function Upserts(buffers: seq<Buffer>, order: seq<nat>, date: int): seq<Upsert>
    requires forall i :: 0 <= i < |order| ==> order[i] < |buffers|
  {
    if order == [] then [] else [UpsertFor(buffers[order[0]], date)] + Upserts(buffers, order[1..], date)
  }

  lemma {:induction false} SameUpserts(buffers: seq<Buffer>, buffers': seq<Buffer>, order: seq<nat>, date: int)
    requires |buffers'| == |buffers| && forall i :: 0 <= i < |order| ==> order[i] < |buffers|
    requires forall i :: 0 <= i < |order| ==> UpsertFor(buffers'[order[i]], date) == UpsertFor(buffers[order[i]], date)
    ensures Upserts(buffers', order, date) == Upserts(buffers, order, date)
    decreases |order|
  {
    if order != [] {
      SameUpserts(buffers, buffers', order[1..], date);
    }
  }

  lemma ExecStep(s: State, e: Event, es: seq<Event>)
    requires WellFormed(s) && Enabled(s, e)
    ensures Exec(s, [e] + es) == Exec(Step(s, e), es)
  {
    hide WellFormed, Enabled, Step;
    assert ([e] + es)[1..] == es;
  }

  /** One step of thread `t`, and then a run. */
  lemma RunOne(s: State, t: nat, s1: State, es: seq<Event>)
    requires Inv(s) && WellFormed(s) && t < |s.threads| && !s.threads[t].Done? && s1 == RunThread(s, t)
    ensures Exec(s, [Run(t)] + es) == Exec(s1, es) && Inv(s1) && WellFormed(s1)
  {
    ExecStep(s, Run(t), es);
    StepKeepsInv(s, Run(t));
    InvIsWellFormed(s1);
  }

  lemma ExecNone(s: State)
    ensures Exec(s, []) == Some(s)
  {
  }

  lemma {:induction false} ExecJoins(s: State, es: seq<Event>, s1: State, more: seq<Event>)
    requires Exec(s, es) == Some(s1)
    ensures Exec(s, es + more) == Exec(s1, more)
    decreases |es|
  {
    hide WellFormed, Enabled, Step;
    if es == [] {
      assert es + more == more;
    } else {
      ExecJoins(Step(s, es[0]), es[1..], s1, more);
      assert (es + more)[1..] == es[1..] + more;
    }
  }

  /** The steps that swap the three counters. */
  lemma TakeCounters(s: State, t: nat, rest: seq<nat>, date: int) returns (es: seq<Event>, s': State)
    requires Inv(s) && WellFormed(s) && t < |s.threads| && s.threads[t] == Next(rest, date)
    requires rest != [] && rest[0] < |s.buffers|
    ensures Inv(s') && WellFormed(s') && Exec(s, es) == Some(s') && s'.current == s.current && s'.written == s.written
    ensures var buf := s.buffers[rest[0]];
            && s'.threads == s.threads[t := TakePeak(rest, date, Load(buf.id, buf.counts, 0, []))]
            && |s'.buffers| == |s.buffers| && s'.buffers == s.buffers[rest[0] := s'.buffers[rest[0]]]
            && s'.buffers[rest[0]].counts == ZERO && s'.buffers[rest[0]].peak == buf.peak
            && s'.buffers[rest[0]].reported == buf.reported
  {
    hide Inv, WellFormed, Exec;
    var r := [Run(t)];
    var s1 := RunThread(s, t);
    RunOne(s, t, s1, r + (r + (r + [])));
    var s2 := RunThread(s1, t);
    RunOne(s1, t, s2, r + (r + []));
    var s3 := RunThread(s2, t);
    RunOne(s2, t, s3, r + []);
    s' := RunThread(s3, t);
    RunOne(s3, t, s', []);
    es := r + (r + (r + (r + [])));
    ExecNone(s');
    Taken(s.buffers[rest[0]]);
  }

  /** The steps that swap the peak and write what was taken. */
  lemma WriteTaken(s: State, t: nat, rest: seq<nat>, date: int, load: Load) returns (es: seq<Event>, s': State)
    requires Inv(s) && WellFormed(s) && t < |s.threads| && s.threads[t] == TakePeak(rest, date, load)
    requires rest != [] && rest[0] < |s.buffers|
    ensures Inv(s') && WellFormed(s') && Exec(s, es) == Some(s') && s'.current == s.current
    ensures var buf := s.buffers[rest[0]];
            && s'.threads == s.threads[t := Next(rest[1..], date)]
            && s'.buffers == s.buffers[rest[0] := buf.(peak := 0, reported := [], place := Flushed)]
            && s'.written == s.written + [Upsert(load.id, date, load.counts, buf.peak, buf.reported)]
  {
    hide Inv, WellFormed, Exec, RunThread;
    var s1 := RunThread(s, t);
    PeakRuns(s, t);
    RunOne(s, t, s1, [Run(t)] + []);
    s' := RunThread(s1, t);
    WriteRuns(s1, t);
    RunOne(s1, t, s', []);
    ExecNone(s');
    es := [Run(t)] + ([Run(t)] + []);
  }

  /** The steps from one buffer to the next. */
  lemma OneBuffer(s: State, t: nat, rest: seq<nat>, date: int) returns (es: seq<Event>, s': State)
    requires Inv(s) && WellFormed(s) && t < |s.threads| && s.threads[t] == Next(rest, date)
    requires rest != [] && rest[0] < |s.buffers|
    ensures Inv(s') && WellFormed(s') && Exec(s, es) == Some(s')
    ensures s'.threads == s.threads[t := Next(rest[1..], date)] && s'.current == s.current
    ensures s'.written == s.written + [UpsertFor(s.buffers[rest[0]], date)] && |s'.buffers| == |s.buffers|
    ensures forall b :: 0 <= b < |s.buffers| && b != rest[0] ==> s'.buffers[b] == s.buffers[b]
    ensures s'.buffers[rest[0]].counts == ZERO && s'.buffers[rest[0]].peak == 0
    ensures s'.buffers[rest[0]].place == Flushed
  {
    hide Inv, WellFormed, Exec;
    var first, s1, last;
    first, s1 := TakeCounters(s, t, rest, date);
    last, s' := WriteTaken(s1, t, rest, date, s1.threads[t].load);
    ExecJoins(s, first, s1, last);
    es := first + last;
  }

  lemma PeakRuns(s: State, t: nat)
    requires WellFormed(s) && t < |s.threads| && s.threads[t].TakePeak?
    ensures var pc, s' := s.threads[t], RunThread(s, t);
            && pc.rest != [] && pc.rest[0] < |s.buffers|
            && var buf := s.buffers[pc.rest[0]];
               s' == s.(buffers := s.buffers[pc.rest[0] := buf.(peak := 0, reported := [])],
                        threads := s.threads[t := Write(pc.rest, pc.date,
                                                        pc.load.(peak := buf.peak, reported := buf.reported))])
  {
    assert InRange(|s.buffers|, s.threads[t]);
    hide WellFormed;
  }

  lemma WriteRuns(s: State, t: nat)
    requires WellFormed(s) && t < |s.threads| && s.threads[t].Write?
    ensures var pc, s' := s.threads[t], RunThread(s, t);
            && pc.rest != [] && pc.rest[0] < |s.buffers|
            && s'.buffers == s.buffers[pc.rest[0] := s.buffers[pc.rest[0]].(place := Flushed)]
            && s'.threads == s.threads[t := Next(pc.rest[1..], pc.date)] && s'.current == s.current
            && s'.written == s.written + [Upsert(pc.load.id, pc.date, pc.load.counts, pc.load.peak, pc.load.reported)]
  {
    assert InRange(|s.buffers|, s.threads[t]);
    hide WellFormed, Upserted;
  }

  /** Taking the three counters one by one takes all counts. */
  lemma Taken(buf: Buffer)
    ensures ZERO.Set(Requests, buf.counts.requests).Set(Messages, buf.counts.messages).Set(Errors, buf.counts.errors)
         == buf.counts
  {
  }

  lemma {:induction false} WriteAlone(s: State, t: nat, rest: seq<nat>, date: int) returns (es: seq<Event>, s': State)
    requires Inv(s) && WellFormed(s) && t < |s.threads| && s.threads[t] == Next(rest, date)
    requires Distinct(rest) && forall i :: 0 <= i < |rest| ==> rest[i] < |s.buffers|
    ensures Exec(s, es) == Some(s') && s'.threads == s.threads[t := Done] && s'.current == s.current
    ensures s'.written == s.written + Upserts(s.buffers, rest, date)
    decreases |rest|
  {
    hide Inv, WellFormed;
    if rest == [] {
      s' := RunThread(s, t);
      RunOne(s, t, s', []);
      es := [Run(t)] + [];
    } else {
      hide Exec;
      var first, s1;
      first, s1 := OneBuffer(s, t, rest, date);
      var tail := rest[1..];
      assert forall i :: 0 <= i < |tail| ==> tail[i] == rest[i + 1] && tail[i] != rest[0];
      var more;
      more, s' := WriteAlone(s1, t, tail, date);
      ExecJoins(s, first, s1, more);
      SameUpserts(s.buffers, s1.buffers, tail, date);
      es := first + more;
    }
  }

  /** From every state at rest, a flush that runs alone writes one row of its date for every buffer in the map, with all
      that the buffer held, and leaves the map empty and everything at rest. */
  lemma FlushAlone(s: State, order: seq<nat>, date: int) returns (es: seq<Event>, s': State)
    requires Inv(s) && WellFormed(s) && AtRest(s) && Lists(s.current, order)
    ensures forall i :: 0 <= i < |order| ==> order[i] < |s.buffers|
    ensures Exec(s, [Flush(order, date)] + es) == Some(s') && AtRest(s') && s'.current == map[]
    ensures s'.written == s.written + Upserts(s.buffers, order, date)
  {
    forall i | 0 <= i < |order|
      ensures order[i] < |s.buffers|
    {
      assert Holds(s.current, order[i]);
    }
    assert Distinct(order);
    hide Inv, WellFormed, Lists;
    var n, s1 := |s.threads|, Step(s, Flush(order, date));
    StepKeepsInv(s, Flush(order, date));
    InvIsWellFormed(s1);
    es, s' := WriteAlone(s1, n, order, date);
    ExecStep(s, Flush(order, date), es);
    SameUpserts(s.buffers, s1.buffers, order, date);
  }
}
