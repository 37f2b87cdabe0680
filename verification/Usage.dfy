/** Usage counters: recorders add to per-key buffers with atomic operations while flushes swap the map of buffers, swap
    each counter to zero and add it to the table.  Every atomic operation and every locked block is one step. */
module Usage {

  datatype Option<+T> = None | Some(value: T)

  datatype Id = Id(tenant: int, apiKey: int)

  datatype Counter = Requests | Messages | Errors

  datatype Counts = Counts(requests: nat, messages: nat, errors: nat) {
    function Get(k: Counter): nat { match k case Requests => requests case Messages => messages case Errors => errors }

    function Set(k: Counter, n: nat): Counts {
      match k
      case Requests => this.(requests := n)
      case Messages => this.(messages := n)
      case Errors => this.(errors := n)
    }
  }

  const ZERO := Counts(0, 0, 0)

  /** Where a buffer is: in the map, with the flush that swapped the map, or written. */
  datatype Place = InMap | With(flush: nat) | Flushed

  /** A buffer.  All but the id, the counts and the peak is history: which counters a flush has swapped, how often each
      was added to, how often after it was swapped, how much was swapped out, the stream counts reported since the
      peak was swapped, and where the buffer is. */
  datatype Buffer = Buffer(id: Id, counts: Counts, peak: int, swapped: set<Counter>, added: Counts, late: Counts,
                           taken: Counts,
                           reported: seq<int>, place: Place)

  /** What a flush has taken from one buffer so far. */
  datatype Load = Load(id: Id, counts: Counts, peak: int, reported: seq<int>)

  /** One row written to the table, or added to a row: history. */
  datatype Upsert = Upsert(id: Id, date: int, counts: Counts, peak: int, reported: seq<int>)

  datatype RowKey = RowKey(id: Id, date: int)

  datatype Row = Row(counts: Counts, peak: int)

  datatype Job = Count(counter: Counter) | Peak(streams: int)

  datatype Thread =
    | Done
    | Find(id: Id, job: Job)                                   // look for the buffer under the read lock
    | Make(id: Id, job: Job)                                   // look again under the lock, or make it
    | Add(buffer: nat, counter: Counter)                       // add one
    | LoadPeak(buffer: nat, streams: int)                      // load the peak and compare
    | SwapPeak(buffer: nat, streams: int, seen: int)           // compare and swap
    | Next(rest: seq<nat>, date: int)                          // go on to the next buffer
    | Take(rest: seq<nat>, date: int, load: Load, counter: Counter)
                                                               // swap a counter to zero
    | TakePeak(rest: seq<nat>, date: int, load: Load)          // swap the peak to zero
    | Write(rest: seq<nat>, date: int, load: Load)             // add what was taken to the table

  datatype State = State(buffers: seq<Buffer>, current: map<string, nat>, table: map<RowKey, Row>, written: seq<Upsert>,
                         threads: seq<Thread>)

  const Init := State([], map[], map[], [], [])

  datatype Event =
    | Record(id: Id, counter: Counter)
    | UpdatePeakStreams(id: Id, streams: int)
    | Flush(order: seq<nat>, date: int)                        // swaps the map; `order` lists the buffers it held
    | Run(thread: nat)

  // ---------------------------------------------------------------- keys

  /** The character that Go makes of an integer: the replacement character unless it is a Unicode scalar value. */
  function Rune(n: int): int { if 0 <= n < 0xD800 || 0xE000 <= n <= 0x10FFFF then n else 0xFFFD }

  function Letter(n: int): (c: char)
    ensures c as int == Rune(n)
  {
    Rune(n) as char
  }

  /** Go turns both numbers into one character each, with a colon between. */
  function BufferKey(id: Id): string { [Letter(id.tenant), ':', Letter(id.apiKey)] }

  predicate ValidId(id: Id) { Rune(id.tenant) == id.tenant && Rune(id.apiKey) == id.apiKey }

  /** Two ids share a buffer exactly when both their numbers become the same characters. */
  lemma SameKeyIff(a: Id, b: Id)
    ensures BufferKey(a) == BufferKey(b) <==> Rune(a.tenant) == Rune(b.tenant) && Rune(a.apiKey) == Rune(b.apiKey)
    ensures ValidId(a) && ValidId(b) && BufferKey(a) == BufferKey(b) ==> a == b
  {
    assert BufferKey(a)[0] == Letter(a.tenant) && BufferKey(a)[2] == Letter(a.apiKey);
    assert BufferKey(b)[0] == Letter(b.tenant) && BufferKey(b)[2] == Letter(b.apiKey);
  }

  /** Ids beyond the Unicode range collide. */
  lemma LargeIdsCollide()
    ensures BufferKey(Id(1_114_112, 7)) == BufferKey(Id(1_114_113, 7))
  {
  }

  // ---------------------------------------------------------------- the steps

  function Goto(s: State, t: nat, pc: Thread): State
    requires t < |s.threads|
  {
    s.(threads := s.threads[t := pc])
  }

  function Put(s: State, b: nat, buf: Buffer, t: nat, pc: Thread): State
    requires b < |s.buffers| && t < |s.threads|
  {
    s.(buffers := s.buffers[b := buf], threads := s.threads[t := pc])
  }

  function Begin(job: Job, b: nat): Thread {
    match job case Count(k) => Add(b, k) case Peak(n) => LoadPeak(b, n)
  }

  function NewBuffer(id: Id): Buffer { Buffer(id, ZERO, 0, {}, ZERO, ZERO, ZERO, [], InMap) }

  function Added(buf: Buffer, k: Counter): Buffer {
    buf.(counts := buf.counts.Set(k, buf.counts.Get(k) + 1), added := buf.added.Set(k, buf.added.Get(k) + 1),
         late := if k in buf.swapped then buf.late.Set(k, buf.late.Get(k) + 1) else buf.late)
  }

  function Swapped(buf: Buffer, k: Counter): Buffer {
    buf.(counts := buf.counts.Set(k, 0), swapped := buf.swapped + {k}, taken :=
         buf.taken.Set(k, buf.taken.Get(k) + buf.counts.Get(k)))
  }

  function AfterTake(k: Counter, rest: seq<nat>, date: int, load: Load): Thread {
    match k
    case Requests => Take(rest, date, load, Messages)
    case Messages => Take(rest, date, load, Errors)
    case Errors => TakePeak(rest, date, load)
  }

  function Plus(a: Counts, b: Counts): Counts {
    Counts(a.requests + b.requests, a.messages + b.messages, a.errors + b.errors)
  }

  function Max(a: int, b: int): int { if a > b then a else b }

  function Upserted(table: map<RowKey, Row>, key: RowKey, counts: Counts, peak: int): map<RowKey, Row> {
    table[key := if key in table then Row(Plus(table[key].counts, counts), Max(table[key].peak, peak))
          else Row(counts, peak)]
  }

  predicate InRange(n: nat, pc: Thread) {
    match pc
    case Add(b, k) => b < n
    case LoadPeak(b, streams) => b < n
    case SwapPeak(b, streams, seen) => b < n
    case Next(rest, date) => forall i :: 0 <= i < |rest| ==> rest[i] < n
    case Take(rest, date, load, k) => rest != [] && forall i :: 0 <= i < |rest| ==> rest[i] < n
    case TakePeak(rest, date, load) => rest != [] && forall i :: 0 <= i < |rest| ==> rest[i] < n
    case Write(rest, date, load) => rest != [] && forall i :: 0 <= i < |rest| ==> rest[i] < n
    case _ => true
  }

  predicate WellFormed(s: State) {
    (forall k :: k in s.current ==> s.current[k] < |s.buffers|) && forall t ::
      0 <= t < |s.threads| ==> InRange(|s.buffers|, s.threads[t])
  }

  function RunThread(s: State, t: nat): State
    requires WellFormed(s) && t < |s.threads|
  {
    assert InRange(|s.buffers|, s.threads[t]);
    match s.threads[t]
    case Done => s
    case Find(id, job) =>
      var key := BufferKey(id);
      Goto(s, t, if key in s.current then Begin(job, s.current[key]) else Make(id, job))
    case Make(id, job) =>
      var key := BufferKey(id);
      if key in s.current then Goto(s, t, Begin(job, s.current[key]))
      else Goto(s.(buffers := s.buffers + [NewBuffer(id)], current := s.current[key := |s.buffers|]), t,
                Begin(job, |s.buffers|))
    case Add(b, k) => Put(s, b, Added(s.buffers[b], k), t, Done)
    case LoadPeak(b, streams) =>
      var buf := s.buffers[b];
      if streams <= buf.peak then Put(s, b, buf.(reported := buf.reported + [streams]), t, Done)
      else Goto(s, t, SwapPeak(b, streams, buf.peak))
    case SwapPeak(b, streams, seen) =>
      var buf := s.buffers[b];
      if buf.peak == seen then Put(s, b, buf.(peak := streams, reported := buf.reported + [streams]), t, Done)
      else Goto(s, t, LoadPeak(b, streams))
    case Next(rest, date) =>
      Goto(s, t, if rest == [] then Done else Take(rest, date, Load(s.buffers[rest[0]].id, ZERO, 0, []), Requests))
    case Take(rest, date, load, k) =>
      var buf := s.buffers[rest[0]];
      Put(s, rest[0], Swapped(buf, k), t, AfterTake(k, rest, date,
                                                    load.(counts := load.counts.Set(k, buf.counts.Get(k)))))
    case TakePeak(rest, date, load) =>
      var buf := s.buffers[rest[0]];
      Put(s, rest[0], buf.(peak := 0, reported := []), t,
          Write(rest, date, load.(peak := buf.peak, reported := buf.reported)))
    case Write(rest, date, load) =>
      Put(s.(table := Upserted(s.table, RowKey(load.id, date), load.counts, load.peak),
             written := s.written + [Upsert(load.id, date, load.counts, load.peak, load.reported)]),
          rest[0], s.buffers[rest[0]].(place := Flushed), t, Next(rest[1..], date))
  }

  predicate Distinct(a: seq<nat>) { forall i, j :: 0 <= i < j < |a| ==> a[i] != a[j] }

  predicate Lists(current: map<string, nat>, order: seq<nat>) {
    Distinct(order) && (forall k :: k in current ==> current[k] in order) && forall i ::
      0 <= i < |order| ==> Holds(current, order[i])
  }

  predicate Holds(current: map<string, nat>, b: nat) { exists k :: k in current && current[k] == b }

  predicate Enabled(s: State, e: Event) {
    match e
    case Flush(order, date) => Lists(s.current, order)
    case Run(t) => t < |s.threads| && !s.threads[t].Done?
    case _ => true
  }

  function Detached(buffers: seq<Buffer>, order: seq<nat>, t: nat): seq<Buffer> {
    seq(|buffers|, b requires 0 <= b < |buffers| => if b in order then buffers[b].(place := With(t)) else buffers[b])
  }

  function Step(s: State, e: Event): State
    requires WellFormed(s) && Enabled(s, e)
  {
    match e
    case Record(id, k) => s.(threads := s.threads + [Find(id, Count(k))])
    case UpdatePeakStreams(id, n) => s.(threads := s.threads + [Find(id, Peak(n))])
    case Flush(order, date) => s.(buffers := Detached(s.buffers, order, |s.threads|), current := map[], threads :=
                                  s.threads + [Next(order, date)])
    case Run(t) => RunThread(s, t)
  }

  function Exec(s: State, es: seq<Event>): Option<State>
    decreases |es|
  {
    if es == [] then Some(s)
    else if WellFormed(s) && Enabled(s, es[0]) then Exec(Step(s, es[0]), es[1..])
    else None
  }

  // ---------------------------------------------------------------- sums

  datatype Part = Made | Residue | Late | Out

  function InBuffer(buf: Buffer, id: Id, k: Counter, part: Part): nat {
    if buf.id != id then 0
    else
      match part
      case Made => buf.added.Get(k)
      case Residue => buf.counts.Get(k)
      case Late => buf.late.Get(k)
      case Out => buf.taken.Get(k)
  }

  /** The additions of an id, what is left of them in all buffers ever made, what of them came late, what was taken. */
  function InBuffers(buffers: seq<Buffer>, id: Id, k: Counter, part: Part): nat {
    if buffers == [] then 0
    else InBuffers(buffers[..|buffers| - 1], id, k, part) + InBuffer(buffers[|buffers| - 1], id, k, part)
  }

  predicate Carries(pc: Thread) { pc.Take? || pc.TakePeak? || pc.Write? }

  /** What a flush has taken of an id and not yet written. */
  function InThread(pc: Thread, id: Id, k: Counter): nat {
    if Carries(pc) && pc.load.id == id then pc.load.counts.Get(k) else 0
  }

  function InHand(threads: seq<Thread>, id: Id, k: Counter): nat {
    if threads == [] then 0 else InHand(threads[..|threads| - 1], id, k) + InThread(threads[|threads| - 1], id, k)
  }

  function Written(written: seq<Upsert>, id: Id, k: Counter): nat {
    if written == [] then 0
    else
      var u := written[|written| - 1];
      Written(written[..|written| - 1], id, k) + if u.id == id then u.counts.Get(k) else 0
  }

  lemma {:induction false} BufferChanged(buffers: seq<Buffer>, b: nat, buf: Buffer, id: Id, k: Counter, part: Part)
    requires b < |buffers|
    ensures InBuffers(buffers[b := buf], id, k, part) + InBuffer(buffers[b], id, k, part) ==
              InBuffers(buffers, id, k, part) + InBuffer(buf, id, k, part)
  {
    var n := |buffers| - 1;
    if b == n {
      assert buffers[b := buf][..n] == buffers[..n];
    } else {
      BufferChanged(buffers[..n], b, buf, id, k, part);
      assert buffers[b := buf][..n] == buffers[..n][b := buf];
    }
  }

  lemma {:induction false} ThreadChanged(threads: seq<Thread>, t: nat, pc: Thread, id: Id, k: Counter)
    requires t < |threads|
    ensures InHand(threads[t := pc], id, k) + InThread(threads[t], id, k) ==
              InHand(threads, id, k) + InThread(pc, id, k)
  {
    var n := |threads| - 1;
    if t == n {
      assert threads[t := pc][..n] == threads[..n];
    } else {
      ThreadChanged(threads[..n], t, pc, id, k);
      assert threads[t := pc][..n] == threads[..n][t := pc];
    }
  }

  lemma BufferMade(buffers: seq<Buffer>, owner: Id, id: Id, k: Counter, part: Part)
    ensures InBuffers(buffers + [NewBuffer(owner)], id, k, part) == InBuffers(buffers, id, k, part)
  {
    assert (buffers + [NewBuffer(owner)])[..|buffers|] == buffers;
  }

  lemma ThreadBegun(threads: seq<Thread>, pc: Thread, id: Id, k: Counter)
    requires !Carries(pc)
    ensures InHand(threads + [pc], id, k) == InHand(threads, id, k)
  {
    assert (threads + [pc])[..|threads|] == threads;
  }

  lemma UpsertWritten(written: seq<Upsert>, u: Upsert, id: Id, k: Counter)
    ensures Written(written + [u], id, k) == Written(written, id, k) + if u.id == id then u.counts.Get(k) else 0
  {
    assert (written + [u])[..|written|] == written;
  }

  lemma {:induction false} BuffersAlike(buffers: seq<Buffer>, buffers': seq<Buffer>, id: Id, k: Counter, part: Part)
    requires |buffers'| == |buffers| && forall b ::
               0 <= b < |buffers| ==> InBuffer(buffers'[b], id, k, part) == InBuffer(buffers[b], id, k, part)
    ensures InBuffers(buffers', id, k, part) == InBuffers(buffers, id, k, part)
  {
    if buffers != [] {
      BuffersAlike(buffers[..|buffers| - 1], buffers'[..|buffers| - 1], id, k, part);
    }
  }

  /** The highest stream count reported, or 0. */
  function Highest(reported: seq<int>): int {
    if reported == [] then 0 else Max(Highest(reported[..|reported| - 1]), reported[|reported| - 1])
  }

  lemma HighestNext(reported: seq<int>, n: int)
    ensures Highest(reported + [n]) == Max(Highest(reported), n)
  {
    assert (reported + [n])[..|reported|] == reported;
  }

  lemma {:induction false} HighestIsHighest(reported: seq<int>)
    ensures Highest(reported) >= 0 && forall i :: 0 <= i < |reported| ==> reported[i] <= Highest(reported)
    ensures Highest(reported) == 0 || Highest(reported) in reported
  {
    if reported != [] {
      HighestIsHighest(reported[..|reported| - 1]);
    }
  }

  // ---------------------------------------------------------------- the invariant

  const ALL := {Requests, Messages, Errors}

  function Before(k: Counter): set<Counter> {
    match k case Requests => {} case Messages => {Requests} case Errors => {Requests, Messages}
  }

  predicate CounterOk(buf: Buffer, k: Counter) {
    && buf.added.Get(k) == buf.taken.Get(k) + buf.counts.Get(k)
    && (if k in buf.swapped then buf.late.Get(k) == buf.counts.Get(k)
        else buf.late.Get(k) == 0 && buf.taken.Get(k) == 0)
  }

  predicate BufferOk(buf: Buffer) {
    CounterOk(buf, Requests) && CounterOk(buf, Messages) && CounterOk(buf, Errors) && buf.peak == Highest(buf.reported)
  }

  function RestOf(pc: Thread): seq<nat> { if pc.Next? || Carries(pc) then pc.rest else [] }

  predicate StageOk(buf: Buffer, pc: Thread) {
    match pc
    case Take(rest, date, load, k) => load.id == buf.id && buf.swapped == Before(k) && forall j ::
      j !in Before(k) ==> load.counts.Get(j) == 0
    case TakePeak(rest, date, load) => load.id == buf.id && buf.swapped == ALL
    case Write(rest, date, load) => load.id == buf.id && buf.swapped == ALL && load.peak == Highest(load.reported)
    case _ => true
  }

  predicate ThreadOk(buffers: seq<Buffer>, t: nat, pc: Thread) {
    && InRange(|buffers|, pc) && Distinct(RestOf(pc))
    && (pc.SwapPeak? ==> pc.streams > pc.seen >= 0)
    && (forall i :: 0 <= i < |RestOf(pc)| ==> RestOf(pc)[i] < |buffers| && buffers[RestOf(pc)[i]].place == With(t))
    && (forall i :: (if Carries(pc) then 1 else 0) <= i < |RestOf(pc)| ==> buffers[RestOf(pc)[i]].swapped == {})
    && (Carries(pc) ==> StageOk(buffers[RestOf(pc)[0]], pc))
  }

  predicate PlaceOk(s: State, b: nat, buf: Buffer) {
    match buf.place
    case InMap => BufferKey(buf.id) in s.current && s.current[BufferKey(buf.id)] == b && buf.swapped == {}
    case With(t) => t < |s.threads| && b in RestOf(s.threads[t])
    case Flushed => buf.swapped == ALL
  }

  predicate CurrentOk(buffers: seq<Buffer>, current: map<string, nat>) {
    forall key :: key in current ==>
      current[key] < |buffers| && buffers[current[key]].place == InMap && BufferKey(buffers[current[key]].id) == key
  }

  predicate Balanced(s: State, id: Id, k: Counter) {
    InBuffers(s.buffers, id, k, Out) == InHand(s.threads, id, k) + Written(s.written, id, k)
  }

  // ---------------------------------------------------------------- the table

  function WrittenTo(written: seq<Upsert>, key: RowKey, k: Counter): nat {
    if written == [] then 0
    else
      var u := written[|written| - 1];
      WrittenTo(written[..|written| - 1], key, k) + if RowKey(u.id, u.date) == key then u.counts.Get(k) else 0
  }

  function PeakOf(written: seq<Upsert>, key: RowKey): int {
    if written == [] then 0
    else
      var u := written[|written| - 1];
      var p := PeakOf(written[..|written| - 1], key);
      if RowKey(u.id, u.date) == key then Max(p, u.peak) else p
  }

  lemma WrittenToNext(written: seq<Upsert>, u: Upsert, key: RowKey, k: Counter)
    ensures WrittenTo(written + [u], key, k) == WrittenTo(written, key, k) + if RowKey(u.id, u.date) == key then
              u.counts.Get(k) else 0
    ensures PeakOf(written + [u], key) == if RowKey(u.id, u.date) == key then Max(PeakOf(written, key), u.peak)
              else PeakOf(written, key)
  {
    assert (written + [u])[..|written|] == written;
  }

  /** A row holds the sum of what was written for its id and date, and the highest peak. */
  predicate RowOk(table: map<RowKey, Row>, written: seq<Upsert>, key: RowKey, k: Counter) {
    && (if key in table then table[key].counts.Get(k) else 0) == WrittenTo(written, key, k)
    && (if key in table then table[key].peak else 0) == PeakOf(written, key) && PeakOf(written, key) >= 0
  }

  predicate UpsertsOk(written: seq<Upsert>) {
    forall i :: 0 <= i < |written| ==> written[i].peak == Highest(written[i].reported)
  }

  ghost predicate Inv(s: State) {
    && (forall t :: 0 <= t < |s.threads| ==> ThreadOk(s.buffers, t, s.threads[t]))
    && (forall b :: 0 <= b < |s.buffers| ==> BufferOk(s.buffers[b]) && PlaceOk(s, b, s.buffers[b]))
    && CurrentOk(s.buffers, s.current)
    && (forall id, k :: Balanced(s, id, k))
    && (forall key, k :: RowOk(s.table, s.written, key, k))
    && UpsertsOk(s.written)
  }

  lemma InvParts(s: State)
    requires forall t :: 0 <= t < |s.threads| ==> ThreadOk(s.buffers, t, s.threads[t])
    requires forall b :: 0 <= b < |s.buffers| ==> BufferOk(s.buffers[b]) && PlaceOk(s, b, s.buffers[b])
    requires CurrentOk(s.buffers, s.current)
    requires forall id, k :: Balanced(s, id, k)
    requires forall key, k :: RowOk(s.table, s.written, key, k)
    requires UpsertsOk(s.written)
    ensures Inv(s)
  {
    hide ThreadOk, BufferOk, PlaceOk, CurrentOk, Balanced, RowOk, UpsertsOk;
  }

  lemma InvIsWellFormed(s: State)
    requires Inv(s)
    ensures WellFormed(s)
  {
    forall t | 0 <= t < |s.threads|
      ensures InRange(|s.buffers|, s.threads[t])
    {
      assert ThreadOk(s.buffers, t, s.threads[t]);
    }
  }

  lemma InitInv()
    ensures Inv(Init)
  {
  }

  // ---------------------------------------------------------------- every step keeps it

  /** What one buffer may change without disturbing the threads: not its id, nor its place or its swapped counters
      unless the acting thread has it. */
  predicate SameFor(a: Buffer, b: Buffer, t: nat) {
    b.id == a.id && (b.place != a.place || b.swapped != a.swapped ==> a.place == With(t))
  }

  lemma OtherThreadOk(buffers: seq<Buffer>, buffers': seq<Buffer>, t: nat, u: nat, pc: Thread)
    requires ThreadOk(buffers, u, pc) && u != t && |buffers| <= |buffers'|
    requires forall b :: 0 <= b < |buffers| ==> SameFor(buffers[b], buffers'[b], t)
    ensures ThreadOk(buffers', u, pc)
  {
    forall i | 0 <= i < |RestOf(pc)|
      ensures buffers'[RestOf(pc)[i]].place == With(u)
      ensures buffers'[RestOf(pc)[i]].swapped == buffers[RestOf(pc)[i]].swapped
      ensures buffers'[RestOf(pc)[i]].id == buffers[RestOf(pc)[i]].id
    {
      assert SameFor(buffers[RestOf(pc)[i]], buffers'[RestOf(pc)[i]], t);
    }
    hide Highest, Distinct;
  }

  /** Thread `t` moves to `pc` and replaces buffer `b`. */
  lemma PutKeepsInv(s: State, s': State, b: nat, t: nat, pc: Thread)
    requires Inv(s) && b < |s.buffers| && t < |s.threads| && b < |s'.buffers|
    requires s'.buffers == s.buffers[b := s'.buffers[b]] && s'.threads == s.threads[t := pc] && s'.current == s.current
    requires SameFor(s.buffers[b], s'.buffers[b], t) && ThreadOk(s'.buffers, t, pc) && BufferOk(s'.buffers[b])
    requires PlaceOk(s', b, s'.buffers[b])
    requires (s'.buffers[b].place != s.buffers[b].place ==> s'.buffers[b].place == Flushed)
    requires forall q :: q in RestOf(s.threads[t]) && q != b ==> q in RestOf(pc)
    requires forall id, k :: Balanced(s', id, k)
    requires forall key, k :: RowOk(s'.table, s'.written, key, k)
    requires UpsertsOk(s'.written)
    ensures Inv(s')
  {
    hide BufferOk, ThreadOk, Balanced, RowOk, UpsertsOk, BufferKey, PlaceOk, CurrentOk, SameFor;
    forall u | 0 <= u < |s'.threads|
      ensures ThreadOk(s'.buffers, u, s'.threads[u])
    {
      if u != t {
        PutOtherThread(s, s', b, t, u);
      }
    }
    forall q | 0 <= q < |s'.buffers|
      ensures BufferOk(s'.buffers[q]) && PlaceOk(s', q, s'.buffers[q])
    {
      if q != b {
        assert PlaceOk(s, q, s.buffers[q]);
        OtherPlaceOk(s, s', b, t, pc, q);
      }
    }
    CurrentStays(s, s', b, t);
    InvParts(s');
  }

  lemma PutOtherThread(s: State, s': State, b: nat, t: nat, u: nat)
    requires u < |s.threads| && u != t && ThreadOk(s.buffers, u, s.threads[u])
    requires b < |s.buffers| && b < |s'.buffers| && s'.buffers == s.buffers[b := s'.buffers[b]]
    requires SameFor(s.buffers[b], s'.buffers[b], t)
    ensures ThreadOk(s'.buffers, u, s.threads[u])
  {
    hide ThreadOk;
    OtherThreadOk(s.buffers, s'.buffers, t, u, s.threads[u]);
  }

  lemma OtherPlaceOk(s: State, s': State, b: nat, t: nat, pc: Thread, q: nat)
    requires q < |s.buffers| && q < |s'.buffers| && q != b && s'.buffers[q] == s.buffers[q]
    requires PlaceOk(s, q, s.buffers[q])
    requires t < |s.threads| && s'.threads == s.threads[t := pc] && s'.current == s.current
    requires forall r :: r in RestOf(s.threads[t]) && r != b ==> r in RestOf(pc)
    ensures PlaceOk(s', q, s'.buffers[q])
  {
    hide BufferKey;
  }

  lemma CurrentStays(s: State, s': State, b: nat, t: nat)
    requires b < |s.buffers| && b < |s'.buffers| && CurrentOk(s.buffers, s.current)
    requires s'.buffers == s.buffers[b := s'.buffers[b]] && s'.current == s.current
    requires SameFor(s.buffers[b], s'.buffers[b], t)
    ensures CurrentOk(s'.buffers, s'.current)
  {
    hide BufferKey;
  }

  lemma BalanceAfter(s: State, b: nat, buf: Buffer, t: nat, pc: Thread, u: Option<Upsert>, id: Id, k: Counter)
    requires b < |s.buffers| && t < |s.threads| && Balanced(s, id, k)
    requires InBuffer(buf, id, k, Out) + InThread(s.threads[t], id, k) ==
             InBuffer(s.buffers[b], id, k, Out) + InThread(pc, id, k) + if u.Some? &&
               u.value.id == id then u.value.counts.Get(k) else 0
    ensures Balanced(s.(buffers := s.buffers[b := buf], threads := s.threads[t := pc],
                        written := if u.Some? then s.written + [u.value] else s.written), id, k)
  {
    BufferChanged(s.buffers, b, buf, id, k, Out);
    ThreadChanged(s.threads, t, pc, id, k);
    if u.Some? {
      UpsertWritten(s.written, u.value, id, k);
    }
  }

  /** Thread `t` moves on without touching a buffer. */
  lemma GotoKeepsInv(s: State, t: nat, pc: Thread)
    requires Inv(s) && t < |s.threads| && ThreadOk(s.buffers, t, pc)
    requires forall q :: q in RestOf(s.threads[t]) ==> q in RestOf(pc)
    requires forall id, k :: InThread(pc, id, k) == InThread(s.threads[t], id, k)
    ensures Inv(Goto(s, t, pc))
  {
    hide *;
    var s' := Goto(s, t, pc);
    assert s' == s.(threads := s.threads[t := pc]) by { GotoIs(s, t, pc); }
    forall u | 0 <= u < |s'.threads|
      ensures ThreadOk(s'.buffers, u, s'.threads[u])
    {
      if u != t {
        OfThread(s, u);
      }
    }
    forall b | 0 <= b < |s'.buffers|
      ensures BufferOk(s'.buffers[b]) && PlaceOk(s', b, s'.buffers[b])
    {
      OfBuffer(s, b);
      OtherPlaceOk(s, s', |s.buffers|, t, pc, b);
    }
    forall id, k
      ensures Balanced(s', id, k)
    {
      OfBalance(s, id, k);
      GotoBalanced(s, t, pc, id, k);
    }
    OfTable(s);
    InvParts(s');
  }

  lemma GotoIs(s: State, t: nat, pc: Thread)
    requires t < |s.threads|
    ensures Goto(s, t, pc) == s.(threads := s.threads[t := pc])
  {
  }

  lemma GotoBalanced(s: State, t: nat, pc: Thread, id: Id, k: Counter)
    requires t < |s.threads| && Balanced(s, id, k) && InThread(pc, id, k) == InThread(s.threads[t], id, k)
    ensures Balanced(Goto(s, t, pc), id, k)
  {
    ThreadChanged(s.threads, t, pc, id, k);
  }

  lemma BeginKeepsInv(s: State, t: nat, job: Job, b: nat)
    requires Inv(s) && t < |s.threads| && (s.threads[t].Find? || s.threads[t].Make?) && b < |s.buffers|
    ensures Inv(Goto(s, t, Begin(job, b)))
  {
    hide Inv;
    GotoKeepsInv(s, t, Begin(job, b));
  }

  lemma LookKeepsInv(s: State, t: nat)
    requires Inv(s) && WellFormed(s) && t < |s.threads| && s.threads[t].Find?
    ensures Inv(RunThread(s, t))
  {
    hide Inv;
    var id, job := s.threads[t].id, s.threads[t].job;
    if BufferKey(id) in s.current {
      BeginKeepsInv(s, t, job, s.current[BufferKey(id)]);
    } else {
      GotoKeepsInv(s, t, Make(id, job));
    }
  }

  lemma MakeKeepsInv(s: State, t: nat)
    requires Inv(s) && WellFormed(s) && t < |s.threads| && s.threads[t].Make?
    ensures Inv(RunThread(s, t))
  {
    var id, job := s.threads[t].id, s.threads[t].job;
    if BufferKey(id) in s.current {
      hide Inv;
      BeginKeepsInv(s, t, job, s.current[BufferKey(id)]);
    } else {
      NewKeepsInv(s, id);
      hide Inv;
      var s1 := s.(buffers := s.buffers + [NewBuffer(id)], current := s.current[BufferKey(id) := |s.buffers|]);
      BeginKeepsInv(s1, t, job, |s.buffers|);
    }
  }

  lemma NewKeepsInv(s: State, id: Id)
    requires Inv(s) && BufferKey(id) !in s.current
    ensures Inv(s.(buffers := s.buffers + [NewBuffer(id)], current := s.current[BufferKey(id) := |s.buffers|]))
  {
    var s' := s.(buffers := s.buffers + [NewBuffer(id)], current := s.current[BufferKey(id) := |s.buffers|]);
    hide Inv, ThreadOk, Balanced, RowOk, UpsertsOk, BufferKey, BufferOk;
    forall t | 0 <= t < |s'.threads|
      ensures ThreadOk(s'.buffers, t, s'.threads[t])
    {
      OfThread(s, t);
      OtherThreadOk(s.buffers, s'.buffers, |s.threads|, t, s.threads[t]);
    }
    forall jd, k
      ensures Balanced(s', jd, k)
    {
      OfBalance(s, jd, k);
      NewBalanced(s, s', id, jd, k);
    }
    forall b | 0 <= b < |s'.buffers|
      ensures BufferOk(s'.buffers[b]) && PlaceOk(s', b, s'.buffers[b])
    {
      if b < |s.buffers| {
        OfBuffer(s, b);
      } else {
        NewBufferOk(id);
      }
    }
    OfTable(s);
    hide PlaceOk;
    InvParts(s');
  }

  lemma NewBufferOk(id: Id)
    ensures BufferOk(NewBuffer(id))
  {
  }

  lemma NewBalanced(s: State, s': State, owner: Id, id: Id, k: Counter)
    requires Balanced(s, id, k) && s'.buffers == s.buffers + [NewBuffer(owner)] && s'.threads == s.threads
    requires s'.written == s.written
    ensures Balanced(s', id, k)
  {
    BufferMade(s.buffers, owner, id, k, Out);
  }

  lemma OfBalance(s: State, id: Id, k: Counter)
    requires Inv(s)
    ensures Balanced(s, id, k)
  {
    hide PlaceOk, CurrentOk, ThreadOk, BufferOk, RowOk;
  }

  lemma OfThread(s: State, t: nat)
    requires Inv(s) && t < |s.threads|
    ensures ThreadOk(s.buffers, t, s.threads[t])
  {
  }

  lemma OfBuffer(s: State, b: nat)
    requires Inv(s) && b < |s.buffers|
    ensures BufferOk(s.buffers[b]) && PlaceOk(s, b, s.buffers[b])
  {
  }

  /** A recorder's step on one buffer: nothing moves to or from a flush. */
  lemma TouchKeepsInv(s: State, b: nat, buf: Buffer, t: nat, pc: Thread)
    requires Inv(s) && b < |s.buffers| && t < |s.threads| && RestOf(s.threads[t]) == [] && RestOf(pc) == []
    requires buf == s.buffers[b].(counts := buf.counts, peak := buf.peak, added := buf.added, late :=
                                  buf.late, reported := buf.reported)
    requires BufferOk(buf) && ThreadOk(s.buffers[b := buf], t, pc) && !Carries(pc)
    requires ThreadOk(s.buffers, t, s.threads[t])
    ensures Inv(Put(s, b, buf, t, pc))
  {
    TouchBalanced(s, b, buf, t, pc);
    OfTable(s);
    OfBuffer(s, b);
    OfThread(s, t);
    TouchPlace(s, b, buf, t, pc);
    hide Inv, BufferOk, ThreadOk, Balanced, RowOk, UpsertsOk, BufferKey, PlaceOk;
    PutKeepsInv(s, Put(s, b, buf, t, pc), b, t, pc);
  }

  lemma TouchPlace(s: State, b: nat, buf: Buffer, t: nat, pc: Thread)
    requires b < |s.buffers| && t < |s.threads| && RestOf(s.threads[t]) == [] && PlaceOk(s, b, s.buffers[b])
    requires buf.id == s.buffers[b].id && buf.place == s.buffers[b].place && buf.swapped == s.buffers[b].swapped
    ensures PlaceOk(Put(s, b, buf, t, pc), b, buf)
  {
    hide BufferKey;
  }

  lemma TouchBalanced(s: State, b: nat, buf: Buffer, t: nat, pc: Thread)
    requires Inv(s) && b < |s.buffers| && t < |s.threads| && RestOf(s.threads[t]) == [] && RestOf(pc) == []
    requires buf.id == s.buffers[b].id && buf.taken == s.buffers[b].taken
    requires ThreadOk(s.buffers, t, s.threads[t]) && !Carries(pc)
    ensures forall id, k :: Balanced(Put(s, b, buf, t, pc), id, k)
  {
    hide Inv, Balanced;
    assert !Carries(s.threads[t]);
    hide ThreadOk;
    forall id, k
      ensures Balanced(Put(s, b, buf, t, pc), id, k)
    {
      OfBalance(s, id, k);
      BalanceAfter(s, b, buf, t, pc, None, id, k);
    }
  }

  lemma AddKeepsInv(s: State, t: nat)
    requires Inv(s) && WellFormed(s) && t < |s.threads| && s.threads[t].Add?
    ensures Inv(RunThread(s, t))
  {
    var b, k := s.threads[t].buffer, s.threads[t].counter;
    OfThread(s, t);
    OfBuffer(s, b);
    AddedOk(s.buffers[b], k);
    hide Inv, Added, BufferOk, PlaceOk;
    TouchKeepsInv(s, b, Added(s.buffers[b], k), t, Done);
  }

  lemma AddedOk(buf: Buffer, k: Counter)
    requires BufferOk(buf)
    ensures var buf' := Added(buf, k);
            BufferOk(buf') && buf' == buf.(counts := buf'.counts, added := buf'.added, late := buf'.late)
  {
    hide Highest;
  }

  /** Reporting a stream count that the peak covers, or that becomes the peak. */
  lemma ReportedOk(buf: Buffer, n: int)
    requires BufferOk(buf)
    ensures buf.peak >= 0
    ensures n <= buf.peak ==> BufferOk(buf.(reported := buf.reported + [n]))
    ensures n > buf.peak ==> BufferOk(buf.(peak := n, reported := buf.reported + [n]))
  {
    HighestNext(buf.reported, n);
    HighestIsHighest(buf.reported);
    hide Highest;
  }

  lemma LoadPeakKeepsInv(s: State, t: nat)
    requires Inv(s) && WellFormed(s) && t < |s.threads| && s.threads[t].LoadPeak?
    ensures Inv(RunThread(s, t))
  {
    hide Inv, BufferOk, PlaceOk, BufferKey;
    var b, n := s.threads[t].buffer, s.threads[t].streams;
    OfThread(s, t);
    OfBuffer(s, b);
    ReportedOk(s.buffers[b], n);
    if n <= s.buffers[b].peak {
      TouchKeepsInv(s, b, s.buffers[b].(reported := s.buffers[b].reported + [n]), t, Done);
    } else {
      GotoKeepsInv(s, t, SwapPeak(b, n, s.buffers[b].peak));
    }
  }

  lemma SwapPeakKeepsInv(s: State, t: nat)
    requires Inv(s) && WellFormed(s) && t < |s.threads| && s.threads[t].SwapPeak?
    ensures Inv(RunThread(s, t))
  {
    hide Inv, BufferOk, PlaceOk, BufferKey;
    var b, n := s.threads[t].buffer, s.threads[t].streams;
    OfThread(s, t);
    OfBuffer(s, b);
    ReportedOk(s.buffers[b], n);
    if s.buffers[b].peak == s.threads[t].seen {
      TouchKeepsInv(s, b, s.buffers[b].(peak := n, reported := s.buffers[b].reported + [n]), t, Done);
    } else {
      GotoKeepsInv(s, t, LoadPeak(b, n));
    }
  }

  // ---------------------------------------------------------------- flushing

  lemma NextKeepsInv(s: State, t: nat)
    requires Inv(s) && WellFormed(s) && t < |s.threads| && s.threads[t].Next?
    ensures Inv(RunThread(s, t))
  {
    OfThread(s, t);
    hide Inv;
    GotoKeepsInv(s, t, RunThread(s, t).threads[t]);
  }

  /** A flush's step on its first buffer. */
  lemma FlushStepKeepsInv(s: State, s': State, t: nat, u: Option<Upsert>)
    requires Inv(s) && t < |s.threads| && Carries(s.threads[t]) && RestOf(s.threads[t]) != []
    requires RestOf(s.threads[t])[0] < |s.buffers|
    requires var b := RestOf(s.threads[t])[0];
             && b < |s'.buffers| && t < |s'.threads| && s'.buffers == s.buffers[b := s'.buffers[b]] &&
               s'.threads == s.threads[t := s'.threads[t]] && s'.current == s.current
             && s.buffers[b].place == With(t) && s'.buffers[b].id == s.buffers[b].id && BufferOk(s'.buffers[b]) &&
               ThreadOk(s'.buffers, t, s'.threads[t])
             && PlaceOk(s', b, s'.buffers[b]) && (s'.buffers[b].place == With(t) || s'.buffers[b].place == Flushed)
             && (forall q :: q in RestOf(s.threads[t]) && q != b ==> q in RestOf(s'.threads[t]))
             && forall id, k :: InBuffer(s'.buffers[b], id, k, Out) + InThread(s.threads[t], id, k) ==
                  InBuffer(s.buffers[b], id, k, Out) + InThread(s'.threads[t], id, k) + if u.Some? &&
                    u.value.id == id then u.value.counts.Get(k) else 0
    requires s'.written == if u.Some? then s.written + [u.value] else s.written
    requires forall key, k :: RowOk(s'.table, s'.written, key, k)
    requires UpsertsOk(s'.written)
    ensures Inv(s')
  {
    var b := RestOf(s.threads[t])[0];
    hide Inv, BufferOk, ThreadOk, Balanced, RowOk, UpsertsOk, BufferKey, PlaceOk;
    forall id, k
      ensures Balanced(s', id, k)
    {
      OfBalance(s, id, k);
      BalanceAfter(s, b, s'.buffers[b], t, s'.threads[t], u, id, k);
    }
    PutKeepsInv(s, s', b, t, s'.threads[t]);
  }

  lemma OfTable(s: State)
    requires Inv(s)
    ensures UpsertsOk(s.written) && CurrentOk(s.buffers, s.current) && forall key, k ::
              RowOk(s.table, s.written, key, k)
  {
  }

  lemma TakeKeepsInv(s: State, t: nat)
    requires Inv(s) && WellFormed(s) && t < |s.threads| && s.threads[t].Take?
    ensures Inv(RunThread(s, t))
  {
    var pc, b, s' := s.threads[t], s.threads[t].rest[0], RunThread(s, t);
    OfThread(s, t);
    OfBuffer(s, b);
    OfTable(s);
    hide Inv, RowOk, UpsertsOk, Highest, BufferKey;
    assert pc.counter !in s.buffers[b].swapped;
    assert BufferOk(s'.buffers[b]);
    assert forall q :: q in RestOf(pc) ==> q in RestOf(s'.threads[t]);
    TakeStays(s.buffers, s'.buffers, t, pc, s'.threads[t]);
    hide ThreadOk, BufferOk;
    FlushStepKeepsInv(s, s', t, None);
  }

  lemma TakeStays(buffers: seq<Buffer>, buffers': seq<Buffer>, t: nat, pc: Thread, pc': Thread)
    requires ThreadOk(buffers, t, pc) && pc.Take? && pc.rest[0] < |buffers| == |buffers'|
    requires buffers' == buffers[pc.rest[0] := Swapped(buffers[pc.rest[0]], pc.counter)]
    requires pc' == AfterTake(pc.counter, pc.rest, pc.date,
                              pc.load.(counts :=
                                       pc.load.counts.Set(pc.counter, buffers[pc.rest[0]].counts.Get(pc.counter))))
    ensures ThreadOk(buffers', t, pc')
  {
  }

  lemma TakePeakKeepsInv(s: State, t: nat)
    requires Inv(s) && WellFormed(s) && t < |s.threads| && s.threads[t].TakePeak?
    ensures Inv(RunThread(s, t))
  {
    var pc, b, s' := s.threads[t], s.threads[t].rest[0], RunThread(s, t);
    hide Inv, RowOk, UpsertsOk, BufferKey;
    OfThread(s, t);
    OfBuffer(s, b);
    OfTable(s);
    PeakTaken(s.buffers[b]);
    TakePeakStays(s.buffers, s'.buffers, t, pc, s'.threads[t]);
    assert s.buffers[b].place == With(t);
    hide ThreadOk, BufferOk, Highest;
    FlushStepKeepsInv(s, s', t, None);
  }

  lemma PeakTaken(buf: Buffer)
    requires BufferOk(buf)
    ensures BufferOk(buf.(peak := 0, reported := []))
  {
  }

  lemma TakePeakStays(buffers: seq<Buffer>, buffers': seq<Buffer>, t: nat, pc: Thread, pc': Thread)
    requires ThreadOk(buffers, t, pc) && pc.TakePeak? && pc.rest[0] < |buffers| == |buffers'|
    requires BufferOk(buffers[pc.rest[0]])
    requires buffers' == buffers[pc.rest[0] := buffers[pc.rest[0]].(peak := 0, reported := [])]
    requires pc' == Write(pc.rest, pc.date, pc.load.(peak := buffers[pc.rest[0]].peak, reported :=
                                                     buffers[pc.rest[0]].reported))
    ensures ThreadOk(buffers', t, pc')
  {
    hide Highest;
  }

  lemma RowsAfter(s: State, u: Upsert, key: RowKey, k: Counter)
    requires RowOk(s.table, s.written, key, k) && u.peak >= 0
    ensures RowOk(Upserted(s.table, RowKey(u.id, u.date), u.counts, u.peak), s.written + [u], key, k)
  {
    WrittenToNext(s.written, u, key, k);
  }

  lemma WriteTableOk(s: State, u: Upsert)
    requires UpsertsOk(s.written) && (forall key, k :: RowOk(s.table, s.written, key, k))
    requires u.peak == Highest(u.reported)
    ensures UpsertsOk(s.written + [u])
    ensures forall key, k :: RowOk(Upserted(s.table, RowKey(u.id, u.date), u.counts, u.peak), s.written + [u], key, k)
  {
    HighestIsHighest(u.reported);
    hide Highest, Upserted;
    forall key, k
      ensures RowOk(Upserted(s.table, RowKey(u.id, u.date), u.counts, u.peak), s.written + [u], key, k)
    {
      RowsAfter(s, u, key, k);
    }
  }

  lemma WriteKeepsInv(s: State, t: nat)
    requires Inv(s) && WellFormed(s) && t < |s.threads| && s.threads[t].Write?
    ensures Inv(RunThread(s, t))
  {
    var pc, b, s' := s.threads[t], s.threads[t].rest[0], RunThread(s, t);
    OfThread(s, t);
    OfBuffer(s, b);
    OfTable(s);
    var u := Upsert(pc.load.id, pc.date, pc.load.counts, pc.load.peak, pc.load.reported);
    hide Inv, RowOk, UpsertsOk, BufferKey, Highest, Upserted;
    WriteTableOk(s, u);
    assert pc.rest == [b] + pc.rest[1..];
    WriteThreadOk(s.buffers, s'.buffers, t, pc);
    hide ThreadOk;
    FlushStepKeepsInv(s, s', t, Some(u));
  }

  lemma WriteThreadOk(buffers: seq<Buffer>, buffers': seq<Buffer>, t: nat, pc: Thread)
    requires ThreadOk(buffers, t, pc) && pc.Write? && |buffers'| == |buffers| && pc.rest[0] < |buffers|
    requires forall b :: 0 <= b < |buffers| && b != pc.rest[0] ==> buffers'[b] == buffers[b]
    ensures ThreadOk(buffers', t, Next(pc.rest[1..], pc.date))
  {
    hide Highest;
  }

  /** A call begins: a recorder, or a flush that swaps the map. */
  lemma CallKeepsInv(s: State, s': State)
    requires Inv(s) && |s'.threads| == |s.threads| + 1 && s' == s.(threads := s.threads + [s'.threads[|s.threads|]])
    requires s'.threads[|s.threads|].Find?
    ensures Inv(s')
  {
    var pc := s'.threads[|s.threads|];
    hide Inv, ThreadOk, Balanced, RowOk, UpsertsOk, BufferKey, BufferOk, PlaceOk, CurrentOk;
    forall t | 0 <= t < |s'.threads|
      ensures ThreadOk(s'.buffers, t, s'.threads[t])
    {
      if t < |s.threads| {
        OfThread(s, t);
      } else {
        FinderOk(s.buffers, t, pc);
      }
    }
    forall b | 0 <= b < |s'.buffers|
      ensures BufferOk(s'.buffers[b]) && PlaceOk(s', b, s'.buffers[b])
    {
      OfBuffer(s, b);
      PlaceStays(s, s', b);
    }
    forall id, k
      ensures Balanced(s', id, k)
    {
      OfBalance(s, id, k);
      CallBalanced(s, s', pc, id, k);
    }
    OfTable(s);
    InvParts(s');
  }

  lemma FinderOk(buffers: seq<Buffer>, t: nat, pc: Thread)
    requires pc.Find?
    ensures ThreadOk(buffers, t, pc)
  {
  }

  lemma CallBalanced(s: State, s': State, pc: Thread, id: Id, k: Counter)
    requires Balanced(s, id, k) && s'.buffers == s.buffers && s'.threads == s.threads + [pc]
    requires s'.written == s.written && !Carries(pc)
    ensures Balanced(s', id, k)
  {
    ThreadBegun(s.threads, pc, id, k);
  }

  lemma PlaceStays(s: State, s': State, b: nat)
    requires b < |s.buffers| && PlaceOk(s, b, s.buffers[b]) && s'.current == s.current
    requires |s.threads| <= |s'.threads| && forall t :: 0 <= t < |s.threads| ==> s'.threads[t] == s.threads[t]
    ensures PlaceOk(s', b, s.buffers[b])
  {
    hide BufferKey;
  }

  lemma FlushThreadsOk(s: State, order: seq<nat>, t: nat)
    requires Inv(s) && Lists(s.current, order) && t < |s.threads|
    ensures ThreadOk(Detached(s.buffers, order, |s.threads|), t, s.threads[t])
  {
    OfThread(s, t);
    forall b | 0 <= b < |s.buffers|
      ensures SameFor(s.buffers[b], Detached(s.buffers, order, |s.threads|)[b], |s.threads|) ||
                s.buffers[b].place == InMap
    {
      ListedInMap(s, order, b);
    }
    var pc := s.threads[t];
    hide Inv, Lists;
    forall i | 0 <= i < |RestOf(pc)|
      ensures Detached(s.buffers, order, |s.threads|)[RestOf(pc)[i]] == s.buffers[RestOf(pc)[i]]
    {
      var b := RestOf(pc)[i];
      assert s.buffers[b].place == With(t);
      assert SameFor(s.buffers[b], Detached(s.buffers, order, |s.threads|)[b], |s.threads|);
    }
    hide Detached;
    SameRest(s.buffers, Detached(s.buffers, order, |s.threads|), t, pc);
  }

  lemma SameRest(buffers: seq<Buffer>, buffers': seq<Buffer>, t: nat, pc: Thread)
    requires ThreadOk(buffers, t, pc) && |buffers'| == |buffers|
    requires forall i :: 0 <= i < |RestOf(pc)| && RestOf(pc)[i] < |buffers| ==>
               buffers'[RestOf(pc)[i]] == buffers[RestOf(pc)[i]]
    ensures ThreadOk(buffers', t, pc)
  {
    hide Distinct, StageOk;
  }

  /** The buffers listed by a flush are those in the map. */
  lemma ListedInMap(s: State, order: seq<nat>, b: nat)
    requires Inv(s) && Lists(s.current, order) && b < |s.buffers|
    ensures b in order <==> s.buffers[b].place == InMap
  {
    OfBuffer(s, b);
    assert CurrentOk(s.buffers, s.current);
    hide Inv, BufferOk, BufferKey;
    if b in order {
      var i :| 0 <= i < |order| && order[i] == b;
      assert Holds(s.current, order[i]);
    }
  }

  lemma FlushKeepsInv(s: State, order: seq<nat>, date: int)
    requires Inv(s) && WellFormed(s) && Lists(s.current, order)
    ensures Inv(Step(s, Flush(order, date)))
  {
    var s' := Step(s, Flush(order, date));
    OfTable(s);
    assert s'.table == s.table && s'.written == s.written && s'.current == map[] && |s'.buffers| == |s.buffers|;
    assert s'.threads == s.threads + [Next(order, date)] && s'.buffers == Detached(s.buffers, order, |s.threads|);
    hide Step, Inv, WellFormed, Lists, Detached, ThreadOk, BufferOk, PlaceOk, Balanced, RowOk, UpsertsOk, BufferKey;
    forall t | 0 <= t < |s'.threads|
      ensures ThreadOk(s'.buffers, t, s'.threads[t])
    {
      if t < |s.threads| {
        FlushThreadsOk(s, order, t);
      } else {
        FlushNewThreadOk(s, order, date);
      }
    }
    forall b | 0 <= b < |s'.buffers|
      ensures BufferOk(s'.buffers[b]) && PlaceOk(s', b, s'.buffers[b])
    {
      FlushBufferOk(s, order, date, b);
    }
    forall id, k
      ensures Balanced(s', id, k)
    {
      FlushBalanced(s, s', order, date, id, k);
    }
    InvParts(s');
  }

  lemma FlushBalanced(s: State, s': State, order: seq<nat>, date: int, id: Id, k: Counter)
    requires Inv(s) && s'.buffers == Detached(s.buffers, order, |s.threads|)
    requires s'.threads == s.threads + [Next(order, date)] && s'.written == s.written
    ensures Balanced(s', id, k)
  {
    hide Inv;
    OfBalance(s, id, k);
    BuffersAlike(s.buffers, s'.buffers, id, k, Out);
    ThreadBegun(s.threads, Next(order, date), id, k);
  }

  lemma FlushNewThreadOk(s: State, order: seq<nat>, date: int)
    requires Inv(s) && Lists(s.current, order)
    ensures ThreadOk(Detached(s.buffers, order, |s.threads|), |s.threads|, Next(order, date))
  {
    hide Inv, BufferKey, BufferOk;
    OfTable(s);
    hide RowOk, UpsertsOk;
    forall i | 0 <= i < |order|
      ensures order[i] < |s.buffers| && s.buffers[order[i]].swapped == {}
    {
      assert Holds(s.current, order[i]);
      OfBuffer(s, order[i]);
    }
  }

  lemma FlushBufferOk(s: State, order: seq<nat>, date: int, b: nat)
    requires Inv(s) && WellFormed(s) && Lists(s.current, order) && b < |s.buffers|
    ensures var s' := Step(s, Flush(order, date)); BufferOk(s'.buffers[b]) && PlaceOk(s', b, s'.buffers[b])
  {
    var s' := Step(s, Flush(order, date));
    assert s'.buffers[b] == if b in order then s.buffers[b].(place := With(|s.threads|)) else s.buffers[b];
    assert s'.threads == s.threads + [Next(order, date)];
    ListedInMap(s, order, b);
    OfBuffer(s, b);
    hide Inv, BufferKey, WellFormed, Lists, Step;
    Replaced(s.buffers[b], With(|s.threads|));
    hide BufferOk;
  }

  lemma Replaced(buf: Buffer, place: Place)
    requires BufferOk(buf)
    ensures BufferOk(buf.(place := place))
  {
    hide Highest;
  }

  lemma StepKeepsInv(s: State, e: Event)
    requires Inv(s) && WellFormed(s) && Enabled(s, e)
    ensures Inv(Step(s, e))
  {
    hide Inv, WellFormed, RunThread, Detached, Lists;
    match e {
      case Record(_, _) => CallKeepsInv(s, Step(s, e));
      case UpdatePeakStreams(_, _) => CallKeepsInv(s, Step(s, e));
      case Flush(order, date) => FlushKeepsInv(s, order, date);
      case Run(t) =>
        match s.threads[t] {
          case Find(_, _) => LookKeepsInv(s, t);
          case Make(_, _) => MakeKeepsInv(s, t);
          case Add(_, _) => AddKeepsInv(s, t);
          case LoadPeak(_, _) => LoadPeakKeepsInv(s, t);
          case SwapPeak(_, _, _) => SwapPeakKeepsInv(s, t);
          case Next(_, _) => NextKeepsInv(s, t);
          case Take(_, _, _, _) => TakeKeepsInv(s, t);
          case TakePeak(_, _, _) => TakePeakKeepsInv(s, t);
          case Write(_, _, _) => WriteKeepsInv(s, t);
        }
    }
  }

  lemma {:induction false} RunKeepsInv(s: State, es: seq<Event>)
    requires Inv(s) && Exec(s, es).Some?
    ensures Inv(Exec(s, es).value)
    decreases |es|
  {
    hide Inv, WellFormed, Enabled, Step;
    if es != [] {
      StepKeepsInv(s, es[0]);
      RunKeepsInv(Step(s, es[0]), es[1..]);
    }
  }

  ghost predicate Reaches(es: seq<Event>, s: State) { Exec(Init, es) == Some(s) }

  lemma ReachedInv(es: seq<Event>, s: State)
    requires Reaches(es, s)
    ensures Inv(s)
  {
    InitInv();
    RunKeepsInv(Init, es);
  }

  // ---------------------------------------------------------------- conservation

  lemma {:induction false} MadeIsOutAndResidue(buffers: seq<Buffer>, id: Id, k: Counter)
    requires forall b :: 0 <= b < |buffers| ==> CounterOk(buffers[b], k)
    ensures InBuffers(buffers, id, k, Made) == InBuffers(buffers, id, k, Out) + InBuffers(buffers, id, k, Residue)
  {
    if buffers != [] {
      MadeIsOutAndResidue(buffers[..|buffers| - 1], id, k);
      assert CounterOk(buffers[|buffers| - 1], k);
    }
  }

  lemma AllCountersOk(s: State, k: Counter)
    requires Inv(s)
    ensures forall b :: 0 <= b < |s.buffers| ==> CounterOk(s.buffers[b], k)
  {
    forall b | 0 <= b < |s.buffers|
      ensures CounterOk(s.buffers[b], k)
    {
      OfBuffer(s, b);
    }
  }

  /** In every run: the additions made for an id are what was written to the table, what flushes have taken and not
      yet written, and what is left in its buffers, attached or not; nothing is counted twice. */
  lemma Conservation(es: seq<Event>, s: State, id: Id, k: Counter)
    requires Reaches(es, s)
    ensures InBuffers(s.buffers, id, k, Made) ==
              Written(s.written, id, k) + InHand(s.threads, id, k) + InBuffers(s.buffers, id, k, Residue)
  {
    ReachedInv(es, s);
    hide Inv;
    OfBalance(s, id, k);
    AllCountersOk(s, k);
    MadeIsOutAndResidue(s.buffers, id, k);
  }

  // ---------------------------------------------------------------- what is lost, and when nothing is

  ghost predicate AtRest(s: State) { forall t :: 0 <= t < |s.threads| ==> s.threads[t].Done? }

  lemma {:induction false} NothingInHand(threads: seq<Thread>, id: Id, k: Counter)
    requires forall t :: 0 <= t < |threads| ==> threads[t].Done?
    ensures InHand(threads, id, k) == 0
  {
    if threads != [] {
      NothingInHand(threads[..|threads| - 1], id, k);
    }
  }

  lemma {:induction false} ResidueIsLate(buffers: seq<Buffer>, id: Id, k: Counter)
    requires forall b :: 0 <= b < |buffers| ==> CounterOk(buffers[b], k) && k in buffers[b].swapped
    ensures InBuffers(buffers, id, k, Residue) == InBuffers(buffers, id, k, Late)
  {
    if buffers != [] {
      ResidueIsLate(buffers[..|buffers| - 1], id, k);
      assert CounterOk(buffers[|buffers| - 1], k);
    }
  }

  /** At rest with nothing buffered, that is, after a last flush: what is missing from the table is exactly what was
      added to a buffer after a flush had swapped that counter. */
  lemma LostIsLate(es: seq<Event>, s: State, id: Id, k: Counter)
    requires Reaches(es, s) && AtRest(s) && s.current == map[]
    ensures InBuffers(s.buffers, id, k, Made) == Written(s.written, id, k) + InBuffers(s.buffers, id, k, Late)
  {
    Conservation(es, s, id, k);
    ReachedInv(es, s);
    NothingInHand(s.threads, id, k);
    AllCountersOk(s, k);
    hide Inv;
    forall b | 0 <= b < |s.buffers|
      ensures k in s.buffers[b].swapped
    {
      OfBuffer(s, b);
    }
    ResidueIsLate(s.buffers, id, k);
  }

  /** No flush swaps the map between a recorder's lookup and its addition. */
  ghost predicate NoFlushBetween(s: State, es: seq<Event>)
    decreases |es|
  {
    es != [] && WellFormed(s) && Enabled(s, es[0]) ==>
      && (es[0].Flush? ==> forall t :: 0 <= t < |s.threads| ==> !s.threads[t].Add?)
      && NoFlushBetween(Step(s, es[0]), es[1..])
  }

  /** Recorders add to buffers in the map, and no addition was late. */
  ghost predicate Prompt(s: State) {
    && (forall t :: 0 <= t < |s.threads| && s.threads[t].Add? && s.threads[t].buffer < |s.buffers| ==>
        s.buffers[s.threads[t].buffer].place == InMap)
    && (forall b :: 0 <= b < |s.buffers| ==> s.buffers[b].late == ZERO)
  }

  lemma PromptPut(s: State, s': State, b: nat, t: nat)
    requires Prompt(s) && t < |s.threads| && |s'.threads| == |s.threads|
    requires s'.threads == s.threads[t := s'.threads[t]] && !s'.threads[t].Add?
    requires |s'.buffers| == |s.buffers| && (b < |s.buffers| ==> s'.buffers == s.buffers[b := s'.buffers[b]])
    requires (b >= |s.buffers| ==> s'.buffers == s.buffers)
    requires b < |s.buffers| ==>
               s'.buffers[b].late == ZERO &&
               (s.buffers[b].place == InMap ==> s'.buffers[b].place == InMap)
    ensures Prompt(s')
  {
  }

  lemma PromptBegin(s: State, t: nat)
    requires Inv(s) && Prompt(s) && WellFormed(s) && t < |s.threads| && (s.threads[t].Find? || s.threads[t].Make?)
    ensures Prompt(RunThread(s, t))
  {
    hide Inv, BufferKey;
    OfTable(s);
    hide RowOk, UpsertsOk;
  }

  lemma PromptAdd(s: State, t: nat)
    requires Inv(s) && Prompt(s) && WellFormed(s) && t < |s.threads| && s.threads[t].Add?
    ensures Prompt(RunThread(s, t))
  {
    hide Inv, BufferKey, BufferOk;
    OfThread(s, t);
    OfBuffer(s, s.threads[t].buffer);
    hide ThreadOk;
    PromptPut(s, RunThread(s, t), s.threads[t].buffer, t);
  }

  lemma PromptFlush(s: State, t: nat)
    requires Inv(s) && Prompt(s) && WellFormed(s) && t < |s.threads|
    requires var pc := s.threads[t]; Carries(pc) || pc.Next? || pc.LoadPeak? || pc.SwapPeak?
    ensures Prompt(RunThread(s, t))
  {
    hide Inv;
    OfThread(s, t);
    var pc := s.threads[t];
    var b := if Carries(pc) then pc.rest[0] else if pc.Next? then |s.buffers| else pc.buffer;
    assert Carries(pc) ==> s.buffers[b].place == With(t) && s.buffers[b].late == ZERO;
    hide ThreadOk, Prompt, Upserted;
    PromptPut(s, RunThread(s, t), b, t);
  }

  lemma PromptThread(s: State, t: nat)
    requires Inv(s) && Prompt(s) && WellFormed(s) && t < |s.threads|
    ensures Prompt(RunThread(s, t))
  {
    hide Inv, WellFormed, Prompt;
    var pc := s.threads[t];
    if pc.Find? || pc.Make? {
      hide RunThread;
      PromptBegin(s, t);
    } else if pc.Add? {
      hide RunThread;
      PromptAdd(s, t);
    } else if !pc.Done? {
      hide RunThread;
      PromptFlush(s, t);
    }
  }

  lemma PromptStep(s: State, e: Event)
    requires Inv(s) && Prompt(s) && WellFormed(s) && Enabled(s, e)
    requires e.Flush? ==> forall t :: 0 <= t < |s.threads| ==> !s.threads[t].Add?
    ensures Prompt(Step(s, e))
  {
    hide Inv;
    if e.Run? {
      PromptThread(s, e.thread);
    }
  }

  lemma {:induction false} PromptRun(s: State, es: seq<Event>)
    requires Inv(s) && Prompt(s) && NoFlushBetween(s, es) && Exec(s, es).Some?
    ensures Prompt(Exec(s, es).value)
    decreases |es|
  {
    hide Inv, Prompt, WellFormed, Enabled, Step;
    if es != [] {
      StepKeepsInv(s, es[0]);
      PromptStep(s, es[0]);
      PromptRun(Step(s, es[0]), es[1..]);
    }
  }

  lemma {:induction false} NoLate(buffers: seq<Buffer>, id: Id, k: Counter)
    requires forall b :: 0 <= b < |buffers| ==> buffers[b].late == ZERO
    ensures InBuffers(buffers, id, k, Late) == 0
  {
    if buffers != [] {
      NoLate(buffers[..|buffers| - 1], id, k);
    }
  }

  /** When no flush falls between a lookup and its addition, the table is exact after a last flush. */
  lemma ExactWithoutRace(es: seq<Event>, s: State, id: Id, k: Counter)
    requires Reaches(es, s) && NoFlushBetween(Init, es) && AtRest(s) && s.current == map[]
    ensures InBuffers(s.buffers, id, k, Made) == Written(s.written, id, k)
  {
    LostIsLate(es, s, id, k);
    InitInv();
    hide Inv;
    PromptRun(Init, es);
    NoLate(s.buffers, id, k);
  }

  // ---------------------------------------------------------------- rows and peaks

  function Rows(written: seq<Upsert>, id: Id, dates: seq<int>, k: Counter): nat {
    if dates == [] then 0
    else Rows(written, id, dates[..|dates| - 1], k) + WrittenTo(written, RowKey(id, dates[|dates| - 1]), k)
  }

  lemma {:induction false} RowsNext(written: seq<Upsert>, u: Upsert, id: Id, dates: seq<int>, k: Counter)
    requires forall i, j :: 0 <= i < j < |dates| ==> dates[i] != dates[j]
    ensures Rows(written + [u], id, dates, k) == Rows(written, id, dates, k) + if u.id == id &&
              u.date in dates then u.counts.Get(k) else 0
  {
    if dates != [] {
      var n := |dates| - 1;
      RowsNext(written, u, id, dates[..n], k);
      WrittenToNext(written, u, RowKey(id, dates[n]), k);
      assert dates == dates[..n] + [dates[n]];
    }
  }

  /** What was written for an id is the sum over the dates. */
  lemma {:induction false} WrittenIsRows(written: seq<Upsert>, id: Id, dates: seq<int>, k: Counter)
    requires forall i, j :: 0 <= i < j < |dates| ==> dates[i] != dates[j]
    requires forall i :: 0 <= i < |written| && written[i].id == id ==> written[i].date in dates
    ensures Written(written, id, k) == Rows(written, id, dates, k)
    decreases |written|
  {
    if written == [] {
      NoRows(id, dates, k);
    } else {
      var n := |written| - 1;
      WrittenIsRows(written[..n], id, dates, k);
      RowsNext(written[..n], written[n], id, dates, k);
      assert written == written[..n] + [written[n]];
    }
  }

  lemma {:induction false} NoRows(id: Id, dates: seq<int>, k: Counter)
    ensures Rows([], id, dates, k) == 0
  {
    if dates != [] {
      NoRows(id, dates[..|dates| - 1], k);
    }
  }

  function TableSum(table: map<RowKey, Row>, id: Id, dates: seq<int>, k: Counter): nat {
    if dates == [] then 0
    else
      var key := RowKey(id, dates[|dates| - 1]);
      TableSum(table, id, dates[..|dates| - 1], k) + if key in table then table[key].counts.Get(k) else 0
  }

  lemma {:induction false} TableIsRows(s: State, id: Id, dates: seq<int>, k: Counter)
    requires forall key :: RowOk(s.table, s.written, key, k)
    ensures TableSum(s.table, id, dates, k) == Rows(s.written, id, dates, k)
  {
    if dates != [] {
      TableIsRows(s, id, dates[..|dates| - 1], k);
      assert RowOk(s.table, s.written, RowKey(id, dates[|dates| - 1]), k);
    }
  }

  /** In every run: the additions made for an id are the sum of its rows over all dates, what flushes have in hand, and
      what is left in its buffers. */
  lemma TableConservation(es: seq<Event>, s: State, id: Id, k: Counter, dates: seq<int>)
    requires Reaches(es, s) && forall i, j :: 0 <= i < j < |dates| ==> dates[i] != dates[j]
    requires forall i :: 0 <= i < |s.written| && s.written[i].id == id ==> s.written[i].date in dates
    ensures InBuffers(s.buffers, id, k, Made) ==
              TableSum(s.table, id, dates, k) + InHand(s.threads, id, k) + InBuffers(s.buffers, id, k, Residue)
  {
    Conservation(es, s, id, k);
    ReachedInv(es, s);
    hide Inv;
    OfTable(s);
    WrittenIsRows(s.written, id, dates, k);
    TableIsRows(s, id, dates, k);
  }

  lemma {:induction false} PeakIsHighest(written: seq<Upsert>, key: RowKey)
    requires UpsertsOk(written)
    ensures forall i, j ::
              0 <= i < |written| && RowKey(written[i].id, written[i].date) == key &&
              0 <= j < |written[i].reported| ==>
              written[i].reported[j] <= PeakOf(written, key)
    ensures PeakOf(written, key) == 0 || exists i ::
              0 <= i < |written| && RowKey(written[i].id, written[i].date) == key &&
                PeakOf(written, key) in written[i].reported
  {
    if written != [] {
      var n := |written| - 1;
      PeakIsHighest(written[..n], key);
      HighestIsHighest(written[n].reported);
      if PeakOf(written, key) != 0 && PeakOf(written, key) == PeakOf(written[..n], key) {
        var i :| 0 <= i < n && RowKey(written[..n][i].id, written[..n][i].date) == key &&
          PeakOf(written[..n], key) in written[..n][i].reported;
        assert written[i] == written[..n][i];
      }
    }
  }

  /** In every run: the peak of a row is the highest stream count that was reported to a buffer flushed into it, or
      0. */
  lemma RowPeak(es: seq<Event>, s: State, key: RowKey)
    requires Reaches(es, s) && key in s.table
    ensures forall i, j ::
              0 <= i < |s.written| && RowKey(s.written[i].id, s.written[i].date) == key &&
              0 <= j < |s.written[i].reported| ==>
              s.written[i].reported[j] <= s.table[key].peak
    ensures s.table[key].peak == 0 || exists i ::
              0 <= i < |s.written| && RowKey(s.written[i].id, s.written[i].date) == key &&
                s.table[key].peak in s.written[i].reported
  {
    ReachedInv(es, s);
    hide Inv;
    OfTable(s);
    assert RowOk(s.table, s.written, key, Requests);
    PeakIsHighest(s.written, key);
  }

  /** A recorder finds the buffer of its own id, unless two ids make the same key. */
  lemma FoundBufferIsOwn(es: seq<Event>, s: State, id: Id)
    requires Reaches(es, s) && BufferKey(id) in s.current
    ensures s.current[BufferKey(id)] < |s.buffers|
    ensures var owner := s.buffers[s.current[BufferKey(id)]].id;
            BufferKey(owner) == BufferKey(id) && (ValidId(id) && ValidId(owner) ==> owner == id)
  {
    ReachedInv(es, s);
    hide Inv;
    OfTable(s);
    hide BufferKey, RowOk, UpsertsOk;
    SameKeyIff(s.buffers[s.current[BufferKey(id)]].id, id);
  }

  // ---------------------------------------------------------------- an addition that is lost

  const SOMEBODY := Id(1, 1)

  function Lone(counts: Counts, swapped: set<Counter>, late: Counts, place: Place): Buffer {
    Buffer(SOMEBODY, counts, 0, swapped, late, late, ZERO, [], place)
  }

  /** The race: a flush swaps and writes the buffer between a recorder's lookup and its addition. */
  function Race(i: nat): (Event, State) {
    var key, add, one, load := BufferKey(SOMEBODY), Add(0, Requests), Counts(1, 0, 0), Load(SOMEBODY, ZERO, 0, []);
    var row, done := RowKey(SOMEBODY, 0), [Upsert(SOMEBODY, 0, ZERO, 0, [])];
    match i
    case 0 => (Record(SOMEBODY, Requests), State([], map[], map[], [], [Find(SOMEBODY, Count(Requests))]))
    case 1 => (Run(0), State([], map[], map[], [], [Make(SOMEBODY, Count(Requests))]))
    case 2 => (Run(0), State([Lone(ZERO, {}, ZERO, InMap)], map[key := 0], map[], [], [add]))
    case 3 => (Flush([0], 0), State([Lone(ZERO, {}, ZERO, With(1))], map[], map[], [], [add, Next([0], 0)]))
    case 4 => (Run(1), State([Lone(ZERO, {}, ZERO, With(1))], map[], map[], [], [add, Take([0], 0, load, Requests)]))
    case 5 => (Run(1), State([Lone(ZERO, {Requests}, ZERO, With(1))], map[], map[], [],
                             [add, Take([0], 0, load, Messages)]))
    case 6 => (Run(1), State([Lone(ZERO, {Requests, Messages}, ZERO, With(1))], map[], map[], [],
                             [add, Take([0], 0, load, Errors)]))
    case 7 => (Run(1), State([Lone(ZERO, ALL, ZERO, With(1))], map[], map[], [], [add, TakePeak([0], 0, load)]))
    case 8 => (Run(1), State([Lone(ZERO, ALL, ZERO, With(1))], map[], map[], [], [add, Write([0], 0, load)]))
    case 9 => (Run(1), State([Lone(ZERO, ALL, ZERO, Flushed)], map[], map[row := Row(ZERO, 0)], done,
                             [add, Next([], 0)]))
    case 10 => (Run(1), State([Lone(ZERO, ALL, ZERO, Flushed)], map[], map[row := Row(ZERO, 0)], done, [add, Done]))
    case _ => (Run(0), State([Lone(one, ALL, one, Flushed)], map[], map[row := Row(ZERO, 0)], done, [Done, Done]))
  }

  function RaceState(n: nat): State { if n == 0 then Init else Race(n - 1).1 }

  function RaceEvents(n: nat): seq<Event> { if n == 0 then [] else RaceEvents(n - 1) + [Race(n - 1).0] }

  ghost predicate Follows(i: nat) {
    WellFormed(RaceState(i)) ==> Enabled(RaceState(i), Race(i).0) && Step(RaceState(i), Race(i).0) == RaceState(i + 1)
  }

  lemma RaceBegins()
    ensures Follows(0) && Follows(1) && Follows(2)
  {
  }

  lemma RaceFlushes()
    ensures Follows(3)
  {
    assert Holds(RaceState(3).current, 0) by { assert BufferKey(SOMEBODY) in RaceState(3).current; }
  }

  lemma RaceGoesOn()
    ensures Follows(4)
  {
    hide WellFormed, BufferKey;
  }

  /** The state while the flush swaps the counters of the buffer, none of which was added to. */
  function Taking(swapped: set<Counter>, pc: Thread): State {
    State([Lone(ZERO, swapped, ZERO, With(1))], map[], map[], [], [Add(0, Requests), pc])
  }

  lemma RaceTakes(swapped: set<Counter>, k: Counter)
    ensures var load := Load(SOMEBODY, ZERO, 0, []);
            var s := Taking(swapped, Take([0], 0, load, k));
            WellFormed(s) ==> Enabled(s, Run(1)) && Step(s, Run(1)) == Taking(swapped + {k}, AfterTake(k, [0], 0, load))
  {
    hide WellFormed, AfterTake;
    var buf := Lone(ZERO, swapped, ZERO, With(1));
    assert Swapped(buf, k) == Lone(ZERO, swapped + {k}, ZERO, With(1));
    hide Swapped, Lone;
    assert [buf][0 := Lone(ZERO, swapped + {k}, ZERO, With(1))] == [Lone(ZERO, swapped + {k}, ZERO, With(1))];
  }

  lemma RaceTakesRequests()
    ensures Follows(5)
  {
    hide WellFormed, BufferKey, Step, Enabled;
    RaceTakes({}, Requests);
    assert {} + {Requests} == {Requests};
  }

  lemma RaceTakesMessages()
    ensures Follows(6)
  {
    hide WellFormed, BufferKey, Step, Enabled;
    RaceTakes({Requests}, Messages);
    assert {Requests} + {Messages} == {Requests, Messages};
  }

  lemma RaceTakesErrors()
    ensures Follows(7)
  {
    hide WellFormed, BufferKey, Step, Enabled;
    RaceTakes({Requests, Messages}, Errors);
    assert {Requests, Messages} + {Errors} == ALL;
  }

  lemma RaceTakesPeak()
    ensures Follows(8)
  {
    hide WellFormed, BufferKey;
  }

  lemma RaceWrites()
    ensures Follows(9)
  {
    hide WellFormed, BufferKey;
    var rest: seq<nat> := [0];
    var none: seq<Upsert> := [];
    assert rest[1..] == [] && none + [Upsert(SOMEBODY, 0, ZERO, 0, [])] == [Upsert(SOMEBODY, 0, ZERO, 0, [])];
  }

  lemma RaceEnds()
    ensures Follows(10) && Follows(11)
  {
    hide WellFormed, BufferKey;
  }

  lemma RaceFollows(i: nat)
    requires i <= 11
    ensures Follows(i)
  {
    hide *;
    RaceBegins();
    RaceFlushes();
    RaceGoesOn();
    RaceTakesRequests();
    RaceTakesMessages();
    RaceTakesErrors();
    RaceTakesPeak();
    RaceWrites();
    RaceEnds();
  }

  lemma {:induction false} ExecNext(s: State, es: seq<Event>, e: Event)
    requires Exec(s, es).Some? && WellFormed(Exec(s, es).value) && Enabled(Exec(s, es).value, e)
    ensures Exec(s, es + [e]) == Some(Step(Exec(s, es).value, e))
    decreases |es|
  {
    hide WellFormed, Enabled, Step;
    if es == [] {
      assert es + [e] == [e] && [e][1..] == [];
    } else {
      ExecNext(Step(s, es[0]), es[1..], e);
      assert (es + [e])[0] == es[0] && (es + [e])[1..] == es[1..] + [e];
    }
  }

  lemma {:induction false} RaceRuns(n: nat)
    requires n <= 12
    ensures Exec(Init, RaceEvents(n)) == Some(RaceState(n)) && Inv(RaceState(n)) && WellFormed(RaceState(n))
  {
    hide Race, Inv, WellFormed, Enabled, Step, Exec;
    if n == 0 {
      InitInv();
      InvIsWellFormed(Init);
      assert Exec(Init, []) == Some(Init) by { ExecEmpty(); }
    } else {
      RaceRuns(n - 1);
      RaceFollows(n - 1);
      ExecNext(Init, RaceEvents(n - 1), Race(n - 1).0);
      StepKeepsInv(RaceState(n - 1), Race(n - 1).0);
      InvIsWellFormed(RaceState(n));
    }
  }

  lemma ExecEmpty()
    ensures Exec(Init, []) == Some(Init)
  {
  }

  lemma LostOne()
    ensures var s := RaceState(12);
            AtRest(s) && s.current == map[] &&
            InBuffers(s.buffers, SOMEBODY, Requests, Made) == 1
    ensures Written(RaceState(12).written, SOMEBODY, Requests) == 0
  {
    var b := Lone(Counts(1, 0, 0), ALL, Counts(1, 0, 0), Flushed);
    assert [b][..0] == [];
  }

  /** One recorded request can be missing from the table for good: a flush falls between its lookup and its addition. */
  lemma AdditionCanBeLost() returns (es: seq<Event>, s: State)
    ensures Reaches(es, s) && AtRest(s) && s.current == map[]
    ensures InBuffers(s.buffers, SOMEBODY, Requests, Made) == 1 && Written(s.written, SOMEBODY, Requests) == 0
  {
    LostOne();
    RaceRuns(12);
    hide RaceState, RaceEvents, Inv, WellFormed, Exec, InBuffers, Written;
    es, s := RaceEvents(12), RaceState(12);
  }
}
