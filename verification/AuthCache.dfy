/** Authentication with a cache of limited age in front of a changing table.  Calls interleave: looking into the cache,
    judging what was found, removing it, querying the table (with its judgement and time stamp) and filling the cache
    are one step each. */
module AuthCache {

  datatype Option<+T> = None | Some(value: T)

  datatype TenantStatus = Active | Suspended | Deleted

  datatype KeyStatus = Usable | Revoked | Expired

  datatype Row = Row(tenantId: int, tenantStatus: TenantStatus, keyId: int, keyStatus: KeyStatus,
                     expiresAt: Option<int>, planId: int)

  predicate IsValid(row: Row, now: int) {
    && row.tenantStatus == Active && row.keyStatus == Usable
    && !(row.expiresAt.Some? && row.expiresAt.value < now)
  }

  datatype Error = MissingApiKey | InvalidApiKey | ExpiredApiKey | RevokedApiKey | SuspendedTenant

  datatype Verdict = Granted | Denied(error: Error)

  /** What a query of the table leads to. */
  function Judge(row: Option<Row>, now: int): Verdict {
    match row
    case None => Denied(InvalidApiKey)
    case Some(r) =>
      if IsValid(r, now) then Granted
      else if r.tenantStatus == Suspended then Denied(SuspendedTenant)
      else if r.keyStatus == Revoked then Denied(RevokedApiKey)
      else if r.keyStatus == Expired || (r.expiresAt.Some? && r.expiresAt.value < now) then Denied(ExpiredApiKey)
      else Denied(InvalidApiKey)
  }

  /** A key that was denied stays denied as time passes, as long as its row does not change. */
  lemma DeniedStaysDenied(row: Option<Row>, now: int, later: int)
    requires now <= later && Judge(row, now).Denied?
    ensures Judge(row, later).Denied?
    ensures Judge(row, now).error != InvalidApiKey || row.None? ==> Judge(row, later) == Judge(row, now)
  {
  }

  /** An existing key is called merely invalid exactly when it is in order itself and its tenant was deleted. */
  lemma InvalidMeansDeleted(row: Row, now: int)
    ensures Judge(Some(row), now) == Denied(InvalidApiKey) <==>
              row.tenantStatus == Deleted && row.keyStatus == Usable &&
                !(row.expiresAt.Some? && row.expiresAt.value < now)
    ensures Judge(Some(row), now) == Denied(SuspendedTenant) <==> row.tenantStatus == Suspended
    ensures Judge(Some(row), now) == Denied(RevokedApiKey) <==>
              row.tenantStatus != Suspended && row.keyStatus == Revoked
  {
  }

  /** A key is granted exactly when its tenant is active, the key usable, and its end, if it has one, not past. */
  lemma GrantedIff(row: Option<Row>, now: int)
    ensures Judge(row, now) == Granted <==>
              && row.Some? && row.value.tenantStatus == Active && row.value.keyStatus == Usable
              && (row.value.expiresAt.Some? ==> now <= row.value.expiresAt.value)
  {
  }

  /** A key is reported as expired exactly when it is marked so or its end is past, unless its tenant is suspended or
      the key revoked. */
  lemma ExpiredIff(row: Option<Row>, now: int)
    ensures Judge(row, now) == Denied(ExpiredApiKey) <==>
              && row.Some? && row.value.tenantStatus != Suspended && row.value.keyStatus != Revoked
              && (row.value.keyStatus == Expired || (row.value.expiresAt.Some? && row.value.expiresAt.value < now))
    ensures Judge(row, now) != Denied(MissingApiKey)
  {
  }

  /** A cached context: the row as queried, when it was queried, and which change of the table it reflects. */
  datatype Context = Context(row: Row, cachedAt: int, seen: nat)

  /** The table after a change. */
  datatype Change = Change(at: int, rows: map<string, Row>)

  datatype Thread =
    | Done
    | Look(key: string, begun: int)
    | Assess(key: string, begun: int, looked: int, ctx: Context)
    | Remove(key: string, begun: int)
    | Query(key: string, begun: int)
    | Put(key: string, begun: int, ctx: Context)

  /** A success: who called, when the call began, when the context was judged valid, and when it was returned. */
  datatype Answer = Answer(caller: nat, key: string, ctx: Context, begun: int, judged: int, at: int)

  /** A denial: who called, why it was denied, when the call began, and when and of which table it was decided. */
  datatype Refusal = Refusal(caller: nat, key: string, error: Error, begun: int, at: int, seen: nat)

  datatype State = State(now: int, changes: seq<Change>, cache: map<string, Context>, threads: seq<Thread>,
                         answers: seq<Answer>, refusals: seq<Refusal>)

  datatype Event =
    | Tick(delta: nat)
    | ChangeTable(rows: map<string, Row>)
    | Authenticate(key: string)
    | Invalidate(key: string)
    | Cleanup
    | Run(thread: nat)

  function Init(now: int, rows: map<string, Row>): State {
    State(now, [Change(now, rows)], map[], [], [], [])
  }

  predicate Enabled(s: State, e: Event) {
    s.changes != [] && (e.Run? ==> e.thread < |s.threads| && !s.threads[e.thread].Done?)
  }

  predicate Stale(ctx: Context, now: int, ttl: nat) { now - ctx.cachedAt > ttl }

  function Goto(s: State, t: nat, pc: Thread): State
    requires t < |s.threads|
  {
    s.(threads := s.threads[t := pc])
  }

  function Current(s: State, key: string): Option<Row>
    requires s.changes != []
  {
    var rows := s.changes[|s.changes| - 1].rows;
    if key in rows then Some(rows[key]) else None
  }

  function RunThread(ttl: nat, s: State, t: nat): State
    requires s.changes != [] && t < |s.threads|
  {
    match s.threads[t]
    case Done => s
    case Look(key, begun) =>
      if key in s.cache && !Stale(s.cache[key], s.now, ttl) then Goto(s, t, Assess(key, begun, s.now, s.cache[key]))
      else Goto(s, t, Query(key, begun))
    case Assess(key, begun, looked, ctx) =>
      if IsValid(ctx.row, s.now) then
        Goto(s.(answers := s.answers + [Answer(t, key, ctx, begun, s.now, s.now)]), t, Done)
      else Goto(s, t, Remove(key, begun))
    case Remove(key, begun) => Goto(s.(cache := s.cache - {key}), t, Query(key, begun))
    case Query(key, begun) =>
      var verdict := Judge(Current(s, key), s.now);
      if verdict.Granted? then Goto(s, t, Put(key, begun, Context(Current(s, key).value, s.now, |s.changes| - 1)))
      else
        Goto(s.(refusals := s.refusals + [Refusal(t, key, verdict.error, begun, s.now, |s.changes| - 1)]), t, Done)
    case Put(key, begun, ctx) =>
      Goto(s.(cache := s.cache[key := ctx], answers := s.answers + [Answer(t, key, ctx, begun, ctx.cachedAt, s.now)]),
           t, Done)
  }

  function Step(ttl: nat, s: State, e: Event): State
    requires Enabled(s, e)
  {
    match e
    case Tick(delta) => s.(now := s.now + delta)
    case ChangeTable(rows) => s.(changes := s.changes + [Change(s.now, rows)])
    case Authenticate(key) => s.(threads := s.threads + [Look(key, s.now)])
    case Invalidate(key) => s.(cache := s.cache - {key})
    case Cleanup => s.(cache := map k | k in s.cache && !Stale(s.cache[k], s.now, ttl) :: s.cache[k])
    case Run(t) => RunThread(ttl, s, t)
  }

  function Exec(ttl: nat, s: State, es: seq<Event>): Option<State>
    decreases |es|
  {
    if es == [] then Some(s)
    else if Enabled(s, es[0]) then Exec(ttl, Step(ttl, s, es[0]), es[1..])
    else None
  }

  // ---------------------------------------------------------------- bounded staleness

  /** The row stood in the table at a time. */
  ghost predicate Stood(changes: seq<Change>, key: string, row: Row, time: int) {
    exists i :: 0 <= i < |changes| && StoodAs(changes, i, key, row, time)
  }

  predicate StoodAs(changes: seq<Change>, i: nat, key: string, row: Row, time: int)
    requires i < |changes|
  {
    key in changes[i].rows && changes[i].rows[key] == row && changes[i].at <= time &&
      (i + 1 < |changes| ==> time <= changes[i + 1].at)
  }

  predicate ContextOk(s: State, key: string, ctx: Context) {
    ctx.seen < |s.changes| && StoodAs(s.changes, ctx.seen, key, ctx.row, ctx.cachedAt) && ctx.cachedAt <= s.now
  }

  predicate ThreadOk(ttl: nat, s: State, pc: Thread) {
    && (!pc.Done? ==> pc.begun <= s.now)
    && (pc.Assess? ==>
          ContextOk(s, pc.key, pc.ctx) && pc.begun <= pc.looked <= s.now &&
          pc.looked - pc.ctx.cachedAt <= ttl)
    && (pc.Put? ==> ContextOk(s, pc.key, pc.ctx) && pc.begun <= pc.ctx.cachedAt && IsValid(pc.ctx.row, pc.ctx.cachedAt))
  }

  predicate AnswerOk(ttl: nat, s: State, a: Answer) {
    && a.caller < |s.threads|
    && ContextOk(s, a.key, a.ctx) && a.begun <= a.judged <= a.at <= s.now && IsValid(a.ctx.row, a.judged)
    && a.begun - ttl <= a.ctx.cachedAt <= a.at
  }

  function RowAt(s: State, n: nat, key: string): Option<Row>
    requires n < |s.changes|
  {
    if key in s.changes[n].rows then Some(s.changes[n].rows[key]) else None
  }

  predicate RefusalOk(s: State, r: Refusal) {
    && r.caller < |s.threads| && r.begun <= r.at <= s.now && r.seen < |s.changes|
    && s.changes[r.seen].at <= r.at && (r.seen + 1 < |s.changes| ==> r.at <= s.changes[r.seen + 1].at)
    && Judge(RowAt(s, r.seen, r.key), r.at) == Denied(r.error)
  }

  predicate Inv(ttl: nat, s: State) {
    && s.changes != [] && s.changes[|s.changes| - 1].at <= s.now
    && (forall k :: k in s.cache ==> ContextOk(s, k, s.cache[k]))
    && (forall t :: 0 <= t < |s.threads| ==> ThreadOk(ttl, s, s.threads[t]))
    && (forall i :: 0 <= i < |s.answers| ==> AnswerOk(ttl, s, s.answers[i]))
    && (forall i :: 0 <= i < |s.refusals| ==> RefusalOk(s, s.refusals[i]))
  }

  /** Time passes, the table changes, and threads begin or move on. */
  predicate Grows(s: State, s': State) {
    && s.now <= s'.now && |s.threads| <= |s'.threads| && |s.changes| <= |s'.changes|
    && (forall i :: 0 <= i < |s.changes| ==> s'.changes[i] == s.changes[i])
    && (|s'.changes| > |s.changes| ==> s'.changes[|s.changes|].at == s.now)
  }

  lemma ContextStays(s: State, s': State, key: string, ctx: Context)
    requires Grows(s, s') && ContextOk(s, key, ctx)
    ensures ContextOk(s', key, ctx)
  {
  }

  lemma AnswerStays(ttl: nat, s: State, s': State, a: Answer)
    requires Grows(s, s') && AnswerOk(ttl, s, a)
    ensures AnswerOk(ttl, s', a)
  {
    ContextStays(s, s', a.key, a.ctx);
    hide ContextOk;
  }

  lemma RefusalStays(s: State, s': State, r: Refusal)
    requires Grows(s, s') && RefusalOk(s, r)
    ensures RefusalOk(s', r)
  {
    assert RowAt(s', r.seen, r.key) == RowAt(s, r.seen, r.key);
    hide Judge;
  }

  lemma ThreadStays(ttl: nat, s: State, s': State, pc: Thread)
    requires Grows(s, s') && ThreadOk(ttl, s, pc)
    ensures ThreadOk(ttl, s', pc)
  {
    if pc.Assess? || pc.Put? {
      ContextStays(s, s', pc.key, pc.ctx);
    }
    hide ContextOk;
  }

  lemma QueryOk(ttl: nat, s: State, key: string, begun: int)
    requires Inv(ttl, s) && begun <= s.now && Judge(Current(s, key), s.now).Granted?
    ensures ThreadOk(ttl, s, Put(key, begun, Context(Current(s, key).value, s.now, |s.changes| - 1)))
  {
    var n := |s.changes| - 1;
    assert Current(s, key).Some? && IsValid(Current(s, key).value, s.now);
    assert StoodAs(s.changes, n, key, Current(s, key).value, s.now);
    assert ContextOk(s, key, Context(Current(s, key).value, s.now, n));
    hide Inv, ContextOk, Judge;
  }

  /** The cache loses entries, or gains one that is in order. */
  lemma GrowthKeepsInv(ttl: nat, s: State, s': State)
    requires Inv(ttl, s) && Grows(s, s') && s'.changes[|s'.changes| - 1].at <= s'.now
    requires forall k :: k in s'.cache ==> (k in s.cache && s'.cache[k] == s.cache[k]) || ContextOk(s, k, s'.cache[k])
    requires forall t :: 0 <= t < |s'.threads| ==>
               (t < |s.threads| && s'.threads[t] == s.threads[t]) || ThreadOk(ttl, s', s'.threads[t])
    requires forall i :: 0 <= i < |s'.answers| ==>
               (i < |s.answers| && s'.answers[i] == s.answers[i]) || AnswerOk(ttl, s', s'.answers[i])
    requires forall i :: 0 <= i < |s'.refusals| ==>
               (i < |s.refusals| && s'.refusals[i] == s.refusals[i]) || RefusalOk(s', s'.refusals[i])
    ensures Inv(ttl, s')
  {
    assert s'.changes != [];
    hide ContextOk, ThreadOk, AnswerOk, RefusalOk, Grows;
    forall i | 0 <= i < |s'.refusals|
      ensures RefusalOk(s', s'.refusals[i])
    {
      if i < |s.refusals| && s'.refusals[i] == s.refusals[i] {
        RefusalStays(s, s', s.refusals[i]);
      }
    }
    forall k | k in s'.cache
      ensures ContextOk(s', k, s'.cache[k])
    {
      ContextStays(s, s', k, s'.cache[k]);
    }
    forall t | 0 <= t < |s'.threads|
      ensures ThreadOk(ttl, s', s'.threads[t])
    {
      if t < |s.threads| && s'.threads[t] == s.threads[t] {
        ThreadStays(ttl, s, s', s.threads[t]);
      }
    }
    forall i | 0 <= i < |s'.answers|
      ensures AnswerOk(ttl, s', s'.answers[i])
    {
      if i < |s.answers| && s'.answers[i] == s.answers[i] {
        AnswerStays(ttl, s, s', s.answers[i]);
      }
    }
  }

  lemma StepKeepsInv(ttl: nat, s: State, e: Event)
    requires Inv(ttl, s) && Enabled(s, e)
    ensures Inv(ttl, Step(ttl, s, e))
  {
    if e.Run? {
      ThreadStepKeepsInv(ttl, s, e.thread);
    } else {
      hide ContextOk, AnswerOk;
      GrowthKeepsInv(ttl, s, Step(ttl, s, e));
    }
  }

  lemma ThreadStepKeepsInv(ttl: nat, s: State, t: nat)
    requires Inv(ttl, s) && t < |s.threads|
    ensures Inv(ttl, RunThread(ttl, s, t))
  {
    var pc, s' := s.threads[t], RunThread(ttl, s, t);
    assert ThreadOk(ttl, s, pc);
    if pc.Query? {
      if Judge(Current(s, pc.key), s.now).Granted? {
        QueryOk(ttl, s, pc.key, pc.begun);
        ThreadStays(ttl, s, s', s'.threads[t]);
      }
      hide ContextOk, AnswerOk, Judge, Inv;
    } else if pc.Look? && pc.key in s.cache {
      assert ContextOk(s, pc.key, s.cache[pc.key]);
    }
    hide StoodAs, Judge;
    GrowthKeepsInv(ttl, s, s');
  }

  lemma {:induction false} RunKeepsInv(ttl: nat, s: State, es: seq<Event>)
    requires Inv(ttl, s) && Exec(ttl, s, es).Some?
    ensures Inv(ttl, Exec(ttl, s, es).value)
    decreases |es|
  {
    hide Inv, Step, Enabled;
    if es != [] {
      StepKeepsInv(ttl, s, es[0]);
      RunKeepsInv(ttl, Step(ttl, s, es[0]), es[1..]);
    }
  }

  /** In every run: what a call returns was, at a time during the call, the row of an active tenant with a usable key
      that had not expired, and it stood in the table no longer than the cache's time to live before the call began. */
  lemma AnswersAreRecent(ttl: nat, now: int, rows: map<string, Row>, es: seq<Event>, i: nat)
    requires var s := Exec(ttl, Init(now, rows), es); s.Some? && i < |s.value.answers|
    ensures var s := Exec(ttl, Init(now, rows), es).value;
            var a := s.answers[i];
            && a.begun <= a.judged <= a.at
            && a.ctx.row.tenantStatus == Active && a.ctx.row.keyStatus == Usable
            && (a.ctx.row.expiresAt.Some? ==> a.judged <= a.ctx.row.expiresAt.value)
            && a.begun - ttl <= a.ctx.cachedAt <= a.at && Stood(s.changes, a.key, a.ctx.row, a.ctx.cachedAt)
  {
    RunKeepsInv(ttl, Init(now, rows), es);
    var s := Exec(ttl, Init(now, rows), es).value;
    assert AnswerOk(ttl, s, s.answers[i]);
  }

  // ---------------------------------------------------------------- invalidation

  /** A call that queried the table before change `n` and has yet to fill the cache, with a context still good. */
  predicate Pending(ttl: nat, now: int, pc: Thread, key: string, n: nat) {
    pc.Put? && pc.key == key && pc.ctx.seen < n && IsValid(pc.ctx.row, now) && !Stale(pc.ctx, now, ttl)
  }

  ghost predicate AnyPending(ttl: nat, s: State, key: string, n: nat) {
    exists t :: 0 <= t < |s.threads| && Pending(ttl, s.now, s.threads[t], key, n)
  }

  /** Contexts for the key that reflect the table before change `n` come from calls that were pending. */
  predicate FromPending(ttl: nat, base: State, key: string, n: nat, ctx: Context) {
    ctx.seen >= n || exists t ::
      0 <= t < |base.threads| && base.threads[t].Put? && base.threads[t].key == key &&
      base.threads[t].ctx == ctx
  }

  /** What holds after the invalidation in state `base`, for the calls that began later. */
  predicate Since(ttl: nat, base: State, key: string, n: nat, s: State) {
    && base.now <= s.now && n < |s.changes| && |base.threads| <= |s.threads|
    && (key in s.cache ==> FromPending(ttl, base, key, n, s.cache[key]))
    && (forall t :: 0 <= t < |s.threads| && s.threads[t].Put? && s.threads[t].key == key ==>
        FromPending(ttl, base, key, n, s.threads[t].ctx))
    && (forall t :: |base.threads| <= t < |s.threads| ==> LaterOk(ttl, base, key, n, s.threads[t]))
    && (forall i :: 0 <= i < |s.answers| && s.answers[i].caller >= |base.threads| && s.answers[i].key == key ==>
          s.answers[i].ctx.seen >= n || Explained(ttl, base, key, s.answers[i].ctx))
  }

  predicate LaterOk(ttl: nat, base: State, key: string, n: nat, pc: Thread) {
    && (pc.Assess? && pc.key == key ==> base.now <= pc.looked && FromPending(ttl, base, key, n, pc.ctx))
    && (pc.Put? && pc.key == key ==> pc.ctx.seen >= n)
  }

  /** The context is that of a call that was pending, with a context still good, when the key was invalidated. */
  predicate Explained(ttl: nat, base: State, key: string, ctx: Context) {
    exists t :: 0 <= t < |base.threads| && base.threads[t].Put? && base.threads[t].key == key &&
      base.threads[t].ctx == ctx
                && IsValid(ctx.row, base.now) && !Stale(ctx, base.now, ttl)
  }

  lemma SinceStep(ttl: nat, base: State, key: string, n: nat, s: State, e: Event)
    requires Inv(ttl, s) && Since(ttl, base, key, n, s) && Enabled(s, e)
    ensures Since(ttl, base, key, n, Step(ttl, s, e))
  {
    hide ContextOk, AnswerOk, Judge, IsValid;
    if e.Run? {
      assert ThreadOk(ttl, s, s.threads[e.thread]);
      hide Inv;
      SinceThread(ttl, base, key, n, s, e.thread);
    } else {
      hide FromPending, Explained;
    }
  }

  /** What a later call was answered with is explained by where the cached context came from. */
  lemma AssessedExplained(ttl: nat, base: State, key: string, n: nat, s: State, pc: Thread)
    requires pc.Assess? && pc.key == key && LaterOk(ttl, base, key, n, pc) && ThreadOk(ttl, s, pc)
    requires base.now <= s.now && IsValid(pc.ctx.row, s.now)
    ensures pc.ctx.seen >= n || Explained(ttl, base, key, pc.ctx)
  {
  }

  lemma SinceThread(ttl: nat, base: State, key: string, n: nat, s: State, t: nat)
    requires Since(ttl, base, key, n, s) && t < |s.threads| && s.changes != [] && ThreadOk(ttl, s, s.threads[t])
    ensures Since(ttl, base, key, n, RunThread(ttl, s, t))
  {
    var pc := s.threads[t];
    if pc.Assess? && pc.key == key && t >= |base.threads| && IsValid(pc.ctx.row, s.now) {
      AssessedExplained(ttl, base, key, n, s, pc);
    }
    if pc.Query? && Judge(Current(s, pc.key), s.now).Granted? {
      CurrentSeen(ttl, base, key, n, s, Current(s, pc.key).value);
    }
    hide FromPending, Explained, ContextOk, AnswerOk, Judge, IsValid, ThreadOk, Stale;
  }

  /** A query from now on sees change `n` or a later one. */
  lemma CurrentSeen(ttl: nat, base: State, key: string, n: nat, s: State, row: Row)
    requires n < |s.changes|
    ensures FromPending(ttl, base, key, n, Context(row, s.now, |s.changes| - 1))
  {
  }

  lemma {:induction false} SinceRun(ttl: nat, base: State, key: string, n: nat, s: State, es: seq<Event>)
    requires Inv(ttl, s) && Since(ttl, base, key, n, s) && Exec(ttl, s, es).Some?
    ensures Since(ttl, base, key, n, Exec(ttl, s, es).value)
    decreases |es|
  {
    hide Inv, Since, Step, Enabled;
    if es != [] {
      StepKeepsInv(ttl, s, es[0]);
      SinceStep(ttl, base, key, n, s, es[0]);
      SinceRun(ttl, base, key, n, Step(ttl, s, es[0]), es[1..]);
    }
  }

  /** Some call that begins after the invalidation is answered with the table as it was before change `n`. */
  ghost predicate CanAnswerOld(ttl: nat, s: State, key: string, n: nat) {
    exists es :: AnswersOld(ttl, s, key, n, es)
  }

  ghost predicate AnswersOld(ttl: nat, s: State, key: string, n: nat, es: seq<Event>) {
    var s' := Exec(ttl, s, [Invalidate(key)] + es);
    s'.Some? && exists i :: 0 <= i < |s'.value.answers| &&
                              var a := s'.value.answers[i];
                              a.caller >= |s.threads| && a.key == key && a.ctx.seen < n
  }

  /** The run that shows it: the pending call fills the cache, and a new call finds that. */
  function Late(key: string, t: nat, n: nat): seq<Event> {
    [Run(t), Authenticate(key), Run(n), Run(n)]
  }

  lemma PendingAnswersOld(ttl: nat, s: State, key: string, n: nat, t: nat)
    requires Inv(ttl, s) && t < |s.threads| && Pending(ttl, s.now, s.threads[t], key, n)
    ensures AnswersOld(ttl, s, key, n, Late(key, t, |s.threads|))
  {
    var es, m, ctx := [Invalidate(key)] + Late(key, t, |s.threads|), |s.threads|, s.threads[t].ctx;
    var s1 := Step(ttl, s, es[0]);
    var s2 := Step(ttl, s1, es[1]);
    var s3 := Step(ttl, s2, es[2]);
    var s4 := Step(ttl, s3, es[3]);
    assert s3.threads[m] == Look(key, s.now) && s3.cache[key] == ctx;
    assert s4.threads[m] == Assess(key, s.now, s.now, ctx);
    var s5 := Step(ttl, s4, es[4]);
    assert s5.answers[|s5.answers| - 1] == Answer(m, key, ctx, s.now, s.now, s.now);
    ExecOne(ttl, s4, es[4..]);
    ExecOne(ttl, s3, es[3..]);
    ExecOne(ttl, s2, es[2..]);
    ExecOne(ttl, s1, es[1..]);
    ExecOne(ttl, s, es);
  }

  lemma ExecOne(ttl: nat, s: State, es: seq<Event>)
    requires es != [] && Enabled(s, es[0])
    ensures Exec(ttl, s, es) == Exec(ttl, Step(ttl, s, es[0]), es[1..])
  {
  }

  /** After an invalidation, a call that begins later can be answered from before it if and only if, when the key was
      invalidated, some call had queried the table before the last change and had yet to fill the cache with what
      is still valid and not too old. */
  lemma OldAnswerIff(ttl: nat, s: State, key: string)
    requires Inv(ttl, s)
    ensures CanAnswerOld(ttl, s, key, |s.changes| - 1) <==> AnyPending(ttl, s, key, |s.changes| - 1)
  {
    var n := |s.changes| - 1;
    if t :| 0 <= t < |s.threads| && Pending(ttl, s.now, s.threads[t], key, n) {
      PendingAnswersOld(ttl, s, key, n, t);
    }
    if CanAnswerOld(ttl, s, key, n) {
      var es :| AnswersOld(ttl, s, key, n, es);
      OldAnswerWasPending(ttl, s, key, n, es);
    }
  }

  lemma OldAnswerWasPending(ttl: nat, s: State, key: string, n: nat, es: seq<Event>)
    requires Inv(ttl, s) && n < |s.changes| && AnswersOld(ttl, s, key, n, es)
    ensures AnyPending(ttl, s, key, n)
  {
    var e := Invalidate(key);
    assert ([e] + es)[0] == e && ([e] + es)[1..] == es;
    var s1 := Step(ttl, s, e);
    StepKeepsInv(ttl, s, e);
    SinceStarts(ttl, s, key, n);
    SinceRun(ttl, s, key, n, s1, es);
    var s' := Exec(ttl, s1, es).value;
    var i :| 0 <= i < |s'.answers| && s'.answers[i].caller >= |s.threads| && s'.answers[i].key == key &&
      s'.answers[i].ctx.seen < n;
    hide Inv, Exec;
    assert Explained(ttl, s, key, s'.answers[i].ctx);
    var t :| 0 <= t < |s.threads| && s.threads[t].Put? && s.threads[t].key == key &&
      s.threads[t].ctx == s'.answers[i].ctx
             && IsValid(s'.answers[i].ctx.row, s.now) && !Stale(s'.answers[i].ctx, s.now, ttl);
    assert Pending(ttl, s.now, s.threads[t], key, n);
  }

  lemma SinceStarts(ttl: nat, s: State, key: string, n: nat)
    requires Inv(ttl, s) && n < |s.changes|
    ensures Since(ttl, s, key, n, Step(ttl, s, Invalidate(key)))
  {
    forall t | 0 <= t < |s.threads| && s.threads[t].Put? && s.threads[t].key == key
      ensures FromPending(ttl, s, key, n, s.threads[t].ctx)
    {
    }
    forall i | 0 <= i < |s.answers|
      ensures s.answers[i].caller < |s.threads|
    {
      assert AnswerOk(ttl, s, s.answers[i]);
    }
  }

  /** While no such call is pending, every call after the invalidation, until the table changes again, returns the
      current row. */
  lemma InvalidatedAnswersAreCurrent(ttl: nat, s: State, key: string, es: seq<Event>, i: nat)
    requires Inv(ttl, s) && !AnyPending(ttl, s, key, |s.changes| - 1)
    requires Exec(ttl, s, [Invalidate(key)] + es).Some?
    requires var s' := Exec(ttl, s, [Invalidate(key)] + es).value;
             i < |s'.answers| && s'.answers[i].caller >= |s.threads| && s'.answers[i].key == key &&
               s'.changes == s.changes
    ensures var s' := Exec(ttl, s, [Invalidate(key)] + es).value; Some(s'.answers[i].ctx.row) == Current(s, key)
  {
    var s' := Exec(ttl, s, [Invalidate(key)] + es).value;
    RunKeepsInv(ttl, s, [Invalidate(key)] + es);
    assert AnswerOk(ttl, s', s'.answers[i]);
    if s'.answers[i].ctx.seen < |s.changes| - 1 {
      assert AnswersOld(ttl, s, key, |s.changes| - 1, es);
      OldAnswerWasPending(ttl, s, key, |s.changes| - 1, es);
      assert false;
    }
  }
}
