/** What the calls of Authenticate are told: each one thing, for the right reason, and alone the obvious one. */
module AuthVerdicts {
  import opened AuthCache

  // ---------------------------------------------------------------- every refusal has its reason

  /** The reason for an error in the fields of the row that was found, if one was. */
  predicate Reason(error: Error, row: Option<Row>, now: int) {
    match error
    case MissingApiKey => false
    case SuspendedTenant => row.Some? && row.value.tenantStatus == Suspended
    case RevokedApiKey => row.Some? && row.value.tenantStatus != Suspended && row.value.keyStatus == Revoked
    case ExpiredApiKey =>
      && row.Some? && row.value.tenantStatus != Suspended && row.value.keyStatus != Revoked
      && (row.value.keyStatus == Expired || (row.value.expiresAt.Some? && row.value.expiresAt.value < now))
    case InvalidApiKey =>
      row.Some? ==>
        && row.value.tenantStatus == Deleted && row.value.keyStatus == Usable
        && (row.value.expiresAt.Some? ==> now <= row.value.expiresAt.value)
  }

  lemma DeniedIff(row: Option<Row>, now: int, error: Error)
    ensures Judge(row, now) == Denied(error) <==> Reason(error, row, now)
  {
    GrantedIff(row, now);
    ExpiredIff(row, now);
  }

  /** In every run: a refused call met, at a time during the call, a table in which its key had the reason that it was
      told, or no row at all. */
  lemma RefusalsAreRight(ttl: nat, now: int, rows: map<string, Row>, es: seq<Event>, i: nat)
    requires var s := Exec(ttl, Init(now, rows), es); s.Some? && i < |s.value.refusals|
    ensures var s := Exec(ttl, Init(now, rows), es).value;
            var r := s.refusals[i];
            && r.begun <= r.at <= s.now && r.seen < |s.changes| && s.changes[r.seen].at <= r.at
            && (r.seen + 1 < |s.changes| ==> r.at <= s.changes[r.seen + 1].at)
            && Reason(r.error, RowAt(s, r.seen, r.key), r.at)
  {
    RunKeepsInv(ttl, Init(now, rows), es);
    var s := Exec(ttl, Init(now, rows), es).value;
    assert RefusalOk(s, s.refusals[i]);
    DeniedIff(RowAt(s, s.refusals[i].seen, s.refusals[i].key), s.refusals[i].at, s.refusals[i].error);
  }

  // ---------------------------------------------------------------- every call is told one thing

  ghost predicate Answered(s: State, t: nat) { exists i :: 0 <= i < |s.answers| && s.answers[i].caller == t }

  ghost predicate Refused(s: State, t: nat) { exists i :: 0 <= i < |s.refusals| && s.refusals[i].caller == t }

  /** The calls that have ended are those that were answered and those that were refused, each once. */
  ghost predicate ToldOnce(s: State) {
    && (forall t :: 0 <= t < |s.threads| ==>
          (s.threads[t].Done? <==> Answered(s, t) || Refused(s, t)) && !(Answered(s, t) && Refused(s, t)))
    && (forall i, j :: 0 <= i < j < |s.answers| ==> s.answers[i].caller != s.answers[j].caller)
    && (forall i, j :: 0 <= i < j < |s.refusals| ==> s.refusals[i].caller != s.refusals[j].caller)
  }

  /** One more call has ended, or none. */
  lemma OneMoreTold(s: State, s': State, t: nat)
    requires ToldOnce(s) && t < |s.threads| && !s.threads[t].Done? && |s'.threads| == |s.threads|
    requires forall u :: 0 <= u < |s.threads| && u != t ==> s'.threads[u] == s.threads[u]
    requires
      || (!s'.threads[t].Done? && s'.answers == s.answers && s'.refusals == s.refusals)
      || (s'.threads[t].Done? && s'.refusals == s.refusals && |s'.answers| == |s.answers| + 1
          && s'.answers[..|s.answers|] == s.answers && s'.answers[|s.answers|].caller == t)
      || (s'.threads[t].Done? && s'.answers == s.answers && |s'.refusals| == |s.refusals| + 1
          && s'.refusals[..|s.refusals|] == s.refusals && s'.refusals[|s.refusals|].caller == t)
    ensures ToldOnce(s')
  {
    assert !Answered(s, t) && !Refused(s, t);
    assert forall i :: 0 <= i < |s.answers| ==> s'.answers[i] == s'.answers[..|s.answers|][i];
    assert forall i :: 0 <= i < |s.refusals| ==> s'.refusals[i] == s'.refusals[..|s.refusals|][i];
    forall u | 0 <= u < |s.threads|
      ensures Answered(s', u) <==> Answered(s, u) || (u == t && |s'.answers| > |s.answers|)
      ensures Refused(s', u) <==> Refused(s, u) || (u == t && |s'.refusals| > |s.refusals|)
    {
    }
  }

  lemma StepTellsOnce(ttl: nat, s: State, e: Event)
    requires Inv(ttl, s) && ToldOnce(s) && Enabled(s, e)
    ensures ToldOnce(Step(ttl, s, e))
  {
    if e.Run? {
      hide Judge, Stale, Inv, ToldOnce;
      OneMoreTold(s, Step(ttl, s, e), e.thread);
    } else if e.Authenticate? {
      NewIsUntold(ttl, s, Step(ttl, s, e));
    }
  }

  lemma NewIsUntold(ttl: nat, s: State, s': State)
    requires Inv(ttl, s) && ToldOnce(s) && s'.answers == s.answers && s'.refusals == s.refusals
    requires |s'.threads| == |s.threads| + 1 && s'.threads[..|s.threads|] == s.threads
    requires !s'.threads[|s.threads|].Done?
    ensures ToldOnce(s')
  {
    forall i | 0 <= i < |s.answers|
      ensures s.answers[i].caller < |s.threads|
    {
      assert AnswerOk(ttl, s, s.answers[i]);
    }
    forall i | 0 <= i < |s.refusals|
      ensures s.refusals[i].caller < |s.threads|
    {
      assert RefusalOk(s, s.refusals[i]);
    }
    hide Inv;
    forall t | 0 <= t < |s.threads|
      ensures s'.threads[t] == s.threads[t] && (Answered(s', t) <==> Answered(s, t))
      ensures (Refused(s', t) <==> Refused(s, t))
    {
      assert s'.threads[..|s.threads|][t] == s.threads[t];
    }
  }

  lemma {:induction false} RunTellsOnce(ttl: nat, s: State, es: seq<Event>)
    requires Inv(ttl, s) && ToldOnce(s) && Exec(ttl, s, es).Some?
    ensures ToldOnce(Exec(ttl, s, es).value)
    decreases |es|
  {
    hide Inv, ToldOnce, Step, Enabled;
    if es != [] {
      StepKeepsInv(ttl, s, es[0]);
      StepTellsOnce(ttl, s, es[0]);
      RunTellsOnce(ttl, Step(ttl, s, es[0]), es[1..]);
    }
  }

  /** In every run a call that has ended was either answered or refused, once; one under way neither. */
  lemma OneVerdict(ttl: nat, now: int, rows: map<string, Row>, es: seq<Event>, t: nat)
    requires var s := Exec(ttl, Init(now, rows), es); s.Some? && t < |s.value.threads|
    ensures var s := Exec(ttl, Init(now, rows), es).value;
            && (s.threads[t].Done? <==> Answered(s, t) || Refused(s, t)) && !(Answered(s, t) && Refused(s, t))
            && (forall i, j :: 0 <= i < j < |s.answers| ==> s.answers[i].caller != s.answers[j].caller)
            && (forall i, j :: 0 <= i < j < |s.refusals| ==> s.refusals[i].caller != s.refusals[j].caller)
  {
    RunTellsOnce(ttl, Init(now, rows), es);
  }

  // ---------------------------------------------------------------- a call that runs alone

  /** An active tenant, a usable key, and an end that is not past. */
  predicate InOrder(row: Row, now: int) {
    && row.tenantStatus == Active && row.keyStatus == Usable
    && (row.expiresAt.Some? ==> now <= row.expiresAt.value)
  }

  /** The key has an entry in the cache that is not too old. */
  predicate Cached(ttl: nat, s: State, key: string) { key in s.cache && s.now - s.cache[key].cachedAt <= ttl }

  /** From every state, a call that runs alone: it is answered from the cache if the entry is young and in order, else
      from the table, which then fills the cache; or it is refused for the reason in the table.  A young entry that is
      not in order is removed; a refused call leaves an old one where it is. */
  lemma LoneCall(ttl: nat, s: State, key: string) returns (es: seq<Event>, s': State)
    requires Inv(ttl, s)
    ensures Exec(ttl, s, [Authenticate(key)] + es) == Some(s') && s'.now == s.now && s'.changes == s.changes
    ensures s'.threads == s.threads + [Done]
    ensures var n, row := |s.threads|, Current(s, key);
            if Cached(ttl, s, key) && InOrder(s.cache[key].row, s.now) then
              && s'.answers == s.answers + [Answer(n, key, s.cache[key], s.now, s.now, s.now)]
              && s'.refusals == s.refusals && s'.cache == s.cache
            else if row.Some? && InOrder(row.value, s.now) then
              var ctx := Context(row.value, s.now, |s.changes| - 1);
              && s'.answers == s.answers + [Answer(n, key, ctx, s.now, s.now, s.now)]
              && s'.refusals == s.refusals && s'.cache == s.cache[key := ctx]
            else
              && s'.answers == s.answers && s'.cache == (if Cached(ttl, s, key) then s.cache - {key} else s.cache)
              && |s'.refusals| == |s.refusals| + 1 && s'.refusals[..|s.refusals|] == s.refusals
              && var r := s'.refusals[|s.refusals|];
                 r == Refusal(n, key, r.error, s.now, s.now, |s.changes| - 1) && Reason(r.error, row, s.now)
  {
    assert s.changes != [];
    hide Inv, Judge, Reason, InOrder;
    var n, s1 := |s.threads|, Step(ttl, s, Authenticate(key));
    assert s1.threads[n] == Look(key, s.now);
    es, s' := AskCache(ttl, s1, n, key, s.now);
    ExecStep(ttl, s, Authenticate(key), es);
    assert s'.threads == s.threads + [Done];
  }

  /** A call from its look into the cache to its end. */
  lemma AskCache(ttl: nat, s: State, n: nat, key: string, begun: int) returns (es: seq<Event>, s': State)
    requires s.changes != [] && n < |s.threads| && s.threads[n] == Look(key, begun)
    ensures Exec(ttl, s, es) == Some(s') && s'.now == s.now && s'.changes == s.changes
    ensures s'.threads == s.threads[n := Done]
    ensures if Cached(ttl, s, key) && InOrder(s.cache[key].row, s.now) then
              && s'.answers == s.answers + [Answer(n, key, s.cache[key], begun, s.now, s.now)]
              && s'.refusals == s.refusals && s'.cache == s.cache
            else
              AskedTable(s, if Cached(ttl, s, key) then s.cache - {key} else s.cache, n, key, begun, s')
  {
    hide Exec, Reason, Judge;
    var s1 := RunThread(ttl, s, n);
    if Cached(ttl, s, key) {
      var s2 := RunThread(ttl, s1, n);
      if InOrder(s.cache[key].row, s.now) {
        es, s' := [Run(n), Run(n)], s2;
        ExecTwo(ttl, s, n, s1, s2, []);
        ExecNone(ttl, s2);
        assert es == [Run(n), Run(n)] + [];
      } else {
        var s3 := RunThread(ttl, s2, n);
        var rest;
        rest, s' := AskTable(ttl, s3, n, key, begun);
        es := [Run(n), Run(n)] + ([Run(n)] + rest);
        ExecStep(ttl, s2, Run(n), rest);
        ExecTwo(ttl, s, n, s1, s2, [Run(n)] + rest);
      }
    } else {
      var rest;
      rest, s' := AskTable(ttl, s1, n, key, begun);
      es := [Run(n)] + rest;
      ExecStep(ttl, s, Run(n), rest);
    }
  }

  lemma ExecNone(ttl: nat, s: State)
    ensures Exec(ttl, s, []) == Some(s)
  {
  }

  /** Call `n` was answered from the table, or refused; `cache` is the cache that it left before it asked. */
  ghost predicate AskedTable(s: State, cache: map<string, Context>, n: nat, key: string, begun: int, s': State)
    requires s.changes != []
  {
    var row := Current(s, key);
    if row.Some? && InOrder(row.value, s.now) then
      var ctx := Context(row.value, s.now, |s.changes| - 1);
      && s'.answers == s.answers + [Answer(n, key, ctx, begun, s.now, s.now)]
      && s'.refusals == s.refusals && s'.cache == cache[key := ctx]
    else
      && s'.answers == s.answers && s'.cache == cache
      && |s'.refusals| == |s.refusals| + 1 && s'.refusals[..|s.refusals|] == s.refusals
      && var r := s'.refusals[|s.refusals|];
         r == Refusal(n, key, r.error, begun, s.now, |s.changes| - 1) && Reason(r.error, row, s.now)
  }

  lemma ExecStep(ttl: nat, s: State, e: Event, es: seq<Event>)
    requires Enabled(s, e)
    ensures Exec(ttl, s, [e] + es) == Exec(ttl, Step(ttl, s, e), es)
  {
    assert ([e] + es)[1..] == es;
  }

  lemma ExecTwo(ttl: nat, s: State, n: nat, s1: State, s2: State, es: seq<Event>)
    requires Enabled(s, Run(n)) && s1 == RunThread(ttl, s, n) && Enabled(s1, Run(n)) && s2 == RunThread(ttl, s1, n)
    ensures Exec(ttl, s, [Run(n), Run(n)] + es) == Exec(ttl, s2, es)
  {
    ExecStep(ttl, s1, Run(n), es);
    ExecStep(ttl, s, Run(n), [Run(n)] + es);
    assert [Run(n), Run(n)] + es == [Run(n)] + ([Run(n)] + es);
  }

  /** The part of a call that queries the table, and fills the cache if the key is in order. */
  lemma AskTable(ttl: nat, s: State, n: nat, key: string, begun: int) returns (es: seq<Event>, s': State)
    requires s.changes != [] && n < |s.threads| && s.threads[n] == Query(key, begun)
    ensures Exec(ttl, s, es) == Some(s') && s'.now == s.now && s'.changes == s.changes
    ensures s'.threads == s.threads[n := Done]
    ensures AskedTable(s, s.cache, n, key, begun, s')
  {
    var row, s1 := Current(s, key), RunThread(ttl, s, n);
    GrantedIff(row, s.now);
    if row.Some? && InOrder(row.value, s.now) {
      var s2 := RunThread(ttl, s1, n);
      es, s' := [Run(n), Run(n)], s2;
      ExecTwo(ttl, s, n, s1, s2, []);
      assert es == [Run(n), Run(n)] + [];
    } else {
      DeniedIff(row, s.now, Judge(row, s.now).error);
      es, s' := [Run(n)], s1;
      ExecStep(ttl, s, Run(n), []);
      assert es == [Run(n)] + [];
    }
  }

  /** A cleanup drops exactly the entries that are too old, so it changes no answer: those would not be used. */
  lemma CleanupChangesNothing(ttl: nat, s: State, key: string)
    requires Enabled(s, Cleanup)
    ensures var s' := Step(ttl, s, Cleanup);
            && (key in s'.cache <==> Cached(ttl, s, key)) && (key in s'.cache ==> s'.cache[key] == s.cache[key])
            && (Cached(ttl, s', key) <==> Cached(ttl, s, key)) && s'.answers == s.answers && s'.refusals == s.refusals
  {
  }
}
