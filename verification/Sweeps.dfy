/** One sweep and its workers as a labelled transition system, while news items come,
    go and change scope, leases expire and workers crash or fail. */
module Sweeps {
  import opened Options
  import opened Rematerialization
  import opened Sorting

  datatype Settings = Settings(leaseSeconds: nat, cooldown: nat, batchSize: nat)

  /** What a worker does: nothing, a chunk it has claimed, or recording a failure. */
  datatype Work = Idle | Chunking | Failing
  datatype Worker = Worker(owner: int, work: Work)

  /** `live` are the news items that are not deleted, `scope` those the sweep concerns;
      `steady` are those that have been both ever since the sweep was asked for. */
  datatype State = State(
    job: Job, live: set<NewsId>, scope: set<NewsId>, steady: set<NewsId>, workers: map<int, Worker>, clock: int)

  datatype Action =
    | AddNews(n: NewsId)
    | DeleteNews(n: NewsId)
    | Rescope(scope: set<NewsId>)
    | StartWorker(w: int, owner: int)
    | Claim(w: int, now: int)
    | Chunk(w: int, ids: seq<NewsId>, gone: set<NewsId>, now: int)
    | Break(w: int)
    | Retry(w: int, now: int)

  function Begin(live: set<NewsId>, scope: set<NewsId>, now: int): State {
    State(Job(Pending, None, None, now, 0, None, []), live, scope, live * scope, map[], now)
  }

  predicate Past(cursor: Option<NewsId>, n: NewsId) {
    cursor == None || n > cursor.value
  }

  predicate Less(a: NewsId, b: NewsId) {
    a < b
  }

  /** What the query finds: the first so many ids above the cursor. */
  ghost predicate IsChunk(s: State, ids: seq<NewsId>, batchSize: nat) {
    && |ids| <= batchSize && Strict(Less, ids)
    && (forall n | n in ids :: n in s.live && n in s.scope && Past(s.job.cursor, n))
    && (forall n | n in s.live && n in s.scope && Past(s.job.cursor, n) ::
          n in ids || (|ids| == batchSize && ids != [] && n > ids[|ids| - 1]))
  }

  ghost predicate Enabled(s: State, a: Action, c: Settings) {
    match a
    case AddNews(n) => n !in s.live
    case DeleteNews(_) => true
    case Rescope(_) => true
    case StartWorker(_, _) => true
    case Claim(w, now) =>
      w in s.workers && s.workers[w].work == Idle && s.clock <= now && Claimable(s.job, now)
    case Chunk(w, ids, gone, now) =>
      && w in s.workers && s.workers[w].work == Chunking && s.clock <= now
      && (Held(s.job, s.workers[w].owner) ==> IsChunk(s, ids, c.batchSize))
    case Break(w) => w in s.workers && s.workers[w].work == Chunking
    case Retry(w, now) => w in s.workers && s.workers[w].work == Failing && s.clock <= now
  }

  function Doing(s: State, w: int, work: Work): State
    requires w in s.workers
  {
    s.(workers := s.workers[w := s.workers[w].(work := work)])
  }

  ghost function Next(s: State, a: Action, c: Settings): State
    requires Enabled(s, a, c)
  {
    match a
    case AddNews(n) => s.(live := s.live + {n})
    case DeleteNews(n) => s.(live := s.live - {n}, steady := s.steady - {n})
    case Rescope(scope) => s.(scope := scope, steady := s.steady * scope)
    case StartWorker(w, owner) => s.(workers := s.workers[w := Worker(owner, Idle)])
    case Claim(w, now) =>
      Doing(s, w, Chunking).(job := Claimed(s.job, s.workers[w].owner, now, c.leaseSeconds), clock := now)
    case Chunk(w, ids, gone, now) =>
      Doing(s, w, Idle).(job := Chunked(s.job, s.workers[w].owner, ids, gone, now),
                         live := s.live - gone, steady := s.steady - gone, clock := now)
    case Break(w) => Doing(s, w, Failing)
    case Retry(w, now) =>
      Doing(s, w, Idle).(job := Retried(s.job, s.workers[w].owner, now, c.cooldown), clock := now)
  }

  // ---- the invariant ----

  ghost predicate Inv(s: State, c: Settings) {
    && Strict(Less, s.job.done)
    && (forall n | n in s.job.done :: !Past(s.job.cursor, n))
    && (forall n | n in s.steady :: n in s.live && n in s.scope)
    && (forall n | n in s.steady :: n in s.job.done || Past(s.job.cursor, n))
    && (s.job.status == Succeeded ==> forall n | n in s.steady :: n in s.job.done)
    && (s.job.status == Running ==> s.job.lease.Some? && s.job.lease.value <= s.clock + c.leaseSeconds)
    && s.job.available <= s.clock + c.cooldown
  }

  lemma {:induction false} LeftIn(ids: seq<NewsId>, gone: set<NewsId>)
    requires Strict(Less, ids)
    ensures forall n :: n in Left(ids, gone) <==> n in ids && n !in gone
    ensures Strict(Less, Left(ids, gone))
  {
    if ids != [] {
      var x, rest := ids[0], ids[1..];
      LeftIn(rest, gone);
      assert ids == [x] + rest;
      forall n | n in Left(rest, gone)
        ensures x < n
      {
        var i :| 0 <= i < |rest| && rest[i] == n;
        assert Less(ids[0], ids[i + 1]);
      }
      AppendedStrict([x], Left(rest, gone));
      assert [] + Left(rest, gone) == Left(rest, gone);
    }
  }

  lemma AppendedStrict(done: seq<NewsId>, more: seq<NewsId>)
    requires Strict(Less, done) && Strict(Less, more)
    requires forall a, b | a in done && b in more :: a < b
    ensures Strict(Less, done + more)
  {
    var all := done + more;
    forall i, j | 0 <= i < j < |all|
      ensures Less(all[i], all[j])
    {
      if i < |done| <= j {
        assert all[i] in done && all[j] in more;
      }
    }
  }

  lemma LastIsMost(ids: seq<NewsId>)
    requires ids != [] && Strict(Less, ids)
    ensures forall n | n in ids :: n <= ids[|ids| - 1]
  {
    forall n | n in ids
      ensures n <= ids[|ids| - 1]
    {
      var i :| 0 <= i < |ids| && ids[i] == n;
      assert i < |ids| - 1 ==> Less(ids[i], ids[|ids| - 1]);
    }
  }

  lemma ChunkKeeps(s: State, a: Action, c: Settings)
    requires Inv(s, c) && Enabled(s, a, c) && a.Chunk?
    ensures Inv(Next(s, a, c), c)
  {
    if Held(s.job, s.workers[a.w].owner) && a.ids != [] {
      LeftIn(a.ids, a.gone);
      LastIsMost(a.ids);
      AppendedStrict(s.job.done, Left(a.ids, a.gone));
      var s' := Next(s, a, c);
      forall n | n in s'.job.done
        ensures !Past(s'.job.cursor, n)
      {
        if n in s.job.done {
          assert a.ids[|a.ids| - 1] in a.ids;
        } else {
          assert n in Left(a.ids, a.gone);
        }
      }
      forall n | n in s'.steady
        ensures n in s'.job.done || Past(s'.job.cursor, n)
      {
        assert n in s.steady;
      }
    }
  }

  lemma StepKeepsInv(s: State, a: Action, c: Settings)
    requires Inv(s, c) && Enabled(s, a, c)
    ensures Inv(Next(s, a, c), c)
  {
    if a.Chunk? {
      ChunkKeeps(s, a, c);
    }
  }

  ghost predicate Leads(s: State, acts: seq<Action>, t: State, c: Settings)
    decreases |acts|
  {
    if acts == [] then t == s
    else Enabled(s, acts[0], c) && Leads(Next(s, acts[0], c), acts[1..], t, c)
  }

  ghost predicate Reachable(live: set<NewsId>, scope: set<NewsId>, now: int, s: State, c: Settings) {
    exists acts :: Leads(Begin(live, scope, now), acts, s, c)
  }

  lemma {:induction false} RunKeepsInv(s: State, acts: seq<Action>, t: State, c: Settings)
    requires Inv(s, c) && Leads(s, acts, t, c)
    ensures Inv(t, c)
    decreases |acts|
  {
    hide Inv, Next, Enabled;
    if acts != [] {
      StepKeepsInv(s, acts[0], c);
      RunKeepsInv(Next(s, acts[0], c), acts[1..], t, c);
    }
  }

  lemma ReachableInv(live: set<NewsId>, scope: set<NewsId>, now: int, s: State, c: Settings)
    requires Reachable(live, scope, now, s, c)
    ensures Inv(s, c)
  {
    var acts :| Leads(Begin(live, scope, now), acts, s, c);
    RunKeepsInv(Begin(live, scope, now), acts, s, c);
  }

  // ---- the theorems ----

  lemma StrictCounts(done: seq<NewsId>, n: NewsId)
    requires Strict(Less, done)
    ensures multiset(done)[n] == if n in done then 1 else 0
  {
    assert Distinct(done);
    DistinctCounts(done, n);
    assert n in done <==> n in multiset(done);
  }

  /** Through any claims, crashes, takeovers and retries no news item is recomputed
      twice, and once the sweep has succeeded every one that was live and in scope all
      along was recomputed exactly once. */
  lemma SweptExactlyOnce(live: set<NewsId>, scope: set<NewsId>, now: int, s: State, c: Settings, n: NewsId)
    requires Reachable(live, scope, now, s, c)
    ensures multiset(s.job.done)[n] <= 1
    ensures s.job.status == Succeeded && n in s.steady ==> multiset(s.job.done)[n] == 1
  {
    ReachableInv(live, scope, now, s, c);
    StrictCounts(s.job.done, n);
  }

  /** What was there from the start stays counted until it is deleted or leaves the scope. */
  lemma {:induction false} SteadyUntilGone(s: State, acts: seq<Action>, t: State, c: Settings, n: NewsId)
    requires Leads(s, acts, t, c) && n in s.steady
    requires forall i | 0 <= i < |acts| :: Spares(acts[i], n)
    ensures n in t.steady
    decreases |acts|
  {
    if acts != [] {
      assert Spares(acts[0], n);
      assert forall i | 0 <= i < |acts[1..]| :: acts[1..][i] == acts[i + 1];
      SteadyUntilGone(Next(s, acts[0], c), acts[1..], t, c, n);
    }
  }

  predicate Spares(a: Action, n: NewsId) {
    match a
    case DeleteNews(m) => m != n
    case Rescope(scope) => n in scope
    case Chunk(_, _, gone, _) => n !in gone
    case _ => true
  }

  /** The ids the sweep has still to look at. */
  function Ahead(s: State): set<NewsId> {
    set n | n in s.live && Past(s.job.cursor, n)
  }

  /** The measure: a chunk ends the sweep or leaves strictly fewer ids ahead, and only
      the arrival of a news item ever adds one. */
  lemma ChunkMakesProgress(s: State, a: Action, c: Settings)
    requires Inv(s, c) && Enabled(s, a, c) && s.job.status != Succeeded
    ensures var s' := Next(s, a, c);
            && (!a.AddNews? ==> Ahead(s') <= Ahead(s))
            && (a.Chunk? && Held(s.job, s.workers[a.w].owner) ==>
                  s'.job.status == Succeeded || Ahead(s') < Ahead(s))
  {
    if a.Chunk? && Held(s.job, s.workers[a.w].owner) && a.ids != [] {
      LastIsMost(a.ids);
      var last := a.ids[|a.ids| - 1];
      assert last in a.ids && last in Ahead(s) && last !in Ahead(Next(s, a, c));
    }
  }

  /** What the next chunk can still find. */
  function Matching(s: State): set<NewsId> {
    set n | n in Ahead(s) && n in s.scope
  }

  lemma {:induction false} StrictSize(ids: seq<NewsId>)
    requires Strict(Less, ids)
    ensures |set n | n in ids| == |ids|
  {
    if ids != [] {
      var x, rest := ids[0], ids[1..];
      forall i, j | 0 <= i < j < |rest|
        ensures Less(rest[i], rest[j])
      {
        assert Less(ids[i + 1], ids[j + 1]);
      }
      StrictSize(rest);
      assert ids == [x] + rest;
      forall i | 0 <= i < |rest|
        ensures rest[i] != x
      {
        assert Less(ids[0], ids[i + 1]);
      }
      assert (set n | n in ids) == {x} + (set n | n in rest);
    }
  }

  lemma Within(a: set<NewsId>, b: set<NewsId>)
    requires a <= b
    ensures |a| <= |b| && (a == b || |a| < |b|)
  {
    assert b == a + (b - a);
    assert a != b ==> b - a != {};
  }

  /** A chunk held by its claim takes as many of the remaining ids as a batch allows, the
      lowest ones; the sweep ends exactly if none remained. */
  lemma ChunkIsFull(s: State, a: Action, c: Settings)
    requires Enabled(s, a, c) && a.Chunk? && Held(s.job, s.workers[a.w].owner) && c.batchSize > 0
    ensures |a.ids| == if |Matching(s)| < c.batchSize then |Matching(s)| else c.batchSize
    ensures forall n, m | n in a.ids && m in Matching(s) && m !in a.ids :: n < m
    ensures Next(s, a, c).job.status == Succeeded <==> Matching(s) == {}
  {
    var taken := set n | n in a.ids;
    StrictSize(a.ids);
    Within(taken, Matching(s));
    if a.ids != [] {
      LastIsMost(a.ids);
      assert a.ids[0] in Matching(s);
    }
    if |a.ids| < c.batchSize {
      forall n
        ensures n in taken <==> n in Matching(s)
      {
        ShortChunkTakesAll(s, a, c, n);
      }
      assert taken == Matching(s);
    }
  }

  lemma ShortChunkTakesAll(s: State, a: Action, c: Settings, n: NewsId)
    requires Enabled(s, a, c) && a.Chunk? && Held(s.job, s.workers[a.w].owner) && |a.ids| < c.batchSize
    ensures n in a.ids <==> n in Matching(s)
  {
  }

  /** A chunk that breaks is rolled back: the failure hands the job back as it was, to be
      taken up at the same cursor after the cooldown. */
  lemma BrokenChunkIsRetried(s: State, w: int, now: int, c: Settings)
    requires Enabled(s, Break(w), c) && s.clock <= now && Held(s.job, s.workers[w].owner)
    ensures var broken := Next(s, Break(w), c);
            && broken.job == s.job && Enabled(broken, Retry(w, now), c)
            && var retried := Next(broken, Retry(w, now), c).job;
               && retried.cursor == s.job.cursor && retried.done == s.job.done
               && forall later :: Claimable(retried, later) <==> now + c.cooldown <= later
  {
  }

  /** A sweep that has succeeded is never taken up again. */
  lemma {:induction false} SucceededForGood(s: State, acts: seq<Action>, t: State, c: Settings)
    requires Leads(s, acts, t, c) && s.job.status == Succeeded
    ensures t.job == s.job
    decreases |acts|
  {
    if acts != [] {
      assert Next(s, acts[0], c).job == s.job;
      SucceededForGood(Next(s, acts[0], c), acts[1..], t, c);
    }
  }

  /** A sweep that has not succeeded can be claimed once a lease and a cooldown have passed. */
  lemma NeverAbandoned(live: set<NewsId>, scope: set<NewsId>, start: int, s: State, c: Settings, now: int)
    requires Reachable(live, scope, start, s, c) && s.job.status != Succeeded
    requires now > s.clock + c.leaseSeconds && now >= s.clock + c.cooldown
    ensures Claimable(s.job, now)
  {
    ReachableInv(live, scope, start, s, c);
  }

  // ---- the sweep can always be finished ----

  ghost predicate CanReach(s: State, t: State, c: Settings) {
    exists acts :: Leads(s, acts, t, c)
  }

  lemma {:induction false} LeadsOn(s: State, acts: seq<Action>, t: State, a: Action, c: Settings)
    requires Leads(s, acts, t, c) && Enabled(t, a, c)
    ensures Leads(s, acts + [a], Next(t, a, c), c)
    decreases |acts|
  {
    hide Enabled, Next;
    if acts == [] {
      assert Leads(Next(t, a, c), ([a])[1..], Next(t, a, c), c);
      assert acts + [a] == [a];
    } else {
      LeadsOn(Next(s, acts[0], c), acts[1..], t, a, c);
      assert (acts + [a])[1..] == acts[1..] + [a];
    }
  }

  lemma Onward(s: State, t: State, a: Action, c: Settings)
    requires CanReach(s, t, c) && Enabled(t, a, c)
    ensures CanReach(s, Next(t, a, c), c)
  {
    hide Enabled, Next;
    var acts :| Leads(s, acts, t, c);
    LeadsOn(s, acts, t, a, c);
  }

  /** The query always has an answer. */
  lemma FirstIds(ids: set<NewsId>, limit: nat) returns (r: seq<NewsId>)
    ensures |r| <= limit && Strict(Less, r) && forall n | n in r :: n in ids
    ensures forall n | n in ids :: n in r || (|r| == limit && (r != [] ==> n > r[|r| - 1]))
    decreases limit
  {
    if ids == {} || limit == 0 {
      return [];
    }
    var n := Lowest(ids);
    var rest := FirstIds(ids - {n}, limit - 1);
    r := [n] + rest;
    forall m | m in rest
      ensures n < m
    {
    }
    AppendedStrict([n], rest);
  }

  /** One worker left alone finishes the sweep. */
  lemma {:induction false} CanFinish(s: State, t: State, c: Settings) returns (u: State)
    requires Inv(t, c) && CanReach(s, t, c) && c.batchSize > 0
    ensures CanReach(s, u, c) && u.job.status == Succeeded && u.live == t.live && u.steady == t.steady
    decreases |Ahead(t)|
  {
    hide CanReach;
    if t.job.status == Succeeded {
      return t;
    }
    var now := t.clock + c.leaseSeconds + c.cooldown + 1;
    var started := Next(t, StartWorker(0, 0), c);
    Onward(s, t, StartWorker(0, 0), c);
    var claimed := Next(started, Claim(0, now), c);
    Onward(s, started, Claim(0, now), c);
    var ids := FirstIds((set n | n in Ahead(t) && n in t.scope), c.batchSize);
    assert Enabled(claimed, Chunk(0, ids, {}, now), c);
    var chunked := Next(claimed, Chunk(0, ids, {}, now), c);
    Onward(s, claimed, Chunk(0, ids, {}, now), c);
    StepKeepsInv(t, StartWorker(0, 0), c);
    StepKeepsInv(started, Claim(0, now), c);
    StepKeepsInv(claimed, Chunk(0, ids, {}, now), c);
    ChunkMakesProgress(claimed, Chunk(0, ids, {}, now), c);
    if chunked.job.status == Succeeded {
      return chunked;
    }
    assert Ahead(claimed) == Ahead(t);
    Shrinks(Ahead(chunked), Ahead(t));
    u := CanFinish(s, chunked, c);
  }

  lemma Shrinks(a: set<NewsId>, b: set<NewsId>)
    requires a < b
    ensures |a| < |b|
  {
    assert b == a + (b - a);
    assert b - a != {};
  }
}
