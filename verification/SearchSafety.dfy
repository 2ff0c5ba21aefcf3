/** What every run of the search protocol keeps. */
module SearchSafety {
  import opened Options
  import opened Projections
  import opened SearchProtocol

  // ---- provenance: which committed states a document was read from ----

  predicate InRange(log: seq<Snapshot>, i: int, lo: nat, hi: nat) {
    0 <= i < |log| && lo <= log[i].revision <= hi && |log[i].parts| == STATEMENTS
  }

  ghost predicate PartSeen(log: seq<Snapshot>, k: nat, v: Option<int>, lo: nat, hi: nat)
    requires k < STATEMENTS
  {
    exists i :: InRange(log, i, lo, hi) && log[i].parts[k] == v
  }

  ghost predicate HeadSeen(log: seq<Snapshot>, head: (nat, nat), lo: nat, hi: nat) {
    exists i :: InRange(log, i, lo, hi) && (log[i].revision, log[i].visibility) == head
  }

  ghost predicate PartsSeen(
    log: seq<Snapshot>, head: (nat, nat), parts: seq<int>, lo: nat, hi: nat)
  {
    && |parts| <= STATEMENTS
    && (|parts| > 0 ==> HeadSeen(log, head, lo, hi))
    && forall k | 0 <= k < |parts| :: PartSeen(log, k, Some(parts[k]), lo, hi)
  }

  /** Every part of `c`, or the answer that made it absent, was read while the
      news was at a revision in lo..hi. */
  ghost predicate ReadWithin(log: seq<Snapshot>, c: Content, lo: nat, hi: nat) {
    match c
    case Absent => exists k :: 0 <= k < STATEMENTS && PartSeen(log, k, None, lo, hi)
    case Present(d) =>
      |d.parts| == STATEMENTS && PartsSeen(log, (d.revision, d.visibility), d.parts, lo, hi)
  }

  // ---- the invariant ----

  ghost predicate GoodLog(log: seq<Snapshot>) {
    && |log| > 0
    && (forall i | 0 <= i < |log| ::
          |log[i].parts| == STATEMENTS && log[i].revision >= 1 && log[i].visibility >= 1)
    && (forall i, j | 0 <= i <= j < |log| ::
          && log[i].revision <= log[j].revision
          && log[j].visibility - log[i].visibility == log[j].revision - log[i].revision)
  }

  /** No accepted task that has yet to run can change what is served for `n`. */
  ghost predicate Settled(s: State, n: NewsId) {
    forall j | |s.outcomes| <= j < |s.tasks| :: !Affects(s.tasks[j], n)
  }

  /** The index serves for `n` what was read at revision `r`, and will go on doing so. */
  ghost predicate Certified(s: State, n: NewsId, r: nat)
    requires n in s.log
  {
    Settled(s, n) && ReadWithin(s.log[n], Served(s, n), r, r)
  }

  function Written(t: Task, n: NewsId): Content {
    if t.Put? then ContentIn(t.docs, n) else Absent
  }

  predicate Indexes(t: Task, n: NewsId) {
    (t.Put? && t.index == MAIN && t.docs.Keys == {n}) || t == Delete(MAIN, n)
  }

  /** Task `t` is the last word on `n`, read at revision `lo` or later. */
  ghost predicate TaskFor(s: State, n: NewsId, t: nat, lo: nat)
    requires n in s.log && |s.log[n]| > 0
  {
    && t < |s.tasks| && Indexes(s.tasks[t], n)
    && (forall j | t < j < |s.tasks| :: !Affects(s.tasks[j], n))
    && ReadWithin(s.log[n], Written(s.tasks[t], n), lo, Now(s.log[n]).revision)
    && (Done(s, t) ==> Served(s, n) == Written(s.tasks[t], n))
  }

  ghost predicate RowGood(s: State, n: NewsId)
    requires n in s.rows && n in s.log && GoodLog(s.log[n])
  {
    var p := s.rows[n];
    var news := Now(s.log[n]);
    && p.updated <= s.clock
    && p.indexed <= p.desired <= news.revision && p.desired >= 1
    && (p.status == Ready ==> p.indexed == p.desired)
    && (p.status == Failed || p.status == Indexing ==> p.indexed < p.desired)
    && (p.indexed == 0 ==> p.visibility == 0)
    && (p.indexed > 0 ==> p.visibility - p.indexed == news.visibility - news.revision)
    && (p.indexed == p.desired ==> Certified(s, n, p.indexed))
    && (p.task.Some? ==> TaskFor(s, n, p.task.value, p.desired))
  }

  /** While the lock holder works on `n`, its row stays behind and its task current. */
  ghost predicate WorkGood(s: State, n: NewsId)
    requires n in s.log && GoodLog(s.log[n]) && IsProcessing(s.worker) && s.worker.work.news == n
  {
    var w := s.worker;
    var hi := Now(s.log[n]).revision;
    && n in s.rows
    && s.rows[n].indexed < w.work.revision <= s.rows[n].desired
    && (w.Reading? || w.Loaded? ==>
          if w.work.existing.Some? then TaskFor(s, n, w.work.existing.value, w.work.revision)
          else s.rows[n].task == None)
    && (w.Reading? ==> PartsSeen(s.log[n], w.head, w.parts, w.work.revision, hi))
    && (w.Loaded? ==> ReadWithin(s.log[n], w.content, w.work.revision, hi))
    && (w.Sent? ==> s.rows[n].task == None)
    && (w.Sent? || w.Waiting? ==> TaskFor(s, n, w.task, w.work.revision))
  }

  /** The document the rebuild has for `n`, flushed or waiting. */
  function Gathered(r: Rebuild, n: NewsId): Content {
    ContentIn(r.loaded + r.batch, n)
  }

  predicate InPage(page: seq<PageRow>, n: NewsId) {
    exists i :: 0 <= i < |page| && page[i].news == n
  }

  ghost predicate SnapGood(s: State, r: Rebuild, n: NewsId)
    requires n in s.log && GoodLog(s.log[n]) && n in r.snaps
  {
    var (revision, visibility) := r.snaps[n];
    var news := Now(s.log[n]);
    && 1 <= revision <= news.revision
    && visibility - revision == news.visibility - news.revision
    && ReadWithin(s.log[n], Gathered(r, n), revision, news.revision)
  }

  predicate PageRowGood(s: State, row: PageRow)
  {
    && row.news in s.log && |s.log[row.news]| > 0
    && 1 <= row.revision <= Now(s.log[row.news]).revision
    && row.visibility - row.revision == Now(s.log[row.news]).visibility - Now(s.log[row.news]).revision
  }

  function RebuildPage(p: Phase): seq<PageRow>
    requires IsRebuilding(p)
  {
    if p.Swapping? || p.Dropping? then [] else p.page
  }

  /** The revision a scanned document will be checkpointed at, so far as is known. */
  function ScanFloor(p: Phase): nat
    requires p.ScanReading? && |p.page| > 0
  {
    if p.parts == [] then p.page[0].revision else p.head.0
  }

  /** How far a rebuild has got with news item `n`. */
  ghost predicate RebuildGood(s: State, n: NewsId)
    requires IsRebuilding(s.worker)
  {
    var r := s.worker.r;
    var page := RebuildPage(s.worker);
    && (n in s.rows ==> s.rows[n].indexed == 0 && s.rows[n].task == None)
    && (n in r.loaded || n in r.batch ==> n in r.snaps)
    && (n in r.snaps ==> n in s.log && GoodLog(s.log[n]) && SnapGood(s, r, n))
    && (n in r.snaps ==> !After(r.last, n))
    && (n in r.from ==> n in s.log && (n in r.snaps || After(r.last, n)))
    && (n in r.from && After(r.last, n) && |page| > 0 && n <= page[|page| - 1].news ==> InPage(page, n))
    && (s.worker.ScanReading? && |page| > 0 && page[0].news == n ==>
          && n in s.log && GoodLog(s.log[n])
          && page[0].revision <= ScanFloor(s.worker)
          && PartsSeen(s.log[n], s.worker.head, s.worker.parts, ScanFloor(s.worker), Now(s.log[n]).revision))
  }

  /** No task still to run touches index `i`, other than task `except`. */
  ghost predicate QuietIndex(s: State, i: nat, except: int) {
    forall j | |s.outcomes| <= j < |s.tasks| && j != except :: !Mentions(s.tasks[j], i)
  }

  ghost predicate RebuildEngine(s: State)
    requires IsRebuilding(s.worker)
  {
    var w := s.worker;
    var r := w.r;
    && r.temp != MAIN
    && (w.Scanning? || w.ScanReading? ==>
          QuietIndex(s, r.temp, -1) && IndexOf(s.indexes, r.temp) == r.loaded)
    && (w.ScanReading? ==> |w.page| > 0)
    && (w.Flushing? ==>
          && w.task == |s.tasks| - 1 && s.tasks[w.task] == Put(r.temp, r.batch)
          && QuietIndex(s, r.temp, w.task)
          && (w.task >= |s.outcomes| ==> IndexOf(s.indexes, r.temp) == r.loaded)
          && (Done(s, w.task) ==> IndexOf(s.indexes, r.temp) == r.loaded + r.batch))
    && (w.Swapping? ==>
          && r.batch == map[]
          && w.task == |s.tasks| - 1 && s.tasks[w.task] == Swap(r.temp)
          && QuietIndex(s, r.temp, w.task)
          && (w.task >= |s.outcomes| ==> IndexOf(s.indexes, r.temp) == r.loaded)
          && (Done(s, w.task) ==> IndexOf(s.indexes, MAIN) == r.loaded))
    && (w.Dropping? ==>
          && r.batch == map[]
          && w.task == |s.tasks| - 1 && s.tasks[w.task] == Drop(r.temp)
          && QuietIndex(s, MAIN, -1) && IndexOf(s.indexes, MAIN) == r.loaded)
    && (w.Swapping? || w.Dropping? ==> r.from <= r.snaps.Keys)
  }

  ghost predicate GlobalInv(s: State) {
    && |s.outcomes| <= |s.tasks|
    && (forall t | t in s.tasks && t.Drop? :: t.index != MAIN)
    && (IsProcessing(s.worker) ==> s.worker.work.news in s.log)
    && (IsRebuilding(s.worker) ==>
          && RebuildEngine(s)
          && (forall i | 0 <= i < |RebuildPage(s.worker)| :: PageRowGood(s, RebuildPage(s.worker)[i]))
          && (forall i | 0 <= i < |RebuildPage(s.worker)| :: After(s.worker.r.last, RebuildPage(s.worker)[i].news))
          && (forall i, j | 0 <= i < j < |RebuildPage(s.worker)| ::
                RebuildPage(s.worker)[i].news < RebuildPage(s.worker)[j].news))
  }

  ghost predicate ItemInv(s: State, n: NewsId) {
    && (n in s.log ==> GoodLog(s.log[n]))
    && (n in s.rows ==> n in s.log && RowGood(s, n))
    && (n in s.log && IsProcessing(s.worker) && s.worker.work.news == n ==> WorkGood(s, n))
    && (IsRebuilding(s.worker) ==> RebuildGood(s, n))
  }

  ghost predicate Inv(s: State) {
    GlobalInv(s) && forall n :: ItemInv(s, n)
  }

  // ---- provenance is kept by every commit ----

  lemma PartSeenLater(log: seq<Snapshot>, log': seq<Snapshot>, k: nat, v: Option<int>, lo: nat, hi: nat, lo': nat, hi': nat)
    requires k < STATEMENTS && PartSeen(log, k, v, lo, hi)
    requires log <= log' && lo' <= lo && hi <= hi'
    ensures PartSeen(log', k, v, lo', hi')
  {
    var i :| InRange(log, i, lo, hi) && log[i].parts[k] == v;
    assert InRange(log', i, lo', hi');
  }

  lemma ReadWithinLater(log: seq<Snapshot>, log': seq<Snapshot>, c: Content, lo: nat, hi: nat, lo': nat, hi': nat)
    requires ReadWithin(log, c, lo, hi)
    requires log <= log' && lo' <= lo && hi <= hi'
    ensures ReadWithin(log', c, lo', hi')
  {
    match c
    case Absent =>
      var k :| 0 <= k < STATEMENTS && PartSeen(log, k, None, lo, hi);
      PartSeenLater(log, log', k, None, lo, hi, lo', hi');
    case Present(d) =>
  }

  /** One more statement, read at the newest commit, keeps the provenance. */
  lemma ReadStepSeen(log: seq<Snapshot>, head: (nat, nat), parts: seq<int>, lo: nat)
    requires GoodLog(log) && |parts| < STATEMENTS && lo <= Now(log).revision
    requires PartsSeen(log, head, parts, lo, Now(log).revision)
    ensures match ReadStep(Now(log), head, parts)
            case Ended(c) => ReadWithin(log, c, lo, Now(log).revision)
            case More(head', parts') =>
              |parts'| == |parts| + 1 && PartsSeen(log, head', parts', lo, Now(log).revision)
  {
    var hi := Now(log).revision;
    var k := |parts|;
    var last := |log| - 1;
    assert InRange(log, last, lo, hi);
    assert PartSeen(log, k, Now(log).parts[k], lo, hi);
    if Now(log).parts[k].Some? {
      var head' := if k == 0 then (Now(log).revision, Now(log).visibility) else head;
      var parts' := parts + [Now(log).parts[k].value];
      assert HeadSeen(log, head', lo, hi);
      forall j | 0 <= j < |parts'|
        ensures PartSeen(log, j, Some(parts'[j]), lo, hi)
      {
        if j < k {
          assert parts'[j] == parts[j];
        }
      }
    }
  }

}
