/** News commits, projection events, the indexer and the search engine, as one
    labelled transition system. Every database transaction, every statement of the
    document query and every accepted engine request is a step of its own; the
    engine runs its tasks in the order it accepted them. */
module SearchProtocol {
  import opened Options
  import opened Projections

  type NewsId = int

  const MAIN: nat := 0
  /** The statements `_document` issues, each seeing the commits made before it. */
  const STATEMENTS: nat := 6

  /** One committed state of a news item. `parts[k]` is what statement `k` returns:
      None for a row that is not published, or has no version, and so no document. */
  datatype Snapshot = Snapshot(revision: nat, visibility: nat, parts: seq<Option<int>>)

  datatype Doc = Doc(revision: nat, visibility: nat, parts: seq<int>)
  datatype Content = Absent | Present(doc: Doc)
  type Index = map<NewsId, Doc>

  datatype Task =
    | Put(index: nat, docs: Index)
    | Delete(index: nat, news: NewsId)
    | Swap(index: nat)
    | Drop(index: nat)

  datatype PageRow = PageRow(news: NewsId, revision: nat, visibility: nat)

  /** A rebuild under way: `snaps` are its checkpoints, `loaded` the documents in
      flushed batches, `batch` those waiting; `from` are the news it began with. */
  datatype Rebuild = Rebuild(
    temp: nat, from: set<NewsId>, last: Option<NewsId>,
    snaps: map<NewsId, (nat, nat)>, loaded: Index, batch: Index)

  /** What the holder of the advisory lock is doing. */
  datatype Phase =
    | Idle
    | Reading(work: Work, head: (nat, nat), parts: seq<int>)
    | Loaded(work: Work, content: Content)
    | Sent(work: Work, task: nat)
    | Waiting(work: Work, task: nat)
    | Scanning(r: Rebuild, page: seq<PageRow>)
    | ScanReading(r: Rebuild, page: seq<PageRow>, head: (nat, nat), parts: seq<int>)
    | Flushing(r: Rebuild, page: seq<PageRow>, task: nat)
    | Swapping(r: Rebuild, task: nat)
    | Dropping(r: Rebuild, task: nat)

  datatype State = State(
    log: map<NewsId, seq<Snapshot>>, rows: map<NewsId, Projection>,
    tasks: seq<Task>, outcomes: seq<bool>, indexes: map<nat, Index>,
    worker: Phase, clock: int)

  const INIT := State(map[], map[], [], [], map[], Idle, 0)

  datatype Action =
    | Create(n: NewsId, snap: Snapshot)
    | Write(n: NewsId, snap: Snapshot)
    | Event(n: NewsId, requested: nat, seen: nat, now: int)
    | Execute(ok: bool)
    | Claim(n: NewsId, now: int)
    | Read
    | Send
    | Store(now: int)
    | Complete(now: int)
    | Fail(taskFailed: bool, now: int)
    | Crash
    | StartRebuild(temp: nat, now: int)
    | NextPage(rows: seq<PageRow>)
    | OpenDocument
    | Flush
    | Flushed
    | StartSwap
    | FinishSwap
    | Record(now: int)
    | Abort

  // ---- readings of a state ----

  function IndexOf(indexes: map<nat, Index>, i: nat): Index {
    if i in indexes then indexes[i] else map[]
  }

  function ContentIn(index: Index, n: NewsId): Content {
    if n in index then Present(index[n]) else Absent
  }

  /** What the public index serves for a news item. */
  function Served(s: State, n: NewsId): Content {
    ContentIn(IndexOf(s.indexes, MAIN), n)
  }

  function Now(log: seq<Snapshot>): Snapshot
    requires |log| > 0
  {
    log[|log| - 1]
  }

  function After(last: Option<NewsId>, n: NewsId): bool {
    last == None || n > last.value
  }

  // ---- the search engine ----

  function Run(indexes: map<nat, Index>, t: Task): map<nat, Index> {
    match t
    case Put(i, docs) => indexes[i := IndexOf(indexes, i) + docs]
    case Delete(i, n) => indexes[i := IndexOf(indexes, i) - {n}]
    case Swap(i) => indexes[MAIN := IndexOf(indexes, i)][i := IndexOf(indexes, MAIN)]
    case Drop(i) => indexes - {i}
  }

  predicate Mentions(t: Task, i: nat) {
    t.index == i || (t.Swap? && i == MAIN)
  }

  /** Running `t` can change what the public index serves for `n`. */
  predicate Affects(t: Task, n: NewsId) {
    match t
    case Put(i, docs) => i == MAIN && n in docs
    case Delete(i, m) => i == MAIN && m == n
    case Swap(_) => true
    case Drop(i) => i == MAIN
  }

  // ---- the steps ----

  predicate IsProcessing(p: Phase) {
    p.Reading? || p.Loaded? || p.Sent? || p.Waiting?
  }

  predicate IsRebuilding(p: Phase) {
    p.Scanning? || p.ScanReading? || p.Flushing? || p.Swapping? || p.Dropping?
  }

  predicate Grows(before: Snapshot, after: Snapshot) {
    && |after.parts| == STATEMENTS
    && after.revision >= before.revision
    && after.visibility - before.visibility == after.revision - before.revision
  }

  predicate IsPage(s: State, last: Option<NewsId>, rows: seq<PageRow>) {
    && |rows| > 0
    && (forall i | 0 <= i < |rows| ::
          && rows[i].news in s.log && After(last, rows[i].news) && |s.log[rows[i].news]| > 0
          && rows[i].revision == Now(s.log[rows[i].news]).revision
          && rows[i].visibility == Now(s.log[rows[i].news]).visibility)
    && (forall i, j | 0 <= i < j < |rows| :: rows[i].news < rows[j].news)
    && (forall n | n in s.log && After(last, n) && n <= rows[|rows| - 1].news ::
          exists i :: 0 <= i < |rows| && rows[i].news == n)
  }

  /** The claim query may return any claimable row: the first by update time may be
      locked, and locked rows are skipped. */
  predicate MayClaim(s: State, n: NewsId, now: int, lease: nat) {
    n in s.rows && Claimable(s.rows[n], now, lease)
  }

  predicate Done(s: State, task: nat) {
    task < |s.outcomes| && s.outcomes[task]
  }

  predicate Enabled(s: State, a: Action, lease: nat) {
    match a
    case Create(n, snap) =>
      n !in s.log && |snap.parts| == STATEMENTS && snap.revision >= 1 && snap.visibility >= 1
    case Write(n, snap) =>
      n in s.log && |s.log[n]| > 0 && Grows(Now(s.log[n]), snap)
    case Event(n, requested, seen, now) =>
      && n in s.log && |s.log[n]| > 0 && s.clock <= now
      && 1 <= seen <= Now(s.log[n]).revision && requested <= Now(s.log[n]).revision
    case Execute(_) => |s.outcomes| < |s.tasks|
    case Claim(n, now) => s.worker.Idle? && s.clock <= now && MayClaim(s, n, now, lease)
    case Read =>
      && (s.worker.Reading? || s.worker.ScanReading?)
      && |s.worker.parts| < STATEMENTS
      && (s.worker.ScanReading? ==> |s.worker.page| > 0)
      && var n := Target(s.worker);
         n in s.log && |s.log[n]| > 0 && |Now(s.log[n]).parts| == STATEMENTS
    case Send => s.worker.Loaded?
    case Store(now) => s.worker.Sent? && s.clock <= now && s.worker.work.news in s.rows
    case Complete(now) =>
      && s.worker.Waiting? && s.clock <= now && Done(s, s.worker.task)
      && s.worker.work.news in s.rows && s.worker.work.news in s.log && |s.log[s.worker.work.news]| > 0
    case Fail(taskFailed, now) =>
      && IsProcessing(s.worker) && s.clock <= now && s.worker.work.news in s.rows
      && (taskFailed ==>
            && s.worker.Waiting? && s.worker.task < |s.outcomes| && !s.outcomes[s.worker.task])
    case Crash => true
    case StartRebuild(temp, now) =>
      && s.worker.Idle? && s.clock <= now && temp != MAIN && temp !in s.indexes
      && forall t | t in s.tasks :: !Mentions(t, temp)
    case NextPage(rows) =>
      s.worker.Scanning? && s.worker.page == [] && IsPage(s, s.worker.r.last, rows)
    case OpenDocument => s.worker.Scanning? && |s.worker.page| > 0
    case Flush => s.worker.Scanning? && s.worker.r.batch != map[]
    case Flushed => s.worker.Flushing? && Done(s, s.worker.task)
    case StartSwap =>
      && s.worker.Scanning? && s.worker.page == [] && s.worker.r.batch == map[]
      && forall n | n in s.worker.r.from :: !After(s.worker.r.last, n)
    case FinishSwap => s.worker.Swapping? && Done(s, s.worker.task)
    case Record(now) =>
      && s.worker.Dropping? && s.clock <= now && Done(s, s.worker.task)
      && forall n | n in s.worker.r.snaps :: n in s.log && |s.log[n]| > 0
    case Abort => IsRebuilding(s.worker)
  }

  function Target(p: Phase): NewsId
    requires p.Reading? || (p.ScanReading? && |p.page| > 0)
  {
    if p.Reading? then p.work.news else p.page[0].news
  }

  function Enqueue(s: State, t: Task): State {
    s.(tasks := s.tasks + [t])
  }

  /** One statement of `_document`: a None ends it with no document. */
  function ReadStep(snap: Snapshot, head: (nat, nat), parts: seq<int>): (r: ReadResult)
    requires |snap.parts| == STATEMENTS && |parts| < STATEMENTS
  {
    var k := |parts|;
    if snap.parts[k] == None then Ended(Absent)
    else
      var head' := if k == 0 then (snap.revision, snap.visibility) else head;
      var parts' := parts + [snap.parts[k].value];
      if |parts'| == STATEMENTS then Ended(Present(Doc(head'.0, head'.1, parts')))
      else More(head', parts')
  }

  datatype ReadResult = Ended(content: Content) | More(head: (nat, nat), parts: seq<int>)

  /** The snapshot entry and document a scanned news item leaves behind. */
  function Scanned(r: Rebuild, row: PageRow, c: Content): Rebuild {
    match c
    case Absent =>
      r.(snaps := r.snaps[row.news := (row.revision, row.visibility)], last := Some(row.news))
    case Present(d) =>
      r.(snaps := r.snaps[row.news := (d.revision, d.visibility)],
         batch := r.batch[row.news := d], last := Some(row.news))
  }

  function ZeroedRows(rows: map<NewsId, Projection>, now: int): map<NewsId, Projection> {
    map n | n in rows :: Zeroed(rows[n], now)
  }

  function RecordedRows(s: State, snaps: map<NewsId, (nat, nat)>, now: int): map<NewsId, Projection>
    requires forall n | n in snaps :: n in s.log && |s.log[n]| > 0
  {
    map n | n in s.rows.Keys + snaps.Keys ::
      if n in snaps then
        var current := Now(s.log[n]);
        Recorded(if n in s.rows then s.rows[n] else FRESH.(desired := current.revision),
                 snaps[n].0, snaps[n].1, current.revision, current.visibility, now)
      else s.rows[n]
  }

  function Step(s: State, a: Action, lease: nat): State
    requires Enabled(s, a, lease)
  {
    match a
    case Create(n, snap) => s.(log := s.log[n := [snap]])
    case Write(n, snap) => s.(log := s.log[n := s.log[n] + [snap]])
    case Event(n, requested, seen, now) =>
      var row := if n in s.rows then s.rows[n] else FRESH.(updated := now);
      s.(rows := s.rows[n := Requested(row, requested, seen, now)], clock := now)
    case Execute(ok) =>
      s.(outcomes := s.outcomes + [ok],
         indexes := if ok then Run(s.indexes, s.tasks[|s.outcomes|]) else s.indexes)
    case Claim(n, now) =>
      s.(rows := s.rows[n := Claimed(s.rows[n], now)], clock := now,
         worker := Reading(Work(n, s.rows[n].desired, s.rows[n].task), (0, 0), []))
    case Read =>
      var w := s.worker;
      var n := Target(w);
      (match ReadStep(Now(s.log[n]), w.head, w.parts)
       case More(head, parts) =>
         s.(worker := if w.Reading? then Reading(w.work, head, parts)
                      else ScanReading(w.r, w.page, head, parts))
       case Ended(content) =>
         s.(worker := if w.Reading? then Loaded(w.work, content)
                      else Scanning(Scanned(w.r, w.page[0], content), w.page[1..])))
    case Send =>
      var w := s.worker;
      (match w.work.existing
       case Some(t) => s.(worker := Waiting(w.work, t))
       case None =>
         var task :=
           if w.content.Absent? then Delete(MAIN, w.work.news)
           else Put(MAIN, map[w.work.news := w.content.doc]);
         Enqueue(s, task).(worker := Sent(w.work, |s.tasks|)))
    case Store(now) =>
      var w := s.worker;
      s.(rows := s.rows[w.work.news := TaskStored(s.rows[w.work.news], w.work, w.task, now)],
         clock := now, worker := Waiting(w.work, w.task))
    case Complete(now) =>
      var w := s.worker.work;
      var news := Now(s.log[w.news]);
      s.(rows := s.rows[w.news := Completed(s.rows[w.news], w, news.revision, news.visibility, now)],
         clock := now, worker := Idle)
    case Fail(taskFailed, now) =>
      var n := s.worker.work.news;
      s.(rows := s.rows[n := Broken(s.rows[n], taskFailed, now)], clock := now, worker := Idle)
    case Crash => s.(worker := Idle)
    case StartRebuild(temp, now) =>
      s.(rows := ZeroedRows(s.rows, now), clock := now,
         worker := Scanning(Rebuild(temp, s.log.Keys, None, map[], map[], map[]), []))
    case NextPage(rows) => s.(worker := Scanning(s.worker.r, rows))
    case OpenDocument => s.(worker := ScanReading(s.worker.r, s.worker.page, (0, 0), []))
    case Flush =>
      var w := s.worker;
      Enqueue(s, Put(w.r.temp, w.r.batch)).(worker := Flushing(w.r, w.page, |s.tasks|))
    case Flushed =>
      var w := s.worker;
      s.(worker := Scanning(w.r.(loaded := w.r.loaded + w.r.batch, batch := map[]), w.page))
    case StartSwap =>
      Enqueue(s, Swap(s.worker.r.temp)).(worker := Swapping(s.worker.r, |s.tasks|))
    case FinishSwap =>
      Enqueue(s, Drop(s.worker.r.temp)).(worker := Dropping(s.worker.r, |s.tasks|))
    case Record(now) =>
      s.(rows := RecordedRows(s, s.worker.r.snaps, now), clock := now, worker := Idle)
    case Abort => Enqueue(s, Drop(s.worker.r.temp)).(worker := Idle)
  }
}
