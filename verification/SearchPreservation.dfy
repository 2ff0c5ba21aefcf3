/** Each step of the search protocol keeps the invariant of every news item. */
module SearchPreservation {
  import opened Options
  import opened Projections
  import opened SearchProtocol
  import opened SearchSafety

  // ---- the environment ----

  /** What a row, a task and a rebuild know of `n` survives a commit that appends to its log. */
  lemma TaskForLater(s: State, s': State, n: NewsId, t: nat, lo: nat)
    requires n in s.log && GoodLog(s.log[n]) && TaskFor(s, n, t, lo)
    requires n in s'.log && GoodLog(s'.log[n]) && s.log[n] <= s'.log[n]
    requires s'.tasks == s.tasks && s'.outcomes == s.outcomes && s'.indexes == s.indexes
    ensures TaskFor(s', n, t, lo)
  {
    ReadWithinLater(s.log[n], s'.log[n], Written(s.tasks[t], n),
                    lo, Now(s.log[n]).revision, lo, Now(s'.log[n]).revision);
  }

  lemma RowGoodLater(s: State, s': State, n: NewsId)
    requires n in s.log && GoodLog(s.log[n]) && n in s.rows && RowGood(s, n)
    requires n in s'.log && GoodLog(s'.log[n]) && s.log[n] <= s'.log[n]
    requires n in s'.rows && s'.rows[n] == s.rows[n] && s.clock <= s'.clock
    requires s'.tasks == s.tasks && s'.outcomes == s.outcomes && s'.indexes == s.indexes
    ensures RowGood(s', n)
  {
    var p := s.rows[n];
    assert s'.log[n][|s.log[n]| - 1] == Now(s.log[n]);
    if p.task.Some? {
      TaskForLater(s, s', n, p.task.value, p.desired);
    }
    if p.indexed == p.desired {
      ReadWithinLater(s.log[n], s'.log[n], Served(s, n), p.indexed, p.indexed, p.indexed, p.indexed);
    }
  }

  lemma WorkGoodLater(s: State, s': State, n: NewsId)
    requires n in s.log && GoodLog(s.log[n]) && IsProcessing(s.worker) && s.worker.work.news == n && WorkGood(s, n)
    requires n in s'.log && GoodLog(s'.log[n]) && s.log[n] <= s'.log[n]
    requires s'.worker == s.worker && n in s'.rows && s'.rows[n] == s.rows[n]
    requires s'.tasks == s.tasks && s'.outcomes == s.outcomes && s'.indexes == s.indexes
    ensures WorkGood(s', n)
  {
    var w := s.worker;
    var lo, hi, hi' := w.work.revision, Now(s.log[n]).revision, Now(s'.log[n]).revision;
    assert s'.log[n][|s.log[n]| - 1] == Now(s.log[n]);
    if w.Reading? {
    }
    if w.Loaded? {
      ReadWithinLater(s.log[n], s'.log[n], w.content, lo, hi, lo, hi');
    }
    if (w.Reading? || w.Loaded?) && w.work.existing.Some? {
      TaskForLater(s, s', n, w.work.existing.value, lo);
    }
    if w.Sent? || w.Waiting? {
      TaskForLater(s, s', n, w.task, lo);
    }
  }

  lemma RebuildGoodLater(s: State, s': State, n: NewsId)
    requires IsRebuilding(s.worker) && RebuildGood(s, n)
    requires n in s.log && GoodLog(s.log[n])
    requires n in s'.log && GoodLog(s'.log[n]) && s.log[n] <= s'.log[n]
    requires s'.worker == s.worker && s'.rows == s.rows
    ensures RebuildGood(s', n)
  {
    var w := s.worker;
    var hi, hi' := Now(s.log[n]).revision, Now(s'.log[n]).revision;
    assert s'.log[n][|s.log[n]| - 1] == Now(s.log[n]);
    if n in w.r.snaps {
      ReadWithinLater(s.log[n], s'.log[n], Gathered(w.r, n), w.r.snaps[n].0, hi, w.r.snaps[n].0, hi');
    }
    if w.ScanReading? && |w.page| > 0 && w.page[0].news == n {
    }
  }

  lemma GoodLogGrows(log: seq<Snapshot>, snap: Snapshot)
    requires GoodLog(log) && Grows(Now(log), snap)
    ensures GoodLog(log + [snap])
  {
  }

  lemma WriteKeeps(s: State, m: NewsId, snap: Snapshot, lease: nat, n: NewsId)
    requires GlobalInv(s) && ItemInv(s, n) && Enabled(s, Write(m, snap), lease)
    ensures ItemInv(Step(s, Write(m, snap), lease), n)
  {
    hide GlobalInv, GoodLog, RowGood, RebuildGood;
    if n == m {
      var s' := Step(s, Write(m, snap), lease);
      GoodLogGrows(s.log[n], snap);
      if n in s.rows {
        RowGoodLater(s, s', n);
      }
      if IsProcessing(s.worker) && s.worker.work.news == n {
        WorkGoodLater(s, s', n);
      }
      if IsRebuilding(s.worker) {
        RebuildGoodLater(s, s', n);
      }
    } else {
      WriteKeepsOther(s, m, snap, lease, n);
    }
  }

  lemma WriteKeepsOther(s: State, m: NewsId, snap: Snapshot, lease: nat, n: NewsId)
    requires ItemInv(s, n) && Enabled(s, Write(m, snap), lease) && n != m
    ensures ItemInv(Step(s, Write(m, snap), lease), n)
  {
    hide GoodLog;
  }

  lemma CreateKeeps(s: State, m: NewsId, snap: Snapshot, lease: nat, n: NewsId)
    requires GlobalInv(s) && ItemInv(s, n) && Enabled(s, Create(m, snap), lease)
    ensures ItemInv(Step(s, Create(m, snap), lease), n)
  {
  }

  lemma EventKeeps(s: State, m: NewsId, requested: nat, seen: nat, now: int, lease: nat, n: NewsId)
    requires GlobalInv(s) && ItemInv(s, n) && Enabled(s, Event(m, requested, seen, now), lease)
    ensures ItemInv(Step(s, Event(m, requested, seen, now), lease), n)
  {
  }

  lemma TaskForRun(s: State, ok: bool, lease: nat, n: NewsId, t: nat, lo: nat)
    requires n in s.log && |s.log[n]| > 0 && |s.outcomes| < |s.tasks| && TaskFor(s, n, t, lo)
    ensures TaskFor(Step(s, Execute(ok), lease), n, t, lo)
  {
    if ok && |s.outcomes| > t {
    }
  }

  lemma RowGoodRun(s: State, ok: bool, lease: nat, n: NewsId)
    requires n in s.log && GoodLog(s.log[n]) && n in s.rows && RowGood(s, n) && |s.outcomes| < |s.tasks|
    ensures RowGood(Step(s, Execute(ok), lease), n)
  {
    var p := s.rows[n];
    if p.task.Some? {
      TaskForRun(s, ok, lease, n, p.task.value, p.desired);
    }
    if p.indexed == p.desired && ok {
    }
  }

  lemma ExecuteKeeps(s: State, ok: bool, lease: nat, n: NewsId)
    requires GlobalInv(s) && ItemInv(s, n) && Enabled(s, Execute(ok), lease)
    ensures ItemInv(Step(s, Execute(ok), lease), n)
  {
    var w := s.worker;
    if n in s.rows {
      RowGoodRun(s, ok, lease, n);
    }
    if IsProcessing(w) && w.work.news == n {
      if (w.Reading? || w.Loaded?) && w.work.existing.Some? {
        TaskForRun(s, ok, lease, n, w.work.existing.value, w.work.revision);
      }
      if w.Sent? || w.Waiting? {
        TaskForRun(s, ok, lease, n, w.task, w.work.revision);
      }
    }
  }

  // ---- incremental indexing ----

  lemma ClaimKeeps(s: State, m: NewsId, now: int, lease: nat, n: NewsId)
    requires GlobalInv(s) && ItemInv(s, n) && ItemInv(s, m) && Enabled(s, Claim(m, now), lease)
    ensures ItemInv(Step(s, Claim(m, now), lease), n)
  {
  }

  lemma ReadKeeps(s: State, lease: nat, n: NewsId)
    requires GlobalInv(s) && ItemInv(s, n) && Enabled(s, Read, lease) && s.worker.Reading?
    ensures ItemInv(Step(s, Read, lease), n)
  {
    hide RebuildGood, PartsSeen, Certified, TaskFor, GoodLog;
    var w := s.worker;
    var s' := Step(s, Read, lease);
    if n in s.rows {
      RowGoodLater(s, s', n);
    }
    if n == w.work.news {
      ReadStepSeen(s.log[n], w.head, w.parts, w.work.revision);
      if w.work.existing.Some? {
        TaskForLater(s, s', n, w.work.existing.value, w.work.revision);
      }
    }
  }

  /** A task about other news leaves what is known of `n` as it was. */
  lemma RowGoodBeside(s: State, t: Task, n: NewsId)
    requires n in s.log && GoodLog(s.log[n]) && n in s.rows && RowGood(s, n)
    requires |s.outcomes| <= |s.tasks| && !Affects(t, n)
    ensures RowGood(Enqueue(s, t), n)
  {
    var p := s.rows[n];
    var s' := Enqueue(s, t);
    if p.task.Some? {
      assert TaskFor(s', n, p.task.value, p.desired);
    }
    if p.indexed == p.desired {
      assert Certified(s', n, p.indexed);
    }
  }

  lemma AdoptKeeps(s: State, lease: nat, n: NewsId)
    requires GlobalInv(s) && ItemInv(s, n) && Enabled(s, Send, lease) && s.worker.work.existing.Some?
    ensures ItemInv(Step(s, Send, lease), n)
  {
    var w := s.worker;
    var s' := Step(s, Send, lease);
    if n in s.rows {
      RowGoodLater(s, s', n);
    }
    if n == w.work.news {
      TaskForLater(s, s', n, w.work.existing.value, w.work.revision);
    }
  }

  lemma SendOwnKeeps(s: State, lease: nat, n: NewsId)
    requires GlobalInv(s) && ItemInv(s, n) && Enabled(s, Send, lease)
    requires s.worker.work.existing == None && s.worker.work.news == n
    ensures ItemInv(Step(s, Send, lease), n)
  {
    var w := s.worker;
    var s' := Step(s, Send, lease);
    var task := if w.content.Absent? then Delete(MAIN, n) else Put(MAIN, map[n := w.content.doc]);
    assert Written(task, n) == w.content;
    TaskForLater(Enqueue(s, task), s', n, |s.tasks|, w.work.revision);
  }

  lemma SendOtherKeeps(s: State, lease: nat, n: NewsId)
    requires GlobalInv(s) && ItemInv(s, n) && Enabled(s, Send, lease)
    requires s.worker.work.existing == None && s.worker.work.news != n
    ensures ItemInv(Step(s, Send, lease), n)
  {
    var w := s.worker;
    var m := w.work.news;
    var task := if w.content.Absent? then Delete(MAIN, m) else Put(MAIN, map[m := w.content.doc]);
    if n in s.rows {
      RowGoodBeside(s, task, n);
      RowGoodLater(Enqueue(s, task), Step(s, Send, lease), n);
    }
  }

  lemma StoreKeeps(s: State, now: int, lease: nat, n: NewsId)
    requires GlobalInv(s) && ItemInv(s, n) && Enabled(s, Store(now), lease)
    requires ItemInv(s, s.worker.work.news)
    ensures ItemInv(Step(s, Store(now), lease), n)
  {
    hide GoodLog;
    if n in s.rows && n != s.worker.work.news {
      RowGoodLater(s, Step(s, Store(now), lease), n);
    }
  }

  lemma CompleteOwn(s: State, now: int, lease: nat, n: NewsId)
    requires GlobalInv(s) && ItemInv(s, n) && Enabled(s, Complete(now), lease)
    requires s.worker.work.news == n
    ensures ItemInv(Step(s, Complete(now), lease), n)
  {
  }

  lemma CompleteOther(s: State, now: int, lease: nat, n: NewsId)
    requires GlobalInv(s) && ItemInv(s, n) && Enabled(s, Complete(now), lease)
    requires s.worker.work.news != n
    ensures ItemInv(Step(s, Complete(now), lease), n)
  {
    hide RowGood, GoodLog;
    if n in s.rows {
      RowGoodLater(s, Step(s, Complete(now), lease), n);
    }
  }

  lemma FailKeeps(s: State, taskFailed: bool, now: int, lease: nat, n: NewsId)
    requires GlobalInv(s) && ItemInv(s, n) && Enabled(s, Fail(taskFailed, now), lease)
    requires ItemInv(s, s.worker.work.news)
    ensures ItemInv(Step(s, Fail(taskFailed, now), lease), n)
  {
  }

  lemma CrashKeeps(s: State, lease: nat, n: NewsId)
    requires GlobalInv(s) && ItemInv(s, n)
    ensures ItemInv(Step(s, Crash, lease), n)
  {
  }

  // ---- the full rebuild ----

  lemma StartRebuildKeeps(s: State, temp: nat, now: int, lease: nat, n: NewsId)
    requires GlobalInv(s) && ItemInv(s, n) && Enabled(s, StartRebuild(temp, now), lease)
    ensures ItemInv(Step(s, StartRebuild(temp, now), lease), n)
  {
  }

  lemma NextPageKeeps(s: State, rows: seq<PageRow>, lease: nat, n: NewsId)
    requires GlobalInv(s) && ItemInv(s, n) && Enabled(s, NextPage(rows), lease)
    ensures ItemInv(Step(s, NextPage(rows), lease), n)
  {
    if n in s.rows {
      RowGoodLater(s, Step(s, NextPage(rows), lease), n);
    }
  }

  lemma OpenDocumentKeeps(s: State, lease: nat, n: NewsId)
    requires GlobalInv(s) && ItemInv(s, n) && Enabled(s, OpenDocument, lease)
    ensures ItemInv(Step(s, OpenDocument, lease), n)
  {
    if n in s.rows {
      RowGoodLater(s, Step(s, OpenDocument, lease), n);
    }
    assert PageRowGood(s, RebuildPage(s.worker)[0]);
  }

  /** One statement of a scanned document: once the row has been read, everything
      after it is read no earlier than the revision it will be checkpointed at. */
  lemma ScanStepSeen(s: State, lease: nat)
    requires GlobalInv(s) && Enabled(s, Read, lease) && s.worker.ScanReading?
    requires ItemInv(s, s.worker.page[0].news)
    ensures var w := s.worker;
            var log := s.log[w.page[0].news];
            var hi := Now(log).revision;
            match ReadStep(Now(log), w.head, w.parts)
            case More(head, parts) =>
              |parts| > 0 && ScanFloor(w) <= head.0 && PartsSeen(log, head, parts, head.0, hi)
            case Ended(Absent) => ReadWithin(log, Absent, w.page[0].revision, hi)
            case Ended(Present(d)) =>
              && 1 <= d.revision <= hi && d.visibility - d.revision == Now(log).visibility - hi
              && ReadWithin(log, Present(d), d.revision, hi)
  {
    var w := s.worker;
    var log := s.log[w.page[0].news];
    var hi := Now(log).revision;
    if w.parts == [] {
      ReadStepSeen(log, w.head, w.parts, hi);
      assert InRange(log, |log| - 1, hi, hi);
      if Now(log).parts[0] == None {
        ReadWithinLater(log, log, Absent, hi, hi, w.page[0].revision, hi);
      }
    } else {
      ReadStepSeen(log, w.head, w.parts, w.head.0);
      if Now(log).parts[|w.parts|] == None {
        ReadWithinLater(log, log, Absent, w.head.0, hi, w.page[0].revision, hi);
      }
    }
  }

  lemma ScanMoreKeeps(s: State, lease: nat, n: NewsId)
    requires GlobalInv(s) && ItemInv(s, n) && Enabled(s, Read, lease) && s.worker.ScanReading?
    requires ItemInv(s, s.worker.page[0].news)
    requires ReadStep(Now(s.log[s.worker.page[0].news]), s.worker.head, s.worker.parts).More?
    ensures ItemInv(Step(s, Read, lease), n)
  {
    if n in s.rows {
      RowGoodLater(s, Step(s, Read, lease), n);
    }
    ScanStepSeen(s, lease);
  }

  lemma ScanEndOwn(s: State, lease: nat, n: NewsId)
    requires GlobalInv(s) && ItemInv(s, n) && Enabled(s, Read, lease) && s.worker.ScanReading?
    requires s.worker.page[0].news == n
    requires ReadStep(Now(s.log[n]), s.worker.head, s.worker.parts).Ended?
    ensures RebuildGood(Step(s, Read, lease), n)
  {
    var w := s.worker;
    ScanStepSeen(s, lease);
    var c := ReadStep(Now(s.log[n]), w.head, w.parts).content;
    assert Gathered(Step(s, Read, lease).worker.r, n) == c;
    assert PageRowGood(s, RebuildPage(w)[0]);
  }

  lemma ScanEndOther(s: State, lease: nat, n: NewsId)
    requires GlobalInv(s) && ItemInv(s, n) && Enabled(s, Read, lease) && s.worker.ScanReading?
    requires s.worker.page[0].news != n
    requires ReadStep(Now(s.log[s.worker.page[0].news]), s.worker.head, s.worker.parts).Ended?
    ensures RebuildGood(Step(s, Read, lease), n)
  {
    var w := s.worker;
    var page := w.page;
    assert Gathered(Step(s, Read, lease).worker.r, n) == Gathered(w.r, n);
    assert page == RebuildPage(w);
    if InPage(page, n) {
      var i :| 0 <= i < |page| && page[i].news == n;
      assert page[1..][i - 1].news == n;
    }
    if |page[1..]| > 0 {
      assert page[1..][|page| - 2] == page[|page| - 1];
    }
  }

  lemma ScanEndKeeps(s: State, lease: nat, n: NewsId)
    requires GlobalInv(s) && ItemInv(s, n) && Enabled(s, Read, lease) && s.worker.ScanReading?
    requires ReadStep(Now(s.log[s.worker.page[0].news]), s.worker.head, s.worker.parts).Ended?
    ensures ItemInv(Step(s, Read, lease), n)
  {
    if n in s.rows {
      RowGoodLater(s, Step(s, Read, lease), n);
    }
    if n == s.worker.page[0].news {
      ScanEndOwn(s, lease, n);
    } else {
      ScanEndOther(s, lease, n);
    }
  }

  lemma FlushKeeps(s: State, lease: nat, n: NewsId)
    requires GlobalInv(s) && ItemInv(s, n) && Enabled(s, Flush, lease)
    ensures ItemInv(Step(s, Flush, lease), n)
  {
    if n in s.rows {
      var t := Put(s.worker.r.temp, s.worker.r.batch);
      RowGoodBeside(s, t, n);
      RowGoodLater(Enqueue(s, t), Step(s, Flush, lease), n);
    }
  }

  lemma FlushedKeeps(s: State, lease: nat, n: NewsId)
    requires GlobalInv(s) && ItemInv(s, n) && Enabled(s, Flushed, lease)
    ensures ItemInv(Step(s, Flushed, lease), n)
  {
    var s' := Step(s, Flushed, lease);
    if n in s.rows {
      RowGoodLater(s, s', n);
    }
    assert Gathered(s'.worker.r, n) == Gathered(s.worker.r, n);
  }

  lemma StartSwapKeeps(s: State, lease: nat, n: NewsId)
    requires GlobalInv(s) && ItemInv(s, n) && Enabled(s, StartSwap, lease)
    ensures ItemInv(Step(s, StartSwap, lease), n)
  {
  }

  lemma FinishSwapKeeps(s: State, lease: nat, n: NewsId)
    requires GlobalInv(s) && ItemInv(s, n) && Enabled(s, FinishSwap, lease)
    ensures ItemInv(Step(s, FinishSwap, lease), n)
  {
  }

  /** What the checkpoints leave of one row. */
  lemma RecordSets(s: State, now: int, lease: nat, n: NewsId)
    requires Enabled(s, Record(now), lease)
    ensures var s', snaps := Step(s, Record(now), lease), s.worker.r.snaps;
            && s' == s.(rows := s'.rows, clock := now, worker := Idle)
            && (n in s'.rows <==> n in s.rows || n in snaps)
            && (n in s.rows && n !in snaps ==> s'.rows[n] == s.rows[n])
            && (n in snaps ==>
                  && n in s.log && |s.log[n]| > 0
                  && var current := Now(s.log[n]);
                     s'.rows[n] == Recorded(if n in s.rows then s.rows[n] else FRESH.(desired := current.revision),
                                            snaps[n].0, snaps[n].1, current.revision, current.visibility, now))
  {
  }

  lemma RecordKeeps(s: State, now: int, lease: nat, n: NewsId)
    requires GlobalInv(s) && ItemInv(s, n) && Enabled(s, Record(now), lease)
    ensures ItemInv(Step(s, Record(now), lease), n)
  {
    hide PartsSeen, TaskFor, WorkGood, IsPage;
    RecordSets(s, now, lease, n);
    hide Step;
    var r := s.worker.r;
    if n in r.snaps {
      assert Served(s, n) == Gathered(r, n);
    }
  }

  lemma AbortKeeps(s: State, lease: nat, n: NewsId)
    requires GlobalInv(s) && ItemInv(s, n) && Enabled(s, Abort, lease)
    ensures ItemInv(Step(s, Abort, lease), n)
  {
  }
}
