/** A rebuild left alone ends, and leaves the public index as the committed news has it. */
module SearchRebuilds {
  import opened Options
  import opened Projections
  import opened SearchProtocol
  import opened SearchProgress
  import opened SearchSafety
  import opened SearchTheorems
  import Sorting

  type Log = map<NewsId, seq<Snapshot>>

  ghost predicate GoodLogs(log: Log) {
    forall n | n in log :: |log[n]| > 0 && |Now(log[n]).parts| == STATEMENTS
  }

  /** The news items a rebuild has still to scan. */
  function Unscanned(log: Log, last: Option<NewsId>): set<NewsId> {
    set n | n in log && After(last, n)
  }

  /** The document of a news item as it is now; one without a row has none. */
  function Newest(log: Log, n: NewsId): Content {
    if n in log && |log[n]| > 0 then DocumentOf(Now(log[n])) else Absent
  }

  /** A rebuild between two pages, with everything up to its last id in its own index. */
  ghost predicate Gathering(t: State) {
    && t.worker.Scanning? && t.worker.page == [] && |t.outcomes| == |t.tasks| && GoodLogs(t.log)
    && var r := t.worker.r;
       && r.temp != MAIN && r.from == t.log.Keys && r.batch == map[]
       && (forall n :: n in r.snaps <==> n in t.log && !After(r.last, n))
       && (forall n | n in r.snaps :: r.snaps[n] == (Now(t.log[n]).revision, Now(t.log[n]).visibility))
       && (forall n :: ContentIn(r.loaded, n) == if n in r.snaps then Newest(t.log, n) else Absent)
       && IndexOf(t.indexes, r.temp) == r.loaded
  }

  /** The document of the news item at the head of a page, read undisturbed. */
  lemma {:induction false} ScansDocument(s: State, t: State, lease: nat) returns (u: State)
    requires CanReach(s, t, lease) && t.worker.ScanReading? && |t.worker.page| > 0
    requires var n := t.worker.page[0].news;
             && n in t.log && |t.log[n]| > 0
             && var snap := Now(t.log[n]);
                && |snap.parts| == STATEMENTS && |t.worker.parts| < STATEMENTS
                && (t.worker.parts != [] ==> t.worker.head == (snap.revision, snap.visibility))
                && forall k | 0 <= k < |t.worker.parts| :: snap.parts[k] == Some(t.worker.parts[k])
    ensures CanReach(s, u, lease)
    ensures var row := t.worker.page[0];
            u == t.(worker := Scanning(Scanned(t.worker.r, row, DocumentOf(Now(t.log[row.news]))), t.worker.page[1..]))
    decreases STATEMENTS - |t.worker.parts|
  {
    hide CanReach, Scanned;
    var w := t.worker;
    var snap := Now(t.log[w.page[0].news]);
    var k := |w.parts|;
    var next := Step(t, Read, lease);
    Onward(s, t, Read, lease);
    if snap.parts[k] == None {
      return next;
    }
    var parts := w.parts + [snap.parts[k].value];
    if |parts| == STATEMENTS {
      assert parts == seq(STATEMENTS, j requires 0 <= j < STATEMENTS => snap.parts[j].value);
      return next;
    }
    u := ScansDocument(s, next, lease);
  }

  /** A page of one, the lowest id left, scanned. */
  lemma ScansPage(s: State, t: State, lease: nat, n: NewsId) returns (u: State)
    requires CanReach(s, t, lease) && Gathering(t)
    requires n in Unscanned(t.log, t.worker.r.last) && forall m | m in Unscanned(t.log, t.worker.r.last) :: n <= m
    ensures CanReach(s, u, lease)
    ensures var news := Now(t.log[n]);
            u == t.(worker := Scanning(
                      Scanned(t.worker.r, PageRow(n, news.revision, news.visibility), DocumentOf(news)), []))
  {
    hide CanReach, Scanned, DocumentOf;
    var news := Now(t.log[n]);
    var rows := [PageRow(n, news.revision, news.visibility)];
    forall m | m in t.log && After(t.worker.r.last, m) && m <= n
      ensures rows[0].news == m
    {
      assert m in Unscanned(t.log, t.worker.r.last);
    }
    assert IsPage(t, t.worker.r.last, rows);
    var paged := Step(t, NextPage(rows), lease);
    Onward(s, t, NextPage(rows), lease);
    var reading := Step(paged, OpenDocument, lease);
    Onward(s, paged, OpenDocument, lease);
    u := ScansDocument(s, reading, lease);
    assert rows[1..] == [];
  }

  /** A step of the rebuild that asks the engine for one task. */
  lemma Asks(s: State, t: State, a: Action, task: Task, lease: nat) returns (u: State)
    requires CanReach(s, t, lease) && Enabled(t, a, lease) && |t.outcomes| == |t.tasks|
    requires match a
             case Flush => task == Put(t.worker.r.temp, t.worker.r.batch)
             case StartSwap => task == Swap(t.worker.r.temp)
             case FinishSwap => task == Drop(t.worker.r.temp)
             case _ => false
    ensures CanReach(s, u, lease) && u == t.(tasks := t.tasks + [task], worker := u.worker)
    ensures match a
            case Flush => u.worker == Flushing(t.worker.r, t.worker.page, |t.tasks|)
            case StartSwap => u.worker == Swapping(t.worker.r, |t.tasks|)
            case FinishSwap => u.worker == Dropping(t.worker.r, |t.tasks|)
            case _ => false
  {
    u := Step(t, a, lease);
    Onward(s, t, a, lease);
    hide CanReach;
  }

  lemma PutAdds(indexes: map<nat, Index>, i: nat, docs: Index)
    ensures IndexOf(Run(indexes, Put(i, docs)), i) == IndexOf(indexes, i) + docs
  {
  }

  lemma SwapServes(indexes: map<nat, Index>, i: nat)
    requires i != MAIN
    ensures IndexOf(Run(Run(indexes, Swap(i)), Drop(i)), MAIN) == IndexOf(indexes, i)
  {
  }

  /** The engine runs the task it was asked for last. */
  lemma Runs(s: State, t: State, task: Task, lease: nat) returns (u: State)
    requires CanReach(s, t, lease) && |t.tasks| == |t.outcomes| + 1 && t.tasks[|t.outcomes|] == task
    ensures CanReach(s, u, lease) && u == t.(outcomes := t.outcomes + [true], indexes := Run(t.indexes, task))
    ensures Done(u, |t.outcomes|) && |u.outcomes| == |u.tasks|
  {
    hide CanReach, Run;
    u := Step(t, Execute(true), lease);
    Onward(s, t, Execute(true), lease);
  }

  /** A waiting batch is flushed, and the engine puts it into the rebuild's own index. */
  lemma Flushes(s: State, t: State, lease: nat) returns (u: State)
    requires CanReach(s, t, lease) && t.worker.Scanning? && t.worker.page == [] && |t.outcomes| == |t.tasks|
    requires IndexOf(t.indexes, t.worker.r.temp) == t.worker.r.loaded
    ensures CanReach(s, u, lease) && u.log == t.log && u.rows == t.rows && u.clock == t.clock
    ensures |u.outcomes| == |u.tasks|
    ensures var r := t.worker.r;
            && u.worker == Scanning(r.(loaded := r.loaded + r.batch, batch := map[]), [])
            && IndexOf(u.indexes, r.temp) == r.loaded + r.batch
  {
    hide CanReach;
    var r := t.worker.r;
    if r.batch == map[] {
      assert r.loaded + r.batch == r.loaded;
      return t;
    }
    hide Run, IndexOf;
    var sent := Asks(s, t, Flush, Put(r.temp, r.batch), lease);
    var done := Runs(s, sent, Put(r.temp, r.batch), lease);
    PutAdds(t.indexes, r.temp, r.batch);
    u := Step(done, Flushed, lease);
    Onward(s, done, Flushed, lease);
  }

  /** One news item further. */
  lemma ScansNext(s: State, t: State, lease: nat) returns (u: State)
    requires CanReach(s, t, lease) && Gathering(t) && Unscanned(t.log, t.worker.r.last) != {}
    ensures CanReach(s, u, lease) && u.worker.Scanning? && Gathering(u) && u.log == t.log && u.rows == t.rows && u.clock == t.clock
    ensures |Unscanned(u.log, u.worker.r.last)| < |Unscanned(t.log, t.worker.r.last)|
  {
    hide CanReach, DocumentOf;
    var before := Unscanned(t.log, t.worker.r.last);
    var n := Sorting.Lowest(before);
    var scanned := ScansPage(s, t, lease, n);
    u := Flushes(s, scanned, lease);
    assert Unscanned(u.log, u.worker.r.last) == before - {n};
    OneMore(t, u, n);
  }

  /** What a rebuild has after one more news item. */
  lemma OneMore(t: State, u: State, n: NewsId)
    requires Gathering(t) && n in Unscanned(t.log, t.worker.r.last)
    requires forall m | m in Unscanned(t.log, t.worker.r.last) :: n <= m
    requires u.log == t.log && |u.outcomes| == |u.tasks|
    requires u.worker.Scanning? && IndexOf(u.indexes, t.worker.r.temp) == u.worker.r.loaded
    requires var r, news := t.worker.r, Now(t.log[n]);
             var r' := Scanned(r, PageRow(n, news.revision, news.visibility), DocumentOf(news));
             u.worker == Scanning(r'.(loaded := r'.loaded + r'.batch, batch := map[]), [])
    ensures Gathering(u)
  {
    hide CanReach;
    var r, r' := t.worker.r, u.worker.r;
    DocumentHead(Now(t.log[n]));
    hide DocumentOf;
    forall m
      ensures m in r'.snaps <==> m in u.log && !After(r'.last, m)
    {
      assert m in Unscanned(t.log, r.last) ==> n <= m;
    }
    forall m
      ensures ContentIn(r'.loaded, m) == if m in r'.snaps then Newest(u.log, m) else Absent
    {
      assert ContentIn(r.loaded, m) == if m in r.snaps then Newest(t.log, m) else Absent;
    }
  }

  lemma DocumentHead(snap: Snapshot)
    ensures var c := DocumentOf(snap);
            c.Present? ==> (c.doc.revision, c.doc.visibility) == (snap.revision, snap.visibility)
  {
  }

  lemma {:induction false} ScansAll(s: State, t: State, lease: nat) returns (u: State)
    requires CanReach(s, t, lease) && t.worker.Scanning? && Gathering(t)
    ensures CanReach(s, u, lease) && u.worker.Scanning? && Gathering(u) && u.log == t.log && u.rows == t.rows && u.clock == t.clock
    ensures Unscanned(u.log, u.worker.r.last) == {}
    decreases |Unscanned(t.log, t.worker.r.last)|
  {
    hide CanReach, Gathering;
    if Unscanned(t.log, t.worker.r.last) == {} {
      return t;
    }
    var next := ScansNext(s, t, lease);
    u := ScansAll(s, next, lease);
  }

  /** From rest, with the engine idle, a rebuild can be started. */
  lemma Starts(s: State, t: State, lease: nat) returns (u: State)
    requires CanReach(s, t, lease) && t.worker == Idle && |t.outcomes| == |t.tasks| && GoodLogs(t.log)
    ensures CanReach(s, u, lease) && u.worker.Scanning? && Gathering(u) && u.log == t.log && u.rows == ZeroedRows(t.rows, t.clock)
    ensures u.clock == t.clock
  {
    hide CanReach, DocumentOf;
    var used := {MAIN} + t.indexes.Keys + set task | task in t.tasks :: task.index;
    var temp := Sorting.Unused(used);
    assert MAIN < temp && temp !in t.indexes;
    forall task | task in t.tasks
      ensures !Mentions(task, temp)
    {
      assert task.index in used;
    }
    u := Step(t, StartRebuild(temp, t.clock), lease);
    Onward(s, t, StartRebuild(temp, t.clock), lease);
  }

  /** Everything scanned, the indexes are swapped and the checkpoints written. */
  lemma Ends(s: State, t: State, lease: nat) returns (u: State)
    requires CanReach(s, t, lease) && Gathering(t) && Unscanned(t.log, t.worker.r.last) == {}
    ensures CanReach(s, u, lease) && u.worker == Idle && u.log == t.log
    ensures IndexOf(u.indexes, MAIN) == t.worker.r.loaded
    ensures u.rows == RecordedRows(t, t.worker.r.snaps, t.clock)
  {
    var r := t.worker.r;
    forall n | n in r.from
      ensures !After(r.last, n)
    {
      assert n !in Unscanned(t.log, r.last);
    }
    SwapServes(t.indexes, r.temp);
    hide *;
    var swapped := Swaps(s, t, lease);
    var dropped := Drops(s, swapped, lease);
    u := Records(s, dropped, lease);
    SameRows(t, dropped, r.snaps);
  }

  lemma Swaps(s: State, t: State, lease: nat) returns (u: State)
    requires CanReach(s, t, lease) && Enabled(t, StartSwap, lease) && |t.outcomes| == |t.tasks|
    ensures var swap := Swap(t.worker.r.temp);
            u == t.(tasks := t.tasks + [swap], outcomes := t.outcomes + [true], indexes := Run(t.indexes, swap),
                    worker := Swapping(t.worker.r, |t.tasks|))
    ensures CanReach(s, u, lease) && Enabled(u, FinishSwap, lease)
  {
    hide CanReach, Run;
    var swapping := Asks(s, t, StartSwap, Swap(t.worker.r.temp), lease);
    u := Runs(s, swapping, Swap(t.worker.r.temp), lease);
  }

  lemma Drops(s: State, t: State, lease: nat) returns (u: State)
    requires CanReach(s, t, lease) && Enabled(t, FinishSwap, lease) && |t.outcomes| == |t.tasks|
    ensures var drop := Drop(t.worker.r.temp);
            u == t.(tasks := t.tasks + [drop], outcomes := t.outcomes + [true], indexes := Run(t.indexes, drop),
                    worker := Dropping(t.worker.r, |t.tasks|))
    ensures CanReach(s, u, lease) && Done(u, u.worker.task)
  {
    hide CanReach, Run;
    var dropping := Asks(s, t, FinishSwap, Drop(t.worker.r.temp), lease);
    u := Runs(s, dropping, Drop(t.worker.r.temp), lease);
  }

  lemma SameRows(s: State, t: State, snaps: map<NewsId, (nat, nat)>)
    requires t.log == s.log && t.rows == s.rows && forall n | n in snaps :: n in s.log && |s.log[n]| > 0
    ensures forall now :: RecordedRows(t, snaps, now) == RecordedRows(s, snaps, now)
  {
  }

  lemma Records(s: State, t: State, lease: nat) returns (u: State)
    requires CanReach(s, t, lease) && t.worker.Dropping? && Done(t, t.worker.task)
    requires forall n | n in t.worker.r.snaps :: n in t.log && |t.log[n]| > 0
    ensures CanReach(s, u, lease)
    ensures u == t.(rows := RecordedRows(t, t.worker.r.snaps, t.clock), worker := Idle)
  {
    hide CanReach, RecordedRows;
    u := Step(t, Record(t.clock), lease);
    Onward(s, t, Record(t.clock), lease);
  }

  lemma StartingPoint(s: State, lease: nat)
    requires Reachable(s, lease)
    ensures |s.outcomes| <= |s.tasks| && GoodLogs(s.log)
    ensures forall n | n in s.rows :: n in s.log && s.rows[n].desired <= Now(s.log[n]).revision
  {
    ReachableInv(s, lease);
    forall n | n in s.log
      ensures |s.log[n]| > 0 && |Now(s.log[n]).parts| == STATEMENTS
    {
      assert ItemInv(s, n);
    }
    forall n | n in s.rows
      ensures n in s.log && s.rows[n].desired <= Now(s.log[n]).revision
    {
      assert ItemInv(s, n);
    }
  }

  lemma AllScanned(t: State, n: NewsId)
    requires Gathering(t) && Unscanned(t.log, t.worker.r.last) == {}
    ensures n in t.worker.r.snaps <==> n in t.log
    ensures n in t.log ==> t.worker.r.snaps[n] == (Now(t.log[n]).revision, Now(t.log[n]).visibility)
    ensures ContentIn(t.worker.r.loaded, n) == Newest(t.log, n)
  {
    hide DocumentOf;
    assert n !in Unscanned(t.log, t.worker.r.last);
  }

  /** Nothing was committed since the checkpoint was taken, so it is the newest there is. */
  lemma Recording(s: State, t: State, u: State, n: NewsId, lease: nat)
    requires Reachable(s, lease) && Gathering(t) && t.log == s.log && n in s.log && |s.log[n]| > 0
    requires t.rows == ZeroedRows(s.rows, s.clock)
    requires n in t.worker.r.snaps && t.worker.r.snaps[n] == (Now(s.log[n]).revision, Now(s.log[n]).visibility)
    requires u.rows == RecordedRows(t, t.worker.r.snaps, t.clock)
    ensures n in u.rows && u.rows[n].status == Ready
    ensures u.rows[n].indexed == u.rows[n].desired == Now(s.log[n]).revision
    ensures u.rows[n].visibility == Now(s.log[n]).visibility
  {
    hide Reachable, DocumentOf;
    StartingPoint(s, lease);
  }

  /** From whatever reachable state, a rebuild left alone ends with every news item's row
      ready at its newest revision, and with the public index serving exactly the newest
      document of each news item that has one, and nothing else. */
  lemma RebuildCanFinish(s: State, lease: nat) returns (u: State)
    requires Reachable(s, lease)
    ensures CanReach(s, u, lease) && u.worker == Idle && u.log == s.log
    ensures forall n | n in s.log ::
              && |s.log[n]| > 0 && n in u.rows && u.rows[n].status == Ready
              && u.rows[n].indexed == u.rows[n].desired == Now(s.log[n]).revision
              && u.rows[n].visibility == Now(s.log[n]).visibility
    ensures forall n :: Served(u, n) == Newest(s.log, n)
  {
    hide CanReach, Reachable, DocumentOf;
    StaysPut(s, lease);
    Onward(s, s, Crash, lease);
    StartingPoint(s, lease);
    var drained := DrainsQueue(s, Step(s, Crash, lease), lease);
    var started := Starts(s, drained, lease);
    var scanned := ScansAll(s, started, lease);
    u := Ends(s, scanned, lease);
    forall n | n in s.log
      ensures |s.log[n]| > 0 && n in u.rows && u.rows[n].status == Ready
      ensures u.rows[n].indexed == u.rows[n].desired == Now(s.log[n]).revision
      ensures u.rows[n].visibility == Now(s.log[n]).visibility
    {
      AllScanned(scanned, n);
      Recording(s, scanned, u, n, lease);
    }
    forall n
      ensures Served(u, n) == Newest(s.log, n)
    {
      AllScanned(scanned, n);
    }
  }
}
