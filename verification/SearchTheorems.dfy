/** What readers of the index may rely on, in every state any run reaches. */
module SearchTheorems {
  import opened Options
  import opened Projections
  import opened SearchProtocol
  import opened SearchSafety
  import opened SearchPreservation

  // ---- the invariant over whole runs ----

  lemma EnvironmentKeepsGlobal(s: State, a: Action, lease: nat)
    requires Inv(s) && Enabled(s, a, lease)
    requires a.Create? || a.Write? || a.Event? || a.Crash?
    ensures GlobalInv(Step(s, a, lease))
  {
    if IsRebuilding(s.worker) {
      var s' := Step(s, a, lease);
      forall i | 0 <= i < |RebuildPage(s.worker)|
        ensures !a.Crash? ==> PageRowGood(s', RebuildPage(s'.worker)[i])
      {
        assert PageRowGood(s, RebuildPage(s.worker)[i]);
      }
    }
  }

  lemma ExecuteKeepsGlobal(s: State, ok: bool, lease: nat)
    requires Inv(s) && Enabled(s, Execute(ok), lease)
    ensures GlobalInv(Step(s, Execute(ok), lease))
  {
    if IsRebuilding(s.worker) {
      var s' := Step(s, Execute(ok), lease);
      forall i | 0 <= i < |RebuildPage(s.worker)|
        ensures PageRowGood(s', RebuildPage(s'.worker)[i])
      {
        assert PageRowGood(s, RebuildPage(s.worker)[i]);
      }
    }
  }

  lemma IndexingKeepsGlobal(s: State, a: Action, lease: nat)
    requires Inv(s) && Enabled(s, a, lease)
    requires a.Claim? || (a.Read? && s.worker.Reading?) || a.Send? || a.Store? || a.Complete? || a.Fail?
    ensures GlobalInv(Step(s, a, lease))
  {
    if a.Claim? {
      assert ItemInv(s, a.n);
    }
  }

  lemma StartRebuildKeepsGlobal(s: State, temp: nat, now: int, lease: nat)
    requires Inv(s) && Enabled(s, StartRebuild(temp, now), lease)
    ensures GlobalInv(Step(s, StartRebuild(temp, now), lease))
  {
  }

  lemma NextPageKeepsGlobal(s: State, rows: seq<PageRow>, lease: nat)
    requires Inv(s) && Enabled(s, NextPage(rows), lease)
    ensures GlobalInv(Step(s, NextPage(rows), lease))
  {
    var s' := Step(s, NextPage(rows), lease);
    forall i | 0 <= i < |rows|
      ensures PageRowGood(s', RebuildPage(s'.worker)[i])
    {
      assert ItemInv(s, rows[i].news);
    }
  }

  /** What is known of a page is known of what is left of it. */
  lemma PageTail(s: State, page: seq<PageRow>)
    requires |page| > 0
    requires forall i | 0 <= i < |page| :: PageRowGood(s, page[i])
    requires forall i, j | 0 <= i < j < |page| :: page[i].news < page[j].news
    ensures var rest := page[1..];
            && (forall i | 0 <= i < |rest| :: PageRowGood(s, rest[i]))
            && (forall i | 0 <= i < |rest| :: After(Some(page[0].news), rest[i].news))
            && (forall i, j | 0 <= i < j < |rest| :: rest[i].news < rest[j].news)
  {
    hide PageRowGood;
  }

  lemma OpenKeepsGlobal(s: State, a: Action, lease: nat)
    requires GlobalInv(s) && Enabled(s, a, lease) && a.OpenDocument?
    ensures GlobalInv(Step(s, a, lease))
  {
    var s' := Step(s, a, lease);
    assert RebuildPage(s'.worker) == RebuildPage(s.worker);
    forall i | 0 <= i < |RebuildPage(s'.worker)|
      ensures PageRowGood(s', RebuildPage(s'.worker)[i])
    {
      assert PageRowGood(s, RebuildPage(s.worker)[i]);
    }
  }

  lemma ScanReadKeepsGlobal(s: State, a: Action, lease: nat)
    requires GlobalInv(s) && Enabled(s, a, lease) && a.Read? && s.worker.ScanReading?
    ensures GlobalInv(Step(s, a, lease))
  {
    var page := RebuildPage(s.worker);
    PageTail(s, page);
    var s' := Step(s, a, lease);
    assert RebuildPage(s'.worker) == page || RebuildPage(s'.worker) == page[1..];
    forall i | 0 <= i < |RebuildPage(s'.worker)|
      ensures PageRowGood(s', RebuildPage(s'.worker)[i])
    {
      assert PageRowGood(s, RebuildPage(s'.worker)[i]);
    }
  }

  lemma ScanKeepsGlobal(s: State, a: Action, lease: nat)
    requires Inv(s) && Enabled(s, a, lease)
    requires a.OpenDocument? || (a.Read? && s.worker.ScanReading?)
    ensures GlobalInv(Step(s, a, lease))
  {
    hide Step, GlobalInv;
    if a.OpenDocument? {
      OpenKeepsGlobal(s, a, lease);
    } else {
      ScanReadKeepsGlobal(s, a, lease);
    }
  }

  lemma BatchKeepsGlobal(s: State, a: Action, lease: nat)
    requires Inv(s) && Enabled(s, a, lease)
    requires a.Flush? || a.Flushed?
    ensures GlobalInv(Step(s, a, lease))
  {
    var s' := Step(s, a, lease);
    assert RebuildPage(s'.worker) == RebuildPage(s.worker) && s'.worker.r.last == s.worker.r.last;
    forall i | 0 <= i < |RebuildPage(s.worker)|
      ensures PageRowGood(s', RebuildPage(s'.worker)[i])
    {
      assert PageRowGood(s, RebuildPage(s.worker)[i]);
    }
  }

  lemma SwapKeepsGlobal(s: State, a: Action, lease: nat)
    requires Inv(s) && Enabled(s, a, lease)
    requires a.StartSwap? || a.FinishSwap? || a.Record? || a.Abort?
    ensures GlobalInv(Step(s, a, lease))
  {
    if a.StartSwap? {
      forall n | n in s.worker.r.from
        ensures n in s.worker.r.snaps
      {
        assert ItemInv(s, n);
      }
      hide Inv;
      StartSwapKeepsGlobal(s, a, lease);
    } else {
      hide Inv;
      EndSwapKeepsGlobal(s, a, lease);
    }
  }

  lemma StartSwapKeepsGlobal(s: State, a: Action, lease: nat)
    requires GlobalInv(s) && Enabled(s, a, lease) && a.StartSwap?
    requires s.worker.r.from <= s.worker.r.snaps.Keys
    ensures GlobalInv(Step(s, a, lease))
  {
  }

  lemma EndSwapKeepsGlobal(s: State, a: Action, lease: nat)
    requires GlobalInv(s) && Enabled(s, a, lease) && (a.FinishSwap? || a.Record? || a.Abort?)
    ensures GlobalInv(Step(s, a, lease))
  {
  }

  /** The other news item a step is about, when it is about one. */
  function Subject(s: State, a: Action, n: NewsId): NewsId {
    if a.Claim? then a.n
    else if IsProcessing(s.worker) then s.worker.work.news
    else if s.worker.ScanReading? && |s.worker.page| > 0 then s.worker.page[0].news
    else n
  }

  lemma EnvironmentKept(s: State, a: Action, lease: nat, n: NewsId)
    requires GlobalInv(s) && ItemInv(s, n) && Enabled(s, a, lease)
    requires a.Create? || a.Write? || a.Event? || a.Execute? || a.Crash?
    ensures ItemInv(Step(s, a, lease), n)
  {
    hide GlobalInv, ItemInv, Step, Enabled;
    match a
    case Create(m, snap) => CreateKeeps(s, m, snap, lease, n);
    case Write(m, snap) => WriteKeeps(s, m, snap, lease, n);
    case Event(m, requested, seen, now) => EventKeeps(s, m, requested, seen, now, lease, n);
    case Execute(ok) => ExecuteKeeps(s, ok, lease, n);
    case Crash => CrashKeeps(s, lease, n);
  }

  lemma IndexingKept(s: State, a: Action, lease: nat, n: NewsId)
    requires GlobalInv(s) && ItemInv(s, n) && ItemInv(s, Subject(s, a, n)) && Enabled(s, a, lease)
    requires a.Claim? || (a.Read? && s.worker.Reading?) || a.Send? || a.Store? || a.Complete? || a.Fail?
    ensures ItemInv(Step(s, a, lease), n)
  {
    hide GlobalInv, ItemInv, Step;
    match a
    case Claim(m, now) => ClaimKeeps(s, m, now, lease, n);
    case Read => ReadKeeps(s, lease, n);
    case Send =>
      if s.worker.work.existing.Some? {
        AdoptKeeps(s, lease, n);
      } else if s.worker.work.news == n {
        SendOwnKeeps(s, lease, n);
      } else {
        SendOtherKeeps(s, lease, n);
      }
    case Store(now) => StoreKeeps(s, now, lease, n);
    case Complete(now) =>
      if s.worker.work.news == n {
        CompleteOwn(s, now, lease, n);
      } else {
        CompleteOther(s, now, lease, n);
      }
    case Fail(taskFailed, now) => FailKeeps(s, taskFailed, now, lease, n);
  }

  lemma RebuildKept(s: State, a: Action, lease: nat, n: NewsId)
    requires GlobalInv(s) && ItemInv(s, n) && Enabled(s, a, lease)
    requires a.StartRebuild? || a.NextPage? || a.OpenDocument? || a.Flush? || a.Flushed?
          || a.StartSwap? || a.FinishSwap? || a.Record? || a.Abort?
    ensures ItemInv(Step(s, a, lease), n)
  {
    hide GlobalInv, ItemInv, Step, Enabled;
    match a
    case StartRebuild(temp, now) => StartRebuildKeeps(s, temp, now, lease, n);
    case NextPage(rows) => NextPageKeeps(s, rows, lease, n);
    case OpenDocument => OpenDocumentKeeps(s, lease, n);
    case Flush => FlushKeeps(s, lease, n);
    case Flushed => FlushedKeeps(s, lease, n);
    case StartSwap => StartSwapKeeps(s, lease, n);
    case FinishSwap => FinishSwapKeeps(s, lease, n);
    case Record(now) => RecordKeeps(s, now, lease, n);
    case Abort => AbortKeeps(s, lease, n);
  }

  lemma ScanKept(s: State, lease: nat, n: NewsId)
    requires GlobalInv(s) && ItemInv(s, n) && Enabled(s, Read, lease) && s.worker.ScanReading?
    requires ItemInv(s, Subject(s, Read, n))
    ensures ItemInv(Step(s, Read, lease), n)
  {
    hide GlobalInv, ItemInv, Step;
    if ReadStep(Now(s.log[s.worker.page[0].news]), s.worker.head, s.worker.parts).More? {
      ScanMoreKeeps(s, lease, n);
    } else {
      ScanEndKeeps(s, lease, n);
    }
  }

  lemma ItemKept(s: State, a: Action, lease: nat, n: NewsId)
    requires GlobalInv(s) && ItemInv(s, n) && ItemInv(s, Subject(s, a, n)) && Enabled(s, a, lease)
    ensures ItemInv(Step(s, a, lease), n)
  {
    hide GlobalInv, ItemInv, Step;
    if a.Create? || a.Write? || a.Event? || a.Execute? || a.Crash? {
      EnvironmentKept(s, a, lease, n);
    } else if a.Read? && s.worker.ScanReading? {
      ScanKept(s, lease, n);
    } else if a.Claim? || a.Read? || a.Send? || a.Store? || a.Complete? || a.Fail? {
      IndexingKept(s, a, lease, n);
    } else {
      RebuildKept(s, a, lease, n);
    }
  }

  lemma StepKeepsInv(s: State, a: Action, lease: nat)
    requires Inv(s) && Enabled(s, a, lease)
    ensures Inv(Step(s, a, lease))
  {
    hide GlobalInv, ItemInv, Step;
    match a {
      case Create(_, _) => EnvironmentKeepsGlobal(s, a, lease);
      case Write(_, _) => EnvironmentKeepsGlobal(s, a, lease);
      case Event(_, _, _, _) => EnvironmentKeepsGlobal(s, a, lease);
      case Crash => EnvironmentKeepsGlobal(s, a, lease);
      case Execute(ok) => ExecuteKeepsGlobal(s, ok, lease);
      case Read =>
        if s.worker.Reading? {
          IndexingKeepsGlobal(s, a, lease);
        } else {
          ScanKeepsGlobal(s, a, lease);
        }
      case OpenDocument => ScanKeepsGlobal(s, a, lease);
      case StartRebuild(temp, now) => StartRebuildKeepsGlobal(s, temp, now, lease);
      case NextPage(rows) => NextPageKeepsGlobal(s, rows, lease);
      case Flush => BatchKeepsGlobal(s, a, lease);
      case Flushed => BatchKeepsGlobal(s, a, lease);
      case StartSwap => SwapKeepsGlobal(s, a, lease);
      case FinishSwap => SwapKeepsGlobal(s, a, lease);
      case Record(_) => SwapKeepsGlobal(s, a, lease);
      case Abort => SwapKeepsGlobal(s, a, lease);
      case _ => IndexingKeepsGlobal(s, a, lease);
    }
    forall n
      ensures ItemInv(Step(s, a, lease), n)
    {
      assert ItemInv(s, n) && ItemInv(s, Subject(s, a, n));
      ItemKept(s, a, lease, n);
    }
  }

  /** `acts` is a run from `s` to `s'`. */
  ghost predicate Leads(s: State, acts: seq<Action>, s': State, lease: nat)
    decreases |acts|
  {
    if acts == [] then s' == s
    else Enabled(s, acts[0], lease) && Leads(Step(s, acts[0], lease), acts[1..], s', lease)
  }

  ghost predicate Reachable(s: State, lease: nat) {
    exists acts :: Leads(INIT, acts, s, lease)
  }

  lemma {:induction false} RunKeepsInv(s: State, acts: seq<Action>, s': State, lease: nat)
    requires Inv(s) && Leads(s, acts, s', lease)
    ensures Inv(s')
    decreases |acts|
  {
    if acts != [] {
      StepKeepsInv(s, acts[0], lease);
      RunKeepsInv(Step(s, acts[0], lease), acts[1..], s', lease);
    }
  }

  lemma ReachableInv(s: State, lease: nat)
    requires Reachable(s, lease)
    ensures Inv(s)
  {
    var acts :| Leads(INIT, acts, s, lease);
    RunKeepsInv(INIT, acts, s, lease);
  }

  // ---- the theorems ----

  /** A projection that says `ready` at revision r is right: every part the index
      serves, or its absence, was read while the news was at revision r. */
  lemma ReadyAgrees(s: State, lease: nat, n: NewsId)
    requires Reachable(s, lease) && n in s.rows && s.rows[n].status == Ready
    ensures n in s.log && s.rows[n].indexed == s.rows[n].desired >= 1
    ensures ReadWithin(s.log[n], Served(s, n), s.rows[n].indexed, s.rows[n].indexed)
    ensures Settled(s, n)
  {
    ReachableInv(s, lease);
    assert ItemInv(s, n);
  }

  /** The document of one committed state: what the six statements build from it. */
  function DocumentOf(snap: Snapshot): Content {
    if |snap.parts| == STATEMENTS && forall k | 0 <= k < STATEMENTS :: snap.parts[k].Some? then
      Present(Doc(snap.revision, snap.visibility,
                  seq(STATEMENTS, k requires 0 <= k < STATEMENTS => snap.parts[k].value)))
    else Absent
  }

  /** When revision r had a single committed state, the document is that state's, untorn. */
  lemma SingleStateIsExact(log: seq<Snapshot>, c: Content, r: nat, i: nat)
    requires i < |log| && |log[i].parts| == STATEMENTS && ReadWithin(log, c, r, r)
    requires forall j | 0 <= j < |log| && log[j].revision == r :: j == i
    ensures c == DocumentOf(log[i])
  {
    match c
    case Absent =>
      var k :| 0 <= k < STATEMENTS && PartSeen(log, k, None, r, r);
      assert log[i].parts[k] == None;
    case Present(d) =>
      assert HeadSeen(log, (d.revision, d.visibility), r, r);
      forall k | 0 <= k < STATEMENTS
        ensures log[i].parts[k] == Some(d.parts[k])
      {
        assert PartSeen(log, k, Some(d.parts[k]), r, r);
      }
      assert d.parts == DocumentOf(log[i]).doc.parts;
  }

  /** Once a projection's visibility has caught up with its news, the index serves
      what was read at the current revision and no accepted task will change that.
      It holds before, during and after a rebuild. */
  lemma VisibilityBarrier(s: State, lease: nat, n: NewsId)
    requires Reachable(s, lease) && n in s.rows && n in s.log
    requires |s.log[n]| > 0 && s.rows[n].visibility >= Now(s.log[n]).visibility
    ensures var r := Now(s.log[n]).revision; ReadWithin(s.log[n], Served(s, n), r, r)
    ensures Settled(s, n)
    ensures s.rows[n].indexed == Now(s.log[n]).revision
  {
    ReachableInv(s, lease);
    assert ItemInv(s, n);
  }

  /** The query behind `assert_visibility_ready` finds nothing pending. */
  ghost predicate VisibilityReady(s: State) {
    forall n | n in s.log && |s.log[n]| > 0 && |Now(s.log[n]).parts| > 0 ::
      Now(s.log[n]).parts[0].Some? || Now(s.log[n]).visibility > 1 ==>
        && n in s.rows
        && s.rows[n].visibility >= Now(s.log[n]).visibility
        && s.rows[n].status != Failed
  }

  lemma PublishedWhenPresent(log: seq<Snapshot>, c: Content, r: nat)
    requires ReadWithin(log, c, r, r)
    ensures c.Present? ==> exists i :: InRange(log, i, r, r) && log[i].parts[0].Some?
  {
    if c.Present? {
      assert PartSeen(log, 0, Some(c.doc.parts[0]), r, r);
    }
  }

  /** Behind an open barrier a news item that has been withdrawn is not served: if no
      state committed at its current revision yields a document, the index has none. */
  lemma NothingWithdrawnIsServed(s: State, lease: nat, n: NewsId)
    requires Reachable(s, lease) && VisibilityReady(s) && n in s.log
    requires |s.log[n]| > 0 && Now(s.log[n]).visibility > 1
    requires forall i | 0 <= i < |s.log[n]| && s.log[n][i].revision == Now(s.log[n]).revision ::
               |s.log[n][i].parts| > 0 && s.log[n][i].parts[0] == None
    ensures Served(s, n) == Absent
  {
    VisibilityBarrier(s, lease, n);
    var r := Now(s.log[n]).revision;
    PublishedWhenPresent(s.log[n], Served(s, n), r);
  }

  /** Work is never forgotten: a row behind its target is claimable by one lease from now. */
  lemma NoLostWakeup(s: State, lease: nat, n: NewsId, now: int)
    requires Reachable(s, lease) && n in s.rows && s.clock + lease <= now
    ensures n in s.log && |s.log[n]| > 0
    ensures s.rows[n].indexed <= s.rows[n].desired <= Now(s.log[n]).revision
    ensures s.rows[n].indexed < s.rows[n].desired <==> Claimable(s.rows[n], now, lease)
  {
    ReachableInv(s, lease);
    assert ItemInv(s, n);
  }

  /** Recording a rebuild: every news item it began with has a checkpoint, the index
      serves what was read no earlier than that checkpoint, and nothing else. */
  lemma RebuildCovers(s: State, now: int, lease: nat, n: NewsId)
    requires Reachable(s, lease) && Enabled(s, Record(now), lease)
    ensures var s' := Step(s, Record(now), lease);
            && (n in s.worker.r.from ==> n in s.worker.r.snaps)
            && (n in s.worker.r.snaps ==>
                  && n in s'.rows && s'.rows[n].indexed == s.worker.r.snaps[n].0
                  && ReadWithin(s'.log[n], Served(s', n), s'.rows[n].indexed, Now(s'.log[n]).revision))
            && (n !in s.worker.r.snaps ==> Served(s', n) == Absent)
  {
    ReachableInv(s, lease);
    assert ItemInv(s, n);
    assert Served(s, n) == Gathered(s.worker.r, n);
  }
}
