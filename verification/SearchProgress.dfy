/** The indexer does converge: one undisturbed pass brings a claimed projection to
    the newest revision, or moves its target there for the next pass. */
module SearchProgress {
  import opened Options
  import opened Projections
  import opened SearchProtocol
  import opened SearchSafety
  import opened SearchTheorems

  ghost predicate CanReach(s: State, s': State, lease: nat) {
    exists acts :: Leads(s, acts, s', lease)
  }

  lemma {:induction false} LeadsOn(s: State, acts: seq<Action>, t: State, a: Action, lease: nat)
    requires Leads(s, acts, t, lease) && Enabled(t, a, lease)
    ensures Leads(s, acts + [a], Step(t, a, lease), lease)
    decreases |acts|
  {
    if acts == [] {
      assert Leads(Step(t, a, lease), ([a])[1..], Step(t, a, lease), lease);
      assert acts + [a] == [a];
    } else {
      LeadsOn(Step(s, acts[0], lease), acts[1..], t, a, lease);
      assert (acts + [a])[1..] == acts[1..] + [a];
    }
  }

  lemma Onward(s: State, t: State, a: Action, lease: nat)
    requires CanReach(s, t, lease) && Enabled(t, a, lease)
    ensures CanReach(s, Step(t, a, lease), lease)
  {
    var acts :| Leads(s, acts, t, lease);
    LeadsOn(s, acts, t, a, lease);
  }

  lemma StaysPut(s: State, lease: nat)
    ensures CanReach(s, s, lease)
  {
    assert Leads(s, [], s, lease);
  }

  /** Undisturbed, the six statements read the newest committed state. */
  lemma {:induction false} ReadsDocument(s: State, t: State, lease: nat) returns (u: State)
    requires CanReach(s, t, lease) && t.worker.Reading?
    requires t.worker.work.news in t.log && |t.log[t.worker.work.news]| > 0
    requires var snap := Now(t.log[t.worker.work.news]);
             && |snap.parts| == STATEMENTS && |t.worker.parts| < STATEMENTS
             && (t.worker.parts != [] ==> t.worker.head == (snap.revision, snap.visibility))
             && forall k | 0 <= k < |t.worker.parts| :: snap.parts[k] == Some(t.worker.parts[k])
    ensures CanReach(s, u, lease)
    ensures u == t.(worker := Loaded(t.worker.work, DocumentOf(Now(t.log[t.worker.work.news]))))
    decreases STATEMENTS - |t.worker.parts|
  {
    var w := t.worker;
    var snap := Now(t.log[w.work.news]);
    var k := |w.parts|;
    var next := Step(t, Read, lease);
    Onward(s, t, Read, lease);
    if snap.parts[k] == None {
      return next;
    }
    var parts := w.parts + [snap.parts[k].value];
    if |parts| == STATEMENTS {
      assert parts == seq(STATEMENTS, j requires 0 <= j < STATEMENTS => snap.parts[j].value);
      return next;
    }
    u := ReadsDocument(s, next, lease);
  }

  /** The engine works its queue off, with every task from here on succeeding. */
  lemma {:induction false} DrainsQueue(s: State, t: State, lease: nat) returns (u: State)
    requires CanReach(s, t, lease) && |t.outcomes| <= |t.tasks|
    ensures CanReach(s, u, lease)
    ensures |u.outcomes| == |u.tasks| && t.outcomes <= u.outcomes
    ensures u == t.(outcomes := u.outcomes, indexes := u.indexes)
    ensures forall i | |t.outcomes| <= i < |u.outcomes| :: u.outcomes[i]
    decreases |t.tasks| - |t.outcomes|
  {
    if |t.outcomes| == |t.tasks| {
      return t;
    }
    Onward(s, t, Execute(true), lease);
    u := DrainsQueue(s, Step(t, Execute(true), lease), lease);
  }

  /** The first half of a pass: claim, read, send, store, and wait until the engine is done with it. */
  lemma Waits(s: State, n: NewsId, now: int, lease: nat) returns (u: State)
    requires Inv(s) && Enabled(s, Claim(n, now), lease) && s.rows[n].task == None
    ensures CanReach(s, u, lease)
    ensures n in s.log && |s.log[n]| > 0 && n in u.rows && u.log == s.log && u.clock == now
    ensures var work := Work(n, s.rows[n].desired, None);
            && u.worker == Waiting(work, |s.tasks|) && Done(u, |s.tasks|)
            && |s.tasks| < |u.tasks| && Written(u.tasks[|s.tasks|], n) == DocumentOf(Now(s.log[n]))
            && u.rows[n] == TaskStored(Claimed(s.rows[n], now), work, |s.tasks|, now)
  {
    hide CanReach, RebuildEngine;
    assert ItemInv(s, n);
    StaysPut(s, lease);
    var claimed := Step(s, Claim(n, now), lease);
    Onward(s, s, Claim(n, now), lease);
    var read := ReadsDocument(s, claimed, lease);
    var sent := Step(read, Send, lease);
    Onward(s, read, Send, lease);
    var stored := Step(sent, Store(now), lease);
    Onward(s, sent, Store(now), lease);
    u := DrainsQueue(s, stored, lease);
  }

  /** The first half of a pass that finds an engine task already sent: it reads the
      document all the same, and waits for that task. */
  lemma WaitsAgain(s: State, n: NewsId, now: int, lease: nat) returns (u: State)
    requires Inv(s) && Enabled(s, Claim(n, now), lease) && s.rows[n].task.Some?
    ensures CanReach(s, u, lease)
    ensures n in s.log && |s.log[n]| > 0 && n in u.rows && u.log == s.log && u.clock == now && u.tasks == s.tasks
    ensures var t := s.rows[n].task.value;
            && u.worker == Waiting(Work(n, s.rows[n].desired, Some(t)), t) && t < |u.outcomes|
            && u.outcomes[t] == !HasFailed(s, Some(t))
            && u.rows[n] == Claimed(s.rows[n], now)
  {
    hide CanReach, RebuildEngine;
    assert ItemInv(s, n);
    StaysPut(s, lease);
    var claimed := Step(s, Claim(n, now), lease);
    Onward(s, s, Claim(n, now), lease);
    var read := ReadsDocument(s, claimed, lease);
    var sent := Step(read, Send, lease);
    Onward(s, read, Send, lease);
    u := DrainsQueue(s, sent, lease);
  }

  /** The engine has run the task and it failed. */
  predicate HasFailed(s: State, task: Option<nat>) {
    task.Some? && task.value < |s.outcomes| && !s.outcomes[task.value]
  }

  /** What a pass leaves behind: the index serves what was read at the target, the row
      says so, or the target is moved to the newest revision. */
  ghost predicate Progressed(s: State, u: State, n: NewsId)
    requires n in s.rows && n in u.rows && n in s.log && |s.log[n]| > 0
  {
    && u.rows[n].desired == Now(s.log[n]).revision
    && if s.rows[n].desired == Now(s.log[n]).revision then
         && u.rows[n].status == Ready && u.rows[n].indexed == u.rows[n].desired
         && u.rows[n].visibility == Now(s.log[n]).visibility
         && ReadWithin(s.log[n], Served(u, n), u.rows[n].desired, u.rows[n].desired)
       else u.rows[n].status == Pending && u.rows[n].task == None && Claimable(u.rows[n], u.clock, 0)
  }

  /** One pass over a claimable row, with nothing else moving. With no engine task in
      hand it serves exactly the document of the newest state; with one, what that task
      wrote, which was read at the target as well; and one that has failed is forgotten,
      for a new claim a lease later. */
  lemma OnePass(s: State, n: NewsId, now: int, lease: nat) returns (u: State)
    requires Reachable(s, lease) && Enabled(s, Claim(n, now), lease)
    ensures CanReach(s, u, lease)
    ensures n in s.log && |s.log[n]| > 0 && n in u.rows && u.log == s.log && u.worker == Idle && u.clock == now
    ensures if HasFailed(s, s.rows[n].task) then
              && u.rows[n] == Claimed(s.rows[n], now).(status := Failed, task := None)
              && Claimable(u.rows[n], now + lease, lease)
            else Progressed(s, u, n)
    ensures u.rows[n].status == Ready ==>
              match s.rows[n].task
              case None => Served(u, n) == DocumentOf(Now(s.log[n]))
              case Some(t) => t < |s.tasks| && Served(u, n) == Written(s.tasks[t], n)
    ensures s.rows[n].task.Some? ==> u.tasks == s.tasks
  {
    hide CanReach, RebuildEngine, DocumentOf, ReadWithin, TaskFor;
    ReachableInv(s, lease);
    assert ItemInv(s, n);
    var waiting: State;
    if s.rows[n].task == None {
      waiting := Waits(s, n, now, lease);
    } else {
      waiting := WaitsAgain(s, n, now, lease);
    }
    if HasFailed(s, s.rows[n].task) {
      u := Step(waiting, Fail(true, now), lease);
      Onward(s, waiting, Fail(true, now), lease);
    } else {
      DrainedServes(s, waiting, n, lease);
      u := Step(waiting, Complete(now), lease);
      Onward(s, waiting, Complete(now), lease);
      ReadyServes(s, u, n, lease);
    }
  }

  // ---- an engine task is sent once for a target ----

  /** The task just sent is kept on the row exactly while the row still aims at what it
      was read for, and the indexer waits for it. */
  lemma StoreKeepsTheTask(s: State, now: int, lease: nat)
    requires Enabled(s, Store(now), lease)
    ensures var n, s' := s.worker.work.news, Step(s, Store(now), lease);
            && n in s'.rows && s'.tasks == s.tasks && s'.worker == Waiting(s.worker.work, s.worker.task)
            && s'.rows[n].task == if s.rows[n].desired == s.worker.work.revision then Some(s.worker.task) else s.rows[n].task
  {
  }

  /** A failure forgets the task exactly if that is what failed; a crash forgets nothing. */
  lemma FailureKeepsTheTask(s: State, taskFailed: bool, now: int, lease: nat)
    requires Enabled(s, Fail(taskFailed, now), lease)
    ensures var n, s' := s.worker.work.news, Step(s, Fail(taskFailed, now), lease);
            && n in s'.rows && s'.rows[n].task == (if taskFailed then None else s.rows[n].task)
            && s'.rows[n].status == Failed && s'.rows[n].desired == s.rows[n].desired && s'.tasks == s.tasks
    ensures Step(s, Crash, lease).rows == s.rows && Step(s, Crash, lease).tasks == s.tasks
  {
  }

  /** A later claim hands that task out again. */
  lemma ClaimHandsOutTheTask(s: State, n: NewsId, now: int, lease: nat)
    requires Enabled(s, Claim(n, now), lease)
    ensures var s' := Step(s, Claim(n, now), lease);
            && s'.worker.Reading? && s'.worker.work.news == n
            && s'.worker.work.existing == s.rows[n].task && s'.worker.work.revision == s.rows[n].desired
            && s'.rows[n].task == s.rows[n].task && s'.tasks == s.tasks
  {
  }

  /** So a pass cut short by a crash after its task was stored is taken up again without
      sending anything: the next pass over the row adds no engine task, and unless that
      task has failed it ends with what the task wrote being served. */
  lemma CrashedPassResumes(s: State, stored: int, later: int, lease: nat) returns (u: State)
    requires Reachable(s, lease) && Enabled(s, Store(stored), lease) && stored + lease <= later
    requires s.rows[s.worker.work.news].desired == s.worker.work.revision
    ensures CanReach(s, u, lease) && u.tasks == s.tasks && u.log == s.log && u.worker == Idle
    ensures var n := s.worker.work.news;
            && n in s.log && |s.log[n]| > 0 && n in u.rows && s.worker.task < |s.tasks|
            && (!HasFailed(s, Some(s.worker.task)) && s.rows[n].desired == Now(s.log[n]).revision ==>
                  u.rows[n].status == Ready && Served(u, n) == Written(s.tasks[s.worker.task], n))
  {
    hide CanReach, Reachable, DocumentOf, Written, TaskFor;
    var n, task := s.worker.work.news, s.worker.task;
    SentRow(s, lease);
    var waiting := Step(s, Store(stored), lease);
    StoreKeepsTheTask(s, stored, lease);
    StaysPut(s, lease);
    Onward(s, s, Store(stored), lease);
    var crashed := Step(waiting, Crash, lease);
    Onward(s, waiting, Crash, lease);
    StaysPut(crashed, lease);
    Through(s, crashed, crashed, lease);
    u := OnePass(crashed, n, later, lease);
    Through(s, crashed, u, lease);
  }

  lemma SentRow(s: State, lease: nat)
    requires Reachable(s, lease) && s.worker.Sent?
    ensures var n := s.worker.work.news;
            && n in s.rows && n in s.log && |s.log[n]| > 0 && s.rows[n].indexed < s.rows[n].desired
            && s.worker.task < |s.tasks| && s.rows[n].status != Ready && s.rows[n].updated <= s.clock
  {
    ReachableInv(s, lease);
    assert ItemInv(s, s.worker.work.news);
  }

  /** A checkpoint leaves a row ready exactly if the news still is at the snapshot's two
      revisions, and otherwise pending with its target there. */
  lemma RecordedIsReadyExactly(s: State, now: int, lease: nat, n: NewsId)
    requires Enabled(s, Record(now), lease) && n in s.worker.r.snaps
    ensures var s', current := Step(s, Record(now), lease), Now(s.log[n]);
            && n in s'.rows
            && (s'.rows[n].status == Ready <==> (current.revision, current.visibility) == s.worker.r.snaps[n])
            && (s'.rows[n].status != Ready ==> s'.rows[n].status == Pending)
            && s'.rows[n].desired >= current.revision && s'.rows[n].task == None
            && (s'.rows[n].indexed, s'.rows[n].visibility) == s.worker.r.snaps[n]
  {
  }

  /** A rebuild that is given up, or has swapped, asks the engine to drop what its
      temporary index holds, as the last thing it asks for. */
  lemma RebuildDropsItsIndex(s: State, a: Action, lease: nat)
    requires Enabled(s, a, lease) && (a.Abort? || a.FinishSwap?)
    ensures Step(s, a, lease).tasks == s.tasks + [Drop(s.worker.r.temp)]
    ensures a.Abort? ==> Step(s, a, lease).worker == Idle && Step(s, a, lease).rows == s.rows
  {
  }

  /** What an index holds for a news item after the engine's next task: a failed task
      changes nothing, a put and a delete reach their own index, a swap exchanges two. */
  lemma EngineRuns(s: State, ok: bool, lease: nat, i: nat, n: NewsId)
    requires Enabled(s, Execute(ok), lease)
    ensures var before := ContentIn(IndexOf(s.indexes, i), n);
            var after := ContentIn(IndexOf(Step(s, Execute(ok), lease).indexes, i), n);
            var main, t := ContentIn(IndexOf(s.indexes, MAIN), n), s.tasks[|s.outcomes|];
            && (!ok ==> after == before)
            && (ok && t.Put? ==> after == if i == t.index && n in t.docs then Present(t.docs[n]) else before)
            && (ok && t.Delete? ==> after == if i == t.index && n == t.news then Absent else before)
            && (ok && t.Drop? ==> after == if i == t.index then Absent else before)
            && (ok && t.Swap? ==>
                  after == if i == t.index then main
                           else if i == MAIN then ContentIn(IndexOf(s.indexes, t.index), n)
                           else before)
  {
    hide Claimable, IsPage;
    match s.tasks[|s.outcomes|]
    case Put(_, _) =>
    case Delete(_, _) =>
    case Swap(_) =>
    case Drop(_) =>
  }

  lemma {:induction false} LeadsThrough(s: State, acts: seq<Action>, t: State, more: seq<Action>, u: State, lease: nat)
    requires Leads(s, acts, t, lease) && Leads(t, more, u, lease)
    ensures Leads(s, acts + more, u, lease)
    decreases |acts|
  {
    hide Enabled, Step;
    if acts == [] {
      assert acts + more == more;
    } else {
      LeadsThrough(Step(s, acts[0], lease), acts[1..], t, more, u, lease);
      assert (acts + more)[1..] == acts[1..] + more;
    }
  }

  lemma Through(s: State, t: State, u: State, lease: nat)
    requires CanReach(s, t, lease) && CanReach(t, u, lease)
    ensures CanReach(s, u, lease)
    ensures Reachable(s, lease) ==> Reachable(t, lease)
  {
    var acts :| Leads(s, acts, t, lease);
    var more :| Leads(t, more, u, lease);
    LeadsThrough(s, acts, t, more, u, lease);
    if Reachable(s, lease) {
      var first :| Leads(INIT, first, s, lease);
      LeadsThrough(INIT, first, s, acts, t, lease);
    }
  }

  /** How many passes a row needs beyond one. */
  function Extra(s: State, n: NewsId): nat
    requires n in s.rows && n in s.log && |s.log[n]| > 0
  {
    (if HasFailed(s, s.rows[n].task) then 2 else 0) + if s.rows[n].desired == Now(s.log[n]).revision then 0 else 1
  }

  /** From whatever reachable state, left alone the indexer brings a row that is behind
      to the newest revision, in at most three passes a lease apart. */
  lemma {:induction false} CatchesUp(s: State, n: NewsId, now: int, lease: nat) returns (u: State)
    requires Reachable(s, lease) && s.worker.Idle? && s.clock <= now
    requires n in s.rows && Claimable(s.rows[n], now, lease)
    requires n in s.log && |s.log[n]| > 0
    ensures CanReach(s, u, lease) && u.log == s.log && n in u.rows
    ensures u.rows[n].status == Ready && u.rows[n].indexed == Now(s.log[n]).revision
    ensures ReadWithin(s.log[n], Served(u, n), Now(s.log[n]).revision, Now(s.log[n]).revision)
    decreases Extra(s, n)
  {
    hide CanReach, Reachable, DocumentOf, ReadWithin, Written;
    var t := OnePass(s, n, now, lease);
    if t.rows[n].status == Ready {
      return t;
    }
    StaysPut(t, lease);
    Through(s, t, t, lease);
    u := CatchesUp(t, n, now + lease, lease);
    Through(s, t, u, lease);
  }

  /** Also when a worker holds the lock: it may crash. */
  lemma AlwaysCatchesUp(s: State, n: NewsId, lease: nat) returns (u: State)
    requires Reachable(s, lease) && n in s.rows && s.rows[n].indexed < s.rows[n].desired
    ensures n in s.log && |s.log[n]| > 0
    ensures CanReach(s, u, lease) && u.log == s.log && n in u.rows
    ensures u.rows[n].status == Ready && u.rows[n].indexed == Now(s.log[n]).revision
    ensures ReadWithin(s.log[n], Served(u, n), Now(s.log[n]).revision, Now(s.log[n]).revision)
  {
    hide CanReach, Reachable, ReadWithin;
    NoLostWakeup(s, lease, n, s.clock + lease);
    var idle := Step(s, Crash, lease);
    StaysPut(s, lease);
    Onward(s, s, Crash, lease);
    StaysPut(idle, lease);
    Through(s, idle, idle, lease);
    u := CatchesUp(idle, n, s.clock + lease, lease);
    Through(s, idle, u, lease);
  }

  lemma ReadyServes(s: State, u: State, n: NewsId, lease: nat)
    requires Reachable(s, lease) && CanReach(s, u, lease) && n in u.rows
    ensures n in u.log
    ensures u.rows[n].status == Ready ==> ReadWithin(u.log[n], Served(u, n), u.rows[n].desired, u.rows[n].desired)
  {
    ReachableInv(s, lease);
    var acts :| Leads(s, acts, u, lease);
    RunKeepsInv(s, acts, u, lease);
    assert ItemInv(u, n);
  }

  lemma DrainedServes(s: State, drained: State, n: NewsId, lease: nat)
    requires Reachable(s, lease) && CanReach(s, drained, lease)
    requires drained.worker.Waiting? && drained.worker.work.news == n && Done(drained, drained.worker.task)
    ensures n in drained.log && drained.worker.task < |drained.tasks|
    ensures Served(drained, n) == Written(drained.tasks[drained.worker.task], n)
  {
    ReachableInv(s, lease);
    var acts :| Leads(s, acts, drained, lease);
    RunKeepsInv(s, acts, drained, lease);
    assert ItemInv(drained, n);
  }
}
