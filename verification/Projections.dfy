/** The bookkeeping row that ties one news item to the search index, and the
    transactions that move it. The class is the mapped row; the functions on
    `Projection` values say what each transaction does to it. */
module Projections {
  import opened Options

  datatype Status = Pending | Indexing | Ready | Failed

  datatype Projection = Projection(
    desired: nat, indexed: nat, visibility: nat, task: Option<nat>, status: Status, updated: int)

  /** What a claim hands to the indexer. */
  datatype Work = Work(news: int, revision: nat, existing: Option<nat>)

  const FRESH := Projection(0, 0, 0, None, Pending, 0)

  function Max(a: nat, b: nat): nat {
    if a < b then b else a
  }

  /** The `updated_at` column is stamped by every UPDATE that changes the row. */
  function Stamped(before: Projection, after: Projection, now: int): Projection {
    if before == after then before else after.(updated := now)
  }

  predicate Claimable(p: Projection, now: int, lease: nat) {
    && p.desired > p.indexed
    && p.status != Ready
    && (p.status == Pending || p.updated <= now - lease)
  }

  /** A claim keeps others away for one lease and no longer. */
  lemma ClaimHoldsForALease(p: Projection, claimed: int, now: int, lease: nat)
    requires p.indexed < p.desired
    ensures Claimable(Claimed(p, claimed), now, lease) <==> claimed + lease <= now
    ensures p.status == Pending ==> Claimable(p, now, lease)
  {
  }

  function Claimed(p: Projection, now: int): Projection {
    p.(status := Indexing, updated := now)
  }

  function TaskStored(p: Projection, work: Work, task: nat, now: int): Projection {
    if p.desired == work.revision then p.(task := Some(task), updated := now) else p
  }

  function Completed(p: Projection, work: Work, revision: nat, visibility: nat, now: int): Projection {
    if p.desired != work.revision || revision != work.revision then
      Stamped(p, p.(desired := Max(p.desired, revision), status := Pending, task := None), now)
    else
      p.(indexed := work.revision, visibility := visibility, status := Ready, task := None, updated := now)
  }

  function Broken(p: Projection, taskFailed: bool, now: int): Projection {
    p.(status := Failed, task := if taskFailed then None else p.task, updated := now)
  }

  function Zeroed(p: Projection, now: int): Projection {
    p.(indexed := 0, visibility := 0, status := Pending, task := None, updated := now)
  }

  /** The checkpoint a finished rebuild writes: `revision` and `visibility` are
      those of the snapshot, `current` and `currentVisibility` those of the news now. */
  function Recorded(
    p: Projection, revision: nat, visibility: nat, current: nat, currentVisibility: nat, now: int): Projection
  {
    Projection(
      Max(p.desired, current), revision, visibility, None,
      if (current, currentVisibility) == (revision, visibility) then Ready else Pending, now)
  }

  /** A projection event: `requested` is the revision in its payload, `seen` the
      news revision its handler read. */
  function Requested(p: Projection, requested: nat, seen: nat, now: int): Projection {
    Stamped(p, p.(desired := Max(p.desired, Max(requested, seen)), status := Pending, task := None), now)
  }

  /** The mapped row: the session loads it FOR UPDATE and assigns its fields. */
  class Row {
    var desired: nat
    var indexed: nat
    var visibility: nat
    var task: Option<nat>
    var status: Status
    var updated: int

    constructor ()
      ensures Value() == FRESH
    {
      desired, indexed, visibility, task, status, updated := 0, 0, 0, None, Pending, 0;
    }

    function Value(): Projection
      reads this
    {
      Projection(desired, indexed, visibility, task, status, updated)
    }

    method Claim(news: int, now: int) returns (work: Work)
      modifies this
      ensures Value() == Claimed(old(Value()), now)
      ensures status == Indexing && updated == now && task == old(task)
      ensures desired == old(desired) && indexed == old(indexed) && visibility == old(visibility)
      ensures work == Work(news, old(desired), old(task))
    {
      status := Indexing;
      updated := now;
      work := Work(news, desired, task);
    }

    method StoreTask(work: Work, uid: nat, now: int)
      modifies this
      ensures Value() == TaskStored(old(Value()), work, uid, now)
      ensures old(desired) == work.revision ==> task == Some(uid) && updated == now
      ensures old(desired) != work.revision ==> task == old(task) && updated == old(updated)
      ensures desired == old(desired) && indexed == old(indexed) && visibility == old(visibility) && status == old(status)
    {
      if desired == work.revision {
        task := Some(uid);
        updated := now;
      }
    }

    method Complete(work: Work, newsRevision: nat, newsVisibility: nat, now: int)
      modifies this
      ensures Value() == Completed(old(Value()), work, newsRevision, newsVisibility, now)
      ensures task == None && status == if old(desired) == work.revision == newsRevision then Ready else Pending
      ensures status == Ready ==>
                desired == indexed == newsRevision && visibility == newsVisibility && updated == now
      ensures status == Pending ==>
                && indexed == old(indexed) && visibility == old(visibility)
                && desired >= old(desired) && desired >= newsRevision && (desired == old(desired) || desired == newsRevision)
    {
      if desired != work.revision || newsRevision != work.revision {
        var before := Value();
        desired := Max(desired, newsRevision);
        status := Pending;
        task := None;
        if Value() != before {
          updated := now;
        }
        return;
      }
      indexed := work.revision;
      visibility := newsVisibility;
      status := Ready;
      task := None;
      updated := now;
    }

    method Fail(taskFailed: bool, now: int)
      modifies this
      ensures Value() == Broken(old(Value()), taskFailed, now)
      ensures status == Failed && updated == now && task == if taskFailed then None else old(task)
      ensures desired == old(desired) && indexed == old(indexed) && visibility == old(visibility)
    {
      status := Failed;
      if taskFailed {
        task := None;
      }
      updated := now;
    }

    method Zero(now: int)
      modifies this
      ensures Value() == Zeroed(old(Value()), now)
      ensures indexed == visibility == 0 && status == Pending && task == None && updated == now && desired == old(desired)
    {
      indexed := 0;
      visibility := 0;
      status := Pending;
      task := None;
      updated := now;
    }

    method Record(revision: nat, snapshotVisibility: nat, current: nat, currentVisibility: nat, now: int)
      modifies this
      ensures Value() == Recorded(old(Value()), revision, snapshotVisibility, current, currentVisibility, now)
      ensures indexed == revision && visibility == snapshotVisibility && task == None && updated == now
      ensures status == Ready <==> current == revision && currentVisibility == snapshotVisibility
      ensures status != Ready ==> status == Pending
      ensures desired >= old(desired) && desired >= current && (desired == old(desired) || desired == current)
    {
      indexed := revision;
      visibility := snapshotVisibility;
      desired := Max(desired, current);
      status := if current == revision && currentVisibility == snapshotVisibility then Ready else Pending;
      task := None;
      updated := now;
    }

    method Request(requested: nat, seen: nat, now: int)
      modifies this
      ensures Value() == Requested(old(Value()), requested, seen, now)
      ensures status == Pending && task == None && indexed == old(indexed) && visibility == old(visibility)
      ensures desired >= old(desired) && desired >= requested && desired >= seen
      ensures desired == old(desired) || desired == requested || desired == seen
      ensures updated == old(updated) || updated == now
    {
      var before := Value();
      desired := Max(desired, Max(requested, seen));
      status := Pending;
      task := None;
      if Value() != before {
        updated := now;
      }
    }
  }
}
