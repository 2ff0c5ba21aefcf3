/** The sweep that recomputes every news item a policy change concerns: a job with a
    cursor, moved chunk by chunk. */
module Rematerialization {
  import opened Options

  type NewsId = int

  datatype Status = Pending | Running | Succeeded

  /** `done` logs the news items the job has recomputed. */
  datatype Job = Job(
    status: Status, owner: Option<int>, lease: Option<int>, available: int, attemptCount: nat,
    cursor: Option<NewsId>, done: seq<NewsId>)

  predicate Claimable(j: Job, now: int) {
    && j.available <= now
    && (j.status == Pending || (j.status == Running && j.lease.Some? && j.lease.value < now))
  }

  function Claimed(j: Job, owner: int, now: int, leaseSeconds: nat): Job {
    j.(status := Running, owner := Some(owner), lease := Some(now + leaseSeconds), attemptCount := j.attemptCount + 1)
  }

  predicate Held(j: Job, owner: int) {
    j.status == Running && j.owner == Some(owner)
  }

  /** The ids of a chunk that are still there when their row is locked. */
  function Left(ids: seq<NewsId>, gone: set<NewsId>): seq<NewsId> {
    if ids == [] then [] else (if ids[0] in gone then [] else [ids[0]]) + Left(ids[1..], gone)
  }

  /** The transaction over one chunk: the end of the sweep, or everything left of the
      chunk recomputed and the cursor on its last id. */
  function Chunked(j: Job, owner: int, ids: seq<NewsId>, gone: set<NewsId>, now: int): Job {
    if !Held(j, owner) then j
    else if ids == [] then j.(status := Succeeded, owner := None, lease := None)
    else
      j.(status := Pending, owner := None, lease := None, available := now,
         cursor := Some(ids[|ids| - 1]), done := j.done + Left(ids, gone))
  }

  function Retried(j: Job, owner: int, now: int, cooldown: nat): Job {
    if !Held(j, owner) then j
    else j.(status := Pending, owner := None, lease := None, available := now + cooldown)
  }

  /** When a sweep may be claimed: pending when its time has come, just claimed when its
      lease has run out as well, and never once it has succeeded. */
  lemma ClaimableWhen(j: Job, owner: int, claimed: int, leaseSeconds: nat, now: int)
    ensures j.status == Pending ==> (Claimable(j, now) <==> j.available <= now)
    ensures Claimable(Claimed(j, owner, claimed, leaseSeconds), now) <==>
              j.available <= now && claimed + leaseSeconds < now
    ensures j.status == Succeeded ==> !Claimable(j, now)
  {
  }

  lemma {:induction false} LeftSnoc(ids: seq<NewsId>, x: NewsId, gone: set<NewsId>)
    ensures Left(ids + [x], gone) == Left(ids, gone) + if x in gone then [] else [x]
  {
    if ids == [] {
      assert [] + [x] == [x];
    } else {
      LeftSnoc(ids[1..], x, gone);
      assert (ids + [x])[1..] == ids[1..] + [x];
    }
  }

  class SweepJob {
    var status: Status
    var owner: Option<int>
    var lease: Option<int>
    var available: int
    var attemptCount: nat
    var cursor: Option<NewsId>
    var done: seq<NewsId>

    constructor (now: int)
      ensures Value() == Job(Pending, None, None, now, 0, None, [])
    {
      status, owner, lease, available, attemptCount, cursor, done := Pending, None, None, now, 0, None, [];
    }

    function Value(): Job
      reads this
    {
      Job(status, owner, lease, available, attemptCount, cursor, done)
    }

    method Claim(holder: int, now: int, leaseSeconds: nat)
      modifies this
      ensures Value() == Claimed(old(Value()), holder, now, leaseSeconds)
      ensures status == Running && owner == Some(holder) && lease == Some(now + leaseSeconds)
      ensures attemptCount == old(attemptCount) + 1
      ensures available == old(available) && cursor == old(cursor) && done == old(done)
    {
      status := Running;
      owner := Some(holder);
      lease := Some(now + leaseSeconds);
      attemptCount := attemptCount + 1;
    }

    /** `ids` is what the query returned, `gone` what was deleted before its row was locked. */
    method ProcessChunk(holder: int, ids: seq<NewsId>, gone: set<NewsId>, now: int)
      modifies this
      ensures Value() == Chunked(old(Value()), holder, ids, gone, now)
      ensures old(status) != Running || old(owner) != Some(holder) ==> Value() == old(Value())
      ensures old(status) == Running && old(owner) == Some(holder) ==>
                && owner == None && lease == None && attemptCount == old(attemptCount)
                && status == (if ids == [] then Succeeded else Pending)
                && cursor == (if ids == [] then old(cursor) else Some(ids[|ids| - 1]))
                && available == (if ids == [] then old(available) else now)
                && old(done) <= done && done[|old(done)|..] == Left(ids, gone)
    {
      if status != Running || owner != Some(holder) {
        return;
      }
      if ids == [] {
        status := Succeeded;
        owner := None;
        lease := None;
        return;
      }
      for n := 0 to |ids|
        invariant done == old(done) + Left(ids[..n], gone)
        invariant Value() == old(Value()).(done := done)
      {
        LeftSnoc(ids[..n], ids[n], gone);
        assert ids[..n + 1] == ids[..n] + [ids[n]];
        if ids[n] in gone {
          continue;
        }
        done := done + [ids[n]];
      }
      assert ids[..|ids|] == ids;
      cursor := Some(ids[|ids| - 1]);
      status := Pending;
      available := now;
      owner := None;
      lease := None;
    }

    method Retry(holder: int, now: int, cooldown: nat)
      modifies this
      ensures Value() == Retried(old(Value()), holder, now, cooldown)
      ensures old(status) != Running || old(owner) != Some(holder) ==> Value() == old(Value())
      ensures old(status) == Running && old(owner) == Some(holder) ==>
                && status == Pending && owner == None && lease == None && available == now + cooldown
                && attemptCount == old(attemptCount) && cursor == old(cursor) && done == old(done)
    {
      if status != Running || owner != Some(holder) {
        return;
      }
      status := Pending;
      available := now + cooldown;
      owner := None;
      lease := None;
    }
  }
}
