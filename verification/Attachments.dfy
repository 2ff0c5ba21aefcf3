/** The rows an attachment worker moves: the job, its attempts and the attachment. */
module Attachments {
  import opened Options

  type JobId = int
  type AttemptId = int
  type AttachmentId = int
  type NewsId = int

  datatype JobStatus = Pending | Running | Succeeded | DeadLetter
  datatype AttemptStatus = InProgress | Done | Broken | TimedOut
  datatype FileStatus = Awaiting | Stored | Unavailable

  /** `attachment` is the id in the payload if it is one, `pipeline` the pipeline attempt
      named there; `birth` is the generation the job was created with. */
  datatype Job = Job(
    status: JobStatus, current: Option<AttemptId>, generation: nat, attemptCount: nat, maxAttempts: nat,
    available: int, lease: Option<int>, attachment: Option<AttachmentId>, news: Option<NewsId>,
    pipeline: Option<AttemptId>, birth: nat)

  datatype Attempt = Attempt(job: JobId, generation: nat, status: AttemptStatus)

  /** `objectKey` names the stored object. */
  datatype File = File(objectKey: Option<int>, status: FileStatus)

  datatype Ticket = Ticket(job: JobId, attempt: AttemptId, generation: nat, attachment: AttachmentId)

  predicate Claimable(j: Job, now: int) {
    && (j.status == Pending || j.status == Running)
    && j.available <= now
    && (j.status == Pending || j.lease == None || j.lease.value < now)
  }

  /** A claim of such a job retires it instead. */
  predicate Spent(j: Job) {
    j.attemptCount >= j.maxAttempts || j.attachment == None
  }

  function Retired(j: Job): Job {
    j.(status := DeadLetter)
  }

  function Started(j: Job, attempt: AttemptId, now: int, leaseSeconds: nat): Job {
    j.(generation := j.generation + 1, attemptCount := j.attemptCount + 1, current := Some(attempt),
       status := Running, lease := Some(now + leaseSeconds))
  }

  function Overtaken(a: Attempt): Attempt {
    if a.status == InProgress then a.(status := TimedOut) else a
  }

  predicate Matches(j: Job, t: Ticket) {
    j.current == Some(t.attempt) && j.generation == t.generation
  }

  /** The pipeline that asked for the attachment is still the news's current one. */
  predicate StillWanted(j: Job, newsCurrent: Option<AttemptId>) {
    j.pipeline.Some? && j.news.Some? ==> newsCurrent == j.pipeline
  }

  function Power(exponent: nat): nat {
    if exponent == 0 then 1 else 2 * Power(exponent - 1)
  }

  function Cooled(j: Job, now: int, cooldown: nat): int {
    now + cooldown * Power(if j.attemptCount == 0 then 0 else if j.attemptCount - 1 > 8 then 8 else j.attemptCount - 1)
  }

  function Completed(j: Job): Job {
    j.(status := Succeeded, lease := None)
  }

  function Setback(j: Job, now: int, cooldown: nat): Job {
    if j.attemptCount >= j.maxAttempts then j.(lease := None, status := DeadLetter)
    else j.(lease := None, status := Pending, available := Cooled(j, now, cooldown))
  }

  /** Which jobs may be claimed: a pending one when its time has come, and one just claimed
      when its lease has run out as well. */
  lemma ClaimableWhen(j: Job, attempt: AttemptId, claimed: int, leaseSeconds: nat, now: int)
    ensures j.status == Pending ==> (Claimable(j, now) <==> j.available <= now)
    ensures Claimable(Started(j, attempt, claimed, leaseSeconds), now) <==>
              j.available <= now && claimed + leaseSeconds < now
    ensures j.status == Succeeded || j.status == DeadLetter ==> !Claimable(j, now)
  {
  }

  /** The wait after a failure: the cooldown, doubled with every further attempt up to
      eight times. */
  lemma CooldownTable(j: Job, now: int, cooldown: nat)
    ensures j.attemptCount <= 1 ==> Cooled(j, now, cooldown) == now + cooldown
    ensures j.attemptCount >= 9 ==> Cooled(j, now, cooldown) == now + cooldown * 256
    ensures 1 <= j.attemptCount <= 9 ==>
              Cooled(j, now, cooldown) == now + cooldown * [1, 2, 4, 8, 16, 32, 64, 128, 256][j.attemptCount - 1]
  {
    assert Power(2) == 4 && Power(4) == 16 && Power(6) == 64 && Power(8) == 256;
  }

  // ---- the mapped rows ----

  class JobRow {
    var status: JobStatus
    var current: Option<AttemptId>
    var generation: nat
    var attemptCount: nat
    var available: int
    var lease: Option<int>
    const maxAttempts: nat
    const attachment: Option<AttachmentId>
    const news: Option<NewsId>
    const pipeline: Option<AttemptId>
    const birth: nat

    constructor (birth: nat, maxAttempts: nat, attachment: Option<AttachmentId>, news: Option<NewsId>,
                 pipeline: Option<AttemptId>, now: int)
      ensures Value() == Job(Pending, None, birth, 0, maxAttempts, now, None, attachment, news, pipeline, birth)
    {
      status, current, generation, attemptCount, available, lease := Pending, None, birth, 0, now, None;
      this.maxAttempts, this.attachment, this.news, this.pipeline := maxAttempts, attachment, news, pipeline;
      this.birth := birth;
    }

    function Value(): Job
      reads this
    {
      Job(status, current, generation, attemptCount, maxAttempts, available, lease, attachment, news, pipeline, birth)
    }

    /** Claims the job for a new attempt, or retires it; `previous` is the attempt it had. */
    method Claim(id: JobId, made: AttemptId, previous: AttemptRow?, now: int, leaseSeconds: nat)
      returns (ticket: Option<Ticket>)
      modifies this, previous
      ensures ticket == None <==> Spent(old(Value()))
      ensures ticket == None <==> old(attemptCount) >= maxAttempts || attachment == None
      ensures status == if ticket == None then DeadLetter else Running
      ensures ticket == None ==>
                && generation == old(generation) && attemptCount == old(attemptCount) && current == old(current)
                && lease == old(lease)
      ensures ticket.Some? ==>
                && generation == old(generation) + 1 && attemptCount == old(attemptCount) + 1
                && current == Some(made) && lease == Some(now + leaseSeconds)
      ensures ticket.Some? && previous != null ==>
                previous.status == if old(previous.status) == InProgress then TimedOut else old(previous.status)
      ensures ticket == None ==> Value() == Retired(old(Value()))
      ensures ticket == None && previous != null ==> previous.Value() == old(previous.Value())
      ensures ticket.Some? ==>
                && Value() == Started(old(Value()), made, now, leaseSeconds)
                && ticket.value == Ticket(id, made, generation, attachment.value)
      ensures ticket.Some? && previous != null ==> previous.Value() == Overtaken(old(previous.Value()))
    {
      if attemptCount >= maxAttempts {
        status := DeadLetter;
        return None;
      }
      if attachment == None {
        status := DeadLetter;
        return None;
      }
      if previous != null && previous.status == InProgress {
        previous.status := TimedOut;
      }
      generation := generation + 1;
      attemptCount := attemptCount + 1;
      current := Some(made);
      status := Running;
      lease := Some(now + leaseSeconds);
      ticket := Some(Ticket(id, made, generation, attachment.value));
    }

    /** The second transaction of a worker: it writes all three rows, or none of them
        when the job or the pipeline has moved on. */
    method Finish(ticket: Ticket, attempt: AttemptRow, file: FileRow, newsCurrent: Option<AttemptId>, stored: int)
      returns (wrote: bool)
      modifies this, attempt, file
      ensures wrote <==> Matches(old(Value()), ticket) && StillWanted(old(Value()), newsCurrent)
      ensures wrote <==>
                && old(current) == Some(ticket.attempt) && old(generation) == ticket.generation
                && (pipeline == None || news == None || newsCurrent == pipeline)
      ensures wrote ==> status == Succeeded && lease == None && attempt.status == Done
      ensures Value() == if wrote then Completed(old(Value())) else old(Value())
      ensures attempt.Value() == if wrote then old(attempt.Value()).(status := Done) else old(attempt.Value())
      ensures file.Value() == if wrote then File(Some(stored), Stored) else old(file.Value())
    {
      if current != Some(ticket.attempt) || generation != ticket.generation {
        return false;
      }
      if pipeline.Some? && news.Some? && newsCurrent != pipeline {
        return false;
      }
      file.objectKey := Some(stored);
      file.status := Stored;
      attempt.status := Done;
      status := Succeeded;
      lease := None;
      return true;
    }

    method Fail(ticket: Ticket, attempt: AttemptRow, file: FileRow?, now: int, cooldown: nat) returns (wrote: bool)
      modifies this, attempt, file
      ensures wrote <==> Matches(old(Value()), ticket)
      ensures wrote <==> old(current) == Some(ticket.attempt) && old(generation) == ticket.generation
      ensures wrote ==>
                && lease == None && attemptCount == old(attemptCount) && generation == old(generation)
                && (status == if old(attemptCount) >= maxAttempts then DeadLetter else Pending)
                && available == if status == Pending then Cooled(old(Value()), now, cooldown) else old(available)
      ensures Value() == if wrote then Setback(old(Value()), now, cooldown) else old(Value())
      ensures attempt.Value() == if wrote then old(attempt.Value()).(status := Broken) else old(attempt.Value())
      ensures file != null ==>
                file.Value() == if wrote then old(file.Value()).(status := Unavailable) else old(file.Value())
    {
      if current != Some(ticket.attempt) || generation != ticket.generation {
        return false;
      }
      attempt.status := Broken;
      lease := None;
      if file != null {
        file.status := Unavailable;
      }
      if attemptCount >= maxAttempts {
        status := DeadLetter;
      } else {
        status := Pending;
        available := Cooled(Value(), now, cooldown);
      }
      return true;
    }
  }

  class AttemptRow {
    const job: JobId
    const generation: nat
    var status: AttemptStatus

    constructor (job: JobId, generation: nat)
      ensures Value() == Attempt(job, generation, InProgress)
    {
      this.job, this.generation, this.status := job, generation, InProgress;
    }

    function Value(): Attempt
      reads this
    {
      Attempt(job, generation, status)
    }
  }

  class FileRow {
    var objectKey: Option<int>
    var status: FileStatus

    constructor ()
      ensures Value() == File(None, Awaiting)
    {
      objectKey, status := None, Awaiting;
    }

    function Value(): File
      reads this
    {
      File(objectKey, status)
    }
  }
}
