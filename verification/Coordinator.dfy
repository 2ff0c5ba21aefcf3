/** One step of the pipeline coordinator on the parent job, its attempt and the news. */
module Coordinator {
  import opened Options

  type JobId = int
  type AttemptId = int
  type NewsId = int

  datatype NewsStatus = NewsPending | Processing | NeedsReview | Published | Rejected | Archived | Deleted

  /** `published` is the time of the last publication. */
  datatype News = News(
    status: NewsStatus, current: Option<AttemptId>, hasVersion: bool, revision: nat, visibility: nat,
    published: Option<int>)

  datatype ParentStatus = Pending | Waiting | Succeeded | Cancelled | DeadLetter
  datatype Stage = Unstarted | Files | Labels
  datatype ChildStatus = Open | Fine | Failed

  /** A pipeline job. `children` are those of its present stage, `earlier` those of the
      stage before; `birth` is the generation it was created with. */
  datatype Parent = Parent(
    status: ParentStatus, news: Option<NewsId>, birth: nat, generation: nat, attemptCount: nat,
    current: Option<AttemptId>, stage: Stage, children: seq<JobId>, earlier: seq<JobId>, available: int)

  datatype AttemptStatus = InProgress | Complete | CompleteWithErrors
  datatype Attempt = Attempt(job: JobId, status: AttemptStatus, published: bool)

  function Created(news: Option<NewsId>, generation: nat, now: int): Parent {
    Parent(Pending, news, generation, generation, 0, None, Unstarted, [], [], now)
  }

  predicate Closed(p: Parent) {
    p.status == Succeeded || p.status == Cancelled || p.status == DeadLetter
  }

  function Dead(p: Parent): Parent {
    p.(status := DeadLetter)
  }

  function Begun(p: Parent, attempt: AttemptId, children: seq<JobId>, now: int, cooldown: nat): Parent {
    p.(generation := p.generation + 1, attemptCount := p.attemptCount + 1, current := Some(attempt),
       stage := Files, children := children, status := Waiting, available := now + cooldown)
  }

  /** The news is handed to the attempt; its revision does not move. */
  function Taken(n: News, attempt: AttemptId): News {
    n.(current := Some(attempt), status := Processing)
  }

  function Postponed(p: Parent, now: int, cooldown: nat): Parent {
    p.(available := now + cooldown)
  }

  function Classifying(p: Parent, children: seq<JobId>, now: int, cooldown: nat): Parent {
    p.(stage := Labels, earlier := p.children, children := children, available := now + cooldown)
  }

  predicate Owns(p: Parent, n: News) {
    p.current.Some? && n.current == p.current
  }

  predicate AllFine(children: seq<ChildStatus>) {
    forall i | 0 <= i < |children| :: children[i] == Fine
  }

  function Released(n: News, publish: bool, now: int): News {
    n.(status := if publish then Published else NeedsReview,
       published := if publish then Some(now) else n.published,
       current := None, revision := n.revision + 1, visibility := n.visibility + 1)
  }

  function Ended(a: Attempt, fine: bool, publish: bool): Attempt {
    a.(status := if fine then Complete else CompleteWithErrors, published := publish)
  }

  // ---- the mapped rows ----

  class ParentRow {
    var status: ParentStatus
    const news: Option<NewsId>
    const birth: nat
    var generation: nat
    var attemptCount: nat
    var current: Option<AttemptId>
    var stage: Stage
    var children: seq<JobId>
    var earlier: seq<JobId>
    var available: int

    constructor (news: Option<NewsId>, generation: nat, now: int)
      ensures Value() == Created(news, generation, now)
    {
      status, this.news, birth, this.generation, attemptCount := Pending, news, generation, generation, 0;
      current, stage, children, earlier, available := None, Unstarted, [], [], now;
    }

    function Value(): Parent
      reads this
    {
      Parent(status, news, birth, generation, attemptCount, current, stage, children, earlier, available)
    }

    /** Opens the attempt and takes the news, or gives up when there is nothing to work on. */
    method Start(target: NewsRow?, made: AttemptId, children: seq<JobId>, now: int, cooldown: nat) returns (started: bool)
      modifies this, target
      ensures started <==> news.Some? && target != null && old(target.hasVersion)
      ensures Value() == if started then Begun(old(Value()), made, children, now, cooldown) else Dead(old(Value()))
      ensures status == if started then Waiting else DeadLetter
      ensures started ==>
                && current == Some(made) && stage == Files && this.children == children && available == now + cooldown
                && generation == old(generation) + 1 && attemptCount == old(attemptCount) + 1
                && target.current == Some(made) && target.status == Processing
                && target.revision == old(target.revision) && target.visibility == old(target.visibility)
      ensures !started ==> current == old(current) && stage == old(stage) && this.children == old(this.children)
      ensures target != null ==>
                target.Value() == if started then Taken(old(target.Value()), made) else old(target.Value())
    {
      if news == None || target == null || !target.hasVersion {
        status := DeadLetter;
        return false;
      }
      generation := generation + 1;
      attemptCount := attemptCount + 1;
      current := Some(made);
      target.current := Some(made);
      target.status := Processing;
      stage, this.children := Files, children;
      status := Waiting;
      available := now + cooldown;
      return true;
    }

    /** Closes the pipeline. The news and the attempt are touched only while the attempt
        is the news's current one. */
    method Finish(target: NewsRow?, attempt: AttemptRow?, results: seq<ChildStatus>, allowed: bool, now: int)
      returns (touched: bool)
      requires attempt != null ==> current.Some?
      modifies this, target, attempt
      ensures touched <==> target != null && attempt != null && Owns(old(Value()), old(target.Value()))
      ensures Value() == old(Value()).(status := if touched then Succeeded else Cancelled)
      ensures touched ==>
                && (target.status == if allowed && forall i | 0 <= i < |results| :: results[i] == Fine then Published
                                     else NeedsReview)
                && target.current == None && target.revision == old(target.revision) + 1
                && target.visibility == old(target.visibility) + 1
                && attempt.published == (target.status == Published)
                && (attempt.status == if forall i | 0 <= i < |results| :: results[i] == Fine then Complete
                                      else CompleteWithErrors)
      ensures target != null ==>
                target.Value() ==
                  if touched then Released(old(target.Value()), AllFine(results) && allowed, now) else old(target.Value())
      ensures attempt != null ==>
                attempt.Value() ==
                  if touched then Ended(old(attempt.Value()), AllFine(results), AllFine(results) && allowed)
                  else old(attempt.Value())
    {
      if target == null || attempt == null || target.current != current {
        status := Cancelled;
        return false;
      }
      var failed := false;
      for i := 0 to |results|
        invariant failed <==> !AllFine(results[..i])
      {
        assert results[..i + 1] == results[..i] + [results[i]];
        if results[i] != Fine {
          failed := true;
        }
      }
      assert results[..|results|] == results;
      var publish := !failed && allowed;
      target.status := if publish then Published else NeedsReview;
      if publish {
        target.published := Some(now);
      }
      target.current := None;
      target.revision := target.revision + 1;
      target.visibility := target.visibility + 1;
      attempt.status := if failed then CompleteWithErrors else Complete;
      attempt.published := publish;
      status := Succeeded;
      return true;
    }
  }

  class NewsRow {
    var status: NewsStatus
    var current: Option<AttemptId>
    var hasVersion: bool
    var revision: nat
    var visibility: nat
    var published: Option<int>

    constructor (hasVersion: bool)
      ensures Value() == News(NewsPending, None, hasVersion, 1, 1, None)
    {
      status, current, this.hasVersion, revision, visibility, published := NewsPending, None, hasVersion, 1, 1, None;
    }

    function Value(): News
      reads this
    {
      News(status, current, hasVersion, revision, visibility, published)
    }
  }

  class AttemptRow {
    const job: JobId
    var status: AttemptStatus
    var published: bool

    constructor (job: JobId)
      ensures Value() == Attempt(job, InProgress, false)
    {
      this.job, status, published := job, InProgress, false;
    }

    function Value(): Attempt
      reads this
    {
      Attempt(job, status, published)
    }
  }
}
