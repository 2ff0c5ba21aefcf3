/** Attachment workers as a labelled transition system, over every interleaving of
    claims, expired leases, late completions and crashes. */
module AttachmentFencing {
  import opened Attachments
  import opened Options

  datatype Settings = Settings(leaseSeconds: nat, cooldown: nat)

  /** What a worker slot is doing: fetching and storing, about to commit, about to
      record a failure, which an exception anywhere before the commit leads to. */
  datatype Slot = Free | Fetching(ticket: Ticket) | Fetched(ticket: Ticket, stored: int) | Failing(ticket: Ticket)

  /** `current` is the attempt the news row points to, kept by others; `writes` logs
      which attempt wrote an object. */
  datatype State = State(
    jobs: map<JobId, Job>, attempts: map<AttemptId, Attempt>, files: map<AttachmentId, File>,
    current: map<NewsId, Option<AttemptId>>, slots: map<int, Slot>, writes: seq<AttemptId>, clock: int)

  const INIT := State(map[], map[], map[], map[], map[], [], 0)

  datatype Action =
    | Create(j: JobId, job: Job)
    | PutFile(x: AttachmentId)
    | DropFile(x: AttachmentId)
    | MoveNews(n: NewsId, to: Option<AttemptId>)
    | StartSlot(w: int)
    | Claim(w: int, j: JobId, made: AttemptId, now: int)
    | Fetch(w: int, stored: Option<int>)
    | Spoil(w: int)
    | Finish(w: int)
    | Fail(w: int, now: int)

  predicate Enabled(s: State, a: Action) {
    match a
    case Create(j, job) =>
      j !in s.jobs && job.status == Pending && job.current == None && job.attemptCount == 0
      && job.generation == job.birth && job.lease == None
    case PutFile(x) => x !in s.files
    case DropFile(x) => x in s.files
    case MoveNews(_, _) => true
    case StartSlot(_) => true
    case Claim(w, j, made, now) =>
      && w in s.slots && s.slots[w].Free? && s.clock <= now
      && j in s.jobs && Attachments.Claimable(s.jobs[j], now) && made !in s.attempts
    case Fetch(w, _) => w in s.slots && s.slots[w].Fetching?
    case Spoil(w) => w in s.slots && s.slots[w].Fetched?
    case Finish(w) => w in s.slots && s.slots[w].Fetched?
    case Fail(w, now) => w in s.slots && s.slots[w].Failing? && s.clock <= now
  }

  function Idle(s: State, w: int): State {
    s.(slots := s.slots[w := Free])
  }

  /** The completion transaction writes only while the job still is the ticket's. */
  predicate Commits(s: State, t: Ticket) {
    && t.job in s.jobs && Matches(s.jobs[t.job], t)
    && t.attempt in s.attempts && t.attachment in s.files
    && StillWanted(s.jobs[t.job], NewsCurrent(s, s.jobs[t.job].news))
  }

  function NewsCurrent(s: State, news: Option<NewsId>): Option<AttemptId> {
    if news.Some? && news.value in s.current then s.current[news.value] else None
  }

  function Next(s: State, a: Action, c: Settings): State
    requires Enabled(s, a)
  {
    match a
    case Create(j, job) => s.(jobs := s.jobs[j := job])
    case PutFile(x) => s.(files := s.files[x := File(None, Awaiting)])
    case DropFile(x) => s.(files := s.files - {x})
    case MoveNews(n, to) => s.(current := s.current[n := to])
    case StartSlot(w) => Idle(s, w)
    case Claim(w, j, made, now) =>
      var job := s.jobs[j];
      if Spent(job) then s.(jobs := s.jobs[j := Retired(job)], clock := now)
      else
        var started := Started(job, made, now, c.leaseSeconds);
        var attempts :=
          if job.current.Some? && job.current.value in s.attempts then
            s.attempts[job.current.value := Overtaken(s.attempts[job.current.value])]
          else s.attempts;
        s.(jobs := s.jobs[j := started], clock := now,
           attempts := attempts[made := Attempt(j, started.generation, InProgress)],
           slots := s.slots[w := Fetching(Ticket(j, made, started.generation, job.attachment.value))])
    case Fetch(w, stored) =>
      var t := s.slots[w].ticket;
      s.(slots := s.slots[w := if stored.Some? then Fetched(t, stored.value) else Failing(t)])
    case Spoil(w) => s.(slots := s.slots[w := Failing(s.slots[w].ticket)])
    case Finish(w) =>
      var t := s.slots[w].ticket;
      if !Commits(s, t) then Idle(s, w)
      else
        Idle(s.(jobs := s.jobs[t.job := Completed(s.jobs[t.job])],
                attempts := s.attempts[t.attempt := s.attempts[t.attempt].(status := Done)],
                files := s.files[t.attachment := File(Some(s.slots[w].stored), Stored)],
                writes := s.writes + [t.attempt]), w)
    case Fail(w, now) =>
      var t := s.slots[w].ticket;
      if t.job !in s.jobs || !Matches(s.jobs[t.job], t) || t.attempt !in s.attempts then Idle(s, w).(clock := now)
      else
        Idle(s.(jobs := s.jobs[t.job := Setback(s.jobs[t.job], now, c.cooldown)],
                attempts := s.attempts[t.attempt := s.attempts[t.attempt].(status := Broken)],
                files := if t.attachment in s.files then
                           s.files[t.attachment := s.files[t.attachment].(status := Unavailable)]
                         else s.files,
                clock := now), w)
  }

  // ---- the invariant ----

  /** The attempts ever made for a job. */
  ghost function AttemptsOf(s: State, j: JobId): set<AttemptId> {
    OfJob(s.attempts, j)
  }

  ghost function OfJob(attempts: map<AttemptId, Attempt>, j: JobId): set<AttemptId> {
    set a | a in attempts && attempts[a].job == j
  }

  ghost predicate JobGood(s: State, j: JobId)
    requires j in s.jobs
  {
    var job := s.jobs[j];
    && job.generation == job.birth + job.attemptCount
    && |AttemptsOf(s, j)| == job.attemptCount <= job.maxAttempts
    && (job.current.Some? ==>
          && job.current.value in s.attempts && s.attempts[job.current.value].job == j
          && s.attempts[job.current.value].generation == job.generation && job.attachment.Some?)
    && (job.status == DeadLetter && job.attachment.Some? ==> job.attemptCount == job.maxAttempts)
    && (job.status == Succeeded ==> job.current.Some? && s.attempts[job.current.value].status == Done)
  }

  ghost predicate AttemptGood(s: State, a: AttemptId)
    requires a in s.attempts
  {
    var attempt := s.attempts[a];
    && attempt.job in s.jobs
    && (attempt.status == TimedOut ==> s.jobs[attempt.job].current != Some(a))
    && (attempt.status == InProgress ==> s.jobs[attempt.job].current == Some(a))
    && (attempt.status == Done ==> s.jobs[attempt.job].status == Succeeded && s.jobs[attempt.job].current == Some(a))
    && multiset(s.writes)[a] == if attempt.status == Done then 1 else 0
  }

  ghost predicate TicketGood(s: State, t: Ticket) {
    && t.attempt in s.attempts && t.job in s.jobs
    && s.attempts[t.attempt].job == t.job && s.attempts[t.attempt].generation == t.generation
    && (s.attempts[t.attempt].status == InProgress || s.attempts[t.attempt].status == TimedOut)
  }

  ghost predicate SlotGood(s: State, w: int)
    requires w in s.slots
  {
    s.slots[w].Free? || TicketGood(s, s.slots[w].ticket)
  }

  ghost predicate Apart(s: State, w: int, v: int)
    requires w in s.slots && v in s.slots
  {
    w != v && !s.slots[w].Free? && !s.slots[v].Free? ==> s.slots[w].ticket.attempt != s.slots[v].ticket.attempt
  }

  ghost predicate Inv(s: State) {
    && (forall j | j in s.jobs :: JobGood(s, j))
    && (forall a | a in s.attempts :: AttemptGood(s, a))
    && (forall a | a in s.writes :: a in s.attempts)
    && (forall w | w in s.slots :: SlotGood(s, w))
    && (forall w, v | w in s.slots && v in s.slots :: Apart(s, w, v))
  }

  // ---- one step ----

  /** The steps that leave jobs, attempts and writes alone and hand out no ticket. */
  predicate Beside(a: Action) {
    a.PutFile? || a.DropFile? || a.MoveNews? || a.StartSlot? || a.Fetch? || a.Spoil?
  }

  lemma BesideKeeps(s: State, a: Action, c: Settings)
    requires Inv(s) && Enabled(s, a) && Beside(a)
    ensures Inv(Next(s, a, c))
  {
    var s' := Next(s, a, c);
    forall j | j in s'.jobs
      ensures JobGood(s', j)
    {
      assert JobGood(s, j) && AttemptsOf(s', j) == AttemptsOf(s, j);
    }
    forall x | x in s'.attempts
      ensures AttemptGood(s', x)
    {
      assert AttemptGood(s, x);
    }
    forall w | w in s'.slots
      ensures SlotGood(s', w)
    {
      assert w in s.slots ==> SlotGood(s, w);
    }
    forall w, v | w in s'.slots && v in s'.slots
      ensures Apart(s', w, v)
    {
      assert w in s.slots && v in s.slots ==> Apart(s, w, v);
    }
  }

  lemma NoAttempts(s: State, j: JobId)
    requires Inv(s) && j !in s.jobs
    ensures AttemptsOf(s, j) == {}
  {
    forall a | a in s.attempts
      ensures s.attempts[a].job != j
    {
      assert AttemptGood(s, a);
    }
  }

  lemma CreateKeeps(s: State, a: Action, c: Settings)
    requires Inv(s) && Enabled(s, a) && a.Create?
    ensures Inv(Next(s, a, c))
  {
    var s' := Next(s, a, c);
    forall j | j in s'.jobs
      ensures JobGood(s', j)
    {
      assert AttemptsOf(s', j) == AttemptsOf(s, j);
      if j in s.jobs {
        assert JobGood(s, j);
      } else {
        NoAttempts(s, j);
      }
    }
    forall x | x in s'.attempts
      ensures AttemptGood(s', x)
    {
      assert AttemptGood(s, x);
    }
    forall w | w in s'.slots
      ensures SlotGood(s', w)
    {
      assert SlotGood(s, w);
    }
    forall w, v | w in s'.slots && v in s'.slots
      ensures Apart(s', w, v)
    {
      assert Apart(s, w, v);
    }
  }

  lemma RetireKeeps(s: State, a: Action, c: Settings)
    requires Inv(s) && Enabled(s, a) && a.Claim? && Spent(s.jobs[a.j])
    ensures Inv(Next(s, a, c))
  {
    var s' := Next(s, a, c);
    forall j | j in s'.jobs
      ensures JobGood(s', j)
    {
      assert JobGood(s, j) && AttemptsOf(s', j) == AttemptsOf(s, j);
    }
    forall x | x in s'.attempts
      ensures AttemptGood(s', x)
    {
      assert AttemptGood(s, x);
    }
    forall w | w in s'.slots
      ensures SlotGood(s', w)
    {
      assert SlotGood(s, w);
    }
    forall w, v | w in s'.slots && v in s'.slots
      ensures Apart(s', w, v)
    {
      assert Apart(s, w, v);
    }
  }

  // A claim: the previous attempt is overtaken, a new one takes its place.

  lemma ClaimFrame(s: State, a: Action, c: Settings)
    requires Enabled(s, a) && a.Claim? && !Spent(s.jobs[a.j])
    ensures var s' := Next(s, a, c);
            && a.made in s'.attempts && s'.attempts[a.made].job == a.j
            && (forall x | x in s.attempts :: x in s'.attempts && s'.attempts[x].job == s.attempts[x].job)
            && forall x | x in s'.attempts :: x in s.attempts || x == a.made
  {
  }

  lemma OneMore(before: map<AttemptId, Attempt>, after: map<AttemptId, Attempt>, made: AttemptId, j: JobId)
    requires made !in before && made in after
    requires forall x | x in before :: x in after && after[x].job == before[x].job
    requires forall x | x in after :: x in before || x == made
    ensures |OfJob(after, j)| == |OfJob(before, j)| + if after[made].job == j then 1 else 0
  {
    forall x
      ensures x in OfJob(after, j) <==> x in OfJob(before, j) || (x == made && after[made].job == j)
    {
      assert x in after ==> x in before || x == made;
      assert x in before ==> x in after && after[x].job == before[x].job;
    }
    if after[made].job == j {
      assert OfJob(after, j) == OfJob(before, j) + {made};
    } else {
      assert OfJob(after, j) == OfJob(before, j);
    }
  }

  lemma ClaimCounts(s: State, a: Action, c: Settings, j: JobId)
    requires Enabled(s, a) && a.Claim? && !Spent(s.jobs[a.j])
    ensures |AttemptsOf(Next(s, a, c), j)| == |AttemptsOf(s, j)| + if j == a.j then 1 else 0
  {
    ClaimFrame(s, a, c);
    OneMore(s.attempts, Next(s, a, c).attempts, a.made, j);
  }

  lemma ClaimJob(s: State, a: Action, c: Settings, j: JobId)
    requires Inv(s) && Enabled(s, a) && a.Claim? && !Spent(s.jobs[a.j]) && j in s.jobs
    ensures JobGood(Next(s, a, c), j)
  {
    hide AttemptGood, SlotGood, Apart, AttemptsOf;
    assert JobGood(s, j) && JobGood(s, a.j);
    ClaimCounts(s, a, c, j);
  }

  lemma ClaimAttempt(s: State, a: Action, c: Settings, x: AttemptId)
    requires Inv(s) && Enabled(s, a) && a.Claim? && !Spent(s.jobs[a.j]) && x in Next(s, a, c).attempts
    ensures AttemptGood(Next(s, a, c), x)
  {
    hide AttemptsOf, SlotGood, Apart;
    assert JobGood(s, a.j);
    if x in s.attempts {
      assert AttemptGood(s, x);
    } else {
      assert multiset(s.writes)[x] == 0;
    }
  }

  lemma ClaimSlots(s: State, a: Action, c: Settings, w: int, v: int)
    requires Inv(s) && Enabled(s, a) && a.Claim? && !Spent(s.jobs[a.j]) && w in s.slots && v in s.slots
    ensures SlotGood(Next(s, a, c), w) && Apart(Next(s, a, c), w, v)
  {
    hide JobGood, AttemptGood;
    assert SlotGood(s, w) && SlotGood(s, v) && Apart(s, w, v);
  }

  lemma ClaimKeeps(s: State, a: Action, c: Settings)
    requires Inv(s) && Enabled(s, a) && a.Claim? && !Spent(s.jobs[a.j])
    ensures Inv(Next(s, a, c))
  {
    var s' := Next(s, a, c);
    assert s'.jobs.Keys == s.jobs.Keys && s'.slots.Keys == s.slots.Keys && s'.writes == s.writes;
    assert forall x | x in s.attempts :: x in s'.attempts;
    assert forall x | x in s.writes :: x in s.attempts;
    hide Next, JobGood, AttemptGood, SlotGood, Apart, Enabled, Spent, Inv;
    forall j | j in s'.jobs
      ensures JobGood(s', j)
    {
      ClaimJob(s, a, c, j);
    }
    forall x | x in s'.attempts
      ensures AttemptGood(s', x)
    {
      ClaimAttempt(s, a, c, x);
    }
    forall w, v | w in s'.slots && v in s'.slots
      ensures SlotGood(s', w) && Apart(s', w, v)
    {
      ClaimSlots(s, a, c, w, v);
    }
    assert Inv(s') by { Gathered(s'); }
  }

  lemma Gathered(s: State)
    requires forall j | j in s.jobs :: JobGood(s, j)
    requires forall a | a in s.attempts :: AttemptGood(s, a)
    requires forall a | a in s.writes :: a in s.attempts
    requires forall w, v | w in s.slots && v in s.slots :: SlotGood(s, w) && Apart(s, w, v)
    ensures Inv(s)
  {
    forall w | w in s.slots
      ensures SlotGood(s, w)
    {
      assert SlotGood(s, w) && Apart(s, w, w);
    }
  }

  // A finished or failed ticket: its job and attempt are still each other's.

  /** The rows after a ticket's last transaction, if it wrote at all. */
  predicate Closes(s: State, a: Action) {
    (a.Finish? || a.Fail?) && Enabled(s, a)
  }

  lemma FinishJob(s: State, a: Action, c: Settings, j: JobId)
    requires a.Finish? && Closes(s, a) && SlotGood(s, a.w) && j in s.jobs && JobGood(s, j)
    ensures JobGood(Next(s, a, c), j)
  {
    hide StillWanted;
    assert AttemptsOf(Next(s, a, c), j) == AttemptsOf(s, j);
  }

  lemma FailJob(s: State, a: Action, c: Settings, j: JobId)
    requires a.Fail? && Closes(s, a) && SlotGood(s, a.w) && j in s.jobs && JobGood(s, j)
    ensures JobGood(Next(s, a, c), j)
  {
    hide Cooled;
    assert AttemptsOf(Next(s, a, c), j) == AttemptsOf(s, j);
  }

  lemma CloseJob(s: State, a: Action, c: Settings, j: JobId)
    requires Inv(s) && Closes(s, a) && j in s.jobs
    ensures JobGood(Next(s, a, c), j)
  {
    assert SlotGood(s, a.w) && JobGood(s, j);
    hide JobGood, SlotGood, Next, Inv;
    if a.Finish? {
      FinishJob(s, a, c, j);
    } else {
      FailJob(s, a, c, j);
    }
  }

  lemma FinishAttempt(s: State, a: Action, c: Settings, x: AttemptId)
    requires a.Finish? && Closes(s, a) && x in s.attempts && AttemptGood(s, x)
    requires SlotGood(s, a.w) && AttemptGood(s, s.slots[a.w].ticket.attempt)
    ensures AttemptGood(Next(s, a, c), x)
  {
    hide StillWanted;
  }

  lemma FailAttempt(s: State, a: Action, c: Settings, x: AttemptId)
    requires a.Fail? && Closes(s, a) && x in s.attempts && AttemptGood(s, x)
    requires SlotGood(s, a.w) && AttemptGood(s, s.slots[a.w].ticket.attempt)
    ensures AttemptGood(Next(s, a, c), x)
  {
    hide Cooled;
  }

  lemma CloseAttempt(s: State, a: Action, c: Settings, x: AttemptId)
    requires Inv(s) && Closes(s, a) && x in s.attempts
    ensures AttemptGood(Next(s, a, c), x)
  {
    assert SlotGood(s, a.w) && AttemptGood(s, x) && AttemptGood(s, s.slots[a.w].ticket.attempt);
    hide AttemptGood, SlotGood, Next, Inv;
    if a.Finish? {
      FinishAttempt(s, a, c, x);
    } else {
      FailAttempt(s, a, c, x);
    }
  }

  lemma CloseSlots(s: State, a: Action, c: Settings, w: int, v: int)
    requires Inv(s) && Closes(s, a) && w in s.slots && v in s.slots
    ensures SlotGood(Next(s, a, c), w) && Apart(Next(s, a, c), w, v)
  {
    hide JobGood, AttemptGood, Cooled, StillWanted;
    assert SlotGood(s, w) && SlotGood(s, v) && Apart(s, w, v) && Apart(s, w, a.w);
  }

  lemma CloseFrame(s: State, a: Action, c: Settings)
    requires Closes(s, a) && forall x | x in s.writes :: x in s.attempts
    ensures var s' := Next(s, a, c);
            && s'.jobs.Keys == s.jobs.Keys && s'.slots.Keys == s.slots.Keys && s'.attempts.Keys == s.attempts.Keys
            && forall x | x in s'.writes :: x in s'.attempts
  {
    hide Cooled, StillWanted, Power, Setback, Completed, Matches, Commits;
    if a.Finish? && Commits(s, s.slots[a.w].ticket) {
      CommitNames(s, s.slots[a.w].ticket);
    }
  }

  lemma CommitNames(s: State, t: Ticket)
    requires Commits(s, t)
    ensures t.job in s.jobs && t.attempt in s.attempts && t.attachment in s.files
  {
  }

  lemma CloseKeeps(s: State, a: Action, c: Settings)
    requires Inv(s) && Closes(s, a)
    ensures Inv(Next(s, a, c))
  {
    var s' := Next(s, a, c);
    CloseFrame(s, a, c);
    hide Next, JobGood, AttemptGood, SlotGood, Apart, Enabled, Inv, Closes;
    forall j | j in s'.jobs
      ensures JobGood(s', j)
    {
      CloseJob(s, a, c, j);
    }
    forall x | x in s'.attempts
      ensures AttemptGood(s', x)
    {
      CloseAttempt(s, a, c, x);
    }
    forall w, v | w in s'.slots && v in s'.slots
      ensures SlotGood(s', w) && Apart(s', w, v)
    {
      CloseSlots(s, a, c, w, v);
    }
    assert Inv(s') by { Gathered(s'); }
  }

  lemma StepKeepsInv(s: State, a: Action, c: Settings)
    requires Inv(s) && Enabled(s, a)
    ensures Inv(Next(s, a, c))
  {
    hide Next, Inv;
    match a
    case Create(_, _) => CreateKeeps(s, a, c);
    case Claim(_, j, _, _) =>
      if Spent(s.jobs[j]) {
        RetireKeeps(s, a, c);
      } else {
        ClaimKeeps(s, a, c);
      }
    case Finish(_) => CloseKeeps(s, a, c);
    case Fail(_, _) => CloseKeeps(s, a, c);
    case _ => BesideKeeps(s, a, c);
  }

  // ---- whole runs ----

  ghost predicate Leads(s: State, acts: seq<Action>, t: State, c: Settings)
    decreases |acts|
  {
    if acts == [] then t == s
    else Enabled(s, acts[0]) && Leads(Next(s, acts[0], c), acts[1..], t, c)
  }

  ghost predicate Reachable(s: State, c: Settings) {
    exists acts :: Leads(INIT, acts, s, c)
  }

  lemma {:induction false} RunKeepsInv(s: State, acts: seq<Action>, t: State, c: Settings)
    requires Inv(s) && Leads(s, acts, t, c)
    ensures Inv(t)
    decreases |acts|
  {
    hide Inv, Next, Enabled;
    if acts != [] {
      StepKeepsInv(s, acts[0], c);
      RunKeepsInv(Next(s, acts[0], c), acts[1..], t, c);
    }
  }

  lemma ReachableInv(s: State, c: Settings)
    requires Reachable(s, c)
    ensures Inv(s)
  {
    var acts :| Leads(INIT, acts, s, c);
    RunKeepsInv(INIT, acts, s, c);
  }

  lemma ReachOn(s: State, a: Action, c: Settings)
    requires Reachable(s, c) && Enabled(s, a)
    ensures Reachable(Next(s, a, c), c)
  {
    hide Next, Enabled;
    var acts :| Leads(INIT, acts, s, c);
    LeadsOn(INIT, acts, s, a, c);
  }

  lemma {:induction false} LeadsOn(from: State, acts: seq<Action>, s: State, a: Action, c: Settings)
    requires Leads(from, acts, s, c) && Enabled(s, a)
    ensures Leads(from, acts + [a], Next(s, a, c), c)
    decreases |acts|
  {
    hide Next, Enabled;
    if acts == [] {
      assert Leads(Next(s, a, c), [], Next(s, a, c), c);
      assert [a][1..] == [];
    } else {
      LeadsOn(Next(from, acts[0], c), acts[1..], s, a, c);
      assert (acts + [a])[1..] == acts[1..] + [a];
    }
  }

  // ---- the theorems ----

  /** At most one attempt of a job ever succeeds, it is the one that wrote the object,
      and it wrote it once. */
  lemma OneAttemptSucceeds(s: State, c: Settings, x: AttemptId, y: AttemptId)
    requires Reachable(s, c) && x in s.attempts && y in s.attempts && s.attempts[x].job == s.attempts[y].job
    ensures s.attempts[x].status == Done && s.attempts[y].status == Done ==> x == y
    ensures multiset(s.writes)[x] == if s.attempts[x].status == Done then 1 else 0
    ensures x in s.writes && y in s.writes ==> x == y
  {
    ReachableInv(s, c);
    assert AttemptGood(s, x) && AttemptGood(s, y);
    assert x in s.writes <==> multiset(s.writes)[x] > 0;
    assert y in s.writes <==> multiset(s.writes)[y] > 0;
  }

  /** A worker whose attempt has timed out changes no job, no attempt and no file. */
  lemma TimedOutChangesNothing(s: State, a: Action, c: Settings)
    requires Reachable(s, c) && Closes(s, a)
    requires s.slots[a.w].ticket.attempt in s.attempts && s.attempts[s.slots[a.w].ticket.attempt].status == TimedOut
    ensures var s' := Next(s, a, c);
            s'.jobs == s.jobs && s'.attempts == s.attempts && s'.files == s.files && s'.writes == s.writes
  {
    ReachableInv(s, c);
    assert SlotGood(s, a.w) && AttemptGood(s, s.slots[a.w].ticket.attempt);
  }

  /** The pipeline that asked for the attachment has lost the news item. */
  predicate Unwanted(s: State, j: JobId)
    requires j in s.jobs
  {
    !StillWanted(s.jobs[j], NewsCurrent(s, s.jobs[j].news))
  }

  /** A step that does not hand the news item back to the pipeline the job belongs to. */
  predicate NotReturned(a: Action, job: Job) {
    a.MoveNews? ==> Some(a.n) != job.news || a.to != job.pipeline
  }

  lemma UnwantedStays(s: State, a: Action, c: Settings, j: JobId)
    requires Inv(s) && Enabled(s, a) && j in s.jobs && s.jobs[j].status != Succeeded
    requires Unwanted(s, j) && NotReturned(a, s.jobs[j])
    ensures var s' := Next(s, a, c);
            && j in s'.jobs && s'.jobs[j].status != Succeeded && Unwanted(s', j)
            && s'.jobs[j].pipeline == s.jobs[j].pipeline && s'.jobs[j].news == s.jobs[j].news
  {
    hide Inv, Cooled;
  }

  /** However long the run, a job whose pipeline has lost the news item never succeeds,
      and none of its attempts, old or new, completes or writes an object. The news item
      is never handed back to that pipeline's attempt: a pipeline only takes one with a
      new attempt. */
  lemma {:induction false} UnwantedWritesNothing(s: State, acts: seq<Action>, t: State, c: Settings, j: JobId)
    requires Inv(s) && Leads(s, acts, t, c) && j in s.jobs && s.jobs[j].status != Succeeded && Unwanted(s, j)
    requires forall i | 0 <= i < |acts| :: NotReturned(acts[i], s.jobs[j])
    ensures j in t.jobs && t.jobs[j].status != Succeeded
    ensures forall x | x in t.attempts && t.attempts[x].job == j :: t.attempts[x].status != Done && x !in t.writes
    decreases |acts|
  {
    if acts == [] {
      forall x | x in t.attempts && t.attempts[x].job == j
        ensures t.attempts[x].status != Done && x !in t.writes
      {
        assert AttemptGood(t, x);
        assert x in t.writes <==> multiset(t.writes)[x] > 0;
      }
    } else {
      assert NotReturned(acts[0], s.jobs[j]);
      UnwantedStays(s, acts[0], c, j);
      StepKeepsInv(s, acts[0], c);
      hide Inv, Next, Enabled, Unwanted;
      UnwantedWritesNothing(Next(s, acts[0], c), acts[1..], t, c, j);
    }
  }

  /** A succeeded job is never left, and keeps every field. */
  lemma {:induction false} SucceededForGood(s: State, acts: seq<Action>, t: State, c: Settings, j: JobId)
    requires Inv(s) && Leads(s, acts, t, c) && j in s.jobs && s.jobs[j].status == Succeeded
    ensures j in t.jobs && t.jobs[j] == s.jobs[j]
    decreases |acts|
  {
    if acts != [] {
      SucceededStays(s, acts[0], c, j);
      StepKeepsInv(s, acts[0], c);
      hide Inv, Next, Enabled;
      SucceededForGood(Next(s, acts[0], c), acts[1..], t, c, j);
    }
  }

  lemma SucceededStays(s: State, a: Action, c: Settings, j: JobId)
    requires Inv(s) && Enabled(s, a) && j in s.jobs && s.jobs[j].status == Succeeded
    ensures j in Next(s, a, c).jobs && Next(s, a, c).jobs[j] == s.jobs[j]
  {
    hide AttemptsOf, Apart, Cooled, AttemptGood;
    assert JobGood(s, j);
    if a.Finish? || a.Fail? {
      assert SlotGood(s, a.w);
    }
  }

  /** The generation counts the claims, each claim is one attempt, and there are at
      most as many as allowed. */
  lemma ClaimsAreCounted(s: State, c: Settings, j: JobId)
    requires Reachable(s, c) && j in s.jobs
    ensures s.jobs[j].generation - s.jobs[j].attemptCount == s.jobs[j].birth
    ensures |AttemptsOf(s, j)| == s.jobs[j].attemptCount <= s.jobs[j].maxAttempts
  {
    ReachableInv(s, c);
    assert JobGood(s, j);
  }

  /** A failure the job still waits for gives it up exactly if no attempt is left, and
      otherwise puts it off. */
  lemma FailureGivesUpExactly(s: State, a: Action, c: Settings)
    requires Reachable(s, c) && a.Fail? && Enabled(s, a)
    ensures s.slots[a.w].ticket.job in s.jobs && s.slots[a.w].ticket.job in Next(s, a, c).jobs
    ensures var t := s.slots[a.w].ticket;
            var before, after := s.jobs[t.job], Next(s, a, c).jobs[t.job];
            if before.current == Some(t.attempt) && before.generation == t.generation then
              && (after.status == if before.attemptCount < before.maxAttempts then Pending else DeadLetter)
              && (after.status == Pending ==> after.available == Cooled(before, a.now, c.cooldown))
              && after.attemptCount == before.attemptCount && after.lease == None
              && t.attempt in Next(s, a, c).attempts && Next(s, a, c).attempts[t.attempt].status == Broken
              && (t.attachment in s.files ==>
                    && t.attachment in Next(s, a, c).files
                    && Next(s, a, c).files[t.attachment] == s.files[t.attachment].(status := Unavailable))
            else after == before && Next(s, a, c).attempts == s.attempts && Next(s, a, c).files == s.files
  {
    ReachableInv(s, c);
    assert SlotGood(s, a.w);
    hide Inv, Cooled;
  }

  /** A completion writes the stored object, the attempt and the job together, exactly if
      the job still waits for the attempt, the attachment is still there and the news item
      has not moved on; and otherwise nothing. */
  lemma CompletionWritesExactly(s: State, a: Action, c: Settings)
    requires Reachable(s, c) && a.Finish? && Enabled(s, a)
    ensures s.slots[a.w].ticket.job in s.jobs
    ensures var t, s' := s.slots[a.w].ticket, Next(s, a, c);
            var job := s.jobs[t.job];
            if job.current == Some(t.attempt) && job.generation == t.generation && t.attachment in s.files
               && (job.pipeline == None || job.news == None
                   || (if job.news.value in s.current then s.current[job.news.value] else None) == job.pipeline) then
              && t.job in s'.jobs && s'.jobs[t.job].status == Succeeded && s'.jobs[t.job].lease == None
              && t.attempt in s'.attempts && s'.attempts[t.attempt].status == Done
              && t.attachment in s'.files && s'.files[t.attachment].status == Stored
              && s'.files[t.attachment].objectKey == Some(s.slots[a.w].stored)
              && s'.writes == s.writes + [t.attempt]
            else s'.jobs == s.jobs && s'.attempts == s.attempts && s'.files == s.files && s'.writes == s.writes
  {
    ReachableInv(s, c);
    assert SlotGood(s, a.w);
    hide Inv;
  }

  /** A dead letter leaves that status exactly if its last attempt, which the worker
      still holds, comes back in time to commit; it is then a success. */
  lemma DeadLetterStaysOrSucceeds(s: State, a: Action, c: Settings, j: JobId)
    requires Inv(s) && Enabled(s, a) && j in s.jobs && s.jobs[j].status == DeadLetter
    ensures j in Next(s, a, c).jobs
    ensures Next(s, a, c).jobs[j].status != DeadLetter <==>
              a.Finish? && s.slots[a.w].ticket.job == j && Commits(s, s.slots[a.w].ticket)
    ensures Next(s, a, c).jobs[j].status != DeadLetter ==> Next(s, a, c).jobs[j] == Completed(s.jobs[j])
  {
    hide Inv, Cooled;
    assert JobGood(s, j) by { InvJob(s, j); }
    hide JobGood, AttemptsOf;
  }

  lemma InvJob(s: State, j: JobId)
    requires Inv(s) && j in s.jobs
    ensures JobGood(s, j)
  {
  }

  /** A job with one attempt left, and two slots to take it. */
  const LAST_CHANCE := Job(Pending, None, 0, 0, 1, 0, None, Some(7), None, None, 0)
  const TWO_SLOTS := State(map[0 := LAST_CHANCE], map[], map[7 := File(None, Awaiting)], map[],
                           map[0 := Free, 1 := Free], [], 0)

  lemma TwoSlotsReachable(c: Settings)
    ensures Reachable(TWO_SLOTS, c)
  {
    assert Leads(INIT, [], INIT, c);
    var s1 := Next(INIT, Create(0, LAST_CHANCE), c);
    ReachOn(INIT, Create(0, LAST_CHANCE), c);
    var s2 := Next(s1, PutFile(7), c);
    ReachOn(s1, PutFile(7), c);
    var s3 := Next(s2, StartSlot(0), c);
    ReachOn(s2, StartSlot(0), c);
    ReachOn(s3, StartSlot(1), c);
    assert Next(s3, StartSlot(1), c) == TWO_SLOTS;
  }

  /** The first slot has taken the job and fetched the attachment. */
  function OneFetched(c: Settings): State {
    TWO_SLOTS.(jobs := map[0 := Started(LAST_CHANCE, 100, 0, c.leaseSeconds)],
               attempts := map[100 := Attempt(0, 1, InProgress)],
               slots := map[0 := Fetched(Ticket(0, 100, 1, 7), 5), 1 := Free])
  }

  lemma OneFetchedReachable(c: Settings)
    ensures Reachable(OneFetched(c), c)
  {
    TwoSlotsReachable(c);
    hide Leads, Reachable;
    var s := Next(TWO_SLOTS, Claim(0, 0, 100, 0), c);
    ReachOn(TWO_SLOTS, Claim(0, 0, 100, 0), c);
    ReachOn(s, Fetch(0, Some(5)), c);
    assert Next(s, Fetch(0, Some(5)), c) == OneFetched(c);
  }

  /** The first slot outlives its lease, the second gives the job up, and the first then
      completes it. */
  lemma DeadLetterCanSucceed(c: Settings)
    ensures exists s: State, j: JobId, w: int ::
              && Reachable(s, c) && j in s.jobs && s.jobs[j].status == DeadLetter
              && Enabled(s, Finish(w)) && Next(s, Finish(w), c).jobs[j].status == Succeeded
  {
    OneFetchedReachable(c);
    hide Leads, Reachable;
    var late := Claim(1, 0, 101, c.leaseSeconds + 1);
    var s := Next(OneFetched(c), late, c);
    ReachOn(OneFetched(c), late, c);
    assert s.jobs[0].status == DeadLetter;
    assert Enabled(s, Finish(0)) && Next(s, Finish(0), c).jobs[0].status == Succeeded;
  }
}
