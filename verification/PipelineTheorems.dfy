/** What pipelines promise about news, over every run. */
module PipelineTheorems {
  import opened Coordinator
  import opened Options
  import opened PipelineRuns

  ghost predicate Leads(s: State, acts: seq<Action>, t: State, c: nat)
    decreases |acts|
  {
    if acts == [] then t == s
    else Enabled(s, acts[0]) && Leads(Next(s, acts[0], c), acts[1..], t, c)
  }

  ghost predicate Reachable(s: State, c: nat) {
    exists acts :: Leads(INIT, acts, s, c)
  }

  lemma {:induction false} RunKeepsInv(s: State, acts: seq<Action>, t: State, c: nat)
    requires Inv(s) && Leads(s, acts, t, c)
    ensures Inv(t)
    decreases |acts|
  {
    hide Inv, Next, Enabled;
    if acts != [] {
      StepKeepsInv(s, acts[0], c);
      RunKeepsInv(Next(s, acts[0], c), acts[1..], t, c);
    }
  }

  lemma ReachableInv(s: State, c: nat)
    requires Reachable(s, c)
    ensures Inv(s)
  {
    var acts :| Leads(INIT, acts, s, c);
    RunKeepsInv(INIT, acts, s, c);
  }

  lemma {:induction false} LeadsOn(from: State, acts: seq<Action>, s: State, a: Action, c: nat)
    requires Leads(from, acts, s, c) && Enabled(s, a)
    ensures Leads(from, acts + [a], Next(s, a, c), c)
    decreases |acts|
  {
    hide Next, Enabled;
    if acts == [] {
      assert Leads(Next(s, a, c), [], Next(s, a, c), c);
      assert [a][1..] == [];
    } else {
      LeadsOn(Next(from, acts[0], c), acts[1..], s, a, c);
      assert (acts + [a])[1..] == acts[1..] + [a];
    }
  }

  // ---- one attempt, one end ----

  /** A pipeline opens at most one attempt, exactly one once it has begun, and its
      attempt is ended exactly when it has succeeded. */
  lemma OneAttemptPerPipeline(s: State, c: nat, j: JobId, x: AttemptId, y: AttemptId)
    requires Reachable(s, c) && j in s.parents
    ensures x in s.attempts && y in s.attempts && s.attempts[x].job == j && s.attempts[y].job == j ==> x == y
    ensures s.parents[j].generation - s.parents[j].birth == s.parents[j].attemptCount <= 1
    ensures s.parents[j].status == Waiting || s.parents[j].status == Succeeded || s.parents[j].status == Cancelled ==>
              && s.parents[j].attemptCount == 1
              && s.parents[j].current.Some? && s.parents[j].current.value in s.attempts
              && (s.attempts[s.parents[j].current.value].status != InProgress <==> s.parents[j].status == Succeeded)
  {
    ReachableInv(s, c);
    assert ParentGood(s, j);
    assert x in s.attempts ==> AttemptGood(s, x);
    assert y in s.attempts ==> AttemptGood(s, y);
  }

  lemma ClosedStays(s: State, a: Action, c: nat, j: JobId)
    requires Enabled(s, a) && j in s.parents && Closed(s.parents[j])
    ensures j in Next(s, a, c).parents && Next(s, a, c).parents[j] == s.parents[j]
  {
    hide Next;
    OthersStay(s, a, c, j);
  }

  /** A pipeline ends at most once: a closed one keeps every field for good. */
  lemma {:induction false} ClosedForGood(s: State, acts: seq<Action>, t: State, c: nat, j: JobId)
    requires Leads(s, acts, t, c) && j in s.parents && Closed(s.parents[j])
    ensures j in t.parents && t.parents[j] == s.parents[j]
    decreases |acts|
  {
    if acts != [] {
      ClosedStays(s, acts[0], c, j);
      hide Next, Enabled;
      ClosedForGood(Next(s, acts[0], c), acts[1..], t, c, j);
    }
  }

  // ---- the fence on the news ----

  /** The begun pipeline `j` is no longer the one its news item waits for. */
  predicate Superseded(s: State, j: JobId) {
    && j in s.parents && s.parents[j].current.Some? && s.parents[j].news.Some?
    && (s.parents[j].news.value in s.news ==> s.news[s.parents[j].news.value].current != s.parents[j].current)
  }

  lemma SupersededStays(s: State, a: Action, c: nat, j: JobId)
    requires Inv(s) && Enabled(s, a) && Superseded(s, j)
    ensures Superseded(Next(s, a, c), j)
    ensures Next(s, a, c).parents[j].status == Succeeded ==> s.parents[j].status == Succeeded
  {
    hide Inv, NewsGood, AutoPublish, AllFine, Next, Results, AnyOpen;
    assert ParentGood(s, j) by { Each(s, j); }
    if a.Advance? && a.j == j {
      OwnMoves(s, a, c);
    } else {
      OthersStay(s, a, c, j);
    }
    var n := s.parents[j].news.value;
    if n in s.news {
      NewsMoves(s, a, c, n);
    } else {
      NewNews(s, a, c, n);
    }
  }

  lemma Each(s: State, j: JobId)
    requires Inv(s) && j in s.parents
    ensures ParentGood(s, j)
  {
  }

  /** A news item that a step adds waits for nothing. */
  lemma NewNews(s: State, a: Action, c: nat, n: NewsId)
    requires Enabled(s, a) && n !in s.news
    ensures n in Next(s, a, c).news ==> Next(s, a, c).news[n].current == None
  {
    if a.Advance? {
      SameNews(s, a, c);
    }
    hide Start, Finish, AllFine, AutoPublish, Results, AnyOpen;
  }

  lemma SameNews(s: State, a: Action, c: nat)
    requires Enabled(s, a) && a.Advance?
    ensures Start(s, a, c).news.Keys == s.news.Keys
    ensures forall results :: Finish(s, a.j, results, a.now).news.Keys == s.news.Keys
  {
  }

  lemma FinishAlone(s: State, j: JobId, results: seq<ChildStatus>, now: int)
    requires j in s.parents && !Reaches(s, j)
    ensures Finish(s, j, results, now) == s.(parents := s.parents[j := s.parents[j].(status := Cancelled)])
  {
  }

  lemma SupersededAlone(s: State, a: Action, c: nat)
    requires Inv(s) && Enabled(s, a) && a.Advance? && Superseded(s, a.j)
    ensures TouchesOnlyItself(s, a, c)
  {
    Each(s, a.j);
    FinishAlone(s, a.j, [], a.now);
    FinishAlone(s, a.j, Results(s, s.parents[a.j].children), a.now);
    hide Inv, AutoPublish, AllFine, Start, Finish, Results, AnyOpen;
  }

  /** What a pipeline that has lost its news item still does when advanced. */
  ghost predicate TouchesOnlyItself(s: State, a: Action, c: nat)
    requires Enabled(s, a) && a.Advance?
  {
    var s' := Next(s, a, c);
    && s'.news == s.news && s'.attempts == s.attempts && s'.events == s.events
    && a.j in s'.parents && (Closed(s'.parents[a.j]) ==> s'.parents[a.j].status == Cancelled)
  }

  /** A pipeline that was superseded before it succeeded never gets its news item back:
      in every later state it is still superseded, it cannot succeed, and no step of its
      own touches news, attempts or events. */
  lemma {:induction false} SupersededForGood(s: State, acts: seq<Action>, t: State, a: Action, c: nat, j: JobId)
    requires Inv(s) && Leads(s, acts, t, c) && Superseded(s, j) && s.parents[j].status != Succeeded
    ensures Superseded(t, j) && t.parents[j].status != Succeeded
    ensures a.Advance? && a.j == j && Enabled(t, a) ==> TouchesOnlyItself(t, a, c)
    decreases |acts|
  {
    hide Next, Enabled, Inv;
    SupersededRun(s, acts, t, c, j);
    RunKeepsInv(s, acts, t, c);
    if a.Advance? && a.j == j && Enabled(t, a) {
      SupersededAlone(t, a, c);
    }
  }

  lemma {:induction false} SupersededRun(s: State, acts: seq<Action>, t: State, c: nat, j: JobId)
    requires Inv(s) && Leads(s, acts, t, c) && Superseded(s, j) && s.parents[j].status != Succeeded
    ensures Superseded(t, j) && t.parents[j].status != Succeeded
    decreases |acts|
  {
    if acts != [] {
      SupersededStays(s, acts[0], c, j);
      StepKeepsInv(s, acts[0], c);
      hide Inv, Next, Enabled, Superseded;
      SupersededRun(Next(s, acts[0], c), acts[1..], t, c, j);
    }
  }

  /** A reprocess supersedes, of the open pipelines of the news item, exactly those that
      have begun. */
  lemma ReprocessSupersedes(s: State, n: NewsId, made: JobId, now: int, c: nat, j: JobId)
    requires Inv(s) && Enabled(s, Reprocess(n, made, now))
    requires j in s.parents && !Closed(s.parents[j]) && s.parents[j].news == Some(n)
    ensures Superseded(Next(s, Reprocess(n, made, now), c), j) <==> s.parents[j].current.Some?
    ensures Next(s, Reprocess(n, made, now), c).parents[j] == s.parents[j]
  {
    assert ParentGood(s, j);
  }

  /** So does another pipeline that begins on it. */
  lemma NewerSupersedes(s: State, a: Action, c: nat, j: JobId)
    requires Inv(s) && Enabled(s, a) && a.Advance? && Opens(s.parents[a.j]) && a.j != j
    requires j in s.parents && !Closed(s.parents[j]) && s.parents[j].news.Some?
    requires s.parents[a.j].news == s.parents[j].news && s.parents[j].news.value in s.news
    requires s.news[s.parents[j].news.value].hasVersion
    ensures Superseded(Next(s, a, c), j) <==> s.parents[j].current.Some?
    ensures Next(s, a, c).parents[j] == s.parents[j]
  {
    assert ParentGood(s, j);
    if s.parents[j].current.Some? {
      assert s.parents[j].current.value in s.attempts;
    }
  }

  /** One that has not begun takes the news item when its turn comes, however many
      reprocesses and newer pipelines there were: starting is not fenced. */
  lemma UnbegunTakesTheNews(s: State, a: Action, c: nat)
    requires Inv(s) && Enabled(s, a) && a.Advance? && s.parents[a.j].current == None
    requires s.parents[a.j].news.Some? && s.parents[a.j].news.value in s.news
    requires s.news[s.parents[a.j].news.value].hasVersion
    ensures a.j in Next(s, a, c).parents && !Superseded(Next(s, a, c), a.j)
    ensures var n := s.parents[a.j].news.value;
            n in Next(s, a, c).news && Owns(Next(s, a, c).parents[a.j], Next(s, a, c).news[n])
  {
    assert ParentGood(s, a.j);
  }

  // So an older pipeline can publish in the place of the one a reprocess made.

  const PENDING_AND_REPROCESSED := State(
    map[7 := News(NewsPending, None, true, 2, 2, None)],
    map[1 := Created(Some(7), 1, 0), 2 := Created(Some(7), 2, 0)], map[], map[], map[], {}, true, [])

  const REPROCESSED_EARLY: seq<Action> := [
    AddNews(7, true), AddPipeline(1, Some(7), 1, 0), Configure({}, true), Reprocess(7, 2, 0)]

  lemma ReprocessedEarly(c: nat)
    ensures Leads(INIT, REPROCESSED_EARLY, PENDING_AND_REPROCESSED, c)
  {
    assert Leads(INIT, [], INIT, c);
    var a1, a2, a3, a4 := REPROCESSED_EARLY[0], REPROCESSED_EARLY[1], REPROCESSED_EARLY[2], REPROCESSED_EARLY[3];
    var s1 := Next(INIT, a1, c);
    LeadsOn(INIT, [], INIT, a1, c);
    var s2 := Next(s1, a2, c);
    LeadsOn(INIT, [] + [a1], s1, a2, c);
    var s3 := Next(s2, a3, c);
    LeadsOn(INIT, [] + [a1] + [a2], s2, a3, c);
    LeadsOn(INIT, [] + [a1] + [a2] + [a3], s3, a4, c);
    assert Next(s3, a4, c) == PENDING_AND_REPROCESSED;
    assert [] + [a1] + [a2] + [a3] + [a4] == REPROCESSED_EARLY;
  }

  // The pipeline the reprocess made begins, then the older one does, and ends.
  const NEWER_BEGINS := Advance(2, 100, [], false, 0)
  const OLDER_BEGINS := Advance(1, 101, [], false, 0)

  function OlderEnds(c: nat): Action {
    Advance(1, 102, [], true, c)
  }

  function BothBegun(c: nat): State {
    PENDING_AND_REPROCESSED.(
      news := map[7 := News(Processing, Some(101), true, 2, 2, None)],
      parents := map[1 := Begun(Created(Some(7), 1, 0), 101, [], 0, c),
                     2 := Begun(Created(Some(7), 2, 0), 100, [], 0, c)],
      attempts := map[100 := Attempt(2, InProgress, false), 101 := Attempt(1, InProgress, false)])
  }

  function NewerBegun(c: nat): State {
    PENDING_AND_REPROCESSED.(
      news := map[7 := News(Processing, Some(100), true, 2, 2, None)],
      parents := map[1 := Created(Some(7), 1, 0), 2 := Begun(Created(Some(7), 2, 0), 100, [], 0, c)],
      attempts := map[100 := Attempt(2, InProgress, false)])
  }

  lemma NewerBegins(c: nat)
    ensures Leads(INIT, REPROCESSED_EARLY + [NEWER_BEGINS], NewerBegun(c), c)
  {
    ReprocessedEarly(c);
    hide Leads;
    LeadsOn(INIT, REPROCESSED_EARLY, PENDING_AND_REPROCESSED, NEWER_BEGINS, c);
    assert Next(PENDING_AND_REPROCESSED, NEWER_BEGINS, c) == NewerBegun(c);
  }

  lemma BothBegin(c: nat)
    ensures Leads(INIT, REPROCESSED_EARLY + [NEWER_BEGINS] + [OLDER_BEGINS], BothBegun(c), c)
  {
    NewerBegins(c);
    hide Leads;
    LeadsOn(INIT, REPROCESSED_EARLY + [NEWER_BEGINS], NewerBegun(c), OLDER_BEGINS, c);
    assert Next(NewerBegun(c), OLDER_BEGINS, c) == BothBegun(c);
  }

  lemma OlderOvertakes(c: nat)
    ensures exists t ::
              && Leads(INIT, REPROCESSED_EARLY + [NEWER_BEGINS] + [OLDER_BEGINS] + [OlderEnds(c)], t, c)
              && 1 in t.parents && t.parents[1].status == Succeeded
              && 7 in t.news && t.news[7].status == Published && Superseded(t, 2)
  {
    BothBegin(c);
    hide Leads;
    LeadsOn(INIT, REPROCESSED_EARLY + [NEWER_BEGINS] + [OLDER_BEGINS], BothBegun(c), OlderEnds(c), c);
    var t := Next(BothBegun(c), OlderEnds(c), c);
    assert t.parents[1].status == Succeeded && t.news[7].status == Published && Superseded(t, 2);
  }

  // ---- publication ----

  /** A pipeline may publish `n` by step `a`: automatic publication is on, every
      required facet is labelled, and every child of every stage that ran succeeded. */
  ghost predicate MayPublish(s: State, j: JobId, n: NewsId)
    requires n in s.news
  {
    && j in s.parents && s.parents[j].news == Some(n) && Owns(s.parents[j], s.news[n])
    && s.auto && s.required <= (if n in s.labels then s.labels[n] else {})
    && forall k | k in s.parents[j].children + s.parents[j].earlier :: k in s.children && s.children[k] == Fine
  }

  /** A news item becomes published by an editor, or by the pipeline it waits for when
      that may publish; the pipeline then lets it go and asks for its projection at
      the new revision. */
  lemma PublishedProperly(s: State, a: Action, c: nat, n: NewsId)
    requires Reachable(s, c) && Enabled(s, a) && n in s.news && s.news[n].status != Published
    ensures n in Next(s, a, c).news
    ensures Next(s, a, c).news[n].status == Published ==>
              || a.Transition?
              || (a.Advance? && MayPublish(s, a.j, n)
                  && Next(s, a, c).events == s.events + [(n, s.news[n].revision + 1)]
                  && Next(s, a, c).news[n].current == None)
  {
    ReachableInv(s, c);
    NewsMoves(s, a, c, n);
    if a.Advance? {
      Each(s, a.j);
      ResultsOf(s, s.parents[a.j].children);
    }
    hide Inv, Next, Results, AnyOpen, Enabled;
  }

  /** Which of some children are open, in terms of the children themselves. */
  lemma {:induction false} OpenOnes(s: State, kids: seq<JobId>)
    requires forall k | k in kids :: k in s.children
    ensures AnyOpen(Results(s, kids)) <==> exists k :: k in kids && s.children[k] == Open
  {
    if kids != [] {
      var k, rest := kids[0], kids[1..];
      assert k in kids && kids == [k] + rest && forall i | i in rest :: i in kids;
      OpenOnes(s, rest);
      var results, others := Results(s, kids), Results(s, rest);
      assert results == [s.children[k]] + others;
      assert AnyOpen(results) <==> s.children[k] == Open || AnyOpen(others) by {
        if s.children[k] == Open {
          assert results[0] == Open;
        }
        if i :| 0 <= i < |others| && others[i] == Open {
          assert results[i + 1] == Open;
        }
        if i :| 0 <= i < |results| && results[i] == Open {
          assert i > 0 ==> others[i - 1] == Open;
        }
      }
    }
  }

  /** No child of the pipeline's present stage is still open. */
  ghost predicate AllClosed(s: State, p: Parent) {
    forall k | k in p.children && k in s.children :: s.children[k] != Open
  }

  ghost predicate AllSucceeded(s: State, p: Parent) {
    forall k | k in p.children && k in s.children :: s.children[k] == Fine
  }

  /** The news item still waits for the pipeline's attempt. */
  predicate StillOwned(s: State, p: Parent) {
    p.news.Some? && p.news.value in s.news && p.current.Some? && s.news[p.news.value].current == p.current
  }

  lemma ChildrenKnown(s: State, c: nat, j: JobId)
    requires Reachable(s, c) && j in s.parents
    ensures ParentGood(s, j)
    ensures var p := s.parents[j];
            && (AnyOpen(Results(s, p.children)) <==> !AllClosed(s, p))
            && (AllFine(Results(s, p.children)) <==> AllSucceeded(s, p))
            && (Reaches(s, j) <==> StillOwned(s, p))
  {
    ReachableInv(s, c);
    Each(s, j);
    OpenOnes(s, s.parents[j].children);
    ResultsOf(s, s.parents[j].children);
  }

  /** When an advance ends a begun pipeline: no child is open, and it was in its last
      stage, or a child failed, or there is nothing to classify. It then succeeds exactly
      if the news item still waits for it, and is cancelled otherwise. */
  lemma EndsExactly(s: State, a: Action, c: nat)
    requires Reachable(s, c) && Enabled(s, a) && a.Advance? && s.parents[a.j].status == Waiting
    ensures a.j in Next(s, a, c).parents
    ensures var p, after := s.parents[a.j], Next(s, a, c).parents[a.j];
            && (Closed(after) <==> AllClosed(s, p) && (p.stage == Labels || a.quiet || !AllSucceeded(s, p)))
            && (Closed(after) ==> after.status == if StillOwned(s, p) then Succeeded else Cancelled)
  {
    ChildrenKnown(s, c, a.j);
    hide AllFine, Results, AnyOpen, Reaches, Start, AllClosed, AllSucceeded, StillOwned;
    FinishParentFrame(s, a.j, [], a.now, a.j);
    FinishParentFrame(s, a.j, Results(s, s.parents[a.j].children), a.now, a.j);
    hide Finish;
  }

  /** While a child is open the pipeline only waits a little longer. */
  lemma WaitsForChildren(s: State, a: Action, c: nat)
    requires Reachable(s, c) && Enabled(s, a) && a.Advance? && s.parents[a.j].status == Waiting
    requires !AllClosed(s, s.parents[a.j])
    ensures var s' := Next(s, a, c);
            && a.j in s'.parents && s'.parents[a.j].available == a.now + c && s'.parents[a.j].status == Waiting
            && s'.parents[a.j].children == s.parents[a.j].children && s'.parents[a.j].stage == s.parents[a.j].stage
            && s'.news == s.news && s'.attempts == s.attempts && s'.children == s.children && s'.events == s.events
  {
    ChildrenKnown(s, c, a.j);
    hide AllFine, Results, AnyOpen, Reaches, Start, Finish, AllClosed;
  }

  /** The second stage begins exactly when every attachment is through and there is
      something to classify: it waits for new children, all open, and remembers the first
      stage's. */
  lemma SecondStageBegins(s: State, a: Action, c: nat)
    requires Reachable(s, c) && Enabled(s, a) && a.Advance? && s.parents[a.j].status == Waiting
    requires s.parents[a.j].stage == Files && AllSucceeded(s, s.parents[a.j]) && !a.quiet
    ensures var p, s' := s.parents[a.j], Next(s, a, c);
            && a.j in s'.parents && s'.news == s.news && s'.attempts == s.attempts && s'.events == s.events
            && s'.parents[a.j].stage == Labels && s'.parents[a.j].status == Waiting
            && s'.parents[a.j].children == a.kids && s'.parents[a.j].earlier == p.children
            && s'.parents[a.j].available == a.now + c
            && forall k | k in a.kids :: k in s'.children && s'.children[k] == Open
  {
    ChildrenKnown(s, c, a.j);
    assert AllClosed(s, s.parents[a.j]);
    hide AllFine, Results, AnyOpen, Reaches, Start, Finish;
    forall k | k in a.kids
      ensures k !in s.children
    {
      var i :| 0 <= i < |a.kids| && a.kids[i] == k;
    }
  }

  /** A pipeline that succeeds publishes its news item exactly if it may, and otherwise
      leaves it for review; it lets it go, and the attempt records what happened. */
  lemma PublishesExactly(s: State, a: Action, c: nat, n: NewsId)
    requires Reachable(s, c) && Enabled(s, a) && a.Advance? && s.parents[a.j].news == Some(n)
    requires a.j in Next(s, a, c).parents && Next(s, a, c).parents[a.j].status == Succeeded
    ensures n in s.news && n in Next(s, a, c).news
    ensures var before, after := s.news[n], Next(s, a, c).news[n];
            && after.status == (if MayPublish(s, a.j, n) then Published else NeedsReview)
            && after.published == (if MayPublish(s, a.j, n) then Some(a.now) else before.published)
            && after.current == None && after.revision == before.revision + 1
            && Next(s, a, c).events == s.events + [(n, after.revision)]
    ensures var p := s.parents[a.j];
            && p.current.Some? && p.current.value in Next(s, a, c).attempts
            && var attempt := Next(s, a, c).attempts[p.current.value];
               && attempt.published == MayPublish(s, a.j, n)
               && attempt.status == if AllSucceeded(s, p) then Complete else CompleteWithErrors
  {
    ChildrenKnown(s, c, a.j);
    SucceedsByFinishing(s, a, c);
    var p := s.parents[a.j];
    FinishNewsFrame(s, a.j, [], a.now, n);
    FinishNewsFrame(s, a.j, Results(s, p.children), a.now, n);
    FinishRows(s, a.j, [], a.now);
    FinishRows(s, a.j, Results(s, p.children), a.now);
    NoneFail();
    PublicationIs(s, a.j, n);
    hide Results, AnyOpen, AllFine, Reaches, Start, Finish, AutoPublish, MayPublish, AllSucceeded, AllClosed;
  }

  lemma SucceedsByFinishing(s: State, a: Action, c: nat)
    requires Enabled(s, a) && a.Advance?
    requires a.j in Next(s, a, c).parents && Next(s, a, c).parents[a.j].status == Succeeded
    ensures Reaches(s, a.j) && !Opens(s.parents[a.j]) && !AnyOpen(Results(s, s.parents[a.j].children))
  {
    OwnMoves(s, a, c);
    hide Next, Results, AnyOpen, AllFine, Reaches;
  }

  lemma PublicationIs(s: State, j: JobId, n: NewsId)
    requires j in s.parents && n in s.news && s.parents[j].news == Some(n) && ParentGood(s, j) && StillOwned(s, s.parents[j])
    ensures MayPublish(s, j, n) <==> AllSucceeded(s, s.parents[j]) && AutoPublish(s, n)
  {
  }

  /** An attempt recorded as having published had no failed child, and still has none. */
  lemma PublishedWithoutFailures(s: State, c: nat, x: AttemptId)
    requires Reachable(s, c) && x in s.attempts && s.attempts[x].published
    ensures s.attempts[x].job in s.parents
    ensures var p := s.parents[s.attempts[x].job];
            && p.status == Succeeded && s.attempts[x].status == Complete
            && forall k | k in p.children + p.earlier :: k in s.children && s.children[k] == Fine
  {
    ReachableInv(s, c);
    assert AttemptGood(s, x);
    assert ParentGood(s, s.attempts[x].job);
  }

  /** Whatever happens, a news item's two revisions move together and never back. */
  lemma RevisionsMoveTogether(s: State, a: Action, c: nat, n: NewsId)
    requires Enabled(s, a) && n in s.news
    ensures n in Next(s, a, c).news
    ensures var before, after := s.news[n], Next(s, a, c).news[n];
            after.visibility - before.visibility == after.revision - before.revision
            && 0 <= after.revision - before.revision <= 1
  {
    hide AllFine, AutoPublish, Next, Results, AnyOpen, Reaches;
    NewsMoves(s, a, c, n);
  }

  // ---- what editors do ----

  /** An edit gives the item a version; its search entry is asked for exactly if the item
      is published. */
  lemma EditIs(s: State, n: NewsId, c: nat)
    requires Enabled(s, Edit(n))
    ensures var s' := Next(s, Edit(n), c);
            && n in s'.news && s'.news[n].hasVersion && s'.news[n].revision == s.news[n].revision + 1
            && s'.news[n].status == s.news[n].status && s'.news[n].current == s.news[n].current
            && s'.events == s.events + if s.news[n].status == Published then [(n, s'.news[n].revision)] else []
  {
  }

  /** New labels raise both revisions of the item and leave its status and attempt alone. */
  lemma RelabelIs(s: State, n: NewsId, facets: set<int>, c: nat)
    requires Enabled(s, Relabel(n, facets))
    ensures var s' := Next(s, Relabel(n, facets), c);
            && n in s'.news && n in s'.labels && s'.labels[n] == facets
            && s'.news[n].revision == s.news[n].revision + 1 && s'.news[n].visibility == s.news[n].visibility + 1
            && s'.news[n].status == s.news[n].status && s'.news[n].current == s.news[n].current
            && s'.events == s.events && s'.parents == s.parents
  {
  }

  /** A transition moves the status, stamps a publication, and always asks. */
  lemma TransitionIs(s: State, n: NewsId, target: NewsStatus, now: int, c: nat)
    requires Enabled(s, Transition(n, target, now))
    ensures var s' := Next(s, Transition(n, target, now), c);
            && n in s'.news && s'.news[n].status == target && s'.news[n].revision == s.news[n].revision + 1
            && s'.news[n].published == (if target == Published then Some(now) else s.news[n].published)
            && s'.events == s.events + [(n, s'.news[n].revision)]
  {
  }

  /** Deletion is open to all but the deleted; only what is published or rejected can be
      archived; and what is archived or deleted can be neither published nor rejected. */
  lemma TransitionTable(from: NewsStatus, target: NewsStatus)
    ensures target == Deleted ==> (Allowed(from, target) <==> from != Deleted)
    ensures target == Archived ==> (Allowed(from, target) <==> from in {Published, Rejected})
    ensures target == Published ==> (Allowed(from, target) <==> from !in {Published, Archived, Deleted})
    ensures target == Rejected ==> (Allowed(from, target) <==> from !in {Rejected, Archived, Deleted})
    ensures target in {NewsPending, Processing, NeedsReview} ==> !Allowed(from, target)
  {
  }

  /** A reprocess starts over: the item waits for nothing, at a new revision, and a new
      pipeline of that generation is pending. */
  lemma ReprocessIs(s: State, n: NewsId, j: JobId, now: int, c: nat)
    requires Enabled(s, Reprocess(n, j, now))
    ensures var s' := Next(s, Reprocess(n, j, now), c);
            && n in s'.news && j in s'.parents
            && s'.news[n].status == NewsPending && s'.news[n].current == None
            && s'.news[n].revision == s.news[n].revision + 1
            && s'.parents[j].status == Pending && s'.parents[j].news == Some(n) && s'.parents[j].stage == Unstarted
            && s'.parents[j].generation == s'.news[n].revision && s'.parents[j].available == now
            && s'.events == s.events
  {
  }

  // ---- progress ----

  /** How many stages a pipeline has before it. */
  function Remaining(p: Parent): nat {
    if Closed(p) then 0
    else match p.stage
         case Unstarted => 3
         case Files => 2
         case Labels => 1
  }

  /** Each advance brings a pipeline nearer its end, or finds a child still open and
      only waits; and no other step takes it back. */
  lemma AdvanceMakesProgress(s: State, a: Action, c: nat, j: JobId)
    requires Reachable(s, c) && Enabled(s, a) && j in s.parents
    ensures j in Next(s, a, c).parents
    ensures var before, after := s.parents[j], Next(s, a, c).parents[j];
            if a.Advance? && a.j == j then
              || Remaining(after) < Remaining(before)
              || (AnyOpen(Results(s, before.children)) && after == Postponed(before, a.now, c) && before.status == Waiting)
            else after == before
  {
    ReachableInv(s, c);
    Each(s, j);
    hide Inv, Next, AllFine, AutoPublish, Results, Reaches;
    if a.Advance? && a.j == j {
      OwnMoves(s, a, c);
    } else {
      OthersStay(s, a, c, j);
    }
  }
}
