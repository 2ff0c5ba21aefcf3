/** Pipelines, their children and editors as a labelled transition system. */
module PipelineRuns {
  import opened Coordinator
  import opened Options

  /** `labels` are the facets with an effective label, `events` the search requests
      put in the outbox, each with the revision it carries. */
  datatype State = State(
    news: map<NewsId, News>, parents: map<JobId, Parent>, attempts: map<AttemptId, Attempt>,
    children: map<JobId, ChildStatus>, labels: map<NewsId, set<int>>, required: set<int>, auto: bool,
    events: seq<(NewsId, nat)>)

  const INIT := State(map[], map[], map[], map[], map[], {}, false, [])

  datatype Action =
    | AddNews(n: NewsId, hasVersion: bool)
    | AddPipeline(j: JobId, news: Option<NewsId>, generation: nat, now: int)
    | Reprocess(n: NewsId, j: JobId, now: int)
    | Edit(n: NewsId)
    | Transition(n: NewsId, target: NewsStatus, now: int)
    | Relabel(n: NewsId, facets: set<int>)
    | Configure(required: set<int>, auto: bool)
    | MoveChild(k: JobId, to: ChildStatus)
    | Advance(j: JobId, made: AttemptId, kids: seq<JobId>, quiet: bool, now: int)

  /** The statuses an editor may move a news item from. */
  predicate Allowed(from: NewsStatus, target: NewsStatus) {
    match target
    case Published => from == NewsPending || from == Processing || from == NeedsReview || from == Rejected
    case Rejected => from == NewsPending || from == Processing || from == NeedsReview || from == Published
    case Archived => from == Published || from == Rejected
    case Deleted => from != Deleted
    case _ => false
  }

  /** New jobs, each once, for the children a step creates. */
  predicate NewChildren(s: State, kids: seq<JobId>) {
    && (forall i | 0 <= i < |kids| :: kids[i] !in s.children)
    && forall i, j | 0 <= i < j < |kids| :: kids[i] != kids[j]
  }

  predicate Enabled(s: State, a: Action) {
    match a
    case AddNews(n, _) => n !in s.news
    case AddPipeline(j, _, _, _) => j !in s.parents
    case Reprocess(n, j, _) => n in s.news && j !in s.parents
    case Edit(n) => n in s.news
    case Transition(n, target, _) => n in s.news && Allowed(s.news[n].status, target)
    case Relabel(n, _) => n in s.news
    case Configure(_, _) => true
    case MoveChild(k, _) => k in s.children && s.children[k] != Fine
    case Advance(j, made, kids, _, now) =>
      && j in s.parents && !Closed(s.parents[j]) && s.parents[j].available <= now
      && made !in s.attempts && NewChildren(s, kids)
  }

  predicate Opens(p: Parent) {
    p.status == Pending || p.stage == Unstarted
  }

  /** The statuses of those children that are still there. */
  function Results(s: State, kids: seq<JobId>): seq<ChildStatus> {
    if kids == [] then []
    else (if kids[0] in s.children then [s.children[kids[0]]] else []) + Results(s, kids[1..])
  }

  predicate AnyOpen(results: seq<ChildStatus>) {
    exists i :: 0 <= i < |results| && results[i] == Open
  }

  predicate AutoPublish(s: State, n: NewsId) {
    s.auto && s.required <= if n in s.labels then s.labels[n] else {}
  }

  function WithChildren(s: State, kids: seq<JobId>): State {
    var added := set k | k in kids;
    s.(children := map k | k in s.children.Keys + added :: if k in s.children then s.children[k] else Open)
  }

  function Bumped(n: News): News {
    n.(revision := n.revision + 1, visibility := n.visibility + 1)
  }

  function Announced(s: State, n: NewsId): State
    requires n in s.news
  {
    s.(events := s.events + [(n, s.news[n].revision)])
  }

  function Start(s: State, a: Action, c: nat): State
    requires a.Advance? && Enabled(s, a)
  {
    var p := s.parents[a.j];
    if p.news == None || p.news.value !in s.news || !s.news[p.news.value].hasVersion then
      s.(parents := s.parents[a.j := Dead(p)])
    else
      WithChildren(s, a.kids).(
        parents := s.parents[a.j := Begun(p, a.made, a.kids, a.now, c)],
        attempts := s.attempts[a.made := Attempt(a.j, InProgress, false)],
        news := s.news[p.news.value := Taken(s.news[p.news.value], a.made)])
  }

  function Finish(s: State, j: JobId, results: seq<ChildStatus>, now: int): State
    requires j in s.parents
  {
    var p := s.parents[j];
    if p.news == None || p.news.value !in s.news || p.current == None || p.current.value !in s.attempts
       || !Owns(p, s.news[p.news.value]) then
      s.(parents := s.parents[j := p.(status := Cancelled)])
    else
      var n, x := p.news.value, p.current.value;
      var publish := AllFine(results) && AutoPublish(s, n);
      Announced(s.(news := s.news[n := Released(s.news[n], publish, now)],
                   attempts := s.attempts[x := Ended(s.attempts[x], AllFine(results), publish)],
                   parents := s.parents[j := p.(status := Succeeded)]), n)
  }

  /** What anyone but the coordinator does. */
  function Outside(s: State, a: Action): State
    requires Enabled(s, a) && !a.Advance?
  {
    match a
    case AddNews(n, hasVersion) => s.(news := s.news[n := News(NewsPending, None, hasVersion, 1, 1, None)])
    case AddPipeline(j, news, generation, now) => s.(parents := s.parents[j := Created(news, generation, now)])
    case Reprocess(n, j, now) =>
      var reset := Bumped(s.news[n]).(status := NewsPending, current := None);
      s.(parents := s.parents[j := Created(Some(n), s.news[n].revision + 1, now)], news := s.news[n := reset])
    case Edit(n) =>
      var s' := s.(news := s.news[n := Bumped(s.news[n]).(hasVersion := true)]);
      if s.news[n].status == Published then Announced(s', n) else s'
    case Transition(n, target, now) =>
      var moved := Bumped(s.news[n]).(status := target);
      Announced(s.(news := s.news[n := if target == Published then moved.(published := Some(now)) else moved]), n)
    case Relabel(n, facets) => s.(labels := s.labels[n := facets], news := s.news[n := Bumped(s.news[n])])
    case Configure(required, auto) => s.(required := required, auto := auto)
    case MoveChild(k, to) => s.(children := s.children[k := to])
  }

  /** The second stage begins: one child a classifier. */
  function MoveOn(s: State, j: JobId, kids: seq<JobId>, now: int, c: nat): State
    requires j in s.parents
  {
    WithChildren(s, kids).(parents := s.parents[j := Classifying(s.parents[j], kids, now, c)])
  }

  function Wait(s: State, j: JobId, now: int, c: nat): State
    requires j in s.parents
  {
    s.(parents := s.parents[j := Postponed(s.parents[j], now, c)])
  }

  function Advanced(s: State, a: Action, c: nat): State
    requires Enabled(s, a) && a.Advance?
  {
    var p := s.parents[a.j];
    if Opens(p) then Start(s, a, c)
    else
      var results := Results(s, p.children);
      if AnyOpen(results) then Wait(s, a.j, a.now, c)
      else if p.stage == Files && AllFine(results) then
        if a.quiet then Finish(s, a.j, [], a.now) else MoveOn(s, a.j, a.kids, a.now, c)
      else Finish(s, a.j, results, a.now)
  }

  function Next(s: State, a: Action, c: nat): State
    requires Enabled(s, a)
  {
    if a.Advance? then Advanced(s, a, c) else Outside(s, a)
  }

  // ---- what each kind of step does to one pipeline and one news item ----

  /** An outside step keeps a news item's attempt or clears it, and moves both revisions alike. */
  predicate Drifts(before: News, after: News, a: Action) {
    && (after.current == before.current || after.current == None)
    && after.visibility - before.visibility == after.revision - before.revision
    && 0 <= after.revision - before.revision <= 1
    && (after.status == Published ==> before.status == Published || a.Transition?)
  }

  lemma OutsideNews(s: State, a: Action, n: NewsId)
    requires Enabled(s, a) && !a.Advance? && n in s.news
    ensures n in Outside(s, a).news && Drifts(s.news[n], Outside(s, a).news[n], a)
  {
    hide Created, Allowed;
    match a
    case Transition(_, _, _) =>
    case Edit(_) =>
    case Reprocess(_, _, _) =>
    case _ =>
  }

  lemma OutsideParent(s: State, a: Action, i: JobId)
    requires Enabled(s, a) && !a.Advance? && i in s.parents
    ensures i in Outside(s, a).parents && Outside(s, a).parents[i] == s.parents[i]
  {
  }

  lemma StartNewsFrame(s: State, a: Action, c: nat, n: NewsId)
    requires a.Advance? && Enabled(s, a) && n in s.news
    ensures n in Start(s, a, c).news
    ensures Start(s, a, c).news[n] == s.news[n]
         || (s.parents[a.j].news == Some(n) && Start(s, a, c).news[n] == Taken(s.news[n], a.made))
  {
  }

  lemma StartParentFrame(s: State, a: Action, c: nat, i: JobId)
    requires a.Advance? && Enabled(s, a) && i in s.parents
    ensures i in Start(s, a, c).parents
    ensures i != a.j ==> Start(s, a, c).parents[i] == s.parents[i]
    ensures i == a.j ==>
              || Start(s, a, c).parents[i] == Dead(s.parents[i])
              || Start(s, a, c).parents[i] == Begun(s.parents[i], a.made, a.kids, a.now, c)
  {
  }

  /** Whether a finish of `j` touches its news item. */
  predicate Reaches(s: State, j: JobId)
    requires j in s.parents
  {
    var p := s.parents[j];
    && p.news.Some? && p.news.value in s.news && p.current.Some? && p.current.value in s.attempts
    && Owns(p, s.news[p.news.value])
  }

  lemma FinishNewsFrame(s: State, j: JobId, results: seq<ChildStatus>, now: int, n: NewsId)
    requires j in s.parents && n in s.news
    ensures n in Finish(s, j, results, now).news
    ensures Finish(s, j, results, now).news[n] ==
              if Reaches(s, j) && s.parents[j].news == Some(n) then
                Released(s.news[n], AllFine(results) && AutoPublish(s, n), now)
              else s.news[n]
    ensures Finish(s, j, results, now).events ==
              if Reaches(s, j) then
                s.events + [(s.parents[j].news.value, s.news[s.parents[j].news.value].revision + 1)]
              else s.events
  {
  }

  lemma FinishParentFrame(s: State, j: JobId, results: seq<ChildStatus>, now: int, i: JobId)
    requires j in s.parents && i in s.parents
    ensures i in Finish(s, j, results, now).parents
    ensures Finish(s, j, results, now).parents[i] ==
              if i != j then s.parents[i]
              else s.parents[i].(status := if Reaches(s, j) then Succeeded else Cancelled)
  {
  }

  /** The stage of `j` has no open child left, and ends with these results. */
  predicate EndsWith(s: State, j: JobId, results: seq<ChildStatus>)
    requires j in s.parents
  {
    var p := s.parents[j];
    var all := Results(s, p.children);
    && !Opens(p) && !AnyOpen(all)
    && (results == all || (results == [] && p.stage == Files && AllFine(all)))
    && (AllFine(results) ==> AllFine(all))
  }

  /** All a step can do to a news item. */
  lemma NewsMoves(s: State, a: Action, c: nat, n: NewsId)
    requires Enabled(s, a) && n in s.news
    ensures n in Next(s, a, c).news
    ensures var before, after := s.news[n], Next(s, a, c).news[n];
            || after == before
            || (!a.Advance? && Drifts(before, after, a))
            || (a.Advance? && s.parents[a.j].news == Some(n) && Opens(s.parents[a.j]) && after == Taken(before, a.made))
            || (a.Advance? && s.parents[a.j].news == Some(n) && Reaches(s, a.j)
                && Next(s, a, c).events == s.events + [(n, before.revision + 1)]
                && ((exists results :: EndsWith(s, a.j, results) && after == Released(before, AllFine(results) && AutoPublish(s, n), a.now))))
  {
    hide Start, Finish, Outside, Results, AllFine, AutoPublish, Reaches, Drifts, Opens, AnyOpen;
    if a.Advance? {
      var results := Results(s, s.parents[a.j].children);
      StartNewsFrame(s, a, c, n);
      FinishNewsFrame(s, a.j, [], a.now, n);
      FinishNewsFrame(s, a.j, results, a.now, n);
      assert AllFine([]) by { NoneFail(); }
      if !Opens(s.parents[a.j]) && !AnyOpen(results) {
        assert EndsWith(s, a.j, results);
        assert s.parents[a.j].stage == Files && AllFine(results) ==> EndsWith(s, a.j, []);
      }
    } else {
      OutsideNews(s, a, n);
    }
  }

  lemma NoneFail()
    ensures AllFine([])
  {
  }

  /** A step on another pipeline, or by anyone else, leaves this one as it was. */
  lemma OthersStay(s: State, a: Action, c: nat, i: JobId)
    requires Enabled(s, a) && i in s.parents && !(a.Advance? && a.j == i)
    ensures i in Next(s, a, c).parents && Next(s, a, c).parents[i] == s.parents[i]
  {
    hide Start, Finish, Outside, AllFine, Results, AnyOpen;
    if a.Advance? {
      StartParentFrame(s, a, c, i);
      FinishParentFrame(s, a.j, [], a.now, i);
      FinishParentFrame(s, a.j, Results(s, s.parents[a.j].children), a.now, i);
    } else {
      OutsideParent(s, a, i);
    }
  }

  /** All an advance can do to its own pipeline. */
  lemma OwnMoves(s: State, a: Action, c: nat)
    requires Enabled(s, a) && a.Advance?
    ensures a.j in Next(s, a, c).parents
    ensures var p, after := s.parents[a.j], Next(s, a, c).parents[a.j];
            var all := Results(s, p.children);
            if Opens(p) then after == Dead(p) || after == Begun(p, a.made, a.kids, a.now, c)
            else if AnyOpen(all) then after == Postponed(p, a.now, c)
            else
              || after == p.(status := if Reaches(s, a.j) then Succeeded else Cancelled)
              || (p.stage == Files && after == Classifying(p, a.kids, a.now, c))
  {
    hide Start, Finish, AllFine, Results, AnyOpen, Reaches;
    StartParentFrame(s, a, c, a.j);
    FinishParentFrame(s, a.j, [], a.now, a.j);
    FinishParentFrame(s, a.j, Results(s, s.parents[a.j].children), a.now, a.j);
  }

  // ---- the invariant ----

  ghost predicate ParentGood(s: State, j: JobId)
    requires j in s.parents
  {
    var p := s.parents[j];
    && p.generation == p.birth + p.attemptCount
    && p.attemptCount == (if p.current == None then 0 else 1)
    && (p.stage == Unstarted <==> p.current == None)
    && (p.status == Pending ==> p.current == None)
    && (p.status == Waiting || p.status == Succeeded || p.status == Cancelled ==> p.current.Some?)
    && (p.current.Some? ==>
          && p.current.value in s.attempts && s.attempts[p.current.value].job == j
          && (s.attempts[p.current.value].status == InProgress <==> p.status != Succeeded))
    && (forall k | k in p.children :: k in s.children)
    && (p.stage == Labels ==> forall k | k in p.earlier :: k in s.children && s.children[k] == Fine)
    && (p.stage != Labels ==> p.earlier == [])
  }

  ghost predicate AttemptGood(s: State, x: AttemptId)
    requires x in s.attempts
  {
    var attempt := s.attempts[x];
    && attempt.job in s.parents && s.parents[attempt.job].current == Some(x)
    && (attempt.published ==>
          && s.parents[attempt.job].status == Succeeded && attempt.status == Complete
          && forall k | k in s.parents[attempt.job].children :: k in s.children && s.children[k] == Fine)
  }

  ghost predicate NewsGood(s: State, n: NewsId)
    requires n in s.news
  {
    s.news[n].current.Some? ==>
      && s.news[n].current.value in s.attempts
      && var j := s.attempts[s.news[n].current.value].job;
         j in s.parents && s.parents[j].status == Waiting && s.parents[j].news == Some(n)
  }

  ghost predicate Inv(s: State) {
    && (forall j | j in s.parents :: ParentGood(s, j))
    && (forall x | x in s.attempts :: AttemptGood(s, x))
    && (forall n | n in s.news :: NewsGood(s, n))
  }

  lemma {:induction false} ResultsOf(s: State, kids: seq<JobId>)
    requires forall k | k in kids :: k in s.children
    ensures |Results(s, kids)| == |kids|
    ensures AllFine(Results(s, kids)) <==> forall k | k in kids :: k in s.children && s.children[k] == Fine
  {
    if kids != [] {
      var k, rest := kids[0], kids[1..];
      assert k in kids && k in s.children;
      assert kids == [k] + rest && forall i | i in rest :: i in kids;
      ResultsOf(s, rest);
      var results := Results(s, kids);
      assert results == [s.children[kids[0]]] + Results(s, rest);
      assert AllFine(results) <==> s.children[kids[0]] == Fine && AllFine(Results(s, rest)) by {
        if s.children[kids[0]] == Fine && AllFine(Results(s, rest)) {
          forall i | 0 <= i < |results|
            ensures results[i] == Fine
          {
            assert i > 0 ==> results[i] == Results(s, rest)[i - 1];
          }
        }
        if AllFine(results) {
          assert results[0] == Fine;
          forall i | 0 <= i < |Results(s, rest)|
            ensures Results(s, rest)[i] == Fine
          {
            assert results[i + 1] == Results(s, rest)[i];
          }
        }
      }
    }
  }

  // ---- one step ----

  // Nobody but the coordinator touches attempts or pipelines that are there, and a child
  // that has succeeded stays so.

  lemma OutsideAttempts(s: State, a: Action)
    requires Enabled(s, a) && !a.Advance?
    ensures Outside(s, a).attempts == s.attempts
  {
  }

  lemma OutsideChild(s: State, a: Action, k: JobId)
    requires Enabled(s, a) && !a.Advance? && k in s.children
    ensures k in Outside(s, a).children && (s.children[k] == Fine ==> Outside(s, a).children[k] == Fine)
  {
    hide Bumped, Created, Allowed;
  }

  lemma OutsideNewParent(s: State, a: Action, j: JobId)
    requires Enabled(s, a) && !a.Advance? && j in Outside(s, a).parents && j !in s.parents
    ensures var p := Outside(s, a).parents[j]; p == Created(p.news, p.generation, p.available)
  {
    hide Bumped, Allowed;
  }

  lemma OutsideCurrent(s: State, a: Action, n: NewsId)
    requires Enabled(s, a) && !a.Advance? && n in Outside(s, a).news
    ensures Outside(s, a).news[n].current == None || (n in s.news && Outside(s, a).news[n].current == s.news[n].current)
  {
    hide Created, Allowed;
  }

  lemma OutsideParentGood(s: State, a: Action, j: JobId)
    requires Enabled(s, a) && !a.Advance? && j in Outside(s, a).parents && (j in s.parents ==> ParentGood(s, j))
    ensures ParentGood(Outside(s, a), j)
  {
    hide Outside, Enabled;
    OutsideAttempts(s, a);
    if j in s.parents {
      OutsideParent(s, a, j);
      forall k | k in s.parents[j].children + s.parents[j].earlier && k in s.children
        ensures k in Outside(s, a).children && (s.children[k] == Fine ==> Outside(s, a).children[k] == Fine)
      {
        OutsideChild(s, a, k);
      }
    } else {
      OutsideNewParent(s, a, j);
    }
  }

  lemma OutsideAttemptGood(s: State, a: Action, x: AttemptId)
    requires Enabled(s, a) && !a.Advance? && x in s.attempts && AttemptGood(s, x)
    ensures x in Outside(s, a).attempts && AttemptGood(Outside(s, a), x)
  {
    hide Outside, Enabled;
    OutsideAttempts(s, a);
    var j := s.attempts[x].job;
    OutsideParent(s, a, j);
    forall k | k in s.parents[j].children && k in s.children
      ensures k in Outside(s, a).children && (s.children[k] == Fine ==> Outside(s, a).children[k] == Fine)
    {
      OutsideChild(s, a, k);
    }
  }

  lemma OutsideNewsGood(s: State, a: Action, n: NewsId)
    requires Enabled(s, a) && !a.Advance? && n in Outside(s, a).news && (n in s.news ==> NewsGood(s, n))
    ensures NewsGood(Outside(s, a), n)
  {
    hide Outside, Enabled;
    OutsideAttempts(s, a);
    OutsideCurrent(s, a, n);
    if Outside(s, a).news[n].current.Some? {
      OutsideParent(s, a, s.attempts[s.news[n].current.value].job);
    }
  }

  /** Everything the editors, the settings and the children do. */
  lemma OutsideKeeps(s: State, a: Action, c: nat)
    requires Inv(s) && Enabled(s, a) && !a.Advance?
    ensures Inv(Next(s, a, c))
  {
    hide Outside, Enabled, ParentGood, AttemptGood, NewsGood;
    var s' := Next(s, a, c);
    forall j | j in s'.parents
      ensures ParentGood(s', j)
    {
      OutsideParentGood(s, a, j);
    }
    forall x | x in s'.attempts
      ensures AttemptGood(s', x)
    {
      OutsideAttempts(s, a);
      OutsideAttemptGood(s, a, x);
    }
    forall n | n in s'.news
      ensures NewsGood(s', n)
    {
      OutsideNewsGood(s, a, n);
    }
  }

  /** Where a start opens an attempt, and where it gives up. */
  predicate CanBegin(s: State, p: Parent) {
    p.news.Some? && p.news.value in s.news && s.news[p.news.value].hasVersion
  }

  lemma StartRows(s: State, a: Action, c: nat)
    requires a.Advance? && Enabled(s, a)
    ensures var s', p := Start(s, a, c), s.parents[a.j];
            && s'.parents == s.parents[a.j := if CanBegin(s, p) then Begun(p, a.made, a.kids, a.now, c) else Dead(p)]
            && s'.attempts == (if CanBegin(s, p) then s.attempts[a.made := Attempt(a.j, InProgress, false)] else s.attempts)
            && (forall k | k in s.children :: k in s'.children && s'.children[k] == s.children[k])
            && (CanBegin(s, p) ==> forall k | k in a.kids :: k in s'.children)
  {
    hide Begun, Dead, Taken, Opens, NewChildren;
  }

  lemma StartParent(s: State, a: Action, c: nat, j: JobId)
    requires Inv(s) && a.Advance? && Enabled(s, a) && Opens(s.parents[a.j]) && j in s.parents
    ensures j in Start(s, a, c).parents && ParentGood(Start(s, a, c), j)
  {
    StartRows(s, a, c);
    assert ParentGood(s, a.j) && ParentGood(s, j);
    hide Start, Inv, CanBegin, AttemptGood, NewsGood;
  }

  lemma StartAttempt(s: State, a: Action, c: nat, x: AttemptId)
    requires Inv(s) && a.Advance? && Enabled(s, a) && Opens(s.parents[a.j]) && x in Start(s, a, c).attempts
    ensures AttemptGood(Start(s, a, c), x)
  {
    StartRows(s, a, c);
    assert ParentGood(s, a.j);
    assert x in s.attempts ==> AttemptGood(s, x);
    hide Start, Inv, CanBegin, NewsGood;
  }

  lemma StartKeeps(s: State, a: Action, c: nat)
    requires Inv(s) && a.Advance? && Enabled(s, a) && Opens(s.parents[a.j])
    ensures Inv(Start(s, a, c))
  {
    var s' := Start(s, a, c);
    assert s'.parents.Keys == s.parents.Keys && s'.news.Keys == s.news.Keys;
    hide Start, ParentGood, AttemptGood, NewsGood, Enabled;
    forall j | j in s'.parents
      ensures ParentGood(s', j)
    {
      StartParent(s, a, c, j);
    }
    forall x | x in s'.attempts
      ensures AttemptGood(s', x)
    {
      StartAttempt(s, a, c, x);
    }
    forall n | n in s'.news
      ensures NewsGood(s', n)
    {
    }
  }

  lemma MoveOnKeeps(s: State, a: Action, c: nat)
    requires Inv(s) && a.Advance? && Enabled(s, a) && !Opens(s.parents[a.j]) && s.parents[a.j].stage == Files
    requires AllFine(Results(s, s.parents[a.j].children))
    ensures Inv(MoveOn(s, a.j, a.kids, a.now, c))
  {
    var s' := MoveOn(s, a.j, a.kids, a.now, c);
    assert ParentGood(s, a.j);
    ResultsOf(s, s.parents[a.j].children);
    forall j | j in s'.parents
      ensures ParentGood(s', j)
    {
      assert ParentGood(s, j);
    }
    forall x | x in s'.attempts
      ensures AttemptGood(s', x)
    {
      assert AttemptGood(s, x) && ParentGood(s, s.attempts[x].job);
    }
    forall n | n in s'.news
      ensures NewsGood(s', n)
    {
      assert NewsGood(s, n);
    }
  }

  lemma PostponeKeeps(s: State, a: Action, c: nat)
    requires Inv(s) && a.Advance? && Enabled(s, a)
    ensures Inv(Wait(s, a.j, a.now, c))
  {
    var s' := Wait(s, a.j, a.now, c);
    forall j | j in s'.parents
      ensures ParentGood(s', j)
    {
      assert ParentGood(s, j);
    }
    forall x | x in s'.attempts
      ensures AttemptGood(s', x)
    {
      assert AttemptGood(s, x);
    }
    forall n | n in s'.news
      ensures NewsGood(s', n)
    {
      assert NewsGood(s, n);
    }
  }

  /** A finish with the results of the stage that just ran, or none after a quiet one. */
  predicate Ends(s: State, j: JobId, results: seq<ChildStatus>) {
    && j in s.parents && s.parents[j].status == Waiting
    && (AllFine(results) ==> forall k | k in s.parents[j].children :: k in s.children && s.children[k] == Fine)
  }

  lemma FinishParent(s: State, j: JobId, results: seq<ChildStatus>, now: int, i: JobId)
    requires Inv(s) && Ends(s, j, results) && i in s.parents
    ensures i in Finish(s, j, results, now).parents && ParentGood(Finish(s, j, results, now), i)
  {
    FinishRows(s, j, results, now);
    assert ParentGood(s, j) && ParentGood(s, i);
    hide Finish, Inv, AttemptGood, NewsGood, AutoPublish, AllFine, Reaches;
  }

  lemma FinishRows(s: State, j: JobId, results: seq<ChildStatus>, now: int)
    requires j in s.parents
    ensures var s', p := Finish(s, j, results, now), s.parents[j];
            && s'.children == s.children
            && s'.parents == s.parents[j := p.(status := if Reaches(s, j) then Succeeded else Cancelled)]
            && s'.attempts ==
                 if Reaches(s, j) then
                   s.attempts[p.current.value := Ended(s.attempts[p.current.value], AllFine(results),
                                                       AllFine(results) && AutoPublish(s, p.news.value))]
                 else s.attempts
  {
    hide AllFine, AutoPublish, Released, Ended;
  }

  lemma FinishAttempt(s: State, j: JobId, results: seq<ChildStatus>, now: int, x: AttemptId)
    requires Inv(s) && Ends(s, j, results) && x in s.attempts
    ensures x in Finish(s, j, results, now).attempts && AttemptGood(Finish(s, j, results, now), x)
  {
    hide NewsGood, AutoPublish, AllFine;
    assert ParentGood(s, j) && AttemptGood(s, x);
  }

  lemma FinishNews(s: State, j: JobId, results: seq<ChildStatus>, now: int, n: NewsId)
    requires Inv(s) && Ends(s, j, results) && n in s.news
    ensures n in Finish(s, j, results, now).news && NewsGood(Finish(s, j, results, now), n)
  {
    hide AutoPublish, AllFine;
    assert ParentGood(s, j) && NewsGood(s, n);
    if s.news[n].current.Some? {
      assert AttemptGood(s, s.news[n].current.value);
    }
  }

  lemma FinishKeeps(s: State, j: JobId, results: seq<ChildStatus>, now: int)
    requires Inv(s) && Ends(s, j, results)
    ensures Inv(Finish(s, j, results, now))
  {
    var s' := Finish(s, j, results, now);
    assert s'.parents.Keys == s.parents.Keys && s'.news.Keys == s.news.Keys && s'.attempts.Keys == s.attempts.Keys;
    hide Finish, ParentGood, AttemptGood, NewsGood, Ends;
    forall i | i in s'.parents
      ensures ParentGood(s', i)
    {
      FinishParent(s, j, results, now, i);
    }
    forall x | x in s'.attempts
      ensures AttemptGood(s', x)
    {
      FinishAttempt(s, j, results, now, x);
    }
    forall n | n in s'.news
      ensures NewsGood(s', n)
    {
      FinishNews(s, j, results, now, n);
    }
  }

  lemma AdvanceKeeps(s: State, a: Action, c: nat)
    requires Inv(s) && a.Advance? && Enabled(s, a)
    ensures Inv(Next(s, a, c))
  {
    assert ParentGood(s, a.j);
    var p := s.parents[a.j];
    hide Inv, Finish, Start, MoveOn, Wait;
    if Opens(p) {
      StartKeeps(s, a, c);
    } else {
      var results := Results(s, p.children);
      ResultsOf(s, p.children);
      PostponeKeeps(s, a, c);
      if !AnyOpen(results) {
        if p.stage == Files && AllFine(results) {
          MoveOnKeeps(s, a, c);
          FinishKeeps(s, a.j, [], a.now);
        } else {
          FinishKeeps(s, a.j, results, a.now);
        }
      }
    }
  }

  lemma StepKeepsInv(s: State, a: Action, c: nat)
    requires Inv(s) && Enabled(s, a)
    ensures Inv(Next(s, a, c))
  {
    hide Inv, Next;
    if a.Advance? {
      AdvanceKeeps(s, a, c);
    } else {
      OutsideKeeps(s, a, c);
    }
  }
}
