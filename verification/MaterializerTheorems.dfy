/** What a recomputation promises, whatever order its queries answer in. */
module MaterializerTheorems {
  import opened Filtering
  import opened Materializer
  import opened Opinions
  import opened Options
  import opened Scoring
  import opened Sorting
  import opened Texts

  // ---- independence of order ----

  /** The unique constraints of the schema: one label for a version, facet, value and
      opinion; one kind for a facet; unique ids and slugs. */
  ghost predicate Constrained(w: World) {
    && (forall a, b | a in w.rows && b in w.rows :: SameLabel(a, b) ==> a == b)
    && (forall a, b | a in w.rows && b in w.rows && a.facet == b.facet :: a.multi == b.multi)
    && UniqueClassifiers(w.classifiers) && UniqueAttempts(w.attempts) && UniqueDecisions(w.decisions)
    && Identified(w.rules)
  }

  predicate SameLabel(a: Row, b: Row) {
    a.version == b.version && a.facet == b.facet && a.value == b.value && OpinionOf(a) == OpinionOf(b)
  }

  ghost predicate UniqueDecisions(decisions: seq<Decision>) {
    forall a, b | a in decisions && b in decisions && a.id == b.id :: a == b
  }

  /** No key is stored under two origins of the same priority, as an attempt filed both
      as a classifier's and as a shadow's would be. */
  ghost predicate FiledOnce(rows: seq<Row>) {
    forall a, b | a in rows && b in rows && a.key == b.key && OriginPriority(a.origin) == OriginPriority(b.origin) ::
      a.origin == b.origin
  }

  ghost predicate Rearranged(w: World, w': World) {
    && w'.version == w.version && multiset(w'.rows) == multiset(w.rows)
    && multiset(w'.classifiers) == multiset(w.classifiers) && multiset(w'.attempts) == multiset(w.attempts)
    && multiset(w'.decisions) == multiset(w.decisions) && multiset(w'.rules) == multiset(w.rules)
  }

  lemma RevisionOrders(decisions: seq<Decision>)
    requires UniqueDecisions(decisions)
    ensures Orders(ByRevision(), decisions) && TieFree(ByRevision(), decisions)
  {
    LessOrders();
  }

  lemma DecisionsInAnyOrder(decisions: seq<Decision>, decisions': seq<Decision>, version: Option<int>)
    requires UniqueDecisions(decisions) && multiset(decisions) == multiset(decisions')
    ensures Newest(decisions, version) == Newest(decisions', version)
    ensures DecidedAxes(decisions, version) == DecidedAxes(decisions', version)
  {
    SameElements(decisions, decisions');
    FilterPermutes(Shown(version), decisions, decisions');
    FilterIn(Shown(version), decisions);
    RevisionOrders(Filter(Shown(version), decisions));
    SortForgetsOrder(ByRevision(), Filter(Shown(version), decisions), Filter(Shown(version), decisions'));
  }

  lemma LookupsAgree(w: World, w': World)
    requires Constrained(w) && Rearranged(w, w')
    ensures BySlug(w.classifiers) == BySlug(w'.classifiers) && LatestIds(w) == LatestIds(w')
    ensures Newest(w.decisions, w.version) == Newest(w'.decisions, w'.version)
    ensures DecidedAxes(w.decisions, w.version) == DecidedAxes(w'.decisions, w'.version)
  {
    hide Newest, DecidedAxes, Latest;
    ClassifiersInAnyOrder(w.classifiers, w'.classifiers);
    AttemptsInAnyOrder(w.attempts, w'.attempts, SlugById(w.classifiers), w.version);
    DecisionsInAnyOrder(w.decisions, w'.decisions, w.version);
  }

  lemma PoolIn(own: seq<Row>, newest: map<string, Decision>, legacy: set<string>, axis: string)
    ensures forall r | r in Pool(own, newest, legacy, axis) :: r in own
  {
    if axis in newest {
      FilterIn(SetBy(newest[axis].id), own);
      FilterIn(NotByEditor(), own);
    }
    FilterIn(ByEditor(), own);
  }

  lemma PoolPermutes(own: seq<Row>, own': seq<Row>, newest: map<string, Decision>, legacy: set<string>, axis: string)
    requires multiset(own) == multiset(own')
    ensures multiset(Pool(own, newest, legacy, axis)) == multiset(Pool(own', newest, legacy, axis))
  {
    if axis in newest {
      FilterPermutes(SetBy(newest[axis].id), own, own');
      FilterPermutes(NotByEditor(), own, own');
    }
    FilterPermutes(ByEditor(), own, own');
  }

  lemma OwnIn(w: World, axis: string)
    ensures forall r :: r in Own(w, axis) <==>
              r in w.rows && Counts(w.version, BySlug(w.classifiers), LatestIds(w))(r) && r.facet == axis
  {
    var counts := Counts(w.version, BySlug(w.classifiers), LatestIds(w));
    FilterIn(counts, w.rows);
    FilterIn(OnAxis(axis), Filter(counts, w.rows));
  }

  lemma CandidatesWellFormed(w: World, manual: set<string>, axis: string)
    requires Constrained(w)
    ensures WellFormed(CandidatesOf(w, manual, axis))
    ensures FiledOnce(w.rows) ==> Decided(CandidatesOf(w, manual, axis), BySlug(w.classifiers))
  {
    hide BySlug, LatestIds, Own, Trusted, Pool;
    var candidates := CandidatesOf(w, manual, axis);
    OwnIn(w, axis);
    PoolIn(Own(w, axis), Newest(w.decisions, w.version), Legacy(w, manual), axis);
    forall r | r in candidates
      ensures r in w.rows && r.facet == axis && Some(r.version) == w.version
    {
    }
    if FiledOnce(w.rows) {
      OutranksOrders(BySlug(w.classifiers));
    }
  }

  lemma AxisInAnyOrder(w: World, w': World, manual: set<string>, axis: string)
    requires Constrained(w) && Rearranged(w, w')
    ensures (CandidatesOf(w, manual, axis) == []) == (CandidatesOf(w', manual, axis) == [])
    ensures Decided(CandidatesOf(w, manual, axis), BySlug(w.classifiers)) ==>
              WinnersOf(w, manual, axis) == WinnersOf(w', manual, axis)
  {
    hide BySlug, LatestIds, Pool, Selected, Newest, Constrained, Decided, WellFormed;
    LookupsAgree(w, w');
    var counts := Counts(w.version, BySlug(w.classifiers), LatestIds(w));
    FilterPermutes(counts, w.rows, w'.rows);
    FilterPermutes(OnAxis(axis), Filter(counts, w.rows), Filter(counts, w'.rows));
    PoolPermutes(Own(w, axis), Own(w', axis), Newest(w.decisions, w.version), Legacy(w, manual), axis);
    var candidates, candidates' := CandidatesOf(w, manual, axis), CandidatesOf(w', manual, axis);
    assert |candidates| == |multiset(candidates)| == |multiset(candidates')| == |candidates'|;
    if Decided(candidates, BySlug(w.classifiers)) {
      CandidatesWellFormed(w, manual, axis);
      SelectedInAnyOrder(candidates, candidates', BySlug(w.classifiers));
    }
  }

  lemma AxesAgree(w: World, w': World, manual: set<string>)
    requires Constrained(w) && Rearranged(w, w')
    ensures Axes(w, manual) == Axes(w', manual) && Active(w, manual) == Active(w', manual)
  {
    hide BySlug, LatestIds, Newest, Constrained, DecidedAxes, Counts;
    LookupsAgree(w, w');
    var counts := Counts(w.version, BySlug(w.classifiers), LatestIds(w));
    FilterPermutes(counts, w.rows, w'.rows);
    SameElements(Filter(counts, w.rows), Filter(counts, w'.rows));
  }

  /** A recomputation is a function of the sets of rows it reads, whatever order the
      queries return them in, provided no axis has two opinions tied for first place. */
  lemma OrderIsForgotten(w: World, w': World, manual: set<string>)
    requires Constrained(w) && Rearranged(w, w')
    requires forall axis :: Decided(CandidatesOf(w, manual, axis), BySlug(w.classifiers))
    ensures OutcomeOf(w, manual) == OutcomeOf(w', manual)
  {
    hide CandidatesOf, WinnersOf, Decided, Run, Ordered, Axes, Active, BySlug;
    AxesAgree(w, w', manual);
    forall axis
      ensures (CandidatesOf(w, manual, axis) == []) == (CandidatesOf(w', manual, axis) == [])
      ensures WinnersOf(w, manual, axis) == WinnersOf(w', manual, axis)
    {
      AxisInAnyOrder(w, w', manual, axis);
    }
    assert Won(w, manual, Axes(w, manual)) == Won(w', manual, Axes(w', manual));
    assert Constrained(w);
    RulesInAnyOrder(w.rules, w'.rules);
  }

  /** In particular when no key is filed under two origins of one priority. */
  lemma FiledOnceForgetsOrder(w: World, w': World, manual: set<string>)
    requires Constrained(w) && Rearranged(w, w') && FiledOnce(w.rows)
    ensures OutcomeOf(w, manual) == OutcomeOf(w', manual)
  {
    hide OutcomeOf, CandidatesOf, Decided, BySlug;
    forall axis
      ensures Decided(CandidatesOf(w, manual, axis), BySlug(w.classifiers))
    {
      CandidatesWellFormed(w, manual, axis);
    }
    OrderIsForgotten(w, w', manual);
  }

  /** The same rows with row `i` first. */
  function RowFirst(w: World, i: nat): World
    requires i < |w.rows|
  {
    w.(rows := [w.rows[i]] + w.rows[..i] + w.rows[i + 1..])
  }

  lemma FilterFirst<T>(keep: T -> bool, x: T, xs: seq<T>)
    requires keep(x)
    ensures Filter(keep, [x] + xs) == [x] + Filter(keep, xs)
  {
    assert ([x] + xs)[1..] == xs;
  }

  lemma OwnFirst(w: World, axis: string, i: nat) returns (rest: seq<Row>)
    requires i < |w.rows| && w.rows[i] in Own(w, axis)
    ensures Own(RowFirst(w, i), axis) == [w.rows[i]] + rest
    ensures multiset(Own(RowFirst(w, i), axis)) == multiset(Own(w, axis))
    ensures multiset(RowFirst(w, i).rows) == multiset(w.rows)
  {
    hide BySlug, Latest, SlugById, Counts;
    var x, others, w' := w.rows[i], w.rows[..i] + w.rows[i + 1..], RowFirst(w, i);
    assert w.rows == w.rows[..i] + [x] + w.rows[i + 1..];
    assert w'.rows == [x] + others;
    var counts := Counts(w.version, BySlug(w.classifiers), LatestIds(w));
    OwnIn(w, axis);
    FilterFirst(counts, x, others);
    FilterFirst(OnAxis(axis), x, Filter(counts, others));
    FilterPermutes(counts, w.rows, w'.rows);
    FilterPermutes(OnAxis(axis), Filter(counts, w.rows), Filter(counts, w'.rows));
    rest := Filter(OnAxis(axis), Filter(counts, others));
  }

  /** A candidate stays a candidate when its row comes first, and comes first itself. */
  lemma CandidateFirst(w: World, manual: set<string>, axis: string, i: nat)
    requires i < |w.rows| && w.rows[i] in CandidatesOf(w, manual, axis)
    ensures Rearranged(w, RowFirst(w, i))
    ensures multiset(CandidatesOf(RowFirst(w, i), manual, axis)) == multiset(CandidatesOf(w, manual, axis))
    ensures CandidatesOf(RowFirst(w, i), manual, axis) != []
    ensures CandidatesOf(RowFirst(w, i), manual, axis)[0] == w.rows[i]
  {
    hide Own, Newest, DecidedAxes, Pool;
    var newest, legacy := Newest(w.decisions, w.version), Legacy(w, manual);
    PoolIn(Own(w, axis), newest, legacy, axis);
    var rest := OwnFirst(w, axis, i);
    PoolPermutes(Own(w, axis), Own(RowFirst(w, i), axis), newest, legacy, axis);
    PoolFirst(Own(w, axis), rest, w.rows[i], newest, legacy, axis);
  }

  lemma PoolFirst(
    own: seq<Row>, rest: seq<Row>, x: Row, newest: map<string, Decision>, legacy: set<string>, axis: string)
    requires x in Pool(own, newest, legacy, axis)
    ensures Pool([x] + rest, newest, legacy, axis) != [] && Pool([x] + rest, newest, legacy, axis)[0] == x
  {
    hide Filter;
    if axis in newest && newest[axis].action == Set {
      FilterIn(SetBy(newest[axis].id), own);
      FilterFirst(SetBy(newest[axis].id), x, rest);
    } else if axis in newest {
      FilterIn(NotByEditor(), own);
      FilterFirst(NotByEditor(), x, rest);
    } else {
      FilterIn(ByEditor(), own);
      if axis in legacy {
        FilterFirst(ByEditor(), x, rest);
      }
    }
  }

  lemma FirstWins(candidates: seq<Row>, classifiers: map<string, Classifier>)
    requires candidates != []
    requires forall c | c in candidates :: !Outranks(OpinionOf(c), OpinionOf(candidates[0]), classifiers)
    ensures Selected(candidates, classifiers) != []
    ensures forall r | r in Selected(candidates, classifiers) :: OpinionOf(r) == OpinionOf(candidates[0])
  {
    hide Keys, Best, Outranks, Cut, Filter;
    FirstKey(candidates);
    KeysOf(candidates);
    BestStays(Keys(candidates), classifiers);
    WinnerIs(candidates, classifiers);
    FilterIn(Same(OpinionOf(candidates[0])), candidates);
    CutSorts(Filter(Same(OpinionOf(candidates[0])), candidates));
  }

  lemma SelectedIn(candidates: seq<Row>, classifiers: map<string, Classifier>)
    ensures forall r | r in Selected(candidates, classifiers) :: r in candidates
  {
    if candidates != [] {
      hide Keys, Best, Cut, Filter;
      WinnerIs(candidates, classifiers);
      var best := Best(Keys(candidates), classifiers);
      CutSorts(Filter(Same(best), candidates));
      FilterIn(Same(best), candidates);
    }
  }

  lemma WinnersOnAxis(w: World, manual: set<string>, axis: string)
    ensures forall r | r in WinnersOf(w, manual, axis) :: r.facet == axis
    ensures WinnersOf(w, manual, axis) != [] ==> axis in Axes(w, manual)
  {
    hide Selected, Pool, Counts, BySlug, LatestIds, Newest, Filter;
    var candidates := CandidatesOf(w, manual, axis);
    SelectedIn(candidates, BySlug(w.classifiers));
    PoolIn(Own(w, axis), Newest(w.decisions, w.version), Legacy(w, manual), axis);
    OwnIn(w, axis);
    if WinnersOf(w, manual, axis) != [] {
      var r := WinnersOf(w, manual, axis)[0];
      assert r in WinnersOf(w, manual, axis);
      var counts := Counts(w.version, BySlug(w.classifiers), LatestIds(w));
      FilterIn(counts, w.rows);
      assert r in Filter(counts, w.rows) && r.facet == axis;
    }
  }

  /** The effective labels an outcome shows on an axis are those of its winners. */
  lemma ShownOnAxis(w: World, manual: set<string>, axis: string, e: Effective)
    requires e.facet == axis
    ensures e in EffectiveOf(OutcomeOf(w, manual).winners) <==>
              exists r: Row :: r in WinnersOf(w, manual, axis) && e == Effective(r.facet, r.value, r.origin, r.confidence)
  {
    hide CandidatesOf, WinnersOf, Axes, Run, Ordered, Active;
    var winners := Won(w, manual, Axes(w, manual));
    if e in EffectiveOf(winners) {
      var other: string, r: Row :| other in winners && r in winners[other] && e == Effective(r.facet, r.value, r.origin, r.confidence);
      WinnersOnAxis(w, manual, other);
    }
    if r: Row :| r in WinnersOf(w, manual, axis) && e == Effective(r.facet, r.value, r.origin, r.confidence) {
      WinnersOnAxis(w, manual, axis);
      assert CandidatesOf(w, manual, axis) != [] by { NoneOfNone(w, manual, axis); }
      assert axis in winners;
    }
  }

  lemma NoneOfNone(w: World, manual: set<string>, axis: string)
    ensures CandidatesOf(w, manual, axis) == [] ==> WinnersOf(w, manual, axis) == []
  {
  }

  /** Winners of different origins show in the outcome. */
  lemma OutcomesDiffer(w: World, w': World, manual: set<string>, axis: string, origin: Origin)
    requires WinnersOf(w, manual, axis) != []
    requires forall r | r in WinnersOf(w, manual, axis) :: r.origin == origin
    requires forall r | r in WinnersOf(w', manual, axis) :: r.origin != origin
    ensures EffectiveOf(OutcomeOf(w, manual).winners) != EffectiveOf(OutcomeOf(w', manual).winners)
  {
    hide WinnersOf, OutcomeOf, EffectiveOf;
    var r := WinnersOf(w, manual, axis)[0];
    assert r in WinnersOf(w, manual, axis);
    WinnersOnAxis(w, manual, axis);
    var e := Effective(r.facet, r.value, r.origin, r.confidence);
    ShownOnAxis(w, manual, axis, e);
    ShownOnAxis(w', manual, axis, e);
  }

  /** Where two opinions tie for the first place of an axis, putting one or the other
      row first changes the effective labels. */
  lemma TieFollowsOrder(w: World, manual: set<string>, axis: string)
    requires !Decided(CandidatesOf(w, manual, axis), BySlug(w.classifiers))
    ensures exists w' :: Rearranged(w, w')
              && EffectiveOf(OutcomeOf(w', manual).winners) != EffectiveOf(OutcomeOf(w, manual).winners)
  {
    hide CandidatesOf, BySlug, Outranks, Selected, Rearranged, OutcomeOf, EffectiveOf, WinnersOf;
    var candidates, classifiers := CandidatesOf(w, manual, axis), BySlug(w.classifiers);
    var a, b :|
      && a in candidates && b in candidates && OpinionOf(a) != OpinionOf(b)
      && (forall c | c in candidates :: !Outranks(OpinionOf(c), OpinionOf(a), classifiers))
      && (forall c | c in candidates :: !Outranks(OpinionOf(c), OpinionOf(b), classifiers));
    var wa := MovedFirst(w, manual, axis, a);
    var wb := MovedFirst(w, manual, axis, b);
    assert a.origin != b.origin by { OutranksOrders(classifiers); }
    forall r | r in WinnersOf(wb, manual, axis)
      ensures r.origin != a.origin
    {
      assert OpinionOf(r) == OpinionOf(b);
    }
    forall r | r in WinnersOf(wa, manual, axis)
      ensures r.origin == a.origin
    {
      assert OpinionOf(r) == OpinionOf(a);
    }
    OutcomesDiffer(wa, wb, manual, axis, a.origin);
  }

  /** The condition is exact: the order of the queries is forgotten if and only if every
      axis is decided. */
  lemma OrderMattersExactly(w: World, manual: set<string>)
    requires Constrained(w)
    ensures (forall w' | Rearranged(w, w') :: OutcomeOf(w', manual) == OutcomeOf(w, manual)) <==>
              forall axis :: Decided(CandidatesOf(w, manual, axis), BySlug(w.classifiers))
  {
    hide Constrained, Rearranged, OutcomeOf, EffectiveOf, CandidatesOf, BySlug, Decided;
    if forall axis :: Decided(CandidatesOf(w, manual, axis), BySlug(w.classifiers)) {
      forall w' | Rearranged(w, w')
        ensures OutcomeOf(w', manual) == OutcomeOf(w, manual)
      {
        OrderIsForgotten(w, w', manual);
      }
    } else {
      var axis :| !Decided(CandidatesOf(w, manual, axis), BySlug(w.classifiers));
      TieFollowsOrder(w, manual, axis);
    }
  }

  /** One attempt whose labels are stored both as the classifier's and as a shadow's. The
      schema allows it, and nothing but the writer prevents it: labels of an attempt are
      written once, when it succeeds, under the origin its classifier has then. */
  const FILED_TWICE := World(
    Some(1),
    [Row(1, "topic", false, true, "science", true, FromClassifier, "c:1", 1.0),
     Row(1, "topic", false, true, "sports", true, FromShadow, "c:1", 1.0)],
    [Classifier(5, "c", true, false, {}, 0.0, 0)], [Attempt("1", Some(1), Some(5), true, None, 0)], [], [])

  lemma FiledTwiceLookups()
    ensures BySlug(FILED_TWICE.classifiers) == map["c" := FILED_TWICE.classifiers[0]]
    ensures "c" in LatestIds(FILED_TWICE) && LatestIds(FILED_TWICE)["c"] == "1"
  {
    var classifiers, attempts := FILED_TWICE.classifiers, FILED_TWICE.attempts;
    assert classifiers[..0] == [];
    assert SlugById(classifiers) == map[5 := "c"];
    var counted := Filter(Counted(Some(1)), attempts);
    assert counted == attempts by { FilterAll(Counted(Some(1)), attempts); }
    var sorted := Sort(ByRecency(), counted);
    SortPermutes(ByRecency(), counted);
    SameElements(sorted, counted);
    assert |sorted| == |multiset(sorted)| == 1 && sorted[0] in sorted;
    assert sorted == attempts;
    assert attempts[..0] == [];
    assert FirstPer(SlugOf(SlugById(classifiers)), attempts[..0]) == map[];
  }

  lemma FiledTwiceCandidates()
    ensures CandidatesOf(FILED_TWICE, {}, "topic") == Own(FILED_TWICE, "topic")
    ensures forall c :: c in Own(FILED_TWICE, "topic") <==> c in FILED_TWICE.rows
  {
    var w := FILED_TWICE;
    FiledTwiceLookups();
    hide BySlug, LatestIds;
    PartitionOfJoin("c", "1");
    assert "c" + ":" + "1" == "c:1";
    OwnIn(w, "topic");
    hide Own;
    assert Newest(w.decisions, w.version) == map[];
  }

  lemma TwoOrigins(a: Opinion, b: Opinion, classifiers: map<string, Classifier>)
    requires a.key == b.key && OriginPriority(a.origin) == OriginPriority(b.origin)
    ensures !Outranks(a, b, classifiers)
  {
    LessTrichotomy(a.key, b.key);
  }

  /** The constraints of the schema allow it, and its axis is not decided. */
  lemma FiledTwiceTies()
    ensures Constrained(FILED_TWICE)
    ensures !Decided(CandidatesOf(FILED_TWICE, {}, "topic"), BySlug(FILED_TWICE.classifiers))
  {
    var w, classifiers := FILED_TWICE, BySlug(FILED_TWICE.classifiers);
    var candidates := CandidatesOf(w, {}, "topic");
    FiledTwiceCandidates();
    hide BySlug, CandidatesOf, Own, Outranks;
    var a, b := w.rows[0], w.rows[1];
    assert a in candidates && b in candidates && OpinionOf(a) != OpinionOf(b);
    forall c | c in candidates
      ensures !Outranks(OpinionOf(c), OpinionOf(a), classifiers)
      ensures !Outranks(OpinionOf(c), OpinionOf(b), classifiers)
    {
      TwoOrigins(OpinionOf(c), OpinionOf(a), classifiers);
      TwoOrigins(OpinionOf(c), OpinionOf(b), classifiers);
    }
  }

  /** So what it shows depends on the order of its rows. */
  lemma FiledTwiceFollowsOrder()
    ensures Constrained(FILED_TWICE)
    ensures exists w' :: Rearranged(FILED_TWICE, w')
              && EffectiveOf(OutcomeOf(w', {}).winners) != EffectiveOf(OutcomeOf(FILED_TWICE, {}).winners)
  {
    hide *;
    FiledTwiceTies();
    TieFollowsOrder(FILED_TWICE, {}, "topic");
  }

  lemma MovedFirst(w: World, manual: set<string>, axis: string, x: Row) returns (w': World)
    requires x in CandidatesOf(w, manual, axis)
    requires forall c | c in CandidatesOf(w, manual, axis) :: !Outranks(OpinionOf(c), OpinionOf(x), BySlug(w.classifiers))
    ensures Rearranged(w, w') && WinnersOf(w', manual, axis) != []
    ensures forall r | r in WinnersOf(w', manual, axis) :: OpinionOf(r) == OpinionOf(x)
  {
    hide CandidatesOf, BySlug, Outranks, Selected, Pool, Counts;
    assert x in w.rows by {
      OwnIn(w, axis);
      assert CandidatesOf(w, manual, axis) == Pool(Own(w, axis), Newest(w.decisions, w.version), Legacy(w, manual), axis)
        by { CandidatesAre(w, manual, axis); }
      PoolIn(Own(w, axis), Newest(w.decisions, w.version), Legacy(w, manual), axis);
    }
    var i :| 0 <= i < |w.rows| && w.rows[i] == x;
    w' := RowFirst(w, i);
    CandidateFirst(w, manual, axis, i);
    SameElements(CandidatesOf(w', manual, axis), CandidatesOf(w, manual, axis));
    FirstWins(CandidatesOf(w', manual, axis), BySlug(w'.classifiers));
  }

  lemma CandidatesAre(w: World, manual: set<string>, axis: string)
    ensures CandidatesOf(w, manual, axis) == Pool(Own(w, axis), Newest(w.decisions, w.version), Legacy(w, manual), axis)
  {
  }

  // ---- idempotence ----

  /** Recomputing again changes neither labels nor manual axes nor scores: what a set
      decision added to the manual axes is a decided axis, and so no legacy pin. */
  lemma RecomputingAgain(w: World, manual: set<string>)
    ensures OutcomeOf(w, OutcomeOf(w, manual).manual) == OutcomeOf(w, manual)
  {
    hide Run, Ordered, Own, Selected, BySlug, LatestIds, Counts, LabelsOf;
    var again := Active(w, manual);
    NewestDecided(w);
    assert Legacy(w, again) == Legacy(w, manual);
    assert Active(w, again) == Active(w, manual) && Axes(w, again) == Axes(w, manual);
    forall axis
      ensures CandidatesOf(w, again, axis) == CandidatesOf(w, manual, axis)
    {
    }
    assert Won(w, again, Axes(w, again)) == Won(w, manual, Axes(w, manual));
  }

  lemma NewestDecided(w: World)
    ensures forall axis | axis in Newest(w.decisions, w.version) :: axis in DecidedAxes(w.decisions, w.version)
  {
    var sorted := Sort(ByRevision(), Filter(Shown(w.version), w.decisions));
    SortPermutes(ByRevision(), Filter(Shown(w.version), w.decisions));
    SameElements(sorted, Filter(Shown(w.version), w.decisions));
    FilterIn(Shown(w.version), w.decisions);
    forall axis | axis in Newest(w.decisions, w.version)
      ensures axis in DecidedAxes(w.decisions, w.version)
    {
      FirstPerIsFirst(FacetOf(), sorted, axis);
      var i :| 0 <= i < |sorted| && FacetOf()(sorted[i]) == Some(axis);
      assert sorted[i] in sorted;
    }
  }

  // ---- where the labels and scores come from ----

  /** Each axis of an outcome is won by its single maximal opinion group, and the
      scores are in range. */
  lemma OutcomeIsSound(w: World, manual: set<string>)
    requires Constrained(w)
    ensures Bounded(OutcomeOf(w, manual).scores) && 0 <= OutcomeOf(w, manual).scores.Importance() <= 300
    ensures forall axis | axis in OutcomeOf(w, manual).winners ::
              OneGroup(OutcomeOf(w, manual).winners[axis], CandidatesOf(w, manual, axis), BySlug(w.classifiers))
  {
    var winners := OutcomeOf(w, manual).winners;
    ScoresStayBounded(LabelsOf(winners), Ordered(w.rules), ZERO);
    hide BySlug, CandidatesOf, Selected, Run, OneGroup, Constrained, WellFormed;
    forall axis | axis in winners
      ensures OneGroup(winners[axis], CandidatesOf(w, manual, axis), BySlug(w.classifiers))
    {
      CandidatesWellFormed(w, manual, axis);
      SelectedIsOneGroup(CandidatesOf(w, manual, axis), BySlug(w.classifiers));
    }
  }

  /** What an axis of the outcome shows, by the origins of what it was chosen from. */
  lemma OutcomeByOrigin(w: World, manual: set<string>, axis: string)
    requires axis in OutcomeOf(w, manual).winners
    ensures var candidates, winners := CandidatesOf(w, manual, axis), OutcomeOf(w, manual).winners[axis];
            && winners != []
            && if SomeFrom(candidates, FromEditor) then AllFrom(winners, {FromEditor})
               else if SomeFrom(candidates, FromSource) then AllFrom(winners, {FromSource})
               else if SomeFrom(candidates, FromParser) then AllFrom(winners, {FromParser})
               else if SomeFrom(candidates, FromClassifier) || SomeFrom(candidates, FromShadow) then
                 AllFrom(winners, {FromClassifier, FromShadow})
               else true
  {
    hide CandidatesOf, Selected, SomeFrom, AllFrom, Axes, BySlug;
    WinnersByOrigin(CandidatesOf(w, manual, axis), BySlug(w.classifiers));
    WinnersUnbeaten(CandidatesOf(w, manual, axis), BySlug(w.classifiers));
  }

  /** By the columns: more confident labels come first and then smaller values; an axis of
      one value keeps the first of the winning opinion, another axis all of them. */
  lemma WinnersByConfidence(candidates: seq<Row>, classifiers: map<string, Classifier>)
    requires WellFormed(candidates) && candidates != []
    ensures var winners := Selected(candidates, classifiers);
            && (forall i, j | 0 <= i < j < |winners| ::
                  || winners[i].confidence > winners[j].confidence
                  || (winners[i].confidence == winners[j].confidence && !Less(winners[j].value, winners[i].value)))
            && (!candidates[0].multi ==>
                  && |winners| == 1
                  && forall c | c in candidates && c.origin == winners[0].origin && c.key == winners[0].key ::
                       || c.confidence < winners[0].confidence
                       || (c.confidence == winners[0].confidence && !Less(c.value, winners[0].value)))
            && (candidates[0].multi ==>
                  forall w, c | w in winners && c in candidates && c.origin == w.origin && c.key == w.key :: c in winners)
  {
    WinnersDescend(candidates, classifiers);
    SelectedIsOneGroup(candidates, classifiers);
    ConfidenceMeans();
    hide Outranks, Less, Selected, ByConfidence, WellFormed;
    var winners := Selected(candidates, classifiers);
    forall w, c | candidates[0].multi && w in winners && c in candidates && c.origin == w.origin && c.key == w.key
      ensures c in winners
    {
      assert OpinionOf(w) == OpinionOf(winners[0]);
    }
  }

  lemma WinnersDescend(candidates: seq<Row>, classifiers: map<string, Classifier>)
    requires WellFormed(candidates) && candidates != []
    ensures var winners := Selected(candidates, classifiers);
            forall i, j | 0 <= i < j < |winners| :: ByConfidence()(winners[i], winners[j])
  {
    WinnersAreOneGroup(candidates, classifiers);
    hide Keys, Best, Outranks, Filter, Less, Selected, ByConfidence, WellFormed;
  }

  lemma ConfidenceMeans()
    ensures forall a, b | ByConfidence()(a, b) ::
              || a.confidence > b.confidence
              || (a.confidence == b.confidence && !Less(b.value, a.value))
  {
    LessOrders();
  }

  /** A label of a classifier that may speak on the axis: its attempt is the classifier's
      newest, and the classifier is enabled, not in shadow, allowed the axis and sure enough. */
  ghost predicate MaySpeak(w: World, r: Row) {
    var latest, classifiers := Latest(w.attempts, SlugById(w.classifiers), w.version), BySlug(w.classifiers);
    exists slug: string, id: string ::
      && ':' !in slug && r.key == slug + ":" + id
      && slug in latest && latest[slug].id == id && slug in classifiers
      && classifiers[slug].enabled && !classifiers[slug].shadow
      && (classifiers[slug].allowed == {} || r.facet in classifiers[slug].allowed)
      && r.confidence >= classifiers[slug].minConfidence
  }

  lemma TrustedMaySpeak(w: World, r: Row)
    ensures Trusted(r, BySlug(w.classifiers), LatestIds(w)) <==> MaySpeak(w, r)
  {
    hide BySlug, SlugById, Latest, HasColon;
    HeadAndTail(r.key);
    var slug, id := Head(r.key), Tail(r.key);
    if MaySpeak(w, r) {
      var s: string, i: string :| ':' !in s && r.key == s + ":" + i;
      PartitionOfJoin(s, i);
    }
    forall s: string, i: string | ':' !in s && r.key == s + ":" + i
      ensures s == slug && i == id && HasColon(r.key)
    {
      PartitionOfJoin(s, i);
    }
  }

  /** An editor has decided about the facet of the version. */
  ghost predicate EditorDecided(w: World, axis: string) {
    exists d :: d in w.decisions && w.version == Some(d.version) && d.manual && d.facet == axis
  }

  /** Which labels an axis is chosen from: those of the version whose facet and value are
      enabled, no provenance, classifiers' only where they may speak; and where an editor
      has set the axis only what was stored with that, where one has released it nothing
      of an editor, and where an axis is pinned without a decision only an editor's. */
  lemma CandidatesExactly(w: World, manual: set<string>, axis: string, r: Row)
    ensures r in CandidatesOf(w, manual, axis) <==>
              && r in w.rows && r.facet == axis && w.version == Some(r.version) && r.facetEnabled && r.valueEnabled
              && r.origin != Provenance
              && (r.origin == FromClassifier || r.origin == FromShadow ==> MaySpeak(w, r))
              && var newest := Newest(w.decisions, w.version);
                 if axis in newest then
                   if newest[axis].action == Set then r.origin == FromEditor && r.key == newest[axis].id
                   else r.origin != FromEditor
                 else axis in manual && !EditorDecided(w, axis) ==> r.origin == FromEditor
  {
    hide BySlug, LatestIds, Newest, Filter;
    TrustedMaySpeak(w, r);
    OwnIn(w, axis);
    CandidatesAre(w, manual, axis);
    var own, newest := Own(w, axis), Newest(w.decisions, w.version);
    if axis in newest {
      FilterIn(SetBy(newest[axis].id), own);
      FilterIn(NotByEditor(), own);
    }
    FilterIn(ByEditor(), own);
    hide Own, CandidatesOf, Trusted, MaySpeak;
    assert axis in DecidedAxes(w.decisions, w.version) <==> EditorDecided(w, axis);
  }

  /** An axis is manual after a recomputation exactly if its newest decision is a set, or
      it was pinned and no editor has decided about it. */
  lemma ManualExactly(w: World, manual: set<string>, axis: string)
    ensures axis in OutcomeOf(w, manual).manual <==>
              || (axis in Newest(w.decisions, w.version) && Newest(w.decisions, w.version)[axis].action == Set)
              || (axis in manual && !EditorDecided(w, axis))
  {
    hide Newest, Won, Axes, Run, Ordered, LabelsOf;
    assert axis in DecidedAxes(w.decisions, w.version) <==> EditorDecided(w, axis);
  }

  lemma SelectedIsOneGroup(candidates: seq<Row>, classifiers: map<string, Classifier>)
    requires WellFormed(candidates) && candidates != []
    ensures OneGroup(Selected(candidates, classifiers), candidates, classifiers)
  {
    hide Selected, Best, Keys, Outranks, Filter, WellFormed, Sorted, ByConfidence;
    WinnersAreOneGroup(candidates, classifiers);
    var best := Best(Keys(candidates), classifiers);
    FilterIn(Same(best), candidates);
    if candidates[0].multi {
      SameElements(Selected(candidates, classifiers), Filter(Same(best), candidates));
    }
  }

  /** `winners` is all of the group no opinion outranks, or, on a single axis, its most
      confident label. */
  ghost predicate OneGroup(winners: seq<Row>, candidates: seq<Row>, classifiers: map<string, Classifier>) {
    && winners != [] && candidates != []
    && (forall r, c | r in winners && c in candidates :: !Outranks(OpinionOf(c), OpinionOf(r), classifiers))
    && (forall r, r' | r in winners && r' in winners :: OpinionOf(r) == OpinionOf(r'))
    && (forall r | r in winners :: r in candidates)
    && (if candidates[0].multi then
          forall c | c in candidates && OpinionOf(c) == OpinionOf(winners[0]) :: c in winners
        else
          && |winners| == 1
          && forall c | c in candidates && OpinionOf(c) == OpinionOf(winners[0]) :: ByConfidence()(winners[0], c))
  }
}
