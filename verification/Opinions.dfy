/** The opinions stored about a news item, and which of them win an axis. */
module Opinions {
  import opened Filtering
  import opened Options
  import opened Sorting
  import opened Texts

  datatype Origin = FromClassifier | FromShadow | FromParser | FromSource | FromEditor | Provenance | Unlisted(name: string)

  /** A stored label joined with its facet and value. */
  datatype Row = Row(
    version: int, facet: string, multi: bool, facetEnabled: bool, value: string, valueEnabled: bool,
    origin: Origin, key: string, confidence: real)

  /** A registered classifier; no allowed axes means all of them. */
  datatype Classifier = Classifier(
    id: int, slug: string, enabled: bool, shadow: bool, allowed: set<string>, minConfidence: real, priority: int)

  /** A processing attempt; ids are compared as their text. */
  datatype Attempt = Attempt(
    id: string, version: Option<int>, classifier: Option<int>, succeeded: bool, completed: Option<int>, started: int)

  datatype Opinion = Opinion(origin: Origin, key: string)

  function OpinionOf(r: Row): Opinion {
    Opinion(r.origin, r.key)
  }

  // ---- dictionaries filled by a loop ----

  function BySlug(classifiers: seq<Classifier>): map<string, Classifier> {
    if classifiers == [] then map[]
    else
      var last := classifiers[|classifiers| - 1];
      BySlug(classifiers[..|classifiers| - 1])[last.slug := last]
  }

  function SlugById(classifiers: seq<Classifier>): map<int, string> {
    if classifiers == [] then map[]
    else
      var last := classifiers[|classifiers| - 1];
      SlugById(classifiers[..|classifiers| - 1])[last.id := last.slug]
  }

  /** `setdefault` down a list: the first element of every key. */
  function FirstPer<T>(key: T -> Option<string>, xs: seq<T>): map<string, T> {
    if xs == [] then map[]
    else
      var n := |xs| - 1;
      var before := FirstPer(key, xs[..n]);
      match key(xs[n])
      case None => before
      case Some(k) => if k in before then before else before[k := xs[n]]
  }

  lemma {:induction false} FirstPerIsFirst<T>(key: T -> Option<string>, xs: seq<T>, k: string)
    ensures k in FirstPer(key, xs) ==>
              exists i :: 0 <= i < |xs| && xs[i] == FirstPer(key, xs)[k] && key(xs[i]) == Some(k)
                          && forall j | 0 <= j < i :: key(xs[j]) != Some(k)
    ensures k !in FirstPer(key, xs) ==> forall x | x in xs :: key(x) != Some(k)
  {
    if xs != [] {
      var n := |xs| - 1;
      FirstPerIsFirst(key, xs[..n], k);
      if k in FirstPer(key, xs[..n]) {
        var i :| 0 <= i < n && xs[..n][i] == FirstPer(key, xs[..n])[k] && key(xs[..n][i]) == Some(k)
                 && forall j | 0 <= j < i :: key(xs[..n][j]) != Some(k);
        assert forall j | 0 <= j < i :: xs[j] == xs[..n][j];
        assert xs[i] == FirstPer(key, xs)[k];
      } else {
        forall j | 0 <= j < n
          ensures key(xs[j]) != Some(k)
        {
          assert xs[j] in xs[..n];
        }
      }
    }
  }

  lemma {:induction false} BySlugHolds(classifiers: seq<Classifier>, slug: string)
    requires forall c, c' | c in classifiers && c' in classifiers && c.slug == c'.slug :: c == c'
    ensures slug in BySlug(classifiers) <==> exists c :: c in classifiers && c.slug == slug
    ensures slug in BySlug(classifiers) ==>
              BySlug(classifiers)[slug] in classifiers && BySlug(classifiers)[slug].slug == slug
  {
    if classifiers != [] {
      var n := |classifiers| - 1;
      assert forall c | c in classifiers[..n] :: c in classifiers;
      BySlugHolds(classifiers[..n], slug);
      assert classifiers == classifiers[..n] + [classifiers[n]];
      if slug == classifiers[n].slug {
        assert classifiers[n] in classifiers;
      }
    }
  }

  lemma {:induction false} SlugByIdHolds(classifiers: seq<Classifier>, id: int)
    requires forall c, c' | c in classifiers && c' in classifiers && c.id == c'.id :: c == c'
    ensures id in SlugById(classifiers) <==> exists c :: c in classifiers && c.id == id
    ensures id in SlugById(classifiers) ==>
              exists c :: c in classifiers && c.id == id && c.slug == SlugById(classifiers)[id]
  {
    if classifiers != [] {
      var n := |classifiers| - 1;
      assert forall c | c in classifiers[..n] :: c in classifiers;
      SlugByIdHolds(classifiers[..n], id);
      assert classifiers == classifiers[..n] + [classifiers[n]];
      if id == classifiers[n].id {
        assert classifiers[n] in classifiers;
      }
    }
  }

  /** Slugs and ids of classifiers are unique. */
  ghost predicate UniqueClassifiers(classifiers: seq<Classifier>) {
    forall c, c' | c in classifiers && c' in classifiers && (c.slug == c'.slug || c.id == c'.id) :: c == c'
  }

  lemma ClassifiersInAnyOrder(classifiers: seq<Classifier>, classifiers': seq<Classifier>)
    requires UniqueClassifiers(classifiers) && multiset(classifiers) == multiset(classifiers')
    ensures BySlug(classifiers) == BySlug(classifiers') && SlugById(classifiers) == SlugById(classifiers')
  {
    SameElements(classifiers, classifiers');
    forall slug
      ensures slug in BySlug(classifiers) <==> slug in BySlug(classifiers')
      ensures slug in BySlug(classifiers) ==> BySlug(classifiers)[slug] == BySlug(classifiers')[slug]
    {
      BySlugHolds(classifiers, slug);
      BySlugHolds(classifiers', slug);
    }
    forall id
      ensures id in SlugById(classifiers) <==> id in SlugById(classifiers')
      ensures id in SlugById(classifiers) ==> SlugById(classifiers)[id] == SlugById(classifiers')[id]
    {
      SlugByIdHolds(classifiers, id);
      SlugByIdHolds(classifiers', id);
    }
  }

  // ---- the newest successful attempt of every classifier ----

  /** Newest first: by completion with none last, then by start, then by id. */
  function ByRecency(): (Attempt, Attempt) -> bool {
    (a: Attempt, b: Attempt) => !Newer(b, a)
  }

  predicate Newer(a: Attempt, b: Attempt) {
    var ca, cb := if a.completed.Some? then (1, a.completed.value) else (0, 0),
                  if b.completed.Some? then (1, b.completed.value) else (0, 0);
    || ca.0 > cb.0 || (ca.0 == cb.0 && ca.1 > cb.1)
    || (ca == cb && (a.started > b.started || (a.started == b.started && Less(b.id, a.id))))
  }

  function Counted(version: Option<int>): Attempt -> bool {
    (a: Attempt) => a.version == version && a.classifier.Some? && a.succeeded
  }

  function SlugOf(slugs: map<int, string>): Attempt -> Option<string> {
    (a: Attempt) =>
      if a.classifier.Some? && a.classifier.value in slugs then Some(slugs[a.classifier.value]) else None
  }

  function Latest(attempts: seq<Attempt>, slugs: map<int, string>, version: Option<int>): map<string, Attempt> {
    FirstPer(SlugOf(slugs), Sort(ByRecency(), Filter(Counted(version), attempts)))
  }

  method LatestAttempts(attempts: seq<Attempt>, slugs: map<int, string>, version: Option<int>)
    returns (latest: map<string, string>)
    ensures latest == map slug | slug in Latest(attempts, slugs, version) :: Latest(attempts, slugs, version)[slug].id
  {
    hide Sort, Filter, ByRecency, Counted;
    latest := map[];
    var sorted := Sort(ByRecency(), Filter(Counted(version), attempts));
    for n := 0 to |sorted|
      invariant latest == map slug | slug in FirstPer(SlugOf(slugs), sorted[..n]) ::
                            FirstPer(SlugOf(slugs), sorted[..n])[slug].id
    {
      var attempt := sorted[n];
      assert sorted[..n + 1][..n] == sorted[..n];
      var slug := SlugOf(slugs)(attempt);
      if slug.Some? && slug.value !in latest {
        latest := latest[slug.value := attempt.id];
      }
    }
    assert sorted[..|sorted|] == sorted;
  }

  ghost predicate UniqueAttempts(attempts: seq<Attempt>) {
    forall a, b | a in attempts && b in attempts && a.id == b.id :: a == b
  }

  lemma RecencyOrders(attempts: seq<Attempt>)
    ensures Orders(ByRecency(), attempts)
    ensures forall a, b | ByRecency()(a, b) && ByRecency()(b, a) :: a.id == b.id
  {
    LessOrders();
  }

  /** The attempt found for a slug is no older than any other that counts. */
  lemma LatestIsNewest(attempts: seq<Attempt>, slugs: map<int, string>, version: Option<int>, slug: string)
    ensures var latest := Latest(attempts, slugs, version);
            if slug in latest then
              && latest[slug] in attempts && Counted(version)(latest[slug]) && SlugOf(slugs)(latest[slug]) == Some(slug)
              && forall a | a in attempts && Counted(version)(a) && SlugOf(slugs)(a) == Some(slug) :: !Newer(a, latest[slug])
            else forall a | a in attempts && Counted(version)(a) :: SlugOf(slugs)(a) != Some(slug)
  {
    var counted := Filter(Counted(version), attempts);
    var sorted := Sort(ByRecency(), counted);
    FilterIn(Counted(version), attempts);
    SortPermutes(ByRecency(), counted);
    SameElements(sorted, counted);
    RecencyOrders(counted);
    SortSorts(ByRecency(), counted);
    FirstPerIsFirst(SlugOf(slugs), sorted, slug);
    var latest := FirstPer(SlugOf(slugs), sorted);
    if slug in latest {
      var i :| 0 <= i < |sorted| && sorted[i] == latest[slug] && SlugOf(slugs)(sorted[i]) == Some(slug)
               && forall j | 0 <= j < i :: SlugOf(slugs)(sorted[j]) != Some(slug);
      forall a | a in attempts && Counted(version)(a) && SlugOf(slugs)(a) == Some(slug)
        ensures !Newer(a, latest[slug])
      {
        assert a in sorted;
        var j :| 0 <= j < |sorted| && sorted[j] == a;
        assert i <= j;
        if i < j {
          assert ByRecency()(sorted[i], sorted[j]);
        } else {
          LessTrichotomy(a.id, a.id);
        }
      }
    }
  }

  /** The same by the columns: it succeeded on the version for a classifier of the slug,
      and no other such attempt was completed later, or as late and started later, or has
      the larger id besides; one without a completion time counts as earliest. */
  lemma LatestByTime(attempts: seq<Attempt>, slugs: map<int, string>, version: Option<int>, slug: string)
    ensures slug in Latest(attempts, slugs, version) <==>
              exists a :: a in attempts && CountsFor(a, slugs, version, slug)
    ensures slug in Latest(attempts, slugs, version) ==>
              var latest := Latest(attempts, slugs, version)[slug];
              && latest in attempts && CountsFor(latest, slugs, version, slug)
              && forall a | a in attempts && CountsFor(a, slugs, version, slug) ::
                   && (a.completed.Some? ==> latest.completed.Some? && a.completed.value <= latest.completed.value)
                   && (a.completed == latest.completed ==> a.started <= latest.started)
                   && (a.completed == latest.completed && a.started == latest.started ==> !Less(latest.id, a.id))
  {
    LatestIsNewest(attempts, slugs, version, slug);
    hide Less, Latest;
  }

  predicate CountsFor(a: Attempt, slugs: map<int, string>, version: Option<int>, slug: string) {
    && a.succeeded && a.version == version
    && a.classifier.Some? && a.classifier.value in slugs && slugs[a.classifier.value] == slug
  }

  lemma AttemptsInAnyOrder(attempts: seq<Attempt>, attempts': seq<Attempt>, slugs: map<int, string>, version: Option<int>)
    requires UniqueAttempts(attempts) && multiset(attempts) == multiset(attempts')
    ensures Latest(attempts, slugs, version) == Latest(attempts', slugs, version)
  {
    var counted := Filter(Counted(version), attempts);
    FilterPermutes(Counted(version), attempts, attempts');
    FilterIn(Counted(version), attempts);
    RecencyOrders(counted);
    SortForgetsOrder(ByRecency(), counted, Filter(Counted(version), attempts'));
  }

  // ---- the opinion group that wins an axis ----

  function OriginPriority(origin: Origin): int {
    match origin
    case FromClassifier => 100
    case FromShadow => 100
    case FromParser => 200
    case FromSource => 300
    case FromEditor => 1000
    case _ => 0
  }

  function ClassifierPriority(key: string, classifiers: map<string, Classifier>): int {
    if Head(key) in classifiers then classifiers[Head(key)].priority else 0
  }

  /** `opinion_priority(a) > opinion_priority(b)`. */
  predicate Outranks(a: Opinion, b: Opinion, classifiers: map<string, Classifier>) {
    var oa, ob := OriginPriority(a.origin), OriginPriority(b.origin);
    var ca, cb := ClassifierPriority(a.key, classifiers), ClassifierPriority(b.key, classifiers);
    oa > ob || (oa == ob && (ca > cb || (ca == cb && Less(b.key, a.key))))
  }

  /** The keys of the opinion groups, in the order they first appear. */
  function Keys(candidates: seq<Row>): seq<Opinion> {
    if candidates == [] then []
    else
      var n := |candidates| - 1;
      var before, key := Keys(candidates[..n]), OpinionOf(candidates[n]);
      if key in before then before else before + [key]
  }

  /** `max` returns the first of the maximal keys. */
  function Best(keys: seq<Opinion>, classifiers: map<string, Classifier>): Opinion
    requires keys != []
  {
    if |keys| == 1 then keys[0]
    else
      var n := |keys| - 1;
      var before := Best(keys[..n], classifiers);
      if Outranks(keys[n], before, classifiers) then keys[n] else before
  }

  function Same(key: Opinion): Row -> bool {
    (r: Row) => OpinionOf(r) == key
  }

  function ByConfidence(): (Row, Row) -> bool {
    (a: Row, b: Row) => a.confidence > b.confidence || (a.confidence == b.confidence && Leq(a.value, b.value))
  }

  /** The labels that become effective: the winning group by confidence and value,
      only the first on an axis of one value. */
  function Selected(candidates: seq<Row>, classifiers: map<string, Classifier>): seq<Row> {
    if candidates == [] then []
    else
      KeysOf(candidates);
      Cut(Filter(Same(Best(Keys(candidates), classifiers)), candidates))
  }

  function Cut(winners: seq<Row>): seq<Row> {
    var sorted := Sort(ByConfidence(), winners);
    if winners == [] || winners[0].multi then sorted else sorted[..1]
  }

  lemma {:induction false} KeysOf(candidates: seq<Row>)
    ensures forall k :: k in Keys(candidates) <==> exists r :: r in candidates && OpinionOf(r) == k
    ensures candidates != [] ==> Keys(candidates) != []
  {
    if candidates != [] {
      var n := |candidates| - 1;
      KeysOf(candidates[..n]);
      assert candidates == candidates[..n] + [candidates[n]];
      forall k
        ensures k in Keys(candidates) <==> exists r :: r in candidates && OpinionOf(r) == k
      {
        if k == OpinionOf(candidates[n]) {
          assert candidates[n] in candidates;
        }
      }
    }
  }

  lemma OutranksOrders(classifiers: map<string, Classifier>)
    ensures forall a, b :: !(Outranks(a, b, classifiers) && Outranks(b, a, classifiers))
    ensures forall a, b, c | Outranks(a, b, classifiers) && !Outranks(c, b, classifiers) :: !Outranks(c, a, classifiers)
    ensures forall a, b :: !Outranks(a, b, classifiers) && !Outranks(b, a, classifiers) ==>
              a.key == b.key && OriginPriority(a.origin) == OriginPriority(b.origin)
  {
    LessOrders();
  }

  lemma {:induction false} BestIsMaximal(keys: seq<Opinion>, classifiers: map<string, Classifier>)
    requires keys != []
    ensures Best(keys, classifiers) in keys
    ensures forall k | k in keys :: !Outranks(k, Best(keys, classifiers), classifiers)
  {
    OutranksOrders(classifiers);
    if |keys| > 1 {
      var n := |keys| - 1;
      BestIsMaximal(keys[..n], classifiers);
      assert keys == keys[..n] + [keys[n]];
    }
  }

  /** No other opinion ties with the winning one, so that the order of rows cannot matter. */
  ghost predicate Decided(candidates: seq<Row>, classifiers: map<string, Classifier>) {
    forall a, b |
      && a in candidates && b in candidates
      && (forall c | c in candidates :: !Outranks(OpinionOf(c), OpinionOf(a), classifiers))
      && (forall c | c in candidates :: !Outranks(OpinionOf(c), OpinionOf(b), classifiers)) ::
      OpinionOf(a) == OpinionOf(b)
  }

  /** One opinion names a value once, and all rows of the axis agree on its kind. */
  ghost predicate WellFormed(candidates: seq<Row>) {
    && (forall a, b | a in candidates && b in candidates && OpinionOf(a) == OpinionOf(b) && a.value == b.value :: a == b)
    && (forall a, b | a in candidates && b in candidates :: a.multi == b.multi)
  }

  lemma WinnerIs(candidates: seq<Row>, classifiers: map<string, Classifier>)
    requires candidates != []
    ensures Keys(candidates) != []
    ensures var best := Best(Keys(candidates), classifiers);
            && (exists r :: r in candidates && OpinionOf(r) == best)
            && (forall r | r in candidates :: !Outranks(OpinionOf(r), best, classifiers))
            && Filter(Same(best), candidates) != []
  {
    KeysOf(candidates);
    BestIsMaximal(Keys(candidates), classifiers);
    var best := Best(Keys(candidates), classifiers);
    var r :| r in candidates && OpinionOf(r) == best;
    FilterIn(Same(best), candidates);
    assert r in Filter(Same(best), candidates);
  }

  lemma ConfidenceOrders(rows: seq<Row>)
    ensures Orders(ByConfidence(), rows)
    ensures forall a, b | ByConfidence()(a, b) && ByConfidence()(b, a) :: a.value == b.value
  {
    LessOrders();
  }

  lemma CutSorts(winners: seq<Row>)
    requires winners != []
    ensures Cut(winners) != [] && Sorted(ByConfidence(), Cut(winners)) && forall r | r in Cut(winners) :: r in winners
    ensures winners[0].multi ==> multiset(Cut(winners)) == multiset(winners)
    ensures !winners[0].multi ==> |Cut(winners)| == 1 && forall r | r in winners :: ByConfidence()(Cut(winners)[0], r)
  {
    ConfidenceOrders(winners);
    SortPermutes(ByConfidence(), winners);
    SortSorts(ByConfidence(), winners);
    var sorted := Sort(ByConfidence(), winners);
    SameElements(sorted, winners);
    forall r | r in winners
      ensures ByConfidence()(sorted[0], r)
    {
      var i :| 0 <= i < |sorted| && sorted[i] == r;
      assert i > 0 ==> ByConfidence()(sorted[0], sorted[i]);
    }
  }

  /** Every effective label comes from the single maximal opinion group: a multi axis
      gets the whole group, by confidence and value, a single one its first label. */
  lemma WinnersAreOneGroup(candidates: seq<Row>, classifiers: map<string, Classifier>)
    requires WellFormed(candidates) && candidates != []
    ensures Keys(candidates) != []
    ensures var best := Best(Keys(candidates), classifiers);
            var winners := Selected(candidates, classifiers);
            && winners != [] && Sorted(ByConfidence(), winners)
            && (forall r | r in candidates :: !Outranks(OpinionOf(r), best, classifiers))
            && (forall r | r in winners :: r in candidates && OpinionOf(r) == best)
            && (candidates[0].multi ==> multiset(winners) == multiset(Filter(Same(best), candidates)))
            && (!candidates[0].multi ==>
                  && |winners| == 1
                  && forall r | r in candidates && OpinionOf(r) == best :: ByConfidence()(winners[0], r))
  {
    hide Keys, Best, Outranks, Cut, Filter, ByConfidence, Sorted;
    WinnerIs(candidates, classifiers);
    var best := Best(Keys(candidates), classifiers);
    var group := Filter(Same(best), candidates);
    FilterIn(Same(best), candidates);
    assert group[0] in candidates && candidates[0] in candidates;
    CutSorts(group);
  }

  predicate SomeFrom(candidates: seq<Row>, origin: Origin) {
    exists c :: c in candidates && c.origin == origin
  }

  predicate AllFrom(winners: seq<Row>, origins: set<Origin>) {
    forall w | w in winners :: w.origin in origins
  }

  /** A winner is a candidate no candidate outranks. */
  lemma WinnersUnbeaten(candidates: seq<Row>, classifiers: map<string, Classifier>)
    requires candidates != []
    ensures Selected(candidates, classifiers) != []
    ensures forall w | w in Selected(candidates, classifiers) ::
              w in candidates && forall c | c in candidates :: !Outranks(OpinionOf(c), OpinionOf(w), classifiers)
  {
    hide Keys, Best, Cut, Filter, Outranks;
    WinnerIs(candidates, classifiers);
    var best := Best(Keys(candidates), classifiers);
    CutSorts(Filter(Same(best), candidates));
    FilterIn(Same(best), candidates);
  }

  /** Not even by its origin. */
  lemma OriginUnbeaten(c: Opinion, w: Opinion, classifiers: map<string, Classifier>)
    requires !Outranks(c, w, classifiers)
    ensures c.origin == FromEditor ==> w.origin == FromEditor
    ensures c.origin == FromSource ==> w.origin == FromEditor || w.origin == FromSource
    ensures c.origin == FromParser ==> w.origin == FromEditor || w.origin == FromSource || w.origin == FromParser
    ensures c.origin == FromClassifier || c.origin == FromShadow ==>
              || w.origin == FromEditor || w.origin == FromSource || w.origin == FromParser
              || w.origin == FromClassifier || w.origin == FromShadow
  {
    hide ClassifierPriority, Less;
  }

  /** Editors come before sources, sources before parsers, and parsers before classifiers,
      in shadow or not. */
  lemma WinnersByOrigin(candidates: seq<Row>, classifiers: map<string, Classifier>)
    requires candidates != []
    ensures var winners := Selected(candidates, classifiers);
            if SomeFrom(candidates, FromEditor) then AllFrom(winners, {FromEditor})
            else if SomeFrom(candidates, FromSource) then AllFrom(winners, {FromSource})
            else if SomeFrom(candidates, FromParser) then AllFrom(winners, {FromParser})
            else if SomeFrom(candidates, FromClassifier) || SomeFrom(candidates, FromShadow) then
              AllFrom(winners, {FromClassifier, FromShadow})
            else true
  {
    WinnersUnbeaten(candidates, classifiers);
    hide Selected, Outranks;
    forall w, c | w in Selected(candidates, classifiers) && c in candidates
      ensures c.origin == FromEditor ==> w.origin == FromEditor
      ensures c.origin == FromSource ==> w.origin == FromEditor || w.origin == FromSource
      ensures c.origin == FromParser ==> w.origin == FromEditor || w.origin == FromSource || w.origin == FromParser
      ensures c.origin == FromClassifier || c.origin == FromShadow ==>
                || w.origin == FromEditor || w.origin == FromSource || w.origin == FromParser
                || w.origin == FromClassifier || w.origin == FromShadow
    {
      OriginUnbeaten(OpinionOf(c), OpinionOf(w), classifiers);
    }
  }

  /** Among labels of the same standing the classifier of higher priority wins, and then
      the larger key; a key that names no classifier counts as priority 0. */
  lemma WinnersByPriority(candidates: seq<Row>, classifiers: map<string, Classifier>, w: Row, c: Row)
    requires w in Selected(candidates, classifiers) && c in candidates
    requires w.origin == c.origin || (w.origin == FromClassifier && c.origin == FromShadow)
          || (w.origin == FromShadow && c.origin == FromClassifier)
    ensures var pw := if Head(w.key) in classifiers then classifiers[Head(w.key)].priority else 0;
            var pc := if Head(c.key) in classifiers then classifiers[Head(c.key)].priority else 0;
            pc < pw || (pc == pw && (c.key == w.key || Less(c.key, w.key)))
  {
    WinnersUnbeaten(candidates, classifiers);
    hide Selected, Outranks, Less, Head;
    PriorityUnbeaten(OpinionOf(c), OpinionOf(w), classifiers);
  }

  lemma PriorityUnbeaten(c: Opinion, w: Opinion, classifiers: map<string, Classifier>)
    requires !Outranks(c, w, classifiers)
    requires w.origin == c.origin || (w.origin == FromClassifier && c.origin == FromShadow)
          || (w.origin == FromShadow && c.origin == FromClassifier)
    ensures var pw := if Head(w.key) in classifiers then classifiers[Head(w.key)].priority else 0;
            var pc := if Head(c.key) in classifiers then classifiers[Head(c.key)].priority else 0;
            pc < pw || (pc == pw && (c.key == w.key || Less(c.key, w.key)))
  {
    LessTrichotomy(w.key, c.key);
    hide Less, Head;
  }

  lemma BestInAnyOrder(candidates: seq<Row>, candidates': seq<Row>, classifiers: map<string, Classifier>)
    requires multiset(candidates) == multiset(candidates') && candidates != [] && candidates' != []
    requires Decided(candidates, classifiers)
    ensures Keys(candidates) != [] && Keys(candidates') != []
    ensures Best(Keys(candidates), classifiers) == Best(Keys(candidates'), classifiers)
  {
    hide Keys, Best, Outranks, Filter;
    SameElements(candidates, candidates');
    WinnerIs(candidates, classifiers);
    WinnerIs(candidates', classifiers);
    var a :| a in candidates && OpinionOf(a) == Best(Keys(candidates), classifiers);
    var b :| b in candidates' && OpinionOf(b) == Best(Keys(candidates'), classifiers);
    assert OpinionOf(a) == OpinionOf(b);
  }

  lemma CutInAnyOrder(winners: seq<Row>, winners': seq<Row>)
    requires multiset(winners) == multiset(winners') && winners != [] && winners' != []
    requires forall a, b | a in winners && b in winners && a.value == b.value :: a == b
    requires forall a, b | a in winners && b in winners :: a.multi == b.multi
    ensures Cut(winners) == Cut(winners')
  {
    hide Sort;
    SameElements(winners, winners');
    assert winners[0] in winners && winners'[0] in winners;
    ConfidenceOrders(winners);
    SortForgetsOrder(ByConfidence(), winners, winners');
  }

  /** Without a tie for the first place, the order of the rows is forgotten. */
  lemma SelectedInAnyOrder(candidates: seq<Row>, candidates': seq<Row>, classifiers: map<string, Classifier>)
    requires multiset(candidates) == multiset(candidates')
    requires WellFormed(candidates) && Decided(candidates, classifiers)
    ensures Selected(candidates, classifiers) == Selected(candidates', classifiers)
  {
    hide Keys, Best, Cut, Filter, Decided, Outranks;
    assert |candidates| == |multiset(candidates)| == |multiset(candidates')| == |candidates'|;
    if candidates != [] {
      BestInAnyOrder(candidates, candidates', classifiers);
      WinnerIs(candidates, classifiers);
      WinnerIs(candidates', classifiers);
      var best := Best(Keys(candidates), classifiers);
      FilterPermutes(Same(best), candidates, candidates');
      FilterIn(Same(best), candidates);
      CutInAnyOrder(Filter(Same(best), candidates), Filter(Same(best), candidates'));
    }
  }

  lemma {:induction false} FirstKey(candidates: seq<Row>)
    requires candidates != []
    ensures Keys(candidates) != [] && Keys(candidates)[0] == OpinionOf(candidates[0])
  {
    if |candidates| > 1 {
      FirstKey(candidates[..|candidates| - 1]);
    } else {
      assert candidates[..0] == [];
    }
  }

  lemma {:induction false} BestStays(keys: seq<Opinion>, classifiers: map<string, Classifier>)
    requires keys != [] && forall k | k in keys :: !Outranks(k, keys[0], classifiers)
    ensures Best(keys, classifiers) == keys[0]
  {
    if |keys| > 1 {
      BestStays(keys[..|keys| - 1], classifiers);
    }
  }
}
