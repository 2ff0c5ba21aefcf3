/** How the effective labels, manual axes and scores of a news item are recomputed
    from everything stored about it. */
module Materializer {
  import opened Filtering
  import opened Opinions
  import opened Options
  import opened Scoring
  import opened Sorting
  import opened Texts

  datatype Action = Set | Release

  /** An editor's decision about one facet; `manual` is false for provenance. */
  datatype Decision = Decision(
    id: string, version: int, facet: string, facetEnabled: bool, revision: nat, manual: bool, action: Action)

  /** Everything a recomputation reads, in whatever order the queries return it. */
  datatype World = World(
    version: Option<int>, rows: seq<Row>, classifiers: seq<Classifier>, attempts: seq<Attempt>,
    decisions: seq<Decision>, rules: seq<Rule>)

  /** A row of `news_effective_labels`. */
  datatype Effective = Effective(facet: string, value: string, origin: Origin, confidence: real)

  datatype Outcome = Outcome(manual: set<string>, winners: map<string, seq<Row>>, scores: Scores)

  // ---- decisions ----

  function ByRevision(): (Decision, Decision) -> bool {
    (a: Decision, b: Decision) => a.revision > b.revision || (a.revision == b.revision && Leq(b.id, a.id))
  }

  function Shown(version: Option<int>): Decision -> bool {
    (d: Decision) => version == Some(d.version) && d.manual && d.facetEnabled
  }

  function FacetOf(): Decision -> Option<string> {
    (d: Decision) => Some(d.facet)
  }

  /** The newest manual decision of every enabled facet. */
  function Newest(decisions: seq<Decision>, version: Option<int>): map<string, Decision> {
    FirstPer(FacetOf(), Sort(ByRevision(), Filter(Shown(version), decisions)))
  }

  /** The facets, enabled or not, an editor has decided about. */
  function DecidedAxes(decisions: seq<Decision>, version: Option<int>): set<string> {
    set d | d in decisions && version == Some(d.version) && d.manual :: d.facet
  }

  method NewestDecisions(decisions: seq<Decision>, version: Option<int>) returns (newest: map<string, Decision>)
    ensures newest == Newest(decisions, version)
  {
    hide Sort, Filter, ByRevision;
    newest := map[];
    var sorted := Sort(ByRevision(), Filter(Shown(version), decisions));
    for n := 0 to |sorted|
      invariant newest == FirstPer(FacetOf(), sorted[..n])
    {
      assert sorted[..n + 1][..n] == sorted[..n];
      if sorted[n].facet !in newest {
        newest := newest[sorted[n].facet := sorted[n]];
      }
    }
    assert sorted[..|sorted|] == sorted;
  }

  // ---- the rows that count ----

  /** A classifier's label counts when its attempt is that classifier's newest, the
      classifier is enabled and not in shadow, and the axis and confidence suit it. */
  predicate Trusted(r: Row, classifiers: map<string, Classifier>, latest: map<string, string>) {
    var slug := Head(r.key);
    && HasColon(r.key)
    && slug in latest && latest[slug] == Tail(r.key)
    && slug in classifiers
    && classifiers[slug].enabled && !classifiers[slug].shadow
    && (classifiers[slug].allowed == {} || r.facet in classifiers[slug].allowed)
    && classifiers[slug].minConfidence <= r.confidence
  }

  predicate Loaded(r: Row, version: Option<int>) {
    version == Some(r.version) && r.facetEnabled && r.valueEnabled
  }

  function Counts(version: Option<int>, classifiers: map<string, Classifier>, latest: map<string, string>): Row -> bool {
    (r: Row) =>
      && Loaded(r, version)
      && r.origin != Provenance
      && (r.origin == FromClassifier || r.origin == FromShadow ==> Trusted(r, classifiers, latest))
  }

  function OnAxis(axis: string): Row -> bool {
    (r: Row) => r.facet == axis
  }

  function SetBy(decision: string): Row -> bool {
    (r: Row) => r.origin == FromEditor && r.key == decision
  }

  function ByEditor(): Row -> bool {
    (r: Row) => r.origin == FromEditor
  }

  function NotByEditor(): Row -> bool {
    (r: Row) => r.origin != FromEditor
  }

  /** The candidates of an axis: a set decision leaves only the rows stored with it, a
      release only those no editor stored, a legacy pin only those an editor stored. */
  function Pool(own: seq<Row>, newest: map<string, Decision>, legacy: set<string>, axis: string): seq<Row> {
    if axis in newest && newest[axis].action == Set then Filter(SetBy(newest[axis].id), own)
    else if axis in newest then Filter(NotByEditor(), own)
    else if axis in legacy then Filter(ByEditor(), own)
    else own
  }

  // ---- the outcome ----

  function LatestIds(w: World): map<string, string> {
    var latest := Latest(w.attempts, SlugById(w.classifiers), w.version);
    map slug | slug in latest :: latest[slug].id
  }

  /** The counted rows of one axis. */
  function Own(w: World, axis: string): seq<Row> {
    Filter(OnAxis(axis), Filter(Counts(w.version, BySlug(w.classifiers), LatestIds(w)), w.rows))
  }

  function Legacy(w: World, manual: set<string>): set<string> {
    manual - DecidedAxes(w.decisions, w.version)
  }

  function Active(w: World, manual: set<string>): set<string> {
    var newest := Newest(w.decisions, w.version);
    Legacy(w, manual) + set axis | axis in newest && newest[axis].action == Set
  }

  function CandidatesOf(w: World, manual: set<string>, axis: string): seq<Row> {
    Pool(Own(w, axis), Newest(w.decisions, w.version), Legacy(w, manual), axis)
  }

  function WinnersOf(w: World, manual: set<string>, axis: string): seq<Row> {
    Selected(CandidatesOf(w, manual, axis), BySlug(w.classifiers))
  }

  function Axes(w: World, manual: set<string>): set<string> {
    (set r | r in Filter(Counts(w.version, BySlug(w.classifiers), LatestIds(w)), w.rows) :: r.facet) + Active(w, manual)
  }

  function Slugs(winners: seq<Row>): seq<string> {
    seq(|winners|, i requires 0 <= i < |winners| => winners[i].value)
  }

  function Won(w: World, manual: set<string>, axes: set<string>): map<string, seq<Row>> {
    map axis | axis in axes && CandidatesOf(w, manual, axis) != [] :: WinnersOf(w, manual, axis)
  }

  function LabelsOf(winners: map<string, seq<Row>>): Labels {
    map axis | axis in winners :: Slugs(winners[axis])
  }

  function EffectiveOf(winners: map<string, seq<Row>>): set<Effective> {
    set axis, r | axis in winners && r in winners[axis] :: Effective(r.facet, r.value, r.origin, r.confidence)
  }

  function OutcomeOf(w: World, manual: set<string>): Outcome {
    var winners := Won(w, manual, Axes(w, manual));
    Outcome(Active(w, manual), winners, Run(LabelsOf(winners), Ordered(w.rules), ZERO))
  }

  // ---- the recomputation ----

  /** The dictionary of opinion groups, and its keys in the order they came. */
  ghost predicate OpinionGroups(groups: map<Opinion, seq<Row>>, keys: seq<Opinion>, candidates: seq<Row>) {
    && keys == Keys(candidates)
    && (forall k :: k in keys <==> k in groups)
    && (forall k | k in groups :: groups[k] == Filter(Same(k), candidates))
  }

  lemma OpinionGroupsMore(groups: map<Opinion, seq<Row>>, keys: seq<Opinion>, candidates: seq<Row>, entry: Row)
    requires OpinionGroups(groups, keys, candidates)
    ensures var k := OpinionOf(entry);
            var group := if k in groups then groups[k] else [];
            OpinionGroups(groups[k := group + [entry]], if k in groups then keys else keys + [k], candidates + [entry])
  {
    hide Filter;
    assert (candidates + [entry])[..|candidates|] == candidates;
    var key := OpinionOf(entry);
    forall k | k in groups || k == key
      ensures Filter(Same(k), candidates + [entry])
           == (if k in groups then groups[k] else []) + if k == key then [entry] else []
    {
      FilterSnoc(Same(k), candidates, entry);
      if k !in groups {
        KeysOf(candidates);
        FilterNone(Same(k), candidates);
      }
    }
  }

  lemma NoGroups()
    ensures OpinionGroups(map[], [], [])
  {
  }

  method GroupByOpinion(candidates: seq<Row>) returns (groups: map<Opinion, seq<Row>>, keys: seq<Opinion>)
    ensures OpinionGroups(groups, keys, candidates)
  {
    hide OpinionGroups, OpinionOf;
    groups, keys := map[], [];
    NoGroups();
    for n := 0 to |candidates|
      invariant OpinionGroups(groups, keys, candidates[..n])
    {
      var entry := candidates[n];
      var key := OpinionOf(entry);
      OpinionGroupsMore(groups, keys, candidates[..n], entry);
      assert candidates[..n + 1] == candidates[..n] + [entry];
      var group := if key in groups then groups[key] else [];
      keys := if key in groups then keys else keys + [key];
      groups := groups[key := group + [entry]];
    }
    assert candidates[..|candidates|] == candidates;
  }

  method FindBest(keys: seq<Opinion>, classifiers: map<string, Classifier>) returns (best: Opinion)
    requires keys != []
    ensures best == Best(keys, classifiers)
  {
    best := keys[0];
    for n := 1 to |keys|
      invariant best == Best(keys[..n], classifiers)
    {
      hide Outranks;
      assert keys[..n + 1][..n] == keys[..n];
      if Outranks(keys[n], best, classifiers) {
        best := keys[n];
      }
    }
    assert keys[..|keys|] == keys;
  }

  /** The opinion group that wins, found with a dictionary of groups. */
  method SelectWinners(candidates: seq<Row>, classifiers: map<string, Classifier>) returns (winners: seq<Row>)
    requires candidates != []
    ensures winners == Selected(candidates, classifiers)
  {
    hide Keys, Best, Filter, Sort;
    var groups, keys := GroupByOpinion(candidates);
    WinnerIs(candidates, classifiers);
    BestIsMaximal(keys, classifiers);
    var best := FindBest(keys, classifiers);
    winners := groups[best];
    var multi := winners[0].multi;
    winners := Sort(ByConfidence(), winners);
    if !multi {
      winners := winners[..1];
    }
  }

  /** Each list of the dictionary holds the counted rows of its axis, in order. */
  ghost predicate Grouped(grouped: map<string, seq<Row>>, counted: seq<Row>) {
    && (forall axis | axis in grouped :: grouped[axis] == Filter(OnAxis(axis), counted))
    && (forall axis :: axis in grouped <==> exists r :: r in counted && r.facet == axis)
  }

  lemma GroupedMore(grouped: map<string, seq<Row>>, counted: seq<Row>, r: Row)
    requires Grouped(grouped, counted)
    ensures var before := if r.facet in grouped then grouped[r.facet] else [];
            Grouped(grouped[r.facet := before + [r]], counted + [r])
  {
    var before := if r.facet in grouped then grouped[r.facet] else [];
    var after := grouped[r.facet := before + [r]];
    forall axis | axis in after
      ensures after[axis] == Filter(OnAxis(axis), counted + [r])
    {
      FilterConcat(OnAxis(axis), counted, [r]);
      if axis !in grouped {
        FilterNone(OnAxis(axis), counted);
      }
    }
    forall axis
      ensures axis in after <==> exists x :: x in counted + [r] && x.facet == axis
    {
      if axis == r.facet {
        assert r in counted + [r];
      }
    }
  }

  method GroupRows(w: World, classifiers: map<string, Classifier>, latest: map<string, string>)
    returns (grouped: map<string, seq<Row>>)
    ensures Grouped(grouped, Filter(Counts(w.version, classifiers, latest), w.rows))
  {
    ghost var counts := Counts(w.version, classifiers, latest);
    grouped := map[];
    for n := 0 to |w.rows|
      invariant Grouped(grouped, Filter(counts, w.rows[..n]))
    {
      hide Grouped, Trusted, Filter;
      var r := w.rows[n];
      assert w.rows[..n + 1] == w.rows[..n] + [r];
      FilterSnoc(counts, w.rows[..n], r);
      if !Loaded(r, w.version) || r.origin == Provenance {
        continue;
      }
      if (r.origin == FromClassifier || r.origin == FromShadow) && !Trusted(r, classifiers, latest) {
        continue;
      }
      GroupedMore(grouped, Filter(counts, w.rows[..n]), r);
      grouped := grouped[r.facet := (if r.facet in grouped then grouped[r.facet] else []) + [r]];
    }
    assert w.rows[..|w.rows|] == w.rows;
  }

  /** The columns of a news item that a recomputation writes, and its effective labels. */
  class NewsItem {
    var manualFacets: seq<string>
    var effective: set<Effective>
    var urgency: int
    var impact: int
    var editorialPriority: int
    var importance: int
    var revision: nat
    var visibility: nat

    constructor (manual: seq<string>)
      ensures manualFacets == manual && revision == 1 && visibility == 1
    {
      manualFacets, effective, revision, visibility := manual, {}, 1, 1;
      urgency, impact, editorialPriority, importance := 0, 0, 0, 0;
    }

    function Manual(): set<string>
      reads this
    {
      set axis | axis in manualFacets
    }

    /** The columns say what `o` says. */
    ghost predicate Holds(o: Outcome)
      reads this
    {
      && Strict(Less, manualFacets) && Manual() == o.manual
      && effective == EffectiveOf(o.winners)
      && Scores(urgency, impact, editorialPriority) == o.scores && importance == o.scores.Importance()
    }

    method Recompute(w: World)
      modifies this
      ensures Holds(OutcomeOf(w, old(Manual())))
      ensures revision == old(revision) + 1 && visibility == old(visibility) + 1
    {
      hide EffectiveOf, LabelsOf, Won, Axes, Run, Ordered, Grouped, Newest, Filter, Latest, SlugById, BySlug, DecidedAxes;
      ghost var manual := Manual();
      effective := {};
      var classifiers := BySlug(w.classifiers);
      var latest := LatestAttempts(w.attempts, SlugById(w.classifiers), w.version);
      var newest := NewestDecisions(w.decisions, w.version);
      var grouped := GroupRows(w, classifiers, latest);
      var legacy := Manual() - DecidedAxes(w.decisions, w.version);
      var active := legacy + set slug | slug in newest && newest[slug].action == Set;
      manualFacets := SortedSet(active);
      var selected, labelled := SelectAxes(w, manual, classifiers, newest, grouped, legacy, active);
      effective := labelled;
      var scores := EvaluateScores(selected, w.rules, ZERO);
      urgency, impact, editorialPriority := scores.urgency, scores.impact, scores.editorialPriority;
      importance := scores.Importance();
      revision := revision + 1;
      visibility := visibility + 1;
    }
  }

  /** The loop over the axes, in any order. */
  method SelectAxes(
    w: World, ghost manual: set<string>, classifiers: map<string, Classifier>, newest: map<string, Decision>,
    grouped: map<string, seq<Row>>, legacy: set<string>, active: set<string>)
    returns (selected: Labels, effective: set<Effective>)
    requires classifiers == BySlug(w.classifiers) && newest == Newest(w.decisions, w.version)
    requires Grouped(grouped, Filter(Counts(w.version, classifiers, LatestIds(w)), w.rows))
    requires legacy == Legacy(w, manual) && active == Active(w, manual)
    ensures var winners := Won(w, manual, Axes(w, manual));
            selected == LabelsOf(winners) && effective == EffectiveOf(winners)
  {
    hide Counts, Filter, Newest, Legacy, Active, BySlug, LatestIds, Selected, Grouped, Pool;
    selected, effective := map[], {};
    var axes := grouped.Keys + active;
    GroupedAxes(w, manual, grouped);
    var left := axes;
    while left != {}
      invariant left <= axes
      invariant selected == LabelsOf(Won(w, manual, axes - left))
      invariant effective == EffectiveOf(Won(w, manual, axes - left))
    {
      var axis :| axis in left;
      var candidates := Pool(if axis in grouped then grouped[axis] else [], newest, legacy, axis);
      OwnGrouped(w, grouped, axis);
      assert candidates == CandidatesOf(w, manual, axis);
      WonMore(w, manual, axes - left, axis);
      assert axes - left + {axis} == axes - (left - {axis});
      if candidates != [] {
        var winners := SelectWinners(candidates, classifiers);
        selected := selected[axis := Slugs(winners)];
        effective := effective + set r | r in winners :: Effective(r.facet, r.value, r.origin, r.confidence);
      }
      left := left - {axis};
    }
    assert axes - left == axes;
  }

  lemma GroupedAxes(w: World, manual: set<string>, grouped: map<string, seq<Row>>)
    requires Grouped(grouped, Filter(Counts(w.version, BySlug(w.classifiers), LatestIds(w)), w.rows))
    ensures grouped.Keys + Active(w, manual) == Axes(w, manual)
  {
  }

  lemma OwnGrouped(w: World, grouped: map<string, seq<Row>>, axis: string)
    requires Grouped(grouped, Filter(Counts(w.version, BySlug(w.classifiers), LatestIds(w)), w.rows))
    ensures (if axis in grouped then grouped[axis] else []) == Own(w, axis)
  {
    if axis !in grouped {
      FilterNone(OnAxis(axis), Filter(Counts(w.version, BySlug(w.classifiers), LatestIds(w)), w.rows));
    }
  }

  lemma WonMore(w: World, manual: set<string>, axes: set<string>, axis: string)
    ensures var before, after := Won(w, manual, axes), Won(w, manual, axes + {axis});
            if CandidatesOf(w, manual, axis) == [] then after == before
            else
              && LabelsOf(after) == LabelsOf(before)[axis := Slugs(WinnersOf(w, manual, axis))]
              && EffectiveOf(after) == EffectiveOf(before)
                   + set r | r in WinnersOf(w, manual, axis) :: Effective(r.facet, r.value, r.origin, r.confidence)
  {
    hide CandidatesOf, WinnersOf;
    var before, after := Won(w, manual, axes), Won(w, manual, axes + {axis});
    if CandidatesOf(w, manual, axis) == [] {
      assert after == before;
    } else {
      assert after == before[axis := WinnersOf(w, manual, axis)];
      OneMore(before, axis, WinnersOf(w, manual, axis));
    }
  }

  lemma OneMore(before: map<string, seq<Row>>, axis: string, winners: seq<Row>)
    requires axis in before ==> before[axis] == winners
    ensures LabelsOf(before[axis := winners]) == LabelsOf(before)[axis := Slugs(winners)]
    ensures EffectiveOf(before[axis := winners]) == EffectiveOf(before)
              + set r | r in winners :: Effective(r.facet, r.value, r.origin, r.confidence)
  {
    var after := before[axis := winners];
    forall e
      ensures e in EffectiveOf(after) <==>
                || e in EffectiveOf(before)
                || e in set r | r in winners :: Effective(r.facet, r.value, r.origin, r.confidence)
    {
      if e in EffectiveOf(before) {
        var a, r :| a in before && r in before[a] && e == Effective(r.facet, r.value, r.origin, r.confidence);
        assert a in after && r in after[a];
      }
      if r :| r in winners && e == Effective(r.facet, r.value, r.origin, r.confidence) {
        assert axis in after && r in after[axis];
      }
    }
  }
}
