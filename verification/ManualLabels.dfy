/** Editors' decisions about facets, and why nothing else can override them. */
module ManualLabels {
  import opened Filtering
  import opened Materializer
  import opened MaterializerTheorems
  import opened Opinions
  import opened Options
  import opened Scoring
  import opened Sorting
  import opened Texts

  datatype Facet = Facet(multi: bool, enabled: bool, values: map<string, bool>)

  /** What an editor asked for one facet; `values` are those of a set. */
  datatype Change = Change(facet: string, action: Action, values: seq<string>, id: string)

  // ---- the newest decision of a facet ----

  predicate Supersedes(a: Decision, b: Decision) {
    a.revision > b.revision || (a.revision == b.revision && Less(b.id, a.id))
  }

  lemma NotBoth(a: Decision, b: Decision)
    requires ByRevision()(b, a)
    ensures !Supersedes(a, b)
  {
    LessOrders();
  }

  lemma ShownSorted(decisions: seq<Decision>, version: Option<int>)
    ensures var sorted := Sort(ByRevision(), Filter(Shown(version), decisions));
            && Sorted(ByRevision(), sorted)
            && forall d :: d in sorted <==> d in decisions && Shown(version)(d)
  {
    var shown := Filter(Shown(version), decisions);
    FilterIn(Shown(version), decisions);
    SortPermutes(ByRevision(), shown);
    SameElements(Sort(ByRevision(), shown), shown);
    LessOrders();
    SortSorts(ByRevision(), shown);
  }

  /** The decision found for a facet is shown, and no other one of it supersedes it. */
  lemma NewestIs(decisions: seq<Decision>, version: Option<int>, facet: string)
    ensures var newest := Newest(decisions, version);
            if facet in newest then
              && newest[facet] in decisions && Shown(version)(newest[facet]) && newest[facet].facet == facet
              && forall d | d in decisions && Shown(version)(d) && d.facet == facet :: !Supersedes(d, newest[facet])
            else forall d | d in decisions && Shown(version)(d) :: d.facet != facet
  {
    hide Sort, Filter, Less, Supersedes;
    var sorted := Sort(ByRevision(), Filter(Shown(version), decisions));
    ShownSorted(decisions, version);
    FirstPerIsFirst(FacetOf(), sorted, facet);
    var newest := FirstPer(FacetOf(), sorted);
    if facet in newest {
      var i :| 0 <= i < |sorted| && sorted[i] == newest[facet] && FacetOf()(sorted[i]) == Some(facet)
               && forall j | 0 <= j < i :: FacetOf()(sorted[j]) != Some(facet);
      assert sorted[i] in sorted;
      forall d | d in decisions && Shown(version)(d) && d.facet == facet
        ensures !Supersedes(d, newest[facet])
      {
        assert d in sorted;
        var j :| 0 <= j < |sorted| && sorted[j] == d;
        assert FacetOf()(sorted[j]) == Some(facet);
        assert i <= j;
        assert ByRevision()(sorted[i], sorted[j]);
        NotBoth(d, newest[facet]);
      }
    } else {
      forall d | d in decisions && Shown(version)(d)
        ensures d.facet != facet
      {
        assert d in sorted && FacetOf()(d) != Some(facet);
      }
    }
  }

  /** The revision the next decision about a facet gets. */
  function NextRevision(decisions: seq<Decision>, version: int, facet: string): (r: nat)
    ensures r >= 1
    ensures forall d | d in decisions && d.version == version && d.facet == facet :: d.revision < r
  {
    if decisions == [] then 1
    else
      var n := |decisions| - 1;
      var before, last := NextRevision(decisions[..n], version, facet), decisions[n];
      assert decisions == decisions[..n] + [last];
      if last.version == version && last.facet == facet && last.revision >= before then last.revision + 1 else before
  }

  /** It is one more than the largest revision so far, and 1 for the first. */
  lemma {:induction false} NextRevisionIs(decisions: seq<Decision>, version: int, facet: string)
    ensures var next := NextRevision(decisions, version, facet);
            || next == 1
            || exists d :: d in decisions && d.version == version && d.facet == facet && d.revision + 1 == next
  {
    if decisions != [] {
      var n := |decisions| - 1;
      NextRevisionIs(decisions[..n], version, facet);
      assert decisions == decisions[..n] + [decisions[n]];
      assert decisions[n] in decisions;
    }
  }

  function MadeFrom(c: Change, decisions: seq<Decision>, version: int, facets: map<string, Facet>): Decision {
    Decision(c.id, version, c.facet, c.facet in facets && facets[c.facet].enabled,
             NextRevision(decisions, version, c.facet), true, c.action)
  }

  function RowsOf(c: Change, version: int, facet: Facet): seq<Row> {
    seq(|c.values|, i requires 0 <= i < |c.values| =>
      Row(version, c.facet, facet.multi, facet.enabled, c.values[i], true, FromEditor, c.id, 1.0))
  }

  /** The rows of a change: one for each value, an editor's and certain, with its id. */
  lemma RowsOfAre(c: Change, version: int, facet: Facet, i: nat)
    ensures |RowsOf(c, version, facet)| == |c.values|
    ensures i < |c.values| ==>
              var r := RowsOf(c, version, facet)[i];
              && r.value == c.values[i] && r.facet == c.facet && r.version == version
              && r.origin == FromEditor && r.key == c.id && r.confidence == 1.0 && r.multi == facet.multi
  {
  }

  /** A new decision is the newest of its facet, and of no other. */
  lemma AppendedIsNewest(decisions: seq<Decision>, d: Decision, version: int)
    requires UniqueDecisions(decisions)
    requires d.version == version && d.manual && d.revision == NextRevision(decisions, version, d.facet)
    ensures var before, after := Newest(decisions, Some(version)), Newest(decisions + [d], Some(version));
            after == if d.facetEnabled then before[d.facet := d] else before
  {
    hide Newest, Supersedes;
    var before, after := Newest(decisions, Some(version)), Newest(decisions + [d], Some(version));
    if d.facetEnabled {
      forall facet
        ensures facet in after <==> facet in before || facet == d.facet
        ensures facet in after ==> after[facet] == if facet == d.facet then d else before[facet]
      {
        NewestMore(decisions, d, version, facet);
      }
    } else {
      HiddenChangesNothing(decisions, d, version);
    }
  }

  lemma HiddenChangesNothing(decisions: seq<Decision>, d: Decision, version: int)
    requires !d.facetEnabled
    ensures Newest(decisions + [d], Some(version)) == Newest(decisions, Some(version))
  {
    FilterSnoc(Shown(Some(version)), decisions, d);
  }

  /** A decision of another version, or kept for provenance, changes nothing either. */
  lemma OthersChangeNothing(decisions: seq<Decision>, d: Decision, version: Option<int>)
    requires version != Some(d.version) || !d.manual
    ensures Newest(decisions + [d], version) == Newest(decisions, version)
  {
    FilterSnoc(Shown(version), decisions, d);
  }

  lemma NewestMore(decisions: seq<Decision>, d: Decision, version: int, facet: string)
    requires UniqueDecisions(decisions)
    requires d.version == version && d.manual && d.facetEnabled
    requires d.revision == NextRevision(decisions, version, d.facet)
    ensures var before, after := Newest(decisions, Some(version)), Newest(decisions + [d], Some(version));
            && (facet in after <==> facet in before || facet == d.facet)
            && (facet in after ==> after[facet] == if facet == d.facet then d else before[facet])
  {
    hide Newest;
    var before, after := Newest(decisions, Some(version)), Newest(decisions + [d], Some(version));
    NewestIs(decisions, Some(version), facet);
    NewestIs(decisions + [d], Some(version), facet);
    assert d in decisions + [d] && Shown(Some(version))(d);
    if facet == d.facet {
      assert after[facet] in decisions ==> Supersedes(d, after[facet]);
    } else if facet in before {
      assert before[facet] in decisions + [d];
      assert after[facet] in decisions;
      LessOrders();
    }
  }

  // ---- a set decision ----

  function Stored(version: Option<int>, axis: string, decision: string): Row -> bool {
    (r: Row) => Loaded(r, version) && r.facet == axis && r.origin == FromEditor && r.key == decision
  }

  /** The counted rows of one axis, as one filter. */
  function CountsOn(w: World, axis: string): Row -> bool {
    var counts := Counts(w.version, BySlug(w.classifiers), LatestIds(w));
    (r: Row) => counts(r) && r.facet == axis
  }

  lemma OwnIsFilter(w: World, axis: string)
    ensures Own(w, axis) == Filter(CountsOn(w, axis), w.rows)
  {
    hide BySlug, LatestIds, Counts;
    var counts := Counts(w.version, BySlug(w.classifiers), LatestIds(w));
    FilterTwice(counts, OnAxis(axis), CountsOn(w, axis), w.rows);
  }

  lemma StoredAreCandidates(w: World, manual: set<string>, axis: string)
    requires axis in Newest(w.decisions, w.version) && Newest(w.decisions, w.version)[axis].action == Set
    ensures CandidatesOf(w, manual, axis)
         == Filter(Stored(w.version, axis, Newest(w.decisions, w.version)[axis].id), w.rows)
  {
    hide Newest, BySlug, LatestIds, Trusted, Own;
    var id := Newest(w.decisions, w.version)[axis].id;
    OwnIsFilter(w, axis);
    FilterTwice(CountsOn(w, axis), SetBy(id), Stored(w.version, axis, id), w.rows);
  }

  lemma {:induction false} OneKey(candidates: seq<Row>, key: Opinion)
    requires candidates != [] && forall r | r in candidates :: OpinionOf(r) == key
    ensures Keys(candidates) == [key]
  {
    var n := |candidates| - 1;
    assert candidates[n] in candidates;
    if n > 0 {
      assert forall r | r in candidates[..n] :: r in candidates;
      OneKey(candidates[..n], key);
    } else {
      assert candidates[..0] == [];
    }
  }

  /** An axis an editor has set shows the enabled values stored with that decision and
      nothing else: all of them, or the first on a single axis, or none if there are
      none. No other row, attempt, classifier or manual pin comes into it. */
  lemma SetAxisIsExact(w: World, manual: set<string>, axis: string)
    requires axis in Newest(w.decisions, w.version) && Newest(w.decisions, w.version)[axis].action == Set
    ensures var stored := Filter(Stored(w.version, axis, Newest(w.decisions, w.version)[axis].id), w.rows);
            var outcome := OutcomeOf(w, manual);
            && axis in outcome.manual
            && (axis in outcome.winners <==> stored != [])
            && (stored != [] ==> outcome.winners[axis] == Cut(stored))
  {
    hide Newest, BySlug, LatestIds, Run, CandidatesOf, Cut;
    StoredAreCandidates(w, manual, axis);
    var id := Newest(w.decisions, w.version)[axis].id;
    var stored := Filter(Stored(w.version, axis, id), w.rows);
    var key := Opinion(FromEditor, id);
    FilterIn(Stored(w.version, axis, id), w.rows);
    forall r | r in stored
      ensures Same(key)(r)
    {
      assert r in w.rows && Stored(w.version, axis, id)(r);
      assert r.origin == FromEditor && r.key == id;
    }
    if stored != [] {
      OneKey(stored, key);
      FilterAll(Same(key), stored);
    }
  }

  // ---- a released axis ----

  /** The same news with everything editors did about `axis` erased. */
  function Erased(w: World, axis: string): World {
    w.(rows := Filter(NotByEditor(), w.rows), decisions := Filter(About(axis), w.decisions))
  }

  function About(axis: string): Decision -> bool {
    (d: Decision) => d.facet != axis
  }

  lemma NoNewest(decisions: seq<Decision>, version: Option<int>, axis: string)
    ensures axis !in Newest(Filter(About(axis), decisions), version)
  {
    FilterIn(About(axis), decisions);
    NewestIs(Filter(About(axis), decisions), version, axis);
  }

  lemma ErasedOwn(w: World, axis: string)
    ensures Own(Erased(w, axis), axis) == Filter(NotByEditor(), Own(w, axis))
  {
    hide BySlug, Latest, SlugById, Counts, Own;
    OwnIsFilter(w, axis);
    OwnIsFilter(Erased(w, axis), axis);
    var both := (r: Row) => CountsOn(w, axis)(r) && NotByEditor()(r);
    FilterTwice(CountsOn(w, axis), NotByEditor(), both, w.rows);
    FilterTwice(NotByEditor(), CountsOn(w, axis), both, w.rows);
    assert LatestIds(Erased(w, axis)) == LatestIds(w);
    FilterSame(CountsOn(w, axis), CountsOn(Erased(w, axis), axis), Filter(NotByEditor(), w.rows));
  }

  /** An axis an editor has released shows what a recomputation would give had no
      editor ever touched it, and is no longer a manual axis. */
  lemma ReleasedAxisForgetsEditor(w: World, manual: set<string>, axis: string)
    requires axis in Newest(w.decisions, w.version) && Newest(w.decisions, w.version)[axis].action == Release
    ensures CandidatesOf(w, manual, axis) == CandidatesOf(Erased(w, axis), manual - {axis}, axis)
    ensures WinnersOf(w, manual, axis) == WinnersOf(Erased(w, axis), manual - {axis}, axis)
    ensures axis !in OutcomeOf(w, manual).manual && axis !in OutcomeOf(Erased(w, axis), manual - {axis}).manual
  {
    hide Newest, BySlug, LatestIds, Run, Own, Selected;
    NewestDecided(w);
    NoNewest(w.decisions, w.version, axis);
    ErasedOwn(w, axis);
  }
}
