/** What an editor's request comes to, for every axis. */
module ManualTheorems {
  import opened Filtering
  import opened ManualEdits
  import opened ManualLabels
  import opened Materializer
  import opened MaterializerTheorems
  import opened Opinions
  import opened Options
  import opened Scoring
  import opened Sorting
  import opened Texts

  /** Newly drawn ids: used by no decision, by no editor's row, and each only once. */
  ghost predicate Fresh(changes: seq<Change>, b: Book) {
    && (forall i, j | 0 <= i < j < |changes| :: changes[i].id != changes[j].id)
    && (forall c | c in changes :: Unused(c.id, b))
  }

  ghost predicate Unused(id: string, b: Book) {
    && (forall d | d in b.decisions :: d.id != id)
    && (forall r | r in b.rows && r.origin == FromEditor :: r.key != id)
  }

  predicate Touches(changes: seq<Change>, axis: string) {
    exists c :: c in changes && c.facet == axis
  }

  lemma FreshPrefix(changes: seq<Change>, b: Book)
    requires changes != [] && Fresh(changes, b) && ApartFacets(changes)
    ensures var n := |changes| - 1;
            && Fresh(changes[..n], b) && ApartFacets(changes[..n])
            && Unused(changes[n].id, b)
            && (forall c | c in changes[..n] :: c in changes && c.id != changes[n].id && c.facet != changes[n].facet)
            && (forall c | c in changes :: c in changes[..n] || c == changes[n])
  {
    var n := |changes| - 1;
    assert changes == changes[..n] + [changes[n]];
  }

  lemma {:induction false} StillUnused(b: Book, changes: seq<Change>, now: Book, version: Option<int>, facets: Facets, id: string)
    requires Leads(b, changes, now, version, facets) && Unused(id, b) && forall c | c in changes :: c.id != id
    ensures Unused(id, now)
  {
    if changes != [] {
      var n := |changes| - 1;
      assert forall c | c in changes[..n] :: c in changes;
      StillUnused(b, changes[..n], Applied(b, changes[..n], version, facets), version, facets, id);
      assert changes[n] in changes;
    }
  }

  // ---- decisions ----

  ghost predicate DecidedBy(now: Book, c: Change, version: Option<int>) {
    var newest := Newest(now.decisions, version);
    c.facet in newest && newest[c.facet].id == c.id && newest[c.facet].action == c.action
  }

  ghost predicate SameDecision(b: Book, now: Book, axis: string, version: Option<int>) {
    var before, after := Newest(b.decisions, version), Newest(now.decisions, version);
    && (axis in after <==> axis in before)
    && (axis in after ==> after[axis] == before[axis])
    && (axis in DecidedAxes(now.decisions, version) <==> axis in DecidedAxes(b.decisions, version))
  }

  /** After the changes each changed facet that is enabled has its own decision as the
      newest, and every other facet the decision it had. */
  lemma {:induction false} DecisionsAfter(b: Book, changes: seq<Change>, now: Book, version: Option<int>, facets: Facets)
    requires Leads(b, changes, now, version, facets) && Fresh(changes, b) && ApartFacets(changes)
    requires UniqueDecisions(b.decisions)
    ensures UniqueDecisions(now.decisions)
    ensures forall c | c in changes && facets[c.facet].enabled :: DecidedBy(now, c, version)
    ensures forall axis | !Touches(changes, axis) :: SameDecision(b, now, axis, version)
  {
    hide Newest;
    if changes != [] {
      var n := |changes| - 1;
      var c, before := changes[n], Applied(b, changes[..n], version, facets);
      FreshPrefix(changes, b);
      DecisionsAfter(b, changes[..n], before, version, facets);
      StillUnused(b, changes[..n], before, version, facets, c.id);
      var d := MadeFrom(c, before.decisions, version.value, facets);
      AppendedIsNewest(before.decisions, d, version.value);
      assert now.decisions == before.decisions + [d];
      forall axis | !Touches(changes, axis)
        ensures SameDecision(b, now, axis, version)
      {
        assert !Touches(changes[..n], axis) && axis != c.facet by { assert c in changes; }
        assert SameDecision(b, before, axis, version);
      }
    }
  }

  // ---- rows ----

  lemma FilterNew(keep: Row -> bool, rows: seq<Row>, c: Change, version: int, facet: Facet)
    ensures (forall r | r in RowsOf(c, version, facet) :: keep(r)) ==>
              Filter(keep, rows + RowsOf(c, version, facet)) == Filter(keep, rows) + RowsOf(c, version, facet)
    ensures (forall r | r in RowsOf(c, version, facet) :: !keep(r)) ==>
              Filter(keep, rows + RowsOf(c, version, facet)) == Filter(keep, rows)
  {
    var added := RowsOf(c, version, facet);
    FilterConcat(keep, rows, added);
    if forall r | r in added :: keep(r) {
      FilterAll(keep, added);
    }
    if forall r | r in added :: !keep(r) {
      FilterNone(keep, added);
      assert Filter(keep, rows) + [] == Filter(keep, rows);
    }
  }

  /** The rows stored with a change are those it made. */
  lemma {:induction false} RowsAfter(b: Book, changes: seq<Change>, now: Book, version: Option<int>, facets: Facets, c: Change)
    requires Leads(b, changes, now, version, facets) && Fresh(changes, b) && ApartFacets(changes)
    requires c in changes && facets[c.facet].enabled
    ensures Filter(Stored(version, c.facet, c.id), now.rows) == RowsOf(c, version.value, facets[c.facet])
  {
    var n := |changes| - 1;
    var last, before := changes[n], Applied(b, changes[..n], version, facets);
    var stored := Stored(version, c.facet, c.id);
    FreshPrefix(changes, b);
    FilterNew(stored, before.rows, last, version.value, facets[last.facet]);
    if c == last {
      StillUnused(b, changes[..n], before, version, facets, c.id);
      FilterNone(stored, before.rows);
    } else {
      RowsAfter(b, changes[..n], before, version, facets, c);
    }
  }

  /** Rows of an axis that no change touches are as they were. */
  lemma {:induction false} OtherRows(b: Book, changes: seq<Change>, now: Book, version: Option<int>, facets: Facets, keep: Row -> bool, axis: string)
    requires Leads(b, changes, now, version, facets) && !Touches(changes, axis)
    requires forall r | keep(r) :: r.facet == axis
    ensures Filter(keep, now.rows) == Filter(keep, b.rows)
  {
    if changes != [] {
      var n := |changes| - 1;
      assert forall c | c in changes[..n] :: c in changes;
      OtherRows(b, changes[..n], Applied(b, changes[..n], version, facets), version, facets, keep, axis);
      assert changes[n] in changes;
      FilterNew(keep, Applied(b, changes[..n], version, facets).rows, changes[n], version.value, facets[changes[n].facet]);
    }
  }

  // ---- the request as a whole ----

  function Edited(w: World, now: Book): World {
    w.(rows := now.rows, decisions := now.decisions)
  }

  /** A set axis shows exactly the values asked for, whatever classifiers, parsers and
      sources have said or will say: all of them, or the first on a single axis. */
  lemma SetShowsItsValues(
    w: World, changes: seq<Change>, now: Book, facets: Facets, manual: set<string>, c: Change)
    requires Leads(Book(w.rows, w.decisions), changes, now, w.version, facets)
    requires Fresh(changes, Book(w.rows, w.decisions)) && ApartFacets(changes) && UniqueDecisions(w.decisions)
    requires c in changes && c.action == Set && facets[c.facet].enabled
    ensures var o := OutcomeOf(Edited(w, now), manual);
            && c.facet in o.manual
            && (c.facet in o.winners <==> c.values != [])
            && (c.values != [] ==>
                  && (forall v | v in Slugs(o.winners[c.facet]) :: v in c.values)
                  && (facets[c.facet].multi || |c.values| == 1 ==>
                        forall v | v in c.values :: v in Slugs(o.winners[c.facet]))
                  && (!facets[c.facet].multi ==> |o.winners[c.facet]| == 1))
  {
    hide OutcomeOf, Newest, Stored, Fresh, Cut;
    var w', b := Edited(w, now), Book(w.rows, w.decisions);
    DecisionsAfter(b, changes, now, w.version, facets);
    assert DecidedBy(now, c, w.version);
    RowsAfter(b, changes, now, w.version, facets, c);
    SetAxisIsExact(w', manual, c.facet);
    CutOfRows(c, w.version.value, facets[c.facet]);
  }

  lemma CutOfRows(c: Change, version: int, facet: Facet)
    ensures var rows := RowsOf(c, version, facet);
            && (rows == [] <==> c.values == [])
            && (rows != [] ==>
                  && (forall v | v in Slugs(Cut(rows)) :: v in c.values)
                  && (facet.multi || |c.values| == 1 ==> forall v | v in c.values :: v in Slugs(Cut(rows)))
                  && (!facet.multi ==> |Cut(rows)| == 1))
  {
    hide Cut;
    var rows := RowsOf(c, version, facet);
    if rows != [] {
      CutSorts(rows);
      var shown := Cut(rows);
      forall v | v in Slugs(shown)
        ensures v in c.values
      {
        var i :| 0 <= i < |shown| && Slugs(shown)[i] == v;
        assert shown[i] in rows;
      }
      forall v | v in c.values && (facet.multi || |c.values| == 1)
        ensures v in Slugs(shown)
      {
        var i :| 0 <= i < |c.values| && c.values[i] == v;
        assert rows[i].value == v && rows[i] in rows;
        if facet.multi {
          SameElements(shown, rows);
          assert rows[i] in shown;
          var j :| 0 <= j < |shown| && shown[j] == rows[i];
          assert Slugs(shown)[j] == v;
        } else {
          assert shown[0] in rows && Slugs(shown)[0] == v;
        }
      }
    }
  }

  /** A released axis shows what it would had no editor ever touched it. */
  lemma ReleaseForgetsEditor(
    w: World, changes: seq<Change>, now: Book, facets: Facets, manual: set<string>, c: Change)
    requires Leads(Book(w.rows, w.decisions), changes, now, w.version, facets)
    requires Fresh(changes, Book(w.rows, w.decisions)) && ApartFacets(changes) && UniqueDecisions(w.decisions)
    requires c in changes && c.action == Release && facets[c.facet].enabled
    ensures var w' := Edited(w, now);
            && c.facet !in OutcomeOf(w', manual).manual
            && WinnersOf(w', manual, c.facet) == WinnersOf(Erased(w', c.facet), manual - {c.facet}, c.facet)
            && CandidatesOf(w', manual, c.facet) == CandidatesOf(Erased(w', c.facet), manual - {c.facet}, c.facet)
  {
    hide OutcomeOf, Newest, Leads, Fresh, WinnersOf, CandidatesOf;
    DecisionsAfter(Book(w.rows, w.decisions), changes, now, w.version, facets);
    assert DecidedBy(now, c, w.version);
    ReleasedAxisForgetsEditor(Edited(w, now), manual, c.facet);
  }

  /** Every axis the request does not name keeps its winners. */
  lemma OtherAxesKeepTheirs(
    w: World, changes: seq<Change>, now: Book, facets: Facets, manual: set<string>, axis: string)
    requires Leads(Book(w.rows, w.decisions), changes, now, w.version, facets)
    requires Fresh(changes, Book(w.rows, w.decisions)) && ApartFacets(changes) && UniqueDecisions(w.decisions)
    requires !Touches(changes, axis)
    ensures WinnersOf(Edited(w, now), manual, axis) == WinnersOf(w, manual, axis)
    ensures axis in Active(Edited(w, now), manual) <==> axis in Active(w, manual)
  {
    hide Newest, Leads, Fresh, Own, Selected, DecidedAxes, Latest, SlugById, BySlug, Counts;
    var w', b := Edited(w, now), Book(w.rows, w.decisions);
    DecisionsAfter(b, changes, now, w.version, facets);
    assert SameDecision(b, now, axis, w.version);
    OwnIsFilter(w, axis);
    OwnIsFilter(w', axis);
    OtherRows(b, changes, now, w.version, facets, CountsOn(w, axis), axis);
    FilterSame(CountsOn(w, axis), CountsOn(w', axis), w'.rows);
    assert Own(w', axis) == Own(w, axis);
  }

  // ---- from the request to the outcome ----

  /** The ids drawn for a request: all different, and used nowhere. */
  ghost predicate NewIds(ids: map<string, string>, b: Book) {
    && (forall x, y | x in ids && y in ids && ids[x] == ids[y] :: x == y)
    && forall x | x in ids :: Unused(ids[x], b)
  }

  /** What is known of a request that was not refused: the store is where its releases
      and then its sets lead. */
  ghost predicate WentThrough(
    b: Book, labels: map<string, seq<string>>, release: seq<string>, ids: map<string, string>,
    released: seq<Change>, pinned: seq<Change>, now: Book, version: Option<int>, facets: Facets)
  {
    && Acceptable(facets, version, labels, release)
    && Releases(released, (set axis | axis in release), ids) && Sets(pinned, labels, ids)
    && Leads(b, released + pinned, now, version, facets)
  }

  lemma ChangesAreApart(
    b: Book, labels: map<string, seq<string>>, release: seq<string>, ids: map<string, string>,
    released: seq<Change>, pinned: seq<Change>, now: Book, version: Option<int>, facets: Facets)
    requires WentThrough(b, labels, release, ids, released, pinned, now, version, facets) && NewIds(ids, b)
    ensures ApartFacets(released + pinned) && Fresh(released + pinned, b)
    ensures forall c | c in released + pinned ::
              c.facet in ids && c.id == ids[c.facet] && (c in released || c in pinned)
  {
    hide Resolvable, Leads, Unused;
    var changes := released + pinned;
    forall c | c in changes
      ensures c.facet in ids && c.id == ids[c.facet] && (c in released || c in pinned)
    {
      assert c in released ==> IsRelease(c, ids);
      assert c in pinned ==> IsSet(c, labels, ids);
    }
    forall i, j | 0 <= i < j < |changes|
      ensures changes[i].facet != changes[j].facet && changes[i].id != changes[j].id
    {
      assert changes[i] in changes && changes[j] in changes;
      if i < |released| <= j {
        assert changes[i] in released && changes[j] in pinned;
        assert IsRelease(changes[i], ids) && IsSet(changes[j], labels, ids);
      }
    }
  }

  lemma OneOrMore(xs: seq<string>, ys: seq<string>)
    requires Distinct(xs) && forall x | x in xs :: x in ys
    ensures |xs| <= 1 || |set y | y in ys| > 1
  {
    if |xs| > 1 {
      var all := set y | y in ys;
      assert xs[0] in xs && xs[1] in xs && xs[0] != xs[1];
      assert xs[0] in all && xs[1] in all - {xs[0]};
      assert |all - {xs[0]}| == |all| - 1;
    }
  }

  /** Every axis the request sets shows exactly the values asked for and is manual. */
  lemma RequestSets(
    w: World, labels: map<string, seq<string>>, release: seq<string>, ids: map<string, string>,
    released: seq<Change>, pinned: seq<Change>, now: Book, facets: Facets, manual: set<string>, axis: string)
    requires WentThrough(Book(w.rows, w.decisions), labels, release, ids, released, pinned, now, w.version, facets)
    requires NewIds(ids, Book(w.rows, w.decisions)) && UniqueDecisions(w.decisions) && axis in labels
    ensures var o := OutcomeOf(Edited(w, now), manual);
            && axis in o.manual
            && (axis in o.winners <==> labels[axis] != [])
            && (axis in o.winners ==> forall v :: v in Slugs(o.winners[axis]) <==> v in labels[axis])
  {
    ChangesAreApart(Book(w.rows, w.decisions), labels, release, ids, released, pinned, now, w.version, facets);
    hide OutcomeOf, Leads, Fresh, ApartFacets;
    var c :| c in pinned && c.facet == axis;
    assert c in released + pinned && IsSet(c, labels, ids) && Resolvable(facets, axis, labels[axis]);
    SetShowsItsValues(w, released + pinned, now, facets, manual, c);
    assert c.values == [] <==> labels[axis] == [] by {
      assert c.values != [] ==> c.values[0] in labels[axis];
      assert labels[axis] != [] ==> labels[axis][0] in c.values;
    }
    if !facets[axis].multi {
      OneOrMore(c.values, labels[axis]);
    }
  }

  /** Every enabled axis it releases shows what it would had no editor ever touched it. */
  lemma RequestReleases(
    w: World, labels: map<string, seq<string>>, release: seq<string>, ids: map<string, string>,
    released: seq<Change>, pinned: seq<Change>, now: Book, facets: Facets, manual: set<string>, axis: string)
    requires WentThrough(Book(w.rows, w.decisions), labels, release, ids, released, pinned, now, w.version, facets)
    requires NewIds(ids, Book(w.rows, w.decisions)) && UniqueDecisions(w.decisions)
    requires axis in release && axis in facets && facets[axis].enabled
    ensures var w' := Edited(w, now);
            && axis !in OutcomeOf(w', manual).manual
            && WinnersOf(w', manual, axis) == WinnersOf(Erased(w', axis), manual - {axis}, axis)
  {
    ChangesAreApart(Book(w.rows, w.decisions), labels, release, ids, released, pinned, now, w.version, facets);
    hide OutcomeOf, WinnersOf, CandidatesOf, Leads, Fresh, ApartFacets;
    var wanted := set a | a in release;
    assert Releases(released, wanted, ids) && axis in wanted;
    var c :| c in released && c.facet == axis;
    assert c in released + pinned && IsRelease(c, ids);
    ReleaseForgetsEditor(w, released + pinned, now, facets, manual, c);
  }

  /** And any other axis keeps what it had. */
  lemma RequestKeepsTheRest(
    w: World, labels: map<string, seq<string>>, release: seq<string>, ids: map<string, string>,
    released: seq<Change>, pinned: seq<Change>, now: Book, facets: Facets, manual: set<string>, axis: string)
    requires WentThrough(Book(w.rows, w.decisions), labels, release, ids, released, pinned, now, w.version, facets)
    requires NewIds(ids, Book(w.rows, w.decisions)) && UniqueDecisions(w.decisions)
    requires axis !in release && axis !in labels
    ensures WinnersOf(Edited(w, now), manual, axis) == WinnersOf(w, manual, axis)
    ensures axis in Active(Edited(w, now), manual) <==> axis in Active(w, manual)
  {
    ChangesAreApart(Book(w.rows, w.decisions), labels, release, ids, released, pinned, now, w.version, facets);
    hide WinnersOf, Active, Leads, Fresh, ApartFacets;
    forall c | c in released + pinned
      ensures c.facet != axis
    {
      assert c in released ==> IsRelease(c, ids) && c.facet in set a | a in release;
      assert c in pinned ==> IsSet(c, labels, ids);
    }
    OtherAxesKeepTheirs(w, released + pinned, now, facets, manual, axis);
  }
}
