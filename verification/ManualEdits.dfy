/** The editing operations themselves: release some facets, set others, recompute. */
module ManualEdits {
  import opened Filtering
  import opened ManualLabels
  import opened Materializer
  import opened MaterializerTheorems
  import opened Opinions
  import opened Options
  import opened Scoring
  import opened Sorting
  import opened Texts

  /** The rows and decisions stored about a news item. */
  datatype Book = Book(rows: seq<Row>, decisions: seq<Decision>)

  type Facets = map<string, Facet>

  /** The book after the changes, one after another. */
  function Applied(b: Book, changes: seq<Change>, version: Option<int>, facets: Facets): Book
    requires changes != [] ==> version.Some?
    requires forall c | c in changes :: c.facet in facets
  {
    if changes == [] then b
    else
      var n := |changes| - 1;
      var c := changes[n];
      assert forall d | d in changes[..n] :: d in changes;
      Next(Applied(b, changes[..n], version, facets), c, version.value, facets[c.facet], facets)
  }

  /** `now` is `before` with the changes applied. */
  ghost predicate Leads(before: Book, changes: seq<Change>, now: Book, version: Option<int>, facets: Facets) {
    && (changes != [] ==> version.Some?)
    && (forall c | c in changes :: c.facet in facets)
    && now == Applied(before, changes, version, facets)
  }

  function Next(b: Book, c: Change, version: int, facet: Facet, facets: Facets): Book {
    Book(b.rows + RowsOf(c, version, facet), b.decisions + [MadeFrom(c, b.decisions, version, facets)])
  }

  lemma LeadsOn(before: Book, changes: seq<Change>, now: Book, c: Change, version: Option<int>, facets: Facets)
    requires Leads(before, changes, now, version, facets) && version.Some? && c.facet in facets
    ensures Leads(before, changes + [c], Next(now, c, version.value, facets[c.facet], facets), version, facets)
  {
    assert (changes + [c])[..|changes|] == changes;
  }

  lemma LeadsNowhere(before: Book, now: Book, version: Option<int>, facets: Facets)
    requires Leads(before, [], now, version, facets)
    ensures now == before
  {
  }

  /** All changes but the last, and then that one. */
  lemma LeadsLast(before: Book, changes: seq<Change>, now: Book, version: Option<int>, facets: Facets)
    returns (prior: Book)
    requires changes != [] && Leads(before, changes, now, version, facets)
    ensures Leads(before, changes[..|changes| - 1], prior, version, facets)
    ensures var c := changes[|changes| - 1];
            version.Some? && c.facet in facets && now == Next(prior, c, version.value, facets[c.facet], facets)
  {
    hide Next;
    var n := |changes| - 1;
    assert changes[n] in changes;
    assert forall c | c in changes[..n] :: c in changes;
    prior := Applied(before, changes[..n], version, facets);
  }

  lemma {:induction false} LeadsTogether(
    before: Book, changes: seq<Change>, middle: Book, more: seq<Change>, now: Book, version: Option<int>, facets: Facets)
    requires Leads(before, changes, middle, version, facets) && Leads(middle, more, now, version, facets)
    ensures Leads(before, changes + more, now, version, facets)
  {
    hide *;
    if more == [] {
      LeadsNowhere(middle, now, version, facets);
      assert changes + more == changes;
    } else {
      var n := |more| - 1;
      var prior := LeadsLast(middle, more, now, version, facets);
      LeadsTogether(before, changes, middle, more[..n], prior, version, facets);
      assert changes + more == (changes + more[..n]) + [more[n]];
      LeadsOn(before, changes + more[..n], prior, more[n], version, facets);
    }
  }

  predicate ValueKnown(facet: Facet, value: string) {
    value in facet.values && facet.values[value]
  }

  predicate Resolvable(facets: Facets, axis: string, values: seq<string>) {
    && axis in facets && facets[axis].enabled
    && (forall v | v in values :: ValueKnown(facets[axis], v))
    && (facets[axis].multi || |set v | v in values| <= 1)
  }

  /** Values resolve on an enabled facet that has and enables each of them, several
      different ones only where it takes several. */
  lemma ResolvableExactly(facets: Facets, axis: string, values: seq<string>)
    ensures Resolvable(facets, axis, values) <==>
              && axis in facets && facets[axis].enabled
              && (forall v | v in values :: v in facets[axis].values && facets[axis].values[v])
              && (facets[axis].multi || forall v, v' | v in values && v' in values :: v == v')
  {
    var all := set v | v in values;
    if v, v' :| v in values && v' in values && v != v' {
      assert v in all && v' in all;
      assert |all - {v}| == |all| - 1 && v' in all - {v};
    } else if v :| v in values {
      assert all == {v};
    } else {
      assert all == {};
    }
  }

  /** The request the source does not refuse. */
  ghost predicate Acceptable(facets: Facets, version: Option<int>, labels: map<string, seq<string>>, release: seq<string>) {
    && (forall axis | axis in release :: axis !in labels && axis in facets)
    && (forall axis | axis in labels :: Resolvable(facets, axis, labels[axis]))
    && (release != [] || labels != map[] ==> version.Some?)
  }

  ghost predicate ApartFacets(changes: seq<Change>) {
    forall i, j | 0 <= i < j < |changes| :: changes[i].facet != changes[j].facet
  }

  ghost predicate IsRelease(c: Change, ids: map<string, string>) {
    c.action == Release && c.values == [] && c.facet in ids && c.id == ids[c.facet]
  }

  ghost predicate IsSet(c: Change, labels: map<string, seq<string>>, ids: map<string, string>) {
    && c.action == Set && c.facet in ids && c.id == ids[c.facet]
    && c.facet in labels && Distinct(c.values) && forall v :: v in c.values <==> v in labels[c.facet]
  }

  /** The changes release exactly the facets `released`. */
  ghost predicate Releases(changes: seq<Change>, released: set<string>, ids: map<string, string>) {
    && ApartFacets(changes)
    && (forall c | c in changes :: IsRelease(c, ids) && c.facet in released)
    && (forall axis | axis in released :: exists c :: c in changes && c.facet == axis)
  }

  ghost predicate Sets(changes: seq<Change>, labels: map<string, seq<string>>, ids: map<string, string>) {
    && ApartFacets(changes)
    && (forall c | c in changes :: IsSet(c, labels, ids))
    && (forall axis | axis in labels :: exists c :: c in changes && c.facet == axis)
  }

  class LabelStore {
    const facets: Facets
    const version: Option<int>
    var rows: seq<Row>
    var decisions: seq<Decision>

    constructor (facets: Facets, version: Option<int>, rows: seq<Row>, decisions: seq<Decision>)
      ensures this.facets == facets && this.version == version && Contents() == Book(rows, decisions)
    {
      this.facets, this.version, this.rows, this.decisions := facets, version, rows, decisions;
    }

    function Contents(): Book
      reads this
    {
      Book(rows, decisions)
    }

    /** Appends a decision numbered after every earlier one about the facet; refused
        when the news has no current version. */
    method Append(facet: string, action: Action, id: string) returns (decision: Option<Decision>)
      requires facet in facets
      modifies this
      ensures version == None ==> decision == None && Contents() == old(Contents())
      ensures version.Some? ==>
                && decision == Some(MadeFrom(Change(facet, action, [], id), old(decisions), version.value, facets))
                && Contents() == Book(old(rows), old(decisions) + [decision.value])
    {
      if version == None {
        return None;
      }
      var d := Decision(id, version.value, facet, facets[facet].enabled,
                        NextRevision(decisions, version.value, facet), true, action);
      decisions := decisions + [d];
      decision := Some(d);
    }

    method ReleaseFacets(slugs: seq<string>, ids: map<string, string>) returns (ok: bool, ghost changes: seq<Change>)
      requires forall axis | axis in slugs :: axis in ids
      modifies this
      ensures ok <==> slugs == [] || (version.Some? && forall axis | axis in slugs :: axis in facets)
      ensures ok ==> Releases(changes, (set axis | axis in slugs), ids)
      ensures ok ==> Leads(old(Contents()), changes, Contents(), version, facets)
    {
      hide Leads, MadeFrom, Releases, Next;
      changes, ok := [], true;
      NoChanges(Contents(), version, facets);
      NoReleases(ids);
      if slugs == [] {
        assert (set axis | axis in slugs) == {};
        return;
      }
      var wanted := set axis | axis in slugs;
      var known := set axis | axis in slugs && axis in facets;
      SameSize(known, wanted);
      AllKnown(slugs, facets.Keys);
      if |known| != |wanted| {
        ok := false;
        return;
      }
      var left := known;
      assert known - left == {};
      while left != {}
        invariant left <= known && known == wanted && (left != known ==> version.Some?)
        invariant Releases(changes, known - left, ids)
        invariant Leads(old(Contents()), changes, Contents(), version, facets)
      {
        var facet :| facet in left;
        ghost var before := Contents();
        var decision := Append(facet, Release, ids[facet]);
        if decision == None {
          ok := false;
          return;
        }
        ghost var c := Change(facet, Release, [], ids[facet]);
        ReleaseIsNext(before, c, version.value, facets);
        ghost var done := known - left;
        ReleasesMore(changes, done, ids, c);
        LeadsOn(old(Contents()), changes, before, c, version, facets);
        changes := changes + [c];
        left := left - {facet};
        assert known - left == done + {c.facet};
      }
      assert known - left == wanted && slugs[0] in wanted;
    }

    /** The enabled values a set names, each once; None when the source refuses. */
    method Resolve(axis: string, slugs: seq<string>) returns (values: Option<seq<string>>)
      ensures values.Some? <==> Resolvable(facets, axis, slugs)
      ensures values.Some? ==> Distinct(values.value) && forall v :: v in values.value <==> v in slugs
    {
      if axis !in facets || !facets[axis].enabled {
        return None;
      }
      var wanted := set v | v in slugs;
      var known := set v | v in slugs && ValueKnown(facets[axis], v);
      SameSize(known, wanted);
      if |known| != |wanted| {
        assert exists v :: v in wanted && v !in known;
        return None;
      }
      assert forall v | v in slugs :: v in wanted && v in known;
      if !facets[axis].multi && |known| > 1 {
        return None;
      }
      var sorted := SortedSet(known);
      LessOrders();
      values := Some(sorted);
    }

    /** One facet of a set: the decision, and a row for each of its values. */
    method StoreSet(c: Change) returns (ok: bool)
      requires c.action == Set && c.facet in facets
      modifies this
      ensures ok <==> version.Some?
      ensures ok ==> Contents() == Next(old(Contents()), c, version.value, facets[c.facet], facets)
    {
      var decision := Append(c.facet, Set, c.id);
      if decision == None {
        return false;
      }
      for n := 0 to |c.values|
        invariant rows == old(rows) + RowsOf(c, version.value, facets[c.facet])[..n]
        invariant decisions == old(decisions) + [decision.value]
      {
        rows := rows + [Row(version.value, c.facet, facets[c.facet].multi, facets[c.facet].enabled,
                            c.values[n], true, FromEditor, c.id, 1.0)];
      }
      return true;
    }

    method ReplaceLabels(labels: map<string, seq<string>>, ids: map<string, string>)
      returns (ok: bool, ghost changes: seq<Change>)
      requires forall axis | axis in labels :: axis in ids
      modifies this
      ensures ok <==> (forall axis | axis in labels :: Resolvable(facets, axis, labels[axis]))
                      && (labels != map[] ==> version.Some?)
      ensures ok ==> Sets(changes, labels, ids)
      ensures ok ==> Leads(old(Contents()), changes, Contents(), version, facets)
    {
      hide Leads, MadeFrom, Resolvable, Sets, Next, RowsOf;
      changes := [];
      NoChanges(Contents(), version, facets);
      NoSets(labels, ids);
      var resolved: map<string, seq<string>>;
      ok, resolved := ResolveAll(labels);
      if !ok {
        return;
      }
      var left := labels.Keys;
      assert labels.Keys - left == {};
      while left != {}
        invariant ok && left <= labels.Keys && (left != labels.Keys ==> version.Some?)
        invariant Sets(changes, Among(labels, labels.Keys - left), ids)
        invariant Leads(old(Contents()), changes, Contents(), version, facets)
      {
        var axis :| axis in left;
        var c := Change(axis, Set, resolved[axis], ids[axis]);
        ghost var before := Contents();
        ok := StoreSet(c);
        if !ok {
          return;
        }
        ghost var done := labels.Keys - left;
        SetsMore(changes, labels, done, ids, c);
        LeadsOn(old(Contents()), changes, before, c, version, facets);
        changes := changes + [c];
        left := left - {axis};
        assert labels.Keys - left == done + {c.facet};
      }
      AmongAll(labels);
      assert labels.Keys - left == labels.Keys;
    }

    /** Releases some facets, sets others and recomputes, or changes nothing at all: a
        refusal leaves the transaction to be rolled back. */
    method Apply(
      labels: map<string, seq<string>>, release: seq<string>, ids: map<string, string>, news: NewsItem,
      classifiers: seq<Classifier>, attempts: seq<Attempt>, rules: seq<Rule>)
      returns (ok: bool, ghost released: seq<Change>, ghost pinned: seq<Change>)
      requires forall axis | axis in labels || axis in release :: axis in ids
      modifies this, news
      ensures ok <==> Acceptable(facets, version, labels, release)
      ensures !ok ==> Contents() == old(Contents()) && unchanged(news)
      ensures ok ==> Releases(released, (set axis | axis in release), ids) && Sets(pinned, labels, ids)
      ensures ok ==> Leads(old(Contents()), released + pinned, Contents(), version, facets)
      ensures ok ==> news.Holds(OutcomeOf(World(version, rows, classifiers, attempts, decisions, rules), old(news.Manual())))
      ensures ok ==> news.revision == old(news.revision) + 1 && news.visibility == old(news.visibility) + 1
    {
      hide Leads, Releases, Sets, OutcomeOf, Resolvable;
      released, pinned := [], [];
      if labels.Keys * (set axis | axis in release) != {} {
        assert exists axis :: axis in release && axis in labels;
        return false, released, pinned;
      }
      assert forall axis | axis in release :: axis !in labels.Keys * (set axis | axis in release);
      var saved := Contents();
      ok, released := ReleaseFacets(release, ids);
      if ok {
        ghost var middle := Contents();
        ok, pinned := ReplaceLabels(labels, ids);
        if ok {
          LeadsTogether(saved, released, middle, pinned, Contents(), version, facets);
        }
      }
      if !ok {
        rows, decisions := saved.rows, saved.decisions;
        return;
      }
      news.Recompute(World(version, rows, classifiers, attempts, decisions, rules));
    }

    method ResolveAll(labels: map<string, seq<string>>) returns (ok: bool, resolved: map<string, seq<string>>)
      ensures ok <==> forall axis | axis in labels :: Resolvable(facets, axis, labels[axis])
      ensures ok ==> resolved.Keys == labels.Keys && forall axis | axis in labels :: axis in facets
      ensures ok ==> forall axis | axis in labels :: Distinct(resolved[axis]) && forall v :: v in resolved[axis] <==> v in labels[axis]
    {
      ok, resolved := true, map[];
      var left := labels.Keys;
      while left != {}
        invariant left <= labels.Keys && resolved.Keys == labels.Keys - left
        invariant forall axis | axis in resolved ::
          && axis in facets && Resolvable(facets, axis, labels[axis])
          && Distinct(resolved[axis]) && forall v :: v in resolved[axis] <==> v in labels[axis]
      {
        var axis :| axis in left;
        var values := Resolve(axis, labels[axis]);
        if values == None {
          ok := false;
          return;
        }
        resolved := resolved[axis := values.value];
        left := left - {axis};
      }
    }
  }

  function Among(labels: map<string, seq<string>>, axes: set<string>): map<string, seq<string>> {
    map axis | axis in labels && axis in axes :: labels[axis]
  }

  lemma AmongAll(labels: map<string, seq<string>>)
    ensures Among(labels, labels.Keys) == labels
  {
  }

  lemma NoSets(labels: map<string, seq<string>>, ids: map<string, string>)
    ensures Sets([], Among(labels, {}), ids)
  {
  }

  lemma NoReleases(ids: map<string, string>)
    ensures Releases([], {}, ids)
  {
  }

  /** A change without values adds no rows. */
  lemma ReleaseIsNext(b: Book, c: Change, version: int, facets: Facets)
    requires c.values == [] && c.facet in facets
    ensures Next(b, c, version, facets[c.facet], facets) == Book(b.rows, b.decisions + [MadeFrom(c, b.decisions, version, facets)])
  {
    assert b.rows + RowsOf(c, version, facets[c.facet]) == b.rows;
  }

  lemma NoChanges(b: Book, version: Option<int>, facets: Facets)
    ensures Leads(b, [], b, version, facets)
  {
  }

  lemma SetsMore(
    changes: seq<Change>, labels: map<string, seq<string>>, done: set<string>, ids: map<string, string>, c: Change)
    requires Sets(changes, Among(labels, done), ids) && IsSet(c, labels, ids) && c.facet !in done
    ensures Sets(changes + [c], Among(labels, done + {c.facet}), ids)
  {
    forall axis | axis in Among(labels, done + {c.facet})
      ensures exists d :: d in changes + [c] && d.facet == axis
    {
      if axis == c.facet {
        assert c in changes + [c];
      } else {
        assert axis in Among(labels, done);
        var d :| d in changes && d.facet == axis;
        assert d in changes + [c];
      }
    }
    forall d | d in changes
      ensures IsSet(d, Among(labels, done + {c.facet}), ids) && d.facet != c.facet
    {
      assert IsSet(d, Among(labels, done), ids);
    }
    forall i | 0 <= i < |changes|
      ensures changes[i].facet != c.facet
    {
      assert changes[i] in changes;
    }
  }

  lemma AllKnown(slugs: seq<string>, known: set<string>)
    ensures ((set axis | axis in slugs && axis in known) == (set axis | axis in slugs))
              <==> (forall axis | axis in slugs :: axis in known)
  {
    var found, wanted := set axis | axis in slugs && axis in known, set axis | axis in slugs;
    if found == wanted {
      forall axis | axis in slugs
        ensures axis in known
      {
        assert axis in wanted;
      }
    }
  }

  lemma SameSize(known: set<string>, wanted: set<string>)
    requires known <= wanted
    ensures |known| == |wanted| <==> known == wanted
  {
    if known != wanted {
      assert wanted == known + (wanted - known);
    }
  }

  lemma ReleasesMore(changes: seq<Change>, released: set<string>, ids: map<string, string>, c: Change)
    requires Releases(changes, released, ids) && IsRelease(c, ids) && c.facet !in released
    ensures Releases(changes + [c], released + {c.facet}, ids)
  {
    forall axis | axis in released + {c.facet}
      ensures exists d :: d in changes + [c] && d.facet == axis
    {
      if axis == c.facet {
        assert c in changes + [c];
      } else {
        var d :| d in changes && d.facet == axis;
        assert d in changes + [c];
      }
    }
    forall i | 0 <= i < |changes|
      ensures changes[i].facet != c.facet
    {
      assert changes[i] in changes;
    }
  }
}
