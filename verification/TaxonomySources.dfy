/** The labels the file binds to sources, and the patches they ask for. */
module TaxonomySources {
  import opened Options
  import opened Sorting
  import opened Taxonomy
  import opened Texts

  // ---- the labels the file binds to sources ----

  type Binding = map<string, map<string, seq<string>>>

  function Values(b: Binding, source: string, facet: string): seq<string> {
    if source in b && facet in b[source] then b[source][facet] else []
  }

  /** The bindings hold exactly what `named` says, each value once, and nothing empty. */
  ghost predicate Binds(b: Binding, named: (string, string, string) -> bool) {
    && (forall source, facet, value :: value in Values(b, source, facet) <==> named(source, facet, value))
    && (forall source, facet :: Distinct(Values(b, source, facet)))
    && (forall source, facet | source in b && facet in b[source] :: b[source][facet] != [])
  }

  function Bind(b: Binding, source: string, facet: string, value: string): Binding {
    var facets := if source in b then b[source] else map[];
    var values := if facet in facets then facets[facet] else [];
    b[source := facets[facet := if value in values then values else values + [value]]]
  }

  lemma BindAt(b: Binding, source: string, facet: string, value: string, s: string, f: string)
    ensures var b' := Bind(b, source, facet, value);
            && Values(b', s, f) ==
                 (if s == source && f == facet && value !in Values(b, s, f) then Values(b, s, f) + [value] else Values(b, s, f))
            && (s in b' && f in b'[s] ==> (s in b && f in b[s]) || Values(b', s, f) == [value])
  {
  }

  lemma BindAddsAt(b: Binding, named: (string, string, string) -> bool, named': (string, string, string) -> bool,
                   source: string, facet: string, value: string, s: string, f: string)
    requires Binds(b, named)
    requires forall v :: named'(s, f, v) <==> named(s, f, v) || (s == source && f == facet && v == value)
    ensures var b' := Bind(b, source, facet, value);
            && (forall v :: v in Values(b', s, f) <==> named'(s, f, v)) && Distinct(Values(b', s, f))
            && (s in b' && f in b'[s] ==> b'[s][f] != [])
  {
    BindAt(b, source, facet, value, s, f);
    var listed := Values(b, s, f);
    assert (forall v :: v in listed <==> named(s, f, v)) && Distinct(listed);
    hide Bind;
  }

  lemma BindAdds(b: Binding, named: (string, string, string) -> bool, named': (string, string, string) -> bool,
                 source: string, facet: string, value: string)
    requires Binds(b, named)
    requires forall s, f, v :: named'(s, f, v) <==> named(s, f, v) || (s == source && f == facet && v == value)
    ensures Binds(Bind(b, source, facet, value), named')
  {
    hide Bind, Values, Distinct;
    var b' := Bind(b, source, facet, value);
    forall s, f
      ensures forall v :: v in Values(b', s, f) <==> named'(s, f, v)
      ensures Distinct(Values(b', s, f))
      ensures s in b' && f in b'[s] ==> b'[s][f] != []
    {
      BindAddsAt(b, named, named', source, facet, value, s, f);
    }
  }

  function BindKeys(b: Binding, facet: string, value: string, keys: seq<string>): Binding {
    if keys == [] then b else Bind(BindKeys(b, facet, value, keys[..|keys| - 1]), keys[|keys| - 1], facet, value)
  }

  function BindValues(b: Binding, facet: string, values: seq<ValueSpec>): Binding {
    if values == [] then b
    else
      var last := values[|values| - 1];
      BindKeys(BindValues(b, facet, values[..|values| - 1]), facet, last.slug, last.sources)
  }

  function Defaults(desired: seq<FacetSpec>): Binding {
    if desired == [] then map[]
    else
      var last := desired[|desired| - 1];
      BindValues(Defaults(desired[..|desired| - 1]), last.slug, last.values)
  }

  method SourceDefaults(desired: seq<FacetSpec>) returns (wanted: Binding)
    ensures wanted == Defaults(desired)
  {
    wanted := map[];
    for i := 0 to |desired|
      invariant wanted == Defaults(desired[..i])
    {
      var spec := desired[i];
      ghost var before := wanted;
      for j := 0 to |spec.values|
        invariant wanted == BindValues(before, spec.slug, spec.values[..j])
      {
        var value := spec.values[j];
        ghost var middle := wanted;
        for k := 0 to |value.sources|
          invariant wanted == BindKeys(middle, spec.slug, value.slug, value.sources[..k])
        {
          assert value.sources[..k + 1][..k] == value.sources[..k];
          wanted := Bind(wanted, value.sources[k], spec.slug, value.slug);
        }
        assert value.sources[..|value.sources|] == value.sources;
        assert spec.values[..j + 1][..j] == spec.values[..j];
      }
      assert spec.values[..|spec.values|] == spec.values;
      assert desired[..i + 1][..i] == desired[..i];
    }
    assert desired[..|desired|] == desired;
  }

  lemma {:induction false} KeysBind(
    b: Binding, named: (string, string, string) -> bool, named': (string, string, string) -> bool,
    facet: string, value: string, keys: seq<string>)
    requires Binds(b, named)
    requires forall s, f, v :: named'(s, f, v) <==> named(s, f, v) || (f == facet && v == value && s in keys)
    ensures Binds(BindKeys(b, facet, value, keys), named')
  {
    hide Bind, Binds;
    if keys == [] {
      SameNames(b, named, named');
    } else {
      var n := |keys| - 1;
      var most := (s: string, f: string, v: string) => named(s, f, v) || (f == facet && v == value && s in keys[..n]);
      KeysBind(b, named, most, facet, value, keys[..n]);
      assert forall s :: s in keys <==> s in keys[..n] || s == keys[n] by { assert keys == keys[..n] + [keys[n]]; }
      BindAdds(BindKeys(b, facet, value, keys[..n]), most, named', keys[n], facet, value);
    }
  }

  lemma SameNames(b: Binding, named: (string, string, string) -> bool, named': (string, string, string) -> bool)
    requires Binds(b, named) && forall s, f, v :: named'(s, f, v) <==> named(s, f, v)
    ensures Binds(b, named')
  {
  }

  ghost predicate ValueNames(values: seq<ValueSpec>, source: string, value: string) {
    exists j :: 0 <= j < |values| && values[j].slug == value && source in values[j].sources
  }

  lemma ValueNamesMore(values: seq<ValueSpec>, source: string, value: string)
    requires values != []
    ensures var n := |values| - 1;
            ValueNames(values, source, value) <==>
              ValueNames(values[..n], source, value) || (values[n].slug == value && source in values[n].sources)
  {
    var n := |values| - 1;
    if ValueNames(values[..n], source, value) {
      var j :| 0 <= j < n && values[..n][j].slug == value && source in values[..n][j].sources;
      assert values[j].slug == value;
    }
    if ValueNames(values, source, value) {
      var j :| 0 <= j < |values| && values[j].slug == value && source in values[j].sources;
      assert j < n ==> values[..n][j].slug == value;
    }
  }

  lemma {:induction false} ValuesBind(
    b: Binding, named: (string, string, string) -> bool, named': (string, string, string) -> bool,
    facet: string, values: seq<ValueSpec>)
    requires Binds(b, named)
    requires forall s, f, v :: named'(s, f, v) <==> named(s, f, v) || (f == facet && ValueNames(values, s, v))
    ensures Binds(BindValues(b, facet, values), named')
  {
    hide Binds, ValueNames;
    if values == [] {
      assert forall s, v :: !ValueNames([], s, v) by { NoValueNames(); }
      SameNames(b, named, named');
    } else {
      var n := |values| - 1;
      ghost var most := (s: string, f: string, v: string) => named(s, f, v) || (f == facet && ValueNames(values[..n], s, v));
      ValuesBind(b, named, most, facet, values[..n]);
      forall s, v {
        ValueNamesMore(values, s, v);
      }
      KeysBind(BindValues(b, facet, values[..n]), most, named', facet, values[n].slug, values[n].sources);
    }
  }

  lemma NoValueNames()
    ensures forall s, v :: !ValueNames([], s, v)
  {
  }

  ghost predicate FacetNames(desired: seq<FacetSpec>, source: string, facet: string, value: string) {
    exists i :: 0 <= i < |desired| && desired[i].slug == facet && ValueNames(desired[i].values, source, value)
  }

  lemma FacetNamesMore(desired: seq<FacetSpec>, source: string, facet: string, value: string)
    requires desired != []
    ensures var n := |desired| - 1;
            FacetNames(desired, source, facet, value) <==>
              || FacetNames(desired[..n], source, facet, value)
              || (desired[n].slug == facet && ValueNames(desired[n].values, source, value))
  {
    hide ValueNames;
    var n := |desired| - 1;
    if FacetNames(desired[..n], source, facet, value) {
      var i :| 0 <= i < n && desired[..n][i].slug == facet && ValueNames(desired[..n][i].values, source, value);
      assert desired[i].slug == facet;
    }
    if FacetNames(desired, source, facet, value) {
      var i :| 0 <= i < |desired| && desired[i].slug == facet && ValueNames(desired[i].values, source, value);
      assert i < n ==> desired[..n][i].slug == facet;
    }
  }

  /** A source is bound to exactly the values of the file that name it, each once, and
      to no facet without one. */
  lemma {:induction false} DefaultsAreNamed(desired: seq<FacetSpec>)
    ensures Binds(Defaults(desired), (s, f, v) => FacetNames(desired, s, f, v))
  {
    ghost var named := (s: string, f: string, v: string) => FacetNames(desired, s, f, v);
    if desired != [] {
      var n := |desired| - 1;
      ghost var most := (s: string, f: string, v: string) => FacetNames(desired[..n], s, f, v);
      DefaultsAreNamed(desired[..n]);
      SameNames(Defaults(desired[..n]), (s, f, v) => FacetNames(desired[..n], s, f, v), most);
      hide Binds, FacetNames, ValueNames;
      forall s, f, v {
        FacetNamesMore(desired, s, f, v);
      }
      ValuesBind(Defaults(desired[..n]), most, named, desired[n].slug, desired[n].values);
      SameNames(Defaults(desired), named, (s, f, v) => FacetNames(desired, s, f, v));
    }
  }

  /** After the first keys: the patches of `target` among them, and the keys not `known`. */
  ghost predicate Planned(
    target: map<string, Dict>, known: set<string>, keys: seq<string>, patches: map<string, Dict>, missing: seq<string>)
  {
    && (forall s :: s in patches <==> s in keys && s in target)
    && (forall s | s in patches :: patches[s] == target[s])
    && Strict(Less, missing) && forall s :: s in missing <==> s in keys && s !in known
  }

  lemma NonePlanned(target: map<string, Dict>, known: set<string>)
    ensures Planned(target, known, [], map[], [])
  {
  }

  lemma PlannedMore(
    target: map<string, Dict>, known: set<string>, keys: seq<string>, key: string, patches: map<string, Dict>, missing: seq<string>)
    requires Planned(target, known, keys, patches, missing)
    requires forall s | s in keys :: Less(s, key) && s != key
    ensures Planned(target, known, keys + [key],
              if key in target then patches[key := target[key]] else patches,
              if key in known then missing else missing + [key])
  {
    hide Less;
    assert forall s | s in missing :: Less(s, key);
    StrictSnoc(Less, missing, key);
  }

  lemma AllPlanned(
    target: map<string, Dict>, known: set<string>, keys: seq<string>, patches: map<string, Dict>, missing: seq<string>)
    requires Planned(target, known, keys, patches, missing) && forall s | s in target :: s in keys
    ensures patches == target
    ensures Strict(Less, missing) && forall s :: s in missing <==> s in keys && s !in known
  {
    assert forall s | s in target :: s in patches;
  }

  lemma SourcePatchOf(sources: map<string, Dict>, wanted: Binding, s: string)
    ensures s in SourcePatches(sources, wanted) <==>
              s in wanted && s in sources && !Agrees(Bound(sources[s]), wanted[s])
    ensures s in SourcePatches(sources, wanted) ==>
              SourcePatches(sources, wanted)[s] ==
                Payload(sources[s], Fields(SourceItem), map[DefaultLabels := Labels(Bound(sources[s]) + wanted[s])])
  {
    hide Agrees, Payload, Bound;
  }

  /** The lists agree whatever their order, but not if one repeats what the other does not. */
  lemma AgreesExactly(labels: map<string, seq<string>>, facets: map<string, seq<string>>)
    ensures Agrees(labels, facets) <==>
              forall facet | facet in facets :: multiset(Listed(labels, facet)) == multiset(facets[facet])
  {
    forall facet | facet in facets
      ensures InOrder(Listed(labels, facet)) == InOrder(facets[facet])
         <==> multiset(Listed(labels, facet)) == multiset(facets[facet])
    {
      SameInOrder(Listed(labels, facet), facets[facet]);
    }
    hide InOrder, Listed;
  }

  lemma SameInOrder(xs: seq<string>, ys: seq<string>)
    ensures InOrder(xs) == InOrder(ys) <==> multiset(xs) == multiset(ys)
  {
    SortPermutes(Leq, xs);
    SortPermutes(Leq, ys);
    LessOrders();
    if multiset(xs) == multiset(ys) {
      SortForgetsOrder(Leq, xs, ys);
    }
  }

  method PlanSources(sources: map<string, Dict>, wanted: Binding) returns (patches: map<string, Dict>, missing: seq<string>)
    ensures patches == SourcePatches(sources, wanted)
    ensures Strict(Less, missing) && forall s :: s in missing <==> s in wanted && s !in sources
  {
    hide SourcePatches, Agrees, Payload, Bound, Planned;
    ghost var target := SourcePatches(sources, wanted);
    patches, missing := map[], [];
    var keys := SortedSet(wanted.Keys);
    NonePlanned(target, sources.Keys);
    for n := 0 to |keys|
      invariant Planned(target, sources.Keys, keys[..n], patches, missing)
    {
      var key := keys[n];
      assert keys[..n + 1] == keys[..n] + [key];
      assert key in keys && key in wanted;
      LessBefore(keys, n);
      SourcePatchOf(sources, wanted, key);
      PlannedMore(target, sources.Keys, keys[..n], key, patches, missing);
      if key !in sources {
        missing := missing + [key];
        continue;
      }
      var labels := Bound(sources[key]);
      if Agrees(labels, wanted[key]) {
        continue;
      }
      patches := patches[key := Payload(sources[key], Fields(SourceItem), map[DefaultLabels := Labels(labels + wanted[key])])];
    }
    assert keys[..|keys|] == keys;
    forall s | s in target
      ensures s in keys
    {
      SourcePatchOf(sources, wanted, s);
    }
    AllPlanned(target, sources.Keys, keys, patches, missing);
  }

  lemma LessBefore(keys: seq<string>, n: nat)
    requires n < |keys| && Strict(Less, keys)
    ensures forall s | s in keys[..n] :: Less(s, keys[n]) && s != keys[n]
  {
    LessTrichotomy(keys[n], keys[n]);
  }
}
