/** Applying a plan, and why planning again finds nothing to do. */
module TaxonomyFixedPoint {
  import opened Options
  import opened Sorting
  import opened Taxonomy
  import opened TaxonomySources
  import opened Texts

  /** The store after a plan went through. */
  function Applied(s: Store, plan: Plan, deactivate: bool): Store {
    var facets := s.facets + Wired(FacetItem, plan.createFacets) + Wired(FacetItem, plan.patchFacets);
    var values := s.values + Wired(ValueItem, plan.createValues) + Wired(ValueItem, plan.patchValues);
    Store(if deactivate then facets + Wired(FacetItem, plan.dropFacets) else facets,
          if deactivate then values + Wired(ValueItem, plan.dropValues) else values,
          s.sources + Wired(SourceItem, plan.patchSources))
  }

  /** No create lacks the title the wire demands. */
  ghost predicate Complete(plan: Plan) {
    && (forall s | s in plan.createFacets :: Wire(FacetItem, plan.createFacets[s]).Some?)
    && (forall k | k in plan.createValues :: Wire(ValueItem, plan.createValues[k]).Some?)
  }

  function Drops<K>(drops: map<K, Dict>, deactivate: bool): map<K, Dict> {
    if deactivate then drops else map[]
  }

  /** No request of the plan is refused when its turn comes. */
  ghost predicate GoesThrough(s: Store, plan: Plan, deactivate: bool, policy: Dict -> bool) {
    var facets := s.facets + Wired(FacetItem, plan.createFacets);
    var values := s.values + Wired(ValueItem, plan.createValues);
    && AllCreate(FacetItem, s.facets, plan.createFacets, policy)
    && AllCreate(ValueItem, s.values, plan.createValues, policy)
    && AllPatch(FacetItem, facets, plan.patchFacets, policy)
    && AllPatch(ValueItem, values, plan.patchValues, policy)
    && (deactivate ==>
          && AllPatch(ValueItem, values + Wired(ValueItem, plan.patchValues), plan.dropValues, policy)
          && AllPatch(FacetItem, facets + Wired(FacetItem, plan.patchFacets), plan.dropFacets, policy))
    && AllPatch(SourceItem, s.sources, plan.patchSources, policy)
  }

  /** Nothing is lost, and what differs from before is what a request of the plan carries. */
  ghost predicate Underway<K(!new)>(
    item: Item, table: map<K, Dict>, creates: map<K, Dict>, patches: map<K, Dict>, drops: map<K, Dict>,
    after: map<K, Dict>)
  {
    && (forall k | k in table :: k in after)
    && forall k | k in after ::
         || (k in table && after[k] == table[k])
         || Sent(item, creates, k, after[k]) || Sent(item, patches, k, after[k]) || Sent(item, drops, k, after[k])
  }

  ghost predicate StoreUnderway(s: Store, plan: Plan, deactivate: bool, after: Store) {
    && Underway(FacetItem, s.facets, plan.createFacets, plan.patchFacets, Drops(plan.dropFacets, deactivate), after.facets)
    && Underway(ValueItem, s.values, plan.createValues, plan.patchValues, Drops(plan.dropValues, deactivate), after.values)
    && Underway(SourceItem, s.sources, map[], plan.patchSources, map[], after.sources)
  }

  lemma UnderwayStarts<K(!new)>(
    item: Item, table: map<K, Dict>, creates: map<K, Dict>, patches: map<K, Dict>, drops: map<K, Dict>)
    ensures Underway(item, table, creates, patches, drops, table)
  {
  }

  lemma UnderwayMore<K(!new)>(
    item: Item, table: map<K, Dict>, creates: map<K, Dict>, patches: map<K, Dict>, drops: map<K, Dict>,
    mid: map<K, Dict>, payloads: map<K, Dict>, after: map<K, Dict>)
    requires Underway(item, table, creates, patches, drops, mid) && Partly(item, mid, payloads, after)
    requires payloads == creates || payloads == patches || payloads == drops
    ensures Underway(item, table, creates, patches, drops, after)
  {
    hide Sent;
  }

  /** The server behind the requests. */
  class Server {
    var facets: map<string, Dict>
    var values: map<Key, Dict>
    var sources: map<string, Dict>
    const policy: Dict -> bool

    constructor (store: Store, policy: Dict -> bool)
      ensures Contents() == store && this.policy == policy
    {
      facets, values, sources := store.facets, store.values, store.sources;
      this.policy := policy;
    }

    function Contents(): Store
      reads this
    {
      Store(facets, values, sources)
    }

    /** Sends the whole plan, creates first; stops at the first request that is refused,
        with what was sent by then in place. */
    method Apply(plan: Plan, deactivate: bool) returns (ok: bool)
      modifies this
      ensures ok <==> GoesThrough(old(Contents()), plan, deactivate, policy)
      ensures ok ==> Contents() == Applied(old(Contents()), plan, deactivate) && Complete(plan)
      ensures StoreUnderway(old(Contents()), plan, deactivate, Contents())
    {
      hide Wired, AllPatch, AllCreate, Partly, Underway, Complete;
      ghost var s := Contents();
      ghost var dropFacets, dropValues := Drops(plan.dropFacets, deactivate), Drops(plan.dropValues, deactivate);
      UnderwayStarts(FacetItem, facets, plan.createFacets, plan.patchFacets, dropFacets);
      UnderwayStarts(ValueItem, values, plan.createValues, plan.patchValues, dropValues);
      UnderwayStarts(SourceItem, sources, map[], plan.patchSources, map[]);
      ghost var was := facets;
      ok, facets := CreateAll(FacetItem, facets, plan.createFacets, policy);
      UnderwayMore(FacetItem, s.facets, plan.createFacets, plan.patchFacets, dropFacets, was, plan.createFacets, facets);
      if !ok {
        return;
      }
      ok, values := CreateAll(ValueItem, values, plan.createValues, policy);
      UnderwayMore(ValueItem, s.values, plan.createValues, plan.patchValues, dropValues, s.values, plan.createValues, values);
      if !ok {
        return;
      }
      was := facets;
      ok, facets := PatchAll(FacetItem, facets, plan.patchFacets, policy);
      UnderwayMore(FacetItem, s.facets, plan.createFacets, plan.patchFacets, dropFacets, was, plan.patchFacets, facets);
      if !ok {
        return;
      }
      ghost var were := values;
      ok, values := PatchAll(ValueItem, values, plan.patchValues, policy);
      UnderwayMore(ValueItem, s.values, plan.createValues, plan.patchValues, dropValues, were, plan.patchValues, values);
      if !ok {
        return;
      }
      if deactivate {
        were := values;
        ok, values := PatchAll(ValueItem, values, plan.dropValues, policy);
        UnderwayMore(ValueItem, s.values, plan.createValues, plan.patchValues, dropValues, were, dropValues, values);
        if !ok {
          return;
        }
        was := facets;
        ok, facets := PatchAll(FacetItem, facets, plan.dropFacets, policy);
        UnderwayMore(FacetItem, s.facets, plan.createFacets, plan.patchFacets, dropFacets, was, dropFacets, facets);
        if !ok {
          return;
        }
      }
      ok, sources := PatchAll(SourceItem, sources, plan.patchSources, policy);
      UnderwayMore(SourceItem, s.sources, map[], plan.patchSources, map[], s.sources, plan.patchSources, sources);
      assert ok ==> Complete(plan) by { CreatesAreComplete(s, plan, policy); }
    }
  }

  lemma CreatesAreComplete(s: Store, plan: Plan, policy: Dict -> bool)
    requires AllCreate(FacetItem, s.facets, plan.createFacets, policy)
    requires AllCreate(ValueItem, s.values, plan.createValues, policy)
    ensures Complete(plan)
  {
    hide Wire, Accepts;
  }

  // ---- one object there and back ----

  /** A patch loses nothing on its way: the stored object comes back as it was, with the
      changes and nothing else. */
  lemma PatchKeepsTheRest(item: Item, slug: string, existing: Dict, changes: Dict)
    requires Stored(item, slug, existing) && changes.Keys <= Fields(item) - {Slug}
    ensures WireOf(item, Payload(existing, Fields(item), changes)) == existing + changes
  {
    assert Slug in existing && Title in existing;
    hide Fields, Default;
    var payload := Payload(existing, Fields(item), changes);
    forall f | f in Fields(item)
      ensures (if f in payload then payload[f] else Default(item, f)) == (existing + changes)[f]
    {
      if f !in payload {
        assert existing[f] == Null;
        NullByDefault(item, f);
      }
    }
    WireIs(item, payload, existing + changes);
  }

  lemma NullByDefault(item: Item, f: Field)
    ensures Nullable(f) ==> Default(item, f) == Null
  {
  }

  lemma WireIs(item: Item, payload: Dict, target: Dict)
    requires Slug in payload && Title in payload && target.Keys == Fields(item)
    requires forall f | f in Fields(item) :: (if f in payload then payload[f] else Default(item, f)) == target[f]
    ensures WireOf(item, payload) == target
  {
    hide Fields, Default;
  }

  lemma DiffFields(item: Item, existing: Dict, desired: Dict)
    ensures Diff(existing, desired, Compared(item)).Keys <= Fields(item) - {Slug}
  {
  }

  /** Once the differences are in place there are none left. */
  lemma NoDiffLeft(item: Item, slug: string, existing: Dict, desired: Dict)
    requires Stored(item, slug, existing)
    ensures !NeedsPatch(item, existing + Diff(existing, desired, Compared(item)), desired)
    ensures WireOf(item, PatchOf(item, existing, desired)) == existing + Diff(existing, desired, Compared(item))
  {
    DiffFields(item, existing, desired);
    PatchKeepsTheRest(item, slug, existing, Diff(existing, desired, Compared(item)));
    var after := existing + Diff(existing, desired, Compared(item));
    assert Diff(after, desired, Compared(item)) == map[];
  }

  /** Nor after a create, whatever the file leaves out. */
  lemma NoDiffAfterCreate(item: Item, slug: string, desired: Dict)
    requires item != SourceItem && Wire(item, CreatePayload(item, slug, desired)).Some?
    ensures !NeedsPatch(item, WireOf(item, CreatePayload(item, slug, desired)), desired)
    ensures WireOf(item, CreatePayload(item, slug, desired)).Keys == Fields(item)
  {
    var wire := WireOf(item, CreatePayload(item, slug, desired));
    forall f | f in Compared(item) && f in desired
      ensures Get(wire, f) == desired[f]
    {
      assert f in Fields(item);
    }
    assert Diff(wire, desired, Compared(item)) == map[];
  }

  lemma RetiredIsInactive(item: Item, slug: string, existing: Dict)
    requires Stored(item, slug, existing)
    ensures WireOf(item, Retired(item, existing)) == existing[Active := Flag(false)]
  {
    assert (map[Active := Flag(false)]).Keys <= Fields(item) - {Slug};
    hide WireOf, Payload, Stored, Fields;
    PatchKeepsTheRest(item, slug, existing, map[Active := Flag(false)]);
    assert existing + map[Active := Flag(false)] == existing[Active := Flag(false)];
  }

  // ---- one table ----

  ghost predicate TableStored<K(!new)>(item: Item, table: map<K, Dict>, slug: K -> string) {
    forall k | k in table :: Stored(item, slug(k), table[k])
  }

  function Settled<K>(item: Item, table: map<K, Dict>, wanted: map<K, Dict>, slug: K -> string, drops: map<K, Dict>): map<K, Dict> {
    table + Wired(item, Created(item, wanted, table, slug)) + Wired(item, Patched(item, wanted, table)) + Wired(item, drops)
  }

  lemma SettledAt<K(!new)>(
    item: Item, table: map<K, Dict>, wanted: map<K, Dict>, slug: K -> string, drops: map<K, Dict>, k: K)
    ensures var after := Settled(item, table, wanted, slug, drops);
            var created, patched := Created(item, wanted, table, slug), Patched(item, wanted, table);
            && (k in after <==> k in table || k in created || k in patched || k in drops)
            && (k in after ==>
                  after[k] == if k in drops then WireOf(item, drops[k])
                              else if k in patched then WireOf(item, patched[k])
                              else if k in created then WireOf(item, created[k])
                              else table[k])
  {
    hide Created, Patched, WireOf;
  }

  /** What the file mentions agrees with it and is otherwise as it was; what it does not
      mention is as it was unless it is dropped. */
  lemma TableSettles<K(!new)>(
    item: Item, table: map<K, Dict>, wanted: map<K, Dict>, slug: K -> string, drops: map<K, Dict>, k: K)
    requires item != SourceItem && TableStored(item, table, slug)
    requires k in wanted ==> k !in drops
    requires forall i | i in Created(item, wanted, table, slug) :: Wire(item, Created(item, wanted, table, slug)[i]).Some?
    ensures var after := Settled(item, table, wanted, slug, drops);
            && (k in wanted ==> k in after && !NeedsPatch(item, after[k], wanted[k]))
            && (k in wanted && k in table ==> after[k] == table[k] + Diff(table[k], wanted[k], Compared(item)))
            && (k !in wanted ==>
                  && (k in after <==> k in table || k in drops)
                  && (k in after ==> after[k] == if k in drops then WireOf(item, drops[k]) else table[k]))
  {
    SettledAt(item, table, wanted, slug, drops, k);
    hide Settled, NeedsPatch, PatchOf, Stored, Wire, WireOf, CreatePayload, Compared, Diff;
    if k in wanted {
      if k in table {
        NoDiffLeft(item, slug(k), table[k], wanted[k]);
        Unneeded(item, table[k], wanted[k]);
      } else {
        assert Created(item, wanted, table, slug)[k] == CreatePayload(item, slug(k), wanted[k]);
        NoDiffAfterCreate(item, slug(k), wanted[k]);
      }
    }
  }

  lemma Unneeded(item: Item, existing: Dict, desired: Dict)
    ensures !NeedsPatch(item, existing, desired) ==> existing + Diff(existing, desired, Compared(item)) == existing
  {
  }

  /** Nothing is left to create or patch in a table that has settled. */
  lemma SettledNeedsNothing<K(!new)>(
    item: Item, table: map<K, Dict>, wanted: map<K, Dict>, slug: K -> string, drops: map<K, Dict>)
    requires item != SourceItem && TableStored(item, table, slug)
    requires forall k | k in wanted :: k !in drops
    requires forall i | i in Created(item, wanted, table, slug) :: Wire(item, Created(item, wanted, table, slug)[i]).Some?
    ensures Created(item, wanted, Settled(item, table, wanted, slug, drops), slug) == map[]
    ensures Patched(item, wanted, Settled(item, table, wanted, slug, drops)) == map[]
  {
    var after := Settled(item, table, wanted, slug, drops);
    hide Settled, NeedsPatch, PatchOf, CreatePayload, Wire, TableStored;
    forall k | k in wanted
      ensures k in after && !NeedsPatch(item, after[k], wanted[k])
    {
      TableSettles(item, table, wanted, slug, drops, k);
    }
    assert Created(item, wanted, after, slug).Keys == {};
    assert Patched(item, wanted, after).Keys == {};
  }

  // ---- the whole store ----

  lemma AppliedTables(store: Store, desired: seq<FacetSpec>, wanted: Binding, deactivate: bool)
    ensures var plan := PlanOf(store, desired, wanted);
            var after := Applied(store, plan, deactivate);
            && after.facets == Settled(FacetItem, store.facets, FacetsOf(desired), Whole(), Drops(plan.dropFacets, deactivate))
            && after.values == Settled(ValueItem, store.values, ValuesOf(desired), Second(), Drops(plan.dropValues, deactivate))
            && after.sources == store.sources + Wired(SourceItem, SourcePatches(store.sources, wanted))
  {
    hide Created, Patched, SourcePatches, FacetsOf, ValuesOf, LeftOutFacets, LeftOutValues, Wired;
    var plan := PlanOf(store, desired, wanted);
    WiresNothing(FacetItem, store.facets + Wired(FacetItem, plan.createFacets) + Wired(FacetItem, plan.patchFacets));
    WiresNothing(ValueItem, store.values + Wired(ValueItem, plan.createValues) + Wired(ValueItem, plan.patchValues));
  }

  lemma WiresNothing<K(!new)>(item: Item, table: map<K, Dict>)
    ensures table + Wired(item, map[]) == table
  {
  }

  lemma NoFacetLeftOut(store: Store, desired: seq<FacetSpec>, wanted: Binding)
    requires WellStored(store) && Complete(PlanOf(store, desired, wanted))
    ensures LeftOutFacets(Applied(store, PlanOf(store, desired, wanted), true), desired) == map[]
  {
    var after := Applied(store, PlanOf(store, desired, wanted), true);
    hide Applied, FacetsOf, PlanOf, Stored, Complete;
    forall s | s in after.facets && s !in FacetsOf(desired)
      ensures !IsActive(after.facets[s])
    {
      FacetOutside(store, desired, wanted, s);
    }
    assert LeftOutFacets(after, desired).Keys == {};
  }

  lemma FacetOutside(store: Store, desired: seq<FacetSpec>, wanted: Binding, s: string)
    requires WellStored(store) && Complete(PlanOf(store, desired, wanted)) && s !in FacetsOf(desired)
    ensures var after := Applied(store, PlanOf(store, desired, wanted), true);
            s in after.facets ==> !IsActive(after.facets[s])
  {
    var plan := PlanOf(store, desired, wanted);
    AppliedTables(store, desired, wanted, true);
    hide Applied, Settled, FacetsOf, ValuesOf, Created, Patched, Wire, Stored, Retired, SourcePatches;
    TableSettles(FacetItem, store.facets, FacetsOf(desired), Whole(), plan.dropFacets, s);
    if s in plan.dropFacets {
      RetiredIsInactive(FacetItem, s, store.facets[s]);
    }
  }

  lemma NoValueLeftOut(store: Store, desired: seq<FacetSpec>, wanted: Binding)
    requires WellStored(store) && Complete(PlanOf(store, desired, wanted))
    ensures LeftOutValues(Applied(store, PlanOf(store, desired, wanted), true), desired) == map[]
  {
    var after := Applied(store, PlanOf(store, desired, wanted), true);
    hide Applied, FacetsOf, ValuesOf, PlanOf, Stored, Complete;
    forall k | k in after.values && k !in ValuesOf(desired) && k.0 in FacetsOf(desired)
      ensures !IsActive(after.values[k])
    {
      ValueOutside(store, desired, wanted, k);
    }
    assert LeftOutValues(after, desired).Keys == {};
  }

  lemma ValueOutside(store: Store, desired: seq<FacetSpec>, wanted: Binding, k: Key)
    requires WellStored(store) && Complete(PlanOf(store, desired, wanted))
    requires k !in ValuesOf(desired) && k.0 in FacetsOf(desired)
    ensures var after := Applied(store, PlanOf(store, desired, wanted), true);
            k in after.values ==> !IsActive(after.values[k])
  {
    var plan := PlanOf(store, desired, wanted);
    AppliedTables(store, desired, wanted, true);
    hide Applied, Settled, FacetsOf, ValuesOf, Created, Patched, Wire, Stored, Retired, SourcePatches;
    TableSettles(ValueItem, store.values, ValuesOf(desired), Second(), plan.dropValues, k);
    if k in plan.dropValues {
      RetiredIsInactive(ValueItem, k.1, store.values[k]);
    }
  }

  lemma UpdatedAgrees(labels: map<string, seq<string>>, facets: map<string, seq<string>>)
    ensures Agrees(labels + facets, facets)
  {
    hide InOrder;
  }

  lemma PatchedSource(slug: string, source: Dict, labels: map<string, seq<string>>)
    requires Stored(SourceItem, slug, source)
    ensures WireOf(SourceItem, Payload(source, Fields(SourceItem), map[DefaultLabels := Labels(labels)]))
         == source[DefaultLabels := Labels(labels)]
    ensures Bound(source[DefaultLabels := Labels(labels)]) == labels
  {
    assert (map[DefaultLabels := Labels(labels)]).Keys <= Fields(SourceItem) - {Slug};
    hide WireOf, Payload, Stored, Fields;
    PatchKeepsTheRest(SourceItem, slug, source, map[DefaultLabels := Labels(labels)]);
    assert source + map[DefaultLabels := Labels(labels)] == source[DefaultLabels := Labels(labels)];
  }

  lemma WiredAt<K(!new)>(item: Item, table: map<K, Dict>, payloads: map<K, Dict>, k: K)
    ensures var after := table + Wired(item, payloads);
            && (k in after <==> k in table || k in payloads)
            && (k in after ==> after[k] == if k in payloads then WireOf(item, payloads[k]) else table[k])
  {
    hide WireOf;
  }

  lemma SourceSettles(sources: map<string, Dict>, wanted: Binding, s: string)
    requires s in sources && Stored(SourceItem, s, sources[s])
    ensures var after := sources + Wired(SourceItem, SourcePatches(sources, wanted));
            && s in after
            && after[s] == (if s in SourcePatches(sources, wanted) then
                              sources[s][DefaultLabels := Labels(Bound(sources[s]) + wanted[s])]
                            else sources[s])
            && (s in wanted ==> Agrees(Bound(after[s]), wanted[s]))
  {
    hide SourcePatches, WireOf, Wired, Stored, Payload, Agrees, Bound, Fields;
    SourcePatchOf(sources, wanted, s);
    WiredAt(SourceItem, sources, SourcePatches(sources, wanted), s);
    if s in wanted {
      PatchedSource(s, sources[s], Bound(sources[s]) + wanted[s]);
      UpdatedAgrees(Bound(sources[s]), wanted[s]);
    }
  }

  /** The fixed point: once a plan went through, planning again for the same file and the
      same flag finds no work. */
  lemma PlanningAgainFindsNothing(store: Store, desired: seq<FacetSpec>, wanted: Binding, deactivate: bool)
    requires WellStored(store) && Complete(PlanOf(store, desired, wanted))
    ensures NoWork(PlanOf(Applied(store, PlanOf(store, desired, wanted), deactivate), desired, wanted), deactivate)
  {
    var plan := PlanOf(store, desired, wanted);
    var after := Applied(store, plan, deactivate);
    AppliedTables(store, desired, wanted, deactivate);
    if deactivate {
      NoFacetLeftOut(store, desired, wanted);
      NoValueLeftOut(store, desired, wanted);
    }
    var facets, values := FacetsOf(desired), ValuesOf(desired);
    hide Applied, Settled, FacetsOf, ValuesOf, Created, Patched, Wire, Stored, Retired;
    SettledNeedsNothing(FacetItem, store.facets, facets, Whole(), Drops(plan.dropFacets, deactivate));
    SettledNeedsNothing(ValueItem, store.values, values, Second(), Drops(plan.dropValues, deactivate));
    NoSourceLeft(store.sources, wanted);
  }

  lemma NoSourceLeft(sources: map<string, Dict>, wanted: Binding)
    requires forall s | s in sources :: Stored(SourceItem, s, sources[s])
    ensures SourcePatches(sources + Wired(SourceItem, SourcePatches(sources, wanted)), wanted) == map[]
  {
    hide Stored, WireOf, Agrees, Payload;
    var after := sources + Wired(SourceItem, SourcePatches(sources, wanted));
    forall s | s in wanted && s in after
      ensures Agrees(Bound(after[s]), wanted[s])
    {
      SourceSettles(sources, wanted, s);
    }
    assert SourcePatches(after, wanted).Keys == {};
  }

  /** A facet of the file takes its differences; another stays as it was, save that it
      goes inactive when that is asked. */
  function FacetKept(store: Store, desired: seq<FacetSpec>, deactivate: bool, s: string): Dict
    requires s in store.facets
  {
    var facets, before := FacetsOf(desired), store.facets[s];
    if s in facets then before + Diff(before, facets[s], Compared(FacetItem))
    else if deactivate && IsActive(before) then before[Active := Flag(false)] else before
  }

  /** So with values, where only those of the file's facets are ever deactivated. */
  function ValueKept(store: Store, desired: seq<FacetSpec>, deactivate: bool, k: Key): Dict
    requires k in store.values
  {
    var values, before := ValuesOf(desired), store.values[k];
    if k in values then before + Diff(before, values[k], Compared(ValueItem))
    else if deactivate && k.0 in FacetsOf(desired) && IsActive(before) then before[Active := Flag(false)] else before
  }

  /** A source keeps every other field, and the labels of facets it is not bound on. */
  ghost predicate SourceKept(before: Dict, after: Dict, bound: map<string, seq<string>>) {
    && (forall f | f in before && f != DefaultLabels :: f in after && after[f] == before[f])
    && forall facet | facet !in bound :: Listed(Bound(after), facet) == Listed(Bound(before), facet)
  }

  lemma FacetIsKept(store: Store, desired: seq<FacetSpec>, wanted: Binding, deactivate: bool, s: string)
    requires WellStored(store) && Complete(PlanOf(store, desired, wanted)) && s in store.facets
    ensures var after := Applied(store, PlanOf(store, desired, wanted), deactivate);
            s in after.facets && after.facets[s] == FacetKept(store, desired, deactivate, s)
  {
    var plan := PlanOf(store, desired, wanted);
    AppliedTables(store, desired, wanted, deactivate);
    hide Applied, Settled, FacetsOf, ValuesOf, Created, Patched, Wire, Stored, Retired, Diff, SourcePatches;
    TableSettles(FacetItem, store.facets, FacetsOf(desired), Whole(), Drops(plan.dropFacets, deactivate), s);
    RetiredIsInactive(FacetItem, s, store.facets[s]);
  }

  lemma ValueIsKept(store: Store, desired: seq<FacetSpec>, wanted: Binding, deactivate: bool, k: Key)
    requires WellStored(store) && Complete(PlanOf(store, desired, wanted)) && k in store.values
    ensures var after := Applied(store, PlanOf(store, desired, wanted), deactivate);
            k in after.values && after.values[k] == ValueKept(store, desired, deactivate, k)
  {
    var plan := PlanOf(store, desired, wanted);
    AppliedTables(store, desired, wanted, deactivate);
    hide Applied, Settled, FacetsOf, ValuesOf, Created, Patched, Wire, Stored, Retired, Diff, SourcePatches;
    TableSettles(ValueItem, store.values, ValuesOf(desired), Second(), Drops(plan.dropValues, deactivate), k);
    RetiredIsInactive(ValueItem, k.1, store.values[k]);
  }

  /** Nothing the file does not mention loses its contents: facets, values and the
      labels of other facets stay, apart from deactivation when asked, and of what the
      file does mention only the differences change. */
  lemma TheRestIsKept(store: Store, desired: seq<FacetSpec>, wanted: Binding, deactivate: bool)
    requires WellStored(store) && Complete(PlanOf(store, desired, wanted))
    ensures var after := Applied(store, PlanOf(store, desired, wanted), deactivate);
            && (forall s | s in store.facets ::
                  s in after.facets && after.facets[s] == FacetKept(store, desired, deactivate, s))
            && (forall k | k in store.values ::
                  k in after.values && after.values[k] == ValueKept(store, desired, deactivate, k))
            && (forall s | s in store.sources ::
                  s in after.sources
                  && SourceKept(store.sources[s], after.sources[s], if s in wanted then wanted[s] else map[]))
  {
    hide Applied, PlanOf, FacetKept, ValueKept, SourceKept, Complete, WellStored;
    var after := Applied(store, PlanOf(store, desired, wanted), deactivate);
    forall s | s in store.facets
      ensures s in after.facets && after.facets[s] == FacetKept(store, desired, deactivate, s)
    {
      FacetIsKept(store, desired, wanted, deactivate, s);
    }
    forall k | k in store.values
      ensures k in after.values && after.values[k] == ValueKept(store, desired, deactivate, k)
    {
      ValueIsKept(store, desired, wanted, deactivate, k);
    }
    forall s | s in store.sources
      ensures s in after.sources
      ensures SourceKept(store.sources[s], after.sources[s], if s in wanted then wanted[s] else map[])
    {
      SourceIsKept(store, desired, wanted, deactivate, s);
    }
  }

  lemma SourceIsKept(store: Store, desired: seq<FacetSpec>, wanted: Binding, deactivate: bool, s: string)
    requires WellStored(store) && s in store.sources
    ensures var after := Applied(store, PlanOf(store, desired, wanted), deactivate);
            && s in after.sources
            && SourceKept(store.sources[s], after.sources[s], if s in wanted then wanted[s] else map[])
  {
    hide SourcePatches, Stored, SourceKept, FacetsOf, ValuesOf, Created, Patched, Bound;
    SourceSettles(store.sources, wanted, s);
    SourcePatchOf(store.sources, wanted, s);
    RebindKeeps(store.sources[s], if s in wanted then wanted[s] else map[]);
  }

  lemma RebindKeeps(source: Dict, bound: map<string, seq<string>>)
    ensures SourceKept(source, source, bound)
    ensures SourceKept(source, source[DefaultLabels := Labels(Bound(source) + bound)], bound)
  {
  }

  // ---- what is in force afterwards ----

  lemma NoDifference(item: Item, existing: Dict, desired: Dict, f: Field)
    requires !NeedsPatch(item, existing, desired) && f in Compared(item) && f in desired
    ensures Get(existing, f) == desired[f]
  {
    assert f !in Diff(existing, desired, Compared(item));
  }

  /** What the file says of a facet's title, hint, kind and position holds once its plan
      went through. */
  lemma FacetInForce(store: Store, desired: seq<FacetSpec>, wanted: Binding, deactivate: bool, s: string, f: Field)
    requires WellStored(store) && Complete(PlanOf(store, desired, wanted)) && s in FacetsOf(desired)
    requires f in {Title, AiHint, Kind, Position} && f in FacetsOf(desired)[s]
    ensures var after := Applied(store, PlanOf(store, desired, wanted), deactivate);
            s in after.facets && Get(after.facets[s], f) == FacetsOf(desired)[s][f]
  {
    var plan := PlanOf(store, desired, wanted);
    assert f in Compared(FacetItem);
    AppliedTables(store, desired, wanted, deactivate);
    hide Applied, Settled, FacetsOf, ValuesOf, Created, Patched, Wire, Stored, Retired, SourcePatches, NeedsPatch, Compared;
    TableSettles(FacetItem, store.facets, FacetsOf(desired), Whole(), Drops(plan.dropFacets, deactivate), s);
    NoDifference(FacetItem, Applied(store, plan, deactivate).facets[s], FacetsOf(desired)[s], f);
  }

  /** And of a value's title, hint, synonyms, patterns and place. */
  lemma ValueInForce(store: Store, desired: seq<FacetSpec>, wanted: Binding, deactivate: bool, k: Key, f: Field)
    requires WellStored(store) && Complete(PlanOf(store, desired, wanted)) && k in ValuesOf(desired)
    requires f in {Title, AiHint, Synonyms, Patterns, Position} && f in ValuesOf(desired)[k]
    ensures var after := Applied(store, PlanOf(store, desired, wanted), deactivate);
            k in after.values && Get(after.values[k], f) == ValuesOf(desired)[k][f]
  {
    var plan := PlanOf(store, desired, wanted);
    assert f in Compared(ValueItem);
    AppliedTables(store, desired, wanted, deactivate);
    hide Applied, Settled, FacetsOf, ValuesOf, Created, Patched, Wire, Stored, Retired, SourcePatches, NeedsPatch, Compared;
    TableSettles(ValueItem, store.values, ValuesOf(desired), Second(), Drops(plan.dropValues, deactivate), k);
    NoDifference(ValueItem, Applied(store, plan, deactivate).values[k], ValuesOf(desired)[k], f);
  }

  function Given(fields: Dict, f: Field, otherwise: Json): Json {
    if f in fields then fields[f] else otherwise
  }

  /** What a new facet or value has in a field. */
  function New(item: Item, slug: string, fields: Dict, f: Field): Json
    requires Title in fields
  {
    match f
    case Slug => Text(slug)
    case Title => fields[Title]
    case AiHint => Given(fields, AiHint, Null)
    case Kind => Given(fields, Kind, Text("single"))
    case Required => Flag(false)
    case Active => Flag(true)
    case Position => Given(fields, Position, Number(0))
    case Synonyms => Given(fields, Synonyms, List([]))
    case Patterns => Given(fields, Patterns, List([]))
    case _ => Null
  }

  /** A new facet or value is active, has what the file gives, and otherwise defaults. */
  lemma CreatedAs(item: Item, slug: string, fields: Dict, f: Field)
    requires Title in fields && item != SourceItem
    ensures var wire := WireOf(item, CreatePayload(item, slug, fields));
            && (f in wire <==>
                  || f in {Slug, Title, Description, AiHint, Active, Position}
                  || (item == FacetItem && f in {Kind, Required}) || (item == ValueItem && f in {Synonyms, Patterns}))
            && (f in wire ==> wire[f] == New(item, slug, fields, f))
  {
    var payload := CreatePayload(item, slug, fields);
    CreatedField(item, slug, fields, f);
    assert Slug in payload && Title in payload;
    WiredField(item, payload, f);
    hide WireOf, CreatePayload, Compared;
  }

  lemma WiredField(item: Item, payload: Dict, f: Field)
    requires Slug in payload && Title in payload
    ensures var wire := WireOf(item, payload);
            && (f in wire <==> f in Fields(item))
            && (f in wire ==> wire[f] == if f in payload then payload[f] else Default(item, f))
  {
    hide Fields, Default;
  }

  lemma CreatedField(item: Item, slug: string, fields: Dict, f: Field)
    ensures var payload := CreatePayload(item, slug, fields);
            && (f in payload <==> f == Slug || f == Position || (f in Compared(item) && f in fields))
            && (f in payload ==>
                  payload[f] == if f == Slug then Text(slug)
                                else if f == Position then Given(fields, Position, Number(0))
                                else fields[f])
  {
    hide Compared;
  }

  /** A facet the file leaves out goes from active to inactive when that is asked, and is
      otherwise as it was. */
  lemma LeftOutFacetIs(store: Store, desired: seq<FacetSpec>, wanted: Binding, deactivate: bool, s: string)
    requires WellStored(store) && Complete(PlanOf(store, desired, wanted))
    requires s in store.facets && s !in FacetsOf(desired)
    ensures var before, after := store.facets[s], Applied(store, PlanOf(store, desired, wanted), deactivate).facets;
            && s in after && Active in before
            && after[s] == if deactivate && before[Active] == Flag(true) then before[Active := Flag(false)] else before
  {
    FacetIsKept(store, desired, wanted, deactivate, s);
    assert Stored(FacetItem, s, store.facets[s]);
    hide FacetsOf, ValuesOf, Applied, PlanOf, Complete;
  }

  /** So does a value the file leaves out, of a facet it does not. */
  lemma LeftOutValueIs(store: Store, desired: seq<FacetSpec>, wanted: Binding, deactivate: bool, k: Key)
    requires WellStored(store) && Complete(PlanOf(store, desired, wanted))
    requires k in store.values && k !in ValuesOf(desired)
    ensures var before, after := store.values[k], Applied(store, PlanOf(store, desired, wanted), deactivate).values;
            && k in after && Active in before
            && after[k] == if deactivate && k.0 in FacetsOf(desired) && before[Active] == Flag(true) then
                             before[Active := Flag(false)]
                           else before
  {
    ValueIsKept(store, desired, wanted, deactivate, k);
    assert Stored(ValueItem, k.1, store.values[k]);
    hide FacetsOf, ValuesOf, Applied, PlanOf, Complete;
  }

  /** A source carries the file's labels on every facet the file binds it on, in whatever
      order, and its own on the others. */
  lemma SourceInForce(store: Store, desired: seq<FacetSpec>, wanted: Binding, deactivate: bool, s: string, facet: string)
    requires WellStored(store) && s in store.sources
    ensures var after := Applied(store, PlanOf(store, desired, wanted), deactivate).sources;
            && s in after
            && if s in wanted && facet in wanted[s] then
                 multiset(Listed(Bound(after[s]), facet)) == multiset(wanted[s][facet])
               else Listed(Bound(after[s]), facet) == Listed(Bound(store.sources[s]), facet)
  {
    AppliedTables(store, desired, wanted, deactivate);
    assert Stored(SourceItem, s, store.sources[s]);
    hide Applied, SourcePatches, Stored, Agrees, FacetsOf, ValuesOf, PlanOf;
    SourceSettles(store.sources, wanted, s);
    SourceIsKept(store, desired, wanted, deactivate, s);
    if s in wanted {
      AgreesExactly(Bound((store.sources + Wired(SourceItem, SourcePatches(store.sources, wanted)))[s]), wanted[s]);
    }
  }

  // ---- when a planned change goes through ----

  /** The server would take every payload, were its place the only question. */
  ghost predicate Welcome<K(!new)>(item: Item, payloads: map<K, Dict>, policy: Dict -> bool) {
    forall k | k in payloads :: Wire(item, payloads[k]).Some? && Accepts(item, WireOf(item, payloads[k]), policy)
  }

  /** The file gives no stored facet another kind. */
  ghost predicate KindsKept(store: map<string, Dict>, facets: map<string, Dict>) {
    forall s | s in store && s in facets && Kind in facets[s] :: facets[s][Kind] == Get(store[s], Kind)
  }

  ghost predicate PlanWelcome(plan: Plan, deactivate: bool, policy: Dict -> bool) {
    && Welcome(FacetItem, plan.createFacets, policy) && Welcome(ValueItem, plan.createValues, policy)
    && Welcome(FacetItem, plan.patchFacets, policy) && Welcome(ValueItem, plan.patchValues, policy)
    && (deactivate ==> Welcome(ValueItem, plan.dropValues, policy) && Welcome(FacetItem, plan.dropFacets, policy))
    && Welcome(SourceItem, plan.patchSources, policy)
  }

  lemma CreateStage<K(!new)>(
    item: Item, store: map<K, Dict>, wanted: map<K, Dict>, slug: K -> string, policy: Dict -> bool)
    ensures AllCreate(item, store, Created(item, wanted, store, slug), policy)
       <==> Welcome(item, Created(item, wanted, store, slug), policy)
  {
    hide Wire, WireOf, Accepts, CreatePayload;
  }

  lemma PatchReplaces(item: Item, slug: string, existing: Dict, desired: Dict)
    requires item != SourceItem && Stored(item, slug, existing)
    ensures Replaces(item, existing, WireOf(item, PatchOf(item, existing, desired)))
       <==> (item == FacetItem && Kind in desired ==> desired[Kind] == Get(existing, Kind))
  {
    NoDiffLeft(item, slug, existing, desired);
    DiffFields(item, existing, desired);
    hide WireOf, PatchOf;
  }

  /** A patch of `wanted` is put in place of the object it was planned for. */
  lemma PatchStage<K(!new)>(
    item: Item, store: map<K, Dict>, table: map<K, Dict>, wanted: map<K, Dict>, slug: K -> string,
    policy: Dict -> bool)
    requires item != SourceItem && TableStored(item, store, slug)
    requires forall k | k in store :: k in table && table[k] == store[k]
    ensures AllPatch(item, table, Patched(item, wanted, store), policy) <==>
              && Welcome(item, Patched(item, wanted, store), policy)
              && (item == FacetItem ==>
                    forall k | k in store && k in wanted && Kind in wanted[k] :: wanted[k][Kind] == Get(store[k], Kind))
  {
    hide Wire, WireOf, Accepts, PatchOf, NeedsPatch, Replaces, Stored;
    forall k | k in store && k in wanted
      ensures Replaces(item, store[k], WireOf(item, PatchOf(item, store[k], wanted[k])))
         <==> (item == FacetItem && Kind in wanted[k] ==> wanted[k][Kind] == Get(store[k], Kind))
      ensures NeedsPatch(item, store[k], wanted[k])
           || (item == FacetItem && Kind in wanted[k] ==> wanted[k][Kind] == Get(store[k], Kind))
    {
      PatchReplaces(item, slug(k), store[k], wanted[k]);
      NeededForKind(item, store[k], wanted[k]);
    }
    var patches := Patched(item, wanted, store);
    forall k | k in patches
      ensures CanPatch(item, table, k, patches[k], policy) <==>
                && Wire(item, patches[k]).Some? && Accepts(item, WireOf(item, patches[k]), policy)
                && (item == FacetItem && Kind in wanted[k] ==> wanted[k][Kind] == Get(store[k], Kind))
    {
    }
    if AllPatch(item, table, patches, policy) && item == FacetItem {
      forall k | k in store && k in wanted && Kind in wanted[k]
        ensures wanted[k][Kind] == Get(store[k], Kind)
      {
        assert k in patches ==> CanPatch(item, table, k, patches[k], policy);
      }
    }
  }

  lemma NeededForKind(item: Item, existing: Dict, desired: Dict)
    ensures NeedsPatch(item, existing, desired)
         || (item == FacetItem && Kind in desired ==> desired[Kind] == Get(existing, Kind))
  {
    assert item == FacetItem && Kind in desired && desired[Kind] != Get(existing, Kind) ==>
        Kind in Diff(existing, desired, Compared(item));
  }

  /** A deactivation changes neither slug nor kind. */
  lemma DropStage<K(!new)>(
    item: Item, store: map<K, Dict>, table: map<K, Dict>, drops: map<K, Dict>, slug: K -> string,
    policy: Dict -> bool)
    requires TableStored(item, store, slug)
    requires forall k | k in drops :: k in store && k in table && table[k] == store[k] && drops[k] == Retired(item, store[k])
    ensures AllPatch(item, table, drops, policy) <==> Welcome(item, drops, policy)
  {
    hide Wire, WireOf, Accepts, Retired, Replaces, Stored;
    forall k | k in drops
      ensures Replaces(item, table[k], WireOf(item, drops[k]))
    {
      RetiredReplaces(item, slug(k), store[k]);
    }
  }

  lemma RetiredReplaces(item: Item, slug: string, existing: Dict)
    requires Stored(item, slug, existing)
    ensures Replaces(item, existing, WireOf(item, Retired(item, existing)))
  {
    hide WireOf, Retired;
    RetiredIsInactive(item, slug, existing);
  }

  lemma SourceStage(sources: map<string, Dict>, wanted: Binding, policy: Dict -> bool)
    requires forall s | s in sources :: Stored(SourceItem, s, sources[s])
    ensures AllPatch(SourceItem, sources, SourcePatches(sources, wanted), policy)
       <==> Welcome(SourceItem, SourcePatches(sources, wanted), policy)
  {
    hide Agrees, Bound;
    forall s | s in SourcePatches(sources, wanted)
      ensures Replaces(SourceItem, sources[s], WireOf(SourceItem, SourcePatches(sources, wanted)[s]))
    {
      PatchedSource(s, sources[s], Bound(sources[s]) + wanted[s]);
    }
    hide Wire, WireOf, Accepts, Replaces, Stored, SourcePatches;
    assert forall s | s in SourcePatches(sources, wanted) :: s in sources by { PatchesAreOfSources(sources, wanted); }
  }

  lemma PatchesAreOfSources(sources: map<string, Dict>, wanted: Binding)
    ensures forall s | s in SourcePatches(sources, wanted) :: s in sources
  {
  }

  /** What a plan drops is neither created nor patched by it. */
  lemma DropsAreApart<K(!new)>(
    item: Item, store: map<K, Dict>, wanted: map<K, Dict>, slug: K -> string, k: K)
    requires k in store
    ensures var created := store + Wired(item, Created(item, wanted, store, slug));
            var patched := created + Wired(item, Patched(item, wanted, store));
            && k in created && created[k] == store[k]
            && (k !in wanted ==> k in patched && patched[k] == store[k])
  {
    hide WireOf, CreatePayload, PatchOf;
  }

  /** The plan for a file goes through exactly if the server takes what its requests
      carry and the file gives no stored facet another kind. */
  lemma GoesThroughExactly(
    store: Store, desired: seq<FacetSpec>, wanted: Binding, deactivate: bool, policy: Dict -> bool)
    requires WellStored(store)
    ensures GoesThrough(store, PlanOf(store, desired, wanted), deactivate, policy) <==>
              PlanWelcome(PlanOf(store, desired, wanted), deactivate, policy) && KindsKept(store.facets, FacetsOf(desired))
  {
    var plan, facets, values := PlanOf(store, desired, wanted), FacetsOf(desired), ValuesOf(desired);
    var withFacets := store.facets + Wired(FacetItem, plan.createFacets);
    var withValues := store.values + Wired(ValueItem, plan.createValues);
    hide FacetsOf, ValuesOf, Created, Patched, Stored, Retired, SourcePatches, AllCreate, AllPatch, Welcome, Wired;
    CreateStage(FacetItem, store.facets, facets, Whole(), policy);
    CreateStage(ValueItem, store.values, values, Second(), policy);
    forall k | k in store.facets
      ensures k in withFacets && withFacets[k] == store.facets[k]
      ensures k !in facets ==>
                && k in withFacets + Wired(FacetItem, plan.patchFacets)
                && (withFacets + Wired(FacetItem, plan.patchFacets))[k] == store.facets[k]
    {
      DropsAreApart(FacetItem, store.facets, facets, Whole(), k);
    }
    forall k | k in store.values
      ensures k in withValues && withValues[k] == store.values[k]
      ensures k !in values ==>
                && k in withValues + Wired(ValueItem, plan.patchValues)
                && (withValues + Wired(ValueItem, plan.patchValues))[k] == store.values[k]
    {
      DropsAreApart(ValueItem, store.values, values, Second(), k);
    }
    PatchStage(FacetItem, store.facets, withFacets, facets, Whole(), policy);
    PatchStage(ValueItem, store.values, withValues, values, Second(), policy);
    DropStage(FacetItem, store.facets, withFacets + Wired(FacetItem, plan.patchFacets), plan.dropFacets, Whole(), policy);
    DropStage(ValueItem, store.values, withValues + Wired(ValueItem, plan.patchValues), plan.dropValues, Second(), policy);
    SourceStage(store.sources, wanted, policy);
  }

  /** A file that changes the kind of a stored facet never goes through: the plan patches
      that facet, and the patch is refused whatever else the server accepts. */
  lemma KindChangeIsRefused(
    store: Store, desired: seq<FacetSpec>, wanted: Binding, deactivate: bool, s: string, policy: Dict -> bool)
    requires WellStored(store) && s in store.facets && s in FacetsOf(desired)
    requires Kind in FacetsOf(desired)[s] && FacetsOf(desired)[s][Kind] != Get(store.facets[s], Kind)
    ensures s in PlanOf(store, desired, wanted).patchFacets
    ensures !CanPatch(FacetItem, store.facets, s, PlanOf(store, desired, wanted).patchFacets[s], policy)
    ensures !GoesThrough(store, PlanOf(store, desired, wanted), deactivate, policy)
  {
    GoesThroughExactly(store, desired, wanted, deactivate, policy);
    NeededForKind(FacetItem, store.facets[s], FacetsOf(desired)[s]);
    PatchReplaces(FacetItem, s, store.facets[s], FacetsOf(desired)[s]);
    hide GoesThrough, PlanWelcome, FacetsOf, ValuesOf, WireOf, PatchOf, NeedsPatch, Replaces, Stored, SourcePatches,
         LeftOutFacets, LeftOutValues;
  }

  /** One stored facet with a single value, and a file that wants several. */
  const TOPIC := map[
    Slug := Text("topic"), Title := Text("Topic"), Description := Null, AiHint := Null, Kind := Text("single"),
    Required := Flag(false), Active := Flag(true), Position := Number(0)]
  const MANY_TOPICS := [FacetSpec("topic", map[Title := Text("Topic"), Kind := Text("multi")], [])]

  const TOPICS := Store(map["topic" := TOPIC], map[], map[])

  lemma TopicsAreStored()
    ensures WellStored(TOPICS) && DistinctSlugs(MANY_TOPICS)
    ensures FacetsOf(MANY_TOPICS) == map["topic" := MANY_TOPICS[0].fields]
  {
    assert MANY_TOPICS[..0] == [];
    assert FacetsOf([]) == map[];
  }

  lemma KindChangeExample(deactivate: bool, policy: Dict -> bool)
    ensures WellStored(TOPICS) && DistinctSlugs(MANY_TOPICS)
    ensures !GoesThrough(TOPICS, PlanOf(TOPICS, MANY_TOPICS, map[]), deactivate, policy)
  {
    TopicsAreStored();
    hide GoesThrough, PlanOf, CanPatch, FacetsOf, WellStored, DistinctSlugs;
    assert MANY_TOPICS[0].fields[Kind] != TOPIC[Kind] by { assert "multi"[0] != "single"[0]; }
    KindChangeIsRefused(TOPICS, MANY_TOPICS, map[], deactivate, "topic", policy);
  }
}
