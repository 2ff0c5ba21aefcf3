/** Bringing the stored taxonomy to what its file says: the plan, and its application. */
module Taxonomy {
  import opened Options
  import opened Sorting
  import opened Texts

  /** The keys of the exchanged objects. `Kind` stands for `type` in the tool and `kind`
      on the wire, `Active` for `is_active` and `enabled`. */
  datatype Field =
    | Slug | Title | Description | AiHint | Kind | Required | Active | Position
    | Synonyms | Patterns | Url | DefaultLabels | Skip

  datatype Json =
    | Null | Text(text: string) | Number(number: int) | Flag(flag: bool) | List(items: seq<string>)
    | Labels(labels: map<string, seq<string>>)

  type Dict = map<Field, Json>

  datatype Item = FacetItem | ValueItem | SourceItem

  /** A value of the file; `fields` are those it gives besides slug and sources. */
  datatype ValueSpec = ValueSpec(slug: string, fields: Dict, sources: seq<string>)
  datatype FacetSpec = FacetSpec(slug: string, fields: Dict, values: seq<ValueSpec>)

  type Key = (string, string)

  /** What the server stores: facets and sources by slug, values by facet and value slug. */
  datatype Store = Store(facets: map<string, Dict>, values: map<Key, Dict>, sources: map<string, Dict>)

  /** `createValues` holds the values of new facets too. A create is its payload, a patch
      the whole object it puts in place of the old one. */
  datatype Plan = Plan(
    createFacets: map<string, Dict>, createValues: map<Key, Dict>,
    patchFacets: map<string, Dict>, patchValues: map<Key, Dict>,
    dropFacets: map<string, Dict>, dropValues: map<Key, Dict>,
    patchSources: map<string, Dict>, missing: set<string>)

  // ---- fields ----

  /** The fields a patch sends, which are those the wire functions write. */
  function Fields(item: Item): set<Field> {
    match item
    case FacetItem => {Slug, Title, Description, AiHint, Kind, Required, Active, Position}
    case ValueItem => {Slug, Title, Description, AiHint, Synonyms, Patterns, Active, Position}
    case SourceItem => {Slug, Title, Kind, Url, Description, Active, DefaultLabels, Skip}
  }

  /** The fields compared with the file. */
  function Compared(item: Item): set<Field> {
    match item
    case FacetItem => {Title, AiHint, Kind, Position}
    case ValueItem => {Title, AiHint, Synonyms, Patterns, Position}
    case SourceItem => {DefaultLabels}
  }

  predicate Nullable(f: Field) {
    f == Description || f == AiHint || f == Url
  }

  function Default(item: Item, f: Field): Json {
    match f
    case Kind => if item == SourceItem then Text("other") else Text("single")
    case Required => Flag(false)
    case Active => Flag(true)
    case Position => Number(0)
    case Synonyms => List([])
    case Patterns => List([])
    case DefaultLabels => Labels(map[])
    case Skip => Flag(false)
    case _ => Null
  }

  /** `d.get(f)`. */
  function Get(d: Dict, f: Field): Json {
    if f in d then d[f] else Null
  }

  predicate IsActive(d: Dict) {
    Active in d ==> d[Active] == Flag(true)
  }

  function Diff(existing: Dict, desired: Dict, fields: set<Field>): Dict {
    map f | f in fields && f in desired && Get(existing, f) != desired[f] :: desired[f]
  }

  function Payload(existing: Dict, fields: set<Field>, changes: Dict): Dict {
    (map f | f in fields && Get(existing, f) != Null :: Get(existing, f)) + changes
  }

  /** What goes over the wire; None is the error of a payload without slug or title. */
  function Wire(item: Item, payload: Dict): Option<Dict> {
    if Slug !in payload || Title !in payload then None
    else Some(map f | f in Fields(item) :: if f in payload then payload[f] else Default(item, f))
  }

  function CreatePayload(item: Item, slug: string, fields: Dict): Dict {
    (map f | f in Compared(item) && f in fields :: fields[f])
      [Slug := Text(slug)][Position := if Position in fields then fields[Position] else Number(0)]
  }

  // ---- what the file wants ----

  function FacetsOf(desired: seq<FacetSpec>): map<string, Dict> {
    if desired == [] then map[]
    else
      var last := desired[|desired| - 1];
      FacetsOf(desired[..|desired| - 1])[last.slug := last.fields]
  }

  /** The values of one facet, each at its place in the list. */
  function ValuesIn(facet: string, values: seq<ValueSpec>): map<Key, Dict> {
    if values == [] then map[]
    else
      var n := |values| - 1;
      ValuesIn(facet, values[..n])[(facet, values[n].slug) := values[n].fields[Position := Number(n)]]
  }

  function ValuesOf(desired: seq<FacetSpec>): map<Key, Dict> {
    if desired == [] then map[]
    else
      var last := desired[|desired| - 1];
      ValuesOf(desired[..|desired| - 1]) + ValuesIn(last.slug, last.values)
  }

  /** Facets of the file have distinct slugs, and so have the values of each. */
  ghost predicate DistinctSlugs(desired: seq<FacetSpec>) {
    && (forall i, j | 0 <= i < j < |desired| :: desired[i].slug != desired[j].slug)
    && forall i | 0 <= i < |desired| :: DistinctValues(desired[i].values)
  }

  ghost predicate DistinctValues(values: seq<ValueSpec>) {
    forall i, j | 0 <= i < j < |values| :: values[i].slug != values[j].slug
  }

  function Created<K>(item: Item, wanted: map<K, Dict>, table: map<K, Dict>, slug: K -> string): map<K, Dict> {
    map k | k in wanted && k !in table :: CreatePayload(item, slug(k), wanted[k])
  }

  function Patched<K>(item: Item, wanted: map<K, Dict>, table: map<K, Dict>): map<K, Dict> {
    map k | k in wanted && k in table && NeedsPatch(item, table[k], wanted[k]) :: PatchOf(item, table[k], wanted[k])
  }

  predicate NeedsPatch(item: Item, existing: Dict, desired: Dict) {
    Diff(existing, desired, Compared(item)) != map[]
  }

  function PatchOf(item: Item, existing: Dict, desired: Dict): Dict {
    Payload(existing, Fields(item), Diff(existing, desired, Compared(item)))
  }

  function Retired(item: Item, existing: Dict): Dict {
    Payload(existing, Fields(item), map[Active := Flag(false)])
  }

  function Whole(): string -> string {
    (s: string) => s
  }

  function Second(): Key -> string {
    (k: Key) => k.1
  }

  // ---- sources ----

  function Bound(d: Dict): map<string, seq<string>> {
    if Get(d, DefaultLabels).Labels? then Get(d, DefaultLabels).labels else map[]
  }

  function Listed(labels: map<string, seq<string>>, facet: string): seq<string> {
    if facet in labels then labels[facet] else []
  }

  function InOrder(xs: seq<string>): seq<string> {
    Sort(Leq, xs)
  }

  predicate Agrees(labels: map<string, seq<string>>, facets: map<string, seq<string>>) {
    forall facet | facet in facets :: InOrder(Listed(labels, facet)) == InOrder(facets[facet])
  }

  function SourcePatches(sources: map<string, Dict>, wanted: map<string, map<string, seq<string>>>): map<string, Dict> {
    map s | s in wanted && s in sources && !Agrees(Bound(sources[s]), wanted[s]) ::
      Payload(sources[s], Fields(SourceItem), map[DefaultLabels := Labels(Bound(sources[s]) + wanted[s])])
  }

  // ---- the plan ----

  function PlanOf(store: Store, desired: seq<FacetSpec>, wanted: map<string, map<string, seq<string>>>): Plan {
    var facets, values := FacetsOf(desired), ValuesOf(desired);
    Plan(Created(FacetItem, facets, store.facets, Whole()), Created(ValueItem, values, store.values, Second()),
         Patched(FacetItem, facets, store.facets), Patched(ValueItem, values, store.values),
         LeftOutFacets(store, desired), LeftOutValues(store, desired),
         SourcePatches(store.sources, wanted), set s | s in wanted && s !in store.sources)
  }

  /** There is nothing to send; missing sources are only reported. */
  predicate NoWork(plan: Plan, deactivate: bool) {
    && plan.createFacets == map[] && plan.createValues == map[]
    && plan.patchFacets == map[] && plan.patchValues == map[] && plan.patchSources == map[]
    && (deactivate ==> plan.dropFacets == map[] && plan.dropValues == map[])
  }

  // ---- the server ----

  /** An object as the server stores it: every field there, null only where allowed. */
  ghost predicate Stored(item: Item, slug: string, d: Dict) {
    && d.Keys == Fields(item) && d[Slug] == Text(slug)
    && forall f | f in d && d[f] == Null :: Nullable(f)
  }

  ghost predicate WellStored(s: Store) {
    && (forall k | k in s.facets :: Stored(FacetItem, k, s.facets[k]))
    && (forall k | k in s.values :: Stored(ValueItem, k.1, s.values[k]) && k.0 in s.facets)
    && (forall k | k in s.sources :: Stored(SourceItem, k, s.sources[k]))
  }

  /** The server's answer to an object; `policy` is what else it may object to. */
  predicate Accepts(item: Item, wire: Dict, policy: Dict -> bool) {
    (forall f | f in wire && wire[f] == Null :: Nullable(f)) && policy(wire)
  }

  /** A patch puts the new object in place of the old; slugs and facet kinds are fixed. */
  predicate Replaces(item: Item, existing: Dict, wire: Dict) {
    Get(wire, Slug) == Get(existing, Slug) && (item == FacetItem ==> Get(wire, Kind) == Get(existing, Kind))
  }

  function WireOf(item: Item, payload: Dict): Dict {
    match Wire(item, payload)
    case Some(w) => w
    case None => map[]
  }

  function Wired<K>(item: Item, payloads: map<K, Dict>): map<K, Dict> {
    map k | k in payloads :: WireOf(item, payloads[k])
  }

  /** The table when all payloads but those of `left` have been put in place. */
  ghost predicate Midway<K(!new)>(item: Item, table: map<K, Dict>, payloads: map<K, Dict>, left: set<K>, after: map<K, Dict>) {
    && (forall k :: k in after <==> k in table || (k in payloads && k !in left))
    && (forall k | k in after :: after[k] == if k in payloads && k !in left then WireOf(item, payloads[k]) else table[k])
  }

  lemma MidwayStarts<K(!new)>(item: Item, table: map<K, Dict>, payloads: map<K, Dict>)
    ensures Midway(item, table, payloads, payloads.Keys, table)
  {
  }

  lemma MidwayMore<K(!new)>(item: Item, table: map<K, Dict>, payloads: map<K, Dict>, left: set<K>, after: map<K, Dict>, k: K)
    requires Midway(item, table, payloads, left, after) && k in payloads && k in left
    ensures k in after <==> k in table
    ensures k in after ==> after[k] == table[k]
    ensures Midway(item, table, payloads, left - {k}, after[k := WireOf(item, payloads[k])])
  {
  }

  lemma MidwayEnds<K(!new)>(item: Item, table: map<K, Dict>, payloads: map<K, Dict>, after: map<K, Dict>)
    requires Midway(item, table, payloads, {}, after)
    ensures after == table + Wired(item, payloads)
  {
  }

  /** A create is accepted when its object is well formed and its slug is free. */
  predicate CanCreate<K(==)>(item: Item, table: map<K, Dict>, k: K, payload: Dict, policy: Dict -> bool) {
    Wire(item, payload).Some? && k !in table && Accepts(item, WireOf(item, payload), policy)
  }

  predicate CanPatch<K(==)>(item: Item, table: map<K, Dict>, k: K, payload: Dict, policy: Dict -> bool) {
    && Wire(item, payload).Some? && k in table
    && Accepts(item, WireOf(item, payload), policy) && Replaces(item, table[k], WireOf(item, payload))
  }

  ghost predicate AllCreate<K(!new)>(item: Item, table: map<K, Dict>, payloads: map<K, Dict>, policy: Dict -> bool) {
    forall k | k in payloads :: CanCreate(item, table, k, payloads[k], policy)
  }

  ghost predicate AllPatch<K(!new)>(item: Item, table: map<K, Dict>, payloads: map<K, Dict>, policy: Dict -> bool) {
    forall k | k in payloads :: CanPatch(item, table, k, payloads[k], policy)
  }

  /** Some of the payloads have been put in place, and nothing else has happened. */
  ghost predicate Partly<K(!new)>(item: Item, table: map<K, Dict>, payloads: map<K, Dict>, after: map<K, Dict>) {
    && (forall k | k in table :: k in after)
    && forall k | k in after :: (k in table && after[k] == table[k]) || Sent(item, payloads, k, after[k])
  }

  /** `d` is the object the request for `k` carries. */
  ghost predicate Sent<K(!new)>(item: Item, payloads: map<K, Dict>, k: K, d: Dict) {
    k in payloads && Wire(item, payloads[k]) == Some(d)
  }

  lemma MidwayIsPartly<K(!new)>(item: Item, table: map<K, Dict>, payloads: map<K, Dict>, left: set<K>, after: map<K, Dict>)
    requires Midway(item, table, payloads, left, after)
    requires forall k | k in payloads && k !in left :: Wire(item, payloads[k]).Some?
    ensures Partly(item, table, payloads, after)
  {
    hide Wire;
  }

  /** A payload names what is changed and what the stored object has, and no nulls of it. */
  lemma PayloadIs(existing: Dict, fields: set<Field>, changes: Dict, f: Field)
    ensures f in Payload(existing, fields, changes) <==>
              f in changes || (f in fields && f in existing && existing[f] != Null)
    ensures f in Payload(existing, fields, changes) ==>
              Payload(existing, fields, changes)[f] == if f in changes then changes[f] else existing[f]
  {
  }

  /** What goes over the wire: an error without slug or title, and otherwise every field. */
  lemma WireIsComplete(item: Item, payload: Dict)
    ensures Wire(item, payload) == None <==> Slug !in payload || Title !in payload
    ensures Wire(item, payload).Some? ==>
              && Wire(item, payload).value.Keys == Fields(item)
              && forall f | f in Fields(item) && f in payload :: Wire(item, payload).value[f] == payload[f]
  {
  }

  /** What the server takes has no null but in the description, the hint and the address;
      a patch leaves the slug as it is, and of a facet the kind. */
  lemma TakenOnlyIf<K>(item: Item, table: map<K, Dict>, k: K, payload: Dict, policy: Dict -> bool)
    ensures CanCreate(item, table, k, payload, policy) || CanPatch(item, table, k, payload, policy) ==>
              && Slug in payload && Title in payload && payload[Slug] != Null && payload[Title] != Null
              && policy(WireOf(item, payload))
              && forall f | f in payload && f in Fields(item) && payload[f] == Null :: f in {Description, AiHint, Url}
    ensures CanCreate(item, table, k, payload, policy) ==> k !in table
    ensures CanPatch(item, table, k, payload, policy) ==>
              && k in table && payload[Slug] == Get(table[k], Slug)
              && (item == FacetItem && Kind in payload ==> payload[Kind] == Get(table[k], Kind))
  {
    assert Slug in Fields(item) && Title in Fields(item);
    hide Default;
    if Wire(item, payload).Some? {
      forall f | f in payload && f in Fields(item)
        ensures f in WireOf(item, payload) && WireOf(item, payload)[f] == payload[f]
      {
      }
    }
  }

  method CreateAll<K(==, !new)>(item: Item, table: map<K, Dict>, payloads: map<K, Dict>, policy: Dict -> bool)
    returns (ok: bool, after: map<K, Dict>)
    ensures ok ==> after == table + Wired(item, payloads)
    ensures ok <==> AllCreate(item, table, payloads, policy)
    ensures Partly(item, table, payloads, after)
  {
    hide Midway, Wired;
    ok, after := true, table;
    var left := payloads.Keys;
    MidwayStarts(item, table, payloads);
    while left != {}
      invariant left <= payloads.Keys && Midway(item, table, payloads, left, after)
      invariant forall k | k in payloads && k !in left :: CanCreate(item, table, k, payloads[k], policy)
    {
      hide Wire, Accepts;
      var k :| k in left;
      var wire := Wire(item, payloads[k]);
      MidwayMore(item, table, payloads, left, after, k);
      if wire == None || k in after || !Accepts(item, wire.value, policy) {
        assert !CanCreate(item, table, k, payloads[k], policy);
        MidwayIsPartly(item, table, payloads, left, after);
        ok := false;
        return;
      }
      after := after[k := wire.value];
      left := left - {k};
    }
    MidwayEnds(item, table, payloads, after);
    MidwayIsPartly(item, table, payloads, {}, after);
  }

  method PatchAll<K(==, !new)>(item: Item, table: map<K, Dict>, payloads: map<K, Dict>, policy: Dict -> bool)
    returns (ok: bool, after: map<K, Dict>)
    ensures ok ==> after == table + Wired(item, payloads)
    ensures ok <==> AllPatch(item, table, payloads, policy)
    ensures Partly(item, table, payloads, after)
  {
    hide Midway, Wired;
    ok, after := true, table;
    var left := payloads.Keys;
    MidwayStarts(item, table, payloads);
    while left != {}
      invariant left <= payloads.Keys && Midway(item, table, payloads, left, after)
      invariant forall k | k in payloads && k !in left :: CanPatch(item, table, k, payloads[k], policy)
    {
      hide Wire, Accepts, Replaces;
      var k :| k in left;
      var wire := Wire(item, payloads[k]);
      MidwayMore(item, table, payloads, left, after, k);
      if wire == None || k !in after || !Accepts(item, wire.value, policy) || !Replaces(item, after[k], wire.value) {
        assert !CanPatch(item, table, k, payloads[k], policy);
        MidwayIsPartly(item, table, payloads, left, after);
        ok := false;
        return;
      }
      after := after[k := wire.value];
      left := left - {k};
    }
    MidwayEnds(item, table, payloads, after);
    MidwayIsPartly(item, table, payloads, {}, after);
  }

  // ---- the loops that plan ----

  lemma FacetsMore(desired: seq<FacetSpec>, spec: FacetSpec)
    ensures FacetsOf(desired + [spec]) == FacetsOf(desired)[spec.slug := spec.fields]
    ensures ValuesOf(desired + [spec]) == ValuesOf(desired) + ValuesIn(spec.slug, spec.values)
  {
    assert (desired + [spec])[..|desired|] == desired;
  }

  lemma {:induction false} FacetsKnown(desired: seq<FacetSpec>)
    ensures forall s :: s in FacetsOf(desired) <==> exists i :: 0 <= i < |desired| && desired[i].slug == s
    ensures forall k | k in ValuesOf(desired) :: k.0 in FacetsOf(desired)
  {
    if desired != [] {
      var n := |desired| - 1;
      FacetsKnown(desired[..n]);
      InFacet(desired[n].slug, desired[n].values);
      forall s
        ensures s in FacetsOf(desired) <==> exists i :: 0 <= i < |desired| && desired[i].slug == s
      {
        if i :| 0 <= i < |desired| && desired[i].slug == s {
          assert i < n ==> desired[..n][i].slug == s;
        }
        if s in FacetsOf(desired[..n]) {
          var i :| 0 <= i < n && desired[..n][i].slug == s;
          assert desired[i].slug == s;
        }
      }
    }
  }

  lemma {:induction false} InFacet(facet: string, values: seq<ValueSpec>)
    ensures forall k | k in ValuesIn(facet, values) ::
              k.0 == facet && exists i :: 0 <= i < |values| && values[i].slug == k.1
  {
    if values != [] {
      var n := |values| - 1;
      InFacet(facet, values[..n]);
      forall k | k in ValuesIn(facet, values)
        ensures k.0 == facet && exists i :: 0 <= i < |values| && values[i].slug == k.1
      {
        if k in ValuesIn(facet, values[..n]) {
          var i :| 0 <= i < n && values[..n][i].slug == k.1;
          assert values[i].slug == k.1;
        } else {
          assert values[n].slug == k.1;
        }
      }
    }
  }

  /** The file mentions the facet, or the value of it. */
  ghost predicate Mentions(desired: seq<FacetSpec>, s: string) {
    exists i :: 0 <= i < |desired| && desired[i].slug == s
  }

  ghost predicate MentionsValue(desired: seq<FacetSpec>, k: Key) {
    exists i, j :: 0 <= i < |desired| && 0 <= j < |desired[i].values|
                   && (desired[i].slug, desired[i].values[j].slug) == k
  }

  lemma {:induction false} ValueAt(facet: string, values: seq<ValueSpec>, j: nat)
    requires DistinctValues(values) && j < |values|
    ensures (facet, values[j].slug) in ValuesIn(facet, values)
    ensures ValuesIn(facet, values)[(facet, values[j].slug)] == values[j].fields[Position := Number(j)]
  {
    var n := |values| - 1;
    if j < n {
      ValueAt(facet, values[..n], j);
    }
  }

  /** What is wanted is what the file mentions, every facet with the fields it gives. */
  lemma {:induction false} WantedIsTheFile(desired: seq<FacetSpec>)
    requires DistinctSlugs(desired)
    ensures forall s :: s in FacetsOf(desired) <==> Mentions(desired, s)
    ensures forall k :: k in ValuesOf(desired) <==> MentionsValue(desired, k)
    ensures forall i | 0 <= i < |desired| ::
              desired[i].slug in FacetsOf(desired) && FacetsOf(desired)[desired[i].slug] == desired[i].fields
  {
    FacetsKnown(desired);
    hide FacetsOf, ValuesOf;
    forall i | 0 <= i < |desired|
      ensures desired[i].slug in FacetsOf(desired) && FacetsOf(desired)[desired[i].slug] == desired[i].fields
    {
      FacetAt(desired, i);
    }
    forall k | k in ValuesOf(desired)
      ensures MentionsValue(desired, k)
    {
      ValuesKnown(desired, k);
    }
    forall k | MentionsValue(desired, k)
      ensures k in ValuesOf(desired)
    {
      var i, j :| 0 <= i < |desired| && 0 <= j < |desired[i].values|
                  && (desired[i].slug, desired[i].values[j].slug) == k;
      ValueOfAt(desired, i, j);
    }
  }

  lemma {:induction false} FacetAt(desired: seq<FacetSpec>, i: nat)
    requires DistinctSlugs(desired) && i < |desired|
    ensures desired[i].slug in FacetsOf(desired) && FacetsOf(desired)[desired[i].slug] == desired[i].fields
  {
    var n := |desired| - 1;
    if i < n {
      FacetAt(desired[..n], i);
    }
  }

  /** And every value with the fields it gives and its place in the list. */
  lemma {:induction false} ValueOfAt(desired: seq<FacetSpec>, i: nat, j: nat)
    requires DistinctSlugs(desired) && i < |desired| && j < |desired[i].values|
    ensures (desired[i].slug, desired[i].values[j].slug) in ValuesOf(desired)
    ensures ValuesOf(desired)[(desired[i].slug, desired[i].values[j].slug)] == desired[i].values[j].fields[Position := Number(j)]
  {
    hide ValuesIn;
    var n := |desired| - 1;
    InFacet(desired[n].slug, desired[n].values);
    if i < n {
      ValueOfAt(desired[..n], i, j);
      assert desired[i].slug != desired[n].slug;
    } else {
      ValueAt(desired[n].slug, desired[n].values, j);
    }
  }

  lemma {:induction false} ValuesKnown(desired: seq<FacetSpec>, k: Key)
    requires k in ValuesOf(desired)
    ensures MentionsValue(desired, k)
  {
    hide ValuesIn;
    var n := |desired| - 1;
    InFacet(desired[n].slug, desired[n].values);
    if k in ValuesIn(desired[n].slug, desired[n].values) {
      var j :| 0 <= j < |desired[n].values| && desired[n].values[j].slug == k.1;
      assert (desired[n].slug, desired[n].values[j].slug) == k;
    } else {
      ValuesKnown(desired[..n], k);
      var i, j :| 0 <= i < n && 0 <= j < |desired[..n][i].values|
                  && (desired[..n][i].slug, desired[..n][i].values[j].slug) == k;
      assert desired[i] == desired[..n][i];
    }
  }

  lemma CreatedMore<K(!new)>(item: Item, wanted: map<K, Dict>, table: map<K, Dict>, slug: K -> string, k: K, fields: Dict)
    requires k !in wanted
    ensures Created(item, wanted[k := fields], table, slug)
         == if k in table then Created(item, wanted, table, slug)
            else Created(item, wanted, table, slug)[k := CreatePayload(item, slug(k), fields)]
  {
    hide CreatePayload;
  }

  lemma PatchedMore<K(!new)>(item: Item, wanted: map<K, Dict>, table: map<K, Dict>, k: K, fields: Dict)
    requires k !in wanted
    ensures Patched(item, wanted[k := fields], table)
         == if k in table && Diff(table[k], fields, Compared(item)) != map[] then
              Patched(item, wanted, table)[k := Payload(table[k], Fields(item), Diff(table[k], fields, Compared(item)))]
            else Patched(item, wanted, table)
  {
    hide Diff, Payload, Compared, Fields;
  }

  lemma JoinedCreates<K(!new)>(item: Item, wanted: map<K, Dict>, more: map<K, Dict>, table: map<K, Dict>, slug: K -> string)
    ensures Created(item, wanted + more, table, slug) == Created(item, wanted, table, slug) + Created(item, more, table, slug)
  {
    hide CreatePayload;
    var both := wanted + more;
    forall k | k in both
      ensures both[k] == if k in more then more[k] else wanted[k]
    {
    }
  }

  lemma JoinedPatches<K(!new)>(item: Item, wanted: map<K, Dict>, more: map<K, Dict>, table: map<K, Dict>)
    requires forall k | k in wanted :: k !in more
    ensures Patched(item, wanted + more, table) == Patched(item, wanted, table) + Patched(item, more, table)
  {
    hide NeedsPatch, PatchOf;
    var both := wanted + more;
    forall k | k in both
      ensures both[k] == if k in more then more[k] else wanted[k]
    {
    }
  }

  /** What the loop over the values of one facet has put on the plan. */
  method PlanValues(store: Store, facet: string, values: seq<ValueSpec>)
    returns (create: map<Key, Dict>, patch: map<Key, Dict>)
    requires DistinctValues(values)
    ensures create == Created(ValueItem, ValuesIn(facet, values), store.values, Second())
    ensures patch == Patched(ValueItem, ValuesIn(facet, values), store.values)
  {
    create, patch := map[], map[];
    for n := 0 to |values|
      invariant create == Created(ValueItem, ValuesIn(facet, values[..n]), store.values, Second())
      invariant patch == Patched(ValueItem, ValuesIn(facet, values[..n]), store.values)
    {
      hide Diff, Payload, CreatePayload, ValuesIn, Created, Patched, Compared, Fields;
      var v := values[n];
      var key, fields := (facet, v.slug), v.fields[Position := Number(n)];
      assert values[..n + 1] == values[..n] + [v];
      InFacet(facet, values[..n]);
      assert key !in ValuesIn(facet, values[..n]);
      CreatedMore(ValueItem, ValuesIn(facet, values[..n]), store.values, Second(), key, fields);
      PatchedMore(ValueItem, ValuesIn(facet, values[..n]), store.values, key, fields);
      if key !in store.values {
        create := create[key := CreatePayload(ValueItem, v.slug, fields)];
        continue;
      }
      var changed := Diff(store.values[key], fields, Compared(ValueItem));
      if changed != map[] {
        patch := patch[key := Payload(store.values[key], Fields(ValueItem), changed)];
      }
    }
    assert values[..|values|] == values;
  }

  /** The facets and values planned are those of `desired`. */
  ghost predicate Covers(
    store: Store, desired: seq<FacetSpec>, createFacets: map<string, Dict>, patchFacets: map<string, Dict>,
    createValues: map<Key, Dict>, patchValues: map<Key, Dict>)
  {
    && createFacets == Created(FacetItem, FacetsOf(desired), store.facets, Whole())
    && patchFacets == Patched(FacetItem, FacetsOf(desired), store.facets)
    && createValues == Created(ValueItem, ValuesOf(desired), store.values, Second())
    && patchValues == Patched(ValueItem, ValuesOf(desired), store.values)
  }

  lemma CoversMore(
    store: Store, desired: seq<FacetSpec>, spec: FacetSpec, createFacets: map<string, Dict>,
    patchFacets: map<string, Dict>, createValues: map<Key, Dict>, patchValues: map<Key, Dict>)
    requires Covers(store, desired, createFacets, patchFacets, createValues, patchValues)
    requires forall i | 0 <= i < |desired| :: desired[i].slug != spec.slug
    ensures var wanted := ValuesIn(spec.slug, spec.values);
            var changed := if spec.slug in store.facets then Diff(store.facets[spec.slug], spec.fields, Compared(FacetItem))
                           else map[];
            Covers(store, desired + [spec],
              if spec.slug in store.facets then createFacets
              else createFacets[spec.slug := CreatePayload(FacetItem, spec.slug, spec.fields)],
              if changed == map[] then patchFacets
              else patchFacets[spec.slug := Payload(store.facets[spec.slug], Fields(FacetItem), changed)],
              createValues + Created(ValueItem, wanted, store.values, Second()),
              patchValues + Patched(ValueItem, wanted, store.values))
  {
    hide Diff, Payload, CreatePayload, FacetsOf, ValuesOf, ValuesIn, Created, Patched, Compared, Fields;
    FacetsMore(desired, spec);
    FacetsKnown(desired);
    InFacet(spec.slug, spec.values);
    CreatedMore(FacetItem, FacetsOf(desired), store.facets, Whole(), spec.slug, spec.fields);
    PatchedMore(FacetItem, FacetsOf(desired), store.facets, spec.slug, spec.fields);
    JoinedCreates(ValueItem, ValuesOf(desired), ValuesIn(spec.slug, spec.values), store.values, Second());
    JoinedPatches(ValueItem, ValuesOf(desired), ValuesIn(spec.slug, spec.values), store.values);
  }

  /** The plan, facet by facet of the file and then over the facets it leaves out. */
  method PlanChanges(store: Store, desired: seq<FacetSpec>) returns (plan: Plan)
    requires DistinctSlugs(desired)
    ensures plan == PlanOf(store, desired, map[])
    ensures forall s :: s in plan.createFacets <==> Mentions(desired, s) && s !in store.facets
    ensures forall k :: k in plan.createValues <==> MentionsValue(desired, k) && k !in store.values
    ensures forall s :: s in plan.dropFacets <==>
                          s in store.facets && IsActive(store.facets[s]) && !Mentions(desired, s)
    ensures forall k :: k in plan.dropValues <==>
                          && k in store.values && IsActive(store.values[k])
                          && Mentions(desired, k.0) && !MentionsValue(desired, k)
  {
    var createFacets, patchFacets: map<string, Dict> := map[], map[];
    var createValues, patchValues: map<Key, Dict> := map[], map[];
    for n := 0 to |desired|
      invariant Covers(store, desired[..n], createFacets, patchFacets, createValues, patchValues)
    {
      hide Covers, Diff, Payload, CreatePayload, Created, Patched, ValuesIn;
      var spec := desired[n];
      CoversMore(store, desired[..n], spec, createFacets, patchFacets, createValues, patchValues);
      assert desired[..n + 1] == desired[..n] + [spec];
      var creates, patches := PlanValues(store, spec.slug, spec.values);
      createValues := createValues + creates;
      patchValues := patchValues + patches;
      if spec.slug !in store.facets {
        createFacets := createFacets[spec.slug := CreatePayload(FacetItem, spec.slug, spec.fields)];
        continue;
      }
      var changed := Diff(store.facets[spec.slug], spec.fields, Compared(FacetItem));
      if changed != map[] {
        patchFacets := patchFacets[spec.slug := Payload(store.facets[spec.slug], Fields(FacetItem), changed)];
      }
    }
    assert desired[..|desired|] == desired;
    plan := Plan(createFacets, createValues, patchFacets, patchValues,
                 LeftOutFacets(store, desired), LeftOutValues(store, desired), map[], {});
    NoSources(store, desired);
    WantedIsTheFile(desired);
    hide Mentions, MentionsValue, FacetsOf, ValuesOf, IsActive, CreatePayload, Retired, Patched;
  }

  /** Active facets the file does not mention. */
  function LeftOutFacets(store: Store, desired: seq<FacetSpec>): map<string, Dict> {
    var facets := FacetsOf(desired);
    map s | s in store.facets && s !in facets && IsActive(store.facets[s]) :: Retired(FacetItem, store.facets[s])
  }

  /** Active values it does not mention of the facets it does. */
  function LeftOutValues(store: Store, desired: seq<FacetSpec>): map<Key, Dict> {
    var facets, values := FacetsOf(desired), ValuesOf(desired);
    map k | k in store.values && k !in values && k.0 in facets && IsActive(store.values[k]) ::
      Retired(ValueItem, store.values[k])
  }

  lemma NoSources(store: Store, desired: seq<FacetSpec>)
    ensures PlanOf(store, desired, map[]).patchSources == map[] && PlanOf(store, desired, map[]).missing == {}
  {
  }
}
