/** What is kept of the labels a classifier answered with. */
module Normalization {
  import opened Options
  import opened Filtering
  import opened Sorting
  import opened Texts

  /** A field that should hold a number: left out, a finite number, or anything else
      (`nan`, an infinity, None, text that does not parse). */
  datatype Number = Missing | Finite(value: real) | Other

  /** One answered label. An axis that is not a string is None; an absent reason is
      empty; an entry of evidence that is not a mapping, or is an empty one, is None. */
  datatype Answer = Answer(
    axis: Option<string>, value: string, confidence: Number, reason: string, evidence: seq<Option<int>>)

  datatype Axis = Axis(values: set<string>, multiple: bool)
  type Axes = map<string, Axis>

  /** A label that was kept; an empty reason stands for None. */
  datatype Label = Label(axis: string, value: string, confidence: real, reason: string, evidence: seq<int>)

  const REASON_LIMIT: nat := 1000
  const EVIDENCE_LIMIT: nat := 50

  function Clamped(x: Number, default: real): real {
    match x
    case Missing => default
    case Other => 0.0
    case Finite(r) => if r < 0.0 then 0.0 else if r > 1.0 then 1.0 else r
  }

  function First<T>(xs: seq<T>, limit: nat): seq<T> {
    if |xs| <= limit then xs else xs[..limit]
  }

  function Usable(evidence: seq<Option<int>>): seq<int> {
    if evidence == [] then []
    else (match evidence[0] case Some(e) => [e] case None => []) + Usable(evidence[1..])
  }

  function Accepted(a: Answer, axes: Axes, allowed: set<string>, minimum: real): Option<Label> {
    if a.axis == None || a.axis.value !in axes || a.axis.value !in allowed
       || a.value !in axes[a.axis.value].values then None
    else
      var confidence := Clamped(a.confidence, 1.0);
      if confidence < minimum then None
      else Some(Label(a.axis.value, a.value, confidence, First(a.reason, REASON_LIMIT),
                      First(Usable(a.evidence), EVIDENCE_LIMIT)))
  }

  function Candidates(answers: seq<Answer>, axes: Axes, allowed: set<string>, minimum: real): seq<Label> {
    if answers == [] then []
    else
      var n := |answers| - 1;
      Candidates(answers[..n], axes, allowed, minimum)
      + match Accepted(answers[n], axes, allowed, minimum) case Some(l) => [l] case None => []
  }

  /** `_rank(a) < _rank(b)`. */
  predicate RankLess(a: Label, b: Label) {
    || a.confidence > b.confidence
    || (a.confidence == b.confidence
        && (Less(a.value, b.value) || (a.value == b.value && Less(a.reason, b.reason))))
  }

  function ByRank(): (Label, Label) -> bool {
    (a: Label, b: Label) => !RankLess(b, a)
  }

  /** By axis, then by rank. */
  predicate Before(a: Label, b: Label) {
    Less(a.axis, b.axis) || (a.axis == b.axis && RankLess(a, b))
  }

  /** The first candidate of least rank for an axis and value. */
  function Strongest(candidates: seq<Label>, axis: string, value: string): Option<Label> {
    if candidates == [] then None
    else
      var n := |candidates| - 1;
      var previous, c := Strongest(candidates[..n], axis, value), candidates[n];
      if c.axis == axis && c.value == value && (previous == None || RankLess(c, previous.value)) then Some(c)
      else previous
  }

  /** `l` is the strongest of its value and, on an axis of one value, of its axis. */
  ghost predicate Chosen(candidates: seq<Label>, axes: Axes, l: Label) {
    && Strongest(candidates, l.axis, l.value) == Some(l)
    && ((l.axis in axes && axes[l.axis].multiple) || Leads(candidates, l))
  }

  ghost predicate Leads(candidates: seq<Label>, l: Label) {
    forall c | c in candidates && c.axis == l.axis :: !RankLess(c, l)
  }

  /** `r` lists exactly the chosen candidates, by axis and rank. */
  ghost predicate IsNormal(r: seq<Label>, candidates: seq<Label>, axes: Axes) {
    && Strict(Before, r)
    && forall l :: l in r <==> Chosen(candidates, axes, l)
  }

  // ---- ranks ----

  lemma RankOrders()
    ensures forall a, b :: !(RankLess(a, b) && RankLess(b, a))
    ensures forall a, b, c :: !RankLess(b, a) && !RankLess(c, b) ==> !RankLess(c, a)
    ensures forall a, b :: !RankLess(a, b) && !RankLess(b, a) ==>
              a.confidence == b.confidence && a.value == b.value && a.reason == b.reason
    ensures Asymmetric(Before)
  {
    LessOrders();
  }

  lemma CandidatesAdd(answers: seq<Answer>, axes: Axes, allowed: set<string>, minimum: real)
    requires answers != []
    ensures var before := Candidates(answers[..|answers| - 1], axes, allowed, minimum);
            Candidates(answers, axes, allowed, minimum)
              == match Accepted(answers[|answers| - 1], axes, allowed, minimum)
                 case Some(l) => before + [l]
                 case None => before
  {
    var before := Candidates(answers[..|answers| - 1], axes, allowed, minimum);
    assert before + [] == before;
  }

  lemma StrongestAdd(candidates: seq<Label>, c: Label, axis: string, value: string)
    ensures var previous := Strongest(candidates, axis, value);
            Strongest(candidates + [c], axis, value)
              == if c.axis == axis && c.value == value && (previous == None || RankLess(c, previous.value)) then Some(c)
                 else previous
  {
    assert (candidates + [c])[..|candidates|] == candidates;
  }

  lemma {:induction false} StrongestIsLeast(candidates: seq<Label>, axis: string, value: string)
    ensures match Strongest(candidates, axis, value)
            case None => forall c | c in candidates :: c.axis != axis || c.value != value
            case Some(l) =>
              && l in candidates && l.axis == axis && l.value == value
              && forall c | c in candidates && c.axis == axis && c.value == value :: !RankLess(c, l)
  {
    if candidates != [] {
      var n := |candidates| - 1;
      StrongestIsLeast(candidates[..n], axis, value);
      RankOrders();
      assert candidates == candidates[..n] + [candidates[n]];
    }
  }

  // ---- the loops ----

  /** The dictionary of the first loop holds the strongest candidate of every key. */
  ghost predicate HoldsStrongest(strongest: map<(string, string), Label>, candidates: seq<Label>) {
    forall axis: string, value: string ::
      Strongest(candidates, axis, value)
        == if (axis, value) in strongest then Some(strongest[(axis, value)]) else None
  }

  method CollectStrongest(answers: seq<Answer>, axes: Axes, allowed: set<string>, minimum: real)
    returns (strongest: map<(string, string), Label>)
    ensures HoldsStrongest(strongest, Candidates(answers, axes, allowed, minimum))
  {
    strongest := map[];
    for n := 0 to |answers|
      invariant HoldsStrongest(strongest, Candidates(answers[..n], axes, allowed, minimum))
    {
      assert answers[..n + 1][..n] == answers[..n];
      CandidatesAdd(answers[..n + 1], axes, allowed, minimum);
      var accepted := Accepted(answers[n], axes, allowed, minimum);
      if accepted.Some? {
        var candidate := accepted.value;
        var key := (candidate.axis, candidate.value);
        forall axis: string, value: string {
          StrongestAdd(Candidates(answers[..n], axes, allowed, minimum), candidate, axis, value);
        }
        if key !in strongest || RankLess(candidate, strongest[key]) {
          strongest := strongest[key := candidate];
        }
      }
    }
    assert answers[..|answers|] == answers;
  }

  /** Each list of the second dictionary holds exactly the strongest labels of its axis. */
  ghost predicate HoldsGroups(
    grouped: map<string, seq<Label>>, strongest: map<(string, string), Label>, done: set<(string, string)>)
  {
    && (forall axis | axis in grouped :: grouped[axis] != [])
    && (forall l: Label :: InGroup(grouped, l) <==>
          (l.axis, l.value) in strongest && strongest[(l.axis, l.value)] == l && (l.axis, l.value) in done)
    && (forall axis, l | axis in grouped && l in grouped[axis] :: l.axis == axis)
  }

  predicate InGroup(grouped: map<string, seq<Label>>, l: Label) {
    l.axis in grouped && l in grouped[l.axis]
  }

  ghost predicate KeyedByLabel(strongest: map<(string, string), Label>) {
    forall key | key in strongest :: (strongest[key].axis, strongest[key].value) == key
  }

  method Group(strongest: map<(string, string), Label>) returns (grouped: map<string, seq<Label>>)
    requires KeyedByLabel(strongest)
    ensures HoldsGroups(grouped, strongest, strongest.Keys)
    ensures forall axis | axis in grouped :: Distinct(grouped[axis])
  {
    grouped := map[];
    var rest := strongest.Keys;
    while rest != {}
      invariant rest <= strongest.Keys
      invariant HoldsGroups(grouped, strongest, strongest.Keys - rest)
      invariant forall axis | axis in grouped :: Distinct(grouped[axis])
    {
      var key :| key in rest;
      var picked := strongest[key];
      var previous := if picked.axis in grouped then grouped[picked.axis] else [];
      assert !InGroup(grouped, picked);
      grouped := grouped[picked.axis := previous + [picked]];
      rest := rest - {key};
    }
  }

  /** The values of one axis in rank order, cut to the first where only one is allowed. */
  function Cut(group: seq<Label>, multiple: bool): seq<Label> {
    var values := Sort(ByRank(), group);
    if multiple || values == [] then values else values[..1]
  }

  lemma SortedGroup(group: seq<Label>, multiple: bool)
    requires Distinct(group)
    requires forall x, y | x in group && y in group && x.value == y.value :: x == y
    ensures var values := Cut(group, multiple);
            && (forall i, j | 0 <= i < j < |values| :: RankLess(values[i], values[j]))
            && forall l :: l in values <==> l in group && (multiple || forall c | c in group :: !RankLess(c, l))
  {
    var values := Sort(ByRank(), group);
    RankOrders();
    SortPermutes(ByRank(), group);
    SortSorts(ByRank(), group);
    SameElements(values, group);
    DistinctPermutes(group, values);
    forall i, j | 0 <= i < j < |values|
      ensures RankLess(values[i], values[j])
    {
      assert values[i] in group && values[j] in group && values[i] != values[j];
      assert ByRank()(values[i], values[j]);
    }
    forall l | l in group && forall c | c in group :: !RankLess(c, l)
      ensures l == values[0]
    {
      assert l in values && values[0] in group;
    }
    forall c | c in group && values != []
      ensures !RankLess(c, values[0])
    {
      assert c in values;
    }
  }

  /** What a normal form holds of the axes already written out. */
  ghost predicate Written(r: seq<Label>, candidates: seq<Label>, axes: Axes, left: set<string>) {
    && Strict(Before, r)
    && (forall l :: l in r <==> l.axis !in left && Chosen(candidates, axes, l))
    && (forall l, axis | l in r && axis in left :: Less(l.axis, axis))
  }

  lemma WriteAxis(
    r: seq<Label>, candidates: seq<Label>, axes: Axes, left: set<string>, axis: string, group: seq<Label>)
    requires Written(r, candidates, axes, left) && axis in left && axis in axes
    requires forall other | other in left :: Leq(axis, other)
    requires Distinct(group)
    requires forall l :: l in group <==> l.axis == axis && Strongest(candidates, axis, l.value) == Some(l)
    ensures Written(r + Cut(group, axes[axis].multiple), candidates, axes, left - {axis})
  {
    var values := Cut(group, axes[axis].multiple);
    SortedGroup(group, axes[axis].multiple);
    LessOrders();
    forall l | l in group
      ensures Leads(candidates, l) <==> forall c | c in group :: !RankLess(c, l)
    {
      GroupLeads(candidates, axis, group, l);
    }
    assert forall l :: l in values <==> l.axis == axis && Chosen(candidates, axes, l);
    forall i, j | 0 <= i < j < |r + values|
      ensures Before((r + values)[i], (r + values)[j])
    {
      if i < |r| <= j {
        assert r[i] in r && values[j - |r|] in values;
      }
    }
  }

  /** Least among the strongest of an axis is least among all its candidates. */
  lemma GroupLeads(candidates: seq<Label>, axis: string, group: seq<Label>, l: Label)
    requires forall x :: x in group <==> x.axis == axis && Strongest(candidates, axis, x.value) == Some(x)
    requires l in group
    ensures Leads(candidates, l) <==> forall c | c in group :: !RankLess(c, l)
  {
    RankOrders();
    forall c | c in candidates && c.axis == axis
      ensures exists g :: g in group && !RankLess(c, g)
    {
      StrongestIsLeast(candidates, axis, c.value);
      assert Strongest(candidates, axis, c.value).value in group;
    }
    forall c | c in group
      ensures c in candidates && c.axis == axis
    {
      StrongestIsLeast(candidates, axis, c.value);
    }
  }

  method NormalizeLabels(answers: seq<Answer>, axes: Axes, allowed: set<string>, minConfidence: Number)
    returns (r: seq<Label>)
    ensures IsNormal(r, Candidates(answers, axes, allowed, Clamped(minConfidence, 0.0)), axes)
  {
    var minimum := Clamped(minConfidence, 0.0);
    ghost var candidates := Candidates(answers, axes, allowed, minimum);
    var strongest := CollectStrongest(answers, axes, allowed, minimum);
    StrongestKeyed(strongest, candidates);
    var grouped := Group(strongest);
    r := [];
    var sorted := SortedSet(grouped.Keys);
    StartWriting(strongest, grouped, candidates, axes);
    assert grouped.Keys == From(sorted, 0);
    for n := 0 to |sorted|
      invariant Written(r, candidates, axes, From(sorted, n))
    {
      hide Written, Candidates, Strongest, Clamped;
      var axis := sorted[n];
      NextAxis(sorted, n);
      AxisKnown(strongest, grouped, answers, axes, allowed, minimum, axis);
      WriteAxis(r, candidates, axes, From(sorted, n), axis, grouped[axis]);
      r := r + Cut(grouped[axis], axes[axis].multiple);
    }
  }

  /** The axes still to be written out. */
  function From(sorted: seq<string>, n: nat): set<string>
    requires n <= |sorted|
  {
    set axis | axis in sorted[n..]
  }

  lemma NextAxis(sorted: seq<string>, n: nat)
    requires n < |sorted| && Strict(Less, sorted)
    ensures sorted[n] in sorted && sorted[n] in From(sorted, n)
    ensures forall other | other in From(sorted, n) :: Leq(sorted[n], other)
    ensures From(sorted, n + 1) == From(sorted, n) - {sorted[n]}
  {
    assert sorted[n..] == [sorted[n]] + sorted[n + 1..];
    forall other | other in sorted[n + 1..]
      ensures Less(sorted[n], other) && other != sorted[n]
    {
      var i :| 0 <= i < |sorted[n + 1..]| && sorted[n + 1..][i] == other;
      assert Less(sorted[n], sorted[n + 1 + i]);
      LessTrichotomy(other, other);
    }
  }

  lemma StrongestKeyed(strongest: map<(string, string), Label>, candidates: seq<Label>)
    requires HoldsStrongest(strongest, candidates)
    ensures KeyedByLabel(strongest)
  {
    forall key | key in strongest
      ensures (strongest[key].axis, strongest[key].value) == key
    {
      StrongestIsLeast(candidates, key.0, key.1);
      assert Strongest(candidates, key.0, key.1) == Some(strongest[(key.0, key.1)]);
    }
  }

  lemma StartWriting(
    strongest: map<(string, string), Label>, grouped: map<string, seq<Label>>, candidates: seq<Label>, axes: Axes)
    requires HoldsStrongest(strongest, candidates) && HoldsGroups(grouped, strongest, strongest.Keys)
    ensures Written([], candidates, axes, grouped.Keys)
  {
    forall l | Chosen(candidates, axes, l)
      ensures l.axis in grouped
    {
      assert InGroup(grouped, l);
    }
  }

  lemma AxisKnown(
    strongest: map<(string, string), Label>, grouped: map<string, seq<Label>>,
    answers: seq<Answer>, axes: Axes, allowed: set<string>, minimum: real, axis: string)
    requires HoldsStrongest(strongest, Candidates(answers, axes, allowed, minimum))
    requires HoldsGroups(grouped, strongest, strongest.Keys) && axis in grouped
    ensures axis in axes
    ensures var candidates := Candidates(answers, axes, allowed, minimum);
            forall l :: l in grouped[axis] <==> l.axis == axis && Strongest(candidates, axis, l.value) == Some(l)
  {
    var candidates := Candidates(answers, axes, allowed, minimum);
    forall l
      ensures l in grouped[axis] <==> l.axis == axis && Strongest(candidates, axis, l.value) == Some(l)
    {
      if l in grouped[axis] {
        assert InGroup(grouped, l);
      }
      if l.axis == axis && Strongest(candidates, axis, l.value) == Some(l) {
        assert InGroup(grouped, l);
      }
    }
    var l := grouped[axis][0];
    assert l in grouped[axis];
    StrongestIsLeast(candidates, axis, l.value);
    CandidatesFit(answers, axes, allowed, minimum);
  }

  // ---- what a normal form promises ----

  predicate Fits(l: Label, axes: Axes, allowed: set<string>, minimum: real) {
    && l.axis in axes && l.axis in allowed && l.value in axes[l.axis].values
    && minimum <= l.confidence && 0.0 <= l.confidence <= 1.0
    && |l.reason| <= REASON_LIMIT && |l.evidence| <= EVIDENCE_LIMIT
  }

  lemma {:induction false} CandidatesFit(answers: seq<Answer>, axes: Axes, allowed: set<string>, minimum: real)
    ensures forall l | l in Candidates(answers, axes, allowed, minimum) :: Fits(l, axes, allowed, minimum)
  {
    if answers != [] {
      CandidatesFit(answers[..|answers| - 1], axes, allowed, minimum);
    }
  }

  /** No answer can widen the axes, the values or the number of values of an axis. */
  lemma NormalIsBounded(r: seq<Label>, answers: seq<Answer>, axes: Axes, allowed: set<string>, minimum: real)
    requires IsNormal(r, Candidates(answers, axes, allowed, minimum), axes)
    ensures forall l | l in r :: Fits(l, axes, allowed, minimum)
    ensures forall i, j | 0 <= i < j < |r| :: (r[i].axis, r[i].value) != (r[j].axis, r[j].value)
    ensures forall i, j | 0 <= i < j < |r| && r[i].axis == r[j].axis :: r[i].axis in axes && axes[r[i].axis].multiple
  {
    var candidates := Candidates(answers, axes, allowed, minimum);
    CandidatesFit(answers, axes, allowed, minimum);
    RankOrders();
    forall l | l in r
      ensures l in candidates
    {
      StrongestIsLeast(candidates, l.axis, l.value);
    }
    forall i, j | 0 <= i < j < |r|
      ensures (r[i].axis, r[i].value) != (r[j].axis, r[j].value)
      ensures r[i].axis == r[j].axis ==> r[i].axis in axes && axes[r[i].axis].multiple
    {
      assert r[i] in r && r[j] in r && Before(r[i], r[j]);
      assert Chosen(candidates, axes, r[i]) && Chosen(candidates, axes, r[j]);
    }
  }

  // ---- what is kept of which answer ----

  /** The confidence an answer stands for: 1 if it leaves it out, 0 if it gives no finite
      number, and otherwise the nearest point of 0..1. */
  predicate Confident(given: Number, confidence: real) {
    match given
    case Missing => confidence == 1.0
    case Other => confidence == 0.0
    case Finite(x) =>
      && (0.0 <= x <= 1.0 ==> confidence == x) && (x < 0.0 ==> confidence == 0.0) && (x > 1.0 ==> confidence == 1.0)
  }

  /** `l` is what answer `a` says, cut to the limits, and may be said. */
  predicate Says(a: Answer, l: Label, axes: Axes, allowed: set<string>, minimum: real) {
    && a.axis == Some(l.axis) && l.axis in axes && l.axis in allowed
    && a.value == l.value && l.value in axes[l.axis].values
    && Confident(a.confidence, l.confidence) && l.confidence >= minimum
    && l.reason <= a.reason && (l.reason == a.reason || |l.reason| == 1000) && |l.reason| <= 1000
    && l.evidence <= Usable(a.evidence) && (l.evidence == Usable(a.evidence) || |l.evidence| == 50) && |l.evidence| <= 50
  }

  lemma AcceptedExactly(a: Answer, l: Label, axes: Axes, allowed: set<string>, minimum: real)
    ensures Accepted(a, axes, allowed, minimum) == Some(l) <==> Says(a, l, axes, allowed, minimum)
  {
    hide Usable;
    if Says(a, l, axes, allowed, minimum) {
      assert l.reason == First(a.reason, 1000);
      assert l.evidence == First(Usable(a.evidence), 50);
    }
  }

  /** Of the evidence the entries that are there count, in order. */
  lemma {:induction false} UsableAdds(xs: seq<Option<int>>, ys: seq<Option<int>>)
    ensures Usable(xs + ys) == Usable(xs) + Usable(ys)
  {
    if xs == [] {
      assert xs + ys == ys;
    } else {
      var head := match xs[0] case Some(e) => [e] case None => [];
      assert (xs + ys)[0] == xs[0] && (xs + ys)[1..] == xs[1..] + ys;
      UsableAdds(xs[1..], ys);
      assert head + (Usable(xs[1..]) + Usable(ys)) == (head + Usable(xs[1..])) + Usable(ys);
    }
  }

  lemma UsableOne(x: Option<int>)
    ensures Usable([x]) == match x case Some(e) => [e] case None => []
  {
    assert Usable([x][1..]) == [];
  }

  /** `l` is at least as strong as `c`: more confident, or as much with the smaller value,
      or that too with no larger a reason. */
  predicate AsStrong(l: Label, c: Label) {
    || l.confidence > c.confidence
    || (l.confidence == c.confidence
        && (Less(l.value, c.value) || (l.value == c.value && !Less(c.reason, l.reason))))
  }

  lemma UnrankedIsAsStrong(l: Label, c: Label)
    ensures !RankLess(c, l) <==> AsStrong(l, c)
  {
    LessOrders();
  }

  /** The least of the candidates of an axis is the strongest of its value, too. */
  lemma {:induction false} LeaderExists(candidates: seq<Label>, c: Label) returns (l: Label)
    requires c in candidates
    ensures l in candidates && l.axis == c.axis && Leads(candidates, l)
    ensures Strongest(candidates, l.axis, l.value) == Some(l)
  {
    var best := LeastRank(candidates, c);
    StrongestIsLeast(candidates, best.axis, best.value);
    l := Strongest(candidates, best.axis, best.value).value;
    RankOrders();
  }

  lemma {:induction false} LeastRank(candidates: seq<Label>, c: Label) returns (l: Label)
    requires c in candidates
    ensures l in candidates && l.axis == c.axis && Leads(candidates, l)
  {
    var n := |candidates| - 1;
    var before, last := candidates[..n], candidates[n];
    assert candidates == before + [last];
    RankOrders();
    if c in before {
      l := LeastRank(before, c);
      if last.axis == c.axis && RankLess(last, l) {
        l := last;
      }
    } else if x :| x in before && x.axis == c.axis {
      l := LeastRank(before, x);
      if RankLess(last, l) {
        l := last;
      }
    } else {
      l := last;
    }
  }

  /** Every kept label is what some answer says. */
  lemma KeptWasSaid(r: seq<Label>, answers: seq<Answer>, axes: Axes, allowed: set<string>, minimum: real, l: Label)
    requires IsNormal(r, Candidates(answers, axes, allowed, minimum), axes) && l in r
    ensures exists a :: a in answers && Says(a, l, axes, allowed, minimum)
  {
    hide Accepted, Says;
    StrongestIsLeast(Candidates(answers, axes, allowed, minimum), l.axis, l.value);
    CandidatesOf(answers, axes, allowed, minimum);
    var a :| a in answers && Accepted(a, axes, allowed, minimum) == Some(l);
    AcceptedExactly(a, l, axes, allowed, minimum);
  }

  /** And whatever an answer may say gives way only to something as strong: of its own
      value on an axis of many, of its axis on an axis of one. */
  lemma SaidIsKeptOrBeaten(
    r: seq<Label>, answers: seq<Answer>, axes: Axes, allowed: set<string>, minimum: real, a: Answer, c: Label)
    requires IsNormal(r, Candidates(answers, axes, allowed, minimum), axes)
    requires a in answers && Says(a, c, axes, allowed, minimum)
    ensures exists l :: l in r && l.axis == c.axis && AsStrong(l, c) && (axes[c.axis].multiple ==> l.value == c.value)
  {
    hide Accepted, RankLess, AsStrong;
    var candidates := Candidates(answers, axes, allowed, minimum);
    AcceptedExactly(a, c, axes, allowed, minimum);
    CandidatesOf(answers, axes, allowed, minimum);
    var l: Label;
    if axes[c.axis].multiple {
      StrongestIsLeast(candidates, c.axis, c.value);
      l := Strongest(candidates, c.axis, c.value).value;
    } else {
      l := LeaderExists(candidates, c);
    }
    UnrankedIsAsStrong(l, c);
    assert Chosen(candidates, axes, l);
  }

  /** The labels come by axis, on one axis the more confident first and then by value. */
  lemma KeptInOrder(r: seq<Label>, candidates: seq<Label>, axes: Axes, i: nat, j: nat)
    requires IsNormal(r, candidates, axes) && i < j < |r|
    ensures || Less(r[i].axis, r[j].axis)
            || (r[i].axis == r[j].axis
                && (r[i].confidence > r[j].confidence
                    || (r[i].confidence == r[j].confidence && !Less(r[j].value, r[i].value))))
  {
    assert Before(r[i], r[j]);
    LessOrders();
  }

  // ---- order independence ----

  /** A label without its evidence. */
  datatype Face = Face(axis: string, value: string, confidence: real, reason: string)

  function FaceOf(l: Label): Face {
    Face(l.axis, l.value, l.confidence, l.reason)
  }

  function Faces(ls: seq<Label>): seq<Face> {
    seq(|ls|, i requires 0 <= i < |ls| => FaceOf(ls[i]))
  }

  ghost predicate SameFaces(ls: seq<Label>, ls': seq<Label>) {
    && (forall l | l in ls :: exists l' :: l' in ls' && FaceOf(l') == FaceOf(l))
    && (forall l' | l' in ls' :: exists l :: l in ls && FaceOf(l) == FaceOf(l'))
  }

  lemma RankTie(a: Label, b: Label)
    requires !RankLess(a, b) && !RankLess(b, a) && a.axis == b.axis
    ensures FaceOf(a) == FaceOf(b)
  {
    RankOrders();
  }

  lemma RankOfFace(a: Label, a': Label, b: Label, b': Label)
    requires FaceOf(a) == FaceOf(a') && FaceOf(b) == FaceOf(b')
    ensures RankLess(a, b) == RankLess(a', b')
  {
  }

  lemma Twin(candidates: seq<Label>, candidates': seq<Label>, l: Label) returns (twin: Label)
    requires (SameFaces(candidates, candidates') || SameFaces(candidates', candidates)) && l in candidates
    ensures twin in candidates' && FaceOf(twin) == FaceOf(l)
  {
    twin :| twin in candidates' && FaceOf(twin) == FaceOf(l);
  }

  lemma StrongestFace(candidates: seq<Label>, candidates': seq<Label>, l: Label)
    requires SameFaces(candidates, candidates')
    requires Strongest(candidates, l.axis, l.value) == Some(l)
    ensures Strongest(candidates', l.axis, l.value).Some?
    ensures FaceOf(Strongest(candidates', l.axis, l.value).value) == FaceOf(l)
  {
    hide Strongest, RankLess, SameFaces;
    StrongestIsLeast(candidates, l.axis, l.value);
    StrongestIsLeast(candidates', l.axis, l.value);
    var twin := Twin(candidates, candidates', l);
    var l' := Strongest(candidates', l.axis, l.value).value;
    var twin' := Twin(candidates', candidates, l');
    RankOfFace(twin', l', l, l);
    RankOfFace(twin, l, l', l');
    RankTie(l, l');
  }

  lemma LeadsFace(candidates: seq<Label>, candidates': seq<Label>, l: Label, l': Label)
    requires SameFaces(candidates, candidates') && Leads(candidates, l) && FaceOf(l) == FaceOf(l')
    ensures Leads(candidates', l')
  {
    hide RankLess, SameFaces;
    forall c | c in candidates' && c.axis == l'.axis
      ensures !RankLess(c, l')
    {
      var twin := Twin(candidates', candidates, c);
      RankOfFace(twin, c, l, l');
    }
  }

  lemma ChosenFace(candidates: seq<Label>, candidates': seq<Label>, axes: Axes, l: Label)
    requires SameFaces(candidates, candidates') && Chosen(candidates, axes, l)
    ensures exists l' :: Chosen(candidates', axes, l') && FaceOf(l') == FaceOf(l)
  {
    hide Strongest, SameFaces, Leads, RankLess;
    StrongestFace(candidates, candidates', l);
    var l' := Strongest(candidates', l.axis, l.value).value;
    if Leads(candidates, l) {
      LeadsFace(candidates, candidates', l, l');
    }
    assert Chosen(candidates', axes, l');
  }

  predicate FaceBefore(a: Face, b: Face) {
    Before(Label(a.axis, a.value, a.confidence, a.reason, []), Label(b.axis, b.value, b.confidence, b.reason, []))
  }

  lemma FacesStrict(r: seq<Label>)
    requires Strict(Before, r)
    ensures Strict(FaceBefore, Faces(r))
    ensures forall f :: f in Faces(r) <==> exists l :: l in r && FaceOf(l) == f
  {
    forall l | l in r
      ensures FaceOf(l) in Faces(r)
    {
      var i :| 0 <= i < |r| && r[i] == l;
      assert Faces(r)[i] == FaceOf(l);
    }
    forall f | f in Faces(r)
      ensures exists l :: l in r && FaceOf(l) == f
    {
      var i :| 0 <= i < |r| && Faces(r)[i] == f;
      assert r[i] in r && FaceOf(r[i]) == f;
    }
  }

  /** The same answers in any order, or with other evidence, give the same labels up
      to evidence: same axes, values, confidences and reasons in the same places. */
  lemma OrderIsForgotten(r: seq<Label>, r': seq<Label>, candidates: seq<Label>, candidates': seq<Label>, axes: Axes)
    requires IsNormal(r, candidates, axes) && IsNormal(r', candidates', axes)
    requires SameFaces(candidates, candidates')
    ensures Faces(r) == Faces(r')
  {
    FacesStrict(r);
    FacesStrict(r');
    RankOrders();
    FacesIncluded(r, r', candidates, candidates', axes);
    FacesIncluded(r', r, candidates', candidates, axes);
    StrictIsUnique(FaceBefore, Faces(r), Faces(r'));
  }

  lemma FacesIncluded(r: seq<Label>, r': seq<Label>, candidates: seq<Label>, candidates': seq<Label>, axes: Axes)
    requires IsNormal(r, candidates, axes) && IsNormal(r', candidates', axes)
    requires SameFaces(candidates, candidates')
    ensures forall f | f in Faces(r) :: f in Faces(r')
  {
    FacesStrict(r);
    FacesStrict(r');
    forall f | f in Faces(r)
      ensures f in Faces(r')
    {
      var l :| l in r && FaceOf(l) == f;
      ChosenFace(candidates, candidates', axes, l);
      var l' :| Chosen(candidates', axes, l') && FaceOf(l') == FaceOf(l);
      assert l' in r';
    }
  }

  lemma {:induction false} CandidatesOf(answers: seq<Answer>, axes: Axes, allowed: set<string>, minimum: real)
    ensures forall l :: l in Candidates(answers, axes, allowed, minimum) <==>
              exists a :: a in answers && Accepted(a, axes, allowed, minimum) == Some(l)
  {
    if answers != [] {
      var n := |answers| - 1;
      CandidatesOf(answers[..n], axes, allowed, minimum);
      assert answers == answers[..n] + [answers[n]];
      forall l | l in Candidates(answers, axes, allowed, minimum)
        ensures exists a :: a in answers && Accepted(a, axes, allowed, minimum) == Some(l)
      {
        if l !in Candidates(answers[..n], axes, allowed, minimum) {
          assert answers[n] in answers;
        }
      }
      forall l | exists a :: a in answers && Accepted(a, axes, allowed, minimum) == Some(l)
        ensures l in Candidates(answers, axes, allowed, minimum)
      {
        var a :| a in answers && Accepted(a, axes, allowed, minimum) == Some(l);
        if a in answers[..n] {
          assert l in Candidates(answers[..n], axes, allowed, minimum);
        }
      }
    }
  }

  /** Rearranging the answers, or repeating some, changes nothing but evidence. */
  lemma AnswersInAnyOrder(
    answers: seq<Answer>, answers': seq<Answer>, axes: Axes, allowed: set<string>, minimum: real,
    r: seq<Label>, r': seq<Label>)
    requires forall a :: a in answers <==> a in answers'
    requires IsNormal(r, Candidates(answers, axes, allowed, minimum), axes)
    requires IsNormal(r', Candidates(answers', axes, allowed, minimum), axes)
    ensures Faces(r) == Faces(r')
  {
    CandidatesOf(answers, axes, allowed, minimum);
    CandidatesOf(answers', axes, allowed, minimum);
    OrderIsForgotten(r, r', Candidates(answers, axes, allowed, minimum),
                     Candidates(answers', axes, allowed, minimum), axes);
  }

  /** No accepted answer looks like a kept label and has other evidence. */
  ghost predicate EvidencePinned(r: seq<Label>, candidates: seq<Label>) {
    forall l, c | l in r && c in candidates && FaceOf(c) == FaceOf(l) :: c == l
  }

  /** Evidence included, where it is pinned. */
  lemma EvidenceInAnyOrder(
    answers: seq<Answer>, answers': seq<Answer>, axes: Axes, allowed: set<string>, minimum: real,
    r: seq<Label>, r': seq<Label>)
    requires forall a :: a in answers <==> a in answers'
    requires IsNormal(r, Candidates(answers, axes, allowed, minimum), axes)
    requires IsNormal(r', Candidates(answers', axes, allowed, minimum), axes)
    requires EvidencePinned(r, Candidates(answers, axes, allowed, minimum))
    ensures r == r'
  {
    AnswersInAnyOrder(answers, answers', axes, allowed, minimum, r, r');
    CandidatesOf(answers, axes, allowed, minimum);
    CandidatesOf(answers', axes, allowed, minimum);
    assert |r| == |Faces(r)| == |Faces(r')| == |r'|;
    hide Accepted, RankLess;
    forall i | 0 <= i < |r|
      ensures r[i] == r'[i]
    {
      assert FaceOf(r[i]) == Faces(r)[i] == Faces(r')[i] == FaceOf(r'[i]);
      assert r[i] in r && r'[i] in r';
      StrongestIsLeast(Candidates(answers', axes, allowed, minimum), r'[i].axis, r'[i].value);
    }
  }

  lemma {:induction false} CandidatesJoin(
    xs: seq<Answer>, ys: seq<Answer>, axes: Axes, allowed: set<string>, minimum: real)
    ensures Candidates(xs + ys, axes, allowed, minimum)
         == Candidates(xs, axes, allowed, minimum) + Candidates(ys, axes, allowed, minimum)
  {
    hide Accepted;
    if ys == [] {
      assert xs + ys == xs;
    } else {
      var n := |ys| - 1;
      assert (xs + ys)[..|xs + ys| - 1] == xs + ys[..n];
      CandidatesJoin(xs, ys[..n], axes, allowed, minimum);
    }
  }

  /** Of equal rank the first is kept. */
  lemma {:induction false} FirstIsStrongest(c: Label, rest: seq<Label>)
    requires forall x | x in rest && x.axis == c.axis && x.value == c.value :: !RankLess(x, c)
    ensures Strongest([c] + rest, c.axis, c.value) == Some(c)
  {
    hide RankLess;
    if rest == [] {
      assert [c] + rest == [c] && [c][..0] == [];
    } else {
      var n := |rest| - 1;
      assert ([c] + rest)[..n + 1] == [c] + rest[..n];
      assert forall x | x in rest[..n] :: x in rest;
      assert rest[n] in rest;
      FirstIsStrongest(c, rest[..n]);
    }
  }

  /** Where it is not pinned, evidence follows the order: with the other answer of equal
      rank put first, its evidence is kept instead. */
  lemma EvidenceFollowsOrder(
    answers: seq<Answer>, axes: Axes, allowed: set<string>, minimum: real, r: seq<Label>)
    requires IsNormal(r, Candidates(answers, axes, allowed, minimum), axes)
    requires !EvidencePinned(r, Candidates(answers, axes, allowed, minimum))
    ensures exists answers' ::
              && multiset(answers') == multiset(answers)
              && forall r' | IsNormal(r', Candidates(answers', axes, allowed, minimum), axes) :: r' != r
  {
    hide RankLess, Candidates, Strongest, Leads;
    var candidates := Candidates(answers, axes, allowed, minimum);
    var l, c :| l in r && c in candidates && FaceOf(c) == FaceOf(l) && c != l;
    var answers' := OtherFirst(answers, axes, allowed, minimum, l, c);
    assert c !in r;
    forall r' | IsNormal(r', Candidates(answers', axes, allowed, minimum), axes)
      ensures r' != r
    {
      assert c in r';
    }
  }

  lemma OtherFirst(answers: seq<Answer>, axes: Axes, allowed: set<string>, minimum: real, l: Label, c: Label)
    returns (answers': seq<Answer>)
    requires Chosen(Candidates(answers, axes, allowed, minimum), axes, l)
    requires c in Candidates(answers, axes, allowed, minimum) && FaceOf(c) == FaceOf(l)
    ensures multiset(answers') == multiset(answers)
    ensures Chosen(Candidates(answers', axes, allowed, minimum), axes, c)
  {
    hide Chosen, Accepted, Candidates;
    CandidatesOf(answers, axes, allowed, minimum);
    var a :| a in answers && Accepted(a, axes, allowed, minimum) == Some(c);
    var i :| 0 <= i < |answers| && answers[i] == a;
    var rest := answers[..i] + answers[i + 1..];
    answers' := [a] + rest;
    assert answers == answers[..i] + [a] + answers[i + 1..];
    PutFirst(answers, answers', rest, axes, allowed, minimum, a, c, l);
  }

  lemma PutFirst(
    answers: seq<Answer>, answers': seq<Answer>, rest: seq<Answer>, axes: Axes, allowed: set<string>, minimum: real,
    a: Answer, c: Label, l: Label)
    requires answers' == [a] + rest && multiset(answers') == multiset(answers)
    requires Accepted(a, axes, allowed, minimum) == Some(c)
    requires Chosen(Candidates(answers, axes, allowed, minimum), axes, l) && FaceOf(c) == FaceOf(l)
    ensures Chosen(Candidates(answers', axes, allowed, minimum), axes, c)
  {
    hide RankLess, Accepted, Strongest;
    var candidates, candidates' := Candidates(answers, axes, allowed, minimum), Candidates(answers', axes, allowed, minimum);
    CandidatesJoin([a], rest, axes, allowed, minimum);
    assert [a][..0] == [];
    assert Candidates([a], axes, allowed, minimum) == [c];
    SameElements(answers, answers');
    CandidatesOf(answers, axes, allowed, minimum);
    CandidatesOf(answers', axes, allowed, minimum);
    StrongestIsLeast(candidates, l.axis, l.value);
    var others := Candidates(rest, axes, allowed, minimum);
    forall x | x in others && x.axis == c.axis && x.value == c.value
      ensures !RankLess(x, c)
    {
      assert x in candidates';
      RankOfFace(x, x, l, c);
    }
    FirstIsStrongest(c, others);
    if Leads(candidates, l) {
      LeadsFace(candidates, candidates', l, c);
    }
  }

  // ---- idempotence ----

  /** A kept label handed in again. */
  function Again(l: Label): Answer {
    Answer(Some(l.axis), l.value, Finite(l.confidence), l.reason, Entries(l.evidence))
  }

  function Entries(evidence: seq<int>): seq<Option<int>> {
    seq(|evidence|, i requires 0 <= i < |evidence| => Some(evidence[i]))
  }

  function AllAgain(ls: seq<Label>): seq<Answer> {
    seq(|ls|, i requires 0 <= i < |ls| => Again(ls[i]))
  }

  lemma {:induction false} UsableAgain(evidence: seq<int>)
    ensures Usable(Entries(evidence)) == evidence
  {
    if evidence != [] {
      UsableAgain(evidence[1..]);
      assert Entries(evidence)[1..] == Entries(evidence[1..]);
    }
  }

  lemma AcceptedAgain(l: Label, axes: Axes, allowed: set<string>, minimum: real)
    requires Fits(l, axes, allowed, minimum)
    ensures Accepted(Again(l), axes, allowed, minimum) == Some(l)
  {
    hide Usable, Entries;
    UsableAgain(l.evidence);
  }

  lemma {:induction false} CandidatesAgain(ls: seq<Label>, axes: Axes, allowed: set<string>, minimum: real)
    requires forall l | l in ls :: Fits(l, axes, allowed, minimum)
    ensures Candidates(AllAgain(ls), axes, allowed, minimum) == ls
  {
    hide Accepted, Again, Fits;
    if ls != [] {
      var n := |ls| - 1;
      AllAgainLast(ls);
      CandidatesAdd(AllAgain(ls), axes, allowed, minimum);
      hide *;
      assert forall l | l in ls[..n] :: l in ls;
      CandidatesAgain(ls[..n], axes, allowed, minimum);
      assert ls[n] in ls;
      AcceptedAgain(ls[n], axes, allowed, minimum);
      assert ls == ls[..n] + [ls[n]];
    }
  }

  lemma AllAgainLast(ls: seq<Label>)
    requires ls != []
    ensures var n := |ls| - 1;
            |AllAgain(ls)| == n + 1 && AllAgain(ls)[..n] == AllAgain(ls[..n]) && AllAgain(ls)[n] == Again(ls[n])
  {
  }

  lemma {:induction false} StrongestOfUnique(ls: seq<Label>, l: Label)
    requires l in ls && forall x | x in ls && x.axis == l.axis && x.value == l.value :: x == l
    ensures Strongest(ls, l.axis, l.value) == Some(l)
  {
    StrongestIsLeast(ls, l.axis, l.value);
  }

  /** Normalizing a normal form gives it back, evidence and all. */
  lemma NormalizingAgain(
    answers: seq<Answer>, axes: Axes, allowed: set<string>, minimum: real, r: seq<Label>, r': seq<Label>)
    requires IsNormal(r, Candidates(answers, axes, allowed, minimum), axes)
    requires IsNormal(r', Candidates(AllAgain(r), axes, allowed, minimum), axes)
    ensures r' == r
  {
    var candidates := Candidates(answers, axes, allowed, minimum);
    NormalIsBounded(r, answers, axes, allowed, minimum);
    CandidatesAgain(r, axes, allowed, minimum);
    RankOrders();
    forall l
      ensures l in r <==> Chosen(r, axes, l)
    {
      if l in r {
        StrongestOfUnique(r, l);
        if Leads(candidates, l) {
          forall c | c in r && c.axis == l.axis
            ensures !RankLess(c, l)
          {
            StrongestIsLeast(candidates, c.axis, c.value);
          }
        }
      }
      if Chosen(r, axes, l) {
        StrongestIsLeast(r, l.axis, l.value);
      }
    }
    StrictIsUnique(Before, r, r');
  }

  // ---- thresholds ----

  function Above(minimum: real): Label -> bool {
    (l: Label) => minimum <= l.confidence
  }

  /** A higher minimum keeps the same strongest candidate, or none. */
  lemma {:induction false} StrongestAbove(
    answers: seq<Answer>, axes: Axes, allowed: set<string>, low: real, high: real, axis: string, value: string)
    requires low <= high
    ensures var s := Strongest(Candidates(answers, axes, allowed, low), axis, value);
            Strongest(Candidates(answers, axes, allowed, high), axis, value)
              == if s.Some? && high <= s.value.confidence then s else None
  {
    if answers != [] {
      var n := |answers| - 1;
      StrongestAbove(answers[..n], axes, allowed, low, high, axis, value);
      var before, before' :=
        Candidates(answers[..n], axes, allowed, low), Candidates(answers[..n], axes, allowed, high);
      CandidatesAdd(answers, axes, allowed, low);
      CandidatesAdd(answers, axes, allowed, high);
      var accepted := Accepted(answers[n], axes, allowed, low);
      if accepted.Some? {
        StrongestAdd(before, accepted.value, axis, value);
        StrongestAdd(before', accepted.value, axis, value);
      }
    }
  }

  lemma {:induction false} CandidatesAbove(
    answers: seq<Answer>, axes: Axes, allowed: set<string>, low: real, high: real)
    requires low <= high
    ensures forall l :: l in Candidates(answers, axes, allowed, high) <==>
              l in Candidates(answers, axes, allowed, low) && high <= l.confidence
  {
    if answers != [] {
      CandidatesAbove(answers[..|answers| - 1], axes, allowed, low, high);
    }
  }

  lemma ChosenAbove(answers: seq<Answer>, axes: Axes, allowed: set<string>, low: real, high: real, l: Label)
    requires low <= high
    ensures Chosen(Candidates(answers, axes, allowed, high), axes, l) <==>
              Chosen(Candidates(answers, axes, allowed, low), axes, l) && high <= l.confidence
  {
    StrongestAbove(answers, axes, allowed, low, high, l.axis, l.value);
    CandidatesAbove(answers, axes, allowed, low, high);
    var all, some := Candidates(answers, axes, allowed, low), Candidates(answers, axes, allowed, high);
    if high <= l.confidence {
      assert forall c | c in all && c !in some :: !RankLess(c, l);
      assert Leads(some, l) <==> Leads(all, l);
    }
  }

  /** Normalizing at a higher minimum is filtering what a lower one keeps, also on an
      axis that keeps only its top value. */
  lemma ThresholdsCommute(
    answers: seq<Answer>, axes: Axes, allowed: set<string>, low: real, high: real, r: seq<Label>, r': seq<Label>)
    requires low <= high
    requires IsNormal(r, Candidates(answers, axes, allowed, low), axes)
    requires IsNormal(r', Candidates(answers, axes, allowed, high), axes)
    ensures r' == Filter(Above(high), r)
  {
    forall l
      ensures l in r' <==> l in Filter(Above(high), r)
    {
      FilterIn(Above(high), r);
      ChosenAbove(answers, axes, allowed, low, high, l);
    }
    FilterStrict(Before, Above(high), r);
    RankOrders();
    StrictIsUnique(Before, r', Filter(Above(high), r));
  }

  lemma {:induction false} FilterStrict<T(!new)>(less: (T, T) -> bool, keep: T -> bool, xs: seq<T>)
    requires Strict(less, xs)
    ensures Strict(less, Filter(keep, xs))
  {
    if xs != [] {
      FilterStrict(less, keep, xs[1..]);
      FilterIn(keep, xs[1..]);
      var rest := Filter(keep, xs[1..]);
      forall y | y in rest
        ensures less(xs[0], y)
      {
        var i :| 0 <= i < |xs[1..]| && xs[1..][i] == y;
        assert less(xs[0], xs[i + 1]);
      }
    }
  }
}
