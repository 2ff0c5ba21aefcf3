/** The editorial rules that turn the labels of a news item into scores. */
module Scoring {
  import opened Filtering
  import opened Sorting
  import opened Texts

  datatype Dimension = Urgency | Impact | EditorialPriority

  datatype Scores = Scores(urgency: int, impact: int, editorialPriority: int) {
    function Importance(): int {
      urgency + impact + editorialPriority
    }

    function Get(d: Dimension): int {
      match d
      case Urgency => urgency
      case Impact => impact
      case EditorialPriority => editorialPriority
    }

    function Put(d: Dimension, value: int): Scores {
      match d
      case Urgency => this.(urgency := value)
      case Impact => this.(impact := value)
      case EditorialPriority => this.(editorialPriority := value)
    }
  }

  /** A rule. `applicable` is false when its `when` is not a mapping; `assign` and `add`
      are empty when theirs are not. */
  datatype Rule = Rule(
    id: string, priority: int, enabled: bool, applicable: bool, conditions: map<string, set<string>>,
    assign: map<Dimension, int>, add: map<Dimension, int>, stop: bool)

  type Labels = map<string, seq<string>>

  const ZERO := Scores(0, 0, 0)
  const DIMENSIONS: seq<Dimension> := [Urgency, Impact, EditorialPriority]

  function Score(value: int): int {
    if value < 0 then 0 else if value > 100 then 100 else value
  }

  predicate Bounded(s: Scores) {
    && 0 <= s.urgency <= 100
    && 0 <= s.impact <= 100
    && 0 <= s.editorialPriority <= 100
  }

  function Values(labels: Labels, axis: string): set<string> {
    if axis in labels then set v | v in labels[axis] else {}
  }

  predicate Matches(labels: Labels, conditions: map<string, set<string>>) {
    forall axis | axis in conditions :: Values(labels, axis) * conditions[axis] != {}
  }

  predicate Applies(labels: Labels, rule: Rule) {
    rule.applicable && Matches(labels, rule.conditions)
  }

  function Change(rule: Rule, d: Dimension, value: int): int {
    var settled := if d in rule.assign then Score(rule.assign[d]) else value;
    if d in rule.add then Score(settled + rule.add[d]) else settled
  }

  function Changed(rule: Rule, s: Scores): Scores {
    Scores(Change(rule, Urgency, s.urgency), Change(rule, Impact, s.impact),
           Change(rule, EditorialPriority, s.editorialPriority))
  }

  /** The rules taken one after another, up to the first applied one that says stop. */
  function Run(labels: Labels, rules: seq<Rule>, s: Scores): Scores {
    if rules == [] then s
    else if !Applies(labels, rules[0]) then Run(labels, rules[1..], s)
    else if rules[0].stop then Changed(rules[0], s)
    else Run(labels, rules[1..], Changed(rules[0], s))
  }

  function ByPriority(): (Rule, Rule) -> bool {
    (a: Rule, b: Rule) => a.priority < b.priority || (a.priority == b.priority && Leq(a.id, b.id))
  }

  function Enabled(): Rule -> bool {
    (rule: Rule) => rule.enabled
  }

  function Ordered(rules: seq<Rule>): seq<Rule> {
    Sort(ByPriority(), Filter(Enabled(), rules))
  }

  // ---- the loop ----

  /** One rule: every assignment, then every addition, each cut to 0..100. */
  method ApplyRule(rule: Rule, before: Scores) returns (scores: Scores)
    ensures scores == Changed(rule, before)
  {
    scores := before;
    for i := 0 to 3
      invariant forall d ::
        scores.Get(d) == if d in DIMENSIONS[..i] && d in rule.assign then Score(rule.assign[d]) else before.Get(d)
    {
      var d := DIMENSIONS[i];
      if d in rule.assign {
        scores := scores.Put(d, Score(rule.assign[d]));
      }
    }
    AllDimensions();
    for i := 0 to 3
      invariant forall d ::
        scores.Get(d) ==
          if d in DIMENSIONS[..i] then Change(rule, d, before.Get(d))
          else if d in rule.assign then Score(rule.assign[d]) else before.Get(d)
    {
      var d := DIMENSIONS[i];
      if d in rule.add {
        scores := scores.Put(d, Score(scores.Get(d) + rule.add[d]));
      }
    }
    assert scores.Get(Urgency) == Change(rule, Urgency, before.urgency);
    assert scores.Get(Impact) == Change(rule, Impact, before.impact);
    assert scores.Get(EditorialPriority) == Change(rule, EditorialPriority, before.editorialPriority);
  }

  lemma AllDimensions()
    ensures forall d :: d in DIMENSIONS[..3]
  {
    forall d: Dimension
      ensures d in DIMENSIONS[..3]
    {
      match d
      case Urgency => assert DIMENSIONS[..3][0] == d;
      case Impact => assert DIMENSIONS[..3][1] == d;
      case EditorialPriority => assert DIMENSIONS[..3][2] == d;
    }
  }

  method EvaluateScores(labels: Labels, rules: seq<Rule>, initial: Scores) returns (scores: Scores)
    ensures scores == Run(labels, Ordered(rules), initial)
  {
    scores := initial;
    var ordered := Ordered(rules);
    for n := 0 to |ordered|
      invariant Run(labels, ordered[n..], scores) == Run(labels, ordered, initial)
    {
      var rule := ordered[n];
      assert ordered[n..][0] == rule && ordered[n..][1..] == ordered[n + 1..];
      if !Applies(labels, rule) {
        continue;
      }
      scores := ApplyRule(rule, scores);
      if rule.stop {
        return;
      }
    }
  }

  // ---- what the scores promise ----

  /** Scores stay in 0..100 whatever the rules add, and importance in 0..300. */
  lemma {:induction false} ScoresStayBounded(labels: Labels, rules: seq<Rule>, s: Scores)
    requires Bounded(s)
    ensures Bounded(Run(labels, rules, s)) && 0 <= Run(labels, rules, s).Importance() <= 300
  {
    if rules != [] {
      ScoresStayBounded(labels, rules[1..], s);
      ScoresStayBounded(labels, rules[1..], Changed(rules[0], s));
    }
  }

  /** No two enabled rules share priority and id. */
  ghost predicate Identified(rules: seq<Rule>) {
    forall a, b | a in rules && b in rules && a.enabled && b.enabled && a.priority == b.priority && a.id == b.id ::
      a == b
  }

  lemma RulesInAnyOrder(rules: seq<Rule>, rules': seq<Rule>)
    requires multiset(rules) == multiset(rules') && Identified(rules)
    ensures Ordered(rules) == Ordered(rules')
  {
    var enabled := Filter(Enabled(), rules);
    FilterPermutes(Enabled(), rules, rules');
    FilterIn(Enabled(), rules);
    LessOrders();
    SortForgetsOrder(ByPriority(), enabled, Filter(Enabled(), rules'));
  }

  // ---- what a rule does ----

  /** A rule applies when every condition is met by some label of its axis. */
  lemma AppliesExactly(labels: Labels, rule: Rule)
    ensures Applies(labels, rule) <==>
              && rule.applicable
              && forall axis | axis in rule.conditions ::
                   axis in labels && exists v :: v in labels[axis] && v in rule.conditions[axis]
  {
    forall axis | axis in rule.conditions
      ensures Values(labels, axis) * rule.conditions[axis] != {} <==>
                axis in labels && exists v :: v in labels[axis] && v in rule.conditions[axis]
    {
      if axis in labels {
        if v :| v in labels[axis] && v in rule.conditions[axis] {
          assert v in Values(labels, axis) * rule.conditions[axis];
        }
      }
    }
  }

  /** A dimension is set first and then added to, each time cut to 0..100, and left alone
      by a rule that does not name it. */
  lemma RuleSetsThenAdds(rule: Rule, s: Scores, d: Dimension)
    ensures var after := Changed(rule, s).Get(d);
            && (d !in rule.assign && d !in rule.add ==> after == s.Get(d))
            && (d in rule.assign && d !in rule.add ==> Clipped(rule.assign[d], after))
            && (d !in rule.assign && d in rule.add ==> Clipped(s.Get(d) + rule.add[d], after))
            && (d in rule.assign && d in rule.add ==>
                  exists settled :: Clipped(rule.assign[d], settled) && Clipped(settled + rule.add[d], after))
  {
    if d in rule.assign && d in rule.add {
      var settled := Score(rule.assign[d]);
      assert Clipped(rule.assign[d], settled) && Clipped(settled + rule.add[d], Changed(rule, s).Get(d));
    }
  }

  /** `cut` is the point of 0..100 nearest to `value`. */
  predicate Clipped(value: int, cut: int) {
    && 0 <= cut <= 100
    && (0 <= value <= 100 ==> cut == value) && (value < 0 ==> cut == 0) && (value > 100 ==> cut == 100)
  }

  lemma PriorityOrders(rules: seq<Rule>)
    ensures Orders(ByPriority(), rules)
    ensures forall a, b | ByPriority()(a, b) ::
              a.priority <= b.priority && (a.priority == b.priority ==> !Less(b.id, a.id))
  {
    LessOrders();
  }

  /** The enabled rules, those of smaller priority first and then by id. */
  lemma OrderedByPriority(rules: seq<Rule>)
    ensures forall r: Rule :: multiset(Ordered(rules))[r] == if r.enabled then multiset(rules)[r] else 0
    ensures var ordered := Ordered(rules);
            forall i, j | 0 <= i < j < |ordered| ::
              && ordered[i].priority <= ordered[j].priority
              && (ordered[i].priority == ordered[j].priority ==> !Less(ordered[j].id, ordered[i].id))
  {
    var enabled := Filter(Enabled(), rules);
    SortPermutes(ByPriority(), enabled);
    forall r: Rule
      ensures multiset(enabled)[r] == if r.enabled then multiset(rules)[r] else 0
    {
      FilterCounts(Enabled(), rules, r);
    }
    PriorityOrders(enabled);
    hide Less, Sort, Filter;
    SortSorts(ByPriority(), enabled);
    var ordered := Ordered(rules);
    forall i, j | 0 <= i < j < |ordered|
      ensures ordered[i].priority <= ordered[j].priority
      ensures ordered[i].priority == ordered[j].priority ==> !Less(ordered[j].id, ordered[i].id)
    {
      assert ByPriority()(ordered[i], ordered[j]);
    }
  }

  predicate StopsIn(labels: Labels, rules: seq<Rule>) {
    exists r :: r in rules && Applies(labels, r) && r.stop
  }

  /** Rules work one after another on what the ones before left, while none says stop. */
  lemma {:induction false} RulesChain(labels: Labels, rules: seq<Rule>, more: seq<Rule>, s: Scores)
    requires !StopsIn(labels, rules)
    ensures Run(labels, rules + more, s) == Run(labels, more, Run(labels, rules, s))
  {
    if rules == [] {
      assert rules + more == more;
    } else {
      assert (rules + more)[1..] == rules[1..] + more && (rules + more)[0] == rules[0];
      assert rules[0] in rules && forall r | r in rules[1..] :: r in rules;
      RulesChain(labels, rules[1..], more, s);
      RulesChain(labels, rules[1..], more, Changed(rules[0], s));
    }
  }

  /** One rule alone changes the scores exactly if it applies. */
  lemma OneRule(labels: Labels, rule: Rule, s: Scores)
    ensures Run(labels, [rule], s) == if Applies(labels, rule) then Changed(rule, s) else s
  {
    assert [rule][1..] == [];
  }

  ghost predicate SameValues(labels: Labels, labels': Labels) {
    forall axis :: Values(labels, axis) == Values(labels', axis)
  }

  /** Only which values an axis has counts, not their order, and an axis without
      values counts as absent. */
  lemma {:induction false} OnlyValuesCount(labels: Labels, labels': Labels, rules: seq<Rule>, s: Scores)
    requires SameValues(labels, labels')
    ensures Run(labels, rules, s) == Run(labels', rules, s)
  {
    if rules != [] {
      assert Applies(labels, rules[0]) == Applies(labels', rules[0]);
      OnlyValuesCount(labels, labels', rules[1..], s);
      OnlyValuesCount(labels, labels', rules[1..], Changed(rules[0], s));
    }
  }

  /** Nothing behind an applied rule that says stop is looked at. */
  lemma {:induction false} StopHidesTheRest(labels: Labels, rules: seq<Rule>, rule: Rule, rest: seq<Rule>, s: Scores)
    requires Applies(labels, rule) && rule.stop
    ensures Run(labels, rules + [rule] + rest, s) == Run(labels, rules + [rule], s)
  {
    if rules == [] {
      assert ([] + [rule] + rest)[0] == rule;
    } else {
      assert (rules + [rule] + rest)[1..] == rules[1..] + [rule] + rest;
      assert (rules + [rule])[1..] == rules[1..] + [rule];
      StopHidesTheRest(labels, rules[1..], rule, rest, s);
      StopHidesTheRest(labels, rules[1..], rule, rest, Changed(rules[0], s));
    }
  }
}
