/** Cohen's kappa over two annotators' categories, and its use in the agreement report. */
module Kappa {
  import opened Options

  type Category = string

  function Indicator(holds: bool): nat {
    if holds then 1 else 0
  }

  function Count(xs: seq<Category>, c: Category): nat {
    if xs == [] then 0 else Indicator(xs[0] == c) + Count(xs[1..], c)
  }

  /** Positions where both annotators said `c`. */
  function Both(a: seq<Category>, b: seq<Category>, c: Category): nat
    requires |a| == |b|
  {
    if a == [] then 0 else Indicator(a[0] == c && b[0] == c) + Both(a[1..], b[1..], c)
  }

  function Agreements(a: seq<Category>, b: seq<Category>): nat
    requires |a| == |b|
  {
    if a == [] then 0 else Indicator(a[0] == b[0]) + Agreements(a[1..], b[1..])
  }

  /** The keys of `Counter(xs)`: each category once. */
  function Categories(xs: seq<Category>): (cs: seq<Category>)
    ensures forall c :: c in cs <==> c in xs
    ensures forall i, j | 0 <= i < j < |cs| :: cs[i] != cs[j]
  {
    if xs == [] then []
    else
      var last := xs[|xs| - 1];
      var cs := Categories(xs[..|xs| - 1]);
      if last in cs then cs else cs + [last]
  }

  function Sum(xs: seq<nat>): nat {
    if xs == [] then 0 else xs[0] + Sum(xs[1..])
  }

  /** The sum over the categories of `a` of how often each annotator used them. */
  function Products(cs: seq<Category>, a: seq<Category>, b: seq<Category>): nat {
    if cs == [] then 0 else Count(a, cs[0]) * Count(b, cs[0]) + Products(cs[1..], a, b)
  }

  function Chance(a: seq<Category>, b: seq<Category>): nat {
    Products(Categories(a), a, b)
  }

  /** Kappa of `n` pairs with `agreements` equal ones and `chance` matches by chance. */
  function Corrected(n: nat, agreements: nat, chance: nat): real
    requires n > 0
  {
    var observed := (agreements as real) / (n as real);
    var expected := (chance as real) / ((n * n) as real);
    if expected == 1.0 then 1.0 else (observed - expected) / (1.0 - expected)
  }

  /** None stands for the ValueError on empty or unequal sequences. */
  function CohenKappa(a: seq<Category>, b: seq<Category>): Option<real> {
    if |a| != |b| || a == [] then None
    else Some(Corrected(|a|, Agreements(a, b), Chance(a, b)))
  }

  // ---- counting ----

  /** How many pairs of positions, one in each sequence, hold the same category. */
  function Pairs(a: seq<Category>, b: seq<Category>): nat {
    if a == [] then 0 else Count(b, a[0]) + Pairs(a[1..], b)
  }

  lemma {:induction false} CountBound(xs: seq<Category>, c: Category)
    ensures Count(xs, c) <= |xs|
    ensures Count(xs, c) == |xs| <==> forall x | x in xs :: x == c
    ensures Count(xs, c) > 0 <==> c in xs
  {
    if xs != [] {
      CountBound(xs[1..], c);
      assert xs[0] in xs && forall x :: x in xs <==> x == xs[0] || x in xs[1..];
    }
  }

  lemma {:induction false} PairsBound(a: seq<Category>, b: seq<Category>)
    ensures Pairs(a, b) <= |a| * |b|
    ensures Pairs(a, b) == |a| * |b| ==> forall x, y | x in a && y in b :: x == y
  {
    if a != [] {
      PairsBound(a[1..], b);
      CountBound(b, a[0]);
      assert |a| * |b| == |b| + |a[1..]| * |b|;
      assert forall x | x in a :: x == a[0] || x in a[1..];
    }
  }

  lemma {:induction false} PairsNil(a: seq<Category>)
    ensures Pairs(a, []) == 0
  {
    if a != [] {
      PairsNil(a[1..]);
    }
  }

  lemma {:induction false} PairsOfCons(a: seq<Category>, y: Category, b: seq<Category>)
    ensures Pairs(a, [y] + b) == Count(a, y) + Pairs(a, b)
  {
    if a != [] {
      PairsOfCons(a[1..], y, b);
      assert ([y] + b)[1..] == b;
    }
  }

  lemma {:induction false} PairsSymmetric(a: seq<Category>, b: seq<Category>)
    ensures Pairs(a, b) == Pairs(b, a)
  {
    if b == [] {
      PairsNil(a);
    } else {
      PairsSymmetric(a, b[1..]);
      PairsOfCons(a, b[0], b[1..]);
      assert b == [b[0]] + b[1..];
    }
  }

  lemma {:induction false} CountOfSnoc(xs: seq<Category>, x: Category, c: Category)
    ensures Count(xs + [x], c) == Count(xs, c) + Indicator(x == c)
  {
    if xs != [] {
      CountOfSnoc(xs[1..], x, c);
      assert (xs + [x])[1..] == xs[1..] + [x];
    }
  }

  lemma {:induction false} ProductsOfSnoc(cs: seq<Category>, a: seq<Category>, x: Category, b: seq<Category>)
    requires forall i, j | 0 <= i < j < |cs| :: cs[i] != cs[j]
    ensures Products(cs, a + [x], b) == Products(cs, a, b) + (if x in cs then Count(b, x) else 0)
  {
    if cs != [] {
      ProductsOfSnoc(cs[1..], a, x, b);
      CountOfSnoc(a, x, cs[0]);
      assert x in cs <==> x == cs[0] || x in cs[1..];
      assert x == cs[0] ==> x !in cs[1..];
    }
  }

  lemma {:induction false} ProductsOfLast(cs: seq<Category>, c: Category, a: seq<Category>, b: seq<Category>)
    ensures Products(cs + [c], a, b) == Products(cs, a, b) + Count(a, c) * Count(b, c)
  {
    if cs != [] {
      ProductsOfLast(cs[1..], c, a, b);
      assert (cs + [c])[1..] == cs[1..] + [c];
    }
  }

  lemma {:induction false} PairsOfSnoc(a: seq<Category>, x: Category, b: seq<Category>)
    ensures Pairs(a + [x], b) == Pairs(a, b) + Count(b, x)
  {
    if a != [] {
      PairsOfSnoc(a[1..], x, b);
      assert (a + [x])[1..] == a[1..] + [x];
    }
  }

  /** The sum over counters is the number of matching pairs. */
  lemma {:induction false} ChanceCountsPairs(a: seq<Category>, b: seq<Category>)
    ensures Chance(a, b) == Pairs(a, b)
  {
    if a != [] {
      var rest, x := a[..|a| - 1], a[|a| - 1];
      assert a == rest + [x];
      ChanceCountsPairs(rest, b);
      PairsOfSnoc(rest, x, b);
      ChanceOfSnoc(rest, x, b);
    }
  }

  /** One more position adds as many pairs as the other side uses its category. */
  lemma ChanceOfSnoc(rest: seq<Category>, x: Category, b: seq<Category>)
    ensures Chance(rest + [x], b) == Chance(rest, b) + Count(b, x)
  {
    hide Products, Count;
    var cs, a := Categories(rest), rest + [x];
    assert a[..|a| - 1] == rest;
    ProductsOfSnoc(cs, rest, x, b);
    if x !in cs {
      ProductsOfLast(cs, x, a, b);
      CountOfSnoc(rest, x, x);
      CountBound(rest, x);
      assert Count(a, x) == 1;
    }
  }

  lemma {:induction false} AgreementsBound(a: seq<Category>, b: seq<Category>)
    requires |a| == |b|
    ensures Agreements(a, b) <= |a|
    ensures Agreements(a, b) == |a| <==> a == b
    ensures Agreements(a, b) == Agreements(b, a)
  {
    if a != [] {
      AgreementsBound(a[1..], b[1..]);
      assert a == [a[0]] + a[1..] && b == [b[0]] + b[1..];
    }
  }

  // ---- the lower bound: inclusion and exclusion per category ----

  lemma {:induction false} BothBound(a: seq<Category>, b: seq<Category>, c: Category)
    requires |a| == |b|
    ensures Count(a, c) + Count(b, c) <= |a| + Both(a, b, c)
    ensures Count(a, c) <= |a| && Count(b, c) <= |a|
  {
    if a != [] {
      BothBound(a[1..], b[1..], c);
    }
  }

  /** Four times a product, against what the two counts and their overlap allow. */
  lemma ProductBound(x: nat, y: nat, both: nat, n: nat)
    requires x <= n && y <= n && x + y <= n + both
    ensures 4 * (x * y) <= n * (x + y) + 2 * (n * both)
  {
    Square(x, y);
    SquareBound(x + y, both, n);
  }

  lemma Square(x: nat, y: nat)
    ensures 4 * (x * y) <= (x + y) * (x + y)
  {
    assert (x - y) * (x - y) >= 0;
    assert (x + y) * (x + y) == 4 * (x * y) + (x - y) * (x - y);
  }

  lemma SquareBound(s: nat, both: nat, n: nat)
    requires s <= 2 * n && s <= n + both
    ensures s * s <= n * s + 2 * (n * both)
  {
    if s <= n {
      TimesMono(s, n, s);
      TimesMono(0, n, both);
    } else {
      var t := s - n;
      assert s * s == n * s + t * s;
      TimesMono(s, 2 * n, t);
      TimesMono(t, both, 2 * n);
      assert t * s <= both * (2 * n);
      assert both * (2 * n) == 2 * (n * both);
    }
  }

  lemma TimesMono(a: nat, b: nat, c: nat)
    requires a <= b
    ensures a * c <= b * c && c * a <= c * b
  {
    assert (b - a) * c >= 0;
  }

  function Uses(cs: seq<Category>, xs: seq<Category>): nat {
    if cs == [] then 0 else Count(xs, cs[0]) + Uses(cs[1..], xs)
  }

  function Overlap(cs: seq<Category>, a: seq<Category>, b: seq<Category>): nat
    requires |a| == |b|
  {
    if cs == [] then 0 else Both(a, b, cs[0]) + Overlap(cs[1..], a, b)
  }

  /** Over distinct categories, uses cannot exceed positions, nor overlaps agreements. */
  lemma {:induction false} UsesBound(cs: seq<Category>, xs: seq<Category>)
    requires forall i, j | 0 <= i < j < |cs| :: cs[i] != cs[j]
    ensures Uses(cs, xs) <= |xs|
  {
    if xs == [] {
      UsesNil(cs);
    } else {
      UsesBound(cs, xs[1..]);
      UsesCons(cs, xs);
    }
  }

  lemma {:induction false} UsesNil(cs: seq<Category>)
    ensures Uses(cs, []) == 0
  {
    if cs != [] {
      UsesNil(cs[1..]);
    }
  }

  lemma {:induction false} UsesCons(cs: seq<Category>, xs: seq<Category>)
    requires xs != [] && forall i, j | 0 <= i < j < |cs| :: cs[i] != cs[j]
    ensures Uses(cs, xs) == Uses(cs, xs[1..]) + Indicator(xs[0] in cs)
  {
    if cs != [] {
      UsesCons(cs[1..], xs);
      assert xs[0] in cs <==> xs[0] == cs[0] || xs[0] in cs[1..];
      assert xs[0] == cs[0] ==> xs[0] !in cs[1..];
    }
  }

  lemma {:induction false} OverlapBound(cs: seq<Category>, a: seq<Category>, b: seq<Category>)
    requires |a| == |b| && forall i, j | 0 <= i < j < |cs| :: cs[i] != cs[j]
    ensures Overlap(cs, a, b) <= Agreements(a, b)
  {
    if a == [] {
      OverlapNil(cs, a, b);
    } else {
      OverlapBound(cs, a[1..], b[1..]);
      OverlapCons(cs, a, b);
    }
  }

  lemma {:induction false} OverlapNil(cs: seq<Category>, a: seq<Category>, b: seq<Category>)
    requires a == [] && b == []
    ensures Overlap(cs, a, b) == 0
  {
    if cs != [] {
      OverlapNil(cs[1..], a, b);
    }
  }

  lemma {:induction false} OverlapCons(cs: seq<Category>, a: seq<Category>, b: seq<Category>)
    requires |a| == |b| > 0 && forall i, j | 0 <= i < j < |cs| :: cs[i] != cs[j]
    ensures Overlap(cs, a, b) == Overlap(cs, a[1..], b[1..]) + Indicator(a[0] == b[0] && a[0] in cs)
  {
    if cs != [] {
      OverlapCons(cs[1..], a, b);
      assert a[0] in cs <==> a[0] == cs[0] || a[0] in cs[1..];
      assert a[0] == cs[0] ==> a[0] !in cs[1..];
    }
  }

  /** Adding one category's bound to the bound of the rest. */
  lemma AddBounds(n: nat, x: nat, y: nat, both: nat, product: nat, rest: nat, usesA: nat, usesB: nat, overlap: nat)
    requires 4 * product <= n * (x + y) + 2 * (n * both)
    requires 4 * rest <= n * (usesA + usesB) + 2 * (n * overlap)
    ensures 4 * (product + rest) <= n * ((x + usesA) + (y + usesB)) + 2 * (n * (both + overlap))
  {
    assert n * ((x + usesA) + (y + usesB)) == n * (x + y) + n * (usesA + usesB);
    assert n * (both + overlap) == n * both + n * overlap;
  }

  lemma {:induction false} ProductsBound(cs: seq<Category>, a: seq<Category>, b: seq<Category>)
    requires |a| == |b|
    ensures 4 * Products(cs, a, b) <= |a| * (Uses(cs, a) + Uses(cs, b)) + 2 * (|a| * Overlap(cs, a, b))
  {
    if cs != [] {
      hide Count, Both;
      var c, rest := cs[0], cs[1..];
      ProductsBound(rest, a, b);
      BothBound(a, b, c);
      ProductBound(Count(a, c), Count(b, c), Both(a, b, c), |a|);
      AddBounds(|a|, Count(a, c), Count(b, c), Both(a, b, c), Count(a, c) * Count(b, c),
                Products(rest, a, b), Uses(rest, a), Uses(rest, b), Overlap(rest, a, b));
    }
  }

  lemma HalveBound(n: nat, chance: nat, usesA: nat, usesB: nat, overlap: nat, agreements: nat)
    requires 4 * chance <= n * (usesA + usesB) + 2 * (n * overlap)
    requires usesA <= n && usesB <= n && overlap <= agreements
    ensures 2 * chance <= n * n + n * agreements
  {
    assert n * (n + n) == n * n + n * n;
  }

  /** Agreement by chance is never so much greater that kappa would pass below -1. */
  lemma ChanceBound(a: seq<Category>, b: seq<Category>)
    requires |a| == |b|
    ensures 2 * Chance(a, b) <= |a| * |a| + |a| * Agreements(a, b)
  {
    hide Products, Uses, Overlap, Agreements;
    var cs := Categories(a);
    ProductsBound(cs, a, b);
    UsesBound(cs, a);
    UsesBound(cs, b);
    OverlapBound(cs, a, b);
    HalveBound(|a|, Chance(a, b), Uses(cs, a), Uses(cs, b), Overlap(cs, a, b), Agreements(a, b));
  }

  /** Agreement by chance is certain only when there is a single category. */
  lemma ChanceCertain(a: seq<Category>, b: seq<Category>)
    requires |a| == |b|
    ensures Chance(a, b) <= |a| * |a|
    ensures Chance(a, b) == |a| * |a| ==> a == b
  {
    ChanceCountsPairs(a, b);
    PairsBound(a, b);
    if Chance(a, b) == |a| * |a| {
      forall i | 0 <= i < |a|
        ensures a[i] == b[i]
      {
        assert a[i] in a && b[i] in b;
      }
    }
  }

  // ---- the theorems ----

  lemma RatioBounds(num: int, den: int)
    requires den > 0 && -den <= num <= den
    ensures -1.0 <= (num as real) / (den as real) <= 1.0
    ensures (num as real) / (den as real) == 1.0 <==> num == den
  {
    QuotientOrder(num as real, den as real, 1.0);
    QuotientOrder(num as real, den as real, -1.0);
  }

  lemma QuotientOrder(k: real, d: real, bound: real)
    requires d > 0.0
    ensures k / d <= bound <==> k <= bound * d
    ensures k / d == bound <==> k == bound * d
  {
    assert k / d * d == k;
    TimesOrder(k / d, bound, d);
  }

  /** A positive factor keeps the order. */
  lemma TimesOrder(x: real, y: real, d: real)
    requires d > 0.0
    ensures x <= y <==> x * d <= y * d
    ensures x == y <==> x * d == y * d
  {
    if x < y {
      TimesLess(x, y, d);
    } else if y < x {
      TimesLess(y, x, d);
    }
  }

  lemma TimesLess(x: real, y: real, d: real)
    requires x < y && d > 0.0
    ensures x * d < y * d
  {
    var gap := y - x;
    assert gap * d > 0.0;
    assert y * d == x * d + gap * d;
  }

  /** The two ratios and their quotient, cleared of denominators. */
  lemma ClearDenominators(n: real, g: real, e: real)
    requires n > 0.0 && e < n * n
    ensures e / (n * n) != 1.0
    ensures (g / n - e / (n * n)) / (1.0 - e / (n * n)) == (n * g - e) / (n * n - e)
  {
    var k := n * n;
    var observed, expected := g / n, e / k;
    assert expected * k == e;
    assert observed * n == g;
    assert observed * k == n * g;
  }

  lemma CertainChance(n: nat, agreements: nat)
    requires n > 0
    ensures Corrected(n, agreements, n * n) == 1.0
  {
    var k := (n * n) as real;
    assert k / k == 1.0;
  }

  /** Kappa as one exact fraction. */
  lemma CorrectedFraction(n: nat, agreements: nat, chance: nat)
    requires n > 0 && chance < n * n
    ensures Corrected(n, agreements, chance) == ((n * agreements - chance) as real) / ((n * n - chance) as real)
  {
    var r, g, e := n as real, agreements as real, chance as real;
    CorrectedIs(n, agreements, chance);
    ProductAsReal(n, n);
    ProductAsReal(n, agreements);
    ClearDenominators(r, g, e);
    hide Corrected;
    assert r * g - e == (n * agreements - chance) as real;
    assert r * r - e == (n * n - chance) as real;
  }

  lemma ProductAsReal(a: nat, b: nat)
    ensures (a * b) as real == (a as real) * (b as real)
  {
  }

  lemma CorrectedIs(n: nat, agreements: nat, chance: nat)
    requires n > 0 && chance < n * n
    ensures var r, g, e := n as real, agreements as real, chance as real;
            && e < r * r && e / (r * r) != 1.0
            && Corrected(n, agreements, chance) == (g / r - e / (r * r)) / (1.0 - e / (r * r))
  {
    var r, e := n as real, chance as real;
    ProductAsReal(n, n);
    assert e / (r * r) * (r * r) == e;
  }

  lemma FractionRange(n: nat, g: nat, e: nat)
    requires g <= n && e < n * n && 2 * e <= n * n + n * g
    ensures -1.0 <= ((n * g - e) as real) / ((n * n - e) as real) <= 1.0
    ensures ((n * g - e) as real) / ((n * n - e) as real) == 1.0 <==> g == n
  {
    assert n * g <= n * n;
    assert n * g == n * n <==> g == n || n == 0;
    RatioBounds(n * g - e, n * n - e);
  }

  /** Kappa fails only on bad input; it lies in -1..1, does not care which annotator
      comes first, and is 1 exactly when the annotators agree everywhere. */
  lemma KappaRange(a: seq<Category>, b: seq<Category>)
    ensures CohenKappa(a, b) == None <==> |a| != |b| || a == []
    ensures CohenKappa(a, b).Some? ==> -1.0 <= CohenKappa(a, b).value <= 1.0
    ensures CohenKappa(a, b).Some? ==> (CohenKappa(a, b).value == 1.0 <==> a == b)
    ensures CohenKappa(a, b) == CohenKappa(b, a)
  {
    if |a| == |b| > 0 {
      hide Corrected, Chance, Agreements;
      var n, e, g := |a|, Chance(a, b), Agreements(a, b);
      ChanceBound(a, b);
      ChanceCertain(a, b);
      AgreementsBound(a, b);
      AgreementsBound(b, a);
      ChanceCountsPairs(a, b);
      ChanceCountsPairs(b, a);
      PairsSymmetric(a, b);
      if e == n * n {
        CertainChance(n, g);
      } else {
        CorrectedFraction(n, g, e);
        FractionRange(n, g, e);
      }
    }
  }

  /** The positions where both say the same. */
  lemma {:induction false} AgreementsAre(a: seq<Category>, b: seq<Category>)
    requires |a| == |b|
    ensures Agreements(a, b) == |set i | 0 <= i < |a| && a[i] == b[i]|
  {
    var here := set i | 0 <= i < |a| && a[i] == b[i];
    if a != [] {
      AgreementsAre(a[1..], b[1..]);
      var there := set i | 0 <= i < |a[1..]| && a[1..][i] == b[1..][i];
      var moved := set i | i in there :: i + 1;
      MovedSize(there);
      forall i
        ensures i in here <==> i in moved || (i == 0 && a[0] == b[0])
      {
        if i in here && i > 0 {
          assert i - 1 in there;
        }
      }
      assert here == if a[0] == b[0] then moved + {0} else moved;
    }
  }

  lemma {:induction false} MovedSize(xs: set<int>)
    ensures |set i | i in xs :: i + 1| == |xs|
  {
    if xs == {} {
      assert (set i | i in xs :: i + 1) == {};
    } else {
      var x := Member(xs);
      MovedSize(xs - {x});
      var moved, rest := set i | i in xs :: i + 1, set i | i in xs - {x} :: i + 1;
      forall y
        ensures y in moved <==> y in rest || y == x + 1
      {
        assert y in moved <==> y - 1 in xs;
        assert y in rest <==> y - 1 in xs - {x};
      }
      assert moved == rest + {x + 1} && x + 1 !in rest;
    }
  }

  lemma Member<T>(xs: set<T>) returns (x: T)
    requires xs != {}
    ensures x in xs
  {
    x :| x in xs;
  }

  /** The coefficient itself, as one fraction: what is agreed on beyond chance, of what
      could be. Certain agreement by chance counts as perfect. */
  lemma KappaIs(a: seq<Category>, b: seq<Category>)
    requires |a| == |b| > 0
    ensures CohenKappa(a, b).Some? && Pairs(a, b) <= |a| * |a|
    ensures var n, g, e := |a|, Agreements(a, b), Pairs(a, b);
            CohenKappa(a, b).value == if e == n * n then 1.0 else ((n * g - e) as real) / ((n * n - e) as real)
  {
    hide *;
    var n, g, e := |a|, Agreements(a, b), Chance(a, b);
    CohenIs(a, b);
    ChanceCountsPairs(a, b);
    ChanceBound(a, b);
    AgreementsBound(a, b);
    ProductAtMost(n, g, n);
    if e == n * n {
      CertainChance(n, g);
    } else {
      CorrectedFraction(n, g, e);
    }
  }

  lemma CohenIs(a: seq<Category>, b: seq<Category>)
    requires |a| == |b| > 0
    ensures CohenKappa(a, b) == Some(Corrected(|a|, Agreements(a, b), Chance(a, b)))
  {
  }

  lemma ProductAtMost(factor: nat, x: nat, y: nat)
    requires x <= y
    ensures factor * x <= factor * y
  {
  }

  // ---- the report ----

  /** One judged record on a multi-valued facet: what each annotator selected. */
  datatype Judged = Judged(gold: set<string>, other: set<string>)

  function Mark(selected: bool): Category {
    if selected then "1" else "0"
  }

  function GoldMarks(pairs: seq<Judged>, value: string): seq<Category> {
    seq(|pairs|, i requires 0 <= i < |pairs| => Mark(value in pairs[i].gold))
  }

  function OtherMarks(pairs: seq<Judged>, value: string): seq<Category> {
    seq(|pairs|, i requires 0 <= i < |pairs| => Mark(value in pairs[i].other))
  }

  predicate Unused(pairs: seq<Judged>, value: string) {
    forall p | p in pairs :: value !in p.gold && value !in p.other
  }

  predicate SameOn(pairs: seq<Judged>, value: string) {
    forall p | p in pairs :: value in p.gold <==> value in p.other
  }

  lemma SameMarks(pairs: seq<Judged>, value: string)
    ensures GoldMarks(pairs, value) == OtherMarks(pairs, value) <==> SameOn(pairs, value)
  {
    var gold, other := GoldMarks(pairs, value), OtherMarks(pairs, value);
    if gold == other {
      forall p | p in pairs
        ensures value in p.gold <==> value in p.other
      {
        var i :| 0 <= i < |pairs| && pairs[i] == p;
        assert gold[i] == other[i];
        assert Mark(true)[0] != Mark(false)[0];
      }
    }
  }

  /** The kappas of the values somebody used. */
  function PerValue(pairs: seq<Judged>, values: seq<string>): seq<real>
    requires pairs != []
  {
    if values == [] then []
    else
      var rest := PerValue(pairs, values[1..]);
      if Unused(pairs, values[0]) then rest
      else [CohenKappa(GoldMarks(pairs, values[0]), OtherMarks(pairs, values[0])).value] + rest
  }

  predicate AllOne(kappas: seq<real>) {
    forall k | k in kappas :: k == 1.0
  }

  predicate AllWithin(kappas: seq<real>) {
    forall k | k in kappas :: -1.0 <= k <= 1.0
  }

  predicate SameOnAll(pairs: seq<Judged>, values: seq<string>) {
    forall v | v in values :: SameOn(pairs, v)
  }

  lemma ConsKappa(kappa: real, rest: seq<real>)
    ensures AllOne([kappa] + rest) <==> kappa == 1.0 && AllOne(rest)
    ensures AllWithin([kappa] + rest) <==> -1.0 <= kappa <= 1.0 && AllWithin(rest)
  {
    var all := [kappa] + rest;
    assert all[0] == kappa && kappa in all;
    assert forall k | k in rest :: k in all;
    assert forall k | k in all :: k == kappa || k in rest;
  }

  lemma {:induction false} PerValueRange(pairs: seq<Judged>, values: seq<string>)
    requires pairs != []
    ensures AllWithin(PerValue(pairs, values))
    ensures AllOne(PerValue(pairs, values)) <==> SameOnAll(pairs, values)
  {
    if values != [] {
      hide CohenKappa, GoldMarks, OtherMarks;
      var v, rest := values[0], PerValue(pairs, values[1..]);
      PerValueRange(pairs, values[1..]);
      if !Unused(pairs, v) {
        KappaRange(GoldMarks(pairs, v), OtherMarks(pairs, v));
        SameMarks(pairs, v);
        ConsKappa(CohenKappa(GoldMarks(pairs, v), OtherMarks(pairs, v)).value, rest);
      }
    }
  }

  function Total(xs: seq<real>): real {
    if xs == [] then 0.0 else xs[0] + Total(xs[1..])
  }

  function MultiKappa(pairs: seq<Judged>, values: seq<string>): real
    requires pairs != []
  {
    var kappas := PerValue(pairs, values);
    if kappas == [] then 1.0 else Total(kappas) / (|kappas| as real)
  }

  /** The figure of a facet of many values is the mean of the kappas of the values
      somebody used, and 1 if there are none. */
  lemma MultiKappaIsMean(pairs: seq<Judged>, values: seq<string>)
    requires pairs != []
    ensures var kappas := PerValue(pairs, values);
            if kappas == [] then MultiKappa(pairs, values) == 1.0
            else MultiKappa(pairs, values) * (|kappas| as real) == Total(kappas)
  {
    hide *;
    MultiKappaIs(pairs, values);
    var kappas := PerValue(pairs, values);
    if kappas != [] {
      QuotientTimes(Total(kappas), |kappas| as real);
    }
  }

  lemma MultiKappaIs(pairs: seq<Judged>, values: seq<string>)
    requires pairs != []
    ensures var kappas := PerValue(pairs, values);
            MultiKappa(pairs, values) == if kappas == [] then 1.0 else Total(kappas) / (|kappas| as real)
  {
    hide PerValue, Total;
  }

  lemma QuotientTimes(k: real, d: real)
    requires d != 0.0
    ensures k / d * d == k
  {
  }

  lemma {:induction false} TotalAdds(xs: seq<real>, ys: seq<real>)
    ensures Total(xs + ys) == Total(xs) + Total(ys)
    ensures |xs| == 1 ==> Total(xs) == xs[0]
  {
    if xs == [] {
      assert xs + ys == ys;
    } else {
      assert (xs + ys)[1..] == xs[1..] + ys;
      TotalAdds(xs[1..], ys);
    }
  }

  lemma {:induction false} TotalBounds(xs: seq<real>)
    requires AllWithin(xs)
    ensures -(|xs| as real) <= Total(xs) <= |xs| as real
    ensures Total(xs) == |xs| as real <==> AllOne(xs)
  {
    if xs != [] {
      assert xs == [xs[0]] + xs[1..];
      ConsKappa(xs[0], xs[1..]);
      TotalBounds(xs[1..]);
    }
  }

  /** The report's figure for a multi-valued facet lies in -1..1 and is 1 exactly when
      the annotators agree on every value of the facet in every record. */
  lemma MultiKappaRange(pairs: seq<Judged>, values: seq<string>)
    requires pairs != []
    ensures -1.0 <= MultiKappa(pairs, values) <= 1.0
    ensures MultiKappa(pairs, values) == 1.0 <==> SameOnAll(pairs, values)
  {
    var kappas := PerValue(pairs, values);
    PerValueRange(pairs, values);
    TotalBounds(kappas);
    if kappas != [] {
      AverageBounds(Total(kappas), |kappas| as real);
    }
  }

  lemma AverageBounds(total: real, n: real)
    requires n > 0.0 && -n <= total <= n
    ensures -1.0 <= total / n <= 1.0
    ensures total / n == 1.0 <==> total == n
  {
    var q := total / n;
    assert q * n == total;
  }
}
