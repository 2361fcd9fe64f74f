/** The normalised discounted cumulative gain of a ranking, over the reals. */
module CumulativeGain {

  type Id = string

  /** A grade's gain and a position's weight: in the evaluation 2^grade - 1 and
      1 / log2(index + 2); only their shape matters here. */
  datatype Scale = Scale(gain: real -> real, weight: nat -> real)

  /** No gain for grade 0, more for more. */
  ghost predicate Gaining(s: Scale) {
    && s.gain(0.0) == 0.0
    && (forall x: real, y: real | 0.0 <= x < y :: s.gain(x) < s.gain(y))
  }

  /** Weights are positive and never rise. */
  ghost predicate Weighing(s: Scale) {
    && (forall i: nat :: 0.0 < s.weight(i))
    && (forall i: nat, j: nat | i < j :: s.weight(j) <= s.weight(i))
  }

  ghost predicate Proper(s: Scale) { Gaining(s) && Weighing(s) }

  /** Weights that fall at every position, as those of the logarithm do. */
  ghost predicate Falling(s: Scale) {
    forall i: nat, j: nat | i < j :: s.weight(j) < s.weight(i)
  }

  /** `gradedRelevance`: the graded ids in enumeration order and their grades. */
  datatype Grades = Grades(keys: seq<Id>, of: map<Id, real>)

  predicate Distinct(ids: seq<Id>) {
    forall i, j | 0 <= i < j < |ids| :: ids[i] != ids[j]
  }

  /** A record has each key once; the grades are not negative. */
  ghost predicate WellGraded(g: Grades) {
    && Distinct(g.keys)
    && forall k | k in g.keys :: k in g.of && 0.0 <= g.of[k]
  }

  function Grade(g: Grades, id: Id): real {
    if id in g.keys && id in g.of then g.of[id] else 0.0
  }

  function GradesOf(g: Grades, ids: seq<Id>): (r: seq<real>)
    ensures |r| == |ids|
  {
    seq(|ids|, i requires 0 <= i < |ids| => Grade(g, ids[i]))
  }

  function Cut<T>(s: seq<T>, k: nat): seq<T> { if |s| <= k then s else s[..k] }

  function Dcg(s: Scale, xs: seq<real>): real {
    if xs == [] then 0.0
    else
      var n := |xs| - 1;
      Dcg(s, xs[..n]) + s.gain(xs[n]) * s.weight(n)
  }

  ghost predicate Descending(xs: seq<real>) {
    forall i, j | 0 <= i < j < |xs| :: xs[i] >= xs[j]
  }

  function Insert(x: real, xs: seq<real>): seq<real> {
    if xs == [] || x >= xs[0] then [x] + xs else [xs[0]] + Insert(x, xs[1..])
  }

  function SortDown(xs: seq<real>): seq<real> {
    if xs == [] then [] else Insert(xs[|xs| - 1], SortDown(xs[..|xs| - 1]))
  }

  lemma {:induction false} InsertContents(x: real, xs: seq<real>)
    ensures multiset(Insert(x, xs)) == multiset(xs) + multiset{x}
  {
    if xs != [] && x < xs[0] {
      InsertContents(x, xs[1..]);
      assert xs == [xs[0]] + xs[1..];
    }
  }

  lemma {:induction false} InsertSorts(x: real, xs: seq<real>)
    requires Descending(xs)
    ensures Descending(Insert(x, xs))
  {
    if xs != [] && x < xs[0] {
      var rest := Insert(x, xs[1..]);
      InsertSorts(x, xs[1..]);
      InsertContents(x, xs[1..]);
      forall i | 0 <= i < |rest|
        ensures rest[i] <= xs[0]
      {
        assert rest[i] in multiset(rest);
        assert rest[i] == x || rest[i] in xs[1..];
      }
    }
  }

  /** Sorting keeps the grades and puts the largest first. */
  lemma {:induction false} SortDownSorts(xs: seq<real>)
    ensures Descending(SortDown(xs)) && multiset(SortDown(xs)) == multiset(xs)
  {
    if xs != [] {
      var n := |xs| - 1;
      SortDownSorts(xs[..n]);
      InsertSorts(xs[n], SortDown(xs[..n]));
      InsertContents(xs[n], SortDown(xs[..n]));
      assert xs == xs[..n] + [xs[n]];
    }
  }

  /** The best order of all grades, cut to k places. */
  function Ideal(g: Grades, k: nat): seq<real> { Cut(SortDown(GradesOf(g, g.keys)), k) }

  function Ndcg(s: Scale, ranked: seq<Id>, g: Grades, k: nat): real {
    var actual := Dcg(s, GradesOf(g, Cut(ranked, k)));
    var ideal := Dcg(s, Ideal(g, k));
    if ideal == 0.0 then 0.0 else actual / ideal
  }

  // ---------------------------------------------------------------- what the measure is

  /** The gains of the grades from a place on, each weighted by its place. */
  ghost function Weighted(s: Scale, xs: seq<real>, from: nat): real
    requires from <= |xs|
    decreases |xs| - from
  {
    if from == |xs| then 0.0 else s.weight(from) * s.gain(xs[from]) + Weighted(s, xs, from + 1)
  }

  lemma {:induction false} WeightedTo(s: Scale, xs: seq<real>, from: nat)
    requires from <= |xs|
    ensures Dcg(s, xs[..from]) + Weighted(s, xs, from) == Dcg(s, xs)
    decreases |xs| - from
  {
    if from == |xs| {
      assert xs[..from] == xs;
    } else {
      assert xs[..from + 1][..from] == xs[..from];
      WeightedTo(s, xs, from + 1);
    }
  }

  /** The measure is the weighted gain of the grades shown in the first k places, an ungraded id counting
      0, divided by that of the k best grades; 0 if those gain nothing. */
  lemma NdcgMeans(s: Scale, ranked: seq<Id>, g: Grades, k: nat)
    returns (shown: seq<real>, graded: seq<real>, best: seq<real>)
    ensures |shown| == if |ranked| < k then |ranked| else k
    ensures forall i | 0 <= i < |shown| ::
      shown[i] == if ranked[i] in g.keys && ranked[i] in g.of then g.of[ranked[i]] else 0.0
    ensures |graded| == |g.keys|
    ensures forall i | 0 <= i < |graded| :: graded[i] == if g.keys[i] in g.of then g.of[g.keys[i]] else 0.0
    ensures Descending(best) && multiset(best) == multiset(graded)
    ensures var top := if |best| < k then best else best[..k];
      && (Weighted(s, top, 0) == 0.0 ==> Ndcg(s, ranked, g, k) == 0.0)
      && (Weighted(s, top, 0) != 0.0 ==> Ndcg(s, ranked, g, k) * Weighted(s, top, 0) == Weighted(s, shown, 0))
  {
    hide Dcg, Weighted, SortDown, Ideal, Ndcg, Descending;
    shown, graded, best := GradesOf(g, Cut(ranked, k)), GradesOf(g, g.keys), SortDown(GradesOf(g, g.keys));
    SortDownSorts(graded);
    IdealCut(g, k);
    WeightedAll(s, shown);
    WeightedAll(s, Ideal(g, k));
    NdcgQuotient(s, ranked, g, k);
  }

  lemma IdealCut(g: Grades, k: nat)
    ensures var best := SortDown(GradesOf(g, g.keys)); Ideal(g, k) == if |best| < k then best else best[..k]
  {
    hide SortDown;
  }

  lemma NdcgQuotient(s: Scale, ranked: seq<Id>, g: Grades, k: nat)
    ensures var actual, ideal := Dcg(s, GradesOf(g, Cut(ranked, k))), Dcg(s, Ideal(g, k));
      && (ideal == 0.0 ==> Ndcg(s, ranked, g, k) == 0.0)
      && (ideal != 0.0 ==> Ndcg(s, ranked, g, k) * ideal == actual)
  {
    var actual, ideal := Dcg(s, GradesOf(g, Cut(ranked, k))), Dcg(s, Ideal(g, k));
    hide Dcg, Ideal, Cut;
    if ideal != 0.0 {
      Product(actual, ideal);
    }
  }

  lemma WeightedAll(s: Scale, xs: seq<real>)
    ensures Dcg(s, xs) == Weighted(s, xs, 0)
  {
    WeightedTo(s, xs, 0);
    assert xs[..0] == [];
  }

  lemma Product(part: real, whole: real)
    requires whole != 0.0
    ensures part / whole * whole == part
  {
  }

  // ---------------------------------------------------------------- sums of gains

  function Gains(s: Scale, xs: seq<real>): real {
    if xs == [] then 0.0 else Gains(s, xs[..|xs| - 1]) + s.gain(xs[|xs| - 1])
  }

  lemma {:induction false} GainsAppend(s: Scale, xs: seq<real>, ys: seq<real>)
    ensures Gains(s, xs + ys) == Gains(s, xs) + Gains(s, ys)
  {
    if ys == [] {
      assert xs + ys == xs;
    } else {
      var n := |ys| - 1;
      GainsAppend(s, xs, ys[..n]);
      assert (xs + ys)[..|xs + ys| - 1] == xs + ys[..n];
    }
  }

  lemma GainsOne(s: Scale, x: real)
    ensures Gains(s, [x]) == s.gain(x)
  {
    assert [x][..0] == [];
  }

  ghost predicate Nonnegative(xs: seq<real>) {
    forall i | 0 <= i < |xs| :: 0.0 <= xs[i]
  }

  lemma GainSign(s: Scale, x: real)
    requires Gaining(s) && 0.0 <= x
    ensures 0.0 <= s.gain(x) && (s.gain(x) == 0.0 <==> x == 0.0)
  {
    if x > 0.0 {
      assert s.gain(0.0) < s.gain(x);
    }
  }

  lemma GainRises(s: Scale, x: real, y: real)
    requires Gaining(s) && 0.0 <= x <= y
    ensures s.gain(x) <= s.gain(y)
  {
  }

  lemma {:induction false} GainsNonnegative(s: Scale, xs: seq<real>)
    requires Gaining(s) && Nonnegative(xs)
    ensures 0.0 <= Gains(s, xs)
  {
    if xs != [] {
      GainsNonnegative(s, xs[..|xs| - 1]);
      GainSign(s, xs[|xs| - 1]);
    }
  }

  /** Place by place smaller grades have a smaller sum. */
  lemma {:induction false} GainsPointwise(s: Scale, xs: seq<real>, ys: seq<real>)
    requires Gaining(s) && Nonnegative(xs) && |xs| == |ys| && forall i | 0 <= i < |xs| :: xs[i] <= ys[i]
    ensures Gains(s, xs) <= Gains(s, ys)
  {
    if xs != [] {
      var n := |xs| - 1;
      GainsPointwise(s, xs[..n], ys[..n]);
      GainRises(s, xs[n], ys[n]);
    }
  }

  lemma GainsWithout(s: Scale, xs: seq<real>, i: nat)
    requires i < |xs|
    ensures Gains(s, xs) == Gains(s, xs[..i] + xs[i + 1..]) + s.gain(xs[i])
    ensures multiset(xs) == multiset(xs[..i] + xs[i + 1..]) + multiset{xs[i]}
  {
    var l, x, r := xs[..i], xs[i], xs[i + 1..];
    assert xs == l + ([x] + r);
    GainsAppend(s, l, [x] + r);
    GainsAppend(s, [x], r);
    GainsOne(s, x);
    GainsAppend(s, l, r);
  }

  lemma TopTaken(s: Scale, xs: seq<real>, i: nat, top: real, rest: seq<real>)
    requires i < |xs| && xs[i] == top && multiset(xs) <= multiset([top] + rest)
    ensures var fewer := xs[..i] + xs[i + 1..];
      && multiset(fewer) <= multiset(rest)
      && (|fewer| <= |rest| && Gains(s, fewer) <= Gains(s, rest[..|fewer|]) ==>
        Gains(s, xs) <= Gains(s, ([top] + rest)[..|xs|]))
  {
    var fewer := xs[..i] + xs[i + 1..];
    GainsWithout(s, xs, i);
    TakeOff(multiset(fewer), multiset(rest), top);
    if |fewer| <= |rest| {
      assert ([top] + rest)[..|xs|] == [top] + rest[..|fewer|];
      GainsAppend(s, [top], rest[..|fewer|]);
      GainsOne(s, top);
    }
  }

  lemma TopLeft(s: Scale, n: nat, all: seq<real>)
    requires Gaining(s) && Descending(all) && Nonnegative(all) && n < |all|
    ensures Gains(s, all[1..][..n]) <= Gains(s, all[..n])
  {
    GainsPointwise(s, all[1..][..n], all[..n]);
  }

  lemma LeftOut(xs: seq<real>, top: real, rest: seq<real>)
    requires multiset(xs) <= multiset([top] + rest) && top !in xs
    ensures multiset(xs) <= multiset(rest)
  {
    assert top !in multiset(xs);
    assert multiset([top] + rest) == multiset{top} + multiset(rest);
  }

  /** No choice of grades sums to more than as many of the largest ones. */
  lemma {:induction false} TopIsLargest(s: Scale, xs: seq<real>, all: seq<real>)
    requires Gaining(s) && Descending(all) && Nonnegative(all) && multiset(xs) <= multiset(all)
    ensures |xs| <= |all| && Gains(s, xs) <= Gains(s, all[..|xs|])
    decreases |all|
  {
    FewerThan(xs, all);
    if xs != [] {
      var top, rest := all[0], all[1..];
      assert all == [top] + rest;
      if top in xs {
        var i :| 0 <= i < |xs| && xs[i] == top;
        TopTaken(s, xs, i, top, rest);
        TopIsLargest(s, xs[..i] + xs[i + 1..], rest);
      } else {
        LeftOut(xs, top, rest);
        TopIsLargest(s, xs, rest);
        TopLeft(s, |xs|, all);
      }
    }
  }

  lemma TakeOff(a: multiset<real>, b: multiset<real>, x: real)
    requires a + multiset{x} <= b + multiset{x}
    ensures a <= b
  {
    forall y
      ensures a[y] <= b[y]
    {
      assert (a + multiset{x})[y] <= (b + multiset{x})[y];
    }
  }

  lemma FewerThan(xs: seq<real>, all: seq<real>)
    requires multiset(xs) <= multiset(all)
    ensures |xs| <= |all|
  {
    var rest := multiset(all) - multiset(xs);
    assert multiset(all) == multiset(xs) + rest;
    assert |multiset(all)| == |multiset(xs)| + |rest|;
  }

  // ---------------------------------------------------------------- summation by parts

  /** Every prefix of one list gains no more than the same prefix of the other. */
  ghost predicate Dominated(s: Scale, xs: seq<real>, ys: seq<real>) {
    |xs| == |ys| && forall j | 0 <= j <= |xs| :: Behind(s, xs, ys, j)
  }

  ghost predicate Behind(s: Scale, xs: seq<real>, ys: seq<real>, j: nat)
    requires j <= |xs| == |ys|
  {
    Gains(s, xs[..j]) <= Gains(s, ys[..j])
  }

  lemma DominatedPrefix(s: Scale, xs: seq<real>, ys: seq<real>)
    requires Dominated(s, xs, ys) && xs != []
    ensures Dominated(s, xs[..|xs| - 1], ys[..|xs| - 1])
  {
    var n := |xs| - 1;
    forall j | 0 <= j <= n
      ensures Behind(s, xs[..n], ys[..n], j)
    {
      assert Behind(s, xs, ys, j);
      assert xs[..n][..j] == xs[..j] && ys[..n][..j] == ys[..j];
    }
  }

  lemma Scaled(w: real, v: real, d: real)
    requires v <= w && 0.0 <= d
    ensures v * d <= w * d
    ensures v < w && 0.0 < d ==> v * d < w * d
  {
    assert 0.0 <= (w - v) * d;
    if v < w && 0.0 < d {
      assert 0.0 < (w - v) * d;
    }
  }

  lemma ByPartsStep(w0: real, w: real, gx: real, gy: real, dx: real, dy: real, x: real, y: real)
    requires w <= w0 && gx <= gy && w0 * (gy - gx) <= dy - dx
    ensures w * ((gy + y) - (gx + x)) <= (dy + y * w) - (dx + x * w)
  {
    Scaled(w0, w, gy - gx);
    assert w * ((gy + y) - (gx + x)) == w * (gy - gx) + (y * w - x * w);
  }

  lemma WeightSteps(s: Scale, n: nat)
    requires Weighing(s)
    ensures 0.0 < s.weight(n + 1) <= s.weight(n)
  {
  }

  /** The lead in discounted gain is at least the lead in plain gain at the last weight. */
  lemma {:induction false} LeadByParts(s: Scale, xs: seq<real>, ys: seq<real>)
    requires Weighing(s) && Dominated(s, xs, ys) && xs != []
    ensures s.weight(|xs| - 1) * (Gains(s, ys) - Gains(s, xs)) <= Dcg(s, ys) - Dcg(s, xs)
  {
    var n := |xs| - 1;
    var a, b := xs[..n], ys[..n];
    DominatedPrefix(s, xs, ys);
    if n == 0 {
      ByPartsStep(s.weight(n), s.weight(n), 0.0, 0.0, 0.0, 0.0, s.gain(xs[n]), s.gain(ys[n]));
    } else {
      LeadByParts(s, a, b);
      Prefixed(s, a, b);
      WeightSteps(s, n - 1);
      ByPartsStep(s.weight(n - 1), s.weight(n), Gains(s, a), Gains(s, b), Dcg(s, a), Dcg(s, b), s.gain(xs[n]),
        s.gain(ys[n]));
    }
  }

  lemma Prefixed(s: Scale, xs: seq<real>, ys: seq<real>)
    requires Dominated(s, xs, ys)
    ensures Gains(s, xs) <= Gains(s, ys)
  {
    assert Behind(s, xs, ys, |xs|);
    assert xs[..|xs|] == xs && ys[..|xs|] == ys;
  }

  lemma LeadCounts(w: real, gx: real, gy: real, dx: real, dy: real)
    requires 0.0 < w && gx <= gy && w * (gy - gx) <= dy - dx
    ensures dx <= dy && (gx < gy ==> dx < dy)
  {
    Scaled(w, 0.0, gy - gx);
  }

  lemma DominatedDcg(s: Scale, xs: seq<real>, ys: seq<real>)
    requires Weighing(s) && Dominated(s, xs, ys)
    ensures Dcg(s, xs) <= Dcg(s, ys)
    ensures Gains(s, xs) < Gains(s, ys) ==> Dcg(s, xs) < Dcg(s, ys)
  {
    var gx, gy, dx, dy := Gains(s, xs), Gains(s, ys), Dcg(s, xs), Dcg(s, ys);
    if xs != [] {
      hide Gains, Dcg, Dominated;
      Prefixed(s, xs, ys);
      var w := s.weight(|xs| - 1);
      assert w * (gy - gx) <= dy - dx by {
        LeadByParts(s, xs, ys);
      }
      LeadCounts(w, gx, gy, dx, dy);
    }
  }

  lemma ShortfallLasts(s: Scale, xs: seq<real>, ys: seq<real>, n: nat)
    requires Weighing(s) && Falling(s) && Dominated(s, xs, ys) && |xs| == n + 1
    requires Dcg(s, xs[..n]) < Dcg(s, ys[..n])
    ensures Dcg(s, xs) < Dcg(s, ys)
  {
    var a, b := xs[..n], ys[..n];
    assert n > 0;
    assert Dcg(s, xs) == Dcg(s, a) + s.gain(xs[n]) * s.weight(n);
    assert Dcg(s, ys) == Dcg(s, b) + s.gain(ys[n]) * s.weight(n);
    Prefixed(s, xs, ys);
    DominatedPrefix(s, xs, ys);
    Prefixed(s, a, b);
    LeadByParts(s, a, b);
    WeightFalls(s, n - 1);
    LastStep(s.weight(n - 1), s.weight(n), Gains(s, a), Gains(s, b), Dcg(s, a), Dcg(s, b), s.gain(xs[n]),
      s.gain(ys[n]));
  }

  /** Under falling weights, a shortfall in any prefix costs something. */
  lemma {:induction false} ShortfallCosts(s: Scale, xs: seq<real>, ys: seq<real>, j: nat)
    requires Weighing(s) && Falling(s) && Dominated(s, xs, ys)
    requires j <= |xs| && Gains(s, xs[..j]) < Gains(s, ys[..j])
    ensures Dcg(s, xs) < Dcg(s, ys)
  {
    if j == |xs| {
      assert xs[..j] == xs && ys[..j] == ys;
      DominatedDcg(s, xs, ys);
    } else {
      var n := |xs| - 1;
      DominatedPrefix(s, xs, ys);
      assert xs[..n][..j] == xs[..j] && ys[..n][..j] == ys[..j];
      ShortfallCosts(s, xs[..n], ys[..n], j);
      ShortfallLasts(s, xs, ys, n);
    }
  }

  lemma WeightFalls(s: Scale, n: nat)
    requires Weighing(s) && Falling(s)
    ensures 0.0 < s.weight(n + 1) < s.weight(n)
  {
  }

  lemma LastStep(w0: real, w: real, gx: real, gy: real, dx: real, dy: real, x: real, y: real)
    requires 0.0 < w < w0 && gx <= gy && gx + x <= gy + y && dx < dy && w0 * (gy - gx) <= dy - dx
    ensures dx + x * w < dy + y * w
  {
    var lead := gy - gx;
    Scaled(w, 0.0, lead + y - x);
    assert w * (lead + y - x) == w * lead + (y * w - x * w);
    if lead > 0.0 {
      Scaled(w0, w, lead);
    }
  }

  // ---------------------------------------------------------------- trailing zeros

  function Zeros(n: nat): (r: seq<real>)
    ensures |r| == n && Nonnegative(r)
  {
    seq(n, _ => 0.0)
  }

  function Padded(xs: seq<real>, k: nat): (r: seq<real>)
    requires |xs| <= k
    ensures |r| == k
  {
    xs + Zeros(k - |xs|)
  }

  lemma {:induction false} ZerosGainNothing(s: Scale, xs: seq<real>, n: nat)
    requires Gaining(s)
    ensures Gains(s, xs + Zeros(n)) == Gains(s, xs) && Dcg(s, xs + Zeros(n)) == Dcg(s, xs)
  {
    var all := xs + Zeros(n);
    if n == 0 {
      assert all == xs;
    } else {
      assert all[..|all| - 1] == xs + Zeros(n - 1);
      ZerosGainNothing(s, xs, n - 1);
      assert all[|all| - 1] == 0.0;
    }
  }

  // ---------------------------------------------------------------- distinct ids

  function Without(g: Grades, i: nat): Grades
    requires i < |g.keys|
  {
    Grades(g.keys[..i] + g.keys[i + 1..], g.of)
  }

  lemma WithoutKeys(g: Grades, i: nat)
    requires Distinct(g.keys) && i < |g.keys|
    ensures Distinct(Without(g, i).keys)
    ensures forall k :: k in Without(g, i).keys <==> k in g.keys && k != g.keys[i]
  {
    var rest := Without(g, i).keys;
    forall k | k in g.keys && k != g.keys[i]
      ensures k in rest
    {
      var m :| 0 <= m < |g.keys| && g.keys[m] == k;
      assert rest[if m < i then m else m - 1] == k;
    }
  }

  lemma GradesSplit(g: Grades, ids: seq<Id>, i: nat)
    requires i < |ids|
    ensures GradesOf(g, ids) == GradesOf(g, ids[..i]) + ([Grade(g, ids[i])] + GradesOf(g, ids[i + 1..]))
    ensures GradesOf(g, ids[..i] + ids[i + 1..]) == GradesOf(g, ids[..i]) + GradesOf(g, ids[i + 1..])
  {
  }

  lemma WithoutGrade(g: Grades, i: nat)
    requires i < |g.keys| && Distinct(g.keys)
    ensures multiset(GradesOf(g, g.keys)) == multiset(GradesOf(Without(g, i), Without(g, i).keys))
      + multiset{Grade(g, g.keys[i])}
  {
    WithoutKeys(g, i);
    WithoutSame(g, i);
    GradesSplit(g, g.keys, i);
  }

  lemma WithoutSame(g: Grades, i: nat)
    requires i < |g.keys| && forall k :: k in Without(g, i).keys <==> k in g.keys && k != g.keys[i]
    ensures GradesOf(g, Without(g, i).keys) == GradesOf(Without(g, i), Without(g, i).keys)
  {
    SameGrades(g, Without(g, i), Without(g, i).keys);
  }

  lemma SameGrades(g: Grades, h: Grades, ids: seq<Id>)
    requires g.of == h.of && forall i | 0 <= i < |ids| :: ids[i] in g.keys <==> ids[i] in h.keys
    ensures GradesOf(g, ids) == GradesOf(h, ids)
  {
  }

  /** Distinct ids draw their grades from different entries, or from nowhere. */
  lemma {:induction false} DrawnFromGrades(g: Grades, ids: seq<Id>, n: nat)
    requires Distinct(g.keys) && Distinct(ids) && |ids| <= n
    ensures multiset(GradesOf(g, ids)) <= multiset(GradesOf(g, g.keys)) + multiset(Zeros(n))
    decreases |ids|
  {
    if ids != [] {
      var m := |ids| - 1;
      var id, fewer := ids[m], ids[..m];
      assert GradesOf(g, ids) == GradesOf(g, fewer) + [Grade(g, id)];
      if id in g.keys {
        var i :| 0 <= i < |g.keys| && g.keys[i] == id;
        WithoutKeys(g, i);
        WithoutGrade(g, i);
        DrawnFromGrades(Without(g, i), fewer, n);
        SameGrades(g, Without(g, i), fewer);
        PutOn(multiset(GradesOf(g, fewer)), multiset(GradesOf(Without(g, i), Without(g, i).keys)), multiset(Zeros(n)),
          Grade(g, id));
      } else {
        DrawnFromGrades(g, fewer, n - 1);
        assert Zeros(n) == Zeros(n - 1) + [0.0];
        PutOn(multiset(GradesOf(g, fewer)), multiset(Zeros(n - 1)), multiset(GradesOf(g, g.keys)), 0.0);
      }
    }
  }

  lemma PutOn(a: multiset<real>, b: multiset<real>, c: multiset<real>, x: real)
    requires a <= b + c
    ensures a + multiset{x} <= (b + multiset{x}) + c
    ensures a + multiset{x} <= c + (b + multiset{x})
  {
  }

  // ---------------------------------------------------------------- the ranking against the ideal

  /** The grades along a ranking, and the ideal ones, over all k places. */
  function Seen(g: Grades, ranked: seq<Id>, k: nat): (r: seq<real>)
    ensures |r| == k
  {
    Padded(GradesOf(g, Cut(ranked, k)), k)
  }

  function Best(g: Grades, k: nat): (r: seq<real>)
    ensures |r| == k
  {
    Padded(Ideal(g, k), k)
  }

  lemma SortedNonnegative(g: Grades)
    requires WellGraded(g)
    ensures Nonnegative(SortDown(GradesOf(g, g.keys)))
  {
    var all := GradesOf(g, g.keys);
    var sorted := SortDown(all);
    SortDownSorts(all);
    forall i | 0 <= i < |sorted|
      ensures 0.0 <= sorted[i]
    {
      assert sorted[i] in multiset(all);
      assert sorted[i] in all;
    }
  }

  lemma BestPrefix(g: Grades, k: nat, j: nat)
    requires j <= k
    ensures Best(g, k)[..j] == (SortDown(GradesOf(g, g.keys)) + Zeros(k))[..j]
  {
  }

  lemma GainsRise(s: Scale, xs: seq<real>, i: nat, j: nat)
    requires Gaining(s) && Nonnegative(xs) && i <= j <= |xs|
    ensures Gains(s, xs[..i]) <= Gains(s, xs[..j])
  {
    assert xs[..j] == xs[..i] + xs[i..j];
    GainsAppend(s, xs[..i], xs[i..j]);
    GainsNonnegative(s, xs[i..j]);
  }

  lemma RankedPrefix(s: Scale, ranked: seq<Id>, g: Grades, k: nat, j: nat)
    requires Proper(s) && WellGraded(g) && Distinct(ranked) && j <= k && j <= |ranked|
    ensures Gains(s, GradesOf(g, ranked[..j])) <= Gains(s, Best(g, k)[..j])
  {
    var sorted := SortDown(GradesOf(g, g.keys));
    var all := sorted + Zeros(k);
    SortedNonnegative(g);
    DrawnFromGrades(g, ranked[..j], k);
    SortDownSorts(GradesOf(g, g.keys));
    TopIsLargest(s, GradesOf(g, ranked[..j]), all);
    BestPrefix(g, k, j);
  }

  lemma SeenBehind(s: Scale, ranked: seq<Id>, g: Grades, k: nat, j: nat)
    requires Proper(s) && WellGraded(g) && Distinct(ranked) && j <= k && j <= |ranked|
    ensures Behind(s, Seen(g, ranked, k), Best(g, k), j)
  {
    RankedPrefix(s, ranked, g, k, j);
    assert Seen(g, ranked, k)[..j] == GradesOf(g, ranked[..j]);
  }

  /** Zeros add nothing to a prefix, while a longer prefix of the other list gains no less. */
  lemma BehindPast(s: Scale, xs: seq<real>, ys: seq<real>, m: nat, j: nat)
    requires Gaining(s) && Nonnegative(ys) && m <= j <= |xs| == |ys| && Behind(s, xs, ys, m)
    requires xs[m..j] == Zeros(j - m)
    ensures Behind(s, xs, ys, j)
  {
    assert xs[..j] == xs[..m] + Zeros(j - m);
    ZerosGainNothing(s, xs[..m], j - m);
    GainsRise(s, ys, m, j);
  }

  lemma SeenBehindPast(s: Scale, ranked: seq<Id>, g: Grades, k: nat, j: nat)
    requires Proper(s) && WellGraded(g) && Distinct(ranked) && |ranked| < j <= k
    ensures Behind(s, Seen(g, ranked, k), Best(g, k), j)
  {
    SeenBehind(s, ranked, g, k, |ranked|);
    SeenNonnegative(g, ranked, k);
    assert Seen(g, ranked, k)[|ranked|..j] == Zeros(j - |ranked|);
    BehindPast(s, Seen(g, ranked, k), Best(g, k), |ranked|, j);
  }

  lemma SeenIsDominated(s: Scale, ranked: seq<Id>, g: Grades, k: nat)
    requires Proper(s) && WellGraded(g) && Distinct(ranked)
    ensures Dominated(s, Seen(g, ranked, k), Best(g, k))
  {
    forall j | 0 <= j <= k
      ensures Behind(s, Seen(g, ranked, k), Best(g, k), j)
    {
      if j <= |ranked| {
        SeenBehind(s, ranked, g, k, j);
      } else {
        SeenBehindPast(s, ranked, g, k, j);
      }
    }
  }

  /** The two sums of the measure, over all k places. */
  lemma SumsArePadded(s: Scale, ranked: seq<Id>, g: Grades, k: nat)
    requires Proper(s)
    ensures Dcg(s, GradesOf(g, Cut(ranked, k))) == Dcg(s, Seen(g, ranked, k))
    ensures Dcg(s, Ideal(g, k)) == Dcg(s, Best(g, k))
  {
    ZerosGainNothing(s, GradesOf(g, Cut(ranked, k)), k - |Cut(ranked, k)|);
    ZerosGainNothing(s, Ideal(g, k), k - |Ideal(g, k)|);
  }

  lemma {:induction false} DcgNonnegative(s: Scale, xs: seq<real>)
    requires Proper(s) && Nonnegative(xs)
    ensures 0.0 <= Dcg(s, xs)
    ensures Dcg(s, xs) == 0.0 <==> forall i | 0 <= i < |xs| :: xs[i] == 0.0
  {
    if xs != [] {
      var n := |xs| - 1;
      DcgNonnegative(s, xs[..n]);
      GainSign(s, xs[n]);
      Scaled(s.gain(xs[n]), 0.0, s.weight(n));
    }
  }

  lemma Factor(q: real, x: real, y: real)
    requires q * y == x && 0.0 <= x <= y && 0.0 < y
    ensures 0.0 <= q <= 1.0 && (q == 1.0 <==> x == y)
  {
    if q > 1.0 {
      Scaled(q, 1.0, y);
    } else if q < 0.0 {
      Scaled(0.0, q, y);
    } else if q < 1.0 {
      Scaled(1.0, q, y);
    }
  }

  lemma Quotient(x: real, y: real)
    requires 0.0 <= x <= y && 0.0 < y
    ensures 0.0 <= x / y <= 1.0 && (x / y == 1.0 <==> x == y)
  {
    Factor(x / y, x, y);
  }

  lemma SeenNonnegative(g: Grades, ranked: seq<Id>, k: nat)
    requires WellGraded(g)
    ensures Nonnegative(Seen(g, ranked, k)) && Nonnegative(Best(g, k))
  {
    SortedNonnegative(g);
  }

  /** The measure of any ranking without repetitions lies between 0 and 1. */
  lemma NdcgBounded(s: Scale, ranked: seq<Id>, g: Grades, k: nat)
    requires Proper(s) && WellGraded(g) && Distinct(ranked)
    ensures 0.0 <= Ndcg(s, ranked, g, k) <= 1.0
  {
    SumsArePadded(s, ranked, g, k);
    SeenIsDominated(s, ranked, g, k);
    DominatedDcg(s, Seen(g, ranked, k), Best(g, k));
    SeenNonnegative(g, ranked, k);
    DcgNonnegative(s, Seen(g, ranked, k));
    DcgNonnegative(s, Best(g, k));
    if Dcg(s, Best(g, k)) != 0.0 {
      Quotient(Dcg(s, Seen(g, ranked, k)), Dcg(s, Best(g, k)));
    }
  }

  /** Position by position the ranking shows the ideal grades; past either end a grade counts as 0. */
  ghost predicate Perfect(ranked: seq<Id>, g: Grades, k: nat) {
    forall i | 0 <= i < k :: Seen(g, ranked, k)[i] == Best(g, k)[i]
  }

  lemma {:induction false} SameGains(s: Scale, xs: seq<real>, ys: seq<real>, i: nat)
    requires Gaining(s) && Nonnegative(xs) && Nonnegative(ys) && |xs| == |ys| && i < |xs| && xs[i] != ys[i]
    ensures Gains(s, xs[..i]) != Gains(s, ys[..i]) || Gains(s, xs[..i + 1]) != Gains(s, ys[..i + 1])
  {
    assert xs[..i + 1][..i] == xs[..i] && ys[..i + 1][..i] == ys[..i];
    assert xs[..i + 1][i] == xs[i] && ys[..i + 1][i] == ys[i];
    assert s.gain(xs[i]) != s.gain(ys[i]);
  }

  /** A difference from the ideal grades anywhere costs something. */
  lemma DifferenceCosts(s: Scale, xs: seq<real>, ys: seq<real>, i: nat)
    requires Proper(s) && Falling(s) && Dominated(s, xs, ys) && Nonnegative(xs) && Nonnegative(ys)
    requires i < |xs| && xs[i] != ys[i]
    ensures Dcg(s, xs) < Dcg(s, ys)
  {
    SameGains(s, xs, ys, i);
    assert Behind(s, xs, ys, i) && Behind(s, xs, ys, i + 1);
    if Gains(s, xs[..i]) != Gains(s, ys[..i]) {
      ShortfallCosts(s, xs, ys, i);
    } else {
      ShortfallCosts(s, xs, ys, i + 1);
    }
  }

  /** Some chunk is graded above 0 and there is a place for it. */
  ghost predicate Answerable(g: Grades, k: nat) {
    k > 0 && exists id | id in g.keys :: Grade(g, id) > 0.0
  }

  lemma IdealPositive(s: Scale, g: Grades, k: nat)
    requires Proper(s) && WellGraded(g)
    ensures Dcg(s, Best(g, k)) > 0.0 <==> Answerable(g, k)
  {
    var all := GradesOf(g, g.keys);
    var sorted := SortDown(all);
    SortDownSorts(all);
    SeenNonnegative(g, [], k);
    DcgNonnegative(s, Best(g, k));
    if Answerable(g, k) {
      var id :| id in g.keys && Grade(g, id) > 0.0;
      var i :| 0 <= i < |g.keys| && g.keys[i] == id;
      assert all[i] in multiset(sorted);
      assert all[i] in sorted;
      assert sorted[0] >= all[i];
      assert Best(g, k)[0] == sorted[0];
    }
    if i :| 0 <= i < k && Best(g, k)[i] != 0.0 {
      assert Best(g, k)[i] == sorted[i];
      assert sorted[i] in multiset(all);
      var j :| 0 <= j < |all| && all[j] == sorted[i];
      assert Grade(g, g.keys[j]) > 0.0;
    }
  }

  /** The measure is 1 exactly for a ranking that shows the ideal grades in the ideal order. */
  lemma NdcgIsOneIff(s: Scale, ranked: seq<Id>, g: Grades, k: nat)
    requires Proper(s) && Falling(s) && WellGraded(g) && Distinct(ranked)
    ensures Ndcg(s, ranked, g, k) == 1.0 <==> Answerable(g, k) && Perfect(ranked, g, k)
  {
    var xs, ys := Seen(g, ranked, k), Best(g, k);
    SumsArePadded(s, ranked, g, k);
    SeenIsDominated(s, ranked, g, k);
    DominatedDcg(s, xs, ys);
    SeenNonnegative(g, ranked, k);
    DcgNonnegative(s, xs);
    IdealPositive(s, g, k);
    if Answerable(g, k) {
      Quotient(Dcg(s, xs), Dcg(s, ys));
      if Perfect(ranked, g, k) {
        assert xs == ys;
      } else {
        var i :| 0 <= i < k && xs[i] != ys[i];
        DifferenceCosts(s, xs, ys, i);
      }
    }
  }

  /** Chunks with the larger grades come first, and every positive grade is shown if there is room. */
  ghost predicate GradedFirst(ranked: seq<Id>, g: Grades) {
    && (forall i, j | 0 <= i < j < |ranked| :: Grade(g, ranked[i]) >= Grade(g, ranked[j]))
    && forall id | id in g.keys && Grade(g, id) > 0.0 :: id in ranked
  }

  /** The grades as the ranking shows them. */
  function Shown(g: Grades, ranked: seq<Id>): Grades {
    Grades(ranked, map id | id in ranked :: Grade(g, id))
  }

  lemma AllShown(g: Grades, ranked: seq<Id>)
    requires WellGraded(g) && Distinct(ranked) && GradedFirst(ranked, g)
    ensures multiset(GradesOf(g, g.keys)) <= multiset(GradesOf(g, ranked)) + multiset(Zeros(|g.keys|))
  {
    var h := Shown(g, ranked);
    DrawnFromGrades(h, g.keys, |g.keys|);
    assert GradesOf(h, ranked) == GradesOf(g, ranked);
    assert GradesOf(h, g.keys) == GradesOf(g, g.keys);
  }

  lemma ShownDescends(g: Grades, ranked: seq<Id>, n: nat)
    requires WellGraded(g) && GradedFirst(ranked, g)
    ensures Descending(GradesOf(g, ranked) + Zeros(n)) && Nonnegative(GradesOf(g, ranked) + Zeros(n))
  {
    var all := GradesOf(g, ranked) + Zeros(n);
    assert forall i | 0 <= i < |ranked| :: all[i] == Grade(g, ranked[i]);
  }

  lemma SeenPrefix(g: Grades, ranked: seq<Id>, k: nat, n: nat, j: nat)
    requires j <= k <= n
    ensures Seen(g, ranked, k)[..j] == (GradesOf(g, ranked) + Zeros(n))[..j]
  {
  }

  lemma SubPrefix(xs: seq<real>, m: nat)
    requires m <= |xs|
    ensures multiset(xs[..m]) <= multiset(xs)
  {
    assert xs == xs[..m] + xs[m..];
  }

  lemma SortedIsShown(g: Grades, ranked: seq<Id>, m: nat, k: nat)
    requires WellGraded(g) && Distinct(ranked) && GradedFirst(ranked, g)
    requires m <= |SortDown(GradesOf(g, g.keys))|
    ensures multiset(SortDown(GradesOf(g, g.keys))[..m]) <= multiset(GradesOf(g, ranked) + Zeros(|g.keys| + k))
  {
    SortDownSorts(GradesOf(g, g.keys));
    AllShown(g, ranked);
    SubPrefix(SortDown(GradesOf(g, g.keys)), m);
    assert Zeros(|g.keys| + k) == Zeros(|g.keys|) + Zeros(k);
  }

  lemma BestGains(s: Scale, g: Grades, k: nat, m: nat, j: nat)
    requires Gaining(s) && j <= k
    requires m == if j <= |SortDown(GradesOf(g, g.keys))| then j else |SortDown(GradesOf(g, g.keys))|
    ensures Gains(s, Best(g, k)[..j]) == Gains(s, SortDown(GradesOf(g, g.keys))[..m])
  {
    var sorted := SortDown(GradesOf(g, g.keys));
    BestPrefix(g, k, j);
    assert Best(g, k)[..j] == sorted[..m] + Zeros(j - m);
    ZerosGainNothing(s, sorted[..m], j - m);
  }

  lemma LargestPrefix(s: Scale, xs: seq<real>, all: seq<real>, j: nat)
    requires Gaining(s) && Descending(all) && Nonnegative(all) && multiset(xs) <= multiset(all) && |xs| <= j <= |all|
    ensures Gains(s, xs) <= Gains(s, all[..j])
  {
    TopIsLargest(s, xs, all);
    GainsRise(s, all, |xs|, j);
  }

  lemma BestPrefixGains(s: Scale, ranked: seq<Id>, g: Grades, k: nat, j: nat)
    requires Gaining(s) && WellGraded(g) && Distinct(ranked) && GradedFirst(ranked, g) && j <= k
    ensures Gains(s, Best(g, k)[..j]) <= Gains(s, Seen(g, ranked, k)[..j])
  {
    hide Gains, Gaining, SortDown, Best, Seen, GradedFirst;
    var n := |g.keys| + k;
    var all := GradesOf(g, ranked) + Zeros(n);
    var sorted := SortDown(GradesOf(g, g.keys));
    var m := if j <= |sorted| then j else |sorted|;
    BestGains(s, g, k, m, j);
    SortedIsShown(g, ranked, m, k);
    ShownDescends(g, ranked, n);
    LargestPrefix(s, sorted[..m], all, j);
    SeenPrefix(g, ranked, k, n, j);
  }

  lemma BestIsDominated(s: Scale, ranked: seq<Id>, g: Grades, k: nat)
    requires Gaining(s) && WellGraded(g) && Distinct(ranked) && GradedFirst(ranked, g)
    ensures Dominated(s, Best(g, k), Seen(g, ranked, k))
  {
    forall j | 0 <= j <= k
      ensures Behind(s, Best(g, k), Seen(g, ranked, k), j)
    {
      BestPrefixGains(s, ranked, g, k, j);
    }
  }

  /** A ranking with the graded chunks first, in non-increasing grade, measures 1. */
  lemma GradedFirstMeasuresOne(s: Scale, ranked: seq<Id>, g: Grades, k: nat)
    requires Proper(s) && WellGraded(g) && Distinct(ranked) && GradedFirst(ranked, g) && Answerable(g, k)
    ensures Ndcg(s, ranked, g, k) == 1.0
  {
    var xs, ys := Seen(g, ranked, k), Best(g, k);
    BestIsDominated(s, ranked, g, k);
    SumsArePadded(s, ranked, g, k);
    SeenIsDominated(s, ranked, g, k);
    DominatedDcg(s, xs, ys);
    DominatedDcg(s, ys, xs);
    IdealPositive(s, g, k);
    Quotient(Dcg(s, xs), Dcg(s, ys));
  }

  /** Distinctness is needed: the one graded chunk listed twice measures above 1. */
  lemma RepeatsExceedOne(s: Scale)
    requires Proper(s)
    ensures Ndcg(s, ["a", "a"], Grades(["a"], map["a" := 1.0]), 10) > 1.0
  {
    var g := Grades(["a"], map["a" := 1.0]);
    assert GradesOf(g, ["a", "a"]) == [1.0, 1.0] && GradesOf(g, g.keys) == [1.0];
    assert [1.0][..0] == [] && [1.0, 1.0][..1] == [1.0];
    assert Ideal(g, 10) == [1.0];
    GainSign(s, 1.0);
    var x, w0, w1 := s.gain(1.0), s.weight(0), s.weight(1);
    assert Dcg(s, [1.0]) == x * w0 && Dcg(s, [1.0, 1.0]) == x * w0 + x * w1;
    Scaled(x, 0.0, w0);
    Scaled(x, 0.0, w1);
    Exceeds(x * w0 + x * w1, x * w0);
  }

  lemma Exceeds(x: real, y: real)
    requires x > y > 0.0
    ensures x / y > 1.0
  {
    var q := x / y;
    assert q * y == x;
    if q <= 1.0 {
      Scaled(1.0, q, y);
    }
  }
}
