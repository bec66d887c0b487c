/**
 * The context sufficiency score in exact six-place arithmetic.  Scores are counted in millionths; a quotient is
 * rounded half to even, as the decimal context of the evaluator does.
 */
module ContextScore {

  /** The nearest integer, and the even one of two that are equally near. */
  function HalfEven(x: real): int {
    var f := x.Floor;
    var r := x - f as real;
    if r < 0.5 || (r == 0.5 && f % 2 == 0) then f else f + 1
  }

  const ONE := 1_000_000
  const THRESHOLD := 720_000

  function Ratio(n: nat, d: nat): int
    requires d > 0
  {
    HalfEven(n as real / d as real * 1_000_000.0)
  }

  // ---------- inputs ----------

  datatype Spec = Spec(requirements: seq<string>, acceptance: seq<string>, architecture: seq<string>)
  {
    function Expected(): seq<string> { requirements + acceptance + architecture }

    predicate Valid() {
      && requirements != [] && acceptance != [] && architecture != []
      && forall i, j :: 0 <= i < j < |Expected()| ==> Expected()[i] != Expected()[j]
    }
  }

  datatype Manifest = Manifest(present: seq<string>, missing: seq<string>, invalid: seq<string>, allPresent: bool)
  {
    function Observed(): seq<string> { present + missing + invalid }

    /** Every expected artifact is present, missing or invalid, exactly once. */
    predicate Valid(spec: Spec) {
      && (forall i, j :: 0 <= i < j < |Observed()| ==> Observed()[i] != Observed()[j])
      && (forall a :: a in Observed() ==> a in spec.Expected())
      && (forall a :: a in spec.Expected() ==> a in Observed())
      && (allPresent <==> forall a :: a in spec.Expected() ==> a in present)
    }
  }

  /** What the evaluator is given: the manifest's result, the structural symbols' tokens and the query's. */
  datatype Input = Input(spec: Spec, manifest: Manifest, hasSymbols: bool, symbols: seq<set<string>>,
    query: set<string>)
  {
    predicate Valid() { spec.Valid() && manifest.Valid(spec) && query != {} }
  }

  // ---------- the six dimensions ----------

  function Relevant(symbols: seq<set<string>>, query: set<string>): seq<set<string>> {
    if symbols == [] then []
    else
      var last := symbols[|symbols| - 1];
      Relevant(symbols[..|symbols| - 1], query) + if query * last != {} then [last] else []
  }

  function Matched(relevant: seq<set<string>>, query: set<string>): set<string> {
    if relevant == [] then {} else Matched(relevant[..|relevant| - 1], query) + query * relevant[|relevant| - 1]
  }

  function CountPresent(group: seq<string>, present: seq<string>): nat {
    if group == [] then 0
    else CountPresent(group[..|group| - 1], present) + if group[|group| - 1] in present then 1 else 0
  }

  function Jaccard(query: set<string>, tokens: set<string>): int
    requires query != {}
  {
    assert query + tokens != {} by { var x :| x in query; assert x in query + tokens; }
    Ratio(|query * tokens|, |query + tokens|)
  }

  function Max(a: int, b: int): int { if a >= b then a else b }

  function BestJaccard(relevant: seq<set<string>>, query: set<string>): int
    requires query != {}
  {
    if relevant == [] then 0
    else
      var last := Jaccard(query, relevant[|relevant| - 1]);
      if |relevant| == 1 then last else Max(BestJaccard(relevant[..|relevant| - 1], query), last)
  }

  datatype Scores = Scores(
    requirements: int, acceptance: int, structural: int, relevance: int, architecture: int, conflicts: int)

  predicate ConflictFree(i: Input) {
    i.manifest.allPresent && i.hasSymbols && Relevant(i.symbols, i.query) != [] && i.manifest.missing == []
      && i.manifest.invalid == []
  }

  function ScoresOf(i: Input): Scores
    requires i.Valid()
  {
    var relevant := Relevant(i.symbols, i.query);
    Scores(Ratio(CountPresent(i.spec.requirements, i.manifest.present), |i.spec.requirements|),
           Ratio(CountPresent(i.spec.acceptance, i.manifest.present), |i.spec.acceptance|),
           Ratio(|Matched(relevant, i.query)|, |i.query|),
           BestJaccard(relevant, i.query),
           Ratio(CountPresent(i.spec.architecture, i.manifest.present), |i.spec.architecture|),
           if ConflictFree(i) then ONE else 0)
  }

  // ---------- the decision ----------

  /** The weighted sum, in hundredths of a millionth. */
  function Weighted(s: Scores): int {
    25 * s.requirements + 20 * s.acceptance + 15 * s.structural + 15 * s.relevance + 15 * s.architecture
      + 10 * s.conflicts
  }

  function Confidence(s: Scores): int { HalfEven(Weighted(s) as real / 100.0) }

  datatype Gap = MissingArtifact(id: string) | InvalidArtifact(id: string) | SnapshotEmpty | NoRelevantSymbol
               | Conflicts | BelowThreshold | DualGate

  datatype Action = Proceed | RequestHuman | RetrieveMore

  datatype Report = Report(scores: Scores, confidence: int, sufficient: bool, gaps: seq<Gap>, action: Action)

  function MissingGaps(names: seq<string>): seq<Gap> {
    seq(|names|, k requires 0 <= k < |names| => MissingArtifact(names[k]))
  }

  function InvalidGaps(names: seq<string>): seq<Gap> {
    seq(|names|, k requires 0 <= k < |names| => InvalidArtifact(names[k]))
  }

  function Gaps(i: Input, s: Scores, confidence: int, sufficient: bool): seq<Gap> {
    var found :=
      MissingGaps(i.manifest.missing) + InvalidGaps(i.manifest.invalid) +
      (if !i.hasSymbols then [SnapshotEmpty] else if Relevant(i.symbols, i.query) == [] then [NoRelevantSymbol]
        else []) +
      (if s.conflicts != ONE then [Conflicts] else []) +
      (if confidence < THRESHOLD then [BelowThreshold] else []);
    if found == [] && !sufficient then [DualGate] else found
  }

  predicate DiscreteGate(i: Input, s: Scores) {
    i.manifest.allPresent && i.hasSymbols && Relevant(i.symbols, i.query) != [] && s.conflicts == ONE
  }

  function Evaluate(i: Input): Report
    requires i.Valid()
  {
    var s := ScoresOf(i);
    var confidence := Confidence(s);
    var sufficient := DiscreteGate(i, s) && confidence >= THRESHOLD;
    Report(s, confidence, sufficient, Gaps(i, s, confidence, sufficient),
           if sufficient then Proceed else if i.manifest.invalid != [] then RequestHuman else RetrieveMore)
  }

  // ---------- rounding ----------

  lemma RoundingIsMonotone(x: real, y: real)
    requires x <= y
    ensures HalfEven(x) <= HalfEven(y)
  {
    assert x.Floor <= y.Floor;
  }

  lemma RoundingKeepsIntegers(n: int)
    ensures HalfEven(n as real) == n
  {
  }

  /** Rounding moves a number by at most one half. */
  lemma RoundingIsNear(x: real)
    ensures x - 0.5 <= HalfEven(x) as real <= x + 0.5
  {
  }

  lemma Cancels(y: real, b: real)
    requires b > 0.0
    ensures y * b / b == y
  {
  }

  lemma SelfQuotient(d: real)
    requires d > 0.0
    ensures d / d == 1.0
  {
    Cancels(1.0, d);
  }

  lemma QuotientOrder(p: real, q: real, b: real)
    requires p <= q && b > 0.0
    ensures p / b <= q / b
  {
    assert p / b * b == p && q / b * b == q;
  }

  lemma Quotients(a: nat, b: nat, c: nat, d: nat)
    requires a <= c && b >= d > 0
    ensures a as real / b as real <= c as real / d as real
  {
    var y := c as real / d as real;
    assert y * d as real == c as real;
    assert y >= 0.0;
    assert y * b as real >= y * d as real;
    QuotientOrder(a as real, y * b as real, b as real);
    Cancels(y, b as real);
  }

  lemma RatioOrder(a: nat, b: nat, c: nat, d: nat)
    requires a <= c && b >= d > 0
    ensures Ratio(a, b) <= Ratio(c, d)
  {
    Quotients(a, b, c, d);
    RoundingIsMonotone(a as real / b as real * 1_000_000.0, c as real / d as real * 1_000_000.0);
  }

  lemma RatioRange(n: nat, d: nat)
    requires d > 0 && n <= d
    ensures 0 <= Ratio(n, d) <= ONE && (n == d ==> Ratio(n, d) == ONE)
  {
    RatioOrder(0, d, n, d);
    RatioOrder(n, d, d, d);
    SelfQuotient(d as real);
    assert 0 as real / d as real == 0.0;
    RoundingKeepsIntegers(0);
    RoundingKeepsIntegers(ONE);
  }

  // ---------- set sizes ----------

  lemma SubsetSize<T>(a: set<T>, b: set<T>)
    requires a <= b
    ensures |a| <= |b|
  {
    assert a + (b - a) == b;
  }

  lemma {:induction false} MatchedHolds(relevant: seq<set<string>>, query: set<string>)
    ensures Matched(relevant, query) <= query
    ensures forall k :: 0 <= k < |relevant| ==> query * relevant[k] <= Matched(relevant, query)
  {
    if relevant != [] { MatchedHolds(relevant[..|relevant| - 1], query); }
  }

  lemma {:induction false} CountBound(group: seq<string>, present: seq<string>)
    ensures CountPresent(group, present) <= |group|
    ensures (forall a :: a in group ==> a in present) ==> CountPresent(group, present) == |group|
  {
    if group != [] {
      CountBound(group[..|group| - 1], present);
      assert group[|group| - 1] in group;
    }
  }

  /** One symbol's Jaccard similarity is at most the share of query tokens that any symbol covers. */
  lemma JaccardBelowCoverage(relevant: seq<set<string>>, query: set<string>, k: nat)
    requires query != {} && k < |relevant|
    ensures Jaccard(query, relevant[k]) <= Ratio(|Matched(relevant, query)|, |query|)
  {
    MatchedHolds(relevant, query);
    SubsetSize(query * relevant[k], Matched(relevant, query));
    SubsetSize(query, query + relevant[k]);
    assert |query| > 0;
    RatioOrder(|query * relevant[k]|, |query + relevant[k]|, |Matched(relevant, query)|, |query|);
  }

  lemma {:induction false} BestIsOne(relevant: seq<set<string>>, query: set<string>) returns (k: nat)
    requires query != {} && relevant != []
    ensures k < |relevant| && BestJaccard(relevant, query) == Jaccard(query, relevant[k])
    ensures forall j :: 0 <= j < |relevant| ==> Jaccard(query, relevant[j]) <= BestJaccard(relevant, query)
  {
    hide Jaccard;
    k := |relevant| - 1;
    if |relevant| > 1 {
      var j := BestIsOne(relevant[..|relevant| - 1], query);
      if BestJaccard(relevant, query) != Jaccard(query, relevant[k]) { k := j; }
    }
  }

  // ---------- the guarantees ----------

  /** Symbol relevance never exceeds structural coverage. */
  lemma RelevanceBelowCoverage(i: Input)
    requires i.Valid()
    ensures ScoresOf(i).relevance <= ScoresOf(i).structural
  {
    var relevant := Relevant(i.symbols, i.query);
    assert |i.query| > 0;
    if relevant == [] {
      RatioRange(0, |i.query|);
    } else {
      hide Jaccard, Ratio;
      var k := BestIsOne(relevant, i.query);
      JaccardBelowCoverage(relevant, i.query, k);
    }
  }

  predicate InRange(s: Scores) {
    && 0 <= s.requirements <= ONE && 0 <= s.acceptance <= ONE && 0 <= s.structural <= ONE
    && 0 <= s.relevance <= ONE && 0 <= s.architecture <= ONE && 0 <= s.conflicts <= ONE
  }

  lemma JaccardPositive(query: set<string>, tokens: set<string>)
    requires query != {}
    ensures Jaccard(query, tokens) >= 0
  {
    SubsetSize(query * tokens, query + tokens);
    assert query + tokens != {} by { var x :| x in query; assert x in query + tokens; }
    RatioRange(|query * tokens|, |query + tokens|);
  }

  lemma ScoresInRange(i: Input)
    requires i.Valid()
    ensures InRange(ScoresOf(i))
  {
    var relevant := Relevant(i.symbols, i.query);
    CountBound(i.spec.requirements, i.manifest.present);
    CountBound(i.spec.acceptance, i.manifest.present);
    CountBound(i.spec.architecture, i.manifest.present);
    RatioRange(CountPresent(i.spec.requirements, i.manifest.present), |i.spec.requirements|);
    RatioRange(CountPresent(i.spec.acceptance, i.manifest.present), |i.spec.acceptance|);
    RatioRange(CountPresent(i.spec.architecture, i.manifest.present), |i.spec.architecture|);
    MatchedHolds(relevant, i.query);
    SubsetSize(Matched(relevant, i.query), i.query);
    assert |i.query| > 0;
    RatioRange(|Matched(relevant, i.query)|, |i.query|);
    RelevanceBelowCoverage(i);
    hide Ratio, Jaccard;
    if relevant != [] {
      var k := BestIsOne(relevant, i.query);
      JaccardPositive(i.query, relevant[k]);
    }
  }

  predicate AtMost(s: Scores, t: Scores) {
    && s.requirements <= t.requirements && s.acceptance <= t.acceptance && s.structural <= t.structural
    && s.relevance <= t.relevance && s.architecture <= t.architecture && s.conflicts <= t.conflicts
  }

  /** Raising any dimension never lowers the confidence. */
  lemma ConfidenceIsMonotone(s: Scores, t: Scores)
    requires AtMost(s, t)
    ensures Confidence(s) <= Confidence(t)
  {
    assert Weighted(s) <= Weighted(t);
    RoundingIsMonotone(Weighted(s) as real / 100.0, Weighted(t) as real / 100.0);
  }

  /** The confidence is a score between nothing and one. */
  lemma ConfidenceInRange(i: Input)
    requires i.Valid()
    ensures 0 <= Evaluate(i).confidence <= ONE
  {
    var s := ScoresOf(i);
    ScoresInRange(i);
    hide ScoresOf;
    ConfidenceIsMonotone(Scores(0, 0, 0, 0, 0, 0), s);
    ConfidenceIsMonotone(s, Scores(ONE, ONE, ONE, ONE, ONE, ONE));
    RoundingKeepsIntegers(0);
    RoundingKeepsIntegers(ONE);
    assert Weighted(Scores(ONE, ONE, ONE, ONE, ONE, ONE)) as real / 100.0 == ONE as real;
  }

  /** A report is sufficient exactly when it lists no gap, and exactly then it recommends to proceed. */
  lemma SufficientExactlyWithoutGaps(i: Input)
    requires i.Valid()
    ensures var r := Evaluate(i);
            && (r.sufficient <==> r.gaps == []) && (r.sufficient <==> r.action == Proceed) && DualGate !in r.gaps
  {
    var s := ScoresOf(i);
    GateMeansConflictFree(i);
    hide ScoresOf, Confidence;
  }

  lemma GateMeansConflictFree(i: Input)
    requires i.Valid()
    ensures ScoresOf(i).conflicts == ONE <==> ConflictFree(i)
    ensures DiscreteGate(i, ScoresOf(i)) <==> ConflictFree(i)
    ensures i.manifest.missing == [] && i.manifest.invalid == [] ==> i.manifest.allPresent
  {
    assert forall a :: a in i.manifest.Observed() ==>
                         a in i.manifest.present || a in i.manifest.missing || a in i.manifest.invalid;
  }

  lemma GroupsArePresent(i: Input)
    requires i.Valid() && i.manifest.allPresent
    ensures forall a :: a in i.spec.requirements || a in i.spec.acceptance || a in i.spec.architecture ==>
              a in i.manifest.present
  {
    assert forall a :: a in i.spec.requirements || a in i.spec.acceptance || a in i.spec.architecture ==>
           a in i.spec.Expected();
  }

  /** When the discrete gate holds, only coverage and relevance are left to decide... */
  lemma GateLeavesCoverageAndRelevance(i: Input)
    requires i.Valid() && DiscreteGate(i, ScoresOf(i))
    ensures var r := Evaluate(i);
            && r.confidence == HalfEven((70 * ONE + 15 * (r.scores.structural + r.scores.relevance)) as real / 100.0)
            && (r.sufficient <==> r.confidence >= THRESHOLD)
  {
    var s := ScoresOf(i);
    hide Ratio, HalfEven, BestJaccard, Matched, Relevant, CountPresent;
    GroupsArePresent(i);
    CountBound(i.spec.requirements, i.manifest.present);
    CountBound(i.spec.acceptance, i.manifest.present);
    CountBound(i.spec.architecture, i.manifest.present);
    RatioRange(|i.spec.requirements|, |i.spec.requirements|);
    RatioRange(|i.spec.acceptance|, |i.spec.acceptance|);
    RatioRange(|i.spec.architecture|, |i.spec.architecture|);
    assert Weighted(s) == 70 * ONE + 15 * (s.structural + s.relevance);
  }

  /** ... and they suffice exactly when together they reach 0.13333. */
  lemma GateThreshold(c: int, r: int)
    ensures HalfEven((70 * ONE + 15 * (c + r)) as real / 100.0) >= THRESHOLD <==> c + r >= 133_330
  {
    var w := 70 * ONE + 15 * (c + r);
    var x := w as real / 100.0;
    RoundingIsNear(x);
    if c + r >= 133_330 {
      assert w >= 71_999_950;
      RoundingIsMonotone(719_999.5, x);
      assert HalfEven(719_999.5) == 720_000 by { assert (719_999.5).Floor == 719_999; }
    } else {
      assert w <= 71_999_935;
      assert x < 719_999.5;
      assert x.Floor <= 719_999;
    }
  }

  // ---------- what each dimension is worth, and when it is full ----------

  /** A dimension that alone is full contributes its weight. */
  lemma WeightOf(s: Scores)
    ensures var none := Scores(0, 0, 0, 0, 0, 0);
            && Confidence(none.(requirements := ONE)) == 250_000 && Confidence(none.(acceptance := ONE)) == 200_000
            && Confidence(none.(structural := ONE)) == 150_000 && Confidence(none.(relevance := ONE)) == 150_000
            && Confidence(none.(architecture := ONE)) == 150_000 && Confidence(none.(conflicts := ONE)) == 100_000
    ensures Confidence(s) as real <= WeightedSum(s) + 0.5 && WeightedSum(s) - 0.5 <= Confidence(s) as real
  {
    RoundingKeepsIntegers(250_000);
    RoundingKeepsIntegers(200_000);
    RoundingKeepsIntegers(150_000);
    RoundingKeepsIntegers(100_000);
    RoundingIsNear(Weighted(s) as real / 100.0);
  }

  function WeightedSum(s: Scores): real {
    0.25 * s.requirements as real + 0.20 * s.acceptance as real + 0.15 * s.structural as real
    + 0.15 * s.relevance as real + 0.15 * s.architecture as real + 0.10 * s.conflicts as real
  }

  lemma {:induction false} NoneCounted(group: seq<string>, present: seq<string>)
    ensures CountPresent(group, present) == 0 <==> forall a :: a in group ==> a !in present
  {
    if group != [] { NoneCounted(group[..|group| - 1], present); }
  }

  lemma RatioIsZero(d: nat)
    requires d > 0
    ensures Ratio(0, d) == 0
  {
    assert 0 as real / d as real == 0.0;
    RoundingKeepsIntegers(0);
  }

  /** Each artifact dimension counts its own list: all present give one, none gives nothing. */
  lemma ArtifactDimensions(i: Input)
    requires i.Valid()
    ensures var s, m := ScoresOf(i), i.manifest;
            && ((forall a :: a in i.spec.requirements ==> a in m.present) ==> s.requirements == ONE)
            && ((forall a :: a in i.spec.requirements ==> a !in m.present) ==> s.requirements == 0)
            && ((forall a :: a in i.spec.acceptance ==> a in m.present) ==> s.acceptance == ONE)
            && ((forall a :: a in i.spec.acceptance ==> a !in m.present) ==> s.acceptance == 0)
            && ((forall a :: a in i.spec.architecture ==> a in m.present) ==> s.architecture == ONE)
            && ((forall a :: a in i.spec.architecture ==> a !in m.present) ==> s.architecture == 0)
  {
    DimensionOf(i.spec.requirements, i.manifest.present);
    DimensionOf(i.spec.acceptance, i.manifest.present);
    DimensionOf(i.spec.architecture, i.manifest.present);
    hide Ratio, CountPresent, BestJaccard, Matched, Relevant;
  }

  lemma DimensionOf(group: seq<string>, present: seq<string>)
    requires group != []
    ensures (forall a :: a in group ==> a in present) ==> Ratio(CountPresent(group, present), |group|) == ONE
    ensures (forall a :: a in group ==> a !in present) ==> Ratio(CountPresent(group, present), |group|) == 0
  {
    CountBound(group, present);
    NoneCounted(group, present);
    RatioRange(|group|, |group|);
    RatioIsZero(|group|);
    hide Ratio;
  }

  /** Rounding takes the nearest integer, and the even one of two. */
  lemma RoundingExactly(x: real, n: int)
    ensures HalfEven(x) == n <==>
            n as real - 0.5 <= x <= n as real + 0.5 && (x == n as real + 0.5 || x == n as real - 0.5 ==> n % 2 == 0)
  {
    var f := x.Floor;
    assert f as real <= x < (f + 1) as real;
  }

  lemma {:induction false} CountExactly(group: seq<string>, present: seq<string>)
    requires forall i, j :: 0 <= i < j < |group| ==> group[i] != group[j]
    ensures CountPresent(group, present) == |set a | a in group && a in present|
  {
    var there := set a | a in group && a in present;
    if group != [] {
      var init, last := group[..|group| - 1], group[|group| - 1];
      CountExactly(init, present);
      var before := set a | a in init && a in present;
      assert group == init + [last];
      assert last !in before;
      assert there == if last in present then before + {last} else before;
    } else {
      assert there == {};
    }
  }

  /** Each artifact dimension is the share of its own list that is present. */
  lemma ArtifactShares(i: Input)
    requires i.Valid()
    ensures var s, m := ScoresOf(i), i.manifest;
            && s.requirements == Ratio(|set a | a in i.spec.requirements && a in m.present|, |i.spec.requirements|)
            && s.acceptance == Ratio(|set a | a in i.spec.acceptance && a in m.present|, |i.spec.acceptance|)
            && s.architecture == Ratio(|set a | a in i.spec.architecture && a in m.present|, |i.spec.architecture|)
  {
    GroupsAreDistinct(i.spec);
    hide Ratio, BestJaccard, Matched, Relevant, CountPresent;
    CountExactly(i.spec.requirements, i.manifest.present);
    CountExactly(i.spec.acceptance, i.manifest.present);
    CountExactly(i.spec.architecture, i.manifest.present);
  }

  predicate Distinct(names: seq<string>) { forall i, j :: 0 <= i < j < |names| ==> names[i] != names[j] }

  lemma GroupsAreDistinct(spec: Spec)
    requires spec.Valid()
    ensures Distinct(spec.requirements) && Distinct(spec.acceptance) && Distinct(spec.architecture)
  {
    var q, c, r, all := spec.requirements, spec.acceptance, spec.architecture, spec.Expected();
    assert forall k :: 0 <= k < |q| ==> all[k] == q[k];
    assert forall k :: 0 <= k < |c| ==> all[|q| + k] == c[k];
    assert forall k :: 0 <= k < |r| ==> all[|q| + |c| + k] == r[k];
  }

  // ---------- what the query finds ----------

  lemma {:induction false} RelevantExactly(symbols: seq<set<string>>, query: set<string>)
    ensures forall x :: x in Relevant(symbols, query) <==> x in symbols && query * x != {}
  {
    if symbols != [] {
      RelevantExactly(symbols[..|symbols| - 1], query);
      assert symbols == symbols[..|symbols| - 1] + [symbols[|symbols| - 1]];
    }
  }

  lemma {:induction false} MatchedExactly(relevant: seq<set<string>>, query: set<string>)
    ensures forall t :: t in Matched(relevant, query) <==> t in query && exists x :: x in relevant && t in x
  {
    if relevant != [] {
      MatchedExactly(relevant[..|relevant| - 1], query);
      assert relevant == relevant[..|relevant| - 1] + [relevant[|relevant| - 1]];
    }
  }

  /** The query's tokens that some symbol has. */
  ghost predicate IsCovered(i: Input, covered: set<string>) {
    forall t :: t in covered <==> t in i.query && exists x :: x in i.symbols && t in x
  }

  /** Coverage is the share of query tokens that some symbol has. */
  lemma CoverageExactly(i: Input, covered: set<string>)
    requires i.Valid() && IsCovered(i, covered)
    ensures |i.query| > 0 && ScoresOf(i).structural == Ratio(|covered|, |i.query|)
  {
    var relevant := Relevant(i.symbols, i.query);
    RelevantExactly(i.symbols, i.query);
    MatchedExactly(relevant, i.query);
    forall t | t in covered ensures t in Matched(relevant, i.query) {
      var x :| x in i.symbols && t in x;
      assert t in i.query * x;
    }
    assert Matched(relevant, i.query) == covered;
    assert |i.query| > 0;
    hide Ratio, BestJaccard, CountPresent, Matched, Relevant;
  }

  /** Relevance is the greatest Jaccard similarity of a symbol that shares a token with the query, and zero if none. */
  lemma RelevanceExactly(i: Input)
    requires i.Valid()
    ensures forall x :: x in i.symbols && i.query * x != {} ==> Jaccard(i.query, x) <= ScoresOf(i).relevance
    ensures if forall x :: x in i.symbols ==> i.query * x == {} then ScoresOf(i).relevance == 0
            else exists x :: x in i.symbols && i.query * x != {} && ScoresOf(i).relevance == Jaccard(i.query, x)
  {
    var relevant := Relevant(i.symbols, i.query);
    RelevantExactly(i.symbols, i.query);
    assert ScoresOf(i).relevance == BestJaccard(relevant, i.query);
    hide Ratio, Jaccard, CountPresent, Matched, Relevant, ScoresOf;
    if relevant != [] {
      var k := BestIsOne(relevant, i.query);
      assert relevant[k] in relevant;
    } else {
      assert forall x :: x in i.symbols ==> i.query * x == {};
    }
  }

  // ---------- what the report says ----------

  /** Which gaps a report lists, and which action it recommends. */
  lemma ReportExactly(i: Input)
    requires i.Valid()
    ensures var r := Evaluate(i);
            && (forall a :: MissingArtifact(a) in r.gaps <==> a in i.manifest.missing)
            && (forall a :: InvalidArtifact(a) in r.gaps <==> a in i.manifest.invalid)
            && (SnapshotEmpty in r.gaps <==> !i.hasSymbols)
            && (NoRelevantSymbol in r.gaps <==> i.hasSymbols && forall x :: x in i.symbols ==> i.query * x == {})
            && (Conflicts in r.gaps <==> !ConflictFree(i)) && (BelowThreshold in r.gaps <==> r.confidence < THRESHOLD)
            && (r.sufficient <==> ConflictFree(i) && r.confidence >= THRESHOLD)
            && (r.action == Proceed <==> r.sufficient)
            && (r.action == RequestHuman <==> !r.sufficient && i.manifest.invalid != [])
  {
    GateMeansConflictFree(i);
    NoneRelevant(i);
    var s := ScoresOf(i);
    hide ScoresOf, Confidence, Relevant, ConflictFree;
    GapsExactly(i, s, Confidence(s), DiscreteGate(i, s) && Confidence(s) >= THRESHOLD);
  }

  lemma NoneRelevant(i: Input)
    ensures Relevant(i.symbols, i.query) == [] <==> forall x :: x in i.symbols ==> i.query * x == {}
  {
    RelevantExactly(i.symbols, i.query);
    var relevant := Relevant(i.symbols, i.query);
    if relevant != [] { assert relevant[0] in relevant; }
  }

  lemma GapsExactly(i: Input, s: Scores, confidence: int, sufficient: bool)
    ensures var gaps := Gaps(i, s, confidence, sufficient);
            && (forall a :: MissingArtifact(a) in gaps <==> a in i.manifest.missing)
            && (forall a :: InvalidArtifact(a) in gaps <==> a in i.manifest.invalid)
            && (SnapshotEmpty in gaps <==> !i.hasSymbols)
            && (NoRelevantSymbol in gaps <==> i.hasSymbols && Relevant(i.symbols, i.query) == [])
            && (Conflicts in gaps <==> s.conflicts != ONE) && (BelowThreshold in gaps <==> confidence < THRESHOLD)
  {
    hide Relevant, MissingGaps, InvalidGaps;
    MissingExactly(i.manifest.missing);
    InvalidExactly(i.manifest.invalid);
  }

  lemma MissingExactly(names: seq<string>)
    ensures forall g :: g in MissingGaps(names) <==> g.MissingArtifact? && g.id in names
  {
    forall g: Gap | g.MissingArtifact? && g.id in names ensures g in MissingGaps(names) {
      var k :| 0 <= k < |names| && names[k] == g.id;
      assert MissingGaps(names)[k] == g;
    }
  }

  lemma InvalidExactly(names: seq<string>)
    ensures forall g :: g in InvalidGaps(names) <==> g.InvalidArtifact? && g.id in names
  {
    forall g: Gap | g.InvalidArtifact? && g.id in names ensures g in InvalidGaps(names) {
      var k :| 0 <= k < |names| && names[k] == g.id;
      assert InvalidGaps(names)[k] == g;
    }
  }
}
