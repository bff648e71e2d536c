/** Exact cosine ranking of chunks (app/knowledge/retrieval.py), over the reals. */
module Retrieval {
  import opened Bounds

  type Vector = seq<real>

  function Dot(a: Vector, b: Vector): real
    requires |a| == |b|
  {
    if a == [] then 0.0 else a[0] * b[0] + Dot(a[1..], b[1..])
  }

  /** A square root that is exact on the two norms it is used for. */
  ghost predicate RootOf(sqrt: real -> real, x: real) { sqrt(x) >= 0.0 && sqrt(x) * sqrt(x) == x }

  function Ratio(dot: real, leftNorm: real, rightNorm: real): real {
    if leftNorm == 0.0 || rightNorm == 0.0 then 0.0 else dot / (leftNorm * rightNorm)
  }

  function CosineSimilarity(sqrt: real -> real, left: Vector, right: Vector): real
    requires |left| == |right|
  {
    Ratio(Dot(left, right), sqrt(Dot(left, left)), sqrt(Dot(right, right)))
  }

  function Clamp(x: real): real {
    if x < -1.0 then -1.0 else if x > 1.0 then 1.0 else x
  }

  // ---- The bound

  lemma Product(x: real, y: real)
    ensures x >= 0.0 && y >= 0.0 ==> x * y >= 0.0
    ensures x > 0.0 && y > 0.0 ==> x * y > 0.0
  {
  }

  lemma Square(x: real)
    ensures x * x >= 0.0
  {
    if x < 0.0 {
      Product(-x, -x);
    }
  }

  lemma Monotone(a: real, b: real, w: real)
    requires a <= b && w >= 0.0
    ensures a * w <= b * w
  {
    Product(b - a, w);
  }

  lemma SquareGap(y: real, e: real)
    requires y >= 0.0 && e > 0.0
    ensures (y + e) * (y + e) > y * y
  {
    Product(y, e);
    Product(e, e);
    assert (y + e) * (y + e) == y * y + 2.0 * (y * e) + e * e;
  }

  lemma SquareOrder(x: real, y: real)
    requires y >= 0.0 && x * x <= y * y
    ensures x <= y
  {
    if x > y {
      SquareGap(y, x - y);
    }
  }

  lemma {:induction false} DotSelf(a: Vector)
    ensures Dot(a, a) >= 0.0
  {
    if a != [] {
      DotSelf(a[1..]);
      Square(a[0]);
    }
  }

  /** Four times a product is at most the square of the sum. */
  lemma MeanInequality(s: real, t: real)
    ensures 4.0 * (s * t) <= (s + t) * (s + t)
  {
    Square(s - t);
    assert (s + t) * (s + t) - 4.0 * (s * t) == (s - t) * (s - t);
  }

  /** The cross term of one more coordinate. */
  lemma CrossTerm(d: real, p: real, q: real, x: real, y: real)
    requires p >= 0.0 && q >= 0.0 && d * d <= p * q
    ensures 2.0 * (d * (x * y)) <= p * (y * y) + q * (x * x)
  {
    var s, t, w := p * (y * y), q * (x * x), (x * y) * (x * y);
    Square(x);
    Square(y);
    Square(x * y);
    Product(p, y * y);
    Product(q, x * x);
    CrossSquare(d, p, q, x, y);
    MeanInequality(s, t);
    SquareOrder(2.0 * (d * (x * y)), s + t);
  }

  lemma CrossSquare(d: real, p: real, q: real, x: real, y: real)
    requires d * d <= p * q
    ensures (2.0 * (d * (x * y))) * (2.0 * (d * (x * y))) <= 4.0 * ((p * (y * y)) * (q * (x * x)))
  {
    var w := (x * y) * (x * y);
    Square(x * y);
    Monotone(d * d, p * q, w);
    assert (2.0 * (d * (x * y))) * (2.0 * (d * (x * y))) == 4.0 * ((d * d) * w);
    assert (p * (y * y)) * (q * (x * x)) == (p * q) * w;
  }

  lemma OneMoreCoordinate(d: real, p: real, q: real, x: real, y: real)
    requires p >= 0.0 && q >= 0.0 && d * d <= p * q
    ensures (x * y + d) * (x * y + d) <= (x * x + p) * (y * y + q)
  {
    CrossTerm(d, p, q, x, y);
    assert (x * y + d) * (x * y + d) == (x * x) * (y * y) + 2.0 * (d * (x * y)) + d * d;
    assert (x * x + p) * (y * y + q) == (x * x) * (y * y) + q * (x * x) + p * (y * y) + p * q;
  }

  lemma DotStep(a: Vector, b: Vector)
    requires |a| == |b| > 0
    ensures Dot(a, b) == a[0] * b[0] + Dot(a[1..], b[1..])
  {
  }

  ghost predicate Within(d: real, p: real, q: real) { d * d <= p * q }

  lemma WithinOneMore(d: real, p: real, q: real, x: real, y: real)
    requires p >= 0.0 && q >= 0.0 && Within(d, p, q)
    ensures Within(x * y + d, x * x + p, y * y + q)
  {
    OneMoreCoordinate(d, p, q, x, y);
  }

  lemma {:induction false} DotsWithin(a: Vector, b: Vector)
    requires |a| == |b|
    ensures Within(Dot(a, b), Dot(a, a), Dot(b, b))
  {
    if a != [] {
      DotsWithin(a[1..], b[1..]);
      hide Dot, Within;
      DotSelf(a[1..]);
      DotSelf(b[1..]);
      DotStep(a, b);
      DotStep(a, a);
      DotStep(b, b);
      WithinOneMore(Dot(a[1..], b[1..]), Dot(a[1..], a[1..]), Dot(b[1..], b[1..]), a[0], b[0]);
    }
  }

  /** Cauchy-Schwarz. */
  lemma CauchySchwarz(a: Vector, b: Vector)
    requires |a| == |b|
    ensures Dot(a, b) * Dot(a, b) <= Dot(a, a) * Dot(b, b)
  {
    hide Dot;
    DotsWithin(a, b);
  }

  /** A similarity is between -1 and 1, so clamping it changes nothing. */
  lemma ClampIsIdentity(sqrt: real -> real, left: Vector, right: Vector)
    requires |left| == |right| && RootOf(sqrt, Dot(left, left)) && RootOf(sqrt, Dot(right, right))
    ensures Clamp(CosineSimilarity(sqrt, left, right)) == CosineSimilarity(sqrt, left, right)
  {
    hide Dot, Ratio, Clamp;
    CauchySchwarz(left, right);
    Bounded(Dot(left, right), sqrt(Dot(left, left)), sqrt(Dot(right, right)), Dot(left, left), Dot(right, right));
  }

  lemma Bounded(d: real, m: real, n: real, p: real, q: real)
    requires m >= 0.0 && n >= 0.0 && m * m == p && n * n == q && d * d <= p * q
    ensures Clamp(Ratio(d, m, n)) == Ratio(d, m, n)
  {
    if m != 0.0 && n != 0.0 {
      Product(m, n);
      assert (m * n) * (m * n) == (m * m) * (n * n);
      SquareOrder(d, m * n);
      assert (-d) * (-d) == d * d;
      SquareOrder(-d, m * n);
      Quotient(d, m * n);
    }
  }

  lemma Quotient(d: real, n: real)
    requires n > 0.0 && -n <= d <= n
    ensures -1.0 <= d / n <= 1.0
  {
    assert d / n * n == d;
  }

  // ---- What a similarity is

  function Sum(a: Vector, b: Vector): (r: Vector)
    requires |a| == |b|
    ensures |r| == |a| && forall i :: 0 <= i < |r| ==> r[i] == a[i] + b[i]
  {
    seq(|a|, i requires 0 <= i < |a| => a[i] + b[i])
  }

  function Scaled(c: real, a: Vector): (r: Vector)
    ensures |r| == |a| && forall i :: 0 <= i < |r| ==> r[i] == c * a[i]
  {
    seq(|a|, i requires 0 <= i < |a| => c * a[i])
  }

  /** The unit vector of one coordinate. */
  function Axis(n: nat, k: nat): (r: Vector)
    ensures |r| == n && forall i :: 0 <= i < n ==> r[i] == if i == k then 1.0 else 0.0
  {
    seq(n, i requires 0 <= i < n => if i == k then 1.0 else 0.0)
  }

  lemma {:induction false} DotIsSymmetric(a: Vector, b: Vector)
    requires |a| == |b|
    ensures Dot(a, b) == Dot(b, a)
  {
    if a != [] {
      DotIsSymmetric(a[1..], b[1..]);
    }
  }

  lemma {:induction false} DotAdds(a: Vector, b: Vector, c: Vector)
    requires |a| == |b| == |c|
    ensures Dot(Sum(a, b), c) == Dot(a, c) + Dot(b, c)
  {
    if a != [] {
      assert Sum(a, b)[1..] == Sum(a[1..], b[1..]);
      DotAdds(a[1..], b[1..], c[1..]);
    }
  }

  lemma {:induction false} DotScales(x: real, a: Vector, b: Vector)
    requires |a| == |b|
    ensures Dot(Scaled(x, a), b) == x * Dot(a, b)
  {
    if a != [] {
      var r := Scaled(x, a)[1..];
      forall i | 0 <= i < |r| ensures r[i] == x * a[1..][i] {
        assert r[i] == Scaled(x, a)[i + 1];
      }
      assert r == Scaled(x, a[1..]);
      DotScales(x, a[1..], b[1..]);
    }
  }

  lemma {:induction false} DotOfAxis(a: Vector, k: nat)
    ensures Dot(a, Axis(|a|, k)) == if k < |a| then a[k] else 0.0
  {
    if a != [] {
      if k == 0 {
        assert Axis(|a|, k)[1..] == Axis(|a| - 1, |a|);
        DotOfAxis(a[1..], |a|);
      } else {
        assert Axis(|a|, k)[1..] == Axis(|a| - 1, k - 1);
        DotOfAxis(a[1..], k - 1);
      }
    }
  }

  /** The dot product is the one bilinear product that picks a coordinate out with its axis. */
  lemma DotIsBilinear(x: real, a: Vector, b: Vector, c: Vector, k: nat)
    requires |a| == |b| == |c|
    ensures Dot(Sum(Scaled(x, a), b), c) == x * Dot(a, c) + Dot(b, c)
    ensures Dot(a, b) == Dot(b, a)
    ensures k < |a| ==> Dot(a, Axis(|a|, k)) == a[k]
  {
    DotAdds(Scaled(x, a), b, c);
    DotScales(x, a, c);
    DotIsSymmetric(a, b);
    DotOfAxis(a, k);
  }

  lemma ZeroSquare(d: real)
    requires d * d <= 0.0
    ensures d == 0.0
  {
    SquareOrder(d, 0.0);
    assert (-d) * (-d) == d * d;
    SquareOrder(-d, 0.0);
  }

  /** Times the norms, a similarity is the dot product; where a norm is zero, so are both. */
  lemma SimilarityIsCosine(sqrt: real -> real, left: Vector, right: Vector)
    requires |left| == |right| && RootOf(sqrt, Dot(left, left)) && RootOf(sqrt, Dot(right, right))
    ensures var w := sqrt(Dot(left, left)) * sqrt(Dot(right, right));
            && CosineSimilarity(sqrt, left, right) * w == Dot(left, right)
            && (w == 0.0 ==> CosineSimilarity(sqrt, left, right) == 0.0)
  {
    hide Dot;
    CauchySchwarz(left, right);
    RatioTimes(Dot(left, right), sqrt(Dot(left, left)), sqrt(Dot(right, right)), Dot(left, left), Dot(right, right));
  }

  lemma RatioTimes(d: real, m: real, n: real, p: real, q: real)
    requires m >= 0.0 && n >= 0.0 && m * m == p && n * n == q && d * d <= p * q
    ensures Ratio(d, m, n) * (m * n) == d && (m * n == 0.0 ==> Ratio(d, m, n) == 0.0)
  {
    if m == 0.0 || n == 0.0 {
      ZeroSquare(d);
    } else {
      Product(m, n);
      assert d / (m * n) * (m * n) == d;
    }
  }

  /** A vector is as similar as can be to itself, and as dissimilar as can be to its opposite. */
  lemma SimilarityOfSelf(sqrt: real -> real, a: Vector)
    requires RootOf(sqrt, Dot(a, a)) && Dot(a, a) != 0.0
    ensures CosineSimilarity(sqrt, a, a) == 1.0
    ensures CosineSimilarity(sqrt, a, Scaled(-1.0, a)) == -1.0
  {
    hide Dot;
    var b, m := Scaled(-1.0, a), sqrt(Dot(a, a));
    DotScales(-1.0, a, a);
    DotScales(-1.0, a, b);
    DotIsSymmetric(a, b);
    assert Dot(b, b) == Dot(a, a) && Dot(a, b) == -Dot(a, a);
    RatioOfSquare(Dot(a, a), m);
  }

  lemma RatioOfSquare(p: real, m: real)
    requires m * m == p != 0.0
    ensures Ratio(p, m, m) == 1.0 && Ratio(-p, m, m) == -1.0
  {
    assert p / p == 1.0 && -p / p == -1.0;
  }

  // ---- Ranking

  datatype Row = Row(chunkId: int, sourceId: string, title: string, category: string, content: string,
                     embedding: Vector)

  datatype Result = Result(chunkId: int, sourceId: string, title: string, category: string, content: string,
                           similarity: real)

  datatype Scored = Scored(similarity: real, row: Row)

  /** The sort key: falling similarity, then rising chunk id. */
  predicate Before(a: Scored, b: Scored) {
    a.similarity > b.similarity || (a.similarity == b.similarity && a.row.chunkId < b.row.chunkId)
  }

  ghost predicate DistinctIds(rows: seq<Row>) {
    forall i, j :: 0 <= i < j < |rows| ==> rows[i].chunkId != rows[j].chunkId
  }

  ghost predicate Ranked(s: seq<Scored>) {
    forall i, j :: 0 <= i < j < |s| ==> Before(s[i], s[j])
  }

  function Score(sqrt: real -> real, query: Vector, rows: seq<Row>): (s: seq<Scored>)
    requires forall i :: 0 <= i < |rows| ==> |rows[i].embedding| == |query|
    ensures |s| == |rows|
    ensures forall i :: 0 <= i < |rows| ==> s[i] == Scored(CosineSimilarity(sqrt, rows[i].embedding, query), rows[i])
  {
    seq(|rows|, i requires 0 <= i < |rows| => Scored(CosineSimilarity(sqrt, rows[i].embedding, query), rows[i]))
  }

  /** The ranking of scored rows: the same rows, each before every later one. */
  ghost predicate IsRanking(r: seq<Scored>, scored: seq<Scored>) {
    Ranked(r) && |r| == |scored| && forall x :: x in r <==> x in scored
  }

  lemma {:induction false} SameRanking(r: seq<Scored>, s: seq<Scored>)
    requires Ranked(r) && Ranked(s) && |r| == |s| && forall x :: x in r <==> x in s
    ensures r == s
    decreases |r|
  {
    if r != [] {
      assert r[0] in s && s[0] in r;
      var i :| 0 <= i < |s| && s[i] == r[0];
      var j :| 0 <= j < |r| && r[j] == s[0];
      assert r[0] == s[0];
      forall x ensures x in r[1..] <==> x in s[1..] {
        assert x in r[1..] <==> x in r && x != r[0];
        assert x in s[1..] <==> x in s && x != s[0];
      }
      SameRanking(r[1..], s[1..]);
    }
  }

  /** A table has one ranking, in whatever order the database returns its rows. */
  lemma RankingIsUnique(sqrt: real -> real, query: Vector, rows: seq<Row>, shuffled: seq<Row>,
                        r: seq<Scored>, s: seq<Scored>)
    requires |rows| == |shuffled| && forall row :: row in rows <==> row in shuffled
    requires forall i :: 0 <= i < |rows| ==> |rows[i].embedding| == |query|
    requires forall i :: 0 <= i < |shuffled| ==> |shuffled[i].embedding| == |query|
    requires IsRanking(r, Score(sqrt, query, rows)) && IsRanking(s, Score(sqrt, query, shuffled))
    ensures r == s
  {
    ScoredOf(sqrt, query, rows, shuffled);
    ScoredOf(sqrt, query, shuffled, rows);
    SameRanking(r, s);
  }

  lemma ScoredOf(sqrt: real -> real, query: Vector, rows: seq<Row>, others: seq<Row>)
    requires forall row :: row in rows ==> row in others
    requires forall i :: 0 <= i < |rows| ==> |rows[i].embedding| == |query|
    requires forall i :: 0 <= i < |others| ==> |others[i].embedding| == |query|
    ensures forall x :: x in Score(sqrt, query, rows) ==> x in Score(sqrt, query, others)
  {
    hide CosineSimilarity;
    forall x | x in Score(sqrt, query, rows) ensures x in Score(sqrt, query, others) {
      var i :| 0 <= i < |rows| && Score(sqrt, query, rows)[i] == x;
      assert rows[i] in others;
      var j :| 0 <= j < |others| && others[j] == rows[i];
      assert Score(sqrt, query, others)[j] == x;
    }
  }

  // ---- Retrieval

  function InCategory(rows: seq<Row>, category: Filter): seq<Row> {
    if rows == [] then []
    else
      (if category.Any? || rows[0].category == category.name then [rows[0]] else [])
      + InCategory(rows[1..], category)
  }

  datatype Filter = Any | Only(name: string)

  function ToResult(s: Scored): Result {
    Result(s.row.chunkId, s.row.sourceId, s.row.title, s.row.category, s.row.content, Clamp(s.similarity))
  }

  function Results(ranked: seq<Scored>): (r: seq<Result>)
    ensures |r| == |ranked| && forall i :: 0 <= i < |r| ==> r[i] == ToResult(ranked[i])
  {
    seq(|ranked|, i requires 0 <= i < |ranked| => ToResult(ranked[i]))
  }

  /** `min(top_k or self.top_k, self.top_k)`: absent and zero both mean the default, which no
      request exceeds. */
  function ResultLimit(requested: nat, default: nat): (limit: nat)
    ensures limit <= default && (requested > 0 ==> limit <= requested)
    ensures limit == default || (requested > 0 && limit == requested)
  {
    if requested == 0 || requested > default then default else requested
  }

  lemma {:induction false} InCategoryKeeps(rows: seq<Row>, category: Filter)
    requires DistinctIds(rows)
    ensures DistinctIds(InCategory(rows, category))
    ensures forall row :: row in InCategory(rows, category) <==>
      row in rows && (category.Any? || row.category == category.name)
  {
    if rows != [] {
      InCategoryKeeps(rows[1..], category);
      forall i | 0 <= i < |InCategory(rows[1..], category)|
        ensures InCategory(rows[1..], category)[i].chunkId != rows[0].chunkId
      {
        assert InCategory(rows[1..], category)[i] in rows[1..];
      }
    }
  }

  /** One row put at its place among ranked rows. */
  method InsertRanked(sorted: seq<Scored>, s: Scored) returns (r: seq<Scored>)
    requires Ranked(sorted) && forall x :: x in sorted ==> x.row.chunkId != s.row.chunkId
    ensures IsRanking(r, sorted + [s])
  {
    var k := 0;
    while k < |sorted| && Before(sorted[k], s)
      invariant k <= |sorted| && forall j :: 0 <= j < k ==> Before(sorted[j], s)
    {
      k := k + 1;
    }
    r := sorted[..k] + [s] + sorted[k..];
    assert k < |sorted| ==> sorted[k] in sorted && Before(s, sorted[k]);
    forall j | k <= j < |sorted| ensures Before(s, sorted[j]) {
      assert j > k ==> Before(sorted[k], sorted[j]);
    }
    forall x ensures x in r <==> x in sorted + [s] {
      assert sorted == sorted[..k] + sorted[k..];
    }
  }

  method SortScored(scored: seq<Scored>) returns (sorted: seq<Scored>)
    requires forall i, j :: 0 <= i < j < |scored| ==> scored[i].row.chunkId != scored[j].row.chunkId
    ensures IsRanking(sorted, scored)
  {
    sorted := [];
    for i := 0 to |scored|
      invariant IsRanking(sorted, scored[..i])
    {
      sorted := InsertRanked(sorted, scored[i]);
      assert scored[..i + 1] == scored[..i] + [scored[i]];
    }
    assert scored[..|scored|] == scored;
  }

  /** The result shows this row, with its similarity to the query. */
  ghost predicate Reports(sqrt: real -> real, query: Vector, r: Result, row: Row) {
    && r.chunkId == row.chunkId && r.sourceId == row.sourceId && r.title == row.title
    && r.category == row.category && r.content == row.content
    && |row.embedding| == |query|
    && r.similarity == CosineSimilarity(sqrt, row.embedding, query)
  }

  /** Every result is a row of the table and reports its exact similarity. */
  lemma ResultsAreExact(sqrt: real -> real, query: Vector, rows: seq<Row>, ranking: seq<Scored>, i: nat)
    requires forall j :: 0 <= j < |rows| ==> |rows[j].embedding| == |query|
    requires IsRanking(ranking, Score(sqrt, query, rows)) && i < |ranking|
    requires forall j :: 0 <= j < |rows| ==> RootOf(sqrt, Dot(rows[j].embedding, rows[j].embedding))
    requires RootOf(sqrt, Dot(query, query))
    ensures ranking[i].row in rows && Reports(sqrt, query, ToResult(ranking[i]), ranking[i].row)
  {
    hide CosineSimilarity, Dot, RootOf, Clamp, Ranked;
    assert ranking[i] in Score(sqrt, query, rows);
    var j :| 0 <= j < |rows| && Score(sqrt, query, rows)[j] == ranking[i];
    ClampIsIdentity(sqrt, rows[j].embedding, query);
  }

  /** The square roots taken for this query are exact. */
  ghost predicate RootsExact(sqrt: real -> real, query: Vector, rows: seq<Row>) {
    && RootOf(sqrt, Dot(query, query))
    && forall i :: 0 <= i < |rows| ==> RootOf(sqrt, Dot(rows[i].embedding, rows[i].embedding))
  }

  /** The angle of `a` to the query is no wider; among vectors of one length its dot product
      with the query is no smaller. */
  ghost predicate Nearer(sqrt: real -> real, query: Vector, a: Row, b: Row)
    requires |a.embedding| == |b.embedding| == |query|
  {
    var m, n := sqrt(Dot(a.embedding, a.embedding)), sqrt(Dot(b.embedding, b.embedding));
    && Dot(a.embedding, query) * n >= Dot(b.embedding, query) * m
    && (m == n ==> Dot(a.embedding, query) >= Dot(b.embedding, query))
  }

  lemma LargerCosine(c: real, e: real, d: real, f: real, m: real, n: real, q: real)
    requires c >= e && m >= 0.0 && n >= 0.0 && q >= 0.0
    requires c * (m * q) == d && e * (n * q) == f
    ensures d * n >= f * m && (m == n ==> d >= f)
  {
    var w := m * q * n;
    Product(m, q);
    Product(m * q, n);
    Monotone(e, c, w);
    assert c * (m * q) * n == c * w && e * (n * q) * m == e * w;
    Monotone(e, c, m * q);
  }

  lemma SimilarIsNearer(sqrt: real -> real, query: Vector, a: Row, b: Row)
    requires |a.embedding| == |b.embedding| == |query| && RootOf(sqrt, Dot(query, query))
    requires RootOf(sqrt, Dot(a.embedding, a.embedding)) && RootOf(sqrt, Dot(b.embedding, b.embedding))
    requires CosineSimilarity(sqrt, a.embedding, query) >= CosineSimilarity(sqrt, b.embedding, query)
    ensures Nearer(sqrt, query, a, b)
  {
    SimilarityIsCosine(sqrt, a.embedding, query);
    SimilarityIsCosine(sqrt, b.embedding, query);
    hide Dot, CosineSimilarity;
    LargerCosine(CosineSimilarity(sqrt, a.embedding, query), CosineSimilarity(sqrt, b.embedding, query),
                 Dot(a.embedding, query), Dot(b.embedding, query),
                 sqrt(Dot(a.embedding, a.embedding)), sqrt(Dot(b.embedding, b.embedding)), sqrt(Dot(query, query)));
  }

  predicate Candidate(rows: seq<Row>, category: Filter, row: Row) {
    row in rows && (category.Any? || row.category == category.name)
  }

  /** `a` comes before `b` in every answer. */
  ghost predicate Precedes(sqrt: real -> real, query: Vector, a: Row, b: Row)
    requires |a.embedding| == |b.embedding| == |query|
  {
    && Nearer(sqrt, query, a, b)
    && (CosineSimilarity(sqrt, a.embedding, query) == CosineSimilarity(sqrt, b.embedding, query) ==>
          a.chunkId < b.chunkId)
  }

  /** Some of the category's rows, none nearer to the query than one shown before it or left out
      when an earlier one is shown. */
  ghost predicate NearestFirst(sqrt: real -> real, rows: seq<Row>, query: Vector, category: Filter,
                               results: seq<Result>, shown: seq<Row>)
    requires forall i :: 0 <= i < |rows| ==> |rows[i].embedding| == |query|
  {
    && |shown| == |results|
    && (forall i :: 0 <= i < |shown| ==>
          Candidate(rows, category, shown[i]) && Reports(sqrt, query, results[i], shown[i]))
    && (forall i, j :: 0 <= i < j < |shown| ==> Precedes(sqrt, query, shown[i], shown[j]))
    && forall i, row :: 0 <= i < |shown| && Candidate(rows, category, row) && row !in shown ==>
         Precedes(sqrt, query, shown[i], row)
  }

  lemma BeforePrecedes(sqrt: real -> real, query: Vector, rows: seq<Row>, a: Row, b: Row)
    requires RootsExact(sqrt, query, rows) && forall i :: 0 <= i < |rows| ==> |rows[i].embedding| == |query|
    requires a in rows && b in rows
    requires Before(Scored(CosineSimilarity(sqrt, a.embedding, query), a),
                    Scored(CosineSimilarity(sqrt, b.embedding, query), b))
    ensures Precedes(sqrt, query, a, b)
  {
    hide Dot, CosineSimilarity, RootOf, Nearer;
    SimilarIsNearer(sqrt, query, a, b);
  }

  lemma ScoredRow(sqrt: real -> real, query: Vector, rows: seq<Row>, ranking: seq<Scored>, x: Scored)
    requires forall j :: 0 <= j < |rows| ==> |rows[j].embedding| == |query|
    requires IsRanking(ranking, Score(sqrt, query, rows)) && x in ranking
    ensures x.row in rows && x == Scored(CosineSimilarity(sqrt, x.row.embedding, query), x.row)
  {
    hide CosineSimilarity, Ranked;
    assert x in Score(sqrt, query, rows);
    var j :| 0 <= j < |rows| && Score(sqrt, query, rows)[j] == x;
  }

  function RowsOf(scored: seq<Scored>): (rows: seq<Row>)
    ensures |rows| == |scored| && forall i :: 0 <= i < |rows| ==> rows[i] == scored[i].row
  {
    seq(|scored|, i requires 0 <= i < |scored| => scored[i].row)
  }

  lemma FirstAreNearest(sqrt: real -> real, rows: seq<Row>, query: Vector, category: Filter, kept: seq<Row>,
                        ranking: seq<Scored>, k: nat)
    requires RootsExact(sqrt, query, rows) && forall i :: 0 <= i < |rows| ==> |rows[i].embedding| == |query|
    requires forall row :: row in kept <==> Candidate(rows, category, row)
    requires forall i :: 0 <= i < |kept| ==> |kept[i].embedding| == |query|
    requires IsRanking(ranking, Score(sqrt, query, kept)) && k <= |ranking|
    ensures NearestFirst(sqrt, rows, query, category, Results(ranking[..k]), RowsOf(ranking[..k]))
  {
    hide Dot, CosineSimilarity, RootOf, Before, ToResult, Precedes, Reports;
    var results, shown := Results(ranking[..k]), RowsOf(ranking[..k]);
    assert RootsExact(sqrt, query, kept) by {
      forall i | 0 <= i < |kept| ensures RootOf(sqrt, Dot(kept[i].embedding, kept[i].embedding)) {
        assert kept[i] in kept && Candidate(rows, category, kept[i]);
      }
    }
    forall i | 0 <= i < k
      ensures Candidate(rows, category, shown[i]) && Reports(sqrt, query, results[i], shown[i])
    {
      ResultsAreExact(sqrt, query, kept, ranking, i);
    }
    forall i, j | 0 <= i < j < k ensures Precedes(sqrt, query, shown[i], shown[j]) {
      ScoredRow(sqrt, query, kept, ranking, ranking[i]);
      ScoredRow(sqrt, query, kept, ranking, ranking[j]);
      BeforePrecedes(sqrt, query, rows, shown[i], shown[j]);
    }
    forall i, row | 0 <= i < k && Candidate(rows, category, row) && row !in shown
      ensures Precedes(sqrt, query, shown[i], row)
    {
      assert forall j :: 0 <= j < k ==> shown[j] == ranking[j].row;
      BeatsTheRest(sqrt, query, kept, ranking, k, i, row);
      ScoredRow(sqrt, query, kept, ranking, ranking[i]);
      BeforePrecedes(sqrt, query, rows, shown[i], row);
    }
  }

  /** `_retrieve_portable`: the first rows of the one ranking of the rows in the category. */
  method RetrievePortable(sqrt: real -> real, rows: seq<Row>, query: Vector, limit: nat, category: Filter)
    returns (results: seq<Result>)
    requires DistinctIds(rows) && forall i :: 0 <= i < |rows| ==> |rows[i].embedding| == |query|
    ensures forall i :: 0 <= i < |InCategory(rows, category)| ==> |InCategory(rows, category)[i].embedding| == |query|
    ensures forall ranking ::
              (IsRanking(ranking, Score(sqrt, query, InCategory(rows, category)))
               ==> results == Results(Take(ranking, limit)))
    ensures exists ranking :: IsRanking(ranking, Score(sqrt, query, InCategory(rows, category)))
    // In the answer's own terms.
    ensures |results| == Least(limit, |InCategory(rows, category)|)
    ensures RootsExact(sqrt, query, rows) ==>
      exists shown :: NearestFirst(sqrt, rows, query, category, results, shown)
  {
    InCategoryKeeps(rows, category);
    var kept := InCategory(rows, category);
    forall i | 0 <= i < |kept| ensures |kept[i].embedding| == |query| { assert kept[i] in rows; }
    var scored := Score(sqrt, query, kept);
    var sorted := SortScored(scored);
    forall ranking | IsRanking(ranking, scored) ensures ranking == sorted {
      SameRanking(ranking, sorted);
    }
    results := Results(Take(sorted, limit));
    hide IsRanking, NearestFirst;
    if RootsExact(sqrt, query, rows) {
      var k := Least(limit, |sorted|);
      assert Take(sorted, limit) == sorted[..k];
      FirstAreNearest(sqrt, rows, query, category, kept, sorted, k);
    }
  }

  lemma {:induction false} NoMore<T>(a: seq<T>, b: seq<T>)
    requires (forall i, j :: 0 <= i < j < |a| ==> a[i] != a[j]) && forall x :: x in a ==> x in b
    ensures |a| <= |b|
    decreases |a|
  {
    if a != [] {
      assert a[0] in b;
      var k :| 0 <= k < |b| && b[k] == a[0];
      var rest := b[..k] + b[k + 1..];
      forall i | 0 <= i < |a[1..]| ensures a[1..][i] in rest {
        assert a[1..][i] == a[i + 1] && a[i + 1] in a;
        var n :| 0 <= n < |b| && b[n] == a[i + 1];
        assert rest[if n < k then n else n - 1] == b[n];
      }
      NoMore(a[1..], rest);
    }
  }

  /** A row of the category that none of these results is. */
  ghost predicate LeftOut(rows: seq<Row>, category: Filter, top: seq<Scored>, row: Row) {
    row in rows && (category.Any? || row.category == category.name) && forall j :: 0 <= j < |top| ==> top[j].row != row
  }

  /** Two answers to one query, whatever order the database returned the rows in: a larger
      limit only adds results at the end, and every result comes before every row of the
      category the smaller answer left out. */
  lemma ResultsGrow(sqrt: real -> real, query: Vector, rows: seq<Row>, shuffled: seq<Row>, category: Filter,
                    r: seq<Scored>, s: seq<Scored>, k: nat, m: nat)
    requires DistinctIds(rows) && DistinctIds(shuffled) && k <= m && forall row :: row in rows <==> row in shuffled
    requires forall row :: row in rows ==> |row.embedding| == |query|
    requires forall i :: 0 <= i < |InCategory(rows, category)| ==> |InCategory(rows, category)[i].embedding| == |query|
    requires forall i :: 0 <= i < |InCategory(shuffled, category)| ==>
      |InCategory(shuffled, category)[i].embedding| == |query|
    requires IsRanking(r, Score(sqrt, query, InCategory(rows, category)))
    requires IsRanking(s, Score(sqrt, query, InCategory(shuffled, category)))
    ensures Results(Take(r, k)) <= Results(Take(s, m))
    ensures forall i, row :: 0 <= i < |Take(r, k)| && LeftOut(rows, category, Take(r, k), row) ==>
      Before(r[i], Scored(CosineSimilarity(sqrt, row.embedding, query), row))
  {
    hide CosineSimilarity, Before, ToResult;
    var a, b := InCategory(rows, category), InCategory(shuffled, category);
    InCategoryKeeps(rows, category);
    InCategoryKeeps(shuffled, category);
    NoMore(a, b);
    NoMore(b, a);
    RankingIsUnique(sqrt, query, a, b, r, s);
    forall i, row | 0 <= i < |Take(r, k)| && LeftOut(rows, category, Take(r, k), row)
      ensures Before(r[i], Scored(CosineSimilarity(sqrt, row.embedding, query), row))
    {
      assert forall j :: 0 <= j < |Take(r, k)| ==> Take(r, k)[j] == r[j];
      BeatsTheRest(sqrt, query, a, r, |Take(r, k)|, i, row);
    }
  }

  lemma BeatsTheRest(sqrt: real -> real, query: Vector, rows: seq<Row>, r: seq<Scored>, k: nat, i: nat, row: Row)
    requires forall j :: 0 <= j < |rows| ==> |rows[j].embedding| == |query|
    requires IsRanking(r, Score(sqrt, query, rows)) && row in rows && i < k <= |r|
    requires forall j :: 0 <= j < k ==> r[j].row != row
    ensures |row.embedding| == |query| && Before(r[i], Scored(CosineSimilarity(sqrt, row.embedding, query), row))
  {
    hide CosineSimilarity, Before;
    var j :| 0 <= j < |rows| && rows[j] == row;
    assert Score(sqrt, query, rows)[j] in r;
    var n :| 0 <= n < |r| && r[n] == Score(sqrt, query, rows)[j];
    assert n >= k;
  }
}
