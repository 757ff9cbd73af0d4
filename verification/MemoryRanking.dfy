// Cosine similarity over the reals, ranking and de-duplication of scored memories.
module MemoryRanking {
  import opened Basics
  import opened StableSorting

  // ---- Cosine similarity -------------------------------------------------------------------

  function Dot(a: seq<real>, b: seq<real>): real
    requires |a| == |b|
  {
    if a == [] then 0.0
    else
      var n := |a| - 1;
      Dot(a[..n], b[..n]) + a[n] * b[n]
  }

  lemma {:induction false} SquareNonNegative(x: real)
    ensures x * x >= 0.0
  {
  }

  lemma {:induction false} ProductPositive(x: real, y: real)
    requires x > 0.0 && y > 0.0
    ensures x * y > 0.0
  {
  }

  lemma {:induction false} SquareGrows(u: real, v: real)
    requires v >= 0.0 && u > v
    ensures u * u > v * v
  {
    ProductPositive(u - v, u + v);
    assert u * u - v * v == (u - v) * (u + v);
  }

  // |u| <= v follows from u*u <= v*v for v >= 0.
  lemma {:induction false} RootBound(u: real, v: real)
    requires v >= 0.0 && u * u <= v * v
    ensures -v <= u <= v
  {
    if u > v {
      SquareGrows(u, v);
    }
    assert (-u) * (-u) == u * u;
    if -u > v {
      SquareGrows(-u, v);
    }
  }

  // One more coordinate keeps dot^2 <= magA * magB.
  lemma {:induction false} CauchyStep(d: real, ma: real, mb: real, x: real, y: real)
    requires ma >= 0.0 && mb >= 0.0 && d * d <= ma * mb
    ensures (d + x * y) * (d + x * y) <= (ma + x * x) * (mb + y * y)
  {
    var u, v := 2.0 * d * (x * y), ma * (y * y) + mb * (x * x);
    var p, q := ma * (y * y), mb * (x * x);
    SquareNonNegative(x);
    SquareNonNegative(y);
    SquareNonNegative(x * y);
    assert p >= 0.0 && q >= 0.0;
    assert p * q == (ma * mb) * ((x * y) * (x * y));
    assert (d * d) * ((x * y) * (x * y)) <= (ma * mb) * ((x * y) * (x * y));
    assert u * u == 4.0 * ((d * d) * ((x * y) * (x * y)));
    SquareNonNegative(p - q);
    assert v * v == (p - q) * (p - q) + 4.0 * (p * q);
    RootBound(u, v);
    assert (d + x * y) * (d + x * y) == d * d + u + (x * y) * (x * y);
    assert (ma + x * x) * (mb + y * y) == ma * mb + v + (x * x) * (y * y);
    assert (x * y) * (x * y) == (x * x) * (y * y);
  }

  lemma {:induction false} CauchySchwarz(a: seq<real>, b: seq<real>)
    requires |a| == |b|
    ensures Dot(a, a) >= 0.0 && Dot(b, b) >= 0.0
    ensures Dot(a, b) * Dot(a, b) <= Dot(a, a) * Dot(b, b)
    decreases |a|
  {
    if a != [] {
      var n := |a| - 1;
      CauchySchwarz(a[..n], b[..n]);
      SquareNonNegative(a[n]);
      SquareNonNegative(b[n]);
      CauchyStep(Dot(a[..n], b[..n]), Dot(a[..n], a[..n]), Dot(b[..n], b[..n]), a[n], b[n]);
    }
  }

  // A square root on the non-negative reals.
  ghost predicate IsRoot(sqrt: real -> real) {
    forall x :: x >= 0.0 ==> sqrt(x) >= 0.0 && sqrt(x) * sqrt(x) == x
  }

  lemma {:induction false} RatioBounded(dot: real, ma: real, mb: real, ra: real, rb: real)
    requires dot * dot <= ma * mb && ra >= 0.0 && rb >= 0.0 && ra * ra == ma && rb * rb == mb
    requires ra * rb != 0.0
    ensures -1.0 <= dot / (ra * rb) <= 1.0
    ensures dot / (ra * rb) * (ra * rb) == dot
  {
    var denom := ra * rb;
    assert denom * denom == ma * mb;
    assert denom > 0.0;
    RootBound(dot, denom);
    DivideBounds(dot, denom);
  }

  lemma {:induction false} DivideBounds(x: real, d: real)
    requires d > 0.0 && -d <= x <= d
    ensures -1.0 <= x / d <= 1.0
  {
    var q := x / d;
    assert x == q * d;
    if q > 1.0 {
      ProductPositive(q - 1.0, d);
    } else if q < -1.0 {
      ProductPositive(-1.0 - q, d);
    }
  }

  datatype Similarity = Similarity(value: real) | DimensionMismatch

  method DotProducts(a: seq<real>, b: seq<real>) returns (dot: real, magA: real, magB: real)
    requires |a| == |b|
    ensures dot == Dot(a, b) && magA == Dot(a, a) && magB == Dot(b, b)
  {
    dot, magA, magB := 0.0, 0.0, 0.0;
    var i := 0;
    while i < |a|
      invariant i <= |a|
      invariant dot == Dot(a[..i], b[..i]) && magA == Dot(a[..i], a[..i]) && magB == Dot(b[..i], b[..i])
    {
      assert a[..i + 1][..i] == a[..i] && b[..i + 1][..i] == b[..i];
      dot := dot + a[i] * b[i];
      magA := magA + a[i] * a[i];
      magB := magB + b[i] * b[i];
      i := i + 1;
    }
    assert a[..|a|] == a && b[..|b|] == b;
  }

  // What a similarity says: it lies between -1 and 1, and times the magnitudes it is the dot product;
  // a zero vector is similar to nothing.
  ghost predicate Measures(value: real, dot: real, denominator: real) {
    -1.0 <= value <= 1.0 && value * denominator == dot && (denominator == 0.0 ==> value == 0.0)
  }

  method CosineSimilarity(a: seq<real>, b: seq<real>, sqrt: real -> real) returns (r: Similarity)
    requires IsRoot(sqrt)
    ensures r.DimensionMismatch? <==> |a| != |b|
    ensures r.Similarity? ==> Measures(r.value, Dot(a, b), sqrt(Dot(a, a)) * sqrt(Dot(b, b)))
  {
    if |a| != |b| {
      return DimensionMismatch;
    }
    if |a| == 0 {
      return Similarity(0.0);
    }
    var dot, magA, magB := DotProducts(a, b);
    CauchySchwarz(a, b);
    r := Similarity(Quotient(dot, sqrt(magA), sqrt(magB)));
    QuotientMeasures(dot, magA, magB, sqrt(magA), sqrt(magB));
  }

  function Quotient(dot: real, ra: real, rb: real): real {
    if ra * rb == 0.0 then 0.0 else dot / (ra * rb)
  }

  lemma {:induction false} QuotientMeasures(dot: real, ma: real, mb: real, ra: real, rb: real)
    requires dot * dot <= ma * mb && ra >= 0.0 && rb >= 0.0 && ra * ra == ma && rb * rb == mb
    ensures Measures(Quotient(dot, ra, rb), dot, ra * rb)
  {
    if ra * rb == 0.0 {
      ZeroDot(dot, ma, mb, ra, rb);
    } else {
      RatioBounded(dot, ma, mb, ra, rb);
    }
  }

  lemma {:induction false} ZeroDot(dot: real, ma: real, mb: real, ra: real, rb: real)
    requires dot * dot <= ma * mb && ra * ra == ma && rb * rb == mb && ra * rb == 0.0
    ensures dot == 0.0
  {
    assert ma * mb == (ra * rb) * (ra * rb);
    RootBound(dot, 0.0);
  }

  // ---- Ranking -------------------------------------------------------------------------------

  datatype Score = Score(recordId: string, score: real)

  // Highest score first.
  function RankKey(s: Score): Key {
    Key(-s.score, 0)
  }

  function AboveThreshold(scored: seq<Score>, minScore: real): seq<Score> {
    if scored == [] then []
    else (if scored[0].score >= minScore then [scored[0]] else []) + AboveThreshold(scored[1..], minScore)
  }

  // slice(0, n): a negative n counts from the end.
  function Slice<T>(s: seq<T>, n: int): seq<T> {
    var end := if n >= 0 then n else |s| + n;
    if end <= 0 then [] else if end >= |s| then s else s[..end]
  }

  function Rank(scored: seq<Score>, minScore: real, maxResults: int): seq<Score> {
    Slice(StableSort(AboveThreshold(scored, minScore), RankKey), maxResults)
  }

  lemma {:induction false} AboveMembers(scored: seq<Score>, minScore: real)
    ensures forall s :: s in AboveThreshold(scored, minScore) <==> s in scored && s.score >= minScore
    ensures forall s: Score :: s.score >= minScore ==>
        multiset(AboveThreshold(scored, minScore))[s] == multiset(scored)[s]
  {
    if scored != [] {
      AboveMembers(scored[1..], minScore);
      assert scored == [scored[0]] + scored[1..];
    }
  }

  // The positions of the scores that qualify.
  function Qualifying(scored: seq<Score>, minScore: real): set<nat> {
    set i: nat | i < |scored| && scored[i].score >= minScore
  }

  lemma {:induction false} AboveAppend(scored: seq<Score>, s: Score, minScore: real)
    ensures AboveThreshold(scored + [s], minScore)
         == AboveThreshold(scored, minScore) + if s.score >= minScore then [s] else []
  {
    if scored == [] {
      assert [] + [s] == [s];
    } else {
      AboveAppend(scored[1..], s, minScore);
      assert (scored + [s])[1..] == scored[1..] + [s];
    }
  }

  lemma {:induction false} QualifyingAppend(scored: seq<Score>, s: Score, minScore: real)
    ensures |Qualifying(scored + [s], minScore)|
         == |Qualifying(scored, minScore)| + if s.score >= minScore then 1 else 0
  {
    var n: nat := |scored|;
    assert Qualifying(scored + [s], minScore) == Qualifying(scored, minScore) + if s.score >= minScore then {n} else {};
  }

  lemma {:induction false} QualifyingCount(scored: seq<Score>, minScore: real)
    ensures |AboveThreshold(scored, minScore)| == |Qualifying(scored, minScore)|
    decreases |scored|
  {
    if scored != [] {
      var n := |scored| - 1;
      QualifyingCount(scored[..n], minScore);
      AboveAppend(scored[..n], scored[n], minScore);
      QualifyingAppend(scored[..n], scored[n], minScore);
      assert scored == scored[..n] + [scored[n]];
    }
  }

  // How many results a limit allows: a negative limit drops as many from the end.
  function ResultCount(qualifying: nat, maxResults: int): nat {
    if maxResults < 0 then (if qualifying + maxResults > 0 then qualifying + maxResults else 0)
    else if maxResults <= qualifying then maxResults
    else qualifying
  }

  lemma {:induction false} RankHead(scored: seq<Score>, minScore: real, maxResults: int) returns (rest: seq<Score>)
    ensures var r := Rank(scored, minScore, maxResults);
      && |r| == ResultCount(|AboveThreshold(scored, minScore)|, maxResults)
      && multiset(AboveThreshold(scored, minScore)) == multiset(r) + multiset(rest)
      && SortedBy(r, RankKey)
      && forall s, t :: s in r && t in rest ==> AtMost(RankKey(s), RankKey(t))
  {
    var above := AboveThreshold(scored, minScore);
    var n := ResultCount(|above|, maxResults);
    SortedSplit(above, RankKey, n);
    rest := StableSort(above, RankKey)[n..];
    assert Rank(scored, minScore, maxResults) == StableSort(above, RankKey)[..n];
  }

  // The scores of one value, in the order given.
  function WithScore(scored: seq<Score>, value: real): seq<Score> {
    if scored == [] then []
    else (if scored[0].score == value then [scored[0]] else []) + WithScore(scored[1..], value)
  }

  lemma {:induction false} WithScoreAmong(scored: seq<Score>, minScore: real, value: real)
    requires value >= minScore
    ensures Among(AboveThreshold(scored, minScore), RankKey, Key(-value, 0)) == WithScore(scored, value)
  {
    if scored != [] {
      WithScoreAmong(scored[1..], minScore, value);
      var rest := AboveThreshold(scored[1..], minScore);
      if scored[0].score >= minScore {
        assert AboveThreshold(scored, minScore)[1..] == rest;
      } else {
        assert AboveThreshold(scored, minScore) == rest;
      }
    }
  }

  // Equal scores come in the order given, and the first ones are the ones returned.
  lemma {:induction false} RankStable(scored: seq<Score>, minScore: real, maxResults: int, value: real)
    requires value >= minScore
    ensures Among(Rank(scored, minScore, maxResults), RankKey, Key(-value, 0)) <= WithScore(scored, value)
  {
    var above := AboveThreshold(scored, minScore);
    var sorted := StableSort(above, RankKey);
    WithScoreAmong(scored, minScore, value);
    SortTheorem(above, RankKey);
    var n := SliceHead(sorted, maxResults);
    HeadStable(above, RankKey, Key(-value, 0), n);
  }

  lemma {:induction false} SliceHead<T>(s: seq<T>, n: int) returns (m: nat)
    ensures m <= |s| && Slice(s, n) == s[..m]
  {
    m := |Slice(s, n)|;
  }

  // As many of the qualifying scores as the limit allows, each no more often than it was scored, in descending
  // order; and whatever qualifies but is left out scores no higher than anything returned.
  lemma {:induction false} RankTheorem(scored: seq<Score>, minScore: real, maxResults: int)
    ensures var r := Rank(scored, minScore, maxResults);
      && |r| == ResultCount(|Qualifying(scored, minScore)|, maxResults)
      && multiset(r) <= multiset(scored)
      && (forall i, j :: 0 <= i <= j < |r| ==> r[i].score >= r[j].score)
      && (forall s :: s in r ==> s.score >= minScore)
      && (forall s, t :: s in r && t in multiset(scored) - multiset(r) && t.score >= minScore ==> t.score <= s.score)
  {
    var above := AboveThreshold(scored, minScore);
    var r := Rank(scored, minScore, maxResults);
    var rest := RankHead(scored, minScore, maxResults);
    AboveMembers(scored, minScore);
    QualifyingCount(scored, minScore);
    forall s | s in r
      ensures s in above
    {
      assert s in multiset(r) && s in multiset(above);
    }
    forall s
      ensures multiset(r)[s] <= multiset(scored)[s]
    {
      assert multiset(r)[s] <= multiset(above)[s];
      assert s in r ==> multiset(above)[s] == multiset(scored)[s];
    }
    forall i, j | 0 <= i <= j < |r|
      ensures r[i].score >= r[j].score
    {
      assert AtMost(RankKey(r[i]), RankKey(r[j]));
    }
    forall s, t | s in r && t in multiset(scored) - multiset(r) && t.score >= minScore
      ensures t.score <= s.score
    {
      assert multiset(above)[t] == multiset(scored)[t];
      assert multiset(rest)[t] > 0;
      assert t in rest;
      assert AtMost(RankKey(s), RankKey(t));
    }
  }

  // ---- De-duplication --------------------------------------------------------------------------

  function IdsOf(scores: seq<Score>): (ids: seq<string>)
    ensures |ids| == |scores|
    ensures forall i :: 0 <= i < |scores| ==> ids[i] == scores[i].recordId
  {
    Map(scores, (s: Score) => s.recordId)
  }

  // Some kept entry has the same id and at least the same score.
  ghost predicate Dominated(s: Score, kept: seq<Score>) {
    exists j :: 0 <= j < |kept| && kept[j].recordId == s.recordId && kept[j].score >= s.score
  }

  // One entry per id, taken from the scores, and the best of its id.
  ghost predicate Best(scores: seq<Score>, kept: seq<Score>) {
    && Distinct(IdsOf(kept))
    && (forall j :: 0 <= j < |kept| ==> kept[j] in scores)
    && (forall i :: 0 <= i < |scores| ==> Dominated(scores[i], kept))
  }

  method IndexOfId(kept: seq<Score>, id: string) returns (i: nat)
    ensures i <= |kept|
    ensures i < |kept| ==> kept[i].recordId == id
    ensures i == |kept| ==> id !in IdsOf(kept)
  {
    i := 0;
    while i < |kept| && kept[i].recordId != id
      invariant i <= |kept|
      invariant forall j :: 0 <= j < i ==> kept[j].recordId != id
    {
      i := i + 1;
    }
  }

  // The entries keep their insertion order, as in the map the source builds; a better score replaces in place.
  method Deduplicate(scores: seq<Score>) returns (result: seq<Score>)
    ensures Best(scores, result)
    ensures forall i, j :: 0 <= i <= j < |result| ==> result[i].score >= result[j].score
  {
    var kept: seq<Score> := [];
    var n := 0;
    while n < |scores|
      invariant n <= |scores|
      invariant Best(scores[..n], kept)
    {
      var s := scores[n];
      assert scores[..n + 1] == scores[..n] + [s];
      var i := IndexOfId(kept, s.recordId);
      if i == |kept| {
        BestAdd(scores[..n], kept, s);
        kept := kept + [s];
      } else if s.score > kept[i].score {
        BestReplace(scores[..n], kept, s, i);
        kept := kept[i := s];
      } else {
        BestSame(scores[..n], kept, s, i);
      }
      n := n + 1;
    }
    assert scores[..|scores|] == scores;
    result := StableSort(kept, RankKey);
    SortTheorem(kept, RankKey);
    BestSorted(scores, kept, result);
    FallingScores(result);
  }

  lemma {:induction false} FallingScores(result: seq<Score>)
    requires SortedBy(result, RankKey)
    ensures forall i, j :: 0 <= i <= j < |result| ==> result[i].score >= result[j].score
  {
    forall i, j | 0 <= i <= j < |result|
      ensures result[i].score >= result[j].score
    {
      assert AtMost(RankKey(result[i]), RankKey(result[j]));
    }
  }

  // How the invariant moves on by one score.
  lemma {:induction false} BestStep(scores: seq<Score>, kept: seq<Score>, s: Score, after: seq<Score>)
    requires Best(scores, kept) && Distinct(IdsOf(after))
    requires forall j :: 0 <= j < |after| ==> after[j] == s || after[j] in kept
    requires Dominated(s, after) && forall j :: 0 <= j < |kept| ==> Dominated(kept[j], after)
    ensures Best(scores + [s], after)
  {
    var all := scores + [s];
    forall j | 0 <= j < |after|
      ensures after[j] in all
    {
      if after[j] == s {
        assert all[|scores|] == s;
      } else {
        assert after[j] in kept && after[j] in scores;
      }
    }
    forall i | 0 <= i < |all|
      ensures Dominated(all[i], after)
    {
      if i < |scores| {
        assert Dominated(scores[i], kept);
        var j :| 0 <= j < |kept| && kept[j].recordId == scores[i].recordId && kept[j].score >= scores[i].score;
        assert Dominated(kept[j], after);
      }
    }
  }

  lemma {:induction false} BestSame(scores: seq<Score>, kept: seq<Score>, s: Score, i: nat)
    requires Best(scores, kept) && i < |kept| && kept[i].recordId == s.recordId && s.score <= kept[i].score
    ensures Best(scores + [s], kept)
  {
    BestStep(scores, kept, s, kept);
  }

  lemma {:induction false} BestAdd(scores: seq<Score>, kept: seq<Score>, s: Score)
    requires Best(scores, kept) && s.recordId !in IdsOf(kept)
    ensures Best(scores + [s], kept + [s])
  {
    var after := kept + [s];
    assert IdsOf(after) == IdsOf(kept) + [s.recordId];
    DistinctAppend(IdsOf(kept), s.recordId);
    assert after[|kept|] == s;
    assert forall j :: 0 <= j < |kept| ==> after[j] == kept[j];
    BestStep(scores, kept, s, after);
  }

  lemma {:induction false} BestReplace(scores: seq<Score>, kept: seq<Score>, s: Score, i: nat)
    requires Best(scores, kept) && i < |kept| && kept[i].recordId == s.recordId && s.score > kept[i].score
    ensures Best(scores + [s], kept[i := s])
  {
    var after := kept[i := s];
    assert IdsOf(after) == IdsOf(kept);
    assert after[i] == s;
    forall j | 0 <= j < |kept|
      ensures Dominated(kept[j], after)
    {
      assert after[j].recordId == kept[j].recordId && after[j].score >= kept[j].score;
    }
    BestStep(scores, kept, s, after);
  }

  lemma {:induction false} SameMembers(kept: seq<Score>, sorted: seq<Score>)
    requires multiset(sorted) == multiset(kept)
    ensures forall k :: k in sorted <==> k in kept
  {
    forall k
      ensures k in sorted <==> k in kept
    {
      assert k in sorted <==> k in multiset(sorted);
      assert k in kept <==> k in multiset(kept);
    }
  }

  lemma {:induction false} BestSorted(scores: seq<Score>, kept: seq<Score>, sorted: seq<Score>)
    requires Best(scores, kept) && multiset(sorted) == multiset(kept)
    ensures Best(scores, sorted)
  {
    SameMembers(kept, sorted);
    DistinctIdsSorted(kept, sorted);
    forall j | 0 <= j < |sorted|
      ensures sorted[j] in scores
    {
      assert sorted[j] in kept;
    }
    forall i | 0 <= i < |scores|
      ensures Dominated(scores[i], sorted)
    {
      assert Dominated(scores[i], kept);
      var j :| 0 <= j < |kept| && kept[j].recordId == scores[i].recordId && kept[j].score >= scores[i].score;
      assert kept[j] in sorted;
    }
  }

  lemma {:induction false} DistinctIdsSorted(kept: seq<Score>, sorted: seq<Score>)
    requires Distinct(IdsOf(kept)) && multiset(sorted) == multiset(kept)
    ensures Distinct(IdsOf(sorted))
  {
    forall i, j | 0 <= i < j < |sorted|
      ensures sorted[i].recordId != sorted[j].recordId
    {
      var x, y := sorted[i], sorted[j];
      if x.recordId == y.recordId {
        assert x in multiset(sorted) && y in multiset(sorted);
        var a :| 0 <= a < |kept| && kept[a] == x;
        var b :| 0 <= b < |kept| && kept[b] == y;
        assert IdsOf(kept)[a] == IdsOf(kept)[b];
        assert a == b;
        TwiceInMultiset(sorted, i, j);
        OnceInMultiset(kept, a);
      }
    }
  }

  lemma {:induction false} TwiceInMultiset(s: seq<Score>, i: nat, j: nat)
    requires i < j < |s| && s[i] == s[j]
    ensures multiset(s)[s[i]] >= 2
  {
    assert s == s[..i] + [s[i]] + s[i + 1..j] + [s[j]] + s[j + 1..];
  }

  lemma {:induction false} OnceInMultiset(s: seq<Score>, a: nat)
    requires Distinct(IdsOf(s)) && a < |s|
    ensures multiset(s)[s[a]] == 1
  {
    assert s == s[..a] + [s[a]] + s[a + 1..];
    assert forall k :: 0 <= k < |s| && k != a ==> IdsOf(s)[k] != IdsOf(s)[a];
    assert s[a] !in s[..a] && s[a] !in s[a + 1..];
  }
}
