// Small value-level vocabulary shared by every component.
module Basics {

  datatype Option<+T> = None | Some(value: T)

  ghost predicate Distinct<T>(s: seq<T>) {
    forall i, j :: 0 <= i < j < |s| ==> s[i] != s[j]
  }

  function ToSet<T>(s: seq<T>): set<T> {
    set x | x in s
  }

  // Each element's image, in order.
  function Map<A, B>(s: seq<A>, f: A -> B): (images: seq<B>)
    ensures |images| == |s|
    ensures forall i :: 0 <= i < |s| ==> images[i] == f(s[i])
  {
    seq(|s|, i requires 0 <= i < |s| => f(s[i]))
  }

  // Position of the first occurrence, or the length when there is none.
  function Find<T(==)>(s: seq<T>, x: T): (i: nat)
    ensures i <= |s|
    ensures forall j :: 0 <= j < i ==> s[j] != x
    ensures i < |s| ==> s[i] == x
    ensures x in s <==> i < |s|
  {
    if s == [] || s[0] == x then 0 else 1 + Find(s[1..], x)
  }

  // The wanted elements that are not present, in order.
  function Missing(wanted: seq<string>, present: seq<string>): (missing: seq<string>)
    ensures forall x :: x in missing <==> x in wanted && x !in present
  {
    if wanted == [] then []
    else (if wanted[0] in present then [] else [wanted[0]]) + Missing(wanted[1..], present)
  }

  // What is missing keeps its order.
  lemma {:induction false} MissingConcat(a: seq<string>, b: seq<string>, present: seq<string>)
    ensures Missing(a + b, present) == Missing(a, present) + Missing(b, present)
  {
    if a == [] {
      assert a + b == b;
    } else {
      assert (a + b)[1..] == a[1..] + b;
      MissingConcat(a[1..], b, present);
    }
  }

  // ---- Decimal numerals ----------------------------------------------------------------

  function Digit(n: nat): char
    requires n < 10
  {
    "0123456789"[n]
  }

  function Decimal(n: nat): (s: string)
    ensures |s| >= 1 && (n >= 10 ==> |s| >= 2)
  {
    if n < 10 then [Digit(n)] else Decimal(n / 10) + [Digit(n % 10)]
  }

  lemma {:induction false} DecimalInjective(m: nat, n: nat)
    requires Decimal(m) == Decimal(n)
    ensures m == n
    decreases m + n
  {
    var s, t := Decimal(m), Decimal(n);
    assert s[|s| - 1] == Digit(m % 10) && t[|t| - 1] == Digit(n % 10);
    assert m % 10 == n % 10;
    if m >= 10 && n >= 10 {
      assert s[..|s| - 1] == Decimal(m / 10) && t[..|t| - 1] == Decimal(n / 10);
      DecimalInjective(m / 10, n / 10);
    }
  }

  lemma {:induction false} DecimalDigits(n: nat)
    ensures forall c :: c in Decimal(n) ==> '0' <= c <= '9'
  {
    if n >= 10 {
      DecimalDigits(n / 10);
    }
  }

  // Reading a numeral back.
  function ReadDecimal(s: string): int {
    if s == "" then 0 else 10 * ReadDecimal(s[..|s| - 1]) + (s[|s| - 1] as int - '0' as int)
  }

  lemma {:induction false} DecimalReads(n: nat)
    ensures ReadDecimal(Decimal(n)) == n
  {
    if n < 10 {
      assert [Digit(n)][..0] == "";
    } else {
      DecimalReads(n / 10);
      assert Decimal(n)[..|Decimal(n)| - 1] == Decimal(n / 10);
    }
  }

  // ---- Sums over a map --------------------------------------------------------------------

  ghost function SumValues(m: map<string, int>): (sum: int)
    ensures (forall k :: k in m ==> m[k] >= 0) ==> sum >= 0
    decreases m.Keys
  {
    if m == map[] then 0
    else
      var k :| k in m.Keys;
      m[k] + SumValues(m - {k})
  }

  // The sum does not depend on the order in which the entries are visited.
  lemma {:induction false} SumValuesRemove(m: map<string, int>, k: string)
    requires k in m
    ensures SumValues(m) == m[k] + SumValues(m - {k})
    decreases m.Keys
  {
    var other :| other in m.Keys && SumValues(m) == m[other] + SumValues(m - {other});
    if other != k {
      SumValuesRemove(m - {other}, k);
      SumValuesRemove(m - {k}, other);
      assert m - {other} - {k} == m - {k} - {other};
    }
  }

  // ---- Sequences without duplicates -------------------------------------------------------

  // Appending an element that is not yet there keeps a sequence free of duplicates.
  lemma {:induction false} DistinctAppend<T>(s: seq<T>, x: T)
    requires Distinct(s) && x !in s
    ensures Distinct(s + [x])
  {
  }

  lemma {:induction false} DistinctConcat<T>(s: seq<T>, t: seq<T>)
    requires Distinct(s) && Distinct(t) && forall x :: x in s ==> x !in t
    ensures Distinct(s + t)
  {
    forall i, j | 0 <= i < j < |s + t|
      ensures (s + t)[i] != (s + t)[j]
    {
      if i < |s| <= j {
        assert (s + t)[i] in s && (s + t)[j] in t;
      }
    }
  }

  // Dropping one element of a duplicate-free sequence leaves the others, and only them.
  lemma {:induction false} DistinctDrop<T>(s: seq<T>, i: nat)
    requires Distinct(s) && i < |s|
    ensures var t := s[..i] + s[i + 1..];
      Distinct(t) && forall x :: x in t <==> x in s && x != s[i]
  {
    var t := s[..i] + s[i + 1..];
    assert forall k :: 0 <= k < |t| ==> t[k] == s[if k < i then k else k + 1];
    forall x
      ensures x in t <==> x in s && x != s[i]
    {
      if x in s && x != s[i] {
        var j :| 0 <= j < |s| && s[j] == x;
        assert t[if j < i then j else j - 1] == x;
      }
    }
  }

  // A duplicate-free sequence has as many elements as the set it spells.
  lemma {:induction false} DistinctCardinality<T>(s: seq<T>)
    requires Distinct(s)
    ensures |ToSet(s)| == |s|
  {
    if s != [] {
      var n := |s| - 1;
      DistinctCardinality(s[..n]);
      assert ToSet(s) == ToSet(s[..n]) + {s[n]};
    }
  }
}
