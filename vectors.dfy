/**
 * The term vectors both ranked engines build from weight maps and the cosine
 * similarity they compute over them. `Math.sqrt` is a parameter: its values
 * are not modelled.
 */
module Vectors {

  /** The dot product of two vectors of the same length. */
  function Dot(a: seq<real>, b: seq<real>): real
    requires |a| == |b|
    decreases |a|
  {
    if a == [] then 0.0
    else Dot(a[..|a| - 1], b[..|b| - 1]) + a[|a| - 1] * b[|b| - 1]
  }

  /** The cosine of `a` and `b` given a square root: 0 when the product of the norms is 0. */
  function CosineOf(a: seq<real>, b: seq<real>, sqrt: real -> real): real
    requires |a| == |b|
  {
    var denom := sqrt(Dot(a, a)) * sqrt(Dot(b, b));
    if denom == 0.0 then 0.0 else Dot(a, b) / denom
  }

  /** The dot product does not depend on the order of its arguments. */
  lemma {:induction false} DotSymmetric(a: seq<real>, b: seq<real>)
    requires |a| == |b|
    ensures Dot(a, b) == Dot(b, a)
    decreases |a|
  {
    if a != [] {
      DotSymmetric(a[..|a| - 1], b[..|b| - 1]);
    }
  }

  /** A square is never negative. */
  lemma SquareNonNegative(x: real)
    ensures x * x >= 0.0
  {
    if x < 0.0 {
      var y := -x;
      assert y * y > 0.0;
      assert y * y == x * x;
    }
  }

  /** A squared norm is never negative, and is 0 for the zero vector. */
  lemma {:induction false} NormSquared(a: seq<real>)
    ensures Dot(a, a) >= 0.0
    ensures (forall i | 0 <= i < |a| :: a[i] == 0.0) ==> Dot(a, a) == 0.0
    decreases |a|
  {
    if a != [] {
      var init := a[..|a| - 1];
      NormSquared(init);
      SquareNonNegative(a[|a| - 1]);
      assert forall i | 0 <= i < |init| :: init[i] == a[i];
    }
  }

  /** The cosine does not depend on the order of its arguments. */
  lemma CosineSymmetric(a: seq<real>, b: seq<real>, sqrt: real -> real)
    requires |a| == |b|
    ensures CosineOf(a, b, sqrt) == CosineOf(b, a, sqrt)
  {
    DotSymmetric(a, b);
  }

  /** Against a zero vector the cosine is 0, when the square root of 0 is 0. */
  lemma CosineOfZero(a: seq<real>, b: seq<real>, sqrt: real -> real)
    requires |a| == |b|
    requires sqrt(0.0) == 0.0
    requires forall i | 0 <= i < |a| :: a[i] == 0.0
    ensures CosineOf(a, b, sqrt) == 0.0
  {
    NormSquared(a);
  }

  /**
   * `cosineSimilarity(a, b)`: one loop accumulates the dot product and the
   * two squared norms over the indices of `a`.
   */
  method Cosine(a: array<real>, b: array<real>, sqrt: real -> real) returns (r: real)
    requires a.Length <= b.Length
    ensures r == CosineOf(a[..], b[..a.Length], sqrt)
  {
    var dot, normA, normB := 0.0, 0.0, 0.0;
    var i := 0;
    while i < a.Length
      invariant 0 <= i <= a.Length
      invariant dot == Dot(a[..i], b[..i])
      invariant normA == Dot(a[..i], a[..i])
      invariant normB == Dot(b[..i], b[..i])
    {
      assert a[..i + 1][..i] == a[..i] && b[..i + 1][..i] == b[..i];
      dot := dot + a[i] * b[i];
      normA := normA + a[i] * a[i];
      normB := normB + b[i] * b[i];
      i := i + 1;
    }
    assert a[..i] == a[..] && b[..i] == b[..a.Length];
    var denom := sqrt(normA) * sqrt(normB);
    r := if denom == 0.0 then 0.0 else dot / denom;
  }

  /** `m.getOrDefault(t, 0.0)`. */
  function GetOrDefault(m: map<string, real>, t: string): real {
    if t in m then m[t] else 0.0
  }

  /** The vector of the weights `m` gives the terms, in order, 0 for a term it has none for. */
  function TermVector(m: map<string, real>, terms: seq<string>): (v: seq<real>)
    ensures |v| == |terms|
  {
    seq(|terms|, j requires 0 <= j < |terms| => GetOrDefault(m, terms[j]))
  }

  /**
   * A weight map holding none of the terms gives the zero vector, so its
   * cosine with any vector of the terms is 0 when the square root of 0 is 0.
   */
  lemma UnrelatedScoresZero(query: map<string, real>, tfidf: map<string, real>, terms: seq<string>, sqrt: real -> real)
    requires sqrt(0.0) == 0.0
    requires forall j | 0 <= j < |terms| :: terms[j] !in tfidf
    ensures CosineOf(TermVector(query, terms), TermVector(tfidf, terms), sqrt) == 0.0
  {
    CosineSymmetric(TermVector(query, terms), TermVector(tfidf, terms), sqrt);
    CosineOfZero(TermVector(tfidf, terms), TermVector(query, terms), sqrt);
  }
}
