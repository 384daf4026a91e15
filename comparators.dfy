/**
 * The three document comparators the ranked result sets are built with. The
 * first is a lawful order; the other two break the comparator contract, so
 * only their return values are modelled, not the tree sets built with them.
 */
module Comparators {
  import opened JavaNumbers
  import opened Documents
  import opened Queries
  import opened BooleanEngine

  // ComparatorScalaire

  /**
   * `ComparatorScalaire.compare`: by descending score, ties broken by
   * ascending id. Both documents must have a score (Java unboxes the lookup).
   */
  function CompareScalaire(scores: map<Document, real>, a: Document, b: Document): (r: int)
    requires a in scores && b in scores
    ensures r < 0 <==> scores[a] > scores[b] || (scores[a] == scores[b] && a.id < b.id)
    ensures r == 0 <==> scores[a] == scores[b] && a.id == b.id
    ensures r > 0 <==> scores[a] < scores[b] || (scores[a] == scores[b] && a.id > b.id)
  {
    var result := CompareDouble(scores[b], scores[a]);
    if result == 0 then CompareInt(a.id, b.id) else result
  }

  /** The order is antisymmetric in sign. */
  lemma ScalaireAntisymmetric(scores: map<Document, real>, a: Document, b: Document)
    requires a in scores && b in scores
    ensures CompareScalaire(scores, a, b) < 0 <==> CompareScalaire(scores, b, a) > 0
    ensures CompareScalaire(scores, a, b) == 0 <==> CompareScalaire(scores, b, a) == 0
  {
  }

  /** The order is transitive, both strictly and for "not after". */
  lemma ScalaireTransitive(scores: map<Document, real>, a: Document, b: Document, c: Document)
    requires a in scores && b in scores && c in scores
    ensures CompareScalaire(scores, a, b) < 0 && CompareScalaire(scores, b, c) < 0 ==> CompareScalaire(scores, a, c) < 0
    ensures CompareScalaire(scores, a, b) <= 0 && CompareScalaire(scores, b, c) <= 0 ==> CompareScalaire(scores, a, c) <= 0
  {
  }

  // ComparatorPoid

  /** A weight as `(int) (w * 1000)`. */
  function Scaled(w: real): int {
    DoubleToInt(w * 1000.0)
  }

  /**
   * `ComparatorPoid.compare` on the two weights: the int difference of the
   * scaled weights, or their int sum when they are equal, both in 32-bit
   * arithmetic.
   */
  function ComparePoid(wa: real, wb: real): (r: int)
    ensures IsInt(r)
  {
    var weightA, weightB := Scaled(wa), Scaled(wb);
    if weightA == weightB then Wrap(weightA + weightB) else Wrap(weightA - weightB)
  }

  /** `ComparatorPoid.compare(a, b)` for query `q`: the documented weight of each document for the query. */
  function ComparePoidDocs(q: Query, a: Document, b: Document): (r: int)
    reads a, b
    ensures IsInt(r)
  {
    ComparePoid(PoidDoc(a.frequences, q.textQuery), PoidDoc(b.frequences, q.textQuery))
  }

  /**
   * While the scaled difference fits in an int, a lower weight sorts first;
   * equal scaled weights give their doubled value, so a document compared
   * with itself gives twice its weight.
   */
  lemma PoidSigns(wa: real, wb: real)
    ensures Scaled(wa) != Scaled(wb) && IsInt(Scaled(wa) - Scaled(wb)) ==> ComparePoid(wa, wb) == Scaled(wa) - Scaled(wb)
    ensures Scaled(wa) == Scaled(wb) && IsInt(2 * Scaled(wa)) ==> ComparePoid(wa, wb) == 2 * Scaled(wa)
    ensures ComparePoid(wa, wa) == Wrap(2 * Scaled(wa))
  {
  }

  /**
   * The result is 0 exactly for equal scaled weights that are 0, or that are
   * both the saturated minimum, whose 32-bit sum wraps to 0.
   */
  lemma PoidZero(wa: real, wb: real)
    ensures ComparePoid(wa, wb) == 0 <==> Scaled(wa) == Scaled(wb) && (Scaled(wa) == 0 || Scaled(wa) == MinInt)
  {
    var x, y := Scaled(wa), Scaled(wb);
    if x != y && ComparePoid(wa, wb) == 0 {
      CongruentInts(x - y + MinInt, MinInt);
    }
    if x == y && ComparePoid(wa, wb) == 0 {
      assert (2 * x - 0) % TwoPow32 == 0;
      assert -TwoPow32 <= 2 * x < TwoPow32;
    }
  }

  /** Not a lawful comparator: two documents of weight 1 each sort after the other. */
  lemma PoidNotAntisymmetric()
    ensures ComparePoid(1.0, 1.0) == 2000
  {
  }

  // ComparatorProba

  /** A similarity as the double `s * 10000`. */
  function ScaledSim(s: real): real {
    s * 10000.0
  }

  /** `ComparatorProba.compare` on the two similarities: 1 when the scaled ones are equal, else their difference cast to int. */
  function CompareProba(sa: real, sb: real): (r: int)
    ensures IsInt(r)
  {
    if ScaledSim(sa) != ScaledSim(sb) then DoubleToInt(ScaledSim(sa) - ScaledSim(sb)) else 1
  }

  /**
   * Equal similarities give 1 in both orders, so the comparator is neither
   * reflexive nor antisymmetric; a document is never equal to itself.
   */
  lemma ProbaEqual(sa: real, sb: real)
    requires sa == sb
    ensures CompareProba(sa, sb) == 1 && CompareProba(sb, sa) == 1
  {
  }

  /**
   * A scaled lead of at least 1 gives a positive result and a scaled lag of
   * at least 1 a negative one, while distinct similarities closer than that
   * give 0.
   */
  lemma ProbaSigns(sa: real, sb: real)
    ensures ScaledSim(sa) - ScaledSim(sb) >= 1.0 ==> CompareProba(sa, sb) > 0
    ensures ScaledSim(sa) - ScaledSim(sb) <= -1.0 ==> CompareProba(sa, sb) < 0
    ensures sa != sb && -1.0 < ScaledSim(sa) - ScaledSim(sb) < 1.0 ==> CompareProba(sa, sb) == 0
    ensures CompareProba(sa, sb) > 0 ==> sa >= sb
  {
  }
}
