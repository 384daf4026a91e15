/** The three kinds of search and the integer codes the menu uses for them. */
module SearchTypes {

  datatype SearchType = BOOLEAN | VECTOR | PROBABILISTIC

  /** The code each type is declared with. */
  function Code(t: SearchType): int {
    match t
    case BOOLEAN => 1
    case VECTOR => 2
    case PROBABILISTIC => 3
  }

  /** `values()`: the types in declaration order. */
  const Values: seq<SearchType> := [BOOLEAN, VECTOR, PROBABILISTIC]

  /** Every type is listed in `Values`. */
  lemma ValuesComplete(t: SearchType)
    ensures t in Values
  {
  }

  /** No two types share a code. */
  lemma CodesDistinct(s: SearchType, t: SearchType)
    ensures Code(s) == Code(t) ==> s == t
  {
  }

  /**
   * `fromCode`: scans the types in order and keeps the last whose code
   * matches, starting from BOOLEAN. A code of some type gives that type back;
   * any other code gives BOOLEAN.
   */
  method FromCode(code: int) returns (result: SearchType)
    ensures forall t :: Code(t) == code ==> result == t
    ensures (forall t :: Code(t) != code) ==> result == BOOLEAN
  {
    result := BOOLEAN;
    var i := 0;
    while i < |Values|
      invariant 0 <= i <= |Values|
      invariant forall k | 0 <= k < i :: Code(Values[k]) == code ==> result == Values[k]
      invariant (forall k | 0 <= k < i :: Code(Values[k]) != code) ==> result == BOOLEAN
    {
      if Code(Values[i]) == code {
        result := Values[i];
      }
      i := i + 1;
    }
    forall t | Code(t) == code
      ensures result == t
    {
      ValuesComplete(t);
    }
  }
}
