/** A search query: its lower-cased text and the terms of its raw text. */
module Queries {
  import opened Wrappers
  import opened JavaStrings

  /** The three logical operators, compared case-sensitively with the raw tokens. */
  predicate IsOperator(mot: string) {
    mot == "or" || mot == "and" || mot == "not"
  }

  /** The occurrence map after the tokens `toks`: every token that is not an operator, with count 1. */
  function QueryOcc(toks: seq<string>): map<string, int>
    decreases |toks|
  {
    if toks == [] then map[]
    else
      var m := QueryOcc(toks[..|toks| - 1]);
      var mot := toks[|toks| - 1];
      if IsOperator(mot) then m else m[mot := 1]
  }

  /**
   * The frequency map after the tokens `toks`: each term put gets the int
   * quotient of its count 1 by the number of distinct terms so far, later puts
   * of the same term overwriting earlier ones.
   */
  function QueryFreq(toks: seq<string>): map<string, real>
    decreases |toks|
  {
    if toks == [] then map[]
    else
      var f := QueryFreq(toks[..|toks| - 1]);
      var mot := toks[|toks| - 1];
      if IsOperator(mot) then f else f[mot := (1 / |QueryOcc(toks)|) as real]
  }

  /** The terms are the tokens other than "or", "and" and "not", each counted once. */
  lemma {:induction false} QueryOccTerms(toks: seq<string>)
    ensures forall t :: t in QueryOcc(toks) <==> t in toks && !IsOperator(t)
    ensures forall t | t in QueryOcc(toks) :: QueryOcc(toks)[t] == 1
    decreases |toks|
  {
    if toks != [] {
      var init := toks[..|toks| - 1];
      QueryOccTerms(init);
      assert toks == init + [toks[|toks| - 1]];
      assert forall t :: t in toks <==> t in init || t == toks[|toks| - 1];
    }
  }

  /** The frequency map has a value for exactly the terms of the occurrence map. */
  lemma {:induction false} QueryFreqKeys(toks: seq<string>)
    ensures QueryFreq(toks).Keys == QueryOcc(toks).Keys
    decreases |toks|
  {
    if toks != [] {
      QueryFreqKeys(toks[..|toks| - 1]);
    }
  }

  /** A map with one entry has the key of that entry as its only key. */
  lemma SoleKey<K, V>(m: map<K, V>, k: K)
    requires k in m && |m| == 1
    ensures m.Keys == {k}
  {
    var rest := m.Keys - {k};
    assert m.Keys == rest + {k};
    assert |rest| == 0;
  }

  /** Every frequency is the int quotient 0 or 1, as a double. */
  lemma {:induction false} QueryFreqZeroOrOne(toks: seq<string>)
    ensures forall t | t in QueryFreq(toks) :: QueryFreq(toks)[t] == 0.0 || QueryFreq(toks)[t] == 1.0
    decreases |toks|
  {
    if toks != [] {
      var mot := toks[|toks| - 1];
      QueryFreqZeroOrOne(toks[..|toks| - 1]);
      if !IsOperator(mot) {
        assert |QueryOcc(toks)| >= 1 by {
          assert mot in QueryOcc(toks);
        }
      }
    }
  }

  /** At most one term has frequency 1.0: once a second term is seen, every later put gives 0.0. */
  lemma {:induction false} QueryFreqOneOne(toks: seq<string>)
    ensures forall t, u | t in QueryFreq(toks) && u in QueryFreq(toks) && QueryFreq(toks)[t] == 1.0 && QueryFreq(toks)[u] == 1.0 :: t == u
    decreases |toks|
  {
    if toks != [] {
      var mot := toks[|toks| - 1];
      QueryFreqOneOne(toks[..|toks| - 1]);
      QueryFreqKeys(toks);
      if !IsOperator(mot) && |QueryOcc(toks)| == 1 {
        SoleKey(QueryOcc(toks), mot);
      }
    }
  }

  /** A query with a single term gives it frequency 1.0. */
  lemma {:induction false} QueryFreqSingleTerm(toks: seq<string>)
    requires |QueryOcc(toks)| == 1
    ensures forall t | t in QueryFreq(toks) :: QueryFreq(toks)[t] == 1.0
    decreases |toks|
  {
    var init := toks[..|toks| - 1];
    var mot := toks[|toks| - 1];
    QueryFreqKeys(init);
    QueryFreqKeys(toks);
    if |QueryOcc(init)| == 1 {
      QueryFreqSingleTerm(init);
    }
    if !IsOperator(mot) {
      SoleKey(QueryOcc(toks), mot);
    }
  }

  /**
   * A query. Java leaves `operator` unassigned, so it stays null; the two
   * maps are replaced by their setters.
   */
  class Query {
    const textQuery: string
    const operator: Option<string> := None
    var occurrences: map<string, int>
    var frequences: map<string, real>

    /**
     * Lower-cases the text for `textQuery`; the maps are filled from the raw
     * text split on single spaces, operators left out.
     */
    constructor (text: string)
      ensures textQuery == Lower(text)
      ensures occurrences == QueryOcc(Split(text, ' '))
      ensures frequences == QueryFreq(Split(text, ' '))
    {
      textQuery := Lower(text);
      occurrences := map[];
      frequences := map[];
      new;
      var ligne := Split(text, ' ');
      var j := 0;
      while j < |ligne|
        invariant 0 <= j <= |ligne|
        invariant occurrences == QueryOcc(ligne[..j]) && frequences == QueryFreq(ligne[..j])
      {
        var mot := ligne[j];
        assert ligne[..j + 1][..j] == ligne[..j];
        if !IsOperator(mot) {
          occurrences := occurrences[mot := 1];
          frequences := frequences[mot := (occurrences[mot] / |occurrences|) as real];
        }
        j := j + 1;
      }
      assert ligne[..j] == ligne;
    }

    /** The operator is never set, so it is always null. */
    function GetOperator(): (r: Option<string>)
      ensures r == None
    {
      operator
    }

    method SetOccurrences(occurrences: map<string, int>)
      modifies this`occurrences
      ensures this.occurrences == occurrences
    {
      this.occurrences := occurrences;
    }

    method SetFrequences(frequences: map<string, real>)
      modifies this`frequences
      ensures this.frequences == frequences
    {
      this.frequences := frequences;
    }
  }
}
