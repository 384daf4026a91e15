/**
 * The boolean engine: queries of the form "t1 op t2" answered by set algebra
 * over posting sets, and the weight of a document for a query.
 */
module BooleanEngine {
  import opened Wrappers
  import opened Collections
  import opened JavaStrings
  import opened Documents
  import opened Keywords
  import opened Queries

  /** The documents a boolean operator keeps from the postings `p1` of the first term and `p2` of the second. */
  function Combine(op: string, p1: set<int>, p2: set<int>): (r: set<int>)
    ensures forall i :: i in r <==>
      || (op == "and" && i in p1 && i in p2)
      || (op == "or" && (i in p1 || i in p2))
      || (op == "not" && i in p1 && i !in p2)
  {
    if op == "and" then p1 * p2
    else if op == "or" then p1 + p2
    else if op == "not" then p1 - p2
    else {}
  }

  /** "and" and "not" split the first term's postings in two; "and" keeps no more than "or". */
  lemma CombineLaws(p1: set<int>, p2: set<int>)
    ensures Combine("and", p1, p2) + Combine("not", p1, p2) == p1
    ensures Combine("and", p1, p2) !! Combine("not", p1, p2)
    ensures Combine("and", p1, p2) <= Combine("or", p1, p2)
    ensures Combine("or", p1, p2) == Combine("or", p2, p1)
  {
  }

  /** The frequency a document map holds for `t`, or 0 when it holds none. */
  function FreqOr0(freq: map<string, real>, t: string): real {
    if t in freq then freq[t] else 0.0
  }

  function Min(a: real, b: real): real {
    if a <= b then a else b
  }

  function Max(a: real, b: real): real {
    if a >= b then a else b
  }

  /** The nesting left in a query text: sub-queries are single tokens, so one level at most. */
  function Depth(text: string): nat {
    if ' ' in text then 1 else 0
  }

  /** The pieces of a split are separator-free, also once lower-cased. */
  lemma PieceDepth(text: string, i: nat)
    requires i < |Split(text, ' ')|
    ensures Depth(Lower(Split(text, ' ')[i])) == 0
  {
    SplitParts(text, ' ');
    assert Split(text, ' ')[i] in Split(text, ' ');
    LowerKeepsSpaces(Split(text, ' ')[i], ' ');
  }

  /**
   * `calculePoidDoc` as its documentation describes it, `freq` being the
   * document's frequency map and `text` the query's text: a single token
   * weighs its frequency (0 when absent), "a and b" the smaller of the two
   * sub-weights, "a not b" the larger, anything else -1. A sub-query is a
   * new query on one token, so its text is that token lower-cased.
   */
  function PoidDoc(freq: map<string, real>, text: string): real
    decreases Depth(text)
  {
    var tab := Split(text, ' ');
    if |tab| == 1 then FreqOr0(freq, tab[0])
    else if |tab| >= 3 && (tab[1] == "and" || tab[1] == "not") then
      PieceDepth(text, 0);
      PieceDepth(text, 2);
      var w0 := PoidDoc(freq, Lower(tab[0]));
      var w2 := PoidDoc(freq, Lower(tab[2]));
      if tab[1] == "and" then Min(w0, w2) else Max(w0, w2)
    else -1.0
  }

  /**
   * `calculePoidDoc` as written: after the single-token branch it still reads
   * `tab[1]`, which throws (None) for a single token, and so for every
   * sub-query of "a and b" and "a not b".
   */
  function PoidDocAsWritten(freq: map<string, real>, text: string): Option<real>
    decreases Depth(text)
  {
    var tab := Split(text, ' ');
    if |tab| < 2 then None
    else if tab[1] == "and" || tab[1] == "not" then
      if |tab| < 3 then None
      else
        PieceDepth(text, 0);
        PieceDepth(text, 2);
        Weigh(tab[1], PoidDocAsWritten(freq, Lower(tab[0])), PoidDocAsWritten(freq, Lower(tab[2])))
    else Some(-1.0)
  }

  /** `Math.min` for "and", else `Math.max`, of two sub-weights; a sub-query that threw makes the query throw. */
  function Weigh(op: string, w0: Option<real>, w2: Option<real>): Option<real> {
    match (w0, w2)
    case (Some(a), Some(b)) => Some(if op == "and" then Min(a, b) else Max(a, b))
    case _ => None
  }

  /** A single-token query weighs the document's frequency for the token, 0 when it has none. */
  lemma PoidDocToken(freq: map<string, real>, t: string)
    requires ' ' !in t
    ensures PoidDoc(freq, t) == FreqOr0(freq, t)
  {
  }

  /**
   * "a op b" over single tokens: "and" weighs the smaller sub-weight, "not"
   * the larger, any other operator -1.
   */
  lemma PoidDocBinary(freq: map<string, real>, a: string, op: string, b: string)
    requires ' ' !in a && ' ' !in op && ' ' !in b && b != ""
    ensures op == "and" ==> PoidDoc(freq, a + " " + op + " " + b) == Min(FreqOr0(freq, Lower(a)), FreqOr0(freq, Lower(b)))
    ensures op == "not" ==> PoidDoc(freq, a + " " + op + " " + b) == Max(FreqOr0(freq, Lower(a)), FreqOr0(freq, Lower(b)))
    ensures op != "and" && op != "not" ==> PoidDoc(freq, a + " " + op + " " + b) == -1.0
  {
    var parts := [a, op, b];
    assert Join(parts, ' ') == a + " " + op + " " + b by {
      assert parts[1..][1..] == [b];
      assert Join(parts[1..], ' ') == op + " " + b;
    }
    SplitJoin(parts, ' ');
    assert Split(a + " " + op + " " + b, ' ') == parts;
    LowerKeepsSpaces(a, ' ');
    LowerKeepsSpaces(b, ' ');
    PoidDocToken(freq, Lower(a));
    PoidDocToken(freq, Lower(b));
  }

  /** With frequencies that are never negative, a weight is either at least 0 or the -1 of an invalid query. */
  lemma {:induction false} PoidDocRange(freq: map<string, real>, text: string)
    requires forall t | t in freq :: freq[t] >= 0.0
    ensures PoidDoc(freq, text) >= 0.0 || PoidDoc(freq, text) == -1.0
    decreases Depth(text)
  {
    var tab := Split(text, ' ');
    if |tab| >= 3 && (tab[1] == "and" || tab[1] == "not") {
      PieceDepth(text, 0);
      PieceDepth(text, 2);
      var t0, t2 := Lower(tab[0]), Lower(tab[2]);
      PoidDocToken(freq, t0);
      PoidDocToken(freq, t2);
    }
  }

  /** As written, a single-token query throws instead of weighing the token. */
  lemma PoidDocAsWrittenToken(freq: map<string, real>, t: string)
    requires ' ' !in t
    ensures PoidDocAsWritten(freq, t) == None
  {
  }

  /** As written, every "a and b" or "a not b" query throws, since its sub-queries are single tokens. */
  lemma PoidDocAsWrittenBinary(freq: map<string, real>, text: string)
    requires |Split(text, ' ')| >= 2
    requires Split(text, ' ')[1] == "and" || Split(text, ' ')[1] == "not"
    ensures PoidDocAsWritten(freq, text) == None
  {
    var tab := Split(text, ' ');
    if |tab| >= 3 {
      PieceDepth(text, 0);
      PoidDocAsWrittenToken(freq, Lower(tab[0]));
    }
  }

  /** As written, a weight is only ever returned for an invalid operator, and it is the -1 the documented weight gives too. */
  lemma PoidDocAsWrittenAgrees(freq: map<string, real>, text: string)
    requires PoidDocAsWritten(freq, text).Some?
    ensures PoidDocAsWritten(freq, text) == Some(-1.0)
    ensures PoidDoc(freq, text) == -1.0
  {
    var tab := Split(text, ' ');
    if tab[1] == "and" || tab[1] == "not" {
      PoidDocAsWrittenBinary(freq, text);
    }
  }

  /** The boolean engine over the index's two maps, which it only reads. */
  class BooleanSearchEngine {
    const keywords: map<string, Keyword>
    const documents: map<int, Document>

    constructor (keywords: map<string, Keyword>, documents: map<int, Document>)
      ensures this.keywords == keywords && this.documents == documents
    {
      this.keywords := keywords;
      this.documents := documents;
    }

    /** The postings of `t`: the ids in its keyword's frequency map, none for an unknown term. */
    function PostingsOf(t: string): (r: set<int>)
      reads keywords.Values
      ensures forall i :: i in r <==> t in keywords && keywords[t].Get1Freq(i).Some?
    {
      if t in keywords then keywords[t].frequences.Keys else {}
    }

    /**
     * The ids `search`'s switch selects for the tokens `mot` of "t1 op t2":
     * the operator applied to the two terms' postings.
     */
    method MatchIds(mot: seq<string>) returns (listeId: set<int>)
      requires |mot| >= 3
      ensures listeId == Combine(mot[1], PostingsOf(mot[0]), PostingsOf(mot[2]))
    {
      var operator := mot[1];
      var docMot1: set<int> := {};
      var docMot2: set<int> := {};
      if mot[0] in keywords {
        docMot1 := keywords[mot[0]].frequences.Keys;
      }
      if mot[2] in keywords {
        docMot2 := keywords[mot[2]].frequences.Keys;
      }
      listeId := {};
      if operator == "and" {
        listeId := listeId + docMot1;
        listeId := listeId * docMot2;
      } else if operator == "or" {
        listeId := listeId + docMot1;
        listeId := listeId + docMot2;
      } else if operator == "not" {
        listeId := listeId + docMot1;
        listeId := listeId - docMot2;
      }
    }

    /**
     * `search` as written, returning the ids of the documents it collects
     * for "t1 op t2", the query's lower-cased text split on single spaces.
     * Fewer than three tokens make Java throw: None. An operator other than
     * "and", "or" and "not" matches nothing. The matching documents are then
     * added, in ascending id order, to a tree set ordered by
     * `ComparatorPoid`, and every insertion, the first one included, compares and so weighs the document with
     * `calculePoidDoc` on the whole query. As written that weighing throws
     * for "and" and "not" (`PoidDocAsWrittenBinary`), so an "and" or "not"
     * query that matches some document throws too: None. Only "or" queries
     * and queries matching nothing return.
     */
    method Search(requete: Query) returns (r: Option<set<int>>)
      ensures
        var mot := Split(requete.textQuery, ' ');
        r.None? <==>
          || |mot| < 3
          || ((mot[1] == "and" || mot[1] == "not") && Combine(mot[1], PostingsOf(mot[0]), PostingsOf(mot[2])) != {})
      ensures r.Some? ==>
        var mot := Split(requete.textQuery, ' ');
        r.value == Combine(mot[1], PostingsOf(mot[0]), PostingsOf(mot[2]))
    {
      var texteReq := requete.textQuery;
      var mot := Split(texteReq, ' ');
      if |mot| < 3 {
        return None;
      }
      var listeId := MatchIds(mot);
      if listeId != {} {
        var id := Least(listeId);
        var freq := if id in documents then documents[id].frequences else map[];
        if mot[1] == "and" || mot[1] == "not" {
          PoidDocAsWrittenBinary(freq, texteReq);
        }
        if PoidDocAsWritten(freq, texteReq).None? {
          return None;
        }
      }
      r := Some(listeId);
    }

    /**
     * `search` with the documented `calculePoidDoc` (`PoidDoc`), which weighs
     * every query without throwing: every query of three tokens or more
     * returns the operator applied to the two terms' postings.
     */
    method SearchCorrected(requete: Query) returns (r: Option<set<int>>)
      ensures r.None? <==> |Split(requete.textQuery, ' ')| < 3
      ensures r.Some? ==>
        var mot := Split(requete.textQuery, ' ');
        r.value == Combine(mot[1], PostingsOf(mot[0]), PostingsOf(mot[2]))
    {
      var texteReq := requete.textQuery;
      var mot := Split(texteReq, ' ');
      if |mot| < 3 {
        return None;
      }
      var listeId := MatchIds(mot);
      r := Some(listeId);
    }
  }
}
