/**
 * The probabilistic engine: every term of every document gets a weight
 * computed from qi, the share of the stored documents that already hold a
 * weight for the term, the documents being weighed in ascending id order;
 * a query then selects the documents holding a weight for one of its words.
 * `Math.log` and `Math.sqrt` are parameters: their values are not modelled.
 */
module ProbabilisticEngine {
  import opened Wrappers
  import opened JavaStrings
  import opened Documents
  import opened Keywords
  import opened Indexes
  import opened Queries
  import opened Vectors
  import opened Collections

  /** The documents' occurrence maps, by id. */
  ghost function OccurrencesById(docs: map<int, Document>): map<int, map<string, int>>
    reads docs.Values`occurrences
  {
    map i | i in docs :: docs[i].occurrences
  }

  /** The documents' probabilistic maps, by id. */
  ghost function ProbById(docs: map<int, Document>): map<int, map<string, real>>
    reads docs.Values`frequencesProb
  {
    map i | i in docs :: docs[i].frequencesProb
  }

  /** The keywords' probabilistic maps, by term. */
  ghost function ProbByTerm(kws: map<string, Keyword>): map<string, map<int, real>>
    reads kws.Values`frequencesProb
  {
    map t | t in kws :: kws[t].frequencesProb
  }

  /** The ids below `i` of the documents, given by their occurrence maps `occ`, that hold term `t`. */
  function Before(occ: map<int, map<string, int>>, t: string, i: int): set<int> {
    set j | j in occ && j < i && t in occ[j]
  }

  /** The ids the probabilistic maps `kw0` hold a weight under for term `t`. */
  function KeysOf(kw0: map<string, map<int, real>>, t: string): set<int> {
    if t in kw0 then kw0[t].Keys else {}
  }

  /**
   * qi for term `t` at document `i`, the documents `occ` being weighed in
   * ascending id order from the keywords' probabilistic maps `kw0`: the
   * share of the documents holding a weight for `t` by then, those of `kw0`
   * and those below `i` that hold `t`.
   */
  function Qi(kw0: map<string, map<int, real>>, occ: map<int, map<string, int>>, t: string, i: int): real
    requires i in occ
  {
    assert |occ.Keys| > 0 by { assert i in occ.Keys; }
    (|KeysOf(kw0, t) + Before(occ, t, i)| as real) / (|occ| as real)
  }

  /** The share of `n` documents that `held` holds an entry for, as `calculeQI` computes it. */
  function Share(held: map<int, real>, n: nat): real
    requires n > 0
  {
    (|held.Keys| as real) / (n as real)
  }

  /** A share of a positive total, as the engine divides counts by the number of documents. */
  lemma ShareBounds(a: real, n: real)
    requires 0.0 < n
    ensures (a / n) * n == a
    ensures 0.0 <= a <= n ==> 0.0 <= a / n <= 1.0
  {
  }

  /** Shares of the same total keep the order of the counts. */
  lemma ShareMonotone(a: real, b: real, n: real)
    requires 0.0 < n && a <= b
    ensures a / n <= b / n
    ensures a < b ==> a / n < b / n
  {
  }

  /**
   * qi of a term grows along the fill: at a later document holding the term
   * it counts every document qi counted before, and the earlier document
   * itself unless `kw0` already held it.
   */
  lemma QiGrows(kw0: map<string, map<int, real>>, occ: map<int, map<string, int>>, t: string, j: int, k: int)
    requires j in occ && k in occ && j < k
    ensures Qi(kw0, occ, t, j) <= Qi(kw0, occ, t, k)
    ensures t in occ[j] && j !in KeysOf(kw0, t) ==> Qi(kw0, occ, t, j) < Qi(kw0, occ, t, k)
  {
    var small := KeysOf(kw0, t) + Before(occ, t, j);
    var large := KeysOf(kw0, t) + Before(occ, t, k);
    assert small <= large;
    assert |large| == |small| + |large - small| by {
      assert large == small + (large - small);
    }
    if t in occ[j] && j !in KeysOf(kw0, t) {
      assert j in large - small;
    }
    assert |occ.Keys| > 0 by { assert j in occ.Keys; }
    ShareMonotone(|small| as real, |large| as real, |occ| as real);
  }

  /**
   * The first document holding a term that no keyword map held qi is 0:
   * nothing is counted yet.
   */
  lemma QiFirst(kw0: map<string, map<int, real>>, occ: map<int, map<string, int>>, t: string, i: int)
    requires i in occ && KeysOf(kw0, t) == {}
    requires forall j | j in occ && j < i :: t !in occ[j]
    ensures Qi(kw0, occ, t, i) == 0.0
  {
    assert Before(occ, t, i) == {};
  }

  /** Every id of `ids` outside `todo` is below every id in `todo`: the ids outside are done in ascending order. */
  ghost predicate Ascending(ids: set<int>, todo: set<int>) {
    forall j, k | j in ids && j !in todo && k in todo :: j < k
  }

  /** Taking the least id left keeps the ids done below those left. */
  lemma LeastFirst(ids: set<int>, todo: set<int>, least: int)
    requires Ascending(ids, todo) && least in todo
    requires forall k | k in todo :: least <= k
    ensures Ascending(ids, todo - {least})
  {
  }

  /** Some word of `words` has an entry in `m`. */
  ghost predicate Mentions(m: map<string, real>, words: seq<string>) {
    exists j :: 0 <= j < |words| && words[j] in m
  }

  /** One more word mentions `m` exactly when it or an earlier one has an entry. */
  lemma MentionsStep(m: map<string, real>, words: seq<string>, j: nat)
    requires j < |words|
    ensures Mentions(m, words[..j + 1]) <==> Mentions(m, words[..j]) || words[j] in m
  {
    if Mentions(m, words[..j + 1]) && words[j] !in m {
      var k :| 0 <= k < j + 1 && words[..j + 1][k] in m;
      assert words[..j][k] == words[k];
    }
    if Mentions(m, words[..j]) {
      var k :| 0 <= k < j && words[..j][k] in m;
      assert words[..j + 1][k] == words[k];
    }
    if words[j] in m {
      assert words[..j + 1][j] == words[j];
    }
  }

  class ProbabilisticSearchEngine {
    const pi: real := 0.1
    /** The documents of the last search; null before the first. */
    var listeDoc: Option<set<Document>>
    const keywords: map<string, Keyword>
    const documents: map<int, Document>
    var vector: seq<array<real>>
    /** The query vector of the last search; null before the first. */
    var vectorRequete: array?<real>
    const log: real -> real
    const sqrt: real -> real
    /** The value of `Math.log` at positive infinity: Java's weight when qi is 0. */
    const logInfinity: real

    /**
     * Builds the engine and fills the probabilistic maps: every document
     * and every keyword of one of its terms end up holding the fill's weight
     * for each other; every other entry is what it was.
     */
    constructor (keywords: map<string, Keyword>, documents: map<int, Document>, log: real -> real, sqrt: real -> real, logInfinity: real)
      requires Consistent(keywords, documents)
      modifies keywords.Values`frequencesProb, documents.Values`frequencesProb
      ensures this.keywords == keywords && this.documents == documents
      ensures this.log == log && this.sqrt == sqrt && this.logInfinity == logInfinity
      ensures vector == [] && listeDoc == None && vectorRequete == null
      ensures KeywordsFilled({}, old(ProbByTerm(keywords)), ProbTable(old(ProbByTerm(keywords)), old(OccurrencesById(documents))))
      ensures DocumentsFilled({}, ProbTable(old(ProbByTerm(keywords)), old(OccurrencesById(documents))), old(ProbById(documents)))
    {
      this.keywords := keywords;
      this.documents := documents;
      this.log := log;
      this.sqrt := sqrt;
      this.logInfinity := logInfinity;
      vector := [];
      listeDoc := None;
      vectorRequete := null;
      new;
      ghost var kw0, occ, doc0 := ProbByTerm(keywords), OccurrencesById(documents), ProbById(documents);
      assert kw0 == old(ProbByTerm(keywords)) && occ == old(OccurrencesById(documents)) && doc0 == old(ProbById(documents));
      RemplirFrequenceProb();
      assert KeywordsFilled({}, kw0, ProbTable(kw0, occ)) && DocumentsFilled({}, ProbTable(kw0, occ), doc0);
    }

    /** `Math.log(pi * (1 - qi) / ((1 - pi) * qi))`; at qi = 0 the quotient is positive infinity. */
    function Weight(qi: real): real {
      if qi == 0.0 then logInfinity else log((pi * (1.0 - qi)) / ((1.0 - pi) * qi))
    }

    /** The weight the fill gives term `t` in document `i`. */
    function Prob(kw0: map<string, map<int, real>>, occ: map<int, map<string, int>>, t: string, i: int): real
      requires i in occ
    {
      Weight(Qi(kw0, occ, t, i))
    }

    /** The weights the fill gives, by document id and then by term of the document. */
    ghost function ProbTable(kw0: map<string, map<int, real>>, occ: map<int, map<string, int>>): map<int, map<string, real>> {
      map i | i in occ :: map t | t in occ[i] :: Prob(kw0, occ, t, i)
    }

    /**
     * `calculeQI`: the share of the stored documents that already hold a
     * probabilistic weight for `mot`; `idDoc` is not used.
     */
    function CalculeQI(mot: string, idDoc: int): (r: real)
      requires mot in keywords && |documents| > 0
      reads {keywords[mot]}`frequencesProb
      ensures r * (|documents| as real) == |keywords[mot].frequencesProb| as real
      ensures (forall i | i in keywords[mot].frequencesProb :: i in documents) ==> 0.0 <= r <= 1.0
    {
      var held := keywords[mot].frequencesProb.Keys;
      assert |held| == |keywords[mot].frequencesProb|;
      assert (forall i | i in held :: i in documents) ==> |held| <= |documents| by {
        if forall i | i in held :: i in documents {
          assert held <= documents.Keys;
          assert |documents.Keys| == |held| + |documents.Keys - held| by {
            assert documents.Keys == held + (documents.Keys - held);
          }
        }
      }
      ShareBounds(|held| as real, |documents| as real);
      Share(keywords[mot].frequencesProb, |documents|)
    }

    /** The occurrence maps `occ` are those of the stored documents. */
    ghost predicate OccMirrored(occ: map<int, map<string, int>>)
      reads documents.Values`occurrences
    {
      && (forall i :: i in occ <==> i in documents)
      && (forall i | i in documents :: documents[i].occurrences == occ[i])
    }

    /**
     * Every keyword holds the weight `probs` gives its term in each document
     * outside `todo`; every other entry is that of `kw0`.
     */
    ghost predicate KeywordsFilled(todo: set<int>, kw0: map<string, map<int, real>>, probs: map<int, map<string, real>>)
      reads keywords.Values`frequencesProb
    {
      forall t, i {:trigger Lookup(keywords[t].frequencesProb, i)} | t in keywords ::
        Lookup(keywords[t].frequencesProb, i) ==
          if i !in todo && i in probs && t in probs[i] then Some(probs[i][t]) else Lookup2(kw0, t, i)
    }

    /**
     * Every document outside `todo` holds the weights `probs` gives its
     * terms; every other entry is that of `doc0`.
     */
    ghost predicate DocumentsFilled(todo: set<int>, probs: map<int, map<string, real>>, doc0: map<int, map<string, real>>)
      reads documents.Values`frequencesProb
    {
      forall i, t {:trigger Lookup(documents[i].frequencesProb, t)} | i in documents ::
        Lookup(documents[i].frequencesProb, t) ==
          if i !in todo && i in probs && t in probs[i] then Some(probs[i][t]) else Lookup2(doc0, i, t)
    }

    /**
     * `remplirFrequenceProb`: the documents in ascending id order, and in
     * each its terms, the same weight going into the document under the term
     * and into the term's keyword under the id.
     */
    method RemplirFrequenceProb()
      requires TermsKeyed(keywords) && IdsKeyed(documents) && TermsIndexed(keywords, documents)
      modifies keywords.Values`frequencesProb, documents.Values`frequencesProb
      ensures KeywordsFilled({}, old(ProbByTerm(keywords)), ProbTable(old(ProbByTerm(keywords)), old(OccurrencesById(documents))))
      ensures DocumentsFilled({}, ProbTable(old(ProbByTerm(keywords)), old(OccurrencesById(documents))), old(ProbById(documents)))
    {
      ghost var kw0, occ, doc0 := ProbByTerm(keywords), OccurrencesById(documents), ProbById(documents);
      assert |occ| == |documents| by {
        assert occ.Keys == documents.Keys;
      }
      var todo := documents.Keys;
      while todo != {}
        invariant FillPass(todo, kw0, occ, doc0)
        decreases todo
      {
        todo := FillNext(todo, kw0, occ, doc0);
      }
    }

    /**
     * The state of `remplirFrequenceProb` once the documents outside `todo`
     * are weighed, `kw0`, `occ` and `doc0` being the maps it started from.
     */
    ghost predicate FillPass(todo: set<int>, kw0: map<string, map<int, real>>, occ: map<int, map<string, int>>,
                             doc0: map<int, map<string, real>>)
      reads documents.Values`occurrences, keywords.Values`frequencesProb, documents.Values`frequencesProb
    {
      && todo <= documents.Keys
      && Ascending(documents.Keys, todo)
      && OccMirrored(occ) && |occ| == |documents|
      && KeywordsFilled(todo, kw0, ProbTable(kw0, occ)) && DocumentsFilled(todo, ProbTable(kw0, occ), doc0)
    }

    /** One pass of the outer loop of `remplirFrequenceProb`: the least id left, and its document weighed. */
    method FillNext(todo: set<int>, ghost kw0: map<string, map<int, real>>, ghost occ: map<int, map<string, int>>,
                    ghost doc0: map<int, map<string, real>>) returns (rest: set<int>)
      requires todo != {} && TermsKeyed(keywords) && IdsKeyed(documents) && TermsIndexed(keywords, documents)
      requires FillPass(todo, kw0, occ, doc0)
      modifies keywords.Values`frequencesProb, documents.Values`frequencesProb
      ensures rest < todo && FillPass(rest, kw0, occ, doc0)
    {
      var idDoc := Least(todo);
      SharesBefore(idDoc, todo, kw0, occ);
      FillDocument(idDoc, todo, kw0, ProbTable(kw0, occ), doc0);
      LeastFirst(documents.Keys, todo, idDoc);
      rest := todo - {idDoc};
    }

    /**
     * One pass of the outer loop of `remplirFrequenceProb`: the terms of
     * document `idDoc` get the weights `probs` gives them.
     */
    method FillDocument(idDoc: int, todo: set<int>, ghost kw0: map<string, map<int, real>>, ghost probs: map<int, map<string, real>>,
                        ghost doc0: map<int, map<string, real>>)
      requires idDoc in todo && idDoc in documents && TermsKeyed(keywords) && IdsKeyed(documents)
      requires idDoc in probs && forall t :: t in probs[idDoc] <==> t in documents[idDoc].occurrences
      requires forall t | t in probs[idDoc] :: t in keywords && probs[idDoc][t] == Weight(Share(keywords[t].frequencesProb, |documents|))
      requires KeywordsFilled(todo, kw0, probs) && DocumentsFilled(todo, probs, doc0)
      modifies keywords.Values`frequencesProb, {documents[idDoc]}`frequencesProb
      ensures KeywordsFilled(todo - {idDoc}, kw0, probs) && DocumentsFilled(todo - {idDoc}, probs, doc0)
    {
      FillTerms(idDoc);
      forall t, i {:trigger Lookup(keywords[t].frequencesProb, i)} | t in keywords
        ensures Lookup(keywords[t].frequencesProb, i) ==
                  if i !in todo - {idDoc} && i in probs && t in probs[i] then Some(probs[i][t]) else Lookup2(kw0, t, i)
      {
        var before := Lookup(old(keywords[t].frequencesProb), i);
      }
      forall i, t {:trigger Lookup(documents[i].frequencesProb, t)} | i in documents
        ensures Lookup(documents[i].frequencesProb, t) ==
                  if i !in todo - {idDoc} && i in probs && t in probs[i] then Some(probs[i][t]) else Lookup2(doc0, i, t)
      {
        var before := Lookup(old(documents[i].frequencesProb), t);
      }
    }

    /**
     * When document `idDoc` comes up, the weight of each of its terms from
     * `calculeQI` is the fill's weight there.
     */
    lemma SharesBefore(idDoc: int, todo: set<int>, kw0: map<string, map<int, real>>, occ: map<int, map<string, int>>)
      requires idDoc in todo && todo <= documents.Keys
      requires forall k | k in todo :: idDoc <= k
      requires Ascending(documents.Keys, todo)
      requires TermsIndexed(keywords, documents) && OccMirrored(occ) && |occ| == |documents|
      requires KeywordsFilled(todo, kw0, ProbTable(kw0, occ))
      ensures idDoc in ProbTable(kw0, occ) && forall t :: t in ProbTable(kw0, occ)[idDoc] <==> t in documents[idDoc].occurrences
      ensures forall t | t in ProbTable(kw0, occ)[idDoc] :: t in keywords && ProbTable(kw0, occ)[idDoc][t] == Weight(Share(keywords[t].frequencesProb, |documents|))
    {
      forall t | t in occ[idDoc]
        ensures t in keywords && Share(keywords[t].frequencesProb, |documents|) == Qi(kw0, occ, t, idDoc)
      {
        assert t in documents[idDoc].occurrences;
        ShareOfTerm(idDoc, todo, kw0, occ, t);
      }
    }

    /** The keyword of a term of document `idDoc` holds, when it comes up, the ids qi counts there. */
    lemma ShareOfTerm(idDoc: int, todo: set<int>, kw0: map<string, map<int, real>>, occ: map<int, map<string, int>>, t: string)
      requires idDoc in todo && todo <= documents.Keys && t in keywords
      requires forall k | k in todo :: idDoc <= k
      requires Ascending(documents.Keys, todo)
      requires OccMirrored(occ) && |occ| == |documents|
      requires KeywordsFilled(todo, kw0, ProbTable(kw0, occ))
      ensures Share(keywords[t].frequencesProb, |documents|) == Qi(kw0, occ, t, idDoc)
    {
      var probs := ProbTable(kw0, occ);
      var m := keywords[t].frequencesProb;
      forall j
        ensures j in m <==> j in KeysOf(kw0, t) + Before(occ, t, idDoc)
      {
        assert Lookup(m, j) ==
          if j !in todo && j in probs && t in probs[j] then Some(probs[j][t]) else Lookup2(kw0, t, j);
      }
      assert m.Keys == KeysOf(kw0, t) + Before(occ, t, idDoc);
    }

    /**
     * The inner loop of `remplirFrequenceProb`, over the terms of document
     * `idDoc`: each term gets the weight of its `calculeQI` from before the
     * loop, as no term comes up twice.
     */
    method FillTerms(idDoc: int)
      requires idDoc in documents && TermsKeyed(keywords)
      requires forall t | t in documents[idDoc].occurrences :: t in keywords
      modifies keywords.Values`frequencesProb, {documents[idDoc]}`frequencesProb
      ensures forall t {:trigger keywords[t].frequencesProb} {:trigger old(keywords[t].frequencesProb)} | t in keywords ::
                keywords[t].frequencesProb ==
                  if t in documents[idDoc].occurrences then old(keywords[t].frequencesProb)[idDoc := Weight(Share(old(keywords[t].frequencesProb), |documents|))]
                  else old(keywords[t].frequencesProb)
      ensures forall t {:trigger Lookup(documents[idDoc].frequencesProb, t)} ::
                Lookup(documents[idDoc].frequencesProb, t) ==
                  if t in documents[idDoc].occurrences then Some(Weight(Share(old(keywords[t].frequencesProb), |documents|)))
                  else Lookup(old(documents[idDoc].frequencesProb), t)
    {
      var mots := documents[idDoc].occurrences.Keys;
      ghost var kwBefore, docBefore := ProbByTerm(keywords), documents[idDoc].frequencesProb;
      ghost var weights := map t | t in mots :: Weight(Share(keywords[t].frequencesProb, |documents|));
      var pending := mots;
      while pending != {}
        invariant TermsPass(idDoc, mots, pending, kwBefore, docBefore, weights)
        decreases pending
      {
        pending := FillNextTerm(idDoc, mots, pending, kwBefore, docBefore, weights);
      }
    }

    /**
     * The state of the inner loop of `remplirFrequenceProb` once the terms
     * of `mots` outside `pending` are weighed, `kwBefore` and `docBefore`
     * being the maps it started from and `weights` the weights of `calculeQI` then.
     */
    ghost predicate TermsPass(idDoc: int, mots: set<string>, pending: set<string>, kwBefore: map<string, map<int, real>>,
                              docBefore: map<string, real>, weights: map<string, real>)
      requires idDoc in documents
      reads keywords.Values`frequencesProb, {documents[idDoc]}`frequencesProb
    {
      && pending <= mots && (forall t | t in mots :: t in keywords && t in weights && t in kwBefore)
      && (forall t | t in mots :: weights[t] == Weight(Share(kwBefore[t], |documents|)))
      && (forall t {:trigger keywords[t].frequencesProb} | t in keywords ::
            t in kwBefore && keywords[t].frequencesProb ==
              if t in mots && t !in pending then kwBefore[t][idDoc := weights[t]] else kwBefore[t])
      && (forall t {:trigger Lookup(documents[idDoc].frequencesProb, t)} ::
            Lookup(documents[idDoc].frequencesProb, t) ==
              if t in mots && t !in pending then Some(weights[t]) else Lookup(docBefore, t))
    }

    /** One pass of the inner loop of `remplirFrequenceProb`: a term left, weighed. */
    method FillNextTerm(idDoc: int, mots: set<string>, pending: set<string>, ghost kwBefore: map<string, map<int, real>>,
                        ghost docBefore: map<string, real>, ghost weights: map<string, real>) returns (rest: set<string>)
      requires pending != {} && idDoc in documents && TermsKeyed(keywords)
      requires TermsPass(idDoc, mots, pending, kwBefore, docBefore, weights)
      modifies keywords.Values`frequencesProb, {documents[idDoc]}`frequencesProb
      ensures rest < pending && TermsPass(idDoc, mots, rest, kwBefore, docBefore, weights)
    {
      var mot := Pick(pending);
      ghost var prevDoc := documents[idDoc].frequencesProb;
      assert keywords[mot].frequencesProb == kwBefore[mot];
      var val := FillPosting(mot, idDoc);
      assert val == weights[mot];
      forall t ensures Lookup(documents[idDoc].frequencesProb, t) == if t == mot then Some(val) else Lookup(prevDoc, t) {}
      rest := pending - {mot};
      forall t | t in keywords
        ensures t in kwBefore && keywords[t].frequencesProb == if t in mots && t !in rest then kwBefore[t][idDoc := weights[t]] else kwBefore[t]
      {
        if t == mot {
          assert t in kwBefore;
          assert keywords[t].frequencesProb == kwBefore[t][idDoc := weights[t]];
        } else {
          assert keywords[t] != keywords[mot];
          assert keywords[t].frequencesProb == old(keywords[t].frequencesProb);
        }
      }
    }

    /**
     * One pass of the inner loop: qi from the keyword's probabilistic map,
     * then the same weight into the document, under the term, and into the
     * keyword, under the id.
     */
    method FillPosting(mot: string, idDoc: int) returns (val: real)
      requires mot in keywords && idDoc in documents
      modifies {keywords[mot]}`frequencesProb, {documents[idDoc]}`frequencesProb
      ensures val == Weight(Share(old(keywords[mot].frequencesProb), |documents|))
      ensures keywords[mot].frequencesProb == old(keywords[mot].frequencesProb)[idDoc := val]
      ensures documents[idDoc].frequencesProb == old(documents[idDoc].frequencesProb)[mot := val]
    {
      var qi := CalculeQI(mot, idDoc);
      val := Weight(qi);
      documents[idDoc].Add1FreqProb(mot, val);
      keywords[mot].Add1FreqProb(idDoc, val);
    }

    /**
     * Once filled, a document and the keyword of each of its terms hold the
     * same weight for each other, the fill's weight for the term there.
     */
    lemma ProbAgree(kw0: map<string, map<int, real>>, occ: map<int, map<string, int>>, doc0: map<int, map<string, real>>)
      requires TermsIndexed(keywords, documents) && OccMirrored(occ)
      requires KeywordsFilled({}, kw0, ProbTable(kw0, occ)) && DocumentsFilled({}, ProbTable(kw0, occ), doc0)
      ensures forall i, t {:trigger documents[i].Get1FreqProb(t)} | i in documents && t in documents[i].occurrences ::
                && t in keywords
                && documents[i].Get1FreqProb(t) == keywords[t].Get1FreqProb(i) == Some(Prob(kw0, occ, t, i))
    {
      forall i, t | i in documents && t in documents[i].occurrences
        ensures t in keywords && documents[i].Get1FreqProb(t) == keywords[t].Get1FreqProb(i) == Some(Prob(kw0, occ, t, i))
      {
        assert Lookup(documents[i].frequencesProb, t) == Some(Prob(kw0, occ, t, i));
        assert Lookup(keywords[t].frequencesProb, i) == Some(Prob(kw0, occ, t, i));
      }
    }

    /**
     * Filling from empty probabilistic maps, a document gets a weight for
     * exactly the terms it holds.
     */
    lemma FilledTerms(kw0: map<string, map<int, real>>, occ: map<int, map<string, int>>, doc0: map<int, map<string, real>>)
      requires OccMirrored(occ) && DocumentsFilled({}, ProbTable(kw0, occ), doc0)
      requires forall i | i in doc0 :: doc0[i] == map[]
      ensures forall i, t {:trigger documents[i].ExistsFreqProb(t)} | i in documents ::
                documents[i].ExistsFreqProb(t) <==> t in documents[i].occurrences
    {
      forall i, t | i in documents
        ensures documents[i].ExistsFreqProb(t) <==> t in documents[i].occurrences
      {
        assert Lookup(documents[i].frequencesProb, t).Some? <==> t in documents[i].frequencesProb;
      }
    }

    /** The words of the query's text, lower-cased again and split on single spaces. */
    function Words(requete: Query): seq<string> {
      Split(Lower(requete.textQuery), ' ')
    }

    /** The stored documents, among those with ids outside `todo`, holding a probabilistic weight for one of `motReq`. */
    ghost function Matching(motReq: seq<string>, todo: set<int>): set<Document>
      reads documents.Values`frequencesProb
    {
      set i | i in documents && i !in todo && Mentions(documents[i].frequencesProb, motReq) :: documents[i]
    }

    /**
     * `search`: the query vector becomes a vector of ones, one per word, and
     * the result the stored documents holding a probabilistic weight for one
     * of the words.
     */
    method Search(requete: Query) returns (r: set<Document>)
      modifies this`vector, this`vectorRequete, this`listeDoc
      ensures vector == [] && listeDoc == Some(r)
      ensures vectorRequete != null && fresh(vectorRequete) && vectorRequete[..] == seq(|Words(requete)|, _ => 1.0)
      ensures r == Matching(Words(requete), {})
    {
      var textReq := Lower(requete.textQuery);
      var motReq := Split(textReq, ' ');
      var liste := Collect(motReq);
      var ones := new real[|motReq|];
      var i := 0;
      while i < |motReq|
        invariant 0 <= i <= |motReq|
        invariant forall k | 0 <= k < i :: ones[k] == 1.0
      {
        ones[i] := 1.0;
        i := i + 1;
      }
      assert ones[..] == seq(|motReq|, _ => 1.0);
      vector := [];
      vectorRequete := ones;
      listeDoc := Some(liste);
      r := liste;
    }

    /** The loop of `search` over the stored documents. */
    method Collect(motReq: seq<string>) returns (liste: set<Document>)
      ensures liste == Matching(motReq, {})
    {
      liste := {};
      var todo := documents.Keys;
      assert Matching(motReq, todo) == {};
      while todo != {}
        invariant todo <= documents.Keys
        invariant liste == Matching(motReq, todo)
        decreases todo
      {
        var id := Pick(todo);
        liste := CollectDocument(id, motReq, todo, liste);
        todo := todo - {id};
      }
    }

    /** One pass of the loop of `search`: `id`'s document joins when it holds a weight for one of the words. */
    method CollectDocument(id: int, motReq: seq<string>, todo: set<int>, liste: set<Document>) returns (next: set<Document>)
      requires id in todo && todo <= documents.Keys && liste == Matching(motReq, todo)
      ensures next == Matching(motReq, todo - {id})
    {
      var doc := documents[id];
      next := liste;
      var j := 0;
      while j < |motReq|
        invariant 0 <= j <= |motReq|
        invariant next == if Mentions(doc.frequencesProb, motReq[..j]) then liste + {doc} else liste
      {
        MentionsStep(doc.frequencesProb, motReq, j);
        if doc.ExistsFreqProb(motReq[j]) {
          next := next + {doc};
        }
        j := j + 1;
      }
      assert motReq[..j] == motReq;
      MatchingStep(motReq, todo, id);
    }

    /** Taking id `id` out of `todo` adds its document exactly when it holds a weight for one of the words. */
    lemma MatchingStep(motReq: seq<string>, todo: set<int>, id: int)
      requires id in todo && id in documents
      ensures Matching(motReq, todo - {id}) ==
                if Mentions(documents[id].frequencesProb, motReq) then Matching(motReq, todo) + {documents[id]} else Matching(motReq, todo)
    {
    }

    /**
     * `caculeVecteurDoc`: a vector as long as the query vector holding, for
     * each word of the query, the document's probabilistic weight for it, 0
     * when it has none, and 0 past the words.
     */
    method CaculeVecteurDoc(a: Document, requete: Query) returns (vecteur: array<real>)
      requires vectorRequete != null && |Words(requete)| <= vectorRequete.Length
      ensures fresh(vecteur) && vecteur.Length == vectorRequete.Length
      ensures vecteur[..] == TermVector(a.frequencesProb, Words(requete)) + seq(vectorRequete.Length - |Words(requete)|, _ => 0.0)
    {
      vecteur := new real[vectorRequete.Length](_ => 0.0);
      var textReq := Lower(requete.textQuery);
      var motReq := Split(textReq, ' ');
      var i := 0;
      while i < |motReq|
        invariant 0 <= i <= |motReq|
        invariant forall k | 0 <= k < i :: vecteur[k] == GetOrDefault(a.frequencesProb, motReq[k])
        invariant forall k | i <= k < vecteur.Length :: vecteur[k] == 0.0
      {
        var w := a.Get1FreqProb(motReq[i]);
        if w.Some? {
          vecteur[i] := w.value;
        } else {
          vecteur[i] := 0.0;
        }
        i := i + 1;
      }
      assert vecteur[..] == TermVector(a.frequencesProb, motReq) + seq(vecteur.Length - |motReq|, _ => 0.0);
    }
  }

  /**
   * A document no candidate of the words scores 0 against the query vector
   * of ones, when the square root of 0 is 0.
   */
  lemma UnmatchedScoresZero(m: map<string, real>, words: seq<string>, sqrt: real -> real)
    requires sqrt(0.0) == 0.0 && !Mentions(m, words)
    ensures CosineOf(TermVector(m, words), seq(|words|, _ => 1.0), sqrt) == 0.0
  {
    forall i | 0 <= i < |words| ensures TermVector(m, words)[i] == 0.0 {
      assert words[i] !in m;
    }
    CosineOfZero(TermVector(m, words), seq(|words|, _ => 1.0), sqrt);
  }
}
