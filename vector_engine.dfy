/**
 * The vector-space engine: TF-IDF weights written into the index, then a
 * query vector compared with each candidate document's vector by cosine.
 * `Math.log` and `Math.sqrt` are parameters: their values are not modelled.
 */
module VectorEngine {
  import opened Wrappers
  import opened JavaStrings
  import opened Documents
  import opened Keywords
  import opened Indexes
  import opened Queries
  import opened Vectors
  import opened Collections

  /** Every posted document is stored and has a frequency for the term, so `doc.get1Freq(term)` never fails. */
  ghost predicate Weighable(kws: map<string, Keyword>, docs: map<int, Document>)
    reads kws.Values`occurrences, docs.Values`frequences
  {
    forall t, i {:trigger i in kws[t].occurrences} | t in kws && i in kws[t].occurrences :: i in docs && t in docs[i].frequences
  }

  /** The TF-IDF maps of the keywords only name stored documents, so `documents.get(id)` finds one. */
  ghost predicate TfIdfStored(kws: map<string, Keyword>, docs: map<int, Document>)
    reads kws.Values`tfidfFrequences
  {
    forall t, i {:trigger i in kws[t].tfidfFrequences} | t in kws && i in kws[t].tfidfFrequences :: i in docs
  }

  /** The TF-IDF maps `kw`, by term, only name documents of `ids`. */
  ghost predicate StoredIds(kw: map<string, map<int, real>>, ids: set<int>) {
    forall t, i {:trigger i in kw[t]} | t in kw && i in kw[t] :: i in ids
  }

  /** The keywords' TF-IDF maps, by term. */
  ghost function TfIdfByTerm(kws: map<string, Keyword>): map<string, map<int, real>>
    reads kws.Values`tfidfFrequences
  {
    map t | t in kws :: kws[t].tfidfFrequences
  }

  /** `tf` holds, term by term, the keywords' TF-IDF maps. */
  ghost predicate Mirrored(kws: map<string, Keyword>, tf: map<string, map<int, real>>)
    reads kws.Values`tfidfFrequences
  {
    (forall t :: t in tf <==> t in kws) && forall t | t in kws :: kws[t].tfidfFrequences == tf[t]
  }

  /** The documents' TF-IDF maps, by id. */
  ghost function TfIdfById(docs: map<int, Document>): map<int, map<string, real>>
    reads docs.Values`tfidfFrequences
  {
    map i | i in docs :: docs[i].tfidfFrequences
  }

  /** A consistent index can be weighed, and its TF-IDF maps only name stored documents. */
  lemma ConsistentWeighable(kws: map<string, Keyword>, docs: map<int, Document>)
    requires Consistent(kws, docs)
    ensures Weighable(kws, docs) && TermsKeyed(kws) && IdsKeyed(docs)
    ensures TfIdfStored(kws, docs) && StoredIds(TfIdfByTerm(kws), docs.Keys)
  {
    forall t, i | t in kws && i in kws[t].occurrences
      ensures i in docs && t in docs[i].frequences
    {
      assert t in docs[i].occurrences;
    }
  }

  /** `Math.log((double) n / (df + 1)) + 1.0`: the idf of a term posted in `df` of `n` documents. */
  function Idf(log: real -> real, n: nat, df: nat): real {
    log((n as real) / ((df + 1) as real)) + 1.0
  }

  /** The TF-IDF weight of a term of frequency `tf` and inverse document frequency `idf`. */
  function TfIdfWeight(tf: real, idf: real): real {
    tf * idf
  }

  /**
   * The weight of query term `t` among `n` documents, `tf` holding the
   * keywords' TF-IDF maps by term: the idf over the size of the term's map,
   * 0 for a term without a keyword.
   */
  function QueryWeight(log: real -> real, n: nat, tf: map<string, map<int, real>>, t: string): real {
    if t in tf then Idf(log, n, |tf[t]|) else 0.0
  }

  /** `requeteTFIDF` after the terms `terms`: each term put with its weight, later puts of a term overwriting earlier ones. */
  function QueryWeights(log: real -> real, n: nat, tf: map<string, map<int, real>>, terms: seq<string>): map<string, real>
    decreases |terms|
  {
    if terms == [] then map[]
    else QueryWeights(log, n, tf, terms[..|terms| - 1])[terms[|terms| - 1] := QueryWeight(log, n, tf, terms[|terms| - 1])]
  }

  /** Every term of the query, and nothing else, has its weight in `requeteTFIDF`. */
  lemma {:induction false} QueryWeightsSpec(log: real -> real, n: nat, tf: map<string, map<int, real>>, terms: seq<string>)
    ensures forall t :: t in QueryWeights(log, n, tf, terms) <==> t in terms
    ensures forall t | t in QueryWeights(log, n, tf, terms) :: QueryWeights(log, n, tf, terms)[t] == QueryWeight(log, n, tf, t)
    decreases |terms|
  {
    if terms != [] {
      var init := terms[..|terms| - 1];
      QueryWeightsSpec(log, n, tf, init);
      assert terms == init + [terms[|terms| - 1]];
    }
  }

  /** The ids in the TF-IDF maps `tf` of the terms `terms`, as the first loop of `search` collects them. */
  function CandidateIds(tf: map<string, map<int, real>>, terms: seq<string>): set<int>
    decreases |terms|
  {
    if terms == [] then {}
    else
      var t := terms[|terms| - 1];
      CandidateIds(tf, terms[..|terms| - 1]) + if t in tf then tf[t].Keys else {}
  }

  /** The candidate ids are exactly those in the TF-IDF map of some query term. */
  lemma {:induction false} CandidateIdsSpec(tf: map<string, map<int, real>>, terms: seq<string>)
    ensures forall id :: id in CandidateIds(tf, terms) <==>
      exists j :: 0 <= j < |terms| && terms[j] in tf && id in tf[terms[j]]
    decreases |terms|
  {
    if terms != [] {
      var n := |terms| - 1;
      var init := terms[..n];
      CandidateIdsSpec(tf, init);
      forall id
        ensures id in CandidateIds(tf, terms) <==> exists j :: 0 <= j < |terms| && terms[j] in tf && id in tf[terms[j]]
      {
        if id in CandidateIds(tf, init) {
          var j :| 0 <= j < |init| && init[j] in tf && id in tf[init[j]];
          assert terms[j] == init[j];
        }
        if exists j :: 0 <= j < |terms| && terms[j] in tf && id in tf[terms[j]] {
          var j :| 0 <= j < |terms| && terms[j] in tf && id in tf[terms[j]];
          if j < n {
            assert init[j] == terms[j];
          }
        }
      }
    }
  }

  /** One more term puts its weight in `requeteTFIDF` and adds its ids to the candidates. */
  lemma QueryPrefix(log: real -> real, n: nat, tf: map<string, map<int, real>>, terms: seq<string>, i: nat)
    requires i < |terms|
    ensures QueryWeights(log, n, tf, terms[..i + 1]) == QueryWeights(log, n, tf, terms[..i])[terms[i] := QueryWeight(log, n, tf, terms[i])]
    ensures CandidateIds(tf, terms[..i + 1]) == CandidateIds(tf, terms[..i]) + if terms[i] in tf then tf[terms[i]].Keys else {}
  {
    assert terms[..i + 1][..i] == terms[..i];
  }

  /**
   * The state of the first loop of `search` after the terms `done`: the
   * weight of each term in order, `requeteTFIDF` and the candidate ids.
   */
  ghost predicate QueryPass(log: real -> real, n: nat, tf: map<string, map<int, real>>, done: seq<string>,
                            weights: seq<real>, requeteTfIdf: map<string, real>, ids: set<int>)
  {
    && |weights| == |done|
    && (forall j {:trigger weights[j]} | 0 <= j < |done| :: weights[j] == QueryWeight(log, n, tf, done[j]))
    && requeteTfIdf == QueryWeights(log, n, tf, done)
    && ids == CandidateIds(tf, done)
  }

  /** The weights of the terms, in order, are the query vector: the last put of each term is its weight. */
  lemma QueryVectorWeights(log: real -> real, n: nat, tf: map<string, map<int, real>>, terms: seq<string>, weights: seq<real>)
    requires |weights| == |terms|
    requires forall j {:trigger weights[j]} | 0 <= j < |terms| :: weights[j] == QueryWeight(log, n, tf, terms[j])
    ensures weights == TermVector(QueryWeights(log, n, tf, terms), terms)
  {
    QueryWeightsSpec(log, n, tf, terms);
    forall j | 0 <= j < |terms|
      ensures weights[j] == TermVector(QueryWeights(log, n, tf, terms), terms)[j]
    {
      assert terms[j] in terms;
    }
  }

  /** When the TF-IDF maps only name ids of `ids`, so do the candidates. */
  lemma {:induction false} CandidateIdsStored(tf: map<string, map<int, real>>, ids: set<int>, terms: seq<string>)
    requires StoredIds(tf, ids)
    ensures forall id | id in CandidateIds(tf, terms) :: id in ids
    decreases |terms|
  {
    if terms != [] {
      CandidateIdsStored(tf, ids, terms[..|terms| - 1]);
    }
  }

  class VectorSearchEngine {
    const keywords: map<string, Keyword>
    const documents: map<int, Document>
    var cosineCache: map<Document, real>
    const log: real -> real
    const sqrt: real -> real

    /**
     * Builds the engine and weighs the index. After it every keyword holds,
     * for each document it posts, the weight of its term there, every
     * document the weights of the terms posting it, and every other TF-IDF
     * entry is what it was.
     */
    constructor (keywords: map<string, Keyword>, documents: map<int, Document>, log: real -> real, sqrt: real -> real)
      requires Consistent(keywords, documents)
      modifies keywords.Values`tfidfFrequences, documents.Values`tfidfFrequences
      ensures this.keywords == keywords && this.documents == documents
      ensures this.log == log && this.sqrt == sqrt && cosineCache == map[]
      ensures Weighable(keywords, documents) && TermsKeyed(keywords) && IdsKeyed(documents)
      ensures TfIdfStored(keywords, documents)
      ensures KeywordsWeighed({}, old(TfIdfByTerm(keywords))) && DocumentsWeighed({}, old(TfIdfById(documents)))
    {
      this.keywords := keywords;
      this.documents := documents;
      this.log := log;
      this.sqrt := sqrt;
      cosineCache := map[];
      new;
      ConsistentWeighable(keywords, documents);
      ghost var kw0 := TfIdfByTerm(keywords);
      PreprocessTfIdf();
      WeighedStored(kw0);
    }

    /** The weight preprocessing gives term `t` in document `i`. */
    ghost function TfIdf(t: string, i: int): real
      requires t in keywords && i in documents && t in documents[i].frequences
      reads {keywords[t]}`occurrences, {documents[i]}`frequences
    {
      TfIdfWeight(documents[i].frequences[t], Idf(log, |documents|, |keywords[t].occurrences|))
    }

    /**
     * The keywords of the terms outside `todo` hold the weights of the
     * documents they post; every other entry is that of `kw0`.
     */
    ghost predicate KeywordsWeighed(todo: set<string>, kw0: map<string, map<int, real>>)
      requires Weighable(keywords, documents)
      reads keywords.Values`occurrences, keywords.Values`tfidfFrequences, documents.Values`frequences
    {
      forall t, i {:trigger Lookup(keywords[t].tfidfFrequences, i)} | t in keywords ::
        Lookup(keywords[t].tfidfFrequences, i) ==
          if t !in todo && i in keywords[t].occurrences then Some(TfIdf(t, i)) else Lookup2(kw0, t, i)
    }

    /**
     * The documents hold the weights of the terms outside `todo` that post
     * them; every other entry is that of `doc0`.
     */
    ghost predicate DocumentsWeighed(todo: set<string>, doc0: map<int, map<string, real>>)
      requires Weighable(keywords, documents)
      reads keywords.Values`occurrences, documents.Values`tfidfFrequences, documents.Values`frequences
    {
      forall i, t {:trigger Lookup(documents[i].tfidfFrequences, t)} | i in documents ::
        Lookup(documents[i].tfidfFrequences, t) ==
          if t in keywords && t !in todo && i in keywords[t].occurrences then Some(TfIdf(t, i)) else Lookup2(doc0, i, t)
    }

    /** The TF-IDF maps `kw`, by term, hold the preprocessing weight of every posted document. */
    ghost predicate WeighedSnapshot(kw: map<string, map<int, real>>)
      requires Weighable(keywords, documents)
      reads keywords.Values`occurrences, documents.Values`frequences
    {
      forall t, i {:trigger i in keywords[t].occurrences} | t in keywords && i in keywords[t].occurrences ::
        Lookup2(kw, t, i) == Some(TfIdf(t, i))
    }

    /** The TF-IDF maps `doc`, by id, hold the preprocessing weight of every term posting the document. */
    ghost predicate DocumentsSnapshot(doc: map<int, map<string, real>>)
      requires Weighable(keywords, documents)
      reads keywords.Values`occurrences, documents.Values`frequences
    {
      forall t, i {:trigger i in keywords[t].occurrences} | t in keywords && i in keywords[t].occurrences ::
        Lookup2(doc, i, t) == Some(TfIdf(t, i))
    }

    /**
     * `preprocessTfIdf`: for each keyword and each document it posts, the
     * same weight goes into the document's TF-IDF map under the term and into
     * the keyword's TF-IDF map under the id; every other entry is kept.
     */
    method PreprocessTfIdf()
      requires Weighable(keywords, documents) && IdsKeyed(documents) && TermsKeyed(keywords)
      modifies keywords.Values`tfidfFrequences, documents.Values`tfidfFrequences
      ensures Weighable(keywords, documents)
      ensures KeywordsWeighed({}, old(TfIdfByTerm(keywords))) && DocumentsWeighed({}, old(TfIdfById(documents)))
    {
      ghost var kw0, doc0 := TfIdfByTerm(keywords), TfIdfById(documents);
      var todo := keywords.Keys;
      while todo != {}
        invariant todo <= keywords.Keys
        invariant Weighable(keywords, documents)
        invariant KeywordsWeighed(todo, kw0)
        invariant DocumentsWeighed(todo, doc0)
        decreases todo
      {
        var key := Pick(todo);
        WeighKeyword(key, todo, kw0, doc0);
        todo := todo - {key};
      }
    }

    /** One pass of the outer loop of `preprocessTfIdf`, weighing the keyword stored under `key`. */
    method WeighKeyword(key: string, todo: set<string>, ghost kw0: map<string, map<int, real>>, ghost doc0: map<int, map<string, real>>)
      requires key in todo && todo <= keywords.Keys && TermsKeyed(keywords) && IdsKeyed(documents)
      requires Weighable(keywords, documents)
      requires KeywordsWeighed(todo, kw0)
      requires DocumentsWeighed(todo, doc0)
      modifies {keywords[key]}`tfidfFrequences, documents.Values`tfidfFrequences
      ensures KeywordsWeighed(todo - {key}, kw0)
      ensures DocumentsWeighed(todo - {key}, doc0)
    {
      var kw := keywords[key];
      var term := kw.term;
      var idf := Idf(log, |documents|, |kw.occurrences|);
      WeighAt(key);
      WeighTerm(term, idf);
      forall t, i {:trigger Lookup(keywords[t].tfidfFrequences, i)} | t in keywords
        ensures Lookup(keywords[t].tfidfFrequences, i) ==
                  if t !in todo - {key} && i in keywords[t].occurrences then
                    Some(TfIdf(t, i))
                  else Lookup2(kw0, t, i)
      {
        if t != key {
          assert keywords[t].term == t;
          assert keywords[t].tfidfFrequences == old(keywords[t].tfidfFrequences);
        }
      }
      forall i, t {:trigger Lookup(documents[i].tfidfFrequences, t)} | i in documents
        ensures Lookup(documents[i].tfidfFrequences, t) ==
                  if t in keywords && t !in todo - {key} && i in keywords[t].occurrences then
                    Some(TfIdf(t, i))
                  else Lookup2(doc0, i, t)
      {
        var before := Lookup(old(documents[i].tfidfFrequences), t);
      }
    }

    /** The documents `key` posts are stored and have a frequency for it. */
    lemma WeighAt(key: string)
      requires key in keywords && Weighable(keywords, documents)
      ensures forall i {:trigger i in keywords[key].occurrences} | i in keywords[key].occurrences :: i in documents && key in documents[i].frequences
    {
    }

    /** The inner loop of `preprocessTfIdf` for the keyword of `term`, whose idf is `idf`. */
    method WeighTerm(term: string, idf: real)
      requires term in keywords && IdsKeyed(documents)
      requires forall i {:trigger i in keywords[term].occurrences} | i in keywords[term].occurrences :: i in documents && term in documents[i].frequences
      modifies {keywords[term]}`tfidfFrequences, documents.Values`tfidfFrequences
      ensures forall i {:trigger Lookup(keywords[term].tfidfFrequences, i)} {:trigger Lookup(old(keywords[term].tfidfFrequences), i)} ::
                Lookup(keywords[term].tfidfFrequences, i) ==
                  if i in keywords[term].occurrences then Some(TfIdfWeight(documents[i].frequences[term], idf))
                  else Lookup(old(keywords[term].tfidfFrequences), i)
      ensures forall i {:trigger documents[i].tfidfFrequences} {:trigger old(documents[i].tfidfFrequences)} | i in documents ::
                documents[i].tfidfFrequences ==
                  if i in keywords[term].occurrences then old(documents[i].tfidfFrequences)[term := TfIdfWeight(documents[i].frequences[term], idf)]
                  else old(documents[i].tfidfFrequences)
    {
      var kw := keywords[term];
      var todo := kw.occurrences.Keys;
      while todo != {}
        invariant todo <= kw.occurrences.Keys
        invariant forall i {:trigger Lookup(kw.tfidfFrequences, i)} {:trigger Lookup(old(kw.tfidfFrequences), i)} ::
                    Lookup(kw.tfidfFrequences, i) ==
                      if i in kw.occurrences && i !in todo then Some(TfIdfWeight(documents[i].frequences[term], idf))
                      else Lookup(old(kw.tfidfFrequences), i)
        invariant forall i {:trigger documents[i].tfidfFrequences} {:trigger old(documents[i].tfidfFrequences)} | i in documents ::
                    documents[i].tfidfFrequences ==
                      if i in kw.occurrences && i !in todo then old(documents[i].tfidfFrequences)[term := TfIdfWeight(documents[i].frequences[term], idf)]
                      else old(documents[i].tfidfFrequences)
        decreases todo
      {
        var docId := Pick(todo);
        ghost var prev := kw.tfidfFrequences;
        var w := WeighPosting(term, docId, idf);
        assert kw.tfidfFrequences == prev[docId := w];
        forall i ensures Lookup(kw.tfidfFrequences, i) == if i == docId then Some(w) else Lookup(prev, i) {}
        todo := todo - {docId};
      }
    }

    /** One pass of the inner loop: the same weight into the document, under the term, and into the keyword, under the id. */
    method WeighPosting(term: string, docId: int, idf: real) returns (w: real)
      requires term in keywords && docId in documents && term in documents[docId].frequences
      modifies {keywords[term]}`tfidfFrequences, {documents[docId]}`tfidfFrequences
      ensures w == TfIdfWeight(documents[docId].frequences[term], idf)
      ensures keywords[term].tfidfFrequences == old(keywords[term].tfidfFrequences)[docId := w]
      ensures documents[docId].tfidfFrequences == old(documents[docId].tfidfFrequences)[term := w]
    {
      var doc := documents[docId];
      var tf := doc.Get1Freq(term).value;
      w := TfIdfWeight(tf, idf);
      doc.Add1TfIdfFreq(term, w);
      keywords[term].Add1TfIdfFreq(docId, w);
    }

    /**
     * Once weighed, a keyword and a document it posts hold the same weight
     * for each other: the term's frequency in the document times its idf.
     */
    lemma TfIdfAgree(kw0: map<string, map<int, real>>, doc0: map<int, map<string, real>>)
      requires Weighable(keywords, documents)
      requires KeywordsWeighed({}, kw0) && DocumentsWeighed({}, doc0)
      ensures forall t, i {:trigger i in keywords[t].occurrences} | t in keywords && i in keywords[t].occurrences ::
        && i in documents && t in documents[i].frequences
        && keywords[t].Get1TfIdfFreq(i) == documents[i].Get1TfIdfFreq(t) == Some(TfIdf(t, i))
    {
      forall t, i | t in keywords && i in keywords[t].occurrences
        ensures i in documents && t in documents[i].frequences
        ensures keywords[t].Get1TfIdfFreq(i) == documents[i].Get1TfIdfFreq(t) == Some(TfIdf(t, i))
      {
        assert Lookup(keywords[t].tfidfFrequences, i) == Some(TfIdf(t, i));
        assert Lookup(documents[i].tfidfFrequences, t) == Some(TfIdf(t, i));
      }
    }

    /** Weighing leaves the TF-IDF maps, taken by term and by id, holding every preprocessing weight. */
    lemma SnapshotWeighed(kw0: map<string, map<int, real>>, doc0: map<int, map<string, real>>)
      requires Weighable(keywords, documents) && KeywordsWeighed({}, kw0) && DocumentsWeighed({}, doc0)
      ensures WeighedSnapshot(TfIdfByTerm(keywords))
      ensures DocumentsSnapshot(TfIdfById(documents))
    {
      forall t, i | t in keywords && i in keywords[t].occurrences
        ensures Lookup2(TfIdfByTerm(keywords), t, i) == Some(TfIdf(t, i))
        ensures Lookup2(TfIdfById(documents), i, t) == Some(TfIdf(t, i))
      {
        assert Lookup(keywords[t].tfidfFrequences, i) == Some(TfIdf(t, i));
        assert Lookup(documents[i].tfidfFrequences, t) == Some(TfIdf(t, i));
      }
    }

    /**
     * Weighing a second time changes nothing: when the maps `kw1` and `doc1`
     * the second pass started from, by term and by id, already held every
     * preprocessing weight, the keywords' and the documents' TF-IDF maps come
     * out as they went in.
     */
    lemma PreprocessIdempotent(kw1: map<string, map<int, real>>, doc1: map<int, map<string, real>>)
      requires Weighable(keywords, documents)
      requires kw1.Keys == keywords.Keys && WeighedSnapshot(kw1) && KeywordsWeighed({}, kw1)
      requires doc1.Keys == documents.Keys && DocumentsSnapshot(doc1) && DocumentsWeighed({}, doc1)
      ensures TfIdfByTerm(keywords) == kw1
      ensures TfIdfById(documents) == doc1
    {
      forall t | t in keywords
        ensures keywords[t].tfidfFrequences == kw1[t]
      {
        forall i
          ensures Lookup(keywords[t].tfidfFrequences, i) == Lookup(kw1[t], i)
        {
          assert Lookup(keywords[t].tfidfFrequences, i) == Lookup2(kw1, t, i) by {
            if i in keywords[t].occurrences {
              assert Lookup2(kw1, t, i) == Some(TfIdf(t, i));
            }
          }
        }
        LookupsEqual(keywords[t].tfidfFrequences, kw1[t]);
      }
      forall i | i in documents
        ensures documents[i].tfidfFrequences == doc1[i]
      {
        forall t
          ensures Lookup(documents[i].tfidfFrequences, t) == Lookup(doc1[i], t)
        {
          assert Lookup(documents[i].tfidfFrequences, t) == Lookup2(doc1, i, t) by {
            if t in keywords && i in keywords[t].occurrences {
              assert Lookup2(doc1, i, t) == Some(TfIdf(t, i));
            }
          }
        }
        LookupsEqual(documents[i].tfidfFrequences, doc1[i]);
      }
    }

    /** After weighing, the TF-IDF maps only name stored documents. */
    lemma WeighedStored(kw0: map<string, map<int, real>>)
      requires Weighable(keywords, documents) && KeywordsWeighed({}, kw0)
      requires StoredIds(kw0, documents.Keys)
      ensures TfIdfStored(keywords, documents)
    {
      forall t, i | t in keywords && i in keywords[t].tfidfFrequences
        ensures i in documents
      {
        assert Lookup(keywords[t].tfidfFrequences, i).Some?;
      }
    }

    /**
     * In an index weighed from empty TF-IDF maps, a keyword's TF-IDF map has
     * an entry for each document it posts, so a query term weighs the idf
     * preprocessing gave it.
     */
    lemma QueryWeightIsIdf(kw0: map<string, map<int, real>>, t: string)
      requires Weighable(keywords, documents) && KeywordsWeighed({}, kw0)
      requires t in keywords && (t in kw0 ==> kw0[t] == map[])
      ensures keywords[t].tfidfFrequences.Keys == keywords[t].occurrences.Keys
      ensures QueryWeight(log, |documents|, TfIdfByTerm(keywords), t) == Idf(log, |documents|, |keywords[t].occurrences|)
    {
      forall i
        ensures i in keywords[t].tfidfFrequences <==> i in keywords[t].occurrences
      {
        assert Lookup(keywords[t].tfidfFrequences, i) ==
          if i in keywords[t].occurrences then Some(TfIdf(t, i)) else Lookup2(kw0, t, i);
      }
      assert |keywords[t].tfidfFrequences| == |keywords[t].tfidfFrequences.Keys|;
      assert |keywords[t].occurrences| == |keywords[t].occurrences.Keys|;
    }

    /** The keywords' TF-IDF maps, taken by term, only name stored documents. */
    lemma StoredByTerm()
      requires TfIdfStored(keywords, documents)
      ensures StoredIds(TfIdfByTerm(keywords), documents.Keys)
    {
      forall t, i | t in TfIdfByTerm(keywords) && i in TfIdfByTerm(keywords)[t]
        ensures i in documents
      {
        assert i in keywords[t].tfidfFrequences;
      }
    }

    /** The stored documents of the ids `ids`, as `documents.get` maps them. */
    function DocumentsOf(ids: set<int>): (r: set<Document>)
      requires forall id | id in ids :: id in documents
    {
      set id | id in ids :: documents[id]
    }

    /** `docsAComparer` after the terms `terms`: the documents of the candidate ids. */
    ghost function Candidates(terms: seq<string>): set<Document>
      requires TfIdfStored(keywords, documents)
      reads keywords.Values`tfidfFrequences
    {
      StoredByTerm();
      CandidateIdsStored(TfIdfByTerm(keywords), documents.Keys, terms);
      DocumentsOf(CandidateIds(TfIdfByTerm(keywords), terms))
    }

    /** The cosine of the query vector of `terms` and the vector of document `d`. */
    ghost function Score(terms: seq<string>, d: Document): real
      reads keywords.Values`tfidfFrequences, d`tfidfFrequences
    {
      CosineOf(TermVector(QueryWeights(log, |documents|, TfIdfByTerm(keywords), terms), terms), TermVector(d.tfidfFrequences, terms), sqrt)
    }

    /**
     * `search`: the query's text, lower-cased, split on white space into
     * terms; the query's frequencies become the terms' weights; the cache
     * holds, for every candidate document and no other, its cosine with the
     * query. The candidates are returned; Java puts them in a tree set
     * ordered by that cosine.
     */
    method Search(requete: Query) returns (r: set<Document>)
      requires TfIdfStored(keywords, documents)
      modifies this`cosineCache, requete`frequences
      ensures requete.frequences == QueryWeights(log, |documents|, TfIdfByTerm(keywords), SplitWhitespace(Lower(requete.textQuery)))
      ensures r == Candidates(SplitWhitespace(Lower(requete.textQuery)))
      ensures cosineCache.Keys == r
      ensures forall d | d in cosineCache :: cosineCache[d] == Score(SplitWhitespace(Lower(requete.textQuery)), d)
    {
      var terms := SplitWhitespace(Lower(requete.textQuery));
      var vecReq, requeteTfIdf, docsAComparer := QueryVector(terms);
      requete.SetFrequences(requeteTfIdf);
      ScoreAll(terms, vecReq, docsAComparer);
      r := docsAComparer;
    }

    /**
     * The first loop of `search`: the query vector, `requeteTFIDF` and the
     * candidate documents.
     */
    method QueryVector(terms: seq<string>) returns (vecReq: array<real>, requeteTfIdf: map<string, real>, docsAComparer: set<Document>)
      requires TfIdfStored(keywords, documents)
      ensures fresh(vecReq)
      ensures vecReq[..] == TermVector(QueryWeights(log, |documents|, TfIdfByTerm(keywords), terms), terms)
      ensures requeteTfIdf == QueryWeights(log, |documents|, TfIdfByTerm(keywords), terms)
      ensures docsAComparer == Candidates(terms)
    {
      ghost var tf := TfIdfByTerm(keywords);
      StoredByTerm();
      assert Mirrored(keywords, tf);
      var weights: seq<real> := [];
      requeteTfIdf := map[];
      var ids: set<int> := {};
      var i := 0;
      while i < |terms|
        invariant 0 <= i <= |terms|
        invariant QueryPass(log, |documents|, tf, terms[..i], weights, requeteTfIdf, ids)
      {
        var poids;
        poids, requeteTfIdf, ids := QueryTerm(terms, i, tf, weights, requeteTfIdf, ids);
        weights := weights + [poids];
        i := i + 1;
      }
      assert terms[..i] == terms;
      CandidateIdsStored(tf, documents.Keys, terms);
      QueryVectorWeights(log, |documents|, tf, terms, weights);
      docsAComparer := DocumentsOf(ids);
      vecReq := ArrayOf(weights);
    }

    /**
     * One pass of the first loop of `search`, `tf` being the keywords' TF-IDF
     * maps: term `i` gets its weight, appended to the vector and put in
     * `requeteTFIDF`, and the ids of its keyword's TF-IDF map are added.
     */
    method QueryTerm(terms: seq<string>, i: nat, ghost tf: map<string, map<int, real>>, weights: seq<real>, requeteTfIdf: map<string, real>, ids: set<int>)
      returns (poids: real, requeteTfIdf': map<string, real>, ids': set<int>)
      requires i < |terms| && Mirrored(keywords, tf)
      requires QueryPass(log, |documents|, tf, terms[..i], weights, requeteTfIdf, ids)
      ensures QueryPass(log, |documents|, tf, terms[..i + 1], weights + [poids], requeteTfIdf', ids')
    {
      var t := terms[i];
      poids := 0.0;
      var posted: set<int> := {};
      if t in keywords {
        var kw := keywords[t];
        poids := Idf(log, |documents|, |kw.tfidfFrequences|);
        posted := kw.tfidfFrequences.Keys;
      }
      requeteTfIdf' := requeteTfIdf[t := poids];
      ids' := ids + posted;
      QueryPrefix(log, |documents|, tf, terms, i);
    }

    /** The inner loop of `search`: the vector of the document's TF-IDF weights for the terms, 0 where it has none. */
    method DocVector(doc: Document, terms: seq<string>) returns (vecDoc: array<real>)
      ensures fresh(vecDoc)
      ensures vecDoc[..] == TermVector(doc.tfidfFrequences, terms)
    {
      vecDoc := new real[|terms|];
      var tfidfDoc := doc.tfidfFrequences;
      var j := 0;
      while j < |terms|
        invariant 0 <= j <= |terms|
        invariant forall k | 0 <= k < j :: vecDoc[k] == GetOrDefault(tfidfDoc, terms[k])
      {
        vecDoc[j] := GetOrDefault(tfidfDoc, terms[j]);
        j := j + 1;
      }
    }

    /** The second loop of `search`: the cache cleared, then each candidate's cosine with the query put in it. */
    method ScoreAll(terms: seq<string>, vecReq: array<real>, docs: set<Document>)
      requires vecReq.Length == |terms|
      modifies this`cosineCache
      ensures cosineCache.Keys == docs
      ensures forall d | d in cosineCache :: cosineCache[d] == CosineOf(vecReq[..], TermVector(d.tfidfFrequences, terms), sqrt)
    {
      cosineCache := map[];
      var todo := docs;
      while todo != {}
        invariant todo <= docs
        invariant cosineCache.Keys == docs - todo
        invariant forall d | d in cosineCache :: cosineCache[d] == CosineOf(vecReq[..], TermVector(d.tfidfFrequences, terms), sqrt)
        decreases todo
      {
        var doc := Pick(todo);
        ScoreDoc(terms, vecReq, doc);
        todo := todo - {doc};
      }
    }

    /** One pass of the second loop of `search`: the document's vector, then its cosine with the query put in the cache. */
    method ScoreDoc(terms: seq<string>, vecReq: array<real>, doc: Document)
      requires vecReq.Length == |terms|
      modifies this`cosineCache
      ensures cosineCache == old(cosineCache)[doc := CosineOf(vecReq[..], TermVector(doc.tfidfFrequences, terms), sqrt)]
    {
      var vecDoc := DocVector(doc, terms);
      var cos := Cosine(vecReq, vecDoc, sqrt);
      assert vecDoc[..vecReq.Length] == vecDoc[..];
      cosineCache := cosineCache[doc := cos];
    }
  }

}
