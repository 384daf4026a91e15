/** The inverted index: a registry from terms to keywords and from ids to documents. */
module Indexes {
  import opened Wrappers
  import opened Documents
  import opened Keywords

  /** Each keyword is stored under its own term, and its frequency map covers the documents of its occurrence map. */
  ghost predicate KeywordsKeyed(kws: map<string, Keyword>)
    reads kws.Values
  {
    forall t | t in kws :: kws[t].term == t && kws[t].frequences.Keys == kws[t].occurrences.Keys
  }

  /** Each document is stored under its own id, and its frequency map covers the terms of its occurrence map. */
  ghost predicate DocumentsKeyed(docs: map<int, Document>)
    reads docs.Values
  {
    forall i | i in docs :: docs[i].id == i && docs[i].occurrences.Keys == docs[i].frequences.Keys
  }

  /** Every term of a stored document has a keyword. */
  ghost predicate TermsIndexed(kws: map<string, Keyword>, docs: map<int, Document>)
    reads docs.Values
  {
    forall i, t | i in docs && t in docs[i].occurrences :: t in kws
  }

  /**
   * A keyword's postings (occurrences, TF-IDF and probabilistic weights) only
   * name stored documents, and those of its occurrence map contain the term.
   */
  ghost predicate PostingsStored(kws: map<string, Keyword>, docs: map<int, Document>)
    reads kws.Values, docs.Values
  {
    && (forall t, i | t in kws && i in kws[t].occurrences :: i in docs && t in docs[i].occurrences)
    && (forall t, i | t in kws && i in kws[t].tfidfFrequences :: i in docs)
    && (forall t, i | t in kws && i in kws[t].frequencesProb :: i in docs)
  }

  /** Each keyword is stored under its own term, so distinct terms hold distinct keywords. */
  ghost predicate TermsKeyed(kws: map<string, Keyword>) {
    forall t | t in kws :: kws[t].term == t
  }

  /** Each document is stored under its own id, so distinct ids hold distinct documents. */
  ghost predicate IdsKeyed(docs: map<int, Document>) {
    forall i | i in docs :: docs[i].id == i
  }

  /** The cross-links every engine relies on. */
  ghost predicate Consistent(kws: map<string, Keyword>, docs: map<int, Document>)
    reads kws.Values, docs.Values
  {
    && KeywordsKeyed(kws)
    && DocumentsKeyed(docs)
    && TermsIndexed(kws, docs)
    && PostingsStored(kws, docs)
  }

  /** Java keeps the two maps in static fields; here they are the fields of one index object. */
  class Index {
    var keywords: map<string, Keyword>
    var documents: map<int, Document>

    constructor ()
      ensures keywords == map[] && documents == map[]
      ensures Consistent(keywords, documents)
    {
      keywords, documents := map[], map[];
    }

    /** The keyword stored under `key`; None (Java's null) exactly when there is none. */
    function GetKeyword(key: string): (r: Option<Keyword>)
      reads this`keywords
      ensures r.Some? <==> key in keywords
      ensures r.Some? ==> r.value == keywords[key]
    {
      if key in keywords then Some(keywords[key]) else None
    }

    /** Stores `keyword` under `key`; every other key keeps its keyword. */
    method AddKeyword(key: string, keyword: Keyword)
      modifies this`keywords
      ensures keywords == old(keywords)[key := keyword]
      ensures GetKeyword(key) == Some(keyword)
      ensures forall k :: k != key ==> GetKeyword(k) == old(GetKeyword(k))
    {
      keywords := keywords[key := keyword];
    }

    /** The document stored under `id`; None (Java's null) exactly when there is none. */
    function GetDocument(id: int): (r: Option<Document>)
      reads this`documents
      ensures r.Some? <==> id in documents
      ensures r.Some? ==> r.value == documents[id]
    {
      if id in documents then Some(documents[id]) else None
    }

    /** Stores `doc` under `id`; every other id keeps its document. */
    method AddDocument(id: int, doc: Document)
      modifies this`documents
      ensures documents == old(documents)[id := doc]
      ensures GetDocument(id) == Some(doc)
      ensures forall i :: i != id ==> GetDocument(i) == old(GetDocument(i))
    {
      documents := documents[id := doc];
    }

    /** The term frequencies of document `id`, which must be stored (Java dereferences the lookup). */
    function GetMotFrequence(id: int): (r: map<string, real>)
      requires id in documents
      reads this`documents, documents[id]
      ensures forall t :: t in r <==> documents[id].Get1Freq(t).Some?
      ensures forall t | t in r :: Some(r[t]) == documents[id].Get1Freq(t)
    {
      documents[id].frequences
    }

    /** The per-document frequencies of keyword `mot`, which must be stored. */
    function GetDocFrequence(mot: string): (r: map<int, real>)
      requires mot in keywords
      reads this`keywords, keywords[mot]
      ensures forall i :: i in r <==> keywords[mot].Get1Freq(i).Some?
      ensures forall i | i in r :: Some(r[i]) == keywords[mot].Get1Freq(i)
    {
      keywords[mot].frequences
    }
  }
}
