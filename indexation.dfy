/**
 * The line indexer: every corpus line becomes one document, and every
 * non-stopword token of its text is counted in the document and in a keyword.
 */
module Indexing {
  import opened Wrappers
  import opened JavaStrings
  import opened Documents
  import opened Keywords
  import opened Indexes

  /**
   * A line is indexable when some character other than a tab follows a tab:
   * see `WellFormedSplit`.
   */
  predicate WellFormed(line: string) {
    SepThenOther(line, '\t')
  }

  /** A line is indexable exactly when splitting it on tabs gives the date and at least one more field. */
  lemma WellFormedSplit(line: string)
    ensures WellFormed(line) <==> |Split(line, '\t')| >= 2
  {
    SplitAtLeastTwo(line, '\t');
  }

  /** The number of well-formed lines `lines` starts with. */
  function LeadingWellFormed(lines: seq<string>): (n: nat)
    ensures n <= |lines|
  {
    if lines == [] || !WellFormed(lines[0]) then 0 else 1 + LeadingWellFormed(lines[1..])
  }

  /** The leading well-formed lines are exactly those before the first malformed one. */
  lemma {:induction false} LeadingWellFormedSpec(lines: seq<string>)
    ensures forall j | 0 <= j < LeadingWellFormed(lines) :: WellFormed(lines[j])
    ensures LeadingWellFormed(lines) < |lines| ==> !WellFormed(lines[LeadingWellFormed(lines)])
  {
    if lines != [] && WellFormed(lines[0]) {
      LeadingWellFormedSpec(lines[1..]);
    }
  }

  /** The text field: the second of two fields, otherwise the third; a second of three is the title. */
  function TextField(fields: seq<string>): (text: string)
    requires |fields| >= 2
    ensures |fields| == 2 ==> text == fields[1]
    ensures |fields| > 2 ==> text == fields[2]
  {
    if |fields| == 2 then fields[1] else fields[2]
  }

  /** The tokens of `toks`, in order, that are not stopwords. */
  function Terms(toks: seq<string>, stop: seq<string>): seq<string> {
    if toks == [] then []
    else
      var init := toks[..|toks| - 1];
      var last := toks[|toks| - 1];
      Terms(init, stop) + (if last in stop then [] else [last])
  }

  /** The terms are exactly the tokens that are not stopwords: tokens are kept as they are, stopwords never. */
  lemma {:induction false} TermsMembers(toks: seq<string>, stop: seq<string>)
    ensures forall t :: t in Terms(toks, stop) <==> t in toks && t !in stop
    ensures |Terms(toks, stop)| <= |toks|
  {
    if toks != [] {
      var init := toks[..|toks| - 1];
      assert toks == init + [toks[|toks| - 1]];
      TermsMembers(init, stop);
    }
  }

  /** The indexed terms of a well-formed line: its space-split text, stopwords removed, case unchanged. */
  function LineTerms(line: string, stop: seq<string>): seq<string>
    requires WellFormed(line)
  {
    WellFormedSplit(line);
    Terms(Split(TextField(Split(line, '\t')), ' '), stop)
  }

  /**
   * One over `n`: the share a repeated term adds to its frequency, `n` being
   * the size of the frequency map at that moment. The map holds the term, so
   * `n` is never 0 where it is used.
   */
  function Share(n: nat): real {
    if n == 0 then 0.0 else 1.0 / (n as real)
  }

  /** The number of times `t` occurs in `ts`. */
  function Count(ts: seq<string>, t: string): nat {
    if ts == [] then 0
    else Count(ts[..|ts| - 1], t) + (if ts[|ts| - 1] == t then 1 else 0)
  }

  lemma {:induction false} CountZero(ts: seq<string>, t: string)
    ensures t !in ts <==> Count(ts, t) == 0
  {
    if ts != [] {
      var init := ts[..|ts| - 1];
      assert ts == init + [ts[|ts| - 1]];
      CountZero(init, t);
    }
  }

  /** One more sight of `s` in a document's counts: 1 on first sight, one more on a repeat. */
  function OccStep(occ: map<string, int>, s: string): map<string, int> {
    if s in occ then occ[s := occ[s] + 1] else occ[s := 1]
  }

  /** One more sight of `s` in a document's frequencies: 1.0 on first sight, one over the map's size more on a repeat. */
  function FreqStep(freq: map<string, real>, s: string): map<string, real> {
    if s in freq then freq[s := freq[s] + Share(|freq|)] else freq[s := 1.0]
  }

  /** Occurrence counts as the indexer accumulates them over the terms `ts`. */
  function OccOf(ts: seq<string>): map<string, int> {
    if ts == [] then map[] else OccStep(OccOf(ts[..|ts| - 1]), ts[|ts| - 1])
  }

  /**
   * Running frequencies as the indexer accumulates them over the terms `ts`:
   * 1.0 on first sight, then 1/(number of distinct terms seen so far) more on
   * each repeat.
   */
  function FreqOf(ts: seq<string>): map<string, real> {
    if ts == [] then map[] else FreqStep(FreqOf(ts[..|ts| - 1]), ts[|ts| - 1])
  }

  /** The counts after the first `n` tokens of `toks`, stopwords skipped: the state of the token loop. */
  function OccUpTo(toks: seq<string>, stop: seq<string>, n: nat): map<string, int>
    requires n <= |toks|
  {
    if n == 0 then map[]
    else if toks[n - 1] in stop then OccUpTo(toks, stop, n - 1)
    else OccStep(OccUpTo(toks, stop, n - 1), toks[n - 1])
  }

  /** One more token of the loop: a stopword changes nothing, any other token is counted. */
  lemma UpToNext(toks: seq<string>, stop: seq<string>, n: nat)
    requires n < |toks|
    ensures OccUpTo(toks, stop, n + 1) == if toks[n] in stop then OccUpTo(toks, stop, n) else OccStep(OccUpTo(toks, stop, n), toks[n])
    ensures FreqUpTo(toks, stop, n + 1) == if toks[n] in stop then FreqUpTo(toks, stop, n) else FreqStep(FreqUpTo(toks, stop, n), toks[n])
  {
  }

  /** The frequencies after the first `n` tokens of `toks`, stopwords skipped. */
  function FreqUpTo(toks: seq<string>, stop: seq<string>, n: nat): map<string, real>
    requires n <= |toks|
  {
    if n == 0 then map[]
    else if toks[n - 1] in stop then FreqUpTo(toks, stop, n - 1)
    else FreqStep(FreqUpTo(toks, stop, n - 1), toks[n - 1])
  }

  /** The accumulated count of every term is the number of its occurrences, and only occurring terms have one. */
  lemma {:induction false} OccOfCounts(ts: seq<string>)
    ensures forall t :: t in OccOf(ts) <==> t in ts
    ensures forall t | t in OccOf(ts) :: OccOf(ts)[t] == Count(ts, t) >= 1
  {
    if ts != [] {
      var init := ts[..|ts| - 1];
      assert ts == init + [ts[|ts| - 1]];
      OccOfCounts(init);
      forall t | t in OccOf(ts) ensures OccOf(ts)[t] == Count(ts, t) {
        if t !in init {
          CountZero(init, t);
        }
      }
    }
  }

  /** A map with a key has at least one entry. */
  lemma NonEmptyMap<K, V>(m: map<K, V>, k: K)
    requires k in m
    ensures |m| >= 1
  {
    assert m.Keys == (m.Keys - {k}) + {k};
  }

  /** The frequency map and the occurrence map cover the same terms. */
  lemma {:induction false} FreqOfKeys(ts: seq<string>)
    ensures FreqOf(ts).Keys == OccOf(ts).Keys
  {
    if ts != [] {
      FreqOfKeys(ts[..|ts| - 1]);
    }
  }

  /** Every stored frequency lies between 1.0 and the term's count. */
  lemma {:induction false} FreqOfBounds(ts: seq<string>)
    ensures forall t | t in FreqOf(ts) :: 1.0 <= FreqOf(ts)[t] <= Count(ts, t) as real
  {
    if ts != [] {
      var init := ts[..|ts| - 1];
      var s := ts[|ts| - 1];
      FreqOfBounds(init);
      var prev := FreqOf(init);
      forall t | t in FreqOf(ts)
        ensures 1.0 <= FreqOf(ts)[t] <= Count(ts, t) as real
      {
        if t != s {
          assert FreqOf(ts)[t] == prev[t];
          assert Count(ts, t) == Count(init, t);
        } else if s in prev {
          NonEmptyMap(prev, s);
          assert Share(|prev|) <= 1.0;
          assert FreqOf(ts)[t] == prev[s] + Share(|prev|);
          assert Count(ts, t) == Count(init, t) + 1;
        } else {
          assert FreqOf(ts)[t] == 1.0;
          assert Count(ts, t) == Count(init, t) + 1;
        }
      }
    }
  }

  /** One more token: a stopword adds no term, any other token adds itself. */
  lemma TermsSnoc(toks: seq<string>, s: string, stop: seq<string>)
    ensures Terms(toks + [s], stop) == Terms(toks, stop) + (if s in stop then [] else [s])
  {
    assert (toks + [s])[..|toks|] == toks;
  }

  /** One more token: the count of `s` starts at 1 or grows by one. */
  lemma OccOfSnoc(ts: seq<string>, s: string)
    ensures OccOf(ts + [s]) == OccStep(OccOf(ts), s)
  {
    assert (ts + [s])[..|ts|] == ts;
  }

  /** One more token: the frequency of `s` starts at 1.0 or grows by 1/(distinct terms so far). */
  lemma FreqOfSnoc(ts: seq<string>, s: string)
    ensures FreqOf(ts + [s]) == FreqStep(FreqOf(ts), s)
  {
    assert (ts + [s])[..|ts|] == ts;
  }

  /** The loop's counts and frequencies cover the same terms. */
  lemma {:induction false} UpToKeys(toks: seq<string>, stop: seq<string>, n: nat, s: string)
    requires n <= |toks|
    ensures s in OccUpTo(toks, stop, n) <==> s in FreqUpTo(toks, stop, n)
  {
    if n > 0 {
      UpToKeys(toks, stop, n - 1, s);
    }
  }

  /** The loop's counts after `n` tokens are the accumulation over the terms of those tokens. */
  lemma {:induction false} UpToOcc(toks: seq<string>, stop: seq<string>, n: nat)
    requires n <= |toks|
    ensures OccUpTo(toks, stop, n) == OccOf(Terms(toks[..n], stop))
  {
    if n > 0 {
      var s, pre := toks[n - 1], toks[..n - 1];
      UpToOcc(toks, stop, n - 1);
      assert toks[..n] == pre + [s];
      TermsSnoc(pre, s, stop);
      if s in stop {
        assert Terms(toks[..n], stop) == Terms(pre, stop);
      } else {
        OccOfSnoc(Terms(pre, stop), s);
      }
    }
  }

  /** The loop's frequencies after `n` tokens are the accumulation over the terms of those tokens. */
  lemma {:induction false} UpToFreq(toks: seq<string>, stop: seq<string>, n: nat)
    requires n <= |toks|
    ensures FreqUpTo(toks, stop, n) == FreqOf(Terms(toks[..n], stop))
  {
    if n > 0 {
      var s, pre := toks[n - 1], toks[..n - 1];
      UpToFreq(toks, stop, n - 1);
      assert toks[..n] == pre + [s];
      TermsSnoc(pre, s, stop);
      if s in stop {
        assert Terms(toks[..n], stop) == Terms(pre, stop);
      } else {
        FreqOfSnoc(Terms(pre, stop), s);
      }
    }
  }

  /**
   * The keywords after a document: `made`, the document's own keywords, one
   * per term of `occ`, overrides the keywords `kws0` held before.
   */
  lemma KeywordsOfLine(kws0: map<string, Keyword>, made: map<string, Keyword>, occ: map<string, int>, kws: map<string, Keyword>, id: int)
    requires kws == kws0 + made
    requires Postings(made, occ, id)
    ensures forall t :: t in kws <==> t in kws0 || t in occ
    ensures forall t | t in kws0 && t !in occ :: kws[t] == kws0[t]
    ensures forall t | t in occ :: kws[t] == made[t] && SolePosting(kws[t], t, id, occ[t])
  {
  }

  /** A keyword the indexer builds is stored under its term, covers the same document in both maps, and posts one document. */
  lemma SoleKeyed(k: Keyword, t: string, id: int, count: int)
    requires SolePosting(k, t, id, count)
    ensures k.term == t && k.frequences.Keys == k.occurrences.Keys && |k.occurrences| == 1
  {
    SingletonSize(id, count);
    assert k.occurrences.Keys == {id} == k.frequences.Keys;
  }

  /** The keywords built for one document are keyed and post one document each. */
  lemma MadeKeyed(made: map<string, Keyword>, occ: map<string, int>, id: int)
    requires Postings(made, occ, id)
    ensures KeywordsKeyed(made) && SinglePosting(made)
  {
    forall t | t in made
      ensures made[t].term == t && made[t].frequences.Keys == made[t].occurrences.Keys && |made[t].occurrences| == 1
    {
      SoleKeyed(made[t], t, id, occ[t]);
    }
  }

  /** Keyed maps of single-posting keywords stay so under union. */
  lemma UnionKeyed(a: map<string, Keyword>, b: map<string, Keyword>)
    requires KeywordsKeyed(a) && SinglePosting(a)
    requires KeywordsKeyed(b) && SinglePosting(b)
    ensures KeywordsKeyed(a + b) && SinglePosting(a + b)
  {
  }

  /** The new document's keywords are stored under their terms and cover the same document in both maps. */
  lemma LineKeepsKeywordsKeyed(kws0: map<string, Keyword>, made: map<string, Keyword>, occ: map<string, int>, id: int)
    requires KeywordsKeyed(kws0) && SinglePosting(kws0)
    requires Postings(made, occ, id)
    ensures KeywordsKeyed(kws0 + made) && SinglePosting(kws0 + made)
  {
    MadeKeyed(made, occ, id);
    UnionKeyed(kws0, made);
  }

  /** The new document is stored under its id and its two maps cover the same terms. */
  lemma LineKeepsDocumentsKeyed(docs0: map<int, Document>, doc: Document, id: int)
    requires DocumentsKeyed(docs0)
    requires doc.id == id && doc.occurrences.Keys == doc.frequences.Keys
    ensures DocumentsKeyed(docs0[id := doc])
  {
  }

  /** Every term of the new document has one of the new keywords; older terms keep theirs or get a new one. */
  lemma LineKeepsTermsIndexed(kws0: map<string, Keyword>, docs0: map<int, Document>, made: map<string, Keyword>, doc: Document, id: int)
    requires TermsIndexed(kws0, docs0)
    requires forall t :: t in made <==> t in doc.occurrences
    ensures TermsIndexed(kws0 + made, docs0[id := doc])
  {
  }

  /**
   * The new keywords post only the new document, which holds their terms;
   * the older keywords post older documents, which have not changed.
   */
  lemma LineKeepsPostingsStored(kws0: map<string, Keyword>, docs0: map<int, Document>, made: map<string, Keyword>, doc: Document, id: int)
    requires PostingsStored(kws0, docs0)
    requires id !in docs0
    requires Postings(made, doc.occurrences, id)
    ensures PostingsStored(kws0 + made, docs0[id := doc])
  {
    var kws, docs := kws0 + made, docs0[id := doc];
    forall t, i | t in kws && i in kws[t].occurrences
      ensures i in docs && t in docs[i].occurrences
    {
      if t in made {
        assert i == id;
      } else {
        assert i != id;
      }
    }
  }

  /**
   * Indexing one more document keeps the index consistent: the document is
   * stored under a fresh id, and each of its terms gets a keyword whose only
   * posting is that document.
   */
  lemma LineKeepsConsistent(kws0: map<string, Keyword>, docs0: map<int, Document>, made: map<string, Keyword>, doc: Document, id: int)
    requires Consistent(kws0, docs0) && SinglePosting(kws0)
    requires id !in docs0
    requires doc.id == id && doc.occurrences.Keys == doc.frequences.Keys
    requires Postings(made, doc.occurrences, id)
    ensures Consistent(kws0 + made, docs0[id := doc]) && SinglePosting(kws0 + made)
  {
    LineKeepsKeywordsKeyed(kws0, made, doc.occurrences, id);
    LineKeepsDocumentsKeyed(docs0, doc, id);
    LineKeepsTermsIndexed(kws0, docs0, made, doc, id);
    LineKeepsPostingsStored(kws0, docs0, made, doc, id);
  }

  /** Extending a prefix by one element. */
  lemma TakeSnoc<T>(s: seq<T>, j: int)
    requires 0 <= j < |s|
    ensures s[..j + 1] == s[..j] + [s[j]]
  {
  }

  /** A one-entry map has size one. */
  lemma SingletonSize<K, V>(k: K, v: V)
    ensures |map[k := v]| == 1
  {
    assert map[k := v].Keys == {k};
  }

  /** Overriding one more key on the right of a map union. */
  lemma MergeUpdate<K, V>(a: map<K, V>, b: map<K, V>, k: K, v: V)
    ensures (a + b)[k := v] == a + b[k := v]
  {
  }

  /** Adding a new key to a map keeps every old entry. */
  lemma AddedKeeps<K, V>(m: map<K, V>, k: K, v: V)
    requires k !in m
    ensures Extends(m, m[k := v])
  {
  }

  /** Storing again the entry a map union already takes from its right side changes nothing. */
  lemma MergeSame<K, V>(a: map<K, V>, b: map<K, V>, k: K)
    requires k in b
    ensures (a + b)[k := b[k]] == a + b
  {
    assert (a + b)[k := b[k]] == a + b[k := b[k]];
    assert b[k := b[k]] == b;
  }

  /** After the keyword of `s` is recounted, the keywords of `made` match the counts with `s` bumped. */
  lemma SoleBump(made: map<string, Keyword>, occ: map<string, int>, s: string, id: int)
    requires s in made
    requires forall t :: t in made <==> t in occ
    requires SolePosting(made[s], s, id, occ[s] + 1)
    requires forall t | t in made && t != s :: SolePosting(made[t], t, id, occ[t])
    ensures Postings(made, occ[s := occ[s] + 1], id)
  {
  }

  /** `m2` holds every entry of `m` unchanged. */
  ghost predicate Extends<K, V>(m: map<K, V>, m2: map<K, V>)
  {
    forall t | t in m :: t in m2 && m2[t] == m[t]
  }

  /** `made` holds one keyword per term of `occ`, each the one the indexer builds for document `id`. */
  ghost predicate Postings(made: map<string, Keyword>, occ: map<string, int>, id: int)
    reads made.Values
  {
    && (forall t :: t in made <==> t in occ)
    && (forall t | t in made :: SolePosting(made[t], t, id, occ[t]))
  }

  /** `k` is the keyword the indexer builds for term `t` in document `id`, holding `count` occurrences. */
  ghost predicate SolePosting(k: Keyword, t: string, id: int, count: int)
    reads k
  {
    && k.term == t
    && k.occurrences == map[id := count]
    && k.frequences == map[id := count as real]
    && k.tfidfFrequences == map[] && k.frequencesProb == map[]
  }

  /** A document's fields other than its id, as one value. */
  datatype Fields = Fields(
    date: Option<string>, title: Option<string>, text: Option<string>,
    occurrences: map<string, int>, frequences: map<string, real>,
    tfidfFrequences: map<string, real>, frequencesProb: map<string, real>)

  ghost function FieldsOf(d: Document): Fields
    reads d
  {
    Fields(d.date, d.title, d.text, d.occurrences, d.frequences, d.tfidfFrequences, d.frequencesProb)
  }

  /**
   * What the indexer makes of the well-formed `line`: the first tab field as
   * the date, the second as the title when there are three fields or more,
   * the text field, the counts and running frequencies of the line's terms,
   * and no weights yet.
   */
  function LineFields(line: string, stop: seq<string>): Fields
    requires WellFormed(line)
  {
    WellFormedSplit(line);
    var fields := Split(line, '\t');
    var ts := LineTerms(line, stop);
    Fields(
      Some(fields[0]), if |fields| == 2 then None else Some(fields[1]), Some(TextField(fields)),
      OccOf(ts), FreqOf(ts), map[], map[])
  }

  /** `d` is the document the indexer makes of `line` under id `i`. */
  ghost predicate LineDocument(d: Document, i: int, line: string, stop: seq<string>)
    reads d
  {
    WellFormed(line) && d.id == i && FieldsOf(d) == LineFields(line, stop)
  }

  /** A document holding a line's fields, as `IndexLine` ensures, is that line's document. */
  lemma MadeLineDocument(d: Document, i: int, line: string, stop: seq<string>)
    requires WellFormed(line)
    requires
      var fields := Split(line, '\t');
      var ts := LineTerms(line, stop);
      && d.id == i
      && |fields| >= 2
      && d.date == Some(fields[0])
      && d.title == (if |fields| == 2 then None else Some(fields[1]))
      && d.text == Some(TextField(fields))
      && d.occurrences == OccOf(ts) && d.frequences == FreqOf(ts)
      && d.tfidfFrequences == map[] && d.frequencesProb == map[]
    ensures LineDocument(d, i, line, stop)
  {
  }

  /** Every keyword has exactly one posting: the indexer replaces a term's keyword on each new document. */
  ghost predicate SinglePosting(kws: map<string, Keyword>)
    reads kws.Values
  {
    forall t | t in kws :: |kws[t].occurrences| == 1
  }

  /** The indexer: an index, the next document id and the stopword list (read from a file in Java). */
  class Indexation {
    const index: Index
    var id: int
    const stopWords: seq<string>

    ghost predicate Valid()
      reads this, index, index.keywords.Values, index.documents.Values
    {
      && Consistent(index.keywords, index.documents)
      && SinglePosting(index.keywords)
      && 0 <= id
      && (forall i | i in index.documents :: 0 <= i < id)
    }

    /**
     * A line indexed as `IndexLine` does keeps the indexer valid: `kws0`,
     * `docs0` and `id0` are the index and the id before the line, `doc` its
     * document and `made` its keywords.
     */
    lemma LineKeepsValid(kws0: map<string, Keyword>, docs0: map<int, Document>, id0: int, doc: Document, made: map<string, Keyword>)
      requires Consistent(kws0, docs0) && SinglePosting(kws0)
      requires 0 <= id0 && forall i | i in docs0 :: 0 <= i < id0
      requires index.keywords == kws0 + made && index.documents == docs0[id0 := doc] && id == id0 + 1
      requires doc.id == id0 && doc.occurrences.Keys == doc.frequences.Keys
      requires Postings(made, doc.occurrences, id0)
      ensures Valid()
    {
      LineKeepsConsistent(kws0, docs0, made, doc, id0);
    }

    constructor (stopWords: seq<string>)
      ensures Valid() && fresh(index)
      ensures id == 0 && this.stopWords == stopWords
      ensures index.keywords == map[] && index.documents == map[]
    {
      index := new Index();
      id := 0;
      this.stopWords := stopWords;
    }

    /**
     * One more occurrence of a term in the keyword built for the current
     * document: the count grows by one and the frequency by one over the
     * size of the keyword's frequency map, which is 1.
     */
    method Recount(k: Keyword, ghost s: string, ghost c: int)
      requires SolePosting(k, s, id, c)
      modifies k`occurrences, k`frequences
      ensures SolePosting(k, s, id, c + 1)
    {
      SingletonSize(id, c as real);
      k.Add1Occur(id, k.Get1Occur(id).value + 1);
      k.Add1Freq(id, k.Get1Freq(id).value + Share(|k.frequences|));
    }

    /**
     * The document side of one non-stopword token `s`: on first sight its
     * count is 1 and its frequency 1.0; on a repeat the count grows by one and
     * the frequency by one over the number of distinct terms seen so far.
     */
    method CountInDocument(doc: Document, s: string)
      requires s in doc.occurrences <==> s in doc.frequences
      modifies doc`occurrences, doc`frequences
      ensures doc.occurrences == OccStep(old(doc.occurrences), s)
      ensures doc.frequences == FreqStep(old(doc.frequences), s)
    {
      if s !in doc.occurrences {
        doc.Add1Occur(s, 1);
        doc.Add1Freq(s, 1.0);
      } else {
        doc.Add1Occur(s, doc.Get1Occur(s).value + 1);
        doc.Add1Freq(s, doc.Get1Freq(s).value + Share(|doc.frequences|));
      }
    }

    /** A fresh keyword for `s` whose only posting is the current document, with count 1 and frequency 1.0. */
    method NewKeyword(s: string) returns (k: Keyword)
      ensures fresh(k) && SolePosting(k, s, id, 1)
    {
      k := new Keyword(s);
      k.Add1Occur(id, 1);
      k.Add1Freq(id, 1.0);
    }

    /**
     * The keyword side of the first sight of `s` in the current document: a
     * fresh keyword whose only posting is this document, with count 1 and
     * frequency 1.0, replaces whatever the index held for `s`. `made` holds
     * the keywords built for this document so far; `kws0` is the index as it
     * was before the document.
     */
    method PostFirst(s: string, ghost occ: map<string, int>, ghost kws0: map<string, Keyword>, ghost made: map<string, Keyword>)
      returns (ghost made2: map<string, Keyword>)
      requires s !in made
      requires index.keywords == kws0 + made
      requires Postings(made, occ, id)
      modifies index`keywords
      ensures index.keywords == kws0 + made2
      ensures Postings(made2, occ[s := 1], id)
      ensures Extends(made, made2)
      ensures forall t | t in made2 :: t in made || fresh(made2[t])
    {
      var k := NewKeyword(s);
      index.AddKeyword(s, k);
      made2 := made[s := k];
      MergeUpdate(kws0, made, s, k);
      AddedKeeps(made, s, k);
    }

    /**
     * A repeat of `s` in the keyword the index holds for it, the one built
     * for the current document: that keyword is recounted, the others built
     * for the document keep their postings.
     */
    method RecountStored(s: string, ghost occ: map<string, int>, ghost made: map<string, Keyword>) returns (k: Keyword)
      requires s in made && s in index.keywords && index.keywords[s] == made[s]
      requires Postings(made, occ, id)
      modifies made[s]
      ensures k == made[s] && SolePosting(k, s, id, occ[s] + 1)
      ensures forall t | t in made && t != s :: SolePosting(made[t], t, id, occ[t])
    {
      var found := index.GetKeyword(s);
      k := found.value;
      Recount(k, s, occ[s]);
    }

    /**
     * The keyword side of a repeat of `s` in the current document: the
     * keyword stored for `s`, the one created for this document, is recounted
     * and stored again.
     */
    method PostRepeat(s: string, ghost occ: map<string, int>, ghost kws0: map<string, Keyword>, ghost made: map<string, Keyword>)
      requires s in made
      requires index.keywords == kws0 + made
      requires Postings(made, occ, id)
      modifies index`keywords, made[s]
      ensures index.keywords == kws0 + made
      ensures Postings(made, occ[s := occ[s] + 1], id)
    {
      var k := RecountStored(s, occ, made);
      index.AddKeyword(s, k);
      MergeSame(kws0, made, s);
      SoleBump(made, occ, s, id);
    }

    /**
     * The keyword side of one token `s` that is not a stopword, `first`
     * telling whether the document sees it for the first time: the keyword
     * for it is built or recounted. `occ` are the document's counts so far.
     */
    method PostToken(s: string, first: bool, ghost occ: map<string, int>, ghost kws0: map<string, Keyword>, ghost made: map<string, Keyword>)
      returns (ghost made2: map<string, Keyword>)
      requires first <==> s !in occ
      requires index.keywords == kws0 + made
      requires Postings(made, occ, id)
      modifies index`keywords, made.Values
      ensures index.keywords == kws0 + made2
      ensures Postings(made2, OccStep(occ, s), id)
      ensures Extends(made, made2)
      ensures forall t | t in made2 :: t in made || fresh(made2[t])
    {
      if first {
        made2 := PostFirst(s, occ, kws0, made);
      } else {
        PostRepeat(s, occ, kws0, made);
        made2 := made;
      }
    }

    /** One token `s` that is not a stopword, counted in `doc` and in the keyword for it. */
    method CountToken(doc: Document, s: string, ghost occ: map<string, int>, ghost kws0: map<string, Keyword>, ghost made: map<string, Keyword>)
      returns (ghost made2: map<string, Keyword>)
      requires doc.occurrences == occ
      requires s in doc.occurrences <==> s in doc.frequences
      requires index.keywords == kws0 + made
      requires Postings(made, occ, id)
      modifies doc`occurrences, doc`frequences, index`keywords, made.Values
      ensures doc.occurrences == OccStep(occ, s)
      ensures doc.frequences == FreqStep(old(doc.frequences), s)
      ensures index.keywords == kws0 + made2
      ensures Postings(made2, OccStep(occ, s), id)
      ensures Extends(made, made2)
      ensures forall t | t in made2 :: t in made || fresh(made2[t])
    {
      var first := s !in doc.occurrences;
      CountInDocument(doc, s);
      made2 := PostToken(s, first, occ, kws0, made);
    }

    /**
     * One pass of the token loop over `com[j]`: the token is lower-cased (the
     * copy is thrown away) and, unless it is a stopword, counted in `doc`
     * and in the keyword for it.
     */
    method IndexToken(doc: Document, com: seq<string>, j: nat, ghost occ: map<string, int>, ghost kws0: map<string, Keyword>, ghost made: map<string, Keyword>)
      returns (ghost occ2: map<string, int>, ghost made2: map<string, Keyword>)
      requires j < |com|
      requires occ == OccUpTo(com, stopWords, j) && doc.occurrences == occ
      requires doc.frequences == FreqUpTo(com, stopWords, j)
      requires index.keywords == kws0 + made
      requires Postings(made, occ, id)
      modifies doc`occurrences, doc`frequences, index`keywords, made.Values
      ensures occ2 == OccUpTo(com, stopWords, j + 1) && doc.occurrences == occ2
      ensures doc.frequences == FreqUpTo(com, stopWords, j + 1)
      ensures index.keywords == kws0 + made2
      ensures Postings(made2, occ2, id)
      ensures Extends(made, made2)
      ensures forall t | t in made2 :: t in made || fresh(made2[t])
    {
      var s := com[j];
      var _ := Lower(s);
      UpToNext(com, stopWords, j);
      if s in stopWords {
        occ2, made2 := occ, made;
      } else {
        UpToKeys(com, stopWords, j, s);
        made2 := CountToken(doc, s, occ, kws0, made);
        occ2 := OccStep(occ, s);
      }
    }

    /**
     * The token loop of one line: every token of `com` that is not a stopword
     * is counted in `doc` and in the keyword for it. The lower-cased copy of
     * each token is computed and thrown away, so tokens keep their case.
     * `made` is the map of the keywords built for this document.
     */
    method IndexTokens(doc: Document, com: seq<string>) returns (ghost occ: map<string, int>, ghost made: map<string, Keyword>)
      requires doc.occurrences == map[] && doc.frequences == map[]
      modifies doc`occurrences, doc`frequences, index`keywords
      ensures occ == OccOf(Terms(com, stopWords)) && doc.occurrences == occ
      ensures doc.frequences == FreqOf(Terms(com, stopWords))
      ensures index.keywords == old(index.keywords) + made
      ensures Postings(made, occ, id)
      ensures forall t | t in made :: fresh(made[t])
    {
      ghost var kws0 := index.keywords;
      occ, made := map[], map[];
      assert kws0 + made == kws0;
      var j := 0;
      while j < |com|
        invariant 0 <= j <= |com|
        invariant occ == OccUpTo(com, stopWords, j) && doc.occurrences == occ
        invariant doc.frequences == FreqUpTo(com, stopWords, j)
        invariant index.keywords == kws0 + made
        invariant Postings(made, occ, id)
        invariant forall t | t in made :: fresh(made[t])
      {
        occ, made := IndexToken(doc, com, j, occ, kws0, made);
        j := j + 1;
      }
      UpToOcc(com, stopWords, j);
      UpToFreq(com, stopWords, j);
      assert com[..j] == com;
    }

    /**
     * The tokens `com` of the document `doc`, not yet stored, counted in
     * `doc` and in the keywords `made` built for it; the objects of the index
     * are left alone, so a consistent index stays consistent.
     */
    method CountLine(doc: Document, com: seq<string>) returns (ghost made: map<string, Keyword>)
      requires doc.occurrences == map[] && doc.frequences == map[]
      requires doc !in index.documents.Values
      modifies doc`occurrences, doc`frequences, index`keywords
      ensures doc.occurrences == OccOf(Terms(com, stopWords)) && doc.frequences == FreqOf(Terms(com, stopWords))
      ensures index.keywords == old(index.keywords) + made
      ensures Postings(made, doc.occurrences, id)
      ensures forall t | t in made :: fresh(made[t])
      ensures old(Consistent(index.keywords, index.documents) && SinglePosting(index.keywords)) ==>
        Consistent(old(index.keywords), index.documents) && SinglePosting(old(index.keywords))
      ensures forall t :: t in index.keywords <==> t in old(index.keywords) || t in doc.occurrences
      ensures forall t | t in old(index.keywords) && t !in doc.occurrences :: index.keywords[t] == old(index.keywords)[t]
      ensures forall t | t in doc.occurrences :: SolePosting(index.keywords[t], t, id, doc.occurrences[t])
    {
      ghost var kws0 := index.keywords;
      ghost var occ;
      occ, made := IndexTokens(doc, com);
      KeywordsOfLine(kws0, made, occ, index.keywords, id);
    }

    /**
     * Stores `doc` under the current id and advances the id. The objects are
     * left alone, so whatever keywords `kws` and documents `docs` were
     * consistent stay so.
     */
    method Commit(doc: Document, ghost kws: map<string, Keyword>, ghost docs: map<int, Document>)
      modifies this, index`documents
      ensures id == old(id) + 1
      ensures index.documents == old(index.documents)[old(id) := doc]
      ensures old(Consistent(kws, docs) && SinglePosting(kws)) ==> Consistent(kws, docs) && SinglePosting(kws)
    {
      index.AddDocument(id, doc);
      id := id + 1;
    }

    /**
     * The document of a line split into its tab fields `phrase`, under the
     * current id: a date, a title when there are three fields or more, a text,
     * and the text's space-separated tokens `com`.
     */
    method NewDocument(phrase: seq<string>) returns (doc: Document, com: seq<string>)
      requires |phrase| >= 2
      ensures fresh(doc) && doc.id == id
      ensures doc.date == Some(phrase[0])
      ensures doc.title == (if |phrase| == 2 then None else Some(phrase[1]))
      ensures doc.text == Some(TextField(phrase))
      ensures doc.occurrences == map[] && doc.frequences == map[]
      ensures doc.tfidfFrequences == map[] && doc.frequencesProb == map[]
      ensures com == Split(TextField(phrase), ' ')
    {
      doc := new Document(id);
      doc.SetDate(phrase[0]);
      if |phrase| == 2 {
        doc.SetText(phrase[1]);
        com := Split(phrase[1], ' ');
      } else {
        doc.SetTitle(phrase[1]);
        doc.SetText(phrase[2]);
        com := Split(phrase[2], ' ');
      }
    }

    /**
     * Stores `doc`, the document of the current line with tokens `com`,
     * under the current id and advances the id: the tokens are counted in
     * the document and each of its terms gets a fresh keyword whose only
     * posting is this document, replacing any earlier keyword for that term.
     */
    method StoreDocument(doc: Document, com: seq<string>)
      requires doc.id == id && doc.occurrences == map[] && doc.frequences == map[]
      requires doc !in index.documents.Values
      modifies this, index, doc`occurrences, doc`frequences
      ensures old(Valid()) ==> Valid()
      ensures id == old(id) + 1
      ensures index.documents == old(index.documents)[old(id) := doc]
      ensures doc.occurrences == OccOf(Terms(com, stopWords)) && doc.frequences == FreqOf(Terms(com, stopWords))
      ensures forall t :: t in index.keywords <==> t in old(index.keywords) || t in doc.occurrences
      ensures forall t | t in old(index.keywords) && t !in doc.occurrences :: index.keywords[t] == old(index.keywords)[t]
      ensures forall t | t in doc.occurrences :: SolePosting(index.keywords[t], t, old(id), doc.occurrences[t])
      ensures forall t | t in doc.occurrences :: fresh(index.keywords[t])
    {
      ghost var kws0 := index.keywords;
      ghost var made := CountLine(doc, com);
      Commit(doc, kws0, old(index.documents));
      if old(Valid()) {
        FreqOfKeys(Terms(com, stopWords));
        LineKeepsValid(kws0, old(index.documents), old(id), doc, made);
      }
    }

    /**
     * Indexes one line under the current id. A line with fewer than two tab
     * fields makes Java throw before anything is stored; here it returns false
     * and nothing changes. Otherwise one fresh document is stored under the
     * old id and the id advances by one; each term of the line gets a fresh
     * keyword holding this document as its only posting, replacing any earlier
     * keyword for that term.
     */
    method IndexLine(line: string) returns (ok: bool)
      modifies this, index
      ensures old(Valid()) ==> Valid()
      ensures ok <==> WellFormed(line)
      ensures !ok ==> id == old(id) && index.keywords == old(index.keywords) && index.documents == old(index.documents)
      ensures ok ==> id == old(id) + 1
      ensures ok ==> old(id) in index.documents && index.documents == old(index.documents)[old(id) := index.documents[old(id)]]
      ensures ok ==> fresh(index.documents[old(id)]) && LineDocument(index.documents[old(id)], old(id), line, stopWords)
      ensures ok ==>
        var occ := OccOf(LineTerms(line, stopWords));
        && (forall t :: t in index.keywords <==> t in old(index.keywords) || t in occ)
        && (forall t | t in old(index.keywords) && t !in occ :: index.keywords[t] == old(index.keywords)[t])
        && (forall t | t in occ :: SolePosting(index.keywords[t], t, old(id), occ[t]))
        && (forall t | t in occ :: fresh(index.keywords[t]))
    {
      var phrase := Split(line, '\t');
      WellFormedSplit(line);
      if |phrase| < 2 {
        return false;
      }
      var doc, com := NewDocument(phrase);
      StoreDocument(doc, com);
      MadeLineDocument(doc, old(id), line, stopWords);
      ok := true;
    }

    /**
     * Lines `0..n` are stored, line `k` under id `id0 + k`, after the
     * documents `docs0` the index held before them; those under other ids
     * are unchanged.
     */
    ghost predicate Progress(lines: seq<string>, n: nat, id0: int, docs0: map<int, Document>)
      reads this, index, index.documents.Values
    {
      && n <= |lines|
      && id == id0 + n
      && (forall i :: i in index.documents <==> i in docs0 || id0 <= i < id)
      && (forall k | 0 <= k < n ::
            id0 + k in index.documents && LineDocument(index.documents[id0 + k], id0 + k, lines[k], stopWords))
      && (forall i | i in docs0 && (i < id0 || id <= i) :: index.documents[i] == docs0[i])
    }

    /**
     * One pass of the indexing loop: line `n` is indexed after lines `0..n`,
     * which are stored under ids `id0..id0 + n`; `docs0` is the index's
     * documents before the first of them. A malformed line changes nothing.
     */
    method IndexNext(lines: seq<string>, n: nat, ghost id0: int, ghost docs0: map<int, Document>) returns (ok: bool)
      requires n < |lines| && Progress(lines, n, id0, docs0)
      modifies this, index
      ensures old(Valid()) ==> Valid()
      ensures ok <==> WellFormed(lines[n])
      ensures Progress(lines, if ok then n + 1 else n, id0, docs0)
    {
      ghost var docs := index.documents;
      ok := IndexLine(lines[n]);
      if ok {
        assert id == id0 + n + 1;
        var d := index.documents[id0 + n];
        assert index.documents == docs[id0 + n := d];
        assert LineDocument(d, id0 + n, lines[n], stopWords);
        forall k | 0 <= k < n + 1
          ensures id0 + k in index.documents && LineDocument(index.documents[id0 + k], id0 + k, lines[k], stopWords)
        {
          if k < n {
            var e := docs[id0 + k];
            assert old(LineDocument(e, id0 + k, lines[k], stopWords));
            assert unchanged(e);
            assert LineDocument(e, id0 + k, lines[k], stopWords);
            assert index.documents[id0 + k] == e;
          } else {
            assert index.documents[id0 + k] == d;
          }
        }
        forall i | i in docs0 && (i < id0 || id <= i)
          ensures index.documents[i] == docs0[i]
        {
          assert i != id0 + n;
        }
      }
    }

    /**
     * Indexes the corpus lines in order, the lines of every file one after
     * the other. The exception a malformed line raises in Java ends the whole
     * run: `indexed` is the number of well-formed lines before the first
     * malformed one. Line `k` is stored as a new document under id
     * `old(id) + k`, and the documents stored before keep their ids.
     */
    method Indexer(lines: seq<string>) returns (indexed: nat)
      modifies this, index
      ensures old(Valid()) ==> Valid()
      ensures indexed <= |lines|
      ensures indexed == LeadingWellFormed(lines)
      ensures id == old(id) + indexed
      ensures forall i :: i in index.documents <==> i in old(index.documents) || old(id) <= i < id
      ensures forall k | 0 <= k < indexed ::
        old(id) + k in index.documents && LineDocument(index.documents[old(id) + k], old(id) + k, lines[k], stopWords)
      ensures forall i | i in old(index.documents) && (i < old(id) || id <= i) :: index.documents[i] == old(index.documents)[i]
    {
      ghost var id0, docs0 := id, index.documents;
      indexed := 0;
      while indexed < |lines|
        invariant Progress(lines, indexed, id0, docs0)
        invariant old(Valid()) ==> Valid()
        invariant LeadingWellFormed(lines) == indexed + LeadingWellFormed(lines[indexed..])
      {
        var ok := IndexNext(lines, indexed, id0, docs0);
        if !ok {
          return;
        }
        assert lines[indexed..][1..] == lines[indexed + 1..];
        indexed := indexed + 1;
      }
    }
  }
}
