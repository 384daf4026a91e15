/** A term of the vocabulary and its postings: per-document statistics keyed by document id. */
module Keywords {
  import opened Wrappers

  /**
   * A term with four maps from a document id to the term's occurrence count,
   * running frequency, TF-IDF weight and probabilistic weight in that document.
   * The getters of the four maps and of the term are reads of these fields.
   */
  class Keyword {
    const term: string
    var occurrences: map<int, int>
    var frequences: map<int, real>
    var tfidfFrequences: map<int, real>
    var frequencesProb: map<int, real>

    constructor (mot: string)
      ensures term == mot
      ensures occurrences == map[] && frequences == map[]
      ensures tfidfFrequences == map[] && frequencesProb == map[]
    {
      occurrences, frequences := map[], map[];
      tfidfFrequences, frequencesProb := map[], map[];
      term := mot;
    }

    predicate ExistsOccur(idDoc: int)
      reads this`occurrences
    {
      idDoc in occurrences
    }

    /** The count stored for document `idDoc`; None (Java's null) exactly when it has none. */
    function Get1Occur(idDoc: int): (r: Option<int>)
      reads this`occurrences
      ensures r.Some? <==> ExistsOccur(idDoc)
      ensures r.Some? ==> r.value == occurrences[idDoc]
    {
      if idDoc in occurrences then Some(occurrences[idDoc]) else None
    }

    /** Stores a count for `idDoc`; only the occurrence map changes. */
    method Add1Occur(idDoc: int, occur: int)
      modifies this`occurrences
      ensures occurrences == old(occurrences)[idDoc := occur]
      ensures Get1Occur(idDoc) == Some(occur)
      ensures forall i :: i != idDoc ==> Get1Occur(i) == old(Get1Occur(i))
      ensures ExistsFreq(idDoc)
    {
      occurrences := occurrences[idDoc := occur];
    }

    /** The running frequency stored for `idDoc`; None exactly when the frequency map has none. */
    function Get1Freq(idDoc: int): (r: Option<real>)
      reads this`frequences
      ensures r.Some? <==> idDoc in frequences
      ensures r.Some? ==> r.value == frequences[idDoc]
    {
      if idDoc in frequences then Some(frequences[idDoc]) else None
    }

    /** Stores a running frequency for `idDoc`; only the frequency map changes, so `ExistsFreq` does not. */
    method Add1Freq(idDoc: int, freq: real)
      modifies this`frequences
      ensures frequences == old(frequences)[idDoc := freq]
      ensures Get1Freq(idDoc) == Some(freq)
      ensures forall i :: i != idDoc ==> Get1Freq(i) == old(Get1Freq(i))
      ensures forall i :: ExistsFreq(i) == old(ExistsFreq(i))
    {
      frequences := frequences[idDoc := freq];
    }

    /** Whether a frequency exists for `idDoc`: as written, a test of the occurrence map. */
    predicate ExistsFreq(idDoc: int): (b: bool)
      reads this`occurrences
      ensures b <==> Get1Occur(idDoc).Some?
    {
      idDoc in occurrences
    }

    predicate ExistsTfIdfFreq(idDoc: int)
      reads this`tfidfFrequences
    {
      idDoc in tfidfFrequences
    }

    /** The TF-IDF weight stored for `idDoc`; None exactly when `ExistsTfIdfFreq` is false. */
    function Get1TfIdfFreq(idDoc: int): (r: Option<real>)
      reads this`tfidfFrequences
      ensures r.Some? <==> ExistsTfIdfFreq(idDoc)
      ensures r.Some? ==> r.value == tfidfFrequences[idDoc]
    {
      if idDoc in tfidfFrequences then Some(tfidfFrequences[idDoc]) else None
    }

    /** Stores a TF-IDF weight for `idDoc`; only the TF-IDF map changes. */
    method Add1TfIdfFreq(idDoc: int, freq: real)
      modifies this`tfidfFrequences
      ensures tfidfFrequences == old(tfidfFrequences)[idDoc := freq]
      ensures Get1TfIdfFreq(idDoc) == Some(freq) && ExistsTfIdfFreq(idDoc)
      ensures forall i :: i != idDoc ==> Get1TfIdfFreq(i) == old(Get1TfIdfFreq(i))
    {
      tfidfFrequences := tfidfFrequences[idDoc := freq];
    }

    predicate ExistsFreqProb(idDoc: int)
      reads this`frequencesProb
    {
      idDoc in frequencesProb
    }

    /** The probabilistic weight stored for `idDoc`; None exactly when `ExistsFreqProb` is false. */
    function Get1FreqProb(idDoc: int): (r: Option<real>)
      reads this`frequencesProb
      ensures r.Some? <==> ExistsFreqProb(idDoc)
      ensures r.Some? ==> r.value == frequencesProb[idDoc]
    {
      if idDoc in frequencesProb then Some(frequencesProb[idDoc]) else None
    }

    /** Stores a probabilistic weight for `idDoc`; only that map changes. */
    method Add1FreqProb(idDoc: int, freq: real)
      modifies this`frequencesProb
      ensures frequencesProb == old(frequencesProb)[idDoc := freq]
      ensures Get1FreqProb(idDoc) == Some(freq) && ExistsFreqProb(idDoc)
      ensures forall i :: i != idDoc ==> Get1FreqProb(i) == old(Get1FreqProb(i))
    {
      frequencesProb := frequencesProb[idDoc := freq];
    }
  }
}
