/** A document of the corpus: its metadata and its per-term statistics. */
module Documents {
  import opened Wrappers

  /**
   * One corpus line. The four maps go from a term to its occurrence count,
   * its running frequency, its TF-IDF weight and its probabilistic weight.
   * The getters of the four maps and of the id are reads of these fields.
   */
  class Document {
    const id: int
    var text: Option<string>
    var title: Option<string>
    var date: Option<string>
    var occurrences: map<string, int>
    var frequences: map<string, real>
    var tfidfFrequences: map<string, real>
    var frequencesProb: map<string, real>

    constructor (id: int)
      ensures this.id == id
      ensures occurrences == map[] && frequences == map[]
      ensures tfidfFrequences == map[] && frequencesProb == map[]
      ensures text == None && title == None && date == None
    {
      this.id := id;
      text, title, date := None, None, None;
      occurrences, frequences := map[], map[];
      tfidfFrequences, frequencesProb := map[], map[];
    }

    method SetText(texte: string)
      modifies this`text
      ensures text == Some(texte)
    {
      text := Some(texte);
    }

    method SetTitle(titre: string)
      modifies this`title
      ensures title == Some(titre)
    {
      title := Some(titre);
    }

    method SetDate(date: string)
      modifies this`date
      ensures this.date == Some(date)
    {
      this.date := Some(date);
    }

    predicate ExistsOccur(mot: string)
      reads this`occurrences
    {
      mot in occurrences
    }

    /** The count stored for `mot`; None (Java's null) exactly when `mot` has none. */
    function Get1Occur(mot: string): (r: Option<int>)
      reads this`occurrences
      ensures r.Some? <==> ExistsOccur(mot)
      ensures r.Some? ==> r.value == occurrences[mot]
    {
      if mot in occurrences then Some(occurrences[mot]) else None
    }

    /** Stores a count for `mot`; only the occurrence map changes. */
    method Add1Occur(mot: string, occurr: int)
      modifies this`occurrences
      ensures occurrences == old(occurrences)[mot := occurr]
      ensures Get1Occur(mot) == Some(occurr) && ExistsOccur(mot)
      ensures forall m :: m != mot ==> Get1Occur(m) == old(Get1Occur(m))
    {
      occurrences := occurrences[mot := occurr];
    }

    predicate ExistsFreq(mot: string)
      reads this`frequences
    {
      mot in frequences
    }

    /** The running frequency stored for `mot`; None exactly when `mot` has none. */
    function Get1Freq(mot: string): (r: Option<real>)
      reads this`frequences
      ensures r.Some? <==> ExistsFreq(mot)
      ensures r.Some? ==> r.value == frequences[mot]
    {
      if mot in frequences then Some(frequences[mot]) else None
    }

    /** Stores a running frequency for `mot`; only the frequency map changes. */
    method Add1Freq(mot: string, frequence: real)
      modifies this`frequences
      ensures frequences == old(frequences)[mot := frequence]
      ensures Get1Freq(mot) == Some(frequence) && ExistsFreq(mot)
      ensures forall m :: m != mot ==> Get1Freq(m) == old(Get1Freq(m))
    {
      frequences := frequences[mot := frequence];
    }

    predicate ExistsTfIdfFreq(mot: string)
      reads this`tfidfFrequences
    {
      mot in tfidfFrequences
    }

    /** The TF-IDF weight stored for `mot`; None exactly when `mot` has none. */
    function Get1TfIdfFreq(mot: string): (r: Option<real>)
      reads this`tfidfFrequences
      ensures r.Some? <==> ExistsTfIdfFreq(mot)
      ensures r.Some? ==> r.value == tfidfFrequences[mot]
    {
      if mot in tfidfFrequences then Some(tfidfFrequences[mot]) else None
    }

    /** Stores a TF-IDF weight for `mot`; only the TF-IDF map changes. */
    method Add1TfIdfFreq(mot: string, frequence: real)
      modifies this`tfidfFrequences
      ensures tfidfFrequences == old(tfidfFrequences)[mot := frequence]
      ensures Get1TfIdfFreq(mot) == Some(frequence) && ExistsTfIdfFreq(mot)
      ensures forall m :: m != mot ==> Get1TfIdfFreq(m) == old(Get1TfIdfFreq(m))
    {
      tfidfFrequences := tfidfFrequences[mot := frequence];
    }

    predicate ExistsFreqProb(mot: string)
      reads this`frequencesProb
    {
      mot in frequencesProb
    }

    /** The probabilistic weight stored for `mot`; None exactly when `mot` has none. */
    function Get1FreqProb(mot: string): (r: Option<real>)
      reads this`frequencesProb
      ensures r.Some? <==> ExistsFreqProb(mot)
      ensures r.Some? ==> r.value == frequencesProb[mot]
    {
      if mot in frequencesProb then Some(frequencesProb[mot]) else None
    }

    /** Stores a probabilistic weight for `mot` (Java's add1TFreqProb); only that map changes. */
    method Add1FreqProb(mot: string, frequence: real)
      modifies this`frequencesProb
      ensures frequencesProb == old(frequencesProb)[mot := frequence]
      ensures Get1FreqProb(mot) == Some(frequence) && ExistsFreqProb(mot)
      ensures forall m :: m != mot ==> Get1FreqProb(m) == old(Get1FreqProb(m))
    {
      frequencesProb := frequencesProb[mot := frequence];
    }
  }
}
