# SearchEngine core in Dafny

This project models the in-memory core of the SearchEngine information-retrieval program:

- the statistics records: `Document`, `Keyword` and the `Index` that registers them;
- the line indexer: one document per corpus line, with stopword filtering and running counts and frequencies per term;
- the query tokenizer;
- the three retrieval engines:
  - boolean: set algebra over postings, plus a recursive min/max document weight;
  - vector space: TF-IDF preprocessing, query vector, candidate selection, document vectors and cosine;
  - probabilistic: log-odds weights filled in ascending document order, candidate selection and document vectors;
- the three result comparators;
- the search-type code table.

Java's mutable objects are classes whose `map` fields the methods update in place. Loops are `while` loops with invariants, each proved against a specification function.

- Java's `null` returns become `Option`.
- `double` is an exact `real`.
- `Math.log` and `Math.sqrt` are function-valued parameters of the engines (`real -> real`), so nothing depends on their values.
- Java's `int` arithmetic in the comparators is written out as 32-bit wrap-around, and `(int)` casts as truncation with saturation.

Modules, one per file:

- Data and strings:
  - `Wrappers` (Option);
  - `Collections` (map lookups, set iteration);
  - `JavaStrings` (`split`, `split("\\s+")`, `toLowerCase`);
  - `JavaNumbers`.
- Records and indexing:
  - `Documents`, `Keywords`, `Indexes`;
  - `Indexing` (the indexer);
  - `Queries`;
  - `Vectors` (term vectors and cosine).
- Engines and the rest:
  - `BooleanEngine`, `VectorEngine`, `ProbabilisticEngine`;
  - `Comparators`, `SearchTypes`.

The code behaves as follows, and the model keeps it:

- A line with fewer than two tab fields is not skipped. Reading its second field throws, and that ends the whole indexing run. A line with more than three fields uses its first three.
- Index terms are the raw tokens. The result of `toLowerCase()` is discarded (src/java/Indexation.java:101).
- On a term's first sight in a document, a fresh keyword replaces the one in the index. Each term's keyword therefore posts only the last document that held the term.
- The query's maps are built from the raw, not lower-cased, tokens. Each frequency is the integer quotient `1 / size`.
- The probabilistic qi is not the document frequency over N. It is the number of probabilistic weights already recorded for the term over N, so it grows during the fill.
- The vector query has one entry per token position, repeats included.

## Model

| member | source | states |
|---|---|---|
| Documents.Document.constructor | src/Document.java:50-56 | the id is the given id, all four maps are empty, and text, title and date are null |
| Documents.Document.SetText | src/Document.java:67-69 | the text read back is the text set; nothing else changes |
| Documents.Document.SetTitle | src/Document.java:80-82 | the title read back is the title set; nothing else changes |
| Documents.Document.SetDate | src/Document.java:93-95 | the date read back is the date set; nothing else changes |
| Documents.Document.Get1Occur | src/Document.java:110-120 | null exactly when `existsOccur` is false, otherwise the stored count |
| Documents.Document.Add1Occur | src/Document.java:102-104 | the put count is read back, `existsOccur` holds, other words keep their counts, and only the occurrence map changes |
| Documents.Document.Get1Freq | src/Document.java:135-145 | null exactly when `existsFreq`, a test of the frequency map, is false |
| Documents.Document.Add1Freq | src/Document.java:127-129 | the put frequency is read back, other words are unchanged, and only the frequency map changes |
| Documents.Document.Get1TfIdfFreq | src/Document.java:160-170 | null exactly when `existsTFIDFFreq` is false |
| Documents.Document.Add1TfIdfFreq | src/Document.java:152-154 | the put weight is read back, other words are unchanged, and only the TF-IDF map changes |
| Documents.Document.Get1FreqProb | src/Document.java:185-195 | null exactly when `existsFreqProb` is false |
| Documents.Document.Add1FreqProb | src/Document.java:177-179 | the put weight is read back, other words are unchanged, and only the probabilistic map changes |
| Keywords.Keyword.constructor | src/java/Keyword.java:22-28 | the term is the given word and all four maps are empty |
| Keywords.Keyword.Get1Occur | src/java/Keyword.java:36-48 | null exactly when `existsOccur` is false, otherwise the stored count |
| Keywords.Keyword.Add1Occur | src/java/Keyword.java:56-58 | the put count is read back, other ids are unchanged, and `existsFreq` becomes true |
| Keywords.Keyword.Get1Freq | src/java/Keyword.java:66-68 | null exactly when the frequency map has no entry for the id |
| Keywords.Keyword.Add1Freq | src/java/Keyword.java:76-78 | the put frequency is read back, other ids are unchanged, and `existsFreq` does not change for any id |
| Keywords.Keyword.ExistsFreq | src/java/Keyword.java:86-88 | tests the occurrence map, not the frequency map |
| Keywords.Keyword.Get1TfIdfFreq | src/java/Keyword.java:96-98 | null exactly when `existsTFIDFreq` is false |
| Keywords.Keyword.Add1TfIdfFreq | src/java/Keyword.java:106-118 | the put weight is read back, `existsTFIDFreq` holds, and other ids are unchanged |
| Keywords.Keyword.Get1FreqProb | src/java/Keyword.java:126-128 | null exactly when `existsFreqProb` is false |
| Keywords.Keyword.Add1FreqProb | src/java/Keyword.java:136-148 | the put weight is read back, `existsFreqProb` holds, and other ids are unchanged |
| Indexes.Index.constructor | src/java/Index.java:25-28 | both maps are empty, and the empty index is consistent |
| Indexes.Index.GetKeyword | src/java/Index.java:36-38 | null exactly for an absent key, otherwise the stored keyword |
| Indexes.Index.AddKeyword | src/java/Index.java:46-48 | the keyword is read back under its key and the other keys are unchanged |
| Indexes.Index.GetDocument | src/java/Index.java:56-58 | null exactly for an absent id, otherwise the stored document |
| Indexes.Index.AddDocument | src/java/Index.java:66-68 | the document is read back under its id and the other ids are unchanged |
| Indexes.Index.GetMotFrequence | src/java/Index.java:189-191 | for a stored id: the document's frequency map, entry for entry |
| Indexes.Index.GetDocFrequence | src/java/Index.java:199-201 | for a stored term: the keyword's frequency map, entry for entry |
| Indexing.WellFormedSplit | src/java/Indexation.java:83-98 | a line is indexable exactly when splitting it on tabs gives at least two fields |
| Indexing.LeadingWellFormedSpec | src/java/Indexation.java:81-98 | the lines indexed are exactly those before the first malformed one |
| Indexing.TextField | src/java/Indexation.java:86-98 | the text is the second field when there are two fields, otherwise the third |
| Indexing.TermsMembers | src/java/Indexation.java:100-103 | a token, kept as it is, becomes a term exactly when it is not a stopword |
| Indexing.UpToNext | src/java/Indexation.java:100-123 | one more token: a stopword changes nothing, any other token takes one counting step |
| Indexing.OccOfCounts | src/java/Indexation.java:106-116 | a term's count is its number of occurrences among the terms, and only terms that occur have one |
| Indexing.FreqOfKeys | src/java/Indexation.java:106-117 | the frequency map and the occurrence map have the same terms |
| Indexing.FreqOfBounds | src/java/Indexation.java:109-117 | every frequency lies between 1.0 and the term's count |
| Indexing.UpToOcc | src/java/Indexation.java:100-116 | the loop's counts after n tokens are the counts of the terms among those tokens |
| Indexing.UpToFreq | src/java/Indexation.java:100-117 | the loop's frequencies after n tokens are the running frequencies of the terms among those tokens |
| Indexing.KeywordsOfLine | src/java/Indexation.java:104-121 | after a line, its terms have the new keywords, each posting only this document; other terms keep theirs |
| Indexing.SoleKeyed | src/java/Indexation.java:106-121 | a keyword built for a document is stored under its term and has one posting, in both maps |
| Indexing.LineKeepsConsistent | src/java/Indexation.java:104-126 | indexing one more document under a fresh id keeps the index consistent |
| Indexing.LineKeepsPostingsStored | src/java/Indexation.java:104-125 | after a line, every posting names a stored document that holds the term |
| Indexing.LineKeepsTermsIndexed | src/java/Indexation.java:104-125 | after a line, every term of a stored document has a keyword |
| Indexing.Indexation.constructor | src/java/Indexation.java:35-38 | an empty, valid index and id 0; the stopwords are given |
| Indexing.Indexation.Recount | src/java/Indexation.java:118-119 | a keyword's only posting grows its count by one and its frequency by 1/1 |
| Indexing.Indexation.CountInDocument | src/java/Indexation.java:106-117 | the document's count of the token starts at 1 or grows by one; its frequency starts at 1.0 or grows by one over the map's size |
| Indexing.Indexation.NewKeyword | src/java/Indexation.java:107-111 | a fresh keyword whose only posting is the current document, with count 1 and frequency 1.0 |
| Indexing.Indexation.PostFirst | src/java/Indexation.java:107-121 | on first sight, a fresh keyword for the term replaces whatever the index held |
| Indexing.Indexation.PostRepeat | src/java/Indexation.java:114-121 | on a repeat, the keyword stored for the term is recounted and stored again |
| Indexing.Indexation.PostToken | src/java/Indexation.java:104-121 | the keyword side of one token: built on first sight, recounted on a repeat |
| Indexing.Indexation.CountToken | src/java/Indexation.java:104-121 | one token counted in the document and in its keyword |
| Indexing.Indexation.IndexToken | src/java/Indexation.java:100-123 | one pass of the token loop moves the counts and frequencies from n tokens to n + 1 |
| Indexing.Indexation.IndexTokens | src/java/Indexation.java:100-123 | the token loop leaves the counts and running frequencies of the non-stopword tokens, and one new keyword per term |
| Indexing.Indexation.CountLine | src/java/Indexation.java:100-123 | the counts and frequencies of the line's terms; each term's keyword posts only this document; a consistent index stays consistent |
| Indexing.Indexation.Commit | src/java/Indexation.java:125-126 | the document is stored under the current id and the id grows by one |
| Indexing.Indexation.NewDocument | src/java/Indexation.java:82-98 | a fresh document under the current id, with date, title (only with three or more fields), text and the text's space-split tokens |
| Indexing.Indexation.StoreDocument | src/java/Indexation.java:100-126 | the document is counted and stored under the current id; its terms get fresh single-posting keywords; other terms keep theirs |
| Indexing.Indexation.IndexLine | src/java/Indexation.java:81-127 | a malformed line changes nothing and reports failure; otherwise one new document under the old id holding the line's fields as `LineFields` gives them, with the id advanced by one, and each of its terms a fresh keyword posting only it |
| Indexing.Indexation.IndexNext | src/java/Indexation.java:80-127 | one pass of the line loop: a malformed line changes nothing; a well-formed one adds its document under the next id, and the documents of earlier lines and those stored before stay as they were |
| Indexing.Indexation.Indexer | src/java/Indexation.java:67-133 | lines are indexed up to the first malformed one, keeping the index valid; line k is stored under the starting id plus k as the document `LineFields` describes: its date, title, text and the counts and running frequencies of its terms; documents stored before under other ids are unchanged |
| Queries.QueryOccTerms | src/Query.java:27-32 | the occurrence keys are the raw tokens other than exactly "or", "and" and "not", each with count 1 |
| Queries.QueryFreqKeys | src/Query.java:31-33 | the frequency map has the same keys as the occurrence map |
| Queries.QueryFreqZeroOrOne | src/Query.java:33 | every frequency is the int quotient 0 or 1, as a double |
| Queries.QueryFreqOneOne | src/Query.java:33 | at most one term has frequency 1.0 |
| Queries.QueryFreqSingleTerm | src/Query.java:33 | a query with one distinct term gives it frequency 1.0 |
| Queries.Query.constructor | src/Query.java:21-36 | the text is lower-cased, and the maps are the loop's occurrence and frequency maps over the raw tokens |
| Queries.Query.GetOperator | src/Query.java:51-53 | the operator is never assigned, so it is null |
| Queries.Query.SetOccurrences | src/Query.java:59-61 | the occurrence map is replaced by the given one |
| Queries.Query.SetFrequences | src/Query.java:83-85 | the frequency map is replaced by the given one |
| JavaStrings.Split | src/BooleanSearchEngine.java:54 | a string without the separator splits into itself; otherwise no trailing empty field |
| JavaStrings.SplitJoin | src/BooleanSearchEngine.java:54 | splitting separator-free fields joined with the separator gives the fields back |
| JavaStrings.SplitParts | src/BooleanSearchEngine.java:103 | no piece of a split holds the separator; with several pieces, each is shorter than the string |
| JavaStrings.SplitAtLeastTwo | src/java/Indexation.java:83-86 | a split has two or more pieces exactly when a separator is followed by a character other than the separator |
| JavaStrings.SplitWhitespace | src/VectorSearchEngine.java:56-58 | the pieces hold no white space, only a leading piece can be empty, and text without white space is one piece |
| JavaStrings.Lower | src/Query.java:22 | lower-casing keeps the length |
| JavaStrings.LowerIdempotent | src/java/ProbabilisticSearchEngine.java:75 | lower-casing an already lower-cased text changes nothing |
| JavaStrings.LowerKeepsSpaces | src/BooleanSearchEngine.java:116-117 | lower-casing neither adds nor removes white space |
| JavaNumbers.Truncate | src/java/ComparatorPoid.java:45-46 | rounds toward zero: within 1 below a non-negative value, within 1 above a negative one |
| JavaNumbers.DoubleToInt | src/java/ComparatorPoid.java:45-46 | `(int)` truncates in range and saturates to the int bounds outside it |
| JavaNumbers.Wrap | src/java/ComparatorPoid.java:47-50 | the int congruent to the exact result modulo 2^32, which is the result itself when it fits |
| JavaNumbers.CompareDouble | src/java/ComparatorScalaire.java:42 | -1, 0 or 1 as the first value is below, equal to or above the second |
| JavaNumbers.CompareInt | src/java/ComparatorScalaire.java:45 | -1, 0 or 1 as the first int is below, equal to or above the second |
| BooleanEngine.Combine | src/BooleanSearchEngine.java:68-81 | "and" is the intersection, "or" the union, "not" the difference; any other operator matches nothing |
| BooleanEngine.CombineLaws | src/BooleanSearchEngine.java:68-81 | "and" and "not" partition the first postings; "and" lies within "or"; "or" commutes |
| BooleanEngine.PieceDepth | src/BooleanSearchEngine.java:116-117 | the text of a sub-query holds no space, so the recursion goes one level deep |
| BooleanEngine.PoidDocToken | src/BooleanSearchEngine.java:106-113 | a single token weighs its frequency, or 0 when absent |
| BooleanEngine.PoidDocBinary | src/BooleanSearchEngine.java:104-127 | "a and b" weighs the smaller sub-weight, "a not b" the larger, any other operator -1 |
| BooleanEngine.PoidDocRange | src/BooleanSearchEngine.java:101-127 | with non-negative frequencies, a weight is at least 0 or the -1 of an invalid query |
| BooleanEngine.PoidDocAsWrittenToken | src/BooleanSearchEngine.java:106-115 | as written, a single-token query throws at `tab[1]` |
| BooleanEngine.PoidDocAsWrittenBinary | src/BooleanSearchEngine.java:115-125 | as written, every "and" or "not" query throws in its sub-queries |
| BooleanEngine.PoidDocAsWrittenAgrees | src/BooleanSearchEngine.java:101-127 | as written, a weight is only returned for an invalid operator, the -1 the documented weight also gives |
| BooleanEngine.BooleanSearchEngine.constructor | src/BooleanSearchEngine.java:32-35 | the engine holds the given maps |
| BooleanEngine.BooleanSearchEngine.PostingsOf | src/BooleanSearchEngine.java:57-66 | a term's postings are the ids of its keyword's frequency map, none for an unknown term |
| BooleanEngine.BooleanSearchEngine.MatchIds | src/BooleanSearchEngine.java:55-81 | the ids the switch collects are the operator applied to the two terms' postings |
| BooleanEngine.BooleanSearchEngine.Search | src/BooleanSearchEngine.java:48-88 | as written: fewer than three tokens throw, and so does an "and" or "not" query matching some document, since inserting it into the `ComparatorPoid` tree set weighs it with the throwing `calculePoidDoc`; otherwise the result is the operator applied to the two terms' postings |
| BooleanEngine.BooleanSearchEngine.SearchCorrected | src/BooleanSearchEngine.java:48-88 | with the documented weight, only fewer than three tokens throw; every other query gives the operator applied to the two terms' postings |
| Vectors.DotSymmetric | src/VectorSearchEngine.java:119-120 | the dot product does not depend on argument order |
| Vectors.NormSquared | src/VectorSearchEngine.java:121-122 | a squared norm is never negative, and is 0 for the zero vector |
| Vectors.CosineSymmetric | src/VectorSearchEngine.java:117-126 | the cosine does not depend on argument order |
| Vectors.CosineOfZero | src/VectorSearchEngine.java:124-125 | against the zero vector the cosine is 0 when sqrt(0) is 0 |
| Vectors.Cosine | src/VectorSearchEngine.java:117-126 | the accumulator loop computes the cosine over the first vector's indices: 0 when the denominator is 0 (`ProbabilisticSearchEngine.cosineSimilarity`, src/java/ProbabilisticSearchEngine.java:133-144, is the same loop) |
| Vectors.TermVector | src/VectorSearchEngine.java:92-97 | one entry per term, in order: the weight of the term, or 0 |
| Vectors.UnrelatedScoresZero | src/VectorSearchEngine.java:92-99 | a document holding none of the terms scores 0 |
| VectorEngine.ConsistentWeighable | src/VectorSearchEngine.java:34-36 | in a consistent index, every posted document is stored and has a frequency for the term |
| VectorEngine.QueryWeightsSpec | src/VectorSearchEngine.java:66-87 | the query's TF-IDF map has exactly the query's terms, each with its idf, or 0 when it has no keyword |
| VectorEngine.CandidateIdsSpec | src/VectorSearchEngine.java:63-77 | the candidates are exactly the ids in the TF-IDF map of some query term |
| VectorEngine.QueryVectorWeights | src/VectorSearchEngine.java:66-84 | the query vector holds each position's weight |
| VectorEngine.CandidateIdsStored | src/VectorSearchEngine.java:77 | candidates are stored documents |
| VectorEngine.VectorSearchEngine.constructor | src/VectorSearchEngine.java:16-21 | the engine holds its maps and an empty cache, and the index ends weighed |
| VectorEngine.VectorSearchEngine.PreprocessTfIdf | src/VectorSearchEngine.java:27-44 | every posting gets `tf * idf` on both sides, keyword and document; every other TF-IDF entry is unchanged |
| VectorEngine.VectorSearchEngine.WeighKeyword | src/VectorSearchEngine.java:29-43 | one keyword weighed, on both sides |
| VectorEngine.VectorSearchEngine.WeighTerm | src/VectorSearchEngine.java:34-42 | the keyword's TF-IDF map gets a weight for each posted id, and each posted document one for the term |
| VectorEngine.VectorSearchEngine.WeighPosting | src/VectorSearchEngine.java:35-41 | the same weight `tf * idf` goes into the document under the term and into the keyword under the id |
| VectorEngine.VectorSearchEngine.TfIdfAgree | src/VectorSearchEngine.java:28-42 | after preprocessing, a keyword and each document it posts hold the same weight for each other |
| VectorEngine.VectorSearchEngine.SnapshotWeighed | src/VectorSearchEngine.java:27-44 | afterwards, every preprocessing weight is in the TF-IDF maps of the keywords and of the documents |
| VectorEngine.VectorSearchEngine.PreprocessIdempotent | src/VectorSearchEngine.java:27-44 | weighing an already weighed index again changes nothing, neither the keywords' TF-IDF maps nor the documents' |
| VectorEngine.VectorSearchEngine.WeighedStored | src/VectorSearchEngine.java:34-41 | afterwards, the TF-IDF maps name only stored documents |
| VectorEngine.VectorSearchEngine.QueryWeightIsIdf | src/VectorSearchEngine.java:71-74 | from empty TF-IDF maps, a known query term weighs the idf preprocessing used |
| VectorEngine.VectorSearchEngine.Search | src/VectorSearchEngine.java:55-108 | the query's frequencies are its term weights; the result is the candidates; the cache maps exactly the candidates to their cosine |
| VectorEngine.VectorSearchEngine.QueryVector | src/VectorSearchEngine.java:60-84 | the query vector, the query's TF-IDF map and the candidate documents |
| VectorEngine.VectorSearchEngine.QueryTerm | src/VectorSearchEngine.java:67-83 | one pass of the query loop extends the vector, the map and the candidates by one term |
| VectorEngine.VectorSearchEngine.DocVector | src/VectorSearchEngine.java:92-97 | a document's vector is its TF-IDF weight for each term, 0 when absent |
| VectorEngine.VectorSearchEngine.ScoreAll | src/VectorSearchEngine.java:90-101 | the cache is cleared, then maps exactly the given documents to their cosine with the query |
| VectorEngine.VectorSearchEngine.ScoreDoc | src/VectorSearchEngine.java:92-100 | one document's cosine put in the cache |
| ProbabilisticEngine.QiGrows | src/java/ProbabilisticSearchEngine.java:41-60 | during the fill, qi of a term never decreases, and it strictly grows past a document holding the term, unless the starting maps already held a weight for that document |
| ProbabilisticEngine.QiFirst | src/java/ProbabilisticSearchEngine.java:41-57 | at the first document holding a new term, qi is 0 (the log of infinity) |
| ProbabilisticEngine.LeastFirst | src/java/ProbabilisticSearchEngine.java:53 | taking the least id left keeps the documents in ascending id order |
| ProbabilisticEngine.MentionsStep | src/java/ProbabilisticSearchEngine.java:87-91 | one more word matches exactly when it or an earlier word has a weight |
| ProbabilisticEngine.UnmatchedScoresZero | src/java/ProbabilisticSearchEngine.java:133-144 | a document holding no weight for any word scores 0 against the all-ones query |
| ProbabilisticEngine.ProbabilisticSearchEngine.constructor | src/java/ProbabilisticSearchEngine.java:26-32 | holds the maps, an empty `vector`, no result and no query vector yet, and the fill completed |
| ProbabilisticEngine.ProbabilisticSearchEngine.CalculeQI | src/java/ProbabilisticSearchEngine.java:41-44 | qi times the number of documents is the number of weights held for the term; when those name stored documents, qi lies in 0..1 |
| ProbabilisticEngine.ProbabilisticSearchEngine.RemplirFrequenceProb | src/java/ProbabilisticSearchEngine.java:50-63 | every document and the keyword of each of its terms get the fill's log-odds weight for each other; every other entry is unchanged |
| ProbabilisticEngine.ProbabilisticSearchEngine.FillNext | src/java/ProbabilisticSearchEngine.java:53-62 | one document more, the least id left, is filled |
| ProbabilisticEngine.ProbabilisticSearchEngine.FillDocument | src/java/ProbabilisticSearchEngine.java:54-61 | the terms of one document get their weights on both sides |
| ProbabilisticEngine.ProbabilisticSearchEngine.SharesBefore | src/java/ProbabilisticSearchEngine.java:54-57 | when a document comes up, `calculeQI` of each of its terms is qi there |
| ProbabilisticEngine.ProbabilisticSearchEngine.ShareOfTerm | src/java/ProbabilisticSearchEngine.java:42-43 | a keyword's weights, when a document comes up, are those it started with plus those of earlier documents holding the term |
| ProbabilisticEngine.ProbabilisticSearchEngine.FillTerms | src/java/ProbabilisticSearchEngine.java:54-61 | each term of the document gets the weight of its qi from before the loop, on both sides |
| ProbabilisticEngine.ProbabilisticSearchEngine.FillNextTerm | src/java/ProbabilisticSearchEngine.java:54-61 | one term more is weighed |
| ProbabilisticEngine.ProbabilisticSearchEngine.FillPosting | src/java/ProbabilisticSearchEngine.java:56-60 | the same weight goes into the document under the term and into the keyword under the id |
| ProbabilisticEngine.ProbabilisticSearchEngine.ProbAgree | src/java/ProbabilisticSearchEngine.java:53-61 | after the fill, a document and the keyword of each of its terms hold the same weight, the fill's weight |
| ProbabilisticEngine.ProbabilisticSearchEngine.FilledTerms | src/java/ProbabilisticSearchEngine.java:53-61 | from empty maps, a document gets a weight for exactly its terms |
| ProbabilisticEngine.ProbabilisticSearchEngine.Search | src/java/ProbabilisticSearchEngine.java:73-95 | `vector` is cleared; the query vector is all ones, one per word; the result is the documents holding a weight for some word |
| ProbabilisticEngine.ProbabilisticSearchEngine.Collect | src/java/ProbabilisticSearchEngine.java:86-92 | the loop over the documents selects exactly the documents holding a weight for some word |
| ProbabilisticEngine.ProbabilisticSearchEngine.CollectDocument | src/java/ProbabilisticSearchEngine.java:87-91 | one document joins exactly when it holds a weight for some word |
| ProbabilisticEngine.ProbabilisticSearchEngine.MatchingStep | src/java/ProbabilisticSearchEngine.java:86-92 | one more document examined adds it exactly when it matches |
| ProbabilisticEngine.ProbabilisticSearchEngine.CaculeVecteurDoc | src/java/ProbabilisticSearchEngine.java:104-124 | a vector as long as the query vector: the document's weight for each word, 0 when absent, then 0 |
| Comparators.CompareScalaire | src/java/ComparatorScalaire.java:41-48 | negative, zero or positive by descending score then ascending id; 0 only for equal score and id |
| Comparators.ScalaireAntisymmetric | src/java/ComparatorScalaire.java:41-48 | sign-antisymmetric |
| Comparators.ScalaireTransitive | src/java/ComparatorScalaire.java:41-48 | transitive, strictly and not strictly |
| Comparators.ComparePoid | src/java/ComparatorPoid.java:44-54 | a 32-bit int |
| Comparators.ComparePoidDocs | src/java/ComparatorPoid.java:44-46 | a 32-bit int, computed from the documented weights of the two documents |
| Comparators.PoidSigns | src/java/ComparatorPoid.java:45-53 | the difference of the scaled weights when they differ (no overflow), their sum when equal; `compare(a, a)` is twice the weight |
| Comparators.PoidZero | src/java/ComparatorPoid.java:47-53 | 0 exactly for equal scaled weights that are 0, or both the saturated minimum |
| Comparators.PoidNotAntisymmetric | src/java/ComparatorPoid.java:49-51 | two weights of 1 each compare 2000, so each sorts after the other |
| Comparators.CompareProba | src/java/ComparatorProba.java:42-51 | a 32-bit int |
| Comparators.ProbaEqual | src/java/ComparatorProba.java:45-49 | equal similarities give 1 in both orders |
| Comparators.ProbaSigns | src/java/ComparatorProba.java:47-48 | a scaled lead of 1 or more is positive, a lag of 1 or more negative, and distinct scores closer than that give 0 |
| SearchTypes.ValuesComplete | src/SearchType.java:6-12 | every type is among `values()` |
| SearchTypes.CodesDistinct | src/SearchType.java:6-12 | the three codes are distinct |
| SearchTypes.FromCode | src/SearchType.java:35-44 | the code of a type gives that type back; any other code gives BOOLEAN |

## Left out

- Serialization of the index (`saveVocabulary`, `saveDocuments`, `loadMap`, `loadDocuments`, `loadVocabulary`): file and object-stream I/O.
- Reading the stopword file and the corpus directory. The stopwords are a constructor parameter, and the corpus is a sequence of lines, the lines of every file in turn.
- `Main`, `SearchEngine.displayResults` and the getters: console interaction and printing. The getters are plain field reads here.
- The values of `Math.log` and `Math.sqrt`: they are parameters. `Math.log(+inf)`, the weight at qi = 0, is a parameter `logInfinity`. IEEE effects are not represented: NaN, infinities and rounding. At qi = 1 the model gives `log(0.0)`, which Java computes as negative infinity.
- The `TreeSet` results. `ComparatorPoid` and `ComparatorProba` break the comparator contract: Proba never returns 0 for the same document, and it truncates distinct scores closer than 1e-4 to 0. So the contents and order of the tree sets built with them are not modelled. Each search returns the set of matching documents, or ids for the boolean engine. The boolean search does model the exception that inserting into its tree set raises (see Findings).
- The `static` maps of `Index`: in Java every `new Index()` resets the keyword and document maps shared by all instances. Here each index has its own maps. One index is built per indexing run, so nothing observable differs.
- Hash set and hash map iteration order. Loops over sets pick an arbitrary next element. The exception is the fill, which takes ids in ascending order as the tree map does.
- Java regular expressions. `split("\\s+")` is modelled on white-space runs, and `split(" ")` and `split("\t")` as one-character splits that drop trailing empty fields.
- `toLowerCase` covers ASCII and Latin-1 letters only.
- Exceptions from dereferencing a missing key are preconditions. Examples: `getMotFrequence` of an absent id, a posting naming a missing document. The engines require the index `Consistent`, which `Indexing.LineKeepsConsistent` proves the indexer keeps.
- VectorEngine.VectorSearchEngine.QueryVector: builds the query weights in a sequence and copies it into a fresh array after the loop, rather than writing the array inside the loop.
- Vectors.Cosine: requires the second vector to be at least as long as the first, where Java would throw.
- ProbabilisticEngine.ProbabilisticSearchEngine.CaculeVecteurDoc: requires a query vector from an earlier search, long enough for the words, where Java would throw. It calls `get1FreqProb` once per word rather than twice.
- ProbabilisticEngine.ProbabilisticSearchEngine.CalculeQI: requires at least one stored document, where Java divides 0 by 0 into NaN.
- ProbabilisticEngine.ProbabilisticSearchEngine.Search: returns the matching documents as a set, not the tree set `listeDoc` holds.
- Comparators.ComparePoidDocs: weighs with the documented weight `BooleanEngine.PoidDoc`, not with the as-written one, which throws for every "and" or "not" query (see Findings).
- Comparators.ComparePoid, Comparators.CompareProba: their own contracts state only the int range; their values are stated by `PoidSigns`, `PoidZero`, `ProbaEqual` and `ProbaSigns`.

## Findings

| source | as written | input that shows it | evidently intended | confidence | as-written member | corrected member |
|---|---|---|---|---|---|---|
| src/BooleanSearchEngine.java:115 | after the single-token branch, `tab[1]` is read unguarded, so a single-token query throws. Every "a and b" or "a not b" query throws too, in its single-token sub-queries. | a document weighed for the query "cat", or for "cat and dog" | a single token weighs its frequency (0 when absent), as the method's documentation says; "and" takes the min and "not" the max of the sub-weights | not executed | BooleanEngine.PoidDocAsWrittenToken | BooleanEngine.PoidDocToken |
| src/BooleanSearchEngine.java:83-85 | `search` inserts each matching document into a tree set ordered by `ComparatorPoid`, which weighs it with `calculePoidDoc`. So every "and" or "not" search that matches a document throws. | terms "cat" and "dog" both post document 0; the search "cat and dog" | the matching documents are returned, ordered by weight | not executed | BooleanEngine.BooleanSearchEngine.Search | BooleanEngine.BooleanSearchEngine.SearchCorrected |
