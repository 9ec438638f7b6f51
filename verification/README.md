# Book passage analyzer, modelled in Dafny

The analyzer takes a passage of text and builds a short report. The report
holds two word counts (all words, and words that are not stopwords), a
coarse emotion label, up to three candidate books from a volumes search,
and an extractive summary. Its own logic is small, and this project models
it with the external parts passed in as inputs:

- `Emotion` holds the emotion classifier. It is a first-match-wins cascade
  of threshold comparisons over the four polarity scores (`pos`, `neg`,
  `neu`, `compound`) of a lexicon-based sentiment scorer. The scores are
  reals because only comparisons touch them. The thresholds are those of
  `Final_app.py`: 0.05 and -0.05 on the compound score, 0.5 for disgust,
  and 0.1 for both halves of the fear rule.
- `Text` holds Python's string operations that the analyzer relies on:
  `w in s` between strings (a substring test), `str.lower`, `str(n)` for
  a count, and `sep.join`.
- `WordCount` holds the two counters. Each is a list comprehension over
  the tokenizer's output. A token is dropped when it occurs in
  `string.punctuation` as a contiguous run, so `"()"` and `""` are dropped
  while `"--"` and `"word."` are counted. The stopword-free counter also
  drops tokens whose lower-case form is a stopword.
- `Books` holds the status check of the search, the `items[:3]` slice,
  and the title and author defaults.
- `Analyzer` assembles the report. `AnalyzeText` takes a `Services` value
  that holds the tokenizer, the stopword set, the sentiment scorer, the
  search request and the summarizer as function-typed fields.

Two facts about the classifier are proved rather than assumed. The fear
branch is dead code: it can only be reached when `pos == neg`, and then
`pos < 0.1 && neg > 0.1` cannot hold (`Emotion.FearUnreachable`). Disgust
is returned exactly when the compound score is in the dead zone, the two
proportions are equal, and `neg > 0.5`. The model keeps the cascade as
written and does not repair the dead branch.

Two details of the program decide edge cases:

- `word not in string.punctuation` (Final_app.py:67) is a substring test
  on one 32-character string, not a character-set test. The model uses
  the substring test.
- `item['volumeInfo']` (Final_app.py:125) has no default, so an item
  without it raises `KeyError`. `AnalyzeText` models this as
  `Failure(MissingVolumeInfo(i))`. The report lines built before it are
  lost, as they are when the exception escapes.

## Model

| member | source | states |
|---|---|---|
| Emotion.Classify | Final_app.py:82-95 | the cascade never returns `fear` |
| Emotion.ClassifyMatchesRegion | Final_app.py:82-95 | the label returned is exactly the one whose order-free region of score space holds the scores |
| Emotion.RegionsPartition | Final_app.py:82-95 | every score record lies in exactly one region, so the classifier is total and deterministic over the seven labels |
| Emotion.CompoundDecides | Final_app.py:82-85 | compound >= 0.05 gives joy whatever the proportions, otherwise compound <= -0.05 gives sadness, and each holds in both directions |
| Emotion.DeadZoneImbalance | Final_app.py:86-89 | with -0.05 < compound < 0.05, pos > neg gives surprise, neg > pos gives anger, and a tie gives disgust or neutral |
| Emotion.FearUnreachable | Final_app.py:90-93 | the fear region is empty and fear is never returned, because reaching its test needs pos == neg |
| Emotion.DisgustExactly | Final_app.py:86-91 | disgust is returned if and only if the compound is in the dead zone, pos == neg and neg > 0.5 |
| Emotion.NeutralExactly | Final_app.py:86-95 | neutral is returned if and only if the compound is in the dead zone, pos == neg and neg <= 0.5; all-zero scores give neutral |
| Emotion.Name | Final_app.py:83-95 | every label the classifier returns is spelled as a lower-case word of at least three letters |
| Emotion.Parse | Final_app.py:83-95 | a string that parses as a label is that label's spelling |
| Emotion.NameRoundTrip | Final_app.py:83-95 | each label's spelling parses back to the label, so no two labels share a spelling |
| Text.ContainsIsSubstring | Final_app.py:67 | the scan behind Python's `w in s` holds exactly when `w` occurs in `s` at some position |
| Text.Contains | Final_app.py:67 | `w in s` is true when `w` is a prefix of `s`, false when `w` is longer than `s`, and for equal lengths true exactly when the two are equal |
| Text.LowerIdempotent | Final_app.py:73 | lowering a token keeps its length, leaves no upper-case ASCII letter, and lowering twice changes nothing more |
| Text.Lower | Final_app.py:73 | `.lower()` keeps the length, turns each ASCII capital into its small letter, leaves every other character alone, and leaves no ASCII capital |
| Text.Decimal | Final_app.py:113-114 | a printed count is a non-empty run of decimal digits with no leading zero, so zero prints as the single digit 0 |
| Text.DecimalRoundTrip | Final_app.py:113-114 | reading a printed count's digits back gives the count |
| Text.JoinLength | Final_app.py:128 | a join of no parts is empty and of one part is that part; otherwise it starts with the first part and its length is all parts' lengths plus one separator per neighbouring pair |
| Text.JoinAppend | Final_app.py:128 | joining one more part appends a separator and then that part, so the parts appear in order with one separator between neighbours |
| Text.Join | Final_app.py:128 | `sep.join` of no parts is empty, of one part is that part, and of two or more starts with the first part and a separator |
| Text.JoinLast | Final_app.py:128 | a join of two or more parts is the join of all but the last, a separator, and the last part |
| WordCount.Filter | Final_app.py:67 | a comprehension keeps no more elements than it reads, every passing element exactly as often as it occurs, and no failing element |
| WordCount.IsWord | Final_app.py:67 | the condition `word not in string.punctuation` holds exactly when the token does not occur as a contiguous run of the punctuation string, so it never holds for the empty token |
| WordCount.Words | Final_app.py:67 | a token is kept if and only if it passes the punctuation test |
| WordCount.CountWords | Final_app.py:65-67 | the word count is at most the number of tokens |
| WordCount.CountWordsWithoutStopwords | Final_app.py:70-73 | the stopword-free count is at most the plain count for the same tokens |
| WordCount.IsContentWord | Final_app.py:73 | the stopword-free condition holds exactly when the lower-cased token is not a stopword and the token is not a contiguous run of the punctuation string |
| WordCount.FilterStrengthen | Final_app.py:73 | adding a conjunct to a comprehension's condition keeps no more elements |
| WordCount.WordsExcludePunctuation | Final_app.py:66-67 | a token is dropped exactly when it is a substring of the punctuation string, and the kept and dropped tokens add up to all tokens |
| WordCount.StopwordCountSplit | Final_app.py:70-73 | the plain count equals the stopword-free count plus the kept tokens whose lower-case form is a stopword; with no stopwords the two counts agree |
| WordCount.PunctuationIncreasing | Final_app.py:67 | the punctuation string has 32 characters in strictly increasing order, so none repeats |
| WordCount.ForeignCharIsWord | Final_app.py:67 | a token with a character not in the punctuation string is counted |
| WordCount.RepeatIsWord | Final_app.py:67 | a token with two equal adjacent characters is counted |
| WordCount.OccurringIsDropped | Final_app.py:67 | a token that sits in the punctuation string at some position is dropped |
| WordCount.SingleMarkDropped | Final_app.py:67 | a one-character punctuation token is dropped |
| WordCount.EmptyTokenDropped | Final_app.py:67 | the empty token is dropped |
| WordCount.BracketPairDropped | Final_app.py:67 | the token "()" is dropped although it is two characters long |
| WordCount.DashesCounted | Final_app.py:67 | the token "--" is counted although every character of it is punctuation |
| WordCount.TrailingStopCounted | Final_app.py:67 | the token "word." is counted whole |
| WordCount.SampleCount | Final_app.py:65-67 | the tokens Hello , world ! give a count of 2 |
| Books.SearchBooks | Final_app.py:57-62 | status 200 yields the decoded body and any other status yields nothing |
| Books.BookOfDefaults | Final_app.py:125-126 | a missing title becomes "No title found", a missing author list becomes the one-name placeholder list, and present values are kept |
| Books.BookOf | Final_app.py:125-126 | the title is the placeholder only when the title is missing or is the placeholder itself, and the author list is empty only when the item has an empty author list; a missing list gives one name |
| Books.ExtractAll | Final_app.py:124-128 | the loop yields one book per item in order, with defaults, and fails at the first item without `volumeInfo`, naming its index |
| Books.TakeFirst | Final_app.py:124 | the slice is the prefix of the items of length exactly min(3, n) |
| Books.BookEntries | Final_app.py:123-128 | a failed search gives no entries, at most 3 entries are produced, and a failure names one of the first 3 items |
| Books.BookEntriesInOrder | Final_app.py:123-128 | the entries are exactly the first min(3, n) items in their original order with defaults, and extraction fails if and only if one of them lacks `volumeInfo` |
| Analyzer.AllBookLines | Final_app.py:124-128 | each book entry yields a title line then an authors line, in entry order |
| Analyzer.BookLines | Final_app.py:127-128 | one book gives two lines: the title prefix followed by exactly the title, then the authors prefix and a line ending in a newline, which for a single author holds that name alone |
| Analyzer.Summary | Final_app.py:98-102 | the summary asks for 3 sentences and joins them with single spaces: empty for no sentences, otherwise starting with the first sentence, one character longer per extra sentence than their total length, and with two or more sentences the join of all but the last, one space, and the last sentence |
| Analyzer.AnalyzeText | Final_app.py:105-134 | a report has between 5 and 11 lines, an odd number, with the book header at position 3 |
| Analyzer.ReportLayout | Final_app.py:107-132 | the line order is total count, stopword-free count, emotion, book header, two lines per book in search order, summary |
| Analyzer.ReportCounts | Final_app.py:110-114 | the counts printed on the first two lines read back as the two counters' values, and the second is never larger |
| Analyzer.FailedSearchHasNoBooks | Final_app.py:121-132 | a non-200 search adds no book lines, but the header is still emitted and the summary follows it |
| Analyzer.AnalysisFailsOnlyOnMissingVolumeInfo | Final_app.py:123-125 | among the failures the model represents, the analysis raises if and only if the search returned 200 and one of the first 3 items has no `volumeInfo` |
| Analyzer.PlaceholderLines | Final_app.py:125-128 | an item with neither title nor authors prints "No title found" and "No authors found" |

## Left out

- The Streamlit interface (`main`, the `st.*` calls) is presentation and I/O. This includes the `st.error` message shown for a non-200 search.
- Creating the NLTK data directory and downloading its resources are filesystem and network side effects.
- Analyzer.AnalysisFailsOnlyOnMissingVolumeInfo: the "only if" direction covers only the failures the model represents. `search_books` can also raise, and the exception escapes `analyze_text` whatever the items are. It raises when `toml.load` finds no config file (Final_app.py:43), when the API key is absent (:44), when `requests.get` fails (:55), and when `response.json()` meets a 200 body that is not JSON (:58). The `search` field is total and always returns a decoded response, so none of these is represented.
- Loading the API key from the TOML file and sending the HTTP request are I/O. The request becomes the `search` field of `Services`, which returns a status and a decoded body.
- The sentiment scorer, the word tokenizer, the stopword list and the LSA summarizer are external libraries. They become the `polarity`, `tokenize`, `stopwords` and `summarize` fields of `Services`. The model passes the summarizer the sentence count 3 and joins its sentences with single spaces.
- Emotion.Classify: the scores and thresholds are exact reals. `analyze_emotion` compares binary floats with the double nearest 0.05, so a score within one rounding step of a threshold is not modelled.
- Text.Lower: only ASCII letters are lowered. Python's `str.lower` applies full Unicode case mapping, which is not modelled.
- Books.BookOf: JSON `null` values and values of the wrong type (a non-string title, a non-list author list, a non-object item) are not modelled. Only a present or an absent key is.
- `if books:` is false for an empty decoded body as well as for a failed search. An empty body has no `items` key, so both paths add no book lines, and the model does not represent the empty body separately.
