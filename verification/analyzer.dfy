/**
 `analyze_text`: the report a passage produces, line by line. The tokenizer,
 the stopword list, the sentiment scorer, the HTTP search and the
 extractive summarizer are external capabilities, gathered in `Services`.
 */
module Analyzer {
  import opened Wrappers
  import opened Text
  import Emotion
  import WordCount
  import Books

  /** The external capabilities one analysis draws on. */
  datatype Services = Services(
    tokenize: string -> seq<string>,            // the word tokenizer
    stopwords: set<string>,                     // the English stopword list
    polarity: string -> Emotion.Scores,         // the sentiment scorer
    search: string -> Books.Response,           // the volumes search request
    summarize: (string, nat) -> seq<string>)    // the summarizer: passage, sentence count

  /** Why an analysis raises instead of returning its report: the taken
      search item at this index has no `volumeInfo`. */
  datatype AnalysisError = MissingVolumeInfo(index: nat)

  /** The number of sentences the summary asks for. */
  const SummarySentences: nat := 3

  const TotalPrefix: string := "Total number of words: "
  const ContentPrefix: string := "Total number of words (without stopwords): "
  const EmotionPrefix: string := "Predominant emotion: "
  const BooksHeader: string := "Possible books the passage might be from:"
  const TitlePrefix: string := "- Title: "
  const AuthorsPrefix: string := "  Authors: "
  const SummaryPrefix: string := "Summary:\n"

  /** `summarize_with_lsa`: the summarizer is asked for three sentences,
      which are joined by single spaces. */
  function Summary(svc: Services, passage: string): (s: string)
    ensures var sentences := svc.summarize(passage, SummarySentences);
            && (|sentences| == 0 ==> s == "")
            && (|sentences| >= 1 ==> sentences[0] <= s)
            && (|sentences| >= 1 ==> |s| == TotalLength(sentences) + |sentences| - 1)
            && (|sentences| >= 2 ==>
                  s == Join(sentences[..|sentences| - 1], " ") + " " + sentences[|sentences| - 1])
  {
    var sentences := svc.summarize(passage, SummarySentences);
    JoinLength(sentences, " ");
    JoinLast(sentences, " ");
    Join(sentences, " ")
  }

  /** The two lines of one book entry. */
  function BookLines(b: Books.Book): (lines: seq<string>)
    ensures |lines| == 2
    ensures TitlePrefix <= lines[0] && lines[0][|TitlePrefix|..] == b.title
    ensures AuthorsPrefix <= lines[1] && lines[1][|lines[1]| - 1] == '\n'
    ensures |b.authors| == 1 ==> lines[1][|AuthorsPrefix|..] == b.authors[0] + "\n"
  {
    [TitlePrefix + b.title, AuthorsPrefix + Join(b.authors, ", ") + "\n"]
  }

  /** The lines of all book entries, two per entry, in entry order. */
  function AllBookLines(books: seq<Books.Book>): (lines: seq<string>)
    ensures |lines| == 2 * |books|
    ensures forall i :: 0 <= i < |books| ==> lines[2 * i] == TitlePrefix + books[i].title
    ensures forall i :: 0 <= i < |books| ==>
      lines[2 * i + 1] == AuthorsPrefix + Join(books[i].authors, ", ") + "\n"
  {
    if |books| == 0 then [] else BookLines(books[0]) + AllBookLines(books[1..])
  }

  /** `analyze_text`: the two counts, the emotion, the book header, the
      book entries and the summary, in that order; it raises when a taken
      search item has no `volumeInfo`. */
  function AnalyzeText(svc: Services, passage: string): (r: Result<seq<string>, AnalysisError>)
    ensures r.Success? ==> 5 <= |r.value| <= 5 + 2 * Books.MaxBooks && |r.value| % 2 == 1
    ensures r.Success? ==> r.value[3] == BooksHeader
  {
    var tokens := svc.tokenize(passage);
    var total := WordCount.CountWords(tokens);
    var content := WordCount.CountWordsWithoutStopwords(svc.tokenize(passage), svc.stopwords);
    var emotion := Emotion.Classify(svc.polarity(passage));
    var head := [
      TotalPrefix + Decimal(total),
      ContentPrefix + Decimal(content),
      EmotionPrefix + Emotion.Name(emotion) + "\n",
      BooksHeader];
    match Books.BookEntries(Books.SearchBooks(svc.search(passage)))
    case Failure(i) => Failure(MissingVolumeInfo(i))
    case Success(books) =>
      Success(head + AllBookLines(books) + [SummaryPrefix + Summary(svc, passage) + "\n"])
  }

  /** The report's layout: the counts, the emotion and the header come
      first, then two lines per book entry in the order of the search items,
      and the summary last. */
  lemma ReportLayout(svc: Services, passage: string)
    requires AnalyzeText(svc, passage).Success?
    ensures var lines := AnalyzeText(svc, passage).value;
            var tokens := svc.tokenize(passage);
            var books := Books.BookEntries(Books.SearchBooks(svc.search(passage))).value;
            && |lines| == 5 + 2 * |books|
            && lines[0] == TotalPrefix + Decimal(WordCount.CountWords(tokens))
            && lines[1] == ContentPrefix + Decimal(WordCount.CountWordsWithoutStopwords(tokens, svc.stopwords))
            && lines[2] == EmotionPrefix + Emotion.Name(Emotion.Classify(svc.polarity(passage))) + "\n"
            && lines[3] == BooksHeader
            && (forall i :: 0 <= i < |books| ==> lines[4 + 2 * i] == TitlePrefix + books[i].title)
            && (forall i :: 0 <= i < |books| ==>
                  lines[5 + 2 * i] == AuthorsPrefix + Join(books[i].authors, ", ") + "\n")
            && lines[|lines| - 1] == SummaryPrefix + Summary(svc, passage) + "\n"
  {
  }

  /** The counts printed in the report read back as the counters' values,
      and the stopword-free one is never the larger. */
  lemma ReportCounts(svc: Services, passage: string)
    requires AnalyzeText(svc, passage).Success?
    ensures var lines := AnalyzeText(svc, passage).value;
            var tokens := svc.tokenize(passage);
            && TotalPrefix <= lines[0] && ContentPrefix <= lines[1]
            && ParseDecimal(lines[0][|TotalPrefix|..]) == WordCount.CountWords(tokens)
            && ParseDecimal(lines[1][|ContentPrefix|..]) == WordCount.CountWordsWithoutStopwords(tokens, svc.stopwords)
            && ParseDecimal(lines[1][|ContentPrefix|..]) <= ParseDecimal(lines[0][|TotalPrefix|..])
  {
    var lines := AnalyzeText(svc, passage).value;
    var tokens := svc.tokenize(passage);
    var total := WordCount.CountWords(tokens);
    var content := WordCount.CountWordsWithoutStopwords(tokens, svc.stopwords);
    assert lines[0][|TotalPrefix|..] == Decimal(total);
    assert lines[1][|ContentPrefix|..] == Decimal(content);
    DecimalRoundTrip(total);
    DecimalRoundTrip(content);
  }

  /** A search with any status but 200 adds no book lines: the header is
      still printed and the summary follows it directly. */
  lemma FailedSearchHasNoBooks(svc: Services, passage: string)
    requires svc.search(passage).status != Books.StatusOk
    ensures AnalyzeText(svc, passage).Success?
    ensures var lines := AnalyzeText(svc, passage).value;
            |lines| == 5 && lines[3] == BooksHeader
            && lines[4] == SummaryPrefix + Summary(svc, passage) + "\n"
  {
  }

  /** The analysis raises exactly when the search succeeds and one of the
      first three items has no `volumeInfo`. */
  lemma AnalysisFailsOnlyOnMissingVolumeInfo(svc: Services, passage: string)
    ensures var response := svc.search(passage);
            var items := response.body.items.GetOr([]);
            AnalyzeText(svc, passage).Failure? <==>
              response.status == Books.StatusOk
              && exists i :: 0 <= i < |items| && i < Books.MaxBooks && items[i].volumeInfo.None?
  {
    Books.BookEntriesInOrder(svc.search(passage).body);
  }

  /** A book entry with neither title nor authors prints the two
      placeholders. */
  lemma PlaceholderLines(v: Books.VolumeInfo)
    requires v.title.None? && v.authors.None?
    ensures BookLines(Books.BookOf(v))
         == [TitlePrefix + Books.NoTitle, AuthorsPrefix + Books.NoAuthors + "\n"]
  {
  }
}
