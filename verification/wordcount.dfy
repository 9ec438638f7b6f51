/**
 The two word counters. Both keep the tokens of the external word tokenizer
 that pass a filter and count them; the stopword-free counter adds one
 conjunct to the plain counter's filter. The token sequence and the stopword
 set are inputs.
 */
module WordCount {
  import opened Text

  /** Python's `string.punctuation`: the 32 ASCII punctuation characters in
      code-point order. `count_words` tests tokens against it with `in`, i.e.
      as a substring test on this one string. */
  const Punctuation: string := "!\"#$%&'()*+,-./:;<=>?@[\\]^_`{|}~"

  /** A token the counters keep: one that is not a substring of the
      punctuation string. */
  predicate IsWord(t: string)
    ensures IsWord(t) <==> !IsSubstring(t, Punctuation)
    ensures IsWord(t) ==> t != ""
  {
    ContainsIsSubstring(Punctuation, t);
    !Contains(Punctuation, t)
  }

  /** A token the counters drop. */
  predicate IsPunctuationToken(t: string) {
    Contains(Punctuation, t)
  }

  /** A kept token whose lower-case form is not a stopword. */
  predicate IsContentWord(stopwords: set<string>, t: string)
    ensures IsContentWord(stopwords, t) ==> IsWord(t) && t != ""
    ensures IsContentWord(stopwords, t) <==> Lower(t) !in stopwords && !IsSubstring(t, Punctuation)
  {
    Lower(t) !in stopwords && IsWord(t)
  }

  /** The filter of the stopword-free counter, as a function value. */
  function ContentWordFilter(stopwords: set<string>): string -> bool {
    t => IsContentWord(stopwords, t)
  }

  /** The filter that picks the kept tokens the stopword-free counter drops. */
  function StopwordFilter(stopwords: set<string>): string -> bool {
    t => Lower(t) in stopwords && IsWord(t)
  }

  /** A list comprehension `[x for x in xs if p(x)]`: the elements that
      pass, each as often as it occurs in `xs`. */
  function Filter<T(!new)>(p: T -> bool, xs: seq<T>): (ys: seq<T>)
    ensures |ys| <= |xs|
    ensures forall y :: y in ys ==> y in xs && p(y)
    ensures forall i :: 0 <= i < |xs| && p(xs[i]) ==> xs[i] in ys
    ensures forall x {:trigger multiset(ys)[x]} :: p(x) ==> multiset(ys)[x] == multiset(xs)[x]
    ensures forall x {:trigger multiset(ys)[x]} :: !p(x) ==> multiset(ys)[x] == 0
  {
    if |xs| == 0 then []
    else
      assert xs == [xs[0]] + xs[1..];
      (if p(xs[0]) then [xs[0]] else []) + Filter(p, xs[1..])
  }

  /** The kept tokens. */
  function Words(tokens: seq<string>): (ws: seq<string>)
    ensures forall i :: 0 <= i < |tokens| ==> (tokens[i] in ws <==> IsWord(tokens[i]))
  {
    Filter(IsWord, tokens)
  }

  /** `count_words`: the number of tokens that are not substrings of the
      punctuation string. */
  function CountWords(tokens: seq<string>): (n: nat)
    ensures n <= |tokens|
  {
    |Words(tokens)|
  }

  /** `count_words_without_stopwords`: the number of kept tokens whose
      lower-case form is not in the stopword set. */
  function CountWordsWithoutStopwords(tokens: seq<string>, stopwords: set<string>): (n: nat)
    ensures n <= CountWords(tokens)
  {
    FilterStrengthen(ContentWordFilter(stopwords), IsWord, tokens);
    |Filter(ContentWordFilter(stopwords), tokens)|
  }

  /** A filter with an extra conjunct keeps no more elements. */
  lemma {:induction false} FilterStrengthen<T(!new)>(q: T -> bool, p: T -> bool, xs: seq<T>)
    requires forall x :: q(x) ==> p(x)
    ensures |Filter(q, xs)| <= |Filter(p, xs)|
  {
    if |xs| > 0 {
      FilterStrengthen(q, p, xs[1..]);
    }
  }

  /** Filtering by `p` keeps as many elements as filtering by each of two
      disjoint predicates whose union is `p`. */
  lemma {:induction false} FilterSplit<T(!new)>(p: T -> bool, q: T -> bool, r: T -> bool, xs: seq<T>)
    requires forall x :: p(x) <==> q(x) || r(x)
    requires forall x :: !(q(x) && r(x))
    ensures |Filter(p, xs)| == |Filter(q, xs)| + |Filter(r, xs)|
  {
    if |xs| > 0 {
      FilterSplit(p, q, r, xs[1..]);
    }
  }

  /** Filtering by `p` and by its negation shares the elements out. */
  lemma {:induction false} FilterComplement<T(!new)>(p: T -> bool, q: T -> bool, xs: seq<T>)
    requires forall x :: q(x) <==> !p(x)
    ensures |Filter(p, xs)| + |Filter(q, xs)| == |xs|
  {
    if |xs| > 0 {
      FilterComplement(p, q, xs[1..]);
    }
  }

  /** The plain counter drops exactly the tokens that occur in the
      punctuation string as a contiguous run, and counts all others. */
  lemma WordsExcludePunctuation(tokens: seq<string>)
    ensures forall i :: 0 <= i < |tokens| ==>
      (tokens[i] in Words(tokens) <==> !IsSubstring(tokens[i], Punctuation))
    ensures CountWords(tokens) + |Filter(IsPunctuationToken, tokens)| == |tokens|
  {
    forall i | 0 <= i < |tokens| {
      ContainsIsSubstring(Punctuation, tokens[i]);
    }
    FilterComplement(IsWord, IsPunctuationToken, tokens);
  }

  /** The stopword-free count is the plain count less the kept tokens whose
      lower-case form is a stopword; with no stopwords the counts agree. */
  lemma StopwordCountSplit(tokens: seq<string>, stopwords: set<string>)
    ensures CountWords(tokens)
         == CountWordsWithoutStopwords(tokens, stopwords) + |Filter(StopwordFilter(stopwords), tokens)|
    ensures stopwords == {} ==> CountWordsWithoutStopwords(tokens, stopwords) == CountWords(tokens)
  {
    FilterSplit(IsWord, ContentWordFilter(stopwords), StopwordFilter(stopwords), tokens);
    if stopwords == {} {
      FilterStrengthen(StopwordFilter(stopwords), t => false, tokens);
      EmptyFilter(tokens);
    }
  }

  lemma {:induction false} EmptyFilter<T(!new)>(xs: seq<T>)
    ensures |Filter(x => false, xs)| == 0
  {
    if |xs| > 0 {
      EmptyFilter(xs[1..]);
    }
  }

  /** The punctuation string lists its characters in strictly increasing
      code-point order, so none of them occurs twice. */
  lemma PunctuationIncreasing()
    ensures |Punctuation| == 32
    ensures Punctuation[0] == '!' && Punctuation[7] == '(' && Punctuation[8] == ')'
    ensures Punctuation[11] == ',' && Punctuation[12] == '-'
    ensures forall i :: 0 <= i < |Punctuation| - 1 ==> Punctuation[i] < Punctuation[i + 1]
  {
  }

  /** A token with a character the punctuation string lacks is a word. */
  lemma ForeignCharIsWord(t: string, k: nat)
    requires k < |t| && t[k] !in Punctuation
    ensures IsWord(t)
  {
    ContainsIsSubstring(Punctuation, t);
    forall i | 0 <= i && i + |t| <= |Punctuation|
      ensures !OccursAt(t, Punctuation, i)
    {
      assert Punctuation[i..i + |t|][k] in Punctuation;
    }
  }

  /** A token that repeats a character in two adjacent places is a word. */
  lemma RepeatIsWord(t: string, k: nat)
    requires k + 1 < |t| && t[k] == t[k + 1]
    ensures IsWord(t)
  {
    ContainsIsSubstring(Punctuation, t);
    PunctuationIncreasing();
    forall i | 0 <= i && i + |t| <= |Punctuation|
      ensures !OccursAt(t, Punctuation, i)
    {
      assert Punctuation[i..i + |t|][k] == Punctuation[i + k];
      assert Punctuation[i..i + |t|][k + 1] == Punctuation[i + k + 1];
    }
  }

  /** A token occurring in the punctuation string is dropped. */
  lemma OccurringIsDropped(t: string, i: nat)
    requires OccursAt(t, Punctuation, i)
    ensures !IsWord(t)
  {
    ContainsIsSubstring(Punctuation, t);
  }

  /** A token made of one punctuation character is dropped. */
  lemma SingleMarkDropped(c: char)
    requires c in Punctuation
    ensures !IsWord([c])
  {
    var i :| 0 <= i < |Punctuation| && Punctuation[i] == c;
    assert Punctuation[i..i + 1] == [c];
    OccurringIsDropped([c], i);
  }

  /** The empty token is dropped: it occurs in every string. */
  lemma EmptyTokenDropped()
    ensures !IsWord("")
  {
    assert Punctuation[0..0] == "";
    OccurringIsDropped("", 0);
  }

  /** A bracket pair is dropped: it sits in the punctuation string as a
      contiguous run. */
  lemma BracketPairDropped()
    ensures !IsWord("()")
  {
    PunctuationIncreasing();
    assert Punctuation[7..9] == "()";
    OccurringIsDropped("()", 7);
  }

  /** A doubled dash is counted as a word. */
  lemma DashesCounted()
    ensures IsWord("--")
  {
    RepeatIsWord("--", 0);
  }

  /** A word with a trailing full stop is counted whole. */
  lemma TrailingStopCounted()
    ensures IsWord("word.")
  {
    assert 'w' !in Punctuation;
    ForeignCharIsWord("word.", 0);
  }

  function Indicator(b: bool): nat {
    if b then 1 else 0
  }

  /** Counting four tokens adds up, token by token, whether each is a word. */
  lemma CountFour(a: string, b: string, c: string, d: string)
    ensures CountWords([a, b, c, d])
         == Indicator(IsWord(a)) + Indicator(IsWord(b)) + Indicator(IsWord(c)) + Indicator(IsWord(d))
  {
    var xs := [a, b, c, d];
    assert xs[1..] == [b, c, d];
    assert xs[1..][1..] == [c, d];
    assert xs[1..][1..][1..] == [d];
    assert xs[1..][1..][1..][1..] == [];
    FilterCount(IsWord, xs);
    FilterCount(IsWord, xs[1..]);
    FilterCount(IsWord, xs[1..][1..]);
    FilterCount(IsWord, xs[1..][1..][1..]);
  }

  /** Filtering a non-empty sequence counts its head once when it passes. */
  lemma FilterCount<T(!new)>(p: T -> bool, xs: seq<T>)
    requires |xs| > 0
    ensures |Filter(p, xs)| == Indicator(p(xs[0])) + |Filter(p, xs[1..])|
  {
  }

  /** The tokens of "Hello, world!" hold two words. */
  lemma SampleCount()
    ensures CountWords(["Hello", ",", "world", "!"]) == 2
  {
    assert ',' in Punctuation && '!' in Punctuation;
    assert 'H' !in Punctuation && 'w' !in Punctuation;
    SingleMarkDropped(',');
    SingleMarkDropped('!');
    ForeignCharIsWord("Hello", 0);
    ForeignCharIsWord("world", 0);
    CountFour("Hello", ",", "world", "!");
  }
}
