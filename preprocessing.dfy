/** The text preprocessor used before classification: lower-casing, removal of punctuation
    and digits, tokenization, stop-word removal with lemmatization, and joining with single
    spaces. Only ASCII case folding and ASCII digits are modelled; the tokenizer and the
    lemmatizer are functions the caller supplies, and the stop-word list is a set fixed at
    construction. */
module Preprocessing {
  import opened Common

  // ---------------------------------------------------------------------------
  // Steps 1-3: character-level clean-up

  /** A character of Python's `string.punctuation`: the printable ASCII characters that are
      neither letters, digits nor the space. */
  predicate IsPunctuation(c: char)
  {
    ('!' <= c <= '/') || (':' <= c <= '@') || ('[' <= c <= '`') || ('{' <= c <= '~')
  }

  predicate NotPunctuation(c: char) { !IsPunctuation(c) }

  predicate NotDigit(c: char) { !IsDigit(c) }

  /** `text.translate(str.maketrans('', '', string.punctuation))`. */
  function RemovePunctuation(s: string): (r: string)
    ensures forall k :: 0 <= k < |r| ==> !IsPunctuation(r[k])
    ensures forall c :: c in r <==> c in s && !IsPunctuation(c)
    ensures forall c :: c in s ==> multiset(r)[c] == if IsPunctuation(c) then 0 else multiset(s)[c]
    ensures IsSubsequence(r, s)
  {
    Filter(s, NotPunctuation)
  }

  /** `re.sub(r'\d+', '', text)`: every run of digits, hence every digit, removed. */
  function RemoveDigits(s: string): (r: string)
    ensures forall k :: 0 <= k < |r| ==> !IsDigit(r[k])
    ensures forall c :: c in r <==> c in s && !IsDigit(c)
    ensures forall c :: c in s ==> multiset(r)[c] == if IsDigit(c) then 0 else multiset(s)[c]
    ensures IsSubsequence(r, s)
  {
    Filter(s, NotDigit)
  }

  /** Steps 1-3 in their order. */
  function Normalize(text: string): string
  {
    RemoveDigits(RemovePunctuation(AsciiLower(text)))
  }

  /** After steps 1-3 no upper-case letter, punctuation character or digit is left, and every
      occurrence of any other character of the lower-cased text survives. */
  lemma NormalizedIsClean(text: string)
    ensures forall k :: 0 <= k < |Normalize(text)| ==>
              var c := Normalize(text)[k];
              !IsAsciiUpper(c) && !IsPunctuation(c) && !IsDigit(c)
    ensures forall c :: c in AsciiLower(text) && !IsPunctuation(c) && !IsDigit(c) ==>
              multiset(Normalize(text))[c] == multiset(AsciiLower(text))[c]
  {
    var lowered := AsciiLower(text);
    forall k | 0 <= k < |Normalize(text)|
      ensures !IsAsciiUpper(Normalize(text)[k])
    {
      var c := Normalize(text)[k];
      assert c in RemovePunctuation(lowered);
      assert c in lowered;
      var j :| 0 <= j < |lowered| && lowered[j] == c;
    }
  }

  /** Lower-casing a text with no upper-case letter leaves it as it is. */
  lemma {:induction false} LowerNoUpper(s: string)
    requires forall k :: 0 <= k < |s| ==> !IsAsciiUpper(s[k])
    ensures AsciiLower(s) == s
  {
    if s != [] {
      LowerNoUpper(s[1..]);
    }
  }

  /** Filtering a sequence all of whose elements pass leaves it as it is. */
  lemma {:induction false} FilterKeepsAll<T>(s: seq<T>, keep: T -> bool)
    requires forall k :: 0 <= k < |s| ==> keep(s[k])
    ensures Filter(s, keep) == s
  {
    if s != [] {
      FilterKeepsAll(s[1..], keep);
    }
  }

  /** Steps 1-3 are idempotent. */
  lemma NormalizeIdempotent(text: string)
    ensures Normalize(Normalize(text)) == Normalize(text)
  {
    var n := Normalize(text);
    NormalizedIsClean(text);
    LowerNoUpper(n);
    FilterKeepsAll(n, NotPunctuation);
    FilterKeepsAll(n, NotDigit);
  }

  // ---------------------------------------------------------------------------
  // Step 5: stop-word removal and lemmatization

  /** The lemmas of the tokens that are not stop words, in token order. */
  function KeptLemmas(tokens: seq<string>, stopWords: set<string>, lemmatize: string -> string): (r: seq<string>)
    ensures |r| <= |tokens|
  {
    if tokens == [] then []
    else
      var init := KeptLemmas(tokens[..|tokens| - 1], stopWords, lemmatize);
      var last := tokens[|tokens| - 1];
      if last in stopWords then init else init + [lemmatize(last)]
  }

  /** The positions of the tokens that are not stop words, in increasing order. */
  function KeptPositions(tokens: seq<string>, stopWords: set<string>): seq<nat>
  {
    if tokens == [] then []
    else
      var init := KeptPositions(tokens[..|tokens| - 1], stopWords);
      if tokens[|tokens| - 1] in stopWords then init else init + [|tokens| - 1]
  }

  /** The kept lemmas are, in order, the lemmas of exactly the tokens that are not stop
      words: stop words are dropped, every other token is kept, and order is preserved. */
  lemma {:induction false} KeptLemmasAreNonStopTokens(tokens: seq<string>, stopWords: set<string>, lemmatize: string -> string)
    ensures var r := KeptLemmas(tokens, stopWords, lemmatize);
            var pos := KeptPositions(tokens, stopWords);
            && |pos| == |r|
            && (forall k :: 0 <= k < |pos| ==> pos[k] < |tokens| && tokens[pos[k]] !in stopWords)
            && (forall k :: 0 <= k < |pos| ==> r[k] == lemmatize(tokens[pos[k]]))
            && (forall k, l :: 0 <= k < l < |pos| ==> pos[k] < pos[l])
            && (forall j :: 0 <= j < |tokens| && tokens[j] !in stopWords ==> j in pos)
  {
    if tokens != [] {
      var init := tokens[..|tokens| - 1];
      KeptLemmasAreNonStopTokens(init, stopWords, lemmatize);
      var pos := KeptPositions(tokens, stopWords);
      var pos0 := KeptPositions(init, stopWords);
      assert forall j :: 0 <= j < |init| ==> init[j] == tokens[j];
      forall j | 0 <= j < |tokens| && tokens[j] !in stopWords
        ensures j in pos
      {
        if j < |init| {
          assert j in pos0;
        }
      }
    }
  }

  /** With no stop word among the tokens, every token's lemma is kept. */
  lemma {:induction false} NoStopWordsKeepsAll(tokens: seq<string>, stopWords: set<string>, lemmatize: string -> string)
    requires forall k :: 0 <= k < |tokens| ==> tokens[k] !in stopWords
    ensures |KeptLemmas(tokens, stopWords, lemmatize)| == |tokens|
    ensures forall k :: 0 <= k < |tokens| ==> KeptLemmas(tokens, stopWords, lemmatize)[k] == lemmatize(tokens[k])
  {
    if tokens != [] {
      NoStopWordsKeepsAll(tokens[..|tokens| - 1], stopWords, lemmatize);
    }
  }

  // ---------------------------------------------------------------------------
  // Step 6: joining with single spaces, and reading the words back

  /** Python's `s.split(sep)` for a one-character separator: always at least one part. */
  function SplitOn(s: string, sep: char): (parts: seq<string>)
    ensures |parts| >= 1
  {
    if s == [] then [""]
    else
      var rest := SplitOn(s[1..], sep);
      if s[0] == sep then [""] + rest else [[s[0]] + rest[0]] + rest[1..]
  }

  /** A text without the separator splits into itself. */
  lemma {:induction false} SplitWithoutSeparator(s: string, sep: char)
    requires sep !in s
    ensures SplitOn(s, sep) == [s]
  {
    if s != [] {
      SplitWithoutSeparator(s[1..], sep);
      assert [s[0]] + s[1..] == s;
    }
  }

  /** A separator-free first part followed by the separator splits off as one part. */
  lemma {:induction false} SplitAfterPart(p: string, sep: char, rest: string)
    requires sep !in p
    ensures SplitOn(p + [sep] + rest, sep) == [p] + SplitOn(rest, sep)
  {
    if p == [] {
      assert p + [sep] + rest == [sep] + rest;
    } else {
      assert (p + [sep] + rest)[1..] == p[1..] + [sep] + rest;
      SplitAfterPart(p[1..], sep, rest);
      var tail := SplitOn(p[1..] + [sep] + rest, sep);
      assert tail[0] == p[1..] && tail[1..] == SplitOn(rest, sep);
      assert [p[0]] + p[1..] == p;
    }
  }

  /** Splitting a join at its separator gives back the parts, when no part holds the
      separator. */
  lemma {:induction false} JoinSplitRoundTrip(parts: seq<string>, sep: char)
    requires |parts| >= 1
    requires forall k :: 0 <= k < |parts| ==> sep !in parts[k]
    ensures SplitOn(Join(parts, [sep]), sep) == parts
  {
    if |parts| == 1 {
      SplitWithoutSeparator(parts[0], sep);
    } else {
      JoinSplitRoundTrip(parts[1..], sep);
      SplitAfterPart(parts[0], sep, Join(parts[1..], [sep]));
    }
  }

  // ---------------------------------------------------------------------------
  // The preprocessor

  class TextPreprocessor {
    const stopWords: set<string>
    const lemmatize: string -> string

    /** The stop-word list and the lemmatizer are fixed once, at construction. */
    constructor (stopWords: set<string>, lemmatize: string -> string)
      ensures this.stopWords == stopWords && this.lemmatize == lemmatize
    {
      this.stopWords := stopWords;
      this.lemmatize := lemmatize;
    }

    /** The preprocessed text: the kept lemmas of the tokens of the normalized text, joined
        with single spaces. */
    method Preprocess(text: string, tokenize: string -> seq<string>) returns (out: string)
      ensures out == Join(KeptLemmas(tokenize(Normalize(text)), stopWords, lemmatize), " ")
    {
      var t := AsciiLower(text);
      t := RemovePunctuation(t);
      t := RemoveDigits(t);
      var tokens := tokenize(t);
      var processed: seq<string> := [];
      var i := 0;
      while i < |tokens|
        invariant 0 <= i <= |tokens|
        invariant processed == KeptLemmas(tokens[..i], stopWords, lemmatize)
      {
        var word := tokens[i];
        assert tokens[..i + 1][..i] == tokens[..i];
        if word !in stopWords {
          processed := processed + [lemmatize(word)];
        }
        i := i + 1;
      }
      assert tokens[..|tokens|] == tokens;
      out := Join(processed, " ");
    }
  }

  /** When some token is kept and no lemma holds a space, the words of the output, split at
      spaces, are the kept lemmas in order. */
  lemma OutputWords(tokens: seq<string>, stopWords: set<string>, lemmatize: string -> string)
    requires KeptLemmas(tokens, stopWords, lemmatize) != []
    requires forall k :: 0 <= k < |tokens| ==> ' ' !in lemmatize(tokens[k])
    ensures SplitOn(Join(KeptLemmas(tokens, stopWords, lemmatize), " "), ' ') == KeptLemmas(tokens, stopWords, lemmatize)
  {
    var r := KeptLemmas(tokens, stopWords, lemmatize);
    KeptLemmasAreNonStopTokens(tokens, stopWords, lemmatize);
    var pos := KeptPositions(tokens, stopWords);
    assert forall k :: 0 <= k < |r| ==> r[k] == lemmatize(tokens[pos[k]]);
    JoinSplitRoundTrip(r, ' ');
  }
}
