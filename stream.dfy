/** The word-streaming effect of the description page: `stream_data` splits
    the description on single spaces and yields each piece followed by one
    space. The delay between pieces and the widget that renders them are not
    modelled. */
module Stream {

  /** The number of occurrences of `c` in `s`. */
  function Count(s: string, c: char): nat
  {
    if |s| == 0 then 0 else (if s[0] == c then 1 else 0) + Count(s[1..], c)
  }

  /** Python's `str.split(" ")`: cut at every single space, keeping empty
      pieces, so that "" splits into [""]. */
  function Split(s: string): (pieces: seq<string>)
    ensures |pieces| >= 1
  {
    if |s| == 0 then [""]
    else if s[0] == ' ' then [""] + Split(s[1..])
    else
      var rest := Split(s[1..]);
      [[s[0]] + rest[0]] + rest[1..]
  }

  /** Python's `" ".join(pieces)`, the inverse of `Split`. */
  function Join(pieces: seq<string>): string
    requires |pieces| >= 1
  {
    if |pieces| == 1 then pieces[0] else pieces[0] + " " + Join(pieces[1..])
  }

  /** The concatenation of a sequence of strings. */
  function Concat(parts: seq<string>): string
  {
    if |parts| == 0 then "" else parts[0] + Concat(parts[1..])
  }

  /** The specification of the loop in `StreamData`: for a list of words, the
      chunks it yields are each word followed by a space. Not a separate
      construct of the page. */
  function Chunks(words: seq<string>): (chunks: seq<string>)
    ensures |chunks| == |words|
  {
    seq(|words|, k requires 0 <= k < |words| => words[k] + " ")
  }

  /** No piece of a split contains a space. */
  lemma {:induction false} SplitSpaceFree(s: string)
    ensures forall k :: 0 <= k < |Split(s)| ==> ' ' !in Split(s)[k]
  {
    if |s| > 0 {
      SplitSpaceFree(s[1..]);
    }
  }

  /** There is one more piece than there are spaces. */
  lemma {:induction false} SplitCount(s: string)
    ensures |Split(s)| == Count(s, ' ') + 1
  {
    if |s| > 0 {
      SplitCount(s[1..]);
    }
  }

  /** Joining the pieces with single spaces gives back the string. */
  lemma {:induction false} JoinSplit(s: string)
    ensures Join(Split(s)) == s
  {
    if |s| > 0 {
      JoinSplit(s[1..]);
      var rest := Split(s[1..]);
      if s[0] != ' ' && |rest| > 1 {
        assert rest == [rest[0]] + rest[1..];
        assert Join(rest) == rest[0] + " " + Join(rest[1..]);
      }
      assert s == [s[0]] + s[1..];
    }
  }

  /** A space-free string splits into itself. */
  lemma {:induction false} SplitWord(w: string)
    requires ' ' !in w
    ensures Split(w) == [w]
  {
    if |w| > 0 {
      assert ' ' !in w[1..] by { assert forall k :: 0 <= k < |w[1..]| ==> w[1..][k] == w[k + 1]; }
      SplitWord(w[1..]);
      assert w == [w[0]] + w[1..];
    }
  }

  /** Splitting at the first space: a space-free word, a space and the rest. */
  lemma {:induction false} SplitWordThenRest(w: string, t: string)
    requires ' ' !in w
    ensures Split(w + " " + t) == [w] + Split(t)
  {
    if |w| == 0 {
      assert w + " " + t == [' '] + t;
      assert (w + " " + t)[1..] == t;
    } else {
      assert ' ' !in w[1..] by { assert forall k :: 0 <= k < |w[1..]| ==> w[1..][k] == w[k + 1]; }
      SplitWordThenRest(w[1..], t);
      assert (w + " " + t)[1..] == w[1..] + " " + t;
      assert [w[0]] + w[1..] == w;
    }
  }

  /** Splitting a join of space-free words gives back the words. */
  lemma {:induction false} SplitJoin(words: seq<string>)
    requires |words| >= 1
    requires forall k :: 0 <= k < |words| ==> ' ' !in words[k]
    ensures Split(Join(words)) == words
  {
    if |words| == 1 {
      SplitWord(words[0]);
    } else {
      SplitJoin(words[1..]);
      SplitWordThenRest(words[0], Join(words[1..]));
      assert words == [words[0]] + words[1..];
    }
  }

  /** The chunks of a list of words concatenate to the words, each followed
      by a space. */
  lemma {:induction false} ConcatChunksCons(words: seq<string>)
    requires |words| >= 1
    ensures Concat(Chunks(words)) == words[0] + " " + Concat(Chunks(words[1..]))
  {
    assert Chunks(words)[1..] == Chunks(words[1..]);
  }

  /** Streaming the split description and concatenating the chunks gives the
      description plus one trailing space. */
  lemma {:induction false} ConcatChunksOfSplit(s: string)
    ensures Concat(Chunks(Split(s))) == s + " "
  {
    if |s| == 0 {
      var ch := Chunks(Split(s));
      assert |ch| == 1 && ch[0] == " ";
      assert Concat(ch) == " " + Concat(ch[1..]);
    } else {
      ConcatChunksOfSplit(s[1..]);
      var rest := Split(s[1..]);
      ConcatChunksCons(Split(s));
      if s[0] == ' ' {
        assert Split(s) == [""] + rest;
        assert Split(s)[1..] == rest;
      } else {
        ConcatChunksCons(rest);
        assert Split(s) == [[s[0]] + rest[0]] + rest[1..];
        calc {
          Concat(Chunks(Split(s)));
          ([s[0]] + rest[0]) + " " + Concat(Chunks(rest[1..]));
          [s[0]] + (rest[0] + " " + Concat(Chunks(rest[1..])));
          [s[0]] + Concat(Chunks(rest));
          [s[0]] + (s[1..] + " ");
        }
      }
      assert s == [s[0]] + s[1..];
    }
  }

  /** `stream_data`: the `for` loop over `description.split(" ")` that
      yields `word + " "` for each word, collected in the order yielded. */
  method StreamData(description: string) returns (chunks: seq<string>)
    ensures |chunks| == |Split(description)| == Count(description, ' ') + 1
    ensures forall k :: 0 <= k < |chunks| ==>
              chunks[k] == Split(description)[k] + " " && ' ' !in Split(description)[k]
    ensures Concat(chunks) == description + " "
  {
    var words := Split(description);
    chunks := [];
    for i := 0 to |words|
      invariant |chunks| == i
      invariant forall k :: 0 <= k < i ==> chunks[k] == words[k] + " "
    {
      chunks := chunks + [words[i] + " "];
    }
    assert chunks == Chunks(words);
    SplitCount(description);
    SplitSpaceFree(description);
    ConcatChunksOfSplit(description);
  }
}
