/**
 * What one full pass of the parser over a buffer produces, stated as pure
 * functions of the word break engine's segmentation, and the properties of
 * that token stream: contiguous, non-overlapping spans that cover the buffer
 * exactly, each carrying the category of its own rule status.
 */
module Tokenization {
  import opened WordBreak
  import opened TokenCategory

  /** A token as the parser reports it: the span [start, end) of the buffer and its category. */
  datatype Token = Token(start: int, end: int, category: int)

  /**
   * The tokens still to come when the look-ahead boundary is `boundaries[k]`:
   * one per segment from [boundaries[k-1], boundaries[k]) to the end, each
   * classified by the rule status of the boundary that closes it.
   */
  function TokensFrom(seg: Segmentation, k: nat): (ts: seq<Token>)
    requires 1 <= k <= |seg.boundaries|
    requires |seg.statuses| == |seg.boundaries|
    ensures |ts| == |seg.boundaries| - k
    decreases |seg.boundaries| - k
  {
    if k == |seg.boundaries| then []
    else
      [Token(seg.boundaries[k - 1], seg.boundaries[k], ConvertTokenType(seg.statuses[k]))]
      + TokensFrom(seg, k + 1)
  }

  /**
   * The i-th token still to come spans the i-th segment after the look-ahead
   * boundary and carries the category of that segment's own rule status.
   */
  lemma {:induction false} TokensFromAt(seg: Segmentation, k: nat, i: nat)
    requires 1 <= k <= |seg.boundaries| == |seg.statuses|
    requires i < |seg.boundaries| - k
    ensures TokensFrom(seg, k)[i] ==
              Token(seg.boundaries[k - 1 + i], seg.boundaries[k + i],
                    ConvertTokenType(seg.statuses[k + i]))
    decreases i
  {
    if i > 0 {
      TokensFromAt(seg, k + 1, i - 1);
    }
  }

  /** The whole token stream of a buffer, from its first boundary on. */
  function Tokens(seg: Segmentation): seq<Token>
    requires 1 <= |seg.boundaries| == |seg.statuses|
  {
    TokensFrom(seg, 1)
  }

  /** Handing out one more token extends the prefix handed out and shortens what is left. */
  lemma PrefixStep(ts: seq<Token>, n: nat)
    requires n < |ts|
    ensures ts[..n + 1] == ts[..n] + [ts[n]]
    ensures ts[n..] == [ts[n]] + ts[n + 1..]
  {
  }

  /**
   * `ts` covers [from, to) exactly: each span is non-empty, the first starts
   * at `from`, each one starts where the previous one ended, and the last ends
   * at `to`.
   */
  ghost predicate Contiguous(ts: seq<Token>, from: int, to: int)
  {
    && (ts == [] ==> from == to)
    && (ts != [] ==> ts[0].start == from && ts[|ts| - 1].end == to)
    && (forall i :: 0 <= i < |ts| ==> ts[i].start < ts[i].end)
    && (forall i :: 0 < i < |ts| ==> ts[i - 1].end == ts[i].start)
  }

  /** The token stream of a well-formed segmentation covers the whole buffer. */
  lemma TokensContiguous(seg: Segmentation, textLen: int)
    requires WellFormed(seg, textLen)
    ensures Contiguous(Tokens(seg), 0, textLen)
    ensures forall t :: t in Tokens(seg) ==> WORD_TOKEN <= t.category <= NUM_TOKENS
  {
    var ts := Tokens(seg);
    forall i | 0 <= i < |ts|
      ensures ts[i].start == seg.boundaries[i] < ts[i].end == seg.boundaries[i + 1]
      ensures WORD_TOKEN <= ts[i].category <= NUM_TOKENS
    {
      TokensFromAt(seg, 1, i);
    }
    if ts != [] {
      TokensFromAt(seg, 1, |ts| - 1);
    }
  }

  /** An empty buffer yields no token at all. */
  lemma EmptyTextNoTokens(seg: Segmentation)
    requires WellFormed(seg, 0)
    ensures Tokens(seg) == []
  {
    EmptyTextSingleBoundary(seg);
  }

  /** Dropping the first token of a contiguous stream leaves a contiguous stream. */
  lemma ContiguousTail(ts: seq<Token>, from: int, to: int)
    requires Contiguous(ts, from, to) && ts != []
    ensures Contiguous(ts[1..], ts[0].end, to)
  {
    var tail := ts[1..];
    forall i | 0 < i < |tail|
      ensures tail[i - 1].end == tail[i].start
    {
      assert tail[i - 1] == ts[i] && tail[i] == ts[i + 1];
    }
    forall i | 0 <= i < |tail|
      ensures tail[i].start < tail[i].end
    {
      assert tail[i] == ts[i + 1];
    }
    if tail == [] {
      assert ts[0].end == ts[|ts| - 1].end;
    } else {
      assert tail[0] == ts[1];
    }
  }

  /** Total length of the spans of `ts`. */
  function SumLengths(ts: seq<Token>): int
  {
    if ts == [] then 0 else (ts[0].end - ts[0].start) + SumLengths(ts[1..])
  }

  /** The spans of a stream covering [from, to) add up to `to - from`. */
  lemma {:induction false} ContiguousLengths(ts: seq<Token>, from: int, to: int)
    requires Contiguous(ts, from, to)
    ensures SumLengths(ts) == to - from
    ensures from <= to
    decreases |ts|
  {
    if ts != [] {
      ContiguousTail(ts, from, to);
      ContiguousLengths(ts[1..], ts[0].end, to);
    }
  }

  /** Every span of `ts` lies inside [lo, hi]. */
  ghost predicate Within(ts: seq<Token>, lo: int, hi: int)
  {
    forall i :: 0 <= i < |ts| ==> lo <= ts[i].start <= ts[i].end <= hi
  }

  /** Every span of a stream covering [from, to) lies inside [from, to). */
  lemma {:induction false} ContiguousWithin(ts: seq<Token>, from: int, to: int)
    requires Contiguous(ts, from, to)
    ensures Within(ts, from, to)
    decreases |ts|
  {
    if ts != [] {
      ContiguousTail(ts, from, to);
      ContiguousWithin(ts[1..], ts[0].end, to);
      forall i | 1 <= i < |ts|
        ensures from <= ts[i].start <= ts[i].end <= to
      {
        assert ts[i] == ts[1..][i - 1];
      }
    }
  }

  /** The code units of `text` under one token's span (the conversion back is the identity). */
  function Materialize(text: seq<UChar>, t: Token): (s: seq<UChar>)
    requires 0 <= t.start <= t.end <= |text|
    ensures |s| == t.end - t.start
  {
    text[t.start..t.end]
  }

  /** The materialised tokens of `ts`, one after the other. */
  function Concat(text: seq<UChar>, ts: seq<Token>): seq<UChar>
    requires Within(ts, 0, |text|)
  {
    if ts == [] then []
    else
      assert Within(ts[1..], 0, |text|) by {
        forall i | 0 <= i < |ts[1..]| ensures 0 <= ts[1..][i].start <= ts[1..][i].end <= |text| {
          assert ts[1..][i] == ts[i + 1];
        }
      }
      Materialize(text, ts[0]) + Concat(text, ts[1..])
  }

  /** Materialising a stream that covers [from, to) gives back that part of the text. */
  lemma {:induction false} ContiguousConcat(text: seq<UChar>, ts: seq<Token>, from: int, to: int)
    requires Contiguous(ts, from, to) && Within(ts, 0, |text|)
    requires 0 <= from <= to <= |text|
    ensures Concat(text, ts) == text[from..to]
    decreases |ts|
  {
    if ts != [] {
      var mid := ts[0].end;
      ContiguousTail(ts, from, to);
      ContiguousLengths(ts[1..], mid, to);
      assert Within(ts[1..], 0, |text|);
      ContiguousConcat(text, ts[1..], mid, to);
      assert Concat(text, ts) == text[from..mid] + Concat(text, ts[1..]);
      assert text[from..mid] + text[mid..to] == text[from..to];
    }
  }

  /**
   * Over one full pass the tokens cover the buffer exactly: their lengths add
   * up to its length, and putting their text back together rebuilds it.
   */
  lemma FullPassCoversText(text: seq<UChar>, seg: Segmentation)
    requires WellFormed(seg, |text|)
    ensures SumLengths(Tokens(seg)) == |text|
    ensures Within(Tokens(seg), 0, |text|)
    ensures Concat(text, Tokens(seg)) == text
  {
    TokensContiguous(seg, |text|);
    ContiguousLengths(Tokens(seg), 0, |text|);
    ContiguousWithin(Tokens(seg), 0, |text|);
    ContiguousConcat(text, Tokens(seg), 0, |text|);
  }

  /** The UTF-16 code units of a string whose characters all lie in the Basic Multilingual Plane. */
  function CodeUnits(s: string): (u: seq<UChar>)
    requires forall i :: 0 <= i < |s| ==> s[i] as int < 0x1_0000
    ensures |u| == |s|
    ensures forall i :: 0 <= i < |s| ==> u[i] as int == s[i] as int
  {
    seq(|s|, i requires 0 <= i < |s| => s[i] as int as UChar)
  }

  /**
   * "hello world 123" under ICU's word rules: boundaries after each word and
   * space, letter words with status UBRK_WORD_LETTER, spaces with
   * UBRK_WORD_NONE and the number with UBRK_WORD_NUMBER. The segmentation is
   * one of that text, the stream is word, blank, word, blank, number, and its
   * spans spell "hello", " ", "world", " ", "123".
   */
  lemma {:induction false} HelloWorldStream()
    ensures var text := CodeUnits("hello world 123");
            var seg := Segmentation([0, 5, 6, 11, 12, 15],
                                    [UBRK_WORD_NONE, UBRK_WORD_LETTER, UBRK_WORD_NONE,
                                     UBRK_WORD_LETTER, UBRK_WORD_NONE, UBRK_WORD_NUMBER]);
            && WellFormed(seg, |text|)
            && Tokens(seg) == [Token(0, 5, WORD_TOKEN), Token(5, 6, BLANK_TOKEN),
                               Token(6, 11, WORD_TOKEN), Token(11, 12, BLANK_TOKEN),
                               Token(12, 15, NUMBER_TOKEN)]
            && Materialize(text, Tokens(seg)[0]) == CodeUnits("hello")
            && Materialize(text, Tokens(seg)[1]) == CodeUnits(" ")
            && Materialize(text, Tokens(seg)[2]) == CodeUnits("world")
            && Materialize(text, Tokens(seg)[3]) == CodeUnits(" ")
            && Materialize(text, Tokens(seg)[4]) == CodeUnits("123")
  {
    var text := CodeUnits("hello world 123");
    var seg := Segmentation([0, 5, 6, 11, 12, 15],
                            [UBRK_WORD_NONE, UBRK_WORD_LETTER, UBRK_WORD_NONE,
                             UBRK_WORD_LETTER, UBRK_WORD_NONE, UBRK_WORD_NUMBER]);
    TokensFromAt(seg, 1, 0);
    TokensFromAt(seg, 1, 1);
    TokensFromAt(seg, 1, 2);
    TokensFromAt(seg, 1, 3);
    TokensFromAt(seg, 1, 4);
  }
}
