/**
 * The parser session of pg_icu_parser.c: `icuparser_start`,
 * `icuparser_nexttoken` and `icuparser_end` over a `ParserState`, a
 * one-token look-ahead cursor on ICU's word break iterator.
 */
module IcuParser {
  import opened WordBreak
  import opened TokenCategory
  import opened Tokenization

  datatype Option<T> = None | Some(value: T)

  /** The ICU locale used when the `pg_icu_parser.locale` setting is empty. */
  const DEFAULT_LOCALE: string := "en"

  /** The locale `icuparser_start` hands to ICU: the setting, or "en" when it is empty. */
  function ResolveLocale(setting: string): (locale: string)
    ensures locale != ""
    ensures setting != "" ==> locale == setting
    ensures setting == "" ==> locale == DEFAULT_LOCALE
  {
    if setting == "" then DEFAULT_LOCALE else setting
  }

  /** What `ubrk_open` yields: an iterator over the buffer's segmentation, or an ICU error code. */
  datatype OpenOutcome = Opened(seg: Segmentation) | OpenFailed(errorCode: int)

  /** What `icuparser_start` yields: a session, or the error it reports for a locale ICU rejects. */
  datatype StartResult = Started(state: ParserState) | StartFailed(locale: string, errorCode: int)

  /**
   * `ParserState`. `utext` is the buffer converted for ICU, `iter` the break
   * iterator over it, [tokenStartPos, tokenEndPos) the next span to hand out,
   * and `currToken` the token materialised by the last call, which the session
   * owns. `emitted` records the tokens handed out so far; `tokensMade` and
   * `tokensFreed` count token allocations and releases, and `liveWhenMade`
   * how many tokens were alive at the moment the latest one was made; `ended`
   * is set once `End` has released the session.
   */
  class ParserState {
    const utext: seq<UChar>
    const iter: WordBreakIterator
    var tokenStartPos: int
    var tokenEndPos: int
    var currToken: Option<seq<UChar>>
    var ended: bool
    ghost var emitted: seq<Token>
    ghost var tokensMade: nat
    ghost var tokensFreed: nat
    ghost var liveWhenMade: int

    /** How many tokens of the stream this session has handed out. */
    ghost function Consumed(): nat
      reads this, iter
      requires iter.done || 1 <= iter.cur
    {
      if iter.done then iter.cur else iter.cur - 1
    }

    /** The tokens this session has still to hand out. */
    ghost function Remaining(): seq<Token>
      reads this, iter
      requires iter.Valid() && (iter.done || 1 <= iter.cur)
    {
      Tokens(iter.seg)[Consumed()..]
    }

    ghost predicate Valid()
      reads this, iter
    {
      && !ended
      && iter.Valid() && !iter.closed
      && iter.textLen == |utext|
      // one-token look-ahead: the span to hand out ends at the iterator's current boundary
      && (!iter.done ==>
            1 <= iter.cur
            && tokenStartPos == iter.seg.boundaries[iter.cur - 1]
            && tokenEndPos == iter.seg.boundaries[iter.cur])
      // exhausted: the span start has reached the last boundary
      && (iter.done ==>
            tokenEndPos == UBRK_DONE
            && tokenStartPos == iter.seg.boundaries[iter.cur])
      // what has been handed out is the stream up to the look-ahead span
      && emitted == Tokens(iter.seg)[..Consumed()]
      // the owned token is the text of the last token handed out
      && (emitted == [] ==> currToken == None)
      && (emitted != [] ==>
            var last := emitted[|emitted| - 1];
            0 <= last.start <= last.end <= |utext|
            && currToken == Some(Materialize(utext, last)))
      // at most one materialised token is alive at a time
      && tokensMade == tokensFreed + (if currToken.Some? then 1 else 0)
    }

    /**
     * The part of `icuparser_start` after `ubrk_open`: the span start is the
     * first boundary, the span end the next boundary or UBRK_DONE, and no token
     * is held yet.
     */
    constructor (utext: seq<UChar>, iter: WordBreakIterator)
      requires iter.Valid() && !iter.closed && iter.textLen == |utext|
      modifies iter
      ensures Valid()
      ensures this.utext == utext && this.iter == iter
      ensures tokenStartPos == iter.seg.boundaries[0] == 0
      ensures tokenEndPos == if |iter.seg.boundaries| > 1 then iter.seg.boundaries[1] else UBRK_DONE
      ensures currToken == None && emitted == [] && tokensMade == tokensFreed == 0
      ensures Remaining() == Tokens(iter.seg)
    {
      var first := iter.First();
      var next := iter.Next();
      this.utext := utext;
      this.iter := iter;
      tokenStartPos := first;
      tokenEndPos := next;
      currToken := None;
      ended := false;
      emitted := [];
      tokensMade, tokensFreed := 0, 0;
      liveWhenMade := 0;
    }

    /** Releases the held token, if any (`pfree(state->curr_token)`). */
    method ReleaseToken()
      modifies this`currToken, this`tokensFreed
      ensures currToken == None
      ensures tokensFreed == old(tokensFreed) + (if old(currToken).Some? then 1 else 0)
    {
      if currToken.Some? {
        currToken := None;
        tokensFreed := tokensFreed + 1;
      }
    }

    /**
     * `icuparser_nexttoken`. Once the span end is UBRK_DONE it returns 0 and
     * changes nothing, so exhaustion is permanent. Otherwise it hands out the
     * look-ahead span (see `Advance`) and returns its category, which is
     * never 0.
     */
    method NextToken() returns (category: int, token: seq<UChar>, tokenLen: int)
      requires Valid()
      modifies this, iter
      ensures Valid()
      ensures category == 0 <==> old(tokenEndPos) == UBRK_DONE
      ensures old(tokenEndPos) == UBRK_DONE ==> unchanged(this) && unchanged(iter)
      ensures old(tokenEndPos) != UBRK_DONE ==>
                && token == utext[old(tokenStartPos)..old(tokenEndPos)]
                && tokenLen == old(tokenEndPos) - old(tokenStartPos)
                && category == ConvertTokenType(iter.seg.statuses[old(iter.cur)])
                && tokenStartPos == old(tokenEndPos)
                && emitted == old(emitted) + [Token(old(tokenStartPos), old(tokenEndPos), category)]
                && old(Remaining()) == [Token(old(tokenStartPos), old(tokenEndPos), category)] + Remaining()
                && currToken == Some(token)
                && tokensMade == old(tokensMade) + 1
                && tokensFreed == old(tokensFreed) + (if old(currToken).Some? then 1 else 0)
                && liveWhenMade == 0
    {
      if tokenEndPos == UBRK_DONE {
        return 0, [], 0;
      }
      category, token, tokenLen := Advance();
    }

    /**
     * The body of `icuparser_nexttoken` past its exhaustion test: releases
     * the previous token, materialises [tokenStartPos, tokenEndPos), reads the
     * rule status of that span before advancing, moves the span start to the
     * old span end and pulls the next boundary.
     */
    method Advance() returns (category: int, token: seq<UChar>, tokenLen: int)
      requires Valid() && tokenEndPos != UBRK_DONE
      modifies this, iter
      ensures Valid()
      ensures 0 <= old(tokenStartPos) < old(tokenEndPos) <= |utext|
      ensures token == utext[old(tokenStartPos)..old(tokenEndPos)]
      ensures tokenLen == old(tokenEndPos) - old(tokenStartPos)
      ensures category == ConvertTokenType(iter.seg.statuses[old(iter.cur)])
      ensures WORD_TOKEN <= category <= NUM_TOKENS
      ensures tokenStartPos == old(tokenEndPos)
      ensures emitted == old(emitted) + [Token(old(tokenStartPos), old(tokenEndPos), category)]
      ensures old(Remaining()) == [Token(old(tokenStartPos), old(tokenEndPos), category)] + Remaining()
      ensures currToken == Some(token)
      ensures tokensMade == old(tokensMade) + 1
      ensures tokensFreed == old(tokensFreed) + (if old(currToken).Some? then 1 else 0)
      // the previous token was released before the new one was made
      ensures liveWhenMade == 0
    {
      // The span handed out now is token k - 1 of the stream; afterwards k tokens are out.
      ghost var k := iter.cur;
      ghost var ts := Tokens(iter.seg);
      ghost var tok := Token(tokenStartPos, tokenEndPos, ConvertTokenType(iter.seg.statuses[k]));
      TokensFromAt(iter.seg, 1, k - 1);
      PrefixStep(ts, k - 1);
      BoundaryInBuffer(iter.seg, iter.textLen, k);
      BoundaryInBuffer(iter.seg, iter.textLen, k - 1);

      ReleaseToken();
      token := utext[tokenStartPos..tokenEndPos];
      tokenLen := tokenEndPos - tokenStartPos;
      var status := iter.RuleStatus();
      var next := iter.Next();
      category := ConvertTokenType(status);
      tokenStartPos, tokenEndPos := tokenEndPos, next;
      // Making the token also records how many tokens were alive just before it.
      currToken, tokensMade, emitted, liveWhenMade :=
        Some(token), tokensMade + 1, emitted + [tok], tokensMade - tokensFreed;
      assert Consumed() == k;
    }

    /**
     * `icuparser_end`: releases the held token if there is one, then closes
     * the iterator and releases the buffer and the session. Afterwards no
     * token is alive. Calling it twice is not allowed.
     */
    method End()
      requires Valid()
      modifies this, iter
      ensures ended && iter.closed && currToken == None
      ensures tokensMade == old(tokensMade) && tokensFreed == tokensMade
      ensures emitted == old(emitted)
    {
      ReleaseToken();
      iter.Close();
      ended := true;
    }

    /**
     * Once a session reports exhaustion it has handed out the whole stream:
     * the tokens are contiguous, cover the buffer, and their text rebuilds it.
     */
    lemma ExhaustedCoversText()
      requires Valid() && tokenEndPos == UBRK_DONE
      ensures emitted == Tokens(iter.seg)
      ensures Contiguous(emitted, 0, |utext|)
      ensures SumLengths(emitted) == |utext|
      ensures Within(emitted, 0, |utext|)
      ensures Concat(utext, emitted) == utext
    {
      TokensContiguous(iter.seg, |utext|);
      FullPassCoversText(utext, iter.seg);
    }
  }

  /**
   * `icuparser_start`. The locale is the setting, or "en" when it is empty;
   * `openBreakIterator` stands for `ubrk_open` on that locale and the buffer.
   * When ICU refuses, the call fails with the locale and ICU's error code and
   * no session exists; otherwise the session is positioned on the first span.
   */
  method Start(text: seq<UChar>, localeSetting: string,
               openBreakIterator: (string, seq<UChar>) -> OpenOutcome)
    returns (r: StartResult)
    requires openBreakIterator(ResolveLocale(localeSetting), text).Opened? ==>
               WellFormed(openBreakIterator(ResolveLocale(localeSetting), text).seg, |text|)
    ensures var outcome := openBreakIterator(ResolveLocale(localeSetting), text);
            && (r.StartFailed? <==> outcome.OpenFailed?)
            && (r.StartFailed? ==>
                  r.locale == ResolveLocale(localeSetting) && r.errorCode == outcome.errorCode)
            && (r.Started? ==>
                  && fresh(r.state) && fresh(r.state.iter)
                  && r.state.Valid()
                  && r.state.utext == text && r.state.iter.seg == outcome.seg
                  && r.state.tokenStartPos == 0
                  && (|text| == 0 ==> r.state.tokenEndPos == UBRK_DONE)
                  && r.state.currToken == None && r.state.emitted == []
                  && r.state.Remaining() == Tokens(outcome.seg))
  {
    var locale := ResolveLocale(localeSetting);
    var outcome := openBreakIterator(locale, text);
    if outcome.OpenFailed? {
      return StartFailed(locale, outcome.errorCode);
    }
    var iter := new WordBreakIterator(outcome.seg, |text|);
    var state := new ParserState(text, iter);
    if |text| == 0 {
      EmptyTextSingleBoundary(outcome.seg);
    }
    return Started(state);
  }
}
