/**
 * The part of ICU's word break iterator (unicode/ubrk.h) that the parser relies on.
 *
 * ICU's segmentation rules (Unicode Standard Annex #29, section 4) are not
 * reimplemented: the result of segmenting one buffer is an oracle value, a
 * `Segmentation`, and the iterator walks over it the way `ubrk_first`,
 * `ubrk_next` and `ubrk_getRuleStatus` walk over ICU's internal boundaries.
 */
module WordBreak {

  /** One UTF-16 code unit, ICU's `UChar`. */
  newtype UChar = x: int | 0 <= x < 0x1_0000

  /** Returned by `ubrk_next` once no boundary is left. */
  const UBRK_DONE: int := -1

  // Rule-status ranges of the word break rules, as ubrk.h defines them.
  // Each range is half-open: [UBRK_WORD_X, UBRK_WORD_X_LIMIT).
  const UBRK_WORD_NONE: int := 0
  const UBRK_WORD_NONE_LIMIT: int := 100
  const UBRK_WORD_NUMBER: int := 100
  const UBRK_WORD_NUMBER_LIMIT: int := 200
  const UBRK_WORD_LETTER: int := 200
  const UBRK_WORD_LETTER_LIMIT: int := 300
  const UBRK_WORD_KANA: int := 300
  const UBRK_WORD_KANA_LIMIT: int := 400
  const UBRK_WORD_IDEO: int := 400
  const UBRK_WORD_IDEO_LIMIT: int := 500

  /**
   * What the word break engine computes for one buffer: the boundary offsets
   * in order, and for each boundary the rule status of the break rule that
   * produced it. For k > 0, `statuses[k]` classifies the segment
   * [boundaries[k-1], boundaries[k]); `statuses[0]` belongs to the start of
   * the text and is never used to classify a segment.
   */
  datatype Segmentation = Segmentation(boundaries: seq<int>, statuses: seq<int>)

  /**
   * A segmentation of a buffer of `textLen` code units: the boundaries go
   * from 0 to `textLen` and increase strictly, so every segment is non-empty.
   */
  ghost predicate WellFormed(seg: Segmentation, textLen: int)
  {
    && |seg.boundaries| >= 1
    && |seg.statuses| == |seg.boundaries|
    && seg.boundaries[0] == 0
    && seg.boundaries[|seg.boundaries| - 1] == textLen
    && forall i, j :: 0 <= i < j < |seg.boundaries| ==> seg.boundaries[i] < seg.boundaries[j]
  }

  /** Every boundary of a well-formed segmentation lies inside the buffer. */
  lemma BoundaryInBuffer(seg: Segmentation, textLen: int, k: int)
    requires WellFormed(seg, textLen)
    requires 0 <= k < |seg.boundaries|
    ensures 0 <= seg.boundaries[k] <= textLen
    ensures k > 0 ==> 0 < seg.boundaries[k]
  {
    var last := |seg.boundaries| - 1;
    if 0 < k {
      assert seg.boundaries[0] < seg.boundaries[k];
    }
    if k < last {
      assert seg.boundaries[k] < seg.boundaries[last];
    }
  }

  /** An empty buffer has exactly one boundary, the offset 0. */
  lemma EmptyTextSingleBoundary(seg: Segmentation)
    requires WellFormed(seg, 0)
    ensures seg.boundaries == [0]
  {
    if |seg.boundaries| > 1 {
      BoundaryInBuffer(seg, 0, 1);
      assert false;
    }
  }

  /**
   * An open ICU word break iterator over one buffer. `cur` is the index of
   * the current boundary; `done` records that `Next` has run off the end.
   */
  class WordBreakIterator {
    const seg: Segmentation
    const textLen: int
    var cur: nat
    var done: bool
    var closed: bool

    ghost predicate Valid()
      reads this
    {
      && WellFormed(seg, textLen)
      && cur < |seg.boundaries|
      && (done ==> cur == |seg.boundaries| - 1)
    }

    /** `ubrk_open` on success: the iterator sits on the first boundary. */
    constructor (seg: Segmentation, textLen: int)
      requires WellFormed(seg, textLen)
      ensures Valid() && !closed
      ensures this.seg == seg && this.textLen == textLen
      ensures cur == 0 && !done
    {
      this.seg := seg;
      this.textLen := textLen;
      cur := 0;
      done := false;
      closed := false;
    }

    /** `ubrk_first`: rewinds to the first boundary, which is offset 0. */
    method First() returns (b: int)
      requires Valid() && !closed
      modifies this
      ensures Valid() && !closed
      ensures cur == 0 && !done
      ensures b == seg.boundaries[0] == 0
    {
      cur := 0;
      done := false;
      b := seg.boundaries[0];
    }

    /**
     * `ubrk_next`: moves to the following boundary and returns it, or returns
     * UBRK_DONE, and stays put, when the current boundary is the last one.
     */
    method Next() returns (b: int)
      requires Valid() && !closed
      modifies this
      ensures Valid() && !closed
      ensures old(cur) + 1 < |seg.boundaries| ==>
                cur == old(cur) + 1 && !done && b == seg.boundaries[cur] && b != UBRK_DONE
      ensures old(cur) + 1 >= |seg.boundaries| ==>
                cur == old(cur) && done && b == UBRK_DONE
    {
      if cur + 1 < |seg.boundaries| {
        cur := cur + 1;
        done := false;
        b := seg.boundaries[cur];
        BoundaryInBuffer(seg, textLen, cur);
      } else {
        done := true;
        b := UBRK_DONE;
      }
    }

    /**
     * `ubrk_getRuleStatus`: the status of the boundary most recently
     * returned, which classifies the segment that ends at it. Its value
     * once `Next` has returned UBRK_DONE is left unmodelled.
     */
    method RuleStatus() returns (s: int)
      requires Valid() && !closed && !done
      ensures s == seg.statuses[cur]
    {
      s := seg.statuses[cur];
    }

    /** `ubrk_close`. */
    method Close()
      requires !closed
      modifies this
      ensures closed
      ensures cur == old(cur) && done == old(done)
    {
      closed := true;
    }
  }
}
