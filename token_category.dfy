/**
 * The five output token categories of the parser, the classifier that maps
 * an ICU rule status onto them, and the lexeme-type table the parser
 * publishes for them.
 */
module TokenCategory {
  import opened WordBreak

  // Output token categories. 0 is not a category: it signals end of stream.
  const WORD_TOKEN: int := 1
  const NUMBER_TOKEN: int := 2
  const BLANK_TOKEN: int := 3
  const KANA_TOKEN: int := 4
  const IDEO_TOKEN: int := 5

  const NUM_TOKENS: int := 5

  /** `status` lies in the half-open range [lo, limit). */
  predicate InRange(status: int, lo: int, limit: int)
  {
    lo <= status < limit
  }

  /**
   * `convert_token_type`: letter, number, Kana and ideographic rule statuses
   * map to their own categories; every other status (the "none" range used
   * for spaces and punctuation, negative values, anything past the ideographic
   * range) falls back to BLANK. The function is total and never yields 0.
   */
  function ConvertTokenType(icuType: int): (id: int)
    ensures WORD_TOKEN <= id <= NUM_TOKENS
    ensures id == WORD_TOKEN <==> InRange(icuType, UBRK_WORD_LETTER, UBRK_WORD_LETTER_LIMIT)
    ensures id == NUMBER_TOKEN <==> InRange(icuType, UBRK_WORD_NUMBER, UBRK_WORD_NUMBER_LIMIT)
    ensures id == KANA_TOKEN <==> InRange(icuType, UBRK_WORD_KANA, UBRK_WORD_KANA_LIMIT)
    ensures id == IDEO_TOKEN <==> InRange(icuType, UBRK_WORD_IDEO, UBRK_WORD_IDEO_LIMIT)
    ensures id == BLANK_TOKEN <==>
              && !InRange(icuType, UBRK_WORD_LETTER, UBRK_WORD_LETTER_LIMIT)
              && !InRange(icuType, UBRK_WORD_NUMBER, UBRK_WORD_NUMBER_LIMIT)
              && !InRange(icuType, UBRK_WORD_KANA, UBRK_WORD_KANA_LIMIT)
              && !InRange(icuType, UBRK_WORD_IDEO, UBRK_WORD_IDEO_LIMIT)
  {
    if InRange(icuType, UBRK_WORD_LETTER, UBRK_WORD_LETTER_LIMIT) then WORD_TOKEN
    else if InRange(icuType, UBRK_WORD_NUMBER, UBRK_WORD_NUMBER_LIMIT) then NUMBER_TOKEN
    else if InRange(icuType, UBRK_WORD_KANA, UBRK_WORD_KANA_LIMIT) then KANA_TOKEN
    else if InRange(icuType, UBRK_WORD_IDEO, UBRK_WORD_IDEO_LIMIT) then IDEO_TOKEN
    else BLANK_TOKEN
  }

  /** One row of the classification policy: statuses in [lo, limit) get `category`. */
  datatype StatusRange = StatusRange(lo: int, limit: int, category: int)

  /** The classification policy as data, in the order the classifier tests it. */
  const CATEGORY_RANGES: seq<StatusRange> := [
    StatusRange(UBRK_WORD_LETTER, UBRK_WORD_LETTER_LIMIT, WORD_TOKEN),
    StatusRange(UBRK_WORD_NUMBER, UBRK_WORD_NUMBER_LIMIT, NUMBER_TOKEN),
    StatusRange(UBRK_WORD_KANA, UBRK_WORD_KANA_LIMIT, KANA_TOKEN),
    StatusRange(UBRK_WORD_IDEO, UBRK_WORD_IDEO_LIMIT, IDEO_TOKEN)
  ]

  /** The category of the first range holding `status`, or `default` if none does. */
  function Lookup(ranges: seq<StatusRange>, status: int, default: int): (c: int)
    ensures c == default ||
            exists i :: 0 <= i < |ranges| && InRange(status, ranges[i].lo, ranges[i].limit) &&
                        c == ranges[i].category
  {
    if ranges == [] then default
    else if InRange(status, ranges[0].lo, ranges[0].limit) then ranges[0].category
    else Lookup(ranges[1..], status, default)
  }

  /** The classifier agrees with a first-match lookup in the range table, BLANK by default. */
  lemma {:induction false} ConvertMatchesRangeTable(status: int)
    ensures ConvertTokenType(status) == Lookup(CATEGORY_RANGES, status, BLANK_TOKEN)
  {
    // Unfold the lookup one table row at a time.
    var r0 := CATEGORY_RANGES;
    var r1, r2, r3 := r0[1..], r0[2..], r0[3..];
    assert r1[1..] == r2 && r2[1..] == r3 && r3[1..] == [];
    assert Lookup(r3, status, BLANK_TOKEN) ==
      if InRange(status, UBRK_WORD_IDEO, UBRK_WORD_IDEO_LIMIT) then IDEO_TOKEN else BLANK_TOKEN;
    assert Lookup(r2, status, BLANK_TOKEN) ==
      if InRange(status, UBRK_WORD_KANA, UBRK_WORD_KANA_LIMIT) then KANA_TOKEN
      else Lookup(r3, status, BLANK_TOKEN);
    assert Lookup(r1, status, BLANK_TOKEN) ==
      if InRange(status, UBRK_WORD_NUMBER, UBRK_WORD_NUMBER_LIMIT) then NUMBER_TOKEN
      else Lookup(r2, status, BLANK_TOKEN);
  }

  /** The ranges of the table do not overlap, so the order of the tests does not matter. */
  lemma RangesDisjoint(status: int, i: int, j: int)
    requires 0 <= i < j < |CATEGORY_RANGES|
    requires InRange(status, CATEGORY_RANGES[i].lo, CATEGORY_RANGES[i].limit)
    ensures !InRange(status, CATEGORY_RANGES[j].lo, CATEGORY_RANGES[j].limit)
  {
  }

  /** A `LexDescr` entry of the lexeme-type table. */
  datatype LexDescr = LexDescr(lexid: int, alias: string, descr: string)

  /** The five categories as the lexeme-type table lists them, in id order. */
  function Descriptions(): (ds: seq<LexDescr>)
    ensures |ds| == NUM_TOKENS
    ensures forall i :: 0 <= i < |ds| ==> ds[i].lexid == i + 1
  {
    [
      LexDescr(WORD_TOKEN, "word", "Word, containing normal letters"),
      LexDescr(NUMBER_TOKEN, "number", "Numeric value"),
      LexDescr(BLANK_TOKEN, "blank", "Space and punctuation symbols"),
      LexDescr(KANA_TOKEN, "kana", "Word, composed of Japanese Kana characters"),
      LexDescr(IDEO_TOKEN, "ideo", "Ideographic characters")
    ]
  }

  /**
   * Every category the classifier can produce has its own entry in the table,
   * and no entry uses 0, the id of the table's terminator.
   */
  lemma EveryCategoryDescribed(status: int)
    ensures var id := ConvertTokenType(status);
            Descriptions()[id - 1].lexid == id
    ensures forall d :: d in Descriptions() ==> d.lexid != 0
  {
  }

  /**
   * `icuparser_lextype`: allocates NUM_TOKENS + 1 slots, fills one per
   * category (ids 1..5 with aliases word, number, blank, kana, ideo), and ends
   * the table with a terminator whose id is 0. The terminator's alias and
   * description are never written.
   */
  method LexType() returns (descr: array<LexDescr>)
    ensures fresh(descr)
    ensures descr.Length == NUM_TOKENS + 1
    ensures descr[..NUM_TOKENS] == Descriptions()
    ensures descr[0].alias == "word" && descr[1].alias == "number" && descr[2].alias == "blank"
    ensures descr[3].alias == "kana" && descr[4].alias == "ideo"
    ensures descr[NUM_TOKENS].lexid == 0
  {
    descr := new LexDescr[NUM_TOKENS + 1](_ => LexDescr(0, "", ""));
    descr[0] := LexDescr(WORD_TOKEN, "word", "Word, containing normal letters");
    descr[1] := LexDescr(NUMBER_TOKEN, "number", "Numeric value");
    descr[2] := LexDescr(BLANK_TOKEN, "blank", "Space and punctuation symbols");
    descr[3] := LexDescr(KANA_TOKEN, "kana", "Word, composed of Japanese Kana characters");
    descr[4] := LexDescr(IDEO_TOKEN, "ideo", "Ideographic characters");
    descr[5] := LexDescr(0, "", "");
  }
}
