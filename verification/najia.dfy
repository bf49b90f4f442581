/**
 * The 納甲 calculator of the Liu Yao engine: the branch and phase of each line, the
 * trigrams read off six line values, and the polarity and movement of a line value.
 */
module Najia {
  import opened Symbols
  import opened Wrappers
  import opened Guagong

  /** A cast line: 6 old yin (moving), 7 young yang, 8 young yin, 9 old yang (moving). */
  type YaoValue = v: int | 6 <= v <= 9 witness 7

  /** The polarity of a line, 陽 or 陰. */
  datatype YinYang = YangLine | YinLine

  /** The 納甲 of one line: its branch and that branch's phase. */
  datatype NaJiaResult = NaJiaResult(diZhi: Branch, wuXing: Phase)

  /** The upper and lower trigram of a hexagram. */
  datatype UpperLower = UpperLower(upper: Trigram, lower: Trigram)

  /**
   * `calculate`: lines 1-3 take the lower trigram's inner branches and lines 4-6 the
   * upper trigram's outer ones; any other position reads past the table and gives nothing.
   */
  function Calculate(position: int, upperGua: Trigram, lowerGua: Trigram): (r: Option<NaJiaResult>)
    ensures r.Some? <==> 1 <= position <= 6
    ensures r.Some? ==> r.value.wuXing == BranchPhase(r.value.diZhi)
    ensures 1 <= position <= 3 ==> r.value.diZhi == NaJiaInner(lowerGua)[position - 1]
    ensures 4 <= position <= 6 ==> r.value.diZhi == NaJiaOuter(upperGua)[position - 4]
    ensures r.Some? && position <= 3 ==> GetNaJia(lowerGua, position, false) == Some(r.value.diZhi)
    ensures r.Some? && position > 3 ==> GetNaJia(upperGua, position - 3, true) == Some(r.value.diZhi)
  {
    var isOuter := position > 3;
    var gua := if isOuter then upperGua else lowerGua;
    var positionInGua := if isOuter then position - 3 else position;
    var arr := if isOuter then NaJiaOuter(gua) else NaJiaInner(gua);
    if 1 <= positionInGua <= 3 then
      var diZhi := arr[positionInGua - 1];
      Some(NaJiaResult(diZhi, BranchPhase(diZhi)))
    else
      None
  }

  /** The six lines' 納甲, bottom first. */
  function AllLines(upperGua: Trigram, lowerGua: Trigram): (r: seq<NaJiaResult>)
    ensures |r| == 6
    ensures forall i :: 0 <= i < 6 ==> Calculate(i + 1, upperGua, lowerGua) == Some(r[i])
  {
    seq(6, i requires 0 <= i < 6 => Calculate(i + 1, upperGua, lowerGua).value)
  }

  /** The branches of the six lines are the lower trigram's inner ones followed by the upper trigram's outer ones. */
  lemma AllLinesBranches(upperGua: Trigram, lowerGua: Trigram, i: int)
    requires 0 <= i < 6
    ensures AllLines(upperGua, lowerGua)[i].diZhi == (NaJiaInner(lowerGua) + NaJiaOuter(upperGua))[i]
    ensures AllLines(upperGua, lowerGua)[i].wuXing == BranchPhase(AllLines(upperGua, lowerGua)[i].diZhi)
  {
    assert Calculate(i + 1, upperGua, lowerGua) == Some(AllLines(upperGua, lowerGua)[i]);
  }

  /** `calculateAll`: `calculate` for positions 1 to 6, pushed in order. */
  method CalculateAll(upperGua: Trigram, lowerGua: Trigram) returns (results: seq<NaJiaResult>)
    ensures results == AllLines(upperGua, lowerGua)
  {
    results := [];
    for i := 1 to 7
      invariant |results| == i - 1
      invariant forall j :: 0 <= j < i - 1 ==> Calculate(j + 1, upperGua, lowerGua) == Some(results[j])
    {
      results := results + [Calculate(i, upperGua, lowerGua).value];
    }
  }

  /** Whether a line value is yang (7 or 9). */
  predicate IsYangValue(v: YaoValue) {
    v == 7 || v == 9
  }

  /** `getYinYang`: 陽 for 7 and 9, 陰 for 6 and 8. */
  function GetYinYang(v: YaoValue): (y: YinYang)
    ensures y == YangLine <==> IsYangValue(v)
  {
    if v == 7 || v == 9 then YangLine else YinLine
  }

  /** `isMoving`: the old lines 6 and 9 move. */
  predicate IsMoving(v: YaoValue) {
    v == 6 || v == 9
  }

  /** `getChangedYinYang`: nothing for a still line; a moving line turns into the other polarity. */
  function GetChangedYinYang(v: YaoValue): (c: Option<YinYang>)
    ensures c.None? <==> !IsMoving(v)
    ensures c.Some? ==> c.value != GetYinYang(v)
  {
    if !IsMoving(v) then None
    else if v == 9 then Some(YinLine) else Some(YangLine)
  }

  /** Polarity and movement together tell the four line values apart. */
  lemma LineValueDetermined(v: YaoValue, w: YaoValue)
    ensures GetYinYang(v) == GetYinYang(w) && IsMoving(v) == IsMoving(w) <==> v == w
  {
  }

  /** The yang/yin pattern of the lines, bottom first; a missing value reads as yin. */
  function YangPattern(values: seq<YaoValue>): (lines: seq<bool>)
    ensures |lines| == 6
  {
    seq(6, i requires 0 <= i < 6 => i < |values| && IsYangValue(values[i]))
  }

  /**
   * `getGuaFromYaoValues`: each trigram's number has its bottom line as the highest bit,
   * as `BAGUA_BINARY` does, so the trigrams found have exactly the lines cast.
   */
  function GetGuaFromYaoValues(values: seq<YaoValue>): (r: UpperLower)
    ensures HexLines(r.upper, r.lower) == YangPattern(values)
  {
    var yinYang := YangPattern(values);
    var lowerBinary := LinesToBinary(yinYang[0], yinYang[1], yinYang[2]);
    var upperBinary := LinesToBinary(yinYang[3], yinYang[4], yinYang[5]);
    var upper := BinaryToTrigram(upperBinary).value;
    var lower := BinaryToTrigram(lowerBinary).value;
    LinesOfBinary(lower, yinYang[0], yinYang[1], yinYang[2]);
    LinesOfBinary(upper, yinYang[3], yinYang[4], yinYang[5]);
    UpperLower(upper, lower)
  }

  /** Casting the lines of any hexagram gives back its two trigrams. */
  lemma GuaFromYaoValuesRoundTrip(values: seq<YaoValue>, upper: Trigram, lower: Trigram)
    requires YangPattern(values) == HexLines(upper, lower)
    ensures GetGuaFromYaoValues(values) == UpperLower(upper, lower)
  {
    var r := GetGuaFromYaoValues(values);
    assert TrigramLines(r.lower) == HexLines(r.upper, r.lower)[..3] == TrigramLines(lower);
    assert TrigramLines(r.upper) == HexLines(r.upper, r.lower)[3..] == TrigramLines(upper);
    LinesRoundTrip(r.lower, lower);
    LinesRoundTrip(r.upper, upper);
  }
}
