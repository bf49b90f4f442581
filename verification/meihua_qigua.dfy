/**
 * Casting a hexagram (起卦) in the Meihua engine: from two or three numbers, and
 * from the lunar year branch, month, day and double hour. The numbers pick the
 * upper and lower trigrams by their 先天 number and the moving line.
 */
module MeihuaQigua {
  import opened Symbols
  import opened Wrappers
  import MeihuaBagua

  /** `QiGuaData`: the numbers cast and what they select. */
  datatype QiGuaData = QiGuaData(
    upperNumber: int,
    lowerNumber: int,
    yaoNumber: int,
    upperGuaIndex: int,
    lowerGuaIndex: int,
    movingYao: int)

  /** `TimeQiGuaDetail`, without the lunar year (which only the calendar library knows). */
  datatype TimeQiGuaDetail = TimeQiGuaDetail(
    lunarMonth: int,
    lunarDay: int,
    shiChenIndex: int,
    yearZhiIndex: int,
    sumForUpper: int,
    sumForLower: int)

  /**
   * `n % 8 === 0 ? 8 : n % 8` with JavaScript's remainder: the trigram number a sum
   * selects. A positive sum gives 1..8; a negative one keeps its sign.
   */
  function GuaIndex(n: int): (r: int)
    ensures r % 8 == n % 8
    ensures n > 0 ==> 1 <= r <= 8 && r == (n - 1) % 8 + 1
    ensures n % 8 == 0 ==> r == 8
    ensures n < 0 && n % 8 != 0 ==> -8 < r < 0
  {
    var rem := MeihuaBagua.JsRem(n, 8);
    if rem == 0 then 8 else rem
  }

  /**
   * `n % 6 === 0 ? 6 : n % 6` with JavaScript's remainder: the moving line a sum
   * selects. A positive sum gives 1..6; a negative one keeps its sign.
   */
  function MovingYaoOf(n: int): (r: int)
    ensures r % 6 == n % 6
    ensures n > 0 ==> 1 <= r <= 6 && r == (n - 1) % 6 + 1
    ensures n % 6 == 0 ==> r == 6
    ensures n < 0 && n % 6 != 0 ==> -6 < r < 0
  {
    var rem := MeihuaBagua.JsRem(n, 6);
    if rem == 0 then 6 else rem
  }

  /**
   * `fromNumber`: the moving-line number defaults to upper + lower when it is not
   * given (a given 0 is kept, since `??` only replaces a missing value).
   */
  function FromNumber(upperNumber: int, lowerNumber: int, yaoNumber: Option<int>): (d: QiGuaData)
    ensures d.upperNumber == upperNumber && d.lowerNumber == lowerNumber
    ensures d.yaoNumber == if yaoNumber.Some? then yaoNumber.value else upperNumber + lowerNumber
    ensures d.upperGuaIndex == GuaIndex(upperNumber) && d.lowerGuaIndex == GuaIndex(lowerNumber)
    ensures d.movingYao == MovingYaoOf(d.yaoNumber)
  {
    var actualYaoNumber := match yaoNumber case Some(n) => n case None => upperNumber + lowerNumber;
    QiGuaData(upperNumber, lowerNumber, actualYaoNumber,
      GuaIndex(upperNumber), GuaIndex(lowerNumber), MovingYaoOf(actualYaoNumber))
  }

  /**
   * For positive numbers the cast selects trigram numbers 1..8 and a moving line
   * 1..6, and the trigrams looked up are the entries numbered ((n - 1) mod 8) + 1.
   */
  lemma FromNumberInRange(upperNumber: int, lowerNumber: int, yaoNumber: Option<int>)
    requires upperNumber > 0 && lowerNumber > 0
    requires yaoNumber.Some? ==> yaoNumber.value > 0
    ensures var d := FromNumber(upperNumber, lowerNumber, yaoNumber);
      && 1 <= d.upperGuaIndex <= 8 && 1 <= d.lowerGuaIndex <= 8 && 1 <= d.movingYao <= 6
      && MeihuaBagua.GetBaGuaByNumber(d.upperGuaIndex).Some?
      && MeihuaBagua.GetBaGuaByNumber(d.upperGuaIndex).value.number == (upperNumber - 1) % 8 + 1
      && MeihuaBagua.GetBaGuaByNumber(d.lowerGuaIndex).Some?
      && MeihuaBagua.GetBaGuaByNumber(d.lowerGuaIndex).value.number == (lowerNumber - 1) % 8 + 1
  {
  }

  /** `DIZHI_INDEX` / `DIZHI_TO_SHICHEN`: 子 = 1, 丑 = 2, ..., 亥 = 12. */
  function BranchOrdinal(b: Branch): (n: int)
    ensures 1 <= n <= 12
  {
    b + 1
  }

  /**
   * `fromTime` after the calendar conversion: the year branch, the lunar month
   * (negative for a leap month), the lunar day and the branch of the double hour.
   */
  function FromTime(yearZhi: Branch, lunarMonth: int, lunarDay: int, timeZhi: Branch): (r: (QiGuaData, TimeQiGuaDetail))
    ensures r.1.sumForUpper == BranchOrdinal(yearZhi) + (if lunarMonth < 0 then -lunarMonth else lunarMonth) + lunarDay
    ensures r.1.sumForLower == r.1.sumForUpper + BranchOrdinal(timeZhi)
    ensures r.0.upperNumber == r.1.sumForUpper
    ensures r.0.lowerNumber == r.1.sumForLower && r.0.yaoNumber == r.1.sumForLower
    ensures r.1.lunarMonth >= 0 && r.1.yearZhiIndex == BranchOrdinal(yearZhi) && r.1.shiChenIndex == BranchOrdinal(timeZhi)
  {
    var shiChenIndex := BranchOrdinal(timeZhi);
    var yearZhiIndex := BranchOrdinal(yearZhi);
    var month := if lunarMonth < 0 then -lunarMonth else lunarMonth;
    var sumForUpper := yearZhiIndex + month + lunarDay;
    var sumForLower := sumForUpper + shiChenIndex;
    (QiGuaData(sumForUpper, sumForLower, sumForLower,
       GuaIndex(sumForUpper), GuaIndex(sumForLower), MovingYaoOf(sumForLower)),
     TimeQiGuaDetail(month, lunarDay, shiChenIndex, yearZhiIndex, sumForUpper, sumForLower))
  }

  /**
   * Casting by time is casting by number on the two sums, with the lower sum also
   * choosing the moving line; for a real lunar date (month 1..12 up to sign, day
   * 1..30) every index is in range.
   */
  lemma FromTimeIsFromNumber(yearZhi: Branch, lunarMonth: int, lunarDay: int, timeZhi: Branch)
    ensures var (d, t) := FromTime(yearZhi, lunarMonth, lunarDay, timeZhi);
      d == FromNumber(t.sumForUpper, t.sumForLower, Some(t.sumForLower))
    ensures lunarDay >= 1 ==>
      var d := FromTime(yearZhi, lunarMonth, lunarDay, timeZhi).0;
      1 <= d.upperGuaIndex <= 8 && 1 <= d.lowerGuaIndex <= 8 && 1 <= d.movingYao <= 6
  {
  }
}
