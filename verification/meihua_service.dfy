/**
 * `MeihuaService`: checks the input, casts the numbers, looks up the two trigrams
 * of the original hexagram (本卦) and assembles it with its changed (變卦) and
 * nuclear (互卦) hexagrams and the body/use analysis.
 */
module MeihuaService {
  import opened Symbols
  import opened Wrappers
  import opened MeihuaBagua
  import MeihuaQigua
  import MeihuaHugua
  import MeihuaBiangua
  import MeihuaTiyong

  /** `QiGuaMethod`. */
  datatype QiGuaMethod = Time | Number

  /** `MeihuaInput`; a field that is not given is `None`. */
  datatype MeihuaInput = MeihuaInput(
    qiGuaMethod: QiGuaMethod,
    year: Option<int>,
    month: Option<int>,
    day: Option<int>,
    hour: Option<int>,
    upperNumber: Option<int>,
    lowerNumber: Option<int>,
    yaoNumber: Option<int>)

  /**
   * What the calendar library answers for the time inputs: the branch of the lunar
   * year, the lunar month (negative for a leap month), the lunar day and the
   * branch of the double hour.
   */
  datatype LunarMoment = LunarMoment(yearZhi: Branch, month: int, day: int, timeZhi: Branch)

  /** `GuaXiang`: a hexagram's name with the entries of its two trigrams. */
  datatype GuaXiang = GuaXiang(name: string, upperGua: BaGuaInfo, lowerGua: BaGuaInfo)

  /** `MeihuaResult` without the display dates. */
  datatype MeihuaResult = MeihuaResult(
    qiGuaMethod: QiGuaMethod,
    qiGuaData: MeihuaQigua.QiGuaData,
    timeDetail: Option<MeihuaQigua.TimeQiGuaDetail>,
    benGua: GuaXiang,
    bianGua: GuaXiang,
    huGua: GuaXiang,
    movingYao: int,
    tiYong: MeihuaTiyong.TiYongAnalysis)

  /** JavaScript's `!v` for an optional number: missing or 0. */
  predicate Falsy(v: Option<int>) {
    v.None? || v.value == 0
  }

  /** `getBaGuaNumberByName`: the 先天 number of a trigram. */
  function GetBaGuaNumberByName(name: Trigram): (n: int)
    ensures n == XianTianNumber(name)
    ensures GetBaGuaByNumber(n).Some? && GetBaGuaByNumber(n).value.name == name
  {
    match name
    case Qian => 1
    case Dui => 2
    case Li => 3
    case Zhen => 4
    case Xun => 5
    case Kan => 6
    case Gen => 7
    case Kun => 8
  }

  /** On 1..8 looking a trigram up by number and reading its number back by name are inverse. */
  lemma NumberByNameInverse(n: int, t: Trigram)
    ensures 1 <= n <= 8 ==> GetBaGuaNumberByName(GetBaGuaByNumber(n).value.name) == n
    ensures GetBaGuaByNumber(GetBaGuaNumberByName(t)).value.name == t
  {
    if 1 <= n <= 8 {
      DataNumbered(n - 1);
    }
  }

  /** A hexagram as reported: its name and the table entries of its two trigrams. */
  function GuaXiangOf(h: Hexagram): (g: GuaXiang)
    ensures g.upperGua.name == h.upper && g.lowerGua.name == h.lower
    ensures g.name == GetGua64Name(h.upper, h.lower)
  {
    GuaXiang(GetGua64Name(h.upper, h.lower),
      GetBaGuaByNumber(GetBaGuaNumberByName(h.upper)).value,
      GetBaGuaByNumber(GetBaGuaNumberByName(h.lower)).value)
  }

  /**
   * Everything after the cast, common to both methods. A trigram number that
   * `getBaGuaByNumber` cannot find (a negative one) yields `undefined`, and reading
   * its name then throws.
   */
  function Assemble(qiGuaMethod: QiGuaMethod, qiGuaData: MeihuaQigua.QiGuaData,
                    timeDetail: Option<MeihuaQigua.TimeQiGuaDetail>): (r: Result<MeihuaResult>)
    ensures r.Ok? <==>
      GetBaGuaByNumber(qiGuaData.upperGuaIndex).Some? && GetBaGuaByNumber(qiGuaData.lowerGuaIndex).Some?
    ensures r.Ok? ==>
      var res := r.value;
      var ben := Hexagram(res.benGua.upperGua.name, res.benGua.lowerGua.name);
      && res.qiGuaMethod == qiGuaMethod && res.qiGuaData == qiGuaData && res.timeDetail == timeDetail
      && Some(res.benGua.upperGua) == GetBaGuaByNumber(qiGuaData.upperGuaIndex)
      && Some(res.benGua.lowerGua) == GetBaGuaByNumber(qiGuaData.lowerGuaIndex)
      && res.benGua.name == GetGua64Name(ben.upper, ben.lower)
      && res.bianGua == GuaXiangOf(MeihuaBiangua.Bian(ben, qiGuaData.movingYao))
      && res.huGua == GuaXiangOf(MeihuaHugua.Calculate(ben))
      && res.movingYao == qiGuaData.movingYao
      && res.tiYong == MeihuaTiyong.Calculate(res.benGua.upperGua.wuXing, res.benGua.lowerGua.wuXing, qiGuaData.movingYao)
  {
    var upperGuaInfo := GetBaGuaByNumber(qiGuaData.upperGuaIndex);
    var lowerGuaInfo := GetBaGuaByNumber(qiGuaData.lowerGuaIndex);
    if upperGuaInfo.None? || lowerGuaInfo.None? then Err("Cannot read properties of undefined (reading 'name')")
    else
      var ben := Hexagram(upperGuaInfo.value.name, lowerGuaInfo.value.name);
      var benGua := GuaXiang(GetGua64Name(ben.upper, ben.lower), upperGuaInfo.value, lowerGuaInfo.value);
      var bianGua := GuaXiangOf(MeihuaBiangua.Bian(ben, qiGuaData.movingYao));
      var huGua := GuaXiangOf(MeihuaHugua.Calculate(ben));
      var tiYong := MeihuaTiyong.Calculate(upperGuaInfo.value.wuXing, lowerGuaInfo.value.wuXing, qiGuaData.movingYao);
      Ok(MeihuaResult(qiGuaMethod, qiGuaData, timeDetail, benGua, bianGua, huGua, qiGuaData.movingYao, tiYong))
  }

  /**
   * `calculateByTime`: fails unless year, month and day are given and non-zero and
   * the hour is given (hour 0 is allowed); then casts from the lunar moment.
   */
  function CalculateByTime(input: MeihuaInput, lunar: LunarMoment): (r: Result<MeihuaResult>)
    ensures Falsy(input.year) || Falsy(input.month) || Falsy(input.day) || input.hour.None? ==> r.Err?
    ensures !(Falsy(input.year) || Falsy(input.month) || Falsy(input.day) || input.hour.None?) && lunar.day >= 1 ==>
      && r.Ok? && r.value.qiGuaMethod == Time
      && r.value.qiGuaData == MeihuaQigua.FromTime(lunar.yearZhi, lunar.month, lunar.day, lunar.timeZhi).0
      && r.value.timeDetail == Some(MeihuaQigua.FromTime(lunar.yearZhi, lunar.month, lunar.day, lunar.timeZhi).1)
  {
    if Falsy(input.year) || Falsy(input.month) || Falsy(input.day) || input.hour.None? then
      Err("時間起卦需要提供完整的年月日時")
    else
      var (qiGuaData, timeDetail) := MeihuaQigua.FromTime(lunar.yearZhi, lunar.month, lunar.day, lunar.timeZhi);
      MeihuaQigua.FromTimeIsFromNumber(lunar.yearZhi, lunar.month, lunar.day, lunar.timeZhi);
      Assemble(Time, qiGuaData, Some(timeDetail))
  }

  /**
   * `calculateByNumber`: fails when the upper or lower number is missing or 0, and
   * when either is a negative number whose remainder by 8 is not 0 (its trigram
   * lookup is `undefined`); otherwise casts from the numbers.
   */
  function CalculateByNumber(input: MeihuaInput): (r: Result<MeihuaResult>)
    ensures r.Ok? <==>
      && !Falsy(input.upperNumber) && !Falsy(input.lowerNumber)
      && (input.upperNumber.value > 0 || input.upperNumber.value % 8 == 0)
      && (input.lowerNumber.value > 0 || input.lowerNumber.value % 8 == 0)
    ensures r.Ok? ==>
      && r.value.qiGuaMethod == Number && r.value.timeDetail.None?
      && r.value.qiGuaData == MeihuaQigua.FromNumber(input.upperNumber.value, input.lowerNumber.value, input.yaoNumber)
  {
    if Falsy(input.upperNumber) || Falsy(input.lowerNumber) then
      Err("數字起卦需要提供上卦數和下卦數")
    else
      var qiGuaData := MeihuaQigua.FromNumber(input.upperNumber.value, input.lowerNumber.value, input.yaoNumber);
      Assemble(Number, qiGuaData, None)
  }

  /** `calculate`: the time method when asked for, the number method otherwise. */
  function Calculate(input: MeihuaInput, lunar: LunarMoment): (r: Result<MeihuaResult>)
    ensures r == if input.qiGuaMethod == Time then CalculateByTime(input, lunar) else CalculateByNumber(input)
  {
    match input.qiGuaMethod
    case Time => CalculateByTime(input, lunar)
    case Number => CalculateByNumber(input)
  }

  /**
   * With positive numbers (and a positive moving-line number when one is given) the
   * number method succeeds with a moving line 1..6, and its 變卦 changes the use
   * trigram of the 本卦 and keeps the body trigram.
   */
  lemma NumberCastChangesUseTrigram(input: MeihuaInput)
    requires input.upperNumber.Some? && input.upperNumber.value > 0
    requires input.lowerNumber.Some? && input.lowerNumber.value > 0
    requires input.yaoNumber.Some? ==> input.yaoNumber.value > 0
    ensures CalculateByNumber(input).Ok?
    ensures var res := CalculateByNumber(input).value;
      var ben := Hexagram(res.benGua.upperGua.name, res.benGua.lowerGua.name);
      var bian := Hexagram(res.bianGua.upperGua.name, res.bianGua.lowerGua.name);
      && 1 <= res.movingYao <= 6
      && (res.tiYong.yongGua == MeihuaTiyong.Lower ==> bian.lower != ben.lower && bian.upper == ben.upper)
      && (res.tiYong.yongGua == MeihuaTiyong.Upper ==> bian.upper != ben.upper && bian.lower == ben.lower)
  {
    var d := MeihuaQigua.FromNumber(input.upperNumber.value, input.lowerNumber.value, input.yaoNumber);
    MeihuaQigua.FromNumberInRange(input.upperNumber.value, input.lowerNumber.value, input.yaoNumber);
    var res := CalculateByNumber(input).value;
    assert res.qiGuaData == d;
    var ben := Hexagram(res.benGua.upperGua.name, res.benGua.lowerGua.name);
    assert Hexagram(res.bianGua.upperGua.name, res.bianGua.lowerGua.name) == MeihuaBiangua.Bian(ben, d.movingYao);
    MeihuaBiangua.OtherTrigramKept(ben, d.movingYao);
  }
}
