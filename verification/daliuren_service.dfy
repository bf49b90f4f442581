/**
 * The Da Liu Ren service: parses the day and hour pillars and runs the plate, the
 * four lodges, the three transmissions and the deities in a fixed order. The two
 * characters of a pillar string are taken as an already-parsed `Pillar`.
 */
module DaliurenService {
  import opened Symbols
  import opened LiurenTables
  import TianDiPan
  import SiKe
  import SanChuan
  import ShenSha

  datatype Input = Input(jieqi: string, lunarMonth: int, dayGanZhi: Pillar, hourGanZhi: Pillar)

  datatype BasicInfo = BasicInfo(jieqi: string, lunarMonth: string, dayGanZhi: Pillar, hourGanZhi: Pillar, dayNight: DayNight)

  datatype DaliurenResult = DaliurenResult(
    basicInfo: BasicInfo,
    tianDiPan: TianDiPan.Plate,
    siKe: SiKe.SiKeInfo,
    sanChuan: SanChuan.SanChuan,
    shenSha: ShenSha.ShenShaInfo)

  const MonthNames: seq<string> := ["正", "二", "三", "四", "五", "六", "七", "八", "九", "十", "十一", "十二"]

  /** `monthNames[month - 1] + '月'`; a month outside 1..12 reads `undefined`. */
  function FormatLunarMonth(month: int): (s: string)
    ensures 1 <= month <= 12 ==> s == MonthNames[month - 1] + "月"
    ensures !(1 <= month <= 12) ==> s == "undefined月"
  {
    if 1 <= month <= 12 then MonthNames[month - 1] + "月" else "undefined月"
  }

  /** Distinct lunar months get distinct names, and none of them is the name of an out-of-range month. */
  lemma FormatLunarMonthInjective(m1: int, m2: int)
    requires 1 <= m1 <= 12
    ensures FormatLunarMonth(m1) != FormatLunarMonth(0)
    ensures 1 <= m2 <= 12 && FormatLunarMonth(m1) == FormatLunarMonth(m2) ==> m1 == m2
  {
    var s1 := FormatLunarMonth(m1);
    assert s1[..|s1| - 1] == MonthNames[m1 - 1];
    assert s1[0] != 'u';
    if 1 <= m2 <= 12 && s1 == FormatLunarMonth(m2) {
      var s2 := FormatLunarMonth(m2);
      assert s2[..|s2| - 1] == MonthNames[m2 - 1];
    }
  }

  /** Plate, lodges, transmissions and deities, in that order, with the basic information echoed. */
  method Calculate(t: Tables, input: Input) returns (r: DaliurenResult)
    ensures var dayGan := input.dayGanZhi.stem;
      var dayZhi := input.dayGanZhi.branch;
      var hourZhi := input.hourGanZhi.branch;
      var plate := TianDiPan.PlateOf(t, input.jieqi, hourZhi, dayGan);
      && SiKe.TotalRecords(plate)
      && r.tianDiPan == plate
      && r.siKe == SiKe.Calculate(t, dayGan, dayZhi, plate)
      && r.sanChuan == SanChuan.SanChuanOf(t, r.siKe, plate, input.dayGanZhi, hourZhi)
      && r.shenSha == ShenSha.Calculate(t, input.dayGanZhi)
      && r.basicInfo == BasicInfo(input.jieqi, FormatLunarMonth(input.lunarMonth), input.dayGanZhi, input.hourGanZhi, t.dayNight(hourZhi))
  {
    var dayGan := input.dayGanZhi.stem;
    var dayZhi := input.dayGanZhi.branch;
    var hourZhi := input.hourGanZhi.branch;
    var tianDiPan := TianDiPan.Calculate(t, input.jieqi, hourZhi, dayGan);
    TianDiPan.ByEarthOfEarthOrder(tianDiPan.tianPan);
    TianDiPan.ByEarthOfEarthOrder(tianDiPan.tianJiang);
    var siKe := SiKe.Calculate(t, dayGan, dayZhi, tianDiPan);
    var sanChuan := SanChuan.Calculate(t, siKe, tianDiPan, input.dayGanZhi, hourZhi);
    var shenSha := ShenSha.Calculate(t, input.dayGanZhi);
    var dayNight := t.dayNight(hourZhi);
    r := DaliurenResult(
      BasicInfo(input.jieqi, FormatLunarMonth(input.lunarMonth), input.dayGanZhi, input.hourGanZhi, dayNight),
      tianDiPan, siKe, sanChuan, shenSha);
  }
}
