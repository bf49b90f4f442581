/**
 * The four lodges (四課) of Da Liu Ren, read off the plate from the day stem and
 * the day branch: the first lodge stands over the stem's palace (寄宮), the second
 * over the first lodge's upper branch, the third over the day branch and the fourth
 * over the third lodge's upper branch.
 */
module SiKe {
  import opened Symbols
  import opened Wrappers
  import opened LiurenTables
  import opened TianDiPan

  /** A lodge's lower spirit (下神): the day stem for the first lodge, a branch otherwise. */
  datatype Lower = StemLower(stem: Stem) | BranchLower(branch: Branch)

  /** How the upper spirit stands to the lower one. */
  datatype LodgeRelation =
    | ShangKeXia     // 上尅下
    | XiaZeiShang    // 下賊上
    | BiHe           // 比和
    | ShangShengXia  // 上生下
    | XiaShengShang  // 下生上

  type LodgePosition = n: int | 1 <= n <= 4 witness 1

  datatype Lodge = Lodge(position: LodgePosition, upper: Branch, lower: Lower, general: General, relation: LodgeRelation)

  type LodgeList = s: seq<Lodge> | |s| == 4
    witness [Lodge(1, Zi, BranchLower(Zi), Noble, BiHe), Lodge(1, Zi, BranchLower(Zi), Noble, BiHe),
             Lodge(1, Zi, BranchLower(Zi), Noble, BiHe), Lodge(1, Zi, BranchLower(Zi), Noble, BiHe)]

  datatype SiKeInfo = SiKeInfo(list: LodgeList, dayGan: Stem, dayZhi: Branch, dayGanJiGong: Branch)

  /** The counts of each relation among the lodges. */
  datatype Stats = Stats(shangKeXia: nat, xiaZeiShang: nat, biHe: nat, shangShengXia: nat, xiaShengShang: nat)

  /** A plate whose records have an entry for every branch, as their `Record<DiZhi, …>` type promises. */
  predicate TotalRecords(plate: Plate) {
    forall b: Branch :: b in plate.diToTian && b in plate.diToJiang
  }

  /** The earth position a lower spirit stands on: a stem stands on its palace. */
  function EarthOf(t: Tables, lower: Lower): Branch {
    match lower
    case StemLower(s) => t.ganJiGong(s)
    case BranchLower(b) => b
  }

  /** The lower spirit's phase: a stem's phase for the day stem, a branch's phase otherwise. */
  function LowerPhase(t: Tables, lower: Lower): Phase {
    match lower
    case StemLower(s) => t.ganWuXing(s)
    case BranchLower(b) => t.zhiWuXing(b)
  }

  /** The relation of an upper branch to its lower spirit, from the relation word; a missing or unknown word counts as 比和. */
  function Relation(t: Tables, upper: Branch, lower: Lower): (r: LodgeRelation)
    ensures var word := t.wuxingRelation(t.zhiWuXing(upper), LowerPhase(t, lower));
      && (r == ShangKeXia <==> word == Some("尅"))
      && (r == XiaZeiShang <==> word == Some("被尅"))
      && (r == ShangShengXia <==> word == Some("生"))
      && (r == XiaShengShang <==> word == Some("被生"))
      && (r == BiHe <==> word !in {Some("尅"), Some("被尅"), Some("生"), Some("被生")})
  {
    var word := t.wuxingRelation(t.zhiWuXing(upper), LowerPhase(t, lower));
    if word == Some("尅") then ShangKeXia
    else if word == Some("被尅") then XiaZeiShang
    else if word == Some("比和") then BiHe
    else if word == Some("生") then ShangShengXia
    else if word == Some("被生") then XiaShengShang
    else BiHe
  }

  /** With the standard relation table, each relation is the matching five-phase fact about the upper and lower phases. */
  lemma RelationMeaning(t: Tables, upper: Branch, lower: Lower)
    requires StandardRelationTable(t)
    ensures var up := t.zhiWuXing(upper);
      var low := LowerPhase(t, lower);
      var r := Relation(t, upper, lower);
      && (r == ShangKeXia <==> Overcomes(up) == low)
      && (r == XiaZeiShang <==> Overcomes(low) == up)
      && (r == BiHe <==> up == low)
      && (r == ShangShengXia <==> Generates(up) == low)
      && (r == XiaShengShang <==> Generates(low) == up)
  {
    FivePhaseCases(t.zhiWuXing(upper), LowerPhase(t, lower));
  }

  /** One lodge at `position`: the upper spirit is the heaven branch over the lower spirit's earth position. */
  function BuildLodge(t: Tables, plate: Plate, position: LodgePosition, lower: Lower): Lodge
    requires TotalRecords(plate)
  {
    var earth := EarthOf(t, lower);
    var upper := plate.diToTian[earth];
    Lodge(position, upper, lower, plate.diToJiang[earth], Relation(t, upper, lower))
  }

  /** The four lodges of a day stem and day branch on a plate. */
  function Calculate(t: Tables, dayGan: Stem, dayZhi: Branch, plate: Plate): (info: SiKeInfo)
    requires TotalRecords(plate)
    ensures info.dayGanJiGong == t.ganJiGong(dayGan)
    ensures info.list[0].lower == StemLower(dayGan)
    ensures info.list[1].lower == BranchLower(info.list[0].upper)
    ensures info.list[2].lower == BranchLower(dayZhi)
    ensures info.list[3].lower == BranchLower(info.list[2].upper)
    ensures forall k :: 0 <= k < 4 ==>
      var lodge := info.list[k];
      && lodge.position == k + 1
      && lodge.upper == plate.diToTian[EarthOf(t, lodge.lower)]
      && lodge.general == plate.diToJiang[EarthOf(t, lodge.lower)]
      && lodge.relation == Relation(t, lodge.upper, lodge.lower)
  {
    var dayGanJiGong := t.ganJiGong(dayGan);
    var yiKe := BuildLodge(t, plate, 1, StemLower(dayGan));
    var erKe := BuildLodge(t, plate, 2, BranchLower(yiKe.upper));
    var sanKe := BuildLodge(t, plate, 3, BranchLower(dayZhi));
    var siKe := BuildLodge(t, plate, 4, BranchLower(sanKe.upper));
    SiKeInfo([yiKe, erKe, sanKe, siKe], dayGan, dayZhi, dayGanJiGong)
  }

  /** 伏吟: the plate's heaven record maps every branch to itself. */
  lemma FuYinRecord(t: Tables, jieqi: string, hourZhi: Branch, dayGan: Stem)
    requires MonthGeneral(t, jieqi) == hourZhi
    ensures var plate := PlateOf(t, jieqi, hourZhi, dayGan);
      TotalRecords(plate) && forall b: Branch :: plate.diToTian[b] == b
  {
    var plate := PlateOf(t, jieqi, hourZhi, dayGan);
    ByEarthOfEarthOrder(plate.tianPan);
    ByEarthOfEarthOrder(plate.tianJiang);
    FuYinPlate(plate.yueJiang, hourZhi);
  }

  /** 返吟: the plate's heaven record maps every branch to its opposite. */
  lemma FanYinRecord(t: Tables, jieqi: string, hourZhi: Branch, dayGan: Stem)
    requires MonthGeneral(t, jieqi) == Shift(hourZhi, 6)
    ensures var plate := PlateOf(t, jieqi, hourZhi, dayGan);
      TotalRecords(plate) && forall b: Branch :: plate.diToTian[b] == Shift(b, 6)
  {
    var plate := PlateOf(t, jieqi, hourZhi, dayGan);
    ByEarthOfEarthOrder(plate.tianPan);
    ByEarthOfEarthOrder(plate.tianJiang);
    FanYinPlate(plate.yueJiang, hourZhi);
  }

  /** 伏吟: the first two lodges show the stem's palace and the last two the day branch. */
  lemma FuYinLodges(t: Tables, jieqi: string, hourZhi: Branch, dayGan: Stem, dayZhi: Branch)
    requires MonthGeneral(t, jieqi) == hourZhi
    ensures var plate := PlateOf(t, jieqi, hourZhi, dayGan);
      TotalRecords(plate) &&
      var info := Calculate(t, dayGan, dayZhi, plate);
      && info.list[0].upper == t.ganJiGong(dayGan) && info.list[1].upper == t.ganJiGong(dayGan)
      && info.list[2].upper == dayZhi && info.list[3].upper == dayZhi
  {
    FuYinRecord(t, jieqi, hourZhi, dayGan);
  }

  /** 返吟: each lodge's upper branch is opposite its earth position, so the second (fourth) lodge returns to the first (third) lodge's position. */
  lemma FanYinLodges(t: Tables, jieqi: string, hourZhi: Branch, dayGan: Stem, dayZhi: Branch)
    requires MonthGeneral(t, jieqi) == Shift(hourZhi, 6)
    ensures var plate := PlateOf(t, jieqi, hourZhi, dayGan);
      TotalRecords(plate) &&
      var info := Calculate(t, dayGan, dayZhi, plate);
      && (forall k :: 0 <= k < 4 ==> info.list[k].upper == Shift(EarthOf(t, info.list[k].lower), 6))
      && info.list[1].upper == t.ganJiGong(dayGan)
      && info.list[3].upper == dayZhi
  {
    FanYinRecord(t, jieqi, hourZhi, dayGan);
    ShiftSmall(t.ganJiGong(dayGan), 6);
    ShiftSmall(Shift(t.ganJiGong(dayGan), 6), 6);
    ShiftSmall(dayZhi, 6);
    ShiftSmall(Shift(dayZhi, 6), 6);
  }

  /** The number of lodges (or other entries) carrying relation `r`. */
  function CountRelation(list: seq<Lodge>, r: LodgeRelation): (n: nat)
    ensures n <= |list|
  {
    if |list| == 0 then 0
    else (if list[0].relation == r then 1 else 0) + CountRelation(list[1..], r)
  }

  /** A relation is counted exactly when some lodge carries it. */
  lemma {:induction false} CountRelationPositive(list: seq<Lodge>, r: LodgeRelation)
    ensures CountRelation(list, r) > 0 <==> exists i :: 0 <= i < |list| && list[i].relation == r
  {
    if |list| > 0 {
      CountRelationPositive(list[1..], r);
      if list[0].relation != r {
        assert forall i :: 1 <= i < |list| ==> list[i] == list[1..][i - 1];
      } else {
        assert list[0].relation == r;
      }
    }
  }

  /** Every lodge carries exactly one of the five relations, so the five counts add up to the number of lodges. */
  lemma {:induction false} CountsAddUp(list: seq<Lodge>)
    ensures CountRelation(list, ShangKeXia) + CountRelation(list, XiaZeiShang) + CountRelation(list, BiHe)
          + CountRelation(list, ShangShengXia) + CountRelation(list, XiaShengShang) == |list|
  {
    if |list| > 0 {
      CountsAddUp(list[1..]);
    }
  }

  /** Counting a list with one more lodge at the end adds that lodge's relation. */
  lemma {:induction false} CountRelationAppend(list: seq<Lodge>, lodge: Lodge)
    ensures forall r :: CountRelation(list + [lodge], r) == CountRelation(list, r) + (if lodge.relation == r then 1 else 0)
  {
    if |list| > 0 {
      CountRelationAppend(list[1..], lodge);
      assert (list + [lodge])[1..] == list[1..] + [lodge];
    }
  }

  /** Counts the relations over the four lodges. */
  method AnalyzeRelations(siKe: SiKeInfo) returns (stats: Stats)
    ensures stats.shangKeXia == CountRelation(siKe.list, ShangKeXia)
    ensures stats.xiaZeiShang == CountRelation(siKe.list, XiaZeiShang)
    ensures stats.biHe == CountRelation(siKe.list, BiHe)
    ensures stats.shangShengXia == CountRelation(siKe.list, ShangShengXia)
    ensures stats.xiaShengShang == CountRelation(siKe.list, XiaShengShang)
  {
    stats := Stats(0, 0, 0, 0, 0);
    var list := siKe.list;
    for i := 0 to |list|
      invariant stats.shangKeXia == CountRelation(list[..i], ShangKeXia)
      invariant stats.xiaZeiShang == CountRelation(list[..i], XiaZeiShang)
      invariant stats.biHe == CountRelation(list[..i], BiHe)
      invariant stats.shangShengXia == CountRelation(list[..i], ShangShengXia)
      invariant stats.xiaShengShang == CountRelation(list[..i], XiaShengShang)
    {
      assert list[..i + 1] == list[..i] + [list[i]];
      CountRelationAppend(list[..i], list[i]);
      match list[i].relation {
        case ShangKeXia => stats := stats.(shangKeXia := stats.shangKeXia + 1);
        case XiaZeiShang => stats := stats.(xiaZeiShang := stats.xiaZeiShang + 1);
        case BiHe => stats := stats.(biHe := stats.biHe + 1);
        case ShangShengXia => stats := stats.(shangShengXia := stats.shangShengXia + 1);
        case XiaShengShang => stats := stats.(xiaShengShang := stats.xiaShengShang + 1);
      }
    }
    assert list[..|list|] == list;
  }
}
