/**
 * The Liu Yao (六爻) service: from six line values, bottom first, and the pillars of the
 * moment it builds the cast hexagram (本卦), the moving lines, the changed hexagram (變卦),
 * the six-line list and the hidden spirits (伏神).
 */
module LiuyaoService {
  import opened Symbols
  import opened Wrappers
  import opened Guagong
  import Najia
  import Liuqin
  import Liushen
  import Xunkong
  import Fushen
  import Jintuishen
  import Wangshuai

  /** `GuaInfo`: a hexagram, its palace and the palace's phase, its 世 and 應 lines and its rank in the palace. */
  datatype GuaInfo = GuaInfo(
    name: string,
    upperGua: Trigram,
    lowerGua: Trigram,
    gong: Trigram,
    gongWuXing: Phase,
    shiYaoPosition: int,
    yingYaoPosition: int,
    guaXu: int,
    isYouHun: bool,
    isGuiHun: bool)

  /** `TimeInfo` without the calendar strings: the four pillars, the day stem, the month branch and the void pair. */
  datatype TimeInfo = TimeInfo(
    yearGanZhi: Pillar,
    monthGanZhi: Pillar,
    dayGanZhi: Pillar,
    hourGanZhi: Pillar,
    dayStem: Stem,
    monthBranch: Branch,
    xunKong: Xunkong.VoidPair)

  /**
   * `YaoInfo`, one line of the list. The optional fields use `None` for a field left
   * undefined; `jinTuiShen` is `Some(None)` when the 進退神 calculator returned `null`.
   */
  datatype YaoInfo = YaoInfo(
    position: int,
    value: Najia.YaoValue,
    yinYang: Najia.YinYang,
    isMoving: bool,
    changedYinYang: Option<Najia.YinYang>,
    naJia: Branch,
    naJiaWuXing: Phase,
    changedNaJia: Option<Branch>,
    liuQin: Liuqin.Kin,
    liuShen: Liushen.Spirit,
    isShiYao: bool,
    isYingYao: bool,
    jinTuiShen: Option<Option<Jintuishen.JinTui>>,
    wangShuaiByMonth: Wangshuai.State,
    wangShuaiByDay: Wangshuai.State)

  /** `LiuyaoResult`. */
  datatype LiuyaoResult = LiuyaoResult(
    timeInfo: TimeInfo,
    benGua: GuaInfo,
    bianGua: Option<GuaInfo>,
    yaoList: seq<YaoInfo>,
    movingYaoPositions: seq<int>,
    fuShenList: seq<Fushen.FuShenInfo>)

  /**
   * The part of `calculateTimeInfo` after the calendar: the day stem, the month branch and
   * the void pair of the day pillar. The day's own branch is never void.
   */
  function CalculateTimeInfo(yearGanZhi: Pillar, monthGanZhi: Pillar, dayGanZhi: Pillar, hourGanZhi: Pillar): (t: TimeInfo)
    ensures t.yearGanZhi == yearGanZhi && t.monthGanZhi == monthGanZhi && t.dayGanZhi == dayGanZhi && t.hourGanZhi == hourGanZhi
    ensures t.dayStem == dayGanZhi.stem && t.monthBranch == monthGanZhi.branch
    ensures t.xunKong == Xunkong.Calculate(dayGanZhi.stem, dayGanZhi.branch)
    ensures !Xunkong.IsKong(dayGanZhi.branch, t.xunKong)
  {
    var start := Xunkong.XunStart(dayGanZhi.stem, dayGanZhi.branch);
    assert Shift(start, dayGanZhi.stem as int) == dayGanZhi.branch;
    TimeInfo(yearGanZhi, monthGanZhi, dayGanZhi, hourGanZhi, dayGanZhi.stem, monthGanZhi.branch,
      Xunkong.Calculate(dayGanZhi.stem, dayGanZhi.branch))
  }

  /**
   * The `GuaInfo` built from `getGua64Info`: its trigrams are the ones asked for, its
   * palace phase is the palace trigram's, it is 遊魂 exactly at rank 7 and 歸魂 exactly
   * at rank 8, and its 世 and 應 are two different lines.
   */
  function GuaInfoOf(upper: Trigram, lower: Trigram): (g: GuaInfo)
    ensures g.upperGua == upper && g.lowerGua == lower
    ensures g.gongWuXing == TrigramPhase(g.gong)
    ensures 1 <= g.guaXu <= 8 && g.shiYaoPosition == ShiOf(g.guaXu)
    ensures g.isYouHun <==> g.guaXu == 7
    ensures g.isGuiHun <==> g.guaXu == 8
    ensures !(g.isYouHun && g.isGuiHun)
    ensures 1 <= g.shiYaoPosition <= 6 && 1 <= g.yingYaoPosition <= 6 && g.shiYaoPosition != g.yingYaoPosition
  {
    var d := GetGua64Info(upper, lower);
    GuaInfo(d.name, d.upper, d.lower, d.gong, TrigramPhase(d.gong), d.shiYao, d.yingYao, d.guaXu, d.guaXu == 7, d.guaXu == 8)
  }

  /**
   * `getGuaFromYinYang`: lines one to three weighted 4, 2, 1 give the lower trigram and
   * lines four to six the upper one; the hexagram drawn from the result is the input.
   */
  function GetGuaFromYinYang(yinYang: seq<bool>): (r: Najia.UpperLower)
    requires |yinYang| == 6
    ensures HexLines(r.upper, r.lower) == yinYang
  {
    var lowerBinary := LinesToBinary(yinYang[0], yinYang[1], yinYang[2]);
    var upperBinary := LinesToBinary(yinYang[3], yinYang[4], yinYang[5]);
    var upper := BinaryToTrigram(upperBinary).value;
    var lower := BinaryToTrigram(lowerBinary).value;
    LinesOfBinary(lower, yinYang[0], yinYang[1], yinYang[2]);
    LinesOfBinary(upper, yinYang[3], yinYang[4], yinYang[5]);
    Najia.UpperLower(upper, lower)
  }

  /** `changedYaoYinYang`: the polarity of each line after the moving lines turn. */
  function ChangedPattern(values: seq<Najia.YaoValue>): (lines: seq<bool>)
    requires |values| == 6
    ensures |lines| == 6
    ensures forall i :: 0 <= i < 6 ==> (lines[i] != Najia.YangPattern(values)[i] <==> Najia.IsMoving(values[i]))
  {
    seq(6, i requires 0 <= i < 6 =>
      if Najia.IsMoving(values[i]) then !Najia.IsYangValue(values[i]) else Najia.IsYangValue(values[i]))
  }

  /** `movingYaoPositions` after the first `n` lines. */
  function MovingUpTo(values: seq<Najia.YaoValue>, n: nat): seq<int>
    requires n <= |values|
  {
    if n == 0 then []
    else MovingUpTo(values, n - 1) + (if Najia.IsMoving(values[n - 1]) then [n] else [])
  }

  /** The numbers strictly increase. */
  predicate Increasing(s: seq<int>) {
    forall i, j :: 0 <= i < j < |s| ==> s[i] < s[j]
  }

  /** The moving positions are the lines with value 6 or 9, numbered from one, in increasing order. */
  lemma {:induction false} MovingPositions(values: seq<Najia.YaoValue>, n: nat)
    requires n <= |values|
    ensures forall p :: p in MovingUpTo(values, n) <==> 1 <= p <= n && Najia.IsMoving(values[p - 1])
    ensures Increasing(MovingUpTo(values, n))
  {
    if n > 0 {
      MovingPositions(values, n - 1);
      var prev := MovingUpTo(values, n - 1);
      var m := MovingUpTo(values, n);
      assert m == prev + (if Najia.IsMoving(values[n - 1]) then [n] else []);
      forall i, j | 0 <= i < j < |m|
        ensures m[i] < m[j]
      {
        assert m[i] == prev[i] && m[i] in prev;
        if j >= |prev| {
          assert m[j] == n;
        } else {
          assert m[j] == prev[j];
        }
      }
    }
  }

  /** The cast hexagram and the moving values have the same bit order as `getGuaFromYaoValues`: with no moving line the changed trigrams are the cast ones. */
  lemma SameBitOrder(values: seq<Najia.YaoValue>)
    requires |values| == 6
    ensures GetGuaFromYinYang(Najia.YangPattern(values)) == Najia.GetGuaFromYaoValues(values)
    ensures (forall i :: 0 <= i < 6 ==> !Najia.IsMoving(values[i]))
        ==> GetGuaFromYinYang(ChangedPattern(values)) == Najia.GetGuaFromYaoValues(values)
  {
    var r := GetGuaFromYinYang(Najia.YangPattern(values));
    Najia.GuaFromYaoValuesRoundTrip(values, r.upper, r.lower);
    if forall i :: 0 <= i < 6 ==> !Najia.IsMoving(values[i]) {
      assert ChangedPattern(values) == Najia.YangPattern(values);
    }
  }

  /**
   * The record `calculateYaoList` pushes for line `i + 1` with value `v`, given its 納甲, its
   * changed branch if any and its spirit: polarity, kin, 世/應 flags, 進退神 and the month and
   * day strength are computed from these.
   */
  function YaoOf(i: int, v: Najia.YaoValue, naJia: Najia.NaJiaResult, changedNaJia: Option<Branch>, liuShen: Liushen.Spirit,
                 benGua: GuaInfo, monthBranch: Branch, dayBranch: Branch): YaoInfo
  {
    YaoInfo(i + 1, v, Najia.GetYinYang(v), Najia.IsMoving(v), Najia.GetChangedYinYang(v), naJia.diZhi, naJia.wuXing,
      changedNaJia, Liuqin.Calculate(benGua.gongWuXing, naJia.wuXing), liuShen,
      i + 1 == benGua.shiYaoPosition, i + 1 == benGua.yingYaoPosition,
      if changedNaJia.Some? then Some(Jintuishen.Calculate(naJia.diZhi, changedNaJia.value)) else None,
      Wangshuai.Calculate(naJia.wuXing, monthBranch), Wangshuai.Calculate(naJia.wuXing, dayBranch))
  }

  /** One entry of `yaoList`, as the loop of `calculateYaoList` builds it for line `i + 1`. */
  function YaoAt(values: seq<Najia.YaoValue>, benGua: GuaInfo, bianGua: Option<GuaInfo>, dayStem: Stem,
                 monthBranch: Branch, dayBranch: Branch, i: int): YaoInfo
    requires |values| == 6 && 0 <= i < 6
  {
    var changedNaJia :=
      if Najia.IsMoving(values[i]) && bianGua.Some? then Some(Najia.AllLines(bianGua.value.upperGua, bianGua.value.lowerGua)[i].diZhi)
      else None;
    YaoOf(i, values[i], Najia.AllLines(benGua.upperGua, benGua.lowerGua)[i], changedNaJia, Liushen.AllSpirits(dayStem)[i],
      benGua, monthBranch, dayBranch)
  }

  /** `YaoAt` is `YaoOf` applied to the line's 納甲, changed branch and spirit. */
  lemma YaoAtOf(values: seq<Najia.YaoValue>, benGua: GuaInfo, bianGua: Option<GuaInfo>, dayStem: Stem,
                monthBranch: Branch, dayBranch: Branch, i: int,
                naJia: Najia.NaJiaResult, changedNaJia: Option<Branch>, liuShen: Liushen.Spirit)
    requires |values| == 6 && 0 <= i < 6
    requires naJia == Najia.AllLines(benGua.upperGua, benGua.lowerGua)[i]
    requires liuShen == Liushen.AllSpirits(dayStem)[i]
    requires Najia.IsMoving(values[i]) && bianGua.Some? ==>
      changedNaJia == Some(Najia.AllLines(bianGua.value.upperGua, bianGua.value.lowerGua)[i].diZhi)
    requires !(Najia.IsMoving(values[i]) && bianGua.Some?) ==> changedNaJia == None
    ensures YaoAt(values, benGua, bianGua, dayStem, monthBranch, dayBranch, i)
      == YaoOf(i, values[i], naJia, changedNaJia, liuShen, benGua, monthBranch, dayBranch)
  {
  }

  /** The list `calculateYaoList` returns. */
  function YaoListOf(values: seq<Najia.YaoValue>, benGua: GuaInfo, bianGua: Option<GuaInfo>, dayStem: Stem,
                     monthBranch: Branch, dayBranch: Branch): (r: seq<YaoInfo>)
    requires |values| == 6
    ensures |r| == 6
  {
    seq(6, i requires 0 <= i < 6 => YaoAt(values, benGua, bianGua, dayStem, monthBranch, dayBranch, i))
  }

  /** `calculateYaoList`: the six lines, bottom first, pushed in order. */
  method CalculateYaoList(yaoValues: seq<Najia.YaoValue>, benGua: GuaInfo, bianGua: Option<GuaInfo>, dayStem: Stem,
                          monthBranch: Branch, dayBranch: Branch) returns (yaoList: seq<YaoInfo>)
    requires |yaoValues| == 6
    ensures yaoList == YaoListOf(yaoValues, benGua, bianGua, dayStem, monthBranch, dayBranch)
  {
    yaoList := [];
    var liuShenList := Liushen.CalculateAll(dayStem);
    var naJiaList := Najia.CalculateAll(benGua.upperGua, benGua.lowerGua);
    ghost var full := YaoListOf(yaoValues, benGua, bianGua, dayStem, monthBranch, dayBranch);
    for i := 0 to 6
      invariant yaoList == full[..i]
    {
      assert full[..i + 1] == full[..i] + [full[i]];
      var yaoValue := yaoValues[i];
      var naJia := naJiaList[i];
      var changedNaJia: Option<Branch> := None;
      if Najia.IsMoving(yaoValue) && bianGua.Some? {
        var bianNaJiaList := Najia.CalculateAll(bianGua.value.upperGua, bianGua.value.lowerGua);
        changedNaJia := Some(bianNaJiaList[i].diZhi);
      }
      YaoAtOf(yaoValues, benGua, bianGua, dayStem, monthBranch, dayBranch, i, naJia, changedNaJia, liuShenList[i]);
      yaoList := yaoList + [YaoOf(i, yaoValue, naJia, changedNaJia, liuShenList[i], benGua, monthBranch, dayBranch)];
    }
    assert full[..6] == full;
  }

  /**
   * Line `i + 1` of the list: its polarity is the cast line's, its branch and phase are the
   * hexagram's 納甲 for that line, its kin is the one whose phase that is, it is the 世 or 應
   * line exactly when the hexagram says so, and only a moving line of a hexagram with a
   * changed one gets a changed branch (that line of the changed hexagram) and a 進退神 entry.
   */
  lemma YaoAtLine(values: seq<Najia.YaoValue>, benGua: GuaInfo, bianGua: Option<GuaInfo>, dayStem: Stem,
                  monthBranch: Branch, dayBranch: Branch, i: int)
    requires |values| == 6 && 0 <= i < 6
    ensures var yao := YaoAt(values, benGua, bianGua, dayStem, monthBranch, dayBranch, i);
      && yao.position == i + 1
      && (yao.yinYang == Najia.YangLine <==> Najia.YangPattern(values)[i])
      && yao.naJia == (NaJiaInner(benGua.lowerGua) + NaJiaOuter(benGua.upperGua))[i]
      && yao.naJiaWuXing == BranchPhase(yao.naJia)
      && Liuqin.PhaseOfKin(benGua.gongWuXing, yao.liuQin) == yao.naJiaWuXing
      && (yao.isShiYao <==> yao.position == benGua.shiYaoPosition)
      && (yao.isYingYao <==> yao.position == benGua.yingYaoPosition)
      && (yao.changedNaJia.Some? <==> yao.isMoving && bianGua.Some?)
      && (yao.jinTuiShen.Some? <==> yao.changedNaJia.Some?)
      && (yao.changedNaJia.Some? ==>
            && yao.changedNaJia.value == (NaJiaInner(bianGua.value.lowerGua) + NaJiaOuter(bianGua.value.upperGua))[i]
            && yao.jinTuiShen.value == Jintuishen.Calculate(yao.naJia, yao.changedNaJia.value))
  {
    var yao := YaoAt(values, benGua, bianGua, dayStem, monthBranch, dayBranch, i);
    Najia.AllLinesBranches(benGua.upperGua, benGua.lowerGua, i);
    Liuqin.KinBijection(benGua.gongWuXing, yao.naJiaWuXing, yao.liuQin);
    if bianGua.Some? {
      Najia.AllLinesBranches(bianGua.value.upperGua, bianGua.value.lowerGua, i);
    }
  }

  /** Line `i + 1` is the 世 (應) line exactly when its position is the hexagram's 世 (應). */
  lemma ShiYingAt(values: seq<Najia.YaoValue>, benGua: GuaInfo, bianGua: Option<GuaInfo>, dayStem: Stem,
                  monthBranch: Branch, dayBranch: Branch, i: int)
    requires |values| == 6 && 0 <= i < 6
    ensures var yao := YaoListOf(values, benGua, bianGua, dayStem, monthBranch, dayBranch)[i];
      && (yao.isShiYao <==> i + 1 == benGua.shiYaoPosition)
      && (yao.isYingYao <==> i + 1 == benGua.yingYaoPosition)
  {
  }

  /** Six lines of which exactly the ones at `shi` and `ying` are marked 世 and 應. */
  lemma OneShiOneYing(list: seq<YaoInfo>, shi: int, ying: int)
    requires |list| == 6 && 0 <= shi < 6 && 0 <= ying < 6
    requires forall i :: 0 <= i < 6 ==> (list[i].isShiYao <==> i == shi)
    requires forall i :: 0 <= i < 6 ==> (list[i].isYingYao <==> i == ying)
    ensures |set i | 0 <= i < 6 && list[i].isShiYao| == 1
    ensures |set i | 0 <= i < 6 && list[i].isYingYao| == 1
  {
    var shiLines := set i | 0 <= i < 6 && list[i].isShiYao;
    var yingLines := set i | 0 <= i < 6 && list[i].isYingYao;
    assert shi in shiLines && ying in yingLines;
    assert shiLines == {shi};
    assert yingLines == {ying};
  }

  /** Over a hexagram whose 世 and 應 are two of its lines, exactly one line is 世 and exactly one is 應. */
  lemma ShiYingLines(values: seq<Najia.YaoValue>, benGua: GuaInfo, bianGua: Option<GuaInfo>, dayStem: Stem,
                     monthBranch: Branch, dayBranch: Branch)
    requires |values| == 6
    requires 1 <= benGua.shiYaoPosition <= 6 && 1 <= benGua.yingYaoPosition <= 6 && benGua.shiYaoPosition != benGua.yingYaoPosition
    ensures var list := YaoListOf(values, benGua, bianGua, dayStem, monthBranch, dayBranch);
      && |set i | 0 <= i < 6 && list[i].isShiYao| == 1
      && |set i | 0 <= i < 6 && list[i].isYingYao| == 1
      && (forall i :: 0 <= i < 6 ==> !(list[i].isShiYao && list[i].isYingYao))
  {
    var list := YaoListOf(values, benGua, bianGua, dayStem, monthBranch, dayBranch);
    forall i | 0 <= i < 6
      ensures list[i].isShiYao <==> i + 1 == benGua.shiYaoPosition
      ensures list[i].isYingYao <==> i + 1 == benGua.yingYaoPosition
    {
      ShiYingAt(values, benGua, bianGua, dayStem, monthBranch, dayBranch, i);
    }
    OneShiOneYing(list, benGua.shiYaoPosition - 1, benGua.yingYaoPosition - 1);
  }

  /** The kin of the lines, `yaoList.map(y => y.liuQin)`. */
  function LiuQinOf(yaoList: seq<YaoInfo>): (ks: seq<Liuqin.Kin>)
    ensures |ks| == |yaoList|
  {
    seq(|yaoList|, i requires 0 <= i < |yaoList| => yaoList[i].liuQin)
  }

  /** The cast hexagram's branches and phases, `yaoList.map(y => ({ diZhi: y.naJia, wuXing: y.naJiaWuXing }))`. */
  function NaJiaOf(yaoList: seq<YaoInfo>): (ns: seq<Najia.NaJiaResult>)
    ensures |ns| == |yaoList|
  {
    seq(|yaoList|, i requires 0 <= i < |yaoList| => Najia.NaJiaResult(yaoList[i].naJia, yaoList[i].naJiaWuXing))
  }

  /** The cast hexagram: the one drawn from the yang values. */
  function BenGuaOf(yaoValues: seq<Najia.YaoValue>): (g: GuaInfo)
    ensures HexLines(g.upperGua, g.lowerGua) == Najia.YangPattern(yaoValues)
  {
    var benUL := Najia.GetGuaFromYaoValues(yaoValues);
    GuaInfoOf(benUL.upper, benUL.lower)
  }

  /** The changed hexagram: none without a moving line, otherwise the one drawn from the changed polarities. */
  function BianGuaOf(yaoValues: seq<Najia.YaoValue>): (g: Option<GuaInfo>)
    requires |yaoValues| == 6
    ensures g.Some? ==> HexLines(g.value.upperGua, g.value.lowerGua) == ChangedPattern(yaoValues)
  {
    if |MovingUpTo(yaoValues, 6)| > 0 then
      var bianUL := GetGuaFromYinYang(ChangedPattern(yaoValues));
      Some(GuaInfoOf(bianUL.upper, bianUL.lower))
    else None
  }

  /**
   * The first loop of `calculate`: the positions of the moving lines and the polarity of
   * every line once the moving lines turn.
   */
  method MovingAndChanged(yaoValues: seq<Najia.YaoValue>) returns (movingYaoPositions: seq<int>, changedYaoYinYang: seq<bool>)
    requires |yaoValues| == 6
    ensures movingYaoPositions == MovingUpTo(yaoValues, 6)
    ensures changedYaoYinYang == ChangedPattern(yaoValues)
  {
    movingYaoPositions := [];
    changedYaoYinYang := [];
    for i := 0 to 6
      invariant movingYaoPositions == MovingUpTo(yaoValues, i)
      invariant |changedYaoYinYang| == i
      invariant forall j :: 0 <= j < i ==> changedYaoYinYang[j] == ChangedPattern(yaoValues)[j]
    {
      var yaoValue := yaoValues[i];
      var isMoving := Najia.IsMoving(yaoValue);
      var isYang := yaoValue == 7 || yaoValue == 9;
      if isMoving {
        movingYaoPositions := movingYaoPositions + [i + 1];
        changedYaoYinYang := changedYaoYinYang + [!isYang];
      } else {
        changedYaoYinYang := changedYaoYinYang + [isYang];
      }
    }
  }

  /**
   * `calculate`: the cast hexagram, the moving lines and the changed polarities, the changed
   * hexagram when some line moves, the line list and the hidden spirits.
   */
  method Calculate(yaoValues: seq<Najia.YaoValue>, timeInfo: TimeInfo) returns (r: LiuyaoResult)
    requires |yaoValues| == 6
    ensures r.timeInfo == timeInfo
    ensures r.benGua == BenGuaOf(yaoValues)
    ensures r.movingYaoPositions == MovingUpTo(yaoValues, 6)
    ensures r.bianGua == BianGuaOf(yaoValues)
    ensures r.yaoList == YaoListOf(yaoValues, r.benGua, r.bianGua, timeInfo.dayStem, timeInfo.monthBranch, timeInfo.dayGanZhi.branch)
    ensures r.fuShenList == Fushen.FuShenOf(r.benGua.gongWuXing, r.benGua.gong, LiuQinOf(r.yaoList), NaJiaOf(r.yaoList),
      Some(timeInfo.monthBranch), Some(timeInfo.dayGanZhi.branch))
  {
    var benUL := Najia.GetGuaFromYaoValues(yaoValues);
    var benGua := GuaInfoOf(benUL.upper, benUL.lower);
    var movingYaoPositions, changedYaoYinYang := MovingAndChanged(yaoValues);
    var bianGua: Option<GuaInfo> := None;
    if |movingYaoPositions| > 0 {
      var bianUL := GetGuaFromYinYang(changedYaoYinYang);
      bianGua := Some(GuaInfoOf(bianUL.upper, bianUL.lower));
    }
    var dayBranch := timeInfo.dayGanZhi.branch;
    var yaoList := CalculateYaoList(yaoValues, benGua, bianGua, timeInfo.dayStem, timeInfo.monthBranch, dayBranch);
    var presentLiuQin := LiuQinOf(yaoList);
    var benGuaNaJia := NaJiaOf(yaoList);
    var fuShenList := Fushen.Calculate(benGua.gongWuXing, benGua.gong, presentLiuQin, benGuaNaJia,
      Some(timeInfo.monthBranch), Some(dayBranch));
    r := LiuyaoResult(timeInfo, benGua, bianGua, yaoList, movingYaoPositions, fuShenList);
  }

  /**
   * The changed hexagram exists exactly when some line moves, and it differs from the cast
   * hexagram exactly on the moving lines.
   */
  lemma BianGuaMoving(yaoValues: seq<Najia.YaoValue>)
    requires |yaoValues| == 6
    ensures BianGuaOf(yaoValues).Some? <==> exists i :: 0 <= i < 6 && Najia.IsMoving(yaoValues[i])
    ensures BianGuaOf(yaoValues).Some? ==>
      var bian := BianGuaOf(yaoValues).value;
      var ben := BenGuaOf(yaoValues);
      forall i :: 0 <= i < 6 ==>
        (HexLines(bian.upperGua, bian.lowerGua)[i] != HexLines(ben.upperGua, ben.lowerGua)[i] <==> Najia.IsMoving(yaoValues[i]))
  {
    MovingPositions(yaoValues, 6);
    var moving := MovingUpTo(yaoValues, 6);
    if |moving| > 0 {
      var p := moving[0];
      assert p in moving;
      assert 0 <= p - 1 < 6 && Najia.IsMoving(yaoValues[p - 1]);
    }
    if exists i :: 0 <= i < 6 && Najia.IsMoving(yaoValues[i]) {
      var i :| 0 <= i < 6 && Najia.IsMoving(yaoValues[i]);
      assert i + 1 in moving;
    }
  }

  /** Whether the kin appears on one of the lines. */
  predicate OnSomeLine(yaoList: seq<YaoInfo>, k: Liuqin.Kin) {
    exists i :: 0 <= i < |yaoList| && yaoList[i].liuQin == k
  }

  /**
   * The hidden spirits of a cast hexagram are the kin missing from its six lines: none
   * exactly when all five kin appear, and no hidden spirit has the kin of a line.
   */
  lemma FuShenOfLines(yaoValues: seq<Najia.YaoValue>, yaoList: seq<YaoInfo>, monthBranch: Branch, dayBranch: Branch)
    requires |yaoValues| == 6 && |yaoList| == 6
    ensures var ben := BenGuaOf(yaoValues);
      var fu := Fushen.FuShenOf(ben.gongWuXing, ben.gong, LiuQinOf(yaoList), NaJiaOf(yaoList), Some(monthBranch), Some(dayBranch));
      && (fu == [] <==> forall k: Liuqin.Kin :: OnSomeLine(yaoList, k))
      && (forall e :: e in fu ==> !OnSomeLine(yaoList, e.liuQin))
  {
    var ben := BenGuaOf(yaoValues);
    var present := LiuQinOf(yaoList);
    var benNaJia := NaJiaOf(yaoList);
    var fu := Fushen.FuShenOf(ben.gongWuXing, ben.gong, present, benNaJia, Some(monthBranch), Some(dayBranch));
    Fushen.FuShenEmpty(ben.gong, present, benNaJia, Some(monthBranch), Some(dayBranch));
    forall k: Liuqin.Kin
      ensures OnSomeLine(yaoList, k) <==> k in present
    {
      if OnSomeLine(yaoList, k) {
        var i :| 0 <= i < 6 && yaoList[i].liuQin == k;
        assert present[i] == k;
      }
    }
    forall e | e in fu
      ensures !OnSomeLine(yaoList, e.liuQin)
    {
      Fushen.FuShenEntries(ben.gongWuXing, ben.gong, present, benNaJia, Some(monthBranch), Some(dayBranch), e);
    }
  }
}
