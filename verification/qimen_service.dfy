/**
 * The checks and lookups of the Qi Men Dun Jia (奇門遁甲) service: input validation,
 * the chart-type and leap-method defaults with the pillar the chart is built on, the
 * branches of the nine palaces, the void (空) and horse (馬) marks of each palace,
 * and the palace a stem falls in. The palace, horse and decade constants live in a
 * constants module (qimen/data/constants.ts) that is not part of this model; they
 * are taken as a `QimenTables` value, and a lemma that relies on one of their values
 * names the assumption in `requires`.
 */
module QimenService {
  import opened Symbols
  import opened Wrappers

  /** `GongWei`: the nine palaces, numbered as in the Luo Shu. */
  type GongWei = g: int | 1 <= g <= 9 witness 1

  /** `PanType`: 时盘 (hour chart) or 日盘 (day chart). */
  datatype PanType = ShiPan | RiPan

  /** `ZhiRunMethod`: chaibu (拆補) or maoshan (茅山). */
  datatype ZhiRunMethod = ChaiBu | MaoShan

  /**
   * `QimenInput`. JavaScript numbers are modelled as reals (not NaN or infinite);
   * `isLunar` only steers the calendar conversion and is left out.
   */
  datatype QimenInput = QimenInput(
    year: real,
    month: real,
    day: real,
    hour: real,
    minute: Option<real>,
    panType: Option<string>,
    zhiRunMethod: Option<string>)

  /** The four pillars of the moment (`SiZhuInfo`), as the calendar library gives them. */
  datatype SiZhu = SiZhu(year: Pillar, month: Pillar, day: Pillar, hour: Pillar)

  datatype QimenTables = QimenTables(
    gongNames: GongWei -> string,     // GONG_NAMES
    gongWuXing: GongWei -> Phase,     // GONG_WUXING
    maXing: Branch -> Branch,         // MA_XING: the horse branch of a day branch
    diZhiGong: Branch -> int,         // DI_ZHI_GONG: the palace of a branch
    zhongGongJi: int,                 // ZHONG_GONG_JI: where the centre palace lodges
    xunShou: Pillar -> Pillar,        // getXunShou: the head of a pillar's decade
    liuYiGan: Pillar -> Stem          // getLiuYiGan: the 六儀 stem a decade head hides under
  )

  /** Assumption: the centre palace lodges in 坤二, as the comments at its uses say. */
  predicate CentreLodgesInKun(t: QimenTables) {
    t.zhongGongJi == 2
  }

  /** `Number.isInteger`. */
  predicate IsInteger(x: real) {
    x.Floor as real == x
  }

  /** The five numeric checks of `validateInput` all pass. */
  predicate NumbersValid(input: QimenInput) {
    && IsInteger(input.year) && 1900.0 <= input.year <= 2100.0
    && IsInteger(input.month) && 1.0 <= input.month <= 12.0
    && IsInteger(input.day) && 1.0 <= input.day <= 31.0
    && IsInteger(input.hour) && 0.0 <= input.hour <= 23.0
    && (input.minute.Some? ==> IsInteger(input.minute.value) && 0.0 <= input.minute.value <= 59.0)
  }

  /** The text every validation message puts before the rejected value. */
  const CurrentValue := "，当前值: "

  /**
   * `validateInput`: year an integer in 1900..2100, month 1..12, day 1..31, hour
   * 0..23, a given minute 0..59, and a given chart type or leap method one of the
   * two names. The checks run in that order and the first failure is reported, with
   * the rejected value appended: a number as `shown` writes it (JavaScript's
   * number-to-string conversion, which is not modelled), a string as it is.
   */
  function ValidateInput(input: QimenInput, shown: real -> string): (r: Result<()>)
    ensures r.Ok? <==>
      && NumbersValid(input)
      && (input.panType.Some? ==> input.panType.value in ["时盘", "日盘"])
      && (input.zhiRunMethod.Some? ==> input.zhiRunMethod.value in ["chaibu", "maoshan"])
    ensures !(IsInteger(input.year) && 1900.0 <= input.year <= 2100.0) ==>
      r == Err("年份必须在 1900-2100 之间" + CurrentValue + shown(input.year))
    ensures NumbersValid(input) && input.panType.Some? && !(input.panType.value in ["时盘", "日盘"]) ==>
      r == Err("盘类型必须是 '时盘' 或 '日盘'" + CurrentValue + input.panType.value)
    ensures NumbersValid(input) && (input.panType.Some? ==> input.panType.value in ["时盘", "日盘"])
            && input.zhiRunMethod.Some? && !(input.zhiRunMethod.value in ["chaibu", "maoshan"]) ==>
      r == Err("置闰方法必须是 'chaibu' 或 'maoshan'" + CurrentValue + input.zhiRunMethod.value)
  {
    if !IsInteger(input.year) || input.year < 1900.0 || input.year > 2100.0 then
      Err("年份必须在 1900-2100 之间" + CurrentValue + shown(input.year))
    else if !IsInteger(input.month) || input.month < 1.0 || input.month > 12.0 then
      Err("月份必须在 1-12 之间" + CurrentValue + shown(input.month))
    else if !IsInteger(input.day) || input.day < 1.0 || input.day > 31.0 then
      Err("日期必须在 1-31 之间" + CurrentValue + shown(input.day))
    else if !IsInteger(input.hour) || input.hour < 0.0 || input.hour > 23.0 then
      Err("小时必须在 0-23 之间" + CurrentValue + shown(input.hour))
    else if input.minute.Some? && (!IsInteger(input.minute.value) || input.minute.value < 0.0 || input.minute.value > 59.0) then
      Err("分钟必须在 0-59 之间" + CurrentValue + shown(input.minute.value))
    else if input.panType.Some? && input.panType.value != "时盘" && input.panType.value != "日盘" then
      Err("盘类型必须是 '时盘' 或 '日盘'" + CurrentValue + input.panType.value)
    else if input.zhiRunMethod.Some? && input.zhiRunMethod.value != "chaibu" && input.zhiRunMethod.value != "maoshan" then
      Err("置闰方法必须是 'chaibu' 或 'maoshan'" + CurrentValue + input.zhiRunMethod.value)
    else
      Ok(())
  }

  /** What `calculate` settles before building the plates. */
  datatype Setup = Setup(panType: PanType, zhiRunMethod: ZhiRunMethod, refPillar: Pillar)

  /**
   * The first steps of `calculate`: validate, default the chart type to 时盘 and the
   * leap method to chaibu, and take the hour pillar for an hour chart and the day
   * pillar for a day chart.
   */
  function Prepare(input: QimenInput, siZhu: SiZhu, shown: real -> string): (r: Result<Setup>)
    ensures r.Ok? <==> ValidateInput(input, shown).Ok?
    ensures r.Err? ==> r == Err(ValidateInput(input, shown).error)
    ensures r.Ok? ==> (r.value.panType == ShiPan <==> input.panType.None? || input.panType == Some("时盘"))
    ensures r.Ok? ==> (r.value.zhiRunMethod == ChaiBu <==> input.zhiRunMethod.None? || input.zhiRunMethod == Some("chaibu"))
    ensures r.Ok? ==> r.value.refPillar == if r.value.panType == ShiPan then siZhu.hour else siZhu.day
  {
    match ValidateInput(input, shown)
    case Err(e) => Err(e)
    case Ok(_) =>
      var panType := if input.panType == Some("日盘") then RiPan else ShiPan;
      var zhiRunMethod := if input.zhiRunMethod == Some("maoshan") then MaoShan else ChaiBu;
      var refGanZhi := if panType == ShiPan then siZhu.hour else siZhu.day;
      Ok(Setup(panType, zhiRunMethod, refGanZhi))
  }

  /**
   * `getGongDiZhiList`: the branches of a palace. Palaces 2, 4, 6 and 8 hold two,
   * the others one, and the centre palace 5 borrows palace 2's.
   */
  function GongDiZhiList(gong: GongWei): (list: seq<Branch>)
    ensures 1 <= |list| <= 2
    ensures |list| == 2 ==> list[0] != list[1]
  {
    match gong
    case 1 => [Zi]
    case 2 => [Wei, Shen]
    case 3 => [Mao]
    case 4 => [Chen, Si]
    case 5 => [Wei, Shen]
    case 6 => [Xu, Hai]
    case 7 => [You]
    case 8 => [Chou, Yin]
    case 9 => [Wu]
  }

  /** The Later Heaven palace of each branch: 子 坎一, 丑寅 艮八, 卯 震三, 辰巳 巽四, 午 離九, 未申 坤二, 酉 兌七, 戌亥 乾六. */
  function PalaceOfBranch(b: Branch): (g: GongWei)
    ensures g != 5
  {
    if b == Zi then 1
    else if b == Chou || b == Yin then 8
    else if b == Mao then 3
    else if b == Chen || b == Si then 4
    else if b == Wu then 9
    else if b == Wei || b == Shen then 2
    else if b == You then 7
    else 6
  }

  /**
   * Outside the centre, every branch is listed by exactly one palace, its Later
   * Heaven palace; the centre lists the branches of palace 2.
   */
  lemma BranchInOnePalace(b: Branch, gong: GongWei)
    ensures gong != 5 ==> (b in GongDiZhiList(gong) <==> gong == PalaceOfBranch(b))
    ensures GongDiZhiList(5) == GongDiZhiList(2)
  {
    if gong != 5 {
      if b in GongDiZhiList(gong) {
        var i :| 0 <= i < |GongDiZhiList(gong)| && GongDiZhiList(gong)[i] == b;
      }
    }
  }

  /** The void check of `assembleGongs`: some branch of the palace is one of the void branches. */
  function IsKong(gong: GongWei, kongWang: seq<Branch>): (kong: bool)
    ensures kong <==> exists b :: b in GongDiZhiList(gong) && b in kongWang
  {
    var list := GongDiZhiList(gong);
    list[0] in kongWang || (|list| == 2 && list[1] in kongWang)
  }

  /**
   * A palace is void exactly when it is the palace of one of the void branches, the
   * centre counting as palace 2.
   */
  lemma KongIsPalaceOfVoidBranch(gong: GongWei, kongWang: seq<Branch>)
    ensures IsKong(gong, kongWang) <==>
      exists i :: 0 <= i < |kongWang| && PalaceOfBranch(kongWang[i]) == (if gong == 5 then 2 else gong)
  {
    var home: GongWei := if gong == 5 then 2 else gong;
    forall b: Branch
      ensures b in GongDiZhiList(gong) <==> PalaceOfBranch(b) == home
    {
      BranchInOnePalace(b, home);
    }
    if IsKong(gong, kongWang) {
      var b :| b in GongDiZhiList(gong) && b in kongWang;
      var i :| 0 <= i < |kongWang| && kongWang[i] == b;
    }
    if exists i :: 0 <= i < |kongWang| && PalaceOfBranch(kongWang[i]) == home {
      var i :| 0 <= i < |kongWang| && PalaceOfBranch(kongWang[i]) == home;
      assert kongWang[i] in GongDiZhiList(gong);
    }
  }

  /** `GongInfo`, with the gate, star and spirit names the unmodelled calculators place. */
  datatype GongInfo = GongInfo(
    gong: GongWei,
    gongName: string,
    diPanGan: Stem,
    tianPanGan: Stem,
    men: string,
    xing: string,
    shen: string,
    wuXing: Phase,
    isKong: bool,
    isMa: bool)

  /** The plates placed by the calculators that are not modelled, one entry per palace. */
  datatype Plates = Plates(
    diPanGan: GongWei -> Stem,
    tianPanGan: GongWei -> Stem,
    gongMen: GongWei -> string,
    gongXing: GongWei -> string,
    gongShen: GongWei -> string)

  /** The entry `assembleGongs` writes for one palace. */
  function GongOf(t: QimenTables, plates: Plates, kongWang: seq<Branch>, dayZhi: Branch, gong: GongWei): (info: GongInfo)
    ensures info.gong == gong
    ensures info.isKong <==> exists b :: b in GongDiZhiList(gong) && b in kongWang
    ensures info.isMa <==> gong == t.diZhiGong(t.maXing(dayZhi))
  {
    var maGong := t.diZhiGong(t.maXing(dayZhi));
    GongInfo(gong, t.gongNames(gong), plates.diPanGan(gong), plates.tianPanGan(gong),
      plates.gongMen(gong), plates.gongXing(gong), plates.gongShen(gong), t.gongWuXing(gong),
      IsKong(gong, kongWang), gong == maGong)
  }

  /**
   * `assembleGongs`: fills the record of the nine palaces in a loop over 1..9. Every
   * palace gets its entry, so at most one palace carries the horse and palaces 2 and
   * 5 are void together.
   */
  method AssembleGongs(t: QimenTables, plates: Plates, kongWang: seq<Branch>, dayZhi: Branch)
    returns (gongs: map<GongWei, GongInfo>)
    ensures forall g: GongWei :: g in gongs && gongs[g] == GongOf(t, plates, kongWang, dayZhi, g)
  {
    gongs := map[];
    var g: int := 1;
    while g <= 9
      invariant 1 <= g <= 10
      invariant forall h: GongWei :: h in gongs <==> h < g
      invariant forall h: GongWei :: h < g ==> gongs[h] == GongOf(t, plates, kongWang, dayZhi, h)
    {
      gongs := gongs[g := GongOf(t, plates, kongWang, dayZhi, g)];
      g := g + 1;
    }
  }

  /** In the assembled record at most one palace has the horse, and the centre is void exactly when 坤二 is. */
  lemma AssembledMarks(t: QimenTables, plates: Plates, kongWang: seq<Branch>, dayZhi: Branch, g1: GongWei, g2: GongWei)
    ensures GongOf(t, plates, kongWang, dayZhi, g1).isMa && GongOf(t, plates, kongWang, dayZhi, g2).isMa ==> g1 == g2
    ensures GongOf(t, plates, kongWang, dayZhi, 5).isKong == GongOf(t, plates, kongWang, dayZhi, 2).isKong
  {
    BranchInOnePalace(Zi, 5);
  }

  /**
   * `findGanGong`: 甲 is looked up under the 六儀 stem of its pillar's decade head;
   * a stem with no palace, or one in the centre, lodges in `ZHONG_GONG_JI`.
   */
  function FindGanGong(t: QimenTables, gan: Stem, ganZhi: Pillar, ganGong: map<Stem, int>): (gong: int)
    ensures var actual := if gan == Jia then t.liuYiGan(t.xunShou(ganZhi)) else gan;
      && (actual in ganGong && ganGong[actual] != 5 ==> gong == ganGong[actual])
      && (actual !in ganGong || ganGong[actual] == 5 ==> gong == t.zhongGongJi)
  {
    var actualGan := if gan == Jia then t.liuYiGan(t.xunShou(ganZhi)) else gan;
    if actualGan !in ganGong then t.zhongGongJi
    else
      var gong := ganGong[actualGan];
      if gong == 5 then t.zhongGongJi else gong
  }

  /**
   * With the centre lodging in 坤二, a stem never falls in palace 5, and when the
   * palaces given are 1..9 so is the answer; 甲 falls where its 六儀 stem does.
   */
  lemma GanGongOutsideCentre(t: QimenTables, gan: Stem, ganZhi: Pillar, ganGong: map<Stem, int>)
    requires CentreLodgesInKun(t)
    ensures FindGanGong(t, gan, ganZhi, ganGong) != 5
    ensures (forall s :: s in ganGong ==> 1 <= ganGong[s] <= 9) ==> 1 <= FindGanGong(t, gan, ganZhi, ganGong) <= 9
    ensures gan == Jia ==>
      FindGanGong(t, gan, ganZhi, ganGong) == FindGanGong(t, t.liuYiGan(t.xunShou(ganZhi)), ganZhi, ganGong)
  {
  }
}
