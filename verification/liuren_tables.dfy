/**
 * The Da Liu Ren (大六壬) constants. Their values live in a constants module
 * (daliuren/data/constants.ts) that is not part of this model, so they are taken
 * as a `Tables` value passed to every calculator, one field per constant, typed as
 * the calculators use it. Nothing about their values is relied on except where a
 * predicate below says so, and a lemma that relies on one names it in `requires`.
 */
module LiurenTables {
  import opened Symbols
  import opened Wrappers

  /** The twelve guardian generals by short name: 貴蛇雀合勾龍空虎常玄陰后. */
  datatype General =
    | Noble     // 貴
    | Snake     // 蛇
    | Bird      // 雀
    | Harmony   // 合
    | Hook      // 勾
    | Dragon    // 龍
    | Void      // 空
    | Tiger     // 虎
    | Constant  // 常
    | Tortoise  // 玄
    | Moon      // 陰
    | Empress   // 后

  /** Twelve generals laid out over the twelve earth positions. */
  type GeneralRing = s: seq<General> | |s| == 12
    witness [Noble, Noble, Noble, Noble, Noble, Noble, Noble, Noble, Noble, Noble, Noble, Noble]

  /** 晝 or 夜. */
  datatype DayNight = Day | Night

  datatype Tables = Tables(
    ganJiGong: Stem -> Branch,                   // GAN_JI_GONG: the palace (寄宮) of each stem
    ganWuXing: Stem -> Phase,                    // GAN_WUXING
    zhiWuXing: Branch -> Phase,                  // ZHI_WUXING
    wuxingRelation: (Phase, Phase) -> Option<string>, // WUXING_RELATION[a + b]; None when the key is missing
    liuqinMap: map<string, string>,              // LIUQIN_MAP: relation word -> kin name
    zhiChong: Branch -> Branch,                  // ZHI_CHONG: the clashing branch
    jieqiYueJiang: map<string, Branch>,          // JIEQI_YUE_JIANG: solar term -> month general
    yueJiangName: Branch -> string,              // YUE_JIANG_MAP
    guirenDay: Stem -> Branch,                   // GUIREN_START[stem].day
    guirenNight: Stem -> Branch,                 // GUIREN_START[stem].night
    dayNight: Branch -> DayNight,                // DAY_NIGHT_MAP
    tianJiang: GeneralRing,                      // TIAN_JIANG, the forward order of the generals
    jiaZi60: seq<Pillar>,                        // JIA_ZI_60
    xunKong: map<Pillar, seq<Branch>>,           // XUN_KONG: decade head -> its void branches
    baZhuanDays: seq<Pillar>,                    // BA_ZHUAN_DAYS
    ganZhiSamePosition: seq<Pillar>,             // GAN_ZHI_SAME_POSITION
    riMa: Branch -> Branch,                      // RI_MA
    yueMaMap: map<string, Branch>                // YUE_MA_MAP, keyed by a branch pair such as "寅申"
  )

  /** Assumption: `ZHI_CHONG` maps each branch to the one six places away. */
  predicate ChongIsOpposite(t: Tables) {
    forall b: Branch :: t.zhiChong(b) == (b + 6) % 12
  }

  /** Assumption: `TIAN_JIANG` starts with 貴 and lists every general. */
  predicate ForwardOrderIsComplete(t: Tables) {
    t.tianJiang[0] == Noble && forall g: General :: g in t.tianJiang
  }

  /** Assumption: `JIA_ZI_60` is the sexagenary cycle 甲子, 乙丑, …, 癸亥 in order. */
  predicate IsSexagenaryCycle(t: Tables) {
    |t.jiaZi60| == 60 && forall k :: 0 <= k < 60 ==> t.jiaZi60[k] == Pillar(k % 10, k % 12)
  }

  /**
   * Assumption: `WUXING_RELATION[a + b]` names how phase `a` stands to phase `b`:
   * 比和 when equal, 尅 when `a` overcomes `b`, 被尅 when `b` overcomes `a`,
   * 生 when `a` generates `b` and 被生 when `b` generates `a`.
   */
  predicate StandardRelationTable(t: Tables) {
    forall a: Phase, b: Phase :: t.wuxingRelation(a, b) == Some(
      if a == b then "比和"
      else if Overcomes(a) == b then "尅"
      else if Overcomes(b) == a then "被尅"
      else if Generates(a) == b then "生"
      else "被生")
  }

  /** Assumption: `LIUQIN_MAP` names the kin of each relation word of the day stem to a branch. */
  predicate StandardKinMap(t: Tables) {
    t.liuqinMap == map["比和" := "兄弟", "生" := "子孫", "尅" := "妻財", "被尅" := "官鬼", "被生" := "父母"]
  }
}
