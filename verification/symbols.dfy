/**
 * The cyclic alphabets shared by the three engines: the ten heavenly stems (天干),
 * the twelve earthly branches (地支), the five phases (五行) and the eight trigrams (八卦).
 * Stems and branches are represented by their index in 甲乙丙丁戊己庚辛壬癸 and in
 * 子丑寅卯辰巳午未申酉戌亥, which is the order of the `TIAN_GAN`/`DI_ZHI` arrays.
 */
module Symbols {
  /** A heavenly stem, by its index in 甲乙丙丁戊己庚辛壬癸. */
  type Stem = s: int | 0 <= s < 10

  /** An earthly branch, by its index in 子丑寅卯辰巳午未申酉戌亥. */
  type Branch = b: int | 0 <= b < 12

  const Jia: Stem := 0   // 甲
  const Yi: Stem := 1    // 乙
  const Bing: Stem := 2  // 丙
  const Ding: Stem := 3  // 丁
  const Mou: Stem := 4   // 戊 (read "mou" so that it differs from the branch 午)
  const Ji: Stem := 5    // 己
  const Geng: Stem := 6  // 庚
  const Xin: Stem := 7   // 辛
  const Ren: Stem := 8   // 壬
  const Gui: Stem := 9   // 癸

  const Zi: Branch := 0     // 子
  const Chou: Branch := 1   // 丑
  const Yin: Branch := 2    // 寅
  const Mao: Branch := 3    // 卯
  const Chen: Branch := 4   // 辰
  const Si: Branch := 5     // 巳
  const Wu: Branch := 6     // 午
  const Wei: Branch := 7    // 未
  const Shen: Branch := 8   // 申
  const You: Branch := 9    // 酉
  const Xu: Branch := 10    // 戌
  const Hai: Branch := 11   // 亥

  /** A stem-branch pair such as 甲子, the two characters of a pillar string. */
  datatype Pillar = Pillar(stem: Stem, branch: Branch)

  /** Twelve branches laid out over the twelve earth positions. */
  type BranchRing = s: seq<Branch> | |s| == 12 witness [0, 0, 0, 0, 0, 0, 0, 0, 0, 0, 0, 0]

  /** The branch `k` places clockwise from `b` (counter-clockwise for negative `k`). */
  function Shift(b: int, k: int): Branch {
    (b + k) % 12
  }

  /** The number of clockwise steps from `a` to `b`. */
  function Distance(a: Branch, b: Branch): (d: int)
    ensures 0 <= d < 12
    ensures d == if a <= b then b - a else b - a + 12
    ensures Shift(a, d) == b
  {
    (b - a) % 12
  }

  /** A shift by `i` places, for `0 <= i < 12`, written without `%`. */
  lemma ShiftSmall(b: Branch, i: int)
    requires 0 <= i < 12
    ensures Shift(b, i) == if b + i < 12 then b + i else b + i - 12
  {
  }

  /** The five phases (五行). */
  datatype Phase = Wood | Fire | Earth | Metal | Water

  /** The generating cycle 木生火, 火生土, 土生金, 金生水, 水生木 (`WUXING_SHENG`, `SHENG`). */
  function Generates(p: Phase): Phase {
    match p
    case Wood => Fire
    case Fire => Earth
    case Earth => Metal
    case Metal => Water
    case Water => Wood
  }

  /** The overcoming cycle 木剋土, 土剋水, 水剋火, 火剋金, 金剋木 (`WUXING_KE`, `KE`). */
  function Overcomes(p: Phase): Phase {
    match p
    case Wood => Earth
    case Earth => Water
    case Water => Fire
    case Fire => Metal
    case Metal => Wood
  }

  /**
   * For two phases exactly one of five things holds: they are equal, one generates
   * the other (either way round), or one overcomes the other (either way round).
   * Every five-way classifier of the Liu Yao and Meihua engines relies on this.
   */
  lemma FivePhaseCases(a: Phase, b: Phase)
    ensures (if a == b then 1 else 0) + (if Generates(a) == b then 1 else 0)
          + (if Generates(b) == a then 1 else 0) + (if Overcomes(a) == b then 1 else 0)
          + (if Overcomes(b) == a then 1 else 0) == 1
  {
  }

  /** The eight trigrams (八卦). */
  datatype Trigram = Qian | Dui | Li | Zhen | Xun | Kan | Gen | Kun
}
