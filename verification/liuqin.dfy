/** The six-kin (六親) calculator of the Liu Yao engine, with the palace's phase as "me". */
module Liuqin {
  import opened Symbols

  /** 父母, 兄弟, 子孫, 妻財, 官鬼. */
  datatype Kin = Parent | Sibling | Offspring | Wealth | Official

  /**
   * `calculate`: 兄弟 for the same phase, 父母 for what generates me, 子孫 for what I
   * generate, 官鬼 for what overcomes me and 妻財 for what I overcome. The five tests
   * cover every pair of phases, so the closing `return '兄弟'` is never reached.
   */
  function Calculate(gongWuXing: Phase, yaoWuXing: Phase): (k: Kin)
    ensures k == Sibling <==> gongWuXing == yaoWuXing
    ensures k == Parent <==> Generates(yaoWuXing) == gongWuXing
    ensures k == Offspring <==> Generates(gongWuXing) == yaoWuXing
    ensures k == Official <==> Overcomes(yaoWuXing) == gongWuXing
    ensures k == Wealth <==> Overcomes(gongWuXing) == yaoWuXing
  {
    FivePhaseCases(gongWuXing, yaoWuXing);
    if gongWuXing == yaoWuXing then Sibling
    else if Generates(yaoWuXing) == gongWuXing then Parent
    else if Generates(gongWuXing) == yaoWuXing then Offspring
    else if Overcomes(yaoWuXing) == gongWuXing then Official
    else if Overcomes(gongWuXing) == yaoWuXing then Wealth
    else assert false; Sibling
  }

  /** The phase that stands in kin relation `k` to a palace of phase `gong`. */
  function PhaseOfKin(gong: Phase, k: Kin): Phase {
    match k
    case Sibling => gong
    case Parent => Generates(Generates(Generates(Generates(gong))))
    case Offspring => Generates(gong)
    case Official => Overcomes(Overcomes(Overcomes(Overcomes(gong))))
    case Wealth => Overcomes(gong)
  }

  /** For a fixed palace phase, kin and line phase determine each other: the map is a bijection onto the five kin. */
  lemma KinBijection(gong: Phase, yao: Phase, k: Kin)
    ensures Calculate(gong, PhaseOfKin(gong, k)) == k
    ensures PhaseOfKin(gong, Calculate(gong, yao)) == yao
  {
    match gong
    case Wood =>
    case Fire =>
    case Earth =>
    case Metal =>
    case Water =>
  }

  /** `getShortName`: 父, 兄, 子, 財, 官. */
  function ShortName(k: Kin): string {
    match k
    case Parent => "父"
    case Sibling => "兄"
    case Offspring => "子"
    case Wealth => "財"
    case Official => "官"
  }

  /** Different kin have different short names. */
  lemma ShortNameInjective(k: Kin, j: Kin)
    ensures |ShortName(k)| == 1
    ensures ShortName(k) == ShortName(j) ==> k == j
  {
    if ShortName(k) == ShortName(j) {
      assert ShortName(k)[0] == ShortName(j)[0];
    }
  }
}
