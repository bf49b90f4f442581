/** The seasonal strength (旺衰) calculator of the Liu Yao engine. */
module Wangshuai {
  import opened Symbols
  import opened Guagong
  import Liuqin

  /** 旺, 相, 休, 囚, 死. */
  datatype State = Prosperous | Strengthening | Resting | Imprisoned | Dead

  /**
   * `calculate`: against the phase of the month or day branch, a line of the same phase is
   * 旺, one the reference generates is 相, one that generates the reference is 休, one that
   * overcomes it is 囚 and one it overcomes is 死; the closing `return '休'` is never reached.
   */
  function Calculate(yaoWuXing: Phase, lingDiZhi: Branch): (s: State)
    ensures var ling := BranchPhase(lingDiZhi);
      && (s == Prosperous <==> yaoWuXing == ling)
      && (s == Strengthening <==> Generates(ling) == yaoWuXing)
      && (s == Resting <==> Generates(yaoWuXing) == ling)
      && (s == Imprisoned <==> Overcomes(yaoWuXing) == ling)
      && (s == Dead <==> Overcomes(ling) == yaoWuXing)
  {
    var lingWuXing := BranchPhase(lingDiZhi);
    FivePhaseCases(yaoWuXing, lingWuXing);
    if yaoWuXing == lingWuXing then Prosperous
    else if Generates(lingWuXing) == yaoWuXing then Strengthening
    else if Generates(yaoWuXing) == lingWuXing then Resting
    else if Overcomes(yaoWuXing) == lingWuXing then Imprisoned
    else if Overcomes(lingWuXing) == yaoWuXing then Dead
    else assert false; Resting
  }

  /**
   * The state is the line's kin seen from the reference phase: 旺 兄弟, 相 子孫, 休 父母,
   * 囚 官鬼, 死 妻財. So for a fixed reference the five phases get the five states, one each.
   */
  lemma StateIsKinOfReference(yaoWuXing: Phase, lingDiZhi: Branch)
    ensures var k := Liuqin.Calculate(BranchPhase(lingDiZhi), yaoWuXing);
      Calculate(yaoWuXing, lingDiZhi) == match k
        case Sibling => Prosperous
        case Offspring => Strengthening
        case Parent => Resting
        case Official => Imprisoned
        case Wealth => Dead
  {
  }

  /** For a fixed reference branch, different line phases get different states. */
  lemma StateInjective(p: Phase, q: Phase, lingDiZhi: Branch)
    ensures Calculate(p, lingDiZhi) == Calculate(q, lingDiZhi) ==> p == q
  {
    var ling := BranchPhase(lingDiZhi);
    Liuqin.KinBijection(ling, p, Liuqin.Calculate(ling, q));
    Liuqin.KinBijection(ling, q, Liuqin.Calculate(ling, p));
    StateIsKinOfReference(p, lingDiZhi);
    StateIsKinOfReference(q, lingDiZhi);
  }

  /** `isStrong`: 旺 or 相. */
  predicate IsStrong(s: State) {
    s == Prosperous || s == Strengthening
  }

  /** `isWeak`: 休, 囚 or 死. */
  predicate IsWeak(s: State) {
    s == Resting || s == Imprisoned || s == Dead
  }

  /** Every state is either strong or weak and never both. */
  lemma StrongWeakComplement(s: State)
    ensures IsStrong(s) != IsWeak(s)
  {
  }
}
