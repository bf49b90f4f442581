/** The void (旬空) calculator of the Liu Yao engine. */
module Xunkong {
  import opened Symbols
  import opened Wrappers

  /** The two void branches of a decade. */
  datatype VoidPair = VoidPair(first: Branch, second: Branch)

  /** The branch of the decade's head 甲 pillar: `(branch - stem + 12) % 12`. */
  function XunStart(dayStem: Stem, dayBranch: Branch): (b: Branch)
    ensures b == Shift(dayBranch, -(dayStem as int))
  {
    (dayBranch - dayStem + 12) % 12
  }

  /**
   * `calculate`: the branches ten and eleven places after the decade head, that is the
   * two branches the ten stems of the decade do not reach; they are different and adjacent.
   */
  function Calculate(dayStem: Stem, dayBranch: Branch): (r: VoidPair)
    ensures r.first == Shift(XunStart(dayStem, dayBranch), 10)
    ensures r.second == Shift(r.first, 1) && r.first != r.second
    ensures forall k :: 0 <= k < 10 ==> Shift(XunStart(dayStem, dayBranch), k) != r.first && Shift(XunStart(dayStem, dayBranch), k) != r.second
  {
    var start := XunStart(dayStem, dayBranch);
    var kong1 := (start + 10) % 12;
    var kong2 := (start + 11) % 12;
    VoidPair(kong1, kong2)
  }

  /** The six decades of the comment above the calculator: 甲子 戌亥, 甲戌 申酉, 甲申 午未, 甲午 辰巳, 甲辰 寅卯, 甲寅 子丑. */
  function DecadeTable(head: Branch): Option<VoidPair> {
    if head == Zi then Some(VoidPair(Xu, Hai))
    else if head == Xu then Some(VoidPair(Shen, You))
    else if head == Shen then Some(VoidPair(Wu, Wei))
    else if head == Wu then Some(VoidPair(Chen, Si))
    else if head == Chen then Some(VoidPair(Yin, Mao))
    else if head == Yin then Some(VoidPair(Zi, Chou))
    else None
  }

  /** For a real pillar (stem and branch of the same parity) the decade head is one of the six and the pair is the table's. */
  lemma MatchesDecadeTable(dayStem: Stem, dayBranch: Branch)
    requires dayStem % 2 == dayBranch % 2
    ensures DecadeTable(XunStart(dayStem, dayBranch)) == Some(Calculate(dayStem, dayBranch))
  {
    var start := XunStart(dayStem, dayBranch);
    assert start % 2 == 0;
    assert start == 0 || start == 2 || start == 4 || start == 6 || start == 8 || start == 10;
  }

  /** The next pillar of the same decade has the same void pair. */
  lemma SameDecadeSameVoid(dayStem: Stem, dayBranch: Branch)
    requires dayStem < 9
    ensures Calculate(dayStem + 1, Shift(dayBranch, 1)) == Calculate(dayStem, dayBranch)
  {
    var next := Shift(dayBranch, 1);
    assert next - (dayStem + 1) == dayBranch - dayStem || next - (dayStem + 1) == dayBranch - dayStem - 12;
    assert XunStart(dayStem + 1, next) == XunStart(dayStem, dayBranch);
  }

  /** `isKong`: whether the branch is one of the pair. */
  predicate IsKong(diZhi: Branch, xunKong: VoidPair) {
    diZhi == xunKong.first || diZhi == xunKong.second
  }

  /** Exactly two of the twelve branches are void on any day. */
  lemma TwoVoidBranches(dayStem: Stem, dayBranch: Branch)
    ensures |set b: Branch | 0 <= b < 12 && IsKong(b, Calculate(dayStem, dayBranch))| == 2
  {
    var r := Calculate(dayStem, dayBranch);
    assert (set b: Branch | 0 <= b < 12 && IsKong(b, r)) == {r.first, r.second};
  }
}
