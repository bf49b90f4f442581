/**
 * The building blocks of the three transmissions (三傳): yin and yang of stems and
 * branches, the post horse (驛馬), the 返吟 test over the plate, the depth of
 * 涉害, the choice of the deepest candidate, and the void (旬空) marker.
 */
module SanChuanRules {
  import opened Symbols
  import opened Wrappers
  import opened Lists
  import opened LiurenTables
  import opened TianDiPan
  import opened SiKe

  /** 甲丙戊庚壬 are yang stems. */
  predicate StemIsYang(s: Stem) {
    s % 2 == 0
  }

  /** 子寅辰午申戌 are yang branches. */
  predicate BranchIsYang(b: Branch) {
    b % 2 == 0
  }

  /** The 驛馬 table: 寅午戌 → 申, 申子辰 → 寅, 巳酉丑 → 亥, 亥卯未 → 巳 (indexed 子 … 亥). */
  const YiMaTable: BranchRing := [Yin, Hai, Shen, Si, Yin, Hai, Shen, Si, Yin, Hai, Shen, Si]

  /** The post horse of a day branch. */
  function YiMa(dayZhi: Branch): Branch {
    YiMaTable[dayZhi]
  }

  /**
   * The post horse is the one corner branch (寅巳申亥) whose opposite lies in the
   * day branch's triad (branches four apart), and it is shared by the whole triad.
   */
  lemma YiMaMeaning(dayZhi: Branch)
    ensures YiMa(dayZhi) in {Yin, Si, Shen, Hai}
    ensures Shift(YiMa(dayZhi), 6) % 4 == dayZhi % 4
    ensures forall m: Branch :: m in {Yin, Si, Shen, Hai} && Shift(m, 6) % 4 == dayZhi % 4 ==> m == YiMa(dayZhi)
    ensures YiMa(Shift(dayZhi, 4)) == YiMa(dayZhi)
  {
    ShiftSmall(dayZhi, 4);
    var b := dayZhi;
    if b == 0 {} else if b == 1 {} else if b == 2 {} else if b == 3 {} else if b == 4 {} else if b == 5 {}
    else if b == 6 {} else if b == 7 {} else if b == 8 {} else if b == 9 {} else if b == 10 {} else {}
  }

  /** The number of the first `n` earth branches whose heaven branch is their clashing branch. */
  function ChongCount(t: Tables, plate: Plate, n: nat): (c: nat)
    requires n <= 12
    requires TotalRecords(plate)
    ensures c <= n
  {
    if n == 0 then 0
    else ChongCount(t, plate, n - 1) + (if t.zhiChong(n - 1) == plate.diToTian[n - 1] then 1 else 0)
  }

  /** 返吟 as the code tests it: at least six of the twelve positions carry their clashing branch. */
  predicate IsFanYinPlate(t: Tables, plate: Plate)
    requires TotalRecords(plate)
  {
    ChongCount(t, plate, 12) >= 6
  }

  /** Counts the positions whose heaven branch clashes with them. */
  method CheckFanYin(t: Tables, plate: Plate) returns (fanYin: bool)
    requires TotalRecords(plate)
    ensures fanYin == IsFanYinPlate(t, plate)
  {
    var chongCount := 0;
    for i := 0 to 12
      invariant chongCount == ChongCount(t, plate, i)
    {
      var diZhi: Branch := i;
      var tianZhi := plate.diToTian[diZhi];
      if t.zhiChong(diZhi) == tianZhi {
        chongCount := chongCount + 1;
      }
    }
    fanYin := chongCount >= 6;
  }

  /** Over a plate built from a month general and an hour, a position shows its opposite exactly when the month general is opposite the hour. */
  lemma OppositeAtPosition(y: Branch, h: Branch, b: Branch)
    ensures HeavenPlate(y, h)[b] == Shift(b, 6) <==> y == Shift(h, 6)
  {
    ShiftSmall(h, 6);
    ShiftSmall(b, 6);
    ShiftSmall(y, Distance(h, b));
  }

  /** On such a plate every position or none shows its opposite. */
  lemma {:induction false} ChongCountOfPlate(t: Tables, jieqi: string, hourZhi: Branch, dayGan: Stem, n: nat)
    requires ChongIsOpposite(t)
    requires n <= 12
    requires TotalRecords(PlateOf(t, jieqi, hourZhi, dayGan))
    ensures ChongCount(t, PlateOf(t, jieqi, hourZhi, dayGan), n)
      == if MonthGeneral(t, jieqi) == Shift(hourZhi, 6) then n else 0
  {
    if n > 0 {
      var plate := PlateOf(t, jieqi, hourZhi, dayGan);
      ChongCountOfPlate(t, jieqi, hourZhi, dayGan, n - 1);
      ByEarthOfEarthOrder(plate.tianPan);
      OppositeAtPosition(plate.yueJiang, hourZhi, n - 1);
    }
  }

  /** With the standard clash table, the half-count test is exactly "the month general is opposite the hour". */
  lemma FanYinIffOpposite(t: Tables, jieqi: string, hourZhi: Branch, dayGan: Stem)
    requires ChongIsOpposite(t)
    ensures TotalRecords(PlateOf(t, jieqi, hourZhi, dayGan))
    ensures IsFanYinPlate(t, PlateOf(t, jieqi, hourZhi, dayGan)) <==> MonthGeneral(t, jieqi) == Shift(hourZhi, 6)
  {
    var plate := PlateOf(t, jieqi, hourZhi, dayGan);
    ByEarthOfEarthOrder(plate.tianPan);
    ByEarthOfEarthOrder(plate.tianJiang);
    ChongCountOfPlate(t, jieqi, hourZhi, dayGan, 12);
  }

  /** Where the counter-clockwise count starts: a branch lower spirit's own index; a stem is not in 子 … 亥, so `indexOf` gives -1. */
  function StartIndex(lower: Lower): int {
    match lower
    case StemLower(_) => -1
    case BranchLower(b) => b
  }

  /** Steps left before the counter-clockwise walk from `cur` reaches `end`. */
  function WalkMeasure(cur: int, end: Branch): nat
    requires -1 <= cur < 12
  {
    if cur == -1 then 12 else Distance(end, cur)
  }

  /**
   * Walks counter-clockwise from `cur` to `end` (not counting `end`), counting the
   * branches the upper phase overcomes (relation word 尅). Index -1 names no branch:
   * nothing is counted there and the next index is 戌.
   */
  function Walk(t: Tables, upperPhase: Phase, cur: int, end: Branch): nat
    requires -1 <= cur < 12
    decreases WalkMeasure(cur, end)
  {
    if cur == end then 0
    else
      var hit := if 0 <= cur && t.wuxingRelation(upperPhase, t.zhiWuXing(cur)) == Some("尅") then 1 else 0;
      hit + Walk(t, upperPhase, (cur - 1 + 12) % 12, end)
  }

  /** The 涉害 depth of a lodge: the walk from its lower spirit to its upper branch. */
  function SheHaiDepth(t: Tables, lodge: Lodge): nat {
    Walk(t, t.zhiWuXing(lodge.upper), StartIndex(lodge.lower), lodge.upper)
  }

  /** A walk counts at most one per branch passed, so a depth is at most 11; a stem lower spirit walks exactly as from 戌. */
  lemma {:induction false} WalkBound(t: Tables, upperPhase: Phase, cur: int, end: Branch)
    requires -1 <= cur < 12
    ensures Walk(t, upperPhase, cur, end) <= if cur == -1 then 11 else Distance(end, cur)
    ensures cur == -1 ==> Walk(t, upperPhase, cur, end) == Walk(t, upperPhase, Xu, end)
    decreases WalkMeasure(cur, end)
  {
    if cur != end {
      var next := (cur - 1 + 12) % 12;
      assert next == if cur <= 0 then cur + 11 else cur - 1;
      WalkBound(t, upperPhase, next, end);
      assert Walk(t, upperPhase, cur, end) <= 1 + Walk(t, upperPhase, next, end);
      if cur != -1 {
        assert Distance(end, next) == Distance(end, cur) - 1;
      }
    }
  }

  /** One counter-clockwise step before reaching `end` brings the walk closer to it. */
  lemma StepBack(cur: int, end: Branch)
    requires -1 <= cur < 12 && cur != end
    ensures (cur - 1 + 12) % 12 == if cur <= 0 then cur + 11 else cur - 1
    ensures WalkMeasure((cur - 1 + 12) % 12, end) < WalkMeasure(cur, end)
  {
    var next := (cur - 1 + 12) % 12;
    assert next == if cur <= 0 then cur + 11 else cur - 1;
    if cur != -1 {
      assert Distance(end, next) == Distance(end, cur) - 1;
    }
  }

  /** Walks counter-clockwise from the lower spirit to the upper branch, counting the branches the upper branch overcomes. */
  method CalculateSheHaiDepth(t: Tables, lodge: Lodge) returns (count: nat)
    ensures count == SheHaiDepth(t, lodge)
  {
    var shangWuXing := t.zhiWuXing(lodge.upper);
    var startIndex := StartIndex(lodge.lower);
    var endIndex := lodge.upper;
    count := 0;
    var currentIndex := startIndex;
    while currentIndex != endIndex
      invariant -1 <= currentIndex < 12
      invariant count + Walk(t, shangWuXing, currentIndex, endIndex) == Walk(t, shangWuXing, startIndex, endIndex)
      decreases WalkMeasure(currentIndex, endIndex)
    {
      StepBack(currentIndex, endIndex);
      if 0 <= currentIndex {
        var currentWuXing := t.zhiWuXing(currentIndex);
        if t.wuxingRelation(shangWuXing, currentWuXing) == Some("尅") {
          count := count + 1;
        }
      }
      currentIndex := (currentIndex - 1 + 12) % 12;
    }
  }

  /**
   * The head of a stable sort by descending depth: the first index holding the
   * greatest depth. Every earlier index holds a smaller depth, no index a greater one.
   */
  function FirstDeepest(depths: seq<nat>): (i: nat)
    requires |depths| > 0
    ensures i < |depths|
    ensures forall j :: 0 <= j < |depths| ==> depths[j] <= depths[i]
    ensures forall j :: 0 <= j < i ==> depths[j] < depths[i]
  {
    if |depths| == 1 then 0
    else
      var k := FirstDeepest(depths[1..]) + 1;
      if depths[0] >= depths[k] then 0 else k
  }

  /** After the sort, the first two entries share a depth: the greatest depth is held by more than one candidate. */
  predicate DeepestIsShared(depths: seq<nat>)
    requires |depths| > 0
  {
    exists j :: 0 <= j < |depths| && j != FirstDeepest(depths) && depths[j] == depths[FirstDeepest(depths)]
  }

  /**
   * The void marker of a transmission: when the branch is one of the two void
   * branches of the day's decade, the stem at the branch's index modulo 10.
   * An unknown day pillar has index -1, whose decade start -10 names no pillar.
   */
  function VoidPair(t: Tables, day: Pillar): Option<seq<Branch>> {
    var dayIndex := IndexOf(t.jiaZi60, day);
    var xunStart := dayIndex / 10 * 10;
    if 0 <= xunStart < |t.jiaZi60| && t.jiaZi60[xunStart] in t.xunKong then Some(t.xunKong[t.jiaZi60[xunStart]])
    else None
  }

  function XunKongMarker(t: Tables, day: Pillar, b: Branch): (r: Option<Stem>)
    ensures r.Some? <==> VoidPair(t, day).Some? && b in VoidPair(t, day).value
    ensures r.Some? ==> r.value == b % 10
  {
    var pair := VoidPair(t, day);
    if pair.Some? && b in pair.value then Some(b % 10) else None
  }

  /** Assumption: `XUN_KONG` gives each decade head 甲X the two branches after the decade's last pillar. */
  predicate StandardVoidTable(t: Tables) {
    forall x: Branch :: x % 2 == 0 ==>
      Pillar(Jia, x) in t.xunKong && t.xunKong[Pillar(Jia, x)] == [Shift(x, 10), Shift(x, 11)]
  }

  /** The decade of the pillar at cycle index `k` starts with 甲 on the branch `branch - stem` places round. */
  lemma DecadeHead(k: int)
    requires 0 <= k < 60
    ensures (k - k % 10) % 12 == Shift(k % 12, -(k % 10))
    ensures (k / 10 * 10) == k - k % 10
    ensures 0 <= k - k % 10 < 60 && (k - k % 10) % 10 == 0 && (k - k % 10) % 12 % 2 == 0
  {
    var q := k / 10;
    if q == 0 {} else if q == 1 {} else if q == 2 {} else if q == 3 {} else if q == 4 {} else {}
  }

  /**
   * With the standard cycle and void table, a branch is marked void exactly when it
   * is 10 or 11 places after `branch - stem` of the day pillar (the classic 旬空 rule);
   * a pillar outside the cycle marks nothing.
   */
  lemma XunKongRule(t: Tables, day: Pillar, b: Branch)
    requires IsSexagenaryCycle(t) && StandardVoidTable(t)
    ensures day !in t.jiaZi60 ==> XunKongMarker(t, day, b).None?
    ensures day in t.jiaZi60 ==>
      var head := Shift(day.branch, -(day.stem as int));
      (XunKongMarker(t, day, b).Some? <==> b == Shift(head, 10) || b == Shift(head, 11))
  {
    if day in t.jiaZi60 {
      CycleVoidPair(t, day);
    }
  }

  /** On the standard tables the void pair of a pillar of the cycle is the two branches after its decade. */
  lemma CycleVoidPair(t: Tables, day: Pillar)
    requires IsSexagenaryCycle(t) && StandardVoidTable(t)
    requires day in t.jiaZi60
    ensures var head := Shift(day.branch, -(day.stem as int));
      VoidPair(t, day) == Some([Shift(head, 10), Shift(head, 11)])
  {
    var k := IndexOf(t.jiaZi60, day);
    DecadeHead(k);
    assert day == Pillar(k % 10, k % 12);
    var xunStart := k - k % 10;
    var head := xunStart % 12;
    assert t.jiaZi60[xunStart] == Pillar(Jia, head);
    assert Pillar(Jia, head) in t.xunKong && t.xunKong[Pillar(Jia, head)] == [Shift(head, 10), Shift(head, 11)];
  }
}
