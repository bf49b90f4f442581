/** The deities (神煞) of a Da Liu Ren day: 日馬, 月馬, 丁馬, 華蓋 and 閃電. */
module ShenSha {
  import opened Symbols
  import opened Wrappers
  import opened Lists
  import opened LiurenTables

  datatype ShenShaInfo = ShenShaInfo(riMa: Branch, yueMa: Option<Branch>, dingMa: Branch, huaGai: Branch, shanDian: Branch)

  /** The six pairs of the 月馬 search, in the order they are tried, with their keys. */
  const SanHeKeys: seq<string> := ["寅申", "卯酉", "辰戌", "巳亥", "午子", "丑未"]
  const SanHePairs: seq<seq<Branch>> := [[Yin, Shen], [Mao, You], [Chen, Xu], [Si, Hai], [Wu, Zi], [Chou, Wei]]

  /** 日馬: the `RI_MA` entry of the day branch. */
  function RiMa(t: Tables, dayZhi: Branch): Branch {
    t.riMa(dayZhi)
  }

  /** The key of the first pair from `k` on that holds `b`, or `None` when none does. */
  function PairKeyFrom(b: Branch, k: nat): (r: Option<string>)
    requires k <= 6
    ensures r.Some? ==> exists j :: k <= j < 6 && b in SanHePairs[j] && r.value == SanHeKeys[j]
    decreases 6 - k
  {
    if k == 6 then None
    else if b in SanHePairs[k] then Some(SanHeKeys[k])
    else PairKeyFrom(b, k + 1)
  }

  /** 月馬: the `YUE_MA_MAP` entry for the pair holding the day branch; an absent entry is `None` (undefined); no pair gives 寅. */
  function YueMa(t: Tables, dayZhi: Branch): Option<Branch> {
    var key := PairKeyFrom(dayZhi, 0);
    if key.None? then Some(Yin)
    else if key.value in t.yueMaMap then Some(t.yueMaMap[key.value])
    else None
  }

  /**
   * The pairs partition the branches: pair `k` holds the branches `k` and `k + 6`
   * places after 寅, so the search always succeeds (the 寅 default is never used)
   * and a branch and its opposite share their 月馬.
   */
  lemma YueMaPairs(t: Tables, dayZhi: Branch)
    ensures PairKeyFrom(dayZhi, 0) == Some(SanHeKeys[Distance(Yin, dayZhi) % 6])
    ensures YueMa(t, Shift(dayZhi, 6)) == YueMa(t, dayZhi)
  {
    PairOf(dayZhi);
    PairOf(Shift(dayZhi, 6));
    OppositeSamePair(dayZhi);
  }

  /** A branch and its opposite lie the same number of places after 寅, modulo 6. */
  lemma OppositeSamePair(b: Branch)
    ensures Distance(Yin, Shift(b, 6)) % 6 == Distance(Yin, b) % 6
  {
    ShiftSmall(b, 6);
  }

  /** The search finds branch `b` in pair `(b - 寅) mod 6`. */
  lemma PairOf(b: Branch)
    ensures PairKeyFrom(b, 0) == Some(SanHeKeys[Distance(Yin, b) % 6])
  {
    var k := Distance(Yin, b) % 6;
    PairIndex(b);
    PairKeyFromSkips(b, 0, k);
  }

  /** A place in the twelve-cycle modulo 6. */
  lemma Mod6(d: int)
    requires 0 <= d < 12
    ensures d % 6 == if d < 6 then d else d - 6
  {
  }

  /** Pair `i` holds the branches `i` and `i + 6` places after 寅 (the last pair lists 丑 first). */
  lemma PairAt(i: int)
    requires 0 <= i < 6
    ensures SanHePairs[i] == if i < 4 then [Yin + i, Shen + i] else if i == 4 then [Wu, Zi] else [Chou, Wei]
  {
    if i == 0 {} else if i == 1 {} else if i == 2 {} else if i == 3 {} else if i == 4 {} else {}
  }

  /** Pair `(b - 寅) mod 6` is the first to hold `b`. */
  lemma PairIndex(b: Branch)
    ensures b in SanHePairs[Distance(Yin, b) % 6]
    ensures forall i :: 0 <= i < Distance(Yin, b) % 6 ==> b !in SanHePairs[i]
  {
    Mod6(Distance(Yin, b));
    forall i | 0 <= i < 6
      ensures SanHePairs[i] == if i < 4 then [Yin + i, Shen + i] else if i == 4 then [Wu, Zi] else [Chou, Wei]
    {
      PairAt(i);
    }
  }

  /** The search passes over pairs not holding `b` and stops at the first that does. */
  lemma {:induction false} PairKeyFromSkips(b: Branch, k: nat, j: nat)
    requires k <= j < 6 && b in SanHePairs[j]
    requires forall i :: k <= i < j ==> b !in SanHePairs[i]
    ensures PairKeyFrom(b, k) == Some(SanHeKeys[j])
    decreases j - k
  {
    if k < j {
      PairKeyFromSkips(b, k + 1, j);
    }
  }

  /** The 丁馬 of each decade start 0, 10, …, 50. */
  const DingMaTable: seq<Branch> := [Mao, Chou, Hai, You, Wei, Si]

  /** 丁馬: looked up by the start of the day's decade; a start with no entry (a pillar outside the cycle gives -10) falls back to 卯. */
  function DingMa(t: Tables, day: Pillar): Branch {
    var dayIndex := IndexOf(t.jiaZi60, day);
    var xunStart := dayIndex / 10 * 10;
    if 0 <= xunStart <= 50 then DingMaTable[xunStart / 10] else Mao
  }

  /** With the standard cycle, 丁馬 is the branch of the 丁 pillar of the day's decade, three after its 甲 head. */
  lemma DingMaIsDingOfDecade(t: Tables, day: Pillar)
    requires IsSexagenaryCycle(t)
    ensures day !in t.jiaZi60 ==> DingMa(t, day) == Mao
    ensures day in t.jiaZi60 ==>
      var k := IndexOf(t.jiaZi60, day);
      && t.jiaZi60[k - k % 10 + 3] == Pillar(Ding, DingMa(t, day))
      && DingMa(t, day) == Shift(day.branch, 3 - (day.stem as int))
  {
    var k := IndexOf(t.jiaZi60, day);
    if day in t.jiaZi60 {
      var q := k / 10;
      DingMaCase(q, k);
      assert day == Pillar(k % 10, k % 12) by {
        assert t.jiaZi60[k] == Pillar(k % 10, k % 12);
      }
      assert DingMa(t, day) == DingMaTable[q];
      assert t.jiaZi60[10 * q + 3] == Pillar(Ding, DingMaTable[q]) by {
        assert t.jiaZi60[10 * q + 3] == Pillar((10 * q + 3) % 10, (10 * q + 3) % 12);
      }
    } else {
      assert k == -1;
      assert k / 10 * 10 == -10;
    }
  }

  /** The arithmetic of one decade: its 丁 pillar sits on `DingMaTable[q]`. */
  lemma DingMaCase(q: int, k: int)
    requires 0 <= k < 60 && q == k / 10
    ensures 0 <= q < 6 && k / 10 * 10 == 10 * q && k - k % 10 == 10 * q && (10 * q) / 10 == q
    ensures (10 * q + 3) % 12 == DingMaTable[q]
    ensures (10 * q + 3) % 10 == Ding
    ensures DingMaTable[q] == Shift(k % 12, 3 - k % 10)
  {
    if q == 0 {} else if q == 1 {} else if q == 2 {} else if q == 3 {} else if q == 4 {} else {}
  }

  /** 華蓋 by day branch (子 … 亥). */
  const HuaGaiTable: BranchRing := [Xu, Chou, Xu, Wei, Xu, Chou, Xu, Wei, Xu, Chou, Xu, Wei]

  function HuaGai(dayZhi: Branch): Branch {
    HuaGaiTable[dayZhi]
  }

  /** 華蓋 is one of 戌丑未 and is shared by branches four apart (丑巳酉 → 丑, 亥卯未 → 未, the other six → 戌). */
  lemma HuaGaiShape(dayZhi: Branch)
    ensures HuaGai(dayZhi) in {Xu, Chou, Wei}
    ensures HuaGai(dayZhi) == if dayZhi % 4 == 1 then Chou else if dayZhi % 4 == 3 then Wei else Xu
  {
    var b := dayZhi;
    if b == 0 {} else if b == 1 {} else if b == 2 {} else if b == 3 {} else if b == 4 {} else if b == 5 {}
    else if b == 6 {} else if b == 7 {} else if b == 8 {} else if b == 9 {} else if b == 10 {} else {}
  }

  /** 閃電 by day branch (子 … 亥). */
  const ShanDianTable: BranchRing := [Chen, Chen, Wei, Wei, Xu, Xu, Chou, Chou, Yin, Yin, Mao, Mao]

  function ShanDian(dayZhi: Branch): Branch {
    ShanDianTable[dayZhi]
  }

  /** 閃電 gives each consecutive pair 子丑, 寅卯, …, 戌亥 the same branch. */
  lemma ShanDianPairs(dayZhi: Branch)
    ensures ShanDian(dayZhi) == ShanDian(dayZhi - dayZhi % 2)
    ensures dayZhi % 2 == 0 ==> ShanDian(dayZhi) == ShanDian(dayZhi + 1)
  {
    var b := dayZhi;
    if b == 0 {} else if b == 1 {} else if b == 2 {} else if b == 3 {} else if b == 4 {} else if b == 5 {}
    else if b == 6 {} else if b == 7 {} else if b == 8 {} else if b == 9 {} else if b == 10 {} else {}
  }

  /** The deities of a day. */
  function Calculate(t: Tables, day: Pillar): ShenShaInfo {
    var dayZhi := day.branch;
    ShenShaInfo(RiMa(t, dayZhi), YueMa(t, dayZhi), DingMa(t, day), HuaGai(dayZhi), ShanDian(dayZhi))
  }

  /** Every deity but 丁馬 depends on the day branch alone; 丁馬 depends on the pillar's place in the cycle. */
  lemma DeitiesByBranch(t: Tables, day: Pillar, other: Pillar)
    requires other.branch == day.branch
    ensures var r := Calculate(t, day);
      var s := Calculate(t, other);
      && s.riMa == r.riMa && s.yueMa == r.yueMa && s.huaGai == r.huaGai && s.shanDian == r.shanDian
      && (IndexOf(t.jiaZi60, other) / 10 == IndexOf(t.jiaZi60, day) / 10 ==> s.dingMa == r.dingMa)
  {
  }
}
