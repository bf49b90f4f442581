/**
 * The heaven and earth plates (天地盤) of Da Liu Ren: the month general (月將) is
 * laid over the hour branch and the twelve branches follow clockwise; the twelve
 * generals start from the noble (貴人) and run clockwise or counter-clockwise.
 * A branch is its own index in 子丑寅卯辰巳午未申酉戌亥, so `DI_ZHI.indexOf(b)` is `b`.
 */
module TianDiPan {
  import opened Symbols
  import opened LiurenTables

  /** The earth plate (地盤): 子 … 亥 in order. */
  const EarthOrder: BranchRing := seq(12, b requires 0 <= b < 12 => b)

  /** 貴后陰玄常虎空龍勾合雀蛇, the order used when the generals run counter-clockwise. */
  const ReverseOrder: GeneralRing :=
    [Noble, Empress, Moon, Tortoise, Constant, Tiger, Void, Dragon, Hook, Harmony, Bird, Snake]

  /** 貴蛇雀合勾龍空虎常玄陰后, the traditional forward order of the generals. */
  const StandardOrder: GeneralRing :=
    [Noble, Snake, Bird, Harmony, Hook, Dragon, Void, Tiger, Constant, Tortoise, Moon, Empress]

  datatype Plate = Plate(
    tianPan: BranchRing,             // heaven plate, indexed by earth position
    diPan: BranchRing,               // earth plate
    tianJiang: GeneralRing,          // generals, indexed by earth position
    yueJiang: Branch,
    yueJiangName: string,
    diToTian: map<Branch, Branch>,
    diToJiang: map<Branch, General>)

  /** The month general for a solar term; an unknown term gives 子 (神後). */
  function MonthGeneral(t: Tables, jieqi: string): (b: Branch)
    ensures jieqi in t.jieqiYueJiang ==> b == t.jieqiYueJiang[jieqi]
    ensures jieqi !in t.jieqiYueJiang ==> b == Zi
  {
    if jieqi in t.jieqiYueJiang then t.jieqiYueJiang[jieqi] else Zi
  }

  /** The heaven plate with month general `y` over hour `h`: position `p` holds the branch as many steps after `y` as `p` is after `h`. */
  function HeavenPlate(y: Branch, h: Branch): BranchRing
  {
    seq(12, p requires 0 <= p < 12 => Shift(y, Distance(h, p)))
  }

  /** The month general sits over the hour, and the heaven plate runs clockwise from it. */
  lemma HeavenPlateShape(y: Branch, h: Branch)
    ensures HeavenPlate(y, h)[h] == y
    ensures forall i :: 0 <= i < 12 ==> HeavenPlate(y, h)[Shift(h, i)] == Shift(y, i)
  {
    forall i | 0 <= i < 12
      ensures HeavenPlate(y, h)[Shift(h, i)] == Shift(y, i)
    {
      ShiftSmall(h, i);
    }
  }

  /** Every branch appears exactly once on the heaven plate. */
  lemma HeavenPlateIsPermutation(y: Branch, h: Branch)
    ensures forall b: Branch :: b in HeavenPlate(y, h)
    ensures forall p, q :: 0 <= p < q < 12 ==> HeavenPlate(y, h)[p] != HeavenPlate(y, h)[q]
  {
    forall b: Branch ensures b in HeavenPlate(y, h) {
      var p := Shift(h, Distance(y, b));
      ShiftSmall(h, Distance(y, b));
      assert HeavenPlate(y, h)[p] == b;
    }
    forall p, q | 0 <= p < q < 12 ensures HeavenPlate(y, h)[p] != HeavenPlate(y, h)[q] {
      ShiftSmall(y, Distance(h, p));
      ShiftSmall(y, Distance(h, q));
    }
  }

  /** 伏吟: when the month general equals the hour, heaven lies on earth unchanged. */
  lemma FuYinPlate(y: Branch, h: Branch)
    requires y == h
    ensures HeavenPlate(y, h) == EarthOrder
  {
    assert forall p :: 0 <= p < 12 ==> HeavenPlate(y, h)[p] == EarthOrder[p];
  }

  /** 返吟: when the month general is opposite the hour, every position holds its opposite branch. */
  lemma FanYinPlate(y: Branch, h: Branch)
    requires y == Shift(h, 6)
    ensures forall p :: 0 <= p < 12 ==> HeavenPlate(y, h)[p] == Shift(p, 6)
  {
  }

  /** Lays the month general over the hour: the branches from the month general are pushed in order, then written from the hour position on. */
  method CalculateTianPan(yueJiang: Branch, hourZhi: Branch) returns (r: BranchRing)
    ensures r == HeavenPlate(yueJiang, hourZhi)
  {
    var hourIndex: Branch := hourZhi;
    var yueJiangIndex: Branch := yueJiang;
    var tianPan: seq<Branch> := [];
    var i := 0;
    while i < 12
      invariant 0 <= i <= 12
      invariant |tianPan| == i
      invariant forall k :: 0 <= k < i ==> tianPan[k] == Shift(yueJiangIndex, k)
    {
      tianPan := tianPan + [(yueJiangIndex + i) % 12];
      i := i + 1;
    }
    var result := new Branch[12];
    i := 0;
    while i < 12
      invariant 0 <= i <= 12
      invariant forall k :: 0 <= k < i ==> result[Shift(hourIndex, k)] == tianPan[k]
    {
      forall k | 0 <= k < i ensures Shift(hourIndex, k) != Shift(hourIndex, i) {
        ShiftSmall(hourIndex, k);
        ShiftSmall(hourIndex, i);
      }
      result[Shift(hourIndex, i)] := tianPan[i];
      i := i + 1;
    }
    forall p | 0 <= p < 12 ensures result[p] == HeavenPlate(yueJiang, hourZhi)[p] {
      assert result[Shift(hourIndex, Distance(hourIndex, p))] == tianPan[Distance(hourIndex, p)];
    }
    r := result[..];
  }

  /** Where the noble starts: the day or night entry of the day stem. */
  function NobleStart(t: Tables, dayGan: Stem, dayNight: DayNight): Branch {
    if dayNight == Day then t.guirenDay(dayGan) else t.guirenNight(dayGan)
  }

  /** 巳午未申酉戌, the positions that turn the generals counter-clockwise. */
  predicate IsYangPosition(b: Branch) {
    Si <= b <= Xu
  }

  /** The order the generals are laid in: reversed when the heaven branch over the noble's start is a yang position. */
  function GeneralOrder(t: Tables, dayGan: Stem, dayNight: DayNight, tianPan: BranchRing): GeneralRing {
    if IsYangPosition(tianPan[NobleStart(t, dayGan, dayNight)]) then ReverseOrder else t.tianJiang
  }

  /** The general layer: position `p` holds the general as many steps along the chosen order as `p` is after the noble's start. */
  function GeneralLayer(t: Tables, dayGan: Stem, dayNight: DayNight, tianPan: BranchRing): GeneralRing {
    var start := NobleStart(t, dayGan, dayNight);
    var order := GeneralOrder(t, dayGan, dayNight, tianPan);
    seq(12, p requires 0 <= p < 12 => order[Distance(start, p)])
  }

  /** The `i`-th general of the chosen order sits `i` places clockwise from the noble's start. */
  lemma GeneralLayerFollowsOrder(t: Tables, dayGan: Stem, dayNight: DayNight, tianPan: BranchRing)
    ensures forall i :: 0 <= i < 12 ==>
      GeneralLayer(t, dayGan, dayNight, tianPan)[Shift(NobleStart(t, dayGan, dayNight), i)]
        == GeneralOrder(t, dayGan, dayNight, tianPan)[i]
  {
    forall i | 0 <= i < 12
      ensures GeneralLayer(t, dayGan, dayNight, tianPan)[Shift(NobleStart(t, dayGan, dayNight), i)]
        == GeneralOrder(t, dayGan, dayNight, tianPan)[i]
    {
      GeneralLayerAt(t, dayGan, dayNight, tianPan, i);
    }
  }

  /** One step of `GeneralLayerFollowsOrder`. */
  lemma GeneralLayerAt(t: Tables, dayGan: Stem, dayNight: DayNight, tianPan: BranchRing, i: int)
    requires 0 <= i < 12
    ensures GeneralLayer(t, dayGan, dayNight, tianPan)[Shift(NobleStart(t, dayGan, dayNight), i)]
      == GeneralOrder(t, dayGan, dayNight, tianPan)[i]
  {
    ShiftSmall(NobleStart(t, dayGan, dayNight), i);
  }

  /** Reading 貴后陰玄… backwards from 貴 gives the forward order 貴蛇雀…. */
  lemma ReverseOrderRunsBackwards(i: int)
    requires 0 <= i < 12
    ensures ReverseOrder[(12 - i) % 12] == StandardOrder[i]
  {
    if i == 0 {} else if i == 1 {} else if i == 2 {} else if i == 3 {} else if i == 4 {} else if i == 5 {}
    else if i == 6 {} else if i == 7 {} else if i == 8 {} else if i == 9 {} else if i == 10 {} else {}
  }

  /** Going `12 - i` places clockwise is going `i` places counter-clockwise. */
  lemma ShiftBack(b: Branch, i: int)
    requires 0 <= i < 12
    ensures Shift(b, (12 - i) % 12) == Shift(b, -i)
  {
    if i > 0 {
      assert (12 - i) % 12 == 12 - i;
      if b - i < 0 {
        assert (b + 12 - i) % 12 == b - i + 12 == (b - i) % 12;
      } else {
        assert (b + 12 - i) % 12 == b - i == (b - i) % 12;
      }
    }
  }

  /** With the traditional forward order, 順布 runs 貴蛇雀… clockwise and 逆布 runs the same order counter-clockwise. */
  lemma GeneralLayerDirection(t: Tables, dayGan: Stem, dayNight: DayNight, tianPan: BranchRing)
    requires t.tianJiang == StandardOrder
    ensures var start := NobleStart(t, dayGan, dayNight);
      IsYangPosition(tianPan[start]) ==>
        forall i :: 0 <= i < 12 ==> GeneralLayer(t, dayGan, dayNight, tianPan)[Shift(start, -i)] == StandardOrder[i]
    ensures var start := NobleStart(t, dayGan, dayNight);
      !IsYangPosition(tianPan[start]) ==>
        forall i :: 0 <= i < 12 ==> GeneralLayer(t, dayGan, dayNight, tianPan)[Shift(start, i)] == StandardOrder[i]
  {
    var start := NobleStart(t, dayGan, dayNight);
    if IsYangPosition(tianPan[start]) {
      forall i | 0 <= i < 12
        ensures GeneralLayer(t, dayGan, dayNight, tianPan)[Shift(start, -i)] == StandardOrder[i]
      {
        ReverseOrderRunsBackwards(i);
        GeneralLayerAt(t, dayGan, dayNight, tianPan, (12 - i) % 12);
        ShiftBack(start, i);
      }
    } else {
      forall i | 0 <= i < 12
        ensures GeneralLayer(t, dayGan, dayNight, tianPan)[Shift(start, i)] == StandardOrder[i]
      {
        GeneralLayerAt(t, dayGan, dayNight, tianPan, i);
      }
    }
  }

  /** The noble stands on its start position, and (given a complete forward order) every general appears on the plate. */
  lemma GeneralLayerIsPermutation(t: Tables, dayGan: Stem, dayNight: DayNight, tianPan: BranchRing)
    requires ForwardOrderIsComplete(t)
    ensures GeneralLayer(t, dayGan, dayNight, tianPan)[NobleStart(t, dayGan, dayNight)] == Noble
    ensures forall g: General :: g in GeneralLayer(t, dayGan, dayNight, tianPan)
  {
    var start := NobleStart(t, dayGan, dayNight);
    var order := GeneralOrder(t, dayGan, dayNight, tianPan);
    var layer := GeneralLayer(t, dayGan, dayNight, tianPan);
    GeneralLayerFollowsOrder(t, dayGan, dayNight, tianPan);
    assert layer[Shift(start, 0)] == order[0];
    forall g: General ensures g in layer {
      assert g in ReverseOrder by {
        match g
        case Noble => assert ReverseOrder[0] == g;
        case Empress => assert ReverseOrder[1] == g;
        case Moon => assert ReverseOrder[2] == g;
        case Tortoise => assert ReverseOrder[3] == g;
        case Constant => assert ReverseOrder[4] == g;
        case Tiger => assert ReverseOrder[5] == g;
        case Void => assert ReverseOrder[6] == g;
        case Dragon => assert ReverseOrder[7] == g;
        case Hook => assert ReverseOrder[8] == g;
        case Harmony => assert ReverseOrder[9] == g;
        case Bird => assert ReverseOrder[10] == g;
        case Snake => assert ReverseOrder[11] == g;
      }
      assert g in order;
      var i :| 0 <= i < 12 && order[i] == g;
      assert layer[Shift(start, i)] == g;
    }
  }

  /** Lays out the twelve generals from the noble's start in the direction the heaven plate dictates. */
  method CalculateTianJiang(t: Tables, dayGan: Stem, dayNight: DayNight, tianPan: BranchRing) returns (r: GeneralRing)
    ensures r == GeneralLayer(t, dayGan, dayNight, tianPan)
  {
    var guirenStart := NobleStart(t, dayGan, dayNight);
    var guirenTianPanZhi := tianPan[guirenStart];
    var isReverse := IsYangPosition(guirenTianPanZhi);
    var order := if isReverse then ReverseOrder else t.tianJiang;
    var tianJiang := new General[12];
    var i := 0;
    while i < 12
      invariant 0 <= i <= 12
      invariant forall k :: 0 <= k < i ==> tianJiang[Shift(guirenStart, k)] == order[k]
    {
      forall k | 0 <= k < i ensures Shift(guirenStart, k) != Shift(guirenStart, i) {
        ShiftSmall(guirenStart, k);
        ShiftSmall(guirenStart, i);
      }
      tianJiang[Shift(guirenStart, i)] := order[i];
      i := i + 1;
    }
    forall p | 0 <= p < 12 ensures tianJiang[p] == GeneralLayer(t, dayGan, dayNight, tianPan)[p] {
      assert tianJiang[Shift(guirenStart, Distance(guirenStart, p))] == order[Distance(guirenStart, p)];
    }
    r := tianJiang[..];
  }

  /** The record built by writing `layer[i]` under key `diPan[i]` for i = 0, 1, …; a later key overwrites an earlier one. */
  function ByEarth<T>(diPan: seq<Branch>, layer: seq<T>): map<Branch, T>
    requires |diPan| <= |layer|
    decreases |diPan|
  {
    if |diPan| == 0 then map[]
    else ByEarth(diPan[..|diPan| - 1], layer)[diPan[|diPan| - 1] := layer[|diPan| - 1]]
  }

  /** The record's keys are the earth branches given, and each key holds the value at its last occurrence. */
  lemma {:induction false} ByEarthLookup<T>(diPan: seq<Branch>, layer: seq<T>)
    requires |diPan| <= |layer|
    ensures forall b :: b in ByEarth(diPan, layer) <==> b in diPan
    ensures forall i :: 0 <= i < |diPan| && diPan[i] !in diPan[i + 1..] ==>
      ByEarth(diPan, layer)[diPan[i]] == layer[i]
    decreases |diPan|
  {
    if |diPan| > 0 {
      var n := |diPan| - 1;
      var front := diPan[..n];
      ByEarthLookup(front, layer);
      forall i | 0 <= i < |diPan| && diPan[i] !in diPan[i + 1..]
        ensures ByEarth(diPan, layer)[diPan[i]] == layer[i]
      {
        if i < n {
          assert diPan[n] in diPan[i + 1..];
          assert front[i + 1..] == diPan[i + 1..n];
          assert diPan[i] !in front[i + 1..];
        }
      }
      forall b ensures b in ByEarth(diPan, layer) <==> b in diPan {
        assert diPan == front + [diPan[n]];
      }
    }
  }

  /** On the fixed earth plate the record simply reads the layer by branch. */
  lemma ByEarthOfEarthOrder<T>(layer: seq<T>)
    requires |layer| == 12
    ensures forall b: Branch :: b in ByEarth(EarthOrder, layer) && ByEarth(EarthOrder, layer)[b] == layer[b]
  {
    ByEarthLookup(EarthOrder, layer);
    forall b: Branch ensures b in ByEarth(EarthOrder, layer) && ByEarth(EarthOrder, layer)[b] == layer[b] {
      assert EarthOrder[b] == b;
      assert b !in EarthOrder[b + 1..];
    }
  }

  /** Builds the branch-keyed record of a twelve-place layer (buildDiToTian / buildDiToJiang). */
  method BuildByEarth<T>(diPan: BranchRing, layer: seq<T>) returns (r: map<Branch, T>)
    requires |layer| == 12
    ensures r == ByEarth(diPan, layer)
  {
    r := map[];
    var i := 0;
    while i < 12
      invariant 0 <= i <= 12
      invariant r == ByEarth(diPan[..i], layer)
    {
      assert diPan[..i + 1][..i] == diPan[..i];
      r := r[diPan[i] := layer[i]];
      i := i + 1;
    }
    assert diPan[..12] == diPan;
  }

  /** The full plate for a solar term, an hour branch and a day stem. */
  function PlateOf(t: Tables, jieqi: string, hourZhi: Branch, dayGan: Stem): Plate {
    var yueJiang := MonthGeneral(t, jieqi);
    var tianPan := HeavenPlate(yueJiang, hourZhi);
    var tianJiang := GeneralLayer(t, dayGan, t.dayNight(hourZhi), tianPan);
    Plate(tianPan, EarthOrder, tianJiang, yueJiang, t.yueJiangName(yueJiang),
          ByEarth(EarthOrder, tianPan), ByEarth(EarthOrder, tianJiang))
  }

  /** The plate's records agree with its layers, the month general sits over the hour, and the noble stands on its start. */
  lemma PlateProperties(t: Tables, jieqi: string, hourZhi: Branch, dayGan: Stem)
    requires ForwardOrderIsComplete(t)
    ensures var p := PlateOf(t, jieqi, hourZhi, dayGan);
      && p.tianPan[hourZhi] == p.yueJiang
      && p.tianJiang[NobleStart(t, dayGan, t.dayNight(hourZhi))] == Noble
      && (forall b: Branch :: b in p.diToTian && p.diToTian[b] == p.tianPan[b])
      && (forall b: Branch :: b in p.diToJiang && p.diToJiang[b] == p.tianJiang[b])
  {
    var p := PlateOf(t, jieqi, hourZhi, dayGan);
    HeavenPlateShape(p.yueJiang, hourZhi);
    GeneralLayerIsPermutation(t, dayGan, t.dayNight(hourZhi), p.tianPan);
    ByEarthOfEarthOrder(p.tianPan);
    ByEarthOfEarthOrder(p.tianJiang);
  }

  /** Computes the plate: month general, heaven plate, day or night, generals, and the two records. */
  method Calculate(t: Tables, jieqi: string, hourZhi: Branch, dayGan: Stem) returns (p: Plate)
    ensures p == PlateOf(t, jieqi, hourZhi, dayGan)
  {
    var yueJiang := MonthGeneral(t, jieqi);
    var yueJiangName := t.yueJiangName(yueJiang);
    var tianPan := CalculateTianPan(yueJiang, hourZhi);
    var diPan := EarthOrder;
    var dayNight := t.dayNight(hourZhi);
    var tianJiang := CalculateTianJiang(t, dayGan, dayNight, tianPan);
    var diToTian := BuildByEarth(diPan, tianPan);
    var diToJiang := BuildByEarth(diPan, tianJiang);
    p := Plate(tianPan, diPan, tianJiang, yueJiang, yueJiangName, diToTian, diToJiang);
  }
}
