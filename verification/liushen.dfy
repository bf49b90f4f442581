/** The six-spirit (六神) calculator of the Liu Yao engine. */
module Liushen {
  import opened Symbols
  import opened Wrappers
  import MeihuaBagua

  /** 青龍, 朱雀, 勾陳, 螣蛇, 白虎, 玄武. */
  datatype Spirit = AzureDragon | VermilionBird | HookChen | FlyingSnake | WhiteTiger | BlackTortoise

  /** `LIUSHEN_ORDER`. */
  const Order: seq<Spirit> := [AzureDragon, VermilionBird, HookChen, FlyingSnake, WhiteTiger, BlackTortoise]

  /** `STEM_TO_START_INDEX`: 甲乙 0, 丙丁 1, 戊 2, 己 3, 庚辛 4, 壬癸 5. */
  function StartIndex(s: Stem): (i: int)
    ensures 0 <= i < 6
  {
    if s <= Yi then 0
    else if s <= Ding then 1
    else if s == Mou then 2
    else if s == Ji then 3
    else if s <= Xin then 4
    else 5
  }

  /**
   * `calculate`: line `position` gets the spirit `position - 1` places after the day stem's
   * start. The index is JavaScript's truncating remainder: a negative index that is not a
   * multiple of six reads outside the order and gives nothing, while a negative multiple
   * of six leaves -0, which reads the first entry just as 0 does.
   */
  function Calculate(dayStem: Stem, position: int): (r: Option<Spirit>)
    ensures var index := StartIndex(dayStem) + position - 1;
      && (r.Some? <==> index >= 0 || index % 6 == 0)
      && (r.Some? ==> r.value == Order[index % 6])
  {
    var rem := MeihuaBagua.JsRem(StartIndex(dayStem) + position - 1, 6);
    if rem >= 0 then Some(Order[rem]) else None
  }

  /** The place of a spirit in `LIUSHEN_ORDER`. */
  function OrderIndex(s: Spirit): (k: int)
    ensures 0 <= k < 6 && Order[k] == s
  {
    match s
    case AzureDragon => 0
    case VermilionBird => 1
    case HookChen => 2
    case FlyingSnake => 3
    case WhiteTiger => 4
    case BlackTortoise => 5
  }

  /** The six lines' spirits, bottom first. */
  function AllSpirits(dayStem: Stem): (r: seq<Spirit>)
    ensures |r| == 6
    ensures forall i :: 0 <= i < 6 ==> Calculate(dayStem, i + 1) == Some(r[i])
  {
    seq(6, i requires 0 <= i < 6 => Calculate(dayStem, i + 1).value)
  }

  /** `calculateAll`: `calculate` for lines 1 to 6, pushed in order. */
  method CalculateAll(dayStem: Stem) returns (results: seq<Spirit>)
    ensures results == AllSpirits(dayStem)
  {
    results := [];
    for i := 1 to 7
      invariant |results| == i - 1
      invariant forall j :: 0 <= j < i - 1 ==> Calculate(dayStem, j + 1) == Some(results[j])
    {
      results := results + [Calculate(dayStem, i).value];
    }
  }

  /** Adding less than six to a place in the cycle wraps around at most once. */
  lemma Wrap(st: int, i: int)
    requires 0 <= st < 6 && 0 <= i < 6
    ensures (st + i) % 6 == if st + i < 6 then st + i else st + i - 6
  {
  }

  /** The six spirits of `LIUSHEN_ORDER` are different. */
  lemma OrderDistinct(a: int, b: int)
    requires 0 <= a < 6 && 0 <= b < 6 && a != b
    ensures Order[a] != Order[b]
  {
    assert OrderIndex(Order[a]) == a && OrderIndex(Order[b]) == b;
  }

  /**
   * The first line gets the stem's start spirit (甲乙 青龍, 丙丁 朱雀, 戊 勾陳, 己 螣蛇,
   * 庚辛 白虎, 壬癸 玄武), each line above gets the next spirit in the cycle, and the six
   * lines hold six different spirits, so every spirit appears once.
   */
  lemma AllSpiritsCycle(dayStem: Stem)
    ensures AllSpirits(dayStem)[0] == Order[StartIndex(dayStem)]
    ensures forall i :: 0 <= i < 6 ==> AllSpirits(dayStem)[i] == Order[(StartIndex(dayStem) + i) % 6]
    ensures forall i, j :: 0 <= i < j < 6 ==> AllSpirits(dayStem)[i] != AllSpirits(dayStem)[j]
    ensures forall s: Spirit :: s in AllSpirits(dayStem)
  {
    var r := AllSpirits(dayStem);
    var st := StartIndex(dayStem);
    forall i | 0 <= i < 6
      ensures r[i] == Order[(st + i) % 6]
      ensures (st + i) % 6 == if st + i < 6 then st + i else st + i - 6
    {
      assert Calculate(dayStem, i + 1) == Some(r[i]);
      Wrap(st, i);
    }
    forall i, j | 0 <= i < j < 6
      ensures r[i] != r[j]
    {
      OrderDistinct((st + i) % 6, (st + j) % 6);
    }
    forall s: Spirit
      ensures s in r
    {
      var k := OrderIndex(s);
      var i := (k - st + 6) % 6;
      assert (st + i) % 6 == k;
      assert r[i] == s;
    }
  }
}
