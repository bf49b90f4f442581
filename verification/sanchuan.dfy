/**
 * The three transmissions (三傳) of Da Liu Ren: the initial transmission is chosen
 * from the four lodges by the gates (九宗門) in a fixed order, and the middle and
 * final transmissions follow it over the plate (or by clash, for 返吟).
 */
module SanChuan {
  import opened Symbols
  import opened Wrappers
  import opened Lists
  import opened LiurenTables
  import opened TianDiPan
  import opened SiKe
  import opened SanChuanRules

  /** The lesson pattern (課式格局). */
  datatype GeJu =
    | ZeiKe    // 賊尅
    | BiYong   // 比用
    | SheHai   // 涉害
    | YaoKe    // 遙尅
    | MaoXing  // 昴星
    | BieZe    // 別責
    | BaZhuan  // 八專
    | FuYin    // 伏吟
    | FanYin   // 返吟

  /** The pattern's refinement (格局細分) as the calculator names it. */
  datatype Detail =
    | YuanShou      // 元首
    | ChongShen     // 重審
    | ZhiYi         // 知一
    | ChaWei        // 察微
    | JianJi        // 見機
    | HaoShi        // 蒿矢
    | DanShe        // 彈射
    | HuShi         // 虎視
    | DongSheYanMu  // 冬蛇掩目
    | WeiBo         // 帷簿
    | ZiRen         // 自任
    | DuChuan       // 杜傳
    | WuYi          // 無依
    | WuQin         // 無親
    | JueSi         // 絕嗣

  /** An initial transmission together with the pattern that chose it. */
  datatype Pick = Pick(initial: Branch, geJu: GeJu, detail: Detail)

  /** 初傳, 中傳, 末傳. */
  datatype Position = Initial | Middle | Final

  datatype ChuanInfo = ChuanInfo(position: Position, branch: Branch, general: General, kin: string, xunKong: Option<Stem>)

  datatype SanChuan = SanChuan(chuChuan: ChuanInfo, zhongChuan: ChuanInfo, moChuan: ChuanInfo, geJu: GeJu, detail: Detail)

  /** The filter "lodge carries relation `r`". */
  function RelationIs(r: LodgeRelation): Lodge -> bool {
    (k: Lodge) => k.relation == r
  }

  /** The lodge's upper branch has the day stem's polarity (`getYinYang` agrees). */
  predicate SharesPolarity(k: Lodge, dayGan: Stem) {
    BranchIsYang(k.upper) == StemIsYang(dayGan)
  }

  /** The filter "the lodge's upper branch has the day stem's polarity". */
  function SamePolarity(dayGan: Stem): Lodge -> bool {
    (k: Lodge) => SharesPolarity(k, dayGan)
  }

  /** Some lodge of relation `target` has the day stem's polarity. */
  predicate AnySamePolarity(list: seq<Lodge>, dayGan: Stem, target: LodgeRelation) {
    exists j :: 0 <= j < |list| && list[j].relation == target && SharesPolarity(list[j], dayGan)
  }

  /**
   * The lodges the tie-breaks choose among: those of relation `target`, narrowed to the
   * ones of the day stem's polarity when there are any.
   */
  function Candidate(list: seq<Lodge>, dayGan: Stem, target: LodgeRelation): Lodge -> bool {
    if AnySamePolarity(list, dayGan, target) then (k: Lodge) => k.relation == target && SharesPolarity(k, dayGan)
    else RelationIs(target)
  }

  /**
   * The narrowing `sameYinYangKe.length > 0 ? sameYinYangKe : matchingKe`: the
   * same-polarity offenders exist iff some offender has the polarity, and the narrowed
   * list is the list of candidates.
   */
  lemma Narrowing(list: seq<Lodge>, dayGan: Stem, target: LodgeRelation)
    ensures var matching := Filter(list, RelationIs(target));
      var same := Filter(matching, SamePolarity(dayGan));
      && (|same| > 0 <==> AnySamePolarity(list, dayGan, target))
      && (if |same| > 0 then same else matching) == Filter(list, Candidate(list, dayGan, target))
  {
    var matching := Filter(list, RelationIs(target));
    var same := Filter(matching, SamePolarity(dayGan));
    if |same| > 0 {
      assert same[0] in matching && SharesPolarity(same[0], dayGan);
      var j :| 0 <= j < |list| && list[j] == same[0];
      assert list[j].relation == target;
    }
    if AnySamePolarity(list, dayGan, target) {
      var test := Candidate(list, dayGan, target);
      FilterTwice(list, RelationIs(target), SamePolarity(dayGan), test);
      var j :| 0 <= j < |list| && list[j].relation == target && SharesPolarity(list[j], dayGan);
      assert test(list[j]);
    }
  }

  /**
   * The lodge both handlers take when they do not measure depths (the lone offender,
   * else the first same-polarity offender, else the first offender) is the first
   * candidate in lodge order.
   */
  lemma CandidateHead(list: seq<Lodge>, dayGan: Stem, target: LodgeRelation)
    requires |Filter(list, RelationIs(target))| >= 1
    ensures var matching := Filter(list, RelationIs(target));
      var same := Filter(matching, SamePolarity(dayGan));
      var head := if |matching| == 1 || |same| == 0 then matching[0] else same[0];
      exists i ::
        && 0 <= i < |list| && Candidate(list, dayGan, target)(list[i]) && list[i] == head
        && forall j :: 0 <= j < i ==> !Candidate(list, dayGan, target)(list[j])
  {
    var matching := Filter(list, RelationIs(target));
    var same := Filter(matching, SamePolarity(dayGan));
    Narrowing(list, dayGan, target);
    var cands := Filter(list, Candidate(list, dayGan, target));
    if |matching| == 1 && |same| > 0 {
      assert same[0] in matching;
    }
    FilterHeadIsFirst(list, Candidate(list, dayGan, target));
  }

  /** Exactly one lodge of relation `target` has the day stem's polarity. */
  predicate OnlyOneSamePolarity(list: seq<Lodge>, dayGan: Stem, target: LodgeRelation) {
    exists i ::
      && 0 <= i < |list| && list[i].relation == target && SharesPolarity(list[i], dayGan)
      && forall j :: 0 <= j < |list| && list[j].relation == target && SharesPolarity(list[j], dayGan) ==> j == i
  }

  /** The same-polarity offenders number one iff exactly one offending lodge has the polarity. */
  lemma SingleSamePolarity(list: seq<Lodge>, dayGan: Stem, target: LodgeRelation)
    ensures |Filter(Filter(list, RelationIs(target)), SamePolarity(dayGan))| == 1 <==> OnlyOneSamePolarity(list, dayGan, target)
  {
    var same := Filter(Filter(list, RelationIs(target)), SamePolarity(dayGan));
    Narrowing(list, dayGan, target);
    if AnySamePolarity(list, dayGan, target) {
      var test := Candidate(list, dayGan, target);
      assert same == Filter(list, test);
      FilterSingleton(list, test);
      assert forall j :: 0 <= j < |list| ==> (test(list[j]) <==> list[j].relation == target && SharesPolarity(list[j], dayGan));
      if OnlyOnePasses(list, test) {
        var i :| 0 <= i < |list| && test(list[i]) && forall j :: 0 <= j < |list| && test(list[j]) ==> j == i;
        assert list[i].relation == target && SharesPolarity(list[i], dayGan);
      }
      if OnlyOneSamePolarity(list, dayGan, target) {
        var i :| 0 <= i < |list| && list[i].relation == target && SharesPolarity(list[i], dayGan)
          && forall j :: 0 <= j < |list| && list[j].relation == target && SharesPolarity(list[j], dayGan) ==> j == i;
        assert test(list[i]);
      }
    } else {
      assert |same| == 0;
      assert !OnlyOneSamePolarity(list, dayGan, target);
    }
  }

  /** Lodge `i` is the first of the deepest lodges passing `f`. */
  predicate FirstOfDeepest(t: Tables, list: seq<Lodge>, f: Lodge -> bool, i: int)
    requires 0 <= i < |list|
  {
    && (forall j :: 0 <= j < |list| && f(list[j]) ==> SheHaiDepth(t, list[j]) <= SheHaiDepth(t, list[i]))
    && (forall j :: 0 <= j < i && f(list[j]) ==> SheHaiDepth(t, list[j]) < SheHaiDepth(t, list[i]))
  }

  /** Another lodge passing `f` is as deep as lodge `i`. */
  predicate DepthTied(t: Tables, list: seq<Lodge>, f: Lodge -> bool, i: int)
    requires 0 <= i < |list|
  {
    exists j :: 0 <= j < |list| && j != i && f(list[j]) && SheHaiDepth(t, list[j]) == SheHaiDepth(t, list[i])
  }

  /** Filtering by a relation keeps exactly as many lodges as the relation count. */
  lemma {:induction false} FilterCount(list: seq<Lodge>, r: LodgeRelation)
    ensures |Filter(list, RelationIs(r))| == CountRelation(list, r)
  {
    if |list| > 0 {
      FilterCount(list[1..], r);
    }
  }

  // ---------------------------------------------------------------------------
  // 比用 and 涉害: several lodges of the offending relation.

  function Depths(t: Tables, candidates: seq<Lodge>): (d: seq<nat>)
    ensures |d| == |candidates|
    ensures forall i :: 0 <= i < |d| ==> d[i] == SheHaiDepth(t, candidates[i])
  {
    seq(|candidates|, i requires 0 <= i < |candidates| => SheHaiDepth(t, candidates[i]))
  }

  /** The positions of the candidates in the lodge list, with their depths. */
  lemma CandidatePositions(t: Tables, list: seq<Lodge>, f: Lodge -> bool) returns (ix: seq<nat>)
    ensures |ix| == |Filter(list, f)|
    ensures forall k :: 0 <= k < |ix| ==>
      && ix[k] < |list| && f(list[ix[k]]) && Filter(list, f)[k] == list[ix[k]]
      && Depths(t, Filter(list, f))[k] == SheHaiDepth(t, list[ix[k]])
    ensures forall k, l :: 0 <= k < l < |ix| ==> ix[k] < ix[l]
    ensures forall j :: 0 <= j < |list| && f(list[j]) ==> j in ix
  {
    FilterIsOrderedSubsequence(list, f);
    ix := PassingFrom(list, f, 0);
  }

  /**
   * For depths `d` of the lodges at increasing positions `ix`, which are exactly the
   * positions passing `f`, the lodge at the first maximum is the first of the deepest.
   */
  lemma DeepestAt(t: Tables, list: seq<Lodge>, f: Lodge -> bool, d: seq<nat>, ix: seq<nat>)
    requires |d| == |ix| > 0
    requires forall k :: 0 <= k < |ix| ==> ix[k] < |list| && f(list[ix[k]]) && d[k] == SheHaiDepth(t, list[ix[k]])
    requires forall k, l :: 0 <= k < l < |ix| ==> ix[k] < ix[l]
    requires forall j :: 0 <= j < |list| && f(list[j]) ==> j in ix
    ensures var i := ix[FirstDeepest(d)];
      && 0 <= i < |list| && FirstOfDeepest(t, list, f, i)
      && (DeepestIsShared(d) <==> DepthTied(t, list, f, i))
  {
    var m := FirstDeepest(d);
    var i := ix[m];
    forall j | 0 <= j < |list| && f(list[j])
      ensures SheHaiDepth(t, list[j]) <= SheHaiDepth(t, list[i])
    {
      var k :| 0 <= k < |ix| && ix[k] == j;
    }
    forall j | 0 <= j < i && f(list[j])
      ensures SheHaiDepth(t, list[j]) < SheHaiDepth(t, list[i])
    {
      var k :| 0 <= k < |ix| && ix[k] == j;
      assert ix[k] < ix[m];
    }
    if DeepestIsShared(d) {
      var k :| 0 <= k < |d| && k != m && d[k] == d[m];
      assert ix[k] != ix[m] && f(list[ix[k]]);
    }
    if DepthTied(t, list, f, i) {
      var j :| 0 <= j < |list| && j != i && f(list[j]) && SheHaiDepth(t, list[j]) == SheHaiDepth(t, list[i]);
      var k :| 0 <= k < |ix| && ix[k] == j;
      assert k != m && d[k] == d[m];
    }
  }

  /**
   * The head of the stable descending sort of the candidates' depths is, in lodge
   * order, the first of the deepest candidates, and the top two depths tie iff another
   * candidate is as deep.
   */
  lemma DeepestOfFilter(t: Tables, list: seq<Lodge>, f: Lodge -> bool)
    requires |Filter(list, f)| > 0
    ensures var c := Filter(list, f);
      var d := Depths(t, c);
      exists i ::
        && 0 <= i < |list| && f(list[i]) && list[i] == c[FirstDeepest(d)]
        && FirstOfDeepest(t, list, f, i) && (DeepestIsShared(d) <==> DepthTied(t, list, f, i))
  {
    var c := Filter(list, f);
    var d := Depths(t, c);
    var ix := CandidatePositions(t, list, f);
    DeepestAt(t, list, f, d, ix);
    var i := ix[FirstDeepest(d)];
    assert list[i] == c[FirstDeepest(d)];
  }

  /**
   * Several offences: a lone offence is taken as it is (重審 or 元首); otherwise a lone
   * offending lodge of the day stem's polarity (比用); otherwise the first deepest of the
   * candidates (涉害), 察微 when another candidate is as deep and 見機 when none is.
   * `MultipleZeiKeChoice` states which lodge each gate takes.
   */
  function MultipleZeiKe(t: Tables, list: seq<Lodge>, dayGan: Stem, target: LodgeRelation): (p: Pick)
    requires CountRelation(list, target) >= 1
    ensures p.geJu in {ZeiKe, BiYong, SheHai}
    ensures p.geJu == ZeiKe <==> CountRelation(list, target) == 1
    ensures p.geJu == ZeiKe ==> p.detail == if target == XiaZeiShang then ChongShen else YuanShou
    ensures p.geJu == BiYong <==> CountRelation(list, target) >= 2 && OnlyOneSamePolarity(list, dayGan, target)
    ensures p.geJu == BiYong ==> p.detail == ZhiYi
    ensures p.geJu == SheHai ==> p.detail in {ChaWei, JianJi}
    ensures exists i :: 0 <= i < |list| && list[i].relation == target && list[i].upper == p.initial
  {
    FilterCount(list, target);
    var matching := Filter(list, RelationIs(target));
    if |matching| == 1 then
      Pick(matching[0].upper, ZeiKe, if target == XiaZeiShang then ChongShen else YuanShou)
    else
      var same := Filter(matching, SamePolarity(dayGan));
      SingleSamePolarity(list, dayGan, target);
      if |same| == 1 then
        assert same[0] in matching;
        Pick(same[0].upper, BiYong, ZhiYi)
      else
        var candidates := if |same| > 0 then same else matching;
        var depths := Depths(t, candidates);
        assert candidates[FirstDeepest(depths)] in matching;
        Pick(candidates[FirstDeepest(depths)].upper, SheHai, if DeepestIsShared(depths) then ChaWei else JianJi)
  }

  /**
   * Whichever gate of `MultipleZeiKe` chooses, the lodge chosen is a candidate (the first
   * one unless depths are measured); under 涉害 it is the first of the deepest candidates,
   * and the pick is 察微 iff another candidate is as deep.
   */
  lemma MultipleZeiKeChoice(t: Tables, list: seq<Lodge>, dayGan: Stem, target: LodgeRelation)
    requires CountRelation(list, target) >= 1
    ensures var p := MultipleZeiKe(t, list, dayGan, target);
      exists i ::
        && 0 <= i < |list| && Candidate(list, dayGan, target)(list[i]) && list[i].upper == p.initial
        && (p.geJu != SheHai ==> forall j :: 0 <= j < i ==> !Candidate(list, dayGan, target)(list[j]))
        && (p.geJu == SheHai ==>
              && FirstOfDeepest(t, list, Candidate(list, dayGan, target), i)
              && (p.detail == ChaWei <==> DepthTied(t, list, Candidate(list, dayGan, target), i)))
  {
    FilterCount(list, target);
    var matching := Filter(list, RelationIs(target));
    var same := Filter(matching, SamePolarity(dayGan));
    if |matching| == 1 || |same| == 1 {
      CandidateHead(list, dayGan, target);
    } else {
      Narrowing(list, dayGan, target);
      DeepestOfFilter(t, list, Candidate(list, dayGan, target));
    }
  }

  /** Takes the offending lodges, narrows them by polarity, and measures the depth of each candidate. */
  method HandleMultipleZeiKe(t: Tables, list: seq<Lodge>, dayGan: Stem, target: LodgeRelation) returns (p: Pick)
    requires CountRelation(list, target) >= 1
    ensures p == MultipleZeiKe(t, list, dayGan, target)
  {
    FilterCount(list, target);
    var matchingKe := Filter(list, RelationIs(target));
    if |matchingKe| == 1 {
      return Pick(matchingKe[0].upper, ZeiKe, if target == XiaZeiShang then ChongShen else YuanShou);
    }
    var sameYinYangKe := Filter(matchingKe, SamePolarity(dayGan));
    if |sameYinYangKe| == 1 {
      return Pick(sameYinYangKe[0].upper, BiYong, ZhiYi);
    }
    var candidates := if |sameYinYangKe| > 0 then sameYinYangKe else matchingKe;
    var depths: seq<nat> := [];
    for i := 0 to |candidates|
      invariant depths == Depths(t, candidates)[..i]
    {
      var depth := CalculateSheHaiDepth(t, candidates[i]);
      depths := depths + [depth];
    }
    assert depths == Depths(t, candidates);
    var top := FirstDeepest(depths);
    var detail := if DeepestIsShared(depths) then ChaWei else JianJi;
    p := Pick(candidates[top].upper, SheHai, detail);
  }

  // ---------------------------------------------------------------------------
  // 遙尅 and 昴星: no lodge offends.

  /** The word for how an upper branch stands to the day stem's phase. */
  function RemoteWord(t: Tables, lodge: Lodge, dayGan: Stem): Option<string> {
    t.wuxingRelation(t.zhiWuXing(lodge.upper), t.ganWuXing(dayGan))
  }

  /** The first lodge whose upper branch overcomes the day stem (蒿矢) or is overcome by it (彈射). */
  function RemoteFrom(t: Tables, list: seq<Lodge>, dayGan: Stem): (r: Option<Pick>)
    ensures r.None? <==> forall i :: 0 <= i < |list| ==> RemoteWord(t, list[i], dayGan) !in {Some("尅"), Some("被尅")}
    ensures r.Some? ==> r.value.geJu == YaoKe && r.value.detail in {HaoShi, DanShe}
    ensures r.Some? ==>
      exists i ::
        && 0 <= i < |list| && list[i].upper == r.value.initial
        && RemoteWord(t, list[i], dayGan) == Some(if r.value.detail == HaoShi then "尅" else "被尅")
        && (forall j :: 0 <= j < i ==> RemoteWord(t, list[j], dayGan) !in {Some("尅"), Some("被尅")})
  {
    if |list| == 0 then None
    else
      var word := RemoteWord(t, list[0], dayGan);
      if word == Some("尅") then Some(Pick(list[0].upper, YaoKe, HaoShi))
      else if word == Some("被尅") then Some(Pick(list[0].upper, YaoKe, DanShe))
      else
        var rest := RemoteFrom(t, list[1..], dayGan);
        if rest.Some? then
          var i :| 0 <= i < |list[1..]| && list[1..][i].upper == rest.value.initial
            && RemoteWord(t, list[1..][i], dayGan) == Some(if rest.value.detail == HaoShi then "尅" else "被尅")
            && (forall j :: 0 <= j < i ==> RemoteWord(t, list[1..][j], dayGan) !in {Some("尅"), Some("被尅")});
          assert list[i + 1] == list[1..][i];
          assert forall j :: 1 <= j < i + 1 ==> list[j] == list[1..][j - 1];
          rest
        else
          assert forall j :: 1 <= j < |list| ==> list[j] == list[1..][j - 1];
          rest
  }

  /** No offence: the first remote lodge, else 昴星 with the heaven branch over 酉. */
  function NoZeiKe(t: Tables, plate: Plate, list: seq<Lodge>, dayGan: Stem): Pick
    requires TotalRecords(plate)
  {
    var remote := RemoteFrom(t, list, dayGan);
    if remote.Some? then remote.value
    else Pick(plate.diToTian[You], MaoXing, if StemIsYang(dayGan) then HuShi else DongSheYanMu)
  }

  /** Scans the lodges for a remote relation with the day stem, falling back to 昴星. */
  method HandleNoZeiKe(t: Tables, plate: Plate, list: seq<Lodge>, dayGan: Stem) returns (p: Pick)
    requires TotalRecords(plate)
    ensures p == NoZeiKe(t, plate, list, dayGan)
  {
    var dayWuXing := t.ganWuXing(dayGan);
    for i := 0 to |list|
      invariant RemoteFrom(t, list, dayGan) == RemoteFrom(t, list[i..], dayGan)
    {
      assert list[i..][1..] == list[i + 1..];
      var relation := t.wuxingRelation(t.zhiWuXing(list[i].upper), dayWuXing);
      if relation == Some("尅") {
        return Pick(list[i].upper, YaoKe, HaoShi);
      }
      if relation == Some("被尅") {
        return Pick(list[i].upper, YaoKe, DanShe);
      }
    }
    if StemIsYang(dayGan) {
      p := Pick(plate.diToTian[You], MaoXing, HuShi);
    } else {
      p := Pick(plate.diToTian[You], MaoXing, DongSheYanMu);
    }
  }

  // ---------------------------------------------------------------------------
  // 返吟, 伏吟 and 八專.

  /**
   * Under 返吟: the lone offending lodge, else the first of the day stem's polarity,
   * else the first offending lodge; that is, the first candidate in lodge order.
   */
  function FanYinOffence(list: seq<Lodge>, dayGan: Stem, target: LodgeRelation): (b: Branch)
    requires CountRelation(list, target) >= 1
    ensures exists i ::
      && 0 <= i < |list| && Candidate(list, dayGan, target)(list[i]) && list[i].upper == b
      && forall j :: 0 <= j < i ==> !Candidate(list, dayGan, target)(list[j])
  {
    FilterCount(list, target);
    CandidateHead(list, dayGan, target);
    var matching := Filter(list, RelationIs(target));
    if |matching| == 1 then matching[0].upper
    else
      var same := Filter(matching, SamePolarity(dayGan));
      if |same| >= 1 then same[0].upper else matching[0].upper
  }

  /**
   * handleFanYin: 絕嗣 takes the post horse; otherwise an offence from below (下賊上)
   * before one from above (上尅下), each settled by `FanYinOffence`; otherwise 無親 takes
   * the post horse.
   */
  function FanYinPick(list: seq<Lodge>, dayGan: Stem, dayZhi: Branch, stats: Stats, isFanYinBaZhuan: bool): (p: Pick)
    requires stats.xiaZeiShang == CountRelation(list, XiaZeiShang)
    requires stats.shangKeXia == CountRelation(list, ShangKeXia)
    ensures p.geJu == FanYin
    ensures p.detail == JueSi <==> isFanYinBaZhuan
    ensures p.detail in {JueSi, WuQin} ==> p.initial == YiMa(dayZhi)
    ensures !isFanYinBaZhuan && stats.xiaZeiShang > 0 ==> p == Pick(FanYinOffence(list, dayGan, XiaZeiShang), FanYin, WuYi)
    ensures !isFanYinBaZhuan && stats.xiaZeiShang == 0 && stats.shangKeXia > 0 ==>
      p == Pick(FanYinOffence(list, dayGan, ShangKeXia), FanYin, WuYi)
    ensures p.detail == WuQin <==> !isFanYinBaZhuan && stats.xiaZeiShang == 0 && stats.shangKeXia == 0
  {
    if isFanYinBaZhuan then Pick(YiMa(dayZhi), FanYin, JueSi)
    else if stats.xiaZeiShang > 0 then Pick(FanYinOffence(list, dayGan, XiaZeiShang), FanYin, WuYi)
    else if stats.shangKeXia > 0 then Pick(FanYinOffence(list, dayGan, ShangKeXia), FanYin, WuYi)
    else Pick(YiMa(dayZhi), FanYin, WuQin)
  }

  /** handleFuYin: a yang day takes the stem's palace (自任), a yin day the day branch (杜傳). */
  function FuYinPick(t: Tables, dayGan: Stem, dayZhi: Branch): (p: Pick)
    ensures p.geJu == FuYin
    ensures StemIsYang(dayGan) <==> p.detail == ZiRen
    ensures p.initial == if StemIsYang(dayGan) then t.ganJiGong(dayGan) else dayZhi
  {
    if StemIsYang(dayGan) then Pick(t.ganJiGong(dayGan), FuYin, ZiRen) else Pick(dayZhi, FuYin, DuChuan)
  }

  /** handleBaZhuan: two places clockwise from the day branch on a yang day, two counter-clockwise on a yin day. */
  function BaZhuanPick(dayGan: Stem, dayZhi: Branch): (p: Pick)
    ensures p.geJu == BaZhuan && p.detail == WeiBo
    ensures Distance(dayZhi, p.initial) == if StemIsYang(dayGan) then 2 else 10
  {
    var target := if StemIsYang(dayGan) then (dayZhi + 2) % 12 else (dayZhi - 2 + 12) % 12;
    Pick(target, BaZhuan, WeiBo)
  }

  // ---------------------------------------------------------------------------
  // The gates in order, and the three transmissions.

  /** The flags the gates test, computed from the lodges, the plate and the day. */
  predicate FanYinBaZhuanDay(t: Tables, list: seq<Lodge>, day: Pillar) {
    day in t.ganZhiSamePosition && CountRelation(list, XiaZeiShang) == 4
  }

  function ChoosePick(t: Tables, list: seq<Lodge>, plate: Plate, day: Pillar, hourZhi: Branch): Pick
    requires TotalRecords(plate)
  {
    var xz := CountRelation(list, XiaZeiShang);
    var sk := CountRelation(list, ShangKeXia);
    var stats := Stats(sk, xz, CountRelation(list, BiHe), CountRelation(list, ShangShengXia), CountRelation(list, XiaShengShang));
    var isFanYinBaZhuan := FanYinBaZhuanDay(t, list, day);
    if IsFanYinPlate(t, plate) || isFanYinBaZhuan then FanYinPick(list, day.stem, day.branch, stats, isFanYinBaZhuan)
    else if plate.yueJiang == hourZhi then FuYinPick(t, day.stem, day.branch)
    else if day in t.baZhuanDays && sk == 0 && xz == 0 then BaZhuanPick(day.stem, day.branch)
    else if xz == 1 && sk == 0 then
      CountRelationPositive(list, XiaZeiShang);
      Pick(Find(list, RelationIs(XiaZeiShang)).value.upper, ZeiKe, ChongShen)
    else if sk == 1 && xz == 0 then
      CountRelationPositive(list, ShangKeXia);
      Pick(Find(list, RelationIs(ShangKeXia)).value.upper, ZeiKe, YuanShou)
    else if xz >= 1 then MultipleZeiKe(t, list, day.stem, XiaZeiShang)
    else if sk >= 2 then MultipleZeiKe(t, list, day.stem, ShangKeXia)
    else if sk == 0 && xz == 0 then NoZeiKe(t, plate, list, day.stem)
    else
      // The code's default (the first lodge's upper branch) cannot be reached.
      assert false; Pick(Zi, ZeiKe, YuanShou)
  }

  /** buildChuanInfo: the general over the branch, the kin from the day stem's phase to the branch's phase, and the void marker. */
  function BuildChuanInfo(t: Tables, plate: Plate, position: Position, b: Branch, day: Pillar): ChuanInfo
    requires TotalRecords(plate)
  {
    var word := t.wuxingRelation(t.ganWuXing(day.stem), t.zhiWuXing(b));
    var relation := if word.Some? && word.value != "" then word.value else "比和";
    var liuQin := if relation in t.liuqinMap && t.liuqinMap[relation] != "" then t.liuqinMap[relation] else "兄弟";
    ChuanInfo(position, b, plate.diToJiang[b], liuQin, XunKongMarker(t, day, b))
  }

  /** The middle transmission: the clash of the initial one under 返吟, else the heaven branch over it. */
  function Next(t: Tables, plate: Plate, fanYin: bool, b: Branch): Branch
    requires TotalRecords(plate)
  {
    if fanYin then t.zhiChong(b) else plate.diToTian[b]
  }

  function SanChuanOf(t: Tables, info: SiKeInfo, plate: Plate, day: Pillar, hourZhi: Branch): SanChuan
    requires TotalRecords(plate)
  {
    var pick := ChoosePick(t, info.list, plate, day, hourZhi);
    var fanYin := IsFanYinPlate(t, plate);
    var zhong := Next(t, plate, fanYin, pick.initial);
    var mo := Next(t, plate, fanYin, zhong);
    SanChuan(BuildChuanInfo(t, plate, Initial, pick.initial, day),
             BuildChuanInfo(t, plate, Middle, zhong, day),
             BuildChuanInfo(t, plate, Final, mo, day),
             pick.geJu, pick.detail)
  }

  /** Counts the relations, tests the special lessons, runs the gates in order and derives the middle and final transmissions. */
  method Calculate(t: Tables, info: SiKeInfo, plate: Plate, day: Pillar, hourZhi: Branch) returns (r: SanChuan)
    requires TotalRecords(plate)
    ensures r == SanChuanOf(t, info, plate, day, hourZhi)
  {
    var dayGan := day.stem;
    var dayZhi := day.branch;
    var stats := AnalyzeRelations(info);
    var isFuYin := plate.yueJiang == hourZhi;
    var isFanYin := CheckFanYin(t, plate);
    var isBaZhuan := day in t.baZhuanDays;
    var isGanZhiSamePos := day in t.ganZhiSamePosition;
    var isFanYinBaZhuan := isGanZhiSamePos && stats.xiaZeiShang == 4;
    var pick: Pick;
    if isFanYin || isFanYinBaZhuan {
      pick := FanYinPick(info.list, dayGan, dayZhi, stats, isFanYinBaZhuan);
    } else if isFuYin {
      pick := FuYinPick(t, dayGan, dayZhi);
    } else if isBaZhuan && stats.shangKeXia == 0 && stats.xiaZeiShang == 0 {
      pick := BaZhuanPick(dayGan, dayZhi);
    } else if stats.xiaZeiShang == 1 && stats.shangKeXia == 0 {
      CountRelationPositive(info.list, XiaZeiShang);
      var ke := Find(info.list, RelationIs(XiaZeiShang)).value;
      pick := Pick(ke.upper, ZeiKe, ChongShen);
    } else if stats.shangKeXia == 1 && stats.xiaZeiShang == 0 {
      CountRelationPositive(info.list, ShangKeXia);
      var ke := Find(info.list, RelationIs(ShangKeXia)).value;
      pick := Pick(ke.upper, ZeiKe, YuanShou);
    } else if stats.xiaZeiShang >= 1 {
      pick := HandleMultipleZeiKe(t, info.list, dayGan, XiaZeiShang);
    } else if stats.shangKeXia >= 2 {
      pick := HandleMultipleZeiKe(t, info.list, dayGan, ShangKeXia);
    } else if stats.shangKeXia == 0 && stats.xiaZeiShang == 0 {
      pick := HandleNoZeiKe(t, plate, info.list, dayGan);
    } else {
      // The code's default (the first lodge's upper branch) cannot be reached.
      assert false;
      pick := Pick(Zi, ZeiKe, YuanShou);
    }
    var zhongChuanZhi, moChuanZhi;
    if isFanYin {
      zhongChuanZhi := t.zhiChong(pick.initial);
      moChuanZhi := t.zhiChong(zhongChuanZhi);
    } else {
      zhongChuanZhi := plate.diToTian[pick.initial];
      moChuanZhi := plate.diToTian[zhongChuanZhi];
    }
    r := SanChuan(BuildChuanInfo(t, plate, Initial, pick.initial, day),
                  BuildChuanInfo(t, plate, Middle, zhongChuanZhi, day),
                  BuildChuanInfo(t, plate, Final, moChuanZhi, day),
                  pick.geJu, pick.detail);
  }

  // ---------------------------------------------------------------------------
  // Properties of the gates and the transmissions.

  /** A relation held by all four lodges is missing from none of them. */
  lemma {:induction false} CountBelowLength(list: seq<Lodge>, r: LodgeRelation, i: int)
    requires 0 <= i < |list| && list[i].relation != r
    ensures CountRelation(list, r) < |list|
  {
    if i > 0 {
      CountBelowLength(list[1..], r, i - 1);
    }
  }

  /**
   * The gates are tried in order: 返吟 (including 返吟八專) first, then 伏吟, then
   * 八專, then the offences, then the remote relations and 昴星. 別責 is never chosen,
   * and an offence pattern always takes an offending lodge's upper branch.
   */
  lemma GatesInOrder(t: Tables, list: seq<Lodge>, plate: Plate, day: Pillar, hourZhi: Branch)
    requires TotalRecords(plate)
    ensures var p := ChoosePick(t, list, plate, day, hourZhi);
      var fan := IsFanYinPlate(t, plate) || FanYinBaZhuanDay(t, list, day);
      var fu := plate.yueJiang == hourZhi;
      var none := CountRelation(list, XiaZeiShang) == 0 && CountRelation(list, ShangKeXia) == 0;
      && (p.geJu == FanYin <==> fan)
      && (p.geJu == FuYin <==> !fan && fu)
      && (p.geJu == BaZhuan <==> !fan && !fu && day in t.baZhuanDays && none)
      && (p.geJu in {YaoKe, MaoXing} <==> !fan && !fu && !(day in t.baZhuanDays) && none)
      && p.geJu != BieZe
      && (p.geJu == MaoXing ==> p.initial == plate.diToTian[You])
      && (p.geJu in {ZeiKe, BiYong, SheHai} ==>
            exists i :: 0 <= i < |list| && list[i].relation in {XiaZeiShang, ShangKeXia} && list[i].upper == p.initial)
  {
    var xz := CountRelation(list, XiaZeiShang);
    var sk := CountRelation(list, ShangKeXia);
    if xz >= 1 {
      CountRelationPositive(list, XiaZeiShang);
    }
    if sk >= 1 {
      CountRelationPositive(list, ShangKeXia);
    }
  }

  /**
   * Past the whole-plate gates, the offences decide: any 下賊上 sends the 下賊上 lodges
   * to `MultipleZeiKe` (so a lone 下賊上 is 重審 even beside 上尅下 lodges); only when
   * there is none do the 上尅下 lodges go there (a lone one is 元首).
   */
  lemma OffenceGates(t: Tables, list: seq<Lodge>, plate: Plate, day: Pillar, hourZhi: Branch)
    requires TotalRecords(plate)
    requires !IsFanYinPlate(t, plate) && !FanYinBaZhuanDay(t, list, day) && plate.yueJiang != hourZhi
    ensures var p := ChoosePick(t, list, plate, day, hourZhi);
      var xz := CountRelation(list, XiaZeiShang);
      var sk := CountRelation(list, ShangKeXia);
      && (xz >= 1 ==> p == MultipleZeiKe(t, list, day.stem, XiaZeiShang))
      && (xz == 0 && sk >= 1 ==> p == MultipleZeiKe(t, list, day.stem, ShangKeXia))
      && (xz == 1 ==> p.geJu == ZeiKe && p.detail == ChongShen)
      && (xz == 0 && sk == 1 ==> p.geJu == ZeiKe && p.detail == YuanShou)
  {
    var xz := CountRelation(list, XiaZeiShang);
    var sk := CountRelation(list, ShangKeXia);
    if xz == 1 && sk == 0 {
      FilterCount(list, XiaZeiShang);
      FindIsFirstOfFilter(list, RelationIs(XiaZeiShang));
    } else if xz == 0 && sk == 1 {
      FilterCount(list, ShangKeXia);
      FindIsFirstOfFilter(list, RelationIs(ShangKeXia));
    }
  }

  /**
   * The middle transmission follows the initial one and the final follows the middle:
   * over the plate normally, by clash under 返吟, where (with the standard clash table)
   * the final transmission returns to the initial one. Each transmission shows the
   * general over its branch.
   */
  lemma TransmissionChain(t: Tables, info: SiKeInfo, plate: Plate, day: Pillar, hourZhi: Branch)
    requires TotalRecords(plate)
    ensures var r := SanChuanOf(t, info, plate, day, hourZhi);
      && r.chuChuan.branch == ChoosePick(t, info.list, plate, day, hourZhi).initial
      && (!IsFanYinPlate(t, plate) ==>
            r.zhongChuan.branch == plate.diToTian[r.chuChuan.branch] && r.moChuan.branch == plate.diToTian[r.zhongChuan.branch])
      && (IsFanYinPlate(t, plate) && ChongIsOpposite(t) ==>
            r.zhongChuan.branch == Shift(r.chuChuan.branch, 6) && r.moChuan.branch == r.chuChuan.branch)
      && (forall c :: c in [r.chuChuan, r.zhongChuan, r.moChuan] ==> c.general == plate.diToJiang[c.branch])
      && r.chuChuan.position == Initial && r.zhongChuan.position == Middle && r.moChuan.position == Final
  {
    var r := SanChuanOf(t, info, plate, day, hourZhi);
    ShiftSmall(r.chuChuan.branch, 6);
    ShiftSmall(Shift(r.chuChuan.branch, 6), 6);
  }

  /**
   * 伏吟 end to end: with the month general over its own hour and the standard clash and
   * relation tables, the lesson is 伏吟 and all three transmissions are the stem's
   * palace on a yang day and the day branch on a yin day.
   */
  lemma FuYinLesson(t: Tables, jieqi: string, hourZhi: Branch, day: Pillar)
    requires ChongIsOpposite(t) && StandardRelationTable(t)
    requires MonthGeneral(t, jieqi) == hourZhi
    ensures var plate := PlateOf(t, jieqi, hourZhi, day.stem);
      TotalRecords(plate) &&
      var r := SanChuanOf(t, SiKe.Calculate(t, day.stem, day.branch, plate), plate, day, hourZhi);
      var b := if StemIsYang(day.stem) then t.ganJiGong(day.stem) else day.branch;
      && r.geJu == FuYin
      && r.chuChuan.branch == b && r.zhongChuan.branch == b && r.moChuan.branch == b
  {
    var plate := PlateOf(t, jieqi, hourZhi, day.stem);
    FuYinRecord(t, jieqi, hourZhi, day.stem);
    FuYinLodges(t, jieqi, hourZhi, day.stem, day.branch);
    var info := SiKe.Calculate(t, day.stem, day.branch, plate);
    FanYinIffOpposite(t, jieqi, hourZhi, day.stem);
    ShiftSmall(hourZhi, 6);
    RelationMeaning(t, info.list[2].upper, info.list[2].lower);
    CountBelowLength(info.list, XiaZeiShang, 2);
    TransmissionChain(t, info, plate, day, hourZhi);
  }

  /**
   * 返吟 end to end: with the month general opposite the hour and the standard clash
   * table, the lesson is 返吟, the middle transmission clashes with the initial one
   * and the final one returns to it.
   */
  lemma FanYinLesson(t: Tables, jieqi: string, hourZhi: Branch, day: Pillar)
    requires ChongIsOpposite(t)
    requires MonthGeneral(t, jieqi) == Shift(hourZhi, 6)
    ensures var plate := PlateOf(t, jieqi, hourZhi, day.stem);
      TotalRecords(plate) &&
      var r := SanChuanOf(t, SiKe.Calculate(t, day.stem, day.branch, plate), plate, day, hourZhi);
      && r.geJu == FanYin
      && r.zhongChuan.branch == Shift(r.chuChuan.branch, 6)
      && r.moChuan.branch == r.chuChuan.branch
  {
    var plate := PlateOf(t, jieqi, hourZhi, day.stem);
    FanYinIffOpposite(t, jieqi, hourZhi, day.stem);
    var info := SiKe.Calculate(t, day.stem, day.branch, plate);
    GatesInOrder(t, info.list, plate, day, hourZhi);
    TransmissionChain(t, info, plate, day, hourZhi);
  }

  /** With the standard tables, a transmission's kin is the five-phase relation of the day stem to its branch. */
  lemma KinMeaning(t: Tables, plate: Plate, position: Position, b: Branch, day: Pillar)
    requires TotalRecords(plate)
    requires StandardRelationTable(t) && StandardKinMap(t)
    ensures var kin := BuildChuanInfo(t, plate, position, b, day).kin;
      var me := t.ganWuXing(day.stem);
      var it := t.zhiWuXing(b);
      && (kin == "兄弟" <==> me == it)
      && (kin == "子孫" <==> Generates(me) == it)
      && (kin == "妻財" <==> Overcomes(me) == it)
      && (kin == "官鬼" <==> Overcomes(it) == me)
      && (kin == "父母" <==> Generates(it) == me)
  {
    FivePhaseCases(t.ganWuXing(day.stem), t.zhiWuXing(b));
  }
}
