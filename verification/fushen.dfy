/**
 * The hidden-spirit (伏神) calculator of the Liu Yao engine: a kin missing from the
 * cast hexagram is looked for in the pure hexagram of its palace, and is paired with
 * the line of the cast hexagram above it (the flying spirit, 飛神).
 */
module Fushen {
  import opened Symbols
  import opened Wrappers
  import opened Guagong
  import Lists
  import Najia
  import Liuqin
  import Wangshuai

  /** 飛生伏, 飛克伏, 伏生飛, 伏克飛, 比和. */
  datatype Relation = FeiShengFu | FeiKeFu | FuShengFei | FuKeFei | BiHe

  /** One hidden spirit: its kin, branch, phase and line, the flying spirit above it, and its strength if asked for. */
  datatype FuShenInfo = FuShenInfo(
    liuQin: Liuqin.Kin,
    diZhi: Branch,
    wuXing: Phase,
    position: int,
    feiShenDiZhi: Branch,
    feiShenWuXing: Phase,
    relation: Relation,
    wangShuaiByMonth: Option<Wangshuai.State>,
    wangShuaiByDay: Option<Wangshuai.State>)

  /** `ALL_LIUQIN`. */
  const AllLiuQin: seq<Liuqin.Kin> := [Liuqin.Parent, Liuqin.Sibling, Liuqin.Offspring, Liuqin.Wealth, Liuqin.Official]

  /** The place of a kin in `ALL_LIUQIN`. */
  function Rank(k: Liuqin.Kin): (i: int)
    ensures 0 <= i < 5
  {
    match k
    case Parent => 0
    case Sibling => 1
    case Offspring => 2
    case Wealth => 3
    case Official => 4
  }

  /** `Rank` is the inverse of indexing `ALL_LIUQIN`, which is in rank order. */
  lemma RankIndexes(k: Liuqin.Kin, i: int)
    requires 0 <= i < 5
    ensures AllLiuQin[Rank(k)] == k
    ensures Rank(AllLiuQin[i]) == i
  {
    match k
    case Parent =>
    case Sibling =>
    case Offspring =>
    case Wealth =>
    case Official =>
  }

  /**
   * `calculateRelation`: 比和 for the same phase, otherwise which of the two generates or
   * overcomes the other; the closing `return '比和'` is never reached.
   */
  function CalculateRelation(feiWuXing: Phase, fuWuXing: Phase): (r: Relation)
    ensures r == BiHe <==> feiWuXing == fuWuXing
    ensures r == FeiShengFu <==> Generates(feiWuXing) == fuWuXing
    ensures r == FeiKeFu <==> Overcomes(feiWuXing) == fuWuXing
    ensures r == FuShengFei <==> Generates(fuWuXing) == feiWuXing
    ensures r == FuKeFei <==> Overcomes(fuWuXing) == feiWuXing
  {
    FivePhaseCases(feiWuXing, fuWuXing);
    if feiWuXing == fuWuXing then BiHe
    else if Generates(feiWuXing) == fuWuXing then FeiShengFu
    else if Overcomes(feiWuXing) == fuWuXing then FeiKeFu
    else if Generates(fuWuXing) == feiWuXing then FuShengFei
    else if Overcomes(fuWuXing) == feiWuXing then FuKeFei
    else assert false; BiHe
  }

  /** `getShouGuaNaJia`: the inner then the outer branches of the palace, each with its phase. */
  method GetShouGuaNaJia(gong: Trigram) returns (result: seq<Najia.NaJiaResult>)
    ensures result == Najia.AllLines(gong, gong)
  {
    result := [];
    var inner := NaJiaInner(gong);
    for i := 0 to 3
      invariant |result| == i
      invariant forall j :: 0 <= j < i ==> result[j] == Najia.NaJiaResult(inner[j], BranchPhase(inner[j]))
    {
      result := result + [Najia.NaJiaResult(inner[i], BranchPhase(inner[i]))];
    }
    var outer := NaJiaOuter(gong);
    for i := 0 to 3
      invariant |result| == 3 + i
      invariant forall j :: 0 <= j < 3 ==> result[j] == Najia.NaJiaResult(inner[j], BranchPhase(inner[j]))
      invariant forall j :: 0 <= j < i ==> result[3 + j] == Najia.NaJiaResult(outer[j], BranchPhase(outer[j]))
    {
      result := result + [Najia.NaJiaResult(outer[i], BranchPhase(outer[i]))];
    }
    forall i | 0 <= i < 6
      ensures result[i] == Najia.AllLines(gong, gong)[i]
    {
      Najia.AllLinesBranches(gong, gong, i);
    }
  }

  /** The filter `lq => !presentSet.has(lq)`. */
  function Absent(present: seq<Liuqin.Kin>): Liuqin.Kin -> bool {
    (k: Liuqin.Kin) => k !in present
  }

  /** The filter for kin found among the lines of the pure hexagram. */
  function FoundIn(kins: seq<Liuqin.Kin>): Liuqin.Kin -> bool {
    (k: Liuqin.Kin) => k in kins
  }

  /** `missingLiuQin`: the kin of `ALL_LIUQIN` not present, in that order. */
  function MissingLiuQin(present: seq<Liuqin.Kin>): seq<Liuqin.Kin> {
    Lists.Filter(AllLiuQin, Absent(present))
  }

  /** The kin of each line, seen from the palace phase. */
  function KinOfLines(gongWuXing: Phase, lines: seq<Najia.NaJiaResult>): (r: seq<Liuqin.Kin>)
    ensures |r| == |lines|
  {
    seq(|lines|, i requires 0 <= i < |lines| => Liuqin.Calculate(gongWuXing, lines[i].wuXing))
  }

  /** The hidden spirit on line `pos + 1` of the pure hexagram, with the flying spirit on the same line of the cast one. */
  function Entry(k: Liuqin.Kin, pos: int, shou: seq<Najia.NaJiaResult>, ben: seq<Najia.NaJiaResult>,
                 monthBranch: Option<Branch>, dayBranch: Option<Branch>): FuShenInfo
    requires 0 <= pos < |shou| && pos < |ben|
  {
    var fu := shou[pos];
    var fei := ben[pos];
    FuShenInfo(k, fu.diZhi, fu.wuXing, pos + 1, fei.diZhi, fei.wuXing, CalculateRelation(fei.wuXing, fu.wuXing),
      if monthBranch.Some? then Some(Wangshuai.Calculate(fu.wuXing, monthBranch.value)) else None,
      if dayBranch.Some? then Some(Wangshuai.Calculate(fu.wuXing, dayBranch.value)) else None)
  }

  /** The kin of a list of hidden spirits. */
  function KinsOf(r: seq<FuShenInfo>): (ks: seq<Liuqin.Kin>)
    ensures |ks| == |r|
  {
    seq(|r|, i requires 0 <= i < |r| => r[i].liuQin)
  }

  /**
   * The loop over the missing kin: each is looked up at its first line in the pure
   * hexagram, and one that is not there is skipped.
   */
  function Entries(missing: seq<Liuqin.Kin>, shou: seq<Najia.NaJiaResult>, shouKin: seq<Liuqin.Kin>,
                   ben: seq<Najia.NaJiaResult>, monthBranch: Option<Branch>, dayBranch: Option<Branch>): seq<FuShenInfo>
    requires |shou| == 6 && |shouKin| == 6 && |ben| == 6
  {
    if |missing| == 0 then []
    else
      var position := Lists.IndexOf(shouKin, missing[0]);
      var rest := Entries(missing[1..], shou, shouKin, ben, monthBranch, dayBranch);
      if position == -1 then rest
      else [Entry(missing[0], position, shou, ben, monthBranch, dayBranch)] + rest
  }

  /** The hidden spirits are the missing kin found in the pure hexagram, in their order. */
  lemma {:induction false} EntriesKins(missing: seq<Liuqin.Kin>, shou: seq<Najia.NaJiaResult>, shouKin: seq<Liuqin.Kin>,
                                       ben: seq<Najia.NaJiaResult>, monthBranch: Option<Branch>, dayBranch: Option<Branch>)
    requires |shou| == 6 && |shouKin| == 6 && |ben| == 6
    ensures KinsOf(Entries(missing, shou, shouKin, ben, monthBranch, dayBranch)) == Lists.Filter(missing, FoundIn(shouKin))
  {
    if |missing| > 0 {
      EntriesKins(missing[1..], shou, shouKin, ben, monthBranch, dayBranch);
      var rest := Entries(missing[1..], shou, shouKin, ben, monthBranch, dayBranch);
      if Lists.IndexOf(shouKin, missing[0]) != -1 {
        var r := Entries(missing, shou, shouKin, ben, monthBranch, dayBranch);
        assert KinsOf(r) == [missing[0]] + KinsOf(rest);
      }
    }
  }

  /** A hidden spirit is taken from the first line of the pure hexagram that has its kin. */
  predicate FromFirstLine(e: FuShenInfo, shou: seq<Najia.NaJiaResult>, shouKin: seq<Liuqin.Kin>,
                          ben: seq<Najia.NaJiaResult>, monthBranch: Option<Branch>, dayBranch: Option<Branch>)
    requires |shou| == 6 && |shouKin| == 6 && |ben| == 6
  {
    var pos := Lists.IndexOf(shouKin, e.liuQin);
    0 <= pos && e == Entry(e.liuQin, pos, shou, ben, monthBranch, dayBranch)
  }

  /** Each hidden spirit is taken from the first line of the pure hexagram that has its kin. */
  lemma {:induction false} EntriesLines(missing: seq<Liuqin.Kin>, shou: seq<Najia.NaJiaResult>, shouKin: seq<Liuqin.Kin>,
                                        ben: seq<Najia.NaJiaResult>, monthBranch: Option<Branch>, dayBranch: Option<Branch>)
    requires |shou| == 6 && |shouKin| == 6 && |ben| == 6
    ensures forall e :: e in Entries(missing, shou, shouKin, ben, monthBranch, dayBranch) ==>
      FromFirstLine(e, shou, shouKin, ben, monthBranch, dayBranch)
  {
    if |missing| > 0 {
      EntriesLines(missing[1..], shou, shouKin, ben, monthBranch, dayBranch);
    }
  }

  /** The entry for one missing kin: none when the pure hexagram lacks it. */
  function EntryFor(k: Liuqin.Kin, shou: seq<Najia.NaJiaResult>, shouKin: seq<Liuqin.Kin>,
                    ben: seq<Najia.NaJiaResult>, monthBranch: Option<Branch>, dayBranch: Option<Branch>): seq<FuShenInfo>
    requires |shou| == 6 && |shouKin| == 6 && |ben| == 6
  {
    var position := Lists.IndexOf(shouKin, k);
    if position == -1 then [] else [Entry(k, position, shou, ben, monthBranch, dayBranch)]
  }

  /** Appending a missing kin appends its entry, if any. */
  lemma {:induction false} EntriesAppend(missing: seq<Liuqin.Kin>, k: Liuqin.Kin, shou: seq<Najia.NaJiaResult>, shouKin: seq<Liuqin.Kin>,
                                         ben: seq<Najia.NaJiaResult>, monthBranch: Option<Branch>, dayBranch: Option<Branch>)
    requires |shou| == 6 && |shouKin| == 6 && |ben| == 6
    ensures Entries(missing + [k], shou, shouKin, ben, monthBranch, dayBranch)
      == Entries(missing, shou, shouKin, ben, monthBranch, dayBranch) + EntryFor(k, shou, shouKin, ben, monthBranch, dayBranch)
  {
    if |missing| > 0 {
      assert (missing + [k])[1..] == missing[1..] + [k];
      EntriesAppend(missing[1..], k, shou, shouKin, ben, monthBranch, dayBranch);
    } else {
      assert (missing + [k])[1..] == [];
    }
  }

  /** `calculate` as a function of its inputs. */
  function FuShenOf(gongWuXing: Phase, gong: Trigram, presentLiuQin: seq<Liuqin.Kin>, benGuaNaJia: seq<Najia.NaJiaResult>,
                    monthBranch: Option<Branch>, dayBranch: Option<Branch>): seq<FuShenInfo>
    requires |benGuaNaJia| == 6
  {
    var missing := MissingLiuQin(presentLiuQin);
    if |missing| == 0 then []
    else
      var shou := Najia.AllLines(gong, gong);
      Entries(missing, shou, KinOfLines(gongWuXing, shou), benGuaNaJia, monthBranch, dayBranch)
  }

  /** The loop of `calculate`: for each missing kin, the entry at its first line of the pure hexagram, if any. */
  method CollectEntries(missingLiuQin: seq<Liuqin.Kin>, shouGuaNaJia: seq<Najia.NaJiaResult>, shouGuaLiuQin: seq<Liuqin.Kin>,
                        benGuaNaJia: seq<Najia.NaJiaResult>, monthBranch: Option<Branch>, dayBranch: Option<Branch>)
    returns (fuShenList: seq<FuShenInfo>)
    requires |shouGuaNaJia| == 6 && |shouGuaLiuQin| == 6 && |benGuaNaJia| == 6
    ensures fuShenList == Entries(missingLiuQin, shouGuaNaJia, shouGuaLiuQin, benGuaNaJia, monthBranch, dayBranch)
  {
    fuShenList := [];
    for i := 0 to |missingLiuQin|
      invariant fuShenList == Entries(missingLiuQin[..i], shouGuaNaJia, shouGuaLiuQin, benGuaNaJia, monthBranch, dayBranch)
    {
      assert missingLiuQin[..i + 1] == missingLiuQin[..i] + [missingLiuQin[i]];
      EntriesAppend(missingLiuQin[..i], missingLiuQin[i], shouGuaNaJia, shouGuaLiuQin, benGuaNaJia, monthBranch, dayBranch);
      var missingLq := missingLiuQin[i];
      var position := Lists.IndexOf(shouGuaLiuQin, missingLq);
      if position != -1 {
        var fuShenInfo := Entry(missingLq, position, shouGuaNaJia, benGuaNaJia, monthBranch, dayBranch);
        fuShenList := fuShenList + [fuShenInfo];
      }
    }
    assert missingLiuQin[..|missingLiuQin|] == missingLiuQin;
  }

  /** `calculate`: the missing kin, then one hidden spirit per missing kin found in the pure hexagram. */
  method Calculate(gongWuXing: Phase, gong: Trigram, presentLiuQin: seq<Liuqin.Kin>, benGuaNaJia: seq<Najia.NaJiaResult>,
                   monthBranch: Option<Branch>, dayBranch: Option<Branch>) returns (fuShenList: seq<FuShenInfo>)
    requires |benGuaNaJia| == 6
    ensures fuShenList == FuShenOf(gongWuXing, gong, presentLiuQin, benGuaNaJia, monthBranch, dayBranch)
  {
    var missingLiuQin := MissingLiuQin(presentLiuQin);
    if |missingLiuQin| == 0 {
      return [];
    }
    var shouGuaNaJia := GetShouGuaNaJia(gong);
    var shouGuaLiuQin := KinOfLines(gongWuXing, shouGuaNaJia);
    fuShenList := CollectEntries(missingLiuQin, shouGuaNaJia, shouGuaLiuQin, benGuaNaJia, monthBranch, dayBranch);
  }

  /** The phases of the six lines of a pure hexagram, bottom first. */
  function PurePhases(gong: Trigram): (ps: seq<Phase>)
    ensures |ps| == 6
  {
    var six := NaJiaInner(gong) + NaJiaOuter(gong);
    seq(6, i requires 0 <= i < 6 => BranchPhase(six[i]))
  }

  /** Each pure hexagram carries all five phases on its lines. */
  lemma PurePhasesComplete(gong: Trigram, p: Phase)
    ensures p in PurePhases(gong)
  {
    var ps := PurePhases(gong);
    match gong
    case Qian => assert ps[0] == Water && ps[1] == Wood && ps[2] == Earth && ps[3] == Fire && ps[4] == Metal;
    case Kun => assert ps[0] == Earth && ps[1] == Fire && ps[2] == Wood && ps[4] == Water && ps[5] == Metal;
    case Zhen => assert ps[0] == Water && ps[1] == Wood && ps[2] == Earth && ps[3] == Fire && ps[4] == Metal;
    case Xun => assert ps[0] == Earth && ps[1] == Water && ps[2] == Metal && ps[4] == Fire && ps[5] == Wood;
    case Kan => assert ps[0] == Wood && ps[1] == Earth && ps[2] == Fire && ps[3] == Metal && ps[5] == Water;
    case Li => assert ps[0] == Wood && ps[1] == Earth && ps[2] == Water && ps[3] == Metal && ps[5] == Fire;
    case Gen => assert ps[0] == Earth && ps[1] == Fire && ps[2] == Metal && ps[4] == Water && ps[5] == Wood;
    case Dui => assert ps[0] == Fire && ps[1] == Wood && ps[2] == Earth && ps[3] == Water && ps[4] == Metal;
  }

  /** Every line of a pure hexagram, seen from its own palace's phase, gives all five kin. */
  lemma PureHexagramHasAllKin(gong: Trigram, k: Liuqin.Kin)
    ensures k in KinOfLines(TrigramPhase(gong), Najia.AllLines(gong, gong))
  {
    var lines := Najia.AllLines(gong, gong);
    var kins := KinOfLines(TrigramPhase(gong), lines);
    var p := Liuqin.PhaseOfKin(TrigramPhase(gong), k);
    Liuqin.KinBijection(TrigramPhase(gong), p, k);
    PurePhasesComplete(gong, p);
    var i :| 0 <= i < 6 && PurePhases(gong)[i] == p;
    Najia.AllLinesBranches(gong, gong, i);
    assert kins[i] == k;
  }

  /**
   * No hidden spirit when all five kin are present. When the palace phase is the palace's
   * own, the pure hexagram has every kin, so the list is empty only then and the skip for a
   * kin not found never happens.
   */
  lemma FuShenEmpty(gong: Trigram, presentLiuQin: seq<Liuqin.Kin>, benGuaNaJia: seq<Najia.NaJiaResult>,
                    monthBranch: Option<Branch>, dayBranch: Option<Branch>)
    requires |benGuaNaJia| == 6
    ensures (forall k: Liuqin.Kin :: k in presentLiuQin)
        ==> FuShenOf(TrigramPhase(gong), gong, presentLiuQin, benGuaNaJia, monthBranch, dayBranch) == []
    ensures FuShenOf(TrigramPhase(gong), gong, presentLiuQin, benGuaNaJia, monthBranch, dayBranch) == []
        ==> forall k: Liuqin.Kin :: k in presentLiuQin
    ensures |FuShenOf(TrigramPhase(gong), gong, presentLiuQin, benGuaNaJia, monthBranch, dayBranch)| == |MissingLiuQin(presentLiuQin)|
  {
    var missing := MissingLiuQin(presentLiuQin);
    if !forall k: Liuqin.Kin :: k in presentLiuQin {
      var k: Liuqin.Kin :| k !in presentLiuQin;
      RankIndexes(k, 0);
      assert k in missing;
    }
    if |missing| > 0 {
      var shou := Najia.AllLines(gong, gong);
      var shouKin := KinOfLines(TrigramPhase(gong), shou);
      EntriesKins(missing, shou, shouKin, benGuaNaJia, monthBranch, dayBranch);
      forall k: Liuqin.Kin
        ensures FoundIn(shouKin)(k)
      {
        PureHexagramHasAllKin(gong, k);
      }
      FilterAll(missing, FoundIn(shouKin));
    }
  }

  /** Filtering by a test every element passes keeps the list. */
  lemma {:induction false} FilterAll(s: seq<Liuqin.Kin>, f: Liuqin.Kin -> bool)
    requires forall k :: f(k)
    ensures Lists.Filter(s, f) == s
  {
    if |s| > 0 {
      FilterAll(s[1..], f);
      assert s == [s[0]] + s[1..];
    }
  }

  /** The hidden spirits follow `ALL_LIUQIN` order, so no kin appears twice. */
  lemma FuShenOrder(gongWuXing: Phase, gong: Trigram, presentLiuQin: seq<Liuqin.Kin>, benGuaNaJia: seq<Najia.NaJiaResult>,
                    monthBranch: Option<Branch>, dayBranch: Option<Branch>)
    requires |benGuaNaJia| == 6
    ensures Lists.Ascending(KinsOf(FuShenOf(gongWuXing, gong, presentLiuQin, benGuaNaJia, monthBranch, dayBranch)), Rank)
  {
    var missing := MissingLiuQin(presentLiuQin);
    if |missing| > 0 {
      var shou := Najia.AllLines(gong, gong);
      var shouKin := KinOfLines(gongWuXing, shou);
      EntriesKins(missing, shou, shouKin, benGuaNaJia, monthBranch, dayBranch);
      forall i | 0 <= i < 5
        ensures Rank(AllLiuQin[i]) == i
      {
        RankIndexes(Liuqin.Parent, i);
      }
      Lists.FilterKeepsOrder(AllLiuQin, Rank, Absent(presentLiuQin));
      Lists.FilterKeepsOrder(missing, Rank, FoundIn(shouKin));
    }
  }

  /**
   * Each hidden spirit is a kin absent from the cast lines and sits on the first line of
   * the pure hexagram with that kin: its branch and phase come from that line, the flying
   * spirit is the cast hexagram's line at the same place, and its strength is given
   * exactly when the month or day branch is.
   */
  lemma FuShenEntries(gongWuXing: Phase, gong: Trigram, presentLiuQin: seq<Liuqin.Kin>, benGuaNaJia: seq<Najia.NaJiaResult>,
                      monthBranch: Option<Branch>, dayBranch: Option<Branch>, e: FuShenInfo)
    requires |benGuaNaJia| == 6
    requires e in FuShenOf(gongWuXing, gong, presentLiuQin, benGuaNaJia, monthBranch, dayBranch)
    ensures var shou := Najia.AllLines(gong, gong);
      var shouKin := KinOfLines(gongWuXing, shou);
      var p := e.position - 1;
      && e.liuQin !in presentLiuQin
      && 0 <= p < 6
      && shouKin[p] == e.liuQin && e.liuQin !in shouKin[..p]
      && e.diZhi == shou[p].diZhi && e.wuXing == shou[p].wuXing
      && e.feiShenDiZhi == benGuaNaJia[p].diZhi && e.feiShenWuXing == benGuaNaJia[p].wuXing
      && e.relation == CalculateRelation(benGuaNaJia[p].wuXing, shou[p].wuXing)
      && (e.wangShuaiByMonth.Some? <==> monthBranch.Some?)
      && (monthBranch.Some? ==> e.wangShuaiByMonth.value == Wangshuai.Calculate(e.wuXing, monthBranch.value))
      && (e.wangShuaiByDay.Some? <==> dayBranch.Some?)
      && (dayBranch.Some? ==> e.wangShuaiByDay.value == Wangshuai.Calculate(e.wuXing, dayBranch.value))
  {
    var missing := MissingLiuQin(presentLiuQin);
    var shou := Najia.AllLines(gong, gong);
    var shouKin := KinOfLines(gongWuXing, shou);
    var r := Entries(missing, shou, shouKin, benGuaNaJia, monthBranch, dayBranch);
    EntriesKins(missing, shou, shouKin, benGuaNaJia, monthBranch, dayBranch);
    EntriesLines(missing, shou, shouKin, benGuaNaJia, monthBranch, dayBranch);
    assert FromFirstLine(e, shou, shouKin, benGuaNaJia, monthBranch, dayBranch);
    var i :| 0 <= i < |r| && r[i] == e;
    assert KinsOf(r)[i] == e.liuQin;
    assert e.liuQin in missing;
  }
}
