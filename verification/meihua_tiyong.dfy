/**
 * Body and use (體用) in the Meihua engine: the trigram holding the moving line is
 * the use (用), the other the body (體), and the relation of their phases is read
 * from the body's side.
 */
module MeihuaTiyong {
  import opened Symbols

  /** Which of the two trigrams: `'upper' | 'lower'`. */
  datatype Position = Upper | Lower

  /** `TiYongRelation`: 生 (use generates body), 剋 (use overcomes body), 比和 (same phase), 洩 (body generates use), 耗 (body overcomes use). */
  datatype TiYongRelation = Sheng | Ke | BiHe | Xie | Hao

  /** `TiYongAnalysis` without its description text. */
  datatype TiYongAnalysis = TiYongAnalysis(
    tiGua: Position,
    yongGua: Position,
    tiWuXing: Phase,
    yongWuXing: Phase,
    relation: TiYongRelation)

  /**
   * `getRelation`: each relation holds exactly when its condition on the two phases
   * does, so the final fallback to 比和 is never taken for different phases.
   */
  function GetRelation(ti: Phase, yong: Phase): (r: TiYongRelation)
    ensures r == BiHe <==> ti == yong
    ensures r == Sheng <==> Generates(yong) == ti
    ensures r == Xie <==> Generates(ti) == yong
    ensures r == Ke <==> Overcomes(yong) == ti
    ensures r == Hao <==> Overcomes(ti) == yong
  {
    FivePhaseCases(ti, yong);
    if ti == yong then BiHe
    else if Generates(yong) == ti then Sheng
    else if Generates(ti) == yong then Xie
    else if Overcomes(yong) == ti then Ke
    else if Overcomes(ti) == yong then Hao
    else BiHe
  }

  /** For a fixed body phase the five use phases get five different relations. */
  lemma RelationDeterminesUse(ti: Phase, yong1: Phase, yong2: Phase)
    requires GetRelation(ti, yong1) == GetRelation(ti, yong2)
    ensures yong1 == yong2
  {
    match GetRelation(ti, yong1)
    case BiHe =>
    case Sheng => GeneratesInjective(yong1, yong2);
    case Xie =>
    case Ke => OvercomesInjective(yong1, yong2);
    case Hao =>
  }

  /** Two phases generating the same phase are the same phase. */
  lemma GeneratesInjective(a: Phase, b: Phase)
    requires Generates(a) == Generates(b)
    ensures a == b
  {
    match a
    case Wood =>
    case Fire =>
    case Earth =>
    case Metal =>
    case Water =>
  }

  /** Two phases overcoming the same phase are the same phase. */
  lemma OvercomesInjective(a: Phase, b: Phase)
    requires Overcomes(a) == Overcomes(b)
    ensures a == b
  {
    match a
    case Wood =>
    case Fire =>
    case Earth =>
    case Metal =>
    case Water =>
  }

  /**
   * `TiyongCalculator.calculate`: a moving line 1..3 (or any number up to 3) lies in
   * the lower trigram, which becomes the use; otherwise the upper one is the use.
   * Body and use are always different trigrams and carry their own phases.
   */
  function Calculate(upperWuXing: Phase, lowerWuXing: Phase, movingYao: int): (a: TiYongAnalysis)
    ensures a.tiGua != a.yongGua
    ensures a.yongGua == Lower <==> movingYao <= 3
    ensures a.tiWuXing == (if a.tiGua == Upper then upperWuXing else lowerWuXing)
    ensures a.yongWuXing == (if a.yongGua == Upper then upperWuXing else lowerWuXing)
    ensures a.relation == GetRelation(a.tiWuXing, a.yongWuXing)
  {
    var isMovingInLower := movingYao <= 3;
    var tiGua := if isMovingInLower then Upper else Lower;
    var yongGua := if isMovingInLower then Lower else Upper;
    var tiWuXing := if tiGua == Upper then upperWuXing else lowerWuXing;
    var yongWuXing := if yongGua == Upper then upperWuXing else lowerWuXing;
    TiYongAnalysis(tiGua, yongGua, tiWuXing, yongWuXing, GetRelation(tiWuXing, yongWuXing))
  }
}
