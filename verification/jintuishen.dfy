/** The advancing/retreating spirit (進神/退神) calculator of the Liu Yao engine. */
module Jintuishen {
  import opened Symbols
  import opened Wrappers

  /** 進神 or 退神. */
  datatype JinTui = Advancing | Retreating

  /** `JIN_SHEN_MAP`: 亥→子, 寅→卯, 巳→午, 申→酉, 丑→辰, 辰→未, 未→戌, 戌→丑, and 子卯午酉 to themselves. */
  function JinShen(b: Branch): Branch {
    if b == Hai then Zi
    else if b == Yin then Mao
    else if b == Si then Wu
    else if b == Shen then You
    else if b == Chou then Chen
    else if b == Chen then Wei
    else if b == Wei then Xu
    else if b == Xu then Chou
    else b
  }

  /** `TUI_SHEN_MAP`: 子→亥, 卯→寅, 午→巳, 酉→申, 辰→丑, 未→辰, 戌→未, 丑→戌, and 亥寅巳申 to themselves. */
  function TuiShen(b: Branch): Branch {
    if b == Zi then Hai
    else if b == Mao then Yin
    else if b == Wu then Si
    else if b == You then Shen
    else if b == Chen then Chou
    else if b == Wei then Chen
    else if b == Xu then Wei
    else if b == Chou then Xu
    else b
  }

  /** `calculate`: 進神 is checked first and wins; otherwise 退神 or nothing (`null`). */
  function Calculate(originalDiZhi: Branch, changedDiZhi: Branch): (r: Option<JinTui>)
    ensures r == Some(Advancing) <==> JinShen(originalDiZhi) == changedDiZhi
    ensures r == Some(Retreating) <==> JinShen(originalDiZhi) != changedDiZhi && TuiShen(originalDiZhi) == changedDiZhi
  {
    if JinShen(originalDiZhi) == changedDiZhi then Some(Advancing)
    else if TuiShen(originalDiZhi) == changedDiZhi then Some(Retreating)
    else None
  }

  /** Apart from the placeholder self-entries the two tables are inverse to each other. */
  lemma TablesInverse(x: Branch, y: Branch)
    requires x != y
    ensures JinShen(x) == y <==> TuiShen(y) == x
  {
  }

  /** Through the placeholders a line that keeps its branch counts as 進神 for 子卯午酉, 退神 for 亥寅巳申 and neither for 丑辰未戌. */
  lemma UnchangedBranch(b: Branch)
    ensures Calculate(b, b) == Some(Advancing) <==> b == Zi || b == Mao || b == Wu || b == You
    ensures Calculate(b, b) == Some(Retreating) <==> b == Hai || b == Yin || b == Si || b == Shen
    ensures Calculate(b, b) == None <==> b == Chou || b == Chen || b == Wei || b == Xu
  {
  }

  /** A real change of branch is 進神 exactly when the table steps forward, 退神 when it steps back: one place for 子卯午酉 and their neighbours, three for 丑辰未戌. */
  lemma RealChangeDirection(x: Branch, y: Branch)
    requires x != y
    ensures Calculate(x, y) == Some(Advancing) ==> y == Shift(x, 1) || y == Shift(x, 3)
    ensures Calculate(x, y) == Some(Retreating) ==> x == Shift(y, 1) || x == Shift(y, 3)
  {
  }
}
