/**
 * The Jing Fang eight-palace tables of the Liu Yao engine: trigrams as three bits,
 * the sixty-four hexagrams with their palace (宮), rank in the palace (卦序) and the
 * 世/應 lines, the 納甲 branches of each trigram and the phase of each branch.
 */
module Guagong {
  import opened Symbols
  import opened Wrappers

  /**
   * `BAGUA_BINARY`: a trigram as a number 0..7 whose highest bit is the bottom line
   * and whose lowest bit is the top line (震 ☳ = 0b100, 艮 ☶ = 0b001).
   */
  function Binary(t: Trigram): (n: int)
    ensures 0 <= n < 8
  {
    match t
    case Kun => 0
    case Gen => 1
    case Kan => 2
    case Xun => 3
    case Zhen => 4
    case Li => 5
    case Dui => 6
    case Qian => 7
  }

  /** `BINARY_TO_BAGUA`: the inverse record; a number outside 0..7 is not a key of it. */
  function BinaryToTrigram(n: int): (t: Option<Trigram>)
    ensures t.Some? <==> 0 <= n < 8
    ensures t.Some? ==> Binary(t.value) == n
  {
    if n == 0 then Some(Kun)
    else if n == 1 then Some(Gen)
    else if n == 2 then Some(Kan)
    else if n == 3 then Some(Xun)
    else if n == 4 then Some(Zhen)
    else if n == 5 then Some(Li)
    else if n == 6 then Some(Dui)
    else if n == 7 then Some(Qian)
    else None
  }

  /** The two records are inverse bijections between the eight trigrams and 0..7. */
  lemma BinaryBijection(t: Trigram, u: Trigram)
    ensures BinaryToTrigram(Binary(t)) == Some(t)
    ensures Binary(t) == Binary(u) ==> t == u
  {
    match t
    case Kun =>
    case Gen =>
    case Kan =>
    case Xun =>
    case Zhen =>
    case Li =>
    case Dui =>
    case Qian =>
  }

  /** The lines of a trigram from the bottom up (`true` is a yang line), as drawn in the comments of `BAGUA_BINARY`. */
  function TrigramLines(t: Trigram): (lines: seq<bool>)
    ensures |lines| == 3
  {
    match t
    case Kun => [false, false, false]
    case Gen => [false, false, true]
    case Kan => [false, true, false]
    case Xun => [false, true, true]
    case Zhen => [true, false, false]
    case Li => [true, false, true]
    case Dui => [true, true, false]
    case Qian => [true, true, true]
  }

  /** The number a trigram gets when its lines, bottom first, are the bits from the highest down. */
  function LinesToBinary(bottom: bool, middle: bool, top: bool): (n: int)
    ensures 0 <= n < 8
  {
    (if bottom then 4 else 0) + (if middle then 2 else 0) + (if top then 1 else 0)
  }

  /** Reading a trigram's lines back into bits gives its `BAGUA_BINARY` value, so different trigrams have different lines. */
  lemma LinesRoundTrip(t: Trigram, u: Trigram)
    ensures LinesToBinary(TrigramLines(t)[0], TrigramLines(t)[1], TrigramLines(t)[2]) == Binary(t)
    ensures TrigramLines(t) == TrigramLines(u) ==> t == u
  {
    BinaryBijection(t, u);
    if TrigramLines(t) == TrigramLines(u) {
      assert LinesToBinary(TrigramLines(u)[0], TrigramLines(u)[1], TrigramLines(u)[2]) == Binary(u);
    }
  }

  /** `BAGUA_WUXING`: the phase of each trigram. */
  function TrigramPhase(t: Trigram): Phase {
    match t
    case Qian => Metal
    case Dui => Metal
    case Li => Fire
    case Zhen => Wood
    case Xun => Wood
    case Kan => Water
    case Gen => Earth
    case Kun => Earth
  }

  /** One entry of `GUA64_DATA`. */
  datatype Gua64Info = Gua64Info(name: string, upper: Trigram, lower: Trigram, gong: Trigram, guaXu: int, shiYao: int, yingYao: int)

  /** `GUA64_DATA`, keyed by `BAGUA_BINARY[upper] * 8 + BAGUA_BINARY[lower]`; other keys are missing. */
  function Gua64Data(key: int): Option<Gua64Info> {
    match key
    case 0 => Some(Gua64Info("坤為地", Kun, Kun, Kun, 1, 6, 3))
    case 1 => Some(Gua64Info("地山謙", Kun, Gen, Dui, 6, 5, 2))
    case 2 => Some(Gua64Info("地水師", Kun, Kan, Kan, 8, 3, 6))
    case 3 => Some(Gua64Info("地風升", Kun, Xun, Zhen, 5, 4, 1))
    case 4 => Some(Gua64Info("地雷復", Kun, Zhen, Kun, 2, 1, 4))
    case 5 => Some(Gua64Info("地火明夷", Kun, Li, Kan, 7, 4, 1))
    case 6 => Some(Gua64Info("地澤臨", Kun, Dui, Kun, 3, 2, 5))
    case 7 => Some(Gua64Info("地天泰", Kun, Qian, Kun, 4, 3, 6))
    case 8 => Some(Gua64Info("山地剝", Gen, Kun, Qian, 6, 5, 2))
    case 9 => Some(Gua64Info("艮為山", Gen, Gen, Gen, 1, 6, 3))
    case 10 => Some(Gua64Info("山水蒙", Gen, Kan, Li, 5, 4, 1))
    case 11 => Some(Gua64Info("山風蠱", Gen, Xun, Xun, 8, 3, 6))
    case 12 => Some(Gua64Info("山雷頤", Gen, Zhen, Xun, 7, 4, 1))
    case 13 => Some(Gua64Info("山火賁", Gen, Li, Gen, 2, 1, 4))
    case 14 => Some(Gua64Info("山澤損", Gen, Dui, Gen, 4, 3, 6))
    case 15 => Some(Gua64Info("山天大畜", Gen, Qian, Gen, 3, 2, 5))
    case 16 => Some(Gua64Info("水地比", Kan, Kun, Kun, 8, 3, 6))
    case 17 => Some(Gua64Info("水山蹇", Kan, Gen, Dui, 5, 4, 1))
    case 18 => Some(Gua64Info("坎為水", Kan, Kan, Kan, 1, 6, 3))
    case 19 => Some(Gua64Info("水風井", Kan, Xun, Zhen, 6, 5, 2))
    case 20 => Some(Gua64Info("水雷屯", Kan, Zhen, Kan, 3, 2, 5))
    case 21 => Some(Gua64Info("水火既濟", Kan, Li, Kan, 4, 3, 6))
    case 22 => Some(Gua64Info("水澤節", Kan, Dui, Kan, 2, 1, 4))
    case 23 => Some(Gua64Info("水天需", Kan, Qian, Kun, 7, 4, 1))
    case 24 => Some(Gua64Info("風地觀", Xun, Kun, Qian, 5, 4, 1))
    case 25 => Some(Gua64Info("風山漸", Xun, Gen, Gen, 8, 3, 6))
    case 26 => Some(Gua64Info("風水渙", Xun, Kan, Li, 6, 5, 2))
    case 27 => Some(Gua64Info("巽為風", Xun, Xun, Xun, 1, 6, 3))
    case 28 => Some(Gua64Info("風雷益", Xun, Zhen, Xun, 4, 3, 6))
    case 29 => Some(Gua64Info("風火家人", Xun, Li, Xun, 3, 2, 5))
    case 30 => Some(Gua64Info("風澤中孚", Xun, Dui, Gen, 7, 4, 1))
    case 31 => Some(Gua64Info("風天小畜", Xun, Qian, Xun, 2, 1, 4))
    case 32 => Some(Gua64Info("雷地豫", Zhen, Kun, Zhen, 2, 1, 4))
    case 33 => Some(Gua64Info("雷山小過", Zhen, Gen, Dui, 7, 4, 1))
    case 34 => Some(Gua64Info("雷水解", Zhen, Kan, Zhen, 3, 2, 5))
    case 35 => Some(Gua64Info("雷風恆", Zhen, Xun, Zhen, 4, 3, 6))
    case 36 => Some(Gua64Info("震為雷", Zhen, Zhen, Zhen, 1, 6, 3))
    case 37 => Some(Gua64Info("雷火豐", Zhen, Li, Kan, 6, 5, 2))
    case 38 => Some(Gua64Info("雷澤歸妹", Zhen, Dui, Dui, 8, 3, 6))
    case 39 => Some(Gua64Info("雷天大壯", Zhen, Qian, Kun, 5, 4, 1))
    case 40 => Some(Gua64Info("火地晉", Li, Kun, Qian, 7, 4, 1))
    case 41 => Some(Gua64Info("火山旅", Li, Gen, Li, 2, 1, 4))
    case 42 => Some(Gua64Info("火水未濟", Li, Kan, Li, 4, 3, 6))
    case 43 => Some(Gua64Info("火風鼎", Li, Xun, Li, 3, 2, 5))
    case 44 => Some(Gua64Info("火雷噬嗑", Li, Zhen, Xun, 6, 5, 2))
    case 45 => Some(Gua64Info("離為火", Li, Li, Li, 1, 6, 3))
    case 46 => Some(Gua64Info("火澤睽", Li, Dui, Gen, 5, 4, 1))
    case 47 => Some(Gua64Info("火天大有", Li, Qian, Qian, 8, 3, 6))
    case 48 => Some(Gua64Info("澤地萃", Dui, Kun, Dui, 3, 2, 5))
    case 49 => Some(Gua64Info("澤山咸", Dui, Gen, Dui, 4, 3, 6))
    case 50 => Some(Gua64Info("澤水困", Dui, Kan, Dui, 2, 1, 4))
    case 51 => Some(Gua64Info("澤風大過", Dui, Xun, Zhen, 7, 4, 1))
    case 52 => Some(Gua64Info("澤雷隨", Dui, Zhen, Zhen, 8, 3, 6))
    case 53 => Some(Gua64Info("澤火革", Dui, Li, Kan, 5, 4, 1))
    case 54 => Some(Gua64Info("兌為澤", Dui, Dui, Dui, 1, 6, 3))
    case 55 => Some(Gua64Info("澤天夬", Dui, Qian, Kun, 6, 5, 2))
    case 56 => Some(Gua64Info("天地否", Qian, Kun, Qian, 4, 3, 6))
    case 57 => Some(Gua64Info("天山遯", Qian, Gen, Qian, 3, 2, 5))
    case 58 => Some(Gua64Info("天水訟", Qian, Kan, Li, 7, 4, 1))
    case 59 => Some(Gua64Info("天風姤", Qian, Xun, Qian, 2, 1, 4))
    case 60 => Some(Gua64Info("天雷無妄", Qian, Zhen, Xun, 5, 4, 1))
    case 61 => Some(Gua64Info("天火同人", Qian, Li, Li, 8, 3, 6))
    case 62 => Some(Gua64Info("天澤履", Qian, Dui, Gen, 6, 5, 2))
    case 63 => Some(Gua64Info("乾為天", Qian, Qian, Qian, 1, 6, 3))
    case _ => None
  }

  /** The key of the hexagram with these two trigrams. */
  function Key(upper: Trigram, lower: Trigram): (k: int)
    ensures 0 <= k < 64
    ensures k / 8 == Binary(upper) && k % 8 == Binary(lower)
  {
    Binary(upper) * 8 + Binary(lower)
  }

  /** The 世 line of each rank: the pure hexagram on line 6, rank k in 2..6 on line k - 1, 遊魂 on 4, 歸魂 on 3. */
  function ShiOf(guaXu: int): int {
    if guaXu == 1 then 6
    else if 2 <= guaXu <= 6 then guaXu - 1
    else if guaXu == 7 then 4
    else 3
  }

  /**
   * Whether line `i` (0-based, bottom first) of the hexagram of rank `guaXu` differs from
   * the pure hexagram of its palace: ranks 2..6 change the lowest 1..5 lines, 遊魂 changes
   * back the fourth line of rank 6, and 歸魂 restores the whole lower trigram.
   */
  predicate IsChanged(guaXu: int, i: int) {
    if guaXu == 7 then i < 5 && i != 3
    else if guaXu == 8 then i == 4
    else i < guaXu - 1
  }

  /** The six lines of a hexagram from the bottom up. */
  function HexLines(upper: Trigram, lower: Trigram): (lines: seq<bool>)
    ensures |lines| == 6
  {
    TrigramLines(lower) + TrigramLines(upper)
  }

  /** The eight entries whose upper trigram is Kun: their keys, ranks and 世/應 lines. */
  lemma UpperKunEntries(key: int)
    requires 0 <= key < 8
    ensures Gua64Data(key).Some?
    ensures var e := Gua64Data(key).value;
      && Key(e.upper, e.lower) == key
      && 1 <= e.guaXu <= 8
      && e.shiYao == ShiOf(e.guaXu)
      && e.yingYao == (e.shiYao + 2) % 6 + 1
      && (e.guaXu == 1 ==> e.upper == e.gong && e.lower == e.gong)
  {
  }

  /** The eight entries whose upper trigram is Kun: their lines against their palace's pure hexagram. */
  lemma UpperKunLines(key: int)
    requires 0 <= key < 8
    ensures Gua64Data(key).Some?
    ensures var e := Gua64Data(key).value;
      forall i :: 0 <= i < 6 ==> HexLines(e.upper, e.lower)[i] == (TrigramLines(e.gong)[i % 3] != IsChanged(e.guaXu, i))
  {
  }

  /** The eight entries whose upper trigram is Gen: their keys, ranks and 世/應 lines. */
  lemma UpperGenEntries(key: int)
    requires 8 <= key < 16
    ensures Gua64Data(key).Some?
    ensures var e := Gua64Data(key).value;
      && Key(e.upper, e.lower) == key
      && 1 <= e.guaXu <= 8
      && e.shiYao == ShiOf(e.guaXu)
      && e.yingYao == (e.shiYao + 2) % 6 + 1
      && (e.guaXu == 1 ==> e.upper == e.gong && e.lower == e.gong)
  {
  }

  /** The eight entries whose upper trigram is Gen: their lines against their palace's pure hexagram. */
  lemma UpperGenLines(key: int)
    requires 8 <= key < 16
    ensures Gua64Data(key).Some?
    ensures var e := Gua64Data(key).value;
      forall i :: 0 <= i < 6 ==> HexLines(e.upper, e.lower)[i] == (TrigramLines(e.gong)[i % 3] != IsChanged(e.guaXu, i))
  {
  }

  /** The eight entries whose upper trigram is Kan: their keys, ranks and 世/應 lines. */
  lemma UpperKanEntries(key: int)
    requires 16 <= key < 24
    ensures Gua64Data(key).Some?
    ensures var e := Gua64Data(key).value;
      && Key(e.upper, e.lower) == key
      && 1 <= e.guaXu <= 8
      && e.shiYao == ShiOf(e.guaXu)
      && e.yingYao == (e.shiYao + 2) % 6 + 1
      && (e.guaXu == 1 ==> e.upper == e.gong && e.lower == e.gong)
  {
  }

  /** The eight entries whose upper trigram is Kan: their lines against their palace's pure hexagram. */
  lemma UpperKanLines(key: int)
    requires 16 <= key < 24
    ensures Gua64Data(key).Some?
    ensures var e := Gua64Data(key).value;
      forall i :: 0 <= i < 6 ==> HexLines(e.upper, e.lower)[i] == (TrigramLines(e.gong)[i % 3] != IsChanged(e.guaXu, i))
  {
  }

  /** The eight entries whose upper trigram is Xun: their keys, ranks and 世/應 lines. */
  lemma UpperXunEntries(key: int)
    requires 24 <= key < 32
    ensures Gua64Data(key).Some?
    ensures var e := Gua64Data(key).value;
      && Key(e.upper, e.lower) == key
      && 1 <= e.guaXu <= 8
      && e.shiYao == ShiOf(e.guaXu)
      && e.yingYao == (e.shiYao + 2) % 6 + 1
      && (e.guaXu == 1 ==> e.upper == e.gong && e.lower == e.gong)
  {
  }

  /** The eight entries whose upper trigram is Xun: their lines against their palace's pure hexagram. */
  lemma UpperXunLines(key: int)
    requires 24 <= key < 32
    ensures Gua64Data(key).Some?
    ensures var e := Gua64Data(key).value;
      forall i :: 0 <= i < 6 ==> HexLines(e.upper, e.lower)[i] == (TrigramLines(e.gong)[i % 3] != IsChanged(e.guaXu, i))
  {
  }

  /** The eight entries whose upper trigram is Zhen: their keys, ranks and 世/應 lines. */
  lemma UpperZhenEntries(key: int)
    requires 32 <= key < 40
    ensures Gua64Data(key).Some?
    ensures var e := Gua64Data(key).value;
      && Key(e.upper, e.lower) == key
      && 1 <= e.guaXu <= 8
      && e.shiYao == ShiOf(e.guaXu)
      && e.yingYao == (e.shiYao + 2) % 6 + 1
      && (e.guaXu == 1 ==> e.upper == e.gong && e.lower == e.gong)
  {
  }

  /** The eight entries whose upper trigram is Zhen: their lines against their palace's pure hexagram. */
  lemma UpperZhenLines(key: int)
    requires 32 <= key < 40
    ensures Gua64Data(key).Some?
    ensures var e := Gua64Data(key).value;
      forall i :: 0 <= i < 6 ==> HexLines(e.upper, e.lower)[i] == (TrigramLines(e.gong)[i % 3] != IsChanged(e.guaXu, i))
  {
  }

  /** The eight entries whose upper trigram is Li: their keys, ranks and 世/應 lines. */
  lemma UpperLiEntries(key: int)
    requires 40 <= key < 48
    ensures Gua64Data(key).Some?
    ensures var e := Gua64Data(key).value;
      && Key(e.upper, e.lower) == key
      && 1 <= e.guaXu <= 8
      && e.shiYao == ShiOf(e.guaXu)
      && e.yingYao == (e.shiYao + 2) % 6 + 1
      && (e.guaXu == 1 ==> e.upper == e.gong && e.lower == e.gong)
  {
  }

  /** The eight entries whose upper trigram is Li: their lines against their palace's pure hexagram. */
  lemma UpperLiLines(key: int)
    requires 40 <= key < 48
    ensures Gua64Data(key).Some?
    ensures var e := Gua64Data(key).value;
      forall i :: 0 <= i < 6 ==> HexLines(e.upper, e.lower)[i] == (TrigramLines(e.gong)[i % 3] != IsChanged(e.guaXu, i))
  {
  }

  /** The eight entries whose upper trigram is Dui: their keys, ranks and 世/應 lines. */
  lemma UpperDuiEntries(key: int)
    requires 48 <= key < 56
    ensures Gua64Data(key).Some?
    ensures var e := Gua64Data(key).value;
      && Key(e.upper, e.lower) == key
      && 1 <= e.guaXu <= 8
      && e.shiYao == ShiOf(e.guaXu)
      && e.yingYao == (e.shiYao + 2) % 6 + 1
      && (e.guaXu == 1 ==> e.upper == e.gong && e.lower == e.gong)
  {
  }

  /** The eight entries whose upper trigram is Dui: their lines against their palace's pure hexagram. */
  lemma UpperDuiLines(key: int)
    requires 48 <= key < 56
    ensures Gua64Data(key).Some?
    ensures var e := Gua64Data(key).value;
      forall i :: 0 <= i < 6 ==> HexLines(e.upper, e.lower)[i] == (TrigramLines(e.gong)[i % 3] != IsChanged(e.guaXu, i))
  {
  }

  /** The eight entries whose upper trigram is Qian: their keys, ranks and 世/應 lines. */
  lemma UpperQianEntries(key: int)
    requires 56 <= key < 64
    ensures Gua64Data(key).Some?
    ensures var e := Gua64Data(key).value;
      && Key(e.upper, e.lower) == key
      && 1 <= e.guaXu <= 8
      && e.shiYao == ShiOf(e.guaXu)
      && e.yingYao == (e.shiYao + 2) % 6 + 1
      && (e.guaXu == 1 ==> e.upper == e.gong && e.lower == e.gong)
  {
  }

  /** The eight entries whose upper trigram is Qian: their lines against their palace's pure hexagram. */
  lemma UpperQianLines(key: int)
    requires 56 <= key < 64
    ensures Gua64Data(key).Some?
    ensures var e := Gua64Data(key).value;
      forall i :: 0 <= i < 6 ==> HexLines(e.upper, e.lower)[i] == (TrigramLines(e.gong)[i % 3] != IsChanged(e.guaXu, i))
  {
  }

  /**
   * Every key 0..63 is in `GUA64_DATA`, under the key of its own upper and lower trigram;
   * the table follows the eight-palace construction (lines changed from the palace's pure
   * hexagram by rank), and 世 and 應 are three lines apart.
   */
  lemma Gua64Entry(key: int)
    requires 0 <= key < 64
    ensures Gua64Data(key).Some?
    ensures var e := Gua64Data(key).value;
      && Key(e.upper, e.lower) == key
      && 1 <= e.guaXu <= 8
      && e.shiYao == ShiOf(e.guaXu)
      && e.yingYao == (e.shiYao + 2) % 6 + 1
      && (e.guaXu == 1 ==> e.upper == e.gong && e.lower == e.gong)
  {
    if key < 8 {
      UpperKunEntries(key);
    } else if key < 16 {
      UpperGenEntries(key);
    } else if key < 24 {
      UpperKanEntries(key);
    } else if key < 32 {
      UpperXunEntries(key);
    } else if key < 40 {
      UpperZhenEntries(key);
    } else if key < 48 {
      UpperLiEntries(key);
    } else if key < 56 {
      UpperDuiEntries(key);
    } else {
      UpperQianEntries(key);
    }
  }

  /** Every entry's lines are its palace's pure hexagram with the lines of its rank changed. */
  lemma Gua64EntryLines(key: int)
    requires 0 <= key < 64
    ensures Gua64Data(key).Some?
    ensures var e := Gua64Data(key).value;
      forall i :: 0 <= i < 6 ==> HexLines(e.upper, e.lower)[i] == (TrigramLines(e.gong)[i % 3] != IsChanged(e.guaXu, i))
  {
    if key < 8 {
      UpperKunLines(key);
    } else if key < 16 {
      UpperGenLines(key);
    } else if key < 24 {
      UpperKanLines(key);
    } else if key < 32 {
      UpperXunLines(key);
    } else if key < 40 {
      UpperZhenLines(key);
    } else if key < 48 {
      UpperLiLines(key);
    } else if key < 56 {
      UpperDuiLines(key);
    } else {
      UpperQianLines(key);
    }
  }

  /** The key of the hexagram with these six lines, bottom first. */
  function KeyOfLines(lines: seq<bool>): (key: int)
    requires |lines| == 6
    ensures 0 <= key < 64
  {
    LinesToBinary(lines[3], lines[4], lines[5]) * 8 + LinesToBinary(lines[0], lines[1], lines[2])
  }

  /** The key of rank `guaXu` in palace `gong`, built from the pure hexagram by the eight-palace construction. */
  function PalaceKey(gong: Trigram, guaXu: int): (key: int)
    ensures 0 <= key < 64
  {
    KeyOfLines(seq(6, i requires 0 <= i < 6 => TrigramLines(gong)[i % 3] != IsChanged(guaXu, i)))
  }

  /** The eight ranks of the Qian palace are in `GUA64_DATA`. */
  lemma QianPalace(guaXu: int)
    requires 1 <= guaXu <= 8
    ensures Gua64Data(PalaceKey(Qian, guaXu)).Some?
    ensures Gua64Data(PalaceKey(Qian, guaXu)).value.gong == Qian
    ensures Gua64Data(PalaceKey(Qian, guaXu)).value.guaXu == guaXu
  {
  }

  /** The eight ranks of the Dui palace are in `GUA64_DATA`. */
  lemma DuiPalace(guaXu: int)
    requires 1 <= guaXu <= 8
    ensures Gua64Data(PalaceKey(Dui, guaXu)).Some?
    ensures Gua64Data(PalaceKey(Dui, guaXu)).value.gong == Dui
    ensures Gua64Data(PalaceKey(Dui, guaXu)).value.guaXu == guaXu
  {
  }

  /** The eight ranks of the Li palace are in `GUA64_DATA`. */
  lemma LiPalace(guaXu: int)
    requires 1 <= guaXu <= 8
    ensures Gua64Data(PalaceKey(Li, guaXu)).Some?
    ensures Gua64Data(PalaceKey(Li, guaXu)).value.gong == Li
    ensures Gua64Data(PalaceKey(Li, guaXu)).value.guaXu == guaXu
  {
  }

  /** The eight ranks of the Zhen palace are in `GUA64_DATA`. */
  lemma ZhenPalace(guaXu: int)
    requires 1 <= guaXu <= 8
    ensures Gua64Data(PalaceKey(Zhen, guaXu)).Some?
    ensures Gua64Data(PalaceKey(Zhen, guaXu)).value.gong == Zhen
    ensures Gua64Data(PalaceKey(Zhen, guaXu)).value.guaXu == guaXu
  {
  }

  /** The eight ranks of the Xun palace are in `GUA64_DATA`. */
  lemma XunPalace(guaXu: int)
    requires 1 <= guaXu <= 8
    ensures Gua64Data(PalaceKey(Xun, guaXu)).Some?
    ensures Gua64Data(PalaceKey(Xun, guaXu)).value.gong == Xun
    ensures Gua64Data(PalaceKey(Xun, guaXu)).value.guaXu == guaXu
  {
  }

  /** The eight ranks of the Kan palace are in `GUA64_DATA`. */
  lemma KanPalace(guaXu: int)
    requires 1 <= guaXu <= 8
    ensures Gua64Data(PalaceKey(Kan, guaXu)).Some?
    ensures Gua64Data(PalaceKey(Kan, guaXu)).value.gong == Kan
    ensures Gua64Data(PalaceKey(Kan, guaXu)).value.guaXu == guaXu
  {
  }

  /** The eight ranks of the Gen palace are in `GUA64_DATA`. */
  lemma GenPalace(guaXu: int)
    requires 1 <= guaXu <= 8
    ensures Gua64Data(PalaceKey(Gen, guaXu)).Some?
    ensures Gua64Data(PalaceKey(Gen, guaXu)).value.gong == Gen
    ensures Gua64Data(PalaceKey(Gen, guaXu)).value.guaXu == guaXu
  {
  }

  /** The eight ranks of the Kun palace are in `GUA64_DATA`. */
  lemma KunPalace(guaXu: int)
    requires 1 <= guaXu <= 8
    ensures Gua64Data(PalaceKey(Kun, guaXu)).Some?
    ensures Gua64Data(PalaceKey(Kun, guaXu)).value.gong == Kun
    ensures Gua64Data(PalaceKey(Kun, guaXu)).value.guaXu == guaXu
  {
  }

  /** Every palace has an entry of every rank 1..8 in `GUA64_DATA`. */
  lemma PalaceComplete(gong: Trigram, guaXu: int)
    requires 1 <= guaXu <= 8
    ensures Gua64Data(PalaceKey(gong, guaXu)).Some?
    ensures Gua64Data(PalaceKey(gong, guaXu)).value.gong == gong
    ensures Gua64Data(PalaceKey(gong, guaXu)).value.guaXu == guaXu
  {
    match gong
    case Qian => QianPalace(guaXu);
    case Dui => DuiPalace(guaXu);
    case Li => LiPalace(guaXu);
    case Zhen => ZhenPalace(guaXu);
    case Xun => XunPalace(guaXu);
    case Kan => KanPalace(guaXu);
    case Gen => GenPalace(guaXu);
    case Kun => KunPalace(guaXu);
  }

  /** Two entries built from the same palace at the same rank have the same trigrams. */
  lemma SameRankSameTrigrams(e1: Gua64Info, e2: Gua64Info)
    requires e1.gong == e2.gong && e1.guaXu == e2.guaXu
    requires forall i :: 0 <= i < 6 ==> HexLines(e1.upper, e1.lower)[i] == (TrigramLines(e1.gong)[i % 3] != IsChanged(e1.guaXu, i))
    requires forall i :: 0 <= i < 6 ==> HexLines(e2.upper, e2.lower)[i] == (TrigramLines(e2.gong)[i % 3] != IsChanged(e2.guaXu, i))
    ensures e1.upper == e2.upper && e1.lower == e2.lower
  {
    var lines1, lines2 := HexLines(e1.upper, e1.lower), HexLines(e2.upper, e2.lower);
    assert lines1 == lines2 by {
      forall i | 0 <= i < 6
        ensures lines1[i] == lines2[i]
      {
      }
    }
    assert TrigramLines(e1.lower) == lines1[..3] == lines2[..3] == TrigramLines(e2.lower);
    assert TrigramLines(e1.upper) == lines1[3..] == lines2[3..] == TrigramLines(e2.upper);
    LinesRoundTrip(e1.lower, e2.lower);
    LinesRoundTrip(e1.upper, e2.upper);
  }

  /** No palace has two entries of the same rank, so each palace has exactly eight. */
  lemma PalaceRankUnique(key1: int, key2: int)
    requires 0 <= key1 < 64 && 0 <= key2 < 64
    requires Gua64Data(key1).Some? && Gua64Data(key2).Some?
    requires Gua64Data(key1).value.gong == Gua64Data(key2).value.gong
    requires Gua64Data(key1).value.guaXu == Gua64Data(key2).value.guaXu
    ensures key1 == key2
  {
    Gua64Entry(key1);
    Gua64Entry(key2);
    Gua64EntryLines(key1);
    Gua64EntryLines(key2);
    SameRankSameTrigrams(Gua64Data(key1).value, Gua64Data(key2).value);
  }

  /** `getGua64Info`: the entry under the key of the two trigrams, which always exists and carries those trigrams. */
  function GetGua64Info(upper: Trigram, lower: Trigram): (g: Gua64Info)
    ensures g.upper == upper && g.lower == lower
    ensures 1 <= g.guaXu <= 8 && g.shiYao == ShiOf(g.guaXu)
    ensures 1 <= g.shiYao <= 6 && 1 <= g.yingYao <= 6 && g.shiYao != g.yingYao
  {
    EntryOfTrigrams(upper, lower);
    Gua64Data(Key(upper, lower)).value
  }

  /** The entry under the key of two trigrams carries those trigrams. */
  lemma EntryOfTrigrams(upper: Trigram, lower: Trigram)
    ensures Gua64Data(Key(upper, lower)).Some?
    ensures var e := Gua64Data(Key(upper, lower)).value;
      && e.upper == upper && e.lower == lower
      && 1 <= e.guaXu <= 8 && e.shiYao == ShiOf(e.guaXu)
      && 1 <= e.shiYao <= 6 && 1 <= e.yingYao <= 6 && e.shiYao != e.yingYao
  {
    var key := Key(upper, lower);
    Gua64Entry(key);
    var e := Gua64Data(key).value;
    BinaryBijection(e.upper, upper);
    BinaryBijection(e.lower, lower);
    ShiYingApart(e.guaXu);
  }

  /** The 世 line of every rank and the 應 line three places from it are two different lines. */
  lemma ShiYingApart(guaXu: int)
    requires 1 <= guaXu <= 8
    ensures 1 <= ShiOf(guaXu) <= 6
    ensures 1 <= (ShiOf(guaXu) + 2) % 6 + 1 <= 6 && (ShiOf(guaXu) + 2) % 6 + 1 != ShiOf(guaXu)
  {
    var shi := ShiOf(guaXu);
    assert (shi + 2) % 6 + 1 == if shi <= 3 then shi + 3 else shi - 3;
  }

  /**
   * `getGua64InfoByYao` as written: each trigram's number is built with the bottom line
   * as the lowest bit, the reverse of `BAGUA_BINARY`.
   */
  function Gua64InfoByYaoAsWritten(yao: seq<bool>): Gua64Info
    requires |yao| == 6
  {
    var lowerGua := BinaryToTrigram(LinesToBinary(yao[2], yao[1], yao[0])).value;
    var upperGua := BinaryToTrigram(LinesToBinary(yao[5], yao[4], yao[3])).value;
    GetGua64Info(upperGua, lowerGua)
  }

  /** The lines of 震為雷 (yang at the bottom of each trigram) come back as 艮為山. */
  lemma ByYaoReadsTrigramsUpsideDown()
    ensures HexLines(Zhen, Zhen) == [true, false, false, true, false, false]
    ensures Gua64InfoByYaoAsWritten(HexLines(Zhen, Zhen)).name == "艮為山"
    ensures GetGua64Info(Zhen, Zhen).name == "震為雷"
  {
    assert Key(Gen, Gen) == 9;
    assert Key(Zhen, Zhen) == 36;
  }

  /** `getGua64InfoByYao` read with the bottom line as the highest bit, as `BAGUA_BINARY` is. */
  function Gua64InfoByYao(yao: seq<bool>): (g: Gua64Info)
    requires |yao| == 6
    ensures HexLines(g.upper, g.lower) == yao
  {
    var lowerGua := BinaryToTrigram(LinesToBinary(yao[0], yao[1], yao[2])).value;
    var upperGua := BinaryToTrigram(LinesToBinary(yao[3], yao[4], yao[5])).value;
    LinesOfBinary(lowerGua, yao[0], yao[1], yao[2]);
    LinesOfBinary(upperGua, yao[3], yao[4], yao[5]);
    HexLinesOfHalves(upperGua, lowerGua, yao);
    GetGua64Info(upperGua, lowerGua)
  }

  /** A hexagram whose trigrams have the lower and upper three lines has the six lines. */
  lemma HexLinesOfHalves(upper: Trigram, lower: Trigram, yao: seq<bool>)
    requires |yao| == 6
    requires TrigramLines(lower) == [yao[0], yao[1], yao[2]]
    requires TrigramLines(upper) == [yao[3], yao[4], yao[5]]
    ensures HexLines(upper, lower) == yao
  {
    assert HexLines(upper, lower) == [yao[0], yao[1], yao[2]] + [yao[3], yao[4], yao[5]];
  }

  /** A trigram whose number is the one read off three lines has exactly those lines. */
  lemma LinesOfBinary(t: Trigram, bottom: bool, middle: bool, top: bool)
    requires Binary(t) == LinesToBinary(bottom, middle, top)
    ensures TrigramLines(t) == [bottom, middle, top]
  {
  }

  /** Looking a hexagram up by its own lines gives back its entry. */
  lemma ByYaoRoundTrip(upper: Trigram, lower: Trigram)
    ensures Gua64InfoByYao(HexLines(upper, lower)) == GetGua64Info(upper, lower)
  {
    var g := Gua64InfoByYao(HexLines(upper, lower));
    assert TrigramLines(g.lower) == HexLines(g.upper, g.lower)[..3] == TrigramLines(lower);
    assert TrigramLines(g.upper) == HexLines(g.upper, g.lower)[3..] == TrigramLines(upper);
    LinesRoundTrip(g.lower, lower);
    LinesRoundTrip(g.upper, upper);
  }

  /** The inner (lines 1-3) 納甲 branches of `NAJIA_TABLE`. */
  function NaJiaInner(t: Trigram): (s: seq<Branch>)
    ensures |s| == 3
  {
    match t
    case Qian => [Zi, Yin, Chen]
    case Kun => [Wei, Si, Mao]
    case Zhen => [Zi, Yin, Chen]
    case Xun => [Chou, Hai, You]
    case Kan => [Yin, Chen, Wu]
    case Li => [Mao, Chou, Hai]
    case Gen => [Chen, Wu, Shen]
    case Dui => [Si, Mao, Chou]
  }

  /** The outer (lines 4-6) 納甲 branches of `NAJIA_TABLE`. */
  function NaJiaOuter(t: Trigram): (s: seq<Branch>)
    ensures |s| == 3
  {
    match t
    case Qian => [Wu, Shen, Xu]
    case Kun => [Chou, Hai, You]
    case Zhen => [Wu, Shen, Xu]
    case Xun => [Wei, Si, Mao]
    case Kan => [Shen, Xu, Zi]
    case Li => [You, Wei, Si]
    case Gen => [Xu, Zi, Yin]
    case Dui => [Hai, You, Wei]
  }

  /** A yang trigram (乾 or one yang line: 震, 坎, 艮) as opposed to a yin one (坤, 巽, 離, 兌). */
  predicate IsYangTrigram(t: Trigram) {
    t == Qian || t == Zhen || t == Kan || t == Gen
  }

  /**
   * The six branches of a trigram, inner then outer, advance two places at a time:
   * forward for a yang trigram and backward for a yin one.
   */
  lemma NaJiaProgression(t: Trigram, i: int)
    requires 0 <= i < 5
    ensures var six := NaJiaInner(t) + NaJiaOuter(t);
      six[i + 1] == if IsYangTrigram(t) then Shift(six[i], 2) else Shift(six[i], -2)
  {
    var six := NaJiaInner(t) + NaJiaOuter(t);
    match t
    case Qian =>
    case Kun =>
    case Zhen =>
    case Xun =>
    case Kan =>
    case Li =>
    case Gen =>
    case Dui =>
  }

  /** `getNaJia`: entry `positionInGua - 1` of the inner or outer branches; a position outside 1..3 reads nothing. */
  function GetNaJia(gua: Trigram, positionInGua: int, isOuter: bool): (b: Option<Branch>)
    ensures b.Some? <==> 1 <= positionInGua <= 3
    ensures b.Some? && isOuter ==> b.value == NaJiaOuter(gua)[positionInGua - 1]
    ensures b.Some? && !isOuter ==> b.value == NaJiaInner(gua)[positionInGua - 1]
  {
    var arr := if isOuter then NaJiaOuter(gua) else NaJiaInner(gua);
    if 1 <= positionInGua <= 3 then Some(arr[positionInGua - 1]) else None
  }

  /** `DIZHI_WUXING`: the phase of each branch. */
  function BranchPhase(b: Branch): Phase {
    if b == Zi || b == Hai then Water
    else if b == Yin || b == Mao then Wood
    else if b == Si || b == Wu then Fire
    else if b == Shen || b == You then Metal
    else Earth
  }
}
