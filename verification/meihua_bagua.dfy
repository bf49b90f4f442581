/**
 * The eight trigrams of the Meihua (梅花易數) engine: the 先天 numbering 1..8, the
 * lookups by number and by name, the sixty-four hexagram names keyed by the two
 * trigram names, and each trigram as three bits.
 */
module MeihuaBagua {
  import opened Symbols
  import opened Wrappers
  import Lists
  import Guagong

  /** `BaGuaInfo`: a trigram with its symbol, its phase and its 先天 number. */
  datatype BaGuaInfo = BaGuaInfo(name: Trigram, symbol: char, wuXing: Phase, number: int)

  /** `BAGUA_DATA`, in 先天 order 乾1 兌2 離3 震4 巽5 坎6 艮7 坤8. */
  const BaguaData: seq<BaGuaInfo> := [
    BaGuaInfo(Qian, '☰', Metal, 1),
    BaGuaInfo(Dui, '☱', Metal, 2),
    BaGuaInfo(Li, '☲', Fire, 3),
    BaGuaInfo(Zhen, '☳', Wood, 4),
    BaGuaInfo(Xun, '☴', Wood, 5),
    BaGuaInfo(Kan, '☵', Water, 6),
    BaGuaInfo(Gen, '☶', Earth, 7),
    BaGuaInfo(Kun, '☷', Earth, 8)
  ]

  /** The 先天 number of a trigram, 1..8. */
  function XianTianNumber(t: Trigram): (n: int)
    ensures 1 <= n <= 8
    ensures BaguaData[n - 1].name == t
  {
    match t
    case Qian => 1
    case Dui => 2
    case Li => 3
    case Zhen => 4
    case Xun => 5
    case Kan => 6
    case Gen => 7
    case Kun => 8
  }

  /**
   * Entry i of the table carries the number i + 1, its trigram's number is that too,
   * and its phase is the one the Liu Yao tables give the same trigram.
   */
  lemma DataNumbered(i: int)
    requires 0 <= i < 8
    ensures BaguaData[i].number == i + 1
    ensures XianTianNumber(BaguaData[i].name) == i + 1
    ensures BaguaData[i].wuXing == Guagong.TrigramPhase(BaguaData[i].name)
  {
    if i == 0 {} else if i == 1 {} else if i == 2 {} else if i == 3 {}
    else if i == 4 {} else if i == 5 {} else if i == 6 {} else {}
  }

  /**
   * JavaScript's `a % n` for a positive `n`: the remainder truncated toward zero,
   * which takes the sign of `a` (Dafny's own `%` never goes negative).
   */
  function JsRem(a: int, n: int): (r: int)
    requires n > 0
    ensures -n < r < n
    ensures a >= 0 ==> r == a % n
    ensures a < 0 ==> r <= 0
    ensures r == 0 <==> a % n == 0
  {
    if a >= 0 then a % n
    else
      NegatedRemainder(a, n);
      -((-a) % n)
  }

  /** A number and its negation are divisible by `n` together. */
  lemma NegatedRemainder(a: int, n: int)
    requires n > 0
    ensures (-a) % n == 0 <==> a % n == 0
  {
    if a % n == 0 {
      assert -a == n * (-(a / n));
      MultipleRemainder(n, -(a / n));
    }
    if (-a) % n == 0 {
      assert a == n * (-((-a) / n));
      MultipleRemainder(n, -((-a) / n));
    }
  }

  /** A multiple of `n` leaves no remainder. */
  lemma MultipleRemainder(n: int, k: int)
    requires n > 0
    ensures (n * k) % n == 0
  {
    var m := n * k;
    var j := k - m / n;
    assert m == n * (m / n) + m % n;
    assert n * j == m % n;
    if j > 0 {
      ProductAtLeast(n, j);
    } else if j < 0 {
      ProductAtLeast(n, -j);
    }
  }

  /** A positive multiple of `n` is at least `n`. */
  lemma {:induction false} ProductAtLeast(n: int, j: int)
    requires n > 0 && j > 0
    ensures n * j >= n
    decreases j
  {
    if j > 1 {
      ProductAtLeast(n, j - 1);
      assert n * j == n * (j - 1) + n;
    }
  }

  /**
   * `getBaGuaByNumber`: index `num % 8 - 1`, or 7 when the remainder is 0. For a
   * negative number whose remainder is not 0 the index is negative and the array
   * read gives `undefined`, modelled as `None`.
   */
  function GetBaGuaByNumber(num: int): (r: Option<BaGuaInfo>)
    ensures r.Some? <==> num > 0 || num % 8 == 0
    ensures r.Some? ==> r.value == BaguaData[(num - 1) % 8]
    ensures r.Some? ==> r.value.number == (num - 1) % 8 + 1
  {
    var rem := JsRem(num, 8);
    var index := if rem == 0 then 7 else rem - 1;
    DataNumbered((num - 1) % 8);
    if 0 <= index then Some(BaguaData[index]) else None
  }

  /**
   * `getBaGuaByName`: the entry whose name matches. The error branch of the source
   * is never taken, because every trigram has an entry.
   */
  function GetBaGuaByName(name: Trigram): (r: Option<BaGuaInfo>)
    ensures r == Some(BaguaData[XianTianNumber(name) - 1])
  {
    var i := XianTianNumber(name) - 1;
    FindEntry(name, i);
    Lists.Find(BaguaData, (g: BaGuaInfo) => g.name == name)
  }

  /** The entry for a trigram is the only one carrying its name, so `find` stops there. */
  lemma FindEntry(name: Trigram, i: int)
    requires 0 <= i < 8 && BaguaData[i].name == name
    ensures Lists.Find(BaguaData, (g: BaGuaInfo) => g.name == name) == Some(BaguaData[i])
  {
    var f := (g: BaGuaInfo) => g.name == name;
    var r := Lists.Find(BaguaData, f);
    assert f(BaguaData[i]);
    var k :| 0 <= k < 8 && BaguaData[k] == r.value;
    DataNumbered(k);
    DataNumbered(i);
  }

  /** The character naming a trigram, as it appears in `BaGuaName` and in the name keys. */
  function NameChar(t: Trigram): char {
    match t
    case Qian => '乾'
    case Dui => '兌'
    case Li => '離'
    case Zhen => '震'
    case Xun => '巽'
    case Kan => '坎'
    case Gen => '艮'
    case Kun => '坤'
  }

  /** The image (象) a trigram contributes to a hexagram name: 天 澤 火 雷 風 水 山 地. */
  function ImageChar(t: Trigram): char {
    match t
    case Qian => '天'
    case Dui => '澤'
    case Li => '火'
    case Zhen => '雷'
    case Xun => '風'
    case Kan => '水'
    case Gen => '山'
    case Kun => '地'
  }

  /** The trigram a name character stands for; any other character names none. */
  function TrigramOfChar(c: char): (t: Option<Trigram>)
    ensures t.Some? ==> NameChar(t.value) == c
  {
    if c == '乾' then Some(Qian)
    else if c == '兌' then Some(Dui)
    else if c == '離' then Some(Li)
    else if c == '震' then Some(Zhen)
    else if c == '巽' then Some(Xun)
    else if c == '坎' then Some(Kan)
    else if c == '艮' then Some(Gen)
    else if c == '坤' then Some(Kun)
    else None
  }

  /** A trigram's name character reads back as that trigram, so different trigrams have different names. */
  lemma NameCharRoundTrip(t: Trigram)
    ensures TrigramOfChar(NameChar(t)) == Some(t)
  {
    match t
    case Qian =>
    case Dui =>
    case Li =>
    case Zhen =>
    case Xun =>
    case Kan =>
    case Gen =>
    case Kun =>
  }

  /**
   * The record `GUA64_NAMES`: a key of two name characters, upper then lower, has a
   * name; any other string is not a key.
   */
  function Gua64Names(key: string): (name: Option<string>)
    ensures name.Some? <==> |key| == 2 && TrigramOfChar(key[0]).Some? && TrigramOfChar(key[1]).Some?
  {
    if |key| != 2 then None
    else
      match (TrigramOfChar(key[0]), TrigramOfChar(key[1]))
      case (Some(upper), Some(lower)) => Some(TableName(upper, lower))
      case _ => None
  }

  /** The sixty-four entries of `GUA64_NAMES`, by upper then lower trigram. */
  function TableName(upper: Trigram, lower: Trigram): string {
    match upper
    case Qian =>
      match lower {
      case Qian => "乾為天"
      case Dui => "天澤履"
      case Li => "天火同人"
      case Zhen => "天雷無妄"
      case Xun => "天風姤"
      case Kan => "天水訟"
      case Gen => "天山遯"
      case Kun => "天地否"
      }
    case Dui =>
      match lower {
      case Qian => "澤天夬"
      case Dui => "兌為澤"
      case Li => "澤火革"
      case Zhen => "澤雷隨"
      case Xun => "澤風大過"
      case Kan => "澤水困"
      case Gen => "澤山咸"
      case Kun => "澤地萃"
      }
    case Li =>
      match lower {
      case Qian => "火天大有"
      case Dui => "火澤睽"
      case Li => "離為火"
      case Zhen => "火雷噬嗑"
      case Xun => "火風鼎"
      case Kan => "火水未濟"
      case Gen => "火山旅"
      case Kun => "火地晉"
      }
    case Zhen =>
      match lower {
      case Qian => "雷天大壯"
      case Dui => "雷澤歸妹"
      case Li => "雷火豐"
      case Zhen => "震為雷"
      case Xun => "雷風恆"
      case Kan => "雷水解"
      case Gen => "雷山小過"
      case Kun => "雷地豫"
      }
    case Xun =>
      match lower {
      case Qian => "風天小畜"
      case Dui => "風澤中孚"
      case Li => "風火家人"
      case Zhen => "風雷益"
      case Xun => "巽為風"
      case Kan => "風水渙"
      case Gen => "風山漸"
      case Kun => "風地觀"
      }
    case Kan =>
      match lower {
      case Qian => "水天需"
      case Dui => "水澤節"
      case Li => "水火既濟"
      case Zhen => "水雷屯"
      case Xun => "水風井"
      case Kan => "坎為水"
      case Gen => "水山蹇"
      case Kun => "水地比"
      }
    case Gen =>
      match lower {
      case Qian => "山天大畜"
      case Dui => "山澤損"
      case Li => "山火賁"
      case Zhen => "山雷頤"
      case Xun => "山風蠱"
      case Kan => "山水蒙"
      case Gen => "艮為山"
      case Kun => "山地剝"
      }
    case Kun =>
      match lower {
      case Qian => "地天泰"
      case Dui => "地澤臨"
      case Li => "地火明夷"
      case Zhen => "地雷復"
      case Xun => "地風升"
      case Kan => "地水師"
      case Gen => "地山謙"
      case Kun => "坤為地"
      }
  }

  /** The key `${upper}${lower}` of the name table. */
  function NameKey(upper: Trigram, lower: Trigram): string {
    [NameChar(upper), NameChar(lower)]
  }

  /**
   * `getGua64Name`: the table entry, or `${upper}${lower}卦` when the key is missing.
   * The table is complete, so the fallback is never produced. A doubled trigram is
   * named `X為<image>`; any other hexagram starts with the upper then the lower image.
   */
  function GetGua64Name(upper: Trigram, lower: Trigram): (name: string)
    ensures |name| >= 3
    ensures upper == lower ==> name[0] == NameChar(upper) && name[1] == '為' && name[2] == ImageChar(upper)
    ensures upper != lower ==> name[0] == ImageChar(upper) && name[1] == ImageChar(lower)
  {
    var key := NameKey(upper, lower);
    NameTableComplete(upper, lower);
    match Gua64Names(key)
    case Some(name) => name
    case None => key + "卦"
  }

  /** Every pair of trigrams has its key in the name table, and its name follows the image rule. */
  lemma NameTableComplete(upper: Trigram, lower: Trigram)
    ensures Gua64Names(NameKey(upper, lower)) == Some(TableName(upper, lower))
    ensures |TableName(upper, lower)| >= 3
    ensures upper == lower ==> TableName(upper, lower)[0] == NameChar(upper) && TableName(upper, lower)[1] == '為' && TableName(upper, lower)[2] == ImageChar(upper)
    ensures upper != lower ==> TableName(upper, lower)[0] == ImageChar(upper) && TableName(upper, lower)[1] == ImageChar(lower)
  {
    NameCharRoundTrip(upper);
    NameCharRoundTrip(lower);
    match upper
    case Qian => NamesUnderQian(lower);
    case Dui => NamesUnderDui(lower);
    case Li => NamesUnderLi(lower);
    case Zhen => NamesUnderZhen(lower);
    case Xun => NamesUnderXun(lower);
    case Kan => NamesUnderKan(lower);
    case Gen => NamesUnderGen(lower);
    case Kun => NamesUnderKun(lower);
  }

  lemma NamesUnderQian(lower: Trigram)
    ensures |TableName(Qian, lower)| >= 3
    ensures Qian == lower ==> TableName(Qian, lower)[0] == NameChar(Qian) && TableName(Qian, lower)[1] == '為' && TableName(Qian, lower)[2] == ImageChar(Qian)
    ensures Qian != lower ==> TableName(Qian, lower)[0] == ImageChar(Qian) && TableName(Qian, lower)[1] == ImageChar(lower)
  {
    match lower
    case Qian =>
    case Dui =>
    case Li =>
    case Zhen =>
    case Xun =>
    case Kan =>
    case Gen =>
    case Kun =>
  }

  lemma NamesUnderDui(lower: Trigram)
    ensures |TableName(Dui, lower)| >= 3
    ensures Dui == lower ==> TableName(Dui, lower)[0] == NameChar(Dui) && TableName(Dui, lower)[1] == '為' && TableName(Dui, lower)[2] == ImageChar(Dui)
    ensures Dui != lower ==> TableName(Dui, lower)[0] == ImageChar(Dui) && TableName(Dui, lower)[1] == ImageChar(lower)
  {
    match lower
    case Qian =>
    case Dui =>
    case Li =>
    case Zhen =>
    case Xun =>
    case Kan =>
    case Gen =>
    case Kun =>
  }

  lemma NamesUnderLi(lower: Trigram)
    ensures |TableName(Li, lower)| >= 3
    ensures Li == lower ==> TableName(Li, lower)[0] == NameChar(Li) && TableName(Li, lower)[1] == '為' && TableName(Li, lower)[2] == ImageChar(Li)
    ensures Li != lower ==> TableName(Li, lower)[0] == ImageChar(Li) && TableName(Li, lower)[1] == ImageChar(lower)
  {
    match lower
    case Qian =>
    case Dui =>
    case Li =>
    case Zhen =>
    case Xun =>
    case Kan =>
    case Gen =>
    case Kun =>
  }

  lemma NamesUnderZhen(lower: Trigram)
    ensures |TableName(Zhen, lower)| >= 3
    ensures Zhen == lower ==> TableName(Zhen, lower)[0] == NameChar(Zhen) && TableName(Zhen, lower)[1] == '為' && TableName(Zhen, lower)[2] == ImageChar(Zhen)
    ensures Zhen != lower ==> TableName(Zhen, lower)[0] == ImageChar(Zhen) && TableName(Zhen, lower)[1] == ImageChar(lower)
  {
    match lower
    case Qian =>
    case Dui =>
    case Li =>
    case Zhen =>
    case Xun =>
    case Kan =>
    case Gen =>
    case Kun =>
  }

  lemma NamesUnderXun(lower: Trigram)
    ensures |TableName(Xun, lower)| >= 3
    ensures Xun == lower ==> TableName(Xun, lower)[0] == NameChar(Xun) && TableName(Xun, lower)[1] == '為' && TableName(Xun, lower)[2] == ImageChar(Xun)
    ensures Xun != lower ==> TableName(Xun, lower)[0] == ImageChar(Xun) && TableName(Xun, lower)[1] == ImageChar(lower)
  {
    match lower
    case Qian =>
    case Dui =>
    case Li =>
    case Zhen =>
    case Xun =>
    case Kan =>
    case Gen =>
    case Kun =>
  }

  lemma NamesUnderKan(lower: Trigram)
    ensures |TableName(Kan, lower)| >= 3
    ensures Kan == lower ==> TableName(Kan, lower)[0] == NameChar(Kan) && TableName(Kan, lower)[1] == '為' && TableName(Kan, lower)[2] == ImageChar(Kan)
    ensures Kan != lower ==> TableName(Kan, lower)[0] == ImageChar(Kan) && TableName(Kan, lower)[1] == ImageChar(lower)
  {
    match lower
    case Qian =>
    case Dui =>
    case Li =>
    case Zhen =>
    case Xun =>
    case Kan =>
    case Gen =>
    case Kun =>
  }

  lemma NamesUnderGen(lower: Trigram)
    ensures |TableName(Gen, lower)| >= 3
    ensures Gen == lower ==> TableName(Gen, lower)[0] == NameChar(Gen) && TableName(Gen, lower)[1] == '為' && TableName(Gen, lower)[2] == ImageChar(Gen)
    ensures Gen != lower ==> TableName(Gen, lower)[0] == ImageChar(Gen) && TableName(Gen, lower)[1] == ImageChar(lower)
  {
    match lower
    case Qian =>
    case Dui =>
    case Li =>
    case Zhen =>
    case Xun =>
    case Kan =>
    case Gen =>
    case Kun =>
  }

  lemma NamesUnderKun(lower: Trigram)
    ensures |TableName(Kun, lower)| >= 3
    ensures Kun == lower ==> TableName(Kun, lower)[0] == NameChar(Kun) && TableName(Kun, lower)[1] == '為' && TableName(Kun, lower)[2] == ImageChar(Kun)
    ensures Kun != lower ==> TableName(Kun, lower)[0] == ImageChar(Kun) && TableName(Kun, lower)[1] == ImageChar(lower)
  {
    match lower
    case Qian =>
    case Dui =>
    case Li =>
    case Zhen =>
    case Xun =>
    case Kan =>
    case Gen =>
    case Kun =>
  }

  /** Different hexagrams get different names. */
  lemma NamesDistinct(u1: Trigram, l1: Trigram, u2: Trigram, l2: Trigram)
    requires GetGua64Name(u1, l1) == GetGua64Name(u2, l2)
    ensures u1 == u2 && l1 == l2
  {
    var name := GetGua64Name(u1, l1);
    NameCharRoundTrip(u1);
    NameCharRoundTrip(u2);
    assert u1 == l1 <==> name[1] == '為';
    assert u2 == l2 <==> name[1] == '為';
  }

  /**
   * `BAGUA_BINARY`: a trigram as three booleans (true for a yang line), written as
   * the digits 乾 111, 兌 011, 離 101, 震 001, 巽 110, 坎 010, 艮 100, 坤 000, that
   * is with the TOP line first.
   */
  function BaguaBinary(t: Trigram): (bits: seq<bool>)
    ensures |bits| == 3
  {
    match t
    case Qian => [true, true, true]
    case Dui => [false, true, true]
    case Li => [true, false, true]
    case Zhen => [false, false, true]
    case Xun => [true, true, false]
    case Kan => [false, true, false]
    case Gen => [true, false, false]
    case Kun => [false, false, false]
  }

  /**
   * `binaryToBaGua`: the trigram whose table entry spells the given bits. The lookup
   * map has all eight three-digit keys, so it always answers, and it inverts the table.
   */
  function BinaryToBaGua(bits: seq<bool>): (t: Trigram)
    requires |bits| == 3
    ensures BaguaBinary(t) == bits
  {
    assert bits == [bits[0], bits[1], bits[2]];
    if bits[0] then
      if bits[1] then (if bits[2] then Qian else Xun)
      else (if bits[2] then Li else Gen)
    else
      if bits[1] then (if bits[2] then Dui else Kan)
      else (if bits[2] then Zhen else Kun)
  }

  /** Reading a trigram's bits back gives the trigram, so the eight triples are distinct. */
  lemma BinaryRoundTrip(t: Trigram, u: Trigram)
    ensures BinaryToBaGua(BaguaBinary(t)) == t
    ensures BaguaBinary(t) == BaguaBinary(u) ==> t == u
  {
    match t
    case Qian =>
    case Dui =>
    case Li =>
    case Zhen =>
    case Xun =>
    case Kan =>
    case Gen =>
    case Kun =>
  }

  /**
   * The lines of a trigram from the bottom up: the table's triple read backwards.
   * These are the lines the Liu Yao engine gives the same trigram.
   */
  function Lines(t: Trigram): (lines: seq<bool>)
    ensures lines == Guagong.TrigramLines(t)
  {
    var bits := BaguaBinary(t);
    [bits[2], bits[1], bits[0]]
  }

  /** The trigram drawn by three lines given from the bottom up. */
  function TrigramOfLines(lines: seq<bool>): (t: Trigram)
    requires |lines| == 3
    ensures Lines(t) == lines
  {
    BinaryToBaGua([lines[2], lines[1], lines[0]])
  }

  /** Different trigrams have different lines. */
  lemma LinesInjective(t: Trigram, u: Trigram)
    requires Lines(t) == Lines(u)
    ensures t == u
  {
    Guagong.LinesRoundTrip(t, u);
  }

  /** The `{ upper, lower }` pair of trigram names the calculators return. */
  datatype Hexagram = Hexagram(upper: Trigram, lower: Trigram)

  /** The six lines of a hexagram from the bottom up: the lower trigram's, then the upper's. */
  function SixLines(h: Hexagram): (six: seq<bool>)
    ensures |six| == 6
    ensures six == Guagong.HexLines(h.upper, h.lower)
  {
    Lines(h.lower) + Lines(h.upper)
  }

  /** The hexagram drawn by six lines given from the bottom up. */
  function HexagramOfLines(six: seq<bool>): (h: Hexagram)
    requires |six| == 6
    ensures SixLines(h) == six
  {
    Hexagram(TrigramOfLines(six[3..6]), TrigramOfLines(six[0..3]))
  }

  /** A hexagram is determined by its six lines. */
  lemma SixLinesInjective(h1: Hexagram, h2: Hexagram)
    requires SixLines(h1) == SixLines(h2)
    ensures h1 == h2
  {
    assert Lines(h1.lower) == SixLines(h1)[..3] == SixLines(h2)[..3] == Lines(h2.lower);
    assert Lines(h1.upper) == SixLines(h1)[3..] == SixLines(h2)[3..] == Lines(h2.upper);
    LinesInjective(h1.lower, h2.lower);
    LinesInjective(h1.upper, h2.upper);
  }
}
