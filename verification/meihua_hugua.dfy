/**
 * The nuclear hexagram (互卦) of the Meihua engine: its lower trigram is lines
 * 2, 3, 4 and its upper trigram lines 3, 4, 5 of the original, counted from the
 * bottom.
 */
module MeihuaHugua {
  import opened Symbols
  import opened MeihuaBagua

  /** The 互卦 as the calculator documents it, from the six lines bottom up. */
  function Calculate(h: Hexagram): (hu: Hexagram)
    ensures Lines(hu.lower) == SixLines(h)[1..4]
    ensures Lines(hu.upper) == SixLines(h)[2..5]
  {
    var six := SixLines(h);
    Hexagram(TrigramOfLines(six[2..5]), TrigramOfLines(six[1..4]))
  }

  /**
   * The two nuclear trigrams overlap in two lines, and the bottom and top lines of
   * the original play no part: hexagrams that agree on lines 2 to 5 share their 互卦.
   */
  lemma InnerLinesOnly(h1: Hexagram, h2: Hexagram)
    ensures Lines(Calculate(h1).upper)[..2] == Lines(Calculate(h1).lower)[1..]
    ensures SixLines(h1)[1..5] == SixLines(h2)[1..5] ==> Calculate(h1) == Calculate(h2)
  {
    var s1, s2 := SixLines(h1), SixLines(h2);
    if s1[1..5] == s2[1..5] {
      assert s1[1..4] == s1[1..5][..3] == s2[1..5][..3] == s2[1..4];
      assert s1[2..5] == s1[1..5][1..] == s2[1..5][1..] == s2[2..5];
      LinesInjective(Calculate(h1).lower, Calculate(h2).lower);
      LinesInjective(Calculate(h1).upper, Calculate(h2).upper);
    }
  }

  /** 乾為天 and 坤為地 are their own 互卦. */
  lemma PureFixedPoints()
    ensures Calculate(Hexagram(Qian, Qian)) == Hexagram(Qian, Qian)
    ensures Calculate(Hexagram(Kun, Kun)) == Hexagram(Kun, Kun)
  {
    var q, k := Hexagram(Qian, Qian), Hexagram(Kun, Kun);
    assert SixLines(q)[1..4] == Lines(Qian) && SixLines(q)[2..5] == Lines(Qian);
    assert SixLines(k)[1..4] == Lines(Kun) && SixLines(k)[2..5] == Lines(Kun);
    LinesInjective(Calculate(q).lower, Qian);
    LinesInjective(Calculate(q).upper, Qian);
    LinesInjective(Calculate(k).lower, Kun);
    LinesInjective(Calculate(k).upper, Kun);
  }

  /**
   * `HuguaCalculator.calculate` as written: it lays out the lower then the upper
   * `BAGUA_BINARY` triple and reads entries 1..3 and 2..4 back through
   * `binaryToBaGua`. The triples are stored top line first, so this is not the
   * bottom-up line order the calculator's comments describe.
   */
  function CalculateAsWritten(h: Hexagram): (hu: Hexagram)
    ensures BaguaBinary(hu.lower) == (BaguaBinary(h.lower) + BaguaBinary(h.upper))[1..4]
    ensures BaguaBinary(hu.upper) == (BaguaBinary(h.lower) + BaguaBinary(h.upper))[2..5]
  {
    var six := BaguaBinary(h.lower) + BaguaBinary(h.upper);
    Hexagram(BinaryToBaGua(six[2..5]), BinaryToBaGua(six[1..4]))
  }

  /**
   * 地雷復 (坤 over 震) has only its bottom line yang, so lines 2 to 5 are all yin
   * and its 互卦 is 坤為地; the code as written answers 山水蒙 (艮 over 坎).
   */
  lemma AsWrittenMisreadsLines()
    ensures CalculateAsWritten(Hexagram(Kun, Zhen)) == Hexagram(Gen, Kan)
    ensures Calculate(Hexagram(Kun, Zhen)) == Hexagram(Kun, Kun)
  {
    var h := Hexagram(Kun, Zhen);
    var six := BaguaBinary(Zhen) + BaguaBinary(Kun);
    assert six[2..5] == BaguaBinary(Gen) && six[1..4] == BaguaBinary(Kan);
    BinaryRoundTrip(Gen, Gen);
    BinaryRoundTrip(Kan, Kan);
    assert SixLines(h)[1..4] == Lines(Kun) && SixLines(h)[2..5] == Lines(Kun);
    LinesInjective(Calculate(h).lower, Kun);
    LinesInjective(Calculate(h).upper, Kun);
  }
}
