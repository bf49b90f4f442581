/**
 * The changed hexagram (變卦) of the Meihua engine: the moving line, counted 1..6
 * from the bottom, turns from yin to yang or from yang to yin.
 */
module MeihuaBiangua {
  import opened Symbols
  import opened MeihuaBagua

  /**
   * Six lines with the one at `yaoIndex` (0-based) reversed. An index outside 0..5
   * reverses none of them: in JavaScript that write lands on an array slot or
   * property beyond the six lines that are read back.
   */
  function Flip(six: seq<bool>, yaoIndex: int): (r: seq<bool>)
    requires |six| == 6
    ensures |r| == 6
    ensures forall i :: 0 <= i < 6 ==> r[i] == (if i == yaoIndex then !six[i] else six[i])
  {
    if 0 <= yaoIndex < 6 then six[yaoIndex := !six[yaoIndex]] else six
  }

  /** The 變卦 of `h` for a moving line 1..6: its lines with that one reversed. */
  function Bian(h: Hexagram, movingYao: int): (bian: Hexagram)
    ensures SixLines(bian) == Flip(SixLines(h), movingYao - 1)
  {
    HexagramOfLines(Flip(SixLines(h), movingYao - 1))
  }

  /**
   * The corrected `BianguaCalculator.calculate`: copies the six lines, bottom line first,
   * into an array, reverses the moving one in place and reads the two trigrams back.
   * The code as written copies the top-first triples instead; see `BianAsWritten`.
   */
  method Calculate(h: Hexagram, movingYao: int) returns (bian: Hexagram)
    ensures bian == Bian(h, movingYao)
  {
    var lowerBits := Lines(h.lower);
    var upperBits := Lines(h.upper);
    var six := lowerBits + upperBits;
    var sixYao := new bool[6](i requires 0 <= i < 6 => six[i]);
    var yaoIndex := movingYao - 1;
    if 0 <= yaoIndex < 6 {
      sixYao[yaoIndex] := !sixYao[yaoIndex];
    }
    assert sixYao[..] == Flip(six, yaoIndex);
    bian := Hexagram(TrigramOfLines(sixYao[3..6]), TrigramOfLines(sixYao[0..3]));
    SixLinesInjective(bian, Bian(h, movingYao));
  }

  /**
   * A moving line 1..3 keeps the upper trigram and 4..6 keeps the lower one; a
   * moving line outside 1..6 changes nothing.
   */
  lemma OtherTrigramKept(h: Hexagram, movingYao: int)
    ensures 1 <= movingYao <= 3 ==> Bian(h, movingYao).upper == h.upper && Bian(h, movingYao).lower != h.lower
    ensures 4 <= movingYao <= 6 ==> Bian(h, movingYao).lower == h.lower && Bian(h, movingYao).upper != h.upper
    ensures !(1 <= movingYao <= 6) ==> Bian(h, movingYao) == h
  {
    var b := Bian(h, movingYao);
    var six, six' := SixLines(h), SixLines(b);
    if 1 <= movingYao <= 3 {
      assert Lines(b.upper) == six'[3..] == six[3..] == Lines(h.upper);
      LinesInjective(b.upper, h.upper);
      assert Lines(b.lower)[movingYao - 1] != Lines(h.lower)[movingYao - 1];
    } else if 4 <= movingYao <= 6 {
      assert Lines(b.lower) == six'[..3] == six[..3] == Lines(h.lower);
      LinesInjective(b.lower, h.lower);
      assert Lines(b.upper)[movingYao - 4] != Lines(h.upper)[movingYao - 4];
    } else {
      assert six' == six;
      SixLinesInjective(b, h);
    }
  }

  /** The 變卦 of the 變卦 on the same line is the original hexagram. */
  lemma BianInvolution(h: Hexagram, movingYao: int)
    ensures Bian(Bian(h, movingYao), movingYao) == h
  {
    var b := Bian(h, movingYao);
    assert SixLines(Bian(b, movingYao)) == SixLines(h);
    SixLinesInjective(Bian(b, movingYao), h);
  }

  /** The 變卦 differs from the original exactly when the moving line is one of 1..6. */
  lemma BianDiffers(h: Hexagram, movingYao: int)
    ensures Bian(h, movingYao) != h <==> 1 <= movingYao <= 6
  {
    if 1 <= movingYao <= 6 {
      assert SixLines(Bian(h, movingYao))[movingYao - 1] != SixLines(h)[movingYao - 1];
    } else {
      OtherTrigramKept(h, movingYao);
    }
  }

  /**
   * `BianguaCalculator.calculate` as written: it lays out the lower then the upper
   * `BAGUA_BINARY` triple, reverses entry `movingYao - 1` and reads the triples back
   * through `binaryToBaGua`. The triples are stored top line first, so within a
   * trigram the entry reversed is not the line counted from the bottom.
   */
  function BianAsWritten(h: Hexagram, movingYao: int): (bian: Hexagram)
    ensures BaguaBinary(bian.lower) + BaguaBinary(bian.upper)
      == Flip(BaguaBinary(h.lower) + BaguaBinary(h.upper), movingYao - 1)
  {
    var six := Flip(BaguaBinary(h.lower) + BaguaBinary(h.upper), movingYao - 1);
    Hexagram(BinaryToBaGua(six[3..6]), BinaryToBaGua(six[0..3]))
  }

  /** The line the code as written actually moves: 1 and 3 swap, 4 and 6 swap. */
  function MirroredLine(movingYao: int): (m: int)
    ensures 1 <= movingYao <= 6 <==> 1 <= m <= 6
    ensures 1 <= movingYao <= 3 <==> 1 <= m <= 3
  {
    if 1 <= movingYao <= 3 then 4 - movingYao
    else if 4 <= movingYao <= 6 then 10 - movingYao
    else movingYao
  }

  /**
   * The code as written moves line `MirroredLine(movingYao)` instead of `movingYao`:
   * right for lines 2 and 5 and for the no-op, wrong for 1, 3, 4 and 6.
   */
  lemma AsWrittenMovesMirroredLine(h: Hexagram, movingYao: int)
    ensures BianAsWritten(h, movingYao) == Bian(h, MirroredLine(movingYao))
  {
    var w, b := BianAsWritten(h, movingYao), Bian(h, MirroredLine(movingYao));
    var orig := BaguaBinary(h.lower) + BaguaBinary(h.upper);
    SixLinesMirrorTable(w);
    SixLinesMirrorTable(h);
    MirrorFlip(orig, movingYao);
    assert SixLines(w) == SixLines(b);
    SixLinesInjective(w, b);
  }

  /** Each trigram's triple reversed in place: the table layout turned into lines, and back. */
  function MirrorHalves(s: seq<bool>): (r: seq<bool>)
    requires |s| == 6
    ensures |r| == 6
  {
    [s[2], s[1], s[0], s[5], s[4], s[3]]
  }

  /** The six lines of a hexagram are its table layout with each half reversed. */
  lemma SixLinesMirrorTable(h: Hexagram)
    ensures SixLines(h) == MirrorHalves(BaguaBinary(h.lower) + BaguaBinary(h.upper))
  {
    var lo, up := BaguaBinary(h.lower), BaguaBinary(h.upper);
    assert Lines(h.lower) == [lo[2], lo[1], lo[0]];
    assert Lines(h.upper) == [up[2], up[1], up[0]];
  }

  /** Reversing entry `m - 1` of the layout reverses line `MirroredLine(m)` of the lines. */
  lemma MirrorFlip(s: seq<bool>, m: int)
    requires |s| == 6
    ensures MirrorHalves(Flip(s, m - 1)) == Flip(MirrorHalves(s), MirroredLine(m) - 1)
  {
    var l, r := MirrorHalves(Flip(s, m - 1)), Flip(MirrorHalves(s), MirroredLine(m) - 1);
    assert l[0] == r[0] && l[1] == r[1] && l[2] == r[2] && l[3] == r[3] && l[4] == r[4] && l[5] == r[5];
  }

  /**
   * 天雷無妄 (乾 over 震) moving its bottom line becomes 天地否 (乾 over 坤); the code
   * as written answers 天火同人 (乾 over 離).
   */
  lemma AsWrittenMovesWrongLine()
    ensures BianAsWritten(Hexagram(Qian, Zhen), 1) == Hexagram(Qian, Li)
    ensures Bian(Hexagram(Qian, Zhen), 1) == Hexagram(Qian, Kun)
  {
    var h := Hexagram(Qian, Zhen);
    assert SixLines(Bian(h, 1)) == SixLines(Hexagram(Qian, Kun));
    SixLinesInjective(Bian(h, 1), Hexagram(Qian, Kun));
    var six := Flip(BaguaBinary(Zhen) + BaguaBinary(Qian), 0);
    assert six[0..3] == BaguaBinary(Li) && six[3..6] == BaguaBinary(Qian);
    BinaryRoundTrip(Li, Li);
    BinaryRoundTrip(Qian, Qian);
  }
}
