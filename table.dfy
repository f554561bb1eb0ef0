/** The one register program of the driver: 1920x1080 at 30 frames per
    second over MIPI (gc2607_1080p_30fps_regs). */
module Table {
  import opened Registers
  import opened Hardware
  import opened Program

  /* The table's 121 register writes, in the table's order, written as
     eleven blocks of eleven entries so that facts about the table can be
     checked one block at a time. */
  const Block0: seq<RegVal> := [
    RegVal(0x03fe, 0xf0), RegVal(0x03fe, 0xf0), RegVal(0x03fe, 0x00), RegVal(0x03fe, 0x00),
    RegVal(0x03fe, 0x00), RegVal(0x03fe, 0x00), RegVal(0x0d06, 0x01), RegVal(0x0315, 0xd4),
    RegVal(0x0d82, 0x14), RegVal(0x0a70, 0x80), RegVal(0x0134, 0x5b)
  ]
  const Block1: seq<RegVal> := [
    RegVal(0x0110, 0x01), RegVal(0x0dd1, 0x56), RegVal(0x0137, 0x03), RegVal(0x0135, 0x01),
    RegVal(0x0136, 0x2a), RegVal(0x0130, 0x08), RegVal(0x0132, 0x01), RegVal(0x031c, 0x93),
    RegVal(0x0218, 0x00), RegVal(0x0340, 0x0a), RegVal(0x0341, 0x6e)
  ]
  const Block2: seq<RegVal> := [
    RegVal(0x0342, 0x08), RegVal(0x0343, 0x00), RegVal(0x0220, 0x05), RegVal(0x0221, 0x37),
    RegVal(0x0af4, 0x2b), RegVal(0x0002, 0x30), RegVal(0x00c3, 0x3c), RegVal(0x0101, 0x00),
    RegVal(0x0d05, 0xcc), RegVal(0x0218, 0x00), RegVal(0x005e, 0x84)
  ]
  const Block3: seq<RegVal> := [
    RegVal(0x0007, 0x15), RegVal(0x0350, 0x01), RegVal(0x00c0, 0x07), RegVal(0x00c1, 0x90),
    RegVal(0x0346, 0x00), RegVal(0x0347, 0x02), RegVal(0x034a, 0x04), RegVal(0x034b, 0x40),
    RegVal(0x021f, 0x12), RegVal(0x034c, 0x07), RegVal(0x034d, 0x80)
  ]
  const Block4: seq<RegVal> := [
    RegVal(0x0353, 0x00), RegVal(0x0354, 0x04), RegVal(0x0d11, 0x10), RegVal(0x0d22, 0x00),
    RegVal(0x03f6, 0x4d), RegVal(0x03f5, 0x3c), RegVal(0x03f3, 0x54), RegVal(0x0d07, 0xdd),
    RegVal(0x0e71, 0x00), RegVal(0x0e72, 0x10), RegVal(0x0e17, 0x26)
  ]
  const Block5: seq<RegVal> := [
    RegVal(0x0e22, 0x0d), RegVal(0x0e23, 0x20), RegVal(0x0e1b, 0x30), RegVal(0x0e3a, 0x15),
    RegVal(0x0e0a, 0x00), RegVal(0x0e0b, 0x00), RegVal(0x0e0e, 0x00), RegVal(0x0e2a, 0x08),
    RegVal(0x0e2b, 0x08), RegVal(0x0d02, 0x73), RegVal(0x0d22, 0x38)
  ]
  const Block6: seq<RegVal> := [
    RegVal(0x0d25, 0x00), RegVal(0x0e6a, 0x39), RegVal(0x0050, 0x05), RegVal(0x0089, 0x03),
    RegVal(0x0070, 0x40), RegVal(0x0071, 0x40), RegVal(0x0072, 0x40), RegVal(0x0073, 0x40),
    RegVal(0x0040, 0x82), RegVal(0x0030, 0x80), RegVal(0x0031, 0x80)
  ]
  const Block7: seq<RegVal> := [
    RegVal(0x0032, 0x80), RegVal(0x0033, 0x80), RegVal(0x0202, 0x04), RegVal(0x0203, 0x38),
    RegVal(0x02b3, 0x00), RegVal(0x02b3, 0x00), RegVal(0x02b4, 0x00), RegVal(0x0208, 0x04),
    RegVal(0x0209, 0x00), RegVal(0x009e, 0x01), RegVal(0x009f, 0xa0)
  ]
  const Block8: seq<RegVal> := [
    RegVal(0x0db8, 0x08), RegVal(0x0db6, 0x02), RegVal(0x0db4, 0x05), RegVal(0x0db5, 0x16),
    RegVal(0x0db9, 0x09), RegVal(0x0d93, 0x05), RegVal(0x0d94, 0x06), RegVal(0x0d95, 0x0b),
    RegVal(0x0d99, 0x10), RegVal(0x0082, 0x03), RegVal(0x0107, 0x05)
  ]
  const Block9: seq<RegVal> := [
    RegVal(0x0117, 0x01), RegVal(0x0d80, 0x07), RegVal(0x0d81, 0x02), RegVal(0x0d84, 0x09),
    RegVal(0x0d85, 0x60), RegVal(0x0d86, 0x04), RegVal(0x0d87, 0xb1), RegVal(0x0222, 0x00),
    RegVal(0x0223, 0x01), RegVal(0x0117, 0x91), RegVal(0x03f4, 0x38)
  ]
  const Block10: seq<RegVal> := [
    RegVal(0x0e69, 0x00), RegVal(0x00d6, 0x00), RegVal(0x00d0, 0x0d), RegVal(0x00e0, 0x18),
    RegVal(0x00e1, 0x18), RegVal(0x00e2, 0x18), RegVal(0x00e3, 0x18), RegVal(0x00e4, 0x18),
    RegVal(0x00e5, 0x18), RegVal(0x00e6, 0x18), RegVal(0x00e7, 0x18)
  ]

  /** The number of register writes in the 1080p table. */
  const WRITES_1080P: nat := 121

  /** The table's register writes, in order. */
  const Writes1080p: seq<RegVal> :=
    Block0 + Block1 + Block2 + Block3 + Block4 + Block5 + Block6 + Block7 + Block8 + Block9 + Block10

  /** The 1080p table: its writes, then the end marker. */
  const Regs1080p: seq<RegVal> := Writes1080p + [RegVal(REG_END, 0x00)]

  /** Every entry of `s` is a register write: neither a delay nor the end. */
  predicate AllWrites(s: seq<RegVal>)
  {
    forall j :: 0 <= j < |s| ==> s[j].addr != REG_END && s[j].addr != REG_DELAY
  }

  lemma WritesConcat(a: seq<RegVal>, b: seq<RegVal>)
    requires AllWrites(a) && AllWrites(b)
    ensures AllWrites(a + b)
  {
  }

  /** The first six blocks hold only register writes. */
  lemma FirstRunsAreWrites()
    ensures AllWrites(Block0 + Block1 + Block2 + Block3 + Block4 + Block5)
  {
    assert AllWrites(Block0);
    assert AllWrites(Block1);
    assert AllWrites(Block2);
    assert AllWrites(Block3);
    assert AllWrites(Block4);
    assert AllWrites(Block5);
    WritesConcat(Block0, Block1);
    WritesConcat(Block0 + Block1, Block2);
    WritesConcat(Block0 + Block1 + Block2, Block3);
    WritesConcat(Block0 + Block1 + Block2 + Block3, Block4);
    WritesConcat(Block0 + Block1 + Block2 + Block3 + Block4, Block5);
  }

  /** The last five blocks hold only register writes. */
  lemma LastRunsAreWrites()
    ensures AllWrites(Block6 + Block7 + Block8 + Block9 + Block10)
  {
    assert AllWrites(Block6);
    assert AllWrites(Block7);
    assert AllWrites(Block8);
    assert AllWrites(Block9);
    assert AllWrites(Block10);
    WritesConcat(Block6, Block7);
    WritesConcat(Block6 + Block7, Block8);
    WritesConcat(Block6 + Block7 + Block8, Block9);
    WritesConcat(Block6 + Block7 + Block8 + Block9, Block10);
  }

  /** The 1080p table is terminated by its last entry, and every entry before
      it is a register write: the table holds no delay entry. */
  lemma Regs1080pShape()
    ensures |Regs1080p| == WRITES_1080P + 1
    ensures AllWrites(Regs1080p[..WRITES_1080P])
    ensures Terminated(Regs1080p) && FirstEnd(Regs1080p) == WRITES_1080P
  {
    FirstRunsAreWrites();
    LastRunsAreWrites();
    var first, last := Block0 + Block1 + Block2 + Block3 + Block4 + Block5, Block6 + Block7 + Block8 + Block9 + Block10;
    WritesConcat(first, last);
    assert Writes1080p == first + last;
    assert |Writes1080p| == WRITES_1080P;
    assert Regs1080p[..WRITES_1080P] == Writes1080p;
    assert Regs1080p[WRITES_1080P].addr == REG_END;
  }

  /** The walk over the 1080p table whose first event lands at `base`. */
  function Program1080p(base: nat, status: nat -> int): Run
  {
    Walk(Regs1080p, 0, base, status)
  }

  /** The outcome of the walk over any table of `n` writes and an end
      marker, stated over the trace positions of the writes. */
  lemma WritesOutcome(regs: seq<RegVal>, n: nat, base: nat, status: nat -> int)
    requires Terminated(regs) && FirstEnd(regs) == n && AllWrites(regs[..n])
    ensures var w := Walk(regs, 0, base, status);
      (w.ret == 0 <==> forall t :: base <= t < base + n ==> status(t) >= 0) &&
      (w.ret == 0 ==> w.events == Events(regs[..n])) &&
      (w.ret != 0 ==> exists t :: base <= t < base + n && status(t) < 0 &&
                        (forall m :: base <= m < t ==> status(m) >= 0) &&
                        w == Run(Events(regs[..t - base + 1]), status(t)))
  {
    WalkOutcome(regs, base, status);
    forall j | 0 <= j < n
      ensures WriteFails(regs, j, base, status) <==> status(base + j) < 0
    {
      assert regs[j] == regs[..n][j];
    }
    var w := Walk(regs, 0, base, status);
    if w.ret != 0 {
      var k :| 0 <= k < n && WriteFails(regs, k, base, status) &&
               (forall j :: 0 <= j < k ==> !WriteFails(regs, j, base, status)) &&
               w == Run(Events(regs[..k + 1]), status(base + k));
      assert base + k - base + 1 == k + 1;
      forall m | base <= m < base + k
        ensures status(m) >= 0
      {
        assert !WriteFails(regs, m - base, base, status);
      }
    } else {
      forall t | base <= t < base + n
        ensures status(t) >= 0
      {
        assert !WriteFails(regs, t - base, base, status);
      }
    }
  }

  /** The 1080p program returns 0 exactly when none of its 121 writes fails,
      and then it has written the whole table in order; otherwise it stops
      right after the first failing write, whose error it returns. The
      write of entry `j` is the call at trace position `base + j`. */
  lemma Program1080pOutcome(base: nat, status: nat -> int)
    ensures var p := Program1080p(base, status);
      (p.ret == 0 <==> forall n :: base <= n < base + WRITES_1080P ==> status(n) >= 0) &&
      (p.ret == 0 ==> p.events == Events(Regs1080p[..WRITES_1080P])) &&
      (p.ret != 0 ==> exists n :: base <= n < base + WRITES_1080P && status(n) < 0 &&
                        (forall m :: base <= m < n ==> status(m) >= 0) &&
                        p == Run(Events(Regs1080p[..n - base + 1]), status(n)))
  {
    Regs1080pShape();
    WritesOutcome(Regs1080p, WRITES_1080P, base, status);
  }
}
