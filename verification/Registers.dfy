/** The barrier registers as 64-bit words: the accessors that build and take apart the
    register values, and the agreement of the words with the abstract registers. */
module Registers {
  import opened Topology
  import opened DriverState

  const BST_MASK: bv64 := 0x1FFF
  const MAX_PE := 13
  const MAX_BB := 6
  const MAX_BW := 4
  const BB_MASK: bv64 := 0x7
  const LBSY_BIT: bv64 := 0x10_0000
  const VALID_BIT: bv64 := 0x8000_0000_0000_0000
  const EL0AE_BIT: bv64 := 0x4000_0000_0000_0000
  const EL1AE_BIT: bv64 := 0x8000_0000_0000_0000
  const INVAL := -22

  // ---------- single bits ----------

  function Up32(x: bv64): bv64 { x << 32 }

  /** The word with bit `p` set. */
  function One(p: nat): bv64 {
    if p == 0 then 1 else One(p - 1) << 1
  }

  /** The word has no bit outside the 13-bit field. */
  predicate InField(x: bv64) { x & BST_MASK == x }

  function And(v: bv64, x: bv64): bv64 { v & x }

  predicate Meets(v: bv64, x: bv64) { And(v, x) != 0 }

  function With(v: bv64, x: bv64): bv64 { v | x }

  function Without(v: bv64, x: bv64): bv64 { v & !x }

  lemma OneValues()
    ensures One(0) == 0x1 && One(1) == 0x2 && One(2) == 0x4 && One(3) == 0x8
    ensures One(4) == 0x10 && One(5) == 0x20 && One(6) == 0x40 && One(7) == 0x80
    ensures One(8) == 0x100 && One(9) == 0x200 && One(10) == 0x400 && One(11) == 0x800 && One(12) == 0x1000
  {
    assert One(4) == 0x10 && One(8) == 0x100;
  }

  lemma OneInField(p: nat)
    requires p < MAX_PE
    ensures InField(One(p)) && Meets(One(p), One(p))
  {
    OneValues();
  }

  /** The bits above bit `p` are outside the word with bits 0 to `p` set. */
  lemma {:induction false} OneAbove(p: nat, q: nat)
    requires p < q
    ensures One(q) & (One(p) | (One(p) - 1)) == 0 && One(p) & (One(p) - 1) == 0
    decreases q
  {
    if p > 0 && q == p + 1 { OneAbove(p - 1, p); ShiftPower(One(p - 1)); }
    if q > p + 1 { OneAbove(p, q - 1); ShiftAbove(One(q - 1), One(p)); }
  }

  lemma ShiftAbove(x: bv64, m: bv64)
    requires x & (m | (m - 1)) == 0 && m & (m - 1) == 0
    ensures (x << 1) & (m | (m - 1)) == 0
  {
  }

  lemma ShiftPower(m: bv64)
    requires m & (m - 1) == 0
    ensures (m << 1) & ((m << 1) - 1) == 0
  {
  }

  lemma OneDisjoint(p: nat, q: nat)
    requires p < MAX_PE && q < MAX_PE && p != q
    ensures !Meets(One(p), One(q))
  {
    hide One;
    if p < q { OneAbove(p, q); } else { OneAbove(q, p); }
  }

  lemma OrApart(v: bv64, x: bv64, y: bv64)
    requires And(x, y) == 0
    ensures And(With(v, x), y) == And(v, y)
  {
  }

  lemma NotApart(v: bv64, x: bv64, y: bv64)
    requires And(x, y) == 0
    ensures And(Without(v, x), y) == And(v, y)
  {
  }

  lemma WithApart(v: bv64, x: bv64, y: bv64)
    requires !Meets(x, y)
    ensures Meets(With(v, x), y) <==> Meets(v, y)
    ensures Meets(Without(v, x), y) <==> Meets(v, y)
  {
    hide And, With, Without;
    OrApart(v, x, y);
    NotApart(v, x, y);
  }

  lemma BitSame(v: bv64, x: bv64)
    ensures Meets(x, x) ==> Meets(With(v, x), x)
    ensures !Meets(Without(v, x), x)
  {
  }

  /** The PE offsets whose bits are set in the 13-bit field at the bottom of `v`. */
  function Bits(v: bv64): set<int> {
    set p | 0 <= p < MAX_PE && Meets(v, One(p))
  }

  /** Setting one bit adds one PE offset, clearing it removes the offset. */
  lemma BitsUpdate(v: bv64, p: nat)
    requires p < MAX_PE
    ensures Bits(With(v, One(p))) == Bits(v) + {p}
    ensures Bits(Without(v, One(p))) == Bits(v) - {p}
  {
    hide Meets, With, Without, One;
    forall q: int | 0 <= q < MAX_PE
      ensures q in Bits(With(v, One(p))) <==> q in Bits(v) || q == p
      ensures q in Bits(Without(v, One(p))) <==> q in Bits(v) && q != p
    {
      OneInField(q);
      BitSame(v, One(p));
      if q != p {
        OneDisjoint(p, q);
        WithApart(v, One(p), One(q));
      }
    }
  }

  // ---------- mask words ----------

  /** The word that setting the bits of the PE offsets below `n` one by one gives. */
  function Pack(ppes: set<int>, n: nat): bv64 {
    if n == 0 then 0
    else if n - 1 in ppes then With(Pack(ppes, n - 1), One(n - 1)) else Pack(ppes, n - 1)
  }

  lemma ZeroMeets(x: bv64)
    ensures !Meets(0, x)
  {
  }

  lemma ZeroBits()
    ensures Bits(0) == {}
  {
    hide Meets;
    forall p: int | 0 <= p < MAX_PE ensures p !in Bits(0) { ZeroMeets(One(p)); }
  }

  /** The mask word of a set of PE offsets has exactly these bits. */
  lemma {:induction false} PackBits(ppes: set<int>, n: nat)
    requires n <= MAX_PE
    ensures Bits(Pack(ppes, n)) == set p | p in ppes && 0 <= p < n
  {
    hide Bits, With, One;
    if n == 0 {
      ZeroBits();
    } else {
      PackBits(ppes, n - 1);
      BitsUpdate(Pack(ppes, n - 1), n - 1);
    }
  }

  /** A CMG's participants are given to the hardware in full, and the word is never zero. */
  lemma PackMask(t: Topology, c: int, cpumask: set<int>)
    requires t.Valid() && t.maxPe <= MAX_PE
    ensures Bits(Pack(t.PpeMask(c, cpumask), MAX_PE)) == t.PpeMask(c, cpumask)
    ensures t.PpeMask(c, cpumask) != {} ==> Pack(t.PpeMask(c, cpumask), MAX_PE) != 0
  {
    hide Pack;
    PackBits(t.PpeMask(c, cpumask), MAX_PE);
    if Pack(t.PpeMask(c, cpumask), MAX_PE) == 0 { ZeroBits(); }
  }

  // ---------- register words ----------

  /** The blade register word: mask in bits 32 to 44, LBSY in bit 20, BST in bits 0 to 12. */
  function MaskField(v: bv64): bv64 { (v >> 32) & BST_MASK }

  function BstField(v: bv64): bv64 { v & BST_MASK }

  function DecodeBlade(v: bv64): BladeReg {
    BladeReg(Bits(MaskField(v)), Bits(BstField(v)), Meets(v, LBSY_BIT))
  }

  function InitWord(mask: bv64): bv64 { (mask & BST_MASK) << 32 }

  function BladeField(v: bv64): int { (v & BB_MASK) as int }

  function DecodeWindow(v: bv64): WinReg {
    WinReg(Meets(v, VALID_BIT), BladeField(v))
  }

  function AssignWord(valid: bool, blade: int): bv64
    requires 0 <= blade < MAX_BB
  {
    var word := (blade as bv8) as bv64;
    if valid then With(word, VALID_BIT) else Without(word, VALID_BIT)
  }

  lemma InitFields(mask: bv64)
    ensures MaskField(InitWord(mask)) == mask & BST_MASK && BstField(InitWord(mask)) == 0
    ensures !Meets(InitWord(mask), LBSY_BIT)
  {
  }

  lemma FieldBit(v: bv64, x: bv64)
    requires InField(x)
    ensures Meets(v & BST_MASK, x) <==> Meets(v, x)
  {
    assert (v & BST_MASK) & x == v & x;
  }

  lemma BitsOfField(v: bv64)
    ensures Bits(v & BST_MASK) == Bits(v)
  {
    hide Meets;
    forall p: int | 0 <= p < MAX_PE ensures p in Bits(v & BST_MASK) <==> p in Bits(v) {
      OneInField(p);
      FieldBit(v, One(p));
    }
  }

  lemma BstBits(v: bv64)
    ensures Bits(BstField(v)) == Bits(v)
  {
    BitsOfField(v);
  }

  /** A blade register reads back with the mask that was written, BST and LBSY clear. */
  lemma InitRoundTrip(mask: bv64)
    ensures DecodeBlade(InitWord(mask)) == BladeReg(Bits(mask), {}, false)
  {
    hide Bits, InitWord, Meets;
    InitFields(mask);
    BitsOfField(mask);
    ZeroBits();
  }

  /** A window register reads back with the valid bit and the blade that were written. */
  lemma AssignRoundTrip(valid: bool, blade: int)
    requires 0 <= blade < MAX_BB
    ensures DecodeWindow(AssignWord(valid, blade)) == WinReg(valid, blade)
  {
    if blade == 0 { assert AssignWord(valid, 0) & BB_MASK == 0; }
    else if blade == 1 { assert AssignWord(valid, 1) & BB_MASK == 1; }
    else if blade == 2 { assert AssignWord(valid, 2) & BB_MASK == 2; }
    else if blade == 3 { assert AssignWord(valid, 3) & BB_MASK == 3; }
    else if blade == 4 { assert AssignWord(valid, 4) & BB_MASK == 4; }
    else { assert AssignWord(valid, 5) & BB_MASK == 5; }
  }

  /** Changing one BST bit changes no other field of the blade register. */
  lemma SyncKeepsMask(v: bv64, x: bv64)
    requires InField(x)
    ensures MaskField(With(v, x)) == MaskField(v) && MaskField(Without(v, x)) == MaskField(v)
  {
  }

  lemma SyncKeepsLbsy(v: bv64, x: bv64)
    requires InField(x)
    ensures Meets(With(v, x), LBSY_BIT) <==> Meets(v, LBSY_BIT)
    ensures Meets(Without(v, x), LBSY_BIT) <==> Meets(v, LBSY_BIT)
  {
    hide Meets, With, Without;
    assert !Meets(x, LBSY_BIT) by { NotLbsy(x); }
    WithApart(v, x, LBSY_BIT);
  }

  lemma NotLbsy(x: bv64)
    requires InField(x)
    ensures !Meets(x, LBSY_BIT)
  {
    assert x & LBSY_BIT == x & (BST_MASK & LBSY_BIT);
  }

  function SyncWord(v: bv64, ppe: nat, on: bool): bv64 {
    if on then With(v, One(ppe)) else Without(v, One(ppe))
  }

  /** Writing PE `ppe`'s BST bit adds it to, or takes it from, the blade's BST set. */
  lemma SyncRoundTrip(v: bv64, ppe: nat, on: bool)
    requires ppe < MAX_PE
    ensures var reg := DecodeBlade(v);
            DecodeBlade(SyncWord(v, ppe, on)) == reg.(bst := if on then reg.bst + {ppe} else reg.bst - {ppe})
  {
    hide Bits, BstField, MaskField, InField, Meets, With, Without, One;
    OneInField(ppe);
    SyncKeepsMask(v, One(ppe));
    SyncKeepsLbsy(v, One(ppe));
    BstBits(v);
    BstBits(SyncWord(v, ppe, on));
    BitsUpdate(v, ppe);
  }

  /** The access control word: only the two enable bits change. */
  function CtrlWord(v: bv64, el0: bool, el1: bool): bv64 {
    var w := if el0 then With(v, EL0AE_BIT) else Without(v, EL0AE_BIT);
    if el1 then With(w, EL1AE_BIT) else Without(w, EL1AE_BIT)
  }

  lemma CtrlRoundTrip(v: bv64, el0: bool, el1: bool)
    ensures CtrlWord(v, el0, el1) & 0x4000_0000_0000_0000 != 0 <==> el0
    ensures CtrlWord(v, el0, el1) & 0x8000_0000_0000_0000 != 0 <==> el1
    ensures CtrlWord(v, el0, el1) & 0x3FFF_FFFF_FFFF_FFFF == v & 0x3FFF_FFFF_FFFF_FFFF
  {
  }

  // ---------- bit positions ----------

  /** The positions above the BST field that the accessors use, as literals. */
  lemma HighValues()
    ensures One(20) == 0x10_0000 && One(32) == 0x1_0000_0000 && One(33) == 0x2_0000_0000 && One(34) == 0x4_0000_0000
    ensures One(35) == 0x8_0000_0000 && One(36) == 0x10_0000_0000 && One(37) == 0x20_0000_0000
    ensures One(38) == 0x40_0000_0000 && One(39) == 0x80_0000_0000 && One(40) == 0x100_0000_0000
    ensures One(41) == 0x200_0000_0000 && One(42) == 0x400_0000_0000 && One(43) == 0x800_0000_0000
    ensures One(44) == 0x1000_0000_0000 && One(62) == 0x4000_0000_0000_0000 && One(63) == 0x8000_0000_0000_0000
  {
    assert One(4) == 0x10 && One(8) == 0x100 && One(12) == 0x1000 && One(16) == 0x1_0000;
    assert One(20) == 0x10_0000 && One(24) == 0x100_0000 && One(28) == 0x1000_0000 && One(32) == 0x1_0000_0000;
    assert One(36) == 0x10_0000_0000 && One(40) == 0x100_0000_0000 && One(44) == 0x1000_0000_0000;
    assert One(48) == 0x1_0000_0000_0000 && One(52) == 0x10_0000_0000_0000 && One(56) == 0x100_0000_0000_0000;
    assert One(60) == 0x1000_0000_0000_0000;
  }

  /** The bit of PE offset `p` in the mask field is bit `32 + p` of the word. */
  lemma OneHigh(p: nat)
    requires p < 13
    ensures One(32 + p) == Up32(One(p))
  {
    hide One;
    OneValues();
    HighValues();
  }

  lemma ShiftUpMeets(v: bv64, x: bv64)
    requires InField(x)
    ensures Meets(InitWord(v), Up32(x)) <==> Meets(v, x)
  {
  }

  lemma ShiftDownMeets(v: bv64, x: bv64)
    requires InField(x)
    ensures Meets(MaskField(v), x) <==> Meets(v, Up32(x))
  {
  }

  lemma InitRest(mask: bv64)
    ensures InitWord(mask) & 0xFFFF_E000_FFFF_FFFF == 0
  {
  }

  /** The word written to a blade register: the mask in bits 32 to 44, all else 0. */
  lemma InitWordBits(mask: bv64)
    ensures InitWord(mask) & 0xFFFF_E000_FFFF_FFFF == 0
    ensures forall p: nat | p < 13 :: Meets(InitWord(mask), One(32 + p)) <==> Meets(mask, One(p))
  {
    hide Meets, InitWord, InField, One, Up32;
    InitRest(mask);
    forall p: nat | p < 13 ensures Meets(InitWord(mask), One(32 + p)) <==> Meets(mask, One(p)) {
      OneHigh(p);
      OneInField(p);
      ShiftUpMeets(mask, One(p));
    }
  }

  /** What is read from a blade register: bits 32 to 44 and bits 0 to 12 of the word. */
  lemma FieldBits(v: bv64)
    ensures MaskField(v) & 0xFFFF_FFFF_FFFF_E000 == 0 && BstField(v) & 0xFFFF_FFFF_FFFF_E000 == 0
    ensures forall p: nat | p < 13 :: Meets(MaskField(v), One(p)) <==> Meets(v, One(32 + p))
    ensures forall p: nat | p < 13 :: Meets(BstField(v), One(p)) <==> Meets(v, One(p))
  {
    hide Meets, MaskField, BstField, InField, One, Up32;
    FieldRest(v);
    forall p: nat | p < 13
      ensures Meets(MaskField(v), One(p)) <==> Meets(v, One(32 + p))
      ensures Meets(BstField(v), One(p)) <==> Meets(v, One(p))
    {
      OneHigh(p);
      OneInField(p);
      ShiftDownMeets(v, One(p));
      BstMeets(v, One(p));
    }
  }

  lemma FieldRest(v: bv64)
    ensures MaskField(v) & 0xFFFF_FFFF_FFFF_E000 == 0 && BstField(v) & 0xFFFF_FFFF_FFFF_E000 == 0
  {
  }

  lemma BstMeets(v: bv64, x: bv64)
    requires InField(x)
    ensures Meets(BstField(v), x) <==> Meets(v, x)
  {
    FieldBit(v, x);
  }

  /** The word written to a window register: valid in bit 63, the blade in bits 0 to 2. */
  lemma AssignWordBits(valid: bool, blade: int)
    requires 0 <= blade < 6
    ensures var word := AssignWord(valid, blade);
            && (word & 0x8000_0000_0000_0000 != 0 <==> valid)
            && (word & 0x7) as int == blade && word & 0x7FFF_FFFF_FFFF_FFF8 == 0
  {
    AssignRoundTrip(valid, blade);
    AssignRest(valid, blade);
  }

  lemma AssignRest(valid: bool, blade: int)
    requires 0 <= blade < 6
    ensures AssignWord(valid, blade) & 0x7FFF_FFFF_FFFF_FFF8 == 0
  {
    if blade == 0 { assert AssignWord(valid, 0) & 0x7FFF_FFFF_FFFF_FFF8 == 0; }
    else if blade == 1 { assert AssignWord(valid, 1) & 0x7FFF_FFFF_FFFF_FFF8 == 0; }
    else if blade == 2 { assert AssignWord(valid, 2) & 0x7FFF_FFFF_FFFF_FFF8 == 0; }
    else if blade == 3 { assert AssignWord(valid, 3) & 0x7FFF_FFFF_FFFF_FFF8 == 0; }
    else if blade == 4 { assert AssignWord(valid, 4) & 0x7FFF_FFFF_FFFF_FFF8 == 0; }
    else { assert AssignWord(valid, 5) & 0x7FFF_FFFF_FFFF_FFF8 == 0; }
  }

  /** The BST write changes exactly the bit of the PE. */
  lemma SyncWordBits(v: bv64, ppe: nat, on: bool)
    requires ppe < 13
    ensures Meets(SyncWord(v, ppe, on), One(ppe)) <==> on
    ensures Without(SyncWord(v, ppe, on), One(ppe)) == Without(v, One(ppe))
  {
    hide One, Meets, With, Without;
    OneInField(ppe);
    BitSame(v, One(ppe));
    RestWith(v, One(ppe));
    RestWithout(v, One(ppe));
  }

  lemma RestWith(v: bv64, x: bv64)
    ensures Without(With(v, x), x) == Without(v, x)
  {
    assert (v | x) & !x == v & !x;
  }

  lemma RestWithout(v: bv64, x: bv64)
    ensures Without(Without(v, x), x) == Without(v, x)
  {
    assert (v & !x) & !x == v & !x;
  }

  // ---------- the accessors ----------

  /** What one PE sees: the blade registers of its CMG, its own window registers, and its
      access control register. */
  class Core {
    const ppe: nat
    var initSync: seq<bv64>
    var assignSync: seq<bv64>
    var ctrl: bv64

    predicate Valid()
      reads this
    {
      ppe < 13 && |initSync| == 6 && |assignSync| == 4
    }

    function Blades(): seq<BladeReg>
      reads this
    {
      seq(|initSync|, b requires 0 <= b < |initSync| reads this => DecodeBlade(initSync[b]))
    }

    function Windows(): seq<WinReg>
      reads this
    {
      seq(|assignSync|, w requires 0 <= w < |assignSync| reads this => DecodeWindow(assignSync[w]))
    }

    /** Program a blade: an empty mask or a blade that does not exist is rejected.  The word
        has the mask's low 13 bits in bits 32 to 44 and nothing else. */
    method WriteInitSyncBb(blade: int, mask: bv64) returns (err: int)
      requires Valid()
      modifies this`initSync
      ensures Valid() && err == if 0 <= blade < 6 && mask != 0 then 0 else -22
      ensures Blades() == if err == 0 then old(Blades())[blade := BladeReg(Bits(mask), {}, false)] else old(Blades())
      ensures initSync == if err == 0 then old(initSync)[blade := initSync[blade]] else old(initSync)
      ensures err == 0 ==> initSync[blade] & 0xFFFF_E000_FFFF_FFFF == 0
      ensures err == 0 ==> forall p: nat | p < 13 :: Meets(initSync[blade], One(32 + p)) <==> Meets(mask, One(p))
    {
      hide DecodeBlade, InitWord, Bits, Meets, One;
      if blade < 0 || blade >= MAX_BB || mask == 0 { return INVAL; }
      InitRoundTrip(mask);
      InitWordBits(mask);
      initSync := initSync[blade := InitWord(mask)];
      err := 0;
    }

    /** Read a blade's mask, from bits 32 to 44 of its word, and BST, from bits 0 to 12; a
        blade that does not exist reads as zero. */
    method ReadInitSyncBb(blade: int) returns (mask: bv64, bst: bv64)
      requires Valid()
      ensures 0 <= blade < 6 ==> Bits(mask) == Blades()[blade].mask && Bits(bst) == Blades()[blade].bst
      ensures 0 <= blade < 6 ==> forall p: nat | p < 13 :: Meets(mask, One(p)) <==> Meets(initSync[blade], One(32 + p))
      ensures 0 <= blade < 6 ==> forall p: nat | p < 13 :: Meets(bst, One(p)) <==> Meets(initSync[blade], One(p))
      ensures mask & 0xFFFF_FFFF_FFFF_E000 == 0 && bst & 0xFFFF_FFFF_FFFF_E000 == 0
      ensures !(0 <= blade < 6) ==> mask == 0 && bst == 0
    {
      hide Bits, MaskField, BstField, Meets, One;
      if 0 <= blade < MAX_BB {
        var val := initSync[blade];
        FieldBits(val);
        mask, bst := MaskField(val), BstField(val);
      } else {
        mask, bst := 0, 0;
      }
    }

    /** Program a window: valid in bit 63 of the word, the blade in bits 0 to 2. */
    method WriteAssignSyncWr(window: int, valid: bool, blade: int) returns (err: int)
      requires Valid()
      modifies this`assignSync
      ensures Valid() && err == if 0 <= window < 4 && 0 <= blade < 6 then 0 else -22
      ensures Windows() == if err == 0 then old(Windows())[window := WinReg(valid, blade)] else old(Windows())
      ensures assignSync == if err == 0 then old(assignSync)[window := assignSync[window]] else old(assignSync)
      ensures err == 0 ==> (assignSync[window] & 0x8000_0000_0000_0000 != 0 <==> valid)
      ensures err == 0 ==> (assignSync[window] & 0x7) as int == blade && assignSync[window] & 0x7FFF_FFFF_FFFF_FFF8 == 0
    {
      hide DecodeWindow, AssignWord;
      if window < 0 || window >= MAX_BW || blade < 0 || blade >= MAX_BB { return INVAL; }
      AssignRoundTrip(valid, blade);
      AssignWordBits(valid, blade);
      assignSync := assignSync[window := AssignWord(valid, blade)];
      err := 0;
    }

    method ReadAssignSyncWr(window: int) returns (err: int, valid: bool, blade: int)
      requires Valid()
      ensures err == if 0 <= window < 4 then 0 else -22
      ensures err == 0 ==> WinReg(valid, blade) == Windows()[window]
      ensures err == 0 ==> (valid <==> assignSync[window] & 0x8000_0000_0000_0000 != 0)
      ensures err == 0 ==> blade == (assignSync[window] & 0x7) as int
    {
      if window < 0 || window >= MAX_BW { return INVAL, false, 0; }
      var val := assignSync[window];
      err, valid, blade := 0, Meets(val, VALID_BIT), BladeField(val);
    }

    /** The blade that a window reaches, or -1. */
    function Reached(window: int): (b: int)
      requires Valid() && 0 <= window < 4
      reads this
      ensures b == if assignSync[window] & 0x8000_0000_0000_0000 != 0 && (assignSync[window] & 0x7) as int < 6
                   then (assignSync[window] & 0x7) as int else -1
    {
      var reg := Windows()[window];
      if reg.valid && 0 <= reg.blade < MAX_BB then reg.blade else -1
    }

    /** Write this PE's BST bit through a window: only the blade that the window reaches
        changes, and only at this PE's bit. */
    method WriteBstSyncWr(window: int, sync: bool) returns (err: int)
      requires Valid()
      modifies this`initSync
      ensures Valid() && err == if 0 <= window < 4 then 0 else -22
      ensures var was := old(Blades());
              Blades() == if err != 0 || Reached(window) < 0 then was
                          else var b := Reached(window);
                               was[b := was[b].(bst := if sync then was[b].bst + {ppe} else was[b].bst - {ppe})]
      ensures err != 0 || Reached(window) < 0 ==> initSync == old(initSync)
      ensures err == 0 && Reached(window) >= 0 ==>
                var b := Reached(window);
                && initSync == old(initSync)[b := initSync[b]]
                && (Meets(initSync[b], One(ppe)) <==> sync)
                && Without(initSync[b], One(ppe)) == Without(old(initSync)[b], One(ppe))
    {
      hide DecodeBlade, SyncWord, Meets, Without, One;
      if window < 0 || window >= MAX_BW { return INVAL; }
      var b := Reached(window);
      if b >= 0 {
        SyncRoundTrip(initSync[b], ppe, sync);
        SyncWordBits(initSync[b], ppe, sync);
        initSync := initSync[b := SyncWord(initSync[b], ppe, sync)];
      }
      err := 0;
    }

    /** Read LBSY, bit 20 of the blade's word, through a window. */
    method ReadBstSyncWr(window: int) returns (err: int, sync: bool)
      requires Valid()
      ensures err == if 0 <= window < 4 then 0 else -22
      ensures err == 0 ==> sync == (Reached(window) >= 0 && Blades()[Reached(window)].lbsy)
      ensures err == 0 ==> sync == (Reached(window) >= 0 && initSync[Reached(window)] & 0x10_0000 != 0)
    {
      if window < 0 || window >= MAX_BW { return INVAL, false; }
      var b := Reached(window);
      err, sync := 0, b >= 0 && Meets(initSync[b], LBSY_BIT);
    }

    /** Set the access bits of EL0 (bit 62) and EL1 (bit 63) and keep all others. */
    method WriteHwbCtrl(el0: bool, el1: bool)
      modifies this`ctrl
      ensures (ctrl & 0x4000_0000_0000_0000 != 0 <==> el0) && (ctrl & 0x8000_0000_0000_0000 != 0 <==> el1)
      ensures ctrl & 0x3FFF_FFFF_FFFF_FFFF == old(ctrl) & 0x3FFF_FFFF_FFFF_FFFF
    {
      CtrlRoundTrip(ctrl, el0, el1);
      ctrl := CtrlWord(ctrl, el0, el1);
    }
  }

  /** A mask word that has only bits above the field is accepted although it programs no
      participant: the write agrees with the abstract one, which rejects an empty set,
      exactly for the other words. */
  lemma InitAgrees(t: Topology, breg: map<Bb, BladeReg>, key: Bb, mask: bv64)
    requires t.nBlades == MAX_BB && 0 <= key.blade < MAX_BB
    requires key in breg ==> breg[key].mask != {}
    ensures (if mask != 0 then breg[key := DecodeBlade(InitWord(mask))] else breg) ==
              WriteInit(t, breg, key, Bits(mask))
            <==> (mask == 0 || mask & BST_MASK != 0)
  {
    hide Bits, DecodeBlade, InitWord;
    InitRoundTrip(mask);
    BitsEmpty(mask);
    ZeroBits();
    if mask != 0 && Bits(mask) == {} {
      assert breg[key := DecodeBlade(InitWord(mask))][key].mask == {};
    }
  }

  /** Some PE offset's bit is set exactly if the field is not zero. */
  lemma BitsEmpty(v: bv64)
    ensures Bits(v) == {} <==> v & BST_MASK == 0
  {
    if v & BST_MASK == 0 {
      forall p: int | 0 <= p < MAX_PE ensures p !in Bits(v) {
        OneInField(p);
        FieldZero(v, One(p));
      }
    } else {
      var p := SomeBit(v);
      assert p in Bits(v);
    }
  }

  lemma FieldZero(v: bv64, x: bv64)
    requires InField(x) && v & BST_MASK == 0
    ensures !Meets(v, x)
  {
    assert v & x == (v & BST_MASK) & x;
  }

  lemma SomeBit(v: bv64) returns (p: nat)
    requires v & BST_MASK != 0
    ensures p < MAX_PE && Meets(v, One(p))
  {
    OneValues();
    p := if v & 0x1 != 0 then 0 else if v & 0x2 != 0 then 1 else if v & 0x4 != 0 then 2 else if v & 0x8 != 0 then 3
         else if v & 0x10 != 0 then 4 else if v & 0x20 != 0 then 5 else if v & 0x40 != 0 then 6
         else if v & 0x80 != 0 then 7 else if v & 0x100 != 0 then 8 else if v & 0x200 != 0 then 9
         else if v & 0x400 != 0 then 10 else if v & 0x800 != 0 then 11 else 12;
  }
}
