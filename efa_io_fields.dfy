/**
 * The bit assignment of every control byte and control word of the EFA
 * descriptors, twice over: once as the field table the header's bit diagrams
 * document ("3:0 : op_type", "4 : has_imm", ...), and once as the mask and
 * shift constants the accessors are written with. Lemmas show the two agree,
 * that the fields of each control word partition it, and what the
 * "must be set" / "must be zero" rules demand of a descriptor.
 */
module EfaIoFields {
  import opened BitField

  // ---------------------------------------------------------------------
  // Field table, from the bit diagrams of the structs
  // ---------------------------------------------------------------------

  // tx meta descriptor, ctrl1
  const TxMetaOpType: Field8 := Field(0, 4)
  const TxMetaHasImm: Field8 := Field(4, 1)
  const TxMetaInlineMsg: Field8 := Field(5, 1)
  const TxMetaMetaExtension: Field8 := Field(6, 1)    // must be zero
  const TxMetaMetaDesc: Field8 := Field(7, 1)         // must be set
  // tx meta descriptor, ctrl2
  const TxMetaPhase: Field8 := Field(0, 1)
  const TxMetaReserved25: Field8 := Field(1, 1)       // must be zero
  const TxMetaFirst: Field8 := Field(2, 1)            // must be set
  const TxMetaLast: Field8 := Field(3, 1)             // must be set
  const TxMetaCompReq: Field8 := Field(4, 1)
  const TxMetaReserved29: Field8 := Field(5, 3)       // must be zero

  // tx buffer descriptor, ctrl1
  const TxBufReserved16: Field8 := Field(0, 7)
  const TxBufMetaDesc: Field8 := Field(7, 1)          // must be zero
  // tx buffer descriptor, ctrl
  const TxBufPhase: Field8 := Field(0, 1)
  const TxBufReserved25: Field8 := Field(1, 1)        // must be zero
  const TxBufFirst: Field8 := Field(2, 1)             // must be zero
  const TxBufLast: Field8 := Field(3, 1)
  const TxBufReserved28: Field8 := Field(4, 4)        // must be zero
  // tx buffer descriptor, buf_addr_hi
  const TxBufAddrHi: Field32 := Field(0, 16)          // buffer pointer bits 47:32
  const TxBufAddrHiReserved: Field32 := Field(16, 16)

  // remote memory address, ctrl1
  const RemoteReserved16: Field8 := Field(0, 6)
  const RemoteMetaExtension: Field8 := Field(6, 1)    // must be set
  const RemoteMetaDesc: Field8 := Field(7, 1)         // must be set
  // remote memory address, ctrl
  const RemotePhase: Field8 := Field(0, 1)
  const RemoteReserved25: Field8 := Field(1, 1)       // must be zero
  const RemoteFirst: Field8 := Field(2, 1)            // must be zero
  const RemoteLast: Field8 := Field(3, 1)
  const RemoteReserved28: Field8 := Field(4, 4)       // must be zero

  // rx descriptor, lkey_ctrl
  const RxLkey: Field32 := Field(0, 24)
  const RxReserved: Field32 := Field(24, 6)           // must be zero
  const RxFirst: Field32 := Field(30, 1)
  const RxLast: Field32 := Field(31, 1)

  // common completion descriptor, flags
  const CdescPhase: Field8 := Field(0, 1)
  const CdescQType: Field8 := Field(1, 2)
  const CdescHasImm: Field8 := Field(3, 1)
  const CdescWideCompletion: Field8 := Field(4, 1)
  const CdescReserved29: Field8 := Field(5, 3)

  /** The fields of each control word, lowest bits first. */
  const TxMetaCtrl1Fields: seq<Field8> :=
    [TxMetaOpType, TxMetaHasImm, TxMetaInlineMsg, TxMetaMetaExtension, TxMetaMetaDesc]
  const TxMetaCtrl2Fields: seq<Field8> :=
    [TxMetaPhase, TxMetaReserved25, TxMetaFirst, TxMetaLast, TxMetaCompReq, TxMetaReserved29]
  const TxBufCtrl1Fields: seq<Field8> := [TxBufReserved16, TxBufMetaDesc]
  const TxBufCtrlFields: seq<Field8> :=
    [TxBufPhase, TxBufReserved25, TxBufFirst, TxBufLast, TxBufReserved28]
  const TxBufAddrHiFields: seq<Field32> := [TxBufAddrHi, TxBufAddrHiReserved]
  const RemoteCtrl1Fields: seq<Field8> := [RemoteReserved16, RemoteMetaExtension, RemoteMetaDesc]
  const RemoteCtrlFields: seq<Field8> :=
    [RemotePhase, RemoteReserved25, RemoteFirst, RemoteLast, RemoteReserved28]
  const RxLkeyCtrlFields: seq<Field32> := [RxLkey, RxReserved, RxFirst, RxLast]
  const CdescFlagsFields: seq<Field8> :=
    [CdescPhase, CdescQType, CdescHasImm, CdescWideCompletion, CdescReserved29]

  // ---------------------------------------------------------------------
  // Mask and shift constants, as the header defines them
  // ---------------------------------------------------------------------

  const TxMetaDescOpTypeMask: bv8 := GenMask8(3, 0)
  const TxMetaDescHasImmShift: bv8 := 4
  const TxMetaDescHasImmMask: bv8 := Bit8(4)
  const TxMetaDescInlineMsgShift: bv8 := 5
  const TxMetaDescInlineMsgMask: bv8 := Bit8(5)
  const TxMetaDescMetaExtensionShift: bv8 := 6
  const TxMetaDescMetaExtensionMask: bv8 := Bit8(6)
  const TxMetaDescMetaDescShift: bv8 := 7
  const TxMetaDescMetaDescMask: bv8 := Bit8(7)
  const TxMetaDescPhaseMask: bv8 := Bit8(0)
  const TxMetaDescFirstShift: bv8 := 2
  const TxMetaDescFirstMask: bv8 := Bit8(2)
  const TxMetaDescLastShift: bv8 := 3
  const TxMetaDescLastMask: bv8 := Bit8(3)
  const TxMetaDescCompReqShift: bv8 := 4
  const TxMetaDescCompReqMask: bv8 := Bit8(4)

  const TxBufDescMetaDescShift: bv8 := 7
  const TxBufDescMetaDescMask: bv8 := Bit8(7)
  const TxBufDescPhaseMask: bv8 := Bit8(0)
  const TxBufDescFirstShift: bv8 := 2
  const TxBufDescFirstMask: bv8 := Bit8(2)
  const TxBufDescLastShift: bv8 := 3
  const TxBufDescLastMask: bv8 := Bit8(3)
  const TxBufDescBufAddrHiMask: bv32 := GenMask32(15, 0)

  const RemoteMemAddrMetaExtensionShift: bv8 := 6
  const RemoteMemAddrMetaExtensionMask: bv8 := Bit8(6)
  const RemoteMemAddrMetaDescShift: bv8 := 7
  const RemoteMemAddrMetaDescMask: bv8 := Bit8(7)
  const RemoteMemAddrPhaseMask: bv8 := Bit8(0)
  const RemoteMemAddrFirstShift: bv8 := 2
  const RemoteMemAddrFirstMask: bv8 := Bit8(2)
  const RemoteMemAddrLastShift: bv8 := 3
  const RemoteMemAddrLastMask: bv8 := Bit8(3)

  const RxDescLkeyMask: bv32 := GenMask32(23, 0)
  const RxDescFirstShift: bv8 := 30
  const RxDescFirstMask: bv32 := Bit32(30)
  const RxDescLastShift: bv8 := 31
  const RxDescLastMask: bv32 := Bit32(31)

  const CdescCommonPhaseMask: bv8 := Bit8(0)
  const CdescCommonQTypeShift: bv8 := 1
  const CdescCommonQTypeMask: bv8 := GenMask8(2, 1)
  const CdescCommonHasImmShift: bv8 := 3
  const CdescCommonHasImmMask: bv8 := Bit8(3)
  const CdescCommonWideCompletionShift: bv8 := 4
  const CdescCommonWideCompletionMask: bv8 := Bit8(4)

  /** Every mask and shift constant is the mask and offset of the documented field. */
  lemma ConstantsMatchTable()
    ensures TxMetaDescOpTypeMask == Mask8(TxMetaOpType) && TxMetaOpType.shift == 0
    ensures TxMetaDescHasImmMask == Mask8(TxMetaHasImm) && TxMetaDescHasImmShift == TxMetaHasImm.shift
    ensures TxMetaDescInlineMsgMask == Mask8(TxMetaInlineMsg) && TxMetaDescInlineMsgShift == TxMetaInlineMsg.shift
    ensures TxMetaDescMetaExtensionMask == Mask8(TxMetaMetaExtension)
         && TxMetaDescMetaExtensionShift == TxMetaMetaExtension.shift
    ensures TxMetaDescMetaDescMask == Mask8(TxMetaMetaDesc) && TxMetaDescMetaDescShift == TxMetaMetaDesc.shift
    ensures TxMetaDescPhaseMask == Mask8(TxMetaPhase) && TxMetaPhase.shift == 0
    ensures TxMetaDescFirstMask == Mask8(TxMetaFirst) && TxMetaDescFirstShift == TxMetaFirst.shift
    ensures TxMetaDescLastMask == Mask8(TxMetaLast) && TxMetaDescLastShift == TxMetaLast.shift
    ensures TxMetaDescCompReqMask == Mask8(TxMetaCompReq) && TxMetaDescCompReqShift == TxMetaCompReq.shift
    ensures TxBufDescMetaDescMask == Mask8(TxBufMetaDesc) && TxBufDescMetaDescShift == TxBufMetaDesc.shift
    ensures TxBufDescPhaseMask == Mask8(TxBufPhase) && TxBufPhase.shift == 0
    ensures TxBufDescFirstMask == Mask8(TxBufFirst) && TxBufDescFirstShift == TxBufFirst.shift
    ensures TxBufDescLastMask == Mask8(TxBufLast) && TxBufDescLastShift == TxBufLast.shift
    ensures TxBufDescBufAddrHiMask == Mask32(TxBufAddrHi) && TxBufAddrHi.shift == 0
    ensures RemoteMemAddrMetaExtensionMask == Mask8(RemoteMetaExtension)
         && RemoteMemAddrMetaExtensionShift == RemoteMetaExtension.shift
    ensures RemoteMemAddrMetaDescMask == Mask8(RemoteMetaDesc) && RemoteMemAddrMetaDescShift == RemoteMetaDesc.shift
    ensures RemoteMemAddrPhaseMask == Mask8(RemotePhase) && RemotePhase.shift == 0
    ensures RemoteMemAddrFirstMask == Mask8(RemoteFirst) && RemoteMemAddrFirstShift == RemoteFirst.shift
    ensures RemoteMemAddrLastMask == Mask8(RemoteLast) && RemoteMemAddrLastShift == RemoteLast.shift
    ensures RxDescLkeyMask == Mask32(RxLkey) && RxLkey.shift == 0
    ensures RxDescFirstMask == Mask32(RxFirst) && RxDescFirstShift == RxFirst.shift
    ensures RxDescLastMask == Mask32(RxLast) && RxDescLastShift == RxLast.shift
    ensures CdescCommonPhaseMask == Mask8(CdescPhase) && CdescPhase.shift == 0
    ensures CdescCommonQTypeMask == Mask8(CdescQType) && CdescCommonQTypeShift == CdescQType.shift
    ensures CdescCommonHasImmMask == Mask8(CdescHasImm) && CdescCommonHasImmShift == CdescHasImm.shift
    ensures CdescCommonWideCompletionMask == Mask8(CdescWideCompletion)
         && CdescCommonWideCompletionShift == CdescWideCompletion.shift
  {
  }

  // ---------------------------------------------------------------------
  // Each control word is partitioned by its fields
  // ---------------------------------------------------------------------

  predicate PairwiseDisjoint8(fs: seq<Field8>) {
    forall i, j :: 0 <= i < j < |fs| ==> fs[i].Disjoint(fs[j])
  }

  /** The OR of the masks of `fs`. */
  function Coverage8(fs: seq<Field8>): bv8 {
    if fs == [] then 0 else Mask8(fs[0]) | Coverage8(fs[1..])
  }

  /** The fields share no bit and together use every bit of the byte. */
  predicate Partitions8(fs: seq<Field8>) {
    PairwiseDisjoint8(fs) && Coverage8(fs) == 0xFF
  }

  predicate PairwiseDisjoint32(fs: seq<Field32>) {
    forall i, j :: 0 <= i < j < |fs| ==> fs[i].Disjoint(fs[j])
  }

  function Coverage32(fs: seq<Field32>): bv32 {
    if fs == [] then 0 else Mask32(fs[0]) | Coverage32(fs[1..])
  }

  predicate Partitions32(fs: seq<Field32>) {
    PairwiseDisjoint32(fs) && Coverage32(fs) == 0xFFFF_FFFF
  }

  // Each lemma evaluates the coverage fold on its table written out as a literal.

  lemma TxMetaCtrl1Partitioned()
    ensures Partitions8(TxMetaCtrl1Fields)
  {
    assert TxMetaCtrl1Fields == [Field(0, 4), Field(4, 1), Field(5, 1), Field(6, 1), Field(7, 1)];
    assert Coverage8([Field(0, 4), Field(4, 1), Field(5, 1), Field(6, 1), Field(7, 1)]) == 0xFF;
  }

  lemma TxMetaCtrl2Partitioned()
    ensures Partitions8(TxMetaCtrl2Fields)
  {
    assert TxMetaCtrl2Fields == [Field(0, 1), Field(1, 1), Field(2, 1), Field(3, 1), Field(4, 1), Field(5, 3)];
    assert Coverage8([Field(0, 1), Field(1, 1), Field(2, 1), Field(3, 1), Field(4, 1), Field(5, 3)]) == 0xFF;
  }

  lemma TxBufCtrl1Partitioned()
    ensures Partitions8(TxBufCtrl1Fields)
  {
    assert TxBufCtrl1Fields == [Field(0, 7), Field(7, 1)];
    assert Coverage8([Field(0, 7), Field(7, 1)]) == 0xFF;
  }

  lemma TxBufCtrlPartitioned()
    ensures Partitions8(TxBufCtrlFields)
  {
    assert TxBufCtrlFields == [Field(0, 1), Field(1, 1), Field(2, 1), Field(3, 1), Field(4, 4)];
    assert Coverage8([Field(0, 1), Field(1, 1), Field(2, 1), Field(3, 1), Field(4, 4)]) == 0xFF;
  }

  lemma TxBufAddrHiPartitioned()
    ensures Partitions32(TxBufAddrHiFields)
  {
    assert TxBufAddrHiFields == [Field(0, 16), Field(16, 16)];
    assert Coverage32([Field(0, 16), Field(16, 16)]) == 0xFFFF_FFFF;
  }

  lemma RemoteCtrl1Partitioned()
    ensures Partitions8(RemoteCtrl1Fields)
  {
    assert RemoteCtrl1Fields == [Field(0, 6), Field(6, 1), Field(7, 1)];
    assert Coverage8([Field(0, 6), Field(6, 1), Field(7, 1)]) == 0xFF;
  }

  lemma RemoteCtrlPartitioned()
    ensures Partitions8(RemoteCtrlFields)
  {
    assert RemoteCtrlFields == [Field(0, 1), Field(1, 1), Field(2, 1), Field(3, 1), Field(4, 4)];
    assert Coverage8([Field(0, 1), Field(1, 1), Field(2, 1), Field(3, 1), Field(4, 4)]) == 0xFF;
  }

  lemma RxLkeyCtrlPartitioned()
    ensures Partitions32(RxLkeyCtrlFields)
  {
    assert RxLkeyCtrlFields == [Field(0, 24), Field(24, 6), Field(30, 1), Field(31, 1)];
    assert Coverage32([Field(0, 24), Field(24, 6), Field(30, 1), Field(31, 1)]) == 0xFFFF_FFFF;
  }

  lemma CdescFlagsPartitioned()
    ensures Partitions8(CdescFlagsFields)
  {
    assert CdescFlagsFields == [Field(0, 1), Field(1, 2), Field(3, 1), Field(4, 1), Field(5, 3)];
    assert Coverage8([Field(0, 1), Field(1, 2), Field(3, 1), Field(4, 1), Field(5, 3)]) == 0xFF;
  }

  /**
   * Within one control byte whose fields are pairwise disjoint, setting field
   * i leaves the value of every other field j as it was.
   */
  lemma {:induction false} SetLeavesOtherFields(fs: seq<Field8>, i: nat, j: nat, b: bv8, v: bv8)
    requires PairwiseDisjoint8(fs)
    requires i < |fs| && j < |fs| && i != j
    ensures Get8(Set8(b, fs[i], v), fs[j]) == Get8(b, fs[j])
  {
    if i < j {
      Set8LeavesDisjoint(b, fs[i], fs[j], v);
    } else {
      assert fs[j].Disjoint(fs[i]);
      Set8LeavesDisjoint(b, fs[i], fs[j], v);
    }
  }

  // ---------------------------------------------------------------------
  // The 32-bit words in concrete form. The solver works with these words
  // only through literal masks: each fact below is stated on plain bv32
  // values, and the descriptor setters cite them.
  // ---------------------------------------------------------------------

  lemma Masks32Values()
    ensures RxDescLkeyMask == 0xFF_FFFF
    ensures RxDescFirstMask == 0x4000_0000
    ensures RxDescLastMask == 0x8000_0000
    ensures TxBufDescBufAddrHiMask == 0xFFFF
  {
  }

  lemma Shifts32Values(v: bv32)
    ensures v << RxDescFirstShift == v << 30
    ensures v << RxDescLastShift == v << 31
  {
  }

  lemma RxLkeyCtrlConcrete(x: bv32)
    ensures Get32(x, RxLkey) == x & 0xFF_FFFF
    ensures Get32(x, RxReserved) == (x >> 24) & 0x3F
    ensures Get32(x, RxFirst) == (x >> 30) & 1
    ensures Get32(x, RxLast) == x >> 31
  {
    assert LowMask32(24) == 0xFF_FFFF;
  }

  lemma TxBufAddrHiConcrete(x: bv32)
    ensures Get32(x, TxBufAddrHi) == x & 0xFFFF
    ensures Get32(x, TxBufAddrHiReserved) == x >> 16
  {
    assert LowMask32(16) == 0xFFFF;
  }

  lemma RxLkeySetConcrete(x: bv32, v: bv32)
    ensures Set32(x, RxLkey, v) == x | (v & 0xFF_FFFF)
  {
    assert LowMask32(24) == 0xFF_FFFF;
  }

  lemma RxFirstSetConcrete(x: bv32, v: bv32)
    ensures Set32(x, RxFirst, v) == x | ((v & 1) << 30)
  {
    assert LowMask32(1) == 1;
  }

  lemma RxLastSetConcrete(x: bv32, v: bv32)
    ensures Set32(x, RxLast, v) == x | ((v & 1) << 31)
  {
    assert LowMask32(1) == 1;
  }

  lemma TxBufAddrHiSetConcrete(x: bv32, v: bv32)
    ensures Set32(x, TxBufAddrHi, v) == x | (v & 0xFFFF)
  {
    assert LowMask32(16) == 0xFFFF;
  }

  lemma LkeyBits(x: bv32, v: bv32)
    ensures (x | (v & 0xFF_FFFF)) & 0xFF_FFFF == (x & 0xFF_FFFF) | (v & 0xFF_FFFF)
    ensures ((x | (v & 0xFF_FFFF)) >> 24) & 0x3F == (x >> 24) & 0x3F
    ensures ((x | (v & 0xFF_FFFF)) >> 30) & 1 == (x >> 30) & 1
    ensures (x | (v & 0xFF_FFFF)) >> 31 == x >> 31
  {
  }

  lemma FirstBits(x: bv32, v: bv32)
    ensures (v << 30) & 0x4000_0000 == (v & 1) << 30
    ensures (x | ((v & 1) << 30)) & 0xFF_FFFF == x & 0xFF_FFFF
    ensures ((x | ((v & 1) << 30)) >> 24) & 0x3F == (x >> 24) & 0x3F
    ensures ((x | ((v & 1) << 30)) >> 30) & 1 == ((x >> 30) & 1) | (v & 1)
    ensures (x | ((v & 1) << 30)) >> 31 == x >> 31
  {
  }

  lemma LastBits(x: bv32, v: bv32)
    ensures (v << 31) & 0x8000_0000 == (v & 1) << 31
    ensures (x | ((v & 1) << 31)) & 0xFF_FFFF == x & 0xFF_FFFF
    ensures ((x | ((v & 1) << 31)) >> 24) & 0x3F == (x >> 24) & 0x3F
    ensures ((x | ((v & 1) << 31)) >> 30) & 1 == (x >> 30) & 1
    ensures (x | ((v & 1) << 31)) >> 31 == (x >> 31) | (v & 1)
  {
  }

  lemma AddrHiBits(x: bv32, v: bv32)
    ensures (x | (v & 0xFFFF)) & 0xFFFF == (x & 0xFFFF) | (v & 0xFFFF)
    ensures (x | (v & 0xFFFF)) >> 16 == x >> 16
  {
  }

  /** The header's lkey setter is the field insertion, and it touches no other field of the word. */
  lemma RxLkeySetBits(x: bv32, v: bv32)
    ensures x | (v & RxDescLkeyMask) == Set32(x, RxLkey, v)
    ensures Get32(Set32(x, RxLkey, v), RxLkey) == Get32(x, RxLkey) | (v & 0xFF_FFFF)
    ensures Get32(Set32(x, RxLkey, v), RxReserved) == Get32(x, RxReserved)
    ensures Get32(Set32(x, RxLkey, v), RxFirst) == Get32(x, RxFirst)
    ensures Get32(Set32(x, RxLkey, v), RxLast) == Get32(x, RxLast)
  {
    Masks32Values();
    RxLkeySetConcrete(x, v);
    RxLkeyCtrlConcrete(x);
    RxLkeyCtrlConcrete(x | (v & 0xFF_FFFF));
    LkeyBits(x, v);
  }

  /** The header's first setter, `(v << 30) & BIT(30)`, is the field insertion. */
  lemma RxFirstHeaderForm(x: bv32, v: bv32)
    ensures x | ((v << RxDescFirstShift) & RxDescFirstMask) == Set32(x, RxFirst, v)
  {
    Masks32Values();
    Shifts32Values(v);
    RxFirstSetConcrete(x, v);
    FirstBits(x, v);
  }

  /** Setting first touches no other field of the word. */
  lemma RxFirstSetBits(x: bv32, v: bv32)
    ensures Get32(Set32(x, RxFirst, v), RxFirst) == Get32(x, RxFirst) | (v & 1)
    ensures Get32(Set32(x, RxFirst, v), RxLkey) == Get32(x, RxLkey)
    ensures Get32(Set32(x, RxFirst, v), RxReserved) == Get32(x, RxReserved)
    ensures Get32(Set32(x, RxFirst, v), RxLast) == Get32(x, RxLast)
  {
    RxFirstSetConcrete(x, v);
    RxLkeyCtrlConcrete(x);
    RxLkeyCtrlConcrete(x | ((v & 1) << 30));
    FirstBits(x, v);
  }

  /** The header's last setter, `(v << 31) & BIT(31)`, is the field insertion. */
  lemma RxLastHeaderForm(x: bv32, v: bv32)
    ensures x | ((v << RxDescLastShift) & RxDescLastMask) == Set32(x, RxLast, v)
  {
    Masks32Values();
    Shifts32Values(v);
    RxLastSetConcrete(x, v);
    LastBits(x, v);
  }

  /** Setting last touches no other field of the word. */
  lemma RxLastSetBits(x: bv32, v: bv32)
    ensures Get32(Set32(x, RxLast, v), RxLast) == Get32(x, RxLast) | (v & 1)
    ensures Get32(Set32(x, RxLast, v), RxLkey) == Get32(x, RxLkey)
    ensures Get32(Set32(x, RxLast, v), RxReserved) == Get32(x, RxReserved)
    ensures Get32(Set32(x, RxLast, v), RxFirst) == Get32(x, RxFirst)
  {
    RxLastSetConcrete(x, v);
    RxLkeyCtrlConcrete(x);
    RxLkeyCtrlConcrete(x | ((v & 1) << 31));
    LastBits(x, v);
  }

  /** The header's buf_addr_hi setter is the field insertion, and it leaves bits 31:16 alone. */
  lemma TxBufAddrHiSetBits(x: bv32, v: bv32)
    ensures x | (v & TxBufDescBufAddrHiMask) == Set32(x, TxBufAddrHi, v)
    ensures Get32(Set32(x, TxBufAddrHi, v), TxBufAddrHi) == Get32(x, TxBufAddrHi) | (v & 0xFFFF)
    ensures Get32(Set32(x, TxBufAddrHi, v), TxBufAddrHiReserved) == Get32(x, TxBufAddrHiReserved)
  {
    Masks32Values();
    TxBufAddrHiSetConcrete(x, v);
    TxBufAddrHiConcrete(x);
    TxBufAddrHiConcrete(x | (v & 0xFFFF));
    AddrHiBits(x, v);
  }

  // ---------------------------------------------------------------------
  // The "must be set" and "must be zero" rules
  // ---------------------------------------------------------------------

  predicate TxMetaCtrl1WellFormed(ctrl1: bv8) {
    Get8(ctrl1, TxMetaMetaExtension) == 0 && Get8(ctrl1, TxMetaMetaDesc) == 1
  }

  predicate TxMetaCtrl2WellFormed(ctrl2: bv8) {
    && Get8(ctrl2, TxMetaReserved25) == 0
    && Get8(ctrl2, TxMetaFirst) == 1
    && Get8(ctrl2, TxMetaLast) == 1
    && Get8(ctrl2, TxMetaReserved29) == 0
  }

  predicate TxBufCtrl1WellFormed(ctrl1: bv8) {
    Get8(ctrl1, TxBufMetaDesc) == 0
  }

  predicate TxBufCtrlWellFormed(ctrl: bv8) {
    && Get8(ctrl, TxBufReserved25) == 0
    && Get8(ctrl, TxBufFirst) == 0
    && Get8(ctrl, TxBufReserved28) == 0
  }

  predicate RemoteCtrl1WellFormed(ctrl1: bv8) {
    Get8(ctrl1, RemoteMetaExtension) == 1 && Get8(ctrl1, RemoteMetaDesc) == 1
  }

  predicate RemoteCtrlWellFormed(ctrl: bv8) {
    && Get8(ctrl, RemoteReserved25) == 0
    && Get8(ctrl, RemoteFirst) == 0
    && Get8(ctrl, RemoteReserved28) == 0
  }

  predicate RxLkeyCtrlWellFormed(lkeyCtrl: bv32) {
    Get32(lkeyCtrl, RxReserved) == 0
  }

  /**
   * Filling a zeroed ctrl1 of a tx meta descriptor with any op type, has_imm
   * and inline_msg, and with meta_desc set to 1, gives a well-formed byte
   * from which each value reads back masked to its field.
   */
  lemma TxMetaCtrl1FromZero(op: bv8, hasImm: bv8, inlineMsg: bv8)
    ensures var b := Set8(Set8(Set8(Set8(0, TxMetaOpType, op), TxMetaHasImm, hasImm),
                               TxMetaInlineMsg, inlineMsg), TxMetaMetaDesc, 1);
      && TxMetaCtrl1WellFormed(b)
      && Get8(b, TxMetaOpType) == op & 0xF
      && Get8(b, TxMetaHasImm) == hasImm & 1
      && Get8(b, TxMetaInlineMsg) == inlineMsg & 1
  {
    var b1 := Set8(0, TxMetaOpType, op);
    var b2 := Set8(b1, TxMetaHasImm, hasImm);
    var b3 := Set8(b2, TxMetaInlineMsg, inlineMsg);
    var b4 := Set8(b3, TxMetaMetaDesc, 1);
    Get8OfSet8OnZero(TxMetaOpType, op);
    Set8LeavesDisjoint(0, TxMetaOpType, TxMetaMetaExtension, op);
    Get8OfSet8(b1, TxMetaHasImm, hasImm);
    Set8LeavesDisjoint(b1, TxMetaHasImm, TxMetaOpType, hasImm);
    Set8LeavesDisjoint(b1, TxMetaHasImm, TxMetaInlineMsg, hasImm);
    Set8LeavesDisjoint(b1, TxMetaHasImm, TxMetaMetaExtension, hasImm);
    Set8LeavesDisjoint(b1, TxMetaHasImm, TxMetaMetaDesc, hasImm);
    Get8OfSet8(b2, TxMetaInlineMsg, inlineMsg);
    Set8LeavesDisjoint(b2, TxMetaInlineMsg, TxMetaOpType, inlineMsg);
    Set8LeavesDisjoint(b2, TxMetaInlineMsg, TxMetaHasImm, inlineMsg);
    Set8LeavesDisjoint(b2, TxMetaInlineMsg, TxMetaMetaExtension, inlineMsg);
    Set8LeavesDisjoint(b2, TxMetaInlineMsg, TxMetaMetaDesc, inlineMsg);
    Get8OfSet8(b3, TxMetaMetaDesc, 1);
    Set8LeavesDisjoint(b3, TxMetaMetaDesc, TxMetaOpType, 1);
    Set8LeavesDisjoint(b3, TxMetaMetaDesc, TxMetaHasImm, 1);
    Set8LeavesDisjoint(b3, TxMetaMetaDesc, TxMetaInlineMsg, 1);
    Set8LeavesDisjoint(b3, TxMetaMetaDesc, TxMetaMetaExtension, 1);
  }

  /**
   * Filling a zeroed ctrl2 with phase and comp_req, and with first and last
   * set to 1, gives a well-formed byte from which phase and comp_req read
   * back masked to their fields.
   */
  lemma TxMetaCtrl2FromZero(phase: bv8, compReq: bv8)
    ensures var b := Set8(Set8(Set8(Set8(0, TxMetaPhase, phase), TxMetaFirst, 1),
                               TxMetaLast, 1), TxMetaCompReq, compReq);
      && TxMetaCtrl2WellFormed(b)
      && Get8(b, TxMetaPhase) == phase & 1
      && Get8(b, TxMetaCompReq) == compReq & 1
  {
  }

  /**
   * A buffer descriptor's ctrl filled from zero with phase and last only
   * meets the must-be-zero rules (first stays 0), and both read back.
   */
  lemma TxBufCtrlFromZero(phase: bv8, last: bv8)
    ensures var b := Set8(Set8(0, TxBufPhase, phase), TxBufLast, last);
      && TxBufCtrlWellFormed(b)
      && Get8(b, TxBufPhase) == phase & 1
      && Get8(b, TxBufLast) == last & 1
  {
  }

  /** A remote address's ctrl1 filled from zero with meta_extension and meta_desc set meets the must-be-set rules. */
  lemma RemoteCtrl1FromZero()
    ensures RemoteCtrl1WellFormed(Set8(Set8(0, RemoteMetaExtension, 1), RemoteMetaDesc, 1))
    ensures !RemoteCtrl1WellFormed(0)
  {
  }

  /**
   * A 1-bit field keeps only the low bit of the value: has_imm set to v is
   * has_imm set to v & 1, and set to 2 it leaves the byte as it was.
   */
  lemma TxMetaHasImmTruncates(b: bv8, v: bv8)
    ensures Set8(b, TxMetaHasImm, v) == Set8(b, TxMetaHasImm, v & 1)
    ensures Set8(b, TxMetaHasImm, 2) == b
  {
    assert LowMask8(TxMetaHasImm.width) == 1;
    Set8Truncates(b, TxMetaHasImm, 2);
  }

  /**
   * Since setters only OR bits in, a "must be zero" bit that is already 1 stays
   * 1 whatever is set afterwards: a descriptor that was not zeroed before
   * being filled in cannot be repaired by the setters.
   */
  lemma MbzViolationPersists(b: bv8, mbz: Field8, f: Field8, v: bv8)
    requires Get8(b, mbz) != 0
    ensures Get8(Set8(b, f, v), mbz) != 0
  {
    Set8Monotone(b, f, mbz, v);
  }
}
