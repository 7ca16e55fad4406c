/**
 * The five EFA descriptors that have field accessors, as objects whose
 * fields are the struct members in declaration order. Each getter is a
 * function written with the header's mask and shift constants and proved
 * equal to the field-table extraction; each setter ORs the masked value into
 * its control word in place and changes nothing else.
 */
module EfaIoDesc {
  import opened BitField
  import opened EfaIoFields

  /** The meta descriptor that opens every tx WQE. */
  class TxMetaDesc {
    var reqId: bv16  // request id chosen by the driver
    var ctrl1: bv8  // op_type, has_imm, inline_msg, meta_extension, meta_desc
    var ctrl2: bv8  // phase, first, last, comp_req
    var destQpNum: bv16  // destination QP number
    var len: bv16  // inline message bytes, or number of buffer descriptors
    var immediateData: bv32  // immediate data, valid when has_imm is set
    var ah: bv16  // address handle
    var reserved: bv16

    /** A zero-filled descriptor, as callers prepare one before filling it in; whether it already meets the must-be rules is stated too. */
    constructor ()
      ensures reqId == 0
      ensures ctrl1 == 0
      ensures ctrl2 == 0
      ensures destQpNum == 0
      ensures len == 0
      ensures immediateData == 0
      ensures ah == 0
      ensures reserved == 0
      ensures !WellFormed()
    {
      reqId, ctrl1, ctrl2, destQpNum, len, immediateData, ah, reserved := 0, 0, 0, 0, 0, 0, 0, 0;
    }

    /** The "must be set" and "must be zero" rules of the control words. */
    predicate WellFormed()
      reads this
    {
      TxMetaCtrl1WellFormed(ctrl1) && TxMetaCtrl2WellFormed(ctrl2)
    }

    /** The operation type (bits 3:0 of ctrl1). */
    function OpType(): (r: bv8)
      reads this
      ensures r < 16
      ensures r == Get8(ctrl1, TxMetaOpType)
    {
      ctrl1 & TxMetaDescOpTypeMask
    }

    /** ORs the value, truncated to the field's width, into the field; clears nothing. */
    method SetOpType(val: bv8)
      modifies this`ctrl1
      ensures ctrl1 == Set8(old(ctrl1), TxMetaOpType, val)
      ensures OpType() == old(OpType()) | (val & 0xF)
      ensures forall g: Field8 :: TxMetaOpType.Disjoint(g) ==> Get8(ctrl1, g) == Get8(old(ctrl1), g)
    {
      ctrl1 := ctrl1 | (val & TxMetaDescOpTypeMask);
      Get8OfSet8(old(ctrl1), TxMetaOpType, val);
      Set8PreservesDisjointFields(old(ctrl1), TxMetaOpType, val);
    }

    /** The immediate data is carried (bit 4 of ctrl1). */
    function HasImm(): (r: bv8)
      reads this
      ensures r <= 1
      ensures r == Get8(ctrl1, TxMetaHasImm)
    {
      (ctrl1 & TxMetaDescHasImmMask) >> TxMetaDescHasImmShift
    }

    /** ORs the value, truncated to the field's width, into the field; clears nothing. */
    method SetHasImm(val: bv8)
      modifies this`ctrl1
      ensures ctrl1 == Set8(old(ctrl1), TxMetaHasImm, val)
      ensures HasImm() == old(HasImm()) | (val & 1)
      ensures forall g: Field8 :: TxMetaHasImm.Disjoint(g) ==> Get8(ctrl1, g) == Get8(old(ctrl1), g)
    {
      ctrl1 := ctrl1 | ((val << TxMetaDescHasImmShift) & TxMetaDescHasImmMask);
      Get8OfSet8(old(ctrl1), TxMetaHasImm, val);
      Set8PreservesDisjointFields(old(ctrl1), TxMetaHasImm, val);
    }

    /** The inline payload instead of buffer descriptors (bit 5 of ctrl1). */
    function InlineMsg(): (r: bv8)
      reads this
      ensures r <= 1
      ensures r == Get8(ctrl1, TxMetaInlineMsg)
    {
      (ctrl1 & TxMetaDescInlineMsgMask) >> TxMetaDescInlineMsgShift
    }

    /** ORs the value, truncated to the field's width, into the field; clears nothing. */
    method SetInlineMsg(val: bv8)
      modifies this`ctrl1
      ensures ctrl1 == Set8(old(ctrl1), TxMetaInlineMsg, val)
      ensures InlineMsg() == old(InlineMsg()) | (val & 1)
      ensures forall g: Field8 :: TxMetaInlineMsg.Disjoint(g) ==> Get8(ctrl1, g) == Get8(old(ctrl1), g)
    {
      ctrl1 := ctrl1 | ((val << TxMetaDescInlineMsgShift) & TxMetaDescInlineMsgMask);
      Get8OfSet8(old(ctrl1), TxMetaInlineMsg, val);
      Set8PreservesDisjointFields(old(ctrl1), TxMetaInlineMsg, val);
    }

    /** The extended metadata, must be zero (bit 6 of ctrl1). */
    function MetaExtension(): (r: bv8)
      reads this
      ensures r <= 1
      ensures r == Get8(ctrl1, TxMetaMetaExtension)
    {
      (ctrl1 & TxMetaDescMetaExtensionMask) >> TxMetaDescMetaExtensionShift
    }

    /** ORs the value, truncated to the field's width, into the field; clears nothing. */
    method SetMetaExtension(val: bv8)
      modifies this`ctrl1
      ensures ctrl1 == Set8(old(ctrl1), TxMetaMetaExtension, val)
      ensures MetaExtension() == old(MetaExtension()) | (val & 1)
      ensures forall g: Field8 :: TxMetaMetaExtension.Disjoint(g) ==> Get8(ctrl1, g) == Get8(old(ctrl1), g)
    {
      ctrl1 := ctrl1 | ((val << TxMetaDescMetaExtensionShift) & TxMetaDescMetaExtensionMask);
      Get8OfSet8(old(ctrl1), TxMetaMetaExtension, val);
      Set8PreservesDisjointFields(old(ctrl1), TxMetaMetaExtension, val);
    }

    /** The marks a meta descriptor, must be set (bit 7 of ctrl1). */
    function MetaDesc(): (r: bv8)
      reads this
      ensures r <= 1
      ensures r == Get8(ctrl1, TxMetaMetaDesc)
    {
      (ctrl1 & TxMetaDescMetaDescMask) >> TxMetaDescMetaDescShift
    }

    /** ORs the value, truncated to the field's width, into the field; clears nothing. */
    method SetMetaDesc(val: bv8)
      modifies this`ctrl1
      ensures ctrl1 == Set8(old(ctrl1), TxMetaMetaDesc, val)
      ensures MetaDesc() == old(MetaDesc()) | (val & 1)
      ensures forall g: Field8 :: TxMetaMetaDesc.Disjoint(g) ==> Get8(ctrl1, g) == Get8(old(ctrl1), g)
    {
      ctrl1 := ctrl1 | ((val << TxMetaDescMetaDescShift) & TxMetaDescMetaDescMask);
      Get8OfSet8(old(ctrl1), TxMetaMetaDesc, val);
      Set8PreservesDisjointFields(old(ctrl1), TxMetaMetaDesc, val);
    }

    /** The phase bit (bit 0 of ctrl2). */
    function Phase(): (r: bv8)
      reads this
      ensures r <= 1
      ensures r == Get8(ctrl2, TxMetaPhase)
    {
      ctrl2 & TxMetaDescPhaseMask
    }

    /** ORs the value, truncated to the field's width, into the field; clears nothing. */
    method SetPhase(val: bv8)
      modifies this`ctrl2
      ensures ctrl2 == Set8(old(ctrl2), TxMetaPhase, val)
      ensures Phase() == old(Phase()) | (val & 1)
      ensures forall g: Field8 :: TxMetaPhase.Disjoint(g) ==> Get8(ctrl2, g) == Get8(old(ctrl2), g)
    {
      ctrl2 := ctrl2 | (val & TxMetaDescPhaseMask);
      Get8OfSet8(old(ctrl2), TxMetaPhase, val);
      Set8PreservesDisjointFields(old(ctrl2), TxMetaPhase, val);
    }

    /** The first descriptor of the transaction, must be set (bit 2 of ctrl2). */
    function First(): (r: bv8)
      reads this
      ensures r <= 1
      ensures r == Get8(ctrl2, TxMetaFirst)
    {
      (ctrl2 & TxMetaDescFirstMask) >> TxMetaDescFirstShift
    }

    /** ORs the value, truncated to the field's width, into the field; clears nothing. */
    method SetFirst(val: bv8)
      modifies this`ctrl2
      ensures ctrl2 == Set8(old(ctrl2), TxMetaFirst, val)
      ensures First() == old(First()) | (val & 1)
      ensures forall g: Field8 :: TxMetaFirst.Disjoint(g) ==> Get8(ctrl2, g) == Get8(old(ctrl2), g)
    {
      ctrl2 := ctrl2 | ((val << TxMetaDescFirstShift) & TxMetaDescFirstMask);
      Get8OfSet8(old(ctrl2), TxMetaFirst, val);
      Set8PreservesDisjointFields(old(ctrl2), TxMetaFirst, val);
    }

    /** The last descriptor of the transaction, must be set (bit 3 of ctrl2). */
    function Last(): (r: bv8)
      reads this
      ensures r <= 1
      ensures r == Get8(ctrl2, TxMetaLast)
    {
      (ctrl2 & TxMetaDescLastMask) >> TxMetaDescLastShift
    }

    /** ORs the value, truncated to the field's width, into the field; clears nothing. */
    method SetLast(val: bv8)
      modifies this`ctrl2
      ensures ctrl2 == Set8(old(ctrl2), TxMetaLast, val)
      ensures Last() == old(Last()) | (val & 1)
      ensures forall g: Field8 :: TxMetaLast.Disjoint(g) ==> Get8(ctrl2, g) == Get8(old(ctrl2), g)
    {
      ctrl2 := ctrl2 | ((val << TxMetaDescLastShift) & TxMetaDescLastMask);
      Get8OfSet8(old(ctrl2), TxMetaLast, val);
      Set8PreservesDisjointFields(old(ctrl2), TxMetaLast, val);
    }

    /** The post a completion once sent (bit 4 of ctrl2). */
    function CompReq(): (r: bv8)
      reads this
      ensures r <= 1
      ensures r == Get8(ctrl2, TxMetaCompReq)
    {
      (ctrl2 & TxMetaDescCompReqMask) >> TxMetaDescCompReqShift
    }

    /** ORs the value, truncated to the field's width, into the field; clears nothing. */
    method SetCompReq(val: bv8)
      modifies this`ctrl2
      ensures ctrl2 == Set8(old(ctrl2), TxMetaCompReq, val)
      ensures CompReq() == old(CompReq()) | (val & 1)
      ensures forall g: Field8 :: TxMetaCompReq.Disjoint(g) ==> Get8(ctrl2, g) == Get8(old(ctrl2), g)
    {
      ctrl2 := ctrl2 | ((val << TxMetaDescCompReqShift) & TxMetaDescCompReqMask);
      Get8OfSet8(old(ctrl2), TxMetaCompReq, val);
      Set8PreservesDisjointFields(old(ctrl2), TxMetaCompReq, val);
    }
  }

  /** A tx buffer descriptor: one scatter/gather entry following the meta descriptor. */
  class TxBufDesc {
    var length: bv16  // length in bytes
    var ctrl1: bv8  // meta_desc
    var ctrl: bv8  // phase, first, last
    var lkey: bv32  // memory translation key
    var bufAddrLo: bv32  // buffer address bits 31:0
    var bufAddrHi: bv32  // buffer address bits 47:32 in bits 15:0

    /** A zero-filled descriptor, as callers prepare one before filling it in; whether it already meets the must-be rules is stated too. */
    constructor ()
      ensures length == 0
      ensures ctrl1 == 0
      ensures ctrl == 0
      ensures lkey == 0
      ensures bufAddrLo == 0
      ensures bufAddrHi == 0
      ensures WellFormed()
    {
      length, ctrl1, ctrl, lkey, bufAddrLo, bufAddrHi := 0, 0, 0, 0, 0, 0;
    }

    /** The "must be set" and "must be zero" rules of the control words. */
    predicate WellFormed()
      reads this
    {
      TxBufCtrl1WellFormed(ctrl1) && TxBufCtrlWellFormed(ctrl)
    }

    /** The meta descriptor flag, must be zero here (bit 7 of ctrl1). */
    function MetaDesc(): (r: bv8)
      reads this
      ensures r <= 1
      ensures r == Get8(ctrl1, TxBufMetaDesc)
    {
      (ctrl1 & TxBufDescMetaDescMask) >> TxBufDescMetaDescShift
    }

    /** ORs the value, truncated to the field's width, into the field; clears nothing. */
    method SetMetaDesc(val: bv8)
      modifies this`ctrl1
      ensures ctrl1 == Set8(old(ctrl1), TxBufMetaDesc, val)
      ensures MetaDesc() == old(MetaDesc()) | (val & 1)
      ensures forall g: Field8 :: TxBufMetaDesc.Disjoint(g) ==> Get8(ctrl1, g) == Get8(old(ctrl1), g)
    {
      ctrl1 := ctrl1 | ((val << TxBufDescMetaDescShift) & TxBufDescMetaDescMask);
      Get8OfSet8(old(ctrl1), TxBufMetaDesc, val);
      Set8PreservesDisjointFields(old(ctrl1), TxBufMetaDesc, val);
    }

    /** The phase bit (bit 0 of ctrl). */
    function Phase(): (r: bv8)
      reads this
      ensures r <= 1
      ensures r == Get8(ctrl, TxBufPhase)
    {
      ctrl & TxBufDescPhaseMask
    }

    /** ORs the value, truncated to the field's width, into the field; clears nothing. */
    method SetPhase(val: bv8)
      modifies this`ctrl
      ensures ctrl == Set8(old(ctrl), TxBufPhase, val)
      ensures Phase() == old(Phase()) | (val & 1)
      ensures forall g: Field8 :: TxBufPhase.Disjoint(g) ==> Get8(ctrl, g) == Get8(old(ctrl), g)
    {
      ctrl := ctrl | (val & TxBufDescPhaseMask);
      Get8OfSet8(old(ctrl), TxBufPhase, val);
      Set8PreservesDisjointFields(old(ctrl), TxBufPhase, val);
    }

    /** The first descriptor flag, must be zero here (bit 2 of ctrl). */
    function First(): (r: bv8)
      reads this
      ensures r <= 1
      ensures r == Get8(ctrl, TxBufFirst)
    {
      (ctrl & TxBufDescFirstMask) >> TxBufDescFirstShift
    }

    /** ORs the value, truncated to the field's width, into the field; clears nothing. */
    method SetFirst(val: bv8)
      modifies this`ctrl
      ensures ctrl == Set8(old(ctrl), TxBufFirst, val)
      ensures First() == old(First()) | (val & 1)
      ensures forall g: Field8 :: TxBufFirst.Disjoint(g) ==> Get8(ctrl, g) == Get8(old(ctrl), g)
    {
      ctrl := ctrl | ((val << TxBufDescFirstShift) & TxBufDescFirstMask);
      Get8OfSet8(old(ctrl), TxBufFirst, val);
      Set8PreservesDisjointFields(old(ctrl), TxBufFirst, val);
    }

    /** The last descriptor of the transaction (bit 3 of ctrl). */
    function Last(): (r: bv8)
      reads this
      ensures r <= 1
      ensures r == Get8(ctrl, TxBufLast)
    {
      (ctrl & TxBufDescLastMask) >> TxBufDescLastShift
    }

    /** ORs the value, truncated to the field's width, into the field; clears nothing. */
    method SetLast(val: bv8)
      modifies this`ctrl
      ensures ctrl == Set8(old(ctrl), TxBufLast, val)
      ensures Last() == old(Last()) | (val & 1)
      ensures forall g: Field8 :: TxBufLast.Disjoint(g) ==> Get8(ctrl, g) == Get8(old(ctrl), g)
    {
      ctrl := ctrl | ((val << TxBufDescLastShift) & TxBufDescLastMask);
      Get8OfSet8(old(ctrl), TxBufLast, val);
      Set8PreservesDisjointFields(old(ctrl), TxBufLast, val);
    }

    /** The buffer address bits 47:32 (bits 15:0 of buf_addr_hi). */
    function BufAddrHi(): (r: bv32)
      reads this
      ensures r <= 0xFFFF
      ensures r == Get32(bufAddrHi, TxBufAddrHi)
    {
      bufAddrHi & TxBufDescBufAddrHiMask
    }

    /** ORs the value, truncated to the field's width, into the field; clears nothing. */
    method SetBufAddrHi(val: bv32)
      modifies this`bufAddrHi
      ensures bufAddrHi == Set32(old(bufAddrHi), TxBufAddrHi, val)
      ensures Get32(bufAddrHi, TxBufAddrHi) == Get32(old(bufAddrHi), TxBufAddrHi) | (val & 0xFFFF)
      ensures Get32(bufAddrHi, TxBufAddrHiReserved) == Get32(old(bufAddrHi), TxBufAddrHiReserved)
    {
      var x := bufAddrHi;
      TxBufAddrHiSetBits(x, val);
      TxBufAddrHiConcrete(x);
      TxBufAddrHiConcrete(Set32(x, TxBufAddrHi, val));
      bufAddrHi := x | (val & TxBufDescBufAddrHiMask);
    }

    /**
     * The buffer address the descriptor describes: bits 47:32 from buf_addr_hi
     * above the 32 bits of buf_addr_lo, so no address of 2^48 or more fits.
     */
    function BufferAddress(): (a: nat)
      reads this
      ensures a < 0x1_0000_0000_0000
      ensures a % 0x1_0000_0000 == bufAddrLo as nat
      ensures a / 0x1_0000_0000 == BufAddrHi() as nat
    {
      HalfWordBound(BufAddrHi());
      Address48(BufAddrHi() as nat, bufAddrLo as nat)
    }
  }

  /** The remote memory address of an RDMA operation (reserved for a later device version). */
  class RemoteMemAddr {
    var length: bv16  // length in bytes
    var ctrl1: bv8  // meta_extension, meta_desc
    var ctrl: bv8  // phase, first, last
    var rkey: bv32  // remote memory translation key
    var bufAddrLo: bv32  // buffer address bits 31:0
    var bufAddrHi: bv32  // buffer address bits 63:32

    /** A zero-filled descriptor, as callers prepare one before filling it in; whether it already meets the must-be rules is stated too. */
    constructor ()
      ensures length == 0
      ensures ctrl1 == 0
      ensures ctrl == 0
      ensures rkey == 0
      ensures bufAddrLo == 0
      ensures bufAddrHi == 0
      ensures !WellFormed()
    {
      length, ctrl1, ctrl, rkey, bufAddrLo, bufAddrHi := 0, 0, 0, 0, 0, 0;
    }

    /** The "must be set" and "must be zero" rules of the control words. */
    predicate WellFormed()
      reads this
    {
      RemoteCtrl1WellFormed(ctrl1) && RemoteCtrlWellFormed(ctrl)
    }

    /** The extended metadata, must be set (bit 6 of ctrl1). */
    function MetaExtension(): (r: bv8)
      reads this
      ensures r <= 1
      ensures r == Get8(ctrl1, RemoteMetaExtension)
    {
      (ctrl1 & RemoteMemAddrMetaExtensionMask) >> RemoteMemAddrMetaExtensionShift
    }

    /** ORs the value, truncated to the field's width, into the field; clears nothing. */
    method SetMetaExtension(val: bv8)
      modifies this`ctrl1
      ensures ctrl1 == Set8(old(ctrl1), RemoteMetaExtension, val)
      ensures MetaExtension() == old(MetaExtension()) | (val & 1)
      ensures forall g: Field8 :: RemoteMetaExtension.Disjoint(g) ==> Get8(ctrl1, g) == Get8(old(ctrl1), g)
    {
      ctrl1 := ctrl1 | ((val << RemoteMemAddrMetaExtensionShift) & RemoteMemAddrMetaExtensionMask);
      Get8OfSet8(old(ctrl1), RemoteMetaExtension, val);
      Set8PreservesDisjointFields(old(ctrl1), RemoteMetaExtension, val);
    }

    /** The meta descriptor flag, must be set (bit 7 of ctrl1). */
    function MetaDesc(): (r: bv8)
      reads this
      ensures r <= 1
      ensures r == Get8(ctrl1, RemoteMetaDesc)
    {
      (ctrl1 & RemoteMemAddrMetaDescMask) >> RemoteMemAddrMetaDescShift
    }

    /** ORs the value, truncated to the field's width, into the field; clears nothing. */
    method SetMetaDesc(val: bv8)
      modifies this`ctrl1
      ensures ctrl1 == Set8(old(ctrl1), RemoteMetaDesc, val)
      ensures MetaDesc() == old(MetaDesc()) | (val & 1)
      ensures forall g: Field8 :: RemoteMetaDesc.Disjoint(g) ==> Get8(ctrl1, g) == Get8(old(ctrl1), g)
    {
      ctrl1 := ctrl1 | ((val << RemoteMemAddrMetaDescShift) & RemoteMemAddrMetaDescMask);
      Get8OfSet8(old(ctrl1), RemoteMetaDesc, val);
      Set8PreservesDisjointFields(old(ctrl1), RemoteMetaDesc, val);
    }

    /** The phase bit (bit 0 of ctrl). */
    function Phase(): (r: bv8)
      reads this
      ensures r <= 1
      ensures r == Get8(ctrl, RemotePhase)
    {
      ctrl & RemoteMemAddrPhaseMask
    }

    /** ORs the value, truncated to the field's width, into the field; clears nothing. */
    method SetPhase(val: bv8)
      modifies this`ctrl
      ensures ctrl == Set8(old(ctrl), RemotePhase, val)
      ensures Phase() == old(Phase()) | (val & 1)
      ensures forall g: Field8 :: RemotePhase.Disjoint(g) ==> Get8(ctrl, g) == Get8(old(ctrl), g)
    {
      ctrl := ctrl | (val & RemoteMemAddrPhaseMask);
      Get8OfSet8(old(ctrl), RemotePhase, val);
      Set8PreservesDisjointFields(old(ctrl), RemotePhase, val);
    }

    /** The first descriptor flag, must be zero here (bit 2 of ctrl). */
    function First(): (r: bv8)
      reads this
      ensures r <= 1
      ensures r == Get8(ctrl, RemoteFirst)
    {
      (ctrl & RemoteMemAddrFirstMask) >> RemoteMemAddrFirstShift
    }

    /** ORs the value, truncated to the field's width, into the field; clears nothing. */
    method SetFirst(val: bv8)
      modifies this`ctrl
      ensures ctrl == Set8(old(ctrl), RemoteFirst, val)
      ensures First() == old(First()) | (val & 1)
      ensures forall g: Field8 :: RemoteFirst.Disjoint(g) ==> Get8(ctrl, g) == Get8(old(ctrl), g)
    {
      ctrl := ctrl | ((val << RemoteMemAddrFirstShift) & RemoteMemAddrFirstMask);
      Get8OfSet8(old(ctrl), RemoteFirst, val);
      Set8PreservesDisjointFields(old(ctrl), RemoteFirst, val);
    }

    /** The last descriptor of the transaction (bit 3 of ctrl). */
    function Last(): (r: bv8)
      reads this
      ensures r <= 1
      ensures r == Get8(ctrl, RemoteLast)
    {
      (ctrl & RemoteMemAddrLastMask) >> RemoteMemAddrLastShift
    }

    /** ORs the value, truncated to the field's width, into the field; clears nothing. */
    method SetLast(val: bv8)
      modifies this`ctrl
      ensures ctrl == Set8(old(ctrl), RemoteLast, val)
      ensures Last() == old(Last()) | (val & 1)
      ensures forall g: Field8 :: RemoteLast.Disjoint(g) ==> Get8(ctrl, g) == Get8(old(ctrl), g)
    {
      ctrl := ctrl | ((val << RemoteMemAddrLastShift) & RemoteMemAddrLastMask);
      Get8OfSet8(old(ctrl), RemoteLast, val);
      Set8PreservesDisjointFields(old(ctrl), RemoteLast, val);
    }
  }

  /** An rx buffer descriptor; an rx WQE is one or more of them. */
  class RxDesc {
    var bufAddrLo: bv32  // buffer address bits 31:0
    var bufAddrHi: bv32  // buffer address bits 63:32
    var reqId: bv16  // request id chosen by the driver
    var length: bv16  // length in bytes
    var lkeyCtrl: bv32  // lkey in bits 23:0, first in bit 30, last in bit 31

    /** A zero-filled descriptor, as callers prepare one before filling it in; whether it already meets the must-be rules is stated too. */
    constructor ()
      ensures bufAddrLo == 0
      ensures bufAddrHi == 0
      ensures reqId == 0
      ensures length == 0
      ensures lkeyCtrl == 0
      ensures WellFormed()
    {
      bufAddrLo, bufAddrHi, reqId, length, lkeyCtrl := 0, 0, 0, 0, 0;
    }

    /** The "must be set" and "must be zero" rules of the control words. */
    predicate WellFormed()
      reads this
    {
      RxLkeyCtrlWellFormed(lkeyCtrl)
    }

    /** The local key (bits 23:0 of lkey_ctrl). */
    function Lkey(): (r: bv32)
      reads this
      ensures r < 0x100_0000
      ensures r == Get32(lkeyCtrl, RxLkey)
    {
      lkeyCtrl & RxDescLkeyMask
    }

    /** ORs the value, truncated to the field's width, into the field; clears nothing. */
    method SetLkey(val: bv32)
      modifies this`lkeyCtrl
      ensures lkeyCtrl == Set32(old(lkeyCtrl), RxLkey, val)
      ensures Get32(lkeyCtrl, RxLkey) == Get32(old(lkeyCtrl), RxLkey) | (val & 0xFF_FFFF)
      ensures Get32(lkeyCtrl, RxReserved) == Get32(old(lkeyCtrl), RxReserved)
      ensures Get32(lkeyCtrl, RxFirst) == Get32(old(lkeyCtrl), RxFirst)
      ensures Get32(lkeyCtrl, RxLast) == Get32(old(lkeyCtrl), RxLast)
    {
      var x := lkeyCtrl;
      RxLkeySetBits(x, val);
      RxLkeyCtrlConcrete(x);
      RxLkeyCtrlConcrete(Set32(x, RxLkey, val));
      lkeyCtrl := x | (val & RxDescLkeyMask);
    }

    /** The first descriptor of the WQE (bit 30 of lkey_ctrl). */
    function First(): (r: bv32)
      reads this
      ensures r <= 1
      ensures r == Get32(lkeyCtrl, RxFirst)
    {
      (lkeyCtrl & RxDescFirstMask) >> RxDescFirstShift
    }

    /** ORs the value, truncated to the field's width, into the field; clears nothing. */
    method SetFirst(val: bv32)
      modifies this`lkeyCtrl
      ensures lkeyCtrl == Set32(old(lkeyCtrl), RxFirst, val)
      ensures Get32(lkeyCtrl, RxFirst) == Get32(old(lkeyCtrl), RxFirst) | (val & 1)
      ensures Get32(lkeyCtrl, RxLkey) == Get32(old(lkeyCtrl), RxLkey)
      ensures Get32(lkeyCtrl, RxReserved) == Get32(old(lkeyCtrl), RxReserved)
      ensures Get32(lkeyCtrl, RxLast) == Get32(old(lkeyCtrl), RxLast)
    {
      var x := lkeyCtrl;
      RxFirstHeaderForm(x, val);
      RxFirstSetBits(x, val);
      RxLkeyCtrlConcrete(x);
      RxLkeyCtrlConcrete(Set32(x, RxFirst, val));
      lkeyCtrl := x | ((val << RxDescFirstShift) & RxDescFirstMask);
    }

    /** The last descriptor of the WQE (bit 31 of lkey_ctrl). */
    function Last(): (r: bv32)
      reads this
      ensures r <= 1
      ensures r == Get32(lkeyCtrl, RxLast)
    {
      (lkeyCtrl & RxDescLastMask) >> RxDescLastShift
    }

    /** ORs the value, truncated to the field's width, into the field; clears nothing. */
    method SetLast(val: bv32)
      modifies this`lkeyCtrl
      ensures lkeyCtrl == Set32(old(lkeyCtrl), RxLast, val)
      ensures Get32(lkeyCtrl, RxLast) == Get32(old(lkeyCtrl), RxLast) | (val & 1)
      ensures Get32(lkeyCtrl, RxLkey) == Get32(old(lkeyCtrl), RxLkey)
      ensures Get32(lkeyCtrl, RxReserved) == Get32(old(lkeyCtrl), RxReserved)
      ensures Get32(lkeyCtrl, RxFirst) == Get32(old(lkeyCtrl), RxFirst)
    {
      var x := lkeyCtrl;
      RxLastHeaderForm(x, val);
      RxLastSetBits(x, val);
      RxLkeyCtrlConcrete(x);
      RxLkeyCtrlConcrete(Set32(x, RxLast, val));
      lkeyCtrl := x | ((val << RxDescLastShift) & RxDescLastMask);
    }
  }

  /** The header common to every completion descriptor. */
  class CdescCommon {
    var reqId: bv16  // request id of the completed tx or rx descriptor
    var status: bv8  // completion status code
    var flags: bv8  // phase, q_type, has_imm, wide_completion
    var qpNum: bv16  // local QP number
    var length: bv16  // transferred length

    /** A zero-filled descriptor, as callers prepare one before filling it in. */
    constructor ()
      ensures reqId == 0
      ensures status == 0
      ensures flags == 0
      ensures qpNum == 0
      ensures length == 0
    {
      reqId, status, flags, qpNum, length := 0, 0, 0, 0, 0;
    }

    /** The phase bit (bit 0 of flags). */
    function Phase(): (r: bv8)
      reads this
      ensures r <= 1
      ensures r == Get8(flags, CdescPhase)
    {
      flags & CdescCommonPhaseMask
    }

    /** ORs the value, truncated to the field's width, into the field; clears nothing. */
    method SetPhase(val: bv8)
      modifies this`flags
      ensures flags == Set8(old(flags), CdescPhase, val)
      ensures Phase() == old(Phase()) | (val & 1)
      ensures forall g: Field8 :: CdescPhase.Disjoint(g) ==> Get8(flags, g) == Get8(old(flags), g)
    {
      flags := flags | (val & CdescCommonPhaseMask);
      Get8OfSet8(old(flags), CdescPhase, val);
      Set8PreservesDisjointFields(old(flags), CdescPhase, val);
    }

    /** The queue type code (bits 2:1 of flags). */
    function QType(): (r: bv8)
      reads this
      ensures r < 4
      ensures r == Get8(flags, CdescQType)
    {
      (flags & CdescCommonQTypeMask) >> CdescCommonQTypeShift
    }

    /** ORs the value, truncated to the field's width, into the field; clears nothing. */
    method SetQType(val: bv8)
      modifies this`flags
      ensures flags == Set8(old(flags), CdescQType, val)
      ensures QType() == old(QType()) | (val & 0x3)
      ensures forall g: Field8 :: CdescQType.Disjoint(g) ==> Get8(flags, g) == Get8(old(flags), g)
    {
      flags := flags | ((val << CdescCommonQTypeShift) & CdescCommonQTypeMask);
      Get8OfSet8(old(flags), CdescQType, val);
      Set8PreservesDisjointFields(old(flags), CdescQType, val);
    }

    /** The immediate data present, rx completions only (bit 3 of flags). */
    function HasImm(): (r: bv8)
      reads this
      ensures r <= 1
      ensures r == Get8(flags, CdescHasImm)
    {
      (flags & CdescCommonHasImmMask) >> CdescCommonHasImmShift
    }

    /** ORs the value, truncated to the field's width, into the field; clears nothing. */
    method SetHasImm(val: bv8)
      modifies this`flags
      ensures flags == Set8(old(flags), CdescHasImm, val)
      ensures HasImm() == old(HasImm()) | (val & 1)
      ensures forall g: Field8 :: CdescHasImm.Disjoint(g) ==> Get8(flags, g) == Get8(old(flags), g)
    {
      flags := flags | ((val << CdescCommonHasImmShift) & CdescCommonHasImmMask);
      Get8OfSet8(old(flags), CdescHasImm, val);
      Set8PreservesDisjointFields(old(flags), CdescHasImm, val);
    }

    /** The wide completion format used (bit 4 of flags). */
    function WideCompletion(): (r: bv8)
      reads this
      ensures r <= 1
      ensures r == Get8(flags, CdescWideCompletion)
    {
      (flags & CdescCommonWideCompletionMask) >> CdescCommonWideCompletionShift
    }

    /** ORs the value, truncated to the field's width, into the field; clears nothing. */
    method SetWideCompletion(val: bv8)
      modifies this`flags
      ensures flags == Set8(old(flags), CdescWideCompletion, val)
      ensures WideCompletion() == old(WideCompletion()) | (val & 1)
      ensures forall g: Field8 :: CdescWideCompletion.Disjoint(g) ==> Get8(flags, g) == Get8(old(flags), g)
    {
      flags := flags | ((val << CdescCommonWideCompletionShift) & CdescCommonWideCompletionMask);
      Get8OfSet8(old(flags), CdescWideCompletion, val);
      Set8PreservesDisjointFields(old(flags), CdescWideCompletion, val);
    }
  }

  /** The address whose bits 47:32 are `hi` and whose bits 31:0 are `lo`. */
  function Address48(hi: nat, lo: nat): (a: nat)
    requires hi <= 0xFFFF && lo < 0x1_0000_0000
    ensures a < 0x1_0000_0000_0000
    ensures a % 0x1_0000_0000 == lo
    ensures a / 0x1_0000_0000 == hi
  {
    hi * 0x1_0000_0000 + lo
  }
}
