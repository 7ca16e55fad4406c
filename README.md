# EFA I/O descriptor codec and userfaultfd range registration

A Dafny model of two pieces of libfabric.

**EFA descriptors** (`prov/efa/src/efa_verbs/efa_io_defs.h`): the fixed-size
records the EFA provider exchanges with the device on its work and
completion queues.

- `BitField`: a field is a bit offset and a width inside an 8-bit or
  32-bit control word. `Get8`/`Set8` and `Get32`/`Set32` are the extract and
  insert every accessor performs. Insertion ORs the value, truncated to the
  field's width, into the word: a setter never clears a bit.
- `EfaIoEnums`: the queue type, send operation type and completion status
  enumerations with their codes, a decoder for each that is total over the
  byte, and a classification of the status byte (ok, flushed, local error,
  remote error, unrecognised).
- `EfaIoFields`: the documented position of every control field, the
  header's mask and shift constants (written with 8-bit and 32-bit analogues
  of the kernel's `BIT` and `GENMASK`) proved to match those positions, the proof that the
  fields of each control word partition it, and the "must be set" / "must be
  zero" rules as well-formedness predicates.
- `EfaIoDesc`: the five descriptors that have accessors (tx meta, tx buffer,
  remote memory address, rx, common completion) as classes whose fields are
  the C struct members. Each `get_*` accessor is a function written with the
  header's constants and proved equal to the field extraction; each `set_*`
  accessor is a method that ORs into its control word in place, and states
  the new word, the read-back value and that every other field of the word
  is unchanged.
- `EfaIoLayout`: every struct and union of the header as a list of members
  (name, size, alignment), with the C placement rule, and for each
  descriptor the proof that it has no padding, its size and the offsets of
  its control words.

**userfaultfd registration** (`include/ofi_uffd.h`):

- `Alignment`: rounding down and up to a multiple.
- `Uffd`: the page-aligned range `set_uffdio_range` computes, and the
  `ofi_uffd_register` / `ofi_uffd_unregister` loops. The loops try each
  candidate page size in order and stop at the first success or at the first
  error other than EINVAL. The ioctl is an input: the loops read the
  outcome of their i-th call from a sequence and return, next to the
  result, the requests they issued. A `RangeRule` argument selects whether
  each request carries the range `set_uffdio_range` computes, as the source
  does, or the corrected range of Findings.

## Model

| member | source | states |
|---|---|---|
| `EfaIoDesc.TxMetaDesc.OpType` | prov/efa/src/efa_verbs/efa_io_defs.h:416-419 | get_efa_io_tx_meta_desc_op_type: result bounded by the field width (r < 16) and equal to the field extracted by the documented bit position |
| `EfaIoDesc.TxMetaDesc.SetOpType` | prov/efa/src/efa_verbs/efa_io_defs.h:421-424 | set_efa_io_tx_meta_desc_op_type: ORs the width-masked value into ctrl1 at the documented position; the getter then reads old value OR masked val; only ctrl1 changes, and other fields of the word keep their values |
| `EfaIoDesc.TxMetaDesc.HasImm` | prov/efa/src/efa_verbs/efa_io_defs.h:426-429 | get_efa_io_tx_meta_desc_has_imm: result bounded by the field width (r <= 1) and equal to the field extracted by the documented bit position |
| `EfaIoDesc.TxMetaDesc.SetHasImm` | prov/efa/src/efa_verbs/efa_io_defs.h:431-434 | set_efa_io_tx_meta_desc_has_imm: ORs the width-masked value into ctrl1 at the documented position; the getter then reads old value OR masked val; only ctrl1 changes, and other fields of the word keep their values |
| `EfaIoDesc.TxMetaDesc.InlineMsg` | prov/efa/src/efa_verbs/efa_io_defs.h:436-439 | get_efa_io_tx_meta_desc_inline_msg: result bounded by the field width (r <= 1) and equal to the field extracted by the documented bit position |
| `EfaIoDesc.TxMetaDesc.SetInlineMsg` | prov/efa/src/efa_verbs/efa_io_defs.h:441-444 | set_efa_io_tx_meta_desc_inline_msg: ORs the width-masked value into ctrl1 at the documented position; the getter then reads old value OR masked val; only ctrl1 changes, and other fields of the word keep their values |
| `EfaIoDesc.TxMetaDesc.MetaExtension` | prov/efa/src/efa_verbs/efa_io_defs.h:446-449 | get_efa_io_tx_meta_desc_meta_extension: result bounded by the field width (r <= 1) and equal to the field extracted by the documented bit position |
| `EfaIoDesc.TxMetaDesc.SetMetaExtension` | prov/efa/src/efa_verbs/efa_io_defs.h:451-454 | set_efa_io_tx_meta_desc_meta_extension: ORs the width-masked value into ctrl1 at the documented position; the getter then reads old value OR masked val; only ctrl1 changes, and other fields of the word keep their values |
| `EfaIoDesc.TxMetaDesc.MetaDesc` | prov/efa/src/efa_verbs/efa_io_defs.h:456-459 | get_efa_io_tx_meta_desc_meta_desc: result bounded by the field width (r <= 1) and equal to the field extracted by the documented bit position |
| `EfaIoDesc.TxMetaDesc.SetMetaDesc` | prov/efa/src/efa_verbs/efa_io_defs.h:461-464 | set_efa_io_tx_meta_desc_meta_desc: ORs the width-masked value into ctrl1 at the documented position; the getter then reads old value OR masked val; only ctrl1 changes, and other fields of the word keep their values |
| `EfaIoDesc.TxMetaDesc.Phase` | prov/efa/src/efa_verbs/efa_io_defs.h:466-469 | get_efa_io_tx_meta_desc_phase: result bounded by the field width (r <= 1) and equal to the field extracted by the documented bit position |
| `EfaIoDesc.TxMetaDesc.SetPhase` | prov/efa/src/efa_verbs/efa_io_defs.h:471-474 | set_efa_io_tx_meta_desc_phase: ORs the width-masked value into ctrl2 at the documented position; the getter then reads old value OR masked val; only ctrl2 changes, and other fields of the word keep their values |
| `EfaIoDesc.TxMetaDesc.First` | prov/efa/src/efa_verbs/efa_io_defs.h:476-479 | get_efa_io_tx_meta_desc_first: result bounded by the field width (r <= 1) and equal to the field extracted by the documented bit position |
| `EfaIoDesc.TxMetaDesc.SetFirst` | prov/efa/src/efa_verbs/efa_io_defs.h:481-484 | set_efa_io_tx_meta_desc_first: ORs the width-masked value into ctrl2 at the documented position; the getter then reads old value OR masked val; only ctrl2 changes, and other fields of the word keep their values |
| `EfaIoDesc.TxMetaDesc.Last` | prov/efa/src/efa_verbs/efa_io_defs.h:486-489 | get_efa_io_tx_meta_desc_last: result bounded by the field width (r <= 1) and equal to the field extracted by the documented bit position |
| `EfaIoDesc.TxMetaDesc.SetLast` | prov/efa/src/efa_verbs/efa_io_defs.h:491-494 | set_efa_io_tx_meta_desc_last: ORs the width-masked value into ctrl2 at the documented position; the getter then reads old value OR masked val; only ctrl2 changes, and other fields of the word keep their values |
| `EfaIoDesc.TxMetaDesc.CompReq` | prov/efa/src/efa_verbs/efa_io_defs.h:496-499 | get_efa_io_tx_meta_desc_comp_req: result bounded by the field width (r <= 1) and equal to the field extracted by the documented bit position |
| `EfaIoDesc.TxMetaDesc.SetCompReq` | prov/efa/src/efa_verbs/efa_io_defs.h:501-504 | set_efa_io_tx_meta_desc_comp_req: ORs the width-masked value into ctrl2 at the documented position; the getter then reads old value OR masked val; only ctrl2 changes, and other fields of the word keep their values |
| `EfaIoDesc.TxBufDesc.MetaDesc` | prov/efa/src/efa_verbs/efa_io_defs.h:506-509 | get_efa_io_tx_buf_desc_meta_desc: result bounded by the field width (r <= 1) and equal to the field extracted by the documented bit position |
| `EfaIoDesc.TxBufDesc.SetMetaDesc` | prov/efa/src/efa_verbs/efa_io_defs.h:511-514 | set_efa_io_tx_buf_desc_meta_desc: ORs the width-masked value into ctrl1 at the documented position; the getter then reads old value OR masked val; only ctrl1 changes, and other fields of the word keep their values |
| `EfaIoDesc.TxBufDesc.Phase` | prov/efa/src/efa_verbs/efa_io_defs.h:516-519 | get_efa_io_tx_buf_desc_phase: result bounded by the field width (r <= 1) and equal to the field extracted by the documented bit position |
| `EfaIoDesc.TxBufDesc.SetPhase` | prov/efa/src/efa_verbs/efa_io_defs.h:521-524 | set_efa_io_tx_buf_desc_phase: ORs the width-masked value into ctrl at the documented position; the getter then reads old value OR masked val; only ctrl changes, and other fields of the word keep their values |
| `EfaIoDesc.TxBufDesc.First` | prov/efa/src/efa_verbs/efa_io_defs.h:526-529 | get_efa_io_tx_buf_desc_first: result bounded by the field width (r <= 1) and equal to the field extracted by the documented bit position |
| `EfaIoDesc.TxBufDesc.SetFirst` | prov/efa/src/efa_verbs/efa_io_defs.h:531-534 | set_efa_io_tx_buf_desc_first: ORs the width-masked value into ctrl at the documented position; the getter then reads old value OR masked val; only ctrl changes, and other fields of the word keep their values |
| `EfaIoDesc.TxBufDesc.Last` | prov/efa/src/efa_verbs/efa_io_defs.h:536-539 | get_efa_io_tx_buf_desc_last: result bounded by the field width (r <= 1) and equal to the field extracted by the documented bit position |
| `EfaIoDesc.TxBufDesc.SetLast` | prov/efa/src/efa_verbs/efa_io_defs.h:541-544 | set_efa_io_tx_buf_desc_last: ORs the width-masked value into ctrl at the documented position; the getter then reads old value OR masked val; only ctrl changes, and other fields of the word keep their values |
| `EfaIoDesc.TxBufDesc.BufAddrHi` | prov/efa/src/efa_verbs/efa_io_defs.h:546-549 | get_efa_io_tx_buf_desc_buf_addr_hi: result bounded by the field width (r <= 0xFFFF) and equal to the field extracted by the documented bit position |
| `EfaIoDesc.TxBufDesc.SetBufAddrHi` | prov/efa/src/efa_verbs/efa_io_defs.h:551-554 | set_efa_io_tx_buf_desc_buf_addr_hi: ORs the width-masked value into bufAddrHi at the documented position; the getter then reads old value OR masked val; only bufAddrHi changes, and other fields of the word keep their values |
| `EfaIoDesc.RemoteMemAddr.MetaExtension` | prov/efa/src/efa_verbs/efa_io_defs.h:556-559 | get_efa_io_remote_mem_addr_meta_extension: result bounded by the field width (r <= 1) and equal to the field extracted by the documented bit position |
| `EfaIoDesc.RemoteMemAddr.SetMetaExtension` | prov/efa/src/efa_verbs/efa_io_defs.h:561-564 | set_efa_io_remote_mem_addr_meta_extension: ORs the width-masked value into ctrl1 at the documented position; the getter then reads old value OR masked val; only ctrl1 changes, and other fields of the word keep their values |
| `EfaIoDesc.RemoteMemAddr.MetaDesc` | prov/efa/src/efa_verbs/efa_io_defs.h:566-569 | get_efa_io_remote_mem_addr_meta_desc: result bounded by the field width (r <= 1) and equal to the field extracted by the documented bit position |
| `EfaIoDesc.RemoteMemAddr.SetMetaDesc` | prov/efa/src/efa_verbs/efa_io_defs.h:571-574 | set_efa_io_remote_mem_addr_meta_desc: ORs the width-masked value into ctrl1 at the documented position; the getter then reads old value OR masked val; only ctrl1 changes, and other fields of the word keep their values |
| `EfaIoDesc.RemoteMemAddr.Phase` | prov/efa/src/efa_verbs/efa_io_defs.h:576-579 | get_efa_io_remote_mem_addr_phase: result bounded by the field width (r <= 1) and equal to the field extracted by the documented bit position |
| `EfaIoDesc.RemoteMemAddr.SetPhase` | prov/efa/src/efa_verbs/efa_io_defs.h:581-584 | set_efa_io_remote_mem_addr_phase: ORs the width-masked value into ctrl at the documented position; the getter then reads old value OR masked val; only ctrl changes, and other fields of the word keep their values |
| `EfaIoDesc.RemoteMemAddr.First` | prov/efa/src/efa_verbs/efa_io_defs.h:586-589 | get_efa_io_remote_mem_addr_first: result bounded by the field width (r <= 1) and equal to the field extracted by the documented bit position |
| `EfaIoDesc.RemoteMemAddr.SetFirst` | prov/efa/src/efa_verbs/efa_io_defs.h:591-594 | set_efa_io_remote_mem_addr_first: ORs the width-masked value into ctrl at the documented position; the getter then reads old value OR masked val; only ctrl changes, and other fields of the word keep their values |
| `EfaIoDesc.RemoteMemAddr.Last` | prov/efa/src/efa_verbs/efa_io_defs.h:596-599 | get_efa_io_remote_mem_addr_last: result bounded by the field width (r <= 1) and equal to the field extracted by the documented bit position |
| `EfaIoDesc.RemoteMemAddr.SetLast` | prov/efa/src/efa_verbs/efa_io_defs.h:601-604 | set_efa_io_remote_mem_addr_last: ORs the width-masked value into ctrl at the documented position; the getter then reads old value OR masked val; only ctrl changes, and other fields of the word keep their values |
| `EfaIoDesc.RxDesc.Lkey` | prov/efa/src/efa_verbs/efa_io_defs.h:606-609 | get_efa_io_rx_desc_lkey: result bounded by the field width (r < 0x100_0000) and equal to the field extracted by the documented bit position |
| `EfaIoDesc.RxDesc.SetLkey` | prov/efa/src/efa_verbs/efa_io_defs.h:611-614 | set_efa_io_rx_desc_lkey: ORs the width-masked value into lkeyCtrl at the documented position; the getter then reads old value OR masked val; only lkeyCtrl changes, and other fields of the word keep their values |
| `EfaIoDesc.RxDesc.First` | prov/efa/src/efa_verbs/efa_io_defs.h:616-619 | get_efa_io_rx_desc_first: result bounded by the field width (r <= 1) and equal to the field extracted by the documented bit position |
| `EfaIoDesc.RxDesc.SetFirst` | prov/efa/src/efa_verbs/efa_io_defs.h:621-624 | set_efa_io_rx_desc_first: ORs the width-masked value into lkeyCtrl at the documented position; the getter then reads old value OR masked val; only lkeyCtrl changes, and other fields of the word keep their values |
| `EfaIoDesc.RxDesc.Last` | prov/efa/src/efa_verbs/efa_io_defs.h:626-629 | get_efa_io_rx_desc_last: result bounded by the field width (r <= 1) and equal to the field extracted by the documented bit position |
| `EfaIoDesc.RxDesc.SetLast` | prov/efa/src/efa_verbs/efa_io_defs.h:631-634 | set_efa_io_rx_desc_last: ORs the width-masked value into lkeyCtrl at the documented position; the getter then reads old value OR masked val; only lkeyCtrl changes, and other fields of the word keep their values |
| `EfaIoDesc.CdescCommon.Phase` | prov/efa/src/efa_verbs/efa_io_defs.h:636-639 | get_efa_io_cdesc_common_phase: result bounded by the field width (r <= 1) and equal to the field extracted by the documented bit position |
| `EfaIoDesc.CdescCommon.SetPhase` | prov/efa/src/efa_verbs/efa_io_defs.h:641-644 | set_efa_io_cdesc_common_phase: ORs the width-masked value into flags at the documented position; the getter then reads old value OR masked val; only flags changes, and other fields of the word keep their values |
| `EfaIoDesc.CdescCommon.QType` | prov/efa/src/efa_verbs/efa_io_defs.h:646-649 | get_efa_io_cdesc_common_q_type: result bounded by the field width (r < 4) and equal to the field extracted by the documented bit position |
| `EfaIoDesc.CdescCommon.SetQType` | prov/efa/src/efa_verbs/efa_io_defs.h:651-654 | set_efa_io_cdesc_common_q_type: ORs the width-masked value into flags at the documented position; the getter then reads old value OR masked val; only flags changes, and other fields of the word keep their values |
| `EfaIoDesc.CdescCommon.HasImm` | prov/efa/src/efa_verbs/efa_io_defs.h:656-659 | get_efa_io_cdesc_common_has_imm: result bounded by the field width (r <= 1) and equal to the field extracted by the documented bit position |
| `EfaIoDesc.CdescCommon.SetHasImm` | prov/efa/src/efa_verbs/efa_io_defs.h:661-664 | set_efa_io_cdesc_common_has_imm: ORs the width-masked value into flags at the documented position; the getter then reads old value OR masked val; only flags changes, and other fields of the word keep their values |
| `EfaIoDesc.CdescCommon.WideCompletion` | prov/efa/src/efa_verbs/efa_io_defs.h:666-669 | get_efa_io_cdesc_common_wide_completion: result bounded by the field width (r <= 1) and equal to the field extracted by the documented bit position |
| `EfaIoDesc.CdescCommon.SetWideCompletion` | prov/efa/src/efa_verbs/efa_io_defs.h:671-674 | set_efa_io_cdesc_common_wide_completion: ORs the width-masked value into flags at the documented position; the getter then reads old value OR masked val; only flags changes, and other fields of the word keep their values |
| BitField.Get8 | prov/efa/src/efa_verbs/efa_io_defs.h:416-419 | a field value read from a control byte is below 2^width, and shifted back into place it is exactly the byte's bits under the field's mask |
| BitField.Set8 | prov/efa/src/efa_verbs/efa_io_defs.h:421-424 | a setter only ORs bits in: every bit that was 1 stays 1, and no bit outside the field's mask changes |
| BitField.Set8IsShiftThenMask | prov/efa/src/efa_verbs/efa_io_defs.h:421-424 | the header's `(val << shift) & mask` is the same as inserting val truncated to the field's width |
| BitField.Get8OfSet8 | prov/efa/src/efa_verbs/efa_io_defs.h:416-424 | reading a field after setting it gives its old value ORed with the width-masked new value |
| BitField.Get8OfSet8OnZero | prov/efa/src/efa_verbs/efa_io_defs.h:646-654 | on a zeroed byte the getter returns exactly what the setter wrote, masked to the field's width (q_type gives val & 3, op_type val & 0xF) |
| BitField.Disjoint8Iff | prov/efa/src/efa_verbs/efa_io_defs.h:361-369 | two fields of a byte share no bit position if and only if their masks AND to zero |
| BitField.Set8LeavesDisjoint | prov/efa/src/efa_verbs/efa_io_defs.h:421-434 | setting one field leaves the value of any disjoint field of the same byte unchanged |
| BitField.Set8PreservesDisjointFields | prov/efa/src/efa_verbs/efa_io_defs.h:421-434 | setting a field leaves every field disjoint from it unchanged, for all fields at once |
| BitField.Set8Monotone | prov/efa/src/efa_verbs/efa_io_defs.h:421-424 | after any setter, every bit that was 1 in any field's value is still 1 |
| BitField.Set8Truncates | prov/efa/src/efa_verbs/efa_io_defs.h:431-434 | a value with no bit inside the field's width leaves the byte unchanged |
| BitField.Set8Idempotent | prov/efa/src/efa_verbs/efa_io_defs.h:421-424 | setting the same value twice gives the same byte as setting it once |
| BitField.Get32 | prov/efa/src/efa_verbs/efa_io_defs.h:546-549 | a field value read from a 32-bit control word is below 2^width |
| BitField.Set32 | prov/efa/src/efa_verbs/efa_io_defs.h:551-554 | a 32-bit setter's result is the old word ORed with bits that lie under the field's mask |
| BitField.Set32Frame | prov/efa/src/efa_verbs/efa_io_defs.h:551-554 | a 32-bit setter keeps every bit that was 1 and changes no bit outside the field's mask |
| EfaIoEnums.QueueTypeOf | prov/efa/src/efa_verbs/efa_io_defs.h:40-45 | a code denotes a queue type exactly when some queue type has that code (1 send, 2 recv), and then that one |
| EfaIoEnums.QueueTypeRoundTrip | prov/efa/src/efa_verbs/efa_io_defs.h:40-45 | decoding a queue type's code gives the queue type back |
| EfaIoEnums.SendOpTypeOf | prov/efa/src/efa_verbs/efa_io_defs.h:47-56 | a code denotes a send operation type exactly when one of codes 0..3 has it, and then that one |
| EfaIoEnums.SendOpTypeRoundTrip | prov/efa/src/efa_verbs/efa_io_defs.h:47-56 | decoding a send operation type's code gives it back |
| EfaIoEnums.CompStatusOf | prov/efa/src/efa_verbs/efa_io_defs.h:58-85 | a status byte denotes a completion status exactly when it is at most 12, and then the status with that code |
| EfaIoEnums.CompStatusRoundTrip | prov/efa/src/efa_verbs/efa_io_defs.h:58-85 | decoding a status's code gives the status back |
| EfaIoEnums.CompStatusCodeInjective | prov/efa/src/efa_verbs/efa_io_defs.h:58-85 | no two statuses share a code |
| EfaIoEnums.Classify | prov/efa/src/efa_verbs/efa_io_defs.h:58-85 | every status byte gets one class: 0 ok, 1 flushed, 2..6 local error, 7..12 remote error, anything above 12 unrecognised, each in both directions |
| EfaIoEnums.StatusKindsPartition | prov/efa/src/efa_verbs/efa_io_defs.h:58-85 | every status is exactly one of ok, flushed, a local error, a remote error |
| EfaIoFields.ConstantsMatchTable | prov/efa/src/efa_verbs/efa_io_defs.h:360-413 | every mask and shift constant is the mask and bit offset of the field at the position the struct comments document |
| EfaIoFields.TxMetaCtrl1Partitioned | prov/efa/src/efa_verbs/efa_io_defs.h:92-105 | op_type, has_imm, inline_msg, meta_extension and meta_desc are pairwise disjoint and cover all 8 bits of ctrl1 |
| EfaIoFields.TxMetaCtrl2Partitioned | prov/efa/src/efa_verbs/efa_io_defs.h:107-120 | the fields of the tx meta descriptor's ctrl2 are pairwise disjoint and cover the byte |
| EfaIoFields.TxBufCtrl1Partitioned | prov/efa/src/efa_verbs/efa_io_defs.h:151-156 | reserved16 and meta_desc partition the tx buffer descriptor's ctrl1 |
| EfaIoFields.TxBufCtrlPartitioned | prov/efa/src/efa_verbs/efa_io_defs.h:158-167 | the fields of the tx buffer descriptor's ctrl are pairwise disjoint and cover the byte |
| EfaIoFields.TxBufAddrHiPartitioned | prov/efa/src/efa_verbs/efa_io_defs.h:175-179 | buf_addr_hi bits 15:0 and the reserved bits 31:16 partition the word |
| EfaIoFields.RemoteCtrl1Partitioned | prov/efa/src/efa_verbs/efa_io_defs.h:195-201 | reserved16, meta_extension and meta_desc partition the remote address's ctrl1 |
| EfaIoFields.RemoteCtrlPartitioned | prov/efa/src/efa_verbs/efa_io_defs.h:203-212 | the fields of the remote address's ctrl are pairwise disjoint and cover the byte |
| EfaIoFields.RxLkeyCtrlPartitioned | prov/efa/src/efa_verbs/efa_io_defs.h:268-276 | lkey 23:0, reserved 29:24, first 30 and last 31 partition lkey_ctrl |
| EfaIoFields.CdescFlagsPartitioned | prov/efa/src/efa_verbs/efa_io_defs.h:290-300 | phase, q_type, has_imm, wide_completion and reserved29 partition the completion flags byte |
| EfaIoFields.SetLeavesOtherFields | prov/efa/src/efa_verbs/efa_io_defs.h:361-369 | in a byte whose fields are pairwise disjoint, setting one field leaves every other field's value unchanged |
| EfaIoFields.RxLkeySetBits | prov/efa/src/efa_verbs/efa_io_defs.h:611-614 | the lkey setter's header form inserts val's low 24 bits, reads back old OR new, and leaves reserved 29:24, first and last unchanged |
| EfaIoFields.RxFirstSetBits | prov/efa/src/efa_verbs/efa_io_defs.h:621-624 | the first setter reads back old OR (val & 1) and leaves lkey, reserved 29:24 and last unchanged |
| EfaIoFields.RxLastSetBits | prov/efa/src/efa_verbs/efa_io_defs.h:631-634 | the last setter reads back old OR (val & 1) and leaves lkey, reserved 29:24 and first unchanged |
| EfaIoFields.TxBufAddrHiSetBits | prov/efa/src/efa_verbs/efa_io_defs.h:551-554 | the buf_addr_hi setter inserts only val's low 16 bits and never touches bits 31:16 |
| EfaIoFields.TxMetaCtrl2FromZero | prov/efa/src/efa_verbs/efa_io_defs.h:107-120 | filling a zeroed ctrl2 with phase, comp_req and first = last = 1 gives a byte that meets its must-be rules and reads phase and comp_req back masked to one bit |
| EfaIoFields.TxBufCtrlFromZero | prov/efa/src/efa_verbs/efa_io_defs.h:158-167 | a tx buffer descriptor's ctrl filled from zero with phase and last meets its must-be-zero rules and reads both back |
| EfaIoFields.RemoteCtrl1FromZero | prov/efa/src/efa_verbs/efa_io_defs.h:195-201 | a zeroed remote address ctrl1 breaks the must-be-set rules, and setting meta_extension and meta_desc to 1 meets them |
| EfaIoFields.TxMetaCtrl1FromZero | prov/efa/src/efa_verbs/efa_io_defs.h:92-105 | filling a zeroed ctrl1 with op type, has_imm, inline_msg and meta_desc = 1 gives a byte that meets the must-be rules and reads each value back masked to its width |
| EfaIoFields.TxMetaHasImmTruncates | prov/efa/src/efa_verbs/efa_io_defs.h:431-434 | has_imm keeps only the value's low bit; setting it to 2 leaves ctrl1 unchanged |
| EfaIoFields.MbzViolationPersists | prov/efa/src/efa_verbs/efa_io_defs.h:101-118 | once a must-be-zero field holds a 1, no setter can clear it |
| EfaIoDesc.TxBufDesc.BufferAddress | prov/efa/src/efa_verbs/efa_io_defs.h:172-179 | the buffer address is below 2^48; its low 32 bits are buf_addr_lo and the rest is the buf_addr_hi field |
| EfaIoDesc.Address48 | prov/efa/src/efa_verbs/efa_io_defs.h:172-179 | a 16-bit high part over a 32-bit low part is an address below 2^48 from which both parts are recovered |
| EfaIoLayout.OffsetOf | prov/efa/src/efa_verbs/efa_io_defs.h:88-141 | a struct member is placed at a multiple of its alignment |
| EfaIoLayout.MembersDoNotOverlap | prov/efa/src/efa_verbs/efa_io_defs.h:88-141 | each member ends at or before the next one starts, with less padding between them than the next member's alignment |
| EfaIoLayout.MaxAlign | prov/efa/src/efa_verbs/efa_io_defs.h:88-141 | a struct's alignment is at least that of each member |
| EfaIoLayout.MaxAlignIsAttained | prov/efa/src/efa_verbs/efa_io_defs.h:88-141 | a struct's alignment is 1 with no members and otherwise the alignment of one of them, so it is the strictest member alignment exactly |
| EfaIoLayout.StructSize | prov/efa/src/efa_verbs/efa_io_defs.h:88-141 | sizeof is at least the end of the last member and a multiple of the struct's alignment |
| EfaIoLayout.PackedWhenAligned | prov/efa/src/efa_verbs/efa_io_defs.h:88-141 | if members placed back to back each start at a multiple of their alignment and the total is a multiple of the struct's, the compiler's layout has no padding at all |
| EfaIoLayout.AlignedFromPrefixes | prov/efa/src/efa_verbs/efa_io_defs.h:88-141 | placed back to back, member i's offset (the sum of the sizes before it) is a multiple of its alignment |
| EfaIoLayout.OffsetsWhenAligned | prov/efa/src/efa_verbs/efa_io_defs.h:88-141 | under that condition every member's offset is the sum of the sizes before it |
| EfaIoLayout.MaxSize | prov/efa/src/efa_verbs/efa_io_defs.h:232-249 | the result is at least every alternative's size and is the size of one of them |
| EfaIoLayout.UnionSize | prov/efa/src/efa_verbs/efa_io_defs.h:232-249 | a union is at least as large as each alternative |
| EfaIoLayout.TxMetaDescAligned | prov/efa/src/efa_verbs/efa_io_defs.h:88-141 | the tx meta descriptor's members, in declaration order, each start at a multiple of their alignment when placed back to back |
| EfaIoLayout.TxMetaDescIsPacked | prov/efa/src/efa_verbs/efa_io_defs.h:88-141 | the tx meta descriptor has no padding, is 16 bytes and 4-byte aligned |
| EfaIoLayout.TxMetaDescOffsets | prov/efa/src/efa_verbs/efa_io_defs.h:88-141 | ctrl1 is byte 2, ctrl2 byte 3, immediate_data starts at byte 8 and is EFA_IO_TX_DESC_IMM_DATA_SIZE (4) bytes long |
| EfaIoLayout.TxBufDescAligned | prov/efa/src/efa_verbs/efa_io_defs.h:147-180 | the tx buffer descriptor's members are naturally aligned back to back |
| EfaIoLayout.TxBufDescIsPacked | prov/efa/src/efa_verbs/efa_io_defs.h:147-180 | the tx buffer descriptor has no padding, is 16 bytes and 4-byte aligned |
| EfaIoLayout.TxBufDescOffsets | prov/efa/src/efa_verbs/efa_io_defs.h:147-180 | ctrl1 is byte 2, ctrl byte 3, buf_addr_hi starts at byte 12 |
| EfaIoLayout.TxUdMetaAligned | prov/efa/src/efa_verbs/efa_io_defs.h:183-188 | the UD metadata's members are naturally aligned back to back |
| EfaIoLayout.TxUdMetaIsPacked | prov/efa/src/efa_verbs/efa_io_defs.h:183-188 | the UD metadata has no padding, is 16 bytes and 4-byte aligned |
| EfaIoLayout.TxUdMetaOffsets | prov/efa/src/efa_verbs/efa_io_defs.h:183-188 | the reserved bytes start at byte 4 |
| EfaIoLayout.RemoteMemAddrAligned | prov/efa/src/efa_verbs/efa_io_defs.h:191-222 | the remote address's members are naturally aligned back to back |
| EfaIoLayout.RemoteMemAddrIsPacked | prov/efa/src/efa_verbs/efa_io_defs.h:191-222 | the remote address has no padding, is 16 bytes and 4-byte aligned |
| EfaIoLayout.RemoteMemAddrOffsets | prov/efa/src/efa_verbs/efa_io_defs.h:191-222 | ctrl1 is byte 2, ctrl byte 3, buf_addr_hi starts at byte 12 |
| EfaIoLayout.TxWqeUnionsAreUniform | prov/efa/src/efa_verbs/efa_io_defs.h:228-250 | every alternative of the WQE's `u` union is 16 bytes and every alternative of `data` is 32 bytes, which is two buffer descriptors or the largest inline payload |
| EfaIoLayout.TxWqeAligned | prov/efa/src/efa_verbs/efa_io_defs.h:228-250 | the WQE's meta descriptor and two unions are aligned back to back |
| EfaIoLayout.TxWqeIsPacked | prov/efa/src/efa_verbs/efa_io_defs.h:228-250 | the tx WQE has no padding and is 64 bytes, 4-byte aligned |
| EfaIoLayout.TxWqeOffsets | prov/efa/src/efa_verbs/efa_io_defs.h:228-250 | the `u` union starts at byte 16 and `data` at byte 32 |
| EfaIoLayout.RxDescAligned | prov/efa/src/efa_verbs/efa_io_defs.h:256-277 | the rx descriptor's members are naturally aligned back to back |
| EfaIoLayout.RxDescIsPacked | prov/efa/src/efa_verbs/efa_io_defs.h:256-277 | the rx descriptor has no padding and is 16 bytes, 4-byte aligned |
| EfaIoLayout.RxDescOffsets | prov/efa/src/efa_verbs/efa_io_defs.h:256-277 | req_id is at byte 8 and lkey_ctrl at byte 12 |
| EfaIoLayout.CdescCommonAligned | prov/efa/src/efa_verbs/efa_io_defs.h:280-307 | the common completion descriptor's members are naturally aligned back to back |
| EfaIoLayout.CdescCommonIsPacked | prov/efa/src/efa_verbs/efa_io_defs.h:280-307 | the common completion descriptor has no padding and is 8 bytes, 2-byte aligned |
| EfaIoLayout.CdescCommonOffsets | prov/efa/src/efa_verbs/efa_io_defs.h:280-307 | status is byte 2 and flags byte 3 |
| EfaIoLayout.TxCdescAligned | prov/efa/src/efa_verbs/efa_io_defs.h:310-313 | the tx completion is its common part |
| EfaIoLayout.TxCdescIsPacked | prov/efa/src/efa_verbs/efa_io_defs.h:310-313 | the tx completion has no padding and is 8 bytes |
| EfaIoLayout.RxCdescAligned | prov/efa/src/efa_verbs/efa_io_defs.h:316-328 | the rx completion's members are aligned back to back |
| EfaIoLayout.RxCdescIsPacked | prov/efa/src/efa_verbs/efa_io_defs.h:316-328 | the rx completion has no padding and is 16 bytes, 4-byte aligned |
| EfaIoLayout.RxCdescOffsets | prov/efa/src/efa_verbs/efa_io_defs.h:316-328 | ah is at byte 8, src_qp_num at byte 10, imm at byte 12 |
| EfaIoLayout.RxCdescWideAligned | prov/efa/src/efa_verbs/efa_io_defs.h:331-358 | the wide rx completion's members are aligned back to back |
| EfaIoLayout.RxCdescWideIsPacked | prov/efa/src/efa_verbs/efa_io_defs.h:331-358 | the wide rx completion has no padding and is 32 bytes, 4-byte aligned |
| EfaIoLayout.RxCdescWideOffsets | prov/efa/src/efa_verbs/efa_io_defs.h:331-358 | the source address words start at byte 16 and the last one at byte 28 |
| Alignment.AlignDown | include/ofi_uffd.h:77 | the result is a multiple of the alignment, at most x, and within one alignment of x |
| Alignment.AlignUp | include/ofi_uffd.h:78 | the result is a multiple of the alignment, at least x, and less than one alignment above x |
| Alignment.AlignDownIsGreatest | include/ofi_uffd.h:77 | no multiple of the alignment at or below x is above the rounded-down value |
| Alignment.AlignUpIsLeast | include/ofi_uffd.h:78 | no multiple of the alignment at or above x is below the rounded-up value |
| Alignment.AlignIdempotent | include/ofi_uffd.h:77-78 | a multiple of the alignment is left unchanged by both roundings |
| Uffd.DefaultPageSizesAscend | include/ofi_uffd.h:46-50 | the candidate page sizes are 4 KiB, 2 MiB and 1 GiB, in strictly increasing order |
| Uffd.DivCeilTimes | include/ofi_uffd.h:78 | the ceiling quotient times the page size is the least page multiple that holds len |
| Uffd.SetUffdioRange | include/ofi_uffd.h:73-79 | the start is a page multiple, at most the requested start and within a page of it; the length is len rounded up to whole pages, reduced mod 2^64 when the round-up does not fit |
| Uffd.SetUffdioRangeStartIsGreatest | include/ofi_uffd.h:77 | the start is the greatest page boundary at or below the requested start |
| Uffd.SetUffdioRangeLenIsLeast | include/ofi_uffd.h:78 | without wrap-around the length is the least page multiple at least len |
| Uffd.SetUffdioRangeMissesTail | include/ofi_uffd.h:73-79 | for start 4095, len 2 and 4 KiB pages the range is [0, 4096), which leaves out byte 4096 of the requested bytes |
| Uffd.CoveringRange | include/ofi_uffd.h:73-79 | the corrected range: page-aligned start at most start and within a page of it, and without wrap-around a whole number of pages covering start + len, ending less than a page past it |
| Uffd.CoveringRangeIsSmallest | include/ofi_uffd.h:73-79 | every page-aligned range that covers the requested bytes contains the corrected range |
| Uffd.CoveringRangeAgreesWhenAligned | include/ofi_uffd.h:73-79 | for a page-aligned start the source's range and the corrected one are the same |
| Uffd.FirstStop | include/ofi_uffd.h:91-106 | the index of the first attempt that did not fail with EINVAL: all before it failed with EINVAL, and it (if any) did not |
| Uffd.AttemptCount | include/ofi_uffd.h:91-106 | the loop makes at least one and at most as many ioctls as there are page sizes |
| Uffd.RetryResult | include/ofi_uffd.h:91-106 | the loop's result is never positive |
| Uffd.RetryResultZeroIff | include/ofi_uffd.h:91-106 | the result is 0 exactly when some attempt succeeds and every attempt before it failed with EINVAL |
| Uffd.RetryResultIsLastErrno | include/ofi_uffd.h:99-103 | a non-zero result is the negated errno of the last attempt made, which failed |
| Uffd.AttemptsBeforeLastRefused | include/ofi_uffd.h:99-103 | every attempt before the last one failed with EINVAL |
| Uffd.RangeRulesDisagreeWhenUnaligned | include/ofi_uffd.h:73-79 | for start 4095, len 2 and 4 KiB pages the loops' range under the source's rule is [0, 4096) and under the corrected rule [0, 8192) |
| Uffd.Register | include/ofi_uffd.h:85-107 | returns the protocol's result for the ioctl outcomes; makes exactly that many attempts, the i-th with the missing-page mode and the range the chosen rule (the source's `set_uffdio_range` or the corrected one) gives for the i-th page size |
| Uffd.Unregister | include/ofi_uffd.h:109-130 | the same protocol as Register, each attempt given the chosen rule's range for the i-th page size |
| Uffd.RegisterAtUnalignedStart | include/ofi_uffd.h:85-107 | registering start 4095, len 2 with one 4 KiB page size issues the range [0, 4096) as the source is written and [0, 8192) with the corrected range |

## Left out

- The real `ioctl`, `syscall(__NR_userfaultfd)`, `sysconf` and `close` calls, and `FI_WARN` logging: the ioctl outcomes are a parameter of the loops, and logging is assumed not to change errno.
- `ofi_uffd_init`, `ofi_uffd_close`, `get_page_size` and the update of `page_sizes[0]` to the system page size: the page-size list is a parameter (`DefaultPageSizes` is the array as declared).
- The stubs compiled without `linux/userfaultfd.h`: each only returns an error code.
- The `ioctls` output member of `struct uffdio_register`, which only the kernel writes.
- The EINVAL value (22) and `UFFDIO_REGISTER_MODE_MISSING` (1) come from Linux headers that are not part of this model; their Linux values are used.
- `ofi_div_ceil` is not part of this model: it is taken to be the exact ceiling quotient, without wrap-around in its addition. The product with the page size is reduced mod 2^64, as a store into `__u64` would be.
- `BIT` and `GENMASK` are not part of this model; they are written as 8-bit and 32-bit analogues of the kernel definitions.
- Ring-buffer posting and polling, the doorbell, the descriptor builder and the phase-bit protocol: they are not in these headers.
- Byte order: the layouts give offsets and sizes, not the order of bytes within a multi-byte member.
- Struct layout assumes every `uintN_t` is aligned to N/8 bytes, as on the 64-bit ABIs the device is used with.
- The accessors are guarded by `#if !defined(DEFS_LINUX_MAINLINE)`; the model always includes them.
- Descriptor fields with no accessor (req_id, lengths, keys, addresses) are plain class fields with no operations of their own.
- BitField.Get32: does not state that its result shifted back into place equals the word's bits under the field's mask, as Get8 does, because the solver cannot prove it for a symbolic 32-bit shift; for the four 32-bit fields with accessors, EfaIoFields.RxLkeySetBits, RxFirstSetBits, RxLastSetBits and TxBufAddrHiSetBits state each field's exact bits.

## Findings

| source | as written | input that shows it | evidently intended | confidence | as-written member | corrected member |
|---|---|---|---|---|---|---|
| include/ofi_uffd.h:77-78 | the length is rounded up to whole pages from `len` alone, so when `start` is not page aligned the range can end before `start + len` | start 4095, len 2, page size 4096: range [0, 4096), byte 4096 not covered | the range from the page boundary at or below `start` to the one at or above `start + len` | medium, not executed | Uffd.SetUffdioRangeMissesTail | Uffd.CoveringRange |
