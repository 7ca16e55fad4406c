/**
 * Byte layouts of the EFA descriptors as the C compiler lays them out:
 * members in declaration order, each at the next offset that is a multiple
 * of its alignment, the whole rounded up to the largest member alignment.
 * A descriptor is packed when no member needed any padding, i.e. its wire
 * format is exactly the concatenation of its members.
 *
 * Scalars have their natural alignment (uintN_t aligned to N/8 bytes), as on
 * the 64-bit ABIs the device is used with.
 */
module EfaIoLayout {
  import opened Alignment
  import opened EfaIoEnums

  /** One member of a struct or alternative of a union, with its size and alignment in bytes. */
  datatype Member = Member(name: string, size: nat, align: pos)

  // ---------------------------------------------------------------------
  // Structs
  // ---------------------------------------------------------------------

  /** The byte count of the members placed back to back. */
  function SumSizes(ms: seq<Member>): nat {
    if ms == [] then 0 else ms[0].size + SumSizes(ms[1..])
  }

  lemma {:induction false} SumSizesSnoc(ms: seq<Member>, m: Member)
    ensures SumSizes(ms + [m]) == SumSizes(ms) + m.size
  {
    if ms == [] {
      assert [] + [m] == [m];
      assert [m][1..] == [];
    } else {
      assert (ms + [m])[1..] == ms[1..] + [m];
      SumSizesSnoc(ms[1..], m);
    }
  }

  /** The offset the compiler gives member `i`: the previous member's end, aligned up. */
  function OffsetOf(ms: seq<Member>, i: nat): (off: nat)
    requires i < |ms|
    ensures off % ms[i].align == 0
  {
    if i == 0 then 0 else AlignUp(OffsetOf(ms, i - 1) + ms[i - 1].size, ms[i].align)
  }

  /** Each member ends at or before the next one starts, and padding before it is less than its alignment. */
  lemma MembersDoNotOverlap(ms: seq<Member>, i: nat)
    requires i + 1 < |ms|
    ensures OffsetOf(ms, i) + ms[i].size <= OffsetOf(ms, i + 1)
    ensures OffsetOf(ms, i + 1) < OffsetOf(ms, i) + ms[i].size + ms[i + 1].align
  {
  }

  /** The strictest alignment among the members, 1 for no members. */
  function MaxAlign(ms: seq<Member>): (a: pos)
    ensures forall i :: 0 <= i < |ms| ==> ms[i].align <= a
  {
    if ms == [] then 1
    else
      var rest := MaxAlign(ms[1..]);
      if ms[0].align > rest then ms[0].align else rest
  }

  /** MaxAlign is 1 for no members and otherwise the alignment of one of them, so it is the least upper bound. */
  lemma {:induction false} MaxAlignIsAttained(ms: seq<Member>)
    ensures ms == [] ==> MaxAlign(ms) == 1
    ensures ms != [] ==> exists i :: 0 <= i < |ms| && ms[i].align == MaxAlign(ms)
  {
    if |ms| > 1 && ms[0].align <= MaxAlign(ms[1..]) {
      MaxAlignIsAttained(ms[1..]);
      var j :| 0 <= j < |ms[1..]| && ms[1..][j].align == MaxAlign(ms[1..]);
      assert ms[j + 1].align == MaxAlign(ms);
    } else if ms != [] {
      assert ms[0].align == MaxAlign(ms);
    }
  }

  /** The end of the last member. */
  function EndOf(ms: seq<Member>): nat {
    if ms == [] then 0 else OffsetOf(ms, |ms| - 1) + ms[|ms| - 1].size
  }

  /** sizeof the struct: its end rounded up to its alignment. */
  function StructSize(ms: seq<Member>): (n: nat)
    ensures EndOf(ms) <= n
    ensures n % MaxAlign(ms) == 0
  {
    AlignUp(EndOf(ms), MaxAlign(ms))
  }

  /** No member needed padding, and nor did the end. */
  predicate Packed(ms: seq<Member>) {
    && (forall i :: 0 <= i < |ms| ==> OffsetOf(ms, i) == SumSizes(ms[..i]))
    && StructSize(ms) == SumSizes(ms)
  }

  /**
   * Placing the members back to back from byte `off`, every member starts at
   * a multiple of its alignment.
   */
  predicate AlignedFrom(ms: seq<Member>, off: nat) {
    ms == [] || (off % ms[0].align == 0 && AlignedFrom(ms[1..], off + ms[0].size))
  }

  lemma {:induction false} AlignedFromPrefixes(ms: seq<Member>, off: nat, i: nat)
    requires AlignedFrom(ms, off) && i < |ms|
    ensures (off + SumSizes(ms[..i])) % ms[i].align == 0
  {
    if i == 0 {
      assert ms[..0] == [];
    } else {
      AlignedFromPrefixes(ms[1..], off + ms[0].size, i - 1);
      assert ms[..i][1..] == ms[1..][..i - 1];
    }
  }

  /**
   * A struct is packed when, placed back to back, every member starts at a
   * multiple of its own alignment and the total is a multiple of the
   * struct's alignment.
   */
  lemma PackedWhenAligned(ms: seq<Member>)
    requires AlignedFrom(ms, 0)
    requires SumSizes(ms) % MaxAlign(ms) == 0
    ensures Packed(ms)
  {
    forall i | 0 <= i < |ms|
      ensures SumSizes(ms[..i]) % ms[i].align == 0
    {
      AlignedFromPrefixes(ms, 0, i);
    }
    OffsetsWhenAligned(ms, |ms|);
    EndIsSum(ms);
    AlignIdempotent(SumSizes(ms), MaxAlign(ms));
  }

  /** When the last member sits at its back-to-back offset, the struct ends at the sum of the sizes. */
  lemma EndIsSum(ms: seq<Member>)
    requires ms != [] ==> OffsetOf(ms, |ms| - 1) == SumSizes(ms[..|ms| - 1])
    ensures EndOf(ms) == SumSizes(ms)
  {
    if ms != [] {
      var n := |ms| - 1;
      assert ms == ms[..n] + [ms[n]];
      SumSizesSnoc(ms[..n], ms[n]);
    }
  }

  lemma {:induction false} OffsetsWhenAligned(ms: seq<Member>, k: nat)
    requires k <= |ms|
    requires forall i :: 0 <= i < |ms| ==> SumSizes(ms[..i]) % ms[i].align == 0
    ensures forall i :: 0 <= i < k ==> OffsetOf(ms, i) == SumSizes(ms[..i])
  {
    if k > 0 {
      OffsetsWhenAligned(ms, k - 1);
      if k == 1 {
        assert ms[..0] == [];
      } else {
        OffsetStep(ms, k - 1);
      }
    }
  }

  /** One member further: if the previous member sat at its back-to-back offset, so does this one. */
  lemma OffsetStep(ms: seq<Member>, i: nat)
    requires 0 < i < |ms|
    requires OffsetOf(ms, i - 1) == SumSizes(ms[..i - 1])
    requires SumSizes(ms[..i]) % ms[i].align == 0
    ensures OffsetOf(ms, i) == SumSizes(ms[..i])
  {
    var end := OffsetOf(ms, i - 1) + ms[i - 1].size;
    assert ms[..i] == ms[..i - 1] + [ms[i - 1]];
    SumSizesSnoc(ms[..i - 1], ms[i - 1]);
    AlignIdempotent(end, ms[i].align);
  }

  // ---------------------------------------------------------------------
  // Members built from the C declarations
  // ---------------------------------------------------------------------

  /** A uintN_t member of `bytes` bytes. */
  function Scalar(name: string, bytes: pos): (m: Member)
    ensures m.size == bytes && m.align == bytes
  {
    Member(name, bytes, bytes)
  }

  /** A member that is itself a struct. */
  function Nested(name: string, ms: seq<Member>): (m: Member)
    ensures m.size == StructSize(ms) && m.align == MaxAlign(ms)
  {
    Member(name, StructSize(ms), MaxAlign(ms))
  }

  /** A member `elem name[count]`. */
  function ArrayOf(name: string, elem: Member, count: nat): (m: Member)
    ensures m.size == elem.size * count && m.align == elem.align
  {
    Member(name, elem.size * count, elem.align)
  }

  /** The size of the largest alternative. */
  function MaxSize(alts: seq<Member>): (n: nat)
    ensures forall i :: 0 <= i < |alts| ==> alts[i].size <= n
    ensures alts != [] ==> exists i :: 0 <= i < |alts| && alts[i].size == n
  {
    if alts == [] then 0
    else
      var rest := MaxSize(alts[1..]);
      if alts[0].size > rest then alts[0].size else rest
  }

  /** sizeof a union: its largest alternative rounded up to its strictest alignment. */
  function UnionSize(alts: seq<Member>): (n: nat)
    ensures forall i :: 0 <= i < |alts| ==> alts[i].size <= n
  {
    AlignUp(MaxSize(alts), MaxAlign(alts))
  }

  /** A member that is a union of the alternatives. */
  function UnionOf(name: string, alts: seq<Member>): (m: Member)
    ensures m.size == UnionSize(alts) && m.align == MaxAlign(alts)
  {
    Member(name, UnionSize(alts), MaxAlign(alts))
  }

  /** Every alternative fills the whole union: none of them leaves trailing bytes undefined. */
  predicate UniformUnion(alts: seq<Member>) {
    forall i :: 0 <= i < |alts| ==> alts[i].size == UnionSize(alts)
  }

  // ---------------------------------------------------------------------
  // The descriptors
  // ---------------------------------------------------------------------

  const TxMetaDescLayout: seq<Member> := [
    Scalar("req_id", 2), Scalar("ctrl1", 1), Scalar("ctrl2", 1), Scalar("dest_qp_num", 2),
    Scalar("len", 2), Scalar("immediate_data", 4), Scalar("ah", 2), Scalar("reserved", 2)
  ]

  const TxBufDescLayout: seq<Member> := [
    Scalar("length", 2), Scalar("ctrl1", 1), Scalar("ctrl", 1), Scalar("lkey", 4),
    Scalar("buf_addr_lo", 4), Scalar("buf_addr_hi", 4)
  ]

  const TxUdMetaLayout: seq<Member> := [
    Scalar("qkey", 4), ArrayOf("reserved", Scalar("", 1), 12)
  ]

  const RemoteMemAddrLayout: seq<Member> := [
    Scalar("length", 2), Scalar("ctrl1", 1), Scalar("ctrl", 1), Scalar("rkey", 4),
    Scalar("buf_addr_lo", 4), Scalar("buf_addr_hi", 4)
  ]

  /** The alternatives of the tx WQE's `u` union. */
  const TxWqeUAlternatives: seq<Member> := [
    Nested("ud", TxUdMetaLayout),
    ArrayOf("srd_padding", Scalar("", 1), 16),
    Nested("rdma_mem_addr", RemoteMemAddrLayout)
  ]

  /** The alternatives of the tx WQE's `data` union. */
  const TxWqeDataAlternatives: seq<Member> := [
    ArrayOf("sgl", Nested("", TxBufDescLayout), TxDescNumBufs),
    ArrayOf("inline_data", Scalar("", 1), TxDescInlineMaxSize)
  ]

  const TxWqeLayout: seq<Member> := [
    Nested("common", TxMetaDescLayout),
    UnionOf("u", TxWqeUAlternatives),
    UnionOf("data", TxWqeDataAlternatives)
  ]

  const RxDescLayout: seq<Member> := [
    Scalar("buf_addr_lo", 4), Scalar("buf_addr_hi", 4), Scalar("req_id", 2),
    Scalar("length", 2), Scalar("lkey_ctrl", 4)
  ]

  const CdescCommonLayout: seq<Member> := [
    Scalar("req_id", 2), Scalar("status", 1), Scalar("flags", 1), Scalar("qp_num", 2),
    Scalar("length", 2)
  ]

  const TxCdescLayout: seq<Member> := [Nested("common", CdescCommonLayout)]

  const RxCdescLayout: seq<Member> := [
    Nested("common", CdescCommonLayout), Scalar("ah", 2), Scalar("src_qp_num", 2),
    Scalar("imm", 4)
  ]

  const RxCdescWideLayout: seq<Member> := [
    Nested("rx_cdesc_base", RxCdescLayout), Scalar("src_addr_0", 4), Scalar("src_addr_1", 4),
    Scalar("src_addr_2", 4), Scalar("src_addr_3", 4)
  ]

  // ---------------------------------------------------------------------
  // Layout facts
  // ---------------------------------------------------------------------

  lemma TxMetaDescAligned()
    ensures TxMetaDescLayout == [
        Member("req_id", 2, 2), Member("ctrl1", 1, 1), Member("ctrl2", 1, 1),
        Member("dest_qp_num", 2, 2), Member("len", 2, 2), Member("immediate_data", 4, 4),
        Member("ah", 2, 2), Member("reserved", 2, 2)
      ]
    ensures AlignedFrom(TxMetaDescLayout, 0)
  {
    assert TxMetaDescLayout == [
        Member("req_id", 2, 2), Member("ctrl1", 1, 1), Member("ctrl2", 1, 1),
        Member("dest_qp_num", 2, 2), Member("len", 2, 2), Member("immediate_data", 4, 4),
        Member("ah", 2, 2), Member("reserved", 2, 2)
      ];
    assert AlignedFrom([Member("reserved", 2, 2)], 14);
    assert AlignedFrom([Member("ah", 2, 2), Member("reserved", 2, 2)], 12);
    assert AlignedFrom([Member("immediate_data", 4, 4), Member("ah", 2, 2), Member("reserved", 2, 2)], 8);
    assert AlignedFrom([
        Member("len", 2, 2), Member("immediate_data", 4, 4), Member("ah", 2, 2),
        Member("reserved", 2, 2)
      ], 6);
    assert AlignedFrom([
        Member("dest_qp_num", 2, 2), Member("len", 2, 2), Member("immediate_data", 4, 4),
        Member("ah", 2, 2), Member("reserved", 2, 2)
      ], 4);
    assert AlignedFrom([
        Member("ctrl2", 1, 1), Member("dest_qp_num", 2, 2), Member("len", 2, 2),
        Member("immediate_data", 4, 4), Member("ah", 2, 2), Member("reserved", 2, 2)
      ], 3);
    assert AlignedFrom([
        Member("ctrl1", 1, 1), Member("ctrl2", 1, 1), Member("dest_qp_num", 2, 2),
        Member("len", 2, 2), Member("immediate_data", 4, 4), Member("ah", 2, 2),
        Member("reserved", 2, 2)
      ], 2);
    assert AlignedFrom([
        Member("req_id", 2, 2), Member("ctrl1", 1, 1), Member("ctrl2", 1, 1),
        Member("dest_qp_num", 2, 2), Member("len", 2, 2), Member("immediate_data", 4, 4),
        Member("ah", 2, 2), Member("reserved", 2, 2)
      ], 0);
  }

  /** The tx meta descriptor is 16 packed bytes: ctrl1 and ctrl2 are bytes 2 and 3, immediate_data is the 4-byte word at byte 8. */
  lemma TxMetaDescIsPacked()
    ensures Packed(TxMetaDescLayout)
    ensures StructSize(TxMetaDescLayout) == 16 && MaxAlign(TxMetaDescLayout) == 4
  {
    TxMetaDescAligned();
    assert SumSizes([
        Member("req_id", 2, 2), Member("ctrl1", 1, 1), Member("ctrl2", 1, 1),
        Member("dest_qp_num", 2, 2), Member("len", 2, 2), Member("immediate_data", 4, 4),
        Member("ah", 2, 2), Member("reserved", 2, 2)
      ]) == 16 && MaxAlign([
        Member("req_id", 2, 2), Member("ctrl1", 1, 1), Member("ctrl2", 1, 1),
        Member("dest_qp_num", 2, 2), Member("len", 2, 2), Member("immediate_data", 4, 4),
        Member("ah", 2, 2), Member("reserved", 2, 2)
      ]) == 4;
    PackedWhenAligned(TxMetaDescLayout);
  }

  lemma TxMetaDescOffsets()
    ensures OffsetOf(TxMetaDescLayout, 1) == 2 && TxMetaDescLayout[1].name == "ctrl1"
    ensures OffsetOf(TxMetaDescLayout, 2) == 3 && TxMetaDescLayout[2].name == "ctrl2"
    ensures OffsetOf(TxMetaDescLayout, 5) == 8 && TxMetaDescLayout[5].name == "immediate_data"
    ensures TxMetaDescLayout[5].size == TxDescImmDataSize
  {
    TxMetaDescAligned();
    TxMetaDescIsPacked();
    assert TxMetaDescLayout[..1] == [Member("req_id", 2, 2)];
    assert SumSizes([Member("req_id", 2, 2)]) == 2;
    assert TxMetaDescLayout[..2] == [Member("req_id", 2, 2), Member("ctrl1", 1, 1)];
    assert SumSizes([Member("req_id", 2, 2), Member("ctrl1", 1, 1)]) == 3;
    assert TxMetaDescLayout[..5] == [
        Member("req_id", 2, 2), Member("ctrl1", 1, 1), Member("ctrl2", 1, 1),
        Member("dest_qp_num", 2, 2), Member("len", 2, 2)
      ];
    assert SumSizes([
        Member("req_id", 2, 2), Member("ctrl1", 1, 1), Member("ctrl2", 1, 1),
        Member("dest_qp_num", 2, 2), Member("len", 2, 2)
      ]) == 8;
  }

  lemma TxBufDescAligned()
    ensures TxBufDescLayout == [
        Member("length", 2, 2), Member("ctrl1", 1, 1), Member("ctrl", 1, 1),
        Member("lkey", 4, 4), Member("buf_addr_lo", 4, 4), Member("buf_addr_hi", 4, 4)
      ]
    ensures AlignedFrom(TxBufDescLayout, 0)
  {
    assert TxBufDescLayout == [
        Member("length", 2, 2), Member("ctrl1", 1, 1), Member("ctrl", 1, 1),
        Member("lkey", 4, 4), Member("buf_addr_lo", 4, 4), Member("buf_addr_hi", 4, 4)
      ];
    assert AlignedFrom([Member("buf_addr_hi", 4, 4)], 12);
    assert AlignedFrom([Member("buf_addr_lo", 4, 4), Member("buf_addr_hi", 4, 4)], 8);
    assert AlignedFrom([Member("lkey", 4, 4), Member("buf_addr_lo", 4, 4), Member("buf_addr_hi", 4, 4)], 4);
    assert AlignedFrom([
        Member("ctrl", 1, 1), Member("lkey", 4, 4), Member("buf_addr_lo", 4, 4),
        Member("buf_addr_hi", 4, 4)
      ], 3);
    assert AlignedFrom([
        Member("ctrl1", 1, 1), Member("ctrl", 1, 1), Member("lkey", 4, 4),
        Member("buf_addr_lo", 4, 4), Member("buf_addr_hi", 4, 4)
      ], 2);
    assert AlignedFrom([
        Member("length", 2, 2), Member("ctrl1", 1, 1), Member("ctrl", 1, 1),
        Member("lkey", 4, 4), Member("buf_addr_lo", 4, 4), Member("buf_addr_hi", 4, 4)
      ], 0);
  }

  /** The tx buffer descriptor is 16 packed bytes: ctrl1 and ctrl are bytes 2 and 3, buf_addr_hi is the word at byte 12. */
  lemma TxBufDescIsPacked()
    ensures Packed(TxBufDescLayout)
    ensures StructSize(TxBufDescLayout) == 16 && MaxAlign(TxBufDescLayout) == 4
  {
    TxBufDescAligned();
    assert SumSizes([
        Member("length", 2, 2), Member("ctrl1", 1, 1), Member("ctrl", 1, 1),
        Member("lkey", 4, 4), Member("buf_addr_lo", 4, 4), Member("buf_addr_hi", 4, 4)
      ]) == 16 && MaxAlign([
        Member("length", 2, 2), Member("ctrl1", 1, 1), Member("ctrl", 1, 1),
        Member("lkey", 4, 4), Member("buf_addr_lo", 4, 4), Member("buf_addr_hi", 4, 4)
      ]) == 4;
    PackedWhenAligned(TxBufDescLayout);
  }

  lemma TxBufDescOffsets()
    ensures OffsetOf(TxBufDescLayout, 1) == 2 && TxBufDescLayout[1].name == "ctrl1"
    ensures OffsetOf(TxBufDescLayout, 2) == 3 && TxBufDescLayout[2].name == "ctrl"
    ensures OffsetOf(TxBufDescLayout, 5) == 12 && TxBufDescLayout[5].name == "buf_addr_hi"
  {
    TxBufDescAligned();
    TxBufDescIsPacked();
    assert TxBufDescLayout[..1] == [Member("length", 2, 2)];
    assert SumSizes([Member("length", 2, 2)]) == 2;
    assert TxBufDescLayout[..2] == [Member("length", 2, 2), Member("ctrl1", 1, 1)];
    assert SumSizes([Member("length", 2, 2), Member("ctrl1", 1, 1)]) == 3;
    assert TxBufDescLayout[..5] == [
        Member("length", 2, 2), Member("ctrl1", 1, 1), Member("ctrl", 1, 1),
        Member("lkey", 4, 4), Member("buf_addr_lo", 4, 4)
      ];
    assert SumSizes([
        Member("length", 2, 2), Member("ctrl1", 1, 1), Member("ctrl", 1, 1),
        Member("lkey", 4, 4), Member("buf_addr_lo", 4, 4)
      ]) == 12;
  }

  lemma TxUdMetaAligned()
    ensures TxUdMetaLayout == [Member("qkey", 4, 4), Member("reserved", 12, 1)]
    ensures AlignedFrom(TxUdMetaLayout, 0)
  {
    assert TxUdMetaLayout == [Member("qkey", 4, 4), Member("reserved", 12, 1)];
    assert AlignedFrom([Member("reserved", 12, 1)], 4);
    assert AlignedFrom([Member("qkey", 4, 4), Member("reserved", 12, 1)], 0);
  }

  /** The UD tx meta is 16 packed bytes: the queue key and 12 reserved bytes. */
  lemma TxUdMetaIsPacked()
    ensures Packed(TxUdMetaLayout)
    ensures StructSize(TxUdMetaLayout) == 16 && MaxAlign(TxUdMetaLayout) == 4
  {
    TxUdMetaAligned();
    assert SumSizes([Member("qkey", 4, 4), Member("reserved", 12, 1)]) == 16 && MaxAlign([Member("qkey", 4, 4), Member("reserved", 12, 1)]) == 4;
    PackedWhenAligned(TxUdMetaLayout);
  }

  lemma TxUdMetaOffsets()
    ensures OffsetOf(TxUdMetaLayout, 1) == 4 && TxUdMetaLayout[1].name == "reserved"
  {
    TxUdMetaAligned();
    TxUdMetaIsPacked();
    assert TxUdMetaLayout[..1] == [Member("qkey", 4, 4)];
    assert SumSizes([Member("qkey", 4, 4)]) == 4;
  }

  lemma RemoteMemAddrAligned()
    ensures RemoteMemAddrLayout == [
        Member("length", 2, 2), Member("ctrl1", 1, 1), Member("ctrl", 1, 1),
        Member("rkey", 4, 4), Member("buf_addr_lo", 4, 4), Member("buf_addr_hi", 4, 4)
      ]
    ensures AlignedFrom(RemoteMemAddrLayout, 0)
  {
    assert RemoteMemAddrLayout == [
        Member("length", 2, 2), Member("ctrl1", 1, 1), Member("ctrl", 1, 1),
        Member("rkey", 4, 4), Member("buf_addr_lo", 4, 4), Member("buf_addr_hi", 4, 4)
      ];
    assert AlignedFrom([Member("buf_addr_hi", 4, 4)], 12);
    assert AlignedFrom([Member("buf_addr_lo", 4, 4), Member("buf_addr_hi", 4, 4)], 8);
    assert AlignedFrom([Member("rkey", 4, 4), Member("buf_addr_lo", 4, 4), Member("buf_addr_hi", 4, 4)], 4);
    assert AlignedFrom([
        Member("ctrl", 1, 1), Member("rkey", 4, 4), Member("buf_addr_lo", 4, 4),
        Member("buf_addr_hi", 4, 4)
      ], 3);
    assert AlignedFrom([
        Member("ctrl1", 1, 1), Member("ctrl", 1, 1), Member("rkey", 4, 4),
        Member("buf_addr_lo", 4, 4), Member("buf_addr_hi", 4, 4)
      ], 2);
    assert AlignedFrom([
        Member("length", 2, 2), Member("ctrl1", 1, 1), Member("ctrl", 1, 1),
        Member("rkey", 4, 4), Member("buf_addr_lo", 4, 4), Member("buf_addr_hi", 4, 4)
      ], 0);
  }

  /** The remote memory address is 16 packed bytes with the same control-byte positions as a tx buffer descriptor. */
  lemma RemoteMemAddrIsPacked()
    ensures Packed(RemoteMemAddrLayout)
    ensures StructSize(RemoteMemAddrLayout) == 16 && MaxAlign(RemoteMemAddrLayout) == 4
  {
    RemoteMemAddrAligned();
    assert SumSizes([
        Member("length", 2, 2), Member("ctrl1", 1, 1), Member("ctrl", 1, 1),
        Member("rkey", 4, 4), Member("buf_addr_lo", 4, 4), Member("buf_addr_hi", 4, 4)
      ]) == 16 && MaxAlign([
        Member("length", 2, 2), Member("ctrl1", 1, 1), Member("ctrl", 1, 1),
        Member("rkey", 4, 4), Member("buf_addr_lo", 4, 4), Member("buf_addr_hi", 4, 4)
      ]) == 4;
    PackedWhenAligned(RemoteMemAddrLayout);
  }

  lemma RemoteMemAddrOffsets()
    ensures OffsetOf(RemoteMemAddrLayout, 1) == 2 && RemoteMemAddrLayout[1].name == "ctrl1"
    ensures OffsetOf(RemoteMemAddrLayout, 2) == 3 && RemoteMemAddrLayout[2].name == "ctrl"
    ensures OffsetOf(RemoteMemAddrLayout, 5) == 12 && RemoteMemAddrLayout[5].name == "buf_addr_hi"
  {
    RemoteMemAddrAligned();
    RemoteMemAddrIsPacked();
    assert RemoteMemAddrLayout[..1] == [Member("length", 2, 2)];
    assert SumSizes([Member("length", 2, 2)]) == 2;
    assert RemoteMemAddrLayout[..2] == [Member("length", 2, 2), Member("ctrl1", 1, 1)];
    assert SumSizes([Member("length", 2, 2), Member("ctrl1", 1, 1)]) == 3;
    assert RemoteMemAddrLayout[..5] == [
        Member("length", 2, 2), Member("ctrl1", 1, 1), Member("ctrl", 1, 1),
        Member("rkey", 4, 4), Member("buf_addr_lo", 4, 4)
      ];
    assert SumSizes([
        Member("length", 2, 2), Member("ctrl1", 1, 1), Member("ctrl", 1, 1),
        Member("rkey", 4, 4), Member("buf_addr_lo", 4, 4)
      ]) == 12;
  }

  lemma TxWqeAligned()
    ensures TxWqeLayout == [Member("common", 16, 4), Member("u", 16, 4), Member("data", 32, 4)]
    ensures AlignedFrom(TxWqeLayout, 0)
  {
    TxMetaDescIsPacked();
    TxWqeUnionsAreUniform();
    assert TxWqeLayout == [Member("common", 16, 4), Member("u", 16, 4), Member("data", 32, 4)];
    assert AlignedFrom([Member("data", 32, 4)], 32);
    assert AlignedFrom([Member("u", 16, 4), Member("data", 32, 4)], 16);
    assert AlignedFrom([Member("common", 16, 4), Member("u", 16, 4), Member("data", 32, 4)], 0);
  }

  /** The tx WQE is 64 packed bytes: the meta descriptor, the 16-byte u union at byte 16 and the 32-byte data union at byte 32. */
  lemma TxWqeIsPacked()
    ensures Packed(TxWqeLayout)
    ensures StructSize(TxWqeLayout) == 64 && MaxAlign(TxWqeLayout) == 4
  {
    TxWqeAligned();
    assert SumSizes([Member("common", 16, 4), Member("u", 16, 4), Member("data", 32, 4)]) == 64 && MaxAlign([Member("common", 16, 4), Member("u", 16, 4), Member("data", 32, 4)]) == 4;
    PackedWhenAligned(TxWqeLayout);
  }

  lemma TxWqeOffsets()
    ensures OffsetOf(TxWqeLayout, 1) == 16 && TxWqeLayout[1].name == "u"
    ensures OffsetOf(TxWqeLayout, 2) == 32 && TxWqeLayout[2].name == "data"
  {
    TxWqeAligned();
    TxWqeIsPacked();
    assert TxWqeLayout[..1] == [Member("common", 16, 4)];
    assert SumSizes([Member("common", 16, 4)]) == 16;
    assert TxWqeLayout[..2] == [Member("common", 16, 4), Member("u", 16, 4)];
    assert SumSizes([Member("common", 16, 4), Member("u", 16, 4)]) == 32;
  }

  lemma RxDescAligned()
    ensures RxDescLayout == [
        Member("buf_addr_lo", 4, 4), Member("buf_addr_hi", 4, 4), Member("req_id", 2, 2),
        Member("length", 2, 2), Member("lkey_ctrl", 4, 4)
      ]
    ensures AlignedFrom(RxDescLayout, 0)
  {
    assert RxDescLayout == [
        Member("buf_addr_lo", 4, 4), Member("buf_addr_hi", 4, 4), Member("req_id", 2, 2),
        Member("length", 2, 2), Member("lkey_ctrl", 4, 4)
      ];
    assert AlignedFrom([Member("lkey_ctrl", 4, 4)], 12);
    assert AlignedFrom([Member("length", 2, 2), Member("lkey_ctrl", 4, 4)], 10);
    assert AlignedFrom([Member("req_id", 2, 2), Member("length", 2, 2), Member("lkey_ctrl", 4, 4)], 8);
    assert AlignedFrom([
        Member("buf_addr_hi", 4, 4), Member("req_id", 2, 2), Member("length", 2, 2),
        Member("lkey_ctrl", 4, 4)
      ], 4);
    assert AlignedFrom([
        Member("buf_addr_lo", 4, 4), Member("buf_addr_hi", 4, 4), Member("req_id", 2, 2),
        Member("length", 2, 2), Member("lkey_ctrl", 4, 4)
      ], 0);
  }

  /** The rx descriptor is 16 packed bytes; lkey_ctrl is the word at byte 12. */
  lemma RxDescIsPacked()
    ensures Packed(RxDescLayout)
    ensures StructSize(RxDescLayout) == 16 && MaxAlign(RxDescLayout) == 4
  {
    RxDescAligned();
    assert SumSizes([
        Member("buf_addr_lo", 4, 4), Member("buf_addr_hi", 4, 4), Member("req_id", 2, 2),
        Member("length", 2, 2), Member("lkey_ctrl", 4, 4)
      ]) == 16 && MaxAlign([
        Member("buf_addr_lo", 4, 4), Member("buf_addr_hi", 4, 4), Member("req_id", 2, 2),
        Member("length", 2, 2), Member("lkey_ctrl", 4, 4)
      ]) == 4;
    PackedWhenAligned(RxDescLayout);
  }

  lemma RxDescOffsets()
    ensures OffsetOf(RxDescLayout, 2) == 8 && RxDescLayout[2].name == "req_id"
    ensures OffsetOf(RxDescLayout, 4) == 12 && RxDescLayout[4].name == "lkey_ctrl"
  {
    RxDescAligned();
    RxDescIsPacked();
    assert RxDescLayout[..2] == [Member("buf_addr_lo", 4, 4), Member("buf_addr_hi", 4, 4)];
    assert SumSizes([Member("buf_addr_lo", 4, 4), Member("buf_addr_hi", 4, 4)]) == 8;
    assert RxDescLayout[..4] == [
        Member("buf_addr_lo", 4, 4), Member("buf_addr_hi", 4, 4), Member("req_id", 2, 2),
        Member("length", 2, 2)
      ];
    assert SumSizes([
        Member("buf_addr_lo", 4, 4), Member("buf_addr_hi", 4, 4), Member("req_id", 2, 2),
        Member("length", 2, 2)
      ]) == 12;
  }

  lemma CdescCommonAligned()
    ensures CdescCommonLayout == [
        Member("req_id", 2, 2), Member("status", 1, 1), Member("flags", 1, 1),
        Member("qp_num", 2, 2), Member("length", 2, 2)
      ]
    ensures AlignedFrom(CdescCommonLayout, 0)
  {
    assert CdescCommonLayout == [
        Member("req_id", 2, 2), Member("status", 1, 1), Member("flags", 1, 1),
        Member("qp_num", 2, 2), Member("length", 2, 2)
      ];
    assert AlignedFrom([Member("length", 2, 2)], 6);
    assert AlignedFrom([Member("qp_num", 2, 2), Member("length", 2, 2)], 4);
    assert AlignedFrom([Member("flags", 1, 1), Member("qp_num", 2, 2), Member("length", 2, 2)], 3);
    assert AlignedFrom([
        Member("status", 1, 1), Member("flags", 1, 1), Member("qp_num", 2, 2),
        Member("length", 2, 2)
      ], 2);
    assert AlignedFrom([
        Member("req_id", 2, 2), Member("status", 1, 1), Member("flags", 1, 1),
        Member("qp_num", 2, 2), Member("length", 2, 2)
      ], 0);
  }

  /** The common completion header is 8 packed bytes: status is byte 2 and flags byte 3. */
  lemma CdescCommonIsPacked()
    ensures Packed(CdescCommonLayout)
    ensures StructSize(CdescCommonLayout) == 8 && MaxAlign(CdescCommonLayout) == 2
  {
    CdescCommonAligned();
    assert SumSizes([
        Member("req_id", 2, 2), Member("status", 1, 1), Member("flags", 1, 1),
        Member("qp_num", 2, 2), Member("length", 2, 2)
      ]) == 8 && MaxAlign([
        Member("req_id", 2, 2), Member("status", 1, 1), Member("flags", 1, 1),
        Member("qp_num", 2, 2), Member("length", 2, 2)
      ]) == 2;
    PackedWhenAligned(CdescCommonLayout);
  }

  lemma CdescCommonOffsets()
    ensures OffsetOf(CdescCommonLayout, 1) == 2 && CdescCommonLayout[1].name == "status"
    ensures OffsetOf(CdescCommonLayout, 2) == 3 && CdescCommonLayout[2].name == "flags"
  {
    CdescCommonAligned();
    CdescCommonIsPacked();
    assert CdescCommonLayout[..1] == [Member("req_id", 2, 2)];
    assert SumSizes([Member("req_id", 2, 2)]) == 2;
    assert CdescCommonLayout[..2] == [Member("req_id", 2, 2), Member("status", 1, 1)];
    assert SumSizes([Member("req_id", 2, 2), Member("status", 1, 1)]) == 3;
  }

  lemma TxCdescAligned()
    ensures TxCdescLayout == [Member("common", 8, 2)]
    ensures AlignedFrom(TxCdescLayout, 0)
  {
    CdescCommonIsPacked();
    assert TxCdescLayout == [Member("common", 8, 2)];
    assert AlignedFrom([Member("common", 8, 2)], 0);
  }

  /** The tx completion is exactly the common completion header. */
  lemma TxCdescIsPacked()
    ensures Packed(TxCdescLayout)
    ensures StructSize(TxCdescLayout) == 8 && MaxAlign(TxCdescLayout) == 2
  {
    TxCdescAligned();
    assert SumSizes([Member("common", 8, 2)]) == 8 && MaxAlign([Member("common", 8, 2)]) == 2;
    PackedWhenAligned(TxCdescLayout);
  }

  lemma RxCdescAligned()
    ensures RxCdescLayout == [
        Member("common", 8, 2), Member("ah", 2, 2), Member("src_qp_num", 2, 2),
        Member("imm", 4, 4)
      ]
    ensures AlignedFrom(RxCdescLayout, 0)
  {
    CdescCommonIsPacked();
    assert RxCdescLayout == [
        Member("common", 8, 2), Member("ah", 2, 2), Member("src_qp_num", 2, 2),
        Member("imm", 4, 4)
      ];
    assert AlignedFrom([Member("imm", 4, 4)], 12);
    assert AlignedFrom([Member("src_qp_num", 2, 2), Member("imm", 4, 4)], 10);
    assert AlignedFrom([Member("ah", 2, 2), Member("src_qp_num", 2, 2), Member("imm", 4, 4)], 8);
    assert AlignedFrom([
        Member("common", 8, 2), Member("ah", 2, 2), Member("src_qp_num", 2, 2),
        Member("imm", 4, 4)
      ], 0);
  }

  /** The rx completion is 16 packed bytes: the common header, then ah, src_qp_num and imm at byte 12. */
  lemma RxCdescIsPacked()
    ensures Packed(RxCdescLayout)
    ensures StructSize(RxCdescLayout) == 16 && MaxAlign(RxCdescLayout) == 4
  {
    RxCdescAligned();
    assert SumSizes([
        Member("common", 8, 2), Member("ah", 2, 2), Member("src_qp_num", 2, 2),
        Member("imm", 4, 4)
      ]) == 16 && MaxAlign([
        Member("common", 8, 2), Member("ah", 2, 2), Member("src_qp_num", 2, 2),
        Member("imm", 4, 4)
      ]) == 4;
    PackedWhenAligned(RxCdescLayout);
  }

  lemma RxCdescOffsets()
    ensures OffsetOf(RxCdescLayout, 1) == 8 && RxCdescLayout[1].name == "ah"
    ensures OffsetOf(RxCdescLayout, 2) == 10 && RxCdescLayout[2].name == "src_qp_num"
    ensures OffsetOf(RxCdescLayout, 3) == 12 && RxCdescLayout[3].name == "imm"
  {
    RxCdescAligned();
    RxCdescIsPacked();
    assert RxCdescLayout[..1] == [Member("common", 8, 2)];
    assert SumSizes([Member("common", 8, 2)]) == 8;
    assert RxCdescLayout[..2] == [Member("common", 8, 2), Member("ah", 2, 2)];
    assert SumSizes([Member("common", 8, 2), Member("ah", 2, 2)]) == 10;
    assert RxCdescLayout[..3] == [Member("common", 8, 2), Member("ah", 2, 2), Member("src_qp_num", 2, 2)];
    assert SumSizes([Member("common", 8, 2), Member("ah", 2, 2), Member("src_qp_num", 2, 2)]) == 12;
  }

  lemma RxCdescWideAligned()
    ensures RxCdescWideLayout == [
        Member("rx_cdesc_base", 16, 4), Member("src_addr_0", 4, 4), Member("src_addr_1", 4, 4),
        Member("src_addr_2", 4, 4), Member("src_addr_3", 4, 4)
      ]
    ensures AlignedFrom(RxCdescWideLayout, 0)
  {
    RxCdescIsPacked();
    assert RxCdescWideLayout == [
        Member("rx_cdesc_base", 16, 4), Member("src_addr_0", 4, 4), Member("src_addr_1", 4, 4),
        Member("src_addr_2", 4, 4), Member("src_addr_3", 4, 4)
      ];
    assert AlignedFrom([Member("src_addr_3", 4, 4)], 28);
    assert AlignedFrom([Member("src_addr_2", 4, 4), Member("src_addr_3", 4, 4)], 24);
    assert AlignedFrom([Member("src_addr_1", 4, 4), Member("src_addr_2", 4, 4), Member("src_addr_3", 4, 4)], 20);
    assert AlignedFrom([
        Member("src_addr_0", 4, 4), Member("src_addr_1", 4, 4), Member("src_addr_2", 4, 4),
        Member("src_addr_3", 4, 4)
      ], 16);
    assert AlignedFrom([
        Member("rx_cdesc_base", 16, 4), Member("src_addr_0", 4, 4), Member("src_addr_1", 4, 4),
        Member("src_addr_2", 4, 4), Member("src_addr_3", 4, 4)
      ], 0);
  }

  /** The wide rx completion is 32 packed bytes: an rx completion followed by the four source-address words. */
  lemma RxCdescWideIsPacked()
    ensures Packed(RxCdescWideLayout)
    ensures StructSize(RxCdescWideLayout) == 32 && MaxAlign(RxCdescWideLayout) == 4
  {
    RxCdescWideAligned();
    assert SumSizes([
        Member("rx_cdesc_base", 16, 4), Member("src_addr_0", 4, 4), Member("src_addr_1", 4, 4),
        Member("src_addr_2", 4, 4), Member("src_addr_3", 4, 4)
      ]) == 32 && MaxAlign([
        Member("rx_cdesc_base", 16, 4), Member("src_addr_0", 4, 4), Member("src_addr_1", 4, 4),
        Member("src_addr_2", 4, 4), Member("src_addr_3", 4, 4)
      ]) == 4;
    PackedWhenAligned(RxCdescWideLayout);
  }

  lemma RxCdescWideOffsets()
    ensures OffsetOf(RxCdescWideLayout, 1) == 16 && RxCdescWideLayout[1].name == "src_addr_0"
    ensures OffsetOf(RxCdescWideLayout, 4) == 28 && RxCdescWideLayout[4].name == "src_addr_3"
  {
    RxCdescWideAligned();
    RxCdescWideIsPacked();
    assert RxCdescWideLayout[..1] == [Member("rx_cdesc_base", 16, 4)];
    assert SumSizes([Member("rx_cdesc_base", 16, 4)]) == 16;
    assert RxCdescWideLayout[..4] == [
        Member("rx_cdesc_base", 16, 4), Member("src_addr_0", 4, 4), Member("src_addr_1", 4, 4),
        Member("src_addr_2", 4, 4)
      ];
    assert SumSizes([
        Member("rx_cdesc_base", 16, 4), Member("src_addr_0", 4, 4), Member("src_addr_1", 4, 4),
        Member("src_addr_2", 4, 4)
      ]) == 28;
  }

  /**
   * Each alternative of the tx WQE's unions fills the whole union: all three
   * forms of `u` are 16 bytes, and both forms of `data` are 32 bytes, which is
   * two buffer descriptors or the maximum inline payload.
   */
  lemma TxWqeUnionsAreUniform()
    ensures UnionSize(TxWqeUAlternatives) == 16 && MaxAlign(TxWqeUAlternatives) == 4
    ensures UniformUnion(TxWqeUAlternatives)
    ensures UnionSize(TxWqeDataAlternatives) == 32 && MaxAlign(TxWqeDataAlternatives) == 4
    ensures UniformUnion(TxWqeDataAlternatives)
    ensures TxWqeDataAlternatives[0].size == TxDescNumBufs * StructSize(TxBufDescLayout)
    ensures TxWqeDataAlternatives[1].size == TxDescInlineMaxSize
  {
    TxUdMetaIsPacked();
    RemoteMemAddrIsPacked();
    TxBufDescIsPacked();
    var u := [Member("ud", 16, 4), Member("srd_padding", 16, 1), Member("rdma_mem_addr", 16, 4)];
    assert TxWqeUAlternatives == u;
    assert MaxSize(u) == 16 && MaxAlign(u) == 4;
    var d := [Member("sgl", 32, 4), Member("inline_data", 32, 1)];
    assert TxWqeDataAlternatives == d;
    assert MaxSize(d) == 32 && MaxAlign(d) == 4;
  }
}
