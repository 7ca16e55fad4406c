/**
 * Registration of a memory range with userfaultfd: the page-aligned range
 * handed to the kernel, and the loop that tries each candidate page size in
 * turn until one is accepted or an error other than EINVAL ends it.
 *
 * The ioctl itself is not modelled: the loops read the outcome of their
 * i-th ioctl from a sequence given as input, and report the request they
 * passed to it.
 */
module Uffd {
  import opened Alignment

  const Two64: nat := 0x1_0000_0000_0000_0000

  /** uint64_t / __u64 */
  type u64 = n: nat | n < Two64

  /** A page size held in a `long`: positive and below 2^63. */
  type PageSize = n: nat | 0 < n < 0x8000_0000_0000_0000 witness 4096

  /** A value of errno after a failed call. */
  type Errno = n: int | n > 0 witness 1

  /** Invalid argument, the errno a page size the range does not suit is refused with. */
  const EINVAL: Errno := 22

  /** The only registration mode used: report faults on missing pages. */
  const ModeMissing: u64 := 1

  function MiB(x: nat): nat {
    x * 0x10_0000
  }

  function GiB(x: nat): nat {
    x * 0x4000_0000
  }

  /** The candidate page sizes in the order they are tried; the first is replaced by the system page size at start-up. */
  const DefaultPageSizes: seq<PageSize> := [4096, MiB(2), GiB(1)]

  lemma DefaultPageSizesAscend()
    ensures DefaultPageSizes == [0x1000, 0x20_0000, 0x4000_0000]
    ensures forall i, j :: 0 <= i < j < |DefaultPageSizes| ==> DefaultPageSizes[i] < DefaultPageSizes[j]
  {
  }

  // ---------------------------------------------------------------------
  // The range handed to the kernel
  // ---------------------------------------------------------------------

  datatype UffdioRange = UffdioRange(start: u64, len: u64)

  /** Ceiling division: the number of `b`-sized pieces needed to hold `a`. */
  function DivCeil(a: nat, b: pos): nat {
    (a + b - 1) / b
  }

  lemma DivCeilTimes(a: nat, b: pos)
    ensures DivCeil(a, b) * b == AlignUp(a, b)
  {
    DivMod(a, b);
    var q, r := a / b, a % b;
    if r == 0 {
      DivModUnique(a + b - 1, b, q, b - 1);
    } else {
      assert a + b - 1 == (q + 1) * b + (r - 1);
      DivModUnique(a + b - 1, b, q + 1, r - 1);
    }
  }

  /**
   * The range as the source computes it: the start rounded down to a page
   * boundary, and the length rounded up to whole pages on its own. The
   * length is stored in 64 bits, so a round-up past 2^64 wraps.
   */
  function SetUffdioRange(start: u64, len: u64, pageSize: PageSize): (r: UffdioRange)
    ensures r.start % pageSize == 0 && r.start <= start < r.start + pageSize
    ensures AlignUp(len, pageSize) < Two64 ==> r.len == AlignUp(len, pageSize)
    ensures AlignUp(len, pageSize) >= Two64 ==> r.len == AlignUp(len, pageSize) - Two64
  {
    DivCeilTimes(len, pageSize);
    UffdioRange(AlignDown(start, pageSize), (DivCeil(len, pageSize) * pageSize) % Two64)
  }

  /** The start is the greatest page boundary at or below the requested start. */
  lemma SetUffdioRangeStartIsGreatest(start: u64, len: u64, pageSize: PageSize, m: nat)
    requires m % pageSize == 0 && m <= start
    ensures m <= SetUffdioRange(start, len, pageSize).start
  {
    AlignDownIsGreatest(start, pageSize, m);
  }

  /** Without wrap-around, the length is the least multiple of the page size that holds `len`. */
  lemma SetUffdioRangeLenIsLeast(start: u64, len: u64, pageSize: PageSize, m: nat)
    requires AlignUp(len, pageSize) < Two64
    requires m % pageSize == 0 && len <= m
    ensures SetUffdioRange(start, len, pageSize).len % pageSize == 0
    ensures len <= SetUffdioRange(start, len, pageSize).len <= m
  {
    AlignUpIsLeast(len, pageSize, m);
  }

  /**
   * Rounding the length on its own loses the tail of a range whose start is
   * not page aligned: two bytes from 4095 span two 4 KiB pages, but the range
   * computed covers only the first, so byte 4096 is outside it.
   */
  lemma SetUffdioRangeMissesTail()
    ensures SetUffdioRange(4095, 2, 4096) == UffdioRange(0, 4096)
    ensures var r := SetUffdioRange(4095, 2, 4096); !(4095 + 2 <= r.start + r.len)
  {
    assert AlignDown(4095, 4096) == 0 by {
      DivModUnique(4095, 4096, 0, 4095);
    }
    assert AlignUp(2, 4096) == 4096 by {
      DivModUnique(2, 4096, 0, 2);
      MulDiv(1, 4096);
    }
  }

  /**
   * The page-aligned range that covers every byte of [start, start + len):
   * from the page boundary at or below `start` to the one at or above
   * `start + len`.
   */
  function CoveringRange(start: u64, len: u64, pageSize: PageSize): (r: UffdioRange)
    ensures r.start % pageSize == 0 && r.start <= start < r.start + pageSize
    ensures AlignUp(start + len, pageSize) - r.start < Two64 ==>
      && r.len % pageSize == 0
      && start + len <= r.start + r.len < start + len + pageSize
  {
    var s := AlignDown(start, pageSize);
    var e := AlignUp(start + len, pageSize);
    assert (e - s) % pageSize == 0 by {
      DivMod(s, pageSize);
      DivMod(e, pageSize);
      DivMono(s, e, pageSize);
      assert e - s == (e / pageSize - s / pageSize) * pageSize;
      MulDiv(e / pageSize - s / pageSize, pageSize);
    }
    UffdioRange(s, (e - s) % Two64)
  }

  /** Any page-aligned range that covers [start, start + len) contains the covering range. */
  lemma CoveringRangeIsSmallest(start: u64, len: u64, pageSize: PageSize, lo: nat, hi: nat)
    requires AlignUp(start + len, pageSize) - AlignDown(start, pageSize) < Two64
    requires lo % pageSize == 0 && hi % pageSize == 0
    requires lo <= start && start + len <= hi
    ensures lo <= CoveringRange(start, len, pageSize).start
    ensures CoveringRange(start, len, pageSize).start + CoveringRange(start, len, pageSize).len <= hi
  {
    var s, e := AlignDown(start, pageSize), AlignUp(start + len, pageSize);
    var r := CoveringRange(start, len, pageSize);
    assert r == UffdioRange(s, (e - s) % Two64);
    assert r.len == e - s;
    AlignDownIsGreatest(start, pageSize, lo);
    AlignUpIsLeast(start + len, pageSize, hi);
  }

  /** For a page-aligned start the source's range is already the covering one. */
  lemma CoveringRangeAgreesWhenAligned(start: u64, len: u64, pageSize: PageSize)
    requires start % pageSize == 0
    ensures CoveringRange(start, len, pageSize) == SetUffdioRange(start, len, pageSize)
  {
    AlignIdempotent(start, pageSize);
    DivMod(start, pageSize);
    AlignUpShift(start / pageSize, len, pageSize);
  }

  /** Rounding up commutes with adding a multiple of the alignment. */
  lemma AlignUpShift(k: nat, x: nat, a: pos)
    ensures AlignUp(k * a + x, a) == k * a + AlignUp(x, a)
  {
    MulDiv(k, a);
    DivMod(x, a);
    var q, r := x / a, x % a;
    assert k * a + x == (k + q) * a + r;
    DivModUnique(k * a + x, a, k + q, r);
    if r != 0 {
      assert (k + q + 1) * a == k * a + (q + 1) * a;
    }
  }

  // ---------------------------------------------------------------------
  // The page-size retry protocol
  // ---------------------------------------------------------------------

  /** What one ioctl did: succeeded, or returned -1 and set errno. */
  datatype IoctlResult = IoctlOk | IoctlFailed(errno: Errno)

  /** A refusal that sends the loop on to the next page size. */
  predicate Retryable(o: IoctlResult) {
    o == IoctlFailed(EINVAL)
  }

  /** The index of the first attempt that ends the loop, or |os| when every attempt is refused with EINVAL. */
  function FirstStop(os: seq<IoctlResult>): (k: nat)
    ensures k <= |os|
    ensures forall i :: 0 <= i < k ==> Retryable(os[i])
    ensures k < |os| ==> !Retryable(os[k])
  {
    if os == [] then 0
    else if !Retryable(os[0]) then 0
    else 1 + FirstStop(os[1..])
  }

  /** How many ioctls the loop makes. */
  function AttemptCount(os: seq<IoctlResult>): (n: nat)
    ensures n <= |os|
    ensures |os| > 0 ==> n > 0
  {
    var k := FirstStop(os);
    if k < |os| then k + 1 else |os|
  }

  /**
   * What the loop returns: 0 on the first success, the negated errno of the
   * first error other than EINVAL, and -EINVAL when every page size is refused.
   */
  function RetryResult(os: seq<IoctlResult>): (ret: int)
    requires |os| > 0
    ensures ret <= 0
  {
    var k := FirstStop(os);
    if k == |os| then -(EINVAL as int)
    else if os[k].IoctlOk? then 0
    else -(os[k].errno as int)
  }

  /** The loop returns 0 exactly when some attempt succeeds and every attempt before it was refused with EINVAL. */
  lemma RetryResultZeroIff(os: seq<IoctlResult>)
    requires |os| > 0
    ensures RetryResult(os) == 0 <==>
      exists i :: 0 <= i < |os| && os[i].IoctlOk? && forall j :: 0 <= j < i ==> Retryable(os[j])
  {
    var k := FirstStop(os);
    if RetryResult(os) == 0 {
      assert k < |os| && os[k].IoctlOk?;
    } else {
      forall i | 0 <= i < |os| && os[i].IoctlOk?
        ensures exists j :: 0 <= j < i && !Retryable(os[j])
      {
        assert 0 <= k < i && !Retryable(os[k]);
      }
    }
  }

  /** A negative result is the negated errno of the last attempt made, which failed. */
  lemma RetryResultIsLastErrno(os: seq<IoctlResult>)
    requires |os| > 0
    requires RetryResult(os) != 0
    ensures os[AttemptCount(os) - 1].IoctlFailed?
    ensures RetryResult(os) == -(os[AttemptCount(os) - 1].errno as int)
  {
  }

  /** The attempts before the last one were all refused with EINVAL. */
  lemma AttemptsBeforeLastRefused(os: seq<IoctlResult>, i: nat)
    requires i + 1 < AttemptCount(os)
    ensures os[i] == IoctlFailed(EINVAL)
  {
  }

  /** The request of `ofi_uffd_register`: the range and the registration mode. */
  datatype UffdioRegister = UffdioRegister(range: UffdioRange, mode: u64)

  /**
   * Which range the loops hand to the ioctl: the one `set_uffdio_range`
   * computes, or the corrected covering range.
   */
  datatype RangeRule = SourceRange | CorrectedRange

  function RangeFor(rule: RangeRule, start: u64, len: u64, pageSize: PageSize): UffdioRange {
    match rule
    case SourceRange => SetUffdioRange(start, len, pageSize)
    case CorrectedRange => CoveringRange(start, len, pageSize)
  }

  /**
   * The two rules issue different requests for an unaligned start: for two
   * bytes from 4095 with 4 KiB pages, the first request of either loop is
   * [0, 4096) as the source computes it, and [0, 8192) corrected.
   */
  lemma RangeRulesDisagreeWhenUnaligned()
    ensures RangeFor(SourceRange, 4095, 2, 4096) == UffdioRange(0, 4096)
    ensures RangeFor(CorrectedRange, 4095, 2, 4096) == UffdioRange(0, 8192)
  {
    SetUffdioRangeMissesTail();
    assert AlignDown(4095, 4096) == 0 by {
      DivModUnique(4095, 4096, 0, 4095);
    }
    assert AlignUp(4097, 4096) == 8192 by {
      DivModUnique(4097, 4096, 1, 1);
      MulDiv(2, 4096);
    }
  }

  /**
   * Registers [start, start + len): for each page size in order, builds the
   * aligned range by `rule` and issues the ioctl whose outcome is
   * outcomes[i]. Returns 0 on success, otherwise the negated errno;
   * `requests` is what the ioctls were given.
   */
  method Register(rule: RangeRule, start: u64, len: u64, pageSizes: seq<PageSize>, outcomes: seq<IoctlResult>)
    returns (ret: int, requests: seq<UffdioRegister>)
    requires |pageSizes| > 0 && |outcomes| == |pageSizes|
    ensures ret == RetryResult(outcomes)
    ensures |requests| == AttemptCount(outcomes)
    ensures forall i :: 0 <= i < |requests| ==>
      requests[i] == UffdioRegister(RangeFor(rule, start, len, pageSizes[i]), ModeMissing)
  {
    requests := [];
    var errno: int := 0;
    for i := 0 to |pageSizes|
      invariant |requests| == i
      invariant forall j :: 0 <= j < i ==>
        requests[j] == UffdioRegister(RangeFor(rule, start, len, pageSizes[j]), ModeMissing)
      invariant forall j :: 0 <= j < i ==> Retryable(outcomes[j])
      invariant i > 0 ==> errno == EINVAL
    {
      var pageSize := pageSizes[i];
      var request := UffdioRegister(RangeFor(rule, start, len, pageSize), ModeMissing);
      requests := requests + [request];
      match outcomes[i]
      case IoctlOk =>
        FirstStopAt(outcomes, i);
        return 0, requests;
      case IoctlFailed(e) =>
        errno := e;
        if e != EINVAL {
          FirstStopAt(outcomes, i);
          break;
        }
    }
    ret := -errno;
    NoStopMeansAllRefused(outcomes);
  }

  /**
   * Unregisters [start, start + len) with the same protocol as `Register`:
   * page sizes in order, stop at the first success or at the first error
   * other than EINVAL.
   */
  method Unregister(rule: RangeRule, start: u64, len: u64, pageSizes: seq<PageSize>, outcomes: seq<IoctlResult>)
    returns (ret: int, requests: seq<UffdioRange>)
    requires |pageSizes| > 0 && |outcomes| == |pageSizes|
    ensures ret == RetryResult(outcomes)
    ensures |requests| == AttemptCount(outcomes)
    ensures forall i :: 0 <= i < |requests| ==> requests[i] == RangeFor(rule, start, len, pageSizes[i])
  {
    requests := [];
    var errno: int := 0;
    for i := 0 to |pageSizes|
      invariant |requests| == i
      invariant forall j :: 0 <= j < i ==> requests[j] == RangeFor(rule, start, len, pageSizes[j])
      invariant forall j :: 0 <= j < i ==> Retryable(outcomes[j])
      invariant i > 0 ==> errno == EINVAL
    {
      var pageSize := pageSizes[i];
      var range := RangeFor(rule, start, len, pageSize);
      requests := requests + [range];
      match outcomes[i]
      case IoctlOk =>
        FirstStopAt(outcomes, i);
        return 0, requests;
      case IoctlFailed(e) =>
        errno := e;
        if e != EINVAL {
          FirstStopAt(outcomes, i);
          break;
        }
    }
    ret := -errno;
    NoStopMeansAllRefused(outcomes);
  }

  /**
   * Registering two bytes from 4095 with the single page size 4 KiB, on an
   * ioctl that succeeds: the source's loop asks for [0, 4096), which leaves
   * byte 4096 out, and the corrected loop asks for [0, 8192).
   */
  method RegisterAtUnalignedStart() returns (asWritten: seq<UffdioRegister>, corrected: seq<UffdioRegister>)
    ensures asWritten == [UffdioRegister(UffdioRange(0, 4096), ModeMissing)]
    ensures corrected == [UffdioRegister(UffdioRange(0, 8192), ModeMissing)]
  {
    var ret1, ret2;
    assert AttemptCount([IoctlOk]) == 1;
    ret1, asWritten := Register(SourceRange, 4095, 2, [4096], [IoctlOk]);
    ret2, corrected := Register(CorrectedRange, 4095, 2, [4096], [IoctlOk]);
    RangeRulesDisagreeWhenUnaligned();
  }

  /** If attempts 0..i-1 were refused with EINVAL and attempt i was not, the loop stops at i. */
  lemma {:induction false} FirstStopAt(os: seq<IoctlResult>, i: nat)
    requires i < |os|
    requires forall j :: 0 <= j < i ==> Retryable(os[j])
    requires !Retryable(os[i])
    ensures FirstStop(os) == i
  {
    if i > 0 {
      FirstStopAt(os[1..], i - 1);
    }
  }

  lemma NoStopMeansAllRefused(os: seq<IoctlResult>)
    ensures (forall j :: 0 <= j < |os| ==> Retryable(os[j])) ==> FirstStop(os) == |os|
  {
  }
}
