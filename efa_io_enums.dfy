/**
 * The closed enumerations of the EFA I/O interface (queue type, send
 * operation type, completion status) with their numeric codes, the
 * transmit-descriptor size constants, and a total classification of a
 * completion's 8-bit status byte.
 */
module EfaIoEnums {

  datatype Option<T> = None | Some(value: T)

  /** Buffer descriptors that fit in one tx WQE. */
  const TxDescNumBufs: nat := 2
  /** Largest inline payload of one tx WQE, in bytes. */
  const TxDescInlineMaxSize: nat := 32
  /** Size of the immediate data carried by a send, in bytes. */
  const TxDescImmDataSize: nat := 4

  // ---------------------------------------------------------------------
  // Queue type, as carried in the 2-bit q_type field of a completion
  // ---------------------------------------------------------------------

  datatype QueueType = SendQueue | RecvQueue {
    function Code(): bv8 {
      match this
      case SendQueue => 1
      case RecvQueue => 2
    }
  }

  /** The queue type a code denotes, if any. */
  function QueueTypeOf(code: bv8): (q: Option<QueueType>)
    ensures q.Some? ==> q.value.Code() == code
    ensures q.None? <==> forall t: QueueType :: t.Code() != code
  {
    if code == 1 then Some(SendQueue)
    else if code == 2 then Some(RecvQueue)
    else None
  }

  lemma QueueTypeRoundTrip(t: QueueType)
    ensures QueueTypeOf(t.Code()) == Some(t)
  {
  }

  // ---------------------------------------------------------------------
  // Send operation type, as carried in the 4-bit op_type field
  // ---------------------------------------------------------------------

  /** RdmaRead and RdmaWrite are reserved for a later version of the device. */
  datatype SendOpType = InvalidOp | Send | RdmaRead | RdmaWrite {
    function Code(): bv8 {
      match this
      case InvalidOp => 0
      case Send => 1
      case RdmaRead => 2
      case RdmaWrite => 3
    }
  }

  function SendOpTypeOf(code: bv8): (op: Option<SendOpType>)
    ensures op.Some? ==> op.value.Code() == code
    ensures op.None? <==> forall t: SendOpType :: t.Code() != code
  {
    if code == 0 then Some(InvalidOp)
    else if code == 1 then Some(Send)
    else if code == 2 then Some(RdmaRead)
    else if code == 3 then Some(RdmaWrite)
    else None
  }

  lemma SendOpTypeRoundTrip(t: SendOpType)
    ensures SendOpTypeOf(t.Code()) == Some(t)
  {
  }

  // ---------------------------------------------------------------------
  // Completion status
  // ---------------------------------------------------------------------

  datatype CompStatus =
    | Ok                    // successful completion
    | Flushed               // flushed while the QP was destroyed
    | LocalQpInternalError  // internal QP error
    | LocalInvalidOpType    // bad operation type
    | LocalInvalidAh        // bad address handle
    | LocalInvalidLkey      // lkey not registered or not matching the IOVA
    | LocalBadLength        // message too long
    | RemoteBadAddress      // destination interface down or not running EFA
    | RemoteAbort           // connection reset by the remote side
    | RemoteBadDestQpn      // destination QP missing or in error state
    | RemoteRnr             // receiver not ready: no WQEs posted on its RQ
    | RemoteBadLength       // receiver SGL too short
    | RemoteBadStatus       // unexpected status returned by the responder
  {
    function Code(): bv8 {
      match this
      case Ok => 0
      case Flushed => 1
      case LocalQpInternalError => 2
      case LocalInvalidOpType => 3
      case LocalInvalidAh => 4
      case LocalInvalidLkey => 5
      case LocalBadLength => 6
      case RemoteBadAddress => 7
      case RemoteAbort => 8
      case RemoteBadDestQpn => 9
      case RemoteRnr => 10
      case RemoteBadLength => 11
      case RemoteBadStatus => 12
    }

    predicate IsLocalError() {
      || LocalQpInternalError? || LocalInvalidOpType? || LocalInvalidAh?
      || LocalInvalidLkey? || LocalBadLength?
    }

    predicate IsRemoteError() {
      || RemoteBadAddress? || RemoteAbort? || RemoteBadDestQpn?
      || RemoteRnr? || RemoteBadLength? || RemoteBadStatus?
    }
  }

  /** Every status in code order. */
  const AllStatuses: seq<CompStatus> := [
    Ok, Flushed,
    LocalQpInternalError, LocalInvalidOpType, LocalInvalidAh, LocalInvalidLkey, LocalBadLength,
    RemoteBadAddress, RemoteAbort, RemoteBadDestQpn, RemoteRnr, RemoteBadLength, RemoteBadStatus
  ]

  /** The status a status byte denotes; codes above 12 denote none. */
  function CompStatusOf(code: bv8): (s: Option<CompStatus>)
    ensures s.Some? ==> s.value.Code() == code
    ensures s.None? <==> code > 12
  {
    if code <= 12 then Some(AllStatuses[code as int]) else None
  }

  lemma CompStatusRoundTrip(s: CompStatus)
    ensures CompStatusOf(s.Code()) == Some(s)
  {
  }

  /** The codes are distinct: a status byte identifies at most one status. */
  lemma CompStatusCodeInjective(s: CompStatus, t: CompStatus)
    requires s.Code() == t.Code()
    ensures s == t
  {
    CompStatusRoundTrip(s);
    CompStatusRoundTrip(t);
  }

  datatype StatusClass = ClassOk | ClassFlushed | ClassLocalError | ClassRemoteError | ClassUnrecognised

  /**
   * The class of a raw status byte, defined from the status it denotes; the
   * contract gives the same classes as ranges of codes.
   */
  function Classify(status: bv8): (c: StatusClass)
    ensures c == ClassOk <==> status == 0
    ensures c == ClassFlushed <==> status == 1
    ensures c == ClassLocalError <==> 2 <= status <= 6
    ensures c == ClassRemoteError <==> 7 <= status <= 12
    ensures c == ClassUnrecognised <==> status > 12
  {
    match CompStatusOf(status)
    case None => ClassUnrecognised
    case Some(s) =>
      if s.Ok? then ClassOk
      else if s.Flushed? then ClassFlushed
      else if s.IsLocalError() then ClassLocalError
      else ClassRemoteError
  }

  /** Every recognised status is exactly one of ok, flushed, local error, remote error. */
  lemma StatusKindsPartition(s: CompStatus)
    ensures (if s.Ok? then 1 else 0) + (if s.Flushed? then 1 else 0)
          + (if s.IsLocalError() then 1 else 0) + (if s.IsRemoteError() then 1 else 0) == 1
  {
  }
}
