/**
 * The operation envelope of librdkafka (src/rdkafka_op.h): the op kinds, the
 * flag bits that ride on an op's type word and on its flag word, the payload
 * union, and the envelope object itself.
 */
module Op {

  newtype int32 = x: int | -0x8000_0000 <= x < 0x8000_0000
  newtype int64 = x: int | -0x8000_0000_0000_0000 <= x < 0x8000_0000_0000_0000

  datatype Option<+T> = None | Some(value: T)

  /** An opaque, possibly shared reference to an object this model does not
      look into: a buffer, a topic, a partition list, a queue, a client handle,
      a consumer group or a partition context. */
  datatype Ref = Ref(id: nat)

  /** A message as seen by the application: only its identity matters here. */
  datatype MessageRef = MessageRef(id: nat)

  /** rd_kafka_resp_err_t; zero is "no error". */
  type RespErr = int
  const NO_ERROR: RespErr := 0

  // ---------------------------------------------------------------------
  // Flag word bits (rko_flags)
  // ---------------------------------------------------------------------

  const F_FREE: bv32 := 0x1
  const F_FLASH: bv32 := 0x2
  const F_NO_RESPONSE: bv32 := 0x4
  const F_CRC: bv32 := 0x8
  const F_BLOCKING: bv32 := 0x10
  const F_REPROCESS: bv32 := 0x20

  const OpFlags: set<bv32> := {F_FREE, F_FLASH, F_NO_RESPONSE, F_CRC, F_BLOCKING, F_REPROCESS}

  predicate IsSingleBit(f: bv32) {
    f != 0 && f & (f - 1) == 0
  }

  /** Each flag is one bit, and no two flags share a bit. */
  lemma FlagsAreDistinctBits(f: bv32, g: bv32)
    requires f in OpFlags && g in OpFlags
    ensures IsSingleBit(f)
    ensures f != g ==> f & g == 0
  {
  }

  /** Setting or clearing one flag leaves every other flag as it was. */
  lemma FlagUpdateIsLocal(x: bv32, f: bv32, g: bv32)
    requires f in OpFlags && g in OpFlags && f != g
    ensures (x | f) & g == x & g
    ensures (x & !f) & g == x & g
    ensures (x | f) & f == f && (x & !f) & f == 0
  {
    FlagsAreDistinctBits(f, g);
    DisjointMasks(x, f, g);
  }

  lemma DisjointMasks(x: bv32, f: bv32, g: bv32)
    requires f & g == 0
    ensures (x | f) & g == x & g
    ensures (x & !f) & g == x & g
    ensures (x | f) & f == f && (x & !f) & f == 0
  {
    SetKeepsDisjoint(x, f, g);
    ClearKeepsDisjoint(x, f, g);
  }

  lemma SetKeepsDisjoint(x: bv32, f: bv32, g: bv32)
    requires f & g == 0
    ensures (x | f) & g == x & g
  {
  }

  lemma ClearKeepsDisjoint(x: bv32, f: bv32, g: bv32)
    requires f & g == 0
    ensures (x & !f) & g == x & g
  {
  }

  // ---------------------------------------------------------------------
  // Op kinds and the type word (rko_type)
  // ---------------------------------------------------------------------

  /** rd_kafka_op_type_t, in declaration order. */
  datatype OpKind =
    | NoOp | Fetch | Err | ConsumerErr | Dr | Stats
    | MetadataReq | OffsetCommit | NodeUpdate
    | XmitBuf | RecvBuf | XmitRetry | FetchStart | FetchStop | Seek | OffsetFetch
    | PartitionJoin | PartitionLeave | Rebalance | Terminate | CoordQuery
    | Subscribe | Assign | GetSubscription | GetAssignment
    | Throttle | Name | OffsetReset

  /** RD_KAFKA_OP__END: one past the last kind. */
  const OP_END: nat := 28

  /** The numeric value C gives each enumerator: its position in the declaration. */
  function Ordinal(k: OpKind): (c: nat)
    ensures c < OP_END
  {
    match k
    case NoOp => 0
    case Fetch => 1
    case Err => 2
    case ConsumerErr => 3
    case Dr => 4
    case Stats => 5
    case MetadataReq => 6
    case OffsetCommit => 7
    case NodeUpdate => 8
    case XmitBuf => 9
    case RecvBuf => 10
    case XmitRetry => 11
    case FetchStart => 12
    case FetchStop => 13
    case Seek => 14
    case OffsetFetch => 15
    case PartitionJoin => 16
    case PartitionLeave => 17
    case Rebalance => 18
    case Terminate => 19
    case CoordQuery => 20
    case Subscribe => 21
    case Assign => 22
    case GetSubscription => 23
    case GetAssignment => 24
    case Throttle => 25
    case Name => 26
    case OffsetReset => 27
  }

  /** The kind declared at position c, if any. */
  function KindAt(c: int): Option<OpKind> {
    if c == 0 then Some(NoOp)
    else if c == 1 then Some(Fetch)
    else if c == 2 then Some(Err)
    else if c == 3 then Some(ConsumerErr)
    else if c == 4 then Some(Dr)
    else if c == 5 then Some(Stats)
    else if c == 6 then Some(MetadataReq)
    else if c == 7 then Some(OffsetCommit)
    else if c == 8 then Some(NodeUpdate)
    else if c == 9 then Some(XmitBuf)
    else if c == 10 then Some(RecvBuf)
    else if c == 11 then Some(XmitRetry)
    else if c == 12 then Some(FetchStart)
    else if c == 13 then Some(FetchStop)
    else if c == 14 then Some(Seek)
    else if c == 15 then Some(OffsetFetch)
    else if c == 16 then Some(PartitionJoin)
    else if c == 17 then Some(PartitionLeave)
    else if c == 18 then Some(Rebalance)
    else if c == 19 then Some(Terminate)
    else if c == 20 then Some(CoordQuery)
    else if c == 21 then Some(Subscribe)
    else if c == 22 then Some(Assign)
    else if c == 23 then Some(GetSubscription)
    else if c == 24 then Some(GetAssignment)
    else if c == 25 then Some(Throttle)
    else if c == 26 then Some(Name)
    else if c == 27 then Some(OffsetReset)
    else None
  }

  /** A kind's value as it is stored in a type word. */
  function Code(k: OpKind): (w: bv32)
    ensures w as int == Ordinal(k) && w < 28
  {
    Ordinal(k) as bv32
  }

  /** The kind whose value is the type word w, if any. */
  function KindOf(w: bv32): Option<OpKind> {
    KindAt(w as int)
  }

  /** The enumerators are exactly the values below RD_KAFKA_OP__END, one kind each. */
  lemma {:induction false} CodeKindRoundTrip(k: OpKind, w: bv32)
    ensures KindOf(Code(k)) == Some(k)
    ensures KindOf(w).Some? <==> w as int < OP_END
    ensures KindOf(w) == Some(k) ==> Code(k) == w
  {
    KindAtOrdinal(k);
    if w as int < OP_END {
      OrdinalOfKindAt(w as int);
    }
  }

  lemma KindAtOrdinal(k: OpKind)
    ensures KindAt(Ordinal(k)) == Some(k)
  {
  }

  lemma OrdinalOfKindAt(c: int)
    ensures KindAt(c).Some? <==> 0 <= c < OP_END
    ensures KindAt(c).Some? ==> Ordinal(KindAt(c).value) == c
  {
  }

  const CB: bv32 := 1 << 30
  const REPLY: bv32 := 1 << 31
  const FLAGMASK: bv32 := CB | REPLY

  /** CB and REPLY are the two top bits, FLAGMASK is exactly the two of them,
      and every kind's value lies below both. */
  lemma TypeFlagBits()
    ensures IsSingleBit(CB) && IsSingleBit(REPLY) && CB & REPLY == 0
    ensures FLAGMASK == 0xC000_0000
    ensures forall k: OpKind :: Code(k) & FLAGMASK == 0
  {
  }

  /** A type word taken apart: the base kind and the two flag bits. */
  datatype TypeTag = TypeTag(kind: OpKind, cb: bool, reply: bool)

  /** The value stored in rko_type: the kind's value with CB and/or REPLY OR'd on. */
  function TypeWord(tag: TypeTag): (w: bv32)
    ensures w & !FLAGMASK == Code(tag.kind)
    ensures (w & CB != 0) == tag.cb
    ensures (w & REPLY != 0) == tag.reply
  {
    Code(tag.kind) | (if tag.cb then CB else 0) | (if tag.reply then REPLY else 0)
  }

  /** Reads a type word back: clear FLAGMASK to find the kind, test the two flag bits. */
  function DecodeType(w: bv32): (r: Option<TypeTag>)
    ensures r.Some? <==> (w & !FLAGMASK) as int < OP_END
  {
    match KindOf(w & !FLAGMASK)
    case None => None
    case Some(k) => Some(TypeTag(k, w & CB != 0, w & REPLY != 0))
  }

  lemma {:induction false} DecodeEncode(tag: TypeTag)
    ensures DecodeType(TypeWord(tag)) == Some(tag)
  {
    CodeKindRoundTrip(tag.kind, Code(tag.kind));
  }

  lemma {:induction false} EncodeDecode(w: bv32)
    requires DecodeType(w).Some?
    ensures TypeWord(DecodeType(w).value) == w
  {
    var base := w & !FLAGMASK;
    var k := KindOf(base).value;
    CodeKindRoundTrip(k, base);
    assert Code(k) == base;
    assert base | (w & CB) | (w & REPLY) == w;
  }

  /** A type word with CB or REPLY set is never the value of any kind. */
  lemma {:induction false} FlaggedNeverBase(tag: TypeTag, k: OpKind)
    requires tag.cb || tag.reply
    ensures TypeWord(tag) != Code(k)
    ensures KindOf(TypeWord(tag)).None?
  {
    var w := TypeWord(tag);
    assert w & FLAGMASK != 0;
    CodeKindRoundTrip(k, w);
  }

  /** RD_KAFKA_OP_TYPE_ASSERT: the type word equals the given type, flag bits included. */
  predicate TypeAssertHolds(rkoType: bv32, t: bv32) {
    rkoType == t
  }

  /** The type of a plain op of kind k: neither CB nor REPLY set. */
  function Plain(k: OpKind): TypeTag {
    TypeTag(k, false, false)
  }

  /** The assertion for a plain kind holds exactly for that kind with neither flag set. */
  lemma {:induction false} TypeAssertExact(tag: TypeTag, k: OpKind)
    ensures TypeAssertHolds(TypeWord(tag), Code(k)) <==> tag == Plain(k)
  {
    if TypeAssertHolds(TypeWord(tag), Code(k)) {
      DecodeEncode(tag);
      DecodeEncode(TypeTag(k, false, false));
      assert TypeWord(TypeTag(k, false, false)) == Code(k);
    } else {
      assert TypeWord(TypeTag(k, false, false)) == Code(k);
    }
  }

  // ---------------------------------------------------------------------
  // Event kinds (rko_evtype)
  // ---------------------------------------------------------------------

  /** rd_kafka_event_type_t, the public event kinds this core refers to. */
  datatype EventType = EventNone | EventDr | EventFetch | EventError | EventLog | EventRebalance

  /** The numeric value of each event kind; the first four follow the event
      name table, LOG and REBALANCE come after it. */
  function EventCode(t: EventType): nat {
    match t
    case EventNone => 0
    case EventDr => 1
    case EventFetch => 2
    case EventError => 3
    case EventLog => 4
    case EventRebalance => 5
  }

  // ---------------------------------------------------------------------
  // The payload union (rko_u)
  // ---------------------------------------------------------------------

  /** Capacity of the metadata request's reason buffer, and of a node name. */
  const METADATA_REASON_SIZE: nat := 128
  const NODENAME_SIZE: nat := 128

  /** One value per member of rko_u; NoPayload for kinds that use none. A C
      pointer that may be NULL is an Option; a fixed char array is a string. */
  datatype Payload =
    | NoPayload
    | FetchResult(rkbuf: Option<Ref>, rkm: MessageRef, evidx: int)
    | OffsetFetchList(partitions: Option<Ref>, doFree: bool)
    | OffsetCommitList(partitions: Option<Ref>)
    | SubscribeList(topics: Option<Ref>)
    | AssignList(partitions: Option<Ref>)
    | RebalanceList(partitions: Option<Ref>)
    | NameStr(str: Option<string>)
    | ErrInfo(offset: int64, errstr: Option<string>)
    | ThrottleInfo(throttleTime: int32, nodeid: int32, nodename: Option<string>)
    | StatsJson(json: Option<string>, jsonLen: nat)
    | XBuf(rkbuf: Option<Ref>)
    | MetadataInfo(rkt: Option<Ref>, allTopics: bool, reasonBuf: string, metadata: Option<Ref>)
    | DeliveryReport(rkt: Option<Ref>, msgq: seq<MessageRef>, msgq2: seq<MessageRef>, doPurge2: bool)
    | NodeInfo(nodeid: int32, nodenameBuf: string)
    | OffsetResetInfo(offset: int64, reason: Option<string>)
    | FetchStartInfo(offset: int64, rkcg: Option<Ref>)

  /** The union members, by name. */
  datatype Member =
    | NoMember | FetchM | OffsetFetchM | OffsetCommitM | SubscribeM | AssignM
    | RebalanceM | NameM | ErrM | ThrottleM | StatsM | XBufM | MetadataM | DrM
    | NodeM | OffsetResetM | FetchStartM

  function MemberOfPayload(p: Payload): Member {
    match p
    case NoPayload => NoMember
    case FetchResult(_, _, _) => FetchM
    case OffsetFetchList(_, _) => OffsetFetchM
    case OffsetCommitList(_) => OffsetCommitM
    case SubscribeList(_) => SubscribeM
    case AssignList(_) => AssignM
    case RebalanceList(_) => RebalanceM
    case NameStr(_) => NameM
    case ErrInfo(_, _) => ErrM
    case ThrottleInfo(_, _, _) => ThrottleM
    case StatsJson(_, _) => StatsM
    case XBuf(_) => XBufM
    case MetadataInfo(_, _, _, _) => MetadataM
    case DeliveryReport(_, _, _, _) => DrM
    case NodeInfo(_, _) => NodeM
    case OffsetResetInfo(_, _) => OffsetResetM
    case FetchStartInfo(_, _) => FetchStartM
  }

  /** The kinds that carry no payload in the union. */
  const NoPayloadKinds: set<OpKind> :=
    {NoOp, XmitRetry, FetchStop, PartitionJoin, PartitionLeave, Terminate, CoordQuery}

  /** The union member each kind uses: the member named after the kind, or
      the one the header's comment names for a kind that reuses another's. */
  function MemberOf(k: OpKind): (m: Member)
    ensures m == NoMember <==> k in NoPayloadKinds
  {
    match k
    case Fetch => FetchM
    case OffsetFetch => OffsetFetchM
    case OffsetCommit => OffsetCommitM
    case Subscribe | GetSubscription => SubscribeM
    case Assign | GetAssignment => AssignM
    case Rebalance => RebalanceM
    case Name => NameM
    case Err | ConsumerErr => ErrM
    case Throttle => ThrottleM
    case Stats => StatsM
    case XmitBuf | RecvBuf => XBufM
    case MetadataReq => MetadataM
    case Dr => DrM
    case NodeUpdate => NodeM
    case OffsetReset => OffsetResetM
    case FetchStart | Seek => FetchStartM
    case NoOp | XmitRetry | FetchStop | PartitionJoin | PartitionLeave | Terminate | CoordQuery => NoMember
  }

  /** The payload is the member the kind selects. */
  predicate Fits(k: OpKind, p: Payload) {
    MemberOfPayload(p) == MemberOf(k)
  }

  /** The pairs of kinds that reuse one union member. */
  const SharedMembers: set<(OpKind, OpKind)> :=
    {(Err, ConsumerErr), (Subscribe, GetSubscription), (Assign, GetAssignment),
     (XmitBuf, RecvBuf), (FetchStart, Seek)}

  /** Two different kinds share a union member exactly when they are one of the
      five listed pairs. */
  lemma SharedPayloads(a: OpKind, b: OpKind)
    requires a != b
    ensures MemberOf(a) == MemberOf(b) && MemberOf(a) != NoMember
            <==> (a, b) in SharedMembers || (b, a) in SharedMembers
  {
  }

  /** Every member of the union is the payload of some kind. */
  lemma {:induction false} EveryMemberUsed(m: Member)
    ensures m != NoMember ==> exists k :: MemberOf(k) == m
  {
    match m
    case NoMember =>
    case FetchM => assert MemberOf(Fetch) == m;
    case OffsetFetchM => assert MemberOf(OffsetFetch) == m;
    case OffsetCommitM => assert MemberOf(OffsetCommit) == m;
    case SubscribeM => assert MemberOf(Subscribe) == m;
    case AssignM => assert MemberOf(Assign) == m;
    case RebalanceM => assert MemberOf(Rebalance) == m;
    case NameM => assert MemberOf(Name) == m;
    case ErrM => assert MemberOf(Err) == m;
    case ThrottleM => assert MemberOf(Throttle) == m;
    case StatsM => assert MemberOf(Stats) == m;
    case XBufM => assert MemberOf(XmitBuf) == m;
    case MetadataM => assert MemberOf(MetadataReq) == m;
    case DrM => assert MemberOf(Dr) == m;
    case NodeM => assert MemberOf(NodeUpdate) == m;
    case OffsetResetM => assert MemberOf(OffsetReset) == m;
    case FetchStartM => assert MemberOf(FetchStart) == m;
  }

  /** The fixed-size text buffers hold their text and its terminating NUL. */
  predicate WellFormed(p: Payload)
    ensures WellFormed(p) <==>
              (p.MetadataInfo? ==> |p.reasonBuf| + 1 <= METADATA_REASON_SIZE) &&
              (p.NodeInfo? ==> |p.nodenameBuf| + 1 <= NODENAME_SIZE)
  {
    match p
    case MetadataInfo(_, _, reason, _) => |reason| < METADATA_REASON_SIZE
    case NodeInfo(_, nodename) => |nodename| < NODENAME_SIZE
    case _ => true
  }

  // ---------------------------------------------------------------------
  // The envelope (rd_kafka_op_t)
  // ---------------------------------------------------------------------

  /** An operation; an event is the same object seen by the application.
      The type word rko_type is kept taken apart as `tag`; `RkoType()` is the
      word itself, and DecodeEncode and EncodeDecode show the two carry the
      same information. A C test `rko_type == RD_KAFKA_OP_X` is therefore
      `tag == Plain(X)` (TypeAssertExact). */
  class Envelope {
    var tag: TypeTag
    var evtype: EventType
    var flags: bv32
    var version: int32
    var err: RespErr
    var len: int32
    var rktp: Option<Ref>
    var replyq: Option<Ref>
    var rk: Option<Ref>
    var payload: Payload
    /** Set once the envelope has been handed to its destructor. */
    ghost var destroyed: bool

    /** The type word rko_type: it reads back as the stored kind and flags. */
    function RkoType(): (w: bv32)
      reads this
      ensures DecodeType(w) == Some(tag)
    {
      DecodeEncode(tag);
      TypeWord(tag)
    }

    /** The payload is the member the op kind selects, and the event kinds
        that read a payload member belong to the op kind that carries it. */
    ghost predicate Valid()
      reads this
      ensures Valid() && evtype == EventDr ==> payload.DeliveryReport?
      ensures Valid() && evtype == EventFetch ==> payload.FetchResult?
      ensures Valid() && evtype == EventRebalance ==> payload.RebalanceList?
    {
      Fits(tag.kind, payload) && WellFormed(payload) &&
      (evtype == EventDr ==> tag.kind == Dr) &&
      (evtype == EventFetch ==> tag.kind == Fetch) &&
      (evtype == EventRebalance ==> tag.kind == Rebalance)
    }
  }
}
