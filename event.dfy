/**
 * The public event view over an operation envelope (src/rdkafka_event.c):
 * kind and name lookup, destruction, the single-pass message iterator, the
 * message count, and the kind-guarded accessors.
 */
module Event {
  import opened Op

  // ---------------------------------------------------------------------
  // Kind and name
  // ---------------------------------------------------------------------

  /** rd_kafka_event_names: indexed by the event kind's value. */
  const EventNames: seq<string> := ["(NONE)", "DeliveryReport", "Fetch", "Error"]

  /** rd_kafka_event_type: a null event is of kind NONE. */
  function TypeOf(rkev: Envelope?): (t: EventType)
    reads rkev
    requires rkev != null ==> !rkev.destroyed
    ensures rkev == null ==> t == EventNone
    ensures rkev != null ==> t == rkev.evtype
  {
    if rkev != null then rkev.evtype else EventNone
  }

  /** An event kind has an entry in the name table (LOG and REBALANCE do not). */
  predicate HasName(t: EventType) {
    EventCode(t) < |EventNames|
  }

  /** rd_kafka_event_name: the table entry for the event's kind. The table has
      four entries, so the kind must be one of the first four. */
  function Name(rkev: Envelope?): (s: string)
    reads rkev
    requires rkev != null ==> !rkev.destroyed && HasName(rkev.evtype)
    ensures s == EventNames[EventCode(TypeOf(rkev))]
    ensures s == "(NONE)" <==> TypeOf(rkev) == EventNone
  {
    EventNames[EventCode(if rkev != null then rkev.evtype else EventNone)]
  }

  /** Exactly NONE, DR, FETCH and ERROR have a name. */
  lemma NamedKinds(t: EventType)
    ensures HasName(t) <==> t in {EventNone, EventDr, EventFetch, EventError}
  {
  }

  /** Different kinds have different names, so the name determines the kind. */
  lemma NameDeterminesType(a: Envelope?, b: Envelope?)
    requires a != null ==> !a.destroyed && HasName(a.evtype)
    requires b != null ==> !b.destroyed && HasName(b.evtype)
    requires Name(a) == Name(b)
    ensures TypeOf(a) == TypeOf(b)
  {
  }

  // ---------------------------------------------------------------------
  // Destruction
  // ---------------------------------------------------------------------

  /** rd_kafka_event_destroy: nothing for a null event; otherwise the envelope
      goes to the op destructor, which is not part of this model and is
      represented only by marking the envelope destroyed. */
  method Destroy(rkev: Envelope?)
    requires rkev != null ==> !rkev.destroyed
    modifies rkev
    ensures rkev != null ==> rkev.destroyed
    ensures rkev != null ==>
              rkev.tag == old(rkev.tag) && rkev.evtype == old(rkev.evtype) &&
              rkev.flags == old(rkev.flags) && rkev.version == old(rkev.version) &&
              rkev.err == old(rkev.err) && rkev.len == old(rkev.len) &&
              rkev.rktp == old(rkev.rktp) && rkev.replyq == old(rkev.replyq) &&
              rkev.rk == old(rkev.rk) && rkev.payload == old(rkev.payload)
  {
    if rkev == null {
      return;
    }
    rkev.destroyed := true;
  }

  // ---------------------------------------------------------------------
  // The message iterator
  // ---------------------------------------------------------------------

  /** The messages a payload still has to hand out, for the op type t: the
      active queue of a delivery report; for a fetch result, the embedded
      message once for every call until the cursor passes zero (once, for the
      cursor's initial zero); nothing otherwise. */
  function Pending(t: TypeTag, p: Payload): seq<MessageRef> {
    if t == Plain(Dr) && p.DeliveryReport? then p.msgq
    else if t == Plain(Fetch) && p.FetchResult? && p.evidx <= 0 then seq(1 - p.evidx, _ => p.rkm)
    else []
  }

  datatype NextResult = NextResult(msg: Option<MessageRef>, payload: Payload)

  /** What one call of rd_kafka_event_message_next returns and leaves in the
      payload, for the op type t. */
  function Next(t: TypeTag, p: Payload): (r: NextResult)
    requires Fits(t.kind, p)
    ensures Fits(t.kind, r.payload) && MemberOfPayload(r.payload) == MemberOfPayload(p)
    ensures r.msg.Some? ==> Pending(t, p) == [r.msg.value] + Pending(t, r.payload)
    ensures r.msg.None? ==> Pending(t, p) == [] == Pending(t, r.payload)
    ensures p.DeliveryReport? ==> r.payload.msgq2 + r.payload.msgq == p.msgq2 + p.msgq
    ensures p.DeliveryReport? ==> r.payload == p.(msgq := r.payload.msgq, msgq2 := r.payload.msgq2)
    ensures p.FetchResult? && t == Plain(Fetch) ==> r.payload.evidx == p.evidx + 1
    ensures p.FetchResult? ==> r.payload == p.(evidx := r.payload.evidx)
    ensures t != Plain(Dr) && t != Plain(Fetch) ==> r == NextResult(None, p)
  {
    if t == Plain(Dr) then
      if p.msgq == [] then NextResult(None, p)
      else
        var rkm := p.msgq[0];
        NextResult(Some(rkm), p.(msgq := p.msgq[1..], msgq2 := p.msgq2 + [rkm]))
    else if t == Plain(Fetch) then
      var p' := p.(evidx := p.evidx + 1);
      if p.evidx > 0 then NextResult(None, p')
      else
        assert Pending(t, p) == [p.rkm] + Pending(t, p');
        NextResult(Some(p.rkm), p')
    else
      NextResult(None, p)
  }

  /** rd_kafka_event_message_next. */
  method MessageNext(rkev: Envelope) returns (m: Option<MessageRef>)
    requires rkev.Valid() && !rkev.destroyed
    modifies rkev`payload
    ensures rkev.Valid()
    ensures NextResult(m, rkev.payload) == Next(rkev.tag, old(rkev.payload))
  {
    if rkev.tag == Plain(Dr) {
      var msgq := rkev.payload.msgq;
      if msgq == [] {
        return None;
      }
      var rkm := msgq[0];
      // Dequeue the head of the active queue ...
      rkev.payload := rkev.payload.(msgq := msgq[1..]);
      // ... and keep it alive on the secondary queue until the event is destroyed.
      rkev.payload := rkev.payload.(msgq2 := rkev.payload.msgq2 + [rkm]);
      return Some(rkm);
    } else if rkev.tag == Plain(Fetch) {
      var evidx := rkev.payload.evidx;
      rkev.payload := rkev.payload.(evidx := evidx + 1);
      if evidx > 0 {
        return None;
      }
      return Some(rkev.payload.rkm);
    } else {
      return None;
    }
  }

  datatype Trace = Trace(msgs: seq<Option<MessageRef>>, payload: Payload)

  /** The results of n successive calls, and the payload they leave. */
  function Iterate(t: TypeTag, p: Payload, n: nat): (tr: Trace)
    requires Fits(t.kind, p)
    ensures |tr.msgs| == n && Fits(t.kind, tr.payload)
    decreases n
  {
    if n == 0 then Trace([], p)
    else
      var r := Next(t, p);
      var rest := Iterate(t, r.payload, n - 1);
      Trace([r.msg] + rest.msgs, rest.payload)
  }

  function Yields(q: seq<MessageRef>): seq<Option<MessageRef>> {
    seq(|q|, i requires 0 <= i < |q| => Some(q[i]))
  }

  /** Draining: as many calls as there are pending messages return them in
      order, and then the iterator is exhausted. */
  lemma {:induction false} DrainYieldsPending(t: TypeTag, p: Payload)
    requires Fits(t.kind, p)
    ensures var tr := Iterate(t, p, |Pending(t, p)|);
            tr.msgs == Yields(Pending(t, p)) && Pending(t, tr.payload) == [] &&
            Next(t, tr.payload).msg == None
    decreases |Pending(t, p)|
  {
    var q := Pending(t, p);
    if q != [] {
      var r := Next(t, p);
      var q' := Pending(t, r.payload);
      StepTakesHead(t, p);
      DrainYieldsPending(t, r.payload);
      assert Iterate(t, p, |q|).msgs == [r.msg] + Iterate(t, r.payload, |q'|).msgs;
      assert Yields(q) == [Some(q[0])] + Yields(q');
    }
  }

  /** A step with something pending hands out its head and leaves the rest. */
  lemma StepTakesHead(t: TypeTag, p: Payload)
    requires Fits(t.kind, p) && Pending(t, p) != []
    ensures var r := Next(t, p);
            r.msg == Some(Pending(t, p)[0]) && Pending(t, r.payload) == Pending(t, p)[1..]
  {
  }

  /** For a delivery report with N queued messages, N calls return them in
      their queue order, every returned message sits on msgq2 after the queue
      it was already holding, and the next call returns NULL. */
  lemma {:induction false} DrIteratesInOrder(t: TypeTag, p: Payload)
    requires t == Plain(Dr) && Fits(t.kind, p)
    ensures p.DeliveryReport?
    ensures var tr := Iterate(t, p, |p.msgq|);
            tr.msgs == Yields(p.msgq) &&
            tr.payload.msgq == [] && tr.payload.msgq2 == p.msgq2 + p.msgq &&
            Next(t, tr.payload) == NextResult(None, tr.payload)
  {
    DrainYieldsPending(t, p);
    DrQueuesConserved(t, p, |p.msgq|);
  }

  /** Iterating a delivery report never loses or invents a message: msgq2 ++ msgq
      is the same after any number of calls. */
  lemma {:induction false} DrQueuesConserved(t: TypeTag, p: Payload, n: nat)
    requires Fits(t.kind, p) && p.DeliveryReport?
    ensures Iterate(t, p, n).payload.msgq2 + Iterate(t, p, n).payload.msgq == p.msgq2 + p.msgq
    decreases n
  {
    if n > 0 {
      DrQueuesConserved(t, Next(t, p).payload, n - 1);
    }
  }

  /** A fetch result hands out its one message on the first call only; the
      cursor moves up by one on every call. */
  lemma {:induction false} FetchIsOneShot(t: TypeTag, p: Payload, n: nat)
    requires t == Plain(Fetch) && Fits(t.kind, p) && p.evidx == 0 && n >= 1
    ensures p.FetchResult?
    ensures var tr := Iterate(t, p, n);
            tr.msgs[0] == Some(p.rkm) &&
            (forall i :: 1 <= i < n ==> tr.msgs[i] == None) &&
            tr.payload.evidx == n
  {
    var r := Next(t, p);
    FetchExhausted(t, r.payload, n - 1);
  }

  /** Once the fetch cursor is past zero, every call returns NULL. */
  lemma {:induction false} FetchExhausted(t: TypeTag, p: Payload, n: nat)
    requires t == Plain(Fetch) && Fits(t.kind, p) && p.FetchResult? && p.evidx > 0
    ensures var tr := Iterate(t, p, n);
            (forall i :: 0 <= i < n ==> tr.msgs[i] == None) &&
            tr.payload.FetchResult? && tr.payload.evidx == p.evidx + n
    decreases n
  {
    if n > 0 {
      FetchExhausted(t, Next(t, p).payload, n - 1);
    }
  }

  /** For any op type other than exactly DR or FETCH, every call returns NULL
      and the payload never changes. */
  lemma {:induction false} OtherKindsYieldNothing(t: TypeTag, p: Payload, n: nat)
    requires Fits(t.kind, p) && t != Plain(Dr) && t != Plain(Fetch)
    ensures Iterate(t, p, n) == Trace(NoMessages(n), p)
    decreases n
  {
    if n > 0 {
      OtherKindsYieldNothing(t, p, n - 1);
      assert NoMessages(n) == [None] + NoMessages(n - 1);
    }
  }

  function NoMessages(n: nat): seq<Option<MessageRef>> {
    seq(n, i => None)
  }

  // ---------------------------------------------------------------------
  // The message count
  // ---------------------------------------------------------------------

  /** rd_kafka_event_message_count: switches on the event kind. */
  function MessageCount(rkev: Envelope): (n: nat)
    reads rkev
    requires rkev.Valid() && !rkev.destroyed
    ensures rkev.evtype == EventDr ==> n == |rkev.payload.msgq|
    ensures rkev.evtype == EventFetch ==> n == 1
    ensures rkev.evtype != EventDr && rkev.evtype != EventFetch ==> n == 0
  {
    match rkev.evtype
    case EventDr => |rkev.payload.msgq|
    case EventFetch => 1
    case _ => 0
  }

  /** Before any message has been taken, the count is the number of messages the
      iterator will hand out, provided the op type is the event's op kind
      exactly (no CB or REPLY bit: the iterator compares the whole word). */
  lemma CountIsFirstPass(rkev: Envelope)
    requires rkev.Valid() && !rkev.destroyed
    requires rkev.evtype == EventDr ==> rkev.tag == Plain(Dr)
    requires rkev.evtype == EventFetch ==> rkev.tag == Plain(Fetch) && rkev.payload.evidx == 0
    requires rkev.evtype != EventDr && rkev.evtype != EventFetch ==> rkev.tag != Plain(Dr) && rkev.tag != Plain(Fetch)
    ensures MessageCount(rkev) == |Pending(rkev.tag, rkev.payload)|
  {
  }

  /** For a FETCH event the count stays 1 after its message has been taken by
      a step of the iterator, although nothing is pending any more. */
  twostate lemma CountAfterFirstMessage(rkev: Envelope)
    requires old(rkev.Valid()) && !old(rkev.destroyed)
    requires old(rkev.tag) == Plain(Fetch) && old(rkev.evtype) == EventFetch && old(rkev.payload.evidx) == 0
    requires rkev.tag == old(rkev.tag) && rkev.evtype == old(rkev.evtype) && !rkev.destroyed
    requires rkev.payload == Next(old(rkev.tag), old(rkev.payload)).payload
    ensures rkev.Valid()
    ensures Pending(rkev.tag, rkev.payload) == [] && old(|Pending(rkev.tag, rkev.payload)|) == 1
    ensures MessageCount(rkev) == old(MessageCount(rkev)) == 1
  {
  }

  /** For a DR event the count falls by one with every message a step of the
      iterator takes: the queue the count reads loses that message. */
  twostate lemma CountAfterDrMessage(rkev: Envelope)
    requires old(rkev.Valid()) && !old(rkev.destroyed)
    requires old(rkev.tag) == Plain(Dr) && old(rkev.evtype) == EventDr && old(rkev.payload.msgq) != []
    requires rkev.tag == old(rkev.tag) && rkev.evtype == old(rkev.evtype) && !rkev.destroyed
    requires rkev.payload == Next(old(rkev.tag), old(rkev.payload)).payload
    ensures rkev.Valid()
    ensures Next(old(rkev.tag), old(rkev.payload)).msg == Some(old(rkev.payload.msgq[0]))
    ensures MessageCount(rkev) + 1 == old(MessageCount(rkev))
  {
  }

  // ---------------------------------------------------------------------
  // Kind-guarded accessors
  // ---------------------------------------------------------------------

  /** rd_kafka_event_error: the envelope's error code, for every kind. */
  function Error(rkev: Envelope): (e: RespErr)
    reads rkev
    requires !rkev.destroyed
    ensures e == rkev.err
  {
    rkev.err
  }

  /** The caller's three output cells, as they stand after the call. */
  datatype LogOutputs = LogOutputs(fac: Option<string>, str: Option<string>, level: Option<int>)

  datatype LogResult = LogResult(rc: int, outputs: LogOutputs)

  /** rd_kafka_event_log: -1 for any kind but LOG, 0 for LOG. The assignments to
      the outputs are commented out in the source, so none is written either way. */
  function Log(rkev: Envelope, out: LogOutputs): (r: LogResult)
    reads rkev
    requires !rkev.destroyed
    ensures r.rc == -1 <==> rkev.evtype != EventLog
    ensures r.rc == 0 <==> rkev.evtype == EventLog
    ensures r.outputs == out
  {
    if rkev.evtype != EventLog then LogResult(-1, out)
    else LogResult(0, out)
  }

  /** rd_kafka_event_topic_partition_list: the rebalance payload's list for a
      REBALANCE event, NULL for every other kind. */
  function TopicPartitionList(rkev: Envelope): (l: Option<Ref>)
    reads rkev
    requires rkev.Valid() && !rkev.destroyed
    ensures rkev.evtype != EventRebalance ==> l == None
    ensures rkev.evtype == EventRebalance ==> rkev.payload.RebalanceList? && l == rkev.payload.partitions
  {
    if rkev.evtype != EventRebalance then None
    else rkev.payload.partitions
  }

  /** The fields of a topic-partition record that this core reads or writes. */
  datatype TopicPartitionValue = TopicPartitionValue(topic: string, partition: int32, offset: int64, err: RespErr)

  /** rd_kafka_topic_partition_t, allocated for and owned by the caller. */
  class TopicPartition {
    var topic: string
    var partition: int32
    var offset: int64
    var err: RespErr

    constructor (init: TopicPartitionValue)
      ensures Value() == init
    {
      topic, partition, offset, err := init.topic, init.partition, init.offset, init.err;
    }

    function Value(): TopicPartitionValue
      reads this
    {
      TopicPartitionValue(topic, partition, offset, err)
    }
  }

  /** rd_kafka_event_topic_partition. The allocator that builds a record from
      a partition context is not part of this model and is passed in as
      newFromToppar; its record then has err patched from the envelope and,
      for ERR and CONSUMER_ERR (with neither CB nor REPLY set), offset
      patched from the error payload. */
  method TopicPartitionOf(rkev: Envelope, newFromToppar: Ref -> TopicPartitionValue)
    returns (rktpar: TopicPartition?)
    requires rkev.Valid() && !rkev.destroyed
    ensures rkev.rktp == None <==> rktpar == null
    ensures rktpar != null ==>
              var init := newFromToppar(rkev.rktp.value);
              fresh(rktpar) &&
              rktpar.topic == init.topic && rktpar.partition == init.partition &&
              rktpar.err == rkev.err &&
              rktpar.offset == (if rkev.tag == Plain(Err) || rkev.tag == Plain(ConsumerErr)
                                then rkev.payload.offset else init.offset)
  {
    if rkev.rktp == None {
      return null;
    }
    rktpar := new TopicPartition(newFromToppar(rkev.rktp.value));
    if rkev.tag == Plain(Err) || rkev.tag == Plain(ConsumerErr) {
      rktpar.offset := rkev.payload.offset;
    }
    rktpar.err := rkev.err;
  }
}
