# librdkafka operation envelope and event view, in Dafny

This project models the core of librdkafka's op/event layer. It has two modules.

- `Op` (`op.dfy`) models `src/rdkafka_op.h`. It holds the op kinds of `rd_kafka_op_type_t` with their C values. It holds the `RD_KAFKA_OP_F_*` flag bits of `rko_flags`, and the `CB`/`REPLY` bits that ride on the type word `rko_type`, with the encoding and decoding of that word. The payload union `rko_u` is a datatype with one constructor per union member. The table `MemberOf` says which member each kind uses. The envelope `rd_kafka_op_t` is the class `Envelope`. It keeps the type word taken apart, as a kind and the two flags; `RkoType()` is the word itself, and it decodes back to the stored kind and flags. `DecodeEncode` and `EncodeDecode` show that nothing is lost this way for every type word whose value, with CB and REPLY cleared, is below `RD_KAFKA_OP__END`; a word outside that range names no op kind and has no counterpart in the model. A C test `rko_type == RD_KAFKA_OP_X` compares the whole word, so in the model it is `tag == Plain(X)`: kind X with neither flag set (`TypeAssertExact`). The class's `Valid()` says three things: the payload is the member its op kind selects; the fixed-size text buffers fit; and a DR, FETCH or REBALANCE event is carried by an op of that same kind.
- `Event` (`event.dfy`) models `src/rdkafka_event.c`. An event is the envelope itself. `TypeOf`, `Name`, `MessageCount`, `Error`, `Log` and `TopicPartitionList` are functions that read the envelope. `Destroy` and `MessageNext` are methods that change it. `TopicPartitionOf` is a method that allocates a fresh `TopicPartition` record and sets its fields.

`MessageNext` is proved against the pure step function `Next`. The lemmas about iterating `Next` state the promises of the iterator:

- A delivery report hands out its queued messages in order. It moves each one from `msgq` to the tail of `msgq2`, so `msgq2 ++ msgq` never changes. After the last message it returns NULL.
- A fetch result hands out its one embedded message on the first call. Every later call returns NULL. The cursor `evidx` goes up by one on every call.
- Any other op type yields NULL and leaves the payload unchanged. This includes a DR or FETCH kind that has CB or REPLY set, because the switch compares the whole word.

The model makes explicit the preconditions that the C code leaves implicit:

- Every accessor except `TypeOf`, `Name` and `Destroy` takes a non-null envelope.
- `Name` needs an event kind that has an entry in the four-entry name table.
- Every accessor that reads a payload member needs `Valid()`.
- Use after destruction is excluded by a ghost `destroyed` flag.

The fixed-width C integers `int32_t` and `int64_t` are `newtype`s (`int32`, `int64`). The type and flag words are `bv32`. The C `int` fields used only as truth values (`do_free`, `all_topics`, `do_purge2`) are `bool`, and the fetch cursor `evidx` is an unbounded `int`; see "## Left out".

The numeric values of `rd_kafka_event_type_t` come from `rdkafka.h`, which is not part of this model. `Op.EventCode` gives NONE, DR, FETCH and ERROR the values 0 to 3, the order of the name table. It gives LOG and REBALANCE the values 4 and 5. The model relies only on those two being outside the table.

## Model

| member | source | states |
|---|---|---|
| `Op.FlagsAreDistinctBits` | src/rdkafka_op.h:42-47 | each `RD_KAFKA_OP_F_*` flag is a single bit, and two different flags share no bit |
| `Op.FlagUpdateIsLocal` | src/rdkafka_op.h:42-47 | setting or clearing one flag in a flag word leaves every other flag as it was, and sets or clears that flag |
| `Op.Ordinal` | src/rdkafka_op.h:50-90 | every op kind's position in the enum lies below `RD_KAFKA_OP__END` (28) |
| `Op.Code` | src/rdkafka_op.h:50-90 | a kind's value in a type word is its position in the enum, and lies below `RD_KAFKA_OP__END` |
| `Op.CodeKindRoundTrip` | src/rdkafka_op.h:50-90 | the values below `RD_KAFKA_OP__END` are exactly the kinds' values; each value names one kind, and a kind's value reads back as that kind |
| `Op.TypeFlagBits` | src/rdkafka_op.h:93-95 | CB is bit 30 and REPLY is bit 31 (single, disjoint bits); FLAGMASK is exactly their union; no kind's value has a FLAGMASK bit |
| `Op.TypeWord` | src/rdkafka_op.h:92-104 | clearing FLAGMASK from a type word recovers the kind's value, and the CB and REPLY bits read back as the flags that were set |
| `Op.DecodeType` | src/rdkafka_op.h:92-104 | a type word decodes to a kind exactly when its value with FLAGMASK cleared is below `RD_KAFKA_OP__END` |
| `Op.DecodeEncode` | src/rdkafka_op.h:92-104 | decoding an encoded type word gives back the kind and both flags |
| `Op.EncodeDecode` | src/rdkafka_op.h:92-104 | re-encoding a decodable type word gives back the same word |
| `Op.FlaggedNeverBase` | src/rdkafka_op.h:50-95 | a type word with CB or REPLY set equals no kind's value, so flagged types never collide with base types |
| `Op.TypeAssertExact` | src/rdkafka_op.h:98-99 | `RD_KAFKA_OP_TYPE_ASSERT` for a kind holds exactly when the type word is that kind with neither CB nor REPLY set |
| `Op.MemberOf` | src/rdkafka_op.h:122-202 | the union member each kind uses; a kind uses no member exactly when it is NOOP, XMIT_RETRY, FETCH_STOP, PARTITION_JOIN, PARTITION_LEAVE, TERMINATE or COORD_QUERY, the kinds the union has no member for |
| `Op.EveryMemberUsed` | src/rdkafka_op.h:122-202 | every member of the union is the payload of at least one kind |
| `Op.SharedPayloads` | src/rdkafka_op.h:122-202 | two different kinds use the same union member exactly when they are ERR/CONSUMER_ERR, SUBSCRIBE/GET_SUBSCRIPTION, ASSIGN/GET_ASSIGNMENT, XMIT_BUF/RECV_BUF or FETCH_START/SEEK |
| `Op.WellFormed` | src/rdkafka_op.h:176-191 | the metadata request's `reason[128]` and the node update's `nodename[RD_KAFKA_NODENAME_SIZE]` hold their text and its terminating NUL |
| `Op.Envelope.RkoType` | src/rdkafka_op.h:92-104 | the envelope's type word `rko_type` decodes back to the kind and the CB and REPLY flags the envelope stores |
| `Op.Envelope.Valid` | src/rdkafka_op.h:101-203 | the invariant of `rd_kafka_op_t`: the payload is the union member the op kind selects (`MemberOf`), the fixed-size buffers fit (`WellFormed`), and a DR, FETCH or REBALANCE event is carried by an op of that kind; so such an event's payload is the `dr`, `fetch` or `rebalance` member, which the event accessors read |
| `Event.TypeOf` | src/rdkafka_event.c:41-43 | a null event is of kind NONE; otherwise the kind is the envelope's event type (a destroyed envelope may not be read) |
| `Event.Name` | src/rdkafka_event.c:34-47 | the name is the table entry for the kind `TypeOf` reports (so "(NONE)" for a null event); it is "(NONE)" exactly when that kind is NONE; only kinds inside the four-entry table are allowed |
| `Event.NamedKinds` | src/rdkafka_event.c:34-39 | exactly NONE, DR, FETCH and ERROR have an entry in the name table; LOG and REBALANCE do not |
| `Event.NameDeterminesType` | src/rdkafka_event.c:34-47 | two events with the same name have the same kind |
| `Event.Destroy` | src/rdkafka_event.c:52-56 | a null event is left alone; otherwise the envelope is marked destroyed and none of its fields changes |
| `Event.Next` | src/rdkafka_event.c:63-96 | one iterator step keeps the payload's union member; a returned message is the head of what was pending, and NULL means nothing was pending; a DR step keeps `msgq2 ++ msgq` and changes no field but `msgq` and `msgq2` (so `rkt` and `do_purge2` stay); a FETCH step on a plain FETCH op adds one to `evidx`, and no field but `evidx` ever changes (so `rkbuf` and `rkm` stay); any other op type returns NULL and changes nothing |
| `Event.MessageNext` | src/rdkafka_event.c:63-96 | the method changes only the payload, keeps `Valid()`, and returns and leaves exactly what `Next` gives for the envelope's op type |
| `Event.DrainYieldsPending` | src/rdkafka_event.c:63-96 | as many calls as there are pending messages return those messages in order, after which nothing is pending and the next call returns NULL |
| `Event.DrIteratesInOrder` | src/rdkafka_event.c:87-95 | for a DR op with N queued messages, N calls return them in queue order, leave `msgq` empty and `msgq2` equal to its old contents followed by the N messages, and the (N+1)-th call returns NULL and changes nothing |
| `Event.DrQueuesConserved` | src/rdkafka_event.c:87-95 | after any number of calls on a DR op, `msgq2 ++ msgq` is what it was before |
| `Event.FetchIsOneShot` | src/rdkafka_event.c:76-81 | for a FETCH op with a fresh cursor, the first call returns the embedded message, every later call returns NULL, and after n calls `evidx` is n |
| `Event.FetchExhausted` | src/rdkafka_event.c:76-81 | once the FETCH cursor is past zero, every call returns NULL and moves the cursor up by one |
| `Event.OtherKindsYieldNothing` | src/rdkafka_event.c:83-84 | for an op type other than exactly DR or FETCH (no CB or REPLY), every call returns NULL and the payload never changes |
| `Event.MessageCount` | src/rdkafka_event.c:99-109 | the count is the length of `msgq` for a DR event, 1 for a FETCH event and 0 for any other kind |
| `Event.CountIsFirstPass` | src/rdkafka_event.c:63-109 | before any message is taken, and when the op type is exactly the event's op kind with no flag set, the count equals the number of messages the iterator will return |
| `Event.CountAfterFirstMessage` | src/rdkafka_event.c:63-109 | after an iterator step has taken the one message of a FETCH event, nothing is pending, yet the count read from the new state is still 1, as it was before the step |
| `Event.CountAfterDrMessage` | src/rdkafka_event.c:87-105 | after an iterator step on a DR event with queued messages, the step has handed out the head of `msgq`, and the count read from the new state is one lower than before the step |
| `Event.Error` | src/rdkafka_event.c:112-114 | the error of any event, of any kind, is the envelope's error code |
| `Event.Log` | src/rdkafka_event.c:117-130 | the result is -1 exactly for a non-LOG event and 0 exactly for a LOG event; the three output cells are left as they were in both cases |
| `Event.TopicPartitionList` | src/rdkafka_event.c:133-139 | NULL for every kind but REBALANCE; for REBALANCE, the rebalance payload's partition list |
| `Event.TopicPartitionOf` | src/rdkafka_event.c:142-165 | NULL exactly when the envelope has no partition context; otherwise a fresh record with the allocator's topic and partition and the envelope's error; its offset is the error payload's offset for an op type of exactly ERR or CONSUMER_ERR (no CB or REPLY), and the allocator's offset otherwise |

## Left out

- `rd_kafka_op_new`, `rd_kafka_op_new_reply`, `rd_kafka_op_reply`, `rd_kafka_op_destroy`, `rd_kafka_op_call`, `rd_kafka_op_handle_std`, `rd_kafka_op_throttle_time`, `rd_kafka_op2str` and `rd_kafka_op_err_destroy` (src/rdkafka_op.h:210-245) are declared without bodies. Their contracts are not modelled. So construction, replies, version filtering and per-kind payload release are not modelled.
- `rd_kafka_op_req` and `rd_kafka_op_req2` are a blocking cross-thread wait. This is concurrency and is not modelled.
- The `rd_kafka_op_err` macro is logging plus an enqueue to the client's reply queue. It is not modelled.
- `rd_kafka_op_cnt` and the atomic read of the queue's message counter are not modelled. The count is the plain length of `msgq`.
- Refcounts, freeing, the `rko_op_cb` function pointer and the `rko_link` queue linkage are not modelled. References are opaque `Ref` values and message queues are sequences.
- Event.Destroy: the op destructor is not part of this model, so destruction only marks the envelope destroyed. It does not release payloads.
- Event.TopicPartitionOf: `rd_kafka_topic_partition_new_from_rktp` is not part of this model. It is passed in as a function from the partition context to the record's initial fields.
- Event.Log: the log fields of an event do not exist in this envelope. The assignments to them are commented out in the source. So a LOG event returns 0 and writes nothing.
- Event.Next: `evidx` is an unbounded integer. The C `int` overflow after 2^31 - 1 calls on one FETCH event is not modelled.
- The mapping of op kinds to event kinds (`rko_evtype`) is set by code that is not part of this model. `Envelope.Valid` assumes only that a DR, FETCH or REBALANCE event is carried by an op of the same kind.
- The C `int` fields `do_free`, `all_topics` and `do_purge2` are `bool`, because the modelled code never reads them as numbers. `json_len` (`size_t`) is a `nat` without the 64-bit bound.
- `XMIT_RETRY` is given no union member, because the header names none for it.
- `RD_KAFKA_NODENAME_SIZE` is defined outside the two modelled files. It is taken as 128, the same as the metadata reason buffer.
