# Dead-letter routing stage of the store-inventory pipeline

This project models the dead-letter routing stage that `buildTopologyFlow`
builds in `TestDeadLetterTopic.java`, and proves properties of it. The stage
splits a stream of keyed item transactions in two. A transaction with a null
or empty `storeName`, or a null or empty `sku`, is "wrong-tx" and goes to the
dead-letter topic `dl-topic`. Every other transaction falls to the default
branch "good-tx" and goes to `my-output-topic`. Events are forwarded
unchanged: same key, same value.

Layout, one module per part of the program:

- `wrappers.dfy` (`Wrappers`): `Option`, which stands for a Java reference that may be null.
- `transactions.dfy` (`Transactions`): the `ItemTransaction` record and the keyed `Event`. Also the branch predicate `IsWrong` of line 58.
- `topology.dfy` (`Topology`): the split/branch construct. It is an ordered list of branches where the first match wins and there is a default sink (`FirstMatch`, `SinkOf`). It also holds the concrete branch table of lines 57-60 (`Branches`, `Classify`) and the whole-stream view:
  - `Split` is what the two topics hold after a sequence of events, built one appended event at a time.
  - `Select` is an independent, order-preserving filter used as its reference definition.
- `driver.dfy` (`Driver`): the test driver's output topics as a `Router` class.
  - It has two FIFO sequence fields, `good` and `deadLetter`.
  - `Route` stands for `pipeInput`: it appends one event.
  - `ReadValue` pops the front of one queue.
  - `QueueSize` and `IsEmpty` are queries.
  - Ghost fields record everything piped and everything read. `Valid()` ties the queues to `Split`.
- `tests.dfy` (`DeadLetterTests`): the six test cases as methods on one shared driver, like the static fixture of the source.
  - Each case requires and re-establishes an empty driver (`Drained`), so the cases pass in any order.
  - The record constants `RESTOCK`, `5` and `33.2` become parameters, so each case is proved for every operation type, quantity and price.

The topic names are the ones the code declares at lines 38-41: `my-input-topic`, `my-output-topic` and `dl-topic`. `operationType` is an `int` because the constants of `ItemTransaction` are not part of this model.

## Model

| member | source | states |
|---|---|---|
| `Transactions.IsWrong` | lab2/refarch-eda-store-inventory/src/test/java/ut/TestDeadLetterTopic.java:58 | a transaction is wrong exactly when it does not have both a non-null, non-empty store name and a non-null, non-empty sku |
| `Transactions.IsWrongIgnoresPayload` | lab2/refarch-eda-store-inventory/src/test/java/ut/TestDeadLetterTopic.java:58 | changing operation type, quantity or price never changes whether a transaction is wrong |
| `Topology.ClassifyNamesTopic` | lab2/refarch-eda-store-inventory/src/test/java/ut/TestDeadLetterTopic.java:62-63 | an event is written to the topic named "dl-topic" if and only if it is wrong, and to the topic named "my-output-topic" if and only if it is not |
| `Topology.FirstMatch` | lab2/refarch-eda-store-inventory/src/test/java/ut/TestDeadLetterTopic.java:57-60 | split/branch semantics: the result is the first branch whose predicate accepts the key and value; no result means no branch accepts, so the default branch is taken |
| `Topology.ClassifyIsValidity` | lab2/refarch-eda-store-inventory/src/test/java/ut/TestDeadLetterTopic.java:57-63 | with "wrong-tx" checked first and "good-tx" as default, an event goes to the dead-letter topic if and only if storeName or sku is null or empty, and to the output topic otherwise |
| `Topology.ClassifyIgnoresKey` | lab2/refarch-eda-store-inventory/src/test/java/ut/TestDeadLetterTopic.java:58 | the branch predicate ignores the record key: re-keying never changes the topic |
| `Topology.ClassifyOnlyReadsRoutingFields` | lab2/refarch-eda-store-inventory/src/test/java/ut/TestDeadLetterTopic.java:58 | two events whose store names and skus agree are routed to the same topic |
| `Topology.SplitIsSelect` | lab2/refarch-eda-store-inventory/src/test/java/ut/TestDeadLetterTopic.java:57-63 | each topic, built event by event, equals the order-preserving filter of the input by that topic: good = events not wrong, dead letter = events wrong, in input order and unmodified |
| `Topology.SplitEmpty` | lab2/refarch-eda-store-inventory/src/test/java/ut/TestDeadLetterTopic.java:105-112 | with no input both topics are empty |
| `Topology.SelectPartition` | lab2/refarch-eda-store-inventory/src/test/java/ut/TestDeadLetterTopic.java:57-63 | the two filters together are a multiset permutation of the input |
| `Topology.SplitPartition` | lab2/refarch-eda-store-inventory/src/test/java/ut/TestDeadLetterTopic.java:57-63 | the two topics together hold exactly the input events as a multiset (none lost, none duplicated), and their sizes add up to the number of inputs |
| `Topology.SelectSound` | lab2/refarch-eda-store-inventory/src/test/java/ut/TestDeadLetterTopic.java:57-63 | every event the filter keeps for a topic is an input event routed to that topic |
| `Topology.SelectComplete` | lab2/refarch-eda-store-inventory/src/test/java/ut/TestDeadLetterTopic.java:57-63 | every input event routed to a topic is kept by that topic's filter |
| `Topology.SplitRoutesByValidity` | lab2/refarch-eda-store-inventory/src/test/java/ut/TestDeadLetterTopic.java:57-63 | every event in either topic was an input; an input is in the dead-letter topic if and only if it is wrong, and in the output topic if and only if it is not |
| `Topology.SplitExclusive` | lab2/refarch-eda-store-inventory/src/test/java/ut/TestDeadLetterTopic.java:57-63 | no event is found in both topics |
| `Topology.SplitIgnoresPayload` | lab2/refarch-eda-store-inventory/src/test/java/ut/TestDeadLetterTopic.java:58 | inputs that differ only in keys, operation types, quantities or prices fill both topics with equally many events, holding the same store names and skus position by position |
| `Topology.SplitPreservesKeys` | lab2/refarch-eda-store-inventory/src/test/java/ut/TestDeadLetterTopic.java:62-63 | keys are forwarded verbatim: inputs keyed by their store name (as piped at lines 117, 126) give outputs keyed by their store name |
| `Driver.Router.constructor` | lab2/refarch-eda-store-inventory/src/test/java/ut/TestDeadLetterTopic.java:77-83 | a new driver has empty output and dead-letter queues and nothing piped |
| `Driver.Router.Route` | lab2/refarch-eda-store-inventory/src/test/java/ut/TestDeadLetterTopic.java:57-63 | piping one event appends it unchanged to the dead-letter queue if it is wrong, else to the output queue; the other queue is unchanged and the queues stay equal to `Split` of all piped events minus what was read |
| `Driver.Router.ReadValue` | lab2/refarch-eda-store-inventory/src/test/java/ut/TestDeadLetterTopic.java:119 | reading removes and returns the value at the front of that queue and leaves the other queue untouched; an empty queue gives None and changes nothing |
| `Driver.Router.QueueSize` | lab2/refarch-eda-store-inventory/src/test/java/ut/TestDeadLetterTopic.java:118 | the size of a queue is the number of events the topology routed there minus the number already read |
| `Driver.Router.IsEmpty` | lab2/refarch-eda-store-inventory/src/test/java/ut/TestDeadLetterTopic.java:127-128 | a topic reports empty exactly when its queue holds no unread record |
| `Driver.DrainedReadsEverything` | lab2/refarch-eda-store-inventory/src/test/java/ut/TestDeadLetterTopic.java:109-163 | when both queues are empty, every piped event has been read back from exactly one topic |
| `DeadLetterTests.Setup` | lab2/refarch-eda-store-inventory/src/test/java/ut/TestDeadLetterTopic.java:73-85 | the fixture starts drained, with nothing piped |
| `DeadLetterTests.IsEmptyCase` | lab2/refarch-eda-store-inventory/src/test/java/ut/TestDeadLetterTopic.java:109-112 | with nothing pending, the output topic reports empty |
| `DeadLetterTests.SendValidRecord` | lab2/refarch-eda-store-inventory/src/test/java/ut/TestDeadLetterTopic.java:114-121 | a valid record makes the output queue size 1, and the value read back has store name "Store-1"; the driver is drained again afterwards |
| `DeadLetterTests.DeadLetterCase` | lab2/refarch-eda-store-inventory/src/test/java/ut/TestDeadLetterTopic.java:123-163 | any wrong record leaves the output topic empty and the dead-letter topic non-empty, and the dead-letter topic gives back exactly that record |
| `DeadLetterTests.NullStoreNameCase` | lab2/refarch-eda-store-inventory/src/test/java/ut/TestDeadLetterTopic.java:123-131 | a null store name: output empty, dead letter non-empty, read-back sku "Item-1" |
| `DeadLetterTests.EmptyStoreNameCase` | lab2/refarch-eda-store-inventory/src/test/java/ut/TestDeadLetterTopic.java:133-141 | an empty store name: output empty, dead letter non-empty, read-back sku "Item-1" |
| `DeadLetterTests.NullSkuCase` | lab2/refarch-eda-store-inventory/src/test/java/ut/TestDeadLetterTopic.java:143-153 | a null sku: output empty, dead letter non-empty, read-back store name "Store-1" |
| `DeadLetterTests.EmptySkuCase` | lab2/refarch-eda-store-inventory/src/test/java/ut/TestDeadLetterTopic.java:155-163 | an empty sku: output empty, dead letter non-empty, read-back sku "" |
| `DeadLetterTests.SingleEventOutcomes` | lab2/refarch-eda-store-inventory/src/test/java/ut/TestDeadLetterTopic.java:114-163 | a single valid event fills only the output topic; a single wrong event fills only the dead-letter topic |

## Left out

- Kafka Streams machinery is not modelled: `StreamsBuilder`, `Topology`, `TopologyTestDriver`, `topology.describe()`, and the lookup of branches by their "B-"-prefixed names. Only the routing semantics of split/branch/defaultBranch/to are modelled.
- Serialisation is not modelled (`StoreSerdes.ItemTransactionSerde()`, `Serdes.String()`, the string (de)serialisers). Values reach the queues as the same Dafny values.
- `getStreamsConfig` (lines 87-94) is not modelled. It only sets configuration properties.
- The `peek` printouts (lines 64, 66, 68) are not modelled, and neither are the post-branch streams that re-read the output topics only to print them. They write to standard output and feed nothing back, so leaving them out cannot change either queue.
- `unitPrice` is a `real`, not an IEEE double. It is carried along and never read, so the difference cannot affect routing.
- `tearDown` (lines 96-103), which closes the driver and swallows any exception, is not modelled. It is fixture lifecycle only.
- `Driver.Router.ReadValue`: the driver raises an error when asked to read an empty topic. The model returns None and leaves the state unchanged. No test reads an empty topic.
- Null record values are not modelled. Every `Event` carries a present `ItemTransaction`. In the source, the predicate at line 58 reads `v.storeName` without a null check. So a null value, such as `pipeInput(key, null)` or a tombstone the serde decodes to null, would throw inside the topology instead of being routed.
- Concurrency, partitioning and delivery guarantees of the runtime are outside this stage. The driver processes one event at a time.
