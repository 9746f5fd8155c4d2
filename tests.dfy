/**
 * The test cases of TestDeadLetterTopic.java (lines 105-163) as methods on
 * the one driver that all of them share (the static fields set in `setup`).
 * Each case starts from and leaves a drained driver, so the cases pass in
 * any order. The source pipes `RESTOCK`, quantity 5 and price 33.2; here
 * those three are parameters, so each case holds for every choice of them.
 */
module DeadLetterTests {
  import opened Wrappers
  import opened Transactions
  import opened Topology
  import opened Driver

  /** `setup`: builds the topology and the driver around it. */
  method Setup() returns (r: Router)
    ensures fresh(r) && Drained(r) && r.piped == []
  {
    r := new Router();
  }

  /** `isEmpty`: with nothing pending, the output topic is empty. */
  method IsEmptyCase(r: Router) returns (outputEmpty: bool)
    requires Drained(r)
    ensures outputEmpty
  {
    outputEmpty := r.IsEmpty(OutputTopic);
  }

  /** `sendValidRecord`: one good record, read back with its store name. */
  method SendValidRecord(r: Router, operationType: int, quantity: int, unitPrice: real)
    returns (queueSize: nat, filtered: Option<ItemTransaction>)
    requires Drained(r)
    modifies r
    ensures Drained(r)
    ensures queueSize == 1
    ensures filtered.Some? && filtered.value.storeName == Some("Store-1")
  {
    var item := ItemTransaction(Some("Store-1"), Some("Item-1"), operationType, quantity, unitPrice);
    r.Route(item.storeName, item);
    queueSize := r.QueueSize(OutputTopic);
    filtered := r.ReadValue(OutputTopic);
  }

  /** The four dead-letter cases share one shape: pipe, check both topics, read. */
  method DeadLetterCase(r: Router, item: ItemTransaction)
    returns (outputEmpty: bool, deadLetterEmpty: bool, filtered: Option<ItemTransaction>)
    requires Drained(r)
    requires IsWrong(item)
    modifies r
    ensures Drained(r)
    ensures outputEmpty && !deadLetterEmpty
    ensures filtered == Some(item)
  {
    r.Route(item.storeName, item);
    outputEmpty := r.IsEmpty(OutputTopic);
    deadLetterEmpty := r.IsEmpty(DeadLetterTopic);
    filtered := r.ReadValue(DeadLetterTopic);
  }

  /** `nullStoreNameRecordShouldGetNoOutputMessageButDeadLetterMessage`. */
  method NullStoreNameCase(r: Router, operationType: int, quantity: int, unitPrice: real)
    returns (outputEmpty: bool, deadLetterEmpty: bool, filtered: Option<ItemTransaction>)
    requires Drained(r)
    modifies r
    ensures Drained(r)
    ensures outputEmpty && !deadLetterEmpty
    ensures filtered.Some? && filtered.value.sku == Some("Item-1")
  {
    var item := ItemTransaction(None, Some("Item-1"), operationType, quantity, unitPrice);
    outputEmpty, deadLetterEmpty, filtered := DeadLetterCase(r, item);
  }

  /** `emptyStoreNameRecordShouldGetNoOutputMessage`. */
  method EmptyStoreNameCase(r: Router, operationType: int, quantity: int, unitPrice: real)
    returns (outputEmpty: bool, deadLetterEmpty: bool, filtered: Option<ItemTransaction>)
    requires Drained(r)
    modifies r
    ensures Drained(r)
    ensures outputEmpty && !deadLetterEmpty
    ensures filtered.Some? && filtered.value.sku == Some("Item-1")
  {
    var item := ItemTransaction(Some(""), Some("Item-1"), operationType, quantity, unitPrice);
    outputEmpty, deadLetterEmpty, filtered := DeadLetterCase(r, item);
  }

  /** `nullSkuRecordShouldGetNoOutputMessage`. */
  method NullSkuCase(r: Router, operationType: int, quantity: int, unitPrice: real)
    returns (outputEmpty: bool, deadLetterEmpty: bool, filtered: Option<ItemTransaction>)
    requires Drained(r)
    modifies r
    ensures Drained(r)
    ensures outputEmpty && !deadLetterEmpty
    ensures filtered.Some? && filtered.value.storeName == Some("Store-1")
  {
    var item := ItemTransaction(Some("Store-1"), None, operationType, quantity, unitPrice);
    outputEmpty, deadLetterEmpty, filtered := DeadLetterCase(r, item);
  }

  /** `emptySkuRecordShouldGetNoOutputMessage`. */
  method EmptySkuCase(r: Router, operationType: int, quantity: int, unitPrice: real)
    returns (outputEmpty: bool, deadLetterEmpty: bool, filtered: Option<ItemTransaction>)
    requires Drained(r)
    modifies r
    ensures Drained(r)
    ensures outputEmpty && !deadLetterEmpty
    ensures filtered.Some? && filtered.value.sku == Some("")
  {
    var item := ItemTransaction(Some("Store-1"), Some(""), operationType, quantity, unitPrice);
    outputEmpty, deadLetterEmpty, filtered := DeadLetterCase(r, item);
  }

  /** The pure view of the same cases: one event of each kind through Split. */
  lemma SingleEventOutcomes(key: Option<string>, tx: ItemTransaction)
    ensures !IsWrong(tx) ==> Split([Event(key, tx)]) == Outputs([Event(key, tx)], [])
    ensures IsWrong(tx) ==> Split([Event(key, tx)]) == Outputs([], [Event(key, tx)])
  {
    ClassifyIsValidity(Event(key, tx));
    assert [Event(key, tx)][..0] == [];
  }
}
