/**
 * The item-transaction record that flows through the dead-letter stage,
 * the keyed event that carries it, and the validity rule applied to it
 * (TestDeadLetterTopic.java, line 58).
 */
module Transactions {
  import opened Wrappers

  /**
   * An inventory transaction. `storeName` and `sku` are Java strings that
   * may be null; the other fields never take part in a routing decision.
   * `unitPrice` is a Java double in the source; it is carried, never read.
   */
  datatype ItemTransaction = ItemTransaction(
    storeName: Option<string>,
    sku: Option<string>,
    operationType: int,
    quantity: int,
    unitPrice: real)

  /** A record as piped into a topic: a (possibly null) key and the value. */
  datatype Event = Event(key: Option<string>, value: ItemTransaction)

  /** A field that is present and holds at least one character. */
  predicate HasText(field: Option<string>)
  {
    field.Some? && |field.value| > 0
  }

  /**
   * The branch predicate of line 58: null or empty `storeName`, or null or
   * empty `sku`, checked left to right as Java's `||` does.
   */
  predicate IsWrong(tx: ItemTransaction)
    ensures IsWrong(tx) <==> !(HasText(tx.storeName) && HasText(tx.sku))
  {
    tx.storeName.None? || tx.storeName.value == "" || tx.sku.None? || tx.sku.value == ""
  }

  /** Only `storeName` and `sku` drive the decision. */
  predicate SameRoutingFields(a: ItemTransaction, b: ItemTransaction)
  {
    a.storeName == b.storeName && a.sku == b.sku
  }

  /** Changing the operation type, quantity or price never changes validity. */
  lemma IsWrongIgnoresPayload(tx: ItemTransaction, operationType: int, quantity: int, unitPrice: real)
    ensures IsWrong(tx.(operationType := operationType, quantity := quantity, unitPrice := unitPrice)) == IsWrong(tx)
  {
  }
}
