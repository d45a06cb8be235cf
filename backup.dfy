/**
 * Backup and restore: the record `exportData` writes and the per-key merge
 * `importData` performs.
 */
module Backup {
  import opened Wrappers
  import opened Records

  /**
   * A parsed backup document. A key that is absent (or null) in the JSON is
   * `None`; the cart is never part of a backup.
   */
  datatype Backup = Backup(
    products: Option<seq<Product>>,
    orders: Option<seq<Order>>,
    messages: Option<seq<Message>>,
    exportDate: Option<string>)

  /** `importData`'s rule for one collection: a key present in the document replaces it wholesale. */
  function Restored<T>(current: seq<T>, incoming: Option<seq<T>>): (r: seq<T>)
    ensures incoming.Some? ==> r == incoming.value
    ensures incoming.None? ==> r == current
  {
    incoming.GetOr(current)
  }
}
