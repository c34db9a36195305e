/**
 * The change notifications a RecyclerView adapter sends (`notifyItemInserted`,
 * `notifyItemRemoved`, `notifyItemChanged`), recorded as a log, and the change
 * in item count a log announces.
 */
module Notifications {

  datatype Notify = ItemInserted(position: int) | ItemRemoved(position: int) | ItemChanged(position: int)

  /** Inserts minus removes: by how much the log says the item count changed. */
  function Net(log: seq<Notify>): int {
    if log == [] then 0
    else
      var last := log[|log| - 1];
      Net(log[..|log| - 1]) + (if last.ItemInserted? then 1 else if last.ItemRemoved? then -1 else 0)
  }

  /** The count change of two logs in a row is the sum of their count changes. */
  lemma {:induction false} NetAppend(a: seq<Notify>, b: seq<Notify>)
    ensures Net(a + b) == Net(a) + Net(b)
    decreases |b|
  {
    if b != [] {
      var b' := b[..|b| - 1];
      assert (a + b)[..|a + b| - 1] == a + b';
      NetAppend(a, b');
    } else {
      assert a + b == a;
    }
  }
}
