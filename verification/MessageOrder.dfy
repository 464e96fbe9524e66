/** The order in which a session's messages are read: by (created_at, id). */
module MessageOrder {

  /** `id` is the rank of the message id among strings. */
  datatype Key = Key(createdAt: int, id: nat) {
    predicate Before(other: Key) {
      createdAt < other.createdAt || (createdAt == other.createdAt && id < other.id)
    }
  }

  /** A strict total order that goes by time first and by id among equal times. */
  lemma KeysAreOrdered(a: Key, b: Key, c: Key)
    ensures !a.Before(a) && (a.Before(b) && b.Before(c) ==> a.Before(c))
    ensures a == b || a.Before(b) || b.Before(a)
    ensures a.createdAt < b.createdAt ==> a.Before(b)
    ensures a.createdAt == b.createdAt ==> (a.Before(b) <==> a.id < b.id)
  {
  }

  /** A stored row with its place in the order. */
  datatype Keyed<+T> = Keyed(key: Key, value: T)

  predicate InOrder<T>(rows: seq<Keyed<T>>) {
    forall i, j | 0 <= i < j < |rows| :: rows[i].key.Before(rows[j].key)
  }
}
