/** Small vocabulary shared by every component of the model. */
module Basics {

  datatype Option<+T> = None | Some(value: T)

  /** What a client learns about a remote write: that it took effect, or only that the
      call failed, in which case the write may or may not have been applied. */
  datatype Ack = Acked | Unknown(applied: bool) {
    predicate Applied() { Acked? || applied }
  }

  /** What an event's row says about it. */
  datatype EventInfo = EventInfo(name: string, date: string, venue: string)

  /** TicketPurchasedPayload (services/ticket/internal/publisher/publisher.go), which the
      handler's TicketPurchasePayload repeats field by field. */
  datatype Payload = Payload(ref: string, user: nat, event: nat, info: EventInfo, quantity: int)

  function Min(a: int, b: int): int { if a <= b then a else b }

  /** Removes every key whose value is `owner`: what the server does with the row locks
      and the pinned connections of a session that ends. */
  function Without<K(!new), V(==)>(m: map<K, V>, owner: V): (r: map<K, V>)
    ensures forall k :: k in r <==> k in m && m[k] != owner
    ensures forall k :: k in r ==> r[k] == m[k]
  {
    map k | k in m && m[k] != owner :: m[k]
  }

  /** A number above all of a set. */
  lemma {:induction false} AboveAll(s: set<nat>) returns (b: nat)
    ensures forall x :: x in s ==> x < b
    decreases s
  {
    b := 0;
    if s != {} {
      var x :| x in s;
      b := AboveAll(s - {x});
      if b <= x { b := x + 1; }
      assert forall y :: y in s ==> y == x || y in s - {x};
    }
  }

  /** A set of positive numbers up to `n` has at most `n` elements. */
  lemma {:induction false} CardinalityUpTo(s: set<nat>, n: nat)
    requires forall k :: k in s ==> 1 <= k <= n
    ensures |s| <= n
  {
    if n == 0 {
      assert s == {};
    } else {
      CardinalityUpTo(s - {n}, n - 1);
    }
  }
}
