/** A sender's work queue: the buffer of a Go channel created with capacity
    100, fed by the router with non-blocking sends (`select` with a `default`
    branch), so an address offered to a full buffer is dropped. */
module BoundedQueue {

  /** Buffer size of every sender's channel. */
  const Capacity: nat := 100

  /** Addresses waiting for the sender's worker, oldest first. */
  type Queue = seq<string>

  /** How many of `n` offered addresses a queue holding `q` still accepts. */
  function Room(q: Queue, n: nat): (k: nat)
    ensures k <= n
    ensures k == n || |q| + k >= Capacity
    ensures |q| <= Capacity ==> |q| + k <= Capacity
  {
    if |q| >= Capacity then 0
    else if n <= Capacity - |q| then n
    else Capacity - |q|
  }

  /** Non-blocking send of each address of `c`, in order: an address is
      appended when the buffer is below capacity at that moment and dropped
      otherwise. The result is the queue followed by the longest prefix of
      `c` that fits. */
  function Offer(q: Queue, c: seq<string>): (r: Queue)
    ensures r == q + c[..Room(q, |c|)]
    ensures |q| <= Capacity ==> |r| <= Capacity
    ensures |q| + |c| <= Capacity ==> r == q + c
    ensures |q| >= Capacity ==> r == q
    decreases |c|
  {
    if c == [] then q
    else if |q| < Capacity then
      assert (q + [c[0]]) + c[1..][..Room(q + [c[0]], |c| - 1)] == q + c[..Room(q, |c|)];
      Offer(q + [c[0]], c[1..])
    else Offer(q, c[1..])
  }

  /** Offering `a` and then `b` is offering `a + b`: the router's two send
      loops (bounced, then complained recipients) act as one loop over the
      concatenated list. */
  lemma OfferConcat(q: Queue, a: seq<string>, b: seq<string>)
    ensures Offer(Offer(q, a), b) == Offer(q, a + b)
  {
  }
}
