/** Where reading a stream of events ends (model/anthropic/stream.go, model/openai/stream.go). */
module StreamEnds {
  /** At the first event that ends the stream, at the cancellation, or at the end of the input. */
  function EndAt<E>(events: seq<E>, cancelled: nat, ends: E -> bool): (n: nat)
    ensures n <= |events| && n <= cancelled
  {
    if events == [] || cancelled == 0 || ends(events[0]) then 0 else 1 + EndAt(events[1..], cancelled - 1, ends)
  }

  lemma {:induction false} EndAtIs<E>(events: seq<E>, cancelled: nat, ends: E -> bool, n: nat)
    requires n <= |events| && n <= cancelled && forall i :: 0 <= i < n ==> !ends(events[i])
    requires n == |events| || n == cancelled || ends(events[n])
    ensures EndAt(events, cancelled, ends) == n
  {
    if n > 0 {
      EndAtIs(events[1..], cancelled - 1, ends, n - 1);
    }
  }
}
