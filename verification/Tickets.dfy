/** The shared state of a conversation's control stream, as a value. */
module Tickets {
  // Message numbers of section 4 of RFC 4254.
  const GLOBAL_REQUEST: nat := 80
  const REQUEST_SUCCESS: nat := 81
  const REQUEST_FAILURE: nat := 82

  /** Both ticket queues, the poison flag and the replies that were abandoned. The counters
      are 64 bits wide in the program and do not wrap in any conversation that ends. */
  datatype Shared = Shared(
    rNext: nat, rServing: nat, wNext: nat, wServing: nat,
    poisoned: bool, autoFailures: set<nat>)
  {
    function TakeWriter(): Shared { this.(wNext := wNext + 1) }
    function TakeReader(): Shared { this.(rNext := rNext + 1) }
    function ReleaseWriter(): Shared { this.(wServing := wServing + 1) }
    function ReleaseReader(): Shared { this.(rServing := rServing + 1) }
    function Poison(): Shared { this.(poisoned := true) }
    function Queue(t: nat): Shared { this.(autoFailures := autoFailures + {t}) }
    function Unqueue(t: nat): Shared { this.(autoFailures := autoFailures - {t}) }
  }

  const FRESH := Shared(0, 0, 0, 0, false, {})

  /** How many consecutive tickets, from `from` on, are queued. */
  function RunLength(queue: set<nat>, from: nat): nat
    decreases queue
  {
    if from in queue then 1 + RunLength(queue - {from}, from + 1) else 0
  }

  /** The `n` tickets from `from` on. */
  function Span(from: nat, n: nat): (r: set<nat>)
    ensures forall t: nat :: t in r <==> from <= t < from + n
  {
    if n == 0 then {} else Span(from, n - 1) + {from + n - 1}
  }

  /** The run is queued throughout and the ticket just past it is not. */
  lemma {:induction false} RunLengthIsLongest(queue: set<nat>, from: nat)
    ensures Span(from, RunLength(queue, from)) <= queue
    ensures from + RunLength(queue, from) !in queue
    decreases queue
  {
    if from in queue { RunLengthIsLongest(queue - {from}, from + 1); }
  }

  /** ... and it is the only length like that. */
  lemma RunLengthUnique(queue: set<nat>, from: nat, n: nat)
    requires Span(from, n) <= queue && from + n !in queue
    ensures n == RunLength(queue, from)
  {
    RunLengthIsLongest(queue, from);
    var m := RunLength(queue, from);
    assert from + n in Span(from, m) <==> n < m;
    assert from + m in Span(from, n) <==> m < n;
  }
}
