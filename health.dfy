/**
  The health registry and its oscillator (`runHealthCheckLoop`): the
  whole-process status, kept under the empty service name, starts at SERVING
  and is flipped on every round of the loop.
 */
module Health {

  /** The empty service name stands for the whole process rather than one service. */
  const SystemService: string := ""

  /** The two values of the standard health-check protocol that the loop uses. */
  datatype ServingStatus = Serving | NotServing

  /** One call of `SetServingStatus`. */
  datatype StatusUpdate = StatusUpdate(service: string, status: ServingStatus)

  /** The status the loop sets after `s`. */
  function Toggle(s: ServingStatus): (r: ServingStatus)
    ensures r != s
  {
    if s == Serving then NotServing else Serving
  }

  /** The status set in round `k` (counting from 0) of the loop. */
  function StatusAt(k: nat): (s: ServingStatus)
    ensures s == Serving <==> k % 2 == 0
  {
    if k == 0 then Serving else Toggle(StatusAt(k - 1))
  }

  /** Two consecutive rounds set different statuses. */
  lemma {:induction false} ConsecutiveRoundsDiffer(k: nat)
    ensures StatusAt(k + 1) != StatusAt(k)
    ensures StatusAt(k + 2) == StatusAt(k)
  {
  }

  /** The calls the first `n` rounds of the loop make, in order. */
  function Oscillation(n: nat): (u: seq<StatusUpdate>)
    ensures |u| == n
    ensures forall k :: 0 <= k < n ==> u[k].service == SystemService
    ensures forall k :: 0 <= k < n ==> (u[k].status == Serving <==> k % 2 == 0)
  {
    seq(n, k requires 0 <= k => StatusUpdate(SystemService, StatusAt(k)))
  }

  /** Running more rounds only extends what the earlier rounds set. */
  lemma {:induction false} OscillationExtends(n: nat)
    ensures Oscillation(n + 1) == Oscillation(n) + [StatusUpdate(SystemService, StatusAt(n))]
  {
    assert Oscillation(n + 1)[..n] == Oscillation(n);
  }

  /**
    `health.Server`: a serving status per service name, and, in `history`,
    every status set so far in order (what a watcher of a service is told).
    A new server reports the whole process as SERVING.
   */
  class HealthServer {
    var statusMap: map<string, ServingStatus>
    ghost var history: seq<StatusUpdate>

    constructor ()
      ensures statusMap == map[SystemService := Serving] && history == []
    {
      statusMap := map[SystemService := Serving];
      history := [];
    }

    /** `SetServingStatus(service, status)`. */
    method SetServingStatus(service: string, status: ServingStatus)
      modifies this
      ensures statusMap == old(statusMap)[service := status]
      ensures history == old(history) + [StatusUpdate(service, status)]
    {
      statusMap := statusMap[service := status];
      history := history + [StatusUpdate(service, status)];
    }
  }

  /**
    The first `rounds` rounds of `runHealthCheckLoop`, which in the server
    never stops; the five-second sleep between rounds is not modelled.
   */
  method RunHealthCheckLoop(h: HealthServer, rounds: nat)
    modifies h
    ensures h.history == old(h.history) + Oscillation(rounds)
    ensures rounds == 0 ==> h.statusMap == old(h.statusMap)
    ensures rounds > 0 ==> h.statusMap == old(h.statusMap)[SystemService := StatusAt(rounds - 1)]
  {
    var next := Serving;
    var i := 0;
    while i < rounds
      invariant 0 <= i <= rounds
      invariant next == StatusAt(i)
      invariant h.history == old(h.history) + Oscillation(i)
      invariant i == 0 ==> h.statusMap == old(h.statusMap)
      invariant i > 0 ==> h.statusMap == old(h.statusMap)[SystemService := StatusAt(i - 1)]
    {
      h.SetServingStatus(SystemService, next);
      OscillationExtends(i);
      if next == Serving {
        next := NotServing;
      } else {
        next := Serving;
      }
      i := i + 1;
    }
  }
}
