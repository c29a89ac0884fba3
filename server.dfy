/**
  The `Server` of pkg/server/server.go: creation with defaults, the start-up
  sequence up to the point where serving begins, the address clients are
  given, and the readiness probe.

  Sockets, the clock and the outcome of each dial are not computed here: they
  are parameters. A registration or listen failure, which ends the process
  through `log.Fatal` in the source, is a `Fatal` outcome.
 */
module Lifecycle {
  import opened GoStrings
  import opened ServerConfig

  /** One nanosecond is the unit of every duration and clock reading (Go's `time.Duration`). */
  const Millisecond: int := 1_000_000
  /** The pause between two readiness attempts. */
  const RetryInterval: int := 25 * Millisecond

  /** What `net.Listen` returned: an error, or a listener and the address it reports. */
  datatype ListenResult = ListenFailed | Listening(resolved: string)

  /** The fatal start-up errors, in the order `Start` meets them. */
  datatype StartError = RegisterServerFailed | RegisterHandlerFailed | ListenError

  /** The two ways of serving the multiplexed handler. */
  datatype Transport = Tls | Cleartext

  /** Where `Start` ends up: terminated with an error, or serving over a transport. */
  datatype StartOutcome = Fatal(error: StartError) | Serving(transport: Transport)

  /** The error `readyForConnections` returns, carrying the duration it waited for. */
  datatype ReadyError = NotReadyAfter(d: int)

  datatype Option<T> = None | Some(value: T)

  /** The loop test before attempt `i` finds the clock still before the deadline `clock[0] + d`. */
  predicate BeforeDeadline(d: int, clock: seq<int>, i: int)
    requires 0 <= i && i + 1 < |clock|
  {
    clock[i + 1] < clock[0] + d
  }

  /**
    The probe has a success within the deadline: attempt `j` reached the
    server, and the clock was before the deadline at every loop test up to
    and including the one that let attempt `j` run.
   */
  ghost predicate ReachedBeforeDeadline(d: int, clock: seq<int>, dials: seq<bool>)
    requires |clock| >= 1
  {
    exists j :: 0 <= j < |dials| && j + 1 < |clock| && dials[j]
      && forall k :: 0 <= k <= j ==> BeforeDeadline(d, clock, k)
  }

  class Server {
    const conf: Config

    /** `New`: applies the defaults to the caller's configuration and keeps a reference to it. */
    constructor New(conf: Config)
      modifies conf
      ensures this.conf == conf
      ensures conf.Current() == Baseline(old(conf.Current()))
    {
      SetBaselineConfig(conf);
      this.conf := conf;
    }

    /** `ClientAddr`: the address to give clients, as stored in the configuration (rewritten by `Start` if it asked for a free port). */
    function ClientAddr(): (a: string)
      reads this, conf
      ensures a == conf.address
    {
      conf.address
    }

    /**
      `Start` up to the point where it begins serving. `registerServerFails`
      and `registerHandlerFails` are the outcomes of the two registrations of
      the task service and `listen` that of `net.Listen(conf.Network,
      conf.Address)`. The first failure is fatal; otherwise an address ending
      in ":0" becomes the listener's address and the server serves over TLS
      when TLS is enabled, in cleartext HTTP/2 otherwise.
     */
    method Start(registerServerFails: bool, registerHandlerFails: bool, listen: ListenResult)
      returns (outcome: StartOutcome)
      modifies conf
      ensures registerServerFails ==> outcome == Fatal(RegisterServerFailed)
      ensures !registerServerFails && registerHandlerFails ==> outcome == Fatal(RegisterHandlerFailed)
      ensures !registerServerFails && !registerHandlerFails && listen == ListenFailed
              ==> outcome == Fatal(ListenError)
      ensures !registerServerFails && !registerHandlerFails && listen.Listening?
              ==> outcome == Serving(if conf.tlsEnabled then Tls else Cleartext)
      ensures outcome.Fatal? ==> conf.Current() == old(conf.Current())
      ensures outcome.Serving? ==>
                conf.Current() == old(conf.Current()).(address := EphemeralRewrite(old(conf.address), listen.resolved))
      ensures outcome.Serving? ==> ClientAddr() == EphemeralRewrite(old(conf.address), listen.resolved)
    {
      if registerServerFails {
        return Fatal(RegisterServerFailed);
      }
      if registerHandlerFails {
        return Fatal(RegisterHandlerFailed);
      }
      if listen == ListenFailed {
        return Fatal(ListenError);
      }
      if HasSuffix(conf.address, EphemeralSuffix) {
        conf.address := listen.resolved;
      }
      outcome := Serving(if conf.tlsEnabled then Tls else Cleartext);
    }

    /**
      `readyForConnections(d)`. `clock` holds the successive readings of
      `time.Now()`: `clock[0]` fixes the deadline `clock[0] + d`, and
      `clock[i + 1]` is the reading tested before attempt `i`. `dials[i]` says
      whether attempt `i` connected to the configured address. The readings
      must reach the deadline, as the real clock does.

      Success is returned exactly when an attempt connected before the
      deadline; each failed attempt is followed by a pause when `d` exceeds
      25 ms, and `sleeps` counts those pauses.
     */
    method ReadyForConnectionsError(d: int, clock: seq<int>, dials: seq<bool>)
      returns (err: Option<ReadyError>, attempts: nat, sleeps: nat)
      requires |clock| >= 2 && clock[|clock| - 1] >= clock[0] + d
      requires |dials| >= |clock| - 2
      ensures attempts + 1 < |clock| && attempts <= |dials|
      ensures err == None <==> ReachedBeforeDeadline(d, clock, dials)
      ensures err == None <==> attempts > 0 && dials[attempts - 1]
      ensures err != None ==> err == Some(NotReadyAfter(d)) && !BeforeDeadline(d, clock, attempts)
      ensures forall k :: 0 <= k < attempts ==> BeforeDeadline(d, clock, k)
      ensures forall k :: 0 <= k < attempts && (err != None || k < attempts - 1) ==> !dials[k]
      ensures sleeps == if d > RetryInterval then (if err == None then attempts - 1 else attempts) else 0
    {
      var end := clock[0] + d;
      attempts, sleeps := 0, 0;
      while clock[attempts + 1] < end
        invariant attempts + 1 < |clock|
        invariant forall k :: 0 <= k < attempts ==> BeforeDeadline(d, clock, k) && !dials[k]
        invariant sleeps == if d > RetryInterval then attempts else 0
        decreases |clock| - attempts
      {
        attempts := attempts + 1;
        if dials[attempts - 1] {
          assert forall k :: 0 <= k <= attempts - 1 ==> BeforeDeadline(d, clock, k);
          return None, attempts, sleeps;
        }
        if d > RetryInterval {
          sleeps := sleeps + 1;
        }
      }
      err := Some(NotReadyAfter(d));
      forall j | 0 <= j < |dials| && j + 1 < |clock| && dials[j]
        ensures !forall k :: 0 <= k <= j ==> BeforeDeadline(d, clock, k)
      {
        assert attempts <= j && !BeforeDeadline(d, clock, attempts);
      }
    }

    /** `ReadyForConnections(d)`: true exactly when `readyForConnections(d)` returns no error. */
    method ReadyForConnections(d: int, clock: seq<int>, dials: seq<bool>) returns (ready: bool)
      requires |clock| >= 2 && clock[|clock| - 1] >= clock[0] + d
      requires |dials| >= |clock| - 2
      ensures ready <==> ReachedBeforeDeadline(d, clock, dials)
      ensures (forall k :: 0 <= k < |dials| ==> !dials[k]) ==> !ready
    {
      var err, _, _ := ReadyForConnectionsError(d, clock, dials);
      ready := err == None;
    }
  }
}
