/**
  The TCP port waiter of the end-to-end driver: up to retries + 1 connection
  attempts, each a probe (connect_ex) followed, when the probe returns 0, by a
  verification connection; a fixed half-second pause between attempts; and a
  TimeoutError once the budget is spent.

  Sockets are not modelled: the environment's answer to the i-th attempt is the
  oracle value attempt(i). Time is counted in tenths of a second.
*/
module PortWaiter {
  import opened Common

  /** What connect_ex on the probe socket did: returned an error code (0 = connected), or raised. */
  datatype Probe = ConnectEx(code: int) | ProbeRaised

  /** One attempt as the environment answers it. The verification connection is
      only opened after a probe that returned 0; `verification` says whether it
      would succeed (false stands for OSError or any other exception). */
  datatype Attempt = Attempt(probe: Probe, verification: bool)

  /** The error raised when no attempt succeeded, with the values its message reports. */
  datatype TimeoutError = TimeoutError(host: string, port: int, attempts: int, timeout: int)

  /** Pause between two attempts: 0.5 s. */
  const CheckIntervalTenths: nat := 5
  /** Default per-attempt timeout, in seconds. */
  const DefaultTimeout: int := 3
  /** Default number of retries. */
  const DefaultRetries: int := 0

  /** An attempt succeeds when its probe connects and its verification connection opens. */
  predicate Connects(a: Attempt)
  {
    a.probe == ConnectEx(0) && a.verification
  }

  /** The number of iterations of `range(retries + 1)`. */
  function AttemptBudget(retries: int): nat
  {
    if retries + 1 > 0 then retries + 1 else 0
  }

  /** Some attempt within the budget succeeds. */
  ghost predicate PortOpens(attempt: nat -> Attempt, retries: int)
  {
    exists i :: 0 <= i < AttemptBudget(retries) && Connects(attempt(i))
  }

  /**
    wait_for_port(host, port, timeout, retries). Returns Pass the moment an
    attempt is verified, after exactly that many attempts; otherwise runs the whole
    budget and fails with TimeoutError. `attempts` is the number of attempts
    made, `slept` the total pause in tenths of a second.
  */
  method WaitForPort(host: string, port: int, timeout: int, retries: int, attempt: nat -> Attempt)
    returns (r: Outcome<TimeoutError>, attempts: nat, slept: nat)
    ensures attempts <= AttemptBudget(retries)
    ensures r.Pass? <==> PortOpens(attempt, retries)
    ensures r.Pass? ==> 1 <= attempts && Connects(attempt(attempts - 1))
    ensures r.Pass? ==> forall i :: 0 <= i < attempts - 1 ==> !Connects(attempt(i))
    ensures r.Pass? ==> slept == CheckIntervalTenths * (attempts - 1)
    ensures r.Fail? ==> attempts == AttemptBudget(retries)
    ensures r.Fail? ==> forall i :: 0 <= i < attempts ==> !Connects(attempt(i))
    ensures r.Fail? ==> r.error == TimeoutError(host, port, retries + 1, timeout)
    ensures r.Fail? ==> slept == CheckIntervalTenths * Max(0, retries)
  {
    var i := 0;
    slept := 0;
    while i < retries + 1
      invariant 0 <= i <= AttemptBudget(retries)
      invariant forall j :: 0 <= j < i ==> !Connects(attempt(j))
      invariant slept == CheckIntervalTenths * Min(i, Max(0, retries))
    {
      var a := attempt(i);
      if a.probe == ConnectEx(0) {
        if a.verification {
          return Pass, i + 1, slept;
        }
        // the verification connection failed: the port may be in TIME_WAIT, keep trying
      }
      // a probe that raised or returned non-zero is swallowed as well
      if i < retries {
        slept := slept + CheckIntervalTenths;
      }
      i := i + 1;
    }
    return Fail(TimeoutError(host, port, retries + 1, timeout)), i, slept;
  }

  /** wait_for_port(host, port) with the default timeout and retries: exactly one attempt, no pause. */
  method WaitForPortWithDefaults(host: string, port: int, attempt: nat -> Attempt)
    returns (r: Outcome<TimeoutError>, attempts: nat, slept: nat)
    ensures attempts == 1 && slept == 0
    ensures r.Pass? <==> Connects(attempt(0))
    ensures r.Fail? ==> r.error == TimeoutError(host, port, 1, DefaultTimeout)
  {
    r, attempts, slept := WaitForPort(host, port, DefaultTimeout, DefaultRetries, attempt);
  }
}
