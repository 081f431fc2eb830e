/** The store client's setup (db/prisma.ts): the cache connection's reconnect backoff, and the reuse of
    one client across evaluations of the module in a development process. */
module Prisma {
  import opened Wrappers

  const MAX_RETRIES_PER_REQUEST := 3
  const RETRY_STEP := 200
  const RETRY_CAP := 3000

  /** `retryStrategy(times)`: no delay (stop retrying) after the third attempt, otherwise
      `Math.min(times * 200, 3000)` milliseconds. */
  function RetryStrategy(times: int): (delay: Option<int>)
    ensures delay.None? <==> times > 3
    ensures delay.Some? ==> delay.value <= RETRY_CAP
  {
    if times > 3 then None
    else if times * RETRY_STEP < RETRY_CAP then Some(times * RETRY_STEP)
    else Some(RETRY_CAP)
  }

  /** Because retrying stops after the third attempt, the 3000 ms cap is never reached: every delay is
      exactly 200 ms per attempt, at most 600 ms. */
  lemma RetryDelayIsLinear(times: int)
    requires times <= 3
    ensures RetryStrategy(times) == Some(times * RETRY_STEP)
    ensures 1 <= times ==> 200 <= RetryStrategy(times).value <= 600
  {
  }

  /** The delay does not decrease from one attempt to the next while retrying. */
  lemma RetryDelayMonotone(a: int, b: int)
    requires a <= b <= 3
    ensures RetryStrategy(a).value <= RetryStrategy(b).value
  {
  }

  /** A client the module constructs; `serial` counts constructions in the process. */
  datatype ClientHandle = ClientHandle(serial: nat)

  /** The process's global object, which outlives re-evaluations of the module. */
  class GlobalScope {
    var prismaGlobal: Option<ClientHandle>
    var constructed: nat

    constructor ()
      ensures prismaGlobal.None? && constructed == 0
    {
      prismaGlobal, constructed := None, 0;
    }

    /** One evaluation of the module: reuse the global client if there is one, else construct a new one;
        outside production, store the client in the global. */
    method LoadModule(nodeEnv: Option<string>) returns (prisma: ClientHandle)
      modifies this
      ensures old(prismaGlobal).Some? ==> prisma == old(prismaGlobal).value && constructed == old(constructed)
      ensures old(prismaGlobal).None? ==> prisma == ClientHandle(old(constructed)) && constructed == old(constructed) + 1
      ensures nodeEnv != Some("production") ==> prismaGlobal == Some(prisma)
      ensures nodeEnv == Some("production") ==> prismaGlobal == old(prismaGlobal)
    {
      if prismaGlobal.Some? {
        prisma := prismaGlobal.value;
      } else {
        prisma := ClientHandle(constructed);
        constructed := constructed + 1;
      }
      if nodeEnv != Some("production") {
        prismaGlobal := Some(prisma);
      }
    }

    /** Two evaluations outside production, as a development server's reload makes them, share one
        client and construct at most one. */
    method ReloadOutsideProduction(nodeEnv: Option<string>) returns (first: ClientHandle, second: ClientHandle)
      requires nodeEnv != Some("production")
      modifies this
      ensures first == second && prismaGlobal == Some(first)
      ensures constructed <= old(constructed) + 1
    {
      first := LoadModule(nodeEnv);
      second := LoadModule(nodeEnv);
    }

    /** In production nothing is stored, so each evaluation constructs a fresh client. */
    method ReloadInProduction() returns (first: ClientHandle, second: ClientHandle)
      requires prismaGlobal.None?
      modifies this
      ensures first != second && prismaGlobal.None?
      ensures constructed == old(constructed) + 2
    {
      first := LoadModule(Some("production"));
      second := LoadModule(Some("production"));
    }
  }
}
