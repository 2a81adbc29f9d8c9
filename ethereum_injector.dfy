/**
  The browser's Ethereum injector script: it creates a QWebChannel over the page
  transport, installs the EIP-1193 wrapper once the channel's provider object is
  known, and retries the channel initialization on a capped back-off schedule
  because the bootstrap script may not have run yet.

  Timers are explicit: a run of the retry (or install) function is one element of
  the sequence the model computes, and `next` is the delay it passes to
  setTimeout (None: no timer is scheduled). The environment's answer to the k-th
  initializeWebChannel call (or install attempt) is the oracle value env(k).
*/
module EthereumInjector {
  import opened Common

  /** The counter the top-level retry and the install retry start from. */
  const InitialRetries: nat := 30
  /** The fixed delay between install attempts, in ms. */
  const InstallDelayMs: int := 50

  /** The delay before the next initialization attempt, in ms, when `retries` remain. */
  function RetryDelay(retries: int): int
  {
    50 * Min(31 - retries, 5)
  }

  /** What initializeWebChannel finds: whether qt.webChannelTransport exists, and
      whether constructing the QWebChannel throws. */
  datatype InitEnv = InitEnv(transportPresent: bool, constructionThrows: bool)

  /** initializeWebChannel: true only when the transport exists and the channel
      could be constructed. */
  function InitializeWebChannel(env: InitEnv): (ok: bool)
    ensures ok <==> env.transportPresent && !env.constructionThrows
  {
    if env.transportPresent then
      if env.constructionThrows then false else true
    else false
  }

  /** One run of the retry function. */
  datatype RetryStep = RetryStep(calledInit: bool, initialized: bool, next: Option<int>)

  /** retry(retries, initialized) and every run it schedules. `calls` counts the
      initializeWebChannel calls made before this run. */
  function Retry(retries: nat, initialized: bool, env: nat -> InitEnv, calls: nat): seq<RetryStep>
    decreases retries
  {
    var now := initialized || InitializeWebChannel(env(calls));
    var calls' := if initialized then calls else calls + 1;
    if now then [RetryStep(!initialized, true, None)]
    else if retries == 0 then [RetryStep(!initialized, false, None)]
    else [RetryStep(!initialized, false, Some(RetryDelay(retries)))] + Retry(retries - 1, now, env, calls')
  }

  /** The shape of every retry chain: an already initialized run neither initializes
      nor schedules; otherwise each run calls initializeWebChannel once, the chain
      stops at the first success (or when the counter reaches 0), and every run but
      the last schedules the next after RetryDelay of its counter. */
  lemma {:induction false} RetryShape(retries: nat, env: nat -> InitEnv, calls: nat)
    ensures Retry(retries, true, env, calls) == [RetryStep(false, true, None)]
    ensures 1 <= |Retry(retries, false, env, calls)| <= retries + 1
    ensures forall i :: 0 <= i < |Retry(retries, false, env, calls)| ==>
      Retry(retries, false, env, calls)[i].calledInit
    ensures forall i :: 0 <= i < |Retry(retries, false, env, calls)| - 1 ==>
      !Retry(retries, false, env, calls)[i].initialized && !InitializeWebChannel(env(calls + i))
    ensures forall i :: 0 <= i < |Retry(retries, false, env, calls)| - 1 ==>
      Retry(retries, false, env, calls)[i].next == Some(RetryDelay(retries - i))
    ensures var run := Retry(retries, false, env, calls);
      && run[|run| - 1].next == None
      && (run[|run| - 1].initialized <==> InitializeWebChannel(env(calls + |run| - 1)))
      && (|run| < retries + 1 ==> run[|run| - 1].initialized)
    decreases retries
  {
    var run := Retry(retries, false, env, calls);
    if !InitializeWebChannel(env(calls)) && retries > 0 {
      RetryShape(retries - 1, env, calls + 1);
      var rest := Retry(retries - 1, false, env, calls + 1);
      assert run == [RetryStep(true, false, Some(RetryDelay(retries)))] + rest;
      forall i | 0 <= i < |run|
        ensures run[i].calledInit
      {
        if i > 0 { assert run[i] == rest[i - 1]; }
      }
      forall i | 0 <= i < |run| - 1
        ensures !run[i].initialized && !InitializeWebChannel(env(calls + i))
        ensures run[i].next == Some(RetryDelay(retries - i))
      {
        if i > 0 {
          assert run[i] == rest[i - 1];
          assert calls + i == calls + 1 + (i - 1);
          assert retries - i == retries - 1 - (i - 1);
        }
      }
      assert run[|run| - 1] == rest[|rest| - 1];
      assert calls + 1 + |rest| - 1 == calls + |run| - 1;
    }
  }

  /** The top-level chain retry(30): at most 31 initialization attempts, and the
      delays before attempts 2, 3, 4, 5, 6, ... are 50, 100, 150, 200, 250, 250, ... ms. */
  lemma RetryScheduleFromStart(env: nat -> InitEnv)
    ensures |Retry(InitialRetries, false, env, 0)| <= 31
    ensures var run := Retry(InitialRetries, false, env, 0);
      forall i :: 0 <= i < |run| - 1 ==> run[i].next == Some(50 * Min(i + 1, 5))
    ensures var run := Retry(InitialRetries, false, env, 0);
      forall i :: 0 <= i < |run| - 1 ==> 50 <= run[i].next.value <= 250
  {
    RetryShape(InitialRetries, env, 0);
    var run := Retry(InitialRetries, false, env, 0);
    forall i | 0 <= i < |run| - 1
      ensures run[i].next == Some(50 * Min(i + 1, 5)) && 50 <= run[i].next.value <= 250
    {
      assert run[i].next == Some(RetryDelay(InitialRetries - i));
      assert 31 - (InitialRetries - i) == i + 1;
    }
  }

  /** What the install attempt finds: EthereumWrapper undefined, without an install
      function, an install() that throws, or an install() that returns a result. */
  datatype WrapperEnv = WrapperUndefined | NoInstallFunction | InstallThrows | InstallReturns(result: bool)

  /** One run of the install function: whether it installed, whether install() threw
      (which ends the run and the chain, as nothing catches it), and the timer it set. */
  datatype InstallStep = InstallStep(installed: bool, threw: bool, next: Option<int>)

  /** install(retries) and every run it schedules; `tries` counts earlier attempts. */
  function Install(retries: nat, wrapper: nat -> WrapperEnv, tries: nat): seq<InstallStep>
    decreases retries
  {
    var found := wrapper(tries);
    if found == InstallThrows then [InstallStep(false, true, None)]
    else if found == InstallReturns(true) then [InstallStep(true, false, None)]
    else if retries == 0 then [InstallStep(false, false, None)]
    else [InstallStep(false, false, Some(InstallDelayMs))] + Install(retries - 1, wrapper, tries + 1)
  }

  /** The shape of every install chain: at most retries + 1 attempts, a fixed 50 ms
      between them; it ends at the first attempt that installs or throws, and ends
      before the budget is used up only for one of those two reasons. */
  lemma {:induction false} InstallShape(retries: nat, wrapper: nat -> WrapperEnv, tries: nat)
    ensures 1 <= |Install(retries, wrapper, tries)| <= retries + 1
    ensures forall i :: 0 <= i < |Install(retries, wrapper, tries)| - 1 ==>
      && !Install(retries, wrapper, tries)[i].installed && !Install(retries, wrapper, tries)[i].threw
      && wrapper(tries + i) != InstallReturns(true) && wrapper(tries + i) != InstallThrows
    ensures forall i :: 0 <= i < |Install(retries, wrapper, tries)| - 1 ==>
      Install(retries, wrapper, tries)[i].next == Some(InstallDelayMs)
    ensures var run := Install(retries, wrapper, tries);
      && run[|run| - 1].next == None
      && (run[|run| - 1].installed <==> wrapper(tries + |run| - 1) == InstallReturns(true))
      && (run[|run| - 1].threw <==> wrapper(tries + |run| - 1) == InstallThrows)
      && (|run| < retries + 1 ==> run[|run| - 1].installed || run[|run| - 1].threw)
    decreases retries
  {
    var run := Install(retries, wrapper, tries);
    if wrapper(tries) != InstallReturns(true) && wrapper(tries) != InstallThrows && retries > 0 {
      InstallShape(retries - 1, wrapper, tries + 1);
      var rest := Install(retries - 1, wrapper, tries + 1);
      assert run == [InstallStep(false, false, Some(InstallDelayMs))] + rest;
      forall i | 0 <= i < |run| - 1
        ensures !run[i].installed && !run[i].threw
        ensures wrapper(tries + i) != InstallReturns(true) && wrapper(tries + i) != InstallThrows
        ensures run[i].next == Some(InstallDelayMs)
      {
        if i > 0 {
          assert run[i] == rest[i - 1];
          assert tries + i == tries + 1 + (i - 1);
        }
      }
      assert run[|run| - 1] == rest[|rest| - 1];
      assert tries + 1 + |rest| - 1 == tries + |run| - 1;
    }
  }

  class InjectorWindow {
    /** window.ethereumProvider (None: undefined or null). */
    var ethereumProvider: Option<nat>
    /** The 'qtWebChannelReady' listener is still registered (it was added with once: true). */
    var readyListenerArmed: bool

    /** The script's top-level state: the listener is registered, no provider yet. */
    constructor ()
      ensures ethereumProvider == None && readyListenerArmed
    {
      ethereumProvider := None;
      readyListenerArmed := true;
    }

    /** setupEthereumProvider(channel): store channel.objects.ethereumProvider; without
        one return at once, otherwise run the install chain from 30. The provider is
        stored before the first install attempt, so it stays set when install() throws. */
    method SetupEthereumProvider(provider: Option<nat>, wrapper: nat -> WrapperEnv)
      returns (installRun: seq<InstallStep>)
      modifies this
      ensures ethereumProvider == provider && readyListenerArmed == old(readyListenerArmed)
      ensures provider.None? ==> installRun == []
      ensures provider.Some? ==> installRun == Install(InitialRetries, wrapper, 0)
      ensures provider.Some? ==> 1 <= |installRun| <= 31
    {
      ethereumProvider := provider;
      if provider.None? {
        return [];
      }
      installRun := Install(InitialRetries, wrapper, 0);
      InstallShape(InitialRetries, wrapper, 0);
    }

    /** The 'qtWebChannelReady' event: the listener calls initializeWebChannel the first
        time only. */
    method WebChannelReady(env: InitEnv) returns (initCalled: bool, initialized: bool)
      modifies this
      ensures !readyListenerArmed && ethereumProvider == old(ethereumProvider)
      ensures initCalled == old(readyListenerArmed)
      ensures initialized == (initCalled && InitializeWebChannel(env))
    {
      initCalled := readyListenerArmed;
      initialized := false;
      if readyListenerArmed {
        readyListenerArmed := false;
        initialized := InitializeWebChannel(env);
      }
    }
  }
}
