/**
  Lifecycle of the application under test (AUT) as the end-to-end driver manages
  it: construct, start the process, wait for its control port, attach the UI
  driver's context, and stop (detach, kill, poll for exit).

  The collaborators are oracles: the free-port search, the process spawn, the
  port waiter's attempts, the driver's attach steps and psutil's answers to each
  exit poll. Calls into them are recorded in the ghost trace `effects`. Time is
  counted in tenths of a second.
*/
module AutLifecycle {
  import opened Common
  import PortWaiter

  /** What get_platform() reports. */
  datatype Platform = Windows | Linux | Darwin

  /** Paths and levels that come from the test configuration. */
  datatype Config = Config(squishDir: string, logLevel: string)

  /** A driver-side application context (opaque). */
  datatype Context = Context(id: nat)

  /** psutil's answer when the stop loop inspects the killed process. */
  datatype ProcStatus =
    | Running            // is_running() is true
    | Exited             // is_running() is false
    | NoSuchProcess
    | AccessDenied
    | ZombieProcess
    | InspectionError    // any other exception: logged at debug level, polling goes on

  /** What happens when the command is spawned inside startaut's try block. */
  datatype SpawnOutcome =
    | Spawned(pid: int)
    | LogOpenFailed      // opening the AUT log file raised
    | ExecuteFailed      // local_system.execute raised

  /** The driver's answers inside attach: whether registering the attachable AUT
      succeeds, what get_context resolves (None: it raised), and whether the
      context reports itself running within the process timeout. */
  datatype AttachOutcome = AttachOutcome(registered: bool, resolved: Option<Context>, running: bool)

  /** The errors the lifecycle operations raise to their caller. */
  datatype AutError =
    | FreePortError      // find_free_port raised; it sits outside startaut's try block
    | StartError         // opening the log or spawning raised
    | PortTimeout(timeout: PortWaiter.TimeoutError)
    | PortFormatError    // no port allocated: formatting the timeout message raises TypeError
    | DiagnosticError    // psutil raised something other than NoSuchProcess/AccessDenied in wait's handler
    | AttachError        // registering, resolving or waiting for the context failed

  /** Calls into collaborators, in the order they are made. */
  datatype Effect =
    | SeedCopied(source: string, target: string)
    | WrappersSet(autId: string, toolkits: seq<string>)
    | Detached
    | Killed(pid: int)
    | ExitWarning(pid: int)
    | Executed(argv: seq<string>)
    | AttachableAdded(autId: string, port: Option<int>)
    | ContextResolved(autId: string)
    | ContextSet(ctx: Context)
    | ScreenshotAttached(autId: string)

  /** At most 5 s of exit polling ... */
  const MaxWaitTenths: nat := 50
  /** ... in steps of 0.1 s ... */
  const CheckIntervalTenths: nat := 1
  /** ... hence at most 50 inspections. */
  const MaxPolls: nat := 50

  /** Python truthiness of the recorded pid: None and 0 are falsy. */
  predicate Truthy(pid: Option<int>)
  {
    pid.Some? && pid.value != 0
  }

  /** An inspection outcome that ends the stop loop early. */
  predicate EndsPolling(s: ProcStatus)
  {
    s != Running && s != InspectionError
  }

  /** One of the inspections within the poll budget ended the loop. */
  ghost predicate ExitConfirmed(poll: nat -> ProcStatus)
  {
    exists i :: 0 <= i < MaxPolls && EndsPolling(poll(i))
  }

  /** The collaborator calls stop() makes, given the state it starts in. */
  ghost function StopEffects(ctx: Option<Context>, pid: Option<int>, poll: nat -> ProcStatus): seq<Effect>
  {
    (if ctx.Some? then [Detached] else [])
    + (if Truthy(pid) then [Killed(pid.value)] + (if ExitConfirmed(poll) then [] else [ExitWarning(pid.value)]) else [])
  }

  /** The startaut command line. */
  function Argv(config: Config, path: string, appData: string, port: int): seq<string>
  {
    [ config.squishDir + "/bin/startaut", "--verbose", "--port=" + Decimal(port), path,
      "--datadir=" + appData, "--LOG_LEVEL=" + config.logLevel, "--api-logging" ]
  }

  /** startaut writes the command to the log only if the log file could be opened. */
  function SpawnEffects(spawn: SpawnOutcome, argv: seq<string>): seq<Effect>
  {
    if spawn.LogOpenFailed? then [] else [Executed(argv)]
  }

  /** Default port-wait parameters: slower startup on Windows. */
  function DefaultWaitTimeout(platform: Platform): int
  {
    if platform == Windows then 2 else 1
  }

  function DefaultWaitRetries(platform: Platform): int
  {
    if platform == Windows then 20 else 10
  }

  /** An explicit argument overrides the default. */
  function Resolve(arg: Option<int>, default: int): int
  {
    if arg.Some? then arg.value else default
  }

  /** The context attach binds: the one already held, else the one it resolves. */
  function AttachBound(held: Option<Context>, outcome: AttachOutcome): Option<Context>
  {
    if held.Some? then held else outcome.resolved
  }

  /** Every step of attach succeeds. */
  predicate AttachSucceeds(held: Option<Context>, outcome: AttachOutcome)
  {
    outcome.registered && AttachBound(held, outcome).Some? && outcome.running
  }

  /** The context held when a failing attach calls stop(). */
  function CtxAtAttachFailure(held: Option<Context>, outcome: AttachOutcome): Option<Context>
  {
    if outcome.registered then AttachBound(held, outcome) else held
  }

  /** The collaborator calls attach makes before it succeeds or stops. */
  function AttachEffects(autId: string, port: Option<int>, held: Option<Context>, outcome: AttachOutcome): seq<Effect>
  {
    [AttachableAdded(autId, port)]
    + if !outcome.registered then []
      else (if held.None? then [ContextResolved(autId)] else [])
           + (if AttachBound(held, outcome).Some? then [ContextSet(AttachBound(held, outcome).value)] else [])
  }

  /**
    The exit-polling loop of stop(). Each inspection either ends the loop
    (exited, no such process, access denied, zombie) or is followed by a sleep of
    min(0.1, max(0, 5 - elapsed)) seconds. Returns the number of inspections, the
    final value of `elapsed` and the total sleep.
  */
  method AwaitExit(poll: nat -> ProcStatus) returns (polls: nat, elapsed: nat, slept: nat)
    ensures 1 <= polls <= MaxPolls
    ensures forall i :: 0 <= i < polls - 1 ==> !EndsPolling(poll(i))
    ensures polls < MaxPolls ==> EndsPolling(poll(polls - 1))
    ensures elapsed >= MaxWaitTenths <==> !ExitConfirmed(poll)
    ensures elapsed < MaxWaitTenths ==> polls == elapsed + 1 && EndsPolling(poll(polls - 1))
    ensures slept == elapsed <= MaxWaitTenths
  {
    polls, elapsed, slept := 0, 0, 0;
    while elapsed < MaxWaitTenths
      invariant polls == elapsed <= MaxWaitTenths
      invariant slept == elapsed
      invariant forall i :: 0 <= i < polls ==> !EndsPolling(poll(i))
    {
      var status := poll(polls);
      polls := polls + 1;
      if EndsPolling(status) {
        break;
      }
      var remaining := MaxWaitTenths - elapsed;
      var sleepDuration := Min(CheckIntervalTenths, Max(0, remaining));
      if sleepDuration > 0 {
        slept := slept + sleepDuration;
      }
      elapsed := elapsed + CheckIntervalTenths;
    }
  }

  class Aut {
    const path: string
    const autId: string
    const appData: string
    const config: Config
    var options: string
    var ctx: Option<Context>
    var pid: Option<int>
    var port: Option<int>
    /** The collaborator calls made so far. */
    ghost var effects: seq<Effect>

    /** AUT(app_path, user_data). The run identifier and the data directory come
        from the clock and a random suffix, so they are parameters here. */
    constructor (path: string, userData: Option<string>, autId: string, appData: string, config: Config)
      ensures this.path == path && this.autId == autId && this.appData == appData && this.config == config
      ensures ctx == None && pid == None && port == None && options == ""
      ensures effects == (if userData.Some? then [SeedCopied(userData.value, appData + "/data")] else [])
                         + [WrappersSet(autId, ["Qt"])]
    {
      this.path := path;
      this.autId := autId;
      this.appData := appData;
      this.config := config;
      ctx, pid, port := None, None, None;
      effects := if userData.Some? then [SeedCopied(userData.value, appData + "/data")] else [];
      options := "";
      effects := effects + [WrappersSet(autId, ["Qt"])];
    }

    /** detach_context: a no-op without a context, otherwise detach and forget it. */
    method DetachContext()
      modifies this
      ensures ctx == None && pid == old(pid) && port == old(port) && options == old(options)
      ensures effects == old(effects) + (if old(ctx).Some? then [Detached] else [])
    {
      if ctx.None? {
        return;
      }
      effects := effects + [Detached];
      ctx := None;
    }

    /** stop: detach, then, if a pid is recorded, kill it and poll for its exit.
        The pid is kept, so a second stop kills it again. Returns no error in this
        model; collaborator exceptions are left out. */
    method Stop(poll: nat -> ProcStatus)
      modifies this
      ensures ctx == None && pid == old(pid) && port == old(port) && options == old(options)
      ensures effects == old(effects) + StopEffects(old(ctx), old(pid), poll)
    {
      DetachContext();
      if Truthy(pid) {
        effects := effects + [Killed(pid.value)];
        var polls, elapsed, slept := AwaitExit(poll);
        if elapsed >= MaxWaitTenths {
          effects := effects + [ExitWarning(pid.value)];
        }
      }
    }

    /** startaut: allocate a port, spawn the AUT; on a spawn failure stop() and re-raise. */
    method StartAut(freePort: Option<int>, spawn: SpawnOutcome, poll: nat -> ProcStatus)
      returns (r: Outcome<AutError>)
      modifies this
      ensures options == old(options)
      ensures freePort.None? ==>
        r == Fail(FreePortError) && ctx == old(ctx) && pid == old(pid) && port == old(port) && effects == old(effects)
      ensures freePort.Some? ==> port == freePort
      ensures freePort.Some? && spawn.Spawned? ==>
        r == Pass && pid == Some(spawn.pid) && ctx == old(ctx)
        && effects == old(effects) + [Executed(Argv(config, path, appData, freePort.value))]
      ensures freePort.Some? && !spawn.Spawned? ==>
        r == Fail(StartError) && pid == old(pid) && ctx == None
        && effects == old(effects) + SpawnEffects(spawn, Argv(config, path, appData, freePort.value))
                      + StopEffects(old(ctx), old(pid), poll)
    {
      if freePort.None? {
        return Fail(FreePortError);
      }
      port := freePort;
      var argv := Argv(config, path, appData, port.value);
      if spawn.LogOpenFailed? {
        Stop(poll);
        return Fail(StartError);
      }
      effects := effects + [Executed(argv)];
      if spawn.ExecuteFailed? {
        Stop(poll);
        return Fail(StartError);
      }
      pid := Some(spawn.pid);
      return Pass;
    }

    /** wait: wait for the control port with platform defaults; on TimeoutError
        stop() and re-raise. Errors other than TimeoutError propagate without stop(). */
    method Wait(timeout: Option<int>, retries: Option<int>, platform: Platform,
                attempt: nat -> PortWaiter.Attempt, diagnosticRaises: bool, poll: nat -> ProcStatus)
      returns (r: Outcome<AutError>)
      modifies this
      ensures pid == old(pid) && port == old(port) && options == old(options)
      ensures port.None? ==> r == Fail(PortFormatError) && ctx == old(ctx) && effects == old(effects)
      ensures port.Some? && PortWaiter.PortOpens(attempt, Resolve(retries, DefaultWaitRetries(platform))) ==>
        r == Pass && ctx == old(ctx) && effects == old(effects)
      ensures port.Some? && !PortWaiter.PortOpens(attempt, Resolve(retries, DefaultWaitRetries(platform)))
              && Truthy(pid) && diagnosticRaises ==>
        r == Fail(DiagnosticError) && ctx == old(ctx) && effects == old(effects)
      ensures port.Some? && !PortWaiter.PortOpens(attempt, Resolve(retries, DefaultWaitRetries(platform)))
              && !(Truthy(pid) && diagnosticRaises) ==>
        r == Fail(PortTimeout(PortWaiter.TimeoutError("localhost", port.value,
                                                      Resolve(retries, DefaultWaitRetries(platform)) + 1,
                                                      Resolve(timeout, DefaultWaitTimeout(platform)))))
        && ctx == None && effects == old(effects) + StopEffects(old(ctx), old(pid), poll)
    {
      var t := Resolve(timeout, DefaultWaitTimeout(platform));
      var n := Resolve(retries, DefaultWaitRetries(platform));
      if port.None? {
        // every probe raises TypeError (swallowed); the final message formatting raises TypeError too
        return Fail(PortFormatError);
      }
      var res, attempts, slept := PortWaiter.WaitForPort("localhost", port.value, t, n, attempt);
      if res.Pass? {
        return Pass;
      }
      if Truthy(pid) && diagnosticRaises {
        return Fail(DiagnosticError);
      }
      Stop(poll);
      return Fail(PortTimeout(res.error));
    }

    /** attach: register the AUT with the server, reuse or resolve the context,
        bind it and wait until it runs; on any failure stop() and re-raise. */
    method Attach(outcome: AttachOutcome, poll: nat -> ProcStatus) returns (r: Outcome<AutError>)
      modifies this
      ensures pid == old(pid) && port == old(port) && options == old(options)
      ensures r.Pass? <==> AttachSucceeds(old(ctx), outcome)
      ensures r.Pass? ==>
        ctx == AttachBound(old(ctx), outcome) && effects == old(effects) + AttachEffects(autId, port, old(ctx), outcome)
      ensures r.Fail? ==>
        r.error == AttachError && ctx == None
        && effects == old(effects) + AttachEffects(autId, port, old(ctx), outcome)
                      + StopEffects(CtxAtAttachFailure(old(ctx), outcome), pid, poll)
    {
      ghost var held, done := ctx, AttachEffects(autId, port, ctx, outcome);
      effects := effects + [AttachableAdded(autId, port)];
      if !outcome.registered {
        assert effects == old(effects) + done && ctx == CtxAtAttachFailure(held, outcome);
        Stop(poll);
        return Fail(AttachError);
      }
      if ctx.None? {
        effects := effects + [ContextResolved(autId)];
        if outcome.resolved.None? {
          assert effects == old(effects) + done && ctx == CtxAtAttachFailure(held, outcome);
          Stop(poll);
          return Fail(AttachError);
        }
        ctx := outcome.resolved;
      }
      effects := effects + [ContextSet(ctx.value)];
      assert effects == old(effects) + done && ctx == AttachBound(held, outcome);
      if !outcome.running {
        Stop(poll);
        return Fail(AttachError);
      }
      return Pass;
    }

    /** launch (and the scope entry): startaut, wait with the defaults, attach, in
        that order; the first failure is returned (each cleans up as above). */
    method Launch(freePort: Option<int>, spawn: SpawnOutcome, platform: Platform,
                  attempt: nat -> PortWaiter.Attempt, diagnosticRaises: bool,
                  outcome: AttachOutcome, poll: nat -> ProcStatus)
      returns (r: Outcome<AutError>)
      modifies this
      ensures options == old(options)
      ensures r.Pass? <==>
        freePort.Some? && spawn.Spawned?
        && PortWaiter.PortOpens(attempt, DefaultWaitRetries(platform))
        && AttachSucceeds(old(ctx), outcome)
      ensures r.Pass? ==>
        port == freePort && pid == Some(spawn.pid) && ctx == AttachBound(old(ctx), outcome)
        && effects == old(effects) + [Executed(Argv(config, path, appData, freePort.value))]
                      + AttachEffects(autId, freePort, old(ctx), outcome)
      ensures |effects| >= |old(effects)| && effects[..|old(effects)|] == old(effects)
      ensures r == Fail(FreePortError) <==> freePort.None?
      ensures r == Fail(FreePortError) ==> ctx == old(ctx)
      ensures r.Fail? && r.error != FreePortError && r.error != DiagnosticError ==> ctx == None
      ensures r.Fail? && r.error == DiagnosticError ==> ctx == old(ctx) && Truthy(pid)
      ensures r.Fail? && r.error.PortTimeout? ==>
        spawn.Spawned? && pid == Some(spawn.pid)
        && (Truthy(pid) ==> Killed(pid.value) in effects[|old(effects)|..])
    {
      r := StartAut(freePort, spawn, poll);
      if r.Fail? {
        return;
      }
      assert freePort.Some? && spawn.Spawned?;
      ghost var beforeWait, ctxBeforeWait := effects, ctx;
      assert beforeWait == old(effects) + [Executed(Argv(config, path, appData, freePort.value))];
      assert port == freePort && pid == Some(spawn.pid) && ctxBeforeWait == old(ctx);
      r := Wait(None, None, platform, attempt, diagnosticRaises, poll);
      if r.Fail? {
        if r.error.PortTimeout? && Truthy(pid) {
          ghost var stopPart := StopEffects(ctxBeforeWait, pid, poll);
          assert Killed(pid.value) in stopPart;
          assert effects[|old(effects)|..] == beforeWait[|old(effects)|..] + stopPart;
        }
        return;
      }
      assert effects == beforeWait && ctx == old(ctx);
      r := Attach(outcome, poll);
    }

    /** restart: stop, then launch. */
    method Restart(stopPoll: nat -> ProcStatus, freePort: Option<int>, spawn: SpawnOutcome, platform: Platform,
                   attempt: nat -> PortWaiter.Attempt, diagnosticRaises: bool,
                   outcome: AttachOutcome, poll: nat -> ProcStatus)
      returns (r: Outcome<AutError>)
      modifies this
      ensures options == old(options)
      ensures |effects| >= |old(effects)| + |StopEffects(old(ctx), old(pid), stopPoll)|
      ensures effects[..|old(effects)| + |StopEffects(old(ctx), old(pid), stopPoll)|]
              == old(effects) + StopEffects(old(ctx), old(pid), stopPoll)
      ensures r.Pass? <==>
        freePort.Some? && spawn.Spawned?
        && PortWaiter.PortOpens(attempt, DefaultWaitRetries(platform))
        && AttachSucceeds(None, outcome)
      ensures r.Pass? ==> port == freePort && pid == Some(spawn.pid) && ctx == outcome.resolved
      ensures r.Fail? ==> ctx == None
    {
      Stop(stopPoll);
      ghost var afterStop := effects;
      r := Launch(freePort, spawn, platform, attempt, diagnosticRaises, outcome, poll);
      assert effects[..|afterStop|] == afterStop;
    }

    /** The scope exit: when an exception is leaving the scope, attach and attach a
        screenshot (any failure there is swallowed); then always stop(). */
    method Exit(raised: bool, outcome: AttachOutcome, screenshotOk: bool,
                diagnosticPoll: nat -> ProcStatus, poll: nat -> ProcStatus)
      modifies this
      ensures ctx == None && pid == old(pid) && port == old(port) && options == old(options)
      ensures !raised ==> effects == old(effects) + StopEffects(old(ctx), old(pid), poll)
      ensures raised && AttachSucceeds(old(ctx), outcome) ==>
        effects == old(effects) + AttachEffects(autId, old(port), old(ctx), outcome)
                   + (if screenshotOk then [ScreenshotAttached(autId)] else [])
                   + StopEffects(AttachBound(old(ctx), outcome), old(pid), poll)
      ensures raised && !AttachSucceeds(old(ctx), outcome) ==>
        effects == old(effects) + AttachEffects(autId, old(port), old(ctx), outcome)
                   + StopEffects(CtxAtAttachFailure(old(ctx), outcome), old(pid), diagnosticPoll)
                   + StopEffects(None, old(pid), poll)
    {
      if raised {
        var a := Attach(outcome, diagnosticPoll);
        if a.Pass? && screenshotOk {
          effects := effects + [ScreenshotAttached(autId)];
        }
      }
      Stop(poll);
    }
  }

  /** stop() on an instance that was never started makes no collaborator call. */
  method StopNeverStarted(path: string, userData: Option<string>, autId: string, appData: string,
                          config: Config, poll: nat -> ProcStatus)
    returns (aut: Aut)
    ensures fresh(aut) && aut.ctx == None && aut.pid == None
    ensures aut.effects == (if userData.Some? then [SeedCopied(userData.value, appData + "/data")] else [])
                           + [WrappersSet(autId, ["Qt"])]
  {
    aut := new Aut(path, userData, autId, appData, config);
    aut.Stop(poll);
  }

  /** Two stops in a row: the first detaches, both kill the recorded pid. */
  method StopTwice(aut: Aut, first: nat -> ProcStatus, second: nat -> ProcStatus)
    modifies aut
    ensures aut.ctx == None && aut.pid == old(aut.pid)
    ensures aut.effects == old(aut.effects) + StopEffects(old(aut.ctx), old(aut.pid), first)
                                            + StopEffects(None, old(aut.pid), second)
    ensures Truthy(old(aut.pid)) ==> Killed(old(aut.pid).value) in aut.effects[|old(aut.effects)| + |StopEffects(old(aut.ctx), old(aut.pid), first)|..]
  {
    aut.Stop(first);
    aut.Stop(second);
  }
}
