/**
 * The in-Pod runner: it checks the command kind, optionally extracts the
 * configuration tarball, waits until the submitting client has removed the
 * wait annotation from its command, and then runs the command. The informer,
 * its goroutine, the channels and the timer are replaced by an explicit
 * sequence of events; the timer firing and the cache failing are events too.
 */
module Runner {
  import opened Api
  import Handler

  const WorkspaceKind: string := "Workspace"

  /** `slice.ContainsString`. */
  function ContainsString(list: seq<string>, s: string): (r: bool)
    ensures r <==> s in list
  {
    if |list| == 0 then false
    else list[0] == s || ContainsString(list[1..], s)
  }

  /**
   * `validate`: the kind flag must be given and must name a command kind or
   * the Workspace kind. `commandKinds` stands for `command.CommandKinds`.
   */
  function Validate(kind: string, commandKinds: seq<string>): (r: Option<Error>)
    ensures kind == "" ==> r == Some(MissingKindFlag)
    ensures kind != "" ==> (r == None <==> kind in commandKinds || kind == WorkspaceKind)
    ensures kind != "" && r != None ==> r == Some(InvalidKind(kind))
  {
    if kind == "" then Some(MissingKindFlag)
    else if !ContainsString(commandKinds + [WorkspaceKind], kind) then Some(InvalidKind(kind))
    else None
  }

  /** What the select loop of `handleSemaphore` can receive. */
  datatype WaitEvent =
    | Delivered(obj: Object)       // an object from the informer's event handlers
    | TimerFired                   // the timeout timer's channel
    | CacheStopped(err: Error)     // the cache goroutine reporting a failure of cache.Start

  /** How the wait ends; StillWaiting when the events run out before anything ends it. */
  datatype WaitOutcome = Released | Failed(err: Error) | StillWaiting

  /** Whether a delivered object is the awaited command, by name and namespace. */
  predicate IsAwaited(o: Object, name: string, namespace: string) {
    o.CommandObject? && o.meta.name == name && o.meta.namespace == namespace
  }

  /** One turn of the select loop: Some(outcome) returns from the loop, None goes on. */
  function Step(e: WaitEvent, name: string, namespace: string): (r: Option<WaitOutcome>)
    ensures r == Some(Released) <==>
      e.Delivered? && IsAwaited(e.obj, name, namespace) && !LockHeld(e.obj.meta.annotations)
    ensures r == None <==>
      e.Delivered? && (!IsAwaited(e.obj, name, namespace) || LockHeld(e.obj.meta.annotations))
    ensures e.TimerFired? ==> r == Some(Failed(WaitTimeout))
    ensures e.CacheStopped? ==> r == Some(Failed(e.err))
  {
    match e
    case Delivered(o) =>
      if !o.CommandObject? then None
      else if o.meta.name != name || o.meta.namespace != namespace then None
      else if !Lookup(o.meta.annotations, WaitAnnotationKey).1 then Some(Released)
      else None
    case TimerFired => Some(Failed(WaitTimeout))
    case CacheStopped(err) => Some(Failed(err))
  }

  /** The index of the event that ends the loop, or |events| when none does. */
  function Stop(events: seq<WaitEvent>, name: string, namespace: string): (k: nat)
    ensures k <= |events|
    ensures forall j :: 0 <= j < k ==> Step(events[j], name, namespace) == None
    ensures k < |events| ==> Step(events[k], name, namespace) != None
  {
    if |events| == 0 then 0
    else if Step(events[0], name, namespace) != None then 0
    else 1 + Stop(events[1..], name, namespace)
  }

  /** The outcome of the loop over a whole event sequence. */
  function Outcome(events: seq<WaitEvent>, name: string, namespace: string): WaitOutcome {
    var k := Stop(events, name, namespace);
    if k < |events| then Step(events[k], name, namespace).value else StillWaiting
  }

  /**
   * `handleSemaphore`. `setup` is the error, if any, of creating the cache or
   * the informer. Returns how the wait ended and how many events it read.
   */
  method HandleSemaphore(setup: Option<Error>, events: seq<WaitEvent>, name: string, namespace: string)
    returns (outcome: WaitOutcome, read: nat)
    ensures setup.Some? ==> outcome == Failed(setup.value) && read == 0
    ensures setup.None? ==> outcome == Outcome(events, name, namespace)
    ensures setup.None? && outcome != StillWaiting ==> read == Stop(events, name, namespace) + 1
    ensures setup.None? && outcome == StillWaiting ==> read == |events|
  {
    if setup.Some? {
      return Failed(setup.value), 0;
    }
    var i := 0;
    while i < |events|
      invariant 0 <= i <= |events|
      invariant forall j :: 0 <= j < i ==> Step(events[j], name, namespace) == None
    {
      match events[i] {
        case Delivered(o) =>
          if o.CommandObject? {
            if o.meta.name != name || o.meta.namespace != namespace {
              // an event for a different command: ignore it
            } else if !Lookup(o.meta.annotations, WaitAnnotationKey).1 {
              // no wait annotation: clear to go
              StopIsFirst(events, name, namespace, i);
              return Released, i + 1;
            }
          }
        case TimerFired =>
          StopIsFirst(events, name, namespace, i);
          return Failed(WaitTimeout), i + 1;
        case CacheStopped(err) =>
          StopIsFirst(events, name, namespace, i);
          return Failed(err), i + 1;
      }
      i := i + 1;
    }
    StopIsFirst(events, name, namespace, i);
    return StillWaiting, i;
  }

  /** Stop is the first index whose event ends the loop. */
  lemma {:induction false} StopIsFirst(events: seq<WaitEvent>, name: string, namespace: string, k: nat)
    requires k <= |events|
    requires forall j :: 0 <= j < k ==> Step(events[j], name, namespace) == None
    requires k < |events| ==> Step(events[k], name, namespace) != None
    ensures Stop(events, name, namespace) == k
  {
    if k > 0 {
      assert Step(events[0], name, namespace) == None;
      StopIsFirst(events[1..], name, namespace, k - 1);
    }
  }

  /** The event at k releases the wait and every earlier event was skipped. */
  predicate ReleasesAt(events: seq<WaitEvent>, name: string, namespace: string, k: nat)
    requires k < |events|
  {
    && events[k].Delivered? && IsAwaited(events[k].obj, name, namespace)
    && !LockHeld(events[k].obj.meta.annotations)
    && forall j :: 0 <= j < k ==> Step(events[j], name, namespace) == None
  }

  /**
   * The wait succeeds exactly when some event delivers the awaited command
   * with the lock released and every earlier event was skipped.
   */
  lemma ReleasedIff(events: seq<WaitEvent>, name: string, namespace: string)
    ensures Outcome(events, name, namespace) == Released <==>
      (exists k :: 0 <= k < |events| && ReleasesAt(events, name, namespace, k))
  {
    if k :| 0 <= k < |events| && ReleasesAt(events, name, namespace, k) {
      StopIsFirst(events, name, namespace, k);
    }
    if Outcome(events, name, namespace) == Released {
      assert ReleasesAt(events, name, namespace, Stop(events, name, namespace));
    }
  }

  /** While every delivery of the awaited command is still locked, the wait never succeeds. */
  lemma {:induction false} NeverReleasedWhileHeld(events: seq<WaitEvent>, name: string, namespace: string)
    requires forall j :: 0 <= j < |events| ==>
      (events[j].Delivered? && IsAwaited(events[j].obj, name, namespace) ==> LockHeld(events[j].obj.meta.annotations))
    ensures Outcome(events, name, namespace) != Released
  {
    if |events| > 0 && Step(events[0], name, namespace) == None {
      NeverReleasedWhileHeld(events[1..], name, namespace);
    }
  }

  /** A timer event before any release ends the wait with the timeout error. */
  lemma {:induction false} TimeoutBeforeRelease(events: seq<WaitEvent>, name: string, namespace: string, t: nat)
    requires t < |events| && events[t] == TimerFired
    requires forall j :: 0 <= j < t ==> Step(events[j], name, namespace) == None
    ensures Outcome(events, name, namespace) == Failed(WaitTimeout)
  {
    StopIsFirst(events, name, namespace, t);
  }

  /**
   * For the awaited command, the loop's release test agrees with the watch
   * condition `isSyncHandler` on any event that is not a deletion.
   */
  lemma {:induction false} AgreesWithSyncHandler(t: EventType, meta: ObjectMeta)
    requires t != Deleted
    ensures Step(Delivered(CommandObject(meta)), meta.name, meta.namespace) == Some(Released)
      <==> Handler.IsSyncHandler(Event(t, CommandObject(meta))).done
    ensures Step(Delivered(CommandObject(meta)), meta.name, meta.namespace) == None
      <==> Handler.IsSyncHandler(Event(t, CommandObject(meta))) == CondResult(false, None)
  {
  }

  /** What the runner calls on the outside world, in the order it calls them. */
  datatype Action =
    | Extract(tarball: string, path: string)
    | NewClient(context: string)
    | Wait(kind: string, name: string, namespace: string)
    | Run(kind: string, args: seq<string>)
  {
    function Rank(): nat {
      match this
      case Extract(_, _) => 0
      case NewClient(_) => 1
      case Wait(_, _, _) => 2
      case Run(_, _) => 3
    }
  }

  /** Every action appears at most once and they come in the fixed order. */
  predicate InOrder(trace: seq<Action>) {
    forall i, j :: 0 <= i < j < |trace| ==> trace[i].Rank() < trace[j].Rank()
  }

  /**
   * The answers of the outside world: the error (if any) of tarball
   * extraction, of creating the client, of setting up the cache and
   * informer, the events the wait loop will see, and the error of the run.
   */
  datatype RunnerWorld = RunnerWorld(
    extract: Option<Error>,
    newClient: Option<Error>,
    cacheSetup: Option<Error>,
    events: seq<WaitEvent>,
    run: Option<Error>)

  /** How the runner finishes; Blocked when it is still in the wait loop after the last event. */
  datatype Exit = Success | Failure(err: Error) | Blocked

  /** The flags of the `runnerCmd` struct that decide what it does. */
  datatype RunnerFlags = RunnerFlags(
    path: string, tarball: string, name: string, namespace: string,
    kind: string, context: string, noWait: bool)

  /** The exit of a run and the calls it made, in order. */
  datatype RunResult = RunResult(exit: Exit, trace: seq<Action>)

  /** How `handleSemaphore` ends: a setup error first, otherwise the loop's outcome. */
  function SemaphoreOutcome(setup: Option<Error>, events: seq<WaitEvent>, name: string, namespace: string): WaitOutcome {
    if setup.Some? then Failed(setup.value) else Outcome(events, name, namespace)
  }

  /** Whether the semaphore wait lets the run go ahead (or is skipped). */
  predicate WaitLetsThrough(f: RunnerFlags, world: RunnerWorld) {
    f.noWait || (world.newClient.None? && world.cacheSetup.None?
                 && Outcome(world.events, f.name, f.namespace) == Released)
  }

  /** The tarball step, if any, succeeded (or there is none). */
  predicate Extracted(f: RunnerFlags, world: RunnerWorld) {
    f.tarball == "" || world.extract.None?
  }

  /**
   * What `doRunnerCmd` does with the given flags and world: validate, extract
   * when a tarball is named, create the client and wait unless waiting is
   * disabled, then run; the first failure ends it.
   */
  function Plan(f: RunnerFlags, args: seq<string>, commandKinds: seq<string>, world: RunnerWorld): (r: RunResult)
    // at most the four calls, and the run is always the last one made
    ensures |r.trace| <= 4
    ensures forall i :: 0 <= i < |r.trace| - 1 ==> !r.trace[i].Run?
  {
    var invalid := Validate(f.kind, commandKinds);
    if invalid.Some? then RunResult(Failure(invalid.value), [])
    else ExtractStage(f, args, world)
  }

  /** From the tarball step on. */
  function ExtractStage(f: RunnerFlags, args: seq<string>, world: RunnerWorld): RunResult {
    if f.tarball == "" then WaitStage(f, args, world, [])
    else if world.extract.Some? then RunResult(Failure(world.extract.value), [Extract(f.tarball, f.path)])
    else WaitStage(f, args, world, [Extract(f.tarball, f.path)])
  }

  /** From the semaphore wait on, after the calls `done`. */
  function WaitStage(f: RunnerFlags, args: seq<string>, world: RunnerWorld, done: seq<Action>): RunResult {
    if f.noWait then RunStage(f, args, world, done)
    else if world.newClient.Some? then RunResult(Failure(world.newClient.value), done + [NewClient(f.context)])
    else
      var waited := done + [NewClient(f.context)] + [Wait(f.kind, f.name, f.namespace)];
      match SemaphoreOutcome(world.cacheSetup, world.events, f.name, f.namespace)
      case Failed(e) => RunResult(Failure(e), waited)
      case StillWaiting => RunResult(Blocked, waited)
      case Released => RunStage(f, args, world, waited)
  }

  /** The run itself, after the calls `done`. */
  function RunStage(f: RunnerFlags, args: seq<string>, world: RunnerWorld, done: seq<Action>): RunResult {
    var exit := if world.run.Some? then Failure(world.run.value) else Success;
    RunResult(exit, done + [Run(f.kind, args)])
  }

  /** Every step is called at most once, and in the fixed order. */
  lemma PlanInOrder(f: RunnerFlags, args: seq<string>, commandKinds: seq<string>, world: RunnerWorld)
    ensures InOrder(Plan(f, args, commandKinds, world).trace)
  {
  }

  /** A kind that fails validation stops everything before any call. */
  lemma PlanInvalidKind(f: RunnerFlags, args: seq<string>, commandKinds: seq<string>, world: RunnerWorld)
    requires Validate(f.kind, commandKinds).Some?
    ensures Plan(f, args, commandKinds, world) == RunResult(Failure(Validate(f.kind, commandKinds).value), [])
  {
  }

  /** The tarball is extracted exactly when the kind is valid and a tarball is named. */
  lemma PlanExtracts(f: RunnerFlags, args: seq<string>, commandKinds: seq<string>, world: RunnerWorld)
    ensures Extract(f.tarball, f.path) in Plan(f, args, commandKinds, world).trace
      <==> Validate(f.kind, commandKinds).None? && f.tarball != ""
  {
  }

  /** The client is created and the wait entered only when waiting is enabled and every earlier step succeeded. */
  lemma PlanWaits(f: RunnerFlags, args: seq<string>, commandKinds: seq<string>, world: RunnerWorld)
    ensures var trace := Plan(f, args, commandKinds, world).trace;
      (Wait(f.kind, f.name, f.namespace) in trace || NewClient(f.context) in trace) ==> !f.noWait
    ensures Wait(f.kind, f.name, f.namespace) in Plan(f, args, commandKinds, world).trace <==>
      Validate(f.kind, commandKinds).None? && Extracted(f, world) && !f.noWait && world.newClient.None?
  {
  }

  /** The command runs exactly when validation and extraction succeeded and the wait let it through. */
  lemma PlanRuns(f: RunnerFlags, args: seq<string>, commandKinds: seq<string>, world: RunnerWorld)
    ensures Run(f.kind, args) in Plan(f, args, commandKinds, world).trace <==>
      Validate(f.kind, commandKinds).None? && Extracted(f, world) && WaitLetsThrough(f, world)
  {
  }

  /** Success is a run without error; Blocked is a wait whose events ran out. */
  lemma PlanExit(f: RunnerFlags, args: seq<string>, commandKinds: seq<string>, world: RunnerWorld)
    ensures var r := Plan(f, args, commandKinds, world);
      r.exit == Success <==> Run(f.kind, args) in r.trace && world.run.None?
    ensures var r := Plan(f, args, commandKinds, world);
      r.exit == Blocked <==>
        Wait(f.kind, f.name, f.namespace) in r.trace && world.cacheSetup.None?
        && Outcome(world.events, f.name, f.namespace) == StillWaiting
  {
  }

  /** The `runnerCmd` struct with its flags; `args` is set by DoRunnerCmd. */
  class RunnerCmd {
    var path: string
    var tarball: string
    var name: string
    var namespace: string
    var kind: string
    var context: string
    var noWait: bool
    var args: seq<string>

    constructor (path: string, tarball: string, name: string, namespace: string,
                 kind: string, context: string, noWait: bool)
      ensures this.path == path && this.tarball == tarball
      ensures this.name == name && this.namespace == namespace
      ensures this.kind == kind && this.context == context && this.noWait == noWait
      ensures this.args == []
    {
      this.path := path;
      this.tarball := tarball;
      this.name := name;
      this.namespace := namespace;
      this.kind := kind;
      this.context := context;
      this.noWait := noWait;
      this.args := [];
    }

    /** The flags as a value. */
    function Flags(): RunnerFlags
      reads this`path, this`tarball, this`name, this`namespace, this`kind, this`context, this`noWait
    {
      RunnerFlags(path, tarball, name, namespace, kind, context, noWait)
    }

    /**
     * `doRunnerCmd`: validate, record the arguments, extract, wait unless
     * disabled, run; its exit and calls are those of Plan, whose properties
     * are the Plan lemmas above.
     */
    method DoRunnerCmd(args: seq<string>, commandKinds: seq<string>, world: RunnerWorld)
      returns (exit: Exit, trace: seq<Action>)
      modifies this`args
      ensures RunResult(exit, trace) == Plan(Flags(), args, commandKinds, world)
      // a kind that fails validation leaves the recorded arguments alone
      ensures Validate(kind, commandKinds).Some? ==> this.args == old(this.args)
      ensures Validate(kind, commandKinds).None? ==> this.args == args
    {
      ghost var f := Flags();
      trace := [];
      var err := Validate(kind, commandKinds);
      if err.Some? {
        return Failure(err.value), trace;
      }

      this.args := args;

      if tarball != "" {
        trace := trace + [Extract(tarball, path)];
        if world.extract.Some? {
          return Failure(world.extract.value), trace;
        }
      }

      if !noWait {
        trace := trace + [NewClient(context)];
        if world.newClient.Some? {
          return Failure(world.newClient.value), trace;
        }
        trace := trace + [Wait(kind, name, namespace)];
        var outcome, _ := HandleSemaphore(world.cacheSetup, world.events, name, namespace);
        match outcome
        case Failed(e) =>
          return Failure(e), trace;
        case StillWaiting =>
          return Blocked, trace;
        case Released =>
      }

      trace := trace + [Run(kind, this.args)];
      if world.run.Some? {
        return Failure(world.run.value), trace;
      }
      return Success, trace;
    }
  }
}
