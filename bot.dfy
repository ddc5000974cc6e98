/**
 * BrokenLinkCollector: the bot's lifecycle. The external steps (service set-up, the screenshot directory, the
 * hardware monitor, the workflow's activation and shutdown, disposing services) are inputs that succeed or fail;
 * an exception that escapes `TryStart` is a `Failure`. The workflow's events reach `HandleWorkflowEvent` one at a
 * time; the `Task.Run` that defers the shutdown is left out.
 */
module Bot {
  import opened Wrappers
  import opened Events
  import opened StateMachines

  datatype BotState =
    | WaitingForInitialization | WaitingToRun | Running | Paused | WaitingForStop
    | Completed | RanToCompletion | Cancelled | Faulted

  datatype BotCommand =
    | Stop | Initialize | Run | Abort | Pause | Resume | MarkAsRanToCompletion | MarkAsCancelled | MarkAsFaulted

  /** The name `Enum.GetName` gives a state. */
  function StateName(s: BotState): string
  {
    match s
    case WaitingForInitialization => "WaitingForInitialization"
    case WaitingToRun => "WaitingToRun"
    case Running => "Running"
    case Paused => "Paused"
    case WaitingForStop => "WaitingForStop"
    case Completed => "Completed"
    case RanToCompletion => "RanToCompletion"
    case Cancelled => "Cancelled"
    case Faulted => "Faulted"
  }

  predicate IsTerminal(s: BotState)
  {
    s == RanToCompletion || s == Cancelled || s == Faulted
  }

  /** The bot's transition table, `PossibleTransitions`: the target of each of its eleven entries. */
  function BotTransitions(s: BotState, c: BotCommand): (t: Option<BotState>)
    ensures t.Some? ==> t.value != s && !IsTerminal(s)
  {
    match (s, c)
    case (WaitingForInitialization, Stop) => Some(Completed)
    case (WaitingForInitialization, Initialize) => Some(WaitingToRun)
    case (WaitingToRun, Run) => Some(Running)
    case (WaitingToRun, Abort) => Some(WaitingForStop)
    case (WaitingForStop, Stop) => Some(Completed)
    case (Running, Stop) => Some(Completed)
    case (Running, Pause) => Some(Paused)
    case (Completed, MarkAsRanToCompletion) => Some(RanToCompletion)
    case (Completed, MarkAsCancelled) => Some(Cancelled)
    case (Completed, MarkAsFaulted) => Some(Faulted)
    case (Paused, Resume) => Some(Running)
    case _ => None
  }

  /** The eleven mapped pairs. */
  const Entries: seq<(BotState, BotCommand)> := [
    (WaitingForInitialization, Stop), (WaitingForInitialization, Initialize), (WaitingToRun, Run),
    (WaitingToRun, Abort), (WaitingForStop, Stop), (Running, Stop), (Running, Pause),
    (Completed, MarkAsRanToCompletion), (Completed, MarkAsCancelled), (Completed, MarkAsFaulted), (Paused, Resume)]

  /** Exactly the eleven listed pairs are mapped, and they are distinct. */
  lemma BotTransitionsHasElevenEntries()
    ensures |Entries| == 11
    ensures forall i, j :: 0 <= i < j < |Entries| ==> Entries[i] != Entries[j]
    ensures forall s, c :: BotTransitions(s, c).Some? <==> (s, c) in Entries
  {
  }

  /** The terminal states have no way out, and each is entered only from `Completed`, by its own mark. */
  lemma TerminalStatesAreFinal()
    ensures forall s, c :: IsTerminal(s) ==> BotTransitions(s, c).None?
    ensures forall s, c :: BotTransitions(s, c).Some? && IsTerminal(BotTransitions(s, c).value) ==>
      s == Completed && (c == MarkAsRanToCompletion || c == MarkAsCancelled || c == MarkAsFaulted)
  {
  }

  /** `Stop` reaches `Completed`, and only from these three states; it has no effect while paused or after. */
  lemma StopReachesCompletedFrom()
    ensures forall s :: BotTransitions(s, Stop).Some? <==>
      s == WaitingForInitialization || s == Running || s == WaitingForStop
    ensures forall s :: BotTransitions(s, Stop).Some? ==> BotTransitions(s, Stop).value == Completed
  {
  }

  /** The shutdown command the bot issues on a workflow event, if any. */
  function ShutdownCommandFor(e: Event): (c: Option<BotCommand>)
    ensures e == NoMoreWorkToDo <==> c == Some(MarkAsRanToCompletion)
    ensures e.RedirectHappenedAtStartUrl? <==> c == Some(MarkAsFaulted)
    ensures c.None? <==> !(e == NoMoreWorkToDo || e.RedirectHappenedAtStartUrl?)
  {
    match e
    case NoMoreWorkToDo => Some(MarkAsRanToCompletion)
    case RedirectHappenedAtStartUrl(_) => Some(MarkAsFaulted)
    case _ => None
  }

  // ----- The external steps -----

  /** How `TryStart`'s body ends: it completes, or the named step throws. */
  datatype StartFailure = NoFailure | SetupFails | DirectoryFails | MonitorStartFails | ActivationFails

  /** `StopHardwareMonitorService`: no monitor running, stopped, the look-up throws, or stopping throws. */
  datatype MonitorStop = NotRunning | Stopped | LookupFails | StopFails

  datatype ShutdownSteps = ShutdownSteps(monitor: MonitorStop, workflowShutdownOk: bool, releaseOk: bool)

  const SettingUpMessage := "Setting up and configuring services ..."
  const StartingMonitorMessage := "Starting hardware monitor service ..."
  const ActivatingMessage := "Activating BrokenLinkCollectionWorkflow ..."
  const StoppingMonitorMessage := "Stopping hardware monitor service ..."
  const WaitingMessage := "Waiting for background tasks to complete ..."
  const DisposingMessage := "Disposing services ..."

  /**
   * Whether some shutdown sub-step throws. Shutting down the workflow also throws when none was ever obtained
   * (it is null before a successful set-up).
   */
  predicate SomeShutdownStepFails(steps: ShutdownSteps, hasWorkflow: bool)
  {
    steps.monitor == LookupFails || steps.monitor == StopFails || !hasWorkflow || !steps.workflowShutdownOk ||
    !steps.releaseOk
  }

  /** The mark `Shutdown` finally issues: the requested one, unless a sub-step failed. */
  function FinalCommand(requested: BotCommand, steps: ShutdownSteps, hasWorkflow: bool): BotCommand
  {
    if SomeShutdownStepFails(steps, hasWorkflow) then MarkAsFaulted else requested
  }

  /** What `StopHardwareMonitorService` broadcasts: a progress report only when a running monitor is found. */
  function MonitorStopBroadcasts(m: MonitorStop): seq<Event>
  {
    if m == Stopped || m == StopFails then [StopProgressReport(StoppingMonitorMessage)] else []
  }

  /** What `Shutdown`'s three sub-steps broadcast, in order. */
  function ShutdownBroadcasts(steps: ShutdownSteps): seq<Event>
  {
    MonitorStopBroadcasts(steps.monitor) + [StopProgressReport(WaitingMessage)] + [StopProgressReport(DisposingMessage)]
  }

  /** The monitor report appears only when a running monitor was found; the last two reports always appear. */
  lemma ShutdownBroadcastsShape(steps: ShutdownSteps)
    ensures StopProgressReport(StoppingMonitorMessage) in ShutdownBroadcasts(steps) <==>
      steps.monitor == Stopped || steps.monitor == StopFails
    ensures var es := ShutdownBroadcasts(steps);
      |es| >= 2 && es[|es| - 2..] == [StopProgressReport(WaitingMessage), StopProgressReport(DisposingMessage)]
  {
  }

  /** What `TryStart`'s body broadcasts before it completes or fails. */
  function StartBroadcasts(failure: StartFailure): seq<Event>
  {
    [StartProgressReport(SettingUpMessage)] + MonitorAndActivationBroadcasts(failure)
  }

  function MonitorAndActivationBroadcasts(failure: StartFailure): seq<Event>
  {
    if failure == SetupFails || failure == DirectoryFails then []
    else [StartProgressReport(StartingMonitorMessage)] + ActivationBroadcasts(failure)
  }

  function ActivationBroadcasts(failure: StartFailure): seq<Event>
  {
    if failure == MonitorStartFails then []
    else [StartProgressReport(ActivatingMessage)] + (if failure == ActivationFails then [] else [WorkflowActivated])
  }

  /** `WorkflowActivated` is broadcast exactly when start-up completes; the set-up report always comes first. */
  lemma StartBroadcastsShape(failure: StartFailure)
    ensures WorkflowActivated in StartBroadcasts(failure) <==> failure == NoFailure
    ensures StartBroadcasts(failure)[0] == StartProgressReport(SettingUpMessage)
  {
  }

  /** The state after the final mark, from `Completed`. */
  function Marked(c: BotCommand): (s: BotState)
    ensures c == MarkAsRanToCompletion ==> s == RanToCompletion
    ensures c == MarkAsCancelled ==> s == Cancelled
    ensures c == MarkAsFaulted ==> s == Faulted
    ensures !(c in {MarkAsRanToCompletion, MarkAsCancelled, MarkAsFaulted}) ==> s == Completed
  {
    if BotTransitions(Completed, c).Some? then BotTransitions(Completed, c).value else Completed
  }

  // ----- The bot -----

  class BrokenLinkCollector {
    const stateMachine: StateMachine<BotState, BotCommand>
    /** Whether `_brokenLinkCollectionWorkflow` has been obtained from the service locator. */
    var hasWorkflow: bool
    /** Everything passed to `OnEventBroadcast`, in order. */
    var broadcasts: seq<Event>

    /** The table is the bot's, and the workflow is obtained only by starting. */
    ghost predicate Valid()
      reads this, stateMachine
    {
      stateMachine.transitions == BotTransitions &&
      (stateMachine.current == WaitingForInitialization ==> !hasWorkflow)
    }

    constructor ()
      ensures Valid() && fresh(stateMachine)
      ensures stateMachine.current == WaitingForInitialization && !hasWorkflow && broadcasts == []
    {
      stateMachine := new StateMachine(BotTransitions, WaitingForInitialization);
      hasWorkflow := false;
      broadcasts := [];
    }

    /** `StopHardwareMonitorService`: a failing look-up or stop turns the mark into `MarkAsFaulted`. */
    method StopHardwareMonitorService(monitor: MonitorStop, botCommand: BotCommand) returns (command: BotCommand)
      modifies this`broadcasts
      ensures broadcasts == old(broadcasts) + MonitorStopBroadcasts(monitor)
      ensures command == if monitor == LookupFails || monitor == StopFails then MarkAsFaulted else botCommand
    {
      command := botCommand;
      if monitor == LookupFails {
        return MarkAsFaulted;
      }
      if monitor == NotRunning {
        return;
      }
      broadcasts := broadcasts + [StopProgressReport(StoppingMonitorMessage)];
      if monitor == StopFails {
        command := MarkAsFaulted;
      }
    }

    /** `ShutdownWorkflow`: it fails when the workflow's shutdown throws or there is no workflow. */
    method ShutdownWorkflow(shutdownOk: bool, botCommand: BotCommand) returns (command: BotCommand)
      modifies this`broadcasts
      ensures broadcasts == old(broadcasts) + [StopProgressReport(WaitingMessage)]
      ensures command == if !hasWorkflow || !shutdownOk then MarkAsFaulted else botCommand
    {
      broadcasts := broadcasts + [StopProgressReport(WaitingMessage)];
      command := if !hasWorkflow || !shutdownOk then MarkAsFaulted else botCommand;
    }

    /** `ReleaseResources`: it fails when disposing the services throws. */
    method ReleaseResources(releaseOk: bool, botCommand: BotCommand) returns (command: BotCommand)
      modifies this`broadcasts
      ensures broadcasts == old(broadcasts) + [StopProgressReport(DisposingMessage)]
      ensures command == if !releaseOk then MarkAsFaulted else botCommand
    {
      broadcasts := broadcasts + [StopProgressReport(DisposingMessage)];
      command := if !releaseOk then MarkAsFaulted else botCommand;
    }

    /**
     * Moves to `Completed` and runs the sub-steps; any failing sub-step makes the final mark `MarkAsFaulted`.
     * `WorkflowCompleted` carries the name of the state reached. Without a `Stop` transition nothing happens.
     */
    method Shutdown(botCommand: BotCommand, steps: ShutdownSteps)
      requires Valid()
      modifies this`broadcasts, stateMachine
      ensures Valid()
      ensures BotTransitions(old(stateMachine.current), Stop).None? ==>
        stateMachine.current == old(stateMachine.current) && broadcasts == old(broadcasts)
      ensures BotTransitions(old(stateMachine.current), Stop).Some? ==>
        stateMachine.current == Marked(FinalCommand(botCommand, steps, hasWorkflow)) &&
        broadcasts == old(broadcasts) + ShutdownBroadcasts(steps) + [WorkflowCompleted(StateName(stateMachine.current))]
    {
      var stateTransitionSucceeded := stateMachine.TryTransitNext(Stop);
      if stateTransitionSucceeded {
        var command := RunShutdownSteps(botCommand, steps);
        Mark(command);
      }
    }

    /** The three sub-steps of `Shutdown`, in order, each possibly turning the mark into `MarkAsFaulted`. */
    method RunShutdownSteps(botCommand: BotCommand, steps: ShutdownSteps) returns (command: BotCommand)
      modifies this`broadcasts
      ensures command == FinalCommand(botCommand, steps, hasWorkflow)
      ensures broadcasts == old(broadcasts) + ShutdownBroadcasts(steps)
    {
      command := StopHardwareMonitorService(steps.monitor, botCommand);
      command := ShutdownWorkflow(steps.workflowShutdownOk, command);
      command := ReleaseResources(steps.releaseOk, command);
    }

    /** The final mark from `Completed`, then `WorkflowCompleted` with the name of the state reached. */
    method Mark(command: BotCommand)
      requires Valid() && stateMachine.current == Completed
      modifies this`broadcasts, stateMachine
      ensures Valid()
      ensures stateMachine.current == Marked(command)
      ensures broadcasts == old(broadcasts) + [WorkflowCompleted(StateName(stateMachine.current))]
    {
      var marked := stateMachine.TryTransitNext(command);
      broadcasts := broadcasts + [WorkflowCompleted(StateName(stateMachine.current))];
    }

    /** `Stop` requests a cancelled shutdown. */
    method Halt(steps: ShutdownSteps)
      requires Valid()
      modifies this`broadcasts, stateMachine
      ensures Valid()
      ensures BotTransitions(old(stateMachine.current), Stop).None? ==>
        stateMachine.current == old(stateMachine.current) && broadcasts == old(broadcasts)
      ensures BotTransitions(old(stateMachine.current), Stop).Some? ==>
        stateMachine.current == Marked(FinalCommand(MarkAsCancelled, steps, hasWorkflow)) &&
        broadcasts == old(broadcasts) + ShutdownBroadcasts(steps) + [WorkflowCompleted(StateName(stateMachine.current))]
    {
      Shutdown(MarkAsCancelled, steps);
    }

    /**
     * The body of `TryStart`'s `try`: set-up (which obtains the workflow), the screenshot directory, the hardware
     * monitor and the workflow's activation, each broadcasting its report first. `ok` says whether all of them
     * returned.
     */
    method StartUp(failure: StartFailure) returns (ok: bool)
      modifies this`broadcasts, this`hasWorkflow
      ensures ok <==> failure == NoFailure
      ensures broadcasts == old(broadcasts) + StartBroadcasts(failure)
      ensures hasWorkflow == (old(hasWorkflow) || failure != SetupFails)
    {
      ok := false;
      broadcasts := broadcasts + [StartProgressReport(SettingUpMessage)];
      if failure == SetupFails {
        return;
      }
      hasWorkflow := true;
      ghost var afterSetup := broadcasts;
      if failure == DirectoryFails {
        return;
      }
      broadcasts := broadcasts + [StartProgressReport(StartingMonitorMessage)];
      if failure == MonitorStartFails {
        return;
      }
      broadcasts := broadcasts + [StartProgressReport(ActivatingMessage)];
      if failure == ActivationFails {
        assert broadcasts == afterSetup + MonitorAndActivationBroadcasts(failure);
        return;
      }
      broadcasts := broadcasts + [WorkflowActivated];
      assert broadcasts == afterSetup + MonitorAndActivationBroadcasts(failure);
      ok := true;
    }

    /**
     * The `catch` block: abort to `WaitingForStop`, shut the workflow down (a `NullReferenceException` that escapes
     * when there is no workflow; `abortShutdownOk` says whether the call returns) and shut down as faulted.
     */
    method AbortStart(abortShutdownOk: bool, steps: ShutdownSteps) returns (result: Result<bool>)
      requires Valid() && stateMachine.current == WaitingToRun
      modifies this`broadcasts, stateMachine
      ensures Valid()
      ensures !hasWorkflow || !abortShutdownOk ==>
        result.Failure? && stateMachine.current == WaitingForStop && broadcasts == old(broadcasts)
      ensures hasWorkflow && abortShutdownOk ==>
        result == Success(false) && stateMachine.current == Marked(FinalCommand(MarkAsFaulted, steps, true)) &&
        broadcasts == old(broadcasts) + ShutdownBroadcasts(steps) + [WorkflowCompleted(StateName(stateMachine.current))]
    {
      var aborted := stateMachine.TryTransitNext(Abort);
      if !hasWorkflow {
        return Failure("NullReferenceException: the workflow was never obtained");
      }
      if !abortShutdownOk {
        return Failure("the workflow's shutdown threw");
      }
      Shutdown(MarkAsFaulted, steps);
      result := Success(false);
    }

    /**
     * Initializes, runs the start-up steps and moves to `Running`. If a step throws, the bot aborts to
     * `WaitingForStop`, shuts the workflow down and then shuts itself down as faulted. From any state but
     * `WaitingForInitialization` nothing happens.
     */
    method TryStart(failure: StartFailure, abortShutdownOk: bool, steps: ShutdownSteps) returns (result: Result<bool>)
      requires Valid()
      modifies this, stateMachine
      ensures Valid()
      ensures old(stateMachine.current) != WaitingForInitialization ==>
        result == Success(false) && stateMachine.current == old(stateMachine.current) &&
        broadcasts == old(broadcasts) && hasWorkflow == old(hasWorkflow)
      ensures old(stateMachine.current) == WaitingForInitialization && failure == NoFailure ==>
        result == Success(true) && stateMachine.current == Running && hasWorkflow &&
        broadcasts == old(broadcasts) + StartBroadcasts(NoFailure)
      ensures old(stateMachine.current) == WaitingForInitialization && failure == SetupFails ==>
        result.Failure? && stateMachine.current == WaitingForStop && !hasWorkflow &&
        broadcasts == old(broadcasts) + StartBroadcasts(SetupFails)
      ensures old(stateMachine.current) == WaitingForInitialization && failure !in {NoFailure, SetupFails} ==>
        hasWorkflow &&
        if abortShutdownOk then
          result == Success(false) && stateMachine.current == Marked(FinalCommand(MarkAsFaulted, steps, true)) &&
          broadcasts == old(broadcasts) + StartBroadcasts(failure) + ShutdownBroadcasts(steps) +
            [WorkflowCompleted(StateName(stateMachine.current))]
        else
          result.Failure? && stateMachine.current == WaitingForStop &&
          broadcasts == old(broadcasts) + StartBroadcasts(failure)
    {
      result := Success(false);
      var stateTransitionSucceeded := stateMachine.TryTransitNext(Initialize);
      if !stateTransitionSucceeded {
        return;
      }
      var ok := StartUp(failure);
      if ok {
        var running := stateMachine.TryTransitNext(Run);
        return Success(true);
      }
      result := AbortStart(abortShutdownOk, steps);
    }

    /** The workflow's `OnEventBroadcast` handler: forward the event, then shut down on the two ending events. */
    method HandleWorkflowEvent(e: Event, steps: ShutdownSteps)
      requires Valid()
      modifies this`broadcasts, stateMachine
      ensures Valid()
      ensures ShutdownCommandFor(e).None? ==>
        stateMachine.current == old(stateMachine.current) && broadcasts == old(broadcasts) + [e]
      ensures ShutdownCommandFor(e).Some? && BotTransitions(old(stateMachine.current), Stop).None? ==>
        stateMachine.current == old(stateMachine.current) && broadcasts == old(broadcasts) + [e]
      ensures ShutdownCommandFor(e).Some? && BotTransitions(old(stateMachine.current), Stop).Some? ==>
        stateMachine.current == Marked(FinalCommand(ShutdownCommandFor(e).value, steps, hasWorkflow)) &&
        broadcasts == old(broadcasts) + [e] + ShutdownBroadcasts(steps) +
          [WorkflowCompleted(StateName(stateMachine.current))]
    {
      broadcasts := broadcasts + [e];
      var command := ShutdownCommandFor(e);
      if command.Some? {
        Shutdown(command.value, steps);
      }
    }
  }

  // ----- Properties of the lifecycle -----

  /** Shutting down from a stoppable state always ends in a terminal state, `Faulted` if any sub-step failed. */
  lemma {:induction false} ShutdownEndsTerminal(requested: BotCommand, steps: ShutdownSteps, hasWorkflow: bool)
    requires requested in {MarkAsRanToCompletion, MarkAsCancelled, MarkAsFaulted}
    ensures IsTerminal(Marked(FinalCommand(requested, steps, hasWorkflow)))
    ensures SomeShutdownStepFails(steps, hasWorkflow) ==> Marked(FinalCommand(requested, steps, hasWorkflow)) == Faulted
  {
  }

  /** The end state of a workflow-triggered shutdown with every sub-step succeeding follows the trigger. */
  lemma ShutdownMarkFollowsTrigger(e: Event, steps: ShutdownSteps)
    requires !SomeShutdownStepFails(steps, true)
    ensures e == NoMoreWorkToDo ==> Marked(FinalCommand(ShutdownCommandFor(e).value, steps, true)) == RanToCompletion
    ensures e.RedirectHappenedAtStartUrl? ==> Marked(FinalCommand(ShutdownCommandFor(e).value, steps, true)) == Faulted
    ensures Marked(FinalCommand(MarkAsCancelled, steps, true)) == Cancelled
  {
  }

  /** A failed start, once the workflow exists and its shutdown returns, ends `Faulted`, whatever the sub-steps do. */
  lemma FailedStartEndsFaulted(steps: ShutdownSteps)
    ensures Marked(FinalCommand(MarkAsFaulted, steps, true)) == Faulted
  {
  }

  /** `Stop` before a start has no workflow to shut down, which throws and is caught: the bot ends faulted. */
  lemma StopBeforeStartEndsFaulted(steps: ShutdownSteps)
    ensures Marked(FinalCommand(MarkAsCancelled, steps, false)) == Faulted
  {
  }
}
