/**
 * The process's fail-fast exits, as a state machine instead of a call to
 * System.exit: InferenceController.initiateShutdown (status 1, after an
 * exception caused by an interruption) and ToolCallbackService.ping
 * (status 500, when the tool provider fails). Closing the Spring context
 * and ending the JVM are not modelled; ShuttingDown is terminal.
 */
module Lifecycle {

  datatype ProcessState = Running | ShuttingDown(exitStatus: int)

  /** The state after an exit with `status` is requested: the first request
      wins, because the process is already going down. */
  function AfterExit(s: ProcessState, status: int): (t: ProcessState)
    ensures t.ShuttingDown?
    ensures s.ShuttingDown? ==> t == s
    ensures s.Running? ==> t.exitStatus == status
  {
    if s.Running? then ShuttingDown(status) else s
  }

  /** The exit status InferenceController.initiateShutdown passes to System.exit. */
  const InterruptedExitStatus: int := 1

  /** The exit status ToolCallbackService.ping passes to System.exit. */
  const PingFailureExitStatus: int := 500

  class Supervisor {
    var state: ProcessState

    constructor ()
      ensures state == Running
    {
      state := Running;
    }

    method Exit(status: int)
      modifies this
      ensures state == AfterExit(old(state), status)
    {
      state := AfterExit(state, status);
    }
  }
}
