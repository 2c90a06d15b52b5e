/** Execution states and the modelled operating system shared by the providers. */
module States {
  import opened Text

  type Pid = n: nat | n <= U32_MAX

  /** `FxExecutionState` */
  datatype ExecState =
    | NotStarted
    | NotAvailable
    | Stopped
    | Paused(pid: Pid)
    | Running(pid: Pid)
    | Unrunnable
    | Blocked
    | InsufficientFunds
    | Unknown
    | Exited(status: int)
    | Error(message: string)

  /** `FxDesiredExecutionState` */
  datatype DesiredState = WantRunning | WantStopped | WantPaused

  /** The process table (pid to command line) and the files providers read and write. */
  datatype Host = Host(procs: map<Pid, seq<string>>, files: map<string, string>)
}
