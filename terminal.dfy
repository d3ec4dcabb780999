/** `run_in_terminal`: hand the command to the strategy of the operating
    system that `platform.system()` names. */
module Terminal {
  import opened Wrappers
  import opened Launch
  import LinuxTerminal
  import MacTerminal

  /** What the Windows strategy does with its arguments. With `keep_open` it
      raises TypeError before spawning anything, because `map` is called with
      the lambda alone; otherwise it starts the command as given in a new
      console, in `cwd`. */
  function WindowsLaunch(cmd: Command, cwd: string, keepOpen: bool): (r: Result<Spawn, Error>)
    ensures r.Failure? <==> keepOpen
    ensures r.Success? ==> r.value == NewConsole(cmd, cwd)
  {
    if keepOpen then Failure(TypeError) else Success(NewConsole(cmd, cwd))
  }

  function UnsupportedMessage(system: string): string
  {
    "Can't launch terminal in " + system
  }

  /** The dispatch on the name of the operating system. */
  function RunInTerminal(system: string, cmd: Command, cwd: string, env: Option<Env>, keepOpen: bool, host: Host)
    : (r: Result<Spawn, Error>)
    ensures system == "Windows" ==>
      (r.Failure? <==> keepOpen) && (r.Success? ==> r.value == NewConsole(cmd, cwd))
    ensures system == "Linux" ==>
      (r.Failure? <==> forall t :: t in LinuxTerminal.Preference ==> t !in host.onPath)
    ensures system == "Darwin" ==>
      (r.Failure? <==> cmd.Tokens? || env.None? || "PATH" !in env.value)
    ensures system == "Linux" ==> r == LinuxTerminal.LinuxLaunch(cmd, env, keepOpen, host)
    ensures system == "Darwin" ==> r == MacTerminal.MacLaunch(cmd, env, host)
    ensures system == "Linux" || system == "Darwin" ==>
      r.Success? ==> r.value.Shell? && r.value.env == env
  {
    if system == "Windows" then WindowsLaunch(cmd, cwd, keepOpen)
    else if system == "Linux" then LinuxTerminal.LinuxLaunch(cmd, env, keepOpen, host)
    else if system == "Darwin" then MacTerminal.MacLaunch(cmd, env, host)
    else Failure(RuntimeError(UnsupportedMessage(system)))
  }

  /** Exactly the systems other than Windows, Linux and Darwin end in the
      unsupported-platform error naming the system, and nothing is spawned. */
  lemma UnsupportedSystem(system: string, cmd: Command, cwd: string, env: Option<Env>, keepOpen: bool, host: Host)
    ensures system != "Windows" && system != "Linux" && system != "Darwin"
      <==> RunInTerminal(system, cmd, cwd, env, keepOpen, host) == Failure(RuntimeError(UnsupportedMessage(system)))
  {
  }
}
