/** The values that flow through the terminal launcher: the command to run,
    the errors it raises, the process it would spawn, and the answers of the
    host environment that the launcher queries. */
module Launch {
  import opened Wrappers

  /** An environment: variable name to value. */
  type Env = map<string, string>

  /** A command is either one shell line (`str`) or an argument list (`list`). */
  datatype Command = Text(line: string) | Tokens(args: seq<string>)

  /** The exceptions the launcher raises or lets escape. */
  datatype Error =
    | RuntimeError(message: string)   // raised explicitly
    | TypeError                       // a builtin called with the wrong arguments
    | KeyError(key: string)           // a missing environment variable

  /** The process the launcher asks the operating system to start. */
  datatype Spawn =
    | NewConsole(cmd: Command, cwd: string)    // `Popen(cmd, creationflags=CREATE_NEW_CONSOLE, cwd=cwd)`
    | Shell(line: string, env: Option<Env>)    // `Popen(line, env=env, shell=True)`

  /** What the host answers: the binaries `shutil.which` finds, where
      `os.path.realpath` says `x-terminal-emulator` leads, and the two
      standard-library quoting functions, `subprocess.list2cmdline([s])`
      and `shlex.quote(s)`, whose internals are not modelled. */
  datatype Host = Host(
    onPath: set<string>,
    xteRealpath: string,
    cmdlineQuote: string -> string,
    shlexQuote: string -> string)
}
