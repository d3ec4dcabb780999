# Verified model of Thonny's terminal launcher

`thonny/terminal.py` opens a visible terminal window running a command. It
picks a strategy by operating system. On Windows it starts a new console. On
Linux it picks a terminal emulator and builds one shell line that starts it.
On macOS it builds an `osascript` line that tells the Terminal application to
`do script` the command. The module also has `_add_to_path`, which puts a
directory in front of a `PATH`-style list unless it is already listed.

The model is pure: every rule is a Dafny function that returns the string it
composes, or the decision it takes, and lemmas state what these mean.
Spawning a process is modelled by the value `Launch.Spawn`, which says what
would be spawned. A raised exception is a `Failure` of `Launch.Error`.

- `PyStrings`: the Python string operations used: `sep.join`,
  `str.split` on a one-character separator (empty pieces kept),
  one-character `str.replace`, `startswith`, `endswith`.
- `Launch`: the shared value types. `Command` is a `str` or a `list` of
  tokens. `Error` is `RuntimeError`, `TypeError` or `KeyError`. `Host` holds
  the answers of the environment: the binaries on the search path, the
  realpath of `x-terminal-emulator`, and the two quoting functions
  `subprocess.list2cmdline([s])` and `shlex.quote(s)`. Both quoting functions
  are left abstract.
- `PathList`: `_add_to_path`, with the separator and "is Windows" as
  parameters and `str.lower` as an abstract function.
- `LinuxTerminal`: emulator selection, command assembly, and a reader that
  parses the composed line back.
- `MacTerminal`: the AppleScript string literal and its decoder, the `cmds`
  environment preamble, the two `do script` lines, and the `osascript` line.
- `Terminal`: the dispatch in `run_in_terminal`, and the outcome of the
  Windows strategy.

Behaviour of the code worth knowing:

- The final Linux line quotes the in-terminal command once more. With only
  `xterm` installed, `["echo", "a b"]` without `keep_open` gives
  `xterm -e ` followed by `q(q("echo") + " " + q("a b"))`, where `q` is
  `subprocess.list2cmdline` of one argument (`LinuxTerminal.XtermExample`).
- The working directory is not passed to the Linux or the macOS spawn.
  The Windows console spawn does not receive the environment.
- On macOS the environment preamble `cmds` (terminal.py:107-114) is computed
  but never used. Line 120 escapes `cmd`, not `cmds`, so the script runs the
  bare command. The preamble can still raise: TypeError when `env` is `None`
  (the default), and KeyError when `PATH` is missing. `MacLaunch` keeps both
  errors, and `MacLaunchRunsCommand` shows that the script runs the command,
  not the preamble.
- On macOS a list command raises TypeError, because `" ".join` is given two
  arguments (terminal.py:101). It is not quoted per token.
- On Windows, `keep_open` raises TypeError at terminal.py:32, because `map` is
  given only the lambda. The `start ... cmd /K` line is never built.

## Model

| member | source | states |
|---|---|---|
| `PyStrings.Split` | thonny/terminal.py:21 | `str.split(sep)` gives at least one piece, and no piece contains the separator |
| `PyStrings.JoinSplit` | thonny/terminal.py:21 | joining the pieces of a split with the separator restores the string |
| `PyStrings.SplitJoin` | thonny/terminal.py:21 | splitting a join of separator-free parts gives back exactly those parts, empty ones included |
| `PyStrings.Join` | thonny/terminal.py:74 | `" ".join`; its meaning is stated by `PyStrings.JoinSplit` and `PyStrings.SplitJoin` |
| `PyStrings.ReplaceChar` | thonny/terminal.py:120 | after replacing every occurrence of a character with text that lacks it, the character is gone |
| `PathList.IsEntry` | thonny/terminal.py:21-23 | the test of `_add_to_path`; its meaning is stated by `PathList.UnchangedIffEntry`, `PathList.BecomesEntry` and `PathList.NotIdempotentWithSeparator` |
| `PathList.AddToPath` | thonny/terminal.py:17-26 | `_add_to_path`; its meaning is stated by `PathList.UnchangedIffEntry`, `PathList.PrependsNewEntry` and `PathList.Idempotent` |
| `PathList.UnchangedIffEntry` | thonny/terminal.py:21-24 | `_add_to_path` returns the path unchanged if and only if the directory is one of its split entries, or on Windows one of the lower-cased entries |
| `PathList.PrependsNewEntry` | thonny/terminal.py:25-26 | otherwise the result starts with directory plus separator and ends with the old path; for a separator-free directory its entries are the directory followed by the old entries |
| `PathList.BecomesEntry` | thonny/terminal.py:17-26 | afterwards a separator-free directory is an entry of the result |
| `PathList.Idempotent` | thonny/terminal.py:17-26 | adding a separator-free directory twice gives the same path as adding it once |
| `PathList.NotIdempotentWithSeparator` | thonny/terminal.py:17-26 | a directory that contains the separator (and, on Windows, still contains it after `lower`) is prepended again on every call |
| `LinuxTerminal.SelectTerminal` | thonny/terminal.py:46-70 | the choice fails, with the "Don't know how to open terminal emulator" RuntimeError, exactly when none of the five emulators is on the path; otherwise it picks an emulator that is on the path |
| `LinuxTerminal.FirstAvailable` | thonny/terminal.py:46-70 | reference rule: the position of the first entry on the path, with no earlier entry on it, and none exactly when no entry is on the path |
| `LinuxTerminal.SelectionFollowsPreference` | thonny/terminal.py:46-70 | the selection is the first available of x-terminal-emulator, gnome-terminal, xfce4-terminal, lxterminal, xterm, and x-terminal-emulator becomes lxterminal through the redirect |
| `LinuxTerminal.EarlierWins` | thonny/terminal.py:46-68 | an installed emulator earlier in the order always beats a later one, except lxterminal replacing x-terminal-emulator through the redirect |
| `LinuxTerminal.RedirectOnlyToLxterminal` | thonny/terminal.py:47-53 | an installed x-terminal-emulator becomes lxterminal if and only if its realpath ends with `/lxterminal` and lxterminal is on the path; otherwise it is used as it is |
| `LinuxTerminal.CommandLine` | thonny/terminal.py:73-74 | the command as one line; its meaning is stated by `LinuxTerminal.TokensReadBack` and `LinuxTerminal.TokensAreWords` |
| `LinuxTerminal.InTermCommand` | thonny/terminal.py:76-81 | `in_term_cmd`; what it hands the emulator is stated by `LinuxTerminal.LinuxLaunchLine` |
| `LinuxTerminal.WholeCommand` | thonny/terminal.py:83-91 | `whole_cmd`; its meaning is stated by `LinuxTerminal.WholeCommandParses` |
| `LinuxTerminal.TokensReadBack` | thonny/terminal.py:73-74 | for any word splitter that reads a quoted token followed by a space as that token, the joined line of a list command reads back as exactly its tokens, spaces inside them included |
| `LinuxTerminal.TokensAreWords` | thonny/terminal.py:73-74 | the quoted tokens, if they contain no space, are exactly the space-separated words of the joined command |
| `LinuxTerminal.WholeCommandParses` | thonny/terminal.py:83-91 | the whole line reads back as the emulator name and the quoted in-terminal command, behind `--command=` for lxterminal and `-e ` for any other emulator |
| `LinuxTerminal.LinuxLaunch` | thonny/terminal.py:42-94 | the Linux strategy fails exactly when no emulator is found, with the RuntimeError "Don't know how to open terminal emulator"; otherwise it spawns one shell line with the given environment |
| `LinuxTerminal.LinuxLaunchLine` | thonny/terminal.py:73-91 | the selected emulator receives `q(cmd)`, or with `keep_open` `q("bash -c " + q(cmd + "; exec bash -i"))`, where a list command is first joined from quoted tokens |
| `LinuxTerminal.XtermExample` | thonny/terminal.py:73-91 | the tokens `echo`, `a b` with only xterm installed give `xterm -e` plus the quoted joined command, or its `bash -c` form with `keep_open` |
| `MacTerminal.AppleScriptLiteral` | thonny/terminal.py:119-121 | the literal starts and ends with a double quote |
| `MacTerminal.EscapeForAppleScript` | thonny/terminal.py:120 | the two `replace` passes; their meaning is stated by `MacTerminal.EscapeIsPerCharacter` and `MacTerminal.LiteralRoundTrip` |
| `MacTerminal.EscapeIsPerCharacter` | thonny/terminal.py:120 | the two `replace` passes, backslashes first, escape each character on its own: a backslash becomes two, a double quote becomes backslash-quote |
| `MacTerminal.UnescapeEscapeEach` | thonny/terminal.py:119-121 | decoding the escaped text from left to right gives it back, so no bare double quote is left inside |
| `MacTerminal.LiteralRoundTrip` | thonny/terminal.py:119-121 | reading the literal back (quote, escaped body, quote) recovers the command |
| `MacTerminal.LiteralInjective` | thonny/terminal.py:119-121 | different commands give different literals |
| `MacTerminal.Preamble` | thonny/terminal.py:107-114 | the preamble raises TypeError for a missing environment and KeyError for a missing `PATH` |
| `MacTerminal.PreambleContents` | thonny/terminal.py:107-114 | the preamble starts by setting `PATH` and unsetting `TK_LIBRARY` and `TCL_LIBRARY`, ends with the command, and exports `SSL_CERT_FILE` if and only if the environment holds it, with that variable's quoted value; without it, nothing stands between the unsets and the command |
| `MacTerminal.DoScript` | thonny/terminal.py:127 | `doScriptCmd1`; its meaning is stated by `MacTerminal.DoScriptCarriesCommand` |
| `MacTerminal.DoScriptInWindow1` | thonny/terminal.py:128-130 | `doScriptCmd2`; its meaning is stated by `MacTerminal.DoScriptCarriesCommand` |
| `MacTerminal.OsascriptLine` | thonny/terminal.py:138-153 | `cmd_line`; its shape is stated by `MacTerminal.MacLaunchRunsCommand` |
| `MacTerminal.DoScriptCarriesCommand` | thonny/terminal.py:127-130 | both `do script` lines, plain and `in window 1`, carry a literal that reads back as exactly the command |
| `MacTerminal.MacLaunch` | thonny/terminal.py:97-155 | the macOS strategy fails exactly for a list command (TypeError), a missing environment (TypeError) or a missing `PATH` (KeyError for `PATH`); otherwise it spawns one shell line with the given environment |
| `MacTerminal.MacLaunchRunsCommand` | thonny/terminal.py:119-153 | the spawned line is the fixed `osascript` script around the two quoted `do script` lines; both run exactly the command, not the preamble |
| `Terminal.RunInTerminal` | thonny/terminal.py:7-15 | on Windows, dispatch fails exactly with `keep_open` and otherwise starts the command unchanged in a new console in `cwd`; on Linux the result is exactly that of the Linux strategy (`LinuxTerminal.LinuxLaunch`) and on Darwin that of the macOS strategy (`MacTerminal.MacLaunch`), so the lines stated by `LinuxTerminal.LinuxLaunchLine` and `MacTerminal.MacLaunchRunsCommand` are what gets spawned |
| `Terminal.UnsupportedMessage` | thonny/terminal.py:15 | the message of the unsupported-platform error; stated by `Terminal.UnsupportedSystem` |
| `Terminal.UnsupportedSystem` | thonny/terminal.py:7-15 | the result is the RuntimeError "Can't launch terminal in " plus the system name if and only if the system is none of Windows, Linux and Darwin |

## Left out

- Process spawning (`subprocess.Popen`, terminal.py:36, 38-39, 94, 155) is not performed. The model returns the `Spawn` value that would be passed to it.
- `platform.system()`, `shutil.which` and `os.path.realpath` are environment queries. The model takes their answers as parameters: the system name, the set `Host.onPath`, and `Host.xteRealpath`.
- `subprocess.list2cmdline` and `shlex.quote` are standard-library code and are kept abstract. So the model does not state that shell word splitting of a quoted token gives the token back.
- The Windows `keep_open` command line (`start ... /D ... /W cmd /K ...`, terminal.py:33-34) is not modelled, because the code raises TypeError at line 32 before building it. Line 33 would also raise KeyError for `{interpreter}`.
- `PathList.AddToPath`: `os.pathsep` is modelled as a single character, which it always is. `str.lower` is a parameter, so Unicode case folding is not modelled.
- `Launch.Command` has only the `str` and `list` cases. Any other argument type, such as a tuple, is not modelled.
- `Terminal.WindowsLaunch`: only the outcome of the Windows strategy is modelled (TypeError with `keep_open`, otherwise a new-console spawn of the command as given); the console process itself is not.
- `MacTerminal.Unescape`: the decoder knows only the `\\` and `\"` escapes, which are the only ones the encoder writes. AppleScript's other escapes (`\n`, `\t`, `\r`) are not modelled.
