/** The Linux strategy of the launcher: pick a terminal emulator among the
    binaries on the search path, then build the one shell line that opens it
    running the command. */
module LinuxTerminal {
  import opened Wrappers
  import opened PyStrings
  import opened Launch

  /** The emulators tried, most preferred first. */
  const Preference: seq<string> :=
    ["x-terminal-emulator", "gnome-terminal", "xfce4-terminal", "lxterminal", "xterm"]

  const NoTerminalMessage: string := "Don't know how to open terminal emulator"

  /** `x-terminal-emulator` is a link to `lxterminal`, and `lxterminal` can be
      called by its own name. */
  predicate RedirectsToLxterminal(onPath: set<string>, xteRealpath: string)
  {
    EndsWith(xteRealpath, "/lxterminal") && "lxterminal" in onPath
  }

  /** The choice of `term_cmd`: the `if`/`elif` chain over `shutil.which`. */
  function SelectTerminal(onPath: set<string>, xteRealpath: string): (r: Result<string, Error>)
    ensures r.Failure? <==> forall t :: t in Preference ==> t !in onPath
    ensures r.Failure? ==> r.error == RuntimeError(NoTerminalMessage)
    ensures r.Success? ==> r.value in Preference && r.value in onPath
  {
    if "x-terminal-emulator" in onPath then
      if RedirectsToLxterminal(onPath, xteRealpath) then Success("lxterminal")
      else Success("x-terminal-emulator")
    else if "gnome-terminal" in onPath then Success("gnome-terminal")
    else if "xfce4-terminal" in onPath then Success("xfce4-terminal")
    else if "lxterminal" in onPath then Success("lxterminal")
    else if "xterm" in onPath then Success("xterm")
    else Failure(RuntimeError(NoTerminalMessage))
  }

  /** Reference rule for a preference list: the position of the first entry
      that is on the path. */
  function FirstAvailable(prefs: seq<string>, onPath: set<string>): (r: Option<nat>)
    ensures r.Some? ==> r.value < |prefs| && prefs[r.value] in onPath
    ensures r.Some? ==> forall j :: 0 <= j < r.value ==> prefs[j] !in onPath
    ensures r.None? <==> forall j :: 0 <= j < |prefs| ==> prefs[j] !in onPath
    decreases |prefs|
  {
    if |prefs| == 0 then None
    else if prefs[0] in onPath then Some(0)
    else match FirstAvailable(prefs[1..], onPath)
      case None => None
      case Some(k) => Some(k + 1)
  }

  /** The selection is "first available wins" over `Preference`, except that
      a first choice of `x-terminal-emulator` becomes `lxterminal` when it
      redirects there. */
  lemma SelectionFollowsPreference(onPath: set<string>, xteRealpath: string)
    ensures match FirstAvailable(Preference, onPath)
      case None => SelectTerminal(onPath, xteRealpath) == Failure(RuntimeError(NoTerminalMessage))
      case Some(k) =>
        SelectTerminal(onPath, xteRealpath)
          == Success(if k == 0 && RedirectsToLxterminal(onPath, xteRealpath) then "lxterminal" else Preference[k])
  {
  }

  /** A binary earlier in the preference order always beats a later one; the
      one exception is `lxterminal` taking the place of an installed
      `x-terminal-emulator` through the redirect. */
  lemma EarlierWins(onPath: set<string>, xteRealpath: string, i: nat, j: nat)
    requires i < j < |Preference|
    requires Preference[i] in onPath
    ensures SelectTerminal(onPath, xteRealpath) != Success(Preference[j])
      || (Preference[j] == "lxterminal" && "x-terminal-emulator" in onPath
          && RedirectsToLxterminal(onPath, xteRealpath))
  {
  }

  /** `x-terminal-emulator`, when present, is replaced by `lxterminal` exactly
      when it resolves to a path ending in `/lxterminal` and `lxterminal` is
      on the path itself; otherwise it is used as it is. */
  lemma RedirectOnlyToLxterminal(onPath: set<string>, xteRealpath: string)
    requires "x-terminal-emulator" in onPath
    ensures SelectTerminal(onPath, xteRealpath) == Success("lxterminal")
      <==> EndsWith(xteRealpath, "/lxterminal") && "lxterminal" in onPath
    ensures !RedirectsToLxterminal(onPath, xteRealpath)
      ==> SelectTerminal(onPath, xteRealpath) == Success("x-terminal-emulator")
  {
  }

  /** The command as one shell line: a `str` as it is, a `list` with each
      token quoted and the tokens joined by single spaces. */
  function CommandLine(cmd: Command, quote: string -> string): string
  {
    match cmd
    case Text(line) => line
    case Tokens(args) => Join(QuoteEach(args, quote), " ")
  }

  function QuoteEach(args: seq<string>, quote: string -> string): (r: seq<string>)
    ensures |r| == |args| && forall i :: 0 <= i < |args| ==> r[i] == quote(args[i])
  {
    seq(|args|, i requires 0 <= i < |args| => quote(args[i]))
  }

  /** Each quoted token is one space-separated word of the line, provided the
      quoting put no space into it. */
  lemma TokensAreWords(args: seq<string>, quote: string -> string)
    requires |args| >= 1
    requires forall i :: 0 <= i < |args| ==> ' ' !in quote(args[i])
    ensures Split(CommandLine(Tokens(args), quote), ' ') == QuoteEach(args, quote)
  {
    SplitJoin(QuoteEach(args, quote), ' ');
  }

  /** Reading the line back: for any word splitter `words` that reads a
      quoted token followed by a space as that token and then the rest, and a
      lone quoted token as that token, the joined line of a list command reads
      back as exactly its tokens, spaces inside them included. */
  lemma {:induction false} TokensReadBack(args: seq<string>, quote: string -> string, words: string -> seq<string>)
    requires |args| >= 1
    requires forall t, rest :: words(quote(t) + " " + rest) == [t] + words(rest)
    requires forall t :: words(quote(t)) == [t]
    ensures words(CommandLine(Tokens(args), quote)) == args
    decreases |args|
  {
    if |args| > 1 {
      TokensReadBack(args[1..], quote, words);
      assert QuoteEach(args, quote)[1..] == QuoteEach(args[1..], quote);
      assert CommandLine(Tokens(args), quote) == quote(args[0]) + " " + CommandLine(Tokens(args[1..]), quote);
      assert args == [args[0]] + args[1..];
    }
  }

  /** `in_term_cmd`: with `keep_open` the command is followed by an
      interactive bash and handed, quoted, to `bash -c`. */
  function InTermCommand(line: string, keepOpen: bool, quote: string -> string): string
  {
    if keepOpen then "bash -c " + quote(line + "; exec bash -i") else line
  }

  /** `whole_cmd`: `lxterminal` takes its command as `--command=…`, every
      other emulator as `-e …`. */
  function WholeCommand(term: string, inTerm: string, quote: string -> string): string
  {
    if term == "lxterminal" then term + " --command=" + quote(inTerm)
    else term + " -e " + quote(inTerm)
  }

  /** Reads a whole command line back into the emulator's name and the one
      argument it receives after its command flag. */
  function ParseWholeCommand(line: string): Option<(string, string)>
  {
    var term := TakeUntil(line, ' ');
    if |term| == |line| then None
    else
      var rest := line[|term| + 1..];
      if term == "lxterminal" then
        if StartsWith(rest, "--command=") then Some((term, rest[10..])) else None
      else
        if StartsWith(rest, "-e ") then Some((term, rest[3..])) else None
  }

  /** Round trip: for an emulator name without spaces, the line names that
      emulator and passes it exactly the quoted in-terminal command, behind
      the flag that emulator expects. */
  lemma WholeCommandParses(term: string, inTerm: string, quote: string -> string)
    requires ' ' !in term
    ensures ParseWholeCommand(WholeCommand(term, inTerm, quote)) == Some((term, quote(inTerm)))
  {
    var flagged := if term == "lxterminal" then "--command=" + quote(inTerm) else "-e " + quote(inTerm);
    var line := WholeCommand(term, inTerm, quote);
    assert line == term + [' '] + flagged;
    TakeUntilPrefix(term, ' ', flagged);
    assert line[|term| + 1..] == flagged;
  }

  /** `_run_in_terminal_in_linux`: the shell line to spawn, or the error. */
  function LinuxLaunch(cmd: Command, env: Option<Env>, keepOpen: bool, host: Host): (r: Result<Spawn, Error>)
    ensures r.Failure? <==> forall t :: t in Preference ==> t !in host.onPath
    ensures r.Failure? ==> r.error == RuntimeError(NoTerminalMessage)
    ensures r.Success? ==> r.value.Shell? && r.value.env == env
  {
    match SelectTerminal(host.onPath, host.xteRealpath)
    case Failure(e) => Failure(e)
    case Success(term) =>
      var q := host.cmdlineQuote;
      Success(Shell(WholeCommand(term, InTermCommand(CommandLine(cmd, q), keepOpen, q), q), env))
  }

  /** What the spawned line hands to the selected emulator: the command line
      itself, or, with `keep_open`, `bash -c` over the command followed by an
      interactive bash; either way quoted once more as a single argument. */
  lemma LinuxLaunchLine(cmd: Command, env: Option<Env>, keepOpen: bool, host: Host)
    requires LinuxLaunch(cmd, env, keepOpen, host).Success?
    ensures var q := host.cmdlineQuote;
      var line := CommandLine(cmd, q);
      var inner := if keepOpen then "bash -c " + q(line + "; exec bash -i") else line;
      ParseWholeCommand(LinuxLaunch(cmd, env, keepOpen, host).value.line)
        == Some((SelectTerminal(host.onPath, host.xteRealpath).value, q(inner)))
  {
    var term := SelectTerminal(host.onPath, host.xteRealpath).value;
    assert ' ' !in term by {
      assert term in Preference;
    }
    var q := host.cmdlineQuote;
    WholeCommandParses(term, InTermCommand(CommandLine(cmd, q), keepOpen, q), q);
  }

  /** The tokens `echo` and `a b` with only `xterm` installed: `xterm -e`
      followed by the quoted, space-joined, quoted tokens. */
  lemma XtermExample(env: Option<Env>, host: Host)
    requires host.onPath == {"xterm"}
    ensures var q := host.cmdlineQuote;
      LinuxLaunch(Tokens(["echo", "a b"]), env, false, host)
        == Success(Shell("xterm -e " + q(q("echo") + " " + q("a b")), env))
      && LinuxLaunch(Tokens(["echo", "a b"]), env, true, host)
        == Success(Shell("xterm -e " + q("bash -c " + q(q("echo") + " " + q("a b") + "; exec bash -i")), env))
  {
    var q := host.cmdlineQuote;
    assert SelectTerminal(host.onPath, host.xteRealpath) == Success("xterm");
    var quoted := QuoteEach(["echo", "a b"], q);
    assert quoted == [q("echo"), q("a b")];
    assert Join(quoted, " ") == q("echo") + " " + Join(quoted[1..], " ");
    var line := q("echo") + " " + q("a b");
    assert CommandLine(Tokens(["echo", "a b"]), q) == line;
    assert "xterm" + " -e " + q(line) == "xterm -e " + q(line);
    var inner := "bash -c " + q(line + "; exec bash -i");
    assert "xterm" + " -e " + q(inner) == "xterm -e " + q(inner);
  }
}
