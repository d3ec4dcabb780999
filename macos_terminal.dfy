/** The macOS strategy of the launcher: an `osascript` command line that tells
    the Terminal application to `do script` the command, with the command
    embedded as an AppleScript string literal. */
module MacTerminal {
  import opened Wrappers
  import opened PyStrings
  import opened Launch

  // ---------------------------------------------------------------------
  // The AppleScript string literal

  /** `cmd.replace("\\", "\\\\").replace('"', '\\"')`: backslashes are
      doubled first, then every double quote gets a backslash. */
  function EscapeForAppleScript(s: string): string
  {
    ReplaceChar(ReplaceChar(s, '\\', "\\\\"), '"', "\\\"")
  }

  /** `cmd_as_apple_script_string_literal`. */
  function AppleScriptLiteral(cmd: string): (r: string)
    ensures |r| >= 2 && StartsWith(r, "\"") && EndsWith(r, "\"")
  {
    "\"" + EscapeForAppleScript(cmd) + "\""
  }

  /** Reference encoding, one character at a time. */
  function EscapeChar(c: char): string
  {
    if c == '\\' then "\\\\" else if c == '"' then "\\\"" else [c]
  }

  function EscapeEach(s: string): string
    decreases |s|
  {
    if |s| == 0 then "" else EscapeChar(s[0]) + EscapeEach(s[1..])
  }

  /** The two `replace` passes, in this order, escape every character on its
      own: a backslash becomes two, a double quote becomes backslash-quote. */
  lemma {:induction false} EscapeIsPerCharacter(s: string)
    ensures EscapeForAppleScript(s) == EscapeEach(s)
    decreases |s|
  {
    if |s| > 0 {
      EscapeIsPerCharacter(s[1..]);
      var c := s[0];
      var head := if c == '\\' then "\\\\" else [c];
      assert ReplaceChar(s, '\\', "\\\\") == head + ReplaceChar(s[1..], '\\', "\\\\");
      ReplaceCharAppend(head, ReplaceChar(s[1..], '\\', "\\\\"), '"', "\\\"");
      if c == '\\' {
        assert ReplaceChar(head, '"', "\\\"") == "\\\\" by {
          assert head[1..] == "\\";
          assert ReplaceChar(head[1..], '"', "\\\"") == "\\";
        }
      } else {
        assert ReplaceChar(head, '"', "\\\"") == EscapeChar(c) by {
          assert head[1..] == "";
        }
      }
    }
  }

  /** Decoder for the body of a literal, reading left to right: `\\` and `\"`
      stand for one backslash and one double quote; a bare double quote, or a
      backslash before anything else, is not something the encoder writes. */
  function Unescape(body: string): Option<string>
    decreases |body|
  {
    if |body| == 0 then Some("")
    else if body[0] == '"' then None
    else if body[0] == '\\' then
      if |body| >= 2 && (body[1] == '\\' || body[1] == '"') then
        match Unescape(body[2..])
        case None => None
        case Some(rest) => Some([body[1]] + rest)
      else None
    else
      match Unescape(body[1..])
      case None => None
      case Some(rest) => Some([body[0]] + rest)
  }

  /** Reads a literal back: a double quote, an escaped body, a double quote. */
  function ParseLiteral(lit: string): Option<string>
  {
    if |lit| >= 2 && lit[0] == '"' && lit[|lit| - 1] == '"' then Unescape(lit[1..|lit| - 1])
    else None
  }

  /** Decoding what the per-character encoder wrote gives the text back; in
      particular no bare double quote is left inside. */
  lemma {:induction false} UnescapeEscapeEach(s: string)
    ensures Unescape(EscapeEach(s)) == Some(s)
    decreases |s|
  {
    if |s| > 0 {
      UnescapeEscapeEach(s[1..]);
      var e := EscapeEach(s);
      var c := s[0];
      assert e == EscapeChar(c) + EscapeEach(s[1..]);
      if c == '\\' || c == '"' {
        assert e[2..] == EscapeEach(s[1..]);
      } else {
        assert e[1..] == EscapeEach(s[1..]);
      }
      assert s == [c] + s[1..];
    }
  }

  /** Round trip: the literal starts and ends with a double quote, and
      un-escaping its inside from left to right recovers the command. */
  lemma LiteralRoundTrip(cmd: string)
    ensures ParseLiteral(AppleScriptLiteral(cmd)) == Some(cmd)
  {
    var lit := AppleScriptLiteral(cmd);
    assert lit[1..|lit| - 1] == EscapeForAppleScript(cmd);
    EscapeIsPerCharacter(cmd);
    UnescapeEscapeEach(cmd);
  }

  /** Different commands give different literals. */
  lemma LiteralInjective(a: string, b: string)
    requires AppleScriptLiteral(a) == AppleScriptLiteral(b)
    ensures a == b
  {
    LiteralRoundTrip(a);
    LiteralRoundTrip(b);
  }

  // ---------------------------------------------------------------------
  // The environment preamble `cmds`

  const PathHead: string := "PATH="
  const UnsetLibraries: string := "; unset TK_LIBRARY; unset TCL_LIBRARY"
  const CertExport: string := ";export SSL_CERT_FILE="

  /** `cmds`: set `PATH`, unset the Tk and Tcl library variables, re-export
      `SSL_CERT_FILE` when the environment has it, then run the command.
      Subscripting a missing environment (`None`) raises TypeError, a missing
      `PATH` KeyError. */
  function Preamble(cmd: string, env: Option<Env>, shq: string -> string): (r: Result<string, Error>)
    ensures env.None? ==> r == Failure(TypeError)
    ensures env.Some? && "PATH" !in env.value ==> r == Failure(KeyError("PATH"))
    ensures r.Success? ==> env.Some? && "PATH" in env.value
  {
    match env
    case None => Failure(TypeError)
    case Some(e) =>
      if "PATH" !in e then Failure(KeyError("PATH"))
      else
        var head := PathHead + shq(e["PATH"]) + UnsetLibraries;
        var cert := if "SSL_CERT_FILE" in e then CertExport + shq(e["SSL_CERT_FILE"]) else "";
        Success(head + cert + "; " + cmd)
  }

  /** The preamble always sets `PATH` and unsets both library variables, ends
      with the command, and exports `SSL_CERT_FILE`, with its quoted value,
      exactly when the environment holds it; otherwise nothing stands between
      the unsets and the command. */
  lemma PreambleContents(cmd: string, env: Env, shq: string -> string)
    requires "PATH" in env
    ensures Preamble(cmd, Some(env), shq).Success?
    ensures var r := Preamble(cmd, Some(env), shq).value;
      var head := PathHead + shq(env["PATH"]) + UnsetLibraries;
      && StartsWith(r, head)
      && EndsWith(r, "; " + cmd)
      && ("SSL_CERT_FILE" in env <==> StartsWith(r[|head|..], CertExport))
      && ("SSL_CERT_FILE" in env ==> StartsWith(r[|head|..], CertExport + shq(env["SSL_CERT_FILE"]) + "; "))
      && ("SSL_CERT_FILE" !in env ==> r == head + "; " + cmd)
  {
    var r := Preamble(cmd, Some(env), shq).value;
    var head := PathHead + shq(env["PATH"]) + UnsetLibraries;
    var cert := if "SSL_CERT_FILE" in env then CertExport + shq(env["SSL_CERT_FILE"]) else "";
    assert r == head + cert + "; " + cmd;
    assert r[..|head|] == head;
    assert r[|r| - |"; " + cmd|..] == "; " + cmd;
    assert r[|head|..] == cert + "; " + cmd;
    if "SSL_CERT_FILE" in env {
      assert r[|head|..][..|CertExport|] == CertExport;
      var exported := CertExport + shq(env["SSL_CERT_FILE"]) + "; ";
      assert r[|head|..] == exported + cmd;
      assert r[|head|..][..|exported|] == exported;
    } else {
      assert r[|head|..][1] == ' ';
      assert CertExport[1] == 'e';
    }
  }

  // ---------------------------------------------------------------------
  // The `do script` lines and the `osascript` command line

  const DoScriptHead: string := "        do script "

  /** `doScriptCmd1`: run in whatever window Terminal opens. */
  function DoScript(lit: string): string
  {
    DoScriptHead + lit + " "
  }

  /** `doScriptCmd2`: run in window 1. */
  function DoScriptInWindow1(lit: string): string
  {
    DoScriptHead + lit + " in window 1 "
  }

  /** Reads the command back out of a `do script` line that ends in `tail`. */
  function ScriptedCommand(line: string, tail: string): Option<string>
  {
    if |DoScriptHead| + |tail| <= |line| && StartsWith(line, DoScriptHead) && EndsWith(line, tail)
    then ParseLiteral(line[|DoScriptHead|..|line| - |tail|])
    else None
  }

  /** Both `do script` variants carry exactly the command. */
  lemma DoScriptCarriesCommand(cmd: string)
    ensures ScriptedCommand(DoScript(AppleScriptLiteral(cmd)), " ") == Some(cmd)
    ensures ScriptedCommand(DoScriptInWindow1(AppleScriptLiteral(cmd)), " in window 1 ") == Some(cmd)
  {
    var lit := AppleScriptLiteral(cmd);
    LiteralRoundTrip(cmd);
    var one := DoScript(lit);
    assert one[..|DoScriptHead|] == DoScriptHead;
    assert one[|one| - 1..] == " ";
    assert one[|DoScriptHead|..|one| - 1] == lit;
    var two := DoScriptInWindow1(lit);
    var tail := " in window 1 ";
    assert two[..|DoScriptHead|] == DoScriptHead;
    assert two[|two| - |tail|..] == tail;
    assert two[|DoScriptHead|..|two| - |tail|] == lit;
  }

  /** The script up to the first `do script` line: if Terminal is running,
      tell it ... */
  const OsascriptHead: string :=
    "osascript"
    + " -e 'if application \"Terminal\" is running then ' "
    + " -e '    tell application \"Terminal\"           ' "
    + " -e "

  /** ... activate, otherwise tell Terminal ... */
  const OsascriptMiddle: string :=
    " -e '        activate                          ' "
    + " -e '    end tell                              ' "
    + " -e 'else                                      ' "
    + " -e '    tell application \"Terminal\"           ' "
    + " -e "

  /** ... and activate. */
  const OsascriptTail: string :=
    " -e '        activate                          ' "
    + " -e '    end tell                              ' "
    + " -e 'end if                                    ' "

  /** `cmd_line`: every script line is one `-e` argument; the two `do script`
      lines come already quoted. */
  function OsascriptLine(quotedCmd1: string, quotedCmd2: string): string
  {
    OsascriptHead + quotedCmd1 + OsascriptMiddle + quotedCmd2 + OsascriptTail
  }

  /** `_run_in_terminal_in_macos`: a list command fails in `str.join` (it is
      given two arguments); the preamble can fail on the environment; then the
      `osascript` line is spawned through the shell. */
  function MacLaunch(cmd: Command, env: Option<Env>, host: Host): (r: Result<Spawn, Error>)
    ensures r.Failure? <==> cmd.Tokens? || env.None? || "PATH" !in env.value
    ensures cmd.Tokens? ==> r == Failure(TypeError)
    ensures cmd.Text? && env.None? ==> r == Failure(TypeError)
    ensures cmd.Text? && env.Some? && "PATH" !in env.value ==> r == Failure(KeyError("PATH"))
    ensures r.Success? ==> r.value.Shell? && r.value.env == env
  {
    match cmd
    case Tokens(_) => Failure(TypeError)
    case Text(line) =>
      match Preamble(line, env, host.shlexQuote)
      case Failure(e) => Failure(e)
      case Success(_) =>
        // the preamble is computed, and may raise, but the script runs `line`
        var lit := AppleScriptLiteral(line);
        var q := host.cmdlineQuote;
        Success(Shell(OsascriptLine(q(DoScript(lit)), q(DoScriptInWindow1(lit))), env))
  }

  /** The spawned line is the fixed script around the two quoted `do script`
      lines, and both of them run exactly the given command, not the
      environment preamble. */
  lemma MacLaunchRunsCommand(line: string, env: Option<Env>, host: Host)
    requires MacLaunch(Text(line), env, host).Success?
    ensures exists d1, d2 ::
      && MacLaunch(Text(line), env, host).value.line
         == OsascriptHead + host.cmdlineQuote(d1) + OsascriptMiddle + host.cmdlineQuote(d2) + OsascriptTail
      && ScriptedCommand(d1, " ") == Some(line)
      && ScriptedCommand(d2, " in window 1 ") == Some(line)
  {
    var lit := AppleScriptLiteral(line);
    DoScriptCarriesCommand(line);
    var d1, d2 := DoScript(lit), DoScriptInWindow1(lit);
    assert MacLaunch(Text(line), env, host).value.line
      == OsascriptHead + host.cmdlineQuote(d1) + OsascriptMiddle + host.cmdlineQuote(d2) + OsascriptTail;
  }
}
