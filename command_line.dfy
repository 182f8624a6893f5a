/** The quote-aware splitting of a running game's command line into argv,
    and the assembly of the game's launch arguments. */
module CommandLine {
  import opened Wrappers
  import opened Text

  predicate IsQuote(c: char) {
    c == '"' || c == '\''
  }

  /** The splitter's state: the tokens so far, the open quote if any, and the
      token being built. */
  datatype Tokens = Tokens(argv: seq<string>, quote: Option<char>, current: string)

  const START: Tokens := Tokens([], None, "")

  /** One character. A quote opens a span when none is open; the quote that
      opened it closes it and then acts as a space; the other kind is an
      ordinary character. A space outside a span ends the current token,
      if it is non-empty. The opening quote stays in the token. */
  function Step(st: Tokens, c: char): (r: Tokens)
    ensures IsQuote(c) && st.quote.None? ==> r == st.(quote := Some(c), current := st.current + [c])
    ensures IsQuote(c) && st.quote == Some(c) ==>
      r == Tokens(st.argv + (if st.current != [] then [st.current] else []), None, [])
    ensures st.quote.Some? && c != st.quote.value ==> r == st.(current := st.current + [c])
    ensures !IsQuote(c) && c != ' ' ==> r == st.(current := st.current + [c])
  {
    var (quote, ch) :=
      if IsQuote(c) then
        if st.quote.None? then (Some(c), c)
        else if c == st.quote.value then (None, ' ')
        else (st.quote, c)
      else (st.quote, c);
    if ch == ' ' && quote.None? then
      if st.current != [] then Tokens(st.argv + [st.current], quote, [])
      else Tokens(st.argv, quote, st.current)
    else Tokens(st.argv, quote, st.current + [ch])
  }

  /** The state after every character of `s`, left to right. */
  function Fold(st: Tokens, s: string): Tokens
    decreases |s|
  {
    if s == [] then st else Step(Fold(st, s[..|s| - 1]), s[|s| - 1])
  }

  /** The tokens of a command line: the final non-empty token is added. */
  function Tokenize(cmd: string): seq<string> {
    var st := Fold(START, cmd);
    if st.current != [] then st.argv + [st.current] else st.argv
  }

  /** The splitting loop of `getLaunchCommandFromRunningProcess`. */
  method SplitCommandLine(cmd: string) returns (argv: seq<string>)
    ensures argv == Tokenize(cmd)
  {
    argv := [];
    var quote: Option<char> := None;
    var currentArg: string := "";
    for i := 0 to |cmd|
      invariant Tokens(argv, quote, currentArg) == Fold(START, cmd[..i])
    {
      assert cmd[..i + 1][..i] == cmd[..i];
      var ch := cmd[i];
      if ch == '"' || ch == '\'' {
        if quote.None? {
          quote := Some(ch);
        } else if ch == quote.value {
          quote := None;
          ch := ' ';
        }
      }
      if ch == ' ' && quote.None? {
        if currentArg != "" {
          argv := argv + [currentArg];
          currentArg := "";
        }
      } else {
        currentArg := currentArg + [ch];
      }
    }
    assert cmd[..|cmd|] == cmd;
    if currentArg != "" {
      argv := argv + [currentArg];
    }
  }

  // ---- properties of the splitter ---------------------------------------

  lemma {:induction false} FoldAppend(st: Tokens, a: string, b: string)
    ensures Fold(st, a + b) == Fold(Fold(st, a), b)
    decreases |b|
  {
    if b == [] {
      assert a + b == a;
    } else {
      assert (a + b)[..|a + b| - 1] == a + b[..|b| - 1];
      FoldAppend(st, a, b[..|b| - 1]);
    }
  }

  predicate NoEmpty(argv: seq<string>) {
    forall i :: 0 <= i < |argv| ==> argv[i] != []
  }

  lemma {:induction false} FoldNoEmpty(s: string)
    ensures NoEmpty(Fold(START, s).argv)
    decreases |s|
  {
    if s != [] {
      FoldNoEmpty(s[..|s| - 1]);
    }
  }

  /** No token is ever empty, however many spaces separate them. */
  lemma {:induction false} TokensNonEmpty(cmd: string)
    ensures NoEmpty(Tokenize(cmd))
  {
    FoldNoEmpty(cmd);
  }

  /** Outside a quoted span, a run of characters that are neither spaces nor
      quotes is appended to the current token. */
  lemma {:induction false} PlainRun(st: Tokens, w: string)
    requires st.quote.None?
    requires forall i :: 0 <= i < |w| ==> w[i] != ' ' && !IsQuote(w[i])
    ensures Fold(st, w) == st.(current := st.current + w)
    decreases |w|
  {
    if w != [] {
      PlainRun(st, w[..|w| - 1]);
      assert st.current + w[..|w| - 1] + [w[|w| - 1]] == st.current + w;
    }
  }

  /** Inside a span opened by `q`, every character but `q` itself, spaces
      and the other quote kind included, is kept. */
  lemma {:induction false} QuotedRun(st: Tokens, q: char, body: string)
    requires st.quote == Some(q)
    requires forall i :: 0 <= i < |body| ==> body[i] != q
    ensures Fold(st, body) == st.(current := st.current + body)
    decreases |body|
  {
    if body != [] {
      QuotedRun(st, q, body[..|body| - 1]);
      assert st.current + body[..|body| - 1] + [body[|body| - 1]] == st.current + body;
    }
  }

  /** A quoted span between spaces becomes one token that keeps its opening
      quote, drops its closing quote, and keeps the spaces inside. */
  lemma {:induction false} QuotedToken(argv: seq<string>, q: char, body: string)
    requires IsQuote(q)
    requires forall i :: 0 <= i < |body| ==> body[i] != q
    ensures Fold(Tokens(argv, None, ""), [q] + body + [q]) == Tokens(argv + [[q] + body], None, "")
  {
    var st := Tokens(argv, None, "");
    var open := Tokens(argv, Some(q), [q]);
    assert Fold(st, [q]) == open by {
      assert [q][..0] == [];
    }
    QuotedRun(open, q, body);
    var inside := Tokens(argv, Some(q), [q] + body);
    FoldAppend(st, [q], body);
    assert Fold(st, [q] + body) == inside;
    FoldAppend(st, [q] + body, [q]);
    assert Fold(inside, [q]) == Step(inside, q) by {
      assert [q][..0] == [];
    }
  }

  /** A space outside a span ends a non-empty token. */
  lemma {:induction false} SpaceEndsToken(st: Tokens)
    requires st.quote.None? && st.current != []
    ensures Step(st, ' ') == Tokens(st.argv + [st.current], None, [])
  {
  }

  // ---- launch commands ---------------------------------------------------

  /** `LaunchCommand`: an absent `command` is an empty argv's first
      element. */
  datatype LaunchCommand = LaunchCommand(command: Option<string>, args: seq<string>, cwd: Option<string>)

  /** The command rebuilt from argv: its first token, then the rest in
      order. */
  function FromArgv(argv: seq<string>, cwd: Option<string>): (r: LaunchCommand)
    ensures |argv| > 0 ==> r.command == Some(argv[0]) && [argv[0]] + r.args == argv
    ensures |argv| == 0 ==> r.command.None? && r.args == []
  {
    LaunchCommand(if |argv| > 0 then Some(argv[0]) else None, if |argv| > 0 then argv[1..] else [], cwd)
  }

  /** A `-file <pwad>` pair per pwad, in order. */
  function FileArgs(pwads: seq<string>): (r: seq<string>)
    ensures |r| == 2 * |pwads|
  {
    if pwads == [] then [] else FileArgs(pwads[..|pwads| - 1]) + ["-file", pwads[|pwads| - 1]]
  }

  lemma {:induction false} FileArgsPairs(pwads: seq<string>)
    ensures forall i :: 0 <= i < |pwads| ==> FileArgs(pwads)[2 * i] == "-file" && FileArgs(pwads)[2 * i + 1] == pwads[i]
    decreases |pwads|
  {
    if pwads != [] {
      FileArgsPairs(pwads[..|pwads| - 1]);
    }
  }

  lemma {:induction false} FileArgsStep(pwads: seq<string>, k: nat)
    requires k < |pwads|
    ensures FileArgs(pwads[..k + 1]) == FileArgs(pwads[..k]) + ["-file", pwads[k]]
  {
    assert pwads[..k + 1][..k] == pwads[..k];
  }

  /** The command `getLaunchCommand` builds: `-iwad <iwad> -debug <port>`, a
      `-file <pwad>` pair per pwad in order, then `-config <ini>` and
      `+map <map>` when given and non-empty, then the extra arguments. The
      executable and the working directory pass through. */
  function LaunchCommandFor(gzdoomPath: Option<string>, iwad: string, pwads: seq<string>, debugPort: int,
                            mapName: Option<string>, gzdoomIniPath: Option<string>,
                            gzdoomArgs: Option<seq<string>>, cwd: Option<string>): (r: LaunchCommand)
    ensures r.command == gzdoomPath && r.cwd == cwd && |r.args| >= 4 + 2 * |pwads|
    ensures r.args[..4] == ["-iwad", iwad, "-debug", IntToString(debugPort)]
    ensures forall i :: 0 <= i < |pwads| ==> r.args[4 + 2 * i] == "-file" && r.args[5 + 2 * i] == pwads[i]
    ensures var rest := r.args[4 + 2 * |pwads|..];
      var config := if gzdoomIniPath.Some? && gzdoomIniPath.value != "" then ["-config", gzdoomIniPath.value] else [];
      var warp := if mapName.Some? && mapName.value != "" then ["+map", mapName.value] else [];
      rest == config + warp + gzdoomArgs.GetOr([])
  {
    var fixed := ["-iwad", iwad, "-debug", IntToString(debugPort)] + FileArgs(pwads);
    var config := if gzdoomIniPath.Some? && gzdoomIniPath.value != "" then ["-config", gzdoomIniPath.value] else [];
    var warp := if mapName.Some? && mapName.value != "" then ["+map", mapName.value] else [];
    var args := fixed + (config + warp + gzdoomArgs.GetOr([]));
    FileArgsPairs(pwads);
    assert args[..|fixed|] == fixed;
    assert args[..4] == fixed[..4];
    assert forall i :: 0 <= i < |pwads| ==> args[4 + 2 * i] == fixed[4 + 2 * i] && args[5 + 2 * i] == fixed[5 + 2 * i];
    LaunchCommand(gzdoomPath, args, cwd)
  }

  lemma {:induction false} LaunchArgsUnfold(gzdoomPath: Option<string>, iwad: string, pwads: seq<string>, debugPort: int,
                         mapName: Option<string>, gzdoomIniPath: Option<string>,
                         gzdoomArgs: Option<seq<string>>, cwd: Option<string>)
    ensures var config := if gzdoomIniPath.Some? && gzdoomIniPath.value != "" then ["-config", gzdoomIniPath.value] else [];
      var warp := if mapName.Some? && mapName.value != "" then ["+map", mapName.value] else [];
      LaunchCommandFor(gzdoomPath, iwad, pwads, debugPort, mapName, gzdoomIniPath, gzdoomArgs, cwd)
      == LaunchCommand(gzdoomPath, ["-iwad", iwad, "-debug", IntToString(debugPort)] + FileArgs(pwads)
                                   + (config + warp + gzdoomArgs.GetOr([])), cwd)
  {
  }

  /** `getLaunchCommand`: the argument list is built by pushing onto an
      array. */
  method GetLaunchCommand(gzdoomPath: Option<string>, iwad: string, pwads: seq<string>, debugPort: int,
                          mapName: Option<string>, gzdoomIniPath: Option<string>,
                          gzdoomArgs: Option<seq<string>>, cwd: Option<string>)
    returns (r: LaunchCommand)
    ensures r == LaunchCommandFor(gzdoomPath, iwad, pwads, debugPort, mapName, gzdoomIniPath, gzdoomArgs, cwd)
  {
    var args := ["-iwad", iwad, "-debug", IntToString(debugPort)];
    ghost var head := args;
    for k := 0 to |pwads|
      invariant args == head + FileArgs(pwads[..k])
    {
      FileArgsStep(pwads, k);
      args := args + ["-file", pwads[k]];
    }
    assert pwads[..|pwads|] == pwads;
    ghost var fixed := args;
    ghost var config: seq<string> := [];
    ghost var warp: seq<string> := [];
    if gzdoomIniPath.Some? && gzdoomIniPath.value != "" {
      config := ["-config", gzdoomIniPath.value];
      args := args + ["-config", gzdoomIniPath.value];
    }
    if mapName.Some? && mapName.value != "" {
      warp := ["+map", mapName.value];
      args := args + ["+map", mapName.value];
    }
    if gzdoomArgs.Some? {
      args := args + gzdoomArgs.value;
    }
    assert args == fixed + (config + warp + gzdoomArgs.GetOr([]));
    LaunchArgsUnfold(gzdoomPath, iwad, pwads, debugPort, mapName, gzdoomIniPath, gzdoomArgs, cwd);
    r := LaunchCommand(gzdoomPath, args, cwd);
  }
}
