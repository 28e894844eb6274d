/** Recognising a supported launcher command without running it
    (`_hook_command_matches` in `discovery/inventory.py`). */
module HookParser {
  import opened Outcomes
  import opened Text
  import opened Shlex
  import opened HookCommands

  const COMMAND_LIMIT := 65536

  /** What the pattern `'((?:[^']|'')*)'(?=\s|;)` matches at the start of `s`: the raw text
      between the quotes and what follows the closing quote. */
  function MatchLiteral(s: string): Option<(string, string)> {
    if s == "" || s[0] != '\'' then None else MatchBody(s[1..])
  }

  function MatchBody(s: string): Option<(string, string)>
    decreases |s|
  {
    if s == "" then None
    else if s[0] != '\'' then
      match MatchBody(s[1..])
      case None => None
      case Some((body, rest)) => Some(([s[0]] + body, rest))
    else if |s| < 2 then None
    else if s[1] == '\'' then
      match MatchBody(s[2..])
      case None => None
      case Some((body, rest)) => Some(("''" + body, rest))
    else if EndsLiteral(s[1]) then Some(("", s[1..])) else None
  }

  predicate EndsLiteral(c: char) { IsSpace(c) || c == ';' }

  /** The texts `(?:[^']|'')*` accepts: quotes come in adjacent pairs. */
  predicate PairedQuotes(s: string) {
    if s == "" then true
    else if s[0] != '\'' then PairedQuotes(s[1..])
    else |s| >= 2 && s[1] == '\'' && PairedQuotes(s[2..])
  }

  predicate MatchesAs(s: string, body: string, rest: string) {
    && s == "'" + body + "'" + rest && PairedQuotes(body)
    && rest != "" && EndsLiteral(rest[0])
  }

  /** The pattern has at most one match at the start of a text, so the order in which a
      backtracking engine tries its alternatives cannot matter. */
  lemma LiteralMatchIsUnique(s: string, body: string, rest: string)
    ensures MatchLiteral(s) == Some((body, rest)) <==> MatchesAs(s, body, rest)
  {
    if s != "" && s[0] == '\'' {
      BodyMatchIsUnique(s[1..], body, rest);
      assert s == "'" + body + "'" + rest <==> s[1..] == body + "'" + rest by {
        assert s == "'" + s[1..];
        assert "'" + body + "'" + rest == "'" + (body + "'" + rest);
        assert ("'" + (body + "'" + rest))[1..] == body + "'" + rest;
      }
    }
  }

  lemma {:induction false} BodyMatchIsUnique(s: string, body: string, rest: string)
    ensures MatchBody(s) == Some((body, rest))
       <==> s == body + "'" + rest && PairedQuotes(body) && rest != "" && EndsLiteral(rest[0])
    decreases |s|
  {
    var whole := body + "'" + rest;
    if s == "" {
    } else if s[0] != '\'' {
      if body != "" && body[0] == s[0] {
        BodyMatchIsUnique(s[1..], body[1..], rest);
        assert whole[1..] == body[1..] + "'" + rest;
        assert s == [s[0]] + s[1..] && whole == [body[0]] + whole[1..] && body == [body[0]] + body[1..];
      } else {
        assert whole[0] != s[0];
      }
    } else if |s| >= 2 && s[1] == '\'' {
      if |body| >= 2 && body[0] == '\'' && body[1] == '\'' {
        BodyMatchIsUnique(s[2..], body[2..], rest);
        assert whole[2..] == body[2..] + "'" + rest;
        assert s == "''" + s[2..] && whole == "''" + whole[2..] && body == "''" + body[2..];
      } else if s == whole && PairedQuotes(body) {
        assert body == "" && rest[0] == s[1];
      }
    } else {
      if body != "" && PairedQuotes(body) {
        assert whole[0] != s[0] || |s| < 2 || whole[1] != s[1];
      }
      assert |s| >= 2 ==> s == "" + "'" + s[1..];
    }
  }

  /** `count` literals separated by white space, with `''` undone, and the remaining text. */
  function TakeLiterals(s: string, count: nat): Option<(seq<string>, string)>
    decreases count
  {
    if count == 0 then Some(([], s))
    else
      match MatchLiteral(s)
      case None => None
      case Some((body, rest)) =>
        match TakeLiterals(StripLeft(rest), count - 1)
        case None => None
        case Some((more, last)) => Some(([UndoubleQuotes(body)] + more, last))
  }

  /** The command line hidden in an encoded PowerShell launch, or the text itself. */
  function Unwrap(command: string): Option<string> {
    if ENCODED_PREFIX <= command then
      match DecodeBase64(command[|ENCODED_PREFIX|..])
      case None => None
      case Some(bytes) => if AllBytes(bytes) then DecodeUtf16(bytes) else None
    else Some(command)
  }

  function Arguments(text: string): Option<seq<string>> {
    if SCRIPT_PREFIX <= text then
      match TakeLiterals(text[|SCRIPT_PREFIX|..], 6)
      case None => None
      case Some((arguments, rest)) => if "; if " <= rest then Some(arguments) else None
    else SplitWords(text)
  }

  predicate NamesHost(options: seq<string>, host: string) {
    exists i :: 0 <= i < |options| && OptionNamesHost(options, i, host)
  }

  predicate OptionNamesHost(options: seq<string>, i: nat, host: string)
    requires i < |options|
  {
    || options[i] == "--host=" + host
    || (options[i] == "--host" && i + 1 < |options| && options[i + 1] == host)
  }

  predicate LaunchesHook(arguments: seq<string>, host: string) {
    && arguments != []
    && var executable := Basename(arguments[0]);
      if executable in {"atellagent-cli", "atellagent-cli.exe"} then
        |arguments| == 6 && arguments[1..5] == ["hook", "--host", host, "--socket"]
      else if executable == "atellagent-hook-adapter" then NamesHost(arguments[1..], host)
      else
        && |arguments| > 2 && arguments[1..3] == ["-m", "atellagent_client.hook_launcher"]
        && NamesHost(arguments[3..], host)
  }

  /** `_hook_command_matches`. */
  predicate Recognises(command: string, host: string) {
    && |command| <= COMMAND_LIMIT
    && var text := Unwrap(command);
      && text.Some?
      && var arguments := Arguments(text.value);
        arguments.Some? && LaunchesHook(arguments.value, host)
  }

  function Prepended(front: seq<string>, taken: Option<(seq<string>, string)>): Option<(seq<string>, string)> {
    match taken
    case None => None
    case Some((more, rest)) => Some((front + more, rest))
  }

  /** The loop that consumes `remaining`. */
  method ReadLiterals(text: string, count: nat) returns (read: Option<(seq<string>, string)>)
    ensures read == TakeLiterals(text, count)
  {
    var remaining, arguments := text, [];
    assert TakeLiterals(text, count) == Prepended(arguments, TakeLiterals(remaining, count)) by {
      assert forall more: seq<string> :: [] + more == more;
    }
    for i := 0 to count
      invariant TakeLiterals(text, count) == Prepended(arguments, TakeLiterals(remaining, count - i))
    {
      var found := MatchLiteral(remaining);
      if found.None? { return None; }
      var argument, next := UndoubleQuotes(found.value.0), StripLeft(found.value.1);
      assert TakeLiterals(remaining, count - i) == Prepended([argument], TakeLiterals(next, count - i - 1));
      PrependTwice(arguments, [argument], TakeLiterals(next, count - i - 1));
      arguments := arguments + [argument];
      remaining := next;
    }
    assert TakeLiterals(remaining, 0) == Some(([], remaining));
    assert arguments + [] == arguments;
    read := Some((arguments, remaining));
  }

  lemma PrependTwice(a: seq<string>, b: seq<string>, taken: Option<(seq<string>, string)>)
    ensures Prepended(a, Prepended(b, taken)) == Prepended(a + b, taken)
  {
    if taken.Some? { assert a + (b + taken.value.0) == a + b + taken.value.0; }
  }

  /** The parser as written: six literals consumed from the script, then one scan over the
      options. */
  method HookCommandMatches(command: string, host: string) returns (matches: bool)
    ensures matches == Recognises(command, host)
  {
    if |command| > COMMAND_LIMIT { return false; }
    var text := Unwrap(command);
    if text.None? { return false; }
    var arguments;
    if SCRIPT_PREFIX <= text.value {
      var read := ReadLiterals(text.value[|SCRIPT_PREFIX|..], 6);
      if read.None? || !("; if " <= read.value.1) { return false; }
      arguments := read.value.0;
    } else {
      var words := SplitWords(text.value);
      if words.None? { return false; }
      arguments := words.value;
    }
    assert Arguments(text.value) == Some(arguments);
    matches := MatchArguments(arguments, host);
  }

  method MatchArguments(arguments: seq<string>, host: string) returns (matches: bool)
    ensures matches == LaunchesHook(arguments, host)
  {
    if arguments == [] { return false; }
    var executable := Basename(arguments[0]);
    if executable in {"atellagent-cli", "atellagent-cli.exe"} {
      return |arguments| == 6 && arguments[1..5] == ["hook", "--host", host, "--socket"];
    }
    var options;
    if executable == "atellagent-hook-adapter" {
      options := arguments[1..];
    } else if |arguments| > 2 && arguments[1..3] == ["-m", "atellagent_client.hook_launcher"] {
      options := arguments[3..];
    } else {
      return false;
    }
    for i := 0 to |options|
      invariant forall j :: 0 <= j < i ==> !OptionNamesHost(options, j, host)
    {
      if OptionNamesHost(options, i, host) { return true; }
    }
    return false;
  }

  // ------------------------------------------- the printer undone by the parser

  lemma {:induction false} UndoublingUndoesDoubling(s: string)
    ensures UndoubleQuotes(ReplaceChar(s, '\'', "''")) == s
    decreases s
  {
    if s != "" {
      var doubled, tail := ReplaceChar(s, '\'', "''"), ReplaceChar(s[1..], '\'', "''");
      UndoublingUndoesDoubling(s[1..]);
      assert s == [s[0]] + s[1..];
      if s[0] == '\'' {
        assert doubled[2..] == tail;
      } else {
        assert doubled[1..] == tail;
      }
    }
  }

  lemma {:induction false} DoublingPairsQuotes(s: string)
    ensures PairedQuotes(ReplaceChar(s, '\'', "''"))
    ensures |ReplaceChar(s, '\'', "''")| <= 2 * |s|
    ensures Utf16Size(ReplaceChar(s, '\'', "''")) <= 4 * |s|
    decreases s
  {
    if s != "" {
      var doubled, tail := ReplaceChar(s, '\'', "''"), ReplaceChar(s[1..], '\'', "''");
      DoublingPairsQuotes(s[1..]);
      if s[0] == '\'' {
        assert doubled[2..] == tail && doubled[1..][1..] == tail;
        assert doubled[1] == '\'' && Utf16Size(doubled[1..]) == 2 + Utf16Size(tail);
      } else {
        assert doubled[1..] == tail;
      }
    }
  }

  lemma LiteralRoundTrip(value: string, rest: string)
    requires rest != "" && EndsLiteral(rest[0])
    ensures MatchLiteral(Literal(value) + rest) == Some((ReplaceChar(value, '\'', "''"), rest))
    ensures UndoubleQuotes(ReplaceChar(value, '\'', "''")) == value
  {
    DoublingPairsQuotes(value);
    UndoublingUndoesDoubling(value);
    LiteralMatchIsUnique(Literal(value) + rest, ReplaceChar(value, '\'', "''"), rest);
  }

  /** Printed literals are read back one by one up to the `;` that ends the call. */
  lemma {:induction false} TakePrintedLiterals(values: seq<string>, after: string)
    requires values != [] && after != "" && after[0] == ';'
    ensures TakeLiterals(JoinWithSpaces(Literals(values)) + after, |values|) == Some((values, after))
    decreases values
  {
    assert values == [values[0]] + values[1..];
    if |values| == 1 {
      LiteralRoundTrip(values[0], after);
      assert StripLeft(after) == after;
      assert TakeLiterals(after, 0) == Some(([], after));
    } else {
      var inner := JoinWithSpaces(Literals(values[1..])) + after;
      assert Literals(values)[1..] == Literals(values[1..]);
      assert JoinWithSpaces(Literals(values)) + after == Literal(values[0]) + (" " + inner);
      LiteralRoundTrip(values[0], " " + inner);
      TakePrintedLiterals(values[1..], after);
      FirstLiteralOpens(values[1..], after);
      assert (" " + inner)[1..] == inner;
      assert StripLeft(" " + inner) == inner;
    }
  }

  lemma FirstLiteralOpens(values: seq<string>, after: string)
    requires values != []
    ensures JoinWithSpaces(Literals(values)) + after != "" && (JoinWithSpaces(Literals(values)) + after)[0] == '\''
  {
    assert Literals(values)[0] == Literal(values[0]);
  }

  /** A printed script is read back to exactly the printed arguments. */
  lemma ScriptRoundTrip(argv: seq<string>)
    requires |argv| == 6
    ensures Arguments(Script(argv)) == Some(argv)
  {
    CutPrefix(SCRIPT_PREFIX, JoinWithSpaces(Literals(argv)), SCRIPT_SUFFIX);
    SuffixOpens();
    TakePrintedLiterals(argv, SCRIPT_SUFFIX);
  }

  lemma CutPrefix(prefix: string, body: string, suffix: string)
    ensures prefix <= prefix + body + suffix
    ensures (prefix + body + suffix)[|prefix|..] == body + suffix
  {
  }

  lemma SuffixOpens()
    ensures SCRIPT_SUFFIX != "" && SCRIPT_SUFFIX[0] == ';' && "; if " <= SCRIPT_SUFFIX
  {
  }

  // ----------------------------------------------------------- length of the text

  lemma LiteralUtf16Size(value: string)
    ensures Utf16Size(Literal(value)) <= 4 * |value| + 4
  {
    var doubled := ReplaceChar(value, '\'', "''");
    DoublingPairsQuotes(value);
    Utf16SizeOfConcat("'" + doubled, "'");
    Utf16SizeOfConcat("'", doubled);
    assert Utf16Size("'") == 2;
  }

  function TotalLength(parts: seq<string>): nat {
    if parts == [] then 0 else |parts[0]| + TotalLength(parts[1..])
  }

  lemma {:induction false} JoinedLiteralsUtf16Size(values: seq<string>)
    ensures Utf16Size(JoinWithSpaces(Literals(values))) <= 4 * TotalLength(values) + 6 * |values|
    decreases values
  {
    if values != [] {
      LiteralUtf16Size(values[0]);
      if |values| > 1 {
        JoinedLiteralsUtf16Size(values[1..]);
        var inner := JoinWithSpaces(Literals(values[1..]));
        assert Literals(values)[1..] == Literals(values[1..]);
        Utf16SizeOfConcat(Literal(values[0]) + " ", inner);
        Utf16SizeOfConcat(Literal(values[0]), " ");
        assert Utf16Size(" ") == 2;
      } else {
        assert JoinWithSpaces(Literals(values)) == Literal(values[0]);
      }
    }
  }

  lemma {:induction false} JoinedLiteralsLength(values: seq<string>)
    ensures |JoinWithSpaces(Literals(values))| <= 2 * TotalLength(values) + 3 * |values|
    decreases values
  {
    if values != [] {
      DoublingPairsQuotes(values[0]);
      assert Literals(values)[1..] == Literals(values[1..]);
      JoinedLiteralsLength(values[1..]);
    }
  }

  lemma {:induction false} JoinedWordsLength(values: seq<string>)
    ensures |JoinWords(values)| <= 5 * TotalLength(values) + 3 * |values|
    decreases values
  {
    if values != [] {
      QuoteLength(values[0]);
      assert QuoteAll(values)[1..] == QuoteAll(values[1..]);
      JoinedWordsLength(values[1..]);
    }
  }

  lemma PrintedTotal(argv: seq<string>, host: string)
    requires |argv| == 6 && argv[1..5] == ["hook", "--host", host, "--socket"]
    requires host in {"codex", "claude-code"}
    requires |argv[0]| <= ARGUMENT_LIMIT && |argv[5]| <= ARGUMENT_LIMIT
    ensures TotalLength(argv) <= 2 * ARGUMENT_LIMIT + 29
  {
    assert argv[1] == argv[1..5][0] && argv[2] == argv[1..5][1] && argv[3] == argv[1..5][2] && argv[4] == argv[1..5][3];
    var a1, a2, a3 := argv[1..], argv[1..][1..], argv[1..][1..][1..];
    var a4, a5 := a3[1..], a3[1..][1..];
    assert TotalLength(a5) == |argv[5]| + TotalLength(a5[1..]);
    assert TotalLength(a4) == 8 + TotalLength(a5);
    assert TotalLength(a3) == |host| + TotalLength(a4);
    assert TotalLength(a2) == 6 + TotalLength(a3);
    assert TotalLength(a1) == 4 + TotalLength(a2);
  }

  lemma FixedTextLengths()
    ensures |SCRIPT_PREFIX| <= 64 && |SCRIPT_SUFFIX| <= 160 && |ENCODED_PREFIX| <= 64
  {
  }

  lemma ScriptLengths(prefix: string, argv: seq<string>, suffix: string)
    ensures var body := JoinWithSpaces(Literals(argv)); var script := prefix + body + suffix;
      && |script| <= |prefix| + 2 * TotalLength(argv) + 3 * |argv| + |suffix|
      && |EncodeUtf16(script)| <= 4 * |prefix| + 4 * TotalLength(argv) + 6 * |argv| + 4 * |suffix|
  {
    var body := JoinWithSpaces(Literals(argv));
    JoinedLiteralsLength(argv);
    JoinedLiteralsUtf16Size(argv);
    Utf16SizeOfConcat(prefix + body, suffix);
    Utf16SizeOfConcat(prefix, body);
    Utf16SizeIsLength(prefix);
    Utf16SizeIsLength(suffix);
    Utf16SizeIsLength(prefix + body + suffix);
  }

  /** The printed command always fits the parser's limit, in all three dialects. */
  lemma PrintedCommandFits(argv: seq<string>, platform: string, host: string)
    requires Command(argv, platform, host).Ok?
    ensures |Command(argv, platform, host).value.command| <= COMMAND_LIMIT
  {
    assert Bounded(argv[0]) && Bounded(argv[5]);
    PrintedTotal(argv, host);
    FixedTextLengths();
    if platform == "darwin" {
      JoinedWordsLength(argv);
    } else {
      ScriptLengths(SCRIPT_PREFIX, argv, SCRIPT_SUFFIX);
    }
  }

  // --------------------------------------------------------------- recognition

  lemma PrefixesDiffer(text: string)
    ensures ENCODED_PREFIX <= text ==> text != "" && text[0] == 'p'
    ensures SCRIPT_PREFIX <= text ==> text != "" && text[0] == '$'
  {
    assert ENCODED_PREFIX[..14] == "powershell.exe" && ENCODED_PREFIX[0] == ENCODED_PREFIX[..14][0];
    assert SCRIPT_PREFIX[..22] == "$ErrorActionPreference" && SCRIPT_PREFIX[0] == SCRIPT_PREFIX[..22][0];
  }

  lemma ScriptIsRead(argv: seq<string>)
    requires |argv| == 6
    ensures var script := Script(argv); Unwrap(script) == Some(script) && Arguments(script) == Some(argv)
  {
    ScriptRoundTrip(argv);
    CutPrefix(SCRIPT_PREFIX, JoinWithSpaces(Literals(argv)), SCRIPT_SUFFIX);
    PrefixesDiffer(Script(argv));
  }

  lemma EncodedScriptIsRead(script: string)
    ensures Unwrap(ENCODED_PREFIX + EncodeBase64(EncodeUtf16(script))) == Some(script)
  {
    var encoded := EncodeBase64(EncodeUtf16(script));
    Utf16RoundTrip(script);
    Base64RoundTrip(EncodeUtf16(script));
    assert (ENCODED_PREFIX + encoded)[|ENCODED_PREFIX|..] == encoded;
  }

  /** What the parser reads in a printed command is exactly what was printed. */
  lemma PrintedArgumentsAreRead(argv: seq<string>, platform: string, host: string)
    requires Command(argv, platform, host).Ok?
    ensures var command := Command(argv, platform, host).value.command;
      Unwrap(command).Some? && Arguments(Unwrap(command).value) == Some(argv)
  {
    if platform == "darwin" {
      SplitOfJoin(argv);
      FirstPrintedCharacter(argv);
      PrefixesDiffer(JoinWords(argv));
    } else {
      ScriptIsRead(argv);
      EncodedScriptIsRead(Script(argv));
    }
  }

  lemma FirstPrintedCharacter(argv: seq<string>)
    requires |argv| > 1 && argv[0] != "" && argv[0][0] == '/'
    ensures JoinWords(argv) != "" && JoinWords(argv)[0] in "/'"
  {
    assert QuoteAll(argv)[0] == Quote(argv[0]);
  }

  lemma PipeDoesNotNameHost(endpoint: string)
    requires ValidPipe(endpoint)
    ensures endpoint != "" && endpoint[0] != '-'
  {
    if endpoint != "" && endpoint[0] == '-' {
      assert StripLeft(endpoint) == endpoint;
      StripRightKeepsFront(endpoint);
    }
  }

  lemma {:induction false} StripRightKeepsFront(s: string)
    ensures |StripRight(s)| <= |s| && StripRight(s) == s[..|StripRight(s)|]
    decreases |s|
  {
    if s != "" && IsSpace(s[|s| - 1]) { StripRightKeepsFront(s[..|s| - 1]); }
  }

  /** An argument list the printer accepts launches the hook for its own host only. */
  lemma PrintedArgumentsLaunch(argv: seq<string>, host: string, h: string)
    requires |argv| == 6 && argv[1..5] == ["hook", "--host", host, "--socket"]
    requires host in {"codex", "claude-code"} && argv[5] != "" && argv[5][0] != '-'
    ensures LaunchesHook(argv, h)
       <==> h == host && Basename(argv[0]) in {"atellagent-cli", "atellagent-cli.exe", "atellagent-hook-adapter"}
  {
    var middle, options := argv[1..5], argv[1..];
    assert forall i :: 0 <= i < 4 ==> options[i] == middle[i];
    OptionsNamePrintedHost(options, host, h);
    assert argv[1..3][0] == middle[0];
    assert middle == ["hook", "--host", h, "--socket"] <==> h == host by {
      if middle == ["hook", "--host", h, "--socket"] { assert middle[2] == h; }
    }
  }

  lemma OptionsNamePrintedHost(options: seq<string>, host: string, h: string)
    requires |options| == 5 && options[..4] == ["hook", "--host", host, "--socket"]
    requires host in {"codex", "claude-code"} && options[4] != "" && options[4][0] != '-'
    ensures NamesHost(options, h) <==> h == host
  {
    var front := options[..4];
    assert options[0] == front[0] && options[1] == front[1] && options[2] == front[2] && options[3] == front[3];
    var joined := "--host=" + h;
    assert joined[0] == '-' && joined[2] == 'h' && |joined| >= 7;
    assert options[3] != joined && options[3] != "--host" by { assert "--socket"[2] == 's'; }
    if h == host { assert OptionNamesHost(options, 1, h); }
    if i :| 0 <= i < 5 && OptionNamesHost(options, i, h) {
      assert i != 0 by { assert options[0][0] == 'h'; }
      assert i != 3 && i != 4;
      assert i != 2 by { assert host[0] == 'c'; }
    }
  }

  /** The main theorem: for every argument list the printer accepts, on both platforms, the
      parser finds host `h` in the printed command exactly when `h` is the printed host and
      the executable is one of the public launchers; other executables are never found. */
  lemma PrinterParserAgree(argv: seq<string>, platform: string, host: string, h: string)
    requires Command(argv, platform, host).Ok?
    ensures Recognises(Command(argv, platform, host).value.command, h)
       <==> h == host && Basename(argv[0]) in {"atellagent-cli", "atellagent-cli.exe", "atellagent-hook-adapter"}
  {
    PrintedCommandFits(argv, platform, host);
    PrintedArgumentsAreRead(argv, platform, host);
    if platform != "darwin" { PipeDoesNotNameHost(argv[5]); }
    PrintedArgumentsLaunch(argv, host, h);
  }

  // ------------------------------------------------- which dialect, and for whom

  /** The PowerShell script that launches the hook and fails closed, with its arguments as
      single-quoted literals. */
  predicate Launches(script: string, argv: seq<string>) {
    script == "$ErrorActionPreference" + "='Stop'; try { & " + JoinWithSpaces(Literals(argv))
      + "; if " + "($LASTEXITCODE -eq 0) { exit 0 }; exit 2 } catch { "
      + "[Console]::Error.WriteLine('Atellagent hook could not start; request denied.'); exit 2 }"
  }

  /** Each literal is the argument between quotes, its own quotes doubled. */
  lemma LiteralsQuote(argv: seq<string>, i: nat)
    requires i < |argv|
    ensures var literal := Literals(argv)[i];
      && |literal| >= 2 && literal[0] == '\'' && literal[|literal| - 1] == '\''
      && PairedQuotes(literal[1..|literal| - 1]) && UndoubleQuotes(literal[1..|literal| - 1]) == argv[i]
  {
    if i == 0 {
      var doubled := ReplaceChar(argv[0], '\'', "''");
      assert Literals(argv)[0] == "'" + doubled + "'";
      assert ("'" + doubled + "'")[1..|doubled| + 1] == doubled;
      DoublingPairsQuotes(argv[0]);
      UndoublingUndoesDoubling(argv[0]);
    } else {
      LiteralsQuote(argv[1..], i - 1);
    }
  }

  /** On macOS every host gets the quoted words. On Windows Claude Code, which runs hooks in
      PowerShell, gets the script and is told so; Codex, whose shell may differ, gets no shell
      and an explicit PowerShell launch of the encoded script. */
  lemma HostsGetTheirDialect(argv: seq<string>, platform: string, host: string)
    requires Command(argv, platform, host).Ok?
    ensures var handler := Command(argv, platform, host).value;
      && (platform == "darwin" ==> handler.shell == None && SplitWords(handler.command) == Some(argv))
      && (platform == "win32" && host == "claude-code" ==> handler.shell == Some("powershell") && Launches(handler.command, argv))
      && (platform == "win32" && host == "codex" ==> handler.shell == None && LaunchesEncoded(handler.command, argv))
    ensures platform in {"darwin", "win32"} && host in {"codex", "claude-code"}
  {
    if platform == "darwin" {
      SplitOfJoin(argv);
    } else {
      ScriptLaunches(argv);
      EncodedLaunches(argv);
    }
  }

  /** An explicit launch whose Base64 argument decodes, as UTF-16LE, to the script. */
  predicate LaunchesEncoded(command: string, argv: seq<string>) {
    var prefix := "powershell.exe" + " -NoProfile -NonInteractive -EncodedCommand ";
    && prefix <= command
    && var bytes := DecodeBase64(command[|prefix|..]);
      && bytes.Some? && AllBytes(bytes.value)
      && DecodeUtf16(bytes.value).Some? && Launches(DecodeUtf16(bytes.value).value, argv)
  }

  lemma ScriptLaunches(argv: seq<string>)
    ensures Launches(Script(argv), argv)
  {
  }

  lemma EncodedLaunches(argv: seq<string>)
    ensures LaunchesEncoded(ENCODED_PREFIX + EncodeBase64(EncodeUtf16(Script(argv))), argv)
  {
    var script, encoded := Script(argv), EncodeBase64(EncodeUtf16(Script(argv)));
    ScriptLaunches(argv);
    Utf16RoundTrip(script);
    Base64RoundTrip(EncodeUtf16(script));
    assert (ENCODED_PREFIX + encoded)[|ENCODED_PREFIX|..] == encoded;
  }

  // ------------------------------------------------------------- accepted lists

  /** A parent component at `i`: two dots between separators or the ends. */
  predicate ParentAt(path: string, i: nat, separator: char -> bool) {
    && i + 2 <= |path| && path[i] == '.' && path[i + 1] == '.'
    && (i == 0 || separator(path[i - 1])) && (i + 2 == |path| || separator(path[i + 2]))
  }

  ghost predicate HasParent(path: string, separator: char -> bool) { exists i: nat :: ParentAt(path, i, separator) }

  predicate FirstIs(path: string, word: string, separator: char -> bool) {
    && word <= path && (forall i :: 0 <= i < |word| ==> !separator(word[i]))
    && (|word| == |path| || separator(path[|word|]))
  }

  lemma {:induction false} FirstComponent(path: string, word: string, separator: char -> bool)
    ensures var parts := Components(path, separator); parts != [] && (parts[0] == word <==> FirstIs(path, word, separator))
    decreases path
  {
    if path != "" {
      var tail := path[1..];
      if word == "" || separator(path[0]) {
        FirstComponent(tail, word, separator);
        assert FirstIs(path, word, separator) <==> separator(path[0]) && word == "";
      } else {
        FirstComponent(tail, word[1..], separator);
        var rest := Components(tail, separator);
        assert word == [word[0]] + word[1..] && path == [path[0]] + tail;
        assert [path[0]] + rest[0] == word <==> path[0] == word[0] && rest[0] == word[1..];
        FirstIsPrepended(path, word, separator);
      }
    }
  }

  lemma FirstIsPrepended(path: string, word: string, separator: char -> bool)
    requires path != "" && word != "" && !separator(path[0])
    ensures FirstIs(path, word, separator) <==> path[0] == word[0] && FirstIs(path[1..], word[1..], separator)
  {
    var tail, more := path[1..], word[1..];
    if word <= path { assert more <= tail; assert |word| < |path| ==> tail[|more|] == path[|word|]; }
    if path[0] == word[0] && more <= tail {
      assert word == [word[0]] + more && path == [path[0]] + tail;
      assert word <= path;
      assert |word| < |path| ==> tail[|more|] == path[|word|];
    }
    if forall i :: 0 <= i < |word| ==> !separator(word[i]) {
      assert forall i :: 0 <= i < |more| ==> more[i] == word[i + 1];
    }
    if path[0] == word[0] && forall i :: 0 <= i < |more| ==> !separator(more[i]) {
      assert forall i :: 0 < i < |word| ==> word[i] == more[i - 1];
    }
  }

  /** A path has a parent component exactly where two dots stand alone. */
  lemma {:induction false} ParentComponents(path: string, separator: char -> bool)
    requires !separator('.')
    ensures ".." in Components(path, separator)[1..] <==> exists i: nat :: i > 0 && ParentAt(path, i, separator)
    ensures ".." in Components(path, separator) <==> exists i: nat :: ParentAt(path, i, separator)
    decreases path
  {
    FirstComponent(path, "..", separator);
    var parts := Components(path, separator);
    assert parts == [parts[0]] + parts[1..];
    FirstParent(path, separator);
    if path != "" {
      ParentComponents(path[1..], separator);
      ShiftedParents(path, separator);
      if !separator(path[0]) { FirstComponent(path[1..], "", separator); }
    }
  }

  lemma FirstParent(path: string, separator: char -> bool)
    requires !separator('.')
    ensures FirstIs(path, "..", separator) <==> ParentAt(path, 0, separator)
  {
    if ".." <= path { assert path[0] == ".."[0] && path[1] == ".."[1]; }
    if ParentAt(path, 0, separator) { assert path[..2] == ".."; }
  }

  lemma ShiftedParents(path: string, separator: char -> bool)
    requires path != ""
    ensures (exists i: nat :: i > 0 && ParentAt(path, i, separator)) <==>
      (separator(path[0]) && ParentAt(path[1..], 0, separator)) || (exists i: nat :: i > 0 && ParentAt(path[1..], i, separator))
  {
    var tail := path[1..];
    forall i: nat | i > 1 ensures ParentAt(path, i, separator) == ParentAt(tail, i - 1, separator) { }
    if i: nat :| i > 0 && ParentAt(path, i, separator) {
      if i > 1 { assert ParentAt(tail, i - 1, separator); }
    }
    if i: nat :| i > 0 && ParentAt(tail, i, separator) { assert ParentAt(path, i + 1, separator); }
    if separator(path[0]) && ParentAt(tail, 0, separator) { assert ParentAt(path, 1, separator); }
  }

  predicate AllSpace(s: string) { forall i :: 0 <= i < |s| ==> IsSpace(s[i]) }

  lemma {:induction false} StrippedLeft(s: string) returns (lead: string)
    ensures AllSpace(lead) && s == lead + StripLeft(s)
    ensures StripLeft(s) != "" ==> !IsSpace(StripLeft(s)[0])
    decreases s
  {
    lead := "";
    if s != "" && IsSpace(s[0]) {
      var more := StrippedLeft(s[1..]);
      lead := [s[0]] + more;
      assert s == [s[0]] + s[1..];
    }
  }

  lemma {:induction false} StrippedRight(s: string) returns (trail: string)
    ensures AllSpace(trail) && s == StripRight(s) + trail
    decreases |s|
  {
    trail := "";
    if s != "" && IsSpace(s[|s| - 1]) {
      var more := StrippedRight(s[..|s| - 1]);
      trail := more + [s[|s| - 1]];
      assert s == s[..|s| - 1] + [s[|s| - 1]];
    }
  }

  lemma {:induction false} StripsLeft(lead: string, s: string)
    requires AllSpace(lead) && s != "" && !IsSpace(s[0])
    ensures StripLeft(lead + s) == s
    decreases lead
  {
    if lead == "" {
      assert lead + s == s;
    } else {
      assert (lead + s)[1..] == lead[1..] + s;
      StripsLeft(lead[1..], s);
    }
  }

  lemma {:induction false} StripsRight(s: string, trail: string)
    requires AllSpace(trail) && s != "" && !IsSpace(s[|s| - 1])
    ensures StripRight(s + trail) == s
    decreases |trail|
  {
    if trail == "" {
      assert s + trail == s;
    } else {
      assert (s + trail)[..|s + trail| - 1] == s + trail[..|trail| - 1];
      StripsRight(s, trail[..|trail| - 1]);
    }
  }

  /** A pipe name: at most 128 letters, digits, dots, underscores and dashes, the first of them
      a letter or digit. */
  predicate PipeName(name: string) {
    && 1 <= |name| <= 128
    && forall i :: 0 <= i < |name| ==>
         'a' <= name[i] <= 'z' || 'A' <= name[i] <= 'Z' || '0' <= name[i] <= '9' || (i > 0 && name[i] in "._-")
  }

  /** A local pipe, with white space around it allowed. */
  ghost predicate LocalPipe(endpoint: string) {
    exists lead: string, name: string, trail: string ::
      AllSpace(lead) && PipeName(name) && AllSpace(trail) && endpoint == lead + ("\\\\.\\pipe\\" + name) + trail
  }

  lemma PipesAreLocal(endpoint: string)
    ensures ValidPipe(endpoint) <==> LocalPipe(endpoint)
  {
    if ValidPipe(endpoint) { PipeIsLocal(endpoint); }
    if LocalPipe(endpoint) {
      var lead: string, name: string, trail: string :| AllSpace(lead) && PipeName(name) && AllSpace(trail)
        && endpoint == lead + ("\\\\.\\pipe\\" + name) + trail;
      PipeIsValid(lead, name, trail);
    }
  }

  lemma PipeIsLocal(endpoint: string)
    requires ValidPipe(endpoint)
    ensures LocalPipe(endpoint)
  {
    var lead := StrippedLeft(endpoint);
    var trail := StrippedRight(StripLeft(endpoint));
    var candidate := StripRight(StripLeft(endpoint));
    var name := candidate[|PIPE_PREFIX|..];
    assert candidate == PIPE_PREFIX + name && PipeName(name);
    Regrouped(lead, candidate, trail);
    assert endpoint == lead + ("\\\\.\\pipe\\" + name) + trail;
  }

  lemma Regrouped(a: string, b: string, c: string)
    ensures a + (b + c) == a + b + c
  {
  }

  lemma PipeIsValid(lead: string, name: string, trail: string)
    requires AllSpace(lead) && PipeName(name) && AllSpace(trail)
    ensures ValidPipe(lead + ("\\\\.\\pipe\\" + name) + trail)
  {
    var candidate := PIPE_PREFIX + name;
    assert candidate[0] == '\\' && candidate[|candidate| - 1] == name[|name| - 1];
    StripsLeft(lead, candidate + trail);
    StripsRight(candidate, trail);
    assert lead + candidate + trail == lead + (candidate + trail);
    assert candidate[|PIPE_PREFIX|..] == name;
  }

  predicate PlainArgument(argument: string) { 1 <= |argument| <= 4096 && forall i :: 0 <= i < |argument| ==> argument[i] >= ' ' }

  /** An absolute path without a parent component. */
  ghost predicate RootedPath(path: string) {
    path != "" && path[0] == '/' && !HasParent(path, c => c == '/')
  }

  /** The same with a drive, and either slash. */
  ghost predicate DrivePath(path: string) {
    && |path| >= 3 && path[0] !in "/\\" && path[1] == ':' && path[2] in "/\\"
    && !HasParent(path, c => IsSlash(c))
  }

  lemma PathsAreAbsolute(path: string)
    ensures PosixAbsolute(path) <==> RootedPath(path)
    ensures WindowsAbsolute(path) <==> DrivePath(path)
  {
    ParentComponents(path, c => c == '/');
    ParentComponents(path, c => IsSlash(c));
  }

  /** Exactly these lists are printed: the guarded hook command of one host, its arguments
      plain, an absolute executable and an absolute socket, or on Windows a local pipe. */
  lemma AcceptedExactly(argv: seq<string>, platform: string, host: string)
    ensures Command(argv, platform, host).Ok? <==>
      && platform in {"darwin", "win32"} && host in {"codex", "claude-code"} && |argv| == 6
      && argv[1] == "hook" && argv[2] == "--host" && argv[3] == host && argv[4] == "--socket"
      && (forall i :: 0 <= i < 6 ==> PlainArgument(argv[i]))
      && (platform == "darwin" ==> RootedPath(argv[0]) && RootedPath(argv[5]))
      && (platform == "win32" ==> DrivePath(argv[0]) && LocalPipe(argv[5]))
  {
    if |argv| == 6 {
      MiddleIs(argv, host);
      PathsAreAbsolute(argv[0]);
      PathsAreAbsolute(argv[5]);
      PipesAreLocal(argv[5]);
      assert forall i :: 0 <= i < 6 ==> PlainArgument(argv[i]) == Bounded(argv[i]);
      PlatformsDiffer();
    }
  }

  lemma MiddleIs(argv: seq<string>, host: string)
    requires |argv| == 6
    ensures argv[1..5] == ["hook", "--host", host, "--socket"] <==>
      argv[1] == "hook" && argv[2] == "--host" && argv[3] == host && argv[4] == "--socket"
  {
    var middle := argv[1..5];
    assert middle[0] == argv[1] && middle[1] == argv[2] && middle[2] == argv[3] && middle[3] == argv[4];
  }

  lemma PlatformsDiffer()
    ensures "darwin" != "win32"
  {
    assert |"darwin"| == 6 && |"win32"| == 5;
  }

  // ------------------------------------------------------- words of other origin

  /** The last component of the path is `name`. */
  predicate Runs(path: string, name: string) {
    path == name || (|path| > |name| && path[|path| - |name|..] == name && path[|path| - |name| - 1] in "/\\")
  }

  lemma {:induction false} BasenameIs(path: string, name: string)
    requires forall i :: 0 <= i < |name| ==> !IsSlash(name[i])
    ensures name != "" ==> (Basename(path) == name <==> Runs(path, name))
    ensures Basename(path) == "" <==> path == "" || IsSlash(path[|path| - 1])
    decreases |path|
  {
    if path != "" && !IsSlash(path[|path| - 1]) {
      var front, last := path[..|path| - 1], path[|path| - 1];
      if name != "" {
        var stem := name[..|name| - 1];
        BasenameIs(front, stem);
        assert name == stem + [name[|name| - 1]] && path == front + [last];
        assert Basename(path) == name <==> Basename(front) == stem && last == name[|name| - 1];
        RunsFront(path, name);
      }
    } else if name != "" {
      RunsNothing(path, name);
    }
  }

  lemma RunsNothing(path: string, name: string)
    requires name != "" && !IsSlash(name[|name| - 1]) && (path == "" || IsSlash(path[|path| - 1]))
    ensures !Runs(path, name)
  {
    if |path| > |name| { assert path[|path| - |name|..][|name| - 1] == path[|path| - 1]; }
  }

  lemma RunsFront(path: string, name: string)
    requires path != "" && name != "" && forall i :: 0 <= i < |name| ==> !IsSlash(name[i])
    ensures var front, stem := path[..|path| - 1], name[..|name| - 1];
      var before := if stem == "" then front == "" || IsSlash(front[|front| - 1]) else Runs(front, stem);
      Runs(path, name) <==> path[|path| - 1] == name[|name| - 1] && before
  {
    var front, stem := path[..|path| - 1], name[..|name| - 1];
    var last := path[|path| - 1];
    assert path == front + [last] && name == stem + [name[|name| - 1]];
    if |path| > |name| {
      assert path[|path| - |name|..] == front[|front| - |stem|..] + [last];
      assert front[|front| - |stem| - 1] == path[|path| - |name| - 1];
    }
  }

  /** The option at `i` names the host. */
  predicate HostAt(argv: seq<string>, i: nat, h: string) {
    i < |argv| && (argv[i] == "--host=" + h || (argv[i] == "--host" && i + 1 < |argv| && argv[i + 1] == h))
  }

  predicate HostGiven(argv: seq<string>, from: nat, h: string) { exists i: nat :: from <= i < |argv| && HostAt(argv, i, h) }

  lemma OptionsGiven(argv: seq<string>, from: nat, h: string)
    requires from <= |argv|
    ensures NamesHost(argv[from..], h) <==> HostGiven(argv, from, h)
  {
    var options := argv[from..];
    forall i: nat | i < |options| ensures OptionNamesHost(options, i, h) == HostAt(argv, from + i, h) {
      assert argv[from + i] == options[i] && (i + 1 < |options| ==> argv[from + i + 1] == options[i + 1]);
    }
    if i: nat :| from <= i < |argv| && HostAt(argv, i, h) { assert OptionNamesHost(options, i - from, h); }
  }

  /** Three launchers, each with its own way of naming the host. */
  predicate NamesLauncher(argv: seq<string>, h: string) {
    argv != [] &&
    if Runs(argv[0], "atellagent-cli") || Runs(argv[0], "atellagent-cli.exe") then
      |argv| == 6 && argv[1] == "hook" && argv[2] == "--host" && argv[3] == h && argv[4] == "--socket"
    else if Runs(argv[0], "atellagent-hook-adapter") then HostGiven(argv, 1, h)
    else |argv| > 2 && argv[1] == "-m" && argv[2] == "atellagent_client.hook_launcher" && HostGiven(argv, 3, h)
  }

  lemma LaunchersAreNamed(argv: seq<string>, h: string)
    ensures LaunchesHook(argv, h) <==> NamesLauncher(argv, h)
  {
    if argv != [] {
      BasenameIs(argv[0], "atellagent-cli");
      BasenameIs(argv[0], "atellagent-cli.exe");
      BasenameIs(argv[0], "atellagent-hook-adapter");
      OptionsGiven(argv, 1, h);
      if |argv| == 6 { MiddleIs(argv, h); }
      if |argv| > 2 {
        OptionsGiven(argv, 3, h);
        assert argv[1..3] == [argv[1], argv[2]];
      }
    }
  }

  /** Shell words of any origin, settings written by hand included, are recognised for a host
      exactly when they run one of the three launchers with that host, unless they are longer
      than 65536 characters. */
  lemma ShellWordsAreRecognised(argv: seq<string>, h: string)
    requires var text := JoinWords(argv); !(SCRIPT_PREFIX <= text) && !(ENCODED_PREFIX <= text)
    ensures Recognises(JoinWords(argv), h) <==> |JoinWords(argv)| <= 65536 && NamesLauncher(argv, h)
  {
    SplitOfJoin(argv);
    LaunchersAreNamed(argv, h);
  }
}
