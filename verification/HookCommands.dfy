/** The guarded hook command printed into a coding host's settings
    (`cli/native_hook_commands.py`). */
module HookCommands {
  import opened Outcomes
  import opened Text
  import opened Shlex

  datatype Rejection = UnsupportedPlatformOrHost | InexactArguments | UnboundedArguments | NotAbsolute | BadPipe

  datatype Handler = Handler(shell: Option<string>, command: string)

  const ARGUMENT_LIMIT := 4096
  const PIPE_PREFIX := "\\\\.\\pipe\\"
  const SCRIPT_PREFIX := "$ErrorActionPreference" + "='Stop'; try { & "
  const SCRIPT_SUFFIX := "; if " + "($LASTEXITCODE -eq 0) { exit 0 }; exit 2 } catch { "
    + "[Console]::Error.WriteLine('Atellagent hook could not start; request denied.'); exit 2 }"
  const ENCODED_PREFIX := "powershell.exe" + " -NoProfile -NonInteractive -EncodedCommand "

  predicate Bounded(item: string) {
    0 < |item| <= ARGUMENT_LIMIT && forall i :: 0 <= i < |item| ==> item[i] as int >= 32
  }

  predicate PosixAbsolute(path: string) {
    path != "" && path[0] == '/' && ".." !in Components(path, c => c == '/')
  }

  /** A drive, a root and no parent component; UNC shares are excluded. */
  predicate WindowsAbsolute(path: string) {
    && |path| >= 3 && !IsSlash(path[0]) && path[1] == ':' && IsSlash(path[2])
    && ".." !in Components(path, c => IsSlash(c))
  }

  predicate IsAlphanumeric(c: char) { 'a' <= c <= 'z' || 'A' <= c <= 'Z' || '0' <= c <= '9' }

  /** `validate_windows_named_pipe`: surrounding white space is ignored. */
  predicate ValidPipe(endpoint: string) {
    var candidate := StripRight(StripLeft(endpoint));
    && PIPE_PREFIX <= candidate
    && var name := candidate[|PIPE_PREFIX|..];
      && 1 <= |name| <= 128 && IsAlphanumeric(name[0])
      && forall i :: 1 <= i < |name| ==> IsAlphanumeric(name[i]) || name[i] in "._-"
  }

  /** One PowerShell single-quoted literal. */
  function Literal(value: string): string { "'" + ReplaceChar(value, '\'', "''") + "'" }

  function Literals(values: seq<string>): (r: seq<string>)
    ensures |r| == |values|
  {
    if values == [] then [] else [Literal(values[0])] + Literals(values[1..])
  }

  function Script(argv: seq<string>): string {
    SCRIPT_PREFIX + JoinWithSpaces(Literals(argv)) + SCRIPT_SUFFIX
  }

  function Command(argv: seq<string>, platform: string, host: string): Result<Handler, Rejection> {
    if platform !in {"darwin", "win32"} || host !in {"codex", "claude-code"} then
      Err(UnsupportedPlatformOrHost)
    else if |argv| != 6 || argv[1..5] != ["hook", "--host", host, "--socket"] then
      Err(InexactArguments)
    else if exists i :: 0 <= i < |argv| && !Bounded(argv[i]) then
      Err(UnboundedArguments)
    else if platform == "darwin" then
      if !PosixAbsolute(argv[0]) || !PosixAbsolute(argv[5]) then Err(NotAbsolute)
      else Ok(Handler(None, JoinWords(argv)))
    else if !WindowsAbsolute(argv[0]) then Err(NotAbsolute)
    else if !ValidPipe(argv[5]) then Err(BadPipe)
    else if host == "claude-code" then Ok(Handler(Some("powershell"), Script(argv)))
    else Ok(Handler(None, ENCODED_PREFIX + EncodeBase64(EncodeUtf16(Script(argv)))))
  }
}
