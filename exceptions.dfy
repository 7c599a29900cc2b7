/** The bridge's exceptions: NpmCommandFailedException (a command that failed, with an
    optional cause) and NpmNotFoundException (npm is not on the executable path). */
module Exceptions {
  import opened Wrappers

  /** An exception as PHP sees it: a message, a code and an optional previous exception.
      `Other` stands for any exception raised elsewhere and passed in as a cause. */
  datatype Exception =
    | NpmCommandFailedException(command: string, cause: Option<Exception>)
    | NpmNotFoundException(cause: Option<Exception>)
    | Other(otherMessage: string, otherCode: int, otherCause: Option<Exception>)

  const NpmNotFoundMessage := "The npm executable could not be found."

  /** `getMessage()`. */
  function Message(e: Exception): string
  {
    match e
    case NpmCommandFailedException(command, _) => "Execution of " + VarExport(command) + " failed."
    case NpmNotFoundException(_) => NpmNotFoundMessage
    case Other(message, _, _) => message
  }

  /** `getCode()`: both bridge exceptions pass 0 to the parent constructor. */
  function Code(e: Exception): int
  {
    match e
    case Other(_, code, _) => code
    case _ => 0
  }

  /** `getPrevious()`. */
  function Previous(e: Exception): Option<Exception>
  {
    match e
    case NpmCommandFailedException(_, cause) => cause
    case NpmNotFoundException(cause) => cause
    case Other(_, _, cause) => cause
  }

  /** PHP's `var_export($s, true)` for a string: the characters between single quotes,
      with `'` and `\` escaped by a backslash and each NUL character written as
      `' . "\0" . '` (closing the literal, concatenating a double-quoted NUL, reopening). */
  function VarExport(s: string): string
  {
    "'" + ExportBody(s) + "'"
  }

  const NulToken := "' . \"\\0\" . '"

  function ExportChar(c: char): string
  {
    if c == '\'' then "\\'"
    else if c == '\\' then "\\\\"
    else if c == '\0' then NulToken
    else [c]
  }

  function ExportBody(s: string): string
  {
    if s == [] then [] else ExportChar(s[0]) + ExportBody(s[1..])
  }

  /** Reads back an exported body: the inverse of ExportBody on its image, and None on
      text ExportBody never produces. */
  function ImportBody(t: string): Option<string>
    decreases |t|
  {
    if t == [] then Some([])
    else if t[0] == '\\' then
      if |t| >= 2 && (t[1] == '\'' || t[1] == '\\') then Prepend(t[1], ImportBody(t[2..])) else None
    else if t[0] == '\'' then
      if |t| >= |NulToken| && t[..|NulToken|] == NulToken then Prepend('\0', ImportBody(t[|NulToken|..])) else None
    else Prepend(t[0], ImportBody(t[1..]))
  }

  function Prepend(c: char, rest: Option<string>): Option<string>
  {
    if rest.Some? then Some([c] + rest.value) else None
  }

  /** Reads the command back out of a failure message, if it has that shape. */
  function CommandOfMessage(m: string): Option<string>
  {
    var prefix := "Execution of '";
    var suffix := "' failed.";
    if |m| >= |prefix| + |suffix| && m[..|prefix|] == prefix && m[|m| - |suffix|..] == suffix
    then ImportBody(m[|prefix|..|m| - |suffix|])
    else None
  }

  lemma {:induction false} ImportExportChar(c: char, rest: string)
    ensures ImportBody(ExportChar(c) + rest) == Prepend(c, ImportBody(rest))
  {
    var t := ExportChar(c) + rest;
    if c == '\'' || c == '\\' {
      assert t[0] == '\\' && t[1] == c && t[2..] == rest;
    } else if c == '\0' {
      assert t[0] == '\'' && t[..|NulToken|] == NulToken && t[|NulToken|..] == rest;
    } else {
      assert t[0] == c && t[1..] == rest;
    }
  }

  /** Exporting a string and reading it back gives the string. */
  lemma {:induction false} ImportExport(s: string)
    ensures ImportBody(ExportBody(s)) == Some(s)
  {
    if s != [] {
      ImportExportChar(s[0], ExportBody(s[1..]));
      ImportExport(s[1..]);
      assert [s[0]] + s[1..] == s;
    }
  }

  /** The message of an NpmCommandFailedException spells out its command exactly: the
      command can be read back from the message. */
  lemma CommandFailedMessageRoundTrip(command: string, cause: Option<Exception>)
    ensures CommandOfMessage(Message(NpmCommandFailedException(command, cause))) == Some(command)
  {
    var m := Message(NpmCommandFailedException(command, cause));
    var body := ExportBody(command);
    assert m == "Execution of '" + body + "' failed.";
    assert m[..14] == "Execution of '";
    assert m[|m| - 9..] == "' failed.";
    assert m[14..|m| - 9] == body;
    ImportExport(command);
  }

  /** So two failures with the same message are about the same command. */
  lemma CommandFailedMessageInjective(c1: string, c2: string, cause1: Option<Exception>, cause2: Option<Exception>)
    requires Message(NpmCommandFailedException(c1, cause1)) == Message(NpmCommandFailedException(c2, cause2))
    ensures c1 == c2
  {
    CommandFailedMessageRoundTrip(c1, cause1);
    CommandFailedMessageRoundTrip(c2, cause2);
  }

  /** NpmCommandFailedExceptionTest: the command `command` with a plain cause. */
  lemma CommandFailedExample(cause: Exception)
    ensures var e := NpmCommandFailedException("command", Some(cause));
      && e.command == "command"
      && Message(e) == "Execution of 'command' failed."
      && Code(e) == 0
      && Previous(e) == Some(cause)
  {
    ExportPlain("command");
  }

  /** A string without quotes, backslashes or NULs is exported as itself in quotes. */
  lemma {:induction false} ExportPlain(s: string)
    requires forall i :: 0 <= i < |s| ==> s[i] != '\'' && s[i] != '\\' && s[i] != '\0'
    ensures VarExport(s) == "'" + s + "'"
  {
    ExportBodyPlain(s);
  }

  lemma {:induction false} ExportBodyPlain(s: string)
    requires forall i :: 0 <= i < |s| ==> s[i] != '\'' && s[i] != '\\' && s[i] != '\0'
    ensures ExportBody(s) == s
  {
    if s != [] {
      ExportBodyPlain(s[1..]);
      assert [s[0]] + s[1..] == s;
    }
  }
}
