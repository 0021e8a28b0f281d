/** Syntax-error reporting: the parser's messages for one script become one
    console line each, naming the line and the script (Program.cs,
    `GetSyntaxErrors` and `PrintSyntaxErrors`). */
module Diagnostics {
  import opened Wrappers
  import opened Numerals

  /** One parser message; only its line is used when reporting it. */
  datatype LogMessage = LogMessage(line: int, text: string)

  const ErrorPrefix: string := "[ERROR] Bad syntax at line "
  const ErrorInfix: string := " in "

  /** The error line for a message at `line` in the script `scriptName`. */
  function FormatError(line: int, scriptName: string): string {
    ErrorPrefix + IntToString(line) + ErrorInfix + scriptName + "."
  }

  /** Index of the first space in `s`, or `|s|` when there is none. */
  function FirstSpace(s: string): (k: nat)
    ensures k <= |s|
    ensures k < |s| ==> s[k] == ' '
    ensures forall j :: 0 <= j < k ==> s[j] != ' '
  {
    if s == [] then 0 else if s[0] == ' ' then 0 else 1 + FirstSpace(s[1..])
  }

  /** Reads an error line back into the line number and the script name it
      reports; `None` for any text that is not an error line. The numeral ends
      at the first space, so a script name may itself contain spaces. */
  function ParseError(s: string): Option<(int, string)> {
    if |s| < |ErrorPrefix| || s[..|ErrorPrefix|] != ErrorPrefix then None
    else
      var rest := s[|ErrorPrefix|..];
      var k := FirstSpace(rest);
      var tail := rest[k..];
      if |tail| < |ErrorInfix| + 1 || tail[..|ErrorInfix|] != ErrorInfix || tail[|tail| - 1] != '.' then None
      else
        match ParseInt(rest[..k])
        case None => None
        case Some(line) => Some((line, tail[|ErrorInfix|..|tail| - 1]))
  }

  /** The first space of `a + b` is where `b` starts, when `a` has none and
      `b` starts with one. */
  lemma {:induction false} FirstSpaceAt(a: string, b: string)
    requires forall j :: 0 <= j < |a| ==> a[j] != ' '
    requires |b| > 0 && b[0] == ' '
    ensures FirstSpace(a + b) == |a|
    decreases |a|
  {
    if a == [] {
      assert a + b == b;
    } else {
      assert (a + b)[1..] == a[1..] + b;
      FirstSpaceAt(a[1..], b);
    }
  }

  /** Every error line names exactly the line and script it was made from. */
  lemma ParseFormatError(line: int, scriptName: string)
    ensures ParseError(FormatError(line, scriptName)) == Some((line, scriptName))
  {
    var s := FormatError(line, scriptName);
    var numeral := IntToString(line);
    var tail := ErrorInfix + scriptName + ".";
    var rest := numeral + tail;
    assert s == ErrorPrefix + rest;
    assert s[..|ErrorPrefix|] == ErrorPrefix;
    assert s[|ErrorPrefix|..] == rest;
    FirstSpaceAt(numeral, tail);
    assert rest[..|numeral|] == numeral;
    assert rest[|numeral|..] == tail;
    assert tail[..|ErrorInfix|] == ErrorInfix;
    assert tail[|ErrorInfix|..|tail| - 1] == scriptName;
    IntToStringRoundTrip(line);
  }

  /** Error lines for the messages of one script, in message order. */
  function GetSyntaxErrors(messages: seq<LogMessage>, scriptName: string): seq<string> {
    seq(|messages|, i requires 0 <= i < |messages| => FormatError(messages[i].line, scriptName))
  }

  /** One error line per parser message, in message order, each naming that
      message's line and the script. */
  lemma GetSyntaxErrorsSpec(messages: seq<LogMessage>, scriptName: string)
    ensures |GetSyntaxErrors(messages, scriptName)| == |messages|
    ensures forall i :: 0 <= i < |messages| ==>
              ParseError(GetSyntaxErrors(messages, scriptName)[i]) == Some((messages[i].line, scriptName))
  {
    forall i | 0 <= i < |messages|
      ensures ParseError(GetSyntaxErrors(messages, scriptName)[i]) == Some((messages[i].line, scriptName))
    {
      ParseFormatError(messages[i].line, scriptName);
    }
  }

  /** What `PrintSyntaxErrors` reports and writes to the console. */
  datatype Printout = Printout(hasErrors: bool, printed: seq<string>)

  /** Prints every error line of the script and reports whether there was
      any. */
  function PrintSyntaxErrors(messages: seq<LogMessage>, scriptName: string): (r: Printout)
    ensures r.hasErrors <==> |messages| > 0
  {
    var errors := GetSyntaxErrors(messages, scriptName);
    Printout(|errors| > 0, if |errors| > 0 then errors else [])
  }

  /** All of the script's error lines are printed, not only the first, one
      per message and in message order. */
  lemma PrintSyntaxErrorsSpec(messages: seq<LogMessage>, scriptName: string)
    ensures var r := PrintSyntaxErrors(messages, scriptName);
            |r.printed| == |messages| &&
            forall i :: 0 <= i < |messages| ==> ParseError(r.printed[i]) == Some((messages[i].line, scriptName))
  {
    GetSyntaxErrorsSpec(messages, scriptName);
  }
}
