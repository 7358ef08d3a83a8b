/**
 * The text an SMTP connection puts on the wire and into its debug log:
 * command lines joined and terminated by CRLF, and the logged copy of a
 * command with its secret tail masked and long bodies cut short.
 */
module CommandText {

  const CRLF: string := "\r\n"

  /** Logged commands of this many characters or more are cut short. */
  const MaxLogged: nat := 1000

  const Ellipsis: string := "..."

  const Mask: char := '*'

  /** `String.join("\r\n", commands)`: the separator goes between commands only. */
  function Join(commands: seq<string>): (r: string)
    ensures |commands| == 0 ==> r == ""
    ensures |commands| == 1 ==> r == commands[0]
    decreases |commands|
  {
    if |commands| == 0 then ""
    else if |commands| == 1 then commands[0]
    else commands[0] + CRLF + Join(commands[1..])
  }

  /** The wire format of a pipelined batch: every command line ends in CRLF. */
  function Terminated(commands: seq<string>): string
    decreases |commands|
  {
    if |commands| == 0 then "" else commands[0] + CRLF + Terminated(commands[1..])
  }

  /**
   * Joining a non-empty batch and adding the final CRLF, as `write` does,
   * puts every command on the wire as its own CRLF-terminated line.
   */
  lemma {:induction false} JoinThenTerminate(commands: seq<string>)
    ensures |commands| > 0 ==> Join(commands) + CRLF == Terminated(commands)
  {
    if |commands| > 1 {
      JoinThenTerminate(commands[1..]);
      assert Join(commands) + CRLF == commands[0] + CRLF + (Join(commands[1..]) + CRLF);
    } else if |commands| == 1 {
      assert Terminated(commands[1..]) == "";
    }
  }

  /** A run of `n` mask characters. */
  function Stars(n: nat): (r: string)
    ensures |r| == n
    ensures forall i :: 0 <= i < n ==> r[i] == Mask
  {
    seq(n, _ => Mask)
  }

  /**
   * The command as logged before truncation: with `blank >= 0` every
   * character from index `blank` on is masked, with `blank < 0` nothing is.
   * A `blank` beyond the end makes the source's `substring` throw, so it is
   * excluded here.
   */
  function Masked(str: string, blank: int): (m: string)
    requires blank <= |str|
    ensures |m| == |str|
    ensures blank < 0 ==> m == str
    ensures forall i :: 0 <= i < |str| ==> m[i] == (if 0 <= blank <= i then Mask else str[i])
  {
    if blank >= 0 then str[..blank] + Stars(|str| - blank) else str
  }

  /**
   * The command text that `write` logs: the masked command, whole when it is
   * shorter than 1000 characters, otherwise its first 1000 characters and "...".
   */
  function LogText(str: string, blank: int): (r: string)
    requires blank <= |str|
    ensures |str| < MaxLogged ==> r == Masked(str, blank)
    ensures |str| >= MaxLogged ==>
      |r| == MaxLogged + |Ellipsis| &&
      r[..MaxLogged] == Masked(str, blank)[..MaxLogged] &&
      r[MaxLogged..] == Ellipsis
  {
    var logStr := Masked(str, blank);
    if |logStr| < MaxLogged then logStr else logStr[..MaxLogged] + Ellipsis
  }

  /**
   * The source's computation of the logged text: a builder collects one mask
   * character per position from `blank` to the end, which is appended to the
   * unmasked prefix; the result is then truncated.
   */
  method BuildLogText(str: string, blank: int) returns (logged: string)
    requires blank <= |str|
    ensures logged == LogText(str, blank)
  {
    var logStr: string;
    if blank >= 0 {
      var sb: string := "";
      var i := blank;
      while i < |str|
        invariant blank <= i <= |str|
        invariant sb == Stars(i - blank)
      {
        sb := sb + [Mask];
        i := i + 1;
      }
      logStr := str[..blank] + sb;
    } else {
      logStr := str;
    }
    if |logStr| < MaxLogged {
      logged := logStr;
    } else {
      logged := logStr[..MaxLogged] + Ellipsis;
    }
  }
}
