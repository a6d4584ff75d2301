/**
 * The status of one monitor, and the text Rust's derived `Debug` gives it.
 *
 * The aggregate load-average message embeds each sub-check's status in its
 * `Debug` form (`Ok`, `Error { message: "..." }`), so that rendering is part
 * of what the monitor stores.  `Unescape`/`ParseDebug` read that text back;
 * the round-trip lemma shows the rendering loses nothing.
 */
module MonitorStatuses {
  import opened Wrappers

  /** `Unknown` before the first check, then `Ok` or `Error` with a message. */
  datatype Status = Unknown | Ok | Error(message: string)

  /** One entry of the status map: the monitor's name and its status. */
  datatype MonitorStatus = MonitorStatus(name: string, status: Status)

  /** Characters that Rust's `Debug` for `str` writes as a two-character escape. */
  predicate IsEscaped(c: char) {
    c == '\t' || c == '\r' || c == '\n' || c == '\\' || c == '"' || c == '\0'
  }

  /** The letter that follows the backslash in the escape of `c`. */
  function EscapeLetter(c: char): char
    requires IsEscaped(c)
  {
    match c
    case '\t' => 't'
    case '\r' => 'r'
    case '\n' => 'n'
    case '\0' => '0'
    case _ => c
  }

  /** Inverse of `EscapeLetter`: the character an escape letter stands for. */
  function UnescapeLetter(e: char): Option<char> {
    match e
    case 't' => Some('\t')
    case 'r' => Some('\r')
    case 'n' => Some('\n')
    case '0' => Some('\0')
    case '\\' => Some('\\')
    case '"' => Some('"')
    case _ => None
  }

  /** The body of a `Debug`-quoted string: every special character escaped. */
  function Escape(s: string): string
  {
    if s == [] then []
    else if IsEscaped(s[0]) then ['\\', EscapeLetter(s[0])] + Escape(s[1..])
    else [s[0]] + Escape(s[1..])
  }

  /**
   * Reads an escaped string body up to its closing quote; returns the
   * unescaped text and what follows the quote, or `None` when the input is
   * not a well-formed quoted body.
   */
  function Unescape(s: string): Option<(string, string)>
    decreases |s|
  {
    if s == [] then None
    else if s[0] == '"' then Some(([], s[1..]))
    else if s[0] == '\\' then
      if |s| < 2 then None
      else match UnescapeLetter(s[1])
        case None => None
        case Some(c) =>
          match Unescape(s[2..])
          case None => None
          case Some(p) => Some(([c] + p.0, p.1))
    else
      match Unescape(s[1..])
      case None => None
      case Some(p) => Some(([s[0]] + p.0, p.1))
  }

  const ErrorOpen: string := "Error { message: \""
  const ErrorClose: string := " }"

  /** `format!("{:?}", status)` for the derived `Debug` of `Status`. */
  function DebugText(s: Status): string {
    match s
    case Unknown => "Unknown"
    case Ok => "Ok"
    case Error(m) => ErrorOpen + Escape(m) + "\"" + ErrorClose
  }

  predicate StartsWith(s: string, prefix: string) {
    |prefix| <= |s| && s[..|prefix|] == prefix
  }

  /** Reads one `Debug`-rendered status from the front of `s`. */
  function ParseDebug(s: string): Option<(Status, string)> {
    if StartsWith(s, "Unknown") then Some((Unknown, s[7..]))
    else if StartsWith(s, "Ok") then Some((Ok, s[2..]))
    else if StartsWith(s, ErrorOpen) then
      match Unescape(s[|ErrorOpen|..])
      case None => None
      case Some(p) =>
        if StartsWith(p.1, ErrorClose) then Some((Error(p.0), p.1[|ErrorClose|..]))
        else None
    else None
  }

  /** Unescaping the escaped text followed by a closing quote gives the text back. */
  lemma {:induction false} UnescapeEscape(m: string, rest: string)
    ensures Unescape(Escape(m) + "\"" + rest) == Some((m, rest))
  {
    if m == [] {
      assert Escape(m) + "\"" + rest == ['"'] + rest;
    } else {
      var tail := Escape(m[1..]) + "\"" + rest;
      UnescapeEscape(m[1..], rest);
      assert m == [m[0]] + m[1..];
      if IsEscaped(m[0]) {
        var s := ['\\', EscapeLetter(m[0])] + tail;
        assert Escape(m) + "\"" + rest == s;
        assert s[2..] == tail;
        assert UnescapeLetter(s[1]) == Some(m[0]);
      } else {
        var s := [m[0]] + tail;
        assert Escape(m) + "\"" + rest == s;
        assert s[1..] == tail;
      }
    }
  }

  /** A status rendered with `Debug` and followed by any text is read back exactly. */
  lemma ParseDebugText(st: Status, rest: string)
    ensures ParseDebug(DebugText(st) + rest) == Some((st, rest))
  {
    var s := DebugText(st) + rest;
    match st
    case Unknown =>
      assert s[..7] == "Unknown";
      assert s[7..] == rest;
    case Ok =>
      assert s[..2] == "Ok";
      assert !StartsWith(s, "Unknown") by { assert s[0] == 'O'; }
      assert s[2..] == rest;
    case Error(m) =>
      var body := Escape(m) + "\"" + (ErrorClose + rest);
      assert s == ErrorOpen + body;
      assert s[..|ErrorOpen|] == ErrorOpen;
      assert s[|ErrorOpen|..] == body;
      assert !StartsWith(s, "Unknown") by { assert s[0] == 'E'; }
      assert !StartsWith(s, "Ok") by { assert s[0] == 'E'; }
      UnescapeEscape(m, ErrorClose + rest);
      assert (ErrorClose + rest)[..|ErrorClose|] == ErrorClose;
      assert (ErrorClose + rest)[|ErrorClose|..] == rest;
  }

  /** Escaping works character by character, so it distributes over concatenation. */
  lemma {:induction false} EscapeAppend(a: string, b: string)
    ensures Escape(a + b) == Escape(a) + Escape(b)
  {
    if a != [] {
      assert (a + b)[0] == a[0];
      assert (a + b)[1..] == a[1..] + b;
      EscapeAppend(a[1..], b);
    } else {
      assert a + b == b;
    }
  }

  /** No character of `s` needs an escape. */
  predicate Plain(s: string) {
    forall i :: 0 <= i < |s| ==> !IsEscaped(s[i])
  }

  /** Joining two texts without special characters gives one without. */
  lemma PlainAppend(a: string, b: string)
    requires Plain(a) && Plain(b)
    ensures Plain(a + b)
  {
    forall i | 0 <= i < |a + b| ensures !IsEscaped((a + b)[i]) {
      if i >= |a| { assert (a + b)[i] == b[i - |a|]; }
    }
  }

  /** Text without special characters is its own escape. */
  lemma {:induction false} EscapePlain(s: string)
    requires Plain(s)
    ensures Escape(s) == s
  {
    if s != [] {
      EscapePlain(s[1..]);
      assert s == [s[0]] + s[1..];
    }
  }
}
