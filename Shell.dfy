/** What the two agent scripts share about the shell they run commands in:
    the Windows path and quoting rewrites, and the shape of a child process's
    outcome and of the text reported back to the model. */
module Shell {
  import opened JsString

  const Win32 := "win32"

  const SuccessPrefix := "Success: "
  const ErrorPrefix := "Error: "

  /** Reported when a command succeeds without printing anything. */
  const DefaultSuccess := "Command executed successfully"

  /** What the promisified `child_process.exec` gives back: the captured
      output of a process that exited with status 0, or the message of the
      error it rejects with (spawn failure or non-zero exit status). */
  datatype ExecResult = Exited(stdout: string, stderr: string) | Rejected(message: string)

  /** A report's prefix says which kind it is. */
  lemma ReportPrefixes(x: string)
    ensures StartsWith(SuccessPrefix + x, SuccessPrefix) && !StartsWith(SuccessPrefix + x, ErrorPrefix)
    ensures StartsWith(ErrorPrefix + x, ErrorPrefix) && !StartsWith(ErrorPrefix + x, SuccessPrefix)
    ensures (SuccessPrefix + x)[|SuccessPrefix|..] == x && (ErrorPrefix + x)[|ErrorPrefix|..] == x
  {
    assert (SuccessPrefix + x)[..|SuccessPrefix|] == SuccessPrefix;
    assert (ErrorPrefix + x)[..|ErrorPrefix|] == ErrorPrefix;
    assert (SuccessPrefix + x)[0] == 'S' && (ErrorPrefix + x)[0] == 'E';
  }

  /** `s.replace(/\//g, '\\')`: the Windows spelling of a path. */
  function ToBackslashes(s: string): (r: string)
    ensures |r| == |s| && '/' !in r
    ensures forall i :: 0 <= i < |s| ==> r[i] == if s[i] == '/' then '\\' else s[i]
  {
    ReplaceEach(s, '/', "\\")
  }

  /** `s.replace(/"/g, '`"')`: every double quote gets PowerShell's escape
      character in front of it. Backticks already in `s` are left as they
      are. */
  function EscapeQuotes(s: string): (r: string)
    ensures QuotesGuarded(r)
    ensures UnescapeQuotes(r) == s
  {
    EscapedQuotesGuarded(s);
    EscapeQuotesRoundTrip(s);
    ReplaceEach(s, '"', "`\"")
  }

  /** Every double quote in `t` directly follows a backtick. */
  predicate QuotesGuarded(t: string) {
    forall i :: 0 <= i < |t| && t[i] == '"' ==> 0 < i && t[i - 1] == '`'
  }

  /** Reads each backtick-quote pair as a double quote and every other
      character as itself: the inverse of `EscapeQuotes`. */
  function UnescapeQuotes(t: string): string {
    if |t| >= 2 && t[0] == '`' && t[1] == '"' then "\"" + UnescapeQuotes(t[2..])
    else if t == [] then []
    else [t[0]] + UnescapeQuotes(t[1..])
  }

  /** After the global replace every double quote directly follows a
      backtick. */
  lemma {:induction false} EscapedQuotesGuarded(s: string)
    ensures QuotesGuarded(ReplaceEach(s, '"', "`\""))
  {
    if s != [] {
      EscapedQuotesGuarded(s[1..]);
      var h := if s[0] == '"' then "`\"" else [s[0]];
      var rest := ReplaceEach(s[1..], '"', "`\"");
      assert ReplaceEach(s, '"', "`\"") == h + rest;
      forall i | 0 <= i < |h + rest| && (h + rest)[i] == '"'
        ensures 0 < i && (h + rest)[i - 1] == '`'
      {
        if i >= |h| {
          assert rest[i - |h|] == '"';
        }
      }
    }
  }

  /** The replace loses nothing: `UnescapeQuotes` gives the original
      content back. */
  lemma {:induction false} EscapeQuotesRoundTrip(s: string)
    ensures UnescapeQuotes(ReplaceEach(s, '"', "`\"")) == s
  {
    if s != [] {
      EscapeQuotesRoundTrip(s[1..]);
      var rest := ReplaceEach(s[1..], '"', "`\"");
      var r := ReplaceEach(s, '"', "`\"");
      assert r == (if s[0] == '"' then "`\"" else [s[0]]) + rest;
      if s[0] == '"' {
        assert r[2..] == rest;
      } else {
        EscapedQuotesGuarded(s[1..]);
        assert rest != [] ==> rest[0] != '"';
        assert r[1..] == rest;
      }
    }
  }

  /** Where a PowerShell double-quoted string whose text starts at `i` in
      `t` is closed: at the first double quote that no backtick escapes,
      where a backtick escapes the character after it. */
  function ClosingQuote(t: string, i: nat): Option<nat>
    decreases |t| - i
  {
    if i >= |t| then None
    else if t[i] == '`' then ClosingQuote(t, i + 2)
    else if t[i] == '"' then Some(i)
    else ClosingQuote(t, i + 1)
  }

  /** The escape does not keep content inside its PowerShell string: a
      backtick already in the content makes a doubled backtick, which
      PowerShell reads as a literal backtick, so the quote after it closes
      the string (`a``"b` is closed at index 3); a trailing backtick is left
      bare and escapes the closing quote of the template. */
  lemma EscapeLeavesBackticks()
    ensures EscapeQuotes("a`\"b") == "a``\"b"
    ensures ClosingQuote(EscapeQuotes("a`\"b"), 0) == Some(3)
    ensures EscapeQuotes("a`") == "a`"
  {
    var q := "`\"";
    assert ReplaceEach("b", '"', q) == "b";
    assert ReplaceEach("\"b", '"', q) == q + "b";
    assert ReplaceEach("`\"b", '"', q) == "`" + q + "b";
    assert ReplaceEach("a`\"b", '"', q) == "a" + "`" + q + "b";
    var r := "a``\"b";
    assert "a" + "`" + q + "b" == r;
    assert r[0] == 'a' && r[1] == '`' && r[3] == '"';
    assert ClosingQuote(r, 0) == ClosingQuote(r, 1) == ClosingQuote(r, 3) == Some(3);
    assert ReplaceEach("`", '"', q) == "`";
  }
}
