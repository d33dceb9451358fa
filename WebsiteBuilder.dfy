/** The "Website Builder Assistant" agent (Solution1/index.js): it rewrites
    Unix-style commands into PowerShell, runs every command in
    `powershell.exe`, offers a second tool that writes a file directly, and
    keeps one module-wide `History` of the conversation. */
module WebsiteBuilder {
  import opened JsString
  import opened Shell
  import opened Conversation

  /** Every command runs in this shell, whatever the platform. */
  const PowerShellExe := "powershell.exe"

  /** The keys of `availableTools`. */
  const ToolNames: set<string> := {"executeCommand", "writeFileContent"}

  /** `normalizePath`: on Windows every forward slash becomes a backslash;
      elsewhere the path is left as it is. */
  function NormalizePath(platform: string, path: string): (r: string)
    ensures platform != Win32 ==> r == path
    ensures platform == Win32 ==> |r| == |path| && '/' !in r
    ensures '/' !in path ==> r == path
    ensures platform == Win32 ==>
      forall i :: 0 <= i < |path| ==> r[i] == if path[i] == '/' then '\\' else path[i]
  {
    if platform == Win32 then
      assert '/' !in path ==> ToBackslashes(path) == ReplaceEach(path, '/', "\\") == path;
      ToBackslashes(path)
    else path
  }

  /** The command that `executeCommand` hands to PowerShell. Its three
      patterns are tried in this order: a `touch ` prefix, `echo ` together
      with ` > ` anywhere, and `mkdir ` anywhere; a command matching none of
      them is run as it is. The rewrite does not depend on the platform
      except through `normalizePath`. */
  function PowerShellCommand(platform: string, command: string): (r: string)
    ensures StartsWith(command, "touch ") ==>
      r == "New-Item -Path \"" + NormalizePath(platform, command[6..]) + "\" -ItemType File"
    ensures !StartsWith(command, "touch ") && Includes(command, "echo ") && Includes(command, " > ") ==>
      var k := IndexOf(command, " > ").value;
      var target := SplitTwo(command, " > ").second.value;
      r == "\"" + EscapeQuotes(ReplaceFirst(command[..k], "echo ", "")) +
           "\" | Out-File -Encoding utf8 \"" + NormalizePath(platform, Trim(target)) + "\""
    ensures (!StartsWith(command, "touch ") && !(Includes(command, "echo ") && Includes(command, " > ")) &&
             Includes(command, "mkdir ")) ==>
      var m := IndexOf(command, "mkdir ").value;
      r == "New-Item -ItemType Directory -Path \"" + NormalizePath(platform, command[..m] + command[m + 6..]) + "\""
    ensures (!StartsWith(command, "touch ") && !(Includes(command, "echo ") && Includes(command, " > ")) &&
             !Includes(command, "mkdir ")) ==> r == command
  {
    if StartsWith(command, "touch ") then
      RemovePrefix(command, "touch ");
      "New-Item -Path \"" + NormalizePath(platform, ReplaceFirst(command, "touch ", "")) + "\" -ItemType File"
    else if Includes(command, "echo ") && Includes(command, " > ") then
      var segments := SplitTwo(command, " > ");
      assert segments.first == command[..IndexOf(command, " > ").value];
      var filePath := NormalizePath(platform, Trim(segments.second.value));
      var content := EscapeQuotes(ReplaceFirst(segments.first, "echo ", ""));
      "\"" + content + "\" | Out-File -Encoding utf8 \"" + filePath + "\""
    else if Includes(command, "mkdir ") then
      var m := IndexOf(command, "mkdir ").value;
      assert ReplaceFirst(command, "mkdir ", "") == command[..m] + command[m + 6..];
      "New-Item -ItemType Directory -Path \"" + NormalizePath(platform, ReplaceFirst(command, "mkdir ", "")) + "\""
    else
      command
  }

  /** Unlike the second agent's rewrite, this one is not idempotent: a
      file created with `touch` whose name holds `echo ` and ` > ` (say
      `touch echo a > b`) gives a PowerShell command that a second rewrite
      takes for an `echo … > …`. */
  lemma PowerShellCommandNotIdempotent(platform: string, name: string)
    requires '/' !in name && Includes(name, "echo ") && Includes(name, " > ")
    ensures var once := PowerShellCommand(platform, "touch " + name);
      StartsWith(once, "New-Item -Path") && PowerShellCommand(platform, once) != once
  {
    var head := "New-Item -Path \"";
    var once := head + name + "\" -ItemType File";
    TouchCommand(platform, name);
    assert once[..14] == "New-Item -Path";
    IncludesInside(head, name, "\" -ItemType File", "echo ", IndexOf(name, "echo ").value);
    IncludesInside(head, name, "\" -ItemType File", " > ", IndexOf(name, " > ").value);
    RewrittenAgain(platform, once);
  }

  /** A command that starts with `N` and holds `echo ` and ` > ` is
      rewritten into one that starts with a double quote. */
  lemma RewrittenAgain(platform: string, command: string)
    requires command != [] && command[0] == 'N' && Includes(command, "echo ") && Includes(command, " > ")
    ensures PowerShellCommand(platform, command) != command
  {
    assert !StartsWith(command, "touch ");
    EchoBranchQuoted(platform, command);
  }

  /** `touch <name>` creates the file named by the rest of the command. */
  lemma TouchCommand(platform: string, name: string)
    ensures PowerShellCommand(platform, "touch " + name) ==
      "New-Item -Path \"" + NormalizePath(platform, name) + "\" -ItemType File"
  {
    var command := "touch " + name;
    assert command[..6] == "touch ";
    assert command[6..] == name;
  }

  /** The echo branch gives a command that begins with a double quote. */
  lemma EchoBranchQuoted(platform: string, command: string)
    requires !StartsWith(command, "touch ") && Includes(command, "echo ") && Includes(command, " > ")
    ensures var r := PowerShellCommand(platform, command); r != [] && r[0] == '"'
  {
  }

  /** The smallest such name. */
  lemma PowerShellCommandNotIdempotentExample(platform: string)
    ensures var once := PowerShellCommand(platform, "touch echo a > b");
      PowerShellCommand(platform, once) != once
  {
    var name := "echo a > b";
    assert name[..5] == "echo ";
    IncludesAt(name, "echo ", 0);
    assert name[6..9] == " > ";
    IncludesAt(name, " > ", 6);
    assert "touch " + name == "touch echo a > b";
    PowerShellCommandNotIdempotent(platform, name);
  }

  /** The text `executeCommand` returns for what the process gave back: an
      error for a rejected run or for any standard-error output, otherwise
      a success carrying the standard output or the default message. */
  function Report(run: ExecResult): (r: string)
    ensures StartsWith(r, SuccessPrefix) <==> run.Exited? && run.stderr == ""
    ensures StartsWith(r, ErrorPrefix) <==> !(run.Exited? && run.stderr == "")
    ensures run.Rejected? ==> r[|ErrorPrefix|..] == run.message
    ensures run.Exited? && run.stderr != "" ==> r[|ErrorPrefix|..] == run.stderr
    ensures run.Exited? && run.stderr == "" ==>
      r[|SuccessPrefix|..] == if run.stdout != "" then run.stdout else DefaultSuccess
  {
    match run
    case Rejected(message) => ReportPrefixes(message); ErrorPrefix + message
    case Exited(stdout, stderr) =>
      if stderr != "" then ReportPrefixes(stderr); ErrorPrefix + stderr
      else
        var shown := if stdout != "" then stdout else DefaultSuccess;
        ReportPrefixes(shown); SuccessPrefix + shown
  }

  /** `executeCommand`: rewrites the command through the chain of
      reassignments of `winCommand`, runs it in PowerShell (`run` stands for
      the host: the shell and the command string in, the process outcome
      out) and reports the outcome. */
  method ExecuteCommand(platform: string, command: string, run: (string, string) -> ExecResult)
    returns (result: string)
    ensures result == Report(run(PowerShellExe, PowerShellCommand(platform, command)))
  {
    var winCommand := command;
    if StartsWith(command, "touch ") {
      var filePath := NormalizePath(platform, ReplaceFirst(command, "touch ", ""));
      winCommand := "New-Item -Path \"" + filePath + "\" -ItemType File";
    } else if Includes(command, "echo ") && Includes(command, " > ") {
      var segments := SplitTwo(command, " > ");
      var normalizedPath := NormalizePath(platform, Trim(segments.second.value));
      var escapedContent := EscapeQuotes(ReplaceFirst(segments.first, "echo ", ""));
      winCommand := "\"" + escapedContent + "\" | Out-File -Encoding utf8 \"" + normalizedPath + "\"";
    } else if Includes(command, "mkdir ") {
      var dirPath := NormalizePath(platform, ReplaceFirst(command, "mkdir ", ""));
      winCommand := "New-Item -ItemType Directory -Path \"" + dirPath + "\"";
    }
    var outcome := run(PowerShellExe, winCommand);
    result := Report(outcome);
  }

  /** `writeFileContent`: writes the content to the normalized path (`write`
      stands for the file system and gives the message of the error it
      throws, if any) and reports which path was written. */
  function WriteFileContent(platform: string, filePath: string, content: string,
                            write: (string, string) -> Option<string>): (r: string)
    ensures var failure := write(NormalizePath(platform, filePath), content);
      (failure.None? ==> r == SuccessPrefix + "Content written to " + NormalizePath(platform, filePath)) &&
      (failure.Some? ==> r == ErrorPrefix + failure.value)
    ensures StartsWith(r, SuccessPrefix) <==> write(NormalizePath(platform, filePath), content).None?
  {
    var normalizedPath := NormalizePath(platform, filePath);
    match write(normalizedPath, content)
    case None => ReportPrefixes("Content written to " + normalizedPath); SuccessPrefix + "Content written to " + normalizedPath
    case Some(message) => ReportPrefixes(message); ErrorPrefix + message
  }

  /** What the `while (true)` loop of `runAgent` appends to `History` from
      iteration `i` on, when iteration `j` gets the model's response `rs[j]`
      and the tool it calls settles with `tool(j)`, and how it ends. Nothing
      catches an exception here: a rejected request, an unknown tool name or
      a rejected tool call leaves `runAgent` with no entry for that
      iteration. */
  function Loop(rs: seq<Response>, tool: nat -> ToolOutcome, i: nat): (r: Transcript)
    requires i <= |rs|
    ensures r.status.Stopped? <==> r.entries != [] && r.entries[|r.entries| - 1].ModelText?
    decreases |rs| - i
  {
    if i == |rs| then Transcript([], Waiting)
    else if Continues(rs[i], ToolNames, tool(i)) then
      var call := rs[i].calls[0];
      var rest := Loop(rs, tool, i + 1);
      assert [ModelCall(call), ToolResult(call.name, tool(i).result)] + rest.entries != [];
      Transcript([ModelCall(call), ToolResult(call.name, tool(i).result)] + rest.entries, rest.status)
    else Ending(rs[i], tool(i))
  }

  /** How an iteration that records no call ends `runAgent`, when its tool
      (if any) settled with `outcome`: the `else` branch pushes the text and
      breaks; everything else throws before pushing anything. */
  function Ending(response: Response, outcome: ToolOutcome): (r: Transcript)
    requires !Continues(response, ToolNames, outcome)
    ensures !r.status.Waiting?
    ensures r.status.Stopped? <==> response.Text? || response == Calls([])
    ensures r.status.Stopped? ==> r.entries == [ModelText(ReplyOf(response))]
    ensures r.status.Threw? ==> r.entries == [] && Throws(response, outcome, r.status.message)
  {
    match response
    case Fail(message) => Transcript([], Threw(message))
    case Text(text) => Transcript([ModelText(Some(text))], Stopped)
    case Calls(calls) =>
      if calls == [] then Transcript([ModelText(None)], Stopped)
      else if calls[0].name !in ToolNames then Transcript([], Threw(NotAFunction))
      else Transcript([], Threw(outcome.message))
  }

  /** One iteration whose tool call returns puts its two entries in front
      of what the later iterations append. */
  lemma LoopStep(rs: seq<Response>, tool: nat -> ToolOutcome, i: nat)
    requires i < |rs| && Continues(rs[i], ToolNames, tool(i))
    ensures Loop(rs, tool, i) ==
      Transcript([ModelCall(rs[i].calls[0]), ToolResult(rs[i].calls[0].name, tool(i).result)] + Loop(rs, tool, i + 1).entries,
                 Loop(rs, tool, i + 1).status)
  {
  }

  /** An iteration that does not record a tool call ends the loop: a text
      (or an empty call list) adds its one entry, everything else throws. */
  lemma LoopStops(rs: seq<Response>, tool: nat -> ToolOutcome, i: nat)
    requires i < |rs| && !Continues(rs[i], ToolNames, tool(i))
    ensures rs[i].Text? || rs[i] == Calls([]) ==> Loop(rs, tool, i) == Transcript([ModelText(ReplyOf(rs[i]))], Stopped)
    ensures rs[i].Fail? ==> Loop(rs, tool, i) == Transcript([], Threw(rs[i].message))
    ensures rs[i].Calls? && rs[i].calls != [] && rs[i].calls[0].name !in ToolNames ==>
      Loop(rs, tool, i) == Transcript([], Threw(NotAFunction))
    ensures rs[i].Calls? && rs[i].calls != [] && rs[i].calls[0].name in ToolNames ==>
      Loop(rs, tool, i) == Transcript([], Threw(tool(i).message))
  {
  }

  /** Every function call entry the loop appends is answered at once by a
      result for the same name, and a text entry can only come last; a tool
      call that rejects leaves no call entry behind. */
  lemma {:induction false} LoopExchanges(rs: seq<Response>, tool: nat -> ToolOutcome, i: nat)
    requires i <= |rs|
    ensures Exchanges(Loop(rs, tool, i).entries)
    decreases |rs| - i
  {
    if i < |rs| && Continues(rs[i], ToolNames, tool(i)) {
      LoopStep(rs, tool, i);
      LoopExchanges(rs, tool, i + 1);
      assert Loop(rs, tool, i).entries[2..] == Loop(rs, tool, i + 1).entries;
    }
  }

  /** The entry pair of iteration `j` records the first function call of
      response `j` and the result the tool returned in that iteration; the
      other calls in a response are never recorded. */
  lemma {:induction false} LoopRecordsFirstCall(rs: seq<Response>, tool: nat -> ToolOutcome, i: nat, j: nat)
    requires i <= |rs| && i <= j < Advance(rs, ToolNames, tool, i)
    ensures var es := Loop(rs, tool, i).entries;
      2 * (j - i) + 1 < |es| &&
      es[2 * (j - i)] == ModelCall(rs[j].calls[0]) &&
      es[2 * (j - i) + 1] == ToolResult(rs[j].calls[0].name, tool(j).result)
    decreases j - i
  {
    assert Continues(rs[i], ToolNames, tool(i));
    LoopStep(rs, tool, i);
    var es, rest := Loop(rs, tool, i).entries, Loop(rs, tool, i + 1).entries;
    var pair := [ModelCall(rs[i].calls[0]), ToolResult(rs[i].calls[0].name, tool(i).result)];
    assert es == pair + rest;
    if i < j {
      assert Advance(rs, ToolNames, tool, i + 1) == Advance(rs, ToolNames, tool, i);
      LoopRecordsFirstCall(rs, tool, i + 1, j);
      var d := j - (i + 1);
      assert es[2 * d + 2] == rest[2 * d] && es[2 * d + 3] == rest[2 * d + 1];
    } else {
      assert es[0] == pair[0] && es[1] == pair[1];
    }
  }

  /** When every response from iteration `i` on continues, the loop
      appends their call pairs and is still waiting. */
  lemma {:induction false} LoopWaits(rs: seq<Response>, tool: nat -> ToolOutcome, i: nat)
    requires i <= |rs| && Advance(rs, ToolNames, tool, i) == |rs|
    ensures Loop(rs, tool, i).status == Waiting && |Loop(rs, tool, i).entries| == 2 * (|rs| - i)
    decreases |rs| - i
  {
    if i < |rs| {
      LoopStep(rs, tool, i);
      LoopWaits(rs, tool, i + 1);
    }
  }

  /** Otherwise the loop's entries are the call pairs of the iterations
      before the one `Advance` stops at, followed by what that iteration
      ends the loop with. */
  lemma {:induction false} LoopTail(rs: seq<Response>, tool: nat -> ToolOutcome, i: nat)
    requires i <= |rs| && Advance(rs, ToolNames, tool, i) < |rs|
    ensures var n := Advance(rs, ToolNames, tool, i); var es := Loop(rs, tool, i).entries;
      2 * (n - i) <= |es| &&
      es[2 * (n - i)..] == Ending(rs[n], tool(n)).entries &&
      Loop(rs, tool, i).status == Ending(rs[n], tool(n)).status
    decreases |rs| - i
  {
    if Continues(rs[i], ToolNames, tool(i)) {
      LoopStep(rs, tool, i);
      LoopTail(rs, tool, i + 1);
      var n := Advance(rs, ToolNames, tool, i);
      var es, rest := Loop(rs, tool, i).entries, Loop(rs, tool, i + 1).entries;
      assert es[2 * (n - i)..] == rest[2 * (n - (i + 1))..];
    } else {
      assert Loop(rs, tool, i).entries[0..] == Loop(rs, tool, i).entries;
    }
  }

  /** Why the loop ended, after the iterations up to the one `Advance`
      stops at recorded their call pairs. It is still waiting exactly when
      every response asked for a known tool that returned. Otherwise that
      iteration's response ends it: a text (or an empty call list) adds one
      text entry and breaks; a rejected request, an unknown tool name or a
      rejected tool call throws and adds nothing. */
  lemma LoopEnds(rs: seq<Response>, tool: nat -> ToolOutcome, i: nat)
    requires i <= |rs|
    ensures var Transcript(es, status) := Loop(rs, tool, i); var n := Advance(rs, ToolNames, tool, i);
      (status.Waiting? <==> n == |rs|) &&
      (status.Waiting? ==> |es| == 2 * (n - i)) &&
      (status.Stopped? ==>
         |es| == 2 * (n - i) + 1 && (rs[n].Text? || rs[n] == Calls([])) &&
         es[2 * (n - i)] == ModelText(ReplyOf(rs[n]))) &&
      (status.Threw? ==> |es| == 2 * (n - i) && Throws(rs[n], tool(n), status.message))
  {
    var es := Loop(rs, tool, i).entries;
    var n := Advance(rs, ToolNames, tool, i);
    if n == |rs| {
      LoopWaits(rs, tool, i);
    } else {
      LoopTail(rs, tool, i);
      if Loop(rs, tool, i).status.Stopped? {
        assert es[2 * (n - i)] == es[2 * (n - i)..][0];
      }
    }
  }

  /** The exceptions that leave `runAgent` with `message`: the rejection of
      the model request, V8's error for a name that is not a tool, or the
      rejection of the tool call. */
  predicate Throws(response: Response, outcome: ToolOutcome, message: string) {
    response == Fail(message) ||
    (response.Calls? && response.calls != [] &&
     if response.calls[0].name in ToolNames then outcome == Raised(message) else message == NotAFunction)
  }

  /** The module-wide `History` array, which every call of `runAgent` from
      `main` extends and nothing clears. */
  class Agent {
    var history: seq<Entry>

    constructor ()
      ensures history == []
    {
      history := [];
    }

    /** `runAgent`: appends the user's request, then loops over the model's
        responses until one of them ends the loop. The two entries of a
        function call are appended only once the tool has returned. Entries
        already in the history are kept as they were. */
    method RunAgent(userProblem: string, responses: seq<Response>, tool: nat -> ToolOutcome)
      returns (status: Status)
      modifies this
      ensures history == old(history) + [UserText(userProblem)] + Loop(responses, tool, 0).entries
      ensures status == Loop(responses, tool, 0).status
    {
      history := history + [UserText(userProblem)];
      ghost var start, total := history, Loop(responses, tool, 0);
      // what the iterations from `i` on will append, and how they end
      ghost var rest := total;
      var i := 0;
      while i < |responses|
        invariant 0 <= i <= |responses|
        invariant rest == Loop(responses, tool, i)
        invariant history + rest.entries == start + total.entries && rest.status == total.status
        decreases |responses| - i
      {
        match responses[i] {
          case Fail(message) =>
            // the rejection of the request propagates out of runAgent
            LoopStops(responses, tool, i);
            status := Threw(message);
            return;
          case Text(text) =>
            LoopStops(responses, tool, i);
            history := history + [ModelText(Some(text))];
            status := Stopped;
            return;
          case Calls(calls) =>
            if calls == [] {
              LoopStops(responses, tool, i);
              history := history + [ModelText(None)];
              status := Stopped;
              return;
            }
            var call := calls[0];
            if call.name !in ToolNames {
              // calling `undefined` throws out of runAgent
              LoopStops(responses, tool, i);
              status := Threw(NotAFunction);
              return;
            }
            match tool(i) {
              case Raised(message) =>
                // so does the rejection of the tool call
                LoopStops(responses, tool, i);
                status := Threw(message);
                return;
              case Returned(result) =>
                LoopStep(responses, tool, i);
                ghost var before := history;
                rest := Loop(responses, tool, i + 1);
                history := history + [ModelCall(call)];
                history := history + [ToolResult(call.name, result)];
                AppendTwo(before, ModelCall(call), ToolResult(call.name, result), rest.entries);
            }
        }
        i := i + 1;
      }
      status := Waiting;
    }
  }
}
