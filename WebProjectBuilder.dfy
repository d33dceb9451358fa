/** The "Web Project Builder" agent (solution2/index.js): it rewrites
    Unix-style commands only on Windows, picks the shell by platform,
    tolerates two kinds of PowerShell warning on standard error, offers a
    single tool, and catches every exception of an iteration of its loop as
    a model text entry. */
module WebProjectBuilder {
  import opened JsString
  import opened Shell
  import opened Conversation
  import WebsiteBuilder

  /** The keys of `availableTools`. */
  const ToolNames: set<string> := {"executeCommand"}

  /** What the `catch` of `runAgent` puts before the exception's message. */
  const ErrorOccurred := "Error occurred: "

  /** `getPlatformSpecificCommand`: on Windows a `touch `, `mkdir ` or
      `cat … > …` command (tested in this order, all as prefixes) becomes
      the PowerShell command doing the same, with forward slashes turned
      into backslashes; every other command, and every command on another
      platform, is returned unchanged. */
  function PlatformCommand(platform: string, command: string): (r: string)
    ensures platform != Win32 ==> r == command
    ensures platform == Win32 && StartsWith(command, "touch ") ==>
      r == "New-Item -Path \"" + ToBackslashes(command[6..]) + "\" -ItemType File"
    ensures (platform == Win32 && !StartsWith(command, "touch ") && StartsWith(command, "mkdir ")) ==>
      r == "New-Item -ItemType Directory -Path \"" + ToBackslashes(command[6..]) + "\""
    ensures (platform == Win32 && !StartsWith(command, "touch ") && !StartsWith(command, "mkdir ") &&
             StartsWith(command, "cat ") && Includes(command, " > ")) ==>
      var k := IndexOf(command, " > ").value;
      var source := if k < 4 then "cat" else Trim(command[4..k]);
      var target := SplitTwo(command, " > ").second.value;
      3 <= k &&
      r == "Get-Content \"" + ToBackslashes(source) + "\" | Out-File -Encoding utf8 \"" +
           ToBackslashes(Trim(target)) + "\""
    ensures (platform == Win32 && !StartsWith(command, "touch ") && !StartsWith(command, "mkdir ") &&
             !(StartsWith(command, "cat ") && Includes(command, " > "))) ==> r == command
  {
    if platform == Win32 then
      if StartsWith(command, "touch ") then
        RemovePrefix(command, "touch ");
        var filePath := ToBackslashes(ReplaceFirst(command, "touch ", ""));
        "New-Item -Path \"" + filePath + "\" -ItemType File"
      else if StartsWith(command, "mkdir ") then
        RemovePrefix(command, "mkdir ");
        var dirPath := ToBackslashes(ReplaceFirst(command, "mkdir ", ""));
        "New-Item -ItemType Directory -Path \"" + dirPath + "\""
      else if StartsWith(command, "cat ") && Includes(command, " > ") then
        var segments := SplitTwo(command, " > ");
        CatSource(command);
        TrimUnchanged("cat");
        var contentFile := Trim(ReplaceFirst(segments.first, "cat ", ""));
        "Get-Content \"" + ToBackslashes(contentFile) + "\" | Out-File -Encoding utf8 \"" +
          ToBackslashes(Trim(segments.second.value)) + "\""
      else
        command
    else
      command
  }

  /** In a `cat ` command the first ` > ` is at index 3 at the earliest.
      Only there (`cat > …`) does the first segment lose the trailing space
      of `cat `, so that `replace('cat ', '')` leaves it as `cat`. */
  lemma CatSource(command: string)
    requires StartsWith(command, "cat ") && Includes(command, " > ")
    ensures var k := IndexOf(command, " > ").value;
      3 <= k &&
      ReplaceFirst(SplitTwo(command, " > ").first, "cat ", "") == if k == 3 then "cat" else command[4..k]
  {
    var k := IndexOf(command, " > ").value;
    var first := SplitTwo(command, " > ").first;
    assert command[k..k + 3] == " > " && command[..4] == "cat ";
    assert command[k] == command[k..k + 3][0] == ' ';
    assert first == command[..k];
    if k == 3 {
      assert IndexOf(first, "cat ") == None;
    } else {
      assert first[..4] == command[..4];
      RemovePrefix(first, "cat ");
    }
  }

  /** A command whose first character starts no pattern is left alone. */
  lemma Unmatched(platform: string, command: string)
    requires command != [] && command[0] != 't' && command[0] != 'm' && command[0] != 'c'
    ensures PlatformCommand(platform, command) == command
  {
    assert !StartsWith(command, "touch ") && !StartsWith(command, "mkdir ") && !StartsWith(command, "cat ");
  }

  /** A rewritten command begins with `New-Item` or `Get-Content`. */
  lemma RewrittenHead(platform: string, command: string)
    ensures var r := PlatformCommand(platform, command);
      r == command || (r != [] && (r[0] == 'N' || r[0] == 'G'))
  {
  }

  /** No pattern matches a rewritten command, so rewriting twice is
      rewriting once. */
  lemma PlatformCommandIdempotent(platform: string, command: string)
    ensures PlatformCommand(platform, PlatformCommand(platform, command)) == PlatformCommand(platform, command)
  {
    var r := PlatformCommand(platform, command);
    RewrittenHead(platform, command);
    if r != command {
      Unmatched(platform, r);
    }
  }

  /** A command is changed exactly when the platform is Windows and one of
      the three patterns matches it. */
  lemma PlatformCommandChanges(platform: string, command: string)
    ensures PlatformCommand(platform, command) != command <==>
      platform == Win32 &&
      (StartsWith(command, "touch ") || StartsWith(command, "mkdir ") ||
       (StartsWith(command, "cat ") && Includes(command, " > ")))
  {
    if platform == Win32 && (StartsWith(command, "touch ") || StartsWith(command, "mkdir ") ||
                             (StartsWith(command, "cat ") && Includes(command, " > "))) {
      assert command[0] == 't' || command[0] == 'm' || command[0] == 'c';
      MatchedHead(command);
    }
  }

  /** On Windows a command matching a pattern is rewritten into one
      beginning with `N` or `G`. */
  lemma MatchedHead(command: string)
    requires StartsWith(command, "touch ") || StartsWith(command, "mkdir ") ||
             (StartsWith(command, "cat ") && Includes(command, " > "))
    ensures var r := PlatformCommand(Win32, command); r != [] && (r[0] == 'N' || r[0] == 'G')
  {
  }

  /** The standard-error texts that the allow-list treats as harmless. */
  predicate Tolerated(stderr: string): (b: bool)
    ensures b <==> (exists k: nat :: OccursAt(stderr, "ObjectNotFound", k)) ||
                   (exists k: nat :: OccursAt(stderr, "CommandNotFoundException", k))
  {
    Includes(stderr, "ObjectNotFound") || Includes(stderr, "CommandNotFoundException")
  }

  /** The text `executeCommand` returns for what the process gave back:
      standard-error output is an error unless it mentions one of the
      allow-listed PowerShell warnings. */
  function Report(run: ExecResult): (r: string)
    ensures StartsWith(r, ErrorPrefix) <==> run.Rejected? || (run.stderr != "" && !Tolerated(run.stderr))
    ensures StartsWith(r, SuccessPrefix) <==> run.Exited? && (run.stderr == "" || Tolerated(run.stderr))
    ensures run.Rejected? ==> r[|ErrorPrefix|..] == run.message
    ensures run.Exited? && run.stderr != "" && !Tolerated(run.stderr) ==> r[|ErrorPrefix|..] == run.stderr
    ensures run.Exited? && (run.stderr == "" || Tolerated(run.stderr)) ==>
      r[|SuccessPrefix|..] == if run.stdout != "" then run.stdout else DefaultSuccess
  {
    match run
    case Rejected(message) => ReportPrefixes(message); ErrorPrefix + message
    case Exited(stdout, stderr) =>
      if stderr != "" && !Includes(stderr, "ObjectNotFound") && !Includes(stderr, "CommandNotFoundException") then
        ReportPrefixes(stderr); ErrorPrefix + stderr
      else
        var shown := if stdout != "" then stdout else DefaultSuccess;
        ReportPrefixes(shown); SuccessPrefix + shown
  }

  /** The allow-list is the only difference from the first agent's report:
      the two agree except on standard error that mentions a tolerated
      warning, which this one reports as a success. */
  lemma ReportTolerates(run: ExecResult)
    ensures Report(run) != WebsiteBuilder.Report(run) <==> run.Exited? && run.stderr != "" && Tolerated(run.stderr)
  {
    if run.Exited? && run.stderr != "" && Tolerated(run.stderr) {
      assert StartsWith(Report(run), SuccessPrefix);
      assert !StartsWith(WebsiteBuilder.Report(run), SuccessPrefix);
    }
  }

  /** `executeCommand`: a command runs in `powershell.exe` on Windows,
      rewritten, and in `/bin/bash` elsewhere, unchanged (`run` stands for
      the host: the shell and the command string in, the process outcome
      out). */
  function ExecuteCommand(platform: string, command: string, run: (string, string) -> ExecResult): (r: string)
    ensures platform == Win32 ==> r == Report(run("powershell.exe", PlatformCommand(platform, command)))
    ensures platform != Win32 ==> r == Report(run("/bin/bash", command))
  {
    var platformCommand := PlatformCommand(platform, command);
    var shell := if platform == Win32 then "powershell.exe" else "/bin/bash";
    Report(run(shell, platformCommand))
  }

  /** The text entry a response that ends the loop adds, when the tool it
      calls (if any) settled with `outcome`: the model's text, `undefined`
      for an empty call list, or the caught exception's message after
      `Error occurred: `. */
  function FinalEntry(response: Response, outcome: ToolOutcome): (e: Entry)
    requires !Continues(response, ToolNames, outcome)
    ensures e.ModelText?
    ensures e.reply.None? <==> response == Calls([])
    ensures response.Text? ==> e.reply == Some(response.text)
    ensures !response.Text? && response != Calls([]) ==>
      StartsWith(e.reply.value, ErrorOccurred) && Caught(response, outcome, e.reply.value[|ErrorOccurred|..])
  {
    match response
    case Fail(message) => ErrorEntry(message)
    case Calls(calls) =>
      if calls == [] then ModelText(None)
      else if calls[0].name !in ToolNames then ErrorEntry(NotAFunction)
      else ErrorEntry(outcome.message)
    case Text(text) => ModelText(Some(text))
  }

  /** The entry the `catch` of an iteration pushes for an exception with
      `message`. */
  function ErrorEntry(message: string): (e: Entry)
    ensures e.ModelText? && e.reply.Some?
    ensures StartsWith(e.reply.value, ErrorOccurred) && e.reply.value[|ErrorOccurred|..] == message
  {
    assert (ErrorOccurred + message)[..|ErrorOccurred|] == ErrorOccurred;
    ModelText(Some(ErrorOccurred + message))
  }

  /** The exceptions the `catch` of an iteration receives with `message`:
      the rejection of the model request, V8's error for a name that is not
      a tool, or the rejection of the tool call. */
  predicate Caught(response: Response, outcome: ToolOutcome, message: string) {
    response == Fail(message) ||
    (response.Calls? && response.calls != [] &&
     if response.calls[0].name in ToolNames then outcome == Raised(message) else message == NotAFunction)
  }

  /** What the `while (true)` loop of `runAgent` appends to `History` from
      iteration `i` on, when iteration `j` gets the model's response `rs[j]`
      and the tool it calls settles with `tool(j)`. A rejected request, an
      unknown tool name and a rejected tool call are caught inside the
      iteration: each adds one model text and ends the loop. */
  function Loop(rs: seq<Response>, tool: nat -> ToolOutcome, i: nat): (r: Transcript)
    requires i <= |rs|
    ensures !r.status.Threw?
    ensures r.status.Stopped? <==> r.entries != [] && r.entries[|r.entries| - 1].ModelText?
    decreases |rs| - i
  {
    if i == |rs| then Transcript([], Waiting)
    else if Continues(rs[i], ToolNames, tool(i)) then
      var call := rs[i].calls[0];
      var rest := Loop(rs, tool, i + 1);
      assert [ModelCall(call), ToolResult(call.name, tool(i).result)] + rest.entries != [];
      Transcript([ModelCall(call), ToolResult(call.name, tool(i).result)] + rest.entries, rest.status)
    else Transcript([FinalEntry(rs[i], tool(i))], Stopped)
  }

  /** One iteration whose tool call returns puts its two entries in front
      of what the later iterations append. */
  lemma LoopStep(rs: seq<Response>, tool: nat -> ToolOutcome, i: nat)
    requires i < |rs| && Continues(rs[i], ToolNames, tool(i))
    ensures Loop(rs, tool, i) ==
      Transcript([ModelCall(rs[i].calls[0]), ToolResult(rs[i].calls[0].name, tool(i).result)] + Loop(rs, tool, i + 1).entries,
                 Loop(rs, tool, i + 1).status)
  {
  }

  /** An iteration that does not record a tool call adds its one text entry
      and ends the loop. */
  lemma LoopStops(rs: seq<Response>, tool: nat -> ToolOutcome, i: nat)
    requires i < |rs| && !Continues(rs[i], ToolNames, tool(i))
    ensures Loop(rs, tool, i) == Transcript([FinalEntry(rs[i], tool(i))], Stopped)
  {
  }

  /** Every function call entry the loop appends is answered at once by a
      result for the same name, and a text entry can only come last: no
      call entry is ever left without its result, even when the tool call
      rejects. */
  lemma {:induction false} LoopExchanges(rs: seq<Response>, tool: nat -> ToolOutcome, i: nat)
    requires i <= |rs|
    ensures Exchanges(Loop(rs, tool, i).entries)
    decreases |rs| - i
  {
    if i < |rs| && Continues(rs[i], ToolNames, tool(i)) {
      LoopStep(rs, tool, i);
      LoopExchanges(rs, tool, i + 1);
      assert Loop(rs, tool, i).entries[2..] == Loop(rs, tool, i + 1).entries;
    }
  }

  /** The entry pair of iteration `j` records the first function call of
      response `j` and the result the tool returned in that iteration. */
  lemma {:induction false} LoopRecordsFirstCall(rs: seq<Response>, tool: nat -> ToolOutcome, i: nat, j: nat)
    requires i <= |rs| && i <= j < Advance(rs, ToolNames, tool, i)
    ensures var es := Loop(rs, tool, i).entries;
      2 * (j - i) + 1 < |es| &&
      es[2 * (j - i)] == ModelCall(rs[j].calls[0]) &&
      es[2 * (j - i) + 1] == ToolResult(rs[j].calls[0].name, tool(j).result)
    decreases j - i
  {
    assert Continues(rs[i], ToolNames, tool(i));
    LoopStep(rs, tool, i);
    var es, rest := Loop(rs, tool, i).entries, Loop(rs, tool, i + 1).entries;
    var pair := [ModelCall(rs[i].calls[0]), ToolResult(rs[i].calls[0].name, tool(i).result)];
    assert es == pair + rest;
    if i < j {
      assert Advance(rs, ToolNames, tool, i + 1) == Advance(rs, ToolNames, tool, i);
      LoopRecordsFirstCall(rs, tool, i + 1, j);
      var d := j - (i + 1);
      assert es[2 * d + 2] == rest[2 * d] && es[2 * d + 3] == rest[2 * d + 1];
    } else {
      assert es[0] == pair[0] && es[1] == pair[1];
    }
  }

  /** When every response from iteration `i` on continues, the loop
      appends their call pairs and is still waiting. */
  lemma {:induction false} LoopWaits(rs: seq<Response>, tool: nat -> ToolOutcome, i: nat)
    requires i <= |rs| && Advance(rs, ToolNames, tool, i) == |rs|
    ensures Loop(rs, tool, i).status == Waiting && |Loop(rs, tool, i).entries| == 2 * (|rs| - i)
    decreases |rs| - i
  {
    if i < |rs| {
      LoopStep(rs, tool, i);
      LoopWaits(rs, tool, i + 1);
    }
  }

  /** Otherwise the loop's entries are the call pairs of the iterations
      before the one `Advance` stops at, followed by that iteration's one
      text entry. */
  lemma {:induction false} LoopTail(rs: seq<Response>, tool: nat -> ToolOutcome, i: nat)
    requires i <= |rs| && Advance(rs, ToolNames, tool, i) < |rs|
    ensures var n := Advance(rs, ToolNames, tool, i); var es := Loop(rs, tool, i).entries;
      2 * (n - i) <= |es| &&
      es[2 * (n - i)..] == [FinalEntry(rs[n], tool(n))] &&
      Loop(rs, tool, i).status == Stopped
    decreases |rs| - i
  {
    if Continues(rs[i], ToolNames, tool(i)) {
      LoopStep(rs, tool, i);
      LoopTail(rs, tool, i + 1);
      var n := Advance(rs, ToolNames, tool, i);
      var es, rest := Loop(rs, tool, i).entries, Loop(rs, tool, i + 1).entries;
      assert es[2 * (n - i)..] == rest[2 * (n - (i + 1))..];
    } else {
      assert Loop(rs, tool, i).entries[0..] == Loop(rs, tool, i).entries;
    }
  }

  /** Why the loop ended, after the iterations up to the one `Advance`
      stops at recorded their call pairs. It is still waiting exactly when
      every response asked for the tool and the tool returned; otherwise
      that iteration's response, whatever it is and however the tool
      settles, adds exactly one text entry and ends the loop. */
  lemma LoopEnds(rs: seq<Response>, tool: nat -> ToolOutcome, i: nat)
    requires i <= |rs|
    ensures var Transcript(es, status) := Loop(rs, tool, i); var n := Advance(rs, ToolNames, tool, i);
      (status.Waiting? <==> n == |rs|) &&
      (status.Waiting? ==> |es| == 2 * (n - i)) &&
      (status.Stopped? ==> |es| == 2 * (n - i) + 1 && es[2 * (n - i)] == FinalEntry(rs[n], tool(n)))
  {
    var es := Loop(rs, tool, i).entries;
    var n := Advance(rs, ToolNames, tool, i);
    if n == |rs| {
      LoopWaits(rs, tool, i);
    } else {
      LoopTail(rs, tool, i);
      assert es[2 * (n - i)] == es[2 * (n - i)..][0];
    }
  }

  /** The module-wide `History` array, which every call of `runAgent` from
      `main` extends and nothing clears. */
  class Agent {
    var history: seq<Entry>

    constructor ()
      ensures history == []
    {
      history := [];
    }

    /** `runAgent`: appends the user's request, then loops over the model's
        responses until one of them ends the loop. The two entries of a
        function call are appended only once the tool has returned, and an
        exception adds one text entry instead. Entries already in the
        history are kept as they were. */
    method RunAgent(userProblem: string, responses: seq<Response>, tool: nat -> ToolOutcome)
      returns (status: Status)
      modifies this
      ensures history == old(history) + [UserText(userProblem)] + Loop(responses, tool, 0).entries
      ensures status == Loop(responses, tool, 0).status
    {
      history := history + [UserText(userProblem)];
      ghost var start, total := history, Loop(responses, tool, 0);
      // what the iterations from `i` on will append, and how they end
      ghost var rest := total;
      var i := 0;
      while i < |responses|
        invariant 0 <= i <= |responses|
        invariant rest == Loop(responses, tool, i)
        invariant history + rest.entries == start + total.entries && rest.status == total.status
        decreases |responses| - i
      {
        // the message of the exception the iteration's `catch` receives
        var failure: Option<string> := None;
        match responses[i] {
          case Fail(message) =>
            failure := Some(message);
          case Text(text) =>
            LoopStops(responses, tool, i);
            history := history + [ModelText(Some(text))];
            status := Stopped;
            return;
          case Calls(calls) =>
            if calls == [] {
              LoopStops(responses, tool, i);
              history := history + [ModelText(None)];
              status := Stopped;
              return;
            }
            var call := calls[0];
            if call.name !in ToolNames {
              failure := Some(NotAFunction);
            } else {
              match tool(i) {
                case Raised(message) =>
                  failure := Some(message);
                case Returned(result) =>
                  LoopStep(responses, tool, i);
                  ghost var before := history;
                  rest := Loop(responses, tool, i + 1);
                  history := history + [ModelCall(call)];
                  history := history + [ToolResult(call.name, result)];
                  AppendTwo(before, ModelCall(call), ToolResult(call.name, result), rest.entries);
              }
            }
        }
        if failure.Some? {
          LoopStops(responses, tool, i);
          history := history + [ErrorEntry(failure.value)];
          status := Stopped;
          return;
        }
        i := i + 1;
      }
      status := Waiting;
    }
  }
}
