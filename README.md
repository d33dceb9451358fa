# Verified model of the two website-builder agents

The repository holds two small Node.js agents. Each asks a hosted language model what to do and carries out the function calls it asks for as shell commands. This project models the parts of them that have logic of their own, and proves properties of that model:

- **Command rewriting.** Unix-style `touch`, `mkdir`, `echo … > …` and `cat … > …` commands are rewritten into PowerShell commands by plain JavaScript string operations. The model reproduces those operations: `startsWith`, `includes`, `replace` with a string (first occurrence only), `replace` with a `/…/g` regular expression (every occurrence), `split(' > ')` destructured into two segments, and `trim`.
- **Reporting.** A run's standard output and standard error become a `Success: …` or `Error: …` text for the model. The second agent has an allow-list of tolerated warnings. The file-writing tool builds its message the same way.
- **History bookkeeping.** `runAgent` appends entries to a module-wide `History` array inside a `while (true)` loop. It appends:
  - one user entry;
  - then, per response, either a function-call entry and its result, or one text entry, after which it stops;
  - in the second agent only, one `Error occurred: …` entry for a caught exception, after which it stops.

Modules:

- `JsString`: the JavaScript string operations. `StartsWith`, `OccursAt` and `IndexOf` are plain definitions; the others carry contracts independent of their bodies.
- `Shell`: what both agents share.
  - The Windows slash rewrite `ToBackslashes`.
  - The PowerShell quote escape. It is proved to put a backtick before every double quote, and `UnescapeQuotes` is proved to undo it. It does not escape backticks, so it does not always keep the content inside its PowerShell string (`Shell.EscapeLeavesBackticks`).
  - The outcome of a child process.
- `Conversation`: the model's responses, the history entries, how a call of `runAgent` ends, and the `exit` test of `main`.
- `WebsiteBuilder`: `Day05/Solution1/index.js`.
  - `executeCommand` is a method that reassigns `winCommand` through the same `if`/`else` chain as the source. It is proved against the function `PowerShellCommand`.
  - `runAgent` is a method of class `Agent`. Its field `history` is the global array.
- `WebProjectBuilder`: `Day05/solution2/index.js`, in the same way. Here `getPlatformSpecificCommand` is a pure function with early returns.

External collaborators are parameters:

- the platform string (`os.platform()`);
- the process runner (`(shell, command) -> ExecResult`);
- the file writer (`(path, content) -> error message or none`);
- the model's answers (a finite sequence of `Response`s);
- how the tool called in loop iteration `i` settles (`tool(i)`): it returns a text, or its promise rejects with a message.

Behaviour of the code that the contracts pin down:

- `History` is one module-wide array that accumulates across `runAgent` calls: every call from `main` extends it and none clears it. `Agent.RunAgent` states its new history in terms of the old one, so the accumulation is captured.
- Command normalization is idempotent in the second agent (`WebProjectBuilder.PlatformCommandIdempotent`) but not in the first. `WebsiteBuilder.PowerShellCommandNotIdempotent` gives one family of inputs, for example `touch echo a > b`.
- A failed model request appends an error text only in the second agent. In the first, the exception escapes `runAgent` and no entry is added (status `Threw`).
- The first agent rewrites commands on every platform and always runs them in `powershell.exe`. Only the slash conversion depends on the platform.
- The first agent's `mkdir` test is substring containment, not a prefix test. For example, `cd x && mkdir y` becomes `New-Item -ItemType Directory -Path "cd x && y"`. The model keeps that.

Edge cases the contracts make explicit:

- In the second agent, `cat > x` has its first ` > ` at index 3. The first segment is then `cat`, which `replace('cat ', '')` leaves unchanged. The command becomes `Get-Content "cat" | …` (`WebProjectBuilder.CatSource`).
- A response with an empty function-call list takes the text branch. It pushes a text entry whose text is `undefined` (`ModelText(None)`).
- An unknown tool name makes `funCall(args)` throw V8's `funCall is not a function`. That is caught in the second agent and escapes `runAgent` in the first.
- A known tool's promise can still reject. For example, a call without `args` makes the destructuring of `{ command }` throw a `TypeError`. In the second agent this adds one `Error occurred: …` entry and no call entry. In the first it escapes `runAgent`.
- In the first agent, an `echo` content of `a`, backtick, quote, `b` escapes to `a`, two backticks, quote, `b`. PowerShell reads the doubled backtick as one backtick, so the quote after it closes the string. A content ending in a backtick escapes the template's closing quote (`Shell.EscapeLeavesBackticks`).

## Model

| member | source | states |
|---|---|---|
| `JsString.IndexFrom` | GenAI-Project/Day05/Day05/Solution1/index.js:28 | `indexOf` from a start index gives the first index at which the pattern occurs, or none when it occurs nowhere after it |
| `JsString.Includes` | GenAI-Project/Day05/Day05/Solution1/index.js:28 | `includes` holds exactly when the pattern occurs at some index |
| `JsString.IncludesAt` | GenAI-Project/Day05/Day05/Solution1/index.js:28 | a pattern occurring at some index makes `includes` true, and the first occurrence is at or before that index |
| `JsString.IncludesInside` | GenAI-Project/Day05/Day05/Solution1/index.js:28 | a pattern inside the middle of a concatenation is found by `includes` in the whole |
| `JsString.RemovePrefix` | GenAI-Project/Day05/Day05/Solution1/index.js:25 | `replace(p, '')` on a string starting with `p` leaves exactly the rest after `p` |
| `JsString.ReplaceFirst` | GenAI-Project/Day05/Day05/Solution1/index.js:25 | `replace` with a string pattern changes nothing when the pattern is absent; otherwise only its first occurrence is replaced: the text before it and after it is kept, and the length changes by the difference of the two lengths |
| `JsString.ReplaceEach` | GenAI-Project/Day05/Day05/Solution1/index.js:15 | a global one-character regex replace leaves no occurrence when the replacement lacks the character; with a one-character replacement it keeps the length and maps each position; it changes nothing when the character is absent |
| `JsString.Trim` | GenAI-Project/Day05/Day05/Solution1/index.js:30 | `trim` gives the slice of the input between its leading and trailing JavaScript white space, neither end of which is white space |
| `JsString.TrimUnchanged` | GenAI-Project/Day05/Day05/solution2/index.js:26 | a string with no white space at either end is left as it is by `trim` |
| `JsString.SplitTwo` | GenAI-Project/Day05/Day05/Solution1/index.js:29 | `split(sep)` destructured into two gives the text before the first separator and the text up to the next separator or the end; the second is undefined exactly when there is no separator |
| `Shell.ReportPrefixes` | GenAI-Project/Day05/Day05/Solution1/index.js:41-44 | helper for both reports: a `Success: ` text never starts with `Error: ` and vice versa, and the text after the prefix is what was put there |
| `Shell.ToBackslashes` | GenAI-Project/Day05/Day05/solution2/index.js:17 | every `/` becomes `\`, every other character and the length are kept |
| `Shell.EscapeQuotes` | GenAI-Project/Day05/Day05/Solution1/index.js:31 | the content escape: every double quote in the result directly follows a backtick, and `UnescapeQuotes` inverts it |
| `Shell.EscapedQuotesGuarded` | GenAI-Project/Day05/Day05/Solution1/index.js:31 | after the global replace of `"` by a backtick-quote, every double quote directly follows a backtick |
| `Shell.EscapeQuotesRoundTrip` | GenAI-Project/Day05/Day05/Solution1/index.js:31 | `UnescapeQuotes`, which reads each backtick-quote pair as a quote, gives the original content back: the replace loses nothing |
| `Shell.EscapeLeavesBackticks` | GenAI-Project/Day05/Day05/Solution1/index.js:31 | weakness of the escape: `a`, backtick, quote, `b` becomes `a`, two backticks, quote, `b`, whose PowerShell string is closed by the quote at index 3; a trailing backtick is left bare |
| `Conversation.Advance` | GenAI-Project/Day05/Day05/Solution1/index.js:139-143 | the first iteration from `i` on whose response does not continue the loop (or the end of the responses): every iteration before it had a first function call naming a known tool that returned, and it does not |
| `Conversation.ExitInAnyCase` | GenAI-Project/Day05/Day05/Solution1/index.js:182 | `toLowerCase() === 'exit'` holds exactly for the four letters e, x, i, t in any mixture of cases |
| `Conversation.LowerAscii` | GenAI-Project/Day05/Day05/Solution1/index.js:182 | `toLowerCase` on ASCII: the length is kept and each upper-case letter becomes its lower-case letter, every other character itself |
| `Conversation.ExitRequested` | GenAI-Project/Day05/Day05/Solution1/index.js:182 | the exit test of `main`, the same in the second agent; only four-character inputs pass, and `ExitInAnyCase` gives exactly which |
| `WebsiteBuilder.NormalizePath` | GenAI-Project/Day05/Day05/Solution1/index.js:14-16 | on `win32` every `/` becomes `\` and nothing else changes; on other platforms the path is returned as it is |
| `WebsiteBuilder.PowerShellCommand` | GenAI-Project/Day05/Day05/Solution1/index.js:21-37 | `touch ` prefix gives `New-Item -Path "<rest>" -ItemType File`; else `echo ` and ` > ` anywhere give the escaped first segment without `echo `, in quotes, piped into `Out-File -Encoding utf8` with the trimmed second segment as path; else `mkdir ` anywhere, with its first occurrence cut out, gives `New-Item -ItemType Directory -Path "<p>"`; otherwise the command unchanged; paths normalized |
| `WebsiteBuilder.TouchCommand` | GenAI-Project/Day05/Day05/Solution1/index.js:24-26 | `touch <name>` creates the file named by the whole rest of the command |
| `WebsiteBuilder.EchoBranchQuoted` | GenAI-Project/Day05/Day05/Solution1/index.js:28-32 | the echo branch yields a command beginning with a double quote |
| `WebsiteBuilder.PowerShellCommandNotIdempotent` | GenAI-Project/Day05/Day05/Solution1/index.js:21-37 | a `touch` of a name holding `echo ` and ` > ` yields a `New-Item` command that a second rewrite changes again |
| `WebsiteBuilder.RewrittenAgain` | GenAI-Project/Day05/Day05/Solution1/index.js:24-32 | a command starting with `N` that holds `echo ` and ` > ` is changed by the rewrite |
| `WebsiteBuilder.PowerShellCommandNotIdempotentExample` | GenAI-Project/Day05/Day05/Solution1/index.js:24-32 | `touch echo a > b` is such a command |
| `WebsiteBuilder.Report` | GenAI-Project/Day05/Day05/Solution1/index.js:39-47 | a rejected run or non-empty stderr gives `Error: ` with that message; otherwise `Success: ` with stdout, or the default text when stdout is empty (both directions) |
| `WebsiteBuilder.ExecuteCommand` | GenAI-Project/Day05/Day05/Solution1/index.js:19-48 | the command run, always in `powershell.exe`, is the rewritten one, and the result is the report of that run |
| `WebsiteBuilder.WriteFileContent` | GenAI-Project/Day05/Day05/Solution1/index.js:51-59 | the content is written to the normalized path; success gives `Success: Content written to <normalized path>`, a failure `Error: <message>`, and `Success: ` exactly when the write did not fail |
| `WebsiteBuilder.Loop` | GenAI-Project/Day05/Day05/Solution1/index.js:107-173 | the loop stopped exactly when its last appended entry is a model text; a rejected request, an unknown tool or a rejected tool call throws |
| `WebsiteBuilder.Ending` | GenAI-Project/Day05/Day05/Solution1/index.js:139-172 | an iteration that records no call never leaves the loop waiting; it stops exactly for a text or an empty call list, with one text entry; otherwise it throws without an entry, with the request's rejection, V8's message for an unknown tool, or the tool call's rejection |
| `WebsiteBuilder.LoopStep` | GenAI-Project/Day05/Day05/Solution1/index.js:139-164 | an iteration whose tool call returns puts its call entry and result entry before everything later iterations append |
| `WebsiteBuilder.LoopStops` | GenAI-Project/Day05/Day05/Solution1/index.js:139-172 | an iteration that records no call ends the loop. A text or an empty call list adds one text entry and stops. A rejected request throws its message, an unknown tool throws V8's message, and a rejected tool call throws its message; these three add nothing |
| `WebsiteBuilder.LoopExchanges` | GenAI-Project/Day05/Day05/Solution1/index.js:139-172 | every appended function-call entry is immediately followed by a result entry for the same name, even when a tool call rejects; a text entry can only be last |
| `WebsiteBuilder.LoopRecordsFirstCall` | GenAI-Project/Day05/Day05/Solution1/index.js:139-164 | the entry pair of iteration `j`, counted from the loop's start `i`, is the first function call of response `j` and the text the tool returned in iteration `j` |
| `WebsiteBuilder.LoopWaits` | GenAI-Project/Day05/Day05/Solution1/index.js:107-164 | when every remaining response calls a known tool that returns, the loop appends two entries per iteration and is still waiting |
| `WebsiteBuilder.LoopTail` | GenAI-Project/Day05/Day05/Solution1/index.js:107-173 | otherwise the loop's entries after the call pairs, and its status, are those of `Ending` for the response `Advance` stops at |
| `WebsiteBuilder.LoopEnds` | GenAI-Project/Day05/Day05/Solution1/index.js:107-173 | after the recorded calls the next response ends the loop. A text adds one entry and stops. A rejected request, an unknown tool or a rejected tool call throws with its message and adds nothing. The loop still waits only if every response called a known tool that returned |
| `WebsiteBuilder.Agent.constructor` | GenAI-Project/Day05/Day05/Solution1/index.js:10 | the history starts empty |
| `WebsiteBuilder.Agent.RunAgent` | GenAI-Project/Day05/Day05/Solution1/index.js:101-174 | the new history is the old one, unchanged, plus one user entry plus exactly what the loop appends; the status is the loop's |
| `WebProjectBuilder.PlatformCommand` | GenAI-Project/Day05/Day05/solution2/index.js:13-31 | identity off `win32`; on `win32`, prefixes `touch `, `mkdir `, `cat ` with ` > ` give the `New-Item` commands and `Get-Content` piped into `Out-File` with slashes turned into backslashes and segments trimmed; other commands unchanged |
| `WebProjectBuilder.CatSource` | GenAI-Project/Day05/Day05/solution2/index.js:24-26 | the first ` > ` of a `cat ` command is at index 3 or later; at 3 the source stays `cat`, later it is the text between `cat ` and the separator |
| `WebProjectBuilder.Unmatched` | GenAI-Project/Day05/Day05/solution2/index.js:30 | a command whose first character starts no pattern is returned unchanged |
| `WebProjectBuilder.RewrittenHead` | GenAI-Project/Day05/Day05/solution2/index.js:18-27 | a changed command begins with `N` (`New-Item`) or `G` (`Get-Content`) |
| `WebProjectBuilder.PlatformCommandIdempotent` | GenAI-Project/Day05/Day05/solution2/index.js:13-31 | rewriting a rewritten command changes nothing |
| `WebProjectBuilder.PlatformCommandChanges` | GenAI-Project/Day05/Day05/solution2/index.js:13-31 | a command is changed exactly when the platform is `win32` and one of the three patterns matches |
| `WebProjectBuilder.MatchedHead` | GenAI-Project/Day05/Day05/solution2/index.js:16-28 | on Windows a command matching one of the three patterns is rewritten into one beginning with `N` or `G` |
| `WebProjectBuilder.Tolerated` | GenAI-Project/Day05/Day05/solution2/index.js:44 | the allow-list holds exactly when `ObjectNotFound` or `CommandNotFoundException` occurs somewhere in the standard error |
| `WebProjectBuilder.Report` | GenAI-Project/Day05/Day05/solution2/index.js:42-51 | `Error: ` exactly for a rejected run or a non-empty stderr that mentions neither `ObjectNotFound` nor `CommandNotFoundException`; otherwise `Success: ` with stdout or the default text |
| `WebProjectBuilder.ReportTolerates` | GenAI-Project/Day05/Day05/solution2/index.js:42-48 | this report differs from the first agent's exactly on a non-empty stderr mentioning an allow-listed warning |
| `WebProjectBuilder.ExecuteCommand` | GenAI-Project/Day05/Day05/solution2/index.js:34-52 | on `win32` the rewritten command runs in `powershell.exe`, elsewhere the unchanged command runs in `/bin/bash`; the result is the report of that run |
| `WebProjectBuilder.Loop` | GenAI-Project/Day05/Day05/solution2/index.js:79-170 | the loop never lets an exception out, and it stopped exactly when its last appended entry is a model text |
| `WebProjectBuilder.FinalEntry` | GenAI-Project/Day05/Day05/solution2/index.js:154-168 | the entry that ends the loop is always a model text; it is `undefined` exactly for an empty call list, is the model's text for a text answer, and otherwise is `Error occurred: ` followed by the caught exception's message (`Caught`): the rejected request's message, V8's message for an unknown tool, or the tool call's rejection |
| `WebProjectBuilder.ErrorEntry` | GenAI-Project/Day05/Day05/solution2/index.js:162-167 | the entry the `catch` pushes is a model text of `Error occurred: ` followed by exactly the exception's message |
| `WebProjectBuilder.LoopStep` | GenAI-Project/Day05/Day05/solution2/index.js:139-153 | an iteration whose tool call returns puts its two entries before everything later iterations append |
| `WebProjectBuilder.LoopStops` | GenAI-Project/Day05/Day05/solution2/index.js:139-169 | an iteration that records no call adds its one `FinalEntry` text and stops |
| `WebProjectBuilder.LoopExchanges` | GenAI-Project/Day05/Day05/solution2/index.js:139-168 | every appended function-call entry is immediately followed by its result; a rejected tool call leaves no partial call entry; a text entry can only be last |
| `WebProjectBuilder.LoopRecordsFirstCall` | GenAI-Project/Day05/Day05/solution2/index.js:139-153 | the entry pair of iteration `j`, counted from the loop's start `i`, is the first function call of response `j` and the text the tool returned in iteration `j` |
| `WebProjectBuilder.LoopWaits` | GenAI-Project/Day05/Day05/solution2/index.js:79-153 | when every remaining response calls the tool and it returns, the loop appends two entries per iteration and is still waiting |
| `WebProjectBuilder.LoopTail` | GenAI-Project/Day05/Day05/solution2/index.js:79-170 | otherwise the loop's entries after the call pairs are the one `FinalEntry` of the response `Advance` stops at, and the loop has stopped |
| `WebProjectBuilder.LoopEnds` | GenAI-Project/Day05/Day05/solution2/index.js:79-170 | after the recorded calls the next response adds exactly one text entry and stops. That entry is its text, undefined, or `Error occurred: ` with the message of the rejected request, the rejected tool call or V8. The loop waits only if every response called the tool and it returned |
| `WebProjectBuilder.Agent.constructor` | GenAI-Project/Day05/Day05/solution2/index.js:9 | the history starts empty |
| `WebProjectBuilder.Agent.RunAgent` | GenAI-Project/Day05/Day05/solution2/index.js:73-171 | the new history is the old one, unchanged, plus one user entry plus exactly what the loop appends; the status is the loop's |

## Left out

- `WebsiteBuilder.ExecuteCommand`, `WebsiteBuilder.WriteFileContent`, `WebProjectBuilder.ExecuteCommand`: they take their arguments as strings, so a missing or non-string `command`, `filePath` or `content` is outside their domain. The source then fails in `command.startsWith`, `path.replace` or `exec(undefined)` and its `catch` reports `Error: <TypeError message>`; the model does not produce that report.
- The language-model service (`ai.models.generateContent`) is an external service. Its answers are an input sequence of `Response`s. Model name, system instruction and tool declarations are constants with no behaviour.
- The loop runs while responses last. When they run out before a final answer, `RunAgent` returns `Waiting`. The source instead asks the model again, possibly forever; it has no iteration bound.
- The host is out: `child_process.exec`, `fs.promises.writeFile` and `os.platform()` are parameters. What PowerShell or bash then do with a command is not modelled. The one exception is `Shell.ClosingQuote`, where PowerShell ends a double-quoted string; it is used only to show the weakness of the escape.
- How a tool call settles is the parameter `tool(i)`. The loop model does not link it to `ExecuteCommand` or `WriteFileContent`, which are modelled on their own. So which arguments make a call reject (a missing `args`, say) is not derived. Tool arguments are a string map.
- The property names that a JavaScript object inherits (`toString`, `constructor`, …) are treated as unknown tool names. In the source, `availableTools[name]` finds a function for them.
- In the first agent, an exception escaping `runAgent` ends `main` and the process. The model stops at the `Threw` status.
- Input and output are out: `readlineSync`, `console.log` and `console.error`. The prompt loop of `main` is reduced to its `exit` test.
- async/await is modelled as sequential code; nothing runs concurrently.
- Strings are sequences of Unicode scalar values, not UTF-16 code units. Every pattern searched for is ASCII and every white-space character is in the Basic Multilingual Plane, so the results agree.
- `trim` uses the ECMAScript white-space and line-terminator characters, with category Zs at its present membership.
- `Conversation.ExitInAnyCase`: the model lower-cases ASCII letters only. JavaScript lower-cases all of Unicode, which matters only for a character whose lower-case form is one of e, x, i, t.
- `Day05/Solution1/todo-app/script.js` (DOM event wiring) is not part of this model.
- `Day01and02/GenAI/index.js` (a chat loop with no logic of its own) is not part of this model.
