/** The conversation both agents keep with the language model: the
    entries of the `History` array, the model's responses as the agent loop
    sees them, and how a call of `runAgent` ends. */
module Conversation {
  import opened JsString

  /** A function call the model requests: a tool name and its arguments. */
  datatype Call = Call(name: string, args: map<string, string>)

  /** One answer of the model service: function calls, a text, or a
      rejection of the request with an error message. */
  datatype Response = Calls(calls: seq<Call>) | Text(text: string) | Fail(message: string)

  /** An element of `History`; its role ('user' or 'model') is fixed by
      the kind of entry. */
  datatype Entry =
    | UserText(text: string)                   // role 'user', a text part
    | ModelText(reply: Option<string>)         // role 'model', a text part (None: `undefined`)
    | ModelCall(call: Call)                    // role 'model', a functionCall part
    | ToolResult(name: string, result: string) // role 'user', a functionResponse part

  /** How a call of `runAgent` ends: it broke out of its loop, an exception
      escaped it, or it is still waiting for the model (the given responses
      ran out before the loop ended). */
  datatype Status = Stopped | Threw(message: string) | Waiting

  /** What one call of `runAgent`'s loop appends to the history, and how it
      ends. */
  datatype Transcript = Transcript(entries: seq<Entry>, status: Status)

  /** The shape of what one loop appends after the user's entry: function
      call entries each answered at once by the result of that function,
      then at most one model text, which is last. */
  predicate Exchanges(es: seq<Entry>)
    decreases |es|
  {
    if es == [] then true
    else if es[0].ModelCall? then
      |es| >= 2 && es[1].ToolResult? && es[1].name == es[0].call.name && Exchanges(es[2..])
    else
      es[0].ModelText? && |es| == 1
  }

  /** Pushing two entries one by one and then the rest is appending the
      pair followed by the rest. */
  lemma AppendTwo(h: seq<Entry>, a: Entry, b: Entry, rest: seq<Entry>)
    ensures h + [a] + [b] + rest == h + ([a, b] + rest)
  {
  }

  /** V8's message when `funCall(args)` is reached with a tool name that is
      not a key of `availableTools`, so that `funCall` is `undefined`. */
  const NotAFunction := "funCall is not a function"

  /** How `await funCall(args)` settles for a known tool: with the text it
      returns, or with the message of the error its promise rejects with.
      Both tools catch every error of their own work, so a rejection comes
      from destructuring `args` (a call without arguments). */
  datatype ToolOutcome = Returned(result: string) | Raised(message: string)

  /** A response after which the loop records a tool call and asks the
      model again: it has a function call, the first one names a tool, and
      that tool returned. */
  predicate Continues(response: Response, tools: set<string>, outcome: ToolOutcome) {
    response.Calls? && response.calls != [] && response.calls[0].name in tools && outcome.Returned?
  }

  /** How far the loop gets from iteration `i` on, when iteration `j`
      answers response `rs[j]` and its tool settles with `tool(j)`: the
      first iteration whose response does not continue it, or `|rs|` when
      every response does. */
  function Advance(rs: seq<Response>, tools: set<string>, tool: nat -> ToolOutcome, i: nat): (n: nat)
    requires i <= |rs|
    ensures i <= n <= |rs|
    ensures forall j :: i <= j < n ==> Continues(rs[j], tools, tool(j))
    ensures n < |rs| ==> !Continues(rs[n], tools, tool(n))
    decreases |rs| - i
  {
    if i < |rs| && Continues(rs[i], tools, tool(i)) then Advance(rs, tools, tool, i + 1) else i
  }

  /** The text part a final response puts in its history entry: the
      response's text, or `undefined` when it has an empty list of function
      calls. */
  function ReplyOf(response: Response): Option<string> {
    if response.Text? then Some(response.text) else None
  }

  /** `input.toLowerCase() === 'exit'`, the test that ends the prompt loop
      in `main`. */
  predicate ExitRequested(input: string): (b: bool)
    ensures b ==> |input| == 4
  {
    LowerAscii(input) == "exit"
  }

  function LowerAscii(s: string): (r: string)
    ensures |r| == |s|
    ensures forall i :: 0 <= i < |s| ==> r[i] == if 'A' <= s[i] <= 'Z' then (s[i] as int + 32) as char else s[i]
  {
    if s == [] then [] else [if 'A' <= s[0] <= 'Z' then (s[0] as int + 32) as char else s[0]] + LowerAscii(s[1..])
  }

  /** The exit keyword is recognised in any mix of upper and lower case,
      and nothing else is. */
  lemma ExitInAnyCase(input: string)
    ensures ExitRequested(input) <==>
      |input| == 4 && input[0] in "eE" && input[1] in "xX" && input[2] in "iI" && input[3] in "tT"
  {
    var l := LowerAscii(input);
    if |input| == 4 && input[0] in "eE" && input[1] in "xX" && input[2] in "iI" && input[3] in "tT" {
      assert l == "exit";
    }
    if ExitRequested(input) {
      assert l[0] == 'e' && l[1] == 'x' && l[2] == 'i' && l[3] == 't';
    }
  }
}
