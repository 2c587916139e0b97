/**
 * One tool call end to end: validate, build the command, run it, and package
 * the decoded standard output as the response. Spawning and awaiting the
 * process and decoding its bytes are not part of the model; they are passed in.
 */
module Dispatch {
  import opened Wrappers
  import opened Schema
  import opened Tools
  import opened Commands

  newtype byte = x: int | 0 <= x < 256

  /** What the awaited process reports. Only stdout is read by the handlers. */
  datatype ProcessOutput = ProcessOutput(code: int, stdout: seq<byte>, stderr: seq<byte>)

  /** Spawns a command without a shell and awaits its output. */
  type Runner = Command -> ProcessOutput

  /** Decodes a byte stream to text. */
  type Decoder = seq<byte> -> string

  datatype ContentBlock = ContentBlock(kind: string, text: string)

  datatype Response = Response(content: seq<ContentBlock>)

  const TEXT := "text"

  /** The text of a response that consists of exactly one text block. */
  function TextOf(r: Response): Option<string> {
    if |r.content| == 1 && r.content[0].kind == TEXT then Some(r.content[0].text) else None
  }

  /** The response every handler returns: one text block holding the decoded output. */
  function Package(output: string): (r: Response)
    ensures |r.content| == 1 && r.content[0].kind == TEXT
    ensures TextOf(r) == Some(output)
  {
    Response([ContentBlock(TEXT, output)])
  }

  /** Package and TextOf are inverse: a single text block is exactly a packaged output. */
  lemma PackageInverse(r: Response, output: string)
    ensures TextOf(r) == Some(output) <==> r == Package(output)
  {
    if TextOf(r) == Some(output) {
      assert r.content == [ContentBlock(TEXT, output)];
    }
  }

  datatype CallError = UnknownTool(name: string) | InvalidParams(issues: seq<Issue>)

  /** Runs the command of a validated call and packages its decoded stdout. */
  function Execute(p: Params, run: Runner, decode: Decoder): (r: Response)
    ensures TextOf(r) == Some(decode(run(BuildCommand(p)).stdout))
  {
    Package(decode(run(BuildCommand(p)).stdout))
  }

  /** The handler of one tool: a call that fails validation is rejected before any command exists. */
  function Handle(t: Tool, args: Arguments, isCidr: CidrParser, run: Runner, decode: Decoder): (r: Result<Response, seq<Issue>>)
    ensures r.Err? <==> !ShapeAccepts(ShapeOf(t), args, isCidr)
    ensures r.Err? ==> r.error != []
  {
    match Validate(t, args, isCidr)
    case Err(issues) => Err(issues)
    case Ok(p) => Ok(Execute(p, run, decode))
  }

  /** A call by tool name; only the three registered names reach a handler. */
  function Call(name: string, args: Arguments, isCidr: CidrParser, run: Runner, decode: Decoder): (r: Result<Response, CallError>)
    ensures ParseTool(name).None? ==> r == Err(UnknownTool(name))
    ensures r.Err? && r.error.InvalidParams? ==> ParseTool(name).Some? && r.error.issues != []
  {
    match ParseTool(name)
    case None => Err(UnknownTool(name))
    case Some(t) =>
      match Handle(t, args, isCidr, run, decode)
      case Err(issues) => Err(InvalidParams(issues))
      case Ok(resp) => Ok(resp)
  }

  /**
   * A rejected call runs nothing: its result is the same whatever the process
   * runner and decoder would have done, and it carries the validator's issues.
   */
  lemma RejectedCallRunsNothing(t: Tool, args: Arguments, isCidr: CidrParser,
                                run: Runner, decode: Decoder, run': Runner, decode': Decoder)
    requires Validate(t, args, isCidr).Err?
    ensures Handle(t, args, isCidr, run, decode) == Handle(t, args, isCidr, run', decode')
    ensures Handle(t, args, isCidr, run, decode) == Err(Validate(t, args, isCidr).error)
  {
  }

  /** An accepted call answers with one text block holding the decoded stdout of exactly the built command. */
  lemma AcceptedCallAnswersStdout(t: Tool, args: Arguments, isCidr: CidrParser, run: Runner, decode: Decoder)
    requires Validate(t, args, isCidr).Ok?
    ensures Handle(t, args, isCidr, run, decode).Ok?
    ensures Handle(t, args, isCidr, run, decode).value
      == Package(decode(run(BuildCommand(Validate(t, args, isCidr).value)).stdout))
  {
  }

  /** Neither stderr nor the exit status reaches the response: runs that agree on stdout answer alike. */
  lemma OnlyStdoutMatters(t: Tool, args: Arguments, isCidr: CidrParser, run: Runner, run': Runner, decode: Decoder)
    requires Validate(t, args, isCidr).Ok?
    requires run(BuildCommand(Validate(t, args, isCidr).value)).stdout
          == run'(BuildCommand(Validate(t, args, isCidr).value)).stdout
    ensures Handle(t, args, isCidr, run, decode) == Handle(t, args, isCidr, run', decode)
  {
  }

  /** Calling a tool by its registered name is calling its handler. */
  lemma CallByName(t: Tool, args: Arguments, isCidr: CidrParser, run: Runner, decode: Decoder)
    ensures Call(Name(t), args, isCidr, run, decode) ==
      match Handle(t, args, isCidr, run, decode)
      case Err(issues) => Err(InvalidParams(issues))
      case Ok(resp) => Ok(resp)
  {
  }
}
