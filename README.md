# scout-mcp tool dispatch, modelled in Dafny

scout-mcp is a server that exposes three network tools to a remote caller:
`ipconfig` (the host's network configuration), `scan_live_hosts` (nmap host
discovery) and `scan_ports` (nmap port scan). For every call it validates the
caller's parameter object against the tool's parameter shape, builds an
executable plus an argument vector, runs that process without a shell, decodes
its standard output and answers with one text content block.

This project models that dispatch path in `server.ts` as pure Dafny and proves
what it does:

- `wrappers.dfy` — `Option` and `Result`.
- `schema.dfy` (module `Schema`) — parameter values, field specs with their
  string checks (non-empty, one of an enum list, CIDR), the validator that
  collects the issues of every failing field and keeps only the shape's keys,
  and the looser semantics of the JSON schemas declared in the server's
  capabilities option.
- `tools.dfy` (module `Tools`) — the three tool names, the enum constants, each
  tool's validation shape and declared JSON schema, and validation into typed
  `Params`, where an optional parameter the caller left out is `None`.
- `commands.dfy` (module `Commands`) — `BuildCommand`, its inverse `Recover`, and
  the facts about each vector: order, fixed tokens, empty slots, the one string
  join, and what the join does to a CIDR target.
- `dispatch.dfy` (module `Dispatch`) — `Package` and its inverse `TextOf`, one
  handler `Handle` per tool, and `Call` by tool name.

Two quirks of the code are reproduced, not fixed:

- The live-host `target` is validated as CIDR (so it already holds a `/`), and
  then `"/" + ipRange` is appended to it (server.ts:72 vs server.ts:78). The
  model proves that, for any CIDR parser whose accepted strings all contain
  `/`, the address argument of a validated call holds at least two `/`.
  So the vector `["-PE", "-sn", "198.167.0.0/24"]` from test.ts cannot come
  from any validated call.
- `scan_ports` builds `[scanType, portRange, speed, target]` even when
  `portRange` or `speed` is absent (server.ts:101). The absent value stays in
  its slot as `Token.Undefined` and the other slots do not move. The vector
  always has four slots.

Parameters from outside the model:

- `isCidr: string -> bool` is the validation library's CIDR parser.
- `run: Command -> ProcessOutput` spawns the process and awaits it.
- `decode: seq<byte> -> string` is the text decoder.

Every lemma holds for all such functions.

## Model

| member | source | states |
|---|---|---|
| `Schema.FailedChecks` | server.ts:71-73 | no issue exactly when every check of the field's chain holds; each issue names the field and a check that fails |
| `Schema.FieldIssues` | server.ts:95-96 | a field is accepted exactly when it is absent and optional, or a string passing all its checks; a missing required field gives exactly one Missing issue |
| `Schema.ShapeIssues` | server.ts:70-74 | no issue exactly when every field is accepted; each issue names a declared field; every missing required field gets a Missing issue |
| `Schema.ValidateShape` | server.ts:92-97 | accepts exactly when every field is accepted; on success all required fields and every supplied declared field are kept with their caller values, and unknown keys are dropped; a rejection carries a non-empty issue list |
| `Tools.ShapeOf` | server.ts:69-97 | ipconfig alone has the empty shape, and each shape opens with its tool's required fields; what each shape accepts is stated by `LiveHostShapeClosedForm` and `PortShapeClosedForm` |
| `Tools.Declared` | server.ts:17-50 | every required name of a declared schema is one of its properties; what each schema admits is stated by `DeclaredLiveHostsClosedForm` and `DeclaredPortsClosedForm` |
| `Tools.ToParams` | server.ts:76-99 | the parameters are of the given tool, and an optional port-scan field is Some exactly when its key was supplied; `LiveHostsValue` and `PortsValue` state the values |
| `Tools.ParseTool` | server.ts:55-91 | only the three registered names select a tool |
| `Tools.Name` | server.ts:55-91 | each tool has one registered name, and that name selects it |
| `Tools.Validate` | server.ts:69-97 | a call is accepted exactly when its tool's shape accepts it; the parameters are of that tool; a rejection names only declared fields |
| `Tools.LiveHostShapeClosedForm` | server.ts:71-73 | the live-host shape accepts exactly: scanType in {-PE,-PR,-PS,-PU}, target a non-empty CIDR string, ipRange a non-empty string |
| `Tools.PortShapeClosedForm` | server.ts:93-96 | the port-scan shape accepts exactly: scanType in {-sT,-sS,-sU,-sV}, target a non-empty CIDR string, portRange any string or absent, speed in {-T0..-T5} or absent |
| `Tools.LiveHostsValue` | server.ts:76 | an object that passes live-host validation yields the caller's own scanType, target and ipRange strings |
| `Tools.PortsValue` | server.ts:99 | an object that passes port-scan validation yields the caller's scanType and target, and Some of portRange and speed exactly when they were supplied |
| `Tools.LiveHostsAcceptedIff` | server.ts:71-76 | validation yields LiveHosts(s, t, r) if and only if the call carries those three strings and they pass their checks |
| `Tools.PortsAcceptedIff` | server.ts:93-99 | validation yields Ports(s, t, pr, sp) if and only if the call carries s and t, a present optional matches its Some value, and an absent optional is None |
| `Tools.IpconfigAlwaysAccepted` | server.ts:55 | the interface query accepts every parameter object |
| `Tools.MissingRequiredRejected` | server.ts:93-94 | a call missing any required field is rejected, and the rejection names that field as missing |
| `Tools.DeclaredLiveHostsClosedForm` | server.ts:26-34 | the declared live-host schema admits exactly: the three keys present as strings, scanType from its four literals |
| `Tools.DeclaredPortsClosedForm` | server.ts:39-48 | the declared port-scan schema admits exactly: scanType from its four literals, target a string, portRange a string or absent, speed from its six literals or absent |
| `Tools.DeclaredAdmitsValidated` | server.ts:17-50 | every call the validator accepts also meets the JSON schema declared for the tool in the server's capabilities option |
| `Tools.DeclaredInLockstep` | server.ts:29-47 | the declared schema and the validator have the same field names and require the same fields; every declared enum is a `OneOf` check of the same field, and every `OneOf` check is the declared enum of the same property |
| `Tools.DeclaredLooserThanValidator` | server.ts:26-34 | an empty ipRange meets the declared live-host schema, but the validator rejects it whatever the CIDR parser says |
| `Commands.BuildCommand` | server.ts:55-101 | ipconfig runs `ipconfig`, the scans run `nmap`; an empty slot appears only for an absent portRange or speed |
| `Commands.Slot` | server.ts:101 | an optional value fills its slot with its own text when present and is `Undefined` exactly when absent |
| `Commands.RecoverBuild` | server.ts:76-101 | the parameters can be read back from the built command, so no value is split, merged, dropped or altered; the live-host join reads back whenever ipRange has no `/` |
| `Commands.JoinIsAmbiguous` | server.ts:78 | the only concatenation, target + "/" + ipRange, gives two different calls the same vector when ipRange holds a `/` |
| `Commands.LiveHostsCommandOfRequest` | server.ts:76-78 | a validated live-host call runs nmap with exactly [scanType, "-sn", target + "/" + ipRange], and scanType is one of the four discovery flags |
| `Commands.PortsCommandOfRequest` | server.ts:99-101 | a validated port-scan call runs nmap with four slots: scanType (one of the four scan flags), portRange or empty, speed (one of -T0..-T5) or empty, target |
| `Commands.IpconfigCommandOfRequest` | server.ts:55-58 | the interface query runs `ipconfig` with an empty vector, whatever the call carried |
| `Commands.PortRangeStaysInItsSlot` | server.ts:95-101 | a portRange of any content, shell metacharacters included, fills its own slot and changes no other slot and not the vector's length |
| `Commands.LiveHostTargetSlashedTwice` | server.ts:72-78 | if every CIDR string contains `/`, the address argument of a validated live-host call contains at least two `/` |
| `Commands.SampleVectorUnreachable` | test.ts:1-2 | if every CIDR string contains `/`, no validated live-host call produces the vector ["-PE", "-sn", "198.167.0.0/24"] |
| `Dispatch.Package` | server.ts:63-65 | the response is one block of type "text" whose text is the given output |
| `Dispatch.PackageInverse` | server.ts:85-87 | a response is a single text block with text s exactly when it is Package(s) |
| `Dispatch.Execute` | server.ts:100-109 | the response's text is the decoded stdout of exactly the built command |
| `Dispatch.Handle` | server.ts:91-111 | a call is rejected exactly when its tool's shape does not accept it, and a rejection carries issues |
| `Dispatch.Call` | server.ts:69 | a name that is not registered is answered UnknownTool; a parameter rejection only happens for a registered name and carries issues |
| `Dispatch.RejectedCallRunsNothing` | server.ts:69-75 | the result of a rejected call does not depend on the process runner or decoder, so nothing was run; it carries the validator's issues |
| `Dispatch.AcceptedCallAnswersStdout` | server.ts:98-109 | an accepted call answers with Package of the decoded stdout of the command built from its parameters |
| `Dispatch.OnlyStdoutMatters` | server.ts:105-106 | two runs whose stdout agree give the same response, whatever their stderr and exit status |
| `Dispatch.CallByName` | server.ts:91 | calling by a tool's registered name is calling that tool's handler |

## Left out

- Server construction, tool registration and the stdio transport (server.ts:10-53, server.ts:114-122) are library calls and I/O.
- Spawning the process and awaiting its output (`Deno.Command(...).output()`) is OS I/O. It is the `run` parameter.
- `TextDecoder().decode` is the `decode` parameter.
- zod's `.cidr()` parser is the `isCidr` parameter. The lemmas about the doubled `/` take "every CIDR string contains `/`" as a hypothesis.
- The validation library's method chains are modelled by what they declare. `z.string().nonempty().enum([...])` and `z.string().optional().enum([...])` mean "a string among these literals", and the second one may be absent. Whether the library really provides `.enum` on a string schema is not part of this model.
- Schema.FieldIssues: the exact issue texts the validation library produces are not modelled, only which field failed and how (missing, not a string, a failed check). Non-string JSON values (numbers, booleans, null, objects, arrays) are one kind of value, `NonString`.
- Dispatch.Call: how the protocol library reports an unknown tool or invalid parameters to the caller (an error object rather than a tool response) is part of that library and not modelled.
- test.ts spawns nmap at a hard-coded path and prints its output. That is I/O. It serves only as the sample vector in `SampleVectorUnreachable`.
- Timeouts, cancellation, non-zero exit and spawn-failure reporting, the HTTP client and the directory bruteforcer do not appear in the code and are not modelled.
- Commands.Slot: which argument string, if any, the runtime hands the process for an `Undefined` slot is not modelled; that is left to `run`.
- Whether the protocol library advertises the capabilities-option schemas to callers is not modelled; the model only relates those schemas to the validator.
- Concurrency is not modelled. Every handler is a pure function of its own call, so no state is shared between calls.
