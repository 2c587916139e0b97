/**
 * The three tools the server registers, the parameter shapes it validates their
 * calls against, the JSON schemas it declares for them, and validation of a
 * call into typed parameters.
 */
module Tools {
  import opened Wrappers
  import opened Schema

  datatype Tool = Ipconfig | ScanLiveHosts | ScanPorts

  const SCAN_TYPE := "scanType"
  const TARGET := "target"
  const IP_RANGE := "ipRange"
  const PORT_RANGE := "portRange"
  const SPEED := "speed"

  /** Host-discovery flags: ICMP echo, ARP, TCP SYN and UDP ping. */
  const LIVE_SCAN_TYPES: seq<string> := ["-PE", "-PR", "-PS", "-PU"]
  /** Port-scan flags: TCP connect, SYN, UDP and version detection. */
  const PORT_SCAN_TYPES: seq<string> := ["-sT", "-sS", "-sU", "-sV"]
  /** Timing templates, paranoid to insane. */
  const SPEEDS: seq<string> := ["-T0", "-T1", "-T2", "-T3", "-T4", "-T5"]

  function ParseTool(name: string): (r: Option<Tool>)
    ensures r.Some? <==> name in {"ipconfig", "scan_live_hosts", "scan_ports"}
  {
    if name == "ipconfig" then Some(Ipconfig)
    else if name == "scan_live_hosts" then Some(ScanLiveHosts)
    else if name == "scan_ports" then Some(ScanPorts)
    else None
  }

  /** The name a tool is registered under; it is the only name that selects it. */
  function Name(t: Tool): (n: string)
    ensures ParseTool(n) == Some(t)
    ensures forall name :: ParseTool(name) == Some(t) ==> name == n
  {
    match t
    case Ipconfig => "ipconfig"
    case ScanLiveHosts => "scan_live_hosts"
    case ScanPorts => "scan_ports"
  }

  /** The parameter shape each tool's handler is registered with. */
  function ShapeOf(t: Tool): (s: Shape)
    ensures s == [] <==> t == Ipconfig
    ensures OpensWithRequired(t, s)
  {
    match t
    case Ipconfig => []
    case ScanLiveHosts => [
      FieldSpec(SCAN_TYPE, false, [NonEmpty, OneOf(LIVE_SCAN_TYPES)]),
      FieldSpec(TARGET, false, [Cidr, NonEmpty]),
      FieldSpec(IP_RANGE, false, [NonEmpty])
    ]
    case ScanPorts => [
      FieldSpec(SCAN_TYPE, false, [NonEmpty, OneOf(PORT_SCAN_TYPES)]),
      FieldSpec(TARGET, false, [Cidr, NonEmpty]),
      FieldSpec(PORT_RANGE, true, []),
      FieldSpec(SPEED, true, [OneOf(SPEEDS)])
    ]
  }

  /** The JSON schema declared for each tool in the server's capabilities option. */
  function Declared(t: Tool): (d: ObjectSchema)
    ensures (set k | k in d.required) <= (set p | p in d.properties :: p.name)
  {
    match t
    case Ipconfig => ObjectSchema([], [])
    case ScanLiveHosts => ObjectSchema(
      [PropertySpec(SCAN_TYPE, Some(LIVE_SCAN_TYPES)), PropertySpec(TARGET, None), PropertySpec(IP_RANGE, None)],
      [SCAN_TYPE, TARGET, IP_RANGE])
    case ScanPorts => ObjectSchema(
      [PropertySpec(SCAN_TYPE, Some(PORT_SCAN_TYPES)), PropertySpec(TARGET, None),
       PropertySpec(PORT_RANGE, None), PropertySpec(SPEED, Some(SPEEDS))],
      [SCAN_TYPE, TARGET])
  }

  /** Validated parameters of one call; an optional port-scan field that was not supplied is None. */
  datatype Params =
    | NoParams
    | LiveHosts(scanType: string, target: string, ipRange: string)
    | Ports(scanType: string, target: string, portRange: Option<string>, speed: Option<string>)

  function ToolOf(p: Params): Tool {
    match p
    case NoParams => Ipconfig
    case LiveHosts(_, _, _) => ScanLiveHosts
    case Ports(_, _, _, _) => ScanPorts
  }

  predicate HasRequired(t: Tool, m: map<string, string>) {
    match t
    case Ipconfig => true
    case ScanLiveHosts => SCAN_TYPE in m && TARGET in m && IP_RANGE in m
    case ScanPorts => SCAN_TYPE in m && TARGET in m
  }

  /** The shape opens with the tool's required fields, in the order ToParams reads them. */
  predicate OpensWithRequired(t: Tool, shape: Shape) {
    match t
    case Ipconfig => true
    case ScanLiveHosts =>
      && |shape| >= 3
      && shape[0].name == SCAN_TYPE && !shape[0].optional
      && shape[1].name == TARGET && !shape[1].optional
      && shape[2].name == IP_RANGE && !shape[2].optional
    case ScanPorts =>
      && |shape| >= 2
      && shape[0].name == SCAN_TYPE && !shape[0].optional
      && shape[1].name == TARGET && !shape[1].optional
  }

  lemma RequiredOfShape(t: Tool, shape: Shape, m: map<string, string>)
    requires OpensWithRequired(t, shape)
    requires forall i :: 0 <= i < |shape| && !shape[i].optional ==> shape[i].name in m
    ensures HasRequired(t, m)
  {
  }

  function Lookup(m: map<string, string>, key: string): (r: Option<string>)
    ensures r.Some? <==> key in m
    ensures r.Some? ==> r.value == m[key]
  {
    if key in m then Some(m[key]) else None
  }

  /** The typed parameters of a validated call; an optional key that was not supplied becomes None. */
  function ToParams(t: Tool, m: map<string, string>): (p: Params)
    requires HasRequired(t, m)
    ensures ToolOf(p) == t
    ensures p.Ports? ==> (p.portRange.Some? <==> PORT_RANGE in m) && (p.speed.Some? <==> SPEED in m)
  {
    match t
    case Ipconfig => NoParams
    case ScanLiveHosts => LiveHosts(m[SCAN_TYPE], m[TARGET], m[IP_RANGE])
    case ScanPorts => Ports(m[SCAN_TYPE], m[TARGET], Lookup(m, PORT_RANGE), Lookup(m, SPEED))
  }

  /**
   * Validates a call's parameter object against the tool's shape. A call that
   * fails is rejected with the issues of every failing field; one that passes
   * yields the typed parameters of that tool.
   */
  function Validate(t: Tool, args: Arguments, isCidr: CidrParser): (r: Result<Params, seq<Issue>>)
    ensures r.Ok? <==> ShapeAccepts(ShapeOf(t), args, isCidr)
    ensures r.Ok? ==> ToolOf(r.value) == t
    ensures r.Err? ==> r.error != [] && forall j :: 0 <= j < |r.error| ==> r.error[j].field in Names(ShapeOf(t))
  {
    ValidateAgainst(t, ShapeOf(t), args, isCidr)
  }

  /** Validate, with the tool's shape passed in as a value. */
  function ValidateAgainst(t: Tool, shape: Shape, args: Arguments, isCidr: CidrParser): (r: Result<Params, seq<Issue>>)
    requires OpensWithRequired(t, shape)
    ensures r.Ok? <==> ShapeAccepts(shape, args, isCidr)
    ensures r.Ok? ==> ToolOf(r.value) == t
    ensures r.Err? ==> r.error != [] && forall j :: 0 <= j < |r.error| ==> r.error[j].field in Names(shape)
  {
    var v := ValidateShape(shape, args, isCidr);
    if v.Err? then Err(v.error)
    else
      RequiredOfShape(t, shape, v.value);
      Ok(ToParams(t, v.value))
  }

  /** Closed form of the live-host shape: each field present as a string passing its checks. */
  predicate LiveHostFieldsOk(args: Arguments, isCidr: CidrParser) {
    && SCAN_TYPE in args && args[SCAN_TYPE].Str? && args[SCAN_TYPE].s in LIVE_SCAN_TYPES
    && TARGET in args && args[TARGET].Str? && isCidr(args[TARGET].s) && args[TARGET].s != ""
    && IP_RANGE in args && args[IP_RANGE].Str? && args[IP_RANGE].s != ""
  }

  /** Closed form of the port-scan shape; the optional fields may be absent. */
  predicate PortFieldsOk(args: Arguments, isCidr: CidrParser) {
    && SCAN_TYPE in args && args[SCAN_TYPE].Str? && args[SCAN_TYPE].s in PORT_SCAN_TYPES
    && TARGET in args && args[TARGET].Str? && isCidr(args[TARGET].s) && args[TARGET].s != ""
    && (PORT_RANGE in args ==> args[PORT_RANGE].Str?)
    && (SPEED in args ==> args[SPEED].Str? && args[SPEED].s in SPEEDS)
  }

  lemma LiveHostShapeClosedForm(args: Arguments, isCidr: CidrParser)
    ensures ShapeAccepts(ShapeOf(ScanLiveHosts), args, isCidr) <==> LiveHostFieldsOk(args, isCidr)
  {
    var shape := ShapeOf(ScanLiveHosts);
    assert ShapeAccepts(shape, args, isCidr) <==>
      FieldAccepts(shape[0], args, isCidr) && FieldAccepts(shape[1], args, isCidr) && FieldAccepts(shape[2], args, isCidr);
    assert shape[0] == FieldSpec(SCAN_TYPE, false, [NonEmpty, OneOf(LIVE_SCAN_TYPES)]);
    assert shape[1] == FieldSpec(TARGET, false, [Cidr, NonEmpty]);
    assert shape[2] == FieldSpec(IP_RANGE, false, [NonEmpty]);
    AllHoldTwo(NonEmpty, OneOf(LIVE_SCAN_TYPES), isCidr);
    AllHoldTwo(Cidr, NonEmpty, isCidr);
    AllHoldOne(NonEmpty, isCidr);
  }

  lemma PortShapeClosedForm(args: Arguments, isCidr: CidrParser)
    ensures ShapeAccepts(ShapeOf(ScanPorts), args, isCidr) <==> PortFieldsOk(args, isCidr)
  {
    var shape := ShapeOf(ScanPorts);
    assert ShapeAccepts(shape, args, isCidr) <==>
      && FieldAccepts(shape[0], args, isCidr) && FieldAccepts(shape[1], args, isCidr)
      && FieldAccepts(shape[2], args, isCidr) && FieldAccepts(shape[3], args, isCidr);
    assert shape[0] == FieldSpec(SCAN_TYPE, false, [NonEmpty, OneOf(PORT_SCAN_TYPES)]);
    assert shape[1] == FieldSpec(TARGET, false, [Cidr, NonEmpty]);
    assert shape[2] == FieldSpec(PORT_RANGE, true, []);
    assert shape[3] == FieldSpec(SPEED, true, [OneOf(SPEEDS)]);
    AllHoldTwo(NonEmpty, OneOf(PORT_SCAN_TYPES), isCidr);
    AllHoldTwo(Cidr, NonEmpty, isCidr);
    AllHoldOne(OneOf(SPEEDS), isCidr);
  }

  /** What live-host validation yields for an object that passes. */
  lemma LiveHostsValue(args: Arguments, isCidr: CidrParser)
    requires LiveHostFieldsOk(args, isCidr)
    ensures Validate(ScanLiveHosts, args, isCidr) == Ok(LiveHosts(args[SCAN_TYPE].s, args[TARGET].s, args[IP_RANGE].s))
  {
    LiveHostShapeClosedForm(args, isCidr);
    var shape := ShapeOf(ScanLiveHosts);
    var v := ValidateShape(shape, args, isCidr);
    assert OpensWithRequired(ScanLiveHosts, shape);
    assert Validate(ScanLiveHosts, args, isCidr) == Ok(ToParams(ScanLiveHosts, v.value));
  }

  /** What port-scan validation yields for an object that passes. */
  lemma PortsValue(args: Arguments, isCidr: CidrParser)
    requires PortFieldsOk(args, isCidr)
    ensures Validate(ScanPorts, args, isCidr) == Ok(Ports(args[SCAN_TYPE].s, args[TARGET].s,
      if PORT_RANGE in args then Some(args[PORT_RANGE].s) else None,
      if SPEED in args then Some(args[SPEED].s) else None))
  {
    PortShapeClosedForm(args, isCidr);
    var shape := ShapeOf(ScanPorts);
    var v := ValidateShape(shape, args, isCidr);
    assert OpensWithRequired(ScanPorts, shape);
    assert shape[2].name == PORT_RANGE && shape[3].name == SPEED;
    assert PORT_RANGE in v.value <==> PORT_RANGE in args;
    assert SPEED in v.value <==> SPEED in args;
    assert Validate(ScanPorts, args, isCidr) == Ok(ToParams(ScanPorts, v.value));
  }

  /** The iff that characterises live-host validation: which objects pass, and what they yield. */
  lemma LiveHostsAcceptedIff(args: Arguments, isCidr: CidrParser, s: string, t: string, r: string)
    ensures Validate(ScanLiveHosts, args, isCidr) == Ok(LiveHosts(s, t, r)) <==>
      && SCAN_TYPE in args && args[SCAN_TYPE] == Str(s) && s in LIVE_SCAN_TYPES
      && TARGET in args && args[TARGET] == Str(t) && isCidr(t) && t != ""
      && IP_RANGE in args && args[IP_RANGE] == Str(r) && r != ""
  {
    LiveHostShapeClosedForm(args, isCidr);
    if LiveHostFieldsOk(args, isCidr) {
      LiveHostsValue(args, isCidr);
    }
  }

  /** The iff that characterises port-scan validation, for present and absent optional fields alike. */
  lemma PortsAcceptedIff(args: Arguments, isCidr: CidrParser, s: string, t: string, pr: Option<string>, sp: Option<string>)
    ensures Validate(ScanPorts, args, isCidr) == Ok(Ports(s, t, pr, sp)) <==>
      && SCAN_TYPE in args && args[SCAN_TYPE] == Str(s) && s in PORT_SCAN_TYPES
      && TARGET in args && args[TARGET] == Str(t) && isCidr(t) && t != ""
      && (if pr.Some? then PORT_RANGE in args && args[PORT_RANGE] == Str(pr.value) else PORT_RANGE !in args)
      && (if sp.Some? then SPEED in args && args[SPEED] == Str(sp.value) && sp.value in SPEEDS else SPEED !in args)
  {
    PortShapeClosedForm(args, isCidr);
    if PortFieldsOk(args, isCidr) {
      PortsValue(args, isCidr);
    }
  }

  /** The interface query accepts every parameter object and ignores its contents. */
  lemma IpconfigAlwaysAccepted(args: Arguments, isCidr: CidrParser)
    ensures Validate(Ipconfig, args, isCidr) == Ok(NoParams)
  {
  }

  /** A call that leaves out a required field is rejected, and the rejection names that field as missing. */
  lemma MissingRequiredRejected(t: Tool, args: Arguments, isCidr: CidrParser, i: nat)
    requires i < |ShapeOf(t)| && !ShapeOf(t)[i].optional && ShapeOf(t)[i].name !in args
    ensures Validate(t, args, isCidr).Err?
    ensures Issue(ShapeOf(t)[i].name, Missing) in Validate(t, args, isCidr).error
  {
    var shape := ShapeOf(t);
    assert !FieldAccepts(shape[i], args, isCidr);
    assert ShapeIssues(shape, args, isCidr) == ValidateShape(shape, args, isCidr).error;
  }

  function RequiredNames(shape: Shape): set<string> {
    set f | f in shape && !f.optional :: f.name
  }

  /** Closed form of the declared live-host schema: the three keys as strings, scanType from its enum. */
  lemma DeclaredLiveHostsClosedForm(args: Arguments)
    ensures SchemaAccepts(Declared(ScanLiveHosts), args) <==>
      && SCAN_TYPE in args && args[SCAN_TYPE].Str? && args[SCAN_TYPE].s in LIVE_SCAN_TYPES
      && TARGET in args && args[TARGET].Str?
      && IP_RANGE in args && args[IP_RANGE].Str?
  {
    var props := Declared(ScanLiveHosts).properties;
    assert props[0] == PropertySpec(SCAN_TYPE, Some(LIVE_SCAN_TYPES));
    assert props[1] == PropertySpec(TARGET, None);
    assert props[2] == PropertySpec(IP_RANGE, None);
  }

  /** Closed form of the declared port-scan schema; portRange and speed may be absent. */
  lemma DeclaredPortsClosedForm(args: Arguments)
    ensures SchemaAccepts(Declared(ScanPorts), args) <==>
      && SCAN_TYPE in args && args[SCAN_TYPE].Str? && args[SCAN_TYPE].s in PORT_SCAN_TYPES
      && TARGET in args && args[TARGET].Str?
      && (PORT_RANGE in args ==> args[PORT_RANGE].Str?)
      && (SPEED in args ==> args[SPEED].Str? && args[SPEED].s in SPEEDS)
  {
    var props := Declared(ScanPorts).properties;
    assert props[0] == PropertySpec(SCAN_TYPE, Some(PORT_SCAN_TYPES));
    assert props[1] == PropertySpec(TARGET, None);
    assert props[2] == PropertySpec(PORT_RANGE, None);
    assert props[3] == PropertySpec(SPEED, Some(SPEEDS));
  }

  /** Every object the validator accepts also meets the JSON schema declared for the tool. */
  lemma DeclaredAdmitsValidated(t: Tool, args: Arguments, isCidr: CidrParser)
    requires Validate(t, args, isCidr).Ok?
    ensures SchemaAccepts(Declared(t), args)
  {
    assert ShapeAccepts(ShapeOf(t), args, isCidr);
    match t
    case Ipconfig =>
    case ScanLiveHosts =>
      LiveHostShapeClosedForm(args, isCidr);
      DeclaredLiveHostsClosedForm(args);
    case ScanPorts =>
      PortShapeClosedForm(args, isCidr);
      DeclaredPortsClosedForm(args);
  }

  /**
   * The declared schema and the validator have the same field names, agree on
   * which fields are required, and carry the same enum lists in both directions.
   */
  lemma DeclaredInLockstep(t: Tool)
    ensures (set p | p in Declared(t).properties :: p.name) == Names(ShapeOf(t))
    ensures (set k | k in Declared(t).required) == RequiredNames(ShapeOf(t))
    ensures forall i :: 0 <= i < |Declared(t).properties| && Declared(t).properties[i].allowed.Some? ==>
      exists f :: f in ShapeOf(t) && f.name == Declared(t).properties[i].name
        && OneOf(Declared(t).properties[i].allowed.value) in f.checks
    ensures forall f, o :: f in ShapeOf(t) && OneOf(o) in f.checks ==>
      exists p :: p in Declared(t).properties && p.name == f.name && p.allowed == Some(o)
  {
    var shape := ShapeOf(t);
    var props := Declared(t).properties;
    match t
    case Ipconfig =>
    case ScanLiveHosts =>
      assert shape[0] in shape && shape[1] in shape && shape[2] in shape;
      assert props[0] in props && props[1] in props && props[2] in props;
      assert OneOf(LIVE_SCAN_TYPES) in shape[0].checks;
    case ScanPorts =>
      assert shape[0] in shape && shape[1] in shape && shape[2] in shape && shape[3] in shape;
      assert props[0] in props && props[1] in props && props[2] in props && props[3] in props;
      assert OneOf(PORT_SCAN_TYPES) in shape[0].checks;
      assert OneOf(SPEEDS) in shape[3].checks;
  }

  /**
   * The declared schema is strictly looser than the validator: an empty ipRange
   * meets the declared live-host schema but is rejected whatever the CIDR parser says.
   */
  lemma DeclaredLooserThanValidator(isCidr: CidrParser)
    ensures var args := map[SCAN_TYPE := Str("-PE"), TARGET := Str("198.161.0.0/24"), IP_RANGE := Str("")];
      SchemaAccepts(Declared(ScanLiveHosts), args) && Validate(ScanLiveHosts, args, isCidr).Err?
  {
    var args := map[SCAN_TYPE := Str("-PE"), TARGET := Str("198.161.0.0/24"), IP_RANGE := Str("")];
    var shape := ShapeOf(ScanLiveHosts);
    assert !FieldAccepts(shape[2], args, isCidr) by {
      assert Holds(shape[2].checks[0], "", isCidr) == false;
    }
  }
}
