/**
 * Argument-vector construction: each validated call becomes an executable and
 * an ordered vector of discrete arguments, passed to the process without a shell.
 */
module Commands {
  import opened Wrappers
  import opened Schema
  import opened Tools

  /**
   * One slot of an argument vector: a string handed to the process as a single
   * argument, or the empty slot an optional port-scan parameter leaves when the
   * caller did not supply it.
   */
  datatype Token = Arg(text: string) | Undefined

  datatype Command = Command(executable: string, args: seq<Token>)

  const NMAP := "nmap"
  const IPCONFIG := "ipconfig"
  /** nmap's "no port scan" flag, fixed in the host-discovery vector. */
  const NO_PORT_SCAN := "-sn"

  function Slot(v: Option<string>): (t: Token)
    ensures t.Undefined? <==> v.None?
    ensures v.Some? ==> t == Arg(v.value)
  {
    match v
    case None => Undefined
    case Some(s) => Arg(s)
  }

  /**
   * The command each tool runs. Only an optional port-scan parameter the caller
   * left out can leave an empty slot; everything else is a real argument.
   */
  function BuildCommand(p: Params): (c: Command)
    ensures c.executable == (if p.NoParams? then IPCONFIG else NMAP)
    ensures forall i :: 0 <= i < |c.args| ==>
      (c.args[i].Undefined? <==> p.Ports? && ((i == 1 && p.portRange.None?) || (i == 2 && p.speed.None?)))
  {
    match p
    case NoParams => Command(IPCONFIG, [])
    case LiveHosts(scanType, target, ipRange) =>
      Command(NMAP, [Arg(scanType), Arg(NO_PORT_SCAN), Arg(target + "/" + ipRange)])
    case Ports(scanType, target, portRange, speed) =>
      Command(NMAP, [Arg(scanType), Slot(portRange), Slot(speed), Arg(target)])
  }

  /** The position of the last '/' in a string, if any. */
  function LastSlash(s: string): (r: Option<nat>)
    ensures r.None? <==> '/' !in s
    ensures r.Some? ==> r.value < |s| && s[r.value] == '/' && '/' !in s[r.value + 1..]
  {
    if s == [] then None
    else if s[|s| - 1] == '/' then Some(|s| - 1)
    else
      var r := LastSlash(s[..|s| - 1]);
      assert s == s[..|s| - 1] + [s[|s| - 1]];
      if r.Some? then
        assert s[r.value + 1..] == s[..|s| - 1][r.value + 1..] + [s[|s| - 1]];
        r
      else r
  }

  function SlotValue(t: Token): Option<string> {
    if t.Arg? then Some(t.text) else None
  }

  /**
   * Reads a command back into the parameters it was built from, splitting the
   * host-discovery target at its last '/'; None when it has no tool's form.
   */
  function Recover(c: Command): Option<Params> {
    if c == Command(IPCONFIG, []) then Some(NoParams)
    else if c.executable != NMAP then None
    else if |c.args| == 3 && c.args[0].Arg? && c.args[1] == Arg(NO_PORT_SCAN) && c.args[2].Arg? then
      var joined := c.args[2].text;
      match LastSlash(joined)
      case None => None
      case Some(k) => Some(LiveHosts(c.args[0].text, joined[..k], joined[k + 1..]))
    else if |c.args| == 4 && c.args[0].Arg? && c.args[3].Arg? then
      Some(Ports(c.args[0].text, c.args[3].text, SlotValue(c.args[1]), SlotValue(c.args[2])))
    else None
  }

  /** The last '/' of target + "/" + ipRange is the joining one when ipRange has none. */
  lemma SplitJoined(target: string, ipRange: string)
    requires '/' !in ipRange
    ensures LastSlash(target + "/" + ipRange) == Some(|target|)
  {
    var joined := target + "/" + ipRange;
    var k := LastSlash(joined).value;
    assert joined[|target|] == '/';
  }

  /**
   * No caller value is lost, split, merged or altered on its way into the
   * vector: the parameters can be read back from the command. The one join,
   * target + "/" + ipRange, reads back when ipRange carries no '/'.
   */
  lemma RecoverBuild(p: Params)
    requires p.LiveHosts? ==> '/' !in p.ipRange
    ensures Recover(BuildCommand(p)) == Some(p)
  {
    if p.LiveHosts? {
      var joined := p.target + "/" + p.ipRange;
      SplitJoined(p.target, p.ipRange);
      assert joined[..|p.target|] == p.target;
      assert joined[|p.target| + 1..] == p.ipRange;
    }
  }

  /** The join loses information when ipRange carries a '/': two calls, one vector. */
  lemma JoinIsAmbiguous()
    ensures BuildCommand(LiveHosts("-PE", "10.0.0.0/8", "24")) == BuildCommand(LiveHosts("-PE", "10.0.0.0", "8/24"))
  {
    assert "10.0.0.0/8" + "/" + "24" == "10.0.0.0" + "/" + "8/24";
  }

  /** A validated host-discovery call runs nmap with exactly [scanType, "-sn", target + "/" + ipRange]. */
  lemma LiveHostsCommandOfRequest(args: Arguments, isCidr: CidrParser)
    requires Validate(ScanLiveHosts, args, isCidr).Ok?
    ensures SCAN_TYPE in args && TARGET in args && IP_RANGE in args
    ensures args[SCAN_TYPE].Str? && args[TARGET].Str? && args[IP_RANGE].Str?
    ensures var c := BuildCommand(Validate(ScanLiveHosts, args, isCidr).value);
      && c.executable == NMAP && |c.args| == 3
      && c.args[0] == Arg(args[SCAN_TYPE].s) && args[SCAN_TYPE].s in LIVE_SCAN_TYPES
      && c.args[1] == Arg(NO_PORT_SCAN)
      && c.args[2] == Arg(args[TARGET].s + "/" + args[IP_RANGE].s)
  {
    LiveHostShapeClosedForm(args, isCidr);
    LiveHostsValue(args, isCidr);
  }

  /**
   * A validated port-scan call runs nmap with four slots in the order scanType,
   * portRange, speed, target; an absent optional leaves its own slot empty and
   * shifts nothing.
   */
  lemma PortsCommandOfRequest(args: Arguments, isCidr: CidrParser)
    requires Validate(ScanPorts, args, isCidr).Ok?
    ensures SCAN_TYPE in args && TARGET in args && args[SCAN_TYPE].Str? && args[TARGET].Str?
    ensures PORT_RANGE in args ==> args[PORT_RANGE].Str?
    ensures SPEED in args ==> args[SPEED].Str? && args[SPEED].s in SPEEDS
    ensures var c := BuildCommand(Validate(ScanPorts, args, isCidr).value);
      && c.executable == NMAP && |c.args| == 4
      && c.args[0] == Arg(args[SCAN_TYPE].s) && args[SCAN_TYPE].s in PORT_SCAN_TYPES
      && c.args[1] == (if PORT_RANGE in args then Arg(args[PORT_RANGE].s) else Undefined)
      && c.args[2] == (if SPEED in args then Arg(args[SPEED].s) else Undefined)
      && c.args[3] == Arg(args[TARGET].s)
  {
    PortShapeClosedForm(args, isCidr);
    PortsValue(args, isCidr);
  }

  /** The interface query runs ipconfig with an empty vector, whatever the call carried. */
  lemma IpconfigCommandOfRequest(args: Arguments, isCidr: CidrParser)
    ensures Validate(Ipconfig, args, isCidr).Ok?
    ensures BuildCommand(Validate(Ipconfig, args, isCidr).value) == Command(IPCONFIG, [])
  {
    IpconfigAlwaysAccepted(args, isCidr);
  }

  /**
   * The content of a port-scan value never reaches another slot: replacing the
   * port range by any string, shell metacharacters included, changes that one
   * slot and leaves the vector's length and every other slot as they were.
   */
  lemma PortRangeStaysInItsSlot(p: Params, v: string)
    requires p.Ports?
    ensures var c := BuildCommand(p); var d := BuildCommand(p.(portRange := Some(v)));
      && |d.args| == |c.args| == 4 && d.args[1] == Arg(v)
      && forall i :: 0 <= i < 4 && i != 1 ==> d.args[i] == c.args[i]
  {
  }

  /** The number of '/' characters in a string. */
  function Slashes(s: string): nat {
    if s == [] then 0 else (if s[0] == '/' then 1 else 0) + Slashes(s[1..])
  }

  lemma {:induction false} SlashesConcat(a: string, b: string)
    ensures Slashes(a + b) == Slashes(a) + Slashes(b)
  {
    if a != [] {
      assert (a + b)[1..] == a[1..] + b;
      SlashesConcat(a[1..], b);
    } else {
      assert a + b == b;
    }
  }

  lemma {:induction false} SlashesCount(s: string)
    ensures Slashes(s) > 0 <==> '/' in s
  {
    if s != [] {
      SlashesCount(s[1..]);
      assert s == [s[0]] + s[1..];
    }
  }

  /** The validation library's CIDR syntax always has an address, a '/' and a prefix length. */
  ghost predicate CidrHasSlash(isCidr: CidrParser) {
    forall s :: isCidr(s) ==> '/' in s
  }

  /**
   * The host-discovery target is validated as CIDR and then has "/" + ipRange
   * appended, so the address argument of a validated call carries at least two '/'.
   */
  lemma LiveHostTargetSlashedTwice(args: Arguments, isCidr: CidrParser)
    requires CidrHasSlash(isCidr)
    requires Validate(ScanLiveHosts, args, isCidr).Ok?
    ensures var c := BuildCommand(Validate(ScanLiveHosts, args, isCidr).value);
      |c.args| == 3 && c.args[2].Arg? && Slashes(c.args[2].text) >= 2
  {
    LiveHostShapeClosedForm(args, isCidr);
    LiveHostsValue(args, isCidr);
    var p := Validate(ScanLiveHosts, args, isCidr).value;
    SlashesConcat(p.target + "/", p.ipRange);
    SlashesConcat(p.target, "/");
    SlashesCount(p.target);
  }

  /**
   * Hence the sample vector ["-PE", "-sn", "198.167.0.0/24"] cannot come out of
   * any validated host-discovery call.
   */
  lemma SampleVectorUnreachable(args: Arguments, isCidr: CidrParser)
    requires CidrHasSlash(isCidr)
    requires Validate(ScanLiveHosts, args, isCidr).Ok?
    ensures BuildCommand(Validate(ScanLiveHosts, args, isCidr).value).args
      != [Arg("-PE"), Arg(NO_PORT_SCAN), Arg("198.167.0.0/24")]
  {
    LiveHostTargetSlashedTwice(args, isCidr);
    SampleHasOneSlash();
  }

  lemma OneSlash(a: string, b: string)
    requires '/' !in a && '/' !in b
    ensures Slashes(a + "/" + b) == 1
  {
    SlashesCount(a);
    SlashesCount(b);
    SlashesConcat(a, "/");
    SlashesConcat(a + "/", b);
  }

  lemma SampleHasOneSlash()
    ensures Slashes("198.167.0.0/24") == 1
  {
    OneSlash("198.167.0.0", "24");
    assert "198.167.0.0/24" == "198.167.0.0" + "/" + "24";
  }
}
