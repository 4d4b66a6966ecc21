/**
 * The packet tunnel provider of the network extension: the subnet-mask
 * arithmetic, the settings it derives from the start options, and the
 * early-exit sequencing of start, stop, app messages and engine stops. Every
 * result of the engine (the Rust library behind the FFI) and of the operating
 * system arrives as a parameter; the provider records what it reports.
 */
module PacketTunnel {
  import opened Wrappers
  import opened Strings
  import opened Octets

  // ---------------------------------------------------------------------------
  // Subnet masks

  /** Bit `i` of `m`, counting from the least significant. */
  predicate Bit(m: bv32, i: nat)
    requires i < 32
  {
    (m >> i) & 1 == 1
  }

  /** `UInt32.max << (32 - cidr)`, or 0 for a zero prefix. */
  function SubnetMask(cidr: int): (m: bv32)
    requires 0 <= cidr <= 32
    ensures forall i: nat :: i < 32 ==> (Bit(m, i) <==> i >= 32 - cidr)
  {
    if cidr == 0 then
      assert forall i: nat :: i < 32 ==> !Bit(0, i);
      0
    else
      var m: bv32 := 0xFFFF_FFFF << (32 - cidr);
      OnesFrom(32 - cidr, m);
      m
  }

  /** Shifting all ones left by `k` leaves exactly bits `k` and up set. */
  lemma OnesFrom(k: nat, m: bv32)
    requires k < 32 && m == 0xFFFF_FFFF << k
    ensures forall i: nat :: i < 32 ==> (Bit(m, i) <==> i >= k)
  {
    forall i: nat | i < 32
      ensures Bit(m, i) <==> i >= k
    {
      OnesBit(k, i);
    }
  }

  lemma OnesBit(k: nat, i: nat)
    requires k < 32 && i < 32
    ensures Bit(0xFFFF_FFFF << k, i) <==> i >= k
  {
    OnesBitBits(k as bv32, i as bv32);
  }

  lemma OnesBitBits(k: bv32, i: bv32)
    requires k < 32 && i < 32
    ensures (((0xFFFF_FFFF as bv32) << k) >> i) & 1 == 1 <==> i >= k
  {
  }

  /** Four decimal octets joined by `.`, most significant first. */
  function DottedQuad(m: bv32): string {
    Dotted(Octet(m, 0), Octet(m, 1), Octet(m, 2), Octet(m, 3))
  }

  /** `cidrToSubnetMask(_:)`: the dotted mask of a prefix length 0..32, nil otherwise. */
  function CidrToSubnetMask(cidr: int): (r: Option<string>)
    ensures r.None? <==> cidr < 0 || cidr > 32
    ensures r.Some? ==> r.value == DottedQuad(SubnetMask(cidr))
  {
    if cidr < 0 || cidr > 32 then None else Some(DottedQuad(SubnetMask(cidr)))
  }

  lemma DecOfOctet()
    ensures Dec(0) == "0" && Dec(255) == "255"
  {
    assert Dec(25) == "25";
  }

  /** The three masks people write most, rendered. */
  lemma CommonMasks()
    ensures CidrToSubnetMask(0) == Some("0.0.0.0")
    ensures CidrToSubnetMask(24) == Some("255.255.255.0")
    ensures CidrToSubnetMask(32) == Some("255.255.255.255")
  {
    NoMask();
    ClassCMask();
    HostMask();
  }

  lemma NoMask()
    ensures CidrToSubnetMask(0) == Some("0.0.0.0")
  {
    DecOfOctet();
    assert SubnetMask(0) == 0;
    assert Octet(0, 0) == 0 && Octet(0, 1) == 0 && Octet(0, 2) == 0 && Octet(0, 3) == 0;
    assert Join(["0", "0", "0", "0"], '.') == "0.0.0.0";
  }

  lemma ClassCMask()
    ensures CidrToSubnetMask(24) == Some("255.255.255.0")
  {
    DecOfOctet();
    assert SubnetMask(24) == 0xFFFF_FF00;
    assert Octet(0xFFFF_FF00, 0) == 255 && Octet(0xFFFF_FF00, 1) == 255;
    assert Octet(0xFFFF_FF00, 2) == 255 && Octet(0xFFFF_FF00, 3) == 0;
    assert Join(["255", "255", "255", "0"], '.') == "255.255.255.0";
  }

  lemma HostMask()
    ensures CidrToSubnetMask(32) == Some("255.255.255.255")
  {
    DecOfOctet();
    assert SubnetMask(32) == 0xFFFF_FFFF;
    assert Octet(0xFFFF_FFFF, 0) == 255 && Octet(0xFFFF_FFFF, 1) == 255;
    assert Octet(0xFFFF_FFFF, 2) == 255 && Octet(0xFFFF_FFFF, 3) == 255;
    assert Join(["255", "255", "255", "255"], '.') == "255.255.255.255";
  }

  // ---------------------------------------------------------------------------
  // Tunnel settings

  /** The values the start options carry, as the provider casts them. */
  datatype OptionValue = StringValue(s: string) | NumberValue(n: int) | OtherValue

  datatype Ipv4Settings = Ipv4Settings(addresses: seq<string>, subnetMasks: seq<string>)

  datatype Ipv6Settings = Ipv6Settings(addresses: seq<string>, networkPrefixLengths: seq<int>)

  /** `NEPacketTunnelNetworkSettings`, with `None` for a property never assigned. */
  datatype NetworkSettings = NetworkSettings(
    tunnelRemoteAddress: string,
    ipv4: Option<Ipv4Settings>,
    ipv6: Option<Ipv6Settings>,
    mtu: Option<int>)

  const Int64Min: int := -0x8000_0000_0000_0000
  const Int64Max: int := 0x7FFF_FFFF_FFFF_FFFF

  predicate IsSlash(c: char) {
    c == '/'
  }

  /**
   * The address and prefix of an `"<address>/<prefix>"` option: the string
   * split on `/` with empty pieces dropped must give exactly two pieces, and
   * the second must parse as an `Int`.
   */
  function ParsedPrefix(options: map<string, OptionValue>, key: string): (r: Option<(string, int)>)
    ensures r.Some? ==> key in options && options[key].StringValue?
    ensures r.Some? ==> r.value.0 != [] && '/' !in r.value.0
    ensures r.Some? ==> Int64Min <= r.value.1 <= Int64Max
    ensures r.Some? ==> var ps := Split(options[key].s, IsSlash);
      |ps| == 2 && ps[0] == r.value.0 && ParseInteger(ps[1], Int64Min, Int64Max) == Some(r.value.1)
    ensures (key in options && options[key].StringValue? && |Split(options[key].s, IsSlash)| == 2
      && ParseInteger(Split(options[key].s, IsSlash)[1], Int64Min, Int64Max).Some?) ==> r.Some?
  {
    if key in options && options[key].StringValue? then
      var pieces := Split(options[key].s, IsSlash);
      if |pieces| == 2 then
        assert pieces[0] in pieces;
        match ParseInteger(pieces[1], Int64Min, Int64Max)
        case Some(n) => Some((pieces[0], n))
        case None => None
      else None
    else None
  }

  /** An address without `/`, a `/` and a rendered prefix parse back to the two. */
  lemma AddressPrefixRoundTrip(options: map<string, OptionValue>, key: string, address: string, prefix: nat)
    requires key in options && options[key] == StringValue(address + "/" + Dec(prefix))
    requires address != [] && '/' !in address
    requires prefix <= Int64Max
    ensures ParsedPrefix(options, key) == Some((address, prefix))
  {
    var digits := Dec(prefix);
    assert '/' !in digits by {
      assert forall c :: c in digits ==> IsDigit(c);
    }
    assert address + "/" + digits == Join([address, digits], '/');
    SplitJoin([address, digits], '/', IsSlash);
    ParseDec(prefix, Int64Min, Int64Max);
  }

  /** The IPv4 settings: an address and a prefix 0..32, its mask. */
  function Ipv4For(options: map<string, OptionValue>): (r: Option<Ipv4Settings>)
    ensures r.Some? <==> ParsedPrefix(options, "ipv4").Some? && 0 <= ParsedPrefix(options, "ipv4").value.1 <= 32
    ensures r.Some? ==> r.value.addresses == [ParsedPrefix(options, "ipv4").value.0]
    ensures r.Some? ==> r.value.subnetMasks == [CidrToSubnetMask(ParsedPrefix(options, "ipv4").value.1).value]
  {
    match ParsedPrefix(options, "ipv4")
    case Some((ip, cidr)) =>
      (match CidrToSubnetMask(cidr)
       case Some(mask) => Some(Ipv4Settings([ip], [mask]))
       case None => None)
    case None => None
  }

  /** The IPv6 settings: an address and any `Int` prefix, passed through unchecked. */
  function Ipv6For(options: map<string, OptionValue>): (r: Option<Ipv6Settings>)
    ensures r.Some? <==> ParsedPrefix(options, "ipv6").Some?
    ensures r.Some? ==> r.value == Ipv6Settings([ParsedPrefix(options, "ipv6").value.0], [ParsedPrefix(options, "ipv6").value.1])
  {
    match ParsedPrefix(options, "ipv6")
    case Some((ip, prefix)) => Some(Ipv6Settings([ip], [prefix]))
    case None => None
  }

  /** The MTU: copied when the option is a number. */
  function MtuFor(options: map<string, OptionValue>): (r: Option<int>)
    ensures r.Some? <==> "mtu" in options && options["mtu"].NumberValue?
    ensures r.Some? ==> r.value == options["mtu"].n
  {
    if "mtu" in options && options["mtu"].NumberValue? then Some(options["mtu"].n) else None
  }

  /**
   * `prepareSettings(_:)`: remote address `0.0.0.0`, then each of IPv4, IPv6
   * and MTU assigned on its own, so a malformed one never blocks the others.
   */
  function PrepareSettings(options: map<string, OptionValue>): (r: NetworkSettings)
    ensures r.tunnelRemoteAddress == "0.0.0.0"
    ensures r.ipv4.Some? ==> ParsedPrefix(options, "ipv4").Some?
    ensures r.ipv6.Some? ==> ParsedPrefix(options, "ipv6").Some?
  {
    NetworkSettings("0.0.0.0", Ipv4For(options), Ipv6For(options), MtuFor(options))
  }

  /**
   * A well-formed IPv4 option yields its address and mask whatever the IPv6
   * and MTU options hold; an out-of-range prefix yields no IPv4 settings.
   */
  lemma Ipv4FromOption(options: map<string, OptionValue>, address: string, prefix: nat)
    requires "ipv4" in options && options["ipv4"] == StringValue(address + "/" + Dec(prefix))
    requires address != [] && '/' !in address
    requires prefix <= Int64Max
    ensures prefix <= 32 ==> PrepareSettings(options).ipv4 == Some(Ipv4Settings([address], [DottedQuad(SubnetMask(prefix))]))
    ensures prefix > 32 ==> PrepareSettings(options).ipv4.None?
  {
    AddressPrefixRoundTrip(options, "ipv4", address, prefix);
  }

  /** The same for IPv6, with no bound on the prefix. */
  lemma Ipv6FromOption(options: map<string, OptionValue>, address: string, prefix: nat)
    requires "ipv6" in options && options["ipv6"] == StringValue(address + "/" + Dec(prefix))
    requires address != [] && '/' !in address
    requires prefix <= Int64Max
    ensures PrepareSettings(options).ipv6 == Some(Ipv6Settings([address], [prefix]))
  {
    AddressPrefixRoundTrip(options, "ipv6", address, prefix);
  }

  /** Changing one option leaves the settings the other options give unchanged. */
  lemma SettingsIndependent(options: map<string, OptionValue>, key: string, v: OptionValue)
    ensures key != "ipv4" ==> PrepareSettings(options[key := v]).ipv4 == PrepareSettings(options).ipv4
    ensures key != "ipv6" ==> PrepareSettings(options[key := v]).ipv6 == PrepareSettings(options).ipv6
    ensures key != "mtu" ==> PrepareSettings(options[key := v]).mtu == PrepareSettings(options).mtu
  {
    var updated := options[key := v];
    if key != "ipv4" {
      assert Ipv4For(updated) == Ipv4For(options) by {
        PrefixIndependent(options, key, v, "ipv4");
      }
    }
    if key != "ipv6" {
      assert Ipv6For(updated) == Ipv6For(options) by {
        PrefixIndependent(options, key, v, "ipv6");
      }
    }
    if key != "mtu" {
      assert MtuFor(updated) == MtuFor(options);
    }
  }

  lemma PrefixIndependent(options: map<string, OptionValue>, key: string, v: OptionValue, other: string)
    requires key != other
    ensures ParsedPrefix(options[key := v], other) == ParsedPrefix(options, other)
  {
    assert (other in options[key := v]) == (other in options);
    if other in options {
      assert options[key := v][other] == options[other];
    }
  }

  // ---------------------------------------------------------------------------
  // Start sequencing

  /** What `run_network_instance` reports: success, or failure with the message it left, if any. */
  datatype EngineResult = EngineOk | EngineFailed(message: Option<string>)

  const ErrorNotification: string := "site.yinmo.easytier.tunnel.error"

  /** The `config` option, when it is a string. */
  function ConfigOption(options: map<string, OptionValue>): (r: Option<string>)
    ensures r.Some? <==> "config" in options && options["config"].StringValue?
    ensures r.Some? ==> r.value == options["config"].s
  {
    if "config" in options && options["config"].StringValue? then Some(options["config"].s) else None
  }

  /** The descriptor `set_tun_fd` is given: the packet flow's own, else the scanned one. */
  function TunFd(flowFd: Option<int>, scannedFd: Option<int>): (r: Option<int>)
    ensures r.None? <==> flowFd.None? && scannedFd.None?
    ensures flowFd.Some? ==> r == flowFd
    ensures flowFd.None? ==> r == scannedFd
  {
    if flowFd.Some? then flowFd else scannedFd
  }

  /** The text the host app is told about an engine failure: the message, else `"Unknown"`. */
  function EngineFailureMessage(message: Option<string>): (r: string)
    ensures message.Some? ==> r == message.value
    ensures message.None? ==> r == "Unknown"
  {
    message.GetOr("Unknown")
  }

  /**
   * The error a start runs into, `None` when every step succeeds: the message
   * the host app is notified with. This is also the completion the start
   * evidently means to report.
   */
  function StartError(
    options: Option<map<string, OptionValue>>, run: EngineResult,
    settingsError: Option<string>, flowFd: Option<int>, scannedFd: Option<int>): (r: Option<string>)
    ensures r.None? ==> options.Some? && ConfigOption(options.value).Some? && run.EngineOk?
    ensures r.None? ==> settingsError.None? && TunFd(flowFd, scannedFd).Some?
  {
    if options.None? then Some("options is nil")
    else if ConfigOption(options.value).None? then Some("config is empty")
    else if run.EngineFailed? then Some(EngineFailureMessage(run.message))
    else if settingsError.Some? then settingsError
    else if TunFd(flowFd, scannedFd).None? then Some("no available tun fd")
    else None
  }

  /**
   * A start runs into no error exactly when options and a `config` string are
   * given, the engine runs, the settings apply and a descriptor is found;
   * missing options or config give their fixed messages, and an engine
   * failure its message or `"Unknown"`.
   */
  lemma StartErrorIff(
    options: Option<map<string, OptionValue>>, run: EngineResult,
    settingsError: Option<string>, flowFd: Option<int>, scannedFd: Option<int>)
    ensures StartError(options, run, settingsError, flowFd, scannedFd).None? <==>
      && options.Some? && ConfigOption(options.value).Some?
      && run.EngineOk? && settingsError.None? && (flowFd.Some? || scannedFd.Some?)
    ensures options.None? ==> StartError(options, run, settingsError, flowFd, scannedFd) == Some("options is nil")
    ensures options.Some? && ConfigOption(options.value).None? ==>
      StartError(options, run, settingsError, flowFd, scannedFd) == Some("config is empty")
    ensures options.Some? && ConfigOption(options.value).Some? && run.EngineFailed? ==>
      StartError(options, run, settingsError, flowFd, scannedFd) == Some(run.message.GetOr("Unknown"))
  {
  }

  /**
   * The error `startTunnel` passes to its completion handler (`None` for
   * success), as written: on an engine failure it passes the extracted
   * message, which is nil when the engine left none.
   */
  function StartCompletion(
    options: Option<map<string, OptionValue>>, run: EngineResult,
    settingsError: Option<string>, flowFd: Option<int>, scannedFd: Option<int>): (r: Option<string>)
    ensures r.None? ==> options.Some? && ConfigOption(options.value).Some?
    ensures run.EngineOk? && settingsError.None? && TunFd(flowFd, scannedFd).None? ==> r.Some?
  {
    if options.None? then Some("options is nil")
    else if ConfigOption(options.value).None? then Some("config is empty")
    else if run.EngineFailed? then run.message
    else if settingsError.Some? then settingsError
    else if TunFd(flowFd, scannedFd).None? then Some("no available tun fd")
    else None
  }

  /**
   * A start completes as a success exactly when every step succeeds, or when
   * the engine fails without leaving a message.
   */
  lemma StartSucceedsIff(
    options: Option<map<string, OptionValue>>, run: EngineResult,
    settingsError: Option<string>, flowFd: Option<int>, scannedFd: Option<int>)
    ensures StartCompletion(options, run, settingsError, flowFd, scannedFd).None? <==>
      && options.Some? && ConfigOption(options.value).Some?
      && (|| (run.EngineOk? && settingsError.None? && (flowFd.Some? || scannedFd.Some?))
          || (run.EngineFailed? && run.message.None?))
    ensures options.None? ==> StartCompletion(options, run, settingsError, flowFd, scannedFd) == Some("options is nil")
    ensures options.Some? && ConfigOption(options.value).None? ==>
      StartCompletion(options, run, settingsError, flowFd, scannedFd) == Some("config is empty")
    ensures options.Some? && ConfigOption(options.value).Some? && run.EngineFailed? ==>
      StartCompletion(options, run, settingsError, flowFd, scannedFd) == run.message
  {
  }

  /**
   * The completion agrees with the error the host app is notified of, except
   * for an engine failure without a message: the host app hears `"Unknown"`
   * while the start completes as a success.
   */
  lemma CompletionDivergesOnlyWithoutMessage(
    options: Option<map<string, OptionValue>>, run: EngineResult,
    settingsError: Option<string>, flowFd: Option<int>, scannedFd: Option<int>)
    ensures !(options.Some? && ConfigOption(options.value).Some? && run == EngineFailed(None)) ==>
      StartCompletion(options, run, settingsError, flowFd, scannedFd) == StartError(options, run, settingsError, flowFd, scannedFd)
    ensures options.Some? && ConfigOption(options.value).Some? && run == EngineFailed(None) ==>
      && StartCompletion(options, run, settingsError, flowFd, scannedFd).None?
      && StartError(options, run, settingsError, flowFd, scannedFd) == Some("Unknown")
  {
  }

  /**
   * The provider. `isCurrent` is the static weak `current` reference pointing
   * here; `lastError` is `TunnelLastError` in the app group's shared defaults
   * (written only when `hasSharedDefaults`); `posted` the Darwin notifications
   * sent; `completions` the errors the start completion handler received
   * (`None` for success); `engineConfig` the configuration the engine was
   * started with; `appliedSettings` what `setTunnelNetworkSettings` was given;
   * `pendingTunFd` the descriptor handed to the background `set_tun_fd`;
   * `cancelError` the error the tunnel was cancelled with; `stopCompletions`
   * how often a stop completed.
   */
  class TunnelProvider {
    const hasSharedDefaults: bool
    var isCurrent: bool
    var lastError: Option<string>
    var posted: seq<string>
    var completions: seq<Option<string>>
    var engineConfig: Option<string>
    var appliedSettings: Option<NetworkSettings>
    var pendingTunFd: Option<int>
    var cancelError: Option<string>
    var stopCompletions: nat

    constructor (hasSharedDefaults: bool)
      ensures this.hasSharedDefaults == hasSharedDefaults
      ensures !isCurrent && lastError.None? && posted == [] && completions == []
      ensures engineConfig.None? && appliedSettings.None? && pendingTunFd.None?
      ensures cancelError.None? && stopCompletions == 0
    {
      this.hasSharedDefaults := hasSharedDefaults;
      isCurrent := false;
      lastError := None;
      posted := [];
      completions := [];
      engineConfig := None;
      appliedSettings := None;
      pendingTunFd := None;
      cancelError := None;
      stopCompletions := 0;
    }

    /** `notifyHostAppError(_:)`: overwrite the shared error slot, then post the error notification. */
    method NotifyHostAppError(message: string)
      modifies this
      ensures lastError == if hasSharedDefaults then Some(message) else old(lastError)
      ensures posted == old(posted) + [ErrorNotification]
      ensures isCurrent == old(isCurrent) && completions == old(completions)
      ensures engineConfig == old(engineConfig) && appliedSettings == old(appliedSettings)
      ensures pendingTunFd == old(pendingTunFd) && cancelError == old(cancelError)
      ensures stopCompletions == old(stopCompletions)
    {
      if hasSharedDefaults {
        lastError := Some(message);
      }
      posted := posted + [ErrorNotification];
    }

    /**
     * `startTunnel(options:completionHandler:)` up to the completion, with the
     * settings callback run in line. Each failure notifies the host app of its
     * error and completes; `set_tun_fd` runs later, in `FinishTunFdHandoff`.
     */
    method StartTunnel(
      options: Option<map<string, OptionValue>>, run: EngineResult,
      settingsError: Option<string>, flowFd: Option<int>, scannedFd: Option<int>)
      modifies this
      ensures isCurrent
      ensures completions == old(completions) + [StartCompletion(options, run, settingsError, flowFd, scannedFd)]
      ensures var e := StartError(options, run, settingsError, flowFd, scannedFd);
        && posted == old(posted) + (if e.Some? then [ErrorNotification] else [])
        && lastError == if e.Some? && hasSharedDefaults then e else old(lastError)
      ensures engineConfig == if options.Some? && ConfigOption(options.value).Some?
        then ConfigOption(options.value) else old(engineConfig)
      ensures appliedSettings == if options.Some? && ConfigOption(options.value).Some? && run.EngineOk?
        then Some(PrepareSettings(options.value)) else old(appliedSettings)
      ensures pendingTunFd == if StartError(options, run, settingsError, flowFd, scannedFd).None?
        then TunFd(flowFd, scannedFd) else old(pendingTunFd)
      ensures cancelError == old(cancelError) && stopCompletions == old(stopCompletions)
    {
      isCurrent := true;
      if options.None? {
        NotifyHostAppError("options is nil");
        completions := completions + [Some("options is nil")];
        return;
      }
      var config := ConfigOption(options.value);
      if config.None? {
        NotifyHostAppError("config is empty");
        completions := completions + [Some("config is empty")];
        return;
      }
      engineConfig := config;
      if run.EngineFailed? {
        NotifyHostAppError(EngineFailureMessage(run.message));
        completions := completions + [run.message];
        return;
      }
      appliedSettings := Some(PrepareSettings(options.value));
      if settingsError.Some? {
        NotifyHostAppError(settingsError.value);
        completions := completions + [settingsError];
        return;
      }
      var tunFd := TunFd(flowFd, scannedFd);
      if tunFd.None? {
        NotifyHostAppError("no available tun fd");
        completions := completions + [Some("no available tun fd")];
        return;
      }
      pendingTunFd := tunFd;
      completions := completions + [None];
    }

    /**
     * The background `set_tun_fd` of a start that already completed: on
     * failure the host app is notified (message, else `"Unknown"`) and a second
     * completion carries the extracted message, nil when there is none.
     */
    method FinishTunFdHandoff(result: EngineResult)
      requires pendingTunFd.Some?
      modifies this
      ensures pendingTunFd.None?
      ensures result.EngineOk? ==> completions == old(completions) && posted == old(posted) && lastError == old(lastError)
      ensures result.EngineFailed? ==> (
        && completions == old(completions) + [result.message]
        && posted == old(posted) + [ErrorNotification]
        && lastError == if hasSharedDefaults then Some(EngineFailureMessage(result.message)) else old(lastError))
      ensures isCurrent == old(isCurrent) && engineConfig == old(engineConfig)
      ensures appliedSettings == old(appliedSettings) && cancelError == old(cancelError)
      ensures stopCompletions == old(stopCompletions)
    {
      pendingTunFd := None;
      if result.EngineFailed? {
        NotifyHostAppError(EngineFailureMessage(result.message));
        completions := completions + [result.message];
      }
    }

    /**
     * `handleRustStop()`: when the engine reports its latest error message,
     * notify the host app and cancel the tunnel with it; otherwise only log.
     */
    method HandleEngineStop(ret: int, message: Option<string>)
      modifies this
      ensures ret == 0 && message.Some? ==> (
        && cancelError == message
        && posted == old(posted) + [ErrorNotification]
        && lastError == if hasSharedDefaults then message else old(lastError))
      ensures !(ret == 0 && message.Some?) ==> (
        cancelError == old(cancelError) && posted == old(posted) && lastError == old(lastError))
      ensures isCurrent == old(isCurrent) && completions == old(completions)
      ensures engineConfig == old(engineConfig) && appliedSettings == old(appliedSettings)
      ensures pendingTunFd == old(pendingTunFd) && stopCompletions == old(stopCompletions)
    {
      if ret == 0 && message.Some? {
        NotifyHostAppError(message.value);
        cancelError := message;
      }
    }

    /**
     * The engine's stop callback: it reaches `handleRustStop()` only through
     * `current`, so a provider that is no longer current ignores it.
     */
    method EngineStopCallback(ret: int, message: Option<string>)
      modifies this
      ensures isCurrent && ret == 0 && message.Some? ==> (
        && cancelError == message
        && posted == old(posted) + [ErrorNotification]
        && lastError == if hasSharedDefaults then message else old(lastError))
      ensures !(isCurrent && ret == 0 && message.Some?) ==> (
        cancelError == old(cancelError) && posted == old(posted) && lastError == old(lastError))
      ensures isCurrent == old(isCurrent) && completions == old(completions)
      ensures engineConfig == old(engineConfig) && appliedSettings == old(appliedSettings)
      ensures pendingTunFd == old(pendingTunFd) && stopCompletions == old(stopCompletions)
    {
      if isCurrent {
        HandleEngineStop(ret, message);
      }
    }

    /** `stopTunnel(with:completionHandler:)`: whatever the engine stop returns, drop `current` and complete. */
    method StopTunnel(stopResult: int)
      modifies this
      ensures !isCurrent && stopCompletions == old(stopCompletions) + 1
      ensures lastError == old(lastError) && posted == old(posted) && completions == old(completions)
      ensures engineConfig == old(engineConfig) && appliedSettings == old(appliedSettings)
      ensures pendingTunFd == old(pendingTunFd) && cancelError == old(cancelError)
    {
      isCurrent := false;
      stopCompletions := stopCompletions + 1;
    }
  }

  /**
   * A fresh provider whose engine fails without a message notifies the host
   * app of `"Unknown"` and yet completes the start as a success.
   */
  method EngineFailureReportedAsSuccess(options: map<string, OptionValue>, hasSharedDefaults: bool)
    returns (completions: seq<Option<string>>, posted: seq<string>, lastError: Option<string>)
    requires ConfigOption(options).Some?
    ensures completions == [None]
    ensures posted == [ErrorNotification]
    ensures lastError == if hasSharedDefaults then Some("Unknown") else None
  {
    var provider := new TunnelProvider(hasSharedDefaults);
    provider.StartTunnel(Some(options), EngineFailed(None), None, None, None);
    completions, posted, lastError := provider.completions, provider.posted, provider.lastError;
  }

  /**
   * `handleAppMessage(_:completionHandler:)`: no reply without a handler;
   * otherwise the running info when the engine returns it, else an empty reply.
   * `None` means the handler is not called, `Some(None)` that it gets nil.
   */
  function AppMessageReply(hasHandler: bool, ret: int, info: Option<string>): (r: Option<Option<string>>)
    ensures r.None? <==> !hasHandler
    ensures r.Some? && r.value.Some? <==> hasHandler && ret == 0 && info.Some?
    ensures r.Some? && r.value.Some? ==> r.value == info
  {
    if !hasHandler then None
    else if ret == 0 && info.Some? then Some(info)
    else Some(None)
  }
}
