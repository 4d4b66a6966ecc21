/**
 * The network configuration model: the networking-method enumeration, the
 * port-forward record and its defaults, the full configuration with the
 * defaults a new network starts from, and the dotted-quad parser of the
 * 32-bit IPv4 address type.
 */
module NetworkModels {
  import opened Wrappers
  import opened Strings
  import opened Octets

  /** A `UUID`; only equality matters here. */
  type Uuid = nat

  // ---------------------------------------------------------------------------
  // Enumerations and records

  /** `NetworkingMethod`, an `Int`-backed enumeration. */
  datatype NetworkingMethod = PublicServer | Manual | Standalone {
    function RawValue(): (r: int)
      ensures 0 <= r <= 2
    {
      match this
      case PublicServer => 0
      case Manual => 1
      case Standalone => 2
    }
  }

  /** `init?(rawValue:)`. */
  function NetworkingMethodFromRawValue(raw: int): (r: Option<NetworkingMethod>)
    ensures r.Some? <==> 0 <= raw <= 2
  {
    if raw == 0 then Some(PublicServer)
    else if raw == 1 then Some(Manual)
    else if raw == 2 then Some(Standalone)
    else None
  }

  /** The raw values are 0, 1, 2 and decode back to their cases. */
  lemma NetworkingMethodRawValues(m: NetworkingMethod, raw: int)
    ensures NetworkingMethodFromRawValue(m.RawValue()) == Some(m)
    ensures NetworkingMethodFromRawValue(raw).Some? ==> NetworkingMethodFromRawValue(raw).value.RawValue() == raw
    ensures PublicServer.RawValue() == 0 && Manual.RawValue() == 1 && Standalone.RawValue() == 2
  {
  }

  /** `PortForwardConfig`; the id is not encoded. */
  datatype PortForwardConfig = PortForwardConfig(
    id: Uuid,
    bind_ip: string,
    bind_port: int,
    dst_ip: string,
    dst_port: int,
    proto: string)

  /** `PortForwardConfig()`: a fresh id, empty addresses, ports 0, protocol `tcp`. */
  function DefaultPortForward(id: Uuid): (r: PortForwardConfig)
    ensures r.id == id && r.proto == "tcp"
    ensures r.bind_ip == "" && r.dst_ip == "" && r.bind_port == 0 && r.dst_port == 0
  {
    PortForwardConfig(id, "", 0, "", 0, "tcp")
  }

  /** `NetworkConfig`, field for field, under the TOML keys it encodes to. */
  datatype NetworkConfig = NetworkConfig(
    instance_id: string,
    dhcp: bool,
    virtual_ipv4: string,
    network_length: int,
    hostname: Option<string>,
    network_name: string,
    network_secret: string,
    networking_method: NetworkingMethod,
    public_server_url: string,
    peer_urls: seq<string>,
    proxy_cidrs: seq<string>,
    enable_vpn_portal: bool,
    vpn_portal_listen_port: int,
    vpn_portal_client_network_addr: string,
    vpn_portal_client_network_len: int,
    advanced_settings: bool,
    listener_urls: seq<string>,
    latency_first: bool,
    dev_name: string,
    use_smoltcp: bool,
    disable_ipv6: bool,
    enable_kcp_proxy: bool,
    disable_kcp_input: bool,
    enable_quic_proxy: bool,
    disable_quic_input: bool,
    disable_p2p: bool,
    p2p_only: bool,
    bind_device: bool,
    no_tun: bool,
    enable_exit_node: bool,
    relay_all_peer_rpc: bool,
    multi_thread: bool,
    proxy_forward_by_system: bool,
    disable_encryption: bool,
    disable_udp_hole_punching: bool,
    disable_sym_hole_punching: bool,
    enable_relay_network_whitelist: bool,
    relay_network_whitelist: seq<string>,
    enable_manual_routes: bool,
    routes: seq<string>,
    port_forwards: seq<PortForwardConfig>,
    exit_nodes: seq<string>,
    enable_socks5: bool,
    socks5_port: int,
    mtu: Option<int>,
    mapped_listeners: seq<string>,
    enable_magic_dns: bool,
    enable_private_mode: bool)

  /** Every on/off switch of the configuration is off. */
  predicate AllSwitchesOff(c: NetworkConfig) {
    && !c.enable_vpn_portal && !c.advanced_settings && !c.latency_first
    && !c.use_smoltcp && !c.disable_ipv6 && !c.enable_kcp_proxy && !c.disable_kcp_input
    && !c.enable_quic_proxy && !c.disable_quic_input && !c.disable_p2p && !c.p2p_only
    && !c.bind_device && !c.no_tun && !c.enable_exit_node && !c.relay_all_peer_rpc
    && !c.multi_thread && !c.proxy_forward_by_system && !c.disable_encryption
    && !c.disable_udp_hole_punching && !c.disable_sym_hole_punching
    && !c.enable_relay_network_whitelist && !c.enable_manual_routes && !c.enable_socks5
    && !c.enable_magic_dns && !c.enable_private_mode
  }

  /** `defaultConfig()`; `instanceId` stands for the fresh UUID string. */
  function DefaultConfig(instanceId: string): (c: NetworkConfig)
    ensures c.instance_id == instanceId
  {
    NetworkConfig(
      instance_id := instanceId,
      dhcp := true,
      virtual_ipv4 := "10.144.144.0",
      network_length := 24,
      hostname := None,
      network_name := "default",
      network_secret := "",
      networking_method := PublicServer,
      public_server_url := "https://api.example.com",
      peer_urls := [],
      proxy_cidrs := [],
      enable_vpn_portal := false,
      vpn_portal_listen_port := 22022,
      vpn_portal_client_network_addr := "10.144.144.0",
      vpn_portal_client_network_len := 24,
      advanced_settings := false,
      listener_urls := ["tcp://0.0.0.0:11010", "udp://0.0.0.0:11010", "wg://0.0.0.0:11011"],
      latency_first := false,
      dev_name := "utun10",
      use_smoltcp := false,
      disable_ipv6 := false,
      enable_kcp_proxy := false,
      disable_kcp_input := false,
      enable_quic_proxy := false,
      disable_quic_input := false,
      disable_p2p := false,
      p2p_only := false,
      bind_device := false,
      no_tun := false,
      enable_exit_node := false,
      relay_all_peer_rpc := false,
      multi_thread := false,
      proxy_forward_by_system := false,
      disable_encryption := false,
      disable_udp_hole_punching := false,
      disable_sym_hole_punching := false,
      enable_relay_network_whitelist := false,
      relay_network_whitelist := [],
      enable_manual_routes := false,
      routes := [],
      port_forwards := [],
      exit_nodes := [],
      enable_socks5 := false,
      socks5_port := 1080,
      mtu := None,
      mapped_listeners := [],
      enable_magic_dns := false,
      enable_private_mode := false)
  }

  /**
   * A new network uses DHCP on `10.144.144.0/24` through the public server,
   * with no host name, MTU, peers or port forwards, every switch off, the
   * three default listeners and ports 1080 and 22022.
   */
  lemma DefaultConfigValues(instanceId: string)
    ensures var c := DefaultConfig(instanceId);
      && c.instance_id == instanceId
      && c.dhcp && c.virtual_ipv4 == "10.144.144.0" && c.network_length == 24
      && c.networking_method == PublicServer && c.networking_method.RawValue() == 0
      && c.hostname.None? && c.mtu.None? && c.port_forwards == [] && c.peer_urls == []
      && AllSwitchesOff(c)
      && c.listener_urls == ["tcp://0.0.0.0:11010", "udp://0.0.0.0:11010", "wg://0.0.0.0:11011"]
      && c.socks5_port == 1080 && c.vpn_portal_listen_port == 22022
  {
  }

  // ---------------------------------------------------------------------------
  // IPv4 addresses

  /** `Ipv4Addr`: an address as one 32-bit number. */
  datatype Ipv4Addr = Ipv4Addr(addr: bv32)

  predicate IsDot(c: char) {
    c == '.'
  }

  /** `compactMap { UInt32($0) }`: the pieces that parse, in order; the rest dropped. */
  function ParsedPieces(pieces: seq<string>): (r: seq<nat>)
    ensures |r| <= |pieces|
    ensures forall k :: 0 <= k < |r| ==> r[k] <= UInt32Max
  {
    if pieces == [] then []
    else
      var rest := ParsedPieces(pieces[1..]);
      match ParseInteger(pieces[0], 0, UInt32Max)
      case Some(v) => [v as nat] + rest
      case None => rest
  }

  /** One piece gives its value when it parses as `UInt32`, and nothing otherwise. */
  lemma ParsedPiece(w: string)
    ensures ParsedPieces([w]) == match ParseInteger(w, 0, UInt32Max)
      case Some(v) => [v as nat]
      case None => []
  {
    assert [w][1..] == [];
  }

  /**
   * Pieces are parsed one at a time: the values of a concatenation are the
   * values of each part, in order, so a piece that does not parse is dropped
   * without affecting the others.
   */
  lemma {:induction false} ParsedPiecesAppend(a: seq<string>, b: seq<string>)
    ensures ParsedPieces(a + b) == ParsedPieces(a) + ParsedPieces(b)
    decreases |a|
  {
    if a == [] {
      assert a + b == b;
    } else {
      assert (a + b)[0] == a[0];
      assert (a + b)[1..] == a[1..] + b;
      ParsedPiecesAppend(a[1..], b);
    }
  }

  /**
   * `Ipv4Addr.fromString(_:)`: split on `.` dropping empty pieces, keep the
   * pieces that parse as `UInt32`, and demand exactly four of those.
   */
  function Ipv4FromString(s: string): (r: Option<Ipv4Addr>)
    ensures r.Some? <==> |ParsedPieces(Split(s, IsDot))| == 4
  {
    var cs := ParsedPieces(Split(s, IsDot));
    if |cs| != 4 then None
    else Some(Ipv4Addr(Combine(cs[0], cs[1], cs[2], cs[3])))
  }

  /** Decimal numbers joined by dots parse back piece by piece. */
  lemma {:induction false} DottedPieces(c0: nat, c1: nat, c2: nat, c3: nat)
    requires c0 <= UInt32Max && c1 <= UInt32Max && c2 <= UInt32Max && c3 <= UInt32Max
    ensures ParsedPieces(Split(Dotted(c0, c1, c2, c3), IsDot)) == [c0, c1, c2, c3]
  {
    SplitDotted(c0, c1, c2, c3);
    ParsedDecimals(c0, c1, c2, c3);
  }

  lemma SplitDotted(c0: nat, c1: nat, c2: nat, c3: nat)
    ensures Split(Dotted(c0, c1, c2, c3), IsDot) == [Dec(c0), Dec(c1), Dec(c2), Dec(c3)]
  {
    var ps := [Dec(c0), Dec(c1), Dec(c2), Dec(c3)];
    forall w | w in ps
      ensures w != [] && NoneSatisfy(w, IsDot)
    {
      assert AllDigits(w);
    }
    SplitJoin(ps, '.', IsDot);
  }

  lemma ParsedDecimals(c0: nat, c1: nat, c2: nat, c3: nat)
    requires c0 <= UInt32Max && c1 <= UInt32Max && c2 <= UInt32Max && c3 <= UInt32Max
    ensures ParsedPieces([Dec(c0), Dec(c1), Dec(c2), Dec(c3)]) == [c0, c1, c2, c3]
  {
    ParseDec(c0, 0, UInt32Max);
    ParseDec(c1, 0, UInt32Max);
    ParseDec(c2, 0, UInt32Max);
    ParseDec(c3, 0, UInt32Max);
    ParsedFour(Dec(c0), Dec(c1), Dec(c2), Dec(c3), c0, c1, c2, c3);
  }

  /** Four pieces that each parse give their four values. */
  lemma ParsedFour(w0: string, w1: string, w2: string, w3: string, c0: nat, c1: nat, c2: nat, c3: nat)
    requires ParseInteger(w0, 0, UInt32Max) == Some(c0) && ParseInteger(w1, 0, UInt32Max) == Some(c1)
    requires ParseInteger(w2, 0, UInt32Max) == Some(c2) && ParseInteger(w3, 0, UInt32Max) == Some(c3)
    ensures ParsedPieces([w0, w1, w2, w3]) == [c0, c1, c2, c3]
  {
    assert [w3][1..] == [];
    assert ParsedPieces([w3]) == [c3];
    assert [w2, w3][1..] == [w3];
    assert ParsedPieces([w2, w3]) == [c2, c3];
    assert [w1, w2, w3][1..] == [w2, w3];
    assert ParsedPieces([w1, w2, w3]) == [c1, c2, c3];
    assert [w0, w1, w2, w3][1..] == [w1, w2, w3];
  }

  /**
   * Round trip: four octets 0..255 written as a dotted quad parse back to
   * the address whose bytes are those octets, most significant first.
   */
  lemma OctetsRoundTrip(c0: nat, c1: nat, c2: nat, c3: nat)
    requires c0 <= 255 && c1 <= 255 && c2 <= 255 && c3 <= 255
    ensures var r := Ipv4FromString(Dotted(c0, c1, c2, c3));
      && r.Some?
      && Octet(r.value.addr, 0) == c0 && Octet(r.value.addr, 1) == c1
      && Octet(r.value.addr, 2) == c2 && Octet(r.value.addr, 3) == c3
  {
    DottedPieces(c0, c1, c2, c3);
    CombineOctets(c0, c1, c2, c3);
  }

  /** Round trip: any address written as its four bytes parses back to itself. */
  lemma AddressRoundTrip(a: bv32)
    ensures Ipv4FromString(Dotted(Octet(a, 0), Octet(a, 1), Octet(a, 2), Octet(a, 3))) == Some(Ipv4Addr(a))
  {
    DottedPieces(Octet(a, 0), Octet(a, 1), Octet(a, 2), Octet(a, 3));
    RecombineOctets(a);
  }

  /**
   * Pieces that do not parse, and empty pieces, are dropped rather than
   * rejected; a piece above 255 carries into the byte above it; fewer than
   * four numbers is no address.
   */
  lemma LenientParses()
    ensures Ipv4FromString("1.x.2.3.4") == Some(Ipv4Addr(0x0102_0304))
    ensures Ipv4FromString("1..2.3.4") == Some(Ipv4Addr(0x0102_0304))
    ensures Ipv4FromString("0.0.0.256") == Ipv4FromString("0.0.1.0")
    ensures Ipv4FromString("1.2.3").None?
  {
    DropsUnparsed();
    DropsEmpty();
    CarriesOver();
    TooFew();
  }

  /** A literal made of dot-free pieces joined by dots splits back into them. */
  lemma SplitDots(s: string, ps: seq<string>)
    requires s == Join(ps, '.')
    requires forall k :: 0 <= k < |ps| ==> ps[k] != [] && NoneSatisfy(ps[k], IsDot)
    ensures Split(s, IsDot) == ps
  {
    SplitJoin(ps, '.', IsDot);
  }

  lemma SplitDotted1234()
    ensures Split("1.2.3.4", IsDot) == ["1", "2", "3", "4"]
  {
    SplitDots("1.2.3.4", ["1", "2", "3", "4"]);
  }

  lemma Pieces1234()
    ensures ParsedPieces(["1", "2", "3", "4"]) == [1, 2, 3, 4]
    ensures Combine(1, 2, 3, 4) == 0x0102_0304
  {
    assert Dotted(1, 2, 3, 4) == "1.2.3.4";
    DottedPieces(1, 2, 3, 4);
    SplitDotted1234();
  }

  lemma SplitUnparsed()
    ensures Split("1.x.2.3.4", IsDot) == ["1", "x", "2", "3", "4"]
  {
    var ps := ["1", "x", "2", "3", "4"];
    SplitDots("1.x.2.3.4", ps);
  }

  lemma ParsedSkipsUnparsed()
    ensures ParsedPieces(["1", "x", "2", "3", "4"]) == [1, 2, 3, 4]
  {
    var ps := ["1", "x", "2", "3", "4"];
    assert ParseInteger("x", 0, UInt32Max).None? by {
      assert !IsDigit("x"[0]);
    }
    Pieces1234();
    ParseDec(1, 0, UInt32Max);
    assert Dec(1) == "1";
    assert ps[1..][1..] == ["2", "3", "4"];
    assert ParsedPieces(["1", "2", "3", "4"])[1..] == ParsedPieces(["2", "3", "4"]);
    assert ParsedPieces(ps[1..]) == ParsedPieces(["2", "3", "4"]);
  }

  lemma DropsUnparsed()
    ensures Ipv4FromString("1.x.2.3.4") == Some(Ipv4Addr(0x0102_0304))
  {
    SplitUnparsed();
    ParsedSkipsUnparsed();
    Pieces1234();
  }

  /** The pieces of `1..2.3.4`, the empty one between the two dots included. */
  lemma ComponentsWithEmpty()
    ensures Components("1..2.3.4", IsDot) == ["1"] + ([[]] + ["2", "3", "4"])
  {
    assert "1..2.3.4" == "1" + ['.'] + ".2.3.4";
    ComponentsAfterPiece("1", '.', ".2.3.4", IsDot);
    ComponentsAfterEmpty();
  }

  lemma ComponentsAfterEmpty()
    ensures Components(".2.3.4", IsDot) == [[]] + ["2", "3", "4"]
  {
    assert ".2.3.4" == [] + ['.'] + "2.3.4";
    ComponentsAfterPiece([], '.', "2.3.4", IsDot);
    Components234();
  }

  lemma Components234()
    ensures Components("2.3.4", IsDot) == ["2", "3", "4"]
  {
    var ps := ["2", "3", "4"];
    assert "2.3.4" == Join(ps, '.');
    ComponentsOfJoin(ps, '.', IsDot);
  }

  lemma SplitDropsEmpty()
    ensures Split("1..2.3.4", IsDot) == ["1", "2", "3", "4"]
  {
    var rest: seq<string> := ["2", "3", "4"];
    ComponentsWithEmpty();
    assert rest[0] != [] && rest[1] != [] && rest[2] != [];
    DropsSecondEmpty("1..2.3.4", "1", rest);
    assert ["1"] + rest == ["1", "2", "3", "4"];
  }

  /** An empty second piece is dropped and the non-empty pieces around it kept. */
  lemma DropsSecondEmpty(s: string, a: string, rest: seq<string>)
    requires Components(s, IsDot) == [a] + ([[]] + rest)
    requires a != [] && forall k :: 0 <= k < |rest| ==> rest[k] != []
    ensures Split(s, IsDot) == [a] + rest
  {
    var qs := [[]] + rest;
    var ps := [a] + qs;
    assert Filter(ps, IsNonEmpty) == [a] + Filter(qs, IsNonEmpty) by {
      assert ps[0] == a && ps[1..] == qs;
    }
    assert Filter(qs, IsNonEmpty) == Filter(rest, IsNonEmpty) by {
      assert qs[0] == [] && qs[1..] == rest;
    }
    FilterAllKept(rest, IsNonEmpty);
  }

  lemma DropsEmpty()
    ensures Ipv4FromString("1..2.3.4") == Some(Ipv4Addr(0x0102_0304))
  {
    SplitDropsEmpty();
    Pieces1234();
  }

  lemma CarriesOver()
    ensures Ipv4FromString("0.0.0.256") == Ipv4FromString("0.0.1.0")
  {
    Parses0001();
    AddressOfPieces("0.0.0.256", 0, 0, 0, 256);
    Parses0010();
    AddressOfPieces("0.0.1.0", 0, 0, 1, 0);
    CarryIntoNextByte();
  }

  /** Four numbers read from the pieces make the address. */
  lemma AddressOfPieces(s: string, c0: nat, c1: nat, c2: nat, c3: nat)
    requires c0 <= UInt32Max && c1 <= UInt32Max && c2 <= UInt32Max && c3 <= UInt32Max
    requires ParsedPieces(Split(s, IsDot)) == [c0, c1, c2, c3]
    ensures Ipv4FromString(s) == Some(Ipv4Addr(Combine(c0, c1, c2, c3)))
  {
  }

  lemma Parses0001()
    ensures ParsedPieces(Split("0.0.0.256", IsDot)) == [0, 0, 0, 256]
  {
    SplitDots("0.0.0.256", ["0", "0", "0", "256"]);
    ParsesZero();
    Parses256();
    ParsedFour("0", "0", "0", "256", 0, 0, 0, 256);
  }

  lemma Parses0010()
    ensures ParsedPieces(Split("0.0.1.0", IsDot)) == [0, 0, 1, 0]
  {
    SplitDots("0.0.1.0", ["0", "0", "1", "0"]);
    ParsesZero();
    ParsesOne();
    ParsedFour("0", "0", "1", "0", 0, 0, 1, 0);
  }

  lemma Parses256()
    ensures ParseInteger("256", 0, UInt32Max) == Some(256)
  {
    ParseDec(256, 0, UInt32Max);
    assert Dec(25) == "25";
    assert Dec(256) == "256";
  }

  lemma ParsesOne()
    ensures ParseInteger("1", 0, UInt32Max) == Some(1)
  {
    ParseDec(1, 0, UInt32Max);
    assert Dec(1) == "1";
  }

  lemma ParsesZero()
    ensures ParseInteger("0", 0, UInt32Max) == Some(0)
  {
    ParseDec(0, 0, UInt32Max);
    assert Dec(0) == "0";
  }

  lemma TooFew()
    ensures Ipv4FromString("1.2.3").None?
  {
    var ps := ["1", "2", "3"];
    SplitDots("1.2.3", ps);
    assert |ParsedPieces(ps)| <= 3;
  }
}
