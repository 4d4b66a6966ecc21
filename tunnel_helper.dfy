/**
 * Helpers of the network extension: the tunnel's IP state as read back from
 * the applied settings, and the fallback search for the utun control socket
 * among the open file descriptors. `getpeername` and `ioctl(CTLIOCGINFO)` are
 * tables indexed by descriptor.
 */
module TunnelHelper {
  import opened Wrappers
  import opened Strings
  import opened PacketTunnel

  // ---------------------------------------------------------------------------
  // Tunnel IP state

  /** `TunnelIPState`: the first address and mask or prefix of each family. */
  datatype TunnelIPState = TunnelIPState(
    v4Address: Option<string>,
    v4SubnetMask: Option<string>,
    v6Address: Option<string>,
    v6PrefixLength: Option<int>)
  {
    /** `isEmpty`: neither family has an address. */
    predicate IsEmpty() {
      v4Address.None? && v6Address.None?
    }
  }

  /** `first` of an array. */
  function First<T>(s: seq<T>): (r: Option<T>)
    ensures r.None? <==> s == []
    ensures r.Some? ==> r.value == s[0]
  {
    if s == [] then None else Some(s[0])
  }

  /** `init(from:)`: each field is nil when the settings, the family or the list is missing. */
  function FromSettings(settings: Option<NetworkSettings>): (r: TunnelIPState)
    ensures r.v4Address.Some? ==> settings.Some? && settings.value.ipv4.Some?
    ensures r.v6Address.Some? ==> settings.Some? && settings.value.ipv6.Some?
  {
    var v4 := if settings.Some? then settings.value.ipv4 else None;
    var v6 := if settings.Some? then settings.value.ipv6 else None;
    TunnelIPState(
      if v4.Some? then First(v4.value.addresses) else None,
      if v4.Some? then First(v4.value.subnetMasks) else None,
      if v6.Some? then First(v6.value.addresses) else None,
      if v6.Some? then First(v6.value.networkPrefixLengths) else None)
  }

  /** `init()`: the all-nil state. */
  function EmptyState(): (r: TunnelIPState)
    ensures r.IsEmpty()
    ensures r.v4SubnetMask.None? && r.v6PrefixLength.None?
  {
    TunnelIPState(None, None, None, None)
  }

  /** No settings read back as the same state `init()` makes. */
  lemma NoSettingsIsEmptyState()
    ensures FromSettings(None) == EmptyState()
  {
  }

  /**
   * The state read back from prepared settings is empty exactly when neither
   * the IPv4 nor the IPv6 option was usable, and it carries the prepared
   * address, mask and prefix otherwise.
   */
  lemma PreparedState(options: map<string, OptionValue>)
    ensures var st := FromSettings(Some(PrepareSettings(options)));
      && (st.IsEmpty() <==> Ipv4For(options).None? && Ipv6For(options).None?)
      && (Ipv4For(options).Some? ==>
            st.v4Address == Some(ParsedPrefix(options, "ipv4").value.0)
            && st.v4SubnetMask == CidrToSubnetMask(ParsedPrefix(options, "ipv4").value.1))
      && (Ipv6For(options).Some? ==>
            st.v6Address == Some(ParsedPrefix(options, "ipv6").value.0)
            && st.v6PrefixLength == Some(ParsedPrefix(options, "ipv6").value.1))
      && st.v4Address.None? == Ipv4For(options).None?
      && st.v6Address.None? == Ipv6For(options).None?
  {
  }

  /** `"10.0.0.5/24"` reads back as that address with mask `255.255.255.0` and no IPv6. */
  lemma TypicalIpv4State()
    ensures FromSettings(Some(PrepareSettings(map["ipv4" := StringValue("10.0.0.5/24")])))
      == TunnelIPState(Some("10.0.0.5"), Some("255.255.255.0"), None, None)
  {
    var options := map["ipv4" := StringValue("10.0.0.5/24")];
    Ipv4Typical(options);
    assert "ipv6" !in options by {
      assert "ipv6"[3] != "ipv4"[3];
    }
    assert Ipv6For(options).None?;
  }

  lemma Ipv4Typical(options: map<string, OptionValue>)
    requires "ipv4" in options && options["ipv4"] == StringValue("10.0.0.5/24")
    ensures Ipv4For(options) == Some(Ipv4Settings(["10.0.0.5"], ["255.255.255.0"]))
  {
    assert Dec(24) == "24";
    assert "10.0.0.5/24" == "10.0.0.5" + "/" + Dec(24);
    Ipv4FromOption(options, "10.0.0.5", 24);
    CommonMasks();
  }

  // ---------------------------------------------------------------------------
  // Control-socket search

  const AF_SYSTEM: int := 32
  const MaxFd: int := 1024

  /** What `getpeername` fills in: the address family and the control id. */
  datatype PeerAddress = PeerAddress(family: int, controlId: nat)

  /**
   * The search from descriptor `fd` on, with `ctlId` the control id resolved
   * so far (0 while unresolved). `peer(fd)` is `None` when `getpeername`
   * fails; `ioctl(fd)` is the id `CTLIOCGINFO` reports, `None` when it fails.
   */
  function ScanFrom(fd: int, ctlId: nat, peer: int -> Option<PeerAddress>, ioctl: int -> Option<nat>): (r: Option<int>)
    requires 0 <= fd <= MaxFd + 1
    ensures r.Some? ==> fd <= r.value <= MaxFd
    ensures r.Some? ==> peer(r.value).Some? && peer(r.value).value.family == AF_SYSTEM
    decreases MaxFd + 1 - fd
  {
    if fd > MaxFd then None
    else
      var addr := peer(fd);
      if addr.None? || addr.value.family != AF_SYSTEM then ScanFrom(fd + 1, ctlId, peer, ioctl)
      else if ctlId == 0 && ioctl(fd).None? then ScanFrom(fd + 1, ctlId, peer, ioctl)
      else
        var id := if ctlId == 0 then ioctl(fd).value else ctlId;
        if addr.value.controlId == id then Some(fd) else ScanFrom(fd + 1, id, peer, ioctl)
  }

  /**
   * `tunnelFileDescriptor()`: descriptors 0 through 1024 in turn; skip those
   * that are not `AF_SYSTEM` peers; resolve the id by `ioctl` while it is
   * still 0, skipping the descriptor when that fails; return the first whose
   * control id matches.
   */
  method TunnelFileDescriptor(peer: int -> Option<PeerAddress>, ioctl: int -> Option<nat>) returns (r: Option<int>)
    ensures r == ScanFrom(0, 0, peer, ioctl)
    ensures r.Some? ==> 0 <= r.value <= MaxFd
  {
    var ctlId: nat := 0;
    for fd := 0 to MaxFd + 1
      invariant ScanFrom(fd, ctlId, peer, ioctl) == ScanFrom(0, 0, peer, ioctl)
    {
      var addr := peer(fd);
      if addr.None? || addr.value.family != AF_SYSTEM {
        continue;
      }
      if ctlId == 0 {
        var info := ioctl(fd);
        if info.None? {
          continue;
        }
        ctlId := info.value;
      }
      if addr.value.controlId == ctlId {
        return Some(fd);
      }
    }
    return None;
  }

  /** The independent description: the first descriptor from `fd` on whose peer is the control with id `k`. */
  function FirstMatch(fd: int, k: nat, peer: int -> Option<PeerAddress>): (r: Option<int>)
    requires 0 <= fd <= MaxFd + 1
    ensures r.Some? ==> fd <= r.value <= MaxFd && peer(r.value) == Some(PeerAddress(AF_SYSTEM, k))
    ensures r.Some? ==> forall g :: fd <= g < r.value ==> peer(g) != Some(PeerAddress(AF_SYSTEM, k))
    ensures r.None? ==> forall g :: fd <= g <= MaxFd ==> peer(g) != Some(PeerAddress(AF_SYSTEM, k))
    decreases MaxFd + 1 - fd
  {
    if fd > MaxFd then None
    else if peer(fd) == Some(PeerAddress(AF_SYSTEM, k)) then Some(fd)
    else FirstMatch(fd + 1, k, peer)
  }

  /**
   * Once the id is resolved (non-zero), `ioctl` is never consulted again and
   * the search finds the first control socket with that id.
   */
  lemma {:induction false} ResolvedScanIsFirstMatch(fd: int, k: nat, peer: int -> Option<PeerAddress>, ioctl: int -> Option<nat>)
    requires 0 <= fd <= MaxFd + 1 && k != 0
    ensures ScanFrom(fd, k, peer, ioctl) == FirstMatch(fd, k, peer)
    decreases MaxFd + 1 - fd
  {
    if fd <= MaxFd {
      ResolvedScanIsFirstMatch(fd + 1, k, peer, ioctl);
    }
  }

  /**
   * When `CTLIOCGINFO` reports the same non-zero id `k` on every `AF_SYSTEM`
   * descriptor, the search returns the first descriptor connected to control
   * `k`, or nil when there is none.
   */
  lemma {:induction false} ScanIsFirstMatch(fd: int, ctlId: nat, k: nat, peer: int -> Option<PeerAddress>, ioctl: int -> Option<nat>)
    requires 0 <= fd <= MaxFd + 1 && k != 0 && (ctlId == 0 || ctlId == k)
    requires forall g :: peer(g).Some? && peer(g).value.family == AF_SYSTEM ==> ioctl(g) == Some(k)
    ensures ScanFrom(fd, ctlId, peer, ioctl) == FirstMatch(fd, k, peer)
    decreases MaxFd + 1 - fd
  {
    if ctlId == k {
      ResolvedScanIsFirstMatch(fd, k, peer, ioctl);
    } else if fd <= MaxFd {
      var addr := peer(fd);
      if addr.Some? && addr.value.family == AF_SYSTEM {
        ResolvedScanIsFirstMatch(fd + 1, k, peer, ioctl);
      } else {
        ScanIsFirstMatch(fd + 1, ctlId, k, peer, ioctl);
      }
    }
  }

  /**
   * A failing `ioctl` skips its descriptor, even one connected to the control
   * socket, and resolution is retried on the next candidate.
   */
  lemma FailedIoctlSkips(fd: int, peer: int -> Option<PeerAddress>, ioctl: int -> Option<nat>)
    requires 0 <= fd <= MaxFd
    requires peer(fd).Some? && peer(fd).value.family == AF_SYSTEM && ioctl(fd).None?
    ensures ScanFrom(fd, 0, peer, ioctl) == ScanFrom(fd + 1, 0, peer, ioctl)
  {
  }
}
