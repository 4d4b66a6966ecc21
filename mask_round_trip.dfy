/**
 * The subnet mask the tunnel provider writes and the address parser of the
 * configuration model agree: the dotted mask parses back to the mask.
 */
module MaskRoundTrip {
  import opened Wrappers
  import opened PacketTunnel
  import opened NetworkModels

  /** `fromString(cidrToSubnetMask(c))` is the mask with `c` leading one bits. */
  lemma MaskParsesBack(cidr: int)
    requires 0 <= cidr <= 32
    ensures var r := Ipv4FromString(CidrToSubnetMask(cidr).value);
      && r == Some(Ipv4Addr(SubnetMask(cidr)))
      && forall i: nat :: i < 32 ==> (Bit(r.value.addr, i) <==> i >= 32 - cidr)
  {
    AddressRoundTrip(SubnetMask(cidr));
  }
}
