/** `EthernetClass` of cores/arduino/Ethernet.cpp: the Arduino `Ethernet`
    object over the ClearCore Ethernet manager. The manager is foreign: the
    addresses and retransmission settings it stores are fields here, and
    its answers (the DHCP outcome, the addresses and DNS server DHCP
    obtains, the PHY link)
    are fields the model reads. The MAC address a sketch passes is ignored
    everywhere, as the source ignores it. */
module Ethernet {
  import opened Common

  /** An IPv4 address, octet by octet. */
  datatype IpAddress = IpAddress(a: uint8, b: uint8, c: uint8, d: uint8)

  datatype EthernetLinkStatus = Unknown | LinkON | LinkOFF

  datatype EthernetHardwareStatus =
    | EthernetNoHardware
    | EthernetW5100
    | EthernetW5200
    | EthernetW5500
    | EthernetBuiltIn

  /** The addresses a successful DHCP exchange gives the interface. */
  datatype DhcpLease = DhcpLease(localIp: IpAddress, gatewayIp: IpAddress, netmaskIp: IpAddress)

  /** The netmask the four-argument `begin` supplies. */
  const DEFAULT_SUBNET: IpAddress := IpAddress(255, 255, 255, 0)

  /** Bounds `setRetransmissionTimeout` keeps the timeout within. */
  const MIN_RETRANSMISSION_TIMEOUT: int := 1
  const MAX_RETRANSMISSION_TIMEOUT: int := 6553

  /** The address the short `begin` overloads assume for the DNS server and
      the gateway: host 1 on the same /24 network as `ip`. */
  function HostOne(ip: IpAddress): (r: IpAddress)
    ensures r.a == ip.a && r.b == ip.b && r.c == ip.c && r.d == 1
  {
    IpAddress(ip.a, ip.b, ip.c, 1)
  }

  /** The timeout `setRetransmissionTimeout(milliseconds)` stores. */
  function RetransmissionTimeout(milliseconds: uint16): (r: uint16)
    ensures MIN_RETRANSMISSION_TIMEOUT <= r <= MAX_RETRANSMISSION_TIMEOUT
    ensures MIN_RETRANSMISSION_TIMEOUT <= milliseconds <= MAX_RETRANSMISSION_TIMEOUT <==> r == milliseconds
    ensures milliseconds == 0 ==> r == MIN_RETRANSMISSION_TIMEOUT
    ensures milliseconds > MAX_RETRANSMISSION_TIMEOUT ==> r == MAX_RETRANSMISSION_TIMEOUT
  {
    Constrain(milliseconds, MIN_RETRANSMISSION_TIMEOUT, MAX_RETRANSMISSION_TIMEOUT)
  }

  /** The count `setRetransmissionCount(number)` stores: at least one try. */
  function RetransmissionCount(number: uint8): (r: uint8)
    ensures r >= 1
    ensures number != 0 <==> r == number
  {
    if number == 0 then 1 else number
  }

  /** Storing a setting that is already clamped stores it unchanged, so
      the setters are idempotent. */
  lemma RetransmissionSettersIdempotent(milliseconds: uint16, number: uint8)
    ensures RetransmissionTimeout(RetransmissionTimeout(milliseconds)) == RetransmissionTimeout(milliseconds)
    ensures RetransmissionCount(RetransmissionCount(number)) == RetransmissionCount(number)
  {
    ConstrainIdempotent(milliseconds, MIN_RETRANSMISSION_TIMEOUT, MAX_RETRANSMISSION_TIMEOUT);
  }

  class EthernetClass {
    /** What the manager stores. */
    var localIp: IpAddress
    var gatewayIp: IpAddress
    var netmaskIp: IpAddress
    var dnsIp: IpAddress
    var retransmissionTimeout: int
    var retransmissionCount: int
    /** How many times `Setup` and `Refresh` were called on the manager. */
    var setups: nat
    var refreshes: nat
    /** What the manager and lwIP answer. */
    var dhcpSucceeds: bool
    var dhcpLease: DhcpLease
    var dhcpDns: IpAddress
    var phyLinkActive: bool

    constructor (dhcpSucceeds: bool, dhcpLease: DhcpLease, dhcpDns: IpAddress, phyLinkActive: bool,
                 localIp: IpAddress, gatewayIp: IpAddress, netmaskIp: IpAddress, dnsIp: IpAddress,
                 retransmissionTimeout: int, retransmissionCount: int)
      ensures this.dhcpSucceeds == dhcpSucceeds && this.dhcpDns == dhcpDns
      ensures this.dhcpLease == dhcpLease
      ensures this.phyLinkActive == phyLinkActive
      ensures this.localIp == localIp && this.gatewayIp == gatewayIp
      ensures this.netmaskIp == netmaskIp && this.dnsIp == dnsIp
      ensures this.retransmissionTimeout == retransmissionTimeout
      ensures this.retransmissionCount == retransmissionCount
      ensures setups == 0 && refreshes == 0
    {
      this.dhcpSucceeds := dhcpSucceeds;
      this.dhcpLease := dhcpLease;
      this.dhcpDns := dhcpDns;
      this.phyLinkActive := phyLinkActive;
      this.localIp := localIp;
      this.gatewayIp := gatewayIp;
      this.netmaskIp := netmaskIp;
      this.dnsIp := dnsIp;
      this.retransmissionTimeout := retransmissionTimeout;
      this.retransmissionCount := retransmissionCount;
      setups := 0;
      refreshes := 0;
    }

    /** `begin(mac)`: set up, run DHCP and return its outcome; the leased
        addresses and the DNS server DHCP found are taken only when DHCP
        succeeds. */
    method BeginDhcp(mac: seq<uint8>) returns (dhcpSuccess: int)
      modifies this
      ensures dhcpSuccess == (if dhcpSucceeds then 1 else 0)
      ensures dnsIp == (if dhcpSucceeds then dhcpDns else old(dnsIp))
      ensures setups == old(setups) + 1
      ensures localIp == (if dhcpSucceeds then dhcpLease.localIp else old(localIp))
      ensures gatewayIp == (if dhcpSucceeds then dhcpLease.gatewayIp else old(gatewayIp))
      ensures netmaskIp == (if dhcpSucceeds then dhcpLease.netmaskIp else old(netmaskIp))
      ensures retransmissionTimeout == old(retransmissionTimeout)
      ensures retransmissionCount == old(retransmissionCount)
      ensures refreshes == old(refreshes) && dhcpSucceeds == old(dhcpSucceeds)
      ensures dhcpDns == old(dhcpDns) && dhcpLease == old(dhcpLease) && phyLinkActive == old(phyLinkActive)
    {
      setups := setups + 1;
      // DhcpBegin: on success the interface takes the lease's addresses
      dhcpSuccess := if dhcpSucceeds then 1 else 0;
      if dhcpSuccess != 0 {
        localIp, gatewayIp, netmaskIp := dhcpLease.localIp, dhcpLease.gatewayIp, dhcpLease.netmaskIp;
        dnsIp := dhcpDns;
      }
    }

    /** `begin(mac, ip, dns, gateway, subnet)`: set up, then store the four
        addresses exactly as given. */
    method BeginStatic(mac: seq<uint8>, ip: IpAddress, dns: IpAddress, gateway: IpAddress, subnet: IpAddress)
      modifies this
      ensures localIp == ip && gatewayIp == gateway && netmaskIp == subnet && dnsIp == dns
      ensures setups == old(setups) + 1
      ensures retransmissionTimeout == old(retransmissionTimeout)
      ensures retransmissionCount == old(retransmissionCount)
      ensures refreshes == old(refreshes) && dhcpSucceeds == old(dhcpSucceeds)
      ensures dhcpDns == old(dhcpDns) && dhcpLease == old(dhcpLease) && phyLinkActive == old(phyLinkActive)
    {
      setups := setups + 1;
      localIp := ip;
      gatewayIp := gateway;
      netmaskIp := subnet;
      dnsIp := dns;
    }

    /** `begin(mac, ip, dns, gateway)`: netmask 255.255.255.0. */
    method BeginWithGateway(mac: seq<uint8>, ip: IpAddress, dns: IpAddress, gateway: IpAddress)
      modifies this
      ensures localIp == ip && gatewayIp == gateway && netmaskIp == DEFAULT_SUBNET && dnsIp == dns
      ensures setups == old(setups) + 1
      ensures retransmissionTimeout == old(retransmissionTimeout)
      ensures retransmissionCount == old(retransmissionCount)
      ensures refreshes == old(refreshes) && dhcpSucceeds == old(dhcpSucceeds)
      ensures dhcpDns == old(dhcpDns) && dhcpLease == old(dhcpLease) && phyLinkActive == old(phyLinkActive)
    {
      var subnet := DEFAULT_SUBNET;
      BeginStatic(mac, ip, dns, gateway, subnet);
    }

    /** `begin(mac, ip, dns)`: the gateway is host 1 of `ip`'s network. */
    method BeginWithDns(mac: seq<uint8>, ip: IpAddress, dns: IpAddress)
      modifies this
      ensures localIp == ip && gatewayIp == HostOne(ip) && netmaskIp == DEFAULT_SUBNET && dnsIp == dns
      ensures setups == old(setups) + 1
      ensures retransmissionTimeout == old(retransmissionTimeout)
      ensures retransmissionCount == old(retransmissionCount)
      ensures refreshes == old(refreshes) && dhcpSucceeds == old(dhcpSucceeds)
      ensures dhcpDns == old(dhcpDns) && dhcpLease == old(dhcpLease) && phyLinkActive == old(phyLinkActive)
    {
      var gateway := IpAddress(ip.a, ip.b, ip.c, 1);
      BeginWithGateway(mac, ip, dns, gateway);
    }

    /** `begin(mac, ip)`: the DNS server is host 1 of `ip`'s network too. */
    method BeginWithIp(mac: seq<uint8>, ip: IpAddress)
      modifies this
      ensures localIp == ip && gatewayIp == HostOne(ip) && netmaskIp == DEFAULT_SUBNET && dnsIp == HostOne(ip)
      ensures setups == old(setups) + 1
      ensures retransmissionTimeout == old(retransmissionTimeout)
      ensures retransmissionCount == old(retransmissionCount)
      ensures refreshes == old(refreshes) && dhcpSucceeds == old(dhcpSucceeds)
      ensures dhcpDns == old(dhcpDns) && dhcpLease == old(dhcpLease) && phyLinkActive == old(phyLinkActive)
    {
      var dns := IpAddress(ip.a, ip.b, ip.c, 1);
      BeginWithDns(mac, ip, dns);
    }

    /** `linkStatus()`: never Unknown. */
    method LinkStatus() returns (status: EthernetLinkStatus)
      ensures status == LinkON <==> phyLinkActive
      ensures status == LinkOFF <==> !phyLinkActive
    {
      status := if phyLinkActive then LinkON else LinkOFF;
    }

    /** `hardwareStatus()`. */
    method HardwareStatus() returns (status: EthernetHardwareStatus)
      ensures status == EthernetBuiltIn
    {
      status := EthernetBuiltIn;
    }

    /** `maintain()`: refresh the manager; DHCP renewal is lwIP's own
        business, so the answer is always 0. */
    method Maintain() returns (r: int)
      modifies this
      ensures r == 0 && refreshes == old(refreshes) + 1
      ensures localIp == old(localIp) && gatewayIp == old(gatewayIp)
      ensures netmaskIp == old(netmaskIp) && dnsIp == old(dnsIp)
      ensures retransmissionTimeout == old(retransmissionTimeout)
      ensures retransmissionCount == old(retransmissionCount)
      ensures setups == old(setups) && dhcpSucceeds == old(dhcpSucceeds)
      ensures dhcpDns == old(dhcpDns) && dhcpLease == old(dhcpLease) && phyLinkActive == old(phyLinkActive)
    {
      refreshes := refreshes + 1;
      r := 0;
    }

    /** `localIP()`, `subnetMask()`, `gatewayIP()`, `dnsServerIP()`: what
        the manager holds. */
    method LocalIP() returns (ip: IpAddress)
      ensures ip == localIp
    {
      ip := localIp;
    }

    method SubnetMask() returns (ip: IpAddress)
      ensures ip == netmaskIp
    {
      ip := netmaskIp;
    }

    method GatewayIP() returns (ip: IpAddress)
      ensures ip == gatewayIp
    {
      ip := gatewayIp;
    }

    method DnsServerIP() returns (ip: IpAddress)
      ensures ip == dnsIp
    {
      ip := dnsIp;
    }

    /** `setLocalIP`, `setSubnetMask`, `setGatewayIP`, `setDnsServerIP`:
        each writes one address and nothing else. */
    method SetLocalIP(ip: IpAddress)
      modifies this
      ensures localIp == ip
      ensures gatewayIp == old(gatewayIp) && netmaskIp == old(netmaskIp) && dnsIp == old(dnsIp)
      ensures retransmissionTimeout == old(retransmissionTimeout)
      ensures retransmissionCount == old(retransmissionCount)
      ensures setups == old(setups) && refreshes == old(refreshes) && dhcpSucceeds == old(dhcpSucceeds)
      ensures dhcpDns == old(dhcpDns) && dhcpLease == old(dhcpLease) && phyLinkActive == old(phyLinkActive)
    {
      localIp := ip;
    }

    method SetSubnetMask(ip: IpAddress)
      modifies this
      ensures netmaskIp == ip
      ensures localIp == old(localIp) && gatewayIp == old(gatewayIp) && dnsIp == old(dnsIp)
      ensures retransmissionTimeout == old(retransmissionTimeout)
      ensures retransmissionCount == old(retransmissionCount)
      ensures setups == old(setups) && refreshes == old(refreshes) && dhcpSucceeds == old(dhcpSucceeds)
      ensures dhcpDns == old(dhcpDns) && dhcpLease == old(dhcpLease) && phyLinkActive == old(phyLinkActive)
    {
      netmaskIp := ip;
    }

    method SetGatewayIP(ip: IpAddress)
      modifies this
      ensures gatewayIp == ip
      ensures localIp == old(localIp) && netmaskIp == old(netmaskIp) && dnsIp == old(dnsIp)
      ensures retransmissionTimeout == old(retransmissionTimeout)
      ensures retransmissionCount == old(retransmissionCount)
      ensures setups == old(setups) && refreshes == old(refreshes) && dhcpSucceeds == old(dhcpSucceeds)
      ensures dhcpDns == old(dhcpDns) && dhcpLease == old(dhcpLease) && phyLinkActive == old(phyLinkActive)
    {
      gatewayIp := ip;
    }

    method SetDnsServerIP(ip: IpAddress)
      modifies this
      ensures dnsIp == ip
      ensures localIp == old(localIp) && gatewayIp == old(gatewayIp) && netmaskIp == old(netmaskIp)
      ensures retransmissionTimeout == old(retransmissionTimeout)
      ensures retransmissionCount == old(retransmissionCount)
      ensures setups == old(setups) && refreshes == old(refreshes) && dhcpSucceeds == old(dhcpSucceeds)
      ensures dhcpDns == old(dhcpDns) && dhcpLease == old(dhcpLease) && phyLinkActive == old(phyLinkActive)
    {
      dnsIp := ip;
    }

    /** `setRetransmissionTimeout(milliseconds)`. */
    method SetRetransmissionTimeout(milliseconds: uint16)
      modifies this
      ensures retransmissionTimeout == RetransmissionTimeout(milliseconds)
      ensures localIp == old(localIp) && gatewayIp == old(gatewayIp)
      ensures netmaskIp == old(netmaskIp) && dnsIp == old(dnsIp)
      ensures retransmissionCount == old(retransmissionCount)
      ensures setups == old(setups) && refreshes == old(refreshes) && dhcpSucceeds == old(dhcpSucceeds)
      ensures dhcpDns == old(dhcpDns) && dhcpLease == old(dhcpLease) && phyLinkActive == old(phyLinkActive)
    {
      retransmissionTimeout := RetransmissionTimeout(milliseconds);
    }

    /** `setRetransmissionCount(number)`. */
    method SetRetransmissionCount(number: uint8)
      modifies this
      ensures retransmissionCount == RetransmissionCount(number)
      ensures localIp == old(localIp) && gatewayIp == old(gatewayIp)
      ensures netmaskIp == old(netmaskIp) && dnsIp == old(dnsIp)
      ensures retransmissionTimeout == old(retransmissionTimeout)
      ensures setups == old(setups) && refreshes == old(refreshes) && dhcpSucceeds == old(dhcpSucceeds)
      ensures dhcpDns == old(dhcpDns) && dhcpLease == old(dhcpLease) && phyLinkActive == old(phyLinkActive)
    {
      var n := number;
      if n == 0 {
        n := 1;
      }
      retransmissionCount := n;
    }
  }
}
