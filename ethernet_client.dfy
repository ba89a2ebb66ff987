/** `EthernetClient` of cores/arduino/EthernetClient.cpp and the inline
    members of cores/arduino/Ethernet.h. The ClearCore TCP client it wraps
    is foreign: its state and its answers are the value `tcp`, and the
    bytes sent through it are recorded. */
module EthernetSockets {
  import opened Common
  import opened Ethernet

  /** The lwIP `err_t` codes `DnsGetHostByName` can answer. */
  datatype DnsError = ErrOk | ErrInProgress | ErrVal | ErrMem | ErrArg | ErrOther(code: int)

  /** The result codes of `connect`. */
  const SUCCESS: int := 1
  const TIMED_OUT: int := -1
  const INVALID_SERVER: int := -2
  const TRUNCATED: int := -3
  const INVALID_RESPONSE: int := -4

  /** `EthernetServer(uint16_t port = 80)`. */
  const SERVER_DEFAULT_PORT: uint16 := 80

  /** The foreign TCP client: the identity its `operator==` compares, the
      `ConnectionState()` pointer being set, the link, the unread bytes,
      and the answers it gives to `Connect` and `Send`. */
  datatype TcpClient = TcpClient(
    handle: int, hasConnectionState: bool, linkUp: bool, bytesAvailable: nat,
    connectAccepts: bool, sendResult: nat)

  /** The result `connect(host, port)` reports for a DNS answer and, after a
      resolved name, the result of connecting to the address. */
  function ConnectHostResult(err: DnsError, connectResult: int): (r: int)
    ensures r in {SUCCESS, TIMED_OUT, INVALID_SERVER, TRUNCATED, INVALID_RESPONSE}
    ensures r == SUCCESS <==> err == ErrOk && connectResult == 1
    ensures r == TIMED_OUT <==> err == ErrInProgress
    ensures r == INVALID_SERVER <==> err == ErrVal
    ensures r == TRUNCATED <==> err == ErrMem
  {
    match err
    case ErrOk => if connectResult == 1 then SUCCESS else INVALID_RESPONSE
    case ErrInProgress => TIMED_OUT
    case ErrVal => INVALID_SERVER
    case ErrMem => TRUNCATED
    case _ => INVALID_RESPONSE
  }

  /** `connect(host, port)` never reports 0, the "failed" of
      `connect(ip, port)`; a failed connect to a resolved host and a DNS
      error outside the table both read as INVALID_RESPONSE. */
  lemma ConnectHostNeverZero(err: DnsError, connectResult: int)
    ensures ConnectHostResult(err, connectResult) != 0
    ensures ConnectHostResult(err, connectResult) == INVALID_RESPONSE <==>
      (err == ErrOk && connectResult != 1) || err == ErrArg || err.ErrOther?
  {
  }

  /** `operator==(const bool value)` as written: `bool()` there is a
      value-initialised `bool`, that is `false`, not the client's own
      `operator bool`. */
  function EqualsBoolAsWritten(value: bool): (r: bool)
    ensures r <==> !value
  {
    false == value
  }

  /** `operator!=(const bool value)` as written, with the same `bool()`. */
  function NotEqualsBoolAsWritten(value: bool): (r: bool)
    ensures r <==> value
  {
    false != value
  }

  class EthernetClient {
    var tcp: TcpClient
    var dnsInitialized: bool
    /** What `Send` was handed, one buffer per call. */
    var sent: seq<seq<uint8>>
    /** Addresses and ports `Connect` was asked for. */
    var connects: seq<(IpAddress, uint16)>

    /** `EthernetClient()` and `EthernetClient(tcpClient)`: both leave DNS
        uninitialised. */
    constructor (tcp: TcpClient)
      ensures this.tcp == tcp && !dnsInitialized && sent == [] && connects == []
    {
      this.tcp := tcp;
      dnsInitialized := false;
      sent := [];
      connects := [];
    }

    /** `operator bool()`: the connection state is set. */
    function IsOpen(): (open: bool)
      reads this
    {
      tcp.hasConnectionState
    }

    /** `operator==(const bool value)` comparing the client's own state, as
        the operator evidently means. */
    function EqualsBool(value: bool): (r: bool)
      reads this
      ensures r <==> IsOpen() == value
    {
      IsOpen() == value
    }

    /** `operator!=(const bool value)`, likewise. */
    function NotEqualsBool(value: bool): (r: bool)
      reads this
      ensures r <==> !EqualsBool(value)
    {
      IsOpen() != value
    }

    /** `operator==(const EthernetClient &)`: the same TCP client. */
    function EqualsClient(other: EthernetClient): (r: bool)
      reads this, other
      ensures r <==> tcp.handle == other.tcp.handle
    {
      tcp.handle == other.tcp.handle
    }

    /** `operator!=(const EthernetClient &rhs)`: `!operator==(rhs)`. */
    function NotEqualsClient(other: EthernetClient): (r: bool)
      reads this, other
      ensures r <==> !EqualsClient(other)
    {
      !EqualsClient(other)
    }

    /** `connected()`: 1 while unread bytes remain or the link is up, so a
        closed link with pending data still counts. */
    function Connected(): (r: uint8)
      reads this
      ensures r == 0 || r == 1
      ensures r == 1 <==> tcp.bytesAvailable > 0 || tcp.linkUp
    {
      if tcp.bytesAvailable > 0 || tcp.linkUp then 1 else 0
    }

    /** `connect(ip, port)`: 1 when the TCP connect succeeds, 0 otherwise. */
    method ConnectIp(ip: IpAddress, port: uint16) returns (r: int)
      modifies this
      ensures r == 1 <==> tcp.connectAccepts
      ensures r == 0 <==> !tcp.connectAccepts
      ensures connects == old(connects) + [(ip, port)]
      ensures tcp == old(tcp) && dnsInitialized == old(dnsInitialized) && sent == old(sent)
    {
      connects := connects + [(ip, port)];
      r := if tcp.connectAccepts then 1 else 0;
    }

    /** `connect(host, port)`, with `err` and `resolved` the foreign DNS
        lookup's answer; only a resolved name is connected to. */
    method ConnectHost(err: DnsError, resolved: IpAddress, port: uint16) returns (r: int)
      modifies this
      ensures r == ConnectHostResult(err, if tcp.connectAccepts then 1 else 0)
      ensures connects == old(connects) + (if err == ErrOk then [(resolved, port)] else [])
      ensures tcp == old(tcp) && dnsInitialized == old(dnsInitialized) && sent == old(sent)
    {
      r := TIMED_OUT;
      match err {
        case ErrOk =>
          var c := ConnectIp(resolved, port);
          if c == 1 {
            r := SUCCESS;
          } else {
            r := INVALID_RESPONSE;
          }
        case ErrInProgress =>
          r := TIMED_OUT;
        case ErrVal =>
          r := INVALID_SERVER;
        case ErrMem =>
          r := TRUNCATED;
        case _ =>
          r := INVALID_RESPONSE;
      }
    }

    /** `write(buffer, size)`: what `Send` reports. */
    method WriteBuffer(buffer: seq<uint8>) returns (n: nat)
      modifies this
      ensures n == tcp.sendResult && sent == old(sent) + [buffer]
      ensures tcp == old(tcp) && dnsInitialized == old(dnsInitialized) && connects == old(connects)
    {
      sent := sent + [buffer];
      n := tcp.sendResult;
    }

    /** `write(c)`: `write(&c, 1)`. */
    method WriteByte(c: uint8) returns (n: nat)
      modifies this
      ensures n == tcp.sendResult && sent == old(sent) + [[c]]
      ensures tcp == old(tcp) && dnsInitialized == old(dnsInitialized) && connects == old(connects)
    {
      n := WriteBuffer([c]);
    }
  }

  /** As written, both boolean operators ignore the client: for a client
      whose connection is open, `client == true` is false and
      `client != true` is true, the opposite of what the corrected operators
      answer. */
  lemma BoolComparisonIgnoresClient(x: EthernetClient)
    requires x.IsOpen()
    ensures EqualsBoolAsWritten(true) != x.EqualsBool(true)
    ensures NotEqualsBoolAsWritten(true) != x.NotEqualsBool(true)
  {
  }

  /** `EthernetUDP::beginMulticast`: multicast is not supported. */
  function BeginMulticast(ip: IpAddress, port: uint16): (r: uint8)
    ensures r == 0
  {
    0
  }

  /** `EthernetServer`: the port it listens on. */
  class EthernetServer {
    const port: uint16

    /** `EthernetServer(uint16_t port = 80)`. */
    constructor (port: uint16 := SERVER_DEFAULT_PORT)
      ensures this.port == port
    {
      this.port := port;
    }
  }

  /** The corrected boolean comparisons follow the connection, and `!=` on
      clients is the exact negation of `==`, which is an equivalence. */
  lemma ComparisonsAgree(x: EthernetClient, y: EthernetClient, z: EthernetClient, value: bool)
    ensures x.EqualsBool(true) <==> x.IsOpen()
    ensures x.NotEqualsBool(value) != x.EqualsBool(value)
    ensures x.EqualsClient(x)
    ensures x.EqualsClient(y) <==> y.EqualsClient(x)
    ensures x.EqualsClient(y) && y.EqualsClient(z) ==> x.EqualsClient(z)
    ensures x.NotEqualsClient(y) != x.EqualsClient(y)
  {
  }
}
