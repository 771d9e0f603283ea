/**
  * NonblockingResolver: the facade that turns a query and the resolver's settings into a
  * transaction handed to the engine. The decisions it makes on the way (EDNS defaults,
  * the UDP size, UDP or TCP, which of the three sending paths, the local port, the deadline,
  * the correlation id, the rejections) are functions of the settings and the query; the
  * resolver object holds the settings its setters change.
  */
module NonblockingResolverModel {
  import opened Common
  import opened DnsTypes
  import opened ResponseQueueModel
  import opened UdpConnectionModel

  const DEFAULT_PORT := 53
  const DEFAULT_EDNS_PAYLOADSIZE := 1280
  const DEFAULT_UDPSIZE := 512
  const DEFAULT_TIMEOUT_MILLIS := 10 * 1000

  /** Ports drawn for a dedicated transaction: 1024 + random.nextInt(65535 - 1024). */
  const LOW_PORT := 1024
  const PORT_DRAWS := 65535 - 1024

  /** A host, or the wildcard address of `new InetSocketAddress(port)`. */
  datatype Host = AnyLocal | HostAddress(name: string)

  datatype SocketAddress = SocketAddress(host: Host, port: int)

  /** The ports `new InetSocketAddress(host, port)` accepts; any other throws IllegalArgumentException. */
  predicate IsPort(port: int) {
    0 <= port <= 0xFFFF
  }

  /** A callback object supplied by the caller. */
  type ListenerId = nat

  /** Where the transaction delivers its response: the caller's queue, or a listener (possibly null). */
  datatype Completion =
    | ToQueue(queue: ResponseQueue?)
    | ToListener(listener: Option<ListenerId>)

  /** Exceptions thrown to the caller of the resolver. */
  datatype Thrown =
    | IllegalArgument
    | UnsupportedOperation
    | IllegalState
    | Rethrown(failure: Failure)   // the IOException carried by the response

  /** The QueryData handed to the single-port controller. */
  datatype QueryData = QueryData(tcp: bool, ignoreTruncation: bool, tsig: Option<TsigKey>,
                                 query: Message, udpSize: Option<int>)

  /** The three ways a query leaves the resolver. */
  datatype Route =
    | SingleTcpPort(data: QueryData)
    | SingleUdpPort(data: QueryData)
    | Dedicated(remote: SocketAddress, local: SocketAddress, tsig: Option<TsigKey>, tcp: bool,
                ignoreTruncation: bool, udpSize: Option<int>)

  /** What sendQuery is called with: the route, the prepared query, the id, the deadline and the completion. */
  datatype Plan = Plan(route: Route, query: Message, id: int, endTime: int, completion: Completion)

  /** The resolver fields the sending path reads. */
  datatype Settings = Settings(remoteAddress: SocketAddress, localAddress: SocketAddress,
                               ignoreTruncation: bool, tsig: Option<TsigKey>,
                               queryOPT: Option<OptRecord>,
                               useSingleTCPPort: bool, useSingleUDPPort: bool)

  // ---------------------------------------------------------------- EDNS

  /**
    * setEDNS(level, payloadSize, flags, options): only levels 0 and -1 are accepted, and a
    * payload size of 0 stands for the default of 1280 bytes.
    */
  function EdnsRecord(level: int, payloadSize: int, flags: int, options: seq<EdnsOption>): (r: Result<OptRecord, Thrown>)
    ensures r.Err? <==> level != 0 && level != -1
    ensures r.Err? ==> r.error == IllegalArgument
    ensures r.Ok? ==> r.value == OptRecord(if payloadSize == 0 then DEFAULT_EDNS_PAYLOADSIZE else payloadSize,
                                           0, level, flags, options)
    ensures r.Ok? ==> r.value.payloadSize != 0
  {
    if level != 0 && level != -1 then Err(IllegalArgument)
    else
      var size := if payloadSize == 0 then DEFAULT_EDNS_PAYLOADSIZE else payloadSize;
      Ok(OptRecord(size, 0, level, flags, options))
  }

  /** applyEDNS: the configured OPT record is added only to a query that has none. */
  function ApplyEdns(queryOPT: Option<OptRecord>, query: Message): (r: Message)
    ensures r.opt == (if query.opt.Some? then query.opt else queryOPT)
    ensures r.(opt := query.opt) == query
  {
    if queryOPT.None? || query.opt.Some? then query else query.(opt := queryOPT)
  }

  /** Applying EDNS a second time changes nothing. */
  lemma ApplyEdnsIdempotent(queryOPT: Option<OptRecord>, query: Message)
    ensures ApplyEdns(queryOPT, ApplyEdns(queryOPT, query)) == ApplyEdns(queryOPT, query)
  {
  }

  /** maxUDPSize: 512 without an OPT record, otherwise the payload size it advertises. */
  function MaxUdpSize(query: Message): (size: int)
    ensures query.opt.None? ==> size == DEFAULT_UDPSIZE
    ensures query.opt.Some? ==> size == query.opt.value.payloadSize
  {
    match query.opt
    case None => DEFAULT_UDPSIZE
    case Some(opt) => opt.payloadSize
  }

  // ---------------------------------------------------------------- transport and route

  /** TCP when the caller asks for it or the serialised query does not fit the UDP size. */
  function UseTcp(queryUseTCP: bool, wireLength: nat, udpSize: int): (tcp: bool)
    ensures tcp <==> queryUseTCP || wireLength > udpSize
    ensures !tcp ==> wireLength <= udpSize
  {
    queryUseTCP || wireLength > udpSize
  }

  /** getNewInetSocketAddressWithRandomPort: the given host with a port drawn from [1024, 65534]. */
  function RandomPortAddress(host: Host, draw: int): (a: SocketAddress)
    requires 0 <= draw < PORT_DRAWS
    ensures a.host == host
    ensures LOW_PORT <= a.port <= 65534
  {
    SocketAddress(host, LOW_PORT + draw)
  }

  /** Every port of [1024, 65534], and no other, can be drawn. */
  lemma RandomPortRange(host: Host, port: int)
    ensures (exists draw :: 0 <= draw < PORT_DRAWS && RandomPortAddress(host, draw).port == port)
            <==> LOW_PORT <= port <= 65534
  {
    if LOW_PORT <= port <= 65534 {
      assert RandomPortAddress(host, port - LOW_PORT).port == port;
    }
  }

  /** Whether the route sends over TCP. */
  function RouteTcp(route: Route): bool
  {
    match route
    case SingleTcpPort(data) => data.tcp
    case SingleUdpPort(data) => data.tcp
    case Dedicated(_, _, _, tcp, _, _) => tcp
  }

  /**
    * The routing of sendAsync: the shared TCP connection when single-TCP-port mode is on,
    * the query goes by TCP and its header id is free there; else the shared UDP connection
    * on the same terms for UDP; else a dedicated transaction from a random local port,
    * told the UDP size only when it goes by UDP.
    */
  function ChooseRoute(s: Settings, tcp: bool, query: Message, udpSize: int,
                       idNotInUse: int -> bool, portDraw: int): (route: Route)
    requires 0 <= portDraw < PORT_DRAWS
    ensures route.SingleTcpPort? <==> s.useSingleTCPPort && tcp && idNotInUse(query.id)
    ensures route.SingleUdpPort? <==> s.useSingleUDPPort && !tcp && idNotInUse(query.id)
    ensures RouteTcp(route) == tcp
    ensures !route.Dedicated? ==>
      route.data == QueryData(tcp, s.ignoreTruncation, s.tsig, query,
                              if route.SingleUdpPort? then Some(udpSize) else None)
    ensures route.Dedicated? ==>
      route.remote == s.remoteAddress &&
      route.local.host == s.localAddress.host && LOW_PORT <= route.local.port <= 65534 &&
      route.tsig == s.tsig && route.ignoreTruncation == s.ignoreTruncation &&
      route.udpSize == (if tcp then None else Some(udpSize))
  {
    if s.useSingleTCPPort && tcp && idNotInUse(query.id) then
      SingleTcpPort(QueryData(tcp, s.ignoreTruncation, s.tsig, query, None))
    else if s.useSingleUDPPort && !tcp && idNotInUse(query.id) then
      SingleUdpPort(QueryData(false, s.ignoreTruncation, s.tsig, query, Some(udpSize)))
    else
      var local := RandomPortAddress(s.localAddress.host, portDraw);
      Dedicated(s.remoteAddress, local, s.tsig, tcp, s.ignoreTruncation,
                if !tcp then Some(udpSize) else None)
  }

  // ---------------------------------------------------------------- sending

  /** A QUERY whose question asks for a zone transfer. */
  predicate IsAxfrQuery(m: Message) {
    m.opcode == OPCODE_QUERY && m.question.Some? && m.question.value == TYPE_AXFR
  }

  /** The clone that is sent: EDNS applied, then TSIG-signed when a key is set. */
  function Prepare(c: Codec, s: Settings, inQuery: Message): (q: Message)
    ensures SignKeepsHeader(c) ==>
      q.id == inQuery.id && q.opcode == inQuery.opcode && q.question == inQuery.question &&
      q.opt == (if inQuery.opt.Some? then inQuery.opt else s.queryOPT)
    ensures s.tsig.None? ==> q.records == inQuery.records
  {
    var query := ApplyEdns(s.queryOPT, inQuery);
    if s.tsig.Some? then c.sign(query, s.tsig.value) else query
  }

  /**
    * The private sendAsync: a callback request without a listener and an AXFR query are
    * rejected before anything is sent; otherwise the prepared query goes by TCP exactly when
    * asked or too long for its UDP size, along the route ChooseRoute picks, with deadline
    * now + timeout.
    */
  function PlanSend(c: Codec, s: Settings, inQuery: Message, id: int, timeout: int, queryUseTCP: bool,
                    completion: Completion, now: int, idNotInUse: int -> bool, portDraw: int)
    : (r: Result<Plan, Thrown>)
    requires 0 <= portDraw < PORT_DRAWS
    ensures completion == ToListener(None) ==> r == Err(IllegalArgument)
    ensures completion != ToListener(None) ==>
      (r.Err? <==> IsAxfrQuery(inQuery)) && (r.Err? ==> r.error == UnsupportedOperation)
    ensures r.Ok? ==>
      var p := r.value;
      p.query == Prepare(c, s, inQuery) && p.id == id && p.completion == completion &&
      p.endTime == now + timeout &&
      (RouteTcp(p.route) <==> queryUseTCP || |c.toWire(p.query)| > MaxUdpSize(p.query)) &&
      p.route == ChooseRoute(s, RouteTcp(p.route), p.query, MaxUdpSize(p.query), idNotInUse, portDraw)
  {
    if completion.ToListener? && completion.listener.None? then Err(IllegalArgument)
    else if IsAxfrQuery(inQuery) then Err(UnsupportedOperation)
    else
      var query := Prepare(c, s, inQuery);
      var udpSize := MaxUdpSize(query);
      var tcp := UseTcp(queryUseTCP, |c.toWire(query)|, udpSize);
      var endTime := now + timeout;
      Ok(Plan(ChooseRoute(s, tcp, query, udpSize, idNotInUse, portDraw), query, id, endTime, completion))
  }

  /** A query planned for UDP always fits in the UDP size of the query that is sent. */
  lemma UdpQueriesFit(c: Codec, s: Settings, inQuery: Message, id: int, timeout: int, queryUseTCP: bool,
                      completion: Completion, now: int, idNotInUse: int -> bool, portDraw: int)
    requires 0 <= portDraw < PORT_DRAWS
    requires PlanSend(c, s, inQuery, id, timeout, queryUseTCP, completion, now, idNotInUse, portDraw).Ok?
    ensures var p := PlanSend(c, s, inQuery, id, timeout, queryUseTCP, completion, now, idNotInUse, portDraw).value;
      !RouteTcp(p.route) ==> !queryUseTCP && |c.toWire(p.query)| <= MaxUdpSize(p.query)
  {
  }

  /**
    * The UDP size a query is sent with: the payload size of its own OPT record, else that of
    * the configured one, else 512. In particular, after setEDNS(0) or setEDNS(-1) a query
    * without its own OPT record is sent with 1280, signed or not.
    */
  lemma EdnsUdpSize(c: Codec, s: Settings, inQuery: Message, id: int, timeout: int, queryUseTCP: bool,
                    completion: Completion, now: int, idNotInUse: int -> bool, portDraw: int, level: int)
    requires SignKeepsHeader(c)
    requires 0 <= portDraw < PORT_DRAWS
    requires PlanSend(c, s, inQuery, id, timeout, queryUseTCP, completion, now, idNotInUse, portDraw).Ok?
    ensures var p := PlanSend(c, s, inQuery, id, timeout, queryUseTCP, completion, now, idNotInUse, portDraw).value;
      MaxUdpSize(p.query) ==
        if inQuery.opt.Some? then inQuery.opt.value.payloadSize
        else if s.queryOPT.Some? then s.queryOPT.value.payloadSize
        else DEFAULT_UDPSIZE
    ensures var p := PlanSend(c, s, inQuery, id, timeout, queryUseTCP, completion, now, idNotInUse, portDraw).value;
      inQuery.opt.None? && (level == 0 || level == -1) && s.queryOPT == Some(EdnsRecord(level, 0, 0, []).value) ==>
        MaxUdpSize(p.query) == DEFAULT_EDNS_PAYLOADSIZE
  {
  }

  // ---------------------------------------------------------------- isDataComplete

  /**
    * isDataComplete: a buffer holds one complete message exactly when it is at least a
    * header long, parses, and the parsed message is as long as the buffer.
    */
  function IsDataComplete(c: Codec, bytes: Bytes): (complete: bool)
    requires WellFormed(c)
    ensures complete ==> |bytes| >= HEADER_LENGTH
    ensures complete <==> |bytes| >= HEADER_LENGTH && MessageLength(c, bytes) == Some(|bytes|)
  {
    if |bytes| < HEADER_LENGTH then false
    else
      match MessageLength(c, bytes)
      case None => false
      case Some(n) => n == |bytes|
  }

  /** A complete message received as one datagram is delivered whole by the UDP receive loop. */
  lemma CompleteDatagramDeliveredWhole(c: Codec, bytes: Bytes)
    requires WellFormed(c)
    requires IsDataComplete(c, bytes)
    ensures Split(c, bytes) == Framing([bytes], [])
  {
    var k := PacketLength(|bytes|, |bytes|);
    assert bytes[..k] == bytes;
    assert bytes[k..] == [];
  }

  // ---------------------------------------------------------------- timeouts

  /** setTimeout(secs, millisecs): the timeout in milliseconds, with Java `int` overflow. */
  function TimeoutMillis(secs: int, millis: int): (t: int)
    ensures IsInt32(t)
    ensures IsInt32(secs * 1000 + millis) ==> t == secs * 1000 + millis
  {
    ToInt32(secs * 1000 + millis)
  }

  /** getTimeout: whole seconds, truncated toward zero. */
  function TimeoutSeconds(timeoutValue: int): (secs: int)
    ensures timeoutValue >= 0 ==> 0 <= secs * 1000 <= timeoutValue < secs * 1000 + 1000
  {
    JavaDiv(timeoutValue, 1000)
  }

  /** A timeout set below 2^31 milliseconds reads back as the seconds it was set with. */
  lemma TimeoutRoundTrip(secs: int, millis: int)
    requires 0 <= secs && 0 <= millis < 1000
    requires secs * 1000 + millis < 0x8000_0000
    ensures TimeoutMillis(secs, millis) == secs * 1000 + millis
    ensures TimeoutSeconds(TimeoutMillis(secs, millis)) == secs
  {
    var t := secs * 1000 + millis;
    assert IsInt32(t);
    var q := TimeoutSeconds(t);
    assert 0 <= q * 1000 <= t < q * 1000 + 1000;
    assert secs * 1000 <= t < secs * 1000 + 1000;
  }

  // ---------------------------------------------------------------- correlation ids

  /** `uniqueID++` on a `short`: one more, wrapping from 32767 to -32768. */
  function NextId(x: int): (y: int)
    requires IsInt16(x)
    ensures IsInt16(y)
    ensures (y - x) % 0x1_0000 == 1
    ensures x < 0x7FFF ==> y == x + 1
    ensures x == 0x7FFF ==> y == -0x8000
  {
    ToInt16(x + 1)
  }

  /** The counter after `n` allocations starting from `x`. */
  function IdAfter(x: int, n: nat): (y: int)
    requires IsInt16(x)
    ensures IsInt16(y)
  {
    if n == 0 then x else NextId(IdAfter(x, n - 1))
  }

  /** After n allocations the counter is x + n, wrapped to a `short`. */
  lemma {:induction false} IdAfterWraps(x: int, n: nat)
    requires IsInt16(x)
    ensures IdAfter(x, n) == ToInt16(x + n)
  {
    if n > 0 {
      IdAfterWraps(x, n - 1);
      var p := ToInt16(x + n - 1);
      assert (x + n - 1 - p) % 0x1_0000 == 0;
      var y := ToInt16(p + 1);
      assert (p + 1 - y) % 0x1_0000 == 0;
      ToInt16Unique(x + n, y);
    }
  }

  /** Two `short` values congruent to the same integer are that integer wrapped. */
  lemma ToInt16Unique(x: int, y: int)
    requires IsInt16(y) && (x - y) % 0x1_0000 == 0
    ensures ToInt16(x) == y
  {
    var r := ToInt16(x);
    assert (x - r) % 0x1_0000 == 0;
    assert (r - y) % 0x1_0000 == 0 by {
      assert r - y == (x - y) - (x - r);
    }
    assert -0x1_0000 < r - y < 0x1_0000;
  }

  /** Any 65536 successive allocations hand out pairwise different ids. */
  lemma IdsDistinct(x: int, i: nat, j: nat)
    requires IsInt16(x) && i < j < 0x1_0000
    ensures IdAfter(x, i) != IdAfter(x, j)
  {
    IdAfterWraps(x, i);
    IdAfterWraps(x, j);
  }

  /** The static `uniqueID` counter, shared by every resolver. */
  class IdCounter {
    var uniqueID: int

    ghost predicate Valid()
      reads this
    {
      IsInt16(uniqueID)
    }

    constructor ()
      ensures Valid() && uniqueID == 0
    {
      uniqueID := 0;
    }

    /** `new Integer(uniqueID++)`: the current value, and the counter moves on. */
    method Next() returns (id: int)
      requires Valid()
      modifies this
      ensures Valid()
      ensures id == old(uniqueID)
      ensures uniqueID == NextId(old(uniqueID))
    {
      id := uniqueID;
      uniqueID := NextId(uniqueID);
    }
  }

  // ---------------------------------------------------------------- send

  /**
    * The result of send: the reply message when the response is an answer for this id;
    * a SocketTimeoutException or other IOException is passed on; a mismatched id or any
    * other exception becomes an IllegalStateException.
    */
  function SendResult(id: int, response: Response): (r: Result<Message, Thrown>)
    ensures r.Ok? <==> response.id == id && response.Answer?
    ensures r.Ok? ==> r.value == response.message
    ensures response.id != id ==> r == Err(IllegalState)
    ensures response.id == id && response.Error? ==>
      r == Err(if IsIOException(response.failure.kind) then Rethrown(response.failure) else IllegalState)
  {
    if response.id != id then Err(IllegalState)
    else
      match response
      case Error(_, failure) =>
        if failure.kind == SocketTimeout then Err(Rethrown(Failure(SocketTimeout, failure.text)))
        else if IsIOException(failure.kind) then Err(Rethrown(failure))
        else Err(IllegalState)
      case Answer(_, message) => Ok(message)
  }

  // ---------------------------------------------------------------- the resolver object

  class NonblockingResolver {
    var remoteAddress: SocketAddress
    var localAddress: SocketAddress
    var useTCP: bool
    var ignoreTruncation: bool
    var tsig: Option<TsigKey>
    var timeoutValue: int
    var queryOPT: Option<OptRecord>
    var useSingleTCPPort: bool
    var useSingleUDPPort: bool
    /** The addresses last given to the SinglePortTransactionController. */
    var controllerRemote: SocketAddress
    var controllerLocal: SocketAddress
    const ids: IdCounter

    /**
      * The timeout is a Java `int`, both addresses carry a port InetSocketAddress accepts,
      * and the controller always has the resolver's addresses.
      */
    ghost predicate Valid()
      reads this, ids
    {
      ids.Valid() && IsInt32(timeoutValue) &&
      IsPort(remoteAddress.port) && IsPort(localAddress.port) &&
      controllerRemote == remoteAddress && controllerLocal == localAddress
    }

    /** NonblockingResolver(hostname), once the name has been resolved to `server`. */
    constructor (server: Host, ids: IdCounter)
      requires ids.Valid()
      ensures Valid() && this.ids == ids
      ensures remoteAddress == SocketAddress(server, DEFAULT_PORT)
      ensures localAddress == SocketAddress(AnyLocal, 0)
      ensures !useTCP && !ignoreTruncation && tsig == None && queryOPT == None
      ensures timeoutValue == DEFAULT_TIMEOUT_MILLIS
      ensures !useSingleTCPPort && !useSingleUDPPort
    {
      remoteAddress := SocketAddress(server, DEFAULT_PORT);
      localAddress := SocketAddress(AnyLocal, 0);
      useTCP, ignoreTruncation := false, false;
      tsig := None;
      timeoutValue := DEFAULT_TIMEOUT_MILLIS;
      queryOPT := None;
      useSingleTCPPort, useSingleUDPPort := false, false;
      controllerRemote := SocketAddress(server, DEFAULT_PORT);
      controllerLocal := SocketAddress(AnyLocal, 0);
      this.ids := ids;
    }

    /** The settings the sending path reads. */
    function CurrentSettings(): (s: Settings)
      reads this
      ensures s.remoteAddress == remoteAddress && s.localAddress == localAddress
      ensures s.tsig == tsig && s.queryOPT == queryOPT
    {
      Settings(remoteAddress, localAddress, ignoreTruncation, tsig, queryOPT,
               useSingleTCPPort, useSingleUDPPort)
    }

    method SetRemoteAddress(addr: SocketAddress)
      requires Valid()
      requires IsPort(addr.port)
      modifies this
      ensures Valid()
      ensures remoteAddress == addr
      ensures CurrentSettings() == old(CurrentSettings()).(remoteAddress := addr)
      ensures useTCP == old(useTCP) && timeoutValue == old(timeoutValue)
    {
      remoteAddress := addr;
      controllerRemote := remoteAddress;
    }

    /** setRemoteAddress(InetAddress): a new host on the current remote port. */
    method SetRemoteHost(host: Host)
      requires Valid()
      modifies this
      ensures Valid()
      ensures remoteAddress == SocketAddress(host, old(remoteAddress).port)
      ensures CurrentSettings() == old(CurrentSettings()).(remoteAddress := remoteAddress)
      ensures useTCP == old(useTCP) && timeoutValue == old(timeoutValue)
    {
      remoteAddress := SocketAddress(host, remoteAddress.port);
      controllerRemote := remoteAddress;
    }

    /**
      * setRemotePort and setPort: a new port on the current remote host. A port outside
      * 0..65535 makes InetSocketAddress throw before anything is assigned.
      */
    method SetRemotePort(port: int) returns (thrown: Option<Thrown>)
      requires Valid()
      modifies this
      ensures Valid()
      ensures thrown.Some? <==> !IsPort(port)
      ensures thrown.Some? ==> thrown.value == IllegalArgument && remoteAddress == old(remoteAddress)
      ensures thrown.None? ==> remoteAddress == SocketAddress(old(remoteAddress).host, port)
      ensures CurrentSettings() == old(CurrentSettings()).(remoteAddress := remoteAddress)
      ensures useTCP == old(useTCP) && timeoutValue == old(timeoutValue)
    {
      if !IsPort(port) {
        return Some(IllegalArgument);
      }
      remoteAddress := SocketAddress(remoteAddress.host, port);
      controllerRemote := remoteAddress;
      thrown := None;
    }

    method SetLocalAddress(addr: SocketAddress)
      requires Valid()
      requires IsPort(addr.port)
      modifies this
      ensures Valid()
      ensures localAddress == addr
      ensures CurrentSettings() == old(CurrentSettings()).(localAddress := addr)
      ensures useTCP == old(useTCP) && timeoutValue == old(timeoutValue)
    {
      localAddress := addr;
      controllerLocal := localAddress;
    }

    /** setLocalAddress(InetAddress): the host with port 0, so that a port is chosen per query. */
    method SetLocalHost(host: Host)
      requires Valid()
      modifies this
      ensures Valid()
      ensures localAddress == SocketAddress(host, 0)
      ensures CurrentSettings() == old(CurrentSettings()).(localAddress := localAddress)
      ensures useTCP == old(useTCP) && timeoutValue == old(timeoutValue)
    {
      localAddress := SocketAddress(host, 0);
      controllerLocal := localAddress;
    }

    /**
      * setLocalTcpPort: a new port on the current local host. A port outside 0..65535 makes
      * InetSocketAddress throw before anything is assigned.
      */
    method SetLocalTcpPort(port: int) returns (thrown: Option<Thrown>)
      requires Valid()
      modifies this
      ensures Valid()
      ensures thrown.Some? <==> !IsPort(port)
      ensures thrown.Some? ==> thrown.value == IllegalArgument && localAddress == old(localAddress)
      ensures thrown.None? ==> localAddress == SocketAddress(old(localAddress).host, port)
      ensures CurrentSettings() == old(CurrentSettings()).(localAddress := localAddress)
      ensures useTCP == old(useTCP) && timeoutValue == old(timeoutValue)
    {
      if !IsPort(port) {
        return Some(IllegalArgument);
      }
      localAddress := SocketAddress(localAddress.host, port);
      controllerLocal := localAddress;
      thrown := None;
    }

    method SetTcp(flag: bool)
      requires Valid()
      modifies this
      ensures Valid()
      ensures useTCP == flag
      ensures CurrentSettings() == old(CurrentSettings()) && timeoutValue == old(timeoutValue)
    {
      useTCP := flag;
    }

    method SetIgnoreTruncation(flag: bool)
      requires Valid()
      modifies this
      ensures Valid()
      ensures CurrentSettings() == old(CurrentSettings()).(ignoreTruncation := flag)
      ensures useTCP == old(useTCP) && timeoutValue == old(timeoutValue)
    {
      ignoreTruncation := flag;
    }

    method SetSingleTcpPort(useSamePort: bool)
      requires Valid()
      modifies this
      ensures Valid()
      ensures CurrentSettings() == old(CurrentSettings()).(useSingleTCPPort := useSamePort)
      ensures useTCP == old(useTCP) && timeoutValue == old(timeoutValue)
    {
      useSingleTCPPort := useSamePort;
    }

    method SetUseSingleUdpPort(useSamePort: bool)
      requires Valid()
      modifies this
      ensures Valid()
      ensures CurrentSettings() == old(CurrentSettings()).(useSingleUDPPort := useSamePort)
      ensures useTCP == old(useTCP) && timeoutValue == old(timeoutValue)
    {
      useSingleUDPPort := useSamePort;
    }

    method SetTsigKey(key: Option<TsigKey>)
      requires Valid()
      modifies this
      ensures Valid()
      ensures CurrentSettings() == old(CurrentSettings()).(tsig := key)
      ensures useTCP == old(useTCP) && timeoutValue == old(timeoutValue)
    {
      tsig := key;
    }

    /** setEDNS(level, payloadSize, flags, options): an invalid level throws and changes nothing. */
    method SetEdns(level: int, payloadSize: int, flags: int, options: seq<EdnsOption>)
      returns (thrown: Option<Thrown>)
      requires Valid()
      modifies this
      ensures Valid()
      ensures thrown.Some? <==> EdnsRecord(level, payloadSize, flags, options).Err?
      ensures thrown.Some? ==> thrown.value == IllegalArgument && queryOPT == old(queryOPT)
      ensures thrown.None? ==> queryOPT == Some(EdnsRecord(level, payloadSize, flags, options).value)
      ensures CurrentSettings() == old(CurrentSettings()).(queryOPT := queryOPT)
      ensures useTCP == old(useTCP) && timeoutValue == old(timeoutValue)
    {
      match EdnsRecord(level, payloadSize, flags, options)
      case Err(e) =>
        thrown := Some(e);
      case Ok(opt) =>
        queryOPT := Some(opt);
        thrown := None;
    }

    /** setEDNS(level): the default payload size, no flags, no options. */
    method SetEdnsLevel(level: int) returns (thrown: Option<Thrown>)
      requires Valid()
      modifies this
      ensures Valid()
      ensures thrown.Some? <==> level != 0 && level != -1
      ensures thrown.None? ==> queryOPT == Some(OptRecord(DEFAULT_EDNS_PAYLOADSIZE, 0, level, 0, []))
      ensures thrown.Some? ==> queryOPT == old(queryOPT)
      ensures CurrentSettings() == old(CurrentSettings()).(queryOPT := queryOPT)
      ensures useTCP == old(useTCP) && timeoutValue == old(timeoutValue)
    {
      thrown := SetEdns(level, 0, 0, []);
    }

    /** setTimeout(secs, millisecs) and setTimeout(secs) with millisecs 0. */
    method SetTimeout(secs: int, millis: int)
      requires Valid()
      modifies this
      ensures Valid()
      ensures timeoutValue == TimeoutMillis(secs, millis)
      ensures CurrentSettings() == old(CurrentSettings()) && useTCP == old(useTCP)
    {
      timeoutValue := TimeoutMillis(secs, millis);
    }

    /** getTimeout: the timeout in whole seconds. */
    function GetTimeout(): (secs: int)
      reads this
      ensures timeoutValue >= 0 ==> 0 <= secs * 1000 <= timeoutValue < secs * 1000 + 1000
    {
      TimeoutSeconds(timeoutValue)
    }

    /**
      * sendAsync(query, responseQueue) and sendAsync(message, listener): allocate the next
      * correlation id (even when the query is then rejected) and send with the resolver's
      * own timeout and transport preference.
      */
    method SendAsync(c: Codec, query: Message, completion: Completion, now: int,
                     idNotInUse: int -> bool, portDraw: int)
      returns (id: int, r: Result<Plan, Thrown>)
      requires Valid()
      requires 0 <= portDraw < PORT_DRAWS
      modifies ids
      ensures Valid()
      ensures id == old(ids.uniqueID) && ids.uniqueID == NextId(old(ids.uniqueID))
      ensures r == PlanSend(c, CurrentSettings(), query, id, timeoutValue, useTCP, completion, now,
                            idNotInUse, portDraw)
    {
      id := ids.Next();
      r := PlanSend(c, CurrentSettings(), query, id, timeoutValue, useTCP, completion, now,
                    idNotInUse, portDraw);
    }

    /**
      * send(query): sendAsync into a private queue, take the single response the engine
      * delivers there (`delivered`), and turn it into the reply or an exception.
      */
    method Send(c: Codec, query: Message, now: int, idNotInUse: int -> bool, portDraw: int,
                delivered: Response)
      returns (r: Result<Message, Thrown>)
      requires Valid()
      requires 0 <= portDraw < PORT_DRAWS
      modifies ids
      ensures Valid()
      ensures ids.uniqueID == NextId(old(ids.uniqueID))
      ensures IsAxfrQuery(query) ==> r == Err(UnsupportedOperation)
      ensures !IsAxfrQuery(query) ==> r == SendResult(old(ids.uniqueID), delivered)
    {
      var queue := new ResponseQueue();
      var id, plan := SendAsync(c, query, ToQueue(queue), now, idNotInUse, portDraw);
      if plan.Err? {
        return Err(plan.error);
      }
      queue.Insert(delivered);
      var response := queue.GetItem();
      r := SendResult(id, response);
    }
  }
}
