/** The TCP/IP Interface object (CIP class 0xF5): the state of one interface
    instance, the custom attribute getters and setters, the derived multicast
    base address, the gap-free Get_Attributes_All service, and the class-level
    API that platform code calls to configure the interface.

    Addresses are kept as the source keeps them: 32-bit words in network byte
    order (what inet_addr returns), converted with ntohl before they go on the
    wire as little-endian UDINTs. */
module TcpIpInterface {
  import opened ByteBufs
  import opened CipTypes

  const kCipTcpIpInterfaceClass: nat := 0xF5
  const kCipEthernetLinkClass: nat := 0xF6

  /** The initial value of the shared inactivity timeout (attribute 13), in seconds. */
  const DefaultInactivityTimeout: bv16 := 120

  /** inet_addr("239.192.1.0"): the octets 239, 192, 1, 0 in memory order,
      read as a word of the little-endian host. */
  const MulticastBaseNetworkOrder: bv32 := 0x0001_C0EF

  /** Host order of 239.192.1.0 and of the highest address the rule can give, 239.192.128.224. */
  const MulticastFirst: bv32 := 0xEFC0_0100
  const MulticastLast: bv32 := 0xEFC0_80E0

  /** Attribute 5; every address field is in network byte order. */
  datatype InterfaceConfiguration = InterfaceConfiguration(
    ipAddress: bv32,
    networkMask: bv32,
    gateway: bv32,
    nameServer: bv32,
    nameServer2: bv32,
    domainName: Bytes)

  /** Attribute 9; the starting address is in network byte order. */
  datatype MulticastAddressConfiguration = MulticastAddressConfiguration(
    allocControl: bv8,
    reservedZero: bv8,
    numberOfAllocatedMulticastAddresses: bv16,
    startingMulticastAddress: bv32)

  // ------------------------------------------------ multicast base address

  /** The host part of the interface address, in host order. */
  function HostPart(ip: bv32, mask: bv32): bv32
  {
    Ntohl(ip) & !Ntohl(mask)
  }

  /** The host-id segment: (host part - 1) & 0x3FF, in 32-bit arithmetic, so
      that a host part of 0 wraps round to segment 0x3FF. */
  function HostIdSegment(ip: bv32, mask: bv32): bv32
  {
    (HostPart(ip, mask) - 1) & 0x3FF
  }

  /** The CIP multicast allocation rule (CIP Volume 2, section 3-5.3), as
      configureNetworkInterface computes it: 239.192.1.0 plus 32 addresses per
      host-id segment, computed in host order and stored in network order.
      The first address is a multiple-of-32 offset within 239.192.1.0 to
      239.192.128.224. */
  function StartingMulticastAddress(ip: bv32, mask: bv32): (r: bv32)
    ensures MulticastFirst <= Ntohl(r) <= MulticastLast
    ensures (Ntohl(r) - MulticastFirst) & 0x1F == 0
  {
    Htonl(Ntohl(MulticastBaseNetworkOrder) + (HostIdSegment(ip, mask) << 5))
  }

  /** configureNetworkInterface's computation, step by step, is the rule. */
  lemma MulticastRule(ip: bv32, mask: bv32)
    ensures Htonl(Ntohl(MulticastBaseNetworkOrder) + ((((Ntohl(ip) & !Ntohl(mask)) - 1) & 0x3FF) << 5))
            == StartingMulticastAddress(ip, mask)
  {
  }

  lemma ShiftByFive(s: bv32)
    requires s <= 0x3FF
    ensures (s << 5) as int == 32 * s as int
  {
  }

  lemma AddToFirst(a: bv32)
    requires a <= 0x7FE0
    ensures (0xEFC0_0100 + a) as int == 0xEFC0_0100 + a as int
  {
  }

  /** In host order the starting address is 239.192.1.0 plus the shifted segment. */
  lemma HostOrderStart(ip: bv32, mask: bv32)
    ensures Ntohl(StartingMulticastAddress(ip, mask)) == 0xEFC0_0100 + (HostIdSegment(ip, mask) << 5)
  {
    assert Ntohl(MulticastBaseNetworkOrder) == 0xEFC0_0100;
    HtonlNtohl(0xEFC0_0100 + (HostIdSegment(ip, mask) << 5));
  }

  lemma SegmentBack(seg: bv32)
    requires seg <= 0x3FF
    ensures ((0xEFC0_0100 + (seg << 5)) - 0xEFC0_0100) >> 5 == seg
  {
  }

  /** The 32-bit addition never overflows: in unbounded integers the
      host-order address is 239.192.1.0 plus 32 times the segment, and the
      segment can be read back from the address. */
  lemma StartingAddressArithmetic(ip: bv32, mask: bv32)
    ensures var seg := HostIdSegment(ip, mask);
            var h := Ntohl(StartingMulticastAddress(ip, mask));
            && seg <= 0x3FF
            && h as int == 0xEFC0_0100 + 32 * seg as int
            && (h - MulticastFirst) >> 5 == seg
  {
    var seg := HostIdSegment(ip, mask);
    assert seg <= 0x3FF;
    HostOrderStart(ip, mask);
    ShiftByFive(seg);
    AddToFirst(seg << 5);
    SegmentBack(seg);
  }

  /** 192.168.1.10 with mask 255.255.255.0: host part 10, segment 9, first
      multicast address 239.192.2.32. */
  lemma StartingAddressExample()
    ensures StartingMulticastAddress(0x0A01_A8C0, 0x00FF_FFFF) == 0x2002_C0EF
  {
  }

  /** An address whose host part is 0 wraps to the last segment, 239.192.128.224. */
  lemma StartingAddressWrapExample()
    ensures StartingMulticastAddress(0x0001_A8C0, 0x00FF_FFFF) == Htonl(MulticastLast)
  {
  }

  // ------------------------------------------------------ attribute getters

  /** Stand-in for CipAppPath::Serialize of a class / instance path: logical
      segments of CIP Volume 1, Appendix C, padded to whole 16-bit words. */
  function AppPath(classId: nat, instanceId: nat): (r: Bytes)
    requires classId < 0x100
    ensures |r| % 2 == 0 && 4 <= |r| <= 8
  {
    [0x20, classId as bv8] +
    if instanceId < 0x100 then [0x24, instanceId as bv8]
    else if instanceId < 0x1_0000 then [0x25, 0x00] + Put16(instanceId as bv16)
    else [0x26, 0x00] + Put32((instanceId % 0x1_0000_0000) as bv32)
  }

  /** get_attr_4, Physical Link Object: the path to the Ethernet Link instance
      with the same id, after its size in 16-bit words. */
  function GetAttr4(instanceId: nat): (r: Response)
    ensures r.status == EipStatusOkSend
    ensures 6 <= |r.data| <= 10 && |r.data| % 2 == 0
    ensures Le16(r.data[0], r.data[1]) == ((|r.data| - 2) / 2) as bv16
    ensures r.data[2..] == AppPath(kCipEthernetLinkClass, instanceId)
  {
    var path := AppPath(kCipEthernetLinkClass, instanceId);
    Response(EipStatusOkSend, Put16((|path| / 2) as bv16) + path)
  }

  /** get_attr_5, Interface Configuration: five addresses in host order, then the domain name. */
  function GetAttr5(c: InterfaceConfiguration): (r: Response)
    ensures r.status == EipStatusOkSend
    ensures |r.data| == 22 + |c.domainName|
  {
    Response(EipStatusOkSend,
      Put32(Ntohl(c.ipAddress)) + Put32(Ntohl(c.networkMask)) + Put32(Ntohl(c.gateway))
      + Put32(Ntohl(c.nameServer)) + Put32(Ntohl(c.nameServer2))
      + PutString(c.domainName))
  }

  /** The address stored at offset k of a wire image: a little-endian host-order word, back in network order. */
  function AddressAt(b: Bytes, k: nat): bv32
    requires k + 4 <= |b|
  {
    Htonl(Le32(b[k], b[k + 1], b[k + 2], b[k + 3]))
  }

  /** Reads an Interface Configuration back from its wire form: the reference
      against which attribute 5's encoding is checked. */
  ghost function ParseInterfaceConfiguration(b: Bytes): Option<InterfaceConfiguration>
  {
    if |b| < 22 || |b| - 22 >= 0x1_0000 || Le16(b[20], b[21]) != (|b| - 22) as bv16 then None
    else
      Some(InterfaceConfiguration(
        AddressAt(b, 0), AddressAt(b, 4), AddressAt(b, 8), AddressAt(b, 12), AddressAt(b, 16),
        b[22..]))
  }

  /** An address written as put32(ntohl(x)) at offset k reads back as x. */
  lemma AddressReadBack(b: Bytes, k: nat, x: bv32)
    requires k + 4 <= |b| && b[k..k + 4] == Put32(Ntohl(x))
    ensures AddressAt(b, k) == x
  {
    var w := Put32(Ntohl(x));
    assert b[k] == w[0] && b[k + 1] == w[1] && b[k + 2] == w[2] && b[k + 3] == w[3];
    HtonlNtohl(x);
  }

  /** A string written with put_STRING at offset k reads back, with its count. */
  lemma StringAt(b: Bytes, k: nat, s: Bytes)
    requires k <= |b| && b[k..] == PutString(s) && |s| < 0x1_0000
    ensures k + 2 <= |b| && |b| - k - 2 == |s| && Le16(b[k], b[k + 1]) == |s| as bv16 && b[k + 2..] == s
  {
    var p := PutString(s);
    assert b[k] == p[0] && b[k + 1] == p[1];
    assert b[k + 2..] == p[2..];
  }

  /** Five 4-byte words and a tail, concatenated, slice back apart. */
  lemma FiveWordsThen(w0: Bytes, w1: Bytes, w2: Bytes, w3: Bytes, w4: Bytes, t: Bytes)
    requires |w0| == |w1| == |w2| == |w3| == |w4| == 4
    ensures var b := w0 + w1 + w2 + w3 + w4 + t;
            && b[0..4] == w0 && b[4..8] == w1 && b[8..12] == w2 && b[12..16] == w3 && b[16..20] == w4
            && b[20..] == t
  {
  }

  /** Where get_attr_5 puts each field. */
  lemma Attr5Layout(c: InterfaceConfiguration)
    ensures var b := GetAttr5(c).data;
            && b[0..4] == Put32(Ntohl(c.ipAddress))
            && b[4..8] == Put32(Ntohl(c.networkMask))
            && b[8..12] == Put32(Ntohl(c.gateway))
            && b[12..16] == Put32(Ntohl(c.nameServer))
            && b[16..20] == Put32(Ntohl(c.nameServer2))
            && b[20..] == PutString(c.domainName)
  {
    FiveWordsThen(Put32(Ntohl(c.ipAddress)), Put32(Ntohl(c.networkMask)), Put32(Ntohl(c.gateway)),
                  Put32(Ntohl(c.nameServer)), Put32(Ntohl(c.nameServer2)), PutString(c.domainName));
  }

  /** Attribute 5 loses nothing: parsing its bytes gives back the
      configuration, for any domain name a 16-bit count can measure. */
  lemma {:induction false} InterfaceConfigurationRoundTrip(c: InterfaceConfiguration)
    requires |c.domainName| < 0x1_0000
    ensures ParseInterfaceConfiguration(GetAttr5(c).data) == Some(c)
  {
    var b := GetAttr5(c).data;
    Attr5Layout(c);
    AddressReadBack(b, 0, c.ipAddress);
    AddressReadBack(b, 4, c.networkMask);
    AddressReadBack(b, 8, c.gateway);
    AddressReadBack(b, 12, c.nameServer);
    AddressReadBack(b, 16, c.nameServer2);
    StringAt(b, 20, c.domainName);
  }

  /** get_multicast_config, attribute 9: allocation control, a reserved zero
      byte, the address count and the first address in host order. */
  function GetMulticastConfig(m: MulticastAddressConfiguration): (r: Response)
    ensures r.status == EipStatusOkSend
    ensures |r.data| == 8 && r.data[1] == 0
  {
    var ma := Ntohl(m.startingMulticastAddress);
    Response(EipStatusOkSend,
      Put8(m.allocControl) + Put8(0) + Put16(m.numberOfAllocatedMulticastAddresses) + Put32(ma))
  }

  /** get_attr_7, Safety Network Number: six zero bytes, written size 6. */
  function GetAttr7(): (r: Response)
    ensures r.status == EipStatusOkSend
    ensures |r.data| == 6 && forall k :: 0 <= k < 6 ==> r.data[k] == 0
  {
    Response(EipStatusOkSend, Fill(6))
  }

  // --------------------------------------------------- set_multicast_config

  /** The multicast configuration set_multicast_config leaves behind when the
      request holds `request`: the fields are assigned one after the other,
      alloc_control, reserved_zero, the count, then the starting address
      (converted with htonl), and a read that runs out of bytes stops the
      assignments that follow it. */
  function MulticastAfterSet(m: MulticastAddressConfiguration, request: Bytes): (r: MulticastAddressConfiguration)
    ensures |request| >= 1 ==> r.allocControl == request[0]
    ensures |request| >= 2 ==> r.reservedZero == request[1]
    ensures |request| >= 4 ==> Put16(r.numberOfAllocatedMulticastAddresses) == request[2..4]
    ensures |request| < 1 ==> r == m
    ensures |request| < 2 ==> r.reservedZero == m.reservedZero
    ensures |request| < 4 ==> r.numberOfAllocatedMulticastAddresses == m.numberOfAllocatedMulticastAddresses
    ensures |request| < 8 ==> r.startingMulticastAddress == m.startingMulticastAddress
  {
    PutLe(if |request| >= 4 then request[2] else 0, if |request| >= 4 then request[3] else 0, 0, 0);
    Prefixes(if |request| >= 2 then request[2..] else []);
    var m1 := if |request| >= 1 then m.(allocControl := request[0]) else m;
    var m2 := if |request| >= 2 then m1.(reservedZero := request[1]) else m1;
    var m3 := if |request| >= 4
              then m2.(numberOfAllocatedMulticastAddresses := Le16(request[2], request[3]))
              else m2;
    if |request| >= 8
    then m3.(startingMulticastAddress := Htonl(Le32(request[4], request[5], request[6], request[7])))
    else m3
  }

  /** Set then get: attribute 9 reads back the 8 request bytes, except that
      the reserved byte always reads 0. */
  lemma {:induction false} MulticastSetThenGet(m: MulticastAddressConfiguration, request: Bytes)
    requires |request| >= 8
    ensures GetMulticastConfig(MulticastAfterSet(m, request)).data == [request[0], 0] + request[2..8]
  {
    var w := Le32(request[4], request[5], request[6], request[7]);
    HtonlNtohl(w);
    PutLe(request[4], request[5], request[6], request[7]);
    PutLe(request[2], request[3], 0, 0);
    TailOfEight(request);
  }

  /** Bytes 2 to 7 of a request, one by one. */
  lemma TailOfEight<T>(r: seq<T>)
    requires |r| >= 8
    ensures r[2..8] == [r[2], r[3], r[4], r[5], r[6], r[7]]
  {
  }

  /** Get then set: writing back what attribute 9 reads restores every field
      but the reserved byte, which becomes 0. */
  lemma {:induction false} MulticastGetThenSet(m: MulticastAddressConfiguration)
    ensures MulticastAfterSet(m, GetMulticastConfig(m).data) == m.(reservedZero := 0)
  {
    var b := GetMulticastConfig(m).data;
    HtonlNtohl(m.startingMulticastAddress);
    assert b[4..8] == Put32(Ntohl(m.startingMulticastAddress));
    assert b[2..4] == Put16(m.numberOfAllocatedMulticastAddresses);
  }

  // ------------------------------------------------------- attribute table

  /** The attribute ids the instance constructor inserts.  Attribute 7 is not
      among them: its insert is commented out, so only Get_Attributes_All
      produces its six zero bytes. */
  const ImplementedAttributes: set<nat> := {1, 2, 3, 4, 5, 6, 8, 9, 13}

  /** The ids inserted with a setter. */
  const SettableAttributes: set<nat> := {8, 9, 13}

  /** The zero-filled width Get_Attributes_All writes for an id up to 13 that
      has no attribute: 7 (Safety Network Number) 6 bytes, 10 (SelectAcd)
      1 byte, 11 (LastConflictDetected) 35 bytes, 12 (QuickConnect) 1 byte. */
  function PlaceholderWidth(attrId: nat): nat
  {
    if attrId == 7 then 6
    else if attrId == 10 then 1
    else if attrId == 11 then 35
    else if attrId == 12 then 1
    else 0
  }

  /** The zero runs Get_Attributes_All writes for the missing ids. */
  lemma ZeroRuns()
    ensures Fill(1) == Put8(0)
    ensures Fill(35) == Put8(0) + Fill(6) + Fill(28)
  {
  }

  /** A prefix followed by seven sections, regrouped as the prefix and one tail. */
  lemma SevenThen(p: Bytes, x7: Bytes, x8: Bytes, x9: Bytes, x10: Bytes, x11: Bytes, x12: Bytes, x13: Bytes)
    ensures var d := p + x7 + x8 + x9 + x10 + x11 + x12 + x13;
            var t := x7 + x8 + x9 + x10 + x11 + x12 + x13;
            d == p + t && d[..|p|] == p && d[|p|..] == t
  {
  }

  /** A sequence split just before its last |t| elements. */
  lemma SplitTail(p: Bytes, t: Bytes)
    ensures var d := p + t; |d| - |t| == |p| && d[..|d| - |t|] == p && d[|d| - |t|..] == t
  {
  }

  // ---------------------------------------------------------- the instance

  /** CipTCPIPInterfaceInstance: the state of one TCP/IP interface. */
  class TcpIpInterfaceInstance {
    const id: nat
    var tcpStatus: bv32
    var configurationCapability: bv32
    var configurationControl: bv32
    var interfaceConfiguration: InterfaceConfiguration
    var multicastConfiguration: MulticastAddressConfiguration
    var timeToLive: bv8

    /** The values the constructor starts from. */
    predicate HasConstructorDefaults()
      reads this
    {
      && tcpStatus == 2
      && configurationCapability == 0x27
      && configurationControl == 0
      && timeToLive == 1
    }

    /** Status 2; capability bits 0, 1, 2 (DHCP client) and 5 (hardware
        configurable); control 0; time-to-live 1.  The two configuration
        records start zeroed. */
    constructor(id: nat)
      ensures this.id == id
      ensures HasConstructorDefaults()
      ensures interfaceConfiguration == InterfaceConfiguration(0, 0, 0, 0, 0, [])
      ensures multicastConfiguration == MulticastAddressConfiguration(0, 0, 0, 0)
    {
      this.id := id;
      tcpStatus := 2;
      configurationCapability := (1 << 0) | (1 << 1) | (1 << 2) | (1 << 5);
      configurationControl := 0;
      timeToLive := 1;
      interfaceConfiguration := InterfaceConfiguration(0, 0, 0, 0, 0, []);
      multicastConfiguration := MulticastAddressConfiguration(0, 0, 0, 0);
    }

    /** set_TTL, the setter of attribute 8: a zero time-to-live is refused
        with InvalidAttributeValue and changes nothing; any other byte is
        stored.  Either way the function returns kEipStatusOkSend. */
    method SetTtl(request: Bytes) returns (reply: SetterReply)
      modifies this`timeToLive
      ensures |request| == 0 ==> reply == ReaderOverrun && timeToLive == old(timeToLive)
      ensures |request| > 0 && request[0] == 0 ==>
                reply == Returned(EipStatusOkSend, InvalidAttributeValue) && timeToLive == old(timeToLive)
      ensures |request| > 0 && request[0] != 0 ==>
                reply == Returned(EipStatusOkSend, Success) && timeToLive == request[0]
      ensures old(timeToLive) != 0 ==> timeToLive != 0
    {
      var got := Get8(request);
      if got.None? {
        return ReaderOverrun;
      }
      var ttl := got.value.0;
      if ttl == 0 {
        reply := Returned(EipStatusOkSend, InvalidAttributeValue);
      } else {
        timeToLive := ttl;
        reply := Returned(EipStatusOkSend, Success);
      }
    }

    /** set_multicast_config, the setter of attribute 9: reads the four fields
        in order and stores the address converted to network order. */
    method SetMulticastConfig(request: Bytes) returns (reply: SetterReply)
      modifies this`multicastConfiguration
      ensures multicastConfiguration == MulticastAfterSet(old(multicastConfiguration), request)
      ensures reply == if |request| >= 8 then Returned(EipStatusOkSend, Success) else ReaderOverrun
    {
      var in0 := request;
      var g8 := Get8(in0);
      if g8.None? { return ReaderOverrun; }
      multicastConfiguration := multicastConfiguration.(allocControl := g8.value.0);
      var in1 := g8.value.1;
      var r8 := Get8(in1);
      if r8.None? { return ReaderOverrun; }
      multicastConfiguration := multicastConfiguration.(reservedZero := r8.value.0);
      var in2 := r8.value.1;
      var g16 := Get16(in2);
      if g16.None? { return ReaderOverrun; }
      multicastConfiguration :=
        multicastConfiguration.(numberOfAllocatedMulticastAddresses := g16.value.0);
      var in3 := g16.value.1;
      assert in3 == request[4..];
      var g32 := Get32(in3);
      if g32.None? { return ReaderOverrun; }
      multicastConfiguration := multicastConfiguration.(startingMulticastAddress := Htonl(g32.value.0));
      reply := Returned(EipStatusOkSend, Success);
    }

    /** configureNetworkInterface: stores the address, mask and gateway and
        recomputes the starting multicast address from the address and mask.
        Nothing else changes: not the name servers, the domain name, the
        allocation control, the address count or the time-to-live. */
    method ConfigureNetworkInterface(ipAddress: bv32, subnetMask: bv32, gateway: bv32) returns (status: EipStatus)
      modifies this`interfaceConfiguration, this`multicastConfiguration
      ensures status == EipStatusOk
      ensures interfaceConfiguration == old(interfaceConfiguration).(
                ipAddress := ipAddress, networkMask := subnetMask, gateway := gateway)
      ensures multicastConfiguration == old(multicastConfiguration).(
                startingMulticastAddress := StartingMulticastAddress(ipAddress, subnetMask))
    {
      interfaceConfiguration := interfaceConfiguration.(ipAddress := ipAddress);
      interfaceConfiguration := interfaceConfiguration.(networkMask := subnetMask);
      interfaceConfiguration := interfaceConfiguration.(gateway := gateway);
      assert interfaceConfiguration.ipAddress == ipAddress && interfaceConfiguration.networkMask == subnetMask;

      var hostId: bv32 := Ntohl(interfaceConfiguration.ipAddress)
                          & !Ntohl(interfaceConfiguration.networkMask);
      hostId := hostId - 1;
      hostId := hostId & 0x3FF;
      MulticastRule(ipAddress, subnetMask);

      multicastConfiguration := multicastConfiguration.(
        startingMulticastAddress := Htonl(Ntohl(MulticastBaseNetworkOrder) + (hostId << 5)));
      status := EipStatusOk;
    }
  }

  // ------------------------------------------------------------- the class

  /** CipTCPIPInterfaceClass: the class object and its instance array. */
  class TcpIpInterfaceClass {
    const classCode: nat
    const revision: nat
    /** The common class attributes implemented (MASK5(1,2,3,6,7)). */
    const commonAttributes: set<nat>
    var instances: seq<TcpIpInterfaceInstance>

    /** Instance ids are 1, 2, 3, ... in array order: the configuration rule
        that Instance's direct indexing depends on. */
    ghost predicate Valid()
      reads this
    {
      forall k :: 0 <= k < |instances| ==> instances[k].id == k + 1
    }

    constructor()
      ensures classCode == kCipTcpIpInterfaceClass && revision == 4
      ensures commonAttributes == {1, 2, 3, 6, 7}
      ensures instances == [] && Valid()
    {
      classCode := kCipTcpIpInterfaceClass;
      revision := 4;
      commonAttributes := {1, 2, 3, 6, 7};
      instances := [];
    }

    /** InstanceInsert, kept to the contiguous numbering it is used with. */
    method InstanceInsert(inst: TcpIpInterfaceInstance)
      requires Valid() && inst.id == |instances| + 1
      modifies this`instances
      ensures instances == old(instances) + [inst] && Valid()
    {
      instances := instances + [inst];
    }

    /** Instance(id): the array slot id - 1, which holds the instance with
        that id because ids are contiguous from 1. */
    method Instance(instanceId: int) returns (inst: TcpIpInterfaceInstance)
      requires Valid() && 1 <= instanceId <= |instances|
      ensures inst in instances && inst.id == instanceId
    {
      inst := instances[instanceId - 1];
    }
  }

  /** The result of a Set_Attribute_Single routed through the instance's
      attribute table: refused before any setter runs, or the setter's reply. */
  datatype SetOutcome = Refused(genStatus: GeneralStatus) | Handled(reply: SetterReply)

  // ------------------------------------------------- process-wide state

  /** What this file keeps outside any instance: which class codes the CIP
      registry holds, the s_tcp pointer to the class object, the hostname
      (a static member shared by every instance) and s_inactivity_timeout
      (attribute 13, also shared). */
  class Globals {
    var registeredClasses: set<nat>
    var tcp: TcpIpInterfaceClass?
    var hostname: Bytes
    var inactivityTimeout: bv16

    ghost predicate Valid()
      reads this, tcp
    {
      && (tcp != null <==> kCipTcpIpInterfaceClass in registeredClasses)
      && (tcp != null ==> tcp.Valid() && |tcp.instances| >= 1)
    }

    /** Program start: an empty registry, an empty hostname and the default timeout of 120. */
    constructor()
      ensures Valid() && registeredClasses == {} && tcp == null
      ensures hostname == [] && inactivityTimeout == DefaultInactivityTimeout
    {
      registeredClasses := {};
      tcp := null;
      hostname := [];
      inactivityTimeout := DefaultInactivityTimeout;
    }

    /** Init: when the class is not registered yet, creates it, points s_tcp
        at it, registers it and inserts instance 1; otherwise does nothing. */
    method Init() returns (status: EipStatus)
      requires Valid()
      modifies this
      ensures Valid() && status == EipStatusOk
      ensures kCipTcpIpInterfaceClass in old(registeredClasses) ==> unchanged(this)
      ensures kCipTcpIpInterfaceClass !in old(registeredClasses) ==>
                && registeredClasses == old(registeredClasses) + {kCipTcpIpInterfaceClass}
                && tcp != null && fresh(tcp) && |tcp.instances| == 1
                && tcp.classCode == kCipTcpIpInterfaceClass && tcp.revision == 4
                && tcp.commonAttributes == {1, 2, 3, 6, 7}
                && fresh(tcp.instances[0]) && tcp.instances[0].id == 1
                && tcp.instances[0].HasConstructorDefaults()
                && tcp.instances[0].interfaceConfiguration == InterfaceConfiguration(0, 0, 0, 0, 0, [])
                && tcp.instances[0].multicastConfiguration == MulticastAddressConfiguration(0, 0, 0, 0)
                && hostname == old(hostname) && inactivityTimeout == old(inactivityTimeout)
    {
      if kCipTcpIpInterfaceClass !in registeredClasses {
        var clazz := new TcpIpInterfaceClass();
        tcp := clazz;
        registeredClasses := registeredClasses + {kCipTcpIpInterfaceClass};
        var inst := new TcpIpInterfaceInstance(1);
        clazz.InstanceInsert(inst);
      }
      status := EipStatusOk;
    }

    /** The bytes the instance's attribute `attrId` gets, through the custom
        getter or the standard codec of its type (DWORD as put32, UINT as
        put16, USINT as put8, STRING as put_STRING); None for an id the
        constructor did not insert. */
    function GetAttributeSingle(inst: TcpIpInterfaceInstance, attrId: nat): (r: Option<Bytes>)
      reads this, inst
      ensures r.Some? <==> attrId in ImplementedAttributes
    {
      if attrId == 1 then Some(Put32(inst.tcpStatus))
      else if attrId == 2 then Some(Put32(inst.configurationCapability))
      else if attrId == 3 then Some(Put32(inst.configurationControl))
      else if attrId == 4 then Some(GetAttr4(inst.id).data)
      else if attrId == 5 then Some(GetAttr5(inst.interfaceConfiguration).data)
      else if attrId == 6 then Some(PutString(hostname))
      else if attrId == 8 then Some(Put8(inst.timeToLive))
      else if attrId == 9 then Some(GetMulticastConfig(inst.multicastConfiguration).data)
      else if attrId == 13 then Some(Put16(inactivityTimeout))
      else None
    }

    /** get_all, Get_Attributes_All of an instance: attributes 1 to 13 in
        order, zeros in place of the ones the device does not implement. */
    function GetAll(inst: TcpIpInterfaceInstance): (r: Response)
      reads this, inst
      ensures r.status == EipStatusOk
    {
      var path := AppPath(kCipEthernetLinkClass, inst.id);
      var c := inst.interfaceConfiguration;
      var m := inst.multicastConfiguration;
      // attributes 1, 2 and 3
      var a1, a2, a3 := Put32(inst.tcpStatus), Put32(inst.configurationCapability), Put32(inst.configurationControl);
      // attribute 4: word count, then the path
      var a4 := Put16((|path| / 2) as bv16) + path;
      // attribute 5
      var a5 := Put32(Ntohl(c.ipAddress)) + Put32(Ntohl(c.networkMask)) + Put32(Ntohl(c.gateway))
                + Put32(Ntohl(c.nameServer)) + Put32(Ntohl(c.nameServer2)) + PutString(c.domainName);
      // attribute 6
      var a6 := PutString(hostname);
      // attribute 7, 6 zeros
      var a7 := Fill(6);
      // attribute 8
      var a8 := Put8(inst.timeToLive);
      // attribute 9
      var a9 := Put8(m.allocControl) + Put8(0) + Put16(m.numberOfAllocatedMulticastAddresses)
                + Put32(Ntohl(m.startingMulticastAddress));
      // attributes 10, 11 and 12
      var a10 := Put8(0);
      var a11 := Put8(0) + Fill(6) + Fill(28);
      var a12 := Put8(0);
      // attribute 13
      var a13 := Put16(inactivityTimeout);
      Response(EipStatusOk, a1 + a2 + a3 + a4 + a5 + a6 + a7 + a8 + a9 + a10 + a11 + a12 + a13)
    }

    /** What Get_Attributes_All owes for one id: the attribute's own bytes,
        or the zero placeholder of its documented width. */
    ghost function Section(inst: TcpIpInterfaceInstance, attrId: nat): Bytes
      reads this, inst
    {
      match GetAttributeSingle(inst, attrId)
      case Some(b) => b
      case None => Fill(PlaceholderWidth(attrId))
    }

    /** The sections for ids 1 to n, in ascending order. */
    ghost function Sections(inst: TcpIpInterfaceInstance, n: nat): Bytes
      reads this, inst
    {
      if n == 0 then [] else Sections(inst, n - 1) + Section(inst, n)
    }

    /** Get_Attributes_All is the gap-free concatenation of ids 1 to 13: each
        implemented attribute exactly as its own getter writes it (so the
        attribute 5 and attribute 9 parts are what get_attr_5 and
        get_multicast_config write), each missing id as its zero placeholder. */
    lemma GetAllAscending(inst: TcpIpInterfaceInstance)
      ensures GetAll(inst).data == Sections(inst, 13)
    {
      var x1, x2, x3, x4, x5 := Section(inst, 1), Section(inst, 2), Section(inst, 3), Section(inst, 4), Section(inst, 5);
      var x6, x7, x8, x9, x10 := Section(inst, 6), Section(inst, 7), Section(inst, 8), Section(inst, 9), Section(inst, 10);
      var x11, x12, x13 := Section(inst, 11), Section(inst, 12), Section(inst, 13);
      assert Sections(inst, 1) == x1;
      assert Sections(inst, 2) == x1 + x2;
      assert Sections(inst, 3) == x1 + x2 + x3;
      assert Sections(inst, 4) == x1 + x2 + x3 + x4;
      assert Sections(inst, 5) == x1 + x2 + x3 + x4 + x5;
      assert Sections(inst, 6) == x1 + x2 + x3 + x4 + x5 + x6;
      assert Sections(inst, 7) == x1 + x2 + x3 + x4 + x5 + x6 + x7;
      assert Sections(inst, 8) == x1 + x2 + x3 + x4 + x5 + x6 + x7 + x8;
      assert Sections(inst, 9) == x1 + x2 + x3 + x4 + x5 + x6 + x7 + x8 + x9;
      assert Sections(inst, 10) == x1 + x2 + x3 + x4 + x5 + x6 + x7 + x8 + x9 + x10;
      assert Sections(inst, 11) == x1 + x2 + x3 + x4 + x5 + x6 + x7 + x8 + x9 + x10 + x11;
      assert Sections(inst, 12) == x1 + x2 + x3 + x4 + x5 + x6 + x7 + x8 + x9 + x10 + x11 + x12;
      assert Sections(inst, 13) == x1 + x2 + x3 + x4 + x5 + x6 + x7 + x8 + x9 + x10 + x11 + x12 + x13;
      SectionValues(inst);
    }

    /** Each section, as GetAll writes it inline. */
    lemma SectionValues(inst: TcpIpInterfaceInstance)
      ensures Section(inst, 1) == Put32(inst.tcpStatus)
      ensures Section(inst, 2) == Put32(inst.configurationCapability)
      ensures Section(inst, 3) == Put32(inst.configurationControl)
      ensures var path := AppPath(kCipEthernetLinkClass, inst.id);
              Section(inst, 4) == Put16((|path| / 2) as bv16) + path
      ensures var c := inst.interfaceConfiguration;
              Section(inst, 5) == Put32(Ntohl(c.ipAddress)) + Put32(Ntohl(c.networkMask)) + Put32(Ntohl(c.gateway))
                                  + Put32(Ntohl(c.nameServer)) + Put32(Ntohl(c.nameServer2)) + PutString(c.domainName)
      ensures Section(inst, 6) == PutString(hostname)
      ensures Section(inst, 7) == Fill(6)
      ensures Section(inst, 8) == Put8(inst.timeToLive)
      ensures var m := inst.multicastConfiguration;
              Section(inst, 9) == Put8(m.allocControl) + Put8(0) + Put16(m.numberOfAllocatedMulticastAddresses)
                                  + Put32(Ntohl(m.startingMulticastAddress))
      ensures Section(inst, 10) == Put8(0)
      ensures Section(inst, 11) == Put8(0) + Fill(6) + Fill(28)
      ensures Section(inst, 12) == Put8(0)
      ensures Section(inst, 13) == Put16(inactivityTimeout)
    {
      SectionWords(inst);
      SectionRecords(inst);
      SectionZeros(inst);
    }

    lemma SectionWords(inst: TcpIpInterfaceInstance)
      ensures Section(inst, 1) == Put32(inst.tcpStatus)
      ensures Section(inst, 2) == Put32(inst.configurationCapability)
      ensures Section(inst, 3) == Put32(inst.configurationControl)
      ensures Section(inst, 6) == PutString(hostname)
      ensures Section(inst, 8) == Put8(inst.timeToLive)
      ensures Section(inst, 13) == Put16(inactivityTimeout)
    {
    }

    lemma SectionRecords(inst: TcpIpInterfaceInstance)
      ensures var path := AppPath(kCipEthernetLinkClass, inst.id);
              Section(inst, 4) == Put16((|path| / 2) as bv16) + path
      ensures var c := inst.interfaceConfiguration;
              Section(inst, 5) == Put32(Ntohl(c.ipAddress)) + Put32(Ntohl(c.networkMask)) + Put32(Ntohl(c.gateway))
                                  + Put32(Ntohl(c.nameServer)) + Put32(Ntohl(c.nameServer2)) + PutString(c.domainName)
      ensures var m := inst.multicastConfiguration;
              Section(inst, 9) == Put8(m.allocControl) + Put8(0) + Put16(m.numberOfAllocatedMulticastAddresses)
                                  + Put32(Ntohl(m.startingMulticastAddress))
    {
    }

    lemma SectionZeros(inst: TcpIpInterfaceInstance)
      ensures Section(inst, 7) == Fill(6)
      ensures Section(inst, 10) == Put8(0)
      ensures Section(inst, 11) == Put8(0) + Fill(6) + Fill(28)
      ensures Section(inst, 12) == Put8(0)
    {
      ZeroRuns();
    }

    /** Sections 7 to 13 are fixed except for the time-to-live, the
        multicast record and the timeout: 54 bytes in all. */
    ghost function FixedTail(inst: TcpIpInterfaceInstance): (t: Bytes)
      reads this, inst
      ensures |t| == 54
    {
      Fill(6) + [inst.timeToLive] + GetMulticastConfig(inst.multicastConfiguration).data
      + [0] + Fill(35) + [0] + Put16(inactivityTimeout)
    }

    lemma SectionsAfterSix(inst: TcpIpInterfaceInstance)
      ensures Sections(inst, 13) == Sections(inst, 6) + FixedTail(inst)
    {
      var x7, x8, x9, x10 := Section(inst, 7), Section(inst, 8), Section(inst, 9), Section(inst, 10);
      var x11, x12, x13 := Section(inst, 11), Section(inst, 12), Section(inst, 13);
      assert x7 == Fill(6) && x8 == [inst.timeToLive] && x9 == GetMulticastConfig(inst.multicastConfiguration).data;
      assert x10 == [0] && x11 == Fill(35) && x12 == [0] && x13 == Put16(inactivityTimeout);
      assert Sections(inst, 7) == Sections(inst, 6) + x7;
      assert Sections(inst, 8) == Sections(inst, 6) + x7 + x8;
      assert Sections(inst, 9) == Sections(inst, 6) + x7 + x8 + x9;
      assert Sections(inst, 10) == Sections(inst, 6) + x7 + x8 + x9 + x10;
      assert Sections(inst, 11) == Sections(inst, 6) + x7 + x8 + x9 + x10 + x11;
      assert Sections(inst, 12) == Sections(inst, 6) + x7 + x8 + x9 + x10 + x11 + x12;
      assert Sections(inst, 13) == Sections(inst, 6) + x7 + x8 + x9 + x10 + x11 + x12 + x13;
      SevenThen(Sections(inst, 6), x7, x8, x9, x10, x11, x12, x13);
    }

    /** Everything after the hostname is a fixed 54-byte tail: 6 zero bytes
        (7), the time-to-live (8), the 8 multicast bytes (9), a zero byte (10),
        35 zero bytes (11), a zero byte (12) and the 16-bit timeout (13). */
    lemma GetAllTail(inst: TcpIpInterfaceInstance)
      ensures var d := GetAll(inst).data;
              && |d| == |Sections(inst, 6)| + 54
              && d[..|d| - 54] == Sections(inst, 6)
              && d[|d| - 54..] == FixedTail(inst)
    {
      GetAllAscending(inst);
      SectionsAfterSix(inst);
      SplitTail(Sections(inst, 6), FixedTail(inst));
    }

    // ---------------------------------------------------- attribute setters

    /** set_attr_13: stores the request's 16-bit value as the one timeout all
        instances share. */
    method SetAttr13(request: Bytes) returns (reply: SetterReply)
      modifies this`inactivityTimeout
      ensures |request| >= 2 ==>
                reply == Returned(EipStatusOkSend, Success) && inactivityTimeout == Le16(request[0], request[1])
      ensures |request| < 2 ==> reply == ReaderOverrun && inactivityTimeout == old(inactivityTimeout)
    {
      var got := Get16(request);
      if got.None? {
        return ReaderOverrun;
      }
      inactivityTimeout := got.value.0;
      reply := Returned(EipStatusOkSend, Success);
    }

    /** Set_Attribute_Single on an instance: an id the constructor did not
        insert is not supported, an id inserted without a setter is not
        settable, and 8, 9 and 13 go to set_TTL, set_multicast_config and
        set_attr_13.  Attribute 13 lands in the shared timeout whichever
        instance was addressed. */
    method SetAttributeSingle(inst: TcpIpInterfaceInstance, attrId: nat, request: Bytes) returns (r: SetOutcome)
      modifies inst`timeToLive, inst`multicastConfiguration, this`inactivityTimeout
      ensures attrId !in ImplementedAttributes ==> r == Refused(AttributeNotSupported)
      ensures attrId in ImplementedAttributes - SettableAttributes ==> r == Refused(AttributeNotSettable)
      ensures attrId != 8 ==> inst.timeToLive == old(inst.timeToLive)
      ensures attrId != 9 ==> inst.multicastConfiguration == old(inst.multicastConfiguration)
      ensures attrId != 13 ==> inactivityTimeout == old(inactivityTimeout)
      ensures attrId == 8 && |request| == 0 ==>
                r == Handled(ReaderOverrun) && inst.timeToLive == old(inst.timeToLive)
      ensures attrId == 8 && |request| > 0 && request[0] != 0 ==>
                r == Handled(Returned(EipStatusOkSend, Success))
                && GetAttributeSingle(inst, 8) == Some([request[0]])
      ensures attrId == 8 && |request| > 0 && request[0] == 0 ==>
                r == Handled(Returned(EipStatusOkSend, InvalidAttributeValue))
                && inst.timeToLive == old(inst.timeToLive)
      ensures attrId == 9 ==>
                && inst.multicastConfiguration == MulticastAfterSet(old(inst.multicastConfiguration), request)
                && r == Handled(if |request| >= 8 then Returned(EipStatusOkSend, Success) else ReaderOverrun)
      ensures attrId == 13 && |request| >= 2 ==>
                r == Handled(Returned(EipStatusOkSend, Success))
                && GetAttributeSingle(inst, 13) == Some(request[..2])
      ensures attrId == 13 && |request| < 2 ==>
                r == Handled(ReaderOverrun) && inactivityTimeout == old(inactivityTimeout)
    {
      if attrId !in ImplementedAttributes {
        return Refused(AttributeNotSupported);
      }
      if attrId !in SettableAttributes {
        return Refused(AttributeNotSettable);
      }
      var reply;
      if attrId == 8 {
        reply := inst.SetTtl(request);
      } else if attrId == 9 {
        reply := inst.SetMulticastConfig(request);
      } else {
        reply := SetAttr13(request);
        if |request| >= 2 {
          var got := Get16(request);
          assert request[..2] == Put16(got.value.0);
        }
      }
      r := Handled(reply);
    }

    // ----------------------------------------------------------- the API

    /** MultiCast(id): the multicast configuration of the instance with that id. */
    method MultiCast(instanceId: int) returns (m: MulticastAddressConfiguration)
      requires Valid() && tcp != null && 1 <= instanceId <= |tcp.instances|
      ensures forall k :: 0 <= k < |tcp.instances| && tcp.instances[k].id == instanceId ==>
                m == tcp.instances[k].multicastConfiguration
    {
      var inst := tcp.Instance(instanceId);
      m := inst.multicastConfiguration;
    }

    /** InterfaceConf(id): the interface configuration of the instance with that id. */
    method InterfaceConf(instanceId: int) returns (c: InterfaceConfiguration)
      requires Valid() && tcp != null && 1 <= instanceId <= |tcp.instances|
      ensures forall k :: 0 <= k < |tcp.instances| && tcp.instances[k].id == instanceId ==>
                c == tcp.instances[k].interfaceConfiguration
    {
      var inst := tcp.Instance(instanceId);
      c := inst.interfaceConfiguration;
    }

    /** TTL(id): the time-to-live of the instance with that id. */
    method Ttl(instanceId: int) returns (ttl: bv8)
      requires Valid() && tcp != null && 1 <= instanceId <= |tcp.instances|
      ensures forall k :: 0 <= k < |tcp.instances| && tcp.instances[k].id == instanceId ==>
                ttl == tcp.instances[k].timeToLive
    {
      var inst := tcp.Instance(instanceId);
      ttl := inst.timeToLive;
    }

    /** IpAddress(id): the address (network order) of the instance with that id. */
    method IpAddress(instanceId: int) returns (ip: bv32)
      requires Valid() && tcp != null && 1 <= instanceId <= |tcp.instances|
      ensures forall k :: 0 <= k < |tcp.instances| && tcp.instances[k].id == instanceId ==>
                ip == tcp.instances[k].interfaceConfiguration.ipAddress
    {
      var inst := tcp.Instance(instanceId);
      ip := inst.interfaceConfiguration.ipAddress;
    }

    /** ConfigureNetworkInterface(id, ...): configureNetworkInterface on the instance with that id. */
    method ConfigureNetworkInterface(instanceId: int, ipAddress: bv32, subnetMask: bv32, gateway: bv32)
      returns (status: EipStatus)
      requires Valid() && tcp != null && 1 <= instanceId <= |tcp.instances|
      modifies tcp.instances[instanceId - 1]
      ensures status == EipStatusOk
      ensures var inst := tcp.instances[instanceId - 1];
              && inst.interfaceConfiguration == old(inst.interfaceConfiguration).(
                   ipAddress := ipAddress, networkMask := subnetMask, gateway := gateway)
              && inst.multicastConfiguration == old(inst.multicastConfiguration).(
                   startingMulticastAddress := StartingMulticastAddress(ipAddress, subnetMask))
              && inst.timeToLive == old(inst.timeToLive)
              && inst.tcpStatus == old(inst.tcpStatus)
              && inst.configurationCapability == old(inst.configurationCapability)
              && inst.configurationControl == old(inst.configurationControl)
    {
      var inst := tcp.Instance(instanceId);
      status := inst.ConfigureNetworkInterface(ipAddress, subnetMask, gateway);
    }

    /** ConfigureDomainName(id, name): the domain name of the instance with that id. */
    method ConfigureDomainName(instanceId: int, domainName: Bytes)
      requires Valid() && tcp != null && 1 <= instanceId <= |tcp.instances|
      modifies tcp.instances[instanceId - 1]
      ensures var inst := tcp.instances[instanceId - 1];
              && inst.interfaceConfiguration == old(inst.interfaceConfiguration).(domainName := domainName)
              && inst.multicastConfiguration == old(inst.multicastConfiguration)
              && inst.timeToLive == old(inst.timeToLive)
              && inst.tcpStatus == old(inst.tcpStatus)
              && inst.configurationCapability == old(inst.configurationCapability)
              && inst.configurationControl == old(inst.configurationControl)
    {
      var inst := tcp.Instance(instanceId);
      inst.interfaceConfiguration := inst.interfaceConfiguration.(domainName := domainName);
    }

    /** ConfigureHostName(id, name): looks the instance up, then sets the
        hostname every instance shares. */
    method ConfigureHostName(instanceId: int, hostName: Bytes)
      requires Valid() && tcp != null && 1 <= instanceId <= |tcp.instances|
      modifies this`hostname
      ensures hostname == hostName
      ensures forall k :: 0 <= k < |tcp.instances| ==>
                GetAttributeSingle(tcp.instances[k], 6) == Some(PutString(hostName))
    {
      var inst := tcp.Instance(instanceId);
      hostname := hostName;
    }
  }
}
