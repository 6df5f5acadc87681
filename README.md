# CIPster TCP/IP Interface object and UDP socket pool, in Dafny

This project models two parts of the CIPster EtherNet/IP stack and proves
properties about them.

**The TCP/IP Interface object (CIP class 0xF5).** This is the state of one
network interface:
- status, capability and control words;
- the interface configuration: address, mask, gateway, two name servers and
  the domain name;
- the time-to-live;
- the multicast configuration;
- the shared hostname and the shared encapsulation inactivity timeout.

The model also covers:
- the attribute getters and setters;
- the CIP multicast base-address rule applied by `configureNetworkInterface`;
- the gap-free Get_Attributes_All service;
- instance lookup by contiguous id;
- one-time class registration (`Init`);
- the `Configure*` application API.

**The UDP socket pool (`UdpSocket`, `UdpSocketMgr`).** There is one
reference-counted socket per bound address. A recycling bin holds socket
objects whose descriptor has been closed.

Files:

- `byte_bufs.dfy` (module `ByteBufs`) covers the BufWriter and BufReader
  primitives as functions on `seq<bv8>`:
  - `put8`, `put16` and `put32` write little-endian, as CIP requires;
  - `fill` writes zero bytes;
  - a stand-in for `put_STRING`;
  - the `get8`, `get16` and `get32` readers, which return `None` when too
    few bytes are left;
  - `htonl` and `ntohl` on a little-endian host, both as a byte swap.
- `cip_types.dfy` (module `CipTypes`) holds the status vocabulary. It
  includes `SetterReply.ReaderOverrun` for a setter whose request is too
  short.
- `tcpip_interface.dfy` (module `TcpIpInterface`) contains:
  - the getters as pure functions returning the bytes they write;
  - the instance as a class whose setters are methods;
  - the class object, whose instance list is ordered by id;
  - a `Globals` class for the file's statics (`s_tcp`, the hostname and
    `s_inactivity_timeout`) together with a set of registered class codes
    that stands for the external class registry (`GetCipClass`,
    `RegisterCipClass`) which `Init` consults.
- `udp_socket_pool.dfy` (module `UdpSocketPool`) first specifies the pool as
  a value, a sequence of `Entry(addr, fd, refs)`. Its functions `Grab` and
  `Release` come with lemmas: well-formedness is preserved, holder counts
  move by exactly one, descriptors are opened only for new addresses,
  `Release` undoes `Grab`, and the two-holder scenario plays out as
  expected. The classes `Os`, `UdpSocket` and `UdpSocketMgr` implement the
  pool. Their methods are proved against those functions through a ghost
  `pool` field that `Valid()` ties to the live socket objects.

Words are `bv8`, `bv16` and `bv32`. The 32-bit wrap-around of `host_id -= 1`
(a host part of 0 gives segment 0x3FF) is therefore native bit-vector
arithmetic.

## Model

| member | source | states |
|---|---|---|
| ByteBufs.Put8 | source/src/cip/ciptcpipinterface.cc:124-125 | put8 writes exactly one byte, the argument |
| ByteBufs.Put16 | source/src/cip/ciptcpipinterface.cc:126 | put16 writes two bytes whose little-endian value is the argument |
| ByteBufs.Put32 | source/src/cip/ciptcpipinterface.cc:100-104 | put32 writes four bytes whose little-endian value is the argument |
| ByteBufs.Fill | source/src/cip/ciptcpipinterface.cc:161 | fill(n) writes exactly n bytes, all zero |
| ByteBufs.PutString | source/src/cip/ciptcpipinterface.cc:105 | put_STRING stand-in: a 16-bit count of the characters (low byte first), then the characters themselves |
| ByteBufs.Get8 | source/src/cip/ciptcpipinterface.cc:144-145 | get8 succeeds exactly when a byte is left, and what it read plus what remains is the input |
| ByteBufs.Get16 | source/src/cip/ciptcpipinterface.cc:146 | get16 succeeds exactly when two bytes are left; put16 of the value plus the rest is the input |
| ByteBufs.Get32 | source/src/cip/ciptcpipinterface.cc:147 | get32 succeeds exactly when four bytes are left; put32 of the value plus the rest is the input |
| ByteBufs.GetPut | source/src/cip/ciptcpipinterface.cc:144-147 | reading back what put8/put16/put32 wrote yields the value and leaves the rest untouched |
| ByteBufs.SwapReversesBytes | source/src/cip/ciptcpipinterface.cc:211-217 | `Swap32`, the byte swap behind htonl and ntohl, writes out as the argument's four bytes in reverse order |
| ByteBufs.Htonl | source/src/cip/ciptcpipinterface.cc:216-217 | htonl on a little-endian host: the result's bytes are the argument's in reverse order |
| ByteBufs.Ntohl | source/src/cip/ciptcpipinterface.cc:211-212 | ntohl on a little-endian host: the result's bytes are the argument's in reverse order |
| ByteBufs.HtonlNtohl | source/src/cip/ciptcpipinterface.cc:216-217 | htonl and ntohl undo each other |
| TcpIpInterface.StartingMulticastAddress | source/src/cip/ciptcpipinterface.cc:209-217 | the computed first multicast address lies in 239.192.1.0 to 239.192.128.224 (host order) on a multiple-of-32 offset |
| TcpIpInterface.StartingAddressArithmetic | source/src/cip/ciptcpipinterface.cc:211-217 | the segment is at most 0x3FF, the 32-bit sum does not overflow (equals 239.192.1.0 + 32 * segment in unbounded integers), and the segment is recovered from the address |
| TcpIpInterface.StartingAddressExample | source/src/cip/ciptcpipinterface.cc:211-217 | 192.168.1.10/24 gets 239.192.2.32 |
| TcpIpInterface.StartingAddressWrapExample | source/src/cip/ciptcpipinterface.cc:213-214 | a host part of 0 wraps round to the last segment, 239.192.128.224 |
| TcpIpInterface.AppPath | source/src/cip/ciptcpipinterface.cc:73-78 | stand-in for the serialized path to the Ethernet Link instance: an even number of bytes, 4 to 8 |
| TcpIpInterface.GetAttr4 | source/src/cip/ciptcpipinterface.cc:66-87 | get_attr_4 returns OkSend and writes a 16-bit word count equal to half the path length, followed by the even-length path to the Ethernet Link instance with the same id |
| TcpIpInterface.GetAttr5 | source/src/cip/ciptcpipinterface.cc:90-110 | get_attr_5 returns OkSend and writes 22 bytes plus the domain name |
| TcpIpInterface.InterfaceConfigurationRoundTrip | source/src/cip/ciptcpipinterface.cc:98-105 | parsing attribute 5's bytes (five host-order words back to network order, then a counted string) returns the configuration, for any domain name shorter than 65536 |
| TcpIpInterface.GetMulticastConfig | source/src/cip/ciptcpipinterface.cc:115-133 | get_multicast_config returns OkSend and writes 8 bytes whose second (reserved) byte is 0 |
| TcpIpInterface.GetAttr7 | source/src/cip/ciptcpipinterface.cc:153-166 | get_attr_7 returns OkSend with written size 6, all zero |
| TcpIpInterface.MulticastAfterSet | source/src/cip/ciptcpipinterface.cc:144-147 | each field the request reaches takes the request's bytes (alloc_control, reserved_zero, the little-endian count); a field the reader does not reach keeps its old value |
| TcpIpInterface.MulticastSetThenGet | source/src/cip/ciptcpipinterface.cc:136-150 | after set_multicast_config of 8 bytes, attribute 9 reads back those bytes except that the reserved byte reads 0 |
| TcpIpInterface.MulticastGetThenSet | source/src/cip/ciptcpipinterface.cc:124-147 | writing back what attribute 9 reads restores every field except reserved_zero, which becomes 0 |
| TcpIpInterface.TcpIpInterfaceInstance.constructor | source/src/cip/ciptcpipinterface.cc:29-60 | a new instance has status 2, capability 0x27 (bits 0, 1, 2, 5), control 0, time-to-live 1 and both configuration records zeroed |
| TcpIpInterface.TcpIpInterfaceInstance.SetTtl | source/src/cip/ciptcpipinterface.cc:183-197 | set_TTL returns OkSend. A zero TTL is refused with InvalidAttributeValue and leaves the old value; any other byte is stored. An empty request is a reader overrun. A non-zero TTL stays non-zero |
| TcpIpInterface.TcpIpInterfaceInstance.SetMulticastConfig | source/src/cip/ciptcpipinterface.cc:136-150 | the fields are assigned in order from get8, get8, get16, get32 (the last through htonl). A request shorter than 8 bytes overruns after the fields read so far |
| TcpIpInterface.TcpIpInterfaceInstance.ConfigureNetworkInterface | source/src/cip/ciptcpipinterface.cc:200-220 | the address, mask and gateway are stored and the starting multicast address is recomputed; nothing else in either record changes; returns Ok |
| TcpIpInterface.TcpIpInterfaceClass.constructor | source/src/cip/ciptcpipinterface.cc:227-242 | class 0xF5, revision 4, common class attributes {1, 2, 3, 6, 7}, no instances |
| TcpIpInterface.TcpIpInterfaceClass.InstanceInsert | source/src/cip/ciptcpipinterface.cc:408-412 | appends the instance, keeping ids contiguous from 1 |
| TcpIpInterface.TcpIpInterfaceClass.Instance | source/src/cip/ciptcpipinterface.cc:245-259 | indexing slot id - 1 yields the instance whose id is the requested one |
| TcpIpInterface.Globals.constructor | source/src/cip/ciptcpipinterface.cc:20-26 | program start: nothing registered, no s_tcp, empty hostname, inactivity timeout 120 |
| TcpIpInterface.Globals.Init | source/src/cip/ciptcpipinterface.cc:398-416 | when already registered nothing changes; otherwise the class is created, registered, pointed to by s_tcp (class 0xF5, revision 4, class attributes {1, 2, 3, 6, 7}) and given one default instance with id 1 (constructor defaults, both configuration records zeroed); always returns Ok |
| TcpIpInterface.Globals.GetAttributeSingle | source/src/cip/ciptcpipinterface.cc:43-59 | exactly the ids 1 to 6, 8, 9 and 13 are inserted; attribute 7 is not |
| TcpIpInterface.Globals.GetAll | source/src/cip/ciptcpipinterface.cc:268-329 | get_all returns Ok (not OkSend) |
| TcpIpInterface.Globals.GetAllAscending | source/src/cip/ciptcpipinterface.cc:264-329 | get_all writes ids 1 to 13 in ascending order with no gaps: each inserted attribute exactly as its own getter or codec writes it, each missing id as its zero placeholder (6, 1, 35 and 1 bytes for 7, 10, 11, 12) |
| TcpIpInterface.Globals.GetAllTail | source/src/cip/ciptcpipinterface.cc:299-323 | after the hostname comes a fixed 54-byte tail: 6 zeros, TTL, the 8 multicast bytes, a zero, 35 zeros, a zero, the 16-bit timeout |
| TcpIpInterface.Globals.SetAttr13 | source/src/cip/ciptcpipinterface.cc:169-179 | set_attr_13 stores the request's 16-bit little-endian value as the shared timeout and returns OkSend; fewer than 2 bytes is a reader overrun with nothing changed |
| TcpIpInterface.Globals.SetAttributeSingle | source/src/cip/ciptcpipinterface.cc:43-59 | ids not inserted are unsupported and ids without a setter are not settable. 8, 9 and 13 reach their setters with their replies, including the reader overrun on a short request (TTL and timeout then unchanged), and only the addressed field changes. A stored TTL or timeout reads back through Get_Attribute_Single |
| TcpIpInterface.Globals.MultiCast | source/src/cip/ciptcpipinterface.cc:335-340 | returns the multicast configuration of the instance with the given id |
| TcpIpInterface.Globals.InterfaceConf | source/src/cip/ciptcpipinterface.cc:343-348 | returns the interface configuration of the instance with the given id |
| TcpIpInterface.Globals.Ttl | source/src/cip/ciptcpipinterface.cc:351-355 | returns the time-to-live of the instance with the given id |
| TcpIpInterface.Globals.IpAddress | source/src/cip/ciptcpipinterface.cc:358-362 | returns the (network-order) address of the instance with the given id |
| TcpIpInterface.Globals.ConfigureNetworkInterface | source/src/cip/ciptcpipinterface.cc:365-373 | configureNetworkInterface on the instance with that id; its TTL, status, capability and control are untouched |
| TcpIpInterface.Globals.ConfigureDomainName | source/src/cip/ciptcpipinterface.cc:376-381 | only the domain name of that instance's configuration changes; its other configuration, TTL, status, capability and control are untouched |
| TcpIpInterface.Globals.ConfigureHostName | source/src/cip/ciptcpipinterface.cc:384-395 | sets the one shared hostname, so attribute 6 of every instance reads the new name |
| UdpSocketPool.FindFrom | source/src/enet_encap/networkhandler.h:100-107 | the first entry at or after a start index bound to the address, or -1 when no entry from there on is |
| UdpSocketPool.Grab | source/src/enet_encap/networkhandler.h:118 | GrabSocket hands out no socket exactly when the address has none and createSocket failed, and then changes nothing; otherwise it hands out an entry bound to the address |
| UdpSocketPool.Release | source/src/enet_encap/networkhandler.h:119 | ReleaseSocket leaves the pool the same size or one entry shorter |
| UdpSocketPool.GrabWellformed | source/src/enet_encap/networkhandler.h:100-107 | grabbing never binds a second socket to an address, never reuses a live descriptor, and keeps every count at least 1 |
| UdpSocketPool.GrabCounts | source/src/enet_encap/networkhandler.h:100-118 | a successful grab adds exactly one holder to the requested address and none to any other |
| UdpSocketPool.GrabElsewhere | source/src/enet_encap/networkhandler.h:100-118 | a grab leaves the holder count of any other address unchanged |
| UdpSocketPool.GrabOpens | source/src/enet_encap/networkhandler.h:100-107 | a grab adds a descriptor only when the address had no socket and createSocket succeeded |
| UdpSocketPool.ReleaseWellformed | source/src/enet_encap/networkhandler.h:119 | releasing keeps the pool well formed |
| UdpSocketPool.ReleaseCounts | source/src/enet_encap/networkhandler.h:119 | a release removes exactly one holder from the released address; the descriptor is closed exactly when that was the last holder, and is then no longer in the pool |
| UdpSocketPool.GrabThenRelease | source/src/enet_encap/networkhandler.h:118-119 | a release undoes a successful grab |
| UdpSocketPool.TwoHolders | source/src/enet_encap/networkhandler.h:100-119 | two grabs of a new address share one socket with two holders. The first release keeps it open; the second closes it and restores the pool, after which the address has no socket to release |
| UdpSocketPool.Os.CreateSocket | source/src/enet_encap/networkhandler.h:124-131 | createSocket returns the system's answer, kSocketInvalid on failure; only a success opens a descriptor |
| UdpSocketPool.Os.CloseSocket | source/src/enet_encap/networkhandler.h:35-39 | closes an open descriptor and records the close |
| UdpSocketPool.UdpSocket.constructor | source/src/enet_encap/networkhandler.h:62-67 | records the address and descriptor, reference count 1 |
| UdpSocketPool.UdpSocket.Destroy | source/src/enet_encap/networkhandler.h:69-76 | closes the descriptor only when it is valid, then sets it to kSocketInvalid |
| UdpSocketPool.DestroyTwice | source/src/enet_encap/networkhandler.h:69-76 | running the destructor twice closes the descriptor exactly once |
| UdpSocketPool.UdpSocketMgr.constructor | source/src/enet_encap/networkhandler.h:116 | empty live list and bin, valid |
| UdpSocketPool.UdpSocketMgr.IndexOfAddr | source/src/enet_encap/networkhandler.h:100-107 | the linear search over m_sockets finds the socket bound to the address, as FindAddr specifies |
| UdpSocketPool.UdpSocketMgr.IndexOfSocket | source/src/enet_encap/networkhandler.h:119 | the position of the socket among the live sockets, or -1 exactly when it is not live |
| UdpSocketPool.UdpSocketMgr.Alloc | source/src/enet_encap/networkhandler.h:133-134 | alloc returns an object initialised to the address, the descriptor and count 1: the bin's last object when there is one (popped), a new one otherwise |
| UdpSocketPool.UdpSocketMgr.Free | source/src/enet_encap/networkhandler.h:136-139 | free appends to m_free and leaves m_sockets unchanged |
| UdpSocketPool.UdpSocketMgr.GrabSocket | source/src/enet_encap/networkhandler.h:118 | the pool becomes Grab of the old pool, and the result is the live object at the handed-out index, or null when nothing changed. A new socket is appended, taken from the bin when possible, and its descriptor is opened; a grab never closes a descriptor |
| UdpSocketPool.UdpSocketMgr.ReleaseSocket | source/src/enet_encap/networkhandler.h:119 | false with nothing changed for a socket that is not live. Otherwise the pool becomes Release of the old pool. On the last holder the socket leaves m_sockets (order kept), its descriptor is closed and the object goes to m_free |

The specification functions `Grab`, `Release`, `FindAddr` and `RefCount`
define the pool's behaviour. The lemmas next to them prove its properties,
and `GrabSocket` and `ReleaseSocket` are shown to implement those functions
while keeping `Valid()`.

## Left out

- `encap.h` contains declarations only. Nothing in it is part of the core.
- I/O is left out: `UdpSocket::Send`, `UdpSocket::Recv`, `SendUdpData`,
  `SocketAsync`, `strerrno`, `NetworkHandlerInitialize`, `ProcessOnce`,
  `Finish` and `g_current_usecs`.
- `CloseSocket`'s effect on the descriptor table is modelled, but a close
  that fails in the system is not.
- `UdpSocketMgr::GetAllSockets` and `UdpSocket::h()` are plain accessors of
  `m_sockets` and `m_socket` and are not modelled separately.
- The bodies of `GrabSocket`, `ReleaseSocket`, `createSocket` and `alloc`
  are not among the files modelled; `networkhandler.h` gives only their
  declarations and the manager's comment (one socket per address, shared by
  reference count). The following are this model's own assumptions, not
  commitments of that header:
  - a linear search by address;
  - reuse of the bin's last object;
  - an order-preserving erase;
  - `false` for a socket that is not in the pool.
- createSocket's system calls (socket, option setting, bind) are not
  modelled: `Os.CreateSocket` returns the system's answer, passed in as
  `granted`, and records an opened descriptor.
- UdpSocket.refCount: `int m_ref_count` is a C `int`; the model's count is
  unbounded, so overflow after 2^31 - 1 holders is not modelled.
- UdpSocket.refCount: C++ makes the count private to `UdpSocket` and
  accessible to its friend `UdpSocketMgr`. Dafny has no access control, so
  the model only ensures that no method outside the pool writes the count.
- The manager's two vectors (`m_sockets`, `m_free`) are static in C++. One `UdpSocketMgr` object
  stands for them. `m_sockets.reserve(10)` is a capacity hint with no
  observable effect.
- `inet_addr` is not modelled: `ConfigureNetworkInterface` takes the 32-bit
  words it would have produced.
- `CipAppPath::Serialize` and `put_STRING` are in files that are not part of
  this model. `AppPath` and `PutString` are concrete stand-ins, and the
  properties rely only on the path having even length and on the string
  being a 16-bit count followed by the characters.
- BufReader's behaviour on a short request is not in the files modelled. A
  read beyond the end is modelled as `SetterReply.ReaderOverrun`, and the
  assignments made before the failing read are kept.
- BufWriter's capacity is not modelled: every put is an unbounded append,
  so a reply too large for the response buffer (for example `get_all` with
  a long hostname or domain name) is not modelled.
- SetTtl: `Success` as the general status of an accepted TTL is the
  response's default, which `set_TTL` does not set itself.
- The standard attribute codec (`CipAttribute::GetAttrData` and the typed
  inserts) is taken to write DWORD as put32, UINT as put16, USINT as put8
  and STRING as put_STRING.
- Service routing other than Get_Attributes_All, Get_Attribute_Single and
  Set_Attribute_Single on the attributes listed is left out. So is the
  message-router response object beyond its written bytes and general
  status.
- The `#if 0` alternatives (the seven-bit class attribute mask, the checked
  `Instance` lookup, the direct static hostname assignment) are left out.
- `Shutdown` has an empty body and is left out.
- Globals.MultiCast, Globals.InterfaceConf: the C++ returns const
  references to the instance's records; the model returns copies, so
  seeing a later change through the returned reference is not modelled.
- TcpIpInterfaceClass.Instance: requires a valid, contiguous id, as the
  source does. An id out of range is undefined behaviour there and has no
  modelled error path.
- The initial zero contents of the two configuration records come from a
  header that is not part of this model. Here they are taken to be zero,
  and the instance constructor's contract states it.
- ByteBufs.PutString: its count is the length modulo 65536, and
  `InterfaceConfigurationRoundTrip` requires a domain name shorter than
  that.
