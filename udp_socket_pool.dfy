/** The UDP socket pool: one reference-counted socket per bound address,
    shared by every I/O connection that sends or receives on that address,
    and a recycling bin of socket objects whose descriptor has been closed.
    The pool is first specified as a value (a sequence of entries) and then
    implemented by classes whose methods are proved against that value. */
module UdpSocketPool {

  /** The descriptor value that stands for "no socket". */
  const kSocketInvalid: int := -1

  /** What a socket is bound to: an IPv4 address and a port. */
  datatype SockAddr = SockAddr(address: bv32, port: bv16)

  /** A live socket as a value: bound address, descriptor, reference count. */
  datatype Entry = Entry(addr: SockAddr, fd: int, refs: int)

  // ------------------------------------------------------ the pool as a value

  /** No two live sockets share an address or a descriptor, and every live
      socket has a valid descriptor and at least one holder. */
  predicate Wellformed(es: seq<Entry>)
  {
    && (forall i, j :: 0 <= i < j < |es| ==> es[i].addr != es[j].addr)
    && (forall i, j :: 0 <= i < j < |es| ==> es[i].fd != es[j].fd)
    && (forall k :: 0 <= k < |es| ==> es[k].refs >= 1 && es[k].fd >= 0)
  }

  /** What createSocket may answer: failure, or a descriptor no live socket uses. */
  predicate Grantable(es: seq<Entry>, granted: int)
  {
    granted == kSocketInvalid || (granted >= 0 && forall k :: 0 <= k < |es| ==> es[k].fd != granted)
  }

  /** The first entry at or after `from` bound to `addr`, or -1. */
  function FindFrom(es: seq<Entry>, addr: SockAddr, from: nat): (r: int)
    requires from <= |es|
    ensures r == -1 || from <= r < |es|
    ensures r >= 0 ==> es[r].addr == addr && forall k :: from <= k < r ==> es[k].addr != addr
    ensures r == -1 ==> forall k :: from <= k < |es| ==> es[k].addr != addr
    decreases |es| - from
  {
    if from == |es| then -1
    else if es[from].addr == addr then from
    else FindFrom(es, addr, from + 1)
  }

  /** The entry bound to `addr`, or -1 when the address has no live socket. */
  function FindAddr(es: seq<Entry>, addr: SockAddr): int
  {
    FindFrom(es, addr, 0)
  }

  /** In a well-formed pool an address is found exactly where it is bound. */
  lemma FindBound(es: seq<Entry>, addr: SockAddr, i: int)
    requires Wellformed(es) && 0 <= i < |es| && es[i].addr == addr
    ensures FindAddr(es, addr) == i
  {
  }

  /** How many holders the socket bound to `a` has (0 if there is none). */
  function RefCount(es: seq<Entry>, a: SockAddr): int
  {
    var i := FindAddr(es, a);
    if i < 0 then 0 else es[i].refs
  }

  /** The descriptors the pool holds open. */
  function Fds(es: seq<Entry>): set<int>
  {
    set k | 0 <= k < |es| :: es[k].fd
  }

  /** The result of GrabSocket, as a value: the new pool and the index of the
      socket handed out, -1 when none was. */
  datatype Grabbed = Grabbed(entries: seq<Entry>, index: int)

  /** GrabSocket: the socket already bound to `addr` gains a holder; otherwise
      `granted`, createSocket's answer, becomes a new socket with one holder,
      unless it is kSocketInvalid, in which case nothing changes. */
  function Grab(es: seq<Entry>, addr: SockAddr, granted: int): (r: Grabbed)
    ensures -1 <= r.index < |r.entries|
    ensures r.index == -1 <==> FindAddr(es, addr) == -1 && granted == kSocketInvalid
    ensures r.index == -1 ==> r.entries == es
    ensures r.index >= 0 ==> r.entries[r.index].addr == addr
  {
    var i := FindAddr(es, addr);
    if i >= 0 then Grabbed(es[i := es[i].(refs := es[i].refs + 1)], i)
    else if granted == kSocketInvalid then Grabbed(es, -1)
    else Grabbed(es + [Entry(addr, granted, 1)], |es|)
  }

  /** The result of ReleaseSocket on a live socket, as a value: the new pool
      and the descriptor closed, kSocketInvalid when none was. */
  datatype Released = Released(entries: seq<Entry>, closed: int)

  /** ReleaseSocket on entry i: one holder fewer; the last release removes the
      entry, keeping the order of the others, and closes its descriptor. */
  function Release(es: seq<Entry>, i: int): (r: Released)
    requires 0 <= i < |es|
    ensures |r.entries| == |es| || |r.entries| == |es| - 1
  {
    if es[i].refs > 1 then Released(es[i := es[i].(refs := es[i].refs - 1)], kSocketInvalid)
    else Released(es[..i] + es[i + 1..], es[i].fd)
  }

  // ------------------------------------------------------ properties of the value

  /** Changing one entry's count to a positive one keeps the pool well formed. */
  lemma RecountWellformed(es: seq<Entry>, i: int, n: int)
    requires Wellformed(es) && 0 <= i < |es| && n >= 1
    ensures Wellformed(es[i := es[i].(refs := n)])
  {
    var r := es[i := es[i].(refs := n)];
    assert forall k :: 0 <= k < |es| ==> r[k].addr == es[k].addr && r[k].fd == es[k].fd;
  }

  /** Appending an entry whose address and descriptor are new keeps the pool well formed. */
  lemma AppendWellformed(es: seq<Entry>, e: Entry)
    requires Wellformed(es) && e.refs >= 1 && e.fd >= 0
    requires forall k :: 0 <= k < |es| ==> es[k].addr != e.addr && es[k].fd != e.fd
    ensures Wellformed(es + [e])
  {
    var r := es + [e];
    assert forall k :: 0 <= k < |es| ==> r[k] == es[k];
  }

  /** Removing an entry keeps the pool well formed. */
  lemma RemoveWellformed(es: seq<Entry>, i: int)
    requires Wellformed(es) && 0 <= i < |es|
    ensures Wellformed(es[..i] + es[i + 1..])
  {
    var r := es[..i] + es[i + 1..];
    assert forall k :: 0 <= k < i ==> r[k] == es[k];
    assert forall k :: i <= k < |r| ==> r[k] == es[k + 1];
  }

  /** Grabbing keeps the pool well formed: in particular it never binds a
      second socket to an address that already has one. */
  lemma {:induction false} GrabWellformed(es: seq<Entry>, addr: SockAddr, granted: int)
    requires Wellformed(es) && Grantable(es, granted)
    ensures Wellformed(Grab(es, addr, granted).entries)
  {
    var i := FindAddr(es, addr);
    if i >= 0 {
      RecountWellformed(es, i, es[i].refs + 1);
    } else if granted != kSocketInvalid {
      AppendWellformed(es, Entry(addr, granted, 1));
    }
  }

  /** A grab that succeeds adds exactly one holder to `addr` and none to any
      other address; one that fails changes nothing. */
  lemma {:induction false} GrabCounts(es: seq<Entry>, addr: SockAddr, granted: int, a: SockAddr)
    requires Wellformed(es) && Grantable(es, granted)
    ensures var g := Grab(es, addr, granted);
            g.index >= 0 ==> RefCount(g.entries, a) == RefCount(es, a) + (if a == addr then 1 else 0)
  {
    var g := Grab(es, addr, granted);
    if g.index >= 0 {
      GrabWellformed(es, addr, granted);
      if a == addr {
        FindBound(g.entries, a, g.index);
      } else {
        GrabElsewhere(es, addr, granted, a);
      }
    }
  }

  lemma {:induction false} GrabElsewhere(es: seq<Entry>, addr: SockAddr, granted: int, a: SockAddr)
    requires Wellformed(es) && Wellformed(Grab(es, addr, granted).entries) && a != addr
    requires Grab(es, addr, granted).index >= 0
    ensures RefCount(Grab(es, addr, granted).entries, a) == RefCount(es, a)
  {
    var g := Grab(es, addr, granted);
    var j := FindAddr(es, a);
    assert |es| <= |g.entries| && forall k :: 0 <= k < |es| ==> g.entries[k].addr == es[k].addr;
    if j >= 0 {
      FindBound(g.entries, a, j);
    } else {
      var r := FindAddr(g.entries, a);
      assert r == -1 || r == g.index || r < |es|;
    }
  }

  /** A grab opens a descriptor only when the address had no socket. */
  lemma {:induction false} GrabOpens(es: seq<Entry>, addr: SockAddr, granted: int)
    requires Wellformed(es) && Grantable(es, granted)
    ensures var g := Grab(es, addr, granted);
            Fds(g.entries) == if FindAddr(es, addr) == -1 && granted != kSocketInvalid
                              then Fds(es) + {granted} else Fds(es)
  {
    var g := Grab(es, addr, granted);
    var i := FindAddr(es, addr);
    if i >= 0 {
      assert forall k :: 0 <= k < |es| ==> g.entries[k].fd == es[k].fd;
    } else if granted != kSocketInvalid {
      assert forall k :: 0 <= k < |es| ==> g.entries[k] == es[k];
      assert g.entries[|es|].fd == granted;
    }
  }

  /** Releasing keeps the pool well formed. */
  lemma {:induction false} ReleaseWellformed(es: seq<Entry>, i: int)
    requires Wellformed(es) && 0 <= i < |es|
    ensures Wellformed(Release(es, i).entries)
  {
    if es[i].refs > 1 {
      RecountWellformed(es, i, es[i].refs - 1);
    } else {
      RemoveWellformed(es, i);
    }
  }

  /** A release removes exactly one holder from the released address; the
      descriptor is closed exactly when that was the last holder. */
  lemma {:induction false} ReleaseCounts(es: seq<Entry>, i: int, a: SockAddr)
    requires Wellformed(es) && 0 <= i < |es|
    ensures var r := Release(es, i);
            && RefCount(r.entries, a) == RefCount(es, a) - (if a == es[i].addr then 1 else 0)
            && (r.closed != kSocketInvalid <==> RefCount(es, es[i].addr) == 1)
            && (r.closed != kSocketInvalid ==> r.closed == es[i].fd && r.closed !in Fds(r.entries))
  {
    var r := Release(es, i);
    ReleaseWellformed(es, i);
    FindBound(es, es[i].addr, i);
    var j := FindAddr(es, a);
    if es[i].refs > 1 {
      if j >= 0 {
        FindBound(r.entries, a, j);
      }
    } else {
      assert forall k :: 0 <= k < i ==> r.entries[k] == es[k];
      assert forall k :: i <= k < |r.entries| ==> r.entries[k] == es[k + 1];
      if j >= 0 && j != i {
        var j' := if j < i then j else j - 1;
        FindBound(r.entries, a, j');
      }
    }
  }

  /** Release undoes a successful grab. */
  lemma {:induction false} GrabThenRelease(es: seq<Entry>, addr: SockAddr, granted: int)
    requires Wellformed(es) && Grantable(es, granted)
    ensures var g := Grab(es, addr, granted);
            g.index >= 0 ==> Release(g.entries, g.index).entries == es
  {
    var g := Grab(es, addr, granted);
    if g.index >= 0 && FindAddr(es, addr) == -1 {
      assert g.entries[..g.index] == es;
    }
  }

  /** Two grabs of a fresh address share one socket with two holders; the
      first release keeps it open, the second closes it, and a third finds
      no socket to release. */
  lemma {:induction false} TwoHolders(es: seq<Entry>, addr: SockAddr, granted: int)
    requires Wellformed(es) && granted >= 0 && Grantable(es, granted) && FindAddr(es, addr) == -1
    ensures var g1 := Grab(es, addr, granted);
            var g2 := Grab(g1.entries, addr, granted);
            var r1 := Release(g2.entries, g2.index);
            var r2 := Release(r1.entries, g2.index);
            && g2.index == g1.index == |es|
            && |g2.entries| == |es| + 1
            && RefCount(g2.entries, addr) == 2
            && r1.closed == kSocketInvalid
            && g2.index < |r1.entries|
            && r2.closed == granted
            && r2.entries == es
            && FindAddr(r2.entries, addr) == -1
  {
    var g1 := Grab(es, addr, granted);
    GrabWellformed(es, addr, granted);
    FindBound(g1.entries, addr, |es|);
    var g2 := Grab(g1.entries, addr, granted);
    FindBound(g2.entries, addr, |es|);
    var r1 := Release(g2.entries, g2.index);
    assert r1.entries == g1.entries;
    GrabThenRelease(es, addr, granted);
  }

  // ------------------------------------------------------ the operating system

  /** The descriptors the operating system holds open for the pool, and every
      close so far, in order. */
  class Os {
    var open: set<int>
    var closed: seq<int>

    constructor()
      ensures open == {} && closed == []
    {
      open := {};
      closed := [];
    }

    /** createSocket: socket() and bind() for `addr`.  The system's answer is
        the parameter `granted`: kSocketInvalid on failure, else a descriptor
        it does not have open. */
    method CreateSocket(addr: SockAddr, granted: int) returns (fd: int)
      requires granted == kSocketInvalid || (granted >= 0 && granted !in open)
      modifies this`open
      ensures fd == granted
      ensures open == if fd == kSocketInvalid then old(open) else old(open) + {fd}
    {
      fd := granted;
      if fd != kSocketInvalid {
        open := open + {fd};
      }
    }

    /** CloseSocket: an open descriptor is closed; closing one that is not
        open is what a caller may not do. */
    method CloseSocket(fd: int)
      requires fd in open
      modifies this
      ensures open == old(open) - {fd} && closed == old(closed) + [fd]
    {
      open := open - {fd};
      closed := closed + [fd];
    }
  }

  // ------------------------------------------------------ the socket object

  /** UdpSocket: a descriptor, the address it is bound to and its holders. */
  class UdpSocket {
    var sockaddr: SockAddr
    var socket: int
    var refCount: int

    /** A new socket records its address and descriptor and has one holder. */
    constructor(addr: SockAddr, fd: int)
      ensures sockaddr == addr && socket == fd && refCount == 1
    {
      sockaddr := addr;
      socket := fd;
      refCount := 1;
    }

    /** ~UdpSocket: closes the descriptor if there is one, then forgets it, so
        a second run closes nothing. */
    method Destroy(os: Os)
      requires socket != kSocketInvalid ==> socket in os.open
      modifies this`socket, os
      ensures socket == kSocketInvalid
      ensures old(socket) == kSocketInvalid ==> unchanged(os)
      ensures old(socket) != kSocketInvalid ==>
                os.open == old(os.open) - {old(socket)} && os.closed == old(os.closed) + [old(socket)]
    {
      if socket != kSocketInvalid {
        os.CloseSocket(socket);
        socket := kSocketInvalid;
      }
    }
  }

  /** A socket object as a pool entry. */
  ghost function EntryOf(s: UdpSocket): Entry
    reads s
  {
    Entry(s.sockaddr, s.socket, s.refCount)
  }

  /** Where `s` is in `ss`, or -1. */
  ghost function PositionOf(ss: seq<UdpSocket>, s: UdpSocket): (i: int)
    ensures -1 <= i < |ss|
    ensures i >= 0 ==> ss[i] == s
    ensures i == -1 <==> s !in ss
  {
    if s !in ss then -1 else var i :| 0 <= i < |ss| && ss[i] == s; i
  }

  /** Running the destructor twice closes the descriptor once. */
  method DestroyTwice(s: UdpSocket, os: Os)
    requires s.socket >= 0 && s.socket in os.open
    modifies s`socket, os
    ensures s.socket == kSocketInvalid
    ensures os.closed == old(os.closed) + [old(s.socket)]
  {
    s.Destroy(os);
    s.Destroy(os);
  }

  // ------------------------------------------------------ the manager

  /** UdpSocketMgr: the live sockets (m_sockets) and the recycling bin
      (m_free).  Both are static in the program; one manager object stands
      for them, together with the operating system it asks for descriptors. */
  class UdpSocketMgr {
    var sockets: seq<UdpSocket>
    var free: seq<UdpSocket>
    const os: Os
    /** The live sockets as a pool value. */
    ghost var pool: seq<Entry>

    /** `pool` is what the live socket objects hold, and it is well formed;
        their descriptors are open; the bin holds distinct objects whose
        descriptors are closed. */
    ghost predicate Valid()
      reads this, os, sockets, free
    {
      && |pool| == |sockets|
      && (forall k :: 0 <= k < |sockets| ==> EntryOf(sockets[k]) == pool[k])
      && Wellformed(pool)
      && (forall k :: 0 <= k < |pool| ==> pool[k].fd in os.open)
      && (forall k :: 0 <= k < |free| ==> free[k].socket == kSocketInvalid)
      && (forall i, j :: 0 <= i < j < |free| ==> free[i] != free[j])
    }

    constructor(os: Os)
      ensures this.os == os && sockets == [] && free == [] && pool == []
      ensures Valid()
    {
      this.os := os;
      sockets := [];
      free := [];
      pool := [];
    }

    /** The live socket bound to `addr`, by linear search; -1 if none. */
    method IndexOfAddr(addr: SockAddr) returns (i: int)
      requires Valid()
      ensures i == FindAddr(pool, addr)
    {
      i := 0;
      while i < |sockets|
        invariant 0 <= i <= |sockets|
        invariant FindFrom(pool, addr, i) == FindAddr(pool, addr)
      {
        if sockets[i].sockaddr == addr {
          assert pool[i] == EntryOf(sockets[i]);
          return;
        }
        i := i + 1;
      }
      i := -1;
    }
    /** Where `s` is among the live sockets, by linear search; -1 if it is not
        one of them. */
    method IndexOfSocket(s: UdpSocket) returns (i: int)
      ensures -1 <= i < |sockets|
      ensures i >= 0 ==> sockets[i] == s
      ensures i == -1 <==> s !in sockets
    {
      i := 0;
      while i < |sockets|
        invariant 0 <= i <= |sockets|
        invariant s !in sockets[..i]
      {
        if sockets[i] == s {
          return;
        }
        i := i + 1;
      }
      assert sockets[..i] == sockets;
      i := -1;
    }

    /** alloc: a socket object for `addr` and `fd` with one holder, the last
        one of the bin when the bin is not empty, else a new one. */
    method Alloc(addr: SockAddr, fd: int) returns (s: UdpSocket)
      modifies this`free, free[if free == [] then 0 else |free| - 1..]
      ensures s.sockaddr == addr && s.socket == fd && s.refCount == 1
      ensures old(free) == [] ==> fresh(s) && free == []
      ensures old(free) != [] ==> s == old(free)[|old(free)| - 1] && free == old(free)[..|old(free)| - 1]
    {
      if free == [] {
        s := new UdpSocket(addr, fd);
      } else {
        s := free[|free| - 1];
        s.sockaddr := addr;
        s.socket := fd;
        s.refCount := 1;
        free := free[..|free| - 1];
      }
    }

    /** free: puts `s` in the bin; the live sockets are not touched. */
    method Free(s: UdpSocket)
      modifies this`free
      ensures free == old(free) + [s]
      ensures sockets == old(sockets)
    {
      free := free + [s];
    }
  
    /** One more holder for live socket i. */
    method AddHolder(i: int)
      requires Valid() && 0 <= i < |sockets|
      modifies this, sockets[i]
      ensures Valid()
      ensures sockets == old(sockets) && free == old(free)
      ensures pool == old(pool[i := pool[i].(refs := pool[i].refs + 1)])
    {
      var s := sockets[i];
      s.refCount := s.refCount + 1;
      RecountWellformed(pool, i, pool[i].refs + 1);
      pool := pool[i := pool[i].(refs := pool[i].refs + 1)];
    }

    /** One holder fewer for live socket i, which has more than one. */
    method DropHolder(i: int)
      requires Valid() && 0 <= i < |sockets| && sockets[i].refCount > 1
      modifies this, sockets[i]
      ensures Valid()
      ensures sockets == old(sockets) && free == old(free)
      ensures pool == old(pool[i := pool[i].(refs := pool[i].refs - 1)])
    {
      var s := sockets[i];
      s.refCount := s.refCount - 1;
      RecountWellformed(pool, i, pool[i].refs - 1);
      pool := pool[i := pool[i].(refs := pool[i].refs - 1)];
    }

    /** A new live socket for `addr` on the open descriptor fd. */
    method AddSocket(addr: SockAddr, fd: int) returns (s: UdpSocket)
      requires Valid() && FindAddr(pool, addr) == -1
      requires fd >= 0 && fd in os.open && forall k :: 0 <= k < |pool| ==> pool[k].fd != fd
      modifies this, free
      ensures Valid()
      ensures pool == old(pool) + [Entry(addr, fd, 1)]
      ensures sockets == old(sockets) + [s]
      ensures old(free) == [] ==> fresh(s) && free == []
      ensures old(free) != [] ==> s == old(free)[|old(free)| - 1] && free == old(free)[..|old(free)| - 1]
    {
      assert forall k, j :: 0 <= k < |sockets| && 0 <= j < |free| ==> sockets[k] != free[j];
      s := Alloc(addr, fd);
      sockets := sockets + [s];
      AppendWellformed(pool, Entry(addr, fd, 1));
      pool := pool + [Entry(addr, fd, 1)];
    }

    /** Live socket i leaves the live sockets and the pool, which stays valid. */
    method Unlink(i: int) returns (s: UdpSocket)
      requires Valid() && 0 <= i < |sockets|
      modifies this
      ensures Valid()
      ensures s == old(sockets[i]) && s.socket == old(pool[i].fd)
      ensures pool == old(pool[..i] + pool[i + 1..])
      ensures sockets == old(sockets[..i] + sockets[i + 1..])
      ensures free == old(free)
      ensures s !in sockets && s !in free
      ensures forall k :: 0 <= k < |pool| ==> pool[k].fd != s.socket
    {
      s := sockets[i];
      assert pool[i] == EntryOf(s);
      assert forall k :: 0 <= k < |sockets| && k != i ==> sockets[k] != s;
      assert s !in free;
      RemoveWellformed(pool, i);
      sockets := sockets[..i] + sockets[i + 1..];
      pool := pool[..i] + pool[i + 1..];
    }

    /** Live socket i, with one holder left, leaves the live sockets, has its
        descriptor closed and goes to the bin. */
    method Retire(i: int)
      requires Valid() && 0 <= i < |sockets| && sockets[i].refCount == 1
      modifies this, os, sockets[i]
      ensures Valid()
      ensures pool == old(pool[..i] + pool[i + 1..])
      ensures sockets == old(sockets[..i] + sockets[i + 1..])
      ensures free == old(free) + [old(sockets[i])]
      ensures old(sockets[i]).socket == kSocketInvalid
      ensures os.open == old(os.open) - {old(pool[i].fd)}
      ensures os.closed == old(os.closed) + [old(pool[i].fd)]
    {
      assert pool[i] == EntryOf(sockets[i]);
      var s := Unlink(i);
      s.refCount := 0;
      s.Destroy(os);
      Free(s);
    }

    /** GrabSocket: the socket already bound to `addr` gets another holder;
        otherwise createSocket is asked (its answer is `granted`) and, when
        it succeeds, a socket object from alloc joins the live sockets.  The
        result is null when createSocket failed, and then nothing changed. */
    method GrabSocket(addr: SockAddr, granted: int) returns (s: UdpSocket?)
      requires Valid()
      requires granted == kSocketInvalid || (granted >= 0 && granted !in os.open)
      modifies this, os, sockets, free
      ensures Valid()
      ensures var g := Grab(old(pool), addr, granted);
              && pool == g.entries
              && (s == null <==> g.index == -1)
              && (s != null ==> g.index < |sockets| && sockets[g.index] == s)
      ensures s == null || FindAddr(old(pool), addr) >= 0 ==>
                sockets == old(sockets) && free == old(free) && unchanged(os)
      ensures s != null && FindAddr(old(pool), addr) == -1 ==>
                && sockets == old(sockets) + [s]
                && os.open == old(os.open) + {granted}
                && os.closed == old(os.closed)
                && (old(free) == [] ==> fresh(s) && free == [])
                && (old(free) != [] ==> s == old(free)[|old(free)| - 1] && free == old(free)[..|old(free)| - 1])
    {
      var i := IndexOfAddr(addr);
      if i >= 0 {
        s := sockets[i];
        AddHolder(i);
        return;
      }
      var fd := os.CreateSocket(addr, granted);
      if fd == kSocketInvalid {
        s := null;
        return;
      }
      s := AddSocket(addr, fd);
    }

    /** ReleaseSocket: false, and nothing changes, for a socket that is not
        live.  Otherwise the socket loses a holder; after the last one it
        leaves the live sockets (the others keep their order), its
        descriptor is closed and the object goes to the bin. */
    method ReleaseSocket(s: UdpSocket) returns (ok: bool)
      requires Valid()
      modifies this, os, sockets
      ensures Valid()
      ensures ok <==> s in old(sockets)
      ensures !ok ==> sockets == old(sockets) && free == old(free) && unchanged(os) && unchanged(sockets)
      ensures ok ==> var i := PositionOf(old(sockets), s);
                     var r := Release(old(pool), i);
                     && pool == r.entries
                     && (r.closed == kSocketInvalid ==> sockets == old(sockets) && free == old(free) && unchanged(os))
                     && (r.closed != kSocketInvalid ==>
                           && sockets == old(sockets[..i] + sockets[i + 1..])
                           && free == old(free) + [s]
                           && s.socket == kSocketInvalid
                           && os.open == old(os.open) - {r.closed}
                           && os.closed == old(os.closed) + [r.closed])
    {
      var i := IndexOfSocket(s);
      if i < 0 {
        return false;
      }
      assert PositionOf(sockets, s) == i;
      if s.refCount > 1 {
        DropHolder(i);
      } else {
        Retire(i);
      }
      ok := true;
    }
  }
}
