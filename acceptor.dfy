/** The connection acceptor of the sound daemon (get_new_clients in
    clients.c): drains the listening socket's backlog in one call and links
    one initialised record per admitted connection at the head of the
    registry. The system calls are inputs: each accept() call yields a
    Pending entry, which also carries the outcome of the access check, of
    the allocation and of switching the socket to blocking mode. */
module Acceptor {
  import opened Clients

  /** One accept() call: the descriptor it returns (negative when nothing is
      pending), the peer address, whether access control admits the peer,
      whether malloc succeeds and whether ioctl(FIONBIO) succeeds. */
  datatype Pending = Pending(fd: int, peer: PeerAddress, allowed: bool, mallocOk: bool, ioctlOk: bool)

  /** What a drain leaves: the return value of get_new_clients, the registry
      and the record of closed descriptors. */
  datatype Drained = Drained(result: int, clients: seq<Client>, closed: seq<int>)

  /** A handle that no linked record uses: the address malloc hands out. */
  function FreshId(s: seq<Client>): (h: Handle)
    ensures forall i :: 0 <= i < |s| ==> s[i].id < h
  {
    if s == [] then 0
    else
      var m := FreshId(s[1..]);
      if s[0].id < m then m else s[0].id + 1
  }

  /** The record get_new_clients fills in for an admitted connection. */
  function NewClient(id: Handle, p: Pending): (c: Client)
    ensures c.id == id && c.fd == p.fd && c.source == p.peer
    ensures p.fd >= 0 ==> Initialised(c)
  {
    Client(id, p.fd, NeedsReqData, ProtoConnect, 0, p.peer)
  }

  /** A record as the acceptor initialises it. */
  predicate Initialised(c: Client)
  {
    c.state == NeedsReqData && c.request == ProtoConnect && c.protoDataLength == 0 && c.fd >= 0
  }

  /** The do ... while (fd > 0) loop, on the accept() results still to come;
      a script that runs out reads as accept() failing (nothing pending). */
  function Drain(rest: seq<Pending>, clients: seq<Client>, closed: seq<int>): (d: Drained)
    ensures d.result == 0 || d.result == -1
    decreases |rest|
  {
    if rest == [] || rest[0].fd < 0 then Drained(0, clients, closed)
    else
      var p := rest[0];
      if !p.allowed then
        // refused by access control: closed, then the loop test
        if p.fd > 0 then Drain(rest[1..], clients, closed + [p.fd]) else Drained(0, clients, closed + [p.fd])
      else if !p.mallocOk || !p.ioctlOk then
        Drained(-1, clients, closed + [p.fd])
      else
        var cs := [NewClient(FreshId(clients), p)] + clients;
        if p.fd > 0 then Drain(rest[1..], cs, closed) else Drained(0, cs, closed)
  }

  // An independent description of a drain, by the fate of each accept() result.

  /** The connection is linked into the registry. */
  predicate Admitted(p: Pending)
  {
    p.fd >= 0 && p.allowed && p.mallocOk && p.ioctlOk
  }

  /** The connection is accepted and then closed by the acceptor. */
  predicate Refused(p: Pending)
  {
    p.fd >= 0 && !Admitted(p)
  }

  /** The connection is accepted, but its allocation or its blocking-mode switch fails. */
  predicate Fails(p: Pending)
  {
    p.fd >= 0 && p.allowed && !(p.mallocOk && p.ioctlOk)
  }

  /** After this accept() result the acceptor calls accept() again. */
  predicate Continues(p: Pending)
  {
    p.fd > 0 && (!p.allowed || (p.mallocOk && p.ioctlOk))
  }

  /** The accept() results one drain consumes: all of them up to and
      including the first after which draining stops. */
  function Taken(rest: seq<Pending>): (t: seq<Pending>)
    ensures |t| <= |rest| && t == rest[..|t|]
    ensures rest != [] ==> |t| > 0
    ensures forall j :: 0 <= j < |t| - 1 ==> Continues(t[j])
    ensures |t| < |rest| ==> !Continues(t[|t| - 1])
  {
    if rest == [] then []
    else if Continues(rest[0]) then [rest[0]] + Taken(rest[1..])
    else [rest[0]]
  }

  /** The descriptor and peer of each admitted connection, in accept order. */
  function Admissions(ps: seq<Pending>): seq<(int, PeerAddress)>
  {
    if ps == [] then []
    else (if Admitted(ps[0]) then [(ps[0].fd, ps[0].peer)] else []) + Admissions(ps[1..])
  }

  /** The descriptors the acceptor closes, in accept order. */
  function RefusedFds(ps: seq<Pending>): seq<int>
  {
    if ps == [] then []
    else (if Refused(ps[0]) then [ps[0].fd] else []) + RefusedFds(ps[1..])
  }

  /** The descriptor and peer of each record, in list order. */
  function Connections(s: seq<Client>): (r: seq<(int, PeerAddress)>)
    ensures |r| == |s|
    ensures forall i :: 0 <= i < |s| ==> r[i] == (s[i].fd, s[i].source)
  {
    if s == [] then [] else [(s[0].fd, s[0].source)] + Connections(s[1..])
  }

  function Reverse<T>(s: seq<T>): (r: seq<T>)
    ensures |r| == |s|
  {
    if s == [] then [] else Reverse(s[1..]) + [s[0]]
  }

  /** get_new_clients returns -1 exactly when the last connection it accepted
      could not be allocated or switched to blocking mode, and 0 otherwise
      (accept() reported nothing pending, or returned descriptor 0). */
  lemma {:induction false} DrainResult(rest: seq<Pending>, clients: seq<Client>, closed: seq<int>)
    ensures var d := Drain(rest, clients, closed);
            var t := Taken(rest);
            (d.result == -1 <==> t != [] && Fails(t[|t| - 1])) &&
            (d.result == 0 <==> !(t != [] && Fails(t[|t| - 1])))
  {
    if rest != [] && Continues(rest[0]) {
      DrainResult(rest[1..], if rest[0].allowed then [NewClient(FreshId(clients), rest[0])] + clients else clients,
                  if rest[0].allowed then closed else closed + [rest[0].fd]);
    }
  }

  /** Clients linked before the call stay linked, in order, behind the new
      ones; descriptors closed before stay recorded. */
  lemma {:induction false} DrainKeepsEarlier(rest: seq<Pending>, clients: seq<Client>, closed: seq<int>)
    ensures var d := Drain(rest, clients, closed);
            |d.clients| >= |clients| && d.clients[|d.clients| - |clients|..] == clients &&
            |d.closed| >= |closed| && d.closed[..|closed|] == closed
  {
    if rest != [] && Continues(rest[0]) {
      var p := rest[0];
      if p.allowed {
        var cs := [NewClient(FreshId(clients), p)] + clients;
        DrainKeepsEarlier(rest[1..], cs, closed);
        var d := Drain(rest[1..], cs, closed);
        assert d.clients[|d.clients| - |clients|..] == d.clients[|d.clients| - |cs|..][1..];
      } else {
        DrainKeepsEarlier(rest[1..], clients, closed + [p.fd]);
        var d := Drain(rest[1..], clients, closed + [p.fd]);
        assert d.closed[..|closed|] == d.closed[..|closed| + 1][..|closed|];
      }
    }
  }

  lemma ConnectionsCons(c: Client, s: seq<Client>)
    ensures Connections([c] + s) == [(c.fd, c.source)] + Connections(s)
  {
    assert ([c] + s)[1..] == s;
  }

  /** Every admitted connection is head-inserted, so the records added by one
      call list the admitted connections most recent first, in front of the
      records that were there before. */
  lemma {:induction false} DrainAdmits(rest: seq<Pending>, clients: seq<Client>, closed: seq<int>)
    ensures Connections(Drain(rest, clients, closed).clients) == Reverse(Admissions(Taken(rest))) + Connections(clients)
  {
    if rest != [] {
      var p := rest[0];
      if Continues(p) {
        var cs := if p.allowed then [NewClient(FreshId(clients), p)] + clients else clients;
        var cl := if p.allowed then closed else closed + [p.fd];
        DrainAdmits(rest[1..], cs, cl);
        DrainAdmitsNext(rest, clients, closed, cs, cl);
      } else {
        DrainAdmitsLast(rest, clients, closed);
      }
    }
  }

  /** The step of DrainAdmits for an admitted connection after which the drain goes on. */
  lemma DrainAdmitsNext(rest: seq<Pending>, clients: seq<Client>, closed: seq<int>, cs: seq<Client>, cl: seq<int>)
    requires rest != [] && Continues(rest[0])
    requires cs == if rest[0].allowed then [NewClient(FreshId(clients), rest[0])] + clients else clients
    requires cl == if rest[0].allowed then closed else closed + [rest[0].fd]
    requires Connections(Drain(rest[1..], cs, cl).clients) == Reverse(Admissions(Taken(rest[1..]))) + Connections(cs)
    ensures Connections(Drain(rest, clients, closed).clients) == Reverse(Admissions(Taken(rest))) + Connections(clients)
  {
    var p := rest[0];
    var tail := Taken(rest[1..]);
    assert Taken(rest) == [p] + tail;
    assert ([p] + tail)[1..] == tail;
    if p.allowed {
      AdmitStep(p, tail, cs[0], clients);
    } else {
      assert Admissions([p] + tail) == Admissions(tail);
    }
  }

  /** Linking an admitted connection at the head puts it last in the reversed admissions. */
  lemma AdmitStep(p: Pending, tail: seq<Pending>, c: Client, clients: seq<Client>)
    requires Admitted(p) && c.fd == p.fd && c.source == p.peer
    ensures Reverse(Admissions(tail)) + Connections([c] + clients) == Reverse(Admissions([p] + tail)) + Connections(clients)
  {
    var x := (p.fd, p.peer);
    var a := Admissions(tail);
    AdmissionsCons(p, tail);
    ConnectionsCons(c, clients);
    ReverseCons(x, a);
    AppendRegroups(Reverse(a), x, Connections(clients));
  }

  /** Moving one element across a concatenation. */
  lemma AppendRegroups<T>(r: seq<T>, x: T, t: seq<T>)
    ensures (r + [x]) + t == r + ([x] + t)
  {
  }

  /** An admitted connection in front adds its descriptor and peer in front. */
  lemma AdmissionsCons(p: Pending, tail: seq<Pending>)
    requires Admitted(p)
    ensures Admissions([p] + tail) == [(p.fd, p.peer)] + Admissions(tail)
  {
    assert ([p] + tail)[1..] == tail;
  }

  /** The step of DrainAdmits for the accept() result that ends the drain. */
  lemma DrainAdmitsLast(rest: seq<Pending>, clients: seq<Client>, closed: seq<int>)
    requires rest != [] && !Continues(rest[0])
    ensures Connections(Drain(rest, clients, closed).clients) == Reverse(Admissions(Taken(rest))) + Connections(clients)
  {
    var p := rest[0];
    assert Taken(rest) == [p];
    if Admitted(p) {
      var c := NewClient(FreshId(clients), p);
      assert Drain(rest, clients, closed).clients == [c] + clients;
      assert Admissions([p]) == [(p.fd, p.peer)] + Admissions([]);
      ConnectionsCons(c, clients);
    } else {
      assert Drain(rest, clients, closed).clients == clients;
      assert Admissions([p]) == [] + Admissions([]);
    }
  }

  /** Reversing moves the head to the end. */
  lemma ReverseCons<T>(x: T, s: seq<T>)
    ensures Reverse([x] + s) == Reverse(s) + [x]
  {
    assert ([x] + s)[1..] == s;
  }

  /** The descriptors closed by one call are exactly those of the refused,
      unallocatable or non-blocking-capable connections, in accept order. */
  lemma {:induction false} DrainCloses(rest: seq<Pending>, clients: seq<Client>, closed: seq<int>)
    ensures Drain(rest, clients, closed).closed == closed + RefusedFds(Taken(rest))
  {
    if rest == [] {
    } else {
      var p := rest[0];
      var t := Taken(rest);
      if Continues(p) {
        assert t[1..] == Taken(rest[1..]);
        if p.allowed {
          DrainCloses(rest[1..], [NewClient(FreshId(clients), p)] + clients, closed);
        } else {
          DrainCloses(rest[1..], clients, closed + [p.fd]);
        }
      } else {
        assert t == [p];
        assert RefusedFds(t) == (if Refused(p) then [p.fd] else []) + RefusedFds([]);
      }
    }
  }

  /** Every record a call adds is initialised (needs request data, connect
      request, no pending header bytes, a valid descriptor), and the
      registry's identities stay unique. */
  lemma {:induction false} DrainInitialises(rest: seq<Pending>, clients: seq<Client>, closed: seq<int>)
    requires UniqueIds(clients)
    ensures var d := Drain(rest, clients, closed);
            UniqueIds(d.clients) && |d.clients| >= |clients| &&
            forall k :: 0 <= k < |d.clients| - |clients| ==> Initialised(d.clients[k])
  {
    if rest != [] && rest[0].fd >= 0 {
      var p := rest[0];
      if p.allowed && p.mallocOk && p.ioctlOk {
        var c := NewClient(FreshId(clients), p);
        var cs := [c] + clients;
        assert UniqueIds(cs) by {
          forall i, j | 0 <= i < j < |cs| ensures cs[i].id != cs[j].id {
            if i == 0 { assert cs[j] == clients[j - 1]; }
          }
        }
        if p.fd > 0 {
          DrainInitialises(rest[1..], cs, closed);
          DrainKeepsEarlier(rest[1..], cs, closed);
          var d := Drain(rest[1..], cs, closed);
          assert d.clients[|d.clients| - |cs|] == c;
        }
      } else if !p.allowed && p.fd > 0 {
        DrainInitialises(rest[1..], clients, closed + [p.fd]);
      }
    }
  }

  /** accept() never returns a descriptor that is still open: neither that of
      a linked record nor one admitted earlier in the same drain. */
  predicate FreshDescriptors(rest: seq<Pending>, clients: seq<Client>)
  {
    && (forall i :: 0 <= i < |rest| && Admitted(rest[i]) ==> rest[i].fd !in Fds(clients))
    && (forall i, j :: 0 <= j < i < |rest| && Admitted(rest[i]) && Admitted(rest[j]) ==> rest[i].fd != rest[j].fd)
  }

  /** With descriptors as the system hands them out, a drain never links two
      records with the same descriptor. */
  lemma {:induction false} DrainKeepsFdsUnique(rest: seq<Pending>, clients: seq<Client>, closed: seq<int>)
    requires UniqueFds(clients) && FreshDescriptors(rest, clients)
    ensures UniqueFds(Drain(rest, clients, closed).clients)
  {
    if rest != [] && rest[0].fd >= 0 {
      var p := rest[0];
      if p.allowed && p.mallocOk && p.ioctlOk {
        var c := NewClient(FreshId(clients), p);
        var cs := [c] + clients;
        assert Fds(cs) == [c.fd] + Fds(clients);
        assert UniqueFds(cs) by {
          forall i, j | 0 <= i < j < |cs| ensures cs[i].fd != cs[j].fd {
            if i == 0 { assert Fds(clients)[j - 1] == cs[j].fd; }
          }
        }
        if p.fd > 0 {
          assert FreshDescriptors(rest[1..], cs) by {
            forall i | 0 <= i < |rest[1..]| && Admitted(rest[1..][i]) ensures rest[1..][i].fd !in Fds(cs) {
              assert rest[1..][i] == rest[i + 1];
            }
          }
          DrainKeepsFdsUnique(rest[1..], cs, closed);
        }
      } else if !p.allowed && p.fd > 0 {
        DrainKeepsFdsUnique(rest[1..], clients, closed + [p.fd]);
      }
    }
  }

  /** get_new_clients: accept() until it reports nothing pending or returns
      descriptor 0; refused connections are closed and skipped; an allocation
      or blocking-mode failure closes that descriptor and returns -1 at once. */
  method GetNewClients(reg: Registry, script: seq<Pending>) returns (r: int)
    requires reg.Valid()
    modifies reg
    ensures reg.Valid()
    ensures Drained(r, reg.clients, reg.closed) == Drain(script, old(reg.clients), old(reg.closed))
  {
    var i := 0;
    while true
      invariant 0 <= i <= |script|
      invariant reg.Valid()
      invariant Drain(script[i..], reg.clients, reg.closed) == Drain(script, old(reg.clients), old(reg.closed))
      decreases |script| - i
    {
      var fd := if i < |script| then script[i].fd else -1;
      if fd < 0 {
        return 0;
      }
      var p := script[i];
      assert script[i..][1..] == script[i + 1..];
      i := i + 1;
      if !p.allowed {
        reg.Close(fd);
        if fd > 0 {
          continue;
        }
        return 0;
      }
      if !p.mallocOk {
        reg.Close(fd);
        return -1;
      }
      var c := NewClient(FreshId(reg.clients), p);
      if !p.ioctlOk {
        reg.Close(fd);
        return -1;
      }
      assert c.id !in Ids(reg.clients);
      reg.Add(c);
      if fd <= 0 {
        return 0;
      }
    }
  }
}
