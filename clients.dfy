/** The client registry of the sound daemon (clients.c): one record per
    accepted connection, kept in a singly linked list whose head is the most
    recently accepted client. The list is modelled as a sequence, head first;
    a record's identity (the address of its allocation) is a handle. */
module Clients {

  /** The identity of a client record: erase_client compares pointers, not contents. */
  type Handle = nat

  /** The protocol cursor. The parser that produces the other states is not part of this model. */
  datatype ClientState = NeedsReqData | StreamingData | OtherState(code: nat)

  /** The request kind being served. */
  datatype Request = ProtoConnect | ProtoStreamMon | OtherRequest(code: nat)

  /** The peer address, opaque here; IPv4 or IPv6 according to the server's addressing mode. */
  datatype PeerAddress = Inet(raw: nat) | Inet6(raw: nat)

  /** One connected client; its place in the sequence stands for the `next` link. */
  datatype Client = Client(id: Handle, fd: int, state: ClientState, request: Request,
                           protoDataLength: int, source: PeerAddress)

  function Ids(s: seq<Client>): set<Handle>
  {
    set c | c in s :: c.id
  }

  /** No two linked records share an identity: the list is acyclic and holds each allocation once. */
  predicate UniqueIds(s: seq<Client>)
  {
    forall i, j :: 0 <= i < j < |s| ==> s[i].id != s[j].id
  }

  /** No two linked records share a descriptor. */
  predicate UniqueFds(s: seq<Client>)
  {
    forall i, j :: 0 <= i < j < |s| ==> s[i].fd != s[j].fd
  }

  /** The descriptors of the records, in list order. */
  function Fds(s: seq<Client>): (r: seq<int>)
    ensures |r| == |s|
    ensures forall i :: 0 <= i < |s| ==> r[i] == s[i].fd
  {
    if s == [] then [] else [s[0].fd] + Fds(s[1..])
  }

  /** The first position of the record with identity id, where erase_client's scan stops. */
  function Position(s: seq<Client>, id: Handle): (k: nat)
    requires id in Ids(s)
    ensures k < |s| && s[k].id == id
    ensures forall j :: 0 <= j < k ==> s[j].id != id
  {
    if s[0].id == id then 0
    else
      assert id in Ids(s[1..]) by {
        var c :| c in s && c.id == id;
        assert c != s[0];
      }
      1 + Position(s[1..], id)
  }

  /** The list that erase_client leaves behind: the scan from the head skips
      records until the one with identity id, which is spliced out. */
  function Remove(s: seq<Client>, id: Handle): (r: seq<Client>)
    ensures |r| == if id in Ids(s) then |s| - 1 else |s|
    ensures Ids(r) <= Ids(s)
  {
    if s == [] then []
    else if s[0].id == id then s[1..]
    else
      var rest := Remove(s[1..], id);
      assert id in Ids(s) <==> id in Ids(s[1..]) by {
        if id in Ids(s) {
          var c :| c in s && c.id == id;
          assert c != s[0];
        }
      }
      assert Ids([s[0]] + rest) == {s[0].id} + Ids(rest) by {
        assert forall c :: c in [s[0]] + rest <==> c == s[0] || c in rest;
      }
      assert Ids(s) == {s[0].id} + Ids(s[1..]) by {
        assert forall c :: c in s <==> c == s[0] || c in s[1..];
      }
      [s[0]] + rest
  }

  /** The descriptor erase_client closes: that of the record it unlinks, if any. */
  function ClosedBy(s: seq<Client>, id: Handle): (r: seq<int>)
    ensures |r| <= 1
    ensures |r| == 1 <==> id in Ids(s)
  {
    if id in Ids(s) then [s[Position(s, id)].fd] else []
  }

  /** Removing a present record splices it out and keeps the records before
      and after it, in their original order. */
  lemma {:induction false} RemoveSplices(s: seq<Client>, id: Handle, k: nat)
    requires k < |s| && s[k].id == id
    requires forall j :: 0 <= j < k ==> s[j].id != id
    ensures Remove(s, id) == s[..k] + s[k + 1..]
  {
    if k > 0 {
      RemoveSplices(s[1..], id, k - 1);
      assert s[1..][..k - 1] + s[1..][k..] == s[1..k] + s[k + 1..];
      assert [s[0]] + s[1..k] == s[..k];
    }
  }

  /** Erasing a client that is not linked changes nothing. */
  lemma {:induction false} RemoveAbsent(s: seq<Client>, id: Handle)
    requires id !in Ids(s)
    ensures Remove(s, id) == s
  {
    if s != [] {
      assert s[0] in s;
      assert Ids(s[1..]) <= Ids(s) by {
        forall h | h in Ids(s[1..]) ensures h in Ids(s) {
          var c :| c in s[1..] && c.id == h;
          assert c in s;
        }
      }
      RemoveAbsent(s[1..], id);
      assert [s[0]] + s[1..] == s;
    }
  }

  /** Erasing keeps every record whose identity differs. */
  lemma {:induction false} RemoveKeepsOthers(s: seq<Client>, id: Handle, c: Client)
    requires c in s && c.id != id
    ensures c in Remove(s, id)
  {
    if c != s[0] {
      assert c in s[1..];
      RemoveKeepsOthers(s[1..], id, c);
    }
  }

  /** On a list with unique identities, the erased identity is gone afterwards. */
  lemma {:induction false} RemoveDrops(s: seq<Client>, id: Handle)
    requires UniqueIds(s)
    ensures id !in Ids(Remove(s, id))
  {
    if s != [] {
      if s[0].id == id {
        forall c | c in s[1..] ensures c.id != id {
          var i :| 0 <= i < |s[1..]| && s[1..][i] == c;
          assert s[i + 1] == c;
        }
      } else {
        RemoveDrops(s[1..], id);
        var r := Remove(s[1..], id);
        assert forall c :: c in [s[0]] + r ==> c == s[0] || c in r;
      }
    }
  }

  /** The sequence with position k cut out, index by index. */
  lemma SpliceIndex(s: seq<Client>, k: nat)
    requires k < |s|
    ensures |s[..k] + s[k + 1..]| == |s| - 1
    ensures forall i :: 0 <= i < |s| - 1 ==>
              (s[..k] + s[k + 1..])[i] == if i < k then s[i] else s[i + 1]
  {
  }

  /** On a list with unique identities, erasing removes exactly the record
      with that identity: every other record stays linked, and identities
      stay unique. */
  lemma RemoveExactly(s: seq<Client>, id: Handle)
    requires UniqueIds(s)
    ensures UniqueIds(Remove(s, id))
    ensures Ids(Remove(s, id)) == Ids(s) - {id}
    ensures forall c :: c in s && c.id != id ==> c in Remove(s, id)
  {
    forall c | c in s && c.id != id ensures c in Remove(s, id) {
      RemoveKeepsOthers(s, id, c);
    }
    RemoveDrops(s, id);
    forall h | h in Ids(s) - {id} ensures h in Ids(Remove(s, id)) {
      var c :| c in s && c.id == h;
      assert c in Remove(s, id);
    }
    if id in Ids(s) {
      var k := Position(s, id);
      RemoveSplices(s, id, k);
      SpliceIndex(s, k);
    } else {
      RemoveAbsent(s, id);
    }
  }

  /** Erasing never makes two linked records share a descriptor. */
  lemma RemoveKeepsFdsUnique(s: seq<Client>, id: Handle)
    requires UniqueFds(s)
    ensures UniqueFds(Remove(s, id))
  {
    if id in Ids(s) {
      var k := Position(s, id);
      RemoveSplices(s, id, k);
      SpliceIndex(s, k);
    } else {
      RemoveAbsent(s, id);
    }
  }

  /** The first record with identity id is where Position points. */
  lemma PositionAt(s: seq<Client>, id: Handle, k: nat)
    requires k < |s| && s[k].id == id
    requires forall j :: 0 <= j < k ==> s[j].id != id
    ensures id in Ids(s) && Position(s, id) == k
  {
    assert s[k] in s;
    var p := Position(s, id);
    assert !(p < k) && !(k < p);
  }

  /** The scan of erase_client stopping at position k: the record found there
      is the one Position names, and unlinking it gives Remove, closing its
      descriptor. */
  lemma UnlinkAt(s: seq<Client>, id: Handle, k: nat)
    requires UniqueIds(s)
    requires k < |s| && s[k].id == id
    requires forall j :: 0 <= j < k ==> s[j].id != id
    ensures id in Ids(s) && Position(s, id) == k
    ensures Remove(s, id) == s[..k] + s[k + 1..]
    ensures ClosedBy(s, id) == [s[k].fd]
    ensures UniqueIds(Remove(s, id))
  {
    PositionAt(s, id, k);
    RemoveSplices(s, id, k);
    assert UniqueIds(Remove(s, id)) by {
      RemoveExactly(s, id);
    }
    SpliceIndex(s, k);
  }

  /** The client registry, esd_clients_list, together with the record of the
      descriptors this core passes to close(), in order. */
  class Registry {
    var clients: seq<Client>
    var closed: seq<int>

    ghost predicate Valid()
      reads this
    {
      UniqueIds(clients) && forall i :: 0 <= i < |clients| ==> clients[i].fd >= 0
    }

    constructor ()
      ensures Valid() && clients == [] && closed == []
    {
      clients := [];
      closed := [];
    }

    /** close(fd): recorded, nothing else changes. */
    method Close(fd: int)
      modifies this
      ensures clients == old(clients) && closed == old(closed) + [fd]
    {
      closed := closed + [fd];
    }

    /** add_new_client: links a freshly allocated, unlinked record at the head;
        the rest of the list is the old list, unchanged. */
    method Add(c: Client)
      requires Valid() && c.id !in Ids(clients) && c.fd >= 0
      modifies this
      ensures Valid()
      ensures clients == [c] + old(clients) && closed == old(closed)
      ensures Remove(clients, c.id) == old(clients)
    {
      clients := [c] + clients;
      assert clients[0] == c;
      forall i, j | 0 <= i < j < |clients| ensures clients[i].id != clients[j].id {
        if i == 0 { assert clients[j] in old(clients); }
      }
    }

    /** erase_client: scans from the head for the record with identity id; if
        found, splices it out (from the middle or the head) and closes its
        descriptor; if not found, does nothing. */
    method Erase(id: Handle)
      requires Valid()
      modifies this
      ensures Valid()
      ensures clients == Remove(old(clients), id)
      ensures closed == old(closed) + ClosedBy(old(clients), id)
      ensures id in Ids(old(clients)) ==>
                var k := Position(old(clients), id);
                clients == old(clients)[..k] + old(clients)[k + 1..]
      ensures id !in Ids(old(clients)) ==> clients == old(clients) && closed == old(closed)
    {
      var i := 0;
      while i < |clients|
        invariant 0 <= i <= |clients|
        invariant clients == old(clients) && closed == old(closed)
        invariant forall j :: 0 <= j < i ==> clients[j].id != id
      {
        if clients[i].id == id {
          UnlinkAt(clients, id, i);
          var fd := clients[i].fd;
          if i > 0 {
            // unlinking from the middle: the predecessor now links to the successor
            clients := clients[..i] + clients[i + 1..];
          } else {
            // unlinking the head: the list now starts at the successor
            clients := clients[1..];
            assert clients == old(clients)[..0] + old(clients)[1..];
          }
          Close(fd);
          return;
        }
        i := i + 1;
      }
      assert forall c :: c in clients ==> c.id != id;
      RemoveAbsent(clients, id);
    }
  }
}
