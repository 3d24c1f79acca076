/** The client registry of peers/clients_db.go and the pane table of peers/panes_db.go. */
module Registry {
  import Iteration
  import opened Panes

  // Channels, panes and peers are identities; a client never changes once added.
  datatype Client = Client(dc: int, pane: int, peer: int, id: int)

  predicate SameKey(c: Client, d: Client) {
    c.dc == d.dc && c.pane == d.pane
  }

  // The registrations of one channel with one pane.
  function Entries(clients: map<int, Client>, dc: int, pane: int): set<int> {
    set k | k in clients && clients[k].dc == dc && clients[k].pane == pane
  }

  function OfPane(pane: int): Client -> bool {
    (c: Client) => c.pane == pane
  }

  function OfPeer(peer: int): Client -> bool {
    (c: Client) => c.peer == peer
  }

  // r lists the clients chosen by want once each, in some order.
  ghost predicate Lists(r: seq<Client>, clients: map<int, Client>, want: Client -> bool) {
    && (forall i :: 0 <= i < |r| ==> r[i].id in clients && clients[r[i].id] == r[i] && want(r[i]))
    && (forall i, j :: 0 <= i < j < |r| ==> r[i].id != r[j].id)
    && (forall k :: k in clients && want(clients[k]) ==> exists i :: 0 <= i < |r| && r[i].id == k)
  }

  ghost predicate WellKeyed(clients: map<int, Client>) {
    forall k :: k in clients ==> clients[k].id == k
  }

  // Delete removes one entry with the key of c, whichever the map iteration meets first.
  ghost predicate Deleted(before: map<int, Client>, c: Client, after: map<int, Client>) {
    if exists k :: k in before && SameKey(before[k], c)
    then exists k :: k in before && SameKey(before[k], c) && after == before - {k}
    else after == before
  }

  class ClientsDB {
    var clients: map<int, Client>
    var lastID: nat
    ghost var adds: nat
    ghost var deletes: nat

    ghost predicate Valid()
      reads this
    {
      && WellKeyed(clients)
      && (forall k :: k in clients ==> 0 <= k < lastID)
      && lastID == adds
      && |clients| == adds - deletes
    }

    constructor ()
      ensures Valid() && clients == map[] && lastID == 0 && adds == deletes == 0
    {
      clients, lastID := map[], 0;
      adds, deletes := 0, 0;
    }

    // Ids count up and are never reused, so the new entry replaces none.
    method Add(dc: int, pane: int, peer: int) returns (c: Client)
      requires Valid()
      modifies this
      ensures Valid() && adds == old(adds) + 1 && deletes == old(deletes)
      ensures c == Client(dc, pane, peer, old(lastID)) && c.id !in old(clients)
      ensures clients == old(clients)[c.id := c] && lastID == old(lastID) + 1
    {
      var id := lastID;
      lastID := lastID + 1;
      c := Client(dc, pane, peer, id);
      clients := clients[id := c];
      adds := adds + 1;
    }

    method Len() returns (n: nat)
      requires Valid()
      ensures n == adds - deletes
    {
      n := |clients|;
    }

    method All4Peer(peer: int) returns (r: seq<Client>)
      requires Valid()
      ensures Lists(r, clients, OfPeer(peer))
    {
      r := [];
      var left := clients.Keys;
      while left != {}
        invariant left <= clients.Keys
        invariant Lists(r, clients - left, OfPeer(peer))
        decreases left
      {
        var k := Iteration.Next(left);
        ghost var was := r;
        if clients[k].peer == peer {
          r := r + [clients[k]];
        }
        Listed(was, r, clients, left, k, OfPeer(peer));
        left := left - {k};
      }
      assert clients - left == clients;
    }

    method All4Pane(pane: int) returns (r: seq<Client>)
      requires Valid()
      ensures Lists(r, clients, OfPane(pane))
    {
      r := [];
      var left := clients.Keys;
      while left != {}
        invariant left <= clients.Keys
        invariant Lists(r, clients - left, OfPane(pane))
        decreases left
      {
        var k := Iteration.Next(left);
        ghost var was := r;
        if clients[k].pane == pane {
          r := r + [clients[k]];
        }
        Listed(was, r, clients, left, k, OfPane(pane));
        left := left - {k};
      }
      assert clients - left == clients;
    }

    method Delete(c: Client) returns (ok: bool)
      requires Valid()
      modifies this`clients, this`deletes
      ensures Valid() && deletes == old(deletes) + if ok then 1 else 0
      ensures ok <==> exists k :: k in old(clients) && SameKey(old(clients)[k], c)
      ensures Deleted(old(clients), c, clients)
    {
      var left := clients.Keys;
      while left != {}
        invariant left <= clients.Keys && clients == old(clients) && deletes == old(deletes)
        invariant forall k :: k in clients && k !in left ==> !SameKey(clients[k], c)
        decreases left
      {
        var k := Iteration.Next(left);
        if SameKey(clients[k], c) {
          assert (clients - {k}).Keys == clients.Keys - {k};
          clients := clients - {k};
          deletes := deletes + 1;
          return true;
        }
        left := left - {k};
      }
      return false;
    }
  }

  // One pass of a listing loop.
  lemma Listed(was: seq<Client>, r: seq<Client>, clients: map<int, Client>, left: set<int>, k: int, want: Client -> bool)
    requires WellKeyed(clients) && k in left && left <= clients.Keys
    requires Lists(was, clients - left, want)
    requires r == if want(clients[k]) then was + [clients[k]] else was
    ensures Lists(r, clients - (left - {k}), want)
  {
    var now := clients - (left - {k});
    forall j | j in now && want(now[j])
      ensures exists i :: 0 <= i < |r| && r[i].id == j
    {
      if j == k {
        assert r[|was|].id == j;
      } else {
        assert j in clients - left;
        var i :| 0 <= i < |was| && was[i].id == j;
        assert r[i].id == j;
      }
    }
  }

  // ---- Deleting a whole snapshot ----

  // How often a channel occurs among the clients still to be visited.
  function Count(r: seq<Client>, dc: int): nat {
    if r == [] then 0 else (if r[0].dc == dc then 1 else 0) + Count(r[1..], dc)
  }

  ghost predicate Balanced(clients: map<int, Client>, rest: seq<Client>, pane: int, drop: int -> bool) {
    forall dc :: drop(dc) ==> |Entries(clients, dc, pane)| == Count(rest, dc)
  }

  lemma {:induction false} ListingCounts(r: seq<Client>, clients: map<int, Client>, pane: int, dc: int)
    requires WellKeyed(clients) && Lists(r, clients, OfPane(pane))
    ensures |Entries(clients, dc, pane)| == Count(r, dc)
    decreases |r|
  {
    if r == [] {
      assert forall k :: k in clients ==> !OfPane(pane)(clients[k]);
      assert Entries(clients, dc, pane) == {};
    } else {
      var id := r[0].id;
      var fewer := clients - {id};
      assert Lists(r[1..], fewer, OfPane(pane)) by {
        forall k | k in fewer && fewer[k].pane == pane
          ensures exists i :: 0 <= i < |r[1..]| && r[1..][i].id == k
        {
          var i :| 0 <= i < |r| && r[i].id == k;
          assert r[1..][i - 1].id == k;
        }
      }
      ListingCounts(r[1..], fewer, pane, dc);
      if r[0].dc == dc {
        assert Entries(clients, dc, pane) == Entries(fewer, dc, pane) + {id};
      } else {
        assert Entries(clients, dc, pane) == Entries(fewer, dc, pane);
      }
    }
  }

  // What deleting every dropped channel's registrations with a pane leaves.
  function Without(clients: map<int, Client>, pane: int, drop: int -> bool): map<int, Client> {
    map k | k in clients && !(clients[k].pane == pane && drop(clients[k].dc)) :: clients[k]
  }

  lemma EntryGone(clients: map<int, Client>, k: int, dc: int, pane: int)
    requires k in clients
    ensures |Entries(clients - {k}, dc, pane)|
      == |Entries(clients, dc, pane)| - if clients[k].dc == dc && clients[k].pane == pane then 1 else 0
  {
    if clients[k].dc == dc && clients[k].pane == pane {
      assert Entries(clients, dc, pane) == Entries(clients - {k}, dc, pane) + {k};
    } else {
      assert Entries(clients, dc, pane) == Entries(clients - {k}, dc, pane);
    }
  }

  // A client that the balance says is still there is the one Delete finds, or has its key.
  lemma Victim(clients: map<int, Client>, c: Client, after: map<int, Client>) returns (k: int)
    requires |Entries(clients, c.dc, c.pane)| > 0 && Deleted(clients, c, after)
    ensures k in clients && SameKey(clients[k], c) && after == clients - {k}
  {
    var e := Iteration.Some(Entries(clients, c.dc, c.pane));
    assert SameKey(clients[e], c);
    k :| k in clients && SameKey(clients[k], c) && after == clients - {k};
  }

  // Removing by key and not by identity still keeps the balance, and removes nothing
  // outside the dropped channels of the pane.
  lemma DeleteStep(clients: map<int, Client>, rest: seq<Client>, pane: int, drop: int -> bool, after: map<int, Client>)
    requires rest != [] && rest[0].pane == pane && drop(rest[0].dc)
    requires Balanced(clients, rest, pane, drop) && Deleted(clients, rest[0], after)
    ensures Balanced(after, rest[1..], pane, drop)
    ensures Without(after, pane, drop) == Without(clients, pane, drop)
  {
    var k := Victim(clients, rest[0], after);
    forall dc | drop(dc)
      ensures |Entries(after, dc, pane)| == Count(rest[1..], dc)
    {
      EntryGone(clients, k, dc, pane);
    }
  }

  lemma BalancedEmpty(clients: map<int, Client>, pane: int, drop: int -> bool)
    requires Balanced(clients, [], pane, drop)
    ensures Without(clients, pane, drop) == clients
  {
    forall k | k in clients && clients[k].pane == pane
      ensures !drop(clients[k].dc)
    {
      assert k in Entries(clients, clients[k].dc, pane);
      assert |Entries(clients, clients[k].dc, pane)| != Count([], clients[k].dc);
    }
  }

  // ---- Panes ----

  class PanesDB {
    var panes: map<int, Pane>
    var nextID: nat

    ghost predicate Valid()
      reads this
    {
      forall k :: k in panes ==> 1 <= k <= nextID && panes[k].id == k
    }

    constructor ()
      ensures Valid() && panes == map[] && nextID == 0
    {
      panes, nextID := map[], 0;
    }

    // The first id handed out is 1.
    method Add(p: Pane) returns (q: Pane)
      requires Valid()
      modifies this
      ensures Valid() && nextID == old(nextID) + 1
      ensures q == p.(id := nextID) && q.id !in old(panes)
      ensures panes == old(panes)[q.id := q]
    {
      nextID := nextID + 1;
      q := p.(id := nextID);
      panes := panes[q.id := q];
    }

    method All() returns (r: seq<Pane>)
      requires Valid()
      ensures forall i, j :: 0 <= i < j < |r| ==> r[i].id != r[j].id
      ensures forall i :: 0 <= i < |r| ==> r[i].id in panes && panes[r[i].id] == r[i]
      ensures forall k :: k in panes ==> panes[k] in r
    {
      r := [];
      var left := panes.Keys;
      while left != {}
        invariant left <= panes.Keys
        invariant forall i, j :: 0 <= i < j < |r| ==> r[i].id != r[j].id
        invariant forall i :: 0 <= i < |r| ==> r[i].id in panes && r[i].id !in left && panes[r[i].id] == r[i]
        invariant forall k :: k in panes && k !in left ==> panes[k] in r
        decreases left
      {
        var k := Iteration.Next(left);
        r := r + [panes[k]];
        left := left - {k};
      }
    }

    method Delete(id: int) returns (ok: bool)
      requires Valid()
      modifies this`panes
      ensures Valid()
      ensures ok == (id in old(panes)) && panes == old(panes) - {id}
    {
      ok := id in panes;
      if ok {
        panes := panes - {id};
      }
    }

    // Finds the pane of that id, and reports none only if there is none.
    method Get(id: int) returns (p: Lookup)
      requires Valid()
      ensures p.Missing? <==> forall k :: k in panes ==> panes[k].id != id
      ensures p.Found? ==> p.pane.id == id && p.pane in panes.Values
      ensures p.Found? ==> id in panes && panes[id] == p.pane
    {
      p := if id in panes then Found(panes[id]) else Missing;
    }
  }
}
