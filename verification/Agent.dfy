/** The handlers, the sender iteration and Kill as the code runs them: loops over registry
    snapshots and in-place updates, each proved to be one step of the step system. */
module Agents {
  import Iteration
  import Ring
  import opened Panes
  import opened Registry
  import opened StepSystem

  class Agent {
    const size: nat
    const cdb: ClientsDB
    const pdb: PanesDB
    var chans: map<int, Channel>
    var peerMarker: map<int, int>
    var lastMarker: nat
    var pending: multiset<Replay>
    ghost var stuck: set<int>

    ghost function State(): Server
      reads this, cdb, pdb
    {
      Server(size, pdb.panes, pdb.nextID, cdb.clients, cdb.lastID, chans, peerMarker, lastMarker, pending, stuck)
    }

    ghost predicate Valid()
      reads this, cdb, pdb
    {
      && size >= 1 && cdb.Valid() && pdb.Valid()
      && forall p :: p in pdb.panes ==> Ring.Shaped(pdb.panes[p].ring)
    }

    constructor (size: nat)
      requires size >= 1
      ensures Valid() && fresh(cdb) && fresh(pdb) && State() == Boot(size)
    {
      this.size := size;
      cdb := new ClientsDB();
      pdb := new PanesDB();
      chans, peerMarker, lastMarker, pending, stuck := map[], map[], 0, multiset{}, {};
    }

    // One iteration of a pane's sender: snapshot the clients, send or drop, then buffer.
    method SendChunk(pane: int, m: seq<byte>)
      requires Valid() && pane in pdb.panes
      modifies this`chans, cdb, pdb
      ensures Valid()
      ensures State() == DoDeliver(old(State()), pane, m)
    {
      ghost var chans0, clients0 := chans, cdb.clients;
      var cs := cdb.All4Pane(pane);
      DeliveryStarts(chans0, clients0, cs, pane, m);
      var i := 0;
      while i < |cs|
        modifies this`chans, cdb`clients, cdb`deletes
        invariant 0 <= i <= |cs| && cdb.Valid()
        invariant Delivering(chans0, clients0, cs, i, pane, m, chans, cdb.clients)
      {
        ghost var before, clients1 := chans, cdb.clients;
        SendOrDrop(cs[i], m);
        DeliveryStep(chans0, clients0, cs, i, pane, m, before, clients1, chans, cdb.clients);
        i := i + 1;
      }
      DeliveryEnds(chans0, clients0, cs, pane, m, chans, cdb.clients);
      pdb.panes := pdb.panes[pane := pdb.panes[pane].(ring := Ring.Add(pdb.panes[pane].ring, m))];
    }

    method SendOrDrop(d: Client, m: seq<byte>)
      requires cdb.Valid()
      modifies this`chans, cdb`clients, cdb`deletes
      ensures cdb.Valid()
      ensures chans == if Open(old(chans), d.dc) then Sent(old(chans), d.dc, m) else Closed(old(chans), d.dc)
      ensures if Open(old(chans), d.dc) then cdb.clients == old(cdb.clients)
              else Deleted(old(cdb.clients), d, cdb.clients)
    {
      if Open(chans, d.dc) {
        chans := Sent(chans, d.dc, m);
      } else {
        var _ := cdb.Delete(d);
        chans := Closed(chans, d.dc);
      }
    }

    // Hang up and forget every client, then stop the pane if it runs.
    method Kill(pane: int)
      requires Valid() && pane in pdb.panes
      modifies this`chans, cdb, pdb
      ensures Valid()
      ensures State() == DoKill(old(State()), pane)
    {
      ForgetClients(pane);
      var p := pdb.panes[pane];
      if p.running {
        pdb.panes := pdb.panes[pane := p.(running := false)];
      }
      assert pdb.panes == old(pdb.panes)[pane := p.(running := false)];
    }

    method ForgetClients(pane: int)
      requires cdb.Valid()
      modifies this`chans, cdb`clients, cdb`deletes
      ensures cdb.Valid()
      ensures chans == Hangup(old(chans), old(cdb.clients), pane)
      ensures cdb.clients == Without(old(cdb.clients), pane, Always())
    {
      ghost var chans0, clients0 := chans, cdb.clients;
      var cs := cdb.All4Pane(pane);
      KillingStarts(chans0, clients0, cs, pane);
      var i := 0;
      while i < |cs|
        modifies this`chans, cdb`clients, cdb`deletes
        invariant 0 <= i <= |cs| && cdb.Valid()
        invariant Killing(chans0, clients0, cs, i, pane, chans, cdb.clients)
      {
        ghost var before, clients1 := chans, cdb.clients;
        Drop(cs[i]);
        KillingStep(chans0, clients0, cs, i, pane, before, clients1, chans, cdb.clients);
        i := i + 1;
      }
      KillingEnds(chans0, clients0, cs, pane, chans, cdb.clients);
    }

    method Drop(d: Client)
      requires cdb.Valid()
      modifies this`chans, cdb`clients, cdb`deletes
      ensures cdb.Valid()
      ensures chans == if Open(old(chans), d.dc) then Closed(old(chans), d.dc) else old(chans)
      ensures Deleted(old(cdb.clients), d, cdb.clients)
    {
      if Open(chans, d.dc) {
        chans := Closed(chans, d.dc);
      }
      var _ := cdb.Delete(d);
    }

    // handleMark: a new marker, which the peer holds, every buffer has and the client is told.
    method HandleMark(peer: int) returns (body: int)
      requires Valid()
      modifies this`lastMarker, this`peerMarker, pdb`panes
      ensures Valid()
      ensures State() == DoMark(old(State()), peer)
      ensures body == lastMarker == old(lastMarker) + 1 && peer in peerMarker && peerMarker[peer] == body
      ensures pdb.panes.Keys == old(pdb.panes).Keys
      ensures forall p :: p in pdb.panes ==> pdb.panes[p].ring == Ring.Mark(old(pdb.panes)[p].ring, body)
    {
      lastMarker := lastMarker + 1;
      peerMarker := peerMarker[peer := lastMarker];
      body := lastMarker;
      MarkAll(body);
    }

    method MarkAll(id: int)
      requires Valid()
      modifies pdb`panes
      ensures Valid()
      ensures pdb.panes == map p | p in old(pdb.panes) :: Marked(old(pdb.panes)[p], id)
    {
      var all := pdb.All();
      ghost var panes0 := pdb.panes;
      var i := 0;
      while i < |all|
        invariant 0 <= i <= |all| && pdb.panes.Keys == panes0.Keys
        invariant forall j :: 0 <= j < i ==> pdb.panes[all[j].id] == Marked(all[j], id)
        invariant forall j :: i <= j < |all| ==> pdb.panes[all[j].id] == all[j]
      {
        var p := all[i];
        pdb.panes := pdb.panes[p.id := Marked(p, id)];
        i := i + 1;
      }
      forall k | k in panes0
        ensures pdb.panes[k] == Marked(panes0[k], id)
      {
        var j :| 0 <= j < |all| && all[j] == panes0[k];
      }
    }

    method HandleRestore(peer: int, marker: int)
      requires Valid() && peer in peerMarker
      modifies this`peerMarker
      ensures Valid()
      ensures State() == Next(old(State()), Restore(peer, marker))
    {
      peerMarker := peerMarker[peer := marker];
    }

    // The first half of handleAddPane.
    method NewPane() returns (id: int)
      requires Valid()
      modifies pdb
      ensures Valid()
      ensures State() == AddPane(old(State())) && id == pdb.nextID
    {
      var p := pdb.Add(FreshPane(0, size));
      id := p.id;
    }

    // The open callback of handleAddPane: welcome, run the command, register.
    method OpenAddedPane(peer: int, dc: int, pane: int, welcome: seq<byte>, runs: bool)
      requires Valid() && pane in pdb.panes
      modifies this`chans, cdb, pdb
      ensures Valid()
      ensures State() == DoOpenPane(old(State()), peer, dc, pane, welcome, runs)
      ensures chans == old(chans)[dc := Channel(true, welcome)]
      ensures cdb.clients == old(cdb.clients)[old(cdb.lastID) := Client(dc, pane, peer, old(cdb.lastID))]
      ensures pane in pdb.panes && pdb.panes[pane].running == (runs || old(pdb.panes)[pane].running)
    {
      chans := chans[dc := Channel(true, [])];
      chans := Sent(chans, dc, welcome);
      assert chans[dc].got == welcome;
      if runs {
        pdb.panes := pdb.panes[pane := Started(pdb.panes[pane])];
      }
      var _ := cdb.Add(dc, pane, peer);
    }

    // GetOrCreatePane for a command, and the registration in OnChannelReq.
    method OpenLabelledPane(peer: int, dc: int, first: seq<byte>, runs: bool) returns (id: int)
      requires Valid()
      modifies this`chans, cdb, pdb
      ensures Valid()
      ensures State() == DoLabelPane(old(State()), peer, dc, first, runs) && id == pdb.nextID
      ensures chans == old(chans)[dc := Channel(true, first)]
      ensures id !in old(pdb.panes) && id in pdb.panes && pdb.panes[id].running == runs
      ensures runs ==> cdb.clients == old(cdb.clients)[old(cdb.lastID) := Client(dc, id, peer, old(cdb.lastID))]
      ensures !runs ==> cdb.clients == old(cdb.clients)
    {
      chans := chans[dc := Channel(true, first)];
      var p := pdb.Add(FreshPane(0, size));
      id := p.id;
      if runs {
        pdb.panes := pdb.panes[id := Started(p)];
        var _ := cdb.Add(dc, id, peer);
      }
    }

    // Reconnect, and for a `>id` label the second registration in OnChannelReq.
    method Reconnect(peer: int, dc: int, id: int, byLabel: bool) returns (pane: Lookup)
      requires Valid() && peer in peerMarker
      modifies this`chans, this`pending, cdb
      ensures Valid()
      ensures State() == DoReconnect(old(State()), peer, dc, id, byLabel)
      ensures pane == if id in pdb.panes && pdb.panes[id].running then Found(pdb.panes[id]) else Missing
      ensures dc in chans && chans[dc].got == [] && (!chans[dc].open <==> id in pdb.panes && !pdb.panes[id].running)
      ensures pane.Missing? ==> cdb.clients == old(cdb.clients) && pending == old(pending)
      ensures forall k :: k in cdb.clients && k !in old(cdb.clients) ==> cdb.clients[k] == Client(dc, id, peer, k)
      ensures forall k :: k in old(cdb.clients) ==> k in cdb.clients && cdb.clients[k] == old(cdb.clients)[k]
    {
      chans := chans[dc := Channel(true, [])];
      pane := pdb.Get(id);
      if pane.Missing? {
        return;
      }
      if !pane.pane.running {
        chans := Closed(chans, dc);
        pane := Missing;
        return;
      }
      Join(peer, dc, id, byLabel);
    }

    method Join(peer: int, dc: int, id: int, byLabel: bool)
      requires Valid() && peer in peerMarker
      modifies this`pending, cdb
      ensures Valid()
      ensures State() == DoJoin(old(State()), peer, dc, id, byLabel)
      ensures forall k :: k in cdb.clients && k !in old(cdb.clients) ==> cdb.clients[k] == Client(dc, id, peer, k)
      ensures forall k :: k in old(cdb.clients) ==> k in cdb.clients && cdb.clients[k] == old(cdb.clients)[k]
    {
      var _ := cdb.Add(dc, id, peer);
      if peerMarker[peer] != -1 {
        pending := pending + multiset{Replay(dc, id, peerMarker[peer])};
      }
      if byLabel {
        var _ := cdb.Add(dc, id, peer);
      }
    }

    // The timer callback of Restore, on a pane whose buffer stands for `log` and `pos`.
    method ReadReplay(t: Replay, ghost log: seq<byte>, ghost pos: map<int, nat>)
      requires Valid() && t.pane in pdb.panes && Ring.Exits(pdb.panes[t.pane].ring, t.marker)
      requires Ring.Refines(pdb.panes[t.pane].ring, log, pos)
      modifies this`chans, this`pending, pdb
      ensures Valid()
      ensures State() == DoReplayRead(old(State()), t)
      ensures chans == Sent(old(chans), t.dc, Ring.Returned(old(pdb.panes)[t.pane].ring.size, log, pos, t.marker))
      ensures t.pane in pdb.panes && Ring.Refines(pdb.panes[t.pane].ring, log, Ring.Forget(pos, t.marker))
      ensures forall u: Replay :: u != t ==> pending[u] == old(pending)[u]
    {
      ReadOnLog(State(), t, log, pos);
      var p := pdb.panes[t.pane];
      var r := Ring.Replay(p.ring, t.marker);
      pdb.panes := pdb.panes[t.pane := p.(ring := Ring.Consume(p.ring, t.marker))];
      chans := Sent(chans, t.dc, r);
      pending := pending - multiset{t};
    }

    // The close callback of a registered channel.
    method Closing(c: Client) returns (ghost victim: int)
      requires Valid() && c.dc in chans && !chans[c.dc].open
      modifies cdb
      ensures Valid()
      ensures Enabled(old(State()), OnClose(c, victim)) && State() == Next(old(State()), OnClose(c, victim))
      ensures var n := |Entries(old(cdb.clients), c.dc, c.pane)|;
        |Entries(cdb.clients, c.dc, c.pane)| == if n > 0 then n - 1 else 0
    {
      ghost var before := cdb.clients;
      var some := cdb.Delete(c);
      victim := 0;
      if exists k :: k in before && SameKey(before[k], c) {
        victim :| victim in before && SameKey(before[victim], c) && cdb.clients == before - {victim};
        assert victim in Entries(before, c.dc, c.pane);
        EntryGone(before, victim, c.dc, c.pane);
      } else {
        forall k ensures k !in Entries(before, c.dc, c.pane) {
          if k in before { assert !SameKey(before[k], c); }
        }
        Iteration.NonEmpty(Entries(before, c.dc, c.pane));
      }
    }
  }

  // A replay read, told on the log.
  lemma ReadOnLog(s: Server, t: Replay, log: seq<byte>, pos: map<int, nat>)
    requires t.pane in s.panes && Ring.Refines(s.panes[t.pane].ring, log, pos) && Ring.Exits(s.panes[t.pane].ring, t.marker)
    ensures var n := DoReplayRead(s, t);
      && n.chans == Sent(s.chans, t.dc, Ring.Returned(s.panes[t.pane].ring.size, log, pos, t.marker))
      && Ring.Refines(n.panes[t.pane].ring, log, Ring.Forget(pos, t.marker))
      && forall u: Replay :: u != t ==> n.pending[u] == s.pending[u]
  {
    Ring.ReplayReturns(s.panes[t.pane].ring, t.marker, log, pos);
    Ring.ConsumeRefines(s.panes[t.pane].ring, t.marker, log, pos);
  }

  // ---- Progress of the delivery loop ----

  // The first i clients of the snapshot are served: an open channel got one copy for each
  // of its registrations among them, and the rest of a dropped channel's registrations
  // are as many as the snapshot still has.
  ghost predicate Delivering(chans0: map<int, Channel>, clients0: map<int, Client>, cs: seq<Client>, i: nat, pane: int,
    m: seq<byte>, chans: map<int, Channel>, clients: map<int, Client>)
    requires i <= |cs|
  {
    && (forall j :: 0 <= j < |cs| ==> cs[j].pane == pane)
    && (forall dc :: |Entries(clients0, dc, pane)| == Count(cs, dc))
    && Balanced(clients, cs[i..], pane, NotOpen(chans0))
    && Without(clients, pane, NotOpen(chans0)) == Without(clients0, pane, NotOpen(chans0))
    && chans.Keys == chans0.Keys
    && forall dc :: dc in chans0 ==> chans[dc] == Served(chans0[dc], Count(cs, dc) - Count(cs[i..], dc), m)
  }

  function Served(c: Channel, n: int, m: seq<byte>): Channel {
    if c.open && n > 0 then c.(got := c.got + Copies(m, n)) else c
  }

  lemma DeliveryStarts(chans0: map<int, Channel>, clients0: map<int, Client>, cs: seq<Client>, pane: int, m: seq<byte>)
    requires WellKeyed(clients0) && Lists(cs, clients0, OfPane(pane))
    ensures Delivering(chans0, clients0, cs, 0, pane, m, chans0, clients0)
  {
    assert cs[0..] == cs;
    forall dc ensures |Entries(clients0, dc, pane)| == Count(cs, dc) {
      ListingCounts(cs, clients0, pane, dc);
    }
  }

  lemma DeliveryStep(chans0: map<int, Channel>, clients0: map<int, Client>, cs: seq<Client>, i: nat, pane: int,
    m: seq<byte>, before: map<int, Channel>, clients1: map<int, Client>, chans: map<int, Channel>, clients: map<int, Client>)
    requires i < |cs| && Delivering(chans0, clients0, cs, i, pane, m, before, clients1)
    requires chans == if Open(before, cs[i].dc) then Sent(before, cs[i].dc, m) else Closed(before, cs[i].dc)
    requires if Open(before, cs[i].dc) then clients == clients1 else Deleted(clients1, cs[i], clients)
    ensures Delivering(chans0, clients0, cs, i + 1, pane, m, chans, clients)
  {
    var d := cs[i].dc;
    CountSuffix(cs, i);
    assert Open(before, d) == Open(chans0, d);
    if Open(before, d) {
      KeepStep(clients, cs[i..], pane, NotOpen(chans0));
    } else {
      DeleteStep(clients1, cs[i..], pane, NotOpen(chans0), clients);
    }
    forall dc | dc in chans0
      ensures chans[dc] == Served(chans0[dc], Count(cs, dc) - Count(cs[i + 1..], dc), m)
    {
      if dc == d { ServedOnce(chans0[dc], Count(cs, dc) - Count(cs[i..], dc), m); }
    }
  }

  lemma ServedOnce(c: Channel, n: nat, m: seq<byte>)
    ensures c.open ==> Served(c, n + 1, m).got == Served(c, n, m).got + m
    ensures Served(c, n + 1, m).open == c.open
    ensures !c.open ==> Served(c, n + 1, m) == c.(open := false)
  {
    assert Copies(m, 0) == [];
    assert Copies(m, n + 1) == Copies(m, n) + m;
    assert c.got + (Copies(m, n) + m) == c.got + Copies(m, n) + m;
  }

  lemma {:induction false} CountSuffix(cs: seq<Client>, i: nat)
    requires i < |cs|
    ensures cs[i..][0] == cs[i] && cs[i..][1..] == cs[i + 1..]
    ensures forall dc :: Count(cs[i..], dc) <= Count(cs, dc)
  {
    if i > 0 {
      CountSuffix(cs, i - 1);
      assert cs[i - 1..][1..] == cs[i..];
    } else {
      assert cs[0..] == cs;
    }
  }

  lemma DeliveryEnds(chans0: map<int, Channel>, clients0: map<int, Client>, cs: seq<Client>, pane: int, m: seq<byte>,
    chans: map<int, Channel>, clients: map<int, Client>)
    requires Delivering(chans0, clients0, cs, |cs|, pane, m, chans, clients)
    ensures chans == Multicast(chans0, clients0, pane, m)
    ensures clients == Without(clients0, pane, NotOpen(chans0))
  {
    assert cs[|cs|..] == [];
    BalancedEmpty(clients, pane, NotOpen(chans0));
    forall dc | dc in chans0
      ensures chans[dc] == Multicast(chans0, clients0, pane, m)[dc]
    {
      assert |Entries(clients0, dc, pane)| == Count(cs, dc);
      assert chans0[dc].got + [] == chans0[dc].got;
    }
  }

  // Passing over an open channel leaves the balance of the dropped ones.
  lemma KeepStep(clients: map<int, Client>, rest: seq<Client>, pane: int, drop: int -> bool)
    requires rest != [] && !drop(rest[0].dc) && Balanced(clients, rest, pane, drop)
    ensures Balanced(clients, rest[1..], pane, drop)
  {}

  // ---- Progress of the kill loop ----

  ghost predicate Killing(chans0: map<int, Channel>, clients0: map<int, Client>, cs: seq<Client>, i: nat, pane: int,
    chans: map<int, Channel>, clients: map<int, Client>)
    requires i <= |cs|
  {
    && (forall j :: 0 <= j < |cs| ==> cs[j].pane == pane)
    && (forall dc :: |Entries(clients0, dc, pane)| == Count(cs, dc))
    && Balanced(clients, cs[i..], pane, Always())
    && Without(clients, pane, Always()) == Without(clients0, pane, Always())
    && chans.Keys == chans0.Keys
    && forall dc :: dc in chans0 ==>
      chans[dc] == if Count(cs[i..], dc) < Count(cs, dc) then chans0[dc].(open := false) else chans0[dc]
  }

  lemma KillingStarts(chans0: map<int, Channel>, clients0: map<int, Client>, cs: seq<Client>, pane: int)
    requires WellKeyed(clients0) && Lists(cs, clients0, OfPane(pane))
    ensures Killing(chans0, clients0, cs, 0, pane, chans0, clients0)
  {
    DeliveryStarts(chans0, clients0, cs, pane, []);
    assert cs[0..] == cs;
  }

  lemma KillingStep(chans0: map<int, Channel>, clients0: map<int, Client>, cs: seq<Client>, i: nat, pane: int,
    before: map<int, Channel>, clients1: map<int, Client>, chans: map<int, Channel>, clients: map<int, Client>)
    requires i < |cs| && Killing(chans0, clients0, cs, i, pane, before, clients1)
    requires chans == if Open(before, cs[i].dc) then Closed(before, cs[i].dc) else before
    requires Deleted(clients1, cs[i], clients)
    ensures Killing(chans0, clients0, cs, i + 1, pane, chans, clients)
  {
    CountSuffix(cs, i);
    DeleteStep(clients1, cs[i..], pane, Always(), clients);
  }

  lemma KillingEnds(chans0: map<int, Channel>, clients0: map<int, Client>, cs: seq<Client>, pane: int,
    chans: map<int, Channel>, clients: map<int, Client>)
    requires Killing(chans0, clients0, cs, |cs|, pane, chans, clients)
    ensures chans == Hangup(chans0, clients0, pane)
    ensures clients == Without(clients0, pane, Always())
  {
    assert cs[|cs|..] == [];
    BalancedEmpty(clients, pane, Always());
    forall dc | dc in chans0
      ensures chans[dc] == Hangup(chans0, clients0, pane)[dc]
    {
      assert |Entries(clients0, dc, pane)| == Count(cs, dc);
    }
  }
}
