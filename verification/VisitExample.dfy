/** The visits of the mark and restore protocol happen: one run of the agent, step by step,
    with output in every part of it and a buffer that may wrap any number of times. */
module VisitExample {
  import EndToEnd
  import Pipeline
  import Ring
  import opened Panes
  import opened Registry
  import opened StepSystem
  import opened MarkRestore

  // The output before the mark, up to the detach, up to the reattach and up to the read.
  datatype Talk = Talk(size: nat, x: seq<byte>, w: seq<byte>, y: seq<byte>, z: seq<byte>)

  // The marker lives until the read, and the loop of the replay ends.
  predicate Fits(t: Talk) {
    && |t.w| + |t.y| + |t.z| < t.size
    && (|t.w| + |t.y| + |t.z| > 0 ==> (|t.x| + |t.w| + |t.y| + |t.z|) % t.size != 0)
  }

  function OnePane(ring: Ring.Ring, running: bool, clients: map<int, Client>, lastID: nat,
    chans: map<int, Channel>, peerMarker: map<int, int>, lastMarker: nat, pending: multiset<Replay>): Server
  {
    Server(ring.size, map[1 := Pane(1, running, running, ring)], 1, clients, lastID, chans, peerMarker, lastMarker, pending, {})
  }

  // ---- Before the detach, while away, and after the reattach ----

  function Here(ring: Ring.Ring, past: Past, got: seq<byte>, open: bool, marker: int, lastMarker: nat): World {
    World(OnePane(ring, true, map[0 := Client(10, 1, 1, 0)], 1, map[10 := Channel(open, got)], map[1 := marker],
      lastMarker, multiset{}), map[1 := past])
  }

  function Away(ring: Ring.Ring, past: Past, got: seq<byte>, peers: map<int, int>): World {
    World(OnePane(ring, true, map[], 1, map[10 := Channel(false, got)], peers, 1, multiset{}), map[1 := past])
  }

  function Back(ring: Ring.Ring, past: Past, got: seq<byte>, live: seq<byte>, pending: multiset<Replay>): World {
    World(OnePane(ring, true, map[1 := Client(20, 1, 2, 1)], 2,
      map[10 := Channel(false, got), 20 := Channel(true, live)], map[1 := 1, 2 := 1], 1, pending), map[1 := past])
  }

  function Longer(past: Past, chunk: seq<byte>): Past {
    past.(log := past.log + chunk)
  }

  // A single open client hears one copy, and nobody else hears anything.
  lemma OneHears(chans: map<int, Channel>, c: Client, chunk: seq<byte>)
    requires c.pane == 1 && Open(chans, c.dc)
    ensures var clients := map[c.id := c];
      && Without(clients, 1, NotOpen(chans)) == clients
      && Multicast(chans, clients, 1, chunk) == Sent(chans, c.dc, chunk)
  {
    var clients := map[c.id := c];
    assert Without(clients, 1, NotOpen(chans)) == clients;
    assert Entries(clients, c.dc, 1) == {c.id};
    assert Copies(chunk, 0) == [] && Copies(chunk, 1) == [] + chunk == chunk;
    forall dc | dc in chans ensures Multicast(chans, clients, 1, chunk)[dc] == Sent(chans, c.dc, chunk)[dc] {
      if dc != c.dc {
        NoEntries(clients, dc, 1);
        assert chans[dc].got + [] == chans[dc].got;
      }
    }
  }

  lemma OneDelivers(w: World, c: Client, chunk: seq<byte>)
    requires 1 in w.s.panes && w.s.panes[1].tty && 1 !in w.s.stuck && Ring.Shaped(w.s.panes[1].ring)
    requires c.pane == 1 && w.s.clients == map[c.id := c] && Open(w.s.chans, c.dc) && w.past.Keys == w.s.panes.Keys
    ensures Moves(w, Deliver(1, chunk), After(w, c, chunk))
  {
    OneHears(w.s.chans, c, chunk);
  }

  function After(w: World, c: Client, chunk: seq<byte>): World
    requires 1 in w.s.panes && Ring.Shaped(w.s.panes[1].ring) && 1 in w.past
  {
    var p := w.s.panes[1];
    World(w.s.(chans := Sent(w.s.chans, c.dc, chunk), panes := w.s.panes[1 := p.(ring := Ring.Add(p.ring, chunk))]),
      w.past[1 := Longer(w.past[1], chunk)])
  }

  lemma HereAfter(ring: Ring.Ring, past: Past, got: seq<byte>, marker: int, lastMarker: nat, chunk: seq<byte>)
    requires Ring.Shaped(ring)
    ensures After(Here(ring, past, got, true, marker, lastMarker), Client(10, 1, 1, 0), chunk)
      == Here(Ring.Add(ring, chunk), Longer(past, chunk), got + chunk, true, marker, lastMarker)
  {
    PutAgain(10, Channel(true, got), Channel(true, got + chunk));
    PutAgain(1, Pane(1, true, true, ring), Pane(1, true, true, Ring.Add(ring, chunk)));
    PutAgain(1, past, Longer(past, chunk));
  }

  lemma PutAgain<V>(k: int, a: V, b: V)
    ensures map[k := a][k := b] == map[k := b]
  {}

  lemma BackAfter(ring: Ring.Ring, past: Past, got: seq<byte>, live: seq<byte>, pending: multiset<Replay>, chunk: seq<byte>)
    requires Ring.Shaped(ring)
    ensures After(Back(ring, past, got, live, pending), Client(20, 1, 2, 1), chunk)
      == Back(Ring.Add(ring, chunk), Longer(past, chunk), got, live + chunk, pending)
  {
    PutAgain(1, Pane(1, true, true, ring), Pane(1, true, true, Ring.Add(ring, chunk)));
    PutAgain(1, past, Longer(past, chunk));
    assert Sent(Back(ring, past, got, live, pending).s.chans, 20, chunk)
      == map[10 := Channel(false, got), 20 := Channel(true, live + chunk)];
  }

  lemma HereDelivers(ring: Ring.Ring, past: Past, got: seq<byte>, marker: int, lastMarker: nat, chunk: seq<byte>)
    requires Ring.Shaped(ring)
    ensures Moves(Here(ring, past, got, true, marker, lastMarker), Deliver(1, chunk),
      Here(Ring.Add(ring, chunk), Longer(past, chunk), got + chunk, true, marker, lastMarker))
  {
    OneDelivers(Here(ring, past, got, true, marker, lastMarker), Client(10, 1, 1, 0), chunk);
    HereAfter(ring, past, got, marker, lastMarker, chunk);
  }

  lemma HereMarks(ring: Ring.Ring, log: seq<byte>, got: seq<byte>)
    requires Ring.Shaped(ring)
    ensures Moves(Here(ring, Past(log, map[]), got, true, -1, 0), Mark(1),
      Here(Ring.Mark(ring, 1), Past(log, map[1 := |log|]), got, true, 1, 1))
  {
    var w, v := Here(ring, Past(log, map[]), got, true, -1, 0), Here(Ring.Mark(ring, 1), Past(log, map[1 := |log|]), got, true, 1, 1);
    PutAgain(1, -1, 1);
    assert DoMark(w.s, 1).panes == v.s.panes;
    assert Remember(w, Mark(1)) == v.past;
  }

  lemma HereCloses(ring: Ring.Ring, past: Past, got: seq<byte>)
    ensures Moves(Here(ring, past, got, true, 1, 1), Close(10), Here(ring, past, got, false, 1, 1))
  {}

  // The first chunk after the close finds the channel closed and drops the client.
  lemma AwayDelivers(ring: Ring.Ring, past: Past, got: seq<byte>, chunk: seq<byte>)
    requires Ring.Shaped(ring)
    ensures Moves(Here(ring, past, got, false, 1, 1), Deliver(1, chunk),
      Away(Ring.Add(ring, chunk), Longer(past, chunk), got, map[1 := 1]))
  {
    var s := Here(ring, past, got, false, 1, 1).s;
    PutAgain(1, Pane(1, true, true, ring), Pane(1, true, true, Ring.Add(ring, chunk)));
    PutAgain(1, past, Longer(past, chunk));
    assert Without(s.clients, 1, NotOpen(s.chans)) == map[];
    assert Multicast(s.chans, s.clients, 1, chunk) == s.chans;
  }

  lemma AwayRestores(ring: Ring.Ring, past: Past, got: seq<byte>)
    ensures Moves(Away(ring, past, got, map[1 := 1]), NewPeer(2), Away(ring, past, got, map[1 := 1, 2 := -1]))
    ensures Moves(Away(ring, past, got, map[1 := 1, 2 := -1]), Restore(2, 1), Away(ring, past, got, map[1 := 1, 2 := 1]))
  {}

  lemma AwayReconnects(ring: Ring.Ring, past: Past, got: seq<byte>)
    ensures Moves(Away(ring, past, got, map[1 := 1, 2 := 1]), Reconnect(2, 20, 1, false),
      Back(ring, past, got, [], multiset{Replay(20, 1, 1)}))
  {}

  lemma BackDelivers(ring: Ring.Ring, past: Past, got: seq<byte>, live: seq<byte>, pending: multiset<Replay>, chunk: seq<byte>)
    requires Ring.Shaped(ring)
    ensures Moves(Back(ring, past, got, live, pending), Deliver(1, chunk),
      Back(Ring.Add(ring, chunk), Longer(past, chunk), got, live + chunk, pending))
  {
    OneDelivers(Back(ring, past, got, live, pending), Client(20, 1, 2, 1), chunk);
    BackAfter(ring, past, got, live, pending, chunk);
  }

  lemma BackReads(ring: Ring.Ring, log: seq<byte>, m: nat, got: seq<byte>, live: seq<byte>)
    requires Ring.Refines(ring, log, map[1 := m]) && Ring.Exits(ring, 1)
    ensures Moves(Back(ring, Past(log, map[1 := m]), got, live, multiset{Replay(20, 1, 1)}), ReplayRead(Replay(20, 1, 1)),
      Back(Ring.Consume(ring, 1), Past(log, map[]), got, live + Ring.Replay(ring, 1), multiset{}))
  {
    var t, w := Replay(20, 1, 1), Back(ring, Past(log, map[1 := m]), got, live, multiset{Replay(20, 1, 1)});
    assert map[1 := m] - {1} == map[];
    var chans := map[10 := Channel(false, got), 20 := Channel(true, live + Ring.Replay(ring, 1))];
    assert Sent(w.s.chans, 20, Ring.Replay(ring, 1)) == chans;
    assert DoReplayRead(w.s, t).chans == chans;
  }

  // ---- The buffer ----

  // The buffer after the first n of the four chunks, with the mark behind the first.
  function RingAt(t: Talk, n: nat): (r: Ring.Ring)
    requires t.size >= 1 && 1 <= n <= 4
    ensures Ring.Shaped(r) && r.size == t.size
  {
    if n == 1 then Ring.Mark(Ring.Add(Ring.New(t.size), t.x), 1)
    else Ring.Add(RingAt(t, n - 1), if n == 2 then t.w else if n == 3 then t.y else t.z)
  }

  function PastAt(t: Talk, n: nat): Past
    requires 1 <= n <= 4
  {
    if n == 1 then Past([] + t.x, map[1 := |t.x|])
    else Longer(PastAt(t, n - 1), if n == 2 then t.w else if n == 3 then t.y else t.z)
  }

  lemma {:induction false} RingIsPast(t: Talk, n: nat)
    requires t.size >= 1 && 1 <= n <= 4
    ensures Ring.Refines(RingAt(t, n), PastAt(t, n).log, map[1 := |t.x|]) && PastAt(t, n).pos == map[1 := |t.x|]
  {
    if n == 1 {
      Ring.NewRefines(t.size);
      Ring.AddRefines(Ring.New(t.size), t.x, [], map[]);
      Ring.MarkRefines(Ring.Add(Ring.New(t.size), t.x), 1, [] + t.x, map[]);
      assert map[][1 := |t.x|] == map[1 := |t.x|];
    } else {
      RingIsPast(t, n - 1);
      Ring.AddRefines(RingAt(t, n - 1), if n == 2 then t.w else if n == 3 then t.y else t.z, PastAt(t, n - 1).log, map[1 := |t.x|]);
    }
  }

  lemma PastIs(t: Talk)
    ensures PastAt(t, 2).log == t.x + t.w && PastAt(t, 3).log == t.x + t.w + t.y
    ensures PastAt(t, 4).log == t.x + t.w + t.y + t.z == t.x + (t.w + t.y + t.z)
  {
    assert PastAt(t, 1).log == t.x;
  }

  lemma RingReplays(t: Talk)
    requires Fits(t)
    ensures Ring.Refines(RingAt(t, 4), PastAt(t, 4).log, map[1 := |t.x|])
    ensures Ring.Exits(RingAt(t, 4), 1) && Ring.Replay(RingAt(t, 4), 1) == t.w + t.y + t.z
  {
    RingIsPast(t, 4);
    PastIs(t);
    var log, pos := PastAt(t, 4).log, map[1 := |t.x|];
    Ring.DivergesIff(RingAt(t, 4), 1, log, pos);
    Ring.ReplayReturns(RingAt(t, 4), 1, log, pos);
    assert log[|t.x|..] == t.w + t.y + t.z;
  }

  // ---- The run ----

  function StepAt(t: Talk, n: nat): Step {
    if n == 0 then NewPeer(1)
    else if n == 1 then NewPane
    else if n == 2 then OpenPane(1, 10, 1, [], true)
    else if n == 3 then Deliver(1, t.x)
    else if n == 4 then Mark(1)
    else if n == 5 then Deliver(1, t.w)
    else if n == 6 then Close(10)
    else if n == 7 then Deliver(1, t.y)
    else if n == 8 then NewPeer(2)
    else if n == 9 then Restore(2, 1)
    else if n == 10 then Reconnect(2, 20, 1, false)
    else if n == 11 then Deliver(1, t.z)
    else ReplayRead(Replay(20, 1, 1))
  }

  function WorldAt(t: Talk, n: nat): World
    requires t.size >= 1
  {
    var seen, got := [] + t.x, [] + t.x + t.w;
    if n == 0 then World(Boot(t.size), map[])
    else if n == 1 then World(Boot(t.size).(peerMarker := map[1 := -1]), map[])
    else if n == 2 then
      World(OnePane(Ring.New(t.size), false, map[], 0, map[], map[1 := -1], 0, multiset{}), map[1 := Past([], map[])])
    else if n == 3 then Here(Ring.New(t.size), Past([], map[]), [], true, -1, 0)
    else if n == 4 then Here(Ring.Add(Ring.New(t.size), t.x), Past(seen, map[]), seen, true, -1, 0)
    else if n == 5 then Here(RingAt(t, 1), PastAt(t, 1), seen, true, 1, 1)
    else if n == 6 then Here(RingAt(t, 2), PastAt(t, 2), got, true, 1, 1)
    else if n == 7 then Here(RingAt(t, 2), PastAt(t, 2), got, false, 1, 1)
    else if n == 8 then Away(RingAt(t, 3), PastAt(t, 3), got, map[1 := 1])
    else if n == 9 then Away(RingAt(t, 3), PastAt(t, 3), got, map[1 := 1, 2 := -1])
    else if n == 10 then Away(RingAt(t, 3), PastAt(t, 3), got, map[1 := 1, 2 := 1])
    else if n == 11 then Back(RingAt(t, 3), PastAt(t, 3), got, [], multiset{Replay(20, 1, 1)})
    else if n == 12 then Back(RingAt(t, 4), PastAt(t, 4), got, [] + t.z, multiset{Replay(20, 1, 1)})
    else Back(Ring.Consume(RingAt(t, 4), 1), Past(PastAt(t, 4).log, map[]), got,
      [] + t.z + (t.w + t.y + t.z), multiset{})
  }

  lemma EarlyMoves(t: Talk, n: nat)
    requires t.size >= 1 && n < 3
    ensures Moves(WorldAt(t, n), StepAt(t, n), WorldAt(t, n + 1))
  {}

  lemma HereMoves(t: Talk, n: nat)
    requires t.size >= 1 && 3 <= n < 7
    ensures Moves(WorldAt(t, n), StepAt(t, n), WorldAt(t, n + 1))
  {
    if n == 3 { HereDelivers(Ring.New(t.size), Past([], map[]), [], -1, 0, t.x); }
    else if n == 4 { HereMarks(Ring.Add(Ring.New(t.size), t.x), [] + t.x, [] + t.x); }
    else if n == 5 { HereDelivers(RingAt(t, 1), PastAt(t, 1), [] + t.x, 1, 1, t.w); }
    else { HereCloses(RingAt(t, 2), PastAt(t, 2), [] + t.x + t.w); }
  }

  lemma AwayMoves(t: Talk, n: nat)
    requires t.size >= 1 && 7 <= n < 11
    ensures Moves(WorldAt(t, n), StepAt(t, n), WorldAt(t, n + 1))
  {
    var got := [] + t.x + t.w;
    if n == 7 { AwayDelivers(RingAt(t, 2), PastAt(t, 2), got, t.y); }
    else if n == 10 { AwayReconnects(RingAt(t, 3), PastAt(t, 3), got); }
    else { AwayRestores(RingAt(t, 3), PastAt(t, 3), got); }
  }

  lemma BackMoves(t: Talk, n: nat)
    requires Fits(t) && 11 <= n < 13
    ensures Moves(WorldAt(t, n), StepAt(t, n), WorldAt(t, n + 1))
  {
    var got := [] + t.x + t.w;
    if n == 11 {
      BackDelivers(RingAt(t, 3), PastAt(t, 3), got, [], multiset{Replay(20, 1, 1)}, t.z);
    } else {
      RingIsPast(t, 4);
      RingReplays(t);
      BackReads(RingAt(t, 4), PastAt(t, 4).log, |t.x|, got, [] + t.z);
    }
  }

  lemma Runs(t: Talk) returns (ws: seq<World>, steps: seq<Step>)
    requires Fits(t)
    ensures |ws| == 14 && |steps| == 13 && Run(ws, steps)
    ensures forall n: nat :: n < 14 ==> ws[n] == WorldAt(t, n)
    ensures forall n: nat :: n < 13 ==> steps[n] == StepAt(t, n)
  {
    ws, steps := seq(14, n requires n >= 0 => WorldAt(t, n)), seq(13, n requires n >= 0 => StepAt(t, n));
    forall n: nat | n < |steps| ensures MovesAt(ws, steps, n) {
      if n < 3 { EarlyMoves(t, n); }
      else if n < 7 { HereMoves(t, n); }
      else if n < 11 { AwayMoves(t, n); }
      else { BackMoves(t, n); }
    }
  }

  // A client sees x, marks, still sees w, leaves, misses y, comes back as another peer,
  // sees z and is then sent all since the mark. For every such talk there is this run.
  lemma VisitHappens(t: Talk) returns (ws: seq<World>, steps: seq<Step>, v: Visit)
    requires Fits(t)
    ensures IsVisit(ws, steps, v) && ws[0].s.size == t.size && !v.byLabel && v.pane == 1
    ensures |steps| == 13 && forall n: nat :: n < 13 ==> steps[n] == StepAt(t, n)
    ensures LogAt(ws, v, |steps|) == t.x + (t.w + t.y + t.z)
    ensures v.dc in ws[|steps|].s.chans && ws[|steps|].s.chans[v.dc].got == t.x + t.w
    ensures v.newDc in ws[|steps|].s.chans && ws[|steps|].s.chans[v.newDc].got == t.z + (t.w + t.y + t.z)
    ensures LengthAt(ws, v, v.mark) == |t.x| && LengthAt(ws, v, v.detach) == |t.x + t.w|
    ensures LengthAt(ws, v, v.reattach) == |t.x + t.w + t.y| && LengthAt(ws, v, v.read) == |t.x + t.w + t.y + t.z|
  {
    ws, steps := Runs(t);
    v := Visit(3, 4, 6, 10, 12, 1, 1, 10, 2, 20, false);
    VisitIs(t, ws, steps, v);
    Lengths(t);
    Heard(t);
  }

  lemma VisitIs(t: Talk, ws: seq<World>, steps: seq<Step>, v: Visit)
    requires t.size >= 1 && |ws| == 14 && |steps| == 13 && Run(ws, steps)
    requires forall n: nat :: n < 14 ==> ws[n] == WorldAt(t, n)
    requires forall n: nat :: n < 13 ==> steps[n] == StepAt(t, n)
    requires v == Visit(3, 4, 6, 10, 12, 1, 1, 10, 2, 20, false)
    ensures IsVisit(ws, steps, v)
  {
    Attaches(t);
    LeftAlone(t);
    assert ws[3] == WorldAt(t, 3) && ws[4] == WorldAt(t, 4) && ws[10] == WorldAt(t, 10);
    assert steps[4] == StepAt(t, 4) && steps[6] == StepAt(t, 6) && steps[10] == StepAt(t, 10) && steps[12] == StepAt(t, 12);
  }

  lemma Attaches(t: Talk)
    requires t.size >= 1
    ensures Attached(WorldAt(t, 3).s, 10, 1, 1) && WorldAt(t, 4).s.lastMarker == 0
    ensures var s := WorldAt(t, 10).s;
      1 in s.panes && s.panes[1].running && 1 !in s.stuck && 2 in s.peerMarker && s.peerMarker[2] == 1
  {
    assert Entries(WorldAt(t, 3).s.clients, 10, 1) == {0};
  }

  lemma LeftAlone(t: Talk)
    ensures forall n: nat :: 3 <= n < 6 ==> LeavesAlone(StepAt(t, n), 10, 1)
    ensures LeavesAlone(StepAt(t, 11), 20, 1)
    ensures forall n: nat :: 4 < n < 12 ==> !Reads(StepAt(t, n), 1, 1)
  {}

  lemma Lengths(t: Talk)
    requires t.size >= 1
    ensures forall n: nat :: 3 <= n < 14 ==> 1 in WorldAt(t, n).past
    ensures WorldAt(t, 4).past[1].log == t.x && WorldAt(t, 6).past[1].log == t.x + t.w
    ensures WorldAt(t, 10).past[1].log == t.x + t.w + t.y && WorldAt(t, 12).past[1].log == t.x + t.w + t.y + t.z
    ensures WorldAt(t, 13).past[1].log == t.x + (t.w + t.y + t.z)
  {
    assert [] + t.x == t.x;
    PastIs(t);
  }

  lemma Heard(t: Talk)
    requires t.size >= 1
    ensures var chans := WorldAt(t, 13).s.chans;
      && 10 in chans && chans[10].got == t.x + t.w
      && 20 in chans && chans[20].got == t.z + (t.w + t.y + t.z)
  {
    assert [] + t.x == t.x && [] + t.z == t.z;
  }

  // The same with the tty and the pipeline in front: non-empty reads x, w, y and z feed it.
  lemma FedVisitHappens(t: Talk)
    returns (ws: seq<World>, steps: seq<Step>, v: Visit, ps: seq<Pipeline.Pipe>, inputs: seq<Pipeline.Step>)
    requires Fits(t) && t.x != [] && t.w != [] && t.y != [] && t.z != []
    ensures IsVisit(ws, steps, v) && EndToEnd.Feeds(ps, inputs, steps, v.pane)
    ensures LengthAt(ws, v, v.read) - LengthAt(ws, v, v.mark) < ws[0].s.size
    ensures EndToEnd.TtyBytes(inputs, |inputs|) == LogAt(ws, v, |steps|)
  {
    ws, steps, v := VisitHappens(t);
    ps, inputs := EndToEnd.SomeFeed([t.x, t.w, t.y, t.z]);
    ChunksAre(t, steps, 13);
    assert [t.x, t.w, t.y, t.z][..4] == [t.x, t.w, t.y, t.z];
    EndToEnd.LogIsTty(ws, steps, ps, inputs, 1);
    EndToEnd.LogIsDelivered(ws, steps, 13, 1);
  }

  function ChunksBefore(n: nat): nat {
    if n < 4 then 0 else if n < 6 then 1 else if n < 8 then 2 else if n < 12 then 3 else 4
  }

  lemma {:induction false} ChunksAre(t: Talk, steps: seq<Step>, n: nat)
    requires n <= |steps| == 13 && forall n: nat :: n < 13 ==> steps[n] == StepAt(t, n)
    ensures EndToEnd.Delivered(steps, n, 1) == [t.x, t.w, t.y, t.z][..ChunksBefore(n)]
  {
    if n > 0 {
      ChunksAre(t, steps, n - 1);
      assert steps[n - 1] == StepAt(t, n - 1);
    }
  }
}
