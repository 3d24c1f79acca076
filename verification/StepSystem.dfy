/** The agent as a step system: panes, client registry, channels, markers and scheduled
    replays. One step is one control-message handler, one channel-open callback, one
    iteration of a pane's sender, one timer callback or one Kill. */
module StepSystem {
  import Ring
  import opened Panes
  import opened Registry

  type byte = Ring.byte

  // What a data channel has delivered to its remote side so far.
  datatype Channel = Channel(open: bool, got: seq<byte>)

  // A history replay that Restore scheduled on a timer.
  datatype Replay = Replay(dc: int, pane: int, marker: int)

  datatype Server = Server(
    size: nat,
    panes: map<int, Pane>, nextID: nat,
    clients: map<int, Client>, lastID: nat,
    chans: map<int, Channel>,
    peerMarker: map<int, int>, lastMarker: nat,
    pending: multiset<Replay>,
    stuck: set<int>)   // panes whose buffer lock a replay that never ends holds

  datatype Step =
    | NewPeer(peer: int)
    | NewPane
    | OpenPane(peer: int, dc: int, pane: int, sent: seq<byte>, runs: bool)
    | LabelPane(peer: int, dc: int, sent: seq<byte>, runs: bool)
    | Reconnect(peer: int, dc: int, pane: int, byLabel: bool)
    | Deliver(pane: int, chunk: seq<byte>)
    | DeliverBlocks(pane: int, chunk: seq<byte>)
    | Mark(peer: int)
    | MarkBlocks(peer: int, done: set<int>)
    | Restore(peer: int, marker: int)
    | ReplayRead(replay: Replay)
    | ReplayHangs(replay: Replay)
    | Text(dc: int, sent: seq<byte>)
    | Close(dc: int)
    | OnClose(client: Client, victim: int)
    | Kill(pane: int)

  function Boot(size: nat): Server {
    Server(size, map[], 0, map[], 0, map[], map[], 0, multiset{}, {})
  }

  // ---- The operations ----

  predicate Open(chans: map<int, Channel>, dc: int) {
    dc in chans && chans[dc].open
  }

  // Send reaches the remote side only on an open channel.
  function Sent(chans: map<int, Channel>, dc: int, bs: seq<byte>): map<int, Channel> {
    if Open(chans, dc) then chans[dc := chans[dc].(got := chans[dc].got + bs)] else chans
  }

  function Closed(chans: map<int, Channel>, dc: int): map<int, Channel> {
    if dc in chans then chans[dc := chans[dc].(open := false)] else chans
  }

  function FreshPane(id: int, size: nat): Pane {
    Pane(id, false, false, Ring.New(size))
  }

  function AddPane(s: Server): Server {
    s.(nextID := s.nextID + 1, panes := s.panes[s.nextID + 1 := FreshPane(s.nextID + 1, s.size)])
  }

  function Started(p: Pane): Pane {
    p.(tty := true, running := true)
  }

  function Start(s: Server, pane: int): Server
    requires pane in s.panes
  {
    s.(panes := s.panes[pane := Started(s.panes[pane])])
  }

  function Register(s: Server, dc: int, pane: int, peer: int): Server {
    s.(clients := s.clients[s.lastID := Client(dc, pane, peer, s.lastID)], lastID := s.lastID + 1)
  }

  function Opened(s: Server, dc: int, sent: seq<byte>): Server {
    s.(chans := s.chans[dc := Channel(true, sent)])
  }

  function DoOpenPane(s: Server, peer: int, dc: int, pane: int, sent: seq<byte>, runs: bool): Server
    requires pane in s.panes
  {
    var o := Opened(s, dc, sent);
    Register(if runs then Start(o, pane) else o, dc, pane, peer)
  }

  function DoLabelPane(s: Server, peer: int, dc: int, sent: seq<byte>, runs: bool): Server {
    var o := AddPane(Opened(s, dc, sent));
    if runs then Register(Start(o, o.nextID), dc, o.nextID, peer) else o
  }

  // Reconnect registers once; a `>id` label registers the same channel again afterwards.
  function DoReconnect(s: Server, peer: int, dc: int, pane: int, byLabel: bool): Server
    requires peer in s.peerMarker
  {
    var o := Opened(s, dc, []);
    if pane !in s.panes then o
    else if !s.panes[pane].running then o.(chans := Closed(o.chans, dc))
    else DoJoin(o, peer, dc, pane, byLabel)
  }

  function DoJoin(s: Server, peer: int, dc: int, pane: int, byLabel: bool): Server
    requires peer in s.peerMarker
  {
    var r := Register(s, dc, pane, peer);
    var q := if s.peerMarker[peer] == -1 then r
             else r.(pending := r.pending + multiset{Replay(dc, pane, s.peerMarker[peer])});
    if byLabel then Register(q, dc, pane, peer) else q
  }

  function Copies(chunk: seq<byte>, n: nat): seq<byte> {
    if n == 0 then [] else Copies(chunk, n - 1) + chunk
  }

  // Every open channel of the pane gets the chunk once per registration.
  function Multicast(chans: map<int, Channel>, clients: map<int, Client>, pane: int, chunk: seq<byte>): map<int, Channel> {
    map dc | dc in chans ::
      if chans[dc].open then chans[dc].(got := chans[dc].got + Copies(chunk, |Entries(clients, dc, pane)|))
      else chans[dc]
  }

  function NotOpen(chans: map<int, Channel>): int -> bool {
    (dc: int) => !Open(chans, dc)
  }

  function Always(): int -> bool {
    (dc: int) => true
  }

  function DoDeliver(s: Server, pane: int, chunk: seq<byte>): Server
    requires pane in s.panes && Ring.Shaped(s.panes[pane].ring)
  {
    s.(chans := Multicast(s.chans, s.clients, pane, chunk),
       clients := Without(s.clients, pane, NotOpen(s.chans)),
       panes := s.panes[pane := s.panes[pane].(ring := Ring.Add(s.panes[pane].ring, chunk))])
  }

  // The sender serves the channels and then waits for the lock of the buffer.
  function DoDeliverBlocks(s: Server, pane: int, chunk: seq<byte>): Server {
    s.(chans := Multicast(s.chans, s.clients, pane, chunk),
       clients := Without(s.clients, pane, NotOpen(s.chans)))
  }

  function DoMark(s: Server, peer: int): Server
    requires forall p :: p in s.panes ==> Ring.Shaped(s.panes[p].ring)
  {
    var id := s.lastMarker + 1;
    s.(lastMarker := id, peerMarker := s.peerMarker[peer := id],
       panes := map p | p in s.panes :: Marked(s.panes[p], id))
  }

  // A mark that has reached the panes in `done` when it waits for a stuck buffer.
  function DoMarkBlocks(s: Server, peer: int, done: set<int>): Server
    requires forall p :: p in s.panes ==> Ring.Shaped(s.panes[p].ring)
  {
    var id := s.lastMarker + 1;
    s.(lastMarker := id, peerMarker := s.peerMarker[peer := id],
       panes := map p | p in s.panes :: if p in done then Marked(s.panes[p], id) else s.panes[p])
  }

  function Marked(p: Pane, id: int): Pane
    requires Ring.Shaped(p.ring)
  {
    p.(ring := Ring.Mark(p.ring, id))
  }

  function DoReplayRead(s: Server, t: Replay): Server
    requires t.pane in s.panes && Ring.Shaped(s.panes[t.pane].ring) && Ring.Exits(s.panes[t.pane].ring, t.marker)
  {
    var ring := s.panes[t.pane].ring;
    s.(chans := Sent(s.chans, t.dc, Ring.Replay(ring, t.marker)),
       panes := s.panes[t.pane := s.panes[t.pane].(ring := Ring.Consume(ring, t.marker))],
       pending := s.pending - multiset{t})
  }

  function Hangup(chans: map<int, Channel>, clients: map<int, Client>, pane: int): map<int, Channel> {
    map dc | dc in chans ::
      if Entries(clients, dc, pane) != {} then chans[dc].(open := false) else chans[dc]
  }

  function DoKill(s: Server, pane: int): Server
    requires pane in s.panes
  {
    s.(chans := Hangup(s.chans, s.clients, pane),
       clients := Without(s.clients, pane, Always()),
       panes := s.panes[pane := s.panes[pane].(running := false)])
  }

  // ---- Steps ----

  // When a step can happen. A channel opens once, a replay is read when its loop ends,
  // Kill comes from the read loop or the message callback of a started pane.
  predicate Enabled(s: Server, step: Step) {
    match step
    case NewPeer(peer) => peer !in s.peerMarker
    case NewPane => true
    case OpenPane(peer, dc, pane, _, _) => dc !in s.chans && pane in s.panes && !s.panes[pane].tty
    case LabelPane(peer, dc, _, _) => dc !in s.chans
    case Reconnect(peer, dc, _, _) => dc !in s.chans && peer in s.peerMarker
    case Deliver(pane, _) =>
      pane in s.panes && s.panes[pane].tty && pane !in s.stuck && Ring.Shaped(s.panes[pane].ring)
    case DeliverBlocks(pane, _) => pane in s.panes && s.panes[pane].tty && pane in s.stuck
    case Mark(peer) =>
      peer in s.peerMarker && s.stuck == {} && forall p :: p in s.panes ==> Ring.Shaped(s.panes[p].ring)
    case MarkBlocks(peer, done) =>
      && peer in s.peerMarker && s.stuck != {} && done !! s.stuck
      && forall p :: p in s.panes ==> Ring.Shaped(s.panes[p].ring)
    case Restore(peer, _) => peer in s.peerMarker
    case ReplayRead(t) => CanStart(s, t) && Ring.Exits(s.panes[t.pane].ring, t.marker)
    case ReplayHangs(t) => CanStart(s, t) && !Ring.Exits(s.panes[t.pane].ring, t.marker)
    case Text(dc, _) => dc in s.chans
    case Close(dc) => dc in s.chans
    case OnClose(c, victim) =>
      && c.dc in s.chans && !s.chans[c.dc].open
      && (Entries(s.clients, c.dc, c.pane) != {} ==> victim in Entries(s.clients, c.dc, c.pane))
    case Kill(pane) => pane in s.panes && s.panes[pane].tty
  }

  // A scheduled replay that gets the lock of the buffer.
  predicate CanStart(s: Server, t: Replay) {
    t in s.pending && t.pane in s.panes && t.pane !in s.stuck && Ring.Shaped(s.panes[t.pane].ring)
  }

  function Next(s: Server, step: Step): Server
    requires Enabled(s, step)
  {
    match step
    case NewPeer(peer) => s.(peerMarker := s.peerMarker[peer := -1])
    case NewPane => AddPane(s)
    case OpenPane(peer, dc, pane, sent, runs) => DoOpenPane(s, peer, dc, pane, sent, runs)
    case LabelPane(peer, dc, sent, runs) => DoLabelPane(s, peer, dc, sent, runs)
    case Reconnect(peer, dc, pane, byLabel) => DoReconnect(s, peer, dc, pane, byLabel)
    case Deliver(pane, chunk) => DoDeliver(s, pane, chunk)
    case DeliverBlocks(pane, chunk) => DoDeliverBlocks(s, pane, chunk)
    case Mark(peer) => DoMark(s, peer)
    case MarkBlocks(peer, done) => DoMarkBlocks(s, peer, done)
    case Restore(peer, marker) => s.(peerMarker := s.peerMarker[peer := marker])
    case ReplayRead(t) => DoReplayRead(s, t)
    case ReplayHangs(t) => s.(stuck := s.stuck + {t.pane}, pending := s.pending - multiset{t})
    case Text(dc, sent) => s.(chans := Sent(s.chans, dc, sent))
    case Close(dc) => s.(chans := Closed(s.chans, dc))
    case OnClose(c, victim) =>
      if Entries(s.clients, c.dc, c.pane) == {} then s else s.(clients := s.clients - {victim})
    case Kill(pane) => DoKill(s, pane)
  }

  // ---- History ----

  // Of each pane: all output delivered so far, and where it stood at every live mark.
  datatype Past = Past(log: seq<byte>, pos: map<int, nat>)

  datatype World = World(s: Server, past: map<int, Past>)

  ghost predicate Known(w: World, step: Step) {
    w.past.Keys == w.s.panes.Keys && Enabled(w.s, step)
  }

  ghost function Remember(w: World, step: Step): map<int, Past>
    requires Known(w, step)
  {
    match step
    case NewPane => w.past[w.s.nextID + 1 := Past([], map[])]
    case LabelPane(_, _, _, _) => w.past[w.s.nextID + 1 := Past([], map[])]
    case Deliver(pane, chunk) => w.past[pane := w.past[pane].(log := w.past[pane].log + chunk)]
    case Mark(_) =>
      map p | p in w.past :: w.past[p].(pos := w.past[p].pos[w.s.lastMarker + 1 := |w.past[p].log|])
    case MarkBlocks(_, done) =>
      map p | p in w.past ::
        if p in done then w.past[p].(pos := w.past[p].pos[w.s.lastMarker + 1 := |w.past[p].log|]) else w.past[p]
    case ReplayRead(t) =>
      w.past[t.pane := w.past[t.pane].(pos := Ring.Forget(w.past[t.pane].pos, t.marker))]
    case _ => w.past
  }

  ghost function Move(w: World, step: Step): World
    requires Known(w, step)
  {
    World(Next(w.s, step), Remember(w, step))
  }

  // ---- Invariant of every reachable world ----

  ghost predicate PaneOk(s: Server, id: int, p: Pane, past: Past) {
    && 1 <= id <= s.nextID
    && p.id == id
    && p.ring.size == s.size
    && (p.running ==> p.tty)
    && Ring.Refines(p.ring, past.log, past.pos)
  }

  ghost predicate PanesOk(w: World) {
    && w.s.size >= 1
    && w.past.Keys == w.s.panes.Keys
    && forall p :: p in w.s.panes ==> PaneOk(w.s, p, w.s.panes[p], w.past[p])
  }

  // No pane holds a marker that has not been handed out.
  ghost predicate MarkersOk(w: World) {
    forall p, id :: p in w.past && id in w.past[p].pos ==> 1 <= id <= w.s.lastMarker
  }

  // Client ids are fresh, a channel serves one pane, and a stopped pane has no clients.
  ghost predicate ClientsOk(s: Server) {
    && (forall k :: k in s.clients ==>
      && 0 <= k < s.lastID && s.clients[k].id == k
      && s.clients[k].dc in s.chans
      && s.clients[k].pane in s.panes
      && PhaseOf(s.panes[s.clients[k].pane]) != Stopped)
    && (forall j, k :: j in s.clients && k in s.clients && s.clients[j].dc == s.clients[k].dc ==>
      s.clients[j].pane == s.clients[k].pane)
  }

  ghost predicate PendingOk(s: Server) {
    forall t :: t in s.pending ==> t.dc in s.chans && t.pane in s.panes
  }

  ghost predicate Inv(w: World) {
    PanesOk(w) && MarkersOk(w) && ClientsOk(w.s) && PendingOk(w.s)
  }

  lemma BootOk(size: nat)
    requires size >= 1
    ensures Inv(World(Boot(size), map[]))
  {}

  // A step that puts one pane in its place.
  lemma PanePut(w: World, v: World, id: int, p: Pane, past: Past)
    requires PanesOk(w) && v.s.size == w.s.size && v.s.nextID >= w.s.nextID
    requires v.s.panes == w.s.panes[id := p] && v.past == w.past[id := past]
    requires PaneOk(v.s, id, p, past)
    ensures PanesOk(v)
  {
    forall q | q in v.s.panes ensures PaneOk(v.s, q, v.s.panes[q], v.past[q]) {
      if q != id { assert PaneOk(w.s, q, w.s.panes[q], w.past[q]); }
    }
  }

  lemma SamePanes(w: World, v: World)
    requires PanesOk(w) && v.s.size == w.s.size && v.s.nextID == w.s.nextID
    requires v.s.panes == w.s.panes && v.past == w.past
    ensures PanesOk(v)
  {
    forall q | q in v.s.panes ensures PaneOk(v.s, q, v.s.panes[q], v.past[q]) {
      assert PaneOk(w.s, q, w.s.panes[q], w.past[q]);
    }
  }

  // A pane under the next id, running or not.
  lemma NewPanePanes(w: World, v: World, p: Pane)
    requires PanesOk(w) && v.s.size == w.s.size && v.s.nextID == w.s.nextID + 1
    requires p == FreshPane(w.s.nextID + 1, w.s.size) || p == Started(FreshPane(w.s.nextID + 1, w.s.size))
    requires v.s.panes == w.s.panes[w.s.nextID + 1 := p] && v.past == w.past[w.s.nextID + 1 := Past([], map[])]
    ensures PanesOk(v)
  {
    Ring.NewRefines(w.s.size);
    PanePut(w, v, w.s.nextID + 1, p, Past([], map[]));
  }

  lemma LabelPanes(w: World, peer: int, dc: int, sent: seq<byte>, runs: bool)
    requires PanesOk(w) && Known(w, LabelPane(peer, dc, sent, runs))
    ensures PanesOk(Move(w, LabelPane(peer, dc, sent, runs)))
  {
    var v, f := Move(w, LabelPane(peer, dc, sent, runs)), FreshPane(w.s.nextID + 1, w.s.size);
    var p := if runs then Started(f) else f;
    assert v.s.panes == w.s.panes[w.s.nextID + 1 := p];
    NewPanePanes(w, v, p);
  }

  lemma OpenPanes(w: World, peer: int, dc: int, p: int, sent: seq<byte>, runs: bool)
    requires PanesOk(w) && Known(w, OpenPane(peer, dc, p, sent, runs))
    ensures PanesOk(Move(w, OpenPane(peer, dc, p, sent, runs)))
  {
    var v := Move(w, OpenPane(peer, dc, p, sent, runs));
    if runs {
      assert PaneOk(w.s, p, w.s.panes[p], w.past[p]);
      assert v.past == w.past[p := w.past[p]];
      PanePut(w, v, p, Started(w.s.panes[p]), w.past[p]);
    } else {
      SamePanes(w, v);
    }
  }

  lemma DeliverPanes(w: World, p: int, chunk: seq<byte>)
    requires PanesOk(w) && Known(w, Deliver(p, chunk))
    ensures PanesOk(Move(w, Deliver(p, chunk)))
  {
    var v := Move(w, Deliver(p, chunk));
    assert PaneOk(w.s, p, w.s.panes[p], w.past[p]);
    Ring.AddRefines(w.s.panes[p].ring, chunk, w.past[p].log, w.past[p].pos);
    PanePut(w, v, p, v.s.panes[p], v.past[p]);
  }

  lemma ReadPanes(w: World, t: Replay)
    requires PanesOk(w) && Known(w, ReplayRead(t))
    ensures PanesOk(Move(w, ReplayRead(t)))
  {
    var p, v := t.pane, Move(w, ReplayRead(t));
    assert PaneOk(w.s, p, w.s.panes[p], w.past[p]);
    Ring.ConsumeRefines(w.s.panes[p].ring, t.marker, w.past[p].log, w.past[p].pos);
    PanePut(w, v, p, v.s.panes[p], v.past[p]);
  }

  lemma KillPanes(w: World, p: int)
    requires PanesOk(w) && Known(w, Kill(p))
    ensures PanesOk(Move(w, Kill(p)))
  {
    var v := Move(w, Kill(p));
    assert PaneOk(w.s, p, w.s.panes[p], w.past[p]);
    assert v.past == w.past[p := w.past[p]];
    PanePut(w, v, p, v.s.panes[p], w.past[p]);
  }

  lemma ReconnectPanes(w: World, peer: int, dc: int, p: int, byLabel: bool)
    requires PanesOk(w) && Known(w, Reconnect(peer, dc, p, byLabel))
    ensures PanesOk(Move(w, Reconnect(peer, dc, p, byLabel)))
  {
    SamePanes(w, Move(w, Reconnect(peer, dc, p, byLabel)));
  }

  // A mark reaches all panes, or those in `done`.
  lemma MarkPanes(w: World, v: World, done: set<int>)
    requires PanesOk(w) && v.s.size == w.s.size && v.s.nextID == w.s.nextID
    requires v.s.panes.Keys == w.s.panes.Keys && v.past.Keys == w.past.Keys
    requires var id := w.s.lastMarker + 1; forall p :: p in w.s.panes ==>
      && v.s.panes[p] == (if p in done then MarkedPane(w, p, id) else w.s.panes[p])
      && v.past[p] == if p in done then MarkedPast(w, p, id) else w.past[p]
    ensures PanesOk(v)
  {
    forall p | p in v.s.panes ensures PaneOk(v.s, p, v.s.panes[p], v.past[p]) {
      assert PaneOk(w.s, p, w.s.panes[p], w.past[p]);
      Ring.MarkRefines(w.s.panes[p].ring, w.s.lastMarker + 1, w.past[p].log, w.past[p].pos);
    }
  }

  ghost function MarkedPane(w: World, p: int, id: int): Pane
    requires PanesOk(w) && p in w.s.panes
  {
    assert PaneOk(w.s, p, w.s.panes[p], w.past[p]);
    Marked(w.s.panes[p], id)
  }

  ghost function MarkedPast(w: World, p: int, id: int): Past
    requires p in w.past
  {
    w.past[p].(pos := w.past[p].pos[id := |w.past[p].log|])
  }

  lemma MarkingPanes(w: World, step: Step)
    requires PanesOk(w) && Known(w, step) && (step.Mark? || step.MarkBlocks?)
    ensures PanesOk(Move(w, step))
  {
    MarkPanes(w, Move(w, step), if step.Mark? then w.s.panes.Keys else step.done);
  }

  lemma AddedPanes(w: World, step: Step)
    requires PanesOk(w) && Known(w, step) && step.NewPane?
    ensures PanesOk(Move(w, step))
  {
    NewPanePanes(w, Move(w, step), FreshPane(w.s.nextID + 1, w.s.size));
  }

  // Steps that leave panes and their past alone.
  predicate Quiet(step: Step) {
    || step.NewPeer? || step.DeliverBlocks? || step.Restore? || step.ReplayHangs?
    || step.Text? || step.Close? || step.OnClose?
  }

  lemma QuietPanes(w: World, step: Step)
    requires PanesOk(w) && Known(w, step) && Quiet(step)
    ensures PanesOk(Move(w, step))
  {
    SamePanes(w, Move(w, step));
  }

  lemma PanesStep(w: World, step: Step)
    requires PanesOk(w) && Known(w, step)
    ensures PanesOk(Move(w, step))
  {
    match step
    case NewPane => AddedPanes(w, step);
    case OpenPane(peer, dc, p, sent, runs) => OpenPanes(w, peer, dc, p, sent, runs);
    case LabelPane(peer, dc, sent, runs) => LabelPanes(w, peer, dc, sent, runs);
    case Reconnect(peer, dc, p, byLabel) => ReconnectPanes(w, peer, dc, p, byLabel);
    case Deliver(p, chunk) => DeliverPanes(w, p, chunk);
    case Mark(_) => MarkingPanes(w, step);
    case MarkBlocks(_, _) => MarkingPanes(w, step);
    case ReplayRead(t) => ReadPanes(w, t);
    case Kill(p) => KillPanes(w, p);
    case _ => QuietPanes(w, step);
  }

  lemma MarkersStep(w: World, step: Step)
    requires MarkersOk(w) && Known(w, step)
    ensures MarkersOk(Move(w, step))
  {}

  lemma RegisterOk(s: Server, dc: int, pane: int, peer: int)
    requires ClientsOk(s) && dc in s.chans && pane in s.panes && PhaseOf(s.panes[pane]) != Stopped
    requires forall k :: k in s.clients && s.clients[k].dc == dc ==> s.clients[k].pane == pane
    ensures ClientsOk(Register(s, dc, pane, peer))
  {}

  lemma ReconnectOk(s: Server, peer: int, dc: int, pane: int, byLabel: bool)
    requires ClientsOk(s) && dc !in s.chans && peer in s.peerMarker
    ensures ClientsOk(DoReconnect(s, peer, dc, pane, byLabel))
  {
    var o := Opened(s, dc, []);
    if pane in s.panes && s.panes[pane].running {
      RegisterOk(o, dc, pane, peer);
      var r := Register(o, dc, pane, peer);
      var q := if s.peerMarker[peer] == -1 then r
               else r.(pending := r.pending + multiset{Replay(dc, pane, s.peerMarker[peer])});
      if byLabel { RegisterOk(q, dc, pane, peer); }
    }
  }

  lemma OpenPaneOk(s: Server, peer: int, dc: int, pane: int, sent: seq<byte>, runs: bool)
    requires ClientsOk(s) && dc !in s.chans && pane in s.panes && !s.panes[pane].tty
    ensures ClientsOk(DoOpenPane(s, peer, dc, pane, sent, runs))
  {
    var o := Opened(s, dc, sent);
    RegisterOk(if runs then Start(o, pane) else o, dc, pane, peer);
  }

  lemma LabelPaneOk(s: Server, peer: int, dc: int, sent: seq<byte>, runs: bool)
    requires ClientsOk(s) && dc !in s.chans && s.nextID + 1 !in s.panes
    ensures ClientsOk(DoLabelPane(s, peer, dc, sent, runs))
  {
    var o := AddPane(Opened(s, dc, sent));
    if runs { RegisterOk(Start(o, o.nextID), dc, o.nextID, peer); }
  }

  // Steps that only take registrations away.
  lemma FewerClients(s: Server, t: Server)
    requires ClientsOk(s) && t.lastID == s.lastID && s.chans.Keys <= t.chans.Keys && s.panes.Keys <= t.panes.Keys
    requires forall k :: k in t.clients ==> k in s.clients && t.clients[k] == s.clients[k]
    requires forall k :: k in t.clients ==> PhaseOf(t.panes[t.clients[k].pane]) != Stopped
    ensures ClientsOk(t)
  {}

  lemma KillOk(s: Server, pane: int)
    requires ClientsOk(s) && pane in s.panes
    ensures ClientsOk(DoKill(s, pane))
  {
    FewerClients(s, DoKill(s, pane));
  }

  lemma DeliverOk(s: Server, step: Step)
    requires ClientsOk(s) && Enabled(s, step) && (step.Deliver? || step.DeliverBlocks?)
    ensures ClientsOk(Next(s, step))
  {
    FewerClients(s, Next(s, step));
  }

  lemma MarkingOk(s: Server, step: Step)
    requires ClientsOk(s) && Enabled(s, step) && (step.Mark? || step.MarkBlocks?)
    ensures ClientsOk(Next(s, step))
  {
    FewerClients(s, Next(s, step));
  }

  lemma OtherOk(s: Server, step: Step)
    requires ClientsOk(s) && Enabled(s, step) && (Quiet(step) || step.NewPane? || step.ReplayRead?) && !step.DeliverBlocks?
    requires s.nextID + 1 !in s.panes
    ensures ClientsOk(Next(s, step))
  {
    FewerClients(s, Next(s, step));
  }

  lemma ClientsStep(w: World, step: Step)
    requires Inv(w) && Known(w, step)
    ensures ClientsOk(Next(w.s, step))
  {
    var s := w.s;
    forall p | p in s.panes ensures p <= s.nextID {
      assert PaneOk(s, p, s.panes[p], w.past[p]);
    }
    match step
    case OpenPane(peer, dc, pane, sent, runs) => OpenPaneOk(s, peer, dc, pane, sent, runs);
    case LabelPane(peer, dc, sent, runs) => LabelPaneOk(s, peer, dc, sent, runs);
    case Reconnect(peer, dc, pane, byLabel) => ReconnectOk(s, peer, dc, pane, byLabel);
    case Deliver(_, _) => DeliverOk(s, step);
    case DeliverBlocks(_, _) => DeliverOk(s, step);
    case Mark(_) => MarkingOk(s, step);
    case MarkBlocks(_, _) => MarkingOk(s, step);
    case Kill(pane) => KillOk(s, pane);
    case _ => OtherOk(s, step);
  }

  lemma ReconnectPending(s: Server, step: Step)
    requires PendingOk(s) && Enabled(s, step) && step.Reconnect?
    ensures PendingOk(Next(s, step))
  {
    var t := Next(s, step);
    ChannelsStay(s, step);
    forall r | r in t.pending ensures r.dc in t.chans && r.pane in t.panes {
      if r !in s.pending { assert r.dc == step.dc && r.pane == step.pane; }
    }
  }

  // Steps that schedule no replay.
  lemma FewerPending(s: Server, t: Server)
    requires PendingOk(s) && s.chans.Keys <= t.chans.Keys && s.panes.Keys <= t.panes.Keys
    requires forall r :: r in t.pending ==> r in s.pending
    ensures PendingOk(t)
  {}

  lemma PendingStep(w: World, step: Step)
    requires Inv(w) && Known(w, step)
    ensures PendingOk(Next(w.s, step))
  {
    if step.Reconnect? {
      ReconnectPending(w.s, step);
    } else {
      ChannelsStay(w.s, step);
      PanesStay(w.s, step);
      NoneScheduled(w.s, step);
      FewerPending(w.s, Next(w.s, step));
    }
  }

  lemma NoneScheduled(s: Server, step: Step)
    requires Enabled(s, step) && !step.Reconnect?
    ensures forall r :: r in Next(s, step).pending ==> r in s.pending
  {}

  lemma PanesStay(s: Server, step: Step)
    requires Enabled(s, step)
    ensures s.panes.Keys <= Next(s, step).panes.Keys
  {
    match step
    case NewPane =>
    case OpenPane(_, _, _, _, _) =>
    case LabelPane(_, _, _, _) =>
    case Reconnect(_, _, _, _) =>
    case _ =>
  }

  lemma ChannelsStay(s: Server, step: Step)
    requires Enabled(s, step)
    ensures s.chans.Keys <= Next(s, step).chans.Keys
  {
    match step
    case OpenPane(_, _, _, _, _) =>
    case LabelPane(_, _, _, _) =>
    case Reconnect(_, _, _, _) =>
    case Deliver(_, _) =>
    case DeliverBlocks(_, _) =>
    case Kill(_) =>
    case _ =>
  }

  lemma InvStep(w: World, step: Step)
    requires Inv(w) && Known(w, step)
    ensures Inv(Move(w, step)) && Move(w, step).s.size == w.s.size
  {
    PanesStep(w, step);
    MarkersStep(w, step);
    ClientsStep(w, step);
    PendingStep(w, step);
  }
}
