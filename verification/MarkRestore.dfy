/** What every run of the agent keeps, and the mark, detach, reattach, replay protocol. */
module MarkRestore {
  import Iteration
  import Ring
  import opened Panes
  import opened Registry
  import opened StepSystem

  // A run from boot: ws[n] is the world before steps[n].
  ghost predicate Run(ws: seq<World>, steps: seq<Step>) {
    && |ws| == |steps| + 1
    && ws[0].s.size >= 1
    && ws[0] == World(Boot(ws[0].s.size), map[])
    && forall n :: 0 <= n < |steps| ==> MovesAt(ws, steps, n)
  }

  ghost predicate MovesAt(ws: seq<World>, steps: seq<Step>, n: nat)
    requires n < |steps| && |ws| == |steps| + 1
  {
    Moves(ws[n], steps[n], ws[n + 1])
  }

  ghost predicate Moves(w: World, step: Step, v: World) {
    Known(w, step) && v == Move(w, step)
  }

  lemma RunStep(ws: seq<World>, steps: seq<Step>, n: nat)
    requires Run(ws, steps) && n < |steps|
    ensures Moves(ws[n], steps[n], ws[n + 1])
  {
    assert MovesAt(ws, steps, n);
  }

  lemma {:induction false} RunInv(ws: seq<World>, steps: seq<Step>, n: nat)
    requires Run(ws, steps) && n <= |steps|
    ensures Inv(ws[n]) && ws[n].s.size == ws[0].s.size
  {
    if n == 0 {
      BootOk(ws[0].s.size);
    } else {
      RunInv(ws, steps, n - 1);
      RunStep(ws, steps, n - 1);
      InvStep(ws[n - 1], steps[n - 1]);
    }
  }

  // ---- Lifecycle ----

  // A pane goes from idle to running to stopped and never back.
  ghost predicate Onward(p: Phase, q: Phase) {
    p == q || p == Idle || q == Stopped
  }

  lemma PhaseStep(s: Server, step: Step, pane: int)
    requires Enabled(s, step) && pane in s.panes && pane <= s.nextID && (s.panes[pane].running ==> s.panes[pane].tty)
    ensures pane in Next(s, step).panes
    ensures Onward(PhaseOf(s.panes[pane]), PhaseOf(Next(s, step).panes[pane]))
  {
    match step
    case NewPane =>
    case OpenPane(_, _, _, _, _) =>
    case LabelPane(_, _, _, _) =>
    case Deliver(_, _) =>
    case Mark(_) =>
    case MarkBlocks(_, _) =>
    case ReplayRead(_) =>
    case Kill(_) =>
    case _ => assert Next(s, step).panes == s.panes;
  }

  lemma PhaseStepAt(ws: seq<World>, steps: seq<Step>, at: nat, pane: int)
    requires Run(ws, steps) && at < |steps| && pane in ws[at].s.panes
    ensures pane in ws[at + 1].s.panes
    ensures Onward(PhaseOf(ws[at].s.panes[pane]), PhaseOf(ws[at + 1].s.panes[pane]))
  {
    RunInv(ws, steps, at);
    RunStep(ws, steps, at);
    assert PaneOk(ws[at].s, pane, ws[at].s.panes[pane], ws[at].past[pane]);
    PhaseStep(ws[at].s, steps[at], pane);
  }

  lemma {:induction false} PhasesOnward(ws: seq<World>, steps: seq<Step>, pane: int, from: nat, till: nat)
    requires Run(ws, steps) && from <= till <= |steps| && pane in ws[from].s.panes
    ensures pane in ws[till].s.panes
    ensures Onward(PhaseOf(ws[from].s.panes[pane]), PhaseOf(ws[till].s.panes[pane]))
    decreases till
  {
    if from < till {
      PhasesOnward(ws, steps, pane, from, till - 1);
      PhaseStepAt(ws, steps, till - 1, pane);
    }
  }

  // After a Kill the pane stays stopped and never has a client again.
  lemma KillIsFinal(ws: seq<World>, steps: seq<Step>, pane: int, at: nat, later: nat)
    requires Run(ws, steps) && at < later <= |steps| && steps[at] == Kill(pane)
    ensures pane in ws[later].s.panes && PhaseOf(ws[later].s.panes[pane]) == Stopped
    ensures forall k :: k in ws[later].s.clients ==> ws[later].s.clients[k].pane != pane
  {
    RunStep(ws, steps, at);
    PhasesOnward(ws, steps, pane, at + 1, later);
    RunInv(ws, steps, later);
  }

  lemma KillTwice(s: Server, pane: int)
    requires pane in s.panes
    ensures DoKill(DoKill(s, pane), pane) == DoKill(s, pane)
  {
    var t := DoKill(s, pane);
    forall dc ensures Entries(t.clients, dc, pane) == {} {}
    assert Hangup(t.chans, t.clients, pane) == t.chans;
    assert Without(t.clients, pane, Always()) == t.clients;
  }

  // ---- Markers ----

  // A mark hands out an id no pane has, and keeps every marker already there. If it waits
  // for a stuck buffer, the panes in `done` have the marker and the others do not.
  lemma MarkIsFresh(w: World, step: Step, pane: int)
    requires Inv(w) && Known(w, step) && (step.Mark? || step.MarkBlocks?) && pane in w.s.panes
    ensures var id, before, t := w.s.lastMarker + 1, w.s.panes[pane].ring.markers, Next(w.s, step);
      && t.lastMarker == id && t.peerMarker == w.s.peerMarker[step.peer := id]
      && (forall p :: p in w.s.panes ==> id !in w.s.panes[p].ring.markers)
      && t.panes[pane].ring.markers ==
        if step.Mark? || pane in step.done then before[id := |w.past[pane].log| % w.s.size] else before
  {
    forall p | p in w.s.panes ensures w.s.lastMarker + 1 !in w.s.panes[p].ring.markers {
      assert PaneOk(w.s, p, w.s.panes[p], w.past[p]);
      assert w.s.lastMarker + 1 !in w.past[p].pos;
    }
    assert PaneOk(w.s, pane, w.s.panes[pane], w.past[pane]);
  }

  // The steps that say which marker a peer holds, and the marker they give it.
  predicate Gives(step: Step, peer: int) {
    (step.NewPeer? || step.Mark? || step.MarkBlocks? || step.Restore?) && step.peer == peer
  }

  function Given(s: Server, step: Step): int {
    if step.Restore? then step.marker else if step.NewPeer? then -1 else s.lastMarker + 1
  }

  lemma {:induction false} GivenHolds(ws: seq<World>, steps: seq<Step>, peer: int, at: nat, later: nat)
    requires Run(ws, steps) && at < later <= |steps| && Gives(steps[at], peer)
    requires forall n :: at < n < later ==> !Gives(steps[n], peer)
    ensures peer in ws[later].s.peerMarker && ws[later].s.peerMarker[peer] == Given(ws[at].s, steps[at])
    decreases later
  {
    RunStep(ws, steps, later - 1);
    if at + 1 < later {
      GivenHolds(ws, steps, peer, at, later - 1);
      assert !Gives(steps[later - 1], peer);
      HoldsStep(ws[later - 1].s, steps[later - 1], peer);
    }
  }

  lemma HoldsStep(s: Server, step: Step, peer: int)
    requires Enabled(s, step) && peer in s.peerMarker && !Gives(step, peer)
    ensures peer in Next(s, step).peerMarker && Next(s, step).peerMarker[peer] == s.peerMarker[peer]
  {
    match step
    case OpenPane(_, _, _, _, _) =>
    case LabelPane(_, _, _, _) =>
    case Reconnect(_, _, _, _) =>
    case _ =>
  }

  // What a reconnect replays is decided by the peer's last restore or mark before it, over
  // any run: a restore of marker m schedules exactly the replay of m, of -1 none.
  lemma ReconnectReplays(ws: seq<World>, steps: seq<Step>, at: nat, later: nat)
    requires Run(ws, steps) && at < later < |steps| && steps[later].Reconnect? && Gives(steps[at], steps[later].peer)
    requires forall n :: at < n < later ==> !Gives(steps[n], steps[later].peer)
    ensures var s, c, m := ws[later].s, steps[later], Given(ws[at].s, steps[at]);
      ws[later + 1].s.pending == s.pending +
        if c.pane in s.panes && s.panes[c.pane].running && m != -1 then multiset{Replay(c.dc, c.pane, m)} else multiset{}
  {
    GivenHolds(ws, steps, steps[later].peer, at, later);
    RunStep(ws, steps, later);
  }

  // Reading one marker leaves what every other marker of every pane replays.
  lemma ReadLeavesOthers(w: World, t: Replay, pane: int, id: int)
    requires Inv(w) && Known(w, ReplayRead(t)) && pane in w.s.panes
    requires pane != t.pane || id != t.marker
    ensures var before, after := w.s.panes[pane].ring, Next(w.s, ReplayRead(t)).panes[pane].ring;
      && Ring.Exits(after, id) == Ring.Exits(before, id)
      && (Ring.Exits(before, id) ==> Ring.Replay(after, id) == Ring.Replay(before, id))
  {
    if pane == t.pane { Ring.ConsumeLeavesOthers(w.s.panes[pane].ring, t.marker, id); }
  }

  predicate Reads(step: Step, pane: int, id: int) {
    step.ReplayRead? && step.replay.pane == pane && step.replay.marker == id
  }

  lemma MarkStep(w: World, step: Step, v: World, pane: int, id: int)
    requires Inv(w) && Moves(w, step, v) && !Reads(step, pane, id)
    requires pane in w.past && id in w.past[pane].pos
    ensures pane in v.past && id in v.past[pane].pos && v.past[pane].pos[id] == w.past[pane].pos[id]
  {}

  // A scheduled replay that gets the lock either is read or hangs, by the length of the log.
  lemma ReadsOrHangs(w: World, t: Replay)
    requires Inv(w) && CanStart(w.s, t) && t.marker != -1
    ensures var past, size := w.past[t.pane], w.s.size;
      var ends := t.marker !in past.pos
        || (if |past.log| - past.pos[t.marker] < size
            then past.pos[t.marker] == |past.log| || |past.log| % size != 0
            else size == 1 || |past.log| % size != 1);
      && (Enabled(w.s, ReplayRead(t)) <==> ends)
      && (Enabled(w.s, ReplayHangs(t)) <==> !ends)
  {
    Ring.DivergesIff(w.s.panes[t.pane].ring, t.marker, w.past[t.pane].log, w.past[t.pane].pos);
  }

  lemma StuckLog(w: World, step: Step, pane: int)
    requires Known(w, step) && pane in w.s.stuck && pane in w.past && pane <= w.s.nextID
    ensures pane in Remember(w, step) && Remember(w, step)[pane].log == w.past[pane].log
  {}

  lemma StuckStep(w: World, step: Step, pane: int)
    requires Known(w, step) && pane in w.s.stuck && pane in w.past && pane <= w.s.nextID
    ensures pane in Next(w.s, step).stuck && pane in Move(w, step).past
    ensures Move(w, step).past[pane].log == w.past[pane].log
    ensures !step.Mark? && !(step.ReplayRead? && step.replay.pane == pane)
  {
    StuckLog(w, step, pane);
  }

  lemma HangAt(ws: seq<World>, steps: seq<Step>, at: nat)
    requires Run(ws, steps) && at < |steps| && steps[at].ReplayHangs?
    ensures var pane := steps[at].replay.pane;
      && pane in ws[at].past && pane in ws[at + 1].past && pane in ws[at + 1].s.stuck
      && ws[at + 1].past[pane].log == ws[at].past[pane].log
  {
    RunStep(ws, steps, at);
  }

  lemma StuckAt(ws: seq<World>, steps: seq<Step>, at: nat, pane: int)
    requires Run(ws, steps) && at < |steps| && pane in ws[at].s.stuck && pane in ws[at].past
    ensures pane in ws[at + 1].past && pane in ws[at + 1].s.stuck && ws[at + 1].past[pane].log == ws[at].past[pane].log
    ensures !steps[at].Mark? && !(steps[at].ReplayRead? && steps[at].replay.pane == pane)
  {
    RunInv(ws, steps, at);
    RunStep(ws, steps, at);
    assert PaneOk(ws[at].s, pane, ws[at].s.panes[pane], ws[at].past[pane]);
    StuckStep(ws[at], steps[at], pane);
  }

  // The lock that a hung replay never gives back, over runs: nothing is added to that
  // pane's buffer any more, none of its replays is read, and no mark of any peer completes.
  // Which replays hang is what ReadsOrHangs says.
  lemma {:induction false} HangIsForever(ws: seq<World>, steps: seq<Step>, at: nat, later: nat)
    requires Run(ws, steps) && at < later <= |steps| && steps[at].ReplayHangs?
    ensures var pane := steps[at].replay.pane;
      && pane in ws[at].past && pane in ws[later].past && pane in ws[later].s.stuck
      && ws[later].past[pane].log == ws[at].past[pane].log
      && forall n :: at <= n < later ==> !steps[n].Mark? && !(steps[n].ReplayRead? && steps[n].replay.pane == pane)
  {
    if at + 1 == later {
      HangAt(ws, steps, at);
    } else {
      HangIsForever(ws, steps, at, later - 1);
      StuckAt(ws, steps, later - 1, steps[at].replay.pane);
    }
  }

  // A chunk reaches no channel of another pane.
  lemma OtherPanesHearNothing(w: World, pane: int, chunk: seq<byte>, c: int)
    requires Inv(w) && Known(w, Deliver(pane, chunk)) && c in w.s.clients && w.s.clients[c].pane != pane
    ensures var dc, t := w.s.clients[c].dc, Next(w.s, Deliver(pane, chunk));
      c in t.clients && t.chans[dc] == w.s.chans[dc]
  {
    NoEntries(w.s.clients, w.s.clients[c].dc, pane);
  }

  // A marker keeps its position until someone reads it: no later mark takes its id.
  lemma {:induction false} MarkStays(ws: seq<World>, steps: seq<Step>, pane: int, id: int, from: nat, till: nat)
    requires Run(ws, steps) && from <= till <= |steps|
    requires pane in ws[from].past && id in ws[from].past[pane].pos
    requires forall n :: from <= n < till ==> !Reads(steps[n], pane, id)
    ensures pane in ws[till].past && id in ws[till].past[pane].pos
    ensures ws[till].past[pane].pos[id] == ws[from].past[pane].pos[id]
    decreases till
  {
    if from < till {
      MarkStays(ws, steps, pane, id, from, till - 1);
      RunInv(ws, steps, till - 1);
      RunStep(ws, steps, till - 1);
      MarkStep(ws[till - 1], steps[till - 1], ws[till], pane, id);
    }
  }

  // ---- Delivery ----

  function Emitted(step: Step, pane: int, n: nat): seq<byte> {
    if step.Deliver? && step.pane == pane then Copies(step.chunk, n) else []
  }

  // What the steps from `from` until `till` delivered of a pane, n copies of each chunk.
  function Output(steps: seq<Step>, from: nat, till: nat, pane: int, n: nat): seq<byte>
    requires till <= |steps|
  {
    if till <= from then [] else Output(steps, from, till - 1, pane, n) + Emitted(steps[till - 1], pane, n)
  }

  lemma LogStep(w: World, step: Step, v: World, pane: int)
    requires PanesOk(w) && Moves(w, step, v) && pane in w.past
    ensures pane in v.past
    ensures v.past[pane].log == w.past[pane].log + Emitted(step, pane, 1)
  {
    if step.Deliver? {
      assert Copies(step.chunk, 0) == [];
      assert Copies(step.chunk, 1) == step.chunk;
    }
  }

  lemma LogStepAt(ws: seq<World>, steps: seq<Step>, at: nat, pane: int)
    requires Run(ws, steps) && at < |steps| && pane in ws[at].past
    ensures pane in ws[at + 1].past
    ensures ws[at + 1].past[pane].log == ws[at].past[pane].log + Emitted(steps[at], pane, 1)
  {
    RunInv(ws, steps, at);
    RunStep(ws, steps, at);
    LogStep(ws[at], steps[at], ws[at + 1], pane);
  }

  lemma {:induction false} LogIsOutput(ws: seq<World>, steps: seq<Step>, pane: int, from: nat, till: nat)
    requires Run(ws, steps) && from <= till <= |steps| && pane in ws[from].past
    ensures pane in ws[till].past
    ensures ws[till].past[pane].log == ws[from].past[pane].log + Output(steps, from, till, pane, 1)
    decreases till
  {
    if from < till {
      LogIsOutput(ws, steps, pane, from, till - 1);
      LogStepAt(ws, steps, till - 1, pane);
      Regroup(ws[from].past[pane].log, Output(steps, from, till - 1, pane, 1), Emitted(steps[till - 1], pane, 1));
    }
  }

  // Open and registered n times with the pane, whose buffer is not stuck.
  ghost predicate Attached(s: Server, dc: int, pane: int, n: nat) {
    n >= 1 && pane !in s.stuck && Open(s.chans, dc) && |Entries(s.clients, dc, pane)| == n
  }

  // The step neither closes the channel, kills the pane, hangs its buffer, nor sends
  // anything else there.
  predicate LeavesAlone(step: Step, dc: int, pane: int) {
    match step
    case Close(d) => d != dc
    case Kill(p) => p != pane
    case ReplayRead(t) => t.dc != dc
    case ReplayHangs(t) => t.pane != pane
    case Text(d, _) => d != dc
    case _ => true
  }

  lemma AttachedHasPane(s: Server, dc: int, pane: int, n: nat)
    requires ClientsOk(s) && Attached(s, dc, pane, n)
    ensures pane in s.panes
    ensures forall k :: k in s.clients && s.clients[k].dc == dc ==> s.clients[k].pane == pane
  {
    var k := Iteration.Some(Entries(s.clients, dc, pane));
  }

  // How the registry changes in a step: new entries are of new channels, and an entry
  // goes only if its channel is closed or its pane killed.
  ghost predicate ClientsChange(s: Server, step: Step, clients: map<int, Client>) {
    && (forall k :: k in clients ==> (k in s.clients && clients[k] == s.clients[k]) || clients[k].dc !in s.chans)
    && (forall k :: k in s.clients ==>
         (k in clients && clients[k] == s.clients[k])
         || !Open(s.chans, s.clients[k].dc) || step == Kill(s.clients[k].pane))
  }

  lemma OpeningClients(s: Server, step: Step)
    requires ClientsOk(s) && Enabled(s, step) && (step.OpenPane? || step.LabelPane? || step.Reconnect?)
    ensures ClientsChange(s, step, Next(s, step).clients)
  {
    match step
    case OpenPane(_, _, _, _, _) =>
    case LabelPane(_, _, _, _) =>
    case Reconnect(_, _, _, _) =>
  }

  lemma ClientsStepwise(s: Server, step: Step)
    requires ClientsOk(s) && Enabled(s, step)
    ensures ClientsChange(s, step, Next(s, step).clients)
  {
    match step
    case OpenPane(_, _, _, _, _) => OpeningClients(s, step);
    case LabelPane(_, _, _, _) => OpeningClients(s, step);
    case Reconnect(_, _, _, _) => OpeningClients(s, step);
    case Deliver(_, _) =>
    case DeliverBlocks(_, _) =>
    case Kill(_) =>
    case OnClose(_, _) =>
    case _ => assert Next(s, step).clients == s.clients;
  }

  lemma EntriesKept(s: Server, step: Step, dc: int, pane: int, n: nat)
    requires ClientsOk(s) && Enabled(s, step) && Attached(s, dc, pane, n) && LeavesAlone(step, dc, pane)
    ensures Entries(Next(s, step).clients, dc, pane) == Entries(s.clients, dc, pane)
  {
    AttachedHasPane(s, dc, pane, n);
    ClientsStepwise(s, step);
    SameEntries(s.clients, Next(s, step).clients, dc, pane);
  }

  lemma SameEntries(before: map<int, Client>, after: map<int, Client>, dc: int, pane: int)
    requires forall k :: k in before && before[k].dc == dc ==> k in after && after[k] == before[k]
    requires forall k :: k in after && after[k].dc == dc ==> k in before && after[k] == before[k]
    ensures Entries(after, dc, pane) == Entries(before, dc, pane)
  {
    forall k ensures k in Entries(after, dc, pane) <==> k in Entries(before, dc, pane) {}
  }

  lemma NoEntries(clients: map<int, Client>, dc: int, pane: int)
    requires forall k :: k in clients ==> clients[k].dc != dc || clients[k].pane != pane
    ensures Entries(clients, dc, pane) == {}
  {
    forall k ensures k !in Entries(clients, dc, pane) {}
  }

  // Steps that open a channel leave the others as they were.
  lemma OpeningChannels(s: Server, step: Step, dc: int)
    requires Enabled(s, step) && (step.OpenPane? || step.LabelPane? || step.Reconnect?) && dc in s.chans
    ensures dc in Next(s, step).chans && Next(s, step).chans[dc] == s.chans[dc] && Next(s, step).stuck == s.stuck
  {
    match step
    case OpenPane(_, _, _, _, _) =>
    case LabelPane(_, _, _, _) =>
    case Reconnect(_, _, _, _) =>
  }

  lemma DeliverStep(s: Server, step: Step, dc: int, pane: int, n: nat)
    requires ClientsOk(s) && Enabled(s, step) && Attached(s, dc, pane, n) && (step.Deliver? || step.DeliverBlocks?)
    ensures Open(Next(s, step).chans, dc) && pane !in Next(s, step).stuck
    ensures Next(s, step).chans[dc].got == s.chans[dc].got + Emitted(step, pane, n)
  {
    AttachedHasPane(s, dc, pane, n);
    if step.pane != pane { NoEntries(s.clients, dc, step.pane); }
  }

  lemma GotStep(s: Server, step: Step, dc: int, pane: int, n: nat)
    requires ClientsOk(s) && Enabled(s, step) && Attached(s, dc, pane, n) && LeavesAlone(step, dc, pane)
    ensures Open(Next(s, step).chans, dc) && pane !in Next(s, step).stuck
    ensures Next(s, step).chans[dc].got == s.chans[dc].got + Emitted(step, pane, n)
  {
    match step
    case Deliver(_, _) => DeliverStep(s, step, dc, pane, n);
    case DeliverBlocks(_, _) => DeliverStep(s, step, dc, pane, n);
    case OpenPane(_, _, _, _, _) => OpeningChannels(s, step, dc);
    case LabelPane(_, _, _, _) => OpeningChannels(s, step, dc);
    case Reconnect(_, _, _, _) => OpeningChannels(s, step, dc);
    case Kill(p) =>
      AttachedHasPane(s, dc, pane, n);
      NoEntries(s.clients, dc, p);
    case _ =>
  }

  // One step of a run, seen from an attached channel.
  lemma AttachedStep(ws: seq<World>, steps: seq<Step>, at: nat, dc: int, pane: int, n: nat)
    requires Run(ws, steps) && at < |steps|
    requires Attached(ws[at].s, dc, pane, n) && LeavesAlone(steps[at], dc, pane)
    ensures Attached(ws[at + 1].s, dc, pane, n)
    ensures ws[at + 1].s.chans[dc].got == ws[at].s.chans[dc].got + Emitted(steps[at], pane, n)
  {
    RunInv(ws, steps, at);
    RunStep(ws, steps, at);
    GotStep(ws[at].s, steps[at], dc, pane, n);
    EntriesKept(ws[at].s, steps[at], dc, pane, n);
  }

  lemma Regroup(a: seq<byte>, b: seq<byte>, c: seq<byte>)
    ensures a + b + c == a + (b + c)
  {}

  // While a channel is attached and left alone it receives exactly the pane's output,
  // every chunk once per registration.
  lemma {:induction false} ReceivesOutput(ws: seq<World>, steps: seq<Step>, dc: int, pane: int, n: nat, from: nat, till: nat)
    requires Run(ws, steps) && from <= till <= |steps| && Attached(ws[from].s, dc, pane, n)
    requires forall i :: from <= i < till ==> LeavesAlone(steps[i], dc, pane)
    ensures Attached(ws[till].s, dc, pane, n)
    ensures ws[till].s.chans[dc].got == ws[from].s.chans[dc].got + Output(steps, from, till, pane, n)
    decreases till
  {
    if from < till {
      ReceivesOutput(ws, steps, dc, pane, n, from, till - 1);
      assert LeavesAlone(steps[till - 1], dc, pane);
      AttachedStep(ws, steps, till - 1, dc, pane, n);
      Regroup(ws[from].s.chans[dc].got, Output(steps, from, till - 1, pane, n), Emitted(steps[till - 1], pane, n));
    }
  }

  lemma ClosedStep(s: Server, step: Step, dc: int)
    requires Enabled(s, step) && dc in s.chans && !s.chans[dc].open
    ensures dc in Next(s, step).chans && Next(s, step).chans[dc] == s.chans[dc]
  {
    match step
    case OpenPane(_, _, _, _, _) => OpeningChannels(s, step, dc);
    case LabelPane(_, _, _, _) => OpeningChannels(s, step, dc);
    case Reconnect(_, _, _, _) => OpeningChannels(s, step, dc);
    case _ =>
  }

  lemma ClosedStepAt(ws: seq<World>, steps: seq<Step>, at: nat, dc: int)
    requires Run(ws, steps) && at < |steps| && dc in ws[at].s.chans && !ws[at].s.chans[dc].open
    ensures dc in ws[at + 1].s.chans && ws[at + 1].s.chans[dc] == ws[at].s.chans[dc]
  {
    RunStep(ws, steps, at);
    ClosedStep(ws[at].s, steps[at], dc);
  }

  // A closed channel receives nothing more.
  lemma {:induction false} ClosedIsSilent(ws: seq<World>, steps: seq<Step>, dc: int, from: nat, till: nat)
    requires Run(ws, steps) && from <= till <= |steps| && dc in ws[from].s.chans && !ws[from].s.chans[dc].open
    ensures dc in ws[till].s.chans && ws[till].s.chans[dc] == ws[from].s.chans[dc]
    decreases till
  {
    if from < till {
      ClosedIsSilent(ws, steps, dc, from, till - 1);
      ClosedStepAt(ws, steps, till - 1, dc);
    }
  }

  // One registration receives the log itself.
  lemma ReceivesLog(ws: seq<World>, steps: seq<Step>, dc: int, pane: int, from: nat, till: nat)
    requires Run(ws, steps) && from <= till <= |steps| && Attached(ws[from].s, dc, pane, 1)
    requires forall i :: from <= i < till ==> LeavesAlone(steps[i], dc, pane)
    ensures Attached(ws[till].s, dc, pane, 1) && pane in ws[from].past && pane in ws[till].past
    ensures ws[from].past[pane].log <= ws[till].past[pane].log
    ensures ws[till].s.chans[dc].got == ws[from].s.chans[dc].got + ws[till].past[pane].log[|ws[from].past[pane].log|..]
  {
    RunInv(ws, steps, from);
    AttachedHasPane(ws[from].s, dc, pane, 1);
    ReceivesOutput(ws, steps, dc, pane, 1, from, till);
    LogIsOutput(ws, steps, pane, from, till);
  }

  // ---- Mark, detach, reattach, replay ----

  // The five moments of a visit: attached once, marked, channel closed, a new channel
  // reconnected by a peer holding that marker, with a control message or with a `>id`
  // label, and its scheduled replay read.
  datatype Visit = Visit(
    attach: nat, mark: nat, detach: nat, reattach: nat, read: nat,
    pane: int, peer: int, dc: int, newPeer: int, newDc: int, byLabel: bool)

  ghost predicate IsVisit(ws: seq<World>, steps: seq<Step>, v: Visit) {
    && Run(ws, steps)
    && v.attach <= v.mark < v.detach < v.reattach < v.read < |steps|
    && Attached(ws[v.attach].s, v.dc, v.pane, 1)
    && steps[v.mark] == Mark(v.peer)
    && steps[v.detach] == Close(v.dc)
    && steps[v.reattach] == Reconnect(v.newPeer, v.newDc, v.pane, v.byLabel)
    && steps[v.read] == ReplayRead(Replay(v.newDc, v.pane, MarkerOf(ws, v)))
    && v.pane in ws[v.reattach].s.panes && ws[v.reattach].s.panes[v.pane].running && v.pane !in ws[v.reattach].s.stuck
    && v.newPeer in ws[v.reattach].s.peerMarker && ws[v.reattach].s.peerMarker[v.newPeer] == MarkerOf(ws, v)
    && (forall n :: v.attach <= n < v.detach ==> LeavesAlone(steps[n], v.dc, v.pane))
    && (forall n :: v.reattach < n < |steps| && n != v.read ==> LeavesAlone(steps[n], v.newDc, v.pane))
    && (forall n :: v.mark < n < v.read ==> !Reads(steps[n], v.pane, MarkerOf(ws, v)))
  }

  ghost function MarkerOf(ws: seq<World>, v: Visit): int
    requires v.mark < |ws|
  {
    ws[v.mark].s.lastMarker + 1
  }

  // A label registers the new channel twice.
  function Times(v: Visit): nat {
    if v.byLabel then 2 else 1
  }

  // The output of the visited pane before step n.
  ghost function LogAt(ws: seq<World>, v: Visit, n: nat): seq<byte>
    requires n < |ws|
  {
    if v.pane in ws[n].past then ws[n].past[v.pane].log else []
  }

  ghost function LengthAt(ws: seq<World>, v: Visit, n: nat): nat
    requires n < |ws|
  {
    |LogAt(ws, v, n)|
  }

  // The log positions [lo, hi) a replay covers when it is read at length q of a ring of
  // the given size, for a mark made at length m.
  datatype Span = Span(lo: int, hi: int)

  function ReplaySpan(size: nat, q: nat, m: nat): Span
    requires size >= 1
  {
    if q - m < size then Span(m, q)
    else if q % size == 0 then Span(q - size, q)
    else Span(q - size, q - 1)
  }

  lemma SpanIsReturned(size: nat, log: seq<byte>, pos: map<int, nat>, id: int)
    requires size >= 1 && Ring.Within(|log|, pos) && id in pos && id != -1
    ensures var s := ReplaySpan(size, |log|, pos[id]);
      && 0 <= s.lo <= s.hi <= |log|
      && Ring.Returned(size, log, pos, id) == log[s.lo..s.hi]
  {
    var q, m := |log|, pos[id];
    if q - m >= size {
      assert Ring.History(size, log)[q..] == log[q - size..];
      assert q % size != 0 ==> log[q - size..][..size - 1] == log[q - size..q - 1];
    }
  }

  lemma VisitLogs(ws: seq<World>, steps: seq<Step>, v: Visit, n: nat, later: nat)
    requires IsVisit(ws, steps, v) && v.attach <= n <= later < |ws|
    ensures v.pane in ws[n].past && LogAt(ws, v, n) <= LogAt(ws, v, later)
  {
    RunInv(ws, steps, v.attach);
    AttachedHasPane(ws[v.attach].s, v.dc, v.pane, 1);
    LogIsOutput(ws, steps, v.pane, v.attach, n);
    LogIsOutput(ws, steps, v.pane, n, later);
  }

  // The marker still stands at its position when the replay reads it.
  lemma VisitMarker(ws: seq<World>, steps: seq<Step>, v: Visit)
    requires IsVisit(ws, steps, v)
    ensures v.pane in ws[v.read].past && MarkerOf(ws, v) in ws[v.read].past[v.pane].pos
    ensures ws[v.read].past[v.pane].pos[MarkerOf(ws, v)] == LengthAt(ws, v, v.mark)
  {
    VisitLogs(ws, steps, v, v.mark, v.mark);
    RunStep(ws, steps, v.mark);
    MarkStays(ws, steps, v.pane, MarkerOf(ws, v), v.mark + 1, v.read);
  }

  lemma OldChannel(ws: seq<World>, steps: seq<Step>, v: Visit)
    requires IsVisit(ws, steps, v)
    ensures v.dc in ws[v.attach].s.chans && v.dc in ws[|steps|].s.chans
    ensures LengthAt(ws, v, v.attach) <= LengthAt(ws, v, v.detach)
    ensures ws[|steps|].s.chans[v.dc].got
      == ws[v.attach].s.chans[v.dc].got + LogAt(ws, v, v.detach)[LengthAt(ws, v, v.attach)..]
  {
    ReceivesLog(ws, steps, v.dc, v.pane, v.attach, v.detach);
    RunStep(ws, steps, v.detach);
    ClosedIsSilent(ws, steps, v.dc, v.detach + 1, |steps|);
  }

  lemma AttachedByReconnect(ws: seq<World>, steps: seq<Step>, v: Visit)
    requires IsVisit(ws, steps, v)
    ensures Attached(ws[v.reattach + 1].s, v.newDc, v.pane, Times(v))
    ensures ws[v.reattach + 1].s.chans[v.newDc].got == []
  {
    RunStep(ws, steps, v.reattach);
    RunInv(ws, steps, v.reattach);
    var s, t := ws[v.reattach].s, ws[v.reattach + 1].s;
    var one := s.clients[s.lastID := Client(v.newDc, v.pane, v.newPeer, s.lastID)];
    NoEntries(s.clients, v.newDc, v.pane);
    assert Entries(one, v.newDc, v.pane) == {s.lastID};
    if v.byLabel {
      assert t.clients == one[s.lastID + 1 := Client(v.newDc, v.pane, v.newPeer, s.lastID + 1)];
      assert Entries(t.clients, v.newDc, v.pane) == {s.lastID, s.lastID + 1};
    } else {
      assert t.clients == one;
    }
  }

  // The replay read sends what the ring returns, and nothing else.
  lemma AttachedThroughRead(ws: seq<World>, steps: seq<Step>, v: Visit)
    requires IsVisit(ws, steps, v) && Attached(ws[v.read].s, v.newDc, v.pane, Times(v))
    ensures Attached(ws[v.read + 1].s, v.newDc, v.pane, Times(v))
    ensures LogAt(ws, v, v.read + 1) == LogAt(ws, v, v.read)
    ensures var span := ReplaySpan(ws[0].s.size, LengthAt(ws, v, v.read), LengthAt(ws, v, v.mark));
      && 0 <= span.lo <= span.hi <= LengthAt(ws, v, v.read)
      && ws[v.read + 1].s.chans[v.newDc].got
         == ws[v.read].s.chans[v.newDc].got + LogAt(ws, v, v.read)[span.lo..span.hi]
  {
    var w := ws[v.read];
    RunStep(ws, steps, v.read);
    RunInv(ws, steps, v.read);
    VisitMarker(ws, steps, v);
    RunStep(ws, steps, v.mark);
    RunInv(ws, steps, v.mark);
    var past := w.past[v.pane];
    Ring.ReplayReturns(w.s.panes[v.pane].ring, MarkerOf(ws, v), past.log, past.pos);
    SpanIsReturned(w.s.size, past.log, past.pos, MarkerOf(ws, v));
  }

  // What the new channel receives live, on both sides of the replay.
  function Early(steps: seq<Step>, v: Visit, n: nat): seq<byte>
    requires v.read < |steps|
  {
    Output(steps, v.reattach + 1, v.read, v.pane, n)
  }

  function Late(steps: seq<Step>, v: Visit, n: nat): seq<byte> {
    Output(steps, v.read + 1, |steps|, v.pane, n)
  }

  // One copy of the live output is the log on both sides of the read.
  lemma LiveIsLog(ws: seq<World>, steps: seq<Step>, v: Visit)
    requires IsVisit(ws, steps, v)
    ensures var log, r, q := LogAt(ws, v, |steps|), LengthAt(ws, v, v.reattach), LengthAt(ws, v, v.read);
      && r <= q <= |log| && LogAt(ws, v, v.read) == log[..q]
      && Early(steps, v, 1) == log[r..q] && Late(steps, v, 1) == log[q..]
  {
    LogToRead(ws, steps, v);
    LogToEnd(ws, steps, v);
    Tails(LogAt(ws, v, v.reattach), Early(steps, v, 1), Late(steps, v, 1));
  }

  lemma LogToRead(ws: seq<World>, steps: seq<Step>, v: Visit)
    requires IsVisit(ws, steps, v)
    ensures LogAt(ws, v, v.read) == LogAt(ws, v, v.reattach) + Early(steps, v, 1)
  {
    LogAfterReattach(ws, steps, v);
    LogSince(ws, steps, v, v.reattach + 1, v.read);
  }

  lemma LogToEnd(ws: seq<World>, steps: seq<Step>, v: Visit)
    requires IsVisit(ws, steps, v)
    ensures LogAt(ws, v, |steps|) == LogAt(ws, v, v.read) + Late(steps, v, 1)
  {
    LogAfterRead(ws, steps, v);
    LogSince(ws, steps, v, v.read + 1, |steps|);
  }

  lemma LogSince(ws: seq<World>, steps: seq<Step>, v: Visit, n: nat, later: nat)
    requires IsVisit(ws, steps, v) && v.attach <= n <= later <= |steps|
    ensures LogAt(ws, v, later) == LogAt(ws, v, n) + Output(steps, n, later, v.pane, 1)
  {
    VisitLogs(ws, steps, v, n, later);
    LogIsOutput(ws, steps, v.pane, n, later);
  }

  lemma Tails(log: seq<byte>, x: seq<byte>, y: seq<byte>)
    ensures var r, q, all := |log|, |log + x|, log + x + y;
      r <= q <= |all| && log + x == all[..q] && x == all[r..q] && y == all[q..]
  {}

  lemma LogAfterReattach(ws: seq<World>, steps: seq<Step>, v: Visit)
    requires IsVisit(ws, steps, v)
    ensures LogAt(ws, v, v.reattach + 1) == LogAt(ws, v, v.reattach)
  {
    RunStep(ws, steps, v.reattach);
  }

  lemma LogAfterRead(ws: seq<World>, steps: seq<Step>, v: Visit)
    requires IsVisit(ws, steps, v)
    ensures LogAt(ws, v, v.read + 1) == LogAt(ws, v, v.read)
  {
    VisitLogs(ws, steps, v, v.read, v.read);
    RunStep(ws, steps, v.read);
  }

  lemma LiveBefore(ws: seq<World>, steps: seq<Step>, v: Visit)
    requires IsVisit(ws, steps, v)
    ensures Attached(ws[v.read].s, v.newDc, v.pane, Times(v))
    ensures ws[v.read].s.chans[v.newDc].got == [] + Early(steps, v, Times(v))
  {
    AttachedByReconnect(ws, steps, v);
    ReceivesOutput(ws, steps, v.newDc, v.pane, Times(v), v.reattach + 1, v.read);
  }

  lemma LiveAfter(ws: seq<World>, steps: seq<Step>, v: Visit)
    requires IsVisit(ws, steps, v) && Attached(ws[v.read + 1].s, v.newDc, v.pane, Times(v))
    ensures v.newDc in ws[|steps|].s.chans
    ensures ws[|steps|].s.chans[v.newDc].got == ws[v.read + 1].s.chans[v.newDc].got + Late(steps, v, Times(v))
  {
    ReceivesOutput(ws, steps, v.newDc, v.pane, Times(v), v.read + 1, |steps|);
  }

  lemma NewChannel(ws: seq<World>, steps: seq<Step>, v: Visit)
    requires IsVisit(ws, steps, v)
    ensures v.newDc in ws[|steps|].s.chans
    ensures var log, q := LogAt(ws, v, |steps|), LengthAt(ws, v, v.read);
      var span := ReplaySpan(ws[0].s.size, q, LengthAt(ws, v, v.mark));
      && 0 <= span.lo <= span.hi <= q <= |log|
      && ws[|steps|].s.chans[v.newDc].got
         == Early(steps, v, Times(v)) + log[span.lo..span.hi] + Late(steps, v, Times(v))
  {
    LiveBefore(ws, steps, v);
    AttachedThroughRead(ws, steps, v);
    LiveAfter(ws, steps, v);
    LiveIsLog(ws, steps, v);
    var q := LengthAt(ws, v, v.read);
    Received(LogAt(ws, v, |steps|), q, ReplaySpan(ws[0].s.size, q, LengthAt(ws, v, v.mark)),
      Early(steps, v, Times(v)), Late(steps, v, Times(v)));
  }

  lemma Received(log: seq<byte>, q: nat, span: Span, early: seq<byte>, late: seq<byte>)
    requires q <= |log| && 0 <= span.lo <= span.hi <= q
    ensures [] + early + log[..q][span.lo..span.hi] + late == early + log[span.lo..span.hi] + late
  {
    assert [] + early == early && log[..q][span.lo..span.hi] == log[span.lo..span.hi];
  }

  // Position x reached the client: live before, in the replay, or live after.
  predicate Covered(x: int, d: int, span: Span, r: int) {
    x < d || span.lo <= x < span.hi || r <= x
  }

  // Over every run: what the two channels received, and exactly when that leaves no gap.
  // a, m, d, r, q are the log lengths at attach, mark, detach, reattach and read; after a
  // `>id` label every live chunk comes twice.
  lemma NoGapIff(ws: seq<World>, steps: seq<Step>, v: Visit)
    requires IsVisit(ws, steps, v)
    ensures v.dc in ws[v.attach].s.chans && v.dc in ws[|steps|].s.chans && v.newDc in ws[|steps|].s.chans
    ensures var log, size := LogAt(ws, v, |steps|), ws[0].s.size;
      var a, m, d := LengthAt(ws, v, v.attach), LengthAt(ws, v, v.mark), LengthAt(ws, v, v.detach);
      var r, q := LengthAt(ws, v, v.reattach), LengthAt(ws, v, v.read);
      && a <= m <= d <= r <= q <= |log|
      && var span := ReplaySpan(size, q, m);
      && 0 <= span.lo <= span.hi <= q
      && Early(steps, v, 1) == log[r..q] && Late(steps, v, 1) == log[q..]
      && ws[|steps|].s.chans[v.dc].got == ws[v.attach].s.chans[v.dc].got + log[a..d]
      && ws[|steps|].s.chans[v.newDc].got == Early(steps, v, Times(v)) + log[span.lo..span.hi] + Late(steps, v, Times(v))
      && ((forall x :: a <= x < |log| ==> Covered(x, d, span, r)) <==>
          d == r || q - m < size || (q - size <= d && (q % size == 0 || r < q)))
  {
    OldChannel(ws, steps, v);
    NewChannel(ws, steps, v);
    LiveIsLog(ws, steps, v);
    VisitLogs(ws, steps, v, v.attach, v.mark);
    VisitLogs(ws, steps, v, v.mark, v.detach);
    VisitLogs(ws, steps, v, v.detach, v.reattach);
    VisitLogs(ws, steps, v, v.detach, |steps|);
    var log := LogAt(ws, v, |steps|);
    var a, d := LengthAt(ws, v, v.attach), LengthAt(ws, v, v.detach);
    assert LogAt(ws, v, v.detach)[a..] == log[a..d];
    CoverageIff(ws[0].s.size, a, LengthAt(ws, v, v.mark), d, LengthAt(ws, v, v.reattach), LengthAt(ws, v, v.read), |log|);
  }

  lemma CoverageIff(size: nat, a: nat, m: nat, d: nat, r: nat, q: nat, end: nat)
    requires size >= 1 && a <= m <= d <= r <= q <= end
    ensures var span := ReplaySpan(size, q, m);
      (forall x :: a <= x < end ==> Covered(x, d, span, r)) <==>
      d == r || q - m < size || (q - size <= d && (q % size == 0 || r < q))
  {
    var span := ReplaySpan(size, q, m);
    if d < r {
      assert !Covered(d, d, span, r) || span.lo <= d;
      assert !Covered(r - 1, d, span, r) || r <= span.hi;
    }
  }

  // The client can cut what it received into three parts: live output before the mark
  // and up to the detach, the replay, and live output since the reattach. They overlap in
  // log[m..d] and log[r..q] only, and without the overlaps they are the log from `a` on.
  ghost predicate Reassembles(log: seq<byte>, first: seq<byte>, second: seq<byte>, a: nat, m: nat, d: nat, r: nat, q: nat)
  {
    && a <= m <= d <= r <= q <= |log|
    && |first| == d - a && |second| == |log| - r + q - m
    && first == log[a..d]
    && second[q - r..q - r + q - m] == log[m..q]
    && second[..q - r] + second[q - r + q - m..] == log[r..]
    && first[..m - a] + second[q - r..] == log[a..]
  }

  lemma Reassembly(log: seq<byte>, a: nat, m: nat, d: nat, r: nat, q: nat)
    requires a <= m <= d <= r <= q <= |log|
    ensures log[a..d][..m - a] + log[m..q] + log[q..] == log[a..]
    ensures Reassembles(log, log[a..d], log[r..q] + log[m..q] + log[q..], a, m, d, r, q)
  {
    var second := log[r..q] + log[m..q] + log[q..];
    assert second[q - r..] == log[m..q] + log[q..];
    assert second[..q - r] == log[r..q];
    assert second[q - r + q - m..] == log[q..];
    assert log[a..d][..m - a] + (log[m..q] + log[q..]) == log[a..];
  }

  // Live output up to the mark, the replay log[m..q] and one copy of the live output
  // `late` are the log from `a` on. If the channel is registered once, it has nothing twice
  // but the overlaps.
  ghost predicate NothingLost(log: seq<byte>, first: seq<byte>, second: seq<byte>, late: seq<byte>, once: bool,
    a: nat, m: nat, d: nat, r: nat, q: nat)
  {
    && a <= m <= d <= r <= q <= |log| && first == log[a..d]
    && first[..m - a] + log[m..q] + late == log[a..]
    && (once ==> Reassembles(log, first, second, a, m, d, r, q))
  }

  lemma Parts(log: seq<byte>, before: seq<byte>, got: seq<byte>, second: seq<byte>, early: seq<byte>, late: seq<byte>,
    once: bool, a: nat, m: nat, d: nat, r: nat, q: nat)
    requires a <= m <= d <= r <= q <= |log|
    requires got == before + log[a..d] && early == log[r..q] && late == log[q..]
    requires once ==> second == early + log[m..q] + late
    ensures before <= got && NothingLost(log, got[|before|..], second, late, once, a, m, d, r, q)
  {
    Reassembly(log, a, m, d, r, q);
  }

  // With the marker alive no output is lost, whatever else the agent does meanwhile.
  lemma NoGap(ws: seq<World>, steps: seq<Step>, v: Visit)
    requires IsVisit(ws, steps, v)
    requires LengthAt(ws, v, v.read) - LengthAt(ws, v, v.mark) < ws[0].s.size
    ensures v.dc in ws[v.attach].s.chans && v.dc in ws[|steps|].s.chans && v.newDc in ws[|steps|].s.chans
    ensures ws[v.attach].s.chans[v.dc].got <= ws[|steps|].s.chans[v.dc].got
    ensures NothingLost(LogAt(ws, v, |steps|),
      ws[|steps|].s.chans[v.dc].got[|ws[v.attach].s.chans[v.dc].got|..], ws[|steps|].s.chans[v.newDc].got,
      Late(steps, v, 1), !v.byLabel, LengthAt(ws, v, v.attach), LengthAt(ws, v, v.mark),
      LengthAt(ws, v, v.detach), LengthAt(ws, v, v.reattach), LengthAt(ws, v, v.read))
    ensures ws[|steps|].s.chans[v.newDc].got == Early(steps, v, Times(v))
      + LogAt(ws, v, |steps|)[LengthAt(ws, v, v.mark)..LengthAt(ws, v, v.read)] + Late(steps, v, Times(v))
  {
    NoGapIff(ws, steps, v);
    Parts(LogAt(ws, v, |steps|), ws[v.attach].s.chans[v.dc].got, ws[|steps|].s.chans[v.dc].got,
      ws[|steps|].s.chans[v.newDc].got, Early(steps, v, 1), Late(steps, v, 1), !v.byLabel,
      LengthAt(ws, v, v.attach), LengthAt(ws, v, v.mark), LengthAt(ws, v, v.detach),
      LengthAt(ws, v, v.reattach), LengthAt(ws, v, v.read));
  }
}
