/** The books of a run: what every step sends to every channel, which channels it opens and
    closes, how many registrations it leaves and which phase every pane is in. Each is told on
    the step alone, and what channels receive also over all runs. */
module Ledger {
  import Ring
  import opened Panes
  import opened Registry
  import opened StepSystem
  import opened MarkRestore

  // ---- Channels ----

  predicate Opens(step: Step, dc: int) {
    (step.OpenPane? || step.LabelPane? || step.Reconnect?) && step.dc == dc
  }

  // The text a channel is opened with.
  function FirstText(step: Step): seq<byte> {
    if step.OpenPane? || step.LabelPane? then step.sent else []
  }

  // A pane that exists and does not run refuses its reconnects.
  predicate Refuses(s: Server, step: Step) {
    step.Reconnect? && step.pane in s.panes && !s.panes[step.pane].running
  }

  // What an open channel hears in a step: a pane's chunk once per registration, a replay
  // of its own, or a text.
  ghost function Hears(w: World, step: Step, dc: int): seq<byte>
    requires PanesOk(w) && Known(w, step)
  {
    match step
    case Deliver(pane, chunk) => Copies(chunk, |Entries(w.s.clients, dc, pane)|)
    case DeliverBlocks(pane, chunk) => Copies(chunk, |Entries(w.s.clients, dc, pane)|)
    case ReplayRead(t) =>
      assert PaneOk(w.s, t.pane, w.s.panes[t.pane], w.past[t.pane]);
      if t.dc == dc then Ring.Returned(w.s.size, w.past[t.pane].log, w.past[t.pane].pos, t.marker) else []
    case Text(d, sent) => if d == dc then sent else []
    case _ => []
  }

  predicate Closes(s: Server, step: Step, dc: int) {
    step == Close(dc) || (step.Kill? && Entries(s.clients, dc, step.pane) != {})
  }

  lemma ReplayHeard(w: World, t: Replay, dc: int)
    requires PanesOk(w) && Known(w, ReplayRead(t)) && Open(w.s.chans, dc)
    ensures Open(Next(w.s, ReplayRead(t)).chans, dc)
    ensures Next(w.s, ReplayRead(t)).chans[dc].got == w.s.chans[dc].got + Hears(w, ReplayRead(t), dc)
  {
    assert PaneOk(w.s, t.pane, w.s.panes[t.pane], w.past[t.pane]);
    Ring.ReplayReturns(w.s.panes[t.pane].ring, t.marker, w.past[t.pane].log, w.past[t.pane].pos);
  }

  lemma ChunkHeard(w: World, step: Step, dc: int)
    requires PanesOk(w) && Known(w, step) && Open(w.s.chans, dc) && (step.Deliver? || step.DeliverBlocks?)
    ensures Open(Next(w.s, step).chans, dc)
    ensures Next(w.s, step).chans[dc].got == w.s.chans[dc].got + Hears(w, step, dc)
  {}

  lemma OtherHeard(w: World, step: Step, dc: int)
    requires PanesOk(w) && Known(w, step) && Open(w.s.chans, dc)
    requires !step.Deliver? && !step.DeliverBlocks? && !step.ReplayRead?
    requires !step.OpenPane? && !step.LabelPane? && !step.Reconnect?
    ensures dc in Next(w.s, step).chans && Next(w.s, step).chans[dc].open == !Closes(w.s, step, dc)
    ensures Next(w.s, step).chans[dc].got == w.s.chans[dc].got + Hears(w, step, dc)
  {}

  // An open channel gets what it hears and stays open unless the step closes it.
  lemma OpenStep(w: World, step: Step, dc: int)
    requires PanesOk(w) && Known(w, step) && Open(w.s.chans, dc)
    ensures dc in Next(w.s, step).chans && Next(w.s, step).chans[dc].open == !Closes(w.s, step, dc)
    ensures Next(w.s, step).chans[dc].got == w.s.chans[dc].got + Hears(w, step, dc)
  {
    if step.OpenPane? || step.LabelPane? || step.Reconnect? {
      OpeningChannels(w.s, step, dc);
    } else if step.Deliver? || step.DeliverBlocks? {
      ChunkHeard(w, step, dc);
    } else if step.ReplayRead? {
      ReplayHeard(w, step.replay, dc);
    } else {
      OtherHeard(w, step, dc);
    }
  }

  lemma OpenedBy(s: Server, step: Step, dc: int)
    requires Enabled(s, step) && dc !in s.chans && (step.OpenPane? || step.LabelPane? || step.Reconnect?)
    ensures dc in Next(s, step).chans <==> Opens(step, dc)
    ensures Opens(step, dc) ==> Next(s, step).chans[dc] == Channel(!Refuses(s, step), FirstText(step))
  {
    match step
    case OpenPane(_, _, _, _, _) =>
    case LabelPane(_, _, _, _) =>
    case Reconnect(_, _, _, _) =>
  }

  // A channel that no step has opened yet: a new one is open with its first text, unless
  // its pane refuses it.
  lemma NewStep(s: Server, step: Step, dc: int)
    requires Enabled(s, step) && dc !in s.chans
    ensures dc in Next(s, step).chans <==> Opens(step, dc)
    ensures Opens(step, dc) ==> Next(s, step).chans[dc] == Channel(!Refuses(s, step), FirstText(step))
  {
    match step
    case OpenPane(_, _, _, _, _) => OpenedBy(s, step, dc);
    case LabelPane(_, _, _, _) => OpenedBy(s, step, dc);
    case Reconnect(_, _, _, _) => OpenedBy(s, step, dc);
    case _ =>
  }

  // What a channel has delivered, nothing if it was never opened.
  function Got(s: Server, dc: int): seq<byte> {
    if dc in s.chans then s.chans[dc].got else []
  }

  // All that a channel hears in the first n steps.
  ghost function Received(ws: seq<World>, steps: seq<Step>, n: nat, dc: int): seq<byte>
    requires Run(ws, steps) && n <= |steps|
  {
    if n == 0 then []
    else
      RunInv(ws, steps, n - 1);
      RunStep(ws, steps, n - 1);
      var w, step := ws[n - 1], steps[n - 1];
      Received(ws, steps, n - 1, dc) +
        if dc !in w.s.chans && Opens(step, dc) then FirstText(step)
        else if Open(w.s.chans, dc) then Hears(w, step, dc)
        else []
  }

  lemma ReceivedStep(ws: seq<World>, steps: seq<Step>, n: nat, dc: int)
    requires Run(ws, steps) && n < |steps|
    requires Got(ws[n].s, dc) == Received(ws, steps, n, dc)
    ensures Got(ws[n + 1].s, dc) == Received(ws, steps, n + 1, dc)
  {
    RunInv(ws, steps, n);
    RunStep(ws, steps, n);
    if dc !in ws[n].s.chans {
      NewStep(ws[n].s, steps[n], dc);
    } else if ws[n].s.chans[dc].open {
      OpenStep(ws[n], steps[n], dc);
    } else {
      ClosedStep(ws[n].s, steps[n], dc);
    }
  }

  // Over every run a channel has received exactly what the steps sent it while it was open.
  lemma {:induction false} ChannelLedger(ws: seq<World>, steps: seq<Step>, n: nat, dc: int)
    requires Run(ws, steps) && n <= |steps|
    ensures Got(ws[n].s, dc) == Received(ws, steps, n, dc)
  {
    if n > 0 {
      ChannelLedger(ws, steps, n - 1, dc);
      ReceivedStep(ws, steps, n - 1, dc);
    }
  }

  // ---- Registrations ----

  // How many registrations of a channel with a pane a step leaves.
  function Registered(s: Server, step: Step, dc: int, pane: int): int {
    var n := |Entries(s.clients, dc, pane)|;
    match step
    case OpenPane(_, d, p, _, _) => if d == dc && p == pane then n + 1 else n
    case LabelPane(_, d, _, runs) => if runs && d == dc && pane == s.nextID + 1 then n + 1 else n
    case Reconnect(_, d, p, byLabel) =>
      if d == dc && p == pane && p in s.panes && s.panes[p].running then n + (if byLabel then 2 else 1) else n
    case Deliver(p, _) => if p == pane && !Open(s.chans, dc) then 0 else n
    case DeliverBlocks(p, _) => if p == pane && !Open(s.chans, dc) then 0 else n
    case OnClose(c, _) => if c.dc == dc && c.pane == pane && n > 0 then n - 1 else n
    case Kill(p) => if p == pane then 0 else n
    case _ => n
  }

  lemma OneMoreEntry(s: Server, c: int, p: int, peer: int, dc: int, pane: int)
    requires forall k :: k in s.clients ==> k < s.lastID
    ensures var t := Register(s, c, p, peer);
      && |Entries(t.clients, dc, pane)| == |Entries(s.clients, dc, pane)| + (if c == dc && p == pane then 1 else 0)
      && forall k :: k in t.clients ==> k < t.lastID
  {
    var t := Register(s, c, p, peer);
    if c == dc && p == pane {
      assert Entries(t.clients, dc, pane) == Entries(s.clients, dc, pane) + {s.lastID};
    } else {
      assert Entries(t.clients, dc, pane) == Entries(s.clients, dc, pane);
    }
  }

  lemma WithoutEntries(clients: map<int, Client>, p: int, drop: int -> bool, dc: int, pane: int)
    ensures Entries(Without(clients, p, drop), dc, pane) ==
      if p == pane && drop(dc) then {} else Entries(clients, dc, pane)
  {}

  lemma ReconnectRegisters(s: Server, step: Step, dc: int, pane: int)
    requires ClientsOk(s) && Enabled(s, step) && step.Reconnect?
    ensures |Entries(Next(s, step).clients, dc, pane)| == Registered(s, step, dc, pane)
  {
    if step.pane in s.panes && s.panes[step.pane].running {
      var o := Opened(s, step.dc, []);
      OneMoreEntry(o, step.dc, step.pane, step.peer, dc, pane);
      OneMoreEntry(Register(o, step.dc, step.pane, step.peer), step.dc, step.pane, step.peer, dc, pane);
    }
  }

  lemma OpenRegisters(s: Server, step: Step, dc: int, pane: int)
    requires ClientsOk(s) && Enabled(s, step) && (step.OpenPane? || step.LabelPane?)
    ensures |Entries(Next(s, step).clients, dc, pane)| == Registered(s, step, dc, pane)
  {
    var o := Opened(s, step.dc, step.sent);
    match step
    case OpenPane(peer, d, p, _, runs) => OneMoreEntry(if runs then Start(o, p) else o, d, p, peer, dc, pane);
    case LabelPane(peer, d, _, runs) =>
      var q := AddPane(o);
      if runs { OneMoreEntry(Start(q, q.nextID), d, q.nextID, peer, dc, pane); }
  }

  lemma RegistrationStep(s: Server, step: Step, dc: int, pane: int)
    requires ClientsOk(s) && Enabled(s, step)
    ensures |Entries(Next(s, step).clients, dc, pane)| == Registered(s, step, dc, pane)
  {
    match step
    case OpenPane(_, _, _, _, _) => OpenRegisters(s, step, dc, pane);
    case LabelPane(_, _, _, _) => OpenRegisters(s, step, dc, pane);
    case Reconnect(_, _, _, _) => ReconnectRegisters(s, step, dc, pane);
    case Deliver(p, _) => WithoutEntries(s.clients, p, NotOpen(s.chans), dc, pane);
    case DeliverBlocks(p, _) => WithoutEntries(s.clients, p, NotOpen(s.chans), dc, pane);
    case Kill(p) => WithoutEntries(s.clients, p, Always(), dc, pane);
    case OnClose(c, victim) =>
      if victim in Entries(s.clients, c.dc, c.pane) { EntryGone(s.clients, victim, dc, pane); }
    case _ =>
  }

  // ---- Phases ----

  function PhaseAfter(s: Server, step: Step, pane: int): Phase
    requires pane in s.panes
  {
    if step.OpenPane? && step.pane == pane && step.runs then Running
    else if step == Kill(pane) then Stopped
    else PhaseOf(s.panes[pane])
  }

  lemma PhaseChange(s: Server, step: Step, pane: int)
    requires Enabled(s, step) && pane in s.panes && pane <= s.nextID
    ensures pane in Next(s, step).panes && PhaseOf(Next(s, step).panes[pane]) == PhaseAfter(s, step, pane)
  {
    match step
    case NewPane =>
    case OpenPane(_, _, _, _, _) =>
    case LabelPane(_, _, _, _) =>
    case Reconnect(_, _, _, _) =>
    case Deliver(_, _) =>
    case Mark(_) =>
    case MarkBlocks(_, _) =>
    case ReplayRead(_) =>
    case Kill(_) =>
    case _ => assert Next(s, step).panes == s.panes;
  }

  // A pane that is new after a step has the next id and runs only behind a label.
  lemma PaneBorn(s: Server, step: Step, pane: int)
    requires Enabled(s, step) && pane !in s.panes
    ensures pane in Next(s, step).panes <==> (step.NewPane? || step.LabelPane?) && pane == s.nextID + 1
    ensures pane in Next(s, step).panes ==>
      PhaseOf(Next(s, step).panes[pane]) == if step.LabelPane? && step.runs then Running else Idle
  {
    match step
    case NewPane =>
    case OpenPane(_, _, _, _, _) =>
    case LabelPane(_, _, _, _) =>
    case Reconnect(_, _, _, _) =>
    case Deliver(_, _) =>
    case Mark(_) =>
    case MarkBlocks(_, _) =>
    case ReplayRead(_) =>
    case Kill(_) =>
    case _ => assert Next(s, step).panes == s.panes;
  }
}
