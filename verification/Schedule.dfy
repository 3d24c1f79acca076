/** The replays that reconnects schedule: none is dropped, invented or read twice, and only a
    stuck buffer holds anybody up. */
module Schedule {
  import Ring
  import opened Panes
  import opened StepSystem
  import opened MarkRestore
  import Ledger

  // A reconnect of a running pane by a peer with a marker schedules one replay.
  function Schedules(s: Server, step: Step): multiset<Replay>
    requires Enabled(s, step)
  {
    if step.Reconnect? && step.pane in s.panes && s.panes[step.pane].running && s.peerMarker[step.peer] != -1
    then multiset{Replay(step.dc, step.pane, s.peerMarker[step.peer])} else multiset{}
  }

  function Starts(step: Step): multiset<Replay> {
    if step.ReplayRead? || step.ReplayHangs? then multiset{step.replay} else multiset{}
  }

  lemma ReconnectSchedules(s: Server, step: Step)
    requires Enabled(s, step) && step.Reconnect?
    ensures Next(s, step).pending == s.pending + Schedules(s, step)
  {}

  lemma StartTakesOff(s: Server, step: Step)
    requires Enabled(s, step) && (step.ReplayRead? || step.ReplayHangs?)
    ensures Next(s, step).pending + Starts(step) == s.pending
  {}

  lemma OthersWait(s: Server, step: Step)
    requires Enabled(s, step) && !step.Reconnect? && !step.ReplayRead? && !step.ReplayHangs?
    ensures Next(s, step).pending == s.pending
  {}

  lemma ReplayStep(s: Server, step: Step)
    requires Enabled(s, step)
    ensures Next(s, step).pending + Starts(step) == s.pending + Schedules(s, step)
  {
    if step.Reconnect? {
      ReconnectSchedules(s, step);
    } else if step.ReplayRead? || step.ReplayHangs? {
      StartTakesOff(s, step);
    } else {
      OthersWait(s, step);
    }
  }

  // All replays scheduled, and all started, in the first n steps.
  ghost function AllScheduled(ws: seq<World>, steps: seq<Step>, n: nat): multiset<Replay>
    requires Run(ws, steps) && n <= |steps|
  {
    if n == 0 then multiset{}
    else
      RunStep(ws, steps, n - 1);
      AllScheduled(ws, steps, n - 1) + Schedules(ws[n - 1].s, steps[n - 1])
  }

  function AllStarted(steps: seq<Step>, n: nat): multiset<Replay>
    requires n <= |steps|
  {
    if n == 0 then multiset{} else AllStarted(steps, n - 1) + Starts(steps[n - 1])
  }

  // Over every run no replay is dropped or started without having been scheduled: those
  // scheduled are those started and those pending.
  lemma {:induction false} ReplayLedger(ws: seq<World>, steps: seq<Step>, n: nat)
    requires Run(ws, steps) && n <= |steps|
    ensures ws[n].s.pending + AllStarted(steps, n) == AllScheduled(ws, steps, n)
  {
    if n > 0 {
      ReplayLedger(ws, steps, n - 1);
      RunStep(ws, steps, n - 1);
      ReplayStep(ws[n - 1].s, steps[n - 1]);
      Balance(ws[n - 1].s.pending, AllStarted(steps, n - 1), AllScheduled(ws, steps, n - 1),
        ws[n].s.pending, Starts(steps[n - 1]), Schedules(ws[n - 1].s, steps[n - 1]));
    }
  }

  lemma Balance<T>(p: multiset<T>, a: multiset<T>, all: multiset<T>, q: multiset<T>, out: multiset<T>, more: multiset<T>)
    requires p + a == all && q + out == p + more
    ensures q + (a + out) == all + more
  {
    assert q + (a + out) == a + (q + out);
    assert a + (p + more) == p + a + more;
  }

  // A scheduled replay waits, as often as it was scheduled, until it is read or hangs.
  lemma {:induction false} ReplayWaits(ws: seq<World>, steps: seq<Step>, t: Replay, from: nat, till: nat)
    requires Run(ws, steps) && from <= till <= |steps|
    requires forall n :: from <= n < till ==> t !in Starts(steps[n])
    ensures ws[from].s.pending[t] <= ws[till].s.pending[t]
    decreases till
  {
    if from < till {
      ReplayWaits(ws, steps, t, from, till - 1);
      RunStep(ws, steps, till - 1);
      ReplayStep(ws[till - 1].s, steps[till - 1]);
      OneLess(ws[till].s.pending, Starts(steps[till - 1]), ws[till - 1].s.pending,
        Schedules(ws[till - 1].s, steps[till - 1]), t);
    }
  }

  lemma OneLess<T>(q: multiset<T>, out: multiset<T>, p: multiset<T>, more: multiset<T>, t: T)
    requires q + out == p + more && t !in out
    ensures p[t] <= q[t]
  {
    assert (q + out)[t] == (p + more)[t];
  }

  // A replay belongs to the one reconnect that opened its channel, so it is scheduled once
  // at most.
  lemma {:induction false} ScheduledOnce(ws: seq<World>, steps: seq<Step>, t: Replay, n: nat)
    requires Run(ws, steps) && n <= |steps|
    ensures AllScheduled(ws, steps, n)[t] <= 1
    ensures t in AllScheduled(ws, steps, n) ==> t.dc in ws[n].s.chans
  {
    if n > 0 {
      ScheduledOnce(ws, steps, t, n - 1);
      RunStep(ws, steps, n - 1);
      ChannelsStay(ws[n - 1].s, steps[n - 1]);
      if t in Schedules(ws[n - 1].s, steps[n - 1]) {
        Ledger.NewStep(ws[n - 1].s, steps[n - 1], t.dc);
      }
    }
  }

  lemma {:induction false} StartedAt(steps: seq<Step>, t: Replay, i: nat, n: nat)
    requires i < n <= |steps| && t in Starts(steps[i])
    ensures AllStarted(steps, n)[t] >= 1
  {
    if i < n - 1 {
      StartedAt(steps, t, i, n - 1);
    }
  }

  // So a replay that has started is not scheduled again, and none is read twice.
  lemma StartedIsOver(ws: seq<World>, steps: seq<Step>, t: Replay, i: nat, j: nat)
    requires Run(ws, steps) && i < j <= |steps| && t in Starts(steps[i])
    ensures t !in ws[j].s.pending
  {
    StartedAt(steps, t, i, j);
    ReplayLedger(ws, steps, j);
    ScheduledOnce(ws, steps, t, j);
    assert AllScheduled(ws, steps, j)[t] == ws[j].s.pending[t] + AllStarted(steps, j)[t];
  }

  lemma ReadOnce(ws: seq<World>, steps: seq<Step>, i: nat, j: nat)
    requires Run(ws, steps) && i < j < |steps| && steps[i].ReplayRead? && steps[j].ReplayRead?
    ensures steps[i].replay != steps[j].replay
  {
    StartedIsOver(ws, steps, steps[i].replay, i, j);
    RunStep(ws, steps, j);
  }

  // ---- Progress ----

  // In every reachable world a stuck buffer is all that can hold anybody up: every started
  // pane can be sent any chunk or waits for its own stuck buffer, every peer's mark
  // completes unless some buffer is stuck, and every pending replay of a pane whose
  // buffer is not stuck is either read or hangs.
  lemma OnlyStuckBuffersBlock(w: World, pane: int, chunk: seq<byte>, peer: int, t: Replay)
    requires Inv(w)
    ensures pane in w.s.panes && w.s.panes[pane].tty ==>
      Known(w, if pane in w.s.stuck then DeliverBlocks(pane, chunk) else Deliver(pane, chunk))
    ensures peer in w.s.peerMarker ==> Known(w, if w.s.stuck != {} then MarkBlocks(peer, {}) else Mark(peer))
    ensures t in w.s.pending && t.pane !in w.s.stuck ==> Known(w, ReplayRead(t)) != Known(w, ReplayHangs(t))
  {
    forall p | p in w.s.panes ensures Ring.Shaped(w.s.panes[p].ring) {
      assert PaneOk(w.s, p, w.s.panes[p], w.past[p]);
    }
  }
}
