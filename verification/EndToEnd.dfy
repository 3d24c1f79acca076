/** From the tty to the client: the output pipeline of a pane joined to the agent. What a
    client holds after a visit is told on the bytes that the pane's read loop has read. */
module EndToEnd {
  import Pipeline
  import opened StepSystem
  import opened MarkRestore

  function Flat(cs: seq<seq<byte>>): seq<byte> {
    if cs == [] then [] else Flat(cs[..|cs| - 1]) + cs[|cs| - 1]
  }

  lemma {:induction false} FlatJoins(xs: seq<seq<byte>>, ys: seq<seq<byte>>)
    ensures Flat(xs + ys) == Flat(xs) + Flat(ys)
  {
    if ys == [] {
      assert xs + ys == xs;
    } else {
      var init := ys[..|ys| - 1];
      FlatJoins(xs, init);
      assert (xs + ys)[..|xs + ys| - 1] == xs + init;
    }
  }

  // ---- Between the two step systems ----

  function Chunk(step: Step, pane: int): seq<seq<byte>> {
    if step.Deliver? && step.pane == pane then [step.chunk] else []
  }

  // The chunks of a pane that the first n steps put into its buffer.
  function Delivered(steps: seq<Step>, n: nat, pane: int): seq<seq<byte>>
    requires n <= |steps|
  {
    if n == 0 then [] else Delivered(steps, n - 1, pane) + Chunk(steps[n - 1], pane)
  }

  // All output of a pane, none if it does not exist.
  ghost function PaneLog(w: World, pane: int): seq<byte> {
    if pane in w.past then w.past[pane].log else []
  }

  lemma PaneLogStep(w: World, step: Step, v: World, pane: int)
    requires PanesOk(w) && Moves(w, step, v)
    ensures PaneLog(v, pane) == PaneLog(w, pane) + Emitted(step, pane, 1)
  {
    if pane in w.past {
      LogStep(w, step, v, pane);
    } else {
      BeforePane(w, step, v, pane);
    }
  }

  // A pane that does not exist has no deliveries and begins with an empty log.
  lemma BeforePane(w: World, step: Step, v: World, pane: int)
    requires PanesOk(w) && Moves(w, step, v) && pane !in w.past
    ensures Emitted(step, pane, 1) == [] && PaneLog(v, pane) == []
  {}

  lemma {:induction false} PaneLogIsOutput(ws: seq<World>, steps: seq<Step>, n: nat, pane: int)
    requires Run(ws, steps) && n <= |steps|
    ensures PaneLog(ws[n], pane) == Output(steps, 0, n, pane, 1)
  {
    if n > 0 {
      PaneLogIsOutput(ws, steps, n - 1, pane);
      RunInv(ws, steps, n - 1);
      RunStep(ws, steps, n - 1);
      PaneLogStep(ws[n - 1], steps[n - 1], ws[n], pane);
    }
  }

  lemma {:induction false} OutputIsDelivered(steps: seq<Step>, n: nat, pane: int)
    requires n <= |steps|
    ensures Output(steps, 0, n, pane, 1) == Flat(Delivered(steps, n, pane))
  {
    if n > 0 {
      OutputIsDelivered(steps, n - 1, pane);
      FlatJoins(Delivered(steps, n - 1, pane), Chunk(steps[n - 1], pane));
      ChunkIsEmitted(steps[n - 1], pane);
    }
  }

  lemma LogIsDelivered(ws: seq<World>, steps: seq<Step>, n: nat, pane: int)
    requires Run(ws, steps) && n <= |steps|
    ensures PaneLog(ws[n], pane) == Flat(Delivered(steps, n, pane))
  {
    PaneLogIsOutput(ws, steps, n, pane);
    OutputIsDelivered(steps, n, pane);
  }

  lemma ChunkIsEmitted(step: Step, pane: int)
    ensures Flat(Chunk(step, pane)) == Emitted(step, pane, 1)
  {
    if Chunk(step, pane) != [] {
      assert Chunk(step, pane)[..0] == [] && Copies(step.chunk, 0) == [];
      assert Copies(step.chunk, 1) == [] + step.chunk;
    }
  }

  // ---- Between the tty and the pipeline ----

  function ReadBytes(step: Pipeline.Step): seq<byte> {
    if step.TtyRead? && step.r.err == Pipeline.NoError then step.r.data else []
  }

  // What the tty gave in the first n steps; bytes that come with an error do not count.
  function TtyBytes(steps: seq<Pipeline.Step>, n: nat): seq<byte>
    requires n <= |steps|
  {
    if n == 0 then [] else TtyBytes(steps, n - 1) + ReadBytes(steps[n - 1])
  }

  lemma {:induction false} InputIsTty(ps: seq<Pipeline.Pipe>, steps: seq<Pipeline.Step>, n: nat)
    requires Pipeline.Run(ps, steps) && n <= |steps|
    ensures Flat(ps[n].input) == TtyBytes(steps, n)
  {
    if n > 0 {
      InputIsTty(ps, steps, n - 1);
      Pipeline.RunStep(ps, steps, n - 1);
      InputStep(ps[n - 1], steps[n - 1]);
    }
  }

  lemma InputStep(p: Pipeline.Pipe, step: Pipeline.Step)
    requires Pipeline.Enabled(p, step)
    ensures Flat(Pipeline.Next(p, step).input) == Flat(p.input) + ReadBytes(step)
  {
    if step.TtyRead? {
      var next := Pipeline.OnRead(p.readers[step.i].empties, step.r);
      FlatJoins(p.input, Pipeline.Held(next));
      assert [step.r.data][..0] == [];
    }
  }

  // What has been read and is not in the buffer yet: in flight, queued or held.
  function Underway(p: Pipeline.Pipe): seq<seq<byte>>
    requires |p.senders| == |p.readers| == 1
  {
    Pipeline.Carried(p.senders[0]) + p.queue + Pipeline.Held(p.readers[0])
  }

  // The agent's deliveries of the pane are what the sender of its one read loop put into
  // the buffer, as on the add_pane path.
  ghost predicate Feeds(ps: seq<Pipeline.Pipe>, inputs: seq<Pipeline.Step>, steps: seq<Step>, pane: int) {
    && Pipeline.Run(ps, inputs)
    && (forall k :: 0 <= k < |inputs| ==> !inputs[k].Spawn?)
    && ps[|inputs|].buffered == Delivered(steps, |steps|, pane)
  }

  // A pane's log and what is under way are together what its tty gave, byte for byte.
  lemma LogIsTty(ws: seq<World>, steps: seq<Step>, ps: seq<Pipeline.Pipe>, inputs: seq<Pipeline.Step>, pane: int)
    requires Run(ws, steps) && Feeds(ps, inputs, steps, pane)
    ensures Pipeline.InOrder(ps[|inputs|])
    ensures PaneLog(ws[|steps|], pane) + Flat(Underway(ps[|inputs|])) == TtyBytes(inputs, |inputs|)
  {
    LogIsDelivered(ws, steps, |steps|, pane);
    BufferedIsTty(ps, inputs);
  }

  lemma BufferedIsTty(ps: seq<Pipeline.Pipe>, inputs: seq<Pipeline.Step>)
    requires Pipeline.Run(ps, inputs) && forall k :: 0 <= k < |inputs| ==> !inputs[k].Spawn?
    ensures Pipeline.InOrder(ps[|inputs|])
    ensures Flat(ps[|inputs|].buffered) + Flat(Underway(ps[|inputs|])) == TtyBytes(inputs, |inputs|)
  {
    Pipeline.OrderedInEveryRun(ps, inputs, |inputs|);
    InputIsTty(ps, inputs, |inputs|);
    InputParts(ps[|inputs|]);
  }

  lemma InputParts(p: Pipeline.Pipe)
    requires Pipeline.InOrder(p)
    ensures Flat(p.buffered) + Flat(Underway(p)) == Flat(p.input)
  {
    var s, h := Pipeline.Carried(p.senders[0]), Pipeline.Held(p.readers[0]);
    assert p.buffered + (s + p.queue + h) == p.buffered + s + p.queue + h;
    FlatJoins(p.buffered, Underway(p));
  }

  // A client that marks, leaves and comes back while its marker lives has all that the
  // tty gave since the first attach, except what has not reached the buffer yet: live
  // output up to the mark, the replay, and one copy of the live output after it.
  lemma ClientSeesTty(ws: seq<World>, steps: seq<Step>, v: Visit, ps: seq<Pipeline.Pipe>, inputs: seq<Pipeline.Step>)
    requires IsVisit(ws, steps, v) && Feeds(ps, inputs, steps, v.pane)
    requires LengthAt(ws, v, v.read) - LengthAt(ws, v, v.mark) < ws[0].s.size
    ensures v.dc in ws[v.attach].s.chans && v.dc in ws[|steps|].s.chans && v.newDc in ws[|steps|].s.chans
    ensures ws[v.attach].s.chans[v.dc].got <= ws[|steps|].s.chans[v.dc].got
    ensures Pipeline.InOrder(ps[|inputs|])
    ensures var tty := TtyBytes(inputs, |inputs|);
      var first := ws[|steps|].s.chans[v.dc].got[|ws[v.attach].s.chans[v.dc].got|..];
      var a, m, q := LengthAt(ws, v, v.attach), LengthAt(ws, v, v.mark), LengthAt(ws, v, v.read);
      && a <= m <= q <= |tty| && m - a <= |first|
      && ws[|steps|].s.chans[v.newDc].got == Early(steps, v, Times(v)) + tty[m..q] + Late(steps, v, Times(v))
      && first[..m - a] + tty[m..q] + Late(steps, v, 1) + Flat(Underway(ps[|inputs|])) == tty[a..]
  {
    NoGap(ws, steps, v);
    VisitLogs(ws, steps, v, v.attach, |steps|);
    VisitLogs(ws, steps, v, |steps|, |steps|);
    LogIsTty(ws, steps, ps, inputs, v.pane);
    var log, rest := LogAt(ws, v, |steps|), Flat(Underway(ps[|inputs|]));
    Slices(log, rest, LengthAt(ws, v, v.attach), LengthAt(ws, v, v.mark), LengthAt(ws, v, v.read));
  }

  lemma Slices(log: seq<byte>, rest: seq<byte>, a: nat, m: nat, q: nat)
    requires a <= m <= q <= |log|
    ensures (log + rest)[m..q] == log[m..q] && (log + rest)[a..] == log[a..] + rest
  {}

  // Any non-empty chunks are what some run of one loop and one sender buffers, with
  // nothing left under way.
  lemma {:induction false} SomeFeed(chunks: seq<seq<byte>>) returns (ps: seq<Pipeline.Pipe>, inputs: seq<Pipeline.Step>)
    requires [] !in chunks
    ensures Pipeline.Run(ps, inputs) && forall k :: 0 <= k < |inputs| ==> !inputs[k].Spawn?
    ensures ps[|inputs|] == Pipeline.Pipe([Pipeline.Reading(0)], [], [Pipeline.Waiting], chunks, chunks)
  {
    if chunks == [] {
      ps, inputs := [Pipeline.ONE_LOOP], [];
    } else {
      var init, c := chunks[..|chunks| - 1], chunks[|chunks| - 1];
      ps, inputs := SomeFeed(init);
      var r, w := Pipeline.Reading(0), Pipeline.Waiting;
      ps, inputs := Pipeline.Extend(ps, inputs, Pipeline.TtyRead(0, Pipeline.Read(c, Pipeline.NoError)),
        Pipeline.Pipe([Pipeline.Holding(c)], [], [w], init, chunks));
      ps, inputs := Pipeline.Extend(ps, inputs, Pipeline.Enqueue(0), Pipeline.Pipe([r], [c], [w], init, chunks));
      ps, inputs := Pipeline.Extend(ps, inputs, Pipeline.Dequeue(0), Pipeline.Pipe([r], [], [Pipeline.Sending(c)], init, chunks));
      ps, inputs := Pipeline.Extend(ps, inputs, Pipeline.AddToBuffer(0), Pipeline.Pipe([r], [], [w], chunks, chunks));
    }
  }
}
