/** The output pipeline of a pane (peers/pane.go): read loops that turn tty reads into
    chunks, the bounded channel between them and the senders, and the order of the chunks. */
module Pipeline {
  import Ring

  type byte = Ring.byte
  type Chunk = seq<byte>

  const OUT_BUF_SIZE := 4096

  datatype Err = NoError | EOF | Failure

  // One result of reading the tty; bytes that come with an error are dropped.
  datatype Read = Read(data: Chunk, err: Err)

  datatype Ending = AtEOF | AtError | TooManyEmpty | Cancelled

  datatype Reader = Reading(empties: nat) | Holding(chunk: Chunk) | Ended(why: Ending)

  // One read of the loop: an empty read is forgiven three times in a row.
  function OnRead(empties: nat, r: Read): Reader {
    if r.err == EOF then Ended(AtEOF)
    else if r.err == Failure then Ended(AtError)
    else if r.data != [] then Holding(r.data)
    else if empties + 1 <= 3 then Reading(empties + 1)
    else Ended(TooManyEmpty)
  }

  // ---- One read loop on its own ----

  predicate Empty(r: Read) {
    r.err == NoError && r.data == []
  }

  // Read number n ends the loop: an error, or the fourth empty read in a row.
  predicate Stops(tty: seq<Read>, n: nat)
    requires n <= |tty|
  {
    && n > 0
    && (tty[n - 1].err != NoError || (n >= 4 && forall i :: n - 4 <= i < n ==> Empty(tty[i])))
  }

  // The chunks among the first n reads.
  function Chunks(tty: seq<Read>, n: nat): seq<Chunk>
    requires n <= |tty|
  {
    if n == 0 then []
    else if tty[n - 1].err == NoError && tty[n - 1].data != [] then Chunks(tty, n - 1) + [tty[n - 1].data]
    else Chunks(tty, n - 1)
  }

  predicate Useful(r: Read) {
    r.err == NoError && r.data != []
  }

  // How many useful reads come before read number n.
  function Rank(tty: seq<Read>, n: nat): nat
    requires n <= |tty|
  {
    if n == 0 then 0 else Rank(tty, n - 1) + if Useful(tty[n - 1]) then 1 else 0
  }

  // out is the data of the useful ones among the first n reads, each at its rank.
  ghost predicate HandsOn(out: seq<Chunk>, tty: seq<Read>, n: nat)
    requires n <= |tty|
  {
    && |out| == Rank(tty, n)
    && forall k :: 0 <= k < n && Useful(tty[k]) ==> Rank(tty, k) < |out| && out[Rank(tty, k)] == tty[k].data
  }

  lemma {:induction false} ChunksHandOn(tty: seq<Read>, n: nat)
    requires n <= |tty|
    ensures HandsOn(Chunks(tty, n), tty, n)
  {
    if n > 0 {
      ChunksHandOn(tty, n - 1);
    }
  }

  // The loop has counted exactly the empty reads at the end of what it has read.
  ghost predicate Counts(tty: seq<Read>, used: nat, empties: nat)
    requires used <= |tty|
  {
    && empties <= 3 && empties <= used
    && (forall i :: used - empties <= i < used ==> Empty(tty[i]))
    && (empties < used ==> !Empty(tty[used - empties - 1]))
  }

  // The read loop as the code runs it, on the reads the tty will give and cancelled
  // before its read number cancelAt. Blocked: all given reads are used up.
  method ReadLoop(tty: seq<Read>, cancelAt: nat) returns (out: seq<Chunk>, used: nat, end: Reader)
    ensures used <= |tty| && used <= cancelAt
    ensures out == Chunks(tty, used) && HandsOn(out, tty, used)
    ensures forall n :: 0 <= n < used ==> !Stops(tty, n)
    ensures match end
      case Ended(AtEOF) => used > 0 && tty[used - 1].err == EOF
      case Ended(AtError) => used > 0 && tty[used - 1].err == Failure
      case Ended(TooManyEmpty) => Stops(tty, used) && tty[used - 1].err == NoError
      case Ended(Cancelled) => used == cancelAt && !Stops(tty, used)
      case Reading(_) => used == |tty| < cancelAt && !Stops(tty, used)
      case Holding(_) => false
  {
    out, used := [], 0;
    var conNull := 0;
    while true
      invariant used <= |tty| && used <= cancelAt
      invariant out == Chunks(tty, used) && HandsOn(out, tty, used)
      invariant forall n :: 0 <= n <= used ==> !Stops(tty, n)
      invariant Counts(tty, used, conNull)
      decreases |tty| - used
    {
      if used == cancelAt {
        return out, used, Ended(Cancelled);
      }
      if used == |tty| {
        return out, used, Reading(conNull);
      }
      var r := tty[used];
      used := used + 1;
      ChunksHandOn(tty, used);
      if r.err == EOF {
        return out, used, Ended(AtEOF);
      }
      if r.err == Failure {
        return out, used, Ended(AtError);
      }
      if |r.data| == 0 {
        conNull := conNull + 1;
        if conNull <= 3 {
          NotYet(tty, used, conNull);
          continue;
        } else {
          return out, used, Ended(TooManyEmpty);
        }
      }
      conNull := 0;
      out := out + [r.data];
    }
  }

  lemma NotYet(tty: seq<Read>, used: nat, empties: nat)
    requires 0 < used <= |tty| && Empty(tty[used - 1]) && Counts(tty, used, empties)
    ensures !Stops(tty, used)
  {
    if used >= 4 {
      assert !Empty(tty[used - empties - 1]);
    }
  }

  // The counter of the loop decides as if it looked back over the reads: it ends exactly
  // on a stopping read, and otherwise keeps counting the empty reads at the end.
  lemma OnReadCounts(tty: seq<Read>, n: nat, empties: nat)
    requires n < |tty| && Counts(tty, n, empties) && !Stops(tty, n)
    ensures var next := OnRead(empties, tty[n]);
      && (next.Ended? <==> Stops(tty, n + 1))
      && (next.Reading? ==> Counts(tty, n + 1, next.empties))
      && (next.Holding? ==> next.chunk == tty[n].data != [] && Counts(tty, n + 1, 0))
  {
    if tty[n].err == NoError && tty[n].data == [] {
      if empties + 1 <= 3 { NotYet(tty, n + 1, empties + 1); }
    } else if tty[n].err == NoError {
      assert !Empty(tty[n]);
    }
  }

  // ---- Read loops, the channel and senders together ----

  datatype Sender = Waiting | Sending(chunk: Chunk) | Gone

  // input: every chunk read so far; buffered: every chunk added to the buffer so far.
  datatype Pipe = Pipe(readers: seq<Reader>, queue: seq<Chunk>, senders: seq<Sender>, buffered: seq<Chunk>, input: seq<Chunk>)

  datatype Step =
    | Spawn
    | TtyRead(i: nat, r: Read)
    | Cancel(i: nat)
    | Enqueue(i: nat)
    | Dequeue(j: nat)
    | AddToBuffer(j: nat)
    | Stop(j: nat)

  // ReadLoop starts its own sender; the add_pane path runs one read loop.
  const ONE_LOOP := Pipe([Reading(0)], [], [Waiting], [], [])

  predicate Enabled(p: Pipe, step: Step) {
    match step
    case Spawn => true
    case TtyRead(i, r) => i < |p.readers| && p.readers[i].Reading?
    case Cancel(i) => i < |p.readers| && p.readers[i].Reading?
    case Enqueue(i) => i < |p.readers| && p.readers[i].Holding? && |p.queue| < OUT_BUF_SIZE
    case Dequeue(j) => j < |p.senders| && p.senders[j].Waiting? && p.queue != []
    case AddToBuffer(j) => j < |p.senders| && p.senders[j].Sending?
    case Stop(j) => j < |p.senders| && p.senders[j].Waiting?
  }

  function Next(p: Pipe, step: Step): Pipe
    requires Enabled(p, step)
  {
    match step
    case Spawn => p.(readers := p.readers + [Reading(0)], senders := p.senders + [Waiting])
    case TtyRead(i, r) =>
      var next := OnRead(p.readers[i].empties, r);
      p.(readers := p.readers[i := next], input := p.input + Held(next))
    case Cancel(i) => p.(readers := p.readers[i := Ended(Cancelled)])
    case Enqueue(i) => p.(readers := p.readers[i := Reading(0)], queue := p.queue + [p.readers[i].chunk])
    case Dequeue(j) => p.(senders := p.senders[j := Sending(p.queue[0])], queue := p.queue[1..])
    case AddToBuffer(j) => p.(senders := p.senders[j := Waiting], buffered := p.buffered + [p.senders[j].chunk])
    case Stop(j) => p.(senders := p.senders[j := Gone])
  }

  function Held(r: Reader): seq<Chunk> {
    if r.Holding? then [r.chunk] else []
  }

  function Carried(s: Sender): seq<Chunk> {
    if s.Sending? then [s.chunk] else []
  }

  function AllHeld(rs: seq<Reader>): multiset<Chunk> {
    if rs == [] then multiset{} else multiset(Held(rs[0])) + AllHeld(rs[1..])
  }

  function AllCarried(ss: seq<Sender>): multiset<Chunk> {
    if ss == [] then multiset{} else multiset(Carried(ss[0])) + AllCarried(ss[1..])
  }

  // No chunk is lost, duplicated or invented, however many loops run.
  ghost predicate Conserves(p: Pipe) {
    && |p.queue| <= OUT_BUF_SIZE
    && multiset(p.buffered) + AllCarried(p.senders) + multiset(p.queue) + AllHeld(p.readers) == multiset(p.input)
  }

  // With one loop the order is kept too.
  ghost predicate InOrder(p: Pipe) {
    && |p.readers| == |p.senders| == 1
    && p.buffered + Carried(p.senders[0]) + p.queue + Held(p.readers[0]) == p.input
  }

  ghost predicate Run(ps: seq<Pipe>, steps: seq<Step>) {
    && |ps| == |steps| + 1
    && ps[0] == ONE_LOOP
    && forall n :: 0 <= n < |steps| ==> MovesAt(ps, steps, n)
  }

  ghost predicate MovesAt(ps: seq<Pipe>, steps: seq<Step>, n: nat)
    requires n < |steps| && |ps| == |steps| + 1
  {
    Moves(ps[n], steps[n], ps[n + 1])
  }

  lemma RunStep(ps: seq<Pipe>, steps: seq<Step>, n: nat)
    requires Run(ps, steps) && n < |steps|
    ensures Moves(ps[n], steps[n], ps[n + 1])
  {
    assert MovesAt(ps, steps, n);
  }

  ghost predicate Moves(p: Pipe, step: Step, q: Pipe) {
    Enabled(p, step) && q == Next(p, step)
  }

  lemma Regroup<T>(h: multiset<T>, a: multiset<T>, x: multiset<T>, b: multiset<T>, y: multiset<T>)
    requires a + x == b + y
    ensures h + a + x == h + b + y
  {
    assert h + a + x == h + (a + x);
    assert h + b + y == h + (b + y);
  }

  lemma Exchange<T>(x: multiset<T>, a: multiset<T>, y: multiset<T>)
    ensures x + a + y == y + a + x
  {}

  lemma {:induction false} ReplaceHeld(rs: seq<Reader>, i: nat, r: Reader)
    requires i < |rs|
    ensures AllHeld(rs[i := r]) + multiset(Held(rs[i])) == AllHeld(rs) + multiset(Held(r))
  {
    var was, rest := rs[i := r], rs[1..];
    var h := multiset(Held(rs[0]));
    assert AllHeld(rs) == h + AllHeld(rest);
    if i == 0 {
      assert was[1..] == rest;
      assert AllHeld(was) == multiset(Held(r)) + AllHeld(rest);
      Exchange(multiset(Held(r)), AllHeld(rest), h);
    } else {
      ReplaceHeld(rest, i - 1, r);
      var now := rest[i - 1 := r];
      assert was[1..] == now && was[0] == rs[0] && rest[i - 1] == rs[i];
      assert AllHeld(was) == h + AllHeld(now);
      Regroup(h, AllHeld(now), multiset(Held(rs[i])), AllHeld(rest), multiset(Held(r)));
    }
  }

  lemma {:induction false} ReplaceCarried(ss: seq<Sender>, j: nat, s: Sender)
    requires j < |ss|
    ensures AllCarried(ss[j := s]) + multiset(Carried(ss[j])) == AllCarried(ss) + multiset(Carried(s))
  {
    var was, rest := ss[j := s], ss[1..];
    var h := multiset(Carried(ss[0]));
    assert AllCarried(ss) == h + AllCarried(rest);
    if j == 0 {
      assert was[1..] == rest;
      assert AllCarried(was) == multiset(Carried(s)) + AllCarried(rest);
      Exchange(multiset(Carried(s)), AllCarried(rest), h);
    } else {
      ReplaceCarried(rest, j - 1, s);
      var now := rest[j - 1 := s];
      assert was[1..] == now && was[0] == ss[0] && rest[j - 1] == ss[j];
      assert AllCarried(was) == h + AllCarried(now);
      Regroup(h, AllCarried(now), multiset(Carried(ss[j])), AllCarried(rest), multiset(Carried(s)));
    }
  }

  lemma {:induction false} SpawnHolds(rs: seq<Reader>)
    ensures AllHeld(rs + [Reading(0)]) == AllHeld(rs)
  {
    if rs == [] {
      assert [Reading(0)][1..] == [];
      assert multiset(Held(Reading(0))) == multiset{};
    } else {
      SpawnHolds(rs[1..]);
      assert (rs + [Reading(0)])[0] == rs[0] && (rs + [Reading(0)])[1..] == rs[1..] + [Reading(0)];
    }
  }

  lemma {:induction false} SpawnCarries(ss: seq<Sender>)
    ensures AllCarried(ss + [Waiting]) == AllCarried(ss)
  {
    if ss == [] {
      assert [Waiting][1..] == [];
      assert multiset(Carried(Waiting)) == multiset{};
    } else {
      SpawnCarries(ss[1..]);
      assert (ss + [Waiting])[0] == ss[0] && (ss + [Waiting])[1..] == ss[1..] + [Waiting];
    }
  }

  // A read either puts a chunk into the reader's hands and the input, or neither.
  lemma ReaderStep(p: Pipe, i: nat, next: Reader)
    requires i < |p.readers| && Enabled(p, Cancel(i)) && Conserves(p)
    ensures Conserves(p.(readers := p.readers[i := next], input := p.input + Held(next)))
  {
    ReplaceHeld(p.readers, i, next);
    var h, x := AllHeld(p.readers), multiset(Held(next));
    assert AllHeld(p.readers[i := next]) == h + x by { assert multiset(Held(p.readers[i])) == multiset{}; }
    assert multiset(p.input + Held(next)) == multiset(p.input) + x;
    var rest := multiset(p.buffered) + AllCarried(p.senders) + multiset(p.queue);
    assert rest + (h + x) == rest + h + x;
  }

  lemma EnqueueStep(p: Pipe, i: nat)
    requires Enabled(p, Enqueue(i)) && Conserves(p)
    ensures Conserves(Next(p, Enqueue(i)))
  {
    var c := p.readers[i].chunk;
    ReplaceHeld(p.readers, i, Reading(0));
    var h := AllHeld(p.readers[i := Reading(0)]);
    assert h + multiset{c} == AllHeld(p.readers) by {
      assert multiset(Held(p.readers[i])) == multiset{c};
      assert multiset(Held(Reading(0))) == multiset{};
    }
    assert multiset(p.queue + [c]) == multiset(p.queue) + multiset{c};
    var rest := multiset(p.buffered) + AllCarried(p.senders);
    assert rest + (multiset(p.queue) + multiset{c}) + h == rest + multiset(p.queue) + (h + multiset{c});
  }

  lemma DequeueStep(p: Pipe, j: nat)
    requires Enabled(p, Dequeue(j)) && Conserves(p)
    ensures Conserves(Next(p, Dequeue(j)))
  {
    var c, rest := p.queue[0], p.queue[1..];
    ReplaceCarried(p.senders, j, Sending(c));
    assert AllCarried(p.senders[j := Sending(c)]) == AllCarried(p.senders) + multiset{c} by {
      assert multiset(Carried(p.senders[j])) == multiset{};
      assert multiset(Carried(Sending(c))) == multiset{c};
    }
    assert p.queue == [c] + rest;
    assert multiset(p.queue) == multiset{c} + multiset(rest);
    var s := AllCarried(p.senders);
    assert multiset(p.buffered) + (s + multiset{c}) + multiset(rest) == multiset(p.buffered) + s + multiset(p.queue);
  }

  lemma AddStep(p: Pipe, j: nat)
    requires Enabled(p, AddToBuffer(j)) && Conserves(p)
    ensures Conserves(Next(p, AddToBuffer(j)))
  {
    var c := p.senders[j].chunk;
    ReplaceCarried(p.senders, j, Waiting);
    var s := AllCarried(p.senders[j := Waiting]);
    assert s + multiset{c} == AllCarried(p.senders) by {
      assert multiset(Carried(p.senders[j])) == multiset{c};
      assert multiset(Carried(Waiting)) == multiset{};
    }
    assert multiset(p.buffered + [c]) == multiset(p.buffered) + multiset{c};
    assert multiset(p.buffered) + multiset{c} + s == multiset(p.buffered) + (s + multiset{c});
  }

  lemma StopStep(p: Pipe, j: nat)
    requires Enabled(p, Stop(j)) && Conserves(p)
    ensures Conserves(Next(p, Stop(j)))
  {
    ReplaceCarried(p.senders, j, Gone);
    assert multiset(Carried(p.senders[j])) == multiset{} == multiset(Carried(Gone));
    assert AllCarried(p.senders[j := Gone]) == AllCarried(p.senders[j := Gone]) + multiset{};
    assert AllCarried(p.senders) == AllCarried(p.senders) + multiset{};
  }

  lemma ConservesStep(p: Pipe, step: Step)
    requires Conserves(p) && Enabled(p, step)
    ensures Conserves(Next(p, step))
  {
    match step
    case Spawn =>
      SpawnHolds(p.readers);
      SpawnCarries(p.senders);
    case TtyRead(i, r) => ReaderStep(p, i, OnRead(p.readers[i].empties, r));
    case Cancel(i) =>
      ReaderStep(p, i, Ended(Cancelled));
      assert p.input + [] == p.input;
    case Enqueue(i) => EnqueueStep(p, i);
    case Dequeue(j) => DequeueStep(p, j);
    case AddToBuffer(j) => AddStep(p, j);
    case Stop(j) => StopStep(p, j);
  }

  lemma {:induction false} ConservedInEveryRun(ps: seq<Pipe>, steps: seq<Step>, n: nat)
    requires Run(ps, steps) && n <= |steps|
    ensures Conserves(ps[n])
  {
    if n > 0 {
      ConservedInEveryRun(ps, steps, n - 1);
      RunStep(ps, steps, n - 1);
      ConservesStep(ps[n - 1], steps[n - 1]);
    }
  }

  // The reads of the first n steps, in order.
  function ReadsOf(steps: seq<Step>, n: nat): seq<Read>
    requires n <= |steps|
  {
    if n == 0 then [] else ReadsOf(steps, n - 1) + if steps[n - 1].TtyRead? then [steps[n - 1].r] else []
  }

  lemma {:induction false} ChunksOfPrefix(tty: seq<Read>, r: Read, n: nat)
    requires n <= |tty|
    ensures Chunks(tty + [r], n) == Chunks(tty, n)
  {
    if n > 0 {
      ChunksOfPrefix(tty, r, n - 1);
    }
  }

  // What goes into the pipe is what the read loop hands on of the same reads.
  lemma {:induction false} InputIsChunks(ps: seq<Pipe>, steps: seq<Step>, n: nat)
    requires Run(ps, steps) && n <= |steps|
    ensures ps[n].input == Chunks(ReadsOf(steps, n), |ReadsOf(steps, n)|)
  {
    if n > 0 {
      InputIsChunks(ps, steps, n - 1);
      RunStep(ps, steps, n - 1);
      var before := ReadsOf(steps, n - 1);
      if steps[n - 1].TtyRead? {
        ChunksOfPrefix(before, steps[n - 1].r, |before|);
      } else {
        assert before + [] == before;
      }
    }
  }

  // ---- Draining ----

  lemma Onward(ps0: seq<Pipe>, steps0: seq<Step>, step: Step) returns (ps: seq<Pipe>, steps: seq<Step>)
    requires Run(ps0, steps0) && Enabled(ps0[|steps0|], step)
    ensures Run(ps, steps) && steps0 < steps && steps == steps0 + [step] && ps[|steps|] == Next(ps0[|steps0|], step)
  {
    ps, steps := Extend(ps0, steps0, step, Next(ps0[|steps0|], step));
  }

  // How far the chunks of one loop and one sender are from the buffer.
  function Distance(p: Pipe): nat
    requires |p.readers| == |p.senders| == 1
  {
    3 * |Held(p.readers[0])| + 2 * |p.queue| + |Carried(p.senders[0])|
  }

  // The step that brings them nearer.
  function Nearer(p: Pipe): Step
    requires |p.readers| == |p.senders| == 1
  {
    if p.senders[0].Sending? then AddToBuffer(0) else if p.queue != [] then Dequeue(0) else Enqueue(0)
  }

  lemma NearerStep(p: Pipe)
    requires |p.readers| == |p.senders| == 1 && !p.senders[0].Gone? && Distance(p) > 0
    ensures var q := Next(p, Nearer(p));
      && Enabled(p, Nearer(p)) && !Nearer(p).Spawn? && !Nearer(p).TtyRead?
      && |q.readers| == |q.senders| == 1 && !q.senders[0].Gone? && Distance(q) < Distance(p) && q.input == p.input
  {}

  lemma {:induction false} DrainFrom(ps0: seq<Pipe>, steps0: seq<Step>) returns (ps: seq<Pipe>, steps: seq<Step>)
    requires Run(ps0, steps0) && InOrder(ps0[|steps0|]) && !ps0[|steps0|].senders[0].Gone?
    ensures Run(ps, steps) && steps0 <= steps
    ensures forall k :: |steps0| <= k < |steps| ==> !steps[k].Spawn? && !steps[k].TtyRead?
    ensures ps[|steps|].buffered == ps[|steps|].input == ps0[|steps0|].input
    decreases Distance(ps0[|steps0|])
  {
    var p := ps0[|steps0|];
    if Distance(p) == 0 {
      ps, steps := ps0, steps0;
    } else {
      NearerStep(p);
      OrderStep(p, Nearer(p));
      var qs, more := Onward(ps0, steps0, Nearer(p));
      ps, steps := DrainFrom(qs, more);
    }
  }

  // On the add_pane path nothing is stuck in the pipe: while its sender lives, every run
  // goes on, without another read, until all that was read is in the buffer, in order.
  lemma CanDrain(ps0: seq<Pipe>, steps0: seq<Step>) returns (ps: seq<Pipe>, steps: seq<Step>)
    requires Run(ps0, steps0) && (forall k :: 0 <= k < |steps0| ==> !steps0[k].Spawn?) && ps0[|steps0|].senders != [Gone]
    ensures Run(ps, steps) && steps0 <= steps
    ensures forall k :: |steps0| <= k < |steps| ==> !steps[k].Spawn? && !steps[k].TtyRead?
    ensures ps[|steps|].buffered == ps[|steps|].input == ps0[|steps0|].input
  {
    OrderedInEveryRun(ps0, steps0, |steps0|);
    ps, steps := DrainFrom(ps0, steps0);
  }

  // On the add_pane path: buffered, in flight, queued and held chunks, in this order, are
  // the chunks read.
  lemma {:induction false} OrderedInEveryRun(ps: seq<Pipe>, steps: seq<Step>, n: nat)
    requires Run(ps, steps) && n <= |steps| && forall k :: 0 <= k < n ==> !steps[k].Spawn?
    ensures InOrder(ps[n])
  {
    if n > 0 {
      OrderedInEveryRun(ps, steps, n - 1);
      RunStep(ps, steps, n - 1);
      OrderStep(ps[n - 1], steps[n - 1]);
    }
  }

  lemma OrderStep(p: Pipe, step: Step)
    requires InOrder(p) && Enabled(p, step) && !step.Spawn?
    ensures InOrder(Next(p, step))
  {
    var q := Next(p, step);
    match step
    case Dequeue(j) => assert p.queue == [p.queue[0]] + p.queue[1..];
    case _ =>
  }

  // A second read loop, as the label path starts, can swap two chunks.
  lemma SecondLoopReorders(a: Chunk, b: Chunk) returns (ps: seq<Pipe>, steps: seq<Step>)
    requires a != [] && b != []
    ensures Run(ps, steps) && ps[|steps|].input == [a, b] && ps[|steps|].buffered == [b, a]
  {
    ps, steps := [ONE_LOOP], [];
    ps, steps := Extend(ps, steps, Spawn, Pipe([Reading(0), Reading(0)], [], [Waiting, Waiting], [], []));
    ps, steps := Extend(ps, steps, TtyRead(0, Read(a, NoError)), Pipe([Holding(a), Reading(0)], [], [Waiting, Waiting], [], [a]));
    ps, steps := Extend(ps, steps, TtyRead(1, Read(b, NoError)), Pipe([Holding(a), Holding(b)], [], [Waiting, Waiting], [], [a, b]));
    ps, steps := Extend(ps, steps, Enqueue(1), Pipe([Holding(a), Reading(0)], [b], [Waiting, Waiting], [], [a, b]));
    ps, steps := Extend(ps, steps, Enqueue(0), Pipe([Reading(0), Reading(0)], [b, a], [Waiting, Waiting], [], [a, b]));
    ps, steps := Extend(ps, steps, Dequeue(0), Pipe([Reading(0), Reading(0)], [a], [Sending(b), Waiting], [], [a, b]));
    ps, steps := Extend(ps, steps, AddToBuffer(0), Pipe([Reading(0), Reading(0)], [a], [Waiting, Waiting], [b], [a, b]));
    ps, steps := Extend(ps, steps, Dequeue(0), Pipe([Reading(0), Reading(0)], [], [Sending(a), Waiting], [b], [a, b]));
    ps, steps := Extend(ps, steps, AddToBuffer(0), Pipe([Reading(0), Reading(0)], [], [Waiting, Waiting], [b, a], [a, b]));
  }

  lemma Extend(ps0: seq<Pipe>, steps0: seq<Step>, step: Step, q: Pipe) returns (ps: seq<Pipe>, steps: seq<Step>)
    requires Run(ps0, steps0) && Moves(ps0[|steps0|], step, q)
    ensures ps == ps0 + [q] && steps == steps0 + [step] && Run(ps, steps) && ps[|steps|] == q
  {
    ps, steps := ps0 + [q], steps0 + [step];
    forall n | 0 <= n < |steps| ensures MovesAt(ps, steps, n) {
      if n < |steps0| { RunStep(ps0, steps0, n); }
    }
  }
}
