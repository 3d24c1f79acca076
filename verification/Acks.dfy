/** Requests over the control channel and their acks (peers/peer.go): requesters, replies and
    timeouts in any interleaving, sharing one map from message id to a one-slot channel. */
module Acks {

  // What the client sends: an ack names the request it answers; a nack is looked up by
  // its own message id, not by the request it names.
  datatype Message = Ack(ref: int, body: string) | Nack(id: int, ref: int)

  const NACK_BODY := "NACK"

  // The key under which the handlers look for a waiting requester.
  function Key(m: Message): int {
    match m case Ack(ref, _) => ref case Nack(id, _) => id
  }

  function BodyOf(m: Message): string {
    match m case Ack(_, body) => body case Nack(_, _) => NACK_BODY
  }

  // Why SendControlMessageAndWait returns: a reply, message number from, or an error.
  datatype Result = Reply(body: string, from: nat) | TimedOut | NoChannel

  // A requester by its message id: id drawn, channel registered, message sent and waiting,
  // select done and entry not yet deleted, returned; Failed returned early on a send error.
  datatype Requester = Drawn | Registered | Waiting | Leaving(result: Result) | Done(result: Result) | Failed

  // A handler of one received message: it looks the channel up, then puts the body in.
  datatype Handler = Putting(ref: int) | Finished

  datatype Slot = Empty | Full(body: string, from: nat)

  // Message number n of received is handled by handlers[n]. The channel a requester made
  // is slots[ref]; it outlives its entry in acks.
  datatype Peer = Peer(lastRef: nat, requesters: map<int, Requester>, acks: set<int>, slots: map<int, Slot>,
                       received: seq<Message>, handlers: seq<Handler>)

  const FRESH := Peer(0, map[], {}, map[], [], [])

  datatype Step =
    | SendPlain
    | Draw
    | Register(ref: int)
    | SendFails(ref: int)
    | SendOk(ref: int)
    | Receive(m: Message)
    | Put(n: nat)
    | Take(ref: int)
    | Timeout(ref: int)
    | Leave(ref: int)

  predicate Is(p: Peer, ref: int, r: Requester) {
    ref in p.requesters && p.requesters[ref] == r
  }

  predicate Enabled(p: Peer, step: Step) {
    match step
    case SendPlain => true
    case Draw => true
    case Register(ref) => Is(p, ref, Drawn)
    case SendFails(ref) => Is(p, ref, Registered)
    case SendOk(ref) => Is(p, ref, Registered)
    case Receive(m) => true
    case Put(n) => CanPut(p, n)
    case Take(ref) => Is(p, ref, Waiting) && ref in p.slots && p.slots[ref].Full?
    case Timeout(ref) => Is(p, ref, Waiting)
    case Leave(ref) => ref in p.requesters && p.requesters[ref].Leaving?
  }

  predicate CanPut(p: Peer, n: nat) {
    && n < |p.handlers| && n < |p.received|
    && p.handlers[n].Putting?
    && p.handlers[n].ref in p.slots
    && p.slots[p.handlers[n].ref].Empty?
  }

  function Next(p: Peer, step: Step): Peer
    requires Enabled(p, step)
  {
    match step
    case SendPlain => p.(lastRef := p.lastRef + 1)
    case Draw => p.(lastRef := p.lastRef + 1, requesters := p.requesters[p.lastRef + 1 := Drawn])
    case Register(ref) =>
      p.(requesters := p.requesters[ref := Registered], acks := p.acks + {ref}, slots := p.slots[ref := Empty])
    case SendFails(ref) => p.(requesters := p.requesters[ref := Failed])
    case SendOk(ref) => p.(requesters := p.requesters[ref := Waiting])
    case Receive(m) =>
      p.(received := p.received + [m],
         handlers := p.handlers + [if Key(m) in p.acks then Putting(Key(m)) else Finished])
    case Put(n) =>
      p.(slots := p.slots[p.handlers[n].ref := Full(BodyOf(p.received[n]), n)],
         handlers := p.handlers[n := Finished])
    case Take(ref) =>
      p.(requesters := p.requesters[ref := Leaving(Reply(p.slots[ref].body, p.slots[ref].from))],
         slots := p.slots[ref := Empty])
    case Timeout(ref) =>
      p.(requesters := p.requesters[ref := Leaving(if ref in p.acks then TimedOut else NoChannel)])
    case Leave(ref) =>
      p.(requesters := p.requesters[ref := Done(p.requesters[ref].result)], acks := p.acks - {ref})
  }

  ghost predicate Run(ps: seq<Peer>, steps: seq<Step>) {
    && |ps| == |steps| + 1
    && ps[0] == FRESH
    && forall n {:trigger steps[n]} :: 0 <= n < |steps| ==> Moves(ps[n], steps[n], ps[n + 1])
  }

  ghost predicate Moves(p: Peer, step: Step, q: Peer) {
    Enabled(p, step) && q == Next(p, step)
  }

  // ---- Invariant ----

  // The entry of a requester stands from its registration until it leaves, or for good
  // when the send failed.
  predicate Entered(r: Requester) {
    r.Registered? || r.Waiting? || r.Leaving? || r.Failed?
  }

  ghost predicate MapOk(p: Peer) {
    && (forall ref :: ref in p.requesters ==> 1 <= ref <= p.lastRef)
    && (forall ref :: ref in p.acks <==> ref in p.requesters && Entered(p.requesters[ref]))
    && (forall ref :: ref in p.slots <==> ref in p.requesters && p.requesters[ref] != Drawn)
  }

  // A reply in a slot or in a requester's hands came from a handled message with its key
  // and body.
  predicate Genuine(p: Peer, ref: int, body: string, from: nat) {
    && from < |p.received| && from < |p.handlers| && p.handlers[from] == Finished
    && Key(p.received[from]) == ref && BodyOf(p.received[from]) == body
  }

  ghost predicate RepliesOk(p: Peer) {
    && |p.handlers| == |p.received|
    && (forall n :: 0 <= n < |p.handlers| && p.handlers[n].Putting? ==>
      p.handlers[n].ref == Key(p.received[n]) && Key(p.received[n]) in p.slots)
    && (forall ref :: ref in p.slots && p.slots[ref].Full? ==>
      Genuine(p, ref, p.slots[ref].body, p.slots[ref].from))
    && (forall ref :: ref in p.requesters ==> ReplyOk(p, ref, p.requesters[ref]))
  }

  predicate ReplyOk(p: Peer, ref: int, r: Requester) {
    match r
    case Leaving(Reply(body, from)) => Genuine(p, ref, body, from)
    case Leaving(NoChannel) => false
    case Done(Reply(body, from)) => Genuine(p, ref, body, from)
    case Done(NoChannel) => false
    case _ => true
  }

  ghost predicate Inv(p: Peer) {
    MapOk(p) && RepliesOk(p)
  }

  lemma MapStep(p: Peer, step: Step)
    requires MapOk(p) && Enabled(p, step)
    ensures MapOk(Next(p, step))
  {}

  lemma RepliesStep(p: Peer, step: Step)
    requires MapOk(p) && RepliesOk(p) && Enabled(p, step)
    ensures RepliesOk(Next(p, step))
  {}

  lemma {:induction false} RunInv(ps: seq<Peer>, steps: seq<Step>, n: nat)
    requires Run(ps, steps) && n <= |steps|
    ensures Inv(ps[n])
  {
    if n > 0 {
      RunInv(ps, steps, n - 1);
      assert Moves(ps[n - 1], steps[n - 1], ps[n]);
      MapStep(ps[n - 1], steps[n - 1]);
      RepliesStep(ps[n - 1], steps[n - 1]);
    }
  }

  // ---- Ids and the map ----

  predicate Draws(step: Step) {
    step.Draw? || step.SendPlain?
  }

  lemma {:induction false} LastRefGrows(ps: seq<Peer>, steps: seq<Step>, i: nat, j: nat)
    requires Run(ps, steps) && i <= j <= |steps|
    ensures ps[i].lastRef <= ps[j].lastRef
    decreases j
  {
    if i < j {
      LastRefGrows(ps, steps, i, j - 1);
      assert Moves(ps[j - 1], steps[j - 1], ps[j]);
    }
  }

  // Any two messages of a run carry different ids, and a requester's id is new to the map.
  lemma IdsAreDistinct(ps: seq<Peer>, steps: seq<Step>, i: nat, j: nat)
    requires Run(ps, steps) && i < j < |steps| && Draws(steps[i]) && Draws(steps[j])
    ensures ps[i].lastRef + 1 != ps[j].lastRef + 1
    ensures ps[j].lastRef + 1 !in ps[j].requesters && ps[j].lastRef + 1 !in ps[j].acks
  {
    assert Moves(ps[i], steps[i], ps[i + 1]);
    LastRefGrows(ps, steps, i + 1, j);
    RunInv(ps, steps, j);
  }

  // The map holds exactly the ids still in use and those of failed sends.
  lemma MapHoldsExactly(ps: seq<Peer>, steps: seq<Step>, n: nat)
    requires Run(ps, steps) && n <= |steps|
    ensures forall ref :: ref in ps[n].acks <==> ref in ps[n].requesters && Entered(ps[n].requesters[ref])
  {
    RunInv(ps, steps, n);
  }

  // ---- No cross-talk ----

  function Outcome(r: Requester): Result {
    match r
    case Leaving(result) => result
    case Done(result) => result
    case _ => TimedOut
  }

  // A requester that returns a body got it from an ack naming its own id, or from a nack
  // whose own message id happens to be its id; the missing-channel error never occurs.
  lemma NoCrossTalk(ps: seq<Peer>, steps: seq<Step>, n: nat, ref: int)
    requires Run(ps, steps) && n <= |steps| && ref in ps[n].requesters
    ensures var p := ps[n];
      match Outcome(p.requesters[ref])
      case Reply(body, from) =>
        && from < |p.received|
        && (p.received[from] == Ack(ref, body)
            || (p.received[from].Nack? && p.received[from].id == ref && body == NACK_BODY))
      case NoChannel => false
      case TimedOut => true
  {
    RunInv(ps, steps, n);
    assert ReplyOk(ps[n], ref, ps[n].requesters[ref]);
  }

  lemma OneMessageWakesOne(ps: seq<Peer>, steps: seq<Step>, n: nat, ref: int, other: int)
    requires Run(ps, steps) && n <= |steps| && ref in ps[n].requesters && other in ps[n].requesters
    requires Outcome(ps[n].requesters[ref]).Reply? && Outcome(ps[n].requesters[other]).Reply?
    requires Outcome(ps[n].requesters[ref]).from == Outcome(ps[n].requesters[other]).from
    ensures ref == other
  {
    NoCrossTalk(ps, steps, n, ref);
    NoCrossTalk(ps, steps, n, other);
  }

  lemma Extend(ps0: seq<Peer>, steps0: seq<Step>, step: Step, q: Peer) returns (ps: seq<Peer>, steps: seq<Step>)
    requires Run(ps0, steps0) && Moves(ps0[|steps0|], step, q)
    ensures ps == ps0 + [q] && steps == steps0 + [step] && Run(ps, steps) && ps[|steps|] == q
  {
    ps, steps := ps0 + [q], steps0 + [step];
    forall n | 0 <= n < |steps| ensures Moves(ps[n], steps[n], ps[n + 1]) {
      if n < |steps0| { assert Moves(ps0[n], steps0[n], ps0[n + 1]); }
    }
  }

  // An ack is handed to the entry of the request it names exactly if the map has it.
  lemma AckFindsNamedIff(p: Peer, ref: int, body: string)
    ensures var now := Next(p, Receive(Ack(ref, body))).handlers;
      && (now == p.handlers + [Putting(ref)] <==> ref in p.acks)
      && (now == p.handlers + [Finished] <==> ref !in p.acks)
  {
    var now := Next(p, Receive(Ack(ref, body))).handlers;
    assert now[|p.handlers|] == if ref in p.acks then Putting(ref) else Finished;
    assert (p.handlers + [Putting(ref)])[|p.handlers|] == Putting(ref);
    assert (p.handlers + [Finished])[|p.handlers|] == Finished;
  }

  // A requester that takes its slot and leaves returns this reply, and its entry goes.
  predicate Returns(p: Peer, ref: int, reply: Result) {
    && Enabled(p, Take(ref))
    && var taken := Next(p, Take(ref));
    Enabled(taken, Leave(ref)) && Is(Next(taken, Leave(ref)), ref, Done(reply)) && ref !in Next(taken, Leave(ref)).acks
  }

  lemma AckSteps(p: Peer, ref: int, body: string)
    requires Inv(p) && Is(p, ref, Waiting) && p.slots[ref].Empty?
    ensures var n, q := |p.received|, Next(p, Receive(Ack(ref, body)));
      Enabled(q, Put(n)) && Returns(Next(q, Put(n)), ref, Reply(body, n))
  {}

  // An ack of a waiting request is the body it returns with: every run in which request
  // ref waits on an empty slot goes on to a return with the ack's body.
  lemma AckReaches(ps0: seq<Peer>, steps0: seq<Step>, ref: int, body: string) returns (ps: seq<Peer>, steps: seq<Step>)
    requires Run(ps0, steps0) && Is(ps0[|steps0|], ref, Waiting)
    requires ref in ps0[|steps0|].slots ==> ps0[|steps0|].slots[ref].Empty?
    ensures Run(ps, steps)
    ensures var n := |ps0[|steps0|].received|;
      && steps == steps0 + [Receive(Ack(ref, body)), Put(n), Take(ref), Leave(ref)]
      && Is(ps[|steps|], ref, Done(Reply(body, n)))
      && ref !in ps[|steps|].acks
  {
    var p := ps0[|steps0|];
    RunInv(ps0, steps0, |steps0|);
    AckSteps(p, ref, body);
    ps, steps := Onward(ps0, steps0, Receive(Ack(ref, body)));
    ps, steps := Onward(ps, steps, Put(|p.received|));
    ps, steps := Onward(ps, steps, Take(ref));
    ps, steps := Onward(ps, steps, Leave(ref));
  }

  lemma Onward(ps0: seq<Peer>, steps0: seq<Step>, step: Step) returns (ps: seq<Peer>, steps: seq<Step>)
    requires Run(ps0, steps0) && Enabled(ps0[|steps0|], step)
    ensures Run(ps, steps) && steps == steps0 + [step] && ps[|steps|] == Next(ps0[|steps0|], step)
  {
    ps, steps := Extend(ps0, steps0, step, Next(ps0[|steps0|], step));
  }

  // Whose step it is.
  predicate Moved(step: Step, ref: int) {
    (step.Register? || step.SendFails? || step.SendOk? || step.Take? || step.Timeout? || step.Leave?) && step.ref == ref
  }

  // A requester and its entry change in its own steps only, and a reply in its slot goes
  // only when it takes it.
  lemma OthersStay(p: Peer, step: Step, ref: int)
    requires MapOk(p) && Enabled(p, step) && ref in p.requesters
    ensures ref in Next(p, step).requesters
    ensures !Moved(step, ref) ==> Next(p, step).requesters[ref] == p.requesters[ref]
    ensures !Moved(step, ref) ==> (ref in Next(p, step).acks <==> ref in p.acks)
    ensures step != Take(ref) && ref in p.slots && p.slots[ref].Full? ==>
      ref in Next(p, step).slots && Next(p, step).slots[ref] == p.slots[ref]
  {}

  lemma {:induction false} RequesterStays(ps: seq<Peer>, steps: seq<Step>, ref: int, from: nat, till: nat)
    requires Run(ps, steps) && from <= till <= |steps| && ref in ps[from].requesters
    requires forall n :: from <= n < till ==> !Moved(steps[n], ref)
    ensures Is(ps[till], ref, ps[from].requesters[ref]) && (ref in ps[till].acks <==> ref in ps[from].acks)
    decreases till
  {
    if from < till {
      RequesterStays(ps, steps, ref, from, till - 1);
      RunInv(ps, steps, till - 1);
      assert Moves(ps[till - 1], steps[till - 1], ps[till]);
      OthersStay(ps[till - 1], steps[till - 1], ref);
    }
  }

  // A reply that arrives while the request is still being sent, or at any time before the
  // requester looks, is the one it takes.
  lemma {:induction false} ReplyIsKept(ps: seq<Peer>, steps: seq<Step>, ref: int, from: nat, till: nat)
    requires Run(ps, steps) && from <= till <= |steps|
    requires ref in ps[from].slots && ps[from].slots[ref].Full?
    requires forall n :: from <= n < till ==> steps[n] != Take(ref)
    ensures ref in ps[till].slots && ps[till].slots[ref] == ps[from].slots[ref]
    decreases till
  {
    if from < till {
      ReplyIsKept(ps, steps, ref, from, till - 1);
      RunInv(ps, steps, till - 1);
      assert Moves(ps[till - 1], steps[till - 1], ps[till]);
      OthersStay(ps[till - 1], steps[till - 1], ref);
    }
  }

  // And then the requester returns with it.
  lemma TakenIsReturned(ps: seq<Peer>, steps: seq<Step>, ref: int, from: nat, at: nat)
    requires Run(ps, steps) && from <= at < |steps| && steps[at] == Take(ref)
    requires ref in ps[from].slots && ps[from].slots[ref].Full?
    requires forall n :: from <= n < at ==> steps[n] != Take(ref)
    ensures Is(ps[at + 1], ref, Leaving(Reply(ps[from].slots[ref].body, ps[from].slots[ref].from)))
  {
    ReplyIsKept(ps, steps, ref, from, at);
    assert Moves(ps[at], steps[at], ps[at + 1]);
  }

  // A handler waits until it puts its own message's body in.
  lemma {:induction false} HandlerWaits(ps: seq<Peer>, steps: seq<Step>, n: nat, from: nat, till: nat)
    requires Run(ps, steps) && from <= till <= |steps| && n < |ps[from].handlers|
    requires forall k :: from <= k < till ==> steps[k] != Put(n)
    ensures n < |ps[till].handlers| && ps[till].handlers[n] == ps[from].handlers[n]
    decreases till
  {
    if from < till {
      HandlerWaits(ps, steps, n, from, till - 1);
      assert Moves(ps[till - 1], steps[till - 1], ps[till]);
    }
  }

  // A nack names the request it answers. Over every run, a requester that a nack wakes is
  // the one it names exactly if the nack's own message id is the id it names.
  lemma NackEndsNamedIff(ps: seq<Peer>, steps: seq<Step>, n: nat, ref: int)
    requires Run(ps, steps) && n <= |steps| && ref in ps[n].requesters
    ensures var p := ps[n];
      match Outcome(p.requesters[ref])
      case Reply(_, from) =>
        from < |p.received| &&
        (p.received[from].Nack? ==> (p.received[from].ref == ref <==> p.received[from].id == p.received[from].ref))
      case _ => true
  {
    NoCrossTalk(ps, steps, n, ref);
  }

  // And the handler of a nack turns to the entry of the request it names under the same
  // condition.
  lemma NackFindsNamedIff(p: Peer, m: Message)
    requires m.Nack? && m.ref in p.acks
    ensures Next(p, Receive(m)).handlers == p.handlers + [Putting(m.ref)] <==> m.id == m.ref
  {
    var now := Next(p, Receive(m)).handlers;
    assert now[|p.handlers|] == if m.id in p.acks then Putting(m.id) else Finished;
    assert (p.handlers + [Putting(m.ref)])[|p.handlers|] == Putting(m.ref);
  }

  // Where those ids differ: requests 1 and 2 wait, the client refuses request 2 in its own
  // message 1, and request 1 returns while request 2 waits on.
  lemma NackMisdirected() returns (ps: seq<Peer>, steps: seq<Step>)
    ensures Run(ps, steps) && ps[|steps|].received == [Nack(1, 2)]
    ensures Is(ps[|steps|], 1, Done(Reply(NACK_BODY, 0))) && Is(ps[|steps|], 2, Waiting)
  {
    var m, none := Nack(1, 2), map[1 := Empty, 2 := Empty];
    ps, steps := [FRESH], [];
    ps, steps := Extend(ps, steps, Draw, Peer(1, map[1 := Drawn], {}, map[], [], []));
    ps, steps := Extend(ps, steps, Register(1), Peer(1, map[1 := Registered], {1}, map[1 := Empty], [], []));
    ps, steps := Extend(ps, steps, SendOk(1), Peer(1, map[1 := Waiting], {1}, map[1 := Empty], [], []));
    ps, steps := Extend(ps, steps, Draw, Peer(2, map[1 := Waiting, 2 := Drawn], {1}, map[1 := Empty], [], []));
    ps, steps := Extend(ps, steps, Register(2), Peer(2, map[1 := Waiting, 2 := Registered], {1, 2}, none, [], []));
    var waiting := map[1 := Waiting, 2 := Waiting];
    ps, steps := Extend(ps, steps, SendOk(2), Peer(2, waiting, {1, 2}, none, [], []));
    ps, steps := Extend(ps, steps, Receive(m), Peer(2, waiting, {1, 2}, none, [m], [Putting(1)]));
    ps, steps := Extend(ps, steps, Put(0), Peer(2, waiting, {1, 2}, none[1 := Full(NACK_BODY, 0)], [m], [Finished]));
    var hit := Reply(NACK_BODY, 0);
    ps, steps := Extend(ps, steps, Take(1), Peer(2, waiting[1 := Leaving(hit)], {1, 2}, none, [m], [Finished]));
    ps, steps := Extend(ps, steps, Leave(1), Peer(2, waiting[1 := Done(hit)], {2}, none, [m], [Finished]));
  }

  // ---- Blocking ----

  ghost predicate AnsweredOnce(received: seq<Message>) {
    forall i, j :: 0 <= i < j < |received| ==> Key(received[i]) != Key(received[j])
  }

  // If no two messages are looked up under one id, a handler never has to wait.
  lemma NeverBlocks(ps: seq<Peer>, steps: seq<Step>, at: nat, n: nat)
    requires Run(ps, steps) && at <= |steps| && AnsweredOnce(ps[at].received)
    requires n < |ps[at].handlers| && ps[at].handlers[n].Putting?
    ensures CanPut(ps[at], n)
  {
    RunInv(ps, steps, at);
    var p := ps[at];
    var ref := p.handlers[n].ref;
    assert p.slots[ref].Full? ==> Genuine(p, ref, p.slots[ref].body, p.slots[ref].from);
  }

  // The slot is full and its requester will not look at it again.
  ghost predicate Stuck(p: Peer, n: nat) {
    && n < |p.handlers| && p.handlers[n].Putting?
    && var ref := p.handlers[n].ref;
    && ref in p.slots && p.slots[ref].Full?
    && ref in p.requesters && !p.requesters[ref].Drawn? && !p.requesters[ref].Registered? && !p.requesters[ref].Waiting?
  }

  lemma StuckStep(p: Peer, step: Step, n: nat)
    requires MapOk(p) && Enabled(p, step) && Stuck(p, n)
    ensures Stuck(Next(p, step), n) && Next(p, step).handlers[n] == p.handlers[n]
  {}

  // Such a handler, and with it the control channel's callback, is blocked for good.
  lemma {:induction false} StuckForever(ps: seq<Peer>, steps: seq<Step>, n: nat, at: nat, later: nat)
    requires Run(ps, steps) && at <= later <= |steps| && Stuck(ps[at], n)
    ensures Stuck(ps[later], n) && ps[later].handlers[n] == ps[at].handlers[n]
    decreases later
  {
    if at < later {
      StuckForever(ps, steps, n, at, later - 1);
      RunInv(ps, steps, later - 1);
      assert Moves(ps[later - 1], steps[later - 1], ps[later]);
      StuckStep(ps[later - 1], steps[later - 1], n);
    }
  }

  // Any other handler that has to wait can still finish.
  lemma NotStuckCanFinish(ps: seq<Peer>, steps: seq<Step>, at: nat, n: nat)
    requires Run(ps, steps) && at <= |steps|
    requires n < |ps[at].handlers| && ps[at].handlers[n].Putting? && !Stuck(ps[at], n)
    ensures var p, ref := ps[at], ps[at].handlers[n].ref;
      || CanPut(p, n)
      || (Enabled(p, Take(ref)) && CanPut(Next(p, Take(ref)), n))
      || (Enabled(p, SendOk(ref)) && Enabled(Next(p, SendOk(ref)), Take(ref))
          && CanPut(Next(Next(p, SendOk(ref)), Take(ref)), n))
  {
    RunInv(ps, steps, at);
  }

  // A timeout and two late acks of one request, handled one after the other, are enough.
  lemma TwoAcksCanBlock(first: string, second: string) returns (ps: seq<Peer>, steps: seq<Step>)
    ensures Run(ps, steps) && ps[|steps|].received == [Ack(1, first), Ack(1, second)]
    ensures Stuck(ps[|steps|], 1)
  {
    var m, again := Ack(1, first), Ack(1, second);
    ps, steps := [FRESH], [];
    ps, steps := Extend(ps, steps, Draw, Peer(1, map[1 := Drawn], {}, map[], [], []));
    ps, steps := Extend(ps, steps, Register(1), Peer(1, map[1 := Registered], {1}, map[1 := Empty], [], []));
    ps, steps := Extend(ps, steps, SendOk(1), Peer(1, map[1 := Waiting], {1}, map[1 := Empty], [], []));
    var gone := map[1 := Leaving(TimedOut)];
    ps, steps := Extend(ps, steps, Timeout(1), Peer(1, gone, {1}, map[1 := Empty], [], []));
    ps, steps := Extend(ps, steps, Receive(m), Peer(1, gone, {1}, map[1 := Empty], [m], [Putting(1)]));
    var full := map[1 := Full(first, 0)];
    ps, steps := Extend(ps, steps, Put(0), Peer(1, gone, {1}, full, [m], [Finished]));
    ps, steps := Extend(ps, steps, Receive(again), Peer(1, gone, {1}, full, [m, again], [Finished, Putting(1)]));
  }
}
