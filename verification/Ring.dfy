/** The ring buffer of peers/buffer.go on values: its four operations, the unbounded
    log it stands for, and what its replay loop returns and when that loop ends. */
module Ring {
  import Residue

  type byte = b: int | 0 <= b < 256

  datatype Ring = Ring(size: nat, data: seq<byte>, end: int, markers: map<int, int>)

  // What the slice indexing of the code needs, and nothing about history.
  predicate Shaped(r: Ring) {
    && r.size >= 1
    && |r.data| == r.size
    && 0 <= r.end < r.size
    && forall k :: k in r.markers ==> -1 <= r.markers[k] < r.size
  }

  function New(size: nat): Ring {
    Ring(size, Zeros(size), 0, map[])
  }

  function Zeros(n: nat): (z: seq<byte>) {
    seq(n, _ => 0)
  }

  // A marker equal to the advanced write index has just been lapped.
  function Lapped(markers: map<int, int>, end: int): map<int, int> {
    map k | k in markers :: if markers[k] == end then -1 else markers[k]
  }

  function Advanced(r: Ring): int {
    if r.end + 1 == r.size then 0 else r.end + 1
  }

  function AddByte(r: Ring, b: byte): (s: Ring)
    requires Shaped(r)
    ensures Shaped(s) && s.size == r.size
  {
    r.(data := r.data[r.end := b], end := Advanced(r), markers := Lapped(r.markers, Advanced(r)))
  }

  function Add(r: Ring, bs: seq<byte>): (s: Ring)
    requires Shaped(r)
    ensures Shaped(s) && s.size == r.size
    decreases |bs|
  {
    if bs == [] then r else Add(AddByte(r, bs[0]), bs[1..])
  }

  function Mark(r: Ring, id: int): (s: Ring)
    requires Shaped(r)
    ensures Shaped(s) && s.size == r.size
  {
    r.(markers := r.markers[id := r.end])
  }

  // Reading an absent key of a Go map yields 0.
  function Lookup(r: Ring, id: int): int {
    if id in r.markers then r.markers[id] else 0
  }

  predicate Lost(r: Ring, id: int) {
    id == -1 || Lookup(r, id) == -1
  }

  function Start(r: Ring, id: int): int {
    if Lost(r, id) then r.end else Lookup(r, id)
  }

  function Stop(r: Ring, id: int): int {
    if !Lost(r, id) then r.end
    else if r.end == 0 then r.size
    else r.end - 1
  }

  // One pass of the replay loop: wrap, visit, increment.
  function Visited(size: nat, i: nat): (j: nat)
    requires size >= 1 && i <= size
    ensures j < size
  {
    if i == size then 0 else i
  }

  // The loop variable at the exit test after n passes, if no test ended the loop.
  function IndexAfter(size: nat, start: nat, n: nat): (i: nat)
    requires size >= 1 && start <= size
    ensures i <= size
  {
    if n == 0 then start else Visited(size, IndexAfter(size, start, n - 1)) + 1
  }

  predicate Exits(r: Ring, id: int) {
    Start(r, id) == Stop(r, id) || Stop(r, id) != 0
  }

  // Passes left until the exit test succeeds.
  function Distance(size: nat, i: nat, stop: nat): nat
    requires i <= size
  {
    if i <= stop then stop - i else size - i + stop
  }

  function Walk(data: seq<byte>, i: nat, stop: nat): seq<byte>
    requires |data| >= 1 && i <= |data| && stop <= |data|
    requires i == stop || stop != 0
    decreases Distance(|data|, i, stop)
  {
    if i == stop then [] else [data[Visited(|data|, i)]] + Walk(data, Visited(|data|, i) + 1, stop)
  }

  function Replay(r: Ring, id: int): seq<byte>
    requires Shaped(r) && Exits(r, id)
  {
    Walk(r.data, Start(r, id), Stop(r, id))
  }

  function Consume(r: Ring, id: int): (s: Ring)
    requires Shaped(r)
    ensures Shaped(s) && s.size == r.size
  {
    if id == -1 then r else r.(markers := r.markers - {id})
  }

  // ---- The replay loop ----

  lemma {:induction false} IndexAfterFromZero(size: nat, start: nat, n: nat)
    requires size >= 1 && start <= size && n >= 1
    ensures IndexAfter(size, start, n) >= 1
  {}

  lemma {:induction false} IndexReachesStop(size: nat, start: nat, stop: nat, n: nat)
    requires size >= 1 && start <= size && 1 <= stop <= size && n <= Distance(size, start, stop)
    ensures Distance(size, IndexAfter(size, start, n), stop) == Distance(size, start, stop) - n
  {
    if n > 0 {
      IndexReachesStop(size, start, stop, n - 1);
    }
  }

  // The loop reaches its exit test exactly under Exits; otherwise no number of passes does.
  lemma ReplayEndsIff(r: Ring, id: int)
    requires Shaped(r)
    ensures Exits(r, id) <==> exists n: nat :: IndexAfter(r.size, Start(r, id), n) == Stop(r, id)
  {
    var start, stop := Start(r, id), Stop(r, id);
    if start == stop {
      assert IndexAfter(r.size, start, 0) == stop;
    } else if stop != 0 {
      var n := Distance(r.size, start, stop);
      IndexReachesStop(r.size, start, stop, n);
      assert IndexAfter(r.size, start, n) == stop;
    } else {
      forall n: nat ensures IndexAfter(r.size, start, n) != stop {
        if n > 0 { IndexAfterFromZero(r.size, start, n); }
      }
    }
  }

  // ---- Meaning: an unbounded log and the log position of every mark ----

  // The ring starts full of zeros, so its history is the log behind `size` of them.
  function History(size: nat, log: seq<byte>): seq<byte> {
    Zeros(size) + log
  }

  ghost predicate Holds(r: Ring, log: seq<byte>) {
    && Shaped(r)
    && r.end == |log| % r.size
    && forall j :: |log| <= j < |log| + r.size ==> r.data[j % r.size] == History(r.size, log)[j]
  }

  // A marker is -1 exactly when `size` or more bytes followed its last mark, and
  // otherwise is the marked position modulo the size.
  ghost predicate Tracks(r: Ring, length: nat, pos: map<int, nat>)
    requires r.size >= 1
  {
    && r.markers.Keys == pos.Keys
    && forall k :: k in pos ==>
      && pos[k] <= length
      && r.markers[k] == if length - pos[k] < r.size then pos[k] % r.size else -1
  }

  ghost predicate Refines(r: Ring, log: seq<byte>, pos: map<int, nat>) {
    Holds(r, log) && Tracks(r, |log|, pos)
  }

  lemma NewRefines(size: nat)
    requires size >= 1
    ensures Refines(New(size), [], map[])
  {
    assert 0 % size == 0;
  }

  lemma AddByteHolds(r: Ring, b: byte, log: seq<byte>)
    requires Holds(r, log)
    ensures Holds(AddByte(r, b), log + [b])
  {
    var n, len := r.size, |log|;
    var s := AddByte(r, b);
    Residue.Advance(n, len, 1);
    assert History(n, log + [b]) == History(n, log) + [b];
    forall j | len + 1 <= j < len + 1 + n
      ensures s.data[j % n] == History(n, log + [b])[j]
    {
      if j == len + n {
        Residue.Shift(n, len);
      } else {
        Residue.Distinct(n, len, j);
        assert r.data[j % n] == History(n, log)[j];
      }
    }
  }

  lemma AddByteTracks(r: Ring, b: byte, length: nat, pos: map<int, nat>)
    requires Shaped(r) && r.end == length % r.size && Tracks(r, length, pos)
    ensures Tracks(AddByte(r, b), length + 1, pos)
  {
    var n := r.size;
    Residue.Advance(n, length, 1);
    forall k | k in pos
      ensures AddByte(r, b).markers[k] == if length + 1 - pos[k] < n then pos[k] % n else -1
    {
      if length + 1 - pos[k] < n {
        Residue.Distinct(n, pos[k], length + 1);
      } else if length - pos[k] < n {
        Residue.Shift(n, pos[k]);
      }
    }
  }

  lemma {:induction false} AddRefines(r: Ring, bs: seq<byte>, log: seq<byte>, pos: map<int, nat>)
    requires Refines(r, log, pos)
    ensures Refines(Add(r, bs), log + bs, pos)
    decreases |bs|
  {
    if bs == [] {
      assert log + bs == log;
    } else {
      AddByteHolds(r, bs[0], log);
      AddByteTracks(r, bs[0], |log|, pos);
      AddRefines(AddByte(r, bs[0]), bs[1..], log + [bs[0]], pos);
      assert log + [bs[0]] + bs[1..] == log + bs;
    }
  }

  lemma MarkRefines(r: Ring, id: int, log: seq<byte>, pos: map<int, nat>)
    requires Refines(r, log, pos)
    ensures Refines(Mark(r, id), log, pos[id := |log|])
  {}

  function Forget(pos: map<int, nat>, id: int): map<int, nat> {
    if id == -1 then pos else pos - {id}
  }

  lemma ConsumeRefines(r: Ring, id: int, log: seq<byte>, pos: map<int, nat>)
    requires Refines(r, log, pos)
    ensures Refines(Consume(r, id), log, Forget(pos, id))
  {}

  // ---- What a replay returns, told on the log ----

  predicate TooOld(size: nat, length: nat, pos: map<int, nat>, id: int) {
    id == -1 || (id in pos && length - pos[id] >= size)
  }

  ghost predicate Within(length: nat, pos: map<int, nat>) {
    forall k :: k in pos ==> pos[k] <= length
  }

  // The documented result: everything since the mark, or the whole buffer when the
  // mark is too old. An id that was never marked reads as position 0 of the ring.
  function Promised(size: nat, log: seq<byte>, pos: map<int, nat>, id: int): (bs: seq<byte>)
    requires size >= 1 && Within(|log|, pos)
  {
    if TooOld(size, |log|, pos, id) then History(size, log)[|log|..]
    else if id in pos then log[pos[id]..]
    else log[Turn(size, |log|)..]
  }

  // The last multiple of the size: where the writer last stood at cell 0.
  function Turn(size: nat, length: nat): (t: nat)
    requires size >= 1
    ensures t <= length
  {
    length - length % size
  }

  // The result the code gives whenever its loop ends: the newest byte of the whole
  // buffer is left out unless the write index is 0.
  function Returned(size: nat, log: seq<byte>, pos: map<int, nat>, id: int): (bs: seq<byte>)
    requires size >= 1 && Within(|log|, pos)
  {
    var p := Promised(size, log, pos, id);
    if TooOld(size, |log|, pos, id) && |log| % size != 0 then p[..size - 1] else p
  }

  lemma LostIsTooOld(r: Ring, id: int, length: nat, pos: map<int, nat>)
    requires r.size >= 1 && Tracks(r, length, pos)
    ensures Lost(r, id) <==> TooOld(r.size, length, pos, id)
  {}

  lemma CellAt(r: Ring, log: seq<byte>, i: nat, from: nat)
    requires Holds(r, log) && i <= r.size && |log| <= from < |log| + r.size && from % r.size == Visited(r.size, i)
    ensures r.data[Visited(r.size, i)] == History(r.size, log)[from]
  {
    assert r.data[from % r.size] == History(r.size, log)[from];
  }

  // One pass of the loop moves on to the cell of the next position.
  lemma NextCell(size: nat, i: nat, stop: nat, from: nat)
    requires size >= 1 && i <= size && stop <= size && i != stop && stop != 0 && from % size == Visited(size, i)
    ensures var j := Visited(size, i) + 1;
      (from + 1) % size == Visited(size, j) && Distance(size, j, stop) == Distance(size, i, stop) - 1
  {
    Residue.Advance(size, from, 1);
  }

  lemma SliceHead(s: seq<byte>, from: nat, till: nat)
    requires from < till <= |s|
    ensures s[from..till] == [s[from]] + s[from + 1..till]
  {}

  // Walking from the cell of a history position collects the history from there on.
  lemma {:induction false} WalkIsHistory(r: Ring, log: seq<byte>, i: nat, stop: nat, from: nat)
    requires Holds(r, log) && i <= r.size && stop <= r.size && (i == stop || stop != 0)
    requires |log| <= from && from % r.size == Visited(r.size, i)
    requires from + Distance(r.size, i, stop) <= |log| + r.size
    ensures Walk(r.data, i, stop) == History(r.size, log)[from..from + Distance(r.size, i, stop)]
    decreases Distance(r.size, i, stop)
  {
    if i != stop {
      NextCell(r.size, i, stop, from);
      CellAt(r, log, i, from);
      WalkIsHistory(r, log, Visited(r.size, i) + 1, stop, from + 1);
      SliceHead(History(r.size, log), from, from + Distance(r.size, i, stop));
    } else {
      assert Walk(r.data, i, stop) == [];
    }
  }

  // In every reachable state a replay that ends returns exactly `Returned`.
  lemma ReplayReturns(r: Ring, id: int, log: seq<byte>, pos: map<int, nat>)
    requires Refines(r, log, pos) && Exits(r, id)
    ensures Replay(r, id) == Returned(r.size, log, pos, id)
  {
    var n, len := r.size, |log|;
    var h, a := History(n, log), Origin(n, len, pos, id);
    OriginCell(r, id, log, pos);
    LostIsTooOld(r, id, len, pos);
    OriginDistance(r, id, log, pos);
    WalkIsHistory(r, log, Start(r, id), Stop(r, id), a);
    PromisedIsHistory(n, log, pos, id);
  }

  // Where in the history the promised bytes begin.
  function Origin(size: nat, length: nat, pos: map<int, nat>, id: int): nat
    requires size >= 1
  {
    if TooOld(size, length, pos, id) then length
    else if id in pos then pos[id] + size
    else Turn(size, length) + size
  }

  lemma PromisedIsHistory(size: nat, log: seq<byte>, pos: map<int, nat>, id: int)
    requires size >= 1 && Within(|log|, pos)
    ensures |log| <= Origin(size, |log|, pos, id) <= |log| + size
    ensures Promised(size, log, pos, id) == History(size, log)[Origin(size, |log|, pos, id)..]
  {}

  lemma OriginCell(r: Ring, id: int, log: seq<byte>, pos: map<int, nat>)
    requires Refines(r, log, pos)
    ensures Origin(r.size, |log|, pos, id) % r.size == Start(r, id)
  {
    LostIsTooOld(r, id, |log|, pos);
    if !Lost(r, id) {
      Residue.Shift(r.size, Origin(r.size, |log|, pos, id) - r.size);
      if id !in pos { Residue.Unique(r.size, |log| / r.size, 0, Turn(r.size, |log|)); }
    }
  }

  lemma OriginDistance(r: Ring, id: int, log: seq<byte>, pos: map<int, nat>)
    requires Refines(r, log, pos) && Exits(r, id)
    ensures Distance(r.size, Start(r, id), Stop(r, id)) == |Returned(r.size, log, pos, id)|
  {
    var n, len := r.size, |log|;
    LostIsTooOld(r, id, len, pos);
    PromisedIsHistory(n, log, pos, id);
    if !Lost(r, id) {
      var a := Origin(n, len, pos, id) - n;
      OriginCell(r, id, log, pos);
      Residue.Shift(n, a);
      Residue.Advance(n, a, len - a);
    }
  }

  // When the loop of a reachable state never ends.
  lemma DivergesIff(r: Ring, id: int, log: seq<byte>, pos: map<int, nat>)
    requires Refines(r, log, pos)
    ensures !Exits(r, id) <==>
      if TooOld(r.size, |log|, pos, id) then r.size >= 2 && |log| % r.size == 1
      else id in pos && pos[id] < |log| && |log| % r.size == 0
  {
    LostIsTooOld(r, id, |log|, pos);
    if id in pos && !Lost(r, id) && pos[id] < |log| {
      Residue.Distinct(r.size, pos[id], |log|);
    }
  }

  // The code does what its comment promises under exactly this condition.
  lemma DocumentedIff(r: Ring, id: int, log: seq<byte>, pos: map<int, nat>)
    requires Refines(r, log, pos)
    ensures (Exits(r, id) && Replay(r, id) == Promised(r.size, log, pos, id)) <==>
      if TooOld(r.size, |log|, pos, id) then |log| % r.size == 0
      else id !in pos || pos[id] == |log| || |log| % r.size != 0
  {
    DivergesIff(r, id, log, pos);
    if Exits(r, id) { ReplayReturns(r, id, log, pos); }
  }

  // An id without a mark replays the bytes since the writer last stood at cell 0,
  // which is everything exactly while the ring has not been filled.
  lemma UnmarkedReplay(r: Ring, id: int, log: seq<byte>, pos: map<int, nat>)
    requires Refines(r, log, pos) && id != -1 && id !in pos
    ensures Exits(r, id)
    ensures |Replay(r, id)| == |log| % r.size && Replay(r, id) == log[|log| - |log| % r.size..]
    ensures Replay(r, id) == log <==> |log| < r.size
  {
    DivergesIff(r, id, log, pos);
    ReplayReturns(r, id, log, pos);
    if |log| < r.size { Residue.Unique(r.size, 0, |log|, |log|); }
  }

  // ---- A counted loop that keeps the promise in every state ----

  function Repaired(r: Ring, id: int): seq<byte>
    requires Shaped(r)
  {
    var start := Start(r, id);
    var count := if Lost(r, id) then r.size
                 else if start <= r.end then r.end - start else r.end - start + r.size;
    Gather(r.data, start, count)
  }

  function Gather(data: seq<byte>, start: nat, count: nat): seq<byte>
    requires |data| >= 1
  {
    seq(count, k requires 0 <= k => data[(start + k) % |data|])
  }

  lemma GatherIsHistory(r: Ring, log: seq<byte>, a: nat, count: nat)
    requires Holds(r, log) && |log| <= a && a + count <= |log| + r.size
    ensures Gather(r.data, a % r.size, count) == History(r.size, log)[a..a + count]
  {
    var h := History(r.size, log);
    forall k | 0 <= k < count
      ensures Gather(r.data, a % r.size, count)[k] == h[a..a + count][k]
    {
      Residue.Offset(r.size, a, k);
      assert r.data[(a + k) % r.size] == h[a + k];
    }
  }

  lemma RepairedKeepsPromise(r: Ring, id: int, log: seq<byte>, pos: map<int, nat>)
    requires Refines(r, log, pos)
    ensures Repaired(r, id) == Promised(r.size, log, pos, id)
    ensures (Exits(r, id) && Replay(r, id) == Repaired(r, id)) <==>
      if TooOld(r.size, |log|, pos, id) then |log| % r.size == 0
      else id !in pos || pos[id] == |log| || |log| % r.size != 0
  {
    DocumentedIff(r, id, log, pos);
    var n, len := r.size, |log|;
    var a := Origin(n, len, pos, id);
    OriginCell(r, id, log, pos);
    PromisedIsHistory(n, log, pos, id);
    LostIsTooOld(r, id, len, pos);
    if !Lost(r, id) {
      Residue.Shift(n, a - n);
      Residue.Advance(n, a - n, len + n - a);
    }
    GatherIsHistory(r, log, a, len + n - a);
  }

  // ---- Chunking and invalidation ----

  lemma {:induction false} AddSplits(r: Ring, x: seq<byte>, y: seq<byte>)
    requires Shaped(r)
    ensures Add(Add(r, x), y) == Add(r, x + y)
    decreases |x|
  {
    if x == [] {
      assert x + y == y;
    } else {
      AddSplits(AddByte(r, x[0]), x[1..], y);
      assert (x + y)[1..] == x[1..] + y;
    }
  }

  // How many bytes the writer must add before its index equals v again.
  function Ahead(size: nat, end: int, v: int): int {
    if v > end then v - end else v - end + size
  }

  // Adding bs loses exactly the markers in the cyclic interval (end, end + |bs|].
  lemma {:induction false} AddInvalidates(r: Ring, bs: seq<byte>, k: int)
    requires Shaped(r) && k in r.markers
    ensures k in Add(r, bs).markers
    ensures Add(r, bs).markers[k] ==
      if r.markers[k] == -1 || Ahead(r.size, r.end, r.markers[k]) <= |bs| then -1 else r.markers[k]
    decreases |bs|
  {
    if bs != [] {
      AddInvalidates(AddByte(r, bs[0]), bs[1..], k);
    }
  }

  // Consuming one marker leaves the replay of every other id as it was.
  lemma ConsumeLeavesOthers(r: Ring, id: int, other: int)
    requires Shaped(r) && other != id
    ensures Exits(Consume(r, id), other) == Exits(r, other)
    ensures Exits(r, other) ==> Replay(Consume(r, id), other) == Replay(r, other)
  {}

  // ---- Every run of the three operations ----

  datatype Op = Adding(bs: seq<byte>) | Marking(id: int) | Reading(id: int)

  function Do(r: Ring, op: Op): (s: Ring)
    requires Shaped(r)
    ensures Shaped(s) && s.size == r.size
  {
    match op
    case Adding(bs) => Add(r, bs)
    case Marking(id) => Mark(r, id)
    case Reading(id) => Consume(r, id)
  }

  function Run(size: nat, ops: seq<Op>): (r: Ring)
    requires size >= 1
    ensures Shaped(r) && r.size == size
  {
    if ops == [] then New(size) else Do(Run(size, ops[..|ops| - 1]), ops[|ops| - 1])
  }

  // All bytes ever added.
  function Written(ops: seq<Op>): seq<byte> {
    if ops == [] then []
    else Written(ops[..|ops| - 1]) + match ops[|ops| - 1] case Adding(bs) => bs case _ => []
  }

  datatype Age = Unmarked | Bytes(n: nat)

  // How many bytes were added since id was last marked, if that mark was not consumed.
  function AgeOf(ops: seq<Op>, id: int): Age {
    if ops == [] then Unmarked else
    var before := AgeOf(ops[..|ops| - 1], id);
    match ops[|ops| - 1]
    case Adding(bs) => if before.Bytes? then Bytes(before.n + |bs|) else Unmarked
    case Marking(k) => if k == id then Bytes(0) else before
    case Reading(k) => if k == id && id != -1 then Unmarked else before
  }

  lemma {:induction false} RunRefines(size: nat, ops: seq<Op>) returns (pos: map<int, nat>)
    requires size >= 1
    ensures Refines(Run(size, ops), Written(ops), pos)
    ensures forall id :: id in pos <==> AgeOf(ops, id).Bytes?
    ensures forall id :: id in pos ==> AgeOf(ops, id).n == |Written(ops)| - pos[id]
  {
    if ops == [] {
      NewRefines(size);
      pos := map[];
    } else {
      var init, op := ops[..|ops| - 1], ops[|ops| - 1];
      pos := RunRefines(size, init);
      var r, log := Run(size, init), Written(init);
      assert log + [] == log;
      match op
      case Adding(bs) => AddRefines(r, bs, log, pos);
      case Marking(id) =>
        MarkRefines(r, id, log, pos);
        pos := pos[id := |log|];
      case Reading(id) =>
        ConsumeRefines(r, id, log, pos);
        pos := Forget(pos, id);
    }
  }

  // A marker is lost exactly when at least `size` bytes followed its last mark, and a
  // live one lags the write index by exactly the bytes added since.
  lemma MarkerFate(size: nat, ops: seq<Op>, id: int)
    requires size >= 1
    ensures var r, age := Run(size, ops), AgeOf(ops, id);
      && (id in r.markers <==> age.Bytes?)
      && (age.Bytes? ==> (r.markers[id] == -1 <==> age.n >= size))
      && (age.Bytes? && age.n < size ==> (r.end - r.markers[id]) % size == age.n)
  {
    var pos := RunRefines(size, ops);
    var age := AgeOf(ops, id);
    if age.Bytes? && age.n < size {
      var a := pos[id];
      Residue.Advance(size, a, age.n);
      var gap := Run(size, ops).end - a % size;
      Residue.Unique(size, if gap < 0 then -1 else 0, age.n, gap);
    }
  }

  // A run after which the replay of a live marker never ends.
  lemma ReplayHangs()
    ensures !Exits(Run(2, [Adding([1]), Marking(7), Adding([2])]), 7)
  {
    var ops := [Adding([1]), Marking(7), Adding([2])];
    var marked := ops[..2];
    assert marked == [Adding([1]), Marking(7)] && marked[..1] == [Adding([1])];
    assert marked[..1][..0] == [] && ops[..|ops| - 1] == marked && marked[..|marked| - 1] == marked[..1];
    assert Written(marked[..1]) == [] + [1] == [1];
    assert Written(marked) == [1] + [] == [1];
    assert Written(ops) == [1] + [2] == [1, 2];
    assert AgeOf(marked, 7) == Bytes(0) && AgeOf(ops, 7) == Bytes(1);
    var pos := RunRefines(2, ops);
    DivergesIff(Run(2, ops), 7, [1, 2], pos);
  }

  // A run after which the replay of a lost marker lacks the newest byte.
  lemma ReplayDropsNewest(bs: seq<byte>, n: nat)
    requires n >= 3 && |bs| == n + 2
    ensures var r := Run(n, [Marking(7), Adding(bs)]);
      Exits(r, 7) && Replay(r, 7) == bs[2..n + 1]
  {
    var ops := [Marking(7), Adding(bs)];
    assert ops[..1] == [Marking(7)] && ops[..1][..0] == [];
    assert Written(ops[..1]) == [];
    assert Written(ops) == [] + bs == bs;
    assert AgeOf(ops[..1], 7) == Bytes(0) && AgeOf(ops, 7) == Bytes(|bs|);
    var pos := RunRefines(n, ops);
    Residue.Unique(n, 1, 2, n + 2);
    DropsNewest(Run(n, ops), bs, pos);
  }

  lemma DropsNewest(r: Ring, log: seq<byte>, pos: map<int, nat>)
    requires Refines(r, log, pos) && 7 in pos && pos[7] == 0 && r.size >= 3
    requires |log| == r.size + 2 && |log| % r.size == 2
    ensures Exits(r, 7) && Replay(r, 7) == log[2..r.size + 1]
  {
    DivergesIff(r, 7, log, pos);
    ReplayReturns(r, 7, log, pos);
    assert History(r.size, log)[|log|..] == log[2..];
  }
}
