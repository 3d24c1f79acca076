/** The Buffer object of peers/buffer.go, updated in place, against the ring on values. */
module Buffers {
  import Iteration
  import Residue
  import Ring

  type byte = Ring.byte

  class Buffer {
    var markers: map<int, int>
    var data: array<byte>
    var end: int
    const size: nat

    // History: every byte added so far, and the log position of each live mark.
    ghost var log: seq<byte>
    ghost var pos: map<int, nat>

    ghost function State(): Ring.Ring
      reads this, data
    {
      Ring.Ring(size, data[..], end, markers)
    }

    ghost predicate Valid()
      reads this, data
    {
      Ring.Refines(State(), log, pos)
    }

    constructor (size: nat)
      requires size >= 1
      ensures Valid() && fresh(data) && this.size == size
      ensures State() == Ring.New(size) && log == [] && pos == map[]
    {
      this.size := size;
      markers := map[];
      data := new byte[size](_ => 0);
      end := 0;
      log, pos := [], map[];
      new;
      assert data[..] == Ring.Zeros(size);
      Ring.NewRefines(size);
    }

    method Add(b: seq<byte>)
      requires Valid()
      modifies this, data
      ensures Valid() && data == old(data)
      ensures State() == Ring.Add(old(State()), b)
      ensures log == old(log) + b && pos == old(pos)
    {
      ghost var was := State();
      var i := 0;
      while i < |b|
        invariant 0 <= i <= |b| && data == old(data)
        invariant Ring.Shaped(State()) && size == was.size
        invariant State() == Ring.Add(was, b[..i])
        invariant log == old(log) && pos == old(pos)
      {
        ghost var before := State();
        data[end] := b[i];
        end := end + 1;
        if end == size {
          end := 0;
        }
        InvalidateAtEnd();
        assert State() == Ring.AddByte(before, b[i]);
        OneMore(was, b, i);
        i := i + 1;
      }
      assert b[..i] == b;
      Ring.AddRefines(was, b, log, pos);
      log := log + b;
    }

    // The inner loop of Add over the marker map.
    method InvalidateAtEnd()
      modifies this`markers
      ensures markers == Ring.Lapped(old(markers), end)
    {
      var keys, was := markers.Keys, markers;
      while keys != {}
        invariant keys <= was.Keys == markers.Keys
        invariant forall k :: k in markers ==>
          markers[k] == if k !in keys && was[k] == end then -1 else was[k]
        decreases keys
      {
        var k := Iteration.Next(keys);
        if markers[k] == end {
          markers := markers[k := -1];
        }
        keys := keys - {k};
      }
      assert forall k :: k in markers ==> markers[k] == if was[k] == end then -1 else was[k];
      assert markers == Ring.Lapped(was, end);
    }

    static lemma OneMore(r: Ring.Ring, b: seq<byte>, i: nat)
      requires Ring.Shaped(r) && i < |b|
      ensures Ring.Add(r, b[..i + 1]) == Ring.AddByte(Ring.Add(r, b[..i]), b[i])
    {
      Ring.AddSplits(r, b[..i], [b[i]]);
      assert b[..i] + [b[i]] == b[..i + 1];
    }

    method Mark(id: int)
      requires Valid()
      modifies this`markers, this`pos
      ensures Valid()
      ensures State() == Ring.Mark(old(State()), id)
      ensures pos == old(pos)[id := |log|]
    {
      Ring.MarkRefines(State(), id, log, pos);
      markers := markers[id := end];
      pos := pos[id := |log|];
    }

    // The loop of GetSinceMarker: its exit test runs before the wrap.
    method Collect(start: int, stop: int) returns (r: seq<byte>)
      requires data.Length == size >= 1 && 0 <= start <= size && 0 <= stop <= size
      requires start == stop || stop != 0
      ensures r == Ring.Walk(data[..], start, stop)
    {
      r := [];
      var i := start;
      ghost var cells := data[..];
      assert [] + Ring.Walk(cells, start, stop) == Ring.Walk(cells, start, stop);
      while i != stop
        invariant 0 <= i <= size && (i == stop || stop != 0)
        invariant r + Ring.Walk(cells, i, stop) == Ring.Walk(cells, start, stop)
        decreases Ring.Distance(size, i, stop)
      {
        Longer(r, cells, i, stop);
        if i == size {
          i := 0;
        }
        r := r + [data[i]];
        i := i + 1;
      }
    }

    // One more cell of the walk.
    static lemma Longer(done: seq<byte>, cells: seq<byte>, i: nat, stop: nat)
      requires |cells| >= 1 && i <= |cells| && stop <= |cells| && i != stop && stop != 0
      ensures var j := Ring.Visited(|cells|, i);
        done + [cells[j]] + Ring.Walk(cells, j + 1, stop) == done + Ring.Walk(cells, i, stop)
    {
      var j := Ring.Visited(|cells|, i);
      Regroup(done, [cells[j]], Ring.Walk(cells, j + 1, stop));
    }

    static lemma Regroup(a: seq<byte>, b: seq<byte>, c: seq<byte>)
      ensures a + b + c == a + (b + c)
    {}

    // The precondition is exactly the condition under which the loop ends (Ring.ReplayEndsIff).
    method GetSinceMarker(id: int) returns (r: seq<byte>)
      requires Valid() && Ring.Exits(State(), id)
      modifies this`markers, this`pos
      ensures Valid()
      ensures State() == Ring.Consume(old(State()), id)
      ensures pos == Ring.Forget(old(pos), id)
      ensures r == Ring.Returned(size, log, old(pos), id)
    {
      var start, stop;
      if id == -1 || (if id in markers then markers[id] else 0) == -1 {
        start := end;
        if start == 0 {
          stop := size;
        } else {
          stop := start - 1;
        }
      } else {
        start := if id in markers then markers[id] else 0;
        stop := end;
      }
      r := Collect(start, stop);
      Ring.ReplayReturns(State(), id, log, pos);
      Ring.ConsumeRefines(State(), id, log, pos);
      if id != -1 {
        markers := markers - {id};
        pos := pos - {id};
      }
    }

    // A reader that keeps its comment in every state: it counts the bytes it owes.
    method GetSinceMarkerCounted(id: int) returns (r: seq<byte>)
      requires Valid()
      modifies this`markers, this`pos
      ensures Valid()
      ensures State() == Ring.Consume(old(State()), id)
      ensures pos == Ring.Forget(old(pos), id)
      ensures r == Ring.Promised(size, log, old(pos), id)
    {
      var lost := id == -1 || (id in markers && markers[id] == -1);
      var i := if lost then end else if id in markers then markers[id] else 0;
      var count := if lost then size else if i <= end then end - i else end - i + size;
      r := CollectCounted(i, count);
      assert r == Ring.Repaired(State(), id);
      Ring.RepairedKeepsPromise(State(), id, log, pos);
      Ring.ConsumeRefines(State(), id, log, pos);
      if id != -1 {
        markers := markers - {id};
        pos := pos - {id};
      }
    }

    method CollectCounted(start: nat, count: nat) returns (r: seq<byte>)
      requires data.Length == size >= 1 && start < size
      ensures r == Ring.Gather(data[..], start, count)
    {
      r := [];
      var i := start;
      ghost var cells := data[..];
      Residue.Unique(size, 0, start, start);
      while |r| < count
        invariant |r| <= count && 0 <= i < size && i == (start + |r|) % size
        invariant r == Ring.Gather(cells, start, |r|)
        decreases count - |r|
      {
        NextIndex(size, start, |r|);
        OneMoreCell(cells, start, |r|);
        r := r + [data[i]];
        i := if i + 1 == size then 0 else i + 1;
      }
    }

    static lemma OneMoreCell(cells: seq<byte>, start: nat, n: nat)
      requires |cells| >= 1
      ensures Ring.Gather(cells, start, n + 1) == Ring.Gather(cells, start, n) + [cells[(start + n) % |cells|]]
    {}

    static lemma NextIndex(n: nat, start: nat, k: nat)
      requires n >= 1
      ensures (start + k + 1) % n == if (start + k) % n + 1 == n then 0 else (start + k) % n + 1
    {
      Residue.Advance(n, start + k, 1);
    }
  }
}
