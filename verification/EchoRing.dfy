/** Samples by absolute position in running time, kept in a ring; what is not there
    reads as silence. */
module EchoRing {
  /** The ring as the caller sees it: one past the newest position, and the last sample
      accepted for each position. Positions without one are silent. */
  datatype Tape = Blank | Tape(end: int, heard: map<int, int>)

  function Max(a: int, b: int): int { if a > b then a else b }

  /** Whether a block at `pos` starts the tape over instead of joining what is there. */
  predicate StartsOver(t: Tape, size: int, pos: int) { t.Blank? || pos - t.end > size }

  /** Where the window stands while the block is taken: samples at or below `Edge - size`
      are refused, the one exactly there included. */
  function Edge(t: Tape, size: int, pos: int): int { if StartsOver(t, size, pos) then pos else Max(t.end, pos) }

  function Written(t: Tape, size: int, pos: int, samples: seq<int>): Tape {
    var edge := Edge(t, size, pos);
    var kept := if StartsOver(t, size, pos) then map[] else t.heard;
    Tape(Max(edge, pos + |samples|),
         kept + Accepted(pos, samples, edge - size))
  }

  /** The samples of a block above `floor`, each at its position. */
  function Accepted(pos: int, samples: seq<int>, floor: int): map<int, int>
    decreases |samples|
  {
    if samples == [] then map[]
    else
      var n := |samples| - 1;
      var m := Accepted(pos, samples[..n], floor);
      if pos + n > floor then m[pos + n := samples[n]] else m
  }

  lemma {:induction false} AcceptedAt(pos: int, samples: seq<int>, floor: int, p: int)
    ensures var m := Accepted(pos, samples, floor);
      && (p in m <==> pos <= p < pos + |samples| && p > floor)
      && (p in m ==> m[p] == samples[p - pos])
    decreases |samples|
  {
    if samples != [] {
      AcceptedAt(pos, samples[..|samples| - 1], floor, p);
    }
  }

  function Heard(t: Tape, size: int, p: int): int {
    if t.Tape? && 0 <= p && t.end - size <= p < t.end && p in t.heard then t.heard[p] else 0
  }

  /** What was just written is read back, except what the window refused or has left; every
      other position still in the window reads as before. Only a block more than the ring's
      size past the end, or the first, starts over from silence. */
  lemma WriteThenRead(t: Tape, size: int, pos: int, samples: seq<int>, p: int)
    requires 0 < size && 0 <= pos && 0 <= p
    requires t.Tape? ==> forall q :: q in t.heard ==> q < t.end
    ensures var w := Written(t, size, pos, samples);
      var over := t.Blank? || pos > t.end + size;
      var edge := if over || pos > t.end then pos else t.end;
      && w == Tape(if edge > pos + |samples| then edge else pos + |samples|, w.heard)
      && Heard(w, size, p) ==
           if p < w.end - size || p >= w.end then 0
           else if pos <= p < pos + |samples| && p > edge - size then samples[p - pos]
           else if over then 0
           else if p >= t.end - size then Heard(t, size, p) else 0
  {
    AcceptedAt(pos, samples, Edge(t, size, pos) - size, p);
  }

  lemma SlotsDiffer(p: int, q: int, size: int)
    requires 0 < size && 0 <= p < q < p + size
    ensures p % size != q % size
  {
    var d := q / size - p / size;
    assert p == size * (p / size) + p % size && q == size * (q / size) + q % size;
    assert size * d == size * (q / size) - size * (p / size);
    MulBounds(size, d);
  }

  lemma MulBounds(x: int, y: int)
    requires x > 0
    ensures y >= 1 ==> x * y >= x
    ensures y <= 0 ==> x * y <= 0
  {
  }

  /** The slots hold the window of `[end - size, end)`. */
  ghost predicate Mirrors(data: seq<int>, t: Tape) {
    && 0 < |data|
    && (t.Tape? ==>
      && 0 <= t.end
      && (forall q :: q in t.heard ==> q < t.end)
      && forall p {:trigger Slot(p, |data|)} :: 0 <= p && t.end - |data| <= p < t.end ==>
           data[Slot(p, |data|)] == if p in t.heard then t.heard[p] else 0)
  }

  function Slot(p: int, size: int): (s: int)
    requires 0 < size && 0 <= p
    ensures 0 <= s < size
  {
    p % size
  }

  /** One slot written for `p`: the window grows to cover it, or keeps its end. */
  lemma PutSlot(data: seq<int>, t: Tape, p: int, v: int, heard: map<int, int>)
    requires Mirrors(data, t) && t.Tape? && 0 <= p <= t.end && t.end - |data| < p
    requires heard == t.heard[p := v] || (v == 0 && p == t.end && heard == t.heard)
    ensures Mirrors(data[Slot(p, |data|) := v], Tape(Max(t.end, p + 1), heard))
  {
    var size := |data|;
    var s := Slot(p, size);
    var end := Max(t.end, p + 1);
    forall q | 0 <= q && end - size <= q < end
      ensures data[s := v][Slot(q, size)] == if q in heard then heard[q] else 0
    {
      if q < p {
        SlotsDiffer(q, p, size);
      } else if p < q {
        SlotsDiffer(p, q, size);
      }
    }
  }

  lemma MirrorsBounds(data: seq<int>, t: Tape)
    requires Mirrors(data, t)
    ensures 0 < |data| && (t.Tape? ==> 0 <= t.end)
  {
  }

  /** The tape with the first `i` samples of a block taken. */
  ghost function Upto(base: Tape, size: int, pos: int, samples: seq<int>, i: nat): Tape
    requires base.Tape? && i <= |samples|
  {
    Tape(Max(base.end, pos + i), base.heard + Accepted(pos, samples[..i], base.end - size))
  }

  lemma AcceptedSnoc(pos: int, samples: seq<int>, floor: int, i: nat)
    requires i < |samples|
    ensures Accepted(pos, samples[..i + 1], floor)
         == var m := Accepted(pos, samples[..i], floor);
            if pos + i > floor then m[pos + i := samples[i]] else m
  {
    assert samples[..i + 1][..i] == samples[..i];
  }

  lemma UptoNext(base: Tape, size: int, pos: int, samples: seq<int>, i: nat)
    requires base.Tape? && i < |samples| && 0 < size && 0 <= pos <= base.end
    ensures var t, p := Upto(base, size, pos, samples, i), pos + i;
      && t.Tape? && p <= t.end && t.end == Max(base.end, p)
      && (p > base.end - size ==> t.end - size < p)
      && Upto(base, size, pos, samples, i + 1)
         == if p > base.end - size then Tape(Max(t.end, p + 1), t.heard[p := samples[i]]) else t
  {
    AcceptedSnoc(pos, samples, base.end - size, i);
    hide Accepted;
    var m, v := Accepted(pos, samples[..i], base.end - size), samples[i];
    assert base.heard + m[pos + i := v] == (base.heard + m)[pos + i := v];
  }

  lemma UptoEnds(base: Tape, size: int, pos: int, samples: seq<int>)
    requires base.Tape? && 0 <= pos <= base.end
    ensures Upto(base, size, pos, samples, 0) == base
    ensures Upto(base, size, pos, samples, |samples|)
         == Tape(Max(base.end, pos + |samples|), base.heard + Accepted(pos, samples, base.end - size))
  {
    assert samples[..|samples|] == samples;
    assert base.heard + Accepted(pos, samples[..0], base.end - size) == base.heard;
  }

  lemma MirrorsSilence(data: seq<int>, pos: int)
    requires 0 < |data| && 0 <= pos && forall h :: 0 <= h < |data| ==> data[h] == 0
    ensures Mirrors(data, Tape(pos, map[]))
  {
  }

  class Ring {
    const data: array<int>
    var unset: bool
    var end: int
    ghost var tape: Tape

    ghost predicate Valid()
      reads this, data
    {
      && Mirrors(data[..], tape)
      && (unset <==> tape.Blank?) && (!unset ==> end == tape.end)
    }

    constructor (size: nat)
      requires size > 0
      ensures Valid() && data.Length == size && tape == Blank
      ensures fresh(data)
    {
      data := new int[size](_ => 0);
      unset, end, tape := true, 0, Blank;
    }

    /** One past the newest sample, or -1 while empty. */
    method End() returns (e: int)
      requires Valid()
      ensures e == if tape.Blank? then -1 else tape.end
    {
      e := if unset then -1 else end;
    }

    /** Brings the end to a block's start: over from silence, or across a gap of it. */
    method Reach(pos: int)
      requires Valid() && 0 <= pos
      modifies this, data
      ensures Valid() && !unset
      ensures tape == Tape(Edge(old(tape), data.Length, pos),
                           if StartsOver(old(tape), data.Length, pos) then map[] else old(tape).heard)
    {
      hide Mirrors, Slot;
      MirrorsBounds(data[..], tape);
      var size := data.Length;
      ghost var edge := Edge(tape, size, pos);
      if unset || pos - end > size {
        for i := 0 to size
          invariant forall h :: 0 <= h < i ==> data[h] == 0
        {
          data[i] := 0;
        }
        unset, end := false, pos;
        tape := Tape(pos, map[]);
        MirrorsSilence(data[..], pos);
      }
      ghost var kept := tape.heard;
      while end < pos
        invariant Valid() && !unset && 0 <= end <= edge && pos <= edge
        invariant tape.heard == kept
        decreases pos - end
      {
        PutSlot(data[..], tape, end, 0, kept);
        data[Slot(end, size)] := 0;
        tape := Tape(end + 1, kept);
        end := end + 1;
      }
    }

    method Write(pos: int, samples: seq<int>)
      requires Valid() && 0 <= pos
      modifies this, data
      ensures Valid() && tape == Written(old(tape), data.Length, pos, samples)
    {
      hide Mirrors, Slot, Upto;
      var size := data.Length;
      Reach(pos);
      MirrorsBounds(data[..], tape);
      ghost var base := tape;
      UptoEnds(base, size, pos, samples);
      for i := 0 to |samples|
        invariant Mirrors(data[..], tape) && !unset && end == base.end
        invariant tape == Upto(base, size, pos, samples, i)
      {
        var p := pos + i;
        UptoNext(base, size, pos, samples, i);
        if p > end - size {
          PutSlot(data[..], tape, p, samples[i], tape.heard[p := samples[i]]);
          data[Slot(p, size)] := samples[i];
          tape := Tape(Max(tape.end, p + 1), tape.heard[p := samples[i]]);
        }
      }
      end := Max(end, pos + |samples|);
    }

    method Read(pos: int, count: nat) returns (out: seq<int>)
      requires Valid()
      ensures |out| == count
      ensures forall i :: 0 <= i < count ==> out[i] == Heard(tape, data.Length, pos + i)
    {
      var size := data.Length;
      out := [];
      for i := 0 to count
        invariant |out| == i && forall h :: 0 <= h < i ==> out[h] == Heard(tape, size, pos + h)
      {
        var p := pos + i;
        if !unset && p >= 0 && p < end && p >= end - size {
          assert data[..][Slot(p, size)] == data[p % size];
          out := out + [data[p % size]];
        } else {
          out := out + [0];
        }
      }
    }
  }
}
