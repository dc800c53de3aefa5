/**
 struct time_scale as an object: the loops of src/audio_effect/time_scale.cpp over the ring array,
 proved to perform the edits of module TimeScale.
 */
module TimeScaleBuffer {
  import opened TimeScale

  lemma WrapAdd(a: int, b: int)
    ensures Wrap(Wrap(a) + b) == Wrap(a + b)
  {
    WrapIsMod(a);
    WrapIsMod(Wrap(a) + b);
    WrapIsMod(a + b);
  }

  /** Moving the write index by k moves the fill level by k, as long as it stays a fill level. */
  lemma OccMoves(w: int, r: int, k: int)
    requires 0 <= Wrap(w - r) + k < RING
    ensures Wrap(Wrap(w + k) - r) == Wrap(w - r) + k
  {
    WrapIsMod(w - r);
    WrapIsMod(w + k);
    WrapIsMod(Wrap(w + k) - r);
  }

  lemma OccWraps(w: int, r: int, k: int)
    ensures Wrap(Wrap(w + k) - r) == Wrap(Wrap(w - r) + k)
  {
    WrapIsMod(w - r);
    WrapIsMod(w + k);
    WrapIsMod(Wrap(w + k) - r);
    WrapIsMod(Wrap(w - r) + k);
  }

  lemma ReadIsBehind(w: int, r: int)
    requires 0 <= r < RING
    ensures Wrap(w - Wrap(w - r)) == r
  {
    WrapIsMod(w - r);
    WrapIsMod(w - Wrap(w - r));
  }

  /** Moving the read index by k lowers the fill level by k. */
  lemma OccShrinks(w: int, r: int, k: int)
    requires 0 <= Wrap(w - r) - k < RING
    ensures Wrap(w - Wrap(r + k)) == Wrap(w - r) - k
  {
    WrapIsMod(w - r);
    WrapIsMod(r + k);
    WrapIsMod(w - Wrap(r + k));
  }

  /** The ring read once round, starting at idx. */
  function Rotated(s: seq<int>, idx: int): (r: seq<int>)
    requires |s| == RING
    ensures |r| == RING
  {
    seq(RING, k requires 0 <= k < RING => s[Wrap(idx + k)])
  }

  /** Writing at idx and moving on drops the oldest sample and appends the new one. */
  lemma RotatedPut(s: seq<int>, idx: int, x: int)
    requires |s| == RING && 0 <= idx < RING
    ensures Rotated(s[idx := x], Wrap(idx + 1)) == Rotated(s, idx)[1..] + [x]
  {
    var a, b := Rotated(s[idx := x], Wrap(idx + 1)), Rotated(s, idx)[1..] + [x];
    forall k | 0 <= k < RING ensures a[k] == b[k] {
      WrapAdd(idx + 1, k);
      assert idx + 1 + k == idx + (k + 1);
      assert k == RING - 1 ==> Wrap(idx + (k + 1)) == Wrap(idx) == idx;
    }
  }

  lemma StartsAsIs(from: seq<int>, src: seq<int>)
    ensures (from + src[..0])[0..] == from
  {
  }

  lemma OneFurther(from: seq<int>, src: seq<int>, k: nat)
    requires k < |src| && |from| > 0
    ensures (from + src[..k])[k..][1..] + [src[k]] == (from + src[..k + 1])[k + 1..]
  {
    assert from + src[..k + 1] == (from + src[..k]) + [src[k]];
  }

  lemma EndsAsWhole(from: seq<int>, src: seq<int>)
    ensures (from + src[..|src|])[|src|..] == (from + src)[|src|..]
    ensures |src| <= |from| ==> (from + src)[|src|..] == from[|src|..] + src
  {
    assert src[..|src|] == src;
  }

  /** Seen from m slots further back, the ring starts with the newest m samples. */
  lemma RotatedBack(s: seq<int>, idx: int, m: int)
    requires |s| == RING && 0 <= m <= RING
    ensures Rotated(s, Wrap(idx - m)) == Rotated(s, idx)[RING - m..] + Rotated(s, idx)[..RING - m]
  {
    var a, b := Rotated(s, Wrap(idx - m)), Rotated(s, idx)[RING - m..] + Rotated(s, idx)[..RING - m];
    forall k | 0 <= k < RING ensures a[k] == b[k] {
      WrapAdd(idx - m, k);
      WrapIsMod(idx - m + k);
      WrapIsMod(idx + (RING - m + k));
      assert idx + (RING - m + k) == idx - m + k + RING;
    }
  }

  /** The ring after going back m slots and writing a and then b from there, seen from behind b. */
  function Rewritten(h: seq<int>, m: nat, a: seq<int>, b: seq<int>): seq<int>
    requires m <= |h| && |a| <= |h| && |b| <= |h|
  {
    ((h[|h| - m..] + h[..|h| - m])[|a|..] + a)[|b|..] + b
  }

  /** Going back m slots and writing a and b there, with room to spare, leaves the spare slots as the oldest. */
  lemma WrittenBehind(h: seq<int>, m: nat, a: seq<int>, b: seq<int>)
    requires |a| + |b| <= m <= |h|
    ensures Rewritten(h, m, a, b) == h[|h| - m + |a| + |b|..] + (h[..|h| - m] + a + b)
  {
    var from := h[|h| - m..] + h[..|h| - m];
    assert from[|a|..] == h[|h| - m + |a|..] + h[..|h| - m];
  }

  /** Going back m slots and writing d samples more than that overwrites the d oldest. */
  lemma WrittenAhead(h: seq<int>, d: nat, m: nat, a: seq<int>, b: seq<int>)
    requires |a| <= m && |a| + |b| == m + d <= |h|
    ensures Rewritten(h, m, a, b) == h[d..|h| - m] + a + b
  {
    var from := h[|h| - m..] + h[..|h| - m];
    assert from[|a|..] == h[|h| - m + |a|..] + h[..|h| - m];
  }

  /** Going back and writing a fade and what follows splices them in over the oldest samples. */
  lemma SpliceWrites(h: seq<int>, d: nat, m: nat, b: seq<int>, c: seq<int>, e: seq<int>)
    requires |b| == |c| <= m && |b| + |e| == m + d <= |h|
    ensures Rewritten(h, m, Faded(b, c), e) == Splice(h[d..|h| - m], b, c, e)
  {
    WrittenAhead(h, d, m, Faded(b, c), e);
  }

  lemma RepeatWrites(h: seq<int>, d: nat, keep: nat, f: nat, down: seq<int>, past: seq<int>, last: seq<int>)
    requires f <= d && f <= keep && keep + f + d <= |h| && |past| == d + f
    requires down == h[|h| - keep - f..|h| - keep + f] && last == h[|h| - keep..]
    ensures Rewritten(h, keep + f, Faded(down, past[..2 * f]), past[2 * f..] + last) == Longer(h[d..], past, keep, f)
  {
    LongerOfDrop(h, past, d, keep, f, |h| - keep - f);
    SpliceWrites(h, d, keep + f, down, past[..2 * f], past[2 * f..] + last);
  }

  lemma ShorterIs(h: seq<int>, d: nat, keep: nat, w: nat, down: seq<int>, up: seq<int>, last: seq<int>)
    requires d + w + keep <= |h|
    requires var cut := |h| - d - w - keep;
             down == h[cut..cut + w] && up == h[cut + d..cut + d + w] && last == h[|h| - keep..]
    ensures Shorter(h, d, keep, w) == Splice(h[..|h| - (w + keep + d)], down, up, last)
  {
    ShorterFrom(h, d, keep, w, h[..|h| - (w + keep + d)], down, up, last);
  }

  lemma OverlapWrites(h: seq<int>, d: nat, keep: nat, w: nat, down: seq<int>, up: seq<int>, last: seq<int>)
    requires d + w + keep <= |h|
    requires var cut := |h| - d - w - keep;
             down == h[cut..cut + w] && up == h[cut + d..cut + d + w] && last == h[|h| - keep..]
    ensures Rewritten(h, w + keep + d, Faded(down, up), last) == h[|h| - d..] + Shorter(h, d, keep, w)
  {
    ShorterIs(h, d, keep, w, down, up, last);
    WrittenBehind(h, w + keep + d, Faded(down, up), last);
  }

  lemma SliceOfSlice<T>(h: seq<T>, i: nat, j: nat, a: nat, b: nat)
    requires i <= j <= |h| && a <= b <= j - i
    ensures h[i..j][a..b] == h[i + a..i + b]
  {
    var x, y := h[i..j][a..b], h[i + a..i + b];
    assert forall k | 0 <= k < b - a :: x[k] == h[i..j][a + k] == y[k];
  }

  /** The local copies a removal works from are slices of the ring. */
  lemma SlicesForRemoval(h: seq<int>, d: nat, keep: nat, w: nat)
    requires keep + w + keep + d <= |h|
    ensures var n, r := |h|, keep + w + keep;
            var cut := n - d - w - keep;
            var b1, b2 := h[n - r..n - r + r], h[n - r - d..n - r - d + r];
            && b2[keep..keep + w] == h[cut..cut + w]
            && b1[keep..keep + w] == h[cut + d..cut + d + w]
            && b1[keep + w..keep + w + keep] == h[n - keep..]
  {
    var n, r := |h|, keep + w + keep;
    SliceOfSlice(h, n - r - d, n - r - d + r, keep, keep + w);
    SliceOfSlice(h, n - r, n - r + r, keep, keep + w);
    SliceOfSlice(h, n - r, n - r + r, keep + w, keep + w + keep);
  }

  lemma SlicesForInsertion(h: seq<int>, keep: nat, f: nat)
    requires f <= keep && keep + f <= |h|
    ensures var n, r := |h|, keep + f;
            var b1 := h[n - r..n - r + r];
            b1[..2 * f] == h[n - r..n - r + 2 * f] && b1[f..f + keep] == h[n - keep..]
  {
    var n, r := |h|, keep + f;
    SliceOfSlice(h, n - r, n - r + r, 0, 2 * f);
    SliceOfSlice(h, n - r, n - r + r, f, f + keep);
  }

  class Buffer {
    var fsIn: int
    var fsOut: int
    const buf: array<int>
    var readIdx: int
    var writeIdx: int
    var maxL: int
    var minL: int
    var voiced: bool

    ghost predicate Valid()
      reads this
    {
      buf.Length == RING && 0 <= readIdx < RING && 0 <= writeIdx < RING
    }

    ghost function Ring(idx: int): (r: seq<int>)
      requires buf.Length == RING
      reads buf
      ensures |r| == RING
    {
      Rotated(buf[..], idx)
    }

    ghost function Value(): (v: View)
      requires Valid()
      reads this, buf
      ensures Sound(v)
    {
      View(Ring(writeIdx), Wrap(writeIdx - readIdx))
    }

    constructor (fsInHz: nat, fsOutHz: nat)
      ensures Valid() && fresh(buf) && Value().occ == 0
      ensures fsIn == fsInHz / 1000 && fsOut == fsOutHz / 1000
    {
      buf := new int[RING](_ => 0);
      readIdx, writeIdx := 0, 0;
      fsIn, fsOut := fsInHz / 1000, fsOutHz / 1000;
      maxL, minL, voiced := 0, 0, false;
    }

    /** Stores a sample in the slot idx and gives the slot after it. */
    method Put(idx: int, x: int) returns (next: int)
      requires buf.Length == RING && 0 <= idx < RING
      modifies buf
      ensures 0 <= next < RING && next == Wrap(idx + 1)
      ensures Ring(next) == old(Ring(idx))[1..] + [x]
    {
      RotatedPut(buf[..], idx, x);
      buf[idx] := x;
      assert buf[..] == old(buf[..])[idx := x];
      next := Wrap(idx + 1);
    }

    /** Copies n samples out of the ring, the first one m slots before the write index. */
    method CopyBack(m: int, n: int) returns (s: array<int>)
      requires Valid() && 0 <= n <= m <= RING
      ensures fresh(s) && s[..] == Ring(writeIdx)[RING - m..RING - m + n]
    {
      s := new int[n];
      var idx := Wrap(writeIdx - m);
      RotatedBack(buf[..], writeIdx, m);
      ghost var start, from := idx, Ring(idx);
      for i := 0 to n
        invariant 0 <= idx < RING && idx == Wrap(start + i)
        invariant s[..i] == from[..i]
      {
        WrapAdd(start + i, 1);
        s[i] := buf[idx];
        idx := Wrap(idx + 1);
        assert s[..i + 1] == s[..i] + [s[i]];
      }
      assert s[..n] == s[..];
    }

    /** Writes src from idx on, once round and further if it is longer than the ring. */
    method Write(idx: int, src: seq<int>) returns (next: int)
      requires buf.Length == RING && 0 <= idx < RING
      modifies buf
      ensures 0 <= next < RING && next == Wrap(idx + |src|)
      ensures Ring(next) == (old(Ring(idx)) + src)[|src|..]
      ensures |src| <= RING ==> Ring(next) == old(Ring(idx))[|src|..] + src
    {
      next := idx;
      ghost var from := Ring(idx);
      StartsAsIs(from, src);
      for k := 0 to |src|
        invariant 0 <= next < RING && next == Wrap(idx + k)
        invariant Ring(next) == (from + src[..k])[k..]
      {
        WrapAdd(idx + k, 1);
        OneFurther(from, src, k);
        next := Put(next, src[k]);
      }
      EndsAsWhole(from, src);
    }

    /** The two stretches a removal writes back: a fade across one lag, and the end that stays. */
    method CopyForRemoval(d: int, reach: int) returns (down: seq<int>, up: seq<int>, last: seq<int>)
      requires Valid() && 0 < d && 0 < fsOut <= reach && 2 * reach + d <= RING
      ensures var h, keep, w := Ring(writeIdx), reach - fsOut, 2 * fsOut;
              var cut := RING - d - w - keep;
              && down == h[cut..cut + w] && up == h[cut + d..cut + d + w] && last == h[RING - keep..]
              && |down| == |up| == w && |last| == keep
    {
      var keep, w := reach - fsOut, fsOut * 2;
      var buf1 := CopyBack(2 * reach, 2 * reach);
      var buf2 := CopyBack(2 * reach + d, 2 * reach);
      SlicesForRemoval(Ring(writeIdx), d, keep, w);
      down, up, last := buf2[keep..keep + w], buf1[keep..keep + w], buf1[keep + w..keep + w + keep];
    }

    /** The loop that fades one stretch into another. */
    method Blend(down: seq<int>, up: seq<int>) returns (r: seq<int>)
      requires |down| == |up|
      ensures r == Faded(down, up)
    {
      r := [];
      for i := 0 to |down|
        invariant r == FadedTo(down, up, i)
      {
        r := r + [Mix(down[i], up[i], i, |down|)];
      }
    }

    /** What a removal writes: the fade, and the end that stays. */
    method FadeForRemoval(d: int, reach: int) returns (faded: seq<int>, last: seq<int>)
      requires Valid() && 0 < d && 0 < fsOut <= reach && 2 * reach + d <= RING
      ensures |faded| == 2 * fsOut && |last| == reach - fsOut
      ensures var h := Ring(writeIdx);
              Rewritten(h, reach + fsOut + d, faded, last) == h[RING - d..] + Shorter(h, d, reach - fsOut, 2 * fsOut)
    {
      var down, up;
      down, up, last := CopyForRemoval(d, reach);
      faded := Blend(down, up);
      OverlapWrites(Ring(writeIdx), d, reach - fsOut, 2 * fsOut, down, up, last);
    }

    /** Drops the last d samples behind an overlap that reaches `reach` samples to either side. */
    method Overlap(d: int, reach: int)
      requires Valid() && 0 < d && 0 < fsOut <= reach && 2 * reach + d <= RING
      modifies `writeIdx, buf
      ensures Valid() && writeIdx == Wrap(old(writeIdx) - d)
      ensures var h := old(Ring(writeIdx)); Ring(writeIdx) == h[RING - d..] + Shorter(h, d, reach - fsOut, 2 * fsOut)
    {
      var faded, last := FadeForRemoval(d, reach);
      WriteBehind(reach + fsOut + d, faded, last, -d);
    }

    /** Writes a and then b from idx on. */
    method WriteBoth(idx: int, a: seq<int>, b: seq<int>) returns (next: int)
      requires buf.Length == RING && 0 <= idx < RING && |a| <= RING && |b| <= RING
      modifies buf
      ensures 0 <= next < RING && next == Wrap(idx + |a| + |b|)
      ensures Ring(next) == (old(Ring(idx))[|a|..] + a)[|b|..] + b
    {
      WrapAdd(idx + |a|, |b|);
      next := Write(idx, a);
      next := Write(next, b);
    }

    /** Goes back m slots and writes a and b from there; the write index has moved on by what they exceed m. */
    method WriteBehind(m: int, a: seq<int>, b: seq<int>, ghost moved: int)
      requires Valid() && 0 <= m <= RING && |a| <= RING && |b| <= RING && moved == |a| + |b| - m
      modifies `writeIdx, buf
      ensures Valid() && writeIdx == Wrap(old(writeIdx) + moved)
      ensures Ring(writeIdx) == Rewritten(old(Ring(writeIdx)), m, a, b)
    {
      RotatedBack(buf[..], writeIdx, m);
      WrapAdd(writeIdx - m, |a| + |b|);
      writeIdx := WriteBoth(Wrap(writeIdx - m), a, b);
    }

    method OverlapUnread(d: int, reach: int)
      requires Valid() && 0 < d && 0 < fsOut <= reach && 2 * reach + d <= Wrap(writeIdx - readIdx)
      modifies `writeIdx, buf
      ensures Valid() && Wrap(writeIdx - readIdx) == Wrap(old(writeIdx) - readIdx) - d
      ensures var h := old(Ring(writeIdx)); Ring(writeIdx) == h[RING - d..] + Shorter(h, d, reach - fsOut, 2 * fsOut)
    {
      OccMoves(writeIdx, readIdx, -d);
      Overlap(d, reach);
    }

    method RemoveBy(d: int, reach: int)
      requires Valid() && 0 < d && 0 < fsOut <= reach && 2 * reach + d <= Value().occ
      modifies `writeIdx, buf
      ensures Valid() && Value() == RemovedBy(old(Value()), d, reach, fsOut)
    {
      OverlapUnread(d, reach);
    }

    method RemoveOne(d: int, l: int)
      requires Valid() && 0 < d
      requires d <= Value().occ ==> 0 < fsOut <= RemoveReach(Value().occ, d, l)
      modifies `writeIdx, buf
      ensures Valid()
      ensures Value() == if d > old(Value().occ) then old(Value()) else Removed(old(Value()), d, l, fsOut)
    {
      var occ := Wrap(writeIdx - readIdx);
      if d > occ {
        return;
      }
      var reach := l;
      if occ < 2 * reach + d {
        reach := (occ - d) / 2;
      }
      assert reach == RemoveReach(occ, d, l);
      RemoveBy(d, reach);
    }

    /** The stretches an insertion writes back: a fade into the past, the rest of the past, and the end that stays. */
    method CopyForInsertion(d: int, keep: int) returns (down: seq<int>, past: seq<int>, last: seq<int>)
      requires Valid() && 0 < fsOut <= d && fsOut <= keep && keep + fsOut + d <= RING
      ensures var h, cut := Ring(writeIdx), RING - keep - fsOut;
              && down == h[cut..cut + 2 * fsOut] && past == Past(h, d, keep, fsOut) && last == h[RING - keep..]
              && |down| == 2 * fsOut && |past| == d + fsOut && |last| == keep
    {
      var buf1 := CopyBack(keep + fsOut, keep + fsOut);
      var buf2 := CopyBack(keep + d + fsOut, d + fsOut);
      down, past, last := buf1[..2 * fsOut], buf2[..], buf1[fsOut..fsOut + keep];
      SlicesForInsertion(Ring(writeIdx), keep, fsOut);
    }

    /** What an insertion writes: the fade into the past, and the rest of the past with the end that stays. */
    method FadeForInsertion(d: int, keep: int) returns (faded: seq<int>, rest: seq<int>)
      requires Valid() && 0 < fsOut <= d && fsOut <= keep && keep + fsOut + d <= RING
      ensures |faded| == 2 * fsOut && |rest| == keep + d - fsOut
      ensures var h := Ring(writeIdx);
              Rewritten(h, keep + fsOut, faded, rest) == Longer(h[d..], Past(h, d, keep, fsOut), keep, fsOut)
    {
      var down, past, last := CopyForInsertion(d, keep);
      faded := Blend(down, past[..2 * fsOut]);
      rest := past[2 * fsOut..] + last;
      RepeatWrites(Ring(writeIdx), d, keep, fsOut, down, past, last);
    }

    /** Repeats d samples of the past in front of the last `keep`. */
    method Repeat(d: int, keep: int)
      requires Valid() && 0 < fsOut <= d && fsOut <= keep && keep + fsOut + d <= RING
      modifies `writeIdx, buf
      ensures Valid() && writeIdx == Wrap(old(writeIdx) + d)
      ensures var h := old(Ring(writeIdx)); Ring(writeIdx) == Longer(h[d..], Past(h, d, keep, fsOut), keep, fsOut)
    {
      var faded, rest := FadeForInsertion(d, keep);
      WriteBehind(keep + fsOut, faded, rest, d);
    }

    method RepeatUnread(d: int, keep: int)
      requires Valid() && 0 < fsOut <= d && fsOut <= keep && keep + fsOut + d <= RING
      requires Wrap(writeIdx - readIdx) + d < RING
      modifies `writeIdx, buf
      ensures Valid() && Wrap(writeIdx - readIdx) == Wrap(old(writeIdx) - readIdx) + d
      ensures var h := old(Ring(writeIdx)); Ring(writeIdx) == Longer(h[d..], Past(h, d, keep, fsOut), keep, fsOut)
    {
      OccMoves(writeIdx, readIdx, d);
      Repeat(d, keep);
    }

    method InsertBy(d: int, keep: int)
      requires Valid() && 0 < fsOut <= d && fsOut <= keep && keep + fsOut + d <= RING && Value().occ + d < RING
      modifies `writeIdx, buf
      ensures Valid() && Value() == InsertedBy(old(Value()), d, keep, fsOut)
    {
      RepeatUnread(d, keep);
    }

    method InsertOne(d: int, l: int)
      requires Valid() && CanInsert(Value(), d, l, fsOut)
      modifies `writeIdx, buf
      ensures Valid() && Value() == Inserted(old(Value()), d, l, fsOut)
    {
      var occ := Wrap(writeIdx - readIdx);
      var keep := l;
      if occ < keep + fsOut {
        keep := occ - fsOut;
      }
      assert keep == InsertReach(occ, fsOut, l);
      InsertBy(d, keep);
    }

    method Insert(input: seq<int>, pLmax: int, pLmin: int, v: bool)
      requires Valid()
      modifies this, buf
      ensures Valid() && Value() == Pushed(old(Value()), input)
      ensures fsIn == old(fsIn) && fsOut == old(fsOut) && maxL == pLmax && minL == pLmin && voiced == v
    {
      maxL := pLmax;
      minL := pLmin;
      voiced := v;
      OccWraps(writeIdx, readIdx, |input|);
      writeIdx := Write(writeIdx, input);
    }

    /** The lag time_scale_extract may settle on: one of the searched ones, or 10 ms. */
    predicate LagChoice(d: int)
      reads this
    {
      d == fsIn * 10 || (voiced && minL <= d <= maxL)
    }

    /** Shortens while more than 45 ms wait. */
    method ShrinkLoop(d: int)
      requires Valid() && Rates(fsIn, fsOut) && LagInRange(d, fsOut)
      modifies `writeIdx, buf
      ensures Valid() && Value() == Shrunk(old(Value()), d, fsIn, fsOut)
    {
      var occ := Wrap(writeIdx - readIdx);
      while occ > fsOut * 45
        invariant Valid() && occ == Value().occ
        invariant Shrunk(Value(), d, fsIn, fsOut) == Shrunk(old(Value()), d, fsIn, fsOut)
        decreases occ
      {
        ShrunkStep(Value(), d, fsIn, fsOut);
        RemoveOne(d, 20 * fsIn);
        occ := Wrap(writeIdx - readIdx);
      }
    }

    /** Stretches by about 10 ms. */
    method StretchLoop(d: int)
      requires Valid() && Rates(fsIn, fsOut) && LagInRange(d, fsOut)
      requires 2 * fsOut <= Value().occ && Value().occ + Repeats(d, fsOut) * d <= 55 * fsOut && 0 <= Repeats(d, fsOut)
      modifies `writeIdx, buf
      ensures Valid() && Value() == Stretched(old(Value()), d, fsIn, fsOut, Repeats(d, fsOut))
    {
      var n := Repeats(d, fsOut);
      for i := 0 to n
        invariant Valid() && 2 * fsOut <= Value().occ && Value().occ + (n - i) * d <= 55 * fsOut
        invariant Stretched(Value(), d, fsIn, fsOut, n - i) == Stretched(old(Value()), d, fsIn, fsOut, n)
      {
        StretchedStep(Value(), d, fsIn, fsOut, n - i);
        InsertOne(d, 20 * fsIn);
      }
    }

    /** Stretches until `target` samples wait. */
    method FillLoop(d: int, target: int)
      requires Valid() && 0 < fsOut <= 218 && LagInRange(d, fsOut)
      requires 2 * fsOut <= Value().occ <= 55 * fsOut && target <= 35 * fsOut
      modifies `writeIdx, buf
      ensures Valid() && Value() == Filled(old(Value()), d, fsOut, target)
    {
      var occ := Wrap(writeIdx - readIdx);
      while occ < target
        invariant Valid() && occ == Value().occ && 2 * fsOut <= occ <= 55 * fsOut
        invariant Filled(Value(), d, fsOut, target) == Filled(old(Value()), d, fsOut, target)
        decreases target - occ
      {
        InsertOne(d, fsOut);
        occ := Wrap(writeIdx - readIdx);
      }
    }

    method Ease(d: int, stretch: bool)
      requires Valid() && Rates(fsIn, fsOut) && LagInRange(d, fsOut)
      requires 2 * fsOut <= Value().occ <= 45 * fsOut
      modifies `writeIdx, buf
      ensures Valid() && Value() == Eased(old(Value()), d, stretch, fsIn, fsOut)
    {
      RepeatsBounded(d, fsOut);
      if Wrap(writeIdx - readIdx) < fsOut * 35 && stretch {
        StretchLoop(d);
      }
    }

    method Replenish(d: int, stretch: bool, target: int)
      requires Valid() && Rates(fsIn, fsOut) && LagInRange(d, fsOut)
      requires 2 * fsOut <= Value().occ <= 45 * fsOut && target <= 21 * fsOut
      modifies `writeIdx, buf
      ensures Valid() && Value() == Replenished(old(Value()), d, stretch, fsIn, fsOut, target)
    {
      Ease(d, stretch);
      FillLoop(d, target);
    }

    method Prepare(d: int, stretch: bool, n: int)
      requires Valid() && Rates(fsIn, fsOut) && LagInRange(d, fsOut)
      requires 2 * fsOut <= Value().occ && 0 <= n <= 18 * fsOut
      modifies `writeIdx, buf
      ensures Valid() && Value() == Prepared(old(Value()), d, stretch, fsIn, fsOut, n)
    {
      var occ := Wrap(writeIdx - readIdx);
      if occ > fsOut * 45 {
        ShrinkLoop(d);
      } else {
        Replenish(d, stretch, n + 3 * fsOut);
      }
    }

    method ReadOut(out: array<int>, n: int)
      requires Valid() && 0 <= n <= RING && n <= out.Length && out != buf
      modifies `readIdx, out
      ensures Valid() && readIdx == Wrap(old(readIdx) + n)
      ensures out[..n] == Ring(old(readIdx))[..n] && out[n..] == old(out[n..])
    {
      ghost var start, from := readIdx, Ring(readIdx);
      for i := 0 to n
        invariant 0 <= readIdx < RING && readIdx == Wrap(start + i)
        invariant out[..i] == from[..i] && out[n..] == old(out[n..])
      {
        WrapAdd(start + i, 1);
        out[i] := buf[readIdx];
        readIdx := Wrap(readIdx + 1);
        assert out[..i + 1] == out[..i] + [out[i]];
      }
    }

    /** Hands out the n oldest unread samples. */
    method Pop(out: array<int>, n: int)
      requires Valid() && 0 <= n <= Value().occ && n <= out.Length && out != buf
      modifies `readIdx, out
      ensures Valid() && Value() == View(old(Value().hist), old(Value().occ) - n)
      ensures out[..n] == old(Queue(Value()))[..n] && out[n..] == old(out[n..])
    {
      RotatedBack(buf[..], writeIdx, Value().occ);
      ReadIsBehind(writeIdx, readIdx);
      OccShrinks(writeIdx, readIdx, n);
      ReadOut(out, n);
    }

    /**
     time_scale_extract: the loops end, the buffer is edited as prescribed, and the n oldest samples
     of the edited buffer are handed out.
     */
    method Extract(out: array<int>, n: int, d: int, stretch: bool)
      requires Valid() && Rates(fsIn, fsOut) && LagChoice(d) && LagInRange(d, fsOut)
      requires 2 * fsOut <= Value().occ && 0 <= n <= 18 * fsOut && n <= out.Length && out != buf
      modifies `writeIdx, `readIdx, buf, out
      ensures Valid()
      ensures var p := Prepared(old(Value()), d, stretch, fsIn, fsOut, n);
              && Value() == View(p.hist, p.occ - n)
              && out[..n] == Queue(p)[..n] && out[n..] == old(out[n..])
              && 3 * fsOut <= Value().occ <= 55 * fsOut
    {
      Prepare(d, stretch, n);
      Pop(out, n);
    }
  }
}
