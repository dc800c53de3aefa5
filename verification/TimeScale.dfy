/**
 The time-scale ring buffer (src/audio_effect/time_scale.cpp): samples wait in a ring of 16384
 and are shortened or stretched by whole pitch lags with a linear cross-fade.

 Which lag correlates best, and whether it correlates well enough to stretch, is decided in
 floating point; both decisions are inputs here. Everything else is exact. The cross-fade is
 taken over rationals, rounded toward zero like the cast to int16_t.
 */
module TimeScale {

  const RING: int := 16384

  /** `i & TS_MASK`: the slot of the ring that i falls on. */
  function Wrap(i: int): (r: int)
    ensures 0 <= r < RING
    decreases if i < 0 then RING - i else i
  {
    if i < 0 then Wrap(i + RING) else if i < RING then i else Wrap(i - RING)
  }

  lemma ModShift(i: int)
    ensures (i + 16384) % 16384 == i % 16384
  {
  }

  lemma {:induction false} WrapIsMod(i: int)
    ensures Wrap(i) == i % 16384
    decreases if i < 0 then RING - i else i
  {
    if i < 0 {
      WrapIsMod(i + RING);
      ModShift(i);
    } else if i >= RING {
      WrapIsMod(i - RING);
      ModShift(i - RING);
    }
  }

  // ---------------------------------------------------------------------------------------
  // Cross-fading
  // ---------------------------------------------------------------------------------------

  /** C division: rounds toward zero. */
  function TruncDiv(a: int, n: int): int
    requires n > 0
  {
    if a >= 0 then a / n else -((-a) / n)
  }

  /** Sample i of n of a fade from `down` to `up`. */
  function Mix(down: int, up: int, i: int, n: int): int
    requires 0 <= i < n
  {
    TruncDiv(down * (n - 1 - i) + up * (i + 1), n)
  }

  /** The first k samples of a fade from down into up. */
  function FadedTo(down: seq<int>, up: seq<int>, k: nat): (r: seq<int>)
    requires k <= |down| == |up|
    ensures |r| == k
  {
    if k == 0 then [] else FadedTo(down, up, k - 1) + [Mix(down[k - 1], up[k - 1], k - 1, |down|)]
  }

  function Faded(down: seq<int>, up: seq<int>): (r: seq<int>)
    requires |down| == |up|
    ensures |r| == |down|
  {
    FadedTo(down, up, |down|)
  }

  /** Every sample of a fade is the mix of the two it stands for. */
  lemma {:induction false} FadedAt(down: seq<int>, up: seq<int>, k: nat, i: nat)
    requires i < k <= |down| == |up|
    ensures FadedTo(down, up, k)[i] == Mix(down[i], up[i], i, |down|)
    decreases k
  {
    if i < k - 1 {
      FadedAt(down, up, k - 1, i);
    }
  }

  lemma MulMono(a: int, b: int, n: int)
    requires n >= 0
    ensures a <= b ==> a * n <= b * n
  {
    if a <= b {
      assert 0 <= (b - a) * n;
    }
  }

  lemma TruncDivBetween(a: int, n: int, lo: int, hi: int)
    requires n > 0 && lo * n <= a <= hi * n
    ensures lo <= TruncDiv(a, n) <= hi
  {
    var q := TruncDiv(a, n);
    MulMono(q + 1, lo, n);
    MulMono(hi + 1, q, n);
    if a >= 0 {
      assert q * n <= a < q * n + n;
    } else {
      assert q * n - n < a <= q * n;
    }
    assert (q + 1) * n == q * n + n && (hi + 1) * n == hi * n + n;
  }

  /** A faded sample lies between the two it is mixed from, so int16 samples stay int16; the last one is `up`. */
  lemma MixBetween(down: int, up: int, i: int, n: int, lo: int, hi: int)
    requires 0 <= i < n && lo <= down <= hi && lo <= up <= hi
    ensures lo <= Mix(down, up, i, n) <= hi
    ensures i == n - 1 ==> Mix(down, up, i, n) == up
  {
    var p, q := n - 1 - i, i + 1;
    MulMono(lo, down, p);
    MulMono(down, hi, p);
    MulMono(lo, up, q);
    MulMono(up, hi, q);
    Distribute(lo, p, q);
    Distribute(hi, p, q);
    TruncDivBetween(down * p + up * q, n, lo, hi);
    if i == n - 1 {
      TruncDivBetween(up * n, n, up, up);
    }
  }

  lemma Distribute(a: int, p: int, q: int)
    ensures a * (p + q) == a * p + a * q
  {
  }

  // ---------------------------------------------------------------------------------------
  // The buffer as a value
  // ---------------------------------------------------------------------------------------

  /** All of the ring, oldest slot first, and how many of the newest samples are still unread. */
  datatype View = View(hist: seq<int>, occ: nat)

  predicate Sound(v: View) {
    |v.hist| == RING && v.occ < RING
  }

  /** The unread samples. */
  function Queue(v: View): (q: seq<int>)
    requires Sound(v)
    ensures |q| == v.occ
  {
    v.hist[RING - v.occ..]
  }

  /** How far back the overlap of a shortening reaches (the adjusted L of time_scale_remove_one). */
  function RemoveReach(occ: int, d: int, l: int): int {
    if occ < 2 * l + d then (occ - d) / 2 else l
  }

  /** How much of the end a stretching leaves alone (the adjusted L of time_scale_insert_one). */
  function InsertReach(occ: int, f: int, l: int): int {
    if occ < l + f then occ - f else l
  }

  predicate CanRemove(v: View, d: int, l: int, f: int) {
    Sound(v) && 0 < d <= v.occ && 0 < f <= RemoveReach(v.occ, d, l)
  }

  predicate CanInsert(v: View, d: int, l: int, f: int) {
    && Sound(v) && 0 < f <= d && f <= InsertReach(v.occ, f, l)
    && v.occ + d < RING && InsertReach(v.occ, f, l) + f + d <= RING
  }

  /** a, then a fade from b into c, then e. */
  function Splice(a: seq<int>, b: seq<int>, c: seq<int>, e: seq<int>): (r: seq<int>)
    requires |b| == |c|
    ensures |r| == |a| + |b| + |e|
  {
    a + Faded(b, c) + e
  }

  /**
   Shortening a sequence by d: a prefix stays, the w samples there fade into the w samples one lag
   later, and the last `keep` samples stay.
   */
  function Shorter(q: seq<int>, d: nat, keep: nat, w: nat): (r: seq<int>)
    requires d + w + keep <= |q|
    ensures |r| == |q| - d
  {
    var cut := |q| - d - w - keep;
    Splice(q[..cut], q[cut..cut + w], q[cut + d..cut + d + w], q[|q| - keep..])
  }

  /**
   Stretching a sequence by d: a prefix stays, w samples fade into `past`, which is what was heard one
   lag earlier up to the kept end, the rest of `past` is repeated, and the last `keep` samples stay.
   */
  function Longer(q: seq<int>, past: seq<int>, keep: nat, f: nat): (r: seq<int>)
    requires f <= keep && keep + f <= |q| && 2 * f <= |past|
    ensures |r| == |q| + |past| - f
  {
    var cut := |q| - keep - f;
    Splice(q[..cut], q[cut..cut + 2 * f], past[..2 * f], past[2 * f..] + q[|q| - keep..])
  }

  /** The d + f samples that end where the kept end begins. */
  function Past(h: seq<int>, d: nat, keep: nat, f: nat): (r: seq<int>)
    requires keep + f + d <= |h|
    ensures |r| == d + f
  {
    h[|h| - keep - f - d..|h| - keep]
  }

  /** The overlap reaches `reach` samples to either side. */
  function RemovedBy(v: View, d: int, reach: int, f: int): (r: View)
    requires Sound(v) && 0 < d && 0 < f <= reach && 2 * reach + d <= v.occ
    ensures Sound(r)
  {
    View(v.hist[RING - d..] + Shorter(v.hist, d, reach - f, 2 * f), v.occ - d)
  }

  /** time_scale_remove_one: the whole ring is shortened and the freed slots come round as the oldest. */
  function Removed(v: View, d: int, l: int, f: int): (r: View)
    requires CanRemove(v, d, l, f)
    ensures Sound(r)
  {
    RemovedBy(v, d, RemoveReach(v.occ, d, l), f)
  }

  /** The last `keep` samples are left alone. */
  function InsertedBy(v: View, d: int, keep: int, f: int): (r: View)
    requires Sound(v) && 0 < f <= d && f <= keep && keep + f + d <= RING && v.occ + d < RING
    ensures Sound(r)
  {
    View(Longer(v.hist[d..], Past(v.hist, d, keep, f), keep, f), v.occ + d)
  }

  /** time_scale_insert_one: the whole ring is stretched and the oldest slots are overwritten. */
  function Inserted(v: View, d: int, l: int, f: int): (r: View)
    requires CanInsert(v, d, l, f)
    ensures Sound(r)
  {
    InsertedBy(v, d, InsertReach(v.occ, f, l), f)
  }

  lemma SpliceSuffix(a: seq<int>, b: seq<int>, c: seq<int>, e: seq<int>, k: nat)
    requires |b| == |c| && k <= |a|
    ensures Splice(a, b, c, e)[k..] == Splice(a[k..], b, c, e)
  {
  }

  /** Slices of what follows off, by their places in the whole. */
  lemma SliceOfDrop(h: seq<int>, off: nat, i: nat, j: nat)
    requires off <= i <= j <= |h|
    ensures h[off..][i - off..j - off] == h[i..j]
  {
    var x, y := h[off..][i - off..j - off], h[i..j];
    assert |x| == |y| && forall k | 0 <= k < j - i :: x[k] == h[i + k] == y[k];
  }

  lemma TakeOfDrop(h: seq<int>, off: nat, j: nat)
    requires off <= j <= |h|
    ensures h[off..][..j - off] == h[off..j]
  {
    var x, y := h[off..][..j - off], h[off..j];
    assert |x| == |y| && forall k | 0 <= k < j - off :: x[k] == h[off + k] == y[k];
  }

  lemma DropOfDrop(h: seq<int>, off: nat, i: nat)
    requires off <= i <= |h|
    ensures h[off..][i - off..] == h[i..]
  {
    var x, y := h[off..][i - off..], h[i..];
    assert |x| == |y| && forall k | 0 <= k < |h| - i :: x[k] == h[i + k] == y[k];
  }

  lemma ShorterFrom(q: seq<int>, d: nat, keep: nat, w: nat, a: seq<int>, b: seq<int>, c: seq<int>, e: seq<int>)
    requires d + w + keep <= |q| && |b| == |c|
    requires var cut := |q| - d - w - keep;
             a == q[..cut] && b == q[cut..cut + w] && c == q[cut + d..cut + d + w] && e == q[|q| - keep..]
    ensures Shorter(q, d, keep, w) == Splice(a, b, c, e)
  {
  }

  lemma LongerFrom(q: seq<int>, past: seq<int>, keep: nat, f: nat, a: seq<int>, b: seq<int>, e: seq<int>)
    requires f <= keep && keep + f <= |q| && 2 * f <= |past|
    requires var cut := |q| - keep - f;
             a == q[..cut] && b == q[cut..cut + 2 * f] && e == q[|q| - keep..]
    ensures Longer(q, past, keep, f) == Splice(a, b, past[..2 * f], past[2 * f..] + e)
  {
  }

  lemma DropAppend(a: seq<int>, b: seq<int>, k: nat)
    requires k <= |b|
    ensures (a + b)[|a| + k..] == b[k..]
  {
  }

  /** An edit near the end commutes with dropping a prefix. */
  lemma ShorterOfSuffix(h: seq<int>, off: nat, d: nat, keep: nat, w: nat)
    requires d + w + keep + off <= |h|
    ensures Shorter(h, d, keep, w)[off..] == Shorter(h[off..], d, keep, w)
  {
    var c := |h| - d - w - keep;
    SpliceSuffix(h[..c], h[c..c + w], h[c + d..c + d + w], h[|h| - keep..], off);
    ShorterOfDrop(h, off, d, keep, w, c);
  }

  lemma ShorterOfDrop(h: seq<int>, off: nat, d: nat, keep: nat, w: nat, c: nat)
    requires d + w + keep + off <= |h| && c == |h| - d - w - keep
    ensures Shorter(h[off..], d, keep, w) == Splice(h[off..c], h[c..c + w], h[c + d..c + d + w], h[|h| - keep..])
  {
    TakeOfDrop(h, off, c);
    SliceOfDrop(h, off, c, c + w);
    SliceOfDrop(h, off, c + d, c + d + w);
    DropOfDrop(h, off, |h| - keep);
    ShorterFrom(h[off..], d, keep, w, h[off..c], h[c..c + w], h[c + d..c + d + w], h[|h| - keep..]);
  }

  lemma LongerOfSuffix(h: seq<int>, past: seq<int>, off: nat, keep: nat, f: nat)
    requires f <= keep && keep + f + off <= |h| && 2 * f <= |past|
    ensures Longer(h, past, keep, f)[off..] == Longer(h[off..], past, keep, f)
  {
    var c := |h| - keep - f;
    SpliceSuffix(h[..c], h[c..c + 2 * f], past[..2 * f], past[2 * f..] + h[|h| - keep..], off);
    LongerOfDrop(h, past, off, keep, f, c);
  }

  lemma LongerOfDrop(h: seq<int>, past: seq<int>, off: nat, keep: nat, f: nat, c: nat)
    requires f <= keep && keep + f + off <= |h| && 2 * f <= |past| && c == |h| - keep - f
    ensures Longer(h[off..], past, keep, f)
            == Splice(h[off..c], h[c..c + 2 * f], past[..2 * f], past[2 * f..] + h[|h| - keep..])
  {
    TakeOfDrop(h, off, c);
    SliceOfDrop(h, off, c, c + 2 * f);
    DropOfDrop(h, off, |h| - keep);
    LongerFrom(h[off..], past, keep, f, h[off..c], h[c..c + 2 * f], h[|h| - keep..]);
  }

  /** On the unread samples a removal is a shortening by exactly one lag. */
  lemma RemovedQueue(v: View, d: int, l: int, f: int)
    requires CanRemove(v, d, l, f)
    ensures Queue(Removed(v, d, l, f)) == Shorter(Queue(v), d, RemoveReach(v.occ, d, l) - f, 2 * f)
  {
    RemovedByQueue(v, d, RemoveReach(v.occ, d, l), f);
  }

  lemma RemovedByQueue(v: View, d: int, reach: int, f: int)
    requires Sound(v) && 0 < d && 0 < f <= reach && 2 * reach + d <= v.occ
    ensures Queue(RemovedBy(v, d, reach, f)) == Shorter(Queue(v), d, reach - f, 2 * f)
  {
    ShorterOfSuffix(v.hist, RING - v.occ, d, reach - f, 2 * f);
    DropAppend(v.hist[RING - d..], Shorter(v.hist, d, reach - f, 2 * f), RING - v.occ);
  }

  /** On the unread samples an insertion is a stretching by exactly one lag, fed from the ring's history. */
  lemma InsertedQueue(v: View, d: int, l: int, f: int)
    requires CanInsert(v, d, l, f)
    ensures var keep := InsertReach(v.occ, f, l);
            Queue(Inserted(v, d, l, f)) == Longer(Queue(v), Past(v.hist, d, keep, f), keep, f)
  {
    InsertedByQueue(v, d, InsertReach(v.occ, f, l), f);
  }

  lemma InsertedByQueue(v: View, d: int, keep: int, f: int)
    requires Sound(v) && 0 < f <= d && f <= keep && keep + f <= v.occ && keep + f + d <= RING && v.occ + d < RING
    ensures Queue(InsertedBy(v, d, keep, f)) == Longer(Queue(v), Past(v.hist, d, keep, f), keep, f)
  {
    LongerTail(v.hist, Past(v.hist, d, keep, f), d, RING - v.occ, keep, f);
  }

  /** Seen from `off` on, it does not matter that the d oldest samples are gone. */
  lemma LongerTail(h: seq<int>, past: seq<int>, d: nat, off: nat, keep: nat, f: nat)
    requires 2 * f <= |past| && f <= keep && d <= off && off + keep + f <= |h|
    ensures Longer(h[d..], past, keep, f)[off - d..] == Longer(h[off..], past, keep, f)
  {
    DropOfDrop(h, d, off);
    LongerOfSuffix(h[d..], past, off - d, keep, f);
  }

  // ---------------------------------------------------------------------------------------
  // One round: insert, edit, extract
  // ---------------------------------------------------------------------------------------

  /** Sample rates in kHz the effects use: the input rate is between half and one and a half of the output rate. */
  predicate Rates(fin: int, f: int) {
    0 < f <= 218 && f <= 2 * fin <= 3 * f
  }

  predicate LagInRange(d: int, f: int) {
    f <= d <= 20 * f
  }

  /** time_scale_insert: the ring takes any number of samples, and counts what is unread modulo its length. */
  function Pushed(v: View, xs: seq<int>): (r: View)
    requires Sound(v)
    ensures Sound(r)
  {
    View((v.hist + xs)[|xs|..], Wrap(v.occ + |xs|))
  }

  lemma WrapInRange(i: int)
    requires 0 <= i < RING
    ensures Wrap(i) == i
  {
  }

  /** The samples join the queue exactly when they do not lap the ring. */
  lemma PushedQueueIff(v: View, xs: seq<int>)
    requires Sound(v)
    ensures Queue(Pushed(v, xs)) == Queue(v) + xs <==> v.occ + |xs| < RING
  {
    if v.occ + |xs| < RING {
      WrapInRange(v.occ + |xs|);
      PushedSlices(v, xs);
    } else {
      assert |Queue(Pushed(v, xs))| < RING <= |Queue(v) + xs|;
    }
  }

  lemma PushedSlices(v: View, xs: seq<int>)
    requires Sound(v) && v.occ + |xs| < RING
    ensures (v.hist + xs)[|xs|..][RING - v.occ - |xs|..] == Queue(v) + xs
  {
  }

  /** The loop that shortens while more than 45 ms wait. */
  function Shrunk(v: View, d: int, fin: int, f: int): (r: View)
    requires Sound(v) && Rates(fin, f) && LagInRange(d, f)
    ensures Sound(r)
    ensures if v.occ <= 45 * f then r == v else 25 * f < r.occ <= 45 * f
    decreases v.occ
  {
    if v.occ <= 45 * f then v else Shrunk(Removed(v, d, 20 * fin, f), d, fin, f)
  }

  lemma ShrunkStep(v: View, d: int, fin: int, f: int)
    requires Sound(v) && Rates(fin, f) && LagInRange(d, f) && v.occ > 45 * f
    ensures CanRemove(v, d, 20 * fin, f) && d <= v.occ
    ensures Removed(v, d, 20 * fin, f).occ < v.occ
    ensures Shrunk(v, d, fin, f) == Shrunk(Removed(v, d, 20 * fin, f), d, fin, f)
  {
  }

  /** How many lags make up 10 ms, to the nearest. */
  function Repeats(d: int, f: int): int
    requires 0 < d
  {
    (20 * f + d) / (2 * d)
  }

  lemma RepeatsBounded(d: int, f: int)
    requires 0 < f && LagInRange(d, f)
    ensures 0 <= Repeats(d, f) && Repeats(d, f) * d <= 20 * f
  {
    var n := Repeats(d, f);
    assert n * (2 * d) <= 20 * f + d;
    assert n * (2 * d) == 2 * (n * d);
  }

  lemma OneOfMany(n: nat, d: int)
    requires 0 < n && 0 <= d
    ensures n * d == d + (n - 1) * d && 0 <= (n - 1) * d
  {
  }

  /** There is room for the first of n more lags, and then for the others. */
  lemma StretchRoom(v: View, d: int, fin: int, f: int, n: nat)
    requires Sound(v) && Rates(fin, f) && LagInRange(d, f) && 0 < n
    requires 2 * f <= v.occ && v.occ + n * d <= 55 * f
    ensures CanInsert(v, d, 20 * fin, f) && v.occ + d + (n - 1) * d <= 55 * f
  {
    OneOfMany(n, d);
    RoomForLag(v, d, fin, f);
  }

  lemma RoomForLag(v: View, d: int, fin: int, f: int)
    requires Sound(v) && Rates(fin, f) && LagInRange(d, f) && 2 * f <= v.occ && v.occ + d <= 55 * f
    ensures CanInsert(v, d, 20 * fin, f)
  {
  }

  /** The loop that stretches n times. */
  function Stretched(v: View, d: int, fin: int, f: int, n: nat): (r: View)
    requires Sound(v) && Rates(fin, f) && LagInRange(d, f)
    requires 2 * f <= v.occ && v.occ + n * d <= 55 * f
    ensures Sound(r) && r.occ == v.occ + n * d
    decreases n
  {
    if n == 0 then v
    else
      StretchRoom(v, d, fin, f, n);
      OneOfMany(n, d);
      Stretched(Inserted(v, d, 20 * fin, f), d, fin, f, n - 1)
  }

  lemma StretchedStep(v: View, d: int, fin: int, f: int, n: nat)
    requires Sound(v) && Rates(fin, f) && LagInRange(d, f) && 0 < n
    requires 2 * f <= v.occ && v.occ + n * d <= 55 * f
    ensures CanInsert(v, d, 20 * fin, f)
    ensures var r := Inserted(v, d, 20 * fin, f);
            && 2 * f <= r.occ && r.occ + (n - 1) * d <= 55 * f
            && Stretched(v, d, fin, f, n) == Stretched(r, d, fin, f, n - 1)
  {
    StretchRoom(v, d, fin, f, n);
  }

  /** The loop that stretches until `target` samples wait. */
  function Filled(v: View, d: int, f: int, target: int): (r: View)
    requires Sound(v) && 0 < f <= 218 && LagInRange(d, f)
    requires 2 * f <= v.occ <= 55 * f && target <= 35 * f
    ensures Sound(r) && target <= r.occ <= 55 * f && (target <= v.occ ==> r == v)
    decreases target - v.occ
  {
    if v.occ >= target then v else Filled(Inserted(v, d, f, f), d, f, target)
  }

  /** When less than 35 ms wait and the signal is periodic enough, it is stretched by about 10 ms. */
  function Eased(v: View, d: int, stretch: bool, fin: int, f: int): (r: View)
    requires Sound(v) && Rates(fin, f) && LagInRange(d, f) && 2 * f <= v.occ <= 45 * f
    ensures Sound(r) && v.occ <= r.occ <= 55 * f
  {
    RepeatsBounded(d, f);
    if v.occ < 35 * f && stretch then Stretched(v, d, fin, f, Repeats(d, f)) else v
  }

  function Replenished(v: View, d: int, stretch: bool, fin: int, f: int, target: int): (r: View)
    requires Sound(v) && Rates(fin, f) && LagInRange(d, f)
    requires 2 * f <= v.occ <= 45 * f && target <= 21 * f
    ensures Sound(r) && target <= r.occ <= 55 * f
  {
    Filled(Eased(v, d, stretch, fin, f), d, f, target)
  }

  /** What time_scale_extract does to the buffer before it hands out n samples. */
  function Prepared(v: View, d: int, stretch: bool, fin: int, f: int, n: int): (r: View)
    requires Sound(v) && Rates(fin, f) && LagInRange(d, f)
    requires 2 * f <= v.occ && 0 <= n <= 18 * f
    ensures Sound(r) && n + 3 * f <= r.occ <= 55 * f
  {
    if v.occ > 45 * f then Shrunk(v, d, fin, f)
    else Replenished(v, d, stretch, fin, f, n + 3 * f)
  }

  datatype Round = Round(samples: seq<int>, lag: int, stretch: bool, count: int)

  predicate RoundOk(r: Round, f: int) {
    |r.samples| <= 20 * f && LagInRange(r.lag, f) && 0 <= r.count <= 18 * f
  }

  function Played(v: View, r: Round, fin: int, f: int): (w: View)
    requires Sound(v) && Rates(fin, f) && RoundOk(r, f)
    requires v.occ <= 55 * f && 2 * f <= v.occ + |r.samples|
    ensures Sound(w)
  {
    var p := Prepared(Pushed(v, r.samples), r.lag, r.stretch, fin, f, r.count);
    View(p.hist, p.occ - r.count)
  }

  /** A run stays in bounds: every round finds the ring within limits and leaves 3 to 55 ms unread. */
  predicate Bounded(v: View, rounds: seq<Round>, fin: int, f: int)
    requires Sound(v) && Rates(fin, f)
    requires forall i | 0 <= i < |rounds| :: RoundOk(rounds[i], f)
    decreases |rounds|
  {
    rounds == [] ||
    (&& v.occ <= 55 * f && 2 * f <= v.occ + |rounds[0].samples| <= 75 * f < RING
     && var w := Played(v, rounds[0], fin, f);
        3 * f <= w.occ <= 55 * f && Bounded(w, rounds[1..], fin, f))
  }

  lemma {:induction false} RunsStayBounded(v: View, rounds: seq<Round>, fin: int, f: int)
    requires Sound(v) && Rates(fin, f)
    requires forall i | 0 <= i < |rounds| :: RoundOk(rounds[i], f)
    requires v.occ <= 55 * f && (rounds != [] ==> 2 * f <= v.occ + |rounds[0].samples|)
    ensures Bounded(v, rounds, fin, f)
    decreases |rounds|
  {
    if rounds != [] {
      RunsStayBounded(Played(v, rounds[0], fin, f), rounds[1..], fin, f);
    }
  }
}
