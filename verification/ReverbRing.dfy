/** The stages of src/audio_effect/reverb.cpp on their 8192-entry rings, and the chain reverb_process runs. */
module ReverbRing {
  import opened Reverb

  // ---------------------------------------------------------------------------------------
  // A ring that holds the end of a history
  // ---------------------------------------------------------------------------------------

  function Cell(m: int): (i: int)
    ensures 0 <= i < RING
  {
    m % RING
  }

  /** The ring holds the last RING entries of w, silence before its start included. */
  predicate Holds(ring: seq<real>, w: seq<real>) {
    |ring| == RING && forall m | |w| - RING <= m < |w| :: ring[Cell(m)] == At(w, m)
  }

  /** The delay a stage set up with d really has: the ring cannot tell d from d plus or minus its length. */
  function Lag(d: int): (r: nat)
    ensures 1 <= r <= RING
    ensures r == d <==> 1 <= d <= RING
  {
    if d % RING == 0 then RING else d % RING
  }

  lemma SameCell(a: int, b: int, k: int)
    requires b == a + k * RING
    ensures Cell(a) == Cell(b)
  {
  }

  /** Masking the write position less d finds the cell that was written Lag(d) entries ago. */
  lemma CellOfLag(n: int, d: int)
    ensures Cell(Cell(n) - d) == Cell(n - Lag(d))
  {
    var q, p := n / RING, d / RING;
    assert n == q * RING + Cell(n) && d == p * RING + d % RING;
    SameCell(Cell(n) - d, n - Lag(d), if d % RING == 0 then q + p - 1 else q + p);
  }

  lemma OneCellPerWindow(m: int, n: int)
    requires n - RING < m <= n && Cell(m) == Cell(n)
    ensures m == n
  {
  }

  /** Writing at the write position holds the history one entry longer. */
  lemma HoldsNext(ring: seq<real>, w: seq<real>, v: real)
    requires Holds(ring, w)
    ensures Holds(ring[Cell(|w|) := v], w + [v])
  {
    var next := w + [v];
    forall m | |next| - RING <= m < |next| ensures ring[Cell(|w|) := v][Cell(m)] == At(next, m) {
      if Cell(m) == Cell(|w|) {
        OneCellPerWindow(m, |w|);
      } else {
        assert ring[Cell(m)] == At(w, m);
      }
    }
  }

  lemma CellNext(n: int)
    ensures Cell(Cell(n) + 1) == Cell(n + 1)
  {
    SameCell(Cell(n) + 1, n + 1, n / RING);
  }

  lemma LineNext(x: seq<real>, v: real, c: real, d: nat)
    ensures Line(x + [v], c, d) == Line(x, c, d) + [Entry(v, At(Line(x, c, d), |x| - d), c)]
  {
    var z := x + [v];
    assert z[..|z| - 1] == x && z[|z| - 1] == v;
  }

  /** One output sample, and the outputs so far extended by it. */
  lemma FilterNext(x: seq<real>, v: real, c: real, d: nat)
    requires d >= 1
    ensures Filter(x + [v], c, d) == Filter(x, c, d) + [Tap(Line(x + [v], c, d), c, d, |x|)]
  {
    FilterPrefix(x + [v], c, d, |x|);
    assert (x + [v])[..|x|] == x;
  }

  /** What the stage reads back is the line entry Lag(d) ago. */
  lemma ReadsBack(ring: seq<real>, seen: seq<real>, c: real, d: int)
    requires Holds(ring, Line(seen, c, Lag(d)))
    ensures ring[Cell(Cell(|seen|) - d)] == At(Line(seen, c, Lag(d)), |seen| - Lag(d))
  {
    CellOfLag(|seen|, d);
    assert ring[Cell(|seen| - Lag(d))] == At(Line(seen, c, Lag(d)), |seen| - Lag(d));
  }

  lemma OutputNext(seen: seq<real>, x: real, wd: real, w0: real, c: real, d: nat)
    requires d >= 1 && wd == At(Line(seen, c, d), |seen| - d) && w0 == Entry(x, wd, c)
    ensures Line(seen + [x], c, d) == Line(seen, c, d) + [w0]
    ensures Filter(seen + [x], c, d) == Filter(seen, c, d) + [Tapped(w0, wd, c)]
  {
    LineNext(seen, x, c, d);
    FilterNext(seen, x, c, d);
  }

  // ---------------------------------------------------------------------------------------
  // One stage
  // ---------------------------------------------------------------------------------------

  class AllPass {
    const c: real
    const d: int
    const state: array<real>
    var idx: int
    ghost var seen: seq<real>           // every input since the stage was set up

    ghost predicate Valid()
      reads this, state
    {
      && state.Length == RING && Holds(state[..], Line(seen, c, Lag(d))) && idx == Cell(|seen|)
    }

    /** The ideal filter over everything this stage has seen. */
    ghost function Output(): seq<real>
      reads this
    {
      Filter(seen, c, Lag(d))
    }

    /** init_allpass_d */
    constructor (c: real, d: int)
      ensures Valid() && seen == [] && this.c == c && this.d == d && fresh(state)
    {
      this.c := c;
      this.d := d;
      state := new real[RING](_ => 0.0);
      idx := 0;
      seen := [];
    }

    /** allpass_d */
    method Process(x: real) returns (y: real)
      requires Valid()
      modifies this, state
      ensures Valid() && seen == old(seen) + [x]
      ensures Output() == old(Output()) + [y]
    {
      ReadsBack(state[..], seen, c, d);
      var wd := state[Cell(idx - d)];
      var w0 := Entry(x, wd, c);
      OutputNext(seen, x, wd, w0, c, Lag(d));
      HoldsNext(state[..], Line(seen, c, Lag(d)), w0);
      CellNext(|seen|);
      state[idx] := w0;
      idx := Cell(idx + 1);
      seen := seen + [x];
      y := Tapped(w0, wd, c);
    }
  }

  // ---------------------------------------------------------------------------------------
  // The chain
  // ---------------------------------------------------------------------------------------

  function Mix(x: real, y: real): real {
    0.7 * y + x
  }

  function Mixes(xs: seq<real>, ys: seq<real>): (r: seq<real>)
    requires |xs| == |ys|
    ensures |r| == |xs|
  {
    seq(|xs|, i requires 0 <= i < |xs| => Mix(xs[i], ys[i]))
  }

  /** Seen and put out, one more sample of a block. */
  lemma BlockNext(input: seq<real>, i: nat, seen: seq<real>, before: seq<real>, wet: seq<real>, y: real)
    requires i < |input| && |wet| == i
    ensures (seen + input[..i]) + [input[i]] == seen + input[..i + 1]
    ensures (before + wet) + [y] == before + (wet + [y])
    ensures Mixes(input[..i + 1], wet + [y]) == Mixes(input[..i], wet) + [Mix(input[i], y)]
  {
    assert input[..i + 1] == input[..i] + [input[i]];
  }

  lemma WholeBlock<T>(input: seq<T>)
    ensures input[..|input|] == input
  {
  }

  function Joined(blocks: seq<seq<real>>): seq<real> {
    if |blocks| == 0 then [] else Joined(blocks[..|blocks| - 1]) + blocks[|blocks| - 1]
  }

  /** Seen and put out, one more block. */
  lemma BlocksNext(blocks: seq<seq<real>>, k: nat, seen: seq<real>, before: seq<real>, wet: seq<real>, next: seq<real>)
    requires k < |blocks| && |wet| == |Joined(blocks[..k])| && |next| == |blocks[k]|
    ensures Joined(blocks[..k + 1]) == Joined(blocks[..k]) + blocks[k]
    ensures (seen + Joined(blocks[..k])) + blocks[k] == seen + Joined(blocks[..k + 1])
    ensures (before + wet) + next == before + (wet + next)
    ensures Mixes(Joined(blocks[..k + 1]), wet + next) == Mixes(Joined(blocks[..k]), wet) + Mixes(blocks[k], next)
  {
    assert blocks[..k + 1][..k] == blocks[..k];
  }

  class Chain {
    const ap0: AllPass
    const ap1: AllPass
    const ap2: AllPass

    ghost predicate Apart() {
      && ap0 != ap1 && ap0 != ap2 && ap1 != ap2
      && ap0.state != ap1.state && ap0.state != ap2.state && ap1.state != ap2.state
    }

    /** Each stage has seen exactly what the stage before it has put out. */
    ghost predicate Valid()
      reads ap0, ap1, ap2, ap0.state, ap1.state, ap2.state
    {
      && Apart() && ap0.Valid() && ap1.Valid() && ap2.Valid()
      && ap1.seen == ap0.Output() && ap2.seen == ap1.Output()
    }

    /** The three ideal filters in a row over everything the chain has seen. */
    ghost function Wet(x: seq<real>): (y: seq<real>)
      ensures |y| == |x|
    {
      Filter(Filter(Filter(x, ap0.c, Lag(ap0.d)), ap1.c, Lag(ap1.d)), ap2.c, Lag(ap2.d))
    }

    /** What the chain puts out for an input, after all it has seen. */
    ghost function After(seen: seq<real>, input: seq<real>): (y: seq<real>)
      ensures |y| == |input|
    {
      Wet(seen + input)[|seen|..]
    }

    constructor (c0: real, d0: int, c1: real, d1: int, c2: real, d2: int)
      ensures Valid() && ap0.seen == []
      ensures (ap0.c, ap1.c, ap2.c) == (c0, c1, c2) && (ap0.d, ap1.d, ap2.d) == (d0, d1, d2)
      ensures fresh({ap0, ap1, ap2, ap0.state, ap1.state, ap2.state})
    {
      ap0 := new AllPass(c0, d0);
      ap1 := new AllPass(c1, d1);
      ap2 := new AllPass(c2, d2);
    }

    method ProcessOne(x: real) returns (y: real)
      requires Valid()
      modifies ap0, ap1, ap2, ap0.state, ap1.state, ap2.state
      ensures Valid() && ap0.seen == old(ap0.seen) + [x]
      ensures Wet(ap0.seen) == old(Wet(ap0.seen)) + [y]
    {
      y := ap0.Process(x);
      y := ap1.Process(y);
      y := ap2.Process(y);
    }

    /** The sample loop of reverb_process up to the mix of the chain's output with its input. */
    method ProcessBlock(input: seq<real>) returns (out: seq<real>, ghost wet: seq<real>)
      requires Valid()
      modifies ap0, ap1, ap2, ap0.state, ap1.state, ap2.state
      ensures Valid() && ap0.seen == old(ap0.seen) + input
      ensures Wet(ap0.seen) == old(Wet(ap0.seen)) + wet && |wet| == |input|
      ensures out == Mixes(input, wet)
    {
      out := [];
      wet := [];
      var i := 0;
      while i < |input|
        invariant 0 <= i <= |input| && |wet| == i && Valid()
        invariant ap0.seen == old(ap0.seen) + input[..i]
        invariant Wet(ap0.seen) == old(Wet(ap0.seen)) + wet
        invariant out == Mixes(input[..i], wet)
      {
        var y := ProcessOne(input[i]);
        BlockNext(input, i, old(ap0.seen), old(Wet(ap0.seen)), wet, y);
        wet := wet + [y];
        out := out + [Mix(input[i], y)];
        i := i + 1;
      }
      WholeBlock(input);
    }

    /**
     One call for each block. What comes out is fixed by what was seen before and by the joined input: on the rings, as
     on paper, it does not matter where the input is cut.
     */
    method ProcessBlocks(blocks: seq<seq<real>>) returns (out: seq<real>)
      requires Valid()
      modifies ap0, ap1, ap2, ap0.state, ap1.state, ap2.state
      ensures Valid() && ap0.seen == old(ap0.seen) + Joined(blocks)
      ensures out == Mixes(Joined(blocks), After(old(ap0.seen), Joined(blocks)))
    {
      out := [];
      ghost var wet := [];
      var k := 0;
      while k < |blocks|
        invariant 0 <= k <= |blocks| && |wet| == |Joined(blocks[..k])| && Valid()
        invariant ap0.seen == old(ap0.seen) + Joined(blocks[..k])
        invariant Wet(ap0.seen) == old(Wet(ap0.seen)) + wet
        invariant out == Mixes(Joined(blocks[..k]), wet)
      {
        var part;
        ghost var next;
        part, next := ProcessBlock(blocks[k]);
        BlocksNext(blocks, k, old(ap0.seen), old(Wet(ap0.seen)), wet, next);
        wet := wet + next;
        out := out + part;
        k := k + 1;
      }
      WholeBlock(blocks);
    }
  }
}
