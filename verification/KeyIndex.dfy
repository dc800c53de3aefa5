/**
 Session-key indices: the ordered key list of src/keystore/keystore.c and the index ccall.c gives a fresh key.
 Key material is left out; a store is the list of its 32-bit indices and the position of the current one.
 */
module KeyIndex {

  const WORD: int := 0x1_0000_0000
  const BLOCK: int := 0x1_0000
  const NUM_KEYS: int := 16
  const NONE: int := -1

  datatype Store = Store(keys: seq<int>, cur: int)

  const EMPTY := Store([], NONE)

  predicate InWord(s: seq<int>, i: int) {
    0 <= i < |s| ==> 0 <= s[i] < WORD
  }

  predicate Before(s: seq<int>, i: int, j: int) {
    0 <= i < j < |s| ==> s[i] < s[j]
  }

  ghost predicate Increasing(s: seq<int>) {
    forall i, j :: Before(s, i, j)
  }

  /** 32-bit indices in ascending order. */
  ghost predicate Ascending(s: seq<int>) {
    (forall i :: InWord(s, i)) && Increasing(s)
  }

  /** What that means, element by element. */
  lemma AscendingMeans(s: seq<int>)
    ensures Ascending(s) <==> && (forall i | 0 <= i < |s| :: 0 <= s[i] < WORD)
                              && (forall i, j | 0 <= i < j < |s| :: s[i] < s[j])
  {
    if Ascending(s) {
      forall i | 0 <= i < |s| ensures 0 <= s[i] < WORD {
        assert InWord(s, i);
      }
      forall i, j | 0 <= i < j < |s| ensures s[i] < s[j] {
        assert Before(s, i, j);
      }
    }
  }

  /** A current key exists exactly when any key does. */
  predicate Pointed(t: Store) {
    if |t.keys| == 0 then t.cur == NONE else 0 <= t.cur < |t.keys|
  }

  /** The list ascends, has its current key, and at most one key before it. */
  ghost predicate Sound(t: Store) {
    Ascending(t.keys) && Pointed(t) && t.cur <= 1
  }

  /** keystore_get_max_key */
  function Max(t: Store): int {
    if |t.keys| == 0 then 0 else t.keys[|t.keys| - 1]
  }

  /** How many listed indices are below x, which is where x belongs. */
  function Rank(s: seq<int>, x: int): (r: nat)
    ensures r <= |s| && (forall i | 0 <= i < r :: s[i] < x) && (r < |s| ==> x <= s[r])
  {
    if |s| == 0 || x <= s[0] then 0 else 1 + Rank(s[1..], x)
  }

  function Insert(s: seq<int>, x: int): seq<int> {
    s[..Rank(s, x)] + [x] + s[Rank(s, x)..]
  }

  /** keystore_organise after the sort: of the keys before the current one, only the last is kept. */
  function Trim(t: Store): (r: Store)
    requires Pointed(t)
    ensures Pointed(r) && r.cur <= 1 && Max(r) == Max(t) && (|r.keys| == 0 <==> |t.keys| == 0)
    ensures t.cur != NONE ==> r.keys[r.cur] == t.keys[t.cur]
  {
    if t.cur <= 1 then t else Store(t.keys[t.cur - 1..], 1)
  }

  /** keystore_set_session_key: a key before the current one or already listed does not change the list. */
  function SetKey(t: Store, x: int): Store
    requires Sound(t) && 0 <= x < WORD
  {
    if t.cur != NONE && x < t.keys[t.cur] then t
    else if x in t.keys then t
    else if t.cur == NONE then Store([x], 0)
    else Store(Insert(t.keys, x), t.cur)
  }

  /** keystore_hash_to_key: the indices from the latest up to x are added one by one. */
  function HashTo(s: seq<int>, x: int): (r: seq<int>)
    requires |s| != 0
    ensures |s| <= |r| && r[|r| - 1] == if x <= s[|s| - 1] then s[|s| - 1] else x
    decreases x - s[|s| - 1]
  {
    if x <= s[|s| - 1] then s else HashTo(s + [s[|s| - 1] + 1], x)
  }

  /** The store hashed forward to x, which becomes current. */
  function Hashed(t: Store, x: int): (r: Store)
    requires |t.keys| != 0 && Max(t) < x
    ensures Pointed(r) && Max(r) == x && |r.keys| != 0
  {
    Store(HashTo(t.keys, x), |HashTo(t.keys, x)| - 1)
  }

  /** The store with the index after its latest added, and current. */
  function OneMore(t: Store): (r: Store)
    requires |t.keys| > 0
    ensures Pointed(r)
  {
    Store(t.keys + [Max(t) + 1], |t.keys|)
  }

  /** Rotating does not hash forward past the last 32-bit index, where there is no next key to move to. */
  predicate CanRotate(t: Store, forward: bool) {
    t.cur != NONE && t.cur + 1 == |t.keys| && forward ==> Max(t) + 1 < WORD
  }

  /** keystore_rotate */
  function Rotate(t: Store, forward: bool): Store
    requires Pointed(t) && CanRotate(t, forward)
  {
    if t.cur == NONE then t
    else if t.cur + 1 < |t.keys| then Trim(Store(t.keys, t.cur + 1))
    else if !forward then t
    else Trim(OneMore(t))
  }

  /** x lies ahead of the latest index by less than NUM_KEYS, compared on 32 bits. */
  predicate Near(latest: int, x: int) {
    latest < x < (latest + NUM_KEYS) % WORD
  }

  /** A key that is not listed and asked for: the store is hashed forward to it if that is allowed and it is near. */
  function Ahead(t: Store, x: int, forward: bool): Store
    requires Pointed(t)
  {
    if forward && |t.keys| != 0 && Near(Max(t), x) then Trim(Hashed(t, x)) else t
  }

  /** keystore_get_media_key: a later key that is asked for becomes current. */
  function Use(t: Store, x: int, forward: bool): Store
    requires Sound(t) && 0 <= x < WORD
  {
    if x in t.keys then
      var p := Rank(t.keys, x);
      RankFinds(t.keys, x);
      if x > t.keys[t.cur] then Trim(Store(t.keys, p)) else t
    else Ahead(t, x, forward)
  }

  // ---------------------------------------------------------------------------------------
  // The list stays in order
  // ---------------------------------------------------------------------------------------

  lemma {:induction false} RankFinds(s: seq<int>, x: int)
    requires Ascending(s) && x in s
    ensures Rank(s, x) < |s| && s[Rank(s, x)] == x
  {
    AscendingMeans(s);
    if s[0] != x {
      assert x in s[1..];
      AscendingMeans(s[1..]);
      RankFinds(s[1..], x);
    }
  }

  lemma InsertAscends(s: seq<int>, x: int)
    requires Ascending(s) && x !in s && 0 <= x < WORD
    ensures Ascending(Insert(s, x)) && x in Insert(s, x)
  {
    var r := Rank(s, x);
    AscendingMeans(s);
    AscendingMeans(Insert(s, x));
    assert Insert(s, x)[r] == x;
    if r < |s| {
      assert x < s[r];
    }
  }

  lemma AppendAscends(s: seq<int>, x: int)
    requires Ascending(s) && |s| > 0 && s[|s| - 1] < x < WORD
    ensures Ascending(s + [x])
  {
    AscendingMeans(s);
    AscendingMeans(s + [x]);
  }

  lemma {:induction false} HashedForward(s: seq<int>, x: int)
    requires |s| != 0 && Ascending(s) && x < WORD
    ensures Ascending(HashTo(s, x)) && (x > s[|s| - 1] ==> |HashTo(s, x)| > |s|)
    decreases x - s[|s| - 1]
  {
    if s[|s| - 1] < x {
      AppendAscends(s, s[|s| - 1] + 1);
      HashedForward(s + [s[|s| - 1] + 1], x);
    }
  }

  /** Hashing forward by one adds the next index. */
  lemma HashOne(s: seq<int>)
    requires |s| != 0
    ensures HashTo(s, s[|s| - 1] + 1) == s + [s[|s| - 1] + 1]
  {
    var next := s + [s[|s| - 1] + 1];
    assert HashTo(next, s[|s| - 1] + 1) == next;
  }

  lemma OneMoreIsHashed(t: Store)
    requires |t.keys| != 0
    ensures Hashed(t, Max(t) + 1) == OneMore(t)
  {
    HashOne(t.keys);
  }

  lemma TrimSound(keys: seq<int>, p: int)
    requires Ascending(keys) && 0 <= p < |keys|
    ensures var r := Trim(Store(keys, p)); Sound(r) && Max(r) == keys[|keys| - 1] && |r.keys| > 0
  {
    AscendingMeans(keys);
    AscendingMeans(Trim(Store(keys, p)).keys);
  }

  lemma OneMoreSound(t: Store)
    requires Ascending(t.keys) && |t.keys| > 0 && Max(t) + 1 < WORD
    ensures var r := Trim(OneMore(t)); Sound(r) && Max(r) == Max(t) + 1 && |r.keys| > 0
  {
    AppendAscends(t.keys, Max(t) + 1);
    TrimSound(OneMore(t).keys, |t.keys|);
  }

  lemma InsertedLast(s: seq<int>, x: int)
    requires Ascending(s) && |s| > 0
    ensures var r := Insert(s, x);
            r[|r| - 1] == if x > s[|s| - 1] then x else s[|s| - 1]
  {
    AscendingMeans(s);
  }

  lemma SingleAscends(x: int)
    requires 0 <= x < WORD
    ensures Ascending([x])
  {
  }

  lemma SetKeyKeeps(t: Store, x: int)
    requires Sound(t) && 0 <= x < WORD
    ensures Sound(SetKey(t, x)) && Max(SetKey(t, x)) >= Max(t) && |SetKey(t, x).keys| != 0
    ensures (t.cur == NONE || x > Max(t)) ==> x in SetKey(t, x).keys && Max(SetKey(t, x)) == x
  {
    if t.cur == NONE {
      SingleAscends(x);
    } else {
      AboveMaxIsNew(t.keys, x);
      if x !in t.keys && x >= t.keys[t.cur] {
        InsertAscends(t.keys, x);
        InsertedLast(t.keys, x);
      }
    }
  }

  lemma AboveMaxIsNew(s: seq<int>, x: int)
    requires Ascending(s) && |s| > 0
    ensures x > s[|s| - 1] ==> x !in s && forall i | 0 <= i < |s| :: s[i] < x
  {
    AscendingMeans(s);
  }

  lemma RotateKeeps(t: Store, forward: bool)
    requires Sound(t) && CanRotate(t, forward)
    ensures Sound(Rotate(t, forward)) && Max(Rotate(t, forward)) >= Max(t)
    ensures |t.keys| == 0 <==> |Rotate(t, forward).keys| == 0
  {
    if t.cur == NONE {
    } else if t.cur + 1 < |t.keys| {
      TrimSound(t.keys, t.cur + 1);
    } else if forward {
      OneMoreSound(t);
    }
  }

  lemma HashedSound(t: Store, x: int)
    requires Ascending(t.keys) && |t.keys| > 0 && Max(t) < x < WORD
    ensures var r := Trim(Hashed(t, x)); Sound(r) && Max(r) == x && |r.keys| > 0
  {
    HashedForward(t.keys, x);
    TrimSound(HashTo(t.keys, x), |HashTo(t.keys, x)| - 1);
  }

  lemma UseKeeps(t: Store, x: int, forward: bool)
    requires Sound(t) && 0 <= x < WORD
    ensures Sound(Use(t, x, forward)) && Max(Use(t, x, forward)) >= Max(t)
    ensures |t.keys| == 0 <==> |Use(t, x, forward).keys| == 0
  {
    if x in t.keys {
      RankFinds(t.keys, x);
      TrimSound(t.keys, Rank(t.keys, x));
      assert Use(t, x, forward) in {t, Trim(Store(t.keys, Rank(t.keys, x)))};
    } else if |t.keys| != 0 && Near(Max(t), x) {
      HashedSound(t, x);
      assert Use(t, x, forward) in {t, Trim(Hashed(t, x))};
    }
  }

  // ---------------------------------------------------------------------------------------
  // Fresh indices
  // ---------------------------------------------------------------------------------------

  /**
   ccall_generate_session_key on 32 bits: fill the low half of the maximum, as a bitwise or with 0xFFFF does, add
   one, and a block more after a promotion.
   */
  function Fresh(max: int, becameKg: bool): (r: int)
    requires 0 <= max < WORD
    ensures 0 <= r < WORD && r % BLOCK == 0
  {
    var filled := max - max % BLOCK + (BLOCK - 1);
    (filled + 1 + if becameKg then BLOCK else 0) % WORD
  }

  function Threshold(becameKg: bool): int {
    if becameKg then 0xFFFE_0000 else 0xFFFF_0000
  }

  /** The fresh index exceeds the maximum exactly below the threshold, where no wrap-around happens. */
  lemma FreshExceedsIff(max: int, becameKg: bool)
    requires 0 <= max < WORD
    ensures Fresh(max, becameKg) > max <==> max < Threshold(becameKg)
    ensures max < Threshold(becameKg) ==>
              Fresh(max, becameKg) == (max / BLOCK + 1 + if becameKg then 1 else 0) * BLOCK
  {
    assert max == max / BLOCK * BLOCK + max % BLOCK;
  }

  /**
   A promoted generator starts a full block above where the outgoing one would: whatever the outgoing one still
   generates from the same block, and rotates inside its own block, stays below.
   */
  lemma PromotedStartsAbove(mine: int, theirs: int, rotations: nat)
    requires 0 <= theirs < WORD && 0 <= mine < Threshold(true)
    requires mine / BLOCK == theirs / BLOCK && rotations < BLOCK
    ensures Fresh(mine, true) == Fresh(theirs, false) + BLOCK
    ensures Fresh(theirs, false) + rotations < Fresh(mine, true)
  {
    FreshExceedsIff(mine, true);
    FreshExceedsIff(theirs, false);
  }

  // ---------------------------------------------------------------------------------------
  // Runs
  // ---------------------------------------------------------------------------------------

  lemma MaxInWord(t: Store)
    requires Sound(t)
    ensures 0 <= Max(t) < WORD
  {
    AscendingMeans(t.keys);
  }

  datatype Client = Client(store: Store, becameKg: bool)

  datatype Event =
    | Promote                           // userlist_kg_change_handler: this client is the generator now
    | Generate                          // ccall_generate_session_key after someone left
    | Turn(forward: bool)               // keystore_rotate
    | Receive(x: int)                   // a key from the generator
    | Ask(x: int, forward: bool)        // a frame encrypted under key x
    | Wipe                              // keystore_reset and keystore_reset_keys

  predicate Good(c: Client, e: Event) {
    match e
    case Turn(forward) => CanRotate(c.store, forward)
    case Receive(x) => 0 <= x < WORD
    case Ask(x, _) => 0 <= x < WORD
    case _ => true
  }

  /** The index the step generates, or NONE. */
  function Generated(c: Client, e: Event): int
    requires Sound(c.store)
  {
    match e
    case Promote => if c.store.cur == NONE then 0 else NONE
    case Generate =>
      MaxInWord(c.store);
      Fresh(Max(c.store), c.becameKg)
    case _ => NONE
  }

  function Step(c: Client, e: Event): Client
    requires Sound(c.store) && Good(c, e)
  {
    match e
    case Promote => if c.store.cur == NONE then Client(SetKey(c.store, 0), false) else c.(becameKg := true)
    case Generate =>
      MaxInWord(c.store);
      Client(SetKey(c.store, Fresh(Max(c.store), c.becameKg)), false)
    case Turn(forward) => c.(store := Rotate(c.store, forward))
    case Receive(x) => c.(store := SetKey(c.store, x))
    case Ask(x, forward) => c.(store := Use(c.store, x, forward))
    case Wipe => c.(store := EMPTY)
  }

  lemma StepKeeps(c: Client, e: Event)
    requires Sound(c.store) && Good(c, e)
    ensures Sound(Step(c, e).store)
    ensures !e.Wipe? ==> Max(Step(c, e).store) >= Max(c.store)
    ensures !e.Wipe? && |c.store.keys| != 0 ==> |Step(c, e).store.keys| != 0
  {
    match e
    case Promote => SetKeyKeeps(c.store, 0);
    case Generate =>
      MaxInWord(c.store);
      SetKeyKeeps(c.store, Fresh(Max(c.store), c.becameKg));
    case Turn(forward) => RotateKeeps(c.store, forward);
    case Receive(x) => SetKeyKeeps(c.store, x);
    case Ask(x, forward) => UseKeeps(c.store, x, forward);
    case Wipe =>
  }

  /** A generation before the wrap-around: the check a caller can make is on the stored maximum. */
  predicate BeforeWrap(c: Client, e: Event) {
    e.Generate? ==> Max(c.store) < Threshold(c.becameKg)
  }

  /** Every step of the run is good and generates before the wrap-around, and none wipes the store. */
  ghost predicate GoodRun(c: Client, es: seq<Event>)
    requires Sound(c.store)
    decreases |es|
  {
    |es| == 0 ||
    (&& Good(c, es[0]) && BeforeWrap(c, es[0]) && !es[0].Wipe?
     && (StepKeeps(c, es[0]); GoodRun(Step(c, es[0]), es[1..])))
  }

  /** The indices generated along the run, in order. */
  ghost function AllGenerated(c: Client, es: seq<Event>): seq<int>
    requires Sound(c.store) && GoodRun(c, es)
    decreases |es|
  {
    if |es| == 0 then []
    else
      var rest := (StepKeeps(c, es[0]); AllGenerated(Step(c, es[0]), es[1..]));
      if Generated(c, es[0]) == NONE then rest else [Generated(c, es[0])] + rest
  }

  /** A step that generates stores its index, which is above all that was there unless the store was empty. */
  lemma GeneratedIsStored(c: Client, e: Event)
    requires Sound(c.store) && Good(c, e) && BeforeWrap(c, e) && Generated(c, e) != NONE
    ensures var g := Generated(c, e);
            && g in Step(c, e).store.keys && Max(Step(c, e).store) == g && g % BLOCK == 0
            && (|c.store.keys| == 0 || g > Max(c.store)) && forall y | y in c.store.keys :: y < g
  {
    if e.Generate? {
      MaxInWord(c.store);
      FreshExceedsIff(Max(c.store), c.becameKg);
    }
    if |c.store.keys| > 0 {
      AboveMaxIsNew(c.store.keys, Generated(c, e));
    }
    SetKeyKeeps(c.store, Generated(c, e));
  }

  lemma {:induction false} GeneratedAbove(c: Client, es: seq<Event>)
    requires Sound(c.store) && GoodRun(c, es) && |c.store.keys| != 0
    ensures forall g | g in AllGenerated(c, es) :: g > Max(c.store)
    decreases |es|
  {
    if |es| > 0 {
      StepKeeps(c, es[0]);
      GeneratedAbove(Step(c, es[0]), es[1..]);
      if Generated(c, es[0]) != NONE {
        GeneratedIsStored(c, es[0]);
      }
    }
  }

  lemma FirstBelowRest(g: int, rest: seq<int>)
    requires Increasing(rest) && forall x | x in rest :: x > g
    ensures Increasing([g] + rest)
  {
    var s := [g] + rest;
    forall i, j ensures Before(s, i, j) {
      assert Before(rest, i - 1, j - 1);
      assert 0 < j < |s| ==> s[j] == rest[j - 1] && rest[j - 1] in rest;
    }
  }

  /** Along any run, whatever is received, asked for or rotated meanwhile, generated indices strictly increase. */
  lemma {:induction false} GeneratedIncrease(c: Client, es: seq<Event>)
    requires Sound(c.store) && GoodRun(c, es)
    ensures Increasing(AllGenerated(c, es))
    decreases |es|
  {
    if |es| > 0 {
      StepKeeps(c, es[0]);
      var next := Step(c, es[0]);
      GeneratedIncrease(next, es[1..]);
      if Generated(c, es[0]) != NONE {
        GeneratedIsStored(c, es[0]);
        GeneratedAbove(next, es[1..]);
        FirstBelowRest(Generated(c, es[0]), AllGenerated(next, es[1..]));
      }
    }
  }

  /**
   A wiped store starts over: a promotion makes key 0 again, and a generation the first block above it, or the second
   after a promotion that is not used up.
   */
  lemma WipedStoreStartsOver(c: Client)
    requires Sound(c.store)
    ensures Sound(Step(c, Wipe).store) && Generated(Step(c, Wipe), Promote) == 0
    ensures Generated(Step(c, Wipe), Generate) == if c.becameKg then 0x2_0000 else 0x1_0000
  {
  }

  // ---------------------------------------------------------------------------------------
  // The key store in place
  // ---------------------------------------------------------------------------------------

  lemma RankIs(s: seq<int>, x: int, p: nat)
    requires p <= |s| && (forall i | 0 <= i < p :: s[i] < x) && (p < |s| ==> x < s[p])
    ensures Rank(s, x) == p
  {
  }

  class Keystore {
    var keys: seq<int>
    var cur: int
    const hashForward: bool

    function Value(): Store
      reads this
    {
      Store(keys, cur)
    }

    ghost predicate Valid()
      reads this
    {
      Sound(Value())
    }

    constructor (hashForward: bool)
      ensures Valid() && Value() == EMPTY && this.hashForward == hashForward
    {
      keys := [];
      cur := NONE;
      this.hashForward := hashForward;
    }

    method Reset()
      modifies this
      ensures Valid() && Value() == EMPTY
    {
      keys := [];
      cur := NONE;
    }

    method GetMaxKey() returns (x: int)
      ensures x == Max(Value())
    {
      x := if |keys| == 0 then 0 else keys[|keys| - 1];
    }

    /** The loop of keystore_organise that drops keys from the head. */
    method Organise()
      requires Pointed(Value())
      modifies this
      ensures Value() == Trim(old(Value()))
    {
      ghost var n := 0;
      while cur > 1
        invariant 0 <= n <= |old(keys)| && (n > 0 ==> cur >= 1)
        invariant keys == old(keys)[n..] && cur == old(cur) - n
        decreases cur
      {
        DropDrop(old(keys), n);
        keys := keys[1..];
        cur := cur - 1;
        n := n + 1;
      }
    }

    /** Append, then move the new index down to its place. */
    method Append(x: int)
      requires Ascending(keys) && x !in keys
      modifies this`keys
      ensures keys == Insert(old(keys), x)
    {
      ghost var s := keys;
      AscendingMeans(s);
      keys := keys + [x];
      var p := |keys| - 1;
      while p > 0 && keys[p - 1] > x
        invariant 0 <= p <= |s| && keys == s[..p] + [x] + s[p..]
        invariant forall i | p <= i < |s| :: x < s[i]
      {
        Swapped(s, x, p);
        keys := keys[p := keys[p - 1]][p - 1 := x];
        p := p - 1;
      }
      assert p > 0 ==> s[p - 1] in s;
      RankIs(s, x, p);
    }

    /** same: the given key is the one stored under that index. Another one replaces it, and is not reported. */
    method SetSessionKey(x: int, same: bool) returns (already: bool)
      requires Valid() && 0 <= x < WORD
      modifies this
      ensures Valid() && Value() == SetKey(old(Value()), x) && Max(Value()) >= Max(old(Value()))
      ensures already <==> (|old(keys)| != 0 && x < old(keys[cur])) || (x in old(keys) && same)
    {
      SetKeyKeeps(Value(), x);
      if cur != NONE && x < keys[cur] {
        return true;
      }
      var i := 0;
      while i < |keys|
        invariant 0 <= i <= |keys| && x !in keys[..i]
      {
        if keys[i] == x {
          return same;
        }
        i := i + 1;
      }
      Append(x);
      if cur == NONE {
        cur := 0;
      }
      already := false;
    }

    method HashToKey(x: int)
      requires |keys| != 0
      modifies this`keys
      ensures keys == HashTo(old(keys), x)
    {
      while keys[|keys| - 1] < x
        invariant |keys| != 0 && HashTo(keys, x) == HashTo(old(keys), x)
        decreases x - keys[|keys| - 1]
      {
        keys := keys + [keys[|keys| - 1] + 1];
      }
    }

    /** Make the key at position p the current one. */
    method MakeCurrent(p: int)
      requires 0 <= p < |keys|
      modifies this
      ensures Value() == Trim(Store(old(keys), p))
    {
      cur := p;
      Organise();
    }

    /** Hash forward to x and make it the current key. */
    method MoveForward(x: int)
      requires |keys| != 0 && Max(Value()) < x
      modifies this
      ensures Value() == Trim(Hashed(old(Value()), x)) && x in keys
    {
      HashToKey(x);
      MakeCurrent(|keys| - 1);
      assert keys[cur] == x;
    }

    method RotateKey() returns (err: bool)
      requires Valid() && CanRotate(Value(), hashForward)
      modifies this
      ensures Valid() && Value() == Rotate(old(Value()), hashForward) && Max(Value()) >= Max(old(Value()))
      ensures err <==> old(cur) == NONE || (old(cur) + 1 == |old(keys)| && !hashForward)
    {
      RotateKeeps(Value(), hashForward);
      err := cur == NONE || (cur + 1 == |keys| && !hashForward);
      if err {
      } else if cur + 1 < |keys| {
        MakeCurrent(cur + 1);
      } else {
        OneMoreIsHashed(Value());
        MoveForward(keys[|keys| - 1] + 1);
      }
    }

    method FindKey(x: int) returns (p: int)
      requires Ascending(keys)
      ensures 0 <= p <= |keys|
      ensures x in keys <==> p < |keys| && keys[p] == x && Rank(keys, x) == p
    {
      p := 0;
      while p < |keys| && keys[p] < x
        invariant 0 <= p <= |keys| && forall i | 0 <= i < p :: keys[i] < x
      {
        p := p + 1;
      }
      if x in keys {
        AscendingMeans(keys);
        RankFinds(keys, x);
      }
    }

    /** A listed key that is asked for. */
    method UseListed(x: int, p: int)
      requires Valid() && 0 <= x < WORD && 0 <= p < |keys| && keys[p] == x && Rank(keys, x) == p
      modifies this
      ensures Value() == Use(old(Value()), x, hashForward) && x in keys
    {
      if x > keys[cur] {
        MakeCurrent(p);
        assert keys[cur] == x;
      }
    }

    /** A key that is not listed. */
    method UseUnlisted(x: int) returns (found: bool)
      requires Pointed(Value()) && x !in keys
      modifies this
      ensures Value() == Ahead(old(Value()), x, hashForward) && (found <==> x in keys)
    {
      found := hashForward && |keys| != 0 && Near(keys[|keys| - 1], x);
      if found {
        MoveForward(x);
      }
    }

    method GetMediaKey(x: int) returns (found: bool)
      requires Valid() && 0 <= x < WORD
      modifies this
      ensures Valid() && Value() == Use(old(Value()), x, hashForward) && Max(Value()) >= Max(old(Value()))
      ensures found <==> x in keys
    {
      UseKeeps(Value(), x, hashForward);
      var p := FindKey(x);
      if p < |keys| && keys[p] == x {
        UseListed(x, p);
        found := true;
      } else {
        found := UseUnlisted(x);
      }
    }
  }

  lemma DropDrop(s: seq<int>, n: nat)
    requires n < |s|
    ensures s[n..][1..] == s[n + 1..]
  {
  }

  lemma Swapped(s: seq<int>, x: int, p: nat)
    requires 0 < p <= |s|
    ensures (s[..p] + [x] + s[p..])[p := s[p - 1]][p - 1 := x] == s[..p - 1] + [x] + s[p - 1..]
  {
  }

  lemma WrapTwice(x: int)
    requires 0 <= x <= WORD
    ensures (x % WORD + BLOCK) % WORD == (x + BLOCK) % WORD
  {
  }

  /** The part of the conference call that makes keys. */
  class KeyGenerator {
    const store: Keystore
    var becameKg: bool

    ghost function Value(): Client
      reads this, store
    {
      Client(store.Value(), becameKg)
    }

    constructor (hashForward: bool)
      ensures store.Valid() && Value() == Client(EMPTY, false) && fresh(store)
    {
      store := new Keystore(hashForward);
      becameKg := false;
    }

    method FreshIndex() returns (x: int)
      requires store.Valid()
      ensures 0 <= Max(store.Value()) < WORD && x == Fresh(Max(store.Value()), becameKg)
    {
      var max := store.GetMaxKey();
      MaxInWord(store.Value());
      x := max - max % BLOCK + (BLOCK - 1);
      x := (x + 1) % WORD;
      if becameKg {
        WrapTwice(max - max % BLOCK + BLOCK);
        x := (x + BLOCK) % WORD;
      }
    }

    /** Below the threshold the key that is made is stored, and above every key stored before. */
    method GenerateSessionKey(isFirst: bool)
      requires store.Valid() && (isFirst ==> store.cur == NONE)
      modifies this, store
      ensures var e := if isFirst then Promote else Generate;
              && store.Valid() && Value() == Step(old(Value()), e)
              && (BeforeWrap(old(Value()), e) ==> forall y | y in old(store.keys) :: y < Max(store.Value()))
    {
      ghost var e := if isFirst then Promote else Generate;
      if BeforeWrap(Value(), e) {
        GeneratedIsStored(Value(), e);
      }
      var x := 0;
      if !isFirst {
        x := FreshIndex();
      }
      becameKg := false;
      var _ := store.SetSessionKey(x, false);
    }

    method KgChange()
      requires store.Valid()
      modifies this, store
      ensures store.Valid() && Value() == Step(old(Value()), Promote)
    {
      if store.cur == NONE {
        GenerateSessionKey(true);
      } else {
        becameKg := true;
      }
    }
  }
}
