// The radix sort that orders the edges crossing a scanline by their x:
// four passes over the list, one per hexadecimal digit of the 16-bit x,
// least significant digit first. Each pass distributes the list into 16
// buckets, keeping the list order inside a bucket, and concatenates the
// buckets in digit order.
//
// The list holds edge numbers; keys[e] is the x of edge e, which every edge
// on a scanline has.
module RadixSort {

  /** 16^i, the weight of hexadecimal digit i. */
  function Pow16(i: nat): (r: nat)
    ensures r >= 1
  {
    if i == 0 then 1 else 16 * Pow16(i - 1)
  }

  /** Digit i of x as `(x >> (4 * i)) & 0xF` takes it: the arithmetic shift
      by 4 * i is i floor divisions by 16, and the mask keeps the remainder
      modulo 16, for a negative x too. */
  function Digit(x: int, i: nat): (r: int)
    ensures 0 <= r < 16
    decreases i
  {
    if i == 0 then x % 16 else Digit(x / 16, i - 1)
  }

  /** The number formed by the low i digits of x. */
  function Low(x: int, i: nat): (r: int)
    ensures 0 <= r < Pow16(i)
    decreases i
  {
    if i == 0 then 0 else x % 16 + 16 * Low(x / 16, i - 1)
  }

  /** The x of edge e. */
  function Key(keys: seq<int>, e: nat): int
  {
    if e < |keys| then keys[e] else 0
  }

  /** The edge numbers in strictly increasing order, as a scanline's edges
      are collected. */
  predicate Increasing(l: seq<nat>)
  {
    forall a, b | 0 <= a < b < |l| :: l[a] < l[b]
  }

  /** Sorted by the low i digits of the key, and by edge number among equal
      low digits. */
  predicate LexSorted(keys: seq<int>, l: seq<nat>, i: nat)
  {
    forall a, b | 0 <= a < b < |l| ::
      Low(Key(keys, l[a]), i) < Low(Key(keys, l[b]), i) || (Low(Key(keys, l[a]), i) == Low(Key(keys, l[b]), i) && l[a] < l[b])
  }

  /** Bucket d after distributing l on digit i: the elements of l whose
      digit i is d, in list order. */
  function Bucket(keys: seq<int>, l: seq<nat>, i: nat, d: int): (r: seq<nat>)
    decreases |l|
  {
    if l == [] then []
    else
      var x := l[|l| - 1];
      Bucket(keys, l[..|l| - 1], i, d) + (if Digit(Key(keys, x), i) == d then [x] else [])
  }

  /** Buckets 0 .. k-1 after distributing l on digit i, concatenated. */
  function Gather(keys: seq<int>, l: seq<nat>, i: nat, k: nat): (r: seq<nat>)
  {
    if k == 0 then [] else Gather(keys, l, i, k - 1) + Bucket(keys, l, i, k - 1)
  }

  /** One pass: distribute on digit i and recombine all 16 buckets. */
  function Pass(keys: seq<int>, l: seq<nat>, i: nat): (r: seq<nat>)
  {
    Gather(keys, l, i, 16)
  }

  /** The list after the first i passes. */
  function Radix(keys: seq<int>, l: seq<nat>, i: nat): (r: seq<nat>)
  {
    if i == 0 then l else Pass(keys, Radix(keys, l, i - 1), i - 1)
  }

  /** The source's rsort: an empty list is returned as it is; otherwise four
      passes over the 16 buckets. */
  method RSort(keys: seq<int>, inlist: seq<nat>) returns (plist: seq<nat>)
    ensures plist == Radix(keys, inlist, 4)
  {
    if inlist == [] {
      RadixNil(keys, 4);
      return [];
    }
    var bucket := new seq<nat>[16](_ => []);
    plist := inlist;
    for i := 0 to 4
      invariant plist == Radix(keys, inlist, i)
      invariant forall d | 0 <= d < 16 :: bucket[d] == []
    {
      Distribute(keys, plist, i, bucket);
      plist := Recombine(keys, plist, i, bucket);
    }
  }

  /** The first half of a pass: every element is appended at the tail of the
      bucket of its digit i. */
  method Distribute(keys: seq<int>, plist: seq<nat>, i: nat, bucket: array<seq<nat>>)
    requires bucket.Length == 16
    requires forall d | 0 <= d < 16 :: bucket[d] == []
    modifies bucket
    ensures forall d | 0 <= d < 16 :: bucket[d] == Bucket(keys, plist, i, d)
  {
    for j := 0 to |plist|
      invariant forall d | 0 <= d < 16 :: bucket[d] == Bucket(keys, plist[..j], i, d)
    {
      var nr := Digit(Key(keys, plist[j]), i);
      assert plist[..j + 1][..j] == plist[..j];
      bucket[nr] := bucket[nr] + [plist[j]];
    }
    assert plist[..|plist|] == plist;
  }

  /** The second half: the buckets are linked together in digit order and
      emptied. */
  method Recombine(keys: seq<int>, plist: seq<nat>, i: nat, bucket: array<seq<nat>>) returns (out: seq<nat>)
    requires bucket.Length == 16
    requires forall d | 0 <= d < 16 :: bucket[d] == Bucket(keys, plist, i, d)
    modifies bucket
    ensures out == Pass(keys, plist, i)
    ensures forall d | 0 <= d < 16 :: bucket[d] == []
  {
    ghost var bs := bucket[..];
    out := [];
    for k := 0 to 16
      invariant out == Gather(keys, plist, i, k)
      invariant forall d | 0 <= d < k :: |bucket[d]| == 0
      invariant forall d | k <= d < 16 :: bucket[d] == bs[d]
    {
      assert bs[k] == Bucket(keys, plist, i, k);
      GatherStep(keys, plist, i, k);
      out := out + bucket[k];
      bucket[k] := [];
    }
  }

  lemma GatherStep(keys: seq<int>, l: seq<nat>, i: nat, k: nat)
    ensures Gather(keys, l, i, k + 1) == Gather(keys, l, i, k) + Bucket(keys, l, i, k)
  {
  }

  // ---------------------------------------------------------------------
  // The sort permutes its input.

  /** How often v occurs in s. */
  function Count(s: seq<nat>, v: nat): nat
  {
    if s == [] then 0 else Count(s[..|s| - 1], v) + (if s[|s| - 1] == v then 1 else 0)
  }

  lemma {:induction false} CountConcat(a: seq<nat>, b: seq<nat>, v: nat)
    ensures Count(a + b, v) == Count(a, v) + Count(b, v)
    decreases |b|
  {
    if b == [] {
      assert a + b == a;
    } else {
      CountConcat(a, b[..|b| - 1], v);
      assert (a + b)[..|a + b| - 1] == a + b[..|b| - 1];
      assert (a + b)[|a + b| - 1] == b[|b| - 1];
    }
  }

  lemma {:induction false} CountIsMultiplicity(s: seq<nat>, v: nat)
    ensures multiset(s)[v] == Count(s, v)
    decreases |s|
  {
    if s != [] {
      CountIsMultiplicity(s[..|s| - 1], v);
      assert s == s[..|s| - 1] + [s[|s| - 1]];
    }
  }

  /** Two lists that hold every value equally often are permutations of
      each other. */
  lemma SameCounts(a: seq<nat>, b: seq<nat>)
    requires forall v: nat :: Count(a, v) == Count(b, v)
    ensures multiset(a) == multiset(b)
  {
    forall v: nat ensures multiset(a)[v] == multiset(b)[v] {
      CountIsMultiplicity(a, v);
      CountIsMultiplicity(b, v);
    }
  }

  /** Appending an element to the input appends it to its own bucket. */
  lemma BucketCount(keys: seq<int>, l: seq<nat>, i: nat, d: int, v: nat)
    requires l != []
    ensures Count(Bucket(keys, l, i, d), v) ==
            Count(Bucket(keys, l[..|l| - 1], i, d), v) + (if l[|l| - 1] == v && Digit(Key(keys, v), i) == d then 1 else 0)
  {
    var x := l[|l| - 1];
    var e: seq<nat> := if Digit(Key(keys, x), i) == d then [x] else [];
    CountConcat(Bucket(keys, l[..|l| - 1], i, d), e, v);
    assert Count(e, v) == if x == v && Digit(Key(keys, x), i) == d then 1 else 0 by {
      if e != [] { assert e[..0] == []; }
    }
  }

  /** Appending an element to the input adds it to buckets 0 .. k-1 exactly
      when its digit is below k. */
  lemma {:induction false} GatherSnoc(keys: seq<int>, l: seq<nat>, i: nat, k: nat, v: nat)
    requires l != []
    ensures Count(Gather(keys, l, i, k), v) ==
            Count(Gather(keys, l[..|l| - 1], i, k), v) + (if l[|l| - 1] == v && Digit(Key(keys, v), i) < k then 1 else 0)
    decreases k, 1
  {
    if k > 0 {
      GatherSnocStep(keys, l, i, k, v);
    } else {
      var d := Digit(Key(keys, v), i);
      assert 0 <= d;
      assert Gather(keys, l, i, k) == [] && Gather(keys, l[..|l| - 1], i, k) == [];
      assert Count([], v) == 0;
    }
  }

  /** GatherSnoc for k buckets, from GatherSnoc for k-1. */
  lemma {:induction false} GatherSnocStep(keys: seq<int>, l: seq<nat>, i: nat, k: nat, v: nat)
    requires l != [] && k > 0
    ensures Count(Gather(keys, l, i, k), v) ==
            Count(Gather(keys, l[..|l| - 1], i, k), v) + (if l[|l| - 1] == v && Digit(Key(keys, v), i) < k then 1 else 0)
    decreases k, 0
  {
    var init, x, d, j := l[..|l| - 1], l[|l| - 1], Digit(Key(keys, v), i), k - 1;
    GatherSnoc(keys, l, i, j, v);
    BucketCount(keys, l, i, j, v);
    GatherCount(keys, l, i, j, v);
    GatherCount(keys, init, i, j, v);
    Indicators(x == v, d, j);
    Combine(Count(Gather(keys, l, i, j), v), Count(Gather(keys, init, i, j), v),
            Count(Bucket(keys, l, i, j), v), Count(Bucket(keys, init, i, j), v),
            Count(Gather(keys, l, i, j + 1), v), Count(Gather(keys, init, i, j + 1), v),
            if x == v && d < j then 1 else 0, if x == v && d == j then 1 else 0,
            if x == v && d < j + 1 then 1 else 0);
  }

  lemma Combine(g: int, gi: int, b: int, bi: int, all: int, alli: int, ig: int, ib: int, i: int)
    requires all == g + b && alli == gi + bi && g == gi + ig && b == bi + ib && i == ig + ib
    ensures all == alli + i
  {
  }

  /** Buckets 0 .. j hold as many copies of v as buckets 0 .. j-1 and
      bucket j together. */
  lemma GatherCount(keys: seq<int>, l: seq<nat>, i: nat, j: nat, v: nat)
    ensures Count(Gather(keys, l, i, j + 1), v) == Count(Gather(keys, l, i, j), v) + Count(Bucket(keys, l, i, j), v)
  {
    CountConcat(Gather(keys, l, i, j), Bucket(keys, l, i, j), v);
  }

  lemma Indicators(hit: bool, d: int, j: int)
    ensures (if hit && d < j + 1 then 1 else 0) == (if hit && d < j then 1 else 0) + (if hit && d == j then 1 else 0)
  {
  }

  lemma {:induction false} GatherNil(keys: seq<int>, i: nat, k: nat)
    ensures Gather(keys, [], i, k) == []
  {
    if k > 0 {
      GatherNil(keys, i, k - 1);
    }
  }

  /** A pass keeps every element exactly as often as before. */
  lemma {:induction false} PassCount(keys: seq<int>, l: seq<nat>, i: nat, v: nat)
    ensures Count(Pass(keys, l, i), v) == Count(l, v)
    decreases |l|
  {
    if l == [] {
      GatherNil(keys, i, 16);
    } else {
      PassCount(keys, l[..|l| - 1], i, v);
      GatherSnoc(keys, l, i, 16, v);
    }
  }

  /** So does any number of passes. */
  lemma {:induction false} RadixCount(keys: seq<int>, l: seq<nat>, i: nat, v: nat)
    ensures Count(Radix(keys, l, i), v) == Count(l, v)
  {
    if i > 0 {
      RadixCount(keys, l, i - 1, v);
      PassCount(keys, Radix(keys, l, i - 1), i - 1, v);
    }
  }

  /** Any number of passes permutes the list. */
  lemma RadixPermutes(keys: seq<int>, l: seq<nat>, i: nat)
    ensures multiset(Radix(keys, l, i)) == multiset(l)
  {
    forall v: nat ensures Count(Radix(keys, l, i), v) == Count(l, v) {
      RadixCount(keys, l, i, v);
    }
    SameCounts(Radix(keys, l, i), l);
  }

  /** The sort moves edges around but brings in none. */
  lemma RadixMembers(keys: seq<int>, l: seq<nat>, i: nat)
    ensures forall x | x in Radix(keys, l, i) :: x in l
  {
    forall x | x in Radix(keys, l, i) ensures x in l {
      RadixCount(keys, l, i, x);
      CountMember(Radix(keys, l, i), x);
      CountMember(l, x);
    }
  }

  /** An empty list stays empty. */
  lemma {:induction false} RadixNil(keys: seq<int>, i: nat)
    ensures Radix(keys, [], i) == []
  {
    if i > 0 {
      RadixNil(keys, i - 1);
      GatherNil(keys, i - 1, 16);
    }
  }

  // ---------------------------------------------------------------------
  // Each pass sorts by one more digit.

  /** A bucket holds exactly the elements of the list with its digit. */
  lemma {:induction false} BucketMembers(keys: seq<int>, l: seq<nat>, i: nat, d: int)
    ensures forall j | 0 <= j < |Bucket(keys, l, i, d)| ::
      Bucket(keys, l, i, d)[j] in l && Digit(Key(keys, Bucket(keys, l, i, d)[j]), i) == d
    decreases |l|
  {
    if l != [] {
      var init := l[..|l| - 1];
      BucketMembers(keys, init, i, d);
      assert forall x | x in init :: x in l;
    }
  }

  /** A bucket keeps the order of the list it was filled from. */
  lemma {:induction false} BucketSorted(keys: seq<int>, l: seq<nat>, i: nat, d: int, p: nat)
    requires LexSorted(keys, l, p)
    ensures LexSorted(keys, Bucket(keys, l, i, d), p)
    decreases |l|
  {
    if l != [] {
      var init := l[..|l| - 1];
      var x := l[|l| - 1];
      var b := Bucket(keys, init, i, d);
      assert LexSorted(keys, init, p);
      BucketSorted(keys, init, i, d, p);
      BucketMembers(keys, init, i, d);
      if Digit(Key(keys, x), i) == d {
        forall a | 0 <= a < |b|
          ensures Low(Key(keys, b[a]), p) < Low(Key(keys, x), p) || (Low(Key(keys, b[a]), p) == Low(Key(keys, x), p) && b[a] < x)
        {
          var m :| 0 <= m < |init| && init[m] == b[a];
          assert l[m] == b[a] && l[|l| - 1] == x;
        }
      }
    }
  }

  /** A smaller digit i means a smaller number formed by the low i+1 digits. */
  lemma {:induction false} DigitOrder(x: int, y: int, i: nat)
    requires Digit(x, i) < Digit(y, i)
    ensures Low(x, i + 1) < Low(y, i + 1)
    decreases i
  {
    if i > 0 {
      DigitOrder(x / 16, y / 16, i - 1);
    }
  }

  /** Equal digits i leave the low i+1 digits as far apart as the low i. */
  lemma {:induction false} DigitSame(x: int, y: int, i: nat)
    requires Digit(x, i) == Digit(y, i)
    ensures Low(x, i + 1) - Low(y, i + 1) == Low(x, i) - Low(y, i)
    decreases i
  {
    if i > 0 {
      DigitSame(x / 16, y / 16, i - 1);
    }
  }

  /** Within one bucket of pass i the low i+1 digits order as the low i do. */
  lemma BucketLift(keys: seq<int>, b: seq<nat>, i: nat, d: int)
    requires LexSorted(keys, b, i)
    requires forall j | 0 <= j < |b| :: Digit(Key(keys, b[j]), i) == d
    ensures LexSorted(keys, b, i + 1)
  {
    forall a, c | 0 <= a < c < |b|
      ensures Low(Key(keys, b[a]), i + 1) < Low(Key(keys, b[c]), i + 1) ||
              (Low(Key(keys, b[a]), i + 1) == Low(Key(keys, b[c]), i + 1) && b[a] < b[c])
    {
      DigitSame(Key(keys, b[a]), Key(keys, b[c]), i);
    }
  }

  /** Lower buckets followed by bucket d stay sorted on the low i+1 digits. */
  lemma ConcatSorted(keys: seq<int>, g: seq<nat>, b: seq<nat>, i: nat, d: int)
    requires LexSorted(keys, g, i + 1) && LexSorted(keys, b, i + 1)
    requires forall j | 0 <= j < |g| :: Digit(Key(keys, g[j]), i) < d
    requires forall j | 0 <= j < |b| :: Digit(Key(keys, b[j]), i) == d
    ensures LexSorted(keys, g + b, i + 1)
    ensures forall j | 0 <= j < |g + b| :: Digit(Key(keys, (g + b)[j]), i) <= d
  {
    var gb := g + b;
    assert forall j | 0 <= j < |gb| :: gb[j] == if j < |g| then g[j] else b[j - |g|];
    forall a, c | 0 <= a < c < |gb|
      ensures Low(Key(keys, gb[a]), i + 1) < Low(Key(keys, gb[c]), i + 1) ||
              (Low(Key(keys, gb[a]), i + 1) == Low(Key(keys, gb[c]), i + 1) && gb[a] < gb[c])
    {
      if c < |g| {
        assert gb[a] == g[a] && gb[c] == g[c];
      } else if |g| <= a {
        assert gb[a] == b[a - |g|] && gb[c] == b[c - |g|];
      } else {
        assert gb[a] == g[a] && gb[c] == b[c - |g|];
        DigitOrder(Key(keys, g[a]), Key(keys, b[c - |g|]), i);
      }
    }
  }

  /** Buckets 0 .. k-1 of pass i over a list sorted on the low i digits are,
      together, sorted on the low i+1 digits, and hold only digits below k. */
  lemma {:induction false} GatherSorted(keys: seq<int>, l: seq<nat>, i: nat, k: nat)
    requires LexSorted(keys, l, i)
    ensures LexSorted(keys, Gather(keys, l, i, k), i + 1)
    ensures forall j | 0 <= j < |Gather(keys, l, i, k)| :: Digit(Key(keys, Gather(keys, l, i, k)[j]), i) < k
  {
    if k > 0 {
      var g := Gather(keys, l, i, k - 1);
      var b := Bucket(keys, l, i, k - 1);
      GatherSorted(keys, l, i, k - 1);
      BucketMembers(keys, l, i, k - 1);
      BucketSorted(keys, l, i, k - 1, i);
      BucketLift(keys, b, i, k - 1);
      ConcatSorted(keys, g, b, i, k - 1);
      assert g + b == Gather(keys, l, i, k);
    }
  }

  /** After i passes over edge numbers in increasing order, the list is
      sorted on the low i digits of the key, ties in edge order. */
  lemma {:induction false} RadixSorts(keys: seq<int>, l: seq<nat>, i: nat)
    requires Increasing(l)
    ensures LexSorted(keys, Radix(keys, l, i), i)
  {
    if i > 0 {
      RadixSorts(keys, l, i - 1);
      GatherSorted(keys, Radix(keys, l, i - 1), i - 1, 16);
    }
  }

  /** The four digits make up the key read as a Uint16. */
  lemma LowIsUint16(x: int)
    ensures Low(x, 4) == x % 0x1_0000
  {
    var x1, x2, x3 := x / 16, x / 16 / 16, x / 16 / 16 / 16;
    var low := x % 16 + 16 * (x1 % 16 + 16 * (x2 % 16 + 16 * (x3 % 16)));
    assert Low(x, 4) == low;
    assert x == 16 * x1 + x % 16 && x1 == 16 * x2 + x1 % 16;
    assert x2 == 16 * x3 + x2 % 16 && x3 == 16 * (x3 / 16) + x3 % 16;
    assert x == 0x1_0000 * (x3 / 16) + low;
    ModUnique(x, x3 / 16, low);
  }

  /** The remainder modulo 0x1_0000 is the only one in range. */
  lemma ModUnique(x: int, k: int, r: int)
    requires x == 0x1_0000 * k + r && 0 <= r < 0x1_0000
    ensures x % 0x1_0000 == r
  {
    var q := x / 0x1_0000;
    assert 0x1_0000 * (q - k) == r - x % 0x1_0000;
    assert q == k;
  }

  /** The whole sort orders the list by the key read as a Uint16, equal keys
      in edge order. */
  lemma SortedByLow16(keys: seq<int>, l: seq<nat>)
    requires Increasing(l)
    ensures forall a, b | 0 <= a < b < |Radix(keys, l, 4)| ::
      Key(keys, Radix(keys, l, 4)[a]) % 0x1_0000 < Key(keys, Radix(keys, l, 4)[b]) % 0x1_0000 ||
      (Key(keys, Radix(keys, l, 4)[a]) % 0x1_0000 == Key(keys, Radix(keys, l, 4)[b]) % 0x1_0000 &&
       Radix(keys, l, 4)[a] < Radix(keys, l, 4)[b])
  {
    var r := Radix(keys, l, 4);
    RadixSorts(keys, l, 4);
    forall j | 0 <= j < |r| ensures Low(Key(keys, r[j]), 4) == Key(keys, r[j]) % 0x1_0000 {
      LowIsUint16(Key(keys, r[j]));
    }
  }

  lemma {:induction false} CountMember(s: seq<nat>, v: nat)
    ensures Count(s, v) > 0 <==> v in s
    decreases |s|
  {
    if s != [] {
      CountMember(s[..|s| - 1], v);
      assert s == s[..|s| - 1] + [s[|s| - 1]];
    }
  }

  /** For the non-negative 16-bit x of a polygon's edges that is the order of
      x itself: the sorted list never has a larger x before a smaller one. */
  lemma SortedByX(keys: seq<int>, l: seq<nat>)
    requires Increasing(l)
    requires forall j | 0 <= j < |l| :: 0 <= Key(keys, l[j]) < 0x1_0000
    ensures forall a, b | 0 <= a < b < |Radix(keys, l, 4)| ::
      Key(keys, Radix(keys, l, 4)[a]) <= Key(keys, Radix(keys, l, 4)[b])
  {
    var r := Radix(keys, l, 4);
    SortedByLow16(keys, l);
    forall j | 0 <= j < |r| ensures 0 <= Key(keys, r[j]) < 0x1_0000 {
      var v := r[j];
      RadixCount(keys, l, 4, v);
      CountMember(r, v);
      CountMember(l, v);
    }
  }
}
