/** Machine words as natural numbers: powers of two, masks, and the FNV-1a hash
  * both the sharded index and the mesh route with.
  */
module Bits {
  import opened Common
  import opened Keys

  predicate IsPow2(n: nat) {
    n == 1 || (n > 1 && n % 2 == 0 && IsPow2(n / 2))
  }

  lemma Pow2Positive(n: nat)
    requires IsPow2(n)
    ensures n > 0
  {
  }

  lemma {:induction false} Pow2Mul(a: nat, b: nat)
    requires IsPow2(a) && IsPow2(b)
    ensures IsPow2(a * b)
    decreases a
  {
    if a > 1 {
      var h := a / 2;
      Pow2Mul(h, b);
      assert a * b == 2 * (h * b);
      assert (2 * (h * b)) / 2 == h * b;
    }
  }

  lemma WordIsPow2()
    ensures IsPow2(0x1_0000_0000_0000) && IsPow2(WORD)
  {
    assert IsPow2(0x10);
    Pow2Mul(0x10, 0x10);
    Pow2Mul(0x100, 0x100);
    Pow2Mul(0x1_0000, 0x1_0000);
    Pow2Mul(0x1_0000, 0x1_0000_0000);
    Pow2Mul(0x1_0000_0000, 0x1_0000_0000);
  }

  function And(a: nat, b: nat): nat {
    if a == 0 || b == 0 then 0 else (a % 2) * (b % 2) + 2 * And(a / 2, b / 2)
  }

  function Xor(a: nat, b: nat): nat
    decreases a + b
  {
    if a == 0 && b == 0 then 0 else (a + b) % 2 + 2 * Xor(a / 2, b / 2)
  }

  function Or(a: nat, b: nat): nat
    decreases a + b
  {
    if a == 0 && b == 0 then 0
    else (if a % 2 == 1 || b % 2 == 1 then 1 else 0) + 2 * Or(a / 2, b / 2)
  }

  // The smallest power of two not below `n`, as `next_power_of_two` returns it.
  function NextPow2(n: nat): (p: nat)
    ensures IsPow2(p) && n <= p && (n > 1 ==> p < 2 * n)
  {
    if n <= 1 then 1 else
      var half := NextPow2((n + 1) / 2);
      assert (2 * half) / 2 == half;
      2 * half
  }

  lemma {:induction false} LeastPow2(n: nat, p: nat)
    requires IsPow2(p) && n <= p
    ensures NextPow2(n) <= p
  {
    if n > 1 { LeastPow2((n + 1) / 2, p / 2); }
  }

  lemma {:induction false} MulStep(n: nat, a: nat, b: nat)
    requires a < b
    ensures n * a + n <= n * b
    decreases b
  {
    if b > a + 1 {
      MulStep(n, a, b - 1);
      assert n * b == n * (b - 1) + n;
    } else {
      assert n * (a + 1) == n * a + n;
    }
  }

  lemma ModUnique(x: nat, n: nat, q: nat, r: nat)
    requires n > 0 && r < n && x == n * q + r
    ensures x % n == r && x / n == q
  {
    var d, m := x / n, x % n;
    assert x == n * d + m;
    if d < q { MulStep(n, d, q); }
    if d > q { MulStep(n, q, d); }
  }

  lemma HalfMod(x: nat, n: nat)
    requires n > 0
    ensures x % (2 * n) == 2 * ((x / 2) % n) + x % 2
  {
    var q, r := (x / 2) / n, (x / 2) % n;
    assert x / 2 == n * q + r;
    assert (2 * n) * q == 2 * (n * q);
    ModUnique(x, 2 * n, q, 2 * r + x % 2);
  }

  lemma AndHalf(x: nat, m: nat, b: nat)
    requires b < 2
    ensures And(x, 2 * m + b) == (x % 2) * b + 2 * And(x / 2, m)
  {
    assert (2 * m + b) / 2 == m && (2 * m + b) % 2 == b;
  }

  // `x & (n - 1)` is `x % n` for a power of two `n`.
  lemma {:induction false} MaskIsMod(x: nat, n: nat)
    requires IsPow2(n)
    ensures And(x, n - 1) == x % n
  {
    hide And;
    if n == 1 {
      ZeroMask(x);
    } else {
      var h := n / 2;
      MaskIsMod(x / 2, h);
      HalfMod(x, h);
      AndHalf(x, h - 1, 1);
    }
  }

  lemma ZeroMask(x: nat)
    ensures And(x, 0) == 0
  {
  }

  lemma RoundHalf(x: nat, n: nat)
    requires n > 0
    ensures x - x % (2 * n) == 2 * (x / 2 - (x / 2) % n)
  {
    HalfMod(x, n);
  }

  // `x & !(n - 1)` in a word of `w` values rounds down to a multiple of `n`.
  lemma {:induction false} MaskRoundsDown(x: nat, n: nat, w: nat)
    requires IsPow2(n) && IsPow2(w) && n <= w && x < w
    ensures And(x, w - 1 - (n - 1)) == x - x % n
    decreases n
  {
    hide And;
    if n == 1 {
      MaskIsMod(x, w);
      ModUnique(x, w, 0, x);
    } else {
      var h, v := n / 2, w / 2;
      assert n == 2 * h && w == 2 * v && h <= v;
      MaskHalf(x, h, v);
    }
  }

  lemma {:induction false} MaskHalf(x: nat, h: nat, v: nat)
    requires IsPow2(h) && IsPow2(v) && h <= v && x < 2 * v
    ensures And(x, 2 * v - 2 * h) == x - x % (2 * h)
    decreases 2 * h, 0
  {
    hide And;
    MaskRoundsDown(x / 2, h, v);
    RoundHalf(x, h);
    AndHalf(x, v - h, 0);
  }

  lemma {:induction false} Pow2Divides(a: nat, b: nat) returns (q: nat)
    requires IsPow2(a) && IsPow2(b) && a <= b
    ensures b == a * q
    decreases a
  {
    if a == 1 {
      q := b;
    } else {
      q := Pow2Divides(a / 2, b / 2);
      assert b == 2 * ((a / 2) * q) == a * q;
    }
  }

  lemma MulAssoc(a: nat, b: nat, c: nat)
    ensures (a * b) * c == a * (b * c)
  {
  }

  lemma Distribute(n: nat, a: nat, b: nat)
    ensures n * (a + b) == n * a + n * b
  {
  }

  // Reducing first modulo a multiple changes nothing.
  lemma ModMod(x: nat, n: nat, q: nat, w: nat)
    requires n > 0 && w > 0 && w == n * q
    ensures (x % w) % n == x % n
  {
    var d, m := x / w, x % w;
    assert x == w * d + m;
    var e, r := m / n, m % n;
    assert m == n * e + r;
    MulAssoc(n, q, d);
    var f := q * d;
    Distribute(n, f, e);
    ModUnique(x, n, f + e, r);
  }

  // Numbers less than `n` apart have different remainders.
  lemma ModApart(x: nat, y: nat, n: nat)
    requires n > 0 && x < y < x + n
    ensures x % n != y % n
  {
    var d, e := x / n, y / n;
    assert x == n * d + x % n && y == n * e + y % n;
    if x % n == y % n {
      if d < e { MulStep(n, d, e); }
    }
  }

  // `a.wrapping_sub(b)` and `a.wrapping_add(1)` of two cursors that are the
  // remainders of counters `x <= y` less than a word apart.
  function WrappingSub(a: nat, b: nat): nat { (WORD + a - b % WORD) % WORD }

  lemma CursorDistance(x: nat, y: nat)
    requires x <= y < x + WORD
    ensures WrappingSub(y % WORD, x % WORD) == y - x
    ensures (x % WORD == y % WORD) <==> x == y
  {
  }

  // Numbers that share no bit are added by `|`.
  lemma {:induction false} OrDisjoint(a: nat, b: nat, n: nat)
    requires IsPow2(n) && b < n
    ensures Or(a * n, b) == a * n + b
    decreases n
  {
    if n == 1 {
      OrSame(a);
    } else {
      var h := n / 2;
      assert a * n == 2 * (a * h);
      OrDisjoint(a, b / 2, h);
      OrHalf(a * h, b);
    }
  }

  lemma {:induction false} OrSame(a: nat)
    ensures Or(a, 0) == a
  {
    if a > 0 { OrSame(a / 2); }
  }

  lemma OrHalf(x: nat, b: nat)
    ensures Or(2 * x, b) == b % 2 + 2 * Or(x, b / 2)
  {
    assert (2 * x) / 2 == x && (2 * x) % 2 == 0;
  }

  // ---------------------------------------------------------------------------
  // Bit by bit
  // ---------------------------------------------------------------------------

  predicate Bit(x: nat, i: nat) { if i == 0 then x % 2 == 1 else Bit(x / 2, i - 1) }

  lemma {:induction false} AndBit(a: nat, b: nat, i: nat)
    ensures Bit(And(a, b), i) <==> Bit(a, i) && Bit(b, i)
    decreases i
  {
    if a == 0 || b == 0 {
      ZeroBit(i);
    } else {
      assert And(a, b) / 2 == And(a / 2, b / 2);
      if i > 0 { AndBit(a / 2, b / 2, i - 1); }
    }
  }

  lemma {:induction false} OrBit(a: nat, b: nat, i: nat)
    ensures Bit(Or(a, b), i) <==> Bit(a, i) || Bit(b, i)
    decreases i
  {
    if a == 0 && b == 0 {
      ZeroBit(i);
    } else {
      assert Or(a, b) / 2 == Or(a / 2, b / 2);
      if i > 0 { OrBit(a / 2, b / 2, i - 1); }
    }
  }

  lemma XorStep(a: nat, b: nat)
    ensures Xor(a, b) / 2 == Xor(a / 2, b / 2) && Xor(a, b) % 2 == (a + b) % 2
  {
  }

  lemma Parity(a: nat, b: nat)
    ensures (a + b) % 2 == 1 <==> (a % 2 == 1) != (b % 2 == 1)
  {
  }

  lemma {:induction false} XorBit(a: nat, b: nat, i: nat)
    ensures Bit(Xor(a, b), i) <==> Bit(a, i) != Bit(b, i)
    decreases i
  {
    hide Xor;
    XorStep(a, b);
    if i == 0 { Parity(a, b); } else { XorBit(a / 2, b / 2, i - 1); }
  }

  lemma {:induction false} ZeroBit(i: nat)
    ensures !Bit(0, i)
  {
    if i > 0 { ZeroBit(i - 1); }
  }

  // A number is given by its bits.
  lemma {:induction false} BitsDecide(a: nat, b: nat)
    requires forall i: nat :: Bit(a, i) <==> Bit(b, i)
    ensures a == b
    decreases a + b
  {
    if a != 0 || b != 0 {
      assert Bit(a, 0) <==> Bit(b, 0);
      forall i: nat ensures Bit(a / 2, i) <==> Bit(b / 2, i) { assert Bit(a, i + 1) <==> Bit(b, i + 1); }
      BitsDecide(a / 2, b / 2);
    }
  }

  lemma XorTwice(a: nat, b: nat)
    ensures Xor(Xor(a, b), b) == a
  {
    forall i: nat
      ensures Bit(Xor(Xor(a, b), b), i) <==> Bit(a, i)
    {
      XorBit(Xor(a, b), b, i);
      XorBit(a, b, i);
    }
    BitsDecide(Xor(Xor(a, b), b), a);
  }

  lemma XorSwaps(a: nat, b: nat)
    ensures Xor(a, b) == Xor(b, a)
  {
    forall i: nat
      ensures Bit(Xor(a, b), i) <==> Bit(Xor(b, a), i)
    {
      XorBit(a, b, i);
      XorBit(b, a, i);
    }
    BitsDecide(Xor(a, b), Xor(b, a));
  }

  lemma {:induction false} XorBelow(a: nat, b: nat, n: nat)
    requires IsPow2(n) && a < n && b < n
    ensures Xor(a, b) < n
    decreases n
  {
    if n > 1 { XorBelow(a / 2, b / 2, n / 2); }
  }

  // ---------------------------------------------------------------------------
  // FNV-1a
  // ---------------------------------------------------------------------------

  const FNV_OFFSET: nat := 0xcbf2_9ce4_8422_2325
  const FNV_PRIME: nat := 0x0000_0100_0000_01B3

  function Fnv(bytes: Key): (h: nat)
    ensures h < WORD
  {
    if bytes == [] then FNV_OFFSET
    else (Xor(Fnv(bytes[..|bytes| - 1]), bytes[|bytes| - 1]) * FNV_PRIME) % WORD
  }

  method Fnv1a(bytes: Key) returns (h: nat)
    ensures h == Fnv(bytes)
  {
    h := FNV_OFFSET;
    for i := 0 to |bytes|
      invariant h == Fnv(bytes[..i])
    {
      assert bytes[..i + 1][..i] == bytes[..i];
      h := Xor(h, bytes[i]);
      h := (h * FNV_PRIME) % WORD;
    }
    assert bytes[..|bytes|] == bytes;
  }

  const FNV_INVERSE: nat := 0xce96_5057_aff6_957b

  // Multiplying by the prime in a word can be undone.
  lemma PrimeUndone(x: nat)
    requires x < WORD
    ensures (((x * FNV_PRIME) % WORD) * FNV_INVERSE) % WORD == x
  {
    var q, r := (x * FNV_PRIME) / WORD, (x * FNV_PRIME) % WORD;
    assert FNV_PRIME * FNV_INVERSE == WORD * 0xce9650590f + 1;
    var z := x * 0xce9650590f - q * FNV_INVERSE;
    assert r * FNV_INVERSE == WORD * z + x;
    ModUnique(r * FNV_INVERSE, WORD, z, x);
  }

  lemma FnvLast(bytes: Key, b: Byte)
    ensures Fnv(bytes + [b]) == (Xor(Fnv(bytes), b) * FNV_PRIME) % WORD
  {
    assert (bytes + [b])[..|bytes|] == bytes;
  }

  // Hashing one more byte loses nothing: it tells hashes apart, and bytes.
  lemma StepTellsApart(x: Key, y: Key, b: Byte, c: Byte)
    requires Fnv(x + [b]) == Fnv(y + [c])
    ensures b == c ==> Fnv(x) == Fnv(y)
    ensures Fnv(x) == Fnv(y) ==> b == c
  {
    hide Fnv, Xor;
    FnvLast(x, b);
    FnvLast(y, c);
    WordIsPow2();
    XorBelow(Fnv(x), b, WORD);
    XorBelow(Fnv(y), c, WORD);
    PrimeUndone(Xor(Fnv(x), b));
    PrimeUndone(Xor(Fnv(y), c));
    XorTwice(Fnv(x), b);
    XorTwice(Fnv(y), c);
    XorSwaps(Fnv(x), b);
    XorSwaps(Fnv(y), c);
    XorTwice(b, Fnv(x));
    XorTwice(c, Fnv(y));
  }

  // Keys that differ in one byte have different hashes.
  lemma {:induction false} OneByteMatters(pre: Key, b: Byte, c: Byte, post: Key)
    requires b != c
    ensures Fnv(pre + [b] + post) != Fnv(pre + [c] + post)
    decreases |post|
  {
    hide Fnv;
    if post == [] {
      assert pre + [b] + post == pre + [b] && pre + [c] + post == pre + [c];
      if Fnv(pre + [b]) == Fnv(pre + [c]) { StepTellsApart(pre, pre, b, c); }
    } else {
      var front, last := post[..|post| - 1], post[|post| - 1];
      assert pre + [b] + post == (pre + [b] + front) + [last] && pre + [c] + post == (pre + [c] + front) + [last];
      OneByteMatters(pre, b, c, front);
      if Fnv(pre + [b] + post) == Fnv(pre + [c] + post) {
        StepTellsApart(pre + [b] + front, pre + [c] + front, last, last);
      }
    }
  }

  // The published test vectors for the empty key and for "a".
  lemma TestVectors()
    ensures Fnv([]) == 0xcbf2_9ce4_8422_2325 && Fnv([97]) == 0xaf63_dc4c_8601_ec8c
  {
    hide Fnv, Xor;
    EmptyKey();
    assert [] + [97] == [97];
    FnvLast([], 97);
    OffsetXor();
  }

  lemma EmptyKey()
    ensures Fnv([]) == FNV_OFFSET
  {
  }

  lemma XorHalf(a: nat, p: nat, b: nat, q: nat)
    requires p < 2 && q < 2
    ensures Xor(2 * a + p, 2 * b + q) == (p + q) % 2 + 2 * Xor(a, b)
  {
    assert (2 * a + p) / 2 == a && (2 * b + q) / 2 == b;
  }

  lemma OffsetXor()
    ensures Xor(FNV_OFFSET, 97) == 0xcbf2_9ce4_8422_2344
  {
    hide Xor;
    XorNothing(0x197e539c9084446);
    XorHalf(0x197e539c9084446, 0, 0, 1);
    XorHalf(0x32fca739210888c, 1, 1, 1);
    XorHalf(0x65f94e724211119, 0, 3, 0);
    XorHalf(0xcbf29ce48422232, 0, 6, 0);
    XorHalf(0x197e539c90844464, 1, 12, 0);
    XorHalf(0x32fca739210888c9, 0, 24, 0);
    XorHalf(0x65f94e7242111192, 1, 48, 1);
  }

  lemma {:induction false} XorNothing(a: nat)
    ensures Xor(a, 0) == a
  {
    if a > 0 { XorNothing(a / 2); }
  }

  // The shard a key belongs to when there are `n` of them.
  function Route(key: Key, n: nat): (i: nat)
    requires IsPow2(n)
    ensures i < n
  {
    MaskIsMod(Fnv(key), n);
    And(Fnv(key), n - 1)
  }

  // Masking the hash is taking it modulo the number of shards.
  lemma RouteIsMod(key: Key, n: nat)
    requires IsPow2(n)
    ensures Route(key, n) == Fnv(key) % n
  {
    hide Fnv, And, IsPow2;
    MaskIsMod(Fnv(key), n);
  }
}
