/** Keys: byte strings in lexicographic order, the inline representation of
  * short keys, and an order-preserving map of keys into the reals.
  *
  * The rank is a device of the proofs: comparing two keys is the same as
  * comparing two reals, for which sortedness arguments are linear arithmetic.
  */
module Keys {

  type Byte = n: int | 0 <= n < 256
  type Key = seq<Byte>

  // ---------------------------------------------------------------------------
  // The small key optimisation
  // ---------------------------------------------------------------------------

  const INLINE_CAP: nat := 22

  datatype KeyRepr = Inline(len: nat, buf: seq<Byte>) | Boxed(bytes: seq<Byte>)

  function NewRepr(key: Key): KeyRepr {
    if |key| <= INLINE_CAP then Inline(|key|, key + seq(INLINE_CAP - |key|, _ => 0)) else Boxed(key)
  }

  function AsBytes(r: KeyRepr): Key
    requires r.Inline? ==> r.len <= |r.buf|
  {
    match r
    case Inline(len, buf) => buf[..len]
    case Boxed(bytes) => bytes
  }

  // Storing a key and reading it back loses nothing, and an inline buffer
  // always has the fixed size.
  lemma ReprRoundTrip(key: Key)
    ensures NewRepr(key).Inline? ==> |NewRepr(key).buf| == INLINE_CAP && NewRepr(key).len <= INLINE_CAP
    ensures AsBytes(NewRepr(key)) == key
  {
    if |key| <= INLINE_CAP {
      assert (key + seq(INLINE_CAP - |key|, _ => 0))[..|key|] == key;
    }
  }

  // ---------------------------------------------------------------------------
  // Order
  // ---------------------------------------------------------------------------

  // Byte-wise comparison of slices: a proper prefix is smaller.
  predicate Less(a: Key, b: Key) {
    b != [] && (a == [] || a[0] < b[0] || (a[0] == b[0] && Less(a[1..], b[1..])))
  }

  // 0.d1 d2 d3 ... in base 257, with digit 0 for the end of the string.
  function RankFrom(k: Key, i: nat): (r: real)
    requires i <= |k|
    ensures 0.0 <= r < 1.0
    decreases |k| - i
  {
    if i == |k| then 0.0 else (k[i] as real + 1.0 + RankFrom(k, i + 1)) / 257.0
  }

  function Rank(k: Key): real { RankFrom(k, 0) }

  lemma {:induction false} RankOfTail(k: Key, i: nat)
    requires 1 <= i <= |k|
    ensures RankFrom(k[1..], i - 1) == RankFrom(k, i)
    decreases |k| - i
  {
    if i < |k| { RankOfTail(k, i + 1); }
  }

  // Rank is an order embedding.
  lemma {:induction false} RankOrder(a: Key, b: Key)
    ensures Less(a, b) <==> Rank(a) < Rank(b)
    ensures a == b <==> Rank(a) == Rank(b)
  {
    if a != [] && b != [] {
      RankOfTail(a, 1);
      RankOfTail(b, 1);
      RankOrder(a[1..], b[1..]);
      assert a == b <==> a[0] == b[0] && a[1..] == b[1..];
    }
  }

  // ---------------------------------------------------------------------------
  // Keys with sentinels
  // ---------------------------------------------------------------------------

  datatype BoundKey = NegInf | Fin(key: Key) | PosInf

  function BoundRank(k: BoundKey): real {
    match k
    case NegInf => -1.0
    case Fin(key) => Rank(key)
    case PosInf => 2.0
  }

  predicate KeyLt(k: BoundKey, target: Key) {
    match k
    case NegInf => true
    case PosInf => false
    case Fin(key) => Less(key, target)
  }

  predicate KeyEq(k: BoundKey, target: Key) {
    match k
    case Fin(key) => key == target
    case _ => false
  }

  // The comparisons of the search loops, as comparisons of ranks.
  lemma CompareRanks(k: BoundKey, target: Key)
    ensures KeyLt(k, target) <==> BoundRank(k) < Rank(target)
    ensures KeyEq(k, target) <==> BoundRank(k) == Rank(target)
  {
    if k.Fin? { RankOrder(k.key, target); }
  }
}
