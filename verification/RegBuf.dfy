/** Registered buffers: the pool of fixed buffers carved from one slab, and the
  * portable backend's positional writes with whatever short writes and errors
  * the system returns.
  */
module RegBuf {
  import opened Common
  import opened Keys
  import opened Bits
  import Wal

  const PAGE: nat := 4096
  const MAX_COUNT: nat := 0xFFFF

  // ---------------------------------------------------------------------------
  // The pool
  // ---------------------------------------------------------------------------

  // `(buf_len.max(1) + PAGE - 1) & !(PAGE - 1)`
  function PageRounded(len: nat): nat {
    And((if len < 1 then 1 else len) + PAGE - 1, WORD - 1 - (PAGE - 1))
  }

  lemma PageRoundedMeans(len: nat)
    requires len + PAGE < WORD
    ensures PageRounded(len) % PAGE == 0 && len <= PageRounded(len) && PAGE <= PageRounded(len)
    ensures len >= 1 ==> PageRounded(len) < len + PAGE
  {
    hide And, IsPow2;
    WordIsPow2();
    PageIsPow2();
    var x := (if len < 1 then 1 else len) + PAGE - 1;
    MaskRoundsDown(x, PAGE, WORD);
  }

  lemma PageIsPow2()
    ensures IsPow2(PAGE)
  {
    assert IsPow2(0x10);
    Pow2Mul(0x10, 0x10);
    Pow2Mul(0x10, 0x100);
  }

  // A checked-out buffer.
  datatype FixedBuf = FixedBuf(index: nat, ptr: nat, len: nat)

  class Pool {
    const base: nat
    const bufLen: nat
    const count: nat
    var free: seq<nat>
    ghost var out: set<nat>            // indices in flight

    // Every index is free once or in flight, never both.
    ghost predicate Valid()
      reads this
    {
      && (forall a, b :: 0 <= a < b < |free| ==> free[a] != free[b])
      && (forall i :: (i in free || i in out) <==> 0 <= i < count)
      && (forall i :: i in out ==> i !in free)
    }

    constructor (slab: nat, n: nat, len: nat)
      requires 0 < n <= MAX_COUNT && len + PAGE < WORD && slab % PAGE == 0
      ensures Valid() && base == slab && count == n && out == {} && free == seq(n, i => i)
      ensures bufLen % PAGE == 0 && PAGE <= bufLen && len <= bufLen
    {
      hide PageRounded;
      PageRoundedMeans(len);
      base, bufLen, count, out := slab, PageRounded(len), n, {};
      free := seq(n, i => i);
      new;
      assert forall i :: i in free <==> 0 <= i < count by {
        forall i | 0 <= i < count ensures i in free { assert free[i] == i; }
      }
    }

    // `None` only when every buffer is in flight; otherwise a buffer that was free.
    method Acquire() returns (r: Option<FixedBuf>)
      requires Valid()
      modifies this
      ensures Valid()
      ensures r.None? <==> forall i :: 0 <= i < count ==> i in old(out)
      ensures r.None? ==> out == old(out) && free == old(free)
      ensures r.Some? ==>
        && r.value.index < count && r.value.index !in old(out) && out == old(out) + {r.value.index}
        && r.value.ptr == base + r.value.index * bufLen && r.value.len == bufLen
    {
      if free == [] {
        return None;
      }
      var index := free[|free| - 1];
      assert index in free;
      ghost var was := free;
      free := free[..|free| - 1];
      out := out + {index};
      assert was == free + [index];
      assert forall i :: i in was <==> i in free || i == index;
      return Some(FixedBuf(index, base + index * bufLen, bufLen));
    }

    // Dropping the handle.
    method Release(index: nat)
      requires Valid() && index in out
      modifies this
      ensures Valid() && out == old(out) - {index} && free == old(free) + [index]
    {
      free := free + [index];
      out := out - {index};
    }
  }

  // Two buffers of one pool share no byte, and each lies inside the slab.
  lemma BuffersApart(bufLen: nat, count: nat, i: nat, j: nat)
    requires i < j < count
    ensures i * bufLen + bufLen <= j * bufLen && j * bufLen + bufLen <= count * bufLen
  {
    MulStep(bufLen, i, j);
    MulStep(bufLen, j, count);
  }

  // ---------------------------------------------------------------------------
  // Positional writes
  // ---------------------------------------------------------------------------

  datatype Result = Ok(n: nat) | WriteZero | Error

  class File {
    var bytes: seq<Byte>

    constructor (initial: seq<Byte>)
      ensures bytes == initial
    {
      bytes := initial;
    }
  }

  // What call number `k` of `write_at` does; a count is cut to the bytes offered.
  type Oracle = nat -> Wal.Outcome

  // The file after writing `d` at `off`; writing nothing leaves it alone.
  function Written(f: seq<Byte>, off: nat, d: seq<Byte>): seq<Byte> {
    if d == [] then f else Wal.WriteAt(f, off, d)
  }

  // Byte by byte: the data, around it the old bytes, and zeros in a hole.
  function ByteAt(f: seq<Byte>, off: nat, d: seq<Byte>, k: nat): Byte {
    if off <= k < off + |d| then d[k - off] else if k < |f| then f[k] else 0
  }

  lemma WriteAtMeans(f: seq<Byte>, off: nat, d: seq<Byte>)
    ensures
      var w := Wal.WriteAt(f, off, d);
      && |w| == (if off + |d| > |f| then off + |d| else |f|)
      && forall k :: 0 <= k < |w| ==> w[k] == ByteAt(f, off, d, k)
  {
  }

  lemma WriteTwice(f: seq<Byte>, off: nat, a: seq<Byte>, b: seq<Byte>)
    ensures Written(Written(f, off, a), off + |a|, b) == Written(f, off, a + b)
  {
    hide Wal.WriteAt;
    if a == [] || b == [] {
      assert a + b == if a == [] then b else a;
    } else {
      var g := Wal.WriteAt(f, off, a);
      WriteAtMeans(f, off, a);
      WriteAtMeans(g, off + |a|, b);
      WriteAtMeans(f, off, a + b);
    }
  }

  method WriteAllAt(file: File, data: seq<Byte>, offset: nat, oracle: Oracle, first: nat) returns (r: Result, next: nat)
    modifies file
    ensures first <= next
    ensures r.Ok? <==> forall k :: first <= k < next ==> Effective(oracle(k))
    ensures r.Ok? ==> r.n == |data| && file.bytes == Written(old(file.bytes), offset, data)
    ensures !r.Ok? ==> exists n :: 0 <= n < |data| && file.bytes == Written(old(file.bytes), offset, data[..n])
  {
    hide Written;
    var done := 0;
    next := first;
    StartsEmpty(file.bytes, offset, data);
    while done < |data|
      invariant 0 <= done <= |data| && first <= next
      invariant file.bytes == Written(old(file.bytes), offset, data[..done])
      invariant forall k :: first <= k < next ==> Effective(oracle(k))
      decreases |data| - done
    {
      var o := oracle(next);
      next := next + 1;
      if o.Error? { return Error, next; }
      var n := if o.Wrote? then o.n else 0;
      if n > |data| - done { n := |data| - done; }
      if n == 0 { return WriteZero, next; }
      var chunk := data[done..done + n];
      file.bytes := Wal.WriteAt(file.bytes, offset + done, chunk);
      NonEmpty(Written(old(file.bytes), offset, data[..done]), offset + done, chunk);
      WriteTwice(old(file.bytes), offset, data[..done], chunk);
      assert data[..done] + chunk == data[..done + n];
      done := done + n;
    }
    assert data[..done] == data;
    r := Ok(|data|);
  }

  // A call that makes progress.
  predicate Effective(o: Wal.Outcome) { o.Wrote? && o.n > 0 }

  lemma StartsEmpty(f: seq<Byte>, off: nat, d: seq<Byte>)
    ensures Written(f, off, d[..0]) == f
  {
  }

  lemma NonEmpty(f: seq<Byte>, off: nat, d: seq<Byte>)
    requires d != []
    ensures Written(f, off, d) == Wal.WriteAt(f, off, d)
  {
  }

  function Concat(bufs: seq<seq<Byte>>): seq<Byte> {
    if bufs == [] then [] else Concat(bufs[..|bufs| - 1]) + bufs[|bufs| - 1]
  }

  lemma {:induction false} ConcatPrefix(bufs: seq<seq<Byte>>, k: nat)
    requires k <= |bufs|
    ensures Concat(bufs[..k]) <= Concat(bufs)
  {
    if k < |bufs| {
      var rest := bufs[..|bufs| - 1];
      ConcatPrefix(rest, k);
      assert rest[..k] == bufs[..k];
    } else {
      assert bufs[..k] == bufs;
    }
  }

  // All buffers one after the other, or a proper prefix of that and an error.
  method WriteVectored(file: File, offset: nat, bufs: seq<seq<Byte>>, oracle: Oracle, first: nat)
      returns (r: Result, next: nat)
    modifies file
    ensures r.Ok? <==> forall k :: first <= k < next ==> Effective(oracle(k))
    ensures r.Ok? ==> r.n == |Concat(bufs)| && file.bytes == Written(old(file.bytes), offset, Concat(bufs))
    ensures !r.Ok? ==>
      exists n :: 0 <= n < |Concat(bufs)| && file.bytes == Written(old(file.bytes), offset, Concat(bufs)[..n])
  {
    hide Written;
    var pos, total := offset, 0;
    next := first;
    StartsEmpty(file.bytes, offset, []);
    for i := 0 to |bufs|
      invariant first <= next && total == |Concat(bufs[..i])| && pos == offset + total
      invariant file.bytes == Written(old(file.bytes), offset, Concat(bufs[..i]))
      invariant forall k :: first <= k < next ==> Effective(oracle(k))
    {
      ghost var before, pre := file.bytes, Concat(bufs[..i]);
      assert bufs[..i + 1][..i] == bufs[..i];
      ConcatPrefix(bufs, i + 1);
      var w;
      w, next := WriteAllAt(file, bufs[i], pos, oracle, next);
      if !w.Ok? {
        ghost var n :| 0 <= n < |bufs[i]| && file.bytes == Written(before, pos, bufs[i][..n]);
        WriteTwice(old(file.bytes), offset, pre, bufs[i][..n]);
        assert Concat(bufs)[..|pre| + n] == pre + bufs[i][..n];
        return w, next;
      }
      WriteTwice(old(file.bytes), offset, pre, bufs[i]);
      pos := pos + w.n;
      total := total + w.n;
    }
    assert bufs[..|bufs|] == bufs;
    r := Ok(total);
  }
}
