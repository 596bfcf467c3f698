/** The matrix of bounded queues between workers, and which worker owns a key.
  */
module Matrix {
  import opened Keys
  import opened Bits

  datatype Edge = Edge(from: nat, to: nat)

  // What worker `i` has queued for worker `j`.
  function Queue<T>(m: map<Edge, seq<T>>, i: nat, j: nat): seq<T> {
    if Edge(i, j) in m then m[Edge(i, j)] else []
  }

  // The worker, of `n`, that owns a key.
  function Home(n: nat, k: Key): nat {
    if IsPow2(n) then Route(k, n) else 0
  }
}
