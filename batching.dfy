/** How a batch request splits its cache misses into sub-batches, and when it
    pauses between them. */
module Batching {

  /** The most tickers dispatched together: 20 in fast mode, 12 otherwise. */
  function BatchLimit(fast: bool): nat {
    if fast then 20 else 12
  }

  /** The sub-batch size for `n` cache misses. */
  function BatchSize(n: nat, fast: bool): (size: nat)
    ensures size <= n && size <= BatchLimit(fast)
    ensures size == n || size == BatchLimit(fast)
    ensures n > 0 ==> size > 0
  {
    if n <= BatchLimit(fast) then n else BatchLimit(fast)
  }

  /** The slices `s[i:i+size]` for `i` in `range(0, len(s), size)`. */
  function Chunks<T>(s: seq<T>, size: nat): seq<seq<T>>
    requires size > 0
    decreases |s|
  {
    if |s| == 0 then []
    else if |s| <= size then [s]
    else [s[..size]] + Chunks(s[size..], size)
  }

  /** The sub-batches the cache misses of one call are cut into. */
  function SubBatches<T>(misses: seq<T>, fast: bool): seq<seq<T>> {
    if misses == [] then [] else Chunks(misses, BatchSize(|misses|, fast))
  }

  /** The concatenation of a sequence of sequences. */
  function Flatten<T>(ss: seq<seq<T>>): seq<T> {
    if ss == [] then [] else ss[0] + Flatten(ss[1..])
  }

  /** The sub-batches partition the input: they concatenate back to it in
      order, none is empty, none exceeds the size, and all but the last have
      exactly the size. */
  lemma {:induction false} ChunksPartition<T>(s: seq<T>, size: nat)
    requires size > 0
    ensures Flatten(Chunks(s, size)) == s
    ensures forall i :: 0 <= i < |Chunks(s, size)| ==> 0 < |Chunks(s, size)[i]| <= size
    ensures forall i :: 0 <= i < |Chunks(s, size)| - 1 ==> |Chunks(s, size)[i]| == size
    ensures s != [] <==> Chunks(s, size) != []
    decreases |s|
  {
    if |s| == 0 {
    } else if |s| <= size {
      assert Flatten([s]) == s + Flatten([]);
    } else {
      ChunksPartition(s[size..], size);
      var rest := Chunks(s[size..], size);
      assert Chunks(s, size) == [s[..size]] + rest;
      assert ([s[..size]] + rest)[1..] == rest;
      assert s[..size] + s[size..] == s;
    }
  }

  /** Peeling the first sub-batch off a suffix. */
  lemma FlattenStep<T>(ss: seq<seq<T>>, b: nat)
    requires b < |ss|
    ensures Flatten(ss[b..]) == ss[b] + Flatten(ss[b + 1..])
  {
    assert ss[b..][1..] == ss[b + 1..];
  }

  /** Every element of a sub-batch comes from the input. */
  lemma {:induction false} ChunkElements<T>(s: seq<T>, size: nat, i: nat, x: T)
    requires size > 0
    requires i < |Chunks(s, size)| && x in Chunks(s, size)[i]
    ensures x in s
    decreases |s|
  {
    if |s| <= size {
    } else if i == 0 {
      assert x in s[..size];
    } else {
      ChunkElements(s[size..], size, i - 1, x);
    }
  }

  /** Whether the dispatcher pauses after `batch`: there is more than one
      sub-batch and this one is not equal, as a list, to the last one. */
  predicate PausesAfter<T(==)>(chunks: seq<seq<T>>, batch: seq<T>) {
    |chunks| > 1 && batch != chunks[|chunks| - 1]
  }

  /** How long the dispatcher sleeps after `batch`: 0.2 s, 0.1 s in fast
      mode, when it pauses, and nothing otherwise. */
  function PauseLength<T(==)>(chunks: seq<seq<T>>, batch: seq<T>, fast: bool): real {
    if PausesAfter(chunks, batch) then (if fast then 0.1 else 0.2) else 0.0
  }

  /** `n` zeros. */
  function Zeros(n: nat): (z: seq<real>)
    ensures |z| == n && forall i :: 0 <= i < n ==> z[i] == 0.0
  {
    if n == 0 then [] else Zeros(n - 1) + [0.0]
  }

  /** How long the dispatcher sleeps before sub-batch `b`: the pause after
      the sub-batch before it, and nothing before the first. */
  function PauseBefore<T(==)>(chunks: seq<seq<T>>, b: nat, fast: bool): real
    requires b <= |chunks|
  {
    if b == 0 then 0.0 else PauseLength(chunks, chunks[b - 1], fast)
  }

  /** The sleep before each of the `n` fetches of a sub-batch that follows a
      pause `p`: `p` before the first, nothing before the others. */
  function LeadingPause(p: real, n: nat): (g: seq<real>)
    ensures |g| == n
  {
    if n == 0 then [] else [p] + Zeros(n - 1)
  }

  /** The sleep before each fetch of the first `n` sub-batches, in dispatch
      order. */
  function PausesBefore<T(==)>(chunks: seq<seq<T>>, fast: bool, n: nat): seq<real>
    requires n <= |chunks|
  {
    if n == 0 then [] else PausesBefore(chunks, fast, n - 1) + LeadingPause(PauseBefore(chunks, n - 1, fast), |chunks[n - 1]|)
  }

  /** The order in which the first `n` sub-batches are dispatched: each in
      the order `shuffle` gives it, one after the other. */
  function DispatchOrder<T>(chunks: seq<seq<T>>, shuffle: (nat, seq<T>) -> seq<T>, n: nat): seq<T>
    requires n <= |chunks|
  {
    if n == 0 then [] else DispatchOrder(chunks, shuffle, n - 1) + shuffle(n - 1, chunks[n - 1])
  }

  predicate NoDuplicates<T(==)>(s: seq<T>) {
    forall i, j :: 0 <= i < j < |s| ==> s[i] != s[j]
  }

  /** When the cache misses hold no duplicate, comparing with the last
      sub-batch by value is the same as comparing by position: the dispatcher
      pauses after every sub-batch but the last. */
  lemma {:induction false} PauseByPosition<T>(s: seq<T>, size: nat, i: nat)
    requires size > 0 && NoDuplicates(s)
    requires i < |Chunks(s, size)|
    ensures PausesAfter(Chunks(s, size), Chunks(s, size)[i]) <==> i < |Chunks(s, size)| - 1
    decreases |s|
  {
    var chunks := Chunks(s, size);
    if |s| > size {
      var rest := Chunks(s[size..], size);
      assert chunks == [s[..size]] + rest;
      ChunksPartition(s[size..], size);
      assert |rest| > 0;
      assert chunks[|chunks| - 1] == rest[|rest| - 1];
      if i == 0 {
        var last := rest[|rest| - 1];
        assert s[0] in chunks[0];
        assert s[0] !in s[size..] by {
          forall k | 0 <= k < |s[size..]| ensures s[size..][k] != s[0] {
            assert s[size..][k] == s[size + k];
          }
        }
        if s[0] in last {
          ChunkElements(s[size..], size, |rest| - 1, s[0]);
          assert false;
        }
      } else {
        assert NoDuplicates(s[size..]) by {
          forall a, b | 0 <= a < b < |s[size..]| ensures s[size..][a] != s[size..][b] {
            assert s[size..][a] == s[size + a] && s[size..][b] == s[size + b];
          }
        }
        PauseByPosition(s[size..], size, i - 1);
        assert chunks[i] == rest[i - 1];
      }
    }
  }

  /** With duplicate cache misses an earlier sub-batch can equal the last one
      as a list, and then the dispatcher does not pause after it: when the
      misses are a full sub-batch twice over, they are cut into two equal
      sub-batches and no pause follows the first. */
  lemma RepeatedSubBatchSkipsPause<T>(x: seq<T>, fast: bool)
    requires |x| == BatchLimit(fast)
    ensures BatchSize(|x + x|, fast) == |x|
    ensures Chunks(x + x, BatchSize(|x + x|, fast)) == [x, x]
    ensures !PausesAfter(Chunks(x + x, BatchSize(|x + x|, fast)), x)
  {
    assert (x + x)[..|x|] == x;
    assert (x + x)[|x|..] == x;
  }

  /** A list without duplicates holds each element at most once. */
  lemma {:induction false} DistinctCount<T>(s: seq<T>, x: T)
    requires NoDuplicates(s)
    ensures multiset(s)[x] <= 1
    decreases |s|
  {
    if s != [] {
      var tail := s[1..];
      assert s == [s[0]] + tail;
      assert NoDuplicates(tail) by {
        forall i, j | 0 <= i < j < |tail| ensures tail[i] != tail[j] {
          assert tail[i] == s[i + 1] && tail[j] == s[j + 1];
        }
      }
      DistinctCount(tail, x);
      if s[0] == x {
        assert x !in tail by {
          forall i | 0 <= i < |tail| ensures tail[i] != x {
            assert tail[i] == s[i + 1];
          }
        }
      }
    }
  }

  /** A list holding each element at most as often as a list without
      duplicates has no duplicates either; in particular any permutation of
      such a list. */
  lemma DistinctByMultiset<T>(a: seq<T>, b: seq<T>)
    requires multiset(a) <= multiset(b) && NoDuplicates(b)
    ensures NoDuplicates(a)
  {
    forall i, j | 0 <= i < j < |a| ensures a[i] != a[j] {
      if a[i] == a[j] {
        var x := a[i];
        assert a == a[..i] + [x] + a[i + 1..j] + [x] + a[j + 1..];
        assert multiset(a)[x] >= 2;
        DistinctCount(b, x);
        assert false;
      }
    }
  }

  /** In a list without duplicates cut into three pieces, the middle piece
      has no duplicates and shares no element with the first. */
  lemma DistinctSplit<T>(a: seq<T>, b: seq<T>, c: seq<T>)
    requires NoDuplicates(a + b + c)
    ensures NoDuplicates(b)
    ensures forall t :: t in a ==> t !in b
  {
    var s := a + b + c;
    forall i, j | 0 <= i < j < |b| ensures b[i] != b[j] {
      assert b[i] == s[|a| + i] && b[j] == s[|a| + j];
    }
    forall t | t in a ensures t !in b {
      var i :| 0 <= i < |a| && a[i] == t;
      assert s[i] == t;
      forall k | 0 <= k < |b| ensures b[k] != t {
        assert s[|a| + k] == b[k];
      }
    }
  }
}
